/** The two transcripts Guardian.jsx keeps: the display list `messages`,
    with its append and filter helpers, and the model-facing `llmHistory`
    that `askGuardian` rebuilds on every call. */
module Transcript {
  import opened LlmConfig

  /** The `role` of a display entry: 'user', 'guardian' or the 'thinking' placeholder. */
  datatype Speaker = UserSpeaker | GuardianSpeaker | Thinking

  datatype Entry = Entry(speaker: Speaker, text: string)

  /** The placeholder `addThinkingMessage` appends. */
  const ThinkingEntry := Entry(Thinking, "")

  /** Appending entries one batch after another is appending them together. */
  lemma AppendAssoc(a: seq<Entry>, b: seq<Entry>, c: seq<Entry>)
    ensures (a + b) + c == a + (b + c)
  {
  }

  predicate NoThinking(s: seq<Entry>) { forall i :: 0 <= i < |s| ==> s[i].speaker != Thinking }

  /** Two placeholder-free lists joined are placeholder-free. */
  lemma NoThinkingAppend(a: seq<Entry>, b: seq<Entry>)
    requires NoThinking(a) && NoThinking(b)
    ensures NoThinking(a + b)
  {
    forall i | 0 <= i < |a + b|
      ensures (a + b)[i].speaker != Thinking
    {
      if i < |a| {
        assert (a + b)[i] == a[i];
      } else {
        assert (a + b)[i] == b[i - |a|];
      }
    }
  }

  /** `removeThinkingMessage`: the filter that drops every placeholder. */
  function WithoutThinking(s: seq<Entry>): (r: seq<Entry>)
    ensures NoThinking(r)
    ensures |r| <= |s|
  {
    if s == [] then []
    else
      assert s == [s[0]] + s[1..];
      (if s[0].speaker == Thinking then [] else [s[0]]) + WithoutThinking(s[1..])
  }

  /** Filtering distributes over concatenation: the kept entries stay in their order. */
  lemma {:induction false} WithoutThinkingAppend(a: seq<Entry>, b: seq<Entry>)
    ensures WithoutThinking(a + b) == WithoutThinking(a) + WithoutThinking(b)
    decreases |a|
  {
    if a == [] {
      assert a + b == b;
    } else {
      assert (a + b)[1..] == a[1..] + b;
      WithoutThinkingAppend(a[1..], b);
    }
  }

  /** A single entry survives exactly when it is not a placeholder. */
  lemma WithoutThinkingSingle(e: Entry)
    ensures WithoutThinking([e]) == (if e.speaker == Thinking then [] else [e])
  {
    assert [e][1..] == [];
  }

  /** A placeholder appended is filtered out again. */
  lemma PlaceholderDropped(s: seq<Entry>)
    ensures WithoutThinking(s + [ThinkingEntry]) == WithoutThinking(s)
  {
    WithoutThinkingAppend(s, [ThinkingEntry]);
    WithoutThinkingSingle(ThinkingEntry);
  }

  /** Any other entry appended survives the filter, at the end. */
  lemma ShownEntryKept(s: seq<Entry>, e: Entry)
    requires e.speaker != Thinking
    ensures WithoutThinking(s + [e]) == WithoutThinking(s) + [e]
  {
    WithoutThinkingAppend(s, [e]);
    WithoutThinkingSingle(e);
  }

  /** The filter only drops entries: it never adds or duplicates one. */
  lemma {:induction false} WithoutThinkingDropsOnly(s: seq<Entry>)
    ensures multiset(WithoutThinking(s)) <= multiset(s)
    decreases |s|
  {
    if s != [] {
      WithoutThinkingDropsOnly(s[1..]);
      assert s == [s[0]] + s[1..];
    }
  }

  /** A transcript without placeholders is left as it is, so the filter is idempotent. */
  lemma {:induction false} WithoutThinkingKeeps(s: seq<Entry>)
    requires NoThinking(s)
    ensures WithoutThinking(s) == s
    decreases |s|
  {
    if s != [] {
      WithoutThinkingKeeps(s[1..]);
    }
  }

  /** No entry other than a placeholder is lost. */
  lemma {:induction false} WithoutThinkingKeepsOthers(s: seq<Entry>, e: Entry)
    requires e in s && e.speaker != Thinking
    ensures e in WithoutThinking(s)
    decreases |s|
  {
    if s[0] != e {
      WithoutThinkingKeepsOthers(s[1..], e);
    }
  }

  /** The `user` turn `askGuardian` records, present only when the text is non-empty. */
  function UserTurn(userText: string): seq<Message>
  {
    if userText != "" then [Message(User, userText)] else []
  }

  /** What `askGuardian` sends the model: the turn-start history, the user
      turn, and the scenario's context message last. */
  function Prompt(base: seq<Message>, userText: string, scenario: Scenario, data: Data): (p: seq<Message>)
    ensures |p| == |base| + |UserTurn(userText)| + 1
    ensures p[..|base|] == base
    ensures p[|p| - 1] == BuildCapsuleContext(scenario, data)
    ensures userText != "" ==> p[|base|] == Message(User, userText)
  {
    base + UserTurn(userText) + [BuildCapsuleContext(scenario, data)]
  }

  /** What `askGuardian` stores as the new history: the turn-start history, the
      user turn, and the model's reply as one `assistant` turn. */
  function Recorded(base: seq<Message>, userText: string, response: string): (h: seq<Message>)
    ensures |h| == |base| + |UserTurn(userText)| + 1
    ensures h[..|base|] == base
    ensures h[|h| - 1] == Message(Assistant, response)
    ensures userText != "" ==> h[|base|] == Message(User, userText)
  {
    base + UserTurn(userText) + [Message(Assistant, response)]
  }

  /** The model sees exactly what is stored, except that the context message
      stands where the reply is stored: the context is sent but never kept. */
  lemma PromptMatchesRecord(base: seq<Message>, userText: string, scenario: Scenario, data: Data, response: string)
    ensures Prompt(base, userText, scenario, data)[..|base| + |UserTurn(userText)|]
         == Recorded(base, userText, response)[..|base| + |UserTurn(userText)|]
         == base + UserTurn(userText)
  {
    var p := Prompt(base, userText, scenario, data);
    var h := Recorded(base, userText, response);
    assert p[..|base| + |UserTurn(userText)|] == base + UserTurn(userText);
    assert h[..|base| + |UserTurn(userText)|] == base + UserTurn(userText);
  }

  /** A history free of `system` turns stays free of them. */
  lemma RecordedHasNoSystem(base: seq<Message>, userText: string, response: string)
    requires NoSystem(base)
    ensures NoSystem(Recorded(base, userText, response))
  {
    var h := Recorded(base, userText, response);
    forall i | 0 <= i < |h|
      ensures h[i].role != System
    {
      if i < |base| {
        assert h[i] == h[..|base|][i];
      }
    }
  }
}
