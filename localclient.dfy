/** The message flattening that `chatWithGuardian` in localClient.js applies
    before calling a small local model: `system` turns are folded into a
    bracketed context on the next `user` turn, and the list is made to end
    in a `user` turn. */
module LocalClient {
  import opened LlmConfig

  /** `pendingContext += (pendingContext ? '\n' : '') + content`. */
  function Absorb(pending: string, content: string): string
  {
    pending + (if pending != "" then "\n" else "") + content
  }

  /** The user turn that carries a context. */
  function Wrap(context: string, said: string): string
  {
    "[CONTEXT FOR YOU: " + context + "]\n\nUser says: " + said
  }

  /** A user turn's content once the pending context is attached to it. */
  function Merge(pending: string, said: string): string
  {
    if pending != "" then Wrap(pending, said) else said
  }

  /** Several contexts absorbed one after the other into a pending context. */
  function JoinFrom(pending: string, contexts: seq<string>): string
    decreases |contexts|
  {
    if contexts == [] then pending else JoinFrom(Absorb(pending, contexts[0]), contexts[1..])
  }

  /** The contents of the `system` turns, in order. */
  function Contexts(ms: seq<Message>): seq<string>
  {
    if ms == [] then []
    else (if ms[0].role == System then [ms[0].content] else []) + Contexts(ms[1..])
  }

  /** The turns that are neither `system` nor `user`, in order. */
  function Others(ms: seq<Message>): seq<Message>
  {
    if ms == [] then []
    else (if ms[0].role == Assistant then [ms[0]] else []) + Others(ms[1..])
  }

  predicate NoUser(ms: seq<Message>) { forall i :: 0 <= i < |ms| ==> ms[i].role != User }

  /** The loop over the messages, as the output list it contributes and the
      context still pending at the end, starting from a pending context. */
  function Collapsed(ms: seq<Message>, pending: string): (r: (seq<Message>, string))
    ensures NoSystem(r.0)
  {
    if ms == [] then ([], pending)
    else
      var rest := ms[1..];
      match ms[0].role
      case System => Collapsed(rest, Absorb(pending, ms[0].content))
      case User =>
        var tail := Collapsed(rest, "");
        ([Message(User, Merge(pending, ms[0].content))] + tail.0, tail.1)
      case Assistant =>
        var tail := Collapsed(rest, pending);
        ([ms[0]] + tail.0, tail.1)
  }

  /** The two pushes after the loop: trailing context becomes a synthesized
      "User says: Hello" turn, and a plain "Hello" is added when the list is
      empty or does not end in a user turn. */
  function Finish(clean: seq<Message>, pending: string): (r: seq<Message>)
    ensures r != [] && r[|r| - 1].role == User
    ensures |clean| <= |r| <= |clean| + 2 && r[..|clean|] == clean
    ensures NoSystem(clean) ==> NoSystem(r)
    ensures forall i :: |clean| <= i < |r| ==> r[i].role == User
  {
    var carried := if pending != "" then clean + [Message(User, Wrap(pending, "Hello"))] else clean;
    if carried == [] || carried[|carried| - 1].role != User then carried + [Message(User, "Hello")] else carried
  }

  /** The message list the local model receives: it holds no `system` turn,
      ends in a `user` turn, and keeps the assistant turns as they were. */
  function Flattened(ms: seq<Message>): (r: seq<Message>)
    ensures r != [] && r[|r| - 1].role == User
    ensures NoSystem(r)
    ensures Others(r) == Others(ms)
  {
    var c := Collapsed(ms, "");
    var r := Finish(c.0, c.1);
    OthersOfCollapsed(ms, "");
    assert r == c.0 + r[|c.0|..];
    OthersAppend(c.0, r[|c.0|..]);
    OnlyUsersAdded(r[|c.0|..]);
    r
  }

  /** The flattening loop of `chatWithGuardian` and the pushes after it. */
  method Flatten(messages: seq<Message>) returns (clean: seq<Message>)
    ensures clean == Flattened(messages)
  {
    clean := [];
    var pending := "";
    assert messages[0..] == messages;
    assert [] + Collapsed(messages, "").0 == Collapsed(messages, "").0;
    for i := 0 to |messages|
      invariant Collapsed(messages, "")
             == (clean + Collapsed(messages[i..], pending).0, Collapsed(messages[i..], pending).1)
    {
      var msg := messages[i];
      assert messages[i..][1..] == messages[i + 1..];
      if msg.role == System {
        pending := Absorb(pending, msg.content);
      } else if msg.role == User {
        var tail := Collapsed(messages[i + 1..], "");
        assert clean + ([Message(User, Merge(pending, msg.content))] + tail.0)
            == clean + [Message(User, Merge(pending, msg.content))] + tail.0;
        clean := clean + [Message(User, Merge(pending, msg.content))];
        pending := "";
      } else {
        var tail := Collapsed(messages[i + 1..], pending);
        assert clean + ([msg] + tail.0) == clean + [msg] + tail.0;
        clean := clean + [msg];
      }
    }
    assert messages[|messages|..] == [];
    assert Collapsed(messages[|messages|..], pending) == ([], pending);
    assert clean + [] == clean;
    clean := Close(clean, pending);
  }

  /** The two pushes after the flattening loop. */
  method Close(collapsed: seq<Message>, pending: string) returns (clean: seq<Message>)
    ensures clean == Finish(collapsed, pending)
  {
    clean := collapsed;
    if pending != "" {
      clean := clean + [Message(User, Wrap(pending, "Hello"))];
    }
    if |clean| == 0 || clean[|clean| - 1].role != User {
      clean := clean + [Message(User, "Hello")];
    }
  }

  /** A run of turns without a user turn only collects: its assistant turns
      pass through and its contexts are absorbed into the pending one. */
  lemma {:induction false} UserFreeRun(run: seq<Message>, pending: string)
    requires NoUser(run)
    ensures Collapsed(run, pending) == (Others(run), JoinFrom(pending, Contexts(run)))
    decreases |run|
  {
    if run != [] {
      var next := if run[0].role == System then Absorb(pending, run[0].content) else pending;
      UserFreeRun(run[1..], next);
      RunStep(run, pending);
    }
  }

  /** A run without user turns, one turn at a time: a context is absorbed
      into the pending one, an assistant turn is passed through. */
  lemma RunStep(run: seq<Message>, pending: string)
    requires run != [] && run[0].role != User
    ensures var next := if run[0].role == System then Absorb(pending, run[0].content) else pending;
            JoinFrom(pending, Contexts(run)) == JoinFrom(next, Contexts(run[1..]))
            && Others(run) == (if run[0].role == System then Others(run[1..]) else [run[0]] + Others(run[1..]))
  {
    var cs := Contexts(run);
    if run[0].role == System {
      assert cs == [run[0].content] + Contexts(run[1..]);
      assert cs[1..] == Contexts(run[1..]);
    } else {
      assert cs == Contexts(run[1..]);
    }
  }

  /** The first user turn takes every context gathered before it, and the rest
      of the list is flattened from an empty pending context: each context
      lands in exactly one user turn, and assistant turns do not flush it. */
  lemma {:induction false} FirstUserTakesContext(run: seq<Message>, said: string, rest: seq<Message>, pending: string)
    requires NoUser(run)
    ensures Collapsed(run + [Message(User, said)] + rest, pending)
         == (Others(run) + [Message(User, Merge(JoinFrom(pending, Contexts(run)), said))] + Collapsed(rest, "").0,
             Collapsed(rest, "").1)
    decreases |run|
  {
    var ms := run + [Message(User, said)] + rest;
    if run == [] {
      assert ms == [Message(User, said)] + rest && ms[1..] == rest;
      assert Others(run) == [] && Contexts(run) == [];
      var merged := [Message(User, Merge(pending, said))];
      assert Others(run) + merged + Collapsed(rest, "").0 == merged + Collapsed(rest, "").0;
    } else {
      assert ms[1..] == run[1..] + [Message(User, said)] + rest;
      var next := if run[0].role == System then Absorb(pending, run[0].content) else pending;
      FirstUserTakesContext(run[1..], said, rest, next);
      RunStep(run, pending);
      if run[0].role != System {
        var merged := [Message(User, Merge(JoinFrom(next, Contexts(run[1..])), said))];
        assert ms[0] == run[0];
        assert [run[0]] + (Others(run[1..]) + merged + Collapsed(rest, "").0)
            == [run[0]] + Others(run[1..]) + merged + Collapsed(rest, "").0;
      }
    }
  }

  lemma {:induction false} OthersOfCollapsed(ms: seq<Message>, pending: string)
    ensures Others(Collapsed(ms, pending).0) == Others(ms)
    decreases |ms|
  {
    if ms != [] {
      var next := if ms[0].role == System then Absorb(pending, ms[0].content)
                  else if ms[0].role == User then "" else pending;
      OthersOfCollapsed(ms[1..], next);
      var tail := Collapsed(ms[1..], next).0;
      if ms[0].role != System {
        var head := if ms[0].role == User then Message(User, Merge(pending, ms[0].content)) else ms[0];
        assert ([head] + tail)[1..] == tail;
      }
    }
  }

  lemma {:induction false} OthersAppend(a: seq<Message>, b: seq<Message>)
    ensures Others(a + b) == Others(a) + Others(b)
    decreases |a|
  {
    if a == [] {
      assert a + b == b;
    } else {
      assert (a + b)[1..] == a[1..] + b;
      OthersAppend(a[1..], b);
    }
  }

  lemma {:induction false} OnlyUsersAdded(extra: seq<Message>)
    requires forall i :: 0 <= i < |extra| ==> extra[i].role == User
    ensures Others(extra) == []
    decreases |extra|
  {
    if extra != [] {
      OnlyUsersAdded(extra[1..]);
    }
  }

  /** With no context pending and no system turn, the loop copies its input. */
  lemma {:induction false} CollapsedCopies(ms: seq<Message>)
    requires NoSystem(ms)
    ensures Collapsed(ms, "") == (ms, "")
    decreases |ms|
  {
    if ms != [] {
      CollapsedCopies(ms[1..]);
      assert ms == [ms[0]] + ms[1..];
    }
  }

  /** A list without system turns that already ends in a user turn is sent as it is. */
  lemma UnchangedWhenClean(ms: seq<Message>)
    requires NoSystem(ms) && ms != [] && ms[|ms| - 1].role == User
    ensures Flattened(ms) == ms
  {
    CollapsedCopies(ms);
  }

  /** A context left over at the end becomes a synthesized user turn. */
  lemma TrailingContextSaysHello(ms: seq<Message>)
    requires Collapsed(ms, "").1 != ""
    ensures Flattened(ms) == Collapsed(ms, "").0 + [Message(User, Wrap(Collapsed(ms, "").1, "Hello"))]
  {
  }

  /** An empty list becomes a plain "Hello", and an assistant turn at the end is followed by one. */
  lemma HelloExamples()
    ensures Flattened([]) == [Message(User, "Hello")]
    ensures Flattened([Message(Assistant, "x")]) == [Message(Assistant, "x"), Message(User, "Hello")]
  {
    var one := [Message(Assistant, "x")];
    assert Collapsed(one, "") == (one, "") by {
      assert one[1..] == [];
      assert [one[0]] + [] == one;
    }
  }

  /** Two contexts are joined with a newline and attached to the next user turn. */
  lemma ContextsJoined()
    ensures Flattened([Message(System, "a"), Message(System, "b"), Message(User, "hi")])
         == [Message(User, Wrap("a\nb", "hi"))]
  {
    var run := [Message(System, "a"), Message(System, "b")];
    var ms := [Message(System, "a"), Message(System, "b"), Message(User, "hi")];
    assert ms == run + [Message(User, "hi")] + [];
    FirstUserTakesContext(run, "hi", [], "");
    assert run[1..] == [Message(System, "b")] && run[1..][1..] == [];
    assert Contexts(run) == ["a", "b"];
    assert JoinFrom("", ["a", "b"]) == "a\nb" by {
      assert ["a", "b"][1..] == ["b"];
      assert ["b"][1..] == [];
      assert Absorb("", "a") == "a";
      assert Absorb("a", "b") == "a\nb";
    }
    assert Others(run) == [];
    assert Collapsed([], "") == ([], "");
    var x := Message(User, Wrap("a\nb", "hi"));
    assert [] + [x] + [] == [x];
    assert Collapsed(ms, "") == ([x], "");
  }

  /** The same example, as the text the model reads. */
  lemma ContextExample()
    ensures Flattened([Message(System, "a"), Message(System, "b"), Message(User, "hi")])
         == [Message(User, "[CONTEXT FOR YOU: a\nb]\n\nUser says: hi")]
  {
    ContextsJoined();
    assert Wrap("a\nb", "hi") == "[CONTEXT FOR YOU: a\nb]\n\nUser says: hi";
  }
}
