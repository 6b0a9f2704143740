/** The Guardian component's state and its handlers, step by step: each
    method updates the fields the way the corresponding function of
    Guardian.jsx updates its React state, and is proved to end in the
    state the pure plan of the turn describes. */
module Guardian {
  import opened Wrappers
  import opened Text
  import opened CapsuleIntent
  import opened Duration
  import opened LlmConfig
  import opened Transcript
  import opened GuardianPlan

  class Session {
    /** `guardianState`, `currentCapsuleId`, `messages`, `llmHistory`,
        `isProcessing` and `hasGreeted`. */
    var phase: Phase
    var focus: Option<nat>
    var messages: seq<Entry>
    var history: seq<Message>
    var processing: bool
    var greeted: bool

    function Snap(): Snapshot
      reads this
    {
      Snapshot(phase, focus, messages, history)
    }

    /** Between turns: the plan's invariant holds and no turn is in progress. */
    predicate Valid()
      reads this
    {
      Consistent(Snap()) && !processing
    }

    /** The initial state of the component. */
    constructor ()
      ensures phase == Phase.Greeting && focus == None && messages == [] && history == []
      ensures !processing && !greeted
      ensures Valid()
    {
      phase := Phase.Greeting;
      focus := None;
      messages := [];
      history := [];
      processing := false;
      greeted := false;
    }

    method AddGuardianMessage(text: string)
      modifies this`messages
      ensures messages == old(messages) + [Entry(GuardianSpeaker, text)]
      ensures WithoutThinking(messages) == WithoutThinking(old(messages)) + [Entry(GuardianSpeaker, text)]
    {
      ShownEntryKept(messages, Entry(GuardianSpeaker, text));
      messages := messages + [Entry(GuardianSpeaker, text)];
    }

    method AddUserMessage(text: string)
      modifies this`messages
      ensures messages == old(messages) + [Entry(UserSpeaker, text)]
      ensures WithoutThinking(messages) == WithoutThinking(old(messages)) + [Entry(UserSpeaker, text)]
    {
      ShownEntryKept(messages, Entry(UserSpeaker, text));
      messages := messages + [Entry(UserSpeaker, text)];
    }

    method AddThinkingMessage()
      modifies this`messages
      ensures messages == old(messages) + [ThinkingEntry]
      ensures WithoutThinking(messages) == WithoutThinking(old(messages))
    {
      PlaceholderDropped(messages);
      messages := messages + [ThinkingEntry];
    }

    method RemoveThinkingMessage()
      modifies this`messages
      ensures messages == WithoutThinking(old(messages))
      ensures WithoutThinking(messages) == messages
    {
      WithoutThinkingKeeps(WithoutThinking(messages));
      messages := WithoutThinking(messages);
    }

    /** `askGuardian`: `base` is the history the handler's closure saw when
        the turn began, so each call overwrites the previous call's record. */
    method AskGuardian(base: seq<Message>, userText: string, scenario: Scenario, data: Data,
                       llm: seq<Message> -> string) returns (response: string)
      modifies this`history
      ensures response == Response(base, Ask(userText, scenario, data), llm)
      ensures history == Recorded(base, userText, response)
    {
      var contextMsg := BuildCapsuleContext(scenario, data);
      var newHistory := base;
      if userText != "" {
        newHistory := newHistory + [Message(User, userText)];
      }
      var forModel := newHistory + [contextMsg];
      response := llm(forModel);
      newHistory := newHistory + [Message(Assistant, response)];
      history := newHistory;
    }

    /** `generateGreeting`. */
    method GenerateGreeting(llm: seq<Message> -> string)
      modifies this
      ensures var response := Response(old(history), Ask("", Scenario.Greeting, map[]), llm);
              messages == WithoutThinking(old(messages)) + [Entry(GuardianSpeaker, response)]
              && history == Recorded(old(history), "", response)
      ensures phase == AwaitingId && focus == old(focus) && !processing && greeted == old(greeted)
    {
      processing := true;
      AddThinkingMessage();
      var response := AskGuardian(history, "", Scenario.Greeting, map[], llm);
      RemoveThinkingMessage();
      AddGuardianMessage(response);
      phase := AwaitingId;
      processing := false;
    }

    /** The greeting effect: the first activation greets, later ones do not. */
    method Activate(llm: seq<Message> -> string)
      modifies this
      ensures greeted
      ensures old(greeted) ==> Snap() == old(Snap()) && processing == old(processing)
      ensures !old(greeted) ==>
                var response := Response(old(history), Ask("", Scenario.Greeting, map[]), llm);
                messages == WithoutThinking(old(messages)) + [Entry(GuardianSpeaker, response)]
                && history == Recorded(old(history), "", response)
                && phase == AwaitingId && focus == old(focus) && !processing
    {
      if !greeted {
        greeted := true;
        GenerateGreeting(llm);
      }
    }

    /** The reset effect: deactivation clears both transcripts, the state and the focus. */
    method Deactivate()
      modifies this
      ensures phase == Phase.Greeting && focus == None && messages == [] && history == []
      ensures !processing && !greeted
      ensures Valid()
    {
      messages := [];
      history := [];
      phase := Phase.Greeting;
      focus := None;
      processing := false;
      greeted := false;
    }

    /** The three steps each answer of a handler takes: the placeholder is
        removed, the model is asked, and its answer is displayed. */
    method Reply(base: seq<Message>, a: Ask, llm: seq<Message> -> string)
      modifies this`messages, this`history
      ensures messages == WithoutThinking(old(messages)) + Replies(base, [a], llm)
      ensures history == FinalHistory(base, [a], llm)
    {
      RemoveThinkingMessage();
      var response := AskGuardian(base, a.userText, a.scenario, a.data, llm);
      AddGuardianMessage(response);
    }

    /** `handleAwaitingId`; a rejected lookup is returned as the thrown reason. */
    method HandleAwaitingId(text: string, env: Env, base: seq<Message>) returns (thrown: Option<string>)
      modifies this`messages, this`history, this`phase, this`focus
      ensures match AwaitingIdPlan(old(phase), old(focus), text, env)
              case Done(p) =>
                thrown == None && phase == p.phase && focus == p.focus
                && messages == WithoutThinking(old(messages)) + Replies(base, p.asks, env.llm)
                && history == FinalHistory(base, p.asks, env.llm)
              case Thrown(r) =>
                thrown == Some(r) && phase == old(phase) && focus == old(focus)
                && messages == old(messages) && history == old(history)
    {
      if !env.walletConnected {
        var a := Ask(text, WalletNeeded, map[]);
        assert AwaitingIdPlan(phase, focus, text, env) == Done(Plan([a], phase, focus));
        Reply(base, a, env.llm);
        return None;
      }
      var capsuleId := ExtractCapsuleId(text);
      if capsuleId == None {
        var a := Ask(text, NoCapsuleId, map[]);
        assert AwaitingIdPlan(phase, focus, text, env) == Done(Plan([a], phase, focus));
        Reply(base, a, env.llm);
        return None;
      }
      var id := capsuleId.value;
      var nextId := env.nextId;
      if nextId.Fails? {
        assert AwaitingIdPlan(phase, focus, text, env) == Thrown(nextId.reason);
        return Some(nextId.reason);
      }
      if id >= nextId.value {
        var a := Ask(text, CapsuleNotFound, map[Id := NatToString(id), MaxId := IntToString(nextId.value - 1)]);
        assert AwaitingIdPlan(phase, focus, text, env) == Done(Plan([a], phase, focus));
        Reply(base, a, env.llm);
        return None;
      }
      assert AwaitingIdPlan(phase, focus, text, env) == LookupPlan(focus, text, id, env);
      thrown := Lookup(text, id, env, base);
    }

    /** The lookup of `handleAwaitingId` once the id is known to exist. */
    method Lookup(text: string, id: nat, env: Env, base: seq<Message>) returns (thrown: Option<string>)
      modifies this`messages, this`history, this`phase, this`focus
      ensures match LookupPlan(old(focus), text, id, env)
              case Done(p) =>
                thrown == None && phase == p.phase && focus == p.focus
                && messages == WithoutThinking(old(messages)) + Replies(base, p.asks, env.llm)
                && history == FinalHistory(base, p.asks, env.llm)
              case Thrown(r) =>
                thrown == Some(r) && phase == old(phase) && focus == old(focus)
                && messages == old(messages) && history == old(history)
    {
      var capsule := env.capsule(id);
      if capsule.Fails? {
        return Some(capsule.reason);
      }
      var c := capsule.value;
      var shortCreator := ShortAddress(c.creator);
      var createdAtStr := env.formatDate(c.createdAt);
      var unlockTimeStr := env.formatDate(c.unlockTime);
      if c.unlocked {
        Reply(base, Ask(text, CapsuleAlreadyUnlocked,
                        map[Id := NatToString(id), Creator := shortCreator, CreatedAt := createdAtStr]), env.llm);
        phase := AwaitingId;
        return None;
      }
      var block := env.block;
      if block.Fails? {
        return Some(block.reason);
      }
      var timeRemaining := c.unlockTime - block.value;
      if timeRemaining > 0 {
        Reply(base, Ask(text, CapsuleFoundTimeLocked,
                        map[Id := NatToString(id), Creator := shortCreator, CreatedAt := createdAtStr,
                            UnlockTime := unlockTimeStr, TimeRemaining := FormatTimeRemaining(timeRemaining)]), env.llm);
        phase := AwaitingId;
        return None;
      }
      focus := Some(id);
      Reply(base, Ask(text, CapsuleFoundReady,
                      map[Id := NatToString(id), Creator := shortCreator, CreatedAt := createdAtStr,
                          UnlockTime := unlockTimeStr]), env.llm);
      phase := AwaitingPassword;
      thrown := None;
    }

    /** `handleAwaitingPassword`; the only error it lets escape comes from
        `handleAwaitingId` when the text names another capsule. */
    method HandleAwaitingPassword(text: string, env: Env, base: seq<Message>) returns (thrown: Option<string>)
      modifies this`messages, this`history, this`phase, this`focus
      ensures match AwaitingPasswordPlan(old(phase), old(focus), text, env)
              case Done(p) =>
                thrown == None && phase == p.phase && focus == p.focus
                && messages == WithoutThinking(old(messages)) + Replies(base, p.asks, env.llm)
                && history == FinalHistory(base, p.asks, env.llm)
              case Thrown(r) =>
                thrown == Some(r) && phase == AwaitingId && focus == old(focus)
                && messages == WithoutThinking(old(messages)) + [ThinkingEntry] && history == old(history)
    {
      var password := Trim(text);
      if password == "" {
        var a := Ask(text, CapsuleFoundReady, map[Id := FocusText(focus)]);
        assert AwaitingPasswordPlan(phase, focus, text, env) == Done(Plan([a], phase, focus));
        Reply(base, a, env.llm);
        return None;
      }
      var maybeNewId := ExtractCapsuleId(text);
      if maybeNewId.Some? && (Contains(Lower(text), "capsule") || Contains(Lower(text), "vault")) {
        assert AwaitingPasswordPlan(phase, focus, text, env) == AwaitingIdPlan(AwaitingId, focus, text, env);
        thrown := SwitchCapsule(text, env, base);
        return;
      }
      assert AwaitingPasswordPlan(phase, focus, text, env) == Done(AttemptPlan(phase, focus, password, env));
      TryUnlock(password, env, base);
      thrown := None;
    }

    /** A request for another capsule while a password is awaited: the
        state goes back to `AWAITING_ID`, a fresh placeholder is shown and
        the text is handled as a capsule request. */
    method SwitchCapsule(text: string, env: Env, base: seq<Message>) returns (thrown: Option<string>)
      modifies this`messages, this`history, this`phase, this`focus
      ensures match AwaitingIdPlan(AwaitingId, old(focus), text, env)
              case Done(p) =>
                thrown == None && phase == p.phase && focus == p.focus
                && messages == WithoutThinking(old(messages)) + Replies(base, p.asks, env.llm)
                && history == FinalHistory(base, p.asks, env.llm)
              case Thrown(r) =>
                thrown == Some(r) && phase == AwaitingId && focus == old(focus)
                && messages == WithoutThinking(old(messages)) + [ThinkingEntry] && history == old(history)
    {
      RemoveThinkingMessage();
      phase := AwaitingId;
      AddThinkingMessage();
      thrown := HandleAwaitingId(text, env, base);
    }

    /** The unlock attempt of `handleAwaitingPassword`: the test is
        announced with the trimmed password, a new placeholder is shown while
        the contract is called, and the outcome concludes. */
    method TryUnlock(password: string, env: Env, base: seq<Message>)
      modifies this`messages, this`history, this`phase, this`focus
      ensures var p := AttemptPlan(old(phase), old(focus), password, env);
              phase == p.phase && focus == p.focus
              && messages == WithoutThinking(old(messages)) + Replies(base, p.asks, env.llm)
              && history == FinalHistory(base, p.asks, env.llm)
    {
      var testing := Ask(password, PasswordTesting, map[Id := FocusText(focus)]);
      ghost var c := Conclusion(phase, focus, env.unlock);
      assert AttemptPlan(phase, focus, password, env) == Plan([testing] + c.asks, c.phase, c.focus);
      ghost var cleared := WithoutThinking(messages);
      Announce(base, testing, env.llm);
      ghost var announced := [Entry(GuardianSpeaker, Response(base, testing, env.llm))];
      Conclude(env.unlock, base, env.llm);
      assert messages == cleared + announced + Replies(base, c.asks, env.llm);
      RepliesCons(base, testing, c.asks, env.llm);
      AppendAssoc(cleared, announced, Replies(base, c.asks, env.llm));
    }

    /** An answer shown while the turn goes on: the placeholder is replaced
        by the answer and a new placeholder follows it. */
    method Announce(base: seq<Message>, a: Ask, llm: seq<Message> -> string)
      modifies this`messages, this`history
      ensures messages == WithoutThinking(old(messages)) + [Entry(GuardianSpeaker, Response(base, a, llm)), ThinkingEntry]
      ensures WithoutThinking(messages) == WithoutThinking(old(messages)) + [Entry(GuardianSpeaker, Response(base, a, llm))]
      ensures history == Recorded(base, a.userText, Response(base, a, llm))
    {
      RemoveThinkingMessage();
      var response := AskGuardian(base, a.userText, a.scenario, a.data, llm);
      AddGuardianMessage(response);
      AddThinkingMessage();
    }

    /** The end of the unlock attempt: the download on success, otherwise the
        `catch`. */
    method Conclude(outcome: UnlockOutcome, base: seq<Message>, llm: seq<Message> -> string)
      modifies this`messages, this`history, this`phase, this`focus
      ensures var p := Conclusion(old(phase), old(focus), outcome);
              phase == p.phase && focus == p.focus
              && messages == WithoutThinking(old(messages)) + Replies(base, p.asks, llm)
              && history == FinalHistory(base, p.asks, llm)
    {
      if outcome == Opened {
        // The placeholder goes before the payload is fetched and decrypted;
        // the download is then announced.
        var a := Ask("", DownloadComplete, map[Id := FocusText(focus)]);
        assert Conclusion(phase, focus, outcome) == Plan([a], AwaitingId, None);
        Reply(base, a, llm);
        focus := None;
        phase := AwaitingId;
      } else {
        assert Conclusion(phase, focus, outcome) == CatchPlan(phase, focus, FailureReason(outcome));
        Fail(outcome, base, llm);
      }
    }

    /** A failed attempt: when the transaction went through but the payload
        could not be used, the placeholder goes first; then the `catch`. */
    method Fail(outcome: UnlockOutcome, base: seq<Message>, llm: seq<Message> -> string)
      requires outcome != Opened
      modifies this`messages, this`history, this`phase
      ensures var p := CatchPlan(old(phase), focus, FailureReason(outcome));
              phase == p.phase
              && messages == WithoutThinking(old(messages)) + Replies(base, p.asks, llm)
              && history == FinalHistory(base, p.asks, llm)
    {
      if !outcome.Rejected? {
        RemoveThinkingMessage();
      }
      Catch(FailureReason(outcome), base, llm);
    }

    /** The `catch` of the unlock attempt, which tells a wrong password, a
        capsule still locked, one already opened and any other failure apart;
        every class is answered, and all but a wrong password leave
        `AWAITING_PASSWORD`. */
    method Catch(reason: string, base: seq<Message>, llm: seq<Message> -> string)
      modifies this`messages, this`history, this`phase
      ensures var p := CatchPlan(old(phase), focus, reason);
              phase == p.phase && focus == p.focus
              && messages == WithoutThinking(old(messages)) + Replies(base, p.asks, llm)
              && history == FinalHistory(base, p.asks, llm)
    {
      var answer: Ask;
      var next := AwaitingId;
      match Classify(reason) {
        case BadPassword =>
          answer := Ask("", WrongPassword, map[Id := FocusText(focus)]);
          next := phase;
        case TooEarly =>
          answer := Ask("", CapsuleFoundTimeLocked, map[Id := FocusText(focus), TimeRemaining := "unknown"]);
        case AlreadyOpened =>
          answer := Ask("", CapsuleAlreadyUnlocked, map[Id := FocusText(focus)]);
        case Unexplained =>
          answer := Ask("", UnlockError, map[Id := FocusText(focus), Error := reason]);
      }
      assert CatchPlan(phase, focus, reason) == Plan([answer], next, focus);
      Reply(base, answer, llm);
      phase := next;
    }

    /** The `switch` of `processMessage`. A thrown reason leaves the focus and
        the history alone, and no entry but a placeholder is added. */
    method Handle(text: string, env: Env, base: seq<Message>) returns (thrown: Option<string>)
      modifies this`messages, this`history, this`phase, this`focus
      ensures match Dispatch(old(phase), old(focus), text, env)
              case Done(p) =>
                thrown == None && phase == p.phase && focus == p.focus
                && messages == WithoutThinking(old(messages)) + Replies(base, p.asks, env.llm)
                && history == FinalHistory(base, p.asks, env.llm)
              case Thrown(r) =>
                thrown == Some(r) && focus == old(focus) && history == old(history)
                && WithoutThinking(messages) == WithoutThinking(old(messages))
    {
      if phase == AwaitingPassword {
        thrown := HandleAwaitingPassword(text, env, base);
        PlaceholderDropped(WithoutThinking(old(messages)));
        WithoutThinkingKeeps(WithoutThinking(old(messages)));
      } else {
        thrown := HandleAwaitingId(text, env, base);
      }
    }

    /** The body of `processMessage`'s `try`, with its `catch`: a thrown
        reason is answered as an `UNLOCK_ERROR` and ends in `AWAITING_ID`. */
    method Respond(text: string, env: Env, base: seq<Message>)
      modifies this`messages, this`history, this`phase, this`focus
      ensures var p := TurnPlan(old(phase), old(focus), text, env);
              phase == p.phase && focus == p.focus
              && messages == WithoutThinking(old(messages)) + Replies(base, p.asks, env.llm)
              && history == FinalHistory(base, p.asks, env.llm)
    {
      var startFocus := focus;
      var thrown := Handle(text, env, base);
      if thrown.Some? {
        var a := Ask(text, UnlockError, map[Id := ErrorId(startFocus), Error := ErrorText(thrown.value)]);
        Reply(base, a, env.llm);
        phase := AwaitingId;
      }
    }

    /** The start of `processMessage`: the user's entry is shown, the turn
        is marked in progress, and a placeholder follows. */
    method BeginTurn(text: string)
      modifies this`messages, this`processing
      ensures messages == old(messages) + [Entry(UserSpeaker, text), ThinkingEntry]
      ensures WithoutThinking(messages) == WithoutThinking(old(messages)) + [Entry(UserSpeaker, text)]
      ensures processing
    {
      AddUserMessage(text);
      processing := true;
      AddThinkingMessage();
    }

    /** `processMessage`: one whole turn. */
    method ProcessMessage(text: string, env: Env)
      modifies this`messages, this`history, this`phase, this`focus, this`processing
      ensures Snap() == Turn(old(Snap()), text, env)
      ensures !processing
      ensures old(Consistent(Snap())) ==> Valid()
    {
      ghost var start := Snap();
      ghost var p := TurnPlan(start.phase, start.focus, text, env);
      var base := history;
      BeginTurn(text);
      ghost var posted := WithoutThinking(messages);
      Respond(text, env, base);
      processing := false;
      assert Snap() == Snapshot(p.phase, p.focus, posted + Replies(base, p.asks, env.llm), FinalHistory(base, p.asks, env.llm));
      assert Snap() == Turn(start, text, env);
    }

    /** `handleSend`: the input is trimmed, and nothing happens when it is
        empty or a turn is still in progress. */
    method Send(input: string, env: Env)
      modifies this
      ensures Trim(input) == "" || old(processing) ==> Snap() == old(Snap()) && processing == old(processing)
      ensures Trim(input) != "" && !old(processing) ==> Snap() == Turn(old(Snap()), Trim(input), env) && !processing
      ensures greeted == old(greeted)
    {
      var text := Trim(input);
      if text == "" || processing {
        return;
      }
      ProcessMessage(text, env);
    }
  }
}
