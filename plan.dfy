/** What one turn of the Guardian dialogue does, as a pure function of the
    dialogue state and of what the collaborators answer: which context
    scenarios are put to the model, in order, and the state and focus the
    turn ends in (Guardian.jsx, `processMessage`, `handleAwaitingId`,
    `handleAwaitingPassword`). */
module GuardianPlan {
  import opened Wrappers
  import opened Text
  import opened CapsuleIntent
  import opened Duration
  import opened LlmConfig
  import opened Transcript

  /** `guardianState`. */
  datatype Phase = Greeting | AwaitingId | AwaitingPassword

  /** A call to the contract or the provider: its value, or the rejection it
      raises, stood for by `err.reason || err.message` ("" when both are missing). */
  datatype Call<T> = Returns(value: T) | Fails(reason: string)

  /** The fields of `contract.capsules(id)` the dialogue reads. */
  datatype Capsule = Capsule(creator: string, unlockTime: nat, createdAt: nat, unlocked: bool)

  /** How an unlock attempt ends: the file is downloaded, the gateway fetch
      fails, decryption yields nothing, or a call rejects with a reason. */
  datatype UnlockOutcome = Opened | GatewayFailed | EmptyDecryption | Rejected(reason: string)

  /** The collaborators of a turn: whether a contract and provider exist,
      `nextCapsuleId`, `capsules`, the latest block's timestamp, the unlock
      attempt, `formatDate`, and the model. */
  datatype Env = Env(
    walletConnected: bool,
    nextId: Call<nat>,
    capsule: nat -> Call<Capsule>,
    block: Call<nat>,
    unlock: UnlockOutcome,
    formatDate: nat -> string,
    llm: seq<Message> -> string)

  /** One `askGuardian(userText, scenario, data)` call; "" stands for a missing user text. */
  datatype Ask = Ask(userText: string, scenario: Scenario, data: Data)

  /** The calls a turn makes, in order, and the state and focus it ends in. */
  datatype Plan = Plan(asks: seq<Ask>, phase: Phase, focus: Option<nat>)

  /** A handler either finishes or throws a reason out to `processMessage`. */
  datatype Handled = Done(plan: Plan) | Thrown(reason: string)

  /** `${creator.substring(0, 6)}...${creator.substring(creator.length - 4)}`,
      with `substring` clamping its bounds to the string. */
  function ShortAddress(creator: string): string
  {
    var head := if |creator| < 6 then |creator| else 6;
    var tail := if |creator| < 4 then 0 else |creator| - 4;
    creator[..head] + "..." + creator[tail..]
  }

  /** `${currentCapsuleId}` in a context: "null" when there is no focus. */
  function FocusText(focus: Option<nat>): string
  {
    match focus
    case None => "null"
    case Some(n) => NatToString(n)
  }

  /** `currentCapsuleId || '?'`: both null and 0 are reported as "?". */
  function ErrorId(focus: Option<nat>): string
  {
    match focus
    case None => "?"
    case Some(n) => if n == 0 then "?" else NatToString(n)
  }

  /** `err.reason || err.message || 'Unknown error'`. */
  function ErrorText(reason: string): string
  {
    if reason == "" then "Unknown error" else reason
  }

  /** `handleAwaitingId`. Its first three answers leave state and focus as
      they were; only a capsule ready to unlock moves the focus. */
  function AwaitingIdPlan(phase: Phase, focus: Option<nat>, text: string, env: Env): (h: Handled)
    ensures h.Done? ==> |h.plan.asks| == 1 && h.plan.asks[0].userText == text
    ensures h.Done? && h.plan.focus != focus ==>
              h.plan.focus == ExtractCapsuleId(text) && h.plan.phase == AwaitingPassword
              && h.plan.asks[0].scenario == CapsuleFoundReady
  {
    if !env.walletConnected then Done(Plan([Ask(text, WalletNeeded, map[])], phase, focus))
    else
      match ExtractCapsuleId(text)
      case None => Done(Plan([Ask(text, NoCapsuleId, map[])], phase, focus))
      case Some(id) =>
        match env.nextId
        case Fails(r) => Thrown(r)
        case Returns(next) =>
          if id >= next then
            Done(Plan([Ask(text, CapsuleNotFound, map[Id := NatToString(id), MaxId := IntToString(next - 1)])], phase, focus))
          else LookupPlan(focus, text, id, env)
  }

  /** The part of `handleAwaitingId` after the id is known to exist: the
      capsule is read and described by its status. */
  function LookupPlan(focus: Option<nat>, text: string, id: nat, env: Env): (h: Handled)
    ensures h.Done? ==> |h.plan.asks| == 1 && h.plan.asks[0].userText == text
    ensures h.Done? && h.plan.focus != focus ==>
              h.plan.focus == Some(id) && h.plan.phase == AwaitingPassword
              && h.plan.asks[0].scenario == CapsuleFoundReady
  {
    match env.capsule(id)
    case Fails(r) => Thrown(r)
    case Returns(c) =>
      var shown := map[Id := NatToString(id), Creator := ShortAddress(c.creator), CreatedAt := env.formatDate(c.createdAt)];
      if c.unlocked then Done(Plan([Ask(text, CapsuleAlreadyUnlocked, shown)], AwaitingId, focus))
      else
        match env.block
        case Fails(r) => Thrown(r)
        case Returns(now) =>
          var remaining := c.unlockTime - now;
          var dated := shown[UnlockTime := env.formatDate(c.unlockTime)];
          if remaining > 0 then
            Done(Plan([Ask(text, CapsuleFoundTimeLocked, dated[TimeRemaining := FormatTimeRemaining(remaining)])], AwaitingId, focus))
          else
            Done(Plan([Ask(text, CapsuleFoundReady, dated)], AwaitingPassword, Some(id)))
  }

  /** The text names another capsule: an id can be extracted and the text
      mentions "capsule" or "vault" in any case. */
  predicate SwitchesCapsule(text: string)
  {
    ExtractCapsuleId(text).Some? && (Contains(Lower(text), "capsule") || Contains(Lower(text), "vault"))
  }

  /** The reason the `catch` of the unlock attempt sees. */
  function FailureReason(outcome: UnlockOutcome): string
    requires outcome != Opened
  {
    match outcome
    case GatewayFailed => "Failed to retrieve payload from IPFS."
    case EmptyDecryption => "Decryption produced empty output."
    case Rejected(r) => r
  }

  /** The classes of failure, tested in the source's order. */
  datatype Verdict = BadPassword | TooEarly | AlreadyOpened | Unexplained

  /** The class of a failure reason: a wrong password whenever a
      wrong-password marker occurs, otherwise the first of "Too early" and
      "Unlocked" that occurs, and unexplained when none does. */
  function Classify(reason: string): (v: Verdict)
    ensures v == BadPassword <==> Contains(reason, "Bad Pass") || Contains(reason, "password") || Contains(reason, "revert")
    ensures v == TooEarly ==> Contains(reason, "Too early")
    ensures v == AlreadyOpened ==> Contains(reason, "Unlocked") && !Contains(reason, "Too early")
    ensures v == Unexplained <==>
              !Contains(reason, "Bad Pass") && !Contains(reason, "password") && !Contains(reason, "revert")
              && !Contains(reason, "Too early") && !Contains(reason, "Unlocked")
  {
    if Contains(reason, "Bad Pass") || Contains(reason, "password") || Contains(reason, "revert") then BadPassword
    else if Contains(reason, "Too early") then TooEarly
    else if Contains(reason, "Unlocked") then AlreadyOpened
    else Unexplained
  }

  /** How the unlock attempt ends, once the test is announced: the download
      on success, otherwise the `catch`. */
  function Conclusion(phase: Phase, focus: Option<nat>, outcome: UnlockOutcome): (p: Plan)
    ensures |p.asks| == 1 && p.asks[0].userText == ""
    ensures p.phase == phase || p.phase == AwaitingId
    ensures p.focus != focus ==> p.focus == None && p.phase == AwaitingId && p.asks[0].scenario == DownloadComplete
  {
    if outcome == Opened then Plan([Ask("", DownloadComplete, map[Id := FocusText(focus)])], AwaitingId, None)
    else CatchPlan(phase, focus, FailureReason(outcome))
  }

  /** The `catch` of the unlock attempt: the answer, the state and the focus
      the failure's class calls for. */
  function CatchPlan(phase: Phase, focus: Option<nat>, reason: string): (p: Plan)
    ensures |p.asks| == 1 && p.asks[0].userText == ""
    ensures p.focus == focus && (p.phase == phase || p.phase == AwaitingId)
  {
    var id := FocusText(focus);
    match Classify(reason)
    case BadPassword => Plan([Ask("", WrongPassword, map[Id := id])], phase, focus)
    case TooEarly => Plan([Ask("", CapsuleFoundTimeLocked, map[Id := id, TimeRemaining := "unknown"])], AwaitingId, focus)
    case AlreadyOpened => Plan([Ask("", CapsuleAlreadyUnlocked, map[Id := id])], AwaitingId, focus)
    case Unexplained => Plan([Ask("", UnlockError, map[Id := id, Error := reason])], AwaitingId, focus)
  }

  /** The unlock attempt of `handleAwaitingPassword`: the test is announced
      with the trimmed password, then the outcome concludes. */
  function AttemptPlan(phase: Phase, focus: Option<nat>, password: string, env: Env): (p: Plan)
    ensures |p.asks| == 2 && p.asks[0] == Ask(password, PasswordTesting, map[Id := FocusText(focus)])
  {
    var c := Conclusion(phase, focus, env.unlock);
    Plan([Ask(password, PasswordTesting, map[Id := FocusText(focus)])] + c.asks, c.phase, c.focus)
  }

  /** `handleAwaitingPassword`. */
  function AwaitingPasswordPlan(phase: Phase, focus: Option<nat>, text: string, env: Env): (h: Handled)
    ensures h.Done? ==> 1 <= |h.plan.asks| <= 2
  {
    var password := Trim(text);
    if password == "" then Done(Plan([Ask(text, CapsuleFoundReady, map[Id := FocusText(focus)])], phase, focus))
    else if SwitchesCapsule(text) then AwaitingIdPlan(AwaitingId, focus, text, env)
    else Done(AttemptPlan(phase, focus, password, env))
  }

  /** The `switch` of `processMessage`: `GREETING` is handled like `AWAITING_ID`. */
  function Dispatch(phase: Phase, focus: Option<nat>, text: string, env: Env): (h: Handled)
    ensures h.Done? ==> 1 <= |h.plan.asks| <= 2
    ensures h.Done? && phase != AwaitingPassword ==> |h.plan.asks| == 1 && h.plan.asks[0].userText == text
    ensures h.Thrown? ==>
              env.walletConnected && ExtractCapsuleId(text).Some?
              && (env.nextId == Fails(h.reason) || env.capsule(ExtractCapsuleId(text).value) == Fails(h.reason)
                  || env.block == Fails(h.reason))
  {
    ThrowsOnlyOnLookup(AwaitingId, focus, text, env);
    ThrowsOnlyOnLookup(phase, focus, text, env);
    if phase == AwaitingPassword then AwaitingPasswordPlan(phase, focus, text, env)
    else AwaitingIdPlan(phase, focus, text, env)
  }

  /** `processMessage`: dispatch on the state, and turn an escaping error
      into an `UNLOCK_ERROR` turn. */
  function TurnPlan(phase: Phase, focus: Option<nat>, text: string, env: Env): (p: Plan)
    ensures 1 <= |p.asks| <= 2
  {
    match Dispatch(phase, focus, text, env)
    case Done(p) => p
    case Thrown(r) => Plan([Ask(text, UnlockError, map[Id := ErrorId(focus), Error := ErrorText(r)])], AwaitingId, focus)
  }

  /** The model's answer to one call, given the turn-start history. */
  function Response(base: seq<Message>, a: Ask, llm: seq<Message> -> string): string
  {
    llm(Prompt(base, a.userText, a.scenario, a.data))
  }

  /** The guardian entries a turn displays, one per call, in order. */
  function Replies(base: seq<Message>, asks: seq<Ask>, llm: seq<Message> -> string): (r: seq<Entry>)
    ensures |r| == |asks|
  {
    if asks == [] then [] else [Entry(GuardianSpeaker, Response(base, asks[0], llm))] + Replies(base, asks[1..], llm)
  }

  /** The i-th guardian entry shows the answer to the i-th call. */
  lemma {:induction false} ReplyAt(base: seq<Message>, asks: seq<Ask>, llm: seq<Message> -> string, i: nat)
    requires i < |asks|
    ensures Replies(base, asks, llm)[i] == Entry(GuardianSpeaker, Response(base, asks[i], llm))
    decreases i
  {
    if i > 0 {
      ReplyAt(base, asks[1..], llm, i - 1);
    }
  }

  /** One more call in front adds its entry in front, and leaves the
      history to the calls after it. */
  lemma RepliesCons(base: seq<Message>, first: Ask, rest: seq<Ask>, llm: seq<Message> -> string)
    requires rest != []
    ensures Replies(base, [first] + rest, llm) == [Entry(GuardianSpeaker, Response(base, first, llm))] + Replies(base, rest, llm)
    ensures FinalHistory(base, [first] + rest, llm) == FinalHistory(base, rest, llm)
  {
    assert ([first] + rest)[1..] == rest;
  }

  /** Every call rebuilds the history from the same turn-start snapshot, so
      the last call's record is the one that stays. */
  function FinalHistory(base: seq<Message>, asks: seq<Ask>, llm: seq<Message> -> string): seq<Message>
    requires asks != []
  {
    var last := asks[|asks| - 1];
    Recorded(base, last.userText, Response(base, last, llm))
  }

  /** The part of the component's state a turn reads and writes. */
  datatype Snapshot = Snapshot(phase: Phase, focus: Option<nat>, messages: seq<Entry>, history: seq<Message>)

  /** The state after `processMessage(text)`: the placeholders are gone, the
      user's entry and one guardian entry per call are appended, and the
      history is the last call's record. */
  function Turn(s: Snapshot, text: string, env: Env): (t: Snapshot)
    ensures NoThinking(t.messages)
    ensures |s.history| < |t.history| && t.history[..|s.history|] == s.history
    ensures NoSystem(s.history) ==> NoSystem(t.history)
    ensures Consistent(s) ==> Consistent(t)
  {
    var p := TurnPlan(s.phase, s.focus, text, env);
    var shown := WithoutThinking(s.messages) + [Entry(UserSpeaker, text)];
    NoThinkingInReplies(s.history, p.asks, env.llm);
    NoThinkingAppend(WithoutThinking(s.messages), [Entry(UserSpeaker, text)]);
    NoThinkingAppend(shown, Replies(s.history, p.asks, env.llm));
    var last := p.asks[|p.asks| - 1];
    assert NoSystem(s.history) ==> NoSystem(Recorded(s.history, last.userText, Response(s.history, last, env.llm))) by {
      if NoSystem(s.history) {
        RecordedHasNoSystem(s.history, last.userText, Response(s.history, last, env.llm));
      }
    }
    assert Consistent(s) ==> var p := TurnPlan(s.phase, s.focus, text, env); p.phase == AwaitingPassword ==> p.focus.Some? by {
      if Consistent(s) {
        PasswordPhaseHasFocus(s.phase, s.focus, text, env);
      }
    }
    Snapshot(p.phase, p.focus, shown + Replies(s.history, p.asks, env.llm), FinalHistory(s.history, p.asks, env.llm))
  }

  /** What every turn preserves: no placeholder is displayed between turns,
      `AWAITING_PASSWORD` always has a focus, and no context is kept in the history. */
  predicate Consistent(s: Snapshot)
  {
    NoThinking(s.messages) && (s.phase == AwaitingPassword ==> s.focus.Some?) && NoSystem(s.history)
  }

  // ---- Lemmas: the `AWAITING_ID` branches, in the order they are tested ----

  lemma WalletNeededFirst(phase: Phase, focus: Option<nat>, text: string, env: Env)
    requires phase != AwaitingPassword && !env.walletConnected
    ensures TurnPlan(phase, focus, text, env) == Plan([Ask(text, WalletNeeded, map[])], phase, focus)
  {
  }

  lemma NoIdAsksForOne(phase: Phase, focus: Option<nat>, text: string, env: Env)
    requires phase != AwaitingPassword && env.walletConnected && ExtractCapsuleId(text) == None
    ensures TurnPlan(phase, focus, text, env) == Plan([Ask(text, NoCapsuleId, map[])], phase, focus)
  {
  }

  lemma UnknownIdNotFound(phase: Phase, focus: Option<nat>, text: string, env: Env, id: nat, next: nat)
    requires phase != AwaitingPassword && env.walletConnected
    requires ExtractCapsuleId(text) == Some(id) && env.nextId == Returns(next) && id >= next
    ensures TurnPlan(phase, focus, text, env)
         == Plan([Ask(text, CapsuleNotFound, map[Id := NatToString(id), MaxId := IntToString(next - 1)])], phase, focus)
  {
  }

  /** With five capsules, "capsule 9" is not found and the highest id reported is 4. */
  lemma NotFoundExample(phase: Phase, focus: Option<nat>, env: Env)
    requires phase != AwaitingPassword && env.walletConnected && env.nextId == Returns(5)
    ensures TurnPlan(phase, focus, "capsule 9", env)
         == Plan([Ask("capsule 9", CapsuleNotFound, map[Id := "9", MaxId := "4"])], phase, focus)
  {
    assert NatToString(9) == "9";
    LabelledRoundTrip("capsule", " ", false, 9);
    assert "capsule" + " " + "" + NatToString(9) == "capsule 9";
    assert IntToString(4) == "4";
  }

  lemma AlreadyUnlockedStaysAwaitingId(phase: Phase, focus: Option<nat>, text: string, env: Env, id: nat)
    requires phase != AwaitingPassword && env.walletConnected && ExtractCapsuleId(text) == Some(id)
    requires env.nextId.Returns? && id < env.nextId.value
    requires env.capsule(id).Returns? && env.capsule(id).value.unlocked
    ensures var p := TurnPlan(phase, focus, text, env);
            p.phase == AwaitingId && p.focus == focus && p.asks[0].scenario == CapsuleAlreadyUnlocked
  {
  }

  lemma TimeLockedStaysAwaitingId(phase: Phase, focus: Option<nat>, text: string, env: Env, id: nat)
    requires phase != AwaitingPassword && env.walletConnected && ExtractCapsuleId(text) == Some(id)
    requires env.nextId.Returns? && id < env.nextId.value
    requires env.capsule(id).Returns? && !env.capsule(id).value.unlocked
    requires env.block.Returns? && env.capsule(id).value.unlockTime > env.block.value
    ensures var p := TurnPlan(phase, focus, text, env);
            var c := env.capsule(id).value;
            p.phase == AwaitingId && p.focus == focus && p.asks[0].scenario == CapsuleFoundTimeLocked
            && p.asks[0].data[TimeRemaining] == FormatTimeRemaining(c.unlockTime - env.block.value)
  {
    assert AwaitingIdPlan(phase, focus, text, env) == LookupPlan(focus, text, id, env);
    TimeLockedLookup(focus, text, id, env);
  }

  lemma TimeLockedLookup(focus: Option<nat>, text: string, id: nat, env: Env)
    requires env.capsule(id).Returns? && !env.capsule(id).value.unlocked
    requires env.block.Returns? && env.capsule(id).value.unlockTime > env.block.value
    ensures var h := LookupPlan(focus, text, id, env);
            var c := env.capsule(id).value;
            h.Done? && h.plan.phase == AwaitingId && h.plan.focus == focus
            && h.plan.asks[0].scenario == CapsuleFoundTimeLocked && TimeRemaining in h.plan.asks[0].data
            && h.plan.asks[0].data[TimeRemaining] == FormatTimeRemaining(c.unlockTime - env.block.value)
  {
    var c := env.capsule(id).value;
    var dated := map[Id := NatToString(id), Creator := ShortAddress(c.creator), CreatedAt := env.formatDate(c.createdAt),
                     UnlockTime := env.formatDate(c.unlockTime)];
    var remaining := FormatTimeRemaining(c.unlockTime - env.block.value);
    var data := dated[TimeRemaining := remaining];
    assert LookupPlan(focus, text, id, env) == Done(Plan([Ask(text, CapsuleFoundTimeLocked, data)], AwaitingId, focus));
    assert data[TimeRemaining] == remaining;
  }

  lemma ReadyTakesFocus(phase: Phase, focus: Option<nat>, text: string, env: Env, id: nat)
    requires phase != AwaitingPassword && env.walletConnected && ExtractCapsuleId(text) == Some(id)
    requires env.nextId.Returns? && id < env.nextId.value
    requires env.capsule(id).Returns? && !env.capsule(id).value.unlocked
    requires env.block.Returns? && env.capsule(id).value.unlockTime <= env.block.value
    ensures var p := TurnPlan(phase, focus, text, env);
            p.phase == AwaitingPassword && p.focus == Some(id) && p.asks[0].scenario == CapsuleFoundReady
  {
  }

  /** The focus changes in exactly two ways: a capsule found ready to unlock
      takes it, and a completed download clears it. */
  lemma FocusChanges(phase: Phase, focus: Option<nat>, text: string, env: Env)
    ensures var p := TurnPlan(phase, focus, text, env);
            p.focus != focus ==>
              (p.focus.Some? && p.phase == AwaitingPassword && p.asks[|p.asks| - 1].scenario == CapsuleFoundReady)
              || (p.focus == None && phase == AwaitingPassword && p.phase == AwaitingId
                  && p.asks[|p.asks| - 1].scenario == DownloadComplete)
  {
    var d := Dispatch(phase, focus, text, env);
    if d.Thrown? {
      assert TurnPlan(phase, focus, text, env).focus == focus;
    } else if phase == AwaitingPassword && Trim(text) != "" && !SwitchesCapsule(text) {
      assert TurnPlan(phase, focus, text, env) == AttemptPlan(phase, focus, Trim(text), env);
      AttemptFocus(phase, focus, Trim(text), env);
    } else if phase == AwaitingPassword && Trim(text) == "" {
      assert TurnPlan(phase, focus, text, env).focus == focus;
    } else {
      assert d == AwaitingIdPlan(if phase == AwaitingPassword then AwaitingId else phase, focus, text, env);
      assert TurnPlan(phase, focus, text, env) == d.plan;
    }
  }

  // ---- Lemmas: `AWAITING_PASSWORD` ----

  /** An unlock attempt changes the focus only by clearing it after a
      completed download. */
  lemma AttemptFocus(phase: Phase, focus: Option<nat>, password: string, env: Env)
    ensures var p := AttemptPlan(phase, focus, password, env);
            p.focus != focus ==>
              p.focus == None && p.phase == AwaitingId && p.asks[|p.asks| - 1].scenario == DownloadComplete
  {
    var c := Conclusion(phase, focus, env.unlock);
    var p := AttemptPlan(phase, focus, password, env);
    assert p.focus == c.focus && p.phase == c.phase && p.asks[|p.asks| - 1] == c.asks[0];
  }

  lemma EmptyPasswordReprompts(focus: Option<nat>, text: string, env: Env)
    requires Trim(text) == ""
    ensures TurnPlan(AwaitingPassword, focus, text, env)
         == Plan([Ask(text, CapsuleFoundReady, map[Id := FocusText(focus)])], AwaitingPassword, focus)
  {
  }

  /** A text naming another capsule is handled once, exactly as it would be
      in `AWAITING_ID`. */
  lemma SwitchIsHandledAsAwaitingId(focus: Option<nat>, text: string, env: Env)
    requires Trim(text) != "" && SwitchesCapsule(text)
    ensures TurnPlan(AwaitingPassword, focus, text, env) == TurnPlan(AwaitingId, focus, text, env)
  {
  }

  /** A password attempt: the first call announces the test with the trimmed
      password as the user's turn. */
  lemma AttemptAnnouncesTest(focus: Option<nat>, text: string, env: Env)
    requires Trim(text) != "" && !SwitchesCapsule(text)
    ensures var p := TurnPlan(AwaitingPassword, focus, text, env);
            |p.asks| == 2 && p.asks[0] == Ask(Trim(text), PasswordTesting, map[Id := FocusText(focus)])
            && p.asks[1].userText == ""
  {
  }

  lemma SuccessClearsFocus(focus: Option<nat>, text: string, env: Env)
    requires Trim(text) != "" && !SwitchesCapsule(text) && env.unlock == Opened
    ensures var p := TurnPlan(AwaitingPassword, focus, text, env);
            p.phase == AwaitingId && p.focus == None
            && p.asks[1] == Ask("", DownloadComplete, map[Id := FocusText(focus)])
  {
  }

  /** A failed gateway fetch and an empty decryption go through the same
      `catch` as a rejected call, with their error message as the reason. */
  lemma ThrownFailuresShareTheCatch(focus: Option<nat>, text: string, env: Env)
    requires env.unlock == GatewayFailed || env.unlock == EmptyDecryption
    ensures TurnPlan(AwaitingPassword, focus, text, env)
         == TurnPlan(AwaitingPassword, focus, text, env.(unlock := Rejected(FailureReason(env.unlock))))
  {
    var rejected := env.(unlock := Rejected(FailureReason(env.unlock)));
    PasswordPlanSharesTheCatch(focus, text, env);
    assert Dispatch(AwaitingPassword, focus, text, env) == Dispatch(AwaitingPassword, focus, text, rejected);
  }

  lemma PasswordPlanSharesTheCatch(focus: Option<nat>, text: string, env: Env)
    requires env.unlock == GatewayFailed || env.unlock == EmptyDecryption
    ensures AwaitingPasswordPlan(AwaitingPassword, focus, text, env)
         == AwaitingPasswordPlan(AwaitingPassword, focus, text, env.(unlock := Rejected(FailureReason(env.unlock))))
  {
    var rejected := env.(unlock := Rejected(FailureReason(env.unlock)));
    var password := Trim(text);
    if password != "" && SwitchesCapsule(text) {
      AwaitingIdIgnoresUnlock(AwaitingId, focus, text, env, rejected.unlock);
    } else if password != "" {
      assert Conclusion(AwaitingPassword, focus, env.unlock) == Conclusion(AwaitingPassword, focus, rejected.unlock);
      assert AttemptPlan(AwaitingPassword, focus, password, env) == AttemptPlan(AwaitingPassword, focus, password, rejected);
    }
  }

  /** Looking a capsule up does not depend on how an unlock would end. */
  lemma AwaitingIdIgnoresUnlock(phase: Phase, focus: Option<nat>, text: string, env: Env, unlock: UnlockOutcome)
    ensures AwaitingIdPlan(phase, focus, text, env) == AwaitingIdPlan(phase, focus, text, env.(unlock := unlock))
  {
    var other := env.(unlock := unlock);
    var id := ExtractCapsuleId(text);
    if env.walletConnected && id.Some? && env.nextId.Returns? && id.value < env.nextId.value {
      assert AwaitingIdPlan(phase, focus, text, env) == LookupPlan(focus, text, id.value, env);
      assert AwaitingIdPlan(phase, focus, text, other) == LookupPlan(focus, text, id.value, other);
      LookupIgnoresUnlock(focus, text, id.value, env, unlock);
    }
  }

  lemma LookupIgnoresUnlock(focus: Option<nat>, text: string, id: nat, env: Env, unlock: UnlockOutcome)
    ensures LookupPlan(focus, text, id, env) == LookupPlan(focus, text, id, env.(unlock := unlock))
  {
  }

  lemma WrongPasswordKeepsState(focus: Option<nat>, text: string, env: Env, reason: string)
    requires Trim(text) != "" && !SwitchesCapsule(text) && env.unlock == Rejected(reason)
    requires Classify(reason) == BadPassword
    ensures var p := TurnPlan(AwaitingPassword, focus, text, env);
            p.phase == AwaitingPassword && p.focus == focus
            && p.asks[1] == Ask("", WrongPassword, map[Id := FocusText(focus)])
  {
  }

  /** Every other failure leaves `AWAITING_PASSWORD` with the focus kept, and
      an unexplained one is reported with its reason. */
  lemma OtherFailuresReturnToAwaitingId(focus: Option<nat>, text: string, env: Env, reason: string)
    requires Trim(text) != "" && !SwitchesCapsule(text) && env.unlock == Rejected(reason)
    requires Classify(reason) != BadPassword
    ensures var p := TurnPlan(AwaitingPassword, focus, text, env);
            p.phase == AwaitingId && p.focus == focus
            && p.asks[1].scenario == (match Classify(reason)
                                      case TooEarly => CapsuleFoundTimeLocked
                                      case AlreadyOpened => CapsuleAlreadyUnlocked
                                      case _ => UnlockError)
            && (Classify(reason) == Unexplained ==> p.asks[1].data == map[Id := FocusText(focus), Error := reason])
  {
  }

  // ---- Lemmas: escaping errors ----

  /** A rejected contract or provider call while looking a capsule up becomes
      an `UNLOCK_ERROR` turn in `AWAITING_ID`, with the focus kept. */
  lemma LookupErrorReported(phase: Phase, focus: Option<nat>, text: string, env: Env)
    requires phase != AwaitingPassword || (Trim(text) != "" && SwitchesCapsule(text))
    requires AwaitingIdPlan(AwaitingId, focus, text, env).Thrown?
    ensures var r := AwaitingIdPlan(AwaitingId, focus, text, env).reason;
            TurnPlan(phase, focus, text, env)
            == Plan([Ask(text, UnlockError, map[Id := ErrorId(focus), Error := ErrorText(r)])], AwaitingId, focus)
  {
  }

  /** Only the lookup calls throw out of a handler, before any call to the model. */
  lemma ThrowsOnlyOnLookup(phase: Phase, focus: Option<nat>, text: string, env: Env)
    ensures var h := AwaitingIdPlan(phase, focus, text, env);
            h.Thrown? ==>
              env.walletConnected && ExtractCapsuleId(text).Some?
              && (env.nextId == Fails(h.reason) || env.capsule(ExtractCapsuleId(text).value) == Fails(h.reason)
                  || env.block == Fails(h.reason))
  {
  }

  lemma ErrorIdExamples()
    ensures ErrorId(None) == "?" && ErrorId(Some(0)) == "?" && ErrorId(Some(7)) == "7"
  {
    assert NatToString(7) == "7";
  }

  // ---- Lemmas: the whole turn ----

  lemma NoThinkingInReplies(base: seq<Message>, asks: seq<Ask>, llm: seq<Message> -> string)
    ensures NoThinking(Replies(base, asks, llm))
  {
    forall i | 0 <= i < |asks|
      ensures Replies(base, asks, llm)[i].speaker != Thinking
    {
      ReplyAt(base, asks, llm, i);
    }
  }

  /** `AWAITING_PASSWORD` is only ever entered, or kept, with a capsule in focus. */
  lemma PasswordPhaseHasFocus(phase: Phase, focus: Option<nat>, text: string, env: Env)
    requires phase == AwaitingPassword ==> focus.Some?
    ensures var p := TurnPlan(phase, focus, text, env);
            p.phase == AwaitingPassword ==> p.focus.Some?
  {
    if phase == AwaitingPassword && Trim(text) != "" && !SwitchesCapsule(text) {
      assert TurnPlan(phase, focus, text, env) == AttemptPlan(phase, focus, Trim(text), env);
    }
  }

  /** The display list grows by the user's entry and one or two guardian
      entries, whatever placeholders it held. */
  lemma TurnAppendsEntries(s: Snapshot, text: string, env: Env)
    requires NoThinking(s.messages)
    ensures var t := Turn(s, text, env);
            |s.messages| + 2 <= |t.messages| <= |s.messages| + 3
            && t.messages[..|s.messages| + 1] == s.messages + [Entry(UserSpeaker, text)]
            && forall i :: |s.messages| < i < |t.messages| ==> t.messages[i].speaker == GuardianSpeaker
  {
    WithoutThinkingKeeps(s.messages);
    var t := Turn(s, text, env);
    var p := TurnPlan(s.phase, s.focus, text, env);
    var head := s.messages + [Entry(UserSpeaker, text)];
    var replies := Replies(s.history, p.asks, env.llm);
    assert t.messages == head + replies;
    assert t.messages[..|head|] == head;
    forall i | |s.messages| < i < |t.messages|
      ensures t.messages[i].speaker == GuardianSpeaker
    {
      assert t.messages[i] == replies[i - |head|];
      ReplyAt(s.history, p.asks, env.llm, i - |head|);
    }
  }

  /** After a password attempt the history holds the turn-start history and
      one reply only: the announcement of the test, and the password with it,
      are overwritten by the last call. */
  lemma AttemptKeepsOnlyLastReply(s: Snapshot, text: string, env: Env)
    requires s.phase == AwaitingPassword && Trim(text) != "" && !SwitchesCapsule(text)
    ensures Turn(s, text, env).history
         == s.history + [Message(Assistant, Response(s.history, TurnPlan(s.phase, s.focus, text, env).asks[1], env.llm))]
  {
    AttemptAnnouncesTest(s.focus, text, env);
  }
}
