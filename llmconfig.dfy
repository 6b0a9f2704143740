/** The role-tagged messages exchanged with the language model, and
    `buildCapsuleContext` of llmConfig.js: a scenario tag and a data record
    become one `system` message whose content starts with "CONTEXT: ". */
module LlmConfig {
  import opened Text

  datatype Role = System | User | Assistant

  datatype Message = Message(role: Role, content: string)

  predicate NoSystem(ms: seq<Message>) { forall i :: 0 <= i < |ms| ==> ms[i].role != System }

  /** The scenario tags of the switch; `Other` is any tag it does not name. */
  datatype Scenario =
    | CapsuleFoundTimeLocked
    | CapsuleFoundReady
    | CapsuleAlreadyUnlocked
    | CapsuleNotFound
    | NoCapsuleId
    | WalletNeeded
    | PasswordTesting
    | WrongPassword
    | UnlockSuccess
    | DownloadComplete
    | UnlockError
    | Greeting
    | Other

  /** The properties of the `data` object that the templates read. */
  datatype Key = Id | Creator | CreatedAt | UnlockTime | TimeRemaining | MaxId | Error

  /** The `data` object: each present property with the text it prints as. */
  type Data = map<Key, string>

  /** `${data.key}`: an absent property prints as "undefined". */
  function Field(data: Data, key: Key): string
  {
    if key in data then data[key] else "undefined"
  }

  /** A template literal is literal text alternating with `${data.key}` holes. */
  datatype Piece = Lit(phrase: Phrase) | Hole(key: Key)

  function PieceText(p: Piece, data: Data): string
  {
    match p
    case Lit(t) => Say(t)
    case Hole(k) => Field(data, k)
  }

  function Interpolate(ps: seq<Piece>, data: Data): string
  {
    if ps == [] then "" else PieceText(ps[0], data) + Interpolate(ps[1..], data)
  }

  /** The keys a template reads. */
  function Holes(ps: seq<Piece>): set<Key>
  {
    if ps == [] then {} else (if ps[0].Hole? then {ps[0].key} else {}) + Holes(ps[1..])
  }

  lemma {:induction false} InterpolateAppend(a: seq<Piece>, b: seq<Piece>, data: Data)
    ensures Interpolate(a + b, data) == Interpolate(a, data) + Interpolate(b, data)
    decreases |a|
  {
    if a == [] {
      assert a + b == b;
    } else {
      assert (a + b)[1..] == a[1..] + b;
      InterpolateAppend(a[1..], b, data);
    }
  }

  const Prefix := "CONTEXT: "
  const Quote := "\""

  /** The stretches of literal text between the holes of the templates. */
  datatype Phrase =
    | Opening
    | AskedAbout
    | CreatorLine
    | SealedLine
    | UnlockLine
    | RemainingLine
    | TimeLockedTail
    | ReadyTail
    | AlreadyUnlockedTail
    | NotFoundMiddle
    | NotFoundTail
    | NoIdText
    | WalletText
    | TestingHead
    | TestingTail
    | WrongHead
    | WrongTail
    | SuccessHead
    | SuccessTail
    | CompleteHead
    | CompleteTail
    | ErrorHead
    | ErrorLabel
    | QuoteMark
    | ErrorAction
    | GreetingText
    | DefaultText

  /** The literal text of each phrase. */
  function Say(p: Phrase): string
  {
    match p
    case Opening => Prefix
    case AskedAbout => "The user asked about Capsule #"
    case CreatorLine => ".\n- Creator wallet: "
    case SealedLine => "\n- Sealed on: "
    case UnlockLine => "\n- Scheduled unlock time: "
    case RemainingLine => "\n- Time remaining: "
    case TimeLockedTail => "\n- Status: SEALED and TIME-LOCKED (cannot be opened yet)\nACTION: Tell the user about this capsule. Clearly state how long they need to wait. Let them know they can ask about a different capsule."
    case ReadyTail => " (HAS PASSED)\n- Status: SEALED but ready to unlock (needs the correct password)\nACTION: Tell the user the time lock has passed and this capsule is ready to unlock. Ask them to provide the password."
    case AlreadyUnlockedTail => "\n- Status: ALREADY UNLOCKED (contents have been claimed)\nACTION: Tell the user this capsule was already unlocked. They can ask about a different one."
    case NotFoundMiddle => ", but no capsule exists with this ID. The highest ID is "
    case NotFoundTail => ".\nACTION: Tell the user no capsule exists with that number."
    case NoIdText => "The user sent a message but did not include a capsule number. You have NO data about any capsules right now.\nACTION: Ask them to provide a capsule ID number. Do NOT make up any data."
    case WalletText => "The user has not connected their Ethereum wallet yet.\nACTION: Tell them to connect their wallet first using the button in the top-right corner."
    case TestingHead => "The user provided a password for Capsule #"
    case TestingTail => ". Verifying it on the blockchain now.\nACTION: Tell the user you are verifying their password. One short sentence."
    case WrongHead => "Wrong password for Capsule #"
    case WrongTail => ". The smart contract rejected it.\nACTION: Tell the user the password was wrong. They can try again."
    case SuccessHead => "Capsule #"
    case SuccessTail => " has been successfully unlocked. File is downloading.\nACTION: Tell the user the capsule is unlocked and the file is downloading."
    case CompleteHead => "File from Capsule #"
    case CompleteTail => " has been decrypted and downloaded.\nACTION: Confirm the file has been downloaded. Ask if they want to open another capsule."
    case ErrorHead => "Error unlocking Capsule #"
    case ErrorLabel => ". Error: "
    case QuoteMark => Quote
    case ErrorAction => "\nACTION: Tell the user something went wrong. They can try again."
    case GreetingText => "Fresh session. The user just opened the Guardian interface.\nACTION: Greet the user briefly and ask which capsule they want to access. 1-2 sentences max."
    case DefaultText => "General interaction. Respond helpfully."
  }

  /** Each scenario's template after the common "CONTEXT: " prefix. */
  function Body(scenario: Scenario): seq<Piece>
  {
    match scenario
    case CapsuleFoundTimeLocked =>
      [Lit(AskedAbout), Hole(Id), Lit(CreatorLine), Hole(Creator), Lit(SealedLine), Hole(CreatedAt),
       Lit(UnlockLine), Hole(UnlockTime), Lit(RemainingLine), Hole(TimeRemaining), Lit(TimeLockedTail)]
    case CapsuleFoundReady =>
      [Lit(AskedAbout), Hole(Id), Lit(CreatorLine), Hole(Creator), Lit(SealedLine), Hole(CreatedAt),
       Lit(UnlockLine), Hole(UnlockTime), Lit(ReadyTail)]
    case CapsuleAlreadyUnlocked =>
      [Lit(AskedAbout), Hole(Id), Lit(CreatorLine), Hole(Creator), Lit(SealedLine), Hole(CreatedAt),
       Lit(AlreadyUnlockedTail)]
    case CapsuleNotFound => [Lit(AskedAbout), Hole(Id), Lit(NotFoundMiddle), Hole(MaxId), Lit(NotFoundTail)]
    case NoCapsuleId => [Lit(NoIdText)]
    case WalletNeeded => [Lit(WalletText)]
    case PasswordTesting => [Lit(TestingHead), Hole(Id), Lit(TestingTail)]
    case WrongPassword => [Lit(WrongHead), Hole(Id), Lit(WrongTail)]
    case UnlockSuccess => [Lit(SuccessHead), Hole(Id), Lit(SuccessTail)]
    case DownloadComplete => [Lit(CompleteHead), Hole(Id), Lit(CompleteTail)]
    case UnlockError =>
      [Lit(ErrorHead), Hole(Id), Lit(ErrorLabel), Lit(QuoteMark), Hole(Error), Lit(QuoteMark), Lit(ErrorAction)]
    case Greeting => [Lit(GreetingText)]
    case Other => [Lit(DefaultText)]
  }

  function Template(scenario: Scenario): seq<Piece>
  {
    [Lit(Opening)] + Body(scenario)
  }

  /** `buildCapsuleContext`: always a system message opening with "CONTEXT: ". */
  function BuildCapsuleContext(scenario: Scenario, data: Data): (m: Message)
    ensures m.role == System
    ensures Prefix <= m.content
  {
    var ps := Template(scenario);
    assert ps[1..] == Body(scenario);
    Message(System, Interpolate(ps, data))
  }

  /** The facts each scenario's template reports. */
  function RequiredFields(scenario: Scenario): set<Key>
  {
    match scenario
    case CapsuleFoundTimeLocked => {Id, Creator, CreatedAt, UnlockTime, TimeRemaining}
    case CapsuleFoundReady => {Id, Creator, CreatedAt, UnlockTime}
    case CapsuleAlreadyUnlocked => {Id, Creator, CreatedAt}
    case CapsuleNotFound => {Id, MaxId}
    case PasswordTesting => {Id}
    case WrongPassword => {Id}
    case UnlockSuccess => {Id}
    case DownloadComplete => {Id}
    case UnlockError => {Id, Error}
    case _ => {}
  }

  /** Every template reads exactly the fields listed for its scenario. */
  lemma TemplatesReadRequiredFields(scenario: Scenario)
    ensures Holes(Template(scenario)) == RequiredFields(scenario)
  {
    match scenario
    case CapsuleFoundTimeLocked => TimeLockedHoles();
    case CapsuleFoundReady => ReadyHoles();
    case CapsuleAlreadyUnlocked => AlreadyUnlockedHoles();
    case CapsuleNotFound => NotFoundHoles();
    case NoCapsuleId | WalletNeeded | Greeting | Other => FixedTextHoles(scenario);
    case PasswordTesting | WrongPassword | UnlockSuccess | DownloadComplete => IdOnlyHoles(scenario);
    case UnlockError => ErrorHoles();
  }

  lemma FixedTextHoles(scenario: Scenario)
    requires scenario in {NoCapsuleId, WalletNeeded, Greeting, Other}
    ensures Holes(Template(scenario)) == RequiredFields(scenario)
  {
    var ps := Template(scenario);
    assert ps == ps[0..];
    HolesFrom(ps, 0); HolesFrom(ps, 1);
    assert ps[2..] == [];
  }

  lemma IdOnlyHoles(scenario: Scenario)
    requires scenario in {PasswordTesting, WrongPassword, UnlockSuccess, DownloadComplete}
    ensures Holes(Template(scenario)) == RequiredFields(scenario)
  {
    var ps := Template(scenario);
    assert ps == ps[0..];
    HolesFrom(ps, 0); HolesFrom(ps, 1); HolesFrom(ps, 2); HolesFrom(ps, 3);
    assert ps[4..] == [];
  }

  lemma ErrorHoles()
    ensures Holes(Template(UnlockError)) == RequiredFields(UnlockError)
  {
    var ps := Template(UnlockError);
    assert ps == ps[0..];
    HolesFrom(ps, 0); HolesFrom(ps, 1); HolesFrom(ps, 2); HolesFrom(ps, 3);
    HolesFrom(ps, 4); HolesFrom(ps, 5); HolesFrom(ps, 6); HolesFrom(ps, 7);
    assert ps[8..] == [];
  }

  lemma TimeLockedHoles()
    ensures Holes(Template(CapsuleFoundTimeLocked)) == RequiredFields(CapsuleFoundTimeLocked)
  {
    TimeLockedEarlierHoles();
    TimeLockedLaterHoles();
  }

  lemma TimeLockedEarlierHoles()
    ensures var ps := Template(CapsuleFoundTimeLocked);
      Holes(ps) == {Id, Creator} + Holes(ps[6..])
  {
    var ps := Template(CapsuleFoundTimeLocked);
    assert ps == ps[0..];
    HolesFrom(ps, 0); HolesFrom(ps, 1); HolesFrom(ps, 2); HolesFrom(ps, 3); HolesFrom(ps, 4); HolesFrom(ps, 5);
  }

  lemma TimeLockedLaterHoles()
    ensures Holes(Template(CapsuleFoundTimeLocked)[6..]) == {CreatedAt, UnlockTime, TimeRemaining}
  {
    var ps := Template(CapsuleFoundTimeLocked);
    HolesFrom(ps, 6); HolesFrom(ps, 7); HolesFrom(ps, 8); HolesFrom(ps, 9); HolesFrom(ps, 10); HolesFrom(ps, 11);
    assert ps[12..] == [];
  }

  lemma ReadyHoles()
    ensures Holes(Template(CapsuleFoundReady)) == RequiredFields(CapsuleFoundReady)
  {
    var ps := Template(CapsuleFoundReady);
    assert ps == ps[0..];
    HolesFrom(ps, 0); HolesFrom(ps, 1); HolesFrom(ps, 2); HolesFrom(ps, 3); HolesFrom(ps, 4); HolesFrom(ps, 5); HolesFrom(ps, 6); HolesFrom(ps, 7); HolesFrom(ps, 8); HolesFrom(ps, 9);
    assert ps[10..] == [];
  }

  lemma AlreadyUnlockedHoles()
    ensures Holes(Template(CapsuleAlreadyUnlocked)) == RequiredFields(CapsuleAlreadyUnlocked)
  {
    var ps := Template(CapsuleAlreadyUnlocked);
    assert ps == ps[0..];
    HolesFrom(ps, 0); HolesFrom(ps, 1); HolesFrom(ps, 2); HolesFrom(ps, 3); HolesFrom(ps, 4); HolesFrom(ps, 5); HolesFrom(ps, 6); HolesFrom(ps, 7);
    assert ps[8..] == [];
  }

  lemma NotFoundHoles()
    ensures Holes(Template(CapsuleNotFound)) == RequiredFields(CapsuleNotFound)
  {
    var ps := Template(CapsuleNotFound);
    assert ps == ps[0..];
    HolesFrom(ps, 0); HolesFrom(ps, 1); HolesFrom(ps, 2); HolesFrom(ps, 3); HolesFrom(ps, 4); HolesFrom(ps, 5);
    assert ps[6..] == [];
  }

  lemma HolesFrom(ps: seq<Piece>, i: nat)
    requires i < |ps|
    ensures Holes(ps[i..]) == (if ps[i].Hole? then {ps[i].key} else {}) + Holes(ps[i + 1..])
  {
    assert ps[i..][1..] == ps[i + 1..];
  }

  lemma {:induction false} InterpolateAgrees(ps: seq<Piece>, d1: Data, d2: Data)
    requires forall k :: k in Holes(ps) ==> Field(d1, k) == Field(d2, k)
    ensures Interpolate(ps, d1) == Interpolate(ps, d2)
    decreases |ps|
  {
    if ps != [] {
      InterpolateAgrees(ps[1..], d1, d2);
    }
  }

  lemma {:induction false} InterpolateEmbeds(ps: seq<Piece>, data: Data, k: Key)
    requires k in Holes(ps)
    ensures Contains(Interpolate(ps, data), Field(data, k))
    decreases |ps|
  {
    if ps[0] == Hole(k) {
      HoleFirstEmbedded(ps, data);
    } else {
      assert k in Holes(ps[1..]);
      InterpolateEmbeds(ps[1..], data, k);
      ContainsSuffix(PieceText(ps[0], data), Interpolate(ps[1..], data), Field(data, k));
    }
  }

  lemma HoleFirstEmbedded(ps: seq<Piece>, data: Data)
    requires ps != [] && ps[0].Hole?
    ensures Contains(Interpolate(ps, data), Field(data, ps[0].key))
  {
    assert Interpolate(ps, data) == Field(data, ps[0].key) + Interpolate(ps[1..], data);
    ContainsPrefix(Field(data, ps[0].key), Interpolate(ps[1..], data));
  }

  /** The message depends on the scenario's own fields and on nothing else in
      the record; the data-free scenarios ignore the record altogether. */
  lemma DependsOnlyOnRequiredFields(scenario: Scenario, d1: Data, d2: Data)
    requires forall k :: k in RequiredFields(scenario) ==> Field(d1, k) == Field(d2, k)
    ensures BuildCapsuleContext(scenario, d1) == BuildCapsuleContext(scenario, d2)
  {
    TemplatesReadRequiredFields(scenario);
    InterpolateAgrees(Template(scenario), d1, d2);
  }

  /** Every fact a scenario reports appears verbatim in its message. */
  lemma EmbedsRequiredFields(scenario: Scenario, data: Data, k: Key)
    requires k in RequiredFields(scenario)
    ensures Contains(BuildCapsuleContext(scenario, data).content, Field(data, k))
  {
    TemplatesReadRequiredFields(scenario);
    InterpolateEmbeds(Template(scenario), data, k);
  }

  lemma InterpolateCons(p: Piece, rest: seq<Piece>, data: Data)
    ensures Interpolate([p] + rest, data) == PieceText(p, data) + Interpolate(rest, data)
  {
    assert ([p] + rest)[1..] == rest;
  }

  lemma ErrorContent(data: Data)
    ensures BuildCapsuleContext(UnlockError, data).content
         == Prefix + (Say(ErrorHead) + (Field(data, Id) + (Say(ErrorLabel)
            + (Quote + (Field(data, Error) + (Quote + Say(ErrorAction)))))))
  {
    var t6 := [Lit(ErrorAction)];
    var t5 := [Lit(QuoteMark)] + t6;
    var t4 := [Hole(Error)] + t5;
    var t3 := [Lit(QuoteMark)] + t4;
    var t2 := [Lit(ErrorLabel)] + t3;
    var t1 := [Hole(Id)] + t2;
    var t0 := [Lit(ErrorHead)] + t1;
    assert Template(UnlockError) == [Lit(Opening)] + t0;
    InterpolateCons(Lit(ErrorAction), [], data);
    assert [Lit(ErrorAction)] + [] == t6;
    var s6 := Say(ErrorAction);
    assert Interpolate(t6, data) == s6;
    InterpolateCons(Lit(QuoteMark), t6, data);
    var s5 := Quote + s6;
    assert Interpolate(t5, data) == s5;
    InterpolateCons(Hole(Error), t5, data);
    var s4 := Field(data, Error) + s5;
    assert Interpolate(t4, data) == s4;
    InterpolateCons(Lit(QuoteMark), t4, data);
    var s3 := Quote + s4;
    assert Interpolate(t3, data) == s3;
    InterpolateCons(Lit(ErrorLabel), t3, data);
    var s2 := Say(ErrorLabel) + s3;
    assert Interpolate(t2, data) == s2;
    InterpolateCons(Hole(Id), t2, data);
    var s1 := Field(data, Id) + s2;
    assert Interpolate(t1, data) == s1;
    InterpolateCons(Lit(ErrorHead), t1, data);
    var s0 := Say(ErrorHead) + s1;
    assert Interpolate(t0, data) == s0;
    InterpolateCons(Lit(Opening), t0, data);
    assert Interpolate(Template(UnlockError), data) == Prefix + s0;
  }

  /** An unrecognised scenario gets the fixed default text, whatever the data. */
  lemma DefaultContent(data: Data)
    ensures BuildCapsuleContext(Other, data).content == Prefix + Say(DefaultText)
  {
    assert Template(Other) == [Lit(Opening)] + [Lit(DefaultText)];
    InterpolateCons(Lit(DefaultText), [], data);
    assert [Lit(DefaultText)] + [] == [Lit(DefaultText)];
    InterpolateCons(Lit(Opening), [Lit(DefaultText)], data);
  }

  /** The error text of `UNLOCK_ERROR` appears between double quotes. */
  lemma ErrorQuoted(data: Data)
    ensures Contains(BuildCapsuleContext(UnlockError, data).content, Quote + Field(data, Error) + Quote)
  {
    ErrorContent(data);
    var e := Field(data, Error);
    var quoted := Quote + e + Quote;
    var rest := Quote + (e + (Quote + Say(ErrorAction)));
    assert rest == quoted + Say(ErrorAction);
    ContainsPrefix(quoted, Say(ErrorAction));
    ContainsSuffix(Say(ErrorLabel), rest, quoted);
    ContainsSuffix(Field(data, Id), Say(ErrorLabel) + rest, quoted);
    ContainsSuffix(Say(ErrorHead), Field(data, Id) + (Say(ErrorLabel) + rest), quoted);
    ContainsSuffix(Prefix, Say(ErrorHead) + (Field(data, Id) + (Say(ErrorLabel) + rest)), quoted);
  }
}
