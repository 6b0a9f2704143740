# Epoch Guardian: a verified model of the dialogue core

Epoch is a time-capsule dApp. Files are sealed on chain with a password and an
unlock time. The Guardian is its chat assistant: the user names a capsule, the
Guardian looks it up on the contract, reports its status, asks for the
password, and downloads and decrypts the file once the contract accepts it.
Every answer the user sees is written by a language model from a context
message that carries the on-chain facts.

This project models three parts of that front end in Dafny and proves
properties of each:

- **The Guardian dialogue** (`frontend/src/Guardian.jsx`). Modules
  `CapsuleIntent`, `Duration`, `Transcript`, `GuardianPlan` and `Guardian`.
  - `CapsuleIntent.ExtractCapsuleId` and `Duration.FormatTimeRemaining` are
    pure functions. The regular expression of `extractCapsuleId` is modelled
    as a scan over the positions of the trimmed text, each attempt matching a
    keyword, `\s*`, `#?` and `\d+` in turn.
  - The component itself is the class `Guardian.Session`. Its fields are
    `guardianState`, `currentCapsuleId`, the display list `messages`, the
    model history `llmHistory`, `isProcessing` and `hasGreeted`. Each handler
    is a method that updates those fields step by step, as the component
    does.
  - Every handler method is proved to end in the state that a pure plan of
    the turn describes (`GuardianPlan.TurnPlan`, `GuardianPlan.Turn`). The
    plan says which `askGuardian(userText, scenario, data)` calls are made,
    in order, and the state and focus the turn ends in. The transition
    lemmas are proved about the plan.
- **The local-model flattener** (`frontend/src/localClient.js:19-49`).
  Module `LocalClient`. A method with a loop is proved equal to a recursive
  specification. The properties are lemmas about that specification.
- **The context-message builder** (`frontend/src/llmConfig.js:21-124`).
  Module `LlmConfig`. Each scenario's template literal is a sequence of
  literal phrases and `${data.key}` holes.

The collaborators of a turn make up the `GuardianPlan.Env` value:

- whether a contract and a provider exist;
- `nextCapsuleId()`;
- `capsules(id)`;
- the latest block's timestamp;
- how the unlock attempt ends;
- `formatDate`;
- the model, as a function from a message list to a string.

Each contract or provider call either returns a value or rejects with a
reason string. What such a call does stands only for its own answer.

When a capsule is already unlocked, `Guardian.jsx:181-188` never calls
`setCurrentCapsuleId` on that path, so the focus is kept. The model keeps it
too (`GuardianPlan.AlreadyUnlockedStaysAwaitingId`).

## Model

| member | source | states |
|---|---|---|
| CapsuleIntent.KeywordEnd | frontend/src/Guardian.jsx:9 | When the alternation `capsule\|vault\|id\|epoch\|#` matches at the front of a text, its end lies after the front and within the text |
| CapsuleIntent.KeywordFromNone | frontend/src/Guardian.jsx:9 | Trying the alternatives in order finds nothing exactly when no alternative matches, ignoring case |
| CapsuleIntent.KeywordFromAt | frontend/src/Guardian.jsx:9 | When an alternative matches, the search ends right after it, since no two alternatives share a first letter |
| CapsuleIntent.KeywordEndExact | frontend/src/Guardian.jsx:9 | `KeywordEnd` is `None` exactly when no keyword matches at the front, ignoring case; otherwise it is the length of the keyword that matches |
| CapsuleIntent.KeywordMatchesItself | frontend/src/Guardian.jsx:9 | Each keyword matches at the front of any text that starts with it, and ends right after it |
| CapsuleIntent.KeywordFirstLetter | frontend/src/Guardian.jsx:9 | A keyword that matches agrees, in lower case, with the text's first character |
| CapsuleIntent.NoKeywordAtLetter | frontend/src/Guardian.jsx:9 | No match starts at a character whose lower case is not `c`, `v`, `i`, `e` or `#` |
| CapsuleIntent.NoKeywordAtDigit | frontend/src/Guardian.jsx:9 | No match starts at a digit |
| CapsuleIntent.SkipSpaces | frontend/src/Guardian.jsx:9 | `\s*` is greedy: what is left does not start with whitespace |
| CapsuleIntent.SkipSpacesOver | frontend/src/Guardian.jsx:9 | `\s*` consumes a whole whitespace gap and stops at the first other character |
| CapsuleIntent.SkipSpacesSuffix | frontend/src/Guardian.jsx:9 | What `\s*` leaves is a suffix of its input |
| CapsuleIntent.OptionalHashOver | frontend/src/Guardian.jsx:9 | `#?` consumes one `#` when there is one and nothing otherwise |
| CapsuleIntent.DigitPrefix | frontend/src/Guardian.jsx:9 | `\d+` captures only digits, and at least one when the text starts with a digit |
| CapsuleIntent.DigitPrefixOver | frontend/src/Guardian.jsx:9 | `\d+` is greedy: it captures a whole run of digits and stops at the first non-digit |
| CapsuleIntent.DigitPrefixPrefix | frontend/src/Guardian.jsx:9 | The captured digits are a prefix of the text |
| CapsuleIntent.CaptureOver | frontend/src/Guardian.jsx:9-14 | After the keyword: a whitespace gap, an optional `#`, then digits up to a non-digit or the end are captured as the value of those digits |
| CapsuleIntent.CaptureAfterDigits | frontend/src/Guardian.jsx:9-14 | Any capture after the keyword is the value of a non-empty run of digits of the text |
| CapsuleIntent.MatchHereOver | frontend/src/Guardian.jsx:9-14 | keyword + gap + optional `#` + digits + any text not starting with a digit matches with the value of the digits |
| CapsuleIntent.MatchAtKeyword | frontend/src/Guardian.jsx:9-14 | The same match, at any position of a text |
| CapsuleIntent.MatchAtDigits | frontend/src/Guardian.jsx:9-14 | A match at a position captures digits that lie strictly after it |
| CapsuleIntent.FirstSomeLeftmost | frontend/src/Guardian.jsx:9-13 | The scan returns the first attempt that matches, with none before it, and `None` only when no attempt matches |
| CapsuleIntent.FirstSomeAt | frontend/src/Guardian.jsx:9-13 | When no attempt matches before a matching one, the scan returns that one |
| CapsuleIntent.Attempts | frontend/src/Guardian.jsx:9-13 | One match attempt per position of the text |
| CapsuleIntent.NoMatchInAttempts | frontend/src/Guardian.jsx:9-13 | A range of positions has no match exactly when none of its attempts matches |
| CapsuleIntent.FirstLabelledLeftmost | frontend/src/Guardian.jsx:9-13 | The first pattern finds the leftmost position where a match starts, with no match before it; it finds nothing only when no position matches |
| CapsuleIntent.FirstLabelledAt | frontend/src/Guardian.jsx:9-13 | A match with no match before it is the one the first pattern finds |
| CapsuleIntent.ExtractCapsuleIdMeaning | frontend/src/Guardian.jsx:6-17 | `extractCapsuleId` on the trimmed text: the capture of the leftmost labelled match; when there is none, the whole text's value if it is all digits; otherwise `null`, and then neither pattern matches |
| CapsuleIntent.UnlabelledIdIsWholeText | frontend/src/Guardian.jsx:10-14 | An id found with no labelled match anywhere is the whole trimmed text, which is all digits |
| CapsuleIntent.LeftmostLabelWins | frontend/src/Guardian.jsx:6-17 | For any text whose trimmed form has no match before a position, then keyword + gap + optional `#` + digits + text not starting with a digit, the id is the value of those digits |
| CapsuleIntent.ExtractedFromText | frontend/src/Guardian.jsx:6-17 | Whatever id is extracted is the value of a non-empty run of digits of the input text |
| CapsuleIntent.NoDigitsNoId | frontend/src/Guardian.jsx:6-17 | Text with no digit always yields `null` |
| CapsuleIntent.NoLabelInDigits | frontend/src/Guardian.jsx:9 | A string of digits contains no labelled match, so only the second pattern can apply to it |
| CapsuleIntent.BareDigitsRead | frontend/src/Guardian.jsx:10-14 | A trimmed text that is all digits is read back as its value (the `^(\d+)$` pattern), leading zeros included |
| CapsuleIntent.BareNumberRoundTrip | frontend/src/Guardian.jsx:10-14 | The decimal rendering of any number is extracted back as that number |
| CapsuleIntent.LabelledRoundTrip | frontend/src/Guardian.jsx:6-17 | For every keyword, every whitespace gap, with or without `#`, and every number n, the text "keyword gap #n" is extracted back as n |
| CapsuleIntent.CapsuleTwelve | frontend/src/Guardian.jsx:6-17 | "capsule 12" yields 12 |
| CapsuleIntent.VaultHashThree | frontend/src/Guardian.jsx:6-17 | "vault #3" yields 3 |
| CapsuleIntent.IdSeven | frontend/src/Guardian.jsx:6-17 | "id 7" yields 7 |
| CapsuleIntent.HashNine | frontend/src/Guardian.jsx:6-17 | "#9" yields 9 |
| CapsuleIntent.BareFortyTwo | frontend/src/Guardian.jsx:6-17 | "42" yields 42 through the second pattern |
| CapsuleIntent.LeadingZeros | frontend/src/Guardian.jsx:6-17 | "007" yields 7 |
| CapsuleIntent.GoToVaultEight | frontend/src/Guardian.jsx:6-17 | "go to vault 8 now" yields 8: the match need not start the text, and text may follow the digits |
| CapsuleIntent.FirstReferenceWins | frontend/src/Guardian.jsx:6-17 | "vault 3 or capsule 4" yields 3, the leftmost reference |
| CapsuleIntent.HelloThereNamesNoCapsule | frontend/src/Guardian.jsx:6-17 | "hello there" yields `null` |
| CapsuleIntent.KeywordWithoutNumberNamesNoCapsule | frontend/src/Guardian.jsx:6-17 | "capsule abc" yields `null` |
| Duration.JsRem | frontend/src/Guardian.jsx:27-28 | JavaScript's `%`: a non-negative dividend leaves a remainder in `[0, b)` that completes the division; a negative one leaves a remainder in `(-b, 0]` |
| Duration.Parts | frontend/src/Guardian.jsx:26-32 | Every part has a positive count; the units strictly decrease (days, hours, minutes); hours are below 24; minutes are below 60 and appear only when there are no days |
| Duration.Render | frontend/src/Guardian.jsx:30-32 | A rendered part starts with a digit and ends in `s` exactly when its count is not 1 |
| Duration.RenderAll | frontend/src/Guardian.jsx:30-33 | One rendering per part, in the same order |
| Duration.NoPartsUnderAMinute | frontend/src/Guardian.jsx:26-32 | There are no parts exactly when fewer than 60 seconds remain, negative values included |
| Duration.FormatTimeRemaining | frontend/src/Guardian.jsx:25-34 | The result is "moments" if and only if fewer than 60 seconds remain; otherwise it starts with a count |
| Duration.Breakdown | frontend/src/Guardian.jsx:26-28 | For a non-negative duration: hours < 24, minutes < 60, and days, hours and minutes leave fewer than 60 seconds over |
| Duration.PartsAccount | frontend/src/Guardian.jsx:26-33 | The parts shown never overstate the time left. They understate it by less than a minute, or by less than an hour once days are shown (minutes are then dropped) |
| Duration.Examples | frontend/src/Guardian.jsx:25-34 | 0 and 59 give "moments", 120 gives "2 minutes", 3600 gives "1 hour" |
| Duration.DayAndHourExample | frontend/src/Guardian.jsx:25-34 | 90000 gives "1 day, 1 hour" |
| Text.TrimSlice | frontend/src/Guardian.jsx:7 | `trim` returns a contiguous slice of its input with no whitespace at either end |
| Text.TrimNoop | frontend/src/Guardian.jsx:290 | A string with no whitespace at either end is its own trim |
| Text.NatToString | frontend/src/llmConfig.js:26 | `${n}` of a number is a non-empty string of digits |
| Text.DigitsValueOfNatToString | frontend/src/Guardian.jsx:14 | `parseInt` of the rendering of n gives n back |
| Text.ContainsSuffix | frontend/src/Guardian.jsx:225 | `includes` is kept when text is prepended |
| Transcript.WithoutThinking | frontend/src/Guardian.jsx:83-85 | `removeThinkingMessage` leaves no placeholder and never lengthens the list |
| Transcript.WithoutThinkingAppend | frontend/src/Guardian.jsx:84 | The filter distributes over concatenation, so the kept entries stay in order |
| Transcript.WithoutThinkingDropsOnly | frontend/src/Guardian.jsx:84 | The filter only removes entries: its result is a sub-multiset of its input |
| Transcript.WithoutThinkingKeeps | frontend/src/Guardian.jsx:84 | A list without placeholders is left unchanged |
| Transcript.WithoutThinkingKeepsOthers | frontend/src/Guardian.jsx:84 | Every entry that is not a placeholder survives the filter |
| Transcript.PlaceholderDropped | frontend/src/Guardian.jsx:80-85 | A placeholder that is appended and then filtered leaves the rest as it was |
| Transcript.ShownEntryKept | frontend/src/Guardian.jsx:74-84 | An appended user or guardian entry survives the filter, at the end |
| Transcript.NoThinkingAppend | frontend/src/Guardian.jsx:84 | Two lists without placeholders, joined, have no placeholder |
| Transcript.Prompt | frontend/src/Guardian.jsx:88-91 | What the model receives: the turn-start history, the user turn if there is text, then the context message as the last element |
| Transcript.Recorded | frontend/src/Guardian.jsx:89-101 | The new `llmHistory`: the turn-start history, the user turn if there is text, then one assistant turn with the response |
| Transcript.PromptMatchesRecord | frontend/src/Guardian.jsx:88-101 | The prompt and the stored history agree up to the user turn. They differ only in the last element, the context message that is sent but never stored |
| Transcript.RecordedHasNoSystem | frontend/src/Guardian.jsx:100-101 | A history without context messages stays without them after a call |
| LlmConfig.BuildCapsuleContext | frontend/src/llmConfig.js:21-124 | Every scenario, the unknown ones included, yields a `system` message whose content starts with "CONTEXT: " |
| LlmConfig.InterpolateAppend | frontend/src/llmConfig.js:26-32 | Filling a template distributes over concatenating templates |
| LlmConfig.InterpolateCons | frontend/src/llmConfig.js:26-32 | A template filled is its first piece's text followed by the rest filled |
| LlmConfig.TemplatesReadRequiredFields | frontend/src/llmConfig.js:21-124 | Each template reads exactly the data fields listed for its scenario. For example, time-locked reads id, creator, createdAt, unlockTime and timeRemaining; no-id, wallet, greeting and default read none |
| LlmConfig.FixedTextHoles | frontend/src/llmConfig.js:63-123 | The no-id, wallet-needed, greeting and default templates have no holes |
| LlmConfig.IdOnlyHoles | frontend/src/llmConfig.js:77-103 | The password-testing, wrong-password, unlock-success and download-complete templates read only the id |
| LlmConfig.ErrorHoles | frontend/src/llmConfig.js:105-110 | The unlock-error template reads the id and the error |
| LlmConfig.TimeLockedHoles | frontend/src/llmConfig.js:23-33 | The time-locked template reads id, creator, createdAt, unlockTime and timeRemaining |
| LlmConfig.ReadyHoles | frontend/src/llmConfig.js:35-44 | The ready template reads id, creator, createdAt and unlockTime |
| LlmConfig.AlreadyUnlockedHoles | frontend/src/llmConfig.js:46-54 | The already-unlocked template reads id, creator and createdAt |
| LlmConfig.NotFoundHoles | frontend/src/llmConfig.js:56-61 | The not-found template reads id and maxId |
| LlmConfig.HolesFrom | frontend/src/llmConfig.js:21-124 | The holes of a template suffix are those of its first piece plus those of the rest |
| LlmConfig.InterpolateAgrees | frontend/src/llmConfig.js:21-124 | Two data records that agree on a template's holes give the same text |
| LlmConfig.InterpolateEmbeds | frontend/src/llmConfig.js:21-124 | The filled template contains, verbatim, the text of every field it reads |
| LlmConfig.HoleFirstEmbedded | frontend/src/llmConfig.js:26 | A template that starts with a hole contains that field's text |
| LlmConfig.DependsOnlyOnRequiredFields | frontend/src/llmConfig.js:21-124 | The message depends only on the fields listed for its scenario. So no-id, wallet-needed, greeting and the default do not depend on `data` at all |
| LlmConfig.EmbedsRequiredFields | frontend/src/llmConfig.js:23-110 | The content embeds every listed field verbatim: time-locked embeds id, creator, createdAt, unlockTime and timeRemaining; not-found embeds id and maxId; unlock-error embeds id and error |
| LlmConfig.ErrorContent | frontend/src/llmConfig.js:105-110 | The exact unlock-error content, piece by piece |
| LlmConfig.ErrorQuoted | frontend/src/llmConfig.js:108 | The unlock-error content contains the error text between double quotes |
| LlmConfig.DefaultContent | frontend/src/llmConfig.js:119-123 | An unrecognised scenario yields exactly "CONTEXT: " followed by the default text "General interaction. Respond helpfully.", for any data |
| LocalClient.Collapsed | frontend/src/localClient.js:26-38 | The loop's output contains no `system` message |
| LocalClient.Finish | frontend/src/localClient.js:40-49 | The pushes after the loop keep what the loop produced as a prefix. They add at most two turns, all `user`, so the list is non-empty and ends in a `user` turn |
| LocalClient.Flattened | frontend/src/localClient.js:23-49 | The list sent to the local model is non-empty, ends in a `user` turn, holds no `system` message, and keeps the input's assistant turns exactly, in order |
| LocalClient.Flatten | frontend/src/localClient.js:23-49 | The loop and the pushes compute `Flattened` of the input |
| LocalClient.Close | frontend/src/localClient.js:40-49 | The two conditional pushes compute the specified tail |
| LocalClient.RunStep | frontend/src/localClient.js:27-37 | One turn of a stretch without user turns: a context is appended to the pending one, an assistant turn is passed through |
| LocalClient.UserFreeRun | frontend/src/localClient.js:26-37 | A stretch without user turns copies its assistant turns in order and appends its contexts to the pending one, joined with newlines |
| LocalClient.FirstUserTakesContext | frontend/src/localClient.js:27-34 | Every context before a user turn is attached to that user turn. The pending context then starts empty again, so each context appears in exactly one output message |
| LocalClient.OthersOfCollapsed | frontend/src/localClient.js:35-37 | The loop copies assistant turns unchanged and in their order |
| LocalClient.OthersAppend | frontend/src/localClient.js:35-37 | Assistant turns of a concatenation are those of each half, in order |
| LocalClient.OnlyUsersAdded | frontend/src/localClient.js:40-49 | The synthesized turns add no assistant turn |
| LocalClient.CollapsedCopies | frontend/src/localClient.js:26-38 | Without system turns the loop copies its input |
| LocalClient.UnchangedWhenClean | frontend/src/localClient.js:26-49 | Input with no system turns that ends in a user turn comes out unchanged |
| LocalClient.TrailingContextSaysHello | frontend/src/localClient.js:40-45 | Context with no later user turn becomes a synthesized "User says: Hello" turn, and then no plain "Hello" follows |
| LocalClient.HelloExamples | frontend/src/localClient.js:47-49 | An empty list becomes one plain "Hello"; a list ending in an assistant turn gets a "Hello" after it |
| LocalClient.ContextsJoined | frontend/src/localClient.js:27-34 | Two system turns before a user turn are joined with a newline and attached to it |
| LocalClient.ContextExample | frontend/src/localClient.js:27-34 | The exact wrapped text, `[CONTEXT FOR YOU: a\nb]\n\nUser says: hi` |
| GuardianPlan.AwaitingIdPlan | frontend/src/Guardian.jsx:146-213 | `handleAwaitingId` makes one call, with the user's text. The focus changes only when the capsule is ready; it then becomes the extracted id and the state becomes `AWAITING_PASSWORD` |
| GuardianPlan.LookupPlan | frontend/src/Guardian.jsx:172-212 | Once the id exists: one call with the user's text; the focus changes only to this id, and only into `AWAITING_PASSWORD` with the ready scenario |
| GuardianPlan.Conclusion | frontend/src/Guardian.jsx:239-285 | The unlock's end makes one call without user text. The state stays or becomes `AWAITING_ID`. The focus changes only on success, where it becomes null with `DOWNLOAD_COMPLETE` |
| GuardianPlan.CatchPlan | frontend/src/Guardian.jsx:264-285 | The `catch` makes one call without user text, keeps the focus, and keeps the state or returns to `AWAITING_ID` |
| GuardianPlan.AttemptPlan | frontend/src/Guardian.jsx:233-285 | An unlock attempt makes two calls. The first announces the test with the trimmed password and the focused id |
| GuardianPlan.AwaitingPasswordPlan | frontend/src/Guardian.jsx:215-286 | `handleAwaitingPassword` makes one or two calls when it finishes |
| GuardianPlan.Dispatch | frontend/src/Guardian.jsx:122-131 | A finished handler makes one or two calls, and outside `AWAITING_PASSWORD` exactly one, with the user's text. A thrown reason comes only after the wallet and an id are known, and is the rejection of `nextCapsuleId`, `capsules(id)` or the block read |
| GuardianPlan.TurnPlan | frontend/src/Guardian.jsx:115-144 | A turn makes one or two calls |
| GuardianPlan.Replies | frontend/src/Guardian.jsx:74-76 | One guardian entry per call |
| GuardianPlan.ReplyAt | frontend/src/Guardian.jsx:98-103 | The i-th guardian entry shows the model's answer to the i-th call |
| GuardianPlan.RepliesCons | frontend/src/Guardian.jsx:89-101 | With a later call, an earlier call adds its entry in front, and its history record is overwritten |
| GuardianPlan.WalletNeededFirst | frontend/src/Guardian.jsx:147-152 | Without contract or provider: `WALLET_NEEDED`, state and focus unchanged |
| GuardianPlan.NoIdAsksForOne | frontend/src/Guardian.jsx:154-160 | No extractable id: `NO_CAPSULE_ID`, state and focus unchanged |
| GuardianPlan.UnknownIdNotFound | frontend/src/Guardian.jsx:162-170 | `id >= nextId`: `CAPSULE_NOT_FOUND` with `maxId = nextId - 1`, state and focus unchanged |
| GuardianPlan.NotFoundExample | frontend/src/Guardian.jsx:162-170 | With five capsules, "capsule 9" is not found and the highest id reported is "4" |
| GuardianPlan.AlreadyUnlockedStaysAwaitingId | frontend/src/Guardian.jsx:181-188 | An unlocked capsule: `CAPSULE_ALREADY_UNLOCKED`, state `AWAITING_ID`, focus unchanged |
| GuardianPlan.TimeLockedStaysAwaitingId | frontend/src/Guardian.jsx:191-204 | Unlock time after the block time: `CAPSULE_FOUND_TIME_LOCKED`, state `AWAITING_ID`, focus unchanged, and the `formatTimeRemaining` of the difference as the time remaining |
| GuardianPlan.TimeLockedLookup | frontend/src/Guardian.jsx:191-204 | The same facts, stated for the lookup part of the handler |
| GuardianPlan.ReadyTakesFocus | frontend/src/Guardian.jsx:206-212 | Otherwise the focus becomes the id and the state `AWAITING_PASSWORD`, with `CAPSULE_FOUND_READY` |
| GuardianPlan.FocusChanges | frontend/src/Guardian.jsx:207-262 | A turn changes the focus only by taking a ready capsule into `AWAITING_PASSWORD`, or by clearing it after a successful download |
| GuardianPlan.AttemptFocus | frontend/src/Guardian.jsx:233-285 | An unlock attempt changes the focus only by clearing it, after `DOWNLOAD_COMPLETE`, and then returns to `AWAITING_ID` |
| GuardianPlan.EmptyPasswordReprompts | frontend/src/Guardian.jsx:216-222 | Blank text while a password is awaited re-prompts with `CAPSULE_FOUND_READY`, state and focus unchanged |
| GuardianPlan.SwitchIsHandledAsAwaitingId | frontend/src/Guardian.jsx:224-231 | Text naming another capsule is handled exactly as in `AWAITING_ID`, once |
| GuardianPlan.AttemptAnnouncesTest | frontend/src/Guardian.jsx:233-237 | A password attempt first announces the test of the trimmed password, then makes a second call without user text |
| GuardianPlan.SuccessClearsFocus | frontend/src/Guardian.jsx:260-263 | Success: `DOWNLOAD_COMPLETE`, focus null, state `AWAITING_ID` |
| GuardianPlan.ThrownFailuresShareTheCatch | frontend/src/Guardian.jsx:247-285 | A failed gateway fetch or an empty decryption ends the turn exactly as a contract rejection with that error message would |
| GuardianPlan.PasswordPlanSharesTheCatch | frontend/src/Guardian.jsx:247-285 | The same, for the password handler alone |
| GuardianPlan.AwaitingIdIgnoresUnlock | frontend/src/Guardian.jsx:146-213 | Looking a capsule up does not depend on how an unlock would end |
| GuardianPlan.LookupIgnoresUnlock | frontend/src/Guardian.jsx:172-212 | The same, for the lookup part |
| GuardianPlan.WrongPasswordKeepsState | frontend/src/Guardian.jsx:269-271 | A wrong-password reason: `WRONG_PASSWORD`, state `AWAITING_PASSWORD` and focus unchanged |
| GuardianPlan.OtherFailuresReturnToAwaitingId | frontend/src/Guardian.jsx:272-284 | A "Too early" reason gives time-locked, "Unlocked" gives already-unlocked, anything else gives `UNLOCK_ERROR` carrying the reason. All return to `AWAITING_ID` with the focus kept |
| GuardianPlan.Classify | frontend/src/Guardian.jsx:269-284 | The tests apply in order: a wrong password exactly when "Bad Pass", "password" or "revert" occurs; time-locked only with "Too early"; already-unlocked only with "Unlocked" and without "Too early"; unexplained exactly when none of the five markers occurs |
| GuardianPlan.LookupErrorReported | frontend/src/Guardian.jsx:132-140 | An error escaping the lookup becomes `UNLOCK_ERROR`, with reason text or "Unknown error", the id or "?", and state `AWAITING_ID` |
| GuardianPlan.ThrowsOnlyOnLookup | frontend/src/Guardian.jsx:162-191 | Only the three chain reads can throw out of `handleAwaitingId`, and only after the wallet and the id are known |
| GuardianPlan.ErrorIdExamples | frontend/src/Guardian.jsx:136 | `currentCapsuleId \|\| '?'`: both null and 0 are reported as "?" |
| GuardianPlan.NoThinkingInReplies | frontend/src/Guardian.jsx:74-76 | Guardian entries are never placeholders |
| GuardianPlan.Turn | frontend/src/Guardian.jsx:115-144 | After a turn no placeholder is displayed, the history extends the turn-start one, a history without context messages stays so, and a consistent state stays consistent (`AWAITING_PASSWORD` always has a focus) |
| GuardianPlan.PasswordPhaseHasFocus | frontend/src/Guardian.jsx:207-212 | A turn ends in `AWAITING_PASSWORD` only with a focus |
| GuardianPlan.TurnAppendsEntries | frontend/src/Guardian.jsx:115-144 | A turn appends the user's entry and then one or two guardian entries, and changes nothing before them |
| GuardianPlan.AttemptKeepsOnlyLastReply | frontend/src/Guardian.jsx:233-281 | A password attempt stores only the last call's answer. The password-testing call's record is overwritten, because every call starts from the turn-start history |
| Guardian.Session.constructor | frontend/src/Guardian.jsx:37-45 | The initial state: `GREETING`, no focus, empty transcripts, not processing, not greeted |
| Guardian.Session.AddGuardianMessage | frontend/src/Guardian.jsx:74-76 | Appends exactly one guardian entry at the end |
| Guardian.Session.AddUserMessage | frontend/src/Guardian.jsx:77-79 | Appends exactly one user entry at the end |
| Guardian.Session.AddThinkingMessage | frontend/src/Guardian.jsx:80-82 | Appends exactly one placeholder at the end |
| Guardian.Session.RemoveThinkingMessage | frontend/src/Guardian.jsx:83-85 | Replaces the list by its filter, which holds no placeholder |
| Guardian.Session.AskGuardian | frontend/src/Guardian.jsx:87-103 | Returns the model's answer to the prompt. Sets the history to the given turn-start history, plus the user turn if any, plus the answer |
| Guardian.Session.GenerateGreeting | frontend/src/Guardian.jsx:105-113 | Shows the greeting answer in place of the placeholder, records it and enters `AWAITING_ID` |
| Guardian.Session.Activate | frontend/src/Guardian.jsx:55-60 | The first activation greets: the greeting answer replaces the placeholder, is recorded after the old history, and the state is `AWAITING_ID`, not processing. Later activations change nothing |
| Guardian.Session.Deactivate | frontend/src/Guardian.jsx:62-72 | Resets to `GREETING`, empties both transcripts, clears the focus |
| Guardian.Session.Reply | frontend/src/Guardian.jsx:148-150 | Removes the placeholder, asks the model and shows its answer |
| Guardian.Session.HandleAwaitingId | frontend/src/Guardian.jsx:146-213 | Ends in the state, focus, display list and history of `AwaitingIdPlan`; an escaping error leaves all of them as they were |
| Guardian.Session.Lookup | frontend/src/Guardian.jsx:172-212 | The same, for the lookup part and `LookupPlan` |
| Guardian.Session.HandleAwaitingPassword | frontend/src/Guardian.jsx:215-286 | Ends as `AwaitingPasswordPlan` says. An escaping error comes only from the switch, and leaves `AWAITING_ID` with a fresh placeholder |
| Guardian.Session.SwitchCapsule | frontend/src/Guardian.jsx:225-231 | Returns to `AWAITING_ID`, shows a new placeholder and ends as `handleAwaitingId` on the text |
| Guardian.Session.Announce | frontend/src/Guardian.jsx:232-236 | The answer replaces the placeholder, a new placeholder follows it, and the call is recorded |
| Guardian.Session.TryUnlock | frontend/src/Guardian.jsx:233-285 | Ends as `AttemptPlan` says: the test announcement, then the conclusion's answer |
| Guardian.Session.Conclude | frontend/src/Guardian.jsx:239-285 | Ends as `Conclusion` says |
| Guardian.Session.Fail | frontend/src/Guardian.jsx:241-285 | A failed attempt ends as `CatchPlan` of its reason says |
| Guardian.Session.Catch | frontend/src/Guardian.jsx:264-285 | Ends as `CatchPlan` says |
| Guardian.Session.Handle | frontend/src/Guardian.jsx:122-131 | The `switch` ends as `Dispatch` says. A thrown reason leaves focus and history alone and adds no shown entry |
| Guardian.Session.Respond | frontend/src/Guardian.jsx:121-140 | The `try` and its `catch` end as `TurnPlan` says |
| Guardian.Session.BeginTurn | frontend/src/Guardian.jsx:115-120 | Shows the user's entry, marks the turn in progress and appends one placeholder |
| Guardian.Session.ProcessMessage | frontend/src/Guardian.jsx:115-144 | The new state is `Turn` of the old one. The turn is no longer processing, and a consistent state stays consistent |
| Guardian.Session.Send | frontend/src/Guardian.jsx:288-293 | Blank input, or input while a turn is in progress, changes nothing. Otherwise it processes one turn on the trimmed text |

## Left out

- The network and the provider are not modelled, and neither are the
  contract's own behaviour, the gateway fetch, AES decryption or the
  download anchor (`Guardian.jsx:240-258`). Each enters the model only
  through what `Env` says it answers: a call returns or rejects with a
  reason, and the unlock ends in success, gateway failure, empty decryption
  or rejection.
- `formatDate` is locale-dependent `Date` formatting. It is a parameter of
  type `nat -> string`.
- The model is a parameter of type `seq<Message> -> string`. Provider
  failures are absorbed inside the provider wrapper, so they never reach the
  dialogue.
- `frontend/src/App.jsx` and `frontend/src/groqClient.js` are not part of
  this model. Neither is the network half of `chatWithGuardian` in
  localClient.js (lines 19-20 and 51-78: the abort timer, `fetch`, JSON
  parsing).
- JSX rendering, the scroll and focus effects, the input field and the
  300 ms pause are not modelled. They only affect display and timing.
- React state updates are modelled as immediate assignments, and each turn
  completes before the next one starts. What the asynchronous code does keep is
  the stale history: every `askGuardian` call starts from the history the
  turn began with (`Guardian.jsx:89`), and this is modelled.
- Connection state is modelled only as whether a contract and provider
  exist. Chain values are natural numbers.
- The model has no logging (`console.log`, `console.error`).
- `Text.Trim`, `Text.Lower` and `\s` handle ASCII only. JavaScript's
  Unicode whitespace and case mapping are not modelled.
- `CapsuleIntent.ExtractCapsuleId`: `parseInt` is read exactly. The loss of
  precision on digit strings beyond 2^53 is not modelled.
- Scenario tags are a datatype. `Other` stands for every tag the builder
  does not recognise; the dialogue itself only sends recognised tags.
- Message roles are `system`, `user` and `assistant`. The flattener copies
  any role other than `system` and `user` unchanged, and `assistant` stands
  for all such roles.
- The `data.key` holes print the text the caller passes. Numbers are passed
  already rendered as decimal text (`NatToString`, `IntToString`), and a
  missing field prints as "undefined".
- LlmConfig.DefaultContent states the content as `Prefix + Say(DefaultText)`,
  the two literals of the model. It does not state that joined string as one
  literal, because the solver cannot prove that equality within the
  resource bound.
- `GUARDIAN_SYSTEM_PROMPT` and `SYSTEM_PROMPT` are not modelled: they are
  constant prompt texts that the provider wrappers prepend.
