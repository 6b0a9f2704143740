/** Capsule-id extraction from free text (`extractCapsuleId` in Guardian.jsx).
    Two patterns are tried in order on the trimmed text: the labelled pattern
    `(?:capsule|vault|id|epoch|#)\s*#?(\d+)` (case-insensitive, leftmost match),
    then the whole text being digits. The captured digits are read exactly
    (JavaScript's `parseInt` loses precision on very long digit strings).
    Each piece of the labelled pattern consumes a prefix of the text that
    follows it, as a backtracking-free regular-expression engine would. */
module CapsuleIntent {
  import opened Wrappers
  import opened Text

  /** The alternatives of the labelled pattern, in the order they are tried. */
  const Keywords: seq<string> := ["capsule", "vault", "id", "epoch", "#"]

  /** The text `t` starts with the keyword `k`, ignoring ASCII case. */
  predicate KeywordAt(t: string, k: string)
  {
    |k| <= |t| && Lower(t[..|k|]) == k
  }

  /** No alternative is empty. */
  predicate NonEmpty(ks: seq<string>)
  {
    forall n :: 0 <= n < |ks| ==> ks[n] != []
  }

  /** No two alternatives start with the same character. */
  predicate DistinctFirst(ks: seq<string>)
    requires NonEmpty(ks)
  {
    forall a, b :: 0 <= a < b < |ks| ==> ks[a][0] != ks[b][0]
  }

  /** The alternatives `ks`, tried in order at the start of `t`: the length
      of the first one that occurs there. */
  function KeywordFrom(t: string, ks: seq<string>): (r: Option<nat>)
    requires NonEmpty(ks)
    ensures r.Some? ==> 0 < r.value <= |t|
    decreases |ks|
  {
    if ks == [] then None
    else if KeywordAt(t, ks[0]) then Some(|ks[0]|)
    else KeywordFrom(t, ks[1..])
  }

  /** The length of the keyword the alternation matches at the start of `t`. */
  function KeywordEnd(t: string): (r: Option<nat>)
    ensures r.Some? ==> 0 < r.value <= |t|
  {
    KeywordFrom(t, Keywords)
  }

  /** A keyword found at the start of `t` starts with the lower-cased first
      character of `t`. */
  lemma KeywordFirstLetter(t: string, k: string)
    requires KeywordAt(t, k) && k != []
    ensures LowerChar(t[0]) == k[0]
  {
    assert Lower(t[..|k|])[0] == LowerChar(t[..|k|][0]);
  }

  /** The alternatives fail exactly when none of them occurs. */
  lemma {:induction false} KeywordFromNone(t: string, ks: seq<string>)
    requires NonEmpty(ks)
    ensures KeywordFrom(t, ks).None? <==> forall k :: k in ks ==> !KeywordAt(t, k)
    decreases |ks|
  {
    if ks != [] {
      KeywordFromNone(t, ks[1..]);
      assert forall k :: k in ks <==> k == ks[0] || k in ks[1..];
    }
  }

  /** With distinct first letters, at most one alternative occurs at the start
      of `t`, and the alternation matches exactly that one. */
  lemma {:induction false} KeywordFromAt(t: string, ks: seq<string>, k: string)
    requires NonEmpty(ks) && DistinctFirst(ks)
    requires k in ks && KeywordAt(t, k)
    ensures KeywordFrom(t, ks) == Some(|k|)
    decreases |ks|
  {
    var n :| 0 <= n < |ks| && ks[n] == k;
    if KeywordAt(t, ks[0]) {
      KeywordFirstLetter(t, ks[0]);
      KeywordFirstLetter(t, k);
      assert n == 0;
    } else {
      assert n > 0 && ks[1..][n - 1] == k;
      assert DistinctFirst(ks[1..]) by {
        forall a, b | 0 <= a < b < |ks[1..]| ensures ks[1..][a][0] != ks[1..][b][0] {
          assert ks[1..][a] == ks[a + 1] && ks[1..][b] == ks[b + 1];
        }
      }
      KeywordFromAt(t, ks[1..], k);
    }
  }

  /** The keywords are non-empty and start with different characters. */
  lemma KeywordsDistinct()
    ensures NonEmpty(Keywords) && DistinctFirst(Keywords)
  {
  }

  /** The alternation matches at the start of `t` exactly when one of the
      keywords occurs there, ignoring case, and it then consumes that keyword. */
  lemma KeywordEndExact(t: string)
    ensures KeywordEnd(t).None? <==> forall k :: k in Keywords ==> !KeywordAt(t, k)
    ensures forall k :: k in Keywords && KeywordAt(t, k) ==> KeywordEnd(t) == Some(|k|)
  {
    KeywordsDistinct();
    KeywordFromNone(t, Keywords);
    forall k | k in Keywords && KeywordAt(t, k)
      ensures KeywordEnd(t) == Some(|k|)
    {
      KeywordFromAt(t, Keywords, k);
    }
  }

  /** The keywords are written in lower case. */
  lemma LowerKeyword(k: string)
    requires k in Keywords
    ensures Lower(k) == k
  {
    forall m | 0 <= m < |k| ensures LowerChar(k[m]) == k[m] {
      assert k[m] in {'a', 'c', 'd', 'e', 'h', 'i', 'l', 'o', 'p', 's', 't', 'u', 'v', '#'};
    }
  }

  /** Every keyword is lower-case, so it matches wherever it occurs, and the
      alternation then consumes exactly that keyword. */
  lemma KeywordMatchesItself(keyword: string, rest: string)
    requires keyword in Keywords
    ensures KeywordEnd(keyword + rest) == Some(|keyword|)
  {
    LowerKeyword(keyword);
    assert (keyword + rest)[..|keyword|] == keyword;
    KeywordsDistinct();
    KeywordFromAt(keyword + rest, Keywords, keyword);
  }

  /** `\s*`: what is left of `t` once its leading whitespace is skipped. */
  function SkipSpaces(t: string): (r: string)
    ensures r != [] ==> !IsSpace(r[0])
    decreases |t|
  {
    if t != [] && IsSpace(t[0]) then SkipSpaces(t[1..]) else t
  }

  /** `#?`: what is left of `t` once an optional `#` is skipped. */
  function OptionalHash(t: string): string
  {
    if t != [] && t[0] == '#' then t[1..] else t
  }

  /** `\d+` taken greedily: the run of digits that starts `t`. */
  function DigitPrefix(t: string): (w: string)
    ensures AllDigits(w)
    ensures t != [] && IsDigit(t[0]) ==> w != []
    decreases |t|
  {
    if t != [] && IsDigit(t[0]) then [t[0]] + DigitPrefix(t[1..]) else []
  }

  /** `\s*#?(\d+)` at the start of `t`: the value of the captured digits. */
  function CaptureAfter(t: string): Option<nat>
  {
    var r := OptionalHash(SkipSpaces(t));
    if r != [] && IsDigit(r[0]) then Some(DigitsValue(DigitPrefix(r))) else None
  }

  /** The labelled pattern anchored at the start of `t`. */
  function MatchHere(t: string): Option<nat>
  {
    match KeywordEnd(t)
    case None => None
    case Some(n) => CaptureAfter(t[n..])
  }

  /** The labelled pattern anchored at position `i` of `s`. */
  function MatchAt(s: string, i: nat): Option<nat>
    requires i <= |s|
  {
    MatchHere(s[i..])
  }

  // ---- Each piece consumes what it should ----

  /** `\s*` skips exactly a run of whitespace that is not followed by more. */
  lemma {:induction false} SkipSpacesOver(gap: string, rest: string)
    requires forall m :: 0 <= m < |gap| ==> IsSpace(gap[m])
    requires rest == [] || !IsSpace(rest[0])
    ensures SkipSpaces(gap + rest) == rest
    decreases |gap|
  {
    if gap == [] {
      assert gap + rest == rest;
    } else {
      assert (gap + rest)[0] == gap[0];
      assert (gap + rest)[1..] == gap[1..] + rest;
      SkipSpacesOver(gap[1..], rest);
    }
  }

  /** `#?` skips the `#` when there is one, and nothing otherwise. */
  lemma OptionalHashOver(mark: string, rest: string)
    requires mark in {"", "#"}
    requires rest == [] || rest[0] != '#'
    ensures OptionalHash(mark + rest) == rest
  {
    if mark == "" {
      assert mark + rest == rest;
    } else {
      assert (mark + rest)[0] == '#';
      assert (mark + rest)[1..] == rest;
    }
  }

  /** `\d+` takes exactly a run of digits that is followed by a non-digit or
      by the end of the text. */
  lemma {:induction false} DigitPrefixOver(digits: string, post: string)
    requires AllDigits(digits) && (post == [] || !IsDigit(post[0]))
    ensures DigitPrefix(digits + post) == digits
    decreases |digits|
  {
    if digits == [] {
      assert digits + post == post;
    } else {
      assert (digits + post)[0] == digits[0];
      assert (digits + post)[1..] == digits[1..] + post;
      assert AllDigits(digits[1..]) by {
        forall m | 0 <= m < |digits[1..]| ensures IsDigit(digits[1..][m]) {
          assert digits[1..][m] == digits[m + 1];
        }
      }
      DigitPrefixOver(digits[1..], post);
      assert [digits[0]] + digits[1..] == digits;
    }
  }

  /** After whitespace, an optional `#` and a run of digits that is followed
      by a non-digit or by the end of the text, the pattern captures that run. */
  lemma CaptureOver(gap: string, mark: string, digits: string, post: string)
    requires forall m :: 0 <= m < |gap| ==> IsSpace(gap[m])
    requires mark in {"", "#"} && digits != [] && AllDigits(digits)
    requires post == [] || !IsDigit(post[0])
    ensures CaptureAfter(gap + (mark + (digits + post))) == Some(DigitsValue(digits))
  {
    var r := digits + post;
    assert r[0] == digits[0] && IsDigit(r[0]);
    assert (mark + r)[0] == if mark == "" then r[0] else '#';
    SkipSpacesOver(gap, mark + r);
    OptionalHashOver(mark, r);
    DigitPrefixOver(digits, post);
  }

  /** The labelled pattern matches at the start of a text that begins with a
      keyword, whitespace, an optional `#` and a run of digits, with a non-digit
      or the end of the text after the digits. */
  lemma MatchHereOver(keyword: string, gap: string, mark: string, digits: string, post: string)
    requires keyword in Keywords && mark in {"", "#"}
    requires forall m :: 0 <= m < |gap| ==> IsSpace(gap[m])
    requires digits != [] && AllDigits(digits) && (post == [] || !IsDigit(post[0]))
    ensures MatchHere(keyword + (gap + (mark + (digits + post)))) == Some(DigitsValue(digits))
  {
    var rest := gap + (mark + (digits + post));
    KeywordMatchesItself(keyword, rest);
    assert (keyword + rest)[|keyword|..] == rest;
    CaptureOver(gap, mark, digits, post);
  }

  /** The same, at position `p` of a longer text. */
  lemma MatchAtKeyword(s: string, p: nat, keyword: string, gap: string, mark: string, digits: string, post: string)
    requires keyword in Keywords && mark in {"", "#"}
    requires forall m :: 0 <= m < |gap| ==> IsSpace(gap[m])
    requires digits != [] && AllDigits(digits) && (post == [] || !IsDigit(post[0]))
    requires p <= |s| && s[p..] == keyword + (gap + (mark + (digits + post)))
    ensures MatchAt(s, p) == Some(DigitsValue(digits))
  {
    MatchHereOver(keyword, gap, mark, digits, post);
  }

  // ---- What a match captures ----

  /** `\s*` leaves a suffix of the text. */
  lemma {:induction false} SkipSpacesSuffix(t: string)
    ensures |SkipSpaces(t)| <= |t| && SkipSpaces(t) == t[|t| - |SkipSpaces(t)|..]
    decreases |t|
  {
    if t != [] && IsSpace(t[0]) {
      SkipSpacesSuffix(t[1..]);
      DropDrop(t, 1, |t[1..]| - |SkipSpaces(t[1..])|);
    }
  }

  /** `\d+` takes a prefix of the text. */
  lemma {:induction false} DigitPrefixPrefix(t: string)
    ensures |DigitPrefix(t)| <= |t| && DigitPrefix(t) == t[..|DigitPrefix(t)|]
    decreases |t|
  {
    if t != [] && IsDigit(t[0]) {
      DigitPrefixPrefix(t[1..]);
      var w := DigitPrefix(t[1..]);
      assert t[..1 + |w|] == [t[0]] + t[1..][..|w|];
    }
  }

  lemma DropDrop(t: string, a: nat, b: nat)
    requires a + b <= |t|
    ensures t[a..][b..] == t[a + b..]
  {
  }

  lemma SliceOfSlice(t: string, a: nat, b: nat, d: nat, e: nat)
    requires a <= b <= |t| && d <= e <= b - a
    ensures t[a..b][d..e] == t[a + d..a + e]
  {
    assert forall m :: 0 <= m < e - d ==> t[a..b][d..e][m] == t[a + d + m];
  }

  /** A capture is the value of a non-empty run of digits of the text. */
  lemma CaptureAfterDigits(t: string)
    ensures CaptureAfter(t).Some? ==>
      exists d, e :: 0 <= d < e <= |t| && AllDigits(t[d..e]) && CaptureAfter(t).value == DigitsValue(t[d..e])
  {
    var r1 := SkipSpaces(t);
    var r := OptionalHash(r1);
    if r != [] && IsDigit(r[0]) {
      var c := |t| - |r1| + (if r1 != [] && r1[0] == '#' then 1 else 0);
      var w := DigitPrefix(r);
      assert c < |t| && r == t[c..] by {
        SkipSpacesSuffix(t);
        DropDrop(t, |t| - |r1|, c - (|t| - |r1|));
      }
      assert |w| <= |r| && w == t[c..c + |w|] by {
        DigitPrefixPrefix(r);
        SliceOfSlice(t, c, |t|, 0, |w|);
        assert t[c..][..|w|] == t[c..|t|][0..|w|];
      }
      assert CaptureAfter(t) == Some(DigitsValue(w));
      assert 0 <= c < c + |w| <= |t| && AllDigits(t[c..c + |w|]);
    }
  }

  /** A match is the value of a non-empty run of digits after its keyword. */
  lemma MatchAtDigits(s: string, i: nat)
    requires i <= |s|
    ensures MatchAt(s, i).Some? ==>
      exists d, e :: i < d < e <= |s| && AllDigits(s[d..e]) && MatchAt(s, i).value == DigitsValue(s[d..e])
  {
    var t := s[i..];
    if KeywordEnd(t).Some? {
      var n := KeywordEnd(t).value;
      var u := t[n..];
      CaptureAfterDigits(u);
      if CaptureAfter(u).Some? {
        var d, e :| 0 <= d < e <= |u| && AllDigits(u[d..e]) && CaptureAfter(u).value == DigitsValue(u[d..e]);
        assert u == s[i + n..] by {
          DropDrop(s, i, n);
        }
        assert u[d..e] == s[i + n + d..i + n + e] by {
          SliceOfSlice(s, i + n, |s|, d, e);
        }
      }
    }
  }

  // ---- The leftmost-match scan ----

  /** No match of the labelled pattern starts at a position in `[i, p)`. */
  predicate NoMatchIn(s: string, i: nat, p: nat)
    requires i <= p <= |s|
  {
    forall q :: i <= q < p ==> MatchAt(s, q).None?
  }

  /** No attempt in `[i, p)` succeeded. */
  predicate NoneIn(ms: seq<Option<nat>>, i: nat, p: nat)
    requires i <= p <= |ms|
  {
    forall q :: i <= q < p ==> ms[q].None?
  }

  /** A scan over the outcomes `ms` of attempts made left to right: the first
      success from `i` on. */
  function FirstSome(ms: seq<Option<nat>>, i: nat): Option<nat>
    requires i <= |ms|
    decreases |ms| - i
  {
    if i == |ms| then None
    else if ms[i].Some? then ms[i]
    else FirstSome(ms, i + 1)
  }

  /** The scan returns the leftmost success, and `None` only when every
      attempt failed. */
  lemma {:induction false} FirstSomeLeftmost(ms: seq<Option<nat>>, i: nat)
    requires i <= |ms|
    ensures FirstSome(ms, i).Some? ==> exists p :: i <= p < |ms| && NoneIn(ms, i, p) && ms[p] == FirstSome(ms, i)
    ensures FirstSome(ms, i).None? ==> NoneIn(ms, i, |ms|)
    decreases |ms| - i
  {
    if i == |ms| {
      assert NoneIn(ms, i, |ms|);
    } else if ms[i].Some? {
      assert NoneIn(ms, i, i);
    } else {
      FirstSomeLeftmost(ms, i + 1);
      if FirstSome(ms, i + 1).Some? {
        var p :| i + 1 <= p < |ms| && NoneIn(ms, i + 1, p) && ms[p] == FirstSome(ms, i + 1);
        assert NoneIn(ms, i, p);
      } else {
        assert NoneIn(ms, i, |ms|);
      }
    }
  }

  /** The scan settles on the first success. */
  lemma FirstSomeAt(ms: seq<Option<nat>>, i: nat, p: nat)
    requires i <= p < |ms| && NoneIn(ms, i, p) && ms[p].Some?
    ensures FirstSome(ms, i) == ms[p]
  {
    FirstSomeLeftmost(ms, i);
  }

  /** The labelled pattern tried at every position of `s`, left to right. */
  function Attempts(s: string): (ms: seq<Option<nat>>)
    ensures |ms| == |s|
  {
    seq(|s|, q requires 0 <= q < |s| => MatchAt(s, q))
  }

  /** "No match in `[i, p)`" read on the attempts. */
  lemma NoMatchInAttempts(s: string, i: nat, p: nat)
    requires i <= p <= |s|
    ensures NoMatchIn(s, i, p) <==> NoneIn(Attempts(s), i, p)
  {
    forall q | i <= q < p ensures Attempts(s)[q] == MatchAt(s, q) {
    }
  }

  /** The scan for the labelled pattern from position `i` on. */
  function FirstLabelled(s: string, i: nat): Option<nat>
    requires i <= |s|
  {
    FirstSome(Attempts(s), i)
  }

  /** The scan finds the leftmost match: the match at the first position from
      `i` on where the pattern matches, or `None` when it matches nowhere. */
  lemma FirstLabelledLeftmost(s: string, i: nat)
    requires i <= |s|
    ensures var r := FirstLabelled(s, i);
      r.Some? ==> exists p :: i <= p < |s| && NoMatchIn(s, i, p) && MatchAt(s, p) == r
    ensures FirstLabelled(s, i).None? ==> NoMatchIn(s, i, |s|)
  {
    var ms := Attempts(s);
    FirstSomeLeftmost(ms, i);
    if FirstSome(ms, i).Some? {
      var p :| i <= p < |ms| && NoneIn(ms, i, p) && ms[p] == FirstSome(ms, i);
      NoMatchInAttempts(s, i, p);
      assert MatchAt(s, p) == ms[p];
    } else {
      NoMatchInAttempts(s, i, |s|);
    }
  }

  /** `extractCapsuleId`: the first pattern that matches wins; `None` stands
      for `null`. */
  function ExtractCapsuleId(text: string): (r: Option<nat>)
  {
    var cleaned := Trim(text);
    match FirstLabelled(cleaned, 0)
    case Some(n) => Some(n)
    case None => if cleaned != [] && AllDigits(cleaned) then Some(DigitsValue(cleaned)) else None
  }

  /** What `extractCapsuleId` returns, on the trimmed text: the capture of the
      leftmost labelled match; when there is none, the value of the whole text
      if that is a non-empty run of digits, and `None` otherwise. */
  lemma ExtractCapsuleIdMeaning(text: string)
    ensures var s := Trim(text); var r := ExtractCapsuleId(text);
      r.Some? ==>
        (exists p :: 0 <= p < |s| && NoMatchIn(s, 0, p) && MatchAt(s, p) == r)
        || (NoMatchIn(s, 0, |s|) && s != [] && AllDigits(s) && r.value == DigitsValue(s))
    ensures var s := Trim(text); var r := ExtractCapsuleId(text);
      r.None? ==> NoMatchIn(s, 0, |s|) && !(s != [] && AllDigits(s))
  {
    FirstLabelledLeftmost(Trim(text), 0);
  }

  /** The second pattern, read back: an id found where no labelled match
      starts is the whole trimmed text, read as a number. */
  lemma UnlabelledIdIsWholeText(text: string)
    requires NoMatchIn(Trim(text), 0, |Trim(text)|)
    requires ExtractCapsuleId(text).Some?
    ensures Trim(text) != [] && AllDigits(Trim(text)) && ExtractCapsuleId(text).value == DigitsValue(Trim(text))
  {
    ExtractCapsuleIdMeaning(text);
  }

  /** Whatever is extracted is the value of a non-empty run of digits of the text. */
  lemma {:induction false} ExtractedFromText(text: string)
    ensures ExtractCapsuleId(text).Some? ==>
      exists i, j :: 0 <= i < j <= |text| && AllDigits(text[i..j]) && ExtractCapsuleId(text).value == DigitsValue(text[i..j])
  {
    var cleaned := Trim(text);
    TrimSlice(text);
    var a, b :| 0 <= a <= b <= |text| && cleaned == text[a..b];
    assert |cleaned| == b - a;
    var found := FirstLabelled(cleaned, 0);
    FirstLabelledLeftmost(cleaned, 0);
    if found.Some? {
      var p :| 0 <= p < |cleaned| && NoMatchIn(cleaned, 0, p) && MatchAt(cleaned, p) == found;
      MatchAtDigits(cleaned, p);
      var d, e :| p < d < e <= |cleaned| && AllDigits(cleaned[d..e]) && found.value == DigitsValue(cleaned[d..e]);
      SliceOfSlice(text, a, b, d, e);
      assert ExtractCapsuleId(text) == found;
      assert 0 <= a + d < a + e <= |text| && AllDigits(text[a + d..a + e]) && found.value == DigitsValue(text[a + d..a + e]);
    } else if cleaned != [] && AllDigits(cleaned) {
      assert ExtractCapsuleId(text) == Some(DigitsValue(cleaned));
      assert 0 <= a < b <= |text| && AllDigits(text[a..b]) && DigitsValue(cleaned) == DigitsValue(text[a..b]);
    } else {
      assert ExtractCapsuleId(text) == None;
    }
  }

  /** Text without a single digit never names a capsule (for example "capsule abc"). */
  lemma NoDigitsNoId(text: string)
    requires NoDigits(text)
    ensures ExtractCapsuleId(text) == None
  {
    ExtractedFromText(text);
  }

  /** No keyword starts at a character whose lower case is not the first
      letter of a keyword: a digit, a space, most letters. */
  lemma NoKeywordAtLetter(s: string, i: nat)
    requires i < |s| && LowerChar(s[i]) !in {'c', 'v', 'i', 'e', '#'}
    ensures KeywordEnd(s[i..]) == None && MatchAt(s, i) == None
  {
    var t := s[i..];
    assert t[0] == s[i];
    forall k | k in Keywords ensures !KeywordAt(t, k) {
      if KeywordAt(t, k) {
        KeywordFirstLetter(t, k);
      }
    }
    KeywordEndExact(t);
  }

  /** No keyword starts at a digit. */
  lemma NoKeywordAtDigit(s: string, i: nat)
    requires i < |s| && IsDigit(s[i])
    ensures MatchAt(s, i) == None
  {
    NoKeywordAtLetter(s, i);
  }

  lemma {:induction false} NoLabelInDigits(s: string, i: nat)
    requires i <= |s| && AllDigits(s)
    ensures FirstLabelled(s, i) == None
    decreases |s| - i
  {
    if i < |s| {
      NoKeywordAtDigit(s, i);
      assert Attempts(s)[i] == MatchAt(s, i);
      NoLabelInDigits(s, i + 1);
    }
  }

  /** Text that trims to a run of digits is read as the value of those digits,
      leading zeros included ("007" names capsule 7). */
  lemma BareDigitsRead(text: string)
    requires Trim(text) != [] && AllDigits(Trim(text))
    ensures ExtractCapsuleId(text) == Some(DigitsValue(Trim(text)))
  {
    NoLabelInDigits(Trim(text), 0);
  }

  /** A bare number is read back as itself. */
  lemma BareNumberRoundTrip(n: nat)
    ensures ExtractCapsuleId(NatToString(n)) == Some(n)
  {
    var s := NatToString(n);
    TrimNoop(s);
    BareDigitsRead(s);
    DigitsValueOfNatToString(n);
  }

  /** Five pieces joined left to right are the same pieces nested to the right. */
  lemma JoinFive(a: string, b: string, c: string, d: string, e: string)
    ensures a + b + c + d + e == a + (b + (c + (d + e)))
  {
  }

  /** The scan settles on the first position where the pattern matches. */
  lemma FirstLabelledAt(s: string, i: nat, p: nat)
    requires i <= p < |s| && NoMatchIn(s, i, p) && MatchAt(s, p).Some?
    ensures FirstLabelled(s, i) == MatchAt(s, p)
  {
    NoMatchInAttempts(s, i, p);
    assert Attempts(s)[p] == MatchAt(s, p);
    FirstSomeAt(Attempts(s), i, p);
  }

  /** The leftmost labelled reference wins: when the trimmed text has no match
      before position `p`, and a keyword, whitespace, an optional `#` and a
      number start at `p` (followed by a non-digit or the end), the id is that
      number, whatever follows. */
  lemma LeftmostLabelWins(text: string, p: nat, keyword: string, gap: string, mark: string, digits: string, post: string)
    requires keyword in Keywords && mark in {"", "#"}
    requires forall m :: 0 <= m < |gap| ==> IsSpace(gap[m])
    requires digits != [] && AllDigits(digits) && (post == [] || !IsDigit(post[0]))
    requires p <= |Trim(text)| && Trim(text)[p..] == keyword + gap + mark + digits + post
    requires NoMatchIn(Trim(text), 0, p)
    ensures ExtractCapsuleId(text) == Some(DigitsValue(digits))
  {
    var s := Trim(text);
    JoinFive(keyword, gap, mark, digits, post);
    MatchAtKeyword(s, p, keyword, gap, mark, digits, post);
    FirstLabelledAt(s, 0, p);
  }

  /** A labelled reference (a keyword, optional whitespace, an optional `#`, a
      number) is read back as its number: "capsule 12", "vault #3", "id 7", "#9". */
  lemma {:induction false} LabelledRoundTrip(keyword: string, gap: string, hash: bool, n: nat)
    requires keyword in Keywords
    requires forall m :: 0 <= m < |gap| ==> IsSpace(gap[m])
    ensures ExtractCapsuleId(keyword + gap + (if hash then "#" else "") + NatToString(n)) == Some(n)
  {
    var mark := if hash then "#" else "";
    var digits := NatToString(n);
    var s := keyword + gap + mark + digits;
    assert s[0] == keyword[0];
    assert s[|s| - 1] == digits[|digits| - 1];
    TrimNoop(s);
    assert s[0..] == s + [];
    LeftmostLabelWins(s, 0, keyword, gap, mark, digits, []);
    DigitsValueOfNatToString(n);
  }

  /** Examples of `extractCapsuleId`: "capsule 12", "vault #3", "id 7", "#9",
      a bare "42" and "007". */
  lemma CapsuleTwelve()
    ensures ExtractCapsuleId("capsule 12") == Some(12)
  {
    assert NatToString(12) == "12" by { assert NatToString(1) == "1"; }
    assert "capsule" + " " + "" + NatToString(12) == "capsule 12";
    LabelledRoundTrip("capsule", " ", false, 12);
  }

  lemma VaultHashThree()
    ensures ExtractCapsuleId("vault #3") == Some(3)
  {
    assert "vault" + " " + "#" + NatToString(3) == "vault #3";
    LabelledRoundTrip("vault", " ", true, 3);
  }

  lemma IdSeven()
    ensures ExtractCapsuleId("id 7") == Some(7)
  {
    assert "id" + " " + "" + NatToString(7) == "id 7";
    LabelledRoundTrip("id", " ", false, 7);
  }

  lemma HashNine()
    ensures ExtractCapsuleId("#9") == Some(9)
  {
    assert "#" + "" + "" + NatToString(9) == "#9";
    LabelledRoundTrip("#", "", false, 9);
  }

  lemma BareFortyTwo()
    ensures ExtractCapsuleId("42") == Some(42)
  {
    assert NatToString(42) == "42" by { assert NatToString(4) == "4"; }
    BareNumberRoundTrip(42);
  }

  lemma LeadingZeros()
    ensures ExtractCapsuleId("007") == Some(7)
  {
    var s := "007";
    assert s[..2] == "00" && s[..2][..1] == "0" && s[..2][..1][..0] == "";
    assert DigitsValue("0") == 0 && DigitsValue("00") == 0;
    assert DigitsValue(s) == 7;
    TrimNoop(s);
    BareDigitsRead(s);
  }

  /** A reference in the middle of a sentence is found. */
  lemma GoToVaultEight()
    ensures ExtractCapsuleId("go to vault 8 now") == Some(8)
  {
    var s := "go to vault 8 now";
    TrimNoop(s);
    forall q | 0 <= q < 6 ensures MatchAt(s, q).None? {
      NoKeywordAtLetter(s, q);
    }
    assert s[6..] == "vault" + " " + "" + "8" + " now";
    assert DigitsValue("8") == 8 by { assert "8"[..0] == ""; }
    LeftmostLabelWins(s, 6, "vault", " ", "", "8", " now");
  }

  /** Of two references, the first one wins. */
  lemma FirstReferenceWins()
    ensures ExtractCapsuleId("vault 3 or capsule 4") == Some(3)
  {
    var s := "vault 3 or capsule 4";
    TrimNoop(s);
    assert s[0..] == "vault" + " " + "" + "3" + " or capsule 4";
    assert DigitsValue("3") == 3 by { assert "3"[..0] == ""; }
    LeftmostLabelWins(s, 0, "vault", " ", "", "3", " or capsule 4");
  }

  lemma HelloThereNamesNoCapsule()
    ensures ExtractCapsuleId("hello there") == None
  {
    var h := "hello there";
    forall i | 0 <= i < |h| ensures !IsDigit(h[i]) {
      assert h[i] in {'h', 'e', 'l', 'o', ' ', 't', 'r'};
    }
    NoDigitsNoId(h);
  }

  lemma KeywordWithoutNumberNamesNoCapsule()
    ensures ExtractCapsuleId("capsule abc") == None
  {
    var c := "capsule abc";
    forall i | 0 <= i < |c| ensures !IsDigit(c[i]) {
      assert c[i] in {'c', 'a', 'p', 's', 'u', 'l', 'e', ' ', 'b'};
    }
    NoDigitsNoId(c);
  }
}
