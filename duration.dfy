/** The human-readable duration of `formatTimeRemaining` in Guardian.jsx:
    whole days, then hours, then minutes only when there are no days, each
    omitted when zero, joined with ", ", and "moments" when nothing is left. */
module Duration {
  import opened Text

  datatype Unit = Day | Hour | Minute

  /** One entry of the `parts` array: a count and its unit. */
  datatype Part = Part(count: nat, unit: Unit)

  function UnitSeconds(u: Unit): nat
  {
    match u
    case Day => 86400
    case Hour => 3600
    case Minute => 60
  }

  function UnitName(u: Unit): string
  {
    match u
    case Day => "day"
    case Hour => "hour"
    case Minute => "minute"
  }

  /** JavaScript's `%` on integers: the remainder has the sign of the dividend. */
  function JsRem(a: int, b: int): (r: int)
    requires b > 0
    ensures a >= 0 ==> 0 <= r < b && a == (a / b) * b + r
    ensures a < 0 ==> -b < r <= 0
  {
    if a >= 0 then a % b else -((-a) % b)
  }

  // `Math.floor(x / y)` with a positive divisor is Dafny's integer division.
  function Days(seconds: int): int { seconds / 86400 }
  function Hours(seconds: int): int { JsRem(seconds, 86400) / 3600 }
  function Minutes(seconds: int): int { JsRem(seconds, 3600) / 60 }

  /** The `parts` array, in the order it is filled. */
  function Parts(seconds: int): (ps: seq<Part>)
    ensures forall i :: 0 <= i < |ps| ==> ps[i].count > 0
    ensures forall i, j :: 0 <= i < j < |ps| ==> UnitSeconds(ps[i].unit) > UnitSeconds(ps[j].unit)
    ensures forall i :: 0 <= i < |ps| && ps[i].unit == Hour ==> ps[i].count < 24
    ensures forall i :: 0 <= i < |ps| && ps[i].unit == Minute ==> ps[i].count < 60 && Days(seconds) == 0
  {
    var days := Days(seconds);
    var hours := Hours(seconds);
    var mins := Minutes(seconds);
    (if days > 0 then [Part(days, Day)] else [])
    + (if hours > 0 then [Part(hours, Hour)] else [])
    + (if mins > 0 && days == 0 then [Part(mins, Minute)] else [])
  }

  /** `${n} unit` with an `s` appended exactly when the count is not 1. */
  function Render(p: Part): (r: string)
    ensures r != [] && IsDigit(r[0])
    ensures (r[|r| - 1] == 's') <==> p.count != 1
  {
    NatToString(p.count) + " " + UnitName(p.unit) + (if p.count != 1 then "s" else "")
  }

  function RenderAll(ps: seq<Part>): (rs: seq<string>)
    ensures |rs| == |ps|
    ensures forall i :: 0 <= i < |ps| ==> rs[i] == Render(ps[i])
  {
    if ps == [] then [] else [Render(ps[0])] + RenderAll(ps[1..])
  }

  /** `Array.prototype.join(', ')`. */
  function JoinComma(items: seq<string>): string
  {
    if |items| == 0 then ""
    else if |items| == 1 then items[0]
    else items[0] + ", " + JoinComma(items[1..])
  }

  /** `formatTimeRemaining`: the result reads "moments" if and only if less
      than a minute remains; otherwise it lists the counts, starting with a
      digit. */
  function FormatTimeRemaining(seconds: int): (r: string)
    ensures r == "moments" <==> seconds < 60
    ensures seconds >= 60 ==> r != [] && IsDigit(r[0])
  {
    NoPartsUnderAMinute(seconds);
    var joined := JoinComma(RenderAll(Parts(seconds)));
    assert seconds >= 60 ==> joined != [] && IsDigit(joined[0]);
    assert !IsDigit("moments"[0]);
    if joined == "" then "moments" else joined
  }

  /** The seconds the parts account for. */
  function Total(ps: seq<Part>): nat
  {
    if ps == [] then 0 else ps[0].count * UnitSeconds(ps[0].unit) + Total(ps[1..])
  }

  /** There is nothing to show exactly when less than a minute remains (negative
      values included). */
  lemma NoPartsUnderAMinute(seconds: int)
    ensures Parts(seconds) == [] <==> seconds < 60
  {
    if seconds >= 60 {
      if Days(seconds) == 0 {
        assert seconds < 86400;
        if Hours(seconds) == 0 {
          assert seconds < 3600;
          assert Minutes(seconds) > 0;
        }
      }
    } else if seconds < 0 {
      assert Days(seconds) < 0 && Hours(seconds) <= 0 && Minutes(seconds) <= 0;
    }
  }

  /** The breakdown of a non-negative duration into days, hours, minutes and
      leftover seconds. */
  lemma Breakdown(seconds: int)
    requires seconds >= 0
    ensures 0 <= Hours(seconds) < 24 && 0 <= Minutes(seconds) < 60
    ensures 0 <= seconds - (Days(seconds) * 86400 + Hours(seconds) * 3600 + Minutes(seconds) * 60) < 60
  {
    var days, hours, mins := Days(seconds), Hours(seconds), Minutes(seconds);
    var r := seconds % 86400;
    assert seconds == days * 86400 + r && 0 <= r < 86400;
    assert hours == r / 3600;
    var r2 := r % 3600;
    assert r == hours * 3600 + r2 && 0 <= r2 < 3600;
    assert seconds == (days * 24 + hours) * 3600 + r2;
    HourRemainder(seconds, days * 24 + hours, r2);
    assert mins == r2 / 60;
    assert r2 == mins * 60 + r2 % 60;
  }

  /** A remainder below an hour is the `%` by an hour of the dividend. */
  lemma HourRemainder(x: int, q: int, r: int)
    requires 0 <= r < 3600 && x == q * 3600 + r
    ensures x % 3600 == r
  {
  }

  /** The shown parts never overstate the time left, and they understate it by
      less than the smallest unit shown: a minute, or an hour once days appear. */
  lemma PartsAccount(seconds: int)
    requires seconds >= 0
    ensures Total(Parts(seconds)) <= seconds
    ensures seconds < Total(Parts(seconds)) + (if Days(seconds) > 0 then 3600 else 60)
  {
    var days, hours, mins := Days(seconds), Hours(seconds), Minutes(seconds);
    Breakdown(seconds);
    var ps := Parts(seconds);
    var dayPart := if days > 0 then [Part(days, Day)] else [];
    var hourPart := if hours > 0 then [Part(hours, Hour)] else [];
    var minPart := if mins > 0 && days == 0 then [Part(mins, Minute)] else [];
    assert ps == dayPart + hourPart + minPart;
    TotalAppend(dayPart, hourPart + minPart);
    TotalAppend(hourPart, minPart);
    assert Total(ps) == days * 86400 + hours * 3600 + (if days == 0 then mins * 60 else 0);
  }

  lemma {:induction false} TotalAppend(a: seq<Part>, b: seq<Part>)
    ensures Total(a + b) == Total(a) + Total(b)
    decreases |a|
  {
    if a == [] {
      assert a + b == b;
    } else {
      assert (a + b)[1..] == a[1..] + b;
      TotalAppend(a[1..], b);
    }
  }

  /** Sample outputs of the formatter, one per branch. */
  lemma Examples()
    ensures FormatTimeRemaining(0) == "moments"
    ensures FormatTimeRemaining(59) == "moments"
    ensures FormatTimeRemaining(120) == "2 minutes"
    ensures FormatTimeRemaining(3600) == "1 hour"
  {
    assert Parts(120) == [Part(2, Minute)];
    assert Render(Part(2, Minute)) == "2 minutes";
    assert Parts(3600) == [Part(1, Hour)];
    assert Render(Part(1, Hour)) == "1 hour";
  }

  lemma DayAndHourExample()
    ensures FormatTimeRemaining(90000) == "1 day, 1 hour"
  {
    assert Days(90000) == 1 && Hours(90000) == 1 && Minutes(90000) == 0;
    assert Parts(90000) == [Part(1, Day), Part(1, Hour)];
    assert Render(Part(1, Day)) == "1 day";
    assert Render(Part(1, Hour)) == "1 hour";
    assert RenderAll([Part(1, Day), Part(1, Hour)]) == ["1 day", "1 hour"];
    assert JoinComma(["1 day", "1 hour"]) == "1 day" + ", " + JoinComma(["1 hour"]);
  }
}
