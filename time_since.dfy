/** `timeSince` and `timeSinceShort`: the time elapsed since an instant, in
    the largest whole unit that fits, as "3 days ago" or "3d ago". The
    current time is a parameter; instants are epoch milliseconds. */
module TimeSince {
  import Js

  datatype Unit = Year | Month | Day | Hour | Minute | Second

  /** The length of a unit in seconds: a year is 365 days and a month 30. */
  function UnitSeconds(u: Unit): nat {
    match u
    case Year => 31536000
    case Month => 2592000
    case Day => 86400
    case Hour => 3600
    case Minute => 60
    case Second => 1
  }

  /** `Math.floor(ms / 1000 / n)`: for a positive divisor Dafny's division
      of integers rounds down, as `Math.floor` does. */
  function Whole(ms: int, n: nat): int
    requires n > 0
  {
    ms / (1000 * n)
  }

  /** The cascade of `if`s: the first unit of which at least one whole
      one has elapsed, with that number of units; below a minute the unit
      is the second, whatever the count. */
  function Bucket(ms: int): (Unit, int) {
    if Whole(ms, 31536000) >= 1 then (Year, Whole(ms, 31536000))
    else if Whole(ms, 2592000) >= 1 then (Month, Whole(ms, 2592000))
    else if Whole(ms, 86400) >= 1 then (Day, Whole(ms, 86400))
    else if Whole(ms, 3600) >= 1 then (Hour, Whole(ms, 3600))
    else if Whole(ms, 60) >= 1 then (Minute, Whole(ms, 60))
    else (Second, Whole(ms, 1))
  }

  /** The unit is the largest whose length in milliseconds has elapsed;
      the count is the number of whole units elapsed, at least 1 except for
      seconds. */
  lemma BucketSpec(ms: int)
    ensures var (u, c) := Bucket(ms);
      && (u == Year <==> ms >= 31536000 * 1000)
      && (u == Month <==> 2592000 * 1000 <= ms < 31536000 * 1000)
      && (u == Day <==> 86400 * 1000 <= ms < 2592000 * 1000)
      && (u == Hour <==> 3600 * 1000 <= ms < 86400 * 1000)
      && (u == Minute <==> 60 * 1000 <= ms < 3600 * 1000)
      && (u == Second <==> ms < 60 * 1000)
      && c * UnitSeconds(u) * 1000 <= ms < (c + 1) * UnitSeconds(u) * 1000
      && (u != Second ==> c >= 1)
  {
    WholeBounds(ms, 31536000);
    WholeBounds(ms, 2592000);
    WholeBounds(ms, 86400);
    WholeBounds(ms, 3600);
    WholeBounds(ms, 60);
    WholeBounds(ms, 1);
  }

  /** `Whole(ms, n)` is the floor of the number of `n`-second units in
      `ms`, so it is at least 1 exactly when one whole unit has elapsed. */
  lemma WholeBounds(ms: int, n: nat)
    requires n > 0
    ensures Whole(ms, n) * n * 1000 <= ms < (Whole(ms, n) + 1) * n * 1000
    ensures Whole(ms, n) >= 1 <==> ms >= n * 1000
  {
    var q, d := Whole(ms, n), 1000 * n;
    assert q * d <= ms < q * d + d;
    assert q * n * 1000 == q * d && (q + 1) * n * 1000 == q * d + d;
    if q >= 1 {
      assert q * d >= d;
    } else {
      assert q * d <= 0 - d + d;
    }
  }

  /** An instant in the future counts a negative number of seconds. */
  lemma FutureIsNegativeSeconds(ms: int)
    requires ms < 0
    ensures Bucket(ms).0 == Second && Bucket(ms).1 < 0
  {
  }

  function UnitName(u: Unit): string {
    match u
    case Year => "year"
    case Month => "month"
    case Day => "day"
    case Hour => "hour"
    case Minute => "minute"
    case Second => "second"
  }

  function UnitAbbreviation(u: Unit): string {
    match u
    case Year => "y"
    case Month => "mo"
    case Day => "d"
    case Hour => "h"
    case Minute => "m"
    case Second => "s"
  }

  /** The plural `s` is added when the count is 0 or more than 1. */
  predicate Plural(c: int) {
    c > 1 || c == 0
  }

  /** `timeSince(epoch)` at time `now`. */
  function TimeSinceText(now: int, epoch: int): string {
    var (u, c) := Bucket(now - epoch);
    Js.IntToString(c) + " " + UnitName(u) + (if Plural(c) then "s" else "") + " ago"
  }

  /** `timeSinceShort(epoch)` at time `now`: the same unit and count,
      abbreviated, without a space and without a plural. */
  function TimeSinceShortText(now: int, epoch: int): string {
    var (u, c) := Bucket(now - epoch);
    Js.IntToString(c) + UnitAbbreviation(u) + " ago"
  }

  lemma NoSpaceInNumber(n: int)
    ensures ' ' !in Js.IntToString(n)
  {
    var s := Js.IntToString(n);
    if n < 0 {
      assert s == "-" + Js.NatToString(-n);
      assert forall k :: 1 <= k < |s| ==> s[k] == Js.NatToString(-n)[k - 1];
    }
  }

  lemma SplitAtSpace(x: string, y: string, r1: string, r2: string)
    requires ' ' !in x && ' ' !in y
    requires x + " " + r1 == y + " " + r2
    ensures x == y && r1 == r2
  {
    var s := x + " " + r1;
    assert s[|x|] == ' ' && s[|y|] == ' ';
    assert forall k :: 0 <= k < |x| ==> s[k] == x[k] != ' ';
    assert forall k :: 0 <= k < |y| ==> s[k] == y[k] != ' ';
    assert x == s[..|x|];
    assert y == s[..|y|];
    assert r1 == s[|x| + 1..];
  }

  /** The text shows the count and the unit: two elapsed times with the
      same text fall in the same unit with the same count. */
  lemma TimeSinceTextDetermines(now: int, epoch: int, now': int, epoch': int)
    requires TimeSinceText(now, epoch) == TimeSinceText(now', epoch')
    ensures Bucket(now - epoch) == Bucket(now' - epoch')
  {
    var (u, c) := Bucket(now - epoch);
    var (u', c') := Bucket(now' - epoch');
    NoSpaceInNumber(c);
    NoSpaceInNumber(c');
    var r := UnitName(u) + (if Plural(c) then "s" else "") + " ago";
    var r' := UnitName(u') + (if Plural(c') then "s" else "") + " ago";
    assert TimeSinceText(now, epoch) == Js.IntToString(c) + " " + r;
    assert TimeSinceText(now', epoch') == Js.IntToString(c') + " " + r';
    SplitAtSpace(Js.IntToString(c), Js.IntToString(c'), r, r');
    Js.IntToStringInjective(c, c');
    UnitNameSuffix(u, u', if Plural(c) then "s" else "");
  }

  lemma UnitNameSuffix(u: Unit, u': Unit, p: string)
    requires UnitName(u) + p + " ago" == UnitName(u') + p + " ago"
    ensures u == u'
  {
    var s := UnitName(u) + p + " ago";
    assert |UnitName(u)| == |UnitName(u')|;
    assert UnitName(u) == s[..|UnitName(u)|] == UnitName(u');
  }

  /** Text made of digits and minus signs only. */
  predicate NumberText(x: string) {
    forall k :: 0 <= k < |x| ==> Js.IsDigit(x[k]) || x[k] == '-'
  }

  /** A count is written with digits and a minus sign only. */
  lemma NumberChars(n: int)
    ensures NumberText(Js.IntToString(n))
  {
    var s := Js.IntToString(n);
    if n < 0 {
      assert forall k :: 1 <= k < |s| ==> s[k] == Js.NatToString(-n)[k - 1];
    }
  }

  lemma SplitAtLetter(x: string, y: string, a: string, b: string)
    requires NumberText(x) && NumberText(y)
    requires a != [] && 'a' <= a[0] <= 'z' && b != [] && 'a' <= b[0] <= 'z'
    requires x + a == y + b
    ensures x == y && a == b
  {
    var s := x + a;
    assert s[|x|] == a[0] && s[|y|] == b[0];
    assert forall k :: 0 <= k < |x| ==> s[k] == x[k];
    assert forall k :: 0 <= k < |y| ==> s[k] == y[k];
    assert x == s[..|x|] && y == s[..|y|];
    assert a == s[|x|..];
  }

  lemma AbbreviationSuffix(u: Unit, u': Unit)
    requires UnitAbbreviation(u) + " ago" == UnitAbbreviation(u') + " ago"
    ensures u == u'
  {
    var s := UnitAbbreviation(u) + " ago";
    assert UnitAbbreviation(u) == s[..|s| - 4] == UnitAbbreviation(u');
  }

  /** The short text, too, shows the count and the unit: the abbreviation
      starts with a letter, so it is where the number ends. */
  lemma TimeSinceShortTextDetermines(now: int, epoch: int, now': int, epoch': int)
    requires TimeSinceShortText(now, epoch) == TimeSinceShortText(now', epoch')
    ensures Bucket(now - epoch) == Bucket(now' - epoch')
  {
    var (u, c) := Bucket(now - epoch);
    var (u', c') := Bucket(now' - epoch');
    NumberChars(c);
    NumberChars(c');
    var a, a' := UnitAbbreviation(u) + " ago", UnitAbbreviation(u') + " ago";
    assert TimeSinceShortText(now, epoch) == Js.IntToString(c) + a;
    assert TimeSinceShortText(now', epoch') == Js.IntToString(c') + a';
    SplitAtLetter(Js.IntToString(c), Js.IntToString(c'), a, a');
    Js.IntToStringInjective(c, c');
    AbbreviationSuffix(u, u');
  }

  /** The long form ends in the unit's name, plural exactly when the count
      is 0 or above 1, followed by ` ago`. */
  lemma TimeSincePlural(now: int, epoch: int)
    ensures var (u, c) := Bucket(now - epoch);
      var t := TimeSinceText(now, epoch);
      && Js.StartsWith(t, Js.IntToString(c) + " " + UnitName(u))
      && (Plural(c) <==> Js.StartsWith(t, Js.IntToString(c) + " " + UnitName(u) + "s"))
  {
    var (u, c) := Bucket(now - epoch);
    var t := TimeSinceText(now, epoch);
    var head := Js.IntToString(c) + " " + UnitName(u);
    assert t[..|head|] == head;
    if Plural(c) {
      assert t[..|head| + 1] == head + "s";
    } else {
      assert t[|head|] == ' ';
      assert (head + "s")[|head|] == 's';
    }
  }
}
