/** The text of a page cursor: a UTC timestamp in the format of section 5.6 of RFC 3339 with
    its trailing zeros dropped, a comma, and a UUID. */
module Cursor {
  import opened Common

  /** A timestamp of the products table, by its UTC calendar fields. */
  datatype Stamp = Stamp(year: int, month: int, day: int, hour: int, minute: int, second: int, nanos: int)

  predicate LeapYear(y: int) {
    y % 4 == 0 && (y % 100 != 0 || y % 400 == 0)
  }

  function DaysIn(month: int, year: int): int {
    if month == 2 then (if LeapYear(year) then 29 else 28)
    else if month == 4 || month == 6 || month == 9 || month == 11 then 30 else 31
  }

  predicate IsTime(t: Stamp) {
    && 1 <= t.month <= 12 && 1 <= t.day <= DaysIn(t.month, t.year)
    && 0 <= t.hour < 24 && 0 <= t.minute < 60 && 0 <= t.second < 60 && 0 <= t.nanos < 1_000_000_000
  }

  // ---- digits --------------------------------------------------------------------------

  function Digit(d: int): (c: char)
    requires 0 <= d <= 9
    ensures IsDigit(c) && Value(c) == d
  {
    '0' + d as char
  }

  predicate IsDigit(c: char) {
    '0' <= c <= '9'
  }

  function Value(c: char): int {
    c as int - '0' as int
  }

  predicate Digits(s: string) {
    forall i :: 0 <= i < |s| ==> IsDigit(s[i])
  }

  function Pow10(n: nat): (p: int)
    ensures p > 0
  {
    if n == 0 then 1 else 10 * Pow10(n - 1)
  }

  /** The last `w` digits of `n`. */
  function Pad(n: nat, w: nat): (s: string)
    ensures |s| == w && Digits(s)
  {
    if w == 0 then "" else Pad(n / 10, w - 1) + [Digit(n % 10)]
  }

  function Num(s: string): int
    requires Digits(s)
  {
    if s == "" then 0 else 10 * Num(s[..|s| - 1]) + Value(s[|s| - 1])
  }

  lemma {:induction false} NumPad(n: nat, w: nat)
    requires n < Pow10(w)
    ensures Num(Pad(n, w)) == n
  {
    if w > 0 {
      NumPad(n / 10, w - 1);
      OneDigitMore(Pad(n / 10, w - 1), Digit(n % 10));
      hide Num;
    }
  }

  lemma OneDigitMore(s: string, c: char)
    requires Digits(s) && IsDigit(c)
    ensures Digits(s + [c]) && Num(s + [c]) == 10 * Num(s) + Value(c)
  {
    assert (s + [c])[..|s|] == s;
  }

  function TrimZeros(s: string): string {
    if s != "" && s[|s| - 1] == '0' then TrimZeros(s[..|s| - 1]) else s
  }

  lemma {:induction false} TrimZerosKeepsValue(s: string)
    requires Digits(s)
    ensures var t := TrimZeros(s);
            && |t| <= |s| && Digits(t) && Num(t) * Pow10(|s| - |t|) == Num(s)
            && (Num(s) > 0 ==> t != "")
  {
    if s != "" && s[|s| - 1] == '0' {
      var u := s[..|s| - 1];
      TrimZerosKeepsValue(u);
      var t := TrimZeros(u);
      assert Num(s) == 10 * (Num(t) * Pow10(|u| - |t|));
      assert Pow10(|s| - |t|) == 10 * Pow10(|u| - |t|);
      assert Num(t) * (10 * Pow10(|u| - |t|)) == 10 * (Num(t) * Pow10(|u| - |t|));
    } else {
      assert Num(s) * Pow10(0) == Num(s);
    }
  }

  // ---- the date and the time of day ----------------------------------------------------

  /** At least four digits, more if it takes more, and a sign before Christ. */
  function YearText(y: int): string
    decreases if y < 0 then 1 else 0, if y < 0 then -y else y
  {
    if y < 0 then "-" + YearText(-y)
    else if y > 9999 then YearText(y / 10) + [Digit(y % 10)]
    else Pad(y, 4)
  }

  function DateText(t: Stamp): string
    requires IsTime(t)
  {
    YearText(t.year) + "-" + Pad(t.month, 2) + "-" + Pad(t.day, 2)
  }

  function ClockText(t: Stamp): string
    requires IsTime(t)
  {
    Pad(t.hour, 2) + ":" + Pad(t.minute, 2) + ":" + Pad(t.second, 2)
  }

  function FractionText(nanos: nat): string {
    if nanos == 0 then "" else "." + TrimZeros(Pad(nanos, 9))
  }

  function Format(t: Stamp): string
    requires IsTime(t)
  {
    DateText(t) + "T" + (ClockText(t) + (FractionText(t.nanos) + "Z"))
  }

  function ParseDate(s: string): Option<(int, int, int)>
    requires |s| == 10
  {
    if s[4] == '-' && s[7] == '-' && Digits(s[..4]) && Digits(s[5..7]) && Digits(s[8..])
    then Some((Num(s[..4]), Num(s[5..7]), Num(s[8..]))) else None
  }

  function ParseClock(s: string): Option<(int, int, int)>
    requires |s| == 8
  {
    if s[2] == ':' && s[5] == ':' && Digits(s[..2]) && Digits(s[3..5]) && Digits(s[6..])
    then Some((Num(s[..2]), Num(s[3..5]), Num(s[6..]))) else None
  }

  function ParseFraction(s: string): Option<int> {
    if s == "" then Some(0)
    else if s[0] == '.' && |s| > 1 && Digits(s[1..]) then
      var d := if |s| > 10 then s[1..10] else s[1..];
      Some(Num(d) * Pow10(9 - |d|))
    else None
  }

  function ParseTime(s: string): Option<Stamp> {
    if |s| < 20 || s[10] != 'T' || s[|s| - 1] != 'Z' then None
    else
      var (date, clock, fraction) := (ParseDate(s[..10]), ParseClock(s[11..19]), ParseFraction(s[19..|s| - 1]));
      if date.None? || clock.None? || fraction.None? then None
      else
        var t := Stamp(date.value.0, date.value.1, date.value.2,
                       clock.value.0, clock.value.1, clock.value.2, fraction.value);
        if IsTime(t) then Some(t) else None
  }

  lemma DateRoundTrip(t: Stamp)
    requires IsTime(t) && 0 <= t.year <= 9999
    ensures var s := DateText(t); |s| == 10 && ParseDate(s) == Some((t.year, t.month, t.day))
  {
    var s := DateText(t);
    assert Pow10(4) == 10000 && Pow10(2) == 100;
    NumPad(t.year, 4);
    NumPad(t.month, 2);
    NumPad(t.day, 2);
    assert s[..4] == Pad(t.year, 4) && s[5..7] == Pad(t.month, 2) && s[8..] == Pad(t.day, 2);
  }

  lemma ClockRoundTrip(t: Stamp)
    requires IsTime(t)
    ensures var s := ClockText(t); |s| == 8 && ParseClock(s) == Some((t.hour, t.minute, t.second))
  {
    var s := ClockText(t);
    assert Pow10(2) == 100;
    NumPad(t.hour, 2);
    NumPad(t.minute, 2);
    NumPad(t.second, 2);
    assert s[..2] == Pad(t.hour, 2) && s[3..5] == Pad(t.minute, 2) && s[6..] == Pad(t.second, 2);
  }

  lemma FractionRoundTrip(nanos: nat)
    requires nanos < 1_000_000_000
    ensures ParseFraction(FractionText(nanos)) == Some(nanos)
  {
    if nanos > 0 {
      var d := TrimZeros(Pad(nanos, 9));
      assert Pow10(9) == 1_000_000_000 by { assert Pow10(5) == 100_000; }
      NumPad(nanos, 9);
      TrimZerosKeepsValue(Pad(nanos, 9));
      assert ("." + d)[1..] == d;
    }
  }

  /** A year beyond 9999, or before Christ, does not fit the four digits that are read back. */
  lemma {:induction false} LongYear(y: int)
    requires y < 0 || y > 9999
    ensures var s := YearText(y); |s| >= 5 && (IsDigit(s[4]) || s[0] == '-')
  {
    if y > 9999 {
      if y / 10 > 9999 { LongYear(y / 10); }
      YearHasNoSign(y / 10);
    } else {
      YearHasNoSign(-y);
    }
  }

  lemma {:induction false} YearHasNoSign(y: nat)
    ensures var s := YearText(y); |s| >= 4 && Digits(s)
  {
    if y > 9999 { YearHasNoSign(y / 10); }
  }

  /** A timestamp is read back as itself, if its year has four digits; if not, not at all. */
  lemma TimeRoundTrip(t: Stamp)
    requires IsTime(t)
    ensures ParseTime(Format(t)) == if 0 <= t.year <= 9999 then Some(t) else None
  {
    if 0 <= t.year <= 9999 { FourDigitYear(t); } else { LongYearIsRefused(t); }
  }

  lemma FourDigitYear(t: Stamp)
    requires IsTime(t) && 0 <= t.year <= 9999
    ensures ParseTime(Format(t)) == Some(t)
  {
    DateRoundTrip(t);
    ClockRoundTrip(t);
    FractionRoundTrip(t.nanos);
    hide DateText, ClockText, FractionText, ParseDate, ParseClock, ParseFraction;
    Parts(DateText(t), ClockText(t), FractionText(t.nanos));
  }

  lemma Parts(date: string, clock: string, fraction: string)
    requires |date| == 10 && |clock| == 8
    ensures var s := date + "T" + (clock + (fraction + "Z"));
            && |s| >= 20 && s[10] == 'T' && s[|s| - 1] == 'Z'
            && s[..10] == date && s[11..19] == clock && s[19..|s| - 1] == fraction
  {
  }

  lemma LongYearIsRefused(t: Stamp)
    requires IsTime(t) && !(0 <= t.year <= 9999)
    ensures ParseTime(Format(t)).None?
  {
    var s := Format(t);
    LongYear(t.year);
    assert s[0] == YearText(t.year)[0] && s[4] == YearText(t.year)[4];
    hide Format, YearText, ParseClock, ParseFraction, Num;
    if |s| >= 20 {
      assert s[..10][4] == s[4] && s[..4][0] == s[..10][..4][0] == s[0];
    }
  }

  // ---- the identifier ------------------------------------------------------------------

  predicate IsUuid(s: string) {
    && |s| == 36
    && forall i :: 0 <= i < 36 ==>
         if i == 8 || i == 13 || i == 18 || i == 23 then s[i] == '-' else IsDigit(s[i]) || 'a' <= s[i] <= 'f'
  }

  function ParseUuid(s: string): Option<string> {
    if IsUuid(s) then Some(s) else None
  }

  // ---- the cursor ----------------------------------------------------------------------

  function Split(s: string, sep: char): (parts: seq<string>)
    ensures parts != []
  {
    if s == "" then [""]
    else
      var rest := Split(s[1..], sep);
      if s[0] == sep then [""] + rest else [[s[0]] + rest[0]] + rest[1..]
  }

  lemma {:induction false} SplitNone(s: string, sep: char)
    requires sep !in s
    ensures Split(s, sep) == [s]
  {
    if s != "" {
      SplitNone(s[1..], sep);
      assert [s[0]] + s[1..] == s;
    }
  }

  lemma {:induction false} SplitAtSeparator(a: string, b: string, sep: char)
    requires sep !in a && sep !in b
    ensures Split(a + [sep] + b, sep) == [a, b]
  {
    var s := a + [sep] + b;
    if a == "" {
      assert s[1..] == b;
      SplitNone(b, sep);
    } else {
      assert s[1..] == a[1..] + [sep] + b;
      SplitAtSeparator(a[1..], b, sep);
      assert [s[0]] + a[1..] == a;
    }
  }

  function Encode(t: Stamp, id: string): (cursor: string)
    requires IsTime(t)
    ensures cursor != ""
  {
    Format(t) + "," + id
  }

  /** Where to go on after: nothing for the first page or for a cursor that cannot be read. */
  function Decode(cursor: string): Option<(Stamp, string)> {
    var parts := Split(cursor, ',');
    if cursor == "" || |parts| != 2 then None
    else
      var (t, id) := (ParseTime(parts[0]), ParseUuid(parts[1]));
      if t.Some? && id.Some? then Some((t.value, id.value)) else None
  }

  lemma {:induction false} NoComma(s: string)
    ensures Digits(s) ==> ',' !in s
    ensures ',' !in s ==> ',' !in TrimZeros(s)
  {
    if s != "" && s[|s| - 1] == '0' { NoComma(s[..|s| - 1]); }
  }

  lemma {:induction false} YearHasNoComma(y: int)
    ensures ',' !in YearText(y)
    decreases if y < 0 then 1 else 0, if y < 0 then -y else y
  {
    if y < 0 { YearHasNoComma(-y); }
    else if y > 9999 { YearHasNoComma(y / 10); }
    else { NoComma(Pad(y, 4)); }
  }

  lemma FormatHasNoComma(t: Stamp)
    requires IsTime(t)
    ensures ',' !in Format(t)
  {
    YearHasNoComma(t.year);
    NoComma(Pad(t.nanos, 9));
    assert ',' !in DateText(t) by { NoComma(Pad(t.month, 2)); NoComma(Pad(t.day, 2)); }
    assert ',' !in ClockText(t) by { NoComma(Pad(t.hour, 2)); NoComma(Pad(t.minute, 2)); NoComma(Pad(t.second, 2)); }
    hide DateText, ClockText;
  }

  /** A cursor leads back to the row it was made from, if and only if that row's year has four
      digits; any other leads back to the first page. */
  lemma CursorRoundTrip(t: Stamp, id: string)
    requires IsTime(t) && IsUuid(id)
    ensures Decode(Encode(t, id)) == if 0 <= t.year <= 9999 then Some((t, id)) else None
  {
    FormatHasNoComma(t);
    SplitAtSeparator(Format(t), id, ',');
    TimeRoundTrip(t);
  }
}
