/**
 * The date formatter `dateFormat(fmt, date)` and `getTodayDateString()`.
 * The calendar fields of the JavaScript `Date` (local time of the zone the
 * process sets at start-up) are taken as plain integers.
 */
module DateFormat {
  import opened Wrappers
  import opened Text

  /** What `getFullYear`, `getMonth` (0-based), `getDate`, `getHours`,
      `getMinutes` and `getSeconds` return. */
  datatype DateTime = DateTime(year: int, month: int, day: int, hours: int, minutes: int, seconds: int)

  /** The placeholder letters of the formatter, in the order it visits them. */
  const Tokens: seq<char> := ['Y', 'm', 'd', 'H', 'M', 'S']

  /** The text that replaces each placeholder; the month is shown 1-based. */
  function FieldTexts(t: DateTime): (v: seq<string>)
    ensures |v| == |Tokens|
  {
    [IntToString(t.year), IntToString(t.month + 1), IntToString(t.day),
     IntToString(t.hours), IntToString(t.minutes), IntToString(t.seconds)]
  }

  /** Position of the first `c` in `s` (where the regular expression `c+` starts matching). */
  function IndexOf(s: string, c: char): (r: Option<nat>)
    ensures r.Some? ==> r.value < |s|
  {
    if s == [] then None
    else if s[0] == c then Some(0)
    else match IndexOf(s[1..], c)
      case None => None
      case Some(i) => Some(i + 1)
  }

  /** Length of the run of `c` starting at `i` (how far the greedy `c+` extends). */
  function RunLength(s: string, i: nat, c: char): (n: nat)
    requires i <= |s|
    ensures i + n <= |s|
    decreases |s| - i
  {
    if i < |s| && s[i] == c then 1 + RunLength(s, i + 1, c) else 0
  }

  /** One round of the formatter's loop: the first run of `key` is replaced by
      `value`, zero-padded to the run's length unless the run is one letter. */
  function Substitute(fmt: string, key: char, value: string): string {
    match IndexOf(fmt, key)
    case None => fmt
    case Some(i) => ReplaceToken(fmt, fmt[i..i + RunLength(fmt, i, key)], value)
  }

  /** The matched run is replaced by the value, zero-padded to the run's
      length unless the run is a single letter. */
  function ReplaceToken(fmt: string, token: string, value: string): string {
    ReplaceFirst(fmt, token, if |token| == 1 then value else PadStart(value, |token|))
  }

  /** The formatter's loop, one round per placeholder letter, in order. */
  function SubstituteAll(fmt: string, keys: seq<char>, values: seq<string>): string
    requires |keys| == |values|
    decreases |keys|
  {
    if keys == [] then fmt
    else SubstituteAll(Substitute(fmt, keys[0], values[0]), keys[1..], values[1..])
  }

  /** `IndexOf` finds the first occurrence of the letter. */
  lemma {:induction false} IndexOfIs(s: string, c: char, i: nat)
    requires i < |s| && s[i] == c
    requires forall j :: 0 <= j < i ==> s[j] != c
    ensures IndexOf(s, c) == Some(i)
  {
    if i > 0 {
      IndexOfIs(s[1..], c, i - 1);
    }
  }

  /** `IndexOf` reports a missing letter as missing. */
  lemma {:induction false} IndexOfAbsent(s: string, c: char)
    requires forall j :: 0 <= j < |s| ==> s[j] != c
    ensures IndexOf(s, c) == None
  {
    if s != [] {
      IndexOfAbsent(s[1..], c);
    }
  }

  /** `RunLength` measures the whole run, as the greedy `+` does. */
  lemma {:induction false} RunLengthIs(s: string, i: nat, c: char, n: nat)
    requires i + n <= |s|
    requires forall j :: i <= j < i + n ==> s[j] == c
    requires i + n == |s| || s[i + n] != c
    ensures RunLength(s, i, c) == n
    decreases n
  {
    if n > 0 {
      RunLengthIs(s, i + 1, c, n - 1);
    }
  }

  lemma ReplaceTokenAt(fmt: string, token: string, value: string, i: nat)
    requires FindFirst(fmt, token) == Some(i)
    ensures ReplaceToken(fmt, token, value)
         == fmt[..i] + (if |token| == 1 then value else PadStart(value, |token|)) + fmt[i + |token|..]
  {
    ReplaceFirstAt(fmt, token, if |token| == 1 then value else PadStart(value, |token|), i);
  }

  lemma LocateRun(before: string, n: nat, after: string, key: char)
    requires n >= 1
    requires forall j :: 0 <= j < |before| ==> before[j] != key
    requires after == [] || after[0] != key
    ensures var fmt := before + seq(n, _ => key) + after;
      && IndexOf(fmt, key) == Some(|before|)
      && RunLength(fmt, |before|, key) == n
      && fmt[|before|..|before| + n] == seq(n, _ => key)
      && FindFirst(fmt, seq(n, _ => key)) == Some(|before|)
  {
    var run := seq(n, _ => key);
    var fmt := before + run + after;
    var i := |before|;
    IndexOfIs(fmt, key, i);
    RunLengthIs(fmt, i, key, n);
    assert fmt[i..i + n] == run;
    forall j | 0 <= j < i
      ensures !OccursAt(fmt, run, j)
    {
      assert fmt[j..j + n][0] == before[j];
    }
    FindFirstIs(fmt, run, i);
  }

  lemma SliceAround(before: string, run: string, after: string)
    ensures (before + run + after)[..|before|] == before
    ensures (before + run + after)[|before| + |run|..] == after
  {
  }

  /** The first run of `key` is replaced, and what surrounds it is kept. */
  lemma SubstituteRun(before: string, n: nat, after: string, key: char, value: string)
    requires n >= 1
    requires forall j :: 0 <= j < |before| ==> before[j] != key
    requires after == [] || after[0] != key
    ensures Substitute(before + seq(n, _ => key) + after, key, value)
         == before + (if n == 1 then value else PadStart(value, n)) + after
  {
    var run := seq(n, _ => key);
    var fmt := before + run + after;
    LocateRun(before, n, after, key);
    assert Substitute(fmt, key, value) == ReplaceToken(fmt, run, value);
    ReplaceTokenAt(fmt, run, value, |before|);
    SliceAround(before, run, after);
  }

  /** A format without the letter is left as it is. */
  lemma SubstituteAbsent(fmt: string, key: char, value: string)
    requires forall j :: 0 <= j < |fmt| ==> fmt[j] != key
    ensures Substitute(fmt, key, value) == fmt
  {
    IndexOfAbsent(fmt, key);
  }

  /** `dateFormat(fmt, date)`: the placeholders are visited in the order of `Tokens`. */
  method Format(fmt: string, date: DateTime) returns (r: string)
    ensures r == SubstituteAll(fmt, Tokens, FieldTexts(date))
  {
    var values := FieldTexts(date);
    r := fmt;
    for k := 0 to |Tokens|
      invariant SubstituteAll(r, Tokens[k..], values[k..]) == SubstituteAll(fmt, Tokens, values)
    {
      assert Tokens[k..][1..] == Tokens[k + 1..];
      assert values[k..][1..] == values[k + 1..];
      r := Substitute(r, Tokens[k], values[k]);
    }
  }

  /** The date text that every cache key and fingerprint contains:
      year padded to four digits, 1-based month and day padded to two. */
  function TodayString(t: DateTime): string {
    PadStart(IntToString(t.year), 4) + "-" + PadStart(IntToString(t.month + 1), 2) + "-" + PadStart(IntToString(t.day), 2)
  }

  predicate NumericChar(c: char) {
    IsDigit(c) || c == '-'
  }

  /** Text made of digits and '-' only: it holds no placeholder letter. */
  predicate Numeric(s: string) {
    forall j :: 0 <= j < |s| ==> NumericChar(s[j])
  }

  lemma PaddedNumeric(x: int, n: nat)
    ensures Numeric(PadStart(IntToString(x), n))
  {
    var s := IntToString(x);
    var r := PadStart(s, n);
    IntToStringChars(x);
    PadStartShape(s, n);
    forall j | 0 <= j < |r| ensures NumericChar(r[j]) {
      if j >= |r| - |s| {
        assert r[j] == r[|r| - |s|..][j - (|r| - |s|)];
      }
    }
  }

  lemma NumericConcat(a: string, b: string)
    requires Numeric(a) && Numeric(b)
    ensures Numeric(a + b)
  {
  }

  lemma TemplateShape()
    ensures "YYYY-mm-dd" == [] + seq(4, _ => 'Y') + "-mm-dd"
  {
  }

  lemma YearStep(y: string, v: string)
    requires y == PadStart(v, 4)
    ensures Substitute("YYYY-mm-dd", 'Y', v) == y + "-mm-dd"
  {
    TemplateShape();
    SubstituteRun([], 4, "-mm-dd", 'Y', v);
    assert [] + y == y;
  }

  lemma MonthStep(y: string, m: string, v: string)
    requires m == PadStart(v, 2) && Numeric(y)
    ensures Substitute(y + "-mm-dd", 'm', v) == y + "-" + m + "-dd"
  {
    NumericConcat(y, "-");
    assert y + "-mm-dd" == (y + "-") + seq(2, _ => 'm') + "-dd";
    SubstituteRun(y + "-", 2, "-dd", 'm', v);
  }

  lemma DayStep(y: string, m: string, d: string, v: string)
    requires d == PadStart(v, 2) && Numeric(y) && Numeric(m)
    ensures Substitute(y + "-" + m + "-dd", 'd', v) == y + "-" + m + "-" + d
  {
    NumericConcat(y, "-");
    NumericConcat(y + "-", m);
    NumericConcat(y + "-" + m, "-");
    assert y + "-" + m + "-dd" == (y + "-" + m + "-") + seq(2, _ => 'd') + [];
    SubstituteRun(y + "-" + m + "-", 2, [], 'd', v);
  }

  lemma SubstituteAllStep(fmt: string, keys: seq<char>, values: seq<string>)
    requires |keys| == |values| > 0
    ensures SubstituteAll(fmt, keys, values)
         == SubstituteAll(Substitute(fmt, keys[0], values[0]), keys[1..], values[1..])
  {
  }

  /** Three rounds of the loop, each with its known outcome. */
  lemma ThreeRounds(f0: string, f1: string, f2: string, f3: string, keys: seq<char>, values: seq<string>)
    requires |keys| == |values| >= 3
    requires Substitute(f0, keys[0], values[0]) == f1
    requires Substitute(f1, keys[1], values[1]) == f2
    requires Substitute(f2, keys[2], values[2]) == f3
    ensures SubstituteAll(f0, keys, values) == SubstituteAll(f3, keys[3..], values[3..])
  {
    SubstituteAllStep(f0, keys, values);
    SubstituteAllStep(f1, keys[1..], values[1..]);
    SubstituteAllStep(f2, keys[2..], values[2..]);
    assert keys[1..][1..] == keys[2..] && values[1..][1..] == values[2..];
    assert keys[2..][1..] == keys[3..] && values[2..][1..] == values[3..];
  }

  /** Placeholder letters that a numeric text does not contain leave it unchanged. */
  lemma {:induction false} NumericUnchanged(f: string, keys: seq<char>, values: seq<string>)
    requires |keys| == |values|
    requires Numeric(f)
    requires forall i :: 0 <= i < |keys| ==> !NumericChar(keys[i])
    ensures SubstituteAll(f, keys, values) == f
    decreases |keys|
  {
    if keys != [] {
      SubstituteAbsent(f, keys[0], values[0]);
      NumericUnchanged(f, keys[1..], values[1..]);
    }
  }

  lemma FieldTextsNumeric(t: DateTime)
    ensures Numeric(PadStart(IntToString(t.year), 4))
    ensures Numeric(PadStart(IntToString(t.month + 1), 2))
    ensures Numeric(PadStart(IntToString(t.day), 2))
  {
    PaddedNumeric(t.year, 4);
    PaddedNumeric(t.month + 1, 2);
    PaddedNumeric(t.day, 2);
  }

  /** The hour, minute and second rounds leave a numeric text unchanged. */
  lemma TimeRoundsUnchanged(f: string, values: seq<string>)
    requires Numeric(f) && |values| == 3
    ensures SubstituteAll(f, Tokens[3..], values) == f
  {
    NumericUnchanged(f, Tokens[3..], values);
  }

  /** The year, month and day rounds fill the template "YYYY-mm-dd". */
  lemma DateRoundsFill(values: seq<string>)
    requires |values| == |Tokens|
    requires Numeric(PadStart(values[0], 4)) && Numeric(PadStart(values[1], 2))
    ensures SubstituteAll("YYYY-mm-dd", Tokens, values)
         == SubstituteAll(PadStart(values[0], 4) + "-" + PadStart(values[1], 2) + "-" + PadStart(values[2], 2),
                          Tokens[3..], values[3..])
  {
    var y, m, d := PadStart(values[0], 4), PadStart(values[1], 2), PadStart(values[2], 2);
    YearStep(y, values[0]);
    MonthStep(y, m, values[1]);
    DayStep(y, m, d, values[2]);
    ThreeRounds("YYYY-mm-dd", y + "-mm-dd", y + "-" + m + "-dd", y + "-" + m + "-" + d, Tokens, values);
  }

  /** A filled-in date text is numeric. */
  lemma DateTextNumeric(y: string, m: string, d: string)
    requires Numeric(y) && Numeric(m) && Numeric(d)
    ensures Numeric(y + "-" + m + "-" + d)
  {
    NumericConcat(y, "-");
    NumericConcat(y + "-", m);
    NumericConcat(y + "-" + m, "-");
    NumericConcat(y + "-" + m + "-", d);
  }

  /** All six rounds on the template, for numeric field texts. */
  lemma TemplateRounds(values: seq<string>)
    requires |values| == |Tokens|
    requires Numeric(PadStart(values[0], 4)) && Numeric(PadStart(values[1], 2)) && Numeric(PadStart(values[2], 2))
    ensures SubstituteAll("YYYY-mm-dd", Tokens, values)
         == PadStart(values[0], 4) + "-" + PadStart(values[1], 2) + "-" + PadStart(values[2], 2)
  {
    var y, m, d := PadStart(values[0], 4), PadStart(values[1], 2), PadStart(values[2], 2);
    DateRoundsFill(values);
    DateTextNumeric(y, m, d);
    TimeRoundsUnchanged(y + "-" + m + "-" + d, values[3..]);
  }

  /** `dateFormat('YYYY-mm-dd', d)` produces `TodayString(d)`. */
  lemma FormatTodayTemplate(t: DateTime)
    ensures SubstituteAll("YYYY-mm-dd", Tokens, FieldTexts(t)) == TodayString(t)
  {
    FieldTextsNumeric(t);
    TemplateRounds(FieldTexts(t));
  }

  /** `getTodayDateString()` on the given calendar fields. */
  method GetTodayDateString(t: DateTime) returns (r: string)
    ensures r == PadStart(IntToString(t.year), 4) + "-" + PadStart(IntToString(t.month + 1), 2)
                 + "-" + PadStart(IntToString(t.day), 2)
  {
    r := Format("YYYY-mm-dd", t);
    FormatTodayTemplate(t);
  }

  /** A calendar day whose year has at most four digits. */
  predicate FourDigitDay(t: DateTime) {
    0 <= t.year < 10000 && 0 <= t.month < 12 && 1 <= t.day <= 31
  }

  lemma SameTens(x: nat, y: nat)
    requires x / 10 == y / 10 && x % 10 == y % 10
    ensures x == y
  {
  }

  lemma FourDigitsDetermine(a: nat, b: nat)
    requires a < 10000 && b < 10000
    requires PadStart(NatToString(a), 4) == PadStart(NatToString(b), 4)
    ensures a == b
  {
    PadFourDigits(a);
    PadFourDigits(b);
    DigitCharInjective(a / 1000, b / 1000);
    DigitCharInjective(a / 100 % 10, b / 100 % 10);
    DigitCharInjective(a / 10 % 10, b / 10 % 10);
    DigitCharInjective(a % 10, b % 10);
    assert a / 100 / 10 == a / 1000 && b / 100 / 10 == b / 1000;
    assert a / 10 / 10 == a / 100 && b / 10 / 10 == b / 100;
    SameTens(a / 100, b / 100);
    SameTens(a / 10, b / 10);
    SameTens(a, b);
  }

  lemma TwoDigitsDetermine(a: nat, b: nat)
    requires a < 100 && b < 100
    requires PadStart(NatToString(a), 2) == PadStart(NatToString(b), 2)
    ensures a == b
  {
    PadTwoDigits(a);
    PadTwoDigits(b);
    DigitCharInjective(a / 10, b / 10);
    DigitCharInjective(a % 10, b % 10);
  }

  /** Two concatenations with equally long right parts have equal parts. */
  lemma ConcatSplit(a: string, b: string, c: string, d: string)
    requires a + b == c + d && |b| == |d|
    ensures a == c && b == d
  {
    assert a == (a + b)[..|a|];
    assert c == (c + d)[..|c|];
    assert b == (a + b)[|a|..];
    assert d == (c + d)[|c|..];
  }

  /** A date text splits back into its three fields. */
  lemma DateTextSplit(y1: string, m1: string, d1: string, y2: string, m2: string, d2: string)
    requires |y1| == 4 == |y2| && |m1| == 2 == |m2| && |d1| == 2 == |d2|
    requires y1 + "-" + m1 + "-" + d1 == y2 + "-" + m2 + "-" + d2
    ensures y1 == y2 && m1 == m2 && d1 == d2
  {
    ConcatSplit(y1 + "-" + m1 + "-", d1, y2 + "-" + m2 + "-", d2);
    ConcatSplit(y1 + "-" + m1, "-", y2 + "-" + m2, "-");
    ConcatSplit(y1 + "-", m1, y2 + "-", m2);
    ConcatSplit(y1, "-", y2, "-");
  }

  lemma DateTextParts(t: DateTime)
    requires FourDigitDay(t)
    ensures TodayString(t) == PadStart(NatToString(t.year), 4) + "-" + PadStart(NatToString(t.month + 1), 2)
                              + "-" + PadStart(NatToString(t.day), 2)
    ensures |PadStart(NatToString(t.year), 4)| == 4
    ensures |PadStart(NatToString(t.month + 1), 2)| == 2 && |PadStart(NatToString(t.day), 2)| == 2
  {
    PadFourDigits(t.year);
    PadTwoDigits(t.month + 1);
    PadTwoDigits(t.day);
  }

  /** Different days give different date texts, so every per-day key and
      fingerprint input changes from one day to the next. */
  lemma TodayStringInjective(t1: DateTime, t2: DateTime)
    requires FourDigitDay(t1) && FourDigitDay(t2)
    requires TodayString(t1) == TodayString(t2)
    ensures t1.year == t2.year && t1.month == t2.month && t1.day == t2.day
  {
    DateTextParts(t1);
    DateTextParts(t2);
    DateTextSplit(PadStart(NatToString(t1.year), 4), PadStart(NatToString(t1.month + 1), 2), PadStart(NatToString(t1.day), 2),
                  PadStart(NatToString(t2.year), 4), PadStart(NatToString(t2.month + 1), 2), PadStart(NatToString(t2.day), 2));
    FourDigitsDetermine(t1.year, t2.year);
    TwoDigitsDetermine(t1.month + 1, t2.month + 1);
    TwoDigitsDetermine(t1.day, t2.day);
  }
}
