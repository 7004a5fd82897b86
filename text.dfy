/**
 * The number-to-text conversions the bot relies on: JavaScript's
 * `Number.prototype.toString()` on integers and `String.prototype.padStart`
 * with the fill "0", and `String.prototype.replace` with a string pattern.
 */
module Text {
  import opened Wrappers

  predicate IsDigit(c: char) {
    '0' <= c <= '9'
  }

  function DigitChar(d: nat): (c: char)
    requires d < 10
    ensures IsDigit(c)
  {
    ('0' as int + d) as char
  }

  lemma DigitCharInjective(a: nat, b: nat)
    requires a < 10 && b < 10
    requires DigitChar(a) == DigitChar(b)
    ensures a == b
  {
  }

  /** Decimal text of a natural number, without leading zeros. */
  function NatToString(n: nat): (s: string)
    ensures |s| >= 1
    ensures n >= 10 ==> |s| >= 2
    ensures IsDigit(s[0]) && (s[0] == '0' ==> n == 0)
    decreases n
  {
    if n < 10 then [DigitChar(n)] else NatToString(n / 10) + [DigitChar(n % 10)]
  }

  /** Decimal text of an integer: a leading '-' for negative values. */
  function IntToString(i: int): (s: string)
    ensures |s| >= 1
    ensures s[0] == '-' <==> i < 0
  {
    if i < 0 then "-" + NatToString(-i) else NatToString(i)
  }

  /** Decimal text consists of digits only. */
  lemma {:induction false} NatToStringDigits(n: nat)
    ensures forall i :: 0 <= i < |NatToString(n)| ==> IsDigit(NatToString(n)[i])
    decreases n
  {
    if n >= 10 {
      NatToStringDigits(n / 10);
    }
  }

  /** An integer's text consists of digits and at most a leading '-'. */
  lemma IntToStringChars(i: int)
    ensures forall k :: 0 <= k < |IntToString(i)| ==> IsDigit(IntToString(i)[k]) || IntToString(i)[k] == '-'
    ensures forall k :: 1 <= k < |IntToString(i)| ==> IsDigit(IntToString(i)[k])
  {
    if i < 0 {
      NatToStringDigits(-i);
    } else {
      NatToStringDigits(i);
    }
  }

  /** Distinct naturals have distinct decimal texts. */
  lemma {:induction false} NatToStringInjective(m: nat, n: nat)
    requires NatToString(m) == NatToString(n)
    ensures m == n
  {
    var sm, sn := NatToString(m), NatToString(n);
    if m < 10 && n < 10 {
      DigitCharInjective(m, n);
    } else if m >= 10 && n >= 10 {
      assert sm == NatToString(m / 10) + [DigitChar(m % 10)];
      assert sn == NatToString(n / 10) + [DigitChar(n % 10)];
      assert NatToString(m / 10) == sm[..|sm| - 1];
      assert NatToString(n / 10) == sn[..|sn| - 1];
      NatToStringInjective(m / 10, n / 10);
      assert DigitChar(m % 10) == sm[|sm| - 1];
      DigitCharInjective(m % 10, n % 10);
    }
  }

  /** Distinct integers have distinct decimal texts. */
  lemma IntToStringInjective(a: int, b: int)
    requires IntToString(a) == IntToString(b)
    ensures a == b
  {
    if a < 0 && b < 0 {
      assert NatToString(-a) == IntToString(a)[1..];
      assert NatToString(-b) == IntToString(b)[1..];
      NatToStringInjective(-a, -b);
    } else if a >= 0 && b >= 0 {
      NatToStringInjective(a, b);
    }
  }

  /**
   * `s.padStart(n, "0")`: zeros are added in front until the length is n;
   * a string already n long or longer is returned as it is.
   */
  function PadStart(s: string, n: nat): (r: string)
    ensures |r| == if |s| >= n then |s| else n
  {
    if |s| >= n then s else seq(n - |s|, _ => '0') + s
  }

  /** Padding never truncates: the text is a suffix and only zeros are added. */
  lemma PadStartShape(s: string, n: nat)
    ensures PadStart(s, n)[|PadStart(s, n)| - |s|..] == s
    ensures forall i :: 0 <= i < |PadStart(s, n)| - |s| ==> PadStart(s, n)[i] == '0'
  {
  }

  /** Two-digit form of a number below 100, as the date fields use it. */
  lemma PadTwoDigits(n: nat)
    requires n < 100
    ensures PadStart(NatToString(n), 2) == [DigitChar(n / 10), DigitChar(n % 10)]
  {
    if n >= 10 {
      assert NatToString(n) == NatToString(n / 10) + [DigitChar(n % 10)];
    }
  }

  lemma TwoDigitText(n: nat)
    requires 10 <= n < 100
    ensures NatToString(n) == [DigitChar(n / 10), DigitChar(n % 10)]
  {
  }

  lemma ThreeDigitText(n: nat)
    requires 100 <= n < 1000
    ensures NatToString(n) == [DigitChar(n / 100), DigitChar(n / 10 % 10), DigitChar(n % 10)]
  {
    TwoDigitText(n / 10);
    assert n / 10 / 10 == n / 100;
  }

  lemma FourDigitText(n: nat)
    requires 1000 <= n < 10000
    ensures NatToString(n) == [DigitChar(n / 1000), DigitChar(n / 100 % 10), DigitChar(n / 10 % 10), DigitChar(n % 10)]
    ensures PadStart(NatToString(n), 4) == NatToString(n)
  {
    ThreeDigitText(n / 10);
    assert n / 10 / 100 == n / 1000;
    assert n / 10 / 10 == n / 100;
  }

  /** Zeros put in front of a text shorter than the width. */
  lemma PadShort(s: string, n: nat, zeros: string)
    requires |s| < n && zeros == seq(n - |s|, _ => '0')
    ensures PadStart(s, n) == zeros + s
  {
  }

  lemma PadFourOfThree(n: nat)
    requires 100 <= n < 1000
    ensures PadStart(NatToString(n), 4) == [DigitChar(n / 1000), DigitChar(n / 100 % 10), DigitChar(n / 10 % 10), DigitChar(n % 10)]
  {
    assert n / 1000 == 0 && n / 100 % 10 == n / 100;
    ThreeDigitText(n);
    PadShort(NatToString(n), 4, "0");
  }

  lemma PadFourOfTwo(n: nat)
    requires 10 <= n < 100
    ensures PadStart(NatToString(n), 4) == [DigitChar(n / 1000), DigitChar(n / 100 % 10), DigitChar(n / 10 % 10), DigitChar(n % 10)]
  {
    assert n / 1000 == 0 && n / 100 == 0 && n / 10 % 10 == n / 10;
    TwoDigitText(n);
    PadShort(NatToString(n), 4, "00");
  }

  lemma PadFourOfOne(n: nat)
    requires n < 10
    ensures PadStart(NatToString(n), 4) == [DigitChar(n / 1000), DigitChar(n / 100 % 10), DigitChar(n / 10 % 10), DigitChar(n % 10)]
  {
    assert n / 1000 == 0 && n / 100 == 0 && n / 10 == 0 && n % 10 == n;
    PadShort(NatToString(n), 4, "000");
  }

  /** Four-digit form of a number below 10000, as the year field uses it. */
  lemma PadFourDigits(n: nat)
    requires n < 10000
    ensures PadStart(NatToString(n), 4)
         == [DigitChar(n / 1000), DigitChar(n / 100 % 10), DigitChar(n / 10 % 10), DigitChar(n % 10)]
  {
    if n >= 1000 {
      FourDigitText(n);
    } else if n >= 100 {
      PadFourOfThree(n);
    } else if n >= 10 {
      PadFourOfTwo(n);
    } else {
      PadFourOfOne(n);
    }
  }

  /** The part of `s` before the first `c` (all of `s` when there is none). */
  function PrefixBefore(s: string, c: char): (r: string)
    ensures |r| <= |s|
  {
    if s == [] || s[0] == c then [] else [s[0]] + PrefixBefore(s[1..], c)
  }

  /** A text without `c`, followed by `c`, is recovered from the joined text. */
  lemma {:induction false} PrefixBeforeJoin(x: string, c: char, y: string)
    requires c !in x
    ensures PrefixBefore(x + [c] + y, c) == x
  {
    if x != [] {
      assert (x + [c] + y)[1..] == x[1..] + [c] + y;
      PrefixBeforeJoin(x[1..], c, y);
    }
  }

  /** The part of `s` after the last `c` (all of `s` when there is none). */
  function SuffixAfterLast(s: string, c: char): (r: string)
    ensures |r| <= |s|
  {
    if s == [] || s[|s| - 1] == c then [] else SuffixAfterLast(s[..|s| - 1], c) + [s[|s| - 1]]
  }

  /** A text without `c`, preceded by `c`, is recovered from the joined text. */
  lemma {:induction false} SuffixAfterLastJoin(x: string, c: char, y: string)
    requires c !in y
    ensures SuffixAfterLast(x + [c] + y, c) == y
  {
    if y != [] {
      var s := x + [c] + y;
      assert s[..|s| - 1] == x + [c] + y[..|y| - 1];
      SuffixAfterLastJoin(x, c, y[..|y| - 1]);
      assert y == y[..|y| - 1] + [y[|y| - 1]];
    } else {
      assert (x + [c] + y)[|x|] == c;
    }
  }

  /** The decimal text of an integer holds no character other than digits and '-'. */
  lemma IntToStringAvoids(i: int, c: char)
    requires !IsDigit(c) && c != '-'
    ensures c !in IntToString(i)
  {
    IntToStringChars(i);
  }

  predicate OccursAt(s: string, pat: string, j: nat) {
    j + |pat| <= |s| && s[j..j + |pat|] == pat
  }

  lemma OccursAtShift(s: string, pat: string)
    requires |s| > 0
    ensures forall j :: 1 <= j <= |s| ==> (OccursAt(s, pat, j) <==> OccursAt(s[1..], pat, j - 1))
  {
    forall j | 1 <= j <= |s|
      ensures OccursAt(s, pat, j) <==> OccursAt(s[1..], pat, j - 1)
    {
      if j + |pat| <= |s| {
        assert s[1..][j - 1..j - 1 + |pat|] == s[j..j + |pat|];
      }
    }
  }

  /** First occurrence of `pat` in `s`. */
  function FindFirst(s: string, pat: string): (r: Option<nat>)
    ensures r.Some? ==> r.value + |pat| <= |s| && OccursAt(s, pat, r.value)
  {
    if OccursAt(s, pat, 0) then Some(0)
    else if s == [] then None
    else
      match FindFirst(s[1..], pat)
      case None => None
      case Some(i) => OccursAtShift(s, pat); Some(i + 1)
  }

  /** `s.replace(pat, rep)` with a string pattern: only the first occurrence is
      replaced. The replacement texts used here hold no `$`, so none is a pattern. */
  function ReplaceFirst(s: string, pat: string, rep: string): string {
    match FindFirst(s, pat)
    case None => s
    case Some(i) => s[..i] + rep + s[i + |pat|..]
  }

  /** `FindFirst` finds the first occurrence of the pattern. */
  lemma {:induction false} FindFirstIs(s: string, pat: string, i: nat)
    requires OccursAt(s, pat, i)
    requires forall j :: 0 <= j < i ==> !OccursAt(s, pat, j)
    ensures FindFirst(s, pat) == Some(i)
  {
    if i > 0 {
      assert !OccursAt(s, pat, 0);
      OccursAtShift(s, pat);
      forall j | 0 <= j < i - 1
        ensures !OccursAt(s[1..], pat, j)
      {
        assert !OccursAt(s, pat, j + 1);
      }
      FindFirstIs(s[1..], pat, i - 1);
    }
  }

  lemma ReplaceFirstAt(s: string, pat: string, rep: string, i: nat)
    requires FindFirst(s, pat) == Some(i)
    ensures ReplaceFirst(s, pat, rep) == s[..i] + rep + s[i + |pat|..]
  {
  }

  /** `FindFirst` reports nothing exactly when the pattern occurs nowhere. */
  lemma {:induction false} FindFirstAbsent(s: string, pat: string)
    ensures FindFirst(s, pat).None? <==> forall j :: 0 <= j <= |s| ==> !OccursAt(s, pat, j)
  {
    if FindFirst(s, pat).None? && s != [] {
      FindFirstAbsent(s[1..], pat);
      OccursAtShift(s, pat);
      forall j | 0 <= j <= |s| ensures !OccursAt(s, pat, j) {
        if j > 0 {
          assert !OccursAt(s[1..], pat, j - 1);
        }
      }
    }
  }

  /** Without an occurrence of the pattern, `replace` returns the text unchanged. */
  lemma ReplaceFirstAbsent(s: string, pat: string, rep: string)
    requires forall j :: 0 <= j <= |s| ==> !OccursAt(s, pat, j)
    ensures ReplaceFirst(s, pat, rep) == s
  {
    FindFirstAbsent(s, pat);
  }

  /** A text that starts with the pattern loses exactly that prefix. */
  lemma ReplaceFirstLeading(pat: string, rest: string)
    ensures ReplaceFirst(pat + rest, pat, "") == rest
  {
    assert (pat + rest)[0..|pat|] == pat;
    ReplaceFirstAt(pat + rest, pat, "", 0);
    assert (pat + rest)[|pat|..] == rest;
  }
}
