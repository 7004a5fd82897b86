/**
 * The arithmetic of the draw: both hashes are read as hexadecimal numbers,
 * added, and reduced modulo the number of members; and the record that lets
 * anyone recompute the winner.
 */
module Selection {
  import opened Wrappers
  import opened Members

  predicate IsHexChar(c: char) {
    '0' <= c <= '9' || 'a' <= c <= 'f' || 'A' <= c <= 'F'
  }

  function HexCharValue(c: char): (v: nat)
    requires IsHexChar(c)
    ensures v < 16
  {
    if '0' <= c <= '9' then c as int - '0' as int
    else if 'a' <= c <= 'f' then c as int - 'a' as int + 10
    else c as int - 'A' as int + 10
  }

  function Pow16(n: nat): (p: nat)
    ensures p >= 1
  {
    if n == 0 then 1 else 16 * Pow16(n - 1)
  }

  /** Value of a string of hex digits, most significant first. */
  function HexValue(s: string): nat
    requires forall i :: 0 <= i < |s| ==> IsHexChar(s[i])
  {
    if s == [] then 0 else HexValue(s[..|s| - 1]) * 16 + HexCharValue(s[|s| - 1])
  }

  /** `s` hex digits denote a number below 16 to the power `|s|`. */
  lemma {:induction false} HexValueBound(s: string)
    requires forall i :: 0 <= i < |s| ==> IsHexChar(s[i])
    ensures HexValue(s) < Pow16(|s|)
  {
    if s != [] {
      HexValueBound(s[..|s| - 1]);
    }
  }

  /** `BigInt(s)` for the hexadecimal form "0x…" the hashes use; any other text
      is reported as the `SyntaxError` that `BigInt` throws on it. */
  function ParseHex(s: string): (r: Option<nat>)
    ensures r.Some? <==>
      |s| > 2 && s[0] == '0' && (s[1] == 'x' || s[1] == 'X') && forall i :: 2 <= i < |s| ==> IsHexChar(s[i])
    ensures r.Some? ==> r.value == HexValue(s[2..]) && r.value < Pow16(|s| - 2)
  {
    if |s| > 2 && s[0] == '0' && (s[1] == 'x' || s[1] == 'X')
       && forall i :: 2 <= i < |s| ==> IsHexChar(s[i])
    then HexValueBound(s[2..]); Some(HexValue(s[2..]))
    else None
  }

  /** The lower-case hex digit of a value below 16, as `digest('hex')` and the
      node's block hashes write it. */
  function HexDigit(v: nat): (c: char)
    requires v < 16
    ensures IsHexChar(c) && HexCharValue(c) == v
  {
    if v < 10 then ('0' as int + v) as char else ('a' as int + v - 10) as char
  }

  /** `n` written with `width` hex digits, most significant first, padded with
      zeros. */
  function HexText(n: nat, width: nat): (s: string)
    ensures |s| == width
  {
    if width == 0 then [] else HexText(n / 16, width - 1) + [HexDigit(n % 16)]
  }

  /** Reading back a number written in hex gives the number, when it fits. */
  lemma {:induction false} HexValueOfText(n: nat, width: nat)
    requires n < Pow16(width)
    ensures forall i :: 0 <= i < width ==> IsHexChar(HexText(n, width)[i])
    ensures HexValue(HexText(n, width)) == n
  {
    if width > 0 {
      var s := HexText(n, width);
      HexValueOfText(n / 16, width - 1);
      assert s[..|s| - 1] == HexText(n / 16, width - 1);
      assert s[|s| - 1] == HexDigit(n % 16);
    }
  }

  /** `BigInt('0x' + text)` of a number written in hex is that number. */
  lemma ParseHexText(n: nat, width: nat)
    requires width > 0 && n < Pow16(width)
    ensures ParseHex("0x" + HexText(n, width)) == Some(n)
  {
    var s := "0x" + HexText(n, width);
    HexValueOfText(n, width);
    assert s[2..] == HexText(n, width);
    forall i | 2 <= i < |s| ensures IsHexChar(s[i]) {
      assert s[i] == HexText(n, width)[i - 2];
    }
  }

  /** A fingerprint always parses once "0x" is put in front of it, to a
      number below 2 to the power 256. */
  lemma DigestParses(d: Digest)
    ensures ParseHex("0x" + d).Some?
    ensures ParseHex("0x" + d).value < Pow16(64)
  {
    var s := "0x" + d;
    forall i | 2 <= i < |s| ensures IsHexChar(s[i]) {
      assert s[i] == d[i - 2];
    }
  }

  lemma {:induction false} MulAtLeast(a: nat, c: nat)
    requires a >= 1
    ensures a * c >= c
  {
    if a > 1 {
      MulAtLeast(a - 1, c);
      assert a * c == (a - 1) * c + c;
    }
  }

  lemma MulAtMost(a: int, c: int)
    requires a <= -1 && c >= 0
    ensures a * c <= -c
  {
    MulAtLeast(-a, c);
    assert (-a) * c == -(a * c);
  }

  /** A multiple of `c` strictly between `-c` and `c` is zero. */
  lemma MulSmall(a: int, c: int)
    requires c > 0 && -c < a * c < c
    ensures a == 0
  {
    if a >= 1 {
      MulAtLeast(a, c);
      assert false;
    } else if a <= -1 {
      MulAtMost(a, c);
      assert false;
    }
  }

  /** `(blockHash + senderHash) % memberLength` over exact naturals. */
  function DrawIndex(blockValue: nat, senderValue: nat, count: nat): (i: nat)
    requires count > 0
    ensures i < count
  {
    (blockValue + senderValue) % count
  }

  /** The index is the one position below `count` that differs from the sum
      of the hashes by a multiple of `count`. */
  lemma DrawIndexUnique(blockValue: nat, senderValue: nat, count: nat, q: int, j: nat)
    requires count > 0 && j < count
    requires blockValue + senderValue == q * count + j
    ensures j == DrawIndex(blockValue, senderValue, count)
  {
    var n := blockValue + senderValue;
    var p, r := n / count, n % count;
    assert n == p * count + r;
    assert (q - p) * count == r - j;
    MulSmall(q - p, count);
  }

  /** A block hash larger by a multiple of the member count picks the same member. */
  lemma DrawIndexPeriodic(blockValue: nat, senderValue: nat, count: nat, k: nat)
    requires count > 0
    ensures DrawIndex(blockValue + k * count, senderValue, count) == DrawIndex(blockValue, senderValue, count)
  {
    var n := blockValue + senderValue;
    var p, r := n / count, n % count;
    assert n == p * count + r;
    assert blockValue + k * count + senderValue == (p + k) * count + r;
    DrawIndexUnique(blockValue + k * count, senderValue, count, p + k, r);
  }

  /** What the bot stores under the result key, and shows as the draw's provenance. */
  datatype DrawRecord = DrawRecord(
    winner: User,
    blockNumber: string,
    blockHash: string,
    timestamp: int,
    senderSha256: Digest,
    memberLength: nat)

  /** Recomputes the winner from a record and the day's member list, as
      anyone holding both can: `None` when the record does not fit the list. */
  function Replay(rec: DrawRecord, members: seq<User>): (r: Option<User>)
    ensures r.Some? ==> r.value in members
  {
    match ParseHex(rec.blockHash)
    case None => None
    case Some(b) =>
      if rec.memberLength != |members| || |members| == 0 then None
      else
        DigestParses(rec.senderSha256);
        var s := ParseHex("0x" + rec.senderSha256).value;
        Some(members[DrawIndex(b, s, |members|)])
  }

  /** The record of a draw made with block hash `blockHash` replays to the
      member at the draw index, and to nothing else. */
  lemma ReplayWinner(rec: DrawRecord, members: seq<User>, b: nat, s: nat)
    requires ParseHex(rec.blockHash) == Some(b)
    requires ParseHex("0x" + rec.senderSha256) == Some(s)
    requires |members| > 0 && rec.memberLength == |members|
    ensures Replay(rec, members) == Some(members[DrawIndex(b, s, |members|)])
  {
  }

  /** A record whose count disagrees with the list replays to nothing. */
  lemma ReplayCountMismatch(rec: DrawRecord, members: seq<User>)
    requires rec.memberLength != |members|
    ensures Replay(rec, members) == None
  {
  }
}
