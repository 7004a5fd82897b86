/**
 * `escapeMarkdown`: every character that Telegram's MarkdownV2 reserves is
 * prefixed with a backslash, one `replaceAll` per reserved character, the
 * backslash itself first.
 */
module Markdown {

  /** The reserved characters, in the order the escaper visits them. */
  const SpecialChars: seq<char> :=
    ['\\', '_', '*', '[', ']', '(', ')', '~', '`', '>', '<', '&', '#', '+', '-', '=', '|', '{', '}', '.', '!']

  predicate IsSpecial(c: char) {
    c in SpecialChars
  }

  /** No character is visited twice, and only the first visit is the backslash. */
  lemma SpecialCharsDistinct()
    ensures |SpecialChars| == 21 && SpecialChars[0] == '\\'
    ensures forall i, j :: 0 <= i < j < |SpecialChars| ==> SpecialChars[i] != SpecialChars[j]
  {
  }

  /** `s.replaceAll(c, rep)` for a one-character pattern: every occurrence is
      replaced, left to right, and the inserted text is not searched again.
      The replacement texts used here hold no `$`, so none is a pattern. */
  function ReplaceAll(s: string, c: char, rep: string): (r: string)
    ensures c !in s ==> r == s
  {
    if s == [] then []
    else (if s[0] == c then rep else [s[0]]) + ReplaceAll(s[1..], c, rep)
  }

  lemma {:induction false} ReplaceAllConcat(a: string, b: string, c: char, rep: string)
    ensures ReplaceAll(a + b, c, rep) == ReplaceAll(a, c, rep) + ReplaceAll(b, c, rep)
  {
    if a == [] {
      assert a + b == b;
    } else {
      var h := if a[0] == c then rep else [a[0]];
      assert (a + b)[0] == a[0] && (a + b)[1..] == a[1..] + b;
      ReplaceAllConcat(a[1..], b, c, rep);
      assert h + (ReplaceAll(a[1..], c, rep) + ReplaceAll(b, c, rep))
          == (h + ReplaceAll(a[1..], c, rep)) + ReplaceAll(b, c, rep);
    }
  }

  /** How one character comes out when the characters of `chars` are escaped. */
  function EscapeChar(x: char, chars: seq<char>): string {
    if x in chars then ['\\', x] else [x]
  }

  /** The reference escape: each character of `s` escaped on its own. */
  function EscapedFor(s: string, chars: seq<char>): string {
    if s == [] then [] else EscapeChar(s[0], chars) + EscapedFor(s[1..], chars)
  }

  /** What `escapeMarkdown(text)` returns, by the reference definition. */
  function Escaped(s: string): string {
    EscapedFor(s, SpecialChars)
  }

  /** One `replaceAll` round on a text already escaped for `chars` escapes
      `c` too, provided `c` is new and, once a backslash has been inserted,
      is not the backslash. */
  lemma {:induction false} ReplaceRound(s: string, chars: seq<char>, c: char)
    requires c !in chars
    requires chars != [] ==> c != '\\'
    ensures ReplaceAll(EscapedFor(s, chars), c, ['\\', c]) == EscapedFor(s, chars + [c])
  {
    if s != [] {
      var x := s[0];
      ReplaceAllConcat(EscapeChar(x, chars), EscapedFor(s[1..], chars), c, ['\\', c]);
      ReplaceRound(s[1..], chars, c);
      if x in chars {
        assert ReplaceAll(['\\', x], c, ['\\', c]) == ['\\', x];
      } else if x == c {
        assert ReplaceAll([x], c, ['\\', c]) == ['\\', c];
      } else {
        assert ReplaceAll([x], c, ['\\', c]) == [x];
      }
    }
  }

  lemma EscapedForNone(s: string)
    ensures EscapedFor(s, []) == s
  {
  }

  /** `escapeMarkdown(text)` on a string. */
  method EscapeMarkdown(text: string) returns (r: string)
    ensures r == Escaped(text)
  {
    SpecialCharsDistinct();
    EscapedForNone(text);
    r := text;
    for i := 0 to |SpecialChars|
      invariant r == EscapedFor(text, SpecialChars[..i])
    {
      var c := SpecialChars[i];
      assert SpecialChars[..i + 1] == SpecialChars[..i] + [c];
      assert c !in SpecialChars[..i];
      ReplaceRound(text, SpecialChars[..i], c);
      r := ReplaceAll(r, c, ['\\', c]);
    }
    assert SpecialChars[..|SpecialChars|] == SpecialChars;
  }

  /** Number of reserved characters in `s`. */
  function SpecialCount(s: string): nat {
    if s == [] then 0 else (if IsSpecial(s[0]) then 1 else 0) + SpecialCount(s[1..])
  }

  /** The escaped text is one character longer per reserved character. */
  lemma {:induction false} EscapedLength(s: string)
    ensures |Escaped(s)| == |s| + SpecialCount(s)
  {
    if s != [] {
      EscapedLength(s[1..]);
    }
  }

  /** Reads back a MarkdownV2 text: a backslash before a reserved character is dropped. */
  function Unescape(s: string): string {
    if s == [] then []
    else if |s| >= 2 && s[0] == '\\' && IsSpecial(s[1]) then [s[1]] + Unescape(s[2..])
    else [s[0]] + Unescape(s[1..])
  }

  /** Escaping loses nothing: reading the output back gives the input. */
  lemma {:induction false} UnescapeEscaped(s: string)
    ensures Unescape(Escaped(s)) == s
  {
    if s != [] {
      var e := Escaped(s);
      var x := s[0];
      assert e == EscapeChar(x, SpecialChars) + Escaped(s[1..]);
      UnescapeEscaped(s[1..]);
      if IsSpecial(x) {
        assert e[2..] == Escaped(s[1..]);
      } else {
        assert x != '\\';
        assert e[1..] == Escaped(s[1..]);
      }
      assert s == [x] + s[1..];
    }
  }

  /** Distinct texts are escaped differently. */
  lemma EscapedInjective(s: string, t: string)
    requires Escaped(s) == Escaped(t)
    ensures s == t
  {
    UnescapeEscaped(s);
    UnescapeEscaped(t);
  }

  /** Text in which every reserved character is preceded by a backslash that
      is not itself escaping something else. */
  predicate WellEscaped(s: string)
    decreases |s|
  {
    if s == [] then true
    else if |s| >= 2 && s[0] == '\\' && IsSpecial(s[1]) then WellEscaped(s[2..])
    else !IsSpecial(s[0]) && WellEscaped(s[1..])
  }

  /** The escaper's output leaves no reserved character bare. */
  lemma {:induction false} EscapedWellEscaped(s: string)
    ensures WellEscaped(Escaped(s))
  {
    if s != [] {
      var e := Escaped(s);
      var x := s[0];
      assert e == EscapeChar(x, SpecialChars) + Escaped(s[1..]);
      EscapedWellEscaped(s[1..]);
      if IsSpecial(x) {
        assert e[2..] == Escaped(s[1..]);
      } else {
        assert x != '\\';
        assert e[1..] == Escaped(s[1..]);
      }
    }
  }
}
