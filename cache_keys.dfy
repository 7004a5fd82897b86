/**
 * The Redis keys of the bot: one member list per day and chat, one draw
 * result per day, chat and sender.
 */
module CacheKeys {
  import opened Text

  /** `'waifu:chatMembers:' + date + ':' + chatId`. */
  function MembersKey(date: string, chatId: int): string {
    "waifu:chatMembers:" + date + ":" + IntToString(chatId)
  }

  /** `'waifu:result:' + date + ':' + chatId + ':' + senderId`. */
  function ResultKey(date: string, chatId: int, senderId: int): string {
    "waifu:result:" + date + ":" + IntToString(chatId) + ":" + IntToString(senderId)
  }

  /** Strips a known prefix. */
  lemma DropPrefix(p: string, a: string, b: string)
    requires p + a == p + b
    ensures a == b
  {
    assert a == (p + a)[|p|..];
    assert b == (p + b)[|p|..];
  }

  /** Splits a joined text at its last `c`, when the right part has no `c`. */
  lemma SplitLast(x1: string, y1: string, x2: string, y2: string, c: char)
    requires x1 + [c] + y1 == x2 + [c] + y2
    requires c !in y1 && c !in y2
    ensures x1 == x2 && y1 == y2
  {
    SuffixAfterLastJoin(x1, c, y1);
    SuffixAfterLastJoin(x2, c, y2);
    assert x1 == (x1 + [c] + y1)[..|x1|];
    assert x2 == (x2 + [c] + y2)[..|x2|];
  }

  /** Different days or chats never share a member-list key. */
  lemma MembersKeyInjective(d1: string, c1: int, d2: string, c2: int)
    requires MembersKey(d1, c1) == MembersKey(d2, c2)
    ensures d1 == d2 && c1 == c2
  {
    var p := "waifu:chatMembers:";
    IntToStringAvoids(c1, ':');
    IntToStringAvoids(c2, ':');
    assert MembersKey(d1, c1) == (p + d1) + [':'] + IntToString(c1);
    assert MembersKey(d2, c2) == (p + d2) + [':'] + IntToString(c2);
    SplitLast(p + d1, IntToString(c1), p + d2, IntToString(c2), ':');
    DropPrefix(p, d1, d2);
    IntToStringInjective(c1, c2);
  }

  /** Different days, chats or senders never share a result key. */
  lemma ResultKeyInjective(d1: string, c1: int, s1: int, d2: string, c2: int, s2: int)
    requires ResultKey(d1, c1, s1) == ResultKey(d2, c2, s2)
    ensures d1 == d2 && c1 == c2 && s1 == s2
  {
    var p := "waifu:result:";
    IntToStringAvoids(c1, ':');
    IntToStringAvoids(c2, ':');
    IntToStringAvoids(s1, ':');
    IntToStringAvoids(s2, ':');
    var x1 := (p + d1) + [':'] + IntToString(c1);
    var x2 := (p + d2) + [':'] + IntToString(c2);
    assert ResultKey(d1, c1, s1) == x1 + [':'] + IntToString(s1);
    assert ResultKey(d2, c2, s2) == x2 + [':'] + IntToString(s2);
    SplitLast(x1, IntToString(s1), x2, IntToString(s2), ':');
    SplitLast(p + d1, IntToString(c1), p + d2, IntToString(c2), ':');
    DropPrefix(p, d1, d2);
    IntToStringInjective(c1, c2);
    IntToStringInjective(s1, s2);
  }

  /** A member-list key is never a result key. */
  lemma KeysDistinct(d1: string, c1: int, d2: string, c2: int, s2: int)
    ensures MembersKey(d1, c1) != ResultKey(d2, c2, s2)
  {
    assert MembersKey(d1, c1)[6] == 'c';
    assert ResultKey(d2, c2, s2)[6] == 'r';
  }
}
