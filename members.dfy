/**
 * Chat members as the bot keeps them: the bot filter and the per-day
 * fingerprint of `addSha256ToUserList`, and the lookup of the sender.
 */
module Members {
  import opened Wrappers
  import opened Text

  predicate IsHexDigit(c: char) {
    '0' <= c <= '9' || 'a' <= c <= 'f'
  }

  /** A SHA-256 digest as `digest('hex')` writes it: 64 lower-case hex digits. */
  type Digest = s: string | |s| == 64 && forall i :: 0 <= i < |s| ==> IsHexDigit(s[i])
    witness seq(64, _ => '0')

  /** SHA-256 of a text; the digest algorithm itself is not part of this model. */
  type Hasher = string -> Digest

  /** The fields of a Telegram user the bot reads, and the fingerprint it adds. */
  datatype User = User(id: int, bot: bool, firstName: string, lastName: Option<string>,
                       photo: bool, sha256: Option<Digest>)

  /** The text that is hashed: the user id, a '.', and the date text. */
  function FingerprintInput(id: int, date: string): (s: string)
    ensures |s| == |IntToString(id)| + 1 + |date|
  {
    IntToString(id) + "." + date
  }

  /** Different (id, date) pairs give different hash inputs. */
  lemma FingerprintInputInjective(id1: int, date1: string, id2: int, date2: string)
    requires FingerprintInput(id1, date1) == FingerprintInput(id2, date2)
    ensures id1 == id2 && date1 == date2
  {
    var a, b := IntToString(id1), IntToString(id2);
    IntToStringAvoids(id1, '.');
    IntToStringAvoids(id2, '.');
    PrefixBeforeJoin(a, '.', date1);
    PrefixBeforeJoin(b, '.', date2);
    assert a == b;
    IntToStringInjective(id1, id2);
    assert date1 == FingerprintInput(id1, date1)[|a| + 1..];
    assert date2 == FingerprintInput(id2, date2)[|b| + 1..];
  }

  /** The user with the fingerprint of the given day attached. */
  function Stamp(u: User, hash: Hasher, date: string): User {
    u.(sha256 := Some(hash(FingerprintInput(u.id, date))))
  }

  /** The users that are not bots, in their original order. */
  function Eligible(list: seq<User>): seq<User> {
    if list == [] then []
    else if list[0].bot then Eligible(list[1..])
    else [list[0]] + Eligible(list[1..])
  }

  lemma {:induction false} EligibleAppend(a: seq<User>, b: seq<User>)
    ensures Eligible(a + b) == Eligible(a) + Eligible(b)
  {
    if a == [] {
      assert a + b == b;
    } else {
      assert (a + b)[0] == a[0] && (a + b)[1..] == a[1..] + b;
      EligibleAppend(a[1..], b);
    }
  }

  /** The filter keeps exactly the users that are not bots, and never adds any. */
  lemma {:induction false} EligibleMembers(list: seq<User>)
    ensures |Eligible(list)| <= |list|
    ensures forall u :: u in Eligible(list) <==> u in list && !u.bot
  {
    if list != [] {
      EligibleMembers(list[1..]);
      assert list == [list[0]] + list[1..];
    }
  }

  /** A list with no bot is kept whole. */
  lemma {:induction false} EligibleNoBots(list: seq<User>)
    requires forall i :: 0 <= i < |list| ==> !list[i].bot
    ensures Eligible(list) == list
  {
    if list != [] {
      EligibleNoBots(list[1..]);
    }
  }

  /** Every user of the list, fingerprinted for the given day. */
  function StampAll(list: seq<User>, hash: Hasher, date: string): (r: seq<User>)
    ensures |r| == |list|
  {
    seq(|list|, i requires 0 <= i < |list| => Stamp(list[i], hash, date))
  }

  /** What `addSha256ToUserList(list)` returns: the non-bot users, in order,
      each with the fingerprint of the day. */
  function Stamped(list: seq<User>, hash: Hasher, date: string): seq<User> {
    StampAll(Eligible(list), hash, date)
  }

  /** A user carries the fingerprint of the given day, and is no bot. */
  predicate Fingerprinted(u: User, hash: Hasher, date: string) {
    !u.bot && u.sha256 == Some(hash(FingerprintInput(u.id, date)))
  }

  /** The returned users are exactly the non-bot users, each carrying its fingerprint. */
  lemma StampedProperties(list: seq<User>, hash: Hasher, date: string)
    ensures |Stamped(list, hash, date)| <= |list|
    ensures forall i :: 0 <= i < |Stamped(list, hash, date)| ==>
      Fingerprinted(Stamped(list, hash, date)[i], hash, date)
    ensures forall i :: 0 <= i < |Stamped(list, hash, date)| ==>
      Stamped(list, hash, date)[i].(sha256 := None) == Eligible(list)[i].(sha256 := None)
  {
    EligibleMembers(list);
    var e := Eligible(list);
    forall i | 0 <= i < |e| ensures !e[i].bot {
      assert e[i] in e;
    }
  }

  /** `addSha256ToUserList(list)` with the day's date text: the loop skips bots
      and pushes each other user with its fingerprint. */
  method AddSha256ToUserList(list: seq<User>, hash: Hasher, date: string) returns (r: seq<User>)
    ensures r == Stamped(list, hash, date)
  {
    r := [];
    for i := 0 to |list|
      invariant r == Stamped(list[..i], hash, date)
    {
      var user := list[i];
      assert list[..i + 1] == list[..i] + [user];
      EligibleAppend(list[..i], [user]);
      if user.bot {
        continue;
      }
      r := r + [Stamp(user, hash, date)];
    }
    assert list[..|list|] == list;
  }

  /** `list.find(user => user.id === id)`: the position of the first user with that id. */
  function FindById(list: seq<User>, id: int): (r: Option<nat>)
    ensures r.Some? ==> r.value < |list| && list[r.value].id == id
    ensures r.Some? ==> forall j :: 0 <= j < r.value ==> list[j].id != id
    ensures r.None? ==> forall j :: 0 <= j < |list| ==> list[j].id != id
  {
    if list == [] then None
    else if list[0].id == id then Some(0)
    else match FindById(list[1..], id)
      case None => None
      case Some(i) => Some(i + 1)
  }
}
