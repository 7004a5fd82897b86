/**
 * The bot's state and the `eth_waifu` command: the Redis store, the
 * read-through member cache of `getChatMembers` with its channel paging
 * loop, and the draw that picks and records the day's partner.
 */
module WaifuBot {
  import opened Wrappers
  import opened Text
  import opened Members
  import opened CacheKeys
  import opened Selection
  import opened Paging

  datatype ChatType = Private | Group | Supergroup | Channel

  datatype Chat = Chat(id: int, kind: ChatType)

  /** `Channel.chats[0]`: what a participants request names the channel by. */
  datatype ChannelRef = ChannelRef(id: int, accessHash: int)

  /** The answers of Telegram and of the Ethereum node, each request mapped to
      its answer; `None` is a request that fails. */
  datatype Upstream = Upstream(
    fullChat: string -> Option<seq<User>>,     // messages.getFullChat(chat_id).users
    channels: string -> Option<ChannelRef>,    // channels.getChannels(channel_id).chats[0]
    memberCount: int -> Option<int>,           // getChatMembersCount(chatId)
    participants: ChannelRef -> PageSource,    // channels.getParticipants(channel, offset, limit)
    blockNumber: Option<nat>,                  // eth.getBlockNumber()
    block: nat -> Option<string>)              // eth.getBlock(number).hash

  /** A request the bot sends upstream. */
  datatype Call =
    | GetFullChat(chatIdText: string)
    | GetChannels(channelIdText: string)
    | GetMembersCount(chatId: int)
    | GetParticipants(channel: ChannelRef, offset: nat, limit: nat)
    | GetBlockNumber
    | GetBlock(number: nat)

  datatype Error =
    | UpstreamFailed    // a request was rejected
    | PagingHangs       // the paging loop would repeat an empty page forever
    | SenderNotMember   // `find(...)` gave undefined and reading `.sha256` threw
    | InvalidBlockHash  // `BigInt(block.hash)` threw

  /** What Redis holds, read back as it was written. */
  datatype CacheValue = MemberList(users: seq<User>) | DrawResult(rec: DrawRecord)

  /** What the command answers with. */
  datatype Reply = UseInGroup | Drawn(rec: DrawRecord)

  /** `chatId.toString().replace('-', '')`: the chat id a basic group is asked by. */
  function GroupPeerText(chatId: int): string {
    ReplaceFirst(IntToString(chatId), "-", "")
  }

  /** `chatId.toString().replace('-100', '')`: the id a channel is asked by. */
  function ChannelPeerText(chatId: int): string {
    ReplaceFirst(IntToString(chatId), "-100", "")
  }

  /** A basic group's id loses its sign. */
  lemma GroupPeerTextNegative(chatId: int)
    requires chatId < 0
    ensures GroupPeerText(chatId) == NatToString(-chatId)
  {
    ReplaceFirstLeading("-", NatToString(-chatId));
  }

  /** A supergroup or channel id loses its "-100" prefix. */
  lemma ChannelPeerTextPrefixed(chatId: int, rest: string)
    requires IntToString(chatId) == "-100" + rest
    ensures ChannelPeerText(chatId) == rest
  {
    ReplaceFirstLeading("-100", rest);
  }

  /** One participants request per offset, each with limit 200. */
  function PageCalls(ch: ChannelRef, offsets: seq<nat>): (r: seq<Call>)
    ensures |r| == |offsets|
  {
    if offsets == [] then [] else [GetParticipants(ch, offsets[0], PageLimit)] + PageCalls(ch, offsets[1..])
  }

  /** The `i`th request of a paging run asks for the page at its `i`th offset. */
  lemma {:induction false} PageCallsAt(ch: ChannelRef, offsets: seq<nat>, i: nat)
    requires i < |offsets|
    ensures PageCalls(ch, offsets)[i] == GetParticipants(ch, offsets[i], PageLimit)
  {
    if i > 0 {
      PageCallsAt(ch, offsets[1..], i - 1);
    }
  }

  lemma {:induction false} PageCallsAppend(ch: ChannelRef, offsets: seq<nat>, offset: nat)
    ensures PageCalls(ch, offsets + [offset]) == PageCalls(ch, offsets) + [GetParticipants(ch, offset, PageLimit)]
  {
    if offsets != [] {
      assert (offsets + [offset])[1..] == offsets[1..] + [offset];
      PageCallsAppend(ch, offsets[1..], offset);
    }
  }

  /** The requests of a paging run from offset 0: at least one, and the `i`th
      asks, with limit 200, for the users after the ones received before it. */
  lemma PagingRequests(ch: ChannelRef, source: PageSource, memberCount: int)
    ensures var run := Paging.Paging(source, memberCount, 0);
      var sent := PageCalls(ch, run.offsets);
      && |sent| >= 1
      && forall i :: 0 <= i < |sent| ==>
           i <= |run.pages| && sent[i] == GetParticipants(ch, |ReceivedBefore(run, i)|, PageLimit)
  {
    var run := Paging.Paging(source, memberCount, 0);
    PagingOffsets(source, memberCount, 0);
    forall i | 0 <= i < |run.offsets|
      ensures i <= |run.pages| && PageCalls(ch, run.offsets)[i] == GetParticipants(ch, |ReceivedBefore(run, i)|, PageLimit)
    {
      PageCallsAt(ch, run.offsets, i);
    }
  }

  /** The result of a paging run, as the handler sees it. */
  function RunResult(run: Run): Result<seq<User>, Error> {
    match run.outcome
    case Finished => Ok(Received(run))
    case Failed => Err(UpstreamFailed)
    case Hangs => Err(PagingHangs)
  }

  /** The users of a supergroup or channel: the channel, its member count,
      and the users of the paging run. */
  function ChannelUsers(chatId: int, up: Upstream): Result<seq<User>, Error> {
    match up.channels(ChannelPeerText(chatId))
    case None => Err(UpstreamFailed)
    case Some(ch) =>
      match up.memberCount(chatId)
      case None => Err(UpstreamFailed)
      case Some(count) => RunResult(Paging.Paging(up.participants(ch), count, 0))
  }

  /** The requests that fetch the users of a supergroup or channel. */
  function ChannelCalls(chatId: int, up: Upstream): seq<Call> {
    var channelIdText := ChannelPeerText(chatId);
    match up.channels(channelIdText)
    case None => [GetChannels(channelIdText)]
    case Some(ch) =>
      match up.memberCount(chatId)
      case None => [GetChannels(channelIdText), GetMembersCount(chatId)]
      case Some(count) =>
        [GetChannels(channelIdText), GetMembersCount(chatId)]
        + PageCalls(ch, Paging.Paging(up.participants(ch), count, 0).offsets)
  }

  /** When the channel and its member count are known, the requests are those
      two followed by the paging run's, after whatever was sent before. */
  lemma ChannelCallsPaged(chatId: int, up: Upstream, before: seq<Call>, ch: ChannelRef, count: int)
    requires up.channels(ChannelPeerText(chatId)) == Some(ch) && up.memberCount(chatId) == Some(count)
    ensures before + ChannelCalls(chatId, up)
         == before + [GetChannels(ChannelPeerText(chatId)), GetMembersCount(chatId)]
            + PageCalls(ch, Paging.Paging(up.participants(ch), count, 0).offsets)
  {
  }

  /** The users `getChatMembers` fetches on a miss, before the bot filter: the
      group's users, or the users of the paging run. */
  function FetchUsers(chat: Chat, up: Upstream): Result<seq<User>, Error> {
    if chat.kind == Group then
      match up.fullChat(GroupPeerText(chat.id))
      case None => Err(UpstreamFailed)
      case Some(users) => Ok(users)
    else ChannelUsers(chat.id, up)
  }

  /** The member list `getChatMembers` caches and returns on a miss: the fetched
      users through `addSha256ToUserList`. */
  function FetchMembers(chat: Chat, up: Upstream, hash: Hasher, date: string): (r: Result<seq<User>, Error>)
    ensures r.Err? <==> FetchUsers(chat, up).Err?
    ensures r.Ok? ==> |r.value| <= |FetchUsers(chat, up).value|
    ensures r.Ok? ==> forall i :: 0 <= i < |r.value| ==> Fingerprinted(r.value[i], hash, date)
  {
    match FetchUsers(chat, up)
    case Err(e) => Err(e)
    case Ok(users) => StampedProperties(users, hash, date); Ok(Stamped(users, hash, date))
  }

  /** The requests `getChatMembers` sends on a miss, in order. */
  function FetchCalls(chat: Chat, up: Upstream): seq<Call> {
    if chat.kind == Group then [GetFullChat(GroupPeerText(chat.id))]
    else ChannelCalls(chat.id, up)
  }

  /** The requests of a fresh draw: the block number, then that block. */
  function BlockCalls(up: Upstream): seq<Call> {
    [GetBlockNumber] + if up.blockNumber.Some? then [GetBlock(up.blockNumber.value)] else []
  }

  /** The record of a fresh draw for a sender with fingerprint `senderSha` among
      `members`: the latest block's hash, read as a number and added to the
      sender's, picks the member at the sum modulo the number of members. */
  function NewRecord(members: seq<User>, senderSha: Digest, up: Upstream, timestamp: int): (r: Result<DrawRecord, Error>)
    requires |members| > 0
    ensures r == Err(UpstreamFailed) <==> up.blockNumber.None? || up.block(up.blockNumber.value).None?
    ensures r == Err(InvalidBlockHash) <==>
      up.blockNumber.Some? && up.block(up.blockNumber.value).Some?
      && ParseHex(up.block(up.blockNumber.value).value).None?
    ensures r.Ok? ==>
      && up.blockNumber.Some?
      && up.block(up.blockNumber.value) == Some(r.value.blockHash)
      && r.value.blockNumber == IntToString(up.blockNumber.value)
      && r.value.timestamp == timestamp
      && r.value.senderSha256 == senderSha
      && r.value.memberLength == |members|
      && Replay(r.value, members) == Some(r.value.winner)
  {
    match up.blockNumber
    case None => Err(UpstreamFailed)
    case Some(number) =>
      match up.block(number)
      case None => Err(UpstreamFailed)
      case Some(blockHash) =>
        match ParseHex(blockHash)
        case None => Err(InvalidBlockHash)
        case Some(b) =>
          DigestParses(senderSha);
          var s := ParseHex("0x" + senderSha).value;
          var rec := DrawRecord(members[DrawIndex(b, s, |members|)], IntToString(number), blockHash,
                                timestamp, senderSha, |members|);
          ReplayWinner(rec, members, b, s);
          Ok(rec)
  }

  /** A cached member list: every user fingerprinted for the key's day, no bot. */
  predicate MembersOk(v: CacheValue, hash: Hasher, date: string) {
    v.MemberList? && forall i :: 0 <= i < |v.users| ==> Fingerprinted(v.users[i], hash, date)
  }

  /** A cached draw result: the member list of the same day and chat is cached,
      the sender is on it with the recorded fingerprint, and the record replays
      to its winner. */
  predicate ResultOk(store: map<string, CacheValue>, hash: Hasher, date: string, chatId: int, senderId: int) {
    var rk, mk := ResultKey(date, chatId, senderId), MembersKey(date, chatId);
    && rk in store && store[rk].DrawResult?
    && mk in store && store[mk].MemberList?
    && var rec, members := store[rk].rec, store[mk].users;
    && Replay(rec, members) == Some(rec.winner)
    && FindById(members, senderId).Some?
    && members[FindById(members, senderId).value].sha256 == Some(rec.senderSha256)
  }

  /** What the bot's own writes keep true of the store. */
  ghost predicate StoreOk(store: map<string, CacheValue>, hash: Hasher) {
    && (forall d, c {:trigger MembersOk(store[MembersKey(d, c)], hash, d)} ::
          MembersKey(d, c) in store ==> MembersOk(store[MembersKey(d, c)], hash, d))
    && (forall d, c, s {:trigger ResultOk(store, hash, d, c, s)} ::
          ResultKey(d, c, s) in store ==> ResultOk(store, hash, d, c, s))
  }

  /** Keys other than those in `keys` are as they were. */
  ghost predicate OnlyChanged(before: map<string, CacheValue>, after: map<string, CacheValue>, keys: set<string>) {
    forall k :: k !in keys ==> (k in after <==> k in before) && (k in after ==> after[k] == before[k])
  }

  /** Caching a newly fetched, fingerprinted member list keeps the store valid. */
  lemma InsertMembersOk(store: map<string, CacheValue>, hash: Hasher, date: string, chatId: int, list: seq<User>)
    requires StoreOk(store, hash)
    requires MembersKey(date, chatId) !in store
    requires forall i :: 0 <= i < |list| ==> Fingerprinted(list[i], hash, date)
    ensures StoreOk(store[MembersKey(date, chatId) := MemberList(list)], hash)
  {
    var key := MembersKey(date, chatId);
    var st := store[key := MemberList(list)];
    forall d, c | MembersKey(d, c) in st
      ensures MembersOk(st[MembersKey(d, c)], hash, d)
    {
      if MembersKey(d, c) == key {
        MembersKeyInjective(d, c, date, chatId);
      } else {
        assert MembersOk(store[MembersKey(d, c)], hash, d);
      }
    }
    forall d, c, s | ResultKey(d, c, s) in st
      ensures ResultOk(st, hash, d, c, s)
    {
      KeysDistinct(date, chatId, d, c, s);
      assert ResultOk(store, hash, d, c, s);
    }
  }

  /** Recording a draw that replays to its winner keeps the store valid. */
  lemma InsertResultOk(store: map<string, CacheValue>, hash: Hasher, date: string, chatId: int, senderId: int,
                       rec: DrawRecord)
    requires StoreOk(store, hash)
    requires ResultKey(date, chatId, senderId) !in store
    requires MembersKey(date, chatId) in store && store[MembersKey(date, chatId)].MemberList?
    requires var members := store[MembersKey(date, chatId)].users;
      && Replay(rec, members) == Some(rec.winner)
      && FindById(members, senderId).Some?
      && members[FindById(members, senderId).value].sha256 == Some(rec.senderSha256)
    ensures StoreOk(store[ResultKey(date, chatId, senderId) := DrawResult(rec)], hash)
  {
    var key := ResultKey(date, chatId, senderId);
    var st := store[key := DrawResult(rec)];
    forall d, c | MembersKey(d, c) in st
      ensures MembersOk(st[MembersKey(d, c)], hash, d)
    {
      KeysDistinct(d, c, date, chatId, senderId);
      assert MembersOk(store[MembersKey(d, c)], hash, d);
    }
    forall d, c, s | ResultKey(d, c, s) in st
      ensures ResultOk(st, hash, d, c, s)
    {
      KeysDistinct(date, chatId, d, c, s);
      if ResultKey(d, c, s) == key {
        ResultKeyInjective(d, c, s, date, chatId, senderId);
      } else {
        assert ResultOk(store, hash, d, c, s);
      }
    }
  }

  /** The sender's fingerprint on a valid member list is the hash of the
      sender's id and the day. */
  lemma SenderFingerprint(members: seq<User>, hash: Hasher, date: string, senderId: int)
    requires forall i :: 0 <= i < |members| ==> Fingerprinted(members[i], hash, date)
    requires FindById(members, senderId).Some?
    ensures members[FindById(members, senderId).value].sha256 == Some(hash(FingerprintInput(senderId, date)))
  {
  }

  /** What the command in a group, supergroup or channel does, from the
      store and request log before it to those after it, with answer `r`. */
  ghost predicate DrawOutcome(before: map<string, CacheValue>, after: map<string, CacheValue>,
                              sentBefore: seq<Call>, sentAfter: seq<Call>, hash: Hasher,
                              chat: Chat, senderId: int, date: string, up: Upstream, timestamp: int,
                              r: Result<DrawRecord, Error>)
  {
    var mk, rk := MembersKey(date, chat.id), ResultKey(date, chat.id, senderId);
    // Only the day's two keys change, and an entry already there stays.
    && OnlyChanged(before, after, {mk, rk})
    && (mk in before ==> mk in after && after[mk] == before[mk])
    && (rk in before ==> rk in after && after[rk] == before[rk])
    // A draw recorded today is answered again, with nothing sent.
    && (rk in before ==>
          before[rk].DrawResult? && r == Ok(before[rk].rec) && after == before && sentAfter == sentBefore)
    // A missing member list is fetched; a failed fetch fails the command
    // with nothing written, and a successful one is the list stored.
    && (mk !in before && FetchMembers(chat, up, hash, date).Err? ==>
          && r == Err(FetchMembers(chat, up, hash, date).error)
          && after == before && sentAfter == sentBefore + FetchCalls(chat, up))
    && (mk !in before && FetchMembers(chat, up, hash, date).Ok? ==>
          mk in after && after[mk] == MemberList(FetchMembers(chat, up, hash, date).value))
    // A sender missing from the list fails before any block request, and
    // only such a sender fails that way.
    && (r == Err(SenderNotMember) ==>
          mk in after && after[mk].MemberList? && FindById(after[mk].users, senderId).None?)
    && (mk in after && after[mk].MemberList? && FindById(after[mk].users, senderId).None? ==>
          && r == Err(SenderNotMember)
          && (mk in before ==> sentAfter == sentBefore)
          && (mk !in before ==> sentAfter == sentBefore + FetchCalls(chat, up)))
    // A failed command leaves no result behind.
    && (r.Err? ==> rk !in after)
    // A sender on the list without a draw today gets the fresh draw.
    && (rk !in before && mk in after && after[mk].MemberList? && FindById(after[mk].users, senderId).Some? ==>
          && |after[mk].users| > 0
          && r == NewRecord(after[mk].users, hash(FingerprintInput(senderId, date)), up, timestamp)
          && (mk in before ==> sentAfter == sentBefore + BlockCalls(up))
          && (mk !in before ==> sentAfter == sentBefore + FetchCalls(chat, up) + BlockCalls(up)))
    // Every draw answered is recorded, and replays on the day's list.
    && (r.Ok? ==>
          && rk in after && after[rk] == DrawResult(r.value)
          && mk in after && after[mk].MemberList?
          && r.value.memberLength == |after[mk].users|
          && Replay(r.value, after[mk].users) == Some(r.value.winner)
          && r.value.senderSha256 == hash(FingerprintInput(senderId, date)))
  }

  /** The draw inside a reply: an error, or the record of a `Drawn` reply. */
  function DrawOf(r: Result<Reply, Error>): Result<DrawRecord, Error>
    requires r.Err? || r.value.Drawn?
  {
    if r.Err? then Err(r.error) else Ok(r.value.rec)
  }

  class Bot {
    /** SHA-256 over text, as `crypto.createHash('sha256')` computes it. */
    const hash: Hasher
    /** The Redis database, key by key. */
    var store: map<string, CacheValue>
    /** Every request sent upstream, in order. */
    ghost var calls: seq<Call>

    ghost predicate Valid()
      reads this
    {
      StoreOk(store, hash)
    }

    constructor(hash: Hasher)
      ensures Valid()
      ensures this.hash == hash && store == map[] && calls == []
    {
      this.hash := hash;
      store := map[];
      calls := [];
    }

    /** The inner loop of a paging round: each user of the page is pushed
        onto the list and counted into the offset. */
    static method PushAll(users: seq<User>, offset: nat, page: seq<User>)
      returns (users': seq<User>, offset': nat)
      ensures users' == users + page && offset' == offset + |page|
    {
      users', offset' := users, offset;
      for j := 0 to |page|
        invariant users' == users + page[..j]
        invariant offset' == offset + j
      {
        assert page[..j + 1] == page[..j] + [page[j]];
        users' := users' + [page[j]];
        offset' := offset' + 1;
      }
      assert page[..|page|] == page;
    }

    /** One round of the do-while loop: the page at `offset` is requested and
        its users are pushed and counted. */
    static method PagingRoundStep(source: PageSource, memberCount: int, ghost run: Run,
                                  users: seq<User>, offset: nat, ghost offsets: seq<nat>, ghost pages: seq<seq<User>>)
      returns (answer: Option<seq<User>>, users': seq<User>, offset': nat,
               ghost offsets': seq<nat>, ghost pages': seq<seq<User>>)
      requires offset < MaxMembers && users == Flatten(pages)
      requires run == Join(offsets, pages, Paging.Paging(source, memberCount, offset))
      ensures answer == source(offset) && offsets' == offsets + [offset]
      ensures answer.None? ==> run == Run(offsets', pages, Failed)
      ensures answer.Some? ==>
        && users' == Flatten(pages') && pages' == pages + [answer.value] && offset' == offset + |answer.value|
        && (!Continues(offset', memberCount) ==> run == Run(offsets', pages', Finished))
        && (Continues(offset', memberCount) && answer.value == [] ==> run == Run(offsets', pages', Hangs))
        && (Continues(offset', memberCount) && answer.value != [] ==>
              run == Join(offsets', pages', Paging.Paging(source, memberCount, offset')))
    {
      answer := source(offset);
      offsets', pages', users', offset' := offsets + [offset], pages, users, offset;
      if answer.None? {
        PagingRoundFails(source, memberCount, run, offsets, pages, offset);
        return;
      }
      var page := answer.value;
      users', offset' := PushAll(users, offset, page);
      PagingRound(source, memberCount, run, offsets, pages, offset, page);
      FlattenAppend(pages, page);
      pages' := pages + [page];
    }

    /** The do-while loop of the channel branch: pages are requested at the
        number of users received so far until that number reaches the member
        count or 1000. An empty page that would make the loop repeat the same
        request forever ends it with `PagingHangs`. The offsets requested are
        returned alongside the result. */
    static method PagingLoop(source: PageSource, memberCount: int)
      returns (r: Result<seq<User>, Error>, ghost offsets: seq<nat>)
      ensures r == RunResult(Paging.Paging(source, memberCount, 0))
      ensures offsets == Paging.Paging(source, memberCount, 0).offsets
    {
      ghost var run := Paging.Paging(source, memberCount, 0);
      var offset: nat := 0;
      var users: seq<User> := [];
      offsets := [];
      ghost var pages: seq<seq<User>> := [];
      while true
        invariant offset < MaxMembers
        invariant users == Flatten(pages)
        invariant run == Join(offsets, pages, Paging.Paging(source, memberCount, offset))
        decreases MaxMembers - offset
      {
        var answer;
        answer, users, offset, offsets, pages := PagingRoundStep(source, memberCount, run, users, offset, offsets, pages);
        if answer.None? {
          r := Err(UpstreamFailed);
          return;
        }
        if !Continues(offset, memberCount) {
          r := Ok(users);
          return;
        }
        if answer.value == [] {
          r := Err(PagingHangs);
          return;
        }
      }
    }

    /** The paging loop for channel `ch`, one participants request with limit
        200 per offset. */
    method FetchParticipants(ch: ChannelRef, source: PageSource, memberCount: int)
      returns (r: Result<seq<User>, Error>)
      modifies this`calls
      ensures var run := Paging.Paging(source, memberCount, 0);
        r == RunResult(run) && calls == old(calls) + PageCalls(ch, run.offsets)
    {
      ghost var offsets;
      r, offsets := PagingLoop(source, memberCount);
      calls := calls + PageCalls(ch, offsets);
    }

    /** `messages.getFullChat` for a basic group. */
    method RequestFullChat(up: Upstream, chatIdText: string) returns (users: Option<seq<User>>)
      modifies this`calls
      ensures users == up.fullChat(chatIdText)
      ensures calls == old(calls) + [GetFullChat(chatIdText)]
    {
      calls := calls + [GetFullChat(chatIdText)];
      users := up.fullChat(chatIdText);
    }

    /** `channels.getChannels` for a supergroup or channel. */
    method RequestChannel(up: Upstream, channelIdText: string) returns (ch: Option<ChannelRef>)
      modifies this`calls
      ensures ch == up.channels(channelIdText)
      ensures calls == old(calls) + [GetChannels(channelIdText)]
    {
      calls := calls + [GetChannels(channelIdText)];
      ch := up.channels(channelIdText);
    }

    /** `getChatMembersCount`. */
    method RequestMemberCount(up: Upstream, chatId: int) returns (count: Option<int>)
      modifies this`calls
      ensures count == up.memberCount(chatId)
      ensures calls == old(calls) + [GetMembersCount(chatId)]
    {
      calls := calls + [GetMembersCount(chatId)];
      count := up.memberCount(chatId);
    }

    /** `eth.getBlockNumber`. */
    method RequestBlockNumber(up: Upstream) returns (number: Option<nat>)
      modifies this`calls
      ensures number == up.blockNumber
      ensures calls == old(calls) + [GetBlockNumber]
    {
      calls := calls + [GetBlockNumber];
      number := up.blockNumber;
    }

    /** `eth.getBlock`, reduced to the block's hash. */
    method RequestBlock(up: Upstream, number: nat) returns (blockHash: Option<string>)
      modifies this`calls
      ensures blockHash == up.block(number)
      ensures calls == old(calls) + [GetBlock(number)]
    {
      calls := calls + [GetBlock(number)];
      blockHash := up.block(number);
    }

    /** The channel branch of `getChatMembers`, before the bot filter. */
    method FetchChannelUsers(chatId: int, up: Upstream) returns (r: Result<seq<User>, Error>)
      modifies this`calls
      ensures r == ChannelUsers(chatId, up)
      ensures calls == old(calls) + ChannelCalls(chatId, up)
    {
      var channelIdText := ChannelPeerText(chatId);
      var channel := RequestChannel(up, channelIdText);
      if channel.None? {
        r := Err(UpstreamFailed);
        return;
      }
      var ch := channel.value;
      var count := RequestMemberCount(up, chatId);
      assert calls == old(calls) + [GetChannels(channelIdText), GetMembersCount(chatId)];
      if count.None? {
        r := Err(UpstreamFailed);
        return;
      }
      r := FetchParticipants(ch, up.participants(ch), count.value);
      ChannelCallsPaged(chatId, up, old(calls), ch, count.value);
    }

    /** The fetching half of `getChatMembers`, before the bot filter. */
    method FetchChatUsers(chat: Chat, up: Upstream) returns (r: Result<seq<User>, Error>)
      modifies this`calls
      ensures r == FetchUsers(chat, up)
      ensures calls == old(calls) + FetchCalls(chat, up)
    {
      if chat.kind == Group {
        var full := RequestFullChat(up, GroupPeerText(chat.id));
        r := if full.None? then Err(UpstreamFailed) else Ok(full.value);
      } else {
        r := FetchChannelUsers(chat.id, up);
      }
    }

    /** `getChatMembers(chatId, chatType)`: the day's cached list, or a fresh
        list that is cached before it is returned. */
    method GetChatMembers(chat: Chat, date: string, up: Upstream) returns (r: Result<seq<User>, Error>)
      requires Valid()
      modifies this
      ensures Valid()
      ensures var key := MembersKey(date, chat.id);
        && (key in old(store) ==>
              && old(store)[key].MemberList?
              && r == Ok(old(store)[key].users) && store == old(store) && calls == old(calls))
        && (key !in old(store) ==>
              && r == FetchMembers(chat, up, hash, date)
              && calls == old(calls) + FetchCalls(chat, up)
              && store == (if r.Ok? then old(store)[key := MemberList(r.value)] else old(store)))
      ensures r.Ok? ==> MembersKey(date, chat.id) in store && store[MembersKey(date, chat.id)] == MemberList(r.value)
      ensures r.Ok? ==> forall i :: 0 <= i < |r.value| ==> Fingerprinted(r.value[i], hash, date)
    {
      var key := MembersKey(date, chat.id);
      if key in store {
        assert MembersOk(store[key], hash, date);
        r := Ok(store[key].users);
        return;
      }
      var users := FetchChatUsers(chat, up);
      if users.Err? {
        r := Err(users.error);
        return;
      }
      var list := AddSha256ToUserList(users.value, hash, date);
      StampedProperties(users.value, hash, date);
      InsertMembersOk(store, hash, date, chat.id, list);
      store := store[key := MemberList(list)];
      r := Ok(list);
    }

    /** The fresh-draw half of the command: block number, block, and the record. */
    method DrawFresh(members: seq<User>, senderSha: Digest, up: Upstream, timestamp: int)
      returns (r: Result<DrawRecord, Error>)
      requires |members| > 0
      modifies this`calls
      ensures r == NewRecord(members, senderSha, up, timestamp)
      ensures calls == old(calls) + BlockCalls(up)
    {
      var number := RequestBlockNumber(up);
      if number.None? {
        r := Err(UpstreamFailed);
        return;
      }
      var block := RequestBlock(up, number.value);
      if block.None? {
        r := Err(UpstreamFailed);
        return;
      }
      var blockValue := ParseHex(block.value);
      if blockValue.None? {
        r := Err(InvalidBlockHash);
        return;
      }
      DigestParses(senderSha);
      var senderValue := ParseHex("0x" + senderSha).value;
      var index := DrawIndex(blockValue.value, senderValue, |members|);
      r := Ok(DrawRecord(members[index], IntToString(number.value), block.value, timestamp, senderSha, |members|));
    }

    /** The fresh draw and its record under the result key, for a sender found
        on the day's cached member list with fingerprint `senderSha`. */
    method RecordDraw(chatId: int, senderId: int, date: string, members: seq<User>, senderSha: Digest,
                      up: Upstream, timestamp: int)
      returns (r: Result<DrawRecord, Error>)
      requires Valid()
      requires MembersKey(date, chatId) in store && store[MembersKey(date, chatId)] == MemberList(members)
      requires ResultKey(date, chatId, senderId) !in store
      requires FindById(members, senderId).Some?
      requires members[FindById(members, senderId).value].sha256 == Some(senderSha)
      modifies this
      ensures Valid()
      ensures r == NewRecord(members, senderSha, up, timestamp)
      ensures calls == old(calls) + BlockCalls(up)
      ensures store == if r.Ok? then old(store)[ResultKey(date, chatId, senderId) := DrawResult(r.value)] else old(store)
    {
      r := DrawFresh(members, senderSha, up, timestamp);
      if r.Ok? {
        InsertResultOk(store, hash, date, chatId, senderId, r.value);
        store := store[ResultKey(date, chatId, senderId) := DrawResult(r.value)];
      }
    }

    /** The command in a group, supergroup or channel: the sender must be on
        the day's member list; a draw already recorded for the sender today is
        answered again unchanged; else a fresh draw is made and recorded. */
    method DrawInGroup(chat: Chat, senderId: int, date: string, up: Upstream, timestamp: int)
      returns (r: Result<DrawRecord, Error>)
      requires Valid()
      modifies this
      ensures Valid()
      ensures DrawOutcome(old(store), store, old(calls), calls, hash, chat, senderId, date, up, timestamp, r)
    {
      var mk, rk := MembersKey(date, chat.id), ResultKey(date, chat.id, senderId);
      KeysDistinct(date, chat.id, date, chat.id, senderId);
      if rk in store {
        assert ResultOk(store, hash, date, chat.id, senderId);
      }
      var members := GetChatMembers(chat, date, up);
      if members.Err? {
        r := Err(members.error);
        return;
      }
      var list := members.value;
      var found := FindById(list, senderId);
      if found.None? {
        r := Err(SenderNotMember);
        return;
      }
      var senderSha := list[found.value].sha256.value;
      SenderFingerprint(list, hash, date, senderId);
      if rk in store {
        r := Ok(store[rk].rec);
        return;
      }
      r := RecordDraw(chat.id, senderId, date, list, senderSha, up, timestamp);
    }

    /** The `eth_waifu` command from `senderId` in `chat` on the day `date`: a
        private chat is refused, any other chat gets the day's draw, where the
        latest block's hash picks the member at
        `(blockHash + senderHash) % memberLength`. */
    method Draw(chat: Chat, senderId: int, date: string, up: Upstream, timestamp: int)
      returns (r: Result<Reply, Error>)
      requires Valid()
      modifies this
      ensures Valid()
      ensures chat.kind == Private ==> r == Ok(UseInGroup) && store == old(store) && calls == old(calls)
      ensures chat.kind != Private ==>
        && (r.Err? || r.value.Drawn?)
        && DrawOutcome(old(store), store, old(calls), calls, hash, chat, senderId, date, up, timestamp, DrawOf(r))
    {
      if chat.kind == Private {
        r := Ok(UseInGroup);
        return;
      }
      var drawn := DrawInGroup(chat, senderId, date, up, timestamp);
      r := if drawn.Ok? then Ok(Drawn(drawn.value)) else Err(drawn.error);
    }
  }
}
