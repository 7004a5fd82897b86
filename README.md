# Kamiya-Waifu draw, modelled in Dafny

The bot answers the `eth_waifu` command in a Telegram group, supergroup or
channel. Each day it picks one "partner" for the sender from the chat's
members. The pick is reproducible:

- each member carries a fingerprint, SHA-256 of `"<user id>.<YYYY-mm-dd>"`;
- the latest Ethereum block's hash, read as a number, is added to the
  sender's fingerprint;
- the sum, taken modulo the number of members, is the index of the partner.

The member list of a chat is fetched once per day and cached in Redis. Bots
are dropped from it. Supergroups and channels are read page by page in a
do-while loop. The draw is cached in Redis too, together with everything
needed to recompute it (block number and hash, the sender's fingerprint,
the member count, a timestamp). A second command on the same day is
answered from that record.

The project models:

- `markdown.dfy`: `escapeMarkdown` and its 21 reserved characters.
- `date_format.dfy`: `dateFormat` (the regular-expression rounds and
  `padStart`) and `getTodayDateString`.
- `members.dfy`: users, the per-day fingerprint, the bot filter of
  `addSha256ToUserList`, and the sender lookup `find`.
- `cache_keys.dfy`: the two Redis key shapes and their injectivity.
- `selection.dfy`: `BigInt` of a hex hash, the draw index, the record
  stored for a draw, and how to replay it.
- `paging.dfy`: a reference definition of the channel paging loop's run,
  with its properties.
- `waifu_bot.dfy`: the class `Bot`, which holds:
  - the Redis store as a map;
  - a ghost log of every upstream request;
  - `getChatMembers` with its read-through cache and paging loop;
  - the draw step of the `eth_waifu` handler.

  The Telegram and Ethereum answers are a parameter `Upstream`: each request
  is mapped to its answer, or to a failure.

The store invariant `StoreOk` holds before and after every command:

- every cached member list holds only non-bot users fingerprinted for the
  key's day;
- every cached draw result has its day's member list cached;
- that list contains the sender with the recorded fingerprint;
- the result replays to its winner.

The handler has no guard for an empty member list before the modulo. With
an empty list, `find` gives `undefined` and reading `.sha256` throws, so the
command fails before any arithmetic. The model reports that as
`SenderNotMember`. `WaifuBot.NewRecord` and `WaifuBot.Bot.RecordDraw` are
only reached with a non-empty list, so the modulo never sees zero.

## Model

| member | source | states |
|---|---|---|
| Text.IntToString | app.js:181 | `toString()` of an integer: never empty, with a leading '-' exactly for a negative number; `IntToStringInjective` shows different integers give different texts |
| Text.FindFirst | app.js:185 | a reported position is an occurrence of the pattern that fits inside the text; `FindFirstIs` shows it is the first one |
| Text.ReplaceFirst | app.js:185 | `replace` with a string pattern: the first occurrence replaced and the rest kept (`ReplaceFirstAt`), the text unchanged without one (`ReplaceFirstAbsent`) |
| Text.FindFirstAbsent | app.js:185 | the search reports nothing exactly when the pattern occurs at no position |
| Text.ReplaceFirstAbsent | app.js:185 | `replace` of a pattern that does not occur returns the text unchanged |
| Text.PadStart | app.js:45 | `padStart(n, "0")` gives the larger of the text's length and n: it pads and never truncates |
| Text.PadStartShape | app.js:45 | the padded text ends with the original text and everything before it is '0' |
| Text.IntToStringInjective | app.js:181 | `toString()` of two different integers gives different texts |
| Text.ReplaceFirstLeading | app.js:195 | removing a pattern that the text starts with leaves the remainder |
| Markdown.SpecialCharsDistinct | app.js:55-77 | there are 21 reserved characters, all different, and the backslash is visited first |
| Markdown.ReplaceAll | app.js:81 | `replaceAll` on a text without the character returns the text unchanged |
| Markdown.ReplaceAllConcat | app.js:81 | `replaceAll` distributes over concatenation, since inserted text is not searched again |
| Markdown.ReplaceRound | app.js:81 | one `replaceAll` round applied to a text escaped for the earlier characters escapes the new character too |
| Markdown.EscapeMarkdown | app.js:79-83 | the loop over the reserved characters returns the per-character escape `Escaped(text)` |
| Markdown.EscapedLength | app.js:79-83 | output length = input length + number of reserved characters in the input |
| Markdown.UnescapeEscaped | app.js:79-83 | reading the output back as MarkdownV2 gives the input: escaping loses nothing |
| Markdown.EscapedInjective | app.js:79-83 | different texts are escaped differently |
| Markdown.EscapedWellEscaped | app.js:79-83 | no reserved character is left bare in the output |
| DateFormat.FieldTexts | app.js:34-41 | one text per placeholder letter, in the object's order: year, month plus one (`getMonth` is 0-based), day, hours, minutes, seconds |
| DateFormat.IndexOf | app.js:43 | where `exec` of `(c+)` starts matching: a position inside the text, or none; `IndexOfIs` and `IndexOfAbsent` show it is the first `c` |
| DateFormat.RunLength | app.js:43 | how far the greedy `c+` extends from a position, staying inside the text; `RunLengthIs` shows it covers the whole run |
| DateFormat.ReplaceToken | app.js:45 | the ternary: a one-letter match is replaced by the value as it is, a longer one by the value zero-padded to the match's length; `SubstituteRun` states the effect |
| DateFormat.Substitute | app.js:43-45 | one round of the loop: the first run of the letter replaced by the value, zero-padded to the run's length when the run is longer than one letter; `SubstituteRun` and `SubstituteAbsent` state its effect |
| DateFormat.SubstituteAll | app.js:42-47 | the rounds in the order Y, m, d, H, M, S, each on the result of the one before; `Format` is proved to compute it |
| DateFormat.TodayString | app.js:51-53 | year padded to 4, month plus one padded to 2 and day padded to 2, joined by '-'; `FormatTodayTemplate` shows it is `dateFormat('YYYY-mm-dd', d)` and `TodayStringInjective` that it tells days apart |
| DateFormat.IndexOfIs | app.js:43 | the regular expression `c+` starts matching at the first `c` |
| DateFormat.IndexOfAbsent | app.js:43-44 | a format without the letter gives no match |
| DateFormat.RunLengthIs | app.js:43 | the greedy `+` takes the whole run of the letter |
| DateFormat.LocateRun | app.js:43-45 | in `before + run + after`, the match is exactly the run, and `replace` finds it at the run's position |
| DateFormat.SubstituteRun | app.js:43-45 | one round replaces the first run of the letter with the value, zero-padded to the run's length unless the run is one letter, and keeps the rest |
| DateFormat.SubstituteAbsent | app.js:44 | a round whose letter is absent leaves the format unchanged |
| DateFormat.Format | app.js:32-49 | the loop over Y, m, d, H, M, S equals the six rounds `SubstituteAll` |
| DateFormat.NumericUnchanged | app.js:42-47 | rounds for letters that are not digits or '-' leave a numeric text unchanged |
| DateFormat.TimeRoundsUnchanged | app.js:38-40 | the hour, minute and second rounds do nothing to a filled-in date |
| DateFormat.DateRoundsFill | app.js:35-37 | the year, month and day rounds turn "YYYY-mm-dd" into padded year-month-day |
| DateFormat.TemplateRounds | app.js:51-53 | all six rounds on "YYYY-mm-dd" give year padded to 4, then month and day padded to 2 |
| DateFormat.FormatTodayTemplate | app.js:51-53 | `dateFormat('YYYY-mm-dd', d)` is `TodayString(d)`, with the month shown 1-based |
| DateFormat.GetTodayDateString | app.js:51-53 | the result is the year padded to 4, `month + 1` padded to 2 and the day padded to 2, joined by '-' |
| DateFormat.TodayStringInjective | app.js:51-53 | different calendar days with years below 10000 give different date texts |
| Members.FingerprintInput | app.js:173 | the text hashed for a user: the id, a '.', and the date text; its length is the sum of theirs |
| Members.Eligible | app.js:170-171 | the users that are not bots, in order; `EligibleMembers` and `EligibleNoBots` state exactly which are kept |
| Members.Stamped | app.js:168-178 | the eligible users, each with `sha256` set to the hash of its fingerprint text; `StampedProperties` states what it holds |
| Members.FingerprintInputInjective | app.js:173 | the hashed text `id + "." + date` determines both the id and the date |
| Members.EligibleAppend | app.js:170-171 | the bot filter distributes over concatenation |
| Members.EligibleMembers | app.js:170-171 | the filter keeps exactly the users that are not bots, and adds none |
| Members.EligibleNoBots | app.js:170-171 | a list without bots is kept whole, in order |
| Members.StampedProperties | app.js:168-178 | the result is no longer than the input; every user in it is a non-bot carrying `sha256 = H(id + "." + date)`; apart from `sha256` it equals the filtered list, position by position |
| Members.AddSha256ToUserList | app.js:168-178 | the loop returns `Stamped(list)`: the non-bots in order, each with its fingerprint |
| Members.FindById | app.js:246-257 | `find` gives the first position with the id, or `None` exactly when no user has it |
| CacheKeys.MembersKey | app.js:181 | `'waifu:chatMembers:' + date + ':' + chatId`; `MembersKeyInjective` shows it determines the day and chat |
| CacheKeys.ResultKey | app.js:260 | `'waifu:result:' + date + ':' + chatId + ':' + senderId`; `ResultKeyInjective` shows it determines the day, chat and sender, and `KeysDistinct` that it never equals a member-list key |
| CacheKeys.MembersKeyInjective | app.js:181 | two member-list keys are equal only for the same day and chat |
| CacheKeys.ResultKeyInjective | app.js:260 | two result keys are equal only for the same day, chat and sender |
| CacheKeys.KeysDistinct | app.js:181 | a member-list key is never a result key |
| Selection.HexCharValue | app.js:288 | a hex digit has a value below 16 |
| Selection.ParseHex | app.js:288-289 | `BigInt("0x…")` succeeds exactly on "0x" or "0X" followed by at least one hex digit and nothing else; the value is that of the digits, below 16^(n-2) for a text of n characters |
| Selection.HexDigit | app.js:174 | the lower-case digit `digest('hex')` writes for a value below 16 is a hex digit of that value |
| Selection.HexText | app.js:174 | a number written with a fixed number of hex digits has exactly that many characters |
| Selection.HexValueOfText | app.js:174 | reading back a number written in hex digits gives the number, when it fits the width |
| Selection.ParseHexText | app.js:289 | `BigInt('0x' + text)` of a number written in hex is that number: parsing inverts the hex writing |
| Selection.DigestParses | app.js:289 | `BigInt('0x' + senderSha256)` always succeeds, with a value below 2^256 |
| Selection.DrawIndex | app.js:290 | `(block + sender) % memberLength` lies in `[0, memberLength)` |
| Selection.DrawIndexUnique | app.js:290 | the index is the one position below the count that differs from the sum by a multiple of the count |
| Selection.DrawIndexPeriodic | app.js:290 | adding a multiple of the member count to the block value picks the same member |
| Selection.Replay | app.js:290-292 | recomputing from a stored record and the day's list yields, when it succeeds, a member of the list |
| Paging.Paging | app.js:200-221 | the reference run of the do-while loop: request at the offset; a failure ends it; a page that meets a bound finishes it; an empty page with both bounds unmet hangs; otherwise the run goes on from the offset plus the page's length |
| Paging.FlattenAppend | app.js:216-219 | pushing one page's users appends them after those received before |
| Paging.PagingOffsets | app.js:200-221 | at least one request is made; every request but a failed last one brings a page; each offset equals the number of users received so far |
| Paging.PagingContinues | app.js:221 | every request after the first is made only while `offset < memberCount && offset < 1000`; every offset is below 1000 |
| Paging.PagingEnds | app.js:202-221 | a finished run stopped with `received >= memberCount` or `received >= 1000`; a run hangs exactly when it did not fail, its last page is empty and both bounds are unmet |
| Paging.PagingFullPages | app.js:213 | with full pages of 200, `offset + 200 * (requests - 1) < 1000` |
| Paging.AtMostFiveRequests | app.js:213-221 | from offset 0 with full pages, at most five requests are made |
| Paging.PagingReceivedBound | app.js:213-221 | with pages of at most 200 users, fewer than 1200 users are received: 1000 bounds the last offset, not the total |
| Paging.PagingFullPagesCap | app.js:213-221 | with full pages of 200 from a multiple of 200, at most 1000 users are received |
| Paging.PagingOvershoot | app.js:213-221 | pages of 199 users in a channel of 5000 give six requests, at 0, 199, 398, 597, 796 and 995, and 1194 users |
| WaifuBot.GroupPeerText | app.js:185 | `chatId.toString().replace('-', '')`: the chat id with its first '-' removed; `GroupPeerTextNegative` states the result for a negative id |
| WaifuBot.ChannelPeerText | app.js:195 | `chatId.toString().replace('-100', '')`; `ChannelPeerTextPrefixed` states the result for an id written "-100…" |
| WaifuBot.GroupPeerTextNegative | app.js:185 | a basic group's negative id is asked for without its sign |
| WaifuBot.ChannelPeerTextPrefixed | app.js:195 | a channel id "-100…" is asked for without the "-100" |
| WaifuBot.PageCalls | app.js:203-215 | one participants request per offset |
| WaifuBot.PageCallsAt | app.js:203-215 | the i-th request asks for the i-th offset with limit 200 |
| WaifuBot.PageCallsAppend | app.js:202-215 | one more round appends one request at the new offset |
| WaifuBot.PagingRequests | app.js:200-221 | a paging run sends at least one request; the i-th asks, with limit 200, at the number of users received before it |
| WaifuBot.RunResult | app.js:202-221 | a finished run gives its users, a failed request the handler's rejection as `UpstreamFailed`, a hanging run `PagingHangs`; `Bot.PagingLoop` is proved to return it |
| WaifuBot.ChannelCalls | app.js:192-215 | getChannels, then the member count, then one participants request per offset of the paging run, stopping after the first failed request; `Bot.FetchChannelUsers` sends exactly these |
| WaifuBot.FetchCalls | app.js:184-215 | one getFullChat for a basic group, `ChannelCalls` for any other chat; `Bot.GetChatMembers` sends exactly these on a miss |
| WaifuBot.BlockCalls | app.js:285-287 | getBlockNumber, then getBlock of that number when it answered; `Bot.DrawFresh` sends exactly these |
| WaifuBot.ChannelUsers | app.js:191-221 | the channel branch: getChannels, then the member count, then the paging run from offset 0, whose result it is; any failed request fails it |
| WaifuBot.FetchUsers | app.js:183-221 | a basic group's users come from one getFullChat; any other chat's from `ChannelUsers` |
| WaifuBot.FetchMembers | app.js:180-227 | a miss fails exactly when fetching fails; on success it returns no more users than were fetched, all fingerprinted non-bots |
| WaifuBot.NewRecord | app.js:284-292 | it fails with an upstream error exactly when the block number or the block is missing; with `InvalidBlockHash` exactly when the hash does not parse; on success the record holds the block's number and hash, the timestamp, the sender's fingerprint and `memberLength` equal to the number of members, and replays to its winner |
| WaifuBot.InsertMembersOk | app.js:187-189 | caching a newly fetched, fingerprinted list under a free key keeps the store invariant |
| WaifuBot.InsertResultOk | app.js:292 | recording a result that replays to its winner, for a sender found with that fingerprint on the cached list, keeps the store invariant |
| WaifuBot.SenderFingerprint | app.js:255-257 | the sender's `sha256` on a valid list is the hash of the sender's id and the day |
| WaifuBot.Bot.PushAll | app.js:216-219 | the inner loop appends the page to the list and advances the offset by its length |
| WaifuBot.Bot.PagingRoundStep | app.js:203-219 | one round requests the page at the current offset and moves the run on, as `PagingRound` describes |
| WaifuBot.Bot.PagingLoop | app.js:200-221 | the do-while loop returns the result of the reference run `Paging(source, memberCount, 0)` and requests exactly its offsets |
| WaifuBot.Bot.FetchParticipants | app.js:200-221 | the loop's result is that of the reference run, and the log grows by exactly the run's requests |
| WaifuBot.Bot.RequestFullChat | app.js:184-186 | answers `messages.getFullChat` and logs exactly that request |
| WaifuBot.Bot.RequestChannel | app.js:192-198 | answers `channels.getChannels` and logs exactly that request |
| WaifuBot.Bot.RequestMemberCount | app.js:199 | answers `getChatMembersCount` and logs exactly that request |
| WaifuBot.Bot.RequestBlockNumber | app.js:285 | answers `eth.getBlockNumber` and logs exactly that request |
| WaifuBot.Bot.RequestBlock | app.js:287 | answers `eth.getBlock` and logs exactly that request |
| WaifuBot.Bot.FetchChannelUsers | app.js:191-221 | the channel branch returns `ChannelUsers` and sends getChannels, the member count, and then the paging requests |
| WaifuBot.Bot.FetchChatUsers | app.js:183-221 | a basic group is read with one getFullChat; any other chat is read through the channel branch |
| WaifuBot.Bot.GetChatMembers | app.js:180-227 | a hit returns the stored list, sends nothing and changes nothing; a miss returns `FetchMembers`, sends `FetchCalls` and writes exactly the returned list under the key, and only on success; the store invariant is kept |
| WaifuBot.Bot.DrawFresh | app.js:284-291 | a fresh draw sends getBlockNumber and then getBlock, and returns `NewRecord` |
| WaifuBot.Bot.RecordDraw | app.js:284-292 | the fresh draw is written under the result key exactly when it succeeds; the store invariant is kept |
| WaifuBot.Bot.DrawInGroup | app.js:243-292 | `DrawOutcome`: only the day's two keys change; a cached result is returned with no request and no write; a missing member list is fetched, a failed fetch fails the command with no write, and a fetched list is stored; a sender absent from the day's list fails with `SenderNotMember`, with no block request, and only such a sender does; a failed command leaves no result; a found sender without a result gets `NewRecord` for its fingerprint on every path, with getBlockNumber and getBlock sent; an answered draw is recorded and replays to its winner |
| WaifuBot.Bot.Draw | app.js:229-292 | a private chat is refused with nothing sent or stored; any other chat gets a `Drawn` reply or an error, with the outcome `DrawOutcome` of `DrawInGroup` |

## Left out

- Telegraf, MTProto, Redis and Web3 I/O: their answers are the parameter `Upstream`, and Redis is a map.
- The API class's retry on flood-wait and data-centre migration (app.js:85-140): it is not part of this model. A request either answers or fails.
- `checkisAuthKey` and the start-up authorisation (app.js:144-166): not part of this model.
- Redis expiry (`EX 86400`): entries never expire. Keys carry the date, so a day's entries are never read on another day.
- `JSON.stringify`/`JSON.parse` of cached values: modelled as an exact round trip.
- SHA-256: an uninterpreted function `Hasher` from text to 64 lower-case hex digits.
- The clock: the date text and the timestamp are parameters, read once per command. The source reads the clock again in each `getTodayDateString` call, so a command running across midnight is not modelled.
- Text.IntToString: writes any integer in plain decimal. JavaScript's `toString()` switches to exponent form from 1e21 and is exact only below 2^53; Telegram chat and user ids are far below both, so ids are assumed to lie in that exact-integer range.
- Selection.DrawIndex: computes over exact naturals. The source converts both 256-bit values with `Number()` to doubles before adding them, which rounds; that rounding is not modelled.
- Selection.ParseHex: accepts only the "0x" hexadecimal form. The other forms `BigInt` accepts (decimal, "0b", "0o", surrounding white space) do not occur for block hashes and are not modelled.
- Markdown.EscapeMarkdown: takes a string, so the `text += ''` conversion at app.js:80 is not modelled. It is harmless: every call (app.js:269-311) passes a user's first or last name, which Telegram sends as a string.
- Members.AddSha256ToUserList: returns fingerprinted copies instead of setting `sha256` on the caller's user objects in place. No caller reads the input list afterwards.
- Paging.Paging: the loop's `offset < 1000` stops further requests but does not cap the list. The last page may bring up to 200 more users, so up to 1199 can arrive (`PagingReceivedBound`), and pages of 199 users take six requests and bring 1194 (`PagingOvershoot`). The model follows the code; only full pages of 200 stop at 1000 (`PagingFullPagesCap`).
- Paging.Paging: an empty page while both bounds are unmet makes the source repeat the same request forever. The model ends the run with outcome `Hangs` (`PagingHangs`) instead of looping.
- WaifuBot.Bot.FetchParticipants: the requests of the loop are appended to the ghost log when the loop exits, not one by one.
- The reply texts, MarkdownV2 formatting of names, and profile photos (app.js:263-283, 293-314): not part of this model. The escaping they use is modelled in `Markdown`.
- The first, `try`-guarded `find` (app.js:245-254) only sends an error reply. The unguarded one after it (app.js:255-257) throws, and the model reports that as `SenderNotMember`.
- Concurrent commands and interleaved Redis access: each command runs alone.
