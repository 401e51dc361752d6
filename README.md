# Temporary bans and slow mode, modelled in Dafny

This project models the two stateful parts of the Useful-cogs Discord bot extensions:

- **`AdvancedBans` (tempbans)**: the ban store `bans_data` (server → user → record) and the
  priority queue of pending unbans `(due, BanCase)`. Around that state are the duration
  parser (`parse_duration`), the duration text sent to the banned member (`avert_banned_user`),
  the `tempban` checks, the lookup by stored name (`get_user_by_name`), cancellation by
  draining and refilling the queue (`remove_case`), the start-up reload (`load_cases`), the
  `unban` and `banfetch` commands, and one pass of the `ban_scheduling` loop.
- **`SlowMode` (slowmode)**: the per-channel delay `slowDuration`, the per-(channel, author)
  time of the last message `lastTimeTalkingMap`, the `slowmode`/`slowoff` commands, the
  `limiter` message listener, and the permission predicates `check_permissions`,
  `role_or_permissions` and `can_bypass`.

Files and modules:

- `wrappers.dfy` (`Wrappers`): `Option` and `Result`.
- `strings.dfy` (`Strings`): ASCII `lower()`, `" ".join` and `split(" ")`.
- `numerals.dfy` (`Numerals`): `isdigit()`, `int()` and `str()` on ASCII decimal text.
- `durations.dfy` (`Durations`): `parse_duration` and the duration text of `avert_banned_user`.
- `tempbans.dfy` (`Tempbans`): the class `AdvancedBans`, with fields `bansData`, `queue` and a
  ghost snapshot `persisted` of what was last saved.
- `slowmode.dfy` (`Slowmode`): the permission functions and the class `SlowMode`.

The invariant of `AdvancedBans` is `Scheduled(multiset(queue), bansData)`. It says that every
stored ban has exactly one queued unban, due at `banTimestamp + duration`, and that every
queued unban belongs to a stored ban. The constructor (start-up reload), a successful
`Tempban`, `Unban` and `Tick` keep it. The queue is a sequence. Its order carries no meaning,
because the source keeps it as a heap. `Get` removes some entry that no other entry comes
before in Python's tuple order: due time first, then `BanCase.__lt__`, the ban time.

The current time is always a parameter (`now`). Platform calls appear only as outcomes:
- `deleted` for a deleted message;
- `Dispatched` for an unban sent to the platform;
- `Banned(notice)` for a ban, carrying the duration text sent to the member.

The unban scheduler dispatches an event once `max(due - now, 0) < 5`. That is up to four
seconds before the due time, not only at or after it (`DispatchWindow`). Each pass handles
exactly one event, the least one. The model follows the code here.

## Model

| member | source | states |
|---|---|---|
| `Numerals.ParseIntOfIntToString` | tempbans/tempbans.py:46 | `int()` reads the decimal text of every integer back as that integer |
| `Numerals.DigitsValueOfNatToString` | slowmode/slowmode.py:19-22 | a digit string written for n is read by `int()` as n, so `slowmode` with the text of n sets delay n |
| `Numerals.ParseIntOfDigits` | slowmode/slowmode.py:19-22 | `int()` of text that passes `isdigit()` is the number its digits spell |
| `Numerals.IsDigits` | slowmode/slowmode.py:19 | text that passes `isdigit()` is non-empty and holds no sign and no blank, which `int()` alone would accept |
| `Numerals.ParseInt` | tempbans/tempbans.py:46 | `int()` succeeds exactly on digits with at most one leading '+' or '-', and gives a negative number only after '-' |
| `Strings.Lower` | slowmode/slowmode.py:47-49 | `lower()` keeps the length, turns each upper-case ASCII letter into the same letter in lower case and keeps every other character |
| `Strings.Join` | tempbans/tempbans.py:63 | `" ".join` of no words is "", and otherwise the text starts with the first word and ends with the last |
| `Strings.SplitJoin` | tempbans/tempbans.py:63 | the stored reason is the words joined by single spaces: splitting it at spaces gives the words back when none holds a space |
| `Durations.ParseDuration` | tempbans/tempbans.py:40-47 | only the empty string fails at `duration[-1]`, and only an upper-case D, W or Y passes the lower-cased check and then fails the table lookup |
| `Durations.ParsedWholeDays` | tempbans/tempbans.py:41-47 | every parsed duration is a whole number of days |
| `Durations.DescribeDuration` | tempbans/tempbans.py:99-108 | the duration text starts with the magnitude exactly as typed, then a space, and is at least three characters longer than the duration |
| `Durations.ParseDurationOfUnit` | tempbans/tempbans.py:40-47 | "<n>d", "<n>w", "<n>y" parse to n·86400, n·604800, n·31536000 seconds |
| `Durations.SuffixCheckedFirst` | tempbans/tempbans.py:42-45 | a last character whose lower case is not d, w or y is refused as an invalid suffix whatever the magnitude text is |
| `Durations.ParsedSuffixIsLowerCase` | tempbans/tempbans.py:42-47 | a parsed duration has a lower-case suffix and an integer magnitude, and equals magnitude times the unit's seconds |
| `Durations.UpperCaseSuffixRefused` | tempbans/tempbans.py:43-47 | an upper-case D, W or Y passes the suffix check but still never parses |
| `Durations.DescribeAgreesWithParse` | tempbans/tempbans.py:99-108 | the duration text exists exactly when the duration parses, and otherwise fails with the same error |
| `Durations.DescribeDurationOfUnit` | tempbans/tempbans.py:100-108 | "<n>d" is described as "<n> day" when n is 1 and "<n> days" otherwise; likewise weeks and years |
| `Durations.PluralIffNotOneUnit` | tempbans/tempbans.py:107-108 | the description ends in "s" exactly when the parsed duration is not one unit |
| `Tempbans.Before` | tempbans/tempbans.py:26-27 | in the queue order an earlier due time always comes first, and an entry that comes first is never due later |
| `Tempbans.WithServerKeeps` | tempbans/tempbans.py:128-129 | registering a server adds only that server, with an empty map when it is new, and keeps every stored ban |
| `Tempbans.WithoutRemovesOnly` | tempbans/tempbans.py:181 | `del` removes exactly that server and user's record, keeps the server registered and keeps every other record |
| `Tempbans.Lag` | tempbans/tempbans.py:239-240 | the wait is never negative, never less than `due - now`, and is either 0 or `due - now` |
| `Tempbans.LeastExists` | tempbans/tempbans.py:26-27 | under the queue's tuple order (due time, then ban time) every non-empty queue has a least entry for `get` to return |
| `Tempbans.BannedIffPending` | tempbans/tempbans.py:52-53 | under the invariant, `user_already_banned` holds exactly when an unban for that server and user is queued |
| `Tempbans.ScheduledWithServer` | tempbans/tempbans.py:128-129 | creating the empty map for a new server keeps the invariant |
| `Tempbans.ScheduledAdd` | tempbans/tempbans.py:55-70 | storing a ban for a new key and queueing its event keeps the invariant |
| `Tempbans.ScheduledCancel` | tempbans/tempbans.py:181-182 | deleting a stored ban and dropping every queued event of its key keeps the invariant |
| `Tempbans.ScheduledDispatch` | tempbans/tempbans.py:236-246 | a queued event always has its stored ban; removing that one event and deleting the ban keeps the invariant |
| `Tempbans.DispatchWindow` | tempbans/tempbans.py:239-241 | the scheduler's `max(due - now, 0) < 5` holds exactly from four seconds before the due time onwards |
| `Tempbans.AdvancedBans.constructor` | tempbans/tempbans.py:31-36 | start-up keeps the loaded bans, and each stored ban gets exactly one queued unban due at ban time plus duration |
| `Tempbans.AdvancedBans.SaveBansData` | tempbans/tempbans.py:49-50 | the saved snapshot becomes the current store |
| `Tempbans.AdvancedBans.Put` | tempbans/tempbans.py:85 | `queue.put` adds the entry and leaves the rest of the queue as it was |
| `Tempbans.AdvancedBans.UserAlreadyBanned` | tempbans/tempbans.py:52-53 | under the invariant, true exactly when an unban for that server and user is queued |
| `Tempbans.AdvancedBans.Get` | tempbans/tempbans.py:236-238 | removes and returns one least entry of a non-empty queue; all other entries stay with the same multiplicity |
| `Tempbans.AdvancedBans.PostCase` | tempbans/tempbans.py:82-85 | queues the case once, due at the given time or else at ban time plus duration |
| `Tempbans.AdvancedBans.LoadCases` | tempbans/tempbans.py:74-80 | from an empty queue, posts exactly one event per stored ban, due at ban time plus duration |
| `Tempbans.AdvancedBans.PopulateBanData` | tempbans/tempbans.py:55-72 | stores the record with the user and moderator names and ids, the duration, ban time `now` and the space-joined reason; queues one event for it due at `now + duration`; nothing else changes; the store is saved |
| `Tempbans.AdvancedBans.Tempban` | tempbans/tempbans.py:115-152 | in source order: already banned, bad duration, duration ≤ 0, no reason each change nothing except creating the server's empty map, and save nothing; otherwise the ban is stored and scheduled as in `PopulateBanData`, and the notice is the duration text |
| `Tempbans.AdvancedBans.BanNewUser` | tempbans/tempbans.py:135-152 | in source order: bad duration, duration ≤ 0, no reason each change nothing and save nothing; otherwise the ban is stored and scheduled as in `PopulateBanData`, and the notice is the duration text |
| `Tempbans.AdvancedBans.GetUserByName` | tempbans/tempbans.py:154-157 | returns a user whose stored name is the query, or None exactly when there is none |
| `Tempbans.AdvancedBans.RemoveCase` | tempbans/tempbans.py:88-97 | removes exactly the queued events of that server and user; every other event stays with the same multiplicity |
| `Tempbans.AdvancedBans.Unban` | tempbans/tempbans.py:161-184 | unknown server or no user with that stored name change nothing; otherwise that user's ban is deleted, their queued events are removed, nothing else changes, and the store is saved |
| `Tempbans.AdvancedBans.BanFetch` | tempbans/tempbans.py:193-208 | reports a stored ban with that name, or says the server is not listed or no such ban exists |
| `Tempbans.AdvancedBans.Tick` | tempbans/tempbans.py:233-251 | an empty queue is left alone; otherwise only a least event is looked at: when `max(due - now, 0) < 5` it is removed and its ban deleted and saved, else it is put back unchanged |
| `Tempbans.AdvancedBans.Shutdown` | tempbans/tempbans.py:254-255 | on unload the queue is drained to empty and the store is untouched |
| `Slowmode.CheckPermissions` | slowmode/slowmode.py:63-72 | true for the owner; otherwise true exactly when some permission is requested and every requested (name, value) is among the resolved ones |
| `Slowmode.FindRole` | slowmode/slowmode.py:60 | the position of the first role satisfying the check, or None when no role does |
| `Slowmode.RoleOrPermissions` | slowmode/slowmode.py:51-61 | true exactly when the permission check holds, or, outside a private channel, some role of the author satisfies the check |
| `Slowmode.CanBypass` | slowmode/slowmode.py:45-49 | exempt exactly when the author is the owner, or may manage messages, or, outside a private channel, has the mod or admin role (compared in lower case) |
| `Slowmode.SlowMode.constructor` | slowmode/slowmode.py:8-12 | both maps start empty |
| `Slowmode.SlowMode.SlowIn` | slowmode/slowmode.py:36 | a channel that is set has its stored delay, a channel never set has delay 0, and under the invariant no delay is negative |
| `Slowmode.SlowMode.Slowmode` | slowmode/slowmode.py:16-23 | a non-digit delay changes nothing; a digit delay sets the channel's delay to `int(delay)`, and every delay stays non-negative |
| `Slowmode.SlowMode.Slowoff` | slowmode/slowmode.py:27-31 | the channel's delay becomes 0, so `Limiter` deletes nothing there afterwards |
| `Slowmode.SlowMode.Limiter` | slowmode/slowmode.py:33-43 | exempt authors and channels with delay absent or 0: nothing deleted and nothing recorded; otherwise deleted exactly when `now` minus the previous time (0 if none) is at most the delay, and the time is recorded as `now` either way, with no other key changed |

## Left out

- Platform I/O is not modelled: sending messages, deleting the command message, banning, unbanning, embeds and `say`. `limiter`'s delete is only the `deleted` result. The ban is the `Banned` outcome. The unban is the `Dispatched` tick outcome.
- asyncio is not modelled: the lock, `create_task`, `sleep` and the `while self == bot.get_cog(...)` lifetime loop. Operations run one after another, and a posted case is queued at once. So one race is not captured: `unban` deletes the record before it takes the lock in `remove_case`, and a tick that dispatched the same case meanwhile would fail on `del`. That KeyError escapes `ban_scheduling` between `lock.acquire()` (tempbans/tempbans.py:233) and `release()` (line 251), so the lock stays held, the scheduler task ends, and the `remove_case` waiting for the lock (line 89) never returns.
- JSON persistence, the data folder and file setup are not modelled. Saving is the ghost snapshot `persisted`. A refused `tempban` for a new server leaves the empty server map unsaved, as in the source.
- Wall-clock time is the parameter `now`.
- The `banfetch` embed and its float "day(s)" division are not modelled, and neither is the `modchan` command. Both are formatting and configuration.
- The bot settings lookups of `can_bypass` are inputs: `BotSettings` holds the owner id and the mod and admin role names.
- Python's `int()` is modelled without whitespace, underscores or non-ASCII digits. `isdigit()` is ASCII only, so a character such as "²", which passes `isdigit()` but fails `int()`, is not modelled. `lower()` acts on ASCII letters only.
- Exceptions are modelled as error kinds of `BadDuration`. An empty duration raises IndexError and an upper-case suffix after a valid magnitude raises TypeError; both end `tempban` with an uncaught exception. The state is then the same as for the caught ValueError: the server map may be created and nothing else changes.
- `GetUserByName` returns some matching user, not the first in dictionary insertion order, because insertion order is not modelled.
- `Unban` assumes that `get_user_info(user_id)` returns the user with the id it was asked for.
- `Get` returns any least entry; the heap's choice among entries equal in due time and ban time is not modelled.
- Logging is not modelled.
