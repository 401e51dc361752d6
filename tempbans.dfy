/** The `AdvancedBans` cog: the stored temporary bans (`bans_data`, server -> user -> record)
    and the priority queue of pending unbans that the scheduler polls. Time is a parameter;
    the chat platform's calls (message, ban, unban, user lookup) are outcomes only. */
module Tempbans {
  import opened Wrappers
  import opened Strings
  import opened Durations

  type ServerId = string
  type UserId = string
  /** A (server, user) pair: the key of one stored ban. */
  type Key = (ServerId, UserId)

  /** A member of a server, as the commands see it. */
  datatype Member = Member(id: UserId, name: string)

  /** The "bannedBy" field of a stored ban. */
  datatype Moderator = Moderator(name: string, id: UserId)

  /** One stored ban: `bans_data[server][user]`. */
  datatype BanRecord = BanRecord(name: string, bannedBy: Moderator, duration: int, banTimestamp: int, reason: string)

  /** A `BanCase`: a stored ban together with its server and user. */
  datatype BanCase = BanCase(id: UserId, server: ServerId, name: string, bannedBy: Moderator,
                             banTimestamp: int, duration: int, reason: string)

  /** An entry of the priority queue: the time the unban is due and the case. */
  type Event = (int, BanCase)

  type BansData = map<ServerId, map<UserId, BanRecord>>

  /** The case built from a stored record, its server and its user. */
  function CaseOf(server: ServerId, id: UserId, r: BanRecord): BanCase
  {
    BanCase(id, server, r.name, r.bannedBy, r.banTimestamp, r.duration, r.reason)
  }

  /** The default due time `post_case` gives a case. */
  function DueOf(c: BanCase): int
  {
    c.banTimestamp + c.duration
  }

  function KeyOf(e: Event): Key
  {
    (e.1.server, e.1.id)
  }

  predicate Has(data: BansData, k: Key)
  {
    k.0 in data && k.1 in data[k.0]
  }

  /** The one event a stored ban must have in the queue. */
  function EventAt(data: BansData, k: Key): (e: Event)
    requires Has(data, k)
    ensures KeyOf(e) == k
  {
    var c := CaseOf(k.0, k.1, data[k.0][k.1]);
    (DueOf(c), c)
  }

  /** `bans_data` after `if server.id not in self.bans_data: self.bans_data[server.id] = {}`. */
  function WithServer(data: BansData, server: ServerId): BansData
  {
    if server in data then data else data[server := map[]]
  }

  /** Registering a server adds only that server, with no bans, and keeps every stored ban. */
  lemma WithServerKeeps(data: BansData, server: ServerId)
    ensures WithServer(data, server).Keys == data.Keys + {server}
    ensures server !in data ==> WithServer(data, server)[server] == map[]
    ensures forall s | s in data :: WithServer(data, server)[s] == data[s]
  {
  }

  /** `bans_data` after `del self.bans_data[server][user]`. */
  function Without(data: BansData, k: Key): BansData
    requires k.0 in data
  {
    data[k.0 := data[k.0] - {k.1}]
  }

  /** Deleting a ban removes that ban and nothing else, and keeps the server registered. */
  lemma WithoutRemovesOnly(data: BansData, k: Key)
    requires k.0 in data
    ensures Without(data, k).Keys == data.Keys && !Has(Without(data, k), k)
    ensures forall k' :: Has(Without(data, k), k') <==> Has(data, k') && k' != k
    ensures forall k' | Has(data, k') && k' != k :: Without(data, k)[k'.0][k'.1] == data[k'.0][k'.1]
  {
  }

  /** The queue order: tuples compare by due time first, then by `BanCase.__lt__` (ban time). */
  function Before(a: Event, b: Event): (r: bool)
    ensures r ==> a.0 <= b.0
    ensures a.0 < b.0 ==> r
  {
    a.0 < b.0 || (a.0 == b.0 && a.1.banTimestamp < b.1.banTimestamp)
  }

  /** `e` is an entry of `q` that no other entry comes before: what `queue.get()` may return. */
  predicate IsLeast(e: Event, q: seq<Event>)
  {
    e in q && forall x | x in q :: !Before(x, e)
  }

  /** Every non-empty queue has a least entry. */
  lemma {:induction false} LeastExists(q: seq<Event>)
    requires |q| > 0
    ensures exists e :: IsLeast(e, q)
  {
    if |q| == 1 {
      assert IsLeast(q[0], q);
    } else {
      LeastExists(q[1..]);
      var e :| IsLeast(e, q[1..]);
      assert q == [q[0]] + q[1..];
      if Before(q[0], e) {
        assert IsLeast(q[0], q);
      } else {
        assert IsLeast(e, q);
      }
    }
  }

  /** `e` is the event of a stored ban. */
  predicate IsEventOf(data: BansData, e: Event)
  {
    Has(data, KeyOf(e)) && e == EventAt(data, KeyOf(e))
  }

  /** The consistency of store and queue: the queue holds each stored ban's event exactly
      once and nothing else. */
  ghost predicate Scheduled(q: multiset<Event>, data: BansData)
  {
    forall e :: q[e] == if IsEventOf(data, e) then 1 else 0
  }

  /** The same, for the bans of `done` only: what `load_cases` has posted so far. */
  ghost predicate Loaded(q: multiset<Event>, data: BansData, done: set<Key>)
  {
    forall e :: q[e] == if KeyOf(e) in done && IsEventOf(data, e) then 1 else 0
  }

  lemma LoadedAddOne(q: multiset<Event>, data: BansData, done: set<Key>, k: Key)
    requires Loaded(q, data, done) && Has(data, k) && k !in done
    ensures Loaded(q + multiset{EventAt(data, k)}, data, done + {k})
  {
  }

  lemma LoadedAll(q: multiset<Event>, data: BansData, done: set<Key>)
    requires Loaded(q, data, done)
    requires forall k | Has(data, k) :: k in done
    ensures Scheduled(q, data)
  {
  }

  /** Creating an empty map for a new server keeps store and queue consistent. */
  lemma ScheduledWithServer(q: multiset<Event>, data: BansData, server: ServerId)
    requires Scheduled(q, data)
    ensures Scheduled(q, WithServer(data, server))
  {
    var data' := WithServer(data, server);
    forall e
      ensures IsEventOf(data', e) == IsEventOf(data, e)
    {
    }
  }

  /** Storing a ban for a new key and queueing its event keeps store and queue consistent. */
  lemma ScheduledAdd(q: multiset<Event>, data: BansData, k: Key, r: BanRecord)
    requires Scheduled(q, data)
    requires k.0 in data && !Has(data, k)
    ensures var data' := data[k.0 := data[k.0][k.1 := r]];
      Scheduled(q + multiset{EventAt(data', k)}, data')
  {
    var data' := data[k.0 := data[k.0][k.1 := r]];
    forall e
      ensures IsEventOf(data', e) == (IsEventOf(data, e) || e == EventAt(data', k))
    {
      if KeyOf(e) != k {
        assert Has(data', KeyOf(e)) == Has(data, KeyOf(e));
      }
    }
  }

  /** Deleting a stored ban while dropping every queued event of its key keeps them consistent. */
  lemma ScheduledCancel(q: multiset<Event>, q': multiset<Event>, data: BansData, k: Key)
    requires Scheduled(q, data) && k.0 in data
    requires forall e :: q'[e] == if KeyOf(e) == k then 0 else q[e]
    ensures Scheduled(q', Without(data, k))
  {
    var data' := Without(data, k);
    forall e
      ensures IsEventOf(data', e) == (IsEventOf(data, e) && KeyOf(e) != k)
    {
      if KeyOf(e) != k {
        assert Has(data', KeyOf(e)) == Has(data, KeyOf(e));
      }
    }
  }

  /** Dispatching a queued event and deleting its stored ban keeps store and queue consistent. */
  lemma ScheduledDispatch(q: multiset<Event>, data: BansData, e: Event)
    requires Scheduled(q, data) && e in q
    ensures Has(data, KeyOf(e))
    ensures Scheduled(q - multiset{e}, Without(data, KeyOf(e)))
  {
    assert q[e] == 1;
    var k := KeyOf(e);
    var q' := q - multiset{e};
    forall x
      ensures q'[x] == if KeyOf(x) == k then 0 else q[x]
    {
      if KeyOf(x) == k && IsEventOf(data, x) {
        assert x == e;
      }
    }
    ScheduledCancel(q, q', data, k);
  }

  /** While `remove_case` drains the queue: the events of other keys still queued plus those
      kept aside are those of the original queue, and none of key `k` is kept. */
  ghost predicate Drained(original: multiset<Event>, q: multiset<Event>, kept: multiset<Event>, k: Key)
  {
    forall e :: (if KeyOf(e) == k then 0 else original[e]) == (if KeyOf(e) == k then 0 else q[e]) + kept[e]
  }

  lemma DrainStep(original: multiset<Event>, q: multiset<Event>, kept: multiset<Event>, e: Event, k: Key)
    requires Drained(original, q, kept, k) && e in q
    ensures Drained(original, q - multiset{e}, if KeyOf(e) == k then kept else kept + multiset{e}, k)
  {
  }

  /** A stored ban exists for a key exactly when an unban for that key is queued. */
  lemma BannedIffPending(q: multiset<Event>, data: BansData, k: Key)
    requires Scheduled(q, data)
    ensures Has(data, k) <==> exists e :: e in q && KeyOf(e) == k
  {
    if Has(data, k) {
      assert q[EventAt(data, k)] == 1;
    }
  }

  /** Some unban of `k` is waiting in `q`. */
  ghost predicate Pending(q: multiset<Event>, k: Key)
  {
    exists e :: e in q && KeyOf(e) == k
  }

  /** `BannedIffPending`, for a caller that cannot assume the invariant. */
  lemma PendingWhenScheduled(q: multiset<Event>, data: BansData, k: Key)
    ensures Scheduled(q, data) ==> (Has(data, k) <==> Pending(q, k))
  {
    if Scheduled(q, data) {
      BannedIffPending(q, data, k);
    }
  }

  /** `max(due - now, 0)`: how long until an unban is due, as the scheduler computes it. */
  function Lag(due: int, now: int): (r: int)
    ensures r >= 0 && r >= due - now
    ensures r == 0 || r == due - now
  {
    if due - now >= 0 then due - now else 0
  }

  /** A tick dispatches an unban from four seconds before it is due onwards. */
  lemma DispatchWindow(due: int, now: int)
    ensures Lag(due, now) < 5 <==> now >= due - 4
  {
  }

  datatype TempbanOutcome =
    | AlreadyBanned
    | BadDuration(error: DurationError)
    | NonPositiveDuration
    | MissingReason
    | Banned(notice: string)   // the duration text of the message sent to the banned member

  datatype UnbanOutcome = ServerNotRegistered | NotTempBanned | Unbanned(id: UserId)

  datatype FetchOutcome = ServerNotListed | NotBanned | Report(record: BanRecord)

  datatype TickOutcome = Idle | Dispatched(event: Event) | Deferred(event: Event)

  class AdvancedBans {
    /** `bans_data`: server -> user -> stored ban. */
    var bansData: BansData
    /** `queue`: the pending unbans, in no particular order (a heap in the source). */
    var queue: seq<Event>
    /** The last contents written to the ban file by `save_bans_data`. */
    ghost var persisted: BansData

    ghost predicate Valid()
      reads this
    {
      Scheduled(multiset(queue), bansData)
    }

    /** Start-up: the stored bans are loaded and each gets its unban queued again. */
    constructor (stored: BansData)
      ensures Valid()
      ensures bansData == stored && persisted == stored
    {
      bansData := stored;
      persisted := stored;
      queue := [];
      new;
      LoadCases();
    }

    /** `save_bans_data`. */
    method SaveBansData()
      modifies this`persisted
      ensures persisted == bansData
    {
      persisted := bansData;
    }

    /** `queue.put(e)`. */
    method Put(e: Event)
      modifies this`queue
      ensures queue == old(queue) + [e]
    {
      queue := queue + [e];
    }

    /** `queue.get()` on a non-empty queue: removes and returns a least entry. */
    method Get() returns (e: Event)
      requires |queue| > 0
      modifies this`queue
      ensures IsLeast(e, old(queue))
      ensures multiset(queue) == multiset(old(queue)) - multiset{e}
      ensures |queue| == |old(queue)| - 1
    {
      LeastExists(queue);
      e :| IsLeast(e, queue);
      var i :| 0 <= i < |queue| && queue[i] == e;
      assert queue == queue[..i] + [e] + queue[i + 1..];
      queue := queue[..i] + queue[i + 1..];
    }

    /** `post_case`: queues the case, due at `future` or else at ban time plus duration. */
    method PostCase(banCase: BanCase, future: Option<int>)
      modifies this`queue
      ensures queue == old(queue) + [(if future.None? then DueOf(banCase) else future.value, banCase)]
    {
      var due := if future.None? then DueOf(banCase) else future.value;
      Put((due, banCase));
    }

    /** `load_cases`: posts the case of every stored ban. */
    method LoadCases()
      requires queue == []
      modifies this`queue
      ensures Valid()
    {
      var servers := bansData.Keys;
      ghost var done: set<Key> := {};
      while servers != {}
        invariant servers <= bansData.Keys
        invariant forall k | Has(bansData, k) :: k in done <==> k.0 !in servers
        invariant Loaded(multiset(queue), bansData, done)
        decreases servers
      {
        var server :| server in servers;
        var users := bansData[server].Keys;
        while users != {}
          invariant users <= bansData[server].Keys
          invariant forall k | Has(bansData, k) :: k in done <==> (k.0 !in servers || (k.0 == server && k.1 !in users))
          invariant Loaded(multiset(queue), bansData, done)
          decreases users
        {
          var userId :| userId in users;
          ghost var q0 := multiset(queue);
          PostCase(CaseOf(server, userId, bansData[server][userId]), None);
          LoadedAddOne(q0, bansData, done, (server, userId));
          done := done + {(server, userId)};
          users := users - {userId};
        }
        servers := servers - {server};
      }
      LoadedAll(multiset(queue), bansData, done);
    }

    /** `user_already_banned`: whether the user has a stored ban on the server (by
        `BannedIffPending`, the same as having an unban pending there). */
    function UserAlreadyBanned(server: ServerId, userId: UserId): (r: bool)
      reads this
      requires server in bansData
      ensures Valid() ==> (r <==> Pending(multiset(queue), (server, userId)))
    {
      PendingWhenScheduled(multiset(queue), bansData, (server, userId));
      userId in bansData[server]
    }

    /** `populate_ban_data`: stores the ban (ban time `now`, reason words joined by spaces)
        and queues its unban. */
    method PopulateBanData(server: ServerId, user: Member, author: Member, duration: int, reason: seq<string>, now: int)
      requires Valid()
      requires server in bansData && user.id !in bansData[server]
      modifies this
      ensures Valid()
      ensures var r := BanRecord(user.name, Moderator(author.name, author.id), duration, now, Join(reason));
        && bansData == old(bansData)[server := old(bansData)[server][user.id := r]]
        && queue == old(queue) + [(now + duration, CaseOf(server, user.id, r))]
      ensures persisted == bansData
    {
      var r := BanRecord(user.name, Moderator(author.name, author.id), duration, now, Join(reason));
      ghost var q0, data0 := multiset(queue), bansData;
      bansData := bansData[server := bansData[server][user.id := r]];
      PostCase(CaseOf(server, user.id, r), None);
      ScheduledAdd(q0, data0, (server, user.id), r);
      SaveBansData();
    }

    /** The part of `tempban` after the already-banned check, for a user with no stored ban on
        a registered server: the duration and reason checks in the source's order, then the ban. */
    method BanNewUser(server: ServerId, user: Member, mod: Member, duration: string, reason: seq<string>, now: int)
      returns (outcome: TempbanOutcome)
      requires Valid()
      requires server in bansData && user.id !in bansData[server]
      modifies this
      ensures Valid()
      ensures !outcome.AlreadyBanned?
      ensures ParseDuration(duration).Err? ==> outcome == BadDuration(ParseDuration(duration).error)
      ensures ParseDuration(duration).Ok? && ParseDuration(duration).value <= 0 ==> outcome == NonPositiveDuration
      ensures ParseDuration(duration).Ok? && ParseDuration(duration).value > 0 && |reason| == 0 ==> outcome == MissingReason
      ensures outcome.Banned? <==> ParseDuration(duration).Ok? && ParseDuration(duration).value > 0 && |reason| > 0
      ensures !outcome.Banned? ==> bansData == old(bansData) && queue == old(queue) && persisted == old(persisted)
      ensures outcome.Banned? ==>
        var r := BanRecord(user.name, Moderator(mod.name, mod.id), ParseDuration(duration).value, now, Join(reason));
        && bansData == old(bansData)[server := old(bansData)[server][user.id := r]]
        && queue == old(queue) + [(now + r.duration, CaseOf(server, user.id, r))]
        && persisted == bansData
        && DescribeDuration(duration) == Ok(outcome.notice)
    {
      var parsed := ParseDuration(duration);
      if parsed.Err? {
        return BadDuration(parsed.error);
      }
      var durationSec := parsed.value;
      if durationSec <= 0 {
        return NonPositiveDuration;
      }
      if |reason| == 0 {
        return MissingReason;
      }
      PopulateBanData(server, user, mod, durationSec, reason, now);
      DescribeAgreesWithParse(duration);
      outcome := Banned(DescribeDuration(duration).value);
    }

    /** `tempban`: the server's map is created if missing, an already banned user is refused,
        and the rest is `BanNewUser`. */
    method Tempban(server: ServerId, user: Member, mod: Member, duration: string, reason: seq<string>, now: int)
      returns (outcome: TempbanOutcome)
      requires Valid()
      modifies this
      ensures Valid()
      ensures outcome.AlreadyBanned? <==> Has(old(bansData), (server, user.id))
      ensures !Has(old(bansData), (server, user.id)) && ParseDuration(duration).Err?
        ==> outcome == BadDuration(ParseDuration(duration).error)
      ensures !Has(old(bansData), (server, user.id)) && ParseDuration(duration).Ok? && ParseDuration(duration).value <= 0
        ==> outcome == NonPositiveDuration
      ensures !Has(old(bansData), (server, user.id)) && ParseDuration(duration).Ok? && ParseDuration(duration).value > 0 && |reason| == 0
        ==> outcome == MissingReason
      ensures outcome.Banned? <==>
        !Has(old(bansData), (server, user.id)) && ParseDuration(duration).Ok? && ParseDuration(duration).value > 0 && |reason| > 0
      ensures !outcome.Banned? ==>
        bansData == WithServer(old(bansData), server) && queue == old(queue) && persisted == old(persisted)
      ensures outcome.Banned? ==>
        var r := BanRecord(user.name, Moderator(mod.name, mod.id), ParseDuration(duration).value, now, Join(reason));
        && bansData == old(bansData)[server := WithServer(old(bansData), server)[server][user.id := r]]
        && queue == old(queue) + [(now + r.duration, CaseOf(server, user.id, r))]
        && persisted == bansData
        && DescribeDuration(duration) == Ok(outcome.notice)
    {
      ScheduledWithServer(multiset(queue), bansData, server);
      if server !in bansData {
        bansData := bansData[server := map[]];
      }
      if UserAlreadyBanned(server, user.id) {
        return AlreadyBanned;
      }
      outcome := BanNewUser(server, user, mod, duration, reason, now);
    }

    /** `get_user_by_name`: some user of the server whose stored name is `username`, or None
        if there is none (the source takes the first in dictionary order). */
    method GetUserByName(server: ServerId, username: string) returns (found: Option<UserId>)
      requires server in bansData
      ensures found.Some? ==> found.value in bansData[server] && bansData[server][found.value].name == username
      ensures found.None? <==> forall u | u in bansData[server] :: bansData[server][u].name != username
    {
      var matched := set u | u in bansData[server] && bansData[server][u].name == username;
      if matched != {} {
        var u :| u in matched;
        assert u in bansData[server] && bansData[server][u].name == username;
        found := Some(u);
      } else {
        forall u | u in bansData[server]
          ensures bansData[server][u].name != username
        {
          assert bansData[server][u].name == username ==> u in matched;
        }
        found := None;
      }
    }

    /** `remove_case`: drains the queue, keeps the events of other bans and puts them back. */
    method RemoveCase(userId: UserId, server: ServerId)
      modifies this`queue
      ensures forall e :: multiset(queue)[e] == if KeyOf(e) == (server, userId) then 0 else multiset(old(queue))[e]
    {
      var eventsToQueue: seq<Event> := [];
      while |queue| != 0
        invariant Drained(multiset(old(queue)), multiset(queue), multiset(eventsToQueue), (server, userId))
        decreases |queue|
      {
        ghost var q0, kept0 := multiset(queue), multiset(eventsToQueue);
        var event := Get();
        if !(userId == event.1.id && server == event.1.server) {
          eventsToQueue := eventsToQueue + [event];
        }
        DrainStep(multiset(old(queue)), q0, kept0, event, (server, userId));
      }
      var i := 0;
      while i < |eventsToQueue|
        invariant 0 <= i <= |eventsToQueue|
        invariant multiset(queue) == multiset(eventsToQueue[..i])
      {
        Put(eventsToQueue[i]);
        assert eventsToQueue[..i + 1] == eventsToQueue[..i] + [eventsToQueue[i]];
        i := i + 1;
      }
      assert eventsToQueue[..i] == eventsToQueue;
    }

    /** `unban`: finds the user by stored name, deletes the ban and cancels its unban. */
    method Unban(server: ServerId, username: string) returns (outcome: UnbanOutcome)
      requires Valid()
      modifies this
      ensures Valid()
      ensures server !in old(bansData) <==> outcome == ServerNotRegistered
      ensures server in old(bansData) ==>
        (outcome == NotTempBanned <==> forall u | u in old(bansData)[server] :: old(bansData)[server][u].name != username)
      ensures outcome.Unbanned? ==>
        && server in old(bansData) && outcome.id in old(bansData)[server]
        && old(bansData)[server][outcome.id].name == username
        && bansData == Without(old(bansData), (server, outcome.id))
        && (forall e :: multiset(queue)[e] == if KeyOf(e) == (server, outcome.id) then 0 else multiset(old(queue))[e])
        && persisted == bansData
      ensures !outcome.Unbanned? ==> bansData == old(bansData) && queue == old(queue) && persisted == old(persisted)
    {
      if server !in bansData {
        return ServerNotRegistered;
      }
      var userId := GetUserByName(server, username);
      if userId.None? {
        return NotTempBanned;
      }
      var id := userId.value;
      ghost var q0, data0 := multiset(queue), bansData;
      bansData := Without(bansData, (server, id));
      RemoveCase(id, server);
      ScheduledCancel(q0, multiset(queue), data0, (server, id));
      SaveBansData();
      outcome := Unbanned(id);
    }

    /** The lookup of `banfetch`: the stored ban of the user with that name, if any. */
    method BanFetch(server: ServerId, username: string) returns (outcome: FetchOutcome)
      ensures server !in bansData <==> outcome == ServerNotListed
      ensures server in bansData ==>
        (outcome == NotBanned <==> forall u | u in bansData[server] :: bansData[server][u].name != username)
      ensures outcome.Report? ==>
        && server in bansData && outcome.record.name == username
        && exists u | u in bansData[server] :: bansData[server][u] == outcome.record
    {
      if server !in bansData {
        return ServerNotListed;
      }
      var user := GetUserByName(server, username);
      if user.None? {
        return NotBanned;
      }
      outcome := Report(bansData[server][user.value]);
    }

    /** One pass of the `ban_scheduling` loop: the least pending unban is dispatched when it is
        due within five seconds, and put back unchanged otherwise. */
    method Tick(now: int) returns (outcome: TickOutcome)
      requires Valid()
      modifies this
      ensures Valid()
      ensures outcome.Idle? <==> old(queue) == []
      ensures outcome.Idle? ==> queue == old(queue) && bansData == old(bansData) && persisted == old(persisted)
      ensures !outcome.Idle? ==> IsLeast(outcome.event, old(queue))
      ensures outcome.Dispatched? ==>
        && Lag(outcome.event.0, now) < 5
        && Has(old(bansData), KeyOf(outcome.event))
        && multiset(queue) == multiset(old(queue)) - multiset{outcome.event}
        && bansData == Without(old(bansData), KeyOf(outcome.event))
        && persisted == bansData
      ensures outcome.Deferred? ==>
        && Lag(outcome.event.0, now) >= 5
        && multiset(queue) == multiset(old(queue))
        && bansData == old(bansData) && persisted == old(persisted)
    {
      if |queue| == 0 {
        return Idle;
      }
      ghost var q0 := multiset(queue);
      var next := Get();
      var nextTime, nextCase := next.0, next.1;
      if Lag(nextTime, now) < 5 {
        ScheduledDispatch(q0, bansData, next);
        bansData := Without(bansData, KeyOf(next));
        assert Scheduled(multiset(queue), bansData) by {
          assert multiset(queue) == q0 - multiset{next};
        }
        SaveBansData();
        outcome := Dispatched(next);
      } else {
        ghost var rest := queue;
        PostCase(nextCase, Some(nextTime));
        assert queue == rest + [next];
        assert multiset(queue) == multiset(rest) + multiset{next} == q0;
        outcome := Deferred(next);
      }
    }

    /** The drain when the cog is unloaded: every pending unban is discarded. */
    method Shutdown()
      modifies this`queue
      ensures queue == []
    {
      while |queue| != 0
        decreases |queue|
      {
        var _ := Get();
      }
    }
  }
}
