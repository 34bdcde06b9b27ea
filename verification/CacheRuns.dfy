/** Runs of the cached query service. The fine machine interleaves the steps of concurrent requests freely:
    a read of the store, the later fill of the cache, a write, the later purge. The coarse one performs each
    request as a whole, with the collector writing behind the service's back. */
module CacheRuns {
  import opened Text
  import opened Clock
  import opened Keyset
  import opened CloudEvents
  import opened Store
  import opened Subjects
  import opened QueryCache

  const TTL := 10 * SECOND

  /** The two queries share a key although some store answers them differently. */
  ghost predicate Clash(a: EventQuery, b: EventQuery) {
    CacheKey(a) == CacheKey(b) && exists db: Db :: WellFormed(db) && Fresh(db, a) != Fresh(db, b)
  }

  lemma KeyableNeverClash(a: EventQuery, b: EventQuery)
    requires Keyable(a) && Keyable(b)
    ensures !Clash(a, b)
  {
    hide Keyable, CacheKey, Fresh;
    forall db: Db | CacheKey(a) == CacheKey(b) && WellFormed(db) ensures Fresh(db, a) == Fresh(db, b) {
      SameKeySameAnswer(db, a, b);
    }
  }

  /** A store content and when it became current. */
  datatype Version = Version(db: Db, at: int)

  /** A cached answer, the query and the version it was read for, when it was read, and when it was added. */
  datatype Entry = Entry(query: EventQuery, events: seq<StoredEvent>, version: nat, readTime: int, addedAt: int)

  /** `pending` holds the answers threads have read and not yet added; `purged` is the version at the last purge. */
  datatype System = System(history: seq<Version>, cache: map<string, Entry>, pending: map<nat, Entry>, purged: nat,
                           now: int)

  datatype Action =
    | Tick(to: int)
    | StoreWrite(event: StoredEvent)
    | Purge
    | Evict(key: string)
    | Look(thread: nat, query: EventQuery)
    | Fill(thread: nat)

  predicate Servable(s: System, q: EventQuery) {
    CacheKey(q) in s.cache && s.now <= s.cache[CacheKey(q)].addedAt + TTL
  }

  /** An answer is served for ten seconds from when it was added. */
  lemma ServedForTenSeconds(s: System, q: EventQuery)
    ensures Servable(s, q) <==>
              exists e: Entry :: CacheKey(q) in s.cache && s.cache[CacheKey(q)] == e &&
                s.now - e.addedAt <= 10_000_000_000
  {
    hide CacheKey;
  }

  function Current(s: System): Db
    requires s.history != []
  {
    s.history[|s.history| - 1].db
  }

  ghost predicate Sane(s: System) {
    && s.history != []
    && (forall i :: 0 <= i < |s.history| ==> WellFormed(s.history[i].db) && s.history[i].at <= s.now)
    && s.purged < |s.history|
  }

  ghost function Next(s: System, a: Action): System
    requires Sane(s)
  {
    match a
    case Tick(t) => if t > s.now then s.(now := t) else s
    case StoreWrite(e) => s.(history := s.history + [Version(IngestInto(Current(s), e, s.now).db, s.now)])
    case Purge => s.(cache := map[], purged := |s.history| - 1)
    case Evict(key) => s.(cache := s.cache - {key})
    case Look(thread, q) =>
      if Servable(s, q) then s
      else s.(pending := s.pending[thread := Entry(q, Fresh(Current(s), q), |s.history| - 1, s.now, s.now)])
    case Fill(thread) =>
      if thread !in s.pending then s
      else
        var e := s.pending[thread].(addedAt := s.now);
        s.(cache := s.cache[CacheKey(e.query) := e], pending := s.pending - {thread})
  }

  /** The answer was read from the version it names while that version was current. */
  ghost predicate Genuine(s: System, e: Entry)
    requires Sane(s)
  {
    && e.version < |s.history|
    && e.events == Fresh(s.history[e.version].db, e.query)
    && e.readTime <= e.addedAt <= s.now
    && (forall i :: e.version < i < |s.history| ==> e.readTime <= s.history[i].at)
  }

  ghost predicate Inv(s: System) {
    && Sane(s)
    && (forall k :: k in s.cache ==> Genuine(s, s.cache[k]) && CacheKey(s.cache[k].query) == k)
    && (forall t :: t in s.pending ==> Genuine(s, s.pending[t]))
  }

  lemma NextKeepsInv(s: System, a: Action)
    requires Inv(s)
    ensures Inv(Next(s, a))
  {
    hide Fresh, CacheKey, IngestInto, WellFormed, Genuine, Servable;
    if a.StoreWrite? { IngestKeeps(Current(s), a.event, s.now); }
    var s' := Next(s, a);
    forall e | Genuine(s, e)
      ensures Genuine(s', e) && (a.Fill? ==> Genuine(s', e.(addedAt := s.now)))
    {
      GenuineStays(s, s', e);
    }
    if a.Look? { GenuineNow(s', a.query); }
  }

  /** More history and a later clock leave an answer genuine. */
  lemma GenuineStays(s: System, s': System, e: Entry)
    requires Sane(s) && Sane(s') && Genuine(s, e) && s.now <= s'.now
    requires |s.history| <= |s'.history| && s'.history[..|s.history|] == s.history
    requires forall i :: |s.history| <= i < |s'.history| ==> s'.history[i].at >= s.now
    ensures Genuine(s', e) && (s.now == s'.now ==> Genuine(s', e.(addedAt := s.now)))
  {
    hide Fresh, WellFormed;
    assert forall i :: 0 <= i < |s.history| ==> s'.history[i] == s'.history[..|s.history|][i];
  }

  lemma GenuineNow(s: System, q: EventQuery)
    requires Sane(s)
    ensures Genuine(s, Entry(q, Fresh(Current(s), q), |s.history| - 1, s.now, s.now))
  {
    hide Fresh, WellFormed;
  }

  ghost function Execute(start: System, actions: seq<Action>): System
    requires Inv(start)
    ensures Inv(Execute(start, actions))
  {
    if actions == [] then start
    else
      var before := Execute(start, actions[..|actions| - 1]);
      NextKeepsInv(before, actions[|actions| - 1]);
      Next(before, actions[|actions| - 1])
  }

  /** Whatever interleaves, a cached answer is the uncached answer to a query with the same key, and so to
      this query unless the two clash, on some version that was still current no longer ago than the cache
      lifetime plus the time its reader took to add it. */
  lemma BoundedStaleness(start: System, actions: seq<Action>, q: EventQuery)
    requires Inv(start) && Servable(Execute(start, actions), q)
    ensures var s := Execute(start, actions);
            var e := s.cache[CacheKey(q)];
            && e.version < |s.history| && CacheKey(e.query) == CacheKey(q)
            && e.events == Fresh(s.history[e.version].db, e.query)
            && (!Clash(q, e.query) ==> e.events == Fresh(s.history[e.version].db, q))
            && (e.version + 1 < |s.history| ==>
                  s.now - s.history[e.version + 1].at <= 10_000_000_000 + (e.addedAt - e.readTime))
  {
    hide Fresh, CacheKey, Next, Execute;
    var s := Execute(start, actions);
    var e := s.cache[CacheKey(q)];
    assert Genuine(s, e) && WellFormed(s.history[e.version].db);
  }

  /** A reader that adds its answer after a write and its purge leaves the old answer to be served: for any
      write that changes the answer, this interleaving serves an outdated one. */
  lemma LateFillServesOldAnswer(s: System, q: EventQuery, e: StoredEvent)
    requires Inv(s) && !Servable(s, q)
    requires Fresh(IngestInto(Current(s), e, s.now).db, q) != Fresh(Current(s), q)
    ensures Sane(Next(s, Look(0, q))) && Sane(Next(Next(s, Look(0, q)), StoreWrite(e)))
    ensures Sane(Next(Next(Next(s, Look(0, q)), StoreWrite(e)), Purge))
    ensures var late := Next(Next(Next(Next(s, Look(0, q)), StoreWrite(e)), Purge), Fill(0));
            Sane(late) && Servable(late, q) && late.cache[CacheKey(q)].events != Fresh(Current(late), q)
  {
    hide Fresh, CacheKey, IngestInto, WellFormed, Servable, Genuine;
    var s1 := Next(s, Look(0, q));
    NextKeepsInv(s, Look(0, q));
    NextKeepsInv(s1, StoreWrite(e));
    var s2 := Next(s1, StoreWrite(e));
    NextKeepsInv(s2, Purge);
    var s3 := Next(s2, Purge);
    NextKeepsInv(s3, Fill(0));
    assert Current(s3) == IngestInto(Current(s), e, s.now).db;
    var late := Next(s3, Fill(0));
    assert late.cache[CacheKey(q)].events == Fresh(Current(s), q);
    ServableNow(late, q);
  }

  lemma ServableNow(s: System, q: EventQuery)
    requires CacheKey(q) in s.cache && s.cache[CacheKey(q)].addedAt == s.now
    ensures Servable(s, q)
  {
  }

  // When every write has been purged: action j is a purge, and no write follows it.

  ghost predicate LastPurge(actions: seq<Action>, j: nat) {
    j < |actions| && actions[j].Purge? && forall i :: j < i < |actions| ==> !actions[i].StoreWrite?
  }

  /** The same read of the store, whenever it was added. */
  predicate SameRead(a: Entry, b: Entry) {
    a == b.(addedAt := a.addedAt)
  }

  /** The answer was read from the current version, or by a thread that was between read and fill back purging. */
  ghost predicate CurrentOrLate(s: System, purging: System, e: Entry) {
    e.version == |s.history| - 1 || exists t :: t in purging.pending && SameRead(purging.pending[t], e)
  }

  ghost predicate AllCurrentOrLate(s: System, purging: System) {
    && (forall k :: k in s.cache ==> CurrentOrLate(s, purging, s.cache[k]))
    && (forall t :: t in s.pending ==> CurrentOrLate(s, purging, s.pending[t]))
  }

  lemma LateStep(s: System, purging: System, a: Action)
    requires Inv(s) && AllCurrentOrLate(s, purging) && !a.StoreWrite?
    ensures AllCurrentOrLate(Next(s, a), purging) && Next(s, a).history == s.history
  {
    hide Fresh, CacheKey, Servable, WellFormed;
  }

  lemma PurgeStep(s: System)
    requires Inv(s)
    ensures AllCurrentOrLate(Next(s, Purge), s) && Next(s, Purge).history == s.history
  {
    forall t | t in s.pending ensures CurrentOrLate(s, s, s.pending[t]) {
      assert SameRead(s.pending[t], s.pending[t]);
    }
  }

  lemma {:induction false} SincePurge(start: System, actions: seq<Action>, j: nat)
    requires Inv(start) && LastPurge(actions, j)
    ensures AllCurrentOrLate(Execute(start, actions), Execute(start, actions[..j]))
    decreases |actions|
  {
    hide Next, Inv, AllCurrentOrLate;
    var init, last := actions[..|actions| - 1], actions[|actions| - 1];
    if j == |actions| - 1 {
      PurgeStep(Execute(start, init));
    } else {
      SincePurge(start, init, j);
      assert init[..j] == actions[..j] && init[j] == actions[j];
      LateStep(Execute(start, init), Execute(start, actions[..j]), last);
    }
  }

  /** Exactly which served answers are outdated, however reads, fills, purges and writes interleave, once every
      write has been purged: those read, by a thread between read and fill at the last purge, from a version
      that answers otherwise. */
  lemma OutdatedIff(start: System, actions: seq<Action>, j: nat, q: EventQuery)
    requires Inv(start) && LastPurge(actions, j) && Servable(Execute(start, actions), q)
    requires !Clash(q, Execute(start, actions).cache[CacheKey(q)].query)
    ensures var s, purging := Execute(start, actions), Execute(start, actions[..j]);
            var e := s.cache[CacheKey(q)];
            && e.version < |s.history|
            && (e.events != Fresh(Current(s), q) <==>
                  && (exists t :: t in purging.pending && SameRead(purging.pending[t], e))
                  && Fresh(s.history[e.version].db, q) != Fresh(Current(s), q))
  {
    hide Fresh, CacheKey, Next, Execute, Clash;
    BoundedStaleness(start, actions, q);
    SincePurge(start, actions, j);
  }

  // Whole requests.

  datatype Request =
    | Wait(to: int)
    | Ask(query: EventQuery)
    | ServiceIngest(event: StoredEvent)
    | CollectorIngest(event: StoredEvent)
    | Forget(key: string)

  ghost function Perform(s: System, r: Request): (s': System)
    requires Inv(s)
    ensures Inv(s')
  {
    match r
    case Wait(t) => NextKeepsInv(s, Tick(t)); Next(s, Tick(t))
    case Forget(key) => NextKeepsInv(s, Evict(key)); Next(s, Evict(key))
    case CollectorIngest(e) => NextKeepsInv(s, StoreWrite(e)); Next(s, StoreWrite(e))
    case ServiceIngest(e) =>
      NextKeepsInv(s, StoreWrite(e));
      var written := Next(s, StoreWrite(e));
      if IngestInto(Current(s), e, s.now).outcome.Ok() then
        NextKeepsInv(written, Purge);
        Next(written, Purge)
      else written
    case Ask(q) =>
      NextKeepsInv(s, Look(0, q));
      var looked := Next(s, Look(0, q));
      NextKeepsInv(looked, Fill(0));
      Next(looked, Fill(0))
  }

  /** What a query is answered in a state. */
  ghost function Answer(s: System, q: EventQuery): seq<StoredEvent>
    requires Inv(s)
  {
    if Servable(s, q) then s.cache[CacheKey(q)].events else Fresh(Current(s), q)
  }

  /** Nobody is between read and fill, and every entry was added when read, since the last purge. */
  ghost predicate Settled(s: System) {
    && Inv(s) && s.pending == map[]
    && forall k :: k in s.cache ==> s.cache[k].addedAt == s.cache[k].readTime && s.purged <= s.cache[k].version
  }

  /** Every version since the last purge holds the same events. */
  ghost predicate Steady(s: System)
    requires Sane(s)
  {
    forall i :: s.purged <= i < |s.history| ==> s.history[i].db == Current(s)
  }

  lemma PerformKeeps(s: System, r: Request)
    requires Settled(s)
    ensures Settled(Perform(s, r))
    ensures Steady(s) && !r.CollectorIngest? ==> Steady(Perform(s, r))
  {
    hide Fresh, CacheKey, Genuine, Servable, WellFormed, ValidStored, IntegrityHash;
    if r.Ask? {
      var looked := Next(s, Look(0, r.query));
      assert looked.pending - {0} == map[];
    }
  }

  ghost function PerformAll(start: System, requests: seq<Request>): System
    requires Settled(start)
    ensures Settled(PerformAll(start, requests))
  {
    if requests == [] then start
    else
      var before := PerformAll(start, requests[..|requests| - 1]);
      PerformKeeps(before, requests[|requests| - 1]);
      Perform(before, requests[|requests| - 1])
  }

  /** With the collector writing directly, every answer is the uncached one, to this query or to one with the
      same key, on a version that no service write has superseded and that was still current within the last
      ten seconds. */
  lemma AnswersAreRecent(start: System, requests: seq<Request>, q: EventQuery) returns (v: nat, asked: EventQuery)
    requires Settled(start)
    ensures var s := PerformAll(start, requests);
            && s.purged <= v < |s.history|
            && (asked == q || AskedFor(s, asked)) && CacheKey(asked) == CacheKey(q)
            && Answer(s, q) == Fresh(s.history[v].db, asked)
            && (!Clash(q, asked) ==> Answer(s, q) == Fresh(s.history[v].db, q))
            && (v + 1 < |s.history| ==> s.now - s.history[v + 1].at <= 10_000_000_000)
  {
    hide Fresh, CacheKey, PerformAll, Perform;
    var s := PerformAll(start, requests);
    if Servable(s, q) {
      var e := s.cache[CacheKey(q)];
      assert Genuine(s, e) && WellFormed(s.history[e.version].db);
      v, asked := e.version, e.query;
    } else {
      v, asked := |s.history| - 1, q;
    }
  }

  /** Some cached answer was read for the query. */
  ghost predicate AskedFor(s: System, q: EventQuery) {
    exists k :: k in s.cache && s.cache[k].query == q
  }

  /** The state a service starts in: an empty store and an empty cache. */
  const NEW_SERVICE := System([Version(map[], 0)], map[], map[], 0, 0)

  lemma NewServiceIsSettled()
    ensures Settled(NEW_SERVICE) && Steady(NEW_SERVICE)
  {
  }

  /** No write bypasses the service, and only admitted queries are asked. */
  ghost predicate Serves(requests: seq<Request>, admits: EventQuery -> bool) {
    forall i :: 0 <= i < |requests| ==>
      !requests[i].CollectorIngest? && (requests[i].Ask? ==> admits(requests[i].query))
  }

  lemma {:induction false} SteadyThroughout(start: System, requests: seq<Request>, admits: EventQuery -> bool)
    requires Settled(start) && Steady(start) && Serves(requests, admits)
    requires forall q :: AskedFor(start, q) ==> admits(q)
    ensures Steady(PerformAll(start, requests))
    ensures forall q :: AskedFor(PerformAll(start, requests), q) ==> admits(q)
  {
    hide Perform, Steady, Settled, AskedFor;
    if requests != [] {
      var before := PerformAll(start, requests[..|requests| - 1]);
      SteadyThroughout(start, requests[..|requests| - 1], admits);
      PerformKeeps(before, requests[|requests| - 1]);
      PerformAsks(before, requests[|requests| - 1]);
    }
  }

  lemma PerformAsks(s: System, r: Request)
    requires Settled(s)
    ensures forall q :: AskedFor(Perform(s, r), q) ==> AskedFor(s, q) || (r.Ask? && r.query == q)
  {
    hide Fresh, CacheKey, Genuine, Servable, WellFormed, ValidStored, IntegrityHash;
  }

  /** When all writes go through the service and no two admitted queries clash, every answer is the uncached
      one on the current store, with any evictions and expiries. */
  lemma AnswersAreCurrent(start: System, requests: seq<Request>, q: EventQuery, admits: EventQuery -> bool)
    requires Settled(start) && Steady(start) && Serves(requests, admits) && admits(q)
    requires forall a :: AskedFor(start, a) ==> admits(a)
    requires forall a, b :: admits(a) && admits(b) ==> !Clash(a, b)
    ensures Answer(PerformAll(start, requests), q) == Fresh(Current(PerformAll(start, requests)), q)
  {
    hide Fresh, Perform, Answer, PerformAll, AskedFor, Clash;
    SteadyThroughout(start, requests, admits);
    var v, asked := AnswersAreRecent(start, requests, q);
  }

  /** So the cache is coherent for queries whose key says everything about them. */
  lemma CacheIsCoherent(start: System, requests: seq<Request>, q: EventQuery)
    requires Settled(start) && Steady(start) && Serves(requests, Keyable) && Keyable(q)
    requires forall a :: AskedFor(start, a) ==> Keyable(a)
    ensures Answer(PerformAll(start, requests), q) == Fresh(Current(PerformAll(start, requests)), q)
  {
    hide Keyable, Clash, AskedFor, Steady, Settled, PerformAll, Answer, Fresh;
    forall a, b | Keyable(a) && Keyable(b) ensures !Clash(a, b) { KeyableNeverClash(a, b); }
    AnswersAreCurrent(start, requests, q, Keyable);
  }

  /** Two queries that share a key but not an answer: the second is served the first one's events. */
  lemma SharedKeyServesWrongAnswer(s: System, a: EventQuery, b: EventQuery)
    requires Inv(s) && !Servable(s, a) && CacheKey(a) == CacheKey(b)
    requires Fresh(Current(s), a) != Fresh(Current(s), b)
    ensures var asked := Perform(s, Ask(a));
            Servable(asked, b) && Answer(asked, b) != Fresh(Current(asked), b)
  {
    hide Fresh, CacheKey, IngestInto, WellFormed, Genuine;
    var looked := Next(s, Look(0, a));
    assert looked.pending[0].events == Fresh(Current(s), a);
  }

  /** A service whose cache is empty and whose clock has not started holds the store. */
  ghost predicate Holds(s: System, db: Db) {
    Settled(s) && Current(s) == db && s.cache == map[] && s.now == 0
  }

  /** Every well-formed store can be built by writing its rows through a new service. */
  lemma {:induction false} BuildStore(start: System, db: Db) returns (writes: seq<Request>)
    requires Holds(start, map[]) && WellFormed(db)
    ensures forall i :: 0 <= i < |writes| ==> writes[i].ServiceIngest?
    ensures Holds(PerformAll(start, writes), db)
    decreases |db|
  {
    if db == map[] {
      writes := [];
    } else {
      var id :| id in db;
      FewerRows(db, id);
      SmallerIsWellFormed(db, id);
      hide Holds, WellFormed;
      var init := BuildStore(start, db - {id});
      writes := init + [ServiceIngest(db[id])];
      OneRowMore(start, init, db, id);
    }
  }

  lemma OneRowMore(start: System, init: seq<Request>, db: Db, id: string)
    requires Settled(start) && id in db && WellFormed(db) && Holds(PerformAll(start, init), db - {id})
    ensures Holds(PerformAll(start, init + [ServiceIngest(db[id])]), db)
  {
    SmallerIsWellFormed(db, id);
    hide Settled, Perform, PerformAll, WellFormed, ValidStored;
    PerformWrite(PerformAll(start, init), db[id]);
    PerformSnoc(start, init, ServiceIngest(db[id]));
    assert (db - {id})[id := db[id]] == db;
  }

  lemma SmallerIsWellFormed(db: Db, id: string)
    requires WellFormed(db) && id in db
    ensures WellFormed(db - {id}) && db[id].id == id && ValidStored(db[id]) && !db[id].integrity.Unset?
  {
    hide ValidStored;
  }

  lemma FewerRows(db: Db, id: string)
    requires id in db
    ensures |db - {id}| < |db|
  {
    assert (db - {id}).Keys == db.Keys - {id};
    assert |db.Keys - {id}| < |db.Keys|;
  }

  lemma PerformSnoc(start: System, requests: seq<Request>, r: Request)
    requires Settled(start)
    ensures PerformAll(start, requests + [r]) == Perform(PerformAll(start, requests), r)
  {
    hide Perform;
    assert (requests + [r])[..|requests + [r]| - 1] == requests;
  }

  lemma PerformWrite(s: System, e: StoredEvent)
    requires Settled(s) && s.cache == map[] && s.now == 0
    requires ValidStored(e) && !e.integrity.Unset? && e.id !in Current(s)
    ensures Holds(Perform(s, ServiceIngest(e)), Current(s)[e.id := e])
  {
    NewRow(Current(s), e);
    PerformKeeps(s, ServiceIngest(e));
    NextKeepsInv(s, StoreWrite(e));
    hide IngestInto, Inv, WellFormed, Settled;
    var written := Next(s, StoreWrite(e));
    assert Current(written) == Current(s)[e.id := e];
    assert Perform(s, ServiceIngest(e)) == Next(written, Purge);
  }

  lemma NewRow(db: Db, e: StoredEvent)
    requires ValidStored(e) && !e.integrity.Unset? && e.id !in db
    ensures IngestInto(db, e, 0).db == db[e.id := e] && IngestInto(db, e, 0).outcome == Accepted
  {
    hide ValidStored;
  }

  /** All runs of a new service answer right, through its cache, exactly when no two queries it admits share a
      key and an answer they disagree on. */
  lemma AnswersRightIff(admits: EventQuery -> bool)
    ensures Settled(NEW_SERVICE)
    ensures (forall requests, q | Serves(requests, admits) && admits(q) :: AnsweredRight(requests, q)) <==>
              forall a, b :: admits(a) && admits(b) ==> !Clash(a, b)
  {
    NewServiceIsSettled();
    hide Settled, Steady, Clash, CacheKey, Fresh, Answer, PerformAll;
    if forall a, b :: admits(a) && admits(b) ==> !Clash(a, b) {
      forall requests, q | Serves(requests, admits) && admits(q) ensures AnsweredRight(requests, q) {
        AnswersAreCurrent(NEW_SERVICE, requests, q, admits);
      }
    } else {
      var a, b :| admits(a) && admits(b) && Clash(a, b);
      var requests := WrongRun(a, b);
      assert Serves(requests, admits);
    }
  }

  ghost predicate AnsweredRight(requests: seq<Request>, q: EventQuery) {
    NewServiceIsSettled();
    Answer(PerformAll(NEW_SERVICE, requests), q) == Fresh(Current(PerformAll(NEW_SERVICE, requests)), q)
  }

  /** The run that shows it: write the rows, ask for one of the two, and the other is answered wrongly. */
  lemma WrongRun(a: EventQuery, b: EventQuery) returns (requests: seq<Request>)
    requires Clash(a, b)
    ensures forall i :: 0 <= i < |requests| ==> requests[i].ServiceIngest? || requests[i] == Ask(a)
    ensures !AnsweredRight(requests, b)
  {
    var db: Db :| WellFormed(db) && Fresh(db, a) != Fresh(db, b);
    NewServiceIsSettled();
    hide Settled, CacheKey, Fresh, Answer, PerformAll, Perform, WellFormed, Servable;
    assert Holds(NEW_SERVICE, map[]);
    var writes := BuildStore(NEW_SERVICE, db);
    requests := writes + [Ask(a)];
    AskAfter(writes, a, b);
  }

  lemma AskAfter(writes: seq<Request>, a: EventQuery, b: EventQuery)
    requires CacheKey(a) == CacheKey(b) && Settled(NEW_SERVICE) && PerformAll(NEW_SERVICE, writes).cache == map[]
    requires var db := Current(PerformAll(NEW_SERVICE, writes)); Fresh(db, a) != Fresh(db, b)
    ensures !AnsweredRight(writes + [Ask(a)], b)
  {
    hide Inv, CacheKey, Fresh, Answer, PerformAll, Perform, WellFormed;
    PerformSnoc(NEW_SERVICE, writes, Ask(a));
    SharedKeyServesWrongAnswer(PerformAll(NEW_SERVICE, writes), a, b);
  }

  // Which subjects clash.

  /** A subject whose parts all restrict a query, and can be found as they are written. */
  predicate Specific(s: Subject) {
    && s.app != "" && s.environment != "" && s.cluster != ""
    && Trim(s.environment) == s.environment && Trim(s.cluster) == s.cluster
  }

  /** The query has no text filter and a window that some instant is in. */
  predicate Plain(q: EventQuery) {
    Trim(q.text) == "" && (q.from == 0 || q.to == 0 || q.from <= q.to)
  }

  /** A stored event of a subject, in a query's window. */
  function RowAt(s: Subject, q: EventQuery): StoredEvent {
    var time := if q.from != 0 then q.from else if q.to != 0 then q.to else 1;
    Seal(StoredEvent("e", "deploy", "ci", s.app, time,
                     map["namespace" := Str(s.environment), "cluster" := Str(s.cluster)],
                     Payload("{}", map[]), Unset, 1))
  }

  lemma RowIsStorable(s: Subject, q: EventQuery)
    ensures WellFormed(map["e" := RowAt(s, q)])
  {
  }

  lemma RowMatches(s: Subject, q: EventQuery)
    requires Plain(q) && Specific(s)
    ensures Matches(RowAt(s, q), TimelineFor(q)) <==>
              || q.subject.app == ""
              || (&& s.app == q.subject.app
                  && (q.subject.cluster == "" || q.subject.cluster == s.cluster)
                  && (q.subject.environment == "" || q.subject.environment == s.environment))
  {
    hide Trim, IntegrityHash;
    var e := RowAt(s, q);
    assert ExtensionString(e.ext, "cluster") == s.cluster && ExtensionString(e.ext, "namespace") == s.environment;
    assert !ExtensionBool(e.ext, "supporting_observation");
  }

  lemma FreshOfOne(s: Subject, q: EventQuery, p: EventQuery)
    requires Trim(p.text) == ""
    ensures WellFormed(map["e" := RowAt(s, q)])
    ensures Fresh(map["e" := RowAt(s, q)], p) == if Matches(RowAt(s, q), TimelineFor(p)) then [RowAt(s, q)] else []
  {
    RowIsStorable(s, q);
    hide Matches, RowAt, Trim, ValidStored;
    var db: Db := map["e" := RowAt(s, q)];
    var rows := Rows(db, TimelineFor(p));
    RowsKeyed(db, TimelineFor(p));
    var all := Listing(Rest(rows, EventKey, None), EventKey);
    ListingLength(all, Rest(rows, EventKey, None), EventKey);
    assert Rest(rows, EventKey, None) == rows;
    if Matches(RowAt(s, q), TimelineFor(p)) {
      assert "e" in db && db["e"] in rows;
      assert rows == {RowAt(s, q)};
      assert all[0] in rows;
      assert all == [RowAt(s, q)];
    } else {
      assert rows == {};
    }
  }

  /** A query for a specific subject answers differently from the same query for any other subject, on some
      store with a single row. */
  lemma SubjectsTellApart(q: EventQuery, other: Subject) returns (db: Db)
    requires Plain(q) && Specific(q.subject) && other != q.subject
    ensures WellFormed(db) && Fresh(db, q) != Fresh(db, q.(subject := other))
  {
    var s, p := q.subject, q.(subject := other);
    var x: Subject := s;
    RowMatches(s, q);
    RowMatches(s, p);
    if Matches(RowAt(s, p), TimelineFor(p)) {
      x := if other.app == "" then s.(app := s.app + ['x'])
           else if other.cluster == "" then s.(cluster := s.cluster + ['x'])
           else s.(environment := s.environment + ['x']);
      LongerIsTrimmed(s.cluster);
      LongerIsTrimmed(s.environment);
      assert |x.app| != |s.app| || |x.cluster| != |s.cluster| || |x.environment| != |s.environment|;
      RowMatches(x, q);
      RowMatches(x, p);
    }
    hide Matches, Fresh, RowAt, Trim;
    FreshOfOne(x, q, q);
    FreshOfOne(x, q, p);
    assert RowAt(x, q) == RowAt(x, p) by { SameRow(x, q, other); }
    db := map["e" := RowAt(x, q)];
  }

  lemma SameRow(s: Subject, q: EventQuery, other: Subject)
    ensures RowAt(s, q.(subject := other)) == RowAt(s, q)
  {
  }

  lemma LongerIsTrimmed(s: string)
    requires Trim(s) == s
    ensures Trim(s + ['x']) == s + ['x']
  {
    assert (s + ['x'])[0] == if s == "" then 'x' else s[0];
    assert (s + ['x'])[|s|] == 'x';
  }

  /** The specific subject of a request is served the events of another request's subject by some run, through
      the shared key, exactly when a pipe stands in its application, in its environment, or in its cluster
      before the first colon. */
  lemma SubjectClashesIff(q: EventQuery)
    requires Plain(q) && Specific(q.subject) && Receivable(q.subject)
    ensures (exists s: Subject :: s != q.subject && Receivable(s) && Clash(q.(subject := s), q)) <==>
              Ambiguous(q.subject)
  {
    hide Fresh, CacheKey, Ambiguous, Receivable;
    SubjectKeySharedIff(q);
    if Ambiguous(q.subject) {
      var s: Subject :| s != q.subject && Receivable(s) && CacheKey(q.(subject := s)) == CacheKey(q);
      var db := SubjectsTellApart(q, s);
      assert Clash(q.(subject := s), q);
    }
  }
}
