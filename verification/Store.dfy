/** The append-only event store: check-then-insert ingestion, batch posting, and the filtered, ordered,
    keyset-paged timeline query. */
module Store {
  import opened Text
  import opened Keyset
  import opened CloudEvents

  type Db = map<string, StoredEvent>

  datatype Outcome = Accepted | Duplicate | Conflict | Invalid {
    predicate Ok() { Accepted? || Duplicate? }
  }

  /** The store after a write, what the caller is told, and the ingestion time reported. */
  datatype Ingested = Ingested(db: Db, outcome: Outcome, at: int)

  predicate ValidStored(e: StoredEvent) {
    e.id != "" && e.source != "" && e.typ != "" && e.data.raw != "" && e.data.raw != "null" && e.time != 0
  }

  function Seal(e: StoredEvent): StoredEvent {
    if e.integrity.Unset? then e.(integrity := IntegrityHash(e)) else e
  }

  function IngestInto(db: Db, e: StoredEvent, now: int): (r: Ingested)
  {
    if !ValidStored(e) then Ingested(db, Invalid, 0)
    else
      var sealed := Seal(e);
      if e.id in db then
        if db[e.id].integrity == sealed.integrity then Ingested(db, Duplicate, db[e.id].ingestedAt)
        else Ingested(db, Conflict, 0)
      else
        Ingested(db[e.id := if sealed.ingestedAt == 0 then sealed.(ingestedAt := now) else sealed], Accepted, now)
  }

  // Append-only, over every run of writes.

  /** Everything stored in `db` is stored unchanged in `later`. */
  ghost predicate Extends(db: Db, later: Db) {
    forall id :: id in db ==> id in later && later[id] == db[id]
  }

  lemma ExtendsTransitive(a: Db, b: Db, c: Db)
    requires Extends(a, b) && Extends(b, c)
    ensures Extends(a, c)
  {
  }

  ghost predicate WellFormed(db: Db) {
    forall id :: id in db ==> db[id].id == id && ValidStored(db[id]) && !db[id].integrity.Unset?
  }

  /** Every stored hash is the hash of the stored content. */
  ghost predicate Verifiable(db: Db) {
    forall id :: id in db ==> db[id].integrity == IntegrityHash(db[id])
  }

  /** The write came through the API parser or the collector: its hash is its own, or left to the store. */
  predicate Honest(e: StoredEvent) {
    e.integrity.Unset? || e.integrity == IntegrityHash(e)
  }

  datatype Write = Write(event: StoredEvent, now: int)

  function IngestAll(db: Db, writes: seq<Write>): Db {
    if writes == [] then db
    else IngestInto(IngestAll(db, writes[..|writes| - 1]), writes[|writes| - 1].event, writes[|writes| - 1].now).db
  }

  /** Over every run of writes nothing stored is lost or altered, rows stay keyed by their own id, and a
      store of verifiable rows stays verifiable while every writer is honest. */
  lemma {:induction false} AppendOnlyRun(db: Db, writes: seq<Write>)
    ensures Extends(db, IngestAll(db, writes))
    ensures WellFormed(db) ==> WellFormed(IngestAll(db, writes))
    ensures Verifiable(db) && (forall i :: 0 <= i < |writes| ==> Honest(writes[i].event)) ==>
              Verifiable(IngestAll(db, writes))
  {
    if writes != [] {
      var before, last := writes[..|writes| - 1], writes[|writes| - 1];
      AppendOnlyRun(db, before);
      IngestKeeps(IngestAll(db, before), last.event, last.now);
    }
  }

  lemma IngestKeeps(db: Db, e: StoredEvent, now: int)
    ensures Extends(db, IngestInto(db, e, now).db)
    ensures WellFormed(db) ==> WellFormed(IngestInto(db, e, now).db)
    ensures Verifiable(db) && Honest(e) ==> Verifiable(IngestInto(db, e, now).db)
  {
    assert forall at :: IntegrityHash(Seal(e).(ingestedAt := at)) == IntegrityHash(e);
    hide IntegrityHash, ValidStored;
  }

  lemma IngestGrows(db: Db, e: StoredEvent, now: int)
    ensures |IngestInto(db, e, now).db| == |db| + (if IngestInto(db, e, now).outcome.Accepted? then 1 else 0)
  {
    hide ValidStored, Seal;
    var db' := IngestInto(db, e, now).db;
    if IngestInto(db, e, now).outcome.Accepted? { OneKeyMore(db, e.id, db'[e.id]); }
  }

  lemma OneKeyMore<V>(m: map<string, V>, key: string, v: V)
    requires key !in m
    ensures |m[key := v]| == |m| + 1
  {
    assert m[key := v].Keys == m.Keys + {key};
  }

  lemma OutcomeIgnoresClock(db: Db, e: StoredEvent, now: int, now': int)
    ensures IngestInto(db, e, now).outcome == IngestInto(db, e, now').outcome
  {
  }

  lemma IngestStores(db: Db, e: StoredEvent, now: int)
    requires IngestInto(db, e, now).outcome.Ok()
    ensures e.id in IngestInto(db, e, now).db && IngestInto(db, e, now).db[e.id].integrity == Seal(e).integrity
  {
  }

  /** Once a write has been answered, every later store answers it the same way, except that "accepted"
      has become "duplicate", and keeps its rows. */
  lemma IngestAgain(db: Db, e: StoredEvent, now: int, later: Db, now': int)
    requires Extends(IngestInto(db, e, now).db, later)
    ensures var first, again := IngestInto(db, e, now), IngestInto(later, e, now');
            && again.db == later
            && again.outcome == (if first.outcome.Accepted? then Duplicate else first.outcome)
  {
  }

  // The same, member by member.

  /** What a write is answered and what it leaves: an event without one of its required members is invalid; an ID
      the store has is a duplicate with the same hash and a conflict with another one; and a new event is kept
      as it came, with its own hash if it brought none, and dated unless it was. */
  lemma AnswerMeans(db: Db, e: StoredEvent, now: int)
    ensures var r := IngestInto(db, e, now);
            var hash := if e.integrity == Unset then IntegrityHash(e) else e.integrity;
            && (r.outcome == Invalid <==>
                  e.id == "" || e.source == "" || e.typ == "" || e.data.raw in {"", "null"} || e.time == 0)
            && (r.outcome != Invalid ==>
                  && (r.outcome == Accepted <==> e.id !in db)
                  && (r.outcome == Duplicate <==> e.id in db && db[e.id].integrity == hash)
                  && (r.outcome == Conflict <==> e.id in db && db[e.id].integrity != hash))
            && (r.outcome == Duplicate ==> r.at == db[e.id].ingestedAt)
            && (r.outcome != Accepted ==> r.db == db)
            && (r.outcome == Accepted ==>
                  && r.at == now
                  && r.db == db[e.id := StoredEvent(e.id, e.typ, e.source, e.subject, e.time, e.ext, e.data, hash,
                                                    if e.ingestedAt == 0 then now else e.ingestedAt)])
  {
    hide IntegrityHash;
  }

  /** A posted body that is accepted is found from then on under its own ID, member for member; one that is
      recognised agrees with what was found there before. */
  lemma PostedIsFound(db: Db, raw: RawEvent, now: int, later: Db)
    requires ParseEvent(raw, now).Some? && Verifiable(db)
    requires var r := IngestInto(db, ParseEvent(raw, now).value, now); r.outcome.Ok() && Extends(r.db, later)
    ensures raw.id in later
    ensures var row := later[raw.id];
            && row.id == raw.id && row.source == raw.source && row.typ == raw.typ && row.subject == raw.subject
            && row.data == raw.data && row.time == (if raw.time == 0 then now else raw.time)
            && row.ext.Keys == raw.ext.Keys
            && forall k :: k in row.ext && k in raw.ext ==> SameValue(row.ext[k], raw.ext[k])
    ensures raw.id !in db ==>
              later[raw.id].ext == raw.ext && (now != 0 ==> later[raw.id].ingestedAt == now)
  {
    var e := ParseEvent(raw, now).value;
    AnswerMeans(db, e, now);
    hide IngestInto;
    if raw.id in db {
      hide IntegrityHash;
      HashesAgreeIff(db[raw.id], e);
    }
  }

  // Posting a batch: stop at the first event that is not accepted or duplicate.

  /** `stopped` is how many events went through; `outcome` is that of the one that stopped the batch. */
  datatype Posted = Posted(db: Db, stopped: nat, outcome: Outcome)

  function Post(db: Db, batch: seq<StoredEvent>, clock: seq<int>): (r: Posted)
    requires |clock| == |batch|
    ensures r.stopped <= |batch|
    ensures r.outcome.Ok() <==> r.stopped == |batch|
    decreases |batch|
  {
    if batch == [] then Posted(db, 0, Accepted)
    else
      var r := IngestInto(db, batch[0], clock[0]);
      if !r.outcome.Ok() then Posted(r.db, 0, r.outcome)
      else
        var rest := Post(r.db, batch[1..], clock[1..]);
        rest.(stopped := rest.stopped + 1)
  }

  /** Posting the rest of a batch, one event on. */
  lemma PostStep(db: Db, batch: seq<StoredEvent>, clock: seq<int>, i: nat)
    requires |clock| == |batch| && i < |batch|
    ensures var r := IngestInto(db, batch[i], clock[i]);
            Post(db, batch[i..], clock[i..]) ==
              if !r.outcome.Ok() then Posted(r.db, 0, r.outcome)
              else var rest := Post(r.db, batch[i + 1..], clock[i + 1..]); rest.(stopped := rest.stopped + 1)
  {
    hide IngestInto;
    assert batch[i..][1..] == batch[i + 1..] && clock[i..][1..] == clock[i + 1..];
  }

  function Writes(batch: seq<StoredEvent>, clock: seq<int>, k: nat): (writes: seq<Write>)
    requires k <= |batch| == |clock|
    ensures |writes| == k && forall i :: 0 <= i < k ==> writes[i] == Write(batch[i], clock[i])
  {
    seq(k, i requires 0 <= i < k => Write(batch[i], clock[i]))
  }

  /** The outcome of writing event i after those before it. */
  function OutcomeAt(db: Db, batch: seq<StoredEvent>, clock: seq<int>, i: nat): Outcome
    requires |batch| == |clock| && i < |batch|
  {
    IngestInto(IngestAll(db, Writes(batch, clock, i)), batch[i], clock[i]).outcome
  }

  /** A post writes the events in order up to the first that is invalid or in conflict, whose outcome it reports. */
  lemma PostMeans(db: Db, batch: seq<StoredEvent>, clock: seq<int>)
    requires |clock| == |batch|
    ensures var r := Post(db, batch, clock);
            && r.db == IngestAll(db, Writes(batch, clock, r.stopped))
            && (forall i :: 0 <= i < r.stopped ==> OutcomeAt(db, batch, clock, i) in {Accepted, Duplicate})
            && (r.stopped < |batch| ==>
                  r.outcome == OutcomeAt(db, batch, clock, r.stopped) && r.outcome in {Invalid, Conflict})
            && (r.stopped == |batch| ==> r.outcome == Accepted)
  {
    assert batch[0..] == batch && clock[0..] == clock;
    hide Post, OutcomeAt;
    PostFrom(db, batch, clock, 0);
  }

  lemma {:induction false} PostFrom(db: Db, batch: seq<StoredEvent>, clock: seq<int>, i: nat)
    requires |clock| == |batch| && i <= |batch|
    ensures var r := Post(IngestAll(db, Writes(batch, clock, i)), batch[i..], clock[i..]);
            var end := i + r.stopped;
            && r.db == IngestAll(db, Writes(batch, clock, end))
            && (forall k :: i <= k < end ==> OutcomeAt(db, batch, clock, k) in {Accepted, Duplicate})
            && (end < |batch| ==> r.outcome == OutcomeAt(db, batch, clock, end) && r.outcome in {Invalid, Conflict})
            && (end == |batch| ==> r.outcome == Accepted)
    decreases |batch| - i
  {
    hide IngestInto, Post, IngestAll, Writes, OutcomeAt;
    var before := IngestAll(db, Writes(batch, clock, i));
    if i < |batch| {
      PostStep(before, batch, clock, i);
      RefusedKeeps(before, batch[i], clock[i]);
      WriteStep(db, batch, clock, i);
      PostFrom(db, batch, clock, i + 1);
    } else {
      EmptyPost(before, batch[i..], clock[i..]);
    }
  }

  lemma WriteStep(db: Db, batch: seq<StoredEvent>, clock: seq<int>, i: nat)
    requires |batch| == |clock| && i < |batch|
    ensures var r := IngestInto(IngestAll(db, Writes(batch, clock, i)), batch[i], clock[i]);
            OutcomeAt(db, batch, clock, i) == r.outcome && IngestAll(db, Writes(batch, clock, i + 1)) == r.db
  {
    hide IngestInto;
    assert Writes(batch, clock, i + 1)[..i] == Writes(batch, clock, i);
  }

  lemma EmptyPost(db: Db, batch: seq<StoredEvent>, clock: seq<int>)
    requires |clock| == |batch| == 0
    ensures Post(db, batch, clock) == Posted(db, 0, Accepted)
  {
  }

  lemma RefusedKeeps(db: Db, e: StoredEvent, now: int)
    ensures var r := IngestInto(db, e, now); !r.outcome.Ok() ==> r.db == db && r.outcome in {Invalid, Conflict}
    ensures var r := IngestInto(db, e, now); r.outcome.Ok() ==> r.outcome in {Accepted, Duplicate}
  {
    hide IntegrityHash;
  }

  lemma {:induction false} PostExtends(db: Db, batch: seq<StoredEvent>, clock: seq<int>)
    requires |clock| == |batch|
    ensures Extends(db, Post(db, batch, clock).db)
    decreases |batch|
  {
    if batch != [] {
      var r := IngestInto(db, batch[0], clock[0]);
      PostExtends(r.db, batch[1..], clock[1..]);
    }
  }

  /** Re-posting a batch at any later time changes nothing and stops at the same event for the same reason. */
  lemma {:induction false} RepostIsIdempotent(db: Db, batch: seq<StoredEvent>, clock: seq<int>, later: Db,
                                              clock': seq<int>)
    requires |clock| == |batch| == |clock'|
    requires Extends(Post(db, batch, clock).db, later)
    ensures var first, again := Post(db, batch, clock), Post(later, batch, clock');
            again.db == later && again.stopped == first.stopped &&
              (first.outcome.Ok() || again.outcome == first.outcome)
    decreases |batch|
  {
    if batch != [] {
      var r := IngestInto(db, batch[0], clock[0]);
      if r.outcome.Ok() {
        PostExtends(r.db, batch[1..], clock[1..]);
        IngestAgain(db, batch[0], clock[0], later, clock'[0]);
        RepostIsIdempotent(r.db, batch[1..], clock[1..], later, clock'[1..]);
      } else {
        IngestAgain(db, batch[0], clock[0], later, clock'[0]);
      }
    }
  }

  /** Re-sending the same request body is idempotent exactly when the body carries its own time or the
      clock has not moved: otherwise the defaulted time changes the hash and the retry is a conflict. */
  lemma RetryOfBody(db: Db, raw: RawEvent, t1: int, t2: int)
    requires ParseEvent(raw, t1).Some? && t1 != 0 && t2 != 0
    requires IngestInto(db, ParseEvent(raw, t1).value, t1).outcome.Ok()
    ensures ParseEvent(raw, t2).Some?
    ensures var after := IngestInto(db, ParseEvent(raw, t1).value, t1).db;
            var retry := IngestInto(after, ParseEvent(raw, t2).value, t2);
            && retry.db == after
            && (raw.time != 0 || t1 == t2 ==> retry.outcome == Duplicate)
            && (raw.time == 0 && t1 != t2 ==> retry.outcome == Conflict)
  {
  }

  // The timeline query.

  /** A cursor parameter: blank, a well-formed encoding of (ts, id), or anything else. */
  datatype CursorText = Blank | Encoded(ts: int, id: string) | Malformed

  datatype TimelineQuery = TimelineQuery(
    subject: string, cluster: string, namespace: string, from: int, to: int, source: string, typ: string,
    correlationKey: string, correlationValue: string, includeSupporting: bool, limit: int, cursor: CursorText)

  datatype TimelineResult = Found(items: seq<StoredEvent>, nextCursor: CursorText) | InvalidCursor

  function EventKey(e: StoredEvent): Key { Key(e.time, e.id) }

  function ClampLimit(n: int): (r: nat)
    ensures 1 <= r <= 500
  {
    if n <= 0 then 50 else if n > 500 then 500 else n
  }

  predicate Matches(e: StoredEvent, q: TimelineQuery) {
    && (q.from == 0 || e.time >= q.from)
    && (q.to == 0 || e.time <= q.to)
    && (q.subject == "" ||
        (&& e.subject == q.subject
         && (q.cluster == "" || ExtensionString(e.ext, "cluster") == q.cluster)
         && (q.namespace == "" || ExtensionString(e.ext, "namespace") == q.namespace)))
    && (q.source == "" || e.source == q.source)
    && (q.typ == "" || e.typ == q.typ)
    && (q.correlationKey == "" || q.correlationValue == "" ||
        ExtensionString(e.ext, q.correlationKey) == q.correlationValue)
    && (q.includeSupporting || !ExtensionBool(e.ext, "supporting_observation"))
  }

  /** A cursor whose timestamp is the zero time does not restrict the query. */
  function CursorKey(c: CursorText): Option<Key> {
    if c.Encoded? && c.ts != 0 then Some(Key(c.ts, c.id)) else None
  }

  function CursorFor(next: Option<Key>): CursorText {
    match next case None => Blank case Some(k) => Encoded(k.time, k.id)
  }

  ghost function Rows(db: Db, q: TimelineQuery): set<StoredEvent> {
    set id | id in db && Matches(db[id], q) :: db[id]
  }

  lemma RowsKeyed(db: Db, q: TimelineQuery)
    requires WellFormed(db)
    ensures Keyed(Rows(db, q), EventKey)
  {
  }

  /** What a timeline query answers: the page of the matching rows that follows the cursor. */
  ghost function Timeline(db: Db, q: TimelineQuery): TimelineResult
    requires WellFormed(db)
  {
    RowsKeyed(db, q);
    if q.cursor.Malformed? then InvalidCursor
    else
      var p := PageOf(Rows(db, q), EventKey, CursorKey(q.cursor), ClampLimit(q.limit));
      Found(p.items, CursorFor(p.next))
  }

  /** Range over a map, whose order is arbitrary, keeping the values that pass the guards. */
  method CollectValues<T(==, !new)>(m: map<string, T>, keep: T -> bool) returns (items: seq<T>)
    requires forall a, b :: a in m && b in m && m[a] == m[b] ==> a == b
    ensures forall x :: x in items <==> x in set id | id in m && keep(m[id]) :: m[id]
    ensures forall i, j :: 0 <= i < j < |items| ==> items[i] != items[j]
  {
    items := [];
    var todo := m.Keys;
    while todo != {}
      invariant todo <= m.Keys
      invariant forall x :: x in items ==> exists id :: id in m && id !in todo && keep(m[id]) && m[id] == x
      invariant forall id :: id in m && id !in todo && keep(m[id]) ==> m[id] in items
      invariant forall i, j :: 0 <= i < j < |items| ==> items[i] != items[j]
      decreases |todo|
    {
      var id :| id in todo;
      assert m[id] !in items;
      todo := todo - {id};
      if keep(m[id]) {
        items := items + [m[id]];
      }
    }
  }

  class MemoryRepository {
    var events: Db

    ghost predicate Valid() reads this { WellFormed(events) }

    constructor ()
      ensures Valid() && events == map[]
    {
      events := map[];
    }

    method IngestEvent(e: StoredEvent, now: int) returns (outcome: Outcome, at: int)
      requires Valid()
      modifies this`events
      ensures Valid() && Extends(old(events), events)
      ensures Ingested(events, outcome, at) == IngestInto(old(events), e, now)
      ensures outcome.Ok() ==> e.id in events && events[e.id].integrity == Seal(e).integrity
      ensures !outcome.Accepted? ==> events == old(events)
    {
      if !ValidStored(e) {
        return Invalid, 0;
      }
      var event := e;
      if event.integrity.Unset? {
        event := event.(integrity := IntegrityHash(event));
      }
      if event.id in events {
        var existing := events[event.id];
        if existing.integrity == event.integrity {
          return Duplicate, existing.ingestedAt;
        }
        return Conflict, 0;
      }
      if event.ingestedAt == 0 {
        event := event.(ingestedAt := now);
      }
      events := events[event.id := event];
      return Accepted, now;
    }

    method QueryTimeline(q: TimelineQuery) returns (result: TimelineResult)
      requires Valid()
      ensures result == Timeline(events, q)
    {
      var limit: int := q.limit;
      if limit <= 0 { limit := 50; }
      if limit > 500 { limit := 500; }
      var cursorTS, cursorID := 0, "";
      match q.cursor {
        case Malformed => return InvalidCursor;
        case Encoded(ts, id) => cursorTS, cursorID := ts, id;
        case Blank =>
      }
      hide Matches;
      var keep := (e: StoredEvent) => Matches(e, q) &&
        (cursorTS == 0 || !(e.time < cursorTS || (e.time == cursorTS && !Less(cursorID, e.id))));
      var items := CollectValues(events, keep);
      var sorted := SortRows(items, EventKey);
      RowsKeyed(events, q);
      ghost var rest := Rest(Rows(events, q), EventKey, CursorKey(q.cursor));
      RestIsKept(events, q, keep);
      ListedAfterSort(sorted, items, rest, EventKey);
      ListingUnique(sorted, Listing(rest, EventKey), rest, EventKey);
      if |sorted| > limit {
        var page := sorted[..limit];
        var last := page[|page| - 1];
        return Found(page, Encoded(last.time, last.id));
      }
      return Found(sorted, Blank);
    }
  }

  /** The SQL store's shape of the same query: the database hands over at most limit + 1 ordered rows past
      the cursor, `all` being what it would list without a limit, and the rows fetched are truncated. */
  method TruncateFetched(ghost db: Db, ghost all: seq<StoredEvent>, fetched: seq<StoredEvent>, q: TimelineQuery)
    returns (result: TimelineResult)
    requires WellFormed(db) && !q.cursor.Malformed?
    requires IsListing(all, Rest(Rows(db, q), EventKey, CursorKey(q.cursor)), EventKey)
    requires fetched == if |all| > ClampLimit(q.limit) + 1 then all[..ClampLimit(q.limit) + 1] else all
    ensures result == Timeline(db, q)
  {
    hide Matches;
    var limit := ClampLimit(q.limit);
    RowsKeyed(db, q);
    ghost var rest := Rest(Rows(db, q), EventKey, CursorKey(q.cursor));
    ListingUnique(all, Listing(rest, EventKey), rest, EventKey);
    LimitPlusOne(all, EventKey, limit);
    if |fetched| > limit {
      var last := fetched[limit - 1];
      return Found(fetched[..limit], Encoded(last.time, last.id));
    }
    return Found(fetched, Blank);
  }

  lemma RestIsKept(db: Db, q: TimelineQuery, keep: StoredEvent -> bool)
    requires forall e :: keep(e) <==> Matches(e, q) && Past(EventKey(e), CursorKey(q.cursor))
    ensures Rest(Rows(db, q), EventKey, CursorKey(q.cursor)) == set id | id in db && keep(db[id]) :: db[id]
  {
    hide Matches, Past, CursorKey;
  }

  /** Collecting rows once each in any order and sorting them gives their listing. */
  lemma ListedAfterSort<T(!new)>(sorted: seq<T>, items: seq<T>, rows: set<T>, key: T -> Key)
    requires SortedFrom(sorted, items, key) && Keyed(rows, key)
    requires forall i, j :: 0 <= i < j < |items| ==> items[i] != items[j]
    requires forall x :: x in items <==> x in rows
    ensures IsListing(sorted, rows, key)
  {
    forall x ensures x in sorted <==> x in rows { SortedElements(sorted, items, x); }
    NoRepeats(sorted, items);
    SortedIsIncreasing(sorted, rows, key);
  }

  lemma NoRepeats<T>(sorted: seq<T>, items: seq<T>)
    requires multiset(sorted) == multiset(items)
    requires forall i, j :: 0 <= i < j < |items| ==> items[i] != items[j]
    ensures forall i, j :: 0 <= i < j < |sorted| ==> sorted[i] != sorted[j]
  {
    forall x | x in items ensures multiset(items)[x] == 1 {
      var i :| 0 <= i < |items| && items[i] == x;
      assert items == items[..i] + [x] + items[i + 1..];
    }
    forall i, j | 0 <= i < j < |sorted| ensures sorted[i] != sorted[j] {
      assert sorted == sorted[..i] + [sorted[i]] + sorted[i + 1..j] + [sorted[j]] + sorted[j + 1..];
      SortedElements(sorted, items, sorted[i]);
    }
  }

  // Browsing: a client sends the query, then keeps sending back the cursor it was given.

  datatype Browsed = Browsed(items: seq<StoredEvent>, open: CursorText, requests: nat)

  ghost predicate Later(dbs: seq<Db>) {
    && (forall i :: 0 <= i < |dbs| ==> WellFormed(dbs[i]))
    && (forall i, j :: 0 <= i < j < |dbs| ==> Extends(dbs[i], dbs[j]))
  }

  /** dbs[i] is the store as the i-th request finds it. */
  ghost function Browse(dbs: seq<Db>, q: TimelineQuery): Browsed
    requires |dbs| > 0 && Later(dbs)
    decreases |dbs|
  {
    match Timeline(dbs[0], q)
    case InvalidCursor => Browsed([], Malformed, 1)
    case Found(items, next) =>
      if next.Blank? || |dbs| == 1 then Browsed(items, next, 1)
      else
        var rest := Browse(dbs[1..], q.(cursor := next));
        Browsed(items + rest.items, rest.open, 1 + rest.requests)
  }

  ghost function Snapshots(dbs: seq<Db>, q: TimelineQuery): seq<set<StoredEvent>> {
    seq(|dbs|, i requires 0 <= i < |dbs| => Rows(dbs[i], q))
  }

  lemma SnapshotsGrow(dbs: seq<Db>, q: TimelineQuery)
    requires Later(dbs)
    ensures Growing(Snapshots(dbs, q)) && AllKeyed(Snapshots(dbs, q), EventKey)
  {
    forall i | 0 <= i < |dbs| ensures Keyed(Rows(dbs[i], q), EventKey) { RowsKeyed(dbs[i], q); }
  }

  /** The cursor handed out always leads back to the key it was made from: stored events have a time. */
  lemma {:induction false} BrowseIsFollow(dbs: seq<Db>, q: TimelineQuery)
    requires |dbs| > 0 && Later(dbs) && !q.cursor.Malformed?
    ensures Growing(Snapshots(dbs, q)) && AllKeyed(Snapshots(dbs, q), EventKey)
    ensures var b := Browse(dbs, q);
            var w := Follow(Snapshots(dbs, q), EventKey, CursorKey(q.cursor), ClampLimit(q.limit));
            b.items == w.items && b.requests == w.pages && b.open == CursorFor(w.next) &&
            CursorKey(b.open) == w.next
    decreases |dbs|
  {
    hide Matches, ValidStored;
    SnapshotsGrow(dbs, q);
    var limit := ClampLimit(q.limit);
    var rows := Rows(dbs[0], q);
    var after := CursorKey(q.cursor);
    var p := PageOf(rows, EventKey, after, limit);
    var all := Listing(Rest(rows, EventKey, after), EventKey);
    assert Snapshots(dbs, q)[0] == rows;
    if p.next.Some? {
      assert all[limit - 1] in Rest(rows, EventKey, after);
      StoredHasTime(all[limit - 1]);
      if |dbs| > 1 {
        var q' := q.(cursor := CursorFor(p.next));
        RowsIgnoreCursor(dbs[1..], q, q');
        assert Snapshots(dbs, q)[1..] == Snapshots(dbs[1..], q');
        BrowseIsFollow(dbs[1..], q');
      }
    }
  }

  lemma StoredHasTime(e: StoredEvent)
    requires ValidStored(e)
    ensures e.time != 0
  {
  }

  lemma RowsIgnoreCursor(dbs: seq<Db>, q: TimelineQuery, q': TimelineQuery)
    requires q' == q.(cursor := q'.cursor)
    ensures Snapshots(dbs, q) == Snapshots(dbs, q')
  {
    forall i | 0 <= i < |dbs| ensures Rows(dbs[i], q) == Rows(dbs[i], q') {
      assert forall e :: Matches(e, q) <==> Matches(e, q');
    }
  }

  /** Browsing while events arrive: the items are strictly increasing in (time, id), are all stored and
      matching, and once no cursor is left they include every matching event the first request could see. */
  lemma BrowseUnderIngestion(dbs: seq<Db>, q: TimelineQuery)
    requires |dbs| > 0 && Later(dbs) && !q.cursor.Malformed?
    ensures var b := Browse(dbs, q);
            && Increasing(b.items, EventKey)
            && (forall e :: e in b.items ==> e.id in dbs[|dbs| - 1] && dbs[|dbs| - 1][e.id] == e && Matches(e, q))
            && (forall id :: id in dbs[0] && Matches(dbs[0][id], q) &&
                             Past(EventKey(dbs[0][id]), CursorKey(q.cursor)) ==>
                  dbs[0][id] in b.items || (b.open.Encoded? && Past(EventKey(dbs[0][id]), CursorKey(b.open))))
  {
    BrowseIsFollow(dbs, q);
    FollowGrowing(Snapshots(dbs, q), EventKey, CursorKey(q.cursor), ClampLimit(q.limit));
    var b := Browse(dbs, q);
    forall id | id in dbs[0] && Matches(dbs[0][id], q) && Past(EventKey(dbs[0][id]), CursorKey(q.cursor))
      ensures dbs[0][id] in b.items || (b.open.Encoded? && Past(EventKey(dbs[0][id]), CursorKey(b.open)))
    {
      assert dbs[0][id] in Snapshots(dbs, q)[0];
    }
    forall e | e in b.items
      ensures e.id in dbs[|dbs| - 1] && dbs[|dbs| - 1][e.id] == e && Matches(e, q)
    {
      assert e in Snapshots(dbs, q)[|dbs| - 1];
    }
  }

  /** Browsing a quiet store: exactly the matching events, in order, in the least number of requests. */
  lemma BrowseQuiet(dbs: seq<Db>, db: Db, q: TimelineQuery)
    requires WellFormed(db) && q.cursor == Blank
    requires forall i :: 0 <= i < |dbs| ==> dbs[i] == db
    requires |dbs| >= PagesFor(|Rows(db, q)|, ClampLimit(q.limit))
    ensures |dbs| > 0 && Later(dbs) && Keyed(Rows(db, q), EventKey)
    ensures Browse(dbs, q) == Browsed(Listing(Rows(db, q), EventKey), Blank,
                                      PagesFor(|Rows(db, q)|, ClampLimit(q.limit)))
  {
    BrowseIsFollow(dbs, q);
    RowsKeyed(db, q);
    var all := Listing(Rows(db, q), EventKey);
    assert Rest(Rows(db, q), EventKey, None) == Rows(db, q);
    ListingLength(all, Rows(db, q), EventKey);
    FollowQuiet(Snapshots(dbs, q), Rows(db, q), EventKey, None, ClampLimit(q.limit));
  }

  lemma {:induction false} ListingLength<T(!new)>(out: seq<T>, rows: set<T>, key: T -> Key)
    requires IsListing(out, rows, key)
    ensures |out| == |rows|
    decreases |out|
  {
    if out == [] {
      assert rows == {};
    } else {
      assert out[0] in rows;
      TailListing(out, rows, key);
      ListingLength(out[1..], rows - {out[0]}, key);
    }
  }

  // Which rows come back, by their fields.

  /** A client that follows the cursors on a quiet store is returned a row exactly when it is inside the bounds,
      of the subject and, under one, of its cluster and namespace, of the source and the type, carries the
      correlation, and is not a supporting observation unless these are wanted. */
  lemma ReturnedIff(dbs: seq<Db>, db: Db, q: TimelineQuery, id: string)
    requires WellFormed(db) && q.cursor == Blank && id in db
    requires forall i :: 0 <= i < |dbs| ==> dbs[i] == db
    requires |dbs| >= PagesFor(|Rows(db, q)|, ClampLimit(q.limit))
    ensures |dbs| > 0 && Later(dbs)
    ensures var e := db[id];
            e in Browse(dbs, q).items <==>
              && (q.from != 0 ==> q.from <= e.time) && (q.to != 0 ==> e.time <= q.to)
              && (q.subject != "" ==> e.subject == q.subject)
              && (q.subject != "" && q.cluster != "" ==> ExtensionString(e.ext, "cluster") == q.cluster)
              && (q.subject != "" && q.namespace != "" ==> ExtensionString(e.ext, "namespace") == q.namespace)
              && (q.source != "" ==> e.source == q.source) && (q.typ != "" ==> e.typ == q.typ)
              && (q.correlationKey != "" && q.correlationValue != "" ==>
                    ExtensionString(e.ext, q.correlationKey) == q.correlationValue)
              && (ExtensionBool(e.ext, "supporting_observation") ==> q.includeSupporting)
  {
    BrowseQuiet(dbs, db, q);
    RowInRows(db, q, id);
    hide ExtensionString, ExtensionBool, Browse;
  }

  lemma RowInRows(db: Db, q: TimelineQuery, id: string)
    requires WellFormed(db) && id in db
    ensures db[id] in Rows(db, q) <==> Matches(db[id], q)
  {
    hide Matches;
  }

  /** One page: oldest first and by ID within an instant, only rows after the cursor, at most the limit, which is
      50 if none is given and never above 500; a cursor to its last row exactly when more rows follow, and then
      it is full and all of them are later. */
  lemma PageMeans(db: Db, q: TimelineQuery)
    requires WellFormed(db)
    ensures q.cursor == Malformed <==> Timeline(db, q) == InvalidCursor
    ensures q.cursor != Malformed ==>
      var page, limit := Timeline(db, q), if q.limit <= 0 then 50 else if q.limit > 500 then 500 else q.limit;
      var last := |page.items| - 1;
      && |page.items| <= limit
      && (forall i, j :: 0 <= i < j < |page.items| ==> Precedes(page.items[i], page.items[j].time, page.items[j].id))
      && (forall e :: e in page.items ==> e.id in db && db[e.id] == e && Matches(e, q) && Follows(e, q.cursor))
      && (page.nextCursor == Blank ==>
            forall id :: id in db && Matches(db[id], q) && Follows(db[id], q.cursor) ==> db[id] in page.items)
      && (page.nextCursor != Blank ==>
            && |page.items| == limit && page.nextCursor == Encoded(page.items[last].time, page.items[last].id)
            && (exists id :: id in db && Matches(db[id], q) && Follows(db[id], page.nextCursor))
            && forall id :: id in db && Matches(db[id], q) && Follows(db[id], q.cursor) && db[id] !in page.items ==>
                 Follows(db[id], page.nextCursor))
  {
    hide Matches, Rows, CursorKey, Follows, Precedes, IsListing, Cut, ValidStored, Past;
    if q.cursor != Malformed {
      RowsKeyed(db, q);
      var rest := Rest(Rows(db, q), EventKey, CursorKey(q.cursor));
      RestMeans(db, q);
      CutMeans(Listing(rest, EventKey), rest, ClampLimit(q.limit));
      var p := PageOf(Rows(db, q), EventKey, CursorKey(q.cursor), ClampLimit(q.limit));
      if p.next != None {
        var last := p.items[|p.items| - 1];
        assert last in rest;
        PastMeans(db, last);
        var later :| later in rest && Past(EventKey(later), p.next);
        assert db[later.id] == later;
      }
    }
  }

  lemma RestMeans(db: Db, q: TimelineQuery)
    requires WellFormed(db) && q.cursor != Malformed
    ensures var rest := Rest(Rows(db, q), EventKey, CursorKey(q.cursor));
            forall e :: e in rest <==> e.id in db && db[e.id] == e && Matches(e, q) && Follows(e, q.cursor)
  {
    hide Matches, ValidStored;
  }

  lemma PastMeans(db: Db, last: StoredEvent)
    requires WellFormed(db) && last.id in db && db[last.id] == last
    ensures forall e :: Past(EventKey(e), Some(EventKey(last))) <==> Follows(e, Encoded(last.time, last.id))
  {
    StoredHasTime(last);
  }

  /** What a page of listed rows holds and leaves. */
  lemma CutMeans(all: seq<StoredEvent>, rest: set<StoredEvent>, limit: nat)
    requires IsListing(all, rest, EventKey) && limit > 0
    ensures var p := Cut(all, EventKey, limit);
            && |p.items| <= limit && (forall e :: e in p.items ==> e in rest)
            && (forall i, j :: 0 <= i < j < |p.items| ==> Precedes(p.items[i], p.items[j].time, p.items[j].id))
            && (p.next == None ==> forall e :: e in rest ==> e in p.items)
            && (p.next != None ==>
                  && |p.items| == limit && p.next == Some(EventKey(p.items[limit - 1]))
                  && (exists e :: e in rest && Past(EventKey(e), p.next))
                  && forall e :: e in rest && e !in p.items ==> Past(EventKey(e), p.next))
  {
    if |all| > limit { assert all[limit] in rest; }
  }

  predicate Precedes(e: StoredEvent, time: int, id: string) {
    e.time < time || (e.time == time && Less(e.id, id))
  }

  /** A cursor at the zero time holds nothing back. */
  predicate Follows(e: StoredEvent, c: CursorText) {
    c.Encoded? && c.ts != 0 ==> e.time > c.ts || (e.time == c.ts && Less(c.id, e.id))
  }
}
