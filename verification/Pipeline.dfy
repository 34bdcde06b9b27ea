/** From a cluster's snapshots through polling to the store: event IDs are unique, batches fetched from Argo
    meet what the collector's guarantees ask for, so an unchanged cluster is polled for free and the order in
    which Argo lists applications does not matter. */
module Pipeline {
  import opened Text
  import opened Clock
  import opened Keyset
  import opened CloudEvents
  import opened Store
  import opened Collector
  import opened CatchUp
  import opened Repoll
  import opened Recovery
  import opened Isolation
  import opened SourceEvents
  import opened Normalize

  // Identifiers.

  lemma HistoryTailsDiffer(id1: int, rev1: string, t1: int, id2: int, rev2: string, t2: int)
    requires 0 <= id1 && 0 <= id2 && id1 != id2
    ensures HistoryTail(id1, rev1, t1) != HistoryTail(id2, rev2, t2)
  {
    var a, b := HistoryTail(id1, rev1, t1), HistoryTail(id2, rev2, t2);
    if id1 > 0 && id2 > 0 {
      if a == b { DecimalInjective(id1, id2); }
    } else if id1 > 0 {
      assert b[|Trim(rev2)|] == ':';
    } else {
      assert a[|Trim(rev1)|] == ':';
    }
  }

  /** What follows the application's UID in an event's ID, by the event's origin. */
  ghost predicate TailShape(app: Application, now: int, o: Origin, tail: string)
    requires o.FromHistory? ==> o.entry < |app.history|
  {
    match o
    case FromHistory(n) =>
      var h := app.history[n];
      tail == "hist:" + HistoryTail(h.id, EntryRevision(h, app), OccurredAt(h, app, now))
    case FromOperation => "op:" <= tail
    case FromHealth => "health:" <= tail
  }

  lemma TailOf(app: Application, now: int, se: SourceEvent, o: Origin) returns (tail: string)
    requires Stems(app, now, se, o)
    ensures se.id == Trim(app.uid) + ":" + tail
    ensures (o.FromHistory? ==> o.entry < |app.history|) && TailShape(app, now, o, tail)
  {
    hide RecordedEvent, OperationEvents, HealthEvents, OccurredAt, EntryRevision, HistoryTail, Suppressed, Trim, Lower,
      OfSnapshot, Actor, Revision, OperationKey, MostRecent;
    match o {
      case FromHistory(n) =>
        var h := app.history[n];
        RecordedID(h, app, now);
        tail := "hist:" + HistoryTail(h.id, EntryRevision(h, app), OccurredAt(h, app, now));
      case FromOperation => tail := OperationTail(app, now, se);
      case FromHealth => tail := HealthTail(app, now, se);
    }
  }

  lemma OperationTail(app: Application, now: int, se: SourceEvent) returns (tail: string)
    requires OperationEvents(app, now) == [se]
    ensures se.id == Trim(app.uid) + ":" + tail && "op:" <= tail
  {
    OperationSays(app, now);
    hide OperationEvents, OfSnapshot, Actor, Revision, OperationKey, MostRecent, Trim;
    var started := app.operation.value.phase in {Running, Terminating};
    tail := "op:" + Trim(se.operationKey) + ":" + (if started then "start" else "finish");
  }

  lemma HealthTail(app: Application, now: int, se: SourceEvent) returns (tail: string)
    requires HealthEvents(app, now) == [se]
    ensures se.id == Trim(app.uid) + ":" + tail && "health:" <= tail
  {
    HealthSays(app, now);
    hide HealthEvents, OfSnapshot, Revision, Trim, Lower, Decimal, UnixSeconds;
    tail := "health:" + Lower(Trim(app.health)) + ":" +
            (if se.occurred == 0 then "0" else Decimal(UnixSeconds(se.occurred)));
  }

  /** Within one snapshot whose history IDs are distinct and not negative, all event IDs are distinct. */
  lemma SnapshotIDsDistinct(app: Application, now: int, i: nat, j: nat)
    requires forall m, n :: 0 <= m < n < |app.history| ==> app.history[m].id != app.history[n].id
    requires forall n :: 0 <= n < |app.history| ==> app.history[n].id >= 0
    requires i < j < |EventsOf(app, now)|
    ensures EventsOf(app, now)[i].id != EventsOf(app, now)[j].id
  {
    hide EventsOf, Stems, Suppressed, HistoryTail;
    var origin := EventOrigins(app, now);
    var a, b := EventsOf(app, now)[i], EventsOf(app, now)[j];
    var s := TailOf(app, now, a, origin[i]);
    var t := TailOf(app, now, b, origin[j]);
    StemsInRange(app, now, a, origin[i]);
    StemsInRange(app, now, b, origin[j]);
    TailsDiffer(app, now, origin[i], origin[j], s, t);
    var u := Trim(app.uid) + ":";
    assert s == (u + s)[|u|..] && t == (u + t)[|u|..];
  }

  lemma StemsInRange(app: Application, now: int, se: SourceEvent, o: Origin)
    requires Stems(app, now, se, o)
    ensures o.FromHistory? ==> o.entry < |app.history|
  {
    hide Suppressed, RecordedEvent, OperationEvents, HealthEvents;
  }

  lemma TailsDiffer(app: Application, now: int, a: Origin, b: Origin, s: string, t: string)
    requires forall m, n :: 0 <= m < n < |app.history| ==> app.history[m].id != app.history[n].id
    requires forall n :: 0 <= n < |app.history| ==> app.history[n].id >= 0
    requires a.FromHistory? ==> a.entry < |app.history|
    requires b.FromHistory? ==> b.entry < |app.history|
    requires TailShape(app, now, a, s) && TailShape(app, now, b, t) && OriginBefore(a, b)
    ensures s != t
  {
    hide HistoryTail, EntryRevision, OccurredAt;
    if a.FromHistory? && b.FromHistory? {
      var h1, h2 := app.history[a.entry], app.history[b.entry];
      HistoryTailsDiffer(h1.id, EntryRevision(h1, app), OccurredAt(h1, app, now), h2.id, EntryRevision(h2, app),
                         OccurredAt(h2, app, now));
      assert s[5..] == HistoryTail(h1.id, EntryRevision(h1, app), OccurredAt(h1, app, now));
      assert t[5..] == HistoryTail(h2.id, EntryRevision(h2, app), OccurredAt(h2, app, now));
    } else {
      assert a.FromHistory? ==> s[0] == 'h' && s[1] == 'i';
      assert a.FromOperation? ==> s[0] == 'o';
      assert b.FromHealth? ==> t[0] == 'h' && t[1] == 'e';
      assert b.FromOperation? ==> t[0] == 'o';
    }
  }

  // One snapshot, as the collector sees it.

  /** The UID is there and can be told apart in an event ID. */
  predicate HasUID(app: Application) {
    Trim(app.uid) != "" && ':' !in Trim(app.uid)
  }

  /** Entries that an ID identifies come in the order of their IDs. */
  ghost predicate OrderedHistory(app: Application) {
    forall m, n :: 0 <= m < n < |app.history| && app.history[m].id > 0 && app.history[n].id > 0 ==>
      app.history[m].id < app.history[n].id
  }

  /** What the collector's checks see of an event, by its origin. */
  ghost predicate Profile(app: Application, se: SourceEvent, o: Origin) {
    match o
    case FromHistory(n) =>
      n < |app.history| && KindOf(se).History? && se.historyID == app.history[n].id && se.eventType == RECORDED
    case FromOperation => (KindOf(se).History? || KindOf(se).Started?) && se.historyID == 0
    case FromHealth => KindOf(se).Health? && se.historyID == 0
  }

  const RECORDED := "argo.deployment.recorded"

  /** A recorded history entry that its ID does not identify. */
  predicate WithoutID(se: SourceEvent) {
    se.eventType == RECORDED && se.historyID <= 0
  }

  lemma KindsOfSourceEvents(se: SourceEvent)
    ensures se.eventType == "argo.deployment.recorded" ==> KindOf(se).History?
    ensures se.eventType == "argo.sync.finished" ==> KindOf(se).History?
    ensures se.eventType == "argo.sync.started" ==> KindOf(se).Started?
    ensures se.eventType == "argo.health.changed" ==> KindOf(se).Health?
  {
  }

  lemma ProfileOf(app: Application, now: int, se: SourceEvent, o: Origin)
    requires Stems(app, now, se, o)
    ensures Profile(app, se, o) && se.appUID == Trim(app.uid)
  {
    KindsOfSourceEvents(se);
    hide KindOf, WithAnnotations, OccurredAt, EntryRevision, OperationKey, OperationFinish, Suppressed, TimeKey,
      HistoryEventID, HealthEventID, OperationEventID, HistoryOperationKey, Trim, Revision, Actor;
  }

  lemma PairOfEvents(app: Application, a: SourceEvent, b: SourceEvent, o: Origin, p: Origin)
    requires Profile(app, a, o) && Profile(app, b, p) && OriginBefore(o, p)
    ensures SameSlot(a, b) ==> WithoutID(a)
    ensures OrderedHistory(app) ==> forall key :: IsHistory(a, key) && IsHistory(b, key) ==> a.historyID < b.historyID
  {
    hide KindOf, AppKey, Trim;
  }

  /** In a batch no event shares its slot with a later one, entries without an ID aside. */
  ghost predicate SlotsShared(batch: seq<SourceEvent>) {
    forall i, j :: 0 <= i < j < |batch| && SameSlot(batch[i], batch[j]) ==> WithoutID(batch[i])
  }

  /** A snapshot's history comes in the order of its IDs, and its finished operation, started operation and
      health have a slot each, which only entries without an ID can share. */
  lemma SnapshotIsRegular(app: Application, now: int)
    ensures SlotsShared(EventsOf(app, now))
    ensures OrderedHistory(app) ==> HistoryIncreasing(EventsOf(app, now))
  {
    hide EventsOf, Stems, Profile, OrderedHistory, IsHistory, SameSlot, OriginBefore, Suppressed, WithoutID;
    var events := EventsOf(app, now);
    var origin := EventOrigins(app, now);
    forall i | 0 <= i < |events| ensures Profile(app, events[i], origin[i]) {
      ProfileOf(app, now, events[i], origin[i]);
    }
    forall i, j | 0 <= i < j < |events|
      ensures SameSlot(events[i], events[j]) ==> WithoutID(events[i])
      ensures OrderedHistory(app) ==>
                forall key :: IsHistory(events[i], key) && IsHistory(events[j], key) ==>
                  events[i].historyID < events[j].historyID
    {
      PairOfEvents(app, events[i], events[j], origin[i], origin[j]);
    }
  }

  /** Only a history entry whose ID is not positive is recorded without one. */
  lemma WithoutIDStems(app: Application, now: int, se: SourceEvent)
    requires se in EventsOf(app, now) && WithoutID(se)
    ensures exists n :: 0 <= n < |app.history| && app.history[n].id <= 0
  {
    hide EventsOf, Stems, Suppressed, Profile, KindOf;
    var origin := EventOrigins(app, now);
    var i :| 0 <= i < |EventsOf(app, now)| && EventsOf(app, now)[i] == se;
    RecordedStems(app, now, se, origin[i]);
  }

  lemma RecordedStems(app: Application, now: int, se: SourceEvent, o: Origin)
    requires Stems(app, now, se, o) && se.eventType == RECORDED
    ensures o.FromHistory? && o.entry < |app.history| && app.history[o.entry].id == se.historyID
  {
    hide Suppressed, WithAnnotations, OperationKey, OperationFinish, OperationEventID, Trim, Revision, Actor,
      HealthEventID, HistoryEventID, OccurredAt, EntryRevision;
  }

  /** The event carries the application's UID as its cursor key and in front of its ID. */
  ghost predicate BelongsTo(se: SourceEvent, app: Application) {
    && AppKey(se) == Trim(app.uid)
    && Trim(se.id) != ""
    && Trim(app.uid) + ":" <= se.id
  }

  lemma Belongs(app: Application, now: int, se: SourceEvent)
    requires Trim(app.uid) != "" && se in EventsOf(app, now)
    ensures BelongsTo(se, app)
  {
    hide EventsOf, Stems, KindOf, HistoryTail, EntryRevision, OccurredAt, Suppressed, Profile;
    var origin := EventOrigins(app, now);
    var i :| 0 <= i < |EventsOf(app, now)| && EventsOf(app, now)[i] == se;
    var tail := TailOf(app, now, se, origin[i]);
    ProfileOf(app, now, se, origin[i]);
    TrimTwice(app.uid);
    assert se.id[0] == Trim(app.uid)[0];
  }

  // What the collector and the normaliser make of the events.

  lemma RecordedFacts(app: Application, h: HistoryEntry, now: int)
    requires Trim(app.uid) != "" && Trim(app.name) != "" && OccurredAt(h, app, now) != 0
    ensures var se := RecordedEvent(h, app, now);
            && KindOf(se).History? && AppKey(se) == Trim(app.uid) && se.historyID == h.id
            && se.id == Trim(app.uid) + ":" +
                 ("hist:" + HistoryTail(h.id, EntryRevision(h, app), OccurredAt(h, app, now)))
            && Trim(se.id) != "" && Trim(se.app) != "" && se.occurred != 0
            && se.operationKey == HistoryOperationKey(h.id, EntryRevision(h, app), OccurredAt(h, app, now))
  {
    KindsOfSourceEvents(RecordedEvent(h, app, now));
    TrimTwice(app.uid);
    TrimTwice(app.name);
    hide KindOf, WithAnnotations, EntryRevision, OccurredAt, HistoryOperationKey, HistoryTail, Trim, Revision, Actor;
    assert RecordedEvent(h, app, now).id[0] == Trim(app.uid)[0];
  }

  lemma OperationFacts(app: Application, op: Operation, now: int, started: bool)
    requires Trim(app.uid) != "" && Trim(app.name) != ""
    requires if started then op.startedAt != 0 else OperationFinish(op, app, now) != 0
    ensures var se := OperationEvent(op, app, now, started);
            && (if started then KindOf(se).Started? else KindOf(se).History?)
            && AppKey(se) == Trim(app.uid) && se.historyID == 0
            && se.id == Trim(app.uid) + ":" +
                 ("op:" + Trim(se.operationKey) + ":" + Trim(if started then "start" else "finish"))
            && Trim(se.id) != "" && Trim(se.app) != "" && se.occurred != 0
            && se.operationKey == OperationKey(Revision(app), op.startedAt, OperationFinish(op, app, now))
  {
    KindsOfSourceEvents(OperationEvent(op, app, now, started));
    TrimTwice(app.uid);
    TrimTwice(app.name);
    hide KindOf, WithAnnotations, OperationKey, OperationFinish, Trim, Revision, Actor;
    assert OperationEvent(op, app, now, started).id[0] == Trim(app.uid)[0];
  }

  /** A source event that normalises does so into a storable event named after it. */
  lemma NormalizedFacts(se: SourceEvent, settings: Settings)
    requires Trim(se.id) != "" && Trim(se.app) != "" && se.occurred != 0
    ensures var e := NormalizeSourceEvent(se, settings);
            && e.Some? && ValidStored(e.value) && e.value.id == "evt_argocd_" + se.id && e.value.source == "argocd"
            && e.value.integrity.Unset?
  {
    hide ExtensionsOf, DataOf, Or, Trim;
    NormalizedIsStorable(se, se, settings);
  }

  ghost predicate Storable(se: SourceEvent, norm: Normalizer) {
    Trim(se.id) != "" && norm(se).Some? && ValidStored(norm(se).value)
  }

  // The batch a poll fetches.

  function Fetch(apps: seq<Application>, now: int): seq<SourceEvent> {
    if apps == [] then [] else Fetch(apps[..|apps| - 1], now) + EventsOf(apps[|apps| - 1], now)
  }

  /** Every application has a UID of its own. */
  ghost predicate Separate(apps: seq<Application>) {
    && (forall i :: 0 <= i < |apps| ==> HasUID(apps[i]))
    && (forall i, j :: 0 <= i < j < |apps| ==> Trim(apps[i].uid) != Trim(apps[j].uid))
  }

  lemma {:induction false} FetchMembers(apps: seq<Application>, now: int, se: SourceEvent) returns (n: nat)
    requires Separate(apps) && se in Fetch(apps, now)
    ensures n < |apps| && se in EventsOf(apps[n], now) && BelongsTo(se, apps[n])
  {
    hide EventsOf, BelongsTo, Trim;
    n := |apps| - 1;
    if se in EventsOf(apps[n], now) {
      Belongs(apps[n], now, se);
    } else {
      n := FetchMembers(apps[..n], now, se);
    }
  }

  /** So do whole fetched batches. */
  lemma {:induction false} FetchIsRegular(apps: seq<Application>, now: int)
    requires Separate(apps)
    ensures SlotsShared(Fetch(apps, now))
    ensures (forall i :: 0 <= i < |apps| ==> OrderedHistory(apps[i])) ==> HistoryIncreasing(Fetch(apps, now))
  {
    hide EventsOf, OrderedHistory, SlotsShared, HistoryIncreasing, Trim, AppKey;
    if apps == [] {
      NothingIsRegular();
    } else {
      var init, last := apps[..|apps| - 1], apps[|apps| - 1];
      FetchIsRegular(init, now);
      SnapshotIsRegular(last, now);
      var a, b := Fetch(init, now), EventsOf(last, now);
      forall x, y | x in a && y in b ensures AppKey(x) != AppKey(y) {
        var n := FetchMembers(init, now, x);
        Belongs(last, now, y);
      }
      JoinRegular(a, b);
    }
  }

  lemma NothingIsRegular()
    ensures SlotsShared([]) && HistoryIncreasing([])
  {
  }

  lemma JoinRegular(a: seq<SourceEvent>, b: seq<SourceEvent>)
    requires forall x, y :: x in a && y in b ==> AppKey(x) != AppKey(y)
    ensures SlotsShared(a) && SlotsShared(b) ==> SlotsShared(a + b)
    ensures HistoryIncreasing(a) && HistoryIncreasing(b) ==> HistoryIncreasing(a + b)
  {
    hide KindOf, AppKey, SlotOf, WithoutID;
    var c := a + b;
    forall i, j | 0 <= i < j < |c|
      ensures SlotsShared(a) && SlotsShared(b) && SameSlot(c[i], c[j]) ==> WithoutID(c[i])
      ensures HistoryIncreasing(a) && HistoryIncreasing(b) ==>
                forall key :: IsHistory(c[i], key) && IsHistory(c[j], key) ==> c[i].historyID < c[j].historyID
    {
      if j < |a| {
        assert c[i] == a[i] && c[j] == a[j];
      } else if i >= |a| {
        assert c[i] == b[i - |a|] && c[j] == b[j - |a|];
      } else {
        assert c[i] in a && c[j] in b;
      }
    }
  }

  function Normalizing(settings: Settings): Normalizer {
    (se: SourceEvent) => NormalizeSourceEvent(se, settings)
  }

  /** Stored IDs of different applications never meet. */
  lemma FetchIsDisjoint(apps: seq<Application>, now: int, settings: Settings)
    requires Separate(apps)
    ensures DisjointIDs(Fetch(apps, now), Normalizing(settings))
  {
    hide EventsOf, NormalizeSourceEvent, AppKey, Trim, Fetch;
    var batch, norm := Fetch(apps, now), Normalizing(settings);
    forall i, j, id | 0 <= i < |batch| && 0 <= j < |batch| && Produces(batch[i], norm, id) &&
      Produces(batch[j], norm, id)
      ensures AppKey(batch[i]) == AppKey(batch[j])
    {
      NormalizedIsStorable(batch[i], batch[j], settings);
      var m := FetchMembers(apps, now, batch[i]);
      var n := FetchMembers(apps, now, batch[j]);
      SameUID(apps[m], apps[n], batch[i].id);
    }
  }

  /** Nor do those of one application, if its history IDs are distinct and not negative. */
  lemma {:induction false} FetchIDsDistinct(apps: seq<Application>, now: int, settings: Settings)
    requires Separate(apps) && forall i :: 0 <= i < |apps| ==> DistinctHistory(apps[i])
    ensures DistinctIDs(Fetch(apps, now), Normalizing(settings))
  {
    hide EventsOf, NormalizeSourceEvent, Trim, AppKey, DistinctHistory;
    if apps != [] {
      var init, last := apps[..|apps| - 1], apps[|apps| - 1];
      FetchIDsDistinct(init, now, settings);
      var a, b, norm := Fetch(init, now), EventsOf(last, now), Normalizing(settings);
      var c := a + b;
      forall i, j | 0 <= i < j < |c| && norm(c[i]).Some? && norm(c[j]).Some?
        ensures norm(c[i]).value.id != norm(c[j]).value.id
      {
        NormalizedIsStorable(c[i], c[j], settings);
        if j < |a| {
          assert c[i] == a[i] && c[j] == a[j];
        } else if i >= |a| {
          assert c[i] == b[i - |a|] && c[j] == b[j - |a|];
          EventIDsDiffer(last, now, i - |a|, j - |a|);
        } else {
          assert c[i] in a && c[j] in b;
          StrangersDiffer(init, last, now, c[i], c[j]);
        }
      }
    }
  }

  ghost predicate DistinctHistory(app: Application) {
    && (forall m, n :: 0 <= m < n < |app.history| ==> app.history[m].id != app.history[n].id)
    && (forall n :: 0 <= n < |app.history| ==> app.history[n].id >= 0)
  }

  lemma EventIDsDiffer(app: Application, now: int, i: nat, j: nat)
    requires DistinctHistory(app) && i < j < |EventsOf(app, now)|
    ensures EventsOf(app, now)[i].id != EventsOf(app, now)[j].id
  {
    hide EventsOf;
    SnapshotIDsDistinct(app, now, i, j);
  }

  lemma StrangersDiffer(init: seq<Application>, last: Application, now: int, x: SourceEvent, y: SourceEvent)
    requires Separate(init + [last]) && x in Fetch(init, now) && y in EventsOf(last, now)
    ensures x.id != y.id
  {
    hide EventsOf, Fetch, Trim, AppKey;
    var all := init + [last];
    assert forall i :: 0 <= i < |init| ==> all[i] == init[i];
    assert all[|init|] == last;
    var n := FetchMembers(init, now, x);
    Belongs(last, now, y);
    if x.id == y.id { SameUID(init[n], last, x.id); }
  }

  lemma SameUID(a: Application, b: Application, id: string)
    requires HasUID(a) && HasUID(b)
    requires Trim(a.uid) + ":" <= id && Trim(b.uid) + ":" <= id
    ensures Trim(a.uid) == Trim(b.uid)
  {
    hide Trim;
    var u, v := Trim(a.uid), Trim(b.uid);
    assert id == u + [':'] + id[|u| + 1..];
    assert id == v + [':'] + id[|v| + 1..];
    SplitUnique(':', u, v, id[|u| + 1..], id[|v| + 1..]);
  }

  // End to end.

  /** A snapshot that knows when it was reconciled gives the same events whenever it is read. */
  lemma EventsIgnoreClock(app: Application, now: int, now': int)
    requires app.reconciledAt > 0
    ensures EventsOf(app, now) == EventsOf(app, now')
  {
    hide MostRecent, Recorded, OperationEvents, HealthEvents;
    DatedByItself(app, now, now');
    RecordedIgnoresClock(app, now, now', |app.history|);
    OperationIgnoresClock(app, now, now');
    HealthIgnoresClock(app, now, now');
  }

  lemma DatedByItself(app: Application, now: int, now': int)
    requires app.reconciledAt > 0
    ensures MostRecent(app, now) == MostRecent(app, now')
  {
    assert TimeChoices(app)[0] == app.reconciledAt && TimeChoices(app)[0] in TimeChoices(app);
  }

  lemma OperationIgnoresClock(app: Application, now: int, now': int)
    requires MostRecent(app, now) == MostRecent(app, now')
    ensures OperationEvents(app, now) == OperationEvents(app, now')
  {
    hide MostRecent, WithAnnotations, BaseEvent, Trim, Revision, OperationKey, OperationEventID;
  }

  lemma HealthIgnoresClock(app: Application, now: int, now': int)
    requires app.reconciledAt > 0
    ensures HealthEvents(app, now) == HealthEvents(app, now')
  {
    hide WithAnnotations, BaseEvent, Trim, HealthEventID;
  }

  lemma {:induction false} RecordedIgnoresClock(app: Application, now: int, now': int, k: nat)
    requires k <= |app.history| && MostRecent(app, now) == MostRecent(app, now')
    ensures Recorded(app, now, k) == Recorded(app, now', k)
  {
    hide MostRecent, Suppressed, RecordedEvent;
    if k > 0 {
      RecordedIgnoresClock(app, now, now', k - 1);
      EntryIgnoresClock(app.history[k - 1], app, now, now');
    }
  }

  lemma EntryIgnoresClock(h: HistoryEntry, app: Application, now: int, now': int)
    requires MostRecent(app, now) == MostRecent(app, now')
    ensures RecordedEvent(h, app, now) == RecordedEvent(h, app, now')
    ensures Suppressed(h, app, now) == Suppressed(h, app, now')
  {
    assert OccurredAt(h, app, now) == OccurredAt(h, app, now');
    hide OccurredAt, EntryRevision, BaseEvent, WithAnnotations, HistoryOperationKey, HistoryEventID;
    hide SameRevisionWindow, TerminalWindow;
  }

  lemma {:induction false} FetchIgnoresClock(apps: seq<Application>, now: int, now': int)
    requires forall i :: 0 <= i < |apps| ==> apps[i].reconciledAt > 0
    ensures Fetch(apps, now) == Fetch(apps, now')
  {
    hide EventsOf;
    if apps != [] {
      FetchIgnoresClock(apps[..|apps| - 1], now, now');
      EventsIgnoreClock(apps[|apps| - 1], now, now');
    }
  }

  ghost predicate ReadAlike(apps: seq<Application>, now: int, now': int) {
    now == now' || forall i :: 0 <= i < |apps| ==> apps[i].reconciledAt > 0
  }

  /** Polling a cluster that has not changed since the last poll moves no cursor, and changes nothing at all
      unless a history entry without an ID is news to the store although its key was where the cursors were
      before both polls; with positive IDs there is no such entry. */
  lemma UnchangedClusterIsQuiet(apps: seq<Application>, now: int, now': int, st: State, norm: Normalizer,
                                clock: nat -> int, clock': nat -> int)
    requires Separate(apps) && ReadAlike(apps, now, now')
    ensures var batch := Fetch(apps, now);
            var once := Poll(st, batch, norm, clock);
            var twice := Poll(once, Fetch(apps, now'), norm, clock');
            && twice.cursors == once.cursors
            && ((forall se :: se in batch && WithoutID(se) && AlreadyMarked(st.cursors, se) ==>
                   !NewTo(once.db, se, norm)) ==> twice == once)
            && ((forall i, n :: 0 <= i < |apps| && 0 <= n < |apps[i].history| ==> apps[i].history[n].id > 0) ==>
                  twice == once)
  {
    hide Separate, Fetch, AlreadyMarked, SameSlot, SameMark, WithoutID, IngestInto, EventsOf;
    FetchIsRegular(apps, now);
    if now != now' { FetchIgnoresClock(apps, now, now'); }
    var batch := Fetch(apps, now);
    var r := Run(st, batch, norm, clock);
    RepollKeepsCursors(r, clock');
    if forall se :: se in batch && WithoutID(se) && AlreadyMarked(st.cursors, se) ==>
      !NewTo(Poll(st, batch, norm, clock).db, se, norm)
    {
      UnchangedBatchIsQuiet(r, clock');
    }
    if forall i, n :: 0 <= i < |apps| && 0 <= n < |apps[i].history| ==> apps[i].history[n].id > 0 {
      forall se | se in batch ensures !WithoutID(se) {
        var i := FetchMembers(apps, now, se);
        if WithoutID(se) { WithoutIDStems(apps[i], now, se); }
      }
      UnchangedBatchIsQuiet(r, clock');
    }
  }

  predicate NewTo(db: Db, se: SourceEvent, norm: Normalizer) {
    norm(se).Some? && IngestInto(db, norm(se).value, 0).outcome.Accepted?
  }

  /** The application listed under a cursor key, if any. */
  function Listed(apps: seq<Application>, key: string): Option<Application> {
    if apps == [] then None
    else if Trim(apps[|apps| - 1].uid) == key then Some(apps[|apps| - 1])
    else Listed(apps[..|apps| - 1], key)
  }

  lemma {:induction false} ListedIff(apps: seq<Application>, key: string, app: Application)
    requires Separate(apps)
    ensures Listed(apps, key) == Some(app) <==> app in apps && Trim(app.uid) == key
  {
    hide Trim;
    if apps != [] {
      var init, last := apps[..|apps| - 1], apps[|apps| - 1];
      ListedIff(init, key, app);
      assert apps == init + [last];
      assert forall x :: x in init ==> Trim(x.uid) != Trim(last.uid);
    }
  }

  lemma {:induction false} OnlyJoin(a: seq<SourceEvent>, b: seq<SourceEvent>, key: string)
    ensures Only(a + b, key) == Only(a, key) + Only(b, key)
  {
    hide AppKey;
    if b == [] {
      assert a + b == a;
    } else {
      OnlyJoin(a, b[..|b| - 1], key);
      assert (a + b)[..|a + b| - 1] == a + b[..|b| - 1];
    }
  }

  lemma {:induction false} OnlyAllOrNone(batch: seq<SourceEvent>, owner: string, key: string)
    requires forall se :: se in batch ==> AppKey(se) == owner
    ensures Only(batch, key) == if owner == key then batch else []
  {
    hide AppKey;
    if batch != [] {
      OnlyAllOrNone(batch[..|batch| - 1], owner, key);
      assert batch[|batch| - 1] in batch;
    }
  }

  lemma {:induction false} OnlyOfFetch(apps: seq<Application>, now: int, key: string)
    requires Separate(apps)
    ensures Only(Fetch(apps, now), key) == match Listed(apps, key) case None => [] case Some(app) => EventsOf(app, now)
  {
    hide EventsOf, AppKey, Trim;
    if apps != [] {
      var init, last := apps[..|apps| - 1], apps[|apps| - 1];
      OnlyOfFetch(init, now, key);
      forall se | se in EventsOf(last, now) ensures AppKey(se) == Trim(last.uid) { Belongs(last, now, se); }
      OnlyJoin(Fetch(init, now), EventsOf(last, now), key);
      OnlyAllOrNone(EventsOf(last, now), Trim(last.uid), key);
      if Trim(last.uid) == key { NotListed(init, key); }
    }
  }

  lemma {:induction false} NotListed(apps: seq<Application>, key: string)
    requires forall i :: 0 <= i < |apps| ==> Trim(apps[i].uid) != key
    ensures Listed(apps, key) == None
  {
    hide Trim;
    if apps != [] { NotListed(apps[..|apps| - 1], key); }
  }

  /** In whatever order Argo lists the same applications, the poll ends with the same cursors and store. */
  lemma ListingOrderIrrelevant(apps: seq<Application>, apps': seq<Application>, now: int, now': int, settings: Settings,
                               st: State, clock: nat -> int, clock': nat -> int)
    requires Separate(apps) && Separate(apps') && ReadAlike(apps', now, now')
    requires forall app :: app in apps <==> app in apps'
    ensures SameContent(Poll(st, Fetch(apps, now), Normalizing(settings), clock),
                        Poll(st, Fetch(apps', now'), Normalizing(settings), clock'))
  {
    if now != now' { FetchIgnoresClock(apps', now, now'); }
    hide Fetch, HasUID, Poll, Normalizing, EventsOf, Separate, DisjointIDs, SameContent, Only, Listed, Trim;
    FetchIsDisjoint(apps, now, settings);
    forall key ensures Only(Fetch(apps, now), key) == Only(Fetch(apps', now), key) {
      OnlyOfFetch(apps, now, key);
      OnlyOfFetch(apps', now, key);
      var a, b := Listed(apps, key), Listed(apps', key);
      if a.Some? { ListedIff(apps, key, a.value); ListedIff(apps', key, a.value); }
      if b.Some? { ListedIff(apps, key, b.value); ListedIff(apps', key, b.value); }
    }
    InterleavingIrrelevant(st, Fetch(apps, now), Fetch(apps', now), Normalizing(settings), clock, clock');
  }
}
