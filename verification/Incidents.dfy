/** Clusters on which the collector loses an entry or stores something although nothing changed, polled with the
    normaliser the service installs. */
module Incidents {
  import opened Text
  import opened Clock
  import opened Keyset
  import opened CloudEvents
  import opened Store
  import opened Collector
  import opened CatchUp
  import opened Repoll
  import opened SourceEvents
  import opened Normalize
  import opened Pipeline
  import opened Evidence

  // A history entry that can never be stored.

  /** An entry whose stored ID is taken by another event is refused, and as soon as a later entry of its
      application is collected it is never tried again. */
  lemma TakenEntryIsLost(r: Run, i: nat, j: nat)
    requires i < |r.batch| && j < |r.batch| && r.Collected(j)
    requires IsHistory(r.batch[i], AppKey(r.batch[j])) && IsHistory(r.batch[j], AppKey(r.batch[j]))
    requires r.batch[i].historyID < r.batch[j].historyID
    requires r.norm(r.batch[i]).Some? && Taken(r.start.db, r.norm(r.batch[i]).value)
    ensures !r.Collected(i) && !ShouldProcess(r.At(|r.batch|).cursors, r.batch[i])
    ensures Taken(r.At(|r.batch|).db, r.norm(r.batch[i]).value)
  {
    assert r.At(0) == r.start;
    hide After, ShouldProcess, IsHistory, AppKey, IntegrityHash;
    HistoryBehind(r, AppKey(r.batch[j]), j);
    AfterExtends(r.start, r.batch, r.norm, r.clock, 0, i);
    AfterExtends(r.start, r.batch, r.norm, r.clock, 0, |r.batch|);
  }

  /** Known before the poll: such an entry is lost for good exactly when the store takes a later entry of its
      application. */
  lemma TakenEntryIsLostIff(r: Run, i: nat)
    requires HistoryIncreasing(r.batch) && DistinctIDs(r.batch, r.norm) && i < |r.batch|
    requires forall j :: 0 <= j < |r.batch| ==> Trim(r.batch[j].id) != ""
    requires IsHistory(r.batch[i], AppKey(r.batch[i])) && Above(r.Cursor(AppKey(r.batch[i]), 0), r.batch[i])
    requires r.norm(r.batch[i]).Some? && Taken(r.start.db, r.norm(r.batch[i]).value)
    ensures !ShouldProcess(r.At(|r.batch|).cursors, r.batch[i]) <==>
              exists j :: i < j < |r.batch| && IsHistory(r.batch[j], AppKey(r.batch[i])) &&
                          Takes(r.start.db, r.batch[j], r.norm)
  {
    TakenIsRefused(r.start.db, r.norm(r.batch[i]).value);
    assert !Takes(r.start.db, r.batch[i], r.norm);
    hide ShouldProcess, IsHistory, AppKey, After, Takes, Taken, Above, HistoryIncreasing, DistinctIDs;
    TriedAgainIff(r, i);
  }

  lemma TakenIsRefused(db: Db, e: StoredEvent)
    requires Taken(db, e)
    ensures !IngestInto(db, e, 0).outcome.Ok()
  {
    hide ValidStored, IntegrityHash;
  }

  /** The store holds something else under the event's ID. */
  predicate Taken(db: Db, e: StoredEvent) {
    e.id in db && db[e.id].integrity != Seal(e).integrity
  }

  const FOREIGN := StoredEvent("evt_argocd_u:hist:1", "deploy", "api", "pay", 5, map[], Payload("{}", map[]), Unset, 1)

  lemma FetchOfOne(app: Application, now: int)
    ensures Fetch([app], now) == EventsOf(app, now)
  {
    hide EventsOf;
    assert [app][..0] == [];
  }

  lemma ForeignHash(e: StoredEvent)
    requires e.source != "api" && e.integrity.Unset?
    ensures Seal(FOREIGN).integrity != Seal(e).integrity
  {
    assert IntegrityHash(FOREIGN).of.source == "api" && IntegrityHash(e).of.source == e.source;
  }

  /** A sound store in which an API client has used the ID of entry 1. */
  const FOREIGN_STORE: Db := map["evt_argocd_u:hist:1" := Seal(FOREIGN)]

  lemma ForeignStoreIsSound()
    ensures WellFormed(FOREIGN_STORE) && Verifiable(FOREIGN_STORE)
  {
  }

  lemma RecordedID(app: Application, h: HistoryEntry, now: int)
    requires Trim(app.uid) == "u" && Trim(app.name) != "" && h.deployedAt != 0 && h.id > 0
    ensures "evt_argocd_" + RecordedEvent(h, app, now).id == "evt_argocd_u:hist:" + Decimal(h.id)
  {
    hide Trim, Decimal, KindOf, AppKey, EntryRevision, TimeKey, RecordedEvent, HistoryOperationKey;
    RecordedFacts(app, h, now);
    JoinID(Decimal(h.id));
  }

  lemma JoinID(tail: string)
    ensures "evt_argocd_" + ("u" + ":" + ("hist:" + tail)) == "evt_argocd_u:hist:" + tail
  {
    assert "evt_argocd_" + ("u" + ":" + "hist:") == "evt_argocd_u:hist:";
    assert "u" + ":" + ("hist:" + tail) == ("u" + ":" + "hist:") + tail;
  }

  lemma EntryFacts(app: Application, h: HistoryEntry, now: int, settings: Settings)
    requires Trim(app.uid) == "u" && Trim(app.name) != "" && h.deployedAt != 0 && h.id > 0
    ensures var se := RecordedEvent(h, app, now);
            && IsHistory(se, "u") && se.historyID == h.id && Trim(se.id) != ""
            && Stored(se, settings, "evt_argocd_" + se.id)
  {
    hide Trim, Decimal, KindOf, AppKey, NormalizeSourceEvent, EntryRevision, HistoryTail, RecordedEvent,
      HistoryOperationKey;
    RecordedFacts(app, h, now);
    hide ValidStored;
    NormalizedFacts(RecordedEvent(h, app, now), settings);
  }

  /** The event normalises, into a storable event with that ID. */
  ghost predicate Stored(se: SourceEvent, settings: Settings, id: string) {
    var e := NormalizeSourceEvent(se, settings);
    e.Some? && ValidStored(e.value) && e.value.id == id && e.value.source == "argocd" && e.value.integrity.Unset?
  }

  /** A snapshot with two entries and no operation or health. */
  ghost predicate TwoEntries(app: Application) {
    && Trim(app.uid) == "u" && Trim(app.name) != "" && app.operation.None? && Trim(app.health) == ""
    && |app.history| == 2 && app.history[0].id == 1 && app.history[1].id == 2
    && app.history[0].deployedAt != 0 && app.history[1].deployedAt != 0
  }

  lemma EventsOfTwoEntries(app: Application, now: int)
    requires TwoEntries(app)
    ensures EventsOf(app, now) == [RecordedEvent(app.history[0], app, now), RecordedEvent(app.history[1], app, now)]
  {
    hide RecordedEvent, OccurredAt, EntryRevision, Trim;
    assert Recorded(app, now, 1) == [RecordedEvent(app.history[0], app, now)];
  }

  /** The first poll of such an application on that store: entry 1 is attempted, refused, and never attempted
      again. */
  lemma EntryCanBeLost(app: Application, now: int, settings: Settings, clock: nat -> int)
    requires TwoEntries(app)
    ensures WellFormed(FOREIGN_STORE) && Verifiable(FOREIGN_STORE)
    ensures var r := Run(State(map[], FOREIGN_STORE), Fetch([app], now), Normalizing(settings), clock);
            |r.batch| == 2 && r.Attempted(0) && !r.Collected(0) && !ShouldProcess(r.At(2).cursors, r.batch[0])
  {
    hide EventsOf, Fetch, RecordedEvent, Verifiable, WellFormed, Decimal, ShouldProcess, After, IsHistory, Trim;
    ForeignStoreIsSound();
    FetchOfOne(app, now);
    EventsOfTwoEntries(app, now);
    var a, b := RecordedEvent(app.history[0], app, now), RecordedEvent(app.history[1], app, now);
    EntryFacts(app, app.history[0], now, settings);
    EntryFacts(app, app.history[1], now, settings);
    RecordedID(app, app.history[0], now);
    RecordedID(app, app.history[1], now);
    FirstDecimals();
    var r := Run(State(map[], FOREIGN_STORE), Fetch([app], now), Normalizing(settings), clock);
    TakenByForeigner(a, settings);
    hide Stored, FOREIGN, ValidStored, Taken;
    LostEntry(r, "u");
  }

  lemma TakenByForeigner(se: SourceEvent, settings: Settings)
    requires Stored(se, settings, "evt_argocd_u:hist:1")
    ensures Taken(FOREIGN_STORE, NormalizeSourceEvent(se, settings).value)
  {
    hide NormalizeSourceEvent, IntegrityHash, ValidStored;
    ForeignHash(NormalizeSourceEvent(se, settings).value);
  }

  lemma FirstDecimals()
    ensures "evt_argocd_u:hist:" + Decimal(1) == "evt_argocd_u:hist:1"
    ensures "evt_argocd_u:hist:" + Decimal(2) == "evt_argocd_u:hist:2"
  {
  }

  /** An entry whose ID is taken, then one that is new. */
  lemma LostEntry(r: Run, app: string)
    requires |r.batch| == 2 && r.start.cursors == map[]
    requires IsHistory(r.batch[0], app) && IsHistory(r.batch[1], app)
    requires 0 < r.batch[0].historyID < r.batch[1].historyID
    requires Trim(r.batch[0].id) != "" && Trim(r.batch[1].id) != ""
    requires r.norm(r.batch[0]).Some? && Taken(r.start.db, r.norm(r.batch[0]).value)
    requires r.norm(r.batch[1]).Some? && ValidStored(r.norm(r.batch[1]).value)
    requires r.norm(r.batch[1]).value.id !in r.start.db
    ensures r.Attempted(0) && !r.Collected(0) && !ShouldProcess(r.At(2).cursors, r.batch[0])
  {
    assert r.At(0) == r.start;
    hide Trim, KindOf, AppKey, After, ValidStored, IntegrityHash;
    assert !r.Collected(0);
    StepState(r, 0);
    HandleCases(r.At(0), r.batch[0], r.norm, r.clock(0));
    assert r.Collected(1);
    TakenEntryIsLost(r, 0, 1);
  }

  // A history entry without an ID, and the finished operation whose slot it uses.

  /** When both have been collected, the entry is let through again by the next poll of the same snapshot exactly
      when its key is not the operation's. */
  lemma EntryRepeatsIff(app: Application, now: int, st: State, norm: Normalizer, clock: nat -> int, i: nat, j: nat)
    requires Trim(app.uid) != "" && i < j < |EventsOf(app, now)|
    requires WithoutID(EventsOf(app, now)[i]) && EventsOf(app, now)[j].eventType == "argo.sync.finished"
    requires var r := Run(st, EventsOf(app, now), norm, clock); r.Collected(i) && r.Collected(j)
    ensures var r := Run(st, EventsOf(app, now), norm, clock);
            ShouldProcess(r.At(|r.batch|).cursors, r.batch[i]) <==>
              Trim(r.batch[i].operationKey) != Trim(r.batch[j].operationKey)
  {
    hide EventsOf, After, ShouldProcess, KindOf, Trim, IngestInto, AppKey, SlotOf, InSlot, Mark, Run.Collected;
    var r := Run(st, EventsOf(app, now), norm, clock);
    TerminalPair(app, now, i, j);
    LetThroughAgainIff(r, i, j);
  }

  /** The entry and the finished operation share a slot with each other and with nothing after them. */
  lemma TerminalPair(app: Application, now: int, i: nat, j: nat)
    requires Trim(app.uid) != "" && i < j < |EventsOf(app, now)|
    requires WithoutID(EventsOf(app, now)[i]) && EventsOf(app, now)[j].eventType == "argo.sync.finished"
    ensures var a, b := EventsOf(app, now)[i], EventsOf(app, now)[j];
            && SameSlot(a, b)
            && (SameMark(a, b) <==> Trim(a.operationKey) == Trim(b.operationKey))
            && forall k :: j < k < |EventsOf(app, now)| ==> !SameSlot(a, EventsOf(app, now)[k])
  {
    hide EventsOf, AppKey, KindOf, Trim, SameSlot, SameMark, BelongsTo;
    var events := EventsOf(app, now);
    FinishIsLast(app, now, j);
    KindsOfSourceEvents(events[i]);
    KindsOfSourceEvents(events[j]);
    Belongs(app, now, events[i]);
    Belongs(app, now, events[j]);
    SharedSlot(events[i], events[j], app);
    forall k | j < k < |events| ensures !SameSlot(events[i], events[k]) { HealthElsewhere(events[i], events[k]); }
  }

  lemma SharedSlot(a: SourceEvent, b: SourceEvent, app: Application)
    requires KindOf(a).History? && KindOf(b).History? && a.historyID <= 0 && b.historyID <= 0
    requires BelongsTo(a, app) && BelongsTo(b, app)
    ensures SameSlot(a, b) && (SameMark(a, b) <==> Trim(a.operationKey) == Trim(b.operationKey))
  {
    hide AppKey, KindOf, Trim;
    TrimTwice(a.operationKey);
    TrimTwice(b.operationKey);
  }

  lemma HealthElsewhere(a: SourceEvent, b: SourceEvent)
    requires KindOf(a).History? && KindOf(b).Health?
    ensures !SameSlot(a, b)
  {
    hide AppKey, KindOf;
  }

  /** Nothing after the finished operation uses its slot. */
  lemma FinishIsLast(app: Application, now: int, j: nat)
    requires j < |EventsOf(app, now)| && EventsOf(app, now)[j].eventType == "argo.sync.finished"
    ensures EventsOf(app, now)[j].historyID == 0
    ensures forall k :: j < k < |EventsOf(app, now)| ==> KindOf(EventsOf(app, now)[k]).Health?
  {
    hide EventsOf, Stems, Suppressed, KindOf, Profile;
    var origin := EventOrigins(app, now);
    FinishStems(app, now, EventsOf(app, now)[j], origin[j]);
    ProfileOf(app, now, EventsOf(app, now)[j], origin[j]);
    forall k | j < k < |EventsOf(app, now)| ensures KindOf(EventsOf(app, now)[k]).Health? {
      ProfileOf(app, now, EventsOf(app, now)[k], origin[k]);
      assert OriginBefore(origin[j], origin[k]);
      ProfiledHealth(app, EventsOf(app, now)[k], origin[k]);
    }
    ProfiledOperation(app, EventsOf(app, now)[j], origin[j]);
  }

  lemma ProfiledHealth(app: Application, se: SourceEvent, o: Origin)
    requires Profile(app, se, o)
    ensures o.FromHealth? ==> KindOf(se).Health?
  {
    hide KindOf;
  }

  lemma ProfiledOperation(app: Application, se: SourceEvent, o: Origin)
    requires Profile(app, se, o)
    ensures o.FromOperation? ==> se.historyID == 0
  {
    hide KindOf;
  }

  lemma FinishStems(app: Application, now: int, se: SourceEvent, o: Origin)
    requires Stems(app, now, se, o) && se.eventType == "argo.sync.finished"
    ensures o.FromOperation?
  {
    hide Suppressed, WithAnnotations, OperationKey, OperationFinish, OperationEventID, Trim, Revision, Actor,
      HealthEventID, HistoryEventID, OccurredAt, EntryRevision, TimeKey, HistoryOperationKey;
  }

  /** One event of a slot whose key is new, with an ID that is new, is collected and leaves its key. */
  lemma NewInSlot(r: Run, app: string, slot: Slot, i: nat)
    requires i < |r.batch| && InSlot(r.batch[i], app, slot) && Storable(r.batch[i], r.norm)
    requires Mark(r.batch[i]) != "" && slot.Fold(Mark(r.batch[i])) != slot.Fold(slot.Of(r.Cursor(app, i)))
    requires r.norm(r.batch[i]).value.id !in r.At(i).db
    ensures slot.Of(r.Cursor(app, i + 1)) == Mark(r.batch[i])
    ensures r.At(i + 1).db.Keys == r.At(i).db.Keys + {r.norm(r.batch[i]).value.id}
  {
    hide InSlot, Slot.Of, Slot.Fold, Mark, After, IntegrityHash, ShouldProcess, ValidStored, Run.Cursor;
    SlotStep(r, app, slot, i);
    StepState(r, i);
    OutcomeIgnoresClock(r.At(i).db, r.norm(r.batch[i]).value, 0, r.clock(i));
  }

  /** An entry whose key the cursor holds, then an event of its slot with another key: the first poll skips the
      entry and moves the slot, the second one, of the same two events, stores the entry. */
  lemma SkippedThenStored(r: Run, app: string, slot: Slot, clock: nat -> int)
    requires |r.batch| == 2 && InSlot(r.batch[0], app, slot) && InSlot(r.batch[1], app, slot)
    requires Storable(r.batch[0], r.norm) && Storable(r.batch[1], r.norm)
    requires Mark(r.batch[0]) != "" && slot.Fold(Mark(r.batch[0])) == slot.Fold(slot.Of(CursorOf(r.start.cursors, app)))
    requires Mark(r.batch[1]) != "" && slot.Fold(Mark(r.batch[1])) != slot.Fold(Mark(r.batch[0]))
    requires r.norm(r.batch[0]).value.id !in r.start.db && r.norm(r.batch[1]).value.id !in r.start.db
    requires r.norm(r.batch[0]).value.id != r.norm(r.batch[1]).value.id
    ensures r.norm(r.batch[0]).value.id !in r.At(2).db && r.norm(r.batch[0]).value.id in Again(r, clock).At(2).db
    ensures Again(r, clock).At(2).cursors == r.At(2).cursors
  {
    SecondOnlyStored(r, app, slot);
    var s := Again(r, clock);
    AgainStart(r, clock);
    assert s.Cursor(app, 0) == r.Cursor(app, 2);
    RepollKeepsCursors(r, clock);
    hide InSlot, Slot.Of, Slot.Fold, Mark, After, ShouldProcess, ValidStored, Trim, Run.Cursor;
    SlotStep(s, app, slot, 0);
    AttemptedIsPresent(s, 0);
  }

  lemma SecondOnlyStored(r: Run, app: string, slot: Slot)
    requires |r.batch| == 2 && InSlot(r.batch[0], app, slot) && InSlot(r.batch[1], app, slot)
    requires Storable(r.batch[1], r.norm)
    requires Mark(r.batch[0]) != "" && slot.Fold(Mark(r.batch[0])) == slot.Fold(slot.Of(CursorOf(r.start.cursors, app)))
    requires Mark(r.batch[1]) != "" && slot.Fold(Mark(r.batch[1])) != slot.Fold(Mark(r.batch[0]))
    requires r.norm(r.batch[1]).value.id !in r.start.db
    ensures slot.Of(r.Cursor(app, 2)) == Mark(r.batch[1])
    ensures r.At(2).db.Keys == r.start.db.Keys + {r.norm(r.batch[1]).value.id}
  {
    assert r.At(0) == r.start && r.Cursor(app, 0) == CursorOf(r.start.cursors, app);
    hide InSlot, Slot.Of, Slot.Fold, Mark, After, ShouldProcess, ValidStored, Trim;
    SlotStep(r, app, slot, 0);
    StepState(r, 0);
    NewInSlot(r, app, slot, 1);
  }

  /** The finished operation is polled; then an entry with its key and the next operation; then these again. */
  lemma GrowsOnRepoll(f1: SourceEvent, entry: SourceEvent, f2: SourceEvent, app: string, norm: Normalizer,
                      c1: nat -> int, c2: nat -> int, c3: nat -> int)
    requires InSlot(f1, app, TerminalSlot) && InSlot(entry, app, TerminalSlot) && InSlot(f2, app, TerminalSlot)
    requires Storable(f1, norm) && Storable(entry, norm) && Storable(f2, norm)
    requires Mark(f1) == Mark(entry) && Trim(Mark(f1)) != "" && Mark(f2) != "" && Trim(Mark(f2)) != Trim(Mark(f1))
    requires norm(entry).value.id != norm(f1).value.id && norm(entry).value.id != norm(f2).value.id
    requires norm(f1).value.id != norm(f2).value.id
    ensures var s1 := Poll(State(map[], map[]), [f1], norm, c1);
            var s2 := Poll(s1, [entry, f2], norm, c2);
            var s3 := Poll(s2, [entry, f2], norm, c3);
            s3.cursors == s2.cursors && norm(entry).value.id !in s2.db && norm(entry).value.id in s3.db
  {
    var r1 := Run(State(map[], map[]), [f1], norm, c1);
    assert r1.At(0) == r1.start && r1.Cursor(app, 0) == NO_CURSOR && Trim("") == "";
    assert TerminalSlot.Fold(Mark(f1)) == Trim(Mark(f1)) && TerminalSlot.Fold(Mark(f2)) == Trim(Mark(f2));
    hide InSlot, Mark, After, ShouldProcess, ValidStored, Trim;
    NewInSlot(r1, app, TerminalSlot, 0);
    SkippedThenStored(Run(r1.At(1), [entry, f2], norm, c2), app, TerminalSlot, c3);
  }

  /** A finished operation and no health. */
  ghost predicate OnlyFinished(app: Application) {
    && Trim(app.uid) != "" && Trim(app.name) != "" && Trim(app.health) == ""
    && app.operation.Some? && app.operation.value.phase.Terminal()
    && app.operation.value.startedAt != 0 && app.operation.value.finishedAt != 0
    && Trim(Revision(app)) != "" && ':' !in Trim(Revision(app))
  }

  function FinishOf(app: Application, now: int): SourceEvent
    requires app.operation.Some?
  {
    OperationEvent(app.operation.value, app, now, false)
  }

  lemma EventsWhenFinished(app: Application, now: int)
    requires OnlyFinished(app)
    ensures app.history == [] ==> EventsOf(app, now) == [FinishOf(app, now)]
    ensures |app.history| == 1 && Trim(app.history[0].revision) != "" &&
              Trim(app.history[0].revision) != Trim(Revision(app)) ==>
              EventsOf(app, now) == [RecordedEvent(app.history[0], app, now), FinishOf(app, now)]
  {
    hide RecordedEvent, Trim, OperationEvent, Revision, OperationEvents, HealthEvents, Suppressed, OccurredAt;
    NoHealth(app, now);
    if |app.history| == 1 {
      SuppressionReach(app.history[0], app, now);
      if !Suppressed(app.history[0], app, now) { OneEntry(app, now); }
    }
  }

  lemma OneEntry(app: Application, now: int)
    requires |app.history| == 1 && !Suppressed(app.history[0], app, now)
    ensures Recorded(app, now, 1) == [RecordedEvent(app.history[0], app, now)]
  {
    hide RecordedEvent, Suppressed;
    assert Recorded(app, now, 0) == [];
  }

  lemma NoHealth(app: Application, now: int)
    requires OnlyFinished(app)
    ensures HealthEvents(app, now) == [] && OperationEvents(app, now) == [FinishOf(app, now)]
  {
    hide Trim, OperationEvent, Revision;
  }

  lemma FinishInSlot(app: Application, now: int, settings: Settings)
    requires OnlyFinished(app)
    ensures var se := FinishOf(app, now);
            && InSlot(se, Trim(app.uid), TerminalSlot) && Storable(se, Normalizing(settings))
            && Mark(se) == KeyRevision(Revision(app)) + [':'] + Decimal(UnixNano(app.operation.value.startedAt))
            && Mark(se) != "" && Trim(Mark(se)) == Mark(se)
            && se.id == Trim(app.uid) + ":" + ("op:" + Mark(se) + ":" + Trim("finish"))
  {
    hide Trim, KindOf, AppKey, NormalizeSourceEvent, OperationEvent, Revision, OperationKey, ValidStored, Decimal,
      UnixNano;
    var op := app.operation.value;
    OperationFacts(app, op, now, false);
    OperationKeyShape(Revision(app), op.startedAt, op.finishedAt);
    NormalizedFacts(FinishOf(app, now), settings);
  }

  lemma EntryInSlot(app: Application, h: HistoryEntry, now: int, settings: Settings)
    requires Trim(app.uid) != "" && Trim(app.name) != "" && h.deployedAt != 0 && h.id <= 0 && Trim(h.revision) != ""
    ensures var se := RecordedEvent(h, app, now);
            && InSlot(se, Trim(app.uid), TerminalSlot) && Storable(se, Normalizing(settings))
            && Mark(se) == Trim(h.revision) + [':'] + Decimal(UnixNano(h.deployedAt))
            && "hist:" <= se.id[|Trim(app.uid)| + 1..] && Trim(app.uid) + ":" <= se.id
  {
    TrimTwice(h.revision);
    hide Trim, KindOf, AppKey, NormalizeSourceEvent, RecordedEvent, OperationKey, ValidStored, Decimal, UnixNano,
      HistoryTail;
    RecordedFacts(app, h, now);
    OperationKeyShape(Trim(h.revision), 0, h.deployedAt);
    NormalizedFacts(RecordedEvent(h, app, now), settings);
  }

  lemma ThreeIDs(f1: SourceEvent, entry: SourceEvent, f2: SourceEvent, uid: string, k1: string, k2: string,
                 settings: Settings)
    requires Storable(f1, Normalizing(settings)) && Storable(entry, Normalizing(settings)) &&
               Storable(f2, Normalizing(settings))
    requires f1.id == uid + ":" + ("op:" + k1 + ":" + Trim("finish")) &&
               f2.id == uid + ":" + ("op:" + k2 + ":" + Trim("finish"))
    requires uid + ":" <= entry.id && "hist:" <= entry.id[|uid| + 1..]
    requires Diverge(k1, k2)
    ensures var norm := Normalizing(settings);
            && norm(entry).value.id != norm(f1).value.id && norm(entry).value.id != norm(f2).value.id
            && norm(f1).value.id != norm(f2).value.id
  {
    hide Trim, NormalizeSourceEvent, ValidStored;
    NormalizedIsStorable(f1, f2, settings);
    NormalizedIsStorable(f1, entry, settings);
    NormalizedIsStorable(f2, entry, settings);
    assert entry.id[|uid| + 1] == entry.id[|uid| + 1..][0] == 'h';
    assert f1.id[|uid| + 1] == 'o' && f2.id[|uid| + 1] == 'o';
    var d :| 0 <= d < |k1| && d < |k2| && k1[d] != k2[d];
    assert f1.id[|uid| + 4 + d] == k1[d] && f2.id[|uid| + 4 + d] == k2[d];
  }

  /** The texts differ at some position both have. */
  ghost predicate Diverge(a: string, b: string) {
    exists d :: 0 <= d < |a| && d < |b| && a[d] != b[d]
  }

  /** Keys of different colon-free revisions differ before either ends. */
  lemma KeysDiverge(r1: string, t1: string, r2: string, t2: string)
    requires ':' !in r1 && ':' !in r2 && r1 != r2
    ensures Diverge(r1 + [':'] + t1, r2 + [':'] + t2)
  {
    var a, b := r1 + [':'] + t1, r2 + [':'] + t2;
    var m := if |r1| <= |r2| then |r1| else |r2|;
    assert |r1| == |r2| && (forall d :: 0 <= d < |r1| ==> r1[d] == r2[d]) ==> r1 == r2;
    if forall d :: 0 <= d <= m ==> a[d] == b[d] {
      assert a[|r1|] == ':' && b[|r2|] == ':';
      assert forall d :: 0 <= d < |r1| ==> a[d] == r1[d];
      assert forall d :: 0 <= d < |r2| ==> b[d] == r2[d];
    }
  }

  /** A cluster whose third poll stores an event although it has not changed since the second: the history
      entry of the operation seen first, recorded without an ID and dated when that operation started, carries
      the key the first poll left, is skipped by the second poll and let through by the third. */
  lemma UnchangedClusterCanGrow(before: Application, after: Application, now: int, settings: Settings,
                                c1: nat -> int, c2: nat -> int, c3: nat -> int)
    requires OnlyFinished(before) && before.history == []
    requires OnlyFinished(after) && |after.history| == 1 && Trim(after.uid) == Trim(before.uid)
    requires after.history[0].id <= 0 && after.history[0].deployedAt == before.operation.value.startedAt
    requires Trim(after.history[0].revision) == Trim(Revision(before)) != Trim(Revision(after))
    ensures var s1 := Poll(State(map[], map[]), Fetch([before], now), Normalizing(settings), c1);
            var s2 := Poll(s1, Fetch([after], now), Normalizing(settings), c2);
            var s3 := Poll(s2, Fetch([after], now), Normalizing(settings), c3);
            s3.cursors == s2.cursors && s3.db.Keys > s2.db.Keys
  {
    hide Trim, KindOf, AppKey, NormalizeSourceEvent, RecordedEvent, OperationEvent, Poll, EventsOf, InSlot, Mark, Fetch,
      Storable, Revision, WellFormed, Decimal, UnixNano;
    FetchOfOne(before, now);
    FetchOfOne(after, now);
    EventsWhenFinished(before, now);
    EventsWhenFinished(after, now);
    var f1, entry, f2 := FinishOf(before, now), RecordedEvent(after.history[0], after, now), FinishOf(after, now);
    FinishInSlot(before, now, settings);
    FinishInSlot(after, now, settings);
    EntryInSlot(after, after.history[0], now, settings);
    KeysDiverge(Trim(Revision(before)), Decimal(UnixNano(before.operation.value.startedAt)), Trim(Revision(after)),
                Decimal(UnixNano(after.operation.value.startedAt)));
    ThreeIDs(f1, entry, f2, Trim(after.uid), Mark(f1), Mark(f2), settings);
    GrowsOnRepoll(f1, entry, f2, Trim(after.uid), Normalizing(settings), c1, c2, c3);
    var first := Poll(State(map[], map[]), [f1], Normalizing(settings), c1);
    PollExtends(Poll(first, [entry, f2], Normalizing(settings), c2), [entry, f2], Normalizing(settings), c3);
  }

  lemma PollExtends(st: State, batch: seq<SourceEvent>, norm: Normalizer, clock: nat -> int)
    ensures st.db.Keys <= Poll(st, batch, norm, clock).db.Keys
  {
    hide Handle;
    AfterExtends(st, batch, norm, clock, 0, |batch|);
  }

  // A finished operation that never gets on record.

  /** A first deployment under way: its entry, without an ID, is dated when the operation started. */
  ghost predicate FirstDeployment(app: Application) {
    && Trim(app.uid) != "" && Trim(app.name) != "" && Trim(app.health) == "" && app.operation.Some?
    && app.operation.value.startedAt != 0 && Trim(Revision(app)) != ""
    && |app.history| == 1 && app.history[0].id <= 0 && Trim(app.history[0].revision) == Trim(Revision(app))
    && app.history[0].deployedAt == app.operation.value.startedAt
  }

  lemma EventsWhileRunning(app: Application, now: int)
    requires FirstDeployment(app) && app.operation.value.phase.Running?
    ensures EventsOf(app, now) ==
              [RecordedEvent(app.history[0], app, now), OperationEvent(app.operation.value, app, now, true)]
  {
    hide RecordedEvent, Trim, OperationEvent, Revision, OccurredAt, EntryRevision;
    OneEntry(app, now);
  }

  lemma EventsOnceDone(app: Application, now: int)
    requires FirstDeployment(app) && app.operation.value.phase.Terminal()
    requires app.operation.value.startedAt <= app.operation.value.finishedAt && app.operation.value.finishedAt != 0
    ensures EventsOf(app, now) == [OperationEvent(app.operation.value, app, now, false)]
  {
    hide RecordedEvent, Trim, OperationEvent, Revision, Suppressed, OperationEvents, HealthEvents, OccurredAt;
    DeployedDuring(app, now);
    NothingRecorded(app, now);
    OnlyFinish(app, now);
  }

  lemma DeployedDuring(app: Application, now: int)
    requires FirstDeployment(app) && app.operation.value.phase.Terminal()
    requires app.operation.value.startedAt <= app.operation.value.finishedAt && app.operation.value.finishedAt != 0
    ensures Suppressed(app.history[0], app, now)
  {
    SuppressionReach(app.history[0], app, now);
    hide Trim, Revision, Suppressed;
  }

  lemma NothingRecorded(app: Application, now: int)
    requires |app.history| == 1 && Suppressed(app.history[0], app, now)
    ensures Recorded(app, now, 1) == []
  {
    hide Suppressed, RecordedEvent;
    assert Recorded(app, now, 0) == [];
  }

  lemma OnlyFinish(app: Application, now: int)
    requires app.operation.Some? && app.operation.value.phase.Terminal() && Trim(app.health) == ""
    ensures OperationEvents(app, now) == [OperationEvent(app.operation.value, app, now, false)]
    ensures HealthEvents(app, now) == []
  {
    hide Trim, OperationEvent;
  }

  /** Entry and operation have one key. */
  lemma OneKey(app: Application, now: int)
    requires FirstDeployment(app)
    ensures KeyOf(app, now) == EntryKey(app, 0, now)
  {
    var h, op := app.history[0], app.operation.value;
    TrimTwice(h.revision);
    assert KeyRevision(EntryRevision(h, app)) == KeyRevision(Revision(app));
    assert KeyInstant(0, OccurredAt(h, app, now)) == KeyInstant(op.startedAt, OperationFinish(op, app, now));
    KeyMeans(EntryRevision(h, app), 0, OccurredAt(h, app, now), Revision(app), op.startedAt,
             OperationFinish(op, app, now));
    hide OperationKey, KeyRevision, KeyInstant, Trim;
  }

  lemma OperationIDsDiffer(uid: string, key: string, key': string)
    ensures OperationID(uid, key, true) != OperationID(uid, key', false)
  {
    assert Trim("start") == "start" && Trim("finish") == "finish";
    hide Trim;
    var s, f := OperationID(uid, key, true), OperationID(uid, key', false);
    assert s[|s| - 1] == 't' && f[|f| - 1] == 'h';
  }

  lemma EntryIDDiffers(uid: string, id: int, revision: string, t: int, key: string)
    ensures EntryID(uid, id, revision, t) != OperationID(uid, key, false)
  {
    hide Trim, HistoryTail;
    var e, f := EntryID(uid, id, revision, t), OperationID(uid, key, false);
    assert e[11 + |uid| + 1] == 'h' && f[11 + |uid| + 1] == 'o';
  }

  /** What the first poll leaves: the key in the terminal slot... */
  lemma RunningLeavesKey(app: Application, now: int, settings: Settings, clock: nat -> int)
    requires FirstDeployment(app) && app.operation.value.phase.Running? && now != 0
    ensures var r := Run(State(map[], map[]), EventsOf(app, now), Normalizing(settings), clock);
            |r.batch| == 2 && r.Cursor(Trim(app.uid), 2).lastTerminalKey == KeyOf(app, now)
  {
    var uid := Trim(app.uid);
    var r := Run(State(map[], map[]), EventsOf(app, now), Normalizing(settings), clock);
    EventsWhileRunning(app, now);
    EntryInTerminalSlot(app, now, 0);
    EntryIsStorable(app, now, 0, settings);
    OperationInSlot(app, now, true);
    OneKey(app, now);
    hide EventsOf, RecordedEvent, OperationEvent, NormalizeSourceEvent, InSlot, Mark, ValidStored, OperationID,
      EntryIDOf, KeyOf, EntryKey, Revision, FirstDeployment, Normalizing;
    StartIsElsewhere(r.batch[1], uid);
    FirstKeyStays(r, uid);
  }

  lemma FirstKeyStays(r: Run, uid: string)
    requires r.start == State(map[], map[]) && |r.batch| == 2
    requires InSlot(r.batch[0], uid, TerminalSlot) && !InSlot(r.batch[1], uid, TerminalSlot)
    requires Storable(r.batch[0], r.norm) && PlainKey(Mark(r.batch[0]))
    ensures r.Cursor(uid, 2).lastTerminalKey == Mark(r.batch[0])
  {
    assert r.At(0) == r.start && r.Cursor(uid, 0) == NO_CURSOR && Trim("") == "";
    hide InSlot, Mark, After, ShouldProcess, Storable, Trim;
    NewInSlot(r, uid, TerminalSlot, 0);
    SlotStep(r, uid, TerminalSlot, 1);
  }

  /** ...and no finish event. */
  lemma RunningLeavesNoFinish(app: Application, now: int, settings: Settings, clock: nat -> int, key: string)
    requires FirstDeployment(app) && app.operation.value.phase.Running? && now != 0
    ensures var r := Run(State(map[], map[]), EventsOf(app, now), Normalizing(settings), clock);
            |r.batch| == 2 && OperationID(Trim(app.uid), key, false) !in r.At(2).db
  {
    var r := Run(State(map[], map[]), EventsOf(app, now), Normalizing(settings), clock);
    EventsWhileRunning(app, now);
    NeitherIsFinish(app, now, settings, key);
    hide EventsOf, RecordedEvent, OperationEvent, NormalizeSourceEvent, Normalizing, Trim, After, OperationID,
      FirstDeployment;
    NeitherHasID(r, OperationID(Trim(app.uid), key, false));
  }

  lemma NeitherIsFinish(app: Application, now: int, settings: Settings, key: string)
    requires FirstDeployment(app) && app.operation.value.phase.Running? && now != 0
    ensures var norm, id := Normalizing(settings), OperationID(Trim(app.uid), key, false);
            var entry := RecordedEvent(app.history[0], app, now);
            var start := OperationEvent(app.operation.value, app, now, true);
            && (norm(entry).Some? ==> norm(entry).value.id != id) && (norm(start).Some? ==> norm(start).value.id != id)
  {
    EntryIsStorable(app, now, 0, settings);
    OperationIsStorable(app, now, true, settings);
    hide RecordedEvent, OperationEvent, NormalizeSourceEvent, Trim, OperationID, EntryIDOf, KeyOf, Revision,
      FirstDeployment, Storable;
    OperationIDsDiffer(Trim(app.uid), KeyOf(app, now), key);
    EntryDiffers(app, 0, now, key);
  }

  lemma NeitherHasID(r: Run, id: string)
    requires r.start.db == map[] && |r.batch| == 2
    requires forall i :: 0 <= i < 2 && r.norm(r.batch[i]).Some? ==> r.norm(r.batch[i]).value.id != id
    ensures id !in r.At(2).db
  {
    assert r.At(0) == r.start;
    hide After, ShouldProcess;
    if id in r.At(2).db {
      var j := WrittenBetween(r, 0, 2, id);
      assert false;
    }
  }

  lemma StartIsElsewhere(se: SourceEvent, uid: string)
    requires InSlot(se, uid, StartSlot)
    ensures !InSlot(se, uid, TerminalSlot)
  {
    hide KindOf, AppKey;
  }

  lemma EntryDiffers(app: Application, n: nat, now: int, key: string)
    requires n < |app.history|
    ensures EntryIDOf(app, n, now) != OperationID(Trim(app.uid), key, false)
  {
    hide EntryID, OperationID, Trim, EntryRevision, OccurredAt;
    var h := app.history[n];
    EntryIDDiffers(Trim(app.uid), h.id, EntryRevision(h, app), OccurredAt(h, app, now), key);
  }

  /** An application's first deployment, polled while it runs and once it is done: the entry takes the key, so
      the second poll changes nothing and the finish event, which is the primary completion signal, is never
      stored, without any failure or crash. */
  lemma FinishCanBeLost(running: Application, done: Application, now: int, now': int, settings: Settings,
                        c1: nat -> int, c2: nat -> int)
    requires FirstDeployment(running) && running.operation.value.phase.Running? && now != 0 && now' != 0
    requires FirstDeployment(done) && done.operation.value.phase.Terminal()
    requires done.operation.value.startedAt == running.operation.value.startedAt <= done.operation.value.finishedAt
    requires done.operation.value.finishedAt != 0
    requires Trim(done.uid) == Trim(running.uid) && Trim(Revision(done)) == Trim(Revision(running))
    ensures var s1 := Poll(State(map[], map[]), Fetch([running], now), Normalizing(settings), c1);
            && Poll(s1, Fetch([done], now'), Normalizing(settings), c2) == s1
            && Reported(done, false) && OperationID(Trim(done.uid), KeyOf(done, now'), false) !in s1.db
  {
    hide EventsOf, OperationEvent, NormalizeSourceEvent, Normalizing, Fetch, Trim, InSlot, Mark, OperationID, KeyOf,
      Revision, After;
    FetchOfOne(running, now);
    FetchOfOne(done, now');
    RunningLeavesKey(running, now, settings, c1);
    RunningLeavesNoFinish(running, now, settings, c1, KeyOf(done, now'));
    SameKeyLater(running, done, now, now');
    DonePasses(Poll(State(map[], map[]), EventsOf(running, now), Normalizing(settings), c1), done, now', settings, c2);
  }

  lemma DonePasses(st: State, done: Application, now: int, settings: Settings, clock: nat -> int)
    requires FirstDeployment(done) && done.operation.value.phase.Terminal() && now != 0
    requires done.operation.value.startedAt <= done.operation.value.finishedAt && done.operation.value.finishedAt != 0
    requires CursorOf(st.cursors, Trim(done.uid)).lastTerminalKey == KeyOf(done, now)
    ensures Poll(st, EventsOf(done, now), Normalizing(settings), clock) == st
  {
    EventsOnceDone(done, now);
    OperationInSlot(done, now, false);
    hide EventsOf, OperationEvent, NormalizeSourceEvent, Normalizing, Trim, InSlot, Mark, KeyOf, Revision, After,
      FirstDeployment;
    HeldKeyIsPassed(Run(st, EventsOf(done, now), Normalizing(settings), clock), Trim(done.uid), TerminalSlot);
  }

  /** A batch of one event whose key the cursor holds changes nothing. */
  lemma HeldKeyIsPassed(r: Run, uid: string, slot: Slot)
    requires |r.batch| == 1 && InSlot(r.batch[0], uid, slot)
    requires slot.Of(CursorOf(r.start.cursors, uid)) == Mark(r.batch[0])
    ensures r.At(1) == r.start
  {
    assert r.At(0) == r.start && r.Cursor(uid, 0) == CursorOf(r.start.cursors, uid);
    hide InSlot, Mark, After, ShouldProcess, Slot.Of, Slot.Fold;
    SlotStep(r, uid, slot, 0);
    StepState(r, 0);
  }

  lemma SameKeyLater(running: Application, done: Application, now: int, now': int)
    requires FirstDeployment(running) && FirstDeployment(done) && Trim(Revision(done)) == Trim(Revision(running))
    requires done.operation.value.startedAt == running.operation.value.startedAt
    ensures KeyOf(running, now) == KeyOf(done, now')
  {
    hide Trim, Revision, OperationFinish;
  }
}
