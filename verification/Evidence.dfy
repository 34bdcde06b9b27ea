/** What one poll leaves on record of the snapshots it is shown: every operation and every history entry, or
    something else that carries the same key. History entries without a positive ID are what makes the
    difference: they share a cursor field, and keys, with the finished operation. */
module Evidence {
  import opened Text
  import opened Keyset
  import opened CloudEvents
  import opened Store
  import opened Collector
  import opened CatchUp
  import opened Repoll
  import opened SourceEvents
  import opened Normalize
  import opened Pipeline

  /** Applications have UIDs of their own and names, and the clock is set. */
  ghost predicate Proper(apps: seq<Application>, now: int) {
    Separate(apps) && now != 0 && forall i :: 0 <= i < |apps| ==> Trim(apps[i].name) != ""
  }

  predicate IsEntry(apps: seq<Application>, i: int, n: int, uid: string, id: int) {
    0 <= i < |apps| && Trim(apps[i].uid) == uid && 0 <= n < |apps[i].history| && apps[i].history[n].id == id
  }

  /** An application with that UID shows an entry with that ID. */
  ghost predicate Shows(apps: seq<Application>, uid: string, id: int) {
    exists i, n :: IsEntry(apps, i, n, uid, id)
  }

  // Stored IDs.

  function EntryID(uid: string, id: int, revision: string, occurred: int): string {
    "evt_argocd_" + (uid + ":" + ("hist:" + HistoryTail(id, revision, occurred)))
  }

  /** The ID an entry of a snapshot is stored under. */
  function EntryIDOf(app: Application, n: nat, now: int): string
    requires n < |app.history|
  {
    var h := app.history[n];
    EntryID(Trim(app.uid), h.id, EntryRevision(h, app), OccurredAt(h, app, now))
  }

  function OperationID(uid: string, key: string, started: bool): string {
    "evt_argocd_" + (uid + ":" + ("op:" + key + ":" + Trim(if started then "start" else "finish")))
  }

  function KeySlot(started: bool): Slot { if started then StartSlot else TerminalSlot }

  /** The key of the snapshot's operation. */
  function KeyOf(app: Application, now: int): string
    requires app.operation.Some?
  {
    var op := app.operation.value;
    OperationKey(Revision(app), op.startedAt, OperationFinish(op, app, now))
  }

  /** The key of one of its history entries, if no ID identifies it. */
  function EntryKey(app: Application, n: nat, now: int): string
    requires n < |app.history|
  {
    var h := app.history[n];
    OperationKey(EntryRevision(h, app), 0, OccurredAt(h, app, now))
  }

  /** The snapshot's operation is reported, as started or as finished. */
  predicate Reported(app: Application, started: bool) {
    app.operation.Some? &&
    var op := app.operation.value;
    if started then (op.phase.Running? || op.phase.Terminating?) && op.startedAt != 0 else op.phase.Terminal()
  }

  // The events of a batch.

  lemma TimesAreSet(app: Application, h: HistoryEntry, op: Operation, now: int)
    requires now != 0
    ensures OccurredAt(h, app, now) != 0 && OperationFinish(op, app, now) != 0
  {
    hide TimeChoices;
  }

  lemma {:induction false} FetchHolds(apps: seq<Application>, now: int, i: nat, se: SourceEvent)
    requires i < |apps| && se in EventsOf(apps[i], now)
    ensures se in Fetch(apps, now)
  {
    hide EventsOf;
    if i < |apps| - 1 { FetchHolds(apps[..|apps| - 1], now, i, se); }
  }

  lemma OperationIsListed(app: Application, now: int, started: bool)
    requires Reported(app, started)
    ensures OperationEvent(app.operation.value, app, now, started) in EventsOf(app, now)
  {
    hide OperationEvent, Recorded, HealthEvents;
    assert OperationEvents(app, now) == [OperationEvent(app.operation.value, app, now, started)];
  }

  lemma EntryIsListed(app: Application, now: int, n: nat)
    requires n < |app.history| && !Suppressed(app.history[n], app, now)
    ensures RecordedEvent(app.history[n], app, now) in EventsOf(app, now)
  {
    hide EventsOf, Suppressed, RecordedEvent;
    var origin := EventOrigins(app, now);
    assert FromHistory(n) in origin;
    var i :| 0 <= i < |origin| && origin[i] == FromHistory(n);
    assert Stems(app, now, EventsOf(app, now)[i], origin[i]);
  }

  /** How the cursor sees a reported operation's event... */
  lemma OperationInSlot(app: Application, now: int, started: bool)
    requires Trim(app.uid) != "" && Trim(app.name) != "" && now != 0 && Reported(app, started)
    ensures var se := OperationEvent(app.operation.value, app, now, started);
            && InSlot(se, Trim(app.uid), KeySlot(started)) && Mark(se) == KeyOf(app, now) && PlainKey(Mark(se))
  {
    var op := app.operation.value;
    TimesAreSet(app, HistoryEntry(0, "", 0, 0), op, now);
    hide Trim, KindOf, AppKey, OperationEvent, Revision, OperationKey, OperationFinish, OccurredAt, InSlot, Mark,
      PlainKey, KeySlot;
    OperationFacts(app, op, now, started);
    OperationKeyShape(Revision(app), op.startedAt, OperationFinish(op, app, now));
    MarkOfOperation(OperationEvent(op, app, now, started), Trim(app.uid), started);
  }

  /** ...and the ID it is stored under. */
  lemma OperationIsStorable(app: Application, now: int, started: bool, settings: Settings)
    requires Trim(app.uid) != "" && Trim(app.name) != "" && now != 0 && Reported(app, started)
    ensures var se := OperationEvent(app.operation.value, app, now, started);
            && Storable(se, Normalizing(settings))
            && NormalizeSourceEvent(se, settings).value.id == OperationID(Trim(app.uid), KeyOf(app, now), started)
  {
    var op := app.operation.value;
    TimesAreSet(app, HistoryEntry(0, "", 0, 0), op, now);
    OperationKeyShape(Revision(app), op.startedAt, OperationFinish(op, app, now));
    hide Trim, KindOf, AppKey, NormalizeSourceEvent, OperationEvent, Revision, OperationKey, OperationFinish,
      OccurredAt, Storable;
    OperationFacts(app, op, now, started);
    StoredUnder(OperationEvent(op, app, now, started), Trim(app.uid),
                "op:" + KeyOf(app, now) + ":" + Trim(if started then "start" else "finish"), settings);
  }

  lemma StoredUnder(se: SourceEvent, uid: string, rest: string, settings: Settings)
    requires Trim(se.id) != "" && Trim(se.app) != "" && se.occurred != 0 && se.id == uid + ":" + rest
    ensures Storable(se, Normalizing(settings))
    ensures NormalizeSourceEvent(se, settings).value.id == "evt_argocd_" + (uid + ":" + rest)
  {
    hide Trim, NormalizeSourceEvent, ValidStored;
    NormalizedFacts(se, settings);
  }

  lemma MarkOfOperation(se: SourceEvent, uid: string, started: bool)
    requires if started then KindOf(se).Started? else KindOf(se).History?
    requires AppKey(se) == uid && se.historyID == 0 && PlainKey(se.operationKey)
    ensures InSlot(se, uid, KeySlot(started)) && Mark(se) == se.operationKey
  {
    hide KindOf, AppKey, Trim;
  }

  lemma EntryIsHistory(app: Application, now: int, n: nat)
    requires Trim(app.uid) != "" && Trim(app.name) != "" && now != 0 && n < |app.history| && app.history[n].id > 0
    ensures var se := RecordedEvent(app.history[n], app, now);
            IsHistory(se, Trim(app.uid)) && se.historyID == app.history[n].id
  {
    TimesAreSet(app, app.history[n], Operation(Running, 0, 0, "", false), now);
    hide Trim, KindOf, AppKey, RecordedEvent, OccurredAt, EntryRevision, HistoryTail, HistoryOperationKey,
      OperationFinish;
    RecordedFacts(app, app.history[n], now);
  }

  lemma EntryInTerminalSlot(app: Application, now: int, n: nat)
    requires Trim(app.uid) != "" && Trim(app.name) != "" && now != 0 && n < |app.history| && app.history[n].id <= 0
    ensures var se := RecordedEvent(app.history[n], app, now);
            && InSlot(se, Trim(app.uid), TerminalSlot) && Mark(se) == EntryKey(app, n, now) && PlainKey(Mark(se))
  {
    var h := app.history[n];
    TimesAreSet(app, h, Operation(Running, 0, 0, "", false), now);
    hide Trim, KindOf, AppKey, RecordedEvent, OccurredAt, EntryRevision, HistoryTail, OperationKey, OperationFinish,
      PlainKey;
    RecordedFacts(app, h, now);
    OperationKeyShape(EntryRevision(h, app), 0, OccurredAt(h, app, now));
    MarkOfEntry(RecordedEvent(h, app, now), Trim(app.uid));
    hide InSlot, Mark;
  }

  lemma MarkOfEntry(se: SourceEvent, uid: string)
    requires KindOf(se).History? && AppKey(se) == uid && se.historyID <= 0 && PlainKey(se.operationKey)
    ensures InSlot(se, uid, TerminalSlot) && Mark(se) == se.operationKey
  {
    hide KindOf, AppKey, Trim;
  }

  lemma EntryIsStorable(app: Application, now: int, n: nat, settings: Settings)
    requires Trim(app.uid) != "" && Trim(app.name) != "" && now != 0 && n < |app.history|
    ensures var se := RecordedEvent(app.history[n], app, now);
            && Storable(se, Normalizing(settings))
            && NormalizeSourceEvent(se, settings).value.id == EntryIDOf(app, n, now)
  {
    var h := app.history[n];
    TimesAreSet(app, h, Operation(Running, 0, 0, "", false), now);
    hide Trim, KindOf, AppKey, NormalizeSourceEvent, RecordedEvent, OccurredAt, EntryRevision, HistoryTail,
      HistoryOperationKey, OperationFinish, Storable;
    RecordedFacts(app, h, now);
    StoredUnder(RecordedEvent(h, app, now), Trim(app.uid),
                "hist:" + HistoryTail(h.id, EntryRevision(h, app), OccurredAt(h, app, now)), settings);
  }

  // Which events of a batch carry a history ID or a key.

  lemma HistoryIsShown(apps: seq<Application>, now: int, se: SourceEvent, uid: string)
    requires Separate(apps) && se in Fetch(apps, now) && IsHistory(se, uid)
    ensures Shows(apps, uid, se.historyID)
  {
    hide EventsOf, Fetch, Stems, Suppressed, KindOf, AppKey, Trim, Separate;
    var i := FetchMembers(apps, now, se);
    var origin := EventOrigins(apps[i], now);
    var k :| 0 <= k < |EventsOf(apps[i], now)| && EventsOf(apps[i], now)[k] == se;
    ProfileOf(apps[i], now, se, origin[k]);
    assert IsEntry(apps, i, origin[k].entry, uid, se.historyID);
  }

  /** An event of a key slot is the application's operation, or a history entry without an ID. */
  datatype Keyed = ByOperation(i: nat) | ByEntry(i: nat, n: nat)

  ghost predicate IsKeyed(apps: seq<Application>, now: int, se: SourceEvent, uid: string, started: bool, from: Keyed) {
    && from.i < |apps| && Trim(apps[from.i].uid) == uid
    && match from
       case ByOperation(i) =>
         Reported(apps[i], started) && se == OperationEvent(apps[i].operation.value, apps[i], now, started)
       case ByEntry(i, n) =>
         && !started && n < |apps[i].history| && apps[i].history[n].id <= 0
         && se == RecordedEvent(apps[i].history[n], apps[i], now)
  }

  lemma SlotIsKeyed(apps: seq<Application>, now: int, se: SourceEvent, uid: string, started: bool) returns (from: Keyed)
    requires Separate(apps) && se in Fetch(apps, now) && InSlot(se, uid, KeySlot(started))
    ensures IsKeyed(apps, now, se, uid, started, from)
  {
    hide EventsOf, Fetch, Stems, Suppressed, KindOf, AppKey, Trim, Separate, Profile, OperationEvent, RecordedEvent,
      Reported, InSlot;
    var i := FetchMembers(apps, now, se);
    var origin := EventOrigins(apps[i], now);
    var k :| 0 <= k < |EventsOf(apps[i], now)| && EventsOf(apps[i], now)[k] == se;
    ProfileOf(apps[i], now, se, origin[k]);
    SlotOfOrigin(apps[i], se, origin[k], uid, started);
    if origin[k].FromOperation? {
      OperationOfOrigin(apps[i], now, se, origin[k], started);
      from := ByOperation(i);
    } else {
      EntryOfOrigin(apps[i], now, se, origin[k]);
      from := ByEntry(i, origin[k].entry);
    }
    SlotUID(se, uid, started, apps[i]);
  }

  lemma SlotUID(se: SourceEvent, uid: string, started: bool, app: Application)
    requires InSlot(se, uid, KeySlot(started)) && BelongsTo(se, app)
    ensures Trim(app.uid) == uid
  {
    hide AppKey, Trim, SlotOf;
  }

  lemma SlotOfOrigin(app: Application, se: SourceEvent, o: Origin, uid: string, started: bool)
    requires Profile(app, se, o) && InSlot(se, uid, KeySlot(started))
    ensures || (o.FromOperation? && (KindOf(se).Started? <==> started))
            || (o.FromHistory? && !started && se.historyID <= 0)
  {
    hide KindOf, AppKey;
  }

  lemma EntryOfOrigin(app: Application, now: int, se: SourceEvent, o: Origin)
    requires o.FromHistory? && Stems(app, now, se, o)
    ensures o.entry < |app.history| && se == RecordedEvent(app.history[o.entry], app, now)
    ensures app.history[o.entry].id == se.historyID
  {
    hide BaseEvent, WithAnnotations, EntryRevision, OccurredAt, HistoryEventID, HistoryOperationKey, Suppressed;
  }

  lemma OperationOfOrigin(app: Application, now: int, se: SourceEvent, o: Origin, started: bool)
    requires o.FromOperation? && Stems(app, now, se, o) && (KindOf(se).Started? <==> started)
    ensures Reported(app, started) && se == OperationEvent(app.operation.value, app, now, started)
  {
    KindsOfSourceEvents(se);
    hide KindOf, BaseEvent, WithAnnotations, OperationKey, OperationFinish, OperationEventID, Trim, Revision;
  }

  // One poll.

  function PollOf(st: State, apps: seq<Application>, now: int, settings: Settings, clock: nat -> int): Run {
    Run(st, Fetch(apps, now), Normalizing(settings), clock)
  }

  /** A history entry without an ID is in the store under a revision and instant that make this key. */
  ghost predicate EntryWithKey(db: Db, uid: string, key: string) {
    exists revision, t :: OperationKey(revision, 0, t) == key && EntryID(uid, 0, revision, t) in db
  }

  /** The key has an event in the store: its operation's, or for a finish that of an entry without an ID. */
  ghost predicate Answered(db: Db, uid: string, key: string, started: bool) {
    OperationID(uid, key, started) in db || (!started && EntryWithKey(db, uid, key))
  }

  lemma AnsweredStays(db: Db, later: Db, uid: string, key: string, started: bool)
    requires db.Keys <= later.Keys && Answered(db, uid, key, started)
    ensures Answered(later, uid, key, started)
  {
    hide OperationID, EntryID, OperationKey;
    if OperationID(uid, key, started) in db {
      assert OperationID(uid, key, started) in db.Keys;
    } else {
      var revision, t :| OperationKey(revision, 0, t) == key && EntryID(uid, 0, revision, t) in db;
      assert EntryID(uid, 0, revision, t) in db.Keys;
    }
  }

  /** What an event of a key slot answers for once something is stored under its ID. */
  lemma StoredAnswers(apps: seq<Application>, now: int, se: SourceEvent, uid: string, started: bool, from: Keyed,
                      settings: Settings, db: Db)
    requires Proper(apps, now) && IsKeyed(apps, now, se, uid, started, from)
    ensures Storable(se, Normalizing(settings)) && PlainKey(Mark(se)) && InSlot(se, uid, KeySlot(started))
    ensures NormalizeSourceEvent(se, settings).value.id in db ==> Answered(db, uid, Mark(se), started)
  {
    hide Trim, OperationEvent, RecordedEvent, Reported, OperationID, OperationKey, NormalizeSourceEvent, InSlot, Mark,
      Storable, PlainKey, EntryRevision, OccurredAt, OperationFinish, Revision;
    HasUIDOf(apps, from.i);
    var app := apps[from.i];
    match from {
      case ByOperation(i) =>
        OperationInSlot(app, now, started);
        OperationIsStorable(app, now, started, settings);
      case ByEntry(i, n) =>
        EntryInTerminalSlot(app, now, n);
        EntryIsStorable(app, now, n, settings);
        SameTail(app.history[n].id, EntryRevision(app.history[n], app), OccurredAt(app.history[n], app, now));
        hide HistoryTail;
    }
  }

  /** IDs that are not positive do not appear in event IDs. */
  lemma SameTail(id: int, revision: string, occurred: int)
    requires id <= 0
    ensures HistoryTail(id, revision, occurred) == HistoryTail(0, revision, occurred)
  {
  }

  lemma HasUIDOf(apps: seq<Application>, i: nat)
    requires Separate(apps) && i < |apps|
    ensures Trim(apps[i].uid) != ""
  {
    hide Trim;
  }

  /** If an application's cursor holds a key, the key is answered. */
  ghost predicate KeyOnRecord(st: State, uid: string, started: bool) {
    var key := Trim(KeySlot(started).Of(CursorOf(st.cursors, uid)));
    key != "" ==> Answered(st.db, uid, key, started)
  }

  ghost predicate KeysOnRecord(st: State) {
    forall uid, started :: KeyOnRecord(st, uid, started)
  }

  lemma {:induction false} KeysStayOnRecord(st: State, apps: seq<Application>, now: int, settings: Settings,
                                            clock: nat -> int, k: nat)
    requires Proper(apps, now) && KeysOnRecord(st) && k <= |Fetch(apps, now)|
    ensures KeysOnRecord(PollOf(st, apps, now, settings, clock).At(k))
    decreases k
  {
    hide After, Fetch, Proper, KeyOnRecord;
    var r := PollOf(st, apps, now, settings, clock);
    PollStart(st, apps, now, settings, clock);
    if k > 0 {
      KeysStayOnRecord(st, apps, now, settings, clock, k - 1);
      forall uid, started ensures KeyOnRecord(r.At(k), uid, started) {
        assert KeyOnRecord(r.At(k - 1), uid, started);
        KeyStep(st, apps, now, settings, clock, k - 1, uid, started);
      }
    }
  }

  lemma PollStart(st: State, apps: seq<Application>, now: int, settings: Settings, clock: nat -> int)
    ensures PollOf(st, apps, now, settings, clock).At(0) == st
  {
  }

  lemma KeyStep(st: State, apps: seq<Application>, now: int, settings: Settings, clock: nat -> int, k: nat, uid: string,
                started: bool)
    requires Proper(apps, now) && k < |Fetch(apps, now)|
    requires KeyOnRecord(PollOf(st, apps, now, settings, clock).At(k), uid, started)
    ensures KeyOnRecord(PollOf(st, apps, now, settings, clock).At(k + 1), uid, started)
  {
    var r := PollOf(st, apps, now, settings, clock);
    var key := Trim(KeySlot(started).Of(r.Cursor(uid, k)));
    hide After, Fetch, InSlot, Mark, Trim, ShouldProcess, IngestInto, Slot.Of, NormalizeSourceEvent, ValidStored,
      Answered, Proper, IsKeyed;
    SlotStep(r, uid, KeySlot(started), k);
    AfterExtends(r.start, r.batch, r.norm, clock, k, k + 1);
    if r.Collected(k) && InSlot(r.batch[k], uid, KeySlot(started)) {
      ProperIsSeparate(apps, now);
      var from := SlotIsKeyed(apps, now, r.batch[k], uid, started);
      StoredAnswers(apps, now, r.batch[k], uid, started, from, settings, r.At(k + 1).db);
      CollectedIsAttempted(r, k);
      AttemptedIsPresentAt(r, k, k + 1);
    } else if key != "" {
      AnsweredStays(r.At(k).db, r.At(k + 1).db, uid, key, started);
    }
  }

  lemma ProperIsSeparate(apps: seq<Application>, now: int)
    requires Proper(apps, now)
    ensures Separate(apps)
  {
  }

  /** The key of every event of a key slot is answered after the poll: the event was attempted, or its key was
      held by the cursor and answered before. */
  lemma KeyedIsAnswered(st: State, apps: seq<Application>, now: int, settings: Settings, clock: nat -> int,
                        se: SourceEvent, uid: string, started: bool, from: Keyed)
    requires Proper(apps, now) && KeysOnRecord(st)
    requires se in Fetch(apps, now) && IsKeyed(apps, now, se, uid, started, from)
    ensures var r := PollOf(st, apps, now, settings, clock);
            Answered(r.At(|r.batch|).db, uid, Mark(se), started)
  {
    var r := PollOf(st, apps, now, settings, clock);
    hide After, Fetch, InSlot, Mark, Trim, ShouldProcess, IngestInto, Slot.Of, NormalizeSourceEvent, ValidStored,
      Answered, Proper, IsKeyed, KeysOnRecord;
    StoredAnswers(apps, now, se, uid, started, from, settings, r.At(|r.batch|).db);
    var k :| 0 <= k < |r.batch| && r.batch[k] == se;
    if r.Attempted(k) {
      AttemptedIsPresent(r, k);
    } else {
      KeysStayOnRecord(st, apps, now, settings, clock, k);
      SlotStep(r, uid, KeySlot(started), k);
      KnownKey(r.At(k), uid, started, Mark(se));
      AfterExtends(r.start, r.batch, r.norm, clock, k, |r.batch|);
      AnsweredStays(r.At(k).db, r.At(|r.batch|).db, uid, Mark(se), started);
    }
  }

  lemma KnownKey(st: State, uid: string, started: bool, mark: string)
    requires KeysOnRecord(st) && PlainKey(mark)
    requires KeySlot(started).Fold(mark) == KeySlot(started).Fold(KeySlot(started).Of(CursorOf(st.cursors, uid)))
    ensures Answered(st.db, uid, mark, started)
  {
    hide Trim, Answered;
    assert KeyOnRecord(st, uid, started);
  }

  /** A reported operation's key is answered after the poll, whatever the history. */
  lemma OperationIsAnswered(st: State, apps: seq<Application>, now: int, settings: Settings, clock: nat -> int, i: nat,
                            started: bool)
    requires Proper(apps, now) && KeysOnRecord(st) && i < |apps| && Reported(apps[i], started)
    ensures var r := PollOf(st, apps, now, settings, clock);
            Answered(r.At(|r.batch|).db, Trim(apps[i].uid), KeyOf(apps[i], now), started)
  {
    hide After, Fetch, InSlot, Mark, Trim, Answered, KeysOnRecord, OperationEvent, EventsOf, OperationKey, PlainKey,
      OperationFinish;
    var se := OperationEvent(apps[i].operation.value, apps[i], now, started);
    OperationIsListed(apps[i], now, started);
    FetchHolds(apps, now, i, se);
    HasUIDOf(apps, i);
    OperationInSlot(apps[i], now, started);
    hide Reported;
    KeyedIsAnswered(st, apps, now, settings, clock, se, Trim(apps[i].uid), started, ByOperation(i));
  }

  /** So is that of an entry without an ID, unless the snapshot leaves it to its operation. */
  lemma EntryWithoutIDIsAnswered(st: State, apps: seq<Application>, now: int, settings: Settings, clock: nat -> int,
                                 i: nat, n: nat)
    requires Proper(apps, now) && KeysOnRecord(st) && i < |apps| && n < |apps[i].history| && apps[i].history[n].id <= 0
    requires !Suppressed(apps[i].history[n], apps[i], now)
    ensures var r := PollOf(st, apps, now, settings, clock);
            Answered(r.At(|r.batch|).db, Trim(apps[i].uid), EntryKey(apps[i], n, now), false)
  {
    hide After, Fetch, InSlot, Mark, Trim, Answered, KeysOnRecord, RecordedEvent, EventsOf, OperationKey, OccurredAt,
      EntryRevision, Suppressed, PlainKey, EntryKey;
    var se := RecordedEvent(apps[i].history[n], apps[i], now);
    EntryIsListed(apps[i], now, n);
    FetchHolds(apps, now, i, se);
    HasUIDOf(apps, i);
    EntryInTerminalSlot(apps[i], now, n);
    KeyedIsAnswered(st, apps, now, settings, clock, se, Trim(apps[i].uid), false, ByEntry(i, n));
  }

  /** Keys agree exactly when revision and instant do, whichever of start and end dates them. */
  lemma KeyMeans(revision: string, startedAt: int, finishedAt: int, revision': string, startedAt': int,
                 finishedAt': int)
    ensures OperationKey(revision, startedAt, finishedAt) == OperationKey(revision', startedAt', finishedAt') <==>
              && KeyRevision(revision) == KeyRevision(revision')
              && KeyInstant(startedAt, finishedAt) == KeyInstant(startedAt', finishedAt')
  {
    OperationKeyShape(revision, startedAt, finishedAt);
    OperationKeyShape(revision', startedAt', finishedAt');
    InstantHasNoColon(startedAt, finishedAt);
    InstantHasNoColon(startedAt', finishedAt');
    hide OperationKey, KeyRevision, KeyInstant;
    var a, x := KeyRevision(revision), KeyInstant(startedAt, finishedAt);
    var b, y := KeyRevision(revision'), KeyInstant(startedAt', finishedAt');
    if a + [':'] + x == b + [':'] + y { LastSplitUnique(':', a, x, b, y); }
  }

  lemma InstantHasNoColon(startedAt: int, finishedAt: int)
    ensures ':' !in KeyInstant(startedAt, finishedAt)
  {
    hide Decimal;
  }

  // Exactly when an operation stays off record.

  /** The cursor holds the key at the event's turn, and nothing is stored under its ID yet. */
  ghost predicate Passed(r: Run, k: nat, uid: string, key: string, started: bool)
    requires k < |r.batch|
  {
    Trim(KeySlot(started).Of(r.Cursor(uid, k))) == key && OperationID(uid, key, started) !in r.At(k).db
  }

  /** A reported operation is off record after the poll exactly when every turn of its event finds its own key in
      the cursor and its ID unknown to the store. */
  lemma OffRecordIff(st: State, apps: seq<Application>, now: int, settings: Settings, clock: nat -> int, i: nat,
                     started: bool)
    requires Proper(apps, now) && i < |apps| && Reported(apps[i], started)
    ensures var r, uid, key := PollOf(st, apps, now, settings, clock), Trim(apps[i].uid), KeyOf(apps[i], now);
            var se := OperationEvent(apps[i].operation.value, apps[i], now, started);
            && se in r.batch
            && (OperationID(uid, key, started) !in r.At(|r.batch|).db <==>
                  forall k :: 0 <= k < |r.batch| && r.batch[k] == se ==> Passed(r, k, uid, key, started))
  {
    var r, uid, key := PollOf(st, apps, now, settings, clock), Trim(apps[i].uid), KeyOf(apps[i], now);
    var se := OperationEvent(apps[i].operation.value, apps[i], now, started);
    OperationIsListed(apps[i], now, started);
    FetchHolds(apps, now, i, se);
    HasUIDOf(apps, i);
    OperationInSlot(apps[i], now, started);
    OperationIsStorable(apps[i], now, started, settings);
    hide After, Fetch, EventsOf, InSlot, Mark, Trim, ShouldProcess, OperationID, OperationEvent, Slot.Of, KeyOf,
      NormalizeSourceEvent, ValidStored, Reported, Passed, Run.Cursor;
    var id := OperationID(uid, key, started);
    if id !in r.At(|r.batch|).db {
      forall k | 0 <= k < |r.batch| && r.batch[k] == se ensures Passed(r, k, uid, key, started) {
        PassedBy(r, k, uid, key, started);
      }
    } else {
      var first :| 0 <= first < |r.batch| && r.batch[first] == se;
      if id !in r.At(first).db {
        var j := WrittenBetween(r, first, |r.batch|, id);
        OnlyOperationHasID(apps, now, settings, i, started, r.batch[j]);
        AttemptedIsNotPassed(r, j, uid, key, started);
      } else {
        KnownIsNotPassed(r, first, uid, key, started);
      }
    }
  }

  lemma KnownIsNotPassed(r: Run, k: nat, uid: string, key: string, started: bool)
    requires k < |r.batch| && OperationID(uid, key, started) in r.At(k).db
    ensures !Passed(r, k, uid, key, started)
  {
    hide OperationID, After, Trim;
  }

  lemma AttemptedIsNotPassed(r: Run, k: nat, uid: string, key: string, started: bool)
    requires k < |r.batch| && InSlot(r.batch[k], uid, KeySlot(started)) && Mark(r.batch[k]) == key && PlainKey(key)
    requires r.Attempted(k)
    ensures !Passed(r, k, uid, key, started)
  {
    hide OperationID, After, Trim, ShouldProcess, InSlot, Mark;
    SlotStep(r, uid, KeySlot(started), k);
  }

  lemma PassedBy(r: Run, k: nat, uid: string, key: string, started: bool)
    requires k < |r.batch| && InSlot(r.batch[k], uid, KeySlot(started)) && Mark(r.batch[k]) == key && PlainKey(key)
    requires Storable(r.batch[k], r.norm) && r.norm(r.batch[k]).value.id == OperationID(uid, key, started)
    requires OperationID(uid, key, started) !in r.At(|r.batch|).db
    ensures Passed(r, k, uid, key, started)
  {
    hide OperationID, After, Trim, ShouldProcess, InSlot, Mark, ValidStored;
    SlotStep(r, uid, KeySlot(started), k);
    if r.Attempted(k) { AttemptedIsPresent(r, k); }
    AfterExtends(r.start, r.batch, r.norm, r.clock, k, |r.batch|);
  }

  /** A row that appears was attempted. */
  lemma {:induction false} WrittenBetween(r: Run, j: nat, k: nat, id: string) returns (i: nat)
    requires j <= k <= |r.batch| && id !in r.At(j).db && id in r.At(k).db
    ensures j <= i < k && r.Attempted(i) && r.norm(r.batch[i]).Some? && r.norm(r.batch[i]).value.id == id
    decreases k
  {
    hide After, ShouldProcess;
    i := k - 1;
    if id in r.At(i).db {
      i := WrittenBetween(r, j, i, id);
    } else {
      StepState(r, i);
      hide IntegrityHash, ValidStored;
    }
  }

  /** No other event of the batch is stored under a reported operation's ID. */
  lemma OnlyOperationHasID(apps: seq<Application>, now: int, settings: Settings, i: nat, started: bool, se: SourceEvent)
    requires Proper(apps, now) && i < |apps| && Reported(apps[i], started) && se in Fetch(apps, now)
    requires NormalizeSourceEvent(se, settings).Some?
    requires NormalizeSourceEvent(se, settings).value.id == OperationID(Trim(apps[i].uid), KeyOf(apps[i], now), started)
    ensures se == OperationEvent(apps[i].operation.value, apps[i], now, started)
  {
    HasUIDOf(apps, i);
    OperationIsStorable(apps[i], now, started, settings);
    hide Fetch, Trim, NormalizeSourceEvent, OperationEvent, OperationID, KeyOf, Reported, ValidStored;
    var op := OperationEvent(apps[i].operation.value, apps[i], now, started);
    NormalizedIsStorable(op, se, settings);
    OnlyOperationHasSourceID(apps, now, i, started, se);
  }

  lemma OnlyOperationHasSourceID(apps: seq<Application>, now: int, i: nat, started: bool, se: SourceEvent)
    requires Separate(apps) && i < |apps| && Reported(apps[i], started) && se in Fetch(apps, now)
    requires se.id == OperationEvent(apps[i].operation.value, apps[i], now, started).id
    ensures se == OperationEvent(apps[i].operation.value, apps[i], now, started)
  {
    hide EventsOf, Fetch, Trim, OperationEvent, AppKey, Stems;
    var op := OperationEvent(apps[i].operation.value, apps[i], now, started);
    HasUIDOf(apps, i);
    OperationIsListed(apps[i], now, started);
    Belongs(apps[i], now, op);
    var n := FetchMembers(apps, now, se);
    SameUID(apps[i], apps[n], se.id);
    assert n == i;
    hide Separate;
    SameIDInSnapshot(apps[i], now, started, se);
  }

  lemma SameIDInSnapshot(app: Application, now: int, started: bool, se: SourceEvent)
    requires Reported(app, started) && se in EventsOf(app, now)
    requires se.id == OperationEvent(app.operation.value, app, now, started).id
    ensures se == OperationEvent(app.operation.value, app, now, started)
  {
    OperationStems(app, now, started);
    hide EventsOf, OperationEvent, Reported, Stems, Suppressed;
    var origin := EventOrigins(app, now);
    var k :| 0 <= k < |EventsOf(app, now)| && EventsOf(app, now)[k] == se;
    SameIDSameOperation(app, now, OperationEvent(app.operation.value, app, now, started), se, origin[k]);
  }

  lemma OperationStems(app: Application, now: int, started: bool)
    requires Reported(app, started)
    ensures Stems(app, now, OperationEvent(app.operation.value, app, now, started), FromOperation)
  {
    hide OperationEvent;
  }

  lemma SameIDSameOperation(app: Application, now: int, op: SourceEvent, se: SourceEvent, p: Origin)
    requires Stems(app, now, op, FromOperation) && Stems(app, now, se, p) && se.id == op.id
    ensures se == op
  {
    StemsInRange(app, now, se, p);
    var s := TailOf(app, now, op, FromOperation);
    var t := TailOf(app, now, se, p);
    SamePrefix(Trim(app.uid) + ":", s, t);
    TailStarts(app, now, FromOperation, s);
    TailStarts(app, now, p, t);
    hide TailShape, OperationEvents, Trim, Suppressed, RecordedEvent, HealthEvents;
  }

  lemma TailStarts(app: Application, now: int, o: Origin, tail: string)
    requires o.FromHistory? ==> o.entry < |app.history|
    requires TailShape(app, now, o, tail)
    ensures tail != "" && (tail[0] == 'o' <==> o.FromOperation?)
    ensures o.FromHealth? ==> |tail| > 1 && tail[1] == 'e'
  {
    hide HistoryTail, EntryRevision, OccurredAt;
  }

  // Entries with an ID.

  /** The entry is on record, or the snapshot leaves it to its finished operation, whose key is answered. */
  ghost predicate Accounted(db: Db, app: Application, n: nat, now: int)
    requires n < |app.history|
  {
    || EntryIDOf(app, n, now) in db
    || (Suppressed(app.history[n], app, now) && Answered(db, Trim(app.uid), KeyOf(app, now), false))
  }

  lemma NewEntryIsAccounted(st: State, apps: seq<Application>, now: int, settings: Settings, clock: nat -> int, i: nat,
                            n: nat)
    requires Proper(apps, now) && KeysOnRecord(st) && i < |apps| && n < |apps[i].history| && apps[i].history[n].id > 0
    requires forall j :: 0 <= j < |apps| ==> OrderedHistory(apps[j])
    requires apps[i].history[n].id > CursorOf(st.cursors, Trim(apps[i].uid)).lastHistoryID
    ensures var r := PollOf(st, apps, now, settings, clock); Accounted(r.At(|r.batch|).db, apps[i], n, now)
  {
    var r, app, h := PollOf(st, apps, now, settings, clock), apps[i], apps[i].history[n];
    if Suppressed(h, app, now) {
      SuppressedIsReported(h, app, now);
      OperationIsAnswered(st, apps, now, settings, clock, i, false);
    } else {
      HasUIDOf(apps, i);
      FetchIsRegular(apps, now);
      assert r.At(0) == st;
      hide After, Fetch, EventsOf, KindOf, AppKey, Trim, IngestInto, EntryID, RecordedEvent, Suppressed, CursorAdmits,
        NormalizeSourceEvent, ValidStored, OrderedHistory, Separate, HistoryIncreasing, SlotsShared, OccurredAt,
        EntryRevision;
      var se := RecordedEvent(h, app, now);
      EntryIsListed(app, now, n);
      FetchHolds(apps, now, i, se);
      EntryIsHistory(app, now, n);
      EntryIsStorable(app, now, n, settings);
      var k :| 0 <= k < |r.batch| && r.batch[k] == se;
      AttemptedIffAbove(r, k);
      AttemptedIsPresent(r, k);
    }
  }

  lemma SuppressedIsReported(h: HistoryEntry, app: Application, now: int)
    requires Suppressed(h, app, now)
    ensures Reported(app, false)
  {
  }
}
