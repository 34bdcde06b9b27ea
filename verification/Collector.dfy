/** The Argo collector: which source events its per-application cursors let through, how a collected event
    moves them, and one poll over a batch. */
module Collector {
  import opened Text
  import opened Keyset
  import opened CloudEvents
  import opened Store

  datatype SourceEvent = SourceEvent(
    id: string, appUID: string, app: string, cluster: string, namespace: string, revision: string,
    occurred: int, actor: string, eventType: string, result: string, healthStatus: string,
    historyID: int, operationKey: string, payload: Option<map<string, Json>>)

  datatype AppCheckpoint = AppCheckpoint(
    lastHistoryID: int, lastHistoryAt: int, lastStartKey: string, lastTerminalKey: string, lastHealth: string)

  type Cursors = map<string, AppCheckpoint>

  /** The normalise function the collector is configured with. One that always fails stands for none at all. */
  type Normalizer = SourceEvent -> Option<StoredEvent>

  const NO_CURSOR := AppCheckpoint(0, 0, "", "", "")

  function CursorOf(cursors: Cursors, app: string): AppCheckpoint {
    if app in cursors then cursors[app] else NO_CURSOR
  }

  function AppKey(se: SourceEvent): string {
    if Trim(se.appUID) != "" then Trim(se.appUID) else Trim(se.app)
  }

  datatype Kind = Untyped | History | Started | Health | Other

  function KindOf(se: SourceEvent): Kind {
    var t := Trim(se.eventType);
    if t == "" then Untyped
    else if t == "argo.deployment.recorded" || t == "argo.sync.finished" then History
    else if t == "argo.sync.started" then Started
    else if t == "argo.health.changed" then Health
    else Other
  }

  /** A later history entry than the cursor's, or the same one at a later time. */
  predicate Above(cursor: AppCheckpoint, se: SourceEvent) {
    se.historyID > cursor.lastHistoryID || (se.historyID == cursor.lastHistoryID && se.occurred > cursor.lastHistoryAt)
  }

  predicate HistoryIsNew(cursor: AppCheckpoint, se: SourceEvent) {
    if se.historyID > 0 then Above(cursor, se)
    else
      Trim(se.operationKey) != "" && Trim(se.operationKey) != Trim(cursor.lastTerminalKey)
  }

  predicate CursorAdmits(cursor: AppCheckpoint, se: SourceEvent) {
    match KindOf(se)
    case Untyped => false
    case History => HistoryIsNew(cursor, se)
    case Started => Trim(se.operationKey) != "" && Trim(se.operationKey) != Trim(cursor.lastStartKey)
    case Health => Trim(se.healthStatus) != "" && !EqualFold(Trim(se.healthStatus), Trim(cursor.lastHealth))
    case Other => true
  }

  predicate ShouldProcess(cursors: Cursors, se: SourceEvent) {
    Trim(se.id) != "" && CursorAdmits(CursorOf(cursors, AppKey(se)), se)
  }

  function Max(a: int, b: int): int { if b > a then b else a }

  function MoveCursor(cursor: AppCheckpoint, se: SourceEvent): AppCheckpoint {
    match KindOf(se)
    case History =>
      if se.historyID > 0 then
        cursor.(lastHistoryID := Max(cursor.lastHistoryID, se.historyID),
                lastHistoryAt := Max(cursor.lastHistoryAt, se.occurred))
      else if Trim(se.operationKey) != "" then cursor.(lastTerminalKey := Trim(se.operationKey))
      else cursor
    case Started => if Trim(se.operationKey) != "" then cursor.(lastStartKey := Trim(se.operationKey)) else cursor
    case Health => if Trim(se.healthStatus) != "" then cursor.(lastHealth := Trim(se.healthStatus)) else cursor
    case Untyped => cursor
    case Other => cursor
  }

  function Advance(cursors: Cursors, se: SourceEvent): Cursors {
    cursors[AppKey(se) := MoveCursor(CursorOf(cursors, AppKey(se)), se)]
  }

  /** An event of a known type is not let through again right after its own advance. */
  lemma RejectedOnceAdvanced(cursor: AppCheckpoint, se: SourceEvent)
    requires !KindOf(se).Other?
    ensures !CursorAdmits(MoveCursor(cursor, se), se)
  {
  }

  // The same, told from the event's type and the cursor's fields.

  /** Cursors are kept under the application's UID, or under its name if it has none. */
  lemma CursorIsUnder(cursors: Cursors, se: SourceEvent)
    ensures Trim(se.appUID) != "" ==> AppKey(se) == Trim(se.appUID)
    ensures Trim(se.appUID) == "" ==> AppKey(se) == Trim(se.app)
    ensures AppKey(se) !in cursors ==> CursorOf(cursors, AppKey(se)) == AppCheckpoint(0, 0, "", "", "")
    ensures AppKey(se) in cursors ==> CursorOf(cursors, AppKey(se)) == cursors[AppKey(se)]
  {
    hide Trim;
  }

  /** What is let through: a recorded or finished event whose positive ID is above the last one, or is that one at
      a later time, or whose key, having no ID, is not the last one; a started event with another key; health
      that differs by more than case; and every event of another type. */
  lemma ProcessedIff(cursors: Cursors, se: SourceEvent)
    ensures var typ, key, c := Trim(se.eventType), Trim(se.operationKey), CursorOf(cursors, AppKey(se));
            ShouldProcess(cursors, se) <==>
              && Trim(se.id) != "" && typ != ""
              && (typ in {"argo.deployment.recorded", "argo.sync.finished"} && se.historyID > 0 ==>
                    c.lastHistoryID < se.historyID ||
                    (c.lastHistoryID == se.historyID && c.lastHistoryAt < se.occurred))
              && (typ in {"argo.deployment.recorded", "argo.sync.finished"} && se.historyID <= 0 ==>
                    key != "" && key != Trim(c.lastTerminalKey))
              && (typ == "argo.sync.started" ==> key != "" && key != Trim(c.lastStartKey))
              && (typ == "argo.health.changed" ==>
                    Trim(se.healthStatus) != "" && Lower(Trim(se.healthStatus)) != Lower(Trim(c.lastHealth)))
  {
    var typ := Trim(se.eventType);
    TypesDiffer(typ);
    hide Trim, Lower, AppKey;
  }

  lemma TypesDiffer(typ: string)
    ensures typ in {"argo.deployment.recorded", "argo.sync.finished"} ==>
              typ != "argo.sync.started" && typ != "argo.health.changed" && typ != ""
    ensures typ == "argo.sync.started" ==> typ != "argo.health.changed" && typ != ""
    ensures typ == "argo.health.changed" ==> typ != ""
  {
  }

  /** What a collected event leaves in its application's cursor, and that it touches no other. */
  lemma AdvancedTo(cursors: Cursors, se: SourceEvent)
    ensures var typ, key := Trim(se.eventType), Trim(se.operationKey);
            var c, d := CursorOf(cursors, AppKey(se)), CursorOf(Advance(cursors, se), AppKey(se));
            var historic := typ in {"argo.deployment.recorded", "argo.sync.finished"};
            && d.lastHistoryID == (if historic && se.historyID > 0 && se.historyID > c.lastHistoryID then se.historyID
                                   else c.lastHistoryID)
            && d.lastHistoryAt == (if historic && se.historyID > 0 && se.occurred > c.lastHistoryAt then se.occurred
                                   else c.lastHistoryAt)
            && d.lastTerminalKey == (if historic && se.historyID <= 0 && key != "" then key else c.lastTerminalKey)
            && d.lastStartKey == (if typ == "argo.sync.started" && key != "" then key else c.lastStartKey)
            && d.lastHealth == (if typ == "argo.health.changed" && Trim(se.healthStatus) != ""
                                then Trim(se.healthStatus) else c.lastHealth)
    ensures Advance(cursors, se).Keys == cursors.Keys + {AppKey(se)}
    ensures forall k :: k in cursors && k != AppKey(se) ==> Advance(cursors, se)[k] == cursors[k]
  {
    TypesDiffer(Trim(se.eventType));
    hide Trim, AppKey;
  }

  // One event, and a poll.

  datatype State = State(cursors: Cursors, db: Db)

  /** The event normalises, and the store answers accepted or duplicate. */
  predicate Takes(db: Db, se: SourceEvent, norm: Normalizer) {
    norm(se).Some? && IngestInto(db, norm(se).value, 0).outcome.Ok()
  }

  /** The event passes the cursor, and the store takes it. */
  predicate Collects(st: State, se: SourceEvent, norm: Normalizer) {
    ShouldProcess(st.cursors, se) && Takes(st.db, se, norm)
  }

  function Handle(st: State, se: SourceEvent, norm: Normalizer, now: int): State {
    if !ShouldProcess(st.cursors, se) || norm(se).None? then st
    else
      var r := IngestInto(st.db, norm(se).value, now);
      State(if r.outcome.Ok() then Advance(st.cursors, se) else st.cursors, r.db)
  }

  /** The state after the first k events of a batch; clock(i) is the time of the i-th write. */
  function After(st: State, batch: seq<SourceEvent>, norm: Normalizer, clock: nat -> int, k: nat): State
    requires k <= |batch|
  {
    if k == 0 then st else Handle(After(st, batch, norm, clock, k - 1), batch[k - 1], norm, clock(k - 1))
  }

  function Poll(st: State, batch: seq<SourceEvent>, norm: Normalizer, clock: nat -> int): State {
    After(st, batch, norm, clock, |batch|)
  }

  lemma HandleCases(st: State, se: SourceEvent, norm: Normalizer, now: int)
    ensures Extends(st.db, Handle(st, se, norm, now).db)
    ensures WellFormed(st.db) ==> WellFormed(Handle(st, se, norm, now).db)
    ensures Handle(st, se, norm, now).cursors == if Collects(st, se, norm) then Advance(st.cursors, se) else st.cursors
    ensures !Collects(st, se, norm) ==> Handle(st, se, norm, now) == st
  {
    hide ValidStored, IntegrityHash, CursorAdmits, MoveCursor, AppKey;
    if norm(se).Some? { IngestKeeps(st.db, norm(se).value, now); }
  }

  lemma {:induction false} AfterExtends(st: State, batch: seq<SourceEvent>, norm: Normalizer, clock: nat -> int, j: nat,
                                        k: nat)
    requires j <= k <= |batch|
    ensures Extends(After(st, batch, norm, clock, j).db, After(st, batch, norm, clock, k).db)
    decreases k
  {
    hide Handle, Collects, Advance;
    if j < k {
      AfterExtends(st, batch, norm, clock, j, k - 1);
      HandleCases(After(st, batch, norm, clock, k - 1), batch[k - 1], norm, clock(k - 1));
      ExtendsTransitive(After(st, batch, norm, clock, j).db, After(st, batch, norm, clock, k - 1).db,
                        After(st, batch, norm, clock, k).db);
    }
  }

  // The checkpoint file and the collector object.

  /** What is at the checkpoint's path: nothing, something that does not decode, or the cursors last saved. */
  datatype CheckpointFile = Missing | Corrupt | Written(apps: Cursors)

  class FileCheckpointStore {
    var file: CheckpointFile

    constructor (file: CheckpointFile)
      ensures this.file == file
    {
      this.file := file;
    }

    /** None is the load error. */
    method Load() returns (apps: Option<Cursors>)
      ensures apps == if file.Missing? then Some(map[]) else if file.Corrupt? then None else Some(file.apps)
    {
      match file {
        case Missing => return Some(map[]);
        case Corrupt => return None;
        case Written(saved) => return Some(saved);
      }
    }

    method Save(apps: Cursors)
      modifies this
      ensures file == Written(apps)
    {
      file := Written(apps);
    }
  }

  class ArgoCollector {
    var appCursors: Cursors
    var checkpointLoaded: bool
    const normalize: Normalizer
    const sink: MemoryRepository
    const checkpoint: FileCheckpointStore

    constructor (normalize: Normalizer, sink: MemoryRepository, checkpoint: FileCheckpointStore)
      ensures this.normalize == normalize && this.sink == sink && this.checkpoint == checkpoint
      ensures !checkpointLoaded && appCursors == map[]
    {
      this.normalize, this.sink, this.checkpoint := normalize, sink, checkpoint;
      appCursors, checkpointLoaded := map[], false;
    }

    method LoadCheckpoint()
      modifies this
      ensures checkpointLoaded
      ensures appCursors ==
        if old(checkpointLoaded) || checkpoint.file.Corrupt? then old(appCursors)
        else if checkpoint.file.Missing? then map[]
        else checkpoint.file.apps
    {
      if checkpointLoaded {
        return;
      }
      var saved := checkpoint.Load();
      checkpointLoaded := true;
      if saved.None? {
        return;
      }
      appCursors := saved.value;
    }

    method AdvanceCheckpoint(se: SourceEvent)
      modifies this`appCursors
      ensures appCursors == Advance(old(appCursors), se)
    {
      var key := AppKey(se);
      var cursor := CursorOf(appCursors, key);
      match KindOf(se) {
        case History =>
          if se.historyID > 0 {
            if se.historyID > cursor.lastHistoryID {
              cursor := cursor.(lastHistoryID := se.historyID);
            }
            if se.occurred > cursor.lastHistoryAt {
              cursor := cursor.(lastHistoryAt := se.occurred);
            }
          } else if Trim(se.operationKey) != "" {
            cursor := cursor.(lastTerminalKey := Trim(se.operationKey));
          }
        case Started =>
          if Trim(se.operationKey) != "" {
            cursor := cursor.(lastStartKey := Trim(se.operationKey));
          }
        case Health =>
          if Trim(se.healthStatus) != "" {
            cursor := cursor.(lastHealth := Trim(se.healthStatus));
          }
        case Untyped =>
        case Other =>
      }
      appCursors := appCursors[key := cursor];
    }

    /** One round of the polling loop over a fetched batch. */
    method PollOnce(batch: seq<SourceEvent>, clock: nat -> int) returns (collected: nat)
      requires sink.Valid()
      modifies this`appCursors, sink`events, checkpoint
      ensures sink.Valid() && Extends(old(sink.events), sink.events)
      ensures State(appCursors, sink.events) == Poll(old(State(appCursors, sink.events)), batch, normalize, clock)
      ensures checkpoint.file == Written(appCursors)
      ensures collected == 0 ==> appCursors == old(appCursors) && sink.events == old(sink.events)
    {
      hide ShouldProcess, IngestInto, Advance;
      collected := 0;
      ghost var st := State(appCursors, sink.events);
      for i := 0 to |batch|
        invariant sink.Valid() && Extends(old(sink.events), sink.events)
        invariant State(appCursors, sink.events) == After(st, batch, normalize, clock, i)
        invariant collected == 0 ==> appCursors == old(appCursors) && sink.events == old(sink.events)
      {
        var se := batch[i];
        if !ShouldProcess(appCursors, se) {
          continue;
        }
        var e := normalize(se);
        if e.None? {
          continue;
        }
        var outcome, _ := sink.IngestEvent(e.value, clock(i));
        if !outcome.Ok() {
          continue;
        }
        collected := collected + 1;
        AdvanceCheckpoint(se);
      }
      checkpoint.Save(appCursors);
    }
  }

  /** Stopping after a poll and starting a new collector over the same file changes nothing: the second poll
      continues from where the first one ended. */
  method RestartBetweenPolls(stopped: ArgoCollector, first: seq<SourceEvent>, second: seq<SourceEvent>,
                             clock: nat -> int, clock': nat -> int) returns (restarted: ArgoCollector)
    requires stopped.sink.Valid()
    modifies stopped, stopped.sink, stopped.checkpoint
    ensures fresh(restarted) && restarted.sink == stopped.sink && restarted.sink.Valid()
    ensures var start := old(State(stopped.appCursors, stopped.sink.events));
            State(restarted.appCursors, restarted.sink.events) ==
              Poll(Poll(start, first, stopped.normalize, clock), second, stopped.normalize, clock')
  {
    hide Poll;
    var _ := stopped.PollOnce(first, clock);
    restarted := new ArgoCollector(stopped.normalize, stopped.sink, stopped.checkpoint);
    restarted.LoadCheckpoint();
    var _ := restarted.PollOnce(second, clock');
  }
}
