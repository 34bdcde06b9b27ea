/** Turning Argo CD application snapshots into source events: which history entries are recorded, the single
    operation and health event, the deterministic IDs, and the batch a poll fetches. */
module SourceEvents {
  import opened Text
  import opened Clock
  import opened Keyset
  import opened CloudEvents
  import opened Collector
  import opened CatchUp

  const JITTER := 120 * SECOND

  datatype HistoryEntry = HistoryEntry(id: int, revision: string, deployedAt: int, deployStartedAt: int)

  datatype Phase = Running | Terminating | Succeeded | Failed | Error | OtherPhase(name: string) {
    predicate Terminal() { Succeeded? || Failed? || Error? }

    function Name(): string {
      match this
      case Running => "Running"
      case Terminating => "Terminating"
      case Succeeded => "Succeeded"
      case Failed => "Failed"
      case Error => "Error"
      case OtherPhase(name) => name
    }
  }

  datatype Operation = Operation(phase: Phase, startedAt: int, finishedAt: int, username: string, automated: bool)

  /** A snapshot; instants that Argo leaves out are 0. */
  datatype Application = Application(
    uid: string, name: string, server: string, namespace: string, syncRevision: string, syncRevisions: seq<string>,
    operation: Option<Operation>, history: seq<HistoryEntry>, health: string, reconciledAt: int,
    annotations: map<string, string>)

  // Derived attributes.

  function Revision(app: Application): string {
    if app.syncRevision == "" && |app.syncRevisions| > 0 then app.syncRevisions[0] else app.syncRevision
  }

  function Actor(app: Application): string {
    if app.operation.None? then "argocd"
    else if Trim(app.operation.value.username) != "" then Trim(app.operation.value.username)
    else if app.operation.value.automated then "argocd-automated"
    else "argocd"
  }

  const ANNOTATION_KEYS := {"evidra.rest/change-id", "evidra.rest/ticket", "evidra.rest/approvals-ref",
                            "evidra.rest/approvals-json"}

  function EvidraAnnotations(annotations: map<string, string>): map<string, Json> {
    map k | k in annotations && k in ANNOTATION_KEYS && Trim(annotations[k]) != "" :: JText(Trim(annotations[k]))
  }

  function WithAnnotations(app: Application, payload: map<string, Json>): Option<map<string, Json>> {
    var kept := EvidraAnnotations(app.annotations);
    Some(if kept == map[] then payload else payload["annotations" := JObject(kept)])
  }

  function TimeChoices(app: Application): seq<int> {
    [app.reconciledAt]
    + (if app.operation.None? then [] else [app.operation.value.finishedAt, app.operation.value.startedAt])
    + (if app.history == [] then [] else
         var last := app.history[|app.history| - 1]; [last.deployedAt, last.deployStartedAt])
  }

  /** The latest instant after the zero time, or 0. */
  function Latest(choices: seq<int>): (r: int)
    ensures r >= 0 && (r == 0 || r in choices)
    ensures forall t :: t in choices ==> t <= r || t <= 0
  {
    if choices == [] then 0
    else
      assert choices == choices[..|choices| - 1] + [choices[|choices| - 1]];
      Max(Latest(choices[..|choices| - 1]), choices[|choices| - 1])
  }

  method MostRecentTime(app: Application, now: int) returns (t: int)
    ensures t == MostRecent(app, now)
  {
    var choices := TimeChoices(app);
    var latest := 0;
    for i := 0 to |choices|
      invariant latest == Latest(choices[..i])
    {
      assert choices[..i + 1][..i] == choices[..i];
      if choices[i] == 0 {
        continue;
      }
      if choices[i] > latest {
        latest := choices[i];
      }
    }
    assert choices[..|choices|] == choices;
    return if latest == 0 then now else latest;
  }

  function MostRecent(app: Application, now: int): int {
    var latest := Latest(TimeChoices(app));
    if latest == 0 then now else latest
  }

  function OccurredAt(h: HistoryEntry, app: Application, now: int): int {
    if h.deployedAt != 0 then h.deployedAt
    else if h.deployStartedAt != 0 then h.deployStartedAt
    else MostRecent(app, now)
  }

  function EntryRevision(h: HistoryEntry, app: Application): string {
    if Trim(h.revision) != "" then Trim(h.revision) else Trim(Revision(app))
  }

  // Suppression by the terminal operation.

  datatype Window = Window(revision: string, startedAt: int, finishedAt: int)

  function TerminalWindow(app: Application): Option<Window> {
    if app.operation.None? || !app.operation.value.phase.Terminal() then None
    else
      var op := app.operation.value;
      var rev := Trim(Revision(app));
      Some(Window(if rev == "" then Trim(app.syncRevision) else rev, op.startedAt,
                  if op.finishedAt == 0 then op.startedAt else op.finishedAt))
  }

  predicate SameRevisionWindow(revision: string, occurred: int, w: Window) {
    && Trim(revision) != "" && Trim(w.revision) != "" && Trim(revision) == Trim(w.revision)
    && (occurred == 0 || w.startedAt == 0 || w.finishedAt == 0 ||
        w.startedAt - JITTER <= occurred <= w.finishedAt + JITTER)
  }

  predicate Suppressed(h: HistoryEntry, app: Application, now: int) {
    var w := TerminalWindow(app);
    w.Some? && SameRevisionWindow(EntryRevision(h, app), OccurredAt(h, app, now), w.value)
  }

  /** Exactly which entries a finished operation swallows: those of the snapshot's revision, or of none, that
      are dated within the operation, give or take two minutes. An operation without a start swallows them
      whatever their date; the revision of a multi-source application is its first. */
  lemma SuppressionReach(h: HistoryEntry, app: Application, now: int)
    ensures Suppressed(h, app, now) <==>
      && app.operation.Some? && app.operation.value.phase.Terminal()
      && Trim(Revision(app)) != ""
      && (Trim(h.revision) == "" || Trim(h.revision) == Trim(Revision(app)))
      && var op, dated := app.operation.value, OccurredAt(h, app, now);
         var finish := if op.finishedAt == 0 then op.startedAt else op.finishedAt;
         dated == 0 || op.startedAt == 0 ||
         op.startedAt - 120_000_000_000 <= dated <= finish + 120_000_000_000
  {
    TrimTwice(h.revision);
    TrimTwice(Revision(app));
    TrimTwice(app.syncRevision);
    assert Trim("") == "";
    hide Trim, OccurredAt;
  }

  /** An entry without dates counts as happening at the latest instant the snapshot knows: the finished
      operation swallows it exactly when nothing in the snapshot is two minutes younger than its end. */
  lemma UndatedEntry(h: HistoryEntry, app: Application, op: Operation, now: int)
    requires app.operation == Some(op) && op.phase.Terminal() && Trim(Revision(app)) != "" && Trim(h.revision) == ""
    requires h.deployedAt == 0 && h.deployStartedAt == 0 && 0 < op.startedAt <= op.finishedAt
    ensures Suppressed(h, app, now) <==> forall t :: t in TimeChoices(app) ==> t <= op.finishedAt + 120_000_000_000
  {
    SuppressionReach(h, app, now);
    hide Trim, Revision, Suppressed;
    var choices := TimeChoices(app);
    assert choices[1] == op.finishedAt && choices[1] in choices;
    assert OccurredAt(h, app, now) == Latest(choices) >= op.finishedAt;
  }

  // Identifiers.

  function TimeKey(t: int): string { if t == 0 then "0" else Decimal(UnixSeconds(t)) }

  function HistoryTail(historyID: int, revision: string, occurred: int): string {
    if historyID > 0 then Decimal(historyID) else Trim(revision) + ":" + TimeKey(occurred)
  }

  function HistoryEventID(uid: string, historyID: int, revision: string, occurred: int): string {
    Trim(uid) + ":" + ("hist:" + HistoryTail(historyID, revision, occurred))
  }

  function OperationEventID(uid: string, opKey: string, suffix: string): string {
    Trim(uid) + ":" + ("op:" + Trim(opKey) + ":" + Trim(suffix))
  }

  function HealthEventID(uid: string, health: string, occurred: int): string {
    Trim(uid) + ":" + ("health:" + Lower(Trim(health)) + ":" + TimeKey(occurred))
  }

  function OperationKey(revision: string, startedAt: int, finishedAt: int): string {
    var rev := if Trim(revision) == "" then "unknown" else Trim(revision);
    if startedAt != 0 then rev + ":" + Decimal(UnixNano(startedAt))
    else if finishedAt != 0 then rev + ":" + Decimal(UnixNano(finishedAt))
    else rev + ":unknown"
  }

  function HistoryOperationKey(historyID: int, revision: string, occurred: int): string {
    if historyID > 0 then "hist:" + Decimal(historyID) else OperationKey(revision, 0, occurred)
  }

  /** The two halves of an operation key: the revision... */
  function KeyRevision(revision: string): string {
    if Trim(revision) == "" then "unknown" else Trim(revision)
  }

  /** ...and the instant, digits or "unknown". */
  function KeyInstant(startedAt: int, finishedAt: int): string {
    if startedAt != 0 then Decimal(UnixNano(startedAt))
    else if finishedAt != 0 then Decimal(UnixNano(finishedAt))
    else "unknown"
  }

  /** The key is not blank, has no blanks around it, and does not end like an instant in RFC 3339. */
  predicate PlainKey(key: string) {
    key != "" && Trim(key) == key && key[|key| - 1] != 'Z'
  }

  lemma OperationKeyShape(revision: string, startedAt: int, finishedAt: int)
    ensures OperationKey(revision, startedAt, finishedAt) == KeyRevision(revision) + [':'] +
              KeyInstant(startedAt, finishedAt)
    ensures PlainKey(OperationKey(revision, startedAt, finishedAt))
  {
    hide UnixNano, Decimal, Trim;
    var head, tail := KeyRevision(revision), KeyInstant(startedAt, finishedAt);
    var key := OperationKey(revision, startedAt, finishedAt);
    assert key == head + [':'] + tail;
    assert tail[|tail| - 1] != 'Z' && !IsSpace(tail[|tail| - 1]) && !IsSpace(head[0]);
    hide OperationKey, KeyRevision, KeyInstant;
    assert key[0] == head[0] && key[|key| - 1] == tail[|tail| - 1];
  }

  lemma HistoryKeyShape(historyID: int, revision: string, occurred: int)
    ensures PlainKey(HistoryOperationKey(historyID, revision, occurred))
  {
    hide UnixNano, Trim, Decimal, OperationKey;
    OperationKeyShape(revision, 0, occurred);
    if historyID > 0 {
      var d := Decimal(historyID);
      var key := "hist:" + d;
      assert d[|d| - 1] != 'Z' && !IsSpace(d[|d| - 1]) && !IsSpace('h');
      assert key[0] == 'h' && key[|key| - 1] == d[|d| - 1];
    }
  }

  /** Operation keys of one instant differ exactly when the revisions do, a blank one counting as "unknown". */
  lemma KeysDifferByRevision(revision: string, revision': string, startedAt: int, finishedAt: int, finishedAt': int)
    requires startedAt != 0
    ensures OperationKey(revision, startedAt, finishedAt) == OperationKey(revision', startedAt, finishedAt') <==>
              KeyRevision(revision) == KeyRevision(revision')
  {
    hide UnixNano, Trim, Decimal;
    OperationKeyShape(revision, startedAt, finishedAt);
    OperationKeyShape(revision', startedAt, finishedAt');
    hide OperationKey, KeyRevision;
    var a, b, tail := KeyRevision(revision), KeyRevision(revision'), [':'] + KeyInstant(startedAt, finishedAt);
    if a + tail == b + tail {
      assert |a + tail| == |b + tail|;
      assert a == (a + tail)[..|a|] && b == (b + tail)[..|b|];
    }
    assert a + [':'] + KeyInstant(startedAt, finishedAt) == a + tail &&
      b + [':'] + KeyInstant(startedAt, finishedAt) == b + tail;
  }

  // The events of one snapshot.

  function BaseEvent(app: Application): SourceEvent {
    var server := Trim(app.server);
    SourceEvent("", Trim(app.uid), Trim(app.name), if server == "" then "unknown" else server, Trim(app.namespace),
                Trim(Revision(app)), 0, Actor(app), "", "", "", 0, "", None)
  }

  function RecordedEvent(h: HistoryEntry, app: Application, now: int): SourceEvent {
    var revision, occurred := EntryRevision(h, app), OccurredAt(h, app, now);
    BaseEvent(app).(
      id := HistoryEventID(Trim(app.uid), h.id, revision, occurred), revision := revision, occurred := occurred,
      eventType := "argo.deployment.recorded", result := "Recorded", historyID := h.id,
      operationKey := HistoryOperationKey(h.id, revision, occurred),
      payload := WithAnnotations(app, map["history_id" := JNumber(h.id), "sync_revision" := JText(revision)]))
  }

  function OperationFinish(op: Operation, app: Application, now: int): int {
    if op.finishedAt != 0 then op.finishedAt else if op.startedAt != 0 then op.startedAt else MostRecent(app, now)
  }

  function OperationEvent(op: Operation, app: Application, now: int, started: bool): SourceEvent {
    var finished := OperationFinish(op, app, now);
    var key := OperationKey(Revision(app), op.startedAt, finished);
    BaseEvent(app).(
      id := OperationEventID(Trim(app.uid), key, if started then "start" else "finish"),
      occurred := if started then op.startedAt else finished,
      eventType := if started then "argo.sync.started" else "argo.sync.finished",
      result := Trim(op.phase.Name()), operationKey := key,
      payload := WithAnnotations(app, map["operation_phase" := JText(Trim(op.phase.Name()))]))
  }

  function OperationEvents(app: Application, now: int): seq<SourceEvent> {
    match app.operation
    case None => []
    case Some(op) =>
      match op.phase
      case Running => if op.startedAt != 0 then [OperationEvent(op, app, now, true)] else []
      case Terminating => if op.startedAt != 0 then [OperationEvent(op, app, now, true)] else []
      case Succeeded => [OperationEvent(op, app, now, false)]
      case Failed => [OperationEvent(op, app, now, false)]
      case Error => [OperationEvent(op, app, now, false)]
      case OtherPhase(_) => []
  }

  function HealthEvents(app: Application, now: int): seq<SourceEvent> {
    var health := Trim(app.health);
    if health == "" then [] else
      var occurred := if app.reconciledAt == 0 then now else app.reconciledAt;
      [BaseEvent(app).(
         id := HealthEventID(Trim(app.uid), health, occurred), occurred := occurred, actor := "argocd",
         eventType := "argo.health.changed", healthStatus := health,
         payload := WithAnnotations(app, map["health_status" := JText(health), "observed_at" := JInstant(occurred)]))]
  }

  /** The recorded events of the first k history entries: those the terminal operation does not cover, in order. */
  function Recorded(app: Application, now: int, k: nat): (r: seq<SourceEvent>)
    requires k <= |app.history|
    ensures |r| <= k
  {
    if k == 0 then []
    else if Suppressed(app.history[k - 1], app, now) then Recorded(app, now, k - 1)
    else Recorded(app, now, k - 1) + [RecordedEvent(app.history[k - 1], app, now)]
  }

  function EventsOf(app: Application, now: int): seq<SourceEvent> {
    Recorded(app, now, |app.history|) + OperationEvents(app, now) + HealthEvents(app, now)
  }

  method ToSourceEvents(app: Application, now: int) returns (out: seq<SourceEvent>)
    ensures out == EventsOf(app, now)
  {
    hide BaseEvent, WithAnnotations, SameRevisionWindow, RecordedEvent, OperationEvent, HealthEvents, OccurredAt,
      Revision;
    out := [];
    var revision := Revision(app);
    var terminal := TerminalWindow(app);
    for i := 0 to |app.history|
      invariant out == Recorded(app, now, i)
    {
      var h := app.history[i];
      var occurred := OccurredAt(h, app, now);
      var hRevision := Trim(h.revision);
      if hRevision == "" {
        hRevision := Trim(revision);
      }
      if terminal.Some? && SameRevisionWindow(hRevision, occurred, terminal.value) {
        continue;
      }
      out := out + [RecordedEvent(h, app, now)];
    }
    if app.operation.Some? {
      var op := app.operation.value;
      if op.phase.Running? || op.phase.Terminating? {
        if op.startedAt != 0 {
          out := out + [OperationEvent(op, app, now, true)];
        }
      } else if op.phase.Terminal() {
        out := out + [OperationEvent(op, app, now, false)];
      }
    }
    out := out + HealthEvents(app, now);
  }

  // Where an event of the list comes from.

  /** Event i of the snapshot is recorded history entry `from`, the operation event, or the health event. */
  datatype Origin = FromHistory(entry: nat) | FromOperation | FromHealth

  ghost predicate Stems(app: Application, now: int, se: SourceEvent, o: Origin) {
    match o
    case FromHistory(n) => n < |app.history| && !Suppressed(app.history[n], app, now) &&
      se == RecordedEvent(app.history[n], app, now)
    case FromOperation => OperationEvents(app, now) == [se]
    case FromHealth => HealthEvents(app, now) == [se]
  }

  predicate OriginBefore(a: Origin, b: Origin) {
    match a
    case FromHistory(m) => b.FromHistory? ==> m < b.entry
    case FromOperation => b.FromHealth?
    case FromHealth => false
  }

  lemma {:induction false} RecordedOrigins(app: Application, now: int, k: nat) returns (origin: seq<nat>)
    requires k <= |app.history|
    ensures |origin| == |Recorded(app, now, k)|
    ensures forall i :: 0 <= i < |origin| ==>
              origin[i] < k && Stems(app, now, Recorded(app, now, k)[i], FromHistory(origin[i]))
    ensures forall i, j :: 0 <= i < j < |origin| ==> origin[i] < origin[j]
    ensures forall n :: 0 <= n < k ==> (n in origin <==> !Suppressed(app.history[n], app, now))
  {
    hide Suppressed, RecordedEvent;
    if k == 0 {
      origin := [];
    } else {
      origin := RecordedOrigins(app, now, k - 1);
      if !Suppressed(app.history[k - 1], app, now) {
        origin := origin + [k - 1];
        assert origin[|origin| - 1] == k - 1;
      }
    }
  }

  lemma AtMostOne(app: Application, now: int)
    ensures |OperationEvents(app, now)| <= 1 && |HealthEvents(app, now)| <= 1
  {
  }

  /** The events are exactly the unsuppressed history entries, in order, then at most one operation event,
      then at most one health event. */
  lemma EventOrigins(app: Application, now: int) returns (origin: seq<Origin>)
    ensures |origin| == |EventsOf(app, now)|
    ensures forall i :: 0 <= i < |origin| ==> Stems(app, now, EventsOf(app, now)[i], origin[i])
    ensures forall i, j :: 0 <= i < j < |origin| ==> OriginBefore(origin[i], origin[j])
    ensures forall n :: 0 <= n < |app.history| ==> (FromHistory(n) in origin <==> !Suppressed(app.history[n], app, now))
  {
    AtMostOne(app, now);
    hide Suppressed, RecordedEvent, OperationEvents, HealthEvents, Recorded;
    var entries := RecordedOrigins(app, now, |app.history|);
    var h := |entries|;
    var op := |OperationEvents(app, now)|;
    var total := h + op + |HealthEvents(app, now)|;
    origin := seq(total, i requires 0 <= i < total =>
      if i < h then FromHistory(entries[i]) else if i < h + op then FromOperation else FromHealth);
    forall i | 0 <= i < total ensures Stems(app, now, EventsOf(app, now)[i], origin[i]) {
      if h <= i { hide Stems; StemsLast(app, now, i, h, op); }
    }
    forall n | n in entries ensures FromHistory(n) in origin {
      var i :| 0 <= i < h && entries[i] == n;
      assert origin[i] == FromHistory(n);
    }
  }

  lemma StemsLast(app: Application, now: int, i: nat, h: nat, op: nat)
    requires h == |Recorded(app, now, |app.history|)| && op == |OperationEvents(app, now)|
    requires h <= i < |EventsOf(app, now)|
    ensures Stems(app, now, EventsOf(app, now)[i], if i < h + op then FromOperation else FromHealth)
  {
    AtMostOne(app, now);
    hide OperationEvents, HealthEvents, Recorded;
    if i < h + op {
      assert OperationEvents(app, now) == [EventsOf(app, now)[i]];
    } else {
      assert HealthEvents(app, now) == [EventsOf(app, now)[i]];
    }
  }

  // What the events say, by the snapshot's own fields.

  /** The first of several sync revisions stands in for a missing one. */
  lemma RevisionIs(app: Application)
    ensures app.syncRevision != "" ==> Revision(app) == app.syncRevision
    ensures app.syncRevision == "" && app.syncRevisions == [] ==> Revision(app) == ""
    ensures app.syncRevision == "" && app.syncRevisions != [] ==> Revision(app) == app.syncRevisions[0]
  {
  }

  /** Who acted: the user named by the operation, the automation, or Argo CD itself. */
  lemma ActorIs(app: Application)
    ensures app.operation.None? ==> Actor(app) == "argocd"
    ensures app.operation.Some? ==>
              var user := Trim(app.operation.value.username);
              && (user != "" ==> Actor(app) == user)
              && (user == "" && app.operation.value.automated ==> Actor(app) == "argocd-automated")
              && (user == "" && !app.operation.value.automated ==> Actor(app) == "argocd")
  {
    hide Trim;
  }

  /** The four annotations that are passed on, trimmed, where they say something. */
  lemma AnnotationsAre(annotations: map<string, string>, key: string, value: Json)
    ensures Lookup(EvidraAnnotations(annotations), key) == Some(value) <==>
              && key in {"evidra.rest/change-id", "evidra.rest/ticket", "evidra.rest/approvals-ref",
                         "evidra.rest/approvals-json"}
              && key in annotations && Trim(annotations[key]) != "" && value == JText(Trim(annotations[key]))
  {
    hide Trim;
  }

  /** An instant the snapshot dates: its reconciliation, its operation, or its last deployment. */
  predicate IsDate(app: Application, t: int) {
    || t == app.reconciledAt
    || (app.operation.Some? && (t == app.operation.value.startedAt || t == app.operation.value.finishedAt))
    || (app.history != [] &&
        var last := app.history[|app.history| - 1]; t == last.deployedAt || t == last.deployStartedAt)
  }

  /** The most recent time is the latest of them after the zero time, or else the clock's. */
  lemma MostRecentIs(app: Application, now: int)
    ensures (forall d :: IsDate(app, d) ==> d <= 0) ==> MostRecent(app, now) == now
    ensures (exists d :: IsDate(app, d) && d > 0) ==>
              IsDate(app, MostRecent(app, now)) && forall d :: IsDate(app, d) ==> d <= MostRecent(app, now)
  {
    SameDates(app);
    hide TimeChoices;
    assert forall d :: IsDate(app, d) ==> d in TimeChoices(app);
  }

  lemma SameDates(app: Application)
    ensures forall d :: d in TimeChoices(app) <==> IsDate(app, d)
  {
  }

  /** What every event of a snapshot carries. */
  predicate OfSnapshot(se: SourceEvent, app: Application) {
    && se.appUID == Trim(app.uid) && se.app == Trim(app.name) && se.namespace == Trim(app.namespace)
    && se.cluster == (if Trim(app.server) != "" then Trim(app.server) else "unknown")
    && se.payload.Some?
    && Lookup(se.payload.value, "annotations") ==
         if EvidraAnnotations(app.annotations) == map[] then None
         else Some(JObject(EvidraAnnotations(app.annotations)))
  }

  /** The text of a positive history ID, or revision and second of an entry without one. */
  predicate EntryTail(tail: string, id: int, revision: string, occurred: int) {
    if id > 0 then tail == Decimal(id)
    else tail == Trim(revision) + ":" + (if occurred == 0 then "0" else Decimal(UnixSeconds(occurred)))
  }

  /** A history entry is recorded as deployed: under its ID, its revision or else the application's, and its
      deployment time, or else that of its start, or else the latest the snapshot knows. */
  lemma RecordedSays(h: HistoryEntry, app: Application, now: int) returns (tail: string)
    ensures var se := RecordedEvent(h, app, now);
            var revision := if Trim(h.revision) != "" then Trim(h.revision) else Trim(Revision(app));
            && OfSnapshot(se, app) && se.actor == Actor(app)
            && se.eventType == "argo.deployment.recorded" && se.result == "Recorded" && se.healthStatus == ""
            && se.historyID == h.id && se.revision == revision
            && se.occurred == (if h.deployedAt != 0 then h.deployedAt
                               else if h.deployStartedAt != 0 then h.deployStartedAt else MostRecent(app, now))
            && se.operationKey == (if h.id > 0 then "hist:" + Decimal(h.id)
                                   else OperationKey(revision, 0, se.occurred))
            && se.id == Trim(app.uid) + ":" + ("hist:" + tail) && EntryTail(tail, h.id, revision, se.occurred)
            && Lookup(se.payload.value, "history_id") == Some(JNumber(h.id))
            && Lookup(se.payload.value, "sync_revision") == Some(JText(revision))
  {
    assert "annotations" != "history_id" && "annotations" != "sync_revision" && "history_id" != "sync_revision";
    tail := HistoryTail(h.id, EntryRevision(h, app), OccurredAt(h, app, now));
    AnnotationsAdded(app, map["history_id" := JNumber(h.id), "sync_revision" := JText(EntryRevision(h, app))]);
    RecordedID(h, app, now);
    hide Trim, Actor, WithAnnotations, EvidraAnnotations, Revision, Decimal, MostRecent, UnixSeconds, OperationKey,
      HistoryEventID;
  }

  lemma RecordedID(h: HistoryEntry, app: Application, now: int)
    ensures RecordedEvent(h, app, now).id ==
              Trim(app.uid) + ":" + ("hist:" + HistoryTail(h.id, EntryRevision(h, app), OccurredAt(h, app, now)))
  {
    TrimTwice(app.uid);
    hide Trim, Actor, WithAnnotations, Revision, MostRecent, HistoryTail, OccurredAt, EntryRevision;
  }

  lemma AnnotationsAdded(app: Application, payload: map<string, Json>)
    requires "annotations" !in payload
    ensures var all := WithAnnotations(app, payload); var kept := EvidraAnnotations(app.annotations);
            && all.Some? && Lookup(all.value, "annotations") == (if kept == map[] then None else Some(JObject(kept)))
            && forall k :: k in payload ==> Lookup(all.value, k) == Some(payload[k])
  {
    hide EvidraAnnotations;
  }

  /** An operation is reported when it has started and runs or terminates, or when it has ended; its phase is the
      event's result, and its key is made of the application's revision and its start, or else its end. */
  lemma OperationSays(app: Application, now: int)
    ensures var op := app.operation; var events := OperationEvents(app, now);
            && (events == [] <==>
                  || op == None
                  || (op.value.phase in {Running, Terminating} && op.value.startedAt == 0)
                  || op.value.phase !in {Running, Terminating, Succeeded, Failed, Error})
            && (events != [] ==>
                  && |events| == 1
                  && var se, phase, start := events[0], op.value.phase, op.value.startedAt;
                     var end := if op.value.finishedAt != 0 then op.value.finishedAt else if start != 0 then start
                                else MostRecent(app, now);
                     && OfSnapshot(se, app) && se.actor == Actor(app)
                     && (phase in {Running, Terminating} ==>
                           se.eventType == "argo.sync.started" && se.occurred == start)
                     && (phase in {Succeeded, Failed, Error} ==>
                           se.eventType == "argo.sync.finished" && se.occurred == end)
                     && (phase == Running ==> se.result == "Running")
                     && (phase == Terminating ==> se.result == "Terminating")
                     && (phase == Succeeded ==> se.result == "Succeeded")
                     && (phase == Failed ==> se.result == "Failed") && (phase == Error ==> se.result == "Error")
                     && Lookup(se.payload.value, "operation_phase") == Some(JText(se.result))
                     && se.revision == Trim(Revision(app)) && se.healthStatus == "" && se.historyID == 0
                     && se.operationKey == OperationKey(Revision(app), start, end)
                     && se.id == Trim(app.uid) + ":" + ("op:" + Trim(se.operationKey) + ":" +
                                   (if phase in {Running, Terminating} then "start" else "finish")))
  {
    hide BaseEvent, OperationEvent;
    if OperationEvents(app, now) != [] {
      var op := app.operation.value;
      OperationEventSays(op, app, now, op.phase in {Running, Terminating});
    }
  }

  /** The event in full, as started or as finished. */
  lemma OperationEventSays(op: Operation, app: Application, now: int, started: bool)
    ensures var se := OperationEvent(op, app, now, started);
            var end := if op.finishedAt != 0 then op.finishedAt else if op.startedAt != 0 then op.startedAt
                       else MostRecent(app, now);
            && OfSnapshot(se, app) && se.actor == Actor(app)
            && se.eventType == (if started then "argo.sync.started" else "argo.sync.finished")
            && se.occurred == (if started then op.startedAt else end)
            && PhaseText(op.phase, se.result) && Lookup(se.payload.value, "operation_phase") == Some(JText(se.result))
            && se.revision == Trim(Revision(app)) && se.healthStatus == "" && se.historyID == 0
            && se.operationKey == OperationKey(Revision(app), op.startedAt, end)
            && se.id == Trim(app.uid) + ":" +
                 ("op:" + Trim(se.operationKey) + ":" + (if started then "start" else "finish"))
  {
    AnnotationsAdded(app, map["operation_phase" := JText(Trim(op.phase.Name()))]);
    PhaseIsText(op.phase);
    OperationIDIs(op, app, now, started);
    hide Trim, Actor, WithAnnotations, EvidraAnnotations, Revision, MostRecent, OperationKey, OperationEventID,
      Phase.Name;
  }

  /** A known phase goes by its own name. */
  predicate PhaseText(phase: Phase, text: string) {
    && (phase == Running ==> text == "Running") && (phase == Terminating ==> text == "Terminating")
    && (phase == Succeeded ==> text == "Succeeded") && (phase == Failed ==> text == "Failed")
    && (phase == Error ==> text == "Error")
  }

  lemma PhaseIsText(phase: Phase)
    ensures PhaseText(phase, Trim(phase.Name()))
  {
    PlainWord("Running");
    PlainWord("Terminating");
    PlainWord("Succeeded");
    PlainWord("Failed");
    PlainWord("Error");
    hide Trim;
  }

  lemma PlainWord(s: string)
    requires s != "" && !IsSpace(s[0]) && !IsSpace(s[|s| - 1])
    ensures Trim(s) == s
  {
  }

  lemma OperationIDIs(op: Operation, app: Application, now: int, started: bool)
    ensures var se := OperationEvent(op, app, now, started);
            se.id == Trim(app.uid) + ":" +
                       ("op:" + Trim(se.operationKey) + ":" + (if started then "start" else "finish"))
  {
    TrimTwice(app.uid);
    PlainWord("start");
    PlainWord("finish");
    hide Trim, Actor, WithAnnotations, Revision, OperationFinish, OperationKey, Phase.Name;
  }

  /** A health status that says something is reported as seen at the reconciliation, or else now. */
  lemma HealthSays(app: Application, now: int)
    ensures HealthEvents(app, now) == [] <==> Trim(app.health) == ""
    ensures HealthEvents(app, now) != [] ==>
              && |HealthEvents(app, now)| == 1
              && var se := HealthEvents(app, now)[0];
                 && OfSnapshot(se, app) && se.actor == "argocd" && se.eventType == "argo.health.changed"
                 && se.result == "" && se.healthStatus == Trim(app.health) && se.historyID == 0 && se.operationKey == ""
                 && se.revision == Trim(Revision(app))
                 && se.occurred == (if app.reconciledAt != 0 then app.reconciledAt else now)
                 && se.id == Trim(app.uid) + ":" + ("health:" + Lower(Trim(app.health)) + ":" +
                               (if se.occurred == 0 then "0" else Decimal(UnixSeconds(se.occurred))))
                 && Lookup(se.payload.value, "health_status") == Some(JText(Trim(app.health)))
                 && Lookup(se.payload.value, "observed_at") == Some(JInstant(se.occurred))
  {
    HealthIDIs(app);
    AnnotationsAdded(app, map["health_status" := JText(Trim(app.health)),
                              "observed_at" := JInstant(if app.reconciledAt == 0 then now else app.reconciledAt)]);
    assert "annotations" != "health_status" && "annotations" != "observed_at" && "health_status" != "observed_at";
    hide Trim, Actor, WithAnnotations, EvidraAnnotations, Revision, Decimal, UnixSeconds, Lower, HealthEventID;
  }

  lemma HealthIDIs(app: Application)
    ensures forall occurred :: HealthEventID(Trim(app.uid), Trim(app.health), occurred) ==
              Trim(app.uid) + ":" + ("health:" + Lower(Trim(app.health)) + ":" +
                (if occurred == 0 then "0" else Decimal(UnixSeconds(occurred))))
  {
    TrimTwice(app.uid);
    TrimTwice(app.health);
    hide Trim, Decimal, UnixSeconds, Lower;
  }
}
