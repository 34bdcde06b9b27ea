/** From Argo snapshots through a failing collector and a store to what its users read: everything a polled
    store shows stands for a source event, so change list and evidence pack agree on it. */
module EndToEnd {
  import opened Text
  import opened Keyset
  import opened CloudEvents
  import opened Store
  import opened Collector
  import opened CatchUp
  import opened Attempts
  import opened SourceEvents
  import opened Normalize
  import opened Pipeline
  import opened Projection
  import opened Export

  /** A store, possibly empty, whose rows all stand for source events of that origin. */
  ghost predicate StandFor(db: Db, from: SourceEvent -> bool, settings: Settings) {
    WellFormed(db) && forall id :: id in db ==> Stands(db[id], from, settings)
  }

  ghost predicate Stands(e: StoredEvent, from: SourceEvent -> bool, settings: Settings) {
    exists se :: from(se) && Represents(e, se, settings)
  }

  predicate Any(se: SourceEvent) { true }

  lemma HandleKeepsOrigin(st: State, se: SourceEvent, from: SourceEvent -> bool, settings: Settings, now: int)
    requires StandFor(st.db, from, settings) && from(se)
    ensures StandFor(Handle(st, se, Normalizing(settings), now).db, from, settings)
  {
    hide NormalizeSourceEvent, ShouldProcess, Advance, ValidStored, IntegrityHash, WellFormed, Represents, IngestInto;
    HandleCases(st, se, Normalizing(settings), now);
    if Normalizing(settings)(se).Some? { IngestedStandsFor(st.db, se, settings, now); }
  }

  /** A row a write adds stands for the source event written. */
  lemma IngestedStandsFor(db: Db, se: SourceEvent, settings: Settings, now: int)
    requires NormalizeSourceEvent(se, settings).Some?
    ensures var e := NormalizeSourceEvent(se, settings).value;
            var db' := IngestInto(db, e, now).db;
            && (forall id :: id in db' && (id !in db || db'[id] != db[id]) ==>
                id == e.id && Represents(db'[id], se, settings))
  {
    hide NormalizeSourceEvent, IngestInto;
    NormalizedIsBlank(se, settings);
    WrittenRow(db, NormalizeSourceEvent(se, settings).value, now);
  }

  lemma WrittenRow(db: Db, e: StoredEvent, now: int)
    requires e.integrity.Unset? && e.ingestedAt == 0
    ensures var db' := IngestInto(db, e, now).db;
            forall id :: id in db' && (id !in db || db'[id] != db[id]) ==>
              id == e.id && db'[id].(integrity := Unset, ingestedAt := 0) == e
  {
    hide ValidStored, IntegrityHash;
  }

  lemma NormalizedIsBlank(se: SourceEvent, settings: Settings)
    requires NormalizeSourceEvent(se, settings).Some?
    ensures NormalizeSourceEvent(se, settings).value.integrity.Unset? &&
              NormalizeSourceEvent(se, settings).value.ingestedAt == 0
  {
  }

  /** In every state the collector can reach, however often it fails and restarts, every row stands for a source
      event of the batches it fetched, or of those the store began with. */
  lemma {:induction false} PolledRowsAreArgo(f: Feed, moves: seq<Move>, from: SourceEvent -> bool, settings: Settings)
    requires f.norm == Normalizing(settings) && StandFor(f.start.db, from, settings)
    requires forall a: nat, se :: se in f.batches(a) ==> from(se)
    ensures StandFor(Reach(f, moves).db, from, settings)
  {
    hide Step, StandFor, Normalizing;
    if moves != [] {
      PolledRowsAreArgo(f, moves[..|moves| - 1], from, settings);
      StepKeepsOrigin(f, Reach(f, moves[..|moves| - 1]), moves[|moves| - 1], from, settings);
    }
  }

  lemma StepKeepsOrigin(f: Feed, s: Progress, m: Move, from: SourceEvent -> bool, settings: Settings)
    requires f.norm == Normalizing(settings) && StandFor(s.db, from, settings)
    requires forall a: nat, se :: se in f.batches(a) ==> from(se)
    ensures StandFor(Step(f, s, m).db, from, settings)
  {
    hide Handle, StandFor, Normalizing;
    if (m.HandleNext? || m.CrashAfterWrite?) && s.pos < |f.batches(s.attempt)| {
      var se := f.batches(s.attempt)[s.pos];
      assert se in f.batches(s.attempt);
      HandleKeepsOrigin(State(s.cursors, s.db), se, from, settings, m.now);
    }
  }

  /** The changes of a list of events, as the change list has them. */
  ghost predicate IsChangeMap(byID: map<string, ChangeDetail>, events: seq<StoredEvent>, lib: Library, now: int) {
    && (forall id :: id in byID <==> Group(events, id, lib) != [])
    && (forall id :: id in byID ==> Describes(byID[id], Group(events, id, lib), lib, now))
  }

  /** The evidence pack of Argo events says failed exactly when one of their changes has, succeeded only if a
      change has and none has failed, and unless a text says "healthy" unknown exactly when all are. */
  lemma PackAgreesWithChanges(events: seq<StoredEvent>, settings: Settings, lib: Library, now: int,
                              byID: map<string, ChangeDetail>, p: Pack, hash: string -> string)
    requires forall e :: e in events ==> FromArgo(e, settings)
    requires IsChangeMap(byID, events, lib, now) && IsPack(p, events, hash)
    ensures p.view.result.ResultFailed? <==> exists id :: id in byID && byID[id].change.result.ResultFailed?
    ensures p.view.result.ResultSucceeded? ==> exists id :: id in byID && byID[id].change.result.ResultSucceeded?
    ensures (forall e :: e in events ==> !SaysHealthy(e)) ==>
              (p.view.result.ResultUnknown? <==> forall id :: id in byID ==> byID[id].change.result.ResultUnknown?)
  {
    hide FromArgo, Group, InferResult, ExportResult, ExportResultOf, SaysHealthy, Describes, ChangeID, Sorted;
    PackResult(p, events, hash);
    forall e | e in events
      ensures ChangeID(e, lib) in byID
      ensures ExportResultOf(e).ResultFailed? <==> InferResult(e).ResultFailed?
      ensures ExportResultOf(e).ResultSucceeded? ==> InferResult(e).ResultSucceeded?
      ensures InferResult(e).ResultSucceeded? ==> ExportResultOf(e).ResultSucceeded? || SaysHealthy(e)
    {
      assert e in Group(events, ChangeID(e, lib), lib);
      ResultsOfOne(e, settings);
    }
    forall id | id in byID
      ensures byID[id].change.result.ResultFailed? <==>
                exists e :: e in events && ChangeID(e, lib) == id && InferResult(e).ResultFailed?
      ensures byID[id].change.result.ResultUnknown? <==>
                forall e :: e in events && ChangeID(e, lib) == id ==> InferResult(e).ResultUnknown?
    {
      ChangeResult(byID[id], events, id, lib, now);
    }
  }

  lemma PackResult(p: Pack, events: seq<StoredEvent>, hash: string -> string)
    requires IsPack(p, events, hash)
    ensures p.view.result.ResultFailed? <==> exists e :: e in events && ExportResultOf(e).ResultFailed?
    ensures p.view.result.ResultUnknown? <==> forall e :: e in events ==> ExportResultOf(e).ResultUnknown?
  {
    hide ExportResultOf, ExportResult, Sorted, FirstNonEmpty;
    forall e ensures e in p.timeline <==> e in events { SortedElements(p.timeline, events, e); }
    ExportResultMeans(p.timeline);
  }

  lemma ChangeResult(d: ChangeDetail, events: seq<StoredEvent>, id: string, lib: Library, now: int)
    requires Describes(d, Group(events, id, lib), lib, now)
    ensures d.change.result.ResultFailed? <==>
              exists e :: e in events && ChangeID(e, lib) == id && InferResult(e).ResultFailed?
    ensures d.change.result.ResultUnknown? <==>
              forall e :: e in events && ChangeID(e, lib) == id ==> InferResult(e).ResultUnknown?
  {
    hide Group, InferResult, ChangeID, MergedResult, Sorted, FirstNonEmpty, MergedHealth, LastKnown, FirstDegraded;
    MergedResultMeans(Group(events, id, lib));
    DescribedResult(d, Group(events, id, lib), lib, now);
  }

  lemma DescribedResult(d: ChangeDetail, g: seq<StoredEvent>, lib: Library, now: int)
    requires Describes(d, g, lib, now)
    ensures d.change.result == MergedResult(g)
  {
    hide ChangeID, MergedResult, Sorted, FirstNonEmpty, MergedHealth, LastKnown, FirstDegraded, PrimaryProvider;
  }

  lemma PageStands(db: Db, q: TimelineQuery, from: SourceEvent -> bool, settings: Settings)
    requires StandFor(db, from, settings) && !q.cursor.Malformed?
    ensures forall e :: e in Timeline(db, q).items ==> Stands(e, from, settings)
  {
    hide Matches, Stands, ValidStored;
    RowsKeyed(db, q);
    PageFacts(Rows(db, q), EventKey, CursorKey(q.cursor), ClampLimit(q.limit));
  }

  lemma StandingIsArgo(e: StoredEvent, from: SourceEvent -> bool, settings: Settings)
    requires Stands(e, from, settings)
    ensures FromArgo(e, settings)
  {
    hide Represents;
  }

  /** So in every state the collector can reach, whatever the batches, for every query, what is
      exported and what is listed of a timeline agree. */
  lemma CollectedExportAgrees(f: Feed, moves: seq<Move>, settings: Settings, q: TimelineQuery, lib: Library,
                              now: int, byID: map<string, ChangeDetail>, p: Pack, hash: string -> string)
    requires f.norm == Normalizing(settings) && StandFor(f.start.db, Any, settings) && !q.cursor.Malformed?
    ensures WellFormed(Reach(f, moves).db)
    ensures var items := Timeline(Reach(f, moves).db, q).items;
            IsChangeMap(byID, items, lib, now) && IsPack(p, items, hash) ==>
              && (p.view.result.ResultFailed? <==> exists id :: id in byID && byID[id].change.result.ResultFailed?)
              && (p.view.result.ResultSucceeded? ==> exists id :: id in byID && byID[id].change.result.ResultSucceeded?)
              && ((forall e :: e in items ==> !SaysHealthy(e)) ==>
                    (p.view.result.ResultUnknown? <==>
                     forall id :: id in byID ==> byID[id].change.result.ResultUnknown?))
  {
    PolledRowsAreArgo(f, moves, Any, settings);
    PageStands(Reach(f, moves).db, q, Any, settings);
    hide Reach, Timeline, FromArgo, Stands, IsPack, IsChangeMap, SaysHealthy, ValidStored;
    var items := Timeline(Reach(f, moves).db, q).items;
    forall e | e in items ensures FromArgo(e, settings) { StandingIsArgo(e, Any, settings); }
    if IsChangeMap(byID, items, lib, now) && IsPack(p, items, hash) {
      PackAgreesWithChanges(items, settings, lib, now, byID, p, hash);
    }
  }

  /** What a poll newly collects is on record as what it was. */
  lemma CollectedStandsFor(r: Run, i: nat, settings: Settings)
    requires r.norm == Normalizing(settings) && i < |r.batch| && r.Collected(i)
    requires r.norm(r.batch[i]).value.id !in r.At(i).db
    ensures var db, id := r.At(|r.batch|).db, r.norm(r.batch[i]).value.id;
            id in db && Represents(db[id], r.batch[i], settings)
  {
    hide NormalizeSourceEvent, ValidStored, IntegrityHash, ShouldProcess, After, IngestInto;
    var e := r.norm(r.batch[i]).value;
    StepState(r, i);
    OutcomeIgnoresClock(r.At(i).db, e, 0, r.clock(i));
    IngestStores(r.At(i).db, e, r.clock(i));
    IngestedStandsFor(r.At(i).db, r.batch[i], settings, r.clock(i));
    AfterExtends(r.start, r.batch, r.norm, r.clock, i + 1, |r.batch|);
  }

  // Fetched batches speak a fixed vocabulary, in which nothing is "healthy".

  /** The event comes from some snapshot. */
  ghost predicate Extracted(se: SourceEvent) {
    exists app, now :: se in EventsOf(app, now)
  }

  lemma {:induction false} ContainsItsLetters(s: string, part: string)
    requires Contains(s, part)
    ensures forall c :: c in part ==> c in s
  {
    if !(part <= s) { ContainsItsLetters(s[1..], part); }
  }

  /** Type and result of an extracted event. */
  predicate Vocabulary(typ: string, result: string) {
    || (typ == "argo.deployment.recorded" && result == "Recorded")
    || (typ == "argo.sync.started" && (result == "Running" || result == "Terminating"))
    || (typ == "argo.sync.finished" && (result == "Succeeded" || result == "Failed" || result == "Error"))
    || (typ == "argo.health.changed" && result == "")
  }

  /** A letter of "healthy" that type and result lack, in either case. */
  function Lacking(typ: string): char {
    if typ == "argo.health.changed" then 'y' else if typ == "argo.sync.finished" then 't' else 'h'
  }

  predicate Lacks(s: string, c: char) {
    c !in s && forall i :: 0 <= i < |s| ==> LowerChar(s[i]) != c
  }

  lemma RecordedTypeLacks()
    ensures Lacks("argo.deployment.recorded", 'h')
  {
  }

  lemma StartedTypeLacks()
    ensures Lacks("argo.sync.started", 'h')
  {
  }

  lemma FinishedTypeLacks()
    ensures Lacks("argo.sync.finished", 't')
  {
  }

  lemma HealthTypeLacks()
    ensures Lacks("argo.health.changed", 'y')
  {
  }

  lemma ResultsLack()
    ensures Lacks("Recorded", 'h') && Lacks("Running", 'h') && Lacks("Terminating", 'h')
    ensures Lacks("Succeeded", 't') && Lacks("Failed", 't') && Lacks("Error", 't') && Lacks("", 'y')
  {
  }

  lemma HealthyNeeds(s: string, c: char)
    requires Lacks(s, c) && (c == 'h' || c == 't' || c == 'y')
    ensures !Contains(Lower(s), "healthy")
  {
    assert c in "healthy" by { assert "healthy"[0] == 'h' && "healthy"[4] == 't' && "healthy"[6] == 'y'; }
    if Contains(Lower(s), "healthy") {
      ContainsItsLetters(Lower(s), "healthy");
      assert false;
    }
  }

  lemma NothingHealthy(typ: string, result: string)
    requires Vocabulary(typ, result)
    ensures !Contains(Lower(typ + " " + result), "healthy")
  {
    RecordedTypeLacks();
    StartedTypeLacks();
    FinishedTypeLacks();
    HealthTypeLacks();
    ResultsLack();
    hide Lacks;
    var c := Lacking(typ);
    assert Lacks(typ, c) && Lacks(result, c);
    hide Contains, Lower;
    assert Lacks(typ + " " + result, c) by { LacksJoined(typ, result, c); }
    HealthyNeeds(typ + " " + result, c);
  }

  lemma LacksJoined(a: string, b: string, c: char)
    requires Lacks(a, c) && Lacks(b, c) && c != ' '
    ensures Lacks(a + " " + b, c)
  {
  }

  lemma ExtractedSpeaks(app: Application, now: int, se: SourceEvent)
    requires se in EventsOf(app, now)
    ensures Vocabulary(se.eventType, Trim(se.result))
  {
    hide EventsOf, Stems, Suppressed, Vocabulary;
    var origin := EventOrigins(app, now);
    var i :| 0 <= i < |EventsOf(app, now)| && EventsOf(app, now)[i] == se;
    StemsSpeak(app, now, se, origin[i]);
  }

  lemma StemsSpeak(app: Application, now: int, se: SourceEvent, o: Origin)
    requires Stems(app, now, se, o)
    ensures Vocabulary(se.eventType, Trim(se.result))
  {
    hide Vocabulary, Suppressed, RecordedEvent, OperationEvents, HealthEvents;
    match o {
      case FromHistory(n) => RecordedSpeaks(app.history[n], app, now);
      case FromOperation => OperationSpeaks(app, now, se);
      case FromHealth => HealthSpeaks(app, now, se);
    }
  }

  lemma RecordedSpeaks(h: HistoryEntry, app: Application, now: int)
    ensures var se := RecordedEvent(h, app, now); Vocabulary(se.eventType, Trim(se.result))
  {
    assert Trim("Recorded") == "Recorded";
    hide BaseEvent, WithAnnotations, OccurredAt, EntryRevision, Trim, HistoryEventID, HistoryOperationKey;
  }

  lemma OperationSpeaks(app: Application, now: int, se: SourceEvent)
    requires OperationEvents(app, now) == [se]
    ensures Vocabulary(se.eventType, Trim(se.result))
  {
    PhaseNames();
    hide BaseEvent, WithAnnotations, OperationKey, OperationFinish, Trim, OperationEventID, Revision;
  }

  lemma HealthSpeaks(app: Application, now: int, se: SourceEvent)
    requires HealthEvents(app, now) == [se]
    ensures Vocabulary(se.eventType, Trim(se.result))
  {
    assert Trim("") == "";
    hide WithAnnotations, Trim, HealthEventID, Revision, Actor;
  }

  lemma PhaseNames()
    ensures Trim("Running") == "Running" && Trim("Terminating") == "Terminating"
    ensures Trim("Succeeded") == "Succeeded" && Trim("Failed") == "Failed" && Trim("Error") == "Error"
  {
    PlainWord("Running");
    PlainWord("Terminating");
    PlainWord("Succeeded");
    PlainWord("Failed");
    PlainWord("Error");
    hide Trim;
  }

  /** What the projections read of a normalised event. */
  lemma SpokenTexts(se: SourceEvent, settings: Settings, e: StoredEvent)
    requires Represents(e, se, settings)
    ensures e.typ == Or(se.eventType, "argo.sync.finished") && StatusText(e) == Trim(se.result)
  {
    TrimTwice(se.result);
    ResultMembers(se, settings);
    hide ExtensionsOf, DataOf, Trim, Or;
  }

  lemma ResultMembers(se: SourceEvent, settings: Settings)
    ensures var d := DataOf(se, settings);
            && "status" !in d && "outcome" !in d && "result" in d && "phase" in d
            && d["result"] == d["phase"] == JText(Trim(se.result))
  {
    hide Annotation, Trim;
  }

  lemma SnapshotSaysNothingHealthy(e: StoredEvent, settings: Settings)
    requires Stands(e, Extracted, settings)
    ensures FromArgo(e, settings) && !SaysHealthy(e)
  {
    StandingIsArgo(e, Extracted, settings);
    hide FromArgo, EventsOf, Represents, Trim, StatusText, Vocabulary, Contains, Lower;
    var se :| Extracted(se) && Represents(e, se, settings);
    var app, now :| se in EventsOf(app, now);
    ExtractedSpeaks(app, now, se);
    SpokenTexts(se, settings, e);
    TypeIsKept(se.eventType, Trim(se.result));
    NothingHealthy(se.eventType, Trim(se.result));
  }

  lemma TypeIsKept(typ: string, result: string)
    requires Vocabulary(typ, result)
    ensures Or(typ, "argo.sync.finished") == typ
  {
    assert Trim("argo.deployment.recorded") == "argo.deployment.recorded";
    assert Trim("argo.sync.started") == "argo.sync.started" && Trim("argo.sync.finished") == "argo.sync.finished";
    assert Trim("argo.health.changed") == "argo.health.changed";
    hide Trim;
  }

  /** What each attempt sees: the snapshots Argo lists, and the clock it reads. */
  datatype Watch = Watch(clusters: nat -> seq<Application>, clock: nat -> int, settings: Settings)

  function FeedOf(v: Watch, start: State): Feed {
    Feed(start, (a: nat) => Fetch(v.clusters(a), v.clock(a)), Normalizing(v.settings))
  }

  lemma {:induction false} FetchIsExtracted(apps: seq<Application>, now: int)
    ensures forall se :: se in Fetch(apps, now) ==> Extracted(se)
  {
    hide EventsOf;
    if apps != [] { FetchIsExtracted(apps[..|apps| - 1], now); }
  }

  /** Whatever clusters the attempts see and wherever they fail, for every query of the store: the pack of
      its answer has failed exactly when one of the changes listed has, has succeeded exactly when one has and
      none has failed, and is unknown exactly when all are. */
  lemma PolledExportAgrees(v: Watch, start: State, moves: seq<Move>, q: TimelineQuery, lib: Library, now: int,
                           byID: map<string, ChangeDetail>, p: Pack, hash: string -> string)
    requires StandFor(start.db, Extracted, v.settings) && !q.cursor.Malformed?
    ensures WellFormed(Reach(FeedOf(v, start), moves).db)
    ensures var items := Timeline(Reach(FeedOf(v, start), moves).db, q).items;
            IsChangeMap(byID, items, lib, now) && IsPack(p, items, hash) ==>
              && (p.view.result.ResultFailed? <==> exists id :: id in byID && byID[id].change.result.ResultFailed?)
              && (p.view.result.ResultSucceeded? <==>
                    (exists id :: id in byID && byID[id].change.result.ResultSucceeded?) &&
                    !exists id :: id in byID && byID[id].change.result.ResultFailed?)
              && (p.view.result.ResultUnknown? <==>
                    forall id :: id in byID ==> byID[id].change.result.ResultUnknown?)
  {
    var f := FeedOf(v, start);
    forall a: nat, se | se in f.batches(a) ensures Extracted(se) { FetchIsExtracted(v.clusters(a), v.clock(a)); }
    PolledRowsAreArgo(f, moves, Extracted, v.settings);
    PageStands(Reach(f, moves).db, q, Extracted, v.settings);
    hide Reach, Timeline, FromArgo, Stands, IsPack, IsChangeMap, SaysHealthy, ValidStored;
    var items := Timeline(Reach(f, moves).db, q).items;
    forall e | e in items ensures FromArgo(e, v.settings) && !SaysHealthy(e) {
      SnapshotSaysNothingHealthy(e, v.settings);
    }
    if IsChangeMap(byID, items, lib, now) && IsPack(p, items, hash) {
      PackAgreesWithChanges(items, v.settings, lib, now, byID, p, hash);
    }
  }
}
