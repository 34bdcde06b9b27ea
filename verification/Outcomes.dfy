/** What becomes of an operation's phase: a change of a polled store has failed exactly when a row of it reports an
    operation that failed, and so has the evidence pack. */
module Outcomes {
  import opened Text
  import opened Keyset
  import opened CloudEvents
  import opened Store
  import opened Collector
  import opened CatchUp
  import opened Attempts
  import opened SourceEvents
  import opened Normalize
  import opened Pipeline
  import opened Projection
  import opened Export
  import opened EndToEnd

  predicate HasPair(text: string, x: char, y: char) {
    exists i :: 0 <= i < |text| - 1 && text[i] == x && text[i + 1] == y
  }

  lemma NeedsPair(text: string, part: string, k: nat)
    requires k + 1 < |part| && Contains(text, part)
    ensures HasPair(text, part[k], part[k + 1])
  {
    ContainsIff(text, part);
    hide Contains;
    var i :| OccursAt(text, part, i);
    assert text[i..i + |part|][k] == text[i + k] && text[i..i + |part|][k + 1] == text[i + (k + 1)];
    assert 0 <= i + k < |text| - 1;
  }

  predicate NoFailure(text: string) {
    !HasPair(text, 'f', 'a') && !HasPair(text, 'r', 'r') && !HasPair(text, 'e', 'g') && !HasPair(text, 'a', 'b')
  }

  predicate NoSuccess(text: string) {
    !HasPair(text, 'c', 'c') && !HasPair(text, 'h', 'y') && !HasPair(text, 'o', 'm')
  }

  lemma NotFailed(text: string)
    requires NoFailure(text)
    ensures !SaysFailed(text)
  {
    hide HasPair, Contains;
    if Contains(text, "fail") { NeedsPair(text, "fail", 0); }
    if Contains(text, "error") { NeedsPair(text, "error", 1); }
    if Contains(text, "degrad") { NeedsPair(text, "degrad", 1); }
    if Contains(text, "abort") { NeedsPair(text, "abort", 0); }
  }

  lemma NotSucceeded(text: string)
    requires NoSuccess(text)
    ensures !Contains(text, "success") && !Contains(text, "succeed")
    ensures !Contains(text, "healthy") && !Contains(text, "complete")
  {
    hide HasPair, Contains;
    if Contains(text, "success") { NeedsPair(text, "success", 2); }
    if Contains(text, "succeed") { NeedsPair(text, "succeed", 2); }
    if Contains(text, "healthy") { NeedsPair(text, "healthy", 5); }
    if Contains(text, "complete") { NeedsPair(text, "complete", 1); }
  }

  lemma RecordedNotFailing()
    ensures NoFailure("argo.deployment.recorded")
  {
  }

  lemma RecordedNotSucceeding()
    ensures NoSuccess("argo.deployment.recorded")
  {
  }

  lemma StartedNotFailing()
    ensures NoFailure("argo.sync.started")
  {
  }

  lemma StartedNotSucceeding()
    ensures NoSuccess("argo.sync.started")
  {
  }

  lemma FinishedNotFailing()
    ensures NoFailure("argo.sync.finished")
  {
  }

  lemma ChangedNotFailing()
    ensures NoFailure("argo.health.changed")
  {
  }

  lemma ChangedNotSucceeding()
    ensures NoSuccess("argo.health.changed")
  {
  }

  lemma ResultsNotFailing()
    ensures NoFailure("recorded") && NoFailure("running") && NoFailure("terminating") && NoFailure("succeeded")
    ensures NoFailure("")
  {
  }

  lemma ResultsNotSucceeding()
    ensures NoSuccess("recorded") && NoSuccess("running") && NoSuccess("terminating") && NoSuccess("")
  {
  }

  lemma TypesInLower()
    ensures Lower("argo.deployment.recorded") == "argo.deployment.recorded"
    ensures Lower("argo.sync.started") == "argo.sync.started" && Lower("argo.sync.finished") == "argo.sync.finished"
    ensures Lower("argo.health.changed") == "argo.health.changed"
  {
  }

  lemma ResultsInLower()
    ensures Lower("Recorded") == "recorded" && Lower("Running") == "running" && Lower("Terminating") == "terminating"
    ensures Lower("Succeeded") == "succeeded" && Lower("Failed") == "failed" && Lower("Error") == "error"
    ensures Lower("") == ""
  {
  }

  lemma JoinedText(a: string, b: string)
    ensures Lower(a + " " + b) == Lower(a) + " " + Lower(b)
    ensures NoFailure(a) && NoFailure(b) ==> NoFailure(a + " " + b)
    ensures NoSuccess(a) && NoSuccess(b) ==> NoSuccess(a + " " + b)
  {
    forall x, y | x != ' ' && y != ' ' && HasPair(a + " " + b, x, y) ensures HasPair(a, x, y) || HasPair(b, x, y) {
      PairOfEither(a, b, x, y);
    }
    hide HasPair;
  }

  lemma PairOfEither(a: string, b: string, x: char, y: char)
    requires x != ' ' && y != ' ' && HasPair(a + " " + b, x, y)
    ensures HasPair(a, x, y) || HasPair(b, x, y)
  {
    var s := a + " " + b;
    var i :| 0 <= i < |s| - 1 && s[i] == x && s[i + 1] == y;
    if i > |a| {
      var j := i - |a| - 1;
      assert b[j] == x && b[j + 1] == y;
    } else {
      assert s[|a|] == ' ';
      assert a[i] == x && a[i + 1] == y;
    }
  }

  lemma EndsWith(a: string, b: string, word: string)
    requires word <= b
    ensures Contains(a + " " + b, word)
  {
    var s := a + " " + b;
    assert s[|a| + 1..] == b;
    assert OccursAt(s, word, |a| + 1);
    ContainsIff(s, word);
    hide Contains;
  }

  /** What the projections say of an event of that type and result. */
  function Told(typ: string, result: string): ResultStatus {
    if typ == "argo.sync.finished" && (result == "Failed" || result == "Error") then ResultFailed
    else if typ == "argo.sync.finished" && result == "Succeeded" then ResultSucceeded
    else ResultUnknown
  }

  predicate Bucket(text: string, r: ResultStatus) {
    && (SaysFailed(text) <==> r == ResultFailed)
    && (r == ResultSucceeded ==> Contains(text, "succeed"))
    && (r == ResultUnknown ==> !Contains(text, "success") && !Contains(text, "succeed") &&
                               !Contains(text, "healthy") && !Contains(text, "complete"))
  }

  lemma FailingText(result: string)
    requires result == "Failed" || result == "Error"
    ensures Bucket(Lower("argo.sync.finished" + " " + result), ResultFailed)
  {
    ResultsInLower();
    JoinedText("argo.sync.finished", result);
    hide Lower, Contains, NoFailure, NoSuccess;
    EndsWith(Lower("argo.sync.finished"), Lower(result), if result == "Failed" then "fail" else "error");
  }

  lemma SucceedingText()
    ensures Bucket(Lower("argo.sync.finished" + " " + "Succeeded"), ResultSucceeded)
  {
    TypesInLower();
    ResultsInLower();
    FinishedNotFailing();
    ResultsNotFailing();
    JoinedText(Lower("argo.sync.finished"), Lower("Succeeded"));
    JoinedText("argo.sync.finished", "Succeeded");
    hide Lower, Contains, NoFailure, NoSuccess;
    EndsWith(Lower("argo.sync.finished"), Lower("Succeeded"), "succeed");
    NotFailed(Lower("argo.sync.finished" + " " + "Succeeded"));
  }

  lemma OtherText(typ: string, result: string)
    requires Vocabulary(typ, result) && typ != "argo.sync.finished"
    ensures Bucket(Lower(typ + " " + result), ResultUnknown)
  {
    TypesInLower();
    ResultsInLower();
    SilentTexts(typ, result);
    JoinedText(Lower(typ), Lower(result));
    JoinedText(typ, result);
    hide Lower, Contains, NoFailure, NoSuccess;
    NotFailed(Lower(typ + " " + result));
    NotSucceeded(Lower(typ + " " + result));
  }

  lemma SilentTexts(typ: string, result: string)
    requires Vocabulary(typ, result) && typ != "argo.sync.finished"
    ensures NoFailure(Lower(typ)) && NoSuccess(Lower(typ)) && NoFailure(Lower(result)) && NoSuccess(Lower(result))
  {
    TypesInLower();
    ResultsInLower();
    RecordedNotFailing();
    RecordedNotSucceeding();
    StartedNotFailing();
    StartedNotSucceeding();
    ChangedNotFailing();
    ChangedNotSucceeding();
    ResultsNotFailing();
    ResultsNotSucceeding();
    hide Lower, NoFailure, NoSuccess;
  }

  /** What a row that stands for a polled event says. */
  lemma RowTold(app: Application, now: int, se: SourceEvent, settings: Settings, e: StoredEvent)
    requires se in EventsOf(app, now) && Represents(e, se, settings)
    ensures Vocabulary(se.eventType, Trim(se.result)) && InferResult(e) == Told(se.eventType, Trim(se.result))
  {
    hide EventsOf, Represents, Trim, StatusText, Contains, Lower, Or;
    var typ, result := se.eventType, Trim(se.result);
    ExtractedSpeaks(app, now, se);
    SpokenTexts(se, settings, e);
    TypeIsKept(typ, result);
    if typ != "argo.sync.finished" {
      OtherText(typ, result);
    } else if result == "Succeeded" {
      SucceedingText();
    } else {
      FailingText(result);
    }
    hide SaysFailed;
  }

  // Rows, changes and packs of a polled store.

  /** The row reports a polled operation of one of these phases. */
  ghost predicate Reports(e: StoredEvent, phases: set<Phase>, settings: Settings) {
    exists app, now, se :: InPhase(app, phases) && OperationEvents(app, now) == [se] && Represents(e, se, settings)
  }

  predicate InPhase(app: Application, phases: set<Phase>) {
    app.operation.Some? && app.operation.value.phase in phases
  }

  lemma OperationTold(app: Application, now: int, se: SourceEvent)
    requires OperationEvents(app, now) == [se]
    ensures app.operation.Some?
    ensures var phase, says := app.operation.value.phase, Told(se.eventType, Trim(se.result));
            && (says == ResultFailed <==> phase in {Failed, Error}) && (says == ResultSucceeded <==> phase == Succeeded)
  {
    OperationSays(app, now);
    PhaseNames();
    hide OperationEvents, Trim, OfSnapshot, Actor, Revision, OperationKey, MostRecent;
  }

  /** A row of a polled store says failed exactly when it reports an operation whose phase is Failed or Error, and
      succeeded exactly when it reports one whose phase is Succeeded. */
  lemma RowSaysPhase(e: StoredEvent, settings: Settings)
    requires Stands(e, Extracted, settings)
    ensures InferResult(e) == ResultFailed <==> Reports(e, {Failed, Error}, settings)
    ensures InferResult(e) == ResultSucceeded <==> Reports(e, {Succeeded}, settings)
  {
    hide InferResult, Represents, OperationEvents, EventsOf, Trim;
    var se :| Extracted(se) && Represents(e, se, settings);
    var app, now :| se in EventsOf(app, now);
    RowTold(app, now, se, settings, e);
    if InferResult(e) != ResultUnknown {
      FinishedStems(app, now, se);
      OperationTold(app, now, se);
    }
    forall app, now, se | OperationEvents(app, now) == [se] && Represents(e, se, settings)
      ensures app.operation.Some? && (InferResult(e) == ResultFailed <==> InPhase(app, {Failed, Error}))
      ensures InferResult(e) == ResultSucceeded <==> InPhase(app, {Succeeded})
    {
      OperationTold(app, now, se);
      OperationIsExtracted(app, now, se);
      RowTold(app, now, se, settings, e);
    }
  }

  lemma OperationIsExtracted(app: Application, now: int, se: SourceEvent)
    requires OperationEvents(app, now) == [se]
    ensures se in EventsOf(app, now)
  {
    hide OperationEvents, HealthEvents, Recorded;
    assert se in [se];
  }

  /** Only the operation event has a finish to tell. */
  lemma FinishedStems(app: Application, now: int, se: SourceEvent)
    requires se in EventsOf(app, now) && se.eventType == "argo.sync.finished"
    ensures OperationEvents(app, now) == [se]
  {
    hide EventsOf, Stems, RecordedEvent, OperationEvents, HealthEvents;
    var origin := EventOrigins(app, now);
    var i :| 0 <= i < |EventsOf(app, now)| && EventsOf(app, now)[i] == se;
    StemsOfFinish(app, now, se, origin[i]);
  }

  lemma StemsOfFinish(app: Application, now: int, se: SourceEvent, o: Origin)
    requires Stems(app, now, se, o) && se.eventType == "argo.sync.finished"
    ensures OperationEvents(app, now) == [se]
  {
    hide OperationEvents, HealthEvents, RecordedEvent, Suppressed;
    match o {
      case FromHistory(n) => var tail := RecordedSays(app.history[n], app, now);
      case FromOperation =>
      case FromHealth => HealthSays(app, now);
    }
  }

  /** Whatever clusters the attempts see and wherever they fail, for every query of the store: a change listed has
      failed exactly when a row of it reports an operation whose phase is Failed or Error, and has succeeded exactly
      when none does and a row reports one whose phase is Succeeded. So has the evidence pack of the answer. */
  lemma ResultsReportPhases(v: Watch, start: State, moves: seq<Move>, q: TimelineQuery, lib: Library, now: int,
                            byID: map<string, ChangeDetail>, p: Pack, hash: string -> string)
    requires StandFor(start.db, Extracted, v.settings) && !q.cursor.Malformed?
    ensures WellFormed(Reach(FeedOf(v, start), moves).db)
    ensures var items := Timeline(Reach(FeedOf(v, start), moves).db, q).items;
            IsChangeMap(byID, items, lib, now) && IsPack(p, items, hash) ==>
              && (forall id :: id in byID ==> IsToldBy(byID[id].change.result, Group(items, id, lib), v.settings))
              && IsToldBy(p.view.result, items, v.settings)
  {
    var f := FeedOf(v, start);
    forall a: nat, se | se in f.batches(a) ensures Extracted(se) { FetchIsExtracted(v.clusters(a), v.clock(a)); }
    PolledRowsAreArgo(f, moves, Extracted, v.settings);
    PageStands(Reach(f, moves).db, q, Extracted, v.settings);
    hide Reach, Timeline, Stands, IsPack, Describes, ValidStored, Group, IsToldBy;
    var items := Timeline(Reach(f, moves).db, q).items;
    if IsChangeMap(byID, items, lib, now) && IsPack(p, items, hash) {
      forall id | id in byID ensures IsToldBy(byID[id].change.result, Group(items, id, lib), v.settings) {
        ChangeIsToldBy(byID[id], Group(items, id, lib), v.settings, lib, now);
      }
      PackIsToldBy(p, items, v.settings, hash);
    }
  }

  /** Failed if an event reports a failed operation, succeeded if none does and one reports a succeeded one. */
  ghost predicate IsToldBy(r: ResultStatus, events: seq<StoredEvent>, settings: Settings) {
    var failed := exists e :: e in events && Reports(e, {Failed, Error}, settings);
    var succeeded := exists e :: e in events && Reports(e, {Succeeded}, settings);
    r == if failed then ResultFailed else if succeeded then ResultSucceeded else ResultUnknown
  }

  lemma ChangeIsToldBy(d: ChangeDetail, g: seq<StoredEvent>, settings: Settings, lib: Library, now: int)
    requires Describes(d, g, lib, now) && forall e :: e in g ==> Stands(e, Extracted, settings)
    ensures IsToldBy(d.change.result, g, settings)
  {
    DescribedResult(d, g, lib, now);
    MergedResultMeans(g);
    hide Reports, InferResult, MergedResult, Stands, Describes;
    forall e | e in g
      ensures InferResult(e) == ResultFailed <==> Reports(e, {Failed, Error}, settings)
      ensures InferResult(e) == ResultSucceeded <==> Reports(e, {Succeeded}, settings)
    {
      RowSaysPhase(e, settings);
    }
  }

  lemma PackIsToldBy(p: Pack, events: seq<StoredEvent>, settings: Settings, hash: string -> string)
    requires IsPack(p, events, hash) && forall e :: e in events ==> Stands(e, Extracted, settings)
    ensures IsToldBy(p.view.result, events, settings)
  {
    PackResult(p, events, hash);
    hide Reports, InferResult, ExportResultOf, Stands, IsPack, FromArgo, SaysHealthy;
    forall e | e in events
      ensures ExportResultOf(e) == ResultFailed <==> Reports(e, {Failed, Error}, settings)
      ensures ExportResultOf(e) == ResultSucceeded <==> Reports(e, {Succeeded}, settings)
    {
      RowSaysPhase(e, settings);
      SnapshotSaysNothingHealthy(e, settings);
      ResultsOfOne(e, settings);
    }
  }

  /** And a poll that collects a failed operation leaves a row that reports it. */
  lemma CollectedOperationReports(r: Run, i: nat, app: Application, now: int, phases: set<Phase>, settings: Settings)
    requires r.norm == Normalizing(settings) && i < |r.batch| && r.Collected(i)
    requires r.norm(r.batch[i]).value.id !in r.At(i).db
    requires OperationEvents(app, now) == [r.batch[i]] && InPhase(app, phases)
    ensures var db, id := r.At(|r.batch|).db, r.norm(r.batch[i]).value.id;
            id in db && Reports(db[id], phases, settings)
  {
    hide OperationEvents, Represents;
    CollectedStandsFor(r, i, settings);
  }
}
