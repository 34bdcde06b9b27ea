/** What the cursors guarantee along a run of source events (any number of polls, no restart): history
    cursors are running maxima, collected history is never collected again, a poll catches up exactly, and
    which failures are retried. */
module CatchUp {
  import opened Text
  import opened Keyset
  import opened CloudEvents
  import opened Store
  import opened Collector

  /** A stream of events handled from a starting state. */
  datatype Run = Run(start: State, batch: seq<SourceEvent>, norm: Normalizer, clock: nat -> int) {
    ghost function At(k: nat): State
      requires k <= |batch|
    {
      After(start, batch, norm, clock, k)
    }

    ghost function Cursor(app: string, k: nat): AppCheckpoint
      requires k <= |batch|
    {
      CursorOf(At(k).cursors, app)
    }

    ghost predicate Attempted(i: nat)
      requires i < |batch|
    {
      ShouldProcess(At(i).cursors, batch[i])
    }

    ghost predicate Collected(i: nat)
      requires i < |batch|
    {
      Collects(At(i), batch[i], norm)
    }
  }

  /** A history event of the application that carries a history ID. */
  predicate IsHistory(se: SourceEvent, app: string) {
    KindOf(se).History? && se.historyID > 0 && AppKey(se) == app
  }

  /** The next state of a run, and the write that led to it if there was one. */
  lemma StepState(r: Run, k: nat)
    requires k < |r.batch|
    ensures r.At(k + 1) == Handle(r.At(k), r.batch[k], r.norm, r.clock(k))
    ensures r.Attempted(k) && r.norm(r.batch[k]).Some? ==>
              r.At(k + 1).db == IngestInto(r.At(k).db, r.norm(r.batch[k]).value, r.clock(k)).db
    ensures !(r.Attempted(k) && r.norm(r.batch[k]).Some?) ==> r.At(k + 1) == r.At(k)
  {
    hide ShouldProcess, IngestInto, Advance;
  }

  lemma StepCursor(r: Run, app: string, k: nat)
    requires k < |r.batch|
    ensures r.Cursor(app, k + 1) ==
      if r.Collected(k) && AppKey(r.batch[k]) == app then MoveCursor(r.Cursor(app, k), r.batch[k]) else r.Cursor(app, k)
  {
    HandleCases(r.At(k), r.batch[k], r.norm, r.clock(k));
  }

  /** The history ID moves only for collected history, and then to the ID collected. */
  lemma StepHistory(r: Run, app: string, k: nat)
    requires k < |r.batch|
    ensures var c, c', se := r.Cursor(app, k), r.Cursor(app, k + 1), r.batch[k];
            if IsHistory(se, app) && r.Collected(k) then
              c.lastHistoryID <= c'.lastHistoryID == se.historyID &&
                c'.lastHistoryAt == Max(c.lastHistoryAt, se.occurred)
            else
              c'.lastHistoryID == c.lastHistoryID && c'.lastHistoryAt == c.lastHistoryAt
  {
    StepCursor(r, app, k);
    if r.Collected(k) { CollectedIsAdmitted(r, k); }
    hide Handle, Collects, AppKey, After, KindOf;
  }

  lemma CollectedIsAdmitted(r: Run, i: nat)
    requires i < |r.batch| && r.Collected(i)
    ensures Trim(r.batch[i].id) != "" && CursorAdmits(r.Cursor(AppKey(r.batch[i]), i), r.batch[i])
  {
    hide CursorAdmits, After, IngestInto, AppKey, Trim;
  }

  /** Per application, between any two points of a run the history cursor becomes the maximum of what it
      was and of the history collected in between: it never decreases, bounds all of it, and is attained. */
  lemma {:induction false} RunningMaximum(r: Run, app: string, j: nat, k: nat)
    requires j <= k <= |r.batch|
    ensures r.Cursor(app, j).lastHistoryID <= r.Cursor(app, k).lastHistoryID
    ensures r.Cursor(app, j).lastHistoryAt <= r.Cursor(app, k).lastHistoryAt
    ensures forall i :: j <= i < k && IsHistory(r.batch[i], app) && r.Collected(i) ==>
              r.batch[i].historyID <= r.Cursor(app, k).lastHistoryID &&
                r.batch[i].occurred <= r.Cursor(app, k).lastHistoryAt
    ensures r.Cursor(app, k).lastHistoryID == r.Cursor(app, j).lastHistoryID ||
            exists i :: j <= i < k && IsHistory(r.batch[i], app) && r.Collected(i) &&
              r.batch[i].historyID == r.Cursor(app, k).lastHistoryID
    ensures r.Cursor(app, k).lastHistoryAt == r.Cursor(app, j).lastHistoryAt ||
            exists i :: j <= i < k && IsHistory(r.batch[i], app) && r.Collected(i) &&
              r.batch[i].occurred == r.Cursor(app, k).lastHistoryAt
    decreases k
  {
    hide Handle, Collects, KindOf, MoveCursor, AppKey;
    if j < k {
      RunningMaximum(r, app, j, k - 1);
      StepHistory(r, app, k - 1);
    }
  }

  /** History collected once is turned away by every later state of the run. */
  lemma CollectedForGood(r: Run, i: nat, k: nat)
    requires i < k <= |r.batch| && r.Collected(i)
    requires IsHistory(r.batch[i], AppKey(r.batch[i]))
    ensures !ShouldProcess(r.At(k).cursors, r.batch[i])
  {
    RunningMaximum(r, AppKey(r.batch[i]), i, k);
  }

  // Exact catch-up.

  /** Each application's history events come with strictly increasing IDs. */
  ghost predicate HistoryIncreasing(batch: seq<SourceEvent>) {
    forall i, j, app {:trigger IsHistory(batch[i], app), IsHistory(batch[j], app)} ::
      0 <= i < j < |batch| && IsHistory(batch[i], app) && IsHistory(batch[j], app) ==>
        batch[i].historyID < batch[j].historyID
  }

  /** The history events a poll attempts are exactly those above the cursor it started from, whatever
      failed before them. */
  lemma AttemptedIffAbove(r: Run, i: nat)
    requires HistoryIncreasing(r.batch) && i < |r.batch|
    requires Trim(r.batch[i].id) != ""
    requires IsHistory(r.batch[i], AppKey(r.batch[i]))
    ensures r.Attempted(i) <==> Above(r.Cursor(AppKey(r.batch[i]), 0), r.batch[i])
  {
    var app := AppKey(r.batch[i]);
    RunningMaximum(r, app, 0, i);
    assert forall j :: 0 <= j < i && IsHistory(r.batch[j], app) ==> r.batch[j].historyID < r.batch[i].historyID;
    if r.Cursor(app, i).lastHistoryAt != r.Cursor(app, 0).lastHistoryAt &&
       r.Cursor(app, i).lastHistoryID == r.batch[i].historyID
    {
      OnlyOlderCollected(r, app, i);
    }
  }

  /** If the history ID has not moved, neither has its time: nothing below it was let through. */
  lemma {:induction false} OnlyOlderCollected(r: Run, app: string, k: nat)
    requires HistoryIncreasing(r.batch) && k <= |r.batch|
    requires r.Cursor(app, k).lastHistoryAt != r.Cursor(app, 0).lastHistoryAt
    ensures exists j :: 0 <= j < k && IsHistory(r.batch[j], app) &&
              r.Cursor(app, k).lastHistoryID == r.batch[j].historyID
    decreases k
  {
    hide Handle, Collects, KindOf, AppKey, After;
    assert k != 0;
    StepHistory(r, app, k - 1);
    RunningMaximum(r, app, 0, k - 1);
    if r.Cursor(app, k).lastHistoryAt == r.Cursor(app, k - 1).lastHistoryAt {
      OnlyOlderCollected(r, app, k - 1);
    }
  }

  /** At the end the store holds the event's content under its ID. */
  ghost predicate StoredBy(r: Run, i: nat)
    requires i < |r.batch| && r.norm(r.batch[i]).Some?
  {
    var e := r.norm(r.batch[i]).value;
    e.id in r.At(|r.batch|).db && r.At(|r.batch|).db[e.id].integrity == Seal(e).integrity
  }

  /** A poll without failures stores every history event above the starting cursor, and leaves the cursor
      at the maximum of its old value and the IDs seen. */
  lemma FailureFreeCatchUp(r: Run, app: string)
    requires HistoryIncreasing(r.batch)
    requires forall i :: 0 <= i < |r.batch| ==> Trim(r.batch[i].id) != "" && (r.Attempted(i) ==> r.Collected(i))
    ensures forall i :: 0 <= i < |r.batch| && IsHistory(r.batch[i], app) && Above(r.Cursor(app, 0), r.batch[i]) ==>
              r.norm(r.batch[i]).Some? && StoredBy(r, i)
    ensures var last := r.Cursor(app, |r.batch|).lastHistoryID;
            && last >= r.Cursor(app, 0).lastHistoryID
            && (forall i :: 0 <= i < |r.batch| && IsHistory(r.batch[i], app) ==> r.batch[i].historyID <= last)
            && (last == r.Cursor(app, 0).lastHistoryID ||
                exists i :: 0 <= i < |r.batch| && IsHistory(r.batch[i], app) && r.batch[i].historyID == last)
  {
    var n := |r.batch|;
    RunningMaximum(r, app, 0, n);
    forall i | 0 <= i < n && IsHistory(r.batch[i], app)
      ensures r.batch[i].historyID <= r.Cursor(app, n).lastHistoryID
      ensures Above(r.Cursor(app, 0), r.batch[i]) ==> r.Collected(i) && StoredBy(r, i)
    {
      AttemptedIffAbove(r, i);
      if r.Collected(i) { CollectedIsStored(r, i); }
    }
  }

  lemma CollectedIsStored(r: Run, i: nat)
    requires i < |r.batch| && r.Collected(i)
    ensures StoredBy(r, i)
  {
    hide Handle, After, IngestInto, Seal, ShouldProcess;
    var e := r.norm(r.batch[i]).value;
    OutcomeIgnoresClock(r.At(i).db, e, 0, r.clock(i));
    IngestStores(r.At(i).db, e, r.clock(i));
    StepState(r, i);
    AfterExtends(r.start, r.batch, r.norm, r.clock, i + 1, |r.batch|);
  }

  /** A history event that failed is let through again after the poll exactly when no later history event
      of its application was collected: a later success moves the cursor past the failure for good. */
  lemma FailureRetriedIff(r: Run, i: nat)
    requires HistoryIncreasing(r.batch) && i < |r.batch|
    requires IsHistory(r.batch[i], AppKey(r.batch[i]))
    requires r.Attempted(i) && !r.Collected(i)
    ensures ShouldProcess(r.At(|r.batch|).cursors, r.batch[i]) <==>
            !exists j :: i < j < |r.batch| && IsHistory(r.batch[j], AppKey(r.batch[i])) && r.Collected(j)
  {
    hide Handle, Collects, MoveCursor, KindOf, AppKey, After;
    var app, n := AppKey(r.batch[i]), |r.batch|;
    RunningMaximum(r, app, i, n);
    StepHistory(r, app, i);
    RunningMaximum(r, app, i + 1, n);
  }

  // The same, told from what is known before the poll.

  /** No two events of the batch are stored under one ID. */
  ghost predicate DistinctIDs(batch: seq<SourceEvent>, norm: Normalizer) {
    forall i, j :: 0 <= i < j < |batch| && norm(batch[i]).Some? && norm(batch[j]).Some? ==>
      norm(batch[i]).value.id != norm(batch[j]).value.id
  }

  /** Until its turn comes, nothing changes under an event's own ID. */
  lemma {:induction false} OwnRow(r: Run, i: nat, k: nat)
    requires k <= i < |r.batch| && DistinctIDs(r.batch, r.norm) && r.norm(r.batch[i]).Some?
    ensures var id := r.norm(r.batch[i]).value.id; Lookup(r.At(k).db, id) == Lookup(r.start.db, id)
    decreases k
  {
    hide After, Run.Attempted, IngestInto;
    if k > 0 {
      OwnRow(r, i, k - 1);
      StepState(r, k - 1);
      if r.norm(r.batch[k - 1]).Some? {
        OtherRow(r.At(k - 1).db, r.norm(r.batch[k - 1]).value, r.clock(k - 1), r.norm(r.batch[i]).value.id);
      }
    } else {
      RunStart(r);
    }
  }

  lemma RunStart(r: Run)
    ensures r.At(0) == r.start
  {
  }

  lemma OtherRow(db: Db, e: StoredEvent, now: int, id: string)
    requires id != e.id
    ensures Lookup(IngestInto(db, e, now).db, id) == Lookup(db, id)
  {
    hide ValidStored, IntegrityHash;
  }

  lemma SameRowSameAnswer(db: Db, db': Db, e: StoredEvent)
    requires Lookup(db, e.id) == Lookup(db', e.id)
    ensures IngestInto(db, e, 0).outcome == IngestInto(db', e, 0).outcome
  {
    hide ValidStored, IntegrityHash;
  }

  /** A poll collects exactly the history above the cursor it starts from that the store, as it is before the
      poll, takes. */
  lemma CollectedIff(r: Run, i: nat)
    requires HistoryIncreasing(r.batch) && DistinctIDs(r.batch, r.norm) && i < |r.batch|
    requires Trim(r.batch[i].id) != "" && IsHistory(r.batch[i], AppKey(r.batch[i]))
    ensures r.Collected(i) <==>
              Above(r.Cursor(AppKey(r.batch[i]), 0), r.batch[i]) && Takes(r.start.db, r.batch[i], r.norm)
  {
    hide After, ShouldProcess, AppKey, KindOf, IngestInto, HistoryIncreasing;
    AttemptedIffAbove(r, i);
    if r.norm(r.batch[i]).Some? {
      OwnRow(r, i, i);
      SameRowSameAnswer(r.At(i).db, r.start.db, r.norm(r.batch[i]).value);
    }
  }

  lemma LaterIsCollectedIff(r: Run, i: nat, j: nat)
    requires HistoryIncreasing(r.batch) && DistinctIDs(r.batch, r.norm) && i <= j < |r.batch|
    requires Trim(r.batch[j].id) != "" && Above(r.Cursor(AppKey(r.batch[i]), 0), r.batch[i])
    requires IsHistory(r.batch[i], AppKey(r.batch[i])) && IsHistory(r.batch[j], AppKey(r.batch[i]))
    ensures r.Collected(j) <==> Takes(r.start.db, r.batch[j], r.norm)
  {
    hide After, ShouldProcess, Takes, Run.Collected, DistinctIDs, AppKey, KindOf;
    assert j > i ==> r.batch[j].historyID > r.batch[i].historyID;
    CollectedIff(r, j);
  }

  /** A history event above the cursor is tried again after the poll exactly when the store takes neither it nor
      any later history event of its application. */
  lemma TriedAgainIff(r: Run, i: nat)
    requires HistoryIncreasing(r.batch) && DistinctIDs(r.batch, r.norm) && i < |r.batch|
    requires forall j :: 0 <= j < |r.batch| ==> Trim(r.batch[j].id) != ""
    requires IsHistory(r.batch[i], AppKey(r.batch[i])) && Above(r.Cursor(AppKey(r.batch[i]), 0), r.batch[i])
    ensures ShouldProcess(r.At(|r.batch|).cursors, r.batch[i]) <==>
              forall j :: i <= j < |r.batch| && IsHistory(r.batch[j], AppKey(r.batch[i])) ==>
                !Takes(r.start.db, r.batch[j], r.norm)
  {
    var app := AppKey(r.batch[i]);
    forall j | i <= j < |r.batch| && IsHistory(r.batch[j], app)
      ensures r.Collected(j) <==> Takes(r.start.db, r.batch[j], r.norm)
    {
      LaterIsCollectedIff(r, i, j);
    }
    hide After, ShouldProcess, KindOf, AppKey, Takes, HistoryIncreasing, DistinctIDs;
    AttemptedIffAbove(r, i);
    if r.Collected(i) {
      CollectedForGood(r, i, |r.batch|);
    } else {
      FailureRetriedIff(r, i);
    }
  }

  /** Collected history puts every smaller ID of its application behind the cursor. */
  lemma HistoryBehind(r: Run, app: string, j: nat)
    requires j < |r.batch| && r.Collected(j) && IsHistory(r.batch[j], app)
    ensures forall se :: IsHistory(se, app) && se.historyID < r.batch[j].historyID ==>
              !ShouldProcess(r.At(|r.batch|).cursors, se)
  {
    hide Handle, Collects, MoveCursor, After;
    RunningMaximum(r, app, j, |r.batch|);
  }

  lemma AdvanceKeeps(cursors: Cursors, se: SourceEvent)
    ensures cursors.Keys <= Advance(cursors, se).Keys
  {
    hide MoveCursor, AppKey;
  }

  /** An application that has a cursor keeps one. */
  lemma {:induction false} KeysStay(r: Run, app: string, j: nat, k: nat)
    requires j <= k <= |r.batch| && app in r.At(j).cursors
    ensures app in r.At(k).cursors
    decreases k
  {
    hide Handle, Collects, Advance;
    if j < k {
      KeysStay(r, app, j, k - 1);
      AdvanceKeeps(r.At(k - 1).cursors, r.batch[k - 1]);
      HandleCases(r.At(k - 1), r.batch[k - 1], r.norm, r.clock(k - 1));
    }
  }
}
