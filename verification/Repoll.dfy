/** Polling a batch again that has not changed, with any normaliser, any failures and any starting cursors:
    the cursors end where they ended, what a second poll can still store, and why a third stores nothing. */
module Repoll {
  import opened Text
  import opened Keyset
  import opened CloudEvents
  import opened Store
  import opened Collector
  import opened CatchUp

  // Slots: the cursor fields that remember one key.

  datatype Slot = StartSlot | TerminalSlot | HealthSlot {
    function Of(c: AppCheckpoint): string {
      match this
      case StartSlot => c.lastStartKey
      case TerminalSlot => c.lastTerminalKey
      case HealthSlot => c.lastHealth
    }

    /** Keys are compared trimmed, health also without regard to case. */
    function Fold(s: string): string {
      if HealthSlot? then Lower(Trim(s)) else Trim(s)
    }
  }

  /** The slot an event is checked against; positive history IDs have fields of their own. */
  function SlotOf(se: SourceEvent): Option<Slot> {
    match KindOf(se)
    case Started => Some(StartSlot)
    case Health => Some(HealthSlot)
    case History => if se.historyID > 0 then None else Some(TerminalSlot)
    case Untyped => None
    case Other => None
  }

  /** What a collected event leaves in its slot. */
  function Mark(se: SourceEvent): string {
    if KindOf(se).Health? then Trim(se.healthStatus) else Trim(se.operationKey)
  }

  predicate InSlot(se: SourceEvent, app: string, slot: Slot) {
    AppKey(se) == app && SlotOf(se) == Some(slot)
  }

  predicate SameSlot(a: SourceEvent, b: SourceEvent) {
    SlotOf(a).Some? && InSlot(b, AppKey(a), SlotOf(a).value)
  }

  /** Two events of one slot that the slot cannot tell apart. */
  predicate SameMark(a: SourceEvent, b: SourceEvent)
    requires SlotOf(a).Some?
  {
    SlotOf(a).value.Fold(Mark(a)) == SlotOf(a).value.Fold(Mark(b))
  }

  lemma SlotRules(c: AppCheckpoint, se: SourceEvent, slot: Slot)
    ensures SlotOf(se) == Some(slot) ==>
              (CursorAdmits(c, se) <==> Mark(se) != "" && slot.Fold(Mark(se)) != slot.Fold(slot.Of(c)))
    ensures slot.Of(MoveCursor(c, se)) == if SlotOf(se) == Some(slot) && Mark(se) != "" then Mark(se) else slot.Of(c)
  {
    TrimTwice(se.operationKey);
    TrimTwice(se.healthStatus);
    hide KindOf, Trim, Lower;
  }

  /** A slot changes only when one of its events is collected, and then holds that event's mark. */
  lemma SlotStep(r: Run, app: string, slot: Slot, k: nat)
    requires k < |r.batch|
    ensures slot.Of(r.Cursor(app, k + 1)) ==
              if r.Collected(k) && InSlot(r.batch[k], app, slot) then Mark(r.batch[k]) else slot.Of(r.Cursor(app, k))
    ensures InSlot(r.batch[k], app, slot) ==>
              (r.Attempted(k) <==>
                 && Trim(r.batch[k].id) != "" && Mark(r.batch[k]) != ""
                 && slot.Fold(Mark(r.batch[k])) != slot.Fold(slot.Of(r.Cursor(app, k))))
  {
    StepCursor(r, app, k);
    SlotRules(r.Cursor(app, k), r.batch[k], slot);
    if r.Collected(k) { CollectedIsAdmitted(r, k); }
    hide Handle, KindOf, AppKey, After, Trim, MoveCursor, IngestInto, CursorAdmits;
  }

  /** Between two points of a run a slot keeps its value or takes that of an event collected in between. */
  lemma {:induction false} SlotSince(r: Run, app: string, slot: Slot, j: nat, k: nat)
    requires j <= k <= |r.batch|
    ensures slot.Of(r.Cursor(app, k)) == slot.Of(r.Cursor(app, j)) ||
            exists m :: j <= m < k && InSlot(r.batch[m], app, slot) && r.Collected(m) &&
                        Mark(r.batch[m]) == slot.Of(r.Cursor(app, k))
    decreases k
  {
    hide Collects, InSlot, After;
    if j < k {
      SlotSince(r, app, slot, j, k - 1);
      SlotStep(r, app, slot, k - 1);
    }
  }

  /** Exactly when a collected event is let through again after the poll: when the last event collected in
      its slot, here j, left a different mark. */
  lemma LetThroughAgainIff(r: Run, i: nat, j: nat)
    requires i <= j < |r.batch| && r.Collected(i) && r.Collected(j) && SameSlot(r.batch[i], r.batch[j])
    requires forall k :: j < k < |r.batch| && SameSlot(r.batch[i], r.batch[k]) ==> !r.Collected(k)
    ensures ShouldProcess(r.At(|r.batch|).cursors, r.batch[i]) <==> !SameMark(r.batch[i], r.batch[j])
  {
    var se, n := r.batch[i], |r.batch|;
    var slot := SlotOf(se).value;
    SlotStep(r, AppKey(se), slot, i);
    SlotStep(r, AppKey(se), slot, j);
    SlotSince(r, AppKey(se), slot, j + 1, n);
    SlotRules(r.Cursor(AppKey(se), n), se, slot);
    hide Collects, AppKey, SlotOf, After, Trim, CursorAdmits, Mark;
  }

  // The second poll.

  ghost function Again(r: Run, clock: nat -> int): Run {
    Run(r.At(|r.batch|), r.batch, r.norm, clock)
  }

  lemma AgainStart(r: Run, clock: nat -> int)
    ensures Again(r, clock).At(0) == r.At(|r.batch|)
  {
  }

  /** What the first poll attempted writes nothing now and meets the same fate. */
  lemma AnsweredAgain(r: Run, clock: nat -> int, i: nat)
    requires i < |r.batch| && r.Attempted(i)
    ensures var s := Again(r, clock);
            && s.At(i + 1).db == s.At(i).db
            && (s.Attempted(i) ==> (s.Collected(i) <==> r.Collected(i)))
  {
    hide ShouldProcess, IngestInto, After, Advance, Handle;
    var s, n := Again(r, clock), |r.batch|;
    AgainStart(r, clock);
    StepState(r, i);
    StepState(s, i);
    if r.norm(r.batch[i]).Some? {
      var e := r.norm(r.batch[i]).value;
      AfterExtends(r.start, r.batch, r.norm, r.clock, i + 1, n);
      AfterExtends(s.start, r.batch, r.norm, clock, 0, i);
      ExtendsTransitive(r.At(i + 1).db, s.At(0).db, s.At(i).db);
      IngestAgain(r.At(i).db, e, r.clock(i), s.At(i).db, clock(i));
      OutcomeIgnoresClock(r.At(i).db, e, 0, r.clock(i));
      OutcomeIgnoresClock(s.At(i).db, e, 0, clock(i));
    }
  }

  /** Its history cursors never move. */
  lemma {:induction false} HistoryStays(r: Run, clock: nat -> int, app: string, k: nat)
    requires k <= |r.batch|
    ensures SameHistory(r.Cursor(app, |r.batch|), Again(r, clock).Cursor(app, k))
    decreases k
  {
    hide After, Collects, IsHistory;
    AgainStart(r, clock);
    if k > 0 {
      HistoryStays(r, clock, app, k - 1);
      StepHistory(Again(r, clock), app, k - 1);
      if IsHistory(r.batch[k - 1], app) { HistoryNotAgain(r, clock, app, k - 1); }
    }
  }

  predicate SameHistory(c: AppCheckpoint, d: AppCheckpoint) {
    d.lastHistoryID == c.lastHistoryID && d.lastHistoryAt == c.lastHistoryAt
  }

  /** With the history cursors of the first poll's end, its history is not collected again: the first poll
      attempted it, and collected it then or failed as it would now. */
  lemma HistoryNotAgain(r: Run, clock: nat -> int, app: string, i: nat)
    requires i < |r.batch| && IsHistory(r.batch[i], app)
    requires SameHistory(r.Cursor(app, |r.batch|), Again(r, clock).Cursor(app, i))
    ensures !Again(r, clock).Collected(i)
  {
    hide After, Collects, AppKey, KindOf;
    var s := Again(r, clock);
    if s.Collected(i) {
      CollectedIsAttempted(s, i);
      HistoryAttempted(r, clock, i);
      AnsweredAgain(r, clock, i);
      CollectedForGood(r, i, |r.batch|);
      assert false;
    }
  }

  /** History that the second poll would attempt, the first one attempted. */
  lemma HistoryAttempted(r: Run, clock: nat -> int, i: nat)
    requires i < |r.batch| && IsHistory(r.batch[i], AppKey(r.batch[i])) && Again(r, clock).Attempted(i)
    requires SameHistory(r.Cursor(AppKey(r.batch[i]), |r.batch|), Again(r, clock).Cursor(AppKey(r.batch[i]), i))
    ensures r.Attempted(i)
  {
    hide After, Collects, KindOf, AppKey;
    RunningMaximum(r, AppKey(r.batch[i]), i, |r.batch|);
  }

  /** How the second poll's slot (now) relates to the first's at the same event (before), for a slot that
      went from `start` to `end`: neither has moved; or the two are compared alike, being equal, or the second
      still being at the end, or the first still being at a start unlike the end. */
  predicate Tracks(slot: Slot, start: string, end: string, before: string, now: string) {
    || (before == start && now == end)
    || (&& slot.Fold(now) == slot.Fold(before)
        && (now == before || now == end || (before == start && slot.Fold(start) != slot.Fold(end))))
  }

  lemma {:induction false} SlotTracks(r: Run, clock: nat -> int, app: string, slot: Slot, k: nat)
    requires k <= |r.batch|
    ensures Tracks(slot, slot.Of(r.Cursor(app, 0)), slot.Of(r.Cursor(app, |r.batch|)), slot.Of(r.Cursor(app, k)),
                   slot.Of(Again(r, clock).Cursor(app, k)))
    decreases k
  {
    hide After, Collects, InSlot, Slot.Of, Slot.Fold, Mark, ShouldProcess, Tracks, Run.Cursor;
    if k == 0 {
      TracksStart(r, clock, app, slot);
    } else {
      SlotTracks(r, clock, app, slot, k - 1);
      TracksStep(r, clock, app, slot, k - 1);
    }
  }

  lemma TracksStart(r: Run, clock: nat -> int, app: string, slot: Slot)
    ensures Tracks(slot, slot.Of(r.Cursor(app, 0)), slot.Of(r.Cursor(app, |r.batch|)), slot.Of(r.Cursor(app, 0)),
                   slot.Of(Again(r, clock).Cursor(app, 0)))
  {
    hide After;
    AgainStart(r, clock);
  }

  lemma TracksStep(r: Run, clock: nat -> int, app: string, slot: Slot, i: nat)
    requires i < |r.batch|
    requires Tracks(slot, slot.Of(r.Cursor(app, 0)), slot.Of(r.Cursor(app, |r.batch|)), slot.Of(r.Cursor(app, i)),
                    slot.Of(Again(r, clock).Cursor(app, i)))
    ensures Tracks(slot, slot.Of(r.Cursor(app, 0)), slot.Of(r.Cursor(app, |r.batch|)), slot.Of(r.Cursor(app, i + 1)),
                   slot.Of(Again(r, clock).Cursor(app, i + 1)))
  {
    hide Run.Cursor, Run.Attempted, Run.Collected, InSlot, Slot.Of, Slot.Fold, Mark, After;
    var s := Again(r, clock);
    SlotStep(r, app, slot, i);
    SlotStep(s, app, slot, i);
    if r.Attempted(i) { AnsweredAgain(r, clock, i); }
    CollectedIsAttempted(r, i);
    CollectedIsAttempted(s, i);
  }

  lemma CollectedIsAttempted(r: Run, k: nat)
    requires k < |r.batch|
    ensures r.Collected(k) ==> r.Attempted(k)
  {
    hide ShouldProcess, IngestInto, After;
  }

  /** An application left without a cursor gets none. */
  lemma {:induction false} AbsentStays(r: Run, clock: nat -> int, app: string, k: nat)
    requires k <= |r.batch| && app !in r.At(|r.batch|).cursors
    ensures app !in Again(r, clock).At(k).cursors
    decreases k
  {
    var s := Again(r, clock);
    AgainStart(r, clock);
    hide After, Collects, AppKey, Handle;
    if k > 0 {
      AbsentStays(r, clock, app, k - 1);
      HandleCases(s.At(k - 1), r.batch[k - 1], r.norm, clock(k - 1));
      StepState(s, k - 1);
      if AppKey(r.batch[k - 1]) == app { AbsentNotCollected(r, clock, k - 1); }
    }
  }

  /** Both polls see the event with no cursor; had it been collected now, it would have left one then. */
  lemma AbsentNotCollected(r: Run, clock: nat -> int, i: nat)
    requires i < |r.batch| && AppKey(r.batch[i]) !in r.At(|r.batch|).cursors
    requires AppKey(r.batch[i]) !in Again(r, clock).At(i).cursors
    ensures !Again(r, clock).Collected(i)
  {
    hide After, Collects, AppKey, CursorAdmits, Handle;
    var s, n := Again(r, clock), |r.batch|;
    if s.Collected(i) {
      CollectedIsAttempted(s, i);
      if AppKey(r.batch[i]) in r.At(i).cursors { KeysStay(r, AppKey(r.batch[i]), i, n); }
      AnsweredAgain(r, clock, i);
      HandleCases(r.At(i), r.batch[i], r.norm, r.clock(i));
      StepState(r, i);
      KeysStay(r, AppKey(r.batch[i]), i + 1, n);
      assert false;
    }
  }

  /** For every batch, whatever its events share, fails or is refused: a second poll of it ends with every
      application's cursor where the first one left it. */
  lemma RepollKeepsCursors(r: Run, clock: nat -> int)
    ensures Again(r, clock).At(|r.batch|).cursors == r.At(|r.batch|).cursors
  {
    var s, n := Again(r, clock), |r.batch|;
    AgainStart(r, clock);
    hide After;
    forall app
      ensures app in s.At(n).cursors <==> app in r.At(n).cursors
      ensures s.Cursor(app, n) == r.Cursor(app, n)
    {
      if app in r.At(n).cursors { KeysStay(s, app, 0, n); } else { AbsentStays(r, clock, app, n); }
      HistoryStays(r, clock, app, n);
      SlotTracks(r, clock, app, StartSlot, n);
      SlotTracks(r, clock, app, TerminalSlot, n);
      SlotTracks(r, clock, app, HealthSlot, n);
    }
    assert forall app :: app in r.At(n).cursors ==> s.Cursor(app, n) == r.Cursor(app, n);
  }

  // What the second poll stores.

  /** The starting cursors already carried the event's key. */
  predicate AlreadyMarked(cursors: Cursors, se: SourceEvent) {
    && Trim(se.id) != "" && SlotOf(se).Some? && Mark(se) != ""
    && SlotOf(se).value.Fold(Mark(se)) == SlotOf(se).value.Fold(SlotOf(se).value.Of(CursorOf(cursors, AppKey(se))))
  }

  /** A later event of the batch uses the event's slot for another key. */
  ghost predicate Displaced(batch: seq<SourceEvent>, i: nat)
    requires i < |batch|
  {
    exists j :: i < j < |batch| && SameSlot(batch[i], batch[j]) && !SameMark(batch[i], batch[j])
  }

  /** An event only the second poll attempts: its key was in the slot from the start and has been displaced. */
  lemma OnlySecondAttempts(r: Run, clock: nat -> int, i: nat)
    requires i < |r.batch| && !r.Attempted(i) && Again(r, clock).Attempted(i)
    ensures AlreadyMarked(r.start.cursors, r.batch[i]) && Displaced(r.batch, i)
  {
    AttemptedHasSlot(r, clock, i);
    var app, slot := AppKey(r.batch[i]), SlotOf(r.batch[i]).value;
    hide Again, After, AlreadyMarked, AppKey, SlotOf, Slot.Of, Slot.Fold, Mark, Run.Attempted, Displaced;
    SkippedHeldMark(r, clock, app, slot, i);
    DisplacedSince(r, app, slot, i);
  }

  /** A slot that held the event's mark and ends with another one was given to a later event. */
  lemma DisplacedSince(r: Run, app: string, slot: Slot, i: nat)
    requires i < |r.batch| && InSlot(r.batch[i], app, slot)
    requires slot.Fold(Mark(r.batch[i])) == slot.Fold(slot.Of(r.Cursor(app, i)))
    requires slot.Fold(Mark(r.batch[i])) != slot.Fold(slot.Of(r.Cursor(app, |r.batch|)))
    ensures Displaced(r.batch, i)
  {
    hide After, Run.Collected, Run.Cursor, AppKey, SlotOf, Slot.Of, Slot.Fold, Mark;
    var n := |r.batch|;
    SlotSince(r, app, slot, i, n);
    var j :| i <= j < n && InSlot(r.batch[j], app, slot) && r.Collected(j) &&
      Mark(r.batch[j]) == slot.Of(r.Cursor(app, n));
    assert SameSlot(r.batch[i], r.batch[j]) && !SameMark(r.batch[i], r.batch[j]);
  }

  /** At such an event the first poll's slot still held the event's mark, and ended with another one. */
  lemma SkippedHeldMark(r: Run, clock: nat -> int, app: string, slot: Slot, i: nat)
    requires i < |r.batch| && InSlot(r.batch[i], app, slot)
    requires !r.Attempted(i) && Again(r, clock).Attempted(i)
    ensures AlreadyMarked(r.start.cursors, r.batch[i])
    ensures slot.Fold(Mark(r.batch[i])) == slot.Fold(slot.Of(r.Cursor(app, i)))
    ensures slot.Fold(Mark(r.batch[i])) != slot.Fold(slot.Of(r.Cursor(app, |r.batch|)))
  {
    assert r.At(0) == r.start;
    hide After, Run.Attempted, Run.Collected, AppKey, SlotOf, Slot.Of, Slot.Fold, Mark;
    SlotStep(r, app, slot, i);
    SlotStep(Again(r, clock), app, slot, i);
    SlotTracks(r, clock, app, slot, i);
  }

  lemma AttemptedHasSlot(r: Run, clock: nat -> int, i: nat)
    requires i < |r.batch| && !r.Attempted(i) && Again(r, clock).Attempted(i)
    ensures SlotOf(r.batch[i]).Some?
  {
    hide After, Collects, AppKey, Trim;
    var se := r.batch[i];
    if IsHistory(se, AppKey(se)) {
      HistoryStays(r, clock, AppKey(se), i);
      HistoryAttempted(r, clock, i);
    }
  }

  /** The event would be news to the store the first poll left. */
  ghost predicate Unknown(r: Run, i: nat)
    requires i < |r.batch|
  {
    r.norm(r.batch[i]).Some? && IngestInto(r.At(|r.batch|).db, r.norm(r.batch[i]).value, 0).outcome.Accepted?
  }

  /** Every row the second poll adds comes from an event that the first one skipped. */
  lemma {:induction false} NewRowsWereSkipped(r: Run, clock: nat -> int, k: nat, id: string) returns (i: nat)
    requires k <= |r.batch|
    requires id in Again(r, clock).At(k).db && id !in r.At(|r.batch|).db
    ensures i < k && !r.Attempted(i) && Again(r, clock).Attempted(i) && Unknown(r, i)
    ensures var e := r.norm(r.batch[i]).value;
            e.id == id && Again(r, clock).At(k).db[id].(ingestedAt := e.ingestedAt) == Seal(e)
    decreases k
  {
    var s, n := Again(r, clock), |r.batch|;
    AgainStart(r, clock);
    i := k - 1;
    StepState(s, i);
    if id in s.At(i).db {
      assert Extends(s.At(i).db, s.At(k).db) by { AfterExtends(s.start, s.batch, s.norm, clock, i, k); }
      i := NewRowsWereSkipped(r, clock, i, id);
    } else {
      if r.Attempted(i) { AnsweredAgain(r, clock, i); }
      hide ShouldProcess, After, IntegrityHash, ValidStored, Advance;
    }
  }

  /** A second poll changes the store when it attempts an event that the first one skipped and that the store
      does not know. */
  lemma RepollWritesIff(r: Run, clock: nat -> int)
    ensures Again(r, clock).At(|r.batch|).db != r.At(|r.batch|).db <==>
              exists i :: 0 <= i < |r.batch| && !r.Attempted(i) && Again(r, clock).Attempted(i) && Unknown(r, i)
  {
    var s, n := Again(r, clock), |r.batch|;
    AgainStart(r, clock);
    AfterExtends(s.start, s.batch, s.norm, clock, 0, n);
    hide ShouldProcess, After, Run.Attempted;
    if s.At(n).db != r.At(n).db {
      if id :| id in s.At(n).db && id !in r.At(n).db {
        var i := NewRowsWereSkipped(r, clock, n, id);
      }
    }
    if i :| 0 <= i < n && !r.Attempted(i) && s.Attempted(i) && Unknown(r, i) {
      AttemptedIsPresent(s, i);
    }
  }

  // The same, told from the first poll alone.

  /** The event could have been collected, had its slot held another key and the store been what it is now. */
  ghost predicate Welcome(r: Run, i: nat)
    requires i < |r.batch|
  {
    Trim(r.batch[i].id) != "" && Mark(r.batch[i]) != "" && Takes(r.At(|r.batch|).db, r.batch[i], r.norm)
  }

  /** The first poll skipped the event although its store does not know it; its slot ended with another mark;
      and before it nothing of the slot was collected, or skipped and would be welcome now. */
  ghost predicate Resurfaces(r: Run, i: nat)
    requires i < |r.batch|
  {
    && SlotOf(r.batch[i]).Some? && !r.Attempted(i) && Welcome(r, i) && Unknown(r, i)
    && var slot := SlotOf(r.batch[i]).value;
       && slot.Fold(Mark(r.batch[i])) != slot.Fold(slot.Of(r.Cursor(AppKey(r.batch[i]), |r.batch|)))
       && forall k :: 0 <= k < i && InSlot(r.batch[k], AppKey(r.batch[i]), slot) ==>
            !r.Collected(k) && (r.Attempted(k) || !Welcome(r, k))
  }

  /** Once the two polls' slots compare alike, they do so for the rest of the batch. */
  lemma {:induction false} AlikeStays(r: Run, clock: nat -> int, app: string, slot: Slot, j: nat, k: nat)
    requires j <= k <= |r.batch|
    requires slot.Fold(slot.Of(Again(r, clock).Cursor(app, j))) == slot.Fold(slot.Of(r.Cursor(app, j)))
    ensures slot.Fold(slot.Of(Again(r, clock).Cursor(app, k))) == slot.Fold(slot.Of(r.Cursor(app, k)))
    decreases k
  {
    hide After, Collects, InSlot, Slot.Of, Slot.Fold, Mark, ShouldProcess, Run.Cursor;
    if j < k {
      AlikeStays(r, clock, app, slot, j, k - 1);
      SlotStep(r, app, slot, k - 1);
      SlotStep(Again(r, clock), app, slot, k - 1);
      if r.Attempted(k - 1) { AnsweredAgain(r, clock, k - 1); }
      CollectedIsAttempted(r, k - 1);
      CollectedIsAttempted(Again(r, clock), k - 1);
    }
  }

  /** They do from the first event of the slot that either poll collects. */
  lemma CollectingAligns(r: Run, clock: nat -> int, app: string, slot: Slot, i: nat)
    requires i < |r.batch| && InSlot(r.batch[i], app, slot) && (r.Collected(i) || Again(r, clock).Collected(i))
    ensures slot.Fold(slot.Of(Again(r, clock).Cursor(app, i + 1))) == slot.Fold(slot.Of(r.Cursor(app, i + 1)))
  {
    hide After, Collects, InSlot, Slot.Of, Slot.Fold, Mark, ShouldProcess, Run.Cursor;
    SlotStep(r, app, slot, i);
    SlotStep(Again(r, clock), app, slot, i);
    if r.Attempted(i) { AnsweredAgain(r, clock, i); }
    CollectedIsAttempted(r, i);
    CollectedIsAttempted(Again(r, clock), i);
  }

  /** What the final store refuses, the second poll does not collect either. */
  lemma UnwelcomeIsRefused(r: Run, clock: nat -> int, k: nat)
    requires k < |r.batch| && SlotOf(r.batch[k]).Some? && !Welcome(r, k)
    ensures !Again(r, clock).Collected(k)
  {
    var s, n, se := Again(r, clock), |r.batch|, r.batch[k];
    AgainStart(r, clock);
    SlotRules(s.Cursor(AppKey(se), k), se, SlotOf(se).value);
    hide After, Mark, AppKey, IngestInto, SlotOf, CursorAdmits, Slot.Of, Slot.Fold;
    if s.Collected(k) {
      CollectedIsAdmitted(s, k);
      var e := r.norm(se).value;
      AfterExtends(s.start, s.batch, s.norm, clock, 0, k);
      if !IngestInto(r.At(n).db, e, 0).outcome.Ok() {
        RefusedStays(r.At(n).db, e, s.At(k).db);
        assert false;
      }
    }
  }

  lemma RefusedStays(db: Db, e: StoredEvent, later: Db)
    requires !IngestInto(db, e, 0).outcome.Ok() && Extends(db, later)
    ensures !IngestInto(later, e, 0).outcome.Ok()
  {
    hide ValidStored, IntegrityHash;
  }

  /** The first event to resurface does: until then the second poll's slot stays where the first one left it. */
  lemma ResurfacingIsAttempted(r: Run, clock: nat -> int, i: nat)
    requires i < |r.batch| && Resurfaces(r, i)
    ensures Again(r, clock).Attempted(i)
  {
    var s, se := Again(r, clock), r.batch[i];
    var app, slot := AppKey(se), SlotOf(se).value;
    forall k | 0 <= k < i && InSlot(r.batch[k], app, slot) ensures !s.Collected(k) {
      hide After, Collects, AppKey, SlotOf, Slot.Of, Slot.Fold, Mark, ShouldProcess, Welcome;
      if r.Attempted(k) {
        AnsweredAgain(r, clock, k);
        CollectedIsAttempted(s, k);
      } else {
        UnwelcomeIsRefused(r, clock, k);
      }
    }
    AgainStart(r, clock);
    assert s.Cursor(app, 0) == r.Cursor(app, |r.batch|);
    hide After, Collects, AppKey, SlotOf, Slot.Of, Slot.Fold, Mark, ShouldProcess, Run.Cursor;
    SlotSince(s, app, slot, 0, i);
    SlotStep(s, app, slot, i);
  }

  /** The first event the second poll adds to the store resurfaces. */
  lemma FirstWriteResurfaces(r: Run, clock: nat -> int, i: nat)
    requires i < |r.batch| && !r.Attempted(i) && Again(r, clock).Attempted(i) && Unknown(r, i)
    requires Again(r, clock).At(i).db == r.At(|r.batch|).db
    ensures Resurfaces(r, i)
  {
    var s, se := Again(r, clock), r.batch[i];
    AttemptedHasSlot(r, clock, i);
    var app, slot := AppKey(se), SlotOf(se).value;
    hide After, Run.Collected, AppKey, SlotOf, Slot.Of, Slot.Fold, Mark, Run.Attempted, Run.Cursor, Unknown;
    SkippedHeldMark(r, clock, app, slot, i);
    SlotStep(s, app, slot, i);
    UnknownIsWelcome(r, i);
    hide Welcome;
    forall k | 0 <= k < i && InSlot(r.batch[k], app, slot)
      ensures !r.Collected(k) && (r.Attempted(k) || !Welcome(r, k))
    {
      NothingBefore(r, clock, app, slot, k, i);
    }
  }

  lemma NothingBefore(r: Run, clock: nat -> int, app: string, slot: Slot, k: nat, i: nat)
    requires k < i < |r.batch| && InSlot(r.batch[k], app, slot)
    requires Again(r, clock).At(i).db == r.At(|r.batch|).db
    requires slot.Fold(slot.Of(Again(r, clock).Cursor(app, i))) != slot.Fold(slot.Of(r.Cursor(app, i)))
    ensures !r.Collected(k) && (r.Attempted(k) || !Welcome(r, k))
  {
    hide After, Run.Collected, InSlot, Slot.Of, Slot.Fold, Run.Attempted, Run.Cursor, Welcome;
    if !r.Attempted(k) && Welcome(r, k) { WelcomeIsCollected(r, clock, app, slot, k, i); }
    if r.Collected(k) || Again(r, clock).Collected(k) {
      CollectingAligns(r, clock, app, slot, k);
      AlikeStays(r, clock, app, slot, k + 1, i);
      assert false;
    }
  }

  lemma UnknownIsWelcome(r: Run, i: nat)
    requires i < |r.batch| && Unknown(r, i)
    requires Trim(r.batch[i].id) != "" && Mark(r.batch[i]) != ""
    ensures Welcome(r, i)
  {
    hide IngestInto, Mark, Trim, After;
  }

  /** A skipped event that is welcome is collected by the second poll, unless the slots compare alike. */
  lemma WelcomeIsCollected(r: Run, clock: nat -> int, app: string, slot: Slot, k: nat, i: nat)
    requires k < i < |r.batch| && InSlot(r.batch[k], app, slot) && !r.Attempted(k) && Welcome(r, k)
    requires Again(r, clock).At(i).db == r.At(|r.batch|).db
    requires slot.Fold(slot.Of(Again(r, clock).Cursor(app, i))) != slot.Fold(slot.Of(r.Cursor(app, i)))
    ensures Again(r, clock).Collected(k)
  {
    var s := Again(r, clock);
    AgainStart(r, clock);
    hide After, InSlot, Slot.Of, Slot.Fold, Mark, ShouldProcess, Run.Cursor, IngestInto;
    if slot.Fold(slot.Of(s.Cursor(app, k))) == slot.Fold(slot.Of(r.Cursor(app, k))) {
      AlikeStays(r, clock, app, slot, k, i);
      assert false;
    }
    SlotStep(r, app, slot, k);
    SlotStep(s, app, slot, k);
    AfterExtends(s.start, s.batch, s.norm, clock, 0, k);
    AfterExtends(s.start, s.batch, s.norm, clock, k, i);
    SameBetween(s.At(0).db, s.At(k).db, s.At(i).db);
  }

  lemma SameBetween(a: Db, b: Db, c: Db)
    requires Extends(a, b) && Extends(b, c) && a == c
    ensures b == a
  {
  }

  /** Exactly when a second poll changes the store, by what the first one did: when an event it skipped
      resurfaces. */
  lemma RepollStoresIff(r: Run, clock: nat -> int)
    ensures Again(r, clock).At(|r.batch|).db != r.At(|r.batch|).db <==>
              exists i :: 0 <= i < |r.batch| && Resurfaces(r, i)
  {
    RepollWritesIff(r, clock);
    hide After, Run.Attempted, Resurfaces, Unknown;
    if Again(r, clock).At(|r.batch|).db != r.At(|r.batch|).db {
      var i := FirstWrite(r, clock, |r.batch|);
      FirstWriteResurfaces(r, clock, i);
    }
    if i :| 0 <= i < |r.batch| && Resurfaces(r, i) {
      ResurfacingIsAttempted(r, clock, i);
      ResurfacingIsUnknown(r, i);
    }
  }

  lemma ResurfacingIsUnknown(r: Run, i: nat)
    requires i < |r.batch| && Resurfaces(r, i)
    ensures !r.Attempted(i) && Unknown(r, i)
  {
    hide After, Run.Attempted, Unknown, Welcome, SlotOf;
  }

  lemma UnknownIsStorable(r: Run, i: nat)
    requires i < |r.batch| && Unknown(r, i)
    ensures r.norm(r.batch[i]).Some? && ValidStored(r.norm(r.batch[i]).value)
  {
    hide ValidStored, After;
  }

  lemma {:induction false} FirstWrite(r: Run, clock: nat -> int, k: nat) returns (i: nat)
    requires k <= |r.batch| && Again(r, clock).At(k).db != r.At(|r.batch|).db
    ensures i < k && !r.Attempted(i) && Again(r, clock).Attempted(i) && Unknown(r, i)
    ensures Again(r, clock).At(i).db == r.At(|r.batch|).db
    decreases k
  {
    hide After, Run.Attempted, Unknown;
    var s := Again(r, clock);
    AgainStart(r, clock);
    if s.At(k - 1).db != r.At(|r.batch|).db {
      i := FirstWrite(r, clock, k - 1);
    } else {
      AfterExtends(s.start, s.batch, s.norm, clock, 0, k);
      var id :| id in s.At(k).db && id !in r.At(|r.batch|).db;
      i := NewRowsWereSkipped(r, clock, k, id);
      if i < k - 1 {
        UnknownIsStorable(r, i);
        AttemptedIsPresentAt(s, i, k - 1);
        assert false;
      }
    }
  }

  /** Whatever comes of an attempt, something is stored under the event's ID from then on. */
  lemma AttemptedIsPresentAt(s: Run, i: nat, k: nat)
    requires i < k <= |s.batch| && s.Attempted(i)
    requires s.norm(s.batch[i]).Some? && ValidStored(s.norm(s.batch[i]).value)
    ensures s.norm(s.batch[i]).value.id in s.At(k).db
  {
    hide ValidStored, After, ShouldProcess, IntegrityHash;
    StepState(s, i);
    AfterExtends(s.start, s.batch, s.norm, s.clock, i + 1, k);
  }

  lemma AttemptedIsPresent(s: Run, i: nat)
    requires i < |s.batch| && s.Attempted(i) && s.norm(s.batch[i]).Some? && ValidStored(s.norm(s.batch[i]).value)
    ensures s.norm(s.batch[i]).value.id in s.At(|s.batch|).db
  {
    hide After, Run.Attempted;
    AttemptedIsPresentAt(s, i, |s.batch|);
  }

  /** So an unchanged batch is polled for free as long as the store knows the events whose key the cursors
      held before the first poll and gave away during it: then neither cursors nor rows nor times change. */
  lemma UnchangedBatchIsQuiet(r: Run, clock: nat -> int)
    requires forall i :: 0 <= i < |r.batch| && AlreadyMarked(r.start.cursors, r.batch[i]) && Displaced(r.batch, i) ==>
               !Unknown(r, i)
    ensures Again(r, clock).At(|r.batch|) == r.At(|r.batch|)
  {
    hide AlreadyMarked, Displaced, After, Unknown, ShouldProcess;
    RepollKeepsCursors(r, clock);
    RepollWritesIff(r, clock);
    if Again(r, clock).At(|r.batch|).db != r.At(|r.batch|).db {
      var i :| 0 <= i < |r.batch| && !r.Attempted(i) && Again(r, clock).Attempted(i) && Unknown(r, i);
      OnlySecondAttempts(r, clock, i);
    }
  }

  /** A first poll holds no keys, so the poll after it is free for every batch. */
  lemma SecondPollAfterFreshStart(r: Run, clock: nat -> int)
    requires r.start.cursors == map[]
    ensures Again(r, clock).At(|r.batch|) == r.At(|r.batch|)
  {
    forall i | 0 <= i < |r.batch| ensures !AlreadyMarked(r.start.cursors, r.batch[i]) {
      NothingMarked(r.batch[i]);
    }
    hide AlreadyMarked, Displaced, After, Unknown;
    UnchangedBatchIsQuiet(r, clock);
  }

  lemma NothingMarked(se: SourceEvent)
    ensures !AlreadyMarked(map[], se)
  {
    TrimTwice(se.operationKey);
    TrimTwice(se.healthStatus);
    assert Trim("") == "";
    hide Trim, KindOf, AppKey;
    assert forall s: string :: s != "" ==> |Lower(s)| > 0;
  }

  /** And from any cursors a third poll changes nothing at all. */
  lemma {:induction false} ThirdPollIsFree(r: Run, clock: nat -> int, clock': nat -> int, k: nat)
    requires k <= |r.batch|
    ensures var second := Again(r, clock);
            Again(second, clock').At(k) == State(second.At(k).cursors, second.At(|r.batch|).db)
    decreases k
  {
    var s := Again(r, clock);
    var t, n := Again(s, clock'), |r.batch|;
    assert t.At(0) == s.At(n) && s.At(0) == r.At(n);
    RepollKeepsCursors(r, clock);
    hide After, CursorAdmits, Collects, Advance;
    if k > 0 {
      var i := k - 1;
      ThirdPollIsFree(r, clock, clock', i);
      StepState(s, i);
      StepState(t, i);
      HandleCases(s.At(i), s.batch[i], s.norm, clock(i));
      HandleCases(t.At(i), s.batch[i], s.norm, clock'(i));
      CollectedIsAttempted(s, i);
      CollectedIsAttempted(t, i);
      if s.Attempted(i) { AnsweredAgain(s, clock', i); }
    }
  }
}
