/** What the collector is for: over any run of attempts on clusters that change between any two of them, however
    often fetching, saving and the process itself fail, what the attempts worked through were shown is on
    record. */
module Ledger {
  import opened Text
  import opened Keyset
  import opened CloudEvents
  import opened Store
  import opened Collector
  import opened CatchUp
  import opened Attempts
  import opened SourceEvents
  import opened Normalize
  import opened Pipeline
  import opened EndToEnd
  import opened Evidence

  /** The collector starts from nothing. */
  function Polling(v: Watch): Feed { FeedOf(v, State(map[], map[])) }

  ghost predicate AllProper(v: Watch) {
    forall a: nat :: Proper(v.clusters(a), v.clock(a))
  }

  /** Argo numbers an application's deployments upwards, lists them in that order, and never lists one again that
      it has dropped: an entry below one that was shown was shown beside it. */
  ghost predicate Grows(v: Watch) {
    && (forall a: nat, app :: app in v.clusters(a) ==> OrderedHistory(app))
    && forall a: nat, b: nat, uid, id, last ::
         a < b && Shows(v.clusters(b), uid, id) && Shows(v.clusters(a), uid, last) && 0 < id <= last ==>
           Shows(v.clusters(a), uid, id)
  }

  // What is kept.

  ghost predicate OperationsKept(db: Db, apps: seq<Application>, now: int) {
    forall i, started :: 0 <= i < |apps| && Reported(apps[i], started) ==>
      Answered(db, Trim(apps[i].uid), KeyOf(apps[i], now), started)
  }

  /** An entry without an ID: its own key is answered, or, if the snapshot leaves it to its operation, that one's. */
  ghost predicate EntryKept(db: Db, app: Application, n: nat, now: int)
    requires n < |app.history|
  {
    if Suppressed(app.history[n], app, now) then
      Reported(app, false) && Answered(db, Trim(app.uid), KeyOf(app, now), false)
    else Answered(db, Trim(app.uid), EntryKey(app, n, now), false)
  }

  ghost predicate EntriesKept(db: Db, apps: seq<Application>, now: int) {
    forall i, n :: 0 <= i < |apps| && 0 <= n < |apps[i].history| && apps[i].history[n].id <= 0 ==>
      EntryKept(db, apps[i], n, now)
  }

  /** The entry with that ID is accounted for at one of the attempts worked through. */
  ghost predicate EntryAccounted(db: Db, v: Watch, worked: set<nat>, uid: string, id: int) {
    exists a, i, n :: a in worked && IsEntry(v.clusters(a), i, n, uid, id) &&
      Accounted(db, v.clusters(a)[i], n, v.clock(a))
  }

  ghost predicate AttemptKept(db: Db, v: Watch, worked: set<nat>, a: nat) {
    && OperationsKept(db, v.clusters(a), v.clock(a)) && EntriesKept(db, v.clusters(a), v.clock(a))
    && (Grows(v) ==> forall uid, id :: Shows(v.clusters(a), uid, id) && id > 0 ==>
          EntryAccounted(db, v, worked, uid, id))
  }

  ghost predicate AllKept(db: Db, v: Watch, worked: set<nat>) {
    forall a :: a in worked ==> AttemptKept(db, v, worked, a)
  }

  /** The cursors hold only keys that are answered and history IDs that attempts worked through have shown. */
  ghost predicate Backed(cursors: Cursors, db: Db, v: Watch, worked: set<nat>) {
    && KeysOnRecord(State(cursors, db))
    && forall uid :: LastIsShown(cursors, v, worked, uid)
  }

  ghost predicate LastIsShown(cursors: Cursors, v: Watch, worked: set<nat>, uid: string) {
    var last := CursorOf(cursors, uid).lastHistoryID;
    last <= 0 || exists a :: a in worked && Shows(v.clusters(a), uid, last)
  }

  // More rows and more attempts keep it so.

  lemma AccountedStays(db: Db, later: Db, app: Application, n: nat, now: int)
    requires db.Keys <= later.Keys && n < |app.history| && Accounted(db, app, n, now)
    ensures Accounted(later, app, n, now)
  {
    hide Suppressed, EntryIDOf, Answered, KeyOf;
    SuppressedHasOperation(app.history[n], app, now);
    assert EntryIDOf(app, n, now) in db.Keys ==> EntryIDOf(app, n, now) in later;
    if EntryIDOf(app, n, now) !in db {
      AnsweredStays(db, later, Trim(app.uid), KeyOf(app, now), false);
    }
  }

  lemma SuppressedHasOperation(h: HistoryEntry, app: Application, now: int)
    ensures Suppressed(h, app, now) ==> app.operation.Some?
  {
  }

  lemma EntryAccountedStays(db: Db, later: Db, v: Watch, worked: set<nat>, worked': set<nat>, uid: string, id: int)
    requires db.Keys <= later.Keys && worked <= worked' && EntryAccounted(db, v, worked, uid, id)
    ensures EntryAccounted(later, v, worked', uid, id)
  {
    hide Accounted;
    var a, i, n :| a in worked && IsEntry(v.clusters(a), i, n, uid, id) &&
      Accounted(db, v.clusters(a)[i], n, v.clock(a));
    AccountedStays(db, later, v.clusters(a)[i], n, v.clock(a));
  }

  lemma KeptStays(db: Db, later: Db, v: Watch, worked: set<nat>, worked': set<nat>, a: nat)
    requires db.Keys <= later.Keys && worked <= worked' && AttemptKept(db, v, worked, a)
    ensures AttemptKept(later, v, worked', a)
  {
    hide Answered, KeyOf, EntryKey, Suppressed, EntryAccounted, Shows, Grows, Trim;
    var apps, now := v.clusters(a), v.clock(a);
    forall uid, key, started | Answered(db, uid, key, started) ensures Answered(later, uid, key, started) {
      AnsweredStays(db, later, uid, key, started);
    }
    if Grows(v) {
      forall uid, id | Shows(apps, uid, id) && id > 0 ensures EntryAccounted(later, v, worked', uid, id) {
        EntryAccountedStays(db, later, v, worked, worked', uid, id);
      }
    }
  }

  lemma BackedStays(cursors: Cursors, db: Db, later: Db, v: Watch, worked: set<nat>, worked': set<nat>)
    requires db.Keys <= later.Keys && worked <= worked' && Backed(cursors, db, v, worked)
    ensures Backed(cursors, later, v, worked')
  {
    hide Answered, Shows, Trim;
    forall uid, started ensures KeyOnRecord(State(cursors, later), uid, started) {
      assert KeyOnRecord(State(cursors, db), uid, started);
      var key := Trim(KeySlot(started).Of(CursorOf(cursors, uid)));
      if key != "" { AnsweredStays(db, later, uid, key, started); }
    }
    forall uid ensures LastIsShown(cursors, v, worked', uid) {
      assert LastIsShown(cursors, v, worked, uid);
    }
  }

  // One attempt, worked through.

  function AttemptRun(st: State, v: Watch, a: nat, writes: nat -> int): Run {
    PollOf(st, v.clusters(a), v.clock(a), v.settings, writes)
  }

  lemma OperationsAreKept(st: State, v: Watch, a: nat, writes: nat -> int)
    requires AllProper(v) && KeysOnRecord(st)
    ensures var r := AttemptRun(st, v, a, writes);
            OperationsKept(r.At(|r.batch|).db, v.clusters(a), v.clock(a))
  {
    hide After, Fetch, KeysOnRecord, Answered, Proper, OperationKey, OperationFinish;
    var r := AttemptRun(st, v, a, writes);
    forall i, started | 0 <= i < |v.clusters(a)| && Reported(v.clusters(a)[i], started)
      ensures Answered(r.At(|r.batch|).db, Trim(v.clusters(a)[i].uid), KeyOf(v.clusters(a)[i], v.clock(a)), started)
    {
      OperationIsAnswered(st, v.clusters(a), v.clock(a), v.settings, writes, i, started);
    }
  }

  lemma EntriesAreKept(st: State, v: Watch, a: nat, writes: nat -> int)
    requires AllProper(v) && KeysOnRecord(st)
    ensures var r := AttemptRun(st, v, a, writes); EntriesKept(r.At(|r.batch|).db, v.clusters(a), v.clock(a))
  {
    hide After, Fetch, KeysOnRecord, Answered, Proper, Suppressed, Reported, EntryKey, KeyOf;
    var r, apps, now := AttemptRun(st, v, a, writes), v.clusters(a), v.clock(a);
    forall i, n | 0 <= i < |apps| && 0 <= n < |apps[i].history| && apps[i].history[n].id <= 0
      ensures EntryKept(r.At(|r.batch|).db, apps[i], n, now)
    {
      if Suppressed(apps[i].history[n], apps[i], now) {
        SuppressedIsReported(apps[i].history[n], apps[i], now);
        OperationIsAnswered(st, apps, now, v.settings, writes, i, false);
      } else {
        EntryWithoutIDIsAnswered(st, apps, now, v.settings, writes, i, n);
      }
    }
  }

  /** An entry is above the cursor, or it was shown beside the one the cursor is at. */
  lemma EntryIsAccounted(st: State, v: Watch, a: nat, worked: set<nat>, writes: nat -> int, uid: string, id: int)
    requires AllProper(v) && Grows(v) && Backed(st.cursors, st.db, v, worked) && AllKept(st.db, v, worked)
    requires (forall b :: b in worked ==> b < a) && Shows(v.clusters(a), uid, id) && id > 0
    ensures var r := AttemptRun(st, v, a, writes);
            EntryAccounted(r.At(|r.batch|).db, v, worked + {a}, uid, id)
  {
    var r, apps, now := AttemptRun(st, v, a, writes), v.clusters(a), v.clock(a);
    var last := CursorOf(st.cursors, uid).lastHistoryID;
    assert LastIsShown(st.cursors, v, worked, uid);
    var i, n :| IsEntry(apps, i, n, uid, id);
    PollStart(st, apps, now, v.settings, writes);
    hide After, Fetch, KeysOnRecord, Accounted, OrderedHistory, OperationsKept, EntriesKept, Shows, EntryAccounted;
    if id > last {
      NewIsAccounted(st, v, a, worked, writes, i, n, uid, id);
    } else {
      var b :| b in worked && Shows(v.clusters(b), uid, last);
      assert AttemptKept(st.db, v, worked, b);
      hide Proper;
      AfterExtends(st, r.batch, r.norm, writes, 0, |r.batch|);
      EntryAccountedStays(st.db, r.At(|r.batch|).db, v, worked, worked + {a}, uid, id);
    }
  }

  lemma NewIsAccounted(st: State, v: Watch, a: nat, worked: set<nat>, writes: nat -> int, i: nat, n: nat, uid: string,
                       id: int)
    requires AllProper(v) && Grows(v) && KeysOnRecord(st) && IsEntry(v.clusters(a), i, n, uid, id)
    requires id > 0 && id > CursorOf(st.cursors, uid).lastHistoryID
    ensures var r := AttemptRun(st, v, a, writes);
            EntryAccounted(r.At(|r.batch|).db, v, worked + {a}, uid, id)
  {
    hide After, Fetch, KeysOnRecord, Accounted, OrderedHistory, Proper, Shows;
    NewEntryIsAccounted(st, v.clusters(a), v.clock(a), v.settings, writes, i, n);
    assert a in worked + {a};
  }

  lemma CursorIsShown(st: State, v: Watch, a: nat, worked: set<nat>, writes: nat -> int, uid: string)
    requires AllProper(v) && LastIsShown(st.cursors, v, worked, uid)
    ensures var r := AttemptRun(st, v, a, writes); LastIsShown(r.At(|r.batch|).cursors, v, worked + {a}, uid)
  {
    var r, apps, now := AttemptRun(st, v, a, writes), v.clusters(a), v.clock(a);
    PollStart(st, apps, now, v.settings, writes);
    ProperIsSeparate(apps, now);
    hide After, Fetch, KindOf, AppKey, IngestInto, Proper, Shows, Collects;
    RunningMaximum(r, uid, 0, |r.batch|);
    var before, last := r.Cursor(uid, 0).lastHistoryID, r.Cursor(uid, |r.batch|).lastHistoryID;
    if last != before {
      var i :| 0 <= i < |r.batch| && IsHistory(r.batch[i], uid) && r.batch[i].historyID == last;
      HistoryIsShown(apps, now, r.batch[i], uid);
      assert a in worked + {a};
    }
  }

  lemma AttemptWorks(st: State, v: Watch, a: nat, worked: set<nat>, writes: nat -> int)
    requires AllProper(v) && Backed(st.cursors, st.db, v, worked) && AllKept(st.db, v, worked)
    requires forall b :: b in worked ==> b < a
    ensures var r := AttemptRun(st, v, a, writes); var end := r.At(|r.batch|);
            Backed(end.cursors, end.db, v, worked + {a}) && AllKept(end.db, v, worked + {a}) &&
            st.db.Keys <= end.db.Keys
  {
    var r := AttemptRun(st, v, a, writes);
    var end := r.At(|r.batch|);
    PollStart(st, v.clusters(a), v.clock(a), v.settings, writes);
    hide After, Fetch, KeyOnRecord, LastIsShown, OperationsKept, EntriesKept, EntryAccounted, Shows, Grows, Proper;
    AfterExtends(st, r.batch, r.norm, writes, 0, |r.batch|);
    KeysStayOnRecord(st, v.clusters(a), v.clock(a), v.settings, writes, |r.batch|);
    forall uid ensures LastIsShown(end.cursors, v, worked + {a}, uid) { CursorIsShown(st, v, a, worked, writes, uid); }
    OperationsAreKept(st, v, a, writes);
    EntriesAreKept(st, v, a, writes);
    if Grows(v) {
      forall uid, id | Shows(v.clusters(a), uid, id) && id > 0
        ensures EntryAccounted(end.db, v, worked + {a}, uid, id)
      {
        EntryIsAccounted(st, v, a, worked, writes, uid, id);
      }
    }
    forall b | b in worked + {a} ensures AttemptKept(end.db, v, worked + {a}, b) {
      if b != a { KeptStays(st.db, end.db, v, worked, worked + {a}, b); }
    }
  }

  // All attempts.

  /** The current attempt started from a state the store backs, and so will the next one after a crash. */
  ghost predicate OnCourse(v: Watch, s: Progress, st: State, writes: nat -> int) {
    && s.pos <= |Polling(v).batches(s.attempt)|
    && State(s.cursors, s.db) == AttemptRun(st, v, s.attempt, writes).At(s.pos)
    && Backed(st.cursors, st.db, v, s.over) && Backed(s.saved, st.db, v, s.over) && AllKept(st.db, v, s.over)
    && forall a :: a in s.over ==> a < s.attempt
  }

  lemma CourseGoesOn(v: Watch, s: Progress, st: State, writes: nat -> int, now: int) returns (writes': nat -> int)
    requires OnCourse(v, s, st, writes) && s.pos < |Polling(v).batches(s.attempt)|
    ensures OnCourse(v, Step(Polling(v), s, HandleNext(now)), st, writes')
  {
    hide Handle, Backed, AllKept, Fetch, Normalizing;
    var batch := Polling(v).batches(s.attempt);
    writes' := (i: nat) => if i == s.pos then now else writes(i);
    OneMore(st, batch, Normalizing(v.settings), writes, writes', s.pos);
    hide After;
  }

  /** One more event, at its own time. */
  lemma OneMore(st: State, batch: seq<SourceEvent>, norm: Normalizer, clock: nat -> int, clock': nat -> int, k: nat)
    requires k < |batch| && forall i: nat :: i < k ==> clock(i) == clock'(i)
    ensures After(st, batch, norm, clock', k + 1) ==
              Handle(After(st, batch, norm, clock, k), batch[k], norm, clock'(k))
  {
    hide Handle;
    LaterTimes(st, batch, norm, clock, clock', k);
  }

  /** The store only grows during an attempt. */
  lemma CourseExtends(v: Watch, s: Progress, st: State, writes: nat -> int)
    requires OnCourse(v, s, st, writes)
    ensures st.db.Keys <= s.db.Keys
  {
    hide After, Fetch, Backed, AllKept;
    var r := AttemptRun(st, v, s.attempt, writes);
    PollStart(st, v.clusters(s.attempt), v.clock(s.attempt), v.settings, writes);
    AfterExtends(st, r.batch, r.norm, writes, 0, s.pos);
  }

  /** Whatever ends the attempt, its successor starts backed: with the cursors reached if it was worked through,
      or with the saved ones. */
  lemma AnewIsOnCourse(v: Watch, s: Progress, st: State, writes: nat -> int, cursors: Cursors, saved: Cursors)
    requires AllProper(v) && OnCourse(v, s, st, writes)
    requires cursors == s.saved || (cursors == s.cursors && s.pos == |Polling(v).batches(s.attempt)|)
    requires saved == s.saved || (saved == s.cursors && s.pos == |Polling(v).batches(s.attempt)|)
    ensures OnCourse(v, Anew(Polling(v), s.(saved := saved), cursors), State(cursors, s.db), writes)
  {
    CourseExtends(v, s, st, writes);
    var worked := Worked(Polling(v), s);
    PollStart(State(cursors, s.db), v.clusters(s.attempt + 1), v.clock(s.attempt + 1), v.settings, writes);
    hide After, Fetch, Backed, AllKept, AllProper;
    if s.pos == |Polling(v).batches(s.attempt)| {
      AttemptWorks(st, v, s.attempt, s.over, writes);
    } else {
      KeptAllStays(st.db, s.db, v, s.over);
    }
    BackedStays(s.saved, st.db, s.db, v, s.over, worked);
  }

  lemma KeptAllStays(db: Db, later: Db, v: Watch, worked: set<nat>)
    requires db.Keys <= later.Keys && AllKept(db, v, worked)
    ensures AllKept(later, v, worked)
  {
    hide AttemptKept;
    forall a | a in worked ensures AttemptKept(later, v, worked, a) { KeptStays(db, later, v, worked, worked, a); }
  }

  lemma StepOnCourse(v: Watch, s: Progress, m: Move, st: State, writes: nat -> int)
    returns (st': State, writes': nat -> int)
    requires AllProper(v) && OnCourse(v, s, st, writes)
    ensures OnCourse(v, Step(Polling(v), s, m), st', writes')
  {
    var f := Polling(v);
    var size := |f.batches(s.attempt)|;
    st', writes' := st, writes;
    hide OnCourse, AllProper, Handle, Fetch;
    PositionInRange(v, s, st, writes);
    match m {
      case HandleNext(now) =>
        if s.pos < size { writes' := CourseGoesOn(v, s, st, writes, now); }
      case SaveCheckpoint =>
        if s.pos == size {
          AnewIsOnCourse(v, s, st, writes, s.cursors, s.cursors);
          st' := State(s.cursors, s.db);
        }
      case SaveFails =>
        if s.pos == size {
          AnewIsOnCourse(v, s, st, writes, s.cursors, s.saved);
          st' := State(s.cursors, s.db);
        }
      case FetchFails =>
        if s.pos == 0 { NothingFetched(v, s, st, writes); }
      case CheckpointLost => LostIsBacked(v, s, st, writes);
      case Crash =>
        AnewIsOnCourse(v, s, st, writes, s.saved, s.saved);
        st' := State(s.saved, s.db);
      case CrashAfterWrite(now) =>
        if s.pos < size {
          CrashAfterWriteIsCrash(f, s, now);
          writes' := CourseGoesOn(v, s, st, writes, now);
          var t := Step(f, s, HandleNext(now));
          AnewIsOnCourse(v, t, st, writes', t.saved, t.saved);
          st' := State(t.saved, t.db);
        }
    }
  }

  lemma PositionInRange(v: Watch, s: Progress, st: State, writes: nat -> int)
    requires OnCourse(v, s, st, writes)
    ensures s.pos <= |Polling(v).batches(s.attempt)|
  {
  }

  lemma LostIsBacked(v: Watch, s: Progress, st: State, writes: nat -> int)
    requires OnCourse(v, s, st, writes)
    ensures OnCourse(v, s.(saved := map[]), st, writes)
  {
    NothingIsBacked(st.db, v, s.over);
    hide Backed, AllKept, Fetch, After;
  }

  lemma NothingIsBacked(db: Db, v: Watch, worked: set<nat>)
    ensures Backed(map[], db, v, worked)
  {
    assert Trim("") == "";
    hide Trim, Answered, Shows;
  }

  lemma NothingFetched(v: Watch, s: Progress, st: State, writes: nat -> int)
    requires OnCourse(v, s, st, writes) && s.pos == 0
    ensures OnCourse(v, s.(attempt := s.attempt + 1), st, writes)
  {
    hide Backed, AllKept, Fetch;
    PollStart(st, v.clusters(s.attempt), v.clock(s.attempt), v.settings, writes);
    PollStart(st, v.clusters(s.attempt + 1), v.clock(s.attempt + 1), v.settings, writes);
  }

  lemma {:induction false} EveryCourse(v: Watch, moves: seq<Move>) returns (st: State, writes: nat -> int)
    requires AllProper(v)
    ensures OnCourse(v, Reach(Polling(v), moves), st, writes)
  {
    hide Step, OnCourse, AllProper;
    if moves == [] {
      st, writes := State(map[], map[]), _ => 0;
      StartOnCourse(v, writes);
    } else {
      var before, times := EveryCourse(v, moves[..|moves| - 1]);
      st, writes := StepOnCourse(v, Reach(Polling(v), moves[..|moves| - 1]), moves[|moves| - 1], before, times);
    }
  }

  lemma StartOnCourse(v: Watch, writes: nat -> int)
    ensures OnCourse(v, Progress(map[], map[], map[], 0, 0, {}), State(map[], map[]), writes)
  {
    NothingIsBacked(map[], v, {});
    hide Backed, AttemptKept, Fetch;
  }

  /** In every reachable state, everything the attempts worked through were shown is kept. */
  lemma WorkedIsKept(v: Watch, moves: seq<Move>)
    requires AllProper(v)
    ensures var s := Reach(Polling(v), moves); AllKept(s.db, v, Worked(Polling(v), s))
  {
    hide Reach, Backed, AttemptKept, AllProper, After, Fetch;
    var st, writes := EveryCourse(v, moves);
    var s := Reach(Polling(v), moves);
    CourseExtends(v, s, st, writes);
    if s.pos == |Polling(v).batches(s.attempt)| {
      AttemptWorks(st, v, s.attempt, s.over, writes);
    } else {
      KeptAllStays(st.db, s.db, v, s.over);
    }
  }

  // What the store then holds.

  /** The event is one that an attempt fetches. */
  ghost predicate Seen(v: Watch, se: SourceEvent) {
    exists a: nat :: se in Fetch(v.clusters(a), v.clock(a))
  }

  /** The store holds a fetched event under that ID. */
  ghost predicate OnRecord(db: Db, v: Watch, id: string) {
    id in db && exists se :: Seen(v, se) && "evt_argocd_" + se.id == id && Represents(db[id], se, v.settings)
  }

  /** An entry without an ID, of that revision and deployed at that instant, is on record. */
  ghost predicate EntryOnRecord(db: Db, v: Watch, uid: string, revision: string, instant: string) {
    exists rev, t :: KeyRevision(rev) == revision && KeyInstant(0, t) == instant &&
      OnRecord(db, v, EntryID(uid, 0, rev, t))
  }

  /** The snapshot's operation is on record, or, if it has finished, an entry without an ID of its revision and
      instant is. */
  ghost predicate OperationOnRecord(db: Db, v: Watch, app: Application, now: int, started: bool)
    requires app.operation.Some?
  {
    var op := app.operation.value;
    || OnRecord(db, v, OperationID(Trim(app.uid), KeyOf(app, now), started))
    || (!started && EntryOnRecord(db, v, Trim(app.uid), KeyRevision(Revision(app)),
                                  KeyInstant(op.startedAt, OperationFinish(op, app, now))))
  }

  ghost predicate StoreIsSeen(db: Db, v: Watch) {
    StandFor(db, (se: SourceEvent) => Seen(v, se), v.settings)
  }

  lemma EveryRowIsSeen(v: Watch, moves: seq<Move>)
    ensures StoreIsSeen(Reach(Polling(v), moves).db, v)
  {
    hide Reach;
    PolledRowsAreArgo(Polling(v), moves, (se: SourceEvent) => Seen(v, se), v.settings);
  }

  lemma PresentIsOnRecord(db: Db, v: Watch, id: string)
    requires StoreIsSeen(db, v) && id in db
    ensures OnRecord(db, v, id)
  {
    hide Seen;
    assert Stands(db[id], (se: SourceEvent) => Seen(v, se), v.settings);
    var se :| Seen(v, se) && Represents(db[id], se, v.settings);
    RepresentsID(db[id], se, v.settings);
    hide Represents;
  }

  lemma RepresentsID(e: StoredEvent, se: SourceEvent, settings: Settings)
    requires Represents(e, se, settings)
    ensures e.id == "evt_argocd_" + se.id
  {
    hide Trim, Or, ExtensionsOf, DataOf;
  }

  lemma AnsweredIsOnRecord(db: Db, v: Watch, uid: string, revision: string, startedAt: int, finishedAt: int,
                           started: bool)
    requires StoreIsSeen(db, v) && Answered(db, uid, OperationKey(revision, startedAt, finishedAt), started)
    ensures || OnRecord(db, v, OperationID(uid, OperationKey(revision, startedAt, finishedAt), started))
            || (!started && EntryOnRecord(db, v, uid, KeyRevision(revision), KeyInstant(startedAt, finishedAt)))
  {
    hide OnRecord, StoreIsSeen, OperationID, EntryID, OperationKey, KeyRevision, KeyInstant;
    var key := OperationKey(revision, startedAt, finishedAt);
    if OperationID(uid, key, started) in db {
      PresentIsOnRecord(db, v, OperationID(uid, key, started));
    } else {
      var rev, t :| OperationKey(rev, 0, t) == key && EntryID(uid, 0, rev, t) in db;
      KeyMeans(rev, 0, t, revision, startedAt, finishedAt);
      PresentIsOnRecord(db, v, EntryID(uid, 0, rev, t));
    }
  }

  /** Whatever clusters the attempts see and wherever they fail: every operation that an attempt worked through
      was shown is on record, started or finished; or, if it has finished, an entry without an ID that has its
      revision and instant is. */
  lemma EveryOperationIsOnRecord(v: Watch, moves: seq<Move>, a: nat, i: nat, started: bool)
    requires AllProper(v) && a in Worked(Polling(v), Reach(Polling(v), moves))
    requires i < |v.clusters(a)| && Reported(v.clusters(a)[i], started)
    ensures OperationOnRecord(Reach(Polling(v), moves).db, v, v.clusters(a)[i], v.clock(a), started)
  {
    WorkedIsKept(v, moves);
    EveryRowIsSeen(v, moves);
    hide Reach, AllProper, StoreIsSeen, EntriesKept, Answered, Shows, EntryAccounted, OnRecord, EntryOnRecord, Worked,
      OperationKey, KeyRevision, KeyInstant, OperationFinish, OperationID, Revision;
    var db, app := Reach(Polling(v), moves).db, v.clusters(a)[i];
    assert AttemptKept(db, v, Worked(Polling(v), Reach(Polling(v), moves)), a);
    var op := app.operation.value;
    AnsweredIsOnRecord(db, v, Trim(app.uid), Revision(app), op.startedAt, OperationFinish(op, app, v.clock(a)),
                       started);
  }

  /** Every history entry without an ID is on record, or another one of its revision and instant is, or the
      finish of an operation that has its key; if its snapshot leaves it to its operation, that one is. */
  lemma EveryEntryWithoutIDIsOnRecord(v: Watch, moves: seq<Move>, a: nat, i: nat, n: nat)
    requires AllProper(v) && a in Worked(Polling(v), Reach(Polling(v), moves))
    requires i < |v.clusters(a)| && n < |v.clusters(a)[i].history| && v.clusters(a)[i].history[n].id <= 0
    ensures var db, app, now := Reach(Polling(v), moves).db, v.clusters(a)[i], v.clock(a);
            var h := app.history[n];
            if Suppressed(h, app, now) then Reported(app, false) && OperationOnRecord(db, v, app, now, false)
            else
              || OnRecord(db, v, OperationID(Trim(app.uid), EntryKey(app, n, now), false))
              || EntryOnRecord(db, v, Trim(app.uid), KeyRevision(EntryRevision(h, app)),
                               KeyInstant(0, OccurredAt(h, app, now)))
  {
    WorkedIsKept(v, moves);
    EveryRowIsSeen(v, moves);
    hide Reach, AllProper, StoreIsSeen, Answered, Shows, EntryAccounted, OnRecord, EntryOnRecord, Worked, Suppressed,
      OperationKey, KeyRevision, KeyInstant, OperationFinish, OperationID, Revision, EntryRevision, OccurredAt,
      OperationsKept;
    var db, app, now := Reach(Polling(v), moves).db, v.clusters(a)[i], v.clock(a);
    var h := app.history[n];
    assert AttemptKept(db, v, Worked(Polling(v), Reach(Polling(v), moves)), a);
    assert EntryKept(db, app, n, now);
    if Suppressed(h, app, now) {
      var op := app.operation.value;
      AnsweredIsOnRecord(db, v, Trim(app.uid), Revision(app), op.startedAt, OperationFinish(op, app, now), false);
    } else {
      AnsweredIsOnRecord(db, v, Trim(app.uid), EntryRevision(h, app), 0, OccurredAt(h, app, now), false);
    }
  }

  /** The snapshot leaves its entry to its finished operation, which is on record in that sense. */
  ghost predicate LeftToOperation(db: Db, v: Watch, app: Application, n: nat, now: int)
    requires n < |app.history|
  {
    Suppressed(app.history[n], app, now) && Reported(app, false) && OperationOnRecord(db, v, app, now, false)
  }

  /** And where history grows, every entry with an ID is on record, unless an attempt worked through that showed
      it left it to a finished operation. */
  lemma EveryEntryIsOnRecord(v: Watch, moves: seq<Move>, a: nat, uid: string, id: int)
    requires AllProper(v) && Grows(v) && a in Worked(Polling(v), Reach(Polling(v), moves))
    requires Shows(v.clusters(a), uid, id) && id > 0
    ensures var f := Polling(v); var s := Reach(f, moves);
            || OnRecord(s.db, v, EntryID(uid, id, "", 0))
            || exists b, i, n :: b in Worked(f, s) && IsEntry(v.clusters(b), i, n, uid, id) &&
                                 LeftToOperation(s.db, v, v.clusters(b)[i], n, v.clock(b))
  {
    WorkedIsKept(v, moves);
    EveryRowIsSeen(v, moves);
    hide Reach, AllProper, Grows, StoreIsSeen, Shows, Worked, OperationsKept, EntriesKept, LeftToOperation, Accounted,
      OnRecord, EntryID;
    var s := Reach(Polling(v), moves);
    assert AttemptKept(s.db, v, Worked(Polling(v), s), a);
    var b, i, n :| b in Worked(Polling(v), s) && IsEntry(v.clusters(b), i, n, uid, id) &&
      Accounted(s.db, v.clusters(b)[i], n, v.clock(b));
    AccountedIsOnRecord(s.db, v, v.clusters(b)[i], n, v.clock(b));
  }

  lemma AccountedIsOnRecord(db: Db, v: Watch, app: Application, n: nat, now: int)
    requires StoreIsSeen(db, v) && n < |app.history| && app.history[n].id > 0 && Accounted(db, app, n, now)
    ensures OnRecord(db, v, EntryID(Trim(app.uid), app.history[n].id, "", 0)) || LeftToOperation(db, v, app, n, now)
  {
    assert EntryIDOf(app, n, now) == EntryID(Trim(app.uid), app.history[n].id, "", 0);
    hide OnRecord, StoreIsSeen, EntryIDOf, EntryID, Trim, EntryOnRecord, OperationKey, KeyRevision, KeyInstant,
      OperationFinish, OperationID, Revision, Suppressed, Answered;
    if EntryIDOf(app, n, now) in db {
      PresentIsOnRecord(db, v, EntryIDOf(app, n, now));
    } else {
      SuppressedIsReported(app.history[n], app, now);
      var op := app.operation.value;
      AnsweredIsOnRecord(db, v, Trim(app.uid), Revision(app), op.startedAt, OperationFinish(op, app, now), false);
    }
  }

  // Applications whose entries all have an ID.

  ghost predicate Numbered(v: Watch, uid: string) {
    forall a: nat, i, n {:trigger v.clusters(a)[i].history[n]} ::
      0 <= i < |v.clusters(a)| && Trim(v.clusters(a)[i].uid) == uid && 0 <= n < |v.clusters(a)[i].history| ==>
        v.clusters(a)[i].history[n].id > 0
  }

  lemma NumberedHasNoEntry(db: Db, v: Watch, app: Application, revision: string, t: int)
    requires AllProper(v) && HasUID(app) && Numbered(v, Trim(app.uid))
    ensures !OnRecord(db, v, EntryID(Trim(app.uid), 0, revision, t))
  {
    hide Trim, Fetch, EventsOf, Represents, AppKey, Proper, HistoryTail;
    var id := EntryID(Trim(app.uid), 0, revision, t);
    if OnRecord(db, v, id) {
      var se :| Seen(v, se) && "evt_argocd_" + se.id == id && Represents(db[id], se, v.settings);
      var a: nat :| se in Fetch(v.clusters(a), v.clock(a));
      SamePrefix("evt_argocd_", se.id, Trim(app.uid) + ":" + ("hist:" + HistoryTail(0, revision, t)));
      ProperIsSeparate(v.clusters(a), v.clock(a));
      var i := FetchMembers(v.clusters(a), v.clock(a), se);
      NotNumbered(v.clusters(a)[i], app, v.clock(a), se, revision, t);
    }
  }

  lemma NotNumbered(app': Application, app: Application, now: int, se: SourceEvent, revision: string, t: int)
    requires HasUID(app) && HasUID(app') && se in EventsOf(app', now) && BelongsTo(se, app')
    requires se.id == Trim(app.uid) + ":" + ("hist:" + HistoryTail(0, revision, t))
    ensures Trim(app'.uid) == Trim(app.uid) && exists n :: 0 <= n < |app'.history| && app'.history[n].id <= 0
  {
    hide Trim, EventsOf, AppKey, HistoryTail, Stems, Suppressed, EntryRevision, OccurredAt;
    SameUID(app', app, se.id);
    var origin := EventOrigins(app', now);
    var k :| 0 <= k < |EventsOf(app', now)| && EventsOf(app', now)[k] == se;
    var tail := TailOf(app', now, se, origin[k]);
    SamePrefix(Trim(app.uid) + ":", tail, "hist:" + HistoryTail(0, revision, t));
    assert tail[0] == 'h' && tail[1] == 'i';
    TailStarts(app', now, origin[k], tail);
    var h, dated := app'.history[origin[k].entry], OccurredAt(app'.history[origin[k].entry], app', now);
    SamePrefix("hist:", HistoryTail(h.id, EntryRevision(h, app'), dated), HistoryTail(0, revision, t));
    if h.id > 0 { HistoryTailsDiffer(h.id, EntryRevision(h, app'), dated, 0, revision, t); }
  }

  /** Of such an application every operation is on record itself, start and finish. */
  lemma NumberedOperationIsOnRecord(v: Watch, moves: seq<Move>, a: nat, i: nat, started: bool)
    requires AllProper(v) && a in Worked(Polling(v), Reach(Polling(v), moves))
    requires i < |v.clusters(a)| && Reported(v.clusters(a)[i], started) && Numbered(v, Trim(v.clusters(a)[i].uid))
    ensures var app := v.clusters(a)[i];
            OnRecord(Reach(Polling(v), moves).db, v, OperationID(Trim(app.uid), KeyOf(app, v.clock(a)), started))
  {
    EveryOperationIsOnRecord(v, moves, a, i, started);
    ClusterHasUID(v, a, i);
    hide Reach, AllProper, Worked, Reported, OnRecord, Numbered, HasUID, OperationKey;
    OperationItself(Reach(Polling(v), moves).db, v, v.clusters(a)[i], v.clock(a), started);
  }

  lemma ClusterHasUID(v: Watch, a: nat, i: nat)
    requires AllProper(v) && i < |v.clusters(a)|
    ensures HasUID(v.clusters(a)[i])
  {
    hide Trim;
    assert Proper(v.clusters(a), v.clock(a));
  }

  lemma OperationItself(db: Db, v: Watch, app: Application, now: int, started: bool)
    requires AllProper(v) && HasUID(app) && Numbered(v, Trim(app.uid))
    requires app.operation.Some? && OperationOnRecord(db, v, app, now, started)
    ensures OnRecord(db, v, OperationID(Trim(app.uid), KeyOf(app, now), started))
  {
    hide AllProper, HasUID, Numbered, OnRecord, KeyOf, OperationID, EntryID, KeyRevision, KeyInstant, Revision,
      OperationFinish, Trim;
    forall rev, t ensures !OnRecord(db, v, EntryID(Trim(app.uid), 0, rev, t)) {
      NumberedHasNoEntry(db, v, app, rev, t);
    }
  }

  /** And every entry is, unless an attempt left it to a finished operation that is. */
  lemma NumberedEntryIsOnRecord(v: Watch, moves: seq<Move>, a: nat, uid: string, id: int)
    requires AllProper(v) && Grows(v) && a in Worked(Polling(v), Reach(Polling(v), moves))
    requires Shows(v.clusters(a), uid, id) && Numbered(v, uid)
    ensures var f := Polling(v); var s := Reach(f, moves);
            || OnRecord(s.db, v, EntryID(uid, id, "", 0))
            || exists b, i, n ::
                 && b in Worked(f, s) && IsEntry(v.clusters(b), i, n, uid, id)
                 && Suppressed(v.clusters(b)[i].history[n], v.clusters(b)[i], v.clock(b))
                 && Reported(v.clusters(b)[i], false)
                 && OnRecord(s.db, v, OperationID(uid, KeyOf(v.clusters(b)[i], v.clock(b)), false))
  {
    NumberedIsPositive(v, a, uid, id);
    EveryEntryIsOnRecord(v, moves, a, uid, id);
    hide Reach, AllProper, Worked, Reported, OnRecord, Numbered, HasUID, Grows, Shows, Suppressed, OperationOnRecord,
      OperationID, EntryID, OperationKey, OperationFinish;
    var f, s := Polling(v), Reach(Polling(v), moves);
    if b, i, n :| b in Worked(f, s) && IsEntry(v.clusters(b), i, n, uid, id) &&
                  LeftToOperation(s.db, v, v.clusters(b)[i], n, v.clock(b)) {
      ClusterHasUID(v, b, i);
      SuppressedHasOperation(v.clusters(b)[i].history[n], v.clusters(b)[i], v.clock(b));
      OperationItself(s.db, v, v.clusters(b)[i], v.clock(b), false);
    }
  }

  lemma NumberedIsPositive(v: Watch, a: nat, uid: string, id: int)
    requires Numbered(v, uid) && Shows(v.clusters(a), uid, id)
    ensures id > 0
  {
  }

  // Such clusters: an application whose latest deployments are listed, numbered upwards, while all else changes.

  function Rolling(app: Application, lo: nat, hi: nat, revision: nat -> string, date: nat -> int): Application
    requires lo <= hi
  {
    app.(history := seq(hi - lo, i requires 0 <= i < hi - lo =>
                                   HistoryEntry(lo + i, revision(lo + i), date(lo + i), 0)))
  }

  lemma RollingShows(app: Application, lo: nat, hi: nat, revision: nat -> string, date: nat -> int, uid: string,
                     id: int)
    requires lo <= hi
    ensures Shows([Rolling(app, lo, hi, revision, date)], uid, id) <==> Trim(app.uid) == uid && lo <= id < hi
  {
    hide Trim;
    var apps := [Rolling(app, lo, hi, revision, date)];
    if Trim(app.uid) == uid && lo <= id < hi { assert IsEntry(apps, 0, id - lo, uid, id); }
  }

  lemma RollingIsProper(app: Application, lo: nat, hi: nat, revision: nat -> string, date: nat -> int, now: int)
    requires lo <= hi && HasUID(app) && Trim(app.name) != "" && now != 0
    ensures var r := Rolling(app, lo, hi, revision, date); Proper([r], now) && OrderedHistory(r)
  {
    hide Trim;
  }

  lemma RollingHistoryGrows(v: Watch, app: nat -> Application, lo: nat -> nat, hi: nat -> nat, revision: nat -> string,
                            date: nat -> int)
    requires forall a: nat :: lo(a) <= hi(a)
    requires forall a: nat, b: nat :: a <= b ==> lo(a) <= lo(b) && hi(a) <= hi(b)
    requires forall a: nat :: HasUID(app(a)) && Trim(app(a).name) != "" && v.clock(a) != 0
    requires forall a: nat :: v.clusters(a) == [Rolling(app(a), lo(a), hi(a), revision, date)]
    ensures AllProper(v) && Grows(v)
  {
    hide Trim, HasUID, Rolling, Proper, OrderedHistory, Shows;
    forall a: nat ensures Proper(v.clusters(a), v.clock(a)) && forall x :: x in v.clusters(a) ==> OrderedHistory(x) {
      RollingIsProper(app(a), lo(a), hi(a), revision, date, v.clock(a));
    }
    forall a: nat, b: nat, uid, id, last | a < b && Shows(v.clusters(b), uid, id) && Shows(v.clusters(a), uid, last) &&
                                           0 < id <= last
      ensures Shows(v.clusters(a), uid, id)
    {
      RollingShows(app(b), lo(b), hi(b), revision, date, uid, id);
      RollingShows(app(a), lo(a), hi(a), revision, date, uid, last);
      RollingShows(app(a), lo(a), hi(a), revision, date, uid, id);
    }
  }
}
