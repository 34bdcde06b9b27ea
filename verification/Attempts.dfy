/** The polling collector over a cluster that moves on while it runs, fails and restarts. Every fetch is an
    attempt with a batch of its own: after a crash the next attempt sees whatever the cluster has become. The
    store is durable, the cursors live in memory, the saved ones on disk, where they may be lost. */
module Attempts {
  import opened Keyset
  import opened CloudEvents
  import opened Store
  import opened Collector

  /** What the outside supplies: the state before the first attempt, the batch each attempt fetches. */
  datatype Feed = Feed(start: State, batches: nat -> seq<SourceEvent>, norm: Normalizer)

  /** `pos` events of the current attempt's batch have been handled; `worked` are the attempts, over or not,
      whose batch was worked through. */
  datatype Progress = Progress(cursors: Cursors, db: Db, saved: Cursors, attempt: nat, pos: nat, over: set<nat>)

  /** CheckpointLost is a file removed or made unreadable: a restart then begins without cursors. */
  datatype Move =
    | HandleNext(now: int)
    | SaveCheckpoint
    | SaveFails
    | FetchFails
    | CheckpointLost
    | Crash
    | CrashAfterWrite(now: int)

  /** The attempts whose batch has been worked through, with or without a checkpoint saved after it. */
  function Worked(f: Feed, s: Progress): set<nat> {
    if s.pos == |f.batches(s.attempt)| then s.over + {s.attempt} else s.over
  }

  /** The next attempt, with these cursors in memory. */
  function Anew(f: Feed, s: Progress, cursors: Cursors): Progress {
    Progress(cursors, s.db, s.saved, s.attempt + 1, 0, Worked(f, s))
  }

  function Step(f: Feed, s: Progress, m: Move): Progress {
    var batch := f.batches(s.attempt);
    match m
    case HandleNext(now) =>
      if s.pos >= |batch| then s
      else
        var st := Handle(State(s.cursors, s.db), batch[s.pos], f.norm, now);
        s.(cursors := st.cursors, db := st.db, pos := s.pos + 1)
    case SaveCheckpoint => if s.pos < |batch| then s else Anew(f, s.(saved := s.cursors), s.cursors)
    case SaveFails => if s.pos < |batch| then s else Anew(f, s, s.cursors)
    case FetchFails => if s.pos > 0 then s else s.(attempt := s.attempt + 1)
    case CheckpointLost => s.(saved := map[])
    case Crash => Anew(f, s, s.saved)
    case CrashAfterWrite(now) =>
      if s.pos >= |batch| then s
      else
        var written := Handle(State(s.cursors, s.db), batch[s.pos], f.norm, now).db;
        Anew(f, s.(db := written, pos := s.pos + 1), s.saved)
  }

  function Reach(f: Feed, moves: seq<Move>): Progress {
    if moves == [] then Progress(f.start.cursors, f.start.db, f.start.cursors, 0, 0, {})
    else Step(f, Reach(f, moves[..|moves| - 1]), moves[|moves| - 1])
  }

  /** A crash between a write and its cursor advance is one after both: either way the cursors are lost. */
  lemma CrashAfterWriteIsCrash(f: Feed, s: Progress, now: int)
    requires s.pos < |f.batches(s.attempt)|
    ensures Step(f, s, CrashAfterWrite(now)) == Step(f, Step(f, s, HandleNext(now)), Crash)
  {
    hide Handle;
  }

  function Handles(clock: nat -> int, k: nat): (moves: seq<Move>)
    ensures |moves| == k && forall i :: 0 <= i < k ==> moves[i] == HandleNext(clock(i))
  {
    seq(k, i requires 0 <= i < k => HandleNext(clock(i)))
  }

  /** Moves that handle the first k events of a fresh attempt do what a poll does with them. */
  lemma {:induction false} HandlesAreAfter(f: Feed, moves: seq<Move>, clock: nat -> int, k: nat)
    requires Reach(f, moves).pos == 0 && k <= |f.batches(Reach(f, moves).attempt)|
    ensures var s, s' := Reach(f, moves), Reach(f, moves + Handles(clock, k));
            var end := After(State(s.cursors, s.db), f.batches(s.attempt), f.norm, clock, k);
            s' == s.(cursors := end.cursors, db := end.db, pos := k)
  {
    hide Handle;
    if k > 0 {
      HandlesAreAfter(f, moves, clock, k - 1);
      LastMove(f, moves + Handles(clock, k - 1), HandleNext(clock(k - 1)));
      assert moves + Handles(clock, k) == moves + Handles(clock, k - 1) + [HandleNext(clock(k - 1))];
    } else {
      assert moves + Handles(clock, 0) == moves;
    }
  }

  lemma LastMove(f: Feed, moves: seq<Move>, m: Move)
    ensures Reach(f, moves + [m]) == Step(f, Reach(f, moves), m)
  {
    hide Step;
    assert (moves + [m])[..|moves + [m]| - 1] == moves;
  }

  /** An attempt whose batch is handled and whose checkpoint is saved is one poll of that batch: it leaves the poll's
      cursors in memory and on disk and its rows in the store. */
  lemma AttemptIsPoll(f: Feed, moves: seq<Move>, clock: nat -> int)
    requires Reach(f, moves).pos == 0
    ensures var s := Reach(f, moves);
            var batch := f.batches(s.attempt);
            var end := Poll(State(s.cursors, s.db), batch, f.norm, clock);
            var s' := Reach(f, moves + Handles(clock, |batch|) + [SaveCheckpoint]);
            && s'.cursors == s'.saved == end.cursors && s'.db == end.db
            && s'.attempt == s.attempt + 1 && s'.pos == 0 && s.attempt in s'.over
  {
    var n := |f.batches(Reach(f, moves).attempt)|;
    HandlesAreAfter(f, moves, clock, n);
    LastMove(f, moves + Handles(clock, n), SaveCheckpoint);
    hide After, Reach, Handles;
  }

  /** A crash before the save loses what the attempt moved the cursors to, and nothing of the store. */
  lemma CrashLosesCursors(f: Feed, moves: seq<Move>)
    ensures var s, s' := Reach(f, moves), Reach(f, moves + [Crash]);
            && s'.cursors == s'.saved == s.saved && s'.db == s.db && s'.attempt == s.attempt + 1 && s'.pos == 0
  {
    LastMove(f, moves, Crash);
    hide Reach;
  }

  /** When the save fails the cursors stay in memory and the old ones on disk; without a fetch all stays; without
      the file nothing is saved. */
  lemma FailuresKeepRows(f: Feed, moves: seq<Move>)
    ensures var s := Reach(f, moves);
            && (s.pos >= |f.batches(s.attempt)| ==>
                  var t := Reach(f, moves + [SaveFails]);
                  t.cursors == s.cursors && t.saved == s.saved && t.db == s.db && t.attempt == s.attempt + 1)
            && (s.pos == 0 ==> Reach(f, moves + [FetchFails]) == s.(attempt := s.attempt + 1))
            && Reach(f, moves + [CheckpointLost]) == s.(saved := map[])
  {
    LastMove(f, moves, SaveFails);
    LastMove(f, moves, FetchFails);
    LastMove(f, moves, CheckpointLost);
    hide Reach;
  }

  /** A run does not depend on the times of writes it has not come to. */
  lemma {:induction false} LaterTimes(st: State, batch: seq<SourceEvent>, norm: Normalizer, clock: nat -> int,
                                      clock': nat -> int, k: nat)
    requires k <= |batch| && forall i: nat :: i < k ==> clock(i) == clock'(i)
    ensures After(st, batch, norm, clock, k) == After(st, batch, norm, clock', k)
    decreases k
  {
    hide Handle;
    if k > 0 { LaterTimes(st, batch, norm, clock, clock', k - 1); }
  }
}
