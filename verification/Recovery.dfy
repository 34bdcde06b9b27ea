/** Crash recovery of the polling collector. The store is durable, the cursors live in memory and are saved
    at the end of each poll; a crash may come at any point, also between a write and its cursor advance, any
    number of times. A restarted collector reloads the saved cursors and polls the same batch again. */
module Recovery {
  import opened Keyset
  import opened CloudEvents
  import opened Store
  import opened Collector

  /** What a store holds, ingestion times aside. */
  ghost function Content(db: Db): Db {
    map id | id in db :: db[id].(ingestedAt := 0)
  }

  ghost predicate SameContent(a: State, b: State) {
    a.cursors == b.cursors && Content(a.db) == Content(b.db)
  }

  lemma IngestSameContent(a: Db, b: Db, e: StoredEvent, now: int, now': int)
    requires Content(a) == Content(b)
    ensures IngestInto(a, e, now).outcome == IngestInto(b, e, now').outcome
    ensures Content(IngestInto(a, e, now).db) == Content(IngestInto(b, e, now').db)
  {
    hide ValidStored, IntegrityHash;
    assert a.Keys == Content(a).Keys == Content(b).Keys == b.Keys;
    if e.id in a {
      assert Content(a)[e.id].integrity == a[e.id].integrity && Content(b)[e.id].integrity == b[e.id].integrity;
    } else {
      var a', b' := IngestInto(a, e, now).db, IngestInto(b, e, now').db;
      forall id | id in a' ensures Content(a')[id] == Content(b')[id] {
        if id != e.id { assert Content(a)[id] == Content(b)[id]; }
      }
    }
  }

  lemma HandleSameContent(a: State, b: State, se: SourceEvent, norm: Normalizer, now: int, now': int)
    requires SameContent(a, b)
    ensures SameContent(Handle(a, se, norm, now), Handle(b, se, norm, now'))
  {
    hide IngestInto, ShouldProcess, Advance, Content;
    if norm(se).Some? { IngestSameContent(a.db, b.db, norm(se).value, now, now'); }
  }

  /** The clock decides ingestion times and nothing else. */
  lemma {:induction false} PollIgnoresClock(a: State, b: State, batch: seq<SourceEvent>, norm: Normalizer,
                                            clock: nat -> int, clock': nat -> int, k: nat)
    requires SameContent(a, b) && k <= |batch|
    ensures SameContent(After(a, batch, norm, clock, k), After(b, batch, norm, clock', k))
    decreases k
  {
    hide Handle, SameContent;
    if k > 0 {
      PollIgnoresClock(a, b, batch, norm, clock, clock', k - 1);
      HandleSameContent(After(a, batch, norm, clock, k - 1), After(b, batch, norm, clock', k - 1),
                        batch[k - 1], norm, clock(k - 1), clock'(k - 1));
    }
  }

  // The collector as a step machine.

  /** What the outside supplies: the state before the first poll, the batch each poll fetches, the normaliser. */
  datatype World = World(start: State, batches: nat -> seq<SourceEvent>, norm: Normalizer)

  /** `poll` counts saved polls; `pos` events of the current batch have been handled since the last (re)start. */
  datatype Machine = Machine(cursors: Cursors, db: Db, saved: Cursors, poll: nat, pos: nat)

  datatype Action =
    | HandleNext(now: int)
    | SaveCheckpoint
    | Crash
    | CrashAfterWrite(now: int)

  function Step(w: World, s: Machine, a: Action): Machine {
    var batch := w.batches(s.poll);
    match a
    case HandleNext(now) =>
      if s.pos >= |batch| then s
      else
        var st := Handle(State(s.cursors, s.db), batch[s.pos], w.norm, now);
        s.(cursors := st.cursors, db := st.db, pos := s.pos + 1)
    case SaveCheckpoint =>
      if s.pos < |batch| then s else s.(saved := s.cursors, poll := s.poll + 1, pos := 0)
    case Crash =>
      s.(cursors := s.saved, pos := 0)
    case CrashAfterWrite(now) =>
      if s.pos >= |batch| then s
      else s.(cursors := s.saved, db := Handle(State(s.cursors, s.db), batch[s.pos], w.norm, now).db, pos := 0)
  }

  function Execute(w: World, actions: seq<Action>): Machine {
    if actions == [] then Machine(w.start.cursors, w.start.db, w.start.cursors, 0, 0)
    else Step(w, Execute(w, actions[..|actions| - 1]), actions[|actions| - 1])
  }

  // The crash-free run it is compared with.

  function Smooth(w: World, polls: nat): State {
    if polls == 0 then w.start else Poll(Smooth(w, polls - 1), w.batches(polls - 1), w.norm, _ => 0)
  }

  function SmoothAt(w: World, polls: nat, k: nat): State
    requires k <= |w.batches(polls)|
  {
    After(Smooth(w, polls), w.batches(polls), w.norm, _ => 0, k)
  }

  /** The cursors are those of the crash-free run at `pos`; the store is ahead, at some `reached` >= pos. */
  ghost predicate OnTrack(w: World, s: Machine, reached: nat) {
    && s.pos <= reached <= |w.batches(s.poll)|
    && s.saved == Smooth(w, s.poll).cursors
    && s.cursors == SmoothAt(w, s.poll, s.pos).cursors
    && Content(s.db) == Content(SmoothAt(w, s.poll, reached).db)
  }

  /** Handling an event again, on a store that already went further, repeats its effect on the cursors and
      leaves the store alone. */
  lemma ReplayOne(w: World, s: Machine, reached: nat, now: int)
    requires OnTrack(w, s, reached) && s.pos < reached
    ensures var st := Handle(State(s.cursors, s.db), w.batches(s.poll)[s.pos], w.norm, now);
            st.cursors == SmoothAt(w, s.poll, s.pos + 1).cursors && Content(st.db) == Content(s.db)
  {
    hide ShouldProcess, IngestInto, Advance, Smooth, After, Content;
    var batch, start := w.batches(s.poll), Smooth(w, s.poll);
    var here, next, far := SmoothAt(w, s.poll, s.pos), SmoothAt(w, s.poll, s.pos + 1), SmoothAt(w, s.poll, reached);
    var se := batch[s.pos];
    SmoothStep(w, s.poll, s.pos);
    AfterExtends(start, batch, w.norm, _ => 0, s.pos + 1, reached);
    if ShouldProcess(here.cursors, se) && w.norm(se).Some? {
      var e := w.norm(se).value;
      IngestAgain(here.db, e, 0, far.db, now);
      IngestSameContent(s.db, far.db, e, now, now);
    }
  }

  lemma SmoothStep(w: World, polls: nat, k: nat)
    requires k < |w.batches(polls)|
    ensures SmoothAt(w, polls, k + 1) == Handle(SmoothAt(w, polls, k), w.batches(polls)[k], w.norm, 0)
  {
    hide Handle, Smooth;
  }

  lemma FreshOne(w: World, s: Machine, now: int)
    requires s.pos < |w.batches(s.poll)| && OnTrack(w, s, s.pos)
    ensures SameContent(Handle(State(s.cursors, s.db), w.batches(s.poll)[s.pos], w.norm, now),
                        SmoothAt(w, s.poll, s.pos + 1))
  {
    hide Handle, Smooth, After, Content;
    SmoothStep(w, s.poll, s.pos);
    HandleSameContent(State(s.cursors, s.db), SmoothAt(w, s.poll, s.pos), w.batches(s.poll)[s.pos], w.norm, now, 0);
  }

  /** Every step keeps the machine on track. */
  lemma StepOnTrack(w: World, s: Machine, a: Action, reached: nat) returns (reached': nat)
    requires OnTrack(w, s, reached)
    ensures OnTrack(w, Step(w, s, a), reached')
  {
    hide Handle, Smooth, Content;
    reached' := reached;
    var size := |w.batches(s.poll)|;
    match a {
      case HandleNext(now) =>
        if s.pos < reached {
          ReplayOne(w, s, reached, now);
        } else if s.pos < size {
          FreshOne(w, s, now);
          reached' := s.pos + 1;
        }
      case CrashAfterWrite(now) =>
        if s.pos < reached {
          ReplayOne(w, s, reached, now);
        } else if s.pos < size {
          FreshOne(w, s, now);
          reached' := s.pos + 1;
        }
      case SaveCheckpoint =>
        if s.pos >= size {
          SmoothPoll(w, s.poll);
          reached' := 0;
        }
      case Crash =>
    }
  }

  lemma SmoothPoll(w: World, polls: nat)
    ensures Smooth(w, polls + 1) == SmoothAt(w, polls, |w.batches(polls)|)
  {
    hide After;
  }

  /** In every reachable state of the crashing collector, for every placement of crashes: what was saved is
      the crash-free cursors, the cursors are the crash-free ones at the current position, and the store holds
      what the crash-free store holds at the same or a later position. */
  lemma {:induction false} CrashRecovery(w: World, actions: seq<Action>) returns (reached: nat)
    ensures OnTrack(w, Execute(w, actions), reached)
  {
    hide Step;
    if actions == [] {
      reached := 0;
    } else {
      var before := CrashRecovery(w, actions[..|actions| - 1]);
      reached := StepOnTrack(w, Execute(w, actions[..|actions| - 1]), actions[|actions| - 1], before);
    }
  }

  /** So whenever a batch has been worked through, nothing is lost, duplicated or out of place: cursors and
      store are those of the uninterrupted polls, ingestion times aside. */
  lemma EveryPollEndsAsIfUninterrupted(w: World, actions: seq<Action>)
    ensures var s := Execute(w, actions);
            s.pos == |w.batches(s.poll)| ==> SameContent(State(s.cursors, s.db), Smooth(w, s.poll + 1))
    ensures var s := Execute(w, actions);
            && s.saved == Smooth(w, s.poll).cursors
            && Extends(Content(Smooth(w, s.poll).db), Content(s.db))
            && Extends(Content(s.db), Content(Smooth(w, s.poll + 1).db))
  {
    hide Step, Handle, Smooth;
    var reached := CrashRecovery(w, actions);
    var s := Execute(w, actions);
    SmoothPoll(w, s.poll);
    var batch, start := w.batches(s.poll), Smooth(w, s.poll);
    AfterExtends(start, batch, w.norm, _ => 0, 0, reached);
    AfterExtends(start, batch, w.norm, _ => 0, reached, |batch|);
  }
}
