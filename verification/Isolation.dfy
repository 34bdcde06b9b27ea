/** Applications do not interfere: how a fetched batch interleaves the events of different applications
    makes no difference to any cursor or to the store. */
module Isolation {
  import opened Keyset
  import opened CloudEvents
  import opened Store
  import opened Collector
  import opened Recovery

  /** The events of one application, in order. */
  function Only(batch: seq<SourceEvent>, app: string): seq<SourceEvent> {
    if batch == [] then []
    else
      var last := batch[|batch| - 1];
      Only(batch[..|batch| - 1], app) + (if AppKey(last) == app then [last] else [])
  }

  predicate Produces(se: SourceEvent, norm: Normalizer, id: string) {
    norm(se).Some? && norm(se).value.id == id
  }

  /** No two applications of the batch produce the same stored ID. */
  ghost predicate DisjointIDs(batch: seq<SourceEvent>, norm: Normalizer) {
    forall i, j, id {:trigger Produces(batch[i], norm, id), Produces(batch[j], norm, id)} ::
      0 <= i < |batch| && 0 <= j < |batch| && Produces(batch[i], norm, id) && Produces(batch[j], norm, id) ==>
        AppKey(batch[i]) == AppKey(batch[j])
  }

  /** Every event of the batch that produces `id` belongs to `app`. */
  ghost predicate Private(batch: seq<SourceEvent>, norm: Normalizer, app: string, id: string) {
    forall i :: 0 <= i < |batch| && Produces(batch[i], norm, id) ==> AppKey(batch[i]) == app
  }

  function Seen(db: Db, id: string): Option<StoredEvent> {
    if id in db then Some(db[id].(ingestedAt := 0)) else None
  }

  /** Two states agree on what concerns an application: its cursor, and the rows only it can write. */
  ghost predicate Agree(a: State, b: State, batch: seq<SourceEvent>, norm: Normalizer, app: string) {
    && Lookup(a.cursors, app) == Lookup(b.cursors, app)
    && forall id :: Private(batch, norm, app, id) ==> Seen(a.db, id) == Seen(b.db, id)
  }

  /** One event reads and writes its own cursor and its own row. */
  lemma HandleLocal(st: State, se: SourceEvent, norm: Normalizer, now: int, app: string, id: string)
    ensures AppKey(se) != app ==> Lookup(Handle(st, se, norm, now).cursors, app) == Lookup(st.cursors, app)
    ensures !Produces(se, norm, id) ==> Seen(Handle(st, se, norm, now).db, id) == Seen(st.db, id)
  {
    hide ShouldProcess, ValidStored, IntegrityHash, MoveCursor;
  }

  lemma HandleAgrees(a: State, b: State, se: SourceEvent, norm: Normalizer, now: int, now': int)
    requires Lookup(a.cursors, AppKey(se)) == Lookup(b.cursors, AppKey(se))
    requires norm(se).Some? ==> Seen(a.db, norm(se).value.id) == Seen(b.db, norm(se).value.id)
    ensures var a', b' := Handle(a, se, norm, now), Handle(b, se, norm, now');
            && Lookup(a'.cursors, AppKey(se)) == Lookup(b'.cursors, AppKey(se))
            && (norm(se).Some? ==> Seen(a'.db, norm(se).value.id) == Seen(b'.db, norm(se).value.id))
  {
    hide CursorAdmits, ValidStored, IntegrityHash, MoveCursor, AppKey;
    assert CursorOf(a.cursors, AppKey(se)) == CursorOf(b.cursors, AppKey(se));
    if norm(se).Some? && norm(se).value.id in a.db {
      var id := norm(se).value.id;
      assert a.db[id].(ingestedAt := 0).integrity == a.db[id].integrity;
      assert b.db[id].(ingestedAt := 0).integrity == b.db[id].integrity;
    }
  }

  /** Polling a prefix of the batch and polling only the application's events of it agree on the application. */
  lemma {:induction false} PollProjects(st: State, batch: seq<SourceEvent>, k: nat, norm: Normalizer, clock: nat -> int,
                                        app: string)
    requires k <= |batch| && DisjointIDs(batch, norm)
    ensures Agree(Poll(st, batch[..k], norm, clock), Poll(st, Only(batch[..k], app), norm, clock), batch, norm, app)
    decreases k
  {
    hide Handle, AppKey;
    if k > 0 {
      PollProjects(st, batch, k - 1, norm, clock, app);
      var se, shorter := batch[k - 1], batch[..k - 1];
      assert batch[..k][..k - 1] == shorter && batch[..k][k - 1] == se;
      PollSnoc(st, shorter, se, norm, clock);
      assert batch[..k] == shorter + [se];
      var a, b := Poll(st, shorter, norm, clock), Poll(st, Only(shorter, app), norm, clock);
      if AppKey(se) == app {
        PollSnoc(st, Only(shorter, app), se, norm, clock);
        ProducedIsPrivate(batch, k - 1, norm);
        StepAgrees(a, b, batch, k - 1, norm, clock(k - 1), clock(|Only(shorter, app)|));
      } else {
        assert Only(batch[..k], app) == Only(shorter, app);
        StepIgnored(a, b, batch, k - 1, norm, clock(k - 1), app);
      }
    }
  }

  lemma {:induction false} PrefixOnly(st: State, batch: seq<SourceEvent>, se: SourceEvent, norm: Normalizer,
                                      clock: nat -> int, k: nat)
    requires k <= |batch|
    ensures After(st, batch + [se], norm, clock, k) == After(st, batch, norm, clock, k)
    decreases k
  {
    hide Handle;
    if k > 0 { PrefixOnly(st, batch, se, norm, clock, k - 1); }
  }

  lemma PollSnoc(st: State, batch: seq<SourceEvent>, se: SourceEvent, norm: Normalizer, clock: nat -> int)
    ensures Poll(st, batch + [se], norm, clock) == Handle(Poll(st, batch, norm, clock), se, norm, clock(|batch|))
  {
    hide Handle;
    PrefixOnly(st, batch, se, norm, clock, |batch|);
  }

  lemma ProducedIsPrivate(batch: seq<SourceEvent>, i: nat, norm: Normalizer)
    requires i < |batch| && DisjointIDs(batch, norm)
    ensures norm(batch[i]).Some? ==> Private(batch, norm, AppKey(batch[i]), norm(batch[i]).value.id)
  {
    hide AppKey;
    if norm(batch[i]).Some? {
      assert Produces(batch[i], norm, norm(batch[i]).value.id);
    }
  }

  /** An event of the application keeps the two states in agreement... */
  lemma StepAgrees(a: State, b: State, batch: seq<SourceEvent>, i: nat, norm: Normalizer, now: int, now': int)
    requires i < |batch| && Agree(a, b, batch, norm, AppKey(batch[i]))
    requires norm(batch[i]).Some? ==> Private(batch, norm, AppKey(batch[i]), norm(batch[i]).value.id)
    ensures Agree(Handle(a, batch[i], norm, now), Handle(b, batch[i], norm, now'), batch, norm, AppKey(batch[i]))
  {
    hide Handle, AppKey, Lookup, Seen, Private;
    var se := batch[i];
    HandleAgrees(a, b, se, norm, now, now');
    forall id | Private(batch, norm, AppKey(se), id)
      ensures Seen(Handle(a, se, norm, now).db, id) == Seen(Handle(b, se, norm, now').db, id)
    {
      HandleLocal(a, se, norm, now, AppKey(se), id);
      HandleLocal(b, se, norm, now', AppKey(se), id);
    }
  }

  /** ...and an event of another application touches nothing they must agree on. */
  lemma StepIgnored(a: State, b: State, batch: seq<SourceEvent>, i: nat, norm: Normalizer, now: int, app: string)
    requires i < |batch| && AppKey(batch[i]) != app && Agree(a, b, batch, norm, app)
    ensures Agree(Handle(a, batch[i], norm, now), b, batch, norm, app)
  {
    hide Handle, AppKey, Lookup, Seen;
    forall id | Private(batch, norm, app, id) ensures Seen(Handle(a, batch[i], norm, now).db, id) == Seen(b.db, id) {
      HandleLocal(a, batch[i], norm, now, app, id);
    }
    HandleLocal(a, batch[i], norm, now, app, "");
  }

  lemma {:induction false} OnlyKeeps(batch: seq<SourceEvent>, se: SourceEvent)
    ensures se in batch <==> se in Only(batch, AppKey(se))
  {
    hide AppKey;
    if batch != [] {
      OnlyKeeps(batch[..|batch| - 1], se);
      assert batch == batch[..|batch| - 1] + [batch[|batch| - 1]];
    }
  }

  /** Who produces an ID is decided by the events in a batch, not by their order. */
  lemma SameMembers(b1: seq<SourceEvent>, b2: seq<SourceEvent>, norm: Normalizer)
    requires forall app :: Only(b1, app) == Only(b2, app)
    ensures forall se :: se in b1 <==> se in b2
    ensures DisjointIDs(b1, norm) ==> DisjointIDs(b2, norm)
    ensures forall app, id :: Private(b1, norm, app, id) <==> Private(b2, norm, app, id)
  {
    hide AppKey, Produces;
    forall se ensures se in b1 <==> se in b2 {
      OnlyKeeps(b1, se);
      OnlyKeeps(b2, se);
    }
    assert forall i :: 0 <= i < |b1| ==> b1[i] in b2;
    assert forall i :: 0 <= i < |b2| ==> b2[i] in b1;
  }

  /** Any two interleavings of the same per-application sequences leave the same cursors and the same store. */
  lemma InterleavingIrrelevant(st: State, b1: seq<SourceEvent>, b2: seq<SourceEvent>, norm: Normalizer, c1: nat -> int,
                               c2: nat -> int)
    requires DisjointIDs(b1, norm)
    requires forall app :: Only(b1, app) == Only(b2, app)
    ensures SameContent(Poll(st, b1, norm, c1), Poll(st, b2, norm, c2))
  {
    hide AppKey, Produces, Poll, Only, DisjointIDs;
    SameMembers(b1, b2, norm);
    var s1, s2 := Poll(st, b1, norm, c1), Poll(st, b2, norm, c2);
    forall app
      ensures Lookup(s1.cursors, app) == Lookup(s2.cursors, app)
      ensures forall id :: Private(b1, norm, app, id) ==> Seen(s1.db, id) == Seen(s2.db, id)
    {
      ProjectionsMeet(st, b1, b2, norm, c1, c2, app);
    }
    assert forall app :: app in s1.cursors <==> Lookup(s1.cursors, app).Some?;
    assert forall app :: app in s2.cursors <==> Lookup(s2.cursors, app).Some?;
    assert s1.cursors == s2.cursors;
    forall id ensures Seen(s1.db, id) == Seen(s2.db, id) {
      var app := Owner(b1, norm, id);
      assert Lookup(s1.cursors, app) == Lookup(s2.cursors, app);
    }
    SeenIsContent(s1.db, s2.db);
  }

  lemma ProjectionsMeet(st: State, b1: seq<SourceEvent>, b2: seq<SourceEvent>, norm: Normalizer, c1: nat -> int,
                        c2: nat -> int, app: string)
    requires DisjointIDs(b1, norm) && DisjointIDs(b2, norm)
    requires Only(b1, app) == Only(b2, app)
    requires forall id :: Private(b1, norm, app, id) <==> Private(b2, norm, app, id)
    ensures Agree(Poll(st, b1, norm, c1), Poll(st, b2, norm, c2), b1, norm, app)
  {
    hide AppKey, Produces, Only, DisjointIDs, Handle, Private;
    assert b1[..|b1|] == b1 && b2[..|b2|] == b2;
    PollProjects(st, b1, |b1|, norm, c1, app);
    PollProjects(st, b2, |b2|, norm, c2, app);
    var only := Only(b1, app);
    PollIgnoresClock(st, st, only, norm, c1, c2, |only|);
    ContentIsSeen(Poll(st, only, norm, c1).db, Poll(st, only, norm, c2).db);
  }

  lemma ContentIsSeen(a: Db, b: Db)
    requires Content(a) == Content(b)
    ensures forall id :: Seen(a, id) == Seen(b, id)
  {
    forall id ensures Seen(a, id) == Seen(b, id) {
      assert id in a <==> id in Content(a);
      assert id in b <==> id in Content(b);
      if id in a { assert Content(a)[id] == Content(b)[id]; }
    }
  }

  lemma SeenIsContent(a: Db, b: Db)
    requires forall id :: Seen(a, id) == Seen(b, id)
    ensures Content(a) == Content(b)
  {
    assert forall id :: id in a <==> Seen(a, id).Some?;
    assert forall id :: id in b <==> Seen(b, id).Some?;
    forall id | id in a ensures Content(a)[id] == Content(b)[id] {
      assert Seen(a, id) == Seen(b, id);
    }
  }

  lemma Owner(batch: seq<SourceEvent>, norm: Normalizer, id: string) returns (app: string)
    requires DisjointIDs(batch, norm)
    ensures Private(batch, norm, app, id)
  {
    app := "";
    if i :| 0 <= i < |batch| && Produces(batch[i], norm, id) {
      app := AppKey(batch[i]);
    }
  }
}
