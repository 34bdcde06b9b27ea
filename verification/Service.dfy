/** The service object: writes that purge the change cache, cached event queries, and batch posting. */
module Service {
  import opened Text
  import opened Keyset
  import opened CloudEvents
  import opened Store
  import opened Projection
  import opened ChangeList
  import opened QueryCache
  import opened CacheRuns

  datatype Cached = Cached(events: seq<StoredEvent>, addedAt: int)

  function EventsAsked(q: ChangeQuery): EventQuery {
    EventQuery(q.subject, q.from, q.to, q.q)
  }

  class ChangeService {
    const repo: MemoryRepository
    var changeCache: map<string, Cached>
    /** The query each cached answer was computed for. */
    ghost var askedFor: map<string, EventQuery>

    /** While the service is the only writer: each cached answer is what its query would be answered now. */
    ghost predicate Valid()
      reads this, repo
    {
      && repo.Valid()
      && changeCache.Keys == askedFor.Keys
      && forall k :: k in changeCache ==>
         CacheKey(askedFor[k]) == k && changeCache[k].events == Fresh(repo.events, askedFor[k])
    }

    constructor (repo: MemoryRepository)
      requires repo.Valid()
      ensures Valid() && this.repo == repo && changeCache == map[]
    {
      this.repo := repo;
      changeCache, askedFor := map[], map[];
    }

    method IngestEvent(e: StoredEvent, now: int) returns (outcome: Outcome, at: int)
      requires Valid()
      modifies this, repo
      ensures Valid() && Extends(old(repo.events), repo.events)
      ensures Ingested(repo.events, outcome, at) == IngestInto(old(repo.events), e, now)
      ensures if outcome.Ok() then changeCache == map[]
                else changeCache == old(changeCache) && askedFor == old(askedFor)
    {
      outcome, at := repo.IngestEvent(e, now);
      if outcome.Ok() {
        changeCache, askedFor := map[], map[];
      }
    }

    /** The cache may drop any entries at any time: capacity, expiry. */
    method Forget(keep: string -> bool)
      requires Valid()
      modifies this
      ensures Valid() && changeCache.Keys <= old(changeCache).Keys
      ensures forall k :: k in askedFor ==> k in old(askedFor) && askedFor[k] == old(askedFor)[k]
    {
      changeCache := map k | k in changeCache && keep(k) :: changeCache[k];
      askedFor := map k | k in askedFor && keep(k) :: askedFor[k];
    }

    /** The answer is the uncached one for some query with the same key, hence the uncached one for this
        query whenever keyable queries are all the cache has been asked. */
    method EventsForChangeQuery(q: EventQuery, now: int) returns (events: seq<StoredEvent>)
      requires Valid()
      modifies this
      ensures Valid()
      ensures exists asked :: CacheKey(asked) == CacheKey(q) && events == Fresh(repo.events, asked)
      ensures Keyable(q) && (forall k :: k in old(askedFor) ==> Keyable(old(askedFor)[k])) ==>
                events == Fresh(repo.events, q) && forall k :: k in askedFor ==> Keyable(askedFor[k])
      ensures var key, cache := CacheKey(q), old(changeCache);
              if key in cache && now - cache[key].addedAt <= 10_000_000_000 then
                events == cache[key].events && changeCache == cache
              else changeCache == cache[key := Cached(events, now)]
    {
      hide Fresh, Keyable, CacheKey;
      var key := CacheKey(q);
      if key in changeCache && now <= changeCache[key].addedAt + TTL {
        if Keyable(q) && Keyable(askedFor[key]) { SameKeySameAnswer(repo.events, q, askedFor[key]); }
        assert CacheKey(askedFor[key]) == CacheKey(q) && changeCache[key].events == Fresh(repo.events, askedFor[key]);
        return changeCache[key].events;
      }
      events := Uncached(repo, q);
      changeCache := changeCache[key := Cached(events, now)];
      askedFor := askedFor[key := q];
    }

    /** The change list of a query: the cached events, projected, filtered, ordered and cut to a page. */
    method ListChanges(q: ChangeQuery, lib: Library, now: int)
      returns (page: ChangePage, ghost events: seq<StoredEvent>, ghost byID: map<string, ChangeDetail>)
      requires Valid()
      modifies this
      ensures Valid()
      ensures forall id :: id in byID <==> Group(events, id, lib) != []
      ensures forall id :: id in byID ==> Describes(byID[id], Group(events, id, lib), lib, now)
      ensures KeyedByID(byID) && page == ChangesPage(byID, q)
      ensures var asked := EventQuery(q.subject, q.from, q.to, q.q);
              Keyable(asked) && (forall k :: k in old(askedFor) ==> Keyable(old(askedFor)[k])) ==>
                events == Fresh(repo.events, asked)
    {
      hide Fresh, Keyable, CacheKey, Describes, Group, KeyedByID, ChangesPage;
      var found := EventsForChangeQuery(EventsAsked(q), now);
      var built := BuildChangesByID(found, lib, now);
      BuiltIsKeyed(found, lib, now, built);
      page := ChangeList.ListChanges(built, q);
      events, byID := found, built;
    }

    /** Post a parsed batch: the first event that is neither accepted nor duplicate ends it. */
    method HandleEvents(batch: seq<StoredEvent>, clock: seq<int>)
      returns (accepted: nat, duplicates: nat, outcome: Outcome)
      requires Valid() && |clock| == |batch|
      modifies this, repo
      ensures Valid()
      ensures Posted(repo.events, accepted + duplicates, outcome) == Post(old(repo.events), batch, clock)
      ensures accepted == |repo.events| - |old(repo.events)|
    {
      accepted, duplicates, outcome := 0, 0, Accepted;
      assert batch[0..] == batch && clock[0..] == clock;
      hide IngestInto, Valid;
      ghost var all := Post(repo.events, batch, clock);
      for i := 0 to |batch|
        invariant Valid() && accepted + duplicates == i && outcome == Accepted
        invariant all == var rest := Post(repo.events, batch[i..], clock[i..]); rest.(stopped := rest.stopped + i)
        invariant accepted == |repo.events| - |old(repo.events)|
      {
        PostStep(repo.events, batch, clock, i);
        IngestGrows(repo.events, batch[i], clock[i]);
        var status, _ := IngestEvent(batch[i], clock[i]);
        if !status.Ok() {
          return accepted, duplicates, status;
        }
        if status.Duplicate? {
          duplicates := duplicates + 1;
        } else {
          accepted := accepted + 1;
        }
      }
    }
  }

  /** The query of the store behind the cache. */
  method Uncached(repo: MemoryRepository, q: EventQuery) returns (events: seq<StoredEvent>)
    requires repo.Valid()
    ensures events == Fresh(repo.events, q)
  {
    var res := repo.QueryTimeline(TimelineFor(q));
    events := res.items;
    if Trim(q.text) != "" {
      events := FilterByText(events, q.text);
    }
  }

  method FilterByText(events: seq<StoredEvent>, text: string) returns (out: seq<StoredEvent>)
    ensures out == TextFilter(events, text)
  {
    hide EventMatches;
    var needle := Lower(Trim(text));
    out := [];
    for i := 0 to |events|
      invariant out == TextFilter(events[..i], text)
    {
      assert events[..i + 1][..i] == events[..i];
      if EventMatches(events[i], needle) {
        out := out + [events[i]];
      }
    }
    assert events[..|events|] == events;
  }
}
