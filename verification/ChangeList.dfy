/** The change list: building, ordering, filtering and paging changes, newest first. */
module ChangeList {
  import opened Text
  import opened Keyset
  import opened CloudEvents
  import opened Store
  import opened Projection
  import opened Subjects

  datatype ChangeQuery = ChangeQuery(
    subject: Subject, from: int, to: int, q: string, resultStatus: string, healthStatus: string,
    externalChangeID: string, externalChangeIDState: string, ticketID: string, ticketIDState: string,
    approvalReference: string, hasApprovals: string, limit: int, cursor: CursorText)

  /** Completed-at descending, then ID ascending. */
  function ChangeKey(c: Change): Key { Key(-c.completedAt, c.id) }

  function ClampChangeLimit(n: int): (r: nat)
    ensures 1 <= r <= 500
  {
    if n <= 0 then 100 else if n > 500 then 500 else n
  }

  predicate StateAllows(state: string, value: string) {
    (Lower(Trim(state)) == "set" ==> Trim(value) != "") && (Lower(Trim(state)) == "unset" ==> Trim(value) == "")
  }

  predicate WantAllows(want: string, value: string) {
    Trim(want) == "" || EqualFold(value, Trim(want))
  }

  predicate Keeps(c: Change, q: ChangeQuery) {
    && (q.resultStatus == "" || c.result.Name() == q.resultStatus)
    && (q.healthStatus == "" || c.health.Name() == q.healthStatus)
    && StateAllows(q.externalChangeIDState, c.externalChangeID) && WantAllows(q.externalChangeID, c.externalChangeID)
    && StateAllows(q.ticketIDState, c.ticketID) && WantAllows(q.ticketID, c.ticketID)
    && WantAllows(q.approvalReference, c.approvalReference)
    && (Lower(Trim(q.hasApprovals)) == "yes" ==> c.hasApprovals)
    && (Lower(Trim(q.hasApprovals)) == "no" ==> !c.hasApprovals)
  }

  ghost function AllChanges(byID: map<string, ChangeDetail>): set<Change> {
    set id | id in byID :: byID[id].change
  }

  ghost predicate KeyedByID(byID: map<string, ChangeDetail>) {
    forall id :: id in byID ==> byID[id].change.id == id
  }

  lemma ChangesKeyed(byID: map<string, ChangeDetail>)
    requires KeyedByID(byID)
    ensures Keyed(AllChanges(byID), ChangeKey)
  {
  }

  /** The map built from events is keyed by the changes' own IDs. */
  lemma BuiltIsKeyed(events: seq<StoredEvent>, lib: Library, now: int, byID: map<string, ChangeDetail>)
    requires forall id :: id in byID ==> Describes(byID[id], Group(events, id, lib), lib, now)
    ensures KeyedByID(byID)
  {
    hide ChangeID, PrimaryProvider, Reference, RevisionOf, ExternalChangeIDOf, TicketIDOf, ApprovalReferenceOf,
      FirstNonEmpty, MergedResult, MergedHealth, LastKnown, FirstDegraded, SortedFrom, InferHealth;
    forall id | id in byID ensures byID[id].change.id == id {
      var g := Group(events, id, lib);
      assert g[0] in g;
    }
  }

  /** Ranging over the map in any order and sorting gives the one listing of its changes. */
  method BuildChanges(byID: map<string, ChangeDetail>) returns (out: seq<Change>)
    requires KeyedByID(byID)
    ensures IsListing(out, AllChanges(byID), ChangeKey)
  {
    var changes := map id | id in byID :: byID[id].change;
    var keep := (c: Change) => true;
    var items := CollectValues(changes, keep);
    ghost var collected := set id | id in changes && keep(changes[id]) :: changes[id];
    assert forall id :: id in byID ==> changes[id] in collected;
    assert forall id :: id in changes ==> byID[id].change in AllChanges(byID);
    assert AllChanges(byID) == collected;
    out := SortRows(items, ChangeKey);
    ChangesKeyed(byID);
    ListedAfterSort(out, items, AllChanges(byID), ChangeKey);
  }

  /** Keeping some rows of a listing, in order, lists the rows kept. */
  method FilterListing<T(!new)>(s: seq<T>, keep: T -> bool, ghost rows: set<T>, key: T -> Key) returns (out: seq<T>)
    requires IsListing(s, rows, key)
    ensures IsListing(out, (set x | x in rows && keep(x)), key)
  {
    out := [];
    for i := 0 to |s|
      invariant Increasing(out, key)
      invariant forall x :: x in out <==> x in s[..i] && keep(x)
      invariant forall j, x :: i <= j < |s| && x in out ==> Before(key(x), key(s[j]))
    {
      assert s[..i + 1] == s[..i] + [s[i]];
      if keep(s[i]) {
        out := out + [s[i]];
      }
    }
    assert s[..|s|] == s;
  }

  datatype ChangePage = ChangePage(items: seq<Change>, nextCursor: CursorText) | InvalidChangeCursor

  /** A decoded change cursor must carry an ID. */
  predicate CursorReadable(c: CursorText) {
    c.Blank? || (c.Encoded? && Trim(c.id) != "")
  }

  /** The key after which the page starts; times are negated like the rows'. */
  function ChangeCursorKey(c: CursorText): Option<Key> {
    if c.Encoded? && c.ts != 0 then Some(Key(-c.ts, c.id)) else None
  }

  function ChangeCursorFor(next: Option<Key>): CursorText {
    match next case None => Blank case Some(k) => Encoded(-k.time, k.id)
  }

  ghost function Kept(byID: map<string, ChangeDetail>, q: ChangeQuery): set<Change> {
    set c | c in AllChanges(byID) && Keeps(c, q)
  }

  ghost function ChangesPage(byID: map<string, ChangeDetail>, q: ChangeQuery): ChangePage
    requires KeyedByID(byID)
  {
    ChangesKeyed(byID);
    if !CursorReadable(q.cursor) then InvalidChangeCursor
    else
      var p := PageOf(Kept(byID, q), ChangeKey, ChangeCursorKey(q.cursor), ClampChangeLimit(q.limit));
      ChangePage(p.items, ChangeCursorFor(p.next))
  }

  method FilterChanges(changes: seq<Change>, q: ChangeQuery, ghost all: set<Change>) returns (out: seq<Change>)
    requires IsListing(changes, all, ChangeKey)
    ensures IsListing(out, (set c | c in all && Keeps(c, q)), ChangeKey)
  {
    hide Keeps;
    var keep := (c: Change) => Keeps(c, q);
    out := FilterListing(changes, keep, all, ChangeKey);
    assert (set c | c in all && Keeps(c, q)) == set c | c in all && keep(c);
  }

  method ApplyChangeCursor(changes: seq<Change>, cursor: CursorText, ghost kept: set<Change>) returns (out: seq<Change>)
    requires IsListing(changes, kept, ChangeKey) && cursor.Encoded? && cursor.ts != 0
    ensures IsListing(out, Rest(kept, ChangeKey, ChangeCursorKey(cursor)), ChangeKey)
  {
    var ts, id := cursor.ts, cursor.id;
    var keep := (c: Change) => c.completedAt < ts || (c.completedAt == ts && Less(id, c.id));
    out := FilterListing(changes, keep, kept, ChangeKey);
    assert forall c: Change :: keep(c) <==> Past(ChangeKey(c), Some(Key(-ts, id)));
    assert Rest(kept, ChangeKey, ChangeCursorKey(cursor)) == set c | c in kept && keep(c);
  }

  /** ListChanges after the events have been fetched and grouped. */
  method ListChanges(byID: map<string, ChangeDetail>, q: ChangeQuery) returns (page: ChangePage)
    requires KeyedByID(byID)
    ensures page == ChangesPage(byID, q)
  {
    hide Keeps, AllChanges, Trim, KeyedByID;
    var changes := BuildChanges(byID);
    changes := FilterChanges(changes, q, AllChanges(byID));
    ghost var kept := Kept(byID, q);
    assert Keyed(kept, ChangeKey) by { KeptKeyed(byID, q); }
    if !CursorReadable(q.cursor) {
      return InvalidChangeCursor;
    }
    ghost var rest := Rest(kept, ChangeKey, ChangeCursorKey(q.cursor));
    if q.cursor.Encoded? && q.cursor.ts != 0 {
      changes := ApplyChangeCursor(changes, q.cursor, kept);
    } else {
      assert rest == kept;
    }
    var limit: int := q.limit;
    if limit <= 0 { limit := 100; }
    if limit > 500 { limit := 500; }
    page := CutChanges(changes, limit, rest);
  }

  method CutChanges(changes: seq<Change>, limit: nat, ghost rest: set<Change>) returns (page: ChangePage)
    requires limit > 0 && Keyed(rest, ChangeKey) && IsListing(changes, rest, ChangeKey)
    ensures var p := Cut(Listing(rest, ChangeKey), ChangeKey, limit);
            page == ChangePage(p.items, ChangeCursorFor(p.next))
  {
    ListingUnique(changes, Listing(rest, ChangeKey), rest, ChangeKey);
    if |changes| > limit {
      var items := changes[..limit];
      var last := items[|items| - 1];
      return ChangePage(items, Encoded(last.completedAt, last.id));
    }
    return ChangePage(changes, Blank);
  }

  // Following the cursor over a fixed set of changes.

  datatype ListedChanges = ListedChanges(items: seq<Change>, open: CursorText, requests: nat)

  /** At most `requests` requests, each with the cursor of the page before. */
  ghost function BrowseChanges(byID: map<string, ChangeDetail>, q: ChangeQuery, requests: nat): ListedChanges
    requires KeyedByID(byID) && requests > 0
    decreases requests
  {
    match ChangesPage(byID, q)
    case InvalidChangeCursor => ListedChanges([], Malformed, 1)
    case ChangePage(items, next) =>
      if next.Blank? || requests == 1 then ListedChanges(items, next, 1)
      else
        var rest := BrowseChanges(byID, q.(cursor := next), requests - 1);
        ListedChanges(items + rest.items, rest.open, 1 + rest.requests)
  }

  /** Changes completed at a real instant, with IDs that survive in a cursor. */
  ghost predicate Pageable(byID: map<string, ChangeDetail>) {
    forall id :: id in byID ==> byID[id].change.completedAt != 0 && Trim(id) != ""
  }

  /** Changes built from stored events are pageable: events have times, and change IDs start with "chg_". */
  lemma BuiltIsPageable(events: seq<StoredEvent>, lib: Library, now: int, byID: map<string, ChangeDetail>)
    requires forall e :: e in events ==> ValidStored(e)
    requires forall id :: id in byID ==> Describes(byID[id], Group(events, id, lib), lib, now)
    ensures Pageable(byID)
  {
    hide Group, Describes, ValidStored, Trim;
    forall id | id in byID ensures byID[id].change.completedAt != 0 && Trim(id) != "" {
      DescribedIsPageable(byID[id], Group(events, id, lib), id, lib, now);
    }
  }

  lemma DescribedIsPageable(d: ChangeDetail, g: seq<StoredEvent>, id: string, lib: Library, now: int)
    requires Describes(d, g, lib, now) && forall e :: e in g ==> ValidStored(e) && ChangeID(e, lib) == id
    ensures d.change.completedAt != 0 && Trim(id) != ""
  {
    hide Summary, ValidStored, IdentityText, LastKnown, FirstDegraded, Sorted;
    SortedElements(d.events, g, d.events[|d.events| - 1]);
    StoredHasTime(d.events[|d.events| - 1]);
    assert g[0] in g && id[0] == 'c';
  }

  lemma {:induction false} BrowseChangesIsFollow(byID: map<string, ChangeDetail>, q: ChangeQuery, requests: nat)
    requires KeyedByID(byID) && Pageable(byID) && requests > 0 && CursorReadable(q.cursor)
    ensures var snapshots := seq(requests, _ => Kept(byID, q));
            && AllKeyed(snapshots, ChangeKey)
            && var w := Follow(snapshots, ChangeKey, ChangeCursorKey(q.cursor), ClampChangeLimit(q.limit));
               BrowseChanges(byID, q, requests) == ListedChanges(w.items, ChangeCursorFor(w.next), w.pages)
    decreases requests
  {
    hide Keeps, Trim, Kept, AllChanges, Pageable, KeyedByID;
    KeptKeyed(byID, q);
    var rows, after, limit := Kept(byID, q), ChangeCursorKey(q.cursor), ClampChangeLimit(q.limit);
    var snapshots := seq(requests, _ => rows);
    var p := PageOf(rows, ChangeKey, after, limit);
    CursorReturns(byID, q);
    if p.next.Some? && requests > 1 {
      var q' := q.(cursor := ChangeCursorFor(p.next));
      KeepsIgnoresCursor(byID, q, q');
      assert snapshots[1..] == seq(requests - 1, _ => Kept(byID, q'));
      hide PageOf;
      BrowseChangesIsFollow(byID, q', requests - 1);
    }
  }

  /** The cursor of a page is readable and leads back to the key it was made from. */
  lemma CursorReturns(byID: map<string, ChangeDetail>, q: ChangeQuery)
    requires KeyedByID(byID) && Pageable(byID) && Keyed(Kept(byID, q), ChangeKey)
    ensures var next := PageOf(Kept(byID, q), ChangeKey, ChangeCursorKey(q.cursor), ClampChangeLimit(q.limit)).next;
            CursorReadable(ChangeCursorFor(next)) && ChangeCursorKey(ChangeCursorFor(next)) == next
  {
    hide Keeps, Trim;
    var rest := Rest(Kept(byID, q), ChangeKey, ChangeCursorKey(q.cursor));
    var all, limit := Listing(rest, ChangeKey), ClampChangeLimit(q.limit);
    if |all| > limit { assert all[limit - 1] in rest; }
  }

  lemma KeepsIgnoresCursor(byID: map<string, ChangeDetail>, q: ChangeQuery, q': ChangeQuery)
    requires q' == q.(cursor := q'.cursor)
    ensures Kept(byID, q) == Kept(byID, q')
  {
    assert forall c :: Keeps(c, q) <==> Keeps(c, q');
  }

  /** Following the cursor from the start returns exactly the filtered changes, once each, completed-at
      descending and ID ascending, in the least number of requests. */
  lemma BrowseChangesComplete(byID: map<string, ChangeDetail>, q: ChangeQuery, requests: nat)
    requires KeyedByID(byID) && Pageable(byID) && q.cursor == Blank
    requires requests >= PagesFor(|Kept(byID, q)|, ClampChangeLimit(q.limit))
    ensures requests > 0 && Keyed(Kept(byID, q), ChangeKey)
    ensures BrowseChanges(byID, q, requests) ==
              ListedChanges(Listing(Kept(byID, q), ChangeKey), Blank,
                            PagesFor(|Kept(byID, q)|, ClampChangeLimit(q.limit)))
  {
    hide Keeps, Kept, BrowseChanges, Pageable;
    assert Keyed(Kept(byID, q), ChangeKey) by { KeptKeyed(byID, q); }
    var rows := Kept(byID, q);
    var all := Listing(rows, ChangeKey);
    assert Rest(rows, ChangeKey, None) == rows;
    ListingLength(all, rows, ChangeKey);
    BrowseChangesIsFollow(byID, q, requests);
    FollowQuiet(seq(requests, _ => rows), rows, ChangeKey, None, ClampChangeLimit(q.limit));
  }

  lemma KeptKeyed(byID: map<string, ChangeDetail>, q: ChangeQuery)
    requires KeyedByID(byID)
    ensures Keyed(Kept(byID, q), ChangeKey)
  {
    hide Keeps;
    ChangesKeyed(byID);
  }

  // Which changes are shown, by their fields.

  lemma StatusFilters(c: Change, q: ChangeQuery)
    ensures Keeps(c, q) ==>
              && (q.resultStatus != "" ==>
                    (c.result, q.resultStatus) in
                      {(ResultUnknown, "unknown"), (ResultSucceeded, "succeeded"), (ResultFailed, "failed")})
              && (q.healthStatus != "" ==>
                    (c.health, q.healthStatus) in
                      {(HealthUnknown, "unknown"), (Healthy, "healthy"), (Degraded, "degraded"),
                       (Progressing, "progressing"), (Missing, "missing")})
  {
    hide StateAllows, WantAllows;
  }

  lemma StatusesPass(c: Change, q: ChangeQuery)
    ensures (c.result, q.resultStatus) in
              {(ResultUnknown, "unknown"), (ResultSucceeded, "succeeded"), (ResultFailed, "failed")} ==>
                c.result.Name() == q.resultStatus
    ensures (c.health, q.healthStatus) in
              {(HealthUnknown, "unknown"), (Healthy, "healthy"), (Degraded, "degraded"),
               (Progressing, "progressing"), (Missing, "missing")} ==>
                c.health.Name() == q.healthStatus
  {
  }

  /** The correlation is set or not as asked, and is the one asked for in any case. */
  predicate Correlated(value: string, state: string, want: string) {
    && (Lower(Trim(state)) == "set" ==> Trim(value) != "")
    && (Lower(Trim(state)) == "unset" ==> Trim(value) == "")
    && (Trim(want) != "" ==> Lower(value) == Lower(Trim(want)))
  }

  /** A client that follows the cursors is shown a change exactly when it has the result and health asked for, its
      external ID and its ticket are set, unset and spelled as asked, its approval reference is the one asked for,
      and it has approvals or none if that is asked. */
  lemma ShownIff(byID: map<string, ChangeDetail>, q: ChangeQuery, requests: nat, id: string)
    requires KeyedByID(byID) && Pageable(byID) && q.cursor == Blank && id in byID
    requires requests >= PagesFor(|Kept(byID, q)|, ClampChangeLimit(q.limit))
    ensures requests > 0
    ensures var c := byID[id].change;
            c in BrowseChanges(byID, q, requests).items <==>
              && (q.resultStatus != "" ==>
                    (c.result, q.resultStatus) in
                      {(ResultUnknown, "unknown"), (ResultSucceeded, "succeeded"), (ResultFailed, "failed")})
              && (q.healthStatus != "" ==>
                    (c.health, q.healthStatus) in
                      {(HealthUnknown, "unknown"), (Healthy, "healthy"), (Degraded, "degraded"),
                       (Progressing, "progressing"), (Missing, "missing")})
              && Correlated(c.externalChangeID, q.externalChangeIDState, q.externalChangeID)
              && Correlated(c.ticketID, q.ticketIDState, q.ticketID)
              && Correlated(c.approvalReference, "", q.approvalReference)
              && (Lower(Trim(q.hasApprovals)) == "yes" ==> c.hasApprovals)
              && (Lower(Trim(q.hasApprovals)) == "no" ==> !c.hasApprovals)
  {
    BrowseChangesComplete(byID, q, requests);
    ChangeIsKept(byID, q, id);
    KeepsIff(byID[id].change, q);
    hide Keeps, Correlated, Lower, Trim, BrowseChanges, Kept, Pageable, KeyedByID;
  }

  lemma ChangeIsKept(byID: map<string, ChangeDetail>, q: ChangeQuery, id: string)
    requires id in byID
    ensures byID[id].change in Kept(byID, q) <==> Keeps(byID[id].change, q)
  {
    hide Keeps;
    assert byID[id].change in AllChanges(byID);
  }

  lemma KeepsIff(c: Change, q: ChangeQuery)
    ensures Keeps(c, q) <==>
              && (q.resultStatus != "" ==>
                    (c.result, q.resultStatus) in
                      {(ResultUnknown, "unknown"), (ResultSucceeded, "succeeded"), (ResultFailed, "failed")})
              && (q.healthStatus != "" ==>
                    (c.health, q.healthStatus) in
                      {(HealthUnknown, "unknown"), (Healthy, "healthy"), (Degraded, "degraded"),
                       (Progressing, "progressing"), (Missing, "missing")})
              && Correlated(c.externalChangeID, q.externalChangeIDState, q.externalChangeID)
              && Correlated(c.ticketID, q.ticketIDState, q.ticketID)
              && Correlated(c.approvalReference, "", q.approvalReference)
              && (Lower(Trim(q.hasApprovals)) == "yes" ==> c.hasApprovals)
              && (Lower(Trim(q.hasApprovals)) == "no" ==> !c.hasApprovals)
  {
    StatusFilters(c, q);
    StatusesPass(c, q);
    NoStateAsked();
    hide ResultStatus.Name, HealthStatus.Name, Lower, Trim;
  }

  lemma NoStateAsked()
    ensures Lower(Trim("")) != "set" && Lower(Trim("")) != "unset"
  {
    assert Trim("") == "";
    hide Trim;
    assert |Lower("")| == 0;
  }

  /** One page: latest completed first and by ID within an instant, only changes after the cursor, at most the limit,
      which is 100 if none is given and never above 500; a cursor to its last change exactly when more follow, and
      then it is full and all of them come later. A cursor that does not decode or has no ID is an error. */
  lemma ChangesPageMeans(byID: map<string, ChangeDetail>, q: ChangeQuery)
    requires KeyedByID(byID) && Pageable(byID)
    ensures var c := q.cursor;
            ChangesPage(byID, q) == InvalidChangeCursor <==> c == Malformed || (c.Encoded? && Trim(c.id) == "")
    ensures ChangesPage(byID, q) != InvalidChangeCursor ==>
      var page, limit := ChangesPage(byID, q), if q.limit <= 0 then 100 else if q.limit > 500 then 500 else q.limit;
      var last := |page.items| - 1;
      && |page.items| <= limit
      && (forall i, j :: 0 <= i < j < |page.items| ==>
            ComesBefore(page.items[i], page.items[j].completedAt, page.items[j].id))
      && (forall c :: c in page.items ==> c in Kept(byID, q) && ComesAfter(c, q.cursor))
      && (page.nextCursor == Blank ==> forall c :: c in Kept(byID, q) && ComesAfter(c, q.cursor) ==> c in page.items)
      && (page.nextCursor != Blank ==>
            && |page.items| == limit
            && page.nextCursor == Encoded(page.items[last].completedAt, page.items[last].id)
            && (exists c :: c in Kept(byID, q) && ComesAfter(c, page.nextCursor))
            && forall c :: c in Kept(byID, q) && ComesAfter(c, q.cursor) && c !in page.items ==>
                 ComesAfter(c, page.nextCursor))
  {
    hide Keeps, Trim;
    KeptKeyed(byID, q);
    if ChangesPage(byID, q) != InvalidChangeCursor {
      var rest := Rest(Kept(byID, q), ChangeKey, ChangeCursorKey(q.cursor));
      var all := Listing(rest, ChangeKey);
      KeptHasTime(byID, q);
      forall c ensures c in rest <==> c in Kept(byID, q) && ComesAfter(c, q.cursor) {}
      hide Kept;
      if |all| > ClampChangeLimit(q.limit) {
        assert all[ClampChangeLimit(q.limit) - 1] in rest && all[ClampChangeLimit(q.limit)] in rest;
      }
    }
  }

  lemma KeptHasTime(byID: map<string, ChangeDetail>, q: ChangeQuery)
    requires Pageable(byID)
    ensures forall c :: c in Kept(byID, q) ==> c.completedAt != 0
  {
    hide Keeps;
  }

  predicate ComesBefore(c: Change, time: int, id: string) {
    c.completedAt > time || (c.completedAt == time && Less(c.id, id))
  }

  /** A cursor at the zero time holds nothing back. */
  predicate ComesAfter(c: Change, cursor: CursorText) {
    cursor.Encoded? && cursor.ts != 0 ==>
      c.completedAt < cursor.ts || (c.completedAt == cursor.ts && Less(cursor.id, c.id))
  }
}
