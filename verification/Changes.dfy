/** What the projection of events into changes guarantees: the groups partition the events, the running
    bounds agree with the sorted ones, statuses do not depend on order and only grow, and the health summary
    and the merged health tell one story. */
module Changes {
  import opened Keyset
  import opened CloudEvents
  import opened Store
  import opened Projection

  // Partition.

  function Flatten(events: seq<StoredEvent>, ids: seq<string>, lib: Library): seq<StoredEvent> {
    if ids == [] then [] else Flatten(events, ids[..|ids| - 1], lib) + Group(events, ids[|ids| - 1], lib)
  }

  function Within(events: seq<StoredEvent>, ids: seq<string>, lib: Library): seq<StoredEvent> {
    if events == [] then []
    else
      var last := events[|events| - 1];
      Within(events[..|events| - 1], ids, lib) + (if ChangeID(last, lib) in ids then [last] else [])
  }

  lemma {:induction false} WithinOneMore(events: seq<StoredEvent>, ids: seq<string>, id: string, lib: Library)
    requires id !in ids
    ensures multiset(Within(events, ids + [id], lib)) == multiset(Within(events, ids, lib)) +
              multiset(Group(events, id, lib))
  {
    hide ChangeID;
    if events != [] { WithinOneMore(events[..|events| - 1], ids, id, lib); }
  }

  lemma {:induction false} FlattenIsWithin(events: seq<StoredEvent>, ids: seq<string>, lib: Library)
    requires forall i, j :: 0 <= i < j < |ids| ==> ids[i] != ids[j]
    ensures multiset(Flatten(events, ids, lib)) == multiset(Within(events, ids, lib))
  {
    hide ChangeID, Group;
    if ids == [] {
      WithinNone(events, lib);
    } else {
      var init, last := ids[..|ids| - 1], ids[|ids| - 1];
      FlattenIsWithin(events, init, lib);
      WithinOneMore(events, init, last, lib);
      assert ids == init + [last];
    }
  }

  lemma {:induction false} WithinNone(events: seq<StoredEvent>, lib: Library)
    ensures Within(events, [], lib) == []
  {
    if events != [] { WithinNone(events[..|events| - 1], lib); }
  }

  lemma {:induction false} WithinAll(events: seq<StoredEvent>, ids: seq<string>, lib: Library)
    requires forall e :: e in events ==> ChangeID(e, lib) in ids
    ensures Within(events, ids, lib) == events
  {
    hide ChangeID;
    if events != [] {
      WithinAll(events[..|events| - 1], ids, lib);
      assert events == events[..|events| - 1] + [events[|events| - 1]];
    }
  }

  /** Laid out group by group, in whatever order the change map is read, the changes hold every event once;
      so their event counts add up to the number of events. */
  lemma GroupsPartition(events: seq<StoredEvent>, ids: seq<string>, lib: Library, now: int,
                        out: map<string, ChangeDetail>)
    requires forall id :: id in out <==> Group(events, id, lib) != []
    requires forall id :: id in out ==> Describes(out[id], Group(events, id, lib), lib, now)
    requires forall i, j :: 0 <= i < j < |ids| ==> ids[i] != ids[j]
    requires forall id :: id in ids <==> id in out
    ensures multiset(Flatten(events, ids, lib)) == multiset(events)
    ensures CountAll(out, ids) == |events|
  {
    hide ChangeID, Finalized, Summary, Describes;
    forall e | e in events ensures ChangeID(e, lib) in ids { assert e in Group(events, ChangeID(e, lib), lib); }
    WithinAll(events, ids, lib);
    FlattenIsWithin(events, ids, lib);
    CountsAreLengths(events, ids, lib, now, out);
    SameLength(Flatten(events, ids, lib), events);
  }

  function CountAll(out: map<string, ChangeDetail>, ids: seq<string>): nat {
    if ids == [] then 0
    else CountAll(out, ids[..|ids| - 1]) + (if ids[|ids| - 1] in out then out[ids[|ids| - 1]].change.eventCount else 0)
  }

  lemma {:induction false} CountsAreLengths(events: seq<StoredEvent>, ids: seq<string>, lib: Library, now: int,
                                            out: map<string, ChangeDetail>)
    requires forall id :: id in ids ==> id in out && Describes(out[id], Group(events, id, lib), lib, now)
    ensures CountAll(out, ids) == |Flatten(events, ids, lib)|
  {
    hide Summary, Group;
    if ids != [] {
      var last := ids[|ids| - 1];
      CountsAreLengths(events, ids[..|ids| - 1], lib, now, out);
      SameLength(out[last].events, Group(events, last, lib));
    }
  }

  // One change.

  /** The bounds kept while accumulating are the first and last instants found after sorting. */
  lemma BoundsAgree(g: seq<StoredEvent>, s: seq<StoredEvent>)
    requires g != [] && SortedFrom(s, g, EventKey)
    ensures s != [] && s[0].time == Earliest(g) && s[|s| - 1].time == Latest(g)
  {
    SameLength(s, g);
    SortedByTime(s);
    var i :| 0 <= i < |g| && g[i].time == Earliest(g);
    var j :| 0 <= j < |g| && g[j].time == Latest(g);
    SortedElements(s, g, g[i]);
    SortedElements(s, g, g[j]);
    SortedElements(s, g, s[0]);
    SortedElements(s, g, s[|s| - 1]);
  }

  /** Events with distinct IDs leave no freedom: the change is a function of its group. */
  lemma DescribesUnique(d: ChangeDetail, d': ChangeDetail, g: seq<StoredEvent>, lib: Library, now: int)
    requires Describes(d, g, lib, now) && Describes(d', g, lib, now)
    requires forall i, j :: 0 <= i < j < |g| ==> g[i].id != g[j].id
    ensures d == d'
  {
    hide Summary, Finalized;
    var rows := set e | e in g;
    assert Keyed(rows, EventKey);
    forall x ensures x in g <==> x in rows {}
    ListedAfterSort(d.events, g, rows, EventKey);
    ListedAfterSort(d'.events, g, rows, EventKey);
    ListingUnique(d.events, d'.events, rows, EventKey);
  }

  /** A finished change's events are its group, time-sorted, from the earliest instant to the latest. */
  lemma FinishedEvents(d: ChangeDetail, g: seq<StoredEvent>, lib: Library, now: int)
    requires Describes(d, g, lib, now)
    ensures TimeSorted(d.events) && forall e :: e in d.events <==> e in g
    ensures d.change.startedAt == Earliest(g) && d.change.completedAt == Latest(g)
    ensures forall e :: e in d.events ==> e.time >= Earliest(g)
  {
    hide InferHealth, Summary, LastKnown, FirstDegraded;
    BoundsAgree(g, d.events);
    SortedByTime(d.events);
    forall e ensures e in d.events <==> e in g { SortedElements(d.events, g, e); }
  }

  /** Health after the deployment is the last known health overall. */
  lemma HealthAfterIsLastKnown(d: ChangeDetail, g: seq<StoredEvent>, lib: Library, now: int)
    requires Describes(d, g, lib, now)
    ensures var h, s := d.change.healthAfterDeploy, d.events;
            if h.HealthUnknown? then forall e :: e in g ==> InferHealth(e).HealthUnknown?
            else
              exists i :: 0 <= i < |s| && InferHealth(s[i]) == h &&
                forall j :: i < j < |s| ==> InferHealth(s[j]).HealthUnknown?
  {
    hide InferHealth, Summary, FirstDegraded;
    FinishedEvents(d, g, lib, now);
    LastKnownMeans(d.events, Always);
    hide LastKnown;
  }

  /** Health at the start is the last known health at the earliest instant. */
  lemma HealthAtStartIsLastKnown(d: ChangeDetail, g: seq<StoredEvent>, lib: Library, now: int)
    requires Describes(d, g, lib, now)
    ensures var h, s := d.change.healthAtStart, d.events;
            if h.HealthUnknown? then forall e :: e in g && e.time == Earliest(g) ==> InferHealth(e).HealthUnknown?
            else exists i :: 0 <= i < |s| && InferHealth(s[i]) == h && s[i].time == Earliest(g) &&
                             forall j :: i < j < |s| && s[j].time == Earliest(g) ==> InferHealth(s[j]).HealthUnknown?
  {
    hide InferHealth, Summary, FirstDegraded, LastKnown, Earliest;
    FinishedEvents(d, g, lib, now);
    LastKnownMeans(d.events, UpTo(d.events[0].time));
    assert forall i :: 0 <= i < |d.events| ==> d.events[i] in d.events;
  }

  /** The first timestamp of a degradation is the least instant after the start at which an event is degraded. */
  lemma FirstTimestampIsLeast(d: ChangeDetail, g: seq<StoredEvent>, lib: Library, now: int)
    requires Describes(d, g, lib, now)
    ensures var t := d.change.degradation.firstTimestamp;
            if t.None? then forall e :: e in g && e.time > Earliest(g) ==> !InferHealth(e).Degraded?
            else && (exists e :: e in g && e.time == t.value > Earliest(g) && InferHealth(e).Degraded?)
                 && (forall e :: e in g && e.time > Earliest(g) && InferHealth(e).Degraded? ==> t.value <= e.time)
  {
    hide InferHealth, Summary, LastKnown, FirstDegraded, Earliest;
    FinishedEvents(d, g, lib, now);
    FirstDegradedMeans(d.events, d.events[0].time);
  }

  lemma LatestBounds(g: seq<StoredEvent>)
    requires g != []
    ensures forall e :: e in g ==> e.time <= Latest(g)
  {
  }

  /** A degradation reported after the deployment is always part of the change's own health. */
  lemma ObservedIsDegraded(d: ChangeDetail, g: seq<StoredEvent>, lib: Library, now: int)
    requires Describes(d, g, lib, now) && d.change.degradation.observed
    ensures d.change.health.Degraded?
    ensures d.change.degradation.firstTimestamp.Some? &&
              d.change.startedAt < d.change.degradation.firstTimestamp.value <= d.change.completedAt
  {
    hide InferHealth, LastKnown, FirstDegraded, Earliest, Latest;
    FinishedEvents(d, g, lib, now);
    FirstTimestampIsLeast(d, g, lib, now);
    MergedHealthMeans(g);
    LatestBounds(g);
  }

  // Statuses.

  /** Neither the merged result nor "degraded" or "progressing" depends on the order events came in. */
  lemma StatusIgnoresOrder(g: seq<StoredEvent>, g': seq<StoredEvent>)
    requires multiset(g) == multiset(g')
    ensures MergedResult(g) == MergedResult(g')
    ensures MergedHealth(g).Degraded? <==> MergedHealth(g').Degraded?
    ensures MergedHealth(g).Progressing? <==> MergedHealth(g').Progressing?
    ensures MergedHealth(g).HealthUnknown? <==> MergedHealth(g').HealthUnknown?
  {
    hide InferResult, InferHealth, MergedResult, MergedHealth;
    forall e ensures e in g <==> e in g' { SortedElements(g, g', e); }
    MergedResultMeans(g);
    MergedResultMeans(g');
    MergedHealthMeans(g);
    MergedHealthMeans(g');
  }

  function ResultRank(r: ResultStatus): nat {
    match r case ResultUnknown => 0 case ResultSucceeded => 1 case ResultFailed => 2
  }

  function HealthRank(h: HealthStatus): nat {
    match h
    case HealthUnknown => 0
    case Healthy => 1
    case Missing => 1
    case Progressing => 2
    case Degraded => 3
  }

  /** Learning more events of a change never lowers its statuses; the result is the greatest seen. */
  lemma {:induction false} StatusOnlyGrows(g: seq<StoredEvent>, more: seq<StoredEvent>)
    ensures ResultRank(MergedResult(g)) <= ResultRank(MergedResult(g + more))
    ensures HealthRank(MergedHealth(g)) <= HealthRank(MergedHealth(g + more))
    ensures HealthRank(MergedHealth(g)) == HealthRank(MergedHealth(g + more)) ==>
              MergedHealth(g) == MergedHealth(g + more)
    ensures forall e :: e in g ==> ResultRank(InferResult(e)) <= ResultRank(MergedResult(g))
  {
    hide InferResult, InferHealth;
    MergedResultMeans(g);
    if more == [] {
      assert g + more == g;
    } else {
      var init := more[..|more| - 1];
      StatusOnlyGrows(g, init);
      assert (g + more)[..|g + more| - 1] == g + init;
    }
  }

  // What a finished change says, by the texts of its events.

  /** The value is that of the first event, in input order, that has one. */
  ghost predicate FirstGiven(r: string, g: seq<StoredEvent>, given: StoredEvent -> string) {
    if r == "" then forall i :: 0 <= i < |g| ==> given(g[i]) == ""
    else exists i :: 0 <= i < |g| && given(g[i]) == r && forall j :: 0 <= j < i ==> given(g[j]) == ""
  }

  /** ...under this extension. */
  ghost predicate FirstUnder(r: string, g: seq<StoredEvent>, key: string) {
    if r == "" then forall i :: 0 <= i < |g| ==> ExtensionString(g[i].ext, key) == ""
    else exists i :: 0 <= i < |g| && ExtensionString(g[i].ext, key) == r &&
                     forall j :: 0 <= j < i ==> ExtensionString(g[j].ext, key) == ""
  }

  lemma FirstIsUnder(g: seq<StoredEvent>, key: string)
    ensures FirstUnder(FirstNonEmpty(g, ExtensionAt(key)), g, key)
  {
    hide ExtensionString, FirstNonEmpty;
    FirstNonEmptyIsFirst(g, ExtensionAt(key));
  }

  lemma FirstIsGiven(g: seq<StoredEvent>, given: StoredEvent -> string)
    ensures FirstGiven(FirstNonEmpty(g, given), g, given)
  {
    hide FirstNonEmpty;
    FirstNonEmptyIsFirst(g, given);
  }

  /** Identity, names and correlations of a change. */
  lemma ChangeNames(d: ChangeDetail, g: seq<StoredEvent>, lib: Library, now: int)
    requires Describes(d, g, lib, now)
    ensures var c, first := d.change, g[0];
            && c.id == ChangeID(first, lib) && c.subject == first.subject
            && c.provider == PrimaryProvider(first.source, first.ext)
            && c.reference == Reference(first) && c.revision == RevisionOf(first)
            && FirstUnder(c.project, g, "project") && FirstUnder(c.targetCluster, g, "cluster")
            && FirstUnder(c.namespace, g, "namespace") && FirstUnder(c.initiator, g, "initiator")
            && FirstGiven(c.externalChangeID, g, ExternalChangeIDOf) && FirstGiven(c.ticketID, g, TicketIDOf)
            && FirstGiven(c.approvalReference, g, ApprovalReferenceOf)
  {
    hide ExtensionString, ChangeID, PrimaryProvider, Reference, RevisionOf, FirstNonEmpty, MergedResult, MergedHealth,
      LastKnown, FirstDegraded, Sorted, FirstGiven, FirstUnder, ExtensionAt, Earliest, Latest;
    FirstIsUnder(g, "project");
    FirstIsUnder(g, "cluster");
    FirstIsUnder(g, "namespace");
    FirstIsUnder(g, "initiator");
    FirstIsGiven(g, ExternalChangeIDOf);
    FirstIsGiven(g, TicketIDOf);
    FirstIsGiven(g, ApprovalReferenceOf);
  }

  /** Its times, counts and approvals; evidence counts as incomplete for five minutes. */
  lemma ChangeBounds(d: ChangeDetail, g: seq<StoredEvent>, lib: Library, now: int)
    requires Describes(d, g, lib, now)
    ensures var c := d.change;
            && (exists e :: e in g && e.time == c.startedAt) && (forall e :: e in g ==> c.startedAt <= e.time)
            && (exists e :: e in g && e.time == c.completedAt) && (forall e :: e in g ==> e.time <= c.completedAt)
            && c.lastUpdatedAt == c.completedAt && c.eventCount == |g| && c.windowSeconds == 300
            && (c.mayBeIncomplete <==> now < c.completedAt + 300_000_000_000)
            && (c.hasApprovals <==> exists e :: e in g && lib.approvals(e.data) > 0)
  {
    FinishedEvents(d, g, lib, now);
    SameLength(d.events, g);
    hide ExtensionString, ChangeID, PrimaryProvider, Reference, RevisionOf, ExternalChangeIDOf, TicketIDOf,
      ApprovalReferenceOf, FirstNonEmpty, MergedResult, MergedHealth, LastKnown, FirstDegraded, Sorted;
  }

  /** Its status: failed if any of its events mentions a failure, succeeded if none does and one mentions success;
      degraded if any says so, else progressing if any does. */
  lemma ChangeStatus(d: ChangeDetail, g: seq<StoredEvent>, lib: Library, now: int)
    requires Describes(d, g, lib, now)
    ensures var bad := exists e, w :: e in g && w in ["fail", "error", "degrad", "abort"] && Mentions(e, w);
            var good := exists e, w :: e in g && w in ["success", "succeed", "healthy", "complete"] && Mentions(e, w);
            && (d.change.result == ResultFailed <==> bad) && (d.change.result == ResultSucceeded <==> !bad && good)
    ensures var degraded := exists e :: e in g && HealthSaid(e, "degraded");
            var progressing := exists e :: e in g && HealthSaid(e, "progressing");
            && (d.change.health == Degraded <==> degraded)
            && (d.change.health == Progressing <==> !degraded && progressing)
  {
    hide Mentions, HealthSaid, InferResult, InferHealth, MergedResult, MergedHealth, Describes;
    DescribedStatus(d, g, lib, now);
    MergedResultMeans(g);
    MergedHealthMeans(g);
    forall e | e in g
      ensures InferResult(e) == ResultFailed <==>
                exists w :: w in ["fail", "error", "degrad", "abort"] && Mentions(e, w)
      ensures InferResult(e) == ResultUnknown <==>
                !(exists w :: w in ["fail", "error", "degrad", "abort"] && Mentions(e, w)) &&
                !exists w :: w in ["success", "succeed", "healthy", "complete"] && Mentions(e, w)
      ensures InferHealth(e) == Degraded <==> HealthSaid(e, "degraded")
      ensures InferHealth(e) == Progressing <==> HealthSaid(e, "progressing")
    {
      ResultIs(e);
      HealthIs(e);
    }
  }

  lemma DescribedStatus(d: ChangeDetail, g: seq<StoredEvent>, lib: Library, now: int)
    requires Describes(d, g, lib, now)
    ensures d.change.result == MergedResult(g) && d.change.health == MergedHealth(g)
  {
    hide ExtensionString, ChangeID, PrimaryProvider, Reference, RevisionOf, ExternalChangeIDOf, TicketIDOf,
      ApprovalReferenceOf, FirstNonEmpty, MergedResult, MergedHealth, LastKnown, FirstDegraded, Sorted;
  }

  /** Its health at the start and after the deployment: what the last of its ordered events says that says a known
      word, at the earliest instant and overall. */
  lemma ChangeHealth(d: ChangeDetail, g: seq<StoredEvent>, lib: Library, now: int)
    requires Describes(d, g, lib, now)
    ensures HealthOfLast(d.change.healthAfterDeploy, d.events, None)
    ensures HealthOfLast(d.change.healthAtStart, d.events, Some(d.change.startedAt))
  {
    hide Describes, HealthOfLast, LastInferred;
    AfterIsLast(d, g, lib, now);
    AtStartIsLast(d, g, lib, now);
    LastSays(d.change.healthAfterDeploy, d.events, None);
    LastSays(d.change.healthAtStart, d.events, Some(d.change.startedAt));
  }

  ghost predicate LastInferred(h: HealthStatus, s: seq<StoredEvent>, at: Option<int>) {
    if h == HealthUnknown then
      forall e :: e in s && (at == None || e.time == at.value) ==> InferHealth(e) == HealthUnknown
    else
      exists i :: 0 <= i < |s| && InferHealth(s[i]) == h && (at == None || s[i].time == at.value) &&
        forall j :: i < j < |s| && (at == None || s[j].time == at.value) ==> InferHealth(s[j]) == HealthUnknown
  }

  lemma AfterIsLast(d: ChangeDetail, g: seq<StoredEvent>, lib: Library, now: int)
    requires Describes(d, g, lib, now)
    ensures LastInferred(d.change.healthAfterDeploy, d.events, None)
  {
    hide InferHealth, Earliest, Latest, SortedFrom, Finalized, Summary, TimeSorted;
    HealthAfterIsLastKnown(d, g, lib, now);
    FinishedEvents(d, g, lib, now);
  }

  lemma AtStartIsLast(d: ChangeDetail, g: seq<StoredEvent>, lib: Library, now: int)
    requires Describes(d, g, lib, now)
    ensures LastInferred(d.change.healthAtStart, d.events, Some(d.change.startedAt))
  {
    hide InferHealth, Earliest, Latest, SortedFrom, Finalized, Summary, TimeSorted;
    HealthAtStartIsLastKnown(d, g, lib, now);
    FinishedEvents(d, g, lib, now);
  }

  /** The first degradation after the start is the least later instant at which an event says "degraded"; it is
      reported as observed when the change was healthy at its start. */
  lemma ChangeDegradation(d: ChangeDetail, g: seq<StoredEvent>, lib: Library, now: int)
    requires Describes(d, g, lib, now)
    ensures var c := d.change; var first := c.degradation.firstTimestamp;
            && (c.degradation.observed <==> c.healthAtStart == Healthy && first != None)
            && (first == None ==> forall e :: e in g && HealthSaid(e, "degraded") ==> e.time <= c.startedAt)
            && (first != None ==>
                  && first.value > c.startedAt
                  && (exists e :: e in g && e.time == first.value && HealthSaid(e, "degraded"))
                  && forall e :: e in g && HealthSaid(e, "degraded") && e.time > c.startedAt ==> first.value <= e.time)
  {
    FirstTimestampIsLeast(d, g, lib, now);
    FinishedEvents(d, g, lib, now);
    hide HealthSaid, InferHealth, Summary, LastKnown, FirstDegraded, Earliest, SortedFrom;
    forall e | e in g ensures InferHealth(e) == Degraded <==> HealthSaid(e, "degraded") { HealthIs(e); }
  }

  /** The word a known health goes by. */
  predicate WordOf(h: HealthStatus, word: string) {
    || (h == Healthy && word == "healthy") || (h == Degraded && word == "degraded")
    || (h == Progressing && word == "progressing") || (h == Missing && word == "missing")
  }

  predicate SaysKnown(e: StoredEvent) {
    HealthSaid(e, "healthy") || HealthSaid(e, "degraded") || HealthSaid(e, "progressing") || HealthSaid(e, "missing")
  }

  /** The last of the events, at that instant if one is given, that says a known word says this one; unknown if
      there is none. */
  ghost predicate HealthOfLast(h: HealthStatus, s: seq<StoredEvent>, at: Option<int>) {
    if h == HealthUnknown then forall e :: e in s && (at == None || e.time == at.value) ==> !SaysKnown(e)
    else exists i, w :: 0 <= i < |s| && (at == None || s[i].time == at.value) && WordOf(h, w) && HealthSaid(s[i], w) &&
           forall j :: i < j < |s| && (at == None || s[j].time == at.value) ==> !SaysKnown(s[j])
  }

  lemma KnownIsSaid(e: StoredEvent) returns (w: string)
    ensures InferHealth(e) == HealthUnknown <==> !SaysKnown(e)
    ensures InferHealth(e) != HealthUnknown ==> WordOf(InferHealth(e), w) && HealthSaid(e, w)
  {
    HealthIs(e);
    var words := ["healthy", "degraded", "progressing", "missing"];
    assert words[0] in words && words[1] in words && words[2] in words && words[3] in words;
    hide InferHealth, HealthSaid;
    w := match InferHealth(e)
         case Healthy => "healthy"
         case Degraded => "degraded"
         case Progressing => "progressing"
         case Missing => "missing"
         case HealthUnknown => "";
  }

  lemma LastSays(h: HealthStatus, s: seq<StoredEvent>, at: Option<int>)
    requires LastInferred(h, s, at)
    ensures HealthOfLast(h, s, at)
  {
    hide InferHealth, SaysKnown, WordOf, HealthSaid;
    forall e | e in s ensures InferHealth(e) == HealthUnknown <==> !SaysKnown(e) { var w := KnownIsSaid(e); }
    if h != HealthUnknown {
      var i :| 0 <= i < |s| && InferHealth(s[i]) == h && (at == None || s[i].time == at.value) &&
        forall j :: i < j < |s| && (at == None || s[j].time == at.value) ==> InferHealth(s[j]) == HealthUnknown;
      var w := KnownIsSaid(s[i]);
      assert WordOf(h, w) && HealthSaid(s[i], w);
    }
  }
}
