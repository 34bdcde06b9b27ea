/** The evidence pack: canonical ordering, the primary change derived from the ordered events, and how its
    result relates to the one the change list shows. */
module Export {
  import opened Text
  import opened Keyset
  import opened CloudEvents
  import opened Store
  import opened Collector
  import opened Normalize
  import opened Projection

  datatype View = View(changeID: string, application: string, cluster: string, namespace: string, revision: string,
                       initiator: string, result: ResultStatus, externalChangeID: string, ticketID: string,
                       degradationObserved: bool)

  const EMPTY_VIEW := View("", "", "", "", "", "", ResultUnknown, "", "", false)

  /** What CreateEvidencePack writes, clocks aside; the deterministic hash is taken over view and timeline. */
  datatype Pack = Pack(view: View, timeline: seq<StoredEvent>, count: nat)

  function FirstData(data: Payload, keys: seq<string>): string {
    if keys == [] then ""
    else if DataString(data, keys[0]) != "" then DataString(data, keys[0])
    else FirstData(data, keys[1..])
  }

  /** What one event says about the result: like the change list, but looking at "phase" before "result",
      and not taking "healthy" for success. */
  function ExportResultOf(e: StoredEvent): ResultStatus {
    var bucket := Lower(e.typ + " " + FirstData(e.data, ["status", "phase", "result", "outcome"]));
    if SaysFailed(bucket) then ResultFailed
    else if Contains(bucket, "success") || Contains(bucket, "succeed") || Contains(bucket, "complete")
    then ResultSucceeded
    else ResultUnknown
  }

  function FirstOf(keys: seq<string>): StoredEvent -> string {
    (e: StoredEvent) => FirstExtension(e.ext, keys)
  }

  /** Failed if any event failed, else succeeded if any succeeded. */
  function ExportResult(s: seq<StoredEvent>): ResultStatus {
    if s == [] then ResultUnknown else MergeResult(ExportResult(s[..|s| - 1]), ExportResultOf(s[|s| - 1]))
  }

  lemma {:induction false} ExportResultMeans(s: seq<StoredEvent>)
    ensures ExportResult(s).ResultFailed? <==> exists e :: e in s && ExportResultOf(e).ResultFailed?
    ensures ExportResult(s).ResultUnknown? <==> forall e :: e in s ==> ExportResultOf(e).ResultUnknown?
  {
    hide ExportResultOf;
    if s != [] {
      ExportResultMeans(s[..|s| - 1]);
      assert s == s[..|s| - 1] + [s[|s| - 1]];
    }
  }

  const REVISION_KEYS := ["sync_revision", "revision", "commit_sha"]
  const EXTERNAL_KEYS := ["external_change_id", "change_id"]
  const TICKET_KEYS := ["ticket_id", "ticket_key_primary"]

  /** The derived change of ordered events: each field the first non-empty value in order. */
  function Derived(s: seq<StoredEvent>, hash: string -> string): View {
    if s == [] then EMPTY_VIEW
    else
      var application := s[0].subject;
      var cluster, namespace := ExtensionString(s[0].ext, "cluster"), ExtensionString(s[0].ext, "namespace");
      var revision, changeID := FirstNonEmpty(s, FirstOf(REVISION_KEYS)), FirstNonEmpty(s, ExtensionAt("change_id"));
      View(if changeID != "" then changeID
           else "chg_" + hash(application + ":" + cluster + ":" + namespace + ":" + revision),
           application, cluster, namespace, revision, FirstNonEmpty(s, ExtensionAt("initiator")), ExportResult(s),
           FirstNonEmpty(s, FirstOf(EXTERNAL_KEYS)), FirstNonEmpty(s, FirstOf(TICKET_KEYS)), false)
  }

  method DerivePrimaryChange(s: seq<StoredEvent>, hash: string -> string) returns (out: View)
    ensures out == Derived(s, hash)
  {
    hide FirstExtension, ExtensionString, ExportResultOf;
    if |s| == 0 {
      return EMPTY_VIEW;
    }
    var application := s[0].subject;
    var cluster, namespace := ExtensionString(s[0].ext, "cluster"), ExtensionString(s[0].ext, "namespace");
    var changeID, revision, initiator, external, ticket := "", "", "", "", "";
    var result := ResultUnknown;
    assert s[..0] == [];
    for i := 0 to |s|
      invariant changeID == FirstNonEmpty(s[..i], ExtensionAt("change_id"))
      invariant revision == FirstNonEmpty(s[..i], FirstOf(REVISION_KEYS))
      invariant initiator == FirstNonEmpty(s[..i], ExtensionAt("initiator"))
      invariant external == FirstNonEmpty(s[..i], FirstOf(EXTERNAL_KEYS))
      invariant ticket == FirstNonEmpty(s[..i], FirstOf(TICKET_KEYS))
      invariant result == ExportResult(s[..i])
    {
      var e := s[i];
      assert s[..i + 1][..i] == s[..i] && s[..i + 1][i] == e;
      if changeID == "" { changeID := ExtensionString(e.ext, "change_id"); }
      if revision == "" { revision := FirstExtension(e.ext, REVISION_KEYS); }
      if initiator == "" { initiator := ExtensionString(e.ext, "initiator"); }
      if external == "" { external := FirstExtension(e.ext, EXTERNAL_KEYS); }
      if ticket == "" { ticket := FirstExtension(e.ext, TICKET_KEYS); }
      var says := ExportResultOf(e);
      if says.ResultFailed? {
        result := ResultFailed;
      } else if !result.ResultFailed? && says.ResultSucceeded? {
        result := ResultSucceeded;
      }
    }
    assert s[..|s|] == s;
    if changeID == "" {
      changeID := "chg_" + hash(application + ":" + cluster + ":" + namespace + ":" + revision);
    }
    return View(changeID, application, cluster, namespace, revision, initiator, result, external, ticket, false);
  }

  ghost predicate IsPack(p: Pack, events: seq<StoredEvent>, hash: string -> string) {
    SortedFrom(p.timeline, events, EventKey) && p.view == Derived(p.timeline, hash) && p.count == |events|
  }

  method CreateEvidencePack(events: seq<StoredEvent>, hash: string -> string) returns (p: Pack)
    ensures IsPack(p, events, hash)
  {
    hide Derived;
    var timeline := SortRows(events, EventKey);
    var view := DerivePrimaryChange(timeline, hash);
    SameLength(timeline, events);
    p := Pack(view, timeline, |timeline|);
  }

  // What a pack says, by the events exported.

  /** The value is that of the first event that has one under any of these keys, and of its first such key. */
  ghost predicate FirstOver(r: string, s: seq<StoredEvent>, keys: seq<string>) {
    if r == "" then forall i :: 0 <= i < |s| ==> IsFirst("", Texts(s[i].ext, keys))
    else exists i :: 0 <= i < |s| && IsFirst(r, Texts(s[i].ext, keys)) &&
                     forall j :: 0 <= j < i ==> IsFirst("", Texts(s[j].ext, keys))
  }

  lemma FirstIsOver(s: seq<StoredEvent>, keys: seq<string>)
    ensures FirstOver(FirstNonEmpty(s, FirstOf(keys)), s, keys)
  {
    hide FirstExtension, FirstNonEmpty, IsFirst, Texts;
    FirstNonEmptyIsFirst(s, FirstOf(keys));
    forall i | 0 <= i < |s| ensures IsFirst(FirstExtension(s[i].ext, keys), Texts(s[i].ext, keys)) {
      FirstExtensionIsFirst(s[i].ext, keys);
    }
  }

  lemma FirstIsOverOne(s: seq<StoredEvent>, key: string)
    ensures FirstOver(FirstNonEmpty(s, ExtensionAt(key)), s, [key])
  {
    hide ExtensionString, FirstNonEmpty;
    FirstNonEmptyIsFirst(s, ExtensionAt(key));
    forall e: StoredEvent ensures IsFirst(ExtensionString(e.ext, key), Texts(e.ext, [key])) {
      assert Texts(e.ext, [key])[0] == ExtensionString(e.ext, key);
    }
    hide Texts, IsFirst;
  }

  /** Whose change a pack shows: the first event's subject, cluster and namespace, the first values of the others,
      and without a change ID the hash of all four. */
  lemma PackNames(p: Pack, events: seq<StoredEvent>, hash: string -> string)
    requires IsPack(p, events, hash) && events != []
    ensures p.timeline != [] && p.count == |events| && !p.view.degradationObserved
    ensures var v, t := p.view, p.timeline;
            && v.application == t[0].subject && v.cluster == ExtensionString(t[0].ext, "cluster")
            && v.namespace == ExtensionString(t[0].ext, "namespace")
            && FirstOver(v.revision, t, ["sync_revision", "revision", "commit_sha"])
            && FirstOver(v.initiator, t, ["initiator"])
            && FirstOver(v.externalChangeID, t, ["external_change_id", "change_id"])
            && FirstOver(v.ticketID, t, ["ticket_id", "ticket_key_primary"])
            && (FirstOver("", t, ["change_id"]) ==>
                  v.changeID == "chg_" + hash(v.application + ":" + v.cluster + ":" + v.namespace + ":" + v.revision))
            && (!FirstOver("", t, ["change_id"]) ==> FirstOver(v.changeID, t, ["change_id"]) && v.changeID != "")
  {
    SameLength(p.timeline, events);
    PackFields(p, events, hash);
    hide ExtensionString, FirstNonEmpty, FirstOver, IsPack;
    var t := p.timeline;
    FirstIsOver(t, REVISION_KEYS);
    FirstIsOver(t, EXTERNAL_KEYS);
    FirstIsOver(t, TICKET_KEYS);
    FirstIsOverOne(t, "initiator");
    FirstIsOverOne(t, "change_id");
    ChangeIDGiven(t, FirstNonEmpty(t, ExtensionAt("change_id")), "change_id");
  }

  lemma PackFields(p: Pack, events: seq<StoredEvent>, hash: string -> string)
    requires IsPack(p, events, hash) && p.timeline != []
    ensures p.count == |events| && !p.view.degradationObserved
    ensures var v, t := p.view, p.timeline;
            && v.application == t[0].subject && v.cluster == ExtensionString(t[0].ext, "cluster")
            && v.namespace == ExtensionString(t[0].ext, "namespace")
            && v.revision == FirstNonEmpty(t, FirstOf(REVISION_KEYS))
            && v.initiator == FirstNonEmpty(t, ExtensionAt("initiator"))
            && v.externalChangeID == FirstNonEmpty(t, FirstOf(EXTERNAL_KEYS))
            && v.ticketID == FirstNonEmpty(t, FirstOf(TICKET_KEYS))
            && var given := FirstNonEmpty(t, ExtensionAt("change_id"));
               v.changeID == if given != "" then given
                 else "chg_" + hash(v.application + ":" + v.cluster + ":" + v.namespace + ":" + v.revision)
  {
    hide ExtensionString, FirstNonEmpty, ExportResult, Sorted, REVISION_KEYS, EXTERNAL_KEYS, TICKET_KEYS, FirstOf,
      ExtensionAt;
  }

  lemma ChangeIDGiven(s: seq<StoredEvent>, r: string, key: string)
    requires FirstOver(r, s, [key])
    ensures FirstOver("", s, [key]) <==> r == ""
  {
    hide Texts;
  }

  /** Type and the first of these members of the data that says something contain the word, in any case. */
  ghost predicate ExportMentions(e: StoredEvent, word: string) {
    exists s :: Contains(Lower(e.typ + " " + s), word) &&
      IsFirst(s, DataTexts(e.data, ["status", "phase", "result", "outcome"]))
  }

  /** The texts under these members of the data. */
  function DataTexts(data: Payload, keys: seq<string>): (r: seq<string>)
    ensures |r| == |keys| && forall i :: 0 <= i < |keys| ==> r[i] == DataString(data, keys[i])
  {
    seq(|keys|, i requires 0 <= i < |keys| => DataString(data, keys[i]))
  }

  lemma {:induction false} FirstDataIsFirst(data: Payload, keys: seq<string>)
    ensures IsFirst(FirstData(data, keys), DataTexts(data, keys))
  {
    hide DataString;
    if keys != [] {
      FirstDataIsFirst(data, keys[1..]);
      var texts, rest := DataTexts(data, keys), DataTexts(data, keys[1..]);
      assert forall i :: 0 <= i < |rest| ==> rest[i] == texts[i + 1];
    }
  }

  lemma OneFirst(a: string, b: string, texts: seq<string>)
    requires IsFirst(a, texts) && IsFirst(b, texts)
    ensures a == b
  {
  }

  lemma ExportMentionsIff(e: StoredEvent, word: string)
    ensures ExportMentions(e, word) <==>
              Contains(Lower(e.typ + " " + FirstData(e.data, ["status", "phase", "result", "outcome"])), word)
  {
    hide Contains, Lower, DataTexts, FirstData, IsFirst;
    var keys := ["status", "phase", "result", "outcome"];
    var texts := DataTexts(e.data, keys);
    FirstDataIsFirst(e.data, keys);
    forall s | IsFirst(s, texts) ensures s == FirstData(e.data, keys) { OneFirst(s, FirstData(e.data, keys), texts); }
  }

  /** The pack's result: failed if an event exported mentions a failure, succeeded if none does and one mentions
      success. Its timeline is those events, by time and then ID. */
  lemma PackSays(p: Pack, events: seq<StoredEvent>, hash: string -> string)
    requires IsPack(p, events, hash)
    ensures multiset(p.timeline) == multiset(events) && forall i, j :: 0 <= i < j < |p.timeline| ==>
              !Precedes(p.timeline[j], p.timeline[i].time, p.timeline[i].id)
    ensures var bad := exists e, w :: e in events && w in ["fail", "error", "degrad", "abort"] && ExportMentions(e, w);
            var good := exists e, w :: e in events && w in ["success", "succeed", "complete"] && ExportMentions(e, w);
            p.view.result == if bad then ResultFailed else if good then ResultSucceeded else ResultUnknown
  {
    hide ExportMentions, ExportResultOf, ExportResult, FirstNonEmpty, FirstData, ExportSays;
    forall e ensures e in p.timeline <==> e in events { SortedElements(p.timeline, events, e); }
    ExportResultMeans(p.timeline);
    forall e | e in events ensures ExportSays(e) { ExportResultSays(e); }
    assert p.view.result == ExportResult(p.timeline);
    WordsOfEvents(events);
  }

  /** How one event's mentions decide what it says. */
  ghost predicate ExportSays(e: StoredEvent) {
    var bad := exists w :: w in ["fail", "error", "degrad", "abort"] && ExportMentions(e, w);
    var good := exists w :: w in ["success", "succeed", "complete"] && ExportMentions(e, w);
    ExportResultOf(e) == if bad then ResultFailed else if good then ResultSucceeded else ResultUnknown
  }

  lemma ExportResultSays(e: StoredEvent)
    ensures ExportSays(e)
  {
    hide Contains, Lower, FirstData, ExportMentions;
    forall w: string
      ensures ExportMentions(e, w) <==>
                Contains(Lower(e.typ + " " + FirstData(e.data, ["status", "phase", "result", "outcome"])), w)
    {
      ExportMentionsIff(e, w);
    }
    var bad, good := ["fail", "error", "degrad", "abort"], ["success", "succeed", "complete"];
    assert bad[0] in bad && bad[1] in bad && bad[2] in bad && bad[3] in bad;
    assert good[0] in good && good[1] in good && good[2] in good;
  }

  lemma WordsOfEvents(events: seq<StoredEvent>)
    requires forall e :: e in events ==> ExportSays(e)
    ensures (exists e :: e in events && ExportResultOf(e).ResultFailed?) <==>
              exists e, w :: e in events && w in ["fail", "error", "degrad", "abort"] && ExportMentions(e, w)
    ensures (forall e :: e in events ==> ExportResultOf(e).ResultUnknown?) <==>
              && !(exists e, w :: e in events && w in ["fail", "error", "degrad", "abort"] && ExportMentions(e, w))
              && !exists e, w :: e in events && w in ["success", "succeed", "complete"] && ExportMentions(e, w)
  {
    hide ExportMentions, ExportResultOf;
  }

  /** Exporting the same events, in whatever order they were fetched, gives the same pack. */
  lemma ExportIsDeterministic(p: Pack, p': Pack, events: seq<StoredEvent>, events': seq<StoredEvent>,
                              hash: string -> string)
    requires IsPack(p, events, hash) && IsPack(p', events', hash)
    requires multiset(events) == multiset(events')
    requires forall i, j :: 0 <= i < j < |events| ==> events[i].id != events[j].id
    ensures p == p'
  {
    hide Derived;
    var rows := set e | e in events;
    SameLength(events, events');
    forall e ensures e in events' <==> e in rows { SortedElements(events', events, e); }
    NoRepeats(events', events);
    ListedAfterSort(p.timeline, events, rows, EventKey);
    ListedAfterSort(p'.timeline, events', rows, EventKey);
    ListingUnique(p.timeline, p'.timeline, rows, EventKey);
  }

  // The export's result and the change list's.

  /** The event is, or is how a store keeps, a normalised source event. */
  ghost predicate FromArgo(e: StoredEvent, settings: Settings) {
    exists se :: Represents(e, se, settings)
  }

  predicate SaysHealthy(e: StoredEvent) {
    Contains(Lower(e.typ + " " + StatusText(e)), "healthy")
  }

  lemma StatusMembers(se: SourceEvent, settings: Settings)
    ensures var d := DataOf(se, settings);
            "phase" in d && "result" in d && d["phase"] == d["result"] && "status" !in d
  {
    hide Annotation, Trim;
  }

  /** A normalised event says the same under "phase" and "result", and nothing under "status". */
  lemma ArgoStatusTexts(e: StoredEvent, settings: Settings)
    requires FromArgo(e, settings)
    ensures DataString(e.data, "phase") == DataString(e.data, "result") && DataString(e.data, "status") == ""
  {
    hide ExtensionsOf, DataOf, Trim, Or;
    var se :| Represents(e, se, settings);
    StatusMembers(se, settings);
  }

  lemma FirstDataOfFour(data: Payload, a: string, b: string, c: string, d: string)
    ensures FirstData(data, [a, b, c, d]) ==
              OrElse(DataString(data, a), OrElse(DataString(data, b), OrElse(DataString(data, c), DataString(data, d))))
  {
    hide DataString;
    assert [a, b, c, d][1..] == [b, c, d] && [b, c, d][1..] == [c, d] && [c, d][1..] == [d] && [d][1..] == [];
    assert FirstData(data, [d]) == DataString(data, d);
    assert FirstData(data, [c, d]) == OrElse(DataString(data, c), DataString(data, d));
    assert FirstData(data, [b, c, d]) == OrElse(DataString(data, b), FirstData(data, [c, d]));
  }

  /** Event by event, export and change list agree on failure, and export success is change-list success. */
  lemma ResultsOfOne(e: StoredEvent, settings: Settings)
    requires FromArgo(e, settings)
    ensures ExportResultOf(e).ResultFailed? <==> InferResult(e).ResultFailed?
    ensures ExportResultOf(e).ResultSucceeded? ==> InferResult(e).ResultSucceeded?
    ensures InferResult(e).ResultSucceeded? ==> ExportResultOf(e).ResultSucceeded? || SaysHealthy(e)
  {
    hide Contains, Lower, FromArgo, FirstData, StatusText, SaysFailed;
    ExportReadsStatusText(e, settings);
  }

  lemma ExportReadsStatusText(e: StoredEvent, settings: Settings)
    requires FromArgo(e, settings)
    ensures FirstData(e.data, ["status", "phase", "result", "outcome"]) == StatusText(e)
  {
    ArgoStatusTexts(e, settings);
    FirstDataOfFour(e.data, "status", "phase", "result", "outcome");
    hide DataString, FirstData, FromArgo;
  }

  /** For the Argo events of one change, the pack says failed exactly when the change list does, and when it
      says succeeded so does the change list; short of that only "healthy" texts keep them apart. */
  lemma ExportAgreesWithChange(s: seq<StoredEvent>, g: seq<StoredEvent>, settings: Settings)
    requires multiset(s) == multiset(g) && forall e :: e in g ==> FromArgo(e, settings)
    ensures ExportResult(s).ResultFailed? <==> MergedResult(g).ResultFailed?
    ensures ExportResult(s).ResultSucceeded? ==> MergedResult(g).ResultSucceeded?
    ensures (forall e :: e in g ==> !SaysHealthy(e)) ==> ExportResult(s) == MergedResult(g)
  {
    hide Contains, Lower, FromArgo, InferResult, ExportResultOf, StatusText, ExportResult, MergedResult;
    ExportResultMeans(s);
    MergedResultMeans(g);
    forall e ensures e in s <==> e in g { SortedElements(s, g, e); }
    forall e | e in g
      ensures ExportResultOf(e).ResultFailed? <==> InferResult(e).ResultFailed?
      ensures ExportResultOf(e).ResultSucceeded? ==> InferResult(e).ResultSucceeded?
      ensures InferResult(e).ResultSucceeded? ==> ExportResultOf(e).ResultSucceeded? || SaysHealthy(e)
    {
      ResultsOfOne(e, settings);
    }
  }
}
