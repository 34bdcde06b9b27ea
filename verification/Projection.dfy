/** Projecting events into changes: which change an event belongs to, the loop that accumulates changes in a
    map, and the summary computed over each change's sorted events. */
module Projection {
  import opened Text
  import opened Clock
  import opened Keyset
  import opened CloudEvents
  import opened Store

  /** Library calls: SHA-256 in hex, RFC 3339 to the second, and how many approvals a payload lists. */
  datatype Library = Library(hash: string -> string, rfc3339: int -> string, approvals: Payload -> nat)

  datatype ResultStatus = ResultUnknown | ResultSucceeded | ResultFailed {
    function Name(): string {
      match this case ResultUnknown => "unknown" case ResultSucceeded => "succeeded" case ResultFailed => "failed"
    }
  }

  datatype HealthStatus = HealthUnknown | Healthy | Degraded | Progressing | Missing {
    function Name(): string {
      match this
      case HealthUnknown => "unknown"
      case Healthy => "healthy"
      case Degraded => "degraded"
      case Progressing => "progressing"
      case Missing => "missing"
    }
  }

  datatype Degradation = Degradation(observed: bool, firstTimestamp: Option<int>)

  datatype Change = Change(
    id: string, subject: string, project: string, targetCluster: string, namespace: string,
    provider: string, reference: string, revision: string, initiator: string,
    externalChangeID: string, ticketID: string, approvalReference: string,
    result: ResultStatus, health: HealthStatus, healthAtStart: HealthStatus, healthAfterDeploy: HealthStatus,
    degradation: Degradation, lastUpdatedAt: int, windowSeconds: int, mayBeIncomplete: bool,
    hasApprovals: bool, startedAt: int, completedAt: int, eventCount: nat)

  datatype ChangeDetail = ChangeDetail(change: Change, events: seq<StoredEvent>)

  // What an event says.

  function FirstExtension(ext: map<string, ExtValue>, keys: seq<string>): string {
    if keys == [] then ""
    else if ExtensionString(ext, keys[0]) != "" then ExtensionString(ext, keys[0])
    else FirstExtension(ext, keys[1..])
  }

  function PrimaryProvider(source: string, ext: map<string, ExtValue>): string {
    if ExtensionBool(ext, "supporting_observation") &&
       FirstExtension(ext, ["operation_id", "history_id", "deploy_id", "sync_revision"]) != "" then "argo"
    else if ExtensionString(ext, "primary_provider") != "" then Lower(ExtensionString(ext, "primary_provider"))
    else
      var s := Lower(Trim(source));
      if s == "argocd" || s == "argo" then "argo"
      else if s == "github_actions" || s == "gha" then "gha"
      else if s == "gitlab_ci" || s == "gitlabci" then "gitlabci"
      else if s == "" then "generic"
      else s
  }

  function Reference(e: StoredEvent): string {
    FirstExtension(e.ext, ["primary_reference", "operation_id", "history_id", "deploy_id", "pipeline_id", "run_id",
                           "job_id"])
  }

  function RevisionOf(e: StoredEvent): string {
    FirstExtension(e.ext, ["revision", "sync_revision", "commit_sha"])
  }

  function SubjectText(e: StoredEvent): string {
    Lower(e.subject + ":" + ExtensionString(e.ext, "namespace") + ":" + ExtensionString(e.ext, "cluster"))
  }

  /** The text a change's ID is the hash of. */
  function IdentityText(e: StoredEvent, lib: Library): string {
    SubjectText(e) + ":" + PrimaryProvider(e.source, e.ext) + ":" +
    (if Reference(e) != "" then Reference(e) else RevisionOf(e) + ":" + lib.rfc3339(e.time))
  }

  /** deriveChangeIdentity: the change an event belongs to. */
  function ChangeID(e: StoredEvent, lib: Library): string {
    "chg_" + lib.hash(IdentityText(e, lib))
  }

  function DataString(data: Payload, key: string): string {
    if key in data.fields && data.fields[key].JText? then Trim(data.fields[key].s) else ""
  }

  function Member(j: Json, key: string): Json {
    if j.JObject? && key in j.fields then j.fields[key] else JOther
  }

  function PayloadAnnotation(data: Payload, key: string): string {
    var a := Member(Member(Member(JObject(data.fields), "source_payload"), "annotations"), key);
    if a.JText? then Trim(a.s) else ""
  }

  function OrElse(s: string, t: string): string { if s != "" then s else t }

  function ExternalChangeIDOf(e: StoredEvent): string {
    OrElse(OrElse(ExtensionString(e.ext, "external_change_id"), ExtensionString(e.ext, "change_id")),
           PayloadAnnotation(e.data, "evidra.rest/change-id"))
  }

  function TicketIDOf(e: StoredEvent): string {
    OrElse(ExtensionString(e.ext, "ticket_id"), PayloadAnnotation(e.data, "evidra.rest/ticket"))
  }

  function ApprovalReferenceOf(e: StoredEvent): string {
    OrElse(ExtensionString(e.ext, "approval_reference"), PayloadAnnotation(e.data, "evidra.rest/approvals-ref"))
  }

  function StatusText(e: StoredEvent): string {
    OrElse(OrElse(DataString(e.data, "status"), DataString(e.data, "result")),
           OrElse(DataString(e.data, "phase"), DataString(e.data, "outcome")))
  }

  predicate SaysFailed(bucket: string) {
    Contains(bucket, "fail") || Contains(bucket, "error") || Contains(bucket, "degrad") || Contains(bucket, "abort")
  }

  function InferResult(e: StoredEvent): ResultStatus {
    var bucket := Lower(e.typ + " " + StatusText(e));
    if SaysFailed(bucket) then ResultFailed
    else if Contains(bucket, "success") || Contains(bucket, "succeed") || Contains(bucket, "healthy") ||
            Contains(bucket, "complete")
    then ResultSucceeded
    else ResultUnknown
  }

  function InferHealth(e: StoredEvent): HealthStatus {
    var raw := Lower(OrElse(ExtensionString(e.ext, "health_status"), ExtensionString(e.ext, "health")));
    if raw == "healthy" then Healthy
    else if raw == "degraded" then Degraded
    else if raw == "progressing" then Progressing
    else if raw == "missing" then Missing
    else HealthUnknown
  }

  // The same, told from the texts an event carries.

  /** The first text of a list that says something, empty if none does. */
  ghost predicate IsFirst(r: string, texts: seq<string>) {
    if r == "" then forall i :: 0 <= i < |texts| ==> texts[i] == ""
    else exists i :: 0 <= i < |texts| && texts[i] == r && forall j :: 0 <= j < i ==> texts[j] == ""
  }

  /** The texts under these extension keys. */
  function Texts(ext: map<string, ExtValue>, keys: seq<string>): (r: seq<string>)
    ensures |r| == |keys| && forall i :: 0 <= i < |keys| ==> r[i] == ExtensionString(ext, keys[i])
  {
    seq(|keys|, i requires 0 <= i < |keys| => ExtensionString(ext, keys[i]))
  }

  lemma {:induction false} FirstExtensionIsFirst(ext: map<string, ExtValue>, keys: seq<string>)
    ensures IsFirst(FirstExtension(ext, keys), Texts(ext, keys))
  {
    hide ExtensionString;
    if keys != [] {
      FirstExtensionIsFirst(ext, keys[1..]);
      assert Texts(ext, keys)[1..] == Texts(ext, keys[1..]);
      var rest := Texts(ext, keys[1..]);
      assert forall i :: 0 <= i < |rest| ==> rest[i] == Texts(ext, keys)[i + 1];
    }
  }

  /** An event's reference, and its revision: the first of these extensions. */
  lemma ReferenceIsFirst(e: StoredEvent)
    ensures IsFirst(Reference(e), Texts(e.ext, ["primary_reference", "operation_id", "history_id", "deploy_id",
                                                "pipeline_id", "run_id", "job_id"]))
    ensures IsFirst(RevisionOf(e), Texts(e.ext, ["revision", "sync_revision", "commit_sha"]))
  {
    FirstExtensionIsFirst(e.ext, ["primary_reference", "operation_id", "history_id", "deploy_id", "pipeline_id",
                                  "run_id", "job_id"]);
    FirstExtensionIsFirst(e.ext, ["revision", "sync_revision", "commit_sha"]);
    hide FirstExtension, Texts, IsFirst;
  }

  /** Who an event is from: Argo for a supporting observation that an operation can be told from; else what it
      says; else what its source is known as, "generic" if it has none. */
  lemma ProviderIs(source: string, ext: map<string, ExtValue>)
    ensures var provider, s := PrimaryProvider(source, ext), Lower(Trim(source));
            var told := ExtensionBool(ext, "supporting_observation") &&
                        exists k :: k in ["operation_id", "history_id", "deploy_id", "sync_revision"] &&
                                    ExtensionString(ext, k) != "";
            var said := ExtensionString(ext, "primary_provider");
            && (told ==> provider == "argo")
            && (!told && said != "" ==> provider == Lower(said))
            && (!told && said == "" ==>
                  && (s in {"argocd", "argo"} ==> provider == "argo")
                  && (s in {"github_actions", "gha"} ==> provider == "gha")
                  && (s in {"gitlab_ci", "gitlabci"} ==> provider == "gitlabci")
                  && (s == "" ==> provider == "generic")
                  && (s !in {"argocd", "argo", "github_actions", "gha", "gitlab_ci", "gitlabci", ""} ==> provider == s))
  {
    var keys := ["operation_id", "history_id", "deploy_id", "sync_revision"];
    FirstExtensionIsFirst(ext, keys);
    SourceNamesDiffer(Lower(Trim(source)));
    hide FirstExtension, ExtensionString, ExtensionBool, Trim, Lower;
    assert forall i :: 0 <= i < |keys| ==> Texts(ext, keys)[i] == ExtensionString(ext, keys[i]) && keys[i] in keys;
    hide Texts;
  }

  lemma SourceNamesDiffer(s: string)
    ensures s in {"argocd", "argo"} ==> s !in {"github_actions", "gha", "gitlab_ci", "gitlabci", ""}
    ensures s in {"github_actions", "gha"} ==> s !in {"gitlab_ci", "gitlabci", ""}
    ensures s in {"gitlab_ci", "gitlabci"} ==> s != ""
  {
  }

  /** The change an event belongs to: the hash of subject, namespace and cluster in small letters, provider, and
      reference, or revision and second without one. */
  lemma ChangeIDIs(e: StoredEvent, lib: Library)
    ensures var subject := Lower(e.subject + ":" + ExtensionString(e.ext, "namespace") + ":" +
                                 ExtensionString(e.ext, "cluster"));
            var named := subject + ":" + PrimaryProvider(e.source, e.ext) + ":";
            && (Reference(e) != "" ==> ChangeID(e, lib) == "chg_" + lib.hash(named + Reference(e)))
            && (Reference(e) == "" ==>
                  ChangeID(e, lib) == "chg_" + lib.hash(named + (RevisionOf(e) + ":" + lib.rfc3339(e.time))))
  {
    hide Lower, ExtensionString, PrimaryProvider, Reference, RevisionOf;
  }

  lemma DataStringIs(data: Payload, key: string, s: string)
    ensures Lookup(data.fields, key) == Some(JText(s)) ==> DataString(data, key) == Trim(s)
    ensures (forall t :: Lookup(data.fields, key) != Some(JText(t))) ==> DataString(data, key) == ""
  {
    hide Trim;
    if key in data.fields && data.fields[key].JText? {
      assert Lookup(data.fields, key) == Some(JText(data.fields[key].s));
    }
  }

  /** The status an event reports: the first that says something of these members of its data. */
  lemma StatusIsFirst(e: StoredEvent)
    ensures IsFirst(StatusText(e), [DataString(e.data, "status"), DataString(e.data, "result"),
                                    DataString(e.data, "phase"), DataString(e.data, "outcome")])
  {
    hide DataString;
    var texts := [DataString(e.data, "status"), DataString(e.data, "result"), DataString(e.data, "phase"),
                  DataString(e.data, "outcome")];
    assert texts[0] == DataString(e.data, "status") && texts[1] == DataString(e.data, "result");
    assert texts[2] == DataString(e.data, "phase") && texts[3] == DataString(e.data, "outcome");
  }

  /** Type and status contain the word, in any case. */
  predicate Mentions(e: StoredEvent, word: string) {
    Contains(Lower(e.typ + " " + StatusText(e)), word)
  }

  /** An event has failed if type or status mention failing, an error, degradation or an abort, and otherwise has
      succeeded if they mention success, succeeding, health or completion. */
  lemma ResultIs(e: StoredEvent)
    ensures var failed := exists w :: w in ["fail", "error", "degrad", "abort"] && Mentions(e, w);
            var succeeded := exists w :: w in ["success", "succeed", "healthy", "complete"] && Mentions(e, w);
            && (InferResult(e) == ResultFailed <==> failed)
            && (InferResult(e) == ResultSucceeded <==> !failed && succeeded)
            && (InferResult(e) == ResultUnknown <==> !failed && !succeeded)
  {
    hide Contains, Lower, StatusText;
    var bad, good := ["fail", "error", "degrad", "abort"], ["success", "succeed", "healthy", "complete"];
    assert bad[0] in bad && bad[1] in bad && bad[2] in bad && bad[3] in bad;
    assert good[0] in good && good[1] in good && good[2] in good && good[3] in good;
  }

  /** The event's health extension, "health_status" or "health" without it, is this word in any case. */
  predicate HealthSaid(e: StoredEvent, word: string) {
    if ExtensionString(e.ext, "health_status") != "" then Lower(ExtensionString(e.ext, "health_status")) == word
    else Lower(ExtensionString(e.ext, "health")) == word
  }

  lemma HealthIs(e: StoredEvent)
    ensures InferHealth(e) == Healthy <==> HealthSaid(e, "healthy")
    ensures InferHealth(e) == Degraded <==> HealthSaid(e, "degraded")
    ensures InferHealth(e) == Progressing <==> HealthSaid(e, "progressing")
    ensures InferHealth(e) == Missing <==> HealthSaid(e, "missing")
    ensures InferHealth(e) == HealthUnknown <==>
              !exists w :: w in ["healthy", "degraded", "progressing", "missing"] && HealthSaid(e, w)
  {
    hide ExtensionString, Lower;
    HealthWordsDiffer();
    var words := ["healthy", "degraded", "progressing", "missing"];
    assert words[0] in words && words[1] in words && words[2] in words && words[3] in words;
  }

  lemma HealthWordsDiffer()
    ensures |"healthy"| == |"missing"| == 7 && "healthy"[0] != "missing"[0]
    ensures |"degraded"| == 8 && |"progressing"| == 11
  {
  }

  /** A correlation field is its extension, or the annotation Argo passed on. */
  lemma CorrelationsAre(e: StoredEvent)
    ensures IsFirst(ExternalChangeIDOf(e),
                    [ExtensionString(e.ext, "external_change_id"), ExtensionString(e.ext, "change_id"),
                     PayloadAnnotation(e.data, "evidra.rest/change-id")])
    ensures IsFirst(TicketIDOf(e),
                    [ExtensionString(e.ext, "ticket_id"), PayloadAnnotation(e.data, "evidra.rest/ticket")])
    ensures IsFirst(ApprovalReferenceOf(e),
                    [ExtensionString(e.ext, "approval_reference"),
                     PayloadAnnotation(e.data, "evidra.rest/approvals-ref")])
  {
    hide ExtensionString, PayloadAnnotation;
    FirstOfTwo(ExtensionString(e.ext, "ticket_id"), PayloadAnnotation(e.data, "evidra.rest/ticket"));
    FirstOfTwo(ExtensionString(e.ext, "approval_reference"), PayloadAnnotation(e.data, "evidra.rest/approvals-ref"));
    FirstOfThree(ExtensionString(e.ext, "external_change_id"), ExtensionString(e.ext, "change_id"),
                 PayloadAnnotation(e.data, "evidra.rest/change-id"));
  }

  lemma FirstOfTwo(a: string, b: string)
    ensures IsFirst(OrElse(a, b), [a, b])
  {
    assert [a, b][0] == a && [a, b][1] == b;
  }

  lemma FirstOfThree(a: string, b: string, c: string)
    ensures IsFirst(OrElse(OrElse(a, b), c), [a, b, c])
  {
    assert [a, b, c][0] == a && [a, b, c][1] == b && [a, b, c][2] == c;
  }

  lemma PayloadAnnotationIs(data: Payload, payload: map<string, Json>, kept: map<string, Json>, key: string, s: string)
    requires Lookup(data.fields, "source_payload") == Some(JObject(payload))
    requires Lookup(payload, "annotations") == Some(JObject(kept)) && Lookup(kept, key) == Some(JText(s))
    ensures PayloadAnnotation(data, key) == Trim(s)
  {
    hide Trim;
  }

  // What a group of events adds up to, stated without the loop.

  function FirstNonEmpty(g: seq<StoredEvent>, f: StoredEvent -> string): string {
    if g == [] then "" else OrElse(FirstNonEmpty(g[..|g| - 1], f), f(g[|g| - 1]))
  }

  /** It is the first non-empty value in input order, or empty if there is none. */
  lemma {:induction false} FirstNonEmptyIsFirst(g: seq<StoredEvent>, f: StoredEvent -> string)
    ensures var r := FirstNonEmpty(g, f);
            if r == "" then forall i :: 0 <= i < |g| ==> f(g[i]) == ""
            else exists i :: 0 <= i < |g| && f(g[i]) == r && forall j :: 0 <= j < i ==> f(g[j]) == ""
  {
    if g != [] { FirstNonEmptyIsFirst(g[..|g| - 1], f); }
  }

  function Earliest(g: seq<StoredEvent>): (t: int)
    requires g != []
    ensures exists i :: 0 <= i < |g| && g[i].time == t
    ensures forall i :: 0 <= i < |g| ==> t <= g[i].time
  {
    var last := g[|g| - 1].time;
    if |g| == 1 then last else
      var before := Earliest(g[..|g| - 1]);
      if last < before then last else before
  }

  function Latest(g: seq<StoredEvent>): (t: int)
    requires g != []
    ensures exists i :: 0 <= i < |g| && g[i].time == t
    ensures forall i :: 0 <= i < |g| ==> t >= g[i].time
  {
    var last := g[|g| - 1].time;
    if |g| == 1 then last else
      var before := Latest(g[..|g| - 1]);
      if last > before then last else before
  }

  function MergeResult(current: ResultStatus, next: ResultStatus): ResultStatus {
    if current.ResultFailed? || next.ResultFailed? then ResultFailed
    else if current.ResultSucceeded? || next.ResultSucceeded? then ResultSucceeded
    else ResultUnknown
  }

  function MergedResult(g: seq<StoredEvent>): ResultStatus {
    if g == [] then ResultUnknown else MergeResult(MergedResult(g[..|g| - 1]), InferResult(g[|g| - 1]))
  }

  /** Failed if any event failed, else succeeded if any succeeded: the order plays no part. */
  lemma {:induction false} MergedResultMeans(g: seq<StoredEvent>)
    ensures MergedResult(g).ResultFailed? <==> exists e :: e in g && InferResult(e).ResultFailed?
    ensures MergedResult(g).ResultUnknown? <==> forall e :: e in g ==> InferResult(e).ResultUnknown?
  {
    hide InferResult;
    if g != [] {
      MergedResultMeans(g[..|g| - 1]);
      assert g == g[..|g| - 1] + [g[|g| - 1]];
    }
  }

  function MergeHealth(current: HealthStatus, next: HealthStatus): HealthStatus {
    if next.Degraded? then Degraded
    else if next.Progressing? && !current.Degraded? then Progressing
    else if next.Healthy? && current.HealthUnknown? then Healthy
    else if next.Missing? && current.HealthUnknown? then Missing
    else current
  }

  function MergedHealth(g: seq<StoredEvent>): HealthStatus {
    if g == [] then HealthUnknown else MergeHealth(MergedHealth(g[..|g| - 1]), InferHealth(g[|g| - 1]))
  }

  /** Degraded if any event is, else progressing if any is, else the first that is known, else unknown. */
  lemma {:induction false} MergedHealthMeans(g: seq<StoredEvent>)
    ensures var r := MergedHealth(g);
            && (r.Degraded? <==> exists e :: e in g && InferHealth(e).Degraded?)
            && (r.Progressing? <==>
                  (exists e :: e in g && InferHealth(e).Progressing?) &&
                  !exists e :: e in g && InferHealth(e).Degraded?)
            && (r.HealthUnknown? <==> forall e :: e in g ==> InferHealth(e).HealthUnknown?)
            && (r.Healthy? || r.Missing? ==>
                  exists i :: 0 <= i < |g| && InferHealth(g[i]) == r &&
                    forall j :: 0 <= j < i ==> InferHealth(g[j]).HealthUnknown?)
  {
    hide InferHealth;
    if g != [] {
      var before, last := g[..|g| - 1], g[|g| - 1];
      MergedHealthMeans(before);
      assert g == before + [last];
      assert forall i :: 0 <= i < |before| ==> before[i] in g;
    }
  }

  predicate AnyApprovals(g: seq<StoredEvent>, lib: Library) {
    exists i :: 0 <= i < |g| && lib.approvals(g[i].data) > 0
  }

  function ExtensionAt(key: string): StoredEvent -> string {
    (e: StoredEvent) => ExtensionString(e.ext, key)
  }

  /** The fields a change has before it is finalised, from its events in input order. */
  function Summary(g: seq<StoredEvent>, lib: Library): Change
    requires g != []
  {
    var first := g[0];
    Change(ChangeID(first, lib), first.subject, FirstNonEmpty(g, ExtensionAt("project")),
           FirstNonEmpty(g, ExtensionAt("cluster")), FirstNonEmpty(g, ExtensionAt("namespace")),
           PrimaryProvider(first.source, first.ext), Reference(first), RevisionOf(first),
           FirstNonEmpty(g, ExtensionAt("initiator")), FirstNonEmpty(g, ExternalChangeIDOf),
           FirstNonEmpty(g, TicketIDOf), FirstNonEmpty(g, ApprovalReferenceOf),
           MergedResult(g), MergedHealth(g), HealthUnknown, HealthUnknown, Degradation(false, None), 0, 0, false,
           AnyApprovals(g, lib), Earliest(g), Latest(g), |g|)
  }

  // Health along the sorted events.

  datatype Span = Always | UpTo(t: int) | From(t: int) {
    predicate Has(time: int) {
      match this case Always => true case UpTo(t) => time <= t case From(t) => time >= t
    }
  }

  function LastKnown(s: seq<StoredEvent>, span: Span): HealthStatus {
    if s == [] then HealthUnknown
    else
      var last := s[|s| - 1];
      if !InferHealth(last).HealthUnknown? && span.Has(last.time) then InferHealth(last)
      else LastKnown(s[..|s| - 1], span)
  }

  /** The last known health among the events within a span of time, unknown if there is none. */
  lemma {:induction false} LastKnownMeans(s: seq<StoredEvent>, span: Span)
    ensures var h := LastKnown(s, span);
            if h.HealthUnknown? then forall e :: e in s && span.Has(e.time) ==> InferHealth(e).HealthUnknown?
            else exists i :: 0 <= i < |s| && InferHealth(s[i]) == h && span.Has(s[i].time) &&
                             forall j :: i < j < |s| && span.Has(s[j].time) ==> InferHealth(s[j]).HealthUnknown?
  {
    hide InferHealth;
    if s != [] {
      LastKnownMeans(s[..|s| - 1], span);
      assert s == s[..|s| - 1] + [s[|s| - 1]];
    }
  }

  function FirstDegraded(s: seq<StoredEvent>, start: int): Option<int> {
    if s == [] then None
    else
      var last := s[|s| - 1];
      var before := FirstDegraded(s[..|s| - 1], start);
      if before.Some? then before
      else if last.time > start && InferHealth(last).Degraded? then Some(last.time)
      else None
  }

  /** Among time-sorted events: the least time strictly after `start` at which one is degraded, or none. */
  lemma {:induction false} FirstDegradedMeans(s: seq<StoredEvent>, start: int)
    requires TimeSorted(s)
    ensures var t := FirstDegraded(s, start);
            if t.None? then forall e :: e in s && e.time > start ==> !InferHealth(e).Degraded?
            else && (exists e :: e in s && e.time == t.value > start && InferHealth(e).Degraded?)
                 && (forall e :: e in s && e.time > start && InferHealth(e).Degraded? ==> t.value <= e.time)
  {
    hide InferHealth;
    if s != [] {
      var before, last := s[..|s| - 1], s[|s| - 1];
      FirstDegradedMeans(before, start);
      assert s == before + [last];
      assert forall e :: e in before ==> e.time <= last.time;
    }
  }

  const EVIDENCE_WINDOW_SECONDS := 300

  /** The change once its events, in (time, id) order, are `s`. */
  function Finalized(c: Change, s: seq<StoredEvent>, now: int): Change
    requires s != []
  {
    var started, completed := s[0].time, s[|s| - 1].time;
    var atStart, first := LastKnown(s, UpTo(started)), FirstDegraded(s, started);
    c.(startedAt := started, completedAt := completed, eventCount := |s|, lastUpdatedAt := completed,
       windowSeconds := EVIDENCE_WINDOW_SECONDS, mayBeIncomplete := now - completed < EVIDENCE_WINDOW_SECONDS * SECOND,
       healthAtStart := atStart, healthAfterDeploy := LastKnown(s, Always),
       degradation := Degradation(atStart.Healthy? && first.Some?, first))
  }

  ghost predicate TimeSorted(s: seq<StoredEvent>) {
    forall i, j :: 0 <= i < j < |s| ==> s[i].time <= s[j].time
  }

  lemma SortedByTime(s: seq<StoredEvent>)
    requires Sorted(s, EventKey)
    ensures TimeSorted(s)
  {
    forall i, j | 0 <= i < j < |s| ensures s[i].time <= s[j].time {
      assert !Before(EventKey(s[j]), EventKey(s[i]));
    }
  }

  /** Among time-sorted events, "the last known at the final instant, else the last known" is the last known. */
  lemma {:induction false} EndHealthIsLastKnown(s: seq<StoredEvent>, final: int)
    requires TimeSorted(s) && forall e :: e in s ==> e.time <= final
    ensures LastKnown(s, From(final)) == LastKnown(s, Always) || LastKnown(s, From(final)).HealthUnknown?
  {
    hide InferHealth;
    if s != [] {
      var last, before := s[|s| - 1], s[..|s| - 1];
      if last.time < final {
        assert forall e :: e in s ==> e.time < final;
        LastKnownMeans(s, From(final));
      } else {
        EndHealthIsLastKnown(before, final);
      }
    }
  }

  method FinalizeChange(c: ChangeDetail, now: int) returns (r: ChangeDetail)
    ensures SortedFrom(r.events, c.events, EventKey)
    ensures c.events == [] ==> r.change == c.change
    ensures r.events != [] ==> r.change == Finalized(c.change, r.events, now)
  {
    hide InferHealth;
    var s := SortRows(c.events, EventKey);
    if |s| == 0 {
      return ChangeDetail(c.change, s);
    }
    SortedByTime(s);
    var started, completed := s[0].time, s[|s| - 1].time;
    var startHealth, endHealth, lastHealth := HealthUnknown, HealthUnknown, HealthUnknown;
    var first: Option<int> := None;
    for i := 0 to |s|
      invariant startHealth == LastKnown(s[..i], UpTo(started))
      invariant endHealth == LastKnown(s[..i], From(completed))
      invariant lastHealth == LastKnown(s[..i], Always)
      invariant first == FirstDegraded(s[..i], started)
    {
      var e := s[i];
      assert s[..i + 1][..i] == s[..i] && s[..i + 1][i] == e;
      var h := InferHealth(e);
      if h.HealthUnknown? {
        continue;
      }
      if !(e.time > started) {
        startHealth := h;
      }
      if !(e.time < completed) {
        endHealth := h;
      }
      if first.None? && e.time > started && h.Degraded? {
        first := Some(e.time);
      }
      lastHealth := h;
    }
    assert s[..|s|] == s;
    EndHealthIsLastKnown(s, completed);
    if endHealth.HealthUnknown? {
      endHealth := lastHealth;
    }
    var change := c.change.(
      startedAt := started, completedAt := completed, eventCount := |s|, lastUpdatedAt := completed,
      windowSeconds := EVIDENCE_WINDOW_SECONDS, mayBeIncomplete := now - completed < EVIDENCE_WINDOW_SECONDS * SECOND,
      healthAtStart := startHealth, healthAfterDeploy := endHealth,
      degradation := Degradation(startHealth.Healthy? && first.Some?, first));
    return ChangeDetail(change, s);
  }

  // Grouping.

  /** The events of one change, in input order. */
  function Group(events: seq<StoredEvent>, id: string, lib: Library): (g: seq<StoredEvent>)
    ensures forall e :: e in g ==> e in events && ChangeID(e, lib) == id
    ensures forall e :: e in events && ChangeID(e, lib) == id ==> e in g
  {
    if events == [] then []
    else
      assert events == events[..|events| - 1] + [events[|events| - 1]];
      Group(events[..|events| - 1], id, lib) +
        (if ChangeID(events[|events| - 1], lib) == id then [events[|events| - 1]] else [])
  }

  /** The finished change of a group: its events sorted, every field what the group says. */
  ghost predicate Describes(d: ChangeDetail, g: seq<StoredEvent>, lib: Library, now: int) {
    && g != [] && SortedFrom(d.events, g, EventKey) && d.events != []
    && d.change == Finalized(Summary(g, lib), d.events, now)
  }

  /** A change as its first event opens it. */
  function Opened(e: StoredEvent, lib: Library): Change {
    Change(ChangeID(e, lib), e.subject, "", ExtensionString(e.ext, "cluster"), ExtensionString(e.ext, "namespace"),
           PrimaryProvider(e.source, e.ext), Reference(e), RevisionOf(e), "", "", "", "", ResultUnknown, HealthUnknown,
           HealthUnknown, HealthUnknown, Degradation(false, None), 0, 0, false, false, e.time, e.time, 0)
  }

  /** What one more event changes in a summary. */
  function Absorbed(c: Change, e: StoredEvent, lib: Library, count: nat): Change {
    c.(externalChangeID := OrElse(c.externalChangeID, ExternalChangeIDOf(e)),
       ticketID := OrElse(c.ticketID, TicketIDOf(e)),
       approvalReference := OrElse(c.approvalReference, ApprovalReferenceOf(e)),
       hasApprovals := c.hasApprovals || lib.approvals(e.data) > 0,
       project := OrElse(c.project, ExtensionString(e.ext, "project")),
       namespace := OrElse(c.namespace, ExtensionString(e.ext, "namespace")),
       targetCluster := OrElse(c.targetCluster, ExtensionString(e.ext, "cluster")),
       initiator := OrElse(c.initiator, ExtensionString(e.ext, "initiator")),
       startedAt := if e.time < c.startedAt then e.time else c.startedAt,
       completedAt := if e.time > c.completedAt then e.time else c.completedAt, eventCount := count,
       result := MergeResult(c.result, InferResult(e)), health := MergeHealth(c.health, InferHealth(e)))
  }

  /** One round of the accumulating loop. */
  function Grown(cur: Option<ChangeDetail>, e: StoredEvent, lib: Library): ChangeDetail {
    var before := if cur.Some? then cur.value.events else [];
    ChangeDetail(Absorbed(if cur.Some? then cur.value.change else Opened(e, lib), e, lib, |before| + 1), before + [e])
  }

  lemma SummaryOpens(e: StoredEvent, lib: Library)
    ensures Summary([e], lib) == Absorbed(Opened(e, lib), e, lib, 1)
  {
    hide ChangeID, PrimaryProvider, Reference, RevisionOf, ExternalChangeIDOf, TicketIDOf, ApprovalReferenceOf,
      InferResult, InferHealth, ExtensionString;
    assert [e][..0] == [] && [e][0] == e;
    assert forall f :: FirstNonEmpty([e], f) == f(e);
    assert MergedResult([e][..0]) == ResultUnknown && MergedHealth([e][..0]) == HealthUnknown;
    assert MergedResult([e]) == MergeResult(ResultUnknown, InferResult(e));
    assert MergedHealth([e]) == MergeHealth(HealthUnknown, InferHealth(e));
    assert AnyApprovals([e], lib) <==> lib.approvals([e][0].data) > 0;
  }

  lemma SummaryStep(g: seq<StoredEvent>, e: StoredEvent, lib: Library)
    requires g != []
    ensures Summary(g + [e], lib) == Absorbed(Summary(g, lib), e, lib, |g| + 1)
  {
    hide ChangeID, PrimaryProvider, Reference, RevisionOf, ExternalChangeIDOf, TicketIDOf, ApprovalReferenceOf,
      InferResult, InferHealth, ExtensionString, OrElse, MergeResult, MergeHealth;
    assert (g + [e])[..|g|] == g && (g + [e])[0] == g[0];
    AnyApprovalsStep(g, e, lib);
  }

  /** One more event keeps an open change the summary of its events. */
  lemma GrownIsSummary(cur: Option<ChangeDetail>, e: StoredEvent, lib: Library)
    requires cur.Some? ==> cur.value.events != [] && cur.value.change == Summary(cur.value.events, lib)
    ensures var r := Grown(cur, e, lib); r.events != [] && r.change == Summary(r.events, lib)
  {
    hide Summary, Opened, Absorbed;
    if cur.Some? {
      SummaryStep(cur.value.events, e, lib);
    } else {
      assert [] + [e] == [e];
      SummaryOpens(e, lib);
    }
  }

  lemma AnyApprovalsStep(g: seq<StoredEvent>, e: StoredEvent, lib: Library)
    ensures AnyApprovals(g + [e], lib) <==> AnyApprovals(g, lib) || lib.approvals(e.data) > 0
  {
    if AnyApprovals(g, lib) {
      var i :| 0 <= i < |g| && lib.approvals(g[i].data) > 0;
      assert (g + [e])[i] == g[i];
    }
    assert (g + [e])[|g|] == e;
  }

  lemma GroupStep(events: seq<StoredEvent>, i: nat, id: string, lib: Library)
    requires i < |events|
    ensures Group(events[..i + 1], id, lib) == Group(events[..i], id, lib) +
              (if ChangeID(events[i], lib) == id then [events[i]] else [])
  {
    hide ChangeID;
    assert events[..i + 1][..i] == events[..i] && events[..i + 1][i] == events[i];
  }

  /** The open changes are the groups of what has been read, each with its summary so far. */
  ghost predicate Tracks(open: map<string, ChangeDetail>, events: seq<StoredEvent>, lib: Library) {
    && (forall id :: id in open <==> Group(events, id, lib) != [])
    && (forall id :: id in open ==>
        open[id].events == Group(events, id, lib) && open[id].change == Summary(open[id].events, lib))
  }

  lemma TracksStep(open: map<string, ChangeDetail>, events: seq<StoredEvent>, i: nat, lib: Library)
    requires i < |events| && Tracks(open, events[..i], lib)
    ensures var e := events[i];
            var id := ChangeID(e, lib);
            Tracks(open[id := Grown(if id in open then Some(open[id]) else None, e, lib)], events[..i + 1], lib)
  {
    hide ChangeID, Summary, Group, Absorbed, Opened;
    var e := events[i];
    var id := ChangeID(e, lib);
    var cur := if id in open then Some(open[id]) else None;
    GrownIsSummary(cur, e, lib);
    forall k ensures Group(events[..i + 1], k, lib) == Group(events[..i], k, lib) + (if id == k then [e] else []) {
      GroupStep(events, i, k, lib);
    }
  }

  /** The first loop. */
  method AccumulateAll(events: seq<StoredEvent>, lib: Library) returns (open: map<string, ChangeDetail>)
    ensures Tracks(open, events, lib)
  {
    assert Tracks(map[], events[..0], lib);
    hide ChangeID, Tracks, Grown;
    open := map[];
    for i := 0 to |events|
      invariant Tracks(open, events[..i], lib)
    {
      TracksStep(open, events, i, lib);
      var id := ChangeID(events[i], lib);
      open := open[id := Grown(if id in open then Some(open[id]) else None, events[i], lib)];
    }
    assert events[..|events|] == events;
  }

  /** The change map has one finished change for each group, whatever order events of other groups came in. */
  method BuildChangesByID(events: seq<StoredEvent>, lib: Library, now: int) returns (out: map<string, ChangeDetail>)
    ensures forall id :: id in out <==> Group(events, id, lib) != []
    ensures forall id :: id in out ==> Describes(out[id], Group(events, id, lib), lib, now)
  {
    hide ChangeID, Summary, Finalized, Group, Sorted;
    var open := AccumulateAll(events, lib);
    out := open;
    var todo := open.Keys;
    while todo != {}
      invariant todo <= open.Keys && out.Keys == open.Keys
      invariant forall id :: id in todo ==> out[id] == open[id]
      invariant forall id :: id in out && id !in todo ==> Describes(out[id], Group(events, id, lib), lib, now)
      decreases |todo|
    {
      var id :| id in todo;
      todo := todo - {id};
      var finished := FinalizeChange(out[id], now);
      SameLength(finished.events, out[id].events);
      out := out[id := finished];
    }
  }

  lemma SameLength(a: seq<StoredEvent>, b: seq<StoredEvent>)
    requires multiset(a) == multiset(b)
    ensures |a| == |b|
  {
    assert |multiset(a)| == |a| && |multiset(b)| == |b|;
  }
}
