/** Which change a polled Argo event ends up in, across extraction, normalisation and projection. */
module ChangeIdentity {
  import opened Text
  import opened Clock
  import opened Keyset
  import opened CloudEvents
  import opened Store
  import opened Collector
  import opened SourceEvents
  import opened Normalize
  import opened Pipeline
  import opened Projection

  // Looking up the extensions of a normalised event.

  const OPTIONAL_KEYS := {"commit_sha", "argo_result", "history_id", "operation_id", "health_status",
                          "external_change_id", "ticket_id", "approval_reference", "approvals_json"}

  const BASE_KEYS := {"cluster", "namespace", "initiator", "sync_revision", "argo_event_type"}

  /** A key that is written first and never again. */
  lemma BaseIsKept(se: SourceEvent, settings: Settings, k: string)
    requires k in BASE_KEYS
    ensures Lookup(ExtensionsOf(se, settings), k) == Lookup(BaseExtensions(se, settings), k)
  {
    BaseIsNotOptional(k);
    ExtensionsSay(se, settings, k);
    hide Trim, Annotation, Lookup, ExtensionsOf, BaseExtensions;
  }

  lemma BaseIsNotOptional(k: string)
    requires k in BASE_KEYS
    ensures k !in OPTIONAL_KEYS
  {
  }

  /** A key that normalisation never writes. */
  lemma NeverWritten(se: SourceEvent, settings: Settings, k: string)
    requires k !in OPTIONAL_KEYS && k !in BASE_KEYS
    ensures ExtensionString(ExtensionsOf(se, settings), k) == "" && !ExtensionBool(ExtensionsOf(se, settings), k)
  {
    BaseSays(se, settings);
    ExtensionsSay(se, settings, k);
    hide Trim, Annotation, ExtensionsOf, BaseExtensions, Says;
  }

  lemma OperationIDOf(se: SourceEvent, settings: Settings)
    ensures ExtensionString(ExtensionsOf(se, settings), "operation_id") == Trim(se.operationKey)
  {
    TrimTwice(se.operationKey);
    BaseSays(se, settings);
    assert "operation_id" !in BASE_KEYS;
    LookupOperationID(se, settings);
    hide Trim, ExtensionsOf, BaseExtensions, Says;
  }

  lemma LookupOperationID(se: SourceEvent, settings: Settings)
    ensures Lookup(ExtensionsOf(se, settings), "operation_id") ==
              if Trim(se.operationKey) != "" then Some(Str(Trim(se.operationKey)))
              else Lookup(BaseExtensions(se, settings), "operation_id")
  {
    ExtensionsSay(se, settings, "operation_id");
    hide Trim, Annotation, Lookup, ExtensionsOf, BaseExtensions;
  }

  /** The history ID is stored as a number, which no text lookup sees. */
  lemma HistoryIDIsNoText(se: SourceEvent, settings: Settings)
    ensures ExtensionString(ExtensionsOf(se, settings), "history_id") == ""
  {
    BaseSays(se, settings);
    assert "history_id" !in BASE_KEYS;
    LookupHistoryID(se, settings);
    hide Trim, ExtensionsOf, BaseExtensions, Says;
  }

  lemma LookupHistoryID(se: SourceEvent, settings: Settings)
    ensures Lookup(ExtensionsOf(se, settings), "history_id") ==
              if se.historyID > 0 then Some(Wide(se.historyID)) else Lookup(BaseExtensions(se, settings), "history_id")
  {
    ExtensionsSay(se, settings, "history_id");
    hide Trim, Annotation, Lookup, ExtensionsOf, BaseExtensions;
  }

  lemma SyncRevisionOf(se: SourceEvent, settings: Settings)
    ensures ExtensionString(ExtensionsOf(se, settings), "sync_revision") == Trim(se.revision)
  {
    TrimTwice(se.revision);
    BaseSays(se, settings);
    BaseIsKept(se, settings, "sync_revision");
    ExtensionStringIs(ExtensionsOf(se, settings), "sync_revision", Trim(se.revision));
    hide Trim, ExtensionsOf, BaseExtensions, Lookup, ExtensionString;
  }

  lemma CommitShaOf(se: SourceEvent, settings: Settings)
    requires Trim(se.revision) == ""
    ensures ExtensionString(ExtensionsOf(se, settings), "commit_sha") == ""
  {
    BaseSays(se, settings);
    assert "commit_sha" !in BASE_KEYS;
    LookupCommitSha(se, settings);
    hide Trim, ExtensionsOf, BaseExtensions, Says;
  }

  lemma LookupCommitSha(se: SourceEvent, settings: Settings)
    requires Trim(se.revision) == ""
    ensures Lookup(ExtensionsOf(se, settings), "commit_sha") == Lookup(BaseExtensions(se, settings), "commit_sha")
  {
    ExtensionsSay(se, settings, "commit_sha");
    hide Trim, Annotation, Lookup, ExtensionsOf, BaseExtensions;
  }

  // The identity of a normalised event.

  lemma {:induction false} NothingFirst(ext: map<string, ExtValue>, keys: seq<string>)
    requires forall i :: 0 <= i < |keys| ==> ExtensionString(ext, keys[i]) == ""
    ensures FirstExtension(ext, keys) == ""
  {
    hide ExtensionString;
    if keys != [] { NothingFirst(ext, keys[1..]); }
  }

  lemma SecondFirst(ext: map<string, ExtValue>, keys: seq<string>)
    requires |keys| >= 2 && ExtensionString(ext, keys[0]) == "" && ExtensionString(ext, keys[1]) != ""
    ensures FirstExtension(ext, keys) == ExtensionString(ext, keys[1])
  {
    hide ExtensionString;
    assert FirstExtension(ext, keys) == FirstExtension(ext, keys[1..]);
  }

  const UNWRITTEN_KEYS := {"primary_reference", "deploy_id", "pipeline_id", "run_id", "job_id",
                           "supporting_observation", "primary_provider", "revision"}

  lemma UnwrittenKeys()
    ensures UNWRITTEN_KEYS !! (OPTIONAL_KEYS + BASE_KEYS)
  {
  }

  lemma Unwritten(se: SourceEvent, settings: Settings)
    ensures forall k :: k in UNWRITTEN_KEYS ==>
              ExtensionString(ExtensionsOf(se, settings), k) == "" && !ExtensionBool(ExtensionsOf(se, settings), k)
  {
    UnwrittenKeys();
    hide ExtensionsOf, ExtensionString, ExtensionBool;
    forall k | k in UNWRITTEN_KEYS
      ensures ExtensionString(ExtensionsOf(se, settings), k) == "" && !ExtensionBool(ExtensionsOf(se, settings), k)
    {
      NeverWritten(se, settings, k);
    }
  }

  lemma ExtensionsOfNormalized(se: SourceEvent, settings: Settings, e: StoredEvent)
    requires Represents(e, se, settings)
    ensures e.ext == ExtensionsOf(se, settings) && e.source == "argocd" && e.time == se.occurred &&
              e.subject == Trim(se.app)
  {
    hide ExtensionsOf, DataOf, Trim;
  }

  const REFERENCE_KEYS := ["primary_reference", "operation_id", "history_id", "deploy_id", "pipeline_id", "run_id",
                           "job_id"]

  lemma ReferenceKeys()
    ensures forall i :: 0 <= i < |REFERENCE_KEYS| ==> i == 1 || i == 2 || REFERENCE_KEYS[i] in UNWRITTEN_KEYS
  {
  }

  /** The reference of a normalised event is its operation key. */
  lemma ArgoReference(se: SourceEvent, settings: Settings, e: StoredEvent)
    requires Represents(e, se, settings)
    ensures Reference(e) == Trim(se.operationKey)
  {
    hide ExtensionsOf, ExtensionString, ExtensionBool, Trim, Represents, FirstExtension;
    ExtensionsOfNormalized(se, settings, e);
    Unwritten(se, settings);
    ReferenceKeys();
    OperationIDOf(se, settings);
    HistoryIDIsNoText(se, settings);
    assert Reference(e) == FirstExtension(e.ext, REFERENCE_KEYS);
    assert REFERENCE_KEYS[1] == "operation_id" && REFERENCE_KEYS[2] == "history_id";
    if Trim(se.operationKey) == "" {
      NothingFirst(e.ext, REFERENCE_KEYS);
    } else {
      SecondFirst(e.ext, REFERENCE_KEYS);
    }
  }

  /** Its revision is its revision... */
  lemma ArgoRevision(se: SourceEvent, settings: Settings, e: StoredEvent)
    requires Represents(e, se, settings)
    ensures RevisionOf(e) == Trim(se.revision)
  {
    hide ExtensionsOf, ExtensionString, ExtensionBool, Trim, Represents, FirstExtension;
    ExtensionsOfNormalized(se, settings, e);
    Unwritten(se, settings);
    assert "revision" in UNWRITTEN_KEYS;
    SyncRevisionOf(se, settings);
    var keys := ["revision", "sync_revision", "commit_sha"];
    assert RevisionOf(e) == FirstExtension(e.ext, keys);
    if Trim(se.revision) == "" {
      CommitShaOf(se, settings);
      NothingFirst(e.ext, keys);
    } else {
      SecondFirst(e.ext, keys);
    }
  }

  lemma PlainArgo(ext: map<string, ExtValue>)
    requires !ExtensionBool(ext, "supporting_observation") && ExtensionString(ext, "primary_provider") == ""
    ensures PrimaryProvider("argocd", ext) == "argo"
  {
    hide ExtensionBool, ExtensionString, FirstExtension;
    assert Trim("argocd") == "argocd";
    hide Trim;
    assert Lower("argocd") == "argocd";
  }

  /** ...and its provider is Argo. */
  lemma ArgoProvider(se: SourceEvent, settings: Settings, e: StoredEvent)
    requires Represents(e, se, settings)
    ensures PrimaryProvider(e.source, e.ext) == "argo"
  {
    hide ExtensionsOf, ExtensionString, ExtensionBool, Trim, Represents, PrimaryProvider;
    ExtensionsOfNormalized(se, settings, e);
    Unwritten(se, settings);
    assert "supporting_observation" in UNWRITTEN_KEYS && "primary_provider" in UNWRITTEN_KEYS;
    PlainArgo(e.ext);
  }

  lemma SubjectExtension(a: SourceEvent, b: SourceEvent, settings: Settings, k: string)
    requires k == "cluster" || k == "namespace"
    requires a.cluster == b.cluster && a.namespace == b.namespace
    ensures ExtensionString(ExtensionsOf(a, settings), k) == ExtensionString(ExtensionsOf(b, settings), k)
  {
    SubjectInBase(a, b, settings, k);
    BaseIsKept(a, settings, k);
    BaseIsKept(b, settings, k);
    hide BaseExtensions, ExtensionsOf, Trim, Lookup;
    SameAtSameText(ExtensionsOf(a, settings), ExtensionsOf(b, settings), k);
  }

  lemma SubjectInBase(a: SourceEvent, b: SourceEvent, settings: Settings, k: string)
    requires k == "cluster" || k == "namespace"
    requires a.cluster == b.cluster && a.namespace == b.namespace
    ensures Lookup(BaseExtensions(a, settings), k) == Lookup(BaseExtensions(b, settings), k)
  {
    hide Trim, Or;
  }

  lemma SameAtSameText(a: map<string, ExtValue>, b: map<string, ExtValue>, k: string)
    requires Lookup(a, k) == Lookup(b, k)
    ensures ExtensionString(a, k) == ExtensionString(b, k)
  {
    hide Trim;
  }

  lemma SameSubject(a: SourceEvent, b: SourceEvent, settings: Settings, e: StoredEvent, f: StoredEvent)
    requires Represents(e, a, settings) && Represents(f, b, settings)
    requires a.app == b.app && a.cluster == b.cluster && a.namespace == b.namespace
    ensures SubjectText(e) == SubjectText(f)
  {
    hide ExtensionsOf, DataOf, ExtensionString, Trim, Lower;
    SubjectExtension(a, b, settings, "cluster");
    SubjectExtension(a, b, settings, "namespace");
  }

  // When two polled events share a change.

  /** SHA-256 as if it had no collisions. */
  ghost predicate CollisionFree(lib: Library) {
    forall a, b :: lib.hash(a) == lib.hash(b) ==> a == b
  }

  /** RFC 3339 to the second in UTC: twenty characters, the last one a 'Z'. */
  ghost predicate UTCSeconds(lib: Library) {
    forall t :: |lib.rfc3339(t)| == 20 && lib.rfc3339(t)[19] == 'Z'
  }

  /** What tells the changes of one application and destination apart. */
  function IdentityTail(se: SourceEvent, lib: Library): string {
    if Trim(se.operationKey) != "" then Trim(se.operationKey) else Trim(se.revision) + ":" + lib.rfc3339(se.occurred)
  }

  lemma ArgoIdentity(se: SourceEvent, settings: Settings, lib: Library, e: StoredEvent)
    requires Represents(e, se, settings)
    ensures IdentityText(e, lib) == SubjectText(e) + ":" + "argo" + ":" + IdentityTail(se, lib)
  {
    hide Represents, Reference, PrimaryProvider, RevisionOf, SubjectText, Trim;
    ArgoReference(se, settings, e);
    ArgoRevision(se, settings, e);
    ArgoProvider(se, settings, e);
    ExtensionsOfNormalized(se, settings, e);
  }

  /** Events of one application and destination belong to one change exactly when their tails agree. */
  lemma SameTailSameChange(a: SourceEvent, b: SourceEvent, settings: Settings, lib: Library, e: StoredEvent,
                           f: StoredEvent)
    requires Represents(e, a, settings) && Represents(f, b, settings)
    requires a.app == b.app && a.cluster == b.cluster && a.namespace == b.namespace
    ensures IdentityTail(a, lib) == IdentityTail(b, lib) ==> ChangeID(e, lib) == ChangeID(f, lib)
    ensures CollisionFree(lib) && ChangeID(e, lib) == ChangeID(f, lib) ==> IdentityTail(a, lib) == IdentityTail(b, lib)
  {
    hide Represents, SubjectText, Trim, IdentityText, IdentityTail;
    ArgoIdentity(a, settings, lib, e);
    ArgoIdentity(b, settings, lib, f);
    SameSubject(a, b, settings, e, f);
    if CollisionFree(lib) && ChangeID(e, lib) == ChangeID(f, lib) {
      SamePrefix("chg_", lib.hash(IdentityText(e, lib)), lib.hash(IdentityText(f, lib)));
      SamePrefix(SubjectText(e) + ":" + "argo" + ":", IdentityTail(a, lib), IdentityTail(b, lib));
    }
  }

  /** The event has no operation key, or one that does not look like an instant. */
  predicate KeyedPlainly(se: SourceEvent) {
    Trim(se.operationKey) == "" || PlainKey(se.operationKey)
  }

  lemma TailsAgreeIff(a: SourceEvent, b: SourceEvent, lib: Library)
    requires KeyedPlainly(a) && KeyedPlainly(b) && UTCSeconds(lib)
    ensures IdentityTail(a, lib) == IdentityTail(b, lib) <==>
              && Trim(a.operationKey) == Trim(b.operationKey)
              && (Trim(a.operationKey) == "" ==>
                    Trim(a.revision) == Trim(b.revision) && lib.rfc3339(a.occurred) == lib.rfc3339(b.occurred))
  {
    hide Trim;
    var s, t := IdentityTail(a, lib), IdentityTail(b, lib);
    var i, j := lib.rfc3339(a.occurred), lib.rfc3339(b.occurred);
    assert Trim(a.operationKey) == "" ==> s[|s| - 1] == 'Z';
    assert Trim(b.operationKey) == "" ==> t[|t| - 1] == 'Z';
    if Trim(a.operationKey) == "" && Trim(b.operationKey) == "" && s == t {
      assert |s| == |Trim(a.revision)| + 21 && |t| == |Trim(b.revision)| + 21;
      assert Trim(a.revision) == s[..|s| - 21] && Trim(b.revision) == t[..|t| - 21];
      assert i == s[|s| - 20..] && j == t[|t| - 20..];
    }
  }

  /** The events of a snapshot are keyed so, health alone has no key, and they carry its name and destination. */
  lemma ExtractedKeys(app: Application, now: int, se: SourceEvent)
    requires se in EventsOf(app, now)
    ensures KeyedPlainly(se) && (Trim(se.operationKey) == "" <==> KindOf(se).Health?)
    ensures se.app == Trim(app.name) && se.cluster == Or(app.server, "unknown") && se.namespace == Trim(app.namespace)
  {
    hide EventsOf, Stems, Suppressed, KeyedPlainly, Trim;
    var origin := EventOrigins(app, now);
    var i :| 0 <= i < |EventsOf(app, now)| && EventsOf(app, now)[i] == se;
    ExtractedKey(app, now, se, origin[i]);
    ExtractedPlace(app, now, se, origin[i]);
  }

  lemma ExtractedKey(app: Application, now: int, se: SourceEvent, o: Origin)
    requires Stems(app, now, se, o)
    ensures KeyedPlainly(se) && (Trim(se.operationKey) == "" <==> KindOf(se).Health?)
  {
    KeyOfOrigin(app, now, se, o);
    ProfileOf(app, now, se, o);
    assert Trim("") == "";
    hide KindOf, Stems, Trim;
  }

  lemma KeyOfOrigin(app: Application, now: int, se: SourceEvent, o: Origin)
    requires Stems(app, now, se, o)
    ensures if o.FromHealth? then se.operationKey == "" else PlainKey(se.operationKey)
  {
    hide WithAnnotations, OccurredAt, EntryRevision, OperationKey, OperationFinish, Suppressed, TimeKey, Actor,
      PlainKey, HistoryEventID, HealthEventID, OperationEventID, HistoryOperationKey, Trim, Revision;
    match o {
      case FromHistory(n) =>
        var h := app.history[n];
        HistoryKeyShape(h.id, EntryRevision(h, app), OccurredAt(h, app, now));
      case FromOperation =>
        var op := app.operation.value;
        OperationKeyShape(Revision(app), op.startedAt, OperationFinish(op, app, now));
      case FromHealth =>
    }
  }

  lemma ExtractedPlace(app: Application, now: int, se: SourceEvent, o: Origin)
    requires Stems(app, now, se, o)
    ensures se.app == Trim(app.name) && se.cluster == Or(app.server, "unknown") && se.namespace == Trim(app.namespace)
  {
    hide WithAnnotations, OccurredAt, EntryRevision, OperationKey, OperationFinish, Suppressed, TimeKey, Actor,
      HistoryEventID, HealthEventID, OperationEventID, HistoryOperationKey, Trim, Revision;
  }

  /** Two snapshots of one application and destination. */
  predicate SamePlace(app: Application, app': Application) {
    Trim(app'.name) == Trim(app.name) && Trim(app'.server) == Trim(app.server) &&
      Trim(app'.namespace) == Trim(app.namespace)
  }

  /** Two events of one application, from whatever snapshots, belong to one change exactly when they have the
      same operation key or, both being health events, the same revision and second. */
  lemma SameChangeIff(app: Application, app': Application, now: int, now': int, a: SourceEvent, b: SourceEvent,
                      settings: Settings, lib: Library, e: StoredEvent, f: StoredEvent)
    requires SamePlace(app, app') && a in EventsOf(app, now) && b in EventsOf(app', now')
    requires Represents(e, a, settings) && Represents(f, b, settings)
    requires CollisionFree(lib) && UTCSeconds(lib)
    ensures ChangeID(e, lib) == ChangeID(f, lib) <==>
              && Trim(a.operationKey) == Trim(b.operationKey)
              && (KindOf(a).Health? ==>
                    Trim(a.revision) == Trim(b.revision) && lib.rfc3339(a.occurred) == lib.rfc3339(b.occurred))
  {
    hide EventsOf, Represents, Trim, KindOf, KeyedPlainly, IdentityTail, ChangeID, CollisionFree, UTCSeconds;
    ExtractedKeys(app, now, a);
    ExtractedKeys(app', now', b);
    SameTailSameChange(a, b, settings, lib, e, f);
    TailsAgreeIff(a, b, lib);
  }

  /** A health event never joins the change of an event with an operation key, whatever snapshots they come
      from: it has no key, so its change is named after its own instant. */
  lemma HealthStaysApart(app: Application, app': Application, now: int, now': int, keyed: SourceEvent,
                         health: SourceEvent, settings: Settings, lib: Library, e: StoredEvent, f: StoredEvent)
    requires keyed in EventsOf(app, now) && !KindOf(keyed).Health?
    requires health in EventsOf(app', now') && KindOf(health).Health?
    requires Represents(e, keyed, settings) && Represents(f, health, settings)
    requires CollisionFree(lib) && UTCSeconds(lib)
    ensures ChangeID(e, lib) != ChangeID(f, lib)
  {
    hide EventsOf, Represents, Trim, KindOf, ChangeID, CollisionFree, UTCSeconds, KeyedPlainly, Or, IdentityText;
    ExtractedKeys(app, now, keyed);
    ExtractedKeys(app', now', health);
    IdentitiesApart(keyed, health, settings, lib, e, f);
    OtherTextOtherChange(lib, e, f);
  }

  lemma IdentitiesApart(keyed: SourceEvent, health: SourceEvent, settings: Settings, lib: Library, e: StoredEvent,
                        f: StoredEvent)
    requires Represents(e, keyed, settings) && Represents(f, health, settings) && UTCSeconds(lib)
    requires KeyedPlainly(keyed) && KeyedPlainly(health)
    requires Trim(keyed.operationKey) != "" && Trim(health.operationKey) == ""
    ensures IdentityText(e, lib) != IdentityText(f, lib)
  {
    hide Represents, Trim, IdentityText, SubjectText, IdentityTail, UTCSeconds, KeyedPlainly;
    ArgoIdentity(keyed, settings, lib, e);
    ArgoIdentity(health, settings, lib, f);
    TailEnds(keyed, lib);
    TailEnds(health, lib);
    EndsApart(SubjectText(e) + ":" + "argo" + ":", IdentityTail(keyed, lib), SubjectText(f) + ":" + "argo" + ":",
              IdentityTail(health, lib));
  }

  lemma OtherTextOtherChange(lib: Library, e: StoredEvent, f: StoredEvent)
    requires CollisionFree(lib) && IdentityText(e, lib) != IdentityText(f, lib)
    ensures ChangeID(e, lib) != ChangeID(f, lib)
  {
    hide IdentityText;
    if ChangeID(e, lib) == ChangeID(f, lib) {
      SamePrefix("chg_", lib.hash(IdentityText(e, lib)), lib.hash(IdentityText(f, lib)));
      assert false;
    }
  }

  /** Only an instant ends in 'Z'. */
  lemma TailEnds(se: SourceEvent, lib: Library)
    requires KeyedPlainly(se) && UTCSeconds(lib)
    ensures var t := IdentityTail(se, lib); t != "" && (t[|t| - 1] == 'Z' <==> Trim(se.operationKey) == "")
  {
    assert Trim("") == "";
    hide Trim;
    var i := lib.rfc3339(se.occurred);
    assert |i| == 20 && i[19] == 'Z';
  }

  lemma EndsApart(a: string, s: string, b: string, t: string)
    requires s != "" && t != "" && s[|s| - 1] != t[|t| - 1]
    ensures a + s != b + t
  {
    assert (a + s)[|a + s| - 1] == s[|s| - 1] && (b + t)[|b + t| - 1] == t[|t| - 1];
  }

  // The start and the finish of one operation.

  lemma OperationNormalizes(op: Operation, app: Application, now: int, started: bool, settings: Settings)
    requires Trim(app.name) != "" && op.startedAt != 0
    ensures NormalizeSourceEvent(OperationEvent(op, app, now, started), settings).Some?
  {
    var se := OperationEvent(op, app, now, started);
    TrimTwice(app.name);
    NonBlankID(Trim(app.uid), "op:" + Trim(se.operationKey) + ":" + Trim(if started then "start" else "finish"));
    assert se.occurred != 0;
    hide Trim, ExtensionsOf, DataOf, WithAnnotations, Revision, OperationKey, Actor;
    TrimTwice(app.uid);
    assert se.app == Trim(app.name);
  }

  /** An ID made of a trimmed UID, a colon and more is not blank. */
  lemma NonBlankID(uid: string, rest: string)
    requires uid == "" || !IsSpace(uid[0])
    ensures Trim(uid + ":" + rest) != ""
  {
    var id := uid + ":" + rest;
    assert !IsSpace(id[0]);
  }

  lemma OperationTail(op: Operation, app: Application, now: int, started: bool, lib: Library)
    requires op.startedAt != 0
    ensures IdentityTail(OperationEvent(op, app, now, started), lib) == OperationKey(Revision(app), op.startedAt,
                                                                                     OperationFinish(op, app, now))
  {
    hide Trim, WithAnnotations, Revision, OperationKey, Actor, OperationFinish, OperationEventID;
    OperationKeyShape(Revision(app), op.startedAt, OperationFinish(op, app, now));
  }

  lemma OperationPlace(op: Operation, app: Application, now: int, started: bool)
    ensures var se := OperationEvent(op, app, now, started);
            se.app == Trim(app.name) && se.cluster == Or(app.server, "unknown") && se.namespace == Trim(app.namespace)
  {
    hide Trim, WithAnnotations, Revision, OperationKey, Actor, OperationFinish, OperationEventID;
  }

  /** The start and the finish of one operation, seen in different snapshots, belong to one change exactly when
      the snapshots' sync revisions agree, a blank one counting as "unknown": the key is made of the revision
      the application shows, not of the operation's. */
  lemma OneOperationOneChangeIff(app: Application, app': Application, op: Operation, op': Operation, now: int,
                                 now': int, settings: Settings, lib: Library, e: StoredEvent, f: StoredEvent)
    requires SamePlace(app, app') && op.startedAt == op'.startedAt != 0
    requires Represents(e, OperationEvent(op, app, now, true), settings)
    requires Represents(f, OperationEvent(op', app', now', false), settings)
    ensures KeyRevision(Revision(app)) == KeyRevision(Revision(app')) ==> ChangeID(e, lib) == ChangeID(f, lib)
    ensures CollisionFree(lib) && ChangeID(e, lib) == ChangeID(f, lib) ==>
              KeyRevision(Revision(app)) == KeyRevision(Revision(app'))
  {
    var a, b := OperationEvent(op, app, now, true), OperationEvent(op', app', now', false);
    hide OperationEvent, Represents, Trim, ChangeID, Revision, KeyRevision, OperationKey, IdentityTail, OperationFinish;
    OperationTail(op, app, now, true, lib);
    OperationTail(op', app', now', false, lib);
    OperationPlace(op, app, now, true);
    OperationPlace(op', app', now', false);
    KeysDifferByRevision(Revision(app), Revision(app'), op.startedAt, OperationFinish(op, app, now),
                         OperationFinish(op', app', now'));
    SameTailSameChange(a, b, settings, lib, e, f);
  }

  // An operation whose sync revision moves while it runs.

  const RUNNING := Application("u", "pay", "", "", "a", [], Some(Operation(Running, 10, 0, "", false)), [], "", 0,
                               map[])
  const FINISHED := RUNNING.(syncRevision := "b", operation := Some(Operation(Succeeded, 10, 20, "", false)))

  lemma OperationCanBeSplit(now: int, now': int, settings: Settings, lib: Library)
    requires CollisionFree(lib)
    ensures var start := NormalizeSourceEvent(OperationEvent(RUNNING.operation.value, RUNNING, now, true), settings);
            var finish := NormalizeSourceEvent(OperationEvent(FINISHED.operation.value, FINISHED, now', false),
                                               settings);
            start.Some? && finish.Some? && ChangeID(start.value, lib) != ChangeID(finish.value, lib)
  {
    assert Trim("pay") == "pay" && Trim("a") == "a" && Trim("b") == "b" && "a" != "b";
    hide OperationEvent, NormalizeSourceEvent, Trim, ChangeID;
    OperationNormalizes(RUNNING.operation.value, RUNNING, now, true, settings);
    OperationNormalizes(FINISHED.operation.value, FINISHED, now', false, settings);
    var e := NormalizeSourceEvent(OperationEvent(RUNNING.operation.value, RUNNING, now, true), settings).value;
    var f := NormalizeSourceEvent(OperationEvent(FINISHED.operation.value, FINISHED, now', false), settings).value;
    NormalizedIsBare(OperationEvent(RUNNING.operation.value, RUNNING, now, true), settings);
    NormalizedIsBare(OperationEvent(FINISHED.operation.value, FINISHED, now', false), settings);
    OneOperationOneChangeIff(RUNNING, FINISHED, RUNNING.operation.value, FINISHED.operation.value, now, now', settings,
                             lib, e, f);
  }

  lemma NormalizedIsBare(se: SourceEvent, settings: Settings)
    ensures var e := NormalizeSourceEvent(se, settings); e.Some? ==> Represents(e.value, se, settings)
  {
    hide Trim, ExtensionsOf, DataOf, Or;
  }
}
