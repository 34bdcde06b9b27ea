/** Reading one history entry again from a later snapshot: what is stored of it depends on more than the entry,
    so the second reading is a duplicate or a conflict for good. */
module Reread {
  import opened Text
  import opened Keyset
  import opened CloudEvents
  import opened Store
  import opened Collector
  import opened SourceEvents
  import opened Normalize
  import opened ChangeIdentity

  /** A reading of a history entry: the entry, the snapshot it is read from, and the clock. */
  datatype Reading = Reading(entry: HistoryEntry, app: Application, now: int) {
    function Event(): SourceEvent { RecordedEvent(entry, app, now) }
  }

  /** The normaliser accepts the reading. */
  predicate Readable(r: Reading) {
    Trim(r.app.name) != "" && OccurredAt(r.entry, r.app, r.now) != 0
  }

  /** The readings have the same event ID: of one application, entries with the same positive ID, or entries
      without one of the same revision and second. */
  predicate SameEntry(r: Reading, s: Reading) {
    r.Event().id == s.Event().id
  }

  function Environment(app: Application, settings: Settings): string {
    Or(app.namespace, Or(settings.defaultEnv, "unknown"))
  }

  /** The readings agree on everything that is stored: besides the entry's ID, revision and time, also on the
      application's name and destination, who started its current operation, and its annotations. */
  predicate SameEvidence(r: Reading, s: Reading, settings: Settings) {
    && r.entry.id == s.entry.id && Trim(r.app.name) == Trim(s.app.name)
    && Or(r.app.server, "unknown") == Or(s.app.server, "unknown")
    && Environment(r.app, settings) == Environment(s.app, settings)
    && Actor(r.app) == Actor(s.app)
    && EvidraAnnotations(r.app.annotations) == EvidraAnnotations(s.app.annotations)
    && EntryRevision(r.entry, r.app) == EntryRevision(s.entry, s.app)
    && OccurredAt(r.entry, r.app, r.now) == OccurredAt(s.entry, s.app, s.now)
  }

  lemma ReadingNormalizes(r: Reading, settings: Settings)
    requires Readable(r)
    ensures NormalizeSourceEvent(r.Event(), settings).Some?
  {
    hide ExtensionsOf, DataOf, WithAnnotations, EntryRevision, OccurredAt, Trim, Revision, Actor, HistoryOperationKey;
    TrimTwice(r.app.name);
    TrimTwice(r.app.uid);
    var tail := HistoryTail(r.entry.id, EntryRevision(r.entry, r.app), OccurredAt(r.entry, r.app, r.now));
    NonBlankID(Trim(r.app.uid), "hist:" + tail);
  }

  // Agreeing readings store the same.

  /** Normalising looks at the namespace only through the environment, and not at the UID. */
  lemma NamespaceOnlyByEnvironment(se: SourceEvent, namespace: string, uid: string, settings: Settings)
    requires Or(namespace, Or(settings.defaultEnv, "unknown")) == Or(se.namespace, Or(settings.defaultEnv, "unknown"))
    ensures NormalizeSourceEvent(se.(namespace := namespace, appUID := uid), settings) ==
              NormalizeSourceEvent(se, settings)
  {
    var other := se.(namespace := namespace, appUID := uid);
    hide Or, Trim, Optional, Annotation;
    assert BaseExtensions(other, settings) == BaseExtensions(se, settings);
    hide BaseExtensions;
    assert ExtensionsOf(other, settings) == ExtensionsOf(se, settings);
    hide ExtensionsOf;
    assert DataOf(other, settings) == DataOf(se, settings);
  }

  lemma OrTrim(s: string, fallback: string)
    ensures Or(Trim(s), fallback) == Or(s, fallback)
  {
    TrimTwice(s);
  }

  lemma SameEvidenceSameEvent(r: Reading, s: Reading, settings: Settings)
    requires Readable(r) && Readable(s) && SameEntry(r, s) && SameEvidence(r, s, settings)
    ensures NormalizeSourceEvent(r.Event(), settings) == NormalizeSourceEvent(s.Event(), settings)
  {
    var a, b := r.Event(), s.Event();
    SameButNamespace(r, s, settings);
    OrTrim(r.app.namespace, Or(settings.defaultEnv, "unknown"));
    OrTrim(s.app.namespace, Or(settings.defaultEnv, "unknown"));
    NamespaceOnlyByEnvironment(b, a.namespace, a.appUID, settings) by {
      assert a.namespace == Trim(r.app.namespace) && b.namespace == Trim(s.app.namespace);
    }
  }

  lemma SameButNamespace(r: Reading, s: Reading, settings: Settings)
    requires Readable(r) && Readable(s) && SameEntry(r, s) && SameEvidence(r, s, settings)
    ensures r.Event() == s.Event().(namespace := r.Event().namespace, appUID := r.Event().appUID)
  {
    hide Trim, Actor, EvidraAnnotations, EntryRevision, OccurredAt, Revision, Environment;
  }

  // Readings that store the same agree.

  /** Equal hashes mean equal subjects, times, payload members and texts among the extensions. */
  lemma SameHash(e: StoredEvent, f: StoredEvent)
    requires IntegrityHash(e) == IntegrityHash(f)
    ensures e.subject == f.subject && e.time == f.time && e.data == f.data
    ensures forall k :: k in e.ext && k in f.ext && e.ext[k].Str? && f.ext[k].Str? ==> e.ext[k] == f.ext[k]
  {
    var x, y := IntegrityHash(e).of, IntegrityHash(f).of;
    forall k | k in e.ext && k in f.ext && e.ext[k].Str? && f.ext[k].Str? ensures e.ext[k] == f.ext[k] {
      assert x.ext[k] == EncodeExt(e.ext[k]) && y.ext[k] == EncodeExt(f.ext[k]);
    }
  }

  lemma SameHashSameBase(a: SourceEvent, b: SourceEvent, settings: Settings, e: StoredEvent, f: StoredEvent, k: string)
    requires e.ext == ExtensionsOf(a, settings) && f.ext == ExtensionsOf(b, settings)
    requires IntegrityHash(e) == IntegrityHash(f) && k in BASE_KEYS
    ensures Lookup(BaseExtensions(a, settings), k) == Lookup(BaseExtensions(b, settings), k)
  {
    BaseIsKept(a, settings, k);
    BaseIsKept(b, settings, k);
    BaseIsText(a, settings, k);
    BaseIsText(b, settings, k);
    hide BaseExtensions, ExtensionsOf, IntegrityHash;
    SameHash(e, f);
  }

  lemma BaseIsText(se: SourceEvent, settings: Settings, k: string)
    requires k in BASE_KEYS
    ensures Lookup(BaseExtensions(se, settings), k).Some? && Lookup(BaseExtensions(se, settings), k).value.Str?
  {
    hide Or, Trim;
  }

  lemma BaseTexts(se: SourceEvent, settings: Settings)
    ensures var m := BaseExtensions(se, settings);
            && Lookup(m, "cluster") == Some(Str(Or(se.cluster, "unknown")))
            && Lookup(m, "namespace") == Some(Str(Or(se.namespace, Or(settings.defaultEnv, "unknown"))))
            && Lookup(m, "initiator") == Some(Str(Or(se.actor, "argocd")))
            && Lookup(m, "sync_revision") == Some(Str(Trim(se.revision)))
  {
    hide Or, Trim;
  }

  lemma SameHashSameTexts(a: SourceEvent, b: SourceEvent, settings: Settings, e: StoredEvent, f: StoredEvent)
    requires e.ext == ExtensionsOf(a, settings) && f.ext == ExtensionsOf(b, settings)
    requires IntegrityHash(e) == IntegrityHash(f)
    ensures Or(a.cluster, "unknown") == Or(b.cluster, "unknown")
    ensures Or(a.namespace, Or(settings.defaultEnv, "unknown")) == Or(b.namespace, Or(settings.defaultEnv, "unknown"))
    ensures Or(a.actor, "argocd") == Or(b.actor, "argocd") && Trim(a.revision) == Trim(b.revision)
  {
    hide Or, Trim, BaseExtensions, ExtensionsOf, IntegrityHash, Lookup;
    BaseTexts(a, settings);
    BaseTexts(b, settings);
    SameHashSameBase(a, b, settings, e, f, "cluster");
    SameHashSameBase(a, b, settings, e, f, "namespace");
    SameHashSameBase(a, b, settings, e, f, "initiator");
    SameHashSameBase(a, b, settings, e, f, "sync_revision");
  }

  /** What a reading's source event carries, as the stored texts show it. */
  lemma ReadingTexts(r: Reading, settings: Settings)
    requires Readable(r)
    ensures var se := r.Event();
            && Or(se.cluster, "unknown") == Or(r.app.server, "unknown")
            && Or(se.namespace, Or(settings.defaultEnv, "unknown")) == Environment(r.app, settings)
            && Or(se.actor, "argocd") == Actor(r.app)
            && Trim(se.revision) == EntryRevision(r.entry, r.app)
            && Trim(se.app) == Trim(r.app.name) && se.occurred == OccurredAt(r.entry, r.app, r.now)
  {
    TrimTwice(r.app.name);
    TrimTwice(r.app.namespace);
    TrimTwice(r.entry.revision);
    TrimTwice(Revision(r.app));
    OrTrim(r.app.namespace, Or(settings.defaultEnv, "unknown"));
    ServerText(r.app);
    ActorText(r.app);
    hide Trim, OccurredAt, Revision, WithAnnotations, HistoryOperationKey, HistoryEventID, Actor, Or;
  }

  lemma ServerText(app: Application)
    ensures Or(if Trim(app.server) == "" then "unknown" else Trim(app.server), "unknown") == Or(app.server, "unknown")
  {
    TrimTwice(app.server);
    assert Trim("unknown") == "unknown";
    hide Trim;
  }

  lemma ActorText(app: Application)
    ensures Or(Actor(app), "argocd") == Actor(app)
  {
    assert Trim("argocd") == "argocd" && Trim("argocd-automated") == "argocd-automated";
    if app.operation.Some? { TrimTwice(app.operation.value.username); }
    hide Trim;
  }

  /** The annotations and the history ID reach the stored payload. */
  lemma SamePayloadSameAnnotations(r: Reading, s: Reading, settings: Settings)
    requires DataOf(r.Event(), settings) == DataOf(s.Event(), settings)
    ensures EvidraAnnotations(r.app.annotations) == EvidraAnnotations(s.app.annotations) && r.entry.id == s.entry.id
  {
    PayloadInData(r, settings);
    PayloadInData(s, settings);
    hide DataOf, EvidraAnnotations;
    var x, y := r.Event().payload.value, s.Event().payload.value;
    assert x == y;
    AnnotationsInPayload(r);
    AnnotationsInPayload(s);
  }

  lemma PayloadInData(r: Reading, settings: Settings)
    ensures var d := DataOf(r.Event(), settings);
            r.Event().payload.Some? && "source_payload" in d && d["source_payload"] == JObject(r.Event().payload.value)
  {
    assert "source_payload" != "approvals";
    hide Annotation, Trim, HistoryEventID, HistoryOperationKey, EvidraAnnotations, EntryRevision, OccurredAt, Actor,
      Revision;
  }

  lemma AnnotationsInPayload(r: Reading)
    ensures r.Event().payload.Some?
    ensures var kept := EvidraAnnotations(r.app.annotations);
            && Lookup(r.Event().payload.value, "annotations") == (if kept == map[] then None else Some(JObject(kept)))
            && Lookup(r.Event().payload.value, "history_id") == Some(JNumber(r.entry.id))
  {
    assert "annotations" != "history_id" && "annotations" != "sync_revision" && "history_id" != "sync_revision";
    hide Trim, HistoryEventID, HistoryOperationKey, EvidraAnnotations, EntryRevision, OccurredAt, Actor, Revision;
  }

  /** Two readings of one entry are stored alike exactly when they agree on the evidence. */
  lemma SameContentIff(r: Reading, s: Reading, settings: Settings)
    requires Readable(r) && Readable(s) && SameEntry(r, s)
    ensures NormalizeSourceEvent(r.Event(), settings).Some? && NormalizeSourceEvent(s.Event(), settings).Some?
    ensures var e := NormalizeSourceEvent(r.Event(), settings).value;
            var f := NormalizeSourceEvent(s.Event(), settings).value;
            e.id == f.id && (IntegrityHash(e) == IntegrityHash(f) <==> SameEvidence(r, s, settings))
  {
    ReadingNormalizes(r, settings);
    ReadingNormalizes(s, settings);
    if SameEvidence(r, s, settings) { SameEvidenceSameEvent(r, s, settings); }
    var e, f := NormalizeSourceEvent(r.Event(), settings).value, NormalizeSourceEvent(s.Event(), settings).value;
    NormalizedParts(r.Event(), settings);
    NormalizedParts(s.Event(), settings);
    ReadingTexts(r, settings);
    ReadingTexts(s, settings);
    hide NormalizeSourceEvent, Reading.Event, Trim, IntegrityHash, Or, Environment, Actor, EntryRevision, OccurredAt,
      DataOf, ExtensionsOf;
    if IntegrityHash(e) == IntegrityHash(f) {
      SameHash(e, f);
      SameHashSameTexts(r.Event(), s.Event(), settings, e, f);
      SamePayloadSameAnnotations(r, s, settings);
    }
  }

  lemma NormalizedParts(se: SourceEvent, settings: Settings)
    requires NormalizeSourceEvent(se, settings).Some?
    ensures var e := NormalizeSourceEvent(se, settings).value;
            && e.id == "evt_argocd_" + se.id && e.subject == Trim(se.app) && e.time == se.occurred
            && e.ext == ExtensionsOf(se, settings) && e.data.fields == DataOf(se, settings)
  {
    hide Trim, ExtensionsOf, DataOf, Or;
  }

  /** Once a store has accepted the first reading, it answers the second one "duplicate" if they agree and
      "conflict" if not, now and in every later state, and keeps the first. */
  lemma RereadIsConflictIff(db: Db, r: Reading, s: Reading, settings: Settings, now: int, later: Db, now': int)
    requires Readable(r) && Readable(s) && SameEntry(r, s)
    requires NormalizeSourceEvent(r.Event(), settings).Some?
    requires IngestInto(db, NormalizeSourceEvent(r.Event(), settings).value, now).outcome.Ok()
    requires Extends(IngestInto(db, NormalizeSourceEvent(r.Event(), settings).value, now).db, later)
    ensures NormalizeSourceEvent(s.Event(), settings).Some?
    ensures var again := IngestInto(later, NormalizeSourceEvent(s.Event(), settings).value, now');
            again.db == later && again.outcome == if SameEvidence(r, s, settings) then Duplicate else Conflict
  {
    SameContentIff(r, s, settings);
    var e, f := NormalizeSourceEvent(r.Event(), settings).value, NormalizeSourceEvent(s.Event(), settings).value;
    NormalizedIsStorable(s.Event(), s.Event(), settings);
    NormalizedIsBare(r.Event(), settings);
    NormalizedIsBare(s.Event(), settings);
    hide NormalizeSourceEvent, Reading.Event, IntegrityHash, SameEvidence, ValidStored;
    IngestStores(db, e, now);
  }
}
