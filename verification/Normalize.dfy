/** Normalising a source event into a stored event. */
module Normalize {
  import opened Text
  import opened Keyset
  import opened CloudEvents
  import opened Store
  import opened Collector

  /** The default environment, the JSON encoding of an object's members (without its braces), and the
      decoding of the approvals annotation. */
  datatype Settings = Settings(defaultEnv: string, render: map<string, Json> -> string,
                               parseApprovals: string -> Option<Json>)

  function Or(s: string, fallback: string): string {
    if Trim(s) != "" then Trim(s) else fallback
  }

  function Annotation(payload: Option<map<string, Json>>, key: string): string {
    if payload.Some? && "annotations" in payload.value && payload.value["annotations"].JObject? then
      var a := payload.value["annotations"].fields;
      if key in a && a[key].JText? then Trim(a[key].s) else ""
    else ""
  }

  /** The extension is present only when it says something. */
  function Optional(key: string, s: string): map<string, ExtValue> {
    if s == "" then map[] else map[key := Str(s)]
  }

  function BaseExtensions(se: SourceEvent, settings: Settings): map<string, ExtValue> {
    map["cluster" := Str(Or(se.cluster, "unknown")),
        "namespace" := Str(Or(se.namespace, Or(settings.defaultEnv, "unknown"))),
        "initiator" := Str(Or(se.actor, "argocd")),
        "sync_revision" := Str(Trim(se.revision)),
        "argo_event_type" := Str(Or(se.eventType, "argo.sync.finished"))]
  }

  function HistoryExtension(se: SourceEvent): map<string, ExtValue> {
    if se.historyID > 0 then map["history_id" := Wide(se.historyID)] else map[]
  }

  function ExtensionsOf(se: SourceEvent, settings: Settings): map<string, ExtValue> {
    BaseExtensions(se, settings)
    + Optional("commit_sha", Trim(se.revision))
    + Optional("argo_result", Trim(se.result))
    + HistoryExtension(se)
    + Optional("operation_id", Trim(se.operationKey))
    + Optional("health_status", Trim(se.healthStatus))
    + Optional("external_change_id", Annotation(se.payload, "evidra.rest/change-id"))
    + Optional("ticket_id", Annotation(se.payload, "evidra.rest/ticket"))
    + Optional("approval_reference", Annotation(se.payload, "evidra.rest/approvals-ref"))
    + Optional("approvals_json", Annotation(se.payload, "evidra.rest/approvals-json"))
  }

  lemma PutWhenSaid(ext: map<string, ExtValue>, key: string, s: string)
    ensures (if s != "" then ext[key := Str(s)] else ext) == ext + Optional(key, s)
  {
  }

  method BuildExtensions(se: SourceEvent, settings: Settings) returns (ext: map<string, ExtValue>)
    ensures ext == ExtensionsOf(se, settings)
  {
    hide Optional, Annotation, Or, Trim, BaseExtensions, HistoryExtension;
    ext := BaseExtensions(se, settings);
    ext := PutOptional(ext, "commit_sha", Trim(se.revision));
    ext := PutOptional(ext, "argo_result", Trim(se.result));
    ext := PutHistory(ext, se);
    ext := PutOptional(ext, "operation_id", Trim(se.operationKey));
    ext := PutOptional(ext, "health_status", Trim(se.healthStatus));
    ext := PutOptional(ext, "external_change_id", Annotation(se.payload, "evidra.rest/change-id"));
    ext := PutOptional(ext, "ticket_id", Annotation(se.payload, "evidra.rest/ticket"));
    ext := PutOptional(ext, "approval_reference", Annotation(se.payload, "evidra.rest/approvals-ref"));
    ext := PutOptional(ext, "approvals_json", Annotation(se.payload, "evidra.rest/approvals-json"));
  }

  method PutHistory(ext: map<string, ExtValue>, se: SourceEvent) returns (out: map<string, ExtValue>)
    ensures out == ext + HistoryExtension(se)
  {
    out := ext;
    if se.historyID > 0 {
      out := out["history_id" := Wide(se.historyID)];
    }
  }

  method PutOptional(ext: map<string, ExtValue>, key: string, s: string) returns (out: map<string, ExtValue>)
    ensures out == ext + Optional(key, s)
  {
    PutWhenSaid(ext, key, s);
    out := ext;
    if s != "" {
      out := out[key := Str(s)];
    }
  }

  function DataOf(se: SourceEvent, settings: Settings): map<string, Json> {
    var base := map["argocd_app" := JText(Trim(se.app)), "phase" := JText(Trim(se.result)),
                    "result" := JText(Trim(se.result))];
    var withPayload := if se.payload.Some? then base["source_payload" := JObject(se.payload.value)] else base;
    var approvals := Annotation(se.payload, "evidra.rest/approvals-json");
    if approvals != "" && settings.parseApprovals(approvals).Some? then
      withPayload["approvals" := settings.parseApprovals(approvals).value]
    else withPayload
  }

  function NormalizeSourceEvent(se: SourceEvent, settings: Settings): Option<StoredEvent> {
    if Trim(se.id) == "" || Trim(se.app) == "" || se.occurred == 0 then None
    else
      var data := DataOf(se, settings);
      Some(StoredEvent("evt_argocd_" + se.id, Or(se.eventType, "argo.sync.finished"), "argocd", Trim(se.app),
                       se.occurred,
                       ExtensionsOf(se, settings), Payload("{" + settings.render(data) + "}", data), Unset, 0))
  }

  /** The event stands for the source event, as normalised or as a store has sealed and dated it since. */
  predicate Represents(e: StoredEvent, se: SourceEvent, settings: Settings) {
    NormalizeSourceEvent(se, settings) == Some(e.(integrity := Unset, ingestedAt := 0))
  }

  /** A normalised event is never refused as invalid, carries no foreign hash, and keeps its source ID apart. */
  lemma NormalizedIsStorable(a: SourceEvent, b: SourceEvent, settings: Settings)
    requires NormalizeSourceEvent(a, settings).Some?
    ensures ValidStored(NormalizeSourceEvent(a, settings).value) && Honest(NormalizeSourceEvent(a, settings).value)
    ensures NormalizeSourceEvent(b, settings).Some? ==>
              (NormalizeSourceEvent(b, settings).value.id == NormalizeSourceEvent(a, settings).value.id <==>
               a.id == b.id)
  {
    hide ExtensionsOf, DataOf;
    var e := NormalizeSourceEvent(a, settings).value;
    assert e.data.raw[0] == '{';
    if NormalizeSourceEvent(b, settings).Some? {
      var p := "evt_argocd_";
      assert a.id == (p + a.id)[|p|..] && b.id == (p + b.id)[|p|..];
    }
  }

  // What a normalised event says, member by member.

  /** A source event needs an ID, an application and a time; its ID and time become the event's, its application
      the subject. */
  lemma NormalizedSays(se: SourceEvent, settings: Settings)
    ensures var r := NormalizeSourceEvent(se, settings);
            && (r.None? <==> Trim(se.id) == "" || Trim(se.app) == "" || se.occurred == 0)
            && (r.Some? ==>
                  && r.value.id == "evt_argocd_" + se.id && r.value.source == "argocd"
                  && r.value.typ == (if Trim(se.eventType) != "" then Trim(se.eventType) else "argo.sync.finished")
                  && r.value.subject == Trim(se.app) && r.value.time == se.occurred
                  && r.value.integrity == Unset && r.value.ingestedAt == 0)
  {
    hide Trim, ExtensionsOf, DataOf;
  }

  /** A text, or what stands in for a blank one. */
  predicate Says(v: Option<ExtValue>, text: string, fallback: string) {
    v == Some(Str(if Trim(text) != "" then Trim(text) else fallback))
  }

  lemma BaseSays(se: SourceEvent, settings: Settings)
    ensures var ext := BaseExtensions(se, settings);
            var environment := if Trim(settings.defaultEnv) != "" then Trim(settings.defaultEnv) else "unknown";
            && ext.Keys == {"cluster", "namespace", "initiator", "sync_revision", "argo_event_type"}
            && Says(Lookup(ext, "cluster"), se.cluster, "unknown")
            && Says(Lookup(ext, "namespace"), se.namespace, environment)
            && Says(Lookup(ext, "initiator"), se.actor, "argocd")
            && Says(Lookup(ext, "sync_revision"), se.revision, "")
            && Says(Lookup(ext, "argo_event_type"), se.eventType, "argo.sync.finished")
  {
    hide Trim;
  }

  lemma PutLookup(ext: map<string, ExtValue>, key: string, s: string, k: string)
    ensures Lookup(ext + Optional(key, s), k) == if k == key && s != "" then Some(Str(s)) else Lookup(ext, k)
  {
  }

  lemma PutHistoryLookup(ext: map<string, ExtValue>, se: SourceEvent, k: string)
    ensures Lookup(ext + HistoryExtension(se), k) ==
              if k == "history_id" && se.historyID > 0 then Some(Wide(se.historyID)) else Lookup(ext, k)
  {
  }

  /** The first assignments, by key, later ones winning: revision, result, history ID. */
  function EarlyExtensions(se: SourceEvent, settings: Settings): map<string, ExtValue> {
    BaseExtensions(se, settings) + Optional("commit_sha", Trim(se.revision)) + Optional("argo_result", Trim(se.result))
    + HistoryExtension(se)
  }

  lemma EarlyLookup(se: SourceEvent, settings: Settings, k: string)
    ensures Lookup(EarlyExtensions(se, settings), k) ==
              if k == "history_id" && se.historyID > 0 then Some(Wide(se.historyID))
              else if k == "argo_result" && Trim(se.result) != "" then Some(Str(Trim(se.result)))
              else if k == "commit_sha" && Trim(se.revision) != "" then Some(Str(Trim(se.revision)))
              else Lookup(BaseExtensions(se, settings), k)
  {
    hide Trim, Optional, HistoryExtension, BaseExtensions, Lookup;
    var m := BaseExtensions(se, settings);
    PutLookup(m, "commit_sha", Trim(se.revision), k);
    PutLookup(m + Optional("commit_sha", Trim(se.revision)), "argo_result", Trim(se.result), k);
    PutHistoryLookup(m + Optional("commit_sha", Trim(se.revision)) + Optional("argo_result", Trim(se.result)), se, k);
  }

  /** Every extension of a normalised event by its key; there are no others. */
  lemma ExtensionsSay(se: SourceEvent, settings: Settings, k: string)
    ensures var ticket := Annotation(se.payload, "evidra.rest/ticket");
            var change := Annotation(se.payload, "evidra.rest/change-id");
            var reference := Annotation(se.payload, "evidra.rest/approvals-ref");
            var approvals := Annotation(se.payload, "evidra.rest/approvals-json");
            Lookup(ExtensionsOf(se, settings), k) ==
              if k == "approvals_json" && approvals != "" then Some(Str(approvals))
              else if k == "approval_reference" && reference != "" then Some(Str(reference))
              else if k == "ticket_id" && ticket != "" then Some(Str(ticket))
              else if k == "external_change_id" && change != "" then Some(Str(change))
              else if k == "health_status" && Trim(se.healthStatus) != "" then Some(Str(Trim(se.healthStatus)))
              else if k == "operation_id" && Trim(se.operationKey) != "" then Some(Str(Trim(se.operationKey)))
              else if k == "history_id" && se.historyID > 0 then Some(Wide(se.historyID))
              else if k == "argo_result" && Trim(se.result) != "" then Some(Str(Trim(se.result)))
              else if k == "commit_sha" && Trim(se.revision) != "" then Some(Str(Trim(se.revision)))
              else Lookup(BaseExtensions(se, settings), k)
  {
    EarlyLookup(se, settings, k);
    LateExtensions(se, settings);
    hide Trim, Optional, Annotation, Lookup, EarlyExtensions, ExtensionsOf, BaseExtensions;
    var m0 := EarlyExtensions(se, settings);
    var m1 := m0 + Optional("operation_id", Trim(se.operationKey));
    var m2 := m1 + Optional("health_status", Trim(se.healthStatus));
    var m3 := m2 + Optional("external_change_id", Annotation(se.payload, "evidra.rest/change-id"));
    var m4 := m3 + Optional("ticket_id", Annotation(se.payload, "evidra.rest/ticket"));
    var m5 := m4 + Optional("approval_reference", Annotation(se.payload, "evidra.rest/approvals-ref"));
    PutLookup(m0, "operation_id", Trim(se.operationKey), k);
    PutLookup(m1, "health_status", Trim(se.healthStatus), k);
    PutLookup(m2, "external_change_id", Annotation(se.payload, "evidra.rest/change-id"), k);
    PutLookup(m3, "ticket_id", Annotation(se.payload, "evidra.rest/ticket"), k);
    PutLookup(m4, "approval_reference", Annotation(se.payload, "evidra.rest/approvals-ref"), k);
    PutLookup(m5, "approvals_json", Annotation(se.payload, "evidra.rest/approvals-json"), k);
  }

  lemma LateExtensions(se: SourceEvent, settings: Settings)
    ensures ExtensionsOf(se, settings) ==
      EarlyExtensions(se, settings)
      + Optional("operation_id", Trim(se.operationKey))
      + Optional("health_status", Trim(se.healthStatus))
      + Optional("external_change_id", Annotation(se.payload, "evidra.rest/change-id"))
      + Optional("ticket_id", Annotation(se.payload, "evidra.rest/ticket"))
      + Optional("approval_reference", Annotation(se.payload, "evidra.rest/approvals-ref"))
      + Optional("approvals_json", Annotation(se.payload, "evidra.rest/approvals-json"))
  {
    hide Trim, Annotation, Optional, BaseExtensions, HistoryExtension;
  }

  /** An annotation is the trimmed text under its key among the payload's annotations, empty without one. */
  lemma AnnotationIs(payload: map<string, Json>, kept: map<string, Json>, key: string, s: string)
    ensures Annotation(None, key) == ""
    ensures "annotations" !in payload ==> Annotation(Some(payload), key) == ""
    ensures Lookup(payload, "annotations") == Some(JObject(kept)) && Lookup(kept, key) == Some(JText(s)) ==>
              Annotation(Some(payload), key) == Trim(s)
    ensures Lookup(payload, "annotations") == Some(JObject(kept)) && key !in kept ==>
              Annotation(Some(payload), key) == ""
  {
    hide Trim;
  }

  /** The data: application, result under two names, the payload, and the approvals if their annotation parses. */
  lemma DataSays(se: SourceEvent, settings: Settings)
    ensures var data, approvals := DataOf(se, settings), Annotation(se.payload, "evidra.rest/approvals-json");
            && Lookup(data, "argocd_app") == Some(JText(Trim(se.app)))
            && Lookup(data, "phase") == Lookup(data, "result") == Some(JText(Trim(se.result)))
            && Lookup(data, "source_payload") ==
                 (if se.payload.Some? then Some(JObject(se.payload.value)) else None)
            && Lookup(data, "approvals") == (if approvals != "" then settings.parseApprovals(approvals) else None)
            && data.Keys <= {"argocd_app", "phase", "result", "source_payload", "approvals"}
    ensures NormalizeSourceEvent(se, settings).Some? ==>
              var data := NormalizeSourceEvent(se, settings).value.data;
              data.fields == DataOf(se, settings) && data.raw == "{" + settings.render(data.fields) + "}"
  {
    hide Trim, Annotation, ExtensionsOf;
  }
}
