/** Stored events, their extensions and payloads, and the integrity hash. Instants are nanoseconds counted
    from Go's zero time, so 0 is "not set". SHA-256 is modelled by its preimage: two digests are equal
    exactly when the canonical contents are. A payload counts with its raw bytes, spaces included, and an
    extension that is an object, an array or null counts as Opaque whatever is in it. */
module CloudEvents {
  import opened Text
  import opened Keyset

  /** JInstant is a string holding a formatted instant. */
  datatype Json =
    | JText(s: string)
    | JInstant(t: int)
    | JNumber(n: int)
    | JObject(fields: map<string, Json>)
    | JArray(items: seq<Json>)
    | JOther

  /** The raw bytes of `data` and the members of the object they decode to (none if they decode to no object). */
  datatype Payload = Payload(raw: string, fields: map<string, Json>)

  /** Number is float64 or int, Wide is int64, which ExtensionBool does not recognise. */
  datatype ExtValue = Str(s: string) | Flag(b: bool) | Number(n: real) | Wide(w: int) | Opaque

  datatype Canonical = Canonical(id: string, source: string, typ: string, subject: string, time: int,
                                 ext: map<string, ExtValue>, data: Payload)

  /** An integrity hash: empty, the digest of some content, or any other text a caller claims. */
  datatype Digest = Unset | Sha256(of: Canonical) | Claimed(text: string)

  datatype StoredEvent = StoredEvent(id: string, typ: string, source: string, subject: string, time: int,
                                     ext: map<string, ExtValue>, data: Payload, integrity: Digest, ingestedAt: int)

  /** JSON writes every integer and float the same way. */
  function EncodeExt(v: ExtValue): ExtValue {
    if v.Wide? then Number(v.w as real) else v
  }

  /** ComputeIntegrityHash: everything but the hash itself and the ingestion time. */
  function IntegrityHash(e: StoredEvent): Digest {
    Sha256(Canonical(e.id, e.source, e.typ, e.subject, e.time,
                     map k | k in e.ext :: EncodeExt(e.ext[k]), e.data))
  }

  /** What two hashes agree on: every member but the hash and the ingestion time, numbers counting by value. */
  lemma HashesAgreeIff(e: StoredEvent, f: StoredEvent)
    ensures IntegrityHash(e) == IntegrityHash(f) <==>
              && e.id == f.id && e.source == f.source && e.typ == f.typ && e.subject == f.subject && e.time == f.time
              && e.data == f.data && e.ext.Keys == f.ext.Keys
              && forall k :: k in e.ext && k in f.ext ==> SameValue(e.ext[k], f.ext[k])
  {
    var a, b := map k | k in e.ext :: EncodeExt(e.ext[k]), map k | k in f.ext :: EncodeExt(f.ext[k]);
    assert a.Keys == e.ext.Keys && b.Keys == f.ext.Keys;
    assert IntegrityHash(e).of.ext == a && IntegrityHash(f).of.ext == b;
    assert a == b <==> a.Keys == b.Keys && forall k :: k in a && k in b ==> a[k] == b[k];
  }

  predicate SameValue(v: ExtValue, w: ExtValue) {
    v == w || (v.Wide? && w.Number? && v.w as real == w.n) || (v.Number? && w.Wide? && v.n == w.w as real)
  }

  function ExtensionString(ext: map<string, ExtValue>, key: string): string {
    if key in ext && ext[key].Str? then Trim(ext[key].s) else ""
  }

  predicate ExtensionBool(ext: map<string, ExtValue>, key: string) {
    key in ext &&
    match ext[key]
    case Flag(b) => b
    case Str(s) => var v := Lower(Trim(s)); v == "true" || v == "1" || v == "yes"
    case Number(n) => n != 0.0
    case Wide(_) => false
    case Opaque => false
  }

  /** Texts are looked up trimmed; whatever is not a text, or not there, is empty. */
  lemma ExtensionStringIs(ext: map<string, ExtValue>, key: string, s: string)
    ensures Lookup(ext, key) == Some(Str(s)) ==> ExtensionString(ext, key) == Trim(s)
    ensures (forall t :: Lookup(ext, key) != Some(Str(t))) ==> ExtensionString(ext, key) == ""
  {
    hide Trim;
    if key in ext && ext[key].Str? { assert Lookup(ext, key) == Some(Str(ext[key].s)); }
  }

  /** An extension is set by true, a number other than zero, or the texts "true", "1" and "yes" in any case. */
  lemma ExtensionBoolIff(ext: map<string, ExtValue>, key: string)
    ensures ExtensionBool(ext, key) <==>
              || Lookup(ext, key) == Some(Flag(true))
              || (exists n :: n != 0.0 && Lookup(ext, key) == Some(Number(n)))
              || (exists s :: Lower(Trim(s)) in {"true", "1", "yes"} && Lookup(ext, key) == Some(Str(s)))
  {
    hide Trim, Lower;
    if key in ext && ext[key].Str? { assert Lookup(ext, key) == Some(Str(ext[key].s)); }
    if key in ext && ext[key].Number? { assert Lookup(ext, key) == Some(Number(ext[key].n)); }
  }

  /** A decoded request body: absent members are empty, an absent or unreadable time is 0. */
  datatype RawEvent = RawEvent(id: string, source: string, typ: string, subject: string, time: int,
                               data: Payload, ext: map<string, ExtValue>)

  /** rawToStoredEvent: every member from its own key, the time defaulted to the clock, and the hash taken last. */
  function ParseEvent(raw: RawEvent, now: int): (r: Option<StoredEvent>)
    ensures r.Some? <==>
              raw.id != "" && raw.source != "" && raw.typ != "" && raw.data.raw != "" && raw.data.raw != "null"
    ensures r.Some? ==>
              && r.value.id == raw.id && r.value.source == raw.source && r.value.typ == raw.typ
              && r.value.subject == raw.subject && r.value.ext == raw.ext && r.value.data == raw.data
              && r.value.time == (if raw.time != 0 then raw.time else now) && r.value.ingestedAt == 0
              && r.value.integrity == IntegrityHash(r.value)
  {
    if raw.id == "" || raw.source == "" || raw.typ == "" || raw.data.raw == "" || raw.data.raw == "null" then None
    else
      var e := StoredEvent(raw.id, raw.typ, raw.source, raw.subject, if raw.time == 0 then now else raw.time,
                           raw.ext, raw.data, Unset, 0);
      Some(e.(integrity := IntegrityHash(e)))
  }
}
