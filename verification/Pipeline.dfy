/** The decision pipeline on the wire: model reply, unwrapping, validation,
    verification, persistence and promotion, all over JSON values. */
module Pipeline {
  import opened JsonValues
  import opened Domain
  import opened Activities

  // ------------------------------------------------- workflows/llm_client.py

  function UnwrapResponse(parsed: Json): Json {
    if parsed.Obj? && "results" in parsed.fields && parsed.fields["results"].Arr? then
      var items := parsed.fields["results"].items;
      if items != [] then items[0] else parsed
    else if parsed.Arr? then
      if parsed.items != [] then parsed.items[0]
      else Obj(map["event_type" := Str("unclassified")])
    else parsed
  }

  function Classify(cd: Codec, reply: Json): Classified {
    var parsed := UnwrapResponse(reply);
    match ValidateClassification(cd, parsed)
    case Some(r) => Ok(r)
    case None =>
      SchemaRejected(if parsed.Obj? || parsed.Arr? then parsed else Obj(map["raw" := Str(cd.text(parsed))]),
                     cd.errorText(parsed))
  }

  function Clip(s: string, n: nat): string { if |s| > n then s[..n] else s }

  function Verify(cd: Codec, reply: Json): Verification {
    var parsed := UnwrapResponse(reply);
    match ValidateVerification(cd, parsed)
    case Some(v) => v
    case None =>
      Verification(false, [], [],
                   "verifier output failed schema validation: " + Clip(cd.errorText(parsed), 300))
  }

  // ------------------------------------------------- workflows/activities.py

  /** `classify_payload`: the tagged union as it crosses the workflow boundary. */
  function DumpClassified(cd: Codec, c: Classified): Json {
    match c
    case Ok(r) => Obj(map["kind" := Str("ok"), "result" := DumpClassification(cd, r)])
    case SchemaRejected(raw, message) =>
      Obj(map["kind" := Str("schema_rejected"), "raw_llm_output" := raw, "validation_message" := Str(message)])
  }

  /** A record as the column values handed to the ORM. */
  datatype WireRecord =
    | WireShipment(vendorId: Json, trackingNumber: Json, status: Json, timestamp: Json)
    | WireInvoice(vendorId: Json, invoiceId: Json, amount: Json, currency: Json)

  datatype WireDecision =
    WireDecision(eventType: string, normalized: Json, record: Option<WireRecord>, review: bool)

  function GetOr(j: Json, k: string, default: Json): Json {
    match Get(j, k) case Some(x) => x case None => default
  }

  /** `_bounded_raw_output`. */
  function BoundedRawOutput(cd: Codec, raw: Json): Json {
    var text := cd.render(raw);
    if |text| <= 8192 then Obj(map["truncated" := Bool(false), "content" := raw])
    else Obj(map["truncated" := Bool(true), "content" := Str(text[..8192] + "...[truncated]")])
  }

  function ReasonName(r: Reason): string {
    match r case Ungrounded => "ungrounded" case VerifierSkipped => "verifier_skipped"
  }

  /** The two record builders of `webhooks/storage.py`, by event type. */
  function BuildWireRecord(t: EventType, inner: Json): Option<WireRecord> {
    match t
    case Shipment =>
      var s := GetOr(inner, "shipment", Null);
      if s == Null then None
      else Some(WireShipment(GetOr(s, "vendor_id", Null), GetOr(s, "tracking_number", Null),
                             GetOr(s, "status", Null), GetOr(s, "timestamp", Null)))
    case Invoice =>
      var i := GetOr(inner, "invoice", Null);
      if i == Null then None
      else Some(WireInvoice(GetOr(i, "vendor_id", Null), GetOr(i, "invoice_id", Null),
                            GetOr(i, "amount", Null), GetOr(i, "currency", Null)))
    case Unclassified => None
  }

  function RejectedData(cd: Codec, raw: Json, message: string): Json {
    Obj(map["schema_rejected" := Bool(true), "raw_llm_output" := BoundedRawOutput(cd, raw),
            "validation_message" := Str(Clip(message, 8192))])
  }

  function ExtractedData(cd: Codec, r: Classification, v: Option<Verification>, reason: Option<Reason>): Json {
    var base := DumpFields(cd, r);
    var verified := if v.Some? then base["verification" := DumpVerification(v.value)] else base;
    Obj(if reason.Some? then verified["review_reason" := Str(ReasonName(reason.value))] else verified)
  }

  /** `_persist_schema_rejected`. */
  function PersistRejected(cd: Codec, classification: Json): WireDecision {
    var raw := GetOr(classification, "raw_llm_output", Obj(map[]));
    var message := match GetOr(classification, "validation_message", Str("")) case Str(s) => s case _ => "";
    WireDecision(TypeName(ClaimedType(raw)), RejectedData(cd, raw, message), None, true)
  }

  /** The routing of a validated extraction; `inner` is still the raw dictionary. */
  function PersistExtracted(cd: Codec, inner: Json, r: Classification, v: Option<Verification>): WireDecision {
    var found := ReviewReason(r, v);
    var reason :=
      if found.None? && v.None? && r.eventType != Unclassified then Some(VerifierSkipped) else found;
    WireDecision(TypeName(r.eventType), ExtractedData(cd, r, v, reason),
                 if reason.Some? then None else BuildWireRecord(r.eventType, inner), reason.Some?)
  }

  /** `persist_classification` up to its transaction; None is a raised ValidationError. */
  function PersistClassification(cd: Codec, classification: Json, verification: Option<Json>): Option<WireDecision> {
    if Get(classification, "kind") == Some(Str("schema_rejected")) then
      Some(PersistRejected(cd, classification))
    else
      var inner := GetOr(classification, "result", classification);
      var r := ValidateClassification(cd, inner);
      var v := match verification case Some(j) => ValidateVerification(cd, j) case None => None;
      if r.None? || (verification.Some? && v.None?) then None
      else Some(PersistExtracted(cd, inner, r.value, v))
  }

  /** `_should_verify` of the workflow, on the wire form. */
  predicate ShouldVerifyWire(c: Json) {
    && Get(c, "kind") == Some(Str("ok"))
    && Get(GetOr(c, "result", Obj(map[])), "event_type") != Some(Str("unclassified"))
  }

  /** One run of the workflow's happy path for the two replies the model gives. */
  function RunPipeline(cd: Codec, classifierReply: Json, verifierReply: Json): Option<WireDecision> {
    var c := DumpClassified(cd, Classify(cd, classifierReply));
    var v := if ShouldVerifyWire(c) then Some(DumpVerification(Verify(cd, verifierReply))) else None;
    PersistClassification(cd, c, v)
  }

  // ------------------------------------------------------- webhooks/admin.py

  /** `_create_record_from_extraction`: the column values, or None when not promotable. */
  function PromoteWire(eventType: string, normalized: Json): Option<WireRecord> {
    if eventType == "shipment" && Truthy(GetOr(normalized, "shipment", Null)) then
      BuildWireRecord(Shipment, normalized)
    else if eventType == "invoice" && Truthy(GetOr(normalized, "invoice", Null)) then
      BuildWireRecord(Invoice, normalized)
    else None
  }

  // --------------------------------------------------------------- the dumps

  function DumpRecord(cd: Codec, r: Record): WireRecord {
    match r
    case ShipmentRecord(d) =>
      WireShipment(Str(d.vendorId), Str(d.trackingNumber), Str(StatusName(d.status)), cd.dumpTime(d.timestamp))
    case InvoiceRecord(d) =>
      WireInvoice(Str(d.vendorId), Str(d.invoiceId), cd.dumpDecimal(d.amount), Str(d.currency))
  }

  function MapRecord(cd: Codec, r: Option<Record>): Option<WireRecord> {
    if r.Some? then Some(DumpRecord(cd, r.value)) else None
  }

  function DumpNormalized(cd: Codec, n: Normalized): Json {
    match n
    case Extracted(r, v, reason) => ExtractedData(cd, r, v, reason)
    case Rejected(raw, message) => RejectedData(cd, raw, message)
  }

  function DumpDecision(cd: Codec, d: Decision): WireDecision {
    WireDecision(TypeName(d.eventType), DumpNormalized(cd, d.normalized), MapRecord(cd, d.record), d.review)
  }

  /** The evidence two replies amount to. */
  function EvidenceFor(cd: Codec, classifierReply: Json, verifierReply: Json): Evidence {
    var c := Classify(cd, classifierReply);
    Evidence(c, if ShouldVerify(c) then Some(Verify(cd, verifierReply)) else None)
  }

  // ----------------------------------------------------------------- results

  lemma RepliesGiveValidEvidence(cd: Codec, r1: Json, r2: Json)
    ensures Returnable(cd.currencies, Classify(cd, r1)) && ValidVerification(Verify(cd, r2))
    ensures ValidEvidence(cd.currencies, EvidenceFor(cd, r1, r2))
  {
    hide ValidateClassification, UnwrapResponse, ValidShipment, ValidInvoice;
    ValidateClassificationSound(cd, UnwrapResponse(r1));
  }

  /** Every valid classification is what some reply is classified as. */
  lemma EveryValidResultHasAReply(cd: Codec, r: Classification)
    requires Exact(cd) && ValidClassification(cd.currencies, r)
    ensures Classify(cd, DumpClassification(cd, r)) == Ok(r)
  {
    hide ValidateClassification, ValidClassification;
    ClassificationRoundTrip(cd, r);
    assert "results" !in DumpClassification(cd, r).fields;
  }

  lemma DumpedFields(cd: Codec, r: Classification)
    ensures var j := DumpClassification(cd, r);
      && Get(j, "kind") == None && Get(j, "result") == None
      && Get(j, "event_type") == Some(Str(TypeName(r.eventType)))
      && Get(j, "shipment") == Some(if r.shipment.Some? then DumpShipment(cd, r.shipment.value) else Null)
      && Get(j, "invoice") == Some(if r.invoice.Some? then DumpInvoice(cd, r.invoice.value) else Null)
  {
    hide DumpShipment, DumpInvoice, TypeName;
  }

  lemma DumpedColumns(cd: Codec, r: Classification)
    requires MatchesType(r)
    ensures BuildWireRecord(r.eventType, DumpClassification(cd, r)) == MapRecord(cd, BuildRecord(r))
  {
    hide DumpClassification, TypeName, StatusName;
    DumpedFields(cd, r);
  }

  lemma DumpedUnion(cd: Codec, c: Classified)
    ensures var j := DumpClassified(cd, c);
      && (c.Ok? ==> Get(j, "kind") == Some(Str("ok"))
                    && Get(j, "result") == Some(DumpClassification(cd, c.result)))
      && (c.SchemaRejected? ==> Get(j, "kind") == Some(Str("schema_rejected"))
                                && Get(j, "raw_llm_output") == Some(c.raw)
                                && Get(j, "validation_message") == Some(Str(c.message)))
  {
  }

  lemma ExtractedRefines(cd: Codec, r: Classification, v: Option<Verification>)
    requires MatchesType(r)
    ensures PersistExtracted(cd, DumpClassification(cd, r), r, v)
         == DumpDecision(cd, Decide(Evidence(Ok(r), v)))
  {
    hide BuildWireRecord, DumpRecord, DumpClassification, ExtractedData;
    DumpedColumns(cd, r);
  }

  lemma ShouldVerifyRefines(cd: Codec, c: Classified)
    ensures ShouldVerifyWire(DumpClassified(cd, c)) == ShouldVerify(c)
  {
    DumpedUnion(cd, c);
    if c.Ok? { DumpedFields(cd, c.result); }
  }

  function DumpVerdict(v: Option<Verification>): Option<Json> {
    if v.Some? then Some(DumpVerification(v.value)) else None
  }

  /** On dumped evidence the wire code computes the dump of the typed decision. */
  lemma PersistRefinesDecide(cd: Codec, e: Evidence)
    requires Exact(cd) && ValidEvidence(cd.currencies, e)
    ensures PersistClassification(cd, DumpClassified(cd, e.classified), DumpVerdict(e.verification))
         == Some(DumpDecision(cd, Decide(e)))
  {
    DumpedUnion(cd, e.classified);
    match e.classified
    case SchemaRejected(raw, message) =>
    case Ok(r) =>
      ClassificationRoundTrip(cd, r);
      ExtractedRefines(cd, r, e.verification);
      if e.verification.Some? { VerificationRoundTrip(cd, e.verification.value); }
  }

  /** Persisting the bare classification is persisting the wrapped one. */
  lemma BareAndWrappedAgree(cd: Codec, r: Classification, v: Option<Json>)
    ensures PersistClassification(cd, DumpClassification(cd, r), v)
         == PersistClassification(cd, DumpClassified(cd, Ok(r)), v)
  {
    DumpedFields(cd, r);
    DumpedUnion(cd, Ok(r));
  }

  lemma ReasonIsStored(cd: Codec, d: Decision)
    requires d.normalized.Extracted? ==> d.normalized.reason != Some(VerifierSkipped)
    ensures Get(DumpNormalized(cd, d.normalized), "review_reason") != Some(Str("verifier_skipped"))
  {
  }

  /** The event type a reply claims: what it says, if that is a type that may be claimed. */
  function ClaimIn(reply: Json): string {
    match Get(reply, "event_type")
    case Some(Str(s)) => if s in {"shipment", "invoice"} then s else "unclassified"
    case _ => "unclassified"
  }

  /** End to end, for all replies: the pipeline never raises, it computes the typed
      decision, and the outcome is fixed by what the two validators say. */
  lemma EndToEndRouting(cd: Codec, r1: Json, r2: Json)
    requires Exact(cd)
    ensures var out := RunPipeline(cd, r1, r2);
      var x := ValidateClassification(cd, UnwrapResponse(r1));
      var y := ValidateVerification(cd, UnwrapResponse(r2));
      var typed := x.Some? && x.value.eventType != Unclassified;
      var grounded := y.Some? && y.value.grounded;
      && out == Some(DumpDecision(cd, Decide(EvidenceFor(cd, r1, r2))))
      && (out.value.record.Some? <==> typed && grounded)
      && (out.value.review <==> x.None? || (typed && !grounded))
      && (out.value.record.None? && !out.value.review <==> x.Some? && x.value.eventType == Unclassified)
      && (out.value.record.Some? ==> out.value.record == MapRecord(cd, BuildRecord(x.value)))
      && (out.value.record.Some? ==> y.value.unsupported == [])
      && Get(out.value.normalized, "review_reason") != Some(Str("verifier_skipped"))
  {
    var e := EvidenceFor(cd, r1, r2);
    RepliesGiveValidEvidence(cd, r1, r2);
    ShouldVerifyRefines(cd, e.classified);
    PersistRefinesDecide(cd, e);
    DecideRoutes(e);
    ReasonIsStored(cd, Decide(e));
  }

  /** The stored event type is the extracted one, or the claim of a reply that was rejected. */
  lemma StoredEventType(cd: Codec, r1: Json, r2: Json)
    requires Exact(cd)
    ensures var out := RunPipeline(cd, r1, r2);
      var x := ValidateClassification(cd, UnwrapResponse(r1));
      && out.Some?
      && out.value.eventType == (if x.Some? then TypeName(x.value.eventType) else ClaimIn(UnwrapResponse(r1)))
  {
    hide RunPipeline, ValidateClassification, UnwrapResponse, DumpNormalized, MapRecord, Verify;
    EndToEndRouting(cd, r1, r2);
  }

  /** How the model wraps its one object does not matter: bare, first of an array, or first
      of a "results" list, the pipeline does the same. */
  lemma WrappingDoesNotMatter(cd: Codec, fields: map<string, Json>, more: seq<Json>, extra: map<string, Json>, r2: Json)
    requires "results" in fields ==> !fields["results"].Arr?
    ensures var bare := Obj(fields);
      && RunPipeline(cd, Arr([bare] + more), r2) == RunPipeline(cd, bare, r2)
      && RunPipeline(cd, Obj(extra["results" := Arr([bare] + more)]), r2) == RunPipeline(cd, bare, r2)
  {
    hide RunPipeline;
    var bare := Obj(fields);
    assert ([bare] + more)[0] == bare;
    SameReplySameRun(cd, Arr([bare] + more), bare, r2);
    SameReplySameRun(cd, Obj(extra["results" := Arr([bare] + more)]), bare, r2);
  }

  /** An empty array extracts nothing: no record, no review. */
  lemma EmptyReplyExtractsNothing(cd: Codec, r2: Json)
    requires Exact(cd)
    ensures var out := RunPipeline(cd, Arr([]), r2);
      out.Some? && out.value.eventType == "unclassified" && out.value.record.None? && !out.value.review
  {
    hide RunPipeline, Verify, DumpDecision;
    EndToEndRouting(cd, Arr([]), r2);
    StoredEventType(cd, Arr([]), r2);
    assert ValidateClassification(cd, Obj(map["event_type" := Str("unclassified")])) ==
           Some(Classification(Unclassified, None, None));
  }

  lemma SameReplySameRun(cd: Codec, a: Json, b: Json, r2: Json)
    requires UnwrapResponse(a) == UnwrapResponse(b)
    ensures RunPipeline(cd, a, r2) == RunPipeline(cd, b, r2)
  {
  }

  lemma ExtractedKeepsPayload(cd: Codec, r: Classification, v: Option<Verification>, reason: Option<Reason>)
    ensures var j := ExtractedData(cd, r, v, reason);
      && Get(j, "shipment") == Get(DumpClassification(cd, r), "shipment")
      && Get(j, "invoice") == Get(DumpClassification(cd, r), "invoice")
      && Get(j, "schema_rejected") == None
  {
  }

  lemma DumpedPayload(cd: Codec, r: Classification)
    ensures Truthy(GetOr(DumpClassification(cd, r), "shipment", Null)) == r.shipment.Some?
    ensures Truthy(GetOr(DumpClassification(cd, r), "invoice", Null)) == r.invoice.Some?
  {
    if r.shipment.Some? { assert "vendor_id" in DumpShipment(cd, r.shipment.value).fields; }
    if r.invoice.Some? { assert "vendor_id" in DumpInvoice(cd, r.invoice.value).fields; }
  }

  /** Approving a stored decision writes the columns the automatic path would have written,
      from any row the pipeline stores; a rejected row has nothing to promote. */
  lemma PromotionRefines(cd: Codec, e: Evidence)
    requires Produced(e)
    ensures var d := Decide(e);
      PromoteWire(TypeName(d.eventType), DumpNormalized(cd, d.normalized))
        == MapRecord(cd, PromotableRecord(d.eventType, d.normalized))
    ensures var d := Decide(e);
      Truthy(GetOr(DumpNormalized(cd, d.normalized), "schema_rejected", Null)) <==> d.normalized.Rejected?
  {
    hide BuildWireRecord, DumpRecord, DumpClassification, ExtractedData;
    var d := Decide(e);
    match d.normalized
    case Rejected(raw, message) =>
      assert Get(DumpNormalized(cd, d.normalized), "shipment") == None;
      assert Get(DumpNormalized(cd, d.normalized), "invoice") == None;
    case Extracted(r, v, reason) =>
      ExtractedPromotes(cd, r, v, reason);
      ExtractedKeepsPayload(cd, r, v, reason);
  }

  lemma SameColumns(t: EventType, a: Json, b: Json)
    requires Get(a, "shipment") == Get(b, "shipment") && Get(a, "invoice") == Get(b, "invoice")
    ensures BuildWireRecord(t, a) == BuildWireRecord(t, b)
  {
  }

  /** Promotion reads the stored JSON as the builders read the extraction. */
  lemma ExtractedPromotes(cd: Codec, r: Classification, v: Option<Verification>, reason: Option<Reason>)
    requires MatchesType(r)
    ensures PromoteWire(TypeName(r.eventType), ExtractedData(cd, r, v, reason)) == MapRecord(cd, BuildRecord(r))
  {
    hide BuildWireRecord, DumpRecord, DumpClassification, ExtractedData, DumpShipment, DumpInvoice;
    ExtractedKeepsPayload(cd, r, v, reason);
    DumpedPayload(cd, r);
    SameColumns(r.eventType, ExtractedData(cd, r, v, reason), DumpClassification(cd, r));
    DumpedColumns(cd, r);
  }
}
