/** The decision taken by `persist_classification`, on typed values. */
module Activities {
  import opened JsonValues
  import opened Domain

  /** What `classify_payload` returns: the two variants of its tagged union. */
  datatype Classified =
    | Ok(result: Classification)
    | SchemaRejected(raw: Json, message: string)

  datatype Reason = Ungrounded | VerifierSkipped

  /** `normalized_data`, before it is dumped. */
  datatype Normalized =
    | Extracted(result: Classification, verification: Option<Verification>, reason: Option<Reason>)
    | Rejected(raw: Json, message: string)

  /** A row of `shipments` or `invoices`, without its event id. */
  datatype Record =
    | ShipmentRecord(shipment: ShipmentData)
    | InvoiceRecord(invoice: InvoiceData)

  /** The two arguments a run hands to `persist_classification`. */
  datatype Evidence = Evidence(classified: Classified, verification: Option<Verification>)

  /** The arguments `store_and_complete` receives. */
  datatype Decision =
    Decision(eventType: EventType, normalized: Normalized, record: Option<Record>, review: bool)

  predicate ShouldVerify(c: Classified) {
    c.Ok? && c.result.eventType != Unclassified
  }

  /** Evidence a workflow run can hold: validated results, verified exactly when it must be. */
  predicate Produced(e: Evidence) {
    && (e.classified.Ok? ==> MatchesType(e.classified.result))
    && (e.verification.Some? <==> ShouldVerify(e.classified))
    && (e.verification.Some? ==> ValidVerification(e.verification.value))
  }

  /** Evidence whose extraction passed every validator. */
  predicate ValidEvidence(currencies: set<string>, e: Evidence) {
    Produced(e) && (e.classified.Ok? ==> ValidClassification(currencies, e.classified.result))
  }

  /** What `classify_payload` can return: a validated result, or a rejected container. */
  predicate Returnable(currencies: set<string>, c: Classified) {
    match c
    case Ok(r) => ValidClassification(currencies, r)
    case SchemaRejected(raw, _) => raw.Obj? || raw.Arr?
  }

  function ReviewReason(r: Classification, v: Option<Verification>): Option<Reason> {
    if v.Some? && !v.value.grounded && r.eventType != Unclassified then Some(Ungrounded) else None
  }

  /** `RECORD_BUILDERS[event_type]` applied to the extraction. */
  function BuildRecord(r: Classification): Option<Record> {
    match r.eventType
    case Shipment => if r.shipment.Some? then Some(ShipmentRecord(r.shipment.value)) else None
    case Invoice => if r.invoice.Some? then Some(InvoiceRecord(r.invoice.value)) else None
    case Unclassified => None
  }

  /** The event type the model claimed in output that failed validation. */
  function ClaimedType(raw: Json): EventType {
    if Get(raw, "event_type") == Some(Str("shipment")) then Shipment
    else if Get(raw, "event_type") == Some(Str("invoice")) then Invoice
    else Unclassified
  }

  function Decide(e: Evidence): Decision {
    match e.classified
    case SchemaRejected(raw, message) => Decision(ClaimedType(raw), Rejected(raw, message), None, true)
    case Ok(r) =>
      var found := ReviewReason(r, e.verification);
      var reason :=
        if found.None? && e.verification.None? && r.eventType != Unclassified then Some(VerifierSkipped)
        else found;
      Decision(r.eventType, Extracted(r, e.verification, reason),
               if reason.Some? then None else BuildRecord(r), reason.Some?)
  }

  /** The evidence a stored `normalized_data` came from. */
  function EvidenceOf(n: Normalized): Evidence {
    match n
    case Extracted(r, v, _) => Evidence(Ok(r), v)
    case Rejected(raw, message) => Evidence(SchemaRejected(raw, message), None)
  }

  /** The record an operator's approval builds, if the row holds an extraction. */
  function PromotableRecord(t: EventType, n: Normalized): Option<Record> {
    match n
    case Rejected(_, _) => None
    case Extracted(r, _, _) =>
      if t == Shipment && r.shipment.Some? then Some(ShipmentRecord(r.shipment.value))
      else if t == Invoice && r.invoice.Some? then Some(InvoiceRecord(r.invoice.value))
      else None
  }

  /** For every evidence a run can hold, exactly one of three things happens: a record
      is written, the row goes to review, or nothing was extracted. A record needs a
      grounded verification; nothing is ever reviewed for want of a verifier. */
  lemma DecideRoutes(e: Evidence)
    requires Produced(e)
    ensures var d := Decide(e);
      && EvidenceOf(d.normalized) == e
      && (d.record.Some? <==> ShouldVerify(e.classified) && e.verification.value.grounded)
      && (d.record.Some? ==> e.verification.value.unsupported == [])
      && (d.record.Some? ==> d.record == PromotableRecord(d.eventType, d.normalized))
      && (d.review <==> e.classified.SchemaRejected?
                        || (ShouldVerify(e.classified) && !e.verification.value.grounded))
      && (d.normalized.Extracted? ==> d.normalized.reason != Some(VerifierSkipped))
      && !(d.record.Some? && d.review)
      && (d.record.None? && !d.review ==> d.eventType == Unclassified)
  {
  }
}
