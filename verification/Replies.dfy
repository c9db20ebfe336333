/** What becomes of a model reply, said of its JSON alone: which replies are accepted, what is
    read from them, and what the row and the record then hold. */
module Replies {
  import opened JsonValues
  import opened Domain
  import opened Activities
  import opened Pipeline

  // ------------------------------------------------------------------------ names

  /** The characters of class whitespace, as `str.strip()` knows them. */
  const SPACES :=
    "\t\n\U{0b}\U{0c}\r\U{1c}\U{1d}\U{1e}\U{1f} \U{85}\U{a0}\U{1680}\U{2000}\U{2001}\U{2002}\U{2003}\U{2004}" +
    "\U{2005}\U{2006}\U{2007}\U{2008}\U{2009}\U{200a}\U{2028}\U{2029}\U{202f}\U{205f}\U{3000}"

  lemma SpacesAreListed(c: char)
    ensures IsSpace(c) <==> c in SPACES
  {
    if IsSpace(c) {
      var n := c as int;
      var i := if n <= 0x0d then n - 0x09 else if n <= 0x20 then n - 0x1c + 5
        else if n == 0x85 then 10 else if n == 0xa0 then 11 else if n == 0x1680 then 12
        else if n <= 0x200a then n - 0x2000 + 13
        else if n <= 0x2029 then n - 0x2028 + 24
        else if n == 0x202f then 26 else if n == 0x205f then 27 else 28;
      assert SPACES[i] == c;
    }
  }

  predicate AllSpace(s: string) { forall i | 0 <= i < |s| :: IsSpace(s[i]) }

  /** The name is the text without its outer whitespace. */
  ghost predicate Trims(text: string, name: string) {
    && (name != "" ==> !IsSpace(name[0]) && !IsSpace(name[|name| - 1]))
    && exists a: nat, b: nat | a <= b <= |text| ::
         name == text[a..b] && AllSpace(text[..a]) && AllSpace(text[b..])
  }

  lemma {:induction false} LStripCuts(s: string) returns (a: nat)
    ensures a <= |s| && LStrip(s) == s[a..] && AllSpace(s[..a])
    ensures a < |s| ==> !IsSpace(s[a])
  {
    a := 0;
    if s != "" && IsSpace(s[0]) {
      var n := LStripCuts(s[1..]);
      a := n + 1;
      assert s[..a] == [s[0]] + s[1..][..n];
      assert s[a..] == s[1..][n..];
    }
  }

  lemma {:induction false} RStripCuts(s: string) returns (b: nat)
    ensures b <= |s| && RStrip(s) == s[..b] && AllSpace(s[b..])
  {
    b := |s|;
    if s != "" && IsSpace(s[|s| - 1]) {
      b := RStripCuts(s[..|s| - 1]);
      assert s[..|s| - 1][..b] == s[..b];
      assert s[b..] == s[..|s| - 1][b..] + [s[|s| - 1]];
    }
  }

  lemma StripTrims(s: string)
    ensures Trims(s, Strip(s)) && (Strip(s) == "" <==> AllSpace(s))
  {
    StripNormalises(s);
    var a := LStripCuts(s);
    var n := RStripCuts(s[a..]);
    var b := a + n;
    assert s[a..][..n] == s[a..b] && s[a..][n..] == s[b..];
    assert Strip(s) == s[a..b];
    if Strip(s) == "" { assert s == s[..a] + s[b..]; }
  }

  // ------------------------------------------------------------ what replies say

  /** The key is there; an absent key and null are alike. */
  predicate Given(j: Json, k: string) { j.Obj? && k in j.fields && j.fields[k] != Null }

  /** A string that is not just whitespace. */
  predicate Named(j: Json, k: string) { j.Obj? && k in j.fields && j.fields[k].Str? && !AllSpace(j.fields[k].s) }

  predicate TextIn(j: Json, k: string) { j.Obj? && k in j.fields && j.fields[k].Str? }

  predicate SaysShipment(cd: Codec, j: Json) {
    && Named(j, "vendor_id") && Named(j, "tracking_number")
    && TextIn(j, "status") && j.fields["status"].s in ["TRANSIT", "DELIVERED", "EXCEPTION"]
    && "timestamp" in j.fields && cd.parseTime(j.fields["timestamp"]).Some?
  }

  ghost predicate IsShipment(cd: Codec, j: Json, d: ShipmentData)
    requires SaysShipment(cd, j)
  {
    && Trims(j.fields["vendor_id"].s, d.vendorId) && Trims(j.fields["tracking_number"].s, d.trackingNumber)
    && (d.status.Transit? <==> j.fields["status"].s == "TRANSIT")
    && (d.status.Delivered? <==> j.fields["status"].s == "DELIVERED")
    && (d.status.Exception? <==> j.fields["status"].s == "EXCEPTION")
    && cd.parseTime(j.fields["timestamp"]) == Some(d.timestamp)
  }

  predicate SaysInvoice(cd: Codec, j: Json) {
    && Named(j, "vendor_id") && TextIn(j, "invoice_id")
    && "amount" in j.fields && cd.parseDecimal(j.fields["amount"]).Some?
    && cd.parseDecimal(j.fields["amount"]).value >= 0.0
    && TextIn(j, "currency") && j.fields["currency"].s in cd.currencies
  }

  ghost predicate IsInvoice(cd: Codec, j: Json, d: InvoiceData)
    requires SaysInvoice(cd, j)
  {
    && Trims(j.fields["vendor_id"].s, d.vendorId) && d.invoiceId == j.fields["invoice_id"].s
    && cd.parseDecimal(j.fields["amount"]) == Some(d.amount) && d.currency == j.fields["currency"].s
  }

  /** An object of this event type, with the data of its type and no other. */
  predicate Says(cd: Codec, j: Json, t: EventType) {
    && TextIn(j, "event_type")
    && match t
       case Shipment =>
         && j.fields["event_type"].s == "shipment" && !Given(j, "invoice")
         && Given(j, "shipment") && SaysShipment(cd, j.fields["shipment"])
       case Invoice =>
         && j.fields["event_type"].s == "invoice" && !Given(j, "shipment")
         && Given(j, "invoice") && SaysInvoice(cd, j.fields["invoice"])
       case Unclassified =>
         j.fields["event_type"].s == "unclassified" && !Given(j, "shipment") && !Given(j, "invoice")
  }

  predicate SaysSomething(cd: Codec, j: Json) { Says(cd, j, Shipment) || Says(cd, j, Invoice) || Says(cd, j, Unclassified) }

  lemma ShipmentIsRead(cd: Codec, j: Json)
    ensures ValidateShipment(cd, j).Some? <==> SaysShipment(cd, j)
    ensures SaysShipment(cd, j) ==> IsShipment(cd, j, ValidateShipment(cd, j).value)
  {
    hide Strip, AllSpace, Trims;
    if TextIn(j, "vendor_id") { StripTrims(j.fields["vendor_id"].s); }
    if TextIn(j, "tracking_number") { StripTrims(j.fields["tracking_number"].s); }
  }

  lemma InvoiceIsRead(cd: Codec, j: Json)
    ensures ValidateInvoice(cd, j).Some? <==> SaysInvoice(cd, j)
    ensures SaysInvoice(cd, j) ==> IsInvoice(cd, j, ValidateInvoice(cd, j).value)
  {
    hide Strip, AllSpace, Trims;
    if TextIn(j, "vendor_id") { StripTrims(j.fields["vendor_id"].s); }
  }

  /** Which replies the classification contract accepts, whatever other keys they have, and
      what is read from them. */
  lemma ClassificationIsRead(cd: Codec, j: Json)
    ensures var r := ValidateClassification(cd, j);
      && (r.Some? <==> SaysSomething(cd, j))
      && (forall t :: r.Some? && r.value.eventType == t <==> Says(cd, j, t))
      && (Says(cd, j, Shipment) ==>
            r.value.shipment.Some? && r.value.invoice.None? && IsShipment(cd, j.fields["shipment"], r.value.shipment.value))
      && (Says(cd, j, Invoice) ==>
            r.value.invoice.Some? && r.value.shipment.None? && IsInvoice(cd, j.fields["invoice"], r.value.invoice.value))
      && (Says(cd, j, Unclassified) ==> r.value.shipment.None? && r.value.invoice.None?)
  {
    hide ValidateShipment, ValidateInvoice, SaysShipment, SaysInvoice, IsShipment, IsInvoice;
    if Given(j, "shipment") { ShipmentIsRead(cd, j.fields["shipment"]); }
    if Given(j, "invoice") { InvoiceIsRead(cd, j.fields["invoice"]); }
  }

  // -------------------------------------------------------- what the verifier says

  /** The field is left out, or a list of strings. */
  predicate ListIn(j: Json, k: string)
    requires j.Obj?
  {
    k in j.fields ==> j.fields[k].Arr? && forall x | x in j.fields[k].items :: x.Str?
  }

  /** These are the strings of the field; none if it is left out. */
  predicate IsList(j: Json, k: string, list: seq<string>)
    requires j.Obj?
  {
    if k !in j.fields then list == []
    else
      && j.fields[k].Arr? && |j.fields[k].items| == |list|
      && forall i | 0 <= i < |list| :: j.fields[k].items[i] == Str(list[i])
  }

  /** A well-formed verdict that does not contradict itself. */
  predicate SaysVerdict(cd: Codec, j: Json) {
    && j.Obj? && "grounded" in j.fields && cd.parseBool(j.fields["grounded"]).Some?
    && ListIn(j, "unsupported_fields") && ListIn(j, "missing_fields")
    && ("notes" in j.fields ==> j.fields["notes"].Str?)
    && (cd.parseBool(j.fields["grounded"]).value ==> IsList(j, "unsupported_fields", []))
  }

  predicate SaysGrounded(cd: Codec, j: Json) { SaysVerdict(cd, j) && cd.parseBool(j.fields["grounded"]).value }

  predicate IsVerdict(cd: Codec, j: Json, v: Verification)
    requires SaysVerdict(cd, j)
  {
    && cd.parseBool(j.fields["grounded"]) == Some(v.grounded)
    && IsList(j, "unsupported_fields", v.unsupported) && IsList(j, "missing_fields", v.missing)
    && v.notes == if "notes" in j.fields then j.fields["notes"].s else ""
  }

  lemma ListIsRead(j: Json, k: string)
    requires j.Obj?
    ensures StringList(Get(j, k)).Some? <==> ListIn(j, k)
    ensures ListIn(j, k) ==> IsList(j, k, StringList(Get(j, k)).value)
    ensures forall list :: IsList(j, k, list) ==> StringList(Get(j, k)) == Some(list)
  {
    if ListIn(j, k) && k in j.fields {
      var items := j.fields[k].items;
      forall i | 0 <= i < |items| ensures items[i] == Str(ParseStrings(items).value[i]) { assert items[i] in items; }
    }
    forall list | IsList(j, k, list) ensures StringList(Get(j, k)) == Some(list) {
      if k in j.fields { assert ParseStrings(j.fields[k].items).value == list; }
    }
  }

  /** Which verdicts are accepted, whatever is left out or added, and what is read from them. */
  lemma VerdictIsRead(cd: Codec, j: Json)
    ensures var v := ValidateVerification(cd, j);
      (v.Some? <==> SaysVerdict(cd, j)) && (SaysVerdict(cd, j) ==> IsVerdict(cd, j, v.value))
  {
    hide StringList, ListIn, IsList;
    if j.Obj? {
      ListIsRead(j, "unsupported_fields");
      ListIsRead(j, "missing_fields");
    }
  }

  // ------------------------------------------------------------- the whole pipeline

  /** The one value a reply is about: the reply itself, the first of an array, the first of a
      list of results; and an empty array is about nothing. */
  ghost predicate Carries(reply: Json, j: Json) {
    || (exists more :: reply == Arr([j] + more))
    || (exists more :: Get(reply, "results") == Some(Arr([j] + more)))
    || (j == reply && !reply.Arr? && forall items :: Get(reply, "results") == Some(Arr(items)) ==> items == [])
    || (j == Obj(map["event_type" := Str("unclassified")]) && reply == Arr([]))
  }

  lemma CarriedIsUnwrapped(reply: Json, j: Json)
    ensures Carries(reply, j) <==> j == UnwrapResponse(reply)
  {
    if j == UnwrapResponse(reply) {
      if reply.Arr? && reply.items != [] { assert reply.items == [j] + reply.items[1..]; }
      if Get(reply, "results").Some? && Get(reply, "results").value.Arr? {
        var items := Get(reply, "results").value.items;
        if items != [] { assert items == [j] + items[1..]; }
      }
    }
  }

  predicate Typed(cd: Codec, j: Json) { Says(cd, j, Shipment) || Says(cd, j, Invoice) }

  /** The columns of the record are those of the shipment or invoice the reply tells of. */
  ghost predicate Records(cd: Codec, j: Json, t: EventType, record: WireRecord)
    requires Says(cd, j, t)
  {
    match t
    case Shipment =>
      var said := j.fields["shipment"];
      exists d: ShipmentData :: IsShipment(cd, said, d)
        && record == WireShipment(Str(d.vendorId), Str(d.trackingNumber), said.fields["status"], cd.dumpTime(d.timestamp))
    case Invoice =>
      var said := j.fields["invoice"];
      exists d: InvoiceData :: IsInvoice(cd, said, d)
        && record == WireInvoice(Str(d.vendorId), said.fields["invoice_id"], cd.dumpDecimal(d.amount),
                                 said.fields["currency"])
    case Unclassified => false
  }

  lemma ExtractionRecords(cd: Codec, j: Json, t: EventType)
    requires Says(cd, j, t) && t != Unclassified
    ensures var r := ValidateClassification(cd, j);
      && r.Some? && r.value.eventType == t && MatchesType(r.value)
      && MapRecord(cd, BuildRecord(r.value)).Some? && Records(cd, j, t, MapRecord(cd, BuildRecord(r.value)).value)
  {
    hide ValidateClassification, Trims, AllSpace, Given;
    ClassificationIsRead(cd, j);
    GivenIsThere(j);
  }

  lemma GivenIsThere(j: Json)
    ensures Given(j, "shipment") ==> j.Obj? && "shipment" in j.fields
    ensures Given(j, "invoice") ==> j.Obj? && "invoice" in j.fields
  {
  }

  /** For all replies, from their JSON: when the row goes to review, when there is a record, and
      what is in it. */
  lemma RepliesDecide(cd: Codec, r1: Json, r2: Json, p: Json, q: Json)
    requires Exact(cd) && Carries(r1, p) && Carries(r2, q)
    ensures var out := RunPipeline(cd, r1, r2);
      && out.Some?
      && (out.value.review <==> !SaysSomething(cd, p) || (Typed(cd, p) && !SaysGrounded(cd, q)))
      && (out.value.record.Some? <==> Typed(cd, p) && SaysGrounded(cd, q))
      && forall t | Says(cd, p, t) ::
           out.value.eventType == TypeName(t) && (out.value.record.Some? ==> Records(cd, p, t, out.value.record.value))
  {
    hide RunPipeline, ValidateClassification, ValidateVerification, Says, SaysVerdict, IsVerdict, UnwrapResponse,
         DumpNormalized, Records, IsShipment, IsInvoice, MapRecord, Carries, BuildRecord, DumpDecision;
    CarriedIsUnwrapped(r1, p);
    CarriedIsUnwrapped(r2, q);
    EndToEndRouting(cd, r1, r2);
    StoredEventType(cd, r1, r2);
    ClassificationIsRead(cd, p);
    VerdictIsRead(cd, q);
    VerdictIsGrounded(cd, q);
    forall t | Says(cd, p, t) && t != Unclassified { ExtractionRecords(cd, p, t); }
  }

  lemma VerdictIsGrounded(cd: Codec, j: Json)
    ensures SaysGrounded(cd, j) <==> ValidateVerification(cd, j).Some? && ValidateVerification(cd, j).value.grounded
  {
    hide ValidateVerification, IsList, ListIn;
    VerdictIsRead(cd, j);
  }

  // --------------------------------------------------------------- what is stored

  /** The first n characters, or all of a shorter text. */
  predicate Starts(text: string, n: nat, clip: string) {
    clip <= text && |clip| == if |text| <= n then |text| else n
  }

  /** The verdict stored with an extraction: the verifier's, or one that says that its reply was
      malformed. */
  ghost predicate Judges(cd: Codec, q: Json, v: Verification) {
    if SaysVerdict(cd, q) then IsVerdict(cd, q, v)
    else
      && !v.grounded && v.unsupported == [] && v.missing == []
      && exists clip :: Starts(cd.errorText(q), 300, clip)
                        && v.notes == "verifier output failed schema validation: " + clip
  }

  lemma VerifyJudges(cd: Codec, reply: Json, q: Json)
    requires Carries(reply, q)
    ensures Judges(cd, q, Verify(cd, reply)) && (Verify(cd, reply).grounded <==> SaysGrounded(cd, q))
  {
    hide ValidateVerification, SaysVerdict, IsVerdict, UnwrapResponse, Carries;
    CarriedIsUnwrapped(reply, q);
    VerdictIsRead(cd, q);
    VerdictIsGrounded(cd, q);
    assert Starts(cd.errorText(q), 300, Clip(cd.errorText(q), 300));
  }

  /** `normalized_data` of an accepted reply: the extraction, the verdict if there had to be one,
      and the reason if the row is in review. */
  ghost predicate KeepsExtraction(cd: Codec, p: Json, q: Json, stored: Json) {
    && ValidateClassification(cd, stored) == ValidateClassification(cd, p)
    && stored.Obj?
    && stored.fields.Keys == {"event_type", "shipment", "invoice"}
         + (if Typed(cd, p) then {"verification"} else {})
         + (if Typed(cd, p) && !SaysGrounded(cd, q) then {"review_reason"} else {})
    && ("verification" in stored.fields ==> exists v ::
          Judges(cd, q, v) && ValidateVerification(cd, stored.fields["verification"]) == Some(v))
    && ("review_reason" in stored.fields ==> stored.fields["review_reason"] == Str("ungrounded"))
  }

  /** `normalized_data` of a rejected reply: the reply itself, or its beginning if it is long. */
  ghost predicate KeepsRejected(cd: Codec, p: Json, stored: Json) {
    && stored.Obj? && stored.fields.Keys == {"schema_rejected", "raw_llm_output", "validation_message"}
    && stored.fields["schema_rejected"] == Bool(true)
    && stored.fields["validation_message"].Str?
    && Starts(cd.errorText(p), 8192, stored.fields["validation_message"].s)
    && KeepsRaw(cd, if p.Obj? || p.Arr? then p else Obj(map["raw" := Str(cd.text(p))]), stored.fields["raw_llm_output"])
  }

  ghost predicate KeepsRaw(cd: Codec, raw: Json, kept: Json) {
    if |cd.render(raw)| <= 8192 then kept == Obj(map["truncated" := Bool(false), "content" := raw])
    else exists clip :: Starts(cd.render(raw), 8192, clip)
           && kept == Obj(map["truncated" := Bool(true), "content" := Str(clip + "...[truncated]")])
  }

  lemma ExtractedFields(cd: Codec, r: Classification, v: Option<Verification>, reason: Option<Reason>)
    ensures var d := ExtractedData(cd, r, v, reason);
      && d.Obj?
      && d.fields.Keys == {"event_type", "shipment", "invoice"} + (if v.Some? then {"verification"} else {})
                          + (if reason.Some? then {"review_reason"} else {})
      && (v.Some? ==> d.fields["verification"] == DumpVerification(v.value))
      && (reason.Some? ==> d.fields["review_reason"] == Str(ReasonName(reason.value)))
      && ValidateClassification(cd, d) == ValidateClassification(cd, DumpClassification(cd, r))
  {
    hide ValidateClassification, DumpVerification, DumpShipment, DumpInvoice, TypeName;
    ExtraKeysAreIgnored(cd, DumpFields(cd, r), ExtractedData(cd, r, v, reason).fields);
  }

  lemma ExtractionIsKept(cd: Codec, r1: Json, r2: Json, p: Json, q: Json)
    requires Exact(cd) && Carries(r1, p) && Carries(r2, q) && SaysSomething(cd, p)
    ensures KeepsExtraction(cd, p, q, DumpNormalized(cd, Decide(EvidenceFor(cd, r1, r2)).normalized))
  {
    hide ValidateClassification, ValidateVerification, Says, Verify, UnwrapResponse, Judges, Carries, ExtractedData,
         DumpVerification, DumpClassification, SaysGrounded, Exact, Returnable;
    CarriedIsUnwrapped(r1, p);
    ClassificationIsRead(cd, p);
    VerifyJudges(cd, r2, q);
    RepliesGiveValidEvidence(cd, r1, r2);
    var r := ValidateClassification(cd, p).value;
    var n := Decide(EvidenceFor(cd, r1, r2)).normalized;
    ExtractedFields(cd, r, n.verification, n.reason);
    ValidateClassificationSound(cd, p);
    ClassificationRoundTrip(cd, r);
    VerificationRoundTrip(cd, Verify(cd, r2));
  }

  /** Only the three keys of the contract are read. */
  lemma ExtraKeysAreIgnored(cd: Codec, fields: map<string, Json>, more: map<string, Json>)
    requires forall k | k in ["event_type", "shipment", "invoice"] :: k in fields && k in more && more[k] == fields[k]
    ensures ValidateClassification(cd, Obj(more)) == ValidateClassification(cd, Obj(fields))
  {
    hide ValidateShipment, ValidateInvoice;
    assert "event_type" in ["event_type", "shipment", "invoice"];
    assert "shipment" in ["event_type", "shipment", "invoice"];
    assert "invoice" in ["event_type", "shipment", "invoice"];
  }

  lemma RawIsKept(cd: Codec, raw: Json)
    ensures KeepsRaw(cd, raw, BoundedRawOutput(cd, raw))
  {
    if |cd.render(raw)| > 8192 { assert Starts(cd.render(raw), 8192, cd.render(raw)[..8192]); }
  }

  lemma RejectedDataKeeps(cd: Codec, p: Json)
    ensures var raw := if p.Obj? || p.Arr? then p else Obj(map["raw" := Str(cd.text(p))]);
      KeepsRejected(cd, p, RejectedData(cd, raw, cd.errorText(p)))
  {
    hide KeepsRaw, BoundedRawOutput;
    RawIsKept(cd, if p.Obj? || p.Arr? then p else Obj(map["raw" := Str(cd.text(p))]));
  }

  lemma RejectedIsKept(cd: Codec, r1: Json, r2: Json, p: Json)
    requires Carries(r1, p) && !SaysSomething(cd, p)
    ensures KeepsRejected(cd, p, DumpNormalized(cd, Decide(EvidenceFor(cd, r1, r2)).normalized))
  {
    hide ValidateClassification, SaysSomething, UnwrapResponse, Carries, KeepsRejected, RejectedData, Verify;
    CarriedIsUnwrapped(r1, p);
    ClassificationIsRead(cd, p);
    RejectedDataKeeps(cd, p);
  }

  /** For all replies, what `normalized_data` holds: nothing that was said is lost. */
  lemma RepliesAreKept(cd: Codec, r1: Json, r2: Json, p: Json, q: Json)
    requires Exact(cd) && Carries(r1, p) && Carries(r2, q)
    ensures var out := RunPipeline(cd, r1, r2);
      && out.Some?
      && (SaysSomething(cd, p) ==> KeepsExtraction(cd, p, q, out.value.normalized))
      && (!SaysSomething(cd, p) ==> KeepsRejected(cd, p, out.value.normalized))
  {
    hide RunPipeline, Says, KeepsExtraction, KeepsRejected, Carries, DumpNormalized, EvidenceFor;
    EndToEndRouting(cd, r1, r2);
    if SaysSomething(cd, p) { ExtractionIsKept(cd, r1, r2, p, q); } else { RejectedIsKept(cd, r1, r2, p); }
  }

  // ------------------------------------------------------------ direct deliveries

  /** `persist_classification` on anything it may be handed: it raises exactly for an extraction
      or a verdict that is malformed, unless the output had been rejected. */
  lemma MalformedDeliveriesRaise(cd: Codec, c: Json, v: Option<Json>)
    ensures var inner := if Get(c, "result").Some? then Get(c, "result").value else c;
      PersistClassification(cd, c, v).None? <==>
        && Get(c, "kind") != Some(Str("schema_rejected"))
        && (!SaysSomething(cd, inner) || (v.Some? && !SaysVerdict(cd, v.value)))
  {
    hide ValidateClassification, ValidateVerification, Says, SaysVerdict, PersistRejected, PersistExtracted;
    ClassificationIsRead(cd, if Get(c, "result").Some? then Get(c, "result").value else c);
    if v.Some? { VerdictIsRead(cd, v.value); }
  }

  /** An extraction that arrives without a verdict goes to review and leaves no record. */
  lemma MissingVerdictIsReviewed(cd: Codec, c: Json)
    requires Typed(cd, c) && Get(c, "kind") == None && Get(c, "result") == None
    ensures var out := PersistClassification(cd, c, None);
      && out.Some? && out.value.review && out.value.record.None?
      && Get(out.value.normalized, "review_reason") == Some(Str("verifier_skipped"))
      && Get(out.value.normalized, "verification") == None
      && ValidateClassification(cd, out.value.normalized) ==
         ValidateClassification(cd, DumpClassification(cd, ValidateClassification(cd, c).value))
  {
    hide ValidateClassification, Says, ExtractedData, BuildWireRecord, DumpClassification, PersistRejected;
    ClassificationIsRead(cd, c);
    ExtractedFields(cd, ValidateClassification(cd, c).value, None, Some(VerifierSkipped));
  }
}
