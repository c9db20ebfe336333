/** The extraction contract of `webhooks/domain.py`: what the model may emit,
    how it is validated, and how an accepted value is dumped again. */
module Domain {
  import opened JsonValues

  datatype EventType = Shipment | Invoice | Unclassified

  datatype ShipmentStatus = Transit | Delivered | Exception

  /** A timestamp is an exact instant; its text forms belong to the codec. */
  type Instant = int

  datatype ShipmentData =
    ShipmentData(vendorId: string, trackingNumber: string, status: ShipmentStatus, timestamp: Instant)

  datatype InvoiceData =
    InvoiceData(vendorId: string, invoiceId: string, amount: real, currency: string)

  datatype Classification =
    Classification(eventType: EventType, shipment: Option<ShipmentData>, invoice: Option<InvoiceData>)

  datatype Verification =
    Verification(grounded: bool, unsupported: seq<string>, missing: seq<string>, notes: string)

  /** Library code the model takes as given: scalar parsing and dumping, the
      ISO 4217 list, `str`, `json.dumps`, and the text of a validation error. */
  datatype Codec = Codec(
    parseTime: Json -> Option<Instant>,
    dumpTime: Instant -> Json,
    parseDecimal: Json -> Option<real>,
    dumpDecimal: real -> Json,
    parseBool: Json -> Option<bool>,
    currencies: set<string>,
    text: Json -> string,
    render: Json -> string,
    errorText: Json -> string)

  /** Scalars survive a dump followed by a load. */
  ghost predicate Exact(cd: Codec) {
    && (forall t :: cd.parseTime(cd.dumpTime(t)) == Some(t))
    && (forall d :: cd.parseDecimal(cd.dumpDecimal(d)) == Some(d))
    && (forall b :: cd.parseBool(Bool(b)) == Some(b))
  }

  // ---------------------------------------------------------------- str.strip

  /** The characters `str.strip()` removes. */
  predicate IsSpace(c: char) {
    || '\t' <= c <= '\r'
    || '\U{1c}' <= c <= ' '
    || c == '\U{85}' || c == '\U{a0}' || c == '\U{1680}'
    || '\U{2000}' <= c <= '\U{200a}'
    || c == '\U{2028}' || c == '\U{2029}' || c == '\U{202f}'
    || c == '\U{205f}' || c == '\U{3000}'
  }

  function LStrip(s: string): string {
    if s != "" && IsSpace(s[0]) then LStrip(s[1..]) else s
  }

  function RStrip(s: string): string {
    if s != "" && IsSpace(s[|s| - 1]) then RStrip(s[..|s| - 1]) else s
  }

  function Strip(s: string): string { RStrip(LStrip(s)) }

  predicate Stripped(s: string) {
    s != "" ==> !IsSpace(s[0]) && !IsSpace(s[|s| - 1])
  }

  lemma {:induction false} LStripStarts(s: string)
    ensures var t := LStrip(s); t != "" ==> !IsSpace(t[0])
  {
    if s != "" && IsSpace(s[0]) { LStripStarts(s[1..]); }
  }

  lemma {:induction false} RStripEnds(s: string)
    ensures var t := RStrip(s); t <= s && (t != "" ==> !IsSpace(t[|t| - 1]))
  {
    if s != "" && IsSpace(s[|s| - 1]) { RStripEnds(s[..|s| - 1]); }
  }

  /** Stripping leaves no outer whitespace, and changes nothing that has none. */
  lemma StripNormalises(s: string)
    ensures Stripped(Strip(s))
    ensures Stripped(s) ==> Strip(s) == s
  {
    LStripStarts(s);
    RStripEnds(LStrip(s));
  }

  // --------------------------------------------------------------- validation

  /** What an accepted classification satisfies, for a list of currencies. */
  predicate ValidShipment(d: ShipmentData) {
    && d.vendorId != "" && Stripped(d.vendorId)
    && d.trackingNumber != "" && Stripped(d.trackingNumber)
  }

  predicate ValidInvoice(currencies: set<string>, d: InvoiceData) {
    && d.vendorId != "" && Stripped(d.vendorId)
    && d.amount >= 0.0
    && d.currency in currencies
  }

  predicate MatchesType(r: Classification) {
    match r.eventType
    case Shipment => r.shipment.Some? && r.invoice.None?
    case Invoice => r.invoice.Some? && r.shipment.None?
    case Unclassified => r.shipment.None? && r.invoice.None?
  }

  predicate ValidClassification(currencies: set<string>, r: Classification) {
    && MatchesType(r)
    && (r.shipment.Some? ==> ValidShipment(r.shipment.value))
    && (r.invoice.Some? ==> ValidInvoice(currencies, r.invoice.value))
  }

  predicate ValidVerification(v: Verification) {
    v.grounded ==> v.unsupported == []
  }

  function TypeName(t: EventType): string {
    match t case Shipment => "shipment" case Invoice => "invoice" case Unclassified => "unclassified"
  }

  function ParseType(j: Json): Option<EventType> {
    if j == Str("shipment") then Some(Shipment)
    else if j == Str("invoice") then Some(Invoice)
    else if j == Str("unclassified") then Some(Unclassified)
    else None
  }

  function StatusName(t: ShipmentStatus): string {
    match t case Transit => "TRANSIT" case Delivered => "DELIVERED" case Exception => "EXCEPTION"
  }

  function ParseStatus(j: Json): Option<ShipmentStatus> {
    if j == Str("TRANSIT") then Some(Transit)
    else if j == Str("DELIVERED") then Some(Delivered)
    else if j == Str("EXCEPTION") then Some(Exception)
    else None
  }

  /** A required string field that is stripped and must then be non-empty. */
  function ParseName(j: Option<Json>): Option<string> {
    if j.Some? && j.value.Str? && Strip(j.value.s) != "" then Some(Strip(j.value.s)) else None
  }

  function ValidateShipment(cd: Codec, j: Json): Option<ShipmentData> {
    var vendor := ParseName(Get(j, "vendor_id"));
    var tracking := ParseName(Get(j, "tracking_number"));
    var status := match Get(j, "status") case Some(x) => ParseStatus(x) case None => None;
    var time := match Get(j, "timestamp") case Some(x) => cd.parseTime(x) case None => None;
    if vendor.Some? && tracking.Some? && status.Some? && time.Some? then
      Some(ShipmentData(vendor.value, tracking.value, status.value, time.value))
    else None
  }

  function ValidateInvoice(cd: Codec, j: Json): Option<InvoiceData> {
    var vendor := ParseName(Get(j, "vendor_id"));
    var number := Get(j, "invoice_id");
    var amount := match Get(j, "amount") case Some(x) => cd.parseDecimal(x) case None => None;
    var currency := Get(j, "currency");
    if vendor.Some? && number.Some? && number.value.Str? && amount.Some? && amount.value >= 0.0
       && currency.Some? && currency.value.Str? && currency.value.s in cd.currencies then
      Some(InvoiceData(vendor.value, number.value.s, amount.value, currency.value.s))
    else None
  }

  /** `ClassificationResult.model_validate`; None is a ValidationError. */
  function ValidateClassification(cd: Codec, j: Json): Option<Classification> {
    var kind := match Get(j, "event_type") case Some(x) => ParseType(x) case None => None;
    var s := Get(j, "shipment");
    var i := Get(j, "invoice");
    var sGiven := s.Some? && s.value != Null;
    var iGiven := i.Some? && i.value != Null;
    var shipment := if sGiven then ValidateShipment(cd, s.value) else None;
    var invoice := if iGiven then ValidateInvoice(cd, i.value) else None;
    if kind.None? || (sGiven && shipment.None?) || (iGiven && invoice.None?) then None
    else
      var r := Classification(kind.value, shipment, invoice);
      if MatchesType(r) then Some(r) else None
  }

  function ParseStrings(items: seq<Json>): Option<seq<string>> {
    if forall x | x in items :: x.Str? then
      Some(seq(|items|, n requires 0 <= n < |items| => match items[n] case Str(s) => s case _ => ""))
    else None
  }

  /** A `list[str]` field with an empty default. */
  function StringList(j: Option<Json>): Option<seq<string>> {
    match j
    case None => Some([])
    case Some(Arr(items)) => ParseStrings(items)
    case Some(_) => None
  }

  /** `VerificationResult.model_validate`; None is a ValidationError. */
  function ValidateVerification(cd: Codec, j: Json): Option<Verification> {
    var grounded := match Get(j, "grounded") case Some(x) => cd.parseBool(x) case None => None;
    var unsupported := StringList(Get(j, "unsupported_fields"));
    var missing := StringList(Get(j, "missing_fields"));
    var notes := match Get(j, "notes")
      case None => Some("") case Some(Str(s)) => Some(s) case Some(_) => None;
    if grounded.None? || unsupported.None? || missing.None? || notes.None? then None
    else
      var v := Verification(grounded.value, unsupported.value, missing.value, notes.value);
      if ValidVerification(v) then Some(v) else None
  }

  // -------------------------------------------------- model_dump(mode="json")

  function DumpShipment(cd: Codec, d: ShipmentData): Json {
    Obj(map["vendor_id" := Str(d.vendorId), "tracking_number" := Str(d.trackingNumber),
            "status" := Str(StatusName(d.status)), "timestamp" := cd.dumpTime(d.timestamp)])
  }

  function DumpInvoice(cd: Codec, d: InvoiceData): Json {
    Obj(map["vendor_id" := Str(d.vendorId), "invoice_id" := Str(d.invoiceId),
            "amount" := cd.dumpDecimal(d.amount), "currency" := Str(d.currency)])
  }

  function DumpFields(cd: Codec, r: Classification): map<string, Json> {
    map["event_type" := Str(TypeName(r.eventType)),
        "shipment" := (if r.shipment.Some? then DumpShipment(cd, r.shipment.value) else Null),
        "invoice" := (if r.invoice.Some? then DumpInvoice(cd, r.invoice.value) else Null)]
  }

  function DumpClassification(cd: Codec, r: Classification): Json { Obj(DumpFields(cd, r)) }

  function DumpStrings(items: seq<string>): Json {
    Arr(seq(|items|, n requires 0 <= n < |items| => Str(items[n])))
  }

  function DumpVerification(v: Verification): Json {
    Obj(map["grounded" := Bool(v.grounded), "unsupported_fields" := DumpStrings(v.unsupported),
            "missing_fields" := DumpStrings(v.missing), "notes" := Str(v.notes)])
  }

  // ------------------------------------------------------------------ results

  /** Nothing ill-formed gets past the validators. */
  lemma ValidateClassificationSound(cd: Codec, j: Json)
    ensures var r := ValidateClassification(cd, j); r.Some? ==> ValidClassification(cd.currencies, r.value)
  {
    forall s: string ensures Stripped(Strip(s)) { StripNormalises(s); }
  }

  lemma ShipmentRoundTrip(cd: Codec, d: ShipmentData)
    requires Exact(cd) && ValidShipment(d)
    ensures ValidateShipment(cd, DumpShipment(cd, d)) == Some(d)
  {
    StripNormalises(d.vendorId);
    StripNormalises(d.trackingNumber);
  }

  lemma InvoiceRoundTrip(cd: Codec, d: InvoiceData)
    requires Exact(cd) && ValidInvoice(cd.currencies, d)
    ensures ValidateInvoice(cd, DumpInvoice(cd, d)) == Some(d)
  {
    StripNormalises(d.vendorId);
  }

  /** Validating the dump of an accepted classification gives it back; with
      soundness, the accepted values are exactly the valid ones. */
  lemma ClassificationRoundTrip(cd: Codec, r: Classification)
    requires Exact(cd)
    ensures ValidClassification(cd.currencies, r) <==> ValidateClassification(cd, DumpClassification(cd, r)) == Some(r)
  {
    hide ValidateShipment, ValidateInvoice, Strip, IsSpace;
    if ValidClassification(cd.currencies, r) {
      if r.shipment.Some? { ShipmentRoundTrip(cd, r.shipment.value); }
      if r.invoice.Some? { InvoiceRoundTrip(cd, r.invoice.value); }
    }
    ValidateClassificationSound(cd, DumpClassification(cd, r));
  }

  lemma StringsRoundTrip(items: seq<string>)
    ensures StringList(Some(DumpStrings(items))) == Some(items)
  {
    var dumped := DumpStrings(items);
    assert forall x | x in dumped.items :: x.Str?;
    assert ParseStrings(dumped.items).value == items;
  }

  lemma VerificationRoundTrip(cd: Codec, v: Verification)
    requires Exact(cd)
    ensures ValidVerification(v) <==> ValidateVerification(cd, DumpVerification(v)) == Some(v)
  {
    StringsRoundTrip(v.unsupported);
    StringsRoundTrip(v.missing);
  }
}
