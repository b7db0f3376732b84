/**
 * The decision logic inside the handlers of rfp-backend/src/routes/rfpRoutes.ts:
 * request guards, the coercion of a generated RFP before it is stored, the
 * invitation email's summary and body, and the per-vendor send loop with its tally.
 * Database lookups, the language model and the mailer are inputs.
 */
module RfpRoutes {
  import opened Common
  import opened Js
  import opened Helper
  import CP = CompareProposals

  /** An early exit of a handler: the HTTP status and the error message of its JSON body. */
  datatype Reject = Reject(status: int, error: string)

  const BadRequest: int := 400
  const NotFound: int := 404
  const ServerError: int := 500

  // ---------------------------------------------------------------------------
  // POST /rfps

  /** `!natural_text || typeof natural_text !== "string"` rejects; `None` is a missing field. */
  function CheckNaturalText(naturalText: Option<Json>): (r: Result<string, Reject>)
    ensures r.Success? <==> naturalText.Some? && naturalText.value.JStr? && naturalText.value.s != ""
    ensures r.Success? ==> r.value == naturalText.value.s
    ensures r.Failure? ==> r.error == Reject(BadRequest, "natural_text is required")
  {
    match naturalText
    case Some(JStr(s)) =>
      if s == "" then Failure(Reject(BadRequest, "natural_text is required")) else Success(s)
    case _ => Failure(Reject(BadRequest, "natural_text is required"))
  }

  /** The row stored for a new RFP; `None` in an `Option` field is a stored null. */
  datatype RfpRecord = RfpRecord(
    title: Json,
    rawInput: string,
    budget: Option<real>,
    deliveryWithinDays: Option<real>,
    paymentTerms: Json,
    warranty: Option<string>,
    structuredJson: Json)

  /** `typeof v === "number" ? v : null` for a field of the generated RFP. */
  function NumberOrNull(v: Option<Json>): (n: Option<real>)
  {
    match v
    case Some(JNum(n)) => Some(n)
    case _ => None
  }

  /** `typeof v === "string" ? v : null`. */
  function StringOrNull(v: Option<Json>): (t: Option<string>)
  {
    match v
    case Some(JStr(s)) => Some(s)
    case _ => None
  }

  /**
   * The fields stored for the RFP the model generated. Reading a property of a null
   * result throws, which the handler answers with a 500.
   */
  function CoerceRfp(structured: Json, naturalText: string): (r: Result<RfpRecord, Reject>)
    ensures r.Failure? <==> structured == JNull
    ensures r.Failure? ==> r.error == Reject(ServerError, "Failed to generate RFP using AI")
    ensures r.Success? ==>
      var rec := r.value;
      && rec.rawInput == naturalText && rec.structuredJson == structured
      // budget and delivery are kept only when they are numbers
      && (rec.budget.Some? <==> Get(structured, "budget").Some? && Get(structured, "budget").value.JNum?)
      && (rec.budget.Some? ==> Get(structured, "budget") == Some(JNum(rec.budget.value)))
      && (rec.deliveryWithinDays.Some? <==>
            Get(structured, "delivery_within_days").Some? && Get(structured, "delivery_within_days").value.JNum?)
      && (rec.deliveryWithinDays.Some? ==>
            Get(structured, "delivery_within_days") == Some(JNum(rec.deliveryWithinDays.value)))
      // warranty is kept only when it is a string
      && (rec.warranty.Some? <==> Get(structured, "warranty").Some? && Get(structured, "warranty").value.JStr?)
      && (rec.warranty.Some? ==> Get(structured, "warranty") == Some(JStr(rec.warranty.value)))
      // payment terms are kept as they are, a missing one as null
      && rec.paymentTerms == (if Get(structured, "payment_terms").Some? then Get(structured, "payment_terms").value else JNull)
      // a stored title is never falsy: a falsy or missing one becomes "Untitled RFP"
      && Truthy(rec.title)
      && (rec.title == JStr("Untitled RFP") || Some(rec.title) == Get(structured, "title"))
      && (Get(structured, "title").Some? && Truthy(Get(structured, "title").value) ==> Some(rec.title) == Get(structured, "title"))
  {
    if structured == JNull then Failure(Reject(ServerError, "Failed to generate RFP using AI"))
    else
      var title := Get(structured, "title");
      Success(RfpRecord(
        title := if title.Some? && Truthy(title.value) then title.value else JStr("Untitled RFP"),
        rawInput := naturalText,
        budget := NumberOrNull(Get(structured, "budget")),
        deliveryWithinDays := NumberOrNull(Get(structured, "delivery_within_days")),
        paymentTerms := if Get(structured, "payment_terms").Some? then Get(structured, "payment_terms").value else JNull,
        warranty := StringOrNull(Get(structured, "warranty")),
        structuredJson := structured))
  }

  /**
   * The whole POST /rfps decision: the guard, then the model's structured RFP
   * (`None` when generating it threw), then the coercion, then the row creation
   * (`stored` tells whether `prisma.rfp.create` resolved; a rejection is caught
   * like every other failure of the handler).
   */
  function CreateRfp(naturalText: Option<Json>, generated: Option<Json>, stored: bool): (r: Result<RfpRecord, Reject>)
    ensures CheckNaturalText(naturalText).Failure? ==> r == Failure(Reject(BadRequest, "natural_text is required"))
    ensures CheckNaturalText(naturalText).Success? && generated.None? ==>
      r == Failure(Reject(ServerError, "Failed to generate RFP using AI"))
    ensures CheckNaturalText(naturalText).Success? && generated.Some? && stored ==>
      r == CoerceRfp(generated.value, naturalText.value.s)
    ensures CheckNaturalText(naturalText).Success? && generated.Some? && !stored ==>
      r == Failure(Reject(ServerError, "Failed to generate RFP using AI"))
    ensures r.Success? ==> generated.Some? && stored && r == CoerceRfp(generated.value, naturalText.value.s)
  {
    match CheckNaturalText(naturalText)
    case Failure(e) => Failure(e)
    case Success(text) =>
      match generated
      case None => Failure(Reject(ServerError, "Failed to generate RFP using AI"))
      case Some(structured) =>
        match CoerceRfp(structured, text)
        case Failure(e) => Failure(e)
        case Success(record) =>
          if stored then Success(record) else Failure(Reject(ServerError, "Failed to generate RFP using AI"))
  }

  // ---------------------------------------------------------------------------
  // POST /rfps/:id/proposals

  /** A proposal request that passed the guards: `Number(req.params.id)`, `Number(vendorId)` and the text. */
  datatype ProposalRequest = ProposalRequest(rfpId: real, vendorId: real, rawText: string)

  /** `!vendorId || Number.isNaN(Number(vendorId))` rejects. */
  predicate ValidVendorId(rt: Runtime, vendorId: Option<Json>)
  {
    vendorId.Some? && Truthy(vendorId.value) && ToNumber(rt, vendorId.value).Finite?
  }

  /**
   * The guards of proposal creation, in source order: the RFP id, the vendor id, the
   * text. A truthy `rawText` that is not a string has no `trim` method: the TypeError
   * becomes a 500.
   */
  function CheckProposalRequest(rt: Runtime, paramsId: string, vendorId: Option<Json>, rawText: Option<Json>)
    : (r: Result<ProposalRequest, Reject>)
    ensures rt.stringToNumber(paramsId).NaN? ==> r == Failure(Reject(BadRequest, "Invalid RFP id"))
    ensures rt.stringToNumber(paramsId).Finite? && !ValidVendorId(rt, vendorId) ==>
      r == Failure(Reject(BadRequest, "vendorId is required and must be a number"))
    ensures rt.stringToNumber(paramsId).Finite? && ValidVendorId(rt, vendorId)
            && (rawText.None? || !Truthy(rawText.value) || (rawText.value.JStr? && Trim(rawText.value.s) == "")) ==>
      r == Failure(Reject(BadRequest, "rawText is required"))
    ensures rt.stringToNumber(paramsId).Finite? && ValidVendorId(rt, vendorId)
            && rawText.Some? && Truthy(rawText.value) && !rawText.value.JStr? ==>
      r == Failure(Reject(ServerError, "Failed to create proposal"))
    ensures r.Success? <==>
      && rt.stringToNumber(paramsId).Finite? && ValidVendorId(rt, vendorId)
      && rawText.Some? && rawText.value.JStr? && Trim(rawText.value.s) != ""
    ensures r.Success? ==>
      r.value == ProposalRequest(rt.stringToNumber(paramsId).value, ToNumber(rt, vendorId.value).value, rawText.value.s)
    ensures r.Failure? && r.error.status == ServerError ==>
      rawText.Some? && Truthy(rawText.value) && !rawText.value.JStr?
  {
    var rfpId := rt.stringToNumber(paramsId);
    if rfpId.NaN? then Failure(Reject(BadRequest, "Invalid RFP id"))
    else if !ValidVendorId(rt, vendorId) then Failure(Reject(BadRequest, "vendorId is required and must be a number"))
    else if rawText.None? || !Truthy(rawText.value) then Failure(Reject(BadRequest, "rawText is required"))
    else if !rawText.value.JStr? then Failure(Reject(ServerError, "Failed to create proposal"))
    else if Trim(rawText.value.s) == "" then Failure(Reject(BadRequest, "rawText is required"))
    else Success(ProposalRequest(rfpId.value, ToNumber(rt, vendorId.value).value, rawText.value.s))
  }

  /** A vendor id of 0 is rejected, like a missing one. */
  lemma ZeroVendorIdRejected(rt: Runtime, paramsId: string, rawText: Option<Json>)
    requires rt.stringToNumber(paramsId).Finite?
    ensures CheckProposalRequest(rt, paramsId, Some(JNum(0.0)), rawText)
            == Failure(Reject(BadRequest, "vendorId is required and must be a number"))
  {
  }

  /** An accepted proposal text has at least one character that is not whitespace. */
  lemma AcceptedTextNotBlank(rt: Runtime, paramsId: string, vendorId: Option<Json>, rawText: Option<Json>)
    requires CheckProposalRequest(rt, paramsId, vendorId, rawText).Success?
    ensures var t := CheckProposalRequest(rt, paramsId, vendorId, rawText).value.rawText;
      exists i :: 0 <= i < |t| && !IsWhitespace(t[i])
  {
    TrimEmptyIff(rawText.value.s);
  }

  // ---------------------------------------------------------------------------
  // GET /rfps/:id/analysis

  datatype RfpRow = RfpRow(id: int, title: string, structuredJson: Json)
  datatype VendorRow = VendorRow(id: int, name: string, email: string)
  datatype ProposalRow = ProposalRow(vendor: VendorRow, extractedJson: Json)

  /** The comparison input built from the stored RFP and its proposals (in creation order). */
  function AnalysisInput(rfp: RfpRow, proposals: seq<ProposalRow>): (input: CP.CompareInput)
    ensures |input.proposals| == |proposals|
    ensures forall i :: 0 <= i < |proposals| ==>
      input.proposals[i] == CP.ProposalInput(proposals[i].vendor.id, proposals[i].vendor.name, proposals[i].extractedJson)
  {
    CP.CompareInput(
      CP.RfpInput(rfp.title, rfp.structuredJson),
      seq(|proposals|, i requires 0 <= i < |proposals| =>
        CP.ProposalInput(proposals[i].vendor.id, proposals[i].vendor.name, proposals[i].extractedJson)))
  }

  /**
   * The analysis handler: the id guard, the RFP lookup (`rfp`), the guard against an
   * RFP without proposals, then the comparison; a comparison that throws is a 500.
   */
  function Analyze(rt: Runtime, paramsId: string, rfp: Option<RfpRow>, proposals: seq<ProposalRow>,
                   reply: Option<string>, parse: string -> Option<Json>): (r: Result<CP.Analysis, Reject>)
    ensures rt.stringToNumber(paramsId).NaN? ==> r == Failure(Reject(BadRequest, "Invalid RFP id"))
    ensures rt.stringToNumber(paramsId).Finite? && rfp.None? ==> r == Failure(Reject(NotFound, "RFP not found"))
    ensures rt.stringToNumber(paramsId).Finite? && rfp.Some? && proposals == [] ==>
      r == Failure(Reject(BadRequest, "No proposals for this RFP yet"))
    ensures rt.stringToNumber(paramsId).Finite? && rfp.Some? && proposals != [] ==>
      match CP.CompareProposalsWithAI(rt, AnalysisInput(rfp.value, proposals), reply, parse)
      case Success(a) => r == Success(a)
      case Failure(_) => r == Failure(Reject(ServerError, "Failed to analyze proposals for this RFP"))
  {
    if rt.stringToNumber(paramsId).NaN? then Failure(Reject(BadRequest, "Invalid RFP id"))
    else if rfp.None? then Failure(Reject(NotFound, "RFP not found"))
    else if |proposals| == 0 then Failure(Reject(BadRequest, "No proposals for this RFP yet"))
    else
      match CP.CompareProposalsWithAI(rt, AnalysisInput(rfp.value, proposals), reply, parse)
      case Success(a) => Success(a)
      case Failure(_) => Failure(Reject(ServerError, "Failed to analyze proposals for this RFP"))
  }

  /**
   * The empty-proposals guard is what keeps the heuristic's `reduce` off an empty
   * array: the analysis answers 500 only when the model call itself failed, and an
   * unparsable reply yields the heuristic result with one score per proposal.
   */
  lemma AnalysisNeverReducesEmpty(rt: Runtime, paramsId: string, rfp: Option<RfpRow>, proposals: seq<ProposalRow>,
                                  reply: Option<string>, parse: string -> Option<Json>)
    ensures var r := Analyze(rt, paramsId, rfp, proposals, reply, parse);
      && (r.Failure? && r.error.status == ServerError ==> reply.None?)
      && (r.Success? && reply.Some? && parse(Trim(reply.value)).None? ==>
            r.value.Degraded? && |r.value.result.vendorScores| == |proposals|)
  {
  }

  // ---------------------------------------------------------------------------
  // POST /rfps/:id/send: guards

  /** `!vendorIds || !Array.isArray(vendorIds) || vendorIds.length === 0` rejects. */
  predicate ValidVendorIds(vendorIds: Option<Json>)
  {
    vendorIds.Some? && vendorIds.value.JArr? && |vendorIds.value.items| > 0
  }

  /**
   * The guards of the send handler, in source order. `rfp` is the RFP found for the id
   * and `vendors` the vendors found for `vendorIds`; both lookups happen after the two
   * request checks, so a rejected request's answer does not depend on them.
   */
  function CheckSendRequest(rt: Runtime, paramsId: string, vendorIds: Option<Json>, rfp: Option<RfpRow>,
                            vendors: seq<VendorRow>): (r: Result<RfpRow, Reject>)
    ensures rt.stringToNumber(paramsId).NaN? ==> r == Failure(Reject(BadRequest, "Invalid RFP id"))
    ensures rt.stringToNumber(paramsId).Finite? && !ValidVendorIds(vendorIds) ==>
      r == Failure(Reject(BadRequest, "vendorIds array is required and cannot be empty"))
    ensures rt.stringToNumber(paramsId).Finite? && ValidVendorIds(vendorIds) && rfp.None? ==>
      r == Failure(Reject(NotFound, "RFP not found"))
    ensures rt.stringToNumber(paramsId).Finite? && ValidVendorIds(vendorIds) && rfp.Some? && vendors == [] ==>
      r == Failure(Reject(NotFound, "No matching vendors found"))
    ensures r.Success? <==> rt.stringToNumber(paramsId).Finite? && ValidVendorIds(vendorIds) && rfp.Some? && vendors != []
    ensures r.Success? ==> r.value == rfp.value
  {
    if rt.stringToNumber(paramsId).NaN? then Failure(Reject(BadRequest, "Invalid RFP id"))
    else if !ValidVendorIds(vendorIds) then Failure(Reject(BadRequest, "vendorIds array is required and cannot be empty"))
    else if rfp.None? then Failure(Reject(NotFound, "RFP not found"))
    else if |vendors| == 0 then Failure(Reject(NotFound, "No matching vendors found"))
    else Success(rfp.value)
  }

  /** A bad request is answered the same whatever the lookups would find: no lookup is needed. */
  lemma RejectedBeforeLookup(rt: Runtime, paramsId: string, vendorIds: Option<Json>,
                             rfp1: Option<RfpRow>, vendors1: seq<VendorRow>, rfp2: Option<RfpRow>, vendors2: seq<VendorRow>)
    requires rt.stringToNumber(paramsId).NaN? || !ValidVendorIds(vendorIds)
    ensures CheckSendRequest(rt, paramsId, vendorIds, rfp1, vendors1) == CheckSendRequest(rt, paramsId, vendorIds, rfp2, vendors2)
    ensures CheckSendRequest(rt, paramsId, vendorIds, rfp1, vendors1).Failure?
    ensures CheckSendRequest(rt, paramsId, vendorIds, rfp1, vendors1).error.status == BadRequest
  {
  }

  // ---------------------------------------------------------------------------
  // POST /rfps/:id/send: the invitation text

  /** The optional summary lines: the key read from the structured RFP and the line's prefix, in output order. */
  const SummaryFields: seq<(string, string)> :=
    [("budget", "Budget: "), ("delivery_within_days", "Delivery within: "),
     ("payment_terms", "Payment terms: "), ("warranty", "Warranty: ")]

  /** `typeof structured === "object" && structured && "title" in structured`. */
  predicate HasTitle(structured: Json)
  {
    structured.JObj? && "title" in structured.fields
  }

  /** The first summary line: the structured title when there is one, else the stored title. */
  function TitleLine(rt: Runtime, structured: Json, rfpTitle: string): (line: string)
    ensures !HasTitle(structured) ==> line == "Title: " + rfpTitle
  {
    "Title: " + (if HasTitle(structured) then FormatValue(rt, Some(structured.fields["title"]))
                 else FormatValue(rt, Some(JStr(rfpTitle))))
  }

  /** The line of one table entry, present when the structured RFP is an object that has the key. */
  function FieldLine(rt: Runtime, structured: Json, field: (string, string)): (line: seq<string>)
    ensures |line| <= 1
  {
    if structured.JObj? && field.0 in structured.fields
    then [field.1 + FormatValue(rt, Some(structured.fields[field.0]))]
    else []
  }

  /** The lines of the table entries whose keys are defined, in table order. */
  function FieldLines(rt: Runtime, structured: Json, fields: seq<(string, string)>): (lines: seq<string>)
    ensures |lines| <= |fields|
  {
    if fields == [] then [] else FieldLine(rt, structured, fields[0]) + FieldLines(rt, structured, fields[1..])
  }

  /** The summary lines of the invitation email. */
  function SummaryLines(rt: Runtime, structured: Json, rfpTitle: string): (lines: seq<string>)
    ensures 1 <= |lines| <= 1 + |SummaryFields|
    ensures lines[0] == TitleLine(rt, structured, rfpTitle)
  {
    [TitleLine(rt, structured, rfpTitle)] + FieldLines(rt, structured, SummaryFields)
  }

  /** The handler's statements that push the summary lines one by one. */
  method BuildSummaryLines(rt: Runtime, structured: Json, rfpTitle: string) returns (summaryLines: seq<string>)
    ensures summaryLines == SummaryLines(rt, structured, rfpTitle)
  {
    summaryLines := [];
    if structured.JObj? && "title" in structured.fields {
      summaryLines := summaryLines + ["Title: " + FormatValue(rt, Some(structured.fields["title"]))];
    } else {
      summaryLines := summaryLines + ["Title: " + FormatValue(rt, Some(JStr(rfpTitle)))];
    }
    if structured.JObj? {
      summaryLines := PushIfDefined(rt, summaryLines, structured, ("budget", "Budget: "));
      summaryLines := PushIfDefined(rt, summaryLines, structured, ("delivery_within_days", "Delivery within: "));
      summaryLines := PushIfDefined(rt, summaryLines, structured, ("payment_terms", "Payment terms: "));
      summaryLines := PushIfDefined(rt, summaryLines, structured, ("warranty", "Warranty: "));
    }
    UnfoldSummaryFields(rt, structured);
  }

  /** `if (s[key] !== undefined) summaryLines.push(label + formatValue(s[key]))` for an object `s`. */
  method PushIfDefined(rt: Runtime, lines: seq<string>, structured: Json, field: (string, string))
    returns (lines': seq<string>)
    requires structured.JObj?
    ensures lines' == lines + FieldLine(rt, structured, field)
  {
    lines' := lines;
    if field.0 in structured.fields {
      lines' := lines' + [field.1 + FormatValue(rt, Some(structured.fields[field.0]))];
    }
  }

  /** The four table entries, one at a time. */
  lemma UnfoldSummaryFields(rt: Runtime, structured: Json)
    ensures FieldLines(rt, structured, SummaryFields) ==
      FieldLine(rt, structured, ("budget", "Budget: "))
      + FieldLine(rt, structured, ("delivery_within_days", "Delivery within: "))
      + FieldLine(rt, structured, ("payment_terms", "Payment terms: "))
      + FieldLine(rt, structured, ("warranty", "Warranty: "))
  {
    var f3 := [("warranty", "Warranty: ")];
    var f2 := [("payment_terms", "Payment terms: ")] + f3;
    var f1 := [("delivery_within_days", "Delivery within: ")] + f2;
    assert SummaryFields == [("budget", "Budget: ")] + f1;
    assert f3[1..] == [] && f2[1..] == f3 && f1[1..] == f2 && SummaryFields[1..] == f1;
    assert FieldLines(rt, structured, f3) == FieldLine(rt, structured, f3[0]) + FieldLines(rt, structured, []);
    assert FieldLines(rt, structured, f2) == FieldLine(rt, structured, f2[0]) + FieldLines(rt, structured, f3);
    assert FieldLines(rt, structured, f1) == FieldLine(rt, structured, f1[0]) + FieldLines(rt, structured, f2);
    assert FieldLines(rt, structured, SummaryFields) ==
      FieldLine(rt, structured, SummaryFields[0]) + FieldLines(rt, structured, f1);
  }

  /** A table entry whose key is defined contributes its line, a null value being shown as "Not specified". */
  lemma {:induction false} FieldLinePresent(rt: Runtime, structured: Json, fields: seq<(string, string)>, i: int)
    requires 0 <= i < |fields| && structured.JObj? && fields[i].0 in structured.fields
    ensures fields[i].1 + FormatValue(rt, Some(structured.fields[fields[i].0])) in FieldLines(rt, structured, fields)
  {
    if i > 0 {
      FieldLinePresent(rt, structured, fields[1..], i - 1);
    }
  }

  /** Every optional line belongs to a table entry whose key is defined. */
  lemma {:induction false} FieldLineOnlyIfPresent(rt: Runtime, structured: Json, fields: seq<(string, string)>, line: string)
    requires line in FieldLines(rt, structured, fields)
    ensures exists i :: 0 <= i < |fields| && structured.JObj? && fields[i].0 in structured.fields
                        && line == fields[i].1 + FormatValue(rt, Some(structured.fields[fields[i].0]))
  {
    if line !in FieldLine(rt, structured, fields[0]) {
      FieldLineOnlyIfPresent(rt, structured, fields[1..], line);
      var i :| 0 <= i < |fields[1..]| && structured.JObj? && fields[1..][i].0 in structured.fields
               && line == fields[1..][i].1 + FormatValue(rt, Some(structured.fields[fields[1..][i].0]));
      assert fields[i + 1] == fields[1..][i];
    }
  }

  /**
   * The first line is always the title line: the structured RFP's `title` when it is
   * an object with that key, whatever its value, and the stored title otherwise.
   */
  lemma FirstLineIsTitle(rt: Runtime, structured: Json, rfpTitle: string)
    ensures var lines := SummaryLines(rt, structured, rfpTitle);
      && |lines| >= 1
      && (HasTitle(structured) ==> lines[0] == "Title: " + FormatValue(rt, Some(structured.fields["title"])))
      && (!HasTitle(structured) ==> lines[0] == "Title: " + rfpTitle)
  {
  }

  /** A structured RFP that is not an object gives the stored title as the only line. */
  lemma NonObjectSummary(rt: Runtime, structured: Json, rfpTitle: string)
    requires !structured.JObj?
    ensures SummaryLines(rt, structured, rfpTitle) == ["Title: " + rfpTitle]
  {
    UnfoldSummaryFields(rt, structured);
  }

  /** A null budget still gives a budget line, showing "Not specified". */
  lemma NullBudgetLine(rt: Runtime, fields: map<string, Json>, rfpTitle: string)
    requires "budget" in fields && fields["budget"] == JNull
    ensures "Budget: Not specified" in SummaryLines(rt, JObj(fields), rfpTitle)
  {
    UnfoldSummaryFields(rt, JObj(fields));
    assert "Budget: " + NotSpecified == "Budget: Not specified";
    assert FieldLine(rt, JObj(fields), ("budget", "Budget: ")) == ["Budget: Not specified"];
  }

  const Preamble: seq<string> :=
    ["Dear Vendor,", "", "You are invited to submit a proposal for the following RFP:", ""]
  const Footer: seq<string> :=
    ["", "Please respond with your best offer including:", "- Pricing", "- Delivery timeline",
     "- Warranty and support details", "- Payment terms", "", "Best regards,", "Procurement Team"]

  /** The subject line of the invitation. */
  function Subject(rfpTitle: string): (s: string)
    ensures |s| == 5 + |rfpTitle| && s[..5] == "RFP: " && s[5..] == rfpTitle
  {
    "RFP: " + rfpTitle
  }

  /** The invitation text: preamble, summary lines and footer joined by newlines. */
  function Body(summaryLines: seq<string>): (text: string)
    ensures "Dear Vendor," <= text
  {
    var parts := Preamble + summaryLines + Footer;
    assert parts[0] == "Dear Vendor,";
    Join(parts, "\n")
  }

  /** The summary lines appear whole between the fixed preamble and the fixed footer. */
  lemma BodyLayout(summaryLines: seq<string>)
    requires summaryLines != []
    ensures Body(summaryLines) ==
      Join(Preamble, "\n") + "\n" + Join(summaryLines, "\n") + "\n" + Join(Footer, "\n")
  {
    JoinConcat(Preamble, summaryLines, "\n");
    JoinConcat(Preamble + summaryLines, Footer, "\n");
  }

  // ---------------------------------------------------------------------------
  // POST /rfps/:id/send: sending and the tally

  datatype Email = Email(to: string, subject: string, text: string)
  datatype SendResult = SendResult(vendorId: int, email: string, success: bool)
  datatype SendSummary = SendSummary(attempted: nat, sent: nat, results: seq<SendResult>)

  /**
   * The `for` loop: one email per vendor, in vendor order; `delivered(i)` tells
   * whether the i-th `sendRfpEmail` call resolved. A failed send is recorded, not raised.
   */
  method SendToVendors(vendors: seq<VendorRow>, subject: string, text: string, delivered: nat -> bool)
    returns (results: seq<SendResult>, outbox: seq<Email>)
    ensures |results| == |vendors| && |outbox| == |vendors|
    ensures forall i :: 0 <= i < |vendors| ==>
      results[i] == SendResult(vendors[i].id, vendors[i].email, delivered(i))
    ensures forall i :: 0 <= i < |vendors| ==> outbox[i] == Email(vendors[i].email, subject, text)
  {
    results, outbox := [], [];
    var k := 0;
    while k < |vendors|
      invariant 0 <= k <= |vendors|
      invariant |results| == k && |outbox| == k
      invariant forall i :: 0 <= i < k ==> results[i] == SendResult(vendors[i].id, vendors[i].email, delivered(i))
      invariant forall i :: 0 <= i < k ==> outbox[i] == Email(vendors[i].email, subject, text)
    {
      var v := vendors[k];
      outbox := outbox + [Email(v.email, subject, text)];
      if delivered(k) {
        results := results + [SendResult(v.id, v.email, true)];
      } else {
        results := results + [SendResult(v.id, v.email, false)];
      }
      k := k + 1;
    }
  }

  /** `results.filter((r) => r.success).length`. */
  function CountSent(results: seq<SendResult>): (n: nat)
    ensures n <= |results|
  {
    if results == [] then 0 else (if results[0].success then 1 else 0) + CountSent(results[1..])
  }

  /** Every send succeeded exactly when the count equals the attempts; none did exactly when it is 0. */
  lemma {:induction false} CountSentExtremes(results: seq<SendResult>)
    ensures CountSent(results) == |results| <==> forall i :: 0 <= i < |results| ==> results[i].success
    ensures CountSent(results) == 0 <==> forall i :: 0 <= i < |results| ==> !results[i].success
  {
    if results != [] {
      CountSentExtremes(results[1..]);
      assert forall i :: 1 <= i < |results| ==> results[i] == results[1..][i - 1];
    }
  }

  /** The tally of the response: attempts, successes and the per-vendor results. */
  function Tally(results: seq<SendResult>): (s: SendSummary)
    ensures s.attempted == |results| && s.sent <= s.attempted && s.results == results
    ensures s.sent == CountSent(results)
  {
    SendSummary(|results|, CountSent(results), results)
  }

  /**
   * The send handler: the guards, then the subject and body, then one email per found
   * vendor and the tally. A rejected request sends nothing.
   */
  method SendRfp(rt: Runtime, paramsId: string, vendorIds: Option<Json>, rfp: Option<RfpRow>,
                 vendors: seq<VendorRow>, delivered: nat -> bool)
    returns (r: Result<SendSummary, Reject>, outbox: seq<Email>)
    ensures CheckSendRequest(rt, paramsId, vendorIds, rfp, vendors).Failure? ==>
      r == Failure(CheckSendRequest(rt, paramsId, vendorIds, rfp, vendors).error) && outbox == []
    ensures CheckSendRequest(rt, paramsId, vendorIds, rfp, vendors).Success? ==>
      && r.Success? && r.value.attempted == |vendors| == |r.value.results| && r.value.sent <= r.value.attempted
      && r.value.sent == CountSent(r.value.results)
      && (forall i :: 0 <= i < |vendors| ==>
            r.value.results[i] == SendResult(vendors[i].id, vendors[i].email, delivered(i)))
      && |outbox| == |vendors|
      && (forall i :: 0 <= i < |vendors| ==>
            outbox[i] == Email(vendors[i].email, Subject(rfp.value.title),
                               Body(SummaryLines(rt, rfp.value.structuredJson, rfp.value.title))))
  {
    var checked := CheckSendRequest(rt, paramsId, vendorIds, rfp, vendors);
    if checked.Failure? {
      return Failure(checked.error), [];
    }
    var row := checked.value;
    var summaryLines := BuildSummaryLines(rt, row.structuredJson, row.title);
    var subject := Subject(row.title);
    var baseText := Body(summaryLines);
    var results;
    results, outbox := SendToVendors(vendors, subject, baseText, delivered);
    r := Success(Tally(results));
  }
}
