/**
 * rfp-backend/src/ai/compareProposals.ts: the heuristic vendor scorer used as a
 * fallback, and the decision between the language model's parsed answer and that
 * fallback. Scores are exact reals; the model's reply text and `JSON.parse` are inputs.
 */
module CompareProposals {
  import opened Common
  import opened Js

  datatype RfpInput = RfpInput(title: string, structuredJson: Json)
  datatype ProposalInput = ProposalInput(vendorId: int, vendorName: string, extractedJson: Json)
  datatype CompareInput = CompareInput(rfp: RfpInput, proposals: seq<ProposalInput>)

  datatype VendorScore = VendorScore(vendorId: int, vendorName: string, score: real, summary: string)
  datatype Recommendation = Recommendation(vendorId: int, vendorName: string, reason: string)
  datatype ComparisonResult = ComparisonResult(vendorScores: seq<VendorScore>, recommendation: Recommendation)

  const HeuristicReason: string :=
    "Heuristic recommendation based on lower price and faster delivery (fallback because AI comparison failed)."
  const LimitedData: string := "Proposal parsed but limited data available."

  /** `Math.min` and `Math.max` on two numbers. */
  function Min(a: real, b: real): (m: real) { if a <= b then a else b }
  function Max(a: real, b: real): (m: real) { if a >= b then a else b }

  // ---------------------------------------------------------------------------
  // Reading a proposal's extracted data

  /** `p.extractedJson || {}`: a falsy value (null, false, 0, "") reads as the empty object. */
  function ProposalData(extracted: Json): (d: Json)
    ensures Truthy(d)
    ensures Truthy(extracted) ==> d == extracted
    ensures !Truthy(extracted) ==> d == JObj(map[])
  {
    if Truthy(extracted) then extracted else JObj(map[])
  }

  /** `typeof data[key] === "number" ? data[key] : null`. */
  function NumberField(data: Json, key: string): (n: Option<real>)
    ensures n.Some? <==> Get(data, key).Some? && Get(data, key).value.JNum?
    ensures n.Some? ==> Get(data, key) == Some(JNum(n.value))
  {
    match Get(data, key)
    case Some(JNum(n)) => Some(n)
    case _ => None
  }

  /** `if (data[key])`: the field is present and truthy. */
  predicate TruthyField(data: Json, key: string)
  {
    Get(data, key).Some? && Truthy(Get(data, key).value)
  }

  function PriceOf(data: Json): (p: Option<real>) { NumberField(data, "total_price") }
  function DaysOf(data: Json): (d: Option<real>) { NumberField(data, "delivery_days") }

  // ---------------------------------------------------------------------------
  // The score formula

  /** What a price adds before clamping: `30 - min(p / 1000, 30)`. */
  function PriceTerm(price: real): (t: real)
  {
    30.0 - Min(price / 1000.0, 30.0)
  }

  /** What a delivery time adds before clamping: `max(0, 20 - min(d, 20)) / 2`. */
  function DeliveryTerm(days: real): (t: real)
  {
    Max(0.0, 20.0 - Min(days, 20.0)) / 2.0
  }

  /**
   * The closed form of the heuristic score: 60, plus the price term when a numeric
   * price is known, plus the delivery term when a numeric delivery time is known,
   * clamped to [0, 100].
   */
  function HeuristicScore(price: Option<real>, days: Option<real>): (s: real)
    ensures 0.0 <= s <= 100.0
  {
    var raw := 60.0 + (if price.Some? then PriceTerm(price.value) else 0.0)
                    + (if days.Some? then DeliveryTerm(days.value) else 0.0);
    Max(0.0, Min(100.0, raw))
  }

  lemma PriceTermProperties(p: real, q: real)
    ensures p <= q ==> PriceTerm(q) <= PriceTerm(p)
    ensures p >= 0.0 ==> 0.0 <= PriceTerm(p) <= 30.0
    ensures p >= 30000.0 ==> PriceTerm(p) == 0.0
    ensures PriceTerm(1000.0) == 29.0
  {
  }

  lemma DeliveryTermProperties(d: real, e: real)
    ensures d <= e ==> DeliveryTerm(e) <= DeliveryTerm(d)
    ensures d >= 20.0 ==> DeliveryTerm(d) == 0.0
    ensures d >= 0.0 ==> 0.0 <= DeliveryTerm(d) <= 10.0
  {
  }

  /** The two worked examples: p=1000, d=5 scores 96.5 and p=500, d=30 scores 89.5. */
  lemma ScoreExamples()
    ensures HeuristicScore(Some(1000.0), Some(5.0)) == 96.5
    ensures HeuristicScore(Some(500.0), Some(30.0)) == 89.5
  {
  }

  // ---------------------------------------------------------------------------
  // The summary text

  /** The summary parts that are present, in the fixed order price, delivery, warranty, payment terms. */
  function SummaryParts(rt: Runtime, data: Json): (parts: seq<string>)
    ensures |parts| <= 4
    ensures forall i :: 0 <= i < |parts| ==> parts[i] != ""
    ensures parts == [] <==> NoSummaryData(data)
  {
    (if PriceOf(data).Some? then ["Total price: " + rt.numberToString(PriceOf(data).value)] else [])
    + (if DaysOf(data).Some? then ["Delivery in ~" + rt.numberToString(DaysOf(data).value) + " days"] else [])
    + (if TruthyField(data, "warranty") then ["Warranty: " + ToText(rt, Get(data, "warranty").value)] else [])
    + (if TruthyField(data, "payment_terms") then ["Payment terms: " + ToText(rt, Get(data, "payment_terms").value)] else [])
  }

  /** The summary: the "; "-join of the present parts, or the fixed notice when none is present. */
  function Summary(rt: Runtime, data: Json): (t: string)
    ensures t != ""
  {
    var parts := SummaryParts(rt, data);
    if parts == [] then LimitedData
    else
      assert parts[0] <= Join(parts, "; ") && parts[0] != "";
      Join(parts, "; ")
  }

  /** No part is present exactly when no price, no delivery time, no truthy warranty and no truthy payment terms are. */
  predicate NoSummaryData(data: Json)
  {
    PriceOf(data).None? && DaysOf(data).None?
    && !TruthyField(data, "warranty") && !TruthyField(data, "payment_terms")
  }

  /** The summary is the fixed notice exactly when no part is present. */
  lemma SummaryLimitedIff(rt: Runtime, data: Json)
    ensures Summary(rt, data) == LimitedData <==> NoSummaryData(data)
  {
    var parts := SummaryParts(rt, data);
    if parts != [] {
      var first := parts[0];
      var r := Join(parts, "; ");
      assert first <= r && |first| >= 2;
      if PriceOf(data).Some? {
        assert first[0] == 'T';
      } else if DaysOf(data).Some? {
        assert first[0] == 'D';
      } else if TruthyField(data, "warranty") {
        assert first[0] == 'W';
      } else {
        assert first[1] == 'a';
      }
      assert r[0] == first[0] && r[1] == first[1];
      assert LimitedData[0] == 'P' && LimitedData[1] == 'r';
    }
  }

  // ---------------------------------------------------------------------------
  // Scoring one proposal (the body of the `map` callback)

  /** The vendor score of one proposal. */
  function ScoreOf(rt: Runtime, p: ProposalInput): (v: VendorScore)
    ensures v.vendorId == p.vendorId && v.vendorName == p.vendorName
    ensures 0.0 <= v.score <= 100.0 && v.summary != ""
  {
    var data := ProposalData(p.extractedJson);
    VendorScore(p.vendorId, p.vendorName, HeuristicScore(PriceOf(data), DaysOf(data)), Summary(rt, data))
  }

  /**
   * The callback's statements, step by step: the score is accumulated and clamped,
   * the summary parts are pushed, then joined, with the fixed notice replacing an
   * empty join.
   */
  method ScoreProposal(rt: Runtime, p: ProposalInput) returns (vs: VendorScore)
    ensures vs.vendorId == p.vendorId && vs.vendorName == p.vendorName
    ensures vs.score == HeuristicScore(PriceOf(ProposalData(p.extractedJson)), DaysOf(ProposalData(p.extractedJson)))
    ensures vs.summary == Summary(rt, ProposalData(p.extractedJson))
    ensures 0.0 <= vs.score <= 100.0 && vs.summary != ""
  {
    var data := ProposalData(p.extractedJson);
    var totalPrice := NumberField(data, "total_price");
    var deliveryDays := NumberField(data, "delivery_days");

    var score: real := 60.0;
    if totalPrice.Some? {
      var pricePenalty := Min(totalPrice.value / 1000.0, 30.0);
      score := score + (30.0 - pricePenalty);
    }
    if deliveryDays.Some? {
      var deliveryBonus := Max(0.0, 20.0 - Min(deliveryDays.value, 20.0));
      score := score + deliveryBonus / 2.0;
    }
    score := Max(0.0, Min(100.0, score));

    var summaryParts: seq<string> := [];
    if totalPrice.Some? {
      summaryParts := summaryParts + ["Total price: " + rt.numberToString(totalPrice.value)];
    }
    if deliveryDays.Some? {
      summaryParts := summaryParts + ["Delivery in ~" + rt.numberToString(deliveryDays.value) + " days"];
    }
    var warranty := Get(data, "warranty");
    if warranty.Some? && Truthy(warranty.value) {
      summaryParts := summaryParts + ["Warranty: " + ToText(rt, warranty.value)];
    }
    var paymentTerms := Get(data, "payment_terms");
    if paymentTerms.Some? && Truthy(paymentTerms.value) {
      summaryParts := summaryParts + ["Payment terms: " + ToText(rt, paymentTerms.value)];
    }
    assert summaryParts == SummaryParts(rt, data);

    var joined := Join(summaryParts, "; ");
    if summaryParts != [] {
      assert summaryParts[0] <= joined && summaryParts[0] != "";
    }
    vs := VendorScore(p.vendorId, p.vendorName, score, if joined != "" then joined else LimitedData);
  }

  /** A proposal with neither a numeric price nor a numeric delivery time scores exactly 60. */
  lemma NoNumbersScoresSixty(rt: Runtime, p: ProposalInput)
    requires PriceOf(ProposalData(p.extractedJson)).None? && DaysOf(ProposalData(p.extractedJson)).None?
    ensures ScoreOf(rt, p).score == 60.0
  {
  }

  /** A falsy `extractedJson` (null, false, 0, "") reads as `{}`: score 60 and the fixed notice. */
  lemma FalsyProposalScore(rt: Runtime, p: ProposalInput)
    requires !Truthy(p.extractedJson)
    ensures ScoreOf(rt, p) == VendorScore(p.vendorId, p.vendorName, 60.0, LimitedData)
  {
    assert SummaryParts(rt, JObj(map[])) == [];
  }

  // ---------------------------------------------------------------------------
  // Picking the recommendation

  /** `k` is the first index holding the maximal score. */
  predicate FirstMaximum(s: seq<VendorScore>, k: int)
  {
    && 0 <= k < |s|
    && (forall j :: 0 <= j < |s| ==> s[j].score <= s[k].score)
    && (forall j :: 0 <= j < k ==> s[j].score < s[k].score)
  }

  /**
   * `scores.reduce((prev, curr) => curr.score > prev.score ? curr : prev)`, as the
   * index of the element it returns: a left fold that replaces the running best only
   * on a strictly greater score. On an empty array the source throws.
   */
  function ReduceBest(s: seq<VendorScore>): (k: nat)
    requires |s| > 0
    ensures FirstMaximum(s, k)
  {
    if |s| == 1 then 0
    else
      var prev := ReduceBest(s[..|s| - 1]);
      if s[|s| - 1].score > s[prev].score then |s| - 1 else prev
  }

  /** There is only one first maximum, so the recommendation is determined by the scores. */
  lemma FirstMaximumUnique(s: seq<VendorScore>, i: int, j: int)
    requires FirstMaximum(s, i) && FirstMaximum(s, j)
    ensures i == j
  {
    assert s[i].score <= s[j].score && s[j].score <= s[i].score;
  }

  /** `heuristicCompare`: one score per proposal, in input order, and the first best-scoring vendor recommended. */
  function HeuristicCompare(rt: Runtime, input: CompareInput): (r: ComparisonResult)
    requires |input.proposals| > 0
    ensures |r.vendorScores| == |input.proposals|
    ensures forall i :: 0 <= i < |input.proposals| ==> r.vendorScores[i] == ScoreOf(rt, input.proposals[i])
    ensures exists k :: FirstMaximum(r.vendorScores, k)
                        && r.recommendation == Recommendation(r.vendorScores[k].vendorId,
                                                              r.vendorScores[k].vendorName, HeuristicReason)
  {
    var scores := seq(|input.proposals|, i requires 0 <= i < |input.proposals| => ScoreOf(rt, input.proposals[i]));
    var best := scores[ReduceBest(scores)];
    ComparisonResult(scores, Recommendation(best.vendorId, best.vendorName, HeuristicReason))
  }

  // ---------------------------------------------------------------------------
  // Model answer or fallback

  /** What the comparison hands back: the model's parsed JSON, unchecked, or the heuristic result. */
  datatype Analysis = Parsed(value: Json) | Degraded(result: ComparisonResult)

  /** Why the comparison throws: the model call rejected, or `reduce` ran on no proposals. */
  datatype CompareError = ModelCallFailed | EmptyReduce

  /**
   * `compareProposalsWithAI`. `reply` is the model's message content, `None` when the
   * call rejects (the call is outside the `try`, so that failure propagates).
   * `parse` is `JSON.parse`, `None` when it throws. The parsed value is cast to the
   * result type without any check.
   */
  function CompareProposalsWithAI(rt: Runtime, input: CompareInput, reply: Option<string>,
                                  parse: string -> Option<Json>): (r: Result<Analysis, CompareError>)
    ensures reply.None? ==> r == Failure(ModelCallFailed)
    ensures reply.Some? ==>
      var parsed := parse(Trim(reply.value));
      && (parsed.Some? ==> r == Success(Parsed(parsed.value)))
      && (parsed.None? && |input.proposals| > 0 ==> r == Success(Degraded(HeuristicCompare(rt, input))))
      && (parsed.None? && |input.proposals| == 0 ==> r == Failure(EmptyReduce))
  {
    match reply
    case None => Failure(ModelCallFailed)
    case Some(content) =>
      var text := Trim(content);
      match parse(text)
      case Some(v) => Success(Parsed(v))
      case None =>
        if |input.proposals| == 0 then Failure(EmptyReduce)
        else Success(Degraded(HeuristicCompare(rt, input)))
  }

  /**
   * When the reply does not parse, the result holds one score per proposal with that
   * proposal's vendor id in input order, each in [0, 100], and recommends the first
   * best-scoring vendor.
   */
  lemma DegradedGuarantees(rt: Runtime, input: CompareInput, content: string, parse: string -> Option<Json>)
    requires |input.proposals| > 0 && parse(Trim(content)).None?
    ensures var r := CompareProposalsWithAI(rt, input, Some(content), parse);
      && r.Success? && r.value.Degraded?
      && var s := r.value.result.vendorScores;
      && |s| == |input.proposals|
      && (forall i :: 0 <= i < |s| ==> s[i].vendorId == input.proposals[i].vendorId && 0.0 <= s[i].score <= 100.0)
      && (exists k :: FirstMaximum(s, k) && r.value.result.recommendation.vendorId == s[k].vendorId)
  {
  }

  /**
   * When the reply parses, the answer does not depend on the proposals at all: it is
   * not checked against them.
   */
  lemma ParsedIgnoresProposals(rt: Runtime, a: CompareInput, b: CompareInput, content: string,
                               parse: string -> Option<Json>)
    requires parse(Trim(content)).Some?
    ensures CompareProposalsWithAI(rt, a, Some(content), parse) == CompareProposalsWithAI(rt, b, Some(content), parse)
  {
  }
}
