/** `formatValue` of rfp-backend/src/utils/helper.ts: how a stored RFP field is shown in an email. */
module Helper {
  import opened Common
  import opened Js

  const NotSpecified: string := "Not specified"

  /**
   * Renders a value for the invitation email. `None` stands for `undefined`.
   * The type tests run in the order null/undefined, number, string, array, object;
   * a boolean reaches the final `String(value)`. `JSON.stringify` cannot throw on a
   * JSON value, so its two `catch` branches are never taken.
   */
  function FormatValue(rt: Runtime, value: Option<Json>): (r: string)
  {
    match value
    case None => NotSpecified
    case Some(v) =>
      match v
      case JNull => NotSpecified
      case JNum(n) => rt.numberToString(n)
      case JStr(s) => s
      case JArr(_) => rt.stringify(v)
      case JObj(m) =>
        if "amount" in m && "currency" in m then ToText(rt, m["amount"]) + " " + ToText(rt, m["currency"])
        else rt.stringify(v)
      case JBool(_) => ToText(rt, v)
  }

  /** The case table of `FormatValue`, one JavaScript type test per line. */
  lemma FormatValueCases(rt: Runtime, value: Option<Json>)
    ensures value == None || value == Some(JNull) ==> FormatValue(rt, value) == NotSpecified
    ensures value.Some? && value.value.JNum? ==> FormatValue(rt, value) == rt.numberToString(value.value.n)
    ensures value.Some? && value.value.JStr? ==> FormatValue(rt, value) == value.value.s
    ensures value.Some? && value.value.JArr? ==> FormatValue(rt, value) == rt.stringify(value.value)
    ensures value.Some? && value.value.JObj? ==>
      var m := value.value.fields;
      FormatValue(rt, value) == if "amount" in m && "currency" in m
           then ToText(rt, m["amount"]) + " " + ToText(rt, m["currency"])
           else rt.stringify(value.value)
    ensures value.Some? && value.value.JBool? ==> FormatValue(rt, value) == (if value.value.b then "true" else "false")
  {
  }

  /** An array is always serialised: it never takes the amount/currency rendering. */
  lemma ArrayNeverAmountCurrency(rt: Runtime, items: seq<Json>)
    ensures FormatValue(rt, Some(JArr(items))) == rt.stringify(JArr(items))
  {
  }

  /** An amount with a currency is shown as "<amount> <currency>", whatever other keys the object has. */
  lemma AmountCurrencyRendering(rt: Runtime, m: map<string, Json>, amount: real, currency: string)
    requires "amount" in m && m["amount"] == JNum(amount)
    requires "currency" in m && m["currency"] == JStr(currency)
    ensures FormatValue(rt, Some(JObj(m))) == rt.numberToString(amount) + " " + currency
  {
  }
}
