/** The Payment record (src/types/payment.types.ts) and its JSON form. */
module PaymentTypes {
  import opened Wrappers
  import opened JsonValues

  /** A stored payment. The schemas make `amount` positive and `currency`
      trimmed, upper-cased and non-empty before a record is ever built. */
  datatype Payment = Payment(paymentId: string, amount: real, currency: string)

  /** The record's three members, as an object literal `{paymentId, amount, currency}`. */
  function PaymentFields(p: Payment): map<string, Json> {
    map["paymentId" := JStr(p.paymentId), "amount" := JNum(p.amount), "currency" := JStr(p.currency)]
  }

  function PaymentJson(p: Payment): Json {
    JObj(PaymentFields(p))
  }

  /** Reading a record back from its JSON form. */
  function PaymentOfJson(j: Json): (r: Option<Payment>)
  {
    if j.JObj? && "paymentId" in j.fields && "amount" in j.fields && "currency" in j.fields
       && j.fields["paymentId"].JStr? && j.fields["amount"].JNum? && j.fields["currency"].JStr?
    then Some(Payment(j.fields["paymentId"].s, j.fields["amount"].n, j.fields["currency"].s))
    else None
  }

  /** The JSON form of a record loses nothing: reading it back gives the record. */
  lemma PaymentJsonRoundTrip(p: Payment)
    ensures PaymentOfJson(PaymentJson(p)) == Some(p)
  {
  }

  /** Records with different contents have different JSON forms. */
  lemma PaymentJsonInjective(p: Payment, q: Payment)
    requires PaymentJson(p) == PaymentJson(q)
    ensures p == q
  {
    PaymentJsonRoundTrip(p);
    PaymentJsonRoundTrip(q);
  }
}
