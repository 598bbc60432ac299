/** A PIX payment: an amount, the provider's id and payload, an expiry and
    a status. It has no mutators. */
module PixPayment {
  import opened Common

  const AmountMsg: string := "amount must be positive"

  datatype PaymentStatus = Pending | Paid | Failed

  /** The enum value stored for a status. */
  function StatusValue(s: PaymentStatus): string {
    match s
    case Pending => "pending"
    case Paid => "paid"
    case Failed => "failed"
  }

  /** `PaymentStatusEnum(value)`: lookup by value, failing on anything else.
      The message quotes the value as `repr` does when it holds no
      apostrophe; `repr`'s switch to double quotes and its escapes are not
      part of this model. */
  function ParseStatus(v: string): (r: Result<PaymentStatus>)
    ensures r.Err? ==> r.msg == "'" + v + "' is not a valid PaymentStatusEnum"
  {
    if v == "pending" then Ok(Pending)
    else if v == "paid" then Ok(Paid)
    else if v == "failed" then Ok(Failed)
    else Err("'" + v + "' is not a valid PaymentStatusEnum")
  }

  /** The lookup and the value are inverse to each other, both ways. */
  lemma StatusRoundTrip(s: PaymentStatus, v: string)
    ensures ParseStatus(StatusValue(s)) == Ok(s)
    ensures ParseStatus(v).Ok? ==> StatusValue(ParseStatus(v).value) == v
    ensures ParseStatus(v).Ok? <==> v in {"pending", "paid", "failed"}
  {
  }

  datatype PixPayment = PixPayment(id: Uuid, amount: real, providerPaymentId: string, pixPayload: string,
                                   expiresAt: DateTime, status: PaymentStatus)

  /** `PixPayment(amount, provider_payment_id, pix_payload, expires_at,
      status=PENDING, id=None)`: the amount must be positive. */
  function NewPixPayment(amount: real, providerPaymentId: string, pixPayload: string, expiresAt: DateTime,
                         status: PaymentStatus, id: Option<Uuid>, generated: Uuid): (r: Result<PixPayment>)
    ensures r.Err? <==> amount <= 0.0
    ensures r.Err? ==> r.msg == AmountMsg
    ensures r.Ok? ==> r.value.amount == amount && r.value.providerPaymentId == providerPaymentId &&
                      r.value.pixPayload == pixPayload && r.value.expiresAt == expiresAt &&
                      r.value.status == status && r.value.id == ResolveId(id, generated)
  {
    if amount <= 0.0 then Err(AmountMsg)
    else Ok(PixPayment(ResolveId(id, generated), amount, providerPaymentId, pixPayload, expiresAt, status))
  }

  /** Every payment that exists has a positive amount. */
  predicate Valid(p: PixPayment) { p.amount > 0.0 }

  /** A payment built with the default status is pending. */
  lemma DefaultStatusPending(amount: real, expiresAt: DateTime, generated: Uuid)
    requires amount > 0.0
    ensures var r := NewPixPayment(amount, "to do", "to do", expiresAt, Pending, None, generated);
      r.Ok? && r.value.status == Pending && Valid(r.value)
  {
  }
}
