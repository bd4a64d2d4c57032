/**
 * The two-stage overpayment rule shared by adding a payment and by
 * updating a record with a non-zero payment.
 */
module Rules {
  import opened Wrappers

  /** Why a payment was refused. */
  datatype Rejection =
    | AlreadyPaid                       // the ledger already reaches the total
    | ExceedsRemaining(remaining: int)  // the payment is larger than what is left

  /**
   * Checks an incoming `amount` against the payments already made (`paid`)
   * and the record's `totalAmount`: first "already fully paid", then
   * "exceeds remaining"; `None` means the payment is accepted.
   */
  function Validate(paid: int, totalAmount: int, amount: int): (v: Option<Rejection>)
    ensures v.None? <==> paid < totalAmount && paid + amount <= totalAmount
    ensures v == Some(AlreadyPaid) <==> paid >= totalAmount
    ensures v.Some? && v.value.ExceedsRemaining? ==>
              v.value.remaining == totalAmount - paid && 0 < v.value.remaining < amount
  {
    if paid >= totalAmount then Some(AlreadyPaid)
    else if paid + amount > totalAmount then Some(ExceedsRemaining(totalAmount - paid))
    else None
  }
}
