/**
 * The payment ledger of a record: an ordered list of payment entries and
 * the running total of their amounts (the `totalPayments` array of a
 * record and the `reduce` that sums it).
 */
module Ledger {
  import opened Wrappers

  /** One entry of `totalPayments`: an amount, a timestamp and a mode. */
  datatype Payment = Payment(amount: int, date: int, mode: Option<string>)

  /** The sum of all amounts in the ledger (reference definition). */
  function Total(ps: seq<Payment>): int {
    if ps == [] then 0 else ps[0].amount + Total(ps[1..])
  }

  /**
   * `ps.reduce((sum, p) => sum + p.amount, acc)`: the left fold the
   * controller uses to compute the payments already made.
   */
  function Reduce(ps: seq<Payment>, acc: int): int {
    if ps == [] then acc else Reduce(ps[1..], acc + ps[0].amount)
  }

  /** The fold started from zero computes the ledger total. */
  lemma {:induction false} ReduceIsTotal(ps: seq<Payment>, acc: int)
    ensures Reduce(ps, acc) == acc + Total(ps)
  {
    if ps != [] {
      ReduceIsTotal(ps[1..], acc + ps[0].amount);
    }
  }

  /** Appending an entry adds exactly its amount to the total. */
  lemma {:induction false} TotalAppend(ps: seq<Payment>, p: Payment)
    ensures Total(ps + [p]) == Total(ps) + p.amount
  {
    if ps == [] {
      assert ps + [p] == [p];
    } else {
      assert (ps + [p])[1..] == ps[1..] + [p];
      TotalAppend(ps[1..], p);
    }
  }

  /**
   * `date || Date.now()`: the request's date unless it is absent or falsy
   * (a zero timestamp), in which case the clock reading `now`.
   */
  function StampOf(date: Option<int>, now: int): int
  {
    if date.Some? && date.value != 0 then date.value else now
  }
}
