/**
 * The record handlers with request parsing, responses and database calls
 * stripped away: a handler receives the document the store loaded (`null`
 * when the identifier did not resolve), the request fields and the clock
 * reading `now`, changes the document in place and says how it ended.
 */
module Controller {
  import opened Wrappers
  import opened Ledger
  import opened Rules
  import opened Records

  /** How a handler can fail. */
  datatype Failure = NotFound | Overpayment(why: Rejection)

  /** The handler's answer: saved, or failed with nothing changed. */
  datatype Outcome = Done | Fail(error: Failure)

  /**
   * `addPayment`: sum the ledger, refuse if already fully paid, refuse if
   * the amount exceeds what remains, otherwise append one entry and save.
   */
  method AddPayment(record: Record?, amount: int, mode: Option<string>, date: Option<int>, now: int)
    returns (res: Outcome)
    modifies record
    ensures record == null ==> res == Fail(NotFound)
    ensures record != null ==>
              var r := Pay(old(record.State()), amount, mode, date, now);
              if r.Success? then res == Done && record.State() == r.value
              else res == Fail(Overpayment(r.error)) && record.State() == old(record.State())
  {
    if record == null {
      return Fail(NotFound);
    }
    var totalPaymentsMade := Reduce(record.totalPayments, 0);
    ReduceIsTotal(record.totalPayments, 0);
    if totalPaymentsMade >= record.totalAmount {
      return Fail(Overpayment(AlreadyPaid));
    }
    if totalPaymentsMade + amount > record.totalAmount {
      return Fail(Overpayment(ExceedsRemaining(record.totalAmount - totalPaymentsMade)));
    }
    record.Push(Payment(amount, StampOf(date, now), mode));
    record.Save(now);
    res := Done;
  }

  /**
   * `updateRecord`: when `totalPaid` is non-zero (absent counts as zero),
   * apply the overpayment rule against the stored total and append; then
   * overwrite all ten billing fields and save.
   */
  method UpdateRecord(record: Record?, fields: Billing, totalPaid: int, mode: Option<string>, now: int)
    returns (res: Outcome)
    modifies record
    ensures record == null ==> res == Fail(NotFound)
    ensures record != null ==>
              var r := Update(old(record.State()), fields, totalPaid, mode, now);
              if r.Success? then res == Done && record.State() == r.value
              else res == Fail(Overpayment(r.error)) && record.State() == old(record.State())
  {
    if record == null {
      return Fail(NotFound);
    }
    var totalPaymentsMade := Reduce(record.totalPayments, 0);
    ReduceIsTotal(record.totalPayments, 0);
    if totalPaid != 0 {
      if totalPaymentsMade >= record.totalAmount {
        return Fail(Overpayment(AlreadyPaid));
      }
      if totalPaymentsMade + totalPaid > record.totalAmount {
        return Fail(Overpayment(ExceedsRemaining(record.totalAmount - totalPaymentsMade)));
      }
      record.Push(Payment(totalPaid, StampOf(fields.date, now), Some(ModeOrCash(mode))));
    }
    record.Assign(fields);
    record.Save(now);
    res := Done;
  }

  /**
   * `deleteRecord`: find by identifier and set the two flags; a missing
   * record is not an error, the answer then carries no document.
   */
  method DeleteRecord(record: Record?, now: int) returns (data: Record?)
    modifies record
    ensures data == record
    ensures record != null ==> record.State() == SoftDeleted(old(record.State()), now)
  {
    if record != null {
      record.status, record.deleteflag := false, true;
      record.Save(now);
    }
    data := record;
  }

  /** The records the listing query selects, in store order. */
  function Active(db: seq<RecordState>): (r: seq<RecordState>)
    ensures forall x :: multiset(r)[x] == if x.Listed() then multiset(db)[x] else 0
  {
    if db == [] then []
    else
      assert db == [db[0]] + db[1..];
      (if db[0].Listed() then [db[0]] else []) + Active(db[1..])
  }

  /** Newest first: `updatedAt` never increases along the sequence. */
  predicate NewestFirst(s: seq<RecordState>) {
    forall k, l :: 0 <= k < l < |s| ==> s[k].updatedAt >= s[l].updatedAt
  }

  /** Exchange the entries at `j - 1` and `j`. */
  method SwapDown(a: array<RecordState>, j: int)
    requires 0 < j < a.Length
    modifies a
    ensures a[j - 1] == old(a[j]) && a[j] == old(a[j - 1])
    ensures forall k :: 0 <= k < a.Length && k != j - 1 && k != j ==> a[k] == old(a[k])
    ensures multiset(a[..]) == multiset(old(a[..]))
  {
    a[j - 1], a[j] := a[j], a[j - 1];
  }

  /**
   * `records.sort((a, b) => b.updatedAt - a.updatedAt)`: sort in place by
   * descending `updatedAt` (an insertion sort).
   */
  method SortNewestFirst(a: array<RecordState>)
    modifies a
    ensures NewestFirst(a[..])
    ensures multiset(a[..]) == multiset(old(a[..]))
  {
    var i := 0;
    while i < a.Length
      invariant 0 <= i <= a.Length
      invariant forall k, l :: 0 <= k < l < i ==> a[k].updatedAt >= a[l].updatedAt
      invariant multiset(a[..]) == multiset(old(a[..]))
    {
      var j := i;
      while 0 < j && a[j - 1].updatedAt < a[j].updatedAt
        invariant 0 <= j <= i
        invariant forall k, l :: 0 <= k < l <= i && k != j && l != j ==> a[k].updatedAt >= a[l].updatedAt
        invariant forall l :: j < l <= i ==> a[j].updatedAt > a[l].updatedAt
        invariant multiset(a[..]) == multiset(old(a[..]))
      {
        SwapDown(a, j);
        j := j - 1;
      }
      i := i + 1;
    }
  }

  /**
   * `getAll`: exactly the active, undeleted records, each as often as the
   * store holds it, newest update first.
   */
  method GetAll(db: seq<RecordState>) returns (listed: array<RecordState>)
    ensures NewestFirst(listed[..])
    ensures multiset(listed[..]) == multiset(Active(db))
    ensures forall x :: x in listed[..] <==> x in db && x.Listed()
  {
    var found := Active(db);
    listed := new RecordState[|found|](i requires 0 <= i < |found| => found[i]);
    assert listed[..] == found;
    SortNewestFirst(listed);
    forall x ensures x in listed[..] <==> x in db && x.Listed() {
      assert x in listed[..] <==> multiset(listed[..])[x] > 0;
      assert x in db <==> multiset(db)[x] > 0;
    }
  }

  /**
   * A record whose last save is strictly newer than every other listed
   * record heads the listing.
   */
  lemma NewestHeadsListing(s: seq<RecordState>, x: RecordState)
    requires NewestFirst(s) && x in s
    requires forall y :: y in s && y != x ==> y.updatedAt < x.updatedAt
    ensures s[0] == x
  {
  }
}
