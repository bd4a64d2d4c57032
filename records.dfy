/**
 * A billing record: its ten billing fields, its payment ledger, the two
 * soft-delete flags and the store's timestamps. `RecordState` is the value
 * of a record at one moment; `Record` is the stored document the handlers
 * change in place. The functions below give the new value each handler
 * produces, and the lemmas state the accept/reject rules of the ledger.
 */
module Records {
  import opened Wrappers
  import opened Ledger
  import opened Rules

  /** The billing fields a request body carries and the handlers store. */
  datatype Billing = Billing(
    customerName: string,
    customerPhone: string,
    customerAddress: string,
    note: Option<string>,
    hours: int,
    minutes: int,
    perHourRate: int,
    totalAmount: int,
    labourCount: int,
    date: Option<int>)

  /** A record as a value. */
  datatype RecordState = RecordState(
    billing: Billing,
    totalPayments: seq<Payment>,
    status: bool,
    deleteflag: bool,
    createdAt: int,
    updatedAt: int)
  {
    /** The payments already made. */
    function Paid(): int { Total(totalPayments) }

    /** The query filter of the listing: active and not deleted. */
    predicate Listed() { status && !deleteflag }
  }

  /** `paymentmode = "cash"`: the default applied when the mode is absent. */
  function ModeOrCash(mode: Option<string>): string
  {
    mode.GetOr("cash")
  }

  /**
   * A freshly created record: the billing fields as given, a ledger of
   * exactly one entry for `totalPaid`, listed, stamped with `now`. No
   * overpayment check is made.
   */
  function Created(fields: Billing, totalPaid: int, mode: Option<string>, now: int): (s: RecordState)
    ensures s.billing == fields && s.Listed()
    ensures |s.totalPayments| == 1 && s.totalPayments[0].amount == totalPaid
    ensures fields.date.None? || fields.date == Some(0) ==> s.totalPayments[0].date == now
    ensures fields.date.Some? && fields.date.value != 0 ==> s.totalPayments[0].date == fields.date.value
    ensures mode.None? ==> s.totalPayments[0].mode == Some("cash")
    ensures mode.Some? ==> s.totalPayments[0].mode == mode
    ensures s.Paid() == totalPaid
    ensures s.createdAt == now && s.updatedAt == now
  {
    var entry := Payment(totalPaid, StampOf(fields.date, now), Some(ModeOrCash(mode)));
    assert Total([entry]) == entry.amount + Total([]);
    RecordState(fields, [entry], true, false, now, now)
  }

  /**
   * Adding a payment: validated against the payments already made and the
   * stored total; on acceptance one entry is appended and the record is
   * saved at `now`, nothing else changes. The entry's date is the request's
   * unless absent or zero, then `now`; its mode is stored as sent, with no
   * cash default.
   */
  function Pay(s: RecordState, amount: int, mode: Option<string>, date: Option<int>, now: int)
    : (r: Result<RecordState, Rejection>)
    ensures r.Success? <==> s.Paid() < s.billing.totalAmount && s.Paid() + amount <= s.billing.totalAmount
    ensures r.Failure? ==> Validate(s.Paid(), s.billing.totalAmount, amount) == Some(r.error)
    ensures r.Success? ==>
              var entry := Payment(amount, if date.None? || date == Some(0) then now else date.value, mode);
              r.value == s.(totalPayments := s.totalPayments + [entry], updatedAt := now)
    ensures r.Success? ==> r.value.Paid() == s.Paid() + amount <= r.value.billing.totalAmount
  {
    match Validate(s.Paid(), s.billing.totalAmount, amount)
    case Some(why) => Failure(why)
    case None =>
      var entry := Payment(amount, StampOf(date, now), mode);
      TotalAppend(s.totalPayments, entry);
      Success(s.(totalPayments := s.totalPayments + [entry], updatedAt := now))
  }

  /**
   * Updating a record: a non-zero `totalPaid` goes through the same rule as
   * `Pay` (against the stored, pre-update total) and is appended with the
   * mode defaulting to cash; then all ten billing fields are overwritten,
   * `totalAmount` included, and the record is saved at `now`.
   */
  function Update(s: RecordState, fields: Billing, totalPaid: int, mode: Option<string>, now: int)
    : (r: Result<RecordState, Rejection>)
    ensures totalPaid == 0 ==> r == Success(s.(billing := fields, updatedAt := now))
    ensures totalPaid != 0 ==>
              (r.Success? <==> s.Paid() < s.billing.totalAmount && s.Paid() + totalPaid <= s.billing.totalAmount)
    ensures r.Failure? ==> totalPaid != 0 && Validate(s.Paid(), s.billing.totalAmount, totalPaid) == Some(r.error)
    ensures r.Success? ==>
              r.value.billing == fields && r.value.updatedAt == now &&
              r.value.status == s.status && r.value.deleteflag == s.deleteflag &&
              r.value.createdAt == s.createdAt && s.totalPayments <= r.value.totalPayments
    ensures r.Success? && totalPaid != 0 ==>
              var entry := Payment(totalPaid,
                                   if fields.date.None? || fields.date == Some(0) then now else fields.date.value,
                                   if mode.None? then Some("cash") else mode);
              r.value.totalPayments == s.totalPayments + [entry] &&
              r.value.Paid() == s.Paid() + totalPaid <= s.billing.totalAmount
  {
    if totalPaid != 0 then
      match Pay(s, totalPaid, Some(ModeOrCash(mode)), fields.date, now)
      case Failure(why) => Failure(why)
      case Success(paid) => Success(paid.(billing := fields))
    else
      Success(s.(billing := fields, updatedAt := now))
  }

  /** Soft delete: inactive and deleted, saved at `now`; no data removed. */
  function SoftDeleted(s: RecordState, now: int): (d: RecordState)
    ensures !d.Listed() && !d.status && d.deleteflag
    ensures d.billing == s.billing && d.totalPayments == s.totalPayments && d.createdAt == s.createdAt
    ensures d.updatedAt == now
  {
    s.(status := false, deleteflag := true, updatedAt := now)
  }

  /** A record already fully paid refuses every payment, a zero one too. */
  lemma PayWhenFullyPaid(s: RecordState, amount: int, mode: Option<string>, date: Option<int>, now: int)
    requires s.Paid() >= s.billing.totalAmount
    ensures Pay(s, amount, mode, date, now) == Failure(AlreadyPaid)
  {
  }

  /**
   * A payment equal to the remaining amount is accepted and brings the
   * ledger exactly to the total; one unit more is refused, reporting the
   * remaining amount.
   */
  lemma PayBoundary(s: RecordState, mode: Option<string>, date: Option<int>, now: int)
    requires s.Paid() < s.billing.totalAmount
    ensures var r := Pay(s, s.billing.totalAmount - s.Paid(), mode, date, now);
            r.Success? && r.value.Paid() == r.value.billing.totalAmount
    ensures Pay(s, s.billing.totalAmount - s.Paid() + 1, mode, date, now)
            == Failure(ExceedsRemaining(s.billing.totalAmount - s.Paid()))
  {
  }

  /** One add-payment request: its body fields and the clock reading when it is handled. */
  datatype PaymentRequest = PaymentRequest(amount: int, mode: Option<string>, date: Option<int>, now: int)

  /** A run of add-payment requests, each refused one leaving the record as it was. */
  function PayAll(s: RecordState, reqs: seq<PaymentRequest>): RecordState
    decreases reqs
  {
    if reqs == [] then s
    else
      var q := reqs[0];
      var r := Pay(s, q.amount, q.mode, q.date, q.now);
      PayAll(if r.Success? then r.value else s, reqs[1..])
  }

  /** Any run of payments keeps a bounded ledger bounded and only appends to it. */
  lemma {:induction false} PayAllKeepsBound(s: RecordState, reqs: seq<PaymentRequest>)
    decreases reqs
    requires s.Paid() <= s.billing.totalAmount
    ensures PayAll(s, reqs).Paid() <= PayAll(s, reqs).billing.totalAmount
    ensures PayAll(s, reqs).billing == s.billing
    ensures s.totalPayments <= PayAll(s, reqs).totalPayments
  {
    if reqs != [] {
      var q := reqs[0];
      var r := Pay(s, q.amount, q.mode, q.date, q.now);
      PayAllKeepsBound(if r.Success? then r.value else s, reqs[1..]);
    }
  }

  /** Update with a non-zero payment refuses exactly when `Pay` would, for the same reason. */
  lemma UpdateSharesPayRule(s: RecordState, fields: Billing, totalPaid: int, mode: Option<string>, now: int)
    requires totalPaid != 0
    ensures Update(s, fields, totalPaid, mode, now).Failure? <==> Pay(s, totalPaid, mode, fields.date, now).Failure?
    ensures Update(s, fields, totalPaid, mode, now).Failure? ==>
              Update(s, fields, totalPaid, mode, now).error == Pay(s, totalPaid, mode, fields.date, now).error
  {
  }

  /**
   * Update checks the payment against the old total and then stores the
   * new one, so an update without a payment that lowers the total below
   * the paid amount is accepted and leaves the ledger above the total.
   */
  lemma UpdateCanLeaveOverpaid(s: RecordState, fields: Billing, mode: Option<string>, now: int)
    requires fields.totalAmount < s.Paid() <= s.billing.totalAmount
    ensures var r := Update(s, fields, 0, mode, now);
            r.Success? && r.value.Paid() > r.value.billing.totalAmount
  {
  }

  /** Create stores its one payment whatever the total, even above it. */
  lemma CreateSkipsCheck(fields: Billing, totalPaid: int, mode: Option<string>, now: int)
    requires totalPaid > fields.totalAmount
    ensures Created(fields, totalPaid, mode, now).Paid() > Created(fields, totalPaid, mode, now).billing.totalAmount
  {
  }

  /** Soft delete is idempotent up to the timestamp of the last save. */
  lemma SoftDeleteIdempotent(s: RecordState, t1: int, t2: int)
    ensures SoftDeleted(SoftDeleted(s, t1), t2) == SoftDeleted(s, t2)
  {
  }

  /**
   * Create with total 1000 and 300 paid, then pay 700: fully paid. A
   * further payment of 1 is refused as already paid.
   */
  lemma FullPaymentScenario(fields: Billing, now: int)
    requires fields.totalAmount == 1000
    ensures var s0 := Created(fields, 300, None, now);
            var r1 := Pay(s0, 700, Some("online"), None, now + 1);
            s0.Paid() == 300 && r1.Success? && r1.value.Paid() == 1000 &&
            Pay(r1.value, 1, None, None, now + 2) == Failure(AlreadyPaid)
  {
  }

  /** The stored document, updated in place by the handlers. */
  class Record {
    var customerName: string
    var customerPhone: string
    var customerAddress: string
    var note: Option<string>
    var hours: int
    var minutes: int
    var perHourRate: int
    var totalAmount: int
    var labourCount: int
    var date: Option<int>
    var totalPayments: seq<Payment>
    var status: bool
    var deleteflag: bool
    var createdAt: int
    var updatedAt: int

    /** The billing fields as one value. */
    function Fields(): Billing
      reads this
    {
      Billing(customerName, customerPhone, customerAddress, note, hours, minutes,
              perHourRate, totalAmount, labourCount, date)
    }

    /** The whole record as one value. */
    function State(): RecordState
      reads this
    {
      RecordState(Fields(), totalPayments, status, deleteflag, createdAt, updatedAt)
    }

    /** `createRecord`: build the document and save it at `now`. */
    constructor (fields: Billing, totalPaid: int, mode: Option<string>, now: int)
      ensures State() == Created(fields, totalPaid, mode, now)
    {
      customerName := fields.customerName;
      customerPhone := fields.customerPhone;
      customerAddress := fields.customerAddress;
      note := fields.note;
      hours := fields.hours;
      minutes := fields.minutes;
      perHourRate := fields.perHourRate;
      totalAmount := fields.totalAmount;
      labourCount := fields.labourCount;
      date := fields.date;
      totalPayments := [Payment(totalPaid, StampOf(fields.date, now), Some(ModeOrCash(mode)))];
      status, deleteflag := true, false;
      createdAt, updatedAt := now, now;
    }

    /** `record.totalPayments.push(entry)`. */
    method Push(entry: Payment)
      modifies this
      ensures State() == old(State()).(totalPayments := old(totalPayments) + [entry])
    {
      totalPayments := totalPayments + [entry];
    }

    /** Overwrite the ten billing fields. */
    method Assign(fields: Billing)
      modifies this
      ensures State() == RecordState(fields, old(totalPayments), old(status), old(deleteflag),
                                     old(createdAt), old(updatedAt))
    {
      customerName := fields.customerName;
      customerPhone := fields.customerPhone;
      customerAddress := fields.customerAddress;
      note := fields.note;
      hours := fields.hours;
      minutes := fields.minutes;
      perHourRate := fields.perHourRate;
      totalAmount := fields.totalAmount;
      labourCount := fields.labourCount;
      date := fields.date;
    }

    /** `record.save()`: the store refreshes `updatedAt`. */
    method Save(now: int)
      modifies this
      ensures State() == old(State()).(updatedAt := now)
    {
      updatedAt := now;
    }
  }
}
