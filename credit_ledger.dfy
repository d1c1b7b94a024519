/** The backend's credit ledger: a credit record owed by a customer to a
    shopkeeper, the payments made against it, the derivation of its
    remaining balance and status on every save, and the views that list
    records, create them and accept payments. Amounts are integer paise
    (the model's decimal fields have two decimal places, so they are exact);
    dates are day numbers and "today" is a parameter. */
module CreditLedger {
  import opened Common
  import opened FieldChecks

  datatype CreditStatus = Pending | Overdue | Paid

  /** The value stored in the `status` column. */
  function StatusName(s: CreditStatus): string
  {
    match s
    case Pending => "pending"
    case Overdue => "overdue"
    case Paid => "paid"
  }

  datatype PaymentMethod = Cash | Card | Upi | OtherMethod

  /** The value stored in the `payment_method` column. */
  function MethodName(m: PaymentMethod): string
  {
    match m
    case Cash => "cash"
    case Card => "card"
    case Upi => "upi"
    case OtherMethod => "other"
  }

  /** The choice field `payment_method`: one of the four stored values,
      read as the method stored under that name, or a validation error. */
  function ParseMethod(s: string): (r: Option<PaymentMethod>)
    ensures r.None? <==> s !in {"cash", "card", "upi", "other"}
    ensures r.Some? ==> MethodName(r.value) == s
  {
    if s == "cash" then Some(Cash)
    else if s == "card" then Some(Card)
    else if s == "upi" then Some(Upi)
    else if s == "other" then Some(OtherMethod)
    else None
  }

  /** Every method is read back from its stored name. */
  lemma MethodNamesRoundTrip(m: PaymentMethod)
    ensures ParseMethod(MethodName(m)) == Some(m)
  {
  }

  datatype Payment = Payment(amount: int, paymentMethod: PaymentMethod, notes: string)

  function Amount(p: Payment): int { p.amount }

  /** `sum(p.amount for p in credit.payments.all())`. */
  function PaymentsTotal(ps: seq<Payment>): int
  {
    SumOf(ps, Amount)
  }

  lemma PaymentsTotalAppend(ps: seq<Payment>, p: Payment)
    ensures PaymentsTotal(ps + [p]) == PaymentsTotal(ps) + p.amount
  {
    assert (ps + [p])[..|ps + [p]| - 1] == ps;
  }

  /** A credit record as a value: what the record serializer returns and
      what the list queries filter. */
  datatype CreditRow = CreditRow(
    id: nat,
    customer: nat,
    shopkeeper: nat,
    totalAmount: int,
    paidAmount: int,
    remainingAmount: int,
    dueDate: int,
    status: CreditStatus,
    payments: seq<Payment>)

  /** What `CreditRecord.save` does to a row before writing it: the
      remaining balance becomes total minus paid, and the status is `paid`
      when nothing (or less than nothing) remains, `overdue` when the due
      date is strictly before today, and `pending` otherwise. */
  function Resaved(row: CreditRow, today: int): (r: CreditRow)
    ensures r.remainingAmount == row.totalAmount - row.paidAmount
    ensures r.status == Paid <==> r.remainingAmount <= 0
    ensures r.status == Overdue <==> 0 < r.remainingAmount && row.dueDate < today
    ensures r.status == Pending <==> 0 < r.remainingAmount && today <= row.dueDate
    ensures r.(remainingAmount := row.remainingAmount, status := row.status) == row
  {
    var remaining := row.totalAmount - row.paidAmount;
    var status :=
      if remaining <= 0 then Paid
      else if row.dueDate < today then Overdue
      else Pending;
    row.(remainingAmount := remaining, status := status)
  }

  /** Saving reads only the total, the paid amount, the due date and the
      day, so a second save on the same day changes nothing. */
  lemma ResavedIdempotent(row: CreditRow, today: int)
    ensures Resaved(Resaved(row, today), today) == Resaved(row, today)
  {
  }

  /** The invariant every saved record keeps once its payments have been
      summed: paid is the sum of the payments, remaining is total minus paid,
      and the status is `paid` exactly when nothing remains. */
  predicate Reconciled(row: CreditRow)
  {
    && row.paidAmount == PaymentsTotal(row.payments)
    && row.remainingAmount == row.totalAmount - row.paidAmount
    && (row.status == Paid <==> row.remainingAmount <= 0)
  }

  /** `Payment.save`: the payment row is written, the parent's paid amount
      is recomputed as the sum of all its payments (not incremented), and
      the parent is saved again. */
  function AfterPayment(row: CreditRow, p: Payment, today: int): (r: CreditRow)
    ensures r.payments == row.payments + [p]
    ensures r.paidAmount == PaymentsTotal(row.payments + [p])
    ensures Reconciled(r)
  {
    var ps := row.payments + [p];
    Resaved(row.(payments := ps, paidAmount := PaymentsTotal(ps)), today)
  }

  /** On a reconciled record one more payment raises paid and lowers
      remaining by exactly its amount; an amount within the remaining
      balance never drives the balance below zero. */
  lemma {:induction false} PaymentMovesBalance(row: CreditRow, p: Payment, today: int)
    requires Reconciled(row)
    ensures AfterPayment(row, p, today).paidAmount == row.paidAmount + p.amount
    ensures AfterPayment(row, p, today).remainingAmount == row.remainingAmount - p.amount
    ensures p.amount <= row.remainingAmount ==> AfterPayment(row, p, today).remainingAmount >= 0
  {
    PaymentsTotalAppend(row.payments, p);
  }

  /** A record saved for the first time: `paid_amount` takes its default 0,
      so the remaining balance is the whole total. */
  function NewRow(id: nat, customer: nat, shopkeeper: nat, total: int, dueDate: int, today: int): (r: CreditRow)
    ensures r.paidAmount == 0 && r.payments == []
    ensures r.remainingAmount == total
    ensures Reconciled(r)
    ensures r.customer == customer && r.shopkeeper == shopkeeper && r.dueDate == dueDate
  {
    Resaved(CreditRow(id, customer, shopkeeper, total, 0, total, dueDate, Pending, []), today)
  }

  /** A credit record instance; `Save` and `RecordPayment` overwrite its
      fields as the Django model's `save` methods do. */
  class CreditRecord {
    var id: nat
    var customer: nat
    var shopkeeper: nat
    var totalAmount: int
    var paidAmount: int
    var remainingAmount: int
    var dueDate: int
    var status: CreditStatus
    var payments: seq<Payment>

    function Row(): CreditRow
      reads this
    {
      CreditRow(id, customer, shopkeeper, totalAmount, paidAmount, remainingAmount, dueDate, status, payments)
    }

    /** `CreditRecord.objects.create(...)`: the fields given, then a save. */
    constructor Create(id: nat, customer: nat, shopkeeper: nat, total: int, dueDate: int, today: int)
      ensures Row() == NewRow(id, customer, shopkeeper, total, dueDate, today)
    {
      this.id := id;
      this.customer := customer;
      this.shopkeeper := shopkeeper;
      this.totalAmount := total;
      this.paidAmount := 0;
      this.remainingAmount := total;
      this.dueDate := dueDate;
      this.payments := [];
      this.status := if total <= 0 then Paid else if dueDate < today then Overdue else Pending;
    }

    /** `CreditRecord.save`. */
    method Save(today: int)
      modifies this
      ensures Row() == Resaved(old(Row()), today)
    {
      remainingAmount := totalAmount - paidAmount;
      if remainingAmount <= 0 {
        status := Paid;
      } else if dueDate < today {
        status := Overdue;
      } else {
        status := Pending;
      }
    }

    /** `Payment.save` for a new payment of this record. */
    method RecordPayment(p: Payment, today: int)
      modifies this
      ensures Row() == AfterPayment(old(Row()), p, today)
    {
      payments := payments + [p];
      paidAmount := PaymentsTotal(payments);
      Save(today);
    }
  }

  // ---------------------------------------------------------------------
  // Serializers

  /** `validate_amount` of both payment serializers. */
  function ValidateAmount(value: int): (r: Result<int>)
    ensures r.Ok? <==> value > 0
    ensures r.Ok? ==> r.value == value
    ensures r.Err? ==> r.message == "Payment amount must be positive."
  {
    if value <= 0 then Err("Payment amount must be positive.") else Ok(value)
  }

  /** `CreditRecordCreateSerializer.validate_total_amount`. */
  function ValidateTotalAmount(value: int): (r: Result<int>)
    ensures r.Ok? <==> value > 0
    ensures r.Ok? ==> r.value == value
    ensures r.Err? ==> r.message == "Total amount must be positive."
  {
    if value <= 0 then Err("Total amount must be positive.") else Ok(value)
  }

  /** The body `make_payment` accepts: the create serializer's only fields
      are `amount`, `payment_method` and `notes`, so nothing else of the
      record can be set by a payment request. */
  datatype PaymentRequest = PaymentRequest(amount: int, paymentMethod: Option<string>, notes: Option<string>)

  /** The `payment_method` field: cash when left out, else one of the
      choices. */
  function MethodField(v: Option<string>): (r: Result<PaymentMethod>)
    ensures r.Ok? <==> v.None? || ParseMethod(v.value).Some?
    ensures v.None? ==> r == Ok(Cash)
    ensures v.Some? && r.Ok? ==> r == Ok(ParseMethod(v.value).value)
    ensures r.Err? ==> r.message == ChoiceError(v.value)
  {
    if v.None? then Ok(Cash)
    else if ParseMethod(v.value).None? then Err(ChoiceError(v.value))
    else Ok(ParseMethod(v.value).value)
  }

  /** `PaymentCreateSerializer` validation, field by field: `amount` (ten
      digits at most, then `validate_amount`), `payment_method`, and
      `notes` (optional, blank allowed, stored stripped). Every failing
      field is reported, so an amount of -1 paid by "bitcoin" is refused
      on both counts. */
  function ValidatePayment(req: PaymentRequest): (r: Validated<Payment>)
    ensures r.Valid? <==> 0 < req.amount < MONEY_BOUND && MethodField(req.paymentMethod).Ok?
    ensures r.Valid? ==> r.value == Payment(req.amount, MethodField(req.paymentMethod).value,
                                             if req.notes.Some? then Strip(req.notes.value) else "")
    ensures r.Invalid? ==>
      && FieldsOf(r.errors) == (if 0 < req.amount < MONEY_BOUND then [] else ["amount"])
                               + (if MethodField(req.paymentMethod).Ok? then [] else ["payment_method"])
      && (-MONEY_BOUND < req.amount <= 0 ==>
            ErrorOf(r.errors, "amount") == Some(Messages(["Payment amount must be positive."])))
      && (!(-MONEY_BOUND < req.amount < MONEY_BOUND) ==>
            ErrorOf(r.errors, "amount") == Some(Messages([CheckMoney(req.amount).message])))
      && (MethodField(req.paymentMethod).Err? ==>
            ErrorOf(r.errors, "payment_method") == Some(Messages([ChoiceError(req.paymentMethod.value)])))
  {
    var amount := Then(CheckMoney(req.amount), ValidateAmount);
    var paymentMethod := MethodField(req.paymentMethod);
    var notes := if req.notes.Some? then CheckText(req.notes.value, true, None).value else "";
    if amount.Ok? && paymentMethod.Ok? then Valid(Payment(amount.value, paymentMethod.value, notes))
    else
      CollectTwo(("amount", Report(amount)), ("payment_method", Report(paymentMethod)));
      Invalid(Collect([("amount", Report(amount)), ("payment_method", Report(paymentMethod))]))
  }

  /** A payment of a positive amount that fits, by a listed method, with
      notes that have no surrounding white space, is valid exactly as sent. */
  lemma ListedPaymentValid(amount: int, name: string, notes: string)
    requires 0 < amount < MONEY_BOUND && ParseMethod(name).Some?
    requires notes != [] ==> !IsPySpace(notes[0]) && !IsPySpace(notes[|notes| - 1])
    ensures ValidatePayment(PaymentRequest(amount, Some(name), Some(notes)))
      == Valid(Payment(amount, ParseMethod(name).value, notes))
  {
    var req := PaymentRequest(amount, Some(name), Some(notes));
    assert MethodField(req.paymentMethod) == Ok(ParseMethod(name).value);
    StripUnpadded(notes);
    assert ValidatePayment(req).Valid?;
  }

  /** The body `create` accepts: `paid_amount`, `remaining_amount` and
      `status` are read-only, so a client cannot set them. */
  datatype CreditRequest = CreditRequest(customer: nat, totalAmount: int, dueDate: int)

  /** `CreditRecordCreateSerializer` validation: `customer` must be the id
      of a customer account (the foreign key's `limit_choices_to` narrows
      the field's queryset), `total_amount` must fit ten digits and pass
      `validate_total_amount`; both fields are reported when both fail. */
  function ValidateCredit(req: CreditRequest, customers: set<nat>): (r: Validated<CreditRequest>)
    ensures r.Valid? <==> req.customer in customers && 0 < req.totalAmount < MONEY_BOUND
    ensures r.Valid? ==> r.value == req
    ensures r.Invalid? ==>
      && FieldsOf(r.errors) == (if req.customer in customers then [] else ["customer"])
                               + (if 0 < req.totalAmount < MONEY_BOUND then [] else ["total_amount"])
      && (req.customer !in customers ==>
            ErrorOf(r.errors, "customer") == Some(Messages([InvalidPkError(req.customer)])))
      && (-MONEY_BOUND < req.totalAmount <= 0 ==>
            ErrorOf(r.errors, "total_amount") == Some(Messages(["Total amount must be positive."])))
      && (!(-MONEY_BOUND < req.totalAmount < MONEY_BOUND) ==>
            ErrorOf(r.errors, "total_amount") == Some(Messages([CheckMoney(req.totalAmount).message])))
  {
    var customer := if req.customer in customers then Ok(req.customer) else Err(InvalidPkError(req.customer));
    var total := Then(CheckMoney(req.totalAmount), ValidateTotalAmount);
    if customer.Ok? && total.Ok? then Valid(req)
    else
      CollectTwo(("customer", Report(customer)), ("total_amount", Report(total)));
      Invalid(Collect([("customer", Report(customer)), ("total_amount", Report(total))]))
  }

  // ---------------------------------------------------------------------
  // Views

  /** The ownership test of `make_payment`: a customer must be the record's
      customer, a shopkeeper its shopkeeper; other account types are not
      checked. */
  predicate MayPayOn(user: User, row: CreditRow)
  {
    && (user.userType == Customer ==> row.customer == user.id)
    && (user.userType == Shopkeeper ==> row.shopkeeper == user.id)
  }

  const PAYMENT_FORBIDDEN := "You do not have permission to make payments on this credit record."

  /** The decision `make_payment` takes on an existing record: 403 for a
      record the caller does not own, 400 with the serializer's field
      errors for an invalid body, 400 for an amount above the remaining
      balance (the comparison is strict, so paying the whole balance is
      accepted), and otherwise the payment to record. */
  function PaymentDecision(user: User, row: CreditRow, req: PaymentRequest): (r: Reply<Payment>)
    ensures r.Success? <==>
      MayPayOn(user, row) && ValidatePayment(req).Valid? && req.amount <= row.remainingAmount
    ensures r.Success? ==> r.code == CREATED && r.body == ValidatePayment(req).value
    ensures !MayPayOn(user, row) ==> r == Failure(FORBIDDEN, PAYMENT_FORBIDDEN)
    ensures MayPayOn(user, row) && ValidatePayment(req).Invalid? ==>
      r == Rejected(BAD_REQUEST, ValidatePayment(req).errors)
    ensures MayPayOn(user, row) && ValidatePayment(req).Valid? && req.amount > row.remainingAmount ==>
      r == Failure(BAD_REQUEST, "Payment amount exceeds remaining amount of \U{20B9}" + MoneyText(row.remainingAmount))
  {
    if !MayPayOn(user, row) then Failure(FORBIDDEN, PAYMENT_FORBIDDEN)
    else
      var v := ValidatePayment(req);
      if v.Invalid? then Rejected(BAD_REQUEST, v.errors)
      else if req.amount > row.remainingAmount then
        Failure(BAD_REQUEST, "Payment amount exceeds remaining amount of \U{20B9}" + MoneyText(row.remainingAmount))
      else Success(CREATED, v.value)
  }

  /** Every accepted payment is positive and within the balance, so on a
      reconciled record with a non-negative balance the balance stays
      non-negative and paid never exceeds the total. */
  lemma {:induction false} AcceptedPaymentKeepsLedger(user: User, row: CreditRow, req: PaymentRequest, today: int)
    requires Reconciled(row) && row.remainingAmount >= 0
    requires PaymentDecision(user, row, req).Success?
    ensures var after := AfterPayment(row, PaymentDecision(user, row, req).body, today);
      && Reconciled(after)
      && after.paidAmount == row.paidAmount + req.amount
      && after.remainingAmount == row.remainingAmount - req.amount
      && 0 <= after.remainingAmount < row.remainingAmount
      && after.paidAmount <= after.totalAmount
      && (after.status == Paid <==> req.amount == row.remainingAmount)
  {
    PaymentMovesBalance(row, PaymentDecision(user, row, req).body, today);
  }

  /** `make_payment`: 404 when there is no record with the requested id
      (`record` is null), otherwise the decision above; on success exactly
      one payment is added to the record and the updated record returned,
      on failure the record is left as it was. */
  method MakePayment(user: User, record: CreditRecord?, req: PaymentRequest, today: int)
    returns (reply: Reply<CreditRow>)
    modifies record
    ensures record == null ==> reply == Failure(NOT_FOUND, "Not found.")
    ensures record != null ==>
      var d := PaymentDecision(user, old(record.Row()), req);
      && (d.Failure? ==> reply == Failure(d.code, d.error))
      && (d.Rejected? ==> reply == Rejected(d.code, d.errors))
      && (!d.Success? ==> record.Row() == old(record.Row()))
      && (d.Success? ==> record.Row() == AfterPayment(old(record.Row()), d.body, today)
                         && reply == Success(CREATED, record.Row()))
  {
    if record == null {
      return Failure(NOT_FOUND, "Not found.");
    }
    var d := PaymentDecision(user, record.Row(), req);
    if !d.Success? {
      return match d
        case Failure(code, error) => Failure(code, error)
        case Rejected(code, errors) => Rejected(code, errors)
        case _ => Crashed(SERVER_ERROR);
    }
    record.RecordPayment(d.body, today);
    reply := Success(CREATED, record.Row());
  }

  /** The decision of `CreditRecordListCreateView.create`: only shopkeepers
      may create records; the body must pass the create serializer; the
      creator becomes the record's shopkeeper. */
  function CreationDecision(user: User, req: CreditRequest, customers: set<nat>, id: nat, today: int)
    : (r: Reply<CreditRow>)
    ensures r.Success? <==>
      user.userType == Shopkeeper && req.customer in customers && 0 < req.totalAmount < MONEY_BOUND
    ensures user.userType != Shopkeeper ==>
      r == Failure(FORBIDDEN, "Only shopkeepers can create credit records.")
    ensures user.userType == Shopkeeper && ValidateCredit(req, customers).Invalid? ==>
      r == Rejected(BAD_REQUEST, ValidateCredit(req, customers).errors)
    ensures r.Success? ==>
      && r.code == CREATED
      && r.body.shopkeeper == user.id && r.body.customer == req.customer
      && r.body.totalAmount == req.totalAmount && r.body.dueDate == req.dueDate
      && r.body.paidAmount == 0 && r.body.remainingAmount == req.totalAmount && r.body.payments == []
      && (r.body.status == Overdue <==> req.dueDate < today)
      && (r.body.status == Pending <==> today <= req.dueDate)
  {
    if user.userType != Shopkeeper then Failure(FORBIDDEN, "Only shopkeepers can create credit records.")
    else
      var v := ValidateCredit(req, customers);
      if v.Invalid? then Rejected(BAD_REQUEST, v.errors)
      else Success(CREATED, NewRow(id, req.customer, user.id, req.totalAmount, req.dueDate, today))
  }

  /** `create` itself: on success a new record object saved as decided. */
  method CreateCreditRecord(user: User, req: CreditRequest, customers: set<nat>, id: nat, today: int)
    returns (reply: Reply<CreditRecord>)
    ensures var d := CreationDecision(user, req, customers, id, today);
      && (d.Failure? ==> reply == Failure(d.code, d.error))
      && (d.Rejected? ==> reply == Rejected(d.code, d.errors))
      && (d.Success? ==> reply.Success? && reply.code == CREATED && fresh(reply.body) && reply.body.Row() == d.body)
  {
    var d := CreationDecision(user, req, customers, id, today);
    if d.Failure? {
      return Failure(d.code, d.error);
    }
    if d.Rejected? {
      return Rejected(d.code, d.errors);
    }
    var record := new CreditRecord.Create(id, req.customer, user.id, req.totalAmount, req.dueDate, today);
    reply := Success(CREATED, record);
  }

  /** The rows `CreditRecordListCreateView.get_queryset` lets a user see:
      their own as customer or as shopkeeper, and every row for any other
      account type (this view has no empty fallback). */
  predicate ListedFor(user: User, row: CreditRow)
  {
    match user.userType
    case Customer => row.customer == user.id
    case Shopkeeper => row.shopkeeper == user.id
    case OtherType => true
  }

  /** `get_queryset` with the optional `status` query parameter; an empty
      or missing parameter applies no status filter. */
  function ListCredits(rows: seq<CreditRow>, user: User, statusFilter: string): (r: seq<CreditRow>)
    ensures forall x :: x in r <==>
      x in rows && ListedFor(user, x) && (statusFilter == "" || StatusName(x.status) == statusFilter)
    ensures statusFilter !in {"", "pending", "overdue", "paid"} ==> r == []
  {
    var r := Filter(rows, (x: CreditRow) =>
      ListedFor(user, x) && (statusFilter == "" || StatusName(x.status) == statusFilter));
    assert r != [] ==> StatusName(r[0].status) in {"pending", "overdue", "paid"};
    r
  }

  /** `overdue_credits`: the caller's records whose stored status is
      `overdue`; nothing for an account that is neither role. */
  function OverdueCredits(rows: seq<CreditRow>, user: User): (r: seq<CreditRow>)
    ensures forall x :: x in r <==>
      (x in rows && x.status == Overdue &&
       ((user.userType == Shopkeeper && x.shopkeeper == user.id) ||
        (user.userType == Customer && x.customer == user.id)))
    ensures user.userType == OtherType ==> r == []
  {
    match user.userType
    case Shopkeeper => Filter(rows, (x: CreditRow) => x.shopkeeper == user.id && x.status == Overdue)
    case Customer => Filter(rows, (x: CreditRow) => x.customer == user.id && x.status == Overdue)
    case OtherType => []
  }
}
