/** The client's ledger screens: the credit-record list (its status
    filter, its totals, the payment-amount guard and which buttons a record
    offers) and the reminders screen (the overdue and "due soon" lists, the
    day counts, the reminder text and the bulk send). */
module LedgerViews {
  import opened Common
  import opened CreditLedger
  import opened MockStore
  import opened FieldChecks

  // ---------------------------------------------------------------------
  // Credit records screen

  /** The filter tabs `all`, `pending`, `overdue`, `paid`. */
  datatype StatusFilter = All | Only(status: CreditStatus)

  function HasStatus(s: CreditStatus): CreditRow -> bool
  {
    (c: CreditRow) => c.status == s
  }

  /** `getFilteredRecords`: every record for `all`, otherwise the records
      with exactly that status, in list order. */
  function FilteredRecords(records: seq<CreditRow>, filter: StatusFilter): (r: seq<CreditRow>)
    ensures filter.All? ==> r == records
    ensures filter.Only? ==> forall c :: c in r <==> c in records && c.status == filter.status
    ensures |r| <= |records|
  {
    if filter.All? then records else Filter(records, HasStatus(filter.status))
  }

  function RemainingOf(c: CreditRow): int
  {
    c.remainingAmount
  }

  function PaidOf(c: CreditRow): int
  {
    c.paidAmount
  }

  function TotalOf(c: CreditRow): int
  {
    c.totalAmount
  }

  /** The three figures above the list. */
  datatype Stats = Stats(totalOutstanding: int, totalPaid: int, count: nat)

  /** `getTotalStats`: outstanding and paid summed over the filtered list,
      and its length. */
  function TotalStats(records: seq<CreditRow>, filter: StatusFilter): (r: Stats)
    ensures r.count <= |records|
    ensures filter.All? ==> r.count == |records|
  {
    var shown := FilteredRecords(records, filter);
    Stats(SumOf(shown, RemainingOf), SumOf(shown, PaidOf), |shown|)
  }

  /** Appending a record adds it to the sum and the length of its own
      status's sub-list only. */
  lemma StatusAppend(init: seq<CreditRow>, last: CreditRow, s: CreditStatus, f: CreditRow -> int)
    ensures var before := Filter(init, HasStatus(s));
      var after := Filter(init + [last], HasStatus(s));
      && SumOf(after, f) == SumOf(before, f) + (if last.status == s then f(last) else 0)
      && |after| == |before| + (if last.status == s then 1 else 0)
  {
    var before := Filter(init, HasStatus(s));
    FilterAppend(init, [last], HasStatus(s));
    assert [last][1..] == [];
    if last.status == s {
      assert Filter([last], HasStatus(s)) == [last];
      assert (before + [last])[..|before|] == before;
    } else {
      assert Filter([last], HasStatus(s)) == [];
      assert before + [] == before;
    }
  }

  /** Splitting a list by status splits any sum over it. */
  lemma {:induction false} SumByStatus(records: seq<CreditRow>, f: CreditRow -> int)
    ensures SumOf(records, f) ==
      SumOf(Filter(records, HasStatus(Pending)), f)
      + SumOf(Filter(records, HasStatus(Overdue)), f)
      + SumOf(Filter(records, HasStatus(Paid)), f)
    ensures |records| ==
      |Filter(records, HasStatus(Pending))| + |Filter(records, HasStatus(Overdue))| + |Filter(records, HasStatus(Paid))|
  {
    if records != [] {
      var n := |records| - 1;
      var init := records[..n];
      var last := records[n];
      assert records == init + [last];
      SumByStatus(init, f);
      StatusAppend(init, last, Pending, f);
      StatusAppend(init, last, Overdue, f);
      StatusAppend(init, last, Paid, f);
    }
  }

  /** The `all` tab's figures are the sums of the three status tabs'. */
  lemma StatsPartition(records: seq<CreditRow>)
    ensures var all := TotalStats(records, All);
      var p := TotalStats(records, Only(Pending));
      var o := TotalStats(records, Only(Overdue));
      var d := TotalStats(records, Only(Paid));
      && all.totalOutstanding == p.totalOutstanding + o.totalOutstanding + d.totalOutstanding
      && all.totalPaid == p.totalPaid + o.totalPaid + d.totalPaid
      && all.count == p.count + o.count + d.count
  {
    SumByStatus(records, RemainingOf);
    SumByStatus(records, PaidOf);
  }

  /** On records the backend has saved (remaining is total minus paid),
      outstanding plus paid is the total lent, whatever the tab. */
  lemma {:induction false} StatsBalance(records: seq<CreditRow>, filter: StatusFilter)
    requires forall k :: 0 <= k < |records| ==> Reconciled(records[k])
    ensures var st := TotalStats(records, filter);
      st.totalOutstanding + st.totalPaid == SumOf(FilteredRecords(records, filter), TotalOf)
  {
    var shown := FilteredRecords(records, filter);
    forall k | 0 <= k < |shown|
      ensures Reconciled(shown[k])
    {
      assert shown[k] in records;
    }
    SumsBalance(shown);
  }

  lemma {:induction false} SumsBalance(rows: seq<CreditRow>)
    requires forall k :: 0 <= k < |rows| ==> Reconciled(rows[k])
    ensures SumOf(rows, RemainingOf) + SumOf(rows, PaidOf) == SumOf(rows, TotalOf)
  {
    if rows != [] {
      SumsBalance(rows[..|rows| - 1]);
      assert Reconciled(rows[|rows| - 1]);
    }
  }

  /** What `parseFloat` makes of the amount box: a number (in paise) or
      NaN. */
  datatype Parsed = NaN | Num(paise: int)

  /** The request the screen sends to the payment endpoint. */
  datatype PaymentSubmission = PaymentSubmission(record: nat, amount: Parsed, paymentMethod: string, notes: string)

  const ENTER_AMOUNT := "Please enter a valid payment amount"
  const INVALID_AMOUNT := "Invalid payment amount"

  /** `handlePayment` as written: no record or an empty box is refused,
      then a number at most zero or above the remaining amount; paying
      exactly the remaining amount is allowed. Both comparisons are false
      for NaN, so text that is not a number is sent on. */
  function HandlePayment(selected: Option<CreditRow>, input: string, parse: string -> Parsed): (r: Result<PaymentSubmission>)
    ensures selected.None? || input == "" ==> r == Err(ENTER_AMOUNT)
    ensures selected.Some? && input != "" && parse(input).Num?
            && (parse(input).paise <= 0 || parse(input).paise > selected.value.remainingAmount) ==>
      r == Err(INVALID_AMOUNT)
    ensures r.Ok? <==> (selected.Some? && input != "" &&
      (parse(input).NaN? || 0 < parse(input).paise <= selected.value.remainingAmount))
    ensures r.Ok? ==> r.value == PaymentSubmission(selected.value.id, parse(input), "cash", "Payment via app")
  {
    if selected.None? || input == "" then Err(ENTER_AMOUNT)
    else
      var amount := parse(input);
      if amount.Num? && (amount.paise <= 0 || amount.paise > selected.value.remainingAmount) then Err(INVALID_AMOUNT)
      else Ok(PaymentSubmission(selected.value.id, amount, "cash", "Payment via app"))
  }

  /** The guard lets through any non-empty text that does not parse as a
      number, and submits NaN as the amount. */
  lemma NaNPassesGuard(record: CreditRow, input: string, parse: string -> Parsed)
    requires input != "" && parse(input).NaN?
    ensures HandlePayment(Some(record), input, parse) == Ok(PaymentSubmission(record.id, NaN, "cash", "Payment via app"))
  {
  }

  /** `handlePayment` as evidently intended: a NaN amount is refused like
      any other invalid one. */
  function HandlePaymentChecked(selected: Option<CreditRow>, input: string, parse: string -> Parsed): (r: Result<PaymentSubmission>)
    ensures selected.None? || input == "" ==> r == Err(ENTER_AMOUNT)
    ensures r.Ok? <==> (selected.Some? && input != "" &&
      parse(input).Num? && 0 < parse(input).paise <= selected.value.remainingAmount)
    ensures r.Ok? ==> r.value == PaymentSubmission(selected.value.id, parse(input), "cash", "Payment via app")
    ensures r.Err? && selected.Some? && input != "" ==> r == Err(INVALID_AMOUNT)
  {
    if selected.None? || input == "" then Err(ENTER_AMOUNT)
    else
      var amount := parse(input);
      if amount.NaN? || amount.paise <= 0 || amount.paise > selected.value.remainingAmount then Err(INVALID_AMOUNT)
      else Ok(PaymentSubmission(selected.value.id, amount, "cash", "Payment via app"))
  }

  /** The corrected guard differs from the written one only on NaN. */
  lemma CheckedAgreesOnNumbers(selected: Option<CreditRow>, input: string, parse: string -> Parsed)
    requires parse(input).Num?
    ensures HandlePaymentChecked(selected, input, parse) == HandlePayment(selected, input, parse)
  {
  }

  /** A payment the corrected guard passes is one the backend accepts from
      the record's owner: positive, in cash, and within the balance. The
      balance is taken to fit the ten-digit amount fields, as that of every
      record the backend creates does. */
  lemma {:induction false} CheckedPaymentAccepted(user: User, row: CreditRow, input: string, parse: string -> Parsed)
    requires MayPayOn(user, row) && row.remainingAmount < MONEY_BOUND
    requires HandlePaymentChecked(Some(row), input, parse).Ok?
    ensures var s := HandlePaymentChecked(Some(row), input, parse).value;
      var reply := PaymentDecision(user, row, PaymentRequest(s.amount.paise, Some(s.paymentMethod), Some(s.notes)));
      && reply.Success?
      && reply.body == Payment(s.amount.paise, Cash, "Payment via app")
  {
    var s := HandlePaymentChecked(Some(row), input, parse).value;
    assert s == PaymentSubmission(row.id, parse(input), "cash", "Payment via app");
    AppPaymentAccepted(user, row, s.amount.paise);
  }

  /** The body the screen sends, with a positive amount within a balance
      that fits the amount fields, is accepted from the record's owner. */
  lemma AppPaymentAccepted(user: User, row: CreditRow, amount: int)
    requires MayPayOn(user, row) && 0 < amount <= row.remainingAmount < MONEY_BOUND
    ensures var reply := PaymentDecision(user, row, PaymentRequest(amount, Some("cash"), Some("Payment via app")));
      && reply.Success?
      && reply.body == Payment(amount, Cash, "Payment via app")
  {
    AppBodyValid(amount);
  }

  /** The screen's fixed method and notes pass the serializer as sent. */
  lemma AppBodyValid(amount: int)
    requires 0 < amount < MONEY_BOUND
    ensures ValidatePayment(PaymentRequest(amount, Some("cash"), Some("Payment via app")))
      == Valid(Payment(amount, Cash, "Payment via app"))
  {
    var notes := "Payment via app";
    assert !IsPySpace(notes[0]) && !IsPySpace(notes[|notes| - 1]);
    assert ParseMethod("cash") == Some(Cash);
    ListedPaymentValid(amount, "cash", notes);
  }

  /** "Make Payment" is offered to customers on records not yet paid. */
  predicate ShowsPayButton(userType: UserType, c: CreditRow)
  {
    c.status != Paid && userType == Customer
  }

  /** "Send Reminder" is offered to shopkeepers on overdue records. */
  predicate ShowsReminderButton(userType: UserType, c: CreditRow)
  {
    c.status != Paid && userType == Shopkeeper && c.status == Overdue
  }

  /** No record offers both buttons; a paid record offers neither. */
  lemma ButtonsExclusive(userType: UserType, c: CreditRow)
    ensures !(ShowsPayButton(userType, c) && ShowsReminderButton(userType, c))
    ensures c.status == Paid ==> !ShowsPayButton(userType, c) && !ShowsReminderButton(userType, c)
    ensures ShowsReminderButton(userType, c) <==> userType == Shopkeeper && c.status == Overdue
  {
  }

  // ---------------------------------------------------------------------
  // Reminders screen

  const DAY_MS := 24 * 60 * 60 * 1000
  const WEEK_MS := 7 * DAY_MS

  /** `Math.ceil(x / d)` for a positive divisor. A quotient that is not
      whole lies at least 1/d from the next whole number. For a day in
      milliseconds, a quotient below 2^26 (about 6.7 * 10^7 days) is
      rounded by less than that, so the floating-point division never
      lands on a whole number and the ceiling is exact. */
  function CeilDiv(x: int, d: int): (r: int)
    requires d > 0
    ensures d * (r - 1) < x <= d * r
  {
    var q := (-x) / d;
    assert -x == d * q + (-x) % d;
    -q
  }

  /** `getDaysOverdue`. */
  function DaysOverdue(now: int, due: int): int
  {
    CeilDiv(now - due, DAY_MS)
  }

  /** `getDaysUntilDue`. */
  function DaysUntilDue(now: int, due: int): int
  {
    CeilDiv(due - now, DAY_MS)
  }

  /** Something due in the coming week is due in 1 to 7 days. */
  lemma DaysUntilWithinWeek(now: int, due: int)
    requires now < due <= now + WEEK_MS
    ensures 1 <= DaysUntilDue(now, due) <= 7
  {
  }

  /** Something past due is at least one day overdue. */
  lemma DaysOverdueAtLeastOne(now: int, due: int)
    requires due < now
    ensures DaysOverdue(now, due) >= 1
  {
  }

  /** The "due soon" test of `loadReminders`, the same for both roles. */
  predicate DueSoon(c: ClientCredit, now: int)
  {
    c.status == Pending && c.dueDate <= now + WEEK_MS && c.dueDate > now
  }

  /** `loadReminders`: from the store's overdue list, a shopkeeper keeps
      the records of their shop and anyone else the records where they
      are the customer; from the user's own records, those due soon. */
  function LoadReminders(allOverdue: seq<ClientCredit>, userRecords: seq<ClientCredit>,
                         userId: nat, userType: UserType, now: int): (r: (seq<ClientCredit>, seq<ClientCredit>))
    ensures userType == Shopkeeper ==> forall c :: c in r.0 <==> c in allOverdue && c.shopkeeperId == userId
    ensures userType != Shopkeeper ==> forall c :: c in r.0 <==> c in allOverdue && c.customerId == userId
    ensures forall c :: c in r.1 <==> c in userRecords && DueSoon(c, now)
  {
    var overdue := if userType == Shopkeeper then Filter(allOverdue, (c: ClientCredit) => c.shopkeeperId == userId)
                   else Filter(allOverdue, (c: ClientCredit) => c.customerId == userId);
    (overdue, Filter(userRecords, (c: ClientCredit) => DueSoon(c, now)))
  }

  /** Fed from the data service, the screen's overdue list holds only the
      user's own unpaid, past-due records, each at least a day overdue; its
      "due soon" list holds records due in 1 to 7 days; and no record is on
      both lists. */
  lemma {:induction false} ReminderLists(ds: DataService, userId: nat, userType: UserType, now: int)
    ensures var lists := LoadReminders(ds.GetOverdueCreditRecords(now), ds.GetCreditRecords(userId, userType),
                                       userId, userType, now);
      && (forall c :: c in lists.0 ==>
            && c in ds.credits && c.status == Pending && c.remainingAmount > 0
            && (if userType == Shopkeeper then c.shopkeeperId == userId else c.customerId == userId)
            && DaysOverdue(now, c.dueDate) >= 1)
      && (forall c :: c in lists.1 ==> c in ds.credits && 1 <= DaysUntilDue(now, c.dueDate) <= 7)
      && (forall c :: c in lists.0 ==> c !in lists.1)
  {
    var lists := LoadReminders(ds.GetOverdueCreditRecords(now), ds.GetCreditRecords(userId, userType),
                               userId, userType, now);
    forall c | c in lists.0
      ensures DaysOverdue(now, c.dueDate) >= 1
    {
      DaysOverdueAtLeastOne(now, c.dueDate);
    }
    forall c | c in lists.1
      ensures 1 <= DaysUntilDue(now, c.dueDate) <= 7
    {
      DaysUntilWithinWeek(now, c.dueDate);
    }
  }

  /** `sendReminder`'s text; `currency` and `dateText` render an amount and
      a date as the screen does. */
  function ReminderMessage(c: ClientCredit, currency: int -> string, dateText: int -> string): string
  {
    "Dear " + c.customerName + ", you have a pending payment of " + currency(c.remainingAmount)
      + " that was due on " + dateText(c.dueDate) + ". Please make the payment at your earliest convenience."
  }

  /** The reminder names the customer, the amount and the due date. */
  lemma ReminderMessageMentions(c: ClientCredit, currency: int -> string, dateText: int -> string)
    ensures Contains(ReminderMessage(c, currency, dateText), c.customerName)
    ensures Contains(ReminderMessage(c, currency, dateText), currency(c.remainingAmount))
    ensures Contains(ReminderMessage(c, currency, dateText), dateText(c.dueDate))
  {
    var name := c.customerName;
    var amount := currency(c.remainingAmount);
    var date := dateText(c.dueDate);
    var s1 := "Dear " + name;
    var s2 := s1 + ", you have a pending payment of " + amount;
    var s3 := s2 + " that was due on " + date;
    var tail := ". Please make the payment at your earliest convenience.";
    assert ReminderMessage(c, currency, dateText) == s3 + tail;
    ContainsSuffix("Dear ", name);
    ContainsExtend(s1, ", you have a pending payment of " + amount, name);
    assert s2 == s1 + (", you have a pending payment of " + amount);
    ContainsSuffix(s1 + ", you have a pending payment of ", amount);
    ContainsExtend(s2, " that was due on " + date, name);
    ContainsExtend(s2, " that was due on " + date, amount);
    assert s3 == s2 + (" that was due on " + date);
    ContainsSuffix(s2 + " that was due on ", date);
    ContainsExtend(s3, tail, name);
    ContainsExtend(s3, tail, amount);
    ContainsExtend(s3, tail, date);
  }

  /** What pressing "Send All Reminders" leads to. */
  datatype BulkOutcome =
    | NothingOverdue(message: string)
    | Declined(prompt: string)
    | Sent(prompt: string, notices: seq<string>, summary: string)

  /** `sendBulkReminders`: nothing to do without overdue records;
      otherwise the user is asked, and on "Send All" one notice per
      overdue record is logged and the count reported. */
  function SendBulkReminders(overdue: seq<ClientCredit>, confirmed: bool, currency: int -> string): (r: BulkOutcome)
    ensures overdue == [] <==> r == NothingOverdue("There are no overdue payments to remind about.")
    ensures overdue != [] && !confirmed ==>
      r == Declined("Send payment reminders to " + NatToString(|overdue|) + " customers with overdue payments?")
    ensures r.Sent? <==> overdue != [] && confirmed
    ensures r.Sent? ==>
      && |r.notices| == |overdue|
      && (forall k :: 0 <= k < |overdue| ==>
            r.notices[k] == "Reminder sent to " + overdue[k].customerName + " for " + currency(overdue[k].remainingAmount))
      && r.summary == "Reminders sent to " + NatToString(|overdue|) + " customers"
  {
    if |overdue| == 0 then NothingOverdue("There are no overdue payments to remind about.")
    else
      var prompt := "Send payment reminders to " + NatToString(|overdue|) + " customers with overdue payments?";
      if !confirmed then Declined(prompt)
      else
        var notices := seq(|overdue|, k requires 0 <= k < |overdue| =>
          "Reminder sent to " + overdue[k].customerName + " for " + currency(overdue[k].remainingAmount));
        Sent(prompt, notices, "Reminders sent to " + NatToString(|overdue|) + " customers")
  }

  /** The bulk button shows only for a shopkeeper with overdue records. */
  predicate ShowsBulkButton(userType: UserType, overdue: seq<ClientCredit>)
  {
    userType == Shopkeeper && |overdue| > 0
  }

  function RemainingOfClient(c: ClientCredit): int
  {
    c.remainingAmount
  }

  /** The "Total Overdue" figure. */
  function TotalOverdue(overdue: seq<ClientCredit>): int
  {
    SumOf(overdue, RemainingOfClient)
  }

  /** Every record of the overdue list still owes something, so the total
      is at least one paise per record, and positive exactly when the list
      is not empty. */
  lemma {:induction false} TotalOverdueCounts(overdue: seq<ClientCredit>)
    requires forall k :: 0 <= k < |overdue| ==> overdue[k].remainingAmount > 0
    ensures TotalOverdue(overdue) >= |overdue|
    ensures TotalOverdue(overdue) > 0 <==> overdue != []
  {
    if overdue != [] {
      TotalOverdueCounts(overdue[..|overdue| - 1]);
    }
  }
}
