/** The backend's payment reminders: creation by the shopkeeper who owns
    the credit record, marking one reminder sent, the bulk send over a
    shopkeeper's overdue records, and the role-filtered listing. */
module Reminders {
  import opened Common
  import opened CreditLedger
  import opened FieldChecks

  datatype Reminder = Reminder(
    id: nat,
    creditRecord: nat,
    customer: nat,
    message: string,
    scheduledDate: int,
    sent: bool,
    sentDate: Option<int>)

  /** The credit record a reminder points at, if it exists. */
  function RecordOf(credits: seq<CreditRow>, id: nat): (r: Option<CreditRow>)
    ensures r.Some? ==> r.value in credits && r.value.id == id
    ensures r.None? <==> forall k :: 0 <= k < |credits| ==> credits[k].id != id
  {
    var i := FirstIndex(credits, (c: CreditRow) => c.id == id);
    if i < 0 then None else Some(credits[i])
  }

  /** The join `credit_record__shopkeeper=user`. */
  predicate OnShopOf(credits: seq<CreditRow>, r: Reminder, shopkeeper: nat)
  {
    RecordOf(credits, r.creditRecord).Some? && RecordOf(credits, r.creditRecord).value.shopkeeper == shopkeeper
  }

  /** `get_queryset` of the list and detail views: a customer's own
      reminders, the reminders on a shopkeeper's credit records, and
      nothing for any other account type. */
  function VisibleReminders(rows: seq<Reminder>, user: User, credits: seq<CreditRow>): (r: seq<Reminder>)
    ensures user.userType == OtherType ==> r == []
    ensures forall x :: x in r <==> (x in rows &&
      ((user.userType == Customer && x.customer == user.id)
       || (user.userType == Shopkeeper && OnShopOf(credits, x, user.id))))
  {
    match user.userType
    case Customer => Filter(rows, (x: Reminder) => x.customer == user.id)
    case Shopkeeper => Filter(rows, (x: Reminder) => OnShopOf(credits, x, user.id))
    case OtherType => []
  }

  /** The body `ReminderCreateSerializer` accepts. */
  datatype ReminderRequest = ReminderRequest(creditRecord: nat, message: string, scheduledDate: int)

  /** `ReminderCreateSerializer`: the credit record must exist, and the
      message, a text field, must not be blank; it is kept stripped. */
  function ValidateReminder(req: ReminderRequest, credits: seq<CreditRow>): (r: Validated<ReminderRequest>)
    ensures r.Valid? <==> RecordOf(credits, req.creditRecord).Some? && Strip(req.message) != []
    ensures r.Valid? ==> r.value == req.(message := Strip(req.message))
    ensures r.Invalid? ==>
      && FieldsOf(r.errors) == (if RecordOf(credits, req.creditRecord).Some? then [] else ["credit_record"])
                               + (if Strip(req.message) != [] then [] else ["message"])
      && (RecordOf(credits, req.creditRecord).None? ==>
            ErrorOf(r.errors, "credit_record") == Some(Messages([InvalidPkError(req.creditRecord)])))
      && (Strip(req.message) == [] ==> ErrorOf(r.errors, "message") == Some(Messages([BLANK_ERROR])))
  {
    var record := if RecordOf(credits, req.creditRecord).Some? then Ok(req.creditRecord)
                  else Err(InvalidPkError(req.creditRecord));
    var message := CheckText(req.message, false, None);
    if record.Ok? && message.Ok? then Valid(req.(message := message.value))
    else
      CollectTwo(("credit_record", Report(record)), ("message", Report(message)));
      Invalid(Collect([("credit_record", Report(record)), ("message", Report(message))]))
  }

  /** The rupee sign as the bulk message spells it: the three characters
      that the UTF-8 bytes of U+20B9 become when read as Windows-1252. */
  const GARBLED_RUPEE := "\U{00E2}\U{201A}\U{00B9}"

  /** The bulk message for one overdue record; `dateText` renders a due
      date the way `str()` renders a Python `date`. */
  function BulkMessage(c: CreditRow, dateText: int -> string): string
  {
    "Payment reminder: " + GARBLED_RUPEE + MoneyText(c.remainingAmount)
      + " is overdue for payment. Due date was " + dateText(c.dueDate) + "."
  }

  /** The message names both the remaining amount and the due date. */
  lemma BulkMessageMentions(c: CreditRow, dateText: int -> string)
    ensures Contains(BulkMessage(c, dateText), MoneyText(c.remainingAmount))
    ensures Contains(BulkMessage(c, dateText), dateText(c.dueDate))
  {
    var amount := MoneyText(c.remainingAmount);
    var date := dateText(c.dueDate);
    var head := "Payment reminder: " + GARBLED_RUPEE;
    var middle := " is overdue for payment. Due date was ";
    assert BulkMessage(c, dateText) == head + amount + (middle + date + ".");
    ContainsMiddle(head, amount, middle + date + ".");
    assert BulkMessage(c, dateText) == (head + amount + middle) + date + ".";
    ContainsMiddle(head + amount + middle, date, ".");
  }

  /** The reminder the bulk send creates for one overdue record: already
      sent, addressed to the record's customer, scheduled and sent now. */
  function BulkReminder(id: nat, c: CreditRow, now: int, dateText: int -> string): (r: Reminder)
    ensures r.sent && r.sentDate == Some(now)
    ensures r.creditRecord == c.id && r.customer == c.customer
  {
    Reminder(id, c.id, c.customer, BulkMessage(c, dateText), now, true, Some(now))
  }

  /** The response of a bulk send: its summary line and the reminders. */
  datatype BulkResult = BulkResult(message: string, reminders: seq<Reminder>)

  /** The reminder table. */
  class ReminderBook {
    var rows: seq<Reminder>

    constructor (rows: seq<Reminder>)
      ensures this.rows == rows
    {
      this.rows := rows;
    }

    /** `ReminderListCreateView.create`: shopkeepers only; the body is
        validated, then the credit record must be the caller's; the
        reminder's customer is copied from the record and it starts unsent. */
    method Create(user: User, req: ReminderRequest, credits: seq<CreditRow>, id: nat) returns (reply: Reply<Reminder>)
      modifies this
      ensures !reply.Success? ==> rows == old(rows)
      ensures user.userType != Shopkeeper ==>
        reply == Failure(FORBIDDEN, "Only shopkeepers can create reminders.")
      ensures user.userType == Shopkeeper && ValidateReminder(req, credits).Invalid? ==>
        reply == Rejected(BAD_REQUEST, ValidateReminder(req, credits).errors)
      ensures user.userType == Shopkeeper && ValidateReminder(req, credits).Valid?
              && RecordOf(credits, req.creditRecord).value.shopkeeper != user.id ==>
        reply == Failure(FORBIDDEN, "You can only create reminders for your own credit records.")
      ensures reply.Success? <==>
        user.userType == Shopkeeper && ValidateReminder(req, credits).Valid?
        && RecordOf(credits, req.creditRecord).value.shopkeeper == user.id
      ensures reply.Success? ==>
        && reply.code == CREATED
        && reply.body == Reminder(id, req.creditRecord, RecordOf(credits, req.creditRecord).value.customer,
                                  Strip(req.message), req.scheduledDate, false, None)
        && rows == old(rows) + [reply.body]
    {
      if user.userType != Shopkeeper {
        return Failure(FORBIDDEN, "Only shopkeepers can create reminders.");
      }
      var v := ValidateReminder(req, credits);
      if v.Invalid? {
        return Rejected(BAD_REQUEST, v.errors);
      }
      var record := RecordOf(credits, req.creditRecord).value;
      if record.shopkeeper != user.id {
        return Failure(FORBIDDEN, "You can only create reminders for your own credit records.");
      }
      var reminder := Reminder(id, req.creditRecord, record.customer, v.value.message, req.scheduledDate, false, None);
      rows := rows + [reminder];
      reply := Success(CREATED, reminder);
    }

    /** `send_reminder`: a shopkeeper marks a reminder on one of their own
        credit records as sent now; nothing else about it changes. */
    method Send(user: User, id: nat, credits: seq<CreditRow>, now: int) returns (reply: Reply<Reminder>)
      modifies this
      ensures !reply.Success? ==> rows == old(rows)
      ensures user.userType != Shopkeeper ==>
        reply == Failure(FORBIDDEN, "Only shopkeepers can send reminders.")
      ensures reply.Success? <==> (user.userType == Shopkeeper &&
        exists k :: 0 <= k < |old(rows)| && old(rows)[k].id == id && OnShopOf(credits, old(rows)[k], user.id))
      ensures user.userType == Shopkeeper && !reply.Success? ==>
        reply == Failure(NOT_FOUND, "Reminder not found.")
      ensures reply.Success? ==>
        exists i :: 0 <= i < |old(rows)| && old(rows)[i].id == id && OnShopOf(credits, old(rows)[i], user.id)
          && reply == Success(OK, old(rows)[i].(sent := true, sentDate := Some(now)))
          && rows == old(rows)[i := reply.body]
    {
      if user.userType != Shopkeeper {
        return Failure(FORBIDDEN, "Only shopkeepers can send reminders.");
      }
      var i := FirstIndex(rows, (x: Reminder) => x.id == id && OnShopOf(credits, x, user.id));
      if i < 0 {
        return Failure(NOT_FOUND, "Reminder not found.");
      }
      var reminder := rows[i].(sent := true, sentDate := Some(now));
      rows := rows[i := reminder];
      reply := Success(OK, reminder);
    }

    /** `send_bulk_reminders`: for a shopkeeper, one new sent reminder per
        credit record of theirs whose stored status is overdue, in record
        order, whether or not the record already has reminders; the
        summary counts exactly the reminders created. Ids are handed out
        from `firstId` on. */
    method SendBulk(user: User, credits: seq<CreditRow>, now: int, firstId: nat, dateText: int -> string)
      returns (reply: Reply<BulkResult>)
      modifies this
      ensures user.userType != Shopkeeper ==>
        reply == Failure(FORBIDDEN, "Only shopkeepers can send bulk reminders.") && rows == old(rows)
      ensures user.userType == Shopkeeper ==>
        var overdue := OverdueCredits(credits, user);
        && reply.Success? && reply.code == OK
        && |reply.body.reminders| == |overdue|
        && (forall k :: 0 <= k < |overdue| ==>
              reply.body.reminders[k] == BulkReminder(firstId + k, overdue[k], now, dateText))
        && reply.body.message == "Sent " + NatToString(|reply.body.reminders|) + " reminders"
        && rows == old(rows) + reply.body.reminders
    {
      if user.userType != Shopkeeper {
        return Failure(FORBIDDEN, "Only shopkeepers can send bulk reminders.");
      }
      var overdue := OverdueCredits(credits, user);
      var created: seq<Reminder> := [];
      var i := 0;
      while i < |overdue|
        invariant 0 <= i <= |overdue|
        invariant |created| == i
        invariant forall k :: 0 <= k < i ==> created[k] == BulkReminder(firstId + k, overdue[k], now, dateText)
        invariant rows == old(rows) + created
      {
        var credit := overdue[i];
        var message := BulkMessage(credit, dateText);
        var reminder := Reminder(firstId + i, credit.id, credit.customer, message, now, true, Some(now));
        rows := rows + [reminder];
        created := created + [reminder];
        i := i + 1;
      }
      reply := Success(OK, BulkResult("Sent " + NatToString(|created|) + " reminders", created));
    }
  }

  /** Every reminder a bulk send creates is sent now and belongs to the
      matching overdue record of the shopkeeper, addressed to its customer. */
  lemma {:induction false} BulkRemindersFromOverdue(user: User, credits: seq<CreditRow>, overdue: seq<CreditRow>,
                                                    created: seq<Reminder>, firstId: nat, now: int, dateText: int -> string)
    requires user.userType == Shopkeeper && overdue == OverdueCredits(credits, user)
    requires |created| == |overdue|
    requires forall k :: 0 <= k < |created| ==> created[k] == BulkReminder(firstId + k, overdue[k], now, dateText)
    ensures forall k :: 0 <= k < |created| ==> created[k].sent && created[k].sentDate == Some(now)
    ensures forall k :: 0 <= k < |created| ==>
      && overdue[k] in credits && overdue[k].status == Overdue && overdue[k].shopkeeper == user.id
      && created[k].creditRecord == overdue[k].id && created[k].customer == overdue[k].customer
  {
    forall k | 0 <= k < |created|
      ensures overdue[k] in credits && overdue[k].status == Overdue && overdue[k].shopkeeper == user.id
    {
      assert overdue[k] in overdue;
    }
  }

  /** Each of the shopkeeper's overdue records gets a reminder from a bulk
      send. */
  lemma {:induction false} BulkCoversOverdue(overdue: seq<CreditRow>, created: seq<Reminder>,
                                             firstId: nat, now: int, dateText: int -> string)
    requires |created| == |overdue|
    requires forall k :: 0 <= k < |created| ==> created[k] == BulkReminder(firstId + k, overdue[k], now, dateText)
    ensures forall c :: c in overdue ==>
      exists r :: r in created && r.creditRecord == c.id && r.customer == c.customer
  {
    forall c | c in overdue
      ensures exists r :: r in created && r.creditRecord == c.id && r.customer == c.customer
    {
      var k :| 0 <= k < |overdue| && overdue[k] == c;
      assert created[k] in created;
    }
  }
}
