/** agents/action_agent.py: the action dispatcher and its four handlers.

    Every call records the action first, dispatches on its type, and then
    writes the record's status exactly once.  The handlers only read the
    store; the random numbers they draw arrive as a `Draws` value and the
    language model as the `Model` oracle. */
module Actions {
  import opened Common
  import opened Store
  import opened Gemini

  // ---------------------------------------------------------------------
  // Results

  /** The handler-specific part of a result dictionary. */
  datatype Payload =
    | NoPayload
    | TicketData(ticketId: string, customerName: string, customerEmail: Option<string>,
                 issueSummary: Json, priority: Json, messageCount: nat, status: string)
    | EmailDraft(emailContent: string, recipient: Option<string>)
    | OrderData(orderId: Json, status: string, items: Json, total: Json)
    | ReturnData(rmaNumber: string, orderId: Json, product: Json, reason: Json,
                 returnLabel: string, instructions: string)

  /** What a handler returns: `success`, `message` and its payload. */
  datatype HandlerResult = HandlerResult(success: bool, message: string, payload: Payload)

  /** A handler either returns or raises with the exception's text. */
  datatype Outcome = Done(result: HandlerResult) | Threw(error: string)

  /** What execute_action returns: the handler's result with `action_id` added. */
  datatype ActionResult = ActionResult(success: bool, message: string, payload: Payload, actionId: nat)

  /** The values the handlers draw from `random`. */
  datatype Draws = Draws(ticket: int, rma: int, order: int, statusIndex: int)

  /** The ranges of `randint(10000, 99999)`, `randint(1000, 9999)` and
      `choice` over the four order statuses. */
  predicate InRange(d: Draws)
  {
    10000 <= d.ticket <= 99999 && 10000 <= d.rma <= 99999 &&
    1000 <= d.order <= 9999 && 0 <= d.statusIndex < |OrderStatuses|
  }

  /** The text of the TypeError raised by indexing the `None` that
      get_conversation_by_id returns for a missing conversation. */
  const NoneSubscript: string := "'NoneType' object is not subscriptable"

  /** `data.get(key, default)` */
  function Get(data: ActionData, key: string, default: Json): (v: Json)
    ensures key in data ==> v == data[key]
    ensures key !in data ==> v == default
  {
    if key in data then data[key] else default
  }

  // ---------------------------------------------------------------------
  // _create_ticket

  const DefaultSummary: string := "Customer support required"
  const DefaultPriority: string := "medium"

  function TicketId(n: nat): string
  {
    "TKT-" + Decimal(n)
  }

  /** The outcome of _create_ticket for the conversation found (if any),
      the number of its messages and the drawn ticket number.  The admin
      notification is sent inside its own try block, so its outcome never
      reaches the result and is not a parameter here. */
  function TicketOutcome(conversation: Option<ConversationInfo>, messageCount: nat, data: ActionData,
                         ticket: nat): Outcome
  {
    match conversation
    case None => Threw(NoneSubscript)
    case Some(c) =>
      var id := TicketId(ticket);
      Done(HandlerResult(
        true,
        "Support ticket " + id + " created successfully! Our team will respond within 24 hours.",
        TicketData(id, c.customerName, c.customerEmail, Get(data, "summary", JStr(DefaultSummary)),
                   Get(data, "priority", JStr(DefaultPriority)), messageCount, "open")))
  }

  method CreateTicket(db: Database, conversationId: int, data: ActionData, ticket: nat)
    returns (o: Outcome)
    requires db.Valid()
    ensures o == TicketOutcome(ConversationById(db.conversations, conversationId),
                               |MessagesOf(db.messages, conversationId)|, data, ticket)
  {
    var conversation := db.GetConversationById(conversationId);
    var messages := db.GetConversationMessages(conversationId);
    o := TicketOutcome(conversation, |messages|, data, ticket);
  }

  // ---------------------------------------------------------------------
  // _draft_email

  const DefaultPurpose: string := "Follow up on customer inquiry"
  /** Only this many of the latest messages go into the e-mail context. */
  const EmailWindow: nat := 3

  function EmailLine(m: MessageRow): string
  {
    "- " + m.sender + ": " + m.message + "\n"
  }

  function EmailLines(msgs: seq<MessageRow>): string
  {
    if msgs == [] then "" else EmailLines(msgs[..|msgs| - 1]) + EmailLine(msgs[|msgs| - 1])
  }

  /** The context _draft_email hands to the model: the customer's name,
      then the last three messages when there are any. */
  function EmailContext(customerName: string, messages: seq<MessageRow>): string
  {
    "Customer: " + customerName + "\n" +
    (if messages == [] then "" else "Recent conversation:\n" + EmailLines(LastN(messages, EmailWindow)))
  }

  method BuildEmailContext(customerName: string, messages: seq<MessageRow>) returns (context: string)
    ensures context == EmailContext(customerName, messages)
  {
    context := "Customer: " + customerName + "\n";
    if messages != [] {
      var last := LastN(messages, EmailWindow);
      context := context + "Recent conversation:\n";
      ghost var head := context;
      for i := 0 to |last|
        invariant context == head + EmailLines(last[..i])
      {
        assert last[..i + 1][..i] == last[..i];
        var line := "- " + last[i].sender + ": " + last[i].message + "\n";
        assert EmailLines(last[..i + 1]) == EmailLines(last[..i]) + line;
        context := context + line;
      }
      assert last[..|last|] == last;
    }
  }

  function EmailOutcome(model: Model, conversation: Option<ConversationInfo>, messages: seq<MessageRow>,
                        data: ActionData): Outcome
  {
    match conversation
    case None => Threw(NoneSubscript)
    case Some(c) =>
      var purpose := Get(data, "purpose", JStr(DefaultPurpose));
      Done(HandlerResult(true, "Email drafted successfully!",
                         EmailDraft(DraftEmail(model, EmailContext(c.customerName, messages), Render(purpose)),
                                    c.customerEmail)))
  }

  method DraftEmailAction(db: Database, model: Model, conversationId: int, data: ActionData)
    returns (o: Outcome)
    requires db.Valid()
    ensures o == EmailOutcome(model, ConversationById(db.conversations, conversationId),
                              MessagesOf(db.messages, conversationId), data)
  {
    var messages := db.GetConversationMessages(conversationId);
    var conversation := db.GetConversationById(conversationId);
    if conversation.None? {
      return Threw(NoneSubscript);
    }
    var context := BuildEmailContext(conversation.value.customerName, messages);
    var purpose := Get(data, "purpose", JStr(DefaultPurpose));
    var content := DraftEmail(model, context, Render(purpose));
    o := Done(HandlerResult(true, "Email drafted successfully!", EmailDraft(content, conversation.value.customerEmail)));
  }

  // ---------------------------------------------------------------------
  // _check_order

  const OrderStatuses: seq<string> := [
    "Processing - Expected ship date: Tomorrow",
    "Shipped - Tracking #: TRK123456789, Arriving in 2-3 days",
    "Out for Delivery - Expected today by 8 PM",
    "Delivered - Signed by: Resident"
  ]

  function OrderId(n: nat): string
  {
    "ORD-" + Decimal(n)
  }

  function CheckOrder(data: ActionData, order: nat, statusIndex: nat): HandlerResult
    requires statusIndex < |OrderStatuses|
  {
    var orderId := Get(data, "order_id", JStr(OrderId(order)));
    var status := OrderStatuses[statusIndex];
    HandlerResult(true, "Order " + Render(orderId) + " status: " + status,
                  OrderData(orderId, status, Get(data, "items", JStr("Product items")), Get(data, "total", JStr("$99.99"))))
  }

  // ---------------------------------------------------------------------
  // _return_product

  const ReturnInstructions: string :=
    "Print the return label and attach it to the package. Drop off at any shipping location within 30 days."

  function RmaNumber(n: nat): string
  {
    "RMA-" + Decimal(n)
  }

  function ReturnProduct(data: ActionData, rma: nat): HandlerResult
  {
    var number := RmaNumber(rma);
    HandlerResult(true, "Return authorized! RMA Number: " + number + ". Instructions sent to your email.",
                  ReturnData(number, Get(data, "order_id", JStr("N/A")), Get(data, "product", JStr("Product")),
                             Get(data, "reason", JStr("Customer request")),
                             "https://returns.example.com/" + number, ReturnInstructions))
  }

  // ---------------------------------------------------------------------
  // execute_action

  /** The action types the dispatcher knows. */
  predicate Known(actionType: string)
  {
    actionType in {"create_ticket", "draft_email", "check_order", "return_product"}
  }

  /** What the dispatch yields, from the store as the handlers read it. */
  function Dispatched(conversations: seq<ConversationRow>, messages: seq<MessageRow>, model: Model,
                      conversationId: int, actionType: string, data: ActionData, draws: Draws): Outcome
    requires InRange(draws)
  {
    if actionType == "create_ticket" then
      TicketOutcome(ConversationById(conversations, conversationId), |MessagesOf(messages, conversationId)|,
                    data, draws.ticket)
    else if actionType == "draft_email" then
      EmailOutcome(model, ConversationById(conversations, conversationId), MessagesOf(messages, conversationId), data)
    else if actionType == "check_order" then
      Done(CheckOrder(data, draws.order, draws.statusIndex))
    else if actionType == "return_product" then
      Done(ReturnProduct(data, draws.rma))
    else
      Done(HandlerResult(false, "Unknown action type: " + actionType, NoPayload))
  }

  /** The if/elif chain of execute_action. */
  method Dispatch(db: Database, model: Model, conversationId: int, actionType: string, data: ActionData,
                  draws: Draws)
    returns (o: Outcome)
    requires db.Valid()
    requires InRange(draws)
    ensures o == Dispatched(db.conversations, db.messages, model, conversationId, actionType, data, draws)
  {
    if actionType == "create_ticket" {
      o := CreateTicket(db, conversationId, data, draws.ticket);
    } else if actionType == "draft_email" {
      o := DraftEmailAction(db, model, conversationId, data);
    } else if actionType == "check_order" {
      o := Done(CheckOrder(data, draws.order, draws.statusIndex));
    } else if actionType == "return_product" {
      o := Done(ReturnProduct(data, draws.rma));
    } else {
      o := Done(HandlerResult(false, "Unknown action type: " + actionType, NoPayload));
    }
  }

  /** The result returned for an outcome, stamped with the record's id. */
  function Finish(o: Outcome, actionId: nat): ActionResult
  {
    match o
    case Done(h) => ActionResult(h.success, h.message, h.payload, actionId)
    case Threw(e) => ActionResult(false, "Error executing action: " + e, NoPayload, actionId)
  }

  /** The status written back: 'completed' iff the result reports success. */
  function StatusOf(r: ActionResult): string
  {
    if r.success then "completed" else "failed"
  }

  /** `action_data or {}` */
  function PayloadOrEmpty(actionData: Option<ActionData>): ActionData
  {
    if actionData.Some? then actionData.value else map[]
  }

  /** The handlers that read the store: the ticket and e-mail handlers
      look up the conversation and its messages. */
  predicate ReadsStore(actionType: string)
  {
    actionType in {"create_ticket", "draft_email"}
  }

  /** Which store call inside execute_action's try block raises, if any: a
      read made by the ticket or e-mail handler, or the status write after
      a handler returned.  A raising write is rolled back. */
  datatype ActionFault = Clean | HandlerReadFails(detail: string) | StatusWriteFails(detail: string)

  /** The result execute_action returns for the record `actionId`: the
      handler's result, or the error of whatever raised in the try block. */
  function Executed(conversations: seq<ConversationRow>, messages: seq<MessageRow>, model: Model,
                    conversationId: int, actionType: string, data: ActionData, draws: Draws,
                    fault: ActionFault, actionId: nat): ActionResult
    requires InRange(draws)
  {
    if fault.HandlerReadFails? && ReadsStore(actionType) then
      Finish(Threw(fault.detail), actionId)
    else
      var o := Dispatched(conversations, messages, model, conversationId, actionType, data, draws);
      if fault.StatusWriteFails? && o.Done? then Finish(Threw(fault.detail), actionId)
      else Finish(o, actionId)
  }

  /** execute_action: record the action as pending, run the handler, then
      write the status and return the result with the record's id.  When
      the status write raises it is rolled back and the except branch
      writes 'failed', so exactly one status write takes effect. */
  method Execute(db: Database, model: Model, conversationId: int, actionType: string,
                 actionData: Option<ActionData>, draws: Draws, fault: ActionFault)
    returns (r: ActionResult)
    requires db.Valid()
    requires InRange(draws)
    modifies db
    ensures db.Valid()
    ensures r == Executed(old(db.conversations), old(db.messages), model, conversationId, actionType,
                          PayloadOrEmpty(actionData), draws, fault, |old(db.actions)| + 1)
    ensures db.actions == old(db.actions)
      + [ActionRow(r.actionId, conversationId, actionType, PayloadOrEmpty(actionData), StatusOf(r), old(db.clock))]
    ensures db.statusWrites == old(db.statusWrites) + [(r.actionId, StatusOf(r))]
    ensures db.documents == old(db.documents) && db.conversations == old(db.conversations)
    ensures db.messages == old(db.messages)
  {
    var data := PayloadOrEmpty(actionData);
    var actionId := db.CreateAction(conversationId, actionType, data);
    ghost var recorded := db.actions;
    var outcome;
    if fault.HandlerReadFails? && ReadsStore(actionType) {
      outcome := Threw(fault.detail);
    } else {
      outcome := Dispatch(db, model, conversationId, actionType, data, draws);
    }
    match outcome {
      case Done(h) =>
        if fault.StatusWriteFails? {
          db.UpdateActionStatus(actionId, "failed");
          r := ActionResult(false, "Error executing action: " + fault.detail, NoPayload, actionId);
        } else {
          var status := if h.success then "completed" else "failed";
          db.UpdateActionStatus(actionId, status);
          r := ActionResult(h.success, h.message, h.payload, actionId);
        }
      case Threw(e) =>
        db.UpdateActionStatus(actionId, "failed");
        r := ActionResult(false, "Error executing action: " + e, NoPayload, actionId);
    }
    RecordLifecycle(old(db.actions), recorded[|recorded| - 1], StatusOf(r));
  }

  // ---------------------------------------------------------------------
  // Properties

  /** The status update after dispatch touches only the row this call
      appended: the earlier rows keep their ids apart from it. */
  lemma RecordLifecycle(rows: seq<ActionRow>, row: ActionRow, status: string)
    requires forall i :: 0 <= i < |rows| ==> rows[i].id != row.id
    ensures SetActionStatus(rows + [row], row.id, status) == rows + [row.(status := status)]
  {
    var updated := SetActionStatus(rows + [row], row.id, status);
    assert forall i :: 0 <= i < |rows| ==> updated[i] == rows[i];
  }

  /** A prefix followed by a `k`-digit number: `k` more characters, and
      the digits read back as the number. */
  lemma PrefixedNumber(prefix: string, n: nat, k: nat)
    requires k >= 1 && Pow10(k - 1) <= n < Pow10(k)
    ensures |prefix + Decimal(n)| == |prefix| + k
    ensures (prefix + Decimal(n))[..|prefix|] == prefix
    ensures AllDigits((prefix + Decimal(n))[|prefix|..])
    ensures ParseDecimal((prefix + Decimal(n))[|prefix|..]) == n
  {
    DecimalWidth(n, k);
    DecimalRoundTrip(n);
    assert (prefix + Decimal(n))[|prefix|..] == Decimal(n);
  }

  /** _check_order always succeeds.  The order id is the supplied one, or
      'ORD-' and four digits reading back as the drawn number; the status
      is one of the four fixed ones; items and total have their defaults. */
  lemma CheckOrderShape(data: ActionData, draws: Draws)
    requires InRange(draws)
    ensures var r := CheckOrder(data, draws.order, draws.statusIndex);
      r.success && r.payload.OrderData? && r.payload.status in OrderStatuses &&
      ("order_id" in data ==> r.payload.orderId == data["order_id"]) &&
      ("order_id" !in data ==>
        r.payload.orderId.JStr? && var id := r.payload.orderId.s;
        |id| == 8 && id[..4] == "ORD-" && AllDigits(id[4..]) && ParseDecimal(id[4..]) == draws.order) &&
      ("items" !in data ==> r.payload.items == JStr("Product items")) &&
      ("total" !in data ==> r.payload.total == JStr("$99.99"))
  {
    assert Pow10(3) == 1000 && Pow10(4) == 10000;
    PrefixedNumber("ORD-", draws.order, 4);
  }

  /** _return_product always succeeds.  The RMA number is 'RMA-' and five
      digits reading back as the drawn number, the label is that number
      appended to the returns URL, and the defaults fill the missing fields. */
  lemma ReturnShape(data: ActionData, draws: Draws)
    requires InRange(draws)
    ensures var r := ReturnProduct(data, draws.rma);
      r.success && r.payload.ReturnData? &&
      var number := r.payload.rmaNumber;
      |number| == 9 && number[..4] == "RMA-" && AllDigits(number[4..]) && ParseDecimal(number[4..]) == draws.rma &&
      r.payload.returnLabel == "https://returns.example.com/" + number &&
      ("order_id" !in data ==> r.payload.orderId == JStr("N/A")) &&
      ("product" !in data ==> r.payload.product == JStr("Product")) &&
      ("reason" !in data ==> r.payload.reason == JStr("Customer request"))
  {
    assert Pow10(4) == 10000 && Pow10(5) == 100000;
    PrefixedNumber("RMA-", draws.rma, 5);
  }

  /** _create_ticket succeeds whenever the conversation exists: the ticket
      id is 'TKT-' and five digits, the ticket is open, counts the
      conversation's messages, and priority and summary have defaults. */
  lemma TicketShape(conversation: Option<ConversationInfo>, messageCount: nat, data: ActionData, draws: Draws)
    requires InRange(draws) && conversation.Some?
    ensures var o := TicketOutcome(conversation, messageCount, data, draws.ticket);
      o.Done? && o.result.success && o.result.payload.TicketData? &&
      var t := o.result.payload;
      |t.ticketId| == 9 && t.ticketId[..4] == "TKT-" && AllDigits(t.ticketId[4..]) &&
      ParseDecimal(t.ticketId[4..]) == draws.ticket &&
      t.status == "open" && t.messageCount == messageCount &&
      t.customerName == conversation.value.customerName && t.customerEmail == conversation.value.customerEmail &&
      ("priority" !in data ==> t.priority == JStr("medium")) &&
      ("summary" !in data ==> t.issueSummary == JStr("Customer support required"))
  {
    assert Pow10(4) == 10000 && Pow10(5) == 100000;
    PrefixedNumber("TKT-", draws.ticket, 5);
  }

  /** An unrecognised type is still recorded, fails with its own message,
      and leaves the record 'failed'. */
  lemma UnknownTypeFails(conversations: seq<ConversationRow>, messages: seq<MessageRow>, model: Model,
                         conversationId: int, actionType: string, data: ActionData, draws: Draws, actionId: nat)
    requires InRange(draws) && !Known(actionType)
    ensures var r := Finish(Dispatched(conversations, messages, model, conversationId, actionType, data, draws), actionId);
      r == ActionResult(false, "Unknown action type: " + actionType, NoPayload, actionId) && StatusOf(r) == "failed"
  {
  }

  /** Ticket and e-mail handlers index the missing conversation and raise;
      the exception becomes a failed result and a 'failed' record. */
  lemma MissingConversationFails(conversations: seq<ConversationRow>, messages: seq<MessageRow>, model: Model,
                                 conversationId: int, actionType: string, data: ActionData, draws: Draws,
                                 actionId: nat)
    requires InRange(draws) && actionType in {"create_ticket", "draft_email"}
    requires ConversationById(conversations, conversationId).None?
    ensures var r := Finish(Dispatched(conversations, messages, model, conversationId, actionType, data, draws), actionId);
      r == ActionResult(false, "Error executing action: " + NoneSubscript, NoPayload, actionId) &&
      StatusOf(r) == "failed"
  {
  }

  /** The four known handlers succeed whenever they do not raise, so a
      record ends 'completed' exactly when its type is known and the
      handler returned. */
  lemma CompletedIffHandled(conversations: seq<ConversationRow>, messages: seq<MessageRow>, model: Model,
                            conversationId: int, actionType: string, data: ActionData, draws: Draws,
                            actionId: nat)
    requires InRange(draws)
    ensures var o := Dispatched(conversations, messages, model, conversationId, actionType, data, draws);
      StatusOf(Finish(o, actionId)) == "completed" <==> Known(actionType) && o.Done?
  {
    var o := Dispatched(conversations, messages, model, conversationId, actionType, data, draws);
    if !Known(actionType) {
      assert !o.result.success;
    } else if o.Done? {
      assert o.result.success;
    }
  }

  /** Without a store fault the result is the handler's, finished. */
  lemma CleanRunIsDispatched(conversations: seq<ConversationRow>, messages: seq<MessageRow>, model: Model,
                             conversationId: int, actionType: string, data: ActionData, draws: Draws,
                             actionId: nat)
    requires InRange(draws)
    ensures Executed(conversations, messages, model, conversationId, actionType, data, draws, Clean, actionId)
      == Finish(Dispatched(conversations, messages, model, conversationId, actionType, data, draws), actionId)
  {
  }

  /** A raising status write turns even a successful handler's result into
      a failure with the store's error, and the record ends 'failed'. */
  lemma StatusWriteFailureFails(conversations: seq<ConversationRow>, messages: seq<MessageRow>, model: Model,
                                conversationId: int, actionType: string, data: ActionData, draws: Draws,
                                detail: string, actionId: nat)
    requires InRange(draws)
    ensures var r := Executed(conversations, messages, model, conversationId, actionType, data, draws,
                              StatusWriteFails(detail), actionId);
      StatusOf(r) == "failed" &&
      (Dispatched(conversations, messages, model, conversationId, actionType, data, draws).Done? ==>
         r == ActionResult(false, "Error executing action: " + detail, NoPayload, actionId))
  {
  }

  /** Under any store fault, a record ends 'completed' exactly when its
      type is known, its handler returned, no read of it raised and the
      status write went through. */
  lemma CompletedIffHandledUnderFaults(conversations: seq<ConversationRow>, messages: seq<MessageRow>,
                                       model: Model, conversationId: int, actionType: string, data: ActionData,
                                       draws: Draws, fault: ActionFault, actionId: nat)
    requires InRange(draws)
    ensures var r := Executed(conversations, messages, model, conversationId, actionType, data, draws, fault, actionId);
      StatusOf(r) == "completed" <==>
        Known(actionType) && Dispatched(conversations, messages, model, conversationId, actionType, data, draws).Done?
        && !(fault.HandlerReadFails? && ReadsStore(actionType)) && !fault.StatusWriteFails?
  {
    CompletedIffHandled(conversations, messages, model, conversationId, actionType, data, draws, actionId);
  }

  /** Only the ticket and e-mail handlers can raise, and only for a
      conversation that does not exist. */
  lemma RaisesIffMissing(conversations: seq<ConversationRow>, messages: seq<MessageRow>, model: Model,
                         conversationId: int, actionType: string, data: ActionData, draws: Draws)
    requires InRange(draws)
    ensures Dispatched(conversations, messages, model, conversationId, actionType, data, draws).Threw? <==>
      actionType in {"create_ticket", "draft_email"} && ConversationById(conversations, conversationId).None?
  {
  }

  /** The e-mail context depends only on the last three messages. */
  lemma EmailSeesLastThree(customerName: string, a: seq<MessageRow>, b: seq<MessageRow>)
    requires a != [] && b != [] && LastN(a, EmailWindow) == LastN(b, EmailWindow)
    ensures EmailContext(customerName, a) == EmailContext(customerName, b)
  {
  }
}
