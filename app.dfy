/** app.py: the decisions the HTTP routes make around the agents and the
    store — which uploads are allowed, which request bodies are refused,
    when a chat message triggers an action, and which status a deletion
    answers with.

    A request body arrives as the fields the route reads, each `None`
    when the key is absent. */
module App {
  import opened Common
  import opened Store
  import Chat
  import Gemini
  import Actions
  import Documents

  // ---------------------------------------------------------------------
  // allowed_file

  const AllowedExtensions: set<string> := {"pdf", "txt", "docx", "csv", "json", "md", "xml", "xlsx", "xls"}

  predicate AllowedFile(filename: string)
  {
    '.' in filename && Lower(filename[LastIndex(filename, '.') + 1..]) in AllowedExtensions
  }

  /** The upload check admits exactly the names the document agent has an
      extractor for. */
  lemma AllowedIffRouted(filename: string)
    ensures AllowedFile(filename) <==> Documents.FormatOf(Documents.Extension(filename)).Some?
  {
    Documents.RoutedIffSupported(Documents.Extension(filename));
    assert AllowedExtensions == Documents.SupportedExtensions;
  }

  /** An allowed name has a non-empty extension after its last '.'. */
  lemma AllowedHasExtension(filename: string)
    requires AllowedFile(filename)
    ensures '.' in filename && filename[|filename| - 1] != '.'
  {
    var i := LastIndex(filename, '.');
    assert Lower(filename[i + 1..]) != "";
  }

  // ---------------------------------------------------------------------
  // start_conversation

  datatype StartBody = StartBody(customerName: Option<string>, customerEmail: Option<string>, language: Option<string>)

  /** A route's answer: 200 with a value, or an error status and message. */
  datatype Reply<T> = Ok(value: T) | Err(status: nat, error: string)

  datatype Started = Started(conversationId: nat, language: string)

  /** `data.get('language', 'en')` */
  function LanguageOrDefault(body: StartBody): string
  {
    if body.language.Some? then body.language.value else "en"
  }

  method StartConversation(db: Database, body: StartBody) returns (r: Reply<Started>)
    requires db.Valid()
    modifies db
    ensures db.Valid()
    ensures body.customerName.None? ==> r == Err(400, "customer_name is required") && unchanged(db)
    ensures body.customerName.Some? ==>
      r == Ok(Started(|old(db.conversations)| + 1, LanguageOrDefault(body)))
      && db.conversations == old(db.conversations)
        + [ConversationRow(|old(db.conversations)| + 1, body.customerName.value, body.customerEmail,
                           LanguageOrDefault(body), old(db.clock), "active", None)]
      && db.documents == old(db.documents) && db.messages == old(db.messages)
      && db.actions == old(db.actions) && db.statusWrites == old(db.statusWrites)
  {
    if body.customerName.None? {
      return Err(400, "customer_name is required");
    }
    var language := if body.language.Some? then body.language.value else "en";
    var id := db.CreateConversation(body.customerName.value, body.customerEmail, language);
    r := Ok(Started(id, language));
  }

  // ---------------------------------------------------------------------
  // send_message

  datatype SendBody = SendBody(conversationId: Option<int>, message: Option<string>)

  datatype ActionTaken = ActionTaken(actionType: string, result: Actions.ActionResult)

  datatype SendReply =
    | Answered(aiResponse: string, sourceDocuments: seq<string>, actionTaken: Option<ActionTaken>)
    | ChatFailed(response: string, error: string)
    | SendRejected(error: string)

  /** The HTTP status send_message answers with. */
  function SendStatus(r: SendReply): nat
  {
    if r.Answered? then 200 else 400
  }

  /** An action runs only for a specific intent detected with more than
      low confidence. */
  predicate ShouldDispatch(c: Gemini.Classification)
  {
    c.intent != Gemini.FallbackIntent && c.confidence != "low"
  }

  function EntitiesJson(entities: map<string, string>): Json
  {
    JObj(map k | k in entities :: JStr(entities[k]))
  }

  /** The action data send_message passes: the message, the intent and
      the entities nested under one key. */
  function ActionDataFor(userMessage: string, c: Gemini.Classification): (data: ActionData)
    ensures data.Keys == {"user_message", "intent", "entities"}
  {
    map["user_message" := JStr(userMessage), "intent" := JStr(c.intent), "entities" := EntitiesJson(c.entities)]
  }

  /** generate_response, as the chat agent is handed it. */
  function Responder(model: Model): Chat.Responder
  {
    (m, d, h, l) => Gemini.ReplyFor(model, m, d, h, l)
  }

  /** How dispatching the classification `c` changes the actions table
      and its status-write log, given the action agent's result `res`:
      nothing when the gate is closed; otherwise one record for the intent
      with the chat's payload, created at `clock` and ending in the
      status of `res`, one effective status write, and `action_taken`
      holding `res` exactly when it succeeded. */
  ghost predicate ActionsRecorded(before: seq<ActionRow>, after: seq<ActionRow>,
                                  writesBefore: seq<(int, string)>, writesAfter: seq<(int, string)>, clock: nat,
                                  conversationId: int, userMessage: string, c: Gemini.Classification,
                                  res: Actions.ActionResult, taken: Option<ActionTaken>)
  {
    (!ShouldDispatch(c) ==> taken.None? && after == before && writesAfter == writesBefore)
    && (ShouldDispatch(c) ==>
          after == before
            + [ActionRow(|before| + 1, conversationId, c.intent, ActionDataFor(userMessage, c), Actions.StatusOf(res), clock)]
          && writesAfter == writesBefore + [(|before| + 1, Actions.StatusOf(res))]
          && taken == (if res.success then Some(ActionTaken(c.intent, res)) else None))
  }

  /** The action agent's result for the dispatched intent, given the
      tables it reads. */
  function DispatchResult(conversations: seq<ConversationRow>, messages: seq<MessageRow>, model: Model,
                          conversationId: int, userMessage: string, c: Gemini.Classification, draws: Actions.Draws,
                          actionFault: Actions.ActionFault, actionId: nat): Actions.ActionResult
    requires Actions.InRange(draws)
  {
    Actions.Executed(conversations, messages, model, conversationId, c.intent, ActionDataFor(userMessage, c), draws,
                     actionFault, actionId)
  }

  /** Dispatching the detected intent, if the gate lets it through, and
      the `action_taken` entry the reply carries.  `res` is the action
      agent's result for the intent, which takes effect only when the gate
      is open. */
  method DispatchIntent(db: Database, model: Model, conversationId: int, userMessage: string,
                        c: Gemini.Classification, draws: Actions.Draws, actionFault: Actions.ActionFault)
    returns (taken: Option<ActionTaken>, ghost res: Actions.ActionResult)
    requires db.Valid() && Actions.InRange(draws)
    modifies db
    ensures db.Valid()
    ensures db.documents == old(db.documents) && db.conversations == old(db.conversations)
    ensures db.messages == old(db.messages)
    ensures res == DispatchResult(old(db.conversations), old(db.messages), model, conversationId, userMessage,
                                  c, draws, actionFault, |old(db.actions)| + 1)
    ensures ActionsRecorded(old(db.actions), db.actions, old(db.statusWrites), db.statusWrites, old(db.clock),
                            conversationId, userMessage, c, res, taken)
    ensures taken.Some? ==>
      ShouldDispatch(c) && taken.value.actionType == c.intent && taken.value.result.success
      && taken.value.result.actionId == |old(db.actions)| + 1
  {
    taken := None;
    res := DispatchResult(db.conversations, db.messages, model, conversationId, userMessage, c, draws, actionFault,
                          |db.actions| + 1);
    if c.intent != "general_query" && c.confidence != "low" {
      var result := Actions.Execute(db, model, conversationId, c.intent, Some(ActionDataFor(userMessage, c)), draws,
                                    actionFault);
      if result.success {
        taken := Some(ActionTaken(c.intent, result));
      }
    }
  }

  /** The body of send_message once both fields are present: the chat
      pipeline answers, then the detected intent is dispatched; `res` is
      the action agent's result for that intent. */
  method Converse(db: Database, model: Model, conversationId: int, userMessage: string, fault: Chat.StoreFault,
                  draws: Actions.Draws, actionFault: Actions.ActionFault)
    returns (r: SendReply, ghost retrieved: seq<SearchHit>, ghost res: Actions.ActionResult)
    requires db.Valid() && Actions.InRange(draws)
    modifies db
    ensures db.Valid()
    ensures db.documents == old(db.documents) && db.conversations == old(db.conversations)
    ensures Chat.Raises(fault, userMessage) ==>
      r == ChatFailed(Chat.Apology(old(db.conversations), conversationId, fault.detail).response, fault.detail)
      && db.actions == old(db.actions) && db.statusWrites == old(db.statusWrites)
    ensures Chat.Raises(fault, userMessage) ==>
      db.messages == old(db.messages) +
        (if Chat.AfterCustomerSaved(fault.call)
         then [Chat.CustomerRow(|old(db.messages)| + 1, old(db.clock), conversationId, userMessage)]
         else [])
    ensures !Chat.Raises(fault, userMessage) ==>
      r.Answered?
      && Chat.RetrievedFor(old(db.documents), userMessage, retrieved)
      && r.sourceDocuments == Chat.Filenames(retrieved)
      && r.aiResponse
        == Gemini.ReplyFor(model, userMessage, retrieved,
                           MessagesOf(old(db.messages)
                             + [Chat.CustomerRow(|old(db.messages)| + 1, old(db.clock), conversationId, userMessage)],
                                      conversationId),
                           ConversationLanguage(old(db.conversations), conversationId))
      && db.messages == old(db.messages)
        + [Chat.CustomerRow(|old(db.messages)| + 1, old(db.clock), conversationId, userMessage)]
        + [Chat.AiRow(|old(db.messages)| + 2, old(db.clock) + 1, conversationId, r.aiResponse, retrieved)]
    ensures !Chat.Raises(fault, userMessage) ==>
      r.Answered?
      && res == DispatchResult(db.conversations, db.messages, model, conversationId, userMessage,
                               Gemini.IntentFor(model, userMessage), draws, actionFault, |old(db.actions)| + 1)
      && ActionsRecorded(old(db.actions), db.actions, old(db.statusWrites), db.statusWrites, old(db.clock) + 2,
                         conversationId, userMessage, Gemini.IntentFor(model, userMessage), res, r.actionTaken)
    ensures r.Answered? && r.actionTaken.Some? ==> r.actionTaken.value.result.success
  {
    res := Actions.ActionResult(false, "", Actions.NoPayload, 0);
    var chat;
    chat, retrieved := Chat.HandleMessage(db, Responder(model), conversationId, userMessage, fault);
    if chat.Failed? {
      return ChatFailed(chat.response, chat.error), retrieved, res;
    }
    ghost var stored := db.messages;
    var c := Gemini.DetectIntent(model, userMessage);
    var taken;
    taken, res := DispatchIntent(db, model, conversationId, userMessage, c, draws, actionFault);
    assert db.messages == stored;
    r := Answered(chat.response, chat.sourceDocuments, taken);
  }

  /** send_message.  A refused body and a failed chat pipeline answer 400
      and record no action; otherwise the reply carries the AI's answer,
      and at most one action is recorded, for the detected intent.  A
      store fault the pipeline never reaches changes nothing.  `retrieved`
      names the documents the chat pipeline retrieved for the answer. */
  method SendMessage(db: Database, model: Model, body: SendBody, fault: Chat.StoreFault, draws: Actions.Draws,
                     actionFault: Actions.ActionFault)
    returns (r: SendReply, ghost retrieved: seq<SearchHit>)
    requires db.Valid() && Actions.InRange(draws)
    modifies db
    ensures db.Valid()
    ensures body.conversationId.None? || body.message.None? ==>
      r == SendRejected("conversation_id and message are required") && unchanged(db)
    ensures body.conversationId.Some? && body.message.Some? && Chat.Raises(fault, body.message.value) ==>
      r == ChatFailed(Chat.Apology(old(db.conversations), body.conversationId.value, fault.detail).response, fault.detail)
      && db.actions == old(db.actions) && db.statusWrites == old(db.statusWrites)
    ensures body.conversationId.Some? && body.message.Some? && Chat.Raises(fault, body.message.value) ==>
      db.messages == old(db.messages) +
        (if Chat.AfterCustomerSaved(fault.call)
         then [Chat.CustomerRow(|old(db.messages)| + 1, old(db.clock), body.conversationId.value, body.message.value)]
         else [])
    ensures body.conversationId.Some? && body.message.Some? && !Chat.Raises(fault, body.message.value) ==>
      r.Answered?
      && Chat.RetrievedFor(old(db.documents), body.message.value, retrieved)
      && r.sourceDocuments == Chat.Filenames(retrieved)
      && r.aiResponse
        == Gemini.ReplyFor(model, body.message.value, retrieved,
                           MessagesOf(old(db.messages)
                             + [Chat.CustomerRow(|old(db.messages)| + 1, old(db.clock), body.conversationId.value,
                                                 body.message.value)], body.conversationId.value),
                           ConversationLanguage(old(db.conversations), body.conversationId.value))
      && db.messages == old(db.messages)
        + [Chat.CustomerRow(|old(db.messages)| + 1, old(db.clock), body.conversationId.value, body.message.value)]
        + [Chat.AiRow(|old(db.messages)| + 2, old(db.clock) + 1, body.conversationId.value, r.aiResponse, retrieved)]
    ensures body.conversationId.Some? && body.message.Some? && !Chat.Raises(fault, body.message.value) ==>
      r.Answered?
      && ActionsRecorded(old(db.actions), db.actions, old(db.statusWrites), db.statusWrites, old(db.clock) + 2,
                         body.conversationId.value, body.message.value, Gemini.IntentFor(model, body.message.value),
                         DispatchResult(db.conversations, db.messages, model, body.conversationId.value,
                                        body.message.value, Gemini.IntentFor(model, body.message.value), draws,
                                        actionFault, |old(db.actions)| + 1),
                         r.actionTaken)
    ensures r.Answered? && r.actionTaken.Some? ==> r.actionTaken.value.result.success
    ensures db.documents == old(db.documents) && db.conversations == old(db.conversations)
  {
    retrieved := [];
    if body.conversationId.None? || body.message.None? {
      return SendRejected("conversation_id and message are required"), retrieved;
    }
    ghost var res;
    r, retrieved, res := Converse(db, model, body.conversationId.value, body.message.value, fault, draws, actionFault);
  }

  /** When the classifier raises, no action is dispatched. */
  lemma FailedClassificationNeverDispatches(model: Model, userMessage: string, detail: string)
    requires model(IntentPrompt(userMessage)) == Raised(detail)
    ensures !ShouldDispatch(Gemini.IntentFor(model, userMessage))
  {
  }

  /** The entities the classifier extracts stay nested under 'entities',
      so the handlers' own keys are never set by a chat message: an order
      checked from the chat reports the drawn order number, and a ticket
      the default summary. */
  lemma ChatActionsSeeDefaults(userMessage: string, c: Gemini.Classification, order: nat, statusIndex: nat)
    requires statusIndex < |Actions.OrderStatuses|
    ensures Actions.CheckOrder(ActionDataFor(userMessage, c), order, statusIndex).payload.orderId
      == JStr(Actions.OrderId(order))
    ensures Actions.Get(ActionDataFor(userMessage, c), "summary", JStr(Actions.DefaultSummary))
      == JStr(Actions.DefaultSummary)
  {
    var data := ActionDataFor(userMessage, c);
    assert "order_id" !in data.Keys;
    assert "summary" !in data.Keys;
  }

  // ---------------------------------------------------------------------
  // execute_action

  datatype ExecuteBody = ExecuteBody(conversationId: Option<int>, actionType: Option<string>,
                                     actionData: Option<ActionData>)

  method ExecuteAction(db: Database, model: Model, body: ExecuteBody, draws: Actions.Draws,
                       actionFault: Actions.ActionFault)
    returns (r: Reply<Actions.ActionResult>)
    requires db.Valid() && Actions.InRange(draws)
    modifies db
    ensures db.Valid()
    ensures body.conversationId.None? || body.actionType.None? ==>
      r == Err(400, "conversation_id and action_type are required") && unchanged(db)
    ensures body.conversationId.Some? && body.actionType.Some? ==>
      r.Ok?
      && r.value == Actions.Executed(old(db.conversations), old(db.messages), model, body.conversationId.value,
                                     body.actionType.value, Actions.PayloadOrEmpty(body.actionData), draws,
                                     actionFault, |old(db.actions)| + 1)
      && db.actions == old(db.actions)
        + [ActionRow(|old(db.actions)| + 1, body.conversationId.value, body.actionType.value,
                     Actions.PayloadOrEmpty(body.actionData), Actions.StatusOf(r.value), old(db.clock))]
      && db.statusWrites == old(db.statusWrites) + [(r.value.actionId, Actions.StatusOf(r.value))]
    ensures db.documents == old(db.documents) && db.conversations == old(db.conversations)
    ensures db.messages == old(db.messages)
  {
    if body.conversationId.None? || body.actionType.None? {
      return Err(400, "conversation_id and action_type are required");
    }
    var actionData := if body.actionData.Some? then body.actionData.value else map[];
    assert Actions.PayloadOrEmpty(Some(actionData)) == Actions.PayloadOrEmpty(body.actionData);
    var result := Actions.Execute(db, model, body.conversationId.value, body.actionType.value, Some(actionData), draws,
                                  actionFault);
    r := Ok(result);
  }

  // ---------------------------------------------------------------------
  // request_call

  datatype CallBody = CallBody(customerName: Option<string>, phoneNumber: Option<string>)

  /** request_call, given whether the notification e-mail went out. */
  function RequestCall(body: CallBody, emailSent: bool): (r: Reply<string>)
    ensures r.Ok? <==> body.customerName.Some? && body.phoneNumber.Some? && emailSent
  {
    if body.customerName.None? then Err(400, "customer_name is required")
    else if body.phoneNumber.None? then Err(400, "phone_number is required")
    else if emailSent then Ok("Call request submitted successfully! Our team will contact you soon.")
    else Err(500, "Failed to submit call request. Please try again.")
  }

  /** The missing fields are named in the order the route checks them,
      and a missing field is reported whatever the mail would have done. */
  lemma CallValidationOrder(body: CallBody, sent: bool, other: bool)
    ensures body.customerName.None? ==> RequestCall(body, sent) == Err(400, "customer_name is required")
    ensures body.customerName.Some? && body.phoneNumber.None? ==>
      RequestCall(body, sent) == Err(400, "phone_number is required")
    ensures body.customerName.None? || body.phoneNumber.None? ==> RequestCall(body, sent) == RequestCall(body, other)
  {
  }

  // ---------------------------------------------------------------------
  // delete_document

  method DeleteDocument(db: Database, documentId: int) returns (r: Reply<string>)
    requires db.Valid()
    modifies db
    ensures db.Valid()
    ensures r.Ok? <==> Deletable(old(db.documents), documentId)
    ensures r.Ok? ==> r.value == "Document deleted successfully"
    ensures r.Err? ==> r == Err(404, "Document not found or already deleted")
    ensures db.documents == SoftDelete(old(db.documents), documentId, old(db.clock))
    ensures db.conversations == old(db.conversations) && db.messages == old(db.messages)
    ensures db.actions == old(db.actions) && db.statusWrites == old(db.statusWrites)
  {
    var deleted := db.DeleteDocument(documentId);
    if deleted {
      r := Ok("Document deleted successfully");
    } else {
      r := Err(404, "Document not found or already deleted");
    }
  }
}
