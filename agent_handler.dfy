/**
 * The turn-dispatch layer of the Lex V2 fulfilment hook: the slot accessor,
 * the identity and helpline handlers, the decision part of the generative
 * fallback handler, and the dispatcher that routes a request by intent name.
 *
 * The language-model agent is a parameter `agent` from (prompt, session id)
 * to the reply text, or `None` when it raises; nothing else about it is assumed.
 */
module AgentHandler {
  import opened LexTypes
  import opened HelplineText
  import Responses

  // ---------------------------------------------------------------------------
  // Slot accessor (try_ex)
  // ---------------------------------------------------------------------------

  /**
   * The value of a possibly unfilled slot: the interpreted value once Lex has
   * resolved the slot, otherwise the raw user text if it is non-empty.
   */
  function TryEx(slot: Option<Slot>): (r: Option<string>)
    ensures slot.None? ==> r.None?
    ensures slot.Some? && slot.value.value.resolvedValues != [] ==>
              r == Some(slot.value.value.interpretedValue)
    ensures slot.Some? && slot.value.value.resolvedValues == [] ==>
              (r.Some? <==> slot.value.value.originalValue != "") &&
              (r.Some? ==> r.value == slot.value.value.originalValue)
  {
    match slot
    case None => None
    case Some(holder) =>
      if holder.value.resolvedValues != [] then Some(holder.value.interpretedValue)
      else if holder.value.originalValue != "" then Some(holder.value.originalValue)
      else None
  }

  // ---------------------------------------------------------------------------
  // Session attributes as the handlers read them
  // ---------------------------------------------------------------------------

  /** `sessionState.get("sessionAttributes") or {}`: missing, null and empty all give the empty map. */
  function AttributesOrEmpty(s: SessionAttributes): (m: map<string, string>)
    ensures s.Present? ==> m == s.attrs
    ensures !s.Present? ==> m == map[]
  {
    match s
    case Present(attrs) => attrs
    case _ => map[]
  }

  /** `sessionState.get("sessionAttributes", {})`: only a missing key gives the empty map; null stays null. */
  function AttributesOrDefault(s: SessionAttributes): (m: Option<map<string, string>>)
    ensures s.Absent? ==> m == Some(map[])
    ensures s.Null? ==> m.None?
    ensures s.Present? ==> m == Some(s.attrs)
  {
    match s
    case Absent => Some(map[])
    case Null => None
    case Present(attrs) => Some(attrs)
  }

  // ---------------------------------------------------------------------------
  // Identity verification (verify_identity)
  // ---------------------------------------------------------------------------

  const UserNameSlot := "UserName"
  const AskUserNameMessage := "Please provide your username to proceed."

  function ThankYouMessage(username: string): string {
    "Thank you for confirming your username and PIN, " + username
      + ". How are you doing? Is everything going well?"
  }

  /**
   * With a usable `UserName` slot, store the name in the session attributes and
   * ask for the next intent; otherwise ask for the slot. Subscripting a missing
   * `slots` or `UserName` key raises.
   */
  function VerifyIdentity(req: Request): (r: Result<Response>)
    ensures r.Err? <==> req.intent.slots.None? || "UserName" !in req.intent.slots.value
    ensures r.Err? ==> r.error == KeyError(if req.intent.slots.None? then "slots" else "UserName")
    ensures r.Ok? && Truthy(TryEx(req.intent.slots.value["UserName"])) ==>
              var username := TryEx(req.intent.slots.value["UserName"]).value;
              r.value == Responses.ElicitIntent(AttributesOrEmpty(req.sessionAttributes)["UserName" := username], ThankYouMessage(username))
    ensures r.Ok? && !Truthy(TryEx(req.intent.slots.value["UserName"])) ==>
              && r.value.dialogAction == ElicitSlot("UserName")
              && Responses.HasIntentContext(r.value, map[])
              && r.value.sessionAttributes == Some(AttributesOrEmpty(req.sessionAttributes))
              && r.value.intent == Some(req.intent)
              && Responses.SinglePlainText(r.value, "Please provide your username to proceed.")
  {
    match req.intent.slots
    case None => Err(KeyError("slots"))
    case Some(slots) =>
      if UserNameSlot !in slots then Err(KeyError(UserNameSlot))
      else
        var username := TryEx(slots[UserNameSlot]);
        var sessionAttributes := AttributesOrEmpty(req.sessionAttributes);
        if Truthy(username) then
          Ok(Responses.ElicitIntent(sessionAttributes[UserNameSlot := username.value], ThankYouMessage(username.value)))
        else
          Ok(Responses.ElicitSlot(sessionAttributes, map[], req.intent, UserNameSlot, AskUserNameMessage))
  }

  /**
   * The caller's own session-attribute object after VerifyIdentity. The handler
   * writes the name into the request's dictionary itself, so when that
   * dictionary is non-empty it is the very object the response carries; a
   * missing, null or empty one is replaced by a fresh `{}` and left as it was.
   */
  function RequestAttributesAfterVerify(req: Request): (after: SessionAttributes)
    ensures !(req.sessionAttributes.Present? && req.sessionAttributes.attrs != map[]) ==>
              after == req.sessionAttributes
    ensures req.sessionAttributes.Present? && req.sessionAttributes.attrs != map[] ==>
              after.Present? &&
              (VerifyIdentity(req).Ok? ==> VerifyIdentity(req).value.sessionAttributes == Some(after.attrs)) &&
              (VerifyIdentity(req).Err? ==> after == req.sessionAttributes)
  {
    match req.sessionAttributes
    case Present(attrs) =>
      if attrs != map[] && req.intent.slots.Some? && UserNameSlot in req.intent.slots.value
         && Truthy(TryEx(req.intent.slots.value[UserNameSlot]))
      then Present(attrs[UserNameSlot := TryEx(req.intent.slots.value[UserNameSlot]).value])
      else req.sessionAttributes
    case _ => req.sessionAttributes
  }

  // ---------------------------------------------------------------------------
  // Emergency helpline menu (emergency_helpline)
  // ---------------------------------------------------------------------------

  const SelectionSlot := "Selection"

  /** `intent.get("slots", {}).get("Selection")`: a missing map or key reads as no holder. */
  function SelectionHolder(intent: Intent): (h: Option<Slot>)
    ensures h.Some? ==> intent.slots.Some? && "Selection" in intent.slots.value
    ensures intent.slots.Some? && "Selection" in intent.slots.value ==> h == intent.slots.value["Selection"]
  {
    match intent.slots
    case None => None
    case Some(slots) => if SelectionSlot in slots then slots[SelectionSlot] else None
  }

  /** The canned reply to a menu choice: one per option "1" to "5", one fallback for the rest. */
  function HelplineMessage(selection: string): (m: string)
    ensures m != NotUnderstoodMessage <==> selection in {"1", "2", "3", "4", "5"}
  {
    if selection == "1" then GeneralSupportMessage
    else if selection == "2" then SuicidePreventionMessage
    else if selection == "3" then YoungPeopleMessage
    else if selection == "4" then LgbtqSupportMessage
    else if selection == "5" then UrgentHelpMessage
    else NotUnderstoodMessage
  }

  /** The intent a closing response reports: same name and slots, fulfilled. */
  function ClosedIntent(intent: Intent): (c: Intent)
    ensures c.name == intent.name && c.slots == intent.slots
    ensures c.state == Some("Fulfilled")
    ensures intent.confirmationState.Some? ==> c.confirmationState == intent.confirmationState
    ensures intent.confirmationState.None? ==> c.confirmationState == Some("None")
  {
    Intent(
      intent.name, intent.slots, Some("Fulfilled"),
      Some(match intent.confirmationState case Some(s) => s case None => "None"))
  }

  /**
   * A one-level menu: without a usable selection, show the menu and ask for the
   * `Selection` slot (no active contexts); with one, close the intent with the
   * matching resource message, or the fallback message for anything else.
   */
  function EmergencyHelpline(req: Request): (r: Response)
    ensures r.activeContexts.None?
    ensures r.sessionAttributes == AttributesOrDefault(req.sessionAttributes)
    ensures !Truthy(TryEx(SelectionHolder(req.intent))) ==>
              && r.dialogAction == ElicitSlot("Selection")
              && r.intent == Some(req.intent)
              && Responses.SinglePlainText(r, HelplineMenu)
    ensures Truthy(TryEx(SelectionHolder(req.intent))) ==>
              && r.dialogAction == Close
              && r.intent == Some(ClosedIntent(req.intent))
              && Responses.SinglePlainText(r, HelplineMessage(TryEx(SelectionHolder(req.intent)).value))
  {
    var sessionAttributes := AttributesOrDefault(req.sessionAttributes);
    var selection := TryEx(SelectionHolder(req.intent));
    if !Truthy(selection) then
      Response(DialogAction.ElicitSlot(SelectionSlot), None, sessionAttributes, Some(req.intent), [PlainText(HelplineMenu)])
    else
      Response(Close, None, sessionAttributes, Some(ClosedIntent(req.intent)), [PlainText(HelplineMessage(selection.value))])
  }

  // ---------------------------------------------------------------------------
  // Generative fallback (genai_intent) and dispatch
  // ---------------------------------------------------------------------------

  const DialogCodeHook := "DialogCodeHook"

  /**
   * Only on the dialog code hook is the agent asked and its reply relayed; an
   * exception inside the agent propagates. On any other invocation source the
   * reply variable is never bound and reading it raises.
   */
  function GenaiIntent(req: Request, agent: (string, string) -> Option<string>): (r: Result<Response>)
    ensures r.Ok? <==> req.invocationSource == "DialogCodeHook" && agent(req.inputTranscript, req.sessionId).Some?
    ensures req.invocationSource != "DialogCodeHook" ==> r == Err(UnboundLocal("output"))
    ensures req.invocationSource == "DialogCodeHook" && agent(req.inputTranscript, req.sessionId).None? ==>
              r == Err(AgentFailure)
    ensures r.Ok? ==>
              r.value == Responses.ElicitIntent(AttributesOrEmpty(req.sessionAttributes), agent(req.inputTranscript, req.sessionId).value)
  {
    if req.invocationSource == DialogCodeHook then
      match agent(req.inputTranscript, req.sessionId)
      case Some(output) => Ok(Responses.ElicitIntent(AttributesOrEmpty(req.sessionAttributes), output))
      case None => Err(AgentFailure)
    else
      Err(UnboundLocal("output"))
  }

  /** Route by intent name; the generative handler takes every name not listed. */
  function Dispatch(req: Request, agent: (string, string) -> Option<string>): (r: Result<Response>)
    ensures req.intent.name == "VerifyIdentity" ==> r == VerifyIdentity(req)
    ensures req.intent.name == "Emergencyhelpline" ==> r == Ok(EmergencyHelpline(req))
    ensures req.intent.name != "VerifyIdentity" && req.intent.name != "Emergencyhelpline" ==>
              r == GenaiIntent(req, agent)
    ensures r.Err? ==> !r.error.NotSupported?
  {
    var intentName := req.intent.name;
    if intentName == "VerifyIdentity" then VerifyIdentity(req)
    else if intentName == "Emergencyhelpline" then Ok(EmergencyHelpline(req))
    else GenaiIntent(req, agent)
  }
}
