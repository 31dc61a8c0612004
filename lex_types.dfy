/**
 * The request and response shapes of an Amazon Lex V2 code hook, as far as
 * the agent handler reads or writes them. A JSON key that may be missing is an
 * `Option`; JSON null is told apart from a missing key only where the handler
 * treats the two differently (the request's session attributes).
 */
module LexTypes {

  datatype Option<T> = None | Some(value: T)

  /** Python truthiness of a value that is None or a string: None and "" are falsy. */
  predicate Truthy(s: Option<string>) {
    s.Some? && s.value != ""
  }

  // ---------------------------------------------------------------------------
  // Request
  // ---------------------------------------------------------------------------

  /** The `value` object of a filled slot. */
  datatype SlotValue = SlotValue(originalValue: string, interpretedValue: string, resolvedValues: seq<string>)

  /** A slot holder: the JSON object `{"value": {...}}` that Lex puts under a slot name. */
  datatype Slot = Slot(value: SlotValue)

  /** Slot name to holder; a slot Lex knows but has not filled maps to `None` (JSON null). */
  type SlotMap = map<string, Option<Slot>>

  /**
   * `sessionState.intent`. `slots`, `state` and `confirmationState` are `None`
   * when the key is missing.
   */
  datatype Intent = Intent(name: string, slots: Option<SlotMap>, state: Option<string>, confirmationState: Option<string>)

  /** `sessionState.sessionAttributes`: missing, JSON null, or a string-to-string object. */
  datatype SessionAttributes = Absent | Null | Present(attrs: map<string, string>)

  /** One turn event, with the fields of `sessionState` lifted to the top. */
  datatype Request = Request(
    intent: Intent,
    sessionAttributes: SessionAttributes,
    sessionId: string,
    invocationSource: string,
    inputTranscript: string)

  // ---------------------------------------------------------------------------
  // Response
  // ---------------------------------------------------------------------------

  datatype Button = Button(text: string, value: string)

  datatype Message =
    | PlainText(content: string)
    | ImageResponseCard(title: string, buttons: seq<Button>)

  datatype TimeToLive = TimeToLive(timeToLiveInSeconds: int, turnsToLive: int)

  datatype ActiveContext = ActiveContext(name: string, contextAttributes: map<string, string>, timeToLive: TimeToLive)

  /** `sessionState.dialogAction`: what the platform does next. */
  datatype DialogAction =
    | ElicitSlot(slotToElicit: string)
    | ElicitIntent
    | Delegate
    | Close

  /**
   * The outbound object. `activeContexts` and `intent` are `None` when the key
   * is left out; `sessionAttributes` is `None` when its value is JSON null.
   */
  datatype Response = Response(
    dialogAction: DialogAction,
    activeContexts: Option<seq<ActiveContext>>,
    sessionAttributes: Option<map<string, string>>,
    intent: Option<Intent>,
    messages: seq<Message>)

  // ---------------------------------------------------------------------------
  // Outcomes
  // ---------------------------------------------------------------------------

  /** The Python exceptions a handler can raise. */
  datatype HandlerError =
    | KeyError(key: string)              // a subscript on a missing dictionary key
    | UnboundLocal(variable: string)     // a local variable read before any assignment
    | NotSupported(intentName: string)   // the dispatcher's explicit raise
    | AgentFailure                       // an exception raised inside the language-model agent

  datatype Result<T> = Ok(value: T) | Err(error: HandlerError)
}
