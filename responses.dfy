/**
 * The three Lex V2 response builders of the agent handler (elicit_slot,
 * elicit_intent, delegate). Each builds a fresh response of a fixed shape.
 */
module Responses {
  import opened LexTypes

  const IntentContextName := "intentContext"
  const ContextSeconds := 86400
  const ContextTurns := 20

  const CardTitle := "How can I help you?"
  const HelplineButton := Button("Emergency Helpline", "Emergency Helpline")
  const AskBuddyButton := Button("Ask Alex Buddy", "What kind of questions can Alex Buddy answer?")

  /** The response carries exactly one active context, `intentContext`, living 86400 s or 20 turns. */
  predicate HasIntentContext(r: Response, contextAttributes: map<string, string>) {
    && r.activeContexts.Some?
    && |r.activeContexts.value| == 1
    && r.activeContexts.value[0].name == "intentContext"
    && r.activeContexts.value[0].contextAttributes == contextAttributes
    && r.activeContexts.value[0].timeToLive.timeToLiveInSeconds == 86400
    && r.activeContexts.value[0].timeToLive.turnsToLive == 20
  }

  /** The response's only message is `text` as plain text. */
  predicate SinglePlainText(r: Response, text: string) {
    |r.messages| == 1 && r.messages[0].PlainText? && r.messages[0].content == text
  }

  function IntentContext(contextAttributes: map<string, string>): ActiveContext {
    ActiveContext(IntentContextName, contextAttributes, TimeToLive(ContextSeconds, ContextTurns))
  }

  /** Ask the user for `slotToElicit`, keeping the intent and the session attributes. */
  function ElicitSlot(
    sessionAttributes: map<string, string>, activeContexts: map<string, string>,
    intent: Intent, slotToElicit: string, message: string): (r: Response)
    ensures r.dialogAction == DialogAction.ElicitSlot(slotToElicit)
    ensures HasIntentContext(r, activeContexts)
    ensures r.sessionAttributes == Some(sessionAttributes) && r.intent == Some(intent)
    ensures SinglePlainText(r, message)
  {
    Response(
      DialogAction.ElicitSlot(slotToElicit),
      Some([IntentContext(activeContexts)]),
      Some(sessionAttributes),
      Some(intent),
      [PlainText(message)])
  }

  /**
   * Ask the user what they want next: the message, then a card offering the
   * helpline and the agent. The request itself is not consulted.
   */
  function ElicitIntent(sessionAttributes: map<string, string>, message: string): (r: Response)
    ensures r.dialogAction == DialogAction.ElicitIntent
    ensures r.activeContexts.None? && r.intent.None?
    ensures r.sessionAttributes == Some(sessionAttributes)
    ensures |r.messages| == 2
    ensures r.messages[0].PlainText? && r.messages[0].content == message
    ensures r.messages[1].ImageResponseCard? && r.messages[1].title == "How can I help you?"
    ensures |r.messages[1].buttons| == 2
    ensures r.messages[1].buttons[0] == Button("Emergency Helpline", "Emergency Helpline")
    ensures r.messages[1].buttons[1] == Button("Ask Alex Buddy", "What kind of questions can Alex Buddy answer?")
  {
    Response(
      DialogAction.ElicitIntent,
      None,
      Some(sessionAttributes),
      None,
      [PlainText(message), ImageResponseCard(CardTitle, [HelplineButton, AskBuddyButton])])
  }

  /** Hand the turn back to Lex, with the same context shape as ElicitSlot. */
  function Delegate(
    sessionAttributes: map<string, string>, activeContexts: map<string, string>,
    intent: Intent, message: string): (r: Response)
    ensures r.dialogAction == DialogAction.Delegate
    ensures HasIntentContext(r, activeContexts)
    ensures r.sessionAttributes == Some(sessionAttributes) && r.intent == Some(intent)
    ensures SinglePlainText(r, message)
  {
    Response(
      DialogAction.Delegate,
      Some([IntentContext(activeContexts)]),
      Some(sessionAttributes),
      Some(intent),
      [PlainText(message)])
  }
}
