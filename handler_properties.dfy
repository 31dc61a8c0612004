/**
 * Properties of the agent handler that relate several of its functions or
 * state a handler's behaviour as a whole: the slot accessor's notion of a
 * filled slot, what the identity handler does to the session attributes, the
 * helpline's choices against its menu, and when a dispatched turn fails.
 */
module HandlerProperties {
  import opened LexTypes
  import Responses
  import opened AgentHandler
  import opened HelplineText
  import opened MenuProperties

  // ---------------------------------------------------------------------------
  // Slot accessor
  // ---------------------------------------------------------------------------

  /**
   * A handler treats a slot as filled exactly when the holder exists and the
   * value it would use (interpreted once resolved, raw otherwise) is non-empty.
   */
  lemma TryExTruthyIff(slot: Option<Slot>)
    ensures Truthy(TryEx(slot)) <==>
              slot.Some? &&
              (if slot.value.value.resolvedValues != []
               then slot.value.value.interpretedValue != ""
               else slot.value.value.originalValue != "")
  {
  }

  /** Once resolved, the raw text is never what comes back, however the two differ. */
  lemma TryExPrefersInterpreted(slot: Slot)
    requires slot.value.resolvedValues != []
    requires slot.value.originalValue != slot.value.interpretedValue
    ensures TryEx(Some(slot)) != Some(slot.value.originalValue)
  {
  }

  /**
   * The two ways the handlers read the session attributes agree on a missing
   * key and on an object; they part only on JSON null, which one turns into
   * the empty map and the other keeps.
   */
  lemma SessionAttributeReadsDifferOnlyOnNull(s: SessionAttributes)
    ensures !s.Null? <==> AttributesOrDefault(s) == Some(AttributesOrEmpty(s))
    ensures s.Null? ==> AttributesOrDefault(s).None? && AttributesOrEmpty(s) == map[]
  {
  }

  // ---------------------------------------------------------------------------
  // Response builders
  // ---------------------------------------------------------------------------

  /** ElicitSlot and Delegate build the same response but for the dialog action. */
  lemma ElicitSlotDelegateSameShape(
    sessionAttributes: map<string, string>, activeContexts: map<string, string>,
    intent: Intent, slotToElicit: string, message: string)
    ensures Responses.ElicitSlot(sessionAttributes, activeContexts, intent, slotToElicit, message).(dialogAction := DialogAction.Delegate)
            == Responses.Delegate(sessionAttributes, activeContexts, intent, message)
  {
  }

  // ---------------------------------------------------------------------------
  // Identity verification
  // ---------------------------------------------------------------------------

  /**
   * With a usable name, the outgoing attributes are the incoming ones with
   * `UserName` set to it: no other key is added, dropped or changed.
   */
  lemma VerifyIdentityStoresOnlyUserName(req: Request, slots: SlotMap)
    requires req.intent.slots == Some(slots) && "UserName" in slots
    requires Truthy(TryEx(slots["UserName"]))
    ensures VerifyIdentity(req).Ok?
    ensures var out := VerifyIdentity(req).value.sessionAttributes;
            var before := AttributesOrEmpty(req.sessionAttributes);
            && out.Some?
            && "UserName" in out.value && out.value["UserName"] == TryEx(slots["UserName"]).value
            && out.value.Keys == before.Keys + {"UserName"}
            && (forall k :: k in before && k != "UserName" ==> out.value[k] == before[k])
  {
  }

  /** Without a usable name, the attributes go back as they came and the slot is asked for. */
  lemma VerifyIdentityAsksForUserName(req: Request, slots: SlotMap)
    requires req.intent.slots == Some(slots) && "UserName" in slots
    requires !Truthy(TryEx(slots["UserName"]))
    ensures VerifyIdentity(req).Ok?
    ensures VerifyIdentity(req).value.dialogAction == ElicitSlot("UserName")
    ensures VerifyIdentity(req).value.sessionAttributes == Some(AttributesOrEmpty(req.sessionAttributes))
    ensures VerifyIdentity(req).value.activeContexts.Some?
    ensures VerifyIdentity(req).value.activeContexts.value[0].contextAttributes == map[]
  {
  }

  // ---------------------------------------------------------------------------
  // Emergency helpline
  // ---------------------------------------------------------------------------

  /** Every number the menu offers is a choice the handler serves, and it serves no other. */
  lemma MenuChoicesAreServed(selection: string)
    ensures forall k | 1 <= k <= 5 :: HelplineMessage([DigitChar(k)]) != NotUnderstoodMessage
    ensures HelplineMessage(selection) != NotUnderstoodMessage <==>
              exists k | 1 <= k <= 5 :: selection == [DigitChar(k)]
  {
    if HelplineMessage(selection) != NotUnderstoodMessage {
      assert selection in {"1", "2", "3", "4", "5"};
      if selection == "1" { assert selection == [DigitChar(1)]; }
      else if selection == "2" { assert selection == [DigitChar(2)]; }
      else if selection == "3" { assert selection == [DigitChar(3)]; }
      else if selection == "4" { assert selection == [DigitChar(4)]; }
      else { assert selection == [DigitChar(5)]; }
    }
  }

  /** The five resource messages and the fallback are pairwise different. */
  lemma HelplineMessagesDistinct()
    ensures forall a, b | a in {"1", "2", "3", "4", "5"} && b in {"1", "2", "3", "4", "5"} && a != b ::
              HelplineMessage(a) != HelplineMessage(b)
    ensures forall a | a in {"1", "2", "3", "4", "5"} :: HelplineMessage(a) != NotUnderstoodMessage
  {
  }

  /** Any usable selection ends the turn; one outside 1 to 5 gets the fallback, never the menu again. */
  lemma HelplineSelectionAlwaysCloses(req: Request)
    requires Truthy(TryEx(SelectionHolder(req.intent)))
    requires TryEx(SelectionHolder(req.intent)).value !in {"1", "2", "3", "4", "5"}
    ensures EmergencyHelpline(req).dialogAction == Close
    ensures EmergencyHelpline(req).intent.Some? && EmergencyHelpline(req).intent.value.state == Some("Fulfilled")
    ensures EmergencyHelpline(req).messages == [PlainText(NotUnderstoodMessage)]
  {
  }

  /** A closing response is only built when the intent has a slot map, so reading its slots cannot fail. */
  lemma HelplineCloseHasSlots(req: Request)
    requires EmergencyHelpline(req).dialogAction == Close
    ensures req.intent.slots.Some?
    ensures EmergencyHelpline(req).intent.value.slots == req.intent.slots
  {
  }

  // ---------------------------------------------------------------------------
  // Dispatch
  // ---------------------------------------------------------------------------

  /**
   * A turn fails exactly when an identity turn lacks the `slots` or `UserName`
   * key, or a generative turn does not come from the dialog code hook or its
   * agent raises; the helpline never fails and the unsupported-intent error is
   * never raised.
   */
  lemma DispatchFailsExactlyWhen(req: Request, agent: (string, string) -> Option<string>)
    ensures Dispatch(req, agent).Err? <==>
              (req.intent.name == "VerifyIdentity" &&
               (req.intent.slots.None? || "UserName" !in req.intent.slots.value)) ||
              (req.intent.name != "VerifyIdentity" && req.intent.name != "Emergencyhelpline" &&
               (req.invocationSource != "DialogCodeHook" || agent(req.inputTranscript, req.sessionId).None?))
    ensures Dispatch(req, agent).Err? ==> !Dispatch(req, agent).error.NotSupported?
  {
  }

  /** The identity example: a resolved "alex" is stored and the next intent is asked for. */
  lemma VerifyIdentityExample(agent: (string, string) -> Option<string>)
    ensures var req := Request(
              Intent("VerifyIdentity", Some(map["UserName" := Some(Slot(SlotValue("alex", "alex", ["alex"])))]), None, None),
              Absent, "s1", "DialogCodeHook", "alex");
            && Dispatch(req, agent).Ok?
            && Dispatch(req, agent).value.dialogAction == ElicitIntent
            && Dispatch(req, agent).value.sessionAttributes == Some(map["UserName" := "alex"])
  {
  }
}
