# Lex V2 agent handler: turn dispatch and response construction

This project models the fulfilment hook of an Amazon Lex V2 bot: the
function that receives one conversation turn, looks at the intent and its
slots, and answers with one Lex response. The hook:

- reads slot values safely (`try_ex`);
- builds the Lex responses `ElicitSlot`, `ElicitIntent` and `Delegate`;
- handles the identity intent. It stores the user name in the session
  attributes, or asks for it;
- handles the emergency helpline intent, a one-level menu of five numbered
  options;
- sends every other intent to a language-model agent, on the dialog code
  hook only;
- routes a turn by intent name.

Everything in the modelled code except one write is pure, and is modelled
as functions. `verify_identity` writes the name into the request's own
attribute dictionary (line 150). That write is modelled as a map update in
the response (`VerifyIdentity`) plus the caller's dictionary afterwards
(`RequestAttributesAfterVerify`). The call to `invoke_agent` is the opaque
parameter `agent`, and the `print` at line 275 is left out.

- `lex_types.dfy` (`LexTypes`): the request and response shapes. A request
  has an intent (name, slot map, state, confirmation state), session
  attributes, a session id, an invocation source and a transcript. A
  response has a dialog action (`ElicitSlot`, `ElicitIntent`, `Delegate`,
  `Close`), optional active contexts, session attributes, an optional intent
  and a message list. It also holds the Python exceptions a handler can
  raise, as a `Result`.
- `responses.dfy` (`Responses`): the three response builders.
- `helpline_text.dfy` (`HelplineText`): the helpline's prompt, menu and messages,
  word for word.
- `agent_handler.dfy` (`AgentHandler`): the slot accessor, the three
  handlers and the dispatcher.
- `menu_properties.dfy` (`MenuProperties`): the menu text checked against a
  description of a numbered menu.
- `handler_properties.dfy` (`HandlerProperties`): lemmas that relate the
  handlers to each other and to the dispatcher.

Python truthiness is modelled explicitly. `Truthy` holds for a string that
is present and non-empty, and `try_ex` treats an empty `resolvedValues` list
as unresolved. The session attributes of a request are kept as three cases:
missing, JSON null, or an object. The two handlers read them differently.
`verify_identity` and `genai_intent` use `get(...) or {}`, so null becomes
`{}`. `emergency_helpline` uses `get(..., {})`, so null stays null.

Python exceptions become `Err` outcomes:

- subscripting a missing `slots` or `UserName` key in `verify_identity` is a
  `KeyError`;
- reading `output` in `genai_intent` when the invocation source is not
  `DialogCodeHook` is an `UnboundLocal`, because the variable was never
  bound;
- an exception inside the language-model agent propagates out of
  `genai_intent` and the dispatcher as `AgentFailure`;
- the dispatcher's `raise` (line 296) cannot be reached. `Dispatch` is proved
  never to produce it.

`invoke_agent` becomes the parameter
`agent: (string, string) -> Option<string>`. It takes the prompt and the
session id and returns the reply, or `None` when the call raises. Nothing
else is assumed about it.

Three details of the code decide what a handler sees:

- `try_ex` returns `interpretedValue`, not an element of `resolvedValues`,
  whenever `resolvedValues` is non-empty.
- `try_ex` returns `originalValue` only if it is non-empty; an empty one
  gives `None`.
- `verify_identity` stores a name only if it is non-empty. A resolved slot
  whose `interpretedValue` is empty leads to a new prompt for the name.

## Model

| member | source | states |
|---|---|---|
| `Responses.ElicitSlot` | agent/lambda/agent-handler/lambda_function.py:37-62 | ElicitSlot for the given slot. One active context `intentContext` with the given attributes, 86400 s and 20 turns. The given session attributes and intent. Exactly one plain-text message. |
| `Responses.ElicitIntent` | agent/lambda/agent-handler/lambda_function.py:65-92 | ElicitIntent with no active contexts and no intent. The given session attributes. Exactly two messages: the text, then the card "How can I help you?" with exactly two buttons, "Emergency Helpline" (value "Emergency Helpline") and "Ask Alex Buddy" (value "What kind of questions can Alex Buddy answer?"). |
| `Responses.Delegate` | agent/lambda/agent-handler/lambda_function.py:95-117 | Delegate with the same context, attribute, intent and message shape as ElicitSlot. |
| `HandlerProperties.ElicitSlotDelegateSameShape` | agent/lambda/agent-handler/lambda_function.py:37-117 | ElicitSlot and Delegate build the same response except for the dialog action. |
| `AgentHandler.TryEx` | agent/lambda/agent-handler/lambda_function.py:120-132 | A missing holder gives none. A non-empty `resolvedValues` gives `interpretedValue`. Otherwise `originalValue` is returned if it is non-empty, and none if it is empty. |
| `HandlerProperties.TryExTruthyIff` | agent/lambda/agent-handler/lambda_function.py:120-132 | The result is truthy exactly when the holder exists and the value it chooses (interpreted if resolved, raw otherwise) is non-empty. |
| `HandlerProperties.TryExPrefersInterpreted` | agent/lambda/agent-handler/lambda_function.py:125-126 | Once the slot is resolved, the raw value is never returned when it differs from the interpreted one. |
| `AgentHandler.AttributesOrEmpty` | agent/lambda/agent-handler/lambda_function.py:145 | `get("sessionAttributes") or {}`: an object is returned as it is; a missing key or JSON null gives the empty map. |
| `AgentHandler.AttributesOrDefault` | agent/lambda/agent-handler/lambda_function.py:170 | `get("sessionAttributes", {})`: a missing key gives the empty map, JSON null stays null, and an object is returned as it is. |
| `HandlerProperties.SessionAttributeReadsDifferOnlyOnNull` | agent/lambda/agent-handler/lambda_function.py:145-170 | `get("sessionAttributes") or {}` (line 145) and `get("sessionAttributes", {})` (line 170) give the same map for a missing key or an object. They differ exactly on JSON null: the first gives the empty map, the second keeps null. |
| `AgentHandler.VerifyIdentity` | agent/lambda/agent-handler/lambda_function.py:138-163 | Fails exactly when `slots` or `UserName` is missing, with a KeyError naming that key. A truthy name gives exactly the ElicitIntent response built from the input attributes with `UserName` set to it and the thank-you text (so also the two-button card, no intent and no active contexts). Otherwise it gives ElicitSlot(`UserName`) with empty context attributes, unchanged attributes, the request's intent and the prompt for a name. |
| `AgentHandler.RequestAttributesAfterVerify` | agent/lambda/agent-handler/lambda_function.py:145-150 | The caller's own attribute object after the in-place write. A non-empty object is the one the response carries, so it ends up equal to the response's attributes. A missing, null or empty object is left as it was. |
| `HandlerProperties.VerifyIdentityStoresOnlyUserName` | agent/lambda/agent-handler/lambda_function.py:149-155 | With a truthy name, the outgoing attributes have `UserName` equal to the name. Their keys are the incoming keys plus `UserName`, and no other key's value changes. |
| `HandlerProperties.VerifyIdentityAsksForUserName` | agent/lambda/agent-handler/lambda_function.py:156-163 | Without a truthy name, the result is ElicitSlot(`UserName`) with empty context attributes and the session attributes unchanged. |
| `AgentHandler.SelectionHolder` | agent/lambda/agent-handler/lambda_function.py:174-175 | A `Selection` holder is found only when the intent has a slot map with that key, and then it is that key's holder (possibly null). |
| `AgentHandler.HelplineMessage` | agent/lambda/agent-handler/lambda_function.py:201-212 | The reply differs from the "didn't understand" message exactly when the selection is one of "1" to "5". |
| `AgentHandler.ClosedIntent` | agent/lambda/agent-handler/lambda_function.py:218-223 | The closed intent keeps the name and slots, has state `Fulfilled`, and keeps the confirmation state, which defaults to `"None"`. |
| `AgentHandler.EmergencyHelpline` | agent/lambda/agent-handler/lambda_function.py:166-232 | Never has active contexts. Passes the session attributes through as `get(..., {})` gives them. Without a truthy selection: ElicitSlot(`Selection`), the unchanged intent, and the menu as the only message. With one: Close, the closed intent, and that selection's message as the only message. |
| `MenuProperties.MenuOptionLinesNumbered` | agent/lambda/agent-handler/lambda_function.py:190-194 | There are exactly five option lines. Line k opens with "k. ", each line but the last ends with a newline, and no line holds a newline before its end. |
| `MenuProperties.HelplineMenuListsFiveOptions` | agent/lambda/agent-handler/lambda_function.py:188-195 | The menu text is its prompt followed by those five option lines, in order. The prompt is a single line ending in its only newline, so it holds no option of its own. |
| `HandlerProperties.MenuChoicesAreServed` | agent/lambda/agent-handler/lambda_function.py:188-212 | Every number the menu lists gets its own message. Any other selection gets the fallback. |
| `HandlerProperties.HelplineMessagesDistinct` | agent/lambda/agent-handler/lambda_function.py:201-212 | The five option messages are pairwise different, and each differs from the fallback. |
| `HandlerProperties.HelplineSelectionAlwaysCloses` | agent/lambda/agent-handler/lambda_function.py:211-232 | A truthy selection outside 1 to 5 still gives Close with state `Fulfilled` and only the fallback message. The menu is not shown again. |
| `HandlerProperties.HelplineCloseHasSlots` | agent/lambda/agent-handler/lambda_function.py:177-220 | A Close response is built only when the intent has a slot map. So `intent["slots"]` at line 220 cannot fail, and the slots come back unchanged. |
| `AgentHandler.GenaiIntent` | agent/lambda/agent-handler/lambda_function.py:264-277 | Succeeds exactly on `DialogCodeHook` when the agent returns. It then gives exactly the ElicitIntent response built from the `or {}` attributes and the agent's reply to (transcript, session id). On any other source it fails with the unbound `output`; an agent that raises makes it fail with `AgentFailure`. |
| `AgentHandler.Dispatch` | agent/lambda/agent-handler/lambda_function.py:283-296 | `VerifyIdentity` goes to the identity handler, `Emergencyhelpline` to the helpline, and every other name to the generative handler. The unsupported-intent error never occurs. |
| `HandlerProperties.DispatchFailsExactlyWhen` | agent/lambda/agent-handler/lambda_function.py:283-296 | A turn fails exactly when an identity turn lacks the `slots` or `UserName` key, or a generative turn does not come from `DialogCodeHook` or its agent raises. The helpline never fails. |
| `HandlerProperties.VerifyIdentityExample` | agent/lambda/agent-handler/lambda_function.py:142-155 | A dispatched identity turn with `UserName` resolved to "alex" and no attributes gives ElicitIntent with attributes `{UserName: "alex"}`. |

## Left out

- `invoke_agent` (lines 235-261) is left out. It calls Bedrock through
  LangChain and the `Chat` and `FSIAgent` memory classes, which are not part
  of this model. It appears only as the opaque parameter `agent`. Its
  summary-and-store step is not modelled: the 350-token bound, the
  summarising prompt, and one stored assistant record per call.
- The module-level setup (lines 17-32) is left out: environment variables
  and the boto3 DynamoDB, S3 and Bedrock clients. It is configuration and
  I/O.
- `handler` (lines 302-310) is left out. It only sets the process time zone
  and calls `dispatch`, and the time zone does not affect the logic.
- The `print` at line 275 and the unused imports are left out.
- `Responses.ElicitIntent` drops the `intent_request` parameter of
  `elicit_intent`. The code never reads it.
- `Responses.Delegate` is modelled, but no handler calls `delegate`.
- Shapes are typed, so some Python failures cannot happen in the model:
  - A missing key inside a slot holder (`value`, `resolvedValues`,
    `interpretedValue`, `originalValue`) would raise a KeyError in Python.
  - A JSON null cannot stand where the model has a string. Where the code
    tests such a string, a null behaves like a value that fails the test,
    and the model's handlers take the same path: a null `originalValue` or
    `interpretedValue` gives a falsy slot value (the model gives none or
    `""`); a null intent name goes to `genai_intent` (lines 289-294); a null
    `invocationSource` leads to the unbound `output`. A null
    `inputTranscript` or `sessionId` would be passed to `invoke_agent`,
    which the model cannot express.
  - A null `slots` map would raise a TypeError or AttributeError.
  - A missing intent `name` (lines 219 and 287), `sessionId` (line 270),
    `invocationSource` (line 272) or `inputTranscript` (line 273) would raise
    a KeyError. The model always has these keys.
  - Only the `slots` and `UserName` keys of `verify_identity` are modelled
    as missing-key failures.
- `AgentHandler.ClosedIntent`: a confirmation state that is present but JSON
  null is not modelled. Python would pass the null through; the model always
  has a string or no key.
- Intent keys other than name, slots, state and confirmation state are not
  modelled. Responses that pass the intent through would carry them
  unchanged.
- `AgentHandler.RequestAttributesAfterVerify` covers the aliasing between
  the request's attribute dictionary and the response's on values. It does
  not model object identity.
- The helpline messages are modelled word for word. Which selection gets
  which message is fixed by the definition of `AgentHandler.HelplineMessage`;
  the proved facts are that the fallback is given exactly outside "1" to "5"
  and that the six messages are distinct. The service names and phone
  numbers in them are not proved.
- `AgentHandler.GenaiIntent`: an exception inside `invoke_agent` (lines
  235-261, Bedrock and LangChain calls) is modelled only as the agent
  returning `None` and the turn failing with `AgentFailure`; the kind of
  exception and when the agent raises are not modelled.
