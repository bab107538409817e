# Chatwoot form bot: webhook decisions

A model of the webhook handler of a Chatwoot bot backend. On every inbound event the
handler does three things. It finds the conversation the event belongs to. It decides
which message to post: the welcome card, the bid form, the sales form, or nothing. It
then answers the HTTP request with 200 "OK", 200 "OK - No conversation ID" or
400 "Bad Request".

The model is pure. The handler's calls to `postMessage` become the `Post` values it
returns in its outcome.

- `js.dfy` (module `Js`): the JavaScript semantics the handler relies on. This covers the
  values `JSON.parse` produces plus `undefined`, truthiness, `a || b` (which yields an
  operand, not a boolean), property access with and without `?.`, when converting a
  value to a string in a template literal throws, and `String.prototype.toLowerCase`.
- `payloads.dfy` (module `Payloads`): the three outbound payloads as datatypes. Each has a
  content type, a private flag and an ordered list of items.
- `webhook.dfy` (module `Webhook`): the four id probes and their `||` chain, the choice of
  reply to an incoming text, the routing of a whole request body to an `Outcome`, and
  the HTTP response.
- `scenarios.dfy` (module `Scenarios`): the handler on concrete events.

Points of the handler's behaviour that are easy to miss:
- The id is looked up in four places, in this order: `conversation.id`, `data.id`,
  `message.conversation_id`, `data.conversation_id`.
- The first *truthy* value wins, so `0` and `""` are skipped like `null`.
- The handler can fail. Take an incoming text message (`message_created`, `message_type`
  "incoming", `content_type` "text") with a conversation id. If its `content` is not a
  string (absent, `null`, a number, an array, an object), `toLowerCase` throws and the
  request is answered 400. Other events without a string `content` are answered 200 as
  usual. The body `null` is also answered 400: reading `eventData.conversation` on it
  throws.
- Before each post the handler logs the id with a template literal. That conversion
  throws for an object that has its own `toString` key, and for an array holding such a
  value. Then nothing is posted and the request is answered 400.
- Only the whole text is compared with the triggers; a trigger inside a longer message
  does nothing. Form submissions get no confirmation, the welcome card is posted only on
  `conversation_created`, and there is no `input_select` fallback.

## Model

| member | source | states |
|---|---|---|
| `Js.Truthy` | chatwoot-form-bot.js:166-172 | `null` and `undefined` are falsy; every array and object is truthy; a string is truthy iff it is non-empty; a number iff it is non-zero |
| `Js.Or` | chatwoot-form-bot.js:166-170 | JavaScript's or-operator yields one of its operands: the left one when it is truthy, the right one otherwise; it is truthy iff either operand is |
| `Js.Prop` | chatwoot-form-bot.js:167-190 | reading a key of a non-nullish value yields the object's own entry for that key, and `undefined` when it has none or the value is not an object |
| `Js.OptProp` | chatwoot-form-bot.js:167-188 | optional reading yields `undefined` on `null`/`undefined` and is plain reading otherwise; a defined result comes from an own key of an object |
| `Js.ToStringThrows` | chatwoot-form-bot.js:180-202 | converting a value to a string throws only for objects and arrays; an object throws iff it has its own `toString` key |
| `Js.ToLower` | chatwoot-form-bot.js:194 | lower-casing keeps the length and maps each character to its lower case |
| `Js.ToLowerEqualsPhrase` | chatwoot-form-bot.js:192-201 | comparing `s.toLowerCase()` with a lower-case ASCII phrase holds iff `s` spells the phrase in some letter case |
| `Payloads.InitialChoices` | chatwoot-form-bot.js:44-60 | the welcome card is a public `card` with the welcome text and one item holding exactly two `post_back` actions: "Make a Bid"/ACTION_BID, then "Check Sales"/ACTION_SALES |
| `Payloads.BidForm` | chatwoot-form-bot.js:67-104 | the bid form is a public `form` without content and with five controls |
| `Payloads.BidFormLayout` | chatwoot-form-bot.js:72-101 | the bid form's controls are `full_name`, `email`, `item_name`, `bid_amount`, `submit` in that order; the four inputs are required `text` fields; the last is the `submit` button "Submit Bid" |
| `Payloads.SalesForm` | chatwoot-form-bot.js:111-141 | the sales form is a public `form` without content and with four controls |
| `Payloads.SalesFormLayout` | chatwoot-form-bot.js:116-138 | the sales form's controls are `full_name`, `email`, `inquiry_details`, `submit` in that order; the first two are `text` fields, the third a `textarea`, all three required; the last is the `submit` button "Send Inquiry" |
| `Webhook.Probes` | chatwoot-form-bot.js:166-170 | the four candidate ids are `conversation?.id`, `data?.id`, `message?.conversation_id`, `data?.conversation_id`, in that order; all are `undefined` when the event is not an object |
| `Webhook.ResolveId` | chatwoot-form-bot.js:166-172 | a resolved id is truthy and is one of the four probed values |
| `Webhook.ResolveIdIsFirstTruthy` | chatwoot-form-bot.js:166-172 | the id is the first truthy probe in the order `conversation.id`, `data.id`, `message.conversation_id`, `data.conversation_id`; there is none iff all four are falsy |
| `Webhook.IsEvent` | chatwoot-form-bot.js:179-186 | the event test holds only for an object whose `event` is exactly the given string |
| `Webhook.IsIncomingText` | chatwoot-form-bot.js:185-188 | an incoming text is a `message_created` event with a `message` object, and is never a `conversation_created` event |
| `Webhook.UserInput` | chatwoot-form-bot.js:190 | the user input is the message's `content`, `undefined` when it has none |
| `Webhook.ReplyTo` | chatwoot-form-bot.js:190-206 | the reply to an input throws iff the input is not a string; otherwise it is the bid form, the sales form or nothing |
| `Webhook.ReplyToText` | chatwoot-form-bot.js:192-206 | a text gets the bid form iff it is exactly ACTION_BID or "make a bid" in any case; otherwise the sales form iff it is exactly ACTION_SALES or "check sales" in any case; otherwise nothing |
| `Webhook.Route` | chatwoot-form-bot.js:158-216 | no conversation id iff the event parsed, is not null and has no truthy probe; 400 iff the body did not parse, is null, or has an id and either is `conversation_created` with an id that cannot be converted to a string, or is an incoming text whose content is not a string, or is an incoming text that asks for a form with such an id; a handled event posts at most one message, always to the resolved id, which converts to a string |
| `Webhook.BranchesExclusive` | chatwoot-form-bot.js:179-188 | no event is both `conversation_created` and an incoming text, so the two branches never both post |
| `Webhook.WelcomeOnConversationCreated` | chatwoot-form-bot.js:179-182 | a `conversation_created` event with an id posts exactly the welcome card to that id when the id converts to a string, and is a bad request when it does not |
| `Webhook.RouteIncomingText` | chatwoot-form-bot.js:185-207 | an incoming text with an id is a bad request when its reply throws; it posts nothing when there is no reply; it posts the reply to the id when the id converts to a string, and is a bad request otherwise |
| `Webhook.IncomingTextReply` | chatwoot-form-bot.js:185-206 | an incoming text with an id posts exactly the bid form, exactly the sales form, or nothing, by the trigger rules above; it is a bad request iff it asks for a form and the id cannot be converted to a string |
| `Webhook.OtherEventsIgnored` | chatwoot-form-bot.js:179-210 | an event with an id that is neither `conversation_created` nor an incoming text posts nothing and is acknowledged |
| `Webhook.Respond` | chatwoot-form-bot.js:172-214 | a missing id is answered 200 "OK - No conversation ID", a handled event 200 "OK", a bad request 400 "Bad Request"; the status is 400 iff the outcome is a bad request |
| `Scenarios.NewConversationGetsWelcomeCard` | chatwoot-form-bot.js:166-182 | `{event: "conversation_created", conversation: {id: 42}}` posts the welcome card to 42 |
| `Scenarios.MissingIdIsAcknowledged` | chatwoot-form-bot.js:166-176 | `{event: "message_created"}` alone is acknowledged with "OK - No conversation ID" |
| `Scenarios.FalsyIdsAreSkipped` | chatwoot-form-bot.js:166-170 | with `conversation.id` 0, `data.id` "" and `message.conversation_id` null, the id is `data.conversation_id` |
| `Scenarios.IncomingTextIsRouted` | chatwoot-form-bot.js:166-190 | an incoming text whose id is in `message.conversation_id` resolves to that id and its input is its content |
| `Scenarios.IncomingTextGets` | chatwoot-form-bot.js:185-207 | such an incoming text with a string content gets the bid form, the sales form, nothing, or a bad request, by the trigger rules and the id's conversion |
| `Scenarios.NonStringContentGets` | chatwoot-form-bot.js:190-214 | such an incoming text with a content that is not a string is a bad request |
| `Scenarios.PhraseInAnyCaseGetsBidForm` | chatwoot-form-bot.js:192-197 | the text "MAKE A Bid" gets the bid form |
| `Scenarios.CheckSalesGetsSalesForm` | chatwoot-form-bot.js:198-203 | the text "Check Sales" gets the sales form |
| `Scenarios.LowerCaseActionCodeGetsNothing` | chatwoot-form-bot.js:192-206 | the text "action_bid" gets no reply: the action code is compared exactly |
| `Scenarios.SalesActionCodeGetsSalesForm` | chatwoot-form-bot.js:198-203 | the text "ACTION_SALES" gets the sales form |
| `Scenarios.NonStringContentIsBadRequest` | chatwoot-form-bot.js:190-214 | an incoming text with no content, or a numeric content, is answered 400 "Bad Request" |
| `Scenarios.NullBodyIsBadRequest` | chatwoot-form-bot.js:160-214 | the body `null` is answered as a bad request |
| `Scenarios.OutgoingMessageGetsNothing` | chatwoot-form-bot.js:185-189 | an outgoing message is not answered, even when its content is ACTION_BID |
| `Scenarios.UnprintableIdRejectsWelcome` | chatwoot-form-bot.js:179-182 | a new conversation whose id is `{toString: 0}` gets no welcome card and is a bad request |
| `Scenarios.UnprintableIdRejectsBidForm` | chatwoot-form-bot.js:192-197 | ACTION_BID sent to the id `[1, {toString: null}]` gets no bid form and is a bad request |
| `Scenarios.ArrayIdGetsBidForm` | chatwoot-form-bot.js:192-197 | ACTION_BID sent to the id `[1, 2]` gets the bid form, posted to that array |

## Left out

- `postMessage` and `fetch` (chatwoot-form-bot.js:17-39): the network call, its headers and its error logging. The model returns the `Post` values instead of sending them. Because sends are not awaited, the HTTP answer does not depend on them.
- The HTTP server: the 405 answer to methods other than POST, collecting the body, and `JSON.parse` (chatwoot-form-bot.js:148-160, 220-226). This is transport. A body that does not parse is the `Body.Unparseable` input, which maps to a bad request.
- Configuration read from `process.env`. The access token, account id and base URL (chatwoot-form-bot.js:9-12) only feed the headers and URL of `postMessage`. The port (chatwoot-form-bot.js:221) only feeds `server.listen`.
- `console.log` and `console.error` calls: their output only. The string conversion of the id in the template literals at chatwoot-form-bot.js:180, 196 and 202 is modelled (`Js.ToStringThrows`, used in `Webhook.Route`).
- Js.ToLower: covers only the characters whose lower case is an ASCII character different from themselves (`A`-`Z` and U+212A KELVIN SIGN). Other characters are left unchanged, not mapped by the full Unicode table. The handler only compares the result with the ASCII phrases "make a bid" and "check sales", and no other character lowers to ASCII, so for those comparisons the model agrees with JavaScript.
- Strings are sequences of Unicode scalar values. JavaScript's UTF-16 code units, including lone surrogates, are not modelled.
- JSON numbers are reals. A number that `JSON.parse` turns into `Infinity` is not represented; it would be truthy like any non-zero number.
- Property access models own properties of plain objects only. Prototype properties and array indices are not modelled. None of the keys the handler reads (`conversation`, `data`, `message`, `id`, `conversation_id`, `event`, `message_type`, `content_type`, `content`) is one of those.
- Code that throws after something was posted: it cannot happen. The `toLowerCase` calls and the logging of the id come before the only post of their branch, and the two posting branches exclude each other (`Webhook.BranchesExclusive`). So `Webhook.Route` does not record posts made before an exception.
