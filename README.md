# WhatsApp webhook relay: the decision pipeline, in Dafny

The relay (`index.js`) receives WhatsApp Cloud API webhooks. On `GET /webhook` it
answers the platform's subscription handshake. On `POST /webhook` it takes the first
message of the delivery, asks an OpenAI chat model for a reply, and, when the text
looks like an order-status question carrying an order number, replaces that reply
with facts from the Shopify orders API (or a clarification, or an apology). It sends
the result back through the WhatsApp send-message API and acknowledges the delivery.

This project models the deterministic part of that pipeline as total functions over
datatypes. The three outbound requests are not performed: their outcomes are inputs
(`LlmOutcome`, `Shopify.Response`, `sendOk`), and the calls the handler makes are an
output trace (`Webhook.Call`).

Modules, one per piece of the handler:

- `JsValues`: a JSON property slot (`Undefined | Null | Val`), JavaScript truthiness,
  `x || default`, `String(x)` and the `a && a[0]` idiom the handler uses throughout.
- `Payload`: the POST body (`entry[].changes[].value.messages[]`) and its inspection
  into `NoEntry`, `NoMessages` or an event (sender, text body, type).
- `OrderIntent`: the three intent patterns `/order\s*#?\d+/i`, `/where.*order/i`,
  `/status.*order/i` and the order-number capture of `/#?(\d{3,20})/`. Each pattern is
  given a declarative meaning (a match exists) and a scanner that tries each start
  position as a backtracking matcher does; the scanners' contracts prove the two agree.
  The order number is proved to be the first run of three or more ASCII digits, cut to
  20, never including the `#`, and that description is proved to determine it.
- `Shopify`: the projection of `resp.data.orders` onto the summary of its first order,
  and the lookup outcome (found, null, thrown).
- `Reply`: the order-status sentence with its `||` defaults, the clarification, the
  apology, and the choice of the final reply.
- `Webhook`: the GET handshake and the POST handler with its response and call trace.

Behaviour of index.js worth noting:

- A failed send makes the POST route answer 500 (the catch at index.js:94-97); it is
  not acknowledged with 200.
- A message without text is passed to the model as is; no default greeting is
  substituted. Its text is tested by the intent patterns as the string "undefined"
  (or "null"), which never matches, so no lookup happens.
- The final reply is not guaranteed to be non-empty: without a lookup it is whatever
  the model returned.
- A failed model call is not absorbed: nothing is sent and the route answers 500.

## Model

| member | source | states |
|---|---|---|
| `Webhook.Verify` | index.js:24-39 | 200 with the challenge verbatim iff mode and token are non-empty, mode is "subscribe" and token equals the configured verify token; 403 iff both are non-empty and that fails; 400 iff either is missing or empty |
| `Webhook.VerifyNeedsConfiguredToken` | index.js:29-32 | a 200 answer implies the configured token is set and non-empty, equals the given token, mode is "subscribe", and the body is the challenge |
| `Payload.Extract` | index.js:45-58 | 'no_entry' exactly when there is no first entry; an event exactly when `entry[0].changes[0].value.messages[0]` exists, carrying that message's `from`, `text.body` and `type` |
| `Payload.ExtractEnvelope` | index.js:45-58 | a message wrapped in the platform's one-entry, one-change envelope is extracted back unchanged |
| `OrderIntent.SkipSpace` | index.js:70 | the greedy `\s*`: the end of the longest white-space run from a position |
| `OrderIntent.OrderNumberAtGreedy` | index.js:70 | after `order`, the pattern `\s*#?\d` matches iff `#?\d` follows the greedy white-space run |
| `OrderIntent.OrderNumberFrom` | index.js:70 | the scanner for `/order\s*#?\d+/i` is true iff a match starts at or after the position |
| `OrderIntent.OrderOnLineFrom` | index.js:70 | the scanner for `.*order` is true iff `order` (any ASCII case) occurs later with no line terminator before it |
| `OrderIntent.WordThenOrderFrom` | index.js:70 | the scanner for `/where.*order/i` and `/status.*order/i` is true iff a match starts at or after the position |
| `OrderIntent.HasOrderIntent` | index.js:70 | the intent test on `String(msgBody)` holds iff one of the three patterns has a match |
| `OrderIntent.PatternsNeedOrderWord` | index.js:70 | every match of any of the three patterns contains the word `order` (so an `o` or `O`) |
| `OrderIntent.NoOWordNoIntent` | index.js:70 | a text with no `o` or `O` never shows intent |
| `OrderIntent.NoIntentWithoutText` | index.js:57-70 | an undefined or null `text.body` (tested as "undefined" / "null") never shows intent |
| `OrderIntent.DigitRun` | index.js:72 | the length of the maximal run of ASCII digits starting at a position |
| `OrderIntent.DigitsAt` | index.js:72 | greedy `\d{3,20}` at a position succeeds iff three digits start there, and captures the run or its first 20 digits |
| `OrderIntent.CaptureAt` | index.js:72 | one attempt of `#?(\d{3,20})`: it fails exactly when neither three digits nor `#` and three digits start there, and a capture is the greedy digit run right there or right after the `#` |
| `OrderIntent.SearchFrom` | index.js:72 | the leftmost-match search finds nothing iff no three consecutive digits occur from the position on, else the capture of the first such run |
| `OrderIntent.ExtractOrderId` | index.js:72-74 | `matched[1]`: absent iff the text has no three consecutive digits; otherwise 3 to 20 ASCII digits, a contiguous substring starting a digit run, the first such run, the whole run unless it is longer than 20 |
| `OrderIntent.CaptureLength` | index.js:72 | a capture of `\d{3,20}` is as long as the digit run at its position, or 20 digits when the run is longer |
| `OrderIntent.FirstOrderIdUnique` | index.js:72-74 | the description of `ExtractOrderId`'s result determines position and value uniquely |
| `OrderIntent.OrderQuery` | index.js:70-74 | a number is looked up only when the intent test passes and the body is a string; then it is the first digit run of it; with intent but no three digits, nothing is looked up |
| `OrderIntent.WhereIsMyOrderQuery` | index.js:70-74 | "Where is my order #12345?" shows intent and yields "12345" |
| `Shopify.Project` | index.js:157-169 | none exactly when `orders` is missing, null or empty; otherwise id, name and status of `orders[0]`, carrier and first tracking number of its first fulfillment when present (falsy otherwise), and a null expected delivery |
| `Shopify.LookupOrder` | index.js:157-169 | a thrown request gives the failure outcome, an empty or missing list gives null, a found summary exists exactly when the list is non-empty, is the projection of the first order, and has a null expected delivery and that order's name |
| `Reply.NotFoundReplyNamesId` | index.js:80 | the clarification contains the order number verbatim right after "I couldn't find order " and ends by asking for the email or phone |
| `Reply.NotFoundReplyInjective` | index.js:80 | different order numbers give different clarifications |
| `Reply.OrderRepliesDistinct` | index.js:78-84 | the status sentence, the clarification and the apology are pairwise different |
| `Reply.FoundReplyAllDefaults` | index.js:78 | with status, tracking, carrier and delivery all falsy, the sentence uses "processing", "Not available", "N/A" and "N/A" |
| `Reply.FoundReplyEndsWithNoDelivery` | index.js:78 | every status sentence built from a looked-up order ends in ". Expected delivery: N/A." |
| `Reply.FoundReplyExample` | index.js:78 | the sentence for order #1001, fulfilled, TRK1, DHL, no delivery date |
| `Reply.FoundReply` | index.js:78 | the status sentence starts with "Order " and the name, mentions the status, tracking number and carrier each with its default, and ends with the expected delivery or "N/A" |
| `Reply.FiveSegments` | index.js:78 | where each of the five segments of the status sentence sits in it |
| `Reply.NotFoundReply` | index.js:80 | the clarification request starts with the fixed lead, holds the order number right after it and ends with the request for contact details |
| `Reply.ApologyText` | index.js:84 | the apology for a failed lookup, word for word |
| `Reply.FinalReply` | index.js:67-87 | without a lookup the model's reply unchanged; a found order gives exactly the status sentence for its summary; not-found gives exactly the clarification request for the number, which names it; a failed lookup gives the fixed apology |
| `Webhook.HandlePost` | index.js:42-98 | at most three outbound calls; every answer is 200 with a body or a bare 500 |
| `Webhook.NoEventNoCalls` | index.js:45-54 | without a first entry 200 'no_entry', without a first message 200 'no_messages', and no outbound call in either case |
| `Webhook.OneSendAfterModel` | index.js:63-97 | for an event the model is asked first; if it answered, exactly one send happens, last, to the sender, and it carries the final reply chosen from the model's answer and the lookup; if it failed, no send and 500 |
| `Webhook.AcknowledgedIff` | index.js:90-97 | 200 'EVENT_RECEIVED' iff there is an event, the model answered and the send succeeded; 500 iff there is an event and one of those calls failed |
| `Webhook.FetchIff` | index.js:70-76 | the order store is asked for a number iff there is an event, the model answered and the text yields that number |
| `Webhook.ModelReplySentUnchanged` | index.js:67-90 | when nothing is looked up, the calls are the model request and a send of the model's reply unchanged |
| `Webhook.OrderFailureAbsorbed` | index.js:75-93 | a failed order request still leads to a send of the apology and, if the send succeeds, to 200 'EVENT_RECEIVED' |
| `Webhook.WhereIsMyOrderExample` | index.js:70-76 | a delivery asking "Where is my order #12345?" makes the handler fetch order "12345" |

## Left out

- Express setup, body parsing, route registration and `app.listen` (index.js:6-12, 172-174): transport plumbing.
- Reading the environment (index.js:14-21): the verify token is a parameter of `Webhook.Verify`; the other credentials only shape requests that are not modelled.
- The requests themselves (index.js:100-155): URLs, headers, the persona prompt, model parameters, `encodeURIComponent` and the response decoding are network I/O; only their outcomes are modelled, and the model's reply text (including its `.trim()`) is an opaque input.
- `console.log` / `console.error` logging, and `async`/`await` beyond the order of the calls, which the call trace records.
- JSON values of unexpected types: entries, changes, messages, orders and fulfillments are modelled as objects or missing/null, and scalar fields as strings (ids as integers). A body that is not a string (which would make `msgBody.match` throw) and a missing `req.body` are not modelled.
- Repeated query parameters, which Express delivers as arrays; query values are strings or missing.
- How Express renders `res.send(undefined)` and the status texts of `res.sendStatus`: the model keeps the call (`Send` or `SendStatus`) and its arguments.
- JavaScript strings are UTF-16 code units while a Dafny `char` is a Unicode scalar value; none of the patterns depend on the difference.
- `Webhook.HandlePost`: its own contract states only the shape of the answer; what the handler does is stated by the lemmas about it in the rows above.
