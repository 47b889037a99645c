/**
 * The two routes of the relay. GET /webhook answers the platform's subscription
 * handshake; POST /webhook inspects one delivery, asks the language model, may
 * look up an order, sends one reply and acknowledges. The three outbound calls
 * are inputs (their outcomes) and outputs (the trace of calls made, in order).
 */
module Webhook {
  import opened Wrappers
  import opened JsValues
  import opened Payload
  import opened OrderIntent
  import opened Shopify
  import opened Reply

  /** What the route does with `res`: `res.status(s).send(body)` or `res.sendStatus(s)`. */
  datatype HttpResponse = Send(status: nat, body: JStr) | SendStatus(status: nat)

  // ---------------------------------------------------------------------------
  // GET /webhook
  // ---------------------------------------------------------------------------

  /**
   * The handshake on `hub.mode`, `hub.verify_token` and `hub.challenge`, against
   * the configured verify token (Undefined when the variable is unset).
   */
  function Verify(mode: JStr, token: JStr, challenge: JStr, verifyToken: JStr): (r: HttpResponse)
    ensures r == Send(200, challenge) <==>
      Truthy(mode) && Truthy(token) && mode.v == "subscribe" && token == verifyToken
    ensures r == SendStatus(403) <==>
      Truthy(mode) && Truthy(token) && !(mode.v == "subscribe" && token == verifyToken)
    ensures r == SendStatus(400) <==> !(Truthy(mode) && Truthy(token))
  {
    if Truthy(mode) && Truthy(token) then
      if mode.v == "subscribe" && token == verifyToken then Send(200, challenge)
      else SendStatus(403)
    else SendStatus(400)
  }

  /** Only the configured, non-empty verify token opens the handshake; an unset one never does. */
  lemma VerifyNeedsConfiguredToken(mode: JStr, token: JStr, challenge: JStr, verifyToken: JStr)
    requires Verify(mode, token, challenge, verifyToken).status == 200
    ensures Truthy(verifyToken) && token == verifyToken && mode == Val("subscribe")
    ensures Verify(mode, token, challenge, verifyToken).body == challenge
  {
  }

  // ---------------------------------------------------------------------------
  // POST /webhook
  // ---------------------------------------------------------------------------

  /** The outcome of the chat-completion request: the trimmed reply text, or a thrown error. */
  datatype LlmOutcome = Replied(reply: string) | LlmFailed

  /** An outbound call the handler makes. */
  datatype Call =
    | AskModel(userText: JStr)            // handleMessageWithOpenAI(from, msgBody)
    | FetchOrder(name: string)            // getShopifyOrderByName(orderId)
    | SendText(to: JStr, text: string)    // sendWhatsAppTextMessage(from, finalReply)

  /** The route's answer and the outbound calls it made, in order. */
  datatype Handled = Handled(response: HttpResponse, calls: seq<Call>)

  /**
   * POST /webhook. `llm`, `orders` and `sendOk` are the outcomes of the three
   * outbound requests; `orders` is consulted only when an order number is looked up.
   */
  function HandlePost(body: Body, llm: LlmOutcome, orders: Shopify.Response, sendOk: bool): (h: Handled)
    ensures |h.calls| <= 3
    ensures h.response.Send? ==> h.response.status == 200
    ensures h.response.SendStatus? ==> h.response.status == 500
  {
    match Extract(body)
    case NoEntry => Handled(Send(200, Val("no_entry")), [])
    case NoMessages => Handled(Send(200, Val("no_messages")), [])
    case Event(from, text, _) =>
      match llm
      case LlmFailed => Handled(SendStatus(500), [AskModel(text)])
      case Replied(base) =>
        var query := OrderQuery(text);
        var lookup := if query.Some? then LookupOrder(orders) else NotFound;
        var reply := FinalReply(base, query, lookup);
        var fetches := if query.Some? then [FetchOrder(query.value)] else [];
        var calls := [AskModel(text)] + fetches + [SendText(from, reply)];
        Handled(if sendOk then Send(200, Val("EVENT_RECEIVED")) else SendStatus(500), calls)
  }

  /** The number of messages sent in a trace of calls. */
  function SendCount(calls: seq<Call>): nat {
    if calls == [] then 0
    else (if calls[0].SendText? then 1 else 0) + SendCount(calls[1..])
  }

  lemma {:induction false} SendCountAppend(a: seq<Call>, b: seq<Call>)
    ensures SendCount(a + b) == SendCount(a) + SendCount(b)
  {
    if a == [] {
      assert a + b == b;
    } else {
      assert (a + b)[1..] == a[1..] + b;
      SendCountAppend(a[1..], b);
    }
  }

  /** A body without a first entry or without a first message is acknowledged with no outbound call. */
  lemma NoEventNoCalls(body: Body, llm: LlmOutcome, orders: Shopify.Response, sendOk: bool)
    requires !Extract(body).Event?
    ensures HandlePost(body, llm, orders, sendOk).calls == []
    ensures !HasEntry(body) ==> HandlePost(body, llm, orders, sendOk).response == Send(200, Val("no_entry"))
    ensures HasEntry(body) ==> HandlePost(body, llm, orders, sendOk).response == Send(200, Val("no_messages"))
  {
  }

  /**
   * For a message, the model is asked first; then, if it answered, exactly one
   * reply is sent, as the last call, to the sender, with the final reply.
   * If it failed, nothing is sent and the route answers 500.
   */
  lemma OneSendAfterModel(body: Body, llm: LlmOutcome, orders: Shopify.Response, sendOk: bool)
    requires Extract(body).Event?
    ensures var h := HandlePost(body, llm, orders, sendOk);
      && |h.calls| > 0 && h.calls[0] == AskModel(Extract(body).text)
      && (llm.LlmFailed? ==> SendCount(h.calls) == 0 && h.response == SendStatus(500))
      && (llm.Replied? ==>
            && SendCount(h.calls) == 1
            && h.calls[|h.calls| - 1].SendText?
            && h.calls[|h.calls| - 1].to == Extract(body).from)
    ensures var h := HandlePost(body, llm, orders, sendOk);
      var q := OrderQuery(Extract(body).text);
      llm.Replied? ==>
        h.calls[|h.calls| - 1]
          == SendText(Extract(body).from, FinalReply(llm.reply, q, if q.Some? then LookupOrder(orders) else NotFound))
  {
    var h := HandlePost(body, llm, orders, sendOk);
    var e := Extract(body);
    if llm.Replied? {
      var query := OrderQuery(e.text);
      var fetches := if query.Some? then [FetchOrder(query.value)] else [];
      var last := h.calls[|h.calls| - 1];
      assert h.calls == [AskModel(e.text)] + fetches + [last];
      SendCountAppend([AskModel(e.text)] + fetches, [last]);
      SendCountAppend([AskModel(e.text)], fetches);
      assert SendCount([last]) == 1 by { assert [last][1..] == []; }
      assert SendCount([AskModel(e.text)]) == 0 by { assert [AskModel(e.text)][1..] == []; }
    } else {
      assert h.calls == [AskModel(e.text)];
      assert h.calls[1..] == [];
    }
  }

  /** The route acknowledges with 'EVENT_RECEIVED' exactly when there was a message, the model answered and the send succeeded. */
  lemma AcknowledgedIff(body: Body, llm: LlmOutcome, orders: Shopify.Response, sendOk: bool)
    ensures HandlePost(body, llm, orders, sendOk).response == Send(200, Val("EVENT_RECEIVED"))
      <==> Extract(body).Event? && llm.Replied? && sendOk
    ensures HandlePost(body, llm, orders, sendOk).response == SendStatus(500)
      <==> Extract(body).Event? && (llm.LlmFailed? || !sendOk)
  {
  }

  /** The order store is asked for `id` exactly when the model answered and the text yields that order number. */
  lemma FetchIff(body: Body, llm: LlmOutcome, orders: Shopify.Response, sendOk: bool, id: string)
    ensures FetchOrder(id) in HandlePost(body, llm, orders, sendOk).calls
      <==> Extract(body).Event? && llm.Replied? && OrderQuery(Extract(body).text) == Some(id)
  {
    var h := HandlePost(body, llm, orders, sendOk);
    if Extract(body).Event? && llm.Replied? {
      var e := Extract(body);
      var query := OrderQuery(e.text);
      if query.Some? {
        assert h.calls[1] == FetchOrder(query.value);
      }
    }
  }

  /** Without a lookup (no intent, no number, no text), the model's reply is sent unchanged. */
  lemma ModelReplySentUnchanged(body: Body, reply: string, orders: Shopify.Response, sendOk: bool)
    requires Extract(body).Event?
    ensures OrderQuery(Extract(body).text).None? ==>
      HandlePost(body, Replied(reply), orders, sendOk).calls
        == [AskModel(Extract(body).text), SendText(Extract(body).from, reply)]
  {
  }

  /** A failed order request is absorbed: the apology is sent and the delivery is still acknowledged when the send succeeds. */
  lemma OrderFailureAbsorbed(body: Body, reply: string)
    requires Extract(body).Event?
    ensures var h := HandlePost(body, Replied(reply), RequestFailed, true);
      && h.response == Send(200, Val("EVENT_RECEIVED"))
      && (OrderQuery(Extract(body).text).Some? ==> h.calls[|h.calls| - 1] == SendText(Extract(body).from, Apology))
  {
  }

  /** The delivery in the platform's usual shape, asking where order #12345 is. */
  function ExampleBody(): Body {
    Envelope(Message(Val("15550001111"), Val(TextContent(Val(WhereIsMyOrder))), Val("text")))
  }

  /** For that delivery the handler asks the order store for "12345". */
  lemma WhereIsMyOrderExample(reply: string, orders: Shopify.Response, sendOk: bool)
    ensures FetchOrder("12345") in HandlePost(ExampleBody(), Replied(reply), orders, sendOk).calls
  {
    var m := Message(Val("15550001111"), Val(TextContent(Val(WhereIsMyOrder))), Val("text"));
    ExtractEnvelope(m);
    WhereIsMyOrderQuery();
    FetchIff(ExampleBody(), Replied(reply), orders, sendOk, "12345");
  }
}
