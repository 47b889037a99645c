/**
 * The reply the handler sends: the language model's answer, overridden by an
 * order-status sentence, a clarification request or an apology when an order
 * number was looked up.
 */
module Reply {
  import opened Wrappers
  import opened JsValues
  import opened Shopify

  predicate StartsWith(s: string, prefix: string) {
    |prefix| <= |s| && s[..|prefix|] == prefix
  }

  predicate EndsWith(s: string, suffix: string) {
    |suffix| <= |s| && s[|s| - |suffix|..] == suffix
  }

  predicate OccursAt(s: string, i: nat, id: string) {
    i + |id| <= |s| && s[i .. i + |id|] == id
  }

  /** `id` occurs verbatim in `s`. */
  ghost predicate Mentions(s: string, id: string) {
    exists i :: OccursAt(s, i, id)
  }

  const NotFoundLead := "I couldn't find order "
  const ContactRequest := ". Could you please share the email or phone used for the order?"
  // The fixed texts are written in pieces and the status sentence is grouped by
  // segment only because the solver reasons about short string literals more readily.
  const Apology := "Sorry, I couldn't fetch your order" + " right now. Try again in a bit."

  /** The status sentence for a found order; each falsy field falls back to its default. */
  function FoundReply(o: OrderSummary): (r: string)
    ensures StartsWith(r, "Order " + Str(o.name))
    ensures Mentions(r, " is currently " + Or(o.fulfillmentStatus, "processing"))
    ensures Mentions(r, ". Tracking: " + Or(o.trackingNumber, "Not available"))
    ensures Mentions(r, ". Shipping service: " + Or(o.shippingCarrier, "N/A"))
    ensures EndsWith(r, ". Expected delivery: " + Or(o.expectedDelivery, "N/A") + ".")
  {
    var name := "Order " + Str(o.name);
    var status := " is currently " + Or(o.fulfillmentStatus, "processing");
    var tracking := ". Tracking: " + Or(o.trackingNumber, "Not available");
    var carrier := ". Shipping service: " + Or(o.shippingCarrier, "N/A");
    var delivery := ". Expected delivery: " + Or(o.expectedDelivery, "N/A") + ".";
    FiveSegments(name, status, tracking, carrier, delivery);
    name + status + tracking + carrier + delivery
  }

  /** Where each segment of a five-part concatenation sits. */
  lemma FiveSegments(a: string, b: string, c: string, d: string, e: string)
    ensures var r := a + b + c + d + e;
      && StartsWith(r, a)
      && OccursAt(r, |a|, b)
      && OccursAt(r, |a| + |b|, c)
      && OccursAt(r, |a| + |b| + |c|, d)
      && EndsWith(r, e)
  {
    var r := a + b + c + d + e;
    assert r[..|a|] == a;
    assert r[|a| .. |a| + |b|] == b;
    assert r[|a| + |b| .. |a| + |b| + |c|] == c;
    assert r[|a| + |b| + |c| .. |a| + |b| + |c| + |d|] == d;
    assert r[|r| - |e| ..] == e;
  }

  /** The clarification request when no order has the number. */
  function NotFoundReply(id: string): (r: string)
    ensures |r| == |NotFoundLead| + |id| + |ContactRequest|
    ensures StartsWith(r, NotFoundLead) && EndsWith(r, ContactRequest)
    ensures r[|NotFoundLead| .. |NotFoundLead| + |id|] == id
  {
    var r := NotFoundLead + id + ContactRequest;
    assert r[..|NotFoundLead|] == NotFoundLead;
    assert r[|r| - |ContactRequest| ..] == ContactRequest;
    assert r[|NotFoundLead| .. |NotFoundLead| + |id|] == id;
    r
  }

  /** The apology for a failed order request, word for word. */
  lemma ApologyText()
    ensures Apology == "Sorry, I couldn't fetch your order right now. Try again in a bit."
  {
  }

  /** The clarification names the number verbatim and ends by asking for the email or phone. */
  lemma NotFoundReplyNamesId(id: string)
    ensures NotFoundReply(id)[|NotFoundLead| .. |NotFoundLead| + |id|] == id
    ensures Mentions(NotFoundReply(id), id)
    ensures EndsWith(NotFoundReply(id), ContactRequest)
  {
    var r := NotFoundReply(id);
    assert r[|NotFoundLead| .. |NotFoundLead| + |id|] == id;
    assert OccursAt(r, |NotFoundLead|, id);
    assert r[|r| - |ContactRequest| ..] == ContactRequest;
  }

  /** Different numbers give different clarifications. */
  lemma NotFoundReplyInjective(id1: string, id2: string)
    requires NotFoundReply(id1) == NotFoundReply(id2)
    ensures id1 == id2
  {
    NotFoundReplyNamesId(id1);
    NotFoundReplyNamesId(id2);
    var r := NotFoundReply(id1);
    assert |id1| == |r| - |NotFoundLead| - |ContactRequest| == |id2|;
  }

  /** The three order replies can never be confused with one another. */
  lemma OrderRepliesDistinct(o: OrderSummary, id: string)
    ensures FoundReply(o) != NotFoundReply(id)
    ensures FoundReply(o) != Apology
    ensures NotFoundReply(id) != Apology
  {
    assert FoundReply(o)[0] == 'O';
    assert NotFoundReply(id)[0] == 'I';
    assert Apology[0] == 'S';
  }

  /** An order with no status, tracking, carrier or delivery date gets every default. */
  lemma FoundReplyAllDefaults(o: OrderSummary)
    requires !Truthy(o.fulfillmentStatus) && !Truthy(o.trackingNumber)
    requires !Truthy(o.shippingCarrier) && !Truthy(o.expectedDelivery)
    ensures FoundReply(o) == "Order " + Str(o.name) + " is currently processing"
      + ". Tracking: Not available" + ". Shipping service: N/A" + ". Expected delivery: N/A."
  {
    assert Or(o.fulfillmentStatus, "processing") == "processing";
    assert Or(o.trackingNumber, "Not available") == "Not available";
    assert Or(o.shippingCarrier, "N/A") == "N/A";
    assert Or(o.expectedDelivery, "N/A") == "N/A";
    assert " is currently " + "processing" == " is currently processing";
    assert ". Tracking: " + "Not available" == ". Tracking: Not available";
    assert ". Shipping service: " + "N/A" == ". Shipping service: N/A";
    assert ". Expected delivery: " + "N/A" + "." == ". Expected delivery: N/A.";
  }

  /** Every summary the lookup produces leaves the delivery date null, so every status sentence ends the same way. */
  lemma FoundReplyEndsWithNoDelivery(resp: Response)
    requires LookupOrder(resp).Found?
    ensures EndsWith(FoundReply(LookupOrder(resp).summary), ". Expected delivery: N/A.")
  {
    var o := LookupOrder(resp).summary;
    var r := FoundReply(o);
    var head := "Order " + Str(o.name)
      + (" is currently " + Or(o.fulfillmentStatus, "processing"))
      + (". Tracking: " + Or(o.trackingNumber, "Not available"))
      + (". Shipping service: " + Or(o.shippingCarrier, "N/A"));
    assert r == head + ". Expected delivery: N/A.";
  }

  /** A worked case: a fulfilled order with tracking and carrier and no delivery date. */
  lemma FoundReplyExample()
    ensures FoundReply(OrderSummary(Val(1001), Val("#1001"), Val("fulfilled"), Val("TRK1"), Val("DHL"), Null))
      == "Order #1001" + " is currently fulfilled" + ". Tracking: TRK1" + ". Shipping service: DHL"
       + ". Expected delivery: N/A."
  {
    var o := OrderSummary(Val(1001), Val("#1001"), Val("fulfilled"), Val("TRK1"), Val("DHL"), Null);
    assert Str(o.name) == "#1001";
    assert Or(o.fulfillmentStatus, "processing") == "fulfilled";
    assert Or(o.trackingNumber, "Not available") == "TRK1";
    assert Or(o.shippingCarrier, "N/A") == "DHL";
    assert Or(o.expectedDelivery, "N/A") == "N/A";
    assert "Order " + "#1001" == "Order #1001";
    assert " is currently " + "fulfilled" == " is currently fulfilled";
    assert ". Tracking: " + "TRK1" == ". Tracking: TRK1";
    assert ". Shipping service: " + "DHL" == ". Shipping service: DHL";
    assert ". Expected delivery: " + "N/A" + "." == ". Expected delivery: N/A.";
  }

  /**
   * `finalReply`: the model's reply, unless an order number was looked up, in
   * which case the lookup outcome decides; a failed lookup is absorbed into the apology.
   */
  function FinalReply(llmReply: string, query: Option<string>, lookup: Lookup): (r: string)
    ensures query.None? ==> r == llmReply
    ensures query.Some? && lookup.Found? ==> r == FoundReply(lookup.summary)
    ensures query.Some? && lookup.Found? ==> StartsWith(r, "Order ") && EndsWith(r, ".")
    ensures query.Some? && lookup.NotFound? ==> r == NotFoundReply(query.value)
    ensures query.Some? && lookup.NotFound? ==> Mentions(r, query.value) && EndsWith(r, ContactRequest)
    ensures query.Some? && lookup.LookupFailed? ==> r == Apology
  {
    match query
    case None => llmReply
    case Some(id) =>
      match lookup
      case Found(o) =>
        var r := FoundReply(o);
        assert r[..6] == "Order ";
        r
      case NotFound =>
        NotFoundReplyNamesId(id);
        NotFoundReply(id)
      case LookupFailed => Apology
  }
}
