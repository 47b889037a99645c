/**
 * The pure tail of the order lookup: the parsed `resp.data.orders` of the Shopify
 * orders request is reduced to a summary of its first order, or to null.
 */
module Shopify {
  import opened Wrappers
  import opened JsValues

  datatype Fulfillment = Fulfillment(trackingNumbers: Field<seq<JStr>>, trackingCompany: JStr)
  datatype Order = Order(id: Field<int>, name: JStr, fulfillmentStatus: JStr, fulfillments: Field<seq<Fulfillment>>)

  /** The object the lookup returns for a found order. */
  datatype OrderSummary = OrderSummary(
    id: Field<int>,
    name: JStr,
    fulfillmentStatus: JStr,
    trackingNumber: JStr,
    shippingCarrier: JStr,
    expectedDelivery: JStr)

  /** The outcome of the orders request: the `orders` property of the response, or a thrown error. */
  datatype Response = Responded(orders: Field<seq<Order>>) | RequestFailed

  /** What the lookup gives the handler: a summary, null, or an exception. */
  datatype Lookup = Found(summary: OrderSummary) | NotFound | LookupFailed

  /** `o.fulfillments && o.fulfillments[0] && o.fulfillments[0].tracking_numbers && o.fulfillments[0].tracking_numbers[0]`. */
  function TrackingNumber(o: Order): JStr {
    match First(o.fulfillments)
    case Undefined => Undefined
    case Null => Null
    case Val(f) =>
      match First(f.trackingNumbers)
      case Undefined => Undefined
      case Null => Null
      case Val(t) => t
  }

  /** `o.fulfillments && o.fulfillments[0] && o.fulfillments[0].tracking_company`. */
  function ShippingCarrier(o: Order): JStr {
    match First(o.fulfillments)
    case Undefined => Undefined
    case Null => Null
    case Val(f) => f.trackingCompany
  }

  /** The first fulfillment of an order, when its `fulfillments` is a non-empty array. */
  ghost predicate FirstFulfillmentIs(o: Order, f: Fulfillment) {
    o.fulfillments.Val? && |o.fulfillments.v| > 0 && o.fulfillments.v[0] == f
  }

  /**
   * `orders = resp.data.orders || []`, then null when it is empty, and otherwise the
   * summary of `orders[0]`.
   */
  function Project(orders: Field<seq<Order>>): (r: Option<OrderSummary>)
    ensures r.None? <==> !(orders.Val? && |orders.v| > 0)
    ensures r.Some? ==>
      var o := orders.v[0];
      && r.value.id == o.id && r.value.name == o.name
      && r.value.fulfillmentStatus == o.fulfillmentStatus
      && r.value.expectedDelivery == Null
    ensures r.Some? ==> forall f :: FirstFulfillmentIs(orders.v[0], f) ==>
      && r.value.shippingCarrier == f.trackingCompany
      && (f.trackingNumbers.Val? && |f.trackingNumbers.v| > 0 ==> r.value.trackingNumber == f.trackingNumbers.v[0])
      && (!(f.trackingNumbers.Val? && |f.trackingNumbers.v| > 0) ==> !Truthy(r.value.trackingNumber))
    ensures r.Some? && !(exists f :: FirstFulfillmentIs(orders.v[0], f)) ==>
      !Truthy(r.value.trackingNumber) && !Truthy(r.value.shippingCarrier)
  {
    var list := if orders.Val? then orders.v else [];
    if |list| == 0 then None
    else
      var o := list[0];
      assert First(o.fulfillments).Val? ==> FirstFulfillmentIs(o, First(o.fulfillments).v);
      Some(OrderSummary(o.id, o.name, o.fulfillmentStatus, TrackingNumber(o), ShippingCarrier(o), Null))
  }

  /** `getShopifyOrderByName` as the handler sees it, given the outcome of its request. */
  function LookupOrder(resp: Response): (r: Lookup)
    ensures r.LookupFailed? <==> resp.RequestFailed?
    ensures r.NotFound? <==> resp.Responded? && !(resp.orders.Val? && |resp.orders.v| > 0)
    ensures r.Found? <==> resp.Responded? && resp.orders.Val? && |resp.orders.v| > 0
    ensures r.Found? ==> Project(resp.orders) == Some(r.summary)
    ensures r.Found? ==> r.summary.expectedDelivery == Null && r.summary.name == resp.orders.v[0].name
  {
    match resp
    case RequestFailed => LookupFailed
    case Responded(orders) =>
      match Project(orders)
      case None => NotFound
      case Some(s) => Found(s)
  }
}
