/** Order management over direct paths (`src/http/resources/order.rs`): the same four
    operations as the version-1 module, each handing its path to `request` itself. */
module ResourcesOrder {

  import opened Wrappers
  import opened Json
  import opened Http
  import Text
  import V1Order

  function CancelAllOrders(): (r: Request)
    ensures r.verb == Delete && r.target == Path("orders/open") && r.params.None?
  {
    Request(Delete, Path("orders/open"), None, JsonResponse)
  }

  function CancelOrder(orderId: Usize): (r: Request)
    ensures r.verb == Delete && r.target == Path(V1Order.OrderPath(orderId)) && r.params.None?
  {
    Request(Delete, Path(V1Order.OrderPath(orderId)), None, JsonResponse)
  }

  /** The id list is built as in the version-1 module: `n - 1` commas for `n` ids, and
      the ids parse back in order (`V1Order.IdsParamCommas`, `V1Order.IdsParamParses`). */
  function CancelOrders(ids: seq<Usize>): (r: Request)
    ensures r.verb == Delete && r.params.None?
    ensures r.target == Path(V1Order.CancelOrdersResource(ids))
    ensures |ids| == 0 ==> r.target == Path("orders?ids=")
  {
    Request(Delete, Path(V1Order.CancelOrdersResource(ids)), None, JsonResponse)
  }

  method PlaceOrder(
    side: string, currencyPair: string, price: real, quantity: real,
    routingType: string, algorithmId: Usize, clientOrderId: Option<string>, show: real -> string)
    returns (r: Request)
    ensures r.verb == Post && r.target == Path("orders/" + side) && r.kind == JsonResponse
    ensures r.params.Some?
    ensures V1Order.PlaceOrderParams(r.params.value, currencyPair, price, quantity, routingType, algorithmId, clientOrderId, show)
  {
    var params: map<string, string> := map[];
    params := params["currency_pair" := currencyPair];
    params := params["price" := show(price)];
    params := params["quantity" := show(quantity)];
    params := params["routing_type" := routingType];
    params := params["algorithm_id" := Text.NatToString(algorithmId)];
    if clientOrderId.Some? {
      params := params["client_order_id" := clientOrderId.value];
    }
    r := Request(Post, Path("orders/" + side), Some(params), JsonResponse);
  }
}
