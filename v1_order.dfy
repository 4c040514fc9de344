/** Order management over the version-1 resources (`src/http/v1/order.rs`): the cancel
    paths, the comma-separated id list and the parameters of a new order. */
module V1Order {

  import opened Wrappers
  import opened Json
  import opened Text
  import opened Http

  function CancelAllOrders(): (r: Request)
    ensures r.verb == Delete && r.target == V1Resource("orders/open") && r.params.None?
  {
    Request(Delete, V1Resource("orders/open"), None, JsonResponse)
  }

  /** `format!("orders/{}", order_id)`. */
  function OrderPath(orderId: Usize): (s: string)
    ensures |s| > 7 && s[..7] == "orders/" && s[7..] == NatToString(orderId)
  {
    "orders/" + NatToString(orderId)
  }

  function CancelOrder(orderId: Usize): (r: Request)
    ensures r.verb == Delete && r.target == V1Resource(OrderPath(orderId)) && r.params.None?
  {
    Request(Delete, V1Resource(OrderPath(orderId)), None, JsonResponse)
  }

  /** Each id's decimal text, in input order. */
  function IdTexts(ids: seq<Usize>): (ts: seq<string>)
    ensures |ts| == |ids| && forall i :: 0 <= i < |ids| ==> ts[i] == NatToString(ids[i])
  {
    seq(|ids|, i requires 0 <= i < |ids| => NatToString(ids[i]))
  }

  /** The `ids` query value: the decimal ids joined with `,`. */
  function IdsParam(ids: seq<Usize>): (s: string)
    ensures |ids| == 0 ==> s == ""
  {
    Join(IdTexts(ids), ',')
  }

  lemma DigitsHaveNoComma(s: string)
    requires AllDigits(s)
    ensures ',' !in s
  {
    forall k | 0 <= k < |s| ensures s[k] != ',' {
      assert IsDigit(s[k]);
    }
  }

  /** `n` ids are separated by exactly `n - 1` commas. */
  lemma IdsParamCommas(ids: seq<Usize>)
    requires |ids| >= 1
    ensures Count(IdsParam(ids), ',') == |ids| - 1
  {
    var ts := IdTexts(ids);
    forall i | 0 <= i < |ts| ensures ',' !in ts[i] {
      DigitsHaveNoComma(ts[i]);
    }
    CountJoin(ts, ',');
  }

  /** Splitting the list on `,` and parsing each piece gives back the ids, in order. */
  lemma IdsParamParses(ids: seq<Usize>)
    requires |ids| >= 1
    ensures var pieces := Split(IdsParam(ids), ',');
            |pieces| == |ids| && forall i :: 0 <= i < |ids| ==> ParseNat(pieces[i]) == Some(ids[i] as nat)
  {
    var ts := IdTexts(ids);
    forall i | 0 <= i < |ts| ensures ',' !in ts[i] {
      DigitsHaveNoComma(ts[i]);
    }
    SplitJoin(ts, ',');
    forall i | 0 <= i < |ids| ensures ParseNat(ts[i]) == Some(ids[i] as nat) {
      ParseNatToString(ids[i]);
    }
  }

  /** `format!("orders?ids={}", ...)`. */
  function CancelOrdersResource(ids: seq<Usize>): (s: string)
    ensures |s| >= 11 && s[..11] == "orders?ids=" && s[11..] == IdsParam(ids)
    ensures |ids| == 0 ==> s == "orders?ids="
  {
    "orders?ids=" + IdsParam(ids)
  }

  function CancelOrders(ids: seq<Usize>): (r: Request)
    ensures r.verb == Delete && r.target == V1Resource(CancelOrdersResource(ids)) && r.params.None?
  {
    Request(Delete, V1Resource(CancelOrdersResource(ids)), None, JsonResponse)
  }

  /** The parameters of a new order: five fixed keys, plus `client_order_id` exactly
      when one is given; `show` is `f64::to_string`. */
  predicate PlaceOrderParams(
    p: map<string, string>, currencyPair: string, price: real, quantity: real,
    routingType: string, algorithmId: Usize, clientOrderId: Option<string>, show: real -> string)
  {
    && p.Keys == {"currency_pair", "price", "quantity", "routing_type", "algorithm_id"}
                 + (if clientOrderId.Some? then {"client_order_id"} else {})
    && p["currency_pair"] == currencyPair
    && p["price"] == show(price)
    && p["quantity"] == show(quantity)
    && p["routing_type"] == routingType
    && p["algorithm_id"] == NatToString(algorithmId)
    && (clientOrderId.Some? ==> p["client_order_id"] == clientOrderId.value)
  }

  /** `place_order`: the parameters are inserted one by one and posted to `orders/<side>`. */
  method PlaceOrder(
    side: string, currencyPair: string, price: real, quantity: real,
    routingType: string, algorithmId: Usize, clientOrderId: Option<string>, show: real -> string)
    returns (r: Request)
    ensures r.verb == Post && r.target == V1Resource("orders/" + side) && r.kind == JsonResponse
    ensures r.params.Some? && PlaceOrderParams(r.params.value, currencyPair, price, quantity, routingType, algorithmId, clientOrderId, show)
  {
    var params: map<string, string> := map[];
    params := params["currency_pair" := currencyPair];
    params := params["price" := show(price)];
    params := params["quantity" := show(quantity)];
    params := params["routing_type" := routingType];
    params := params["algorithm_id" := NatToString(algorithmId)];
    if clientOrderId.Some? {
      params := params["client_order_id" := clientOrderId.value];
    }
    r := Request(Post, V1Resource("orders/" + side), Some(params), JsonResponse);
  }
}
