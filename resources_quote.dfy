/** Requests for quote over direct paths (`src/http/resources/quote.rs`), and the
    `filled` flag of an executed quote. */
module ResourcesQuote {

  import opened Wrappers
  import opened Json
  import opened Http
  import HttpResources
  import V1Quote

  /** `request_for_quote`, posting to the path `quote`. */
  method RequestForQuote(
    pair: string, side: string, quantity: Option<real>, amount: Option<real>,
    clientQuoteId: Option<string>, show: real -> string)
    returns (r: Result<Request, HttpError>)
    ensures r.Err? <==> quantity.None? && amount.None?
    ensures r.Err? ==> r.error == InvalidRequest(V1Quote.MISSING_SIZE)
    ensures r.Ok? ==> r.value.verb == Post && r.value.target == Path("quote") && r.value.params.Some?
    ensures r.Ok? ==> V1Quote.QuoteParams(r.value.params.value, pair, side, quantity, amount, clientQuoteId, show)
  {
    var params: map<string, string> := map[];
    params := params["pair" := pair];
    params := params["side" := side];
    if quantity.None? && amount.None? {
      return Err(InvalidRequest(V1Quote.MISSING_SIZE));
    }
    if quantity.Some? {
      params := params["quantity" := show(quantity.value)];
    }
    if amount.Some? {
      params := params["amount" := show(amount.value)];
    }
    if clientQuoteId.Some? {
      params := params["client_quote_id" := clientQuoteId.value];
    }
    r := Ok(Request(Post, Path("quote"), Some(params), JsonResponse));
  }

  /** `execute_quote`, posting to the path `orders/buy`. */
  method ExecuteQuote(currencyPair: string, quantity: real, quoteId: string, show: real -> string) returns (r: Request)
    ensures r.verb == Post && r.target == Path("orders/buy") && r.params.Some?
    ensures V1Quote.ExecuteParams(r.params.value, currencyPair, quantity, quoteId, show)
  {
    var params: map<string, string> := map[];
    params := params["currency_pair" := currencyPair];
    params := params["quantity" := show(quantity)];
    params := params["quote_id" := quoteId];
    r := Request(Post, Path("orders/buy"), Some(params), JsonResponse);
  }

  /** The `filled` field of `ExecutedQuote`: required, and read with `bool_from_int`. */
  function DecodeFilled(m: map<string, Json>): (r: Decoded<bool>)
    ensures r.Ok? <==> "filled" in m && (m["filled"] == JNum(Int(0)) || m["filled"] == JNum(Int(1)))
    ensures r == Ok(true) <==> "filled" in m && m["filled"] == JNum(Int(1))
    ensures "filled" !in m ==> r == Err(MissingField("filled"))
  {
    if "filled" !in m then Err(MissingField("filled")) else HttpResources.BoolFromInt(m["filled"])
  }
}
