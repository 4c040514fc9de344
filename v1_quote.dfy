/** Requests for quote over the version-1 resources (`src/http/v1/quote.rs`). */
module V1Quote {

  import opened Wrappers
  import opened Http

  const MISSING_SIZE: string := "Either quantity or amount must be provided"

  /** The parameters of a quote request: `pair` and `side` always, and each optional key
      exactly when its argument is given; `show` is `f64::to_string`. */
  predicate QuoteParams(
    p: map<string, string>, pair: string, side: string,
    quantity: Option<real>, amount: Option<real>, clientQuoteId: Option<string>, show: real -> string)
  {
    && p.Keys == {"pair", "side"} + KeyIf("quantity", quantity) + KeyIf("amount", amount) + KeyIf("client_quote_id", clientQuoteId)
    && p["pair"] == pair && p["side"] == side
    && (quantity.Some? ==> p["quantity"] == show(quantity.value))
    && (amount.Some? ==> p["amount"] == show(amount.value))
    && (clientQuoteId.Some? ==> p["client_quote_id"] == clientQuoteId.value)
  }

  /** `request_for_quote`: refused when neither a quantity nor an amount is given;
      otherwise a POST of the parameters to `quote`. */
  method RequestForQuote(
    pair: string, side: string, quantity: Option<real>, amount: Option<real>,
    clientQuoteId: Option<string>, show: real -> string)
    returns (r: Result<Request, HttpError>)
    ensures r.Err? <==> quantity.None? && amount.None?
    ensures r.Err? ==> r.error == InvalidRequest(MISSING_SIZE)
    ensures r.Ok? ==> r.value.verb == Post && r.value.target == V1Resource("quote") && r.value.params.Some?
    ensures r.Ok? ==> QuoteParams(r.value.params.value, pair, side, quantity, amount, clientQuoteId, show)
  {
    var params: map<string, string> := map[];
    params := params["pair" := pair];
    params := params["side" := side];
    if quantity.None? && amount.None? {
      return Err(InvalidRequest(MISSING_SIZE));
    }
    if quantity.Some? {
      params := params["quantity" := show(quantity.value)];
    }
    if amount.Some? {
      params := params["amount" := show(amount.value)];
    }
    if clientQuoteId.Some? {
      params := params["client_quote_id" := clientQuoteId.value];
    }
    r := Ok(Request(Post, V1Resource("quote"), Some(params), JsonResponse));
  }

  /** The parameters of `execute_quote`: exactly these three keys. */
  predicate ExecuteParams(p: map<string, string>, currencyPair: string, quantity: real, quoteId: string, show: real -> string) {
    && p.Keys == {"currency_pair", "quantity", "quote_id"}
    && p["currency_pair"] == currencyPair && p["quantity"] == show(quantity) && p["quote_id"] == quoteId
  }

  /** `execute_quote`: a POST to `orders/buy`. */
  method ExecuteQuote(currencyPair: string, quantity: real, quoteId: string, show: real -> string) returns (r: Request)
    ensures r.verb == Post && r.target == V1Resource("orders/buy") && r.params.Some?
    ensures ExecuteParams(r.params.value, currencyPair, quantity, quoteId, show)
  {
    var params: map<string, string> := map[];
    params := params["currency_pair" := currencyPair];
    params := params["quantity" := show(quantity)];
    params := params["quote_id" := quoteId];
    r := Request(Post, V1Resource("orders/buy"), Some(params), JsonResponse);
  }
}
