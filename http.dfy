/** The REST client's request vocabulary and `Client::get_request`: what a call
    hands to the transport (verb, target, parameters), the errors it can
    report, and the fixed endpoint table of the client. */
module Http {

  import opened Wrappers

  datatype HttpVerb = Get | Post | Patch | Delete

  /** The client's error type. Only the variants the modelled code builds or
      inspects are named; `Other` stands for the variants it passes along untouched. */
  datatype HttpError =
    | InvalidRequest(msg: string)
    | TransportError(msg: string)
    | UnparseableResponse(err: string, text: string)
    | Other(msg: string)

  /** Where a request goes: the text of `url_for_v1_resource(resource)` followed
      by `suffix`, or a path handed to `request` directly. */
  datatype Target = V1(resource: string, suffix: string) | Path(path: string)

  /** `request` decodes the body as JSON, `request_text` returns it as text. */
  datatype ResponseKind = JsonResponse | TextResponse

  /** One call of `request` / `request_text`. */
  datatype Request = Request(verb: HttpVerb, target: Target, params: Option<map<string, string>>, kind: ResponseKind)

  /** A target built with `url_for_v1_resource` and nothing appended. */
  function V1Resource(resource: string): Target {
    V1(resource, "")
  }

  /** The key an `if let Some(..) = ..` insert adds: `key` when the option is set. */
  function KeyIf<T>(key: string, o: Option<T>): set<string> {
    if o.Some? then {key} else {}
  }

  // ---------------------------------------------------------------------------
  // `get_request`: the request assembled from the server URL, the API key and a resource.

  datatype Header = Header(name: string, value: string)

  datatype OutgoingRequest = OutgoingRequest(verb: HttpVerb, url: string, headers: seq<Header>, body: string)

  const V1_SEGMENT: string := "/v1/"
  const BEARER: string := "Bearer "

  /** A header value the `http` crate accepts: every byte is visible ASCII, a
      space, a tab or part of a non-ASCII character; a control byte or DEL is refused. */
  predicate HeaderValueValid(v: string) {
    forall i :: 0 <= i < |v| ==> (v[i] >= ' ' && v[i] != '\U{7F}') || v[i] == '\t'
  }

  /** The bearer value is valid exactly when the token is. */
  lemma BearerValid(authToken: string)
    ensures HeaderValueValid(BEARER + authToken) <==> HeaderValueValid(authToken)
  {
    var v := BEARER + authToken;
    if HeaderValueValid(v) {
      forall i | 0 <= i < |authToken|
        ensures (authToken[i] >= ' ' && authToken[i] != '\U{7F}') || authToken[i] == '\t'
      {
        assert authToken[i] == v[7 + i];
      }
    }
  }

  /** A token ending in a newline cannot be sent: `get_request` panics on it. */
  lemma NewlineTokenInvalid()
    ensures !HeaderValueValid(BEARER + "abc\n")
  {
    assert (BEARER + "abc\n")[10] == '\n';
  }

  /** Both `unwrap`s of `get_request` are preconditions: the URL must parse as a
      URI (`parse::<hyper::Uri>()`; `uriValid` is that parser's verdict), and the
      request builder must accept the `Authorization` value. */
  function GetRequest(serverUrl: string, authToken: string, resource: string, uriValid: string -> bool): (r: OutgoingRequest)
    requires uriValid(serverUrl + V1_SEGMENT + resource)
    requires HeaderValueValid(BEARER + authToken)
    ensures r.verb == Get && r.body == ""
    ensures |r.url| == |serverUrl| + 4 + |resource|
    ensures r.url[..|serverUrl|] == serverUrl && r.url[|serverUrl|..|serverUrl| + 4] == "/v1/"
    ensures r.url[|serverUrl| + 4..] == resource
    ensures |r.headers| == 1 && r.headers[0].name == "Authorization"
    ensures |r.headers[0].value| == 7 + |authToken|
    ensures r.headers[0].value[..7] == "Bearer " && r.headers[0].value[7..] == authToken
  {
    OutgoingRequest(Get, serverUrl + V1_SEGMENT + resource, [Header("Authorization", BEARER + authToken)], "")
  }

  /** The fixed GET endpoints of the client. */
  datatype Endpoint =
    | AccountBalance
    | TransactionHistory
    | CryptoDepositAddress(currency: string)
    | Currencies
    | Fees
    | WithdrawalFee(currency: string)

  function EndpointResource(e: Endpoint): string {
    match e
    case AccountBalance => "user/balance"
    case TransactionHistory => "account/transactions"
    case CryptoDepositAddress(c) => "user/deposit/address/" + c
    case Currencies => "currency"
    case Fees => "markets/currency-pairs"
    case WithdrawalFee(c) => "withdraw-fee/" + c
  }

  /** Every endpoint is a GET of its own resource under `/v1/`. */
  function EndpointRequest(serverUrl: string, authToken: string, e: Endpoint, uriValid: string -> bool): (r: OutgoingRequest)
    requires uriValid(serverUrl + V1_SEGMENT + EndpointResource(e))
    requires HeaderValueValid(BEARER + authToken)
    ensures r.verb == Get && |r.url| >= |serverUrl| + 4 && r.url[|serverUrl| + 4..] == EndpointResource(e)
  {
    GetRequest(serverUrl, authToken, EndpointResource(e), uriValid)
  }

  /** Distinct endpoints have distinct resources. */
  lemma EndpointResourceInjective(a: Endpoint, b: Endpoint)
    requires EndpointResource(a) == EndpointResource(b)
    ensures a == b
  {
    var s := EndpointResource(a);
    assert s == EndpointResource(b);
    if a.CryptoDepositAddress? && b.CryptoDepositAddress? {
      assert a.currency == s[21..] == b.currency;
    } else if a.WithdrawalFee? && b.WithdrawalFee? {
      assert a.currency == s[13..] == b.currency;
    } else {
      // The first character and the sixth separate every other pair.
      assert EndpointResource(a)[0] == EndpointResource(b)[0];
      if a.AccountBalance? || a.CryptoDepositAddress? {
        assert b.AccountBalance? || b.CryptoDepositAddress?;
        assert EndpointResource(a)[5] == EndpointResource(b)[5];
      }
    }
  }
}
