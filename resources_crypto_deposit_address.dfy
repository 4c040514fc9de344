/** Deposit addresses through `get_request` (`src/http/resources/crypto_deposit_address.rs`),
    with the rescue of the empty-object reply. */
module ResourcesCryptoDepositAddress {

  import opened Wrappers
  import opened Http

  /** The body the service sends when no address has been generated yet. */
  const EMPTY_OBJECT: string := "{}"

  /** The result mapping applied to the reply: an unparseable `{}` body means "no
      address"; every other outcome is passed through. */
  function Rescue<T>(res: Result<Option<T>, HttpError>): (r: Result<Option<T>, HttpError>)
    ensures res.Ok? ==> r == res
    ensures res.Err? && res.error.UnparseableResponse? && res.error.text == EMPTY_OBJECT ==> r == Ok(None)
    ensures res.Err? && !(res.error.UnparseableResponse? && res.error.text == EMPTY_OBJECT) ==> r == res
  {
    match res
    case Ok(f) => Ok(f)
    case Err(UnparseableResponse(err, text)) =>
      if text == EMPTY_OBJECT then Ok(None) else Err(UnparseableResponse(err, text))
    case Err(e) => Err(e)
  }

  /** An error survives exactly when it is not the `{}` case, and is then unchanged. */
  lemma RescueErrors<T>(res: Result<Option<T>, HttpError>)
    ensures Rescue(res).Err? <==> res.Err? && !(res.error.UnparseableResponse? && res.error.text == EMPTY_OBJECT)
    ensures Rescue(res).Err? ==> Rescue(res).error == res.error
  {
  }

  /** Applying the mapping twice changes nothing further. */
  lemma RescueIdempotent<T>(res: Result<Option<T>, HttpError>)
    ensures Rescue(Rescue(res)) == Rescue(res)
  {
  }

  /** The request: `get_request` of `user/deposit/address/<currency>`. */
  function CryptoDepositAddress(serverUrl: string, authToken: string, currency: string, uriValid: string -> bool): (r: OutgoingRequest)
    requires uriValid(serverUrl + V1_SEGMENT + ("user/deposit/address/" + currency))
    requires HeaderValueValid(BEARER + authToken)
    ensures r == EndpointRequest(serverUrl, authToken, Endpoint.CryptoDepositAddress(currency), uriValid)
    ensures r.verb == Get && r.body == "" && r.url[|serverUrl| + 4..] == "user/deposit/address/" + currency
  {
    GetRequest(serverUrl, authToken, "user/deposit/address/" + currency, uriValid)
  }
}
