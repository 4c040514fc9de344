/** Deposit addresses over the version-1 resources (`src/http/v1/crypto_deposit_address.rs`). */
module V1CryptoDepositAddress {

  import opened Wrappers
  import opened Http

  const CRYPTO_DEPOSIT_ADDRESS_RESOURCE: string := "user/deposit/address"

  /** `currency_path`: `user/deposit/address/<currency>`. */
  function CurrencyPath(currency: string): (s: string)
    ensures |s| == 21 + |currency| && s[..20] == CRYPTO_DEPOSIT_ADDRESS_RESOURCE && s[20] == '/'
    ensures s[21..] == currency
  {
    CRYPTO_DEPOSIT_ADDRESS_RESOURCE + "/" + currency
  }

  lemma CurrencyPathInjective(a: string, b: string)
    requires CurrencyPath(a) == CurrencyPath(b)
    ensures a == b
  {
    assert a == CurrencyPath(a)[21..] == CurrencyPath(b)[21..] == b;
  }

  /** The same resource as the client's fixed endpoint table. */
  lemma CurrencyPathIsEndpoint(currency: string)
    ensures CurrencyPath(currency) == EndpointResource(Endpoint.CryptoDepositAddress(currency))
  {
  }

  /** `crypto_deposit_address`: a GET without parameters. */
  function CryptoDepositAddress(currency: string): (r: Request)
    ensures r.verb == Get && r.target == V1Resource(CurrencyPath(currency)) && r.params.None?
  {
    Request(Get, V1Resource(CurrencyPath(currency)), None, JsonResponse)
  }

  /** `new_crypto_deposit_address`: a POST with an empty parameter map. */
  function NewCryptoDepositAddress(currency: string): (r: Request)
    ensures r.verb == Post && r.target == V1Resource(CurrencyPath(currency)) && r.params == Some(map[])
  {
    Request(Post, V1Resource(CurrencyPath(currency)), Some(map[]), JsonResponse)
  }

  /** Reading and creating an address go to the same place and differ in verb and
      parameters only. */
  lemma ReadAndCreateSameTarget(currency: string)
    ensures CryptoDepositAddress(currency).target == NewCryptoDepositAddress(currency).target
    ensures CryptoDepositAddress(currency).params != NewCryptoDepositAddress(currency).params
    ensures CryptoDepositAddress(currency).verb != NewCryptoDepositAddress(currency).verb
  {
  }
}
