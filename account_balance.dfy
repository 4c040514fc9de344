/** The balance feed (`src/websocket/message/account/balance.rs`): its topic and the
    balance payload, whose amounts arrive as decimal strings. */
module AccountBalance {

  import opened Wrappers
  import opened Json
  import opened Text
  import Account

  const BALANCE_FEED: string := "private.user.balances"

  /** `balance_feed()`: the same topic as the account module's constant. */
  function BalanceFeed(): (s: string)
    ensures s == Account.BALANCE_FEED
    ensures s == Account.ACCOUNT_PREFIX + "balances"
  {
    Account.AccountFeeds();
    BALANCE_FEED
  }

  /** `str_to_f64`: the value must be a JSON string (a number is the wrong type), and
      the string must parse as a float; `parse` is `str::parse::<f64>`. */
  function StrToF64(j: Json, parse: string -> Option<real>): (r: Decoded<real>)
    ensures r.Ok? <==> j.JStr? && parse(j.s).Some?
    ensures r.Ok? ==> r.value == parse(j.s).value
    ensures !j.JStr? ==> r == Err(InvalidType("a string"))
    ensures j.JStr? && parse(j.s).None? ==> r == Err(Custom(ParseFloatErrorText(j.s)))
  {
    var s :- DecodeString(j);
    match parse(s)
    case Some(x) => Ok(x)
    case None => Err(Custom(ParseFloatErrorText(s)))
  }

  /** `BalancePayload`. */
  datatype BalancePayload = BalancePayload(
    currency: string,
    balance: real,
    available: real,
    held: real,
    tradingWallet: real,
    collateralWallet: real,
    borrowWallet: real,
    lendingWallet: real)

  /** The seven amounts, each deserialised with `str_to_f64`. */
  const AmountFields: seq<string> :=
    ["balance", "available", "held", "trading_wallet", "collateral_wallet", "borrow_wallet", "lending_wallet"]

  const BalanceFields: seq<string> := ["currency"] + AmountFields

  function Amounts(p: BalancePayload): seq<real> {
    [p.balance, p.available, p.held, p.tradingWallet, p.collateralWallet, p.borrowWallet, p.lendingWallet]
  }

  /** An acceptable object: a string currency and seven amounts that all parse. */
  predicate BalanceFieldsValid(m: map<string, Json>, parse: string -> Option<real>) {
    && "currency" in m && m["currency"].JStr?
    && forall k :: k in AmountFields ==> k in m && StrToF64(m[k], parse).Ok?
  }

  /** What a decoded payload says about the fields it came from. */
  predicate BalanceFieldsHold(m: map<string, Json>, parse: string -> Option<real>, p: BalancePayload) {
    && "currency" in m && m["currency"] == JStr(p.currency)
    && forall i :: 0 <= i < 7 ==> AmountFields[i] in m && StrToF64(m[AmountFields[i]], parse) == Ok(Amounts(p)[i])
  }

  function AmountsFrom(m: map<string, Json>, parse: string -> Option<real>): (r: Decoded<seq<real>>)
    requires forall k :: k in AmountFields ==> k in m
    ensures r.Ok? <==> forall k :: k in AmountFields ==> StrToF64(m[k], parse).Ok?
    ensures r.Ok? ==> |r.value| == 7 && forall i :: 0 <= i < 7 ==> StrToF64(m[AmountFields[i]], parse) == Ok(r.value[i])
  {
    var vals := seq(7, i requires 0 <= i < 7 => m[AmountFields[i]]);
    var dec := (x: Json) => StrToF64(x, parse);
    assert forall i :: 0 <= i < 7 ==> dec(vals[i]) == StrToF64(m[AmountFields[i]], parse);
    DecodeItems(vals, dec)
  }

  function PayloadOf(currency: string, v: seq<real>): (p: BalancePayload)
    requires |v| == 7
    ensures p.currency == currency && Amounts(p) == v
  {
    BalancePayload(currency, v[0], v[1], v[2], v[3], v[4], v[5], v[6])
  }

  /** The derived decoder: an object decodes exactly when its currency is a string and
      every amount parses; the currency is kept verbatim. */
  function DecodeBalancePayload(j: Json, parse: string -> Option<real>): (r: Decoded<BalancePayload>)
    ensures j.JObj? ==> (r.Ok? <==> BalanceFieldsValid(j.fields, parse))
    ensures j.JObj? && r.Ok? ==> BalanceFieldsHold(j.fields, parse, r.value)
  {
    var m :- StructView(j, BalanceFields);
    assert forall k :: k in AmountFields ==> k in BalanceFields;
    var currency :- DecodeString(m["currency"]);
    var amounts :- AmountsFrom(m, parse);
    Ok(PayloadOf(currency, amounts))
  }

  /** One amount that does not parse, or that is sent as a JSON number, fails the whole payload. */
  lemma OneBadAmountFailsPayload(m: map<string, Json>, parse: string -> Option<real>, k: string)
    requires k in AmountFields && k in m && StrToF64(m[k], parse).Err?
    ensures DecodeBalancePayload(JObj(m), parse).Err?
  {
  }
}
