/** The REST market-data source backed by the CoinGecko "simple price"
    endpoint: one batched request for every configured coin, and a price
    cache keyed by the publisher's symbol. */
module Coingecko {
  import opened Common

  datatype Coin = Coin(pythSymbol: string, coingeckoId: string, coingeckoVcCurrencie: string)

  /** Query string of the request; every list is sent comma-joined. */
  datatype Query = Query(ids: string, vsCurrencies: string, precision: string)

  /** The response body: coin id, then quote currency, then price. */
  type Response = map<string, map<string, real>>

  datatype UpdateOutcome =
    | Updated
    | RequestFailed            // the HTTP call threw; nothing is written
    | MissingEntry(symbol: string) // no price for this symbol's coin and currency

  /** The decimal precision the provider always asks for. */
  const Precision: string := "18"

  function CoinEntries(coins: seq<Coin>): (es: seq<(string, Coin)>)
    ensures |es| == |coins| && forall i :: 0 <= i < |coins| ==> es[i] == (coins[i].pythSymbol, coins[i])
  {
    seq(|coins|, i requires 0 <= i < |coins| => (coins[i].pythSymbol, coins[i]))
  }

  /** `getPriceFromApi`'s query parameters. */
  function QueryParams(ids: seq<string>, vsCurrencies: seq<string>, precision: string): Query
  {
    Query(Join(ids, ','), Join(vsCurrencies, ','), precision)
  }

  /** The joined lists are read back as the lists themselves when no id or
      currency holds a comma. */
  lemma QueryParamsRoundTrip(ids: seq<string>, vsCurrencies: seq<string>, precision: string)
    requires |ids| > 0 && |vsCurrencies| > 0
    requires forall x :: x in ids ==> ',' !in x
    requires forall x :: x in vsCurrencies ==> ',' !in x
    ensures Split(QueryParams(ids, vsCurrencies, precision).ids, ',') == ids
    ensures Split(QueryParams(ids, vsCurrencies, precision).vsCurrencies, ',') == vsCurrencies
    ensures QueryParams(ids, vsCurrencies, precision).precision == precision
  {
    SplitJoin(ids, ',');
    SplitJoin(vsCurrencies, ',');
  }

  predicate HasPrice(response: Response, coin: Coin) {
    coin.coingeckoId in response && coin.coingeckoVcCurrencie in response[coin.coingeckoId]
  }

  /** How many coins, from the front, have a price in `response`: the
      update loop stores these and throws on the next one. */
  function PricedPrefix(coins: seq<Coin>, response: Response): (n: nat)
    ensures n <= |coins|
    ensures forall i :: 0 <= i < n ==> HasPrice(response, coins[i])
    ensures n < |coins| ==> !HasPrice(response, coins[n])
  {
    if coins == [] || !HasPrice(response, coins[0]) then 0
    else 1 + PricedPrefix(coins[1..], response)
  }

  function PriceOf(response: Response, coin: Coin): real
    requires HasPrice(response, coin)
  {
    response[coin.coingeckoId][coin.coingeckoVcCurrencie]
  }

  /** The cache after the update loop stored the first `n` symbols. */
  function Stored(prices: map<string, real>, keys: seq<string>, coins: seq<Coin>, response: Response, n: nat): map<string, real>
    requires n <= |keys| && n <= |coins|
    requires forall i :: 0 <= i < n ==> HasPrice(response, coins[i])
  {
    if n == 0 then prices
    else Stored(prices, keys, coins, response, n - 1)[keys[n - 1] := PriceOf(response, coins[n - 1])]
  }

  /** After storing `n` symbols, each of them holds its own coin's price and
      every other symbol holds what it held before. */
  lemma {:induction false} StoredSpec(prices: map<string, real>, keys: seq<string>, coins: seq<Coin>, response: Response, n: nat, s: string)
    requires Distinct(keys) && |keys| == |coins| && n <= |keys|
    requires forall i :: 0 <= i < n ==> HasPrice(response, coins[i])
    ensures Lookup(Stored(prices, keys, coins, response, n), s)
      == if s in keys[..n] then Some(PriceOf(response, coins[IndexOf(keys, s)])) else Lookup(prices, s)
  {
    if n > 0 {
      StoredSpec(prices, keys, coins, response, n - 1, s);
      assert keys[..n] == keys[..n - 1] + [keys[n - 1]];
    }
  }

  function Currencies(coins: seq<Coin>): (cs: seq<string>)
    ensures |cs| == |coins| && forall i :: 0 <= i < |coins| ==> cs[i] == coins[i].coingeckoVcCurrencie
  {
    seq(|coins|, i requires 0 <= i < |coins| => coins[i].coingeckoVcCurrencie)
  }

  function Ids(coins: seq<Coin>): (ids: seq<string>)
    ensures |ids| == |coins| && forall i :: 0 <= i < |coins| ==> ids[i] == coins[i].coingeckoId
  {
    seq(|coins|, i requires 0 <= i < |coins| => coins[i].coingeckoId)
  }

  class CoingeckoProvider {
    const apiKey: string
    const updateInterval: int
    var symbolToCoin: OrderedMap<string, Coin>
    var prices: map<string, real>

    /** Prices are kept only for configured symbols. */
    ghost predicate Valid()
      reads this
    {
      symbolToCoin.Valid() && prices.Keys <= symbolToCoin.values.Keys
    }

    constructor (coins: seq<Coin>, coingeckoApiKey: string, coingeckoUpdateInterval: int)
      ensures Valid()
      ensures symbolToCoin == FromEntries(CoinEntries(coins))
      ensures prices == map[]
      ensures apiKey == coingeckoApiKey && updateInterval == coingeckoUpdateInterval
    {
      apiKey := coingeckoApiKey;
      updateInterval := coingeckoUpdateInterval;
      prices := map[];
      var table := EmptyMap();
      var i := 0;
      while i < |coins|
        invariant 0 <= i <= |coins|
        invariant table == FromEntries(CoinEntries(coins)[..i])
      {
        table := table.Set(coins[i].pythSymbol, coins[i]);
        assert CoinEntries(coins)[..i + 1][..i] == CoinEntries(coins)[..i];
        i := i + 1;
      }
      assert CoinEntries(coins)[..i] == CoinEntries(coins);
      FromEntriesKeys(CoinEntries(coins));
      symbolToCoin := table;
    }

    /** The configured coins in table order. */
    function ConfiguredCoins(): (cs: seq<Coin>)
      reads this
      requires Valid()
      ensures |cs| == |symbolToCoin.keys|
      ensures forall i :: 0 <= i < |cs| ==> cs[i] == symbolToCoin.values[symbolToCoin.keys[i]]
    {
      symbolToCoin.Values()
    }

    /** `latestPrice`: the last price stored for `symbol`, if any. */
    function LatestPrice(symbol: string): Option<real>
      reads this
    {
      Lookup(prices, symbol)
    }

    /** `updatePrice`: ask once for every configured coin, then store the
        prices symbol by symbol in table order. `reply` is the response of
        the request, or `None` when it threw. A coin without a price stops
        the loop with an exception: symbols before it hold their new price,
        it and the symbols after it keep their old one. */
    method UpdatePrice(reply: Option<Response>) returns (query: Query, outcome: UpdateOutcome)
      requires Valid()
      modifies this`prices
      ensures Valid()
      ensures query == QueryParams(Ids(ConfiguredCoins()), Dedup(Currencies(ConfiguredCoins())), Precision)
      ensures reply.None? ==> outcome == RequestFailed && prices == old(prices)
      ensures reply.Some? ==>
        var n := PricedPrefix(ConfiguredCoins(), reply.value);
        && outcome == (if n == |symbolToCoin.keys| then Updated else MissingEntry(symbolToCoin.keys[n]))
        && prices == Stored(old(prices), symbolToCoin.keys, ConfiguredCoins(), reply.value, n)
    {
      var coins := symbolToCoin.Values();
      var keys := symbolToCoin.keys;
      query := QueryParams(Ids(coins), Dedup(Currencies(coins)), Precision);
      if reply.None? {
        return query, RequestFailed;
      }
      var response := reply.value;
      ghost var n := PricedPrefix(coins, response);
      var i := 0;
      while i < |keys|
        invariant 0 <= i <= |keys| && i <= n
        invariant prices.Keys <= symbolToCoin.values.Keys
        invariant prices == Stored(old(prices), keys, coins, response, i)
      {
        var coin := coins[i];
        if !HasPrice(response, coin) {
          assert i == n;
          return query, MissingEntry(keys[i]);
        }
        assert keys[i] in symbolToCoin.values;
        prices := prices[keys[i] := response[coin.coingeckoId][coin.coingeckoVcCurrencie]];
        i := i + 1;
      }
      assert i == n;
      outcome := Updated;
    }
  }

  /** What a request asks for: one id per configured symbol in table order,
      and every configured currency once, in order of first use. */
  lemma RequestListsSpec(coins: seq<Coin>)
    ensures |Ids(coins)| == |coins|
    ensures Distinct(Dedup(Currencies(coins)))
    ensures forall c :: c in Dedup(Currencies(coins)) ==> exists i :: 0 <= i < |coins| && coins[i].coingeckoVcCurrencie == c
    ensures forall i :: 0 <= i < |coins| ==> coins[i].coingeckoVcCurrencie in Dedup(Currencies(coins))
  {
    DedupElems(Currencies(coins));
    DedupDistinct(Currencies(coins));
    forall c | c in Dedup(Currencies(coins))
      ensures exists i :: 0 <= i < |coins| && coins[i].coingeckoVcCurrencie == c
    {
      var i := IndexOf(Currencies(coins), c);
    }
    forall i | 0 <= i < |coins| ensures coins[i].coingeckoVcCurrencie in Dedup(Currencies(coins)) {
      assert Currencies(coins)[i] in Currencies(coins);
    }
  }
}
