/** The REST market-data client for CoinMarketCap's latest-quotes endpoint:
    it asks for several symbols in several currencies and reshapes the
    nested response into a symbol-by-currency price table. */
module Coinmarket {
  import opened Common

  /** The response's `data`, flattened: `data[symbol].quote[currency].price`
      is `quotes[symbol][currency]`. */
  type Quotes = map<string, map<string, real>>

  type PriceTable = map<string, map<string, real>>

  /** Query string of the request. */
  datatype Params = Params(symbol: string, convert: string)

  datatype QuoteError =
    | RequestFailed                               // the HTTP call threw
    | MissingQuote(symbol: string, currency: string) // reading it throws a TypeError

  predicate Quoted(quotes: Quotes, symbol: string, currency: string) {
    symbol in quotes && currency in quotes[symbol]
  }

  /** Every requested symbol is quoted in every requested currency. */
  predicate AllQuoted(quotes: Quotes, symbols: seq<string>, currencies: seq<string>) {
    forall s, c :: s in symbols && c in currencies ==> Quoted(quotes, s, c)
  }

  /** One row of the table: the symbol's price in each requested currency
      that is quoted. */
  function Row(quotes: Quotes, symbol: string, currencies: seq<string>): map<string, real>
  {
    map c | c in currencies && Quoted(quotes, symbol, c) :: quotes[symbol][c]
  }

  /** Reading one more quoted currency adds exactly its entry to the row. */
  lemma RowStep(quotes: Quotes, symbol: string, currencies: seq<string>, j: nat)
    requires j < |currencies| && Quoted(quotes, symbol, currencies[j])
    ensures Row(quotes, symbol, currencies[..j + 1])
      == Row(quotes, symbol, currencies[..j])[currencies[j] := quotes[symbol][currencies[j]]]
  {
    assert currencies[..j + 1] == currencies[..j] + [currencies[j]];
  }

  class CoinMarketProvider {
    const apiKey: string

    constructor (apiKey: string)
      ensures this.apiKey == apiKey
    {
      this.apiKey := apiKey;
    }

    /** `getPrice`: `reply` is the response's data, or `None` when the
        request threw. The table has exactly the requested symbols as keys,
        each row exactly the requested currencies, each price as quoted; a
        missing quote throws and no table is returned. */
    method GetPrice(symbols: seq<string>, currencies: seq<string>, reply: Option<Quotes>)
      returns (params: Params, result: Result<PriceTable, QuoteError>)
      ensures params == Params(Join(symbols, ','), Join(currencies, ','))
      ensures reply.None? ==> result == Err(RequestFailed)
      ensures reply.Some? ==> (result.Ok? <==> AllQuoted(reply.value, symbols, currencies))
      ensures result.Ok? ==>
        && reply.Some?
        && result.value.Keys == (set s | s in symbols)
        && forall s :: s in result.value ==>
             && result.value[s].Keys == (set c | c in currencies)
             && forall c :: c in currencies ==> result.value[s][c] == reply.value[s][c]
      ensures reply.Some? && result.Err? ==>
        && result.error.MissingQuote?
        && result.error.symbol in symbols
        && result.error.currency in currencies
        && !Quoted(reply.value, result.error.symbol, result.error.currency)
    {
      params := Params(Join(symbols, ','), Join(currencies, ','));
      if reply.None? {
        return params, Err(RequestFailed);
      }
      var quotes := reply.value;
      var table: PriceTable := map[];
      var i := 0;
      while i < |symbols|
        invariant 0 <= i <= |symbols|
        invariant AllQuoted(quotes, symbols[..i], currencies)
        invariant table.Keys == set s | s in symbols[..i]
        invariant forall s :: s in table ==> table[s] == Row(quotes, s, currencies)
      {
        var symbol := symbols[i];
        table := table[symbol := map[]];
        var j := 0;
        while j < |currencies|
          invariant 0 <= j <= |currencies|
          invariant forall c :: c in currencies[..j] ==> Quoted(quotes, symbol, c)
          invariant table.Keys == (set s | s in symbols[..i]) + {symbol}
          invariant table[symbol] == Row(quotes, symbol, currencies[..j])
          invariant forall s :: s in table && s != symbol ==> table[s] == Row(quotes, s, currencies)
        {
          var currency := currencies[j];
          if !Quoted(quotes, symbol, currency) {
            assert symbol in symbols && currency in currencies;
            return params, Err(MissingQuote(symbol, currency));
          }
          RowStep(quotes, symbol, currencies, j);
          table := table[symbol := table[symbol][currency := quotes[symbol][currency]]];
          assert currencies[..j + 1] == currencies[..j] + [currency];
          j := j + 1;
        }
        assert currencies[..j] == currencies;
        assert symbols[..i + 1] == symbols[..i] + [symbol];
        i := i + 1;
      }
      assert symbols[..i] == symbols;
      result := Ok(table);
    }
  }
}
