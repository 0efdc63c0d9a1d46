/** The publishing engine: it mixes the providers' cached prices into one
    weighted price per symbol, scales it to the Pyth agent's fixed-point
    exponent, and keeps the table from subscription ids to products that
    decides which notifications are answered.

    The providers are seen through a `Registry`: for each provider the
    prices its `latestPrice` would return at the moment of the call, and the
    on-chain provider's conversion table. */
module Publisher {
  import opened Common
  import Contracts

  /** A symbol's weighting: provider name and ratio, in the configuration
      object's key order. */
  type Weighting = seq<(string, real)>

  datatype Registry = Registry(
    prices: map<string, map<string, real>>,        // provider name -> symbol -> latestPrice
    links: map<string, Contracts.ConvertLink>)      // the on-chain provider's covertProvider

  datatype MixError =
    | UnknownSymbol(symbol: string)                 // no weighting for the symbol
    | UnknownProvider(provider: string)             // weighted provider not registered
    | MissingPrice(provider: string)                // provider has no price for the symbol
    | MissingConvertProvider                        // on-chain symbol without conversion
    | UnknownConvertProvider(provider: string)      // conversion names an unregistered provider
    | MissingConvertPrice(provider: string)         // conversion provider has no price
    | ZeroWeightSum                                 // weights sum to zero

  /** One entry of the mixed price's breakdown: the ratio over the
      denominator (the source renders it as the text "ratio/denominator")
      and the price that entered the mean, after conversion. */
  datatype Share = Share(ratio: real, denominator: real, price: real)

  datatype Mixed = Mixed(price: real, info: map<string, Share>)

  const ContractsProvider := "contracts"

  function LatestPrice(reg: Registry, provider: string, symbol: string): Option<real> {
    if provider in reg.prices then Lookup(reg.prices[provider], symbol) else None
  }

  /** The price one weighted provider contributes for `symbol`, or the error
      the source throws for it. Only the provider named "contracts" has its
      price multiplied by the price of its conversion symbol. */
  function ProviderPrice(registered: seq<string>, reg: Registry, symbol: string, provider: string): Result<real, MixError>
  {
    if provider !in registered then Err(UnknownProvider(provider))
    else match LatestPrice(reg, provider, symbol)
      case None => Err(MissingPrice(provider))
      case Some(p) =>
        if provider != ContractsProvider then Ok(p)
        else if symbol !in reg.links then Err(MissingConvertProvider)
        else
          var link := reg.links[symbol];
          if link.convertProvider !in registered then Err(UnknownConvertProvider(link.convertProvider))
          else match LatestPrice(reg, link.convertProvider, link.convertSymbol)
            case None => Err(MissingConvertPrice(link.convertProvider))
            case Some(c) => Ok(p * c)
  }

  /** The sum of all ratios (`reduce` from the left, starting at 0). */
  function Denominator(ws: Weighting): real {
    if ws == [] then 0.0 else Denominator(ws[..|ws| - 1]) + ws[|ws| - 1].1
  }

  /** The prices the providers contribute, in weighting order, or the first
      error met. */
  function UsedPrices(registered: seq<string>, reg: Registry, symbol: string, ws: Weighting): (r: Result<seq<real>, MixError>)
    ensures r.Ok? ==> |r.value| == |ws|
  {
    if ws == [] then Ok([])
    else match UsedPrices(registered, reg, symbol, ws[..|ws| - 1])
      case Err(e) => Err(e)
      case Ok(ps) =>
        match ProviderPrice(registered, reg, symbol, ws[|ws| - 1].0)
        case Err(e) => Err(e)
        case Ok(p) => Ok(ps + [p])
  }

  /** Σ price_i · ratio_i. */
  function Dot(ws: Weighting, ps: seq<real>): real
    requires |ps| == |ws|
  {
    if ws == [] then 0.0 else Dot(ws[..|ws| - 1], ps[..|ps| - 1]) + ps[|ps| - 1] * ws[|ws| - 1].1
  }

  /** Σ price_i · ratio_i / d, or 0 when there is nothing to divide by. */
  function MixedPrice(ws: Weighting, ps: seq<real>, d: real): real
    requires |ps| == |ws|
  {
    if d == 0.0 then 0.0 else Dot(ws, ps) / d
  }

  function Breakdown(ws: Weighting, ps: seq<real>, d: real): map<string, Share>
    requires |ps| == |ws|
  {
    if ws == [] then map[]
    else Breakdown(ws[..|ws| - 1], ps[..|ps| - 1], d)[ws[|ws| - 1].0 := Share(ws[|ws| - 1].1, d, ps[|ps| - 1])]
  }

  /** What `mixLatestPrice` returns or throws: the weighted mean
      Σ price_i · ratio_i / Σ ratio_j and its breakdown. */
  function Mix(table: map<string, Weighting>, registered: seq<string>, reg: Registry, symbol: string): Result<Mixed, MixError>
  {
    if symbol !in table then Err(UnknownSymbol(symbol))
    else
      var ws := table[symbol];
      var d := Denominator(ws);
      match UsedPrices(registered, reg, symbol, ws)
      case Err(e) => Err(e)
      case Ok(ps) =>
        if |ws| > 0 && d == 0.0 then Err(ZeroWeightSum)
        else Ok(Mixed(MixedPrice(ws, ps, d), Breakdown(ws, ps, d)))
  }

  /** The providers all deliver a price exactly when each weighted provider
      does, and then the i-th used price is that provider's. */
  lemma {:induction false} UsedPricesOk(registered: seq<string>, reg: Registry, symbol: string, ws: Weighting)
    ensures UsedPrices(registered, reg, symbol, ws).Ok?
      <==> forall i :: 0 <= i < |ws| ==> ProviderPrice(registered, reg, symbol, ws[i].0).Ok?
    ensures UsedPrices(registered, reg, symbol, ws).Ok? ==>
      forall i :: 0 <= i < |ws| ==>
        UsedPrices(registered, reg, symbol, ws).value[i] == ProviderPrice(registered, reg, symbol, ws[i].0).value
  {
    if ws != [] {
      var p := ws[..|ws| - 1];
      UsedPricesOk(registered, reg, symbol, p);
      assert forall i :: 0 <= i < |p| ==> p[i] == ws[i];
    }
  }

  /** A failure is the error of the FIRST weighted provider that fails. */
  lemma {:induction false} UsedPricesFirstError(registered: seq<string>, reg: Registry, symbol: string, ws: Weighting)
    requires UsedPrices(registered, reg, symbol, ws).Err?
    ensures exists i ::
              && 0 <= i < |ws|
              && ProviderPrice(registered, reg, symbol, ws[i].0) == Err(UsedPrices(registered, reg, symbol, ws).error)
              && forall j :: 0 <= j < i ==> ProviderPrice(registered, reg, symbol, ws[j].0).Ok?
  {
    var p := ws[..|ws| - 1];
    var e := UsedPrices(registered, reg, symbol, ws).error;
    if UsedPrices(registered, reg, symbol, p).Err? {
      UsedPricesFirstError(registered, reg, symbol, p);
      var i :| 0 <= i < |p|
        && ProviderPrice(registered, reg, symbol, p[i].0) == Err(e)
        && forall j :: 0 <= j < i ==> ProviderPrice(registered, reg, symbol, p[j].0).Ok?;
      assert forall j :: 0 <= j <= i ==> p[j] == ws[j];
    } else {
      UsedPricesOk(registered, reg, symbol, p);
      assert forall j :: 0 <= j < |p| ==> p[j] == ws[j];
      assert ProviderPrice(registered, reg, symbol, ws[|p|].0) == Err(e);
    }
  }

  /** `mixLatestPrice` throws exactly when the symbol has no weighting, some
      weighted provider cannot deliver a price, or the weights sum to zero. */
  lemma MixFails(table: map<string, Weighting>, registered: seq<string>, reg: Registry, symbol: string)
    ensures Mix(table, registered, reg, symbol).Err? && Mix(table, registered, reg, symbol).error.UnknownSymbol?
      <==> symbol !in table
    ensures symbol in table ==>
      (Mix(table, registered, reg, symbol).Ok? <==>
        && (forall i :: 0 <= i < |table[symbol]| ==> ProviderPrice(registered, reg, symbol, table[symbol][i].0).Ok?)
        && (|table[symbol]| == 0 || Denominator(table[symbol]) != 0.0))
  {
    if symbol in table {
      UsedPricesOk(registered, reg, symbol, table[symbol]);
      if UsedPrices(registered, reg, symbol, table[symbol]).Err? {
        UsedPricesFirstError(registered, reg, symbol, table[symbol]);
      }
    }
  }

  /** A provider failure reported by `mixLatestPrice` is the first failing
      provider in weighting order. */
  lemma MixFirstError(table: map<string, Weighting>, registered: seq<string>, reg: Registry, symbol: string)
    requires Mix(table, registered, reg, symbol).Err?
    requires Mix(table, registered, reg, symbol).error != ZeroWeightSum
    requires symbol in table
    ensures var ws := table[symbol];
      exists i ::
        && 0 <= i < |ws|
        && ProviderPrice(registered, reg, symbol, ws[i].0) == Err(Mix(table, registered, reg, symbol).error)
        && forall j :: 0 <= j < i ==> ProviderPrice(registered, reg, symbol, ws[j].0).Ok?
  {
    UsedPricesFirstError(registered, reg, symbol, table[symbol]);
  }

  /** The mixed price is the ratio-weighted mean of the prices the weighted
      providers deliver. */
  lemma MixIsWeightedMean(table: map<string, Weighting>, registered: seq<string>, reg: Registry, symbol: string)
    requires Mix(table, registered, reg, symbol).Ok?
    ensures symbol in table
    ensures var ws := table[symbol];
      exists ps: seq<real> ::
        && |ps| == |ws|
        && (forall i :: 0 <= i < |ws| ==> ProviderPrice(registered, reg, symbol, ws[i].0) == Ok(ps[i]))
        && Mix(table, registered, reg, symbol).value.price == if ws == [] then 0.0 else Dot(ws, ps) / Denominator(ws)
  {
    var ws := table[symbol];
    UsedPricesOk(registered, reg, symbol, ws);
    var ps := UsedPrices(registered, reg, symbol, ws).value;
    assert forall i :: 0 <= i < |ws| ==> ProviderPrice(registered, reg, symbol, ws[i].0) == Ok(ps[i]);
  }

  lemma MulMonotone(a: real, b: real, r: real)
    requires a <= b && r >= 0.0
    ensures a * r <= b * r
  {
  }

  lemma MulStrict(a: real, b: real, d: real)
    requires a < b && d > 0.0
    ensures a * d < b * d
  {
  }

  lemma DivAdd(a: real, b: real, d: real)
    requires d != 0.0
    ensures a / d + b / d == (a + b) / d
  {
  }

  /** One more price at or above `lo` keeps the weighted sum above `lo`
      times the total weight ... */
  lemma LowerStep(t: real, d: real, p: real, r: real, lo: real)
    requires lo * d <= t && lo <= p && r >= 0.0
    ensures lo * (d + r) <= t + p * r
  {
    MulMonotone(lo, p, r);
    assert lo * (d + r) == lo * d + lo * r;
  }

  /** ... and one at or below `hi` keeps it below `hi` times the total. */
  lemma UpperStep(t: real, d: real, p: real, r: real, hi: real)
    requires t <= hi * d && p <= hi && r >= 0.0
    ensures t + p * r <= hi * (d + r)
  {
    MulMonotone(p, hi, r);
    assert hi * (d + r) == hi * d + hi * r;
  }

  /** Dividing by a positive total keeps a value between the scaled
      bounds. */
  lemma MeanBounds(lo: real, hi: real, d: real, t: real)
    requires d > 0.0 && lo * d <= t <= hi * d
    ensures lo <= t / d <= hi
  {
    var m := t / d;
    assert m * d == t;
    if m < lo { MulStrict(m, lo, d); }
    if m > hi { MulStrict(hi, m, d); }
  }

  /** A weighted sum with non-negative ratios is at least the lowest price
      times the sum of the ratios ... */
  lemma {:induction false} DotLower(ws: Weighting, ps: seq<real>, lo: real)
    requires |ps| == |ws|
    requires forall i :: 0 <= i < |ws| ==> ws[i].1 >= 0.0 && lo <= ps[i]
    ensures lo * Denominator(ws) <= Dot(ws, ps)
  {
    if ws != [] {
      var n := |ws| - 1;
      var ws', ps' := ws[..n], ps[..n];
      assert forall i :: 0 <= i < n ==> ws'[i] == ws[i] && ps'[i] == ps[i];
      DotLower(ws', ps', lo);
      var d, t := Denominator(ws'), Dot(ws', ps');
      var r, p := ws[n].1, ps[n];
      assert Denominator(ws) == d + r;
      assert Dot(ws, ps) == t + p * r;
      LowerStep(t, d, p, r, lo);
    } else {
      assert lo * Denominator(ws) == 0.0;
    }
  }

  /** ... and at most the highest price times it. */
  lemma {:induction false} DotUpper(ws: Weighting, ps: seq<real>, hi: real)
    requires |ps| == |ws|
    requires forall i :: 0 <= i < |ws| ==> ws[i].1 >= 0.0 && ps[i] <= hi
    ensures Dot(ws, ps) <= hi * Denominator(ws)
  {
    if ws != [] {
      var n := |ws| - 1;
      var ws', ps' := ws[..n], ps[..n];
      assert forall i :: 0 <= i < n ==> ws'[i] == ws[i] && ps'[i] == ps[i];
      DotUpper(ws', ps', hi);
      var d, t := Denominator(ws'), Dot(ws', ps');
      var r, p := ws[n].1, ps[n];
      assert Denominator(ws) == d + r;
      assert Dot(ws, ps) == t + p * r;
      UpperStep(t, d, p, r, hi);
    } else {
      assert hi * Denominator(ws) == 0.0;
    }
  }

  lemma {:induction false} DenominatorNonNegative(ws: Weighting)
    requires forall i :: 0 <= i < |ws| ==> ws[i].1 >= 0.0
    ensures Denominator(ws) >= 0.0
  {
    if ws != [] {
      var n := |ws| - 1;
      assert forall i :: 0 <= i < n ==> ws[..n][i] == ws[i];
      DenominatorNonNegative(ws[..n]);
    }
  }

  /** A weighted mean with non-negative ratios of positive sum lies between
      the lowest and the highest price. */
  lemma MixedPriceWithinRange(ws: Weighting, ps: seq<real>, lo: real, hi: real)
    requires |ps| == |ws| && Denominator(ws) != 0.0
    requires forall i :: 0 <= i < |ws| ==> ws[i].1 >= 0.0 && lo <= ps[i] <= hi
    ensures lo <= MixedPrice(ws, ps, Denominator(ws)) <= hi
  {
    DotLower(ws, ps, lo);
    DotUpper(ws, ps, hi);
    DenominatorNonNegative(ws);
    MeanBounds(lo, hi, Denominator(ws), Dot(ws, ps));
  }

  /** With non-negative ratios, the mixed price lies between the lowest and
      the highest provider price; in particular providers that agree give
      their common price. */
  lemma MixWithinRange(table: map<string, Weighting>, registered: seq<string>, reg: Registry, symbol: string, lo: real, hi: real)
    requires Mix(table, registered, reg, symbol).Ok?
    requires symbol in table && |table[symbol]| > 0
    requires forall i :: 0 <= i < |table[symbol]| ==> table[symbol][i].1 >= 0.0
    requires forall i :: 0 <= i < |table[symbol]| ==>
      ProviderPrice(registered, reg, symbol, table[symbol][i].0).Ok?
      && lo <= ProviderPrice(registered, reg, symbol, table[symbol][i].0).value <= hi
    ensures lo <= Mix(table, registered, reg, symbol).value.price <= hi
  {
    var ws := table[symbol];
    UsedPricesOk(registered, reg, symbol, ws);
    var ps := UsedPrices(registered, reg, symbol, ws).value;
    assert forall i :: 0 <= i < |ws| ==> ws[i].1 >= 0.0 && lo <= ps[i] <= hi;
    MixedPriceWithinRange(ws, ps, lo, hi);
  }

  /** The breakdown has one entry per weighted provider ... */
  lemma {:induction false} BreakdownKeys(ws: Weighting, ps: seq<real>, d: real)
    requires |ps| == |ws|
    ensures Breakdown(ws, ps, d).Keys == (set x | x in Firsts(ws))
  {
    if ws != [] {
      var n := |ws| - 1;
      BreakdownKeys(ws[..n], ps[..n], d);
      assert Firsts(ws) == Firsts(ws[..n]) + [ws[n].0];
    }
  }

  /** ... holding its ratio, the denominator and the price it contributed. */
  lemma {:induction false} BreakdownValue(ws: Weighting, ps: seq<real>, d: real, i: nat)
    requires |ps| == |ws| && i < |ws|
    requires forall j :: i < j < |ws| ==> ws[j].0 != ws[i].0
    ensures ws[i].0 in Breakdown(ws, ps, d)
    ensures Breakdown(ws, ps, d)[ws[i].0] == Share(ws[i].1, d, ps[i])
  {
    var n := |ws| - 1;
    if i < n {
      var ws', ps' := ws[..n], ps[..n];
      assert ws'[i] == ws[i] && ps'[i] == ps[i];
      assert forall j :: i < j < n ==> ws'[j] == ws[j];
      BreakdownValue(ws', ps', d, i);
    }
  }

  /** The breakdown of a successful mix: its keys are the weighted
      providers, and each records its ratio over the sum of all ratios and
      the price actually used. */
  lemma MixBreakdown(table: map<string, Weighting>, registered: seq<string>, reg: Registry, symbol: string, i: nat)
    requires Mix(table, registered, reg, symbol).Ok?
    requires symbol in table && i < |table[symbol]|
    requires forall j :: i < j < |table[symbol]| ==> table[symbol][j].0 != table[symbol][i].0
    ensures var ws := table[symbol];
      && Mix(table, registered, reg, symbol).value.info.Keys == (set x | x in Firsts(ws))
      && ProviderPrice(registered, reg, symbol, ws[i].0).Ok?
      && ws[i].0 in Mix(table, registered, reg, symbol).value.info
      && Mix(table, registered, reg, symbol).value.info[ws[i].0]
         == Share(ws[i].1, Denominator(ws), ProviderPrice(registered, reg, symbol, ws[i].0).value)
  {
    var ws := table[symbol];
    UsedPricesOk(registered, reg, symbol, ws);
    var ps := UsedPrices(registered, reg, symbol, ws).value;
    BreakdownKeys(ws, ps, Denominator(ws));
    BreakdownValue(ws, ps, Denominator(ws), i);
  }

  /** Only the provider named "contracts" is re-denominated: any other
      provider's price ignores the conversion table, and the on-chain price is
      multiplied by its conversion symbol's price. */
  lemma ConversionOnlyForContracts(registered: seq<string>, reg: Registry, symbol: string, provider: string,
                                    links: map<string, Contracts.ConvertLink>)
    ensures provider != ContractsProvider ==>
      ProviderPrice(registered, reg, symbol, provider) == ProviderPrice(registered, reg.(links := links), symbol, provider)
    ensures provider == ContractsProvider && ProviderPrice(registered, reg, symbol, provider).Ok? ==>
      && symbol in reg.links
      && LatestPrice(reg, provider, symbol).Some?
      && LatestPrice(reg, reg.links[symbol].convertProvider, reg.links[symbol].convertSymbol).Some?
      && ProviderPrice(registered, reg, symbol, provider).value
         == LatestPrice(reg, provider, symbol).value
            * LatestPrice(reg, reg.links[symbol].convertProvider, reg.links[symbol].convertSymbol).value
  {
  }

  /** Two providers weighted 50/50 quoting 100 and 102 mix to 101; an empty
      weighting mixes to 0. */
  lemma MixExamples()
    ensures var reg := Registry(map["coingecko" := map["BTC.USD" := 100.0], "coinmarket" := map["BTC.USD" := 102.0]], map[]);
      Mix(map["BTC.USD" := [("coingecko", 50.0), ("coinmarket", 50.0)]], ["coingecko", "coinmarket"], reg, "BTC.USD")
      == Ok(Mixed(101.0, map["coingecko" := Share(50.0, 100.0, 100.0), "coinmarket" := Share(50.0, 100.0, 102.0)]))
    ensures Mix(map["BTC.USD" := []], [], Registry(map[], map[]), "BTC.USD") == Ok(Mixed(0.0, map[]))
  {
    var ws: Weighting := [("coingecko", 50.0), ("coinmarket", 50.0)];
    var reg := Registry(map["coingecko" := map["BTC.USD" := 100.0], "coinmarket" := map["BTC.USD" := 102.0]], map[]);
    var registered := ["coingecko", "coinmarket"];
    assert ws[..1] == [("coingecko", 50.0)];
    assert ws[..1][..0] == [];
    assert Denominator(ws) == 100.0;
    assert ProviderPrice(registered, reg, "BTC.USD", "coingecko") == Ok(100.0);
    assert ProviderPrice(registered, reg, "BTC.USD", "coinmarket") == Ok(102.0);
    assert ws[..0] == [];
    PrefixUsed(registered, reg, "BTC.USD", ws, [], 0, 100.0);
    assert [] + [100.0] == [100.0];
    PrefixUsed(registered, reg, "BTC.USD", ws, [100.0], 1, 102.0);
    assert ws[..2] == ws;
    var ps := [100.0, 102.0];
    assert ps[..1] == [100.0];
    assert Dot(ws, ps) == 10100.0;
    assert Breakdown(ws, ps, 100.0) == map["coingecko" := Share(50.0, 100.0, 100.0), "coinmarket" := Share(50.0, 100.0, 102.0)];
  }

  // ---------------------------------------------------------------------
  // Scaling to the agent's exponent

  /** 10 to an integer power. */
  function Pow10(e: int): (r: real)
    ensures r > 0.0
    decreases if e < 0 then 1 - e else e
  {
    if e < 0 then 1.0 / Pow10(-e)
    else if e == 0 then 1.0
    else 10.0 * Pow10(e - 1)
  }

  lemma Pow10Inverse(e: int)
    ensures Pow10(e) * Pow10(-e) == 1.0
  {
  }

  /** `price · 10^(-expoent)`. */
  function ScaledPrice(mixed: real, expoent: int): real {
    mixed * Pow10(-expoent)
  }

  /** `price · bps / 10000 · 10^(-expoent)`. */
  function ScaledConf(mixed: real, bps: real, expoent: int): real {
    mixed * bps / 10000.0 * Pow10(-expoent)
  }

  /** Scaling is undone by the exponent the agent reads the value with, and
      the confidence is the configured basis points of the scaled price. */
  lemma ScaleRoundTrip(mixed: real, bps: real, expoent: int)
    ensures ScaledPrice(mixed, expoent) * Pow10(expoent) == mixed
    ensures ScaledConf(mixed, bps, expoent) == ScaledPrice(mixed, expoent) * bps / 10000.0
  {
    Pow10Inverse(expoent);
    calc {
      ScaledPrice(mixed, expoent) * Pow10(expoent);
      mixed * (Pow10(expoent) * Pow10(-expoent));
      mixed;
    }
  }

  /** A mixed price of 101 with 10 basis points at exponent -8 is sent as
      price 10100000000 and confidence 10100000. */
  lemma ScaleExample()
    ensures ScaledPrice(101.0, -8) == 10100000000.0
    ensures ScaledConf(101.0, 10.0, -8) == 10100000.0
  {
    assert Pow10(8) == 100000000.0 by {
      assert Pow10(4) == 10000.0;
    }
  }

  // ---------------------------------------------------------------------
  // Products and subscriptions

  datatype Product = Product(symbol: string, productAccount: string, priceAccount: string, expoent: int)

  /** A product as stored under its subscription id. */
  datatype SubscribedProduct = SubscribedProduct(product: Product, subscription: int)

  /** One price account of a `get_product_list` reply entry. */
  datatype PriceReply = PriceReply(account: string, priceExponent: int)

  /** One entry of the `get_product_list` reply. */
  datatype ProductReply = ProductReply(account: string, symbol: string, price: seq<PriceReply>)

  /** `getProductList`'s mapping: each entry's first price account and
      exponent; an entry without price accounts makes it throw. */
  function Products(reply: seq<ProductReply>): (r: Option<seq<Product>>)
    ensures r.Some? <==> forall i :: 0 <= i < |reply| ==> |reply[i].price| > 0
    ensures r.Some? ==>
      && |r.value| == |reply|
      && forall i :: 0 <= i < |reply| ==>
           r.value[i] == Product(reply[i].symbol, reply[i].account, reply[i].price[0].account, reply[i].price[0].priceExponent)
  {
    if reply == [] then Some([])
    else if |reply[0].price| == 0 then None
    else match Products(reply[1..])
      case None => None
      case Some(rest) =>
        Some([Product(reply[0].symbol, reply[0].account, reply[0].price[0].account, reply[0].price[0].priceExponent)] + rest)
  }

  /** The outcome of a connection's subscription pass: the table built and
      whether it ran to the end. */
  datatype Rebuilt = Rebuilt(table: map<int, SubscribedProduct>, ok: bool)

  /** Subscribes, in order, every product whose symbol is configured; the
      i-th subscription call is answered by `replies[i]` (`None`: it failed
      after its retries, which ends the pass). */
  function Rebuild(products: seq<Product>, symbols: set<string>, replies: seq<Option<int>>,
                   table: map<int, SubscribedProduct>): Rebuilt
  {
    if products == [] then Rebuilt(table, true)
    else if products[0].symbol !in symbols then Rebuild(products[1..], symbols, replies, table)
    else if replies == [] || replies[0].None? then Rebuilt(table, false)
    else
      var id := replies[0].value;
      Rebuild(products[1..], symbols, replies[1..], table[id := SubscribedProduct(products[0], id)])
  }

  /** What a connection leaves behind: a fresh table, or the empty table and
      a reconnect when the product list cannot be read. */
  function Connect(reply: Option<seq<ProductReply>>, symbols: set<string>, replies: seq<Option<int>>): Rebuilt
  {
    if reply.None? then Rebuilt(map[], false)
    else match Products(reply.value)
      case None => Rebuilt(map[], false)
      case Some(ps) => Rebuild(ps, symbols, replies, map[])
  }

  /** Only products whose symbol has a weighting are ever subscribed, each
      stored under the id it was subscribed with, and every id comes from a
      subscription reply of this pass (or from the table it started with). */
  lemma {:induction false} RebuildSpec(products: seq<Product>, symbols: set<string>, replies: seq<Option<int>>,
                                       table: map<int, SubscribedProduct>)
    requires forall id :: id in table ==> table[id].product.symbol in symbols && table[id].subscription == id
    ensures var t := Rebuild(products, symbols, replies, table).table;
      forall id :: id in t ==>
        && t[id].product.symbol in symbols
        && t[id].subscription == id
        && ((id in table && t[id] == table[id]) || (Some(id) in replies && t[id].product in products))
  {
    var t := Rebuild(products, symbols, replies, table).table;
    if products != [] {
      if products[0].symbol !in symbols {
        RebuildSpec(products[1..], symbols, replies, table);
        assert t == Rebuild(products[1..], symbols, replies, table).table;
        forall id | id in t && !(id in table && t[id] == table[id])
          ensures Some(id) in replies && t[id].product in products
        {
          assert t[id].product in products[1..];
        }
      } else if replies != [] && replies[0].Some? {
        var id0 := replies[0].value;
        var table' := table[id0 := SubscribedProduct(products[0], id0)];
        RebuildSpec(products[1..], symbols, replies[1..], table');
        assert t == Rebuild(products[1..], symbols, replies[1..], table').table;
        forall id | id in t && !(id in table && t[id] == table[id])
          ensures Some(id) in replies && t[id].product in products
        {
          if id in table' && t[id] == table'[id] {
            assert id == id0;
            assert replies[0] == Some(id0);
          } else {
            assert Some(id) in replies[1..];
            assert t[id].product in products[1..];
          }
        }
      }
    }
  }

  /** After a connection no subscription id of earlier connections survives
      unless the agent hands it out again. */
  lemma ConnectForgetsOldIds(reply: Option<seq<ProductReply>>, symbols: set<string>, replies: seq<Option<int>>)
    ensures var t := Connect(reply, symbols, replies).table;
      forall id :: id in t ==> Some(id) in replies && t[id].product.symbol in symbols && t[id].subscription == id
  {
    if reply.Some? && Products(reply.value).Some? {
      RebuildSpec(Products(reply.value).value, symbols, replies, map[]);
    }
  }

  /** How many of `products` are configured, that is, how many
      subscription calls a full pass over them makes. */
  function Wanted(products: seq<Product>, symbols: set<string>): nat
  {
    if products == [] then 0
    else (if products[0].symbol in symbols then 1 else 0) + Wanted(products[1..], symbols)
  }

  /** The answer to the subscription call made for the k-th product: the
      call number is the count of configured products before it. */
  function ReplyFor(products: seq<Product>, symbols: set<string>, replies: seq<Option<int>>, k: nat): Option<int>
    requires k <= |products|
  {
    var w := Wanted(products[..k], symbols);
    if w < |replies| then replies[w] else None
  }

  lemma WantedShift(products: seq<Product>, symbols: set<string>, k: nat)
    requires 1 <= k <= |products|
    ensures Wanted(products[..k], symbols)
      == (if products[0].symbol in symbols then 1 else 0) + Wanted(products[1..][..k - 1], symbols)
  {
    assert products[..k][1..] == products[1..][..k - 1];
  }

  /** Moving past a product shifts the call numbers of the later ones by
      one call when it was configured, and by none otherwise. */
  lemma ReplyForShift(products: seq<Product>, symbols: set<string>, replies: seq<Option<int>>, k: nat)
    requires 1 <= k <= |products|
    requires products[0].symbol in symbols ==> |replies| > 0
    ensures ReplyFor(products, symbols, replies, k)
      == if products[0].symbol in symbols then ReplyFor(products[1..], symbols, replies[1..], k - 1)
         else ReplyFor(products[1..], symbols, replies, k - 1)
  {
    WantedShift(products, symbols, k);
  }

  /** A subscription that no later call hands out again keeps its product. */
  lemma {:induction false} RebuildKeeps(products: seq<Product>, symbols: set<string>, replies: seq<Option<int>>,
                                        table: map<int, SubscribedProduct>, id: int)
    requires id in table
    requires forall k :: 0 <= k < |products| && products[k].symbol in symbols ==>
               ReplyFor(products, symbols, replies, k) != Some(id)
    ensures id in Rebuild(products, symbols, replies, table).table
    ensures Rebuild(products, symbols, replies, table).table[id] == table[id]
  {
    if products != [] {
      var here := products[0].symbol in symbols;
      assert ReplyFor(products, symbols, replies, 0) == if |replies| > 0 then replies[0] else None;
      if !here {
        forall k | 0 <= k < |products[1..]| && products[1..][k].symbol in symbols
          ensures ReplyFor(products[1..], symbols, replies, k) != Some(id)
        {
          ReplyForShift(products, symbols, replies, k + 1);
        }
        RebuildKeeps(products[1..], symbols, replies, table, id);
      } else if replies != [] && replies[0].Some? {
        var id0 := replies[0].value;
        assert id0 != id;
        var table' := table[id0 := SubscribedProduct(products[0], id0)];
        forall k | 0 <= k < |products[1..]| && products[1..][k].symbol in symbols
          ensures ReplyFor(products[1..], symbols, replies[1..], k) != Some(id)
        {
          ReplyForShift(products, symbols, replies, k + 1);
        }
        RebuildKeeps(products[1..], symbols, replies[1..], table', id);
      }
    }
  }

  /** A pass that runs to the end subscribes every configured product: its
      call is answered with an id, the id is in the table, and unless a
      later call hands out the same id it is filed under that id with this
      product. */
  lemma {:induction false} RebuildComplete(products: seq<Product>, symbols: set<string>, replies: seq<Option<int>>,
                                           table: map<int, SubscribedProduct>, k: nat)
    requires Rebuild(products, symbols, replies, table).ok
    requires k < |products| && products[k].symbol in symbols
    ensures ReplyFor(products, symbols, replies, k).Some?
    ensures var id, t := ReplyFor(products, symbols, replies, k).value, Rebuild(products, symbols, replies, table).table;
      && id in t
      && ((forall k' :: k < k' < |products| && products[k'].symbol in symbols ==>
             ReplyFor(products, symbols, replies, k') != Some(id))
          ==> t[id] == SubscribedProduct(products[k], id))
  {
    var here := products[0].symbol in symbols;
    if !here {
      ReplyForShift(products, symbols, replies, k);
      RebuildComplete(products[1..], symbols, replies, table, k - 1);
      forall k' | k < k' < |products| ensures ReplyFor(products, symbols, replies, k') == ReplyFor(products[1..], symbols, replies, k' - 1) {
        ReplyForShift(products, symbols, replies, k');
      }
    } else {
      var id0 := replies[0].value;
      var table' := table[id0 := SubscribedProduct(products[0], id0)];
      assert Rebuild(products, symbols, replies, table) == Rebuild(products[1..], symbols, replies[1..], table');
      forall k' | 0 < k' < |products| ensures ReplyFor(products, symbols, replies, k') == ReplyFor(products[1..], symbols, replies[1..], k' - 1) {
        ReplyForShift(products, symbols, replies, k');
      }
      if k == 0 {
        assert ReplyFor(products, symbols, replies, 0) == Some(id0);
        var t := Rebuild(products, symbols, replies, table).table;
        if forall k' :: 0 < k' < |products| && products[k'].symbol in symbols ==> ReplyFor(products, symbols, replies, k') != Some(id0) {
          RebuildKeeps(products[1..], symbols, replies[1..], table', id0);
        } else {
          var k' :| 0 < k' < |products| && products[k'].symbol in symbols && ReplyFor(products, symbols, replies, k') == Some(id0);
          RebuildComplete(products[1..], symbols, replies[1..], table', k' - 1);
        }
      } else {
        ReplyForShift(products, symbols, replies, k);
        RebuildComplete(products[1..], symbols, replies[1..], table', k - 1);
      }
    }
  }

  /** A connection that does not ask for a reconnect has subscribed every
      configured product of the list under the id its call returned. */
  lemma ConnectComplete(reply: Option<seq<ProductReply>>, symbols: set<string>, replies: seq<Option<int>>, k: nat)
    requires Connect(reply, symbols, replies).ok
    ensures reply.Some? && Products(reply.value).Some?
    ensures var ps := Products(reply.value).value;
      k < |ps| && ps[k].symbol in symbols ==>
        && ReplyFor(ps, symbols, replies, k).Some?
        && var id, t := ReplyFor(ps, symbols, replies, k).value, Connect(reply, symbols, replies).table;
           && id in t
           && ((forall k' :: k < k' < |ps| && ps[k'].symbol in symbols ==> ReplyFor(ps, symbols, replies, k') != Some(id))
               ==> t[id] == SubscribedProduct(ps[k], id))
  {
    var ps := Products(reply.value).value;
    if k < |ps| && ps[k].symbol in symbols {
      RebuildComplete(ps, symbols, replies, map[], k);
    }
  }

  // ---------------------------------------------------------------------
  // Construction

  /** `String.prototype.replace("=", ".")`: the first `=` becomes `.`. */
  function RewriteKey(key: string): string {
    if key == [] then []
    else if key[0] == '=' then ['.'] + key[1..]
    else [key[0]] + RewriteKey(key[1..])
  }

  /** The first `=`, at `i`, is replaced and nothing else changes. */
  lemma {:induction false} RewriteKeyFirst(key: string, i: nat)
    requires i < |key| && key[i] == '=' && '=' !in key[..i]
    ensures RewriteKey(key) == key[..i] + "." + key[i + 1..]
  {
    if i > 0 {
      assert key[0] in key[..i];
      assert key[1..][..i - 1] == key[1..i];
      assert '=' !in key[1..][..i - 1];
      RewriteKeyFirst(key[1..], i - 1);
      assert key[..i] == [key[0]] + key[1..][..i - 1];
      assert key[1..][i..] == key[i + 1..];
    }
  }

  /** A key without `=` is kept as it is. */
  lemma {:induction false} RewriteKeyNone(key: string)
    requires '=' !in key
    ensures RewriteKey(key) == key
  {
    if key != [] {
      assert key[0] in key;
      assert forall c :: c in key[1..] ==> c in key;
      RewriteKeyNone(key[1..]);
    }
  }

  function RewrittenEntries(config: seq<(string, Weighting)>): (es: seq<(string, Weighting)>)
    ensures |es| == |config|
    ensures forall i :: 0 <= i < |config| ==> es[i] == (RewriteKey(config[i].0), config[i].1)
  {
    seq(|config|, i requires 0 <= i < |config| => (RewriteKey(config[i].0), config[i].1))
  }

  /** The weighting table holds a symbol exactly when some configured key
      rewrites to it, with the weighting of the LAST such key. */
  lemma RatioTableSpec(config: seq<(string, Weighting)>, i: nat)
    requires i < |config|
    requires forall j :: i < j < |config| ==> RewriteKey(config[j].0) != RewriteKey(config[i].0)
    ensures var t := FromEntries(RewrittenEntries(config)).values;
      && t.Keys == (set k | 0 <= k < |config| :: RewriteKey(config[k].0))
      && t[RewriteKey(config[i].0)] == config[i].1
  {
    var es := RewrittenEntries(config);
    FromEntriesKeys(es);
    DedupElems(Firsts(es));
    FromEntriesLast(es, i);
    var t := FromEntries(es).values;
    forall x | x in (set k | 0 <= k < |config| :: RewriteKey(config[k].0)) ensures x in t {
      var k :| 0 <= k < |config| && RewriteKey(config[k].0) == x;
      assert Firsts(es)[k] == x;
    }
  }

  const CoingeckoProvider := "coingecko"
  const CoinmarketProvider := "coinmarket"

  /** The providers the constructor registers, in registration order: the
      REST providers need their configuration section and a non-empty API
      key from the environment ("" when unset), the on-chain provider only its
      section. */
  function RegisteredProviders(coingecko: bool, coingeckoKey: string, coinmarket: bool, coinmarketKey: string,
                               contracts: bool): (names: seq<string>)
    ensures Distinct(names)
    ensures forall n :: n in names ==> n in [CoingeckoProvider, CoinmarketProvider, ContractsProvider]
    ensures ContractsProvider in names <==> contracts
    ensures CoingeckoProvider in names <==> coingecko && coingeckoKey != ""
    ensures CoinmarketProvider in names <==> coinmarket && coinmarketKey != ""
  {
    (if coingecko && coingeckoKey != "" then [CoingeckoProvider] else [])
    + (if coinmarket && coinmarketKey != "" then [CoinmarketProvider] else [])
    + (if contracts then [ContractsProvider] else [])
  }

  /** The publisher's configuration; the sections of the providers are
      reduced to whether they are present. */
  datatype PublisherConfig = PublisherConfig(
    url: string,
    confidenceRatioBps: real,
    pythSymbolToRatio: seq<(string, Weighting)>,
    coingecko: bool,
    coinmarket: bool,
    contracts: bool)

  /** A `update_price` request. */
  datatype PriceUpdate = PriceUpdate(account: string, price: real, conf: real, status: string)

  const NotifyMethod := "notify_price_sched"
  const Trading := "trading"

  class Publisher {
    const confidenceRatioBps: real
    const symbolToRatio: map<string, Weighting>
    const providers: seq<string>
    var subscriptionToProduct: map<int, SubscribedProduct>
    var stopped: bool

    /** Stores the weightings under their rewritten symbols and registers
        the providers whose configuration (and API key) is present. */
    constructor (config: PublisherConfig, coingeckoKey: string, coinmarketKey: string)
      ensures confidenceRatioBps == config.confidenceRatioBps
      ensures symbolToRatio == FromEntries(RewrittenEntries(config.pythSymbolToRatio)).values
      ensures providers == RegisteredProviders(config.coingecko, coingeckoKey, config.coinmarket, coinmarketKey, config.contracts)
      ensures subscriptionToProduct == map[] && !stopped
    {
      confidenceRatioBps := config.confidenceRatioBps;
      var entries := config.pythSymbolToRatio;
      var table: map<string, Weighting> := map[];
      var i := 0;
      while i < |entries|
        invariant 0 <= i <= |entries|
        invariant table == FromEntries(RewrittenEntries(entries[..i])).values
      {
        assert RewrittenEntries(entries[..i + 1])[..i] == RewrittenEntries(entries[..i]);
        table := table[RewriteKey(entries[i].0) := entries[i].1];
        i := i + 1;
      }
      assert entries[..i] == entries;
      symbolToRatio := table;
      providers := RegisteredProviders(config.coingecko, coingeckoKey, config.coinmarket, coinmarketKey, config.contracts);
      subscriptionToProduct := map[];
      stopped := false;
    }

    /** `mixLatestPrice`: accumulates `price · ratio / denominator` provider
        by provider and records each provider's share. */
    method MixLatestPrice(symbol: string, reg: Registry) returns (r: Result<Mixed, MixError>)
      ensures r == Mix(symbolToRatio, providers, reg, symbol)
    {
      if symbol !in symbolToRatio {
        return Err(UnknownSymbol(symbol));
      }
      var ws := symbolToRatio[symbol];
      var d := Denominator(ws);
      var price: real := 0.0;
      var info: map<string, Share> := map[];
      var used: seq<real> := [];
      for i := 0 to |ws|
        invariant MixedSoFar(providers, reg, symbol, ws, i, used, price, info)
      {
        var p := ProviderPrice(providers, reg, symbol, ws[i].0);
        if p.Err? {
          MixStopsAt(symbolToRatio, providers, reg, symbol, i, used, price, info);
          return Err(p.error);
        }
        var value := p.value;
        assert ProviderPrice(providers, reg, symbol, ws[i].0) == Ok(value);
        var share := if d != 0.0 then value * ws[i].1 / d else 0.0;
        MixStep(providers, reg, symbol, ws, i, used, price, info, value, share);
        price := price + share;
        used := used + [value];
        info := info[ws[i].0 := Share(ws[i].1, d, value)];
      }
      MixDone(symbolToRatio, providers, reg, symbol, used, price, info);
      if |ws| > 0 && d == 0.0 {
        return Err(ZeroWeightSum);
      }
      r := Ok(Mixed(price, info));
    }

    /** `onNotify`: answers a price-schedule notification for a known
        subscription with an `update_price` of the scaled mixed price, and
        sends nothing otherwise. */
    method OnNotify(rpcMethod: string, subscription: Option<int>, reg: Registry) returns (sent: Option<PriceUpdate>)
      ensures sent.Some? <==>
        && rpcMethod == NotifyMethod
        && subscription.Some? && subscription.value in subscriptionToProduct
        && Mix(symbolToRatio, providers, reg, subscriptionToProduct[subscription.value].product.symbol).Ok?
      ensures sent.Some? ==>
        var product := subscriptionToProduct[subscription.value].product;
        var mixed := Mix(symbolToRatio, providers, reg, product.symbol).value.price;
        sent.value == PriceUpdate(product.priceAccount, ScaledPrice(mixed, product.expoent),
                                  ScaledConf(mixed, confidenceRatioBps, product.expoent), Trading)
    {
      if rpcMethod != NotifyMethod {
        return None;
      }
      if subscription.None? || subscription.value !in subscriptionToProduct {
        return None;
      }
      var product := subscriptionToProduct[subscription.value].product;
      var mixed := MixLatestPrice(product.symbol, reg);
      if mixed.Err? {
        return None;
      }
      var scalePrice := mixed.value.price * Pow10(-product.expoent);
      var scaleConf := mixed.value.price * confidenceRatioBps / 10000.0 * Pow10(-product.expoent);
      sent := Some(PriceUpdate(product.priceAccount, scalePrice, scaleConf, Trading));
    }

    /** `onConneted`: empties the subscription table, then subscribes the
        configured products one by one. `reply` is the product list (`None`
        when it cannot be fetched) and `replies` the answers to the
        subscription calls in order. Returns whether the connection is to be
        re-established. */
    method OnConnected(reply: Option<seq<ProductReply>>, replies: seq<Option<int>>) returns (reconnect: bool)
      modifies this`subscriptionToProduct
      ensures subscriptionToProduct == Connect(reply, symbolToRatio.Keys, replies).table
      ensures reconnect == !Connect(reply, symbolToRatio.Keys, replies).ok
    {
      subscriptionToProduct := map[];
      if reply.None? {
        return true;
      }
      var products := Products(reply.value);
      if products.None? {
        return true;
      }
      var ps := products.value;
      var symbols := symbolToRatio.Keys;
      var k := 0;
      for i := 0 to |ps|
        invariant 0 <= k <= |replies|
        invariant Rebuild(ps[i..], symbols, replies[k..], subscriptionToProduct) == Rebuild(ps, symbols, replies, map[])
      {
        assert ps[i..][1..] == ps[i + 1..];
        if ps[i].symbol in symbols {
          if k == |replies| || replies[k].None? {
            return true;
          }
          var id := replies[k].value;
          assert replies[k..][1..] == replies[k + 1..];
          subscriptionToProduct := subscriptionToProduct[id := SubscribedProduct(ps[i], id)];
          k := k + 1;
        }
      }
      return false;
    }

    /** `stop`: raises the flag and returns the providers to stop, in
        registration order. */
    method Stop() returns (stopping: seq<string>)
      modifies this`stopped
      ensures stopped && stopping == providers
    {
      stopped := true;
      stopping := providers;
    }
  }

  /** What `mixLatestPrice` has accumulated after the first `i` weighted
      providers: their prices, the partial mean and the partial breakdown. */
  predicate MixedSoFar(registered: seq<string>, reg: Registry, symbol: string, ws: Weighting,
                       i: nat, used: seq<real>, price: real, info: map<string, Share>)
  {
    && i <= |ws| && |used| == i
    && UsedPrices(registered, reg, symbol, ws[..i]) == Ok(used)
    && price == MixedPrice(ws[..i], used, Denominator(ws))
    && info == Breakdown(ws[..i], used, Denominator(ws))
  }

  /** One more delivering provider adds its share to the mean and its entry
      to the breakdown. */
  lemma MixStep(registered: seq<string>, reg: Registry, symbol: string, ws: Weighting,
                i: nat, used: seq<real>, price: real, info: map<string, Share>, p: real, share: real)
    requires i < |ws| && MixedSoFar(registered, reg, symbol, ws, i, used, price, info)
    requires ProviderPrice(registered, reg, symbol, ws[i].0) == Ok(p)
    requires share == if Denominator(ws) != 0.0 then p * ws[i].1 / Denominator(ws) else 0.0
    ensures MixedSoFar(registered, reg, symbol, ws, i + 1, used + [p], price + share,
                       info[ws[i].0 := Share(ws[i].1, Denominator(ws), p)])
  {
    var d := Denominator(ws);
    PrefixUsed(registered, reg, symbol, ws, used, i, p);
    PrefixMixedPrice(ws, used, i, p, d);
    PrefixBreakdown(ws, used, i, p, d);
  }

  /** A provider that cannot deliver makes mixing throw its error. */
  lemma MixStopsAt(table: map<string, Weighting>, registered: seq<string>, reg: Registry, symbol: string,
                   i: nat, used: seq<real>, price: real, info: map<string, Share>)
    requires symbol in table && i < |table[symbol]|
    requires MixedSoFar(registered, reg, symbol, table[symbol], i, used, price, info)
    requires ProviderPrice(registered, reg, symbol, table[symbol][i].0).Err?
    ensures Mix(table, registered, reg, symbol) == Err(ProviderPrice(registered, reg, symbol, table[symbol][i].0).error)
  {
    UsedPricesErr(registered, reg, symbol, table[symbol], i);
  }

  /** Once every weighted provider has delivered, the accumulated mean and
      breakdown are the mixed price, unless the weights sum to zero. */
  lemma MixDone(table: map<string, Weighting>, registered: seq<string>, reg: Registry, symbol: string,
                used: seq<real>, price: real, info: map<string, Share>)
    requires symbol in table
    requires MixedSoFar(registered, reg, symbol, table[symbol], |table[symbol]|, used, price, info)
    ensures var ws, d := table[symbol], Denominator(table[symbol]);
      Mix(table, registered, reg, symbol)
        == if |ws| > 0 && d == 0.0 then Err(ZeroWeightSum) else Ok(Mixed(price, info))
  {
    assert table[symbol][..|table[symbol]|] == table[symbol];
  }

  /** One more delivering provider extends the collected prices ... */
  lemma PrefixUsed(registered: seq<string>, reg: Registry, symbol: string, ws: Weighting, used: seq<real>, i: nat, p: real)
    requires i < |ws|
    requires UsedPrices(registered, reg, symbol, ws[..i]) == Ok(used)
    requires ProviderPrice(registered, reg, symbol, ws[i].0) == Ok(p)
    ensures UsedPrices(registered, reg, symbol, ws[..i + 1]) == Ok(used + [p])
  {
    assert ws[..i + 1][..i] == ws[..i];
  }

  /** ... the weighted sum ... */
  lemma PrefixDot(ws: Weighting, used: seq<real>, i: nat, p: real)
    requires i < |ws| && |used| == i
    ensures Dot(ws[..i + 1], used + [p]) == Dot(ws[..i], used) + p * ws[i].1
  {
    var ws1, ps1 := ws[..i + 1], used + [p];
    assert ws1[..|ws1| - 1] == ws[..i] && ps1[..|ps1| - 1] == used;
    assert ws1[|ws1| - 1] == ws[i] && ps1[|ps1| - 1] == p;
  }

  /** ... the mixed price by the provider's term ... */
  lemma PrefixMixedPrice(ws: Weighting, used: seq<real>, i: nat, p: real, d: real)
    requires i < |ws| && |used| == i
    ensures MixedPrice(ws[..i + 1], used + [p], d)
      == MixedPrice(ws[..i], used, d) + if d != 0.0 then p * ws[i].1 / d else 0.0
  {
    PrefixDot(ws, used, i, p);
    if d != 0.0 {
      DivAdd(Dot(ws[..i], used), p * ws[i].1, d);
    }
  }

  /** ... and the breakdown by its own entry. */
  lemma PrefixBreakdown(ws: Weighting, used: seq<real>, i: nat, p: real, d: real)
    requires i < |ws| && |used| == i
    ensures Breakdown(ws[..i + 1], used + [p], d) == Breakdown(ws[..i], used, d)[ws[i].0 := Share(ws[i].1, d, p)]
  {
    var ws1, ps1 := ws[..i + 1], used + [p];
    assert ws1[..|ws1| - 1] == ws[..i] && ps1[..|ps1| - 1] == used;
    assert ws1[|ws1| - 1] == ws[i] && ps1[|ps1| - 1] == p;
  }

  /** A provider that fails at position `i`, after all before it delivered,
      makes the collected prices fail with its error. */
  lemma {:induction false} UsedPricesErr(registered: seq<string>, reg: Registry, symbol: string, ws: Weighting, i: nat)
    requires i < |ws|
    requires UsedPrices(registered, reg, symbol, ws[..i]).Ok?
    requires ProviderPrice(registered, reg, symbol, ws[i].0).Err?
    ensures UsedPrices(registered, reg, symbol, ws) == Err(ProviderPrice(registered, reg, symbol, ws[i].0).error)
  {
    if i < |ws| - 1 {
      var p := ws[..|ws| - 1];
      assert p[..i] == ws[..i] && p[i] == ws[i];
      UsedPricesErr(registered, reg, symbol, p, i);
    } else {
      assert ws[..|ws| - 1] == ws[..i];
    }
  }
}
