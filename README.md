# Pyth publisher: a Dafny model

The Pyth publisher is a service that feeds prices to a Pyth agent. Several price
sources each keep a cache of prices per Pyth symbol:

- two REST market-data APIs, CoinGecko and CoinMarketCap;
- an on-chain Uniswap v3 TWAP oracle.

For each symbol, a configured weighting says how much each source counts. When
the agent sends a `notify_price_sched` notification for a subscribed product,
the publisher does three things:

1. it mixes the cached prices into their weighted mean;
2. it scales the mean and a basis-point confidence to the product's exponent;
3. it sends them with `update_price`.

On every (re)connection it rebuilds the table that maps subscription ids to
products.

This project models that engine in Dafny. There is one module per source file:

| module | file | models |
|---|---|---|
| `Common` | `common.dfy` | JavaScript `Map` insertion order (`OrderedMap`), `Set` de-duplication (`Dedup`), `join`/`split` |
| `Uniswap` | `uniswap.dfy` | `observe` and `getAverages`; the TWAP and TWAL arithmetic with BigInt's truncating division |
| `Contracts` | `contracts.dfy` | the on-chain provider: its tables, its price cache, and the interval-aligned polling loops as a state machine |
| `Coingecko` | `coingecko.dfy` | the CoinGecko provider: request lists and the symbol-by-symbol cache update |
| `Coinmarket` | `coinmarket.dfy` | the CoinMarketCap client's response reshaping |
| `Publisher` | `publisher.dfy` | price mixing, scaling, notification handling, subscription rebuild, constructor |
| `Cli` | `cli.dfy` | the configuration-section merge and the once-only SIGINT guard |

## How the source is represented

- **Decimals and BigInts.** `Decimal` values are exact `real`s. BigInts are
  unbounded `int`s. BigInt `/` is written out as `Uniswap.TruncDiv`, which
  rounds toward zero; Dafny's own `/` is Euclidean.
- **Maps and objects.** A JavaScript `Map` whose order matters is an
  `OrderedMap`: keys in first-insertion order, and `set` on an existing key
  keeps its position. A configuration object iterated with `Object.entries`
  is a sequence of pairs.
- **State and steps.** Objects whose fields the source updates are classes
  with `modifies` clauses. The asynchronous polling loop is one value per loop
  that records the `await` it is suspended at. Each continuation is a method
  (`Check`, `FinishTask`, `Wake`, `FinishGrace`), and `stop` is a method too.
- **Outside inputs.** Network replies, retries, clocks and environment
  variables are parameters:
  - a reply is `Option`, where `None` means the retried call failed;
  - `now` is an integer number of seconds;
  - an API key is a string, with `""` meaning unset.
- **What the publisher sees of the providers.** The publisher sees the
  providers through a `Registry`. It holds, for each provider, the prices its
  `latestPrice` would return at the time of the call, plus the on-chain
  provider's conversion table. The names of the registered providers are the
  publisher's own field.

## Model

| member | source | states |
|---|---|---|
| Common.DedupElems | src/providers/coingecko.ts:39 | the `Set` built from the currency list holds every configured currency and no other |
| Common.DedupDistinct | src/providers/coingecko.ts:39 | the de-duplicated currency list repeats no currency |
| Common.DedupOrder | src/providers/coingecko.ts:39-42 | the de-duplicated list keeps each currency at its first occurrence, in order |
| Common.SplitJoin | src/providers/coingecko.ts:67-71 | a comma-joined parameter list of comma-free items reads back as the same list |
| Common.FromEntriesKeys | src/providers/contracts.ts:44-53 | a `Map` filled by `set` holds each key once, in first-insertion order |
| Common.FromEntriesLast | src/providers/contracts.ts:44-53 | each key of such a `Map` holds the value of its last `set` |
| Uniswap.TruncDivSpec | src/providers/uniswapV3Oracle.ts:44 | the BigInt quotient leaves a remainder smaller than the divisor with the sign of the dividend |
| Uniswap.TruncDivUnique | src/providers/uniswapV3Oracle.ts:44 | that remainder condition determines the BigInt quotient uniquely |
| Uniswap.TruncDivOdd | src/providers/uniswapV3Oracle.ts:44 | negating the tick growth negates the average tick (truncation, not floor) |
| Uniswap.TruncationExamples | src/providers/uniswapV3Oracle.ts:44 | 60 over 300 s gives tick 0, and so does -60 over 300 s, where floor division gives -1 |
| Uniswap.Observe | src/providers/uniswapV3Oracle.ts:76-92 | succeeds iff the reply has two readings of each kind; then exactly two observations, at offsets 0 and `secondsAgo`, each paired with the readings at its position |
| Uniswap.AverageTick | src/providers/uniswapV3Oracle.ts:38-44 | the definition of `calculateTWAP`'s average tick: the tick growth between the two observations divided by the seconds between them, truncated toward zero as BigInt `/` does |
| Uniswap.Twal | src/providers/uniswapV3Oracle.ts:49-58 | the definition of `calculateTWAL`: the seconds between the observations shifted left by 128 bits, divided by the growth of seconds per liquidity, truncated toward zero |
| Uniswap.AverageTickBounds | src/providers/uniswapV3Oracle.ts:38-44 | averageTick times the window falls short of the tick growth by less than one window, toward zero |
| Uniswap.GetAverages | src/providers/uniswapV3Oracle.ts:99-125 | the reference definition of `getAverages`: the observe error, then a failed pool read, then a zero divisor, else the truncated average tick and TWAL of the two observations |
| Uniswap.GetAveragesSpec | src/providers/uniswapV3Oracle.ts:99-124 | succeeds iff both readings arrive, the pool reads succeed and neither divisor is zero; the window is `timeInterval`; TWAP tick = (t0 - t1) / timeInterval and TWAL = (timeInterval << 128) / (s0 - s1), both truncating and from the same pair |
| Contracts.ConvertTableKeys | src/providers/contracts.ts:49-52 | the conversion table has an entry exactly for the configured symbols |
| Contracts.ConvertTableLast | src/providers/contracts.ts:44-53 | a later coin with the same symbol overwrites the earlier conversion |
| Contracts.NextWake | src/providers/contracts.ts:85-86 | the next wake is a multiple of the interval with now <= next < now + interval |
| Contracts.NextWakeLeast | src/providers/contracts.ts:86 | it is the smallest multiple at or after now, so an aligned now wakes at once |
| Contracts.SleepingResolversUpdate | src/providers/contracts.ts:92-95 | moving one loop in or out of its sleep adds or deletes exactly that loop's resolver |
| Contracts.Reading | src/providers/contracts.ts:64-66 | the definition of what `updateTwap` stores for one `getAverages` outcome: the pool price of the average tick on success, nothing when `getAverages` threw |
| Contracts.ReadingOfPool | src/providers/contracts.ts:64-66 | the reading `updateTwap` stores exists iff `getAverages` succeeds, and is the pool's price of the truncated average tick over the configured window |
| Contracts.ContractsProvider.constructor | src/providers/contracts.ts:43-54 | both tables are the `Map`s filled coin by coin; the cache is empty |
| Contracts.ContractsProvider.LatestPrice | src/providers/contracts.ts:56-58 | the last price stored for the symbol, or nothing before the first successful reading |
| Contracts.ContractsProvider.CovertProvider | src/providers/contracts.ts:60-62 | the conversion link configured for the symbol, present exactly when the symbol is in the conversion table |
| Contracts.ContractsProvider.UpdateTwap | src/providers/contracts.ts:64-67 | a successful `getAverages` stores the converted average tick as `latestPrice(symbol)`; a failed one leaves the stale price; no other symbol changes |
| Contracts.ContractsProvider.Init | src/providers/contracts.ts:123-130 | one update per configured symbol; each success is stored, the others keep their old price; `ok` iff every symbol's `getAverages` succeeded |
| Contracts.ContractsProvider.Start | src/providers/contracts.ts:113-121 | appends one loop per configured symbol, in table order, with that symbol's interval, each about to run its first task |
| Contracts.ContractsProvider.Check | src/providers/contracts.ts:84-95 | only a loop at the `while` test: a stopped provider ends the loop; otherwise the loop sleeps until `NextWake` with a fresh resolver registered and the next resolver number advanced by one; a stopped provider registers nothing |
| Contracts.ContractsProvider.FinishTask | src/providers/contracts.ts:78-108 | the reading of that `fn()` run is stored as `UpdateTwap` stores it; after the first run the loop reaches the `while` test whatever the outcome and the stop flag, after later runs it starts the pause |
| Contracts.ContractsProvider.Wake | src/providers/contracts.ts:92-99 | waking removes the resolver; a stopped provider ends the loop without running `fn()` again |
| Contracts.ContractsProvider.FinishGrace | src/providers/contracts.ts:107-110 | `count` rises by exactly one per post-sleep run, and the loop returns to the `while` test |
| Contracts.ContractsProvider.Stop | src/providers/contracts.ts:132-135 | sets `stopped` and calls every registered resolver, so every sleeping loop may wake |
| Coingecko.QueryParams | src/providers/coingecko.ts:67-71 | the definition of `getPriceFromApi`'s query: `ids` and `vs_currencies` each joined with commas, and the precision passed through |
| Coingecko.QueryParamsRoundTrip | src/providers/coingecko.ts:67-71 | `ids` and `vs_currencies` are sent comma-joined and read back as the lists; the precision is passed through |
| Coingecko.RequestListsSpec | src/providers/coingecko.ts:33-39 | one id per configured symbol; the currency list is every configured currency once |
| Coingecko.PricedPrefix | src/providers/coingecko.ts:45-50 | the update loop's stopping point: every coin before it has a price in the response, the coin at it has none |
| Coingecko.Stored | src/providers/coingecko.ts:45-50 | the definition of the cache after the update loop has stored its first n symbols: each one in turn set to `response[coingeckoId][coingeckoVcCurrencie]` of its own coin, over the old cache |
| Coingecko.StoredSpec | src/providers/coingecko.ts:45-50 | after storing n symbols, each of them holds `response[id][currency]` of its own coin and every other symbol keeps its old price |
| Coingecko.CoingeckoProvider.constructor | src/providers/coingecko.ts:24-30 | coins are keyed by `pythSymbol` (last duplicate wins); key and interval are copied |
| Coingecko.CoingeckoProvider.ConfiguredCoins | src/providers/coingecko.ts:33-38 | the configured coins in table order |
| Coingecko.CoingeckoProvider.LatestPrice | src/providers/coingecko.ts:53-56 | the last price stored for the symbol, or nothing |
| Coingecko.CoingeckoProvider.UpdatePrice | src/providers/coingecko.ts:32-51 | sends the joined lists with precision "18"; a failed request changes nothing; otherwise the symbols before the first unpriced coin get new prices and the rest keep their old ones |
| Coinmarket.CoinMarketProvider.constructor | src/providers/coinmarket.ts:7-9 | stores the API key |
| Coinmarket.Row | src/providers/coinmarket.ts:31-34 | the definition of one row of the returned table: the symbol's quoted price in each requested currency |
| Coinmarket.CoinMarketProvider.GetPrice | src/providers/coinmarket.ts:11-39 | sends `symbol` and `convert` comma-joined; returns a table iff every requested pair is quoted; its keys are exactly the symbols, each row exactly the currencies, each value the quoted price; otherwise it names a missing pair |
| Publisher.Mix | src/publisher.ts:74-115 | the reference definition of `mixLatestPrice`: unknown symbol, else the first provider error, else the weighted mean with its breakdown (zero-sum weights: see Left out) |
| Publisher.ProviderPrice | src/publisher.ts:83-105 | the definition of one weighted provider's contribution: an unknown provider, a missing price, a missing conversion link or a missing conversion price is the matching error; the "contracts" provider's price is multiplied by its conversion price, any other is taken as is |
| Publisher.UsedPricesOk | src/publisher.ts:82-105 | every weighted provider delivers a price iff each does individually, and the i-th used price is that provider's |
| Publisher.UsedPricesFirstError | src/publisher.ts:82-103 | a failure is the error of the first failing provider in weighting order |
| Publisher.MixFails | src/publisher.ts:77-107 | mixing fails as unknown iff the symbol has no weighting; otherwise it succeeds iff every weighted provider delivers and the weights do not sum to zero |
| Publisher.MixFirstError | src/publisher.ts:82-103 | the thrown provider error is that of the first failing provider |
| Publisher.MixIsWeightedMean | src/publisher.ts:75-107 | the mixed price is sum(price_i * ratio_i) / sum(ratio_j) over the providers' prices; an empty weighting gives 0 |
| Publisher.MixedPriceWithinRange | src/publisher.ts:81-107 | a mean with non-negative ratios lies between the lowest and the highest price |
| Publisher.MixWithinRange | src/publisher.ts:81-107 | with non-negative ratios the mixed price lies between the lowest and the highest provider price |
| Publisher.MixBreakdown | src/publisher.ts:108-112 | the breakdown has one entry per weighted provider, holding its ratio, the denominator and the price used after conversion |
| Publisher.ConversionOnlyForContracts | src/publisher.ts:91-105 | only the provider named "contracts" is affected by the conversion table, and its price is multiplied by the conversion symbol's price |
| Publisher.MixExamples | src/publisher.ts:74-115 | 50/50 weights on 100 and 102 mix to 101 with breakdown 50/100 each; an empty weighting mixes to 0 |
| Publisher.ScaledPrice | src/publisher.ts:184 | the definition of the sent price: the mixed price times 10^(-expoent) |
| Publisher.ScaledConf | src/publisher.ts:185-188 | the definition of the sent confidence: the mixed price times bps, over 10000, times 10^(-expoent) |
| Publisher.ScaleRoundTrip | src/publisher.ts:184-188 | the sent price times 10^expoent is the mixed price, and the confidence is bps/10000 of the sent price |
| Publisher.ScaleExample | src/publisher.ts:184-188 | mixed 101 at 10 bps and exponent -8 is sent as 10100000000 with confidence 10100000 |
| Publisher.Products | src/publisher.ts:128-143 | the product list maps each entry to its first price account and exponent; an entry without price accounts makes it fail |
| Publisher.Rebuild | src/publisher.ts:219-230 | the definition of the subscription pass: in list order, each product with a configured symbol is subscribed and filed under the returned id (a repeated id is overwritten); a failed subscription ends the pass and asks for a reconnect |
| Publisher.RebuildSpec | src/publisher.ts:219-230 | every stored product has a configured symbol and sits under the id it was subscribed with, which a subscription reply handed out |
| Publisher.Connect | src/publisher.ts:213-236 | the reference definition of `onConneted`: an empty table and a reconnect when the product list fails, else the subscription pass over the list from an empty table |
| Publisher.RebuildKeeps | src/publisher.ts:220-229 | an id that no later subscription call returns again keeps its product |
| Publisher.RebuildComplete | src/publisher.ts:219-230 | a pass that runs to the end subscribes every configured product: its call returns an id, the id is in the table, and the product filed under it is the last configured product whose call returned that id |
| Publisher.ConnectComplete | src/publisher.ts:213-236 | a connection that asks for no reconnect holds every configured product of the list under the id its call returned (the last one, when an id repeats) |
| Publisher.ConnectForgetsOldIds | src/publisher.ts:216-229 | after a connection, only ids from this connection's replies are present |
| Publisher.RewriteKey | src/publisher.ts:52 | the definition of `key.replace("=", ".")`: the first `=` becomes `.` |
| Publisher.RewriteKeyFirst | src/publisher.ts:52 | the first `=` of a key becomes `.` and every other character, later `=` included, is kept |
| Publisher.RewriteKeyNone | src/publisher.ts:52 | a key without `=` is kept as it is |
| Publisher.RatioTableSpec | src/publisher.ts:51-54 | the weighting table holds exactly the rewritten keys, each with the weighting of its last configured key |
| Publisher.RegisteredProviders | src/publisher.ts:56-70 | the REST providers are registered iff their section and a non-empty API key are present; the on-chain one iff its section is |
| Publisher.Publisher.constructor | src/publisher.ts:47-71 | stores the bps, the rewritten weighting table and the registered providers; no subscriptions |
| Publisher.Publisher.MixLatestPrice | src/publisher.ts:74-115 | the accumulating loop returns exactly `Mix`: the weighted mean and breakdown, or the first error |
| Publisher.Publisher.OnNotify | src/publisher.ts:153-210 | sends iff the method is `notify_price_sched`, the subscription is known and mixing succeeds; the update carries the price account, the scaled price and confidence and "trading" |
| Publisher.Publisher.OnConnected | src/publisher.ts:213-236 | empties the table, then holds exactly the subscriptions of this pass; any failure keeps what was subscribed so far and asks for a reconnect |
| Publisher.Publisher.Stop | src/publisher.ts:254-260 | sets `stopped` and stops the registered providers in registration order |
| Cli.DefineConfig | src/index.ts:15-25 | the definition of the `defineConfig` callback: an error naming a missing section, else the section laid over `default` when that exists, else the section itself |
| Cli.DefineConfigSpec | src/index.ts:15-25 | a missing section fails with "missing config for: " + name; with `default` the keys are the union and the named section wins; without it the section is returned as is |
| Cli.DefineConfigIdempotent | src/index.ts:20-24 | laying the merged section over `default` again changes nothing |
| Cli.Sigint | src/index.ts:54-66 | the definition of one SIGINT handler run: ignored once `exiting` is set; otherwise sets `exiting`, calls `stop` once, and exits with 1 when that stop fails |
| Cli.ExitingAbsorbs | src/index.ts:54-55 | once `exiting` is set, further SIGINTs change nothing |
| Cli.StopAtMostOnce | src/index.ts:52-66 | for any number of SIGINTs, `stop` is called once if any arrives; the exit code is 1 iff that first stop fails |
| Cli.Shutdown.constructor | src/index.ts:52 | starts idle: not exiting, no stop, no exit |
| Cli.Shutdown.OnSigint | src/index.ts:54-66 | one handler run is one `Sigint` step: only the first run stops the publisher, and a failing stop exits with 1 |
| Cli.Shutdown.Launch | src/index.ts:77-82 | a throwing `start` exits with 1 |

## Left out

- Transport. The JSON-RPC WebSocket, `update_price` and `subscribe_price_sched` requests, `reconnect`, the event (de)registration in `start` and `stop`, and the logger are not modelled. A request is modelled by its reply, or `None` when it fails.
- Retries. `retry` (src/util.ts, `retries: 5`, so up to six attempts) and `ChainContext.retry` of the chain library are modelled as "the call succeeds or fails"; their repeated attempts and back-off are not.
- Timers. `setTimeout`, `Date.now` and the one-second pauses are not modelled. Time enters as `now`, and a loop's steps are run in any order the caller chooses.
- Concurrency. The concurrent `updateTwap` calls of `init` (`Promise.all`) are modelled one after another. `start` launches its loops without awaiting them; each loop's continuations are methods that run in any order. `stop` awaits every loop with `Promise.all`; that waiting is not modelled, and `AllExited` names the condition it waits for.
- Publisher.Publisher.Stop: removing the handlers and stopping the transport are not modelled. The providers' own `stop` is modelled per provider.
- `Publisher.start` and `Publisher.init` only call the providers and the transport. Their per-provider effects are modelled as `Contracts.ContractsProvider.Start`/`Init`.
- Foreign libraries. The Uniswap SDK (`tickToPrice`, `Pool`, `Token`, `toSignificant(6)`) and the ethers contract reads are not modelled. `updateTwap` receives the `getAverages` outcome and the pool's tick-to-price conversion as a function parameter.
- Numeric precision. Decimal.js's 20-digit precision, `toNumber()`, the floating-point `10 ** -expoent`, and `Number` of a BigInt are not modelled. All arithmetic is exact.
- Publisher.Mix: weights that sum to zero with a non-empty weighting are reported as `ZeroWeightSum`. In the source, the same case yields a NaN or infinite Decimal, which is then scaled and sent. The provider errors that the source throws first still take precedence.
- Publisher.MixBreakdown: the breakdown holds the ratio and the denominator as numbers. The source formats them into the text `"<ratio>/<denominator>"`.
- CoinMarketCap in the publisher. The publisher constructs a `CoinmarketProvider` from a configuration object. The class in src/providers/coinmarket.ts takes an API key string and has no `latestPrice`. The export that links them is not part of this model. The registry reads every registered provider's prices alike.
- Partial updates. `updatePrice` writes the cache one symbol at a time and stops at the first missing price, so some symbols can hold new prices while others keep old ones (`Coingecko.CoingeckoProvider.UpdatePrice`).
- Coinmarket.CoinMarketProvider.GetPrice: the response is given flattened, as `data[symbol].quote[currency].price`. A quote object without a `price` field stores `undefined` in the source and does not throw. The flattened input cannot express that case.
- JavaScript object quirks. Prototype keys (`"toString" in config`), integer-like keys that `Object.entries` lists first, and the key order of the merged configuration object are not modelled.
- The coinmarket module's top-level `main()` is left out, because it is a demonstration call with output only.
- The parsing of the configuration file and the command line is left out: yargs, jsonc, `fs` and `Parser.camelCase`.
- The other source files are not part of this model: src/pyth.ts and src/providers/pyth.ts (superseded WebSocket clients), src/providers/coingeko.ts (an HTTP wrapper with no logic), src/providers/Iprovider.ts (an interface only) and src/config.ts (configuration data).
