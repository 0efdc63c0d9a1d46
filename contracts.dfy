/** The on-chain source: a price cache per symbol filled from Uniswap v3
    TWAP readings, and one interval-aligned polling loop per symbol.

    The polling loops are asynchronous in the source. Here each loop is a
    value in `loops` whose `phase` names the `await` it is suspended at, and
    each method below is one continuation that the event loop may run. */
module Contracts {
  import opened Common
  import Uniswap

  /** Pool settings of one coin; token metadata and fee tier only feed the
      foreign tick-to-price conversion and are not modelled. */
  datatype OracleConfig = OracleConfig(poolAddress: string, timeInterval: int)

  /** One entry of the provider's `coins` configuration. */
  datatype Coin = Coin(
    pythSymbol: string,
    networkId: int,
    oracle: OracleConfig,
    getInterval: int,
    convertProvider: string,
    convertSymbol: string)

  datatype OracleWithInterval = OracleWithInterval(networkId: int, oracle: OracleConfig, getInterval: int)

  /** Which provider and symbol re-denominate a symbol's on-chain price. */
  datatype ConvertLink = ConvertLink(convertProvider: string, convertSymbol: string)

  /** The `await` a polling loop is suspended at. */
  datatype Phase =
    | InitialTask                         // the first `fn()`, before the loop
    | WhileTest                           // at the `while (!this.stopped)` test
    | Sleeping(resolver: nat, wakeAt: int) // the interval-aligned sleep
    | Task                                // `fn()` after a wake
    | Grace                               // the one-second pause after `fn()`
    | Exited

  datatype OracleLoop = OracleLoop(symbol: string, interval: int, phase: Phase)

  function OracleEntries(coins: seq<Coin>): (es: seq<(string, OracleWithInterval)>)
    ensures |es| == |coins|
    ensures forall i :: 0 <= i < |coins| ==>
      es[i] == (coins[i].pythSymbol, OracleWithInterval(coins[i].networkId, coins[i].oracle, coins[i].getInterval))
  {
    seq(|coins|, i requires 0 <= i < |coins| =>
      (coins[i].pythSymbol, OracleWithInterval(coins[i].networkId, coins[i].oracle, coins[i].getInterval)))
  }

  function ConvertEntries(coins: seq<Coin>): (es: seq<(string, ConvertLink)>)
    ensures |es| == |coins|
    ensures forall i :: 0 <= i < |coins| ==>
      es[i] == (coins[i].pythSymbol, ConvertLink(coins[i].convertProvider, coins[i].convertSymbol))
  {
    seq(|coins|, i requires 0 <= i < |coins| =>
      (coins[i].pythSymbol, ConvertLink(coins[i].convertProvider, coins[i].convertSymbol)))
  }

  function Symbols(coins: seq<Coin>): (ss: seq<string>)
    ensures |ss| == |coins| && forall i :: 0 <= i < |coins| ==> ss[i] == coins[i].pythSymbol
  {
    seq(|coins|, i requires 0 <= i < |coins| => coins[i].pythSymbol)
  }

  /** The conversion table built from `coins` has an entry exactly for the
      configured symbols. */
  lemma ConvertTableKeys(coins: seq<Coin>, symbol: string)
    ensures symbol in FromEntries(ConvertEntries(coins)).values <==> symbol in Symbols(coins)
  {
    var es := ConvertEntries(coins);
    FromEntriesKeys(es);
    DedupElems(Firsts(es));
    assert Firsts(es) == Symbols(coins);
  }

  /** Each symbol's conversion comes from the LAST coin with that symbol. */
  lemma ConvertTableLast(coins: seq<Coin>, i: nat)
    requires i < |coins|
    requires forall j :: i < j < |coins| ==> coins[j].pythSymbol != coins[i].pythSymbol
    ensures coins[i].pythSymbol in FromEntries(ConvertEntries(coins)).values
    ensures FromEntries(ConvertEntries(coins)).values[coins[i].pythSymbol]
      == ConvertLink(coins[i].convertProvider, coins[i].convertSymbol)
  {
    FromEntriesLast(ConvertEntries(coins), i);
  }

  /** The polling schedule: the first multiple of `interval` at or after
      `now` (`Math.ceil(now / interval) * interval`). */
  function NextWake(now: int, interval: int): (next: int)
    requires interval > 0
    ensures next % interval == 0
    ensures now <= next < now + interval
  {
    var q := (-now) / interval;
    assert -now == q * interval + (-now) % interval;
    DivModUnique((-q) * interval, interval, -q, 0);
    (-q) * interval
  }

  /** No multiple of `interval` lies between `now` and the next wake, so
      an aligned `now` is its own next wake. */
  lemma NextWakeLeast(now: int, interval: int, m: int)
    requires interval > 0
    requires m % interval == 0 && now <= m
    ensures NextWake(now, interval) <= m
  {
    var next := NextWake(now, interval);
    if m < next {
      var a, b := m / interval, next / interval;
      assert m == a * interval && next == b * interval;
      assert next - m == (b - a) * interval;
      MulAbsAtLeast(b - a, interval);
    }
  }

  /** When the sleeping loop's timer fires. `Math.ceil(now / interval) *
      interval` is NaN or at most `now` for an interval that is not
      positive, and `setTimeout` then fires at once. */
  function WakeTime(now: int, interval: int): int {
    if interval > 0 then NextWake(now, interval) else now
  }

  predicate IsPending(l: OracleLoop) {
    l.phase.Task? || l.phase.Grace?
  }

  /** Loops that ran `fn()` after a sleep and have not yet counted it. */
  function Pending(ls: seq<OracleLoop>): nat
  {
    if ls == [] then 0
    else Pending(ls[..|ls| - 1]) + (if IsPending(ls[|ls| - 1]) then 1 else 0)
  }

  lemma {:induction false} PendingUpdate(ls: seq<OracleLoop>, k: nat, l: OracleLoop)
    requires k < |ls|
    ensures Pending(ls[k := l]) + (if IsPending(ls[k]) then 1 else 0)
      == Pending(ls) + (if IsPending(l) then 1 else 0)
  {
    var n := |ls| - 1;
    if k < n {
      PendingUpdate(ls[..n], k, l);
      assert ls[k := l][..n] == ls[..n][k := l];
    } else {
      assert ls[k := l][..n] == ls[..n];
    }
  }

  lemma {:induction false} PendingAppend(ls: seq<OracleLoop>, l: OracleLoop)
    ensures Pending(ls + [l]) == Pending(ls) + (if IsPending(l) then 1 else 0)
  {
    assert (ls + [l])[..|ls|] == ls;
  }

  function SleepingResolvers(ls: seq<OracleLoop>): set<nat>
  {
    set k | 0 <= k < |ls| && ls[k].phase.Sleeping? :: ls[k].phase.resolver
  }

  predicate DistinctResolvers(ls: seq<OracleLoop>) {
    forall i, j :: 0 <= i < j < |ls| && ls[i].phase.Sleeping? && ls[j].phase.Sleeping? ==>
      ls[i].phase.resolver != ls[j].phase.resolver
  }

  /** What `updateTwap` stores for one `getAverages` outcome: the average
      tick converted by the pool's `toPrice` (`tickToPrice` and
      `toSignificant(6)`), or nothing when `getAverages` threw. */
  function Reading(averages: Result<Uniswap.Averages, Uniswap.OracleError>, toPrice: int -> real): Option<real>
  {
    if averages.Ok? then Some(toPrice(averages.value.averageTick)) else None
  }

  /** A pool's reading exists exactly when `getAverages` succeeds, and it is
      the price of the truncated average tick over the configured window. */
  lemma ReadingOfPool(timeInterval: int, reply: Option<Uniswap.ObserveReply>, poolReadOk: bool, toPrice: int -> real)
    ensures var r := Reading(Uniswap.GetAverages(timeInterval, reply, poolReadOk), toPrice);
      && (r.Some? <==> Uniswap.GetAverages(timeInterval, reply, poolReadOk).Ok?)
      && (r.Some? ==>
            var t := reply.value.tickCumulatives;
            r.value == toPrice(Uniswap.TruncDiv(t[0] - t[1], timeInterval)))
  {
    Uniswap.GetAveragesSpec(timeInterval, reply, poolReadOk);
  }

  /** The loops `start` pushes for the symbols `ks`, in order, each about to
      run its first `fn()`. */
  function InitialLoops(ks: seq<string>, table: map<string, OracleWithInterval>): (ls: seq<OracleLoop>)
    requires forall s :: s in ks ==> s in table
    ensures |ls| == |ks|
    ensures forall i :: 0 <= i < |ks| ==> ls[i] == OracleLoop(ks[i], table[ks[i]].getInterval, InitialTask)
  {
    if ks == [] then []
    else InitialLoops(ks[..|ks| - 1], table) + [OracleLoop(ks[|ks| - 1], table[ks[|ks| - 1]].getInterval, InitialTask)]
  }

  /** A loop that is not sleeping adds no resolver when it is appended. */
  lemma AppendAwake(ls: seq<OracleLoop>, l: OracleLoop, bound: nat)
    requires !l.phase.Sleeping? && !IsPending(l)
    requires DistinctResolvers(ls)
    requires forall k :: 0 <= k < |ls| && ls[k].phase.Sleeping? ==> ls[k].phase.resolver < bound
    ensures Pending(ls + [l]) == Pending(ls)
    ensures SleepingResolvers(ls + [l]) == SleepingResolvers(ls)
    ensures DistinctResolvers(ls + [l])
    ensures forall k :: 0 <= k < |ls + [l]| && (ls + [l])[k].phase.Sleeping? ==> (ls + [l])[k].phase.resolver < bound
  {
    PendingAppend(ls, l);
    assert forall k :: 0 <= k < |ls| ==> (ls + [l])[k] == ls[k];
  }

  /** The bookkeeping the running loops keep: the registered resolvers are
      those of the sleeping loops, distinct and already handed out; every
      completed run after a sleep is counted or still pending; and a loop
      only leaves once `stopped` is set. */
  ghost predicate LoopsValid(ls: seq<OracleLoop>, resolves: set<nat>, nextResolver: nat, count: nat,
                             runsAfterSleep: nat, stopped: bool)
  {
    && resolves == SleepingResolvers(ls)
    && (forall k :: 0 <= k < |ls| && ls[k].phase.Sleeping? ==> ls[k].phase.resolver < nextResolver)
    && DistinctResolvers(ls)
    && count + Pending(ls) == runsAfterSleep
    && (forall k :: 0 <= k < |ls| && ls[k].phase.Exited? ==> stopped)
  }

  /** Appending the loops `start` creates registers no resolver and keeps
      the bookkeeping. */
  lemma {:induction false} AppendInitialLoops(ls: seq<OracleLoop>, ks: seq<string>, table: map<string, OracleWithInterval>,
                                              resolves: set<nat>, bound: nat, count: nat, runs: nat, stopped: bool)
    requires forall s :: s in ks ==> s in table
    requires LoopsValid(ls, resolves, bound, count, runs, stopped)
    ensures LoopsValid(ls + InitialLoops(ks, table), resolves, bound, count, runs, stopped)
  {
    if ks != [] {
      var ks' := ks[..|ks| - 1];
      AppendInitialLoops(ls, ks', table, resolves, bound, count, runs, stopped);
      var l := OracleLoop(ks[|ks| - 1], table[ks[|ks| - 1]].getInterval, InitialTask);
      AppendAwake(ls + InitialLoops(ks', table), l, bound);
      assert ls + InitialLoops(ks, table) == ls + InitialLoops(ks', table) + [l];
    } else {
      assert ls + InitialLoops(ks, table) == ls;
    }
  }

  /** Changing one loop's phase changes the registered resolvers by that
      loop's old and new resolver only. */
  lemma SleepingResolversUpdate(ls: seq<OracleLoop>, k: nat, l: OracleLoop)
    requires k < |ls| && DistinctResolvers(ls)
    ensures SleepingResolvers(ls[k := l])
      == (SleepingResolvers(ls) - (if ls[k].phase.Sleeping? then {ls[k].phase.resolver} else {}))
         + (if l.phase.Sleeping? then {l.phase.resolver} else {})
  {
    var ls' := ls[k := l];
    forall r | r in SleepingResolvers(ls')
      ensures r in (SleepingResolvers(ls) - (if ls[k].phase.Sleeping? then {ls[k].phase.resolver} else {}))
         + (if l.phase.Sleeping? then {l.phase.resolver} else {})
    {
      var j :| 0 <= j < |ls'| && ls'[j].phase.Sleeping? && ls'[j].phase.resolver == r;
      if j != k {
        assert ls[j] == ls'[j];
      }
    }
    forall r | r in SleepingResolvers(ls) && !(ls[k].phase.Sleeping? && r == ls[k].phase.resolver)
      ensures r in SleepingResolvers(ls')
    {
      var j :| 0 <= j < |ls| && ls[j].phase.Sleeping? && ls[j].phase.resolver == r;
      assert j != k;
      assert ls'[j] == ls[j];
    }
    if l.phase.Sleeping? {
      assert ls'[k] == l;
    }
  }

  class ContractsProvider {
    var prices: map<string, real>
    var symbolToOracle: OrderedMap<string, OracleWithInterval>
    var symbolToConvertProvider: OrderedMap<string, ConvertLink>
    var loops: seq<OracleLoop>
    var resolves: set<nat>
    /** Resolvers `stop` has called. */
    var resolved: set<nat>
    var nextResolver: nat
    var stopped: bool
    var count: nat
    /** How many times a loop has started `fn()` after a sleep. */
    ghost var runsAfterSleep: nat

    ghost predicate Valid()
      reads this
    {
      && symbolToOracle.Valid()
      && symbolToConvertProvider.Valid()
      && LoopsValid(loops, resolves, nextResolver, count, runsAfterSleep, stopped)
    }

    /** Fills the oracle and conversion tables coin by coin; a later coin
        with the same symbol replaces the earlier one's entries. */
    constructor (coins: seq<Coin>)
      ensures Valid()
      ensures symbolToOracle == FromEntries(OracleEntries(coins))
      ensures symbolToConvertProvider == FromEntries(ConvertEntries(coins))
      ensures prices == map[] && loops == [] && resolves == {} && resolved == {}
      ensures !stopped && count == 0
    {
      prices := map[];
      loops := [];
      resolves := {};
      resolved := {};
      nextResolver := 0;
      stopped := false;
      count := 0;
      runsAfterSleep := 0;
      var oracles := EmptyMap();
      var links := EmptyMap();
      var i := 0;
      while i < |coins|
        invariant 0 <= i <= |coins|
        invariant oracles == FromEntries(OracleEntries(coins)[..i])
        invariant links == FromEntries(ConvertEntries(coins)[..i])
      {
        var c := coins[i];
        oracles := oracles.Set(c.pythSymbol, OracleWithInterval(c.networkId, c.oracle, c.getInterval));
        links := links.Set(c.pythSymbol, ConvertLink(c.convertProvider, c.convertSymbol));
        FromEntriesPrefix(OracleEntries(coins), i);
        FromEntriesPrefix(ConvertEntries(coins), i);
        i := i + 1;
      }
      assert OracleEntries(coins)[..i] == OracleEntries(coins);
      assert ConvertEntries(coins)[..i] == ConvertEntries(coins);
      FromEntriesKeys(OracleEntries(coins));
      FromEntriesKeys(ConvertEntries(coins));
      symbolToOracle := oracles;
      symbolToConvertProvider := links;
    }

    /** `latestPrice`: the last reading stored for `symbol`, if any. */
    function LatestPrice(symbol: string): Option<real>
      reads this
    {
      Lookup(prices, symbol)
    }

    /** `covertProvider`: the configured conversion of `symbol`, if any. */
    function CovertProvider(symbol: string): (r: Option<ConvertLink>)
      reads this
      ensures r.Some? <==> symbol in symbolToConvertProvider.values
      ensures r.Some? ==> r.value == symbolToConvertProvider.values[symbol]
    {
      symbolToConvertProvider.Get(symbol)
    }

    /** `updateTwap`: `averages` is the outcome of the retried
        `getAverages` of the symbol's pool and `toPrice` the pool's
        tick-to-price conversion. Only a successful reading is stored, and
        only under `symbol`. */
    method UpdateTwap(symbol: string, averages: Result<Uniswap.Averages, Uniswap.OracleError>, toPrice: int -> real)
      modifies this`prices
      ensures LatestPrice(symbol) == if averages.Ok? then Reading(averages, toPrice) else old(LatestPrice(symbol))
      ensures forall s :: s != symbol ==> LatestPrice(s) == old(LatestPrice(s))
      ensures prices == if averages.Ok? then old(prices)[symbol := toPrice(averages.value.averageTick)] else old(prices)
    {
      if averages.Ok? {
        prices := prices[symbol := toPrice(averages.value.averageTick)];
      }
    }

    /** `init`: one `updateTwap` per configured symbol, all at once;
        `averages(s)` is the outcome for symbol `s` and `toPrice(s, tick)`
        its pool's conversion. Each success is stored; `ok` tells whether
        all of them succeeded. */
    method Init(averages: string -> Result<Uniswap.Averages, Uniswap.OracleError>, toPrice: (string, int) -> real)
      returns (ok: bool)
      requires Valid()
      modifies this`prices
      ensures ok <==> forall s :: s in symbolToOracle.keys ==> averages(s).Ok?
      ensures forall s ::
                LatestPrice(s) == if s in symbolToOracle.keys && averages(s).Ok?
                                  then Some(toPrice(s, averages(s).value.averageTick))
                                  else old(LatestPrice(s))
    {
      var keys := symbolToOracle.keys;
      ok := true;
      var i := 0;
      while i < |keys|
        invariant 0 <= i <= |keys|
        invariant ok <==> forall j :: 0 <= j < i ==> averages(keys[j]).Ok?
        invariant forall s ::
                    LatestPrice(s) == if s in keys[..i] && averages(s).Ok?
                                      then Some(toPrice(s, averages(s).value.averageTick))
                                      else old(LatestPrice(s))
      {
        var s := keys[i];
        UpdateTwap(s, averages(s), t => toPrice(s, t));
        if averages(s).Err? {
          ok := false;
        }
        assert keys[..i + 1] == keys[..i] + [s];
        i := i + 1;
      }
      assert keys[..i] == keys;
      assert ok <==> forall s :: s in keys ==> averages(s).Ok? by {
        if ok {
          forall s | s in keys ensures averages(s).Ok? {
            var j := IndexOf(keys, s);
          }
        }
      }
    }

    /** `start`: one loop per configured symbol, in table order, each
        starting with its first `fn()`. */
    method Start()
      requires Valid()
      modifies this`loops
      ensures Valid()
      ensures loops == old(loops) + InitialLoops(symbolToOracle.keys, symbolToOracle.values)
    {
      var keys, table := symbolToOracle.keys, symbolToOracle.values;
      var ls := loops;
      var i := 0;
      while i < |keys|
        invariant 0 <= i <= |keys|
        invariant ls == old(loops) + InitialLoops(keys[..i], table)
      {
        assert keys[i] in table;
        assert keys[..i + 1][..i] == keys[..i];
        ls := ls + [OracleLoop(keys[i], table[keys[i]].getInterval, InitialTask)];
        i := i + 1;
      }
      assert keys[..i] == keys;
      AppendInitialLoops(loops, keys, table, resolves, nextResolver, count, runsAfterSleep, stopped);
      loops := ls;
    }

    /** The `while (!this.stopped)` test: leave, or sleep until the next
        multiple of the interval with a fresh resolver registered. */
    method Check(k: nat, now: int)
      requires Valid() && k < |loops| && loops[k].phase.WhileTest?
      modifies this`loops, this`resolves, this`nextResolver
      ensures Valid()
      ensures |loops| == |old(loops)| && loops[..k] == old(loops[..k]) && loops[k + 1..] == old(loops[k + 1..])
      ensures loops[k].symbol == old(loops[k].symbol) && loops[k].interval == old(loops[k].interval)
      ensures stopped ==> loops[k].phase == Exited && resolves == old(resolves)
      ensures !stopped ==>
        && loops[k].phase == Sleeping(old(nextResolver), WakeTime(now, loops[k].interval))
        && resolves == old(resolves) + {old(nextResolver)}
        && nextResolver == old(nextResolver) + 1
      ensures stopped ==> nextResolver == old(nextResolver)
    {
      var l := loops[k];
      var next := if stopped then Exited else Sleeping(nextResolver, WakeTime(now, l.interval));
      PendingUpdate(loops, k, l.(phase := next));
      SleepingResolversUpdate(loops, k, l.(phase := next));
      loops := loops[k := l.(phase := next)];
      if !stopped {
        resolves := resolves + {nextResolver};
        nextResolver := nextResolver + 1;
      }
    }

    /** A loop's `fn()` returns. After the first one the loop goes straight
        to the `while` test; after any later one it starts the one-second
        pause. `fn()` is `updateTwap`; its failures are caught. */
    method FinishTask(k: nat, averages: Result<Uniswap.Averages, Uniswap.OracleError>, toPrice: int -> real)
      requires Valid() && k < |loops| && (loops[k].phase.InitialTask? || loops[k].phase.Task?)
      modifies this`prices, this`loops
      ensures Valid()
      ensures prices == if averages.Ok? then old(prices)[old(loops[k].symbol) := toPrice(averages.value.averageTick)]
                        else old(prices)
      ensures |loops| == |old(loops)| && forall j :: 0 <= j < |loops| && j != k ==> loops[j] == old(loops[j])
      ensures loops[k] == old(loops[k]).(phase := if old(loops[k].phase.Task?) then Grace else WhileTest)
    {
      UpdateTwap(loops[k].symbol, averages, toPrice);
      var l := loops[k].(phase := if loops[k].phase.Task? then Grace else WhileTest);
      PendingUpdate(loops, k, l);
      SleepingResolversUpdate(loops, k, l);
      loops := loops[k := l];
    }

    /** The interval sleep of loop `k` ends, by its timer or by `stop`. The
        resolver is dropped; a stopped provider ends the loop without
        another `fn()`. */
    method Wake(k: nat)
      requires Valid() && k < |loops| && loops[k].phase.Sleeping?
      modifies this`loops, this`resolves, this`runsAfterSleep
      ensures Valid()
      ensures resolves == old(resolves) - {old(loops[k].phase.resolver)}
      ensures |loops| == |old(loops)| && forall j :: 0 <= j < |loops| && j != k ==> loops[j] == old(loops[j])
      ensures loops[k] == old(loops[k]).(phase := if stopped then Exited else Task)
      ensures runsAfterSleep == old(runsAfterSleep) + (if stopped then 0 else 1)
    {
      var l := loops[k];
      var next := if stopped then Exited else Task;
      PendingUpdate(loops, k, l.(phase := next));
      SleepingResolversUpdate(loops, k, l.(phase := next));
      loops := loops[k := l.(phase := next)];
      resolves := resolves - {l.phase.resolver};
      if !stopped {
        runsAfterSleep := runsAfterSleep + 1;
      }
    }

    /** The pause after a post-sleep `fn()` ends: `count++`, then the
        `while` test. */
    method FinishGrace(k: nat)
      requires Valid() && k < |loops| && loops[k].phase.Grace?
      modifies this`loops, this`count
      ensures Valid()
      ensures count == old(count) + 1
      ensures |loops| == |old(loops)| && forall j :: 0 <= j < |loops| && j != k ==> loops[j] == old(loops[j])
      ensures loops[k] == old(loops[k]).(phase := WhileTest)
    {
      var l := loops[k].(phase := WhileTest);
      PendingUpdate(loops, k, l);
      SleepingResolversUpdate(loops, k, l);
      loops := loops[k := l];
      count := count + 1;
    }

    /** `stop`: raise the flag and call every registered resolver, so that
        every sleeping loop may wake now. */
    method Stop()
      requires Valid()
      modifies this`stopped, this`resolved
      ensures Valid() && stopped
      ensures resolved == old(resolved) + resolves
      ensures forall k :: 0 <= k < |loops| && loops[k].phase.Sleeping? ==> loops[k].phase.resolver in resolved
    {
      stopped := true;
      resolved := resolved + resolves;
    }

    /** What `await Promise.all(this.orcaleLoopList)` waits for. */
    predicate AllExited()
      reads this
    {
      forall k :: 0 <= k < |loops| ==> loops[k].phase.Exited?
    }
  }
}
