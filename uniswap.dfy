/** Time-weighted average tick and liquidity of a Uniswap v3 pool, computed
    from two cumulative oracle observations as in section 5 (Oracle) of the
    Uniswap v3 Core whitepaper. The numbers are JavaScript BigInts, modelled
    as unbounded integers with BigInt's division written out. */
module Uniswap {
  import opened Common

  /** 2^128: `x << 128` on a BigInt multiplies by this. */
  const Q128: int := 0x1_0000_0000_0000_0000_0000_0000_0000_0000

  datatype Observation = Observation(
    secondsAgo: int,
    tickCumulative: int,
    secondsPerLiquidityCumulativeX128: int)

  /** Raw reply of the pool's `observe`: the tick cumulatives and the
      seconds-per-liquidity cumulatives, one per requested offset. */
  datatype ObserveReply = ObserveReply(tickCumulatives: seq<int>, secondsPerLiquidityCumulatives: seq<int>)

  datatype Averages = Averages(averageTick: int, twal: int)

  datatype OracleError =
    | ObserveFailed           // the retried `observe` call gave up
    | MalformedObserveReply   // fewer than two readings: `BigInt(undefined)` throws
    | PoolReadFailed          // the retried `slot0` or `liquidity` read gave up
    | DivisionByZero          // a BigInt division by zero throws a RangeError

  /** BigInt division `a / b`: the quotient rounded toward zero. */
  function TruncDiv(a: int, b: int): int
    requires b != 0
  {
    var q := Abs(a) / Abs(b);
    if (a < 0) == (b < 0) then q else -q
  }

  /** The remainder of BigInt division is smaller than the divisor and has
      the sign of the dividend; this determines the quotient uniquely. */
  lemma TruncDivSpec(a: int, b: int)
    requires b != 0
    ensures Abs(a - TruncDiv(a, b) * b) < Abs(b)
    ensures a >= 0 ==> a - TruncDiv(a, b) * b >= 0
    ensures a <= 0 ==> a - TruncDiv(a, b) * b <= 0
  {
    var q := Abs(a) / Abs(b);
    var r := Abs(a) % Abs(b);
    assert Abs(a) == q * Abs(b) + r;
    if b < 0 {
      assert q * Abs(b) == -(q * b);
    }
    if a < 0 && b < 0 {
      assert a - q * b == -r;
    } else if a < 0 {
      assert a - (-q) * b == -r;
    } else if b < 0 {
      assert a - (-q) * b == r;
    } else {
      assert a - q * b == r;
    }
  }

  /** Any quotient with such a remainder is the BigInt quotient. */
  lemma TruncDivUnique(a: int, b: int, q: int)
    requires b != 0
    requires Abs(a - q * b) < Abs(b)
    requires a >= 0 ==> a - q * b >= 0
    requires a <= 0 ==> a - q * b <= 0
    ensures q == TruncDiv(a, b)
  {
    var t := TruncDiv(a, b);
    TruncDivSpec(a, b);
    var r1, r2, m := a - t * b, a - q * b, Abs(b) as int;
    if a >= 0 {
      assert 0 <= r1 < m && 0 <= r2 < m;
    } else {
      assert -m < r1 <= 0 && -m < r2 <= 0;
    }
    assert Abs(r1 - r2) < m;
    if q != t {
      assert (q - t) * b == q * b - t * b;
      assert r1 - r2 == (q - t) * b;
      MulAbsAtLeast(q - t, b);
    }
  }

  /** Negating the dividend negates the quotient, which floor division does
      not do. */
  lemma TruncDivOdd(a: int, b: int)
    requires b != 0
    ensures TruncDiv(-a, b) == -TruncDiv(a, b)
  {
    assert Abs(-a) == Abs(a);
    if a == 0 {
      assert Abs(a) / Abs(b) == 0;
    }
  }

  /** `observe(secondsAgo)`: ask for offsets [0, secondsAgo] and pair each
      offset with the readings at the same position. */
  function Observe(secondsAgo: int, reply: Option<ObserveReply>): (r: Result<seq<Observation>, OracleError>)
    ensures r.Ok? <==>
      && reply.Some?
      && |reply.value.tickCumulatives| >= 2
      && |reply.value.secondsPerLiquidityCumulatives| >= 2
    ensures r.Ok? ==>
      && |r.value| == 2
      && r.value[0].secondsAgo == 0
      && r.value[1].secondsAgo == secondsAgo
      && (forall i :: 0 <= i < 2 ==>
            && r.value[i].tickCumulative == reply.value.tickCumulatives[i]
            && r.value[i].secondsPerLiquidityCumulativeX128 == reply.value.secondsPerLiquidityCumulatives[i])
  {
    match reply
    case None => Err(ObserveFailed)
    case Some(ObserveReply(ticks, spls)) =>
      var timestamps := [0, secondsAgo];
      if |ticks| < |timestamps| || |spls| < |timestamps| then Err(MalformedObserveReply)
      else Ok(seq(|timestamps|, i requires 0 <= i < |timestamps| =>
                Observation(timestamps[i], ticks[i], spls[i])))
  }

  function TickDiff(obs: seq<Observation>): int
    requires |obs| >= 2
  {
    obs[0].tickCumulative - obs[1].tickCumulative
  }

  function SecondsBetween(obs: seq<Observation>): int
    requires |obs| >= 2
  {
    obs[1].secondsAgo - obs[0].secondsAgo
  }

  function SecondsPerLiquidityDiff(obs: seq<Observation>): int
    requires |obs| >= 2
  {
    obs[0].secondsPerLiquidityCumulativeX128 - obs[1].secondsPerLiquidityCumulativeX128
  }

  /** The average tick of `calculateTWAP`, before the foreign tick-to-price
      conversion. */
  function AverageTick(obs: seq<Observation>): int
    requires |obs| >= 2 && SecondsBetween(obs) != 0
  {
    TruncDiv(TickDiff(obs), SecondsBetween(obs))
  }

  /** `calculateTWAL`: seconds elapsed, shifted into Q128 fixed point, over
      the growth of seconds per unit of liquidity. */
  function Twal(obs: seq<Observation>): int
    requires |obs| >= 2 && SecondsPerLiquidityDiff(obs) != 0
  {
    TruncDiv(SecondsBetween(obs) * Q128, SecondsPerLiquidityDiff(obs))
  }

  /** The average tick times the window length falls short of the tick
      growth by less than one window, toward zero. */
  lemma AverageTickBounds(obs: seq<Observation>)
    requires |obs| >= 2 && SecondsBetween(obs) != 0
    ensures Abs(TickDiff(obs) - AverageTick(obs) * SecondsBetween(obs)) < Abs(SecondsBetween(obs))
    ensures TickDiff(obs) >= 0 ==> AverageTick(obs) * SecondsBetween(obs) <= TickDiff(obs)
    ensures TickDiff(obs) <= 0 ==> AverageTick(obs) * SecondsBetween(obs) >= TickDiff(obs)
  {
    TruncDivSpec(TickDiff(obs), SecondsBetween(obs));
  }

  /** `getAverages`: observe over the configured window, read the pool state,
      then derive the average tick and the average liquidity from the SAME
      two observations. */
  function GetAverages(timeInterval: int, reply: Option<ObserveReply>, poolReadOk: bool): Result<Averages, OracleError>
  {
    match Observe(timeInterval, reply)
    case Err(e) => Err(e)
    case Ok(obs) =>
      if !poolReadOk then Err(PoolReadFailed)
      else if SecondsBetween(obs) == 0 then Err(DivisionByZero)
      else if SecondsPerLiquidityDiff(obs) == 0 then Err(DivisionByZero)
      else Ok(Averages(AverageTick(obs), Twal(obs)))
  }

  /** `getAverages` succeeds exactly when both readings arrive, the pool
      reads succeed and neither divisor is zero; the window is then exactly
      `timeInterval` seconds and both averages come from readings 0 and 1. */
  lemma GetAveragesSpec(timeInterval: int, reply: Option<ObserveReply>, poolReadOk: bool)
    ensures GetAverages(timeInterval, reply, poolReadOk).Ok? <==>
      && reply.Some?
      && |reply.value.tickCumulatives| >= 2
      && |reply.value.secondsPerLiquidityCumulatives| >= 2
      && poolReadOk
      && timeInterval != 0
      && reply.value.secondsPerLiquidityCumulatives[0] != reply.value.secondsPerLiquidityCumulatives[1]
    ensures GetAverages(timeInterval, reply, poolReadOk).Ok? ==>
      var t := reply.value.tickCumulatives;
      var s := reply.value.secondsPerLiquidityCumulatives;
      GetAverages(timeInterval, reply, poolReadOk).value
        == Averages(TruncDiv(t[0] - t[1], timeInterval), TruncDiv(timeInterval * Q128, s[0] - s[1]))
  {
    match Observe(timeInterval, reply)
    case Err(e) =>
    case Ok(obs) =>
      assert SecondsBetween(obs) == timeInterval;
  }

  /** A tick growth of 60 over 300 seconds
      averages to tick 0, and so does -60, where floor division gives -1. */
  lemma TruncationExamples()
    ensures TruncDiv(100 - 40, 300) == 0
    ensures TruncDiv(-60, 300) == 0 && -60 / 300 == -1
    ensures TruncDiv(-600, 300) == -2 && TruncDiv(-601, 300) == -2
  {
  }
}
