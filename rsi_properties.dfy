/**
 * What a stream of `addPrice` calls computes, stated against independent
 * reference definitions: the accepted prices, the moves between consecutive
 * ones, and Wilder's smoothed averages of those moves.
 */
module RsiProperties {
  import opened Wrappers
  import opened RsiModel

  // ---------------------------------------------------------------------------
  // Reference definitions
  // ---------------------------------------------------------------------------

  /** The prices among `ticks` that `addPrice` accepts, in order. */
  function AcceptedPrices(ticks: seq<Tick>): (ps: seq<real>)
    ensures |ps| <= |ticks|
  {
    if ticks == [] then []
    else
      var t := ticks[|ticks| - 1];
      AcceptedPrices(ticks[..|ticks| - 1]) + (if Accepts(t.price) then [t.price.x] else [])
  }

  /** The entries `addPrice` pushes on `priceHistory` for `ticks`, in order. */
  function AcceptedPoints(ticks: seq<Tick>): seq<PricePoint> {
    if ticks == [] then []
    else
      var t := ticks[|ticks| - 1];
      AcceptedPoints(ticks[..|ticks| - 1])
        + (if Accepts(t.price) then [PricePoint(t.price.x, ResolveTime(t.timestamp, t.now))] else [])
  }

  /** The moves between consecutive prices: one fewer than there are prices. */
  function Moves(ps: seq<real>): (ms: seq<Move>)
    ensures |ms| == if ps == [] then 0 else |ps| - 1
  {
    if |ps| < 2 then [] else Moves(ps[..|ps| - 1]) + [Delta(ps[|ps| - 2], ps[|ps| - 1])]
  }

  /** The gains of the moves, in order. */
  function Gains(ms: seq<Move>): (gs: seq<real>)
    ensures |gs| == |ms|
  {
    if ms == [] then [] else Gains(ms[..|ms| - 1]) + [ms[|ms| - 1].gain]
  }

  /** The losses of the moves, in order. */
  function Losses(ms: seq<Move>): (ls: seq<real>)
    ensures |ls| == |ms|
  {
    if ms == [] then [] else Losses(ms[..|ms| - 1]) + [ms[|ms| - 1].loss]
  }

  /**
   * Wilder's average of the observations `xs`: the plain mean of the first
   * `period`, then smoothed by each later one. Never negative when the
   * observations are not.
   */
  function Smoothed(period: int, xs: seq<real>): (r: real)
    requires period >= 1 && |xs| >= period
    ensures NonNegative(xs) ==> r >= 0.0
    decreases |xs|
  {
    if |xs| == period then
      var r := Sum(xs) / period as real;
      assert NonNegative(xs) ==> r >= 0.0 by {
        if NonNegative(xs) { MeanNonNegative(xs, period); }
      }
      r
    else
      Wilder(Smoothed(period, xs[..|xs| - 1]), xs[|xs| - 1], period)
  }

  /**
   * The RSI Wilder's method gives for the prices `ps`: none until `period`
   * moves exist, then the RSI of the smoothed gains and losses of all of them.
   */
  function WilderRsi(period: int, ps: seq<real>): (r: Option<real>)
    ensures r.Some? ==> 0.0 <= r.value <= 100.0
  {
    var ms := Moves(ps);
    if period >= 1 && |ms| >= period then
      MovesNonNegative(ps);
      Some(Rsi(Smoothed(period, Gains(ms)), Smoothed(period, Losses(ms))))
    else None
  }

  /** How many of `n` moves the warm-up buffers hold: all of them until there are `period`. */
  function Buffered(period: int, n: nat): nat {
    if period >= 1 && n > period then period else n
  }

  /** `s` is the state of a fresh calculator after it has accepted the prices `ps`. */
  ghost predicate Describes(period: int, s: Snapshot, ps: seq<real>) {
    var ms := Moves(ps);
    var k := Buffered(period, |ms|);
    && s.previousClose == (if ps == [] then None else Some(ps[|ps| - 1]))
    && (s.isInitialized <==> period >= 1 && |ms| >= period)
    && s.initialGains == Gains(ms[..k])
    && s.initialLosses == Losses(ms[..k])
    && (s.isInitialized ==>
          s.avgGain == Some(Smoothed(period, Gains(ms))) && s.avgLoss == Some(Smoothed(period, Losses(ms))))
  }

  // ---------------------------------------------------------------------------
  // Sequence facts
  // ---------------------------------------------------------------------------

  /** No gain and no loss is negative. */
  lemma {:induction false} MovesNonNegative(ps: seq<real>)
    ensures NonNegative(Gains(Moves(ps))) && NonNegative(Losses(Moves(ps)))
    decreases |ps|
  {
    if |ps| >= 2 {
      var pre := ps[..|ps| - 1];
      MovesNonNegative(pre);
      GainsLossesAppend(Moves(pre), Delta(ps[|ps| - 2], ps[|ps| - 1]));
    }
  }

  lemma MovesAppend(ps: seq<real>, x: real)
    requires ps != []
    ensures Moves(ps + [x]) == Moves(ps) + [Delta(ps[|ps| - 1], x)]
  {
    var qs := ps + [x];
    assert qs[..|qs| - 1] == ps;
  }

  lemma AcceptedPricesStep(ticks: seq<Tick>, i: nat)
    requires i < |ticks|
    ensures AcceptedPrices(ticks[..i + 1])
            == AcceptedPrices(ticks[..i]) + (if Accepts(ticks[i].price) then [ticks[i].price.x] else [])
  {
    assert ticks[..i + 1][..i] == ticks[..i];
  }

  lemma TakeAll<T>(xs: seq<T>)
    ensures xs[..|xs|] == xs
  {
  }

  lemma TakeAppend<T>(xs: seq<T>, y: T, n: nat)
    requires n <= |xs|
    ensures (xs + [y])[..n] == xs[..n]
  {
  }

  lemma GainsLossesAppend(ms: seq<Move>, m: Move)
    ensures Gains(ms + [m]) == Gains(ms) + [m.gain]
    ensures Losses(ms + [m]) == Losses(ms) + [m.loss]
  {
    assert (ms + [m])[..|ms|] == ms;
  }

  /** Keeping the newest `n` entries after each push is keeping the newest `n` overall. */
  lemma {:induction false} LastAppend<T>(xs: seq<T>, x: T, n: nat)
    ensures Last(Last(xs, n) + [x], n) == Last(xs + [x], n)
  {
    if |xs| > n {
      assert Last(xs, n) + [x] == (xs + [x])[|xs| - n..];
    }
  }

  // ---------------------------------------------------------------------------
  // The state after a stream of calls
  // ---------------------------------------------------------------------------

  /**
   * After any stream of calls on a fresh calculator, the previous close is
   * the last accepted price, the calculator is initialized exactly once
   * `period` moves exist, the warm-up buffers hold the first moves, and the
   * averages are Wilder's averages of all the moves.
   */
  lemma {:induction false} RunDescribed(period: int, ticks: seq<Tick>)
    ensures Describes(period, Run(period, Initial(), ticks), AcceptedPrices(ticks))
    decreases |ticks|
  {
    if ticks != [] {
      var pre := ticks[..|ticks| - 1];
      RunDescribed(period, pre);
      StepDescribed(period, Run(period, Initial(), pre), AcceptedPrices(pre), ticks[|ticks| - 1]);
    }
  }

  /** After any stream of calls on a fresh calculator, the price history holds the newest 200 accepted prices. */
  lemma {:induction false} RunHistory(period: int, ticks: seq<Tick>)
    ensures Run(period, Initial(), ticks).priceHistory == Last(AcceptedPoints(ticks), PriceHistoryCap)
    decreases |ticks|
  {
    if ticks != [] {
      var pre := ticks[..|ticks| - 1];
      RunHistory(period, pre);
      StepHistory(period, Run(period, Initial(), pre), AcceptedPoints(pre), ticks[|ticks| - 1]);
    }
  }

  /** One call keeps `Describes`, with the price appended when it is accepted. */
  lemma StepDescribed(period: int, s: Snapshot, ps: seq<real>, t: Tick)
    requires Inv(period, s) && Describes(period, s, ps)
    ensures Describes(period, AddPrice(period, s, t.price, t.timestamp, t.now).next,
                      ps + (if Accepts(t.price) then [t.price.x] else []))
  {
    if !Accepts(t.price) {
      assert ps + [] == ps;
    } else if ps == [] {
      AddPriceBehaviour(period, s, t.price, t.timestamp, t.now);
    } else {
      AcceptedStep(period, s, ps, t.price.x, t.timestamp, t.now);
    }
  }

  /** One call pushes the accepted price on the newest 200. */
  lemma StepHistory(period: int, s: Snapshot, pts: seq<PricePoint>, t: Tick)
    requires Inv(period, s) && s.priceHistory == Last(pts, PriceHistoryCap)
    ensures AddPrice(period, s, t.price, t.timestamp, t.now).next.priceHistory
            == Last(pts + (if Accepts(t.price) then [PricePoint(t.price.x, ResolveTime(t.timestamp, t.now))] else []),
                    PriceHistoryCap)
  {
    AddPriceBehaviour(period, s, t.price, t.timestamp, t.now);
    if Accepts(t.price) {
      PushBoundedKeepsNewest(s.priceHistory, PricePoint(t.price.x, ResolveTime(t.timestamp, t.now)), PriceHistoryCap);
      LastAppend(pts, PricePoint(t.price.x, ResolveTime(t.timestamp, t.now)), PriceHistoryCap);
    } else {
      assert pts + [] == pts;
    }
  }

  /** The induction step of `RunDescribed` for an accepted price after the first. */
  lemma AcceptedStep(period: int, s: Snapshot, ps: seq<real>, x: real, timestamp: Option<int>, now: int)
    requires Inv(period, s) && Describes(period, s, ps) && ps != [] && x > 0.0
    ensures Describes(period, AddPrice(period, s, Number(x), timestamp, now).next, ps + [x])
  {
    AddPriceBehaviour(period, s, Number(x), timestamp, now);
    var s' := AddPrice(period, s, Number(x), timestamp, now).next;
    if !s.isInitialized {
      WarmUpStep(period, s, s', ps, x);
    } else {
      SmoothStep(period, s, s', ps, x);
    }
  }

  /** A move during the warm-up is buffered, and the `period`-th sets the means. */
  lemma WarmUpStep(period: int, s: Snapshot, s': Snapshot, ps: seq<real>, x: real)
    requires Describes(period, s, ps) && ps != [] && !s.isInitialized
    requires var m := Delta(ps[|ps| - 1], x);
      && s'.previousClose == Some(x)
      && s'.initialGains == s.initialGains + [m.gain]
      && s'.initialLosses == s.initialLosses + [m.loss]
      && (s'.isInitialized <==> |s.initialGains| + 1 == period)
      && (s'.isInitialized ==>
            s'.avgGain == Some(Sum(s'.initialGains) / period as real)
            && s'.avgLoss == Some(Sum(s'.initialLosses) / period as real))
    ensures Describes(period, s', ps + [x])
  {
    MovesAppend(ps, x);
    GainsLossesAppend(Moves(ps), Delta(ps[|ps| - 1], x));
    TakeAll(Moves(ps));
    TakeAll(Moves(ps + [x]));
  }

  /** A move after the warm-up leaves the buffers and smooths both averages. */
  lemma SmoothStep(period: int, s: Snapshot, s': Snapshot, ps: seq<real>, x: real)
    requires Describes(period, s, ps) && ps != [] && s.isInitialized
    requires s.avgGain.Some? && s.avgLoss.Some?
    requires var m := Delta(ps[|ps| - 1], x);
      && s'.previousClose == Some(x)
      && s'.isInitialized
      && s'.initialGains == s.initialGains && s'.initialLosses == s.initialLosses
      && s'.avgGain == Some(Wilder(s.avgGain.value, m.gain, period))
      && s'.avgLoss == Some(Wilder(s.avgLoss.value, m.loss, period))
    ensures Describes(period, s', ps + [x])
  {
    var m := Delta(ps[|ps| - 1], x);
    MovesAppend(ps, x);
    GainsLossesAppend(Moves(ps), m);
    TakeAppend(Moves(ps), m, period);
    TakeAppend(Gains(Moves(ps)), m.gain, |ps| - 1);
    TakeAppend(Losses(Moves(ps)), m.loss, |ps| - 1);
  }

  // ---------------------------------------------------------------------------
  // What addPrice returns
  // ---------------------------------------------------------------------------

  /**
   * The value the call for `ticks[i]` returns, on a fresh calculator: `None`
   * unless that price is accepted and at least `period` moves exist by then;
   * otherwise the RSI of Wilder's averages of all the moves so far.
   */
  lemma ReturnedIsWilderRsi(period: int, ticks: seq<Tick>, i: nat)
    requires i < |ticks|
    ensures Returned(period, Initial(), ticks, i)
            == if Accepts(ticks[i].price) then WilderRsi(period, AcceptedPrices(ticks[..i + 1])) else None
  {
    RunDescribed(period, ticks[..i]);
    AcceptedPricesStep(ticks, i);
    StepRsi(period, Run(period, Initial(), ticks[..i]), AcceptedPrices(ticks[..i]), ticks[i]);
  }

  /** The value one call returns, from a state that `Describes` the prices before it. */
  lemma StepRsi(period: int, s: Snapshot, ps: seq<real>, t: Tick)
    requires Inv(period, s) && Describes(period, s, ps)
    ensures AddPrice(period, s, t.price, t.timestamp, t.now).rsi
            == if Accepts(t.price) then WilderRsi(period, ps + [t.price.x]) else None
  {
    StepDescribed(period, s, ps, t);
    StepReturns(period, s, t);
  }

  /** What one call returns, in terms of the state it leaves. */
  lemma StepReturns(period: int, s: Snapshot, t: Tick)
    requires Inv(period, s)
    ensures var r := AddPrice(period, s, t.price, t.timestamp, t.now);
      r.rsi == if Accepts(t.price) && s.previousClose.Some? && r.next.isInitialized
               then Some(Rsi(r.next.avgGain.value, r.next.avgLoss.value))
               else None
  {
    if Accepts(t.price) && s.previousClose.Some? {
      var p := t.price.x;
      var time := ResolveTime(t.timestamp, t.now);
      var v := RecordPrice(period, UpdateAverages(period, s, Delta(s.previousClose.value, p)), p, time);
      assert AddPrice(period, s, t.price, t.timestamp, t.now) == Emit(period, v, p, time);
    }
  }

  /** `ReturnedIsWilderRsi` once the warm-up is over, with the averages named. */
  lemma ReturnedAfterWarmUp(period: int, ticks: seq<Tick>, i: nat, g: real, l: real)
    requires i < |ticks| && Accepts(ticks[i].price) && period >= 1
    requires var ms := Moves(AcceptedPrices(ticks[..i + 1]));
      |ms| >= period && Smoothed(period, Gains(ms)) == g && Smoothed(period, Losses(ms)) == l
    ensures g >= 0.0 && l >= 0.0
    ensures Returned(period, Initial(), ticks, i) == Some(Rsi(g, l))
  {
    MovesNonNegative(AcceptedPrices(ticks[..i + 1]));
    ReturnedIsWilderRsi(period, ticks, i);
  }

  /**
   * The warm-up, counted in calls: on a fresh calculator, the call for
   * `ticks[i]` returns a value exactly when it accepts its price and that
   * price is at least the `period + 1`-th accepted one.
   */
  lemma WarmUpCount(period: int, ticks: seq<Tick>, i: nat)
    requires i < |ticks|
    ensures Returned(period, Initial(), ticks, i).Some?
            <==> Accepts(ticks[i].price) && period >= 1 && |AcceptedPrices(ticks[..i + 1])| >= period + 1
  {
    ReturnedIsWilderRsi(period, ticks, i);
  }

  /**
   * A calculator whose period is below 1 never returns a value: the source
   * does not reject such a period, and its warm-up never ends.
   */
  lemma NoRsiWithoutPositivePeriod(period: int, ticks: seq<Tick>, i: nat)
    requires period < 1 && i < |ticks|
    ensures Returned(period, Initial(), ticks, i).None?
    ensures !Run(period, Initial(), ticks).isInitialized
  {
    ReturnedIsWilderRsi(period, ticks, i);
  }

  /**
   * The moment the warm-up ends, with `period + 1` accepted prices, the
   * averages are the plain means of the first `period` gains and losses.
   */
  lemma FirstAveragesAreMeans(period: int, ticks: seq<Tick>)
    requires period >= 1 && |AcceptedPrices(ticks)| == period + 1
    ensures var s := Run(period, Initial(), ticks); var ms := Moves(AcceptedPrices(ticks));
      && s.isInitialized
      && s.avgGain == Some(Sum(Gains(ms)) / period as real)
      && s.avgLoss == Some(Sum(Losses(ms)) / period as real)
  {
    RunDescribed(period, ticks);
  }

  // ---------------------------------------------------------------------------
  // processHistoricalData
  // ---------------------------------------------------------------------------

  /** Processing the items one at a time is feeding their ticks to `addPrice` in order. */
  lemma {:induction false} RunItemsIsRun(period: int, s: Snapshot, items: seq<HistoricalItem>, k: nat, nows: seq<int>)
    requires Inv(period, s) && k <= |items| == |nows|
    requires NoNullBefore(items, k)
    ensures RunItems(period, s, items, k, nows) == Run(period, s, HistoricalTicks(items, k, nows))
  {
    if k > 0 {
      RunItemsIsRun(period, s, items, k - 1, nows);
      HistoricalStep(period, s, items, k - 1, nows);
    }
  }

  /**
   * Processing one more item is one more call of `addPrice` when the item
   * makes one, and none otherwise.
   */
  lemma HistoricalStep(period: int, s: Snapshot, items: seq<HistoricalItem>, j: nat, nows: seq<int>)
    requires Inv(period, s) && j < |items| == |nows|
    requires NoNullBefore(items, j + 1)
    ensures var before := Run(period, s, HistoricalTicks(items, j, nows));
      Run(period, s, HistoricalTicks(items, j + 1, nows))
        == match ItemTick(items[j], j, |items|, nows[j])
           case Some(t) => AddPrice(period, before, t.price, t.timestamp, t.now).next
           case None => before
  {
    var tick := ItemTick(items[j], j, |items|, nows[j]);
    if tick.Some? {
      RunAppend(period, s, HistoricalTicks(items, j, nows), tick.value);
    }
  }

  // ---------------------------------------------------------------------------
  // A worked example
  // ---------------------------------------------------------------------------

  /** The five ticks of the worked example. */
  function ExampleTicks(ts: seq<Option<int>>, now: int): seq<Tick>
    requires |ts| == 5
  {
    [Tick(Number(1.0), ts[0], now), Tick(Number(1.1), ts[1], now), Tick(Number(1.05), ts[2], now),
     Tick(Number(1.2), ts[3], now), Tick(Number(0.9), ts[4], now)]
  }

  lemma ExamplePrices(ts: seq<Option<int>>, now: int)
    requires |ts| == 5
    ensures AcceptedPrices(ExampleTicks(ts, now)) == [1.0, 1.1, 1.05, 1.2, 0.9]
  {
    var ticks := ExampleTicks(ts, now);
    assert AcceptedPrices(ticks[..1]) == [1.0];
    assert AcceptedPrices(ticks[..2]) == [1.0, 1.1] by { assert ticks[..2][..1] == ticks[..1]; }
    assert AcceptedPrices(ticks[..3]) == [1.0, 1.1, 1.05] by { assert ticks[..3][..2] == ticks[..2]; }
    assert AcceptedPrices(ticks[..4]) == [1.0, 1.1, 1.05, 1.2] by { assert ticks[..4][..3] == ticks[..3]; }
    assert ticks[..4] == ticks[..|ticks| - 1];
  }

  lemma ExampleMoves()
    ensures Moves([1.0, 1.1, 1.05, 1.2, 0.9])
            == [Move(0.1, 0.0), Move(0.0, 0.05), Move(0.15, 0.0), Move(0.0, 0.3)]
  {
    var ps := [1.0, 1.1, 1.05, 1.2, 0.9];
    var ms := [Move(0.1, 0.0), Move(0.0, 0.05), Move(0.15, 0.0), Move(0.0, 0.3)];
    assert Moves(ps[..2]) == ms[..1];
    assert Moves(ps[..3]) == ms[..2] by { assert ps[..3][..2] == ps[..2]; }
    assert Moves(ps[..4]) == ms[..3] by { assert ps[..4][..3] == ps[..3]; }
    assert ps[..4] == ps[..|ps| - 1];
  }

  lemma ExampleAverages()
    ensures var ms := [Move(0.1, 0.0), Move(0.0, 0.05), Move(0.15, 0.0), Move(0.0, 0.3)];
      Smoothed(4, Gains(ms)) == 0.0625 && Smoothed(4, Losses(ms)) == 0.0875
  {
    var ms := [Move(0.1, 0.0), Move(0.0, 0.05), Move(0.15, 0.0), Move(0.0, 0.3)];
    var gs := Gains(ms);
    var ls := Losses(ms);
    ExampleGainsLosses();
    assert Sum(gs) == 0.25 by {
      assert Sum([0.1]) == 0.1 by { assert [0.1][..0] == []; }
      assert Sum([0.1, 0.0]) == 0.1 by { assert [0.1, 0.0][..1] == [0.1]; }
      assert Sum([0.1, 0.0, 0.15]) == 0.25 by { assert [0.1, 0.0, 0.15][..2] == [0.1, 0.0]; }
      assert gs[..3] == [0.1, 0.0, 0.15];
    }
    assert Sum(ls) == 0.35 by {
      assert Sum([0.0]) == 0.0 by { assert [0.0][..0] == []; }
      assert Sum([0.0, 0.05]) == 0.05 by { assert [0.0, 0.05][..1] == [0.0]; }
      assert Sum([0.0, 0.05, 0.0]) == 0.05 by { assert [0.0, 0.05, 0.0][..2] == [0.0, 0.05]; }
      assert ls[..3] == [0.0, 0.05, 0.0];
    }
  }

  lemma ExampleGainsLosses()
    ensures var ms := [Move(0.1, 0.0), Move(0.0, 0.05), Move(0.15, 0.0), Move(0.0, 0.3)];
      Gains(ms) == [0.1, 0.0, 0.15, 0.0] && Losses(ms) == [0.0, 0.05, 0.0, 0.3]
  {
    var ms := [Move(0.1, 0.0), Move(0.0, 0.05), Move(0.15, 0.0), Move(0.0, 0.3)];
    assert ms[..1][..0] == [];
    assert Gains(ms[..1]) == [0.1] && Losses(ms[..1]) == [0.0];
    assert ms[..2][..1] == ms[..1];
    assert Gains(ms[..2]) == [0.1, 0.0] && Losses(ms[..2]) == [0.0, 0.05];
    assert ms[..3][..2] == ms[..2];
    assert Gains(ms[..3]) == [0.1, 0.0, 0.15] && Losses(ms[..3]) == [0.0, 0.05, 0.0];
    assert ms[..3] == ms[..|ms| - 1];
  }

  /**
   * With period 4 the prices 1.0, 1.1, 1.05, 1.2, 0.9 give gains 0.1, 0,
   * 0.15, 0 and losses 0, 0.05, 0, 0.3; the fifth call returns
   * 100 * 0.0625 / (0.0625 + 0.0875) = 125/3, whatever the timestamps.
   */
  lemma FivePriceExample(ts: seq<Option<int>>, now: int)
    requires |ts| == 5
    ensures Returned(4, Initial(), ExampleTicks(ts, now), 4) == Some(125.0 / 3.0)
  {
    var ticks := ExampleTicks(ts, now);
    ExampleMovesSoFar(ts, now);
    ExampleAverages();
    ReturnedAfterWarmUp(4, ticks, 4, 0.0625, 0.0875);
    ExampleRsi();
  }

  lemma ExampleRsi()
    ensures Rsi(0.0625, 0.0875) == 125.0 / 3.0
  {
    assert 100.0 * 0.0625 / (0.0625 + 0.0875) == 125.0 / 3.0;
  }

  lemma ExampleMovesSoFar(ts: seq<Option<int>>, now: int)
    requires |ts| == 5
    ensures Moves(AcceptedPrices(ExampleTicks(ts, now)[..5]))
            == [Move(0.1, 0.0), Move(0.0, 0.05), Move(0.15, 0.0), Move(0.0, 0.3)]
  {
    assert ExampleTicks(ts, now)[..5] == ExampleTicks(ts, now);
    ExamplePrices(ts, now);
    ExampleMoves();
  }
}
