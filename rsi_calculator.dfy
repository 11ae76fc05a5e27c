/**
 * The `RSICalculator` class of rsi_calculator.js. Its fields are those of the
 * source; every method that changes them is proved to leave the object in the
 * state the value model of rsi_model.dfy prescribes.
 */
module RsiCalculator {
  import opened Wrappers
  import opened RsiModel

  /** What `getConfig` returns. */
  datatype Config = Config(period: int, isInitialized: bool, dataPoints: nat, currentRsi: Option<real>)

  /** What `exportData` returns. */
  datatype Export = Export(config: Config, rsiHistory: seq<RsiPoint>, priceHistory: seq<PricePoint>)

  const DefaultPeriod: int := 14
  const DefaultOversold: real := 30.0
  const DefaultOverbought: real := 70.0

  class Calculator {
    const period: int
    var previousClose: Option<real>
    var avgGain: Option<real>
    var avgLoss: Option<real>
    var rsiHistory: seq<RsiPoint>
    var priceHistory: seq<PricePoint>
    var isInitialized: bool
    var initialGains: seq<real>
    var initialLosses: seq<real>

    /** The fields as a value. */
    function State(): Snapshot
      reads this
    {
      Snapshot(previousClose, avgGain, avgLoss, rsiHistory, priceHistory,
               isInitialized, initialGains, initialLosses)
    }

    ghost predicate Valid()
      reads this
    {
      Inv(period, State())
    }

    /** The period is taken as given; a period below 1 never completes the warm-up. */
    constructor (period: int := DefaultPeriod)
      ensures Valid()
      ensures this.period == period
      ensures State() == Initial()
    {
      this.period := period;
      previousClose := None;
      avgGain := None;
      avgLoss := None;
      rsiHistory := [];
      priceHistory := [];
      isInitialized := false;
      initialGains := [];
      initialLosses := [];
    }

    /**
     * Feeds one price. Returns the RSI once the warm-up is over, and `None`
     * for a rejected input, for the first price and during the warm-up.
     */
    method AddPrice(price: Value, timestamp: Option<int>, now: int) returns (rsi: Option<real>)
      requires Valid()
      modifies this
      ensures Valid()
      ensures StepResult(State(), rsi) == RsiModel.AddPrice(period, old(State()), price, timestamp, now)
      ensures !Accepts(price) ==> rsi.None? && State() == old(State())
      ensures rsi.Some? ==> 0.0 <= rsi.value <= 100.0 && GetCurrentRsi() == rsi
    {
      ghost var s0 := State();
      if !price.Number? || price.x <= 0.0 {
        return None;
      }
      var p := price.x;
      var t := ResolveTime(timestamp, now);
      PushPrice(PricePoint(p, t));
      if previousClose.None? {
        previousClose := Some(p);
        assert State() == RecordPrice(period, s0, p, t);
        return None;
      }
      rsi := UpdateAndEmit(p, t, s0);
    }

    /**
     * The rest of `addPrice` once a previous close exists and the price is
     * pushed on the history: the move updates the averages, the price becomes
     * the previous close, and an RSI is computed once the warm-up is over.
     */
    method UpdateAndEmit(p: real, t: int, ghost s0: Snapshot) returns (rsi: Option<real>)
      requires Inv(period, s0) && s0.previousClose.Some? && p > 0.0
      requires State() == s0.(priceHistory := PushBounded(s0.priceHistory, PricePoint(p, t), PriceHistoryCap))
      modifies this
      ensures StepResult(State(), rsi)
              == Emit(period, RecordPrice(period, UpdateAverages(period, s0, Delta(s0.previousClose.value, p)), p, t), p, t)
    {
      var change := p - previousClose.value;
      var gain := if change > 0.0 then change else 0.0;
      var loss := if change < 0.0 then -change else 0.0;
      assert Move(gain, loss) == Delta(s0.previousClose.value, p);
      UpdateAveragesInPlace(gain, loss, s0);
      previousClose := Some(p);
      ghost var v := RecordPrice(period, UpdateAverages(period, s0, Move(gain, loss)), p, t);
      assert State() == v;
      if !isInitialized {
        return None;
      }
      rsi := StoreRsi(p, t, v);
    }

    /** Computes the RSI of the averages, records it with the price and returns it. */
    method StoreRsi(p: real, t: int, ghost v: Snapshot) returns (rsi: Option<real>)
      requires Inv(period, v) && v.isInitialized && State() == v
      modifies this
      ensures StepResult(State(), rsi) == Emit(period, v, p, t)
    {
      var r: real;
      if avgLoss.value == 0.0 {
        r := 100.0;
      } else {
        var rs := avgGain.value / avgLoss.value;
        r := 100.0 - 100.0 / (1.0 + rs);
      }
      assert r == Rsi(avgGain.value, avgLoss.value);
      PushRsi(RsiPoint(p, r, t, avgGain.value, avgLoss.value));
      rsi := Some(r);
    }

    /** `priceHistory.push(point)`, then `shift()` once it holds more than 200 entries. */
    method PushPrice(point: PricePoint)
      modifies this
      ensures priceHistory == PushBounded(old(priceHistory), point, PriceHistoryCap)
      ensures State() == old(State()).(priceHistory := priceHistory)
    {
      priceHistory := priceHistory + [point];
      if |priceHistory| > PriceHistoryCap {
        priceHistory := priceHistory[1..];
      }
    }

    /** `rsiHistory.push(entry)`, then `shift()` once it holds more than 100 entries. */
    method PushRsi(entry: RsiPoint)
      modifies this
      ensures rsiHistory == PushBounded(old(rsiHistory), entry, RsiHistoryCap)
      ensures State() == old(State()).(rsiHistory := rsiHistory)
    {
      rsiHistory := rsiHistory + [entry];
      if |rsiHistory| > RsiHistoryCap {
        rsiHistory := rsiHistory[1..];
      }
    }

    /**
     * The averaging step of `addPrice` in place, on a calculator whose state
     * is `s` but for the price just recorded.
     */
    method UpdateAveragesInPlace(gain: real, loss: real, ghost s: Snapshot)
      requires Inv(period, s) && s.previousClose.Some?
      requires gain >= 0.0 && loss >= 0.0 && (gain == 0.0 || loss == 0.0)
      requires State() == s.(priceHistory := priceHistory)
      modifies this
      ensures State() == UpdateAverages(period, s, Move(gain, loss)).(priceHistory := priceHistory)
      ensures priceHistory == old(priceHistory)
    {
      if !isInitialized {
        BufferMove(gain, loss, s);
      } else {
        SmoothAverages(gain, loss, s);
      }
    }

    /** The warm-up branch: buffer the move; the `period`-th one sets the averages to the means. */
    method BufferMove(gain: real, loss: real, ghost s: Snapshot)
      requires Inv(period, s) && s.previousClose.Some? && !s.isInitialized
      requires gain >= 0.0 && loss >= 0.0 && (gain == 0.0 || loss == 0.0)
      requires State() == s.(priceHistory := priceHistory)
      modifies this
      ensures State() == Buffer(period, s, Move(gain, loss)).(priceHistory := priceHistory)
      ensures priceHistory == old(priceHistory)
    {
      initialGains := initialGains + [gain];
      initialLosses := initialLosses + [loss];
      if |initialGains| == period {
        avgGain := Some(Sum(initialGains) / period as real);
        avgLoss := Some(Sum(initialLosses) / period as real);
        isInitialized := true;
      }
    }

    /** The branch after the warm-up: Wilder's smoothing of both averages. */
    method SmoothAverages(gain: real, loss: real, ghost s: Snapshot)
      requires Inv(period, s) && s.isInitialized
      requires gain >= 0.0 && loss >= 0.0
      requires State() == s.(priceHistory := priceHistory)
      modifies this
      ensures State() == Smooth(period, s, Move(gain, loss)).(priceHistory := priceHistory)
      ensures priceHistory == old(priceHistory)
    {
      var p := period as real;
      avgGain := Some((avgGain.value * (p - 1.0) + gain) / p);
      assert avgGain.value == Wilder(s.avgGain.value, gain, period);
      avgLoss := Some((avgLoss.value * (p - 1.0) + loss) / p);
      assert avgLoss.value == Wilder(s.avgLoss.value, loss, period);
    }

    /**
     * Feeds the prices of a batch of historical items in order. Stops at the
     * first `null` item, where the source throws; `completed` says whether
     * every item was reached. `nows[i]` is the clock reading while item `i`
     * is processed.
     */
    method ProcessHistoricalData(items: seq<HistoricalItem>, nows: seq<int>) returns (completed: bool)
      requires Valid() && |nows| == |items|
      modifies this
      ensures Valid()
      ensures completed <==> forall i :: 0 <= i < |items| ==> !items[i].NullItem?
      ensures State() == RunItems(period, old(State()), items, Completed(items), nows)
    {
      ghost var s0 := State();
      var i := 0;
      while i < |items|
        invariant 0 <= i <= |items|
        invariant NoNullBefore(items, i)
        invariant State() == RunItems(period, s0, items, i, nows)
      {
        if items[i].NullItem? {
          FirstNull(items, i);
          return false;
        }
        FeedItem(items, i, nows, s0);
        i := i + 1;
      }
      FirstNull(items, i);
      completed := true;
    }

    /** The body of the `forEach`: the price of `items[i]`, if it has one, goes to `addPrice`. */
    method FeedItem(items: seq<HistoricalItem>, i: nat, nows: seq<int>, ghost s: Snapshot)
      requires i < |items| == |nows| && Inv(period, s)
      requires NoNullBefore(items, i + 1)
      requires State() == RunItems(period, s, items, i, nows)
      modifies this
      ensures State() == RunItems(period, s, items, i + 1, nows)
    {
      var tick := ItemTick(items[i], i, |items|, nows[i]);
      if tick.Some? {
        var _ := AddPrice(tick.value.price, tick.value.timestamp, nows[i]);
      }
    }

    /** `getCurrentRSI`: the RSI of the newest history entry, if there is one. */
    function GetCurrentRsi(): (r: Option<real>)
      reads this
      ensures r == CurrentRsi(State())
      ensures r.None? <==> rsiHistory == []
      ensures Valid() && r.Some? ==> 0.0 <= r.value <= 100.0
    {
      CurrentRsi(State())
    }

    /** `getConfig`: the period, the warm-up flag and the history's size and newest RSI. */
    function GetConfig(): (c: Config)
      reads this
      ensures c.period == period && c.isInitialized == isInitialized
      ensures c.dataPoints == |rsiHistory| && c.currentRsi == GetCurrentRsi()
      ensures c.currentRsi.None? <==> c.dataPoints == 0
      ensures Valid() ==> c.dataPoints <= RsiHistoryCap && (c.dataPoints > 0 ==> c.isInitialized)
    {
      Config(period, isInitialized, |rsiHistory|, GetCurrentRsi())
    }

    /** `exportData`: the configuration together with both histories. */
    function ExportData(): (e: Export)
      reads this
      ensures e.config == GetConfig()
      ensures e.rsiHistory == rsiHistory && e.priceHistory == priceHistory
      ensures e.config.dataPoints == |e.rsiHistory|
      ensures e.config.currentRsi.Some? ==> e.config.currentRsi.value == e.rsiHistory[|e.rsiHistory| - 1].rsi
    {
      Export(GetConfig(), rsiHistory, priceHistory)
    }

    /** Returns the calculator to the state its constructor gave it; the period is kept. */
    method Reset()
      modifies this
      ensures Valid()
      ensures State() == Initial()
    {
      previousClose := None;
      avgGain := None;
      avgLoss := None;
      rsiHistory := [];
      priceHistory := [];
      isInitialized := false;
      initialGains := [];
      initialLosses := [];
    }

    /**
     * `getRSIColor`: grey with no RSI, green below the oversold threshold,
     * otherwise red above the overbought threshold, otherwise yellow. Both
     * comparisons are strict and the oversold one is made first.
     */
    static function GetRsiColor(rsi: Option<real>, oversold: real := DefaultOversold,
                                overbought: real := DefaultOverbought): (color: string)
      ensures color == "#888888" <==> rsi.None?
      ensures color == "#00ff00" <==> rsi.Some? && rsi.value < oversold
      ensures color == "#ff0000" <==> rsi.Some? && !(rsi.value < oversold) && rsi.value > overbought
      ensures color == "#ffff00" <==> rsi.Some? && oversold <= rsi.value <= overbought
    {
      if rsi.None? then "#888888"
      else if rsi.value < oversold then "#00ff00"
      else if rsi.value > overbought then "#ff0000"
      else "#ffff00"
    }

    /** `getRSIStatus`: the label for the zone `getRSIColor` colours. */
    static function GetRsiStatus(rsi: Option<real>, oversold: real := DefaultOversold,
                                 overbought: real := DefaultOverbought): (status: string)
      ensures status == "Calculating..." <==> rsi.None?
      ensures status == "Oversold" <==> rsi.Some? && rsi.value < oversold
      ensures status == "Overbought" <==> rsi.Some? && !(rsi.value < oversold) && rsi.value > overbought
      ensures status == "Neutral" <==> rsi.Some? && oversold <= rsi.value <= overbought
    {
      if rsi.None? then "Calculating..."
      else if rsi.value < oversold then "Oversold"
      else if rsi.value > overbought then "Overbought"
      else "Neutral"
    }
  }
}
