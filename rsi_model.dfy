/**
 * A value model of the RSI calculator of rsi_calculator.js: the calculator's
 * whole state as a `Snapshot`, one call of `addPrice` as the function
 * `AddPrice`, and a stream of calls as `Run`. The class in rsi_calculator.dfy
 * is proved to follow these functions; rsi_properties.dfy proves what they
 * promise over many calls.
 *
 * Prices are `real`s: the arithmetic is exact, so IEEE-754 rounding and NaN
 * are not part of this model.
 */
module RsiModel {
  import opened Wrappers

  // ---------------------------------------------------------------------------
  // JavaScript values at the calculator's boundary
  // ---------------------------------------------------------------------------

  /**
   * What a caller may pass where the source expects a price: `undefined`
   * (or a missing field), a number, or any other value (a string, a boolean,
   * `null`, an object), of which only its truthiness matters here.
   */
  datatype Value = Undefined | Number(x: real) | Other(truthy: bool)

  /** JavaScript truthiness: `0` and `undefined` are falsy. */
  function Truthy(v: Value): (b: bool)
    ensures v.Undefined? ==> !b
    ensures v.Number? ==> (b <==> v.x != 0.0)
  {
    match v
    case Undefined => false
    case Number(x) => x != 0.0
    case Other(t) => t
  }

  /**
   * The guard of `addPrice`: only a number greater than zero is a price. Every
   * accepted price also passes the truthy-number test of `processHistoricalData`.
   */
  function Accepts(price: Value): (b: bool)
    ensures !price.Number? ==> !b
    ensures price.Number? ==> (b <==> price.x > 0.0)
    ensures b ==> Truthy(price) && price.Number?
  {
    price.Number? && price.x > 0.0
  }

  /** `timestamp || Date.now()`, with the clock reading passed in as `now`. */
  function ResolveTime(timestamp: Option<int>, now: int): (t: int)
    ensures timestamp.Some? && timestamp.value != 0 ==> t == timestamp.value
    ensures timestamp.None? || timestamp.value == 0 ==> t == now
    ensures now != 0 ==> t != 0
  {
    if timestamp.Some? && timestamp.value != 0 then timestamp.value else now
  }

  // ---------------------------------------------------------------------------
  // The arithmetic of one step
  // ---------------------------------------------------------------------------

  /** The gain and the loss of one price change. */
  datatype Move = Move(gain: real, loss: real)

  /**
   * Splits the change from `previousClose` to `price` into a gain and a loss:
   * both are non-negative, at most one of them is non-zero, and together they
   * give back the change.
   */
  function Delta(previousClose: real, price: real): (m: Move)
    ensures m.gain >= 0.0 && m.loss >= 0.0
    ensures m.gain == 0.0 || m.loss == 0.0
    ensures m.gain - m.loss == price - previousClose
  {
    var change := price - previousClose;
    Move(if change > 0.0 then change else 0.0, if change < 0.0 then -change else 0.0)
  }

  predicate NonNegative(xs: seq<real>) {
    forall i :: 0 <= i < |xs| ==> xs[i] >= 0.0
  }

  /** `reduce((sum, g) => sum + g, 0)`: adds from the left. */
  function Sum(xs: seq<real>): (r: real)
    ensures NonNegative(xs) ==> r >= 0.0
  {
    if xs == [] then 0.0 else Sum(xs[..|xs| - 1]) + xs[|xs| - 1]
  }

  function Min(a: real, b: real): real { if a <= b then a else b }
  function Max(a: real, b: real): real { if a <= b then b else a }

  /**
   * Wilder's smoothing of an average `avg` with a new observation `x`. The
   * result lies between the two, so it is never negative when they are not.
   */
  function Wilder(avg: real, x: real, period: int): (r: real)
    requires period >= 1
    ensures Min(avg, x) <= r <= Max(avg, x)
    ensures avg >= 0.0 && x >= 0.0 ==> r >= 0.0
  {
    var p := period as real;
    var r := (avg * (p - 1.0) + x) / p;
    assert r == avg + (x - avg) / p;
    assert (x - avg) / p * p == x - avg;
    r
  }

  /**
   * The RSI of a pair of averages: 100 exactly when `avgLoss` is zero, and
   * otherwise `100 - 100 / (1 + RS)` with `RS = avgGain / avgLoss`, which is
   * the gains' share of the total movement, scaled to 100.
   */
  function Rsi(avgGain: real, avgLoss: real): (r: real)
    requires avgGain >= 0.0 && avgLoss >= 0.0
    ensures 0.0 <= r <= 100.0
    ensures r == 100.0 <==> avgLoss == 0.0
    ensures avgLoss > 0.0 ==> r == 100.0 * avgGain / (avgGain + avgLoss)
  {
    if avgLoss == 0.0 then 100.0
    else
      var rs := avgGain / avgLoss;
      RsiShare(avgGain, avgLoss);
      100.0 - 100.0 / (1.0 + rs)
  }

  lemma RsiShare(g: real, l: real)
    requires g >= 0.0 && l > 0.0
    ensures 100.0 - 100.0 / (1.0 + g / l) == 100.0 * g / (g + l)
    ensures 0.0 <= 100.0 * g / (g + l) < 100.0
  {
    var rs := g / l;
    assert rs * l == g;
    assert (1.0 + rs) * l == l + g;
    assert 100.0 / (1.0 + rs) == 100.0 * l / (g + l);
    assert 100.0 * g / (g + l) + 100.0 * l / (g + l) == 100.0;
    assert 100.0 * l / (g + l) > 0.0;
  }

  // ---------------------------------------------------------------------------
  // Bounded histories
  // ---------------------------------------------------------------------------

  const RsiHistoryCap: nat := 100
  const PriceHistoryCap: nat := 200

  /** The newest `n` entries of `xs` (all of them when there are fewer). */
  function Last<T>(xs: seq<T>, n: nat): seq<T> {
    if |xs| <= n then xs else xs[|xs| - n..]
  }

  /**
   * `push` followed by one `shift` when the array has grown past `cap`: on a
   * history within its cap this keeps the newest `cap` entries, dropping the
   * oldest first, and the pushed entry is the last one.
   */
  function PushBounded<T>(xs: seq<T>, x: T, cap: nat): (r: seq<T>)
    ensures |xs| <= cap && cap >= 1 ==> 1 <= |r| <= cap && r[|r| - 1] == x
  {
    var pushed := xs + [x];
    if |pushed| > cap then pushed[1..] else pushed
  }

  /** Within its cap, a pushed history holds the newest `cap` entries of the history and `x`. */
  lemma PushBoundedKeepsNewest<T>(xs: seq<T>, x: T, cap: nat)
    requires |xs| <= cap
    ensures PushBounded(xs, x, cap) == Last(xs + [x], cap)
  {
  }

  /** Every entry of a pushed history is an entry of the history or the pushed one. */
  lemma PushBoundedEntries<T>(xs: seq<T>, x: T, cap: nat, i: nat)
    requires i < |PushBounded(xs, x, cap)|
    ensures var r := PushBounded(xs, x, cap);
      r[i] == x || (exists j :: 0 <= j < |xs| && r[i] == xs[j])
  {
    var r := PushBounded(xs, x, cap);
    if |xs + [x]| > cap {
      assert r[i] == (xs + [x])[i + 1];
      if i + 1 < |xs| { assert r[i] == xs[i + 1]; }
    } else if i < |xs| {
      assert r[i] == xs[i];
    }
  }

  // ---------------------------------------------------------------------------
  // The calculator's state
  // ---------------------------------------------------------------------------

  /** An entry of `priceHistory`. */
  datatype PricePoint = PricePoint(price: real, timestamp: int)

  /** An entry of `rsiHistory`. */
  datatype RsiPoint = RsiPoint(price: real, rsi: real, timestamp: int, avgGain: real, avgLoss: real)

  /** Every field of an `RSICalculator` but its period. */
  datatype Snapshot = Snapshot(
    previousClose: Option<real>,
    avgGain: Option<real>,
    avgLoss: Option<real>,
    rsiHistory: seq<RsiPoint>,
    priceHistory: seq<PricePoint>,
    isInitialized: bool,
    initialGains: seq<real>,
    initialLosses: seq<real>)

  /** The state the constructor and `reset` establish. */
  function Initial(): (s: Snapshot)
    ensures forall period :: Inv(period, s)
    ensures CurrentRsi(s).None? && !s.isInitialized
  {
    Snapshot(None, None, None, [], [], false, [], [])
  }

  /**
   * What holds of every state a calculator of the given period reaches. A
   * period below 1 never lets the warm-up complete, so such a calculator is
   * never initialized.
   */
  predicate Inv(period: int, s: Snapshot) {
    BuffersInv(period, s) && AveragesInv(period, s) && CloseInv(s) && HistoriesInv(s)
  }

  /** The warm-up buffers: one gain and one loss per buffered move, at most `period` of them. */
  predicate BuffersInv(period: int, s: Snapshot) {
    && |s.initialGains| == |s.initialLosses|
    && (period >= 1 ==> |s.initialGains| <= period)
    && NonNegative(s.initialGains) && NonNegative(s.initialLosses)
    && OneSided(s.initialGains, s.initialLosses)
  }

  /** At most one of each buffered gain and loss is non-zero. */
  predicate OneSided(gains: seq<real>, losses: seq<real>)
    requires |gains| == |losses|
  {
    forall i :: 0 <= i < |gains| ==> gains[i] == 0.0 || losses[i] == 0.0
  }

  /** The averages exist exactly once `period` moves are buffered, and are never negative. */
  predicate AveragesInv(period: int, s: Snapshot) {
    && (s.avgGain.Some? <==> s.isInitialized)
    && (s.avgLoss.Some? <==> s.isInitialized)
    && (s.isInitialized ==>
          period >= 1 && |s.initialGains| == period && s.avgGain.value >= 0.0 && s.avgLoss.value >= 0.0)
    && (period >= 1 && !s.isInitialized ==> |s.initialGains| < period)
  }

  /** The previous close is the newest recorded price; before there is one, nothing is buffered. */
  predicate CloseInv(s: Snapshot) {
    && (s.previousClose.Some? <==> s.priceHistory != [])
    && (s.previousClose.Some? ==> s.previousClose.value == s.priceHistory[|s.priceHistory| - 1].price)
    && PositivePrices(s.priceHistory)
    && (s.previousClose.None? ==> s.initialGains == [] && !s.isInitialized)
  }

  /** The bounded histories, and the range of every recorded RSI. */
  predicate HistoriesInv(s: Snapshot) {
    && |s.rsiHistory| <= RsiHistoryCap
    && |s.priceHistory| <= PriceHistoryCap
    && RsisInRange(s.rsiHistory)
    && (s.rsiHistory != [] ==> s.isInitialized)
  }

  predicate PositivePrices(h: seq<PricePoint>) {
    forall i :: 0 <= i < |h| ==> h[i].price > 0.0
  }

  predicate RsisInRange(h: seq<RsiPoint>) {
    forall i :: 0 <= i < |h| ==> 0.0 <= h[i].rsi <= 100.0
  }

  /** `getCurrentRSI`: the RSI of the newest history entry, if there is one. */
  function CurrentRsi(s: Snapshot): (r: Option<real>)
    ensures r.None? <==> s.rsiHistory == []
    ensures r.Some? ==> r.value == s.rsiHistory[|s.rsiHistory| - 1].rsi
  {
    if |s.rsiHistory| == 0 then None else Some(s.rsiHistory[|s.rsiHistory| - 1].rsi)
  }

  /** The state after a call of `addPrice`, and the value it returned. */
  datatype StepResult = StepResult(next: Snapshot, rsi: Option<real>)

  /**
   * The averaging step of `addPrice`: during the warm-up the move is
   * buffered, and once `period` moves are buffered the averages become their
   * means; after the warm-up the averages are smoothed instead.
   */
  function UpdateAverages(period: int, s: Snapshot, m: Move): (r: Snapshot)
    requires Inv(period, s) && s.previousClose.Some?
    requires m.gain >= 0.0 && m.loss >= 0.0 && (m.gain == 0.0 || m.loss == 0.0)
    ensures Inv(period, r)
  {
    if !s.isInitialized then Buffer(period, s, m) else Smooth(period, s, m)
  }

  /** The warm-up: buffer the move; the `period`-th one sets the averages to the buffers' means. */
  function Buffer(period: int, s: Snapshot, m: Move): (r: Snapshot)
    requires Inv(period, s) && s.previousClose.Some? && !s.isInitialized
    requires m.gain >= 0.0 && m.loss >= 0.0 && (m.gain == 0.0 || m.loss == 0.0)
    ensures Inv(period, r)
  {
    BufferedMove(s.initialGains, s.initialLosses, m);
    var u := s.(initialGains := s.initialGains + [m.gain], initialLosses := s.initialLosses + [m.loss]);
    assert BuffersInv(period, u);
    if |u.initialGains| == period then Initialize(period, u) else u
  }

  /** The end of the warm-up: the averages become the means of the full buffers. */
  function Initialize(period: int, u: Snapshot): (r: Snapshot)
    requires BuffersInv(period, u) && CloseInv(u) && HistoriesInv(u) && u.previousClose.Some?
    requires period >= 1 && |u.initialGains| == period
    ensures Inv(period, r) && r.isInitialized
  {
    MeanNonNegative(u.initialGains, period);
    MeanNonNegative(u.initialLosses, period);
    u.(avgGain := Some(Sum(u.initialGains) / period as real),
       avgLoss := Some(Sum(u.initialLosses) / period as real),
       isInitialized := true)
  }

  lemma MeanNonNegative(xs: seq<real>, period: int)
    requires NonNegative(xs) && period >= 1
    ensures Sum(xs) / period as real >= 0.0
  {
    assert Sum(xs) >= 0.0;
  }

  /** Buffering a move keeps the buffers non-negative and with at most one non-zero entry per move. */
  lemma BufferedMove(gains: seq<real>, losses: seq<real>, m: Move)
    requires |gains| == |losses| && NonNegative(gains) && NonNegative(losses)
    requires OneSided(gains, losses)
    requires m.gain >= 0.0 && m.loss >= 0.0 && (m.gain == 0.0 || m.loss == 0.0)
    ensures NonNegative(gains + [m.gain]) && NonNegative(losses + [m.loss])
    ensures OneSided(gains + [m.gain], losses + [m.loss])
  {
  }

  /** After the warm-up: both averages follow Wilder's recurrence. */
  function Smooth(period: int, s: Snapshot, m: Move): (r: Snapshot)
    requires Inv(period, s) && s.isInitialized
    requires m.gain >= 0.0 && m.loss >= 0.0
    ensures Inv(period, r)
  {
    s.(avgGain := Some(Wilder(s.avgGain.value, m.gain, period)),
       avgLoss := Some(Wilder(s.avgLoss.value, m.loss, period)))
  }

  /**
   * Records an accepted price `p` at time `t`: it is pushed on the bounded
   * price history and becomes the previous close.
   */
  function RecordPrice(period: int, s: Snapshot, p: real, t: int): (r: Snapshot)
    requires Inv(period, s) && p > 0.0
    ensures Inv(period, r)
  {
    var prices := PushBounded(s.priceHistory, PricePoint(p, t), PriceHistoryCap);
    assert PositivePrices(prices) by {
      forall i | 0 <= i < |prices| ensures prices[i].price > 0.0 {
        PushBoundedEntries(s.priceHistory, PricePoint(p, t), PriceHistoryCap, i);
      }
    }
    s.(previousClose := Some(p), priceHistory := prices)
  }

  /**
   * One call `addPrice(price, timestamp)` on a calculator of the given period
   * in state `s`, the clock reading `now`. The averages are updated from the
   * old previous close before the price is recorded; the two touch disjoint
   * fields, so this is the source's order of effects.
   */
  function AddPrice(period: int, s: Snapshot, price: Value, timestamp: Option<int>, now: int): (r: StepResult)
    requires Inv(period, s)
    ensures Inv(period, r.next)
    ensures r.rsi.Some? ==> 0.0 <= r.rsi.value <= 100.0 && CurrentRsi(r.next) == r.rsi
  {
    if !Accepts(price) then StepResult(s, None)
    else
      var t := ResolveTime(timestamp, now);
      if s.previousClose.None? then StepResult(RecordPrice(period, s, price.x, t), None)
      else
        var u := UpdateAverages(period, s, Delta(s.previousClose.value, price.x));
        Emit(period, RecordPrice(period, u, price.x, t), price.x, t)
  }

  /**
   * The end of `addPrice` once the averages are updated and the price is
   * recorded: nothing is returned during the warm-up; afterwards the RSI of
   * the averages is pushed on the bounded RSI history and returned.
   */
  function Emit(period: int, v: Snapshot, p: real, t: int): (r: StepResult)
    requires Inv(period, v)
    ensures Inv(period, r.next)
    ensures r.rsi.Some? ==> 0.0 <= r.rsi.value <= 100.0 && CurrentRsi(r.next) == r.rsi
  {
    if !v.isInitialized then StepResult(v, None)
    else
      var rsi := Rsi(v.avgGain.value, v.avgLoss.value);
      var entry := RsiPoint(p, rsi, t, v.avgGain.value, v.avgLoss.value);
      var history := PushBounded(v.rsiHistory, entry, RsiHistoryCap);
      assert RsisInRange(history) by {
        forall i | 0 <= i < |history| ensures 0.0 <= history[i].rsi <= 100.0 {
          PushBoundedEntries(v.rsiHistory, entry, RsiHistoryCap, i);
        }
      }
      StepResult(v.(rsiHistory := history), Some(rsi))
  }

  /** What one call of `addPrice` does, case by case. */
  lemma AddPriceBehaviour(period: int, s: Snapshot, price: Value, timestamp: Option<int>, now: int)
    requires Inv(period, s)
    ensures var r := AddPrice(period, s, price, timestamp, now);
      // an input that is not a positive number changes nothing
      && (!Accepts(price) ==> r == StepResult(s, None))
      // every accepted price is recorded and becomes the previous close
      && (Accepts(price) ==>
            && r.next.previousClose == Some(price.x)
            && r.next.priceHistory
               == PushBounded(s.priceHistory, PricePoint(price.x, ResolveTime(timestamp, now)), PriceHistoryCap))
      // the first accepted price only seeds the previous close
      && (Accepts(price) && s.previousClose.None? ==>
            && r.rsi.None?
            && r.next == s.(previousClose := r.next.previousClose, priceHistory := r.next.priceHistory))
      // during the warm-up the move is buffered; the period-th move ends it
      && (Accepts(price) && s.previousClose.Some? && !s.isInitialized ==>
            var m := Delta(s.previousClose.value, price.x);
            && r.next.initialGains == s.initialGains + [m.gain]
            && r.next.initialLosses == s.initialLosses + [m.loss]
            && (r.next.isInitialized <==> |s.initialGains| + 1 == period)
            && (r.next.isInitialized ==>
                  r.next.avgGain == Some(Sum(r.next.initialGains) / period as real)
                  && r.next.avgLoss == Some(Sum(r.next.initialLosses) / period as real)))
      // after the warm-up the averages follow Wilder's recurrence
      && (Accepts(price) && s.isInitialized ==>
            var m := Delta(s.previousClose.value, price.x);
            && r.next.isInitialized
            && r.next.initialGains == s.initialGains && r.next.initialLosses == s.initialLosses
            && r.next.avgGain == Some(Wilder(s.avgGain.value, m.gain, period))
            && r.next.avgLoss == Some(Wilder(s.avgLoss.value, m.loss, period)))
      // an RSI is returned exactly when a price is accepted on an initialized calculator
      && (r.rsi.Some? <==> Accepts(price) && s.previousClose.Some? && r.next.isInitialized)
      && (r.rsi.Some? ==>
            && 0.0 <= r.rsi.value <= 100.0
            && (r.rsi.value == 100.0 <==> r.next.avgLoss.value == 0.0)
            && r.rsi.value == Rsi(r.next.avgGain.value, r.next.avgLoss.value)
            && r.next.rsiHistory
               == PushBounded(s.rsiHistory,
                              RsiPoint(price.x, r.rsi.value, ResolveTime(timestamp, now),
                                       r.next.avgGain.value, r.next.avgLoss.value),
                              RsiHistoryCap)
            && CurrentRsi(r.next) == r.rsi)
      && (r.rsi.None? ==> r.next.rsiHistory == s.rsiHistory)
  {
    if Accepts(price) && s.previousClose.Some? {
      var t := ResolveTime(timestamp, now);
      var u := UpdateAverages(period, s, Delta(s.previousClose.value, price.x));
      var v := RecordPrice(period, u, price.x, t);
      assert AddPrice(period, s, price, timestamp, now) == Emit(period, v, price.x, t);
    }
  }

  // ---------------------------------------------------------------------------
  // Streams of calls
  // ---------------------------------------------------------------------------

  /** The arguments of one call of `addPrice`, with the clock reading of that call. */
  datatype Tick = Tick(price: Value, timestamp: Option<int>, now: int)

  /** The state after feeding `ticks` to `addPrice` in order, starting in `s`. */
  function Run(period: int, s: Snapshot, ticks: seq<Tick>): (r: Snapshot)
    requires Inv(period, s)
    ensures Inv(period, r)
    decreases |ticks|
  {
    if ticks == [] then s
    else
      var t := ticks[|ticks| - 1];
      AddPrice(period, Run(period, s, ticks[..|ticks| - 1]), t.price, t.timestamp, t.now).next
  }

  /** Feeding one more tick is one more call of `addPrice`. */
  lemma RunAppend(period: int, s: Snapshot, ticks: seq<Tick>, t: Tick)
    requires Inv(period, s)
    ensures Run(period, s, ticks + [t]) == AddPrice(period, Run(period, s, ticks), t.price, t.timestamp, t.now).next
  {
    assert (ticks + [t])[..|ticks|] == ticks;
  }

  /** What the call for `ticks[i]` returns when `ticks` is fed in order from `s`. */
  function Returned(period: int, s: Snapshot, ticks: seq<Tick>, i: nat): Option<real>
    requires Inv(period, s) && i < |ticks|
  {
    AddPrice(period, Run(period, s, ticks[..i]), ticks[i].price, ticks[i].timestamp, ticks[i].now).rsi
  }

  // ---------------------------------------------------------------------------
  // processHistoricalData's items
  // ---------------------------------------------------------------------------

  /**
   * An element of the array given to `processHistoricalData`: an object with
   * (possibly missing) `close`, `price`, `time` and `timestamp` fields, a
   * value that is not an object, or `null` (whose `typeof` is 'object', so
   * reading `null.close` throws).
   */
  datatype HistoricalItem =
    | Record(close: Value, price: Value, time: Option<int>, stamp: Option<int>)
    | Scalar(value: Value)
    | NullItem

  /** One minute in milliseconds: the spacing of the synthetic timestamps of bare prices. */
  const SyntheticInterval: int := 60000

  /**
   * The call `processHistoricalData` makes for the item at `index` of an array
   * of `count` items, if it makes one: `close || price` (a falsy `close` falls
   * through to `price`) must be a non-zero number; a record's time is
   * `time || timestamp`, a bare price's is spaced one minute apart ending at
   * `now`.
   */
  function ItemTick(item: HistoricalItem, index: int, count: int, now: int): (r: Option<Tick>)
    requires !item.NullItem?
    ensures r.Some? ==> r.value.price.Number? && r.value.price.x != 0.0 && r.value.now == now
    // which items make a call: a bare value that is a non-zero number; a record
    // whose truthy `close` is a number, or, when `close` is falsy, whose `price` is
    ensures item.Scalar? ==> (r.Some? <==> item.value.Number? && item.value.x != 0.0)
    ensures item.Record? && Truthy(item.close) ==> (r.Some? <==> item.close.Number?)
    ensures item.Record? && !Truthy(item.close) ==> (r.Some? <==> item.price.Number? && item.price.x != 0.0)
    // which field supplies the price
    ensures r.Some? && item.Scalar? ==> r.value.price == item.value
    ensures r.Some? && item.Record? && Truthy(item.close) ==> r.value.price == item.close
    ensures r.Some? && item.Record? && !Truthy(item.close) ==> r.value.price == item.price
    // the timestamp: `time || timestamp` for a record; for a bare value, one
    // minute per remaining item before the clock reading
    ensures r.Some? && item.Record? && item.time.Some? && item.time.value != 0 ==> r.value.timestamp == item.time
    ensures r.Some? && item.Record? && !(item.time.Some? && item.time.value != 0) ==> r.value.timestamp == item.stamp
    ensures r.Some? && item.Scalar? ==> r.value.timestamp == Some(now - (count - index) * SyntheticInterval)
    ensures r.Some? && item.Scalar? && 0 <= index < count ==> r.value.timestamp.value <= now - SyntheticInterval
  {
    var price := if item.Record? then (if Truthy(item.close) then item.close else item.price) else item.value;
    var timestamp :=
      if item.Record? then (if item.time.Some? && item.time.value != 0 then item.time else item.stamp)
      else Some(now - (count - index) * SyntheticInterval);
    if Truthy(price) && price.Number? then Some(Tick(price, timestamp, now)) else None
  }

  /** None of the first `k` items is `null`. */
  predicate NoNullBefore(items: seq<HistoricalItem>, k: nat) {
    forall i :: 0 <= i < k && i < |items| ==> !items[i].NullItem?
  }

  /** The number of items processed before the first `null` one (all of them if there is none). */
  function Completed(items: seq<HistoricalItem>): (k: nat)
    ensures k <= |items|
    ensures NoNullBefore(items, k)
    ensures k < |items| ==> items[k].NullItem?
  {
    CompletedFrom(items, 0)
  }

  /** The index of the first `null` item at or after `j`, or the length when there is none. */
  function CompletedFrom(items: seq<HistoricalItem>, j: nat): (k: nat)
    requires j <= |items|
    requires NoNullBefore(items, j)
    ensures j <= k <= |items|
    ensures NoNullBefore(items, k)
    ensures k < |items| ==> items[k].NullItem?
    decreases |items| - j
  {
    if j == |items| || items[j].NullItem? then j else CompletedFrom(items, j + 1)
  }

  /** `Completed` is the index of the first `null` item, or the length when there is none. */
  lemma FirstNull(items: seq<HistoricalItem>, k: nat)
    requires k <= |items| && (k == |items| || items[k].NullItem?)
    requires NoNullBefore(items, k)
    ensures Completed(items) == k
  {
  }

  /**
   * The calls made for the first `k` items of `items`, in order; `nows[i]` is
   * the clock reading while item `i` is processed.
   */
  function HistoricalTicks(items: seq<HistoricalItem>, k: nat, nows: seq<int>): seq<Tick>
    requires k <= |items| == |nows|
    requires NoNullBefore(items, k)
  {
    if k == 0 then []
    else
      var rest := HistoricalTicks(items, k - 1, nows);
      match ItemTick(items[k - 1], k - 1, |items|, nows[k - 1])
      case Some(t) => rest + [t]
      case None => rest
  }

  /**
   * The state after the first `k` items of `items` have been processed from
   * `s`, one item at a time, item `i` with the clock reading `nows[i]`.
   */
  function RunItems(period: int, s: Snapshot, items: seq<HistoricalItem>, k: nat, nows: seq<int>): (r: Snapshot)
    requires Inv(period, s) && k <= |items| == |nows|
    requires NoNullBefore(items, k)
    ensures Inv(period, r)
  {
    if k == 0 then s
    else
      var before := RunItems(period, s, items, k - 1, nows);
      match ItemTick(items[k - 1], k - 1, |items|, nows[k - 1])
      case Some(t) => AddPrice(period, before, t.price, t.timestamp, t.now).next
      case None => before
  }
}
