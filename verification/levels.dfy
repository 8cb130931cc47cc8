/** The two derived level sets of a snapshot.

    Liquidity ("StrongIMP") levels span the highest high and lowest low of the
    last seven daily candles, with retracement levels at a quarter, a half and
    three quarters of that range. Classic pivot points are computed from the
    high, low and close of the second-to-last candle, the last one that has
    closed. */
module Levels {
  import opened Common
  import opened Types

  /** How many trailing daily candles the liquidity range covers. */
  const LiquidityLookback: nat := 7

  /** The highest high of a non-empty window. */
  function MaxHigh(w: seq<Kline>): (m: real)
    requires 0 < |w|
    ensures forall i :: 0 <= i < |w| ==> w[i].high <= m
    ensures exists i :: 0 <= i < |w| && w[i].high == m
  {
    if |w| == 1 then w[0].high
    else
      var rest := MaxHigh(w[1..]);
      assert forall i :: 1 <= i < |w| ==> w[i] == w[1..][i - 1];
      if rest < w[0].high then w[0].high else rest
  }

  /** The lowest low of a non-empty window. */
  function MinLow(w: seq<Kline>): (m: real)
    requires 0 < |w|
    ensures forall i :: 0 <= i < |w| ==> m <= w[i].low
    ensures exists i :: 0 <= i < |w| && w[i].low == m
  {
    if |w| == 1 then w[0].low
    else
      var rest := MinLow(w[1..]);
      assert forall i :: 1 <= i < |w| ==> w[i] == w[1..][i - 1];
      if w[0].low < rest then w[0].low else rest
  }

  /** The level set of a non-empty window: `bsl` and `ssl` are the window's
      extreme high and low, and the three retracement levels cut the range
      between them into four equal parts. */
  function LevelsOf(window: seq<Kline>): (r: StrongImpLevels)
    requires 0 < |window|
    ensures forall i :: 0 <= i < |window| ==> window[i].high <= r.bsl && r.ssl <= window[i].low
    ensures exists i :: 0 <= i < |window| && window[i].high == r.bsl
    ensures exists i :: 0 <= i < |window| && window[i].low == r.ssl
    ensures r.ssl + r.impulse == r.bsl
    ensures r.level50 == (r.ssl + r.bsl) / 2.0
    ensures r.level25 - r.ssl == r.level50 - r.level25 == r.level75 - r.level50 == r.bsl - r.level75
  {
    var bsl := MaxHigh(window);
    var ssl := MinLow(window);
    var impulse := bsl - ssl;
    StrongImpLevels(bsl, ssl, impulse, ssl + impulse * 0.25, ssl + impulse * 0.5, ssl + impulse * 0.75)
  }

  /** Liquidity levels of a daily series, over its last min(7, n) candles.
      An empty series has no extremes, so no level set. */
  function StrongImp(daily: seq<Kline>): (r: Option<StrongImpLevels>)
    ensures r.Some? <==> 0 < |daily|
    ensures r.Some? ==> forall i :: |daily| - Min(LiquidityLookback, |daily|) <= i < |daily| ==>
      daily[i].high <= r.value.bsl && r.value.ssl <= daily[i].low
    ensures r.Some? ==> exists i :: |daily| - Min(LiquidityLookback, |daily|) <= i < |daily| && daily[i].high == r.value.bsl
    ensures r.Some? ==> exists i :: |daily| - Min(LiquidityLookback, |daily|) <= i < |daily| && daily[i].low == r.value.ssl
    ensures r.Some? ==> var lv := r.value;
      && lv.ssl + lv.impulse == lv.bsl
      && lv.level50 == (lv.ssl + lv.bsl) / 2.0
      && lv.level25 - lv.ssl == lv.level50 - lv.level25 == lv.level75 - lv.level50 == lv.bsl - lv.level75
  {
    if |daily| == 0 then None
    else
      var window := SliceLast(daily, LiquidityLookback);
      var start := |daily| - |window|;
      assert forall i :: 0 <= i < |window| ==> window[i] == daily[start + i];
      var lv := LevelsOf(window);
      assert forall i :: start <= i < |daily| ==> daily[i] == window[i - start];
      ghost var ih :| 0 <= ih < |window| && window[ih].high == lv.bsl;
      assert daily[start + ih].high == lv.bsl;
      ghost var il :| 0 <= il < |window| && window[il].low == lv.ssl;
      assert daily[start + il].low == lv.ssl;
      Some(lv)
  }

  /** Every candle of the window has its low at or below its high. */
  ghost predicate WellFormed(w: seq<Kline>)
  {
    forall i :: 0 <= i < |w| ==> w[i].low <= w[i].high
  }

  /** When the candles of the liquidity window are well formed the levels are
      ordered from the sell-side to the buy-side liquidity. */
  lemma LevelsOrdered(daily: seq<Kline>)
    requires 0 < |daily|
    requires WellFormed(SliceLast(daily, LiquidityLookback))
    ensures var lv := StrongImp(daily).value;
      lv.ssl <= lv.level25 <= lv.level50 <= lv.level75 <= lv.bsl
  {
    var lv := StrongImp(daily).value;
    var window := SliceLast(daily, LiquidityLookback);
    var last := |daily| - 1;
    SliceLastAt(daily, LiquidityLookback, |window| - 1);
    assert window[|window| - 1] == daily[last];
    assert lv.ssl <= daily[last].low <= daily[last].high <= lv.bsl;
  }

  /** Thirty ascending daily candles with highs 100..129 and lows 90..119: the
      last seven give bsl 129, ssl 113, an impulse of 16 and a midpoint of 121. */
  lemma AscendingDailyExample()
    ensures var daily := seq(30, i requires 0 <= i < 30 =>
                               Kline(i, 0.0, 100.0 + i as real, 90.0 + i as real, 0.0, 0.0, None));
      var lv := StrongImp(daily).value;
      lv.bsl == 129.0 && lv.ssl == 113.0 && lv.impulse == 16.0 && lv.level50 == 121.0
  {
    var daily := seq(30, i requires 0 <= i < 30 =>
                     Kline(i, 0.0, 100.0 + i as real, 90.0 + i as real, 0.0, 0.0, None));
    var lv := StrongImp(daily).value;
    assert daily[29].high == 129.0;
    assert daily[23].low == 113.0;
    assert forall i :: 23 <= i < 30 ==> daily[i].high <= 129.0 && 113.0 <= daily[i].low;
  }

  /** Classic pivot points from one period's high, low and close. */
  function Pivots(h: real, l: real, c: real): (pp: PivotPoints)
    ensures 2.0 * pp.p - pp.s1 == h
    ensures 2.0 * pp.p - pp.r1 == l
    ensures pp.r1 + pp.s1 - pp.p == c
    ensures pp.r2 - pp.s2 == 2.0 * (h - l)
    ensures pp.r2 - pp.p == pp.p - pp.s2 == h - l
  {
    var p := (h + l + c) / 3.0;
    PivotPoints(p + (h - l), 2.0 * p - l, p, 2.0 * p - h, p - (h - l))
  }

  /** Reference inverse: the high, low and close that a pivot set was built from. */
  function PivotSource(pp: PivotPoints): (real, real, real)
  {
    (2.0 * pp.p - pp.s1, 2.0 * pp.p - pp.r1, pp.r1 + pp.s1 - pp.p)
  }

  /** The five levels determine the candle they came from. */
  lemma PivotRoundTrip(h: real, l: real, c: real)
    ensures PivotSource(Pivots(h, l, c)) == (h, l, c)
  {
  }

  /** A pivot set is determined by the candle it recovers and its outer
      levels lying one range either side of the pivot: nothing else has both. */
  lemma PivotsDetermined(pp: PivotPoints, h: real, l: real, c: real)
    requires PivotSource(pp) == (h, l, c)
    requires pp.r2 - pp.p == pp.p - pp.s2 == h - l
    ensures pp == Pivots(h, l, c)
  {
    assert 3.0 * pp.p == h + l + c;
  }

  /** The levels are ordered s2 <= s1 <= p <= r1 <= r2 exactly when the pivot
      lies within the candle's range, which holds whenever the close does. */
  lemma PivotsOrdered(h: real, l: real, c: real)
    ensures var pp := Pivots(h, l, c);
      (pp.s2 <= pp.s1 <= pp.p <= pp.r1 <= pp.r2) <==> (l <= pp.p <= h)
    ensures l <= c <= h ==> var pp := Pivots(h, l, c); pp.s2 <= pp.s1 <= pp.p <= pp.r1 <= pp.r2
  {
  }

  /** A prior candle with H = 110, L = 100, C = 105. */
  lemma PivotExample()
    ensures Pivots(110.0, 100.0, 105.0) == PivotPoints(115.0, 110.0, 105.0, 100.0, 95.0)
  {
  }

  /** Pivot points from the second-to-last candle of the series; with fewer
      than two candles that read fails and no pivot set is produced. */
  function PivotsOfSeries(klines: seq<Kline>): (r: Option<PivotPoints>)
    ensures r.Some? <==> 2 <= |klines|
    ensures r.Some? ==> var y := klines[|klines| - 2];
      && PivotSource(r.value) == (y.high, y.low, y.close)
      && r.value.r2 - r.value.p == r.value.p - r.value.s2 == y.high - y.low
  {
    if |klines| < 2 then None
    else
      var y := klines[|klines| - 2];
      Some(Pivots(y.high, y.low, y.close))
  }
}
