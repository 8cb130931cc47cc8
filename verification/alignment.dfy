/** Re-aligning indicator outputs onto the candle series.

    A windowed indicator over n candles yields m values, fewer than n because
    of its warm-up. The values are right-aligned: the last value belongs to the
    last candle, so value j belongs to candle n - m + j, and every earlier
    candle carries no value for that indicator. Momentum is not taken from the
    indicator library but computed directly as a ten-candle close difference. */
module Alignment {
  import opened Common
  import opened Types

  /** `o` is what right alignment gives candle `index` of an n-candle series:
      the output value at the same distance from the end, or nothing when the
      output does not reach back that far. */
  ghost predicate RightAligned<T>(n: nat, values: seq<T>, index: nat, o: Option<T>)
    requires index < n
  {
    && (o.Some? <==> n - index <= |values|)
    && (o.Some? ==> o.value == values[|values| - (n - index)])
  }

  /** The value an indicator output attaches to candle `index` of an n-candle
      series: it keeps the candle's distance from the end of the series. */
  function Align<T>(n: nat, values: seq<T>, index: nat): (r: Option<T>)
    requires index < n
    ensures RightAligned(n, values, index, r)
  {
    var k: int := index - (n - |values|);
    if k >= 0 then Some(values[k]) else None
  }

  /** The whole per-candle column of one indicator. */
  function AlignColumn<T>(n: nat, values: seq<T>): seq<Option<T>>
  {
    seq(n, i requires 0 <= i < n => Align(n, values, i))
  }

  /** The values that are present in a column, in order. */
  function Present<T>(col: seq<Option<T>>): seq<T>
  {
    if |col| == 0 then [] else OptionToSeq(col[0]) + Present(col[1..])
  }

  function Absent<T>(k: nat): seq<Option<T>>
  {
    seq(k, _ => None)
  }

  function Wrap<T>(values: seq<T>): seq<Option<T>>
  {
    seq(|values|, j requires 0 <= j < |values| => Some(values[j]))
  }

  lemma {:induction false} PresentAppend<T>(a: seq<Option<T>>, b: seq<Option<T>>)
    ensures Present(a + b) == Present(a) + Present(b)
    decreases |a|
  {
    if |a| == 0 {
      assert a + b == b;
    } else {
      assert (a + b)[1..] == a[1..] + b;
      PresentAppend(a[1..], b);
    }
  }

  lemma {:induction false} PresentAbsent<T>(k: nat)
    ensures Present(Absent<T>(k)) == []
  {
    if k > 0 {
      assert Absent<T>(k)[1..] == Absent<T>(k - 1);
      PresentAbsent<T>(k - 1);
    }
  }

  lemma {:induction false} PresentWrap<T>(values: seq<T>)
    ensures Present(Wrap(values)) == values
  {
    if |values| > 0 {
      assert Wrap(values)[1..] == Wrap(values[1..]);
      PresentWrap(values[1..]);
    }
  }

  /** The column is a run of absent values followed by the last min(n, m)
      outputs in order: candle i carries values[i - (n - m)] exactly when
      i >= n - m. */
  lemma AlignColumnShape<T>(n: nat, values: seq<T>)
    ensures AlignColumn(n, values)
            == Absent<T>(n - Min(n, |values|)) + Wrap(values[|values| - Min(n, |values|)..])
  {
    var m := Min(n, |values|);
    var col := AlignColumn(n, values);
    var pre := Absent<T>(n - m);
    var post := Wrap(values[|values| - m..]);
    assert |post| == m;
    forall i | 0 <= i < n
      ensures col[i] == (pre + post)[i]
    {
      assert col[i] == Align(n, values, i);
      if i < n - m {
        assert (pre + post)[i] == pre[i] == None;
      } else {
        assert (pre + post)[i] == post[i - (n - m)];
      }
    }
    assert col == pre + post;
  }

  /** Reading the present values back out of the column gives the indicator's
      output again (all of it when it is no longer than the series), so no
      value is lost, repeated or reordered by the alignment. */
  lemma AlignRoundTrip<T>(n: nat, values: seq<T>)
    ensures Present(AlignColumn(n, values)) == values[|values| - Min(n, |values|)..]
    ensures |values| <= n ==> Present(AlignColumn(n, values)) == values
  {
    var m := Min(n, |values|);
    var pre := Absent<T>(n - m);
    var post := Wrap(values[|values| - m..]);
    AlignColumnShape(n, values);
    PresentAppend(pre, post);
    PresentAbsent<T>(n - m);
    PresentWrap(values[|values| - m..]);
    assert Present(AlignColumn(n, values)) == Present(pre) + Present(post);
    if |values| <= n {
      assert values[|values| - m..] == values;
    }
  }

  /** The last candle carries the indicator's last value, or nothing when the
      indicator produced no output. */
  lemma LastCandleCarriesLastValue<T>(n: nat, values: seq<T>)
    requires 0 < n
    ensures |values| == 0 ==> Align(n, values, n - 1) == None
    ensures 0 < |values| ==> Align(n, values, n - 1) == Some(values[|values| - 1])
  {
  }

  /** An indicator whose input was shorter than its warm-up returns nothing;
      every candle then carries no value for it. */
  lemma EmptyOutputAllAbsent<T>(n: nat)
    ensures forall i :: 0 <= i < n ==> Align<T>(n, [], i) == None
  {
  }

  /** Number of candles between a value and its predecessor in the momentum. */
  const MomentumLag: nat := 10

  /** Momentum at candle `index`: the change of the close over the last ten candles. */
  function Momentum(closes: seq<real>, index: nat): (r: Option<real>)
    requires index < |closes|
    ensures r.Some? <==> MomentumLag <= index
    ensures r.Some? ==> closes[index - MomentumLag] + r.value == closes[index]
  {
    if index >= MomentumLag then Some(closes[index] - closes[index - MomentumLag]) else None
  }

  /** Reference definition: the lag-differences of a series as an indicator
      output of its own, one value per candle after the warm-up. */
  function LagDiffs(closes: seq<real>, lag: nat): seq<real>
  {
    seq(if lag <= |closes| then |closes| - lag else 0,
        j requires 0 <= j < |closes| - lag => closes[j + lag] - closes[j])
  }

  /** Momentum, computed directly, is what the general alignment rule gives
      for a ten-candle-warm-up indicator whose outputs are the lag-differences. */
  lemma MomentumIsAlignedLagDiff(closes: seq<real>, index: nat)
    requires index < |closes|
    ensures Momentum(closes, index) == Align(|closes|, LagDiffs(closes, MomentumLag), index)
  {
    var d := LagDiffs(closes, MomentumLag);
    if index >= MomentumLag {
      assert |d| - (|closes| - index) == index - MomentumLag;
    }
  }

  function Closes(klines: seq<Kline>): (cs: seq<real>)
    ensures |cs| == |klines|
    ensures forall i {:trigger cs[i]} :: 0 <= i < |klines| ==> cs[i] == klines[i].close
  {
    seq(|klines|, i requires 0 <= i < |klines| => klines[i].close)
  }

  /** The raw outputs of the seven windowed indicators over the full series
      (RSI 14, MACD 12/26/9, EMA 20, EMA 50, Bollinger 20/2, stochastic 14/3,
      CCI 20), as the external indicator library returns them. */
  datatype IndicatorOutputs = IndicatorOutputs(
    rsi: seq<real>,
    macd: seq<MacdValue>,
    ema20: seq<real>,
    ema50: seq<real>,
    bb: seq<BBValue>,
    stoch: seq<StochValue>,
    cci: seq<real>)

  /** The indicator record attached to candle `index`: every windowed
      indicator right-aligned from its own output, and the momentum of the
      candle's close over the one ten candles earlier. */
  function IndicatorsAt(klines: seq<Kline>, outs: IndicatorOutputs, index: nat): (ind: KlineIndicators)
    requires index < |klines|
    ensures RightAligned(|klines|, outs.rsi, index, ind.rsi)
    ensures RightAligned(|klines|, outs.macd, index, ind.macd)
    ensures RightAligned(|klines|, outs.ema20, index, ind.ema20)
    ensures RightAligned(|klines|, outs.ema50, index, ind.ema50)
    ensures RightAligned(|klines|, outs.bb, index, ind.bb)
    ensures RightAligned(|klines|, outs.stoch, index, ind.stoch)
    ensures RightAligned(|klines|, outs.cci, index, ind.cci)
    ensures ind.momentum.Some? <==> MomentumLag <= index
    ensures ind.momentum.Some? ==> klines[index - MomentumLag].close + ind.momentum.value == klines[index].close
  {
    var n := |klines|;
    KlineIndicators(
      Align(n, outs.rsi, index),
      Align(n, outs.macd, index),
      Align(n, outs.ema20, index),
      Align(n, outs.ema50, index),
      Align(n, outs.bb, index),
      Align(n, outs.stoch, index),
      Align(n, outs.cci, index),
      Momentum(Closes(klines), index))
  }

  /** Attaches the indicator record to every candle of the full series. */
  function Annotate(klines: seq<Kline>, outs: IndicatorOutputs): (r: seq<Kline>)
    ensures |r| == |klines|
    ensures forall i {:trigger r[i]} :: 0 <= i < |r| ==>
      SameBar(r[i], klines[i]) && r[i].indicators == Some(IndicatorsAt(klines, outs, i))
  {
    seq(|klines|, i requires 0 <= i < |klines| =>
      klines[i].(indicators := Some(IndicatorsAt(klines, outs, i))))
  }

  /** Each annotated candle's indicators are the right-aligned outputs and the
      momentum of its own position in the full series. */
  lemma AnnotateAligns(klines: seq<Kline>, outs: IndicatorOutputs, i: nat)
    requires i < |klines|
    ensures var ind := Annotate(klines, outs)[i].indicators.value;
      && ind.rsi == AlignColumn(|klines|, outs.rsi)[i]
      && ind.macd == AlignColumn(|klines|, outs.macd)[i]
      && ind.ema20 == AlignColumn(|klines|, outs.ema20)[i]
      && ind.ema50 == AlignColumn(|klines|, outs.ema50)[i]
      && ind.bb == AlignColumn(|klines|, outs.bb)[i]
      && ind.stoch == AlignColumn(|klines|, outs.stoch)[i]
      && ind.cci == AlignColumn(|klines|, outs.cci)[i]
      && (ind.momentum.Some? <==> MomentumLag <= i)
      && (ind.momentum.Some? ==> ind.momentum.value == klines[i].close - klines[i - MomentumLag].close)
  {
  }

  /** The seven indicators are aligned independently: a candle's value for one
      indicator depends only on that indicator's own output, so an empty output
      (input shorter than its warm-up) blanks that indicator alone. */
  lemma IndicatorsIndependent(klines: seq<Kline>, a: IndicatorOutputs, b: IndicatorOutputs, i: nat)
    requires i < |klines|
    ensures var x := IndicatorsAt(klines, a, i); var y := IndicatorsAt(klines, b, i);
      && (a.rsi == b.rsi ==> x.rsi == y.rsi)
      && (a.macd == b.macd ==> x.macd == y.macd)
      && (a.ema20 == b.ema20 ==> x.ema20 == y.ema20)
      && (a.ema50 == b.ema50 ==> x.ema50 == y.ema50)
      && (a.bb == b.bb ==> x.bb == y.bb)
      && (a.stoch == b.stoch ==> x.stoch == y.stoch)
      && (a.cci == b.cci ==> x.cci == y.cci)
      && x.momentum == y.momentum
    ensures a.rsi == [] ==> IndicatorsAt(klines, a, i).rsi == None
    ensures a.macd == [] ==> IndicatorsAt(klines, a, i).macd == None
    ensures a.ema20 == [] ==> IndicatorsAt(klines, a, i).ema20 == None
    ensures a.ema50 == [] ==> IndicatorsAt(klines, a, i).ema50 == None
    ensures a.bb == [] ==> IndicatorsAt(klines, a, i).bb == None
    ensures a.stoch == [] ==> IndicatorsAt(klines, a, i).stoch == None
    ensures a.cci == [] ==> IndicatorsAt(klines, a, i).cci == None
  {
  }
}
