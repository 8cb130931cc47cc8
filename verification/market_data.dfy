/** Assembly of one market snapshot from already-fetched inputs.

    The ticker, the primary candle series, the indicator library's outputs and
    the outcome of the daily-candle request are parameters; everything the
    service derives from them is modelled: symbol and interval naming,
    per-candle annotation, the latest indicator set, the liquidity and pivot
    levels, and the final truncation to the last fifty candles. */
module MarketData {
  import opened Common
  import opened Types
  import opened Alignment
  import opened Levels

  /** How many annotated candles a snapshot keeps. */
  const SnapshotLength: nat := 50

  /** The exchange symbol of an asset: the asset quoted in USDT. */
  function Symbol(asset: string): (s: string)
    ensures |s| == |asset| + 4
    ensures s[..|asset|] == asset && s[|asset|..] == "USDT"
  {
    asset + "USDT"
  }

  /** The exchange's interval name for a timeframe. */
  function Interval(tf: Timeframe): (r: string)
    ensures r == TimeframeName(tf)
    ensures r == "1d" <==> tf == D1
  {
    match tf
    case M5 => "5m"
    case M15 => "15m"
    case M30 => "30m"
    case H1 => "1h"
    case H2 => "2h"
    case H4 => "4h"
    case H12 => "12h"
    case D1 => "1d"
  }

  /** The 24-hour ticker, already parsed. */
  datatype Ticker = Ticker(lastPrice: real, priceChangePercent: real)

  /** Outcome of the separate daily-candle request made for non-daily
      timeframes; a failed request or malformed body is caught by the service. */
  datatype DailySource = DailyCandles(candles: seq<Kline>) | DailyUnavailable

  /** Reading the last annotated candle of an empty series fails, and the
      service rethrows that failure. */
  datatype MarketError = EmptySeries

  /** The daily series the liquidity levels are taken from: the primary
      candles themselves on the daily timeframe, else the separately fetched
      ones (none when that request failed). */
  function DailySeries(tf: Timeframe, klines: seq<Kline>, daily: DailySource): (r: Option<seq<Kline>>)
    ensures tf == D1 ==> r == Some(klines)
    ensures tf != D1 ==> (r.Some? <==> daily.DailyCandles?)
    ensures tf != D1 && r.Some? ==> r.value == daily.candles
  {
    if Interval(tf) == "1d" then Some(klines)
    else match daily
      case DailyCandles(c) => Some(c)
      case DailyUnavailable => None
  }

  /** JavaScript truthiness of an optional number: present and non-zero. */
  predicate Truthy(x: Option<real>)
  {
    x.Some? && x.value != 0.0
  }

  /** The latest momentum entry: the last candle's momentum when it is truthy,
      so an absent momentum and a momentum of exactly zero both give `[]`. */
  function LatestMomentum(last: Kline): (r: seq<real>)
    ensures |r| <= 1
    ensures r != [] <==> last.indicators.Some? && Truthy(last.indicators.value.momentum)
    ensures r != [] ==> r[0] == last.indicators.value.momentum.value
  {
    match last.indicators
    case Some(ind) => if Truthy(ind.momentum) then [ind.momentum.value] else []
    case None => []
  }

  /** The latest indicator set: each windowed indicator's entry is its last
      output as a one-element list, or `[]` when it produced nothing; the
      momentum entry follows the last candle's truthiness. */
  function LatestIndicators(outs: IndicatorOutputs, last: Kline): (ti: TechnicalIndicators)
    ensures ti.rsi == (if outs.rsi == [] then [] else [outs.rsi[|outs.rsi| - 1]])
    ensures ti.macd == (if outs.macd == [] then [] else [outs.macd[|outs.macd| - 1]])
    ensures ti.ema20 == (if outs.ema20 == [] then [] else [outs.ema20[|outs.ema20| - 1]])
    ensures ti.ema50 == (if outs.ema50 == [] then [] else [outs.ema50[|outs.ema50| - 1]])
    ensures ti.bb == (if outs.bb == [] then [] else [outs.bb[|outs.bb| - 1]])
    ensures ti.stoch == (if outs.stoch == [] then [] else [outs.stoch[|outs.stoch| - 1]])
    ensures ti.cci == (if outs.cci == [] then [] else [outs.cci[|outs.cci| - 1]])
    ensures ti.momentum == LatestMomentum(last)
  {
    SliceLastOne(outs.rsi); SliceLastOne(outs.macd); SliceLastOne(outs.ema20); SliceLastOne(outs.ema50);
    SliceLastOne(outs.bb); SliceLastOne(outs.stoch); SliceLastOne(outs.cci);
    TechnicalIndicators(
      SliceLast(outs.rsi, 1),
      SliceLast(outs.macd, 1),
      SliceLast(outs.ema20, 1),
      SliceLast(outs.ema50, 1),
      SliceLast(outs.bb, 1),
      SliceLast(outs.stoch, 1),
      SliceLast(outs.cci, 1),
      LatestMomentum(last))
  }

  /** The snapshot for `asset` on timeframe `tf`: annotate the full series,
      derive the latest indicators and both level sets, then keep the last
      fifty annotated candles. */
  function FetchBinanceData(asset: string, tf: Timeframe, ticker: Ticker, klines: seq<Kline>,
                            outs: IndicatorOutputs, daily: DailySource): (r: Result<MarketSnapshot, MarketError>)
    ensures r.Failure? <==> |klines| == 0
    ensures r.Success? ==> var s := r.value;
      && s.symbol == Symbol(asset)
      && s.timeframe == tf
      && s.price == ticker.lastPrice
      && s.change24h == ticker.priceChangePercent
      && |s.klines| == Min(SnapshotLength, |klines|)
      && (s.pivotPoints.Some? <==> 2 <= |klines|)
      && (s.strongImp.Some? <==> tf == D1 || (daily.DailyCandles? && 0 < |daily.candles|))
    ensures r.Success? ==> var s := r.value;
      && s.indicators == LatestIndicators(outs, Annotate(klines, outs)[|klines| - 1])
      && s.strongImp == (if tf == D1 then StrongImp(klines)
                         else if daily.DailyCandles? then StrongImp(daily.candles)
                         else None)
      && s.pivotPoints == PivotsOfSeries(klines)
      && KeepsFullSeriesTail(s.klines, klines, outs)
  {
    if |klines| == 0 then Failure(EmptySeries)
    else
      var annotated := Annotate(klines, outs);
      var latest := LatestIndicators(outs, annotated[|annotated| - 1]);
      var strong := match DailySeries(tf, klines, daily)
        case Some(d) => StrongImp(d)
        case None => None;
      Success(MarketSnapshot(
        Symbol(asset),
        ticker.lastPrice,
        ticker.priceChangePercent,
        KeptCandles(klines, outs),
        latest,
        tf,
        strong,
        PivotsOfSeries(klines)))
  }

  /** `kept` is the last min(50, n) candles of the series, with their time and
      OHLCV fields unchanged and carrying the indicators computed over the full
      series at their original positions. */
  ghost predicate KeepsFullSeriesTail(kept: seq<Kline>, klines: seq<Kline>, outs: IndicatorOutputs)
  {
    && |kept| == Min(SnapshotLength, |klines|)
    && forall j :: 0 <= j < |kept| ==>
         && SameBar(kept[j], klines[|klines| - |kept| + j])
         && kept[j].indicators == Some(IndicatorsAt(klines, outs, |klines| - |kept| + j))
  }

  /** Candle j of the annotated series' last fifty is candle
      n - min(50, n) + j of the input, with that position's indicators. */
  lemma KeptCandleAt(klines: seq<Kline>, outs: IndicatorOutputs, j: nat)
    requires j < Min(SnapshotLength, |klines|)
    ensures var i := |klines| - Min(SnapshotLength, |klines|) + j;
      var kept := SliceLast(Annotate(klines, outs), SnapshotLength);
      && SameBar(kept[j], klines[i])
      && kept[j].indicators == Some(IndicatorsAt(klines, outs, i))
  {
    var annotated := Annotate(klines, outs);
    SliceLastAt(annotated, SnapshotLength, j);
  }

  lemma AnnotatedTail(klines: seq<Kline>, outs: IndicatorOutputs)
    ensures KeepsFullSeriesTail(SliceLast(Annotate(klines, outs), SnapshotLength), klines, outs)
  {
    forall j | 0 <= j < Min(SnapshotLength, |klines|) {
      KeptCandleAt(klines, outs, j);
    }
  }

  /** The candles a snapshot returns: the full series annotated, then cut to
      its last fifty, so each keeps its full-series indicators. */
  function KeptCandles(klines: seq<Kline>, outs: IndicatorOutputs): (kept: seq<Kline>)
    ensures KeepsFullSeriesTail(kept, klines, outs)
  {
    AnnotatedTail(klines, outs);
    SliceLast(Annotate(klines, outs), SnapshotLength)
  }

  /** The snapshot's latest indicator set agrees with the last candle it
      returns: each windowed entry holds exactly that candle's value, and the
      momentum entry is the series' last ten-candle close change unless that
      is absent or exactly zero. */
  lemma SnapshotLatestMatchesLastCandle(asset: string, tf: Timeframe, ticker: Ticker, klines: seq<Kline>,
                                        outs: IndicatorOutputs, daily: DailySource)
    requires 0 < |klines|
    ensures var s := FetchBinanceData(asset, tf, ticker, klines, outs, daily).value;
      var n := |klines|;
      && 0 < |s.klines|
      && s.klines[|s.klines| - 1].indicators.Some?
      && var ind := s.klines[|s.klines| - 1].indicators.value;
      && s.indicators.rsi == OptionToSeq(ind.rsi)
      && s.indicators.macd == OptionToSeq(ind.macd)
      && s.indicators.ema20 == OptionToSeq(ind.ema20)
      && s.indicators.ema50 == OptionToSeq(ind.ema50)
      && s.indicators.bb == OptionToSeq(ind.bb)
      && s.indicators.stoch == OptionToSeq(ind.stoch)
      && s.indicators.cci == OptionToSeq(ind.cci)
      && s.indicators.momentum
         == (if MomentumLag < n && klines[n - 1].close != klines[n - 1 - MomentumLag].close
             then [klines[n - 1].close - klines[n - 1 - MomentumLag].close]
             else [])
  {
    var s := FetchBinanceData(asset, tf, ticker, klines, outs, daily).value;
    var n := |klines|;
    var j := |s.klines| - 1;
    assert s.klines[j].indicators == Some(IndicatorsAt(klines, outs, n - 1));
    LatestAgreesWithLastCandle(klines, outs);
    LatestMomentumOfSeries(klines, outs);
  }

  /** Annotating before truncating is load-bearing: when at least sixty candles
      were fetched, the first returned candle has a momentum, while annotating
      only the last fifty would leave it without one. */
  lemma TruncatingFirstLosesMomentum(klines: seq<Kline>, outs: IndicatorOutputs, shortOuts: IndicatorOutputs)
    requires SnapshotLength + MomentumLag <= |klines|
    ensures SliceLast(Annotate(klines, outs), SnapshotLength)[0].indicators.value.momentum.Some?
    ensures Annotate(SliceLast(klines, SnapshotLength), shortOuts)[0].indicators.value.momentum.None?
  {
    var annotated := Annotate(klines, outs);
    var n := |klines|;
    var kept := SliceLast(annotated, SnapshotLength);
    assert annotated[..n - SnapshotLength] + kept == annotated;
    assert kept[0] == annotated[n - SnapshotLength];
  }

  /** A latest-indicator entry of a windowed indicator is what the last
      candle carries for it. */
  lemma LatestEntryIsLastCandleValue<T>(values: seq<T>, n: nat)
    requires 0 < n
    ensures SliceLast(values, 1) == OptionToSeq(Align(n, values, n - 1))
  {
    LastCandleCarriesLastValue(n, values);
  }

  /** Each latest-indicator entry agrees with the last annotated candle: the
      windowed indicators' entries hold exactly that candle's value. */
  lemma LatestAgreesWithLastCandle(klines: seq<Kline>, outs: IndicatorOutputs)
    requires 0 < |klines|
    ensures var last := Annotate(klines, outs)[|klines| - 1];
      var ti := LatestIndicators(outs, last);
      var ind := last.indicators.value;
      && ti.rsi == OptionToSeq(ind.rsi)
      && ti.macd == OptionToSeq(ind.macd)
      && ti.ema20 == OptionToSeq(ind.ema20)
      && ti.ema50 == OptionToSeq(ind.ema50)
      && ti.bb == OptionToSeq(ind.bb)
      && ti.stoch == OptionToSeq(ind.stoch)
      && ti.cci == OptionToSeq(ind.cci)
  {
    var n := |klines|;
    LatestEntryIsLastCandleValue(outs.rsi, n);
    LatestEntryIsLastCandleValue(outs.macd, n);
    LatestEntryIsLastCandleValue(outs.ema20, n);
    LatestEntryIsLastCandleValue(outs.ema50, n);
    LatestEntryIsLastCandleValue(outs.bb, n);
    LatestEntryIsLastCandleValue(outs.stoch, n);
    LatestEntryIsLastCandleValue(outs.cci, n);
  }

  /** The latest momentum entry is the series' ten-candle close change at its
      last candle, except that an absent change (ten candles or fewer) and a
      change of exactly zero both give `[]`. */
  lemma LatestMomentumOfSeries(klines: seq<Kline>, outs: IndicatorOutputs)
    requires 0 < |klines|
    ensures var n := |klines|;
      LatestIndicators(outs, Annotate(klines, outs)[n - 1]).momentum
      == (if MomentumLag < n && klines[n - 1].close != klines[n - 1 - MomentumLag].close
          then [klines[n - 1].close - klines[n - 1 - MomentumLag].close]
          else [])
  {
    var n := |klines|;
    LatestMomentumIsLastCandles(klines, outs);
    MomentumOfLastCandle(klines);
  }

  lemma LatestMomentumIsLastCandles(klines: seq<Kline>, outs: IndicatorOutputs)
    requires 0 < |klines|
    ensures var m := Momentum(Closes(klines), |klines| - 1);
      LatestIndicators(outs, Annotate(klines, outs)[|klines| - 1]).momentum
      == (if Truthy(m) then [m.value] else [])
  {
    var last := Annotate(klines, outs)[|klines| - 1];
    LastCandleMomentum(klines, outs);
    LatestMomentumOf(outs, last);
  }

  lemma LastCandleMomentum(klines: seq<Kline>, outs: IndicatorOutputs)
    requires 0 < |klines|
    ensures Annotate(klines, outs)[|klines| - 1].indicators
            == Some(IndicatorsAt(klines, outs, |klines| - 1))
    ensures IndicatorsAt(klines, outs, |klines| - 1).momentum == Momentum(Closes(klines), |klines| - 1)
  {
  }

  lemma LatestMomentumOf(outs: IndicatorOutputs, last: Kline)
    requires last.indicators.Some?
    ensures var m := last.indicators.value.momentum;
      LatestIndicators(outs, last).momentum == (if Truthy(m) then [m.value] else [])
  {
  }

  lemma MomentumOfLastCandle(klines: seq<Kline>)
    requires 0 < |klines|
    ensures var n := |klines|;
      Momentum(Closes(klines), n - 1)
      == (if MomentumLag < n then Some(klines[n - 1].close - klines[n - 1 - MomentumLag].close) else None)
  {
  }

  /** On the daily timeframe the primary candles are reused for the liquidity
      levels and the daily request's outcome plays no part. */
  lemma DailyTimeframeReusesCandles(asset: string, ticker: Ticker, klines: seq<Kline>,
                                    outs: IndicatorOutputs, daily: DailySource)
    requires 0 < |klines|
    ensures FetchBinanceData(asset, D1, ticker, klines, outs, daily).value.strongImp == StrongImp(klines)
  {
  }
}
