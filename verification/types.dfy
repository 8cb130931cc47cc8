/** The records exchanged between the market-data service, the advisory
    service and the UI: candles with their per-candle indicators, the latest
    indicator set, the derived level sets, the snapshot and the analysis. */
module Types {
  import opened Common

  /** The chart intervals the application offers. */
  datatype Timeframe = M5 | M15 | M30 | H1 | H2 | H4 | H12 | D1

  /** The interface and answer languages. */
  datatype Language = En | Ua | Ru

  datatype Decision = Buy | Sell | Wait

  function TimeframeName(tf: Timeframe): (r: string)
    ensures 0 < |r| && '_' !in r
  {
    match tf
    case M5 => "5m"
    case M15 => "15m"
    case M30 => "30m"
    case H1 => "1h"
    case H2 => "2h"
    case H4 => "4h"
    case H12 => "12h"
    case D1 => "1d"
  }

  /** Reads a timeframe name back; the inverse of `TimeframeName`. */
  function ParseTimeframe(s: string): (r: Option<Timeframe>)
    ensures r.Some? ==> TimeframeName(r.value) == s
    ensures forall tf :: TimeframeName(tf) == s ==> r == Some(tf)
  {
    if s == "5m" then Some(M5)
    else if s == "15m" then Some(M15)
    else if s == "30m" then Some(M30)
    else if s == "1h" then Some(H1)
    else if s == "2h" then Some(H2)
    else if s == "4h" then Some(H4)
    else if s == "12h" then Some(H12)
    else if s == "1d" then Some(D1)
    else None
  }

  function LanguageCode(lang: Language): (r: string)
    ensures 0 < |r| && '_' !in r
  {
    match lang
    case En => "en"
    case Ua => "ua"
    case Ru => "ru"
  }

  /** Reads a language code back; the inverse of `LanguageCode`. */
  function ParseLanguage(s: string): (r: Option<Language>)
    ensures r.Some? ==> LanguageCode(r.value) == s
    ensures forall lang :: LanguageCode(lang) == s ==> r == Some(lang)
  {
    if s == "en" then Some(En)
    else if s == "ua" then Some(Ua)
    else if s == "ru" then Some(Ru)
    else None
  }

  /** One MACD step; the library may leave any component undefined. */
  datatype MacdValue = MacdValue(macd: Option<real>, signal: Option<real>, histogram: Option<real>)

  /** One Bollinger-band step. */
  datatype BBValue = BBValue(upper: Option<real>, middle: Option<real>, lower: Option<real>)

  /** One stochastic-oscillator step. */
  datatype StochValue = StochValue(k: Option<real>, d: Option<real>)

  /** The indicator values attached to one candle; each is absent until that
      indicator's warm-up has passed. */
  datatype KlineIndicators = KlineIndicators(
    rsi: Option<real>,
    macd: Option<MacdValue>,
    ema20: Option<real>,
    ema50: Option<real>,
    bb: Option<BBValue>,
    stoch: Option<StochValue>,
    cci: Option<real>,
    momentum: Option<real>)

  /** One OHLCV candle; `time` is the opening time in milliseconds. */
  datatype Kline = Kline(
    time: int,
    open: real,
    high: real,
    low: real,
    close: real,
    volume: real,
    indicators: Option<KlineIndicators>)

  /** The latest value of each indicator, as a zero- or one-element list. */
  datatype TechnicalIndicators = TechnicalIndicators(
    rsi: seq<real>,
    macd: seq<MacdValue>,
    ema20: seq<real>,
    ema50: seq<real>,
    bb: seq<BBValue>,
    stoch: seq<StochValue>,
    cci: seq<real>,
    momentum: seq<real>)

  /** Classic floor-trader pivot levels. */
  datatype PivotPoints = PivotPoints(r2: real, r1: real, p: real, s1: real, s2: real)

  /** Liquidity ("StrongIMP") levels: buy-side and sell-side liquidity, the range
      between them and three retracement levels inside it. */
  datatype StrongImpLevels = StrongImpLevels(
    bsl: real,
    ssl: real,
    impulse: real,
    level25: real,
    level50: real,
    level75: real)

  datatype MarketSnapshot = MarketSnapshot(
    symbol: string,
    price: real,
    change24h: real,
    klines: seq<Kline>,
    indicators: TechnicalIndicators,
    timeframe: Timeframe,
    strongImp: Option<StrongImpLevels>,
    pivotPoints: Option<PivotPoints>)

  /** An advisory answer together with the time it was produced. */
  datatype TradingAnalysis = TradingAnalysis(
    thoughtProcess: string,
    decision: Decision,
    confidence: real,
    entryZone: string,
    stopLoss: string,
    takeProfit: string,
    leverage: string,
    timestamp: int)

  /** Two candles with the same time and OHLCV fields, whatever their indicators. */
  predicate SameBar(a: Kline, b: Kline)
  {
    a.time == b.time && a.open == b.open && a.high == b.high
    && a.low == b.low && a.close == b.close && a.volume == b.volume
  }
}
