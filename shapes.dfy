/** Record shapes shared by the parser, the aggregator and the prediction
    store: a model's forecast for the three fixed horizons, its top factors,
    and the outcome of one model call. */
module Shapes {

  datatype Option<+T> = None | Some(value: T)

  /** The three fixed forecast horizons. */
  datatype WindowType = H1 | H4 | H24

  const AllWindows: seq<WindowType> := [H1, H4, H24]

  /** The key under which a horizon is stored and looked up ("1h", "4h", "24h"). */
  function WindowKey(w: WindowType): string {
    match w
    case H1 => "1h"
    case H4 => "4h"
    case H24 => "24h"
  }

  /** Market direction, used both for predicted and realised moves. */
  datatype Direction = Up | Down | Flat

  /** How much one side's probability must exceed the other's before a
      forecast counts as leaning that way. */
  const LeanMargin: real := 0.1

  /** The lean of an up/down split: bullish or bearish only by more than the margin. */
  datatype Lean = Bullish | Bearish | Neutral

  function LeanOf(probUp: real, probDown: real): Lean {
    if probUp > probDown + LeanMargin then Bullish
    else if probDown > probUp + LeanMargin then Bearish
    else Neutral
  }

  /** The direction a single factor pushes the price in. */
  datatype FactorDirection = FactorUp | FactorDown | FactorNeutral

  datatype TopFactor = TopFactor(name: string, direction: FactorDirection, strength: real, evidence: string)

  /** One model's forecast for one horizon. Numbers are JSON numbers, so
      they are reals here; no range is enforced on them. */
  datatype WindowPrediction = WindowPrediction(
    probUp: real,
    probDown: real,
    probFlat: real,
    probMove1pct: real,
    probMove2pct: real,
    expectedRangePct: real,
    confidence: real,
    mainConclusion: string,
    topFactors: seq<TopFactor>,
    invalidation: seq<string>)
  {
    function SplitSum(): real {
      probUp + probDown + probFlat
    }
  }

  /** How far a forecast's up/down/flat split may drift from 1 before the
      parser rescales it. */
  const SplitTolerance: real := 0.01

  /** The split of a validated forecast lies within the tolerance of 1. */
  predicate ValidSplit(w: WindowPrediction) {
    1.0 - SplitTolerance <= w.SplitSum() <= 1.0 + SplitTolerance
  }

  /** A validated model response: one forecast per horizon and the model's reasoning. */
  datatype Response = Response(h1: WindowPrediction, h4: WindowPrediction, h24: WindowPrediction, reasoning: string)
  {
    function Window(w: WindowType): WindowPrediction {
      match w
      case H1 => h1
      case H4 => h4
      case H24 => h24
    }
  }

  /** The outcome of one model call: `data` is present when the response parsed. */
  datatype AIResult = AIResult(name: string, success: bool, data: Option<Response>, raw: string)

  /** A result that takes part in aggregation. */
  predicate Usable(r: AIResult) {
    r.success && r.data.Some?
  }
}
