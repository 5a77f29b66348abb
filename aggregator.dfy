/** aggregateWindow and aggregatePredictions: the consensus forecast of one
    horizon is the renormalised mean split of every successful model, the
    mean move probabilities, range and (rounded) confidence, a conclusion
    read off those, the merged top factors and the de-duplicated
    invalidation conditions. */
module Aggregator {
  import opened Shapes
  import opened Numeric
  import opened Lists
  import opened Factors
  import opened Consensus

  const MaxInvalidations: nat := 5
  /** Above this chance of a 2% move the outlook is high volatility. */
  const HighMoveLimit: real := 0.4
  /** Above this chance of a 1% move (and no high volatility) it is moderate. */
  const ModerateMoveLimit: real := 0.6

  datatype Volatility = HighVolatility | ModerateVolatility | LimitedVolatility

  /** The main conclusion: "insufficient data", or a lean and a volatility. */
  datatype Conclusion = InsufficientData | Outlook(lean: Lean, volatility: Volatility)

  datatype AggregatedWindow = AggregatedWindow(
    probUp: real,
    probDown: real,
    probFlat: real,
    probMove1pct: real,
    probMove2pct: real,
    expectedRangePct: real,
    confidence: int,
    conclusion: Conclusion,
    topFactors: seq<TopFactor>,
    invalidationConditions: seq<string>)

  /** The window reported when no model produced data. */
  const NeutralWindow := AggregatedWindow(0.33, 0.33, 0.34, 0.5, 0.2, 1.0, 0, InsufficientData, [], [])

  function VolatilityOf(probMove1pct: real, probMove2pct: real): Volatility {
    if probMove2pct > HighMoveLimit then HighVolatility
    else if probMove1pct > ModerateMoveLimit then ModerateVolatility
    else LimitedVolatility
  }

  /** A numeric field of a forecast. */
  datatype Field = ProbUp | ProbDown | ProbFlat | ProbMove1 | ProbMove2 | ExpectedRange | Confidence

  function FieldOf(w: WindowPrediction, f: Field): real {
    match f
    case ProbUp => w.probUp
    case ProbDown => w.probDown
    case ProbFlat => w.probFlat
    case ProbMove1 => w.probMove1pct
    case ProbMove2 => w.probMove2pct
    case ExpectedRange => w.expectedRangePct
    case Confidence => w.confidence
  }

  /** One field of every forecast, in order. */
  function Column(ws: seq<WindowPrediction>, f: Field): (c: seq<real>)
    ensures |c| == |ws|
    ensures forall i :: 0 <= i < |ws| ==> c[i] == FieldOf(ws[i], f)
  {
    if ws == [] then [] else Column(ws[..|ws| - 1], f) + [FieldOf(ws[|ws| - 1], f)]
  }

  /** `windowData.reduce((sum, w) => sum + w.data.<field>, 0) / n`. */
  function MeanOf(ws: seq<WindowPrediction>, f: Field): real
    requires |ws| > 0
  {
    Mean(Column(ws, f))
  }

  /** The mean split can be renormalised: there are no forecasts, or the
      mean up, down and flat probabilities do not sum to 0. */
  predicate Normalisable(ws: seq<WindowPrediction>) {
    ws == [] || MeanOf(ws, ProbUp) + MeanOf(ws, ProbDown) + MeanOf(ws, ProbFlat) != 0.0
  }

  /** The invalidation conditions of every forecast, forecast by forecast. */
  function AllInvalidations(ws: seq<WindowPrediction>): seq<string> {
    if ws == [] then [] else AllInvalidations(ws[..|ws| - 1]) + ws[|ws| - 1].invalidation
  }

  /** `Array.from(allInvalidations).slice(0, 5)`. */
  function Invalidations(ws: seq<WindowPrediction>): (r: seq<string>)
    ensures |r| <= MaxInvalidations
    ensures Distinct(r)
    ensures forall x :: x in r ==> x in AllInvalidations(ws)
    ensures |Dedup(AllInvalidations(ws))| <= MaxInvalidations ==> forall x :: x in AllInvalidations(ws) ==> x in r
  {
    Take(Dedup(AllInvalidations(ws)), MaxInvalidations)
  }

  /** aggregateWindow as a function. */
  function WindowConsensus(ws: seq<WindowPrediction>): (a: AggregatedWindow)
    requires Normalisable(ws)
    ensures ws == [] ==> a == NeutralWindow
    ensures ws != [] ==> a.probUp + a.probDown + a.probFlat == 1.0
    ensures ws != [] ==> a.conclusion == Outlook(LeanOf(a.probUp, a.probDown), VolatilityOf(a.probMove1pct, a.probMove2pct))
    ensures |a.topFactors| <= MaxTopFactors && |a.invalidationConditions| <= MaxInvalidations
  {
    if ws == [] then NeutralWindow
    else
      var split := SharesOf(MeanOf(ws, ProbUp), MeanOf(ws, ProbDown), MeanOf(ws, ProbFlat));
      var move1, move2 := MeanOf(ws, ProbMove1), MeanOf(ws, ProbMove2);
      AggregatedWindow(
        split.first, split.second, split.third,
        move1, move2, MeanOf(ws, ExpectedRange),
        Round(MeanOf(ws, Confidence)),
        Outlook(LeanOf(split.first, split.second), VolatilityOf(move1, move2)),
        TopFactors(ws),
        Invalidations(ws))
  }

  /** Adding one more condition is one more step of the de-duplication. */
  lemma DedupSnoc(s: seq<string>, x: string)
    ensures Dedup(s + [x]) == if x in Dedup(s) then Dedup(s) else Dedup(s) + [x]
  {
    assert (s + [x])[..|s|] == s;
  }

  /** `Set.add` of the next condition: one not yet seen goes at the end. */
  method AddConditionAt(result: seq<string>, ghost before: seq<string>, conds: seq<string>, j: nat)
    returns (next: seq<string>)
    requires j < |conds| && result == Dedup(before + conds[..j])
    ensures next == Dedup(before + conds[..j + 1])
  {
    assert before + conds[..j + 1] == (before + conds[..j]) + [conds[j]];
    DedupSnoc(before + conds[..j], conds[j]);
    next := result;
    if conds[j] !in result {
      next := result + [conds[j]];
    }
  }

  /** The inner loop of aggregateWindow's Set of conditions: adds one
      forecast's conditions to those seen so far. */
  method AddConditions(seen: seq<string>, ghost before: seq<string>, conds: seq<string>)
    returns (result: seq<string>)
    requires seen == Dedup(before)
    ensures result == Dedup(before + conds)
  {
    result := seen;
    assert before + conds[..0] == before;
    for j := 0 to |conds|
      invariant result == Dedup(before + conds[..j])
    {
      result := AddConditionAt(result, before, conds, j);
    }
    assert conds[..|conds|] == conds;
  }

  /** The loop of aggregateWindow that adds every condition to a Set. */
  method CollectInvalidations(ws: seq<WindowPrediction>) returns (seen: seq<string>)
    ensures seen == Dedup(AllInvalidations(ws))
  {
    seen := [];
    for i := 0 to |ws|
      invariant seen == Dedup(AllInvalidations(ws[..i]))
    {
      seen := AddConditions(seen, AllInvalidations(ws[..i]), ws[i].invalidation);
      assert ws[..i + 1][..i] == ws[..i];
    }
    assert ws[..|ws|] == ws;
  }

  /** aggregateWindow: the consensus of one horizon across the models. */
  method AggregateWindow(ws: seq<WindowPrediction>) returns (a: AggregatedWindow)
    requires Normalisable(ws)
    ensures a == WindowConsensus(ws)
  {
    var n := |ws|;
    if n == 0 {
      return NeutralWindow;
    }
    var probUp := MeanOf(ws, ProbUp);
    var probDown := MeanOf(ws, ProbDown);
    var probFlat := MeanOf(ws, ProbFlat);
    var split := SharesOf(probUp, probDown, probFlat);
    var normalizedUp, normalizedDown, normalizedFlat := split.first, split.second, split.third;
    var probMove1pct := MeanOf(ws, ProbMove1);
    var probMove2pct := MeanOf(ws, ProbMove2);
    var confidence := Round(MeanOf(ws, Confidence));
    var conclusion := Outlook(LeanOf(normalizedUp, normalizedDown), VolatilityOf(probMove1pct, probMove2pct));
    var merged := MergeTopFactors(ws);
    var topFactors := Take(SortByStrength(merged), MaxTopFactors);
    var seen := CollectInvalidations(ws);
    a := AggregatedWindow(
      normalizedUp, normalizedDown, normalizedFlat,
      probMove1pct, probMove2pct, MeanOf(ws, ExpectedRange),
      confidence, conclusion, topFactors, Take(seen, MaxInvalidations));
  }

  /** The split sum of every forecast, in order. */
  function SplitSums(ws: seq<WindowPrediction>): (c: seq<real>)
    ensures |c| == |ws|
    ensures forall i :: 0 <= i < |ws| ==> c[i] == ws[i].SplitSum()
  {
    if ws == [] then [] else SplitSums(ws[..|ws| - 1]) + [ws[|ws| - 1].SplitSum()]
  }

  /** The column sums of the split add up to the sum of the forecasts' splits. */
  lemma {:induction false} SplitColumnsSum(ws: seq<WindowPrediction>)
    ensures Sum(Column(ws, ProbUp)) + Sum(Column(ws, ProbDown)) + Sum(Column(ws, ProbFlat)) == Sum(SplitSums(ws))
  {
    if ws != [] {
      var init := ws[..|ws| - 1];
      SplitColumnsSum(init);
      assert SplitSums(ws)[..|ws| - 1] == SplitSums(init);
      assert Column(ws, ProbUp)[..|ws| - 1] == Column(init, ProbUp);
      assert Column(ws, ProbDown)[..|ws| - 1] == Column(init, ProbDown);
      assert Column(ws, ProbFlat)[..|ws| - 1] == Column(init, ProbFlat);
    }
  }

  /** Forecasts that passed the parser can always be renormalised: their mean
      split is at least 0.99. */
  lemma ValidSplitsNormalisable(ws: seq<WindowPrediction>)
    requires forall i :: 0 <= i < |ws| ==> ValidSplit(ws[i])
    ensures Normalisable(ws)
  {
    if ws != [] {
      var n := |ws| as real;
      var total := Sum(SplitSums(ws));
      assert total / n > 0.0 by {
        SumBounds(SplitSums(ws), 1.0 - SplitTolerance, 1.0 + SplitTolerance);
        QuotientBounds(total, n, 1.0 - SplitTolerance, 1.0 + SplitTolerance);
      }
      SplitColumnsSum(ws);
      MeansAdd(Column(ws, ProbUp), Column(ws, ProbDown), Column(ws, ProbFlat), total);
    }
  }

  /** The mean of a field lies between any bounds its entries share: means of
      probabilities stay probabilities. */
  lemma MeanWithin(ws: seq<WindowPrediction>, f: Field, lo: real, hi: real)
    requires |ws| > 0
    requires forall i :: 0 <= i < |ws| ==> lo <= FieldOf(ws[i], f) <= hi
    ensures lo <= MeanOf(ws, f) <= hi
  {
    MeanBounds(Column(ws, f), lo, hi);
  }

  /** With non-negative inputs the renormalised split is a probability distribution. */
  lemma SplitIsDistribution(ws: seq<WindowPrediction>)
    requires |ws| > 0 && Normalisable(ws)
    requires forall i :: 0 <= i < |ws| ==> 0.0 <= ws[i].probUp && 0.0 <= ws[i].probDown && 0.0 <= ws[i].probFlat
    ensures var a := WindowConsensus(ws);
      0.0 <= a.probUp <= 1.0 && 0.0 <= a.probDown <= 1.0 && 0.0 <= a.probFlat <= 1.0
  {
    MeanNonNegative(ws, ProbUp);
    MeanNonNegative(ws, ProbDown);
    MeanNonNegative(ws, ProbFlat);
    SharesAreFractions(MeanOf(ws, ProbUp), MeanOf(ws, ProbDown), MeanOf(ws, ProbFlat));
  }

  lemma MeanNonNegative(ws: seq<WindowPrediction>, f: Field)
    requires |ws| > 0
    requires forall i :: 0 <= i < |ws| ==> 0.0 <= FieldOf(ws[i], f)
    ensures 0.0 <= MeanOf(ws, f)
  {
    SumNonNegative(Column(ws, f));
  }

  /** When every model gives the same forecast with a split summing to 1,
      the consensus is that forecast. */
  lemma IdenticalForecastsAggregateToThemselves(ws: seq<WindowPrediction>, w: WindowPrediction)
    requires |ws| > 0 && forall i :: 0 <= i < |ws| ==> ws[i] == w
    requires w.SplitSum() == 1.0
    ensures Normalisable(ws)
    ensures var a := WindowConsensus(ws);
      && a.probUp == w.probUp && a.probDown == w.probDown && a.probFlat == w.probFlat
      && a.probMove1pct == w.probMove1pct && a.probMove2pct == w.probMove2pct
      && a.expectedRangePct == w.expectedRangePct
      && a.confidence == Round(w.confidence)
  {
    IdenticalSplit(ws, w);
    ConsensusFields(ws);
    IdenticalMove1(ws, w);
    IdenticalMove2(ws, w);
    IdenticalRange(ws, w);
    IdenticalConfidence(ws, w);
  }

  lemma IdenticalMove1(ws: seq<WindowPrediction>, w: WindowPrediction)
    requires |ws| > 0 && forall i :: 0 <= i < |ws| ==> ws[i] == w
    requires Normalisable(ws)
    ensures WindowConsensus(ws).probMove1pct == w.probMove1pct
  {
    MeanOfIdentical(ws, w, ProbMove1);
    ConsensusFieldIs(ws, ProbMove1, w.probMove1pct);
  }

  lemma IdenticalMove2(ws: seq<WindowPrediction>, w: WindowPrediction)
    requires |ws| > 0 && forall i :: 0 <= i < |ws| ==> ws[i] == w
    requires Normalisable(ws)
    ensures WindowConsensus(ws).probMove2pct == w.probMove2pct
  {
    MeanOfIdentical(ws, w, ProbMove2);
    ConsensusFieldIs(ws, ProbMove2, w.probMove2pct);
  }

  lemma IdenticalRange(ws: seq<WindowPrediction>, w: WindowPrediction)
    requires |ws| > 0 && forall i :: 0 <= i < |ws| ==> ws[i] == w
    requires Normalisable(ws)
    ensures WindowConsensus(ws).expectedRangePct == w.expectedRangePct
  {
    MeanOfIdentical(ws, w, ExpectedRange);
    ConsensusFieldIs(ws, ExpectedRange, w.expectedRangePct);
  }

  lemma IdenticalConfidence(ws: seq<WindowPrediction>, w: WindowPrediction)
    requires |ws| > 0 && forall i :: 0 <= i < |ws| ==> ws[i] == w
    requires Normalisable(ws)
    ensures WindowConsensus(ws).confidence == Round(w.confidence)
  {
    MeanOfIdentical(ws, w, Confidence);
    ConsensusFieldIs(ws, Confidence, w.confidence);
  }

  lemma ConsensusFieldIs(ws: seq<WindowPrediction>, f: Field, v: real)
    requires ws != [] && Normalisable(ws) && MeanOf(ws, f) == v
    ensures f == ProbMove1 ==> WindowConsensus(ws).probMove1pct == v
    ensures f == ProbMove2 ==> WindowConsensus(ws).probMove2pct == v
    ensures f == ExpectedRange ==> WindowConsensus(ws).expectedRangePct == v
    ensures f == Confidence ==> WindowConsensus(ws).confidence == Round(v)
  {
    ConsensusFields(ws);
  }

  /** The numeric fields of a non-empty consensus are the averages of the forecasts'. */
  lemma ConsensusFields(ws: seq<WindowPrediction>)
    requires ws != [] && Normalisable(ws)
    ensures var a := WindowConsensus(ws);
      var split := SharesOf(MeanOf(ws, ProbUp), MeanOf(ws, ProbDown), MeanOf(ws, ProbFlat));
      && a.probUp == split.first && a.probDown == split.second && a.probFlat == split.third
      && a.probMove1pct == MeanOf(ws, ProbMove1) && a.probMove2pct == MeanOf(ws, ProbMove2)
      && a.expectedRangePct == MeanOf(ws, ExpectedRange)
      && a.confidence == Round(MeanOf(ws, Confidence))
  {
  }

  /** The averaged split of identical forecasts is their split, and it needs no rescaling. */
  lemma IdenticalSplit(ws: seq<WindowPrediction>, w: WindowPrediction)
    requires |ws| > 0 && forall i :: 0 <= i < |ws| ==> ws[i] == w
    requires w.SplitSum() == 1.0
    ensures Normalisable(ws)
    ensures SharesOf(MeanOf(ws, ProbUp), MeanOf(ws, ProbDown), MeanOf(ws, ProbFlat)) == Shares(w.probUp, w.probDown, w.probFlat)
  {
    MeanOfIdentical(ws, w, ProbUp);
    MeanOfIdentical(ws, w, ProbDown);
    MeanOfIdentical(ws, w, ProbFlat);
    SharesOfUnitSum(w.probUp, w.probDown, w.probFlat);
  }

  lemma MeanOfIdentical(ws: seq<WindowPrediction>, w: WindowPrediction, f: Field)
    requires |ws| > 0 && forall i :: 0 <= i < |ws| ==> ws[i] == w
    ensures MeanOf(ws, f) == FieldOf(w, f)
  {
    MeanOfConstant(Column(ws, f), FieldOf(w, f));
  }

  // ---------------------------------------------------------------- predictions

  /** The per-model summary kept for display: the split and confidence of each horizon. */
  datatype SplitView = SplitView(probUp: real, probDown: real, probFlat: real, confidence: real)

  function ViewOf(w: WindowPrediction): SplitView {
    SplitView(w.probUp, w.probDown, w.probFlat, w.confidence)
  }

  datatype ModelOutput = ModelOutput(name: string, h1: SplitView, h4: SplitView, h24: SplitView, reasoning: string)

  datatype AggregatedPrediction = AggregatedPrediction(
    h1: AggregatedWindow,
    h4: AggregatedWindow,
    h24: AggregatedWindow,
    consensusStrength: int,
    divergenceSummary: seq<Divergence>,
    aiOutputs: seq<ModelOutput>)
  {
    function Window(w: WindowType): AggregatedWindow {
      match w
      case H1 => h1
      case H4 => h4
      case H24 => h24
    }
  }

  /** Every result that takes part carries forecasts whose splits passed the parser. */
  predicate ParsedResults(results: seq<AIResult>) {
    forall r :: r in results && Usable(r) ==>
      ValidSplit(r.data.value.h1) && ValidSplit(r.data.value.h4) && ValidSplit(r.data.value.h24)
  }

  lemma ParsedHorizonsNormalisable(results: seq<AIResult>, w: WindowType)
    requires ParsedResults(results)
    ensures Normalisable(Horizon(Successes(results), w))
  {
    var succ := Successes(results);
    var ws := Horizon(succ, w);
    forall i | 0 <= i < |ws|
      ensures ValidSplit(ws[i])
    {
      assert succ[i] in succ;
    }
    ValidSplitsNormalisable(ws);
  }

  /** aggregatePredictions: every horizon aggregated over the successful
      models, the consensus strength, the divergence summary and one display
      summary per successful model. */
  method AggregatePredictions(results: seq<AIResult>, sqrt: real -> real) returns (p: AggregatedPrediction)
    requires IsSqrt(sqrt)
    requires ParsedResults(results)
    ensures Normalisable(Horizon(Successes(results), H1)) && p.h1 == WindowConsensus(Horizon(Successes(results), H1))
    ensures Normalisable(Horizon(Successes(results), H4)) && p.h4 == WindowConsensus(Horizon(Successes(results), H4))
    ensures Normalisable(Horizon(Successes(results), H24)) && p.h24 == WindowConsensus(Horizon(Successes(results), H24))
    ensures p.consensusStrength == Strength(results, sqrt)
    ensures p.divergenceSummary == DivergenceSummary(results)
    ensures |p.aiOutputs| == |Successes(results)|
    ensures forall i :: 0 <= i < |p.aiOutputs| ==>
      var s := Successes(results)[i];
      p.aiOutputs[i] == ModelOutput(s.name, ViewOf(s.data.h1), ViewOf(s.data.h4), ViewOf(s.data.h24), s.data.reasoning)
  {
    var h1, h4, h24 := AggregateHorizons(results);
    var strength := ConsensusStrength(results, sqrt);
    p := AggregatedPrediction(h1, h4, h24, strength, DivergenceSummary(results), ModelOutputs(Successes(results)));
  }

  /** The three `aggregateWindow` calls of aggregatePredictions. */
  method AggregateHorizons(results: seq<AIResult>) returns (h1: AggregatedWindow, h4: AggregatedWindow, h24: AggregatedWindow)
    requires ParsedResults(results)
    ensures Normalisable(Horizon(Successes(results), H1)) && h1 == WindowConsensus(Horizon(Successes(results), H1))
    ensures Normalisable(Horizon(Successes(results), H4)) && h4 == WindowConsensus(Horizon(Successes(results), H4))
    ensures Normalisable(Horizon(Successes(results), H24)) && h24 == WindowConsensus(Horizon(Successes(results), H24))
  {
    ParsedHorizonsNormalisable(results, H1);
    h1 := AggregateWindow(Horizon(Successes(results), H1));
    ParsedHorizonsNormalisable(results, H4);
    h4 := AggregateWindow(Horizon(Successes(results), H4));
    ParsedHorizonsNormalisable(results, H24);
    h24 := AggregateWindow(Horizon(Successes(results), H24));
  }

  /** The per-model summaries, one per usable result, in order. */
  function ModelOutputs(succ: seq<Success>): (outs: seq<ModelOutput>)
    ensures |outs| == |succ|
    ensures forall i :: 0 <= i < |succ| ==>
      outs[i] == ModelOutput(succ[i].name, ViewOf(succ[i].data.h1), ViewOf(succ[i].data.h4), ViewOf(succ[i].data.h24), succ[i].data.reasoning)
  {
    seq(|succ|, i requires 0 <= i < |succ| =>
      ModelOutput(succ[i].name, ViewOf(succ[i].data.h1), ViewOf(succ[i].data.h4), ViewOf(succ[i].data.h24), succ[i].data.reasoning))
  }

  /** With no usable result every horizon is the neutral window, the strength
      is 0 and nothing diverges. */
  lemma NoSuccessesGiveNeutralPrediction(results: seq<AIResult>, sqrt: real -> real)
    requires IsSqrt(sqrt)
    requires forall r :: r in results ==> !Usable(r)
    ensures Successes(results) == []
    ensures forall w :: WindowConsensus(Horizon(Successes(results), w)) == NeutralWindow
    ensures Strength(results, sqrt) == 0 && DivergenceSummary(results) == []
  {
  }
}
