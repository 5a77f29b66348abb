/** How far the models agree: calculateConsensusStrength (direction agreement
    and the spread of the up/down probabilities across the three horizons)
    and generateDivergenceSummary (the disagreements worth reporting on the
    4h horizon). Both look only at the successful results that carry data. */
module Consensus {
  import opened Shapes
  import opened Numeric
  import opened Lists

  /** A standard deviation of this size or more counts as no consistency at all. */
  const SpreadCeiling: real := 0.3
  const AgreementWeight: real := 0.6
  const ConsistencyWeight: real := 0.4
  /** Confidence points (on the 0-100 scale) between the most and least confident model. */
  const ConfidenceGapLimit: real := 20.0
  const RangeRatioLimit: real := 1.5
  const RangeGapLimit: real := 0.5
  const MaxDivergences: nat := 3

  /** A model whose call succeeded and whose reply parsed. */
  datatype Success = Success(name: string, data: Response)

  /** `aiResults.filter(r => r.success && r.data)`, with the data unwrapped. */
  function Successes(results: seq<AIResult>): (s: seq<Success>)
    ensures |s| <= |results|
    ensures forall x :: x in s ==> exists r :: r in results && Usable(r) && x == Success(r.name, r.data.value)
    ensures s == [] <==> forall r :: r in results ==> !Usable(r)
  {
    if results == [] then []
    else
      var rest := Successes(results[..|results| - 1]);
      var r := results[|results| - 1];
      assert forall x :: x in results[..|results| - 1] ==> x in results;
      if Usable(r) then rest + [Success(r.name, r.data.value)] else rest
  }

  /** The horizon `w` of every successful model, in model order. */
  function Horizon(succ: seq<Success>, w: WindowType): (ws: seq<WindowPrediction>)
    ensures |ws| == |succ|
    ensures forall i :: 0 <= i < |succ| ==> ws[i] == succ[i].data.Window(w)
  {
    seq(|succ|, i requires 0 <= i < |succ| => succ[i].data.Window(w))
  }

  // ---------------------------------------------------------------- agreement

  /** A forecast's direction: the side whose probability is strictly the
      largest, and flat whenever up or down does not strictly win. */
  function ModelDirection(w: WindowPrediction): Direction {
    if w.probUp > w.probDown && w.probUp > w.probFlat then Up
    else if w.probDown > w.probUp && w.probDown > w.probFlat then Down
    else Flat
  }

  /** How many models point in direction `d` on horizon `w`. */
  function CountDirection(succ: seq<Success>, w: WindowType, d: Direction): (c: nat)
    ensures c <= |succ|
  {
    if succ == [] then 0
    else
      CountDirection(succ[..|succ| - 1], w, d)
      + (if ModelDirection(succ[|succ| - 1].data.Window(w)) == d then 1 else 0)
  }

  /** Every model points in exactly one direction. */
  lemma {:induction false} CountsPartition(succ: seq<Success>, w: WindowType)
    ensures CountDirection(succ, w, Up) + CountDirection(succ, w, Down) + CountDirection(succ, w, Flat) == |succ|
  {
    if succ != [] {
      CountsPartition(succ[..|succ| - 1], w);
    }
  }

  /** All models point in direction `d` exactly when the count for `d` is all of them. */
  lemma {:induction false} FullCountIffUnanimous(succ: seq<Success>, w: WindowType, d: Direction)
    ensures CountDirection(succ, w, d) == |succ| <==>
            forall i :: 0 <= i < |succ| ==> ModelDirection(succ[i].data.Window(w)) == d
  {
    if succ != [] {
      var init := succ[..|succ| - 1];
      FullCountIffUnanimous(init, w, d);
      assert forall i :: 0 <= i < |init| ==> init[i] == succ[i];
    }
  }

  /** `Math.max(counts.up, counts.down, counts.flat)`. */
  function MajorityCount(succ: seq<Success>, w: WindowType): (m: nat)
    ensures m == CountDirection(succ, w, Up) || m == CountDirection(succ, w, Down) || m == CountDirection(succ, w, Flat)
    ensures m >= CountDirection(succ, w, Up) && m >= CountDirection(succ, w, Down) && m >= CountDirection(succ, w, Flat)
  {
    var up, down, flat := CountDirection(succ, w, Up), CountDirection(succ, w, Down), CountDirection(succ, w, Flat);
    if up >= down && up >= flat then up else if down >= flat then down else flat
  }

  /** A share m/n of n items lies between 1/3 and 1 when 3m >= n and m <= n. */
  lemma ShareBounds(m: nat, n: nat)
    requires 0 < n && n <= 3 * m && m <= n
    ensures 1.0 / 3.0 <= m as real / n as real <= 1.0
  {
    QuotientBounds(m as real, n as real, 1.0 / 3.0, 1.0);
  }

  /** A share m/n is 1 exactly when m = n. */
  lemma ShareIsOne(m: nat, n: nat)
    requires 0 < n
    ensures m as real / n as real == 1.0 <==> m == n
  {
    var q := m as real / n as real;
    assert q * n as real == m as real;
  }

  /** The share of models in the largest direction camp on horizon `w`:
      at least a third, since three camps hold all the models. */
  function Agreement(succ: seq<Success>, w: WindowType): (a: real)
    requires |succ| > 0
    ensures 1.0 / 3.0 <= a <= 1.0
  {
    CountsPartition(succ, w);
    ShareBounds(MajorityCount(succ, w), |succ|);
    MajorityCount(succ, w) as real / |succ| as real
  }

  /** All models give horizon `w` the same direction. */
  predicate Unanimous(succ: seq<Success>, w: WindowType)
    requires |succ| > 0
  {
    forall i :: 0 <= i < |succ| ==> ModelDirection(succ[i].data.Window(w)) == ModelDirection(succ[0].data.Window(w))
  }

  /** Agreement is 1 exactly when all models point the same way. */
  lemma AgreementIsOneIffUnanimous(succ: seq<Success>, w: WindowType)
    requires |succ| > 0
    ensures Agreement(succ, w) == 1.0 <==> Unanimous(succ, w)
  {
    var m := MajorityCount(succ, w);
    ShareIsOne(m, |succ|);
    var d0 := ModelDirection(succ[0].data.Window(w));
    FullCountIffUnanimous(succ, w, d0);
    var d := if m == CountDirection(succ, w, Up) then Up
             else if m == CountDirection(succ, w, Down) then Down else Flat;
    assert m == CountDirection(succ, w, d);
    FullCountIffUnanimous(succ, w, d);
  }

  /** The per-horizon agreements, in the order 1h, 4h, 24h. */
  function Agreements(succ: seq<Success>): (a: seq<real>)
    requires |succ| > 0
    ensures |a| == 3
  {
    seq(3, k requires 0 <= k < 3 => Agreement(succ, AllWindows[k]))
  }

  // ---------------------------------------------------------------- spread

  function UpColumn(succ: seq<Success>, w: WindowType): seq<real> {
    seq(|succ|, i requires 0 <= i < |succ| => succ[i].data.Window(w).probUp)
  }

  function DownColumn(succ: seq<Success>, w: WindowType): seq<real> {
    seq(|succ|, i requires 0 <= i < |succ| => succ[i].data.Window(w).probDown)
  }

  /** The six standard deviations, up then down for each of 1h, 4h, 24h. */
  function Spreads(succ: seq<Success>, sqrt: real -> real): (s: seq<real>)
    requires IsSqrt(sqrt)
    ensures |s| == 6
    ensures forall k :: 0 <= k < 6 ==> 0.0 <= s[k]
  {
    seq(6, k requires 0 <= k < 6 =>
      StdDev(if k % 2 == 0 then UpColumn(succ, AllWindows[k / 2]) else DownColumn(succ, AllWindows[k / 2]), sqrt))
  }

  /** `Math.max(0, 1 - avgStdDev / 0.3)`. */
  function Consistency(avgSpread: real): (c: real)
    ensures 0.0 <= c
    ensures 0.0 <= avgSpread ==> c <= 1.0
    ensures avgSpread == 0.0 ==> c == 1.0
    ensures avgSpread >= SpreadCeiling ==> c == 0.0
  {
    Max(0.0, 1.0 - avgSpread / SpreadCeiling)
  }

  /** The mean agreement lies between 1/3 and 1. */
  lemma MeanAgreementBounds(succ: seq<Success>)
    requires |succ| > 0
    ensures 1.0 / 3.0 <= Sum(Agreements(succ)) / 3.0 <= 1.0
  {
    SumBounds(Agreements(succ), 1.0 / 3.0, 1.0);
  }

  /** The mean spread is never negative. */
  lemma MeanSpreadNonNegative(succ: seq<Success>, sqrt: real -> real)
    requires IsSqrt(sqrt)
    ensures 0.0 <= Sum(Spreads(succ, sqrt)) / 6.0
  {
    SumNonNegative(Spreads(succ, sqrt));
  }

  /** The weighted mix of an agreement in [1/3, 1] and a consistency in
      [0, 1], on the 0-100 scale. */
  function Mix(agreement: real, consistency: real): (s: int)
    requires 1.0 / 3.0 <= agreement <= 1.0 && 0.0 <= consistency <= 1.0
    ensures 20 <= s <= 100
  {
    Round((agreement * AgreementWeight + consistency * ConsistencyWeight) * 100.0)
  }

  /** calculateConsensusStrength as a function: 0 below two successful
      models, otherwise the rounded weighted mix of the mean agreement and
      the consistency of the probabilities, which lies between 20 and 100. */
  function Strength(results: seq<AIResult>, sqrt: real -> real): (s: int)
    requires IsSqrt(sqrt)
    ensures 0 <= s <= 100
    ensures |Successes(results)| < 2 <==> s == 0
    ensures |Successes(results)| >= 2 ==> 20 <= s
  {
    var succ := Successes(results);
    if |succ| < 2 then 0
    else
      MeanAgreementBounds(succ);
      MeanSpreadNonNegative(succ, sqrt);
      Mix(Sum(Agreements(succ)) / 3.0, Consistency(Sum(Spreads(succ, sqrt)) / 6.0))
  }

  /** Two or more models with identical outputs give full strength. */
  lemma IdenticalOutputsGiveFullStrength(results: seq<AIResult>, sqrt: real -> real)
    requires IsSqrt(sqrt)
    requires |Successes(results)| >= 2
    requires forall i :: 0 <= i < |Successes(results)| ==> Successes(results)[i].data == Successes(results)[0].data
    ensures Strength(results, sqrt) == 100
  {
    var succ := Successes(results);
    var same := succ[0].data;
    forall k | 0 <= k < 3
      ensures Agreements(succ)[k] == 1.0
    {
      AgreementIsOneIffUnanimous(succ, AllWindows[k]);
    }
    SumOfConstant(Agreements(succ), 1.0);
    forall k | 0 <= k < 6
      ensures Spreads(succ, sqrt)[k] == 0.0
    {
      var w := AllWindows[k / 2];
      StdDevOfConstant(UpColumn(succ, w), same.Window(w).probUp, sqrt);
      StdDevOfConstant(DownColumn(succ, w), same.Window(w).probDown, sqrt);
    }
    SumOfConstant(Spreads(succ, sqrt), 0.0);
  }

  /** The loops of calculateConsensusStrength: count directions per horizon,
      then collect the six standard deviations, then mix. */
  method ConsensusStrength(results: seq<AIResult>, sqrt: real -> real) returns (strength: int)
    requires IsSqrt(sqrt)
    ensures strength == Strength(results, sqrt)
  {
    var succ := Successes(results);
    if |succ| < 2 {
      return 0;
    }
    var windowConsensus := WindowAgreements(succ);
    var avgConsensus := Sum(windowConsensus) / 3.0;
    var probSpreads := ProbabilitySpreads(succ, sqrt);
    var avgSpread := Sum(probSpreads) / 6.0;
    var consistency := Max(0.0, 1.0 - avgSpread / SpreadCeiling);
    strength := Round((avgConsensus * AgreementWeight + consistency * ConsistencyWeight) * 100.0);
    assert strength == Mix(avgConsensus, Consistency(avgSpread)) by {
      MeanAgreementBounds(succ);
      MeanSpreadNonNegative(succ, sqrt);
    }
  }

  /** The counting loop over the models for one horizon. */
  method CountDirections(succ: seq<Success>, w: WindowType) returns (up: nat, down: nat, flat: nat)
    ensures up == CountDirection(succ, w, Up)
    ensures down == CountDirection(succ, w, Down)
    ensures flat == CountDirection(succ, w, Flat)
  {
    up, down, flat := 0, 0, 0;
    for i := 0 to |succ|
      invariant up == CountDirection(succ[..i], w, Up)
      invariant down == CountDirection(succ[..i], w, Down)
      invariant flat == CountDirection(succ[..i], w, Flat)
    {
      assert succ[..i + 1][..i] == succ[..i];
      match ModelDirection(succ[i].data.Window(w))
      case Up => up := up + 1;
      case Down => down := down + 1;
      case Flat => flat := flat + 1;
    }
    assert succ[..|succ|] == succ;
  }

  /** The per-horizon loop: the largest camp's share on 1h, 4h and 24h. */
  method WindowAgreements(succ: seq<Success>) returns (windowConsensus: seq<real>)
    requires |succ| > 0
    ensures windowConsensus == Agreements(succ)
  {
    windowConsensus := [];
    for k := 0 to 3
      invariant windowConsensus == Agreements(succ)[..k]
    {
      var up, down, flat := CountDirections(succ, AllWindows[k]);
      var maxCount := if up >= down && up >= flat then up else if down >= flat then down else flat;
      assert maxCount == MajorityCount(succ, AllWindows[k]);
      windowConsensus := windowConsensus + [maxCount as real / |succ| as real];
    }
  }

  /** The loop collecting the standard deviations of the up and down
      probabilities on each horizon. */
  method ProbabilitySpreads(succ: seq<Success>, sqrt: real -> real) returns (probSpreads: seq<real>)
    requires IsSqrt(sqrt)
    ensures probSpreads == Spreads(succ, sqrt)
  {
    probSpreads := [];
    for k := 0 to 3
      invariant probSpreads == Spreads(succ, sqrt)[..2 * k]
    {
      var w := AllWindows[k];
      probSpreads := probSpreads + [StdDev(UpColumn(succ, w), sqrt), StdDev(DownColumn(succ, w), sqrt)];
    }
  }

  // ---------------------------------------------------------------- divergence

  /** One disagreement worth reporting, in the order they are checked. */
  datatype Divergence =
    | CampSplit(bullish: seq<string>, bearish: seq<string>)
    | ConfidenceGap(highModel: string, highConfidence: real, lowModel: string, lowConfidence: real)
    | RangeGap(highModel: string, highRange: real, lowModel: string, lowRange: real)
  {
    function Rank(): nat {
      match this
      case CampSplit(_, _) => 0
      case ConfidenceGap(_, _, _, _) => 1
      case RangeGap(_, _, _, _) => 2
    }
  }

  /** The 4h lean of a successful model. */
  function LeanOn4h(s: Success): Lean {
    LeanOf(s.data.h4.probUp, s.data.h4.probDown)
  }

  /** The names of the models leaning `lean` on 4h, in model order. */
  function NamesLeaning(succ: seq<Success>, lean: Lean): seq<string> {
    if succ == [] then []
    else
      var last := succ[|succ| - 1];
      NamesLeaning(succ[..|succ| - 1], lean) + (if LeanOn4h(last) == lean then [last.name] else [])
  }

  /** Some model is named exactly when some model leans `lean`, and every
      such model is named. */
  lemma {:induction false} NamesLeaningSpec(succ: seq<Success>, lean: Lean)
    ensures |NamesLeaning(succ, lean)| <= |succ|
    ensures |NamesLeaning(succ, lean)| > 0 <==> exists i :: 0 <= i < |succ| && LeanOn4h(succ[i]) == lean
    ensures forall i :: 0 <= i < |succ| && LeanOn4h(succ[i]) == lean ==> succ[i].name in NamesLeaning(succ, lean)
  {
    if succ != [] {
      var init, last := succ[..|succ| - 1], succ[|succ| - 1];
      assert forall i :: 0 <= i < |init| ==> init[i] == succ[i];
      NamesLeaningSpec(init, lean);
    }
  }

  /** Only models leaning `lean` are named. */
  lemma {:induction false} NamesLeaningOnly(succ: seq<Success>, lean: Lean)
    ensures forall n :: n in NamesLeaning(succ, lean) ==>
      exists i :: 0 <= i < |succ| && LeanOn4h(succ[i]) == lean && succ[i].name == n
  {
    if succ != [] {
      var init, last := succ[..|succ| - 1], succ[|succ| - 1];
      NamesLeaningOnly(init, lean);
      forall n | n in NamesLeaning(init, lean)
        ensures exists i :: 0 <= i < |succ| && LeanOn4h(succ[i]) == lean && succ[i].name == n
      {
        var i :| 0 <= i < |init| && LeanOn4h(init[i]) == lean && init[i].name == n;
        assert succ[i] == init[i];
      }
    }
  }

  /** The names come in model order: naming the models of a concatenation
      concatenates the names of the parts. */
  lemma {:induction false} NamesLeaningAppend(a: seq<Success>, b: seq<Success>, lean: Lean)
    ensures NamesLeaning(a + b, lean) == NamesLeaning(a, lean) + NamesLeaning(b, lean)
  {
    if b == [] {
      assert a + b == a;
    } else {
      var init, last := b[..|b| - 1], b[|b| - 1];
      var tail := if LeanOn4h(last) == lean then [last.name] else [];
      assert (a + b)[..|a + b| - 1] == a + init && (a + b)[|a + b| - 1] == last;
      assert NamesLeaning(a + b, lean) == NamesLeaning(a + init, lean) + tail;
      assert NamesLeaning(b, lean) == NamesLeaning(init, lean) + tail;
      NamesLeaningAppend(a, init, lean);
    }
  }

  function Confidences4h(succ: seq<Success>): (c: seq<real>)
    ensures |c| == |succ|
  {
    seq(|succ|, i requires 0 <= i < |succ| => succ[i].data.h4.confidence)
  }

  function Ranges4h(succ: seq<Success>): (c: seq<real>)
    ensures |c| == |succ|
  {
    seq(|succ|, i requires 0 <= i < |succ| => succ[i].data.h4.expectedRangePct)
  }

  /** The camp split, when some model leans bullish and another bearish on 4h. */
  function CampEntries(succ: seq<Success>): (r: seq<Divergence>)
    ensures |r| <= 1 && forall k :: 0 <= k < |r| ==> r[k].Rank() == 0
    ensures |r| == 1 <==>
      exists i, j :: 0 <= i < |succ| && 0 <= j < |succ| && LeanOn4h(succ[i]) == Bullish && LeanOn4h(succ[j]) == Bearish
  {
    var bulls, bears := NamesLeaning(succ, Bullish), NamesLeaning(succ, Bearish);
    NamesLeaningSpec(succ, Bullish);
    NamesLeaningSpec(succ, Bearish);
    if |bulls| > 0 && |bears| > 0 then [CampSplit(bulls, bears)] else []
  }

  /** The confidence gap, when the most and least confident models differ by
      more than 20 points; it names the first model holding each extreme. */
  function ConfidenceEntries(succ: seq<Success>): (r: seq<Divergence>)
    requires |succ| > 0
    ensures |r| <= 1 && forall k :: 0 <= k < |r| ==> r[k].Rank() == 1
  {
    var confs := Confidences4h(succ);
    var hi, lo := MaxOf(confs), MinOf(confs);
    if hi - lo > ConfidenceGapLimit
    then [ConfidenceGap(succ[FirstIndex(confs, hi)].name, hi, succ[FirstIndex(confs, lo)].name, lo)]
    else []
  }

  /** The range gap, when the widest expected range is more than 1.5 times
      and more than 0.5 points above the narrowest. */
  function RangeEntries(succ: seq<Success>): (r: seq<Divergence>)
    requires |succ| > 0
    ensures |r| <= 1 && forall k :: 0 <= k < |r| ==> r[k].Rank() == 2
  {
    var ranges := Ranges4h(succ);
    var hi, lo := MaxOf(ranges), MinOf(ranges);
    if hi > lo * RangeRatioLimit && hi - lo > RangeGapLimit
    then [RangeGap(succ[FirstIndex(ranges, hi)].name, hi, succ[FirstIndex(ranges, lo)].name, lo)]
    else []
  }

  /** Three parts of at most one entry each, of rank 0, 1 and 2, concatenate
      to a sequence whose ranks strictly increase. */
  lemma OrderedByRank(a: seq<Divergence>, b: seq<Divergence>, c: seq<Divergence>)
    requires |a| <= 1 && forall k :: 0 <= k < |a| ==> a[k].Rank() == 0
    requires |b| <= 1 && forall k :: 0 <= k < |b| ==> b[k].Rank() == 1
    requires |c| <= 1 && forall k :: 0 <= k < |c| ==> c[k].Rank() == 2
    ensures forall i, j :: 0 <= i < j < |a + b + c| ==> (a + b + c)[i].Rank() < (a + b + c)[j].Rank()
  {
    var all := a + b + c;
    assert forall k :: 0 <= k < |all| ==> all[k].Rank() == (if k < |a| then 0 else if k < |a| + |b| then 1 else 2);
  }

  /** generateDivergenceSummary: the camp split, the confidence gap and the
      range gap, each reported only when it occurs, in that order, at most
      three entries. */
  function DivergenceSummary(results: seq<AIResult>): (r: seq<Divergence>)
    ensures |r| <= MaxDivergences
    ensures |Successes(results)| < 2 ==> r == []
    ensures forall i, j :: 0 <= i < j < |r| ==> r[i].Rank() < r[j].Rank()
  {
    var succ := Successes(results);
    if |succ| < 2 then []
    else
      var a, b, c := CampEntries(succ), ConfidenceEntries(succ), RangeEntries(succ);
      OrderedByRank(a, b, c);
      Take(a + b + c, MaxDivergences)
  }

  /** A confidence gap is reported exactly when two models' 4h confidences
      differ by more than 20 points. */
  lemma ConfidenceGapCondition(succ: seq<Success>)
    requires |succ| > 0
    ensures |ConfidenceEntries(succ)| == 1 <==>
      exists i, j :: 0 <= i < |succ| && 0 <= j < |succ| &&
        succ[i].data.h4.confidence - succ[j].data.h4.confidence > ConfidenceGapLimit
  {
    var confs := Confidences4h(succ);
    var hi, lo := MaxOf(confs), MinOf(confs);
    var ih := FirstIndex(confs, hi);
    var il := FirstIndex(confs, lo);
    assert confs[ih] == succ[ih].data.h4.confidence && confs[il] == succ[il].data.h4.confidence;
    forall i, j | 0 <= i < |succ| && 0 <= j < |succ|
      ensures succ[i].data.h4.confidence <= hi && lo <= succ[j].data.h4.confidence
    {
      assert confs[i] == succ[i].data.h4.confidence && confs[j] == succ[j].data.h4.confidence;
    }
  }

  /** A range gap is reported exactly when some model's 4h expected range is
      more than 1.5 times and more than 0.5 points above another's. */
  lemma RangeGapCondition(succ: seq<Success>)
    requires |succ| > 0
    ensures |RangeEntries(succ)| == 1 <==>
      exists i, j :: 0 <= i < |succ| && 0 <= j < |succ| &&
        succ[i].data.h4.expectedRangePct > succ[j].data.h4.expectedRangePct * RangeRatioLimit &&
        succ[i].data.h4.expectedRangePct - succ[j].data.h4.expectedRangePct > RangeGapLimit
  {
    var ranges := Ranges4h(succ);
    var hi, lo := MaxOf(ranges), MinOf(ranges);
    var ih := FirstIndex(ranges, hi);
    var il := FirstIndex(ranges, lo);
    assert ranges[ih] == succ[ih].data.h4.expectedRangePct && ranges[il] == succ[il].data.h4.expectedRangePct;
    forall i, j | 0 <= i < |succ| && 0 <= j < |succ|
      ensures succ[i].data.h4.expectedRangePct <= hi && lo <= succ[j].data.h4.expectedRangePct
    {
      assert ranges[i] == succ[i].data.h4.expectedRangePct && ranges[j] == succ[j].data.h4.expectedRangePct;
    }
  }

  /** With two or more successful models, the summary is exactly the entries
      whose conditions hold, in the order camp split, confidence gap, range gap. */
  lemma DivergenceSummaryParts(results: seq<AIResult>)
    requires |Successes(results)| >= 2
    ensures var succ := Successes(results);
      DivergenceSummary(results) == CampEntries(succ) + ConfidenceEntries(succ) + RangeEntries(succ)
  {
  }
}
