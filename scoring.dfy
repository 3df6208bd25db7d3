/** The values an entity of src/scraper.cpp carries (Signal, PerformanceMetrics,
    RankScores, Modality) and the pure definitions the mutating methods of
    ModelEntity are proved against: signal fusion, the recency tier, the
    confidence score with its reason string, and the eight rank projections. */
module Scoring {
  import opened Utils

  datatype Modality = Text | Image | Video

  /** One weighted observation: where it came from, the score, the trust weight. */
  datatype Signal = Signal(source: string, score: real, weight: real)

  /** PerformanceMetrics. */
  datatype Metrics = Metrics(
    reasoningScore: real,
    codingScore: real,
    creativeScore: real,
    contextWindow: real,
    priceInput1m: real,
    tokensPerSec: real,
    isOpenSource: bool,
    isEnterpriseReady: bool,
    lastUpdatedDaysAgo: int,
    orgMaturity: real,
    uptimeSla: real,
    recencyBonus: int)

  /** The member initialisers of PerformanceMetrics. */
  const DefaultMetrics := Metrics(0.0, 0.0, 0.0, 0.0, 0.0, 0.0, false, false, 0, 0.0, 0.0, 0)

  datatype RankScores = RankScores(
    overall: real,
    value: real,
    coding: real,
    image: real,
    video: real,
    speed: real,
    confidence: real,
    enterprise: real)

  const ZeroRanks := RankScores(0.0, 0.0, 0.0, 0.0, 0.0, 0.0, 0.0, 0.0)

  // Config::Weights
  const OverallCore: real := 0.40
  const OverallCoding: real := 0.20
  const OverallCreative: real := 0.15
  const OverallConfidence: real := 0.15
  const OverallPrice: real := 0.10
  const ConfidenceBase: real := 50.0
  const ConfidenceSignalBonus: real := 10.0
  const ConfidenceRecencyBonus: real := 5.0
  const ConfidenceVersatileBonus: real := 10.0
  const ConfidenceVariancePenalty: real := 50.0

  // ---------------------------------------------------------------------------
  // Fusion (ModelEntity::ComputeAggregates)
  // ---------------------------------------------------------------------------

  /** Sum of score * weight, accumulated front to back. */
  function WeightedSum(s: seq<Signal>): real {
    if s == [] then 0.0 else WeightedSum(s[..|s| - 1]) + s[|s| - 1].score * s[|s| - 1].weight
  }

  /** Sum of the weights, accumulated front to back. */
  function TotalWeight(s: seq<Signal>): real {
    if s == [] then 0.0 else TotalWeight(s[..|s| - 1]) + s[|s| - 1].weight
  }

  /** final_score: the self-normalising weighted mean of the signals, 0 when
      there are none or when the weights do not sum to a positive value. */
  function FusedScore(s: seq<Signal>): real {
    if s == [] then 0.0
    else if 0.0 < TotalWeight(s) then WeightedSum(s) / TotalWeight(s)
    else 0.0
  }

  /** Every signal has a positive weight and a score in [lo, hi]. */
  predicate WellWeighted(s: seq<Signal>, lo: real, hi: real) {
    forall i :: 0 <= i < |s| ==> 0.0 < s[i].weight && lo <= s[i].score <= hi
  }

  /** The signal list after AddSignal: a non-positive score is dropped,
      anything else is appended with its score clamped to [0, 1]. */
  function WithSignal(s: seq<Signal>, source: string, score: real, weight: real): seq<Signal> {
    if score > 0.0 then s + [Signal(source, Clamp(score, 0.0, 1.0), weight)] else s
  }

  /** AddSignal keeps every kept score in (0, 1], so a list built only by
      AddSignal with positive weights always fuses to a score in [0, 1]. */
  lemma WithSignalKeepsUnitScores(s: seq<Signal>, source: string, score: real, weight: real)
    requires WellWeighted(s, 0.0, 1.0) && 0.0 < weight
    ensures WellWeighted(WithSignal(s, source, score, weight), 0.0, 1.0)
    ensures 0.0 <= FusedScore(WithSignal(s, source, score, weight)) <= 1.0
  {
    var r := WithSignal(s, source, score, weight);
    assert forall i :: 0 <= i < |s| ==> r[i] == s[i];
    FusedScoreInUnitRange(r);
  }

  lemma {:induction false} WeightedSumBounds(s: seq<Signal>, lo: real, hi: real)
    requires WellWeighted(s, lo, hi)
    ensures lo * TotalWeight(s) <= WeightedSum(s) <= hi * TotalWeight(s)
    ensures s != [] ==> 0.0 < TotalWeight(s)
  {
    if s != [] {
      var init, last := s[..|s| - 1], s[|s| - 1];
      assert WellWeighted(init, lo, hi) by {
        forall i | 0 <= i < |init| ensures 0.0 < init[i].weight && lo <= init[i].score <= hi {
          assert init[i] == s[i];
        }
      }
      WeightedSumBounds(init, lo, hi);
      assert 0.0 < last.weight && lo <= last.score <= hi;
      AddBounds(TotalWeight(init), last.weight, WeightedSum(init), last.score, lo, hi);
    }
  }

  /** One more weighted term keeps the weighted sum between lo and hi times
      the total weight. */
  lemma AddBounds(tw: real, w: real, ws: real, x: real, lo: real, hi: real)
    requires lo * tw <= ws <= hi * tw && 0.0 < w && lo <= x <= hi
    ensures lo * (tw + w) <= ws + x * w <= hi * (tw + w)
  {
    MultiplyMonotone(lo, x, w);
    MultiplyMonotone(x, hi, w);
    assert lo * (tw + w) == lo * tw + lo * w;
    assert hi * (tw + w) == hi * tw + hi * w;
  }

  lemma MultiplyMonotone(a: real, b: real, w: real)
    requires a <= b && 0.0 < w
    ensures a * w <= b * w
  {}

  /** The fused score is a convex combination: it lies between the smallest
      and the largest signal score whenever every weight is positive. */
  lemma FusedScoreIsConvex(s: seq<Signal>, lo: real, hi: real)
    requires s != [] && WellWeighted(s, lo, hi)
    ensures lo <= FusedScore(s) <= hi
  {
    WeightedSumBounds(s, lo, hi);
    assert FusedScore(s) == WeightedSum(s) / TotalWeight(s);
    QuotientBounds(WeightedSum(s), TotalWeight(s), lo, hi);
  }

  /** A sum between lo and hi times a positive total, divided by that total,
      lies between lo and hi. */
  lemma QuotientBounds(ws: real, tw: real, lo: real, hi: real)
    requires 0.0 < tw && lo * tw <= ws <= hi * tw
    ensures lo <= ws / tw <= hi
  {
    DivideMonotone(lo * tw, ws, tw);
    DivideMonotone(ws, hi * tw, tw);
    MultiplyDivide(lo, tw);
    MultiplyDivide(hi, tw);
  }

  lemma MultiplyDivide(a: real, d: real)
    requires d != 0.0
    ensures (a * d) / d == a
  {}

  lemma DivideMonotone(a: real, b: real, d: real)
    requires a <= b && 0.0 < d
    ensures a / d <= b / d
  {}

  lemma CancelCommonFactor(a: real, b: real, k: real)
    requires b != 0.0 && k != 0.0
    ensures (k * a) / (k * b) == a / b
  {
    var q := a / b;
    assert a == q * b;
    assert k * a == q * (k * b);
  }

  /** With positive weights and scores in [0,1], final_score is in [0,1]. */
  lemma FusedScoreInUnitRange(s: seq<Signal>)
    requires WellWeighted(s, 0.0, 1.0)
    ensures 0.0 <= FusedScore(s) <= 1.0
  {
    if s != [] {
      FusedScoreIsConvex(s, 0.0, 1.0);
    }
  }

  /** One signal with positive weight fuses to its own score. */
  lemma FusedScoreOfOne(sig: Signal)
    requires 0.0 < sig.weight
    ensures FusedScore([sig]) == sig.score
  {
    assert [sig][..0] == [];
    assert WeightedSum([sig]) == 1.0 * (sig.score * sig.weight);
    assert TotalWeight([sig]) == 1.0 * sig.weight;
    CancelCommonFactor(sig.score, 1.0, sig.weight);
  }

  /** The signals with every weight multiplied by k. */
  function ScaleWeights(s: seq<Signal>, k: real): (r: seq<Signal>)
    ensures |r| == |s|
    ensures forall i :: 0 <= i < |s| ==> r[i] == s[i].(weight := k * s[i].weight)
  {
    seq(|s|, i requires 0 <= i < |s| => s[i].(weight := k * s[i].weight))
  }

  lemma ScaleWeightsSums(s: seq<Signal>, k: real)
    ensures WeightedSum(ScaleWeights(s, k)) == k * WeightedSum(s)
    ensures TotalWeight(ScaleWeights(s, k)) == k * TotalWeight(s)
  {
    ScaleWeightedSum(s, k);
    ScaleTotalWeight(s, k);
  }

  lemma ScaleWeightedSum(s: seq<Signal>, k: real)
    ensures WeightedSum(ScaleWeights(s, k)) == k * WeightedSum(s)
  {
    var r := ScaleWeights(s, k);
    forall i | 0 <= i < |r| ensures r[i].score * r[i].weight == k * (s[i].score * s[i].weight) {
      Rearrange(s[i].score, s[i].weight, k);
    }
    WeightedSumScaled(r, s, k);
  }

  /** Weighted sums whose terms are pointwise k times each other. */
  lemma {:induction false} WeightedSumScaled(a: seq<Signal>, b: seq<Signal>, k: real)
    requires |a| == |b|
    requires forall i :: 0 <= i < |a| ==> a[i].score * a[i].weight == k * (b[i].score * b[i].weight)
    ensures WeightedSum(a) == k * WeightedSum(b)
  {
    if a != [] {
      var n := |a| - 1;
      WeightedSumScaled(a[..n], b[..n], k);
      AddScaled(WeightedSum(a[..n]), WeightedSum(b[..n]), a[n].score * a[n].weight, b[n].score * b[n].weight, k);
    }
  }

  lemma Rearrange(x: real, w: real, k: real)
    ensures x * (k * w) == k * (x * w)
  {}

  lemma AddScaled(p: real, q: real, p': real, q': real, k: real)
    requires p == k * q && p' == k * q'
    ensures p + p' == k * (q + q')
  {}

  lemma {:induction false} ScaleTotalWeight(s: seq<Signal>, k: real)
    ensures TotalWeight(ScaleWeights(s, k)) == k * TotalWeight(s)
  {
    if s != [] {
      ScaleWeightsInit(s, k);
      ScaleTotalWeight(s[..|s| - 1], k);
    }
  }

  /** Scaling commutes with dropping the last signal. */
  lemma ScaleWeightsInit(s: seq<Signal>, k: real)
    requires s != []
    ensures ScaleWeights(s, k)[..|s| - 1] == ScaleWeights(s[..|s| - 1], k)
    ensures ScaleWeights(s, k)[|s| - 1] == s[|s| - 1].(weight := k * s[|s| - 1].weight)
  {
    var a, b := ScaleWeights(s, k)[..|s| - 1], ScaleWeights(s[..|s| - 1], k);
    forall i | 0 <= i < |a| ensures a[i] == b[i] {
      assert s[..|s| - 1][i] == s[i];
    }
  }

  /** Self-normalisation: scaling every trust weight by the same positive
      factor does not change the fused score. */
  lemma FusedScoreScaleInvariant(s: seq<Signal>, k: real)
    requires 0.0 < k
    ensures FusedScore(ScaleWeights(s, k)) == FusedScore(s)
  {
    ScaleWeightsSums(s, k);
    var ws, tw := WeightedSum(s), TotalWeight(s);
    if s != [] && 0.0 < tw {
      MultiplyMonotone(0.0, tw, k);
      assert 0.0 < k * tw;
      CancelCommonFactor(ws, tw, k);
    } else if s != [] {
      MultiplyMonotone(tw, 0.0, k);
    }
  }

  /** The worked example: (0.90, weight 0.50) and (0.80, weight 0.40) fuse to
      0.77 / 0.90 = 0.8555... */
  lemma FusedScoreExample()
    ensures FusedScore([Signal("ZeroEval GPQA", 0.90, 0.50), Signal("Avg Score", 0.80, 0.40)]) == 77.0 / 90.0
  {
    var s := [Signal("ZeroEval GPQA", 0.90, 0.50), Signal("Avg Score", 0.80, 0.40)];
    assert s[..1] == [s[0]] && s[..1][..0] == [];
    assert WeightedSum(s) == 0.90 * 0.50 + 0.80 * 0.40;
    assert TotalWeight(s) == 0.50 + 0.40;
  }

  // ---------------------------------------------------------------------------
  // Recency tier (the tail of ComputeAggregates)
  // ---------------------------------------------------------------------------

  /** metrics.recency_bonus: 3, 2, 1 or 0 for at most 30, 90, 180 days or older. */
  function RecencyTier(days: int): (t: int)
    ensures 0 <= t <= 3
  {
    if days <= 30 then 3 else if days <= 90 then 2 else if days <= 180 then 1 else 0
  }

  /** A fresher entity never gets a lower tier, and the tier is constant on
      each of the four bands. */
  lemma RecencyTierMonotone(fresher: int, older: int)
    requires fresher <= older
    ensures RecencyTier(older) <= RecencyTier(fresher)
    ensures fresher <= older <= 30 || 30 < fresher <= older <= 90 || 90 < fresher <= older <= 180 || 180 < fresher
        ==> RecencyTier(older) == RecencyTier(fresher)
  {}

  // ---------------------------------------------------------------------------
  // Confidence (ModelEntity::RecalculateConfidence)
  // ---------------------------------------------------------------------------

  /** Bonus for freshness: +5 up to 30 days, +2.5 up to 90 days. */
  function RecencyConfidence(days: int): real {
    if days <= 30 then ConfidenceRecencyBonus
    else if days <= 90 then ConfidenceRecencyBonus * 0.5
    else 0.0
  }

  /** Good at both coding and creative work, or tagged with several modalities. */
  predicate IsVersatile(m: Metrics, modalityCount: nat) {
    (m.codingScore > 0.75 && m.creativeScore > 0.75) || modalityCount > 1
  }

  /** The quality tier: only the first matching band applies. */
  function QualityAdjustment(finalScore: real): real {
    if finalScore > 0.85 then 15.0
    else if finalScore > 0.75 then 10.0
    else if finalScore > 0.65 then 5.0
    else if finalScore < 0.40 then -10.0
    else 0.0
  }

  /** Sum over the signals of (score - mean)^2, accumulated front to back. */
  function SquaredDeviation(s: seq<Signal>, mean: real): real {
    if s == [] then 0.0
    else SquaredDeviation(s[..|s| - 1], mean) + Square(s[|s| - 1].score - mean)
  }

  function Square(x: real): real {
    x * x
  }

  /** The deviation of the signals from the fused score (not from their own
      mean): the root of the mean squared deviation, or 0 for fewer than two signals. */
  function Dispersion(prims: Primitives, s: seq<Signal>, mean: real): real {
    if |s| > 1 then prims.sqrt(SquaredDeviation(s, mean) / |s| as real) else 0.0
  }

  /** Every signal scores exactly the given value. */
  predicate AllScore(s: seq<Signal>, v: real) {
    forall i :: 0 <= i < |s| ==> s[i].score == v
  }

  lemma {:induction false} SquaredDeviationSign(s: seq<Signal>, mean: real)
    ensures 0.0 <= SquaredDeviation(s, mean)
    ensures AllScore(s, mean) ==> SquaredDeviation(s, mean) == 0.0
  {
    if s != [] {
      var init := s[..|s| - 1];
      SquaredDeviationSign(init, mean);
      if AllScore(s, mean) {
        assert AllScore(init, mean) by {
          forall i | 0 <= i < |init| ensures init[i].score == mean {
            assert init[i] == s[i];
          }
        }
      }
    }
  }

  /** The consistency penalty is never negative, and it vanishes when there
      are fewer than two signals or every signal agrees with the fused score. */
  lemma DispersionVanishes(prims: Primitives, s: seq<Signal>, mean: real)
    requires prims.Lawful()
    ensures 0.0 <= Dispersion(prims, s, mean)
    ensures |s| < 2 || AllScore(s, mean) ==> Dispersion(prims, s, mean) == 0.0
  {
    SquaredDeviationSign(s, mean);
    if |s| > 1 {
      DivideMonotone(0.0, SquaredDeviation(s, mean), |s| as real);
    }
  }

  /** The running value of conf just before the clamp to [10, 99]. */
  function UnclampedConfidence(prims: Primitives, s: seq<Signal>, finalScore: real, m: Metrics, modalityCount: nat): real {
    ConfidenceBase
    + |s| as real * ConfidenceSignalBonus
    + RecencyConfidence(m.lastUpdatedDaysAgo)
    + (if IsVersatile(m, modalityCount) then ConfidenceVersatileBonus else 0.0)
    + QualityAdjustment(finalScore)
    - Dispersion(prims, s, finalScore) * ConfidenceVariancePenalty
    + (if m.isEnterpriseReady then 5.0 else 0.0)
  }

  /** confidence_score: exactly 10 without signals, otherwise the running
      value clamped to [10, 99]. */
  function Confidence(prims: Primitives, s: seq<Signal>, finalScore: real, m: Metrics, modalityCount: nat): (c: real)
    ensures 10.0 <= c <= 99.0
    ensures s == [] ==> c == 10.0
  {
    if s == [] then 10.0 else Clamp(UnclampedConfidence(prims, s, finalScore, m, modalityCount), 10.0, 99.0)
  }

  /** With exactly one signal nothing can pull confidence below 50: the
      consistency penalty is 0 and the worst quality tier costs 10. */
  lemma ConfidenceOfOneSignal(prims: Primitives, s: seq<Signal>, finalScore: real, m: Metrics, modalityCount: nat)
    requires |s| == 1
    ensures 50.0 <= Confidence(prims, s, finalScore, m, modalityCount) <= 99.0
  {
    assert Dispersion(prims, s, finalScore) == 0.0;
    assert -10.0 <= QualityAdjustment(finalScore);
    assert 50.0 <= UnclampedConfidence(prims, s, finalScore, m, modalityCount);
  }

  /** For at most one signal (all an ingested entity can have), confidence is
      10 if and only if there is no signal. */
  lemma ConfidenceTenIffNoSignals(prims: Primitives, s: seq<Signal>, finalScore: real, m: Metrics, modalityCount: nat)
    requires |s| <= 1
    ensures Confidence(prims, s, finalScore, m, modalityCount) == 10.0 <==> s == []
  {
    if |s| == 1 {
      ConfidenceOfOneSignal(prims, s, finalScore, m, modalityCount);
    }
  }

  /** The worked example: two signals (0.90, 0.50) and (0.80, 0.40), fused to
      77/90, for an entity that is neither fresh, versatile nor enterprise-ready:
      50 + 2 * 10 + 15 - 50 * sqrt(41/16200), clamped. */
  lemma ConfidenceExample(prims: Primitives, m: Metrics)
    requires m.lastUpdatedDaysAgo > 90 && !m.isEnterpriseReady && m.codingScore <= 0.75
    ensures var s := [Signal("ZeroEval GPQA", 0.90, 0.50), Signal("Avg Score", 0.80, 0.40)];
      Confidence(prims, s, 77.0 / 90.0, m, 1) == Clamp(85.0 - 50.0 * prims.sqrt(41.0 / 16200.0), 10.0, 99.0)
  {
    var s := [Signal("ZeroEval GPQA", 0.90, 0.50), Signal("Avg Score", 0.80, 0.40)];
    assert s[..1] == [s[0]] && s[..1][..0] == [];
    assert SquaredDeviation(s, 77.0 / 90.0) == 41.0 / 8100.0;
  }

  /** confidence_reason: reset to "" and then, only when there are signals,
      "Recent Verification, " for at most 30 days, "Multi-Category Verified, "
      for a versatile entity and "High Consensus" for three or more signals. */
  function ConfidenceReason(s: seq<Signal>, m: Metrics, modalityCount: nat): string {
    if s == [] then ""
    else
      (if m.lastUpdatedDaysAgo <= 30 then "Recent Verification, " else "")
      + (if IsVersatile(m, modalityCount) then "Multi-Category Verified, " else "")
      + (if |s| >= 3 then "High Consensus" else "")
  }

  // ---------------------------------------------------------------------------
  // Rank projections (ModelEntity::ComputeRankings)
  // ---------------------------------------------------------------------------

  /** How a projection treats an entity outside its modality. */
  datatype Filter = ExcludeEntirely | ScaleBy(factor: real)

  function ApplyFilter(f: Filter, inDomain: bool, x: real): real {
    if inDomain then x
    else match f
      case ExcludeEntirely => 0.0
      case ScaleBy(k) => k * x
  }

  /** Image is a hard zero outside its domain; video keeps 30%. */
  const ImageFilter := ExcludeEntirely
  const VideoFilter := ScaleBy(0.3)

  /** 1 / (1 + price / 10). At price -10 the divisor is 0 and the factor is
      taken as 0; see README. */
  function PriceFactor(price: real): (f: real)
    ensures 0.0 <= price ==> 0.0 < f <= 1.0
  {
    if price == -10.0 then 0.0 else 1.0 / (1.0 + price / 10.0)
  }

  function OverallRank(finalScore: real, confidence: real, m: Metrics): real {
    (finalScore * OverallCore
     + m.codingScore * OverallCoding
     + m.creativeScore * OverallCreative
     + confidence / 100.0 * OverallConfidence
     + PriceFactor(m.priceInput1m) * OverallPrice) * 100.0
  }

  /** The value projection: final_score * 1000 for a free entity, otherwise
      final_score^2 over log10(price + 1) + 0.1. */
  function ValueRank(prims: Primitives, finalScore: real, price: real): real
    requires prims.Lawful()
  {
    if price <= 0.0 then finalScore * 1000.0
    else
      assert 1.0 < price + 1.0;
      finalScore * finalScore / (prims.log10(price + 1.0) + 0.1)
  }

  /** For a paid entity the denominator of the value projection exceeds 0.1. */
  lemma ValueDenominator(prims: Primitives, price: real)
    requires prims.Lawful() && 0.0 < price
    ensures 0.1 < prims.log10(price + 1.0) + 0.1
  {
    assert 1.0 < price + 1.0;
  }

  /** At a fixed price the value projection never ranks a higher final score
      below a lower one. */
  lemma ValueRankMonotone(prims: Primitives, price: real, lower: real, higher: real)
    requires prims.Lawful()
    requires 0.0 <= lower <= higher
    ensures ValueRank(prims, lower, price) <= ValueRank(prims, higher, price)
  {
    if 0.0 < price {
      ValueDenominator(prims, price);
      var d := prims.log10(price + 1.0) + 0.1;
      assert lower * lower <= higher * higher by {
        if 0.0 < lower {
          MultiplyMonotone(lower, higher, lower);
          MultiplyMonotone(lower, higher, higher);
        }
      }
      DivideMonotone(lower * lower, higher * higher, d);
    }
  }

  function CodingRank(confidence: real, m: Metrics): real {
    (m.codingScore * 0.6
     + m.reasoningScore * 0.2
     + Clamp(m.contextWindow / 200000.0, 0.0, 1.0) * 0.1
     + confidence / 100.0 * 0.1) * 100.0
  }

  /** The weighted sum the image and video projections share. */
  function GenerativeRank(finalScore: real, confidence: real, m: Metrics): real {
    (finalScore * 0.5
     + m.creativeScore * 0.3
     + Clamp(m.tokensPerSec / 150.0, 0.0, 1.0) * 0.1
     + confidence / 100.0 * 0.1) * 100.0
  }

  function SpeedRank(confidence: real, m: Metrics): real {
    (Clamp(m.tokensPerSec / 200.0, 0.0, 1.0) * 0.7
     + confidence / 100.0 * 0.2
     + PriceFactor(m.priceInput1m) * 0.1) * 100.0
  }

  function EnterpriseRank(confidence: real, m: Metrics): real {
    (confidence / 100.0 * 0.4 + m.uptimeSla * 0.3 + m.orgMaturity * 0.3) * 100.0
  }

  /** The ranks ComputeRankings assigns, each projection with its filter. */
  function Rankings(prims: Primitives, finalScore: real, confidence: real, m: Metrics, mods: set<Modality>): (r: RankScores)
    requires prims.Lawful()
    ensures r.confidence == confidence
    ensures Image !in mods ==> r.image == 0.0
    ensures Image in mods ==> r.image == GenerativeRank(finalScore, confidence, m)
    ensures Video in mods ==> r.video == GenerativeRank(finalScore, confidence, m)
    ensures Video !in mods ==> r.video == 0.3 * GenerativeRank(finalScore, confidence, m)
    ensures m.priceInput1m <= 0.0 ==> r.value == finalScore * 1000.0
  {
    var generative := GenerativeRank(finalScore, confidence, m);
    RankScores(
      OverallRank(finalScore, confidence, m),
      ValueRank(prims, finalScore, m.priceInput1m),
      CodingRank(confidence, m),
      ApplyFilter(ImageFilter, Image in mods, generative),
      ApplyFilter(VideoFilter, Video in mods, generative),
      SpeedRank(confidence, m),
      confidence,
      EnterpriseRank(confidence, m))
  }

  /** An entity without the video tag gets exactly 30% of the video rank of an
      otherwise identical entity that has it; the image rank of an entity with
      the image tag does not depend on its other tags. */
  lemma ModalityFilters(prims: Primitives, finalScore: real, confidence: real, m: Metrics, mods: set<Modality>)
    requires prims.Lawful()
    ensures Video !in mods ==>
      Rankings(prims, finalScore, confidence, m, mods).video
        == 0.3 * Rankings(prims, finalScore, confidence, m, mods + {Video}).video
    ensures Image in mods ==>
      Rankings(prims, finalScore, confidence, m, mods).image
        == Rankings(prims, finalScore, confidence, m, {Image}).image
  {}

  /** Every rank is a score in [0, 100]. */
  predicate InPercentRange(r: RankScores) {
    && 0.0 <= r.overall <= 100.0
    && 0.0 <= r.value <= 100.0
    && 0.0 <= r.coding <= 100.0
    && 0.0 <= r.image <= 100.0
    && 0.0 <= r.video <= 100.0
    && 0.0 <= r.speed <= 100.0
    && 0.0 <= r.confidence <= 100.0
    && 0.0 <= r.enterprise <= 100.0
  }

  /** The inputs every projection except value was designed for. */
  predicate UnitInputs(finalScore: real, confidence: real, m: Metrics) {
    && 0.0 <= finalScore <= 1.0
    && 10.0 <= confidence <= 99.0
    && 0.0 <= m.codingScore <= 1.0 && 0.0 <= m.reasoningScore <= 1.0 && 0.0 <= m.creativeScore <= 1.0
    && 0.0 <= m.priceInput1m
    && 0.0 <= m.uptimeSla <= 1.0 && 0.0 <= m.orgMaturity <= 1.0
  }

  /** On unit inputs every projection except value already lies in [0, 100];
      value can reach final_score * 1000 (a free entity), and a coding score
      above 1 pushes coding past 100, which is why the export clamps. */
  lemma RanksInRangeOnUnitInputs(prims: Primitives, finalScore: real, confidence: real, m: Metrics, mods: set<Modality>)
    requires prims.Lawful() && UnitInputs(finalScore, confidence, m)
    ensures var r := Rankings(prims, finalScore, confidence, m, mods);
      && 0.0 <= r.overall <= 100.0 && 0.0 <= r.coding <= 100.0
      && 0.0 <= r.image <= 100.0 && 0.0 <= r.video <= 100.0
      && 0.0 <= r.speed <= 100.0 && 10.0 <= r.confidence <= 99.0
      && 0.0 <= r.enterprise <= 100.0 && 0.0 <= r.value
  {
    var pf := PriceFactor(m.priceInput1m);
    assert 0.0 < pf <= 1.0;
    var r := Rankings(prims, finalScore, confidence, m, mods);
    if 0.0 < m.priceInput1m {
      ValueDenominator(prims, m.priceInput1m);
      var d := prims.log10(m.priceInput1m + 1.0) + 0.1;
      assert 0.0 <= finalScore * finalScore;
      DivideMonotone(0.0, finalScore * finalScore, d);
    }
  }
}
