/** ModelEntity of src/scraper.cpp: one tracked AI model with its signals,
    metrics and ranks, updated in place by the engine, and the snapshot it
    exports. Each mutating method is proved against the pure definitions in
    Scoring. */
module Entity {
  import opened Utils
  import opened Scoring

  /** The primary_type label of the export. */
  datatype PrimaryType = PrimaryText | PrimaryImage | PrimaryVideo | PrimaryMultimodal

  /** Video wins; a pure image model is Image; any other set with several
      tags is Multimodal; what remains is Text. */
  function PrimaryTypeOf(mods: set<Modality>): (t: PrimaryType)
    ensures t == PrimaryVideo <==> Video in mods
    ensures t == PrimaryImage <==> mods == {Image}
    ensures t == PrimaryMultimodal <==> Video !in mods && |mods| > 1
    ensures t == PrimaryText <==> mods == {} || mods == {Text}
  {
    SmallModalitySets(mods);
    if Video in mods then PrimaryVideo
    else if Image in mods && |mods| == 1 then PrimaryImage
    else if |mods| > 1 then PrimaryMultimodal
    else PrimaryText
  }

  /** A modality set with at most one element is empty or a singleton. */
  lemma SmallModalitySets(mods: set<Modality>)
    ensures |mods| <= 1 <==> mods == {} || mods == {Text} || mods == {Image} || mods == {Video}
  {
    if |mods| <= 1 && mods != {} {
      var x :| x in mods;
      assert |mods - {x}| == |mods| - 1;
      assert mods - {x} == {};
      assert mods == {x};
      match x
      case Text =>
      case Image =>
      case Video =>
    }
  }

  /** The "metrics" block of the export. */
  datatype MetricsView = MetricsView(
    score: real,
    coding: real,
    creative: real,
    price: real,
    speed: real,
    recencyBonus: int,
    daysAgo: int)

  /** The "meta" block of the export. */
  datatype Meta = Meta(
    confidence: real,
    confReason: string,
    isOpenSource: bool,
    isEnterprise: bool,
    isImage: bool,
    isVideo: bool,
    isText: bool,
    primaryType: PrimaryType)

  /** The JSON object ModelEntity::ToJSON builds. */
  datatype Snapshot = Snapshot(
    name: string,
    org: string,
    metrics: MetricsView,
    ranks: RankScores,
    meta: Meta)

  /** Each rank clamped to [0, 100]. */
  function ClampRanks(r: RankScores): (c: RankScores)
    ensures InPercentRange(c)
    ensures InPercentRange(r) ==> c == r
    ensures 10.0 <= r.confidence <= 99.0 ==> c.confidence == r.confidence
  {
    RankScores(
      Clamp(r.overall, 0.0, 100.0),
      Clamp(r.value, 0.0, 100.0),
      Clamp(r.coding, 0.0, 100.0),
      Clamp(r.image, 0.0, 100.0),
      Clamp(r.video, 0.0, 100.0),
      Clamp(r.speed, 0.0, 100.0),
      Clamp(r.confidence, 0.0, 100.0),
      Clamp(r.enterprise, 0.0, 100.0))
  }

  /** Clamping the exported ranks a second time changes nothing. */
  lemma ClampRanksIdempotent(r: RankScores)
    ensures ClampRanks(ClampRanks(r)) == ClampRanks(r)
  {}

  /** The sum of (score - mean)^2 over the signals, accumulated in order. */
  method SquaredDeviationOf(s: seq<Signal>, mean: real) returns (sqSum: real)
    ensures sqSum == SquaredDeviation(s, mean)
    ensures 0.0 <= sqSum
  {
    sqSum := 0.0;
    var i := 0;
    while i < |s|
      invariant 0 <= i <= |s|
      invariant sqSum == SquaredDeviation(s[..i], mean)
    {
      assert s[..i + 1][..i] == s[..i];
      sqSum := sqSum + Square(s[i].score - mean);
      i := i + 1;
    }
    assert s[..i] == s;
    SquaredDeviationSign(s, mean);
  }

  class ModelEntity {
    // Set by the constructor and never written again.
    const name: string
    const organization: string
    var modalities: set<Modality>
    var metrics: Metrics
    var ranks: RankScores
    var signals: seq<Signal>
    var finalScore: real
    var confidenceScore: real
    var confidenceReason: string

    /** A new entity: everything but the name and organization at its default. */
    constructor (n: string, o: string)
      ensures name == n && organization == o
      ensures modalities == {} && metrics == DefaultMetrics && ranks == ZeroRanks
      ensures signals == [] && finalScore == 0.0 && confidenceScore == 0.0 && confidenceReason == ""
    {
      name := n;
      organization := o;
      modalities := {};
      metrics := DefaultMetrics;
      ranks := ZeroRanks;
      signals := [];
      finalScore := 0.0;
      confidenceScore := 0.0;
      confidenceReason := "";
    }

    /** Keeps a positive score, clamped to [0, 1], as the newest signal. */
    method AddSignal(source: string, score: real, weight: real)
      modifies this`signals
      ensures signals == WithSignal(old(signals), source, score, weight)
      ensures score <= 0.0 ==> signals == old(signals)
      ensures 0.0 < score ==> |signals| == |old(signals)| + 1 && signals[..|old(signals)|] == old(signals)
      ensures 0.0 < score ==> signals[|signals| - 1] == Signal(source, Clamp(score, 0.0, 1.0), weight)
    {
      if score > 0.0 {
        signals := signals + [Signal(source, Clamp(score, 0.0, 1.0), weight)];
      }
    }

    /** Fuses the signals into final_score and sets the recency tier; with
        no signals the reason becomes "No Verified Signals". */
    method ComputeAggregates()
      modifies this`finalScore, this`confidenceReason, this`metrics
      ensures finalScore == FusedScore(signals)
      ensures metrics == old(metrics).(recencyBonus := RecencyTier(old(metrics).lastUpdatedDaysAgo))
      ensures signals == [] ==> confidenceReason == "No Verified Signals"
      ensures signals != [] ==> confidenceReason == old(confidenceReason)
    {
      if signals != [] {
        var weightedSum, totalWeight := 0.0, 0.0;
        var i := 0;
        while i < |signals|
          invariant 0 <= i <= |signals|
          invariant weightedSum == WeightedSum(signals[..i])
          invariant totalWeight == TotalWeight(signals[..i])
        {
          assert signals[..i + 1][..i] == signals[..i];
          weightedSum := weightedSum + signals[i].score * signals[i].weight;
          totalWeight := totalWeight + signals[i].weight;
          i := i + 1;
        }
        assert signals[..i] == signals;
        finalScore := if totalWeight > 0.0 then weightedSum / totalWeight else 0.0;
      } else {
        finalScore := 0.0;
        confidenceReason := "No Verified Signals";
      }

      var days := metrics.lastUpdatedDaysAgo;
      if days <= 30 {
        metrics := metrics.(recencyBonus := 3);
      } else if days <= 90 {
        metrics := metrics.(recencyBonus := 2);
      } else if days <= 180 {
        metrics := metrics.(recencyBonus := 1);
      } else {
        metrics := metrics.(recencyBonus := 0);
      }
    }

    /** Rebuilds confidence_score and confidence_reason from the signals and
        the enriched metrics, then recomputes the ranks. */
    method RecalculateConfidence(prims: Primitives)
      requires prims.Lawful()
      modifies this`confidenceScore, this`confidenceReason, this`ranks
      ensures confidenceScore == Confidence(prims, signals, finalScore, metrics, |modalities|)
      ensures confidenceReason == ConfidenceReason(signals, metrics, |modalities|)
      ensures ranks == Rankings(prims, finalScore, confidenceScore, metrics, modalities)
    {
      confidenceScore, confidenceReason := ScoreConfidence(prims, signals, finalScore, metrics, |modalities|);
      ComputeRankings(prims);
    }

    /** The running confidence computation of RecalculateConfidence, on the
        entity's signals, fused score, metrics and modality count. */
    static method ScoreConfidence(prims: Primitives, s: seq<Signal>, finalScore: real, m: Metrics, modalityCount: nat)
      returns (confidence: real, reason: string)
      ensures confidence == Confidence(prims, s, finalScore, m, modalityCount)
      ensures reason == ConfidenceReason(s, m, modalityCount)
    {
      reason := "";
      if s == [] {
        return 10.0, reason;
      }
      var conf := ConfidenceBase;
      conf := conf + |s| as real * ConfidenceSignalBonus;

      if m.lastUpdatedDaysAgo <= 30 {
        conf := conf + ConfidenceRecencyBonus;
        reason := reason + "Recent Verification, ";
      } else if m.lastUpdatedDaysAgo <= 90 {
        conf := conf + ConfidenceRecencyBonus * 0.5;
      }
      assert conf == ConfidenceBase + |s| as real * ConfidenceSignalBonus + RecencyConfidence(m.lastUpdatedDaysAgo);
      assert reason == (if m.lastUpdatedDaysAgo <= 30 then "Recent Verification, " else "");
      ghost var afterRecency, reasonAfterRecency := conf, reason;

      var isVersatile := (m.codingScore > 0.75 && m.creativeScore > 0.75) || modalityCount > 1;
      if isVersatile {
        conf := conf + ConfidenceVersatileBonus;
        reason := reason + "Multi-Category Verified, ";
      }
      assert isVersatile == IsVersatile(m, modalityCount);
      assert conf == afterRecency + (if IsVersatile(m, modalityCount) then ConfidenceVersatileBonus else 0.0);
      assert reason == reasonAfterRecency + (if IsVersatile(m, modalityCount) then "Multi-Category Verified, " else "");
      ghost var afterVersatile := conf;

      if finalScore > 0.85 {
        conf := conf + 15.0;
      } else if finalScore > 0.75 {
        conf := conf + 10.0;
      } else if finalScore > 0.65 {
        conf := conf + 5.0;
      } else if finalScore < 0.40 {
        conf := conf - 10.0;
      }
      assert conf == afterVersatile + QualityAdjustment(finalScore);

      var sqSum := SquaredDeviationOf(s, finalScore);
      var variance := if |s| > 1 then prims.sqrt(sqSum / |s| as real) else 0.0;
      conf := conf - variance * ConfidenceVariancePenalty;

      if m.isEnterpriseReady {
        conf := conf + 5.0;
      }
      if |s| >= 3 {
        reason := reason + "High Consensus";
      }
      assert conf == UnclampedConfidence(prims, s, finalScore, m, modalityCount);
      confidence := Clamp(conf, 10.0, 99.0);
    }

    /** Assigns the eight rank projections from the current state. */
    method ComputeRankings(prims: Primitives)
      requires prims.Lawful()
      modifies this`ranks
      ensures ranks == Rankings(prims, finalScore, confidenceScore, metrics, modalities)
    {
      var confFactor := confidenceScore / 100.0;
      var priceFactor := PriceFactor(metrics.priceInput1m);
      var overall := (finalScore * OverallCore
                      + metrics.codingScore * OverallCoding
                      + metrics.creativeScore * OverallCreative
                      + confFactor * OverallConfidence
                      + priceFactor * OverallPrice) * 100.0;

      var value;
      if metrics.priceInput1m <= 0.0 {
        value := finalScore * 1000.0;
      } else {
        var logPrice := prims.log10(metrics.priceInput1m + 1.0);
        assert 1.0 < metrics.priceInput1m + 1.0;
        value := (finalScore * finalScore) / (logPrice + 0.1);
      }

      var ctxNorm := Clamp(metrics.contextWindow / 200000.0, 0.0, 1.0);
      var coding := (metrics.codingScore * 0.6
                     + metrics.reasoningScore * 0.2
                     + ctxNorm * 0.1
                     + confFactor * 0.1) * 100.0;

      var speedNorm := Clamp(metrics.tokensPerSec / 150.0, 0.0, 1.0);
      var image := (finalScore * 0.5 + metrics.creativeScore * 0.3
                    + speedNorm * 0.1 + confFactor * 0.1) * 100.0;
      if Image !in modalities {
        image := 0.0;
      }

      var video := (finalScore * 0.5 + metrics.creativeScore * 0.3
                    + confFactor * 0.1 + speedNorm * 0.1) * 100.0;
      if Video !in modalities {
        video := video * 0.3;
      }

      var speedBase := Clamp(metrics.tokensPerSec / 200.0, 0.0, 1.0);
      var speed := (speedBase * 0.7 + confFactor * 0.2 + priceFactor * 0.1) * 100.0;

      var enterprise := (confFactor * 0.4 + metrics.uptimeSla * 0.3 + metrics.orgMaturity * 0.3) * 100.0;

      ranks := RankScores(overall, value, coding, image, video, speed, confidenceScore, enterprise);
    }

    /** The exported snapshot: score, coding and creative scaled to percent
        and clamped, every rank clamped to [0, 100], and the modality flags. */
    function ToJSON(): (r: Snapshot)
      reads this
      ensures r.name == name && r.org == organization
      ensures r.ranks == ClampRanks(ranks) && InPercentRange(r.ranks)
      ensures 0.0 <= r.metrics.score <= 100.0 && 0.0 <= r.metrics.coding <= 100.0 && 0.0 <= r.metrics.creative <= 100.0
      ensures 0.0 <= finalScore <= 1.0 ==> r.metrics.score == finalScore * 100.0
      ensures r.meta.confidence == confidenceScore
      ensures r.meta.primaryType == PrimaryTypeOf(modalities)
      ensures r.meta.isImage <==> Image in modalities
      ensures r.meta.isVideo <==> Video in modalities
      ensures r.meta.isText <==> Text in modalities
    {
      Snapshot(
        name,
        organization,
        MetricsView(
          Clamp(finalScore * 100.0, 0.0, 100.0),
          Clamp(metrics.codingScore * 100.0, 0.0, 100.0),
          Clamp(metrics.creativeScore * 100.0, 0.0, 100.0),
          metrics.priceInput1m,
          metrics.tokensPerSec,
          metrics.recencyBonus,
          metrics.lastUpdatedDaysAgo),
        ClampRanks(ranks),
        Meta(
          confidenceScore,
          confidenceReason,
          metrics.isOpenSource,
          metrics.isEnterpriseReady,
          Image in modalities,
          Video in modalities,
          Text in modalities,
          PrimaryTypeOf(modalities)))
    }
  }
}
