/** IntelligenceEngine of src/scraper.cpp: the ingestion loop that turns the
    parsed leaderboard array into a registry of scored entities, the
    per-organization tally, and the exported ecosystem scores. */
module Engine {
  import opened Utils
  import opened Scoring
  import opened Entity
  import opened KnowledgeBase

  // ---------------------------------------------------------------------------
  // Reading one record
  // ---------------------------------------------------------------------------

  /** The record's name: present only for an object whose "name" is a string. */
  function ItemName(item: JValue): (r: Option<string>)
    ensures r.Some? <==> item.JObject? && "name" in item.fields && item.fields["name"].JStr?
  {
    if item.JObject? && "name" in item.fields && item.fields["name"].JStr? then Some(item.fields["name"].s) else None
  }

  /** item.value("organization", "Unknown"): the default when the key is
      missing, nothing when it holds something other than a string (the
      library throws). */
  function ItemOrganization(fields: map<string, JValue>): (r: Option<string>)
    ensures "organization" !in fields ==> r == Some("Unknown")
    ensures r.None? <==> "organization" in fields && !fields["organization"].JStr?
  {
    if "organization" !in fields then Some("Unknown")
    else if fields["organization"].JStr? then Some(fields["organization"].s)
    else None
  }

  /** The signal a record offers: gpqa_score (weight 0.50) whenever it
      parses, else average_score (weight 0.40); either only when in [0, 1]. */
  function CandidateSignal(stod: string -> Option<real>, fields: map<string, JValue>): (r: Option<Signal>)
    ensures r.Some? ==> 0.0 <= r.value.score <= 1.0
    ensures TryGetDouble(stod, fields, "gpqa_score").Some? ==>
      var g := TryGetDouble(stod, fields, "gpqa_score").value;
      r == (if 0.0 <= g <= 1.0 then Some(Signal("ZeroEval GPQA", g, 0.50)) else None)
    ensures r.Some? && r.value.source == "Avg Score" ==>
      TryGetDouble(stod, fields, "gpqa_score").None? && TryGetDouble(stod, fields, "average_score") == Some(r.value.score)
  {
    match TryGetDouble(stod, fields, "gpqa_score")
    case Some(g) => if 0.0 <= g <= 1.0 then Some(Signal("ZeroEval GPQA", g, 0.50)) else None
    case None =>
      match TryGetDouble(stod, fields, "average_score")
      case Some(a) => if 0.0 <= a <= 1.0 then Some(Signal("Avg Score", a, 0.40)) else None
      case None => None
  }

  /** The signals a fresh entity holds after AddSignal with the candidate. */
  function ItemSignals(stod: string -> Option<real>, fields: map<string, JValue>): seq<Signal> {
    match CandidateSignal(stod, fields)
    case Some(c) => WithSignal([], c.source, c.score, c.weight)
    case None => []
  }

  /** The metrics of a fresh entity once ComputeAggregates has run: the
      defaults, with the recency tier of an age of 0 days. */
  const ScoredDefaults: Metrics := DefaultMetrics.(recencyBonus := 3)

  /** The fields of an entity, as a value. */
  datatype EntityState = EntityState(
    name: string,
    organization: string,
    signals: seq<Signal>,
    finalScore: real,
    modalities: set<Modality>,
    metrics: Metrics,
    confidenceScore: real,
    confidenceReason: string,
    ranks: RankScores)

  function StateOf(m: ModelEntity): EntityState
    reads m
  {
    EntityState(m.name, m.organization, m.signals, m.finalScore, m.modalities, m.metrics,
                m.confidenceScore, m.confidenceReason, m.ranks)
  }

  /** The entity the loop body builds for a record with the given name,
      organization and fields: the record's signal and its fused score, the
      detected modalities, the metrics Enrich fills in over the scored
      defaults, then the confidence, its reason and the ranks. None where
      Enrich throws. */
  function BuiltState(prims: Primitives, name: string, org: string, fields: map<string, JValue>): (r: Option<EntityState>)
    requires prims.Lawful()
    ensures r.Some? <==> DetectedModalities(fields, ToLower(name)).Some?
    ensures r.Some? ==> r.value.name == name && r.value.organization == org
  {
    var n := ToLower(name);
    match DetectedModalities(fields, n)
    case None => None
    case Some(mods) =>
      var signals := ItemSignals(prims.stod, fields);
      var score := FusedScore(signals);
      var metrics := EnrichedMetrics(prims.stod, fields, n, ToLower(org), ScoredDefaults, score, mods);
      var confidence := Confidence(prims, signals, score, metrics, |mods|);
      Some(EntityState(name, org, signals, score, mods, metrics, confidence,
                       ConfidenceReason(signals, metrics, |mods|), Rankings(prims, score, confidence, metrics, mods)))
  }

  /** BuiltState field by field. */
  lemma BuiltStateIs(prims: Primitives, name: string, org: string, fields: map<string, JValue>, st: EntityState)
    requires prims.Lawful()
    requires st.name == name && st.organization == org
    requires st.signals == ItemSignals(prims.stod, fields) && st.finalScore == FusedScore(st.signals)
    requires DetectedModalities(fields, ToLower(name)) == Some(st.modalities)
    requires st.metrics == EnrichedMetrics(prims.stod, fields, ToLower(name), ToLower(org), ScoredDefaults, st.finalScore, st.modalities)
    requires st.confidenceScore == Confidence(prims, st.signals, st.finalScore, st.metrics, |st.modalities|)
    requires st.confidenceReason == ConfidenceReason(st.signals, st.metrics, |st.modalities|)
    requires st.ranks == Rankings(prims, st.finalScore, st.confidenceScore, st.metrics, st.modalities)
    ensures BuiltState(prims, name, org, fields) == Some(st)
  {
  }

  /** BuiltState for a record: its name, its organization (or the default)
      and its fields; None when the loop body skips the record before or
      during Enrich. */
  function RecordState(prims: Primitives, item: JValue): (r: Option<EntityState>)
    requires prims.Lawful()
    ensures r.Some? ==> ItemName(item) == Some(r.value.name) && ItemOrganization(item.fields) == Some(r.value.organization)
  {
    match ItemName(item)
    case None => None
    case Some(name) =>
      match ItemOrganization(item.fields)
      case None => None
      case Some(org) => BuiltState(prims, name, org, item.fields)
  }

  /** A record yields at most one signal, with a score in (0, 1] and a positive
      weight, and its fused score is that score: positive exactly when a
      signal was kept. */
  lemma ItemSignalsShape(stod: string -> Option<real>, fields: map<string, JValue>)
    ensures |ItemSignals(stod, fields)| <= 1
    ensures var s := ItemSignals(stod, fields);
      s != [] ==> 0.0 < s[0].score <= 1.0 && 0.0 < s[0].weight && FusedScore(s) == s[0].score
    ensures 0.0 < FusedScore(ItemSignals(stod, fields)) <==> ItemSignals(stod, fields) != []
  {
    var s := ItemSignals(stod, fields);
    if s != [] {
      FusedScoreOfOne(s[0]);
      assert s == [s[0]];
    }
  }

  // ---------------------------------------------------------------------------
  // The ingestion fold: what Run does to the set of registered names
  // ---------------------------------------------------------------------------

  /** What happens to one record. */
  datatype Verdict =
    | Skipped            // counted as skipped: malformed record or thrown exception
    | Duplicate          // name already registered: ignored without counting
    | Dropped            // final_score not positive: ignored without counting
    | Registered(name: string)

  /** The fate of a record, given the names already registered. */
  function Judge(stod: string -> Option<real>, item: JValue, names: seq<string>): (v: Verdict)
    ensures v.Registered? ==> ItemName(item) == Some(v.name) && v.name != [] && v.name !in names
    ensures v.Duplicate? <==> ItemName(item).Some? && ItemName(item).value != [] && ItemName(item).value in names
  {
    match ItemName(item)
    case None => Skipped
    case Some(name) =>
      if name == [] then Skipped
      else if name in names then Duplicate
      else if ItemOrganization(item.fields).None? then Skipped
      else if DetectedModalities(item.fields, ToLower(name)).None? then Skipped
      else if 0.0 < FusedScore(ItemSignals(stod, item.fields)) then Registered(name)
      else Dropped
  }

  /** Registered names, and the processed and skipped counters. */
  datatype Tally = Tally(names: seq<string>, processed: nat, skipped: nat)

  /** The records judged front to back, starting from the given names. */
  function Ingest(stod: string -> Option<real>, items: seq<JValue>, start: seq<string>): Tally {
    if items == [] then Tally(start, 0, 0)
    else
      var t := Ingest(stod, items[..|items| - 1], start);
      match Judge(stod, items[|items| - 1], t.names)
      case Skipped => t.(skipped := t.skipped + 1)
      case Registered(n) => t.(names := t.names + [n], processed := t.processed + 1)
      case _ => t
  }

  /** The positions of the records that the fold registers, in order. */
  function Sources(stod: string -> Option<real>, items: seq<JValue>, start: seq<string>): (r: seq<nat>)
    ensures forall k :: 0 <= k < |r| ==> r[k] < |items|
    ensures forall k, l :: 0 <= k < l < |r| ==> r[k] < r[l]
  {
    if items == [] then []
    else
      var init := items[..|items| - 1];
      var src := Sources(stod, init, start);
      if Judge(stod, items[|items| - 1], Ingest(stod, init, start).names).Registered? then src + [|items| - 1]
      else src
  }

  /** Ingest over one more record, stated without unfolding Judge. */
  lemma IngestStep(stod: string -> Option<real>, items: seq<JValue>, i: nat, start: seq<string>)
    requires i < |items|
    ensures var t := Ingest(stod, items[..i], start);
      var v := Judge(stod, items[i], t.names);
      var t' := Ingest(stod, items[..i + 1], start);
      && (v.Skipped? ==> t' == t.(skipped := t.skipped + 1))
      && (v.Registered? ==> t' == t.(names := t.names + [v.name], processed := t.processed + 1))
      && (v.Duplicate? || v.Dropped? ==> t' == t)
      && Sources(stod, items[..i + 1], start)
         == Sources(stod, items[..i], start) + (if v.Registered? then [i] else [])
  {
    assert items[..i + 1][..i] == items[..i];
  }

  predicate Distinct(s: seq<string>) {
    forall i, j :: 0 <= i < j < |s| ==> s[i] != s[j]
  }

  /** The registry starts with the names it had, gains one name per processed
      record, never repeats a name, and never counts a record twice. */
  lemma {:induction false} IngestInvariant(stod: string -> Option<real>, items: seq<JValue>, start: seq<string>)
    requires Distinct(start)
    ensures var t := Ingest(stod, items, start);
      && Distinct(t.names)
      && |t.names| == |start| + t.processed
      && t.names[..|start|] == start
      && t.processed + t.skipped <= |items|
  {
    if items != [] {
      var t := Ingest(stod, items[..|items| - 1], start);
      IngestInvariant(stod, items[..|items| - 1], start);
      match Judge(stod, items[|items| - 1], t.names)
      case Registered(n) =>
        var names := t.names + [n];
        assert n !in t.names;
        assert Distinct(names) by {
          forall i, j | 0 <= i < j < |names| ensures names[i] != names[j] {
            if j == |names| - 1 {
              assert names[i] == t.names[i];
            } else {
              assert names[i] == t.names[i] && names[j] == t.names[j];
            }
          }
        }
        assert names[..|start|] == t.names[..|start|];
      case _ =>
    }
  }

  /** Every newly registered name belongs to some record of the batch that
      yielded a signal with a score in (0, 1]. */
  lemma {:induction false} IngestSound(stod: string -> Option<real>, items: seq<JValue>, start: seq<string>)
    ensures var t := Ingest(stod, items, start);
      forall n :: n in t.names && n !in start ==>
        exists i :: 0 <= i < |items| && ItemName(items[i]) == Some(n) && items[i].JObject?
                    && |ItemSignals(stod, items[i].fields)| == 1
  {
    if items != [] {
      var init := items[..|items| - 1];
      var t := Ingest(stod, init, start);
      IngestSound(stod, init, start);
      forall n | n in Ingest(stod, items, start).names && n !in start
        ensures exists i :: 0 <= i < |items| && ItemName(items[i]) == Some(n) && items[i].JObject?
                            && |ItemSignals(stod, items[i].fields)| == 1
      {
        if n in t.names {
          var i :| 0 <= i < |init| && ItemName(init[i]) == Some(n) && init[i].JObject?
                   && |ItemSignals(stod, init[i].fields)| == 1;
          assert items[i] == init[i];
        } else {
          var last := items[|items| - 1];
          assert Judge(stod, last, t.names) == Registered(n);
          ItemSignalsShape(stod, last.fields);
          assert ItemName(items[|items| - 1]) == Some(n);
        }
      }
    }
  }

  /** One more record only ever appends to the registered names. */
  lemma IngestExtends(stod: string -> Option<real>, items: seq<JValue>, start: seq<string>)
    requires items != []
    ensures var before := Ingest(stod, items[..|items| - 1], start).names;
      var after := Ingest(stod, items, start).names;
      |before| <= |after| && after[..|before|] == before
  {
    var t := Ingest(stod, items[..|items| - 1], start);
    match Judge(stod, items[|items| - 1], t.names)
    case Registered(n) =>
      assert (t.names + [n])[..|t.names|] == t.names;
    case _ =>
  }

  /** No acceptable record is lost: a record with a non-empty name, a usable
      organization and tag list, and a signal ends up registered, unless an
      earlier record already took its name. */
  lemma {:induction false} IngestComplete(stod: string -> Option<real>, items: seq<JValue>, start: seq<string>, i: int)
    requires 0 <= i < |items|
    requires ItemName(items[i]).Some? && ItemName(items[i]).value != []
    requires ItemOrganization(items[i].fields).Some?
    requires DetectedModalities(items[i].fields, ToLower(ItemName(items[i]).value)).Some?
    requires ItemSignals(stod, items[i].fields) != []
    ensures ItemName(items[i]).value in Ingest(stod, items, start).names
  {
    var init := items[..|items| - 1];
    var before := Ingest(stod, init, start).names;
    var after := Ingest(stod, items, start).names;
    var name := ItemName(items[i]).value;
    IngestExtends(stod, items, start);
    if i < |items| - 1 {
      assert init[i] == items[i];
      IngestComplete(stod, init, start, i);
      var k :| 0 <= k < |before| && before[k] == name;
      assert after[k] == name;
    } else if name !in before {
      ItemSignalsShape(stod, items[i].fields);
      assert Judge(stod, items[i], before) == Registered(name);
      assert after == before + [name];
    }
  }

  /** The two folds agree: the k-th newly registered name is the name of the
      record at the k-th registered position. */
  lemma {:induction false} SourcesMatchIngest(stod: string -> Option<real>, items: seq<JValue>, start: seq<string>)
    ensures var t := Ingest(stod, items, start);
      var src := Sources(stod, items, start);
      && |src| == t.processed && |t.names| == |start| + |src|
      && forall k :: 0 <= k < |src| ==> ItemName(items[src[k]]) == Some(t.names[|start| + k])
  {
    if items != [] {
      var i := |items| - 1;
      var init := items[..i];
      SourcesMatchIngest(stod, init, start);
      IngestStep(stod, items, i, start);
      assert items[..i + 1] == items;
      var src := Sources(stod, init, start);
      assert forall k :: 0 <= k < |src| ==> items[src[k]] == init[src[k]];
    }
  }

  /** The states built from the records of items at the positions src. */
  function RecordStates(prims: Primitives, items: seq<JValue>, src: seq<nat>): (r: seq<Option<EntityState>>)
    requires prims.Lawful() && forall k :: 0 <= k < |src| ==> src[k] < |items|
    ensures |r| == |src|
  {
    if src == [] then []
    else RecordStates(prims, items, src[..|src| - 1]) + [RecordState(prims, items[src[|src| - 1]])]
  }

  /** RecordStates position by position. */
  lemma {:induction false} RecordStatesAt(prims: Primitives, items: seq<JValue>, src: seq<nat>, k: nat)
    requires prims.Lawful() && forall k :: 0 <= k < |src| ==> src[k] < |items|
    requires k < |src|
    ensures RecordStates(prims, items, src)[k] == RecordState(prims, items[src[k]])
  {
    if k < |src| - 1 {
      RecordStatesAt(prims, items, src[..|src| - 1], k);
    }
  }

  /** The entities of reg from position from on have, in order, the given
      states. */
  ghost predicate Provenance(reg: seq<ModelEntity>, from: nat, states: seq<Option<EntityState>>)
    reads reg
    decreases states
  {
    if states == [] then |reg| == from
    else
      && from < |reg|
      && Provenance(reg[..|reg| - 1], from, states[..|states| - 1])
      && states[|states| - 1] == Some(StateOf(reg[|reg| - 1]))
  }

  /** Provenance entity by entity. */
  lemma {:induction false} ProvenanceAt(reg: seq<ModelEntity>, from: nat, states: seq<Option<EntityState>>)
    requires Provenance(reg, from, states)
    ensures |reg| == from + |states|
    ensures forall k :: 0 <= k < |states| ==> states[k] == Some(StateOf(reg[from + k]))
  {
    if states != [] {
      var init, states0 := reg[..|reg| - 1], states[..|states| - 1];
      ProvenanceAt(init, from, states0);
      forall k | 0 <= k < |states0|
        ensures states[k] == Some(StateOf(reg[from + k]))
      {
        assert reg[from + k] == init[from + k] && states[k] == states0[k];
      }
    }
  }

  /** Registering one more entity extends the provenance by its state. */
  lemma ProvenanceAppend(reg: seq<ModelEntity>, from: nat, states: seq<Option<EntityState>>, m: ModelEntity)
    requires Provenance(reg, from, states)
    ensures Provenance(reg + [m], from, states + [Some(StateOf(m))])
  {
    assert (reg + [m])[..|reg|] == reg;
    assert (states + [Some(StateOf(m))])[..|states|] == states;
  }

  // ---------------------------------------------------------------------------
  // Organization statistics (ComputeEcosystemShares and ProcessToJSON)
  // ---------------------------------------------------------------------------

  /** OrgStats. avg_score holds the running sum of final scores; the
      division by model_count happens only at export. */
  datatype OrgStats = OrgStats(modelCount: int, avgScore: real)

  /** The key an organization is filed under: "Other" for the empty name. */
  function OrgKey(org: string): (k: string)
    ensures k != []
    ensures org != [] ==> k == org
  {
    if org == [] then "Other" else org
  }

  /** One entity's contribution to the tally. */
  function Bump(stats: map<string, OrgStats>, org: string, score: real): map<string, OrgStats> {
    var k := OrgKey(org);
    var s := if k in stats then stats[k] else OrgStats(0, 0.0);
    stats[k := OrgStats(s.modelCount + 1, s.avgScore + score)]
  }

  /** The tally ComputeEcosystemShares builds on top of stats: one Bump per
      (organization, final score) pair, in registry order. */
  function TallyOrgs(stats: map<string, OrgStats>, entries: seq<(string, real)>): map<string, OrgStats> {
    if entries == [] then stats
    else
      var last := entries[|entries| - 1];
      Bump(TallyOrgs(stats, entries[..|entries| - 1]), last.0, last.1)
  }

  /** How many entries are filed under key k, and the sum of their scores. */
  function CountUnder(entries: seq<(string, real)>, k: string): nat {
    if entries == [] then 0
    else CountUnder(entries[..|entries| - 1], k) + (if OrgKey(entries[|entries| - 1].0) == k then 1 else 0)
  }

  function SumUnder(entries: seq<(string, real)>, k: string): real {
    if entries == [] then 0.0
    else SumUnder(entries[..|entries| - 1], k) + (if OrgKey(entries[|entries| - 1].0) == k then entries[|entries| - 1].1 else 0.0)
  }

  /** With no entry under k, nothing is summed under k. */
  lemma {:induction false} SumUnderEmpty(entries: seq<(string, real)>, k: string)
    requires CountUnder(entries, k) == 0
    ensures SumUnder(entries, k) == 0.0
  {
    if entries != [] {
      SumUnderEmpty(entries[..|entries| - 1], k);
    }
  }

  /** The tally adds, under each key, one model and its score per entry filed
      there; no other key appears, and the empty name never becomes a key. */
  lemma {:induction false} TallyOrgsCounts(stats: map<string, OrgStats>, entries: seq<(string, real)>, k: string)
    ensures var r := TallyOrgs(stats, entries);
      && (k in r <==> k in stats || CountUnder(entries, k) > 0)
      && (k in r ==>
            var base := if k in stats then stats[k] else OrgStats(0, 0.0);
            r[k] == OrgStats(base.modelCount + CountUnder(entries, k), base.avgScore + SumUnder(entries, k)))
    ensures k == [] ==> (k in TallyOrgs(stats, entries) <==> k in stats)
  {
    if entries != [] {
      var init, last := entries[..|entries| - 1], entries[|entries| - 1];
      TallyOrgsCounts(stats, init, k);
      var prev := TallyOrgs(stats, init);
      assert TallyOrgs(stats, entries) == Bump(prev, last.0, last.1);
      if OrgKey(last.0) == k {
        if k !in prev {
          SumUnderEmpty(init, k);
        }
        assert CountUnder(entries, k) == CountUnder(init, k) + 1;
        assert SumUnder(entries, k) == SumUnder(init, k) + last.1;
      } else {
        assert CountUnder(entries, k) == CountUnder(init, k);
        assert SumUnder(entries, k) == SumUnder(init, k);
      }
    }
  }

  /** Every organization's sum lies between 0 and its model count. */
  predicate StatsSane(stats: map<string, OrgStats>) {
    forall k :: k in stats ==> 0 <= stats[k].modelCount && 0.0 <= stats[k].avgScore <= stats[k].modelCount as real
  }

  /** Tallying scores in [0, 1] keeps every sum between 0 and the count. */
  lemma {:induction false} TallyOrgsSane(stats: map<string, OrgStats>, entries: seq<(string, real)>)
    requires StatsSane(stats)
    requires forall i :: 0 <= i < |entries| ==> 0.0 <= entries[i].1 <= 1.0
    ensures StatsSane(TallyOrgs(stats, entries))
  {
    if entries != [] {
      TallyOrgsSane(stats, entries[..|entries| - 1]);
      assert 0.0 <= entries[|entries| - 1].1 <= 1.0;
    }
  }

  /** The ecosystem score: count * 0.4 + average * 10 * 0.3. */
  function EcosystemScore(s: OrgStats): real {
    var avg := if s.modelCount > 0 then s.avgScore / s.modelCount as real else 0.0;
    s.modelCount as real * 0.4 + avg * 10.0 * 0.3
  }

  /** With final scores in [0, 1], an organization scores 0.4 per model plus
      at most 3 for quality. */
  lemma EcosystemScoreBounds(s: OrgStats)
    requires 0 <= s.modelCount && 0.0 <= s.avgScore <= s.modelCount as real
    ensures s.modelCount as real * 0.4 <= EcosystemScore(s) <= s.modelCount as real * 0.4 + 3.0
  {
    if s.modelCount > 0 {
      var n := s.modelCount as real;
      DivideMonotone(0.0, s.avgScore, n);
      DivideMonotone(s.avgScore, n, n);
    }
  }

  // ---------------------------------------------------------------------------
  // The engine
  // ---------------------------------------------------------------------------

  /** The names of the registered entities, in order. */
  function NamesOf(reg: seq<ModelEntity>): (r: seq<string>)
    ensures |r| == |reg| && forall i :: 0 <= i < |reg| ==> r[i] == reg[i].name
  {
    if reg == [] then [] else NamesOf(reg[..|reg| - 1]) + [reg[|reg| - 1].name]
  }

  /** The (organization, final score) pairs of the registered entities. */
  function EntriesOf(reg: seq<ModelEntity>): (r: seq<(string, real)>)
    reads reg
    ensures |r| == |reg| && forall i :: 0 <= i < |reg| ==> r[i] == (reg[i].organization, reg[i].finalScore)
  {
    if reg == [] then [] else EntriesOf(reg[..|reg| - 1]) + [(reg[|reg| - 1].organization, reg[|reg| - 1].finalScore)]
  }

  /** What every registered entity satisfies once Run has admitted it. */
  predicate Admitted(e: ModelEntity)
    reads e
  {
    && |e.signals| == 1
    && 0.0 < e.finalScore <= 1.0
    && e.finalScore == e.signals[0].score
    && 50.0 <= e.confidenceScore <= 99.0
    && e.metrics.recencyBonus == 3
  }

  /** Appending an entity under a new name keeps the names distinct. */
  lemma RegistryAppend(reg: seq<ModelEntity>, m: ModelEntity)
    requires Distinct(NamesOf(reg)) && m.name !in NamesOf(reg)
    ensures NamesOf(reg + [m]) == NamesOf(reg) + [m.name]
    ensures Distinct(NamesOf(reg + [m]))
  {
    assert (reg + [m])[..|reg|] == reg;
  }

  /** Admitted entities contribute scores in [0, 1] to the tally. */
  lemma AdmittedEntries(reg: seq<ModelEntity>)
    requires forall i :: 0 <= i < |reg| ==> Admitted(reg[i])
    ensures forall i :: 0 <= i < |reg| ==> 0.0 <= EntriesOf(reg)[i].1 <= 1.0
  {
  }

  /** The exported document: one snapshot per entity and a score per organization. */
  datatype Export = Export(models: seq<Snapshot>, ecosystem: map<string, real>)

  class IntelligenceEngine {
    var registry: seq<ModelEntity>
    var orgStats: map<string, OrgStats>

    /** What Run keeps true of the engine between calls. */
    ghost predicate Valid()
      reads this, registry
    {
      Consistent() && StatsSane(orgStats)
    }

    /** No name registered twice, and every entity admitted. */
    ghost predicate Consistent()
      reads this`registry, registry
    {
      && Distinct(NamesOf(registry))
      && (forall i :: 0 <= i < |registry| ==> Admitted(registry[i]))
    }

    constructor ()
      ensures registry == [] && orgStats == map[]
      ensures Valid()
    {
      registry := [];
      orgStats := map[];
    }

    /** The signal step of the loop body: gpqa_score pre-empts average_score. */
    static method AddItemSignal(stod: string -> Option<real>, m: ModelEntity, fields: map<string, JValue>)
      requires m.signals == []
      modifies m`signals
      ensures m.signals == ItemSignals(stod, fields)
    {
      var gpqa := TryGetDouble(stod, fields, "gpqa_score");
      if gpqa.Some? {
        if 0.0 <= gpqa.value <= 1.0 {
          m.AddSignal("ZeroEval GPQA", gpqa.value, 0.50);
        }
      } else {
        var average := TryGetDouble(stod, fields, "average_score");
        if average.Some? && 0.0 <= average.value <= 1.0 {
          m.AddSignal("Avg Score", average.value, 0.40);
        }
      }
    }

    /** A new entity for a record: its signal, fused score, enrichment and
        confidence; ok is false where Enrich throws. */
    static method BuildEntity(prims: Primitives, name: string, org: string, fields: map<string, JValue>)
      returns (m: ModelEntity, ok: bool)
      requires prims.Lawful()
      ensures fresh(m)
      ensures m.name == name && m.organization == org
      ensures ok <==> DetectedModalities(fields, ToLower(name)).Some?
      ensures m.signals == ItemSignals(prims.stod, fields)
      ensures m.finalScore == FusedScore(m.signals)
      ensures ok ==> BuiltState(prims, name, org, fields) == Some(StateOf(m))
    {
      m, ok := NewEnriched(prims.stod, name, org, fields);
      if ok {
        m.RecalculateConfidence(prims);
        BuiltStateIs(prims, name, org, fields, StateOf(m));
      }
    }

    /** The loop body up to Enrich: the scored entity, enriched from the
        record; ok is false where Enrich throws. */
    static method NewEnriched(stod: string -> Option<real>, name: string, org: string, fields: map<string, JValue>)
      returns (m: ModelEntity, ok: bool)
      ensures fresh(m)
      ensures m.name == name && m.organization == org
      ensures ok <==> DetectedModalities(fields, ToLower(name)).Some?
      ensures m.signals == ItemSignals(stod, fields)
      ensures m.finalScore == FusedScore(m.signals)
      ensures ok ==> m.modalities == DetectedModalities(fields, ToLower(name)).value
      ensures ok ==> m.metrics == EnrichedMetrics(stod, fields, ToLower(name), ToLower(org), ScoredDefaults, m.finalScore, m.modalities)
    {
      m := NewScored(stod, name, org, fields);
      ghost var signals, finalScore := m.signals, m.finalScore;
      ok := Enrich(stod, m, fields);
      assert m.signals == signals && m.finalScore == finalScore;
    }

    /** The first half of the loop body: the entity, its signal and its
        fused score; the recency tier is still the default's. */
    static method NewScored(stod: string -> Option<real>, name: string, org: string, fields: map<string, JValue>)
      returns (m: ModelEntity)
      ensures fresh(m)
      ensures m.name == name && m.organization == org
      ensures m.signals == ItemSignals(stod, fields)
      ensures m.finalScore == FusedScore(m.signals)
      ensures m.modalities == {} && m.metrics == ScoredDefaults && m.ranks == ZeroRanks && m.confidenceScore == 0.0
      ensures m.confidenceReason == if m.signals == [] then "No Verified Signals" else ""
    {
      m := new ModelEntity(name, org);
      AddItemSignal(stod, m, fields);
      m.ComputeAggregates();
    }

    /** One pass of the ingestion loop: judge the record and register the
        entity built from it when its final score is positive. */
    method Admit(prims: Primitives, item: JValue) returns (v: Verdict)
      requires prims.Lawful() && Valid()
      modifies this`registry
      ensures Valid()
      ensures v == Judge(prims.stod, item, old(NamesOf(registry)))
      ensures v.Registered? ==> |registry| == |old(registry)| + 1 && registry == old(registry) + [registry[|registry| - 1]]
      ensures v.Registered? ==> NamesOf(registry) == old(NamesOf(registry)) + [v.name]
      ensures v.Registered? ==> fresh(registry[|registry| - 1]) && RecordState(prims, item) == Some(StateOf(registry[|registry| - 1]))
      ensures !v.Registered? ==> registry == old(registry)
    {
      var nameOpt := ItemName(item);
      if nameOpt.None? {
        return Skipped;
      }
      var name := nameOpt.value;
      if name == [] {
        return Skipped;
      }
      var known := false;
      for j := 0 to |registry|
        invariant !known ==> name !in NamesOf(registry)[..j]
        invariant known ==> name in NamesOf(registry)
      {
        if registry[j].name == name {
          known := true;
          break;
        }
      }
      if known {
        return Duplicate;
      }
      assert NamesOf(registry)[..|registry|] == NamesOf(registry);
      var orgOpt := ItemOrganization(item.fields);
      if orgOpt.None? {
        return Skipped;
      }
      v := Build(prims, name, orgOpt.value, item.fields);
    }

    /** The rest of the loop body for a named record with a usable
        organization: build the entity and register it when it scores. */
    method Build(prims: Primitives, name: string, org: string, fields: map<string, JValue>) returns (v: Verdict)
      requires prims.Lawful() && Valid() && name !in NamesOf(registry)
      modifies this`registry
      ensures Valid()
      ensures v == (if DetectedModalities(fields, ToLower(name)).None? then Skipped
                    else if 0.0 < FusedScore(ItemSignals(prims.stod, fields)) then Registered(name)
                    else Dropped)
      ensures v.Registered? ==> |registry| == |old(registry)| + 1 && registry == old(registry) + [registry[|registry| - 1]]
      ensures v.Registered? ==> NamesOf(registry) == old(NamesOf(registry)) + [name]
      ensures v.Registered? ==> fresh(registry[|registry| - 1]) && BuiltState(prims, name, org, fields) == Some(StateOf(registry[|registry| - 1]))
      ensures !v.Registered? ==> registry == old(registry)
    {
      var m, ok := BuildEntity(prims, name, org, fields);
      if !ok {
        return Skipped;
      }
      ghost var st := StateOf(m);
      v := Keep(prims, m, fields);
      assert v.Registered? ==> StateOf(registry[|registry| - 1]) == st;
    }

    /** The end of the loop body: an entity with a positive final score is
        registered, any other is dropped. */
    method Keep(prims: Primitives, m: ModelEntity, ghost fields: map<string, JValue>) returns (v: Verdict)
      requires prims.Lawful() && Valid() && m.name !in NamesOf(registry)
      requires m.signals == ItemSignals(prims.stod, fields) && m.finalScore == FusedScore(m.signals)
      requires m.metrics.recencyBonus == 3
      requires m.confidenceScore == Confidence(prims, m.signals, m.finalScore, m.metrics, |m.modalities|)
      modifies this`registry
      ensures Valid()
      ensures v == if 0.0 < m.finalScore then Registered(m.name) else Dropped
      ensures v.Registered? ==> registry == old(registry) + [m]
      ensures !v.Registered? ==> registry == old(registry)
    {
      ItemSignalsShape(prims.stod, fields);
      if m.finalScore > 0.0 {
        ConfidenceOfOneSignal(prims, m.signals, m.finalScore, m.metrics, |m.modalities|);
        Register(m);
        v := Registered(m.name);
      } else {
        v := Dropped;
      }
    }

    /** registry.push_back for an admitted entity under a new name. */
    method Register(m: ModelEntity)
      requires Valid() && Admitted(m) && m.name !in NamesOf(registry)
      modifies this`registry
      ensures Valid()
      ensures registry == old(registry) + [m]
      ensures NamesOf(registry) == old(NamesOf(registry)) + [m.name]
    {
      RegistryAppend(registry, m);
      registry := registry + [m];
    }

    /** Tallies every registered entity under its organization. */
    method ComputeEcosystemShares()
      requires Valid()
      modifies this`orgStats
      ensures Valid()
      ensures orgStats == TallyOrgs(old(orgStats), EntriesOf(registry))
    {
      var entries := EntriesOf(registry);
      for j := 0 to |registry|
        invariant orgStats == TallyOrgs(old(orgStats), entries[..j])
      {
        ghost var prev := orgStats;
        var org, score := registry[j].organization, registry[j].finalScore;
        assert entries[j] == (org, score);
        if org == [] {
          org := "Other";
        }
        var s := if org in orgStats then orgStats[org] else OrgStats(0, 0.0);
        orgStats := orgStats[org := OrgStats(s.modelCount + 1, s.avgScore + score)];
        assert orgStats == Bump(prev, entries[j].0, score);
        assert entries[..j + 1][..j] == entries[..j];
      }
      assert entries[..|registry|] == entries;
      AdmittedEntries(registry);
      TallyOrgsSane(old(orgStats), entries);
    }

    /** Run after the download and the parse: nothing happens unless the
        response parsed to an array; otherwise every record is judged in
        order and the organizations are tallied. */
    method Run(prims: Primitives, response: Option<JValue>) returns (processed: nat, skipped: nat)
      requires prims.Lawful() && Valid()
      modifies this`registry, this`orgStats
      ensures Valid()
      ensures !(response.Some? && response.value.JArray?) ==>
        registry == old(registry) && orgStats == old(orgStats) && processed == 0 && skipped == 0
      ensures response.Some? && response.value.JArray? ==>
        var t := Ingest(prims.stod, response.value.elems, old(NamesOf(registry)));
        && NamesOf(registry) == t.names && processed == t.processed && skipped == t.skipped
        && Provenance(registry, |old(registry)|,
                      RecordStates(prims, response.value.elems, Sources(prims.stod, response.value.elems, old(NamesOf(registry)))))
        && |old(registry)| <= |registry| && (forall j :: 0 <= j < |old(registry)| ==> registry[j] == old(registry)[j])
        && orgStats == TallyOrgs(old(orgStats), EntriesOf(registry))
    {
      processed, skipped := 0, 0;
      if response.Some? && response.value.JArray? {
        processed, skipped := RunOnArray(prims, response.value.elems);
      }
    }

    /** The array branch of Run: ingest every record, then tally. */
    method RunOnArray(prims: Primitives, items: seq<JValue>) returns (processed: nat, skipped: nat)
      requires prims.Lawful() && Valid()
      modifies this`registry, this`orgStats
      ensures Valid()
      ensures var t := Ingest(prims.stod, items, old(NamesOf(registry)));
        && NamesOf(registry) == t.names && processed == t.processed && skipped == t.skipped
      ensures |old(registry)| <= |registry| && forall j :: 0 <= j < |old(registry)| ==> registry[j] == old(registry)[j]
      ensures Provenance(registry, |old(registry)|, RecordStates(prims, items, Sources(prims.stod, items, old(NamesOf(registry)))))
      ensures orgStats == TallyOrgs(old(orgStats), EntriesOf(registry))
    {
      processed, skipped := IngestAll(prims, items);
      ComputeEcosystemShares();
    }

    /** The loop over the records: each one judged against the names
        registered so far, in order. */
    method IngestAll(prims: Primitives, items: seq<JValue>) returns (processed: nat, skipped: nat)
      requires prims.Lawful() && Valid()
      modifies this`registry
      ensures Valid()
      ensures var t := Ingest(prims.stod, items, old(NamesOf(registry)));
        && NamesOf(registry) == t.names && processed == t.processed && skipped == t.skipped
      ensures |old(registry)| <= |registry| && forall j :: 0 <= j < |old(registry)| ==> registry[j] == old(registry)[j]
      ensures Provenance(registry, |old(registry)|, RecordStates(prims, items, Sources(prims.stod, items, old(NamesOf(registry)))))
    {
      processed, skipped := 0, 0;
      ghost var start := NamesOf(registry);
      ghost var before := registry;
      for i := 0 to |items|
        invariant Valid()
        invariant |before| <= |registry| && forall j :: 0 <= j < |before| ==> registry[j] == before[j]
        invariant Ingest(prims.stod, items[..i], start) == Tally(NamesOf(registry), processed, skipped)
        invariant Provenance(registry, |start|, RecordStates(prims, items, Sources(prims.stod, items[..i], start)))
      {
        processed, skipped := IngestOne(prims, items, i, start, processed, skipped);
      }
      assert items[..|items|] == items;
    }

    /** One iteration: the record is judged and the counters follow. */
    method IngestOne(prims: Primitives, items: seq<JValue>, i: nat, ghost start: seq<string>, processed: nat, skipped: nat)
      returns (processed': nat, skipped': nat)
      requires prims.Lawful() && Valid() && i < |items|
      requires Ingest(prims.stod, items[..i], start) == Tally(NamesOf(registry), processed, skipped)
      requires Provenance(registry, |start|, RecordStates(prims, items, Sources(prims.stod, items[..i], start)))
      modifies this`registry
      ensures Valid()
      ensures |old(registry)| <= |registry| && forall j :: 0 <= j < |old(registry)| ==> registry[j] == old(registry)[j]
      ensures Ingest(prims.stod, items[..i + 1], start) == Tally(NamesOf(registry), processed', skipped')
      ensures Provenance(registry, |start|, RecordStates(prims, items, Sources(prims.stod, items[..i + 1], start)))
    {
      IngestStep(prims.stod, items, i, start);
      ghost var src := Sources(prims.stod, items[..i], start);
      processed', skipped' := processed, skipped;
      var v := Admit(prims, items[i]);
      if v.Registered? {
        processed' := processed + 1;
        assert (src + [i])[..|src|] == src;
        ProvenanceAppend(old(registry), |start|, RecordStates(prims, items, src), registry[|registry| - 1]);
      } else {
        if v.Skipped? {
          skipped' := skipped + 1;
        }
        assert src + [] == src;
      }
    }

    /** The exported document: every entity's snapshot, in registry order,
        and each organization's ecosystem score. */
    function ProcessToJSON(): (r: Export)
      reads this, registry
      ensures |r.models| == |registry|
      ensures forall i :: 0 <= i < |registry| ==> r.models[i] == registry[i].ToJSON()
      ensures r.ecosystem.Keys == orgStats.Keys
      ensures forall k :: k in orgStats ==> r.ecosystem[k] == EcosystemScore(orgStats[k])
    {
      Export(
        seq(|registry|, i reads this, registry requires 0 <= i < |registry| => registry[i].ToJSON()),
        map k | k in orgStats :: EcosystemScore(orgStats[k]))
    }

    /** In a valid engine every exported rank is in [0, 100], every exported
        confidence in [50, 99], and every organization scores 0.4 per model
        plus at most 3. */
    lemma ExportBounds()
      requires Valid()
      ensures var r := ProcessToJSON();
        && (forall i :: 0 <= i < |r.models| ==> InPercentRange(r.models[i].ranks)
                                                && 50.0 <= r.models[i].meta.confidence <= 99.0)
        && (forall k :: k in r.ecosystem ==>
              orgStats[k].modelCount as real * 0.4 <= r.ecosystem[k] <= orgStats[k].modelCount as real * 0.4 + 3.0)
    {
      forall k | k in orgStats
        ensures orgStats[k].modelCount as real * 0.4 <= EcosystemScore(orgStats[k]) <= orgStats[k].modelCount as real * 0.4 + 3.0
      {
        EcosystemScoreBounds(orgStats[k]);
      }
    }
  }
}
