/** KnowledgeBase::Enrich of src/scraper.cpp: fills in an entity's modality
    tags and metrics from its raw JSON record, falling back on substrings of
    the lower-cased model name where the record says nothing. */
module KnowledgeBase {
  import opened Utils
  import opened Scoring
  import opened Entity

  // ---------------------------------------------------------------------------
  // Modality detection
  // ---------------------------------------------------------------------------

  /** The modality a lower-cased tag of the "modalities" list names, if any. */
  function TagModality(tag: string): (r: Option<Modality>)
    ensures r == Some(Image) <==> tag == "image" || tag == "vision"
    ensures r == Some(Video) <==> tag == "video"
    ensures r == Some(Text) <==> tag == "text"
  {
    if tag == "image" || tag == "vision" then Some(Image)
    else if tag == "video" then Some(Video)
    else if tag == "text" then Some(Text)
    else None
  }

  function TagSet(tag: string): set<Modality> {
    match TagModality(tag)
    case Some(x) => {x}
    case None => {}
  }

  /** The modalities an explicit tag list names, read front to back; nothing
      when some tag is not a string (reading it as one throws). */
  function TagModalities(tags: seq<JValue>): Option<set<Modality>> {
    if tags == [] then Some({})
    else match TagModalities(tags[..|tags| - 1])
      case None => None
      case Some(mods) =>
        var last := tags[|tags| - 1];
        if last.JStr? then Some(mods + TagSet(ToLower(last.s))) else None
  }

  /** Tag i of the list names modality x. */
  predicate TagNames(tags: seq<JValue>, i: int, x: Modality) {
    0 <= i < |tags| && tags[i].JStr? && TagModality(ToLower(tags[i].s)) == Some(x)
  }

  /** The tag list fails exactly when one of its tags is not a string, and
      otherwise yields exactly the modalities some tag names. */
  lemma TagModalitiesIff(tags: seq<JValue>)
    ensures TagModalities(tags).None? <==> exists i :: 0 <= i < |tags| && !tags[i].JStr?
    ensures TagModalities(tags).Some? ==>
      forall x :: x in TagModalities(tags).value <==> exists i :: TagNames(tags, i, x)
  {
    TagModalitiesFails(tags);
    if TagModalities(tags).Some? {
      TagModalitiesNames(tags);
    }
  }

  lemma {:induction false} TagModalitiesFails(tags: seq<JValue>)
    ensures TagModalities(tags).None? <==> exists i :: 0 <= i < |tags| && !tags[i].JStr?
  {
    if tags != [] {
      var init, last := tags[..|tags| - 1], tags[|tags| - 1];
      TagModalitiesFails(init);
      if TagModalities(init).None? {
        var i :| 0 <= i < |init| && !init[i].JStr?;
        assert tags[i] == init[i];
      } else if last.JStr? {
        forall i | 0 <= i < |tags| ensures tags[i].JStr? {
          if i < |init| {
            assert init[i] == tags[i];
          }
        }
      } else {
        assert !tags[|tags| - 1].JStr?;
      }
    }
  }

  lemma TagModalitiesNames(tags: seq<JValue>)
    requires TagModalities(tags).Some?
    ensures forall x :: x in TagModalities(tags).value <==> exists i :: TagNames(tags, i, x)
  {
    forall x
      ensures x in TagModalities(tags).value <==> exists i :: TagNames(tags, i, x)
    {
      if x in TagModalities(tags).value {
        TagModalitiesSound(tags, x);
      }
      if exists i :: TagNames(tags, i, x) {
        var i :| TagNames(tags, i, x);
        TagModalitiesComplete(tags, i, x);
      }
    }
  }

  /** Every modality read from the list is named by some tag. */
  lemma {:induction false} TagModalitiesSound(tags: seq<JValue>, x: Modality)
    requires TagModalities(tags).Some? && x in TagModalities(tags).value
    ensures exists i :: TagNames(tags, i, x)
  {
    var init, last := tags[..|tags| - 1], tags[|tags| - 1];
    if x in TagModalities(init).value {
      TagModalitiesSound(init, x);
      var i :| TagNames(init, i, x);
      assert init[i] == tags[i];
      assert TagNames(tags, i, x);
    } else {
      assert TagNames(tags, |tags| - 1, x);
    }
  }

  /** Every modality some tag names is read from the list. */
  lemma {:induction false} TagModalitiesComplete(tags: seq<JValue>, i: int, x: Modality)
    requires TagModalities(tags).Some? && TagNames(tags, i, x)
    ensures x in TagModalities(tags).value
  {
    var init := tags[..|tags| - 1];
    if i < |init| {
      assert init[i] == tags[i];
      TagModalitiesComplete(init, i, x);
    } else {
      assert i == |tags| - 1;
    }
  }

  /** Some word of the list occurs in n. */
  predicate ContainsAny(n: string, words: seq<string>) {
    exists i :: 0 <= i < |words| && Contains(n, words[i])
  }

  const ImageGeneratorNames: seq<string> := ["midjourney", "stable diffusion", "dall-e", "imagen"]
  const VideoGeneratorNames: seq<string> :=
    ["sora", "runway", "gen-2", "gen-3", "pika", "animatediff", "stable video", "kling", "video generation"]

  /** Text models that also take images (GPT-4, Claude 3+, Gemini, Qwen-VL, ...). */
  predicate VisionCapableName(n: string) {
    || ContainsAny(n, ["gpt-4", "gpt-5", "claude 3", "claude 4", "gemini"])
    || (Contains(n, "qwen") && Contains(n, "vl"))
    || ContainsAny(n, ["llama 3.2 11b", "llama 3.2 90b"])
    || (Contains(n, "grok") && ContainsAny(n, ["-2", "-3", "-4"]))
    || ContainsAny(n, ["pixtral", "qvq", "vision", "-vl", "diffusion"])
  }

  /** The fallback when the record has no tag list: image generators,
      then video generators, then vision-capable text models; Text always. */
  function NameModalities(n: string): (r: set<Modality>)
    ensures Text in r
    ensures r == {Text} || r == {Text, Image} || r == {Text, Video}
    ensures Video in r <==> !ContainsAny(n, ImageGeneratorNames) && ContainsAny(n, VideoGeneratorNames)
    ensures Image in r <==> ContainsAny(n, ImageGeneratorNames)
                            || (!ContainsAny(n, VideoGeneratorNames) && VisionCapableName(n))
  {
    if ContainsAny(n, ImageGeneratorNames) then {Image, Text}
    else if ContainsAny(n, VideoGeneratorNames) then {Video, Text}
    else if VisionCapableName(n) then {Image, Text}
    else {Text}
  }

  /** The modalities Enrich adds: the tag list when "modalities" holds an
      array, the name fallback otherwise; nothing when a tag is not a string. */
  function DetectedModalities(item: map<string, JValue>, n: string): Option<set<Modality>> {
    if "modalities" in item && item["modalities"].JArray? then TagModalities(item["modalities"].elems)
    else Some(NameModalities(n))
  }

  /** Without a usable tag list, the entity always gets Text and never both
      Image and Video. */
  lemma FallbackModalities(item: map<string, JValue>, n: string)
    requires !("modalities" in item && item["modalities"].JArray?)
    ensures DetectedModalities(item, n).Some?
    ensures Text in DetectedModalities(item, n).value
    ensures !(Image in DetectedModalities(item, n).value && Video in DetectedModalities(item, n).value)
  {}

  // ---------------------------------------------------------------------------
  // Metrics
  // ---------------------------------------------------------------------------

  /** price_input_1m: a parsed price strictly between 0 and 1 is read as a
      per-token price and scaled to one million tokens; without a price,
      10 for GPT-4, 0.25 for Flash, 0 otherwise. */
  function InputPrice(stod: string -> Option<real>, item: map<string, JValue>, n: string): real {
    match TryGetDouble(stod, item, "input_price")
    case Some(raw) => if raw < 1.0 && raw > 0.0 then raw * 1000000.0 else raw
    case None =>
      if Contains(n, "gpt-4") then 10.0
      else if Contains(n, "flash") then 0.25
      else 0.0
  }

  /** The conversion never makes a non-negative price negative, keeps every
      price of at least 1 (or exactly 0) as it is, and maps the per-token
      range (0, 1) onto (0, 1000000). */
  lemma InputPriceUnits(stod: string -> Option<real>, item: map<string, JValue>, n: string)
    ensures TryGetDouble(stod, item, "input_price").None? ==> InputPrice(stod, item, n) in {10.0, 0.25, 0.0}
    ensures TryGetDouble(stod, item, "input_price").Some? ==>
      var raw := TryGetDouble(stod, item, "input_price").value;
      && (0.0 <= raw ==> 0.0 <= InputPrice(stod, item, n))
      && (1.0 <= raw || raw <= 0.0 ==> InputPrice(stod, item, n) == raw)
      && (0.0 < raw < 1.0 ==> 0.0 < InputPrice(stod, item, n) < 1000000.0)
  {
    match TryGetDouble(stod, item, "input_price")
    case Some(raw) =>
      if 0.0 < raw < 1.0 {
        MultiplyMonotone(raw, 1.0, 1000000.0);
        MultiplyMonotone(0.0, raw, 1000000.0);
        assert 0.0 < raw * 1000000.0 by {
          if raw * 1000000.0 <= 0.0 {
            DivideMonotone(raw * 1000000.0, 0.0, 1000000.0);
          }
        }
      }
    case None =>
  }

  /** Open-weight families, recognised by name. */
  predicate IsOpenSourceName(n: string) {
    Contains(n, "llama") || Contains(n, "mistral") || Contains(n, "qwen") || Contains(n, "falcon")
  }

  /** The organizations treated as enterprise vendors (lower-cased). */
  predicate IsEnterpriseOrg(o: string) {
    o == "openai" || o == "anthropic" || o == "google" || o == "microsoft"
  }

  /** coding_score: the record's coding_score, else its humaneval, else an
      estimate from final_score (x1.05 for "code" models, x0.85 otherwise). */
  function CodingScore(stod: string -> Option<real>, item: map<string, JValue>, n: string, finalScore: real): real {
    match TryGetDouble(stod, item, "coding_score")
    case Some(c) => c
    case None =>
      match TryGetDouble(stod, item, "humaneval")
      case Some(c) => c
      case None => if Contains(n, "code") then finalScore * 1.05 else finalScore * 0.85
  }

  /** The estimate for "code" models is not capped: a final score of 1
      yields a coding score of 1.05. */
  lemma CodingEstimateExceedsOne(stod: string -> Option<real>)
    ensures CodingScore(stod, map[], "deepseek code", 1.0) == 1.05
  {
    assert Contains("deepseek code", "code") by {
      assert OccursAt("deepseek code", "code", 9);
      ContainsIff("deepseek code", "code");
    }
  }

  /** creative_score: the record's value capped at 1, else final_score scaled
      by 1.1 (image or video models), 0.95 (GPT-4, Claude, Gemini) or 0.80,
      capped at 1. */
  function CreativeScore(stod: string -> Option<real>, item: map<string, JValue>, n: string, finalScore: real, mods: set<Modality>): (c: real)
    ensures c <= 1.0
    ensures TryGetDouble(stod, item, "creative_score").Some? ==> c == Min(1.0, TryGetDouble(stod, item, "creative_score").value)
    ensures 0.0 <= finalScore && TryGetDouble(stod, item, "creative_score").None? ==> 0.0 <= c
  {
    match TryGetDouble(stod, item, "creative_score")
    case Some(c) => Min(1.0, c)
    case None =>
      if Image in mods || Video in mods then Min(1.0, finalScore * 1.1)
      else if Contains(n, "gpt-4") || Contains(n, "claude") || Contains(n, "gemini") then Min(1.0, finalScore * 0.95)
      else Min(1.0, finalScore * 0.80)
  }

  /** context_window: the record's context_length over 200000, capped at 1;
      otherwise 0.8 for names mentioning 128k or 200k, else 0.5. */
  function ContextWindow(stod: string -> Option<real>, item: map<string, JValue>, n: string): (c: real)
    ensures c <= 1.0
    ensures TryGetDouble(stod, item, "context_length").None? ==> c == 0.5 || c == 0.8
    ensures TryGetDouble(stod, item, "context_length").Some? && 0.0 <= TryGetDouble(stod, item, "context_length").value
      ==> 0.0 <= c
  {
    match TryGetDouble(stod, item, "context_length")
    case Some(len) =>
      assert 0.0 <= len ==> 0.0 <= len / 200000.0 by {
        if 0.0 <= len {
          DivideMonotone(0.0, len, 200000.0);
        }
      }
      Min(1.0, len / 200000.0)
    case None => if Contains(n, "128k") || Contains(n, "200k") then 0.8 else 0.5
  }

  /** tokens_per_sec: throughput, else tokens_per_second, else 120 (turbo),
      150 (flash), 100 (mini) or 50. */
  function Throughput(stod: string -> Option<real>, item: map<string, JValue>, n: string): (t: real)
    ensures TryGetDouble(stod, item, "throughput").None? && TryGetDouble(stod, item, "tokens_per_second").None?
      ==> t in {120.0, 150.0, 100.0, 50.0}
  {
    match TryGetDouble(stod, item, "throughput")
    case Some(t) => t
    case None =>
      match TryGetDouble(stod, item, "tokens_per_second")
      case Some(t) => t
      case None =>
        if Contains(n, "turbo") then 120.0
        else if Contains(n, "flash") then 150.0
        else if Contains(n, "mini") then 100.0
        else 50.0
  }

  /** The key is present and not null. */
  predicate HasValue(item: map<string, JValue>, key: string) {
    key in item && !item[key].JNull?
  }

  /** last_updated_days_ago: 90 with a release date, 60 with an update time,
      otherwise by the year in the name (2025: 15, 2024: 90, 2023: 365), else 180. */
  function DaysAgo(item: map<string, JValue>, n: string): (d: int)
    ensures d in {15, 60, 90, 180, 365}
    ensures HasValue(item, "release_date") ==> d == 90
  {
    if HasValue(item, "release_date") then 90
    else if HasValue(item, "updated_at") then 60
    else if Contains(n, "2025") then 15
    else if Contains(n, "2024") then 90
    else if Contains(n, "2023") then 365
    else 180
  }

  /** The metrics after Enrich, for an entity with the given name, lower-cased
      organization, fused score and (already updated) modality set. */
  function EnrichedMetrics(stod: string -> Option<real>, item: map<string, JValue>, n: string, o: string,
                           m: Metrics, finalScore: real, mods: set<Modality>): (r: Metrics)
    ensures r.isEnterpriseReady <==> IsEnterpriseOrg(o)
    ensures r.isEnterpriseReady ==> r.orgMaturity == 0.95 && r.uptimeSla == 0.99
    ensures !r.isEnterpriseReady ==> r.orgMaturity == 0.5 && r.uptimeSla == 0.8
    ensures r.creativeScore <= 1.0 && r.contextWindow <= 1.0
    ensures r.reasoningScore == finalScore
    ensures r.lastUpdatedDaysAgo in {15, 60, 90, 180, 365}
    ensures r.recencyBonus == m.recencyBonus
  {
    var enterprise := IsEnterpriseOrg(o);
    m.(priceInput1m := InputPrice(stod, item, n),
       isOpenSource := IsOpenSourceName(n),
       isEnterpriseReady := enterprise,
       orgMaturity := if enterprise then 0.95 else 0.5,
       uptimeSla := if enterprise then 0.99 else 0.8,
       codingScore := CodingScore(stod, item, n, finalScore),
       reasoningScore := finalScore,
       creativeScore := CreativeScore(stod, item, n, finalScore, mods),
       contextWindow := ContextWindow(stod, item, n),
       tokensPerSec := Throughput(stod, item, n),
       lastUpdatedDaysAgo := DaysAgo(item, n))
  }

  /** Enterprise vendors outrank everyone else on the enterprise projection
      by exactly 19.2 points at equal confidence: (0.99 - 0.8) * 30 for
      uptime plus (0.95 - 0.5) * 30 for maturity. */
  lemma EnterpriseRankGap(stod: string -> Option<real>, item: map<string, JValue>, n: string, vendor: string, other: string,
                          m: Metrics, finalScore: real, mods: set<Modality>, confidence: real)
    requires IsEnterpriseOrg(vendor) && !IsEnterpriseOrg(other)
    ensures EnterpriseRank(confidence, EnrichedMetrics(stod, item, n, vendor, m, finalScore, mods))
         == EnterpriseRank(confidence, EnrichedMetrics(stod, item, n, other, m, finalScore, mods)) + 19.2
  {}

  /** The modality half of Enrich: inserts the detected tags into m's set;
      false when a tag is not a string. */
  method InsertModalities(m: ModelEntity, item: map<string, JValue>, n: string) returns (ok: bool)
    modifies m`modalities
    ensures ok <==> DetectedModalities(item, n).Some?
    ensures ok ==> m.modalities == old(m.modalities) + DetectedModalities(item, n).value
  {
    if "modalities" in item && item["modalities"].JArray? {
      var tags := item["modalities"].elems;
      var i := 0;
      while i < |tags|
        invariant 0 <= i <= |tags|
        invariant TagModalities(tags[..i]).Some?
        invariant m.modalities == old(m.modalities) + TagModalities(tags[..i]).value
      {
        assert tags[..i + 1][..i] == tags[..i];
        if !tags[i].JStr? {
          TagModalitiesIff(tags);
          return false;
        }
        var modStr := ToLower(tags[i].s);
        if modStr == "image" || modStr == "vision" {
          m.modalities := m.modalities + {Image};
        } else if modStr == "video" {
          m.modalities := m.modalities + {Video};
        } else if modStr == "text" {
          m.modalities := m.modalities + {Text};
        }
        i := i + 1;
      }
      assert tags[..i] == tags;
    } else {
      if ContainsAny(n, ImageGeneratorNames) {
        m.modalities := m.modalities + {Image};
        m.modalities := m.modalities + {Text};
      } else if ContainsAny(n, VideoGeneratorNames) {
        m.modalities := m.modalities + {Video};
        m.modalities := m.modalities + {Text};
      } else if VisionCapableName(n) {
        m.modalities := m.modalities + {Image};
        m.modalities := m.modalities + {Text};
      } else {
        m.modalities := m.modalities + {Text};
      }
    }
    ok := true;
  }

  /** Enriches m from its raw record; false when the record's tag list holds
      a value that is not a string, where the source throws and the entity
      is discarded. */
  method Enrich(stod: string -> Option<real>, m: ModelEntity, item: map<string, JValue>) returns (ok: bool)
    modifies m`modalities, m`metrics
    ensures ok <==> DetectedModalities(item, ToLower(m.name)).Some?
    ensures ok ==> m.modalities == old(m.modalities) + DetectedModalities(item, ToLower(m.name)).value
    ensures ok ==> m.metrics == EnrichedMetrics(stod, item, ToLower(m.name), ToLower(m.organization),
                                                old(m.metrics), m.finalScore, m.modalities)
    ensures !ok ==> m.metrics == old(m.metrics)
  {
    var n := ToLower(m.name);
    var o := ToLower(m.organization);

    ok := InsertModalities(m, item, n);
    if !ok {
      return;
    }

    // The fields are filled in one by one on a copy that is stored at the
    // end; nothing in between reads m.metrics.
    var metrics := m.metrics;
    metrics := metrics.(priceInput1m := InputPrice(stod, item, n));
    metrics := metrics.(isOpenSource := IsOpenSourceName(n));
    metrics := metrics.(isEnterpriseReady := IsEnterpriseOrg(o));
    if metrics.isEnterpriseReady {
      metrics := metrics.(orgMaturity := 0.95, uptimeSla := 0.99);
    } else {
      metrics := metrics.(orgMaturity := 0.5, uptimeSla := 0.8);
    }
    metrics := metrics.(codingScore := CodingScore(stod, item, n, m.finalScore));
    metrics := metrics.(reasoningScore := m.finalScore);
    metrics := metrics.(creativeScore := CreativeScore(stod, item, n, m.finalScore, m.modalities));
    metrics := metrics.(contextWindow := ContextWindow(stod, item, n));
    metrics := metrics.(tokensPerSec := Throughput(stod, item, n));
    metrics := metrics.(lastUpdatedDaysAgo := DaysAgo(item, n));
    assert metrics == EnrichedMetrics(stod, item, n, o, old(m.metrics), m.finalScore, m.modalities);
    m.metrics := metrics;
  }
}
