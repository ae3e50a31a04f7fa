/**
 * `AIInsightsGenerator` (backend/api/src/ai_insights/ai_insights_generator.py)
 * without the language model: the analysis dictionary is a JSON-like value,
 * the chat completion is a function from the analysis the prompt is built
 * from to a reply or a raised exception, and whether a client exists is a
 * flag fixed when the generator is created.
 */
module AiInsights {
  import opened Wrappers
  import opened Reals
  import Text

  /** A JSON-like Python value: a number, a string, a dictionary, a list, or anything else (such as `None`). */
  datatype Value = Num(n: real) | Str(s: string) | Obj(fields: map<string, Value>) | List(items: seq<Value>) | Other

  type Analysis = map<string, Value>

  /** `d.get(key, default)`. */
  function Get(d: map<string, Value>, key: string, default: Value): (v: Value)
    ensures key in d ==> v == d[key]
    ensures key !in d ==> v == default
  {
    if key in d then d[key] else default
  }

  /** `d.get(key, {})` has a `.get` method to call: it is a dictionary. */
  predicate DictOrAbsent(d: map<string, Value>, key: string) {
    Get(d, key, Obj(map[])).Obj?
  }

  /** `len(v)` does not raise. */
  predicate HasLength(v: Value) {
    v.Str? || v.Obj? || v.List?
  }

  /**
   * Building the prompt does not raise: the `coords`, `risk`, `surfaces` and
   * `recommendation` entries are dictionaries where present, and the
   * interventions have a length. Formatting the other values cannot fail.
   */
  predicate PromptBuildable(analysis: Analysis) {
    DictOrAbsent(analysis, "coords") && DictOrAbsent(analysis, "risk") && DictOrAbsent(analysis, "surfaces")
    && DictOrAbsent(analysis, "recommendation")
    && HasLength(Get(Get(analysis, "recommendation", Obj(map[])).fields, "interventions", List([])))
  }

  /**
   * An analysis without any of the entries still builds, since every lookup
   * has a default; one whose `coords`, `risk`, `surfaces` or `recommendation`
   * entry is not a dictionary does not.
   */
  lemma PromptNeedsDictionaries(analysis: Analysis, key: string, v: Value)
    requires key in {"coords", "risk", "surfaces", "recommendation"} && !v.Obj?
    ensures PromptBuildable(map[])
    ensures !PromptBuildable(analysis[key := v])
  {
    var a := analysis[key := v];
    assert Get(a, key, Obj(map[])) == v;
  }

  /** What the chat completion call does: return a message, or raise. */
  datatype Reply = Raised | Message(content: string)

  /**
   * `generate_ai_insights`: `None` without a client or when anything raises,
   * otherwise the model's message with surrounding whitespace removed.
   */
  function GenerateAiInsights(hasClient: bool, analysis: Analysis, chat: Analysis -> Reply): (r: Option<string>)
    ensures !hasClient ==> r == None
    ensures hasClient && !PromptBuildable(analysis) ==> r == None
    ensures chat(analysis).Raised? ==> r == None
    ensures r.Some? <==> hasClient && PromptBuildable(analysis) && chat(analysis).Message?
    ensures r.Some? ==> r.value == Text.Strip(chat(analysis).content)
  {
    if !hasClient then None
    else if !PromptBuildable(analysis) then None
    else match chat(analysis)
      case Raised => None
      case Message(content) => Some(Text.Strip(content))
  }

  /** The score rescaled by the ratio of the new rainfall to the old one, never above 100. */
  function AdjustedScore(originalScore: real, originalRainfall: real, rainfall: real): (score: real)
    ensures score <= 100.0
    ensures score <= originalScore * (rainfall / Max(originalRainfall, 1.0))
    ensures score == 100.0 || score == originalScore * (rainfall / Max(originalRainfall, 1.0))
  {
    var rainfallFactor := rainfall / Max(originalRainfall, 1.0);
    Min(100.0, originalScore * rainfallFactor)
  }

  /** The same rainfall as before leaves a score of at most 100 where it was. */
  lemma AdjustedScoreUnchangedRainfall(originalScore: real, rainfall: real)
    requires rainfall >= 1.0 && originalScore <= 100.0
    ensures AdjustedScore(originalScore, rainfall, rainfall) == originalScore
  {
    assert rainfall / rainfall == 1.0;
  }

  /** For a non-negative score, more rain never lowers the adjusted score. */
  lemma AdjustedScoreMonotone(originalScore: real, originalRainfall: real, r1: real, r2: real)
    requires originalScore >= 0.0 && r1 <= r2
    ensures AdjustedScore(originalScore, originalRainfall, r1) <= AdjustedScore(originalScore, originalRainfall, r2)
  {
    var d := Max(originalRainfall, 1.0);
    DivideMonotone(r1, r2, d);
    MultiplyMonotone(originalScore, r1 / d, r2 / d);
    MinMonotone(100.0, originalScore * (r1 / d), originalScore * (r2 / d));
  }

  lemma DivideMonotone(a: real, b: real, d: real)
    requires a <= b && d >= 1.0
    ensures a / d <= b / d
  {
    assert (b - a) / d >= 0.0;
    assert b / d - a / d == (b - a) / d;
  }

  lemma MultiplyMonotone(s: real, a: real, b: real)
    requires s >= 0.0 && a <= b
    ensures s * a <= s * b
  {
    assert s * b - s * a == s * (b - a);
  }

  lemma MinMonotone(c: real, a: real, b: real)
    requires a <= b
    ensures Min(c, a) <= Min(c, b)
  {
  }

  /** A non-negative score and rainfall stay non-negative. */
  lemma AdjustedScoreNonNegative(originalScore: real, originalRainfall: real, rainfall: real)
    requires originalScore >= 0.0 && rainfall >= 0.0
    ensures AdjustedScore(originalScore, originalRainfall, rainfall) >= 0.0
  {
    var d := Max(originalRainfall, 1.0);
    assert rainfall / d >= 0.0;
  }

  datatype Level = Low | Medium | High {
    function Name(): string {
      match this
      case Low => "LOW"
      case Medium => "MEDIUM"
      case High => "HIGH"
    }
  }

  /** The level of an adjusted score: 33 and 66 still belong to the lower level. */
  function LevelOf(score: real): (level: Level)
    ensures level == Low <==> score <= 33.0
    ensures level == Medium <==> 33.0 < score <= 66.0
    ensures level == High <==> 66.0 < score
  {
    if score <= 33.0 then Low
    else if score <= 66.0 then Medium
    else High
  }

  /** The `risk` entry of the rescaled analysis. */
  function RiskEntry(score: real): Value {
    Obj(map["score" := Num(score), "level" := Str(LevelOf(score).Name())])
  }

  /**
   * The analysis `generate_dynamic_insights` asks about, or `None` when
   * computing it raises: the stored rainfall (default 25) and score
   * (default 50) must be numbers and the stored risk a dictionary.
   */
  function Scenario(analysis: Analysis, rainfall: real): (updated: Option<Analysis>)
    ensures updated.Some? <==> Get(analysis, "rainfall_mm", Num(25.0)).Num? && DictOrAbsent(analysis, "risk")
                               && Get(Get(analysis, "risk", Obj(map[])).fields, "score", Num(50.0)).Num?
  {
    var originalRainfall := Get(analysis, "rainfall_mm", Num(25.0));
    var risk := Get(analysis, "risk", Obj(map[]));
    if !originalRainfall.Num? || !risk.Obj? then None
    else
      var originalScore := Get(risk.fields, "score", Num(50.0));
      if !originalScore.Num? then None
      else
        var score := AdjustedScore(originalScore.n, originalRainfall.n, rainfall);
        Some(analysis["rainfall_mm" := Num(rainfall)]["risk" := RiskEntry(score)])
  }

  /**
   * The copy has the caller's entries plus `rainfall_mm` and `risk`; every
   * other entry is the caller's, and `rainfall_mm` is the new rainfall.
   */
  lemma ScenarioKeepsEntries(analysis: Analysis, rainfall: real)
    requires Scenario(analysis, rainfall).Some?
    ensures Scenario(analysis, rainfall).value.Keys == analysis.Keys + {"rainfall_mm", "risk"}
    ensures forall k :: k in analysis && k != "rainfall_mm" && k != "risk" ==>
              Scenario(analysis, rainfall).value[k] == analysis[k]
    ensures Scenario(analysis, rainfall).value["rainfall_mm"] == Num(rainfall)
  {
  }

  /** The new risk entry holds the adjusted score, at most 100, and its level. */
  lemma ScenarioRisk(analysis: Analysis, rainfall: real)
    requires Scenario(analysis, rainfall).Some?
    ensures
      var risk := Scenario(analysis, rainfall).value["risk"];
      var originalScore := Get(Get(analysis, "risk", Obj(map[])).fields, "score", Num(50.0)).n;
      var originalRainfall := Get(analysis, "rainfall_mm", Num(25.0)).n;
      var score := AdjustedScore(originalScore, originalRainfall, rainfall);
      risk == RiskEntry(score) && score <= 100.0
  {
  }

  /**
   * `generate_dynamic_insights`: copy the analysis, set the new rainfall,
   * rescale the score and its level, and ask for insights about the copy;
   * `None` without a client or when anything raises.
   */
  method GenerateDynamicInsights(hasClient: bool, analysis: Analysis, rainfall: real, chat: Analysis -> Reply)
    returns (r: Option<string>)
    ensures !hasClient ==> r == None
    ensures Scenario(analysis, rainfall).None? ==> r == None
    ensures hasClient && Scenario(analysis, rainfall).Some? ==>
              r == GenerateAiInsights(hasClient, Scenario(analysis, rainfall).value, chat)
  {
    if !hasClient {
      return None;
    }
    var updatedAnalysis := analysis;
    updatedAnalysis := updatedAnalysis["rainfall_mm" := Num(rainfall)];
    var originalRainfall := Get(analysis, "rainfall_mm", Num(25.0));
    var risk := Get(analysis, "risk", Obj(map[]));
    if !risk.Obj? {
      return None;
    }
    var originalScore := Get(risk.fields, "score", Num(50.0));
    if !originalRainfall.Num? || !originalScore.Num? {
      return None;
    }
    var rainfallFactor := rainfall / Max(originalRainfall.n, 1.0);
    var adjustedScore := Min(100.0, originalScore.n * rainfallFactor);
    updatedAnalysis := updatedAnalysis["risk" := RiskEntry(adjustedScore)];
    assert adjustedScore == AdjustedScore(originalScore.n, originalRainfall.n, rainfall);
    assert updatedAnalysis == Scenario(analysis, rainfall).value;
    r := GenerateAiInsights(hasClient, updatedAnalysis, chat);
  }
}
