/**
 * The point flood-risk scorer (`FloodRiskScorer` in
 * backend/api/src/scoring/flood_score.py): normalised rainfall, slope and
 * surface features are combined into a weighted sum, raised to the power 1.2,
 * clamped to [0, 100], adjusted by two guardrails and bucketed into
 * LOW/MEDIUM/HIGH; helper classifiers describe each input.
 *
 * The power `x ** 1.2` is not evaluated here: every function that needs it
 * takes it as the parameter `pow`, and only the monotonicity lemma asks
 * anything of it.
 */
module FloodScore {
  import opened Wrappers
  import opened Reals
  import Text

  /** The risk bucket of a final score. */
  datatype Level = Low | Medium | High {
    function Name(): string {
      match this
      case Low => "LOW"
      case Medium => "MEDIUM"
      case High => "HIGH"
    }

    function Rank(): nat {
      match this
      case Low => 0
      case Medium => 1
      case High => 2
    }
  }

  datatype Guardrail = MinimumFloorHeavyRain | MaximumCapLightRain

  /**
   * The weighted sum is negative. Python then raises `x ** 1.2` to a complex
   * number, and `max(0.0, ...)` raises a TypeError when it compares the two.
   */
  datatype ScoreError = NegativeRawRisk(riskRaw: real)

  datatype NormalizedFeatures = NormalizedFeatures(
    asphalt: real, greenery: real, slope: real, rainfall: real,
    flatness: real, lowgreen: real, drainPenalty: real)

  datatype Components = Components(
    rainfallImpact: string, surfaceImpact: string, slopeImpact: string,
    drainageImpact: string, greeneryBenefit: string)

  datatype ScoreResult = ScoreResult(
    score: real, level: Level, features: NormalizedFeatures,
    guardrail: Option<Guardrail>, components: Components)

  /** `surfaces.get(key, 0)`. */
  function SurfacePct(surfaces: map<string, real>, key: string): real {
    if key in surfaces then surfaces[key] else 0.0
  }

  /** The power term is non-decreasing wherever it is defined. */
  ghost predicate MonotoneOnNonNegatives(pow: real -> real) {
    forall x: real, y: real :: 0.0 <= x <= y ==> pow(x) <= pow(y)
  }

  // ---------------------------------------------------------------------------
  // compute_score

  /** The drain penalty: 0.15 for "none", -0.05 for "ok", ignoring case; 0 otherwise. */
  function DrainPenalty(drains: string): (p: real)
    ensures -0.05 <= p <= 0.15
  {
    var d := Text.Lower(drains);
    if d == "none" then 0.15 else if d == "ok" then -0.05 else 0.0
  }

  /** The penalty does not depend on the case of the drains label. */
  lemma DrainPenaltyIgnoresCase(drains: string)
    ensures DrainPenalty(Text.Lower(drains)) == DrainPenalty(drains)
  {
    Text.LowerIdempotent(drains);
  }

  /** Step 2 and 3: the inputs on a [0, 1] scale and the two inverted features. */
  function Normalize(rainfall: real, slope: real, asphaltPct: real, greeneryPct: real, drains: string)
    : (f: NormalizedFeatures)
    ensures f.slope <= 1.0 && f.rainfall <= 1.0
    ensures f.slope == 1.0 <==> slope >= 5.0
    ensures f.rainfall == 1.0 <==> rainfall >= 50.0
    ensures slope >= 0.0 ==> 0.0 <= f.slope && 0.0 <= f.flatness <= 1.0
    ensures rainfall >= 0.0 ==> 0.0 <= f.rainfall
    ensures f.flatness + f.slope == 1.0 && f.lowgreen + f.greenery == 1.0
    ensures f.drainPenalty == DrainPenalty(drains)
  {
    var a := asphaltPct / 100.0;
    var g := greeneryPct / 100.0;
    var s := Min(1.0, slope / 5.0);
    var r := Min(1.0, rainfall / 50.0);
    NormalizedFeatures(a, g, s, r, 1.0 - s, 1.0 - g, DrainPenalty(drains))
  }

  /** Step 4: the weighted sum before the power. */
  function WeightedSum(f: NormalizedFeatures): real {
    (0.35 * f.asphalt + 0.25 * f.flatness + 0.25 * f.rainfall + 0.15 * f.lowgreen) + f.drainPenalty
  }

  function Features(rainfall: real, slope: real, surfaces: map<string, real>, drains: string): NormalizedFeatures {
    Normalize(rainfall, slope, SurfacePct(surfaces, "asphalt"), SurfacePct(surfaces, "greenery"), drains)
  }

  /** `risk_raw` for the given inputs. */
  function RiskRaw(rainfall: real, slope: real, surfaces: map<string, real>, drains: string): real {
    WeightedSum(Features(rainfall, slope, surfaces, drains))
  }

  /** `min(100.0, max(0.0, x))`. */
  function Clamp(x: real): (r: real)
    ensures 0.0 <= r <= 100.0
    ensures 0.0 <= x <= 100.0 ==> r == x
    ensures x <= 0.0 ==> r == 0.0
    ensures x >= 100.0 ==> r == 100.0
  {
    Min(100.0, Max(0.0, x))
  }

  /** The score after the clamp and before the guardrails. */
  function UnguardedScore(rainfall: real, slope: real, surfaces: map<string, real>, drains: string, pow: real -> real): real
    requires RiskRaw(rainfall, slope, surfaces, drains) >= 0.0
  {
    Clamp(100.0 * pow(RiskRaw(rainfall, slope, surfaces, drains)))
  }

  /** Heavy rain on flat ground with more than 20% asphalt. */
  predicate FloorCondition(rainfall: real, slope: real, asphaltPct: real) {
    slope < 1.5 && asphaltPct > 20.0 && rainfall >= 50.0
  }

  /** Light rain on steep ground with more than 50% greenery. */
  predicate CapCondition(rainfall: real, slope: real, greeneryPct: real) {
    greeneryPct > 50.0 && slope > 3.0 && rainfall <= 25.0
  }

  /** The two guardrails can never both be triggered: one needs rain >= 50, the other rain <= 25. */
  lemma GuardrailConditionsExclusive(rainfall: real, slope: real, asphaltPct: real, greeneryPct: real)
    ensures !(FloorCondition(rainfall, slope, asphaltPct) && CapCondition(rainfall, slope, greeneryPct))
  {
  }

  /** Step 5: raise the score to 30 or lower it to 25, recording which guardrail did so. */
  function ApplyGuardrails(score: real, rainfall: real, slope: real, asphaltPct: real, greeneryPct: real)
    : (r: (real, Option<Guardrail>))
    ensures 0.0 <= score <= 100.0 ==> 0.0 <= r.0 <= 100.0
    ensures FloorCondition(rainfall, slope, asphaltPct) ==>
              r.0 >= 30.0 && r.0 == Max(score, 30.0) &&
              (r.1 == Some(MinimumFloorHeavyRain) <==> score < 30.0) &&
              (r.1.None? <==> score >= 30.0)
    ensures !FloorCondition(rainfall, slope, asphaltPct) && CapCondition(rainfall, slope, greeneryPct) ==>
              r.0 <= 25.0 && r.0 == Min(score, 25.0) &&
              (r.1 == Some(MaximumCapLightRain) <==> score > 25.0) &&
              (r.1.None? <==> score <= 25.0)
    ensures !FloorCondition(rainfall, slope, asphaltPct) && !CapCondition(rainfall, slope, greeneryPct) ==>
              r == (score, None)
    ensures r.1.None? ==> r.0 == score
  {
    if FloorCondition(rainfall, slope, asphaltPct) then
      if score < 30.0 then (30.0, Some(MinimumFloorHeavyRain)) else (score, None)
    else if CapCondition(rainfall, slope, greeneryPct) then
      if score > 25.0 then (25.0, Some(MaximumCapLightRain)) else (score, None)
    else
      (score, None)
  }

  /** Step 6: 0-24 LOW, 25-59 MEDIUM, 60-100 HIGH. */
  function LevelOf(score: real): (l: Level)
    ensures l == Low <==> score < 25.0
    ensures l == Medium <==> 25.0 <= score < 60.0
    ensures l == High <==> score >= 60.0
  {
    if score < 25.0 then Low else if score < 60.0 then Medium else High
  }

  /** A higher score never falls into a lower bucket. */
  lemma LevelMonotone(a: real, b: real)
    requires a <= b
    ensures LevelOf(a).Rank() <= LevelOf(b).Rank()
  {
  }

  /** `compute_score`: the calibrated score, its bucket, the features and the components. */
  function ComputeScore(rainfall: real, slope: real, surfaces: map<string, real>, drains: string, pow: real -> real)
    : (r: Result<ScoreResult, ScoreError>)
    ensures r.Failure? <==> RiskRaw(rainfall, slope, surfaces, drains) < 0.0
    ensures r.Success? ==> 0.0 <= r.value.score <= 100.0
    ensures r.Success? ==> r.value.level == LevelOf(r.value.score)
    ensures r.Success? && FloorCondition(rainfall, slope, SurfacePct(surfaces, "asphalt")) ==>
              r.value.score >= 30.0
    ensures r.Success? && CapCondition(rainfall, slope, SurfacePct(surfaces, "greenery")) ==>
              r.value.score <= 25.0
    ensures r.Success? ==>
              (r.value.guardrail == Some(MinimumFloorHeavyRain) <==>
                FloorCondition(rainfall, slope, SurfacePct(surfaces, "asphalt")) &&
                UnguardedScore(rainfall, slope, surfaces, drains, pow) < 30.0)
    ensures r.Success? ==>
              (r.value.guardrail == Some(MaximumCapLightRain) <==>
                !FloorCondition(rainfall, slope, SurfacePct(surfaces, "asphalt")) &&
                CapCondition(rainfall, slope, SurfacePct(surfaces, "greenery")) &&
                UnguardedScore(rainfall, slope, surfaces, drains, pow) > 25.0)
    ensures r.Success? && r.value.guardrail.None? ==>
              r.value.score == UnguardedScore(rainfall, slope, surfaces, drains, pow)
    ensures r.Success? ==>
              r.value.features == Normalize(rainfall, slope, SurfacePct(surfaces, "asphalt"),
                                            SurfacePct(surfaces, "greenery"), drains)
    ensures r.Success? ==>
              r.value.components == Components(
                AssessRainfall(rainfall), AssessSurface(SurfacePct(surfaces, "asphalt")), AssessSlope(slope),
                AssessDrains(drains), AssessGreenery(SurfacePct(surfaces, "greenery")))
  {
    var asphalt := SurfacePct(surfaces, "asphalt");
    var greenery := SurfacePct(surfaces, "greenery");
    var f := Normalize(rainfall, slope, asphalt, greenery, drains);
    var raw := WeightedSum(f);
    if raw < 0.0 then
      Failure(NegativeRawRisk(raw))
    else
      GuardrailConditionsExclusive(rainfall, slope, asphalt, greenery);
      var guarded := ApplyGuardrails(Clamp(100.0 * pow(raw)), rainfall, slope, asphalt, greenery);
      var components := Components(
        AssessRainfall(rainfall), AssessSurface(asphalt), AssessSlope(slope),
        AssessDrains(drains), AssessGreenery(greenery));
      Success(ScoreResult(guarded.0, LevelOf(guarded.0), f, guarded.1, components))
  }

  /** A score held down by the light-rain cap is exactly 25.0, so it is MEDIUM, not LOW. */
  lemma CappedScoreIsMedium(rainfall: real, slope: real, surfaces: map<string, real>, drains: string, pow: real -> real)
    requires ComputeScore(rainfall, slope, surfaces, drains, pow).Success?
    requires ComputeScore(rainfall, slope, surfaces, drains, pow).value.guardrail == Some(MaximumCapLightRain)
    ensures ComputeScore(rainfall, slope, surfaces, drains, pow).value.score == 25.0
    ensures ComputeScore(rainfall, slope, surfaces, drains, pow).value.level == Medium
  {
  }

  /** The guardrails are monotone in the score and never raise it when greenery grows. */
  lemma GuardrailsMonotone(c1: real, c2: real, rainfall: real, slope: real, asphaltPct: real, g1: real, g2: real)
    requires c2 <= c1 && g1 <= g2
    ensures ApplyGuardrails(c2, rainfall, slope, asphaltPct, g2).0 <= ApplyGuardrails(c1, rainfall, slope, asphaltPct, g1).0
  {
  }

  /**
   * With every other input fixed, more greenery never raises the final score,
   * provided the power term is monotone.
   */
  lemma GreeneryNeverRaisesScore(
    rainfall: real, slope: real, surfaces: map<string, real>, drains: string, pow: real -> real, g1: real, g2: real)
    requires MonotoneOnNonNegatives(pow)
    requires g1 <= g2
    requires ComputeScore(rainfall, slope, surfaces["greenery" := g2], drains, pow).Success?
    ensures ComputeScore(rainfall, slope, surfaces["greenery" := g1], drains, pow).Success?
    ensures ComputeScore(rainfall, slope, surfaces["greenery" := g2], drains, pow).value.score
         <= ComputeScore(rainfall, slope, surfaces["greenery" := g1], drains, pow).value.score
  {
    var s1, s2 := surfaces["greenery" := g1], surfaces["greenery" := g2];
    var asphalt := SurfacePct(surfaces, "asphalt");
    assert SurfacePct(s1, "asphalt") == asphalt == SurfacePct(s2, "asphalt");
    assert SurfacePct(s1, "greenery") == g1 && SurfacePct(s2, "greenery") == g2;
    var raw1, raw2 := RiskRaw(rainfall, slope, s1, drains), RiskRaw(rainfall, slope, s2, drains);
    assert raw2 <= raw1;
    assert pow(raw2) <= pow(raw1);
    var c1, c2 := Clamp(100.0 * pow(raw1)), Clamp(100.0 * pow(raw2));
    assert c2 <= c1;
    GuardrailConditionsExclusive(rainfall, slope, asphalt, g1);
    GuardrailConditionsExclusive(rainfall, slope, asphalt, g2);
    GuardrailsMonotone(c1, c2, rainfall, slope, asphalt, g1, g2);
  }

  // ---------------------------------------------------------------------------
  // Component classifiers

  /** The position of a label in its classifier's scale, from least to most. */
  function Rank(labels: seq<string>, name: string): (k: nat)
    requires name in labels
    ensures k < |labels| && labels[k] == name
  {
    if labels[0] == name then 0 else 1 + Rank(labels[1..], name)
  }

  const RainfallImpacts: seq<string> := ["Low", "Moderate", "High", "Very High"]

  /** `_assess_rainfall`: below 5, 15 and 30 mm. */
  function AssessRainfall(rainfall: real): (r: string)
    ensures r in RainfallImpacts
  {
    if rainfall < 5.0 then "Low"
    else if rainfall < 15.0 then "Moderate"
    else if rainfall < 30.0 then "High"
    else "Very High"
  }

  lemma AssessRainfallMonotone(a: real, b: real)
    requires a <= b
    ensures Rank(RainfallImpacts, AssessRainfall(a)) <= Rank(RainfallImpacts, AssessRainfall(b))
  {
  }

  const SurfaceImpacts: seq<string> :=
    ["Low (Permeable)", "Moderate (Mixed)", "High (Mostly Impermeable)", "Very High (Impermeable)"]

  /** `_assess_surface`: below 30, 60 and 80 percent asphalt. */
  function AssessSurface(asphaltPct: real): (r: string)
    ensures r in SurfaceImpacts
  {
    if asphaltPct < 30.0 then "Low (Permeable)"
    else if asphaltPct < 60.0 then "Moderate (Mixed)"
    else if asphaltPct < 80.0 then "High (Mostly Impermeable)"
    else "Very High (Impermeable)"
  }

  lemma AssessSurfaceMonotone(a: real, b: real)
    requires a <= b
    ensures Rank(SurfaceImpacts, AssessSurface(a)) <= Rank(SurfaceImpacts, AssessSurface(b))
  {
  }

  /** From the flattest (worst) to the steepest (best) slope. */
  const SlopeImpacts: seq<string> := ["Very Poor (Flat)", "Poor (Gentle)", "Moderate", "Beneficial (Steep)"]

  /** `_assess_slope`: above 10, 5 and 2 percent, each bound exclusive. */
  function AssessSlope(slopePct: real): (r: string)
    ensures r in SlopeImpacts
  {
    if slopePct > 10.0 then "Beneficial (Steep)"
    else if slopePct > 5.0 then "Moderate"
    else if slopePct > 2.0 then "Poor (Gentle)"
    else "Very Poor (Flat)"
  }

  lemma AssessSlopeMonotone(a: real, b: real)
    requires a <= b
    ensures Rank(SlopeImpacts, AssessSlope(a)) <= Rank(SlopeImpacts, AssessSlope(b))
  {
  }

  const DrainageImpacts: seq<string> := ["Very Poor", "Poor", "Adequate", "Good"]

  /** `_assess_drainage`: above 8, 4 and 1 percent drain coverage. */
  function AssessDrainage(drainsPct: real): (r: string)
    ensures r in DrainageImpacts
  {
    if drainsPct > 8.0 then "Good"
    else if drainsPct > 4.0 then "Adequate"
    else if drainsPct > 1.0 then "Poor"
    else "Very Poor"
  }

  lemma AssessDrainageMonotone(a: real, b: real)
    requires a <= b
    ensures Rank(DrainageImpacts, AssessDrainage(a)) <= Rank(DrainageImpacts, AssessDrainage(b))
  {
  }

  const GreeneryBenefits: seq<string> := ["Limited", "Moderate", "Beneficial", "Very Beneficial"]

  /** `_assess_greenery`: above 40, 20 and 10 percent greenery. */
  function AssessGreenery(greeneryPct: real): (r: string)
    ensures r in GreeneryBenefits
  {
    if greeneryPct > 40.0 then "Very Beneficial"
    else if greeneryPct > 20.0 then "Beneficial"
    else if greeneryPct > 10.0 then "Moderate"
    else "Limited"
  }

  lemma AssessGreeneryMonotone(a: real, b: real)
    requires a <= b
    ensures Rank(GreeneryBenefits, AssessGreenery(a)) <= Rank(GreeneryBenefits, AssessGreenery(b))
  {
  }

  /** `_assess_drains`: the drains label, ignoring case. */
  function AssessDrains(drains: string): (r: string)
    ensures r == "Good" <==> Text.Lower(drains) == "ok"
    ensures r == "Very Poor" <==> Text.Lower(drains) == "none"
    ensures r == "Unknown" <==> Text.Lower(drains) != "ok" && Text.Lower(drains) != "none"
  {
    if Text.Lower(drains) == "ok" then "Good"
    else if Text.Lower(drains) == "none" then "Very Poor"
    else "Unknown"
  }

  /** The drain penalty and the drainage description read the same label the same way. */
  lemma DrainsAgree(drains: string)
    ensures AssessDrains(drains) == "Good" <==> DrainPenalty(drains) == -0.05
    ensures AssessDrains(drains) == "Very Poor" <==> DrainPenalty(drains) == 0.15
    ensures AssessDrains(drains) == "Unknown" <==> DrainPenalty(drains) == 0.0
  {
  }

  // ---------------------------------------------------------------------------
  // calculate_flood_risk and its helpers

  /** The configured bucket bounds, as the text the source prints for them. */
  datatype Thresholds = Thresholds(low: string, medium: string, high: string)

  const UnknownRiskDescription := "Unknown risk level"

  /** `_get_risk_description`. */
  function RiskDescription(level: string): (d: string)
    ensures d != UnknownRiskDescription <==> level in {"LOW", "MEDIUM", "HIGH", "VERY_HIGH"}
  {
    if level == "LOW" then "Minimal flood risk under normal conditions"
    else if level == "MEDIUM" then "Moderate flood risk during heavy rainfall"
    else if level == "HIGH" then "Significant flood risk requiring mitigation measures"
    else if level == "VERY_HIGH" then "Critical flood risk requiring immediate intervention"
    else UnknownRiskDescription
  }

  /** `_get_score_range`: the bucket's lower and upper bound, joined by a dash. */
  function ScoreRange(level: string, t: Thresholds): string {
    if level == "LOW" then "0-" + t.low
    else if level == "MEDIUM" then t.low + "-" + t.medium
    else if level == "HIGH" then t.medium + "-" + t.high
    else t.high + "-100"
  }

  /** Every bucket the scorer produces has a description. */
  lemma EveryLevelIsDescribed(l: Level)
    ensures RiskDescription(l.Name()) != UnknownRiskDescription
  {
  }

  /**
   * The scorer only produces the three named buckets, so the "above HIGH"
   * range is never reported; the bucket of rank k runs from the k-th to the
   * (k+1)-th of the bounds 0, low, medium, high, so consecutive ranges meet.
   */
  lemma ScoreRangeOfLevel(l: Level, t: Thresholds)
    ensures l.Name() in {"LOW", "MEDIUM", "HIGH"}
    ensures var bounds := ["0", t.low, t.medium, t.high];
      ScoreRange(l.Name(), t) == bounds[l.Rank()] + "-" + bounds[l.Rank() + 1]
  {
  }

  const ConcernImpermeable := "High impermeable surface coverage increases runoff"
  const ConcernFlat := "Insufficient slope for natural drainage"
  const ConcernDrainage := "Inadequate drainage infrastructure"
  const ConcernRainfall := "Heavy rainfall forecast exceeds system capacity"
  const ConcernVegetation := "Limited vegetation for water absorption"
  const NoMajorConcerns := "No major concerns identified"

  /** The message of one concern rule, if the rule fires. */
  function Flag(fires: bool, message: string): seq<string> {
    if fires then [message] else []
  }

  /** The messages of the concern rules that fire, in the order the source checks them. */
  function FiredConcerns(asphaltPct: real, drainsPct: real, greeneryPct: real, slopePct: real, rainfallMm: real)
    : seq<string>
  {
    Flag(asphaltPct > 70.0, ConcernImpermeable) + Flag(slopePct < 2.0, ConcernFlat) +
    Flag(drainsPct < 5.0, ConcernDrainage) + Flag(rainfallMm > 20.0, ConcernRainfall) +
    Flag(greeneryPct < 15.0, ConcernVegetation)
  }

  /** What `_identify_primary_concerns` returns: the fired messages, or the single "no concerns" message. */
  function PrimaryConcerns(asphaltPct: real, drainsPct: real, greeneryPct: real, slopePct: real, rainfallMm: real)
    : seq<string>
  {
    var fired := FiredConcerns(asphaltPct, drainsPct, greeneryPct, slopePct, rainfallMm);
    if fired == [] then [NoMajorConcerns] else fired
  }

  /** `_identify_primary_concerns`: one append per rule that fires, in rule order. */
  method IdentifyPrimaryConcerns(asphaltPct: real, drainsPct: real, greeneryPct: real, slopePct: real, rainfallMm: real)
    returns (concerns: seq<string>)
    ensures concerns == PrimaryConcerns(asphaltPct, drainsPct, greeneryPct, slopePct, rainfallMm)
  {
    concerns := [];
    if asphaltPct > 70.0 {
      concerns := concerns + [ConcernImpermeable];
    }
    if slopePct < 2.0 {
      concerns := concerns + [ConcernFlat];
    }
    if drainsPct < 5.0 {
      concerns := concerns + [ConcernDrainage];
    }
    if rainfallMm > 20.0 {
      concerns := concerns + [ConcernRainfall];
    }
    if greeneryPct < 15.0 {
      concerns := concerns + [ConcernVegetation];
    }
    if concerns == [] {
      concerns := [NoMajorConcerns];
    }
  }

  /**
   * The concern list is never empty and holds at most five messages. Each
   * concern is listed exactly when its rule fires, and the single "no
   * concerns" message appears exactly when none does.
   */
  lemma PrimaryConcernsFollowRules(asphaltPct: real, drainsPct: real, greeneryPct: real, slopePct: real, rainfallMm: real)
    ensures var c := PrimaryConcerns(asphaltPct, drainsPct, greeneryPct, slopePct, rainfallMm);
      && 1 <= |c| <= 5
      && (ConcernImpermeable in c <==> asphaltPct > 70.0)
      && (ConcernFlat in c <==> slopePct < 2.0)
      && (ConcernDrainage in c <==> drainsPct < 5.0)
      && (ConcernRainfall in c <==> rainfallMm > 20.0)
      && (ConcernVegetation in c <==> greeneryPct < 15.0)
      && (NoMajorConcerns in c <==> c == [NoMajorConcerns])
      && (c == [NoMajorConcerns] <==>
            !(asphaltPct > 70.0) && !(slopePct < 2.0) && !(drainsPct < 5.0) &&
            !(rainfallMm > 20.0) && !(greeneryPct < 15.0))
  {
  }

  datatype ContributingFactors = ContributingFactors(
    surfaceRunoffFactor: real, drainageEfficiency: real, infiltrationCapacity: real,
    slopeDrainageBenefit: real, rainfallStress: real, intensityMultiplier: real)

  /** `_analyze_contributing_factors`. */
  function AnalyzeContributingFactors(
    asphaltPct: real, drainsPct: real, greeneryPct: real, slopePct: real, rainfallMm: real, peakIntensity: real)
    : (f: ContributingFactors)
    ensures f.surfaceRunoffFactor <= 100.0 && f.rainfallStress <= 100.0
    ensures f.surfaceRunoffFactor <= asphaltPct * 1.2 && f.rainfallStress <= rainfallMm * 3.0
    ensures f.intensityMultiplier <= 2.0
    ensures peakIntensity <= 0.0 ==> f.intensityMultiplier == 1.0
    ensures 0.0 < peakIntensity <= 20.0 ==> f.intensityMultiplier == peakIntensity / 10.0
  {
    ContributingFactors(
      Min(100.0, asphaltPct * 1.2),
      drainsPct * 10.0,
      greeneryPct * 0.8,
      slopePct * 5.0,
      Min(100.0, rainfallMm * 3.0),
      Min(2.0, if peakIntensity > 0.0 then peakIntensity / 10.0 else 1.0))
  }

  /** The weighted vulnerability score of `_assess_vulnerability`. */
  function VulnerabilityScore(asphaltPct: real, drainsPct: real, greeneryPct: real, slopePct: real): real {
    asphaltPct * 0.4 + (100.0 - greeneryPct) * 0.3 + (100.0 - drainsPct * 10.0) * 0.2 + Max(0.0, 10.0 - slopePct) * 0.1
  }

  const Vulnerabilities: seq<string> :=
    ["Low vulnerability", "Moderate vulnerability", "High vulnerability", "Very high vulnerability"]

  /** `_assess_vulnerability`: the score below 30, 50 and 70. */
  function AssessVulnerability(asphaltPct: real, drainsPct: real, greeneryPct: real, slopePct: real): (r: string)
    ensures r in Vulnerabilities
  {
    var v := VulnerabilityScore(asphaltPct, drainsPct, greeneryPct, slopePct);
    if v < 30.0 then "Low vulnerability"
    else if v < 50.0 then "Moderate vulnerability"
    else if v < 70.0 then "High vulnerability"
    else "Very high vulnerability"
  }

  /**
   * More asphalt, less greenery, fewer drains or a flatter slope never makes
   * the assessment less severe.
   */
  lemma VulnerabilityMonotone(
    a1: real, d1: real, g1: real, s1: real, a2: real, d2: real, g2: real, s2: real)
    requires a1 <= a2 && d2 <= d1 && g2 <= g1 && s2 <= s1
    ensures Rank(Vulnerabilities, AssessVulnerability(a1, d1, g1, s1))
         <= Rank(Vulnerabilities, AssessVulnerability(a2, d2, g2, s2))
  {
    assert VulnerabilityScore(a1, d1, g1, s1) <= VulnerabilityScore(a2, d2, g2, s2);
  }

  datatype RiskCategory = RiskCategory(description: string, scoreRange: string)

  datatype Analysis = Analysis(
    primaryConcerns: seq<string>, contributingFactors: ContributingFactors, vulnerability: string)

  datatype InputParameters = InputParameters(
    rainfallMm: real, asphaltPercentage: real, slopePercentage: real, drainPercentage: real,
    greeneryPercentage: real, peakIntensity: real)

  datatype FloodRiskReport = FloodRiskReport(
    floodRiskScore: real, riskLevel: Level, riskCategory: RiskCategory, components: Components,
    analysis: Analysis, inputParameters: InputParameters)

  /** The surfaces dictionary `calculate_flood_risk` hands to `compute_score`. */
  function SurfacesOf(asphaltPct: real, greeneryPct: real, drainsPct: real): map<string, real> {
    map["asphalt" := asphaltPct, "greenery" := greeneryPct, "drains" := drainsPct]
  }

  /** `calculate_flood_risk`: the base score with its description, the analysis and the echoed inputs. */
  method CalculateFloodRisk(
    t: Thresholds, rainfallMm: real, asphaltPct: real, slopePct: real, drainsPct: real,
    greeneryPct: real, peakIntensity: real, drains: string, pow: real -> real)
    returns (r: Result<FloodRiskReport, ScoreError>)
    ensures var base := ComputeScore(rainfallMm, slopePct, SurfacesOf(asphaltPct, greeneryPct, drainsPct), drains, pow);
      && (r.Failure? <==> base.Failure?)
      && (r.Success? ==>
            && r.value.floodRiskScore == base.value.score
            && r.value.riskLevel == base.value.level
            && r.value.components == base.value.components)
    ensures r.Success? ==>
      && 0.0 <= r.value.floodRiskScore <= 100.0
      && r.value.riskLevel == LevelOf(r.value.floodRiskScore)
      && r.value.riskCategory ==
           RiskCategory(RiskDescription(r.value.riskLevel.Name()), ScoreRange(r.value.riskLevel.Name(), t))
      && r.value.riskCategory.description != UnknownRiskDescription
      && r.value.analysis.primaryConcerns == PrimaryConcerns(asphaltPct, drainsPct, greeneryPct, slopePct, rainfallMm)
      && r.value.analysis.contributingFactors ==
           AnalyzeContributingFactors(asphaltPct, drainsPct, greeneryPct, slopePct, rainfallMm, peakIntensity)
      && r.value.analysis.vulnerability == AssessVulnerability(asphaltPct, drainsPct, greeneryPct, slopePct)
      && r.value.inputParameters ==
           InputParameters(rainfallMm, asphaltPct, slopePct, drainsPct, greeneryPct, peakIntensity)
  {
    var surfaces := SurfacesOf(asphaltPct, greeneryPct, drainsPct);
    var base := ComputeScore(rainfallMm, slopePct, surfaces, drains, pow);
    if base.Failure? {
      return Failure(base.error);
    }
    var level := base.value.level;
    EveryLevelIsDescribed(level);
    var concerns := IdentifyPrimaryConcerns(asphaltPct, drainsPct, greeneryPct, slopePct, rainfallMm);
    var analysis := Analysis(
      concerns,
      AnalyzeContributingFactors(asphaltPct, drainsPct, greeneryPct, slopePct, rainfallMm, peakIntensity),
      AssessVulnerability(asphaltPct, drainsPct, greeneryPct, slopePct));
    r := Success(FloodRiskReport(
      base.value.score, level,
      RiskCategory(RiskDescription(level.Name()), ScoreRange(level.Name(), t)),
      base.value.components, analysis,
      InputParameters(rainfallMm, asphaltPct, slopePct, drainsPct, greeneryPct, peakIntensity)));
  }
}
