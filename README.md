# Flood-risk street analysis: a verified model of its rule-based core

The application scores the flood risk of a street location. Its inputs are
rainfall, terrain slope and the surface mix seen in street-view images. It
then recommends interventions. This project models, in Dafny, the parts of
the Python backend that are plain rules and arithmetic:

- **Point scorer** (`FloodRiskScorer`, module `FloodScore`).
  - The five inputs are normalised, combined into a weighted sum (raised to
    the power 1.2) and clamped to [0, 100].
  - A floor guardrail and a cap guardrail adjust the result.
  - The score becomes a LOW/MEDIUM/HIGH bucket.
  - Further functions give the concern list, the contributing factors, the
    vulnerability rating and the descriptive classifiers.
- **Recommender** (`FloodMitigationRecommender`, module `Recommender`).
  - Four primary rules and the secondary recommendations.
  - The three-phase implementation plan and the cost analysis.
    The cost analysis charges every High item to the immediate phase, while the
    plan moves the High items after the second to the short term;
    `ImmediateCostCoversLaterHigh` shows the two disagree.
  - The risk-reduction estimate and the impact/cost priority matrix.
  - The result dictionary.
  - `backend/api/src/recommend/recommender.py` and
    `api/src/recommend/recommender.py` are identical. One model covers both,
    and the table cites the first.
- **Surface accounting of the street-view detector** (`Mask2FormerDetector`,
  module `Segmentation`).
  - Class ids are named through the model's label table or the fallback
    table.
  - Names are sorted into asphalt, greenery and other by `CATEGORY_MAP`.
  - Pixels are counted per category, and the shares are averaged over the
    images that could be analysed.
- **Elevation and slope** (`ElevationFetcher`, module `Elevation`).
  - The slope from three elevations, and the slope categories.
  - The Google, then OpenTopoData, then mock chain for one elevation.
- **Rainfall** (`WeatherFetcher`, module `Weather`).
  - The 24-hour rainfall from the parsed current and forecast answers, or the
    mock rainfall.
  - The forecast levels.
- **AI insights** (`AIInsightsGenerator`, module `AiInsights`).
  - The rainfall-driven rescaling of the score for the slider scenario.
  - The `None` result without a client or on any exception.

`Wrappers` holds `Option` and `Result`, `Reals` holds `min`, `max` and `abs`,
and `Text` holds the few ASCII string
operations the code relies on: `lower`, substring tests, `str(int)` and
`strip`.

## How the model treats I/O, randomness and environment

- **HTTP responses** are already parsed values. Elevation answers are a
  `Response`. Weather answers are a `Fetch` whose rain members are optional
  dictionaries. The chat completion is a function from the analysis to a
  reply or an exception.
- **Environment variables** are plain string parameters (`apiKey`), compared
  with the documented placeholder values.
- **Random values** are parameters: the uniform draws in [0, 1) behind
  `np.random.uniform` and `random.random`.
- **Other computed inputs** are parameters too:
  - Python's string `hash()`;
  - the trigonometric part of the mock elevation;
  - the power `x ** 1.2`. The scorer takes it as a function `pow`, and only
    the greenery monotonicity lemma asks it to be monotone.
- **Python semantics** are written out:
  - `int()` truncation toward zero (`Recommender.Trunc`);
  - `dict.get` defaults;
  - `[:3]` slicing;
  - `max(0, ...)` and `min(100, ...)`;
  - `%` by a positive modulus, which matches in Python and Dafny.
- **Raised exceptions** are either `Failure` results or `None`, wherever the
  code raises or catches them:
  - a negative `risk_raw` (a complex power that `max` cannot compare);
  - an empty segmentation map (division by zero, which
    `analyze_local_images` treats as a failed image);
  - no image paths, and no successful image;
  - a dictionary entry of the wrong type in the insights code.
- **np.unique order.** `np.unique` visits class ids in sorted order. The
  model visits them in order of first appearance. The counts are sums, so
  the order does not change them.

## Model

| member | source | states |
|---|---|---|
| FloodScore.DrainPenalty | backend/api/src/scoring/flood_score.py:46-50 | the drain penalty always lies between -0.05 and 0.15 |
| FloodScore.DrainPenaltyIgnoresCase | backend/api/src/scoring/flood_score.py:46-50 | the penalty depends only on the lower-cased label |
| FloodScore.Normalize | backend/api/src/scoring/flood_score.py:39-50 | R and S never exceed 1; S is 1 exactly from slope 5, R exactly from rain 50; non-negative inputs stay in [0,1]; flatness and low-greenery are the complements; the penalty is the drain penalty |
| FloodScore.Clamp | backend/api/src/scoring/flood_score.py:54 | the result lies in [0,100], equals an input already in range, and is 0 or 100 beyond the ends |
| FloodScore.GuardrailConditionsExclusive | backend/api/src/scoring/flood_score.py:58-67 | the floor (rain >= 50) and the cap (rain <= 25) can never both hold |
| FloodScore.ApplyGuardrails | backend/api/src/scoring/flood_score.py:56-67 | the floor raises the score to at least 30 and is recorded only if the score was below 30; the cap applies only without the floor, lowers to at most 25 and is recorded only if the score was above 25; otherwise nothing changes; the range [0,100] is kept |
| FloodScore.LevelOf | backend/api/src/scoring/flood_score.py:71-77 | LOW exactly below 25, MEDIUM exactly in [25,60), HIGH exactly from 60 |
| FloodScore.LevelMonotone | backend/api/src/scoring/flood_score.py:71-77 | a higher score never falls in a lower bucket |
| FloodScore.ComputeScore | backend/api/src/scoring/flood_score.py:20-108 | fails exactly when risk_raw is negative; otherwise the score lies in [0,100], its level is its bucket, a triggered floor gives at least 30 and a triggered cap at most 25; each guardrail is recorded exactly when its condition held and the clamped score was on the wrong side of its bound; without one the score is the clamped score; the features are the normalised inputs and the components are the five descriptive assessments of the inputs |
| FloodScore.CappedScoreIsMedium | backend/api/src/scoring/flood_score.py:63-77 | a score held down by the cap is exactly 25.0 and therefore MEDIUM |
| FloodScore.GuardrailsMonotone | backend/api/src/scoring/flood_score.py:56-67 | the guardrails preserve the order of scores and never raise a score when greenery grows |
| FloodScore.GreeneryNeverRaisesScore | backend/api/src/scoring/flood_score.py:45-67 | with a monotone power term and all else fixed, more greenery never raises the final score |
| FloodScore.AssessRainfall | backend/api/src/scoring/flood_score.py:233-242 | the impact is one of the four rainfall impacts |
| FloodScore.AssessRainfallMonotone | backend/api/src/scoring/flood_score.py:233-242 | more rain never gives a milder rainfall impact |
| FloodScore.AssessSurface | backend/api/src/scoring/flood_score.py:244-253 | the impact is one of the four surface impacts |
| FloodScore.AssessSurfaceMonotone | backend/api/src/scoring/flood_score.py:244-253 | more asphalt never gives a milder surface impact |
| FloodScore.AssessSlope | backend/api/src/scoring/flood_score.py:255-264 | the impact is one of the four slope impacts |
| FloodScore.AssessSlopeMonotone | backend/api/src/scoring/flood_score.py:255-264 | a steeper slope never gives a worse drainage rating |
| FloodScore.AssessDrainage | backend/api/src/scoring/flood_score.py:266-275 | the rating is one of the four drainage ratings |
| FloodScore.AssessDrainageMonotone | backend/api/src/scoring/flood_score.py:266-275 | more drain coverage never gives a worse drainage rating |
| FloodScore.AssessGreenery | backend/api/src/scoring/flood_score.py:277-286 | the benefit is one of the four greenery benefits |
| FloodScore.AssessGreeneryMonotone | backend/api/src/scoring/flood_score.py:277-286 | more greenery never gives a smaller benefit |
| FloodScore.AssessDrains | backend/api/src/scoring/flood_score.py:288-295 | "Good" exactly for "ok", "Very Poor" exactly for "none" (ignoring case), "Unknown" for anything else |
| FloodScore.DrainsAgree | backend/api/src/scoring/flood_score.py:46-50 | the drainage description and the drain penalty read each label the same way |
| FloodScore.RiskDescription | backend/api/src/scoring/flood_score.py:161-169 | a description other than the unknown one exactly for LOW, MEDIUM, HIGH and VERY_HIGH |
| FloodScore.ScoreRangeOfLevel | backend/api/src/scoring/flood_score.py:171-180 | the scorer's buckets are only LOW, MEDIUM and HIGH, so the range above HIGH is never reported; bucket k runs from the k-th to the (k+1)-th of the bounds 0, low, medium, high, so consecutive ranges meet |
| FloodScore.EveryLevelIsDescribed | backend/api/src/scoring/flood_score.py:161-169 | every bucket the scorer produces has a real description |
| FloodScore.IdentifyPrimaryConcerns | backend/api/src/scoring/flood_score.py:182-201 | the appending loop builds exactly the rule-ordered concern list |
| FloodScore.PrimaryConcernsFollowRules | backend/api/src/scoring/flood_score.py:182-201 | the list holds 1 to 5 messages; each concern appears exactly when its rule fires; the "no concerns" message appears exactly when no rule fires, and then alone |
| FloodScore.AnalyzeContributingFactors | backend/api/src/scoring/flood_score.py:203-213 | surface runoff and rainfall stress never exceed 100 or their unclamped values; the intensity multiplier never exceeds 2, is 1 without a positive peak, and is peak/10 up to a peak of 20 |
| FloodScore.AssessVulnerability | backend/api/src/scoring/flood_score.py:215-231 | the rating is one of the four vulnerability levels |
| FloodScore.VulnerabilityMonotone | backend/api/src/scoring/flood_score.py:215-231 | more asphalt, fewer drains, less greenery or a flatter slope never makes the vulnerability rating milder |
| FloodScore.CalculateFloodRisk | backend/api/src/scoring/flood_score.py:110-159 | fails exactly when compute_score fails; otherwise it reports compute_score's score, level and components, the level's description (never the unknown one) and score range, the rule-ordered concerns, the contributing factors, the vulnerability rating and the echoed inputs |
| Recommender.TitlesAppend | backend/api/src/recommend/recommender.py:14-108 | the titles of joined lists are the joined titles |
| Recommender.Trunc | backend/api/src/recommend/recommender.py:110-120 | `int()` truncates toward zero: the result is the whole part of the value, for negative values too |
| Recommender.CostTypeNamed | backend/api/src/recommend/recommender.py:110-120 | a recognised name gives the type of that name; an unrecognised name matches no type |
| Recommender.EstimateCost | backend/api/src/recommend/recommender.py:110-120 | an unknown type costs 25000; a known type costs its formula |
| Recommender.CostTypeNameRoundTrip | backend/api/src/recommend/recommender.py:110-120 | every type's name is recognised as that type, and its cost is its formula |
| Recommender.CostMonotone | backend/api/src/recommend/recommender.py:110-120 | pavement costs grow with the asphalt share; the other three costs shrink as their parameter grows |
| Recommender.TruncMonotone | backend/api/src/recommend/recommender.py:110-120 | truncation preserves order |
| Recommender.ApplyPrimaryRules | backend/api/src/recommend/recommender.py:37-79 | the four conditional appends build exactly the rule list for the input parameters (missing keys read as 0) |
| Recommender.TitlesWhen | backend/api/src/recommend/recommender.py:37-79 | a rule contributes its title exactly when it fires |
| Recommender.PrimaryRulesFire | backend/api/src/recommend/recommender.py:37-79 | pavement iff asphalt > 70, bioswales iff slope < 5, drainage iff drains < 5, vegetation iff greenery < 20; at most four, in rule order |
| Recommender.TitlesOfFour | backend/api/src/recommend/recommender.py:37-79 | the titles of four joined rule outputs are the joined titles |
| Recommender.RulesInOrder | backend/api/src/recommend/recommender.py:37-79 | the fired titles are strictly increasing in rule position |
| Recommender.SecondaryRecommendations | backend/api/src/recommend/recommender.py:122-160 | two or three items, monitoring first and education last; the emergency plan is present iff the level is HIGH or VERY_HIGH, and then there are three |
| Recommender.GenerateSecondaryRecommendations | backend/api/src/recommend/recommender.py:122-160 | the appends build exactly the secondary list |
| Recommender.MissingRiskLevelIsLow | backend/api/src/recommend/recommender.py:122-160 | without a risk level only monitoring and education are recommended |
| Recommender.WithPriority | backend/api/src/recommend/recommender.py:162-184 | filtering by priority never lengthens the list |
| Recommender.WithPriorityMembers | backend/api/src/recommend/recommender.py:162-184 | the filter keeps exactly the recommendations of that priority |
| Recommender.WithPriorityAppend | backend/api/src/recommend/recommender.py:162-184 | filtering distributes over joined lists |
| Recommender.PriorityPartition | backend/api/src/recommend/recommender.py:162-184 | the four priority classes split the titles exactly, counting repeats |
| Recommender.PhasesHoldClasses | backend/api/src/recommend/recommender.py:162-184 | regrouping four lists, with the second split after its second item, into three phases loses and adds no title |
| Recommender.TitlesSplit | backend/api/src/recommend/recommender.py:170-176 | the titles of a list's two halves are the two halves of its titles |
| Recommender.PlanFollowsPriorityOrder | backend/api/src/recommend/recommender.py:162-184 | the immediate phase is the Critical titles then the first two High titles, the short-term phase the remaining High titles then the Medium ones, the long-term phase the Low titles, each in recommendation order |
| Recommender.CreateImplementationPlan | backend/api/src/recommend/recommender.py:162-184 | the three phases are 0-3 months, 3-12 months and 12+ months, and together hold as many actions as there are primary and secondary recommendations |
| Recommender.PhasePriorities | backend/api/src/recommend/recommender.py:162-184 | the immediate phase holds only Critical and High titles, the short-term phase only High and Medium ones, the long-term phase only Low ones |
| Recommender.ImmediateCostCoversLaterHigh | backend/api/src/recommend/recommender.py:170-194 | with three High items the plan schedules two now and one later, while the immediate-phase cost charges all three |
| Recommender.PlanCoversEveryTitleOnce | backend/api/src/recommend/recommender.py:162-184 | every primary and secondary title lands in exactly one phase, as often as it was recommended |
| Recommender.SumAppend | backend/api/src/recommend/recommender.py:186-201 | sums distribute over joined lists |
| Recommender.CostsAppend | backend/api/src/recommend/recommender.py:186-201 | costs distribute over joined lists |
| Recommender.PhaseCostsSplitTotal | backend/api/src/recommend/recommender.py:186-201 | the urgent and the non-urgent phase together cost the total |
| Recommender.CalculateCostAnalysis | backend/api/src/recommend/recommender.py:186-201 | total = primary + secondary cost, and immediate + long-term phase = total |
| Recommender.ReductionPoints | backend/api/src/recommend/recommender.py:203-228 | no recommendation is worth more than 15 points |
| Recommender.RiskReductionFor | backend/api/src/recommend/recommender.py:203-228 | the percentage is the point total capped at 40; the current score is the stored one (0 when absent); the projection is never negative, is that score reduced by the percentage (so at most it) when the score is not negative, and 0 when it is negative; the confidence is "Medium" |
| Recommender.SumPoints | backend/api/src/recommend/recommender.py:207-216 | the loop adds up each recommendation's keyword points |
| Recommender.EstimateRiskReduction | backend/api/src/recommend/recommender.py:203-228 | the result is the risk reduction for the summed points of the recommendations |
| Recommender.QuadrantOf | backend/api/src/recommend/recommender.py:230-255 | each quadrant is chosen exactly by its impact and cost (above 50000) condition |
| Recommender.CreatePriorityMatrix | backend/api/src/recommend/recommender.py:230-255 | each quadrant lists, in order, the titles of the recommendations that fall in it |
| Recommender.TitlesInSnoc | backend/api/src/recommend/recommender.py:230-255 | appending a recommendation adds its title to its own quadrant only |
| Recommender.TitlesSnoc | backend/api/src/recommend/recommender.py:230-255 | appending a recommendation adds its title to the title list |
| Recommender.QuadrantPartition | backend/api/src/recommend/recommender.py:230-255 | the four quadrants split the titles exactly, counting repeats |
| Recommender.QuadrantMembership | backend/api/src/recommend/recommender.py:230-255 | with distinct titles, a title is in a quadrant iff its recommendation belongs there |
| Recommender.TitlesInHasOnlyItsOwn | backend/api/src/recommend/recommender.py:230-255 | a title no recommendation has is in no quadrant |
| Recommender.FiredRuleQuadrants | backend/api/src/recommend/recommender.py:37-79 | fired pavement and drainage land among high-impact high-cost items; fired bioswales and vegetation among low-impact low-cost ones |
| Recommender.Take | backend/api/src/recommend/recommender.py:94 | `[:3]` keeps the first min(3, n) items |
| Recommender.Report | backend/api/src/recommend/recommender.py:82-105 | the result holds the first three primary items, the secondary list, and the plan, costs, whole risk reduction (percentage, current and projected score, confidence) and matrix of all primary items; the context falls back to UNKNOWN and no concerns |
| Recommender.GenerateRecommendations | backend/api/src/recommend/recommender.py:14-108 | the same statement for the primary items the rules produce from the stored parameters |
| Segmentation.LookupMissing | backend/api/src/vision/mask2former_detector.py:270-273 | a name no entry carries is looked up as missing |
| Segmentation.LookupFound | backend/api/src/vision/mask2former_detector.py:270-273 | the first entry carrying a name gives its category |
| Segmentation.ClassName | backend/api/src/vision/mask2former_detector.py:275-304 | the label table's name when it has the id, otherwise the fallback table's name for ids 0-18, otherwise `Unknown_<id>` |
| Segmentation.CategoryOfId | backend/api/src/vision/mask2former_detector.py:270-273 | the category of the name the table in use gives the id, and "other" for an id that table does not name |
| Segmentation.NoRegisteredNameStartsWithUn | backend/api/src/vision/mask2former_detector.py:33-104 | no CATEGORY_MAP name starts with "Un" |
| Segmentation.UnknownIdsAreOther | backend/api/src/vision/mask2former_detector.py:270-273 | any `Unknown_<id>` name falls in "other" |
| Segmentation.FallbackTableCoversZeroToEighteen | backend/api/src/vision/mask2former_detector.py:280-304 | without a label table, ids 0-18 get their fixed names and every other id is unknown and "other" |
| Segmentation.OccurrencesPositive | backend/api/src/vision/mask2former_detector.py:238 | an id occurs in the map iff its count is positive |
| Segmentation.Without | backend/api/src/vision/mask2former_detector.py:240-243 | removing a class shortens the map by exactly that class's count |
| Segmentation.WithoutOccurrences | backend/api/src/vision/mask2former_detector.py:240-243 | removing a class leaves none of it and every other class as often as before |
| Segmentation.CategoryPixelsWithout | backend/api/src/vision/mask2former_detector.py:240-243 | taking one class out moves all of its pixels to its category and leaves the other category counts alone |
| Segmentation.CategoryPixelsSum | backend/api/src/vision/mask2former_detector.py:231-255 | every pixel is counted in exactly one category |
| Segmentation.RemoveClass | backend/api/src/vision/mask2former_detector.py:240-243 | one loop step adds the class's whole-map count to its category, and the remaining ids keep their counts |
| Segmentation.Percent | backend/api/src/vision/mask2former_detector.py:252-255 | a count within the total gives a percentage in [0,100]; the full count gives 100 |
| Segmentation.PercentsSum | backend/api/src/vision/mask2former_detector.py:252-255 | counts that add up to the total give percentages that add up to 100 |
| Segmentation.SharesOfIsDistribution | backend/api/src/vision/mask2former_detector.py:231-268 | the shares of a non-empty map add up to 100 and each lies in [0,100] |
| Segmentation.Tally.Add | backend/api/src/vision/mask2former_detector.py:243 | adding to one category's count changes only that count |
| Segmentation.TallyCategories | backend/api/src/vision/mask2former_detector.py:236-243 | the loop over distinct ids gives each category its exact pixel count |
| Segmentation.CountPixels | backend/api/src/vision/mask2former_detector.py:231-268 | an empty map raises; otherwise the result is the three category shares of the map |
| Segmentation.CountPixelsByCategory | backend/api/src/vision/mask2former_detector.py:231-268 | the same, with the detector's own naming and category table |
| Segmentation.AggregateResults | backend/api/src/vision/mask2former_detector.py:328-339 | each category becomes its mean over the results; an empty list gives zeros |
| Segmentation.SumOfTotals | backend/api/src/vision/mask2former_detector.py:328-339 | results that each add up to 100 have category sums adding up to 100 per result |
| Segmentation.SumOfBounds | backend/api/src/vision/mask2former_detector.py:328-339 | a category sum of in-range results lies between 0 and 100 per result |
| Segmentation.MeanSharesIsDistribution | backend/api/src/vision/mask2former_detector.py:328-339 | the mean of distributions adds up to 100 and each mean lies in [0,100] |
| Segmentation.MeanBound | backend/api/src/vision/mask2former_detector.py:336-337 | a sum of n values in [0,100], divided by n, lies in [0,100] |
| Segmentation.SuccessesAreDistributions | backend/api/src/vision/mask2former_detector.py:175-190 | every successfully analysed image yields shares that add up to 100, each in [0,100] |
| Segmentation.AnalyzeLocalImages | backend/api/src/vision/mask2former_detector.py:157-198 | ValueError exactly for no paths; RuntimeError exactly when paths exist but no image succeeds; otherwise the mean of the successful images' shares |
| Segmentation.AnalysisIsDistribution | backend/api/src/vision/mask2former_detector.py:157-198 | a successful analysis reports shares that add up to 100, each in [0,100] |
| Elevation.SlopePercentage | backend/api/src/data_fetch/elevation.py:47-54 | the slope is the larger of the two neighbour differences over 111 m, in percent |
| Elevation.SlopeZeroIffFlat | backend/api/src/data_fetch/elevation.py:47-54 | the slope is never negative, and is zero exactly when both neighbours equal the centre |
| Elevation.MockSlope | backend/api/src/data_fetch/elevation.py:41-45 | the mock slope lies in [0.5, 5.0) |
| Elevation.GetSlope | backend/api/src/data_fetch/elevation.py:25-57 | a missing elevation gives the mock slope in [0.5, 5.0); three elevations give the computed slope; the slope is never negative |
| Elevation.Categorize | backend/api/src/data_fetch/elevation.py:90-100 | Very Flat below 2, Gentle in [2,5), Moderate in [5,10), Steep in [10,20), Very Steep from 20 |
| Elevation.CategorizeMonotone | backend/api/src/data_fetch/elevation.py:90-100 | a steeper slope never gets a flatter category |
| Elevation.CalculateSlope | backend/api/src/data_fetch/elevation.py:77-102 | the slope of get_slope, unchanged, with its category; a mocked slope is Very Flat or Gentle |
| Elevation.FirstElevation | backend/api/src/data_fetch/elevation.py:128-132 | a value only from an OK answer with results, and then the first result's elevation |
| Elevation.GoogleElevation | backend/api/src/data_fetch/elevation.py:115-135 | a failed request gives no value; otherwise the first elevation of an OK answer |
| Elevation.MockElevation | backend/api/src/data_fetch/elevation.py:157-164 | the mock is never negative and stays within the noise band of -50 to +49 around the base |
| Elevation.FreeElevation | backend/api/src/data_fetch/elevation.py:137-155 | the answer's elevation when there is one, the mock otherwise |
| Elevation.ResolveElevation | backend/api/src/data_fetch/elevation.py:104-113 | Google is asked only with a real key; a missing Google value falls through to the free service |
| Elevation.ElevationAlwaysAvailable | backend/api/src/data_fetch/elevation.py:104-164 | the chain always yields an elevation; one that comes from the mock is never negative |
| Elevation.SlopeNeverMocked | backend/api/src/data_fetch/elevation.py:37-45 | because every elevation is available, get_slope always computes the slope |
| Weather.RainAmount | backend/api/src/data_fetch/weather.py:54-56 | a reading without rain, or without the key, contributes 0; otherwise its amount |
| Weather.ForecastEntryWithoutAmount | backend/api/src/data_fetch/weather.py:75-77 | a forecast entry without a 3-hour amount adds nothing to the total |
| Weather.ForecastTotalNonNegative | backend/api/src/data_fetch/weather.py:74-77 | non-negative amounts give a non-negative total |
| Weather.MockRainfall | backend/api/src/data_fetch/weather.py:90-107 | the mock lies in [0,50): light below 10 with probability 0.7, moderate in [10,25), heavy from 25 |
| Weather.MeasuredRainfall | backend/api/src/data_fetch/weather.py:79-81 | the rainfall is at least the forecast total and at least 24 times the hourly rate, and equals one of them |
| Weather.GetRainfall | backend/api/src/data_fetch/weather.py:23-88 | the placeholder key or a failed request gives the mock; otherwise the summing loop gives the measured rainfall |
| Weather.RainfallNonNegative | backend/api/src/data_fetch/weather.py:23-107 | non-negative readings give a non-negative rainfall, and so does the mock |
| Weather.RainfallLevel | backend/api/src/data_fetch/weather.py:172-179 | LOW below 5, MEDIUM in [5,15), HIGH in [15,30), VERY_HIGH from 30 |
| Weather.PeakIntensity | backend/api/src/data_fetch/weather.py:169 | a positive total gives a sixth of it; otherwise 0 |
| Weather.GetRainfallForecast | backend/api/src/data_fetch/weather.py:153-187 | the total of get_rainfall with its peak and level; the hours are echoed and the confidence is "Medium" |
| AiInsights.Get | backend/api/src/ai_insights/ai_insights_generator.py:133-134 | the stored value when present, the default otherwise |
| AiInsights.PromptNeedsDictionaries | backend/api/src/ai_insights/ai_insights_generator.py:48-65 | an empty analysis still builds a prompt, since every lookup has a default; a coords, risk, surfaces or recommendation entry that is not a dictionary makes it fail |
| AiInsights.GenerateAiInsights | backend/api/src/ai_insights/ai_insights_generator.py:33-111 | None without a client, when the prompt cannot be built or when the call raises; a text exactly otherwise, and it is the stripped reply |
| AiInsights.AdjustedScore | backend/api/src/ai_insights/ai_insights_generator.py:137-138 | the adjusted score is the smaller of 100 and the score times the rainfall ratio (the old rainfall counted as at least 1) |
| AiInsights.AdjustedScoreUnchangedRainfall | backend/api/src/ai_insights/ai_insights_generator.py:137-138 | the same rainfall (of at least 1 mm) leaves a score of at most 100 unchanged |
| AiInsights.AdjustedScoreMonotone | backend/api/src/ai_insights/ai_insights_generator.py:137-138 | for a non-negative score, more rain never lowers the adjusted score |
| AiInsights.AdjustedScoreNonNegative | backend/api/src/ai_insights/ai_insights_generator.py:137-138 | a non-negative score and rainfall give a non-negative adjusted score |
| AiInsights.LevelOf | backend/api/src/ai_insights/ai_insights_generator.py:141-146 | LOW up to 33, MEDIUM above 33 up to 66, HIGH above 66 |
| AiInsights.Scenario | backend/api/src/ai_insights/ai_insights_generator.py:129-151 | the scenario exists exactly when the stored rainfall and score are numbers and the stored risk is a dictionary |
| AiInsights.ScenarioKeepsEntries | backend/api/src/ai_insights/ai_insights_generator.py:129-130 | the copy keeps every caller entry, adds rainfall_mm and risk, and holds the new rainfall |
| AiInsights.ScenarioRisk | backend/api/src/ai_insights/ai_insights_generator.py:133-151 | the new risk entry holds the adjusted score, at most 100, and its level |
| AiInsights.GenerateDynamicInsights | backend/api/src/ai_insights/ai_insights_generator.py:113-158 | None without a client or when the rescaling raises; otherwise the insights for the rescaled copy |
| Text.Lower | backend/api/src/scoring/flood_score.py:46-50 | lower-casing keeps the length and lower-cases each character |
| Text.LowerIdempotent | backend/api/src/scoring/flood_score.py:46-50 | lower-casing twice is lower-casing once |
| Text.IntToString | backend/api/src/vision/mask2former_detector.py:279 | a minus sign exactly for negative numbers, then digits whose decimal value is the number's magnitude, with no leading zero |
| Text.NatToStringRoundTrip | backend/api/src/vision/mask2former_detector.py:279 | reading back the printed digits gives the number |
| Text.Strip | backend/api/src/ai_insights/ai_insights_generator.py:107 | the result is the slice of the input after its leading whitespace, only whitespace lies outside it, and it neither starts nor ends with whitespace |

## Left out

- The georeferenced raster engine (affine transforms, bilinear sampling, depression mask, connected components, tiered risk areas, risk-grid cache): it is not part of this model, because none of the modelled source files implements it.
- backend/api/run_flood_analysis.py and backend/api/main.py: command-line orchestration and printing only.
- backend/api/src/data_fetch/streetview.py: HTTP downloads and file writes only.
- Mask2Former inference: image loading, the processor, torch, the overlays and debug printing. Each image's analysis is an input: its map or the exception it raised. The debug overlay saved inside the analysis loop is not modelled.
- `_debug_detected_classes` and the logging of unmapped classes in `_count_pixels_by_category`: printing only.
- `get_current_weather` and `_get_mock_current_weather`: they only reshape the weather answer; nothing else in the core reads them.
- Weather.GetRainfall: a missing `list` key in the forecast answer raises KeyError, which the code does not catch; the model assumes the key is present.
- Configuration loading from YAML and the scorer's thresholds: these are parameters (`Thresholds`, the API keys, the free elevation URL).
- Elevation.ResolveElevation: only the parsed answers are modelled, not the HTTP status check or the JSON decoding; a request error is the `RequestFailed` answer.
- Elevation.MockElevation: `abs(sin(lat*0.1)*cos(lon*0.1))*500` and Python's string `hash()` are parameters, so the model does not check the 0-500 range of the base term.
- `get_elevation`: it only prints around `_get_elevation`, so `Elevation.ResolveElevation` stands for it.
- FloodScore.GreeneryNeverRaisesScore: `x ** 1.2` is a parameter, so the lemma assumes it is monotone rather than proving it.
- Floating-point rounding: all arithmetic is on exact reals.
- AiInsights: the prompt text, the model name, temperature and timeout are not modelled; the chat reply is a function of the analysis.
- AiInsights.GenerateAiInsights: the client's construction in `__init__` (environment variable, constructor exception) is the `hasClient` flag.
- AiInsights.PromptBuildable: only the exceptions that the shape of the analysis can cause (a non-dictionary entry, an interventions value without a length) are modelled.
- Text: `lower`, `strip` and `str(int)` are ASCII-only.
- AiInsights.Scenario: the analysis values have no boolean case. Python would use `True` and `False` as 1 and 0 in the rescaling; in the model a boolean is an `Other` value, so the scenario is absent and the dynamic insights are `None` where Python would compute them.
- The free-text `description` of every recommendation (backend/api/src/recommend/recommender.py:41-153): it is formatted text that no rule, cost or plan reads.
- Default arguments: `drains="unknown"` of `compute_score` and `calculate_flood_risk`, `peak_intensity=0` of `calculate_flood_risk` and `hours=24` of `get_rainfall_forecast` are not defaults in the model; callers pass every argument.
- Printing: the feature, guardrail and score lines of `compute_score`, the summary line of `generate_recommendations`, and the status and warning lines of `get_rainfall` and `_get_mock_rainfall` are output only and are not modelled.
