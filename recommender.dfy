/**
 * The rule-based mitigation recommender (`FloodMitigationRecommender`, in
 * backend/api/src/recommend/recommender.py and its byte-identical copy
 * api/src/recommend/recommender.py). Threshold rules pick primary
 * recommendations, fixed secondary ones are always added, and the result is
 * priced, phased, summed and sorted into a cost/impact matrix.
 */
module Recommender {
  import opened Wrappers
  import Text

  datatype Priority = Critical | High | Medium | Low

  datatype Impact = MediumImpact | HighImpact | VeryHighImpact

  /** One recommendation; the free-text description is not modelled. */
  datatype Recommendation = Recommendation(
    title: string, priority: Priority, estimatedCost: int, impact: Impact, timeframe: string)

  /** The parts of the risk-analysis dictionary the recommender reads; absent keys read as absent. */
  datatype RiskData = RiskData(
    inputParameters: map<string, real>,
    riskLevel: Option<string>,
    floodRiskScore: Option<real>,
    primaryConcerns: Option<seq<string>>)

  /** `params.get(key, 0)`. */
  function Param(params: map<string, real>, key: string): real {
    if key in params then params[key] else 0.0
  }

  function Titles(recs: seq<Recommendation>): (t: seq<string>)
    ensures |t| == |recs|
  {
    if recs == [] then [] else [recs[0].title] + Titles(recs[1..])
  }

  lemma {:induction false} TitlesAppend(a: seq<Recommendation>, b: seq<Recommendation>)
    ensures Titles(a + b) == Titles(a) + Titles(b)
  {
    if a == [] {
      assert a + b == b;
    } else {
      assert (a + b)[0] == a[0];
      assert (a + b)[1..] == a[1..] + b;
      TitlesAppend(a[1..], b);
      calc {
        Titles(a + b);
        [a[0].title] + Titles(a[1..] + b);
        [a[0].title] + (Titles(a[1..]) + Titles(b));
        ([a[0].title] + Titles(a[1..])) + Titles(b);
      }
    }
  }

  // ---------------------------------------------------------------------------
  // _estimate_cost

  /** Python's `int(x)`: truncation toward zero. */
  function Trunc(x: real): (n: int)
    ensures x >= 0.0 ==> n as real <= x < n as real + 1.0
    ensures x < 0.0 ==> n as real - 1.0 < x <= n as real
  {
    if x >= 0.0 then x.Floor else -((-x).Floor)
  }

  /** The recommendation types `_estimate_cost` has a formula for. */
  datatype CostType = PermeablePavementType | BioswalesType | DrainageUpgradeType | VegetationType

  /** The key under which each type's formula is registered. */
  function CostTypeName(t: CostType): string {
    match t
    case PermeablePavementType => "permeable_pavement"
    case BioswalesType => "bioswales"
    case DrainageUpgradeType => "drainage_upgrade"
    case VegetationType => "vegetation"
  }

  /** Looking a type up by its key; `None` for a key with no formula. */
  function CostTypeNamed(name: string): (t: Option<CostType>)
    ensures t.Some? ==> CostTypeName(t.value) == name
    ensures t.None? ==> forall c: CostType :: CostTypeName(c) != name
  {
    if name == "permeable_pavement" then Some(PermeablePavementType)
    else if name == "bioswales" then Some(BioswalesType)
    else if name == "drainage_upgrade" then Some(DrainageUpgradeType)
    else if name == "vegetation" then Some(VegetationType)
    else None
  }

  /** The cost of a type with a formula, truncated toward zero. */
  function CostOf(t: CostType, value: real): int {
    match t
    case PermeablePavementType => Trunc(50000.0 + value * 1000.0)
    case BioswalesType => Trunc(30000.0 + (10.0 - value) * 2000.0)
    case DrainageUpgradeType => Trunc(100000.0 + (10.0 - value) * 5000.0)
    case VegetationType => Trunc(15000.0 + (20.0 - value) * 500.0)
  }

  /** `_estimate_cost`: the formula registered under the key, or a flat 25000 for an unknown key. */
  function EstimateCost(recommendationType: string, value: real): (cost: int)
    ensures CostTypeNamed(recommendationType).None? ==> cost == 25000
    ensures CostTypeNamed(recommendationType).Some? ==> cost == CostOf(CostTypeNamed(recommendationType).value, value)
  {
    match CostTypeNamed(recommendationType)
    case None => 25000
    case Some(t) => CostOf(t, value)
  }

  /** Each rule's call with its type's key reaches that type's formula. */
  lemma CostTypeNameRoundTrip(t: CostType, value: real)
    ensures CostTypeNamed(CostTypeName(t)) == Some(t)
    ensures EstimateCost(CostTypeName(t), value) == CostOf(t, value)
  {
  }

  /**
   * Pavement gets dearer with more asphalt; bioswales, drains and planting get
   * dearer the flatter, the less drained and the less green the place is.
   */
  lemma CostMonotone(t: CostType, v1: real, v2: real)
    requires v1 <= v2
    ensures t == PermeablePavementType ==> CostOf(t, v1) <= CostOf(t, v2)
    ensures t != PermeablePavementType ==> CostOf(t, v2) <= CostOf(t, v1)
  {
    TruncMonotone(50000.0 + v1 * 1000.0, 50000.0 + v2 * 1000.0);
    TruncMonotone(30000.0 + (10.0 - v2) * 2000.0, 30000.0 + (10.0 - v1) * 2000.0);
    TruncMonotone(100000.0 + (10.0 - v2) * 5000.0, 100000.0 + (10.0 - v1) * 5000.0);
    TruncMonotone(15000.0 + (20.0 - v2) * 500.0, 15000.0 + (20.0 - v1) * 500.0);
  }

  lemma TruncMonotone(x: real, y: real)
    requires x <= y
    ensures Trunc(x) <= Trunc(y)
  {
  }

  // ---------------------------------------------------------------------------
  // The primary rules of generate_recommendations

  const PermeablePavementTitle := "Install Permeable Pavement"
  const BioswalesTitle := "Create Bioswales and Green Infrastructure"
  const DrainageTitle := "Improve Drainage Infrastructure"
  const VegetationTitle := "Increase Vegetation Coverage"

  function PermeablePavement(asphaltPct: real): Recommendation {
    Recommendation(PermeablePavementTitle, High, CostOf(PermeablePavementType, asphaltPct), HighImpact, "6-12 months")
  }

  function Bioswales(slopePct: real): Recommendation {
    Recommendation(BioswalesTitle, High, CostOf(BioswalesType, slopePct), MediumImpact, "3-6 months")
  }

  function DrainageUpgrade(drainsPct: real): Recommendation {
    Recommendation(DrainageTitle, Critical, CostOf(DrainageUpgradeType, drainsPct), VeryHighImpact, "12-18 months")
  }

  function Vegetation(greeneryPct: real): Recommendation {
    Recommendation(VegetationTitle, Medium, CostOf(VegetationType, greeneryPct), MediumImpact, "1-3 months")
  }

  function When(fires: bool, rec: Recommendation): seq<Recommendation> {
    if fires then [rec] else []
  }

  /** The four primary rules in the order the source appends them, on the four parameters. */
  function PrimaryRules(asphalt: real, slope: real, drains: real, greenery: real): seq<Recommendation> {
    When(asphalt > 70.0, PermeablePavement(asphalt)) +
    When(slope < 5.0, Bioswales(slope)) +
    When(drains < 5.0, DrainageUpgrade(drains)) +
    When(greenery < 20.0, Vegetation(greenery))
  }

  /** The primary recommendations for the input parameters, each missing one read as 0. */
  function PrimaryRecommendations(params: map<string, real>): seq<Recommendation> {
    PrimaryRules(Param(params, "asphalt_percentage"), Param(params, "slope_percentage"),
                 Param(params, "drain_percentage"), Param(params, "greenery_percentage"))
  }

  /** The rule block of `generate_recommendations`: append each recommendation whose condition holds. */
  method ApplyPrimaryRules(params: map<string, real>) returns (primary: seq<Recommendation>)
    ensures primary == PrimaryRecommendations(params)
  {
    var asphalt := Param(params, "asphalt_percentage");
    var greenery := Param(params, "greenery_percentage");
    var drains := Param(params, "drain_percentage");
    var slope := Param(params, "slope_percentage");
    primary := [];
    if asphalt > 70.0 {
      primary := primary + [PermeablePavement(asphalt)];
    }
    if slope < 5.0 {
      primary := primary + [Bioswales(slope)];
    }
    if drains < 5.0 {
      primary := primary + [DrainageUpgrade(drains)];
    }
    if greenery < 20.0 {
      primary := primary + [Vegetation(greenery)];
    }
  }

  /** The place of each primary rule in the order the source checks them. */
  function RuleOrder(title: string): nat {
    if title == PermeablePavementTitle then 0
    else if title == BioswalesTitle then 1
    else if title == DrainageTitle then 2
    else 3
  }

  lemma TitlesWhen(fires: bool, rec: Recommendation)
    ensures Titles(When(fires, rec)) == if fires then [rec.title] else []
  {
  }

  /**
   * Each primary rule fires exactly when its condition holds, at most once,
   * and the recommendations come in rule order.
   */
  lemma PrimaryRulesFire(asphalt: real, slope: real, drains: real, greenery: real)
    ensures var p := Titles(PrimaryRules(asphalt, slope, drains, greenery));
      && (PermeablePavementTitle in p <==> asphalt > 70.0)
      && (BioswalesTitle in p <==> slope < 5.0)
      && (DrainageTitle in p <==> drains < 5.0)
      && (VegetationTitle in p <==> greenery < 20.0)
      && |p| <= 4
      && (forall i, j :: 0 <= i < j < |p| ==> RuleOrder(p[i]) < RuleOrder(p[j]))
  {
    var a := When(asphalt > 70.0, PermeablePavement(asphalt));
    var b := When(slope < 5.0, Bioswales(slope));
    var c := When(drains < 5.0, DrainageUpgrade(drains));
    var d := When(greenery < 20.0, Vegetation(greenery));
    TitlesOfFour(a, b, c, d);
    TitlesWhen(asphalt > 70.0, PermeablePavement(asphalt));
    TitlesWhen(slope < 5.0, Bioswales(slope));
    TitlesWhen(drains < 5.0, DrainageUpgrade(drains));
    TitlesWhen(greenery < 20.0, Vegetation(greenery));
    RulesInOrder(Titles(a), Titles(b), Titles(c), Titles(d));
  }

  lemma TitlesOfFour(a: seq<Recommendation>, b: seq<Recommendation>, c: seq<Recommendation>, d: seq<Recommendation>)
    ensures Titles(a + b + c + d) == Titles(a) + Titles(b) + Titles(c) + Titles(d)
  {
    TitlesAppend(a, b);
    TitlesAppend(a + b, c);
    TitlesAppend(a + b + c, d);
  }

  /** Four rule outputs of at most one title each, one per rule, concatenate in rule order. */
  lemma RulesInOrder(ta: seq<string>, tb: seq<string>, tc: seq<string>, td: seq<string>)
    requires ta == [] || ta == [PermeablePavementTitle]
    requires tb == [] || tb == [BioswalesTitle]
    requires tc == [] || tc == [DrainageTitle]
    requires td == [] || td == [VegetationTitle]
    ensures var p := ta + tb + tc + td;
      && (PermeablePavementTitle in p <==> ta != [])
      && (BioswalesTitle in p <==> tb != [])
      && (DrainageTitle in p <==> tc != [])
      && (VegetationTitle in p <==> td != [])
      && (forall i, j :: 0 <= i < j < |p| ==> RuleOrder(p[i]) < RuleOrder(p[j]))
  {
    var p := ta + tb + tc + td;
    forall k | 0 <= k < |p|
      ensures RuleOrder(p[k]) == if k < |ta| then 0 else if k < |ta| + |tb| then 1 else if k < |ta| + |tb| + |tc| then 2 else 3
    {
    }
  }

  // ---------------------------------------------------------------------------
  // _generate_secondary_recommendations

  const MonitoringTitle := "Install Flood Monitoring System"
  const EmergencyPlanTitle := "Develop Emergency Response Plan"
  const EducationTitle := "Community Education Program"

  const Monitoring := Recommendation(MonitoringTitle, Medium, 5000, MediumImpact, "1-2 months")
  const EmergencyPlan := Recommendation(EmergencyPlanTitle, High, 10000, HighImpact, "1 month")
  const Education := Recommendation(EducationTitle, Low, 3000, MediumImpact, "2-3 months")

  /** `risk_data.get('risk_level', 'LOW')` as this function reads it. */
  function SecondaryRiskLevel(riskData: RiskData): string {
    riskData.riskLevel.GetOr("LOW")
  }

  /** What `_generate_secondary_recommendations` returns. */
  function SecondaryRecommendations(riskData: RiskData): (s: seq<Recommendation>)
    ensures 2 <= |s| <= 3
    ensures s[0] == Monitoring && s[|s| - 1] == Education
    ensures EmergencyPlan in s <==> SecondaryRiskLevel(riskData) in {"HIGH", "VERY_HIGH"}
    ensures |s| == 3 <==> EmergencyPlan in s
  {
    var level := SecondaryRiskLevel(riskData);
    [Monitoring] + (if level in {"HIGH", "VERY_HIGH"} then [EmergencyPlan] else []) + [Education]
  }

  /** `_generate_secondary_recommendations` as the source writes it: monitoring, the plan when the risk is high, education. */
  method GenerateSecondaryRecommendations(riskData: RiskData) returns (secondary: seq<Recommendation>)
    ensures secondary == SecondaryRecommendations(riskData)
  {
    var riskLevel := riskData.riskLevel.GetOr("LOW");
    secondary := [];
    secondary := secondary + [Monitoring];
    if riskLevel == "HIGH" || riskLevel == "VERY_HIGH" {
      secondary := secondary + [EmergencyPlan];
    }
    secondary := secondary + [Education];
  }

  /** Without a risk level the emergency plan is left out, as for LOW. */
  lemma MissingRiskLevelIsLow(riskData: RiskData)
    requires riskData.riskLevel.None?
    ensures SecondaryRecommendations(riskData) == [Monitoring, Education]
  {
  }

  // ---------------------------------------------------------------------------
  // _create_implementation_plan

  /** The recommendations of priority `p`, in their original order. */
  function WithPriority(recs: seq<Recommendation>, p: Priority): (r: seq<Recommendation>)
    ensures |r| <= |recs|
  {
    if recs == [] then []
    else (if recs[0].priority == p then [recs[0]] else []) + WithPriority(recs[1..], p)
  }

  /** The filter keeps exactly the recommendations of priority `p`. */
  lemma {:induction false} WithPriorityMembers(recs: seq<Recommendation>, p: Priority)
    ensures forall x :: x in WithPriority(recs, p) <==> x in recs && x.priority == p
  {
    if recs != [] {
      WithPriorityMembers(recs[1..], p);
      assert recs == [recs[0]] + recs[1..];
    }
  }

  lemma {:induction false} WithPriorityAppend(a: seq<Recommendation>, b: seq<Recommendation>, p: Priority)
    ensures WithPriority(a + b, p) == WithPriority(a, p) + WithPriority(b, p)
  {
    if a == [] {
      assert a + b == b;
    } else {
      var head: seq<Recommendation> := if a[0].priority == p then [a[0]] else [];
      assert (a + b)[0] == a[0];
      assert (a + b)[1..] == a[1..] + b;
      WithPriorityAppend(a[1..], b, p);
      assert WithPriority(a + b, p) == head + WithPriority(a[1..] + b, p);
      assert WithPriority(a, p) == head + WithPriority(a[1..], p);
    }
  }

  datatype Phase = Phase(timeframe: string, actions: seq<string>)

  datatype ImplementationPlan = ImplementationPlan(immediate: Phase, shortTerm: Phase, longTerm: Phase)

  /** `_create_implementation_plan`: Critical and the first two High now, the other High and Medium next, Low last. */
  function CreateImplementationPlan(primary: seq<Recommendation>, secondary: seq<Recommendation>)
    : (plan: ImplementationPlan)
    ensures plan.immediate.timeframe == "0-3 months" && plan.shortTerm.timeframe == "3-12 months"
            && plan.longTerm.timeframe == "12+ months"
    ensures |plan.immediate.actions| + |plan.shortTerm.actions| + |plan.longTerm.actions| == |primary| + |secondary|
  {
    var all := primary + secondary;
    var critical := WithPriority(all, Critical);
    var high := WithPriority(all, High);
    var medium := WithPriority(all, Medium);
    var low := WithPriority(all, Low);
    var firstHigh := if |high| <= 2 then high else high[..2];
    var laterHigh := if |high| <= 2 then [] else high[2..];
    PriorityPartition(all);
    assert |Titles(critical)| + |Titles(high)| + |Titles(medium)| + |Titles(low)| == |Titles(all)| by {
      assert |multiset(Titles(critical))| + |multiset(Titles(high))| + |multiset(Titles(medium))|
           + |multiset(Titles(low))| == |multiset(Titles(all))|;
    }
    ImplementationPlan(
      Phase("0-3 months", Titles(critical + firstHigh)),
      Phase("3-12 months", Titles(laterHigh + medium)),
      Phase("12+ months", Titles(low)))
  }

  lemma TitlesOfPriorityCons(recs: seq<Recommendation>, p: Priority)
    requires recs != []
    ensures multiset(Titles(WithPriority(recs, p)))
         == (if recs[0].priority == p then multiset{recs[0].title} else multiset{})
          + multiset(Titles(WithPriority(recs[1..], p)))
  {
    TitlesAppend(if recs[0].priority == p then [recs[0]] else [], WithPriority(recs[1..], p));
  }

  lemma TitlesCons(recs: seq<Recommendation>)
    requires recs != []
    ensures multiset(Titles(recs)) == multiset{recs[0].title} + multiset(Titles(recs[1..]))
  {
    assert Titles(recs) == [recs[0].title] + Titles(recs[1..]);
  }

  /** The four priority classes split any list without loss or duplication. */
  lemma {:induction false} PriorityPartition(recs: seq<Recommendation>)
    ensures multiset(Titles(WithPriority(recs, Critical))) + multiset(Titles(WithPriority(recs, High)))
          + multiset(Titles(WithPriority(recs, Medium))) + multiset(Titles(WithPriority(recs, Low)))
         == multiset(Titles(recs))
  {
    if recs != [] {
      PriorityPartition(recs[1..]);
      TitlesOfPriorityCons(recs, Critical);
      TitlesOfPriorityCons(recs, High);
      TitlesOfPriorityCons(recs, Medium);
      TitlesOfPriorityCons(recs, Low);
      TitlesCons(recs);
    }
  }

  lemma TitlesMultiset(a: seq<Recommendation>, b: seq<Recommendation>)
    ensures multiset(Titles(a + b)) == multiset(Titles(a)) + multiset(Titles(b))
  {
    TitlesAppend(a, b);
  }

  /** The three phases hold the titles of the four priority classes, the High ones split after the second. */
  lemma PhasesHoldClasses(critical: seq<Recommendation>, high: seq<Recommendation>,
                          medium: seq<Recommendation>, low: seq<Recommendation>)
    ensures var firstHigh := if |high| <= 2 then high else high[..2];
      var laterHigh := if |high| <= 2 then [] else high[2..];
      multiset(Titles(critical + firstHigh) + Titles(laterHigh + medium) + Titles(low))
        == multiset(Titles(critical)) + multiset(Titles(high)) + multiset(Titles(medium)) + multiset(Titles(low))
  {
    var firstHigh := if |high| <= 2 then high else high[..2];
    var laterHigh := if |high| <= 2 then [] else high[2..];
    assert firstHigh + laterHigh == high;
    TitlesMultiset(critical, firstHigh);
    TitlesMultiset(laterHigh, medium);
    TitlesMultiset(firstHigh, laterHigh);
  }

  /** Every recommendation title, primary or secondary, appears in exactly one phase, as often as it was recommended. */
  lemma PlanCoversEveryTitleOnce(primary: seq<Recommendation>, secondary: seq<Recommendation>)
    ensures var plan := CreateImplementationPlan(primary, secondary);
      multiset(plan.immediate.actions + plan.shortTerm.actions + plan.longTerm.actions)
        == multiset(Titles(primary + secondary))
  {
    var all := primary + secondary;
    PhasesHoldClasses(WithPriority(all, Critical), WithPriority(all, High), WithPriority(all, Medium), WithPriority(all, Low));
    PriorityPartition(all);
  }

  /** The titles of the two halves of a list split at `k` are the two halves of its titles. */
  lemma TitlesSplit(recs: seq<Recommendation>, k: nat)
    requires k <= |recs|
    ensures Titles(recs[..k]) == Titles(recs)[..k]
    ensures Titles(recs[k..]) == Titles(recs)[k..]
  {
    assert recs == recs[..k] + recs[k..];
    TitlesAppend(recs[..k], recs[k..]);
  }

  /**
   * The phases keep the order of the recommendations: the immediate phase is
   * the Critical titles followed by the first two High titles, the short-term
   * phase the remaining High titles followed by the Medium ones, and the
   * long-term phase the Low titles.
   */
  lemma PlanFollowsPriorityOrder(primary: seq<Recommendation>, secondary: seq<Recommendation>)
    ensures var plan := CreateImplementationPlan(primary, secondary);
      var all := primary + secondary;
      var cs := Titles(WithPriority(all, Critical));
      var hs := Titles(WithPriority(all, High));
      var k := if |hs| <= 2 then |hs| else 2;
      && |plan.immediate.actions| == |cs| + k
      && plan.immediate.actions[..|cs|] == cs
      && plan.immediate.actions[|cs|..] == hs[..k]
      && |plan.shortTerm.actions| == |hs| - k + |WithPriority(all, Medium)|
      && plan.shortTerm.actions[..|hs| - k] == hs[k..]
      && plan.shortTerm.actions[|hs| - k..] == Titles(WithPriority(all, Medium))
      && plan.longTerm.actions == Titles(WithPriority(all, Low))
  {
    var all := primary + secondary;
    var critical := WithPriority(all, Critical);
    var high := WithPriority(all, High);
    var medium := WithPriority(all, Medium);
    var k := if |high| <= 2 then |high| else 2;
    var firstHigh := if |high| <= 2 then high else high[..2];
    var laterHigh := if |high| <= 2 then [] else high[2..];
    assert firstHigh == high[..k] && laterHigh == high[k..];
    TitlesSplit(high, k);
    TitlesAppend(critical, firstHigh);
    TitlesAppend(laterHigh, medium);
  }

  /** `t` is the title of some recommendation in `recs` whose priority is one of `ps`. */
  predicate TitleOfClass(recs: seq<Recommendation>, t: string, ps: set<Priority>) {
    exists x :: x in recs && x.title == t && x.priority in ps
  }

  lemma {:induction false} TitleHasItem(recs: seq<Recommendation>, t: string)
    requires t in Titles(recs)
    ensures exists x :: x in recs && x.title == t
  {
    if recs[0].title != t {
      TitleHasItem(recs[1..], t);
      var x :| x in recs[1..] && x.title == t;
      assert x in recs;
    }
  }

  lemma ClassTitles(all: seq<Recommendation>, part: seq<Recommendation>, ps: set<Priority>)
    requires forall x :: x in part ==> x in all && x.priority in ps
    ensures forall t :: t in Titles(part) ==> TitleOfClass(all, t, ps)
  {
    forall t | t in Titles(part) ensures TitleOfClass(all, t, ps) {
      TitleHasItem(part, t);
    }
  }

  /**
   * Each phase holds only titles of its own priorities: the immediate phase
   * Critical and High ones, the short-term phase High and Medium ones, the
   * long-term phase Low ones.
   */
  lemma PhasePriorities(primary: seq<Recommendation>, secondary: seq<Recommendation>)
    ensures var plan := CreateImplementationPlan(primary, secondary);
      var all := primary + secondary;
      && (forall t :: t in plan.immediate.actions ==> TitleOfClass(all, t, {Critical, High}))
      && (forall t :: t in plan.shortTerm.actions ==> TitleOfClass(all, t, {High, Medium}))
      && (forall t :: t in plan.longTerm.actions ==> TitleOfClass(all, t, {Low}))
  {
    var all := primary + secondary;
    var critical := WithPriority(all, Critical);
    var high := WithPriority(all, High);
    var medium := WithPriority(all, Medium);
    var low := WithPriority(all, Low);
    var firstHigh := if |high| <= 2 then high else high[..2];
    var laterHigh := if |high| <= 2 then [] else high[2..];
    WithPriorityMembers(all, Critical);
    WithPriorityMembers(all, High);
    WithPriorityMembers(all, Medium);
    WithPriorityMembers(all, Low);
    assert forall x :: x in firstHigh ==> x in high;
    assert forall x :: x in laterHigh ==> x in high;
    ClassTitles(all, critical + firstHigh, {Critical, High});
    ClassTitles(all, laterHigh + medium, {High, Medium});
    ClassTitles(all, low, {Low});
  }

  /**
   * The plan schedules only two High items now, while the cost breakdown
   * charges every High item to the immediate phase: with three High items
   * the third is planned for later but paid for now.
   */
  lemma ImmediateCostCoversLaterHigh(h: Recommendation)
    requires h.priority == High
    ensures var plan := CreateImplementationPlan([h, h, h], []);
      && plan.immediate.actions == [h.title, h.title]
      && plan.shortTerm.actions == [h.title]
      && CalculateCostAnalysis([h, h, h], []).immediatePhase == 3 * h.estimatedCost
  {
    ThreeHighClasses(h);
    var all := [h, h, h];
    assert [h, h, h] + [] == all;
    assert WithPriority(all, Critical) + all[..2] == [h, h];
    assert all[2..] + WithPriority(all, Medium) == [h];
    assert Titles([h]) == [h.title];
    assert Titles([h, h]) == [h.title, h.title];
    assert PhaseCost([h], true) == h.estimatedCost;
    assert PhaseCost([h, h], true) == 2 * h.estimatedCost;
  }

  lemma ThreeHighClasses(h: Recommendation)
    requires h.priority == High
    ensures WithPriority([h, h, h], High) == [h, h, h]
    ensures WithPriority([h, h, h], Critical) == [] && WithPriority([h, h, h], Medium) == []
  {
    var all := [h, h, h];
    assert all[1..] == [h, h] && [h, h][1..] == [h] && [h][1..] == [];
    forall p | p != High ensures WithPriority(all, p) == [] {
      assert WithPriority([h], p) == [];
      assert WithPriority([h, h], p) == [];
    }
    assert WithPriority([h], High) == [h];
    assert WithPriority([h, h], High) == [h, h];
  }

  // ---------------------------------------------------------------------------
  // _calculate_cost_analysis

  function Costs(recs: seq<Recommendation>): (c: seq<int>)
    ensures |c| == |recs|
  {
    if recs == [] then [] else [recs[0].estimatedCost] + Costs(recs[1..])
  }

  function Sum(xs: seq<int>): int {
    if xs == [] then 0 else xs[0] + Sum(xs[1..])
  }

  lemma {:induction false} SumAppend(a: seq<int>, b: seq<int>)
    ensures Sum(a + b) == Sum(a) + Sum(b)
  {
    if a == [] {
      assert a + b == b;
    } else {
      assert (a + b)[1..] == a[1..] + b;
      SumAppend(a[1..], b);
    }
  }

  lemma {:induction false} CostsAppend(a: seq<Recommendation>, b: seq<Recommendation>)
    ensures Costs(a + b) == Costs(a) + Costs(b)
  {
    if a == [] {
      assert a + b == b;
    } else {
      assert (a + b)[0] == a[0];
      assert (a + b)[1..] == a[1..] + b;
      CostsAppend(a[1..], b);
      calc {
        Costs(a + b);
        [a[0].estimatedCost] + Costs(a[1..] + b);
        [a[0].estimatedCost] + (Costs(a[1..]) + Costs(b));
        ([a[0].estimatedCost] + Costs(a[1..])) + Costs(b);
      }
    }
  }

  predicate Urgent(r: Recommendation) {
    r.priority == Critical || r.priority == High
  }

  /** The cost of the Critical and High recommendations, or of the Medium and Low ones. */
  function PhaseCost(recs: seq<Recommendation>, urgent: bool): int {
    if recs == [] then 0
    else (if Urgent(recs[0]) == urgent then recs[0].estimatedCost else 0) + PhaseCost(recs[1..], urgent)
  }

  datatype CostAnalysis = CostAnalysis(
    primaryCost: int, secondaryCost: int, totalCost: int, immediatePhase: int, longTermPhase: int)

  /**
   * `_calculate_cost_analysis`: the total is the primary plus the secondary
   * cost, and the Critical/High and Medium/Low phases split the total.
   */
  function CalculateCostAnalysis(primary: seq<Recommendation>, secondary: seq<Recommendation>): (c: CostAnalysis)
    ensures c.totalCost == c.primaryCost + c.secondaryCost
    ensures c.immediatePhase + c.longTermPhase == c.totalCost
  {
    SumAppend(Costs(primary), Costs(secondary));
    CostsAppend(primary, secondary);
    PhaseCostsSplitTotal(primary + secondary);
    CostAnalysis(
      Sum(Costs(primary)), Sum(Costs(secondary)), Sum(Costs(primary) + Costs(secondary)),
      PhaseCost(primary + secondary, true), PhaseCost(primary + secondary, false))
  }

  lemma {:induction false} PhaseCostsSplitTotal(recs: seq<Recommendation>)
    ensures PhaseCost(recs, true) + PhaseCost(recs, false) == Sum(Costs(recs))
  {
    if recs != [] {
      PhaseCostsSplitTotal(recs[1..]);
    }
  }

  // ---------------------------------------------------------------------------
  // _estimate_risk_reduction

  /** The reduction points a recommendation earns from the words in its title. */
  function ReductionPoints(title: string): (p: nat)
    ensures p <= 15
  {
    var t := Text.Lower(title);
    if Text.Contains(t, "drainage") then 15
    else if Text.Contains(t, "permeable") then 12
    else if Text.Contains(t, "bioswales") then 8
    else if Text.Contains(t, "vegetation") then 5
    else 0
  }

  /** The uncapped sum the loop of `_estimate_risk_reduction` accumulates, over the first `|recs|` items. */
  function TotalPoints(recs: seq<Recommendation>): nat {
    if recs == [] then 0 else TotalPoints(recs[..|recs| - 1]) + ReductionPoints(recs[|recs| - 1].title)
  }

  datatype RiskReduction = RiskReduction(
    expectedReductionPercentage: nat, currentRiskScore: real, projectedRiskScore: real, confidenceLevel: string)

  function MinNat(a: nat, b: nat): nat {
    if a <= b then a else b
  }

  /** `risk_data.get('flood_risk_score', 0)`. */
  function CurrentScore(riskData: RiskData): real {
    riskData.floodRiskScore.GetOr(0.0)
  }

  /** The fixed confidence every risk reduction reports. */
  const MediumConfidence := "Medium"

  /**
   * What `_estimate_risk_reduction` returns for recommendations worth
   * `points` in all: the points capped at 40, the stored score (0 when
   * absent), the score reduced by that percentage but never below 0, and a
   * "Medium" confidence.
   */
  function RiskReductionFor(riskData: RiskData, points: nat): (r: RiskReduction)
    ensures r.expectedReductionPercentage <= 40
    ensures points <= 40 ==> r.expectedReductionPercentage == points
    ensures points > 40 ==> r.expectedReductionPercentage == 40
    ensures riskData.floodRiskScore.Some? ==> r.currentRiskScore == riskData.floodRiskScore.value
    ensures riskData.floodRiskScore.None? ==> r.currentRiskScore == 0.0
    ensures r.projectedRiskScore >= 0.0
    ensures r.currentRiskScore >= 0.0 ==>
              r.projectedRiskScore <= r.currentRiskScore
              && r.projectedRiskScore
                 == r.currentRiskScore * (1.0 - r.expectedReductionPercentage as real / 100.0)
    ensures r.currentRiskScore < 0.0 ==> r.projectedRiskScore == 0.0
    ensures r.confidenceLevel == MediumConfidence
  {
    var current := CurrentScore(riskData);
    var total := MinNat(points, 40);
    RiskReduction(total, current, ProjectedScore(current, total), MediumConfidence)
  }

  /** `max(0, current - current * pct / 100)`. */
  function ProjectedScore(current: real, pct: nat): (projected: real)
    requires pct <= 40
    ensures projected >= 0.0
    ensures current >= 0.0 ==> projected <= current && projected == current * (1.0 - pct as real / 100.0)
    ensures current < 0.0 ==> projected == 0.0
  {
    Projection(current, pct as real);
    var reduced := current - current * pct as real / 100.0;
    if reduced < 0.0 then 0.0 else reduced
  }

  /** Reducing a score by at most 40 percent keeps its sign and never raises a non-negative one. */
  lemma Projection(current: real, pct: real)
    requires 0.0 <= pct <= 40.0
    ensures current - current * pct / 100.0 == current * (1.0 - pct / 100.0)
    ensures current >= 0.0 ==> 0.0 <= current - current * pct / 100.0 <= current
    ensures current < 0.0 ==> current - current * pct / 100.0 < 0.0
  {
    var f := 1.0 - pct / 100.0;
    assert 0.6 <= f <= 1.0;
    assert current - current * pct / 100.0 == current * f;
    if current >= 0.0 {
      assert current * f <= current * 1.0;
    } else {
      assert current * f < 0.0;
    }
  }

  /** `_estimate_risk_reduction`: add the points of each recommendation, cap at 40, and project the score. */
  method EstimateRiskReduction(riskData: RiskData, recs: seq<Recommendation>) returns (r: RiskReduction)
    ensures r == RiskReductionFor(riskData, TotalPoints(recs))
  {
    var points := SumPoints(recs);
    r := RiskReductionFor(riskData, points);
  }

  /** The loop of `_estimate_risk_reduction`: each recommendation's points, added in order. */
  method SumPoints(recs: seq<Recommendation>) returns (total: nat)
    ensures total == TotalPoints(recs)
  {
    total := 0;
    var i := 0;
    while i < |recs|
      invariant 0 <= i <= |recs|
      invariant total == TotalPoints(recs[..i])
    {
      assert recs[..i + 1][..i] == recs[..i];
      total := total + ReductionPoints(recs[i].title);
      i := i + 1;
    }
    assert recs[..i] == recs;
  }

  // ---------------------------------------------------------------------------
  // _create_priority_matrix

  datatype Quadrant = HighImpactLowCost | HighImpactHighCost | LowImpactLowCost | LowImpactHighCost

  predicate HighCost(r: Recommendation) {
    r.estimatedCost > 50000
  }

  predicate IsHighImpact(r: Recommendation) {
    r.impact == HighImpact || r.impact == VeryHighImpact
  }

  /** The quadrant a recommendation belongs to. */
  function QuadrantOf(r: Recommendation): (q: Quadrant)
    ensures q == HighImpactLowCost <==> IsHighImpact(r) && !HighCost(r)
    ensures q == HighImpactHighCost <==> IsHighImpact(r) && HighCost(r)
    ensures q == LowImpactLowCost <==> !IsHighImpact(r) && !HighCost(r)
    ensures q == LowImpactHighCost <==> !IsHighImpact(r) && HighCost(r)
  {
    if IsHighImpact(r) && !HighCost(r) then HighImpactLowCost
    else if IsHighImpact(r) && HighCost(r) then HighImpactHighCost
    else if !IsHighImpact(r) && !HighCost(r) then LowImpactLowCost
    else LowImpactHighCost
  }

  /** The titles of the recommendations in quadrant `q`, in list order. */
  function TitlesIn(recs: seq<Recommendation>, q: Quadrant): seq<string> {
    if recs == [] then [] else TitlesIn(recs[..|recs| - 1], q) + (if QuadrantOf(recs[|recs| - 1]) == q then [recs[|recs| - 1].title] else [])
  }

  datatype PriorityMatrix = PriorityMatrix(
    highImpactLowCost: seq<string>, highImpactHighCost: seq<string>,
    lowImpactLowCost: seq<string>, lowImpactHighCost: seq<string>)

  function Cell(m: PriorityMatrix, q: Quadrant): seq<string> {
    match q
    case HighImpactLowCost => m.highImpactLowCost
    case HighImpactHighCost => m.highImpactHighCost
    case LowImpactLowCost => m.lowImpactLowCost
    case LowImpactHighCost => m.lowImpactHighCost
  }

  /** `_create_priority_matrix`: append each title to the list of its quadrant. */
  method CreatePriorityMatrix(recs: seq<Recommendation>) returns (m: PriorityMatrix)
    ensures forall q :: Cell(m, q) == TitlesIn(recs, q)
  {
    m := PriorityMatrix([], [], [], []);
    var i := 0;
    while i < |recs|
      invariant 0 <= i <= |recs|
      invariant forall q :: Cell(m, q) == TitlesIn(recs[..i], q)
    {
      assert recs[..i + 1][..i] == recs[..i];
      var rec := recs[i];
      var highCost := rec.estimatedCost > 50000;
      var highImpact := rec.impact == HighImpact || rec.impact == VeryHighImpact;
      if highImpact && !highCost {
        m := m.(highImpactLowCost := m.highImpactLowCost + [rec.title]);
      } else if highImpact && highCost {
        m := m.(highImpactHighCost := m.highImpactHighCost + [rec.title]);
      } else if !highImpact && !highCost {
        m := m.(lowImpactLowCost := m.lowImpactLowCost + [rec.title]);
      } else {
        m := m.(lowImpactHighCost := m.lowImpactHighCost + [rec.title]);
      }
      i := i + 1;
    }
    assert recs[..i] == recs;
  }

  lemma TitlesInSnoc(recs: seq<Recommendation>, q: Quadrant)
    requires recs != []
    ensures multiset(TitlesIn(recs, q))
         == multiset(TitlesIn(recs[..|recs| - 1], q))
          + (if QuadrantOf(recs[|recs| - 1]) == q then multiset{recs[|recs| - 1].title} else multiset{})
  {
  }

  lemma {:induction false} TitlesSnoc(recs: seq<Recommendation>)
    requires recs != []
    ensures multiset(Titles(recs)) == multiset(Titles(recs[..|recs| - 1])) + multiset{recs[|recs| - 1].title}
  {
    if |recs| == 1 {
      assert recs[..0] == [];
    } else {
      var rest := recs[1..];
      TitlesSnoc(rest);
      assert recs[..|recs| - 1][1..] == rest[..|rest| - 1];
      assert rest[|rest| - 1] == recs[|recs| - 1];
    }
  }

  /** The four quadrants split the titles without loss or duplication. */
  lemma {:induction false} QuadrantPartition(recs: seq<Recommendation>)
    ensures multiset(TitlesIn(recs, HighImpactLowCost)) + multiset(TitlesIn(recs, HighImpactHighCost))
          + multiset(TitlesIn(recs, LowImpactLowCost)) + multiset(TitlesIn(recs, LowImpactHighCost))
         == multiset(Titles(recs))
  {
    if recs != [] {
      QuadrantPartition(recs[..|recs| - 1]);
      TitlesInSnoc(recs, HighImpactLowCost);
      TitlesInSnoc(recs, HighImpactHighCost);
      TitlesInSnoc(recs, LowImpactLowCost);
      TitlesInSnoc(recs, LowImpactHighCost);
      TitlesSnoc(recs);
    }
  }

  /** A title lands in a quadrant exactly when its recommendation's cost and impact say so. */
  lemma {:induction false} QuadrantMembership(recs: seq<Recommendation>, i: nat, q: Quadrant)
    requires i < |recs|
    requires forall j :: 0 <= j < |recs| && j != i ==> recs[j].title != recs[i].title
    ensures recs[i].title in TitlesIn(recs, q) <==> QuadrantOf(recs[i]) == q
  {
    var init := recs[..|recs| - 1];
    if i == |recs| - 1 {
      TitlesInHasOnlyItsOwn(init, q, recs[i].title);
    } else {
      QuadrantMembership(init, i, q);
    }
  }

  lemma {:induction false} TitlesInHasOnlyItsOwn(recs: seq<Recommendation>, q: Quadrant, t: string)
    requires forall j :: 0 <= j < |recs| ==> recs[j].title != t
    ensures t !in TitlesIn(recs, q)
  {
    if recs != [] {
      TitlesInHasOnlyItsOwn(recs[..|recs| - 1], q, t);
    }
  }

  /**
   * For percentages in [0, 100], the pavement and drainage recommendations a
   * rule fires are always high impact and high cost, the bioswale and
   * vegetation ones low impact and low cost.
   */
  lemma FiredRuleQuadrants(asphalt: real, slope: real, drains: real, greenery: real)
    requires 0.0 <= slope && 0.0 <= drains && 0.0 <= greenery
    ensures asphalt > 70.0 ==> QuadrantOf(PermeablePavement(asphalt)) == HighImpactHighCost
    ensures slope < 5.0 ==> QuadrantOf(Bioswales(slope)) == LowImpactLowCost
    ensures drains < 5.0 ==> QuadrantOf(DrainageUpgrade(drains)) == HighImpactHighCost
    ensures greenery < 20.0 ==> QuadrantOf(Vegetation(greenery)) == LowImpactLowCost
  {
  }

  // ---------------------------------------------------------------------------
  // generate_recommendations

  /** Python's slice `recs[:n]`: the first `n` items, or all of them when there are fewer. */
  function Take(recs: seq<Recommendation>, n: nat): (t: seq<Recommendation>)
    ensures |t| == if |recs| <= n then |recs| else n
    ensures t == recs[..|t|]
  {
    if |recs| <= n then recs else recs[..n]
  }

  datatype RiskContext = RiskContext(currentRiskLevel: string, riskScore: real, primaryConcerns: seq<string>)

  datatype Recommendations = Recommendations(
    primary: seq<Recommendation>, secondary: seq<Recommendation>, plan: ImplementationPlan,
    costAnalysis: CostAnalysis, expectedRiskReduction: RiskReduction, priorityMatrix: PriorityMatrix,
    riskContext: RiskContext)

  /**
   * The second half of `generate_recommendations`, once the primary rules have
   * fired: the report keeps three primary items but costs, reduces and sorts
   * all of them.
   */
  method Report(riskData: RiskData, primary: seq<Recommendation>) returns (r: Recommendations)
    ensures r.primary == Take(primary, 3) && |r.primary| <= 3
    ensures r.secondary == SecondaryRecommendations(riskData)
    ensures r.plan == CreateImplementationPlan(primary, r.secondary)
    ensures r.costAnalysis == CalculateCostAnalysis(primary, r.secondary)
    ensures r.expectedRiskReduction == RiskReductionFor(riskData, TotalPoints(primary))
    ensures forall q :: Cell(r.priorityMatrix, q) == TitlesIn(primary, q)
    ensures r.riskContext ==
      RiskContext(riskData.riskLevel.GetOr("UNKNOWN"), CurrentScore(riskData), riskData.primaryConcerns.GetOr([]))
  {
    var secondary := GenerateSecondaryRecommendations(riskData);
    var plan := CreateImplementationPlan(primary, secondary);
    var costs := CalculateCostAnalysis(primary, secondary);
    var reduction := EstimateRiskReduction(riskData, primary);
    var matrix := CreatePriorityMatrix(primary);
    r := Recommendations(
      Take(primary, 3), secondary, plan, costs, reduction, matrix,
      RiskContext(riskData.riskLevel.GetOr("UNKNOWN"), CurrentScore(riskData), riskData.primaryConcerns.GetOr([])));
  }

  /** `generate_recommendations`: fire the primary rules on the input parameters, then build the report. */
  method GenerateRecommendations(riskData: RiskData) returns (r: Recommendations)
    ensures var all := PrimaryRecommendations(riskData.inputParameters);
      && r.primary == Take(all, 3)
      && r.secondary == SecondaryRecommendations(riskData)
      && r.plan == CreateImplementationPlan(all, r.secondary)
      && r.costAnalysis == CalculateCostAnalysis(all, r.secondary)
      && r.expectedRiskReduction == RiskReductionFor(riskData, TotalPoints(all))
      && (forall q :: Cell(r.priorityMatrix, q) == TitlesIn(all, q))
    ensures |r.primary| <= 3
    ensures r.riskContext ==
      RiskContext(riskData.riskLevel.GetOr("UNKNOWN"), CurrentScore(riskData), riskData.primaryConcerns.GetOr([]))
  {
    var primary := ApplyPrimaryRules(riskData.inputParameters);
    r := Report(riskData, primary);
  }
}
