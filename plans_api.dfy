/**
 * The plan normalizer of the `/api/plans` endpoint (app/api/plans/route.ts,
 * the per-plan body of `GET`). Fetched rows are inputs; for each plan row the
 * normalizer selects the plan's feature values, classifies each one as a
 * usage limit, a benefit or a limitation, relabels it, sorts the lists by
 * fixed priority tables and substitutes fixed defaults for empty lists.
 */
module PlansApi {
  import opened Types
  import opened Ascii
  import Sorting

  /** The `value` column after `JSON.parse`: a number, a boolean, a string, or anything else (null, object, array). */
  datatype Value = Num(n: int) | Bool(b: bool) | Str(s: string) | Other

  /**
   * The foreign, locale-dependent calls the normalizer makes:
   * `isNumber(v)` is `!isNaN(Number(v))`, `localeFormat(v)` is the
   * `toLocaleString` formatting of a numeric-looking value, and
   * `less(a, b)` is `a.localeCompare(b) < 0`.
   */
  datatype Env = Env(isNumber: Value -> bool, localeFormat: Value -> string, less: (string, string) -> bool)

  /** A row of `plan_configurations` (id, name, displayName, description, parsed monthly price). */
  datatype PlanRow = PlanRow(id: string, name: string, displayName: string, description: Option<string>, monthlyPrice: real)

  /** A row of `plan_features`; a missing or empty display name falls back to `name`. */
  datatype FeatureRow = FeatureRow(name: string, displayName: Option<string>)

  /** A visible row of `plan_feature_values`. */
  datatype FeatureValueRow = FeatureValueRow(planName: string, featureName: string, value: Value)

  /** `{ label, value }`; `label` is a Dafny keyword, so the field is called `caption`. */
  datatype UsageLimit = UsageLimit(caption: string, value: string)

  /** The display record the endpoint returns for one plan. */
  datatype ApiPlan = ApiPlan(
    id: string,
    title: string,
    description: string,
    monthly: real,
    usageLimits: seq<UsageLimit>,
    benefits: seq<string>,
    limitations: seq<string>)

  /** What one feature value contributes to its plan. */
  datatype Entry = Usage(limit: UsageLimit) | Benefit(name: string) | Limitation(name: string) | Skip

  // ---------------------------------------------------------------------
  // Orders

  /** `localeCompare` is taken to be a strict total order on strings. */
  ghost predicate StrictTotalOrder(less: (string, string) -> bool)
  {
    && (forall a :: !less(a, a))
    && (forall a, b, c :: less(a, b) && less(b, c) ==> less(a, c))
    && (forall a, b :: a != b ==> less(a, b) || less(b, a))
  }

  function LocaleCompare(less: (string, string) -> bool, a: string, b: string): int
  {
    if a == b then 0 else if less(a, b) then -1 else 1
  }

  /**
   * The comparator of both sorts (lines 202-212 and 240-253): entries of
   * `order` by position, before every other string, and the others by
   * `localeCompare`.
   */
  function RankCompare(order: seq<string>, less: (string, string) -> bool, a: string, b: string): int
  {
    var ia := IndexOf(order, a);
    var ib := IndexOf(order, b);
    if ia != -1 && ib != -1 then ia - ib
    else if ia != -1 then -1
    else if ib != -1 then 1
    else LocaleCompare(less, a, b)
  }

  /** The position of a listed string, or `|order|` for an unlisted one. */
  function Rank(order: seq<string>, x: string): (r: nat)
    ensures r <= |order|
    ensures r < |order| <==> x in order
    ensures r < |order| ==> order[r] == x
  {
    var i := IndexOf(order, x);
    if i == -1 then |order| else i
  }

  /**
   * When `a` may precede `b`: a lower rank, or the same listed entry, or two
   * unlisted strings in `localeCompare` order.
   */
  lemma RankCompareLe(order: seq<string>, less: (string, string) -> bool, a: string, b: string)
    ensures RankCompare(order, less, a, b) <= 0 <==>
      Rank(order, a) < Rank(order, b) ||
      (Rank(order, a) == Rank(order, b) && (a == b || (a !in order && less(a, b))))
  {
  }

  lemma RankCompareConsistent(order: seq<string>, less: (string, string) -> bool, a: string, b: string, c: string)
    requires StrictTotalOrder(less)
    ensures RankCompare(order, less, a, b) > 0 ==> RankCompare(order, less, b, a) < 0
    ensures RankCompare(order, less, a, b) <= 0 && RankCompare(order, less, b, c) <= 0 ==> RankCompare(order, less, a, c) <= 0
  {
    RankCompareLe(order, less, a, b);
    RankCompareLe(order, less, b, c);
    RankCompareLe(order, less, a, c);
    RankCompareLe(order, less, b, a);
  }

  const UsageLimitOrder: seq<string> := ["AI Conversations/month:", "Documents:", "Chatbots:"]

  const FeatureOrder: seq<string> := [
    "Everything in Starter",
    "Everything in Growth",
    "Higher Usage Limits",
    "AI Chatbot",
    "Chatbot Training",
    "Lead Qualification",
    "Chatbot Notifications",
    "Basic Analytics",
    "Chat Support",
    "Email Support",
    "Advanced Analytics",
    "Human Handoff",
    "Hide Branding",
    "Customize Chat Widget",
    "Priority Support",
    "Live Support Availability"
  ]

  function UsageCmp(less: (string, string) -> bool): (UsageLimit, UsageLimit) -> int
  {
    (a: UsageLimit, b: UsageLimit) => RankCompare(UsageLimitOrder, less, a.caption, b.caption)
  }

  function BenefitCmp(less: (string, string) -> bool): (string, string) -> int
  {
    (a: string, b: string) => RankCompare(FeatureOrder, less, a, b)
  }

  lemma UsageCmpConsistent(less: (string, string) -> bool)
    requires StrictTotalOrder(less)
    ensures Sorting.Consistent(UsageCmp(less))
  {
    var cmp := UsageCmp(less);
    forall a: UsageLimit, b: UsageLimit, c: UsageLimit
      ensures cmp(a, b) > 0 ==> cmp(b, a) < 0
      ensures cmp(a, b) <= 0 && cmp(b, c) <= 0 ==> cmp(a, c) <= 0
    {
      RankCompareConsistent(UsageLimitOrder, less, a.caption, b.caption, c.caption);
    }
  }

  lemma BenefitCmpConsistent(less: (string, string) -> bool)
    requires StrictTotalOrder(less)
    ensures Sorting.Consistent(BenefitCmp(less))
  {
    forall a: string, b: string, c: string {
      RankCompareConsistent(FeatureOrder, less, a, b, c);
    }
  }

  // ---------------------------------------------------------------------
  // Selection and classification of feature values

  /** Line 100-101: the value belongs to the plan by lower-cased name or display name. */
  predicate BelongsTo(plan: PlanRow, fv: FeatureValueRow)
  {
    Lower(fv.planName) == Lower(plan.name) || Lower(fv.planName) == Lower(plan.displayName)
  }

  /** `featureValues.filter(...)` of lines 99-102, keeping the input order. */
  function PlanValues(plan: PlanRow, fvs: seq<FeatureValueRow>): (r: seq<FeatureValueRow>)
    ensures |r| <= |fvs|
    ensures forall x :: x in r <==> x in fvs && BelongsTo(plan, x)
  {
    if fvs == [] then []
    else
      var init := PlanValues(plan, fvs[..|fvs| - 1]);
      var last := fvs[|fvs| - 1];
      assert fvs == fvs[..|fvs| - 1] + [last];
      if BelongsTo(plan, last) then init + [last] else init
  }

  /** `features.find(f => f.name === name)`: the first definition with that name. */
  function FindFeature(features: seq<FeatureRow>, name: string): (r: Option<FeatureRow>)
    ensures r.None? <==> forall k :: 0 <= k < |features| ==> features[k].name != name
    ensures r.Some? ==> r.value.name == name && r.value in features
    ensures r.Some? ==> exists k :: 0 <= k < |features| && features[k] == r.value &&
                                     forall j :: 0 <= j < k ==> features[j].name != name
  {
    if features == [] then None
    else if features[0].name == name then
      assert features[0] == features[0];
      Some(features[0])
    else
      var r := FindFeature(features[1..], name);
      assert forall k :: 1 <= k < |features| ==> features[k] == features[1..][k - 1];
      if r.Some? then
        var k :| 0 <= k < |features[1..]| && features[1..][k] == r.value &&
                 forall j :: 0 <= j < k ==> features[1..][j].name != name;
        assert features[k + 1] == r.value;
        r
      else r
  }

  /** `feature.displayName || feature.name` (line 129). */
  function FeatureName(f: FeatureRow): string
  {
    match f.displayName
    case Some(d) => if d != "" then d else f.name
    case None => f.name
  }

  /**
   * A chain of `if (lower.includes(pattern)) label = canonical;` statements
   * run in order, starting from `current`: the last matching pattern wins.
   */
  function Relabel(lower: string, table: seq<(string, string)>, current: string): (r: string)
    ensures (forall k :: 0 <= k < |table| ==> !Contains(lower, table[k].0)) ==> r == current
    ensures forall k :: 0 <= k < |table| ==>
      (Contains(lower, table[k].0) && (forall m :: k < m < |table| ==> !Contains(lower, table[m].0))) ==> r == table[k].1
  {
    if table == [] then current
    else
      var next := if Contains(lower, table[0].0) then table[0].1 else current;
      var r := Relabel(lower, table[1..], next);
      assert forall k :: 1 <= k < |table| ==> table[k] == table[1..][k - 1];
      r
  }

  /** Lines 143-147. */
  const UsageLabels: seq<(string, string)> := [
    ("monthly conversation", "AI Conversations/month"),
    ("number of chatbot", "Chatbots"),
    ("document upload", "Documents"),
    ("storage", "Storage (GB)"),
    ("team member", "Team Members")
  ]

  /** Lines 167-179. */
  const BenefitLabels: seq<(string, string)> := [
    ("ai chatbot", "AI Chatbot"),
    ("chatbot training", "Chatbot Training"),
    ("basic analytics", "Basic Analytics"),
    ("advanced analytics", "Advanced Analytics"),
    ("human handoff", "Human Handoff"),
    ("hide branding", "Hide Branding"),
    ("customize chat widget", "Customize Chat Widget"),
    ("priority support", "Priority Support"),
    ("live support", "Live Support Availability"),
    ("lead qualification", "Lead Qualification"),
    ("email support", "Email Support"),
    ("chat support", "Chat Support"),
    ("higher usage", "Higher Usage Limits")
  ]

  /** Lines 186-194. */
  const LimitationLabels: seq<(string, string)> := [
    ("custom branding", "Custom Branding"),
    ("integration", "Integrations"),
    ("human handoff", "Human Handoff"),
    ("hide branding", "Hide Branding"),
    ("export report", "Export Reports"),
    ("live support", "Live Support Availability"),
    ("customize chat widget", "Customize Chat Widget"),
    ("advanced analytics", "Advanced Analytics"),
    ("priority support", "Priority Support")
  ]

  /** Lines 137-139: the name is one of the three usage metrics. */
  predicate IsUsageName(lower: string)
  {
    Contains(lower, "monthly conversation") || Contains(lower, "number of chatbot") || Contains(lower, "document upload")
  }

  /** Line 136: `typeof value === 'number' || !isNaN(Number(value))`, and not a boolean. */
  predicate IsUsageValue(v: Value, env: Env)
  {
    (v.Num? || env.isNumber(v)) && v != Bool(true) && v != Bool(false)
  }

  /** Line 159: `value === true || value === 'true' || value === 1`. */
  predicate IsTrueValue(v: Value)
  {
    v == Bool(true) || v == Str("true") || v == Num(1)
  }

  /** Line 183: `value === false || value === 'false' || value === 0`. */
  predicate IsFalseValue(v: Value)
  {
    v == Bool(false) || v == Str("false") || v == Num(0)
  }

  /** Line 161: storage and team-member features never become benefits. */
  predicate IsExcludedName(lower: string)
  {
    Contains(lower, "storage") || Contains(lower, "team member")
  }

  /** The body of the `forEach` of lines 117-198 for one feature value. */
  function Classify(fv: FeatureValueRow, features: seq<FeatureRow>, env: Env): (e: Entry)
  {
    match FindFeature(features, fv.featureName)
    case None => Skip
    case Some(feature) =>
      var featureName := FeatureName(feature);
      var lower := Lower(featureName);
      var value := fv.value;
      if IsUsageValue(value, env) && IsUsageName(lower) then
        Usage(UsageLimit(Relabel(lower, UsageLabels, featureName) + ":", env.localeFormat(value)))
      else if IsTrueValue(value) then
        if IsExcludedName(lower) then Skip
        else Benefit(Relabel(lower, BenefitLabels, featureName))
      else if IsFalseValue(value) then
        Limitation(Relabel(lower, LimitationLabels, featureName))
      else Skip
  }

  /**
   * The cases of `Classify`: an unknown feature is skipped; a numeric-looking
   * value of a usage metric is a usage limit holding the formatted value;
   * otherwise a true-like value of a feature other than storage or team
   * members is a benefit, and a false-like value is a limitation.
   */
  lemma ClassifyCases(fv: FeatureValueRow, features: seq<FeatureRow>, env: Env)
    ensures FindFeature(features, fv.featureName).None? ==> Classify(fv, features, env) == Skip
    ensures Classify(fv, features, env).Usage? <==>
      FindFeature(features, fv.featureName).Some? &&
      IsUsageValue(fv.value, env) && IsUsageName(Lower(FeatureName(FindFeature(features, fv.featureName).value)))
    ensures Classify(fv, features, env).Benefit? <==>
      FindFeature(features, fv.featureName).Some? &&
      !(IsUsageValue(fv.value, env) && IsUsageName(Lower(FeatureName(FindFeature(features, fv.featureName).value)))) &&
      IsTrueValue(fv.value) && !IsExcludedName(Lower(FeatureName(FindFeature(features, fv.featureName).value)))
    ensures Classify(fv, features, env).Limitation? <==>
      FindFeature(features, fv.featureName).Some? &&
      !(IsUsageValue(fv.value, env) && IsUsageName(Lower(FeatureName(FindFeature(features, fv.featureName).value)))) &&
      !IsTrueValue(fv.value) && IsFalseValue(fv.value)
    ensures Classify(fv, features, env).Usage? ==> Classify(fv, features, env).limit.value == env.localeFormat(fv.value)
  {
  }

  /** The classification of each of a plan's feature values, in order. */
  function Entries(fvs: seq<FeatureValueRow>, features: seq<FeatureRow>, env: Env): (es: seq<Entry>)
    ensures |es| == |fvs|
    ensures forall i :: 0 <= i < |fvs| ==> es[i] == Classify(fvs[i], features, env)
  {
    MapAt(fvs, ClassifyWith(features, env));
    Map(fvs, ClassifyWith(features, env))
  }

  /** `Classify` against fixed feature rows and environment. */
  function ClassifyWith(features: seq<FeatureRow>, env: Env): FeatureValueRow -> Entry
  {
    (fv: FeatureValueRow) => Classify(fv, features, env)
  }

  /** The `usageLimits` array after the loop. */
  function UsageLimitsOf(es: seq<Entry>): seq<UsageLimit>
  {
    if es == [] then []
    else
      var init := UsageLimitsOf(es[..|es| - 1]);
      match es[|es| - 1]
      case Usage(u) => init + [u]
      case _ => init
  }

  /** The `benefits` array after the loop. */
  function BenefitsOf(es: seq<Entry>): seq<string>
  {
    if es == [] then []
    else
      var init := BenefitsOf(es[..|es| - 1]);
      match es[|es| - 1]
      case Benefit(b) => init + [b]
      case _ => init
  }

  /** The `limitations` array after the loop. */
  function LimitationsOf(es: seq<Entry>): seq<string>
  {
    if es == [] then []
    else
      var init := LimitationsOf(es[..|es| - 1]);
      match es[|es| - 1]
      case Limitation(l) => init + [l]
      case _ => init
  }

  /** One more feature value pushes onto exactly the list its entry names. */
  lemma ListsSnoc(es: seq<Entry>, e: Entry)
    ensures UsageLimitsOf(es + [e]) == if e.Usage? then UsageLimitsOf(es) + [e.limit] else UsageLimitsOf(es)
    ensures BenefitsOf(es + [e]) == if e.Benefit? then BenefitsOf(es) + [e.name] else BenefitsOf(es)
    ensures LimitationsOf(es + [e]) == if e.Limitation? then LimitationsOf(es) + [e.name] else LimitationsOf(es)
  {
    assert (es + [e])[..|es|] == es;
  }

  /** The three lists hold exactly the usage limits, benefits and limitations among the entries. */
  lemma {:induction false} ListsMembers(es: seq<Entry>)
    ensures forall u :: u in UsageLimitsOf(es) <==> Usage(u) in es
    ensures forall b :: b in BenefitsOf(es) <==> Benefit(b) in es
    ensures forall l :: l in LimitationsOf(es) <==> Limitation(l) in es
  {
    if es != [] {
      var init := es[..|es| - 1];
      ListsMembers(init);
      assert es == init + [es[|es| - 1]];
      ListsSnoc(init, es[|es| - 1]);
    }
  }

  // ---------------------------------------------------------------------
  // Assembling the record

  /** Lines 215-218: the lower tier whose benefits Growth and Pro include. */
  function IncludedTier(displayName: string): Option<string>
  {
    if displayName == "Growth" then Some("Starter")
    else if displayName == "Pro" then Some("Growth")
    else None
  }

  /** The template of line 217 for the two tiers. */
  lemma EverythingInText()
    ensures "Everything in " + "Starter" == "Everything in Starter"
    ensures "Everything in " + "Growth" == "Everything in Growth"
  {
  }

  /** `benefits.unshift(...)` of line 217. */
  function WithEverythingIn(displayName: string, benefits: seq<string>): seq<string>
  {
    match IncludedTier(displayName)
    case Some(tier) => ["Everything in " + tier] + benefits
    case None => benefits
  }

  const DefaultUsageLimits: seq<UsageLimit> := [
    UsageLimit("AI Conversations/month:", "500"),
    UsageLimit("Documents:", "2"),
    UsageLimit("Chatbots:", "1")
  ]

  const DefaultBenefits: seq<string> := ["AI Chatbot", "Chatbot Training", "Basic Analytics"]

  const DefaultLimitations: seq<string> := ["Custom Branding", "Integrations"]

  /** The record built for `plan` from the fetched rows: the specification of `StructurePlan`. */
  function PlanSpec(plan: PlanRow, features: seq<FeatureRow>, fvs: seq<FeatureValueRow>, env: Env): ApiPlan
  {
    var es := PlanEntries(plan, features, fvs, env);
    var usage := Sorting.Sort(UsageLimitsOf(es), UsageCmp(env.less));
    var benefits := Sorting.Sort(WithEverythingIn(plan.displayName, BenefitsOf(es)), BenefitCmp(env.less));
    var limitations := LimitationsOf(es);
    ApiPlan(
      plan.id,
      plan.displayName,
      plan.description.GetOr(""),
      plan.monthlyPrice,
      if |usage| > 0 then usage else DefaultUsageLimits,
      if |benefits| > 0 then benefits else DefaultBenefits,
      if plan.displayName == "Pro" then [] else if |limitations| > 0 then limitations else DefaultLimitations)
  }

  /** The `forEach` of lines 117-198: each classified value is pushed onto its list, in order. */
  method CollectValues(planFeatureValues: seq<FeatureValueRow>, features: seq<FeatureRow>, env: Env)
    returns (usageLimits: seq<UsageLimit>, benefits: seq<string>, limitations: seq<string>)
    ensures usageLimits == UsageLimitsOf(Entries(planFeatureValues, features, env))
    ensures benefits == BenefitsOf(Entries(planFeatureValues, features, env))
    ensures limitations == LimitationsOf(Entries(planFeatureValues, features, env))
  {
    usageLimits, benefits, limitations := [], [], [];
    var i := 0;
    while i < |planFeatureValues|
      invariant 0 <= i <= |planFeatureValues|
      invariant usageLimits == UsageLimitsOf(Entries(planFeatureValues[..i], features, env))
      invariant benefits == BenefitsOf(Entries(planFeatureValues[..i], features, env))
      invariant limitations == LimitationsOf(Entries(planFeatureValues[..i], features, env))
    {
      ghost var es := Entries(planFeatureValues[..i], features, env);
      var e := Classify(planFeatureValues[i], features, env);
      MapSnoc(planFeatureValues, ClassifyWith(features, env), i);
      ListsSnoc(es, e);
      match e {
        case Usage(u) => usageLimits := usageLimits + [u];
        case Benefit(b) => benefits := benefits + [b];
        case Limitation(l) => limitations := limitations + [l];
        case Skip =>
      }
      i := i + 1;
    }
    assert planFeatureValues[..i] == planFeatureValues;
  }

  /** The callback of `plans.map` (lines 92-292). */
  method StructurePlan(plan: PlanRow, features: seq<FeatureRow>, featureValues: seq<FeatureValueRow>, env: Env)
    returns (r: ApiPlan)
    ensures r == PlanSpec(plan, features, featureValues, env)
  {
    var planFeatureValues := PlanValues(plan, featureValues);
    var usageLimits, benefits, limitations := CollectValues(planFeatureValues, features, env);

    usageLimits := Sorting.Sort(usageLimits, UsageCmp(env.less));
    if plan.displayName == "Growth" || plan.displayName == "Pro" {
      var starterPlanName := if plan.displayName == "Growth" then "Starter" else "Growth";
      benefits := ["Everything in " + starterPlanName] + benefits;
    }
    benefits := Sorting.Sort(benefits, BenefitCmp(env.less));

    var finalUsageLimits := if |usageLimits| > 0 then usageLimits else DefaultUsageLimits;
    var finalBenefits := if |benefits| > 0 then benefits else DefaultBenefits;
    var finalLimitations := if plan.displayName == "Pro" then [] else
      (if |limitations| > 0 then limitations else DefaultLimitations);
    r := ApiPlan(plan.id, plan.displayName, plan.description.GetOr(""), plan.monthlyPrice,
                 finalUsageLimits, finalBenefits, finalLimitations);
  }

  /** `plans.map(...)` over the specification: one record per plan row, in input order. */
  function PlanSpecs(plans: seq<PlanRow>, features: seq<FeatureRow>, fvs: seq<FeatureValueRow>, env: Env): seq<ApiPlan>
  {
    Map(plans, SpecWith(features, fvs, env))
  }

  /** `PlanSpec` against fixed feature rows, feature values and environment. */
  function SpecWith(features: seq<FeatureRow>, fvs: seq<FeatureValueRow>, env: Env): PlanRow -> ApiPlan
  {
    (plan: PlanRow) => PlanSpec(plan, features, fvs, env)
  }

  /** One record per plan row, in input order. */
  lemma PlanSpecsAt(plans: seq<PlanRow>, features: seq<FeatureRow>, fvs: seq<FeatureValueRow>, env: Env)
    ensures |PlanSpecs(plans, features, fvs, env)| == |plans|
    ensures forall i :: 0 <= i < |plans| ==> PlanSpecs(plans, features, fvs, env)[i] == PlanSpec(plans[i], features, fvs, env)
  {
    MapAt(plans, SpecWith(features, fvs, env));
  }

  /** The `plans.map` of lines 92-292. */
  method StructurePlans(plans: seq<PlanRow>, features: seq<FeatureRow>, featureValues: seq<FeatureValueRow>, env: Env)
    returns (out: seq<ApiPlan>)
    ensures out == PlanSpecs(plans, features, featureValues, env)
  {
    out := [];
    var i := 0;
    while i < |plans|
      invariant 0 <= i <= |plans|
      invariant out == PlanSpecs(plans[..i], features, featureValues, env)
    {
      var p := StructurePlan(plans[i], features, featureValues, env);
      MapSnoc(plans, SpecWith(features, featureValues, env), i);
      out := out + [p];
      i := i + 1;
    }
    assert plans[..i] == plans;
  }

  // ---------------------------------------------------------------------
  // Properties of the record

  /** The plan's classified feature values. */
  function PlanEntries(plan: PlanRow, features: seq<FeatureRow>, fvs: seq<FeatureValueRow>, env: Env): seq<Entry>
  {
    Entries(PlanValues(plan, fvs), features, env)
  }

  /** An entry of the plan comes from one of the plan's own feature values. */
  lemma {:induction false} EntryOrigin(plan: PlanRow, features: seq<FeatureRow>, fvs: seq<FeatureValueRow>, env: Env, e: Entry)
    requires e in PlanEntries(plan, features, fvs, env)
    ensures exists fv :: fv in fvs && BelongsTo(plan, fv) && Classify(fv, features, env) == e
  {
    var pvs := PlanValues(plan, fvs);
    var es := Entries(pvs, features, env);
    var k :| 0 <= k < |es| && es[k] == e;
    assert pvs[k] in pvs;
  }

  /** Strings in the order of a priority table, unlisted ones last and in `less` order. */
  ghost predicate RankOrdered(s: seq<string>, order: seq<string>, less: (string, string) -> bool)
  {
    forall i, j :: 0 <= i < j < |s| ==>
      Rank(order, s[i]) <= Rank(order, s[j]) &&
      (s[i] !in order && s[j] !in order && s[i] != s[j] ==> less(s[i], s[j]))
  }

  function Captions(us: seq<UsageLimit>): (r: seq<string>)
    ensures |r| == |us|
    ensures forall i :: 0 <= i < |us| ==> r[i] == us[i].caption
  {
    seq(|us|, i requires 0 <= i < |us| => us[i].caption)
  }

  lemma BenefitSortedRankOrdered(s: seq<string>, less: (string, string) -> bool)
    requires Sorting.SortedBy(s, BenefitCmp(less))
    ensures RankOrdered(s, FeatureOrder, less)
  {
    forall i, j | 0 <= i < j < |s|
      ensures Rank(FeatureOrder, s[i]) <= Rank(FeatureOrder, s[j])
      ensures s[i] !in FeatureOrder && s[j] !in FeatureOrder && s[i] != s[j] ==> less(s[i], s[j])
    {
      assert BenefitCmp(less)(s[i], s[j]) <= 0;
      RankCompareLe(FeatureOrder, less, s[i], s[j]);
    }
  }

  lemma UsageSortedRankOrdered(s: seq<UsageLimit>, less: (string, string) -> bool)
    requires Sorting.SortedBy(s, UsageCmp(less))
    ensures RankOrdered(Captions(s), UsageLimitOrder, less)
  {
    var c := Captions(s);
    forall i, j | 0 <= i < j < |c|
      ensures Rank(UsageLimitOrder, c[i]) <= Rank(UsageLimitOrder, c[j])
      ensures c[i] !in UsageLimitOrder && c[j] !in UsageLimitOrder && c[i] != c[j] ==> less(c[i], c[j])
    {
      assert UsageCmp(less)(s[i], s[j]) <= 0;
      RankCompareLe(UsageLimitOrder, less, c[i], c[j]);
    }
  }

  /** A table entry preceded only by different entries has its own position as rank. */
  lemma RankAt(order: seq<string>, k: nat)
    requires k < |order|
    requires forall i :: 0 <= i < k ==> order[i] != order[k]
    ensures Rank(order, order[k]) == k
  {
  }

  /** A lower rank puts a string strictly before another. */
  lemma RankBefore(order: seq<string>, less: (string, string) -> bool, a: string, b: string)
    requires Rank(order, a) < Rank(order, b)
    ensures RankCompare(order, less, a, b) < 0
  {
  }

  /** Three strings of strictly increasing rank are sorted. */
  lemma ThreeRanked(order: seq<string>, less: (string, string) -> bool, s: seq<string>)
    requires |s| == 3
    requires Rank(order, s[0]) < Rank(order, s[1]) < Rank(order, s[2])
    ensures forall i, j :: 0 <= i < j < 3 ==> RankCompare(order, less, s[i], s[j]) <= 0
  {
    RankBefore(order, less, s[0], s[1]);
    RankBefore(order, less, s[0], s[2]);
    RankBefore(order, less, s[1], s[2]);
  }

  lemma DefaultUsageLimitsSorted(less: (string, string) -> bool)
    ensures Sorting.SortedBy(DefaultUsageLimits, UsageCmp(less))
  {
    RankAt(UsageLimitOrder, 0);
    RankAt(UsageLimitOrder, 1);
    RankAt(UsageLimitOrder, 2);
    ThreeRanked(UsageLimitOrder, less, Captions(DefaultUsageLimits));
  }

  lemma RankOfAIChatbot()
    ensures Rank(FeatureOrder, "AI Chatbot") == 3
  {
    RankAt(FeatureOrder, 3);
  }

  lemma RankOfChatbotTraining()
    ensures Rank(FeatureOrder, "Chatbot Training") == 4
  {
    RankAt(FeatureOrder, 4);
  }

  lemma RankOfBasicAnalytics()
    ensures Rank(FeatureOrder, "Basic Analytics") == 7
  {
    RankAt(FeatureOrder, 7);
  }

  lemma DefaultBenefitsSorted(less: (string, string) -> bool)
    ensures Sorting.SortedBy(DefaultBenefits, BenefitCmp(less))
  {
    RankOfAIChatbot();
    RankOfChatbotTraining();
    RankOfBasicAnalytics();
    ThreeRanked(FeatureOrder, less, DefaultBenefits);
  }

  /**
   * Lines 200-212 and 257-261: the usage limits are the collected ones,
   * permuted into label order ("AI Conversations/month:", "Documents:",
   * "Chatbots:", then all other labels in string order), or the three
   * defaults when none was collected.
   */
  lemma UsageLimitsOrdered(plan: PlanRow, features: seq<FeatureRow>, fvs: seq<FeatureValueRow>, env: Env)
    requires StrictTotalOrder(env.less)
    ensures var collected := UsageLimitsOf(PlanEntries(plan, features, fvs, env));
      var r := PlanSpec(plan, features, fvs, env).usageLimits;
      && (collected == [] ==> r == DefaultUsageLimits)
      && (collected != [] ==> multiset(r) == multiset(collected))
      && RankOrdered(Captions(r), UsageLimitOrder, env.less)
  {
    var collected := UsageLimitsOf(PlanEntries(plan, features, fvs, env));
    var sorted := Sorting.Sort(collected, UsageCmp(env.less));
    UsageCmpConsistent(env.less);
    Sorting.SortSorted(collected, UsageCmp(env.less));
    var r := PlanSpec(plan, features, fvs, env).usageLimits;
    if collected == [] {
      assert r == DefaultUsageLimits;
      DefaultUsageLimitsSorted(env.less);
    } else {
      assert r == sorted;
    }
    UsageSortedRankOrdered(r, env.less);
  }

  /**
   * Lines 214-253 and 263-267: the benefits are the collected ones plus the
   * "Everything in" entry, permuted into `featureOrder` rank with unlisted
   * names last in string order, or the three defaults when there are none.
   */
  lemma BenefitsOrdered(plan: PlanRow, features: seq<FeatureRow>, fvs: seq<FeatureValueRow>, env: Env)
    requires StrictTotalOrder(env.less)
    ensures var collected := WithEverythingIn(plan.displayName, BenefitsOf(PlanEntries(plan, features, fvs, env)));
      var r := PlanSpec(plan, features, fvs, env).benefits;
      && (collected == [] ==> r == DefaultBenefits)
      && (collected != [] ==> multiset(r) == multiset(collected))
      && RankOrdered(r, FeatureOrder, env.less)
  {
    var collected := WithEverythingIn(plan.displayName, BenefitsOf(PlanEntries(plan, features, fvs, env)));
    BenefitCmpConsistent(env.less);
    Sorting.SortSorted(collected, BenefitCmp(env.less));
    var r := PlanSpec(plan, features, fvs, env).benefits;
    if collected == [] {
      assert r == DefaultBenefits;
      DefaultBenefitsSorted(env.less);
    }
    BenefitSortedRankOrdered(r, env.less);
  }

  /**
   * Lines 214-218: Growth and Pro always list the "Everything in" entry, so
   * they never fall back to the default benefits, and it comes first after
   * the sort, unless a Pro plan also collected "Everything in Starter",
   * which ranks higher.
   */
  lemma EverythingInFirst(plan: PlanRow, features: seq<FeatureRow>, fvs: seq<FeatureValueRow>, env: Env)
    requires StrictTotalOrder(env.less)
    requires plan.displayName == "Growth" || plan.displayName == "Pro"
    ensures var r := PlanSpec(plan, features, fvs, env).benefits;
      var collected := BenefitsOf(PlanEntries(plan, features, fvs, env));
      && |r| == |collected| + 1
      && (plan.displayName == "Growth" ==> r[0] == "Everything in Starter")
      && (plan.displayName == "Pro" ==>
            r[0] == if "Everything in Starter" in collected then "Everything in Starter" else "Everything in Growth")
  {
    var collected := BenefitsOf(PlanEntries(plan, features, fvs, env));
    var entry := if plan.displayName == "Growth" then "Everything in Starter" else "Everything in Growth";
    EverythingInText();
    assert WithEverythingIn(plan.displayName, collected) == [entry] + collected;
    EverythingInHead(entry, collected, env.less);
  }

  /** Sorting an "Everything in" entry in with other benefits puts the best-ranked such entry first. */
  lemma EverythingInHead(entry: string, collected: seq<string>, less: (string, string) -> bool)
    requires StrictTotalOrder(less)
    requires entry == "Everything in Starter" || entry == "Everything in Growth"
    ensures var r := Sorting.Sort([entry] + collected, BenefitCmp(less));
      && |r| == |collected| + 1
      && r[0] == if "Everything in Starter" in [entry] + collected then "Everything in Starter" else "Everything in Growth"
  {
    var all := [entry] + collected;
    var cmp := BenefitCmp(less);
    BenefitCmpConsistent(less);
    Sorting.SortSorted(all, cmp);
    var r := Sorting.Sort(all, cmp);
    assert multiset(r) == multiset(all);
    RankOfEverythingInStarter();
    RankOfEverythingInGrowth();
    var first := if "Everything in Starter" in all then "Everything in Starter" else "Everything in Growth";
    assert first in multiset(r);
    SortedHead(r, less, first);
    assert r[0] in multiset(all);
    RankZero(r[0]);
  }

  lemma RankOfEverythingInStarter()
    ensures Rank(FeatureOrder, "Everything in Starter") == 0
  {
    RankAt(FeatureOrder, 0);
  }

  /** Only "Everything in Starter" has rank 0. */
  lemma RankZero(x: string)
    ensures Rank(FeatureOrder, x) == 0 <==> x == "Everything in Starter"
  {
    RankOfEverythingInStarter();
  }

  lemma RankOfEverythingInGrowth()
    ensures Rank(FeatureOrder, "Everything in Growth") == 1
  {
    RankAt(FeatureOrder, 1);
  }

  /** The head of a benefit list in rank order ranks no lower than any listed member. */
  lemma SortedHead(s: seq<string>, less: (string, string) -> bool, x: string)
    requires Sorting.SortedBy(s, BenefitCmp(less)) && x in s && Rank(FeatureOrder, x) < |FeatureOrder|
    ensures Rank(FeatureOrder, s[0]) <= Rank(FeatureOrder, x)
    ensures Rank(FeatureOrder, s[0]) == Rank(FeatureOrder, x) ==> s[0] == x
  {
    Sorting.SortedFirst(s, BenefitCmp(less), x);
    RankCompareLe(FeatureOrder, less, s[0], x);
  }

  /** Lines 269-275: Pro lists no limitations; any other plan lists the collected ones in order, or the two defaults. */
  lemma LimitationsFallback(plan: PlanRow, features: seq<FeatureRow>, fvs: seq<FeatureValueRow>, env: Env)
    ensures var collected := LimitationsOf(PlanEntries(plan, features, fvs, env));
      var r := PlanSpec(plan, features, fvs, env).limitations;
      && (plan.displayName == "Pro" ==> r == [])
      && (plan.displayName != "Pro" && collected == [] ==> r == DefaultLimitations)
      && (plan.displayName != "Pro" && collected != [] ==> r == collected)
  {
  }

  /** Lines 277-291: the record's identity fields come straight from the plan row. */
  lemma RecordFields(plan: PlanRow, features: seq<FeatureRow>, fvs: seq<FeatureValueRow>, env: Env)
    ensures var r := PlanSpec(plan, features, fvs, env);
      && r.id == plan.id
      && r.title == plan.displayName
      && (plan.description.None? ==> r.description == "")
      && (plan.description.Some? ==> r.description == plan.description.value)
      && r.monthly == plan.monthlyPrice
  {
  }

  /**
   * Every listed usage limit is a default (and then none was collected) or
   * comes from a feature value of this plan that `Classify` made a usage limit.
   */
  lemma UsageLimitOrigin(plan: PlanRow, features: seq<FeatureRow>, fvs: seq<FeatureValueRow>, env: Env, u: UsageLimit)
    requires u in PlanSpec(plan, features, fvs, env).usageLimits
    ensures || (UsageLimitsOf(PlanEntries(plan, features, fvs, env)) == [] && u in DefaultUsageLimits)
            || (exists fv :: fv in fvs && BelongsTo(plan, fv) && Classify(fv, features, env) == Usage(u))
  {
    var es := PlanEntries(plan, features, fvs, env);
    var collected := UsageLimitsOf(es);
    if collected != [] {
      assert multiset(PlanSpec(plan, features, fvs, env).usageLimits) == multiset(collected);
      assert u in multiset(collected);
      ListsMembers(es);
      EntryOrigin(plan, features, fvs, env, Usage(u));
    }
  }

  /**
   * Every listed benefit is a default, the "Everything in" entry of Growth or
   * Pro, or comes from a feature value of this plan that `Classify` made a benefit.
   */
  lemma BenefitOrigin(plan: PlanRow, features: seq<FeatureRow>, fvs: seq<FeatureValueRow>, env: Env, b: string)
    requires b in PlanSpec(plan, features, fvs, env).benefits
    ensures || (IncludedTier(plan.displayName).None? && BenefitsOf(PlanEntries(plan, features, fvs, env)) == [] && b in DefaultBenefits)
            || (IncludedTier(plan.displayName).Some? && b == "Everything in " + IncludedTier(plan.displayName).value)
            || (exists fv :: fv in fvs && BelongsTo(plan, fv) && Classify(fv, features, env) == Benefit(b))
  {
    var es := PlanEntries(plan, features, fvs, env);
    var collected := WithEverythingIn(plan.displayName, BenefitsOf(es));
    if collected != [] {
      assert multiset(PlanSpec(plan, features, fvs, env).benefits) == multiset(collected);
      assert b in multiset(collected);
      if IncludedTier(plan.displayName).None? || b != "Everything in " + IncludedTier(plan.displayName).value {
        assert b in BenefitsOf(es);
        ListsMembers(es);
        EntryOrigin(plan, features, fvs, env, Benefit(b));
      }
    }
  }

  /** Every listed limitation is a default or comes from a feature value of this plan that `Classify` made a limitation. */
  lemma LimitationOrigin(plan: PlanRow, features: seq<FeatureRow>, fvs: seq<FeatureValueRow>, env: Env, l: string)
    requires l in PlanSpec(plan, features, fvs, env).limitations
    ensures plan.displayName != "Pro"
    ensures || (LimitationsOf(PlanEntries(plan, features, fvs, env)) == [] && l in DefaultLimitations)
            || (exists fv :: fv in fvs && BelongsTo(plan, fv) && Classify(fv, features, env) == Limitation(l))
  {
    var es := PlanEntries(plan, features, fvs, env);
    if LimitationsOf(es) != [] {
      ListsMembers(es);
      EntryOrigin(plan, features, fvs, env, Limitation(l));
    }
  }

  /**
   * Lines 99-102 and 118-119: a feature value of another plan, or one whose
   * feature is not defined, changes nothing in the record, wherever it stands
   * among the fetched values.
   */
  lemma IgnoredValue(plan: PlanRow, features: seq<FeatureRow>, before: seq<FeatureValueRow>, fv: FeatureValueRow,
                     after: seq<FeatureValueRow>, env: Env)
    requires !BelongsTo(plan, fv) || FindFeature(features, fv.featureName).None?
    ensures PlanSpec(plan, features, before + [fv] + after, env) == PlanSpec(plan, features, before + after, env)
  {
    IgnoredEntries(plan, features, before, fv, after, env);
    SameListsSameSpec(plan, features, before + [fv] + after, before + after, env);
  }

  /** The three collected lists of an ignored value's surroundings are those without it. */
  lemma IgnoredEntries(plan: PlanRow, features: seq<FeatureRow>, before: seq<FeatureValueRow>, fv: FeatureValueRow,
                       after: seq<FeatureValueRow>, env: Env)
    requires !BelongsTo(plan, fv) || FindFeature(features, fv.featureName).None?
    ensures var es, es' := PlanEntries(plan, features, before + [fv] + after, env), PlanEntries(plan, features, before + after, env);
      && UsageLimitsOf(es) == UsageLimitsOf(es')
      && BenefitsOf(es) == BenefitsOf(es')
      && LimitationsOf(es) == LimitationsOf(es')
  {
    var pa, pb := PlanValues(plan, before), PlanValues(plan, after);
    PlanValuesAppend(plan, before + [fv], after);
    PlanValuesAppend(plan, before, [fv]);
    PlanValuesAppend(plan, before, after);
    assert PlanValues(plan, [fv]) == if BelongsTo(plan, fv) then [fv] else [] by {
      assert [fv][..0] == [];
    }
    if BelongsTo(plan, fv) {
      ClassifyCases(fv, features, env);
      EntriesAppend(pa + [fv], pb, features, env);
      EntriesAppend(pa, [fv], features, env);
      EntriesAppend(pa, pb, features, env);
      var ea, eb := Entries(pa, features, env), Entries(pb, features, env);
      assert Entries([fv], features, env) == [Skip];
      ListsAppend(ea + [Skip], eb);
      ListsSnoc(ea, Skip);
      ListsAppend(ea, eb);
    } else {
      assert pa + [] == pa;
    }
  }

  /** The record depends on the feature values only through the three collected lists. */
  lemma SameListsSameSpec(plan: PlanRow, features: seq<FeatureRow>, fvs: seq<FeatureValueRow>, fvs': seq<FeatureValueRow>, env: Env)
    requires var es, es' := PlanEntries(plan, features, fvs, env), PlanEntries(plan, features, fvs', env);
      && UsageLimitsOf(es) == UsageLimitsOf(es')
      && BenefitsOf(es) == BenefitsOf(es')
      && LimitationsOf(es) == LimitationsOf(es')
    ensures PlanSpec(plan, features, fvs, env) == PlanSpec(plan, features, fvs', env)
  {
  }

  /** Filtering a concatenation filters each part. */
  lemma {:induction false} PlanValuesAppend(plan: PlanRow, xs: seq<FeatureValueRow>, ys: seq<FeatureValueRow>)
    ensures PlanValues(plan, xs + ys) == PlanValues(plan, xs) + PlanValues(plan, ys)
    decreases |ys|
  {
    if ys == [] {
      assert xs + ys == xs;
    } else {
      var init := ys[..|ys| - 1];
      assert (xs + ys)[..|xs + ys| - 1] == xs + init;
      PlanValuesAppend(plan, xs, init);
    }
  }

  /** Classifying a concatenation classifies each part. */
  lemma EntriesAppend(xs: seq<FeatureValueRow>, ys: seq<FeatureValueRow>, features: seq<FeatureRow>, env: Env)
    ensures Entries(xs + ys, features, env) == Entries(xs, features, env) + Entries(ys, features, env)
  {
    var l, r := Entries(xs + ys, features, env), Entries(xs, features, env) + Entries(ys, features, env);
    forall i | 0 <= i < |l|
      ensures l[i] == r[i]
    {
      if i >= |xs| {
        assert (xs + ys)[i] == ys[i - |xs|];
      }
    }
  }

  /** The three lists of a concatenation are the lists of each part, concatenated. */
  lemma {:induction false} ListsAppend(xs: seq<Entry>, ys: seq<Entry>)
    ensures UsageLimitsOf(xs + ys) == UsageLimitsOf(xs) + UsageLimitsOf(ys)
    ensures BenefitsOf(xs + ys) == BenefitsOf(xs) + BenefitsOf(ys)
    ensures LimitationsOf(xs + ys) == LimitationsOf(xs) + LimitationsOf(ys)
    decreases |ys|
  {
    if ys == [] {
      assert xs + ys == xs;
    } else {
      var init, last := ys[..|ys| - 1], ys[|ys| - 1];
      assert xs + ys == (xs + init) + [last];
      assert ys == init + [last];
      ListsAppend(xs, init);
      ListsSnoc(xs + init, last);
      ListsSnoc(init, last);
    }
  }

  /** Lines 257-275 with no feature data for the plan: every list is its fallback. */
  lemma NoValuesGivesDefaults(plan: PlanRow, features: seq<FeatureRow>, env: Env)
    ensures var r := PlanSpec(plan, features, [], env);
      && r.usageLimits == DefaultUsageLimits
      && r.benefits == (if plan.displayName == "Growth" then ["Everything in Starter"]
                        else if plan.displayName == "Pro" then ["Everything in Growth"]
                        else DefaultBenefits)
      && r.limitations == (if plan.displayName == "Pro" then [] else DefaultLimitations)
  {
    assert PlanEntries(plan, features, [], env) == [];
    var all := WithEverythingIn(plan.displayName, []);
    if IncludedTier(plan.displayName).Some? {
      EverythingInText();
      assert Sorting.Sort(all, BenefitCmp(env.less)) == all;
    }
  }

  /** Lines 141-147, 165-181 and 184-196: the name an entry carries is the relabelled display name. */
  lemma ClassifyLabels(fv: FeatureValueRow, features: seq<FeatureRow>, env: Env)
    requires FindFeature(features, fv.featureName).Some?
    ensures var name := FeatureName(FindFeature(features, fv.featureName).value);
      var e := Classify(fv, features, env);
      && (e.Usage? ==> e.limit.caption == Relabel(Lower(name), UsageLabels, name) + ":")
      && (e.Benefit? ==> e.name == Relabel(Lower(name), BenefitLabels, name))
      && (e.Limitation? ==> e.name == Relabel(Lower(name), LimitationLabels, name))
  {
    var feature := FindFeature(features, fv.featureName).value;
    var name := FeatureName(feature);
    var lower := Lower(name);
    if IsUsageValue(fv.value, env) && IsUsageName(lower) {
      assert Classify(fv, features, env) == Usage(UsageLimit(Relabel(lower, UsageLabels, name) + ":", env.localeFormat(fv.value)));
    } else if IsTrueValue(fv.value) {
      assert Classify(fv, features, env) == if IsExcludedName(lower) then Skip else Benefit(Relabel(lower, BenefitLabels, name));
    } else {
      assert Classify(fv, features, env) == if IsFalseValue(fv.value) then Limitation(Relabel(lower, LimitationLabels, name)) else Skip;
    }
  }

  lemma ExampleLower()
    ensures Lower("Monthly Conversations") == "monthly conversations"
  {
  }

  /** Of the usage patterns only the first occurs in "monthly conversations". */
  lemma ExamplePatterns()
    ensures Contains("monthly conversations", UsageLabels[0].0)
    ensures forall m :: 1 <= m < |UsageLabels| ==> !Contains("monthly conversations", UsageLabels[m].0)
  {
    ContainsAt("monthly conversations", "monthly conversation", 0);
    ExampleNoOtherPattern();
  }

  /** "monthly conversations" lacks a letter of each of the other usage patterns. */
  lemma ExampleNoOtherPattern()
    ensures !Contains("monthly conversations", "number of chatbot")
    ensures !Contains("monthly conversations", "document upload")
    ensures !Contains("monthly conversations", "storage")
    ensures !Contains("monthly conversations", "team member")
  {
    MissingCharNotContained("monthly conversations", "number of chatbot", 'b');
    MissingCharNotContained("monthly conversations", "document upload", 'd');
    MissingCharNotContained("monthly conversations", "storage", 'g');
    MissingCharNotContained("monthly conversations", "team member", 'b');
  }

  lemma ExampleRelabel()
    ensures IsUsageName("monthly conversations")
    ensures Relabel("monthly conversations", UsageLabels, "Monthly Conversations") == "AI Conversations/month"
  {
    ExamplePatterns();
  }

  lemma ExampleClassify(env: Env)
    ensures Classify(FeatureValueRow("growth", "monthly_conversations", Num(1000)),
                     [FeatureRow("monthly_conversations", Some("Monthly Conversations"))], env)
         == Usage(UsageLimit("AI Conversations/month:", env.localeFormat(Num(1000))))
  {
    var feature := FeatureRow("monthly_conversations", Some("Monthly Conversations"));
    ExampleFind();
    assert FeatureName(feature) == "Monthly Conversations";
    ExampleLower();
    ExampleRelabel();
    assert "AI Conversations/month" + ":" == "AI Conversations/month:";
  }

  lemma ExampleFind()
    ensures var feature := FeatureRow("monthly_conversations", Some("Monthly Conversations"));
      FindFeature([feature], "monthly_conversations") == Some(feature)
  {
  }

  /**
   * A Growth plan whose only feature value is 1000 monthly conversations
   * lists one usage limit under the canonical label, the single benefit
   * "Everything in Starter" and the default limitations.
   */
  lemma GrowthConversationsExample(env: Env)
    ensures var plan := PlanRow("growth-id", "growth", "Growth", None, 29.0);
      var features := [FeatureRow("monthly_conversations", Some("Monthly Conversations"))];
      var fvs := [FeatureValueRow("growth", "monthly_conversations", Num(1000))];
      var r := PlanSpec(plan, features, fvs, env);
      && r.usageLimits == [UsageLimit("AI Conversations/month:", env.localeFormat(Num(1000)))]
      && r.benefits == ["Everything in Starter"]
      && r.limitations == DefaultLimitations
      && r.description == ""
  {
    var plan := PlanRow("growth-id", "growth", "Growth", None, 29.0);
    var features := [FeatureRow("monthly_conversations", Some("Monthly Conversations"))];
    var fv := FeatureValueRow("growth", "monthly_conversations", Num(1000));
    var u := UsageLimit("AI Conversations/month:", env.localeFormat(Num(1000)));
    ExampleEntries(env);
    ListsSnoc([], Usage(u));
    EverythingInText();
    ExampleSortSingle(env.less);
  }

  /** The example plan's only feature value becomes its only entry, a usage limit. */
  lemma ExampleEntries(env: Env)
    ensures PlanEntries(PlanRow("growth-id", "growth", "Growth", None, 29.0),
                        [FeatureRow("monthly_conversations", Some("Monthly Conversations"))],
                        [FeatureValueRow("growth", "monthly_conversations", Num(1000))], env)
         == [Usage(UsageLimit("AI Conversations/month:", env.localeFormat(Num(1000))))]
  {
    var plan := PlanRow("growth-id", "growth", "Growth", None, 29.0);
    var fv := FeatureValueRow("growth", "monthly_conversations", Num(1000));
    assert PlanValues(plan, [fv]) == [fv];
    ExampleClassify(env);
  }

  /** A one-entry benefit list is already sorted. */
  lemma ExampleSortSingle(less: (string, string) -> bool)
    ensures Sorting.Sort(["Everything in Starter"], BenefitCmp(less)) == ["Everything in Starter"]
  {
    var s := ["Everything in Starter"];
    assert s[1..] == [];
  }
}
