/**
 * The database-driven plan builder of lib/plans.ts (`getValue`,
 * `isUsageLimit`, `formatUsageLimit`, `capitalizePlanName` and the non-database
 * part of `getPlansFromDatabase`). Fetched rows are inputs: the active plan
 * configurations with their feature values, and the active features in
 * `sort_order`.
 */
module PlansLib {
  import opened Types
  import opened Ascii
  import Sorting

  /** A JSON value of the `value` column; numbers are integers. */
  datatype Json = JNull | JBool(b: bool) | JNum(n: int) | JStr(s: string) | JArr(items: seq<Json>) | JObj(fields: map<string, Json>)

  /** A row of `plan_features`. */
  datatype Feature = Feature(name: string, displayName: string, sortOrder: int, inputType: string)

  /** A row of `plan_feature_values` with its feature. */
  datatype FeatureValue = FeatureValue(feature: Feature, value: Json, isVisible: bool)

  /** A row of `plan_configurations` with its feature values; the price is taken as a number. */
  datatype PlanConfig = PlanConfig(planName: string, description: Option<string>, monthlyPrice: Option<real>, featureValues: seq<FeatureValue>)

  /** The card record `getPlansFromDatabase` returns for one plan. */
  datatype SubscriptionPlan = SubscriptionPlan(title: string, description: string, benefits: seq<string>, limitations: seq<string>, monthly: real)

  // ---------------------------------------------------------------------
  // JSON helpers

  /** `String(v)` of an array element: `null` becomes the empty string. */
  function ElementText(j: Json): string
    decreases j, 1
  {
    if j.JNull? then "" else ToText(j)
  }

  /** `toString()`: booleans and integers in decimal, arrays joined with commas, objects as `[object Object]`. */
  function ToText(j: Json): string
    decreases j, 0
  {
    match j
    case JNull => "null"
    case JBool(b) => if b then "true" else "false"
    case JNum(n) => IntToString(n)
    case JStr(s) => s
    case JArr(items) => JoinComma(seq(|items|, i requires 0 <= i < |items| => ElementText(items[i])))
    case JObj(_) => "[object Object]"
  }

  function JoinComma(parts: seq<string>): string
  {
    if parts == [] then ""
    else if |parts| == 1 then parts[0]
    else parts[0] + "," + JoinComma(parts[1..])
  }

  /** JavaScript truthiness. */
  predicate Truthy(j: Json)
  {
    match j
    case JNull => false
    case JBool(b) => b
    case JNum(n) => n != 0
    case JStr(s) => s != ""
    case _ => true
  }

  /** `getValue` (lines 5-13). */
  function GetValue(j: Json): (r: Option<string>)
    ensures j.JStr? ==> r == Some(j.s)
    ensures j.JNum? ==> r == Some(IntToString(j.n))
    ensures j.JNull? || j.JBool? || j.JArr? ==> r.None?
    ensures j.JObj? && "value" !in j.fields ==> r.None?
    ensures j.JObj? && "value" in j.fields ==>
      (r.None? <==> j.fields["value"] == JNull || ToText(j.fields["value"]) == "")
    ensures j.JObj? && r.Some? ==> r.value != "" && r.value == ToText(j.fields["value"])
  {
    match j
    case JStr(s) => Some(s)
    case JNum(n) => Some(IntToString(n))
    case JObj(fields) =>
      if "value" in fields then
        var v := fields["value"];
        if v.JNull? then None
        else
          var t := ToText(v);
          if t == "" then None else Some(t)
      else None
    case _ => None
  }

  const UsageLimitFeatures: seq<string> := ["monthly_conversations", "chatbots", "document_uploads", "websites", "storage_gb", "team_members"]

  /** `isUsageLimit` (lines 16-26). */
  function IsUsageLimit(name: string): (r: bool)
    ensures r <==> name == "monthly_conversations" || name == "chatbots" || name == "document_uploads" ||
                   name == "websites" || name == "storage_gb" || name == "team_members"
  {
    name in UsageLimitFeatures
  }

  /** The countable unit of a feature, for the four features with singular and plural forms. */
  function CountUnit(name: string): Option<string>
  {
    if name == "chatbots" then Some("chatbot")
    else if name == "document_uploads" then Some("document upload")
    else if name == "websites" then Some("website")
    else if name == "team_members" then Some("team member")
    else None
  }

  /** `val === 'unlimited' ? 'Unlimited <unit>s' : `${val} <unit>${val === '1' ? '' : 's'}``. */
  function Counted(val: string, unit: string): (r: string)
  {
    if val == "unlimited" then "Unlimited " + unit + "s"
    else val + " " + unit + (if val == "1" then "" else "s")
  }

  /** `formatUsageLimit` (lines 29-49). */
  function FormatUsageLimit(name: string, value: Json): (r: string)
    ensures GetValue(value).None? || GetValue(value) == Some("") ==> r == ""
    ensures GetValue(value).Some? && GetValue(value).value != "" ==>
      var v := GetValue(value).value;
      && r != ""
      && (name == "monthly_conversations" ==> r == v + " AI conversations/month")
      && (name == "storage_gb" ==> r == v + " GB storage")
      && (CountUnit(name).Some? ==> r == Counted(v, CountUnit(name).value))
      && (name != "monthly_conversations" && name != "storage_gb" && CountUnit(name).None? ==> r == v)
  {
    match GetValue(value)
    case None => ""
    case Some(val) =>
      if val == "" then ""
      else if name == "monthly_conversations" then val + " AI conversations/month"
      else if name == "storage_gb" then val + " GB storage"
      else match CountUnit(name)
        case Some(unit) => Counted(val, unit)
        case None => val
  }

  /**
   * The counted forms: "unlimited" names the unlimited plural, "1" gives the
   * singular without a trailing "s", any other amount the plural with one.
   */
  lemma CountedForms(val: string, unit: string)
    requires unit != [] && unit[|unit| - 1] != 's'
    ensures var r := Counted(val, unit);
      && (val == "unlimited" ==> r == "Unlimited " + unit + "s")
      && (val != "unlimited" ==> r[..|val|] == val && r[|val|..|val| + 1 + |unit|] == " " + unit)
      && (val != "unlimited" ==> (r[|r| - 1] == 's' <==> val != "1"))
      && (val != "unlimited" ==> |r| == |val| + 1 + |unit| + (if val == "1" then 0 else 1))
  {
    var r := Counted(val, unit);
    if val != "unlimited" {
      var suffix := if val == "1" then "" else "s";
      assert r == val + (" " + unit) + suffix;
    }
  }

  /** Only a missing or empty value formats to the empty string. */
  lemma FormatUsageLimitEmpty(name: string, value: Json)
    ensures FormatUsageLimit(name, value) == "" <==> GetValue(value).None? || GetValue(value) == Some("")
  {
    match GetValue(value)
    case None =>
    case Some(val) =>
      if val != "" && name != "monthly_conversations" && name != "storage_gb" {
        match CountUnit(name)
        case Some(unit) => assert |Counted(val, unit)| > 0;
        case None =>
      }
  }

  /** `capitalizePlanName` (lines 52-54) keeps the length, is idempotent and keeps the lower-case form. */
  lemma CapitalizePlanName(s: string)
    ensures |Capitalize(s)| == |s|
    ensures Capitalize(Capitalize(s)) == Capitalize(s)
    ensures Lower(Capitalize(s)) == Lower(s)
    ensures s != [] ==> Capitalize(s)[0] == ToUpperChar(s[0])
    ensures forall i :: 1 <= i < |s| ==> Capitalize(s)[i] == ToLowerChar(s[i])
  {
    CapitalizeFacts(s);
    if s != [] {
      var c := Capitalize(s);
      assert c[..1] == Upper(s[..1]);
      forall i | 1 <= i < |s| ensures c[i] == ToLowerChar(s[i]) {
        assert c[i] == Lower(s[1..])[i - 1];
      }
    }
  }

  // ---------------------------------------------------------------------
  // Plan order

  const PlanOrder: seq<string> := ["starter", "growth", "pro"]

  /** `plans.find(p => p.plan_name.toLowerCase() === slot)`. */
  function FindPlan(plans: seq<PlanConfig>, slot: string): (r: Option<PlanConfig>)
    ensures r.None? <==> forall k :: 0 <= k < |plans| ==> Lower(plans[k].planName) != slot
    ensures r.Some? ==> exists k :: 0 <= k < |plans| && plans[k] == r.value && Lower(plans[k].planName) == slot &&
                                     forall m :: 0 <= m < k ==> Lower(plans[m].planName) != slot
  {
    if plans == [] then None
    else if Lower(plans[0].planName) == slot then
      assert plans[0] == plans[0];
      Some(plans[0])
    else
      var r := FindPlan(plans[1..], slot);
      assert forall k :: 1 <= k < |plans| ==> plans[k] == plans[1..][k - 1];
      if r.Some? then
        var k :| 0 <= k < |plans[1..]| && plans[1..][k] == r.value && Lower(plans[1..][k].planName) == slot &&
                 forall m :: 0 <= m < k ==> Lower(plans[1..][m].planName) != slot;
        assert plans[k + 1] == r.value;
        r
      else r
  }

  /** The `filter(Boolean)` of lines 84-86: the present results, in order. */
  function Present(found: seq<Option<PlanConfig>>): (r: seq<PlanConfig>)
    ensures |r| <= |found|
  {
    if found == [] then []
    else Listed(found[0]) + Present(found[1..])
  }

  function Listed(o: Option<PlanConfig>): (r: seq<PlanConfig>)
    ensures |r| <= 1
  {
    if o.Some? then [o.value] else []
  }

  /** `sortedPlans` (lines 81-86). */
  function SortedPlans(plans: seq<PlanConfig>): (r: seq<PlanConfig>)
    ensures |r| <= 3
  {
    Present([FindPlan(plans, "starter"), FindPlan(plans, "growth"), FindPlan(plans, "pro")])
  }

  /**
   * `sortedPlans` holds, in the order starter, growth, pro, the first plan
   * of each slot that some plan's lower-cased name fills.
   */
  lemma SortedPlansSlots(plans: seq<PlanConfig>)
    ensures SortedPlans(plans) == Listed(FindPlan(plans, "starter")) + Listed(FindPlan(plans, "growth")) + Listed(FindPlan(plans, "pro"))
  {
    var s, g, p := FindPlan(plans, "starter"), FindPlan(plans, "growth"), FindPlan(plans, "pro");
    var found := [s, g, p];
    assert found[1..] == [g, p];
    assert [g, p][1..] == [p];
    assert [p][1..] == [];
    assert Present([p]) == Listed(p);
    assert Present([g, p]) == Listed(g) + Listed(p);
  }

  /** A found plan fills its slot and is the first to do so. */
  lemma ListedFills(plans: seq<PlanConfig>, slot: string)
    ensures forall x :: x in Listed(FindPlan(plans, slot)) ==> Lower(x.planName) == slot && FindPlan(plans, slot) == Some(x)
  {
  }

  /** The plans of `sortedPlans` come in slot order, and each is the first plan of its slot. */
  lemma SortedPlansOrdered(plans: seq<PlanConfig>)
    ensures var r := SortedPlans(plans);
      && (forall i :: 0 <= i < |r| ==> Lower(r[i].planName) in PlanOrder)
      && (forall i, j :: 0 <= i < j < |r| ==> IndexOf(PlanOrder, Lower(r[i].planName)) < IndexOf(PlanOrder, Lower(r[j].planName)))
      && (forall i :: 0 <= i < |r| ==> FindPlan(plans, Lower(r[i].planName)) == Some(r[i]))
  {
    var r := SortedPlans(plans);
    SortedPlansSlots(plans);
    forall i | 0 <= i < |r|
      ensures IndexOf(PlanOrder, Lower(r[i].planName)) == SlotRank(plans, i)
      ensures FindPlan(plans, Lower(r[i].planName)) == Some(r[i])
      ensures Lower(r[i].planName) in PlanOrder
    {
      SortedPlanAt(plans, i);
      assert IndexOf(PlanOrder, Lower(r[i].planName)) != -1;
    }
  }

  /** The slot of the `i`-th plan of `sortedPlans`: 0, 1 or 2 after the slots left empty. */
  function SlotRank(plans: seq<PlanConfig>, i: nat): nat
  {
    var ls, lg := Listed(FindPlan(plans, "starter")), Listed(FindPlan(plans, "growth"));
    if i < |ls| then 0 else if i < |ls| + |lg| then 1 else 2
  }

  lemma SortedPlanAt(plans: seq<PlanConfig>, i: nat)
    requires i < |SortedPlans(plans)|
    ensures IndexOf(PlanOrder, Lower(SortedPlans(plans)[i].planName)) == SlotRank(plans, i)
    ensures FindPlan(plans, Lower(SortedPlans(plans)[i].planName)) == Some(SortedPlans(plans)[i])
  {
    var ls, lg, lp := Listed(FindPlan(plans, "starter")), Listed(FindPlan(plans, "growth")), Listed(FindPlan(plans, "pro"));
    SortedPlansSlots(plans);
    OrderRanks();
    var r := ls + lg + lp;
    if i < |ls| {
      ListedFills(plans, "starter");
      assert r[i] in ls;
    } else if i < |ls| + |lg| {
      ListedFills(plans, "growth");
      assert r[i] == lg[i - |ls|];
      assert r[i] in lg;
    } else {
      ListedFills(plans, "pro");
      assert r[i] == lp[i - |ls| - |lg|];
      assert r[i] in lp;
    }
  }

  lemma OrderRanks()
    ensures IndexOf(PlanOrder, "starter") == 0
    ensures IndexOf(PlanOrder, "growth") == 1
    ensures IndexOf(PlanOrder, "pro") == 2
  {
  }

  // ---------------------------------------------------------------------
  // Benefits and limitations of one plan

  const ExcludedFeatures: seq<string> := ["storage_gb", "team_members"]

  /** What one feature value adds to its plan's card. */
  datatype Item = ToBenefit(text: string) | ToLimitation(text: string) | Dropped

  /** The body of the `forEach` of lines 93-116. */
  function ItemOf(fv: FeatureValue): (r: Item)
    ensures r.ToLimitation? ==> r.text == fv.feature.displayName
  {
    var feature := fv.feature;
    if feature.name in ExcludedFeatures then Dropped
    else if !fv.isVisible then Dropped
    else if feature.inputType == "toggle" then
      if Truthy(fv.value) then ToBenefit(feature.displayName) else ToLimitation(feature.displayName)
    else if IsUsageLimit(feature.name) then
      var formatted := FormatUsageLimit(feature.name, fv.value);
      if formatted != "" then ToBenefit(formatted) else Dropped
    else Dropped
  }

  /**
   * Invisible values and the features `storage_gb` and `team_members` add
   * nothing; a visible toggle adds its display name as a benefit when its
   * value is truthy and as a limitation otherwise; a visible usage feature
   * adds its non-empty formatted amount as a benefit; anything else adds nothing.
   */
  lemma ItemCases(fv: FeatureValue)
    ensures fv.feature.name == "storage_gb" || fv.feature.name == "team_members" || !fv.isVisible ==> ItemOf(fv) == Dropped
    ensures ItemOf(fv).ToBenefit? <==>
      fv.feature.name != "storage_gb" && fv.feature.name != "team_members" && fv.isVisible &&
      ((fv.feature.inputType == "toggle" && Truthy(fv.value)) ||
       (fv.feature.inputType != "toggle" && IsUsageLimit(fv.feature.name) && FormatUsageLimit(fv.feature.name, fv.value) != ""))
    ensures ItemOf(fv).ToBenefit? && fv.feature.inputType == "toggle" ==> ItemOf(fv).text == fv.feature.displayName
    ensures ItemOf(fv).ToBenefit? && fv.feature.inputType != "toggle" ==> ItemOf(fv).text == FormatUsageLimit(fv.feature.name, fv.value)
    ensures ItemOf(fv).ToLimitation? <==>
      fv.feature.name != "storage_gb" && fv.feature.name != "team_members" && fv.isVisible &&
      fv.feature.inputType == "toggle" && !Truthy(fv.value)
  {
  }

  /** The `benefits` array after the loop. */
  function CollectedBenefits(fvs: seq<FeatureValue>): seq<string>
  {
    if fvs == [] then []
    else
      var init := CollectedBenefits(fvs[..|fvs| - 1]);
      match ItemOf(fvs[|fvs| - 1])
      case ToBenefit(t) => init + [t]
      case _ => init
  }

  /** The `limitations` array after the loop. */
  function CollectedLimitations(fvs: seq<FeatureValue>): seq<string>
  {
    if fvs == [] then []
    else
      var init := CollectedLimitations(fvs[..|fvs| - 1]);
      match ItemOf(fvs[|fvs| - 1])
      case ToLimitation(t) => init + [t]
      case _ => init
  }

  lemma CollectedSnoc(fvs: seq<FeatureValue>, fv: FeatureValue)
    ensures CollectedBenefits(fvs + [fv]) == if ItemOf(fv).ToBenefit? then CollectedBenefits(fvs) + [ItemOf(fv).text] else CollectedBenefits(fvs)
    ensures CollectedLimitations(fvs + [fv]) == if ItemOf(fv).ToLimitation? then CollectedLimitations(fvs) + [ItemOf(fv).text] else CollectedLimitations(fvs)
  {
    assert (fvs + [fv])[..|fvs|] == fvs;
  }

  /** The collected lists hold exactly the texts the feature values add. */
  lemma {:induction false} CollectedMembers(fvs: seq<FeatureValue>)
    ensures forall t :: t in CollectedBenefits(fvs) <==> exists fv :: fv in fvs && ItemOf(fv) == ToBenefit(t)
    ensures forall t :: t in CollectedLimitations(fvs) <==> exists fv :: fv in fvs && ItemOf(fv) == ToLimitation(t)
  {
    if fvs != [] {
      var init := fvs[..|fvs| - 1];
      var last := fvs[|fvs| - 1];
      CollectedMembers(init);
      assert fvs == init + [last];
      CollectedSnoc(init, last);
      forall t
        ensures t in CollectedBenefits(fvs) <==> exists fv :: fv in fvs && ItemOf(fv) == ToBenefit(t)
      {
        if exists fv :: fv in fvs && ItemOf(fv) == ToBenefit(t) {
          var fv :| fv in fvs && ItemOf(fv) == ToBenefit(t);
          if fv != last {
            assert fv in init;
          }
        }
      }
      forall t
        ensures t in CollectedLimitations(fvs) <==> exists fv :: fv in fvs && ItemOf(fv) == ToLimitation(t)
      {
        if exists fv :: fv in fvs && ItemOf(fv) == ToLimitation(t) {
          var fv :| fv in fvs && ItemOf(fv) == ToLimitation(t);
          if fv != last {
            assert fv in init;
          }
        }
      }
    }
  }

  /** `filteredFeatures.find(f => f.display_name === name)`. */
  function FindByDisplayName(features: seq<Feature>, name: string): (r: Option<Feature>)
    ensures r.None? <==> forall k :: 0 <= k < |features| ==> features[k].displayName != name
    ensures r.Some? ==> r.value in features && r.value.displayName == name
    ensures r.Some? ==> exists k :: 0 <= k < |features| && features[k] == r.value &&
                                     forall j :: 0 <= j < k ==> features[j].displayName != name
  {
    if features == [] then None
    else if features[0].displayName == name then
      assert features[0] == features[0];
      Some(features[0])
    else
      var r := FindByDisplayName(features[1..], name);
      assert forall k :: 1 <= k < |features| ==> features[k] == features[1..][k - 1];
      if r.Some? then
        var k :| 0 <= k < |features[1..]| && features[1..][k] == r.value &&
                 forall j :: 0 <= j < k ==> features[1..][j].displayName != name;
        assert features[k + 1] == r.value;
        r
      else r
  }

  /** The fallback of both comparators (lines 137-140 and 144-147): `sort_order` difference, or 0 when a lookup fails. */
  function SortOrderCompare(features: seq<Feature>, a: string, b: string): int
  {
    match (FindByDisplayName(features, a), FindByDisplayName(features, b))
    case (Some(fa), Some(fb)) => fa.sortOrder - fb.sortOrder
    case _ => 0
  }

  /** The benefit comparator of lines 119-141. */
  function BenefitCompare(features: seq<Feature>, a: string, b: string): int
  {
    var aConv := Contains(a, "AI conversations/month");
    var bConv := Contains(b, "AI conversations/month");
    var aDocs := Contains(a, "document upload");
    var bDocs := Contains(b, "document upload");
    var aBots := Contains(a, "chatbot") && !aConv && !aDocs;
    var bBots := Contains(b, "chatbot") && !bConv && !bDocs;
    if aConv && !bConv then -1
    else if !aConv && bConv then 1
    else if aDocs && !bDocs then -1
    else if !aDocs && bDocs then 1
    else if aBots && !bBots then -1
    else if !aBots && bBots then 1
    else SortOrderCompare(features, a, b)
  }

  function BenefitCmp(features: seq<Feature>): (string, string) -> int
  {
    (a: string, b: string) => BenefitCompare(features, a, b)
  }

  function LimitationCmp(features: seq<Feature>): (string, string) -> int
  {
    (a: string, b: string) => SortOrderCompare(features, a, b)
  }

  /** `features.filter(f => !excludedFeatures.includes(f.name))` (line 78). */
  function FilteredFeatures(features: seq<Feature>): (r: seq<Feature>)
    ensures forall f :: f in r <==> f in features && f.name !in ExcludedFeatures
  {
    if features == [] then []
    else (if features[0].name in ExcludedFeatures then [] else [features[0]]) + FilteredFeatures(features[1..])
  }

  /** The record `getPlansFromDatabase` builds for one plan: the specification of `BuildPlan`. */
  function PlanRecord(plan: PlanConfig, filtered: seq<Feature>): SubscriptionPlan
  {
    SubscriptionPlan(
      Capitalize(plan.planName),
      plan.description.GetOr(""),
      Sorting.Sort(CollectedBenefits(plan.featureValues), BenefitCmp(filtered)),
      Sorting.Sort(CollectedLimitations(plan.featureValues), LimitationCmp(filtered)),
      plan.monthlyPrice.GetOr(0.0))
  }

  /** The `forEach` of lines 93-116. */
  method CollectItems(fvs: seq<FeatureValue>) returns (benefits: seq<string>, limitations: seq<string>)
    ensures benefits == CollectedBenefits(fvs)
    ensures limitations == CollectedLimitations(fvs)
  {
    benefits, limitations := [], [];
    var i := 0;
    while i < |fvs|
      invariant 0 <= i <= |fvs|
      invariant benefits == CollectedBenefits(fvs[..i])
      invariant limitations == CollectedLimitations(fvs[..i])
    {
      var featureValue := fvs[i];
      assert fvs[..i + 1] == fvs[..i] + [featureValue];
      CollectedSnoc(fvs[..i], featureValue);
      var feature := featureValue.feature;
      if feature.name in ExcludedFeatures {
      } else if featureValue.isVisible {
        if feature.inputType == "toggle" {
          if Truthy(featureValue.value) {
            benefits := benefits + [feature.displayName];
          } else {
            limitations := limitations + [feature.displayName];
          }
        } else if IsUsageLimit(feature.name) {
          var formattedValue := FormatUsageLimit(feature.name, featureValue.value);
          if formattedValue != "" {
            benefits := benefits + [formattedValue];
          }
        }
      }
      i := i + 1;
    }
    assert fvs[..i] == fvs;
  }

  /** The callback of `sortedPlans.map` (lines 88-169). */
  method BuildPlan(plan: PlanConfig, filtered: seq<Feature>) returns (r: SubscriptionPlan)
    ensures r == PlanRecord(plan, filtered)
  {
    var benefits, limitations := CollectItems(plan.featureValues);
    benefits := Sorting.Sort(benefits, BenefitCmp(filtered));
    limitations := Sorting.Sort(limitations, LimitationCmp(filtered));
    var monthlyPrice := plan.monthlyPrice.GetOr(0.0);
    r := SubscriptionPlan(Capitalize(plan.planName), plan.description.GetOr(""), benefits, limitations, monthlyPrice);
  }

  /** `sortedPlans.map(...)` over the specification. */
  function RecordsOf(sorted: seq<PlanConfig>, filtered: seq<Feature>): (r: seq<SubscriptionPlan>)
    ensures |r| == |sorted|
    ensures forall i :: 0 <= i < |r| ==> r[i] == PlanRecord(sorted[i], filtered)
  {
    seq(|sorted|, i requires 0 <= i < |sorted| => PlanRecord(sorted[i], filtered))
  }

  lemma RecordsOfSnoc(sorted: seq<PlanConfig>, filtered: seq<Feature>, i: nat)
    requires i < |sorted|
    ensures RecordsOf(sorted[..i + 1], filtered) == RecordsOf(sorted[..i], filtered) + [PlanRecord(sorted[i], filtered)]
  {
    assert sorted[..i + 1][..i] == sorted[..i];
  }

  /** `getPlansFromDatabase` without the database: one record per entry of `sortedPlans`. */
  function PlanRecords(plans: seq<PlanConfig>, features: seq<Feature>): seq<SubscriptionPlan>
  {
    RecordsOf(SortedPlans(plans), FilteredFeatures(features))
  }

  /** Lines 76-169. */
  method GetPlans(plans: seq<PlanConfig>, features: seq<Feature>) returns (out: seq<SubscriptionPlan>)
    ensures out == PlanRecords(plans, features)
  {
    var filtered := FilteredFeatures(features);
    var sorted := SortedPlans(plans);
    out := [];
    var i := 0;
    while i < |sorted|
      invariant 0 <= i <= |sorted|
      invariant out == RecordsOf(sorted[..i], filtered)
    {
      var r := BuildPlan(sorted[i], filtered);
      RecordsOfSnoc(sorted, filtered, i);
      out := out + [r];
      i := i + 1;
    }
    assert sorted[..i] == sorted;
  }

  /**
   * The card's benefits are a permutation of the collected ones, and a text
   * is a benefit exactly when some feature value of the plan adds it
   * (likewise for limitations).
   */
  lemma PlanRecordContents(plan: PlanConfig, filtered: seq<Feature>)
    ensures var r := PlanRecord(plan, filtered);
      && multiset(r.benefits) == multiset(CollectedBenefits(plan.featureValues))
      && multiset(r.limitations) == multiset(CollectedLimitations(plan.featureValues))
      && (forall t :: t in r.benefits <==> exists fv :: fv in plan.featureValues && ItemOf(fv) == ToBenefit(t))
      && (forall t :: t in r.limitations <==> exists fv :: fv in plan.featureValues && ItemOf(fv) == ToLimitation(t))
  {
    var r := PlanRecord(plan, filtered);
    CollectedMembers(plan.featureValues);
    forall t ensures t in r.benefits <==> t in CollectedBenefits(plan.featureValues) {
      assert t in r.benefits <==> t in multiset(r.benefits);
    }
    forall t ensures t in r.limitations <==> t in CollectedLimitations(plan.featureValues) {
      assert t in r.limitations <==> t in multiset(r.limitations);
    }
  }

  /** Lines 155-163: title, description and monthly price of the card. */
  lemma PlanRecordFields(plan: PlanConfig, filtered: seq<Feature>)
    ensures var r := PlanRecord(plan, filtered);
      && Lower(r.title) == Lower(plan.planName)
      && |r.title| == |plan.planName|
      && (plan.description.None? ==> r.description == "")
      && (plan.description.Some? ==> r.description == plan.description.value)
      && (plan.monthlyPrice.None? ==> r.monthly == 0.0)
      && (plan.monthlyPrice.Some? ==> r.monthly == plan.monthlyPrice.value)
  {
    CapitalizeFacts(plan.planName);
  }
}
