/**
 * The compare-table builder of lib/plans.ts (`getComparePlansFromDatabase`,
 * lines 176-300): one row per feature with one cell per plan, classified
 * from the plan cards, followed for toggle features by a tier-by-tier
 * cascade that makes a feature included by a lower tier included by every
 * higher tier. The plan cards are the result of `getPlansFromDatabase` and
 * the features are the fetched active features in `sort_order`.
 */
module CompareBuilder {
  import opened Types
  import opened Ascii
  import Sorting
  import opened PlansLib

  const NumericFeatures: seq<string> := ["monthly_conversations", "chatbots", "document_uploads"]

  /** Line 198: a lower index is a lower tier. */
  const PlanHierarchy: seq<string> := ["starter", "growth", "pro"]

  // ---------------------------------------------------------------------
  // Feature order

  /** The comparator of lines 219-232. */
  function CompareFeatureCompare(a: Feature, b: Feature): int
  {
    var aIsNumeric := a.name in NumericFeatures;
    var bIsNumeric := b.name in NumericFeatures;
    if aIsNumeric && !bIsNumeric then -1
    else if !aIsNumeric && bIsNumeric then 1
    else if aIsNumeric && bIsNumeric then IndexOf(NumericFeatures, a.name) - IndexOf(NumericFeatures, b.name)
    else a.sortOrder - b.sortOrder
  }

  function CompareFeatureCmp(): (Feature, Feature) -> int
  {
    (a: Feature, b: Feature) => CompareFeatureCompare(a, b)
  }

  /** Where `a` may precede `b`: numeric features first, in their fixed order, then the rest by `sort_order`. */
  lemma CompareFeatureLe(a: Feature, b: Feature)
    ensures CompareFeatureCompare(a, b) <= 0 <==>
      || (a.name in NumericFeatures && b.name !in NumericFeatures)
      || (a.name in NumericFeatures && b.name in NumericFeatures && IndexOf(NumericFeatures, a.name) <= IndexOf(NumericFeatures, b.name))
      || (a.name !in NumericFeatures && b.name !in NumericFeatures && a.sortOrder <= b.sortOrder)
  {
  }

  lemma CompareFeatureConsistent()
    ensures Sorting.Consistent(CompareFeatureCmp())
  {
    var cmp := CompareFeatureCmp();
    forall a: Feature, b: Feature, c: Feature
      ensures cmp(a, b) > 0 ==> cmp(b, a) < 0
      ensures cmp(a, b) <= 0 && cmp(b, c) <= 0 ==> cmp(a, c) <= 0
    {
      CompareFeatureLe(a, b);
      CompareFeatureLe(b, c);
      CompareFeatureLe(a, c);
      CompareFeatureLe(b, a);
    }
  }

  /** Lines 186 and 192-232: the table's features in row order, or none. */
  function CompareFeatures(features: seq<Feature>): (r: seq<Feature>)
  {
    Sorting.Sort(FilteredFeatures(features), CompareFeatureCmp())
  }

  /** `storage_gb` and `team_members` have no row; every other feature has one, and nothing else does. */
  lemma CompareFeaturesMembers(features: seq<Feature>)
    ensures var r := CompareFeatures(features);
      && multiset(r) == multiset(FilteredFeatures(features))
      && forall f :: f in r <==> f in features && f.name !in ExcludedFeatures
  {
    var r := CompareFeatures(features);
    forall f ensures f in r <==> f in FilteredFeatures(features) {
      assert f in r <==> f in multiset(r);
    }
  }

  /**
   * The rows come in this order: `monthly_conversations`, `chatbots`,
   * `document_uploads`, then every other feature by ascending `sort_order`.
   */
  lemma CompareFeaturesOrdered(features: seq<Feature>, i: nat, j: nat)
    requires i < j < |CompareFeatures(features)|
    ensures var r := CompareFeatures(features);
      && (r[j].name in NumericFeatures ==> r[i].name in NumericFeatures)
      && (r[i].name in NumericFeatures && r[j].name in NumericFeatures ==>
            IndexOf(NumericFeatures, r[i].name) <= IndexOf(NumericFeatures, r[j].name))
      && (r[i].name !in NumericFeatures && r[j].name !in NumericFeatures ==> r[i].sortOrder <= r[j].sortOrder)
  {
    var r := CompareFeatures(features);
    CompareFeatureConsistent();
    Sorting.SortSorted(FilteredFeatures(features), CompareFeatureCmp());
    assert CompareFeatureCmp()(r[i], r[j]) <= 0;
    CompareFeatureLe(r[i], r[j]);
  }

  // ---------------------------------------------------------------------
  // Direct cells

  /** Line 239: `plan.title.toLowerCase().replace(/\s+/g, '-')`. */
  function PlanKey(plan: SubscriptionPlan): string
  {
    Slug(Lower(plan.title))
  }

  /** `b.includes(name) || name.includes(b)`. */
  predicate Overlaps(b: string, name: string)
  {
    Contains(b, name) || Contains(name, b)
  }

  /** `items.some(b => b.includes(name) || name.includes(b))`. */
  function AnyOverlaps(items: seq<string>, name: string): (r: bool)
    ensures r <==> exists k :: 0 <= k < |items| && Overlaps(items[k], name)
  {
    if items == [] then false
    else if Overlaps(items[0], name) then true
    else
      assert forall k :: 1 <= k < |items| ==> items[k] == items[1..][k - 1];
      AnyOverlaps(items[1..], name)
  }

  /** The substring that marks a feature's usage amount among the benefits (lines 252-261). */
  function UsagePattern(name: string): Option<string>
  {
    if name == "monthly_conversations" then Some("AI conversations/month")
    else if name == "chatbots" then Some("chatbot")
    else if name == "document_uploads" then Some("document upload")
    else if name == "websites" then Some("website")
    else None
  }

  /** `plan.benefits.find(...)` of lines 251-262: the first benefit holding the usage pattern. */
  function FindUsage(benefits: seq<string>, name: string): (r: Option<string>)
    ensures UsagePattern(name).None? ==> r.None?
    ensures r.None? <==> UsagePattern(name).None? || forall k :: 0 <= k < |benefits| ==> !Contains(benefits[k], UsagePattern(name).value)
    ensures r.Some? ==> exists k :: 0 <= k < |benefits| && benefits[k] == r.value && Contains(r.value, UsagePattern(name).value) &&
                                     forall m :: 0 <= m < k ==> !Contains(benefits[m], UsagePattern(name).value)
  {
    match UsagePattern(name)
    case None => None
    case Some(p) =>
      if benefits == [] then None
      else if Contains(benefits[0], p) then
        assert benefits[0] == benefits[0];
        Some(benefits[0])
      else
        var r := FindUsage(benefits[1..], name);
        assert forall k :: 1 <= k < |benefits| ==> benefits[k] == benefits[1..][k - 1];
        if r.Some? then
          var k :| 0 <= k < |benefits[1..]| && benefits[1..][k] == r.value && Contains(r.value, p) &&
                   forall m :: 0 <= m < k ==> !Contains(benefits[1..][m], p);
          assert benefits[k + 1] == r.value;
          r
        else r
  }

  /** Lines 242-269: the cell before the cascade. */
  function DirectCell(plan: SubscriptionPlan, feature: Feature): (c: Cell)
    ensures c == Flag(true) <==> exists k :: 0 <= k < |plan.benefits| && Overlaps(plan.benefits[k], feature.displayName)
    ensures c == Flag(false) <==>
      (forall k :: 0 <= k < |plan.benefits| ==> !Overlaps(plan.benefits[k], feature.displayName)) &&
      exists k :: 0 <= k < |plan.limitations| && Overlaps(plan.limitations[k], feature.displayName)
    ensures c.Text? ==> FindUsage(plan.benefits, feature.name) == Some(c.s) && c.s in plan.benefits
    ensures c == Empty ==> FindUsage(plan.benefits, feature.name).None? || FindUsage(plan.benefits, feature.name) == Some("")
  {
    if AnyOverlaps(plan.benefits, feature.displayName) then Flag(true)
    else if AnyOverlaps(plan.limitations, feature.displayName) then Flag(false)
    else
      match FindUsage(plan.benefits, feature.name)
      case Some(b) => if b != "" then Text(b) else Empty
      case None => Empty
  }

  /** The row after the `plans.forEach` of lines 238-270: later plans overwrite earlier ones with the same key. */
  function DirectRow(feature: Feature, plans: seq<SubscriptionPlan>): Fields
  {
    if plans == [] then map["feature" := Text(feature.displayName)]
    else
      var last := plans[|plans| - 1];
      DirectRow(feature, plans[..|plans| - 1])[PlanKey(last) := DirectCell(last, feature)]
  }

  /** The row holds `feature` and exactly one key per plan key. */
  lemma {:induction false} DirectRowKeys(feature: Feature, plans: seq<SubscriptionPlan>)
    ensures forall key :: key in DirectRow(feature, plans) <==> key == "feature" || exists p :: p in plans && PlanKey(p) == key
  {
    if plans != [] {
      var init := plans[..|plans| - 1];
      DirectRowKeys(feature, init);
      assert plans == init + [plans[|plans| - 1]];
    }
  }

  /** A plan key holds the cell of the last plan with that key. */
  lemma {:induction false} DirectRowLast(feature: Feature, plans: seq<SubscriptionPlan>, k: nat)
    requires k < |plans|
    requires forall m :: k < m < |plans| ==> PlanKey(plans[m]) != PlanKey(plans[k])
    ensures PlanKey(plans[k]) in DirectRow(feature, plans)
    ensures DirectRow(feature, plans)[PlanKey(plans[k])] == DirectCell(plans[k], feature)
  {
    var init := plans[..|plans| - 1];
    if k < |plans| - 1 {
      assert plans[k] == init[k];
      DirectRowLast(feature, init, k);
    }
  }

  /** `feature` holds the display name unless a plan key overwrote it. */
  lemma {:induction false} DirectRowFeature(feature: Feature, plans: seq<SubscriptionPlan>)
    requires forall k :: 0 <= k < |plans| ==> PlanKey(plans[k]) != "feature"
    ensures "feature" in DirectRow(feature, plans)
    ensures DirectRow(feature, plans)["feature"] == Text(feature.displayName)
  {
    if plans != [] {
      DirectRowFeature(feature, plans[..|plans| - 1]);
    }
  }

  /** The `plans.forEach` of lines 238-270. */
  method BuildDirectRow(feature: Feature, plans: seq<SubscriptionPlan>) returns (row: Fields)
    ensures row == DirectRow(feature, plans)
  {
    row := map["feature" := Text(feature.displayName)];
    var j := 0;
    while j < |plans|
      invariant 0 <= j <= |plans|
      invariant row == DirectRow(feature, plans[..j])
    {
      var plan := plans[j];
      assert plans[..j + 1][..j] == plans[..j];
      var planKey := PlanKey(plan);
      row := row[planKey := DirectCell(plan, feature)];
      j := j + 1;
    }
    assert plans[..j] == plans;
  }

  // ---------------------------------------------------------------------
  // Cascade

  /** `planHierarchy.indexOf(plan.title.toLowerCase())`. */
  function Tier(plan: SubscriptionPlan): (t: int)
    ensures -1 <= t < 3
    ensures t >= 0 ==> Lower(plan.title) == PlanHierarchy[t]
    ensures t == -1 <==> Lower(plan.title) !in PlanHierarchy
  {
    IndexOf(PlanHierarchy, Lower(plan.title))
  }

  /** Line 281: the first plan of tier `i`. */
  function FindTier(plans: seq<SubscriptionPlan>, i: int): (r: Option<SubscriptionPlan>)
  {
    if plans == [] then None
    else if Tier(plans[0]) == i then Some(plans[0])
    else FindTier(plans[1..], i)
  }

  /** `find` returns nothing exactly when no plan has the tier. */
  lemma {:induction false} FindTierNone(plans: seq<SubscriptionPlan>, i: int)
    ensures FindTier(plans, i).None? <==> forall k :: 0 <= k < |plans| ==> Tier(plans[k]) != i
  {
    if plans != [] && Tier(plans[0]) != i {
      FindTierNone(plans[1..], i);
      assert forall k :: 1 <= k < |plans| ==> plans[k] == plans[1..][k - 1];
    }
  }

  /** What `find` returns is the first plan of the tier. */
  lemma {:induction false} FindTierFirst(plans: seq<SubscriptionPlan>, i: int)
    requires FindTier(plans, i).Some?
    ensures exists k :: FirstOfTier(plans, i, k) && plans[k] == FindTier(plans, i).value
  {
    if Tier(plans[0]) != i {
      var rest := plans[1..];
      FindTierFirst(rest, i);
      var k :| FirstOfTier(rest, i, k) && rest[k] == FindTier(plans, i).value;
      forall m | 1 <= m < k + 1
        ensures Tier(plans[m]) != i
      {
        assert plans[m] == rest[m - 1];
      }
      assert plans[k + 1] == rest[k];
      assert FirstOfTier(plans, i, k + 1);
    } else {
      assert FirstOfTier(plans, i, 0);
    }
  }

  /** `plans[k]` is the first plan of tier `i`. */
  predicate FirstOfTier(plans: seq<SubscriptionPlan>, i: int, k: int)
  {
    0 <= k < |plans| && Tier(plans[k]) == i && forall m :: 0 <= m < k ==> Tier(plans[m]) != i
  }

  /** `row[key] === true`. */
  predicate IsTrue(row: Fields, key: string)
  {
    key in row && row[key] == Flag(true)
  }

  /** Some plan has tier `t`. */
  predicate HasTier(plans: seq<SubscriptionPlan>, t: int)
  {
    FindTier(plans, t).Some?
  }

  /** Some lower tier than `t` has a plan whose cell is `true` in `row`. */
  predicate Inherits(row: Fields, plans: seq<SubscriptionPlan>, t: int)
  {
    || (t > 0 && HasTier(plans, 0) && IsTrue(row, PlanHierarchy[0]))
    || (t > 1 && HasTier(plans, 1) && IsTrue(row, PlanHierarchy[1]))
  }

  /** The cascade sets tier `t`: it has a plan and inherits a `true`. */
  predicate Lifted(row: Fields, plans: seq<SubscriptionPlan>, t: int)
  {
    HasTier(plans, t) && Inherits(row, plans, t)
  }

  /** Sets tier `t`'s key when the tier is lifted. */
  function Lift(r: Fields, row: Fields, plans: seq<SubscriptionPlan>, t: nat): Fields
    requires t < 3
  {
    if Lifted(row, plans, t) then r[PlanHierarchy[t] := Flag(true)] else r
  }

  /** The row after the cascade of lines 273-291: `starter` never inherits. */
  function CascadeSpec(row: Fields, plans: seq<SubscriptionPlan>): Fields
  {
    Lift(Lift(row, row, plans, 1), row, plans, 2)
  }

  /** The tier names slug to themselves, so a tiered plan's key is its tier name. */
  lemma TierKey(plan: SubscriptionPlan)
    requires Tier(plan) >= 0
    ensures PlanKey(plan) == PlanHierarchy[Tier(plan)]
  {
    if Tier(plan) == 0 {
      StarterSlug();
    } else if Tier(plan) == 1 {
      GrowthSlug();
    } else {
      ProSlug();
    }
  }

  lemma StarterSlug()
    ensures Slug("starter") == "starter"
  {
    SlugOfPlain("starter");
  }

  lemma GrowthSlug()
    ensures Slug("growth") == "growth"
  {
    SlugOfPlain("growth");
  }

  lemma ProSlug()
    ensures Slug("pro") == "pro"
  {
    SlugOfPlain("pro");
  }

  /** The cascade's state: only lifted tiers were changed, and only to `true`. */
  ghost predicate Bounded(r: Fields, row: Fields, plans: seq<SubscriptionPlan>)
  {
    && (forall key :: key in row ==> key in r)
    && (forall key :: key in r ==>
          || (key in row && r[key] == row[key])
          || (r[key] == Flag(true) && ((key == PlanHierarchy[1] && Lifted(row, plans, 1)) || (key == PlanHierarchy[2] && Lifted(row, plans, 2)))))
  }

  /** While `Bounded`, a `true` the cascade reads at a lower tier with a plan lifts tier `t`. */
  lemma BoundedInherits(r: Fields, row: Fields, plans: seq<SubscriptionPlan>, i: nat, t: nat)
    requires Bounded(r, row, plans) && i < t < 3
    requires HasTier(plans, i) && HasTier(plans, t) && IsTrue(r, PlanHierarchy[i])
    ensures Lifted(row, plans, t)
  {
  }

  /** The outer loop's second invariant: every visited tiered plan that inherits is `true`. */
  ghost predicate Visited(r: Fields, row: Fields, plans: seq<SubscriptionPlan>, j: nat)
    requires j <= |plans|
  {
    forall k :: 0 <= k < j && Tier(plans[k]) >= 0 && Inherits(row, plans, Tier(plans[k])) ==>
      IsTrue(r, PlanHierarchy[Tier(plans[k])])
  }

  /** The `plans.forEach` of lines 275-291: visits every plan in order. */
  method Cascade(row: Fields, plans: seq<SubscriptionPlan>) returns (r: Fields)
    ensures r == CascadeSpec(row, plans)
  {
    r := row;
    var j := 0;
    while j < |plans|
      invariant 0 <= j <= |plans|
      invariant Bounded(r, row, plans)
      invariant Visited(r, row, plans, j)
    {
      r := CascadePlan(r, row, plans, j);
      j := j + 1;
    }
    CascadeEnd(r, row, plans);
  }

  /** The callback of lines 276-290 for `plans[j]`: the `for` loop over the lower tiers, with the `break`. */
  method CascadePlan(r0: Fields, ghost row: Fields, plans: seq<SubscriptionPlan>, j: nat) returns (r: Fields)
    requires j < |plans|
    requires Bounded(r0, row, plans) && Visited(r0, row, plans, j)
    ensures Bounded(r, row, plans) && Visited(r, row, plans, j + 1)
  {
    r := r0;
    var plan := plans[j];
    var planKey := PlanKey(plan);
    var planIndex := Tier(plan);
    var i := 0;
    while i < planIndex
      invariant 0 <= i <= (if planIndex < 0 then 0 else planIndex)
      invariant r == r0
      invariant forall i' :: 0 <= i' < i ==> !(HasTier(plans, i') && IsTrue(r, PlanHierarchy[i']))
    {
      var lowerPlan := FindTier(plans, i);
      if lowerPlan.Some? {
        var lowerPlanKey := PlanKey(lowerPlan.value);
        FindTierFirst(plans, i);
        TierKey(lowerPlan.value);
        if lowerPlanKey in r && r[lowerPlanKey] == Flag(true) {
          TierKey(plan);
          assert FindTier(plans, planIndex).Some? by {
            FindTierNone(plans, planIndex);
          }
          BoundedInherits(r, row, plans, i, planIndex);
          r := r[planKey := Flag(true)];
          CascadeRaise(r0, r, row, plans, j);
          return;
        }
      }
      i := i + 1;
    }
    CascadeKeep(r, row, plans, j);
  }

  /** A visited plan that found no `true` below it does not inherit. */
  lemma CascadeKeep(r: Fields, row: Fields, plans: seq<SubscriptionPlan>, j: nat)
    requires j < |plans|
    requires Bounded(r, row, plans) && Visited(r, row, plans, j)
    requires forall i' :: 0 <= i' < Tier(plans[j]) ==> !(HasTier(plans, i') && IsTrue(r, PlanHierarchy[i']))
    ensures Visited(r, row, plans, j + 1)
  {
  }

  /** Setting a lifted plan's key keeps the invariants and covers the plan. */
  lemma CascadeRaise(before: Fields, r: Fields, row: Fields, plans: seq<SubscriptionPlan>, j: nat)
    requires j < |plans| && Tier(plans[j]) >= 0
    requires Bounded(before, row, plans) && Visited(before, row, plans, j)
    requires Lifted(row, plans, Tier(plans[j]))
    requires r == before[PlanHierarchy[Tier(plans[j])] := Flag(true)]
    ensures Bounded(r, row, plans) && Visited(r, row, plans, j + 1)
  {
  }

  /** After every plan has been visited the row is the cascade's specification. */
  lemma CascadeEnd(r: Fields, row: Fields, plans: seq<SubscriptionPlan>)
    requires Bounded(r, row, plans) && Visited(r, row, plans, |plans|)
    ensures r == CascadeSpec(row, plans)
  {
    var spec := CascadeSpec(row, plans);
    forall t | 1 <= t < 3 && Lifted(row, plans, t)
      ensures IsTrue(r, PlanHierarchy[t])
    {
      FindTierFirst(plans, t);
      var k :| FirstOfTier(plans, t, k) && plans[k] == FindTier(plans, t).value;
    }
    assert forall key :: key in r <==> key in spec;
    assert forall key :: key in r ==> r[key] == spec[key];
  }

  /** The cascade never turns a `true` cell into anything else, and only ever writes `true`. */
  lemma CascadeMonotone(row: Fields, plans: seq<SubscriptionPlan>)
    ensures var r := CascadeSpec(row, plans);
      && (forall key :: key in row ==> key in r)
      && (forall key :: IsTrue(row, key) ==> IsTrue(r, key))
      && (forall key :: key in r ==> r[key] == Flag(true) || (key in row && r[key] == row[key]))
  {
  }

  /**
   * After the cascade a `true` cell at a tier with a plan makes every higher
   * tier with a plan `true` as well.
   */
  lemma CascadeUpward(row: Fields, plans: seq<SubscriptionPlan>, i: nat, t: nat)
    requires i < t < 3
    requires HasTier(plans, i) && HasTier(plans, t)
    requires IsTrue(CascadeSpec(row, plans), PlanHierarchy[i])
    ensures IsTrue(CascadeSpec(row, plans), PlanHierarchy[t])
  {
  }

  /** A tier's cell becomes `true` only if it was, or a lower tier with a plan was. */
  lemma CascadeOrigin(row: Fields, plans: seq<SubscriptionPlan>, t: nat)
    requires t < 3
    requires IsTrue(CascadeSpec(row, plans), PlanHierarchy[t])
    ensures IsTrue(row, PlanHierarchy[t]) || exists i :: 0 <= i < t && HasTier(plans, i) && IsTrue(row, PlanHierarchy[i])
  {
  }

  // ---------------------------------------------------------------------
  // Rows

  /** The row of one feature: the direct cells, cascaded for toggle features (lines 234-295). */
  function RowSpec(feature: Feature, plans: seq<SubscriptionPlan>): Fields
  {
    var direct := DirectRow(feature, plans);
    if feature.inputType == "toggle" then CascadeSpec(direct, plans) else direct
  }

  /** `compareTableFeatures.map(...)` over the specification. */
  function RowsOf(sorted: seq<Feature>, plans: seq<SubscriptionPlan>): (r: seq<Fields>)
    ensures |r| == |sorted|
    ensures forall i :: 0 <= i < |r| ==> r[i] == RowSpec(sorted[i], plans)
  {
    seq(|sorted|, i requires 0 <= i < |sorted| => RowSpec(sorted[i], plans))
  }

  lemma RowsOfSnoc(sorted: seq<Feature>, plans: seq<SubscriptionPlan>, i: nat)
    requires i < |sorted|
    ensures RowsOf(sorted[..i + 1], plans) == RowsOf(sorted[..i], plans) + [RowSpec(sorted[i], plans)]
  {
    assert sorted[..i + 1][..i] == sorted[..i];
  }

  /** The table `getComparePlansFromDatabase` returns: the specification of `BuildCompareRows`. */
  function CompareRows(plans: seq<SubscriptionPlan>, features: seq<Feature>): seq<Fields>
  {
    if FilteredFeatures(features) == [] then [] else RowsOf(CompareFeatures(features), plans)
  }

  /** Non-toggle rows are the direct cells; nothing cascades into them. */
  lemma NonToggleRowIsDirect(feature: Feature, plans: seq<SubscriptionPlan>)
    requires feature.inputType != "toggle"
    ensures RowSpec(feature, plans) == DirectRow(feature, plans)
  {
  }

  /** Lines 176-295, from the fetched features on. */
  method BuildCompareRows(plans: seq<SubscriptionPlan>, features: seq<Feature>) returns (rows: seq<Fields>)
    ensures rows == CompareRows(plans, features)
  {
    var filtered := FilteredFeatures(features);
    if |filtered| == 0 {
      return [];
    }
    var compareTableFeatures := Sorting.Sort(filtered, CompareFeatureCmp());
    rows := [];
    var f := 0;
    while f < |compareTableFeatures|
      invariant 0 <= f <= |compareTableFeatures|
      invariant rows == RowsOf(compareTableFeatures[..f], plans)
    {
      var feature := compareTableFeatures[f];
      var row := BuildDirectRow(feature, plans);
      if feature.inputType == "toggle" {
        row := Cascade(row, plans);
      }
      RowsOfSnoc(compareTableFeatures, plans, f);
      rows := rows + [row];
      f := f + 1;
    }
    assert compareTableFeatures[..f] == compareTableFeatures;
  }
}
