/**
 * The `ComparePlans` component of components/pricing/compare-plans.tsx:
 * it shows the static comparison table and, once `/api/plans` answers,
 * writes the fetched usage amounts into the three usage rows. The array
 * copy of line 28 is shallow, so the rows it updates are the very row
 * objects of the static table; they are modelled as `PlansRow` objects
 * whose `fields` the update reassigns.
 */
module ComparePlansView {
  import opened Types
  import opened Ascii
  import PlansApi
  import Subscriptions

  /** `limits.find(limit => limit.label.includes(keyword))`. */
  function FirstLimit(limits: seq<PlansApi.UsageLimit>, keyword: string): (r: Option<PlansApi.UsageLimit>)
    ensures r.None? <==> forall k :: 0 <= k < |limits| ==> !Contains(limits[k].caption, keyword)
    ensures r.Some? ==>
      exists k :: 0 <= k < |limits| && limits[k] == r.value && Contains(r.value.caption, keyword) &&
        forall m :: 0 <= m < k ==> !Contains(limits[m].caption, keyword)
  {
    if limits == [] then None
    else if Contains(limits[0].caption, keyword) then
      assert limits[0] == limits[0];
      Some(limits[0])
    else
      var r := FirstLimit(limits[1..], keyword);
      assert forall k :: 1 <= k < |limits| ==> limits[k] == limits[1..][k - 1];
      if r.Some? then
        var k :| 0 <= k < |limits[1..]| && limits[1..][k] == r.value && Contains(r.value.caption, keyword) &&
          forall m :: 0 <= m < k ==> !Contains(limits[1..][m].caption, keyword);
        assert limits[k + 1] == r.value;
        r
      else r
  }

  // ---------------------------------------------------------------------
  // The update, on row values

  /** Lines 34-41 for one plan: the plan's first matching amount, written only under a key the row already has. */
  function ApplyPlan(row: Fields, plan: PlansApi.ApiPlan, keyword: string): Fields
  {
    match FirstLimit(plan.usageLimits, keyword)
    case None => row
    case Some(limit) =>
      var planKey := Lower(plan.title);
      if planKey in row then row[planKey := Text(limit.value)] else row
  }

  /** A plan writes key `key` of a row. */
  predicate Writes(plan: PlansApi.ApiPlan, keyword: string, key: string)
  {
    Lower(plan.title) == key && FirstLimit(plan.usageLimits, keyword).Some?
  }

  /** The `plans.forEach` of lines 33-43 (and 49-59, 65-75): the row after every plan, in order. */
  function MergePlans(row: Fields, plans: seq<PlansApi.ApiPlan>, keyword: string): Fields
  {
    if plans == [] then row
    else ApplyPlan(MergePlans(row, plans[..|plans| - 1], keyword), plans[|plans| - 1], keyword)
  }

  /** The row keeps its keys: a write needs the key to be present. */
  lemma {:induction false} MergePlansKeys(row: Fields, plans: seq<PlansApi.ApiPlan>, keyword: string)
    ensures MergePlans(row, plans, keyword).Keys == row.Keys
  {
    if plans != [] {
      MergePlansKeys(row, plans[..|plans| - 1], keyword);
    }
  }

  /** A key no plan writes, `feature` included, keeps its value. */
  lemma {:induction false} MergePlansUntouched(row: Fields, plans: seq<PlansApi.ApiPlan>, keyword: string, key: string)
    requires key in row
    requires forall k :: 0 <= k < |plans| ==> !Writes(plans[k], keyword, key)
    ensures key in MergePlans(row, plans, keyword)
    ensures MergePlans(row, plans, keyword)[key] == row[key]
  {
    if plans != [] {
      MergePlansUntouched(row, plans[..|plans| - 1], keyword, key);
      MergePlansKeys(row, plans[..|plans| - 1], keyword);
    }
  }

  /** A key of the row holds the first matching amount of the last plan that writes it. */
  lemma {:induction false} MergePlansLast(row: Fields, plans: seq<PlansApi.ApiPlan>, keyword: string, key: string, m: nat)
    requires key in row && m < |plans|
    requires Writes(plans[m], keyword, key)
    requires forall k :: m < k < |plans| ==> !Writes(plans[k], keyword, key)
    ensures key in MergePlans(row, plans, keyword)
    ensures MergePlans(row, plans, keyword)[key] == Text(FirstLimit(plans[m].usageLimits, keyword).value.value)
  {
    var init := plans[..|plans| - 1];
    MergePlansKeys(row, init, keyword);
    if m < |plans| - 1 {
      assert plans[m] == init[m];
      MergePlansLast(row, init, keyword, key, m);
    }
  }

  /** `table.find(row => row.feature === feature)` as an index, `-1` when there is none. */
  function FindRow(table: seq<Fields>, feature: string): (i: int)
    ensures -1 <= i < |table|
    ensures i == -1 <==> forall k :: 0 <= k < |table| ==> !IsFeature(table[k], feature)
    ensures i >= 0 ==> IsFeature(table[i], feature) && forall k :: 0 <= k < i ==> !IsFeature(table[k], feature)
  {
    if table == [] then -1
    else if IsFeature(table[0], feature) then 0
    else
      var j := FindRow(table[1..], feature);
      assert forall k :: 1 <= k < |table| ==> table[k] == table[1..][k - 1];
      if j == -1 then -1 else j + 1
  }

  /** `row.feature === feature`. */
  predicate IsFeature(row: Fields, feature: string)
  {
    "feature" in row && row["feature"] == Text(feature)
  }

  /** One usage row updated (lines 31-44, 47-60 or 63-76). */
  function MergeRow(table: seq<Fields>, feature: string, keyword: string, plans: seq<PlansApi.ApiPlan>): seq<Fields>
  {
    var i := FindRow(table, feature);
    if i < 0 then table else table[i := MergePlans(table[i], plans, keyword)]
  }

  /** Lines 28-76: the three usage rows updated in turn. */
  function MergeTable(table: seq<Fields>, plans: seq<PlansApi.ApiPlan>): seq<Fields>
  {
    var conversations := MergeRow(table, "Monthly AI Conversations", "AI Conversations", plans);
    var chatbots := MergeRow(conversations, "Chatbots", "Chatbots", plans);
    MergeRow(chatbots, "Document Uploads", "Documents", plans)
  }

  /** A row value changed only if its label was one of the three usage rows'. */
  predicate UsageRowOrSame(before: Fields, after: Fields)
  {
    after == before || IsFeature(before, "Monthly AI Conversations") || IsFeature(before, "Chatbots") || IsFeature(before, "Document Uploads")
  }

  lemma MergeRowOnlyThat(table: seq<Fields>, feature: string, keyword: string, plans: seq<PlansApi.ApiPlan>)
    ensures var r := MergeRow(table, feature, keyword, plans);
      && |r| == |table|
      && forall k :: 0 <= k < |table| ==> r[k] == table[k] || IsFeature(table[k], feature)
  {
  }

  /**
   * Only the rows labelled "Monthly AI Conversations", "Chatbots" or
   * "Document Uploads" can change; the table keeps its length.
   */
  lemma MergeTableOnlyUsageRows(table: seq<Fields>, plans: seq<PlansApi.ApiPlan>)
    ensures var r := MergeTable(table, plans);
      && |r| == |table|
      && forall k :: 0 <= k < |table| ==> UsageRowOrSame(table[k], r[k])
  {
    var t1 := MergeRow(table, "Monthly AI Conversations", "AI Conversations", plans);
    var t2 := MergeRow(t1, "Chatbots", "Chatbots", plans);
    MergeRowOnlyThat(table, "Monthly AI Conversations", "AI Conversations", plans);
    MergeRowOnlyThat(t1, "Chatbots", "Chatbots", plans);
    MergeRowOnlyThat(t2, "Document Uploads", "Documents", plans);
  }

  /** Every row keeps its keys, and its `feature` unless a plan's lowercased title is `feature`. */
  lemma MergeRowKeepsShape(table: seq<Fields>, feature: string, keyword: string, plans: seq<PlansApi.ApiPlan>, k: nat)
    requires k < |table|
    requires forall p :: 0 <= p < |plans| ==> Lower(plans[p].title) != "feature"
    ensures var r := MergeRow(table, feature, keyword, plans);
      && r[k].Keys == table[k].Keys
      && forall f :: IsFeature(table[k], f) <==> IsFeature(r[k], f)
  {
    var i := FindRow(table, feature);
    if i == k {
      MergePlansKeys(table[k], plans, keyword);
      if "feature" in table[k] {
        MergePlansUntouched(table[k], plans, keyword, "feature");
      }
    }
  }

  /** With no plan titled "feature", every row keeps its keys and its label through the whole update. */
  lemma MergeTableKeepsLabels(table: seq<Fields>, plans: seq<PlansApi.ApiPlan>, k: nat)
    requires k < |table|
    requires forall p :: 0 <= p < |plans| ==> Lower(plans[p].title) != "feature"
    ensures var r := MergeTable(table, plans);
      && |r| == |table|
      && r[k].Keys == table[k].Keys
      && forall f :: IsFeature(table[k], f) <==> IsFeature(r[k], f)
  {
    var t1 := MergeRow(table, "Monthly AI Conversations", "AI Conversations", plans);
    var t2 := MergeRow(t1, "Chatbots", "Chatbots", plans);
    MergeRowKeepsShape(table, "Monthly AI Conversations", "AI Conversations", plans, k);
    MergeRowKeepsShape(t1, "Chatbots", "Chatbots", plans, k);
    MergeRowKeepsShape(t2, "Document Uploads", "Documents", plans, k);
  }

  /** A Growth plan reporting 2,000 conversations a month, and nothing else. */
  function GrowthPlan(): PlansApi.ApiPlan
  {
    PlansApi.ApiPlan("growth-id", "Growth", "", 29.0, [PlansApi.UsageLimit("AI Conversations/month:", "2,000")], [], [])
  }

  lemma GrowthTitle()
    ensures Lower("Growth") == "growth"
  {
  }

  lemma GrowthLabelMatches()
    ensures Contains("AI Conversations/month:", "AI Conversations")
  {
    ContainsAt("AI Conversations/month:", "AI Conversations", 0);
  }

  /** The conversations caption names neither of the other two usage rows. */
  lemma GrowthLabelOthers()
    ensures !Contains("AI Conversations/month:", "Chatbots")
    ensures !Contains("AI Conversations/month:", "Documents")
  {
    MissingCharNotContained("AI Conversations/month:", "Chatbots", 'b');
    MissingCharNotContained("AI Conversations/month:", "Documents", 'D');
  }

  /** The plan writes its Growth cell in the conversations row and nothing in the other two. */
  lemma GrowthApply(row: Fields)
    requires "growth" in row
    ensures ApplyPlan(row, GrowthPlan(), "AI Conversations") == row["growth" := Text("2,000")]
  {
    GrowthTitle();
    GrowthLabelMatches();
  }

  lemma GrowthApplyOthers(row: Fields)
    ensures ApplyPlan(row, GrowthPlan(), "Chatbots") == row
    ensures ApplyPlan(row, GrowthPlan(), "Documents") == row
  {
    GrowthLabelOthers();
  }

  /** On a table whose first row is the conversations row, the plan changes exactly that row's Growth cell. */
  lemma GrowthUpdate(table: seq<Fields>)
    requires FindRow(table, "Monthly AI Conversations") == 0 && "growth" in table[0]
    ensures MergeTable(table, [GrowthPlan()]) == table[0 := table[0]["growth" := Text("2,000")]]
  {
    var plans := [GrowthPlan()];
    GrowthApply(table[0]);
    assert MergePlans(table[0], plans, "AI Conversations") == ApplyPlan(table[0], GrowthPlan(), "AI Conversations");
    var t1 := table[0 := table[0]["growth" := Text("2,000")]];
    forall row: Fields
      ensures MergePlans(row, plans, "Chatbots") == row
      ensures MergePlans(row, plans, "Documents") == row
    {
      GrowthApplyOthers(row);
      assert MergePlans(row, plans, "Chatbots") == ApplyPlan(row, GrowthPlan(), "Chatbots");
      assert MergePlans(row, plans, "Documents") == ApplyPlan(row, GrowthPlan(), "Documents");
    }
  }

  /** The static table's first row is the conversations row and has a Growth cell. */
  lemma FixtureConversationsRow()
    ensures FindRow(Subscriptions.ComparePlans, "Monthly AI Conversations") == 0
    ensures "growth" in Subscriptions.ComparePlans[0]
  {
    assert IsFeature(Subscriptions.ComparePlans[0], "Monthly AI Conversations");
  }

  /** On the static table the plan changes exactly the Growth cell of the conversations row. */
  lemma GrowthUpdateExample()
    ensures var table := Subscriptions.ComparePlans;
      MergeTable(table, [GrowthPlan()]) == table[0 := table[0]["growth" := Text("2,000")]]
  {
    FixtureConversationsRow();
    GrowthUpdate(Subscriptions.ComparePlans);
  }

  // ---------------------------------------------------------------------
  // The component

  /** A row object of the table; the update writes its fields in place. */
  class PlansRow {
    var fields: Fields

    constructor (fields: Fields)
      ensures this.fields == fields
    {
      this.fields := fields;
    }
  }

  /** The current values of the row objects. */
  function Snapshot(rows: seq<PlansRow>): (r: seq<Fields>)
    reads set x | x in rows
    ensures |r| == |rows|
    ensures forall k :: 0 <= k < |rows| ==> r[k] == rows[k].fields
  {
    if rows == [] then [] else Snapshot(rows[..|rows| - 1]) + [rows[|rows| - 1].fields]
  }

  /** No row object appears twice. */
  ghost predicate Distinct(rows: seq<PlansRow>)
  {
    forall i, j :: 0 <= i < j < |rows| ==> rows[i] != rows[j]
  }

  /** What `fetch('/api/plans')` yields: the decoded plans, a response that is not ok, or a thrown error. */
  datatype Response = Ok(plans: seq<PlansApi.ApiPlan>) | NotOk | Threw

  /** Finds one usage row among `rows` and merges every plan's amount into it, in place. */
  method UpdateRow(rows: seq<PlansRow>, feature: string, keyword: string, plans: seq<PlansApi.ApiPlan>)
    requires Distinct(rows)
    modifies set x | x in rows
    ensures Snapshot(rows) == MergeRow(old(Snapshot(rows)), feature, keyword, plans)
  {
    var i := FindRow(Snapshot(rows), feature);
    if i >= 0 {
      MergeInto(rows[i], plans, keyword);
    }
  }

  /** The `forEach` over the plans of lines 33-43, writing into one row object. */
  method MergeInto(row: PlansRow, plans: seq<PlansApi.ApiPlan>, keyword: string)
    modifies row
    ensures row.fields == MergePlans(old(row.fields), plans, keyword)
  {
    ghost var start := row.fields;
    var j := 0;
    while j < |plans|
      invariant 0 <= j <= |plans|
      invariant row.fields == MergePlans(start, plans[..j], keyword)
    {
      var plan := plans[j];
      assert plans[..j + 1][..j] == plans[..j];
      var limit := FirstLimit(plan.usageLimits, keyword);
      if limit.Some? {
        var planKey := Lower(plan.title);
        if planKey in row.fields {
          row.fields := row.fields[planKey := Text(limit.value.value)];
        }
      }
      j := j + 1;
    }
    assert plans[..j] == plans;
  }

  /** The component's state: the static rows, the rows shown, and the loading flag. */
  class ComparePlans {
    const comparePlans: seq<PlansRow>
    var dynamicComparePlans: seq<PlansRow>
    var loading: bool

    ghost predicate Valid()
      reads this
    {
      Distinct(comparePlans)
    }

    /** Lines 17-18: the static rows are shown and the table is loading. */
    constructor (initial: seq<Fields>)
      ensures Valid()
      ensures Snapshot(comparePlans) == initial
      ensures dynamicComparePlans == comparePlans && loading
    {
      var rows: seq<PlansRow> := [];
      var k := 0;
      while k < |initial|
        invariant 0 <= k <= |initial|
        invariant |rows| == k && Distinct(rows)
        invariant forall m :: 0 <= m < k ==> fresh(rows[m]) && rows[m].fields == initial[m]
      {
        var row := new PlansRow(initial[k]);
        rows := rows + [row];
        k := k + 1;
      }
      comparePlans := rows;
      dynamicComparePlans := rows;
      loading := true;
    }

    /**
     * `fetchPlansData` (lines 21-87): on an ok response the three usage rows
     * of the static table are updated in place and shown; otherwise the
     * table is left alone. Loading ends either way.
     */
    method FetchPlansData(response: Response)
      requires Valid()
      modifies this, set x | x in comparePlans
      ensures Valid() && !loading
      ensures response.Ok? ==> Snapshot(comparePlans) == MergeTable(old(Snapshot(comparePlans)), response.plans)
      ensures response.Ok? ==> dynamicComparePlans == comparePlans
      ensures !response.Ok? ==> Snapshot(comparePlans) == old(Snapshot(comparePlans))
      ensures !response.Ok? ==> dynamicComparePlans == old(dynamicComparePlans)
    {
      if response.Ok? {
        var plans := response.plans;
        var updatedComparePlans := comparePlans;
        ghost var table := Snapshot(comparePlans);
        UpdateRow(updatedComparePlans, "Monthly AI Conversations", "AI Conversations", plans);
        ghost var conversations := Snapshot(comparePlans);
        assert conversations == MergeRow(table, "Monthly AI Conversations", "AI Conversations", plans);
        UpdateRow(updatedComparePlans, "Chatbots", "Chatbots", plans);
        ghost var chatbots := Snapshot(comparePlans);
        assert chatbots == MergeRow(conversations, "Chatbots", "Chatbots", plans);
        UpdateRow(updatedComparePlans, "Document Uploads", "Documents", plans);
        assert Snapshot(comparePlans) == MergeRow(chatbots, "Document Uploads", "Documents", plans);
        dynamicComparePlans := updatedComparePlans;
      }
      loading := false;
    }
  }

  // ---------------------------------------------------------------------
  // Cells

  /** What a cell shows: the check icon, a dash, or the string itself. */
  datatype Shown = CheckIcon | Dash | Literal(s: string)

  /** `renderCell` (lines 92-97). */
  function RenderCell(value: Cell): (r: Shown)
    ensures r == CheckIcon <==> value == Flag(true)
    ensures r == Dash <==> value == Empty || value == Flag(false)
    ensures r.Literal? <==> value.Text?
    ensures r.Literal? ==> r.s == value.s
  {
    match value
    case Empty => Dash
    case Flag(b) => if b then CheckIcon else Dash
    case Text(s) => Literal(s)
  }
}
