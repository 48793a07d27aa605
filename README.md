# Rolto pricing: plans, comparison table and plan cards

This project models the pricing core of Rolto, a chatbot product, in Dafny and proves properties of the model.
The core has four parts:

- **The plans endpoint** (`GET /api/plans`, app/api/plans/route.ts). It turns plan rows,
  feature rows and feature-value rows into plan records. Each record has usage limits,
  benefits and limitations. The endpoint classifies every feature value of a plan, relabels
  it, and sorts each list in a fixed priority order. Growth and Pro get an
  "Everything in …" benefit. An empty list falls back to fixed defaults.
- **The plan library** (lib/plans.ts):
  - `getPlansFromDatabase` builds the plan cards for the tiers `starter`, `growth` and `pro`.
    Toggle features become benefits or limitations. Usage limits become formatted
    benefit strings.
  - `getComparePlansFromDatabase` builds the comparison table from those cards. It has one
    row per feature: numeric features come first, then the rest in `sort_order`. Each plan
    gets one cell. For toggle features a tier-by-tier cascade then marks a feature included
    by a lower tier as included by every higher tier.
- **The comparison view** (components/pricing/compare-plans.tsx). It shows the static table
  from config/subscriptions.ts. After fetching the plans, it writes each plan's usage
  amounts into the three usage rows, in place. The rows are shared with the static table
  through a shallow copy, so the merge updates those row objects themselves.
- **The plan cards** (components/pricing/pricing-cards.tsx). The billing period defaults to
  yearly unless the user pays monthly, and a toggle flips it. The cards split a plan's
  benefits into a usage block and regular features. They parse each usage line into a
  caption, an amount and a unit. They also decide the price lines and the tier notice,
  and show at most three cards.

Modules follow those files:

| module | file |
|---|---|
| `PlansApi` | app/api/plans/route.ts |
| `PlansLib` | lib/plans.ts, plan cards |
| `CompareBuilder` | lib/plans.ts, comparison table |
| `ComparePlansView` | compare-plans.tsx |
| `PricingCards` | pricing-cards.tsx |
| `Subscriptions` | the static table of config/subscriptions.ts |

Helper modules:

- `Ascii`: ASCII case mapping, substring search, whitespace slugs, `indexOf`, decimal numerals.
- `Sorting`: JavaScript's stable `Array.prototype.sort`. It is an insertion sort driven by a
  comparator that returns an `int`.
- `Types`: `Option`, and the cell type `true`/`false`/string/`null` of a table row.

Where the source runs a loop that updates local state, the model is a method with loop
invariants, proved equal to a specification function. Examples are the `forEach` over
feature values, the `map` over plans, the cascade, and the row merges. The properties
are proved as lemmas about those functions.

The environment becomes parameters:

- the database rows are input sequences;
- `fetch` is a `Response` value;
- `Number`/`isNaN` is an abstract predicate `env.isNumber`;
- `toLocaleString` is an abstract function `env.localeFormat`;
- `localeCompare` is an abstract relation `env.less`. Lemmas about sortedness require it
  to be a strict total order.

## Model

| member | source | states |
|---|---|---|
| PlansApi.PlanValues | app/api/plans/route.ts:99-102 | the plan's feature values are exactly those whose plan name matches the plan's name or display name, case-insensitively |
| PlansApi.FindFeature | app/api/plans/route.ts:118-119 | the lookup finds nothing exactly when no feature has the name; otherwise it returns the first feature with that name |
| PlansApi.Relabel | app/api/plans/route.ts:142-147 | a chain of `includes` checks keeps the display name when no pattern matches; otherwise the last matching pattern's label wins |
| PlansApi.ClassifyCases | app/api/plans/route.ts:117-197 | a value of an unknown feature is skipped. A number-like, non-boolean value of a usage metric is a usage limit holding the formatted value. Otherwise a true-like value is a benefit unless the feature is storage or team members. Otherwise a false-like value is a limitation. Each case is stated in both directions. |
| PlansApi.ClassifyLabels | app/api/plans/route.ts:141-196 | the caption of a usage limit is the relabelled display name plus ":"; benefit and limitation names are relabelled by their own tables |
| PlansApi.Entries | app/api/plans/route.ts:117-198 | one classification per feature value, in order |
| PlansApi.ListsSnoc | app/api/plans/route.ts:154-196 | one more feature value pushes onto exactly the list its classification names |
| PlansApi.ListsMembers | app/api/plans/route.ts:113-198 | the three lists hold exactly the usage limits, benefits and limitations among the classifications |
| PlansApi.CollectValues | app/api/plans/route.ts:113-198 | the loop's three arrays equal the lists drawn from the classified values |
| PlansApi.StructurePlan | app/api/plans/route.ts:92-291 | the method builds exactly the record the specification describes |
| PlansApi.PlanSpecsAt | app/api/plans/route.ts:92-292 | one record per plan row, in input order |
| PlansApi.StructurePlans | app/api/plans/route.ts:92-292 | the `map` over the plans yields the specified records |
| PlansApi.EntryOrigin | app/api/plans/route.ts:99-119 | every classification comes from one of the plan's own feature values |
| PlansApi.Rank | app/api/plans/route.ts:203-204 | `indexOf` in a priority table, with unlisted names ranked last |
| PlansApi.RankCompareLe | app/api/plans/route.ts:202-212 | the priority comparator puts `a` first exactly when `a` ranks higher, or ranks the same and is equal or unlisted and `localeCompare`-smaller |
| PlansApi.RankCompareConsistent | app/api/plans/route.ts:240-253 | with `localeCompare` a strict total order, the priority comparator is antisymmetric and transitive |
| PlansApi.UsageCmpConsistent | app/api/plans/route.ts:201-212 | the usage-limit comparator is a consistent order |
| PlansApi.BenefitCmpConsistent | app/api/plans/route.ts:221-253 | the benefit comparator is a consistent order |
| PlansApi.BenefitSortedRankOrdered | app/api/plans/route.ts:240-253 | a list sorted by the benefit comparator is in priority order, with unlisted names after in `localeCompare` order |
| PlansApi.UsageSortedRankOrdered | app/api/plans/route.ts:201-212 | a list sorted by the usage comparator has its captions in the order conversations, documents, chatbots, then the rest |
| PlansApi.DefaultUsageLimitsSorted | app/api/plans/route.ts:258-262 | the fallback usage limits are already in priority order |
| PlansApi.DefaultBenefitsSorted | app/api/plans/route.ts:264-268 | the fallback benefits are already in priority order |
| PlansApi.UsageLimitsOrdered | app/api/plans/route.ts:200-212 | the record's usage limits are the defaults when none were collected; otherwise they are a permutation of the collected ones. Either way they are in priority order. |
| PlansApi.LimitationsFallback | app/api/plans/route.ts:270-275 | Pro lists no limitations; other plans list the collected limitations in collection order, or the two defaults when there are none |
| PlansApi.BenefitsOrdered | app/api/plans/route.ts:214-268 | the record's benefits are the defaults when nothing was collected and no tier entry was added; otherwise they are a permutation of the collected ones plus the tier entry. Either way they are in priority order. |
| PlansApi.EverythingInFirst | app/api/plans/route.ts:214-253 | Growth and Pro never fall back to the default benefits. Their "Everything in …" entry comes first after sorting, unless a Pro plan also collected "Everything in Starter", which ranks higher. |
| PlansApi.EverythingInHead | app/api/plans/route.ts:221-253 | sorting an "Everything in" entry in with other benefits puts the best-ranked such entry first |
| PlansApi.SortedHead | app/api/plans/route.ts:240-253 | the head of a list sorted in benefit order ranks no lower than any listed member |
| PlansApi.RankZero | app/api/plans/route.ts:221-222 | only "Everything in Starter" has the top rank |
| PlansApi.RecordFields | app/api/plans/route.ts:277-282 | the record keeps the plan's id, display name and monthly price; a missing description becomes "" |
| PlansApi.UsageLimitOrigin | app/api/plans/route.ts:154-262 | every usage limit in a record is a default (only when none was collected) or was classified from one of the plan's values |
| PlansApi.BenefitOrigin | app/api/plans/route.ts:181-268 | every benefit in a record is a default (only with no collected benefit and no tier entry), the tier's "Everything in" entry, or was classified from one of the plan's values |
| PlansApi.LimitationOrigin | app/api/plans/route.ts:196-275 | a record with a limitation is not Pro; the limitation is a default or was classified from one of the plan's values |
| PlansApi.IgnoredValue | app/api/plans/route.ts:99-119 | a feature value of another plan, or of an undefined feature, does not change the record, wherever it stands among the fetched values |
| PlansApi.NoValuesGivesDefaults | app/api/plans/route.ts:214-275 | with no feature values every list is its fallback, and Growth and Pro carry only their "Everything in" entry |
| PlansApi.ExampleClassify | app/api/plans/route.ts:136-157 | 1000 monthly conversations become the usage limit "AI Conversations/month:" with the formatted value |
| PlansApi.GrowthConversationsExample | app/api/plans/route.ts:92-291 | a Growth plan with only that value gets one usage limit, the single benefit "Everything in Starter", the default limitations and an empty description |
| PlansLib.GetValue | lib/plans.ts:5-13 | strings and numbers become their text. An object with a `value` field gives that field's text, or nothing when the text is empty or the field is `null`. Everything else gives nothing. |
| PlansLib.IsUsageLimit | lib/plans.ts:16-26 | exactly the six listed feature names are usage limits |
| PlansLib.FormatUsageLimit | lib/plans.ts:29-49 | no value or an empty value formats to ""; a nonempty value gives "<v> AI conversations/month" for conversations, "<v> GB storage" for storage, the counted form of its unit for chatbots, document uploads, websites and team members, and the value itself for any other feature |
| PlansLib.CountedForms | lib/plans.ts:37-45 | "unlimited" gives "Unlimited <unit>s"; otherwise value, space and unit, with the plural "s" exactly when the value is not "1" |
| PlansLib.FormatUsageLimitEmpty | lib/plans.ts:29-31 | the formatted text is empty exactly when there is no value or the value is empty |
| PlansLib.CapitalizePlanName | lib/plans.ts:52-54 | capitalising keeps the length, is idempotent, keeps the lower-case form, upper-cases the first letter and lower-cases the rest |
| PlansLib.FindPlan | lib/plans.ts:84-86 | `find` returns the first plan whose lower-cased name is the slot, and nothing exactly when there is none |
| PlansLib.SortedPlans | lib/plans.ts:81-86 | at most three plans survive the tier lookup |
| PlansLib.SortedPlansSlots | lib/plans.ts:84-86 | the sorted plans are the starter, growth and pro lookups in that order, each dropped when missing |
| PlansLib.ListedFills | lib/plans.ts:84-86 | a listed plan fills its own slot and is what the lookup found |
| PlansLib.SortedPlansOrdered | lib/plans.ts:81-86 | every kept plan is a tier, the tiers strictly increase along the list, and each kept plan is the first plan of its tier |
| PlansLib.SortedPlanAt | lib/plans.ts:84-86 | the tier of each kept plan is fixed by how many earlier slots were filled |
| PlansLib.OrderRanks | lib/plans.ts:81 | the three tiers have indexes 0, 1 and 2 |
| PlansLib.ItemOf | lib/plans.ts:93-116 | a limitation item carries the feature's display name |
| PlansLib.ItemCases | lib/plans.ts:96-115 | excluded or invisible values are dropped. A visible toggle pushes its display name onto the benefits when truthy and onto the limitations otherwise. A visible usage limit with nonempty text pushes its formatted text onto the benefits. Each case is stated in both directions. |
| PlansLib.CollectedSnoc | lib/plans.ts:93-116 | one more value pushes onto exactly the list its item names |
| PlansLib.CollectedMembers | lib/plans.ts:93-116 | the collected lists hold exactly the items of the plan's values |
| PlansLib.FindByDisplayName | lib/plans.ts:137-138 | the lookup finds nothing exactly when no feature has the display name; otherwise it returns the first feature with that display name |
| PlansLib.FilteredFeatures | lib/plans.ts:77-78 | the filtered features are exactly those not named `storage_gb` or `team_members` |
| PlansLib.CollectItems | lib/plans.ts:89-116 | the loop's arrays equal the collected lists |
| PlansLib.BuildPlan | lib/plans.ts:88-169 | the method builds exactly the specified record for one plan |
| PlansLib.RecordsOf | lib/plans.ts:88 | one record per sorted plan, in order |
| PlansLib.RecordsOfSnoc | lib/plans.ts:88 | one more plan appends its record |
| PlansLib.GetPlans | lib/plans.ts:56-174 | the method returns exactly the specified records of the sorted plans |
| PlansLib.PlanRecordContents | lib/plans.ts:89-148 | a card's benefits and limitations are permutations of the collected ones, and hold exactly the items of the plan's values |
| PlansLib.PlanRecordFields | lib/plans.ts:150-162 | the title is the capitalised plan name (same length, same lower-case form); a missing description is "" and a missing monthly price is 0 |
| CompareBuilder.CompareFeatureLe | lib/plans.ts:219-232 | a feature sorts no later than another exactly when it is numeric and the other is not, or both are numeric in list order, or neither is and its `sort_order` is no larger |
| CompareBuilder.CompareFeatureConsistent | lib/plans.ts:219-232 | the feature comparator is a consistent order |
| CompareBuilder.CompareFeaturesMembers | lib/plans.ts:181-232 | the table's features are a permutation of the fetched features without `storage_gb` and `team_members` |
| CompareBuilder.CompareFeaturesOrdered | lib/plans.ts:219-232 | in the table numeric features come first, in the order conversations, chatbots, documents, and the others follow in `sort_order` |
| CompareBuilder.AnyOverlaps | lib/plans.ts:242-243 | `some` holds exactly when one item contains the feature's display name or is contained in it |
| CompareBuilder.FindUsage | lib/plans.ts:251-262 | the usage lookup returns the first benefit containing the feature's pattern, and nothing when the feature has no pattern or no benefit matches |
| CompareBuilder.DirectCell | lib/plans.ts:241-269 | a cell is `true` exactly when a benefit overlaps the feature. It is `false` exactly when no benefit does and a limitation does. Otherwise it is the found usage benefit, or `null` when there is none. |
| CompareBuilder.DirectRowKeys | lib/plans.ts:235-239 | the row's keys are `feature` and the key of each plan |
| CompareBuilder.DirectRowLast | lib/plans.ts:238-270 | a plan's key holds that plan's cell when no later plan has the same key |
| CompareBuilder.DirectRowFeature | lib/plans.ts:235 | the row's `feature` field is the display name unless a plan's key is `feature` |
| CompareBuilder.BuildDirectRow | lib/plans.ts:235-270 | the loop builds exactly the specified row of direct cells |
| CompareBuilder.Tier | lib/plans.ts:277 | a plan's tier is the index of its lower-cased title in the hierarchy, or -1 exactly when the title is not a tier |
| CompareBuilder.FindTierNone | lib/plans.ts:281 | `find` returns nothing exactly when no plan has the tier |
| CompareBuilder.FindTierFirst | lib/plans.ts:281 | what `find` returns is the first plan of the tier |
| CompareBuilder.TierKey | lib/plans.ts:276-283 | a tiered plan's key is its tier name |
| CompareBuilder.Cascade | lib/plans.ts:273-291 | the cascade loop yields exactly the specified row: growth and pro become `true` when a present lower tier has `true`, and nothing else changes |
| CompareBuilder.CascadePlan | lib/plans.ts:276-290 | one plan's inner loop, including the `break`, keeps the cascade invariant and covers that plan |
| CompareBuilder.CascadeMonotone | lib/plans.ts:273-291 | the cascade keeps every key, never turns `true` into anything else, and writes only `true` |
| CompareBuilder.CascadeUpward | lib/plans.ts:280-288 | when two tiers are present, a `true` in the lower one ends up `true` in the higher one |
| CompareBuilder.CascadeOrigin | lib/plans.ts:280-288 | a `true` after the cascade was already `true` or comes from a present lower tier |
| CompareBuilder.RowsOf | lib/plans.ts:234-295 | one row per table feature, in order |
| CompareBuilder.RowsOfSnoc | lib/plans.ts:234-295 | one more feature appends its row |
| CompareBuilder.NonToggleRowIsDirect | lib/plans.ts:272-273 | a non-toggle feature's row is the row of direct cells |
| CompareBuilder.BuildCompareRows | lib/plans.ts:176-300 | with no table features the result is empty; otherwise it is exactly the specified rows |
| ComparePlansView.FirstLimit | components/pricing/compare-plans.tsx:34-36 | the lookup returns the first usage limit whose caption contains the keyword, and nothing exactly when there is none |
| ComparePlansView.MergePlansKeys | components/pricing/compare-plans.tsx:33-43 | merging plans into a row never adds or removes a key |
| ComparePlansView.MergePlansUntouched | components/pricing/compare-plans.tsx:37-41 | a key no plan writes keeps its value |
| ComparePlansView.MergePlansLast | components/pricing/compare-plans.tsx:33-43 | a key holds the amount of the last plan that writes it |
| ComparePlansView.FindRow | components/pricing/compare-plans.tsx:31 | the row lookup returns the first row with the label, and -1 exactly when there is none |
| ComparePlansView.MergeRowOnlyThat | components/pricing/compare-plans.tsx:31-44 | merging one usage row changes no other row and keeps the table's length |
| ComparePlansView.MergeTableOnlyUsageRows | components/pricing/compare-plans.tsx:28-76 | the whole merge changes only the three usage rows |
| ComparePlansView.MergeRowKeepsShape | components/pricing/compare-plans.tsx:37-41 | a merged row keeps its keys and its label when no plan is titled "feature" |
| ComparePlansView.MergeTableKeepsLabels | components/pricing/compare-plans.tsx:28-76 | after the merge every row keeps its keys and its label when no plan is titled "feature" |
| ComparePlansView.GrowthUpdate | components/pricing/compare-plans.tsx:28-76 | a Growth plan with 2,000 conversations writes "2,000" into the growth cell of the conversations row and nothing else |
| ComparePlansView.GrowthUpdateExample | components/pricing/compare-plans.tsx:28-76 | merged into the static table, that plan changes only the growth cell of row 0 |
| ComparePlansView.PlansRow.constructor | components/pricing/compare-plans.tsx:17 | a row object holds the given fields |
| ComparePlansView.Snapshot | components/pricing/compare-plans.tsx:17 | the row values read through the row objects, one per row, in order |
| ComparePlansView.UpdateRow | components/pricing/compare-plans.tsx:31-44 | updating one usage row in place leaves the objects holding the merged table |
| ComparePlansView.MergeInto | components/pricing/compare-plans.tsx:33-43 | the `forEach` over the plans leaves the row holding every plan merged in |
| ComparePlansView.ComparePlans.constructor | components/pricing/compare-plans.tsx:17-18 | the view starts with the static rows shown and loading |
| ComparePlansView.ComparePlans.FetchPlansData | components/pricing/compare-plans.tsx:20-87 | an ok response merges the plans into the shared row objects and shows them; a failed or thrown fetch changes no row. Loading ends either way. |
| ComparePlansView.RenderCell | components/pricing/compare-plans.tsx:92-97 | `true` shows the check icon, `false` and `null` show a dash, and a string shows itself |
| PricingCards.IsYearlyDefault | components/pricing/pricing-cards.tsx:24-27 | billing is monthly exactly when the user has a Stripe customer id and an interval other than "year" |
| PricingCards.Billing.constructor | components/pricing/pricing-cards.tsx:28 | the period starts at its default |
| PricingCards.Billing.ToggleBilling | components/pricing/pricing-cards.tsx:31-33 | the toggle flips the period |
| PricingCards.ToggleTwice | components/pricing/pricing-cards.tsx:31-33 | two toggles restore the period |
| PricingCards.PartitionFor | components/pricing/pricing-cards.tsx:84-89 | the usage block and the regular features split the benefits: together they are a permutation of them, with membership decided by the filter in either direction |
| PricingCards.SingularDocumentMissed | components/pricing/pricing-cards.tsx:87-92 | a single document upload formats as "1 document upload"; the written filter misses it and lists it as a regular feature, the usage block shows no line for it and the written label gives it "", while the corrected filter keeps it in the usage block |
| PricingCards.UsageAmountsInBlock | components/pricing/pricing-cards.tsx:84-89 | with the corrected filter, every formatted amount of conversations, chatbots or document uploads lands in the usage block |
| PricingCards.UsageLabelInBlock | components/pricing/pricing-cards.tsx:84-95 | for the mark as written and for any other, a benefit passes the filter exactly when its label is not empty; the label is one of the three captions or empty, and it is "Conversations" exactly when the unit is "/month" |
| PricingCards.DigitPrefix | components/pricing/pricing-cards.tsx:94 | the longest prefix of digits |
| PricingCards.FirstDigitIndex | components/pricing/pricing-cards.tsx:94 | the position of the first digit, or the length when there is none |
| PricingCards.FirstDigitRunEmpty | components/pricing/pricing-cards.tsx:94 | the amount is empty exactly when the feature text has no digit |
| PricingCards.FirstDigitRunSpec | components/pricing/pricing-cards.tsx:94 | a nonempty amount is the maximal run of digits starting at the first digit |
| PricingCards.DigitRunOfNumber | components/pricing/pricing-cards.tsx:94 | a number followed by a non-digit parses back to that number |
| PricingCards.UsageLinesFor | components/pricing/pricing-cards.tsx:84-103 | one line per usage-block entry, in order, with the documents mark of the filter also in the label; the source's lines are those for the mark "document uploads" |
| PricingCards.ConversationsLine | components/pricing/pricing-cards.tsx:84-95 | under either documents mark, a formatted conversations amount passes the filter and parses back to "Conversations", the number and "/month" |
| PricingCards.ChatbotsLine | components/pricing/pricing-cards.tsx:84-95 | under either documents mark, a formatted chatbot count passes the filter and parses back to "Chatbots" and the number |
| PricingCards.DocumentsLine | components/pricing/pricing-cards.tsx:84-95 | as written, a formatted document count of any number but 1 passes the filter and parses back to "Documents" and the number; the count 1 fails the filter |
| PricingCards.DocumentsLineCorrected | components/pricing/pricing-cards.tsx:84-95 | with the corrected mark, every formatted document count passes the filter and parses back to "Documents" and the number |
| PricingCards.UsageLinesOfAmounts | components/pricing/pricing-cards.tsx:84-125 | as written, a card with conversations, documents and chatbot amounts shows the conversations and chatbot lines, and the documents line unless the count is 1; a count of 1 becomes the only regular feature among them |
| PricingCards.UsageLinesOfAmountsCorrected | components/pricing/pricing-cards.tsx:84-125 | with the corrected mark the same card shows all three lines and none of the amounts among the regular features |
| PricingCards.PriceViewCases | components/pricing/pricing-cards.tsx:54-76 | a free plan shows neither a strike-through price nor a charge note; a paid plan is struck through exactly when billed yearly, and its note is the annual one when billed yearly and the monthly one otherwise |
| PricingCards.NoticeNamesLowerTier | components/pricing/pricing-cards.tsx:110-116 | Starter has no notice; Growth and Pro name the tier just below them |
| PricingCards.VisibleCards | components/pricing/pricing-cards.tsx:213 | at most three cards show, and they are the first three |
| PricingCards.AllRecordsVisible | components/pricing/pricing-cards.tsx:213 | all cards built by the plan library show, since there are at most three |
| Sorting.Sort | app/api/plans/route.ts:202 | sorting returns a permutation |
| Sorting.SortSorted | app/api/plans/route.ts:202-212 | with a consistent comparator the result is sorted |
| Sorting.SortedFirst | app/api/plans/route.ts:240-253 | the head of a sorted list comes no later than any member |
| Ascii.Lower | app/api/plans/route.ts:133 | `toLowerCase` maps each ASCII letter and keeps the length |
| Ascii.IndexOf | lib/plans.ts:228 | `indexOf` is the first position of the element, and -1 exactly when it is absent |
| Ascii.SlugOfPlain | lib/plans.ts:239 | replacing whitespace runs by "-" keeps a name that has no whitespace |
| Ascii.CapitalizeFacts | lib/plans.ts:52-54 | capitalising keeps the length, is idempotent and keeps the lower-case form |
| Ascii.IntToString | lib/plans.ts:7 | a number's text starts with a digit exactly when the number is non-negative; its digits denote the number, after a minus sign when it is negative |
| Ascii.NatToString | lib/plans.ts:7 | the decimal digits of a non-negative number, without a leading zero, denoting that number |
| Ascii.NatToStringInjective | lib/plans.ts:7 | two numbers with the same text are equal |
| Types.MapAt | app/api/plans/route.ts:92 | `map` gives one image per element, in order |

## Left out

- Database access (Prisma queries, schema probing, `$disconnect`) and logging: the fetched rows are inputs.
- The error paths of the queries. In the plans endpoint only the features and feature-values queries fall back to empty rows (app/api/plans/route.ts:57-89), and the model takes those rows as inputs, empty ones included. The plans query (route.ts:39-51) and any throw inside the per-plan `map`, such as `toLowerCase` on a missing display name at line 101, reach the outer `catch` (route.ts:295-300). That `catch` answers HTTP 500 with `{ error: 'Failed to fetch plans' }`, and this response is not modelled. In lib/plans.ts the `catch` blocks at lines 170-172 and 296-298 return `[]`, and a failed query is modelled there as that empty result.
- `JSON.parse` of stored values: a value is modelled as already decoded.
- `parseFloat`, the yearly-price arithmetic and `Math.round`: these are floating point, so the monthly price is passed through as a `real` and the yearly price is not modelled.
- `Number(...)`/`isNaN`, `toLocaleString` and `localeCompare`: these are abstract parameters of the environment.
- `PlansApi.UsageLimitsOrdered`: it requires `localeCompare` to be a strict total order, because its real order depends on the locale.
- `PlansApi.BenefitsOrdered`: it requires `localeCompare` to be a strict total order, because its real order depends on the locale.
- `PlansLib.PlanRecordContents`: it states only that benefits and limitations are permuted, not their order. The comparators of lib/plans.ts:119-148 answer 0 when a lookup fails, so they are not transitive and the result depends on the engine's sort.
- Numbers are integers only: `PlansLib.Json` and `PlansApi.Value` hold an `int`. A stored fraction such as 2.5 cannot be represented, and neither can the exponent form (`1e+21`) that `toString` gives for values of 10^21 and above.
- `PlansApi.Value` has a single `Other` case for `null`, arrays and objects. `Number(null)` is 0 but `Number({})` is NaN (route.ts:135), so `env.isNumber` cannot tell them apart.
- Text is ASCII-only: `Ascii.Lower`, `Ascii.Upper` and the whitespace class of `Ascii.Slug` cover ASCII. JavaScript's `toLowerCase`, `toUpperCase` and `/\s+/` (route.ts:133, lib/plans.ts:53, 84, 239) are Unicode-aware.
- Object keys inherited from JavaScript's prototype (such as `constructor`) are not modelled: `key in row` means an own key.
- `shouldShowInCompareTable` (lib/plans.ts:204-213) always answers true, so its filter is the identity and is left out.
- `planMap` (lib/plans.ts:201) is built but never used.
- The price strings themselves (`toFixed(2)`, the `$` formatting): only which price lines appear is modelled. The constant `stripeIds` fields of the records are left out: `{ price: null }` in the plans endpoint (route.ts:285-287) and `{ monthly: null, yearly: null }` in lib/plans.ts (lines 163-166).
- JSX layout, icons, the modal and links: these are UI. The toggle group's own events are UI too. It calls `toggleBilling` on every value change, even one that deselects the current item, and the model covers only the flip itself.
- The FAQ (components/pricing/pricing-faq.tsx) and the pricing page (app/(marketing)/pricing/page.tsx) are not part of this model.
- `pricingData` in config/subscriptions.ts, the static plan cards, is not part of this model. Only `plansColumns` and `comparePlans` are.

## Findings

| source | as written | input that shows it | evidently intended | confidence | as-written member | corrected member |
|---|---|---|---|---|---|---|
| components/pricing/pricing-cards.tsx:87 | the usage-block filter tests `feature.includes('document uploads')` (the label at line 92 does too) | a plan whose `document_uploads` value is 1. lib/plans.ts:39 formats it as "1 document upload", which fails the test, so it is listed as a regular feature with a check mark and not shown as "Documents: 1" | test for "document upload", the stem lib/plans.ts:123 and 257 use | not executed | PricingCards.SingularDocumentMissed | PricingCards.UsageLinesOfAmountsCorrected |
