/**
 * The selection logic of the `PricingCards` component of
 * components/pricing/pricing-cards.tsx: the billing toggle, the split of a
 * plan's benefits into the usage block and the regular feature list, the
 * usage lines, the price lines, the tier notice and the three visible cards.
 * The cards show the plan records `getPlansFromDatabase` builds.
 */
module PricingCards {
  import opened Types
  import opened Ascii
  import opened PlansLib

  // ---------------------------------------------------------------------
  // Billing period

  /** The signed-in user's subscription, as far as the billing default reads it. */
  datatype UserSubscriptionPlan = UserSubscriptionPlan(stripeCustomerId: Option<string>, interval: string)

  /** The truthiness of an optional string: missing and empty are falsy. */
  predicate HasText(s: Option<string>)
  {
    s.Some? && s.value != ""
  }

  /** Lines 24-27. */
  function IsYearlyDefault(subscriptionPlan: Option<UserSubscriptionPlan>): (r: bool)
    ensures !r <==> subscriptionPlan.Some? && HasText(subscriptionPlan.value.stripeCustomerId) && subscriptionPlan.value.interval != "year"
  {
    if subscriptionPlan.None? || !HasText(subscriptionPlan.value.stripeCustomerId) then true
    else subscriptionPlan.value.interval == "year"
  }

  /** The `isYearly` state of lines 28-33. */
  class Billing {
    var isYearly: bool

    /** Line 28: yearly billing unless the user pays monthly. */
    constructor (subscriptionPlan: Option<UserSubscriptionPlan>)
      ensures isYearly == IsYearlyDefault(subscriptionPlan)
    {
      isYearly := IsYearlyDefault(subscriptionPlan);
    }

    /** `toggleBilling` (lines 31-33). */
    method ToggleBilling()
      modifies this
      ensures isYearly == !old(isYearly)
    {
      isYearly := !isYearly;
    }
  }

  /** Two toggles restore the billing period. */
  method ToggleTwice(billing: Billing)
    modifies billing
    ensures billing.isYearly == old(billing.isYearly)
  {
    billing.ToggleBilling();
    billing.ToggleBilling();
  }

  // ---------------------------------------------------------------------
  // Benefit partition

  /**
   * The documents mark the filters of lines 85-89 and 120-125 and the label
   * of line 92 test for, as written: the plural "document uploads".
   */
  const AsWrittenMark := "document uploads"

  /** The mark that also catches the singular amount "1 document upload". */
  const CorrectedMark := "document upload"

  /** The marks of the three usage kinds, with the documents mark as a parameter. */
  predicate IsUsageFeatureFor(feature: string, documents: string)
  {
    Contains(feature, "AI conversations") || Contains(feature, documents) || Contains(feature, "chatbot")
  }

  /** The filter of lines 85-89 as written. */
  predicate IsUsageFeatureAsWritten(feature: string)
  {
    IsUsageFeatureFor(feature, AsWrittenMark)
  }

  /** The benefits of the usage block, in order (lines 84-89). */
  function UsageBlockFor(benefits: seq<string>, documents: string): seq<string>
  {
    if benefits == [] then []
    else (if IsUsageFeatureFor(benefits[0], documents) then [benefits[0]] else []) + UsageBlockFor(benefits[1..], documents)
  }

  /** The regular feature list, in order (lines 120-125). */
  function RegularFeaturesFor(benefits: seq<string>, documents: string): seq<string>
  {
    if benefits == [] then []
    else (if IsUsageFeatureFor(benefits[0], documents) then [] else [benefits[0]]) + RegularFeaturesFor(benefits[1..], documents)
  }

  /**
   * The two filters are complements: together the lists hold every benefit
   * exactly as often as the plan does, the usage block the usage benefits
   * and the regular list the rest.
   */
  lemma {:induction false} PartitionFor(benefits: seq<string>, documents: string)
    ensures multiset(UsageBlockFor(benefits, documents)) + multiset(RegularFeaturesFor(benefits, documents)) == multiset(benefits)
    ensures forall b :: b in UsageBlockFor(benefits, documents) <==> b in benefits && IsUsageFeatureFor(b, documents)
    ensures forall b :: b in RegularFeaturesFor(benefits, documents) <==> b in benefits && !IsUsageFeatureFor(b, documents)
  {
    if benefits != [] {
      PartitionFor(benefits[1..], documents);
      assert benefits == [benefits[0]] + benefits[1..];
    }
  }

  /** Filtering a list with a known head. */
  lemma FiltersCons(b: string, rest: seq<string>, documents: string)
    ensures UsageBlockFor([b] + rest, documents) == (if IsUsageFeatureFor(b, documents) then [b] else []) + UsageBlockFor(rest, documents)
    ensures RegularFeaturesFor([b] + rest, documents) == (if IsUsageFeatureFor(b, documents) then [] else [b]) + RegularFeaturesFor(rest, documents)
  {
    assert ([b] + rest)[1..] == rest;
  }

  /**
   * An amount of one document fails the filter and the label as written: it
   * lands among the regular features and the usage block shows no line for it.
   */
  lemma SingularDocumentMissed()
    ensures FormatUsageLimit("document_uploads", JNum(1)) == "1 document upload"
    ensures !IsUsageFeatureAsWritten("1 document upload")
    ensures RegularFeaturesFor(["1 document upload"], AsWrittenMark) == ["1 document upload"]
    ensures UsageLinesFor(["1 document upload"], AsWrittenMark) == []
    ensures UsageLabelFor("1 document upload", AsWrittenMark) == ""
    ensures UsageBlockFor(["1 document upload"], CorrectedMark) == ["1 document upload"]
  {
    SingularFormat();
    SingularNotPlural();
    SingularOtherKinds();
    SingularMatches();
    FiltersCons("1 document upload", [], AsWrittenMark);
    FiltersCons("1 document upload", [], CorrectedMark);
  }

  lemma SingularFormat()
    ensures FormatUsageLimit("document_uploads", JNum(1)) == "1 document upload"
  {
    assert IntToString(1) == "1";
  }

  lemma SingularNotPlural()
    ensures !Contains("1 document upload", AsWrittenMark)
  {
    var s, t := "1 document upload", AsWrittenMark;
    forall i | 0 <= i <= |s| - |t|
      ensures !OccursAt(s, t, i)
    {
      assert s[i..i + |t|][0] == s[i] != t[0];
    }
  }

  /** The singular amount names neither conversations nor chatbots. */
  lemma SingularOtherKinds()
    ensures !Contains("1 document upload", "AI conversations")
    ensures !Contains("1 document upload", "chatbot")
  {
    MissingCharNotContained("1 document upload", "AI conversations", 'A');
    MissingCharNotContained("1 document upload", "chatbot", 'h');
  }

  lemma SingularMatches()
    ensures Contains("1 document upload", CorrectedMark)
  {
    assert "1 " + CorrectedMark + "" == "1 document upload";
    ContainsInfix("1 ", CorrectedMark, "");
  }

  /**
   * Every non-empty amount the plan builder formats for conversations,
   * chatbots or document uploads belongs to the usage block of the corrected
   * filter.
   */
  lemma UsageAmountsInBlock(name: string, value: Json)
    requires name == "monthly_conversations" || name == "chatbots" || name == "document_uploads"
    requires FormatUsageLimit(name, value) != ""
    ensures IsUsageFeatureFor(FormatUsageLimit(name, value), CorrectedMark)
  {
    var val := GetValue(value).value;
    if name == "monthly_conversations" {
      ConversationsInBlock(val);
    } else if name == "chatbots" {
      CountedHolds(val, "chatbot");
    } else {
      CountedHolds(val, CorrectedMark);
    }
  }

  lemma ConversationsInBlock(val: string)
    ensures IsUsageFeatureFor(val + " AI conversations/month", CorrectedMark)
  {
    assert val + " AI conversations/month" == val + " " + "AI conversations" + "/month";
    ContainsInfix(val + " ", "AI conversations", "/month");
  }

  /** A counted amount holds its unit. */
  lemma CountedHolds(val: string, unit: string)
    ensures Contains(Counted(val, unit), unit)
  {
    if val == "unlimited" {
      ContainsInfix("Unlimited ", unit, "s");
    } else {
      ContainsInfix(val + " ", unit, if val == "1" then "" else "s");
    }
  }

  // ---------------------------------------------------------------------
  // Usage lines

  /** One line of the usage block: `label: value unit`. */
  datatype UsageLine = UsageLine(caption: string, amount: string, unit: string)

  /** Lines 91-93, with the documents mark as a parameter; line 92 tests `AsWrittenMark`. */
  function UsageLabelFor(feature: string, documents: string): string
  {
    if Contains(feature, "AI conversations") then "Conversations"
    else if Contains(feature, documents) then "Documents"
    else if Contains(feature, "chatbot") then "Chatbots"
    else ""
  }

  /**
   * With the same documents mark in the filter and the label, a benefit is in
   * the usage block exactly when its label is not empty, and the label is
   * "Conversations" exactly when the unit is "/month".
   */
  lemma UsageLabelInBlock(feature: string, documents: string)
    ensures IsUsageFeatureFor(feature, documents) <==> UsageLabelFor(feature, documents) != ""
    ensures UsageLabelFor(feature, documents) in ["Conversations", "Documents", "Chatbots", ""]
    ensures UsageLabelFor(feature, documents) == "Conversations" <==> UsageUnit(feature) == "/month"
  {
  }

  /** Line 95. */
  function UsageUnit(feature: string): string
  {
    if Contains(feature, "AI conversations") then "/month" else ""
  }

  /** The longest prefix of decimal digits. */
  function DigitPrefix(s: string): (r: string)
    ensures |r| <= |s| && r == s[..|r|]
    ensures forall k :: 0 <= k < |r| ==> IsDigit(r[k])
    ensures |r| == |s| || !IsDigit(s[|r|])
  {
    if s == [] || !IsDigit(s[0]) then "" else [s[0]] + DigitPrefix(s[1..])
  }

  /** Where the first digit is, or `|s|` when there is none. */
  function FirstDigitIndex(s: string): (i: nat)
    ensures i <= |s|
    ensures forall k :: 0 <= k < i ==> !IsDigit(s[k])
    ensures i < |s| ==> IsDigit(s[i])
  {
    if s == [] || IsDigit(s[0]) then 0
    else
      assert forall k :: 1 <= k < |s| ==> s[k] == s[1..][k - 1];
      1 + FirstDigitIndex(s[1..])
  }

  /** `feature.match(/\d+/)?.[0] || ''` (line 94): the leftmost match, as long as it goes. */
  function FirstDigitRun(s: string): string
  {
    DigitPrefix(s[FirstDigitIndex(s)..])
  }

  /** The value is empty exactly when the feature text has no digit. */
  lemma FirstDigitRunEmpty(s: string)
    ensures FirstDigitRun(s) == "" <==> forall k :: 0 <= k < |s| ==> !IsDigit(s[k])
  {
    var i := FirstDigitIndex(s);
    if i < |s| {
      var t := s[i..];
      assert t[0] == s[i];
      assert DigitPrefix(t) != "";
    }
  }

  /** A nonempty value is the maximal run of digits that starts at the first digit. */
  lemma FirstDigitRunSpec(s: string)
    requires FirstDigitRun(s) != ""
    ensures var r := FirstDigitRun(s);
      var i := FirstDigitIndex(s);
      && i + |r| <= |s| && s[i..i + |r|] == r
      && (forall k :: 0 <= k < i ==> !IsDigit(s[k]))
      && (forall k :: 0 <= k < |r| ==> IsDigit(r[k]))
      && (i + |r| == |s| || !IsDigit(s[i + |r|]))
  {
    var i := FirstDigitIndex(s);
    var t := s[i..];
    var r := DigitPrefix(t);
    assert t[..|r|] == s[i..i + |r|];
    if i + |r| < |s| {
      assert t[|r|] == s[i + |r|];
    }
  }

  /** A number followed by a non-digit shows as that number. */
  lemma {:induction false} DigitRunOfNumber(digits: string, rest: string)
    requires digits != [] && forall k :: 0 <= k < |digits| ==> IsDigit(digits[k])
    requires rest == [] || !IsDigit(rest[0])
    ensures FirstDigitRun(digits + rest) == digits
  {
    DigitPrefixOf(digits, rest);
  }

  lemma {:induction false} DigitPrefixOf(digits: string, rest: string)
    requires forall k :: 0 <= k < |digits| ==> IsDigit(digits[k])
    requires rest == [] || !IsDigit(rest[0])
    ensures DigitPrefix(digits + rest) == digits
  {
    if digits != [] {
      assert (digits + rest)[1..] == digits[1..] + rest;
      DigitPrefixOf(digits[1..], rest);
    } else {
      assert digits + rest == rest;
    }
  }

  /** Lines 91-95, with the documents mark as a parameter. */
  function UsageLineFor(feature: string, documents: string): UsageLine
  {
    UsageLine(UsageLabelFor(feature, documents), FirstDigitRun(feature), UsageUnit(feature))
  }

  /** The usage block's lines (lines 84-103); the source's are `UsageLinesFor(benefits, AsWrittenMark)`. */
  function UsageLinesFor(benefits: seq<string>, documents: string): (r: seq<UsageLine>)
    ensures |r| == |UsageBlockFor(benefits, documents)|
    ensures forall i :: 0 <= i < |r| ==> r[i] == UsageLineFor(UsageBlockFor(benefits, documents)[i], documents)
  {
    var block := UsageBlockFor(benefits, documents);
    seq(|block|, i requires 0 <= i < |block| => UsageLineFor(block[i], documents))
  }

  /** The two documents marks. */
  predicate IsDocumentsMark(documents: string)
  {
    documents == AsWrittenMark || documents == CorrectedMark
  }

  /** A conversations amount from the database shows as "Conversations: <n>/month" under either mark. */
  lemma ConversationsLine(n: nat, documents: string)
    ensures IsUsageFeatureFor(FormatUsageLimit("monthly_conversations", JNum(n)), documents)
    ensures UsageLineFor(FormatUsageLimit("monthly_conversations", JNum(n)), documents) == UsageLine("Conversations", NatToString(n), "/month")
  {
    ConversationsFormat(n);
    ConversationsText(NatToString(n), documents);
  }

  lemma ConversationsFormat(n: nat)
    ensures FormatUsageLimit("monthly_conversations", JNum(n)) == NatToString(n) + " AI conversations/month"
  {
  }

  lemma ConversationsText(digits: string, documents: string)
    requires digits != [] && forall k :: 0 <= k < |digits| ==> IsDigit(digits[k])
    ensures IsUsageFeatureFor(digits + " AI conversations/month", documents)
    ensures UsageLineFor(digits + " AI conversations/month", documents) == UsageLine("Conversations", digits, "/month")
  {
    assert digits + " AI conversations/month" == digits + " " + "AI conversations" + "/month";
    ContainsInfix(digits + " ", "AI conversations", "/month");
    DigitRunOfNumber(digits, " AI conversations/month");
  }

  /** "s" unless the amount is "1". */
  function PluralTail(val: string): string
  {
    if val == "1" then "" else "s"
  }

  /** A chatbot amount from the database shows as "Chatbots: <n>" under either documents mark. */
  lemma ChatbotsLine(n: nat, documents: string)
    requires IsDocumentsMark(documents)
    ensures IsUsageFeatureFor(FormatUsageLimit("chatbots", JNum(n)), documents)
    ensures UsageLineFor(FormatUsageLimit("chatbots", JNum(n)), documents) == UsageLine("Chatbots", NatToString(n), "")
  {
    ChatbotsFormat(n);
    ChatbotsText(NatToString(n), PluralTail(NatToString(n)), documents);
  }

  lemma ChatbotsFormat(n: nat)
    ensures FormatUsageLimit("chatbots", JNum(n)) == NatToString(n) + (" chatbot" + PluralTail(NatToString(n)))
  {
    var digits := NatToString(n);
    assert digits != "unlimited" by {
      assert IsDigit(digits[0]);
    }
    assert Counted(digits, "chatbot") == digits + (" chatbot" + PluralTail(digits));
  }

  lemma ChatbotsText(digits: string, tail: string, documents: string)
    requires digits != [] && forall k :: 0 <= k < |digits| ==> IsDigit(digits[k])
    requires tail == "" || tail == "s"
    requires IsDocumentsMark(documents)
    ensures IsUsageFeatureFor(digits + (" chatbot" + tail), documents)
    ensures UsageLineFor(digits + (" chatbot" + tail), documents) == UsageLine("Chatbots", digits, "")
  {
    assert digits + (" chatbot" + tail) == digits + " " + "chatbot" + tail;
    ContainsInfix(digits + " ", "chatbot", tail);
    NoLetterAmount(digits, " chatbot" + tail, "AI conversations", 'A');
    NoLetterAmount(digits, " chatbot" + tail, documents, 'd');
    DigitRunOfNumber(digits, " chatbot" + tail);
  }

  /**
   * A document amount from the database, as written: "Documents: <n>" for
   * every amount but 1, which the filter and the label miss.
   */
  lemma DocumentsLine(n: nat)
    ensures n != 1 ==> IsUsageFeatureAsWritten(FormatUsageLimit("document_uploads", JNum(n)))
    ensures n != 1 ==> UsageLineFor(FormatUsageLimit("document_uploads", JNum(n)), AsWrittenMark) == UsageLine("Documents", NatToString(n), "")
    ensures n == 1 ==> !IsUsageFeatureAsWritten(FormatUsageLimit("document_uploads", JNum(n)))
  {
    DocumentsFormat(n);
    if n == 1 {
      SingularDocumentMissed();
    } else {
      var digits := NatToString(n);
      assert digits != "1";
      DocumentsText(digits, "s", AsWrittenMark);
    }
  }

  /** With the corrected mark every document amount shows as "Documents: <n>". */
  lemma DocumentsLineCorrected(n: nat)
    ensures IsUsageFeatureFor(FormatUsageLimit("document_uploads", JNum(n)), CorrectedMark)
    ensures UsageLineFor(FormatUsageLimit("document_uploads", JNum(n)), CorrectedMark) == UsageLine("Documents", NatToString(n), "")
  {
    DocumentsFormat(n);
    DocumentsText(NatToString(n), PluralTail(NatToString(n)), CorrectedMark);
  }

  lemma DocumentsFormat(n: nat)
    ensures FormatUsageLimit("document_uploads", JNum(n)) == NatToString(n) + (" document upload" + PluralTail(NatToString(n)))
  {
    var digits := NatToString(n);
    assert digits != "unlimited" by {
      assert IsDigit(digits[0]);
    }
    assert Counted(digits, "document upload") == digits + (" document upload" + PluralTail(digits));
  }

  /** A document amount shows as "Documents: <digits>" whenever its text holds the mark. */
  lemma DocumentsText(digits: string, tail: string, documents: string)
    requires digits != [] && forall k :: 0 <= k < |digits| ==> IsDigit(digits[k])
    requires (documents == CorrectedMark && (tail == "" || tail == "s")) || (documents == AsWrittenMark && tail == "s")
    ensures IsUsageFeatureFor(digits + (" document upload" + tail), documents)
    ensures UsageLineFor(digits + (" document upload" + tail), documents) == UsageLine("Documents", digits, "")
  {
    DocumentsTextLabel(digits, tail, documents);
    NoLetterAmount(digits, " document upload" + tail, "AI conversations", 'A');
    DigitRunOfNumber(digits, " document upload" + tail);
  }

  lemma DocumentsTextLabel(digits: string, tail: string, documents: string)
    requires forall k :: 0 <= k < |digits| ==> IsDigit(digits[k])
    requires (documents == CorrectedMark && (tail == "" || tail == "s")) || (documents == AsWrittenMark && tail == "s")
    ensures Contains(digits + (" document upload" + tail), documents)
  {
    if documents == CorrectedMark {
      assert digits + (" document upload" + tail) == digits + " " + CorrectedMark + tail;
      ContainsInfix(digits + " ", CorrectedMark, tail);
    } else {
      assert digits + (" document upload" + tail) == digits + " " + AsWrittenMark + "";
      ContainsInfix(digits + " ", AsWrittenMark, "");
    }
  }

  /** A digit string followed by text without `c` does not hold a pattern with `c`. */
  lemma NoLetterAmount(digits: string, rest: string, pattern: string, c: char)
    requires forall k :: 0 <= k < |digits| ==> IsDigit(digits[k])
    requires c in pattern && c !in rest && !IsDigit(c)
    ensures !Contains(digits + rest, pattern)
  {
    assert c !in digits + rest by {
      forall k | 0 <= k < |digits + rest|
        ensures (digits + rest)[k] != c
      {
        if k >= |digits| {
          assert (digits + rest)[k] == rest[k - |digits|];
        }
      }
    }
    MissingCharNotContained(digits + rest, pattern, c);
  }

  /** The three usage amounts of a card, in the order the plan builder sorts them. */
  function UsageAmounts(conversations: nat, documents: nat, chatbots: nat): seq<string>
  {
    [FormatUsageLimit("monthly_conversations", JNum(conversations)),
     FormatUsageLimit("document_uploads", JNum(documents)),
     FormatUsageLimit("chatbots", JNum(chatbots))]
  }

  /**
   * A card with the three usage amounts, as written: the usage block shows the
   * conversations and chatbot lines, and the documents line unless there is
   * exactly one document, which then heads the regular features instead.
   */
  lemma UsageLinesOfAmounts(conversations: nat, documents: nat, chatbots: nat)
    ensures var b := UsageAmounts(conversations, documents, chatbots);
      && UsageLinesFor(b, AsWrittenMark) ==
           [UsageLine("Conversations", NatToString(conversations), "/month")] +
           (if documents == 1 then [] else [UsageLine("Documents", NatToString(documents), "")]) +
           [UsageLine("Chatbots", NatToString(chatbots), "")]
      && RegularFeaturesFor(b, AsWrittenMark) == (if documents == 1 then ["1 document upload"] else [])
  {
    var b := UsageAmounts(conversations, documents, chatbots);
    ConversationsLine(conversations, AsWrittenMark);
    DocumentsLine(documents);
    ChatbotsLine(chatbots, AsWrittenMark);
    CardLines(b, AsWrittenMark);
    if documents == 1 {
      SingularFormat();
    }
  }

  /** The usage lines and regular features of three benefits whose first and last are usage benefits. */
  lemma CardLines(b: seq<string>, documents: string)
    requires |b| == 3 && IsUsageFeatureFor(b[0], documents) && IsUsageFeatureFor(b[2], documents)
    ensures IsUsageFeatureFor(b[1], documents) ==>
      && UsageLinesFor(b, documents) == [UsageLineFor(b[0], documents), UsageLineFor(b[1], documents), UsageLineFor(b[2], documents)]
      && RegularFeaturesFor(b, documents) == []
    ensures !IsUsageFeatureFor(b[1], documents) ==>
      && UsageLinesFor(b, documents) == [UsageLineFor(b[0], documents), UsageLineFor(b[2], documents)]
      && RegularFeaturesFor(b, documents) == [b[1]]
  {
    AmountsBlock(b, documents);
    if IsUsageFeatureFor(b[1], documents) {
      assert UsageBlockFor(b, documents) == [b[0], b[1], b[2]];
      LinesOfThree(b, documents, b[0], b[1], b[2]);
    } else {
      assert UsageBlockFor(b, documents) == [b[0], b[2]];
      LinesOfTwo(b, documents, b[0], b[2]);
    }
  }

  lemma LinesOfTwo(benefits: seq<string>, documents: string, x: string, y: string)
    requires UsageBlockFor(benefits, documents) == [x, y]
    ensures UsageLinesFor(benefits, documents) == [UsageLineFor(x, documents), UsageLineFor(y, documents)]
  {
  }

  lemma LinesOfThree(benefits: seq<string>, documents: string, x: string, y: string, z: string)
    requires UsageBlockFor(benefits, documents) == [x, y, z]
    ensures UsageLinesFor(benefits, documents) == [UsageLineFor(x, documents), UsageLineFor(y, documents), UsageLineFor(z, documents)]
  {
  }

  /** The filters of the three amounts, when the first and last are usage benefits. */
  lemma AmountsBlock(b: seq<string>, documents: string)
    requires |b| == 3 && IsUsageFeatureFor(b[0], documents) && IsUsageFeatureFor(b[2], documents)
    ensures UsageBlockFor(b, documents) == [b[0]] + (if IsUsageFeatureFor(b[1], documents) then [b[1]] else []) + [b[2]]
    ensures RegularFeaturesFor(b, documents) == if IsUsageFeatureFor(b[1], documents) then [] else [b[1]]
  {
    assert b == [b[0], b[1], b[2]];
    ThreeFilters(b[0], b[1], b[2], documents);
  }

  /** With the corrected mark the card shows all three usage lines and no amount among the regular features. */
  lemma UsageLinesOfAmountsCorrected(conversations: nat, documents: nat, chatbots: nat)
    ensures var b := UsageAmounts(conversations, documents, chatbots);
      && UsageLinesFor(b, CorrectedMark) ==
           [UsageLine("Conversations", NatToString(conversations), "/month"),
            UsageLine("Documents", NatToString(documents), ""),
            UsageLine("Chatbots", NatToString(chatbots), "")]
      && RegularFeaturesFor(b, CorrectedMark) == []
  {
    var b := UsageAmounts(conversations, documents, chatbots);
    ConversationsLine(conversations, CorrectedMark);
    DocumentsLineCorrected(documents);
    ChatbotsLine(chatbots, CorrectedMark);
    CardLines(b, CorrectedMark);
  }

  /** The filters of a three-benefit list. */
  lemma ThreeFilters(x: string, y: string, z: string, documents: string)
    ensures UsageBlockFor([x, y, z], documents) ==
      (if IsUsageFeatureFor(x, documents) then [x] else []) +
      (if IsUsageFeatureFor(y, documents) then [y] else []) +
      (if IsUsageFeatureFor(z, documents) then [z] else [])
    ensures RegularFeaturesFor([x, y, z], documents) ==
      (if IsUsageFeatureFor(x, documents) then [] else [x]) +
      (if IsUsageFeatureFor(y, documents) then [] else [y]) +
      (if IsUsageFeatureFor(z, documents) then [] else [z])
  {
    FiltersCons(x, [y, z], documents);
    FiltersCons(y, [z], documents);
    FiltersCons(z, [], documents);
    assert [x, y, z] == [x] + [y, z];
    assert [y, z] == [y] + [z];
  }

  // ---------------------------------------------------------------------
  // Price lines

  /** Which annual-or-monthly note the card prints under the price. */
  datatype ChargeNote = AnnualCharge | MonthlyCharge

  /** Which price lines a card shows: the struck-through monthly price, and the charge note. */
  datatype PriceView = PriceView(strikethrough: bool, charge: Option<ChargeNote>)

  /** Lines 54-76. */
  function PriceViewOf(isYearly: bool, monthly: real): PriceView
  {
    PriceView(isYearly && monthly > 0.0, if monthly > 0.0 then Some(if isYearly then AnnualCharge else MonthlyCharge) else None)
  }

  /**
   * A free plan shows neither line; a paid plan always shows the note,
   * which follows the billing period, and the struck-through price only when
   * billed yearly.
   */
  lemma PriceViewCases(isYearly: bool, monthly: real)
    ensures monthly <= 0.0 ==> PriceViewOf(isYearly, monthly) == PriceView(false, None)
    ensures PriceViewOf(isYearly, monthly).strikethrough <==> isYearly && monthly > 0.0
    ensures monthly > 0.0 ==> PriceViewOf(isYearly, monthly).charge == Some(if isYearly then AnnualCharge else MonthlyCharge)
    ensures PriceViewOf(isYearly, monthly).charge.Some? == PriceViewOf(!isYearly, monthly).charge.Some?
    ensures PriceViewOf(isYearly, monthly).strikethrough <==> PriceViewOf(isYearly, monthly).charge == Some(AnnualCharge)
  {
  }

  // ---------------------------------------------------------------------
  // Tier notice and visible cards

  /** Lines 110-116. */
  function InclusionNotice(title: string): Option<string>
  {
    if title == "Growth" then Some("Includes everything from Starter plan")
    else if title == "Pro" then Some("Includes everything from Growth plan")
    else None
  }

  /** The notice names the tier below, and the lowest tier has none, for the titles the plan builder gives. */
  lemma NoticeNamesLowerTier()
    ensures InclusionNotice(Capitalize(PlanOrder[0])) == None
    ensures InclusionNotice(Capitalize(PlanOrder[1])) == Some("Includes everything from " + Capitalize(PlanOrder[0]) + " plan")
    ensures InclusionNotice(Capitalize(PlanOrder[2])) == Some("Includes everything from " + Capitalize(PlanOrder[1]) + " plan")
  {
    StarterTitle();
    GrowthTitle();
    ProTitle();
    NoticeTexts();
  }

  lemma StarterTitle()
    ensures Capitalize("starter") == "Starter"
  {
  }

  lemma GrowthTitle()
    ensures Capitalize("growth") == "Growth"
  {
  }

  lemma ProTitle()
    ensures Capitalize("pro") == "Pro"
  {
  }

  lemma NoticeTexts()
    ensures "Includes everything from " + "Starter" + " plan" == "Includes everything from Starter plan"
    ensures "Includes everything from " + "Growth" + " plan" == "Includes everything from Growth plan"
  {
  }

  /** `plans.slice(0, 3)` (line 213). */
  function VisibleCards(plans: seq<SubscriptionPlan>): (r: seq<SubscriptionPlan>)
    ensures |r| == if |plans| < 3 then |plans| else 3
    ensures r == plans[..|r|]
  {
    if |plans| < 3 then plans else plans[..3]
  }

  /** The plan builder yields at most three records, so every one of them gets a card. */
  lemma AllRecordsVisible(plans: seq<PlanConfig>, features: seq<Feature>)
    ensures VisibleCards(PlanRecords(plans, features)) == PlanRecords(plans, features)
  {
  }
}
