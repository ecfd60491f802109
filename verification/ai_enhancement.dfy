/** The mobile AI-enhancement hook (android/hooks/useAIEnhancement.ts): a
    canned twenty-line rewrite of a description, a list of writing
    suggestions that depends on the category, and the hook's loading and
    error state. */
module AIEnhancement {
  import opened Wrappers
  import opened Text

  const EnhancedPrefix := "Enhanced with AI: "

  /** The lines of `generateEnhancedDescription`, before they are joined:
      three that depend on the product, then seventeen fixed ones. */
  function EnhancementLines(original: string, name: string, category: string): seq<string> {
    [ EnhancedPrefix + original,
      "",
      "Our AI analysis of \"" + name + "\" in the " + category + " category reveals:" ]
    + FixedLines
  }

  /** The seventeen lines that follow, in three blocks. */
  const FixedLines: seq<string> := BenefitLines + SeoLines + AppealLines

  const BenefitLines: seq<string> := [
    "",
    "\U{2728} Key Benefits:",
    "\U{2022} Premium quality materials and construction",
    "\U{2022} Innovative design features " + "for enhanced usability",
    "\U{2022} Excellent customer satisfaction ratings",
    "\U{2022} Competitive pricing in the market",
    "\U{2022} Reliable performance and durability" ]

  const SeoLines: seq<string> := [
    "",
    "\U{1F680} SEO Optimized Features:",
    "\U{2022} Enhanced keyword integration",
    "\U{2022} Improved readability and engagement",
    "\U{2022} Better conversion potential" ]

  const AppealLines: seq<string> := [
    "",
    "\U{1F4A1} Customer Appeal:",
    "\U{2022} Addresses common pain points",
    "\U{2022} Highlights unique selling propositions",
    "\U{2022} Builds trust and credibility" ]

  predicate NoBreakLines(lines: seq<string>) {
    forall k :: 0 <= k < |lines| ==> '\n' !in lines[k]
  }

  lemma BenefitLinesHaveNoBreak()
    ensures NoBreakLines(BenefitLines)
  {
    forall k | 0 <= k < |BenefitLines| ensures '\n' !in BenefitLines[k] {
      BenefitLineHasNoBreak(k);
    }
  }

  lemma BenefitLineHasNoBreak(k: nat)
    requires k < |BenefitLines|
    ensures '\n' !in BenefitLines[k]
  {
    if k == 2 {
      PremiumLineHasNoBreak();
    } else if k == 3 {
      NoLineBreakInConcat("\U{2022} Innovative design features ", "for enhanced usability");
    } else if k == 4 {
      ExcellentLineHasNoBreak();
    } else if k == 5 {
      CompetitiveLineHasNoBreak();
    } else if k == 6 {
      ReliableLineHasNoBreak();
    }
  }

  lemma PremiumLineHasNoBreak()
    ensures '\n' !in BenefitLines[2]
  {
    assert BenefitLines[2] == "\U{2022} Premium quality materials and construction";
  }

  lemma ExcellentLineHasNoBreak()
    ensures '\n' !in BenefitLines[4]
  {
    assert BenefitLines[4] == "\U{2022} Excellent customer satisfaction ratings";
  }

  lemma CompetitiveLineHasNoBreak()
    ensures '\n' !in BenefitLines[5]
  {
    assert BenefitLines[5] == "\U{2022} Competitive pricing in the market";
  }

  lemma ReliableLineHasNoBreak()
    ensures '\n' !in BenefitLines[6]
  {
    assert BenefitLines[6] == "\U{2022} Reliable performance and durability";
  }

  lemma SeoLinesHaveNoBreak()
    ensures NoBreakLines(SeoLines)
  {
    assert '\n' !in SeoLines[1];
    assert '\n' !in SeoLines[2];
    assert '\n' !in SeoLines[3];
    assert '\n' !in SeoLines[4];
  }

  lemma AppealLinesHaveNoBreak()
    ensures NoBreakLines(AppealLines)
  {
    assert '\n' !in AppealLines[1];
    assert '\n' !in AppealLines[2];
    assert '\n' !in AppealLines[3];
    assert '\n' !in AppealLines[4];
  }

  lemma FixedLinesHaveNoBreak()
    ensures |FixedLines| == 17
    ensures NoBreakLines(FixedLines)
  {
    BenefitLinesHaveNoBreak();
    SeoLinesHaveNoBreak();
    AppealLinesHaveNoBreak();
    forall k | 0 <= k < |FixedLines| ensures '\n' !in FixedLines[k] {
      if k < 7 {
        assert FixedLines[k] == BenefitLines[k];
      } else if k < 12 {
        assert FixedLines[k] == SeoLines[k - 7];
      } else {
        assert FixedLines[k] == AppealLines[k - 12];
      }
    }
  }

  /** `enhancements.join('\n')` */
  function EnhancedDescription(original: string, name: string, category: string): string {
    Join(EnhancementLines(original, name, category), '\n')
  }

  /** The rewrite opens with "Enhanced with AI: " and the original text. */
  lemma EnhancedDescriptionStartsWithOriginal(original: string, name: string, category: string)
    ensures |EnhancedPrefix + original| <= |EnhancedDescription(original, name, category)|
    ensures EnhancedDescription(original, name, category)[..|EnhancedPrefix + original|] == EnhancedPrefix + original
  {
    JoinStartsWithFirst(EnhancementLines(original, name, category), '\n');
  }

  /** Read back line by line, the rewrite has twenty lines; the third names the
      product and its category. This needs inputs without line breaks, since
      a line break in them would split a line in two. */
  lemma EnhancedDescriptionLines(original: string, name: string, category: string)
    requires '\n' !in original && '\n' !in name && '\n' !in category
    ensures Split(EnhancedDescription(original, name, category), '\n') == EnhancementLines(original, name, category)
    ensures |Split(EnhancedDescription(original, name, category), '\n')| == 20
    ensures Split(EnhancedDescription(original, name, category), '\n')[0] == EnhancedPrefix + original
    ensures Split(EnhancedDescription(original, name, category), '\n')[2] ==
      "Our AI analysis of \"" + name + "\" in the " + category + " category reveals:"
  {
    var lines := EnhancementLines(original, name, category);
    var a, b, c := "Our AI analysis of \"", "\" in the ", " category reveals:";
    NoLineBreakInConcat(EnhancedPrefix, original);
    NoLineBreakInConcat(a, name);
    NoLineBreakInConcat(a + name, b);
    NoLineBreakInConcat(a + name + b, category);
    NoLineBreakInConcat(a + name + b + category, c);
    FixedLinesHaveNoBreak();
    assert forall k :: 3 <= k < |lines| ==> lines[k] == FixedLines[k - 3];
    SplitJoin(lines, '\n');
  }

  lemma NoLineBreakInConcat(x: string, y: string)
    requires '\n' !in x && '\n' !in y
    ensures '\n' !in x + y
  {
  }

  const BaseSuggestions: seq<string> := [
    "Add specific technical specifications",
    "Include customer testimonials or reviews",
    "Highlight warranty and support information",
    "Add comparison with competitors",
    "Include usage tips and best practices" ]

  /** The categories with suggestions of their own. */
  const KnownCategories: seq<string> := ["Electronics", "Clothing", "Home & Garden", "Sports"]

  /** The names every object inherits from `Object.prototype`. Looking one of
      them up in `categorySpecific` finds a function (or, for `__proto__`,
      an object): truthy, so `|| []` keeps it, and not iterable, so the
      spread throws. */
  const InheritedKeys: seq<string> := [
    "constructor", "hasOwnProperty", "isPrototypeOf", "propertyIsEnumerable",
    "toLocaleString", "toString", "valueOf", "__proto__",
    "__defineGetter__", "__defineSetter__", "__lookupGetter__", "__lookupSetter__" ]

  /** `categorySpecific[category] || []`, with `None` where spreading the
      looked-up value throws. */
  function CategorySuggestions(category: string): (r: Option<seq<string>>)
    ensures r.None? <==> category in InheritedKeys
    ensures category in KnownCategories ==> r.Some? && |r.value| == 3
    ensures category !in KnownCategories && category !in InheritedKeys ==> r == Some([])
  {
    if category == "Electronics" then
      Some(["Add compatibility information", "Include power requirements", "Mention connectivity options"])
    else if category == "Clothing" then
      Some(["Add size and fit information", "Include care instructions", "Mention material composition"])
    else if category == "Home & Garden" then
      Some(["Add installation requirements", "Include maintenance tips", "Mention safety considerations"])
    else if category == "Sports" then
      Some(["Add skill level requirements", "Include safety guidelines", "Mention training recommendations"])
    else if category in InheritedKeys then None
    else Some([])
  }

  /** `generateSuggestions`: the five general suggestions in order, then
      three for a known category and none for any other, except that an
      inherited key makes the spread throw. */
  function Suggestions(name: string, category: string): (r: Option<seq<string>>)
    ensures r.None? <==> category in InheritedKeys
    ensures r.Some? ==> |r.value| == if category in KnownCategories then 8 else 5
    ensures r.Some? ==> r.value[..5] == BaseSuggestions
    ensures r.Some? ==> Some(r.value[5..]) == CategorySuggestions(category)
  {
    match CategorySuggestions(category)
    case None => None
    case Some(specific) => Some(BaseSuggestions + specific)
  }

  /** The mobile catalog's "Accessories" category gets only the general
      suggestions. */
  lemma AccessoriesGetsBaseOnly(name: string)
    ensures Suggestions(name, "Accessories") == Some(BaseSuggestions)
  {
    assert "Accessories" !in InheritedKeys;
    assert BaseSuggestions + [] == BaseSuggestions;
  }

  datatype EnhancementResult = EnhancementResult(
    enhancedDescription: string,
    suggestions: seq<string>,
    confidence: real)

  const BlankDescriptionError := "Please provide a description to enhance"
  const EnhanceFailedError := "Failed to enhance description. Please try again."

  /** `Math.random() * 0.3 + 0.7` for a draw in [0, 1). */
  function Confidence(draw: real): (r: real)
    requires 0.0 <= draw < 1.0
    ensures 0.7 <= r < 1.0
  {
    draw * 0.3 + 0.7
  }

  class AIEnhancementHook {
    var isLoading: bool
    var error: Option<string>

    constructor ()
      ensures !isLoading && error.None?
    {
      isLoading := false;
      error := None;
    }

    /** `enhanceDescription`, with the two-second wait taken as immediate;
        `draw` is the value `Math.random()` returns and `failed` says
        whether the awaited call threw. */
    method EnhanceDescription(original: string, name: string, category: string, draw: real, failed: bool)
      returns (r: Option<EnhancementResult>)
      requires 0.0 <= draw < 1.0
      modifies this
      ensures IsBlank(original) ==>
        r.None? && error == Some(BlankDescriptionError) && isLoading == old(isLoading)
      ensures !IsBlank(original) ==> !isLoading
      ensures !IsBlank(original) && (failed || category in InheritedKeys) ==>
        r.None? && error == Some(EnhanceFailedError)
      ensures !IsBlank(original) && !failed && category !in InheritedKeys ==>
        error.None? &&
        r == Some(EnhancementResult(EnhancedDescription(original, name, category),
                                    Suggestions(name, category).value, Confidence(draw)))
    {
      if IsBlank(original) {
        error := Some(BlankDescriptionError);
        return None;
      }
      isLoading := true;
      error := None;
      var enhanced := EnhancedDescription(original, name, category);
      var suggestions := Suggestions(name, category);
      if failed || suggestions.None? {
        error := Some(EnhanceFailedError);
        r := None;
      } else {
        r := Some(EnhancementResult(enhanced, suggestions.value, Confidence(draw)));
      }
      isLoading := false;
    }

    method ClearError()
      modifies this`error
      ensures error.None?
    {
      error := None;
    }
  }
}
