/**
 * The four coverage tiers, the classifier that maps an exposure onto them, and
 * the two static narrative lookups keyed on a tier's label (the calculator's
 * recommendation box and the summary report's recommendation section).
 */
module Tiers {
  import opened Wrappers

  datatype Tier = Tier1 | Tier2 | Tier3 | Tier4
  {
    /** Position of the tier in ascending order of exposure. */
    function Rank(): nat {
      match this
      case Tier1 => 1
      case Tier2 => 2
      case Tier3 => 3
      case Tier4 => 4
    }

    /** The label string the classifier returns and the client record stores. */
    function Label(): string {
      match this
      case Tier1 => "Tier 1: Up to $100,000"
      case Tier2 => "Tier 2: $100,000 - $300,000"
      case Tier3 => "Tier 3: $300,000 - $500,000"
      case Tier4 => "Tier 4: $500,000+"
    }
  }

  /** Inclusive upper bounds of tiers 1, 2 and 3; tier 4 is unbounded. */
  const Bounds: seq<real> := [100000.0, 300000.0, 500000.0]

  /** `getInsuranceTier`: the first band whose inclusive upper bound the exposure does not exceed. */
  function GetInsuranceTier(exposure: real): (t: Tier)
    ensures t == Tier1 <==> exposure <= 100000.0
    ensures t == Tier2 <==> 100000.0 < exposure <= 300000.0
    ensures t == Tier3 <==> 300000.0 < exposure <= 500000.0
    ensures t == Tier4 <==> 500000.0 < exposure
  {
    if exposure <= 100000.0 then Tier1
    else if exposure <= 300000.0 then Tier2
    else if exposure <= 500000.0 then Tier3
    else Tier4
  }

  /** Number of bounds in `bounds` that `exposure` exceeds. */
  function BoundsExceeded(bounds: seq<real>, exposure: real): (n: nat)
    ensures n <= |bounds|
  {
    if bounds == [] then 0
    else (if bounds[0] < exposure then 1 else 0) + BoundsExceeded(bounds[1..], exposure)
  }

  /** Reference definition: a tier's rank is one more than the number of bounds the exposure exceeds. */
  lemma TierByBoundsExceeded(exposure: real)
    ensures GetInsuranceTier(exposure).Rank() == 1 + BoundsExceeded(Bounds, exposure)
  {
    var rest := Bounds[1..];
    assert rest == [300000.0, 500000.0];
    assert rest[1..] == [500000.0];
    assert BoundsExceeded(rest[1..][1..], exposure) == 0;
    assert BoundsExceeded(rest[1..], exposure) == if 500000.0 < exposure then 1 else 0;
    assert BoundsExceeded(rest, exposure)
        == (if 300000.0 < exposure then 1 else 0) + BoundsExceeded(rest[1..], exposure);
  }

  /** A larger exposure never gets a lower tier. */
  lemma TierMonotone(e1: real, e2: real)
    requires e1 <= e2
    ensures GetInsuranceTier(e1).Rank() <= GetInsuranceTier(e2).Rank()
  {
  }

  /** The three boundaries belong to the lower tier; anything above them to the next. */
  lemma BoundariesInclusive()
    ensures GetInsuranceTier(100000.0) == Tier1 && GetInsuranceTier(100000.5) == Tier2
    ensures GetInsuranceTier(300000.0) == Tier2 && GetInsuranceTier(300000.5) == Tier3
    ensures GetInsuranceTier(500000.0) == Tier3 && GetInsuranceTier(500000.5) == Tier4
  {
  }

  /** The `case` matching of both narrative switches: strict equality against the four labels. */
  function LabelToTier(tierLabel: string): (t: Option<Tier>)
    ensures t.Some? ==> t.value.Label() == tierLabel
  {
    if tierLabel == Tier1.Label() then Some(Tier1)
    else if tierLabel == Tier2.Label() then Some(Tier2)
    else if tierLabel == Tier3.Label() then Some(Tier3)
    else if tierLabel == Tier4.Label() then Some(Tier4)
    else None
  }

  /** Every label reads back as its own tier: the labels are pairwise distinct. */
  lemma LabelRoundTrip(t: Tier)
    ensures LabelToTier(t.Label()) == Some(t)
  {
  }

  /** What the calculator shows next to a tier: a CSS class and an explanation. */
  datatype CalculatorNote = CalculatorNote(cssClass: string, explanation: string)

  /** The calculator's explanations, one per tier. */
  const BasicExplanation := "Basic coverage for minimal assets. Consider upgrading for better protection."
  const StandardExplanation := "Standard protection for moderate asset levels. Adequate but consider enhanced coverage."
  const EnhancedExplanation := "Enhanced protection recommended for your asset level. Strong coverage option."
  const PremiumExplanation := "Premium protection for high asset exposure. Maximum coverage recommended."

  /**
   * The switch in `displayTierRecommendation`. It has no default branch, so an
   * unrecognised label leaves both strings empty.
   */
  function CalculatorRecommendation(tierLabel: string): (n: CalculatorNote)
    ensures n.cssClass == "" <==> LabelToTier(tierLabel).None?
  {
    match LabelToTier(tierLabel)
    case Some(Tier1) => CalculatorNote("tier-basic", BasicExplanation)
    case Some(Tier2) => CalculatorNote("tier-standard", StandardExplanation)
    case Some(Tier3) => CalculatorNote("tier-enhanced", EnhancedExplanation)
    case Some(Tier4) => CalculatorNote("tier-premium", PremiumExplanation)
    case None => CalculatorNote("", "")
  }

  /** What the summary report shows for a tier: a headline and a rationale. */
  datatype SummaryNote = SummaryNote(headline: string, details: string)

  const AssessmentNeeded := "Coverage Assessment Needed"

  /** The summary report's rationales, one per tier and one for the default branch. */
  const BasicDetails := "Minimum coverage for limited assets. Consider upgrading for better protection."
  const StandardDetails := "Adequate coverage for moderate asset levels. Good starting point for most families."
  const EnhancedDetails := "Strong protection for your asset level. Recommended for established families."
  const PremiumDetails := "Maximum protection for high asset exposure. Peace of mind for high net worth individuals."
  const AssessmentDetails := "Please calculate liability exposure to determine appropriate coverage tier."

  /** The switch in `populateRecommendations`, with its default branch. */
  function SummaryRecommendation(tierLabel: string): (n: SummaryNote)
    ensures LabelToTier(tierLabel).None? ==> n.headline == AssessmentNeeded
    ensures LabelToTier(tierLabel).Some? ==> n.headline != AssessmentNeeded
  {
    HeadlinesDistinct();
    match LabelToTier(tierLabel)
    case Some(Tier1) => SummaryNote("Basic Coverage Recommended", BasicDetails)
    case Some(Tier2) => SummaryNote("Standard Coverage Recommended", StandardDetails)
    case Some(Tier3) => SummaryNote("Enhanced Coverage Recommended", EnhancedDetails)
    case Some(Tier4) => SummaryNote("Premium Coverage Recommended", PremiumDetails)
    case None => SummaryNote(AssessmentNeeded, AssessmentDetails)
  }

  /** The four tier headlines differ from the default one (at their first letter). */
  lemma HeadlinesDistinct()
    ensures "Basic Coverage Recommended" != AssessmentNeeded
    ensures "Standard Coverage Recommended" != AssessmentNeeded
    ensures "Enhanced Coverage Recommended" != AssessmentNeeded
    ensures "Premium Coverage Recommended" != AssessmentNeeded
  {
    assert "Basic Coverage Recommended"[0] != AssessmentNeeded[0];
    assert "Standard Coverage Recommended"[0] != AssessmentNeeded[0];
    assert "Enhanced Coverage Recommended"[0] != AssessmentNeeded[0];
    assert "Premium Coverage Recommended"[0] != AssessmentNeeded[0];
  }

  /**
   * Whatever exposure the classifier is given, its label hits a non-default case
   * of both lookups; the default is reached only for a label it never returns.
   */
  lemma ClassifiedLabelsRecognized(exposure: real)
    ensures var tierLabel := GetInsuranceTier(exposure).Label();
            CalculatorRecommendation(tierLabel).cssClass != "" &&
            SummaryRecommendation(tierLabel).headline != AssessmentNeeded
  {
    LabelRoundTrip(GetInsuranceTier(exposure));
  }

  predicate IsAsciiLetter(c: char) { 'a' <= c <= 'z' || 'A' <= c <= 'Z' }

  /** One character of `toLowerCase().replace(/[^a-z]/g, '-')`, for ASCII letters. */
  function SlugChar(c: char): char {
    if 'a' <= c <= 'z' then c
    else if 'A' <= c <= 'Z' then (c as int - 'A' as int + 'a' as int) as char
    else '-'
  }

  /** The CSS slug of a label: same length, only lower-case letters and dashes. */
  function Slug(s: string): (r: string)
    ensures |r| == |s|
    ensures forall i :: 0 <= i < |r| ==> ('a' <= r[i] <= 'z' || r[i] == '-')
    ensures forall i :: 0 <= i < |r| ==> (r[i] == '-' <==> !IsAsciiLetter(s[i]))
    ensures forall i :: 0 <= i < |r| ==> ('a' <= s[i] <= 'z' ==> r[i] == s[i])
    ensures forall i :: 0 <= i < |r| && 'A' <= s[i] <= 'Z' ==> r[i] == (s[i] as int - 'A' as int + 'a' as int) as char
  {
    seq(|s|, i requires 0 <= i < |s| => SlugChar(s[i]))
  }

  /** The class suffix of the summary box: the slug of the label, or `basic` for an empty one. */
  function SummaryTierClass(tierLabel: string): (r: string)
    ensures |r| > 5 && r[..5] == "tier-"
    ensures forall i :: 5 <= i < |r| ==> ('a' <= r[i] <= 'z' || r[i] == '-')
    ensures tierLabel != "" ==> |r| == 5 + |tierLabel|
    ensures tierLabel != "" ==> forall i :: 0 <= i < |tierLabel| ==> (r[5 + i] == '-' <==> !IsAsciiLetter(tierLabel[i]))
    ensures tierLabel == "" ==> r == "tier-basic"
    ensures tierLabel != "" ==> r[5..] == Slug(tierLabel)
  {
    "tier-" + (if tierLabel != "" then Slug(tierLabel) else "basic")
  }

  /**
   * The summary box of a classified tier never carries the calculator's class for
   * that tier, nor the `tier-basic` fallback: the two views style a tier differently.
   */
  lemma TierClassesDistinct(t: Tier)
    ensures SummaryTierClass(t.Label()) != CalculatorRecommendation(t.Label()).cssClass
    ensures SummaryTierClass(t.Label()) != "tier-basic"
  {
    LabelRoundTrip(t);
    var tierLabel := t.Label();
    assert tierLabel[0] == 'T';
    var r := SummaryTierClass(tierLabel);
    assert r == "tier-" + Slug(tierLabel);
    assert r[5] == Slug(tierLabel)[0] == 't';
    assert "tier-basic"[5] == 'b';
    assert "tier-standard"[5] == 's';
    assert "tier-enhanced"[5] == 'e';
    assert "tier-premium"[5] == 'p';
  }

  /** Slugging a slug changes nothing. */
  lemma SlugIdempotent(s: string)
    ensures Slug(Slug(s)) == Slug(s)
  {
  }

  lemma SlugOfTierOne()
    ensures Slug(Tier1.Label()) == "tier----up-to---------"
  {
  }
}
