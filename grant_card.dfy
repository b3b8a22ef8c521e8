/** What a grant card shows, and what its "View Grant Details" button does. */
module GrantCard {
  import opened Wrappers
  import opened Text

  /** Truthiness of a nullable amount: null and 0 are both falsy. */
  predicate Truthy(amount: Option<nat>) {
    amount.Some? && amount.value != 0
  }

  /**
   * `(a / 1000).toFixed(0)` for a whole amount `a`: the nearest whole number
   * of thousands, a half rounding up.
   */
  function Thousands(a: nat): (k: nat)
    ensures 1000 * k - 500 <= a < 1000 * k + 500
  {
    (a + 500) / 1000
  }

  /** Only one figure satisfies the rounding rule. */
  lemma ThousandsUnique(a: nat, k: nat)
    requires 1000 * k - 500 <= a < 1000 * k + 500
    ensures k == Thousands(a)
  {
  }

  /** Thousands figure and unit, as in "500k". */
  function ThousandsLabel(a: nat): (s: string)
    ensures |s| > 1 && s[|s| - 1] == 'k' && AllDigits(s[..|s| - 1])
    ensures DecimalValue(s[..|s| - 1]) == Thousands(a)
    ensures |s| > 2 ==> s[0] != '0'
  {
    var digits := NatToString(Thousands(a));
    DecimalValueOfNatToString(Thousands(a));
    assert (digits + "k")[..|digits|] == digits;
    digits + "k"
  }

  const AmountVaries := "Amount varies"
  const FromPrefix := "From €"
  const UpToPrefix := "Up to €"
  const RangePrefix := "€"

  /** `formatAmount(min, max)` */
  function FormatAmount(min: Option<nat>, max: Option<nat>): (r: string)
    ensures !Truthy(min) && !Truthy(max) ==> r == AmountVaries
    ensures Truthy(min) && !Truthy(max) ==> r == FromPrefix + ThousandsLabel(min.value)
    ensures !Truthy(min) && Truthy(max) ==> r == UpToPrefix + ThousandsLabel(max.value)
    ensures Truthy(min) && Truthy(max) ==>
      r == RangePrefix + ThousandsLabel(min.value) + " - " + RangePrefix + ThousandsLabel(max.value)
  {
    if !Truthy(min) && !Truthy(max) then AmountVaries
    else if !Truthy(max) then FromPrefix + ThousandsLabel(min.value)
    else if !Truthy(min) then UpToPrefix + ThousandsLabel(max.value)
    else RangePrefix + ThousandsLabel(min.value) + " - " + RangePrefix + ThousandsLabel(max.value)
  }

  /** A zero amount is printed exactly as a missing one. */
  lemma FormatAmountZeroIsAbsent(min: Option<nat>, max: Option<nat>)
    ensures FormatAmount(Some(0), max) == FormatAmount(None, max)
    ensures FormatAmount(min, Some(0)) == FormatAmount(min, None)
  {
  }

  /** The text tells which of the four cases applied: each case has its own opening. */
  lemma FormatAmountCaseVisible(min: Option<nat>, max: Option<nat>)
    ensures FormatAmount(min, max) == AmountVaries <==> !Truthy(min) && !Truthy(max)
    ensures StartsWith(FormatAmount(min, max), FromPrefix) <==> Truthy(min) && !Truthy(max)
    ensures StartsWith(FormatAmount(min, max), UpToPrefix) <==> !Truthy(min) && Truthy(max)
    ensures StartsWith(FormatAmount(min, max), RangePrefix) <==> Truthy(min) && Truthy(max)
  {
    var r := FormatAmount(min, max);
    if Truthy(min) && !Truthy(max) {
      assert r[..|FromPrefix|] == FromPrefix;
      assert r[0] == 'F' && RangePrefix[0] == '€';
      assert !StartsWith(r, RangePrefix) by { assert r[..|RangePrefix|][0] == 'F'; }
    } else if !Truthy(min) && Truthy(max) {
      assert r[..|UpToPrefix|] == UpToPrefix;
      assert r[0] == 'U';
    } else if Truthy(min) {
      assert r[..|RangePrefix|] == RangePrefix;
      assert r[0] == '€' && FromPrefix[0] == 'F' && UpToPrefix[0] == 'U';
      assert !StartsWith(r, FromPrefix) by { assert r[..|FromPrefix|][0] == '€'; }
      assert !StartsWith(r, UpToPrefix) by { assert r[..|UpToPrefix|][0] == '€'; }
    } else {
      assert r[0] == 'A';
    }
  }

  /** The figure after "From €" reads back as the rounded thousands of the minimum. */
  lemma FromFigureReadsBack(min: nat)
    requires min != 0
    ensures var r := FormatAmount(Some(min), None);
      |r| > |FromPrefix| + 1 && AllDigits(r[|FromPrefix|..|r| - 1]) &&
      DecimalValue(r[|FromPrefix|..|r| - 1]) == Thousands(min)
  {
    var figure := ThousandsLabel(min);
    var r := FromPrefix + figure;
    assert r[|FromPrefix|..|r| - 1] == figure[..|figure| - 1];
  }

  /** Rounding examples: 1500 prints as 2k, 2499 as 2k, 499 as 0k. */
  lemma ThousandsExamples()
    ensures Thousands(1500) == 2 && Thousands(2499) == 2 && Thousands(499) == 0
  {
  }

  /** `formatDeadline`: a null (or empty) deadline is a rolling one; else the locale date. */
  function FormatDeadline(deadline: Option<string>, localeDate: string -> string): (r: string)
    ensures deadline.None? || deadline == Some("") ==> r == "Rolling deadline"
    ensures deadline.Some? && deadline.value != "" ==> r == localeDate(deadline.value)
  {
    if deadline.None? || deadline.value == "" then "Rolling deadline" else localeDate(deadline.value)
  }

  /** `grant.funding_body || "Public Grant"` */
  function FundingBodyLabel(fundingBody: Option<string>): (r: string)
    ensures fundingBody.Some? && fundingBody.value != "" ==> r == fundingBody.value
    ensures fundingBody.None? || fundingBody == Some("") ==> r == "Public Grant"
  {
    if fundingBody.Some? && fundingBody.value != "" then fundingBody.value else "Public Grant"
  }

  const MaxShownTags: nat := 4

  /** The badges: nothing for null or empty tags, else the first (at most) four, in order. */
  function ShownTags(tags: Option<seq<string>>): (r: seq<string>)
    ensures |r| <= MaxShownTags
    ensures r == [] <==> tags.None? || tags.value == []
    ensures tags.Some? ==> |r| == (if |tags.value| < MaxShownTags then |tags.value| else MaxShownTags)
    ensures tags.Some? ==> r == tags.value[..|r|]
  {
    if tags.None? || |tags.value| == 0 then []
    else if |tags.value| <= MaxShownTags then tags.value
    else tags.value[..MaxShownTags]
  }

  const FitSuffix := "% Fit"

  /** The "N% Fit" badge, drawn exactly when a score is given. */
  function FitBadge(matchScore: Option<int>): (r: Option<string>)
    ensures r.Some? <==> matchScore.Some?
    ensures r.Some? ==> r.value == IntToString(matchScore.value) + FitSuffix
  {
    match matchScore
    case None => None
    case Some(s) => Some(IntToString(s) + FitSuffix)
  }

  /** The figure in front of "% Fit" reads back as the score. */
  lemma FitBadgeReadsBack(score: nat)
    ensures var t := FitBadge(Some(score)).value;
      |t| > |FitSuffix| && AllDigits(t[..|t| - |FitSuffix|]) &&
      DecimalValue(t[..|t| - |FitSuffix|]) == score
  {
    var t := FitBadge(Some(score)).value;
    assert t[..|t| - |FitSuffix|] == NatToString(score);
    DecimalValueOfNatToString(score);
  }

  /** What pressing "View Grant Details" does. */
  datatype ApplyAction =
    | SignUpRedirect(target: string)   // navigate to sign-up, toast "Please sign up..."
    | OpenApplication(url: string)     // window.open(url, "_blank")
    | ComingSoon                       // toast "Application details coming soon!"

  const SignUpReturnTo := "/signup?return_to="

  /**
   * `handleApply`. `signedIn` is whether the session has a user,
   * `currentPath` the window's path and `encodeUriComponent` the library
   * function of that name.
   */
  function HandleApply(signedIn: bool, currentPath: string, applicationUrl: Option<string>,
                       encodeUriComponent: string -> string): (a: ApplyAction)
    ensures a.SignUpRedirect? <==> !signedIn
    ensures a.SignUpRedirect? ==> a.target == SignUpReturnTo + encodeUriComponent(currentPath)
    ensures a.OpenApplication? <==> signedIn && applicationUrl.Some? && applicationUrl.value != ""
    ensures a.OpenApplication? ==> a.url == applicationUrl.value
    ensures a.ComingSoon? <==> signedIn && (applicationUrl.None? || applicationUrl.value == "")
  {
    if !signedIn then SignUpRedirect(SignUpReturnTo + encodeUriComponent(currentPath))
    else if applicationUrl.Some? && applicationUrl.value != "" then OpenApplication(applicationUrl.value)
    else ComingSoon
  }
}
