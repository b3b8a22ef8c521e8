/**
 * The matches dashboard: turning the stored profile into the arguments of
 * the `match_grants` query, the empty-on-failure policy around that query,
 * and the colour band of a match score.
 */
module MatchesDashboard {
  import opened Wrappers
  import opened Text

  /** The `trl_level, location, funding_needs` columns of a profile row. */
  datatype ProfileRow = ProfileRow(trlLevel: Option<int>, location: Option<string>, fundingNeeds: Option<string>)

  /** The arguments of `match_grants`; `None` for the ask is the NaN of `parseInt("")`. */
  datatype MatchArgs = MatchArgs(userTrl: int, userCountry: string, userAskAmount: Option<nat>)

  /** One row of the `match_grants` result. */
  datatype GrantMatch = GrantMatch(id: int, name: string, description: string, matchScore: int, matchReasons: seq<string>)

  const DefaultTrl := 1
  const DefaultCountry := "Germany"

  /** `parseInt` applied to a string of digits: NaN (`None`) on the empty string. */
  function ParseDigits(ds: string): (r: Option<nat>)
    requires AllDigits(ds)
    ensures r.None? <==> ds == []
  {
    if ds == [] then None else Some(DecimalValue(ds))
  }

  /**
   * The funding ask: absent or empty gives 0; otherwise every non-digit is
   * deleted and the remaining digits are read as one number.
   */
  function AskAmount(fundingNeeds: Option<string>): (r: Option<nat>)
    ensures fundingNeeds.None? || fundingNeeds == Some("") ==> r == Some(0)
    ensures r.None? <==>
      fundingNeeds.Some? && fundingNeeds.value != "" &&
      forall i :: 0 <= i < |fundingNeeds.value| ==> !IsDigit(fundingNeeds.value[i])
  {
    match fundingNeeds
    case None => Some(0)
    case Some(s) =>
      DigitsOnlyEmpty(s);
      DigitsOnlyAreDigits(s);
      if s == "" then Some(0) else ParseDigits(DigitsOnly(s))
  }

  /** The digits are read as one number ("€500,000" is 500000), not as separate runs. */
  lemma AskAmountIsAllDigits(s: string)
    requires s != "" && DigitsOnly(s) != ""
    ensures AllDigits(DigitsOnly(s)) && AskAmount(Some(s)) == Some(DecimalValue(DigitsOnly(s)))
  {
    DigitsOnlyAreDigits(s);
  }

  /** Deleting one non-digit character never changes the ask, as long as something is left. */
  lemma AskAmountIgnoresNonDigit(a: string, c: char, b: string)
    requires !IsDigit(c) && a + b != ""
    ensures AskAmount(Some(a + [c] + b)) == AskAmount(Some(a + b))
  {
    DigitsOnlyConcat(a + [c], b);
    DigitsOnlyConcat(a, [c]);
    DigitsOnlyConcat(a, b);
    assert [c][1..] == [];
    assert DigitsOnly([c]) == [];
    assert DigitsOnly(a + [c] + b) == DigitsOnly(a + b);
  }

  /** The euro sign and the thousands separator are dropped. */
  lemma AskAmountEuroExample()
    ensures AskAmount(Some("€500,000")) == Some(500000)
  {
    DigitsOnlyEuroExample();
    NatToStringExample();
    DecimalValueOfNatToString(500000);
  }

  lemma DigitsOnlyEuroExample()
    ensures DigitsOnly("€500,000") == "500000"
  {
    DigitsOnlyEuroHead();
    DigitsOnlySeparatorTail();
    assert "€500" + ",000" == "€500,000";
    DigitsOnlyConcat("€500", ",000");
  }

  lemma DigitsOnlyEuroHead()
    ensures DigitsOnly("€500") == "500"
  {
    DigitsOnlyConcat("€", "500");
    DigitsOnlyOfDigits("500");
  }

  lemma DigitsOnlySeparatorTail()
    ensures DigitsOnly(",000") == "000"
  {
    DigitsOnlyConcat(",", "000");
    DigitsOnlyOfDigits("000");
  }

  lemma NatToStringExample()
    ensures NatToString(500000) == "500000"
  {
    assert NatToString(5) == "5";
    assert NatToString(50) == "50";
    assert NatToString(500) == "500";
    assert NatToString(5000) == "5000";
    assert NatToString(50000) == "50000";
  }

  lemma NatToStringExample2()
    ensures NatToString(10005) == "10005"
  {
    assert NatToString(1) == "1";
    assert NatToString(10) == "10";
    assert NatToString(100) == "100";
    assert NatToString(1000) == "1000";
  }

  /** A decimal point is dropped too, so "1000.5" asks for 10005. */
  lemma AskAmountDecimalPointExample()
    ensures AskAmount(Some("1000.5")) == Some(10005)
  {
    DigitsOnlyDecimalPointExample();
    NatToStringExample2();
    DecimalValueOfNatToString(10005);
  }

  lemma DigitsOnlyDecimalPointExample()
    ensures DigitsOnly("1000.5") == "10005"
  {
    DigitsOnlyConcat("1000", ".5");
    DigitsOnlyOfDigits("1000");
    assert "1000" + ".5" == "1000.5";
    assert ".5"[1..] == "5";
  }

  /** Text without digits reaches `parseInt("")`, which is NaN, not 0. */
  lemma AskAmountNoDigitsExample()
    ensures AskAmount(Some("n/a")) == None
  {
    DigitsOnlyEmpty("n/a");
  }

  /** `trl_level || 1`: null and 0 both give the default. */
  function UserTrl(trlLevel: Option<int>): (r: int)
    ensures trlLevel.None? || trlLevel == Some(0) ==> r == DefaultTrl
    ensures trlLevel.Some? && trlLevel.value != 0 ==> r == trlLevel.value
    ensures r != 0
  {
    if trlLevel.Some? && trlLevel.value != 0 then trlLevel.value else DefaultTrl
  }

  /** `location || 'Germany'`: null and "" both give the default. */
  function UserCountry(location: Option<string>): (r: string)
    ensures location.Some? && location.value != "" ==> r == location.value
    ensures location.None? || location == Some("") ==> r == DefaultCountry
    ensures r != ""
  {
    if location.Some? && location.value != "" then location.value else DefaultCountry
  }

  /** The `match_grants` arguments for a profile row (`profile?.…`: no row is all defaults). */
  function ArgsFor(profile: Option<ProfileRow>): (r: MatchArgs)
    ensures r.userTrl != 0 && r.userCountry != ""
    ensures profile.None? ==> r == MatchArgs(DefaultTrl, DefaultCountry, Some(0))
  {
    match profile
    case None => MatchArgs(UserTrl(None), UserCountry(None), AskAmount(None))
    case Some(p) => MatchArgs(UserTrl(p.trlLevel), UserCountry(p.location), AskAmount(p.fundingNeeds))
  }

  /**
   * The list the dashboard ends up holding. `signedIn` is whether the
   * session has a user, `profile` the profile query, `matchGrants` the
   * `match_grants` call; an error of either gives the empty list.
   */
  function FetchMatchingGrants(signedIn: bool, profile: Result<Option<ProfileRow>>,
                               matchGrants: MatchArgs -> Result<Option<seq<GrantMatch>>>): (r: seq<GrantMatch>)
    ensures !signedIn || profile.Err? ==> r == []
    ensures r == [] || (signedIn && profile.Ok? && matchGrants(ArgsFor(profile.value)) == Ok(Some(r)))
  {
    if !signedIn then []
    else match profile
      case Err(_) => []
      case Ok(row) =>
        match matchGrants(ArgsFor(row))
        case Err(_) => []
        case Ok(data) => data.GetOr([])
  }

  /** The list is never a part of the query's answer: all of it, or nothing. */
  lemma FetchAllOrNothing(signedIn: bool, profile: Result<Option<ProfileRow>>,
                          matchGrants: MatchArgs -> Result<Option<seq<GrantMatch>>>)
    requires signedIn && profile.Ok?
    ensures matchGrants(ArgsFor(profile.value)).Ok? && matchGrants(ArgsFor(profile.value)).value.Some? ==>
      FetchMatchingGrants(signedIn, profile, matchGrants) == matchGrants(ArgsFor(profile.value)).value.value
    ensures matchGrants(ArgsFor(profile.value)).Err? ==> FetchMatchingGrants(signedIn, profile, matchGrants) == []
  {
  }

  // ------------------------------------------------------------ score bands

  datatype Band = Muted | Success | Warning

  /** Position of a band, lowest first. */
  function Rank(b: Band): nat {
    match b
    case Muted => 0
    case Success => 1
    case Warning => 2
  }

  function ScoreBand(score: int): (b: Band)
    ensures b == Warning <==> score > 80
    ensures b == Success <==> 40 <= score <= 80
    ensures b == Muted <==> score < 40
  {
    if score > 80 then Warning else if score >= 40 then Success else Muted
  }

  /** A higher score never gets a lower band. */
  lemma ScoreBandMonotone(x: int, y: int)
    requires x <= y
    ensures Rank(ScoreBand(x)) <= Rank(ScoreBand(y))
  {
  }

  datatype ColorClasses = ColorClasses(text: string, bg: string)

  /** The CSS classes of a band. */
  function BandClasses(b: Band): ColorClasses
  {
    match b
    case Warning => ColorClasses("text-warning", "bg-warning")
    case Success => ColorClasses("text-success", "bg-success")
    case Muted => ColorClasses("text-muted-foreground", "bg-muted")
  }

  /** `getScoreColorClasses` */
  function ScoreColorClasses(score: int): (r: ColorClasses)
    ensures score > 80 ==> r == ColorClasses("text-warning", "bg-warning")
    ensures 40 <= score <= 80 ==> r == ColorClasses("text-success", "bg-success")
    ensures score < 40 ==> r == ColorClasses("text-muted-foreground", "bg-muted")
  {
    BandClasses(ScoreBand(score))
  }

  /** Different bands are drawn with different classes. */
  lemma BandClassesDistinct(a: Band, b: Band)
    requires a != b
    ensures BandClasses(a).text != BandClasses(b).text && BandClasses(a).bg != BandClasses(b).bg
  {
  }
}
