/** From the onboarding form to the arguments the dashboard sends to `match_grants`. */
module RoundTrip {
  import opened Wrappers
  import opened Text
  import opened Onboarding
  import opened MatchesDashboard

  /** The profile row after the onboarding update has been written. */
  function RowAfter(u: ProfileUpdate): ProfileRow {
    ProfileRow(Some(u.trlLevel), Some(u.location), Some(u.fundingNeeds))
  }

  /** The decimal rendering of a whole number is read back as that number. */
  lemma AskAmountOfDecimal(n: nat)
    ensures AskAmount(Some(NatToString(n))) == Some(n)
  {
    DigitsOnlyOfDigits(NatToString(n));
    DecimalValueOfNatToString(n);
  }

  /**
   * A profile saved from a form whose ask is the decimal rendering of `n`
   * is matched with the stage's TRL, the country "Global" (never the
   * "Germany" default) and the ask `n`.
   */
  lemma OnboardedProfileArgs(f: FormData, n: nat)
    requires RequiredFieldsFilled(f) && f.fundingAsk == NatToString(n)
    ensures Submit(f, true).Save?
    ensures ArgsFor(Some(RowAfter(Submit(f, true).update))) == MatchArgs(StageToTrl(f.stage), SavedLocation, Some(n))
  {
    AskAmountOfDecimal(n);
  }
}
