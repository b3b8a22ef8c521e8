/** The onboarding form: which fields are required, and the profile update it saves. */
module Onboarding {

  datatype FormData = FormData(
    companyName: string,
    website: string,
    industry: string,
    stage: string,
    businessModel: string,
    fundingAsk: string)

  /** The form the page starts with: every field empty. */
  const EmptyForm := FormData("", "", "", "", "", "")

  /** Every field but the website is required. */
  predicate RequiredFieldsFilled(f: FormData) {
    f.companyName != "" && f.industry != "" && f.stage != "" && f.businessModel != "" && f.fundingAsk != ""
  }

  /** The TRL a funding stage is saved with. */
  function StageToTrl(stage: string): (trl: int)
    ensures trl in {1, 3, 5, 7}
    ensures trl == 1 <==> stage == "pre-seed"
    ensures trl == 3 <==> stage == "seed"
    ensures trl == 5 <==> stage == "series-a"
  {
    if stage == "pre-seed" then 1
    else if stage == "seed" then 3
    else if stage == "series-a" then 5
    else 7
  }

  /** Later stages are saved with higher TRLs, "series-b" among the "anything else" that gets 7. */
  lemma StageToTrlOrdered()
    ensures StageToTrl("pre-seed") < StageToTrl("seed") < StageToTrl("series-a") < StageToTrl("series-b")
  {
  }

  /** The columns written to the user's profile row. */
  datatype ProfileUpdate = ProfileUpdate(startupStage: string, trlLevel: int, fundingNeeds: string, location: string)

  const SavedLocation := "Global"

  datatype SubmitOutcome =
    | MissingFields            // "Please fill in all required fields"; nothing is saved
    | NotAuthenticated         // "Not authenticated"; nothing is saved
    | Save(update: ProfileUpdate)

  /** `handleSubmit`; `signedIn` is whether the session has a user. */
  function Submit(f: FormData, signedIn: bool): (r: SubmitOutcome)
    ensures r.MissingFields? <==> !RequiredFieldsFilled(f)
    ensures r.NotAuthenticated? <==> RequiredFieldsFilled(f) && !signedIn
    ensures r.Save? <==> RequiredFieldsFilled(f) && signedIn
    ensures r.Save? ==>
      && r.update.startupStage == f.stage
      && r.update.trlLevel == StageToTrl(f.stage)
      && r.update.fundingNeeds == f.fundingAsk
      && r.update.location == SavedLocation
  {
    if !RequiredFieldsFilled(f) then MissingFields
    else if !signedIn then NotAuthenticated
    else Save(ProfileUpdate(f.stage, StageToTrl(f.stage), f.fundingAsk, SavedLocation))
  }

  /** The website never influences the outcome. */
  lemma SubmitIgnoresWebsite(f: FormData, website: string, signedIn: bool)
    ensures Submit(f.(website := website), signedIn) == Submit(f, signedIn)
  {
  }

  /** Nothing from the company name, industry or business model reaches the profile row. */
  lemma SubmitSavesOnlyStageAndAsk(f: FormData, g: FormData, signedIn: bool)
    requires RequiredFieldsFilled(f) && RequiredFieldsFilled(g)
    requires f.stage == g.stage && f.fundingAsk == g.fundingAsk
    ensures Submit(f, signedIn) == Submit(g, signedIn)
  {
  }

  /** The untouched form is refused. */
  lemma EmptyFormRefused(signedIn: bool)
    ensures Submit(EmptyForm, signedIn) == MissingFields
  {
  }
}
