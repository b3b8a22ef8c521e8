# Grant matching front-end logic, modelled in Dafny

This project models the decision logic of the euro-fund-finder web application:
the page that lets a startup browse public grants (Explore), the card that
renders one grant (GrantCard), the dashboard that asks the database for ranked
matches (GrantMatchesDashboard), and the onboarding form that writes the
startup's profile (Onboarding). Everything else in the repository is
presentation or a direct call into the hosted database and authentication
service; those calls appear here only as parameters.

Files, one module each:

- `wrappers.dfy` — `Option` (JavaScript `null`) and `Result` (a call that may fail).
- `text.dfy` — ASCII lower-casing, `includes`, ECMAScript `trim`, deleting non-digits, reading and printing decimals.
- `grant_record.dfy` — the `public_grants` row.
- `explore.dfy` — the five filter predicates, the filter pipeline and its laws, the AI-search decision, and the class `ExplorePage` holding the page state that `filterGrants` and `handleAISearch` update.
- `matches_dashboard.dfy` — normalising the stored profile into `match_grants` arguments, the empty-on-failure policy, score colour bands.
- `grant_card.dfy` — amount, deadline, funding body, tag and badge rendering; the apply button.
- `onboarding.dfy` — required fields, stage→TRL table, the saved profile update.
- `round_trip.dfy` — a profile saved by onboarding, read back by the dashboard.

How the pieces are specified:

- The filter is one recursive `Keep` per pass. `ExplorePage.FilterGrants` runs the passes on a local copy, as the page does. Its contract ties the result to `Select`, which filters once by the conjunction of the active predicates. Lemmas prove that `Select` is idempotent and that the order of the passes is irrelevant. They also prove that the result is an order-preserving subsequence of the input.
- `AiSearchPath` is the three-way decision of the AI search. `ExplorePage.HandleAISearch` carries it out against the demo query result, the embedding answer and the similarity query, all given as parameters; `SearchResult` says which list ends up shown.
- The source ships with an empty OpenAI key, so the embedding path cannot be reached. The key is a parameter of the method; the lemma `EmbeddingPathUnreachable` shows that with the shipped key that path is never taken.

Behaviour worth knowing:

- Funding ask: every non-digit is deleted and all the remaining digits are read as one number, so "1000.5" asks for 10005. A non-empty text without any digit gives NaN, not 0.
- Default country: the dashboard falls back to the fixed string `"Germany"`.
- Demo mode: the AI search shows the first ten rows of the table in the database's deadline order. The shown list carries no flag saying it is a demo listing; the page signals it only by the toast, by the "(Using demo data - no OpenAI key required)" note beside the switch while demo mode is on (src/pages/Explore.tsx:320-324), and by the missing "% Fit" badges, since demo rows have no `similarity` (src/pages/Explore.tsx:451).
- Scores: match scores and similarities come from database functions that are not part of this model; only the similarity-to-percentage rounding (src/pages/Explore.tsx:451) runs on this side, and it is left out.
- "Showing N of M" (src/pages/Explore.tsx:443) compares the shown list with the loaded one. After an AI search the shown list comes from another query, so N can exceed M; `DemoSearchIgnoresShown` shows that the demo listing does not depend on what was loaded.

## Model

| member | source | states |
|---|---|---|
| `Text.Lower` | src/pages/Explore.tsx:107-109 | lower-casing keeps the length and maps each character (ASCII letters to lower case, everything else kept) |
| `Text.LowerIdempotent` | src/pages/Explore.tsx:107-109 | lower-casing an already lower-cased string changes nothing |
| `Text.Includes` | src/pages/Explore.tsx:107-109 | `includes` as a recursive definition: the query is a prefix here or is included further on |
| `Text.IncludesNeedsRoom` | src/pages/Explore.tsx:107-109 | a text shorter than the query never includes it |
| `Text.IncludesAt` | src/pages/Explore.tsx:107-109 | `includes` holds iff the query occurs as a slice of the text at some offset |
| `Text.IsWhitespace` | src/pages/Explore.tsx:159 | definition: the characters of ECMAScript's WhiteSpace and LineTerminator productions |
| `Text.Trim` | src/pages/Explore.tsx:159 | definition: leading, then trailing whitespace removed; the prefix and suffix functions each state that what is left does not start (end) with whitespace |
| `Text.TrimEmptyIffBlank` | src/pages/Explore.tsx:159 | `trim()` leaves nothing iff every character is ECMAScript whitespace |
| `Text.DigitsOnly` | src/components/GrantMatchesDashboard.tsx:42 | the regex replace never lengthens the text |
| `Text.DigitsOnlyAreDigits` | src/components/GrantMatchesDashboard.tsx:42 | only digits are left after the replace |
| `Text.DigitsOnlyConcat` | src/components/GrantMatchesDashboard.tsx:42 | deleting non-digits distributes over concatenation |
| `Text.DigitsOnlyEmpty` | src/components/GrantMatchesDashboard.tsx:42 | nothing is left iff the text has no digit |
| `Text.DecimalValue` | src/components/GrantMatchesDashboard.tsx:42 | definition: `parseInt` of a non-empty digit string, most significant digit first |
| `Text.NatToString` | src/components/GrantCard.tsx:32-34 | the decimal printing of a number is a non-empty digit string without a leading zero |
| `Text.DecimalValueOfNatToString` | src/components/GrantCard.tsx:32-34 | the printed decimal of n reads back as n |
| `Explore.AnyTagIncludes` | src/pages/Explore.tsx:109 | definition: `tags.some(tag => tag.toLowerCase().includes(q.toLowerCase()))` |
| `Explore.MatchesSearch` | src/pages/Explore.tsx:107-109 | definition: the title contains the query ignoring case, or the description does when present, or some tag does when tags are present; a null field never matches |
| `Explore.EligibleInCountry` | src/pages/Explore.tsx:117 | definition: the country is listed exactly (case-sensitive), or the grant has no country list at all |
| `Explore.WithinTrl` | src/pages/Explore.tsx:126-127 | definition: a null minimum or maximum TRL is no bound |
| `Explore.HasTagLike` | src/pages/Explore.tsx:135-143 | definition: null tags never match; otherwise some tag contains the choice, ignoring case |
| `Explore.ActiveSteps` | src/pages/Explore.tsx:104-145 | definition: the passes whose guards hold (query non-empty, dropdown not "all"), in the page's order |
| `Explore.Pipeline` | src/pages/Explore.tsx:101-147 | definition: the guarded passes applied one after another to the copy of the grants |
| `Explore.Select` | src/pages/Explore.tsx:101-147 | definition: the filter result, one filter by the conjunction of the active passes |
| `Explore.EligibleIff` | src/pages/Explore.tsx:104-145 | a grant is kept iff it passes each predicate whose criterion is set (query non-empty, dropdown not "all") |
| `Explore.Keep` | src/pages/Explore.tsx:105-144 | one `.filter` pass: a subsequence of its input holding exactly the grants that pass |
| `Explore.KeepCounts` | src/pages/Explore.tsx:105-144 | a pass keeps each passing grant as many times as it occurs in the input, and no failing one |
| `Explore.KeepAll` | src/pages/Explore.tsx:101-147 | the combined filter: a subsequence holding exactly the grants that pass every step |
| `Explore.KeepAllCounts` | src/pages/Explore.tsx:101-147 | the combined filter keeps each grant passing every step as many times as it occurs, and no other |
| `Explore.KeepAfterKeepAll` | src/pages/Explore.tsx:105-144 | one more pass after a combined filter equals the combined filter with that step added |
| `Explore.OptionalPass` | src/pages/Explore.tsx:104-145 | a pass guarded by its criterion adds its step to the combined filter only when active |
| `Explore.PipelineIsKeepAll` | src/pages/Explore.tsx:101-147 | running the passes in sequence equals one filter by their conjunction |
| `Explore.KeepAllSameSteps` | src/pages/Explore.tsx:104-145 | only the set of steps matters for the combined filter |
| `Explore.PipelineOrderIrrelevant` | src/pages/Explore.tsx:104-145 | any reordering of the passes gives the same list |
| `Explore.KeepAllIdempotent` | src/pages/Explore.tsx:101-147 | filtering twice by the same steps equals filtering once |
| `Explore.SelectIdempotent` | src/pages/Explore.tsx:101-147 | refiltering the shown list with the same criteria changes nothing |
| `Explore.SelectBounded` | src/pages/Explore.tsx:101-147 | the filter result is an order-preserving subsequence of the grants it filters, so never longer |
| `Explore.SubseqLength` | src/pages/Explore.tsx:101-147 | a subsequence is never longer than the sequence |
| `Explore.SelectWildcard` | src/pages/Explore.tsx:104-140 | empty query and every dropdown at "all" shows the loaded list unchanged |
| `Explore.CountryIrrelevantWithoutLists` | src/pages/Explore.tsx:117 | when no grant has a country list, the country choice never changes the result |
| `Explore.TrlIrrelevantWithoutBounds` | src/pages/Explore.tsx:123-127 | when no grant has TRL bounds, the TRL criterion never changes the result |
| `Explore.TagFilterNeedsTags` | src/pages/Explore.tsx:135-143 | an active industry or funding-type filter keeps only grants with non-null, non-empty tags |
| `Explore.SearchOnNullFields` | src/pages/Explore.tsx:107-109 | with null description and tags the search matches iff the title contains the query |
| `Explore.SearchIgnoresQueryCase` | src/pages/Explore.tsx:107-109 | lower-casing the query does not change which grants match |
| `Explore.CountryCaseSensitiveTagsNot` | src/pages/Explore.tsx:117 | "germany" does not select a grant listed for "Germany", but does match a "Germany" tag |
| `Explore.SolarScenario` | src/pages/Explore.tsx:104-110 | "solar" keeps a grant tagged "Solar Energy" and drops one tagged only "Wind" whose title and description (if any) do not mention it |
| `Explore.TrlScenario` | src/pages/Explore.tsx:122-128 | TRL 5 keeps a 3..7 grant and drops one whose minimum is 8 |
| `Explore.AiSearchPath` | src/pages/Explore.tsx:159-171 | refused iff the trimmed description is empty; demo iff not and (demo mode or no key); the no-key notice iff demo mode is off and the key is empty |
| `Explore.AiSearchRejectsBlank` | src/pages/Explore.tsx:159-162 | the search is refused iff every character of the description is whitespace |
| `Explore.EmbeddingPathUnreachable` | src/pages/Explore.tsx:66 | with the shipped empty key the embedding request is never made |
| `Explore.DemoRows` | src/pages/Explore.tsx:174-181 | the demo listing is the first min(10, n) rows, in the table's order |
| `Explore.DemoOutcome` | src/pages/Explore.tsx:174-183 | a list is shown iff the demo query succeeds: the demo listing, or empty for a null answer, at most 10 rows |
| `Explore.DemoSearchIgnoresShown` | src/pages/Explore.tsx:174-183 | the demo listing does not depend on the list shown before, and has 10 rows once the table has 10 |
| `Explore.EmbeddingOutcome` | src/pages/Explore.tsx:187-222 | a list is shown iff both the embedding request and the similarity query succeed; it is the query's rows, or empty for a null answer |
| `Explore.SearchResult` | src/pages/Explore.tsx:158-228 | refusal keeps the shown list; the demo path shows the demo outcome, the embedding path the embedding outcome, and a failure on either keeps the list |
| `Explore.NarrowIf` | src/pages/Explore.tsx:104-145 | one guarded pass over the combined filter so far gives the combined filter with that step added when active, a subsequence of its input |
| `Explore.FilterPipeline` | src/pages/Explore.tsx:101-147 | copying the grants and narrowing by each active criterion in the page's order gives `Select`, a subsequence no longer than the input |
| `Explore.ExplorePage.constructor` | src/pages/Explore.tsx:48-63 | empty lists, empty query, every dropdown "all", demo mode on, not searching |
| `Explore.ExplorePage.FilterGrants` | src/pages/Explore.tsx:100-148 | the shown list becomes the pipeline's result, `Select` of the loaded grants for the current criteria, a subsequence no longer than them; nothing else changes |
| `Explore.ExplorePage.HandleAISearch` | src/pages/Explore.tsx:158-228 | takes the path `AiSearchPath` chooses; refusal leaves the search flag alone; otherwise the flag ends off; the shown list becomes `SearchResult` of the old one |
| `MatchesDashboard.ParseDigits` | src/components/GrantMatchesDashboard.tsx:42 | `parseInt` of a digit string is NaN exactly on the empty string |
| `MatchesDashboard.AskAmount` | src/components/GrantMatchesDashboard.tsx:41-43 | null or empty gives 0; NaN iff the text is non-empty and has no digit |
| `MatchesDashboard.AskAmountIsAllDigits` | src/components/GrantMatchesDashboard.tsx:42 | the ask is the value of all digits together, not of one run |
| `MatchesDashboard.AskAmountIgnoresNonDigit` | src/components/GrantMatchesDashboard.tsx:42 | inserting a non-digit into a non-empty text never changes the ask |
| `MatchesDashboard.AskAmountEuroExample` | src/components/GrantMatchesDashboard.tsx:42 | "€500,000" asks for 500000 |
| `MatchesDashboard.AskAmountDecimalPointExample` | src/components/GrantMatchesDashboard.tsx:42 | "1000.5" asks for 10005: the decimal point is dropped |
| `MatchesDashboard.AskAmountNoDigitsExample` | src/components/GrantMatchesDashboard.tsx:41-43 | "n/a" gives NaN, not 0 |
| `MatchesDashboard.UserTrl` | src/components/GrantMatchesDashboard.tsx:47 | null or 0 gives 1; any other TRL is passed on; never 0 |
| `MatchesDashboard.UserCountry` | src/components/GrantMatchesDashboard.tsx:48 | null or empty gives "Germany"; any other location is passed on; never empty |
| `MatchesDashboard.ArgsFor` | src/components/GrantMatchesDashboard.tsx:41-50 | the arguments never carry TRL 0 or an empty country; no profile row gives (1, "Germany", 0) |
| `MatchesDashboard.FetchMatchingGrants` | src/components/GrantMatchesDashboard.tsx:21-60 | no user or a profile error gives the empty list; otherwise the list is empty or exactly the whole answer of the query for this profile's arguments |
| `MatchesDashboard.FetchAllOrNothing` | src/components/GrantMatchesDashboard.tsx:46-56 | a successful answer is shown whole; a failed query gives the empty list |
| `MatchesDashboard.ScoreBand` | src/components/GrantMatchesDashboard.tsx:62-75 | warning iff score > 80, success iff 40 ≤ score ≤ 80, muted iff score < 40 |
| `MatchesDashboard.ScoreBandMonotone` | src/components/GrantMatchesDashboard.tsx:63-74 | a higher score never gets a lower band |
| `MatchesDashboard.ScoreColorClasses` | src/components/GrantMatchesDashboard.tsx:62-75 | above 80 the warning classes, 40 to 80 the success classes, below 40 the muted classes, with their exact names |
| `MatchesDashboard.BandClassesDistinct` | src/components/GrantMatchesDashboard.tsx:63-74 | different bands use different text and background classes |
| `GrantCard.Thousands` | src/components/GrantCard.tsx:32-34 | the printed figure k satisfies 1000k − 500 ≤ a < 1000k + 500: nearest thousands, halves up |
| `GrantCard.ThousandsUnique` | src/components/GrantCard.tsx:32-34 | that rounding rule determines the figure |
| `GrantCard.Truthy` | src/components/GrantCard.tsx:31-33 | definition: an amount counts as given only when it is present and not 0 |
| `GrantCard.ThousandsLabel` | src/components/GrantCard.tsx:32-34 | the label is digits then "k", without a leading zero, and the digits read back as the rounded thousands |
| `GrantCard.FormatAmount` | src/components/GrantCard.tsx:30-35 | neither truthy (null or 0) gives "Amount varies"; only min gives "From €Xk"; only max "Up to €Yk"; both "€Xk - €Yk" |
| `GrantCard.FormatAmountZeroIsAbsent` | src/components/GrantCard.tsx:31-33 | an amount of 0 prints exactly as a null one |
| `GrantCard.FormatAmountCaseVisible` | src/components/GrantCard.tsx:30-35 | the text's opening tells which of the four cases applied, in both directions |
| `GrantCard.FromFigureReadsBack` | src/components/GrantCard.tsx:32 | the figure between "From €" and "k" reads back as the rounded thousands of the minimum |
| `GrantCard.ThousandsExamples` | src/components/GrantCard.tsx:32-34 | 1500 prints as 2, 2499 as 2, 499 as 0 |
| `GrantCard.FormatDeadline` | src/components/GrantCard.tsx:37-41 | a null or empty deadline renders "Rolling deadline", any other the locale date |
| `GrantCard.FundingBodyLabel` | src/components/GrantCard.tsx:75 | a null or empty funding body renders "Public Grant", any other itself |
| `GrantCard.ShownTags` | src/components/GrantCard.tsx:94-96 | none for null or empty tags, otherwise the first min(4, n) tags in order |
| `GrantCard.FitBadge` | src/components/GrantCard.tsx:68-72 | the badge appears iff a score is given, and its text is the score followed by "% Fit" |
| `GrantCard.FitBadgeReadsBack` | src/components/GrantCard.tsx:70 | the figure in front of "% Fit" reads back as the score |
| `GrantCard.HandleApply` | src/components/GrantCard.tsx:43-61 | no user: redirect to sign-up with the encoded path as `return_to`, no URL opened; user and URL: open the URL; user and no URL: "coming soon" |
| `Onboarding.RequiredFieldsFilled` | src/pages/Onboarding.tsx:31 | definition: company name, industry, stage, business model and funding ask are all non-empty; the website is not required |
| `Onboarding.StageToTrl` | src/pages/Onboarding.tsx:40-42 | always one of 1, 3, 5, 7; 1 iff "pre-seed", 3 iff "seed", 5 iff "series-a" |
| `Onboarding.StageToTrlOrdered` | src/pages/Onboarding.tsx:40-42 | pre-seed < seed < series-a < series-b in saved TRL |
| `Onboarding.Submit` | src/pages/Onboarding.tsx:28-54 | refused iff a required field is empty; not authenticated iff filled and no user; otherwise saves stage, mapped TRL, the raw ask and "Global" |
| `Onboarding.SubmitIgnoresWebsite` | src/pages/Onboarding.tsx:31 | the website is not required and never changes the outcome |
| `Onboarding.SubmitSavesOnlyStageAndAsk` | src/pages/Onboarding.tsx:46-51 | two filled forms with the same stage and ask save the same update |
| `Onboarding.EmptyFormRefused` | src/pages/Onboarding.tsx:19-34 | the form as first shown is refused |
| `RoundTrip.AskAmountOfDecimal` | src/components/GrantMatchesDashboard.tsx:42 | the decimal text of n is read back as the ask n |
| `RoundTrip.OnboardedProfileArgs` | src/pages/Onboarding.tsx:46-51 | a profile saved with ask "n" is matched with the stage's TRL, "Global" (never the "Germany" default) and ask n |

## Left out

- All database and authentication calls (`getUser`, table reads and updates, the `match_grants` and `match_grants_ai` functions): they are external. Their results are parameters (`signedIn`, `profile`, `matchGrants`, `demoTable`, `matchGrantsAi`). The scoring they perform is not in this code.
- Deadline ordering of rows: the database sorts them. `demoTable` is taken to be in that order already.
- The OpenAI embeddings request and its JSON decoding: network I/O. Its answer for the current description is the parameter `embedding`, with one failure case covering HTTP errors and bad JSON.
- Similarity to score (`Math.round(similarity * 100)`, Explore.tsx line 451): floating point. `FitBadge` takes the score as given.
- `formatDeadline`'s locale rendering: a library call, modelled as the parameter `localeDate`.
- `encodeURIComponent`: a library call, modelled as the parameter `encodeUriComponent`.
- `Text.Lower`: lower-cases ASCII letters only; JavaScript's full Unicode case mapping is not modelled.
- TRL criterion: it is modelled as an integer. `parseInt` of the dropdown string, and the NaN it could give, are not modelled; no TRL dropdown is rendered, so the criterion stays "all".
- Amounts: they are non-negative whole numbers. Negative or fractional amounts, and `toFixed` on very large doubles, are not modelled.
- Digit-string precision: `parseInt` of a very long digit string loses precision as a double. The model reads it exactly.
- `MatchesDashboard.ScoreBand`: takes an integer score; a fractional score from the database is not modelled.
- Each async handler is one atomic step. An interleaving, such as a late `fetchGrants` (src/pages/Explore.tsx:90-91) whose effect re-runs the filter over an AI search result, is not modelled.
- `fetchGrants`, the upload dialog, toasts, navigation, `sessionStorage`, `window.open`, the loading flags and React effects: presentation and glue. `ExplorePage.FilterGrants` is the body of the effect, not the effect's scheduling.
- Home, MissionManifesto, Signup, InvestorCard and Dashboard are presentation and are not part of this model.
