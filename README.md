# Influencer claims dashboard — decision logic in Dafny

The dashboard ranks health influencers by a trust score. It shows one influencer's
claims with their journal cross-references, and it lets a user start a research task
that re-checks an influencer against chosen journals. Three components hold the
deterministic logic, and this project models each of them:

- **The research-task wizard** (`ResearchTaskForm`, in `research_task_form.dfy`).
  This is a two-step state machine. Step 1 takes a handle and verifies it. Step 2
  edits a configuration draft and submits it. The event handlers are methods of
  the class `ResearchWizard`, whose fields are the state the component keeps: the
  handle, the verify attempt, the verified identity, the draft and the submit attempt.
  The error-message classifiers, field clamps, journal toggle, button guards and
  request construction are pure functions in the same module. `WizardScenarios`
  (`wizard_scenarios.dfy`) composes event sequences from the class's methods and
  proves their outcomes from the methods' contracts alone.
- **The influencer detail page** (`InfluencerDetailView`). It covers money and count
  formatting, the journal-badge union and its type precedence (a shown badge is never
  of the 'none' type, proved in `ClaimBadges`), the Verified Claims
  stat, the status colour, and the choice between skeleton, error panel and content.
- **The leaderboard** (`InfluencerLeaderboard`). It covers how the stats and list
  queries combine into one page state, positional ranks, trust-score colours, the
  follower cell, tag truncation and the average-score card.

Shared pieces:
- `ApiTypes` holds the wire records and `ErrorValue`. `ErrorValue` is one of three
  things: an axios error with an optional HTTP response, another `Error` with its
  message, or a thrown non-`Error` value.
- `Text` holds decimal rendering, one-decimal fixed notation and JavaScript's `trim`.
- `Wrappers` holds `Option` and `Result`.

Modelling choices:
- Query results, mutation outcomes and parsed numeric input are parameters. A
  `parseInt` result is an `Option<int>`, and NaN is `None`.
- `toFixed(1)` is modelled on exact values. It gives the nearest tenth, and a tie
  rounds up (`Text.Tenths`).
- Trust scores are exact `real`s. Counts and dollar amounts are `nat`s.
- In the source, the verification step is a child component. Its state is dropped
  when the child unmounts after a successful verify. So the model resets the handle
  and the verify attempt at that moment. After "Change", a fresh verification step
  appears.
- After a successful submit, the route is built from the identity that is verified
  when the submit settles. The route is `/research/<id>`, not the influencer detail
  page.

The code does three things one might not expect, and the model follows the code:
- "Change" keeps the configuration draft.
- `max_tokens` has no step rounding; the input's `step` attribute only affects its
  spinner.
- Nothing guards against a verify or submit callback arriving late.

## Model

| member | source | states |
|---|---|---|
| `Text.NatToString` | src/components/InfluencerDetail.tsx:62 | the decimal text of a count is non-empty, all digits, and has no leading zero |
| `Text.DecimalRoundTrip` | src/components/InfluencerDetail.tsx:62 | reading the rendered digits back gives the number |
| `Text.NatToStringInjective` | src/components/InfluencerLeaderboard.tsx:141 | distinct numbers (e.g. distinct ranks) render differently |
| `Text.NatToStringIsDecimalOf` | src/components/InfluencerDetail.tsx:62 | `toString()` of a count is its canonical decimal: digits denoting it, no leading zero |
| `Text.DecimalOfIsNatToString` | src/components/InfluencerDetail.tsx:62 | canonical decimal text is unique: any digits without a leading zero that denote n are exactly `NatToString(n)` |
| `Text.IntToString` | src/components/ResearchTaskForm.tsx:172 | an interpolated integer starts with '-' exactly when negative, followed by the canonical decimal of its magnitude (no leading zero) |
| `Text.Tenths` | src/components/InfluencerDetail.tsx:48-53 | `toFixed(1)` of amount/unit is the nearest tenth: within half a tenth of the exact quotient |
| `Text.TenthsToString` | src/components/InfluencerDetail.tsx:50 | fixed notation is a digit run without a leading zero, a point and one digit |
| `Text.TenthsRoundTrip` | src/components/InfluencerDetail.tsx:50 | reading the fixed notation back gives the same number of tenths |
| `Text.TenthsTextIsTenthsToString` | src/components/InfluencerDetail.tsx:50 | well-formed fixed notation is unique: it is the rendering of the tenths it denotes, so `DenotesTenths` fixes the text |
| `Text.TrimStart` | src/components/ResearchTaskForm.tsx:84 | removes only leading white space and leaves a suffix starting with a non-space |
| `Text.TrimEnd` | src/components/ResearchTaskForm.tsx:84 | removes only trailing white space and leaves a prefix ending with a non-space |
| `Text.Trim` | src/components/ResearchTaskForm.tsx:84 | `handle.trim()` is empty exactly when the handle is all white space |
| `Text.TrimEmptyExactlyWhenAllSpace` | src/components/ResearchTaskForm.tsx:84 | the trimmed text is empty iff every character is JavaScript white space |
| `Text.AllSpaceConcat` | src/components/ResearchTaskForm.tsx:84 | a concatenation is all white space iff both parts are |
| `ApiTypes.ShownTags` | src/components/InfluencerLeaderboard.tsx:154 | at most three tags are shown, as a prefix of the list in its order |
| `InfluencerDetailView.TenthsToStringDenotes` | src/components/InfluencerDetail.tsx:50-52 | the digits shown denote amount/unit rounded to the nearest tenth |
| `InfluencerDetailView.FormatMoney` | src/components/InfluencerDetail.tsx:48-53 | starts with "$"; ends in "M" iff amount ≥ 1,000,000, otherwise "K" (also below 1000); the digits are the amount in that unit to the nearest tenth |
| `InfluencerDetailView.FormatNumber` | src/components/InfluencerDetail.tsx:55-63 | "M+" iff ≥ 1,000,000; "K+" iff 1,000..999,999, with the digits denoting the count in that unit to the nearest tenth; below 1,000 the canonical decimal integer of the count |
| `InfluencerDetailView.MoneyExamples` | src/components/InfluencerDetail.tsx:48-53 | 999 gives "$1.0K", 1,500,000 gives "$1.5M", 0 gives "$0.0K" |
| `InfluencerDetailView.CountExamples` | src/components/InfluencerDetail.tsx:55-63 | 500 gives "500", 2,300 gives "2.3K+", 4,000,000 gives "4.0M+" |
| `InfluencerDetailView.Dedup` | src/components/InfluencerDetail.tsx:214-218 | `[...new Set(s)]` has the same members as s, no duplicates, and first-seen order |
| `InfluencerDetailView.BadgeUnion` | src/components/InfluencerDetail.tsx:214-218 | the badge row holds exactly the journals of the three lists, each once, in first-seen order across verified, questioned, debunked |
| `InfluencerDetailView.BadgeKindOf` | src/components/InfluencerDetail.tsx:219-222 | badge type precedence: verified if listed as verified, else questioned, else debunked, else none |
| `InfluencerDetailView.ClaimBadges` | src/components/InfluencerDetail.tsx:213-224 | one badge per union member in union order; none is of type 'none'; verified beats questioned and debunked, questioned beats debunked; each badge's type is its journal's `BadgeKindOf` |
| `InfluencerDetailView.BadgeExample` | src/components/InfluencerDetail.tsx:214-222 | a journal in two lists appears once; verified beats debunked, questioned beats debunked |
| `InfluencerDetailView.CountVerified` | src/components/InfluencerDetail.tsx:156 | the Verified Claims stat is at most the number of claims |
| `InfluencerDetailView.CountVerifiedIsVerifiedClaims` | src/components/InfluencerDetail.tsx:156 | the stat equals the number of claims whose status is 'Verified' |
| `InfluencerDetailView.StatusColour` | src/components/InfluencerDetail.tsx:192-198 | 'Verified' is emerald, 'Questionable' is yellow, every other status red |
| `InfluencerDetailView.VerifiedStatMatchesEmeraldPills` | src/components/InfluencerDetail.tsx:156-198 | the Verified Claims stat counts exactly the claims drawn with an emerald pill |
| `InfluencerDetailView.ClaimCardOf` | src/components/InfluencerDetail.tsx:189-224 | a claim card shows the status with its pill colour (emerald iff 'Verified'), the claim's category, text and source, and its badge row |
| `InfluencerDetailView.DetailPageOf` | src/components/InfluencerDetail.tsx:119-224 | the content shows the name, description and every tag, revenue as `FormatMoney`, followers as `FormatNumber`, a stat that reads as the verified-claim count, and one card per claim with its status colour and badges |
| `InfluencerDetailView.SelectDetailView` | src/components/InfluencerDetail.tsx:74-100 | loading gives the skeleton; else an error or absent data gives the error panel; else the content of the received record; exclusive and exhaustive |
| `InfluencerLeaderboard.TrustColour` | src/components/InfluencerLeaderboard.tsx:164-168 | green iff ≥ 90, emerald iff 80 up to 90, yellow iff below 80 |
| `InfluencerLeaderboard.TrustColourMonotone` | src/components/InfluencerLeaderboard.tsx:164-168 | a higher score never gets a lower band |
| `InfluencerLeaderboard.FollowerCell` | src/components/InfluencerLeaderboard.tsx:180-184 | "M" iff ≥ 1,000,000, "K" iff 1,000..999,999, with the digits denoting the count in that unit to the nearest tenth; else the canonical decimal integer |
| `InfluencerLeaderboard.FollowerCellIsFormatNumberWithoutPlus` | src/components/InfluencerLeaderboard.tsx:180-184 | the follower cell is the detail page's count format without the "+" |
| `InfluencerLeaderboard.RowOf` | src/components/InfluencerLeaderboard.tsx:133-189 | a row reads "#" then the canonical decimal of position + 1, links to "/influencers/" then the id (a "-" and the canonical magnitude when negative), shows name, description, at most three tags, the score × 100 in its band colour, the trend, the follower cell and the verified-claim count |
| `InfluencerLeaderboard.Rows` | src/components/InfluencerLeaderboard.tsx:133-141 | one row per list item, in server order, rank = index + 1 |
| `InfluencerLeaderboard.RanksAreConsecutive` | src/components/InfluencerLeaderboard.tsx:133-141 | ranks strictly increase, and row i's label is exactly "#" followed by `NatToString(i + 1)` |
| `InfluencerLeaderboard.AveragePercent` | src/components/InfluencerLeaderboard.tsx:113 | no stats gives 0, otherwise average × 100, within [0, 100] for an average in [0, 1] |
| `InfluencerLeaderboard.StatsBlockOf` | src/components/InfluencerLeaderboard.tsx:95-117 | the two counts appear exactly when the stats record has arrived and equal its fields; the third card is `AveragePercent` |
| `InfluencerLeaderboard.ComposePage` | src/components/InfluencerLeaderboard.tsx:52-74 | Loading iff either query loads; then ErrorState iff the list failed; otherwise the board of stats and rows |
| `InfluencerLeaderboard.StatsErrorIsIgnored` | src/components/InfluencerLeaderboard.tsx:52-55 | the stats query's error never changes the page |
| `InfluencerLeaderboard.StatsFailureStillRanksTheList` | src/components/InfluencerLeaderboard.tsx:66-74 | failed stats next to a loaded list: ranks #1..#n and blank stat counts, no error page |
| `ResearchTaskForm.TimeRangeValue` | src/components/ResearchTaskForm.tsx:13-18 | the value an option carries and a request sends: "all" exactly for All Time, "last-…" for the others |
| `ResearchTaskForm.TimeRangeOptionValues` | src/components/ResearchTaskForm.tsx:13-18 | every range has a button, and the buttons carry "last-week", "last-month", "last-year", "all" in that order |
| `ResearchTaskForm.JournalOptions` | src/components/ResearchTaskForm.tsx:20-28 | the checkbox list `Journals` offers seven journals, each once, starting with PubMed Central and Nature |
| `ResearchTaskForm.HighlightedOptionIsSelected` | src/components/ResearchTaskForm.tsx:231-239 | the time-range option values are distinct, so the highlighted button is exactly the one chosen |
| `ResearchTaskForm.InitialDraft` | src/components/ResearchTaskForm.tsx:151-157 | the starting draft is in range, sends "last-month", offers only listed journals without repeats, and is submittable |
| `ResearchTaskForm.VerifyErrorMessage` | src/components/ResearchTaskForm.tsx:49-55 | no error gives ""; a 404 gives the server message verbatim; any other error gives the fixed fallback |
| `ResearchTaskForm.VerifyMessageHidesErrorText` | src/components/ResearchTaskForm.tsx:49-55 | the text of a non-404 failure never reaches the user |
| `ResearchTaskForm.SubmitErrorMessage` | src/components/ResearchTaskForm.tsx:180-184 | a non-empty server message, else the fallback for axios errors; an Error's own message; the fallback for anything else |
| `ResearchTaskForm.SubmitErrorDetails` | src/components/ResearchTaskForm.tsx:176-178 | details come only from an axios response body's `details` |
| `ResearchTaskForm.ParsedOr` | src/components/ResearchTaskForm.tsx:260 | `parseInt(..) \|\| fallback`: a non-zero parse is kept; NaN and 0 give the fallback |
| `ResearchTaskForm.ClampClaimsCount` | src/components/ResearchTaskForm.tsx:258-261 | always in [1, 100]; in-range kept; above 100 gives 100; 0, negatives and NaN give 1 |
| `ResearchTaskForm.ClampMaxTokens` | src/components/ResearchTaskForm.tsx:280-283 | always ≥ 1024; values ≥ 1024 kept exactly; smaller, 0 and NaN give 1024 |
| `ResearchTaskForm.WithoutJournal` | src/components/ResearchTaskForm.tsx:308-311 | unchecking removes every occurrence and keeps every other entry with its multiplicity and in its original order |
| `ResearchTaskForm.WithoutJournalKeepsNoDuplicates` | src/components/ResearchTaskForm.tsx:308-311 | filtering never introduces a repeat |
| `ResearchTaskForm.ToggledJournals` | src/components/ResearchTaskForm.tsx:301-313 | checking appends at the end; unchecking removes all occurrences and keeps the rest in order |
| `ResearchTaskForm.CheckThenUncheckRestores` | src/components/ResearchTaskForm.tsx:301-313 | checking and then unchecking a journal that was not selected restores the list |
| `ResearchTaskForm.ControlledToggleKeepsNoDuplicates` | src/components/ResearchTaskForm.tsx:298-313 | with the checkbox bound to `includes`, toggling never creates a duplicate |
| `ResearchTaskForm.VerifyEnabled` | src/components/ResearchTaskForm.tsx:84 | Verify is enabled iff the handle has a non-space character and no verify is pending |
| `ResearchTaskForm.SubmitEnabled` | src/components/ResearchTaskForm.tsx:352 | Start Research is enabled iff not submitting and some journal is selected |
| `ResearchTaskForm.BuildRequest` | src/components/ResearchTaskForm.tsx:164-169 | the request is the verified id plus the draft unchanged; with no influencer, the error "No influencer selected" |
| `ResearchTaskForm.MissingInfluencerMessage` | src/components/ResearchTaskForm.tsx:165 | that error shows "No influencer selected" with no details |
| `ResearchTaskForm.ResearchRoute` | src/components/ResearchTaskForm.tsx:172 | the route is "/research/" then the canonical decimal of the id (a "-" then its magnitude when negative), or "undefined" with no identity |
| `ResearchTaskForm.ResearchWizard.constructor` | src/components/ResearchTaskForm.tsx:148-157 | empty handle, idle attempts, no identity, the initial draft |
| `ResearchTaskForm.ResearchWizard.VerifyMessage` | src/components/ResearchTaskForm.tsx:49-55 | empty unless the last verify failed; then the 404 body's message or the fixed fallback |
| `ResearchTaskForm.ResearchWizard.SubmitPanel` | src/components/ResearchTaskForm.tsx:339-347 | the panel appears iff the submission failed, with the classified message, and shows details exactly when the error supplies non-empty details |
| `ResearchTaskForm.ResearchWizard.View` | src/components/ResearchTaskForm.tsx:208-223 | step 2 shows iff an influencer is verified; step 1 shows the handle as typed with the verify message; step 2's card shows the influencer's name, description and at most three tags, with the draft and the submit panel; the buttons follow the guards |
| `ResearchTaskForm.ResearchWizard.EditHandle` | src/components/ResearchTaskForm.tsx:69-72 | stores the text; a failed verify becomes idle, so the message is empty; nothing else changes |
| `ResearchTaskForm.ResearchWizard.ClickVerify` | src/components/ResearchTaskForm.tsx:82-84 | sends the handle exactly when enabled, so a blank handle never sends; otherwise nothing changes |
| `ResearchTaskForm.ResearchWizard.VerifySettled` | src/components/ResearchTaskForm.tsx:42-47 | success stores the identity and discards the step's state; failure records the error |
| `ResearchTaskForm.ResearchWizard.Change` | src/components/ResearchTaskForm.tsx:210-218 | clears the identity, shows a fresh step 1, keeps the draft |
| `ResearchTaskForm.ResearchWizard.SelectTimeRange` | src/components/ResearchTaskForm.tsx:235 | changes only the time range |
| `ResearchTaskForm.ResearchWizard.ChangeClaimsCount` | src/components/ResearchTaskForm.tsx:258-261 | changes only the claims count, to its clamp |
| `ResearchTaskForm.ResearchWizard.ChangeMaxTokens` | src/components/ResearchTaskForm.tsx:280-283 | changes only max tokens, to its clamp |
| `ResearchTaskForm.ResearchWizard.ToggleJournal` | src/components/ResearchTaskForm.tsx:301-313 | changes only the selected journals, by the toggle |
| `ResearchTaskForm.ResearchWizard.ChangeNotes` | src/components/ResearchTaskForm.tsx:331 | changes only the notes |
| `ResearchTaskForm.ResearchWizard.ClickSubmit` | src/components/ResearchTaskForm.tsx:159-170 | when enabled, sends the built request (never with no journals), or fails at once without an identity |
| `ResearchTaskForm.ResearchWizard.SubmitSettled` | src/components/ResearchTaskForm.tsx:171-173 | success yields the route once; failure records the error and navigates nowhere |
| `WizardScenarios.NotFoundThenEdit` | src/components/ResearchTaskForm.tsx:49-72 | a 404 "not found" shows exactly that; the next edit clears it before a new request |
| `WizardScenarios.BlankHandleSendsNothing` | src/components/ResearchTaskForm.tsx:84 | a blank handle sends no request |
| `WizardScenarios.VerifiedWizard` | src/components/ResearchTaskForm.tsx:42-47 | verification hands over the identity with the initial draft |
| `WizardScenarios.UncheckSecondDefault` | src/components/ResearchTaskForm.tsx:310 | unchecking Nature in the initial selection leaves PubMed Central |
| `WizardScenarios.SwapSecond` | src/components/ResearchTaskForm.tsx:301-313 | in a two-journal selection, unchecking the second and checking another puts the new one in second place |
| `WizardScenarios.SwapJournals` | src/components/ResearchTaskForm.tsx:301-313 | from the initial selection, unchecking Nature and checking Science gives PubMed Central, Science |
| `WizardScenarios.SwapNatureForScience` | src/components/ResearchTaskForm.tsx:301-313 | the two checkbox events on a wizard change only its selection, to PubMed Central, Science |
| `WizardScenarios.ConfiguredWizard` | src/components/ResearchTaskForm.tsx:235-313 | the handlers compose into the expected draft |
| `WizardScenarios.ConfigureAndSubmit` | src/components/ResearchTaskForm.tsx:164-173 | the request carries the verified id and the configured fields; success routes to that id |
| `WizardScenarios.EmptySelectionBlocksSubmit` | src/components/ResearchTaskForm.tsx:352 | with every journal unchecked, submitting sends nothing |
| `WizardScenarios.LateSubmitAfterChange` | src/components/ResearchTaskForm.tsx:171-172 | a submission sent before "Change" and settling after it routes to "/research/undefined" |
| `WizardScenarios.ChangeKeepsDraft` | src/components/ResearchTaskForm.tsx:213 | after "Change" and a new verification, the request still carries the old draft (150 clamped to 100) |

## Left out

- Network I/O is not modelled. The axios instance and its base URL (`src/services/api.ts`) are not part of this model. That file defines only `getStats` and `getList`; the components also call `getById`, `verify` and `researchService.createTask`, which it does not define. Every fetch and mutation is an outcome passed in as a parameter.
- React Query internals are not modelled: caching, deduplication, refetching, ordering of responses in flight, and stale responses. Query states and mutation outcomes are inputs. A verify or submit outcome may still be delivered in any state the method's precondition allows: a submission may settle after "Change", and since the code has no fencing, the model then returns `/research/undefined`, or the id of an influencer verified since (`WizardScenarios.LateSubmitAfterChange`).
- Floating point is not modelled, because the model uses exact values. This covers `trustScore * 100` and `averageTrustScore * 100` as doubles, and `toLocaleString` on the leaderboard's stat counts.
- The detail page's two rounded percentages are not modelled: the trust score card (`Math.round(trustScore * 100) \|\| 0`) and each claim's score (`Math.round(claim.score * 100)`, without `\|\| 0`). The source renders both; the model's `DetailPage` and `ClaimCard` leave them out, because they are floating-point rounding.
- `Text.Tenths`: models `toFixed(1)` on the exact quotient. A binary double can round a tie the other way, and `toFixed` switches to exponent notation from 1e21. Neither is modelled.
- `InfluencerDetailView.FormatMoney`, `InfluencerDetailView.FormatNumber` and `InfluencerLeaderboard.FollowerCell`: they take natural numbers. Negative and fractional amounts are not modelled.
- Date formatting of `firstDetectedAt` is not modelled.
- Not modelled: what the JSX renders beyond the choices listed above, CSS classes (colours are an enum), icons, `DefaultAvatar` and `Link`. Every navigation apart from the route pushed after a successful submit is also not modelled, for example "Back to Dashboard".
- The detail page's tab state (`activeTab`) and its two placeholder tabs are not modelled.
- The page wrappers under `src/app` only mount providers, so they are not modelled.
- The unused `ResearchTaskForm` interface in `src/types/research.types.ts` is not modelled. The model follows the form's own draft shape instead.
- `parseInt` is not modelled. Handlers receive its result: NaN is `None`.
- A verify failure whose axios response has no body at all is not modelled. In the code, `response.data.message` would then throw. The model always carries a body, whose fields may be missing.
- `InfluencerDetail` is imported from `src/types/api.ts`, but that file does not define it, and it defines no claim type either. The fields of `InfluencerDetail` and of the model's `Claim` are inferred from what the detail page reads.
- `ResearchTaskForm.ResearchWizard` step-1 methods require that no influencer is verified. This is because the handle input only exists in step 1.
