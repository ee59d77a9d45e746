# Candid'aide in Dafny

A verified model of the decision logic of Candid'aide, a job-search service. It has a React
front end and Deno edge functions. The model covers:

- **The offer matcher** (`MatchOffers`, `MatchRanking`, `StableSort`, `MatchExample`). It
  scores a candidate against an offer on five capped factors: skills 40, title 20, location 15,
  contract 15 and sector 10. It collects the reasons in factor order, then keeps the offers that
  reach the minimum score, sorts them by score with a stable sort and cuts the list to the limit.
  Scores are exact `real`s, and `Math.round` is the floor of `x + 1/2`.
- **The onboarding tunnel** (`Tunnel`, `Step2Pricing` … `Step7Preferences`, `TunnelProgress`).
  - The `TunnelData` record is a total function from field names to typed values.
  - Each step handler returns the partial update it hands to `onChange`, and `onChange` is the
    shallow merge `Tunnel.Merge`.
  - Steps 4, 5 and 6 keep local state that they change in place. That state lives in classes:
    the draft formation and experience, the commune input box, and the upload/analysis flags
    with the record.
- **Validators and decisions:**
  - the login/sign-up form (`Auth`, a class for the page state);
  - the route guard (`ProtectedRoute`);
  - the subscription check (`CheckSubscription`, an imperative method over the payment
    provider's answers);
  - the checkout-session composition (`CreateCheckout`).
- **Dashboard and landing-page state:**
  - offers and applications (`Offers`);
  - the application kanban (`Kanban`);
  - favourites (`OffersList`);
  - the messaging page (`Messaging`, a class);
  - the pricing stepper (`Pricing`);
  - the FAQ accordion (`Faq`);
  - the welcome chat bot (`WelcomeAgent`, a class).
- **Support modules.** `Wrappers` (`Option`, `Result`), `Text` and `Lists` model the JavaScript
  string and array operations the code relies on. `Text` covers `toLowerCase`, `trim`,
  `includes`, `split(',')`, `split(/\s+/)` and `replace`. `Lists` covers `filter`, `map`,
  `slice` and the add-or-remove toggle.

## Model

| member | source | states |
|---|---|---|
| MatchOffers.Round | supabase/functions/match-offers/index.ts:105 | `Math.round` gives the integer nearest to x, with halves rounded up. |
| MatchOffers.Similarity | supabase/functions/match-offers/index.ts:14-24 | The similarity is always in [0, 1]. It is 0 when either text is empty and 1 when both normalise (lower-cased, trimmed) to the same text. |
| MatchOffers.CommonWords | supabase/functions/match-offers/index.ts:22 | There are never more common words than words in the first text, so the ratio at line 23 is at most 1. |
| MatchOffers.SimilarityOfBlank | supabase/functions/match-offers/index.ts:15-22 | A non-empty title that is only white space passes the emptiness test. It normalises to "" and its one empty word overlaps every word, so its similarity is 1 over the other text's word count. |
| MatchOffers.SimilarityNotSymmetric | supabase/functions/match-offers/index.ts:22-23 | Only the first text's words are counted: similarity("a a", "a") = 1 but similarity("a", "a a") = 1/2, because the division is by the larger word count. |
| MatchOffers.MaxFold | supabase/functions/match-offers/index.ts:57-61 | Folding `Math.max` from 0 gives a value that bounds every entry and is one of them or 0. |
| MatchOffers.TitleSimilarities | supabase/functions/match-offers/index.ts:58-59 | There is one similarity per desired title, each in [0, 1]. |
| MatchOffers.TitleSimilarityAt | supabase/functions/match-offers/index.ts:59 | Entry k is the similarity of the k-th desired title to the offer title. |
| MatchOffers.BestSimilarityIsMax | supabase/functions/match-offers/index.ts:57-61 | The best match is in [0, 1], at least every title's similarity, and equal to one of them or 0. |
| MatchOffers.BestSimilarityStep | supabase/functions/match-offers/index.ts:60 | One loop step: the best over one more title is the max of the best so far and the new similarity. |
| MatchOffers.BestMetierMatch | supabase/functions/match-offers/index.ts:57-61 | The `for` loop computes exactly the best similarity of the desired titles. |
| MatchOffers.SkillsPoints | supabase/functions/match-offers/index.ts:46 | min(m/n × 40, 40) is in [0, 40], and 40 once the matches reach the required count. |
| MatchOffers.SkillsFactorSpec | supabase/functions/match-offers/index.ts:35-51 | The skills factor scores 0 with no reason unless both token lists are non-empty. Otherwise it is in [0, 40], 40 when every required skill is matched, and it has a reason iff there is a match; the reason carries the match count. |
| MatchOffers.TitleFactorSpec | supabase/functions/match-offers/index.ts:53-66 | The title factor is in [0, 20] and 0 without desired titles. It is at least 20 × each title's similarity, and it has the "Poste similaire recherché" reason iff it exceeds 10. |
| MatchOffers.LocationFactorSpec | supabase/functions/match-offers/index.ts:68-78 | A commune found in the lower-cased lieu (or ville) gives 15 with that place as reason; otherwise no communes gives 10 and "Localisation flexible"; otherwise 0 and no reason (both directions). |
| MatchOffers.ContractFactorSpec | supabase/functions/match-offers/index.ts:80-90 | 15 points iff no contract type is required or one is contained in the offer's; a reason (the upper-cased type) iff accepted and the offer names a type. |
| MatchOffers.SectorFactorSpec | supabase/functions/match-offers/index.ts:92-102 | 10 points iff no sector is required or, for some sector, one of it and the domain contains the other; a reason iff accepted and the domain is non-empty. |
| MatchOffers.EmptyDomainAlwaysAccepted | supabase/functions/match-offers/index.ts:97 | An offer without a domain always earns the 10 sector points, with no reason, whatever sectors are desired. |
| MatchOffers.RawScoreBounds | supabase/functions/match-offers/index.ts:31-102 | The sum of the five factors lies in [0, 100]. |
| MatchOffers.MatchScoreBounds | supabase/functions/match-offers/index.ts:105 | The score is an integer in [0, 100], within a half of the raw sum. |
| MatchOffers.ReasonAppendOrdered | supabase/functions/match-offers/index.ts:49 | Pushing a later factor's reason after earlier factors' reasons keeps them in factor order. |
| MatchOffers.FiveReasonsOrdered | supabase/functions/match-offers/index.ts:49-100 | Five factors that each push at most their own reason give at most five reasons in factor order. |
| MatchOffers.SkillsReasonIndex | supabase/functions/match-offers/index.ts:49 | The skills step pushes only a skills reason. |
| MatchOffers.TitleReasonIndex | supabase/functions/match-offers/index.ts:65 | The title step pushes only the title reason. |
| MatchOffers.LocationReasonIndex | supabase/functions/match-offers/index.ts:74-77 | The location step pushes only a location reason. |
| MatchOffers.ContractReasonIndex | supabase/functions/match-offers/index.ts:88 | The contract step pushes only a contract reason. |
| MatchOffers.SectorReasonIndex | supabase/functions/match-offers/index.ts:100 | The sector step pushes only a sector reason. |
| MatchOffers.MatchReasonsOrdered | supabase/functions/match-offers/index.ts:32-106 | The reasons come in the order skills, title, location, contract, sector, at most one per factor. |
| MatchOffers.ScoreSkills | supabase/functions/match-offers/index.ts:35-51 | The skills block adds the skills factor's points and reason to the running score and list. |
| MatchOffers.ScoreTitle | supabase/functions/match-offers/index.ts:53-66 | The title block adds the title factor's points and reason. |
| MatchOffers.ScoreLocation | supabase/functions/match-offers/index.ts:68-78 | The location block adds the location factor's points and reason. |
| MatchOffers.ScoreContract | supabase/functions/match-offers/index.ts:80-90 | The contract block adds the contract factor's points and reason. |
| MatchOffers.ScoreSector | supabase/functions/match-offers/index.ts:92-102 | The sector block adds the sector factor's points and reason. |
| MatchOffers.CalculateMatchScore | supabase/functions/match-offers/index.ts:27-108 | The imperative scorer returns the rounded, capped factor sum and the reasons in factor order, as `MatchScore`/`MatchReasons` define them. |
| MatchExample.MissingSkillTokens | supabase/functions/match-offers/index.ts:36 | A missing skills field splits into one empty piece. |
| MatchExample.NoProfileSkills | supabase/functions/match-offers/index.ts:38-42 | Without skills the skills block is skipped: 0 points, no reason. |
| MatchExample.NoProfileTitle | supabase/functions/match-offers/index.ts:54-66 | Without desired titles the title factor is 0 with no reason. |
| MatchExample.NoProfileLocation | supabase/functions/match-offers/index.ts:75-77 | Without communes the location is flexible: 10 points. |
| MatchExample.NoProfileScore | supabase/functions/match-offers/index.ts:27-108 | An empty profile scores 35 against any offer. Its reasons are "Localisation flexible", then the contract and sector reasons when the offer names them. |
| MatchExample.ExampleRawScore | supabase/functions/match-offers/index.ts:31-102 | Factors 0, 20/3, 15, 15 and 10 add up to 140/3. |
| MatchExample.ExampleScore | supabase/functions/match-offers/index.ts:105 | 140/3 rounds to 47. |
| MatchExample.ExampleReasons | supabase/functions/match-offers/index.ts:64-100 | The example's reasons are location, contract and sector: 20/3 title points are not above 10. |
| MatchExample.ThreeReasons | supabase/functions/match-offers/index.ts:32-106 | Two factors without a reason followed by three with one give exactly those three, in order. |
| MatchExample.ExampleCommonWords | supabase/functions/match-offers/index.ts:22 | "développeur web" against "développeur full stack" shares one word out of three. |
| MatchExample.ExampleReasonTexts | supabase/functions/match-offers/index.ts:74-100 | The rendered texts of the example's location, contract and sector reasons. |
| MatchExample.ExampleCandidateSkills | supabase/functions/match-offers/index.ts:35-38 | The candidate's "Excel, Word" splits, trims and lower-cases to the tokens "excel" and "word". |
| MatchExample.ExampleOfferSkills | supabase/functions/match-offers/index.ts:40 | The offer's one required skill "JavaScript" lower-cases to "javascript". |
| MatchExample.ExampleSkillMatches | supabase/functions/match-offers/index.ts:43-45 | Neither candidate token and "javascript" contains the other, so nothing matches. |
| MatchExample.ExampleSkillsFactor | supabase/functions/match-offers/index.ts:42-51 | Both token lists are non-empty but nothing matches: the skills factor is 0 points with no reason. |
| MatchExample.ExampleSimilarity | supabase/functions/match-offers/index.ts:14-24 | "Développeur web" against "Développeur Full Stack" has similarity exactly 1/3. |
| MatchExample.ExampleBestSimilarity | supabase/functions/match-offers/index.ts:57-61 | With the one desired title, the best similarity is 1/3. |
| MatchExample.ExampleTitleFactor | supabase/functions/match-offers/index.ts:53-66 | The title factor is 20/3 points, with no reason because 20/3 is not above 10. |
| MatchExample.ExampleLocationFactor | supabase/functions/match-offers/index.ts:68-78 | The commune "Bruxelles" occurs in the offer's place: 15 points, reason naming "bruxelles". |
| MatchExample.ExampleContractFactor | supabase/functions/match-offers/index.ts:80-90 | No contract type is required: 15 points, reason naming the offer's "CDI". |
| MatchExample.ExampleSectorFactor | supabase/functions/match-offers/index.ts:92-102 | The domain "informatique" is contained in the sector "informatique et it": 10 points, reason naming the domain. |
| MatchExample.ExampleFactors | supabase/functions/match-offers/index.ts:31-102 | The concrete candidate and offer get the factors 0, 20/3, 15, 15 and 10, the last three with their reasons. |
| MatchExample.ExampleMatchScore | supabase/functions/match-offers/index.ts:27-108 | The concrete candidate and offer score 47. |
| MatchExample.ExampleMatchReasons | supabase/functions/match-offers/index.ts:27-108 | Their reasons are the location, the contract and the sector, in that order. |
| MatchRanking.AnnotateSpec | supabase/functions/match-offers/index.ts:168-175 | The map step keeps the offer and attaches its own score and reasons. |
| MatchRanking.QualifyingSpec | supabase/functions/match-offers/index.ts:167-176 | Every offer left after map and filter comes from the input, carries its own score and reasons, and reaches the minimum score; conversely every input offer that reaches the minimum score is kept. |
| MatchRanking.RankedIsSortedPrefix | supabase/functions/match-offers/index.ts:167-178 | The result is a prefix of the stable descending sort of the qualifying offers. |
| MatchRanking.RankedOffersSpec | supabase/functions/match-offers/index.ts:134-178 | The result is sorted by non-increasing score. Each entry comes from the input, is annotated with its own score and reasons, and scores at least `min_score` (default 50). |
| MatchRanking.RankedLength | supabase/functions/match-offers/index.ts:134-178 | The result has `slice(0, limit)`'s length (default limit 10), negative limits included. |
| MatchRanking.RankedAreBest | supabase/functions/match-offers/index.ts:176-178 | The returned offers and the ones cut off make up the qualifying offers, and no cut-off offer scores above a returned one. |
| MatchRanking.RankedTiesInInputOrder | supabase/functions/match-offers/index.ts:177-178 | Among offers of equal score, the returned ones followed by the cut-off ones are in input order. |
| MatchRanking.TakeSortedTies | supabase/functions/match-offers/index.ts:177-178 | Cutting a stable sort anywhere splits each score's entries in input order. |
| StableSort.SortDesc | supabase/functions/match-offers/index.ts:177 | The sort is a permutation and is sorted by non-increasing score. |
| StableSort.SortDescStable | supabase/functions/match-offers/index.ts:177 | The sort is stable: the entries of each score keep their input order. |
| StableSort.InsertPermutes | supabase/functions/match-offers/index.ts:177 | Insertion adds exactly the inserted element. |
| StableSort.InsertSorted | supabase/functions/match-offers/index.ts:177 | Insertion into a sorted list keeps it sorted. |
| StableSort.InsertWithKey | supabase/functions/match-offers/index.ts:177 | Insertion puts the element first among those of its score. |
| StableSort.SortedPrefix | supabase/functions/match-offers/index.ts:178 | A prefix of a sorted list is sorted, and no later entry scores above an entry of the prefix. |
| Lists.Take | supabase/functions/match-offers/index.ts:178 | `slice(0, n)` is a prefix of length min(n, len), or len + n for a negative n (0 if that is negative). |
| Text.Words | supabase/functions/match-offers/index.ts:20 | `split(/\s+/)` gives at least one piece, none holding white space. |
| Text.WordsCons | supabase/functions/match-offers/index.ts:20 | A word, a space and a text that starts with a non-space split into the word followed by the text's words. |
| Text.JoinSplit | supabase/functions/match-offers/index.ts:36 | `split(',')` loses nothing: joining the pieces with ',' gives back the text. |
| Text.Split | supabase/functions/match-offers/index.ts:36 | `split(',')` gives at least one piece and no piece holds a comma. |
| Text.TrimIsInnerSlice | supabase/functions/match-offers/index.ts:16 | `trim` returns a slice of its input that neither starts nor ends with white space. |
| Text.TrimIdempotent | supabase/functions/match-offers/index.ts:16 | Trimming twice is trimming once. |
| Text.LowerIdempotent | supabase/functions/match-offers/index.ts:16 | Lower-casing twice is lower-casing once; it keeps the length and the white space. |
| Text.ContainsIffOccurs | supabase/functions/match-offers/index.ts:22 | `includes` holds iff the text occurs as a contiguous slice. |
| Text.ContainsTrivial | supabase/functions/match-offers/index.ts:97 | Every text includes "" and itself. |
| Text.Substitute | src/components/WelcomeAgent.tsx:47 | A replacement template without `$` is copied unchanged; `$$`, `$&`, `` $` `` and `$'` are its only patterns. |
| Text.SubstituteAppend | src/components/WelcomeAgent.tsx:47 | A template can be substituted piece by piece when the second piece cannot complete a `$` pattern of the first. |
| Text.ReplaceFirst | src/components/WelcomeAgent.tsx:47 | `replace` of a one-character pattern rewrites exactly its first occurrence, if any, by the template with its `$` patterns expanded against that match; a text without the character is kept. |
| Text.Utf16Length | src/components/tunnel/Step3Account.tsx:22 | JavaScript's `length` counts at least one and at most two UTF-16 code units per character. |
| Text.Utf16LengthAppend | src/components/tunnel/Step3Account.tsx:22 | The `length` of a concatenation is the sum of the lengths. |
| Tunnel.ParseMode | src/types/tunnel.ts:1 | A parsed service-mode id names that mode. |
| Tunnel.ModesComplete | src/types/tunnel.ts:1 | There are exactly three service modes, each of them reachable from its id. |
| Tunnel.ParsePlan | src/types/tunnel.ts:3-9 | A parsed plan id names that plan. |
| Tunnel.PlansComplete | src/types/tunnel.ts:3-9 | There are exactly six plans, each reachable from its id. |
| Tunnel.ConsentKeysComplete | src/types/tunnel.ts:111-120 | The consent record has exactly eight distinct keys. |
| Tunnel.ConsentsExtensional | src/types/tunnel.ts:111-120 | Two consent records that agree on the eight keys are equal. |
| Tunnel.MergeWellTyped | src/types/tunnel.ts:31-121 | Merging a well-typed update into a well-typed record keeps every field at its declared type. |
| Tunnel.MergeTwice | src/types/tunnel.ts:31-121 | Two merges in a row are one merge of the combined update, the later one winning. |
| Tunnel.MergeIdempotent | src/types/tunnel.ts:31-121 | Merging the same update twice is merging it once; the empty update changes nothing. |
| Tunnel.ToggleItem | src/components/tunnel/Step5Projet.tsx:25-32 | The toggle updates only the named list field. The item becomes present iff it was absent, other items keep their membership, and an absent item is appended. |
| Tunnel.ToggleItemFrame | src/components/tunnel/Step4Situation.tsx:39-55 | A toggle leaves every other field of the record unchanged. |
| Tunnel.ToggleItemTwice | src/components/tunnel/Step3Account.tsx:33-40 | Toggling an absent item twice gives back the list. |
| Tunnel.ToggleItemDistinct | src/components/tunnel/Step7Preferences.tsx:27-34 | A toggle keeps a duplicate-free list duplicate-free. |
| Tunnel.InitialTunnelDataWellTyped | src/types/tunnel.ts:123-188 | The initial record holds a value of the declared type in every field. |
| Tunnel.InitialTunnelDataEmpty | src/types/tunnel.ts:123-188 | Initially mode and plan are null, every list is empty, every text is '', every flag false, every tri-state answer and file null. |
| Tunnel.InitialTunnelDataValues | src/types/tunnel.ts:152-167 | Initially there are no formations or experiences, the distance is 30 and the CV score 0. |
| Tunnel.InitialConsents | src/types/tunnel.ts:178-187 | Initially none of the eight consents is given. |
| Tunnel.SituationsIncludeEmployed | src/types/tunnel.ts:203-209 | The situations offered include "En emploi". |
| Tunnel.ProfileOptionsDistinct | src/types/tunnel.ts:191-227 | The licence, situation, availability and education option lists have no duplicates. |
| Tunnel.SectorOptionsDistinct | src/types/tunnel.ts:229-246 | The sector options have no duplicates. |
| Tunnel.ContractOptionsDistinct | src/types/tunnel.ts:248-265 | The contract options have no duplicates. |
| Tunnel.ConditionsOptionsDistinct | src/types/tunnel.ts:267-296 | The schedule, salary and tasks-to-avoid options have no duplicates. |
| Tunnel.PreferenceOptionsDistinct | src/types/tunnel.ts:298-367 | The follow-up, contact, job-site, discovery and account option lists have no duplicates. |
| Step2Pricing.ScreenFor | src/components/tunnel/Step2Pricing.tsx:89-148 | The free screen shows iff the mode is autonome; otherwise the plan cards are distinct and never include the free plan. |
| Step2Pricing.ScreenForModes | src/components/tunnel/Step2Pricing.tsx:148 | Assisté offers pack_8, mensuel_30, pack_15 in that order; délégation and an unset mode offer the two premium plans. |
| Step2Pricing.ToggleService | src/components/tunnel/Step2Pricing.tsx:81-87 | A selected service is removed everywhere, an unselected one appended, and other services keep their membership. |
| Step2Pricing.ToggleServiceTwice | src/components/tunnel/Step2Pricing.tsx:81-87 | Toggling an unselected service twice gives back the list. |
| Step2Pricing.AtMostOneSelected | src/components/tunnel/Step2Pricing.tsx:168 | At most one card on screen is marked selected. |
| Step3Account.Count | src/components/tunnel/Step3Account.tsx:21-26 | The count of criteria met is at most the number of criteria. |
| Step3Account.CountMonotone | src/components/tunnel/Step3Account.tsx:21-26 | Meeting more criteria never lowers the count. |
| Step3Account.GetPasswordStrength | src/components/tunnel/Step3Account.tsx:20-27 | The step-by-step counter equals the number of criteria met (length counted in UTF-16 code units), at most 4. |
| Step3Account.StrengthExtremes | src/components/tunnel/Step3Account.tsx:20-27 | The empty password scores 0; 4 iff it is 8+ UTF-16 code units long and has both cases, a digit and a symbol. |
| Step3Account.AstralCharactersCountTwice | src/components/tunnel/Step3Account.tsx:20-27 | "Ab1!😀😀😀" has 7 characters but a `length` of 10, so it scores 4. |
| Step3Account.StrengthMonotone | src/components/tunnel/Step3Account.tsx:20-27 | Appending characters never lowers the strength. |
| Step3Account.StrengthLabel | src/components/tunnel/Step3Account.tsx:30-31 | The label shown is one of the five strength labels. |
| Step3Account.StrengthBar | src/components/tunnel/Step3Account.tsx:231-241 | The bar shows iff there is a password. It has 4 segments; segment i is coloured iff i < strength, in the colour of the strength. |
| Step3Account.ColouredSegments | src/components/tunnel/Step3Account.tsx:234-241 | Exactly `strength` segments are coloured. |
| Step3Account.RadioRoundTrip | src/components/tunnel/Step3Account.tsx:140-141 | null shows as '', true as 'oui', false as 'non'. Choosing 'oui' stores true and anything else false, so a given answer round-trips. |
| Step3Account.ChoosePermis | src/components/tunnel/Step3Account.tsx:141 | A licence answer updates only that field, to whether 'oui' was chosen. |
| Step3Account.ChooseVehicule | src/components/tunnel/Step3Account.tsx:184 | A vehicle answer updates only that field, to whether 'oui' was chosen. |
| Step3Account.ChoosePermisShowsCategories | src/components/tunnel/Step3Account.tsx:155 | The licence categories show iff 'oui' was chosen. |
| Step3Account.PasswordMatch | src/components/tunnel/Step3Account.tsx:274-288 | No indicator while the confirmation is empty; otherwise it reports a match iff the two passwords are equal. |
| Step4Situation.WithFormationField | src/components/tunnel/Step4Situation.tsx:222-274 | Typing into a formation's text field leaves its "obtained" box alone. |
| Step4Situation.FilledDraftComplete | src/components/tunnel/Step4Situation.tsx:58 | A draft with a title and an institution typed in can be added. |
| Step4Situation.FilledExperienceComplete | src/components/tunnel/Step4Situation.tsx:77 | A draft with a position and a company typed in can be added. |
| Step4Situation.RemoveFormation | src/components/tunnel/Step4Situation.tsx:72-74 | Only index i is dropped and the others keep their order; an out-of-range index changes nothing. |
| Step4Situation.RemoveExperience | src/components/tunnel/Step4Situation.tsx:91-93 | Only index i is dropped and the others keep their order; an out-of-range index changes nothing. |
| Step4Situation.RemoveAddedFormation | src/components/tunnel/Step4Situation.tsx:57-74 | The added formation is last, and removing it gives back the list. |
| Step4Situation.RemoveAddedExperience | src/components/tunnel/Step4Situation.tsx:76-93 | The added experience is last, and removing it gives back the list. |
| Step4Situation.ToggleEmployedFlipsPreavis | src/components/tunnel/Step4Situation.tsx:135 | Toggling "En emploi" shows or hides the notice-period question. |
| Step4Situation.ToggleOtherKeepsPreavis | src/components/tunnel/Step4Situation.tsx:135 | Toggling any other situation leaves the question as it was. |
| Step4Situation.SituationForm.constructor | src/components/tunnel/Step4Situation.tsx:18-36 | Both drafts start blank, the formation marked obtained. |
| Step4Situation.SituationForm.EditFormation | src/components/tunnel/Step4Situation.tsx:222-274 | A keystroke changes that field of the formation draft only. |
| Step4Situation.SituationForm.SetObtenu | src/components/tunnel/Step4Situation.tsx:281 | The checkbox sets the draft's "obtained" flag only. |
| Step4Situation.SituationForm.EditExperience | src/components/tunnel/Step4Situation.tsx:376-437 | A keystroke changes that field of the experience draft only. |
| Step4Situation.SituationForm.AddFormation | src/components/tunnel/Step4Situation.tsx:57-70 | A complete draft is appended and the draft reset; an incomplete one sends nothing and stays. |
| Step4Situation.SituationForm.AddExperience | src/components/tunnel/Step4Situation.tsx:76-89 | A complete draft is appended and the draft reset; an incomplete one sends nothing and stays. |
| Step4Situation.AppendFormationSpec | src/components/tunnel/Step4Situation.tsx:59 | The formation goes at the end and no other field changes. |
| Step4Situation.AppendExperienceSpec | src/components/tunnel/Step4Situation.tsx:78 | The experience goes at the end and no other field changes. |
| Step5Projet.AddMetier | src/components/tunnel/Step5Projet.tsx:34-38 | An update is sent iff the title is non-empty and not yet listed, and then it appends the title. |
| Step5Projet.AddMetierDistinct | src/components/tunnel/Step5Projet.tsx:34-38 | Adding never introduces a duplicate. |
| Step5Projet.RemoveMetier | src/components/tunnel/Step5Projet.tsx:40-42 | The title is removed everywhere and other titles keep their membership. |
| Step5Projet.RemoveAddedMetier | src/components/tunnel/Step5Projet.tsx:34-42 | Removing a title just added gives back the list. |
| Step5Projet.Suggestions | src/components/tunnel/Step5Projet.tsx:91 | At most 8 suggestions, none already chosen. |
| Step5Projet.SuggestionsSpec | src/components/tunnel/Step5Projet.tsx:12-16 | Suggestions come from the popular list. When fewer than 8 show, every unchosen popular title is among them. |
| Step5Projet.Pieces | src/components/tunnel/Step5Projet.tsx:113 | No piece of the custom-jobs text is empty. |
| Step5Projet.PiecesSpec | src/components/tunnel/Step5Projet.tsx:113 | Each piece is comma-free and already trimmed. |
| Step5Projet.TrimmedPiecesSpec | src/components/tunnel/Step5Projet.tsx:113 | Trimming comma-free parts and dropping empties leaves comma-free, trimmed pieces. |
| Step5Projet.TitleUpdatesSpec | src/components/tunnel/Step5Projet.tsx:114 | Each update `forEach(addMetier)` sends adds one of the pieces. Every piece that can be added against the snapshot has its update. There is at most one update per piece. |
| Step5Projet.CustomJobsEnter | src/components/tunnel/Step5Projet.tsx:110-116 | Enter sends the add-updates of the pieces, then clears the custom-jobs field. |
| Step5Projet.InputBox.constructor | src/components/tunnel/Step5Projet.tsx:172-185 | The box holds the typed text. |
| Step5Projet.CommuneToAdd | src/components/tunnel/Step5Projet.tsx:178-179 | A commune to add is non-empty, already trimmed and not yet listed. |
| Step5Projet.CommuneEnter | src/components/tunnel/Step5Projet.tsx:176-182 | Enter appends the trimmed commune and empties the box, or changes nothing. |
| Step5Projet.CommuneAddDistinct | src/components/tunnel/Step5Projet.tsx:179-180 | Adding a commune keeps the list duplicate-free. |
| Step5Projet.SliderPositions | src/components/tunnel/Step5Projet.tsx:211-217 | The slider's values are exactly the twenty multiples of 5 from 5 to 100. |
| Step5Projet.InitialDistanceOnSlider | src/types/tunnel.ts:152 | The initial distance, 30, is a slider position. |
| Step6Documents.FieldFor | src/components/tunnel/Step6Documents.tsx:40-45 | Each document type maps to a file field. |
| Step6Documents.FieldForInjective | src/components/tunnel/Step6Documents.tsx:78-83 | The four document types map to four distinct fields. |
| Step6Documents.RemoveFileUpdates | src/components/tunnel/Step6Documents.tsx:77-93 | The first update clears the document's field; a second is sent iff the document is the CV. |
| Step6Documents.RemoveFileSpec | src/components/tunnel/Step6Documents.tsx:84-92 | Removal clears the document's field. Removing the CV also resets the extracted lists and score, which hides the results. Other documents leave those three fields untouched. |
| Step6Documents.StarCount | src/components/tunnel/Step6Documents.tsx:240 | The filled-star count is `Math.round(scoreCv / 20)`. |
| Step6Documents.Stars | src/components/tunnel/Step6Documents.tsx:235-241 | Five stars, star k filled iff k ≤ round(scoreCv / 20). |
| Step6Documents.StarsBounds | src/components/tunnel/Step6Documents.tsx:235-241 | A score of 90+ fills all stars and one below 10 fills none. |
| Step6Documents.MockScoreStars | src/components/tunnel/Step6Documents.tsx:70 | The mock score 72 shows four stars and the gold bar. |
| Step6Documents.StoreFileWellTyped | src/components/tunnel/Step6Documents.tsx:47 | Storing a file is a well-typed update. |
| Step6Documents.AnalysisResultsWellTyped | src/components/tunnel/Step6Documents.tsx:67-71 | The analysis results are a well-typed update. |
| Step6Documents.AnalysisResetWellTyped | src/components/tunnel/Step6Documents.tsx:87-91 | The reset after removing the CV is a well-typed update. |
| Step6Documents.AnalysisShowsResults | src/components/tunnel/Step6Documents.tsx:67-73 | After the analysis the score is 72 and the results panel shows, with the mock lists. |
| Step6Documents.DocumentsStep.constructor | src/components/tunnel/Step6Documents.tsx:19-20 | No analysis runs and no zone is dragged over. |
| Step6Documents.DocumentsStep.HandleDrag | src/components/tunnel/Step6Documents.tsx:22-26 | Dragging marks the zone, leaving unmarks it; nothing else changes. |
| Step6Documents.DocumentsStep.HandleFileChange | src/components/tunnel/Step6Documents.tsx:39-51 | The file is stored in its field; a CV starts the analysis. |
| Step6Documents.DocumentsStep.HandleDrop | src/components/tunnel/Step6Documents.tsx:28-37 | A drop unmarks the zone and stores the first file, if any. |
| Step6Documents.DocumentsStep.FinishAnalysis | src/components/tunnel/Step6Documents.tsx:67-73 | The results are merged in and the analysis stops. |
| Step6Documents.DocumentsStep.RemoveFile | src/components/tunnel/Step6Documents.tsx:77-93 | The field is cleared, and for the CV the analysis results too. |
| Step7Preferences.WithConsent | src/components/tunnel/Step7Preferences.tsx:38-41 | Key k takes the value; the seven others are unchanged. |
| Step7Preferences.UpdateConsentement | src/components/tunnel/Step7Preferences.tsx:36-43 | The update touches only the consent record: key k is set, the other seven consents are kept. |
| Step7Preferences.AllConsentsCheckedSpec | src/components/tunnel/Step7Preferences.tsx:45 | All consents are checked iff each of the eight keys is; the initial record is not. |
| Step7Preferences.LastConsent | src/components/tunnel/Step7Preferences.tsx:36-45 | Checking k completes the consents iff all the others were checked. |
| Step7Preferences.UncheckedConsent | src/components/tunnel/Step7Preferences.tsx:358-362 | Unchecking any consent brings the warning back. |
| Step7Preferences.ForemOptionsShowing | src/components/tunnel/Step7Preferences.tsx:154 | Of the Forem answers, only 'oui' shows the credentials field. |
| Step7Preferences.AccountOptionsShowing | src/components/tunnel/Step7Preferences.tsx:225 | Of the account answers, only the 'certains' one shows the accounts field. |
| Step7Preferences.SomeAccountsShown | src/components/tunnel/Step7Preferences.tsx:225 | The 'certains' answer contains 'certains'. |
| TunnelProgress.StateOf | src/components/tunnel/TunnelProgress.tsx:36-37 | Every step is exactly one of completed (<), current (=) or pending (>). |
| TunnelProgress.Click | src/components/tunnel/TunnelProgress.tsx:38-44 | A click navigates iff the step is before the current one and a callback is given, and then to that step. |
| TunnelProgress.NoForwardJump | src/components/tunnel/TunnelProgress.tsx:38-44 | Only completed steps can be clicked; the current and later steps do nothing. |
| TunnelProgress.StepLabel | src/components/tunnel/TunnelProgress.tsx:65 | `STEP_LABELS[step - 1]` is defined iff 1 ≤ step ≤ 7. |
| TunnelProgress.Steps | src/components/tunnel/TunnelProgress.tsx:35 | The steps are 1 … totalSteps. |
| TunnelProgress.LabelsCoverTunnel | src/components/tunnel/TunnelProgress.tsx:10-18 | Each of the seven steps gets its own label. |
| TunnelProgress.ProgressWidth | src/components/tunnel/TunnelProgress.tsx:28 | The width is (current − 1)/(total − 1) × 100, undefined when total = 1. |
| TunnelProgress.ProgressBounds | src/components/tunnel/TunnelProgress.tsx:28 | With more than one step the bar is 0% at step 1, 100% at the last, grows with the step, and stays in [0, 100]. |
| Auth.EmailLikeHasAtAndDot | src/pages/Auth.tsx:36 | An email-shaped text holds an '@' and a dot. |
| Auth.ShortestEmail | src/pages/Auth.tsx:36 | "a@b.c" has the email shape, and no text shorter than five characters has it. |
| Auth.EmailError | src/pages/Auth.tsx:35-36 | There is an email error iff the email is empty or has no `\S+@\S+\.\S+` match. |
| Auth.PasswordError | src/pages/Auth.tsx:38-39 | There is a password error iff it is empty, or under 8 UTF-16 code units long when signing up. |
| Auth.FormErrors | src/pages/Auth.tsx:32-44 | Each error key is set iff its check fails; the names are checked only when signing up. |
| Auth.ValidLogin | src/pages/Auth.tsx:32-47 | A login form is valid iff the email has the shape and the password is non-empty. |
| Auth.ValidSignUp | src/pages/Auth.tsx:32-47 | A sign-up form is valid iff the email has the shape, the password is 8+ UTF-16 code units long and both names are given. |
| Auth.NoticeFor | src/pages/Auth.tsx:58-86 | Success iff the call succeeded. The two known failures get their French texts, other failures their own message, and an exception a generic text. |
| Auth.AuthPage.constructor | src/pages/Auth.tsx:16-23 | The page opens in login mode with empty fields, no errors and not loading. |
| Auth.AuthPage.Validate | src/pages/Auth.tsx:32-48 | The errors are replaced by those of the form, and the result is true iff there are none. |
| Auth.AuthPage.HandleSubmit | src/pages/Auth.tsx:50-90 | An invalid form makes no call and leaves loading alone. A valid one calls sign-in or sign-up with the form's fields, loads during the call, reports the outcome and ends not loading. |
| ProtectedRoute.RoleHome | src/components/ProtectedRoute.tsx:36-41 | Every role's home is under /app. |
| ProtectedRoute.RoleHomesDistinct | src/components/ProtectedRoute.tsx:36-41 | The four homes differ, and none is /auth. |
| ProtectedRoute.Decide | src/components/ProtectedRoute.tsx:13-45 | Loading shows the spinner; no auth required renders the page; no user redirects to /auth; any other redirect is to the home of a signed-in user whose role is not allowed. |
| ProtectedRoute.SignedInSeesPage | src/components/ProtectedRoute.tsx:34-45 | A signed-in user sees the page iff auth is not required, no roles are given, the role is unknown or allowed; otherwise they go to their role's home. |
| ProtectedRoute.EmptyRolesRedirect | src/components/ProtectedRoute.tsx:34 | An empty allowed-roles list redirects every signed-in user with a role. |
| CheckSubscription.PlanOfProduct | supabase/functions/check-subscription/index.ts:87-88 | The plan is the product's mapped plan, or 'unknown'. |
| CheckSubscription.ModeForPlan | supabase/functions/check-subscription/index.ts:91-95 | Délégation iff the plan contains 'premium' or 'delegation'; else assisté iff it contains 'mensuel' or 'pack'; else autonome. |
| CheckSubscription.FirstPack | supabase/functions/check-subscription/index.ts:112-122 | The first paid pack_8/pack_15 session, or none if there is none. |
| CheckSubscription.Check | supabase/functions/check-subscription/index.ts:55-124 | No customer: not subscribed, gratuit, autonome. An active subscription: subscribed to the mapped plan in its mode, with its end. Otherwise the first pack bought gives assisté, else gratuit/autonome. |
| CheckSubscription.TunnelPlanModes | supabase/functions/check-subscription/index.ts:91-95 | gratuit is autonome; the packs and mensuel_30 are assisté; the premium plans are délégation. |
| CheckSubscription.FreePlanMode | supabase/functions/check-subscription/index.ts:78-80 | gratuit gives autonome. |
| CheckSubscription.PackModes | supabase/functions/check-subscription/index.ts:93-94 | pack_8 and pack_15 give assisté. |
| CheckSubscription.MonthlyMode | supabase/functions/check-subscription/index.ts:93-94 | mensuel_30 gives assisté. |
| CheckSubscription.OtherPlanModes | supabase/functions/check-subscription/index.ts:15-20 | recruteur_200, recruteur_500 and 'unknown' give autonome. |
| CheckSubscription.RecruiterMode | supabase/functions/check-subscription/index.ts:15-20 | The recruiter plans, and the 'unknown' plan of an unmapped product (line 88), give autonome. |
| CheckSubscription.Absent | supabase/functions/check-subscription/index.ts:91-95 | A plan without 'p', 'd' or 'm' gives autonome. |
| CreateCheckout.EffectiveEmail | supabase/functions/create-checkout/index.ts:44-57 | A signed-in user's non-empty email overrides the guest email. |
| CreateCheckout.LineItems | supabase/functions/create-checkout/index.ts:93-98 | The plan's price ×1 comes first; the file fee ×1 is added iff the plan is one of the four fee plans. |
| CreateCheckout.CreateCheckoutSession | supabase/functions/create-checkout/index.ts:41-114 | No email fails first, then a missing key, then an unknown plan. gratuit returns its message. A priced plan gets a session with its line items and mode, the customer or the email, the plan in the metadata and the success URL. |
| CreateCheckout.TunnelPlansPriced | supabase/functions/create-checkout/index.ts:11-21 | Every paid tunnel plan is priced, paid once iff it is a pack, and pays the fee unless it is mensuel_30. |
| Offers.ParseStatut | src/types/offers.ts:28 | A parsed status id names that status. |
| Offers.StatutsComplete | src/types/offers.ts:28-36 | Six distinct statuses, each reachable from its id; the ids are the database enumeration's, in order. |
| Offers.StatutLabel | src/types/offers.ts:38-45 | Every status has a label. |
| Offers.StatutColor | src/types/offers.ts:47-54 | Every status has a colour. |
| Offers.LabelsDistinct | src/types/offers.ts:38-45 | No two statuses share a label. |
| Kanban.HandleDragEnd | src/components/dashboard/CandidaturesKanbanPage.tsx:131-141 | No destination changes nothing. Otherwise the dragged id's applications take the new status; all else, length and order included, is kept. |
| Kanban.DragEndIdempotent | src/components/dashboard/CandidaturesKanbanPage.tsx:137-141 | Dropping the same card in the same column twice is dropping it once. |
| Kanban.DragEndBack | src/components/dashboard/CandidaturesKanbanPage.tsx:137-141 | Dragging a card to a column and back restores the list. |
| Kanban.ByStatut | src/components/dashboard/CandidaturesKanbanPage.tsx:146-147 | A column holds only applications of its status. |
| Kanban.ByStatutMembers | src/components/dashboard/CandidaturesKanbanPage.tsx:146-147 | An application is in a column iff it is in the list with that status. |
| Kanban.AbandonedHidden | src/components/dashboard/CandidaturesKanbanPage.tsx:126 | There are five columns, none for 'abandonnee', so abandoned applications show nowhere. |
| Kanban.DroppedShows | src/components/dashboard/CandidaturesKanbanPage.tsx:131-147 | A dropped card shows in its new column. |
| Kanban.ScoreBadge | src/components/dashboard/CandidaturesKanbanPage.tsx:256-264 | No badge for a null or 0 score; green from 80, gold from 60 to 79, orange below 60. |
| OffersList.ToggleSaveOffer | src/components/dashboard/OffersListPage.tsx:26-34 | A saved id is removed everywhere, an unsaved one appended; other ids keep their membership. |
| OffersList.ToggleSaveOfferSpec | src/components/dashboard/OffersListPage.tsx:26-34 | Saving then unsaving restores the list; toggling keeps a duplicate-free list duplicate-free. |
| OffersList.SavedLabel | src/components/dashboard/OffersListPage.tsx:202 | "Sauvé" iff the id is saved, "Sauver" otherwise. |
| OffersList.ToggleFlipsLabel | src/components/dashboard/OffersListPage.tsx:26-34 | A click flips the button's text. |
| Lists.ToggleTwice | src/components/dashboard/OffersListPage.tsx:26-34 | Toggling an absent element twice gives back the list. |
| Lists.ToggleDistinct | src/components/dashboard/OffersListPage.tsx:26-34 | Toggling keeps a duplicate-free list duplicate-free. |
| Lists.Remove | src/components/tunnel/Step2Pricing.tsx:83 | `filter(s => s !== x)` drops x everywhere and keeps every other element. |
| Lists.RemoveAt | src/components/tunnel/Step4Situation.tsx:73 | `filter((_, i) => i !== index)` drops exactly that index, or nothing when out of range. |
| Messaging.ReadTick | src/components/dashboard/MessagingPage.tsx:260-264 | A tick shows iff the message is mine, doubled iff it has been read. |
| Messaging.SentMessage | src/components/dashboard/MessagingPage.tsx:126-133 | A sent message is mine, carries the given text, goes to the selected conversation and shows a single (unread) tick. |
| Messaging.FilteredConversations | src/components/dashboard/MessagingPage.tsx:139-141 | Every conversation kept has the query, case-insensitively, in its name. |
| Messaging.FilteredMembers | src/components/dashboard/MessagingPage.tsx:139-141 | A conversation is kept iff it is listed and its name contains the query. |
| Messaging.EmptyQueryKeepsAll | src/components/dashboard/MessagingPage.tsx:139-141 | An empty query keeps every conversation, in order. |
| Messaging.MessagingPage.constructor | src/components/dashboard/MessagingPage.tsx:108-112 | The first conversation is selected, with empty input and query. |
| Messaging.MessagingPage.HandleSendMessage | src/components/dashboard/MessagingPage.tsx:123-137 | Blank text or no conversation changes nothing. Otherwise exactly one message is appended and the input cleared. |
| Pricing.UpdateQuantity | src/components/landing/PricingSection.tsx:12-17 | The chosen quantity becomes max(1, q + delta) and the others are unchanged. |
| Pricing.QuantitiesStayPositive | src/components/landing/PricingSection.tsx:6-17 | The initial quantities are positive and every update keeps them so. |
| Pricing.PlusMinusUndo | src/components/landing/PricingSection.tsx:12-17 | Plus then minus restores a quantity; minus then plus does too from 2 up. |
| Pricing.PieceBelowDeclaredMinimum | src/components/landing/PricingSection.tsx:29 | The piece quantity starts at its declared minimum 5, and one minus click takes it to 4. |
| Pricing.UpdateQuantityWithMinimum | src/components/landing/PricingSection.tsx:12-29 | With the declared minimum applied, a quantity never goes below its plan's minimum; only the chosen one changes. |
| Pricing.MinimumKept | src/components/landing/PricingSection.tsx:29 | With the minimum applied, the piece quantity stays at 5 or more whatever is clicked. |
| Pricing.SelectorKey | src/components/landing/PricingSection.tsx:172-185 | A plan has a quantity to step iff its selector shows. |
| Pricing.SelectorsShown | src/components/landing/PricingSection.tsx:172 | The first three plans show a selector, each over its own quantity; the monthly plan shows none. |
| Faq.Click | src/components/landing/FAQSection.tsx:65 | A click closes everything iff the clicked item was open; otherwise the clicked item opens. |
| Faq.ClickShows | src/components/landing/FAQSection.tsx:65-74 | After a click only the clicked answer shows, unless it was open, and then none does. |
| Faq.ClickTwiceCloses | src/components/landing/FAQSection.tsx:65 | Two clicks on a closed item leave every item closed. |
| Faq.InitiallyFirst | src/components/landing/FAQSection.tsx:5 | Only the first answer shows at first. |
| WelcomeAgent.WelcomeTexts | src/components/WelcomeAgent.tsx:14-23 | Each variant has two texts; every variant but candidat falls back to the default ones. |
| WelcomeAgent.Personalise | src/components/WelcomeAgent.tsx:47 | Without a name, or without a '!', the text is kept. With both, the first '!' becomes " name !", the name's `$` patterns expanded against that '!'. |
| WelcomeAgent.PersonaliseAt | src/components/WelcomeAgent.tsx:47 | When the first '!' is at i, the text is the part before it, a space, the substituted name, " !" and the rest. |
| WelcomeAgent.PlainName | src/components/WelcomeAgent.tsx:47 | A name without `$` is inserted as it is. |
| WelcomeAgent.MatchedTextName | src/components/WelcomeAgent.tsx:47 | A user named "$&" is greeted "Bonjour  ! !": the matched '!' stands in for the name. |
| WelcomeAgent.NameAfterTwoSpaces | src/components/WelcomeAgent.tsx:47 | When the first '!' follows a space, the name comes after two spaces. |
| WelcomeAgent.WelcomeMessages | src/components/WelcomeAgent.tsx:45-50 | One bot message per text, with id `welcome-i` and the personalised text. |
| WelcomeAgent.WelcomeShape | src/components/WelcomeAgent.tsx:45-50 | All are bot messages, the first two ids differ, and without a name the texts are as written. |
| WelcomeAgent.FirstMentioned | src/components/WelcomeAgent.tsx:76-78 | `find` returns the first action whose key (the first 10 characters of its lower-cased label) the lower-cased text contains, or none. |
| WelcomeAgent.FirstMentionedIsFirst | src/components/WelcomeAgent.tsx:76-78 | The action found is the mentioned one that no earlier action precedes. |
| WelcomeAgent.ReplyAmong | src/components/WelcomeAgent.tsx:76-82 | The reply is the first mentioned action's response, or the default text when none is mentioned. |
| WelcomeAgent.FindReply | src/components/WelcomeAgent.tsx:76-82 | The search loop finds that reply. |
| WelcomeAgent.MentionsOwnLabel | src/components/WelcomeAgent.tsx:77 | A label mentions its own action. |
| WelcomeAgent.AnswersOwnTitle | src/components/WelcomeAgent.tsx:76-78 | A label that shares no character with the first letters of the earlier labels gets its own action's response. |
| WelcomeAgent.QuickActionAnswersItself | src/components/WelcomeAgent.tsx:25-29 | Each quick-action button's own label gets that action's response. |
| WelcomeAgent.Agent.constructor | src/components/WelcomeAgent.tsx:37-40 | The chat starts closed, empty and not yet initialised. |
| WelcomeAgent.Agent.InitializeChat | src/components/WelcomeAgent.tsx:42-54 | The welcome messages are set only on the first call; later calls keep the messages. |
| WelcomeAgent.Agent.HandleOpen | src/components/WelcomeAgent.tsx:56-59 | Opening shows the chat and initialises it once. |
| WelcomeAgent.Agent.SendMessage | src/components/WelcomeAgent.tsx:61-88 | Blank text changes nothing. Otherwise the user's message is appended, the input cleared, and the bot's reply chosen. |
| WelcomeAgent.Agent.DeliverReply | src/components/WelcomeAgent.tsx:80-86 | The bot's reply is appended as a bot message. |

## Left out

- Strings are sequences of code points. Only the password `length` checks count UTF-16 code units. WelcomeAgent's `slice(0, 10)` counts characters, which agrees with JavaScript for its constant labels.
- Case mapping is ASCII only: `toLowerCase`/`toUpperCase` change `A`–`Z` and leave every other character, accented capitals included, as it is.
- I/O and plumbing are not modelled. This covers the Supabase queries and the `log_activity` call, the Stripe customer, subscription and session APIs, and the request parsing and CORS/response framing. Their results are method parameters: the offer list, the customer id, the active subscription, the recent sessions, the signed-in user, whether the Stripe key is set, and the request origin.
- The Supabase auth call and the early failures of the subscription check (missing key, header or user email) are not modelled; `CheckSubscription.Check` starts from the customer lookup.
- `parseInt` of the `limit` and `min_score` parameters is not modelled: they arrive as optional integers, and NaN is not represented.
- The subscription end date is kept as the provider's period end; its conversion to an ISO string is not modelled.
- The checkout's cancel URL and `metadata.user_id` are carried in the session record but not stated.
- Timers, dates and notices are left out: `setTimeout` delays, `Date.now()`-based ids (ids are parameters), `toLocale*` formatting and toasts.
- WelcomeAgent.Agent.SendMessage: the delayed bot reply is a separate call, `DeliverReply`, which the caller makes with the chosen reply's text and an id.
- WelcomeAgent.Agent.constructor: the quick actions are a constant field of the agent, equal to `QuickActions`.
- The 7-step controller is not modelled. The step counter, validation gates, draft persistence and final submission are not in the source, and `onChange` is modelled as the shallow merge `Tunnel.Merge`.
- Step5Projet.TitleUpdatesSpec: each `addMetier` update is stated against the same snapshot. Composing the stale updates in the parent is not modelled, so it is not claimed that every title ends up in the list.
- Scores, the progress width and the star count use exact `real` arithmetic, not IEEE doubles; the file-size text of the upload zones is not modelled.
- Kanban.ScoreBadge: React draws the number 0 for a zero score (`0 && …`); the model only says that no badge shows.
- Offers.StatutColor: it states that every status has a colour, not that the colours differ.
- WelcomeAgent.NameAfterTwoSpaces: it records the double space the replacement leaves before the name, as written; no corrected form is given because the visible text is otherwise as intended.
- Presentation-only parts (landing sections, dashboards, layout, routing tables) and the generated schema types are not part of this model.

## Findings

| source | as written | input that shows it | evidently intended | confidence | as-written member | corrected member |
|---|---|---|---|---|---|---|
| src/components/landing/PricingSection.tsx:15 | The stepper clamps every quantity at 1, so the piece plan's declared `minQuantity: 5` (line 29) is never applied. | From the initial piece quantity 5, one click on minus (delta −1). | The piece quantity never goes below its declared minimum of 5. | not executed | Pricing.PieceBelowDeclaredMinimum | Pricing.MinimumKept |
