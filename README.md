# Fundi Pro components, modelled in Dafny

Fundi Pro is an Angular app for informal workers ("fundis") in Kenya. This project models the logic of six of its pages and proves what each page promises.

- **Gig search** (`search_gigs.dfy`): a cascading county → constituency → ward picker over a fixed region tree, and a search that narrows a fixed list of gigs by up to five optional criteria.
- **M-Pesa** (`mpesa.dfy`): phone numbers rewritten between the `254…`, `0…` and `+254…` forms. It also covers a guarded STK push that puts a new transaction in front of the list, a filter chain over the fixed transactions, and a reset.
- **Analytics** (`analytics.dfy`): sign and credit-tier classifiers, and the views the page derives from the server's answers. These are the last 14 trends, a chart scale with a floor of 1, and the first five organisations and job types.
- **ID verification** (`verification.dfy`): three image slots, the size and type rule for accepting an image, the dialog and camera flags, and the guard in front of the upload.
- **Proof of payment** (`proof_of_payment.dfy`): the tab, screenshot, analysis and submission states of the form.
- **Gig summary** (`gig_summary.dfy`): the job-type map filled by a loop, and the name lookup with its `Unknown Job` fallback.

Shared modules:

- `collections.dfy` states JavaScript's `filter`, `find` and `slice` once, with their meaning. It also defines the ordered-subsequence relation.
- `text.dfy` states `startsWith`, `includes`, `trim`, `toLowerCase` and integer `toString`.
- `web.dfy` holds the browser values the pages receive or produce (files and snackbar or alert notices).

Each component is a `class` whose fields are the component's fields or signals, and whose methods are its handlers. Every method says what it changes through `modifies` and states the whole new state. The pure parts are functions, with lemmas relating them.

Some handlers keep a flag raised across a wait and finish later. Search, screenshot analysis and payment submission finish inside a `setTimeout` callback. The verification upload finishes when its awaited HTTP post settles (`verification.ts:243-253`). Each of these handlers is split in two: the first method raises the flag, and a second one (`OnSearchTimer`, `OnAnalysisFinished`, `OnSubmitFinished`, `OnUploadFinished`) is the callback or the settled post. `openCamera` awaits twice, once for a 100 ms pause and once for `getUserMedia`, and is split into three methods at those points (`OpenCamera`, `RequestCamera`, `OnCameraAccess`). The split shows that a camera dialog closed during either wait does not stop the stream that arrives afterwards: `OnCameraAccess` stores it, as the component does. Every other timer, file reader and file picker is taken as completing at once.

## Model

| member | source | states |
|---|---|---|
| Collections.Filter | src/app/components/search-gigs/search-gigs.ts:259-285 | `filter` keeps only elements of the input that satisfy the predicate, and never grows the list |
| Collections.FilterMembership | src/app/components/search-gigs/search-gigs.ts:259-285 | an element is kept exactly when it is in the input and satisfies the predicate |
| Collections.FilterIsSubsequence | src/app/components/mpesa/mpesa.ts:225-265 | a filter only deletes and never reorders: the result is an ordered subsequence of the input |
| Collections.FilterTwice | src/app/components/search-gigs/search-gigs.ts:259-285 | two successive filters equal one filter by the conjunction of their predicates |
| Collections.FilterCount | src/app/components/search-gigs/search-gigs.ts:259-285 | a filter keeps every copy of an element that satisfies the predicate and none of one that does not, so it never duplicates |
| Collections.FilterNarrows | src/app/components/search-gigs/search-gigs.ts:259-285 | a stronger predicate keeps a subsequence of what a weaker one keeps |
| Collections.Find | src/app/components/search-gigs/search-gigs.ts:205 | `find` returns `None` exactly when no element matches, otherwise an element that matches with none before it matching |
| Text.Trim | src/app/components/search-gigs/search-gigs.ts:240 | `trim` yields the piece of the input after its leading whitespace, everything after that piece being whitespace; empty exactly when the input is all whitespace, with no whitespace at either end |
| Text.ToLower | src/app/components/search-gigs/search-gigs.ts:283 | `toLowerCase` keeps the length, folds each character, and leaves no letter A-Z |
| Text.ToLowerFixesExactlyLowercase | src/app/components/search-gigs/search-gigs.ts:283 | lower-casing leaves a string unchanged exactly when it holds no letter A-Z |
| Text.ToLowerIdempotent | src/app/components/mpesa/mpesa.ts:245 | lower-casing twice is lower-casing once |
| Text.IncludesLowered | src/app/components/mpesa/mpesa.ts:245 | a substring stays a substring after both strings are lower-cased |
| Text.NatToDecimal | src/app/components/search-gigs/search-gigs.ts:275 | the decimal string of a number is non-empty, all digits, denotes that number, has no leading zeros, and is `"0"` only for 0 |
| Text.DecimalStringInjective | src/app/components/search-gigs/search-gigs.ts:275 | two integers have the same `toString` exactly when they are equal |
| SearchGigs.ConstituencyOptions | src/app/components/search-gigs/search-gigs.ts:201-211 | the constituency options are `[]` for an empty or unknown county, otherwise the names of the first matching county's constituencies in tree order |
| SearchGigs.WardOptions | src/app/components/search-gigs/search-gigs.ts:217-232 | the ward options are `[]` for an empty constituency or one the county lacks, otherwise that constituency's ward list; "unchanged" when the county is unknown |
| SearchGigs.ConstituencyOptionsFromTree | src/app/components/search-gigs/search-gigs.ts:201-211 | every offered constituency is a constituency of the region tree |
| SearchGigs.WardOptionsFromTree | src/app/components/search-gigs/search-gigs.ts:214-232 | every offered ward is a ward of the region tree |
| SearchGigs.JobTypeFilter | src/app/components/search-gigs/search-gigs.ts:274-279 | the job-type filter applies exactly when the selected key is the decimal id of a loaded job type, and then narrows to the name of the first such job type |
| SearchGigs.SelectedKeyNamesItsJobType | src/app/components/search-gigs/search-gigs.ts:274-279 | with distinct ids, selecting a loaded job type's decimal id narrows to exactly that job type's name |
| SearchGigs.ClientQueryIgnoresCase | src/app/components/search-gigs/search-gigs.ts:281-285 | two client queries that lower-case alike keep the same gigs |
| SearchGigs.VerbatimClientQueryMatches | src/app/components/search-gigs/search-gigs.ts:281-285 | a query written as it appears in the client name matches |
| SearchGigs.CountyStep | src/app/components/search-gigs/search-gigs.ts:262-264 | the county filter narrows the results so far to those that also match the county |
| SearchGigs.ConstituencyStep | src/app/components/search-gigs/search-gigs.ts:266-268 | the constituency filter narrows the results so far to those that also match the constituency |
| SearchGigs.WardStep | src/app/components/search-gigs/search-gigs.ts:270-272 | the ward filter narrows the results so far to those that also match the ward |
| SearchGigs.JobTypeStep | src/app/components/search-gigs/search-gigs.ts:274-279 | the job-type filter narrows the results so far to those of the found job type |
| SearchGigs.ClientStep | src/app/components/search-gigs/search-gigs.ts:281-285 | a client name that trims to something narrows the results so far to case-insensitive substring matches of the untrimmed name |
| SearchGigs.NoCriterionKeepsAll | src/app/components/search-gigs/search-gigs.ts:235-241 | with no criterion set, the search keeps every gig |
| SearchGigs.SearchResultsAreOrderedMatches | src/app/components/search-gigs/search-gigs.ts:259-285 | the results are an ordered subsequence of the gigs and hold exactly the gigs satisfying every set criterion |
| SearchGigs.MoreCriteriaNarrow | src/app/components/search-gigs/search-gigs.ts:259-285 | setting more criteria can only narrow the results |
| SearchGigs.ApplySearch | src/app/components/search-gigs/search-gigs.ts:259-285 | the chain of up to five filters, started from all gigs, yields exactly the gigs matching every set criterion, in order |
| SearchGigs.SearchGigsForm.OnInit | src/app/components/search-gigs/search-gigs.ts:175-181 | initialisation loads the county names of the tree and the job types |
| SearchGigs.SearchGigsForm.LoadRegions | src/app/components/search-gigs/search-gigs.ts:188-190 | the county list is the tree's county names, in order |
| SearchGigs.SearchGigsForm.LoadJobTypes | src/app/components/search-gigs/search-gigs.ts:192-194 | the job types are a copy of the fixed list |
| SearchGigs.SearchGigsForm.OnCountyChanged | src/app/components/search-gigs/search-gigs.ts:196-212 | constituency, ward and ward list are cleared whatever the prior state; the constituencies are those of the selected county, drawn from the tree |
| SearchGigs.SearchGigsForm.OnConstituencyChanged | src/app/components/search-gigs/search-gigs.ts:214-233 | the ward is always cleared; the wards follow `WardOptions`, and stay as they were when the county is unknown; the constituency itself is never rejected |
| SearchGigs.SearchGigsForm.IsSearchDisabled | src/app/components/search-gigs/search-gigs.ts:235-241 | search is disabled only when no criterion is set, in which case a search would keep every gig |
| SearchGigs.SearchGigsForm.SearchGigs | src/app/components/search-gigs/search-gigs.ts:243-257 | a search starts exactly when it is enabled and none is pending, and otherwise changes nothing |
| SearchGigs.SearchGigsForm.OnSearchTimer | src/app/components/search-gigs/search-gigs.ts:258-292 | the published results are the gigs matching the criteria as they stood, loading ends, and the form is cleared |
| SearchGigs.SearchGigsForm.ClearForm | src/app/components/search-gigs/search-gigs.ts:295-303 | all five criteria and both dependent lists are emptied, after which search is disabled |
| SearchGigs.NairobiWestlands | src/app/components/search-gigs/search-gigs.ts:69-113 | on the shipped tree, Nairobi offers Westlands, Dagoretti North and Starehe, and Westlands offers its five wards |
| SearchGigs.UnknownConstituencyGetsNoWards | src/app/components/search-gigs/search-gigs.ts:222-230 | a constituency Nairobi lacks gets an empty ward list rather than being rejected |
| SearchGigs.WestlandsSearch | src/app/components/search-gigs/search-gigs.ts:125-162 | searching Nairobi, Westlands on the shipped gigs finds gigs 1 and 3, in order |
| Mpesa.FormatPhone | src/app/components/mpesa/mpesa.ts:151-156 | a leading `254` becomes `0` with the rest kept; any other string is unchanged |
| Mpesa.NormalisePhone | src/app/components/mpesa/mpesa.ts:177-182 | a leading `0` becomes `254`, otherwise a leading `+254` becomes `254`, anything else is kept |
| Mpesa.LocalNumberRoundTrip | src/app/components/mpesa/mpesa.ts:151-156 | displaying a normalised `0…` number gives back the original number |
| Mpesa.InternationalNumberDisplaysLocal | src/app/components/mpesa/mpesa.ts:177-182 | a normalised `+254…` number is displayed in its local `0…` form |
| Mpesa.NormaliseIdempotent | src/app/components/mpesa/mpesa.ts:177-182 | a normalised number never starts with `0`, so normalising again changes nothing |
| Mpesa.BlankPhoneIsAccepted | src/app/components/mpesa/mpesa.ts:170-175 | the guard tests the untrimmed phone, so a phone of blanks with a positive amount passes and is sent as the empty number |
| Mpesa.PhoneFilterFindsBothForms | src/app/components/mpesa/mpesa.ts:228-233 | typing a transaction's number as stored or as displayed keeps that transaction |
| Mpesa.PhoneStep | src/app/components/mpesa/mpesa.ts:228-233 | the phone filter narrows the list so far to numbers containing the query in either form |
| Mpesa.AmountStep | src/app/components/mpesa/mpesa.ts:236-240 | the amount filter narrows the list so far to transactions whose amount equals the parsed amount |
| Mpesa.ReceiptQueryIgnoresCase | src/app/components/mpesa/mpesa.ts:243-247 | two receipt queries that lower-case alike keep the same transactions |
| Mpesa.ReceiptPieceMatchesInEitherCase | src/app/components/mpesa/mpesa.ts:243-247 | a piece of the receipt number finds the transaction typed as printed or in lower case |
| Mpesa.ReceiptStep | src/app/components/mpesa/mpesa.ts:243-247 | the receipt filter narrows the list so far to case-insensitive substring matches |
| Mpesa.StartDateStep | src/app/components/mpesa/mpesa.ts:250-255 | the start-date filter narrows the list so far to transactions on or after the start |
| Mpesa.EndDateStep | src/app/components/mpesa/mpesa.ts:257-263 | the end-date filter narrows the list so far to transactions up to the end of the end day |
| Mpesa.NoFiltersKeepAll | src/app/components/mpesa/mpesa.ts:225-265 | with every filter field empty, every transaction is kept |
| Mpesa.FilteredAreOrderedMatches | src/app/components/mpesa/mpesa.ts:225-265 | the filtered list is an ordered subsequence holding exactly the transactions passing every filled-in filter |
| Mpesa.FilterTransactions | src/app/components/mpesa/mpesa.ts:225-263 | the chain of up to five filters yields exactly the transactions passing every filled-in filter, in order |
| Mpesa.MpesaPage.FetchMpesaMessages | src/app/components/mpesa/mpesa.ts:124-132 | the list becomes the fixed transactions and loading ends |
| Mpesa.MpesaPage.OpenPaymentDialog | src/app/components/mpesa/mpesa.ts:159-163 | the payment dialog opens with an empty phone and no amount |
| Mpesa.MpesaPage.ClosePaymentDialog | src/app/components/mpesa/mpesa.ts:165-167 | the payment dialog closes |
| Mpesa.MpesaPage.SendStkPush | src/app/components/mpesa/mpesa.ts:169-205 | refused exactly when the phone is empty or the amount is missing or not positive, changing nothing; otherwise exactly one transaction with the normalised phone and the amount goes in front of the list in its old order, and the dialog closes |
| Mpesa.MpesaPage.OpenFilterDialog | src/app/components/mpesa/mpesa.ts:208-210 | the filter dialog opens |
| Mpesa.MpesaPage.CloseFilterDialog | src/app/components/mpesa/mpesa.ts:212-214 | the filter dialog closes |
| Mpesa.MpesaPage.ApplyFilters | src/app/components/mpesa/mpesa.ts:216-267 | the list becomes the fixed transactions passing every filled-in filter, in order, and the dialog closes |
| Mpesa.MpesaPage.ClearFilters | src/app/components/mpesa/mpesa.ts:269-278 | all five filter fields are emptied, the full list is restored and the dialog closes |
| Analytics.ChangeClass | src/app/components/analytics/analytics.ts:208-212 | `positive`, `negative` or `neutral` exactly for a positive, negative or zero change |
| Analytics.ChangeIcon | src/app/components/analytics/analytics.ts:217-221 | `trending_up`, `trending_down` or `trending_flat` exactly for a positive, negative or zero change |
| Analytics.IconAgreesWithClass | src/app/components/analytics/analytics.ts:208-221 | the icon always belongs with the class, and two changes share an icon exactly when they share a class |
| Analytics.CreditScoreClass | src/app/components/analytics/analytics.ts:226-230 | `excellent` exactly from 70, `good` exactly from 40 below 70, `needs-improvement` exactly below 40 |
| Analytics.CreditScoreClassMonotone | src/app/components/analytics/analytics.ts:226-230 | a higher score never lands in a lower tier |
| Analytics.TrendList | src/app/components/analytics/analytics.ts:166 | a missing trends array is taken as empty |
| Analytics.LastTrends | src/app/components/analytics/analytics.ts:167 | the trend window is the last min(14, n) trends in their original order |
| Analytics.MaxTotalGigs | src/app/components/analytics/analytics.ts:170-171 | the chart scale is at least 1 and every trend's gig count, and is 1 or one of those counts; it is taken over all trends, not only the window |
| Analytics.TopFive | src/app/components/analytics/analytics.ts:174-177 | the top lists are the first min(5, n) entries in server order |
| Analytics.TrendWindowWithinScale | src/app/components/analytics/analytics.ts:166-171 | every trend shown fits under the chart scale |
| Analytics.AnalyticsPage.LoadAnalytics | src/app/components/analytics/analytics.ts:148-149 | loading starts |
| Analytics.AnalyticsPage.OnAnalyticsLoaded | src/app/components/analytics/analytics.ts:159-186 | the summary, trend window, scale, top lists, credit score and comparative data are set from the responses, loading ends, and every bar fits the scale |
| Analytics.AnalyticsPage.OnAnalyticsFailed | src/app/components/analytics/analytics.ts:187-194 | loading ends and a 401 sends the user to the login page |
| Verification.ImageTypeLabel | src/app/components/verification/verification.ts:269-271 | the configured title for `idFront`, `idBack` and `selfie`, and `Image` for any other key |
| Verification.LabelsAreDistinct | src/app/components/verification/verification.ts:49-65 | each of the three slots has its own key and its own label |
| Verification.Images.With | src/app/components/verification/verification.ts:205 | storing an image fills its own slot and leaves the other two unchanged |
| Verification.CompleteIffEverySlot | src/app/components/verification/verification.ts:219 | the image set is complete exactly when no slot is empty |
| Verification.FillingAllSlotsCompletes | src/app/components/verification/verification.ts:205 | filling the three slots in any order completes the set |
| Verification.ImageRejection | src/app/components/verification/verification.ts:195-203 | a file is accepted exactly when it is at most 5 MiB and its type starts with `image/`; size is checked first, each refusal with its own warning |
| Verification.FiveMebibytesIsAccepted | src/app/components/verification/verification.ts:195 | exactly 5 MiB is accepted and one byte more is not |
| Verification.SubmissionRefusal | src/app/components/verification/verification.ts:219-228 | submission proceeds exactly when all three slots are filled and a non-empty token exists; missing images are reported before a missing token |
| Verification.VerificationPage.OpenImagePicker | src/app/components/verification/verification.ts:79-82 | the slot is remembered and the source dialog shown |
| Verification.VerificationPage.CloseSourceDialog | src/app/components/verification/verification.ts:84-87 | the source dialog is hidden and the chosen slot kept |
| Verification.VerificationPage.StopCamera | src/app/components/verification/verification.ts:164-170 | whatever the state, no stream is left and the camera is not ready, so a second call changes nothing |
| Verification.VerificationPage.CloseCameraDialog | src/app/components/verification/verification.ts:89-93 | the camera dialog is hidden, the camera stopped and the chosen slot forgotten |
| Verification.VerificationPage.OpenCamera | src/app/components/verification/verification.ts:95-105 | without a chosen slot only an error is reported and nothing changes; otherwise the source dialog closes and the camera dialog opens, not ready yet |
| Verification.FacingMode | src/app/components/verification/verification.ts:110 | the front camera is asked for exactly for the selfie slot, the rear one otherwise |
| Verification.VerificationPage.RequestCamera | src/app/components/verification/verification.ts:105-117 | after the pause, the camera asked for depends on the slot chosen at that moment |
| Verification.VerificationPage.OnCameraAccess | src/app/components/verification/verification.ts:117-132 | a granted stream is stored even if the dialog was closed meanwhile; a refusal reports the error and closes the camera dialog |
| Verification.VerificationPage.OnVideoPlaying | src/app/components/verification/verification.ts:123-127 | the camera becomes ready once the video plays |
| Verification.VerificationPage.HandleImageSelected | src/app/components/verification/verification.ts:194-216 | a refused file leaves every slot as it was; an accepted one is stored in its own slot only |
| Verification.VerificationPage.OpenGallery | src/app/components/verification/verification.ts:172-192 | without a chosen slot only an error is reported; otherwise the source dialog closes and a picked file goes through the acceptance rule into the chosen slot |
| Verification.VerificationPage.SubmitVerification | src/app/components/verification/verification.ts:218-243 | the three files go out with a bearer header exactly when the guard passes, with the upload shown at 0%; otherwise nothing changes |
| Verification.VerificationPage.OnUploadFinished | src/app/components/verification/verification.ts:245-253 | on success and on failure alike, no upload is in progress and the bar is at 0 afterwards |
| ProofOfPayment.ProofOfPaymentForm.SetActiveTab | src/app/components/proof-of-payment/proof-of-payment.ts:56-58 | only the tab changes |
| ProofOfPayment.ProofOfPaymentForm.AnalyzeScreenshot | src/app/components/proof-of-payment/proof-of-payment.ts:98-103 | analysis starts with no error shown |
| ProofOfPayment.ProofOfPaymentForm.OnAnalysisFinished | src/app/components/proof-of-payment/proof-of-payment.ts:103-119 | success fills `5000` and `QHJ8K9L0M1`, marks the form autofilled and switches to the manual tab, so a form with a screenshot becomes submittable; failure only sets the error; analysis is over either way |
| ProofOfPayment.ProofOfPaymentForm.OnFileSelected | src/app/components/proof-of-payment/proof-of-payment.ts:64-82 | the first chosen file becomes the screenshot, autofill and error are reset and analysis starts; no file changes nothing |
| ProofOfPayment.ProofOfPaymentForm.RemoveScreenshot | src/app/components/proof-of-payment/proof-of-payment.ts:84-96 | screenshot, file, autofill, error, amount and code are cleared and the tab is kept, so the form cannot be submitted |
| ProofOfPayment.ProofOfPaymentForm.SubmitPayment | src/app/components/proof-of-payment/proof-of-payment.ts:122-128 | submission starts exactly when the screenshot, amount and code are all non-empty; otherwise only the alert is raised |
| ProofOfPayment.ProofOfPaymentForm.OnSubmitFinished | src/app/components/proof-of-payment/proof-of-payment.ts:131-143 | submitting ends with a confirmation and a move to the main menu |
| GigSummary.AssignOverrides | src/app/components/gig-summary/gig-summary.ts:170-172 | setting the pairs overrides the old map with exactly their entries |
| GigSummary.AssignKeys | src/app/components/gig-summary/gig-summary.ts:170-172 | afterwards the keys are the old keys and the job-type ids |
| GigSummary.AssignLookup | src/app/components/gig-summary/gig-summary.ts:170-172 | with distinct ids, every job type's id maps to its name |
| GigSummary.AssignIdempotent | src/app/components/gig-summary/gig-summary.ts:170-172 | setting the same pairs again leaves the map unchanged |
| GigSummary.JobTypeName | src/app/components/gig-summary/gig-summary.ts:181-183 | the mapped name, or `Unknown Job` when the id is absent or mapped to the empty name |
| GigSummary.EmptyMapKnowsNoJob | src/app/components/gig-summary/gig-summary.ts:50 | before any fetch every lookup gives `Unknown Job` |
| GigSummary.FetchedMapNamesMockJobTypes | src/app/components/gig-summary/gig-summary.ts:53-59 | after a fetch every fixed job type is named, and an id that was not mapped before and is outside 1-5 stays unknown |
| GigSummary.GigSummaryPage.FetchGigs | src/app/components/gig-summary/gig-summary.ts:166-179 | the map is the old map with every job type set in order, and the gigs are the fixed list, in order |

## Left out

- Network and services: the HTTP calls behind the analytics page, the organisations request of the gig summary, and the verification upload. The joined analytics request is modelled only through its success and error handlers, applied to already-resolved values.
- Routing: the 401 redirect, `history.back()` and the main-menu navigation are returned as values.
- The app bar, `afterNextRender`, the resize listeners and the `isMobile` checks: these are layout only.
- Timers: every `setTimeout` delay other than the four split handlers named above completes at once. The snackbar's own show and hide timers and its DOM element are left out; a notice is returned instead.
- Randomness and clocks: `Math.random()` becomes the `succeeded` parameter of the analysis and the `receiptSuffix` parameter of the STK push. `Date.now()` and `new Date()` become the `id` and `now` parameters.
- Browser media: `getUserMedia`'s constraints other than `facingMode`, the video element and `capturePhoto`'s canvas capture (on success it hands a JPEG file to `handleImageSelected`) are left out. Only the granted or refused stream and the video's start of play are modelled.
- File reading: the `FileReader` and `DomSanitizer` previews (`imagePreviews`, the screenshot data URL) are taken as given values. `localStorage` is left out; the stored token is a parameter.
- Dates and locale: `formatDate`, `formatCurrency` and `toLocaleString` are left out. The two M-Pesa date filters take, as parameters, the predicates "on or after the start date" and "on or before the end of the end date", including `setHours`.
- Mpesa.ParsedFilters: `parseFloat` on the amount field is a parameter, with `None` standing for `NaN`, which matches no amount.
- Analytics.CreditScoreData: the untyped `score_history` array is not read by the page and is not modelled.
- Text.ToLower: folds only the letters A-Z. JavaScript's full Unicode case mapping is not modelled.
- Analytics.ChangeClass, Analytics.ChangeIcon and Analytics.CreditScoreClass take exact reals. `NaN`, for which JavaScript's comparisons are all false, is not modelled.
- Analytics.MaxTotalGigs: counts are integers, so a `NaN` count, which would make `Math.max` return `NaN`, is not modelled.
- Mpesa.MpesaPage.SendStkPush: the new transaction is built when the one-second timer fires, and the model builds it at once. A dialog reopened during that second, which would reset the amount first, is not modelled.
- The add-gig, login, register, main, dashboard, profile and credit-score pages, the route table and the HTTP service wrappers are not part of this model. They hold form validators, navigation and plain HTTP calls.
- A constituency that the selected county does not have is not rejected. The component keeps it selected and offers no wards, and the model follows the component (`SearchGigs.UnknownConstituencyGetsNoWards`).
