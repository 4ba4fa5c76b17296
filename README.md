# Life of Lotus site: pathway, auth, intake and FAQ rules in Dafny

This project models the decision and data rules of a small booking and
"pathway" web site. Its client code lives in `js/`, plus one Google Apps
Script web app. Every call to the hosted database, the identity provider or
the spreadsheet service is replaced by an input value: the fetched rows, the
session user, the store's error. Each table the code writes is a sequence or
map held in a class field.

| file | module | models |
|---|---|---|
| common.dfy | Common | `Option`, `Result`, `Join`, `Filter`, number-to-text, shared by the rest |
| sorting.dfy | Sorting | the stable sort behind `Array.prototype.sort` and the store's `order(...)`, on sequences and in place on an array |
| pathways.dfy | Pathways | the rows of the pathway tables, JavaScript truthiness of their fields, `day_number \|\| 1` and the total-days maximum |
| auth.dfy | Auth | js/auth.js: `currentUser`, the listener registry, the login redirects, `getRedirectUrl`, `signUp` |
| pathway_auth.dfy | PathwayAuth | js/pathway-auth.js: `canStartPathway`, `canViewPathway`, `startPathway`, `getMyPathways` |
| start_pathway.dfy | StartPathway | js/start-pathway.js: the start checks, the existing-assignment lookup, the assignments table, the materials and environment sections |
| my_pathways.dfy | MyPathways | js/my-pathways.js: block order, progress percentage, grouping by day, the two formatters, the completed-days table, the page's fetch |
| pathway_browse.dfy | PathwayBrowse | js/pathway-browse.js: the public listing and the fields of each card |
| intake.dfy | Intake | google-apps-script.js: header normalisation, the first-match classifier, the row and the append |
| login.dfy | Login | js/login.js: the login and sign-up checks, the form toggle |
| faq_chat.dfy | FaqChat | js/faq-chat.js: the question and category tables, the panel and accordion state |

Who the caller is and what the store holds are parameters. `authenticated`
is the page's `isAuthenticated()`, which reads the auth module's own state.
`sessionUser` is the user of the session the provider reports, which is
`data.session.user` of what `getSession()` resolves to (`Auth.SessionUser`).
The pathway pages read `data.user` instead, which never holds a user (see
"## Findings"). The model gives them the intended value. The two inputs can
disagree, and the model keeps them apart.

A JavaScript value the code only tests for truthiness is modelled with its
falsy case made explicit:
- `""` stands for a missing text field;
- `0` stands for a missing `day_number`;
- `None` stands for a missing `block_order` or a missing array.

`Math.round(c / t * 100)` is computed on integers as `(200c + t) / (2t)`, a
non-negative ratio rounded half up. `String.length` counts UTF-16 code units.

## Model

| member | source | states |
|---|---|---|
| Auth.Broadcast | js/auth.js:34-36 | one call per registered listener, in registration order, each with the same user |
| Auth.Without | js/auth.js:28-30 | the removed callback no longer occurs; every other listener keeps its number of occurrences |
| Auth.WithoutAppend | js/auth.js:28-30 | filtering works piece by piece, so the listeners that stay keep their order, which is the order notify calls them in (js/auth.js:34-36) |
| Auth.WithoutAbsent | js/auth.js:28-30 | removing a callback that is not registered leaves the registry unchanged |
| Auth.SubscribeThenUnsubscribe | js/auth.js:23-30 | subscribing a new callback and calling the returned unsubscribe gives back the original registry |
| Auth.LoginGate | js/auth.js:141-160 | proceed iff authenticated; otherwise go to the given login page, returning to `redirectPath`, or to the current path when none is given |
| Auth.FirstParam | js/auth.js:163-166 | `params.get`: None iff no parameter has the key, else the value of the first one that does |
| Auth.GetRedirectUrl | js/auth.js:163-166 | never empty; the `redirect` parameter when it is present and non-empty; "/" when it is absent or empty |
| Auth.SessionUser | js/auth.js:10-11 | `session?.user`: a user iff the response holds a session, and then that session's user |
| Auth.DestructuredUser | js/pathway-auth.js:26 | `const { data: { user } }` on a `{ data: { session } }` response: never a user |
| Auth.DestructuredUserLosesSession | js/pathway-auth.js:26 | for a response with a session, the destructured user differs from the session's user |
| Auth.SignUp | js/auth.js:49-83 | an error iff the provider refused, carrying its message; otherwise the provider's data with no error |
| Auth.SignUpIgnoresRecordError | js/auth.js:64-79 | a failed user-record insert never changes what `signUp` returns |
| Auth.AuthState.IsAuthenticated | js/auth.js:39-41 | true iff a current user is set |
| Auth.AuthState.OnAuthStateChange | js/auth.js:23-27 | appends the callback; calls it once with the user iff one is signed in |
| Auth.AuthState.Unsubscribe | js/auth.js:28-30 | the registry becomes `Without(old, callback)`; user and call log unchanged |
| Auth.AuthState.NotifyAuthListeners | js/auth.js:34-36 | the loop appends exactly `Broadcast(listeners, currentUser)` to the call log |
| Auth.AuthState.InitAuth | js/auth.js:9-14 | adopts the session user, notifies every listener with it, and returns it |
| Auth.AuthState.ProviderStateChanged | js/auth.js:17-20 | adopts the session user and notifies every listener with it |
| Auth.AuthState.RequireAuth | js/auth.js:141-149 | true iff signed in; otherwise sends to the relative login page with the return path |
| Auth.AuthState.WithAuth | js/auth.js:152-160 | runs the callback iff signed in; otherwise sends to the site-root login page |
| PathwayAuth.CanStartPathway | js/pathway-auth.js:6-21 | not allowed and requires auth exactly when not authenticated; an error message iff not allowed |
| PathwayAuth.CanStartIgnoresPathway | js/pathway-auth.js:15-20 | once signed in, the answer is "allowed" for every pathway id |
| PathwayAuth.CanViewPathway | js/pathway-auth.js:113-150 | default deny: allowed iff active and (platform, or practitioner assigned to the signed-in session user); requires auth iff active practitioner and not signed in; not found, not active and unknown type give their reasons |
| PathwayAuth.InactiveHiddenFromAll | js/pathway-auth.js:126-128 | an inactive pathway gets the same denial whoever asks |
| PathwayAuth.StartPathway | js/pathway-auth.js:24-71 | redirects to login when signed out; throws on a missing acknowledgement before anything else is read; creates a row iff signed in, acknowledged, requirements found and the insert succeeds; the row is active and acknowledged; the acknowledgement-required error can never be thrown |
| PathwayAuth.GetMyPathways | js/pathway-auth.js:74-99 | data iff signed in, with a session user, and the query succeeds; the rows are exactly the user's active assignments |
| PathwayAuth.SessionAsWrittenLocksOut | js/pathway-auth.js:26-30 | with the user read as `data.user`, a signed-in visitor is denied every practitioner pathway, `startPathway` throws "User not authenticated", and `getMyPathways` returns no data |
| PathwayAuth.SessionAsIntendedAdmits | js/pathway-auth.js:24-99 | with the session's user, the assigned user views the pathway, starts it as that user, and gets their active assignments |
| StartPathway.ValidatePathwayStart | js/start-pathway.js:21-49 | missing and inactive pathways fail with their messages whatever the type; succeeds iff active and (not practitioner, or assigned to the session user) |
| StartPathway.CheckExistingAssignment | js/start-pathway.js:52-70 | a row iff there is a user, the lookup succeeds and exactly one active row matches; the row is in the table and matches the pathway, the user and status active |
| StartPathway.AtMostOneMatch | js/start-pathway.js:56-62 | while no user has two active rows of one pathway, the lookup meets at most one row |
| StartPathway.NoneMeansNotActive | js/start-pathway.js:52-70 | under that invariant, a successful lookup that finds nothing means the user has no active row of the pathway |
| StartPathway.ActivationCheck | js/start-pathway.js:238-255 | no user, then no acknowledgement, are refused before the requirements are read; passes iff user, acknowledgement and requirements are present; the acknowledgement-required error never occurs |
| StartPathway.AssignmentTable.ActivatePathway | js/start-pathway.js:238-275 | appends exactly one active, acknowledged row for the user iff the checks pass and the insert succeeds; otherwise the table is unchanged |
| StartPathway.AssignmentTable.HandleStartPathway | js/start-pathway.js:278-321 | login redirect when signed out; an existing active assignment, a cancelled modal or any failed check add no row; a row is added iff every check passes; the at-most-one-active invariant is kept |
| StartPathway.SessionAsWrittenBlocksStart | js/start-pathway.js:39-54 | with the user read as `data.user`, a practitioner pathway fails validation, no existing assignment is found, and activation stops at "User not authenticated" |
| StartPathway.SessionAsIntendedPassesStart | js/start-pathway.js:21-49 | with the session's user, an active practitioner pathway assigned to them validates and activation passes for that user |
| StartPathway.AppendKeepsAtMostOne | js/start-pathway.js:258-266 | inserting a row for a (user, pathway) with no active row keeps the invariant |
| StartPathway.StartLine | js/start-pathway.js:170-179 | a string is a plain line; an entry with an item is marked Required unless `required` is `false`; any other element is dropped |
| StartPathway.RenderMaterialsList | js/start-pathway.js:164-190 | nothing for a missing or non-array value; at most one line per item; every kept item's line appears and every line is some item's; empty iff every item is dropped |
| StartPathway.MaterialLinesInOrder | js/start-pathway.js:170-179 | the lines of a concatenation are the first part's lines followed by the second's, so lines keep the items' order |
| StartPathway.MaterialLineOfOne | js/start-pathway.js:170-179 | a single item gives exactly its own line, or none when it is dropped |
| StartPathway.EntryRequiredByDefault | js/start-pathway.js:174-176 | an entry with no `required` field is listed as required |
| StartPathway.PartsShown | js/start-pathway.js:206-224 | exactly the shown parts, each with its own value, in the order space, time, mobility |
| StartPathway.CollectParts | js/start-pathway.js:206-224 | the three conditional `parts.push` steps leave exactly `PartsShown` of the truthy fields and their joined values |
| StartPathway.RenderEnvironmentInfo | js/start-pathway.js:193-235 | a truthy string verbatim; for an object, a part for a field iff it is truthy, carrying that field's joined value, in the order space, time, mobility; no parts, or any other value, shows nothing |
| Pathways.TotalDays | js/my-pathways.js:118-120 | 0 for no blocks; otherwise the largest `day_number \|\| 1` over the blocks, attained by one of them |
| Pathways.TotalDaysSameBlocks | js/pathway-browse.js:108-110 | the total depends only on which blocks there are, so the unsorted listing and the sorted page agree |
| Sorting.InsertionSortPermutation | js/my-pathways.js:109-114 | the sort returns a permutation of its input |
| Sorting.InsertionSortSorted | js/my-pathways.js:109-114 | for a total preorder, the result is sorted |
| Sorting.InsertionSortStable | js/my-pathways.js:109-114 | elements that compare equal keep their relative order |
| Sorting.StableSortUnique | js/my-pathways.js:109-114 | any sorted, stable permutation equals this one, so the model fixes the result of any stable sort |
| Sorting.SortInPlace | js/my-pathways.js:109-114 | the array method leaves exactly `InsertionSort(old contents)` in the array |
| MyPathways.BlockLeByKey | js/my-pathways.js:109-114 | the comparator orders by day number, then block order with a missing one counted as 0 |
| MyPathways.BlockLeTotalPreorder | js/my-pathways.js:109-114 | the comparator is total and transitive |
| MyPathways.SortedBlocks | js/my-pathways.js:109-114 | a permutation of the blocks, ordered by (day number, block order), stable among ties |
| MyPathways.SortBlocks | js/my-pathways.js:109-114 | sorting the blocks array in place leaves `SortedBlocks` of its old contents |
| MyPathways.CompletionPercent | js/my-pathways.js:121-122 | 0 when there are no days; otherwise the whole number nearest to 100·completed/total, halves rounded up |
| MyPathways.PercentUnique | js/my-pathways.js:122 | the percentage is the only whole number within the rounding bounds |
| MyPathways.PercentEnds | js/my-pathways.js:122 | 0 completed days give 0%; all days completed give 100% |
| MyPathways.PercentMonotonic | js/my-pathways.js:121-122 | more completed days never lower the percentage |
| MyPathways.PercentAtMost100 | js/my-pathways.js:121-122 | the percentage stays within 0..100 while the completed count is at most the total |
| MyPathways.PercentCanExceed100 | js/my-pathways.js:121-122 | nothing clamps it: 6 of 5 days shows 120% |
| MyPathways.GroupBlocksByDay | js/my-pathways.js:260-294 | one group per distinct day, in strictly increasing day order; each group holds its day's blocks in their given order, is non-empty, and is ticked iff the day was completed; no groups iff no blocks |
| MyPathways.EachBlockInOneGroup | js/my-pathways.js:266-276 | in such a grouping every block lies in exactly one group |
| MyPathways.CollectByDay | js/my-pathways.js:266-273 | the `forEach` loop maps every day that occurs, and only those, to that day's blocks in order, with each key listed once |
| MyPathways.MyLine | js/my-pathways.js:209-217 | a string is a plain line; an entry with an item is marked Required only when `required` is `true`; any other element renders as '' |
| MyPathways.RenderMaterialsList | js/my-pathways.js:206-219 | nothing for a missing or non-array value; at most one line per item; every kept item's line appears and every line is some item's; empty iff every item renders as '' |
| MyPathways.MaterialLinesInOrder | js/my-pathways.js:209-218 | the lines of a concatenation are the first part's lines followed by the second's, so lines keep the items' order |
| MyPathways.MaterialLineOfOne | js/my-pathways.js:209-218 | a single item gives exactly its own line, or none when it renders as '' |
| MyPathways.MaterialListsAgreeWhenFlagged | js/my-pathways.js:213-215 | the two pages' material lists are equal when every entry states `required` |
| MyPathways.MaterialDefaultsDiffer | js/my-pathways.js:214 | an entry with no `required` field is optional here and required on the start page |
| MyPathways.PartsShown | js/my-pathways.js:228-237 | exactly the shown parts, each with its own value, in the order space, time, setup |
| MyPathways.EnvironmentParts | js/my-pathways.js:227-238 | a part for a field iff it is truthy (setup iff its minutes are not 0), carrying that field's value, in the order space, time, setup |
| MyPathways.FormatEnvironment | js/my-pathways.js:222-242 | a string as it is; an object as its parts joined with " \| "; any other value as its JSON text |
| MyPathways.EmptyEnvironmentObject | js/my-pathways.js:229-238 | an object whose only setup value is 0 and whose other fields are falsy formats as "" |
| MyPathways.AfterMark | js/my-pathways.js:366-395 | marking stores the key with the user and time; unmarking deletes it; every other key is untouched |
| MyPathways.MarkTwice | js/my-pathways.js:370-377 | marking the same day twice leaves the single row of the second call |
| MyPathways.UnmarkAbsent | js/my-pathways.js:385-389 | unmarking a day that is not marked changes nothing, and is no error |
| MyPathways.MarkChangesDaySet | js/my-pathways.js:362-396 | the assignment's completed days gain the day on marking and lose it on unmarking |
| MyPathways.MarkKeepsOtherAssignments | js/my-pathways.js:362-396 | every other assignment's completed days are unchanged |
| MyPathways.CompletedDaysTable.MarkDayComplete | js/my-pathways.js:362-396 | no user or a store error leaves the table unchanged; otherwise the table becomes `AfterMark(old)` |
| MyPathways.FetchMyPathways | js/my-pathways.js:6-62 | fails without a user or on a query error; otherwise exactly the user's active assignments, latest start first, each with its pathway and completed days (none for an assignment whose own completed-days query fails) |
| MyPathways.FetchAsWrittenFails | js/my-pathways.js:7-11 | with the user read as `data.user` the page always fails with "User not authenticated"; with the session's user it lists |
| MyPathways.RenderAssignment | js/my-pathways.js:95-141 | nothing without a pathway; otherwise the total days, the completed count, the percentage, and a day grouping of the sorted blocks |
| PathwayBrowse.GetPlatformPathways | js/pathway-browse.js:6-19 | the error when the query fails; otherwise exactly the active platform rows, as a permutation of the filtered table, in non-increasing `created_at` order |
| PathwayBrowse.ListingCounts | js/pathway-browse.js:14-16 | each listed row appears exactly as often as the table holds it |
| PathwayBrowse.Overview | js/pathway-browse.js:113-114 | never empty: the overview, else the description, else the default sentence |
| PathwayBrowse.PrimaryPillar | js/pathway-browse.js:117 | non-empty iff the pillar or the goal is; then one of them, the pillar first |
| PathwayBrowse.HelpsWithText | js/pathway-browse.js:120-123 | `helps_with` joined when truthy, else the joined secondary goals, else '' |
| PathwayBrowse.EmptyHelpsWithHidesSecondaryGoals | js/pathway-browse.js:120-123 | an empty `helps_with` array is truthy, so it hides the secondary goals and shows nothing |
| PathwayBrowse.FirstList | js/pathway-browse.js:126-127 | the first array present wins, even when it is empty; [] when neither is present |
| PathwayBrowse.DailyTimes | js/pathway-browse.js:130-132 | both times are '' without a daily commitment object, and its fields otherwise |
| PathwayBrowse.DurationAsWrittenIgnoresText | js/pathway-browse.js:136 | as written, the line is the day count or nothing; it is empty iff there is neither a stored duration nor a day |
| PathwayBrowse.DurationAsWritten | js/pathway-browse.js:136 | as written: whenever the line is not empty it is the day count |
| PathwayBrowse.DurationAsWrittenCounterexample | js/pathway-browse.js:136 | a pathway stored as "3 weeks" with no blocks is shown as "0 days" |
| PathwayBrowse.Duration | js/pathway-browse.js:136 | corrected: the stored duration when present, else the day count when non-zero, else nothing |
| PathwayBrowse.DurationShownAlike | js/pathway-browse.js:136 | corrected or not, the duration line is shown under the same condition |
| PathwayBrowse.RequirementsPreview | js/pathway-browse.js:104 | a preview iff the first requirements record has truthy materials or environment, with exactly those two flags |
| PathwayBrowse.PreviewUsesFirstRecord | js/pathway-browse.js:104 | records after the first never change the preview |
| PathwayBrowse.CardOf | js/pathway-browse.js:102-196 | a card keeps the row's id and title and shows a non-empty overview; the meta line appears iff there is a stored duration or a day, and then reads the day count as the page computes it (`DurationAsWritten`); the preview and the call to action follow the record and the sign-in flag |
| PathwayBrowse.BareRowCard | js/pathway-browse.js:103-136 | a row with no data and no blocks shows the default overview and no optional section |
| PathwayBrowse.RenderPathways | js/pathway-browse.js:89-196 | the empty note iff no rows; otherwise one card per row, in order |
| PathwayBrowse.InitPathwayBrowse | js/pathway-browse.js:51-86 | untouched when the feature is off; the error note on a query error; every card comes from a listed row; the empty note iff no row is listed; otherwise exactly `RenderPathways` of the sorted listing |
| PathwayBrowse.ListingEmpty | js/pathway-browse.js:64-86 | the listing is empty iff no row of the table is an active platform pathway |
| Intake.ToLower | google-apps-script.js:46 | same length; each character lower-cased |
| Intake.Trim | google-apps-script.js:46 | the middle slice of the input, with only white space cut at both ends and none left at either end |
| Intake.NormalizeIdempotent | google-apps-script.js:46 | normalising a normalised header changes nothing |
| Intake.ClassifyIgnoresCaseAndSpace | google-apps-script.js:46 | case, and white space added at either end, never change a header's field |
| Intake.ContainsIffAt | google-apps-script.js:49-71 | `includes` holds iff the pattern occurs at some position |
| Intake.RedundantTests | google-apps-script.js:49-71 | each `=== 'x'` test and each longer pattern the chain tries implies a shorter pattern of the same branch |
| Intake.FirstMatchWins | google-apps-script.js:49-76 | the field is that of the first rule the header matches, and Unmatched iff it matches none |
| Intake.ClassifyIsFirstMatch | google-apps-script.js:49-76 | the if/else chain and the ordered first-match rule table give every header the same field |
| Intake.NameAnywhere | google-apps-script.js:49-50 | any header that includes "name" is a name column, whatever else it says |
| Intake.CellFor | google-apps-script.js:49-76 | package gives "Yes" iff `isPackage`, else "No"; an unmatched header gives ''; a date cell, holding the clock's instant, iff the column is the submission time |
| Intake.BuildRow | google-apps-script.js:44-77 | one cell per header, each the cell of that header's field |
| Intake.CellDependsOnItsHeader | google-apps-script.js:44-77 | equal headers give equal cells, wherever they stand |
| Intake.UnmatchedColumnIsEmpty | google-apps-script.js:73-76 | an unrecognised column stays empty |
| Intake.Sheet.AppendRow | google-apps-script.js:80 | the row is added after the existing rows |
| Intake.DoPost | google-apps-script.js:23-95 | a parse error, a missing sheet and a sheet with no columns each fail and append nothing; otherwise exactly the built row is appended and success is reported |
| Login.Target | js/login.js:67 | never empty; the redirect URL when it is non-empty, "/" when it is empty |
| Login.HandleLogin | js/login.js:39-68 | nothing without the inputs; sign-in is called iff both fields are filled; otherwise the missing-field message; the provider's error is shown; redirect iff sign-in succeeds |
| Login.LoginGoesToRedirectParameter | js/login.js:67 | a successful login goes to the `redirect` query parameter, or "/" |
| Login.JsLength | js/login.js:92 | `password.length` in UTF-16 code units: between one and two units per character |
| Login.JsLengthBmp | js/login.js:92 | a string of Basic Multilingual Plane characters has one unit per character |
| Login.HandleSignup | js/login.js:71-116 | the all-fields check comes before the length check; sign-up is called iff every field is filled and the password has at least 6 units; a user without a session sees the confirmation and stays; redirect iff a session was opened |
| Login.PasswordBoundary | js/login.js:92-95 | a password of 1 to 5 ordinary characters is refused with the length message; 6 characters reach the provider |
| Login.ThreeAstralCharactersPass | js/login.js:92 | three characters outside the Basic Multilingual Plane count as 6 and pass |
| Login.SignupIgnoresRecordError | js/login.js:98-115 | a failed user-record insert never changes what the sign-up form shows |
| Login.ToggledDisplays | js/login.js:125-128 | exactly one form is hidden afterwards; the login form is hidden iff it was visible |
| Login.ToggleTwice | js/login.js:119-129 | toggling twice restores the page iff one form was "block" and the other "none" |
| Login.LoginPage.Toggle | js/login.js:119-129 | with both forms present the displays become `ToggledDisplays(old)`; otherwise nothing changes |
| FaqChat.FindFaq | js/faq-chat.js:246 | `find`: an entry with the question when one exists, None iff none has it |
| FaqChat.QuestionsDistinct | js/faq-chat.js:4-125 | no question occurs twice in the table |
| FaqChat.OptionsMatchEntries | js/faq-chat.js:4-183 | every option's question is the question of exactly one entry, and that entry's category is the option's category key |
| FaqChat.OptionEntryUnique | js/faq-chat.js:4-183 | for one option: its entry matches it and no other entry carries its question |
| FaqChat.EveryEntryHasAnOption | js/faq-chat.js:4-183 | every entry is reached by an option of its own category |
| FaqChat.FindOption | js/faq-chat.js:244-247 | looking up an option's question always finds the entry of its own category |
| FaqChat.HeaderClicked | js/faq-chat.js:261-274 | every other item is closed, the clicked one flips, and at most one item is open |
| FaqChat.HeaderClickTwice | js/faq-chat.js:261-274 | clicking a header twice leaves at most that item open, as it was; it restores the accordion when no other item was open |
| FaqChat.OptionClicked | js/faq-chat.js:235-253 | the showing answer of the clicked option is hidden and cleared; otherwise the found answer is shown and its question recorded |
| FaqChat.OptionClickToggles | js/faq-chat.js:237-251 | a click shows the option's answer iff it was not already showing; two clicks restore a showing answer and otherwise close the container |
| FaqChat.ShownAnswerIsOwnCategory | js/faq-chat.js:226-251 | an answer showing in a category's container is the entry of that category |
| FaqChat.FaqWidget.RenderCategories | js/faq-chat.js:208-280 | the loop leaves one closed item with a closed, unset answer container per category |
| FaqChat.FaqWidget.ToggleChat | js/faq-chat.js:197-205 | flips `isOpen`, both active flags follow it, opening re-renders every item closed, and at most one item stays open |
| FaqChat.FaqWidget.ClickHeader | js/faq-chat.js:261-274 | the loop leaves `HeaderClicked(old items, c)`, keeps the answers, and keeps the invariant |
| FaqChat.FaqWidget.ClickOption | js/faq-chat.js:235-253 | only the clicked category's container changes, to `OptionClicked(old, question)`; it keeps the one-answer-per-category invariant |
| FaqChat.FaqWidget.DocumentClick | js/faq-chat.js:287-293 | a click outside the panel and the button closes an open panel; nothing else changes |
| FaqChat.FaqWidget.ClickButton | js/faq-chat.js:283-293 | the button's click is one toggle; the document's handler then ignores it |
| FaqChat.FaqWidget.ClickClose | js/faq-chat.js:284-293 | closing an open panel keeps its items; on a closed panel the click re-renders every item closed with no answer, and leaves the panel open only if the close button lies inside it |

## Left out

- Network, database and identity-provider calls are not modelled. Their results are parameters: fetched rows, session user, error messages. Sign-in, sign-out, password reset and update are not modelled beyond that (js/auth.js:86-137).
- Concurrency is not modelled: `async`/`await`, `Promise.all` in `fetchMyPathways`, and the check-then-insert race of `handleStartPathway`. The model runs each handler to completion, one at a time.
- The clock is an input `now`. `new Date()`, `toISOString` and `toLocaleDateString` are not modelled.
- Redirects, `alert` and `confirm` become outcome values. `encodeURIComponent` and `URLSearchParams` decoding are not modelled; the query is a list of decoded pairs.
- HTML markup and styling are left out. A card, a day group or an environment section is the record of what it shows. Also left out:
  - the attribution banner (js/my-pathways.js:144-170);
  - `renderBlock` (js/my-pathways.js:297-322);
  - the start page's setup-time line (js/start-pathway.js:88-90);
  - the answer HTML of the FAQ.
- The my-pathways acknowledgement section is left out (js/my-pathways.js:173-203). Only the materials list and environment formatter it calls are modelled.
- The materials modal (js/start-pathway.js:73-161) is left out. Its outcome is the input `modalAccepted`.
- Button, DOMContentLoaded and form event wiring is left out: `initStartPathwayButtons`, `initLogin`, `initDayCompletionHandlers`, `initMyPathways`, and the listeners at the end of `renderPathways`. The FAQ button, close and document clicks are modelled.
- The `handleStartPathway` and `getPathwayRequirements` wrappers of js/pathway-browse.js:37-48 are left out. They only import other modules.
- `getPathwayDetails`, `getPathwayRequirements` (js/pathway-auth.js:102-110) and `getCurrentUser` are left out. Each is a plain query or getter.
- The feature flags `ENABLE_DYNAMIC_PATHWAYS` and `ENABLE_AUTH` are parameters. js/feature-flags.js is not part of this model.
- js/supabase-client.js and js/mobile-menu.js are not part of this model. They hold configuration and CSS class toggling.
- Pathways.DayOf: a `null` day number and `0` are both modelled as `0`. In the source, `null - x` and `0 - x` also agree. The comparator on a `null` day against a `0` day is the one pair the model cannot tell apart.
- MyPathways.CompletionPercent: `Math.round` on floating point is replaced by exact integer rounding. The two agree for every count and total where the float quotient is exact.
- Sorting.InsertionSort: the store's order among rows with equal `created_at` (or `started_at`) is unspecified. The model keeps table order, which a stable sort would also give.
- Intake.ToLower: only ASCII letters are lower-cased. Unicode case mapping is not modelled.
- Intake.DoPost: `header.toString()` of a non-text cell is not modelled. Headers are texts.
- Intake.DoPost: an exception from `openById` or `appendRow` is not modelled. Only the JSON parse error and the zero-column range are.
- StartPathway.RenderMaterialsList and MyPathways.RenderMaterialsList: a `null` array element, which throws in the source, is modelled as an element that renders nothing.
- Auth.AuthState.NotifyAuthListeners: a listener that subscribes or unsubscribes while being notified is not modelled. A listener is an identifier, and calls are recorded in a log.
- FaqChat.FaqWidget: a missing `faq-chat-content` or `faq-chat-close` element, which makes the source throw, is not modelled. The widget assumes every element it uses exists once the button and panel do.
- StartPathway.AssignmentTable.HandleStartPathway: the requirements row is read once, although the page reads it twice.
- The session user is read as intended, `data.session.user`, by PathwayAuth.StartPathway, PathwayAuth.CanViewPathway, PathwayAuth.GetMyPathways, StartPathway.ValidatePathwayStart, StartPathway.CheckExistingAssignment, StartPathway.ActivationCheck, the StartPathway.AssignmentTable methods, MyPathways.FetchMyPathways and MyPathways.CompletedDaysTable.MarkDayComplete. As written, each of them gets no user (see "## Findings"). For MarkDayComplete, which is a method, this is not shown by a lemma: as written it always returns without writing.

## Findings

| source | as written | input that shows it | evidently intended | confidence | as-written member | corrected member |
|---|---|---|---|---|---|---|
| js/pathway-browse.js:136 | `pathwayData.total_duration \|\| totalDays ? \`${totalDays} days\` : ''` parses as `(total_duration \|\| totalDays) ? ... : ''`, so the stored duration text is never shown | `total_duration = "3 weeks"` and no blocks: the card says "Duration: 0 days" | `total_duration \|\| (totalDays ? \`${totalDays} days\` : '')`: the stored text when present, else the day count | medium, not executed | PathwayBrowse.DurationAsWritten, PathwayBrowse.DurationAsWrittenCounterexample | PathwayBrowse.Duration |
| js/pathway-auth.js:26 | `const { data: { user } } = await supabase.auth.getSession()`, also at js/pathway-auth.js:79,141, js/my-pathways.js:7,363 and js/start-pathway.js:39,53,239; version 2 of the client (js/supabase-client.js:3) resolves to `{ data: { session } }`, so `user` is always undefined | a signed-in visitor with a session asks to start a pathway: `startPathway` throws "User not authenticated" | `data.session?.user`, as js/auth.js:10-11 reads it | high, not executed | Auth.DestructuredUser, PathwayAuth.SessionAsWrittenLocksOut, StartPathway.SessionAsWrittenBlocksStart, MyPathways.FetchAsWrittenFails | Auth.SessionUser, PathwayAuth.SessionAsIntendedAdmits, StartPathway.SessionAsIntendedPassesStart |
