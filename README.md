# Soundchild.ai: a Dafny model of the dashboard logic

Soundchild.ai is a React single-page app for independent musicians, playlist
curators and record labels. Each role has its own hub:

- The **artist hub** runs AI tools (track evaluator, campaign optimizer, pitch
  writer and others), messages curators and keeps a wallet.
- The **curator hub** reviews a queue of submissions, rates the AI reviews and
  tracks a reputation score.
- The **label hub** scouts artists, draws a genre heatmap, renders a
  search-grounded market report and drafts deal memos.

Around them sit:

- an app shell with toasts, a light/dark theme and view selection;
- an upload form that builds each tool's request;
- a report page;
- a career-advisor chat that streams its replies.

The AI service itself is prompt text sent to Gemini. This project models
everything around it as functions over sequences, strings and numbers, and as
classes for state the app updates step by step:

- the bookkeeping in the handlers;
- the way error and result states decide what is shown;
- the text processing of replies.

Each source file has one module:

| module | file | what it holds |
|---|---|---|
| `JsText` | `jstext.dfy` | the JavaScript string built-ins the code relies on (`trim`, `toLowerCase`, `includes`, `split`/`join`, digit extraction); whitespace is the full ECMAScript WhiteSpace and LineTerminator set, case mapping covers ASCII letters only |
| `Types`, `Common` | `types.dfy`, `common.dfy` | the records and enums of `types.ts`, `Option`, and `Outcome` (`Success(r) | Failure(msg)`, the result of an awaited API call) |
| `MockData` | `mock_data.dfy` | the lookups of `services/mockData.ts` |
| `GeminiService` | `gemini_service.dfy` | prompt interpolation, citation extraction and error mapping of `services/geminiService.ts` |
| `Wallet` | `wallet.dfy` | the ledger of `components/Wallet.tsx` |
| `Messaging` | `messaging.dfy` | the conversation list of `components/Messaging.tsx` and the find-or-create of a thread |
| `CuratorHub` | `curator_hub.dfy` | `components/CuratorHub.tsx` |
| `ArtistHub` | `artist_hub.dfy` | `components/ArtistHub.tsx` |
| `LabelHub` | `label_hub.dfy` | `components/LabelHub.tsx` |
| `CareerAdvisor` | `career_advisor.dfy` | `components/CareerAdvisor.tsx` |
| `CuratorDiscovery` | `curator_discovery.dfy` | `components/CuratorDiscovery.tsx` |
| `AnalysisDisplay` | `analysis_display.dfy` | `components/AnalysisDisplay.tsx` |
| `MusicUploadForm` | `music_upload_form.dfy` | `components/MusicUploadForm.tsx` |
| `App` | `app.dfy` | `App.tsx` |

How the source maps into Dafny:

- Each component's `useState` cells become the fields of a class. Its handlers
  become methods that state their whole new state.
- Pure helpers become functions with lemmas.
- Every awaited service call is a parameter of the handler that awaits it: the
  `Outcome` of the call, or a `Stream` of chunks for the chat. The handler is
  modelled as its synchronous part before the call (`StartRun`, `StartSubmit`,
  `StartScout`) and after it (`FinishRun`, `FinishSubmit`, `FinishScout`). A
  method such as `HandleFormSubmit` composes the two.
- `Date.now()`, `new Date()`, `Math.random()` and stored settings are
  parameters.
- Money is a `real`, so the ledger is exact.

## Model

| member | source | states |
|---|---|---|
| `Wallet.TransactionRow` | components/Wallet.tsx:14-32 | a row shows '+', the positive colour and the up arrow exactly when its type is deposit, payout, bonus, tip or credit purchase; it shows the 'credits' unit exactly for credit purchase and credit spend |
| `Wallet.CreditPurchaseRowShowsPlus` | components/Wallet.tsx:15-32 | a row is both a credit row and a '+' row exactly when it is a credit purchase |
| `Wallet.ParseDigits` | components/Wallet.tsx:198 | `parseInt` of a digit string is NaN exactly for the empty string, and otherwise non-negative |
| `Wallet.BonusAsWritten` | components/Wallet.tsx:198 | an absent or empty bonus adds 0; a non-empty bonus without a digit gives NaN |
| `Wallet.CreditsAfterPurchaseAsWritten` | components/Wallet.tsx:196-200 | the new credit count is NaN exactly when the bonus term is NaN, and otherwise old credits + pack credits + bonus |
| `Wallet.BasicPackPoisonsCredits` | components/Wallet.tsx:198 | buying the 'Basic' pack (services/mockData.ts:4) as written turns the credit count into NaN |
| `Wallet.BonusCredits` | components/Wallet.tsx:198 | the bonus equals the as-written value whenever that is a number, and is 0 where the code gives NaN |
| `Wallet.BonusOfPlusCredits` | components/Wallet.tsx:198 | a bonus written '+n Credits' grants exactly n credits |
| `Wallet.Purchase` | components/Wallet.tsx:182-204 | a pack dearer than the balance leaves the wallet unchanged with the insufficient-funds error; otherwise the balance drops by the price, the credits rise by pack + bonus, and one credit-purchase entry of −price dated today, with id 'tx_buy_<now>' and description '<n> Credit Pack', is prepended in front of the unchanged older entries, and the toast reads 'Successfully purchased <n> credits!' |
| `Wallet.PurchaseMatchesAsWritten` | components/Wallet.tsx:196-200 | where the handler as written yields a number, `Purchase` gives the same credit count; where it yields NaN, `Purchase` adds the pack's credits only |
| `Wallet.PurchaseEntryShowsPlus` | components/Wallet.tsx:187-193 | the entry a purchase of a priced pack records has a negative amount, yet its row is drawn with '+', the positive colour, the up arrow and the 'credits' unit |
| `Wallet.Withdraw` | components/Wallet.tsx:206-225 | an amount above the balance leaves the wallet unchanged with the error; otherwise the balance drops by the amount, credits stay, one withdrawal entry of −amount described 'Withdrawal to <method>' is prepended, and the success toast names the amount |
| `Wallet.WithdrawWholeBalance` | components/Wallet.tsx:207-222 | withdrawing exactly the balance succeeds and leaves 0 |
| `Wallet.RunKeepsLedgerSound` | components/Wallet.tsx:182-225 | from a non-negative balance, any sequence of purchases and withdrawals keeps the balance non-negative, adds exactly one entry per successful action, and keeps the original entries as the tail |
| `Wallet.WalletState.constructor` | components/Wallet.tsx:178-179 | the wallet starts as given with the dialog closed, and the balance is non-negative |
| `Wallet.WalletState.SetModal` | components/Wallet.tsx:228-230 | only the dialog cell changes |
| `Wallet.WalletState.HandlePurchaseCredits` | components/Wallet.tsx:182-204 | the new wallet and toast are those of `Purchase`; the dialog closes only on success; the balance stays non-negative |
| `Wallet.WalletState.HandleWithdraw` | components/Wallet.tsx:206-225 | the new wallet and toast are those of `Withdraw`; the dialog cell is untouched; the balance stays non-negative |
| `Wallet.WalletState.ConfirmPurchase` | components/Wallet.tsx:46-55 | nothing happens unless both a pack and a payment method are chosen; otherwise the purchase handler runs |
| `Wallet.WalletState.ConfirmWithdraw` | components/Wallet.tsx:139-149 | nothing happens unless the parsed amount is positive; otherwise the withdrawal handler runs and the dialog closes |
| `Messaging.MarkSent` | components/Messaging.tsx:84-93 | the list keeps its length |
| `Messaging.WithId` | components/Messaging.tsx:94 | every conversation kept carries the active id |
| `Messaging.WithoutId` | components/Messaging.tsx:94 | no conversation kept carries the active id |
| `Messaging.MoveToFrontPermutes` | components/Messaging.tsx:94 | moving the active conversation to the front keeps the length and the multiset of conversations |
| `Messaging.SendToAbsentId` | components/Messaging.tsx:84-95 | if no conversation has the active id, sending leaves the list unchanged |
| `Messaging.OthersUntouched` | components/Messaging.tsx:85-93 | every conversation other than the active one is unchanged, in its old order |
| `Messaging.SendToThread` | components/Messaging.tsx:76-95 | with distinct ids, sending to conversation k gives that conversation with the message appended, at index 0, followed by the others in their old order |
| `Messaging.SendKeepsThreadsDistinct` | components/Messaging.tsx:84-95 | sending keeps conversation ids and participant ids distinct |
| `Messaging.FindByParticipant` | components/CuratorHub.tsx:231 | the index found is the first conversation with that participant, and none is found exactly when no conversation has it |
| `Messaging.OpenThread` | components/CuratorHub.tsx:231-247 | an existing thread with the participant is returned with the list unchanged; otherwise a new empty thread with id 'conv_<now>' is prepended; either way the id returned belongs to a thread with that participant |
| `Messaging.OpenThreadKeepsParticipantsDistinct` | components/ArtistHub.tsx:251-266 | find-or-create keeps participant ids distinct and adds at most one thread |
| `Messaging.OpenThreadTwice` | components/ArtistHub.tsx:251-266 | opening the same participant's thread twice finds the first one and changes nothing more |
| `Messaging.Inbox.constructor` | components/ArtistHub.tsx:193-194 | the list is as given, no conversation is active and the draft is empty |
| `Messaging.Inbox.SetDraft` | components/Messaging.tsx:145 | only the draft changes |
| `Messaging.Inbox.Select` | components/Messaging.tsx:112 | only the active id changes |
| `Messaging.Inbox.SelectDefault` | components/Messaging.tsx:66-70 | with no active id and a non-empty list, the first conversation becomes active; otherwise nothing changes |
| `Messaging.Inbox.SendMessage` | components/Messaging.tsx:72-97 | a blank draft or no active id changes nothing; otherwise the list becomes the send update with the trimmed draft as a 'me' message and the draft is cleared |
| `Messaging.Inbox.OpenThreadWith` | components/CuratorHub.tsx:231-247 | the list and the active id become those of `OpenThread`; the handler's own updates leave the draft alone |
| `CuratorHub.RateSubmissions` | components/CuratorHub.tsx:204-208 | the list keeps its length |
| `CuratorHub.RateOnlyTouchesId` | components/CuratorHub.tsx:204-208 | submissions with other ids are unchanged; those with the selected id become 'reviewed' with the rating |
| `CuratorHub.RerateOverwrites` | components/CuratorHub.tsx:204-208 | rating again with a second value equals rating once with it |
| `CuratorHub.Rated` | components/CuratorHub.tsx:211 | only rated submissions are kept |
| `CuratorHub.ReputationIsIntegerQuotient` | components/CuratorHub.tsx:213-215 | the rounded percentage equals the integer quotient (40·total + count) div (2·count), so halves round up |
| `CuratorHub.RatingTotalBounds` | components/CuratorHub.tsx:213 | with star ratings, the total lies between the number of rated submissions and 5 times that |
| `CuratorHub.ReputationInRange` | components/CuratorHub.tsx:211-216 | with star ratings 1..5 (components/AnalysisDisplay.tsx:109), the reputation stays within 20..100 |
| `CuratorHub.RateKeepsStarRatings` | components/CuratorHub.tsx:204-211 | rating with 1..5 keeps every rating a star rating and never shrinks the rated set |
| `CuratorHub.RatedGrows` | components/CuratorHub.tsx:204-211 | rating never shrinks the set of rated submissions |
| `CuratorHub.RatedAfterRating` | components/CuratorHub.tsx:211-212 | after rating a submission that is in the list, at least one submission is rated, so the reputation is recomputed |
| `CuratorHub.CuratorHubState.constructor` | components/CuratorHub.tsx:160-171 | the mock submissions and earnings, nothing selected, no analysis or error, the queue tab, and the curator conversations with none active |
| `CuratorHub.CuratorHubState.SetTab` | components/CuratorHub.tsx:322-334 | only the tab changes, except that any tab but messages empties the inbox draft; the draft survives only if the inbox is shown before and after, and is otherwise emptied |
| `CuratorHub.CuratorHubState.SelectSubmission` | components/CuratorHub.tsx:174-176 | only the pre-analysis slot changes |
| `CuratorHub.CuratorHubState.CancelPreAnalysis` | components/CuratorHub.tsx:311 | only the pre-analysis slot is cleared |
| `CuratorHub.CuratorHubState.StartFullReview` | components/CuratorHub.tsx:178-185 | with a pre-analysis submission, it becomes the selected one and pre-analysis, analysis and error are cleared; without one, nothing changes; the draft survives only if the inbox is shown before and after, and is otherwise emptied |
| `CuratorHub.CuratorHubState.StartSubmit` | components/CuratorHub.tsx:188-190 | loading is set and error and analysis are cleared |
| `CuratorHub.CuratorHubState.FinishSubmit` | components/CuratorHub.tsx:191-198 | success stores the analysis; failure stores 'Analysis failed: ' + message; loading ends |
| `CuratorHub.CuratorHubState.HandleFormSubmit` | components/CuratorHub.tsx:187-199 | afterwards exactly one of analysis and error is set, according to the outcome, and loading is off |
| `CuratorHub.CuratorHubState.RateReview` | components/CuratorHub.tsx:201-218 | without a selection nothing changes; otherwise the submissions are rated and only the earnings' reputation becomes the rounded average, when any submission is rated |
| `CuratorHub.CuratorHubState.ViewArtistProfile` | components/CuratorHub.tsx:220-225 | a known artist's profile opens; an unknown name changes nothing; the draft survives only if the inbox is shown before and after, and is otherwise emptied |
| `CuratorHub.CuratorHubState.CloseProfile` | components/CuratorHub.tsx:260 | only the profile page is closed; the draft survives only if the inbox is shown before and after, and is otherwise emptied |
| `CuratorHub.CuratorHubState.MessageArtist` | components/CuratorHub.tsx:227-250 | an unknown artist changes nothing; a known one opens or creates the thread as `OpenThread` does, closes the profile and shows the messages tab; coming from the profile page the inbox opens with an empty draft |
| `CuratorHub.CuratorHubState.Reset` | components/CuratorHub.tsx:252-257 | selection, analysis and error are cleared and loading is off; the draft survives only if the inbox is shown before and after, and is otherwise emptied |
| `CuratorHub.CuratorHubState.RemountInbox` | components/Messaging.tsx:58 | the draft is kept exactly when the inbox is shown both before and after a handler; otherwise it is empty; the hub's list and active id are untouched |
| `CuratorHub.ProfileVisitDropsDraft` | components/CuratorHub.tsx:259-261 | a draft typed on the messages tab is gone after visiting an artist profile and messaging them from it |
| `CuratorHub.CuratorHubState.View` | components/CuratorHub.tsx:259-307 | an open profile comes first; then a selected submission shows the spinner while loading, the error text, and the report or the form only when neither is present; otherwise the dashboard |
| `CuratorHub.FailedReviewShowsError` | components/CuratorHub.tsx:187-199 | a failed review shows only the error panel with 'Analysis failed: ' + message |
| `CuratorHub.ResetShowsDashboard` | components/CuratorHub.tsx:252-257 | after reset, the dashboard is shown on the same tab |
| `ArtistHub.Dispatch` | components/ArtistHub.tsx:202-230 | no service is called exactly for curator, scouting, marketAnalysis and dealMemo; neighborhoods sends the fixed placeholder record; every other tool sends the submitted form |
| `ArtistHub.RunOutcome` | components/ArtistHub.tsx:200-234 | a tool without a branch fails with 'Invalid tool selected'; otherwise the outcome is the service's |
| `ArtistHub.InvalidToolShown` | components/ArtistHub.tsx:229-234 | a run without a known tool shows the error 'Analysis failed: Invalid tool selected' |
| `ArtistHub.NeighborhoodsIgnoresForm` | components/ArtistHub.tsx:224-227 | the neighborhoods request does not depend on the submitted form |
| `ArtistHub.ArtistHubState.constructor` | components/ArtistHub.tsx:185-194 | no tool, analysis, loading or error; the dashboard tab; the artist conversations with none active |
| `ArtistHub.ArtistHubState.SelectTool` | components/ArtistHub.tsx:360 | only the active tool changes; the draft survives only if the inbox is shown before and after, and is otherwise emptied |
| `ArtistHub.ArtistHubState.SetTab` | components/ArtistHub.tsx:337-352 | only the tab changes, except that any tab but messages empties the inbox draft; the draft survives only if the inbox is shown before and after, and is otherwise emptied |
| `ArtistHub.ArtistHubState.SetSubModal` | components/ArtistHub.tsx:326 | only the subscription dialog flag changes |
| `ArtistHub.ArtistHubState.StartRun` | components/ArtistHub.tsx:196-230 | loading is set, error and analysis are cleared, the request is that of `Dispatch`, and the spinner replaces the inbox, emptying its draft |
| `ArtistHub.ArtistHubState.FinishRun` | components/ArtistHub.tsx:231-237 | success stores the result and makes 'neighborhoods' active after a neighborhoods run; failure stores 'Analysis failed: ' + message; loading ends; the draft survives only if the inbox is shown before and after, and is otherwise emptied |
| `ArtistHub.ArtistHubState.HandleFormSubmit` | components/ArtistHub.tsx:196-238 | the stored result or error follows `RunOutcome`; a tool without a branch always ends in 'Analysis failed: Invalid tool selected'; loading is off; the draft is empty, as the spinner was shown in between |
| `ArtistHub.ArtistHubState.ViewCuratorProfile` | components/ArtistHub.tsx:240-245 | a known curator's profile opens; an unknown name changes nothing; the draft survives only if the inbox is shown before and after, and is otherwise emptied |
| `ArtistHub.ArtistHubState.CloseProfile` | components/ArtistHub.tsx:281 | only the profile page is closed; the draft survives only if the inbox is shown before and after, and is otherwise emptied |
| `ArtistHub.ArtistHubState.MessageCurator` | components/ArtistHub.tsx:247-270 | an unknown curator changes nothing; a known one opens or creates the thread as `OpenThread` does, closes the profile and shows the messages tab; coming from the profile page the inbox opens with an empty draft |
| `ArtistHub.ArtistHubState.ResetToDashboard` | components/ArtistHub.tsx:272-278 | analysis, error, loading and active tool are cleared, the dashboard tab is shown and the inbox draft is empty |
| `ArtistHub.ArtistHubState.RemountInbox` | components/Messaging.tsx:58 | the draft is kept exactly when the inbox is shown both before and after a handler; otherwise it is empty; the hub's list and active id are untouched |
| `ArtistHub.ArtistHubState.View` | components/ArtistHub.tsx:280-324 | in order: the curator profile, loading, the error, the report (which needs both an analysis and an active tool), the tool form, and the dashboard, each exactly when the earlier ones do not apply |
| `ArtistHub.ExploreSoundShowsReport` | components/ArtistHub.tsx:224-232 | a successful neighborhoods run shows its report, even from the dashboard |
| `ArtistHub.TabTripDropsDraft` | components/ArtistHub.tsx:374-382 | a draft typed on the messages tab is gone after a trip to another tab and back, so sending then changes no conversation |
| `CareerAdvisor.Concat` | components/CareerAdvisor.tsx:80-84 | no chunks give the empty reply |
| `CareerAdvisor.ConcatAppend` | components/CareerAdvisor.tsx:83-84 | the reply to a stream split in two is the two replies joined |
| `CareerAdvisor.Transcript` | components/CareerAdvisor.tsx:71-99 | the old messages stay and the user message follows; a completed stream ends in one model message holding all chunks; a failed open ends in the fixed apology; a failure mid-stream keeps the partial reply and then appends the apology |
| `CareerAdvisor.Advisor.constructor` | components/CareerAdvisor.tsx:34-39 | no messages, no session, not loading, empty input |
| `CareerAdvisor.Advisor.InitChat` | components/CareerAdvisor.tsx:42-61 | a session exists and the list is exactly the greeting |
| `CareerAdvisor.Advisor.SetInput` | components/CareerAdvisor.tsx:141 | only the input changes |
| `CareerAdvisor.Advisor.SendMessage` | components/CareerAdvisor.tsx:67-101 | a blank input, a missing session or a reply in flight changes nothing; otherwise the messages become the transcript, the input is cleared, loading ends, the error is the apology exactly on failure, and the key reset fires exactly for a missing-entity failure |
| `CareerAdvisor.FirstExchange` | components/CareerAdvisor.tsx:53-90 | from the greeting, a completed reply leaves exactly greeting, question and answer |
| `GeminiService.Humanize` | services/geminiService.ts:577 | same length, no '_' left, every '_' becomes ' ' and every other character stays |
| `GeminiService.HumanizeSingleTrackLicense` | services/geminiService.ts:577 | 'single_track_license' becomes 'single track license' |
| `GeminiService.HumanizeIdempotent` | services/geminiService.ts:577 | humanising twice equals humanising once |
| `GeminiService.FillContainsValues` | services/geminiService.ts:38-67 | a prompt built from labelled values contains every value verbatim |
| `GeminiService.EvaluatorPromptContainsInputs` | services/geminiService.ts:37-69 | the evaluator prompt contains every form value, including the artist name and track title |
| `GeminiService.OptimizerFallbacks` | services/geminiService.ts:169-199 | an empty curator list or past-results field is replaced by its fallback sentence, a non-empty one appears verbatim, and goals and budget appear |
| `GeminiService.DealMemoPromptShowsDealType` | services/geminiService.ts:570-587 | the memo prompt contains the humanised deal type, the key terms and the artist name |
| `GeminiService.MarketAnalysisNamesInputs` | services/geminiService.ts:537-545 | the market prompt contains the genre and the location |
| `GeminiService.JoinGenres` | services/geminiService.ts:523 | the join is empty exactly for no genres or one empty genre |
| `GeminiService.JoinGenresContainsEach` | services/geminiService.ts:523 | the ', '-joined list contains every genre |
| `GeminiService.PersonaPromptNamesGenres` | services/geminiService.ts:518-534 | the persona prompt contains every genre |
| `GeminiService.SourceOf` | services/geminiService.ts:550-552 | a citable chunk keeps its non-empty uri, and its title when non-empty, else 'Untitled Source' |
| `GeminiService.Sources` | services/geminiService.ts:548-552 | at most one source per chunk, each with a non-empty uri and title |
| `GeminiService.SourcesConcat` | services/geminiService.ts:549-552 | extraction works chunk by chunk, so sources keep the chunks' order |
| `GeminiService.SourcesMembership` | services/geminiService.ts:549-552 | a source is listed exactly when some chunk has a web entry with a non-empty uri that yields it |
| `GeminiService.NoMetadataNoSources` | services/geminiService.ts:548 | missing candidates or missing grounding metadata give no sources |
| `GeminiService.CallGemini` | services/geminiService.ts:592-615 | success exactly when the transport succeeds and the trimmed text parses, with the parsed value; every failure carries the one fixed 'malformed' message |
| `GeminiService.RunMarketAnalysis` | services/geminiService.ts:537-560 | failure exactly when the transport fails, with the fixed market message; on success the text is kept and there are no more sources than chunks |
| `GeminiService.FixedMessagesHideKeyError` | services/geminiService.ts:556-613 | neither fixed message contains 'Requested entity was not found' |
| `GeminiService.ServiceErrorsNeverResetKey` | components/LabelHub.tsx:96-98 | as written, no failure of `callGemini` or of the market analysis ever satisfies the label tabs' key-reset check |
| `GeminiService.CallGeminiKeepingKeyErrors` | services/geminiService.ts:608-614 | a key error passes through unchanged; every other outcome is that of `CallGemini` |
| `GeminiService.KeyErrorsReachCaller` | components/LabelHub.tsx:96-98 | with key errors passed through, the callers' check fires exactly for a key error |
| `LabelHub.LineEnd` | components/LabelHub.tsx:168 | the heading title `(.+)` runs up to the first line terminator or the end |
| `LabelHub.SplitFrom` | components/LabelHub.tsx:168 | the split has an odd number of parts; every captured title is non-empty and starts off a line terminator; a blank text splits into blank parts |
| `LabelHub.NonBlank` | components/LabelHub.tsx:168 | the kept parts are non-blank parts of the split |
| `LabelHub.NonBlankKeeps` | components/LabelHub.tsx:168 | every non-blank part is kept |
| `LabelHub.Pairs` | components/LabelHub.tsx:170-175 | part 2k trimmed is the title and part 2k+1 trimmed the content of section k, for half the parts |
| `LabelHub.Layout` | components/LabelHub.tsx:169-180 | no parts give no section, one part gives 'Market Overview', more parts give the pairs; there are at most half the parts, rounded up |
| `LabelHub.MarketSections` | components/LabelHub.tsx:167-181 | the loop builds exactly the sections of the split-and-pair definition |
| `LabelHub.TwoHeadingsExample` | components/LabelHub.tsx:167-181 | "### A\nfoo\n### B\nbar" yields exactly the sections (A, foo) and (B, bar) |
| `LabelHub.MisalignedProseExample` | components/LabelHub.tsx:170-178 | prose before the first heading becomes a title with the heading as its content: "Intro\n### A\nfoo" yields (Intro, A) |
| `LabelHub.NoHeadingIsOverview` | components/LabelHub.tsx:176-177 | non-blank text without a heading yields one 'Market Overview' section holding the trimmed text |
| `LabelHub.SectionsAreNonBlank` | components/LabelHub.tsx:168-179 | every section has a non-blank title and content, and there are at most half the non-blank parts, rounded up |
| `LabelHub.TrailingPartDropped` | components/LabelHub.tsx:170-178 | an unpaired last part is dropped once a section exists |
| `LabelHub.BlankTextHasNoSections` | components/LabelHub.tsx:168 | blank text yields no section |
| `LabelHub.RenderLine` | components/LabelHub.tsx:185-191 | a blank line is dropped; a line whose trimmed form starts with '- ' is a bullet holding the rest; any other line is kept verbatim |
| `LabelHub.RenderLines` | components/LabelHub.tsx:185 | at most one rendered line per line |
| `LabelHub.PlainLinesRenderVerbatim` | components/LabelHub.tsx:185-191 | non-blank, non-bullet lines render as paragraphs holding exactly those lines |
| `LabelHub.PlainContentRoundTrip` | components/LabelHub.tsx:183-193 | content with only plain lines is recovered by joining the rendered lines with '\n' |
| `LabelHub.ReportPanels` | components/LabelHub.tsx:200-210 | with no section, the raw text is shown under 'Analysis'; otherwise one panel per section, with its title and rendered content |
| `LabelHub.BlankTextFallsBack` | components/LabelHub.tsx:200-210 | blank text falls back to the single 'Analysis' panel |
| `LabelHub.DashRuns` | components/LabelHub.tsx:109 | no whitespace is left, every character is a '-' or comes from the input, and the text does not grow |
| `LabelHub.DashRunsWord` | components/LabelHub.tsx:109 | text without whitespace in front is copied as it is, and the rest is dashed on its own |
| `LabelHub.DashRunsNoSpace` | components/LabelHub.tsx:109 | text without whitespace is left unchanged |
| `LabelHub.DashRunsRun` | components/LabelHub.tsx:109 | a maximal whitespace run of any length becomes exactly one '-' |
| `LabelHub.DashRunsWordRun` | components/LabelHub.tsx:109 | a word, one whitespace run and the rest give the word, one '-' and the dashed rest |
| `LabelHub.DashRunsOneGap` | components/LabelHub.tsx:109 | two words with one whitespace gap between them become the words joined by one '-' |
| `LabelHub.Slug` | components/LabelHub.tsx:109 | the fallback artist id contains no whitespace and no upper-case ASCII letter |
| `LabelHub.SlugOfTwoWords` | components/LabelHub.tsx:109 | 'Luna  Bloom' gets the id 'luna-bloom' |
| `LabelHub.SlugIdempotent` | components/LabelHub.tsx:109 | applying the id transformation twice equals applying it once |
| `LabelHub.ProfileForName` | components/LabelHub.tsx:107-120 | a known artist's profile is used as is; otherwise a placeholder with the slug id, the name, the genre filter and 'Unknown' location |
| `LabelHub.HeatmapBar` | components/LabelHub.tsx:19-36 | the width is the absolute growth; the positive colour and the '+' appear exactly for positive growth; the caption ends in '%' |
| `LabelHub.HeatmapCaptionReadsBack` | components/LabelHub.tsx:31-33 | between the sign and the '%' the caption holds the decimal digits of the growth's magnitude, with '-' in front of a negative growth |
| `LabelHub.ZeroGrowthBar` | components/LabelHub.tsx:20-32 | zero growth gets neither '+' nor the positive colour |
| `LabelHub.InsertTrend` | components/LabelHub.tsx:362 | insertion adds exactly one trend |
| `LabelHub.InsertTrendPermutes` | components/LabelHub.tsx:362 | insertion adds the trend to the multiset and loses nothing |
| `LabelHub.InsertTrendSorted` | components/LabelHub.tsx:362 | insertion into a list sorted by descending growth keeps it sorted |
| `LabelHub.SortByGrowthSpec` | components/LabelHub.tsx:362 | the sort is a permutation sorted by descending growth |
| `LabelHub.SortKeepsSorted` | components/LabelHub.tsx:362 | an already sorted list is left as it is |
| `LabelHub.InsertTrendStable` | components/LabelHub.tsx:362 | an inserted trend lands behind every trend of equal growth already present |
| `LabelHub.SortByGrowthStable` | components/LabelHub.tsx:362 | the sort is stable: for every growth value, the trends with that growth come out in their input order |
| `LabelHub.ResortIsIdentity` | components/LabelHub.tsx:362 | sorting twice equals sorting once, which is why re-rendering the tab is harmless |
| `LabelHub.ShiftBack` | components/LabelHub.tsx:362 | elements with lower growth than the last one shift up by one; the rest stay; the gap is where the element belongs |
| `LabelHub.InsertBack` | components/LabelHub.tsx:362 | the array prefix becomes the insertion of its last element into the rest, and the suffix stays |
| `LabelHub.SortTrends` | components/LabelHub.tsx:362 | the in-place sort of `mockTrends` leaves the array equal to the sorted list |
| `LabelHub.ScoutingTab.constructor` | components/LabelHub.tsx:70-79 | the default filters (Synthwave, Nostalgic, 15, 50000), no results, not loading, no error and no profile |
| `LabelHub.ScoutingTab.HandleFilterChange` | components/LabelHub.tsx:83-85 | only the changed filter key takes the new value |
| `LabelHub.ScoutingTab.StartScout` | components/LabelHub.tsx:88-90 | loading is set and error and results are cleared |
| `LabelHub.ScoutingTab.FinishScout` | components/LabelHub.tsx:91-104 | success stores the results; failure stores 'Scouting failed: ' + message; loading ends; the key reset fires exactly for a missing-entity failure |
| `LabelHub.ScoutingTab.HandleScout` | components/LabelHub.tsx:87-105 | afterwards exactly one of results and error is set, according to the outcome, and the toast kind matches |
| `LabelHub.ScoutingTab.ViewArtistProfile` | components/LabelHub.tsx:107-121 | the profile shown is the known one or the placeholder of `ProfileForName` |
| `LabelHub.ScoutingTab.CloseProfile` | components/LabelHub.tsx:124 | only the profile page is closed |
| `LabelHub.ReportTab.constructor` | components/LabelHub.tsx:233-235 | the form starts as given, with no result and not loading |
| `LabelHub.ReportTab.Start` | components/LabelHub.tsx:240-241 | loading is set and the result cleared |
| `LabelHub.ReportTab.Finish` | components/LabelHub.tsx:242-253 | success stores the result with the success toast; failure shows the message; loading ends; the key reset fires exactly for a missing-entity failure |
| `LabelHub.ReportTab.Handle` | components/LabelHub.tsx:239-254 | the result is stored exactly on success, and the toast kind matches |
| `LabelHub.NewMarketAnalysisTab` | components/LabelHub.tsx:232-236 | the market tab starts with Afro-Soul in Berlin |
| `LabelHub.NewDealMemoTab` | components/LabelHub.tsx:281-285 | the memo tab starts with Luna Bloom, a single track license and the default terms |
| `CuratorDiscovery.DistinctSpec` | components/CuratorDiscovery.tsx:40-41 | the distinct list holds exactly the values, each once, in first-occurrence order |
| `CuratorDiscovery.Options` | components/CuratorDiscovery.tsx:40-41 | the options are 'all' followed by the distinct values |
| `CuratorDiscovery.OptionsCoverCurators` | components/CuratorDiscovery.tsx:40-41 | every curator's type and country is an option, and every option after 'all' belongs to some curator |
| `CuratorDiscovery.DirectoryTypeOptions` | components/CuratorDiscovery.tsx:40 | the mock directory (services/mockData.ts:306-313) gives all, Playlist, Blog, YouTube Channel, Radio Show, Magazine |
| `CuratorDiscovery.Filter` | components/CuratorDiscovery.tsx:43-50 | every kept curator matches, and none is added |
| `CuratorDiscovery.FilterMembership` | components/CuratorDiscovery.tsx:45-48 | a curator is kept exactly when it is listed and the search, type and country tests all hold |
| `CuratorDiscovery.FilterIsSubsequence` | components/CuratorDiscovery.tsx:43-50 | the result is an order-preserving subsequence of the list |
| `CuratorDiscovery.FilterIdempotent` | components/CuratorDiscovery.tsx:43-50 | filtering the result again changes nothing |
| `CuratorDiscovery.ShowAllByDefault` | components/CuratorDiscovery.tsx:36-48 | an empty search with both filters at 'all' keeps every curator |
| `CuratorDiscovery.NarrowerMatches` | components/CuratorDiscovery.tsx:45-48 | a curator matching narrower criteria matches the wider ones |
| `CuratorDiscovery.FilterMonotone` | components/CuratorDiscovery.tsx:44-49 | narrowing a filter from 'all' or extending the search term never adds curators |
| `MockData.GetTrackByIsrc` | services/mockData.ts:9-19 | the Luna Bloom record is returned exactly when the upper-cased input equals 'US-S1Z-23-00001' |
| `MockData.LowerCaseIsrcFound` | services/mockData.ts:10 | the lower-case code finds the record too |
| `MockData.GetPerformanceReport` | services/mockData.ts:42-44 | the entry found has exactly that id, and none is found exactly when no entry has it |
| `MockData.FirstNameMatch` | services/mockData.ts:150 | the index found is the first name equal to the query ignoring case, and none exactly when no name is |
| `MockData.GetArtistProfile` | services/mockData.ts:149-151 | the profile found is listed and its name equals the query ignoring case; none exactly when no name does |
| `MockData.GetCuratorProfile` | services/mockData.ts:203-205 | the same rule over the curator profiles |
| `MockData.FirstNameMatchIgnoresCase` | services/mockData.ts:150 | queries equal ignoring case find the same index |
| `MockData.ProfileLookupIgnoresCase` | services/mockData.ts:149-205 | queries equal ignoring case return the same artist and the same curator profile |
| `MockData.GetConversations` | services/mockData.ts:266-268 | the artist list for an artist and the curator list otherwise, each with distinct ids and participants |
| `AnalysisDisplay.ScoreColor` | components/AnalysisDisplay.tsx:69 | positive exactly from 75, warning exactly from 50 to 74, negative exactly below 50 |
| `AnalysisDisplay.ScoreColorMonotone` | components/AnalysisDisplay.tsx:69 | a higher score never gets a worse colour |
| `AnalysisDisplay.DecisionColor` | components/AnalysisDisplay.tsx:158 | positive exactly for 'accept', negative exactly for 'pass', warning otherwise |
| `AnalysisDisplay.WinnerColor` | components/AnalysisDisplay.tsx:384 | positive exactly for 'Version A', accent exactly for 'Version B', warning otherwise |
| `AnalysisDisplay.SyncNeverGoesBack` | components/AnalysisDisplay.tsx:159-195 | one event never moves the status back and moves it at most one step |
| `AnalysisDisplay.SyncRunMonotone` | components/AnalysisDisplay.tsx:159-195 | any run of events keeps the status at or after where it started, and reaching 'synced' from idle needs a click |
| `AnalysisDisplay.SyncButtonFor` | components/AnalysisDisplay.tsx:170-194 | the button can be clicked exactly while idle |
| `AnalysisDisplay.SyncCell.constructor` | components/AnalysisDisplay.tsx:159 | the status starts idle |
| `AnalysisDisplay.SyncCell.Click` | components/AnalysisDisplay.tsx:161-162 | an idle cell starts syncing |
| `AnalysisDisplay.SyncCell.DelayEnds` | components/AnalysisDisplay.tsx:163-166 | a syncing cell becomes synced with the success toast; otherwise nothing happens |
| `AnalysisDisplay.FeedbackFor` | components/AnalysisDisplay.tsx:93-123 | the thank-you panel exactly for a truthy rating; otherwise five stars, star s lit exactly when (hover or rating or 0) is at least s |
| `AnalysisDisplay.HoverLightsPrefix` | components/AnalysisDisplay.tsx:109-117 | before a rating, hovering star k lights exactly the first k stars |
| `AnalysisDisplay.RatingShowsThanks` | components/AnalysisDisplay.tsx:96 | a rating 1..5 shows the thank-you panel |
| `AnalysisDisplay.CuratorReportFor` | components/AnalysisDisplay.tsx:157-227 | the sync button exists exactly for 'accept', that is, exactly under the positive decision colour; the feedback block exactly when a rating handler is given |
| `AnalysisDisplay.RatedSubmissionThanked` | components/AnalysisDisplay.tsx:223-227 | a rated submission shows the thank-you panel |
| `AnalysisDisplay.EngineCaption` | components/AnalysisDisplay.tsx:31 | the table entry when present and non-empty, else 'Powered by Google AI' |
| `AnalysisDisplay.EngineInfoNeverFallsBack` | components/AnalysisDisplay.tsx:16-32 | every one of the twelve tools has its own caption, so the fallback never shows |
| `AnalysisDisplay.ReportPanelFor` | components/AnalysisDisplay.tsx:441-454 | 'Invalid report type.' exactly for scouting, marketAnalysis and dealMemo; otherwise the tool's own report |
| `MusicUploadForm.IsSimpleForm` | components/MusicUploadForm.tsx:321 | simple exactly for the six listed tools, none of which takes a file |
| `MusicUploadForm.FileToolsShowUpload` | components/MusicUploadForm.tsx:321-330 | the upload field shows for the three file tools and for neighborhoods, scouting and dealMemo |
| `MusicUploadForm.Merge` | components/MusicUploadForm.tsx:121 | given fields override the defaults and defaults survive for omitted fields |
| `MusicUploadForm.MergeLaws` | components/MusicUploadForm.tsx:121 | merging nothing keeps the defaults, and merging the same data again changes nothing |
| `MusicUploadForm.TrackFields` | components/MusicUploadForm.tsx:162-164 | an imported track sets exactly artist name, title, genre and ISRC |
| `MusicUploadForm.InitialForm` | components/MusicUploadForm.tsx:120-128 | the curator form is the defaults overridden by the initial data; every other form is its defaults |
| `MusicUploadForm.InitialForms` | components/MusicUploadForm.tsx:120-128 | there is one form per form-backed tool, each its initial form |
| `MusicUploadForm.UploadForm.constructor` | components/MusicUploadForm.tsx:115-128 | the initial forms, no file, 'No file chosen' and the import dialog closed |
| `MusicUploadForm.UploadForm.ChangeText` | components/MusicUploadForm.tsx:160-309 | the field of the active tool's form takes the text; the lyric form is replaced whole; other forms and the file stay |
| `MusicUploadForm.UploadForm.ChangeSlider` | components/MusicUploadForm.tsx:161-195 | the evaluator and curator sliders store the parsed number; other tools are unchanged |
| `MusicUploadForm.UploadForm.ChangeFile` | components/MusicUploadForm.tsx:130-136 | a chosen file and its name are stored; no choice changes nothing |
| `MusicUploadForm.UploadForm.OpenImport` | components/MusicUploadForm.tsx:165-169 | on the evaluator form, where the button is shown, only the import dialog opens |
| `MusicUploadForm.UploadForm.ImportIsrc` | components/MusicUploadForm.tsx:22-31 | on the evaluator form, where the dialog is shown, a known ISRC merges the track into the evaluator form, closes the dialog and raises the success toast; an unknown one raises the error toast and changes no form |
| `MusicUploadForm.UploadForm.Submit` | components/MusicUploadForm.tsx:138-155 | a request exactly for the ten handled tools, for the active tool; the file is attached only for evaluator, curator and optimizer; neighborhoods sends four empty fields |
| `MusicUploadForm.TypedEvaluatorSubmission` | components/MusicUploadForm.tsx:138-160 | typing a name and title and choosing a file submits the evaluator defaults with those three fields |
| `MusicUploadForm.ImportedEvaluatorSubmission` | components/MusicUploadForm.tsx:138-164 | importing the known ISRC and submitting sends the defaults overridden by the Luna Bloom track, with no file |
| `App.WithoutId` | App.tsx:31-33 | no toast left carries the removed id, and none is added |
| `App.WithoutIdMembership` | App.tsx:31-33 | a toast survives exactly when it was there and carries another id |
| `App.WithoutIdConcat` | App.tsx:31-33 | removal works toast by toast, so the survivors keep their order |
| `App.WithoutAbsentId` | App.tsx:31-33 | removing an id no toast carries changes nothing |
| `App.WithoutIdIdempotent` | App.tsx:29-33 | removing the same id twice equals removing it once |
| `App.Stamped` | App.tsx:26-28 | the toast carries the creation time as its id and keeps the message and kind |
| `App.SameMillisecondCollision` | App.tsx:26-32 | two toasts added in the same millisecond share their id, so one removal drops both |
| `App.CollisionKeepsOthers` | App.tsx:26-32 | that removal keeps every toast with another id |
| `App.Toggled` | App.tsx:66-68 | the theme always changes: light exactly from dark |
| `App.ToggleTwice` | App.tsx:66-68 | toggling twice restores the theme |
| `App.InitialTheme` | App.tsx:58 | the saved theme, or dark when none is saved |
| `App.ScreenFor` | App.tsx:115-139 | 'discover' shows the discover page; 'app' shows the role selector without a hub and that hub's page with one; any other view shows the landing page |
| `App.Shell.constructor` | App.tsx:25-126 | no toasts, the initial theme, the landing view with no hub cell, and the saved hub in storage |
| `App.Shell.AddNotification` | App.tsx:26-30 | one stamped toast is appended at the end and nothing else changes |
| `App.Shell.RemoveNotification` | App.tsx:31-33 | exactly the toasts with that id are removed, in order |
| `App.Shell.ToggleTheme` | App.tsx:66-68 | only the theme changes, to the other one |
| `App.Shell.Navigate` | App.tsx:98-100 | the view changes; entering the app from another view starts the hub cell from the stored hub; the storage is untouched and keeps mirroring the cell inside the app |
| `App.Shell.SelectHub` | App.tsx:101-119 | from the role selector, the hub cell and the stored hub both become the chosen hub, and its page is shown |
| `App.Shell.BackToHubs` | App.tsx:102-113 | as React batches the click, the hub cell is dropped and the landing page shown, but the stored hub stays the dashboard's hub |
| `App.Shell.BackToHubsForgettingHub` | App.tsx:102-113 | the intended back action: the hub cell and the stored hub are both cleared and the landing page is shown |
| `App.LeaveAndRelaunch` | App.tsx:98-135 | as written, leaving a dashboard and launching the app again shows that same dashboard |
| `App.LeaveAndRelaunchForgettingHub` | App.tsx:98-135 | with the intended back action, launching the app again shows the role selector |
| `App.BackThenRelaunch` | App.tsx:98-135 | from a fresh start: launch, pick a role, go back and launch again shows that role's dashboard |
| `App.BackThenRelaunchForgettingHub` | App.tsx:98-135 | the same steps with the intended back action show the role selector |
| `JsText.TrimEmptyIffBlank` | components/LabelHub.tsx:168 | `trim` gives the empty string exactly for blank text |
| `JsText.TrimIdempotent` | components/LabelHub.tsx:173-174 | a trimmed string has no whitespace at either end, and trimming again changes nothing |
| `JsText.Lower` | services/mockData.ts:150 | `toLowerCase` over ASCII maps each character on its own and keeps the length |
| `JsText.LowerIdempotent` | components/LabelHub.tsx:109 | lowercasing twice equals lowercasing once and keeps whitespace where it was |
| `JsText.LowerKeepsContains` | components/CuratorDiscovery.tsx:45 | a substring stays a substring after both are lowercased |
| `JsText.ContainsTransitive` | components/CuratorDiscovery.tsx:45 | a substring of a substring is a substring |
| `JsText.JoinSplitOn` | components/LabelHub.tsx:185 | joining the split parts with the separator gives back the text |
| `JsText.NatToStringRoundTrip` | components/Wallet.tsx:185 | the decimal rendering of a number reads back as that number |

## Left out

- Rendering, styling, icons and the purely presentational components are not part of this model: the landing, discover, header, profile and campaign pages and the modals' markup.
- The API calls are parameters. This covers the Gemini SDK, the chat stream and `window.aistudio` key selection. The prompt prose is fixed text: only the interpolated values are modelled, and the response schemas are not.
- `JSON.parse` is a parameter of `CallGemini`. `JSON.stringify` of the accepted tracks is a string given to the persona prompt.
- `Date.now()`, `new Date().toISOString()`, `Math.random()`, `toFixed(2)` and `toLocaleString` are parameters: the clock reading, the date text, the random listener numbers and the formatted amount.
- `localStorage` is modelled only for the hub, as the `storedHub` field. The saved theme is a constructor parameter. A stored string that is neither a theme nor a hub is not modelled.
- Timers are left out. A toast's five-second expiry is a call of `RemoveNotification`, the withdrawal and purchase delays are the confirm methods, and the sync delay is `DelayEnds`. Only the states before and after each step are modelled, not interleavings. All updates of one handler are applied together, as React batches them.
- Floating point is left out. Money and the reputation average are exact reals, and `Math.round` is rounding half up on reals.
- The 'An unknown error occurred.' branches need a thrown value that is not an `Error`. No modelled call throws one, so `Outcome` has no such case.
- `Transcript`: `chunk.text` is always a string. A chunk with undefined text, which JavaScript would append as "undefined", is not modelled.
- `LabelHub.SortTrends`: the comparator `b.growth - a.growth` is modelled as an insertion sort; it is stable on equal growth (`SortByGrowthStable`), as `Array.prototype.sort` has been required to be since ECMAScript 2019. The engine's own sort algorithm and the mutation of the shared module-level array across renders are not modelled.
- `LabelHub.Slug`: lowercasing covers ASCII letters only; non-ASCII case mapping is not modelled. Whitespace is the full ECMAScript WhiteSpace and LineTerminator set.
- `Wallet.Purchase`: the credit count uses the corrected `BonusCredits`, so buying the 'Basic' pack adds its 10 credits where the handler as written produces NaN. The as-written count is `CreditsAfterPurchaseAsWritten`, and `PurchaseMatchesAsWritten` ties the two together. `Wallet.WalletState.HandlePurchaseCredits` inherits this.
- `Messaging.Inbox.OpenThreadWith`: states only the hub's own updates, so its draft stays. The emptying of the draft when the profile page gives way to a freshly mounted inbox is stated by the hub methods that call it, `ArtistHub.ArtistHubState.MessageCurator` and `CuratorHub.CuratorHubState.MessageArtist`, through `RemountInbox`.
- `Messaging.Inbox.draft`: the hubs empty it whenever the inbox leaves the screen or is mounted again. Handlers that cannot take it off screen (the subscription dialog, the pre-analysis dialog, the review submit and the rating) leave it as it is. Typing is `Messaging.Inbox.SetDraft`, which the model lets be called in any state; the page offers it only while the inbox is shown.
- `JsText.Lower`: `toLowerCase` is modelled on ASCII letters only, and `JsText.Upper` likewise; non-ASCII case mapping is not modelled. The case-insensitive lookups `MockData.GetArtistProfile`, `MockData.GetCuratorProfile` and `MockData.GetTrackByIsrc` rely on the same ASCII mapping.
- `Messaging.MoveToFront`: the comparator of the send's sort is inconsistent when two conversations carry the active id. Such ids can occur, because new threads are named `conv_<Date.now()>` (components/ArtistHub.tsx:256, components/CuratorHub.tsx:236). On that input the engine's order is implementation-defined. The model always takes the stable partition: the entries with the active id first, then the rest, each group in its old order.
- `Wallet.TransactionRow`: the amount text (`toFixed(2)` or the credit count) is not part of the row view, only its sign, colour, arrow and unit.
- `App.Shell.BackToHubs`: models the handler as written, batched, so the stored hub survives the back action. The intended behaviour is `App.Shell.BackToHubsForgettingHub`, and `App.LeaveAndRelaunch` and `App.BackThenRelaunch` state the difference. How React schedules effects beyond that one batch is not modelled.
- `CareerAdvisor.Advisor.SendMessage`: the `isLoading` guard is checked against the state before the call. Two sends overlapping in time are not modelled.

## Findings

| source | as written | input that shows it | evidently intended | confidence | as-written member | corrected member |
|---|---|---|---|---|---|---|
| components/Wallet.tsx:198 | the bonus adds `parseInt` of the bonus text's digits whenever the text is non-empty | buying the 'Basic' pack (services/mockData.ts:4): `parseInt('')` is NaN, so the credit count becomes NaN | a bonus without digits adds 0 credits | high (not executed) | `Wallet.BasicPackPoisonsCredits` | `Wallet.BonusCredits` |
| App.tsx:110-113 | 'Back to Hubs' clears the hub cell and leaves the app in one batched update, so `MainApp` unmounts without rendering the cleared hub and its effect (App.tsx:102-108) never removes the stored hub | open the artist dashboard, click 'Back to Hubs', then 'Launch App': `MainApp` reads the stored hub again (App.tsx:100) and the artist dashboard reopens | the role selector shows, because the stored hub is cleared with the cell | medium (not executed) | `App.BackThenRelaunch` | `App.BackThenRelaunchForgettingHub` |
| components/LabelHub.tsx:96-98 | the label tabs reset the API key when the error message contains 'Requested entity was not found' | any failed call: `callGemini` (services/geminiService.ts:613) and `runMarketAnalysis` (services/geminiService.ts:558) replace every error with a fixed message that never contains that text, so the reset can never fire | a key error reaches the caller with its text, so the reset fires | medium (not executed) | `GeminiService.ServiceErrorsNeverResetKey` | `GeminiService.KeyErrorsReachCaller` |
