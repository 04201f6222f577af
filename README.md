# womba-ui core, modelled in Dafny

This project models the front end that reviews AI-generated test plans. It covers:

- the test-plan review page (`TestPlanPage.tsx`):
  - the paged list of test cases and their select and expand flags;
  - adding a draft case;
  - single removal with a one-slot undo, and bulk deletion;
  - editing a case, with the free-text step parser and the printer of structured steps;
  - rebuilding the list from the server's reply while carrying over UI flags;
  - single and bulk upload, and the notification queue;
- the pager buttons (`Pagination.tsx`);
- one test case card with its edit buffers and assertion highlighting (`TestCaseCard.tsx`);
- the shared generation state with its start, success, failure, clear and dismiss transitions (`GenerationContext.tsx`);
- the story search page: when a search fires, how the query and the selection stay consistent, and the generate guard (`JiraSearchPage.tsx`);
- the upload-to-test-cycle form: cycle name, folder choice, validation and the upload call (`UploadView.tsx`);
- the history part of the statistics page: paging, status filter, duration text and expansion (`StatsPage.tsx`).

Layout, one module per file:

| file | module | form |
|---|---|---|
| common.dfy | Common | `Option` and JavaScript's order-preserving `filter` |
| text.dfy | Text | `trim`, `toLowerCase`, `includes`, `split`/`join`, number printing and reading, all over ASCII |
| types.dfy | Types | the records of `types.ts` |
| paging.dfy | Paging | page count, page slice and page adjustment, as functions |
| pagination.dfy | Pagination | the pager's buttons, as functions (the component has no state) |
| collection.dfy | Collection | the list operations of the review page, as functions and lemmas |
| step_codec.dfy | StepCodec | the step parser, as a function and as the page's loop (`ParseStepsText`), and the printer |
| reconcile.dfy | Reconcile | the edited list sent to the server and the list rebuilt from its reply |
| testplan.dfy | TestPlan | class `TestPlanPage`: the page's state and its handlers as methods |
| generation.dfy | Generation | the transitions as functions, and class `GenerationProvider` whose methods follow them |
| jira_search.dfy | JiraSearch | class `JiraSearchPage`, and the search gate and generate arguments as functions |
| upload.dfy | Upload | class `UploadView`, and the derived values as functions |
| card.dfy | Card | class `TestCaseCard`, and the highlight predicate as a function |
| stats.dfy | Stats | class `StatsPage`, and the filter and duration text as functions |

Handlers that await a server call are modelled in one of two ways:

- The call's outcome is passed in as a parameter. `ConfirmRemove(serverOk, ...)` and `HandleUpdateTestCase(..., outcome, ...)` work this way.
- The handler is split at the await into a `Begin…` and a `Finish…` method. This is done where the in-flight state can be seen: uploads, searches, folder listing and history fetches.

`Date.now()` values arrive as the parameters `now` and `noticeId`.

## Model

| member | source | states |
|---|---|---|
| Common.FirstIndex | components/StatsPage.tsx:135 | none exactly when no element passes; otherwise an index in range whose element passes, and no earlier element passes (the `find` of `history` here and of `folders` at components/UploadView.tsx:105-107) |
| Paging.TotalPages | components/TestPlanPage.tsx:52-54 | the page count is at least 1 and holds all n items; it is 1 or the previous count would not hold them |
| Paging.PageSlice | components/TestPlanPage.tsx:56-60 | the shown page has at most 4 cases; it is empty past the end; otherwise it has the stated length, and element i is the list's element at the page start plus i |
| Paging.ItemOnItsPage | components/TestPlanPage.tsx:56-60 | every case is shown on the in-range page i/4+1, at position i mod 4 |
| Paging.PageNonEmptyIff | components/TestPlanPage.tsx:56-60 | a page shows something exactly when the list is non-empty and the page is in range |
| Paging.PageChange | components/TestPlanPage.tsx:62-66 | only an in-range request is followed, and an in-range page stays in range |
| Paging.PageAfterRemove | components/TestPlanPage.tsx:159-161 | the page drops by at most one and stays at least 1; after removing one item from a list whose page was in range, the page is in range again |
| Paging.ClampPage | components/TestPlanPage.tsx:194-197 | after a bulk removal the page is in range, an in-range page is kept, and the page never grows |
| Pagination.PrevRequest | components/Pagination.tsx:11-15 | asks for currentPage-1 exactly when currentPage > 1 |
| Pagination.NextRequest | components/Pagination.tsx:17-21 | asks for currentPage+1 exactly when currentPage < totalPages |
| Pagination.ButtonsAgreeWithGuards | components/Pagination.tsx:11-39 | on an in-range page a button is disabled exactly when its click asks for nothing; every page it asks for is in range and is followed by the page's handler |
| Collection.ToggleSelect | components/TestPlanPage.tsx:99-105 | flips isSelected exactly on the cases with the id; nothing else changes |
| Collection.ToggleExpand | components/TestPlanPage.tsx:115-121 | flips isExpanded exactly on the cases with the id; nothing else changes |
| Collection.ToggleTwiceRestores | components/TestPlanPage.tsx:99-121 | toggling the same id twice gives back the list |
| Collection.SetAllSelected | components/TestPlanPage.tsx:107-113 | every case gets the given isSelected; nothing else changes |
| Collection.SetAllExpanded | components/TestPlanPage.tsx:127-130 | every case gets the given isExpanded; nothing else changes |
| Collection.ToggleAllExpansion | components/TestPlanPage.tsx:123-130 | every case of the whole list gets the negation of "the shown page is non-empty and fully expanded"; nothing else changes |
| Collection.ToggleAllFlipsPage | components/TestPlanPage.tsx:123-130 | on a page that shows cases, the toggle flips the page's allExpanded |
| Collection.ToggleAllLabelMisleads | components/TestPlanPage.tsx:511 | as written, a page with a collapsed case is labelled "Collapse All" although a click expands it |
| Collection.ToggleAllLabel | components/TestPlanPage.tsx:508-512 | corrected label: "Expand All" exactly when a click leaves every case expanded, "Collapse All" exactly when it leaves every case collapsed |
| Collection.SelectedCount | components/TestPlanPage.tsx:363-365 | the count is at most the list length, and it is 0 exactly when no case is selected |
| Collection.AllSelectedIff | components/TestPlanPage.tsx:367-369 | allSelected holds exactly when the list is non-empty and every case is selected |
| Collection.SelectAllThenCount | components/TestPlanPage.tsx:107-113 | after Select All a non-empty list is all selected; after Unselect All the count is 0 |
| Collection.DraftCase | components/TestPlanPage.tsx:69-82 | the draft's id is TC-MANUAL- followed by the decimal time; its title is "New Manual Test Case"; its text is the three lines "1. ", "2. ", "3. Verify Result: "; its three structured steps are numbered 1 to 3, with actions "", "", "Verify Result" and empty expected results; it is unselected and expanded |
| Collection.AddDraft | components/TestPlanPage.tsx:83 | exactly one new case is put in front of the unchanged list |
| Collection.FindIndex | components/TestPlanPage.tsx:150-151 | gives the first position holding the id, and none exactly when no case has it |
| Collection.RemoveIds | components/TestPlanPage.tsx:156 | the result is no longer than the list and holds no removed id |
| Collection.RemoveIdsMembers | components/TestPlanPage.tsx:190 | a case is kept exactly when it was in the list and its id is not removed |
| Collection.RemoveIdsAppend | components/TestPlanPage.tsx:190 | removal distributes over concatenation, so kept cases keep their order |
| Collection.RemoveOne | components/TestPlanPage.tsx:156 | with unique ids, removing the id at position k removes exactly that one case |
| Collection.InsertAt | components/TestPlanPage.tsx:136 | splice inserts at the index clamped to the list's end, with the prefix and suffix unchanged |
| Collection.RemoveCase | components/TestPlanPage.tsx:147-157 | none exactly when no case has the id; otherwise every case with the id goes, and the slot holds the case at the first index with the id (no earlier case has it) and that index |
| Collection.Restore | components/TestPlanPage.tsx:132-141 | an empty slot changes nothing; a full slot inserts its case at its index clamped to the list's end, with the prefix before it and the suffix after it unchanged |
| Collection.UndoRestores | components/TestPlanPage.tsx:132-157 | with unique ids, undo after a removal gives back exactly the list before it |
| Collection.StaleUndoLosesCase | components/TestPlanPage.tsx:167-170 | the notification's undo as written, after a first removal, leaves the case removed |
| Collection.SelectedIds | components/TestPlanPage.tsx:189 | the set holds exactly the ids of selected cases |
| Collection.RemoveSelectedKeepsUnselected | components/TestPlanPage.tsx:185-191 | with unique ids, removing the selected ids keeps exactly the unselected cases, in order |
| StepCodec.CaptureRestIsGreedy | components/TestPlanPage.tsx:242 | the scanner's capture is the one the backtracking engine picks for `(.+)$`: the greatest start from which it matches, or none |
| StepCodec.FeedLine | components/TestPlanPage.tsx:238-264 | one loop iteration equals the parser's step function on the line's kind |
| StepCodec.ParseStepsText | components/TestPlanPage.tsx:233-270 | the page's loop, with the last step pushed, computes ParseSteps of the text |
| StepCodec.ParsePrintRoundTrip | components/TestPlanPage.tsx:313-315 | parsing printed steps gives back every step's number, action and expected result, when each step is printable |
| StepCodec.SaveUneditedKeepsSteps | components/TestPlanPage.tsx:230-231 | saving printed text unedited keeps the structured steps |
| StepCodec.ClassifyBareNumber | components/TestPlanPage.tsx:238-262 | a line that is one digit, a dot and a space trims to the digit and dot, which the step pattern does not match, so it is a continuation line |
| StepCodec.ClassifyNumberedLine | components/TestPlanPage.tsx:238-255 | a digit, a dot, a space and a trimmed text without a line end, followed by spaces, starts a step with that number and that text |
| StepCodec.TextWithoutNumberedLineParsesEmpty | components/TestPlanPage.tsx:237-270 | non-blank text with no numbered line replaces the structured steps by none |
| Reconcile.EditedCases | components/TestPlanPage.tsx:227-281 | only cases with the id change: title, text, and steps parsed from the text (or the old steps for blank text) |
| Reconcile.SaveUneditedSendsSameSteps | components/TestPlanPage.tsx:227-281 | saving a case whose text is its printed steps sends those same steps |
| Reconcile.DraftTextParsesToOneStep | components/TestPlanPage.tsx:72-74 | the draft's text parses to the single step 3 with action "Verify Result:": the bare "1." and "2." lines come before any step and are dropped (parser at lines 230-271) |
| Reconcile.SavingUntouchedDraftSendsOneStep | components/TestPlanPage.tsx:69-82 | saving a fresh draft with its text untouched sends that one step, which differs from the three structured steps the draft was created with (edit at lines 227-281) |
| Reconcile.LocalEdit | components/TestPlanPage.tsx:326-328 | the fallback changes only the title and text of cases with the id |
| Reconcile.GeneratedId | components/TestPlanPage.tsx:297 | the generated id starts with TC-, then the issue key, then a dash |
| Reconcile.GeneratedIdsDistinct | components/TestPlanPage.tsx:305 | different positions get different generated ids |
| Reconcile.ReloadedId | components/TestPlanPage.tsx:305 | the id is never empty: the server's id, or the generated one when it has none |
| Reconcile.FirstMatch | components/TestPlanPage.tsx:293-302 | gives the first local case passing one of the three tests, and none exactly when none passes |
| Reconcile.ReconcileCases | components/TestPlanPage.tsx:292-320 | one case per server case, in order, with the server's fields, printed and structured steps, and flags from the first matching local case |
| Reconcile.FlagsFromEarliestMatch | components/TestPlanPage.tsx:293-318 | the flags come from the earliest local case that passes any test |
| Reconcile.UnmatchedComesBackCleared | components/TestPlanPage.tsx:317-318 | a server case that no local case matches comes back unselected and collapsed |
| Reconcile.SameIdKeepsFlags | components/TestPlanPage.tsx:295 | a case keeping its id keeps its flags when no earlier case matches |
| Reconcile.ReloadedIdsDistinct | components/TestPlanPage.tsx:305 | two server cases without ids come back with different ids |
| Reconcile.ReloadedTextParsesToSteps | components/TestPlanPage.tsx:313-316 | a reloaded case's text parses back to its steps, and saving it unedited sends them unchanged |
| TestPlan.Queued | components/TestPlanPage.tsx:45-50 | a notification is appended only while notifications are on |
| TestPlan.WithoutNotice | components/TestPlanPage.tsx:409-411 | dismissing keeps exactly the notifications with another id |
| TestPlan.UploadedCount | components/TestPlanPage.tsx:384 | a present non-zero count from the server is reported as it is; a missing reply, a missing count or a zero count is replaced by the number sent; so the count is 0 only when nothing was sent |
| TestPlan.IdsOfSelected | components/TestPlanPage.tsx:395 | the ids of the selected list equal the selected ids |
| TestPlan.TestPlanPage.constructor | components/TestPlanPage.tsx:31-42 | the initial state, with page 1 in range |
| TestPlan.TestPlanPage.Notify | components/TestPlanPage.tsx:45-50 | the queue is the old queue with the notice queued |
| TestPlan.TestPlanPage.DismissNotification | components/TestPlanPage.tsx:409-411 | the queue keeps exactly the notifications with another id |
| TestPlan.TestPlanPage.ToggleNotifications | components/TestPlanPage.tsx:482 | the notification switch flips |
| TestPlan.TestPlanPage.ToggleHighlightAssertions | components/TestPlanPage.tsx:484 | the highlight switch flips |
| TestPlan.TestPlanPage.HandlePageChange | components/TestPlanPage.tsx:62-66 | the new page is PageChange of the old, and an in-range page stays in range |
| TestPlan.TestPlanPage.HandleToggleSelect | components/TestPlanPage.tsx:99-105 | the list becomes ToggleSelect of the old list: only the cases with the id flip their selection |
| TestPlan.TestPlanPage.HandleToggleExpand | components/TestPlanPage.tsx:115-121 | the list becomes ToggleExpand of the old list: only the cases with the id flip their expansion |
| TestPlan.TestPlanPage.HandleSelectAll | components/TestPlanPage.tsx:107-109 | all cases are selected |
| TestPlan.TestPlanPage.HandleUnselectAll | components/TestPlanPage.tsx:111-113 | no case is selected |
| TestPlan.TestPlanPage.HandleToggleAllExpansion | components/TestPlanPage.tsx:127-130 | the list is ToggleAllExpansion of the old one, and a non-empty page's allExpanded flips |
| TestPlan.TestPlanPage.HandleAddNewTestCase | components/TestPlanPage.tsx:68-96 | the draft goes first and page 1 shows it, whatever the server says; only the notice differs |
| TestPlan.TestPlanPage.HandleRemoveTestCase | components/TestPlanPage.tsx:143-145 | the dialog opens for that id and title |
| TestPlan.TestPlanPage.CancelRemove | components/TestPlanPage.tsx:590 | the dialog closes with no case pending |
| TestPlan.TestPlanPage.ConfirmRemove | components/TestPlanPage.tsx:147-174 | no pending case or no match changes nothing; otherwise the id is removed, the slot is written, the page is adjusted and a notice with undo is queued; with unique ids undo restores the list and the page stays in range |
| TestPlan.TestPlanPage.HandleUndoRemove | components/TestPlanPage.tsx:132-141 | re-inserts the slot's case and empties the slot |
| TestPlan.TestPlanPage.HandleBulkDelete | components/TestPlanPage.tsx:176-183 | with nothing selected an error notice is queued; otherwise the dialog opens |
| TestPlan.TestPlanPage.CancelBulkDelete | components/TestPlanPage.tsx:603 | the bulk delete dialog closes |
| TestPlan.TestPlanPage.ConfirmBulkDelete | components/TestPlanPage.tsx:185-210 | with nothing selected nothing changes; otherwise the selected ids go, the page is clamped into range and the count is reported; with unique ids exactly the unselected cases remain |
| TestPlan.TestPlanPage.HandleUpdateTestCase | components/TestPlanPage.tsx:213-337 | an unknown id sends nothing; a thrown call leaves the list; a reply with cases rebuilds the list; a reply without cases applies the local edit |
| TestPlan.TestPlanPage.BeginUploadSingle | components/TestPlanPage.tsx:339-345 | starts exactly when no upload is in flight, and marks the card |
| TestPlan.TestPlanPage.FinishUploadSingle | components/TestPlanPage.tsx:346-359 | failure leaves the list; success removes only the uploaded id and adjusts the page; the card is no longer uploading |
| TestPlan.TestPlanPage.BeginBulkUpload | components/TestPlanPage.tsx:372-382 | the action bar's button (disabled with nothing selected or during any upload, components/ActionBar.tsx:26 and line 563) starts exactly when enabled, marks the bulk upload in flight and sends the selected cases, which are never empty; a refused click changes nothing |
| TestPlan.TestPlanPage.FinishBulkUpload | components/TestPlanPage.tsx:383-406 | failure leaves the list; success shows the stats, removes only the sent ids and clamps the page; with unique ids the unselected cases remain |
| TestPlan.TestPlanPage.CloseSuccessModal | components/TestPlanPage.tsx:427 | the success banner closes |
| Generation.Started | contexts/GenerationContext.tsx:64-74 | a running generation of that story, with no error and no plan |
| Generation.Completed | contexts/GenerationContext.tsx:83-93 | the run is over with progress Complete; the plan holds the story and result; the rest is kept |
| Generation.Failed | contexts/GenerationContext.tsx:97-104 | the run is over, progress is cleared, the error is the message or the default; the plan is kept |
| Generation.Apply | contexts/GenerationContext.tsx:57-122 | how each event changes the toast flag, and that clear resets everything |
| Generation.ApplyKeepsQuiet | contexts/GenerationContext.tsx:57-122 | each event keeps "no error beside a plan, and neither while running" when answers only come during a run |
| Generation.ExclusiveWhenAnswersWhileRunning | contexts/GenerationContext.tsx:57-122 | from a quiet state, an error and a plan are never both set when every answer arrives during a run |
| Generation.LateAnswersBreakExclusion | contexts/GenerationContext.tsx:57-118 | even with the caller's idle guard, start, clear, start, then a late failure and a success leave an error beside a plan |
| Generation.GenerationProvider.constructor | contexts/GenerationContext.tsx:47-54 | the context starts idle, with no error, no plan and no toast |
| Generation.GenerationProvider.StartGeneration | contexts/GenerationContext.tsx:57-81 | the context follows Apply with Start, and the request forwards the arguments |
| Generation.GenerationProvider.Complete | contexts/GenerationContext.tsx:83-96 | the context follows Apply with Success |
| Generation.GenerationProvider.Fail | contexts/GenerationContext.tsx:97-105 | the context follows Apply with Failure |
| Generation.GenerationProvider.ClearGeneration | contexts/GenerationContext.tsx:108-118 | the context follows Apply with Clear |
| Generation.GenerationProvider.DismissToast | contexts/GenerationContext.tsx:120-122 | the context follows Apply with Dismiss |
| JiraSearch.SelectionSuppressesSearch | components/JiraSearchPage.tsx:23 | once a story is selected, its title as the query never starts a search |
| JiraSearch.EditedQuerySearchedIffNotBlank | components/JiraSearchPage.tsx:23 | with no selection, a query is searched exactly when it has a non-space character |
| JiraSearch.GenerateArgs | components/JiraSearchPage.tsx:75-81 | the story id is the issue key; the project key is sent exactly when uploading; an empty folder id is not sent |
| JiraSearch.JiraSearchPage.constructor | components/JiraSearchPage.tsx:9-16 | the page mounts with an empty query, no results, no selection, nothing searching or shown, and no upload options |
| JiraSearch.JiraSearchPage.SearchEffect | components/JiraSearchPage.tsx:22-27 | a search is scheduled exactly when it is not suppressed; a suppressed one clears the results and hides the dropdown |
| JiraSearch.JiraSearchPage.BeginSearch | components/JiraSearchPage.tsx:29-30 | when the debounce fires the search is under way |
| JiraSearch.JiraSearchPage.FinishSearch | components/JiraSearchPage.tsx:31-44 | success shows the results, with the dropdown visible exactly when there are any; failure clears both; the search is over |
| JiraSearch.JiraSearchPage.HandleInputChange | components/JiraSearchPage.tsx:61-64 | the query is the new text and the selection is cleared |
| JiraSearch.JiraSearchPage.HandleSelectStory | components/JiraSearchPage.tsx:66-70 | a story is picked exactly when the dropdown lists it (visible, not searching, among the results, lines 120-136); it is then selected, its title is the query, the dropdown is hidden and the next search is suppressed; otherwise nothing changes |
| JiraSearch.JiraSearchPage.ClickOutside | components/JiraSearchPage.tsx:52-55 | a press outside the box hides the dropdown |
| JiraSearch.JiraSearchPage.Focus | components/JiraSearchPage.tsx:115 | the dropdown reopens when the query is not blank and there are results |
| JiraSearch.JiraSearchPage.SetUploadToZephyr | components/JiraSearchPage.tsx:147-156 | the flag takes the checkbox value exactly when the options panel is shown (a story selected, no generation running); otherwise it is unchanged |
| JiraSearch.JiraSearchPage.SetProjectKey | components/JiraSearchPage.tsx:163-173 | the key takes the typed text exactly when the panel is shown and uploading is on; otherwise it is unchanged |
| JiraSearch.JiraSearchPage.SetFolderId | components/JiraSearchPage.tsx:163-186 | the folder id takes the typed text exactly when the panel is shown and uploading is on; otherwise it is unchanged |
| JiraSearch.JiraSearchPage.HandleGenerate | components/JiraSearchPage.tsx:72-85 | nothing happens exactly when the button is disabled; otherwise the provider starts a generation for the selected story with the forwarded arguments |
| Upload.DefaultCycleName | components/UploadView.tsx:46-48 | corrected name: the issue key followed by " – Test Cycle" |
| Upload.DefaultCycleNameNotBlank | components/UploadView.tsx:46-48 | the default name never fails the blank-name check |
| Upload.CycleNameAsWrittenIsGarbled | components/UploadView.tsx:47 | the name as spelled in the file differs from the intended one for every key |
| Upload.FilteredFolders | components/UploadView.tsx:95-102 | a blank term gives all folders; otherwise exactly the folders whose lower-cased name or path contains the lower-cased term |
| Upload.FilterIgnoresTermCase | components/UploadView.tsx:95-102 | two search terms that lower-case alike select the same folders |
| Upload.SelectedFolder | components/UploadView.tsx:105-107 | a folder is found exactly when one has the id, and it has that id |
| Upload.EffectivePath | components/UploadView.tsx:110-119 | latest gives the latest path, select gives the selected path, create gives the trimmed custom path, each only when it exists |
| Upload.ValidCreateSendsPath | components/UploadView.tsx:122-142 | a valid upload to a new folder always sends its trimmed path |
| Upload.SelectWithoutFolderStillValid | components/UploadView.tsx:122-142 | select with no matching folder is valid and sends no path |
| Upload.UploadErrorMessage | components/UploadView.tsx:144-151 | a failed answer always gives a non-empty text: the errors joined by ", " when that is not empty, otherwise "Upload failed"; a thrown error gives its message, or the default |
| Upload.UploadErrorListsEveryError | components/UploadView.tsx:147 | with two or more errors the text holds every error in order, each but the last followed by ", ", and nothing else |
| Text.JoinLayout | components/UploadView.tsx:147 | `join` puts every piece at its offset with a separator after each piece but the last, and has exactly that length |
| Upload.UploadView.constructor | components/UploadView.tsx:24-48 | the form mounts with the default cycle name, the "latest" option, empty inputs, no folders, nothing loading or uploading and no error |
| Upload.UploadView.BeginFetchFolders | components/UploadView.tsx:71-73 | the folders are loading and the error is cleared |
| Upload.UploadView.FinishFetchFolders | components/UploadView.tsx:71-92 | a non-empty list makes its last folder the latest and selected one; an empty list changes neither; a failure sets the error and keeps the folders |
| Upload.UploadView.ChooseFolderOption | components/UploadView.tsx:291-410 | an option is taken exactly when its radio is enabled: never during an upload, latest only with a latest folder, select only with a non-empty list |
| Upload.UploadView.ClickFolder | components/UploadView.tsx:356-374 | a click selects the folder exactly when its button is shown ("select" chosen, the folders not loading, the folder passing the search) and enabled (no upload); otherwise the selection is unchanged |
| Upload.UploadView.SetCycleName | components/UploadView.tsx:255-262 | the name takes the typed text exactly when no upload runs; otherwise it is unchanged |
| Upload.UploadView.SetSearchTerm | components/UploadView.tsx:342-353 | the term takes the typed text exactly when "select" is chosen and neither an upload nor the folder listing runs; otherwise it is unchanged |
| Upload.UploadView.SetCustomFolderPath | components/UploadView.tsx:422-432 | the path takes the typed text exactly when "create" is chosen and no upload runs; otherwise it is unchanged |
| Upload.UploadView.BeginUpload | components/UploadView.tsx:129-142 | the upload button (disabled when the form is invalid or an upload runs, line 513) starts an upload exactly when enabled, sending the trimmed name and the effective path; a refused click changes nothing |
| Upload.UploadView.FinishUpload | components/UploadView.tsx:144-154 | success is handed on; any other answer sets the error; the upload is over |
| Card.HighlightedLines | components/TestCaseCard.tsx:132-138 | one flag per line of the text, set exactly when highlighting is on and the lower-cased line contains "verify" |
| Card.HighlightedIffOccurs | components/TestCaseCard.tsx:134-135 | a line is highlighted exactly when "verify" occurs in its lower-cased text |
| Card.DraftHighlightsItsCheckLine | components/TestCaseCard.tsx:132-138 | a new draft shows three lines and only the "Verify Result" line is highlighted |
| Card.TestCaseCard.constructor | components/TestCaseCard.tsx:31-39 | the buffers hold the case, and a draft opens in edit mode |
| Card.TestCaseCard.ReceiveCase | components/TestCaseCard.tsx:35-44 | a new draft id turns edit mode on; a changed title or text resets both buffers |
| Card.TestCaseCard.StartEditing | components/TestCaseCard.tsx:108 | the edit button (and a double click, lines 74 and 131) turns edit mode on |
| Card.TestCaseCard.EditTitle | components/TestCaseCard.tsx:75-81 | the title buffer takes the typed text exactly in edit mode, where the input exists; otherwise it is unchanged |
| Card.TestCaseCard.EditSteps | components/TestCaseCard.tsx:123-129 | the text buffer takes the typed text exactly in edit mode, where the text area exists; otherwise it is unchanged |
| Card.TestCaseCard.Save | components/TestCaseCard.tsx:46-49 | the save button exists only in edit mode (line 90): there it makes one update call with the id and both buffers; edit mode ends either way |
| Card.TestCaseCard.Cancel | components/TestCaseCard.tsx:51-55 | the cancel button exists only in edit mode (line 93): there both buffers come back from the case; otherwise they are unchanged; edit mode ends either way |
| Card.TestCaseCard.ClickUpload | components/TestCaseCard.tsx:99-106 | the case is handed on exactly when it is not being edited or uploaded |
| Card.TestCaseCard.ClickRemove | components/TestCaseCard.tsx:111 | the case's id and title are handed on exactly when the card is not being edited |
| Stats.FilteredHistory | components/StatsPage.tsx:79-82 | all keeps everything; otherwise exactly the items with that status |
| Stats.FilterAfterLoadMore | components/StatsPage.tsx:79-82 | filtering after an append is the old filtered list followed by the new page's filtered items |
| Stats.StatusViewsDisjoint | components/StatsPage.tsx:79-82 | the success and failed views together never exceed the history |
| Stats.FormatDuration | components/StatsPage.tsx:113-119 | N/A for missing or 0; "<s>s" below a minute; otherwise "<m>m <r>s" with 60m + r = s and r < 60 |
| Stats.FormatDurationReadsBack | components/StatsPage.tsx:113-119 | every positive duration's text reads back as that duration |
| Stats.Toggled | components/StatsPage.tsx:121-133 | the toggled id flips membership; other ids are unchanged |
| Stats.ReplaceItem | components/StatsPage.tsx:140 | items with the id are replaced by the details; the others stay in place |
| Stats.StatsPage.constructor | components/StatsPage.tsx:16-24 | the page mounts with no history, loading, no notices, nothing expanded or loading, page 0, more offered and the "all" filter |
| Stats.StatsPage.BeginFetchHistory | components/StatsPage.tsx:50-53 | requests 20 items at offset page*20 |
| Stats.StatsPage.FinishFetchHistory | components/StatsPage.tsx:54-65 | appends or replaces; more is offered exactly when a full page came; a failure adds an error notice |
| Stats.StatsPage.LoadMore | components/StatsPage.tsx:73-77 | the button exists only while more is offered and nothing loads (line 355); a click then advances the page by exactly one and requests the next 20; otherwise nothing changes |
| Stats.StatsPage.SetStatusFilter | components/StatsPage.tsx:181-201 | the filter becomes the clicked one |
| Stats.StatsPage.DismissNotification | components/StatsPage.tsx:33-35 | the notices keep exactly those with another id, in order |
| Stats.StatsPage.ToggleExpand | components/StatsPage.tsx:121-138 | the id is toggled; details are fetched exactly when the item expands and has no plan |
| Stats.StatsPage.FinishDetails | components/StatsPage.tsx:139-150 | the details replace the item, or an error notice is added; the id is no longer loading |

## Left out

- Network calls are not made. A parameter brings in each call's answer or failure; this covers updates, reloads, uploads, generation, folder listing, history and search.
- Timers are not modelled:
  - the 300 ms search debounce, which is the gap between `SearchEffect` and `BeginSearch`;
  - notification auto-dismiss and fades, where only the policy `AutoDismisses` is kept;
  - the upload form's scroll delays.
- `Date.now()` ids come in as parameters. Locale date formatting, floating-point success rates and statistics loading (`fetchStats`) are not modelled.
- React's render order is not modelled. Each `Finish…` method works on the page's current list, not on the list the handler captured when it started. State updates inside one handler are applied in sequence.
- The step parser keeps no `test_data` field, since nothing reads it.
- Text functions use ASCII only. `trim` and `\s` cover the six ASCII whitespace characters, and `toLowerCase` maps only 'A'..'Z'.
- `parseInt` of a digit run is read as a natural number. A step number of 0 prints as its position, as the printer does.
- TestPlan.TestPlanPage.ConfirmRemove: the page is proved to stay in range and undo to restore the list only when ids are unique. With duplicate ids, several cases go at once and the page may end past the end.
- TestPlan.TestPlanPage.HandleUpdateTestCase: the page number is not adjusted after the list is rebuilt. The code does not adjust it either.
- Generation: the shared context does not refuse a second start while one runs; it overwrites the record. Only the caller (`JiraSearch.JiraSearchPage.HandleGenerate`) refuses. `Generation.LateAnswersBreakExclusion` shows what the context alone allows. Its trace needs `clearGeneration`, which none of the modelled components calls (the search page uses only `startGeneration` and `isGenerating`), so it is reachable only through the context's own API.
- Reconcile: the first local case that passes any of the three tests wins, even when a later local case has the server case's exact id. `Reconcile.FlagsFromEarliestMatch` states this.
- TestPlan.TestPlanPage.BeginBulkUpload: the handler's own "No test cases selected for upload." error is not modelled, because the action bar's button is disabled whenever nothing is selected, so no click reaches it.
- Bulk delete always sends the shortened plan. There is no separate call that deletes the whole plan.
- `Warning` is a fourth notification kind, raised by the reload fallback. No dismissal rule is invented for it.
- The upload form's `onBack` and `onSuccess`, and the card's select, expand and remove callbacks, are returned or left to the page. They are not modelled as calls.
- StepCodec.ParsePrintRoundTrip: stated only for printable steps. These have a positive number and single-line, space-trimmed action and expected texts. The expected text must also not start with ':'. Other steps do not survive printing, and the lemma does not claim they do.

## Findings

| source | as written | input that shows it | evidently intended | confidence | as-written member | corrected member |
|---|---|---|---|---|---|---|
| components/TestPlanPage.tsx:167-170 | the removal notice's undo runs the `handleUndoRemove` captured before this removal's `setLastRemoved` took effect | first removal of any case, then Undo on its notice: the slot it reads is still empty and the case stays removed | undo re-inserts the case just removed | not executed | Collection.StaleUndoLosesCase | Collection.UndoRestores |
| components/TestPlanPage.tsx:511 | the toggle-all label reads 'Collapse All' in both branches | a page with one collapsed case: the label says "Collapse All" and a click expands every case | 'Expand All' when not all are expanded | not executed | Collection.ToggleAllLabelMisleads | Collection.ToggleAllLabel |
| components/UploadView.tsx:47 | the default cycle name's dash is three characters (U+201A U+00C4 U+00EC), the UTF-8 bytes of an en dash read as Mac Roman | any issue key, e.g. "PROJ-1": the name shows stray characters between the key and "Test Cycle" | the key, a space, an en dash, a space, and "Test Cycle" | not executed | Upload.CycleNameAsWrittenIsGarbled | Upload.DefaultCycleName |
