# nfai-web client logic in Dafny

nfai-web is a Next.js front end for a dataset marketplace. Users connect a Solana wallet, then
browse datasets and like them, create and edit datasets, upload a dataset's file, keep a
profile, and gather datasets into collections that they can share. A hosted Supabase backend
stores everything. The client keeps a thin layer of logic of its own, and that layer is what
this project models and proves things about:

- how lists are composed: sorting, capped search, topic suggestions, combobox filtering, the
  datasets a collection can still take, and the active-filter count;
- validators with a fixed order of error messages: profile, create form, edit form;
- string formatting: wallet address shortening, display names, the upload path, the file
  extension, and bytes to MiB;
- the handler state machines of the components. Each has a guard, then a remote call, then
  state updates that depend on the outcome, then a `finally` reset;
- the two data-layer helpers that contain client-side logic: `createDataset` wraps every error,
  and `uploadDatasetFile` removes the stored object again when the record update fails.

There is one Dafny module per source file, plus four shared modules:

- `Text`: ASCII lowercasing, `trim`, `includes`, `slice`, and `length` in UTF-16 units;
- `Seqs`: filter, prefix and subsequence;
- `Domain`: the records, the `Reply` outcome of an awaited call, and `MessageOr`;
- `Effects`: the gateway calls a component issues and the parent callbacks it invokes.

A component whose handlers update state becomes a `class`. Its fields are the component's
`useState` variables. It also keeps a `calls` log of the requests it sent and an `events` log of
the callbacks and alerts it fired, so contracts can state what was sent and in what order. The
result of every remote call is a parameter: a `Reply` that either resolves with a value or
throws. Handlers whose busy flag matters while the call is in flight come in two halves: the
part before the `await` and the part after it. A third method runs both halves in sequence.

The blank test `!s.trim()` is written `IsBlank(s)`. It holds exactly when every character is
whitespace, and `Text.BlankIffTrimEmpty` proves that this is the same as `trim()` returning ''.

The proofs are written for this command line, run from the project directory with all files
given together:

    dafny verify --resource-limit 2000000 --verification-time-limit 0 *.dfy

A run with a wall-clock limit in place of the resource limit can time out on some proofs,
`Text.Trim` and `Supabase.ExtensionUnique` among them.

## Model

| member | source | states |
|---|---|---|
| Domain.MessageOr | components/UserProfile.tsx:83 | an `Error` yields its message; any other thrown value yields the fallback |
| Text.Lower | components/ui/topic-input.tsx:36 | `toLowerCase` (ASCII letters): same length, each character lowercased; `LowerIdempotent` proves lowercasing twice is lowercasing once |
| Text.LowerIdempotent | components/ui/topic-input.tsx:44 | lowercasing twice is lowercasing once |
| Text.Trim | components/ui/topic-input.tsx:42-44 | `trim`: a substring of the input with no whitespace at either end |
| Text.TrimIdempotent | components/ui/topic-input.tsx:44 | trimming twice is trimming once |
| Text.IsBlank | components/ui/topic-input.tsx:42 | the falsy test `!s.trim()`: `BlankIffTrimEmpty` proves it holds exactly when `trim` gives '' |
| Text.BlankIffTrimEmpty | components/ui/topic-input.tsx:42 | a string is blank exactly when trimming leaves '' |
| Text.Contains | components/ui/topic-input.tsx:36 | `includes`: `ContainsAt` proves it holds exactly when the text occurs at some index |
| Text.ContainsAt | components/ui/topic-input.tsx:36 | `includes` holds exactly when the text occurs at some index |
| Text.ContainsEmpty | components/ui/topic-input.tsx:36 | every string includes '' |
| Text.ContainsNeedsRoom | components/ui/topic-input.tsx:36 | a string shorter than the text does not include it |
| Text.ClampIndex | lib/utils.ts:9 | the `slice` index clamping: in range, a negative index counts from the end |
| Text.Slice | lib/utils.ts:9 | `slice(start, end)` on the clamped indices; `Utils.FormatAddress` states its results for the address |
| Seqs.Filter | components/ui/topic-input.tsx:34-38 | `filter`: exactly the elements that pass, none added |
| Seqs.FilterAll | components/ui/combobox.tsx:41-45 | a filter that passes everything returns the sequence unchanged |
| Seqs.FilterIsSubsequence | components/ui/topic-input.tsx:34-38 | a filter keeps the survivors in order |
| Seqs.FilterCount | components/collections/CollectionDetail.tsx:84 | a filter keeps every copy of an accepted value and none of a rejected one |
| Seqs.Take | components/ui/topic-input.tsx:39 | `slice(0, n)`: a prefix of length min(length, n) |
| Seqs.TakeFilterIsSubsequence | components/ui/topic-input.tsx:34-39 | a capped filter keeps the original order |
| Utils.FormatAddress | lib/utils.ts:8-10 | first four characters, "...", last four characters; length 11 when the address has at least 4 characters; an address shorter than 4 appears twice in full |
| Utils.GetDisplayName | lib/utils.ts:12-15 | no author gives 'Anonymous'; a non-empty username is returned unchanged; a null or empty username gives the shortened wallet address; the result is never empty |
| DatasetList.WithKey | components/DatasetList.tsx:48-54 | the per-key filter the stability lemmas compare against; never longer than the input |
| DatasetList.Insert | components/DatasetList.tsx:48-54 | inserting adds one element, puts it or the old head first, and keeps a descending sequence descending |
| DatasetList.SortBy | components/DatasetList.tsx:48-54 | a stable descending sort: same length, adjacent keys never increase |
| DatasetList.InsertPermutes | components/DatasetList.tsx:48-54 | inserting adds exactly that element to the multiset |
| DatasetList.SortByPermutes | components/DatasetList.tsx:48-54 | the sort output is a permutation of its input |
| DatasetList.SortDatasets | components/DatasetList.tsx:45-62 | for every option the output is a permutation of the input; 'popular' is ordered by likes, 'recent' by upload date and 'size' by size, each non-increasing; an unrecognised option returns the input |
| DatasetList.InsertWithKey | components/DatasetList.tsx:48-54 | an insertion places the element in front of its equal-key elements and leaves their order alone |
| DatasetList.SortByIsStable | components/DatasetList.tsx:48-54 | for every key value, datasets with that value keep their input order |
| DatasetList.InsertInFront | components/DatasetList.tsx:48-54 | an element at least as large as the head is inserted at the front |
| DatasetList.SortedTail | components/DatasetList.tsx:48-54 | the tail of a descending sequence is descending |
| DatasetList.SortBySorted | components/DatasetList.tsx:48-54 | an already sorted sequence comes back unchanged |
| DatasetList.SortDatasetsStableAndIdempotent | components/DatasetList.tsx:45-62 | every numeric ordering is stable, and sorting its own output again changes nothing |
| DatasetList.TwoDatasetScenario | components/DatasetList.tsx:47-51 | an older popular dataset and a newer less popular one swap under 'recent' and stay put under 'popular' |
| DatasetList.DatasetListView.constructor | components/DatasetList.tsx:19-22 | starts on 'recent', with no datasets, loading, and no error |
| DatasetList.DatasetListView.LoadDatasets | components/DatasetList.tsx:24-43 | one fetch; success shows the data sorted by the current option and clears the error; failure keeps the list and sets 'Failed to load datasets'; loading ends false |
| DatasetList.DatasetListView.ChangeSort | components/DatasetList.tsx:43-81 | offered only after a load without error; the current option changes nothing and sends nothing; a new option re-runs the load with that option |
| SearchBar.SearchResults | components/SearchBar.tsx:47-52 | a blank query gives no results; at most 5 results; each one is a loaded dataset whose lowercased name or description contains the lowercased query |
| SearchBar.SearchResultsComplete | components/SearchBar.tsx:47-52 | the results are the first five matches: a prefix of the matching datasets in their order, min(matches, 5) of them, and a subsequence of the datasets; when at most 5 datasets match, all of them are listed |
| SearchBar.UntrimmedQueryScenario | components/SearchBar.tsx:47-50 | matching uses the untrimmed query: " ab" does not find a dataset named "ab" |
| SearchBar.SearchBarView.constructor | components/SearchBar.tsx:12-15 | empty query, closed, not loading, no datasets |
| SearchBar.SearchBarView.LoadDatasets | components/SearchBar.tsx:19-33 | one fetch; success replaces the datasets; failure keeps them; loading ends false |
| SearchBar.SearchBarView.Type | components/SearchBar.tsx:61-64 | the query becomes the typed text and the dropdown opens; nothing else changes |
| SearchBar.SearchBarView.Focus | components/SearchBar.tsx:65 | focusing opens the dropdown |
| SearchBar.SearchBarView.ChooseResult | components/SearchBar.tsx:85-89 | closes the dropdown and clears the query, so no results are listed |
| CollectionDetail.IsOwner | components/collections/CollectionDetail.tsx:33 | with a collection: true exactly when the wallet is its creator; a wallet with no collection gives false; no wallet and no collection gives true |
| CollectionDetail.FilteredDatasets | components/collections/CollectionDetail.tsx:135-149 | exactly the non-members that match: never offers a dataset that is already a member; with a non-blank query each result matches it and every matching non-member is offered; with a blank query every non-member is offered |
| CollectionDetail.FilteredDatasetsInOrder | components/collections/CollectionDetail.tsx:135-149 | the offered datasets keep the order in which they were loaded |
| CollectionDetail.RemoveItems | components/collections/CollectionDetail.tsx:78-87 | no item for the dataset remains; every remaining item was there before, and every item for another dataset is kept; all other fields are unchanged; a null collection stays null; see RemoveItemsInOrder for order and copies |
| CollectionDetail.RemoveItemsInOrder | components/collections/CollectionDetail.tsx:84 | the kept items are a subsequence of the previous items, and every item of another dataset keeps its number of copies |
| CollectionDetail.CollectionDetailView.constructor | components/collections/CollectionDetail.tsx:22-31 | no collection, loading, empty search, no datasets, not editing, empty pending texts |
| CollectionDetail.CollectionDetailView.LoadCollection | components/collections/CollectionDetail.tsx:39-50 | one fetch; success replaces the collection; failure keeps it; loading ends false; nothing else changes |
| CollectionDetail.CollectionDetailView.LoadAllDatasets | components/collections/CollectionDetail.tsx:52-63 | one fetch; success replaces the datasets on offer; searching ends false |
| CollectionDetail.CollectionDetailView.SetSearchQuery | components/collections/CollectionDetail.tsx:313 | the search box replaces the query |
| CollectionDetail.CollectionDetailView.AddDataset | components/collections/CollectionDetail.tsx:65-74 | membership changes only through the re-fetch after a successful add; a failed add sends no re-fetch and changes nothing |
| CollectionDetail.CollectionDetailView.RemoveDataset | components/collections/CollectionDetail.tsx:76-94 | success applies `RemoveItems`; failure leaves the collection unchanged |
| CollectionDetail.CollectionDetailView.StartEdit | components/collections/CollectionDetail.tsx:96-105 | only the owner enters edit mode; the pending text starts from the current name or description, or '' when absent |
| CollectionDetail.CollectionDetailView.Save | components/collections/CollectionDetail.tsx:107-123 | sends one update for that field; success writes the pending text into that field only and leaves edit mode; failure keeps both the value and edit mode |
| CollectionDetail.CollectionDetailView.Cancel | components/collections/CollectionDetail.tsx:125-133 | leaves edit mode for that field and clears its pending text |
| TopicInput.Suggestions | components/ui/topic-input.tsx:34-39 | at most 5 suggestions; each is a known topic that is not selected and that contains the input, ignoring case |
| TopicInput.SuggestionsInOrder | components/ui/topic-input.tsx:34-39 | the suggestions are the first five suggestable topics: a prefix of them in the known topics' order, min(suggestable, 5) of them, all of them when there are at most five; with an empty input every unselected topic is suggestable |
| TopicInput.SuggestionsNonEmpty | components/ui/topic-input.tsx:34-39 | there is a suggestion exactly when some known topic is suggestable |
| TopicInput.NormalizeTopic | components/ui/topic-input.tsx:44 | the topic Enter adds is the trimmed, lowercased input, never longer than the input |
| TopicInput.NormalizeIdempotent | components/ui/topic-input.tsx:44 | normalising a normalised topic changes nothing |
| TopicInput.TopicInputView.constructor | components/ui/topic-input.tsx:28-29 | empty input, suggestions hidden |
| TopicInput.TopicInputView.DropdownShown | components/ui/topic-input.tsx:110 | the dropdown shows exactly when suggestions are enabled and some known topic contains the input, ignoring case, and is not selected |
| TopicInput.TopicInputView.Type | components/ui/topic-input.tsx:103 | typing replaces the input |
| TopicInput.TopicInputView.Focus | components/ui/topic-input.tsx:105 | focusing enables suggestions |
| TopicInput.TopicInputView.KeyDown | components/ui/topic-input.tsx:41-50 | Enter on a non-blank input adds the normalised topic unless it is already selected, and clears the input either way; any other key, or a blank input, changes nothing |
| TopicInput.TopicInputView.SuggestionClick | components/ui/topic-input.tsx:52-57 | adds the suggestion and clears the input; the suggestions end hidden when the input kept the focus, and enabled again when the refocus runs the focus handler of line 105 |
| TopicInput.TopicInputView.RemoveClick | components/ui/topic-input.tsx:90 | hands the topic back to the parent for removal |
| Combobox.SafeOptions | components/ui/combobox.tsx:39 | an array prop is used as it is; anything else counts as no options |
| Combobox.FilteredOptions | components/ui/combobox.tsx:41-46 | exactly the options that contain the input, ignoring case |
| Combobox.FilteredOptionsEmptyInput | components/ui/combobox.tsx:41-46 | an empty input keeps every option; a prop that is not an array gives none |
| Combobox.FilteredOptionsInOrder | components/ui/combobox.tsx:41-46 | the filtered options keep their original order |
| Combobox.OffersFreeText | components/ui/combobox.tsx:79-86 | the "Add" entry appears exactly for a non-empty input that no option contains, ignoring case |
| Combobox.ComboboxView.constructor | components/ui/combobox.tsx:35-36 | closed, empty input |
| Combobox.ComboboxView.InputChange | components/ui/combobox.tsx:48-50 | replaces the input |
| Combobox.ComboboxView.SetOpen | components/ui/combobox.tsx:60 | the popover follows its open flag |
| Combobox.ComboboxView.Select | components/ui/combobox.tsx:52-57 | an empty value does nothing; otherwise `onSelect` is called with the value, the popover closes and the input clears |
| DatasetFilters.ActiveFilterCount | components/DatasetFilters.tsx:42-45 | between 0 and 2; 0 exactly when both fields are 'All'; 2 exactly when neither is |
| DatasetFilters.ShowReset | components/DatasetFilters.tsx:92 | the reset control shows exactly when some field is not 'All' |
| DatasetFilters.SetTopic | components/DatasetFilters.tsx:59 | the new topic, with the same license |
| DatasetFilters.SetLicense | components/DatasetFilters.tsx:78 | the new license, with the same topic |
| DatasetFilters.CountAfterChange | components/DatasetFilters.tsx:42-45 | one change moves the count by at most one; choosing 'All' never raises it; setting both fields to 'All' gives 0 |
| UserProfile.Validate | components/UserProfile.tsx:56-69 | a non-empty username shorter than 3 UTF-16 units fails first; then a username outside [A-Za-z0-9_-]; then a non-empty email without '@'; passes exactly when all checks hold, and an empty username skips the username checks |
| UserProfile.AcceptedUsernameLength | components/UserProfile.tsx:57-63 | an accepted non-empty username has at least three characters, and its UTF-16 length is its character count |
| UserProfile.AstralUsernameScenario | components/UserProfile.tsx:58-63 | "a" followed by an emoji is 3 units long, so it fails the pattern check rather than the length check |
| Text.Utf16Length | components/UserProfile.tsx:58 | `length` lies between the number of characters and twice that |
| Text.Utf16LengthBmp | components/UserProfile.tsx:58 | inside the Basic Multilingual Plane `length` is the number of characters |
| UserProfile.OrNull | components/UserProfile.tsx:73-74 | '' becomes null; any other string is kept |
| UserProfile.OrEmpty | components/UserProfile.tsx:36-37 | null becomes ''; a string is kept |
| UserProfile.Payload | components/UserProfile.tsx:71-75 | the wallet, plus username and email with '' sent as null |
| UserProfile.Loaded | components/UserProfile.tsx:35-38 | a loaded row fills the form, with null shown as '' |
| UserProfile.PayloadRoundTrip | components/UserProfile.tsx:35-38 | loading what was saved gives back the same form |
| UserProfile.UserProfileView.constructor | components/UserProfile.tsx:21-26 | not loading, no message, empty username and email |
| UserProfile.UserProfileView.Edit | components/UserProfile.tsx:131 | replaces the form |
| UserProfile.UserProfileView.LoadProfile | components/UserProfile.tsx:28-46 | nothing without a wallet; otherwise one fetch, and a returned row fills the form; a missing row or a failure keeps it |
| UserProfile.UserProfileView.HandleSubmit | components/UserProfile.tsx:48-87 | nothing without a wallet; a validation error is shown and nothing is sent; otherwise one update is sent, success shows 'Profile updated successfully!' and failure shows the error's message or the fallback; loading ends false |
| CreateDatasetModal.LicenseListsAgree | components/DatasetFilters.tsx:14-22 | the filter's license list is 'All' followed by exactly the create form's license list; the default license is 'MIT' |
| CreateDatasetModal.Validate | components/CreateDatasetModal.tsx:58-73 | blank name, then blank description, then no category, then no license; the first failure gives its message; passes exactly when none applies |
| CreateDatasetModal.Payload | components/CreateDatasetModal.tsx:79-85 | name and description trimmed; visibility, categories and license as entered |
| CreateDatasetModal.ValidPayload | components/CreateDatasetModal.tsx:58-85 | a form that passes validation sends a non-empty name and description, both already trimmed, and at least one category |
| CreateDatasetModal.FailureMessage | components/CreateDatasetModal.tsx:113-117 | the error's message when it is an `Error` with a non-empty message; otherwise the fixed text; never empty |
| CreateDatasetModal.CategoryValue | components/CreateDatasetModal.tsx:203-204 | the `i`th label is offered as "text", "image", "audio", "video", "tabular", "time series", "graph" or "other" |
| CreateDatasetModal.CategoriesLowered | components/CreateDatasetModal.tsx:29-38 | each label lowercases to its listed value |
| CreateDatasetModal.CategoryValuesDistinct | components/CreateDatasetModal.tsx:203-204 | distinct labels report distinct, non-empty values |
| CreateDatasetModal.CreateDatasetModalView.constructor | components/CreateDatasetModal.tsx:42-51 | closed, not loading, no error, the default form ('', '', 'public', [], 'MIT') |
| CreateDatasetModal.CreateDatasetModalView.OpenChange | components/CreateDatasetModal.tsx:126-139 | follows the open flag; closing clears the error and resets the form; opening keeps both |
| CreateDatasetModal.CreateDatasetModalView.CancelClick | components/CreateDatasetModal.tsx:232-238 | offered only while no create is in flight; closes the dialog and keeps the form and the error |
| CreateDatasetModal.CreateDatasetModalView.Edit | components/CreateDatasetModal.tsx:162-216 | the inputs and selects replace the form |
| CreateDatasetModal.CreateDatasetModalView.SelectCategory | components/CreateDatasetModal.tsx:195-207 | choosing a label makes the category list that label's lowercased value alone; the other fields are kept |
| CreateDatasetModal.CreateDatasetModalView.HandleSubmit | components/CreateDatasetModal.tsx:53-121 | a validation failure shows its message and sends nothing; otherwise the trimmed request is sent; success closes the dialog and resets the form; failure keeps both and shows `FailureMessage`; loading ends false |
| EditDatasetModal.InitialForm | components/EditDatasetModal.tsx:42-46 | the form starts from the dataset's name, description and tags |
| EditDatasetModal.Validate | components/EditDatasetModal.tsx:50-58 | no wallet fails first with 'Please connect your wallet first'; then a blank name with 'Dataset name is required'; passes exactly when neither applies |
| EditDatasetModal.Payload | components/EditDatasetModal.tsx:64-67 | the form fields as entered, with `created_by` set to the connected wallet |
| EditDatasetModal.EditDatasetModalView.constructor | components/EditDatasetModal.tsx:40-46 | not loading, no error, the initial form |
| EditDatasetModal.EditDatasetModalView.Edit | components/EditDatasetModal.tsx:101-111 | the inputs replace the form |
| EditDatasetModal.EditDatasetModalView.SelectCategory | components/EditDatasetModal.tsx:118-123 | the tags become the one chosen value; the other fields are kept |
| EditDatasetModal.EditDatasetModalView.OpenChange | components/EditDatasetModal.tsx:82-84 | closing asks the parent to close; opening does nothing |
| EditDatasetModal.EditDatasetModalView.CancelClick | components/EditDatasetModal.tsx:139-146 | the Cancel button, disabled while loading, asks the parent to close |
| EditDatasetModal.EditDatasetModalView.HandleSubmit | components/EditDatasetModal.tsx:48-77 | a failed guard shows its message and sends nothing; otherwise one update is sent; success calls `onUpdate` then `onClose`; failure shows the error and calls neither; loading ends false |
| AddToCollectionDialog.DecrementedCount | components/collections/AddToCollectionDialog.tsx:61 | `max(0, n - 1)`: never negative, one less for a positive count |
| AddToCollectionDialog.AddThenRemove | components/collections/AddToCollectionDialog.tsx:59-66 | adding and then removing restores a non-negative count; removing from 0 stays at 0 |
| AddToCollectionDialog.LiveDataset.constructor | components/collections/AddToCollectionDialog.tsx:16 | the shared dataset object with its id and counter |
| AddToCollectionDialog.ToggleCall | components/collections/AddToCollectionDialog.tsx:48-66 | a member is removed; a non-member is added |
| AddToCollectionDialog.CountAfter | components/collections/AddToCollectionDialog.tsx:59-66 | removing decrements with saturation; adding increments; a non-negative count stays non-negative |
| AddToCollectionDialog.AddToCollectionDialogView.constructor | components/collections/AddToCollectionDialog.tsx:24-27 | no collections, loading, nothing processing, create dialog closed |
| AddToCollectionDialog.AddToCollectionDialogView.ButtonDisabled | components/collections/AddToCollectionDialog.tsx:111 | every collection button is disabled exactly while a toggle is in flight |
| AddToCollectionDialog.AddToCollectionDialogView.LoadCollections | components/collections/AddToCollectionDialog.tsx:35-46 | one fetch for the wallet; success replaces the list; failure keeps it; loading ends false |
| AddToCollectionDialog.AddToCollectionDialogView.Opened | components/collections/AddToCollectionDialog.tsx:29-33 | the collections load only when the dialog opens with a wallet |
| AddToCollectionDialog.AddToCollectionDialogView.BeginClick | components/collections/AddToCollectionDialog.tsx:52-58 | without a wallet nothing happens; otherwise the clicked id is processing, every button is disabled, and the toggle request goes out |
| AddToCollectionDialog.AddToCollectionDialogView.SettleClick | components/collections/AddToCollectionDialog.tsx:59-76 | success moves the shared counter by `CountAfter` and reloads; failure leaves the counter alone and reloads nothing; processing is cleared either way |
| AddToCollectionDialog.AddToCollectionDialogView.Click | components/collections/AddToCollectionDialog.tsx:52-76 | the whole click: no wallet leaves the calls, the counter, the collections and the loading flag unchanged; on success the counter follows CountAfter, the toggle and a reload are sent, and the collections are the reload's result with loading ended; on failure only the toggle is sent and the counter, the collections and loading are kept |
| AddToCollectionDialog.AddToCollectionDialogView.CreateSucceeded | components/collections/AddToCollectionDialog.tsx:78-81 | reloads the collections and closes the create dialog |
| DatasetCard.IsOwner | components/DatasetCard.tsx:25 | true exactly when the connected key equals `created_by`; false with no wallet |
| DatasetCard.DatasetCardView.constructor | components/DatasetCard.tsx:26-29 | likes from the dataset, not liked, not loading, dialog closed |
| DatasetCard.DatasetCardView.ShowCollectionButton | components/DatasetCard.tsx:88 | the collection button shows exactly with a wallet when it is not hidden |
| DatasetCard.DatasetCardView.CheckIfLiked | components/DatasetCard.tsx:31-43 | with a wallet, the liked flag becomes membership of the id in the fetched set; with no wallet, or when the fetch fails, it is kept |
| DatasetCard.DatasetCardView.BeginLike | components/DatasetCard.tsx:45-53 | offered only while no toggle is in flight; no wallet alerts and sends nothing; otherwise loading starts and one toggle goes out |
| DatasetCard.DatasetCardView.SettleLike | components/DatasetCard.tsx:54-63 | success takes the server's count and flips the liked flag; failure alerts and changes neither; loading ends false |
| DatasetCard.DatasetCardView.LikeClick | components/DatasetCard.tsx:45-64 | the whole click, offered only while idle: no wallet alerts once and leaves likes, liked and loading unchanged; otherwise one toggle, the server's count and a flipped flag on success, and on failure the 'Failed to toggle like' alert with likes and liked kept; loading ends false |
| DatasetCard.DatasetCardView.OpenAddToCollection | components/DatasetCard.tsx:92 | opens the add-to-collection dialog |
| DatasetDetails.ShowUploadSection | components/DatasetDetails.tsx:109 | the upload section shows exactly when there is no file URL or it is '' |
| DatasetDetails.DatasetDetailsView.constructor | components/DatasetDetails.tsx:17-20 | likes from the dataset, idle, no upload error |
| DatasetDetails.DatasetDetailsView.HandleLike | components/DatasetDetails.tsx:22-32 | success adds exactly one like; failure keeps the count; liking ends false |
| DatasetDetails.DatasetDetailsView.HandleFileUpload | components/DatasetDetails.tsx:34-50 | no file changes nothing; otherwise one upload is sent; success reloads the page; failure sets the error's message or 'Failed to upload file'; uploading ends false |
| InlineEdit.DisplayText | components/InlineEdit.tsx:48 | the value, or 'No description' when it is empty |
| InlineEdit.InlineEditView.constructor | components/InlineEdit.tsx:24-25 | not editing, with the pending text seeded from the value |
| InlineEdit.InlineEditView.ValueChanged | components/InlineEdit.tsx:25 | a new value prop does not re-seed the pending text |
| InlineEdit.InlineEditView.Click | components/InlineEdit.tsx:46 | a click enters edit mode only for the owner |
| InlineEdit.InlineEditView.Type | components/InlineEdit.tsx:58-67 | typing replaces the pending text |
| InlineEdit.InlineEditView.Save | components/InlineEdit.tsx:27-35 | passes the pending text to `onSave`; success leaves edit mode; failure resets the pending text to the value and stays in edit mode |
| InlineEdit.InlineEditView.Cancel | components/InlineEdit.tsx:37-40 | leaves edit mode and resets the pending text to the value |
| CreateCollectionModal.Request | components/collections/CreateCollectionModal.tsx:32-37 | the untrimmed name, the description, the visibility, and the wallet as `created_by` |
| CreateCollectionModal.CreateCollectionModalView.constructor | components/collections/CreateCollectionModal.tsx:21-24 | not loading, empty fields, private |
| CreateCollectionModal.CreateCollectionModalView.SubmitDisabled | components/collections/CreateCollectionModal.tsx:103 | submit is disabled exactly while loading or when the trimmed name is empty |
| CreateCollectionModal.CreateCollectionModalView.Edit | components/collections/CreateCollectionModal.tsx:67-89 | the inputs replace the fields |
| CreateCollectionModal.CreateCollectionModalView.HandleSubmit | components/collections/CreateCollectionModal.tsx:26-52 | nothing without a wallet; otherwise one request is sent; success resets to ('', '', false), then closes the modal and calls `onSuccess`; failure keeps the fields and the modal; loading ends false |
| CreateCollectionModal.CreateCollectionModalView.CancelClick | components/collections/CreateCollectionModal.tsx:97 | asks the parent to close |
| ShareCollectionDialog.ShareTarget | components/collections/ShareCollectionDialog.tsx:24-28 | the address sent, if any: `ShareTargetBlank` proves nothing is sent exactly for a blank address, `ShareTargetTrimmed` that a sent address is non-empty and trimmed |
| ShareCollectionDialog.ShareTargetBlank | components/collections/ShareCollectionDialog.tsx:24 | nothing is sent exactly when the address is blank |
| ShareCollectionDialog.ShareTargetTrimmed | components/collections/ShareCollectionDialog.tsx:28 | a sent address is non-empty and already trimmed |
| ShareCollectionDialog.ShareCollectionDialogView.constructor | components/collections/ShareCollectionDialog.tsx:19-20 | not loading, empty address |
| ShareCollectionDialog.ShareCollectionDialogView.ShareDisabled | components/collections/ShareCollectionDialog.tsx:71 | the share button is disabled exactly while loading or when the address is blank |
| ShareCollectionDialog.ShareCollectionDialogView.Type | components/collections/ShareCollectionDialog.tsx:55 | replaces the address |
| ShareCollectionDialog.ShareCollectionDialogView.CancelClick | components/collections/ShareCollectionDialog.tsx:62-68 | the Cancel button asks the parent to close the dialog and keeps the address |
| ShareCollectionDialog.ShareCollectionDialogView.HandleShare | components/collections/ShareCollectionDialog.tsx:22-40 | a blank address sends nothing; otherwise the trimmed address is sent; success clears the address and closes the dialog; failure keeps both; loading ends false |
| CollectionCard.IsOwner | components/collections/CollectionCard.tsx:33 | true exactly when the connected key equals `created_by` |
| CollectionCard.DescriptionText | components/collections/CollectionCard.tsx:70 | the description, or 'No description' when it is absent or empty |
| CollectionCard.DisplayedCount | components/collections/CollectionCard.tsx:77 | the number of items, or 0 when the list is absent; a count of 0 means no dataset is a member |
| CollectionCard.CollectionCardView.constructor | components/collections/CollectionCard.tsx:30-31 | dialog closed, not deleting |
| CollectionCard.CollectionCardView.DeleteControlShown | components/collections/CollectionCard.tsx:84 | the delete control shows exactly for the owner |
| CollectionCard.CollectionCardView.DialogButtonsDisabled | components/collections/CollectionCard.tsx:107-110 | both dialog buttons are disabled exactly while deleting |
| CollectionCard.CollectionCardView.TrashClick | components/collections/CollectionCard.tsx:84-88 | opens the confirmation only for the owner |
| CollectionCard.CollectionCardView.CancelClick | components/collections/CollectionCard.tsx:107 | closes the confirmation unless a delete is in flight |
| CollectionCard.CollectionCardView.BeginDelete | components/collections/CollectionCard.tsx:42-45 | deleting starts, the buttons are disabled, and one delete goes out |
| CollectionCard.CollectionCardView.SettleDelete | components/collections/CollectionCard.tsx:46-54 | only a success calls `onUpdate`; either way deleting ends and the dialog closes |
| CollectionCard.CollectionCardView.HandleDelete | components/collections/CollectionCard.tsx:42-55 | the whole delete: one request, `onUpdate` only on success, and afterwards not deleting and the dialog closed |
| Supabase.FileExtension | lib/supabase.ts:127 | a dot-free suffix of the name that is either the whole name or follows a '.' |
| Supabase.ExtensionUnique | lib/supabase.ts:127 | those properties determine the extension uniquely |
| Supabase.DotFreeSuffixesAgree | lib/supabase.ts:127 | two dot-free suffixes that each follow a '.' or span the name are equal |
| Supabase.ExtensionOfDotless | lib/supabase.ts:127 | a name without '.' is its own extension |
| Supabase.ExtensionAfterLastDot | lib/supabase.ts:127 | the extension of `base + "." + e` is `e` when `e` has no '.'; a trailing '.' gives '' |
| Supabase.StoragePath | lib/supabase.ts:128 | the path template: folder, '/', fresh name, '.', extension; `UploadPathInFolder` and `UploadPathKeepsExtension` prove its shape |
| Supabase.UploadPath | lib/supabase.ts:127-128 | the template applied to the file's extension; `UploadPathInFolder` proves the folder prefix and `UploadPathKeepsExtension` the extension |
| Supabase.UploadPathInFolder | lib/supabase.ts:128 | the storage path starts with the dataset id and '/' |
| Supabase.UploadPathKeepsExtension | lib/supabase.ts:127-128 | the storage path has the uploaded file's extension |
| Supabase.BytesToMB | lib/supabase.ts:153 | the nearest whole MiB, rounding a half up: `mb * 2^20 <= bytes + 2^19 < (mb + 1) * 2^20` |
| Supabase.BytesToMBNearest | lib/supabase.ts:153 | within half a MiB of the true size; whole MiB are exact; 2^19 - 1 bytes give 0 and 2^19 give 1 |
| Supabase.BytesToMBMonotone | lib/supabase.ts:153 | more bytes never round to fewer MiB |
| Supabase.RowFor | lib/supabase.ts:72-81 | the insert carries the given fields, size 0, likes 0, and no file URL |
| Supabase.Rethrown | lib/supabase.ts:117-121 | an `Error` is rethrown as it is; anything else becomes an `Error` with the fixed message |
| Supabase.CreateOutcome | lib/supabase.ts:52-123 | every failure is an `Error`; a probe error gives 'Connection error: ' + message; an insert error gives 'Failed to create dataset: ' + message; no returned row gives 'No data returned from database after insert'; rejections are rethrown through `Rethrown`; succeeds exactly with a clean probe and a returned row, which is the result |
| Supabase.WithFile | lib/supabase.ts:149-155 | the update filtered by `eq('id', datasetId)`: `WithFileChangesOneRow` proves only that row changes, and it gets the URL and the size |
| Supabase.WithFileChangesOneRow | lib/supabase.ts:149-155 | the update keeps the set of ids and every other row; the dataset's row, if present, gets the URL and the size |
| Supabase.Unstored | lib/supabase.ts:159 | the bucket after `remove([filePath])`: `UnstoredKeepsOthers` proves exactly that key goes, `RemovalRestores` that store then remove restores a fresh path |
| Supabase.UnstoredKeepsOthers | lib/supabase.ts:159 | removing a path drops exactly that key and keeps every other object |
| Supabase.RemovalRestores | lib/supabase.ts:157-161 | storing and then removing an object at a new path restores the bucket exactly |
| Supabase.Backend.constructor | lib/supabase.ts:7 | the given bucket and table, no inserts yet |
| Supabase.Backend.CreateDataset | lib/supabase.ts:52-123 | the result is `CreateOutcome`; the insert is sent only after a clean probe; a returned row is added to the table |
| Supabase.UploadResult | lib/supabase.ts:125-168 | succeeds exactly when the upload and the update both succeed and a URL came back, returning that URL; a failed upload rethrows its error; no URL throws 'Failed to get file URL'; a failed update rethrows its error, unless the cleanup removal itself rejected, whose rejection then propagates |
| Supabase.FailedUploadChangesNothing | lib/supabase.ts:130-136 | a failed upload leaves the bucket and the table unchanged and throws |
| Supabase.MissingUrlLeavesObject | lib/supabase.ts:138-145 | without a public URL the object stays in the bucket, the table is unchanged and 'Failed to get file URL' is thrown |
| Supabase.FailedUpdateRollsBack | lib/supabase.ts:147-161 | a failed update whose removal succeeds restores a bucket that did not hold the path, leaves the table unchanged and rethrows the update error |
| Supabase.SuccessRecordsReturnedUrl | lib/supabase.ts:147-163 | on success the object is stored and the URL returned is the one written to the dataset's row, with the size in MiB |
| Supabase.Backend.StoreAndRecord | lib/supabase.ts:130-163 | the result is `UploadResult`, the bucket becomes `StorageAfter` and the table `RowsAfter` of the backend's answers |
| Supabase.Backend.UploadDatasetFile | lib/supabase.ts:125-168 | the path is the dataset's folder, the fresh name and the file's extension; result, bucket and table are `UploadResult`, `StorageAfter` and `RowsAfter` |

## Left out

- Backend semantics: query ordering, row-level authorization, idempotent like toggles and unique membership rows are not modelled. Every call's outcome is a parameter. The thin wrappers `getDatasets`, `getDatasetById` and `likeDataset` (lib/supabase.ts:9-42) only rethrow the client's error.
- The helpers imported but not defined in the modelled files (`toggleLike`, `getLikedDatasets`, `addToCollection`, `getUserCollections` and the rest) appear only as entries in the `calls` logs.
- DatasetList.SortDatasets: the 'category' option is not modelled and keeps the input order. `localeCompare` depends on the locale, and the comparator is inconsistent for datasets with no tags.
- Dates are integer timestamps. `new Date(...).getTime()` and date formatting are not modelled.
- `toLowerCase` is modelled for ASCII letters only. `trim` uses the ASCII whitespace set plus NBSP, BOM and the line and paragraph separators. Full Unicode case mapping and the full whitespace set are not modelled.
- Utils.FormatAddress: `slice` counts characters here, not UTF-16 units. The two agree on wallet addresses, which are base58 text. `length` is counted in UTF-16 units only where a check depends on it (`UserProfile.Validate`).
- The username pattern `^[a-zA-Z0-9_-]+$` is a character-class predicate, not a regular-expression engine.
- `crypto.randomUUID` is a parameter of the upload. `Math.round` of a float is replaced by its exact integer formula for a non-negative byte count.
- Supabase.Backend.UploadDatasetFile: the upload path, which is a local in the source, is also returned, so that the contracts can name it.
- SearchBar.SearchBarView.LoadDatasets: a null result from `getDatasets` (the `data \|\| []` fallback) is not modelled, because `Reply` always carries a sequence.
- Toasts, `console` logging, routing (`router.push`, `router.refresh` and `router.back` are not modelled; only the `window.location.reload` after an upload in the dataset details page appears, as the `PageReloaded` event), JSX rendering and styling, and DOM event plumbing are not modelled. The DOM plumbing includes the click-outside handlers and the card click's `closest('button')` test. Whether the topic input holds the focus when a suggestion is clicked is a parameter of `TopicInput.TopicInputView.SuggestionClick`.
- The realtime profile subscription and the wallet adapter plumbing (components/WalletButton.tsx, components/providers/WalletProvider.tsx) are not modelled. They are I/O. CollectionsList only fetches and renders, so it is also out.
- Concurrency is not modelled: overlapping requests, stale closures and responses that arrive after unmount. Each handler runs to completion before the next one starts.
- CreateCollectionModal.CreateCollectionModalView.HandleSubmit: the handler itself does not check for a blank name. Only the disabled submit button prevents that, and the model keeps the handler as written.
- CollectionDetail.IsOwner: with no wallet and no collection, `undefined === undefined` makes the viewer the owner. The model keeps this.
- The mismatched type declarations (`topics` versus `category_tags`, the second `Dataset` type, `datasets` typed as `Dataset[]`) are not modelled. The records follow the shapes the components actually read.
