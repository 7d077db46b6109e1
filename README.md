# WhatsApp Business Tools dashboard — collection logic

This project models the deterministic logic behind the dashboard of
*whatsapp-business-tools*, a Next.js/React app for managing WhatsApp
accounts ("clients"), broadcast campaigns ("blasts"), account warming
sessions, a number checker, conversations, an address book, AI prompt
templates and notifications. Every data source of the app is a mock. What
the model captures is what the pages and the global store do with their
collections:

- the global store (`src/stores/appStore.ts`), with its add / update-by-id /
  remove-by-id actions, the flags and the `partialize` projection;
- the page handlers that change state step by step: starting, pausing,
  resuming, stopping and deleting warming sessions; the warming log;
  campaign creation; connecting and disconnecting clients; sending
  messages; marking notifications read; deleting prompt templates; the
  upload list and the drop zone;
- the pure projections: order-preserving search filters, distinct values,
  counts, sums, guarded percentages, the star rating, the time labels, the
  badge, and the active sidebar entry;
- the small parsers: line splitting of the bulk number box, first-column
  CSV import, CSV export rows, file acceptance, and the address form's
  cleanup of empty strings to null.

One module per source file:

| module | source |
|---|---|
| `Types` | `src/types/index.ts`, `src/types/ai.ts` |
| `AppStore` | `src/stores/appStore.ts` |
| `WhatsAppWarmer` | `src/components/pages/WhatsAppWarmer.tsx` |
| `WarmerProgressTable` | `src/components/ui/warmer-progress-table.tsx` |
| `AddressBook` | `src/components/pages/AddressBook.tsx` |
| `AddressForm` | `src/components/address/AddressForm.tsx` |
| `UseFileUpload` | `src/hooks/useFileUpload.ts` |
| `FileUpload` | `src/components/ui/file-upload.tsx` |
| `NumberChecker` | `src/components/pages/NumberCheck.tsx` |
| `WhatsAppBlast` | `src/components/pages/WhatsAppBlast.tsx` |
| `ClientManagement` | `src/components/pages/ClientManagement.tsx` |
| `Conversations` | `src/components/pages/Conversations.tsx` |
| `NotificationCenter` | `src/components/ui/notification-center.tsx` |
| `AIPromptManager` | `src/components/ai/AIPromptManager.tsx` |
| `AppSidebar` | `src/components/layout/AppSidebar.tsx` |
| `Seqs`, `Text`, `Csv` | the JavaScript array and string methods the pages use |

State that a component keeps with `useState` or the store keeps with `set`
is a field of a class, and each handler is a method whose `modifies` clause
names the fields it replaces. The new value of a field is stated through a
function on the old state (`UpdatedById`, `RemovedById`, `Filter`,
`MarkedRead`, …), and the lemmas are stated about those functions. The
seeding of an empty store with samples (the campaign and client pages'
effects, which run on mount and whenever the number of campaigns or clients
changes, and the address book's `useState` initializer, which runs on the
first render) is a `for` loop of store additions. The
`forEach` of `handleFiles` in the drop-zone hook is a `while` loop whose
invariants tie it to the recursive definitions of the accepted and rejected
files. Random outcomes,
clocks, the failure of a simulated request and the
mock fixtures are parameters.

## Model

| member | source | states |
|---|---|---|
| AppStore.UpdatedById | src/stores/appStore.ts:87-91 | `update*`: the length is kept, every element with the id is the merge of itself and the patch, and every other element is unchanged |
| AppStore.RemovedById | src/stores/appStore.ts:92-94 | `remove*`: the result holds exactly the elements without the id, as an order-preserving subsequence |
| AppStore.UpdateAbsent | src/stores/appStore.ts:87-91 | updating an id no element carries leaves the collection unchanged |
| AppStore.UpdateIdempotent | src/stores/appStore.ts:105-109 | with an idempotent update, updating twice equals updating once |
| AppStore.RemoveIdempotent | src/stores/appStore.ts:110-112 | removing twice equals removing once |
| AppStore.RemoveAbsent | src/stores/appStore.ts:136-138 | removing an absent id changes nothing |
| AppStore.RemoveCount | src/stores/appStore.ts:149-151 | survivors plus removed elements number the whole collection |
| AppStore.RemoveAfterAdd | src/stores/appStore.ts:97-99 | adding an entity and removing its id equals just removing the id |
| AppStore.FindAfterAdd | src/stores/appStore.ts:84-86 | after adding an entity with a new id, looking up that id finds it |
| AppStore.Store.constructor | src/stores/appStore.ts:63-76 | the initial state: not loading, theme "system", sidebar open, empty collections, and the mock addresses and AI fixtures |
| AppStore.Store.SetLoading | src/stores/appStore.ts:79 | sets `isLoading` and leaves the persisted projection unchanged |
| AppStore.Store.SetTheme | src/stores/appStore.ts:80 | sets the theme and nothing else |
| AppStore.Store.ToggleSidebar | src/stores/appStore.ts:81 | negates `sidebarCollapsed` and nothing else |
| AppStore.Store.AddClient | src/stores/appStore.ts:84-86 | appends the client; no other field changes |
| AppStore.Store.UpdateClient | src/stores/appStore.ts:87-91 | the clients become `UpdatedById` with the spread merge |
| AppStore.Store.RemoveClient | src/stores/appStore.ts:92-94 | the clients become `RemovedById` of the id |
| AppStore.Store.AddCampaign | src/stores/appStore.ts:97-99 | appends the campaign |
| AppStore.Store.DeleteCampaign | src/stores/appStore.ts:101-103 | the same effect as `removeCampaign` |
| AppStore.Store.UpdateCampaign | src/stores/appStore.ts:105-109 | merges the patch into the campaigns with the id |
| AppStore.Store.RemoveCampaign | src/stores/appStore.ts:110-112 | drops the campaigns with the id |
| AppStore.Store.AddTemplate | src/stores/appStore.ts:115-117 | appends the template |
| AppStore.Store.UpdateTemplate | src/stores/appStore.ts:118-122 | merges the patch into the templates with the id |
| AppStore.Store.RemoveTemplate | src/stores/appStore.ts:123-125 | drops the templates with the id |
| AppStore.Store.AddWarmerSession | src/stores/appStore.ts:128-130 | appends the session |
| AppStore.Store.UpdateWarmerSession | src/stores/appStore.ts:131-135 | merges the patch into the sessions with the id |
| AppStore.Store.DeleteWarmerSession | src/stores/appStore.ts:136-138 | drops the sessions with the id |
| AppStore.Store.AddAddress | src/stores/appStore.ts:141-143 | appends the address |
| AppStore.Store.UpdateAddress | src/stores/appStore.ts:144-148 | merges the patch into the addresses with the id |
| AppStore.Store.RemoveAddress | src/stores/appStore.ts:149-151 | drops the addresses with the id |
| AppStore.PartializeExactly | src/stores/appStore.ts:155-163 | two stores persist the same thing exactly when they agree on theme, sidebar flag and the five persisted collections; loading, conversations and AI fields never matter |
| AppStore.ToggleTwice | src/stores/appStore.ts:81 | two toggles restore the sidebar flag |
| AppStore.UpdateClientStatus | src/stores/appStore.ts:87-91 | a status patch changes exactly the status of the clients with that id |
| Types.MergeClientLaws | src/types/index.ts:3-14 | the spread merge of a partial client is idempotent, the empty patch is the identity, every key the patch holds wins, and the id survives a patch without an id |
| Types.MergeCampaignLaws | src/types/index.ts:16-27 | for campaigns: idempotent, the empty patch is the identity, every key the patch holds wins, the id survives a patch without an id |
| Types.MergeTemplateLaws | src/types/index.ts:46-53 | for message templates: idempotent, the empty patch is the identity, every key the patch holds wins, the id survives a patch without an id |
| Types.MergeSessionLaws | src/types/index.ts:55-64 | for warmer sessions: idempotent, the empty patch is the identity, every key the patch holds wins, the id survives a patch without an id |
| Types.MergeAddressLaws | src/types/index.ts:120-145 | for addresses: idempotent, the empty patch `{}` is the identity, every key the patch holds wins, the id survives a patch without an id, and a complete patch replaces the address |
| WhatsAppWarmer.AsWrittenSessionIdCollides | src/components/pages/WhatsAppWarmer.tsx:110 | with sessions "1" and "2", deleting "1" and starting hands out "2" again |
| WhatsAppWarmer.MaxNumericId | src/components/pages/WhatsAppWarmer.tsx:110 | bounds every numeric session id |
| WhatsAppWarmer.FreshSessionId | src/components/pages/WhatsAppWarmer.tsx:110 | the corrected id differs from every existing session's id |
| WhatsAppWarmer.FreshSessionIdOnSamples | src/components/pages/WhatsAppWarmer.tsx:110 | on the two sample sessions the corrected id is "3", as the page's |
| WhatsAppWarmer.Transitions | src/components/pages/WhatsAppWarmer.tsx:525-568 | the reachable status changes are exactly active→paused, active→completed, paused→active and paused→completed; a completed session has no control |
| WhatsAppWarmer.ActiveSessions | src/components/pages/WhatsAppWarmer.tsx:182 | at most the number of sessions |
| WhatsAppWarmer.AvgDurationBounds | src/components/pages/WhatsAppWarmer.tsx:184-187 | the mean duration is 0 with no sessions and lies within any bounds on the durations |
| WhatsAppWarmer.StartStatistics | src/components/pages/WhatsAppWarmer.tsx:109-122 | a started session adds one active session and no messages |
| WhatsAppWarmer.TargetChoices | src/components/pages/WhatsAppWarmer.tsx:244-246 | the targets offered are exactly the connected clients other than the source, in order |
| WhatsAppWarmer.TargetChoiceEnablesStart | src/components/pages/WhatsAppWarmer.tsx:290-294 | any offered target with a chosen source enables the start button |
| WhatsAppWarmer.WarmerPage.constructor | src/components/pages/WhatsAppWarmer.tsx:55-63 | the page starts from the sample sessions with nothing selected or expanded |
| WhatsAppWarmer.WarmerPage.StartSession | src/components/pages/WhatsAppWarmer.tsx:107-124 | with source and target set and different, appends an active session with zero messages and clears the selection; otherwise changes nothing |
| WhatsAppWarmer.WarmerPage.PauseSession | src/components/pages/WhatsAppWarmer.tsx:126-134 | only the sessions with the id become paused |
| WhatsAppWarmer.WarmerPage.ResumeSession | src/components/pages/WhatsAppWarmer.tsx:136-148 | only the sessions with the id become active, with refreshed last activity |
| WhatsAppWarmer.WarmerPage.StopSession | src/components/pages/WhatsAppWarmer.tsx:150-158 | only the sessions with the id become completed |
| WhatsAppWarmer.WarmerPage.DeleteSession | src/components/pages/WhatsAppWarmer.tsx:160-168 | the session is removed and its id leaves the expanded set |
| WhatsAppWarmer.WarmerPage.ToggleSessionExpansion | src/components/pages/WhatsAppWarmer.tsx:170-180 | flips membership of the one id |
| Seqs.ToggledTwice | src/components/pages/WhatsAppWarmer.tsx:170-180 | two toggles of the same id are the identity |
| WhatsAppWarmer.ControlEffect | src/components/pages/WhatsAppWarmer.tsx:126-158 | a control changes only the status of the matching session, to the status it names, keeping its clients and count |
| WarmerProgressTable.PrependCapped | src/components/ui/warmer-progress-table.tsx:93 | the new message comes first, the old log follows, and the length is capped at 100 |
| WarmerProgressTable.NewMessageEndpoints | src/components/ui/warmer-progress-table.tsx:84-91 | a generated message goes between the two clients, and is `sent` exactly when it comes from the source client |
| WarmerProgressTable.ElapsedMinutes | src/components/ui/warmer-progress-table.tsx:118-120 | the floor of the elapsed milliseconds over 60000 |
| WarmerProgressTable.ProgressPercentage | src/components/ui/warmer-progress-table.tsx:121 | never above 100; 100 once the duration has passed; undefined (NaN) only for a zero duration and no elapsed time |
| WarmerProgressTable.MessagesPerHour | src/components/ui/warmer-progress-table.tsx:122-125 | 0 before a full minute, otherwise the rate per hour rounded half up |
| WarmerProgressTable.MessagesPerHourNonNegative | src/components/ui/warmer-progress-table.tsx:122-125 | a non-negative count gives a non-negative rate |
| WarmerProgressTable.DisplayWindow | src/components/ui/warmer-progress-table.tsx:290 | the shown rows are a prefix of the log of at most 20 entries |
| WarmerProgressTable.OverflowNoteIffTruncated | src/components/ui/warmer-progress-table.tsx:341-345 | the "Showing 20 of N" note appears exactly when rows are left out |
| WarmerProgressTable.ProgressTable.constructor | src/components/ui/warmer-progress-table.tsx:73-75 | the log and counter start from the props |
| WarmerProgressTable.ProgressTable.Tick | src/components/ui/warmer-progress-table.tsx:78-100 | only an active session with a firing tick prepends a message and adds exactly 1 to the counter; the 100-entry bound is kept |
| WarmerProgressTable.ProgressTable.HandleDelete | src/components/ui/warmer-progress-table.tsx:127-130 | reports the card's own session id when a handler is present, and closes the dialog |
| AddressBook.FilteredAddresses | src/components/pages/AddressBook.tsx:62-80 | exactly the addresses matching the search and all three filters, in order |
| AddressBook.UnfilteredListsAll | src/components/pages/AddressBook.tsx:64-78 | an empty search with every filter on "all" lists every address |
| AddressBook.SearchCaseSensitivity | src/components/pages/AddressBook.tsx:65-68 | the name search ignores case, the phone search does not |
| AddressBook.UniqueValues | src/components/pages/AddressBook.tsx:82-90 | exactly the non-empty values, each once |
| AddressBook.UniqueValuesOrder | src/components/pages/AddressBook.tsx:82-90 | the values come in first-occurrence order |
| AddressBook.UniqueCitiesSpec | src/components/pages/AddressBook.tsx:82-85 | every offered city is the non-empty city of some address and each appears once |
| AddressBook.BusinessCount | src/components/pages/AddressBook.tsx:374 | at most the number of addresses |
| AddressBook.MessagedCount | src/components/pages/AddressBook.tsx:387 | at most the number of addresses |
| AddressBook.MessagedCountLaws | src/components/pages/AddressBook.tsx:228-239 | contacted (the card at line 387) plus not-yet-contacted is every address; adding an entry raises the count by one exactly when the form marked it as messaged |
| AddressBook.BusinessCountMatchesFilter | src/components/pages/AddressBook.tsx:374 | the business card counts what the "business" filter lists; with the "individual" filter they add up to all |
| AddressBook.AverageRating | src/components/pages/AddressBook.tsx:400-407 | no average (the card's "0") exactly when no address has a truthy rating |
| AddressBook.AverageRatingBounds | src/components/pages/AddressBook.tsx:400-407 | with ratings in 0 to 5 the average lies in 0 to 5 |
| AddressBook.UnratedEntryKeepsAverage | src/components/pages/AddressBook.tsx:400-407 | an entry without a truthy rating does not move the average |
| AddressBook.ExportFields | src/components/pages/AddressBook.tsx:264-272 | one field per header column |
| AddressBook.HeaderRow | src/components/pages/AddressBook.tsx:254-263 | the header is one line that splits into the seven column names |
| AddressBook.ExportLines | src/components/pages/AddressBook.tsx:253-274 | the exported document splits at line breaks into exactly its header line and address lines, when no value holds a line break |
| AddressBook.ExportShape | src/components/pages/AddressBook.tsx:253-276 | the export reads back as the 7-column header plus one line per listed address, with each line's fields |
| AddressBook.EditStampsOnlyThatEntry | src/components/pages/AddressBook.tsx:241-251 | an edit stamps `updatedAt` on the edited entry only, keeping its id |
| AddressBook.AddressBookPage.constructor | src/components/pages/AddressBook.tsx:51-53 | the page starts with the form closed and nothing being edited |
| AddressBook.AddressBookPage.SeedIfEmpty | src/components/pages/AddressBook.tsx:55-60 | the first-render initializer: an empty store receives the sample addresses in order; a non-empty one is kept |
| AddressBook.AddressBookPage.HandleAddAddress | src/components/pages/AddressBook.tsx:228-239 | appends the new address and closes the form |
| AddressBook.AddressBookPage.HandleUpdateAddress | src/components/pages/AddressBook.tsx:241-251 | does nothing without an entry being edited; otherwise merges the stamped patch into that id |
| Text.NullIfEmpty | src/components/address/AddressForm.tsx:121-132 | null exactly for unset or empty text, otherwise the text itself |
| AddressForm.Cleanup | src/components/address/AddressForm.tsx:121-122 | no empty optional text remains, and every other field passes through |
| AddressForm.CleanupFields | src/components/address/AddressForm.tsx:121-132 | each of the nine fields becomes null exactly when unset or empty, and is kept otherwise |
| AddressForm.CleanupFixedPoints | src/components/address/AddressForm.tsx:121-132 | the cleanup is idempotent, and changes a form exactly when it holds an empty text |
| AddressForm.CleanupKeepsValid | src/components/address/AddressForm.tsx:29-56 | cleaning a form that passes the schema keeps it passing |
| AddressForm.NewEntryDefaults | src/components/address/AddressForm.tsx:92-111 | a new entry defaults to Indonesia, not a business, not messaged, and fails the schema for its empty name |
| AddressForm.EditRoundTrip | src/components/address/AddressForm.tsx:92-111 | editing an entry and submitting it unchanged gives back its values, except that empty texts become null, an unset country becomes Indonesia and a zero rating, review count, latitude or longitude becomes unset |
| AddressForm.Form.constructor | src/components/address/AddressForm.tsx:88 | the form is not submitting |
| AddressForm.Form.HandleSubmit | src/components/address/AddressForm.tsx:117-138 | hands the cleaned data on, and the submitting flag is down afterwards |
| UseFileUpload.Extension | src/hooks/useFileUpload.ts:56 | starts with a dot |
| UseFileUpload.ExtensionSpec | src/hooks/useFileUpload.ts:56 | "." plus the lower-cased text after the last dot; the whole name when there is no dot |
| UseFileUpload.ExactEntry | src/hooks/useFileUpload.ts:57-67 | an exact MIME entry accepts exactly the files whose extension it lists |
| UseFileUpload.WildcardEntry | src/hooks/useFileUpload.ts:57-67 | a wildcard entry accepts every file with the same base type |
| UseFileUpload.RejectionOf | src/hooks/useFileUpload.ts:69-81 | at most one rejection per file, none exactly when it passes |
| UseFileUpload.AcceptedIsFilter | src/hooks/useFileUpload.ts:69-81 | the accepted files are the passing files in input order |
| UseFileUpload.Partition | src/hooks/useFileUpload.ts:69-81 | every file lands in exactly one list: the counts add up and each rejection names a failing file |
| UseFileUpload.EmptyAcceptRejectsAll | src/hooks/useFileUpload.ts:17 | with the default empty map every file is rejected for its type |
| UseFileUpload.SizeBoundaryAndOrder | src/hooks/useFileUpload.ts:69-81 | a file of exactly the maximum size passes; the type test comes before the size test |
| UseFileUpload.DropZone.constructor | src/hooks/useFileUpload.ts:17-22 | the hook's options, no highlight and no rejections |
| UseFileUpload.DropZone.HandleFiles | src/hooks/useFileUpload.ts:42-91 | too many files: exactly one rejection for the first file and no drop; otherwise the rejections are replaced only when there are new ones, and the accepted files are dropped only when non-empty |
| UseFileUpload.DropZone.HandleDrop | src/hooks/useFileUpload.ts:93-104 | the highlight is off and old rejections are cleared before the files are handled |
| UseFileUpload.DropZone.HandleChange | src/hooks/useFileUpload.ts:106-114 | old rejections are cleared before the files are handled |
| FileUpload.DefaultAcceptsCsv | src/components/ui/file-upload.tsx:32-39 | the widget's defaults accept a CSV file |
| FileUpload.DefaultSizeLimit | src/components/ui/file-upload.tsx:32-39 | under the defaults a CSV file passes exactly when it is at most 5 MB |
| FileUpload.DropWithDefaults | src/components/ui/file-upload.tsx:83-88 | with the widget's defaults two or more files are refused as too many, and a single file is handed on exactly when it passes, otherwise its own rejection is shown |
| FileUpload.Advance | src/components/ui/file-upload.tsx:56-63 | a tick adds 10 and never passes 100 |
| FileUpload.TicksComplete | src/components/ui/file-upload.tsx:56-63 | enough ticks reach 100 |
| FileUpload.IterateAtCap | src/components/ui/file-upload.tsx:56-63 | ticks on a finished upload change nothing |
| FileUpload.UploadList.constructor | src/components/ui/file-upload.tsx:42 | the list starts empty |
| FileUpload.UploadList.OnDrop | src/components/ui/file-upload.tsx:46-54 | appends each file with progress 0 and status uploading |
| FileUpload.UploadList.Tick | src/components/ui/file-upload.tsx:56-63 | advances only the entries of that file, keeping progress within 100 |
| FileUpload.UploadList.Complete | src/components/ui/file-upload.tsx:66-76 | sets that file's entries to 100 and success, and reports exactly that file |
| FileUpload.UploadList.RemoveFile | src/components/ui/file-upload.tsx:90-92 | removes only that file's entries, keeping the rest in order |
| NumberChecker.TrimmedLine | src/components/pages/NumberCheck.tsx:82 | a trimmed filled line is non-empty and adds no character |
| NumberChecker.BulkNumbersShape | src/components/pages/NumberCheck.tsx:74-82 | every bulk number is non-empty, trimmed and on one line |
| NumberChecker.BulkNumbersOfLines | src/components/pages/NumberCheck.tsx:74-82 | trimmed lines joined with line breaks come back as they were |
| NumberChecker.FilledInputHasNumbers | src/components/pages/NumberCheck.tsx:72-75 | a non-blank input always yields a number |
| NumberChecker.ImportedValuesShape | src/components/pages/NumberCheck.tsx:108-112 | each imported value is filled and free of commas and line breaks |
| NumberChecker.ImportThenBulk | src/components/pages/NumberCheck.tsx:108-112 | the bulk check of imported text checks exactly the imported values, trimmed |
| NumberChecker.HeaderIsOneLine | src/components/pages/NumberCheck.tsx:119-120 | the header is one line of the five column names |
| NumberChecker.ExportFieldsSafe | src/components/pages/NumberCheck.tsx:121-127 | five fields, each free of commas and line breaks when the result's texts are |
| NumberChecker.ExportLines | src/components/pages/NumberCheck.tsx:118-130 | the export splits at line breaks into the header and one row per result, in order |
| NumberChecker.ExportShape | src/components/pages/NumberCheck.tsx:118-136 | the export reads back as the header plus one five-field line per result, a missing error written as "" |
| NumberChecker.ImportRows | src/components/pages/NumberCheck.tsx:108-112 | the import of a document reads its rows' first fields |
| NumberChecker.ExportThenImport | src/components/pages/NumberCheck.tsx:108-127 | importing an export gives back the phone numbers in order |
| NumberChecker.ValidCount | src/components/pages/NumberCheck.tsx:138 | at most the number of results |
| NumberChecker.WhatsAppCount | src/components/pages/NumberCheck.tsx:139 | at most the number of results |
| NumberChecker.ErrorCount | src/components/pages/NumberCheck.tsx:140 | at most the number of results |
| NumberChecker.CountsOfPrepend | src/components/pages/NumberCheck.tsx:65 | prepending results adds their counts |
| NumberChecker.Percent | src/components/pages/NumberCheck.tsx:181-183 | 0 for a zero denominator, otherwise part over whole in percent rounded half up |
| NumberChecker.RatesInRange | src/components/pages/NumberCheck.tsx:181-217 | the success and failure rates lie in 0 to 100 and are 0 with no results; the WhatsApp share is 0 with no valid result |
| NumberChecker.WhatsAppShareCanExceedHundred | src/components/pages/NumberCheck.tsx:199-201 | a number can count for WhatsApp without being valid, so the share can read 200 |
| NumberChecker.ShownResults | src/components/pages/NumberCheck.tsx:365 | a prefix of at most 10 results |
| NumberChecker.MoreNoteIffTruncated | src/components/pages/NumberCheck.tsx:438-445 | the note appears exactly when results are left out |
| NumberChecker.BulkChecks | src/components/pages/NumberCheck.tsx:81-93 | one result per number, in input order |
| NumberChecker.Page.constructor | src/components/pages/NumberCheck.tsx:39-42 | the page starts from its sample results with empty inputs |
| NumberChecker.Page.HandleSingleCheck | src/components/pages/NumberCheck.tsx:44-69 | a blank input does nothing; otherwise the result for the untrimmed input is prepended and the input cleared |
| NumberChecker.Page.HandleBulkCheck | src/components/pages/NumberCheck.tsx:71-99 | a blank input does nothing; otherwise the results go before the existing ones in input order |
| NumberChecker.Page.HandleFileUpload | src/components/pages/NumberCheck.tsx:101-116 | the bulk box receives the imported numbers; no file, no change |
| WhatsAppBlast.FilteredCampaigns | src/components/pages/WhatsAppBlast.tsx:100-102 | exactly the campaigns whose name contains the term ignoring case, in order |
| WhatsAppBlast.EmptySearchListsAll | src/components/pages/WhatsAppBlast.tsx:100-102 | the empty search lists every campaign |
| WhatsAppBlast.DefaultFormInvalid | src/components/pages/WhatsAppBlast.tsx:67-90 | the blank form fails the schema |
| WhatsAppBlast.ActiveCampaigns | src/components/pages/WhatsAppBlast.tsx:217-219 | at most the number of campaigns, 0 exactly when none runs |
| WhatsAppBlast.DeliveryRateBounds | src/components/pages/WhatsAppBlast.tsx:225 | 0 with nothing sent, and a percentage when every campaign's stats are sane |
| WhatsAppBlast.Progress | src/components/pages/WhatsAppBlast.tsx:579-585 | 0 for an empty campaign, a percentage for sane stats |
| WhatsAppBlast.SampleProgress | src/components/pages/WhatsAppBlast.tsx:579-585 | 487 of 500 sent reads 97.4 percent |
| WhatsAppBlast.NewCampaignAddsNothing | src/components/pages/WhatsAppBlast.tsx:157-178 | a created campaign is a draft with no targets and zero stats for the chosen clients, and leaves all four cards as they were |
| WhatsAppBlast.BlastPage.constructor | src/components/pages/WhatsAppBlast.tsx:78-90 | the dialog closed, no search, the default form |
| WhatsAppBlast.BlastPage.SeedIfEmpty | src/components/pages/WhatsAppBlast.tsx:94-98 | each run of the effect (on mount and whenever the number of campaigns changes): an empty store receives the samples in order; a non-empty one is kept |
| WhatsAppBlast.BlastPage.Submit | src/components/pages/WhatsAppBlast.tsx:151-189 | an invalid form does nothing; otherwise the campaign is appended (unless the request fails) and the loading flag is down afterwards |
| WhatsAppBlast.BlastPage.HandleTemplateSelect | src/components/pages/WhatsAppBlast.tsx:144-149 | the message becomes the first matching template's content; an unknown id changes nothing |
| WhatsAppBlast.BlastPage.HandleDeleteCampaign | src/components/pages/WhatsAppBlast.tsx:195-203 | the campaign leaves the store and the expanded set |
| WhatsAppBlast.BlastPage.ToggleCampaignExpansion | src/components/pages/WhatsAppBlast.tsx:205-215 | flips membership of the one id |
| ClientManagement.FilteredClients | src/components/pages/ClientManagement.tsx:52-56 | exactly the clients whose name or phone contains the term ignoring case, in order |
| ClientManagement.EmptySearchListsAll | src/components/pages/ClientManagement.tsx:52-56 | the empty search lists every client |
| ClientManagement.StarCount | src/components/pages/ClientManagement.tsx:100-110 | 0 to 5 stars for a rating of 0 to 100 |
| ClientManagement.Stars | src/components/pages/ClientManagement.tsx:100-110 | five slots |
| ClientManagement.StarCountMonotone | src/components/pages/ClientManagement.tsx:100-110 | a higher rating never shows fewer stars |
| ClientManagement.StarsLayout | src/components/pages/ClientManagement.tsx:100-110 | exactly the stars with index below the count are filled |
| ClientManagement.StarRounding | src/components/pages/ClientManagement.tsx:100-110 | 90 shows 5, 89 shows 4, 10 shows 1, 9 shows 0 |
| ClientManagement.ConnectedCount | src/components/pages/ClientManagement.tsx:134 | at most the number of clients |
| ClientManagement.TotalsWithinLimit | src/components/pages/ClientManagement.tsx:135-142 | with every client within its limit, the total sent is within the total limit |
| ClientManagement.DisconnectAggregates | src/components/pages/ClientManagement.tsx:120-142 | a disconnect keeps both totals and leaves connected exactly the clients connected under another id, so the count drops by the number of connected clients with that id |
| ClientManagement.ActionFor | src/components/pages/ClientManagement.tsx:321-358 | disconnect exactly for connected, show QR exactly for scanning, connect otherwise |
| ClientManagement.ClientPage.constructor | src/components/pages/ClientManagement.tsx:36-42 | no dialog, no selection, no search |
| ClientManagement.ClientPage.SeedIfEmpty | src/components/pages/ClientManagement.tsx:45-49 | each run of the effect (on mount and whenever the number of clients changes): an empty store receives the samples in order; a non-empty one is kept |
| ClientManagement.ClientPage.HandleConnect | src/components/pages/ClientManagement.tsx:112-118 | the QR dialog opens on the first client with the id, and only when there is one |
| ClientManagement.ClientPage.HandleDisconnect | src/components/pages/ClientManagement.tsx:120-132 | only that client becomes disconnected (unless the request fails), and loading is down afterwards |
| ClientManagement.DisconnectThenConnect | src/components/pages/ClientManagement.tsx:120-132 | after a disconnect the client's row offers to connect |
| Conversations.FilteredConversations | src/components/pages/Conversations.tsx:57-61 | exactly the conversations whose name contains the term ignoring case or whose number contains it as typed, in order |
| Conversations.EmptySearchListsAll | src/components/pages/Conversations.tsx:57-61 | the empty search lists every conversation |
| Conversations.NumberSearchIsExact | src/components/pages/Conversations.tsx:57-61 | the number search is case-sensitive, the name search is not |
| Conversations.ChatMessages | src/components/pages/Conversations.tsx:208-211 | exactly the messages of that conversation, in order |
| Conversations.SentMessageShowsInItsChat | src/components/pages/Conversations.tsx:75-86 | a sent message ends its own chat and leaves every other chat unchanged |
| Conversations.ConversationsPage.constructor | src/components/pages/Conversations.tsx:28-54 | the first conversation selected, empty input |
| Conversations.ConversationsPage.HandleSendMessage | src/components/pages/Conversations.tsx:67-93 | a blank message or no selection does nothing; otherwise an outgoing text message is appended and the input cleared; sending is false afterwards |
| NotificationCenter.UnreadCount | src/components/ui/notification-center.tsx:75 | at most the number of notifications, 0 exactly when all are read |
| NotificationCenter.BadgeLabel | src/components/ui/notification-center.tsx:125-131 | hidden at 0, the digit for 1 to 9, "9+" above |
| NotificationCenter.MarkedRead | src/components/ui/notification-center.tsx:92-96 | marking read never raises the unread count |
| NotificationCenter.MarkAsReadIdempotent | src/components/ui/notification-center.tsx:92-96 | marking twice is marking once |
| NotificationCenter.AllMarkedRead | src/components/ui/notification-center.tsx:98-101 | the same notifications, all read, unread count 0 |
| NotificationCenter.Minutes | src/components/ui/notification-center.tsx:110 | the floor of the difference over 60000 |
| NotificationCenter.Hours | src/components/ui/notification-center.tsx:111 | the floor of the difference over 3600000 |
| NotificationCenter.FormatTimeBands | src/components/ui/notification-center.tsx:107-118 | "Just now" under a minute, "Nm ago" under an hour, "Nh ago" under a day, the date otherwise |
| NotificationCenter.FormatTimeSamples | src/components/ui/notification-center.tsx:107-118 | five minutes reads "5m ago", two hours "2h ago" |
| NotificationCenter.NotificationList.constructor | src/components/ui/notification-center.tsx:38-73 | the sample notifications, closed |
| NotificationCenter.NotificationList.MarkAsRead | src/components/ui/notification-center.tsx:92-96 | only the notifications with the id become read |
| NotificationCenter.NotificationList.MarkAllAsRead | src/components/ui/notification-center.tsx:98-101 | all read, the badge hidden |
| NotificationCenter.NotificationList.RemoveNotification | src/components/ui/notification-center.tsx:103-105 | drops the id, keeps the rest in order, never raises the unread count |
| AIPromptManager.FilteredTemplates | src/components/ai/AIPromptManager.tsx:46-53 | exactly the templates whose name or description contains the term and whose category matches, in order |
| AIPromptManager.UnfilteredListsAll | src/components/ai/AIPromptManager.tsx:46-53 | no search and every category lists every template |
| AIPromptManager.CategoryNarrowsSearch | src/components/ai/AIPromptManager.tsx:46-53 | choosing a category filters the search result further |
| AIPromptManager.EmptyStateIffNoMatch | src/components/ai/AIPromptManager.tsx:281 | the empty state appears exactly when no template matches |
| AIPromptManager.PromptManager.constructor | src/components/ai/AIPromptManager.tsx:37-44 | the preview flag, the samples, no search, every category |
| AIPromptManager.PromptManager.HandleUseTemplate | src/components/ai/AIPromptManager.tsx:66-70 | a notice naming the template, none in preview mode |
| AIPromptManager.PromptManager.HandleCopyTemplate | src/components/ai/AIPromptManager.tsx:72-77 | the prompt is copied, nothing in preview mode |
| AIPromptManager.PromptManager.HandleDeleteTemplate | src/components/ai/AIPromptManager.tsx:79-84 | only the templates with the id go; nothing in preview mode |
| AppSidebar.NavClass | src/components/layout/AppSidebar.tsx:69-73 | the active class exactly when the entry is active |
| AppSidebar.ClientSubPage | src/components/layout/AppSidebar.tsx:64-67 | under "/dashboard/client/" the client entry is active and the dashboard entry is not |
| AppSidebar.UrlShape | src/components/layout/AppSidebar.tsx:30-58 | every entry from the third on lies under "/dashboard/" |
| AppSidebar.UrlsDiffer | src/components/layout/AppSidebar.tsx:30-58 | any two entries other than the dashboard differ at a common position |
| AppSidebar.UrlsDoNotNest | src/components/layout/AppSidebar.tsx:30-58 | apart from the dashboard, no entry's URL starts another's |
| AppSidebar.DashboardExclusive | src/components/layout/AppSidebar.tsx:65 | on "/dashboard" no other entry is active |
| AppSidebar.AtMostOneActive | src/components/layout/AppSidebar.tsx:64-67 | for every path at most one entry is highlighted |

Specification functions with no contract of their own are stated by the
rows above, as follows:
- `AppSidebar.IsActive` (AppSidebar.tsx:64-67): `NavClass`, `ClientSubPage`, `DashboardExclusive`, `AtMostOneActive`.
- `ClientManagement.TotalSentToday` and `TotalDailyLimit` (ClientManagement.tsx:135-142): `TotalsWithinLimit`, `DisconnectAggregates`.
- `ClientManagement.AfterDisconnect` (ClientManagement.tsx:125): `DisconnectAggregates`, `ClientPage.HandleDisconnect`, `DisconnectThenConnect`.
- `Conversations.OutgoingMessage` (Conversations.tsx:75-83): `SentMessageShowsInItsChat`, `ConversationsPage.HandleSendMessage`.
- `NotificationCenter.FormatTime` (notification-center.tsx:107-118): `FormatTimeBands`, `FormatTimeSamples`.
- `NumberChecker.BulkNumbers` (NumberCheck.tsx:74, 82): `BulkNumbersShape`, `BulkNumbersOfLines`, `FilledInputHasNumbers`, `Page.HandleBulkCheck`.
- `NumberChecker.ImportedValues` and `ImportedNumbers` (NumberCheck.tsx:108-112): `ImportedValuesShape`, `ImportRows`, `ImportThenBulk`, `ExportThenImport`, `Page.HandleFileUpload`.
- `NumberChecker.ExportCsv` (NumberCheck.tsx:118-127): `ExportLines`, `ExportShape`, `ExportThenImport`.
- `NumberChecker.SuccessRate`, `WhatsAppShare` and `FailureRate` (NumberCheck.tsx:181-217): `Percent`, `RatesInRange`, `WhatsAppShareCanExceedHundred`.
- `AddressBook.UniqueCities` and `UniqueStatuses` (AddressBook.tsx:82-90): `UniqueValues`, `UniqueValuesOrder`, `UniqueCitiesSpec`.
- `AddressBook.ExportCsv` (AddressBook.tsx:253-276): `ExportLines`, `ExportShape`.
- `AddressBook.NewAddress` and `EditPatch` (AddressBook.tsx:228-251): `AddressBookPage.HandleAddAddress`, `AddressBookPage.HandleUpdateAddress`, `EditStampsOnlyThatEntry`.
- `WhatsAppBlast.ValidForm` (WhatsAppBlast.tsx:67-73): `DefaultFormInvalid`, `BlastPage.Submit`.
- `WhatsAppBlast.NewCampaign` (WhatsAppBlast.tsx:157-178): `NewCampaignAddsNothing`, `BlastPage.Submit`.
- `WhatsAppBlast.TotalSent`, `TotalDelivered` and `DeliveryRate` (WhatsAppBlast.tsx:220-225): `DeliveryRateBounds`, `NewCampaignAddsNothing`.
- `WhatsAppWarmer.CanStart` (WhatsAppWarmer.tsx:108): `TargetChoiceEnablesStart`, `WarmerPage.StartSession`.
- `WhatsAppWarmer.NewSession` (WhatsAppWarmer.tsx:109-118): `StartStatistics`, `WarmerPage.StartSession`.
- `WhatsAppWarmer.AsWrittenSessionId` (WhatsAppWarmer.tsx:110): `AsWrittenSessionIdCollides`.
- `WhatsAppWarmer.TotalMessages` and `AvgDuration` (WhatsAppWarmer.tsx:183-187): `StartStatistics`, `AvgDurationBounds`.
- `AddressForm.Valid` (AddressForm.tsx:29-56): `CleanupKeepsValid`, `NewEntryDefaults`.
- `AddressForm.Defaults` (AddressForm.tsx:92-111): `NewEntryDefaults`, `EditRoundTrip`.
- `UseFileUpload.IsTypeAccepted` (useFileUpload.ts:57-67): `ExactEntry`, `WildcardEntry`, `EmptyAcceptRejectsAll`, `FileUpload.DefaultAcceptsCsv`.
- `UseFileUpload.Accepted` and `Rejections` (useFileUpload.ts:69-81): `AcceptedIsFilter`, `Partition`, `DropZone.HandleFiles`.

## Findings

| source | as written | input that shows it | evidently intended | confidence | as-written member | corrected member |
|---|---|---|---|---|---|---|
| src/components/pages/WhatsAppWarmer.tsx:110 | a new session's id is the number of sessions plus one | sessions "1" and "2"; delete "1"; start a session: it gets id "2", which the remaining session already has | a session id no existing session carries | not executed | WhatsAppWarmer.AsWrittenSessionIdCollides | WhatsAppWarmer.FreshSessionId |

`WhatsAppWarmer.WarmerPage.StartSession` uses the corrected id. On the
sample data the two ids agree (`FreshSessionIdOnSamples`).

Three other observations are not defects of the model:
- the WhatsApp share on the number checker divides two independent random
  draws, so it can exceed 100 (`WhatsAppShareCanExceedHundred`);
- the bulk check's second emptiness test cannot fire, because a non-blank
  box always yields a number (`FilledInputHasNumbers`);
- the campaign page's expanded set is kept up to date but never read.

## Left out

- WhatsAppWarmer.WarmerPage.StartSession: gives the new session the corrected id `FreshSessionId` (one more than the largest numeric id) instead of the page's `(sessions.length + 1).toString()`, which can repeat an existing id (see "## Findings"); the two agree on the sample sessions (`FreshSessionIdOnSamples`).
- Rendering, icons, dialogs' layout, toasts and styling: not logic.
- When React runs the seeding is not modelled: `SeedIfEmpty` is one run of the campaign or client page's effect, whose dependencies are the number of campaigns (WhatsAppBlast.tsx:98) or clients (ClientManagement.tsx:49). So deleting the last campaign or client while its page is open empties the store, the effect runs again and every sample comes back; the model leaves the calling of `SeedIfEmpty` after such a deletion to the caller.
- The address book's initializer (AddressBook.tsx:55-60) runs only on the page's first render, and the store already starts with the sample addresses (appStore.ts:70), so it fills the store only when the persisted list is empty; `AddressBookPage.SeedIfEmpty` is that one call, and re-rendering is not modelled.
- `Math.random`, `Date.now`, `new Date().toISOString()`, `setTimeout` and `setInterval` become parameters (`Draw`, `Clock`, `idMillis`, `now`, `fires`); interleavings of several timers are not modelled, and each timer callback is one method call.
- The failure branch of the pages' `try`/`catch` around simulated requests is a `fails` parameter; the mock requests never fail.
- Persistence (zustand `persist`, localStorage, JSON): only `partialize` is modelled, as a projection.
- `toLowerCase` maps ASCII letters only; Unicode case mapping is not modelled. `trim` removes JavaScript's whole WhiteSpace and LineTerminator set (`Text.IsSpace`).
- Optional members (`?:`, `| null`) are `Option`; `undefined` and `null` are not told apart.
- Floating-point arithmetic: percentages are exact reals or integer ratios; `Math.round` is modelled exactly as rounding half up on rationals; `toFixed` and locale formatting are left out.
- Divisions the source does not guard are not modelled: on the client page the uptime percentage (ClientManagement.tsx:189, by the number of clients), the sent-today bar (:206) and the "% remaining" figure (:225, both by the total daily limit) and the per-client bars; on the warmer page the per-session bars. With no clients or a zero total limit the source divides by zero.
- zod's e-mail and URL checks are parameters of `AddressForm.Valid`; zod counts lengths in UTF-16 units, the model in characters.
- The file object's identity is its `handle`; FileReader, Blob, the clipboard and `location.pathname` are parameters or left out.
- Notification action callbacks and the AI chat are not modelled.
- The Dashboard, Preview, Settings, Analytics and template pages, the header and the search debounce are not part of this model.
- Mock data files are not part of this model; the fixtures are constructor parameters.
- Handlers that only copy an input value into a field (typing, selecting, opening a dialog) are plain field writes and are not modelled as methods.
- WarmerProgressTable.ProgressPercentage: `None` stands for the NaN (and the negative infinity) a zero duration gives when no time has elapsed; a positive infinity is capped at 100 as by the source's `Math.min`.
