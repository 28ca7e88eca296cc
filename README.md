# Expense claim agent: a Dafny model

This project models the core of an expense-claim assistant. The assistant has two parts.

The agent is a Python A2A server. It reads an uploaded receipt, extracts the merchant, date, amount and currency, and shows a draft form as A2UI messages. When the form is submitted it stores the claim in an append-only claim file, and it answers searches over the stored claims.

The browser client has its own copy of the three screens. It keeps its own claim list under one browser-storage key and handles the user actions a rendered surface sends back.

The modules follow the source files:

- `Base` (base.dfy) holds the shared vocabulary:
  - `Option` and `Result`;
  - decimal rendering and the fresh-id oracle `IdFor`;
  - `str.strip`, `in`, `join` and `replace`;
  - the Unicode classes the regular expressions consult, passed in as the `Unicode` parameter.
- `Dicts` (dicts.dfy) models a Python `dict` as an ordered association list, with `get`, item assignment and the `{**a, **b}` spread.
- `A2ui` (a2ui.dfy) holds the A2UI message and component vocabulary and the well-formedness predicate for a three-message screen: unique ids, and every child reference defined.
- `Screens` (screens.dfy) holds the form, confirmation and search screens as literals. `agent/ui_builder.py` and `client/src/App.tsx` emit the same layouts.
- `UiBuilder` (ui_builder.dfy) models `agent/ui_builder.py`: how each builder reads its fields from a dictionary.
- `Storage` (storage.dfy) models `agent/storage.py`: the class `ClaimStore` with the claim list as a field, `AddClaim` and `SearchClaims`.
- `Ocr` (ocr.dfy) models the text rules of `agent/ocr.py`:
  - data-URL stripping;
  - currency detection;
  - the two date regular expressions, with leftmost-match, backtracking and `\b` semantics;
  - `splitlines` and the merchant line;
  - page joining;
  - the result and error cases of `extract_from_base64`.
- `Entries` (entries.dfy) models `agent/entries.py`: `load_entries` on the file's parsed JSON, or no file.
- `AgentExecutor` (agent_executor.dfy) models `execute` in `agent/agent_executor.py`:
  - `ClassifyParts` is the part loop;
  - `Respond` is the whole turn as a function;
  - `Execute` is the method that updates a `ClaimStore` and emits status events.
- `ClientApp` (client_app.dfy) models the client logic of `client/src/App.tsx`:
  - storage, search and `addClaim`;
  - the context-decoding loop and submit and back handling of `handleA2uiAction`;
  - all of it on a class `App` whose fields are the storage entry, the shown surfaces and the id counter.

The model follows the code exactly at these points, where a reading of the code's intent could differ:

- The date patterns accept one- or two-digit months and days, and they need word boundaries. A slash or dash date anywhere beats an earlier dotted date.
- The merchant is the first stripped line that contains a character which is a word character but not a digit. A line made only of digits and punctuation is skipped, but a line such as `___` is kept, since `_` is a word character.
- `extract_from_base64` raises whatever the decoders raise. A `data:` upload without a comma raises an index error. The model names these three failures `MalformedDataUrl`, `InvalidBase64` and `UnreadableImage`.
- The agent's submit payload defaults a missing currency to `""`. The client's submit payload defaults it to `"JPY"`.

## Model

| member | source | states |
|---|---|---|
| Base.IdForFresh | agent/storage.py:49 | two different requests to the id oracle never get the same id (the promise `uuid4()` is used for) |
| Base.Strip | agent/ocr.py:89 | the stripped line has no leading or trailing whitespace, is empty exactly when the line is all whitespace, and is no longer than the line |
| Base.StripSlice | agent/ocr.py:89 | the stripped line is a slice of the line, and everything cut off on either side is whitespace |
| Base.ReplaceChar | agent/ocr.py:69 | every occurrence of the character is replaced and every other character kept, length unchanged |
| Dicts.GetMerge | agent/storage.py:48-52 | after `{**base, **over}`, a key of `over` reads as in `over`, any other key as in `base` |
| Dicts.HasKeyMerge | agent/storage.py:48-52 | the spread has exactly the keys of both dictionaries |
| Dicts.GetFirst | agent/agent_executor.py:93-95 | `dict.get` returns the value of the key's first entry |
| Screens.FormKeysDistinct | agent/ui_builder.py:170-179 | the eight form keys are pairwise distinct |
| Screens.FormComponentsSound | agent/ui_builder.py:32-163 | the form's component ids are distinct, `expense-root` is one of them, every child id is defined, and `submit-button` carries `submit_expense` with the eight keys bound to their own paths |
| Screens.FormScreenSound | agent/ui_builder.py:20-182 | the form is a well-formed three-message screen on `expense-form` rooted at `expense-root`, whose submit action binds exactly the data-model keys |
| Screens.ConfirmComponentsSound | agent/ui_builder.py:198-247 | the confirmation's ids are distinct, `confirm-card` is one of them, every child id is defined, and `confirm-back` sends `back_to_top` |
| Screens.ConfirmScreenSound | agent/ui_builder.py:185-269 | the confirmation is a well-formed screen on `expense-confirm` rooted at `confirm-card` with no `amount` or `currency` entry |
| Screens.ConfirmKeysShown | agent/ui_builder.py:251-267 | the confirmation's data model has the seven keys in order, without `amount` and `currency` |
| Screens.SearchComponentsSound | agent/ui_builder.py:303-362 | the search ids are distinct, `results-root` is one of them, every child id and the list template `result-card-template` are defined |
| Screens.SearchScreenSound | agent/ui_builder.py:292-374 | the search screen is well formed on `expense-search` rooted at `results-root`, with the list bound to `/items`, for any number of results including none |
| Screens.ItemKeysDistinct | agent/ui_builder.py:274-277 | two different result items have different keys |
| Screens.ResultItemsSnoc | agent/ui_builder.py:274-290 | one more claim appends exactly one item, numbered after the earlier ones |
| UiBuilder.FormDraftValues | agent/ui_builder.py:170-177 | each draft field is the data's value when present and the field's default otherwise |
| UiBuilder.BuildExpenseFormSound | agent/ui_builder.py:20-182 | the form is well formed on `expense-form`, its contents are the eight keys in order with the data's values or defaults, and the submit button sends back exactly those keys |
| UiBuilder.MissingFieldDefaults | agent/ui_builder.py:170-177 | a missing field shows `""`, a missing currency shows `"JPY"` |
| UiBuilder.ClaimValues | agent/ui_builder.py:251-266 | the confirmation shows each plain field with default `""` and `amountDisplay` as amount, a space and currency |
| UiBuilder.BuildConfirmationSound | agent/ui_builder.py:185-269 | the confirmation is well formed on `expense-confirm`, with seven entries, the combined amount display, no amount or currency entry, and a back button sending `back_to_top` |
| UiBuilder.CollectItems | agent/ui_builder.py:273-290 | the loop builds exactly the items of the claims in order, numbered from 1 |
| UiBuilder.BuildSearchResults | agent/ui_builder.py:272-374 | the search screen is well formed and holds the collected items under `items` |
| UiBuilder.SearchItemsSound | agent/ui_builder.py:273-290 | there is one item per claim, item `i` is keyed `item<i+1>`, and it has the six keys with the claim's values, `amountDisplay` combining amount and currency |
| UiBuilder.FormAgreesWithClient | client/src/App.tsx:114-275 | on a draft holding all eight fields the agent's and the client's form are the same screen |
| Storage.ClaimStore.constructor | agent/storage.py:28-36 | a store without a claim file reads as no claims |
| Storage.ClaimStore.AddClaim | agent/storage.py:46-55 | the returned record is the one appended, after all earlier claims, which are unchanged |
| Storage.NewRecordFields | agent/storage.py:48-52 | every payload key keeps its value, `id` and `createdAt` hold the fresh id and the time unless the payload overrides them, and the record has no other key |
| Storage.NewRecordsDistinct | agent/storage.py:49 | storing the same payload twice gives two different records |
| Storage.ClaimStore.SearchClaims | agent/storage.py:58-73 | an empty query returns all claims; otherwise the loop returns exactly the matching claims; the store is not changed |
| Storage.MatchingMembers | agent/storage.py:65-72 | a claim is found exactly when it is stored and its lowered haystack contains the lowered query (membership only; the exact list, repeats included, is the `Found` that `SearchClaims` is proved equal to) |
| Storage.MatchingSubsequence | agent/storage.py:64-73 | the matches keep the stored order |
| Storage.FoundSound | agent/storage.py:58-73 | for a non-empty query a claim is in the result exactly when it is stored and matches, and the result keeps the stored order (multiplicity is fixed by `Found` itself, which `SearchClaims` equals) |
| Ocr.StripDataUrl | agent/ocr.py:38-41 | input without `data:` is returned unchanged; a `data:` input gives the text after its first comma, or fails when it has none |
| Ocr.StripDataUrlRoundTrip | agent/ocr.py:38-41 | a data-URL header without commas in front of a payload is stripped back to the payload |
| Ocr.DetectCurrency | agent/ocr.py:51-58 | the result is USD, EUR or JPY, with USD on `USD`/`$`, else EUR on `EUR`/`€`, else JPY, in both directions |
| Ocr.ExtractDate | agent/ocr.py:61-70 | the pattern loop returns the first pattern's leftmost match with dots replaced, or `""` |
| Ocr.DateEmptyIff | agent/ocr.py:61-70 | the date is empty exactly when neither pattern matches at any position |
| Ocr.DateShape | agent/ocr.py:63-69 | a found date has eight to ten characters, starts with `20` and contains no `.` |
| Ocr.SlashOrDashFirst | agent/ocr.py:62-69 | a slash or dash date anywhere wins over any dotted date, even an earlier one |
| Ocr.DottedDateExample | agent/ocr.py:64-69 | on `Receipt 2024.03.05` the date is `2024/03/05` |
| Ocr.SplitLinesJoin | agent/ocr.py:88 | text without other line breaks and without a trailing newline splits into lines that join back to it |
| Ocr.HasNameCharIff | agent/ocr.py:92 | a line is not all digits and non-word characters exactly when it contains a word character that is not a digit |
| Ocr.MerchantFirst | agent/ocr.py:87-95 | the merchant is the first stripped line that is non-empty and qualifies |
| Ocr.MerchantEmptyIff | agent/ocr.py:87-95 | the merchant is `""` exactly when no stripped line qualifies |
| Ocr.ExtractMerchant | agent/ocr.py:87-95 | the early-return loop over the lines returns the first qualifying stripped line |
| Ocr.KeptPages | agent/ocr.py:106 | the kept page texts are non-empty and already stripped, and there are at most as many as pages |
| Ocr.KeptPagesInOrder | agent/ocr.py:106 | the kept texts are stripped pages in page order, and every page that is not blank once stripped is kept |
| Ocr.KeptPagesSnoc | agent/ocr.py:106 | one more page adds its stripped text at the end exactly when it is not blank, which fixes the kept list, repeats included |
| Ocr.StripIdempotent | agent/ocr.py:106 | stripping twice is stripping once |
| Ocr.PageTexts | agent/ocr.py:103-105 | one recognised text per page, in page order |
| Ocr.ExtractionOf | agent/ocr.py:98-120 | a malformed data URL fails; a result keeps the receipt name it was given and names one of the three currencies |
| Ocr.ExtractFromBase64 | agent/ocr.py:98-120 | the page loop and the field extraction compute exactly `ExtractionOf`, failures included |
| Entries.Member | agent/entries.py:20-21 | a key absent from the object yields the default |
| Entries.LoadEntries | agent/entries.py:12-23 | the result has exactly the keys `entries` and `layout`; no file or a scalar gives the empty defaults, a list becomes the entries, and an object gives its own members with defaults |
| Entries.MemberIgnoresOthers | agent/entries.py:20-21 | a member under another key does not change a lookup |
| Entries.OtherKeysDropped | agent/entries.py:18-22 | keys other than `entries` and `layout` in the file do not affect the result |
| Entries.LoadEntriesIdempotent | agent/entries.py:12-23 | loading a normalised payload returns it unchanged |
| AgentExecutor.Or | agent/agent_executor.py:60-67 | `a or b` is truthy exactly when one of them is |
| AgentExecutor.ClassifyParts | agent/agent_executor.py:54-70 | the part loop computes the classification of all the parts |
| AgentExecutor.LastDataPartWins | agent/agent_executor.py:54-68 | the last dictionary data part decides the action name and the context |
| AgentExecutor.NoDataPart | agent/agent_executor.py:46-68 | without a dictionary data part the name is absent and the context empty |
| AgentExecutor.LastTextWins | agent/agent_executor.py:69-70 | the last text part sets the text input |
| AgentExecutor.NoTextPart | agent/agent_executor.py:48-70 | without a text part the text input stays `""` |
| AgentExecutor.UserActionNamePrecedence | agent/agent_executor.py:58-65 | a `userAction` name is the first truthy of `actionName`, `name`, `action` |
| AgentExecutor.PlainDataIgnoresName | agent/agent_executor.py:66-68 | a plain data dictionary's name is `actionName` or `action`, and its `name` field is never read |
| AgentExecutor.Execute | agent/agent_executor.py:41-161 | the events, the outcome and the new store are those of `Respond`, after a task-created event when the request had no task |
| AgentExecutor.RespondShape | agent/agent_executor.py:79-161 | a normal turn reports exactly one update whose final flag is set exactly when completed; a raising reader reports none; the store changes exactly on a submit, by one claim at the end |
| AgentExecutor.WithoutUi | agent/agent_executor.py:79-87 | without the extension the turn completes with the connect text and touches nothing |
| AgentExecutor.UploadWithoutFile | agent/agent_executor.py:92-104 | an upload without file data completes with a text, reads nothing and stores nothing |
| AgentExecutor.UploadShowsDraft | agent/agent_executor.py:92-116 | an upload shows the draft form with the file name as receipt name and empty category, payment method and memo, waits for input and leaves the store |
| AgentExecutor.UploadDraftFields | agent/agent_executor.py:106-115 | the upload draft reads back as the reader's fields with empty category, payment method and memo |
| AgentExecutor.SubmitStoresOneClaim | agent/agent_executor.py:117-130 | a submit appends one claim whose eight fields are the context's (missing ones `""`) and completes with its confirmation |
| AgentExecutor.SubmitPayloadFields | agent/agent_executor.py:118-127 | the submit payload has the eight keys once each, with the context's values |
| AgentExecutor.SearchLeavesStore | agent/agent_executor.py:131-134 | a search shows the found claims, waits for input and leaves the store; no query means all claims |
| AgentExecutor.OtherActionAnswersText | agent/agent_executor.py:135-154 | any other action completes with the guidance text when there was text, else the nothing-to-process text |
| AgentExecutor.Cancel | agent/agent_executor.py:163-166 | cancelling always fails with an unsupported-operation error |
| ClientApp.Loaded | client/src/App.tsx:33-41 | an absent or unparseable storage entry reads as no claims |
| ClientApp.App.LoadClaims | client/src/App.tsx:33-41 | an absent or unparseable storage entry reads as no claims |
| ClientApp.App.AddClaim | client/src/App.tsx:47-57 | the new record, with a fresh id, is stored after all earlier claims |
| ClientApp.FilteredMembers | client/src/App.tsx:59-78 | a claim is kept exactly when it is stored and its lowered eight-field text contains the lowered query (membership only; with `FilteredOrdered` it fixes order, not repeats) |
| ClientApp.FilteredOrdered | client/src/App.tsx:63-77 | the kept claims are in stored order |
| ClientApp.SearchSubset | client/src/App.tsx:59-78 | the search returns only stored claims |
| ClientApp.App.SearchClaims | client/src/App.tsx:59-78 | an empty query returns every claim and any result is a stored claim |
| ClientApp.App.HandleSearch | client/src/App.tsx:544-550 | the shown screen is the search screen of the found claims, and the storage is unchanged |
| ClientApp.ItemValue | client/src/App.tsx:566-583 | a value is taken from `literalBoolean`, then `literalNumber`, then `literalString`, then the data at a non-empty `path`, each step stated, and an entry with none of these is skipped |
| ClientApp.DecodedLastWins | client/src/App.tsx:563-585 | the last entry with a value decides the key's value |
| ClientApp.DecodedKeys | client/src/App.tsx:563-585 | a key none of whose entries has a value is absent |
| ClientApp.DecodeContext | client/src/App.tsx:563-585 | the loop computes the decoded context |
| ClientApp.Field | client/src/App.tsx:588-597 | a missing, null or undefined field takes the default; a string, a resolved path, a boolean (`"true"`/`"false"`) and a number (its text) are rendered as `String` does |
| ClientApp.PayloadOf | client/src/App.tsx:587-597 | missing fields are `""` except currency, which is `"JPY"` |
| ClientApp.HandleIgnores | client/src/App.tsx:555-587 | no action, or an action other than back or submit, changes nothing |
| ClientApp.HandleBackToTop | client/src/App.tsx:557-561 | back clears the surfaces and stores nothing |
| ClientApp.HandleSubmit | client/src/App.tsx:587-600 | a submit stores exactly one new record after the earlier ones and shows its confirmation |
| ClientApp.SubmitsGetFreshIds | client/src/App.tsx:47-57 | two submits store two records with different ids |
| ClientApp.App.HandleA2uiAction | client/src/App.tsx:552-603 | the new state is `Handle` of the old state and the action |
| ClientApp.SearchItemsNumbered | client/src/App.tsx:380-394 | one item per record, keyed `item1..itemN` in order, with the six keys holding the record's merchant, date, amount display (amount, a space and currency), category, memo and receipt name |

## Left out

- The OCR engine is a parameter, `Ocr.Engine`. That covers `base64.b64decode`, PIL, `pdf2image` and `pytesseract` (agent/ocr.py:44-48, 101-105).
- `_extract_amount` (agent/ocr.py:73-84) is `Engine.amount`, a parameter. It parses with floats and formats with `:.2f`.
- The Unicode classes behind `\d` and `\w`, and `str.lower` and `toLowerCase`, are parameters.
- `uuid4()` and `crypto.randomUUID()` are an id counter, so ids are fresh but not random. The clock is the `now` parameter.
- JSON files, directory creation and `localStorage` are fields and values; their serialisation is not modelled. That covers `save_claims`, `saveClaims` and `JSON.parse`.
- The read-modify-write race between concurrent submits is not modelled; the model is single-threaded.
- The A2A and A2UI library calls are inputs and outputs: the extension flag `useUi`, the existing task `hasTask`, and events in place of the task updater, `new_task` and `create_a2ui_part`.
- Logging is not modelled.
- Dictionary and context values are strings.
  - A non-string value in an agent context or a stored claim is not modelled (`str(value)` in the haystack).
  - So is a context or `userAction` that is not a dictionary, where the source would fail.
- A client storage entry that parses to something other than a claim array is not modelled.
- `resolvePath` and `getData` of the client's message processor are one `resolve` parameter.
- React state, rendering and `handleUpload`/`runOcr` (client/src/App.tsx:80-112, 494-542, 604-666) are not part of this model.
- The following are not part of this model:
  - agent/__main__.py;
  - client/src/a2uiClient.ts;
  - the entries viewer;
  - the theme and styling files.
- ClientApp.App.SearchClaims: states only that the result is a subset. The exact, ordered membership is stated on `ClientApp.FilteredMembers` and `ClientApp.FilteredOrdered`.
- Storage.ClaimStore.constructor: models the missing claim file only. A file left by an earlier run is not modelled.
- ClientApp.App.AddClaim: the client's payload is a typed form without `id` or `createdAt`, so its "payload spread wins" case cannot arise and is not stated.
