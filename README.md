# Property-notes extraction front-end, modelled in Dafny

This project models the three pages of a browser front-end. Operators use it
to send free-text property listings to an AI extraction service.

- **DB Transform** (`DbTransform` module). The page keeps a cached list of
  property notes and a row selection. Two independent paths send the selected
  notes for extraction:
  - the persist path posts the selected ids to `/bulk-property-notes`, then
    re-lists the notes;
  - the CSV path posts the raw texts of the selected rows to `/ask` and
    buffers the results behind a one-shot download link.

  The module also covers decoding the grid's untyped selection value, the
  extraction batch, the confidence tally, the reset button and the
  trigger-disable conditions.
- **Text Extractor** (`TextExtractor` module). This page sends one free text
  to `/ask` and shows the JSON reply. A non-ok HTTP status counts as a
  failure.
- **Text Transform** (`TextTransform` module). This page sends a text to
  `/suggestions`. Blank input is refused, an empty reply gets a fallback
  message, and four example texts can be preloaded. No route of the app
  shows this page: src/App.tsx:14-17 routes `/` to the Text Extractor and
  `/transform` to DB Transform only.

Each page is a class whose fields are the page's React state. Each
asynchronous handler is split into two methods:

- `Start…` does the synchronous updates before the first `await` and returns
  the request that would be sent. It returns `None`, and changes nothing,
  while the page's button is disabled.
- `Finish…` takes an outcome value standing for what the network returned.
  It does the updates after the `await`, including the `catch` and `finally`
  branches.

`Transport` holds the outcome shapes:

- `Rejected` means `fetch` rejected.
- `Resolved(status, body)` means `fetch` resolved, which it does under any
  HTTP status on all three pages. The DB Transform and Text Transform pages
  read the body under any status. The Text Extractor throws on a non-ok
  status before reading the body (src/pages/TextExtractor.tsx:41).
- The body is `Malformed` when `res.json()` rejects, otherwise
  `Parsed(value)`.
- `Reply` is a parsed value that the page reads one property of. On `null`,
  reading the property throws; any other value has the property or lacks it.

Each page class has a `Valid()` invariant that every method keeps:

- DB Transform: no CSV error is shown while a CSV prepare is in flight.
- Text Extractor: no reply and no error are shown while a request is in
  flight.
- Text Transform: no error is shown while a request is in flight.

The `…Run` methods at the end of each module chain calls on a fresh page and
prove the outcome of a whole run.

## Model

| member | source | states |
|---|---|---|
| `DbTransform.NormaliseSelection` | src/pages/DbTransform.tsx:73-81 | An `include` object whose `ids` is a Set gives exactly those ids, in Set order and without repeats. An array gives that array unchanged. Every other shape (null, `exclude`, a non-Set `ids`, a primitive) gives `[]`; no input fails. |
| `DbTransform.SelectedRows` | src/pages/DbTransform.tsx:112 | The filtered rows are at most as many as the cache. Each is a cached row with a selected id. Every cached row with a selected id is among them. |
| `DbTransform.SelectedRowsSubsequence` | src/pages/DbTransform.tsx:112 | The filtered rows are a subsequence of the cache. A strictly increasing position map `f` gives `rows[k] == cache[f[k]]` and hits every position whose id is selected. So the rows are in cache order, no cached row appears twice, and none is missed. |
| `DbTransform.RawTexts` | src/pages/DbTransform.tsx:113 | The batch has one entry per selected row: that row's `raw_text`, at the same position. |
| `DbTransform.CsvBatch` | src/pages/DbTransform.tsx:112-113 | The posted `textField` has one entry per selected cached row, so it is never longer than the cache. |
| `DbTransform.CsvBatchMembers` | src/pages/DbTransform.tsx:112-113 | Every batch entry is the raw text of a cached note whose id is selected. Every such note's raw text is in the batch. |
| `DbTransform.SelectedRowsAppend` | src/pages/DbTransform.tsx:112 | Filtering two consecutive parts of the cache is the same as filtering the whole. So the batch follows cache order, not selection order. |
| `DbTransform.SelectedRowsSameIds` | src/pages/DbTransform.tsx:112-113 | Two selections with the same members give the same rows and the same batch, whatever their order or repeats. |
| `DbTransform.DuplicateIdAddsNothing` | src/pages/DbTransform.tsx:112-113 | Listing an already selected id again leaves the batch unchanged. |
| `DbTransform.SelectAllSendsAll` | src/pages/DbTransform.tsx:112 | When every cached id is selected, the filtered rows are the whole cache. |
| `DbTransform.BatchScenario` | src/pages/DbTransform.tsx:112-113 | Selection [3, 5] over notes 3, 5 and 7 gives exactly `["raw A", "raw B"]`. |
| `DbTransform.Classify` | src/pages/DbTransform.tsx:167-171 | A score is uncounted exactly when it is `null`, 9 or above 10. It is an error exactly when it is a number below 8. |
| `DbTransform.ClassifyBoundaries` | src/pages/DbTransform.tsx:167-171 | Score 10 is positive and 8 is a warning. Any score below 8 is an error. `null`, 9 and scores above 10 are not counted. |
| `DbTransform.Tally` | src/pages/DbTransform.tsx:165-175 | positive + warning + error is at most the number of cached notes. |
| `DbTransform.TallyCountsBuckets` | src/pages/DbTransform.tsx:165-175 | Each count equals the number of notes whose score falls in that bucket. |
| `DbTransform.TallyAppend` | src/pages/DbTransform.tsx:165-175 | The tally of a concatenation is the sum of the tallies of its parts. |
| `DbTransform.TallyIgnoresOrder` | src/pages/DbTransform.tsx:165-175 | Swapping two parts of the cache leaves the tally unchanged. |
| `DbTransform.Session.constructor` | src/pages/DbTransform.tsx:23-34 | Initial state: empty cache, selection, errors and buffer. No download is ready, neither path is loading, and the rules are empty. |
| `DbTransform.Session.SetCustomRules` | src/pages/DbTransform.tsx:233-236 | Only the custom rules change. |
| `DbTransform.Session.SelectionChange` | src/pages/DbTransform.tsx:73-81 | The selection becomes the normalised value. Nothing else changes. |
| `DbTransform.Session.PersistDisabled` | src/pages/DbTransform.tsx:244 | An enabled "Extract Free Text to DB" button means a non-empty selection and no write in flight. An empty selection or a write in flight disables it. `StartPersist` sends exactly when it is enabled. |
| `DbTransform.Session.FetchData` | src/pages/DbTransform.tsx:58-67 | A delivered list, under any HTTP status, replaces the cache and keeps the error. A rejection or unparsable body keeps the cache and sets "Failed to load property notes.". Nothing is signalled to the caller. |
| `DbTransform.Session.StartPersist` | src/pages/DbTransform.tsx:85-96 | Disabled (empty selection or `dbLoading`): nothing is sent and nothing changes. Otherwise the error is cleared, `dbLoading` is set, and the current ids, model and rules are posted. Afterwards the trigger is disabled. |
| `DbTransform.Session.FinishPersist` | src/pages/DbTransform.tsx:89-105 | A resolved POST (any status) refreshes the cache and then empties the selection, even when the refresh fails; the error is then the load error. A rejected POST sets "Failed to process selected rows." and keeps the selection and the cache, with no refresh. `dbLoading` ends false. CSV state is untouched. |
| `DbTransform.Session.CsvDisabled` | src/pages/DbTransform.tsx:251 | An enabled "Extract & Prepare CSV" button means a non-empty selection and no CSV prepare in flight. An empty selection or a prepare in flight disables it. `StartCsvPrepare` sends exactly when it is enabled. |
| `DbTransform.Session.StartCsvPrepare` | src/pages/DbTransform.tsx:108-124 | Disabled (empty selection or `csvLoading`): nothing is sent and nothing changes. Otherwise `csvError` is cleared, `csvLoading` is set, and the batch of selected raw texts is posted with rules and model. The persist state is untouched. |
| `DbTransform.Session.FinishCsvPrepare` | src/pages/DbTransform.tsx:126-137 | Truthy `results` become `csvData` and set `csvReady`. A reply without `results` changes neither. A failure (rejection, unparsable or `null` body) sets "Failed to extract with AI." and leaves `csvData` and `csvReady` alone. `csvLoading` ends false. |
| `DbTransform.Session.Download` | src/pages/DbTransform.tsx:256-261 | The link exists only while `csvReady`. It hands over `ai_extracted_notes.csv` with the fixed headers and the buffer, then clears `csvReady` and keeps `csvData`. |
| `DbTransform.Session.Reset` | src/pages/DbTransform.tsx:150-157 | A rejected DELETE changes nothing. A resolved one refreshes the cache exactly like `FetchData`. The selection, the flags and the CSV state never change. |
| `DbTransform.PersistRejectedRun` | src/pages/DbTransform.tsx:85-106 | After a rejected bulk POST, selection [3, 5] is kept, the error is the persist error, and the button is enabled for a retry. |
| `DbTransform.PersistRefreshFailsRun` | src/pages/DbTransform.tsx:85-106 | A POST that resolves with status 500, followed by a failed refresh, still clears the selection. The cache is kept and the error is the load error. |
| `DbTransform.CsvRun` | src/pages/DbTransform.tsx:108-138 | An `include` Set {3, 5} sends `["raw A", "raw B"]`. After one download the link is gone and the buffer is kept. |
| `DbTransform.EmptySelectionRun` | src/pages/DbTransform.tsx:241-254 | An `exclude` selection object with no ids decodes to `[]`, and then neither button sends anything. |
| `TextExtractor.Page.constructor` | src/pages/TextExtractor.tsx:13-23 | Initial state: empty texts, `null` reply, not loading, no error. |
| `TextExtractor.Page.SetFreeText` | src/pages/TextExtractor.tsx:77-79 | Only the free text changes. |
| `TextExtractor.Page.SetCustomRules` | src/pages/TextExtractor.tsx:89-91 | Only the custom rules change. |
| `TextExtractor.Page.SubmitDisabled` | src/pages/TextExtractor.tsx:95 | The "Extract Info" button is disabled exactly while a request is in flight. It carries no contract of its own. Its effect is stated by `StartSubmit`: a disabled click sends nothing and changes nothing. |
| `TextExtractor.Page.StartSubmit` | src/pages/TextExtractor.tsx:25-39 | Disabled while loading. Otherwise `loading` is set and the error and reply are cleared before the request. The batch is exactly `[freeText]`, sent with the current rules. |
| `TextExtractor.Page.FinishSubmit` | src/pages/TextExtractor.tsx:41-50 | Success (resolved, `ok` status, parsed body) shows the body and keeps the error empty. A non-ok status or any other failure sets "Something went wrong. Please try again." and leaves the reply `null`. `loading` ends false. |
| `TextExtractor.ServerErrorRun` | src/pages/TextExtractor.tsx:25-51 | A 500 with a well-formed JSON body is a failure: the reply stays `null` and the sent batch is the one text. |
| `TextTransform.IsWhitespace` | src/pages/TextTransform.tsx:10 | On ASCII, exactly tab, line feed, vertical tab, form feed, carriage return and space are whitespace. Beyond ASCII it holds the remaining ECMAScript WhiteSpace and LineTerminator characters. |
| `TextTransform.TrimStart` | src/pages/TextTransform.tsx:10 | The result is a suffix of the input that does not start with whitespace, and everything dropped is whitespace. |
| `TextTransform.TrimEnd` | src/pages/TextTransform.tsx:10 | The result is a prefix of the input that does not end with whitespace, and everything dropped is whitespace. |
| `TextTransform.Trim` | src/pages/TextTransform.tsx:10 | `input.trim()` is a slice of the input. It neither starts nor ends with whitespace, and everything dropped on either side is whitespace. |
| `TextTransform.TrimEmptyIffBlank` | src/pages/TextTransform.tsx:10 | The trimmed input is empty exactly when every character is whitespace. Both directions are proved. |
| `TextTransform.SuggestionText` | src/pages/TextTransform.tsx:25 | A non-empty `content` is shown as is. An empty or missing one gives "No suggestions returned.". The result is never empty. |
| `TextTransform.Page.constructor` | src/pages/TextTransform.tsx:4-7 | Initial state: empty input, error and reply, not loading. |
| `TextTransform.Page.SetInput` | src/pages/TextTransform.tsx:61-63 | Only the input changes. |
| `TextTransform.Page.SubmitDisabled` | src/pages/TextTransform.tsx:66 | The "Submit" button is disabled exactly while a request is in flight. It carries no contract of its own. Its effect is stated by `StartSubmit`: a disabled click sends nothing and changes nothing. |
| `TextTransform.Page.StartSubmit` | src/pages/TextTransform.tsx:9-22 | Disabled while loading. A blank input sets "Input can't be empty" and sends nothing, leaving `loading` and the reply unchanged. Otherwise `loading` is set, the error cleared and the input sent. |
| `TextTransform.Page.FinishSubmit` | src/pages/TextTransform.tsx:24-31 | Success (resolved under any status, parsed, non-null body) shows the content or the fallback, so the reply is non-empty. A failure sets the error and keeps the reply. `loading` ends false. |
| `TextTransform.Page.MapExamples` | src/pages/TextTransform.tsx:41-44 | The input becomes the value and the reply is cleared. The error and `loading` do not change. |
| `TextTransform.BlankInputRun` | src/pages/TextTransform.tsx:9-13 | A whitespace-only input is refused with the empty-input error, no request, and `loading` still false. |
| `TextTransform.ExampleRun` | src/pages/TextTransform.tsx:15-44 | An example preloads the input and clears the reply. A later reply with content `""` shows the fallback. |

The four example texts are the constant `TextTransform.Examples`
(src/pages/TextTransform.tsx:34-39). The CSV columns are
`DbTransform.CsvHeaders` (src/pages/DbTransform.tsx:140-148).

Behaviour of the code worth knowing:

- A failed refresh after a resolved bulk POST sets the same banner as any
  failed load. There is no separate warning for it.
- Nothing keeps the selection a subset of the cached ids. A reset or refresh
  leaves stale ids selected.
- Every `exclude` selection object decodes to no ids
  (src/pages/DbTransform.tsx:79). In the data grid's own convention an
  `exclude` object means "every row except `ids`", so an `exclude` object
  with no ids is the grid's select-all. The code turns it into an empty
  selection, which disables both buttons.
- Only the disabled buttons keep the selection non-empty. The `Start…`
  methods model exactly that check.
- Whatever `results` array arrives is stored, and nothing ties its length to
  the batch. The model makes no claim about that length.

## Left out

- Rendering: JSX, MUI components, DataGrid pagination and column
  configuration, the warning and error alerts driven by the tally, and the
  JSON viewer. These are UI only.
- HTTP transport, `import.meta.env` base URLs and JSON parsing. These are
  replaced by the outcome values passed to `Finish…`, `FetchData` and
  `Reset`.
- The store's answers to the bulk POST and to the reset DELETE. They are
  never read, so `WriteOutcome` carries only the status and the follow-up
  list outcome.
- The intermediate state of the persist and reset paths. Between the write
  resolving and the refresh returning, and between the two requests of a
  reset, nothing changes in the source. `FinishPersist` and `Reset` take
  both outcomes at once.
- JSON values of unexpected type, which the model does not represent:
  - a list body that parses to something other than a note list. For
    example, a 500 reply with a JSON error object is stored as `response`
    by `fetchData` (src/pages/DbTransform.tsx:62). The tally's
    `response.reduce` (src/pages/DbTransform.tsx:166) then throws on the
    render that follows. So the page never shows this value, and the
    batch's `filter` (src/pages/DbTransform.tsx:112) is never reached with
    it;
  - a truthy `results` that is not an array. It is stored as `csvData` and
    handed to the CSV link as is;
  - a truthy `content` that is not a string. It is stored as the reply.
    An object then makes `<p>{response}</p>`
    (src/pages/TextTransform.tsx:74) throw during render, `true` shows
    nothing, and a number shows its digits.

  Falsy values (`undefined`, `null`, `false`, `0`, `""`) of `results` and
  `content` are all the absent case.
- Non-integer numbers. JSON numbers, confidence scores included, are
  integers in the model, so a score such as 7.5 is not represented.
- CSV serialisation by `react-csv`, a foreign library. `Download` returns
  the file name, headers and rows it would be given.
- `console.error` logging.
- The `useEffect` mount trigger. Its `fetchData` call is a `FetchData` call
  on a fresh session.
- React's batching and scheduling of state updates. Updates are sequential
  field assignments. Each request is built from the state at the click, as
  the handler's closure does.
- Interleaving of the persist, CSV and reset paths. The methods may be
  called in any order, but no property is stated about races between them.
- The AI-model selector. It offers one value, the constant
  `Extraction.DefaultModel`.
- `src/App.tsx`, which only does routing.

