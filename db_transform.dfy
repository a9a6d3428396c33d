/**
  The "DB Transform" page: a cached list of property notes, a row selection,
  and two independent paths that send the selected notes to the AI
  extraction service, one persisting the results in the notes store, the
  other buffering them for a CSV download.
 */
module DbTransform {

  import opened Transport
  import opened Extraction

  /** One listing record as the notes store returns it. */
  datatype PropertyNote = PropertyNote(
    id: int,
    rawText: string,
    postcode: Option<string>,
    city: Option<string>,
    accessInstructions: Option<string>,
    confidenceTip: Option<string>,
    confidenceScore: Option<int>,
    parkingInfo: Option<string>,
    amenities: Option<string>)

  const LoadFailed: string := "Failed to load property notes."
  const PersistFailed: string := "Failed to process selected rows."
  const CsvFailed: string := "Failed to extract with AI."

  /** A column of the exported file: display label and record key. */
  datatype CsvHeader = CsvHeader(displayLabel: string, key: string)

  const CsvFileName: string := "ai_extracted_notes.csv"

  const CsvHeaders: seq<CsvHeader> := [
    CsvHeader("Access Instructions", "access_instructions"),
    CsvHeader("Confidence Tip", "confidence_tip"),
    CsvHeader("Confidence Score", "confidence_score"),
    CsvHeader("Parking Info", "parking_info"),
    CsvHeader("Amenities", "amenities"),
    CsvHeader("Postcode", "postcode"),
    CsvHeader("City", "city")
  ]

  // ---------------------------------------------------------------------
  // Selection: decoding the grid's untyped selection model
  // ---------------------------------------------------------------------

  predicate Distinct(s: seq<int>) {
    forall i, j :: 0 <= i < j < |s| ==> s[i] != s[j]
  }

  /** A JavaScript `Set` of ids, as `Array.from` lists it: insertion order,
      no id twice. */
  type IdSet = s: seq<int> | Distinct(s) witness []

  /** The `ids` property of a selection object. */
  datatype IdsValue = SetOf(members: IdSet) | NotASet

  /** The shapes the grid's selection callback may pass: `null` or
      `undefined`, an array of ids, an object with an optional string `type`
      and an `ids` property, or any other value. */
  datatype SelectionValue =
    | Nullish
    | ArrayOf(items: seq<int>)
    | ObjectWith(tag: Option<string>, ids: IdsValue)
    | OtherValue

  /** `selectionModel?.type === 'include' && selectionModel?.ids instanceof Set` */
  predicate IsIncludeSet(v: SelectionValue) {
    v.ObjectWith? && v.tag == Some("include") && v.ids.SetOf?
  }

  /** The id list `handleSelectionChange` stores for a selection value. It is
      total: no shape makes it fail. */
  function NormaliseSelection(v: SelectionValue): (ids: seq<int>)
    ensures IsIncludeSet(v) ==> ids == v.ids.members && Distinct(ids)
    ensures v.ArrayOf? ==> ids == v.items
    ensures !IsIncludeSet(v) && !v.ArrayOf? ==> ids == []
  {
    if IsIncludeSet(v) then v.ids.members
    else if v.ArrayOf? then v.items
    else []
  }

  // ---------------------------------------------------------------------
  // The CSV extraction batch
  // ---------------------------------------------------------------------

  /** `response.filter((row) => selectedIds.includes(row.id))`: the cached
      rows whose id is selected, in cache order. */
  function SelectedRows(cache: seq<PropertyNote>, ids: seq<int>): (rows: seq<PropertyNote>)
    ensures |rows| <= |cache|
    ensures forall k :: 0 <= k < |rows| ==> rows[k] in cache && rows[k].id in ids
    ensures forall n :: n in cache && n.id in ids ==> n in rows
  {
    if cache == [] then []
    else (if cache[0].id in ids then [cache[0]] else []) + SelectedRows(cache[1..], ids)
  }

  /** `.map((row) => row.raw_text)` */
  function RawTexts(rows: seq<PropertyNote>): (texts: seq<string>)
    ensures |texts| == |rows|
    ensures forall k :: 0 <= k < |rows| ==> texts[k] == rows[k].rawText
  {
    seq(|rows|, k requires 0 <= k < |rows| => rows[k].rawText)
  }

  /** The `textField` the CSV path posts to `/ask`: one raw text per
      selected cached row, so never longer than the cache. */
  function CsvBatch(cache: seq<PropertyNote>, ids: seq<int>): (batch: seq<string>)
    ensures |batch| == |SelectedRows(cache, ids)| <= |cache|
  {
    RawTexts(SelectedRows(cache, ids))
  }

  /** Every batch entry is the raw text of a selected cached note, and every
      selected cached note's raw text is in the batch. */
  lemma CsvBatchMembers(cache: seq<PropertyNote>, ids: seq<int>)
    ensures forall t :: t in CsvBatch(cache, ids) ==>
              exists n :: n in cache && n.id in ids && n.rawText == t
    ensures forall n :: n in cache && n.id in ids ==> n.rawText in CsvBatch(cache, ids)
  {
    var rows := SelectedRows(cache, ids);
    var batch := CsvBatch(cache, ids);
    assert batch == RawTexts(rows);
    forall t | t in batch
      ensures exists n :: n in cache && n.id in ids && n.rawText == t
    {
      var k :| 0 <= k < |batch| && batch[k] == t;
      assert rows[k] in cache && rows[k].id in ids && rows[k].rawText == t;
    }
    forall n | n in cache && n.id in ids
      ensures n.rawText in batch
    {
      var k :| 0 <= k < |rows| && rows[k] == n;
      assert batch[k] == n.rawText;
    }
  }

  /** `f` places `rows` in `cache` as a subsequence: `rows[k]` is
      `cache[f[k]]`, the positions strictly increase (cache order, no row
      twice), and every position whose id is selected is hit (no row
      missed). */
  ghost predicate OrderedIndexMap(rows: seq<PropertyNote>, cache: seq<PropertyNote>, ids: seq<int>, f: seq<int>) {
    && |f| == |rows|
    && (forall k :: 0 <= k < |f| ==> 0 <= f[k] < |cache| && rows[k] == cache[f[k]])
    && (forall k, l :: 0 <= k < l < |f| ==> f[k] < f[l])
    && (forall j :: 0 <= j < |cache| && cache[j].id in ids ==> j in f)
  }

  /** The selected rows are exactly the selected positions of the cache, in
      increasing order. */
  lemma {:induction false} SelectedRowsSubsequence(cache: seq<PropertyNote>, ids: seq<int>)
    returns (f: seq<int>)
    ensures OrderedIndexMap(SelectedRows(cache, ids), cache, ids, f)
  {
    if cache == [] {
      return [];
    }
    var g := SelectedRowsSubsequence(cache[1..], ids);
    if cache[0].id in ids {
      f := [0] + Shift(g);
      ConsOntoTail(cache, SelectedRows(cache[1..], ids), ids, g);
      assert SelectedRows(cache, ids) == [cache[0]] + SelectedRows(cache[1..], ids);
    } else {
      f := Shift(g);
      ShiftIntoTail(cache, SelectedRows(cache[1..], ids), ids, g);
      assert SelectedRows(cache, ids) == SelectedRows(cache[1..], ids);
    }
  }

  /** A map into `cache[1..]`, moved one place on, is a map into `cache`
      when the head is not selected. */
  lemma ShiftIntoTail(cache: seq<PropertyNote>, rest: seq<PropertyNote>, ids: seq<int>, g: seq<int>)
    requires cache != [] && cache[0].id !in ids
    requires OrderedIndexMap(rest, cache[1..], ids, g)
    ensures OrderedIndexMap(rest, cache, ids, Shift(g))
  {
    var h := Shift(g);
    forall k | 0 <= k < |g|
      ensures 0 <= h[k] < |cache| && rest[k] == cache[h[k]]
    {
      assert cache[1..][g[k]] == cache[h[k]];
    }
    forall j | 0 <= j < |cache| && cache[j].id in ids
      ensures j in h
    {
      assert cache[1..][j - 1] == cache[j];
      var k :| 0 <= k < |g| && g[k] == j - 1;
      assert h[k] == j;
    }
  }

  /** With the head selected, position 0 goes in front of the shifted map. */
  lemma ConsOntoTail(cache: seq<PropertyNote>, rest: seq<PropertyNote>, ids: seq<int>, g: seq<int>)
    requires cache != [] && cache[0].id in ids
    requires OrderedIndexMap(rest, cache[1..], ids, g)
    ensures OrderedIndexMap([cache[0]] + rest, cache, ids, [0] + Shift(g))
  {
    var h := Shift(g);
    var f := [0] + h;
    var rows := [cache[0]] + rest;
    forall k | 1 <= k < |f|
      ensures 1 <= f[k] < |cache| && rows[k] == cache[f[k]]
    {
      assert f[k] == h[k - 1] && rows[k] == rest[k - 1];
      assert cache[1..][g[k - 1]] == cache[h[k - 1]];
    }
    forall j | 1 <= j < |cache| && cache[j].id in ids
      ensures j in f
    {
      assert cache[1..][j - 1] == cache[j];
      var k :| 0 <= k < |g| && g[k] == j - 1;
      assert f[k + 1] == j;
    }
  }

  /** Every position moved one place on. */
  function Shift(g: seq<int>): (h: seq<int>)
    ensures |h| == |g|
    ensures forall k :: 0 <= k < |g| ==> h[k] == g[k] + 1
  {
    seq(|g|, k requires 0 <= k < |g| => g[k] + 1)
  }

  /** Filtering distributes over concatenation of the cache: rows taken from
      an earlier part of the cache come before rows taken from a later part,
      so the batch follows cache order. */
  lemma {:induction false} SelectedRowsAppend(a: seq<PropertyNote>, b: seq<PropertyNote>, ids: seq<int>)
    ensures SelectedRows(a + b, ids) == SelectedRows(a, ids) + SelectedRows(b, ids)
  {
    if a == [] {
      assert a + b == b;
    } else {
      assert (a + b)[0] == a[0];
      assert (a + b)[1..] == a[1..] + b;
      SelectedRowsAppend(a[1..], b, ids);
    }
  }

  /** The batch depends only on WHICH ids are selected: not on the order in
      which they were selected, nor on an id listed twice. */
  lemma {:induction false} SelectedRowsSameIds(cache: seq<PropertyNote>, ids1: seq<int>, ids2: seq<int>)
    requires forall id :: id in ids1 <==> id in ids2
    ensures SelectedRows(cache, ids1) == SelectedRows(cache, ids2)
    ensures CsvBatch(cache, ids1) == CsvBatch(cache, ids2)
  {
    if cache != [] {
      SelectedRowsSameIds(cache[1..], ids1, ids2);
    }
  }

  /** A duplicated id in the selection does not duplicate a row. */
  lemma DuplicateIdAddsNothing(cache: seq<PropertyNote>, ids: seq<int>, id: int)
    requires id in ids
    ensures CsvBatch(cache, ids + [id]) == CsvBatch(cache, ids)
  {
    SelectedRowsSameIds(cache, ids + [id], ids);
  }

  /** Selecting every cached row sends every raw text, in cache order. */
  lemma {:induction false} SelectAllSendsAll(cache: seq<PropertyNote>, ids: seq<int>)
    requires forall k :: 0 <= k < |cache| ==> cache[k].id in ids
    ensures SelectedRows(cache, ids) == cache
  {
    if cache != [] {
      SelectAllSendsAll(cache[1..], ids);
    }
  }

  /** A note with only its id and raw text, as before any extraction. */
  function Unextracted(id: int, rawText: string): PropertyNote {
    PropertyNote(id, rawText, None, None, None, None, None, None, None)
  }

  /** Selection [3, 5] over notes 3, 5 and 7 sends exactly the raw texts of
      notes 3 and 5, in that order. */
  lemma BatchScenario()
    ensures CsvBatch([Unextracted(3, "raw A"), Unextracted(5, "raw B"), Unextracted(7, "raw C")], [3, 5])
         == ["raw A", "raw B"]
  {
    var cache := [Unextracted(3, "raw A"), Unextracted(5, "raw B"), Unextracted(7, "raw C")];
    assert SelectedRows(cache[1..][1..], [3, 5]) == [] + SelectedRows(cache[1..][1..][1..], [3, 5]);
    assert SelectedRows(cache[1..], [3, 5]) == [cache[1]] + SelectedRows(cache[1..][1..], [3, 5]);
    assert SelectedRows(cache, [3, 5]) == [cache[0], cache[1]];
  }

  // ---------------------------------------------------------------------
  // The confidence tally (`resultValues`)
  // ---------------------------------------------------------------------

  datatype Bucket = Positive | Warning | Error | Uncounted

  /** Where one `confidence_score` is counted. */
  function Classify(score: Option<int>): (b: Bucket)
    ensures b == Uncounted <==> score.None? || score.value == 9 || score.value > 10
    ensures b == Error <==> score.Some? && score.value < 8
  {
    if score == Some(10) then Positive
    else if score == Some(8) then Warning
    else if score.Some? && score.value < 8 then Error
    else Uncounted
  }

  /** 10 is positive, 8 a warning, any score below 8 an error; `null`, 9 and
      scores above 10 are not counted. */
  lemma ClassifyBoundaries(n: int)
    ensures Classify(Some(10)) == Positive
    ensures Classify(Some(8)) == Warning
    ensures n < 8 ==> Classify(Some(n)) == Error
    ensures Classify(None) == Uncounted
    ensures Classify(Some(9)) == Uncounted
    ensures n > 10 ==> Classify(Some(n)) == Uncounted
  {
  }

  datatype Counts = Counts(positive: nat, warning: nat, error: nat)

  function Bump(acc: Counts, b: Bucket): Counts {
    match b
    case Positive => acc.(positive := acc.positive + 1)
    case Warning => acc.(warning := acc.warning + 1)
    case Error => acc.(error := acc.error + 1)
    case Uncounted => acc
  }

  /** `response.reduce(...)` from `{ positive: 0, warning: 0, error: 0 }`,
      visiting the notes left to right. No note is counted twice. */
  function Tally(notes: seq<PropertyNote>): (c: Counts)
    ensures c.positive + c.warning + c.error <= |notes|
  {
    if notes == [] then Counts(0, 0, 0)
    else Bump(Tally(notes[..|notes| - 1]), Classify(notes[|notes| - 1].confidenceScore))
  }

  /** The bucket of every note, in order. */
  function Buckets(notes: seq<PropertyNote>): (bs: seq<Bucket>)
    ensures |bs| == |notes|
  {
    seq(|notes|, k requires 0 <= k < |notes| => Classify(notes[k].confidenceScore))
  }

  /** Each count is the number of notes in its bucket. */
  lemma {:induction false} TallyCountsBuckets(notes: seq<PropertyNote>)
    ensures Tally(notes) == Counts(multiset(Buckets(notes))[Positive],
                                   multiset(Buckets(notes))[Warning],
                                   multiset(Buckets(notes))[Error])
  {
    if notes != [] {
      var init := notes[..|notes| - 1];
      TallyCountsBuckets(init);
      assert Buckets(notes) == Buckets(init) + [Classify(notes[|notes| - 1].confidenceScore)];
    }
  }

  function Plus(c: Counts, d: Counts): Counts {
    Counts(c.positive + d.positive, c.warning + d.warning, c.error + d.error)
  }

  /** Tallying two parts of the cache and adding gives the tally of the whole. */
  lemma {:induction false} TallyAppend(a: seq<PropertyNote>, b: seq<PropertyNote>)
    ensures Tally(a + b) == Plus(Tally(a), Tally(b))
  {
    if b == [] {
      assert a + b == a;
    } else {
      var init, last := b[..|b| - 1], b[|b| - 1];
      var ab := a + b;
      assert ab[..|ab| - 1] == a + init;
      assert ab[|ab| - 1] == last;
      var bucket := Classify(last.confidenceScore);
      assert Tally(ab) == Bump(Tally(a + init), bucket);
      assert Tally(b) == Bump(Tally(init), bucket);
      TallyAppend(a, init);
    }
  }

  /** The tally does not depend on which part of the cache comes first. */
  lemma TallyIgnoresOrder(a: seq<PropertyNote>, b: seq<PropertyNote>)
    ensures Tally(a + b) == Tally(b + a)
  {
    TallyAppend(a, b);
    TallyAppend(b, a);
  }

  // ---------------------------------------------------------------------
  // The page session
  // ---------------------------------------------------------------------

  /** The body posted to `/bulk-property-notes`. */
  datatype BulkRequest = BulkRequest(selectedIds: seq<int>, aiModel: AiModel, customRules: string)

  /** What a write to the store (the bulk POST, or the reset DELETE)
      produced: `fetch` rejected, or it resolved, whatever its status, and the
      follow-up `fetchData` then received `refresh`. */
  datatype WriteOutcome = WriteRejected | WriteResolved(status: int, refresh: Response<seq<PropertyNote>>)

  /** What the download link hands over: file name, columns and rows. */
  datatype CsvFile = CsvFile(filename: string, headers: seq<CsvHeader>, rows: seq<ExtractionResult>)

  /** The list request delivered a note list: `fetch` resolved (any status)
      and its body parsed. */
  predicate Listed(o: Response<seq<PropertyNote>>) {
    o.Resolved? && o.body.Parsed?
  }

  /** The `/ask` call of the CSV path lands in its `catch`: `fetch` rejected,
      the body was not JSON, or it was `null` and destructuring it threw. */
  predicate AskThrows(o: Response<Reply<seq<ExtractionResult>>>) {
    o.Rejected? || o.body.Malformed? || o.body.value.NullReply?
  }

  /** The `/ask` reply carried a truthy `results` (every array is truthy,
      the empty one too). */
  predicate HasResults(o: Response<Reply<seq<ExtractionResult>>>) {
    !AskThrows(o) && o.body.value.field.Some?
  }

  class Session {
    /** The cached note list. */
    var response: seq<PropertyNote>
    var selectedIds: seq<int>
    /** The persist path's (and the list refresh's) error banner. */
    var error: string
    /** The CSV path's error banner. */
    var csvError: string
    var csvData: seq<ExtractionResult>
    var csvReady: bool
    var dbLoading: bool
    var csvLoading: bool
    var customRules: string

    /** While a CSV prepare is in flight its error banner is empty: only that
        path writes `csvError`, it clears it on start, and its trigger is
        disabled until it finishes. */
    ghost predicate Valid()
      reads this
    {
      csvLoading ==> csvError == ""
    }

    constructor ()
      ensures Valid()
      ensures response == [] && selectedIds == [] && error == "" && csvError == ""
      ensures csvData == [] && !csvReady && !dbLoading && !csvLoading && customRules == ""
    {
      response := [];
      selectedIds := [];
      error := "";
      csvError := "";
      csvData := [];
      csvReady := false;
      dbLoading := false;
      csvLoading := false;
      customRules := "";
    }

    /** `disabled` of the "Extract Free Text to DB" button. */
    predicate PersistDisabled(): (d: bool)
      reads this
      ensures !d ==> selectedIds != [] && !dbLoading
      ensures |selectedIds| == 0 || dbLoading ==> d
    {
      |selectedIds| == 0 || dbLoading
    }

    /** `disabled` of the "Extract & Prepare CSV" button. */
    predicate CsvDisabled(): (d: bool)
      reads this
      ensures !d ==> selectedIds != [] && !csvLoading
      ensures |selectedIds| == 0 || csvLoading ==> d
    {
      |selectedIds| == 0 || csvLoading
    }

    /** The custom-rules text area. */
    method SetCustomRules(text: string)
      requires Valid()
      modifies this
      ensures Valid()
      ensures customRules == text
      ensures response == old(response) && selectedIds == old(selectedIds)
      ensures error == old(error) && csvError == old(csvError)
      ensures csvData == old(csvData) && csvReady == old(csvReady)
      ensures dbLoading == old(dbLoading) && csvLoading == old(csvLoading)
    {
      customRules := text;
    }

    /** `handleSelectionChange`: replaces the selection. */
    method SelectionChange(v: SelectionValue)
      requires Valid()
      modifies this
      ensures Valid()
      ensures selectedIds == NormaliseSelection(v)
      ensures response == old(response) && customRules == old(customRules)
      ensures error == old(error) && csvError == old(csvError)
      ensures csvData == old(csvData) && csvReady == old(csvReady)
      ensures dbLoading == old(dbLoading) && csvLoading == old(csvLoading)
    {
      selectedIds := NormaliseSelection(v);
    }

    /** `fetchData` once its request has come back. A delivered list replaces
        the cache; any failure keeps the cache and sets the load error. It
        never fails itself. */
    method FetchData(outcome: Response<seq<PropertyNote>>)
      requires Valid()
      modifies this
      ensures Valid()
      ensures Listed(outcome) ==> response == outcome.body.value && error == old(error)
      ensures !Listed(outcome) ==> response == old(response) && error == LoadFailed
      ensures selectedIds == old(selectedIds) && customRules == old(customRules)
      ensures csvError == old(csvError) && csvData == old(csvData) && csvReady == old(csvReady)
      ensures dbLoading == old(dbLoading) && csvLoading == old(csvLoading)
    {
      match outcome
      case Resolved(_, Parsed(notes)) =>
        response := notes;
      case _ =>
        error := LoadFailed;
    }

    /** A click on the persist button, up to the bulk POST. A disabled button
        sends nothing and changes nothing; otherwise the error is cleared,
        the path is marked loading and the current selection is posted. */
    method StartPersist() returns (request: Option<BulkRequest>)
      requires Valid()
      modifies this
      ensures Valid()
      ensures old(PersistDisabled()) ==> request == None && error == old(error) && dbLoading == old(dbLoading)
      ensures !old(PersistDisabled()) ==>
                request == Some(BulkRequest(old(selectedIds), DefaultModel, old(customRules)))
                && error == "" && dbLoading
      ensures PersistDisabled()
      ensures response == old(response) && selectedIds == old(selectedIds) && customRules == old(customRules)
      ensures csvError == old(csvError) && csvData == old(csvData) && csvReady == old(csvReady)
      ensures csvLoading == old(csvLoading)
    {
      if PersistDisabled() {
        return None;
      }
      error := "";
      dbLoading := true;
      request := Some(BulkRequest(selectedIds, DefaultModel, customRules));
    }

    /** The rest of `handleSubmit`. If the POST resolved, whatever its status,
        the cache is refreshed and only then is the selection cleared, even
        when the refresh fails (the error is then the load error). If the POST
        rejected, the error says so, and the selection and the cache stay as
        they were. The loading flag drops in both cases. */
    method FinishPersist(outcome: WriteOutcome)
      requires Valid() && dbLoading
      modifies this
      ensures Valid()
      ensures !dbLoading
      ensures outcome.WriteRejected? ==>
                error == PersistFailed && selectedIds == old(selectedIds) && response == old(response)
      ensures outcome.WriteResolved? && Listed(outcome.refresh) ==>
                selectedIds == [] && response == outcome.refresh.body.value && error == old(error)
      ensures outcome.WriteResolved? && !Listed(outcome.refresh) ==>
                selectedIds == [] && response == old(response) && error == LoadFailed
      ensures customRules == old(customRules)
      ensures csvError == old(csvError) && csvData == old(csvData) && csvReady == old(csvReady)
      ensures csvLoading == old(csvLoading)
    {
      match outcome {
        case WriteResolved(_, refresh) =>
          FetchData(refresh);
          selectedIds := [];
        case WriteRejected =>
          error := PersistFailed;
      }
      dbLoading := false;
    }

    /** A click on the CSV button, up to the `/ask` POST. A disabled button
        sends nothing and changes nothing; otherwise the CSV error is
        cleared, the path is marked loading and the raw texts of the selected
        cached rows are posted. */
    method StartCsvPrepare() returns (request: Option<AskRequest>)
      requires Valid()
      modifies this
      ensures Valid()
      ensures old(CsvDisabled()) ==> request == None && csvError == old(csvError) && csvLoading == old(csvLoading)
      ensures !old(CsvDisabled()) ==>
                request == Some(AskRequest(CsvBatch(old(response), old(selectedIds)), old(customRules), DefaultModel))
                && csvError == "" && csvLoading
      ensures CsvDisabled()
      ensures response == old(response) && selectedIds == old(selectedIds) && customRules == old(customRules)
      ensures error == old(error) && csvData == old(csvData) && csvReady == old(csvReady)
      ensures dbLoading == old(dbLoading)
    {
      if CsvDisabled() {
        return None;
      }
      csvError := "";
      csvLoading := true;
      var rawTexts := RawTexts(SelectedRows(response, selectedIds));
      request := Some(AskRequest(rawTexts, customRules, DefaultModel));
    }

    /** The rest of `handleExtractToCSV`. Truthy `results` become the buffer
        and open the download; a reply without them changes nothing; a
        failure sets the CSV error and leaves the buffer and the download
        gate alone. The loading flag drops in every case. */
    method FinishCsvPrepare(outcome: Response<Reply<seq<ExtractionResult>>>)
      requires Valid() && csvLoading
      modifies this
      ensures Valid()
      ensures !csvLoading
      ensures HasResults(outcome) ==>
                csvData == outcome.body.value.field.value && csvReady && csvError == ""
      ensures !AskThrows(outcome) && !HasResults(outcome) ==>
                csvData == old(csvData) && csvReady == old(csvReady) && csvError == ""
      ensures AskThrows(outcome) ==>
                csvData == old(csvData) && csvReady == old(csvReady) && csvError == CsvFailed
      ensures response == old(response) && selectedIds == old(selectedIds) && customRules == old(customRules)
      ensures error == old(error) && dbLoading == old(dbLoading)
    {
      if AskThrows(outcome) {
        csvError := CsvFailed;
      } else {
        var results := outcome.body.value.field;
        if results.Some? {
          csvData := results.value;
          csvReady := true;
        }
      }
      csvLoading := false;
    }

    /** The download link, which exists only while `csvReady`: it hands over
        the buffer under the fixed headers and closes the gate, keeping the
        buffer. */
    method Download() returns (file: CsvFile)
      requires Valid() && csvReady
      modifies this
      ensures Valid()
      ensures file == CsvFile(CsvFileName, CsvHeaders, old(csvData))
      ensures !csvReady && csvData == old(csvData)
      ensures response == old(response) && selectedIds == old(selectedIds) && customRules == old(customRules)
      ensures error == old(error) && csvError == old(csvError)
      ensures dbLoading == old(dbLoading) && csvLoading == old(csvLoading)
    {
      file := CsvFile(CsvFileName, CsvHeaders, csvData);
      csvReady := false;
    }

    /** `handleReset` once its requests have come back. A rejected DELETE is
        only logged; a resolved one (any status) is followed by a refresh.
        Neither the selection nor either path's flags are touched. */
    method Reset(outcome: WriteOutcome)
      requires Valid()
      modifies this
      ensures Valid()
      ensures outcome.WriteRejected? ==> response == old(response) && error == old(error)
      ensures outcome.WriteResolved? && Listed(outcome.refresh) ==>
                response == outcome.refresh.body.value && error == old(error)
      ensures outcome.WriteResolved? && !Listed(outcome.refresh) ==>
                response == old(response) && error == LoadFailed
      ensures selectedIds == old(selectedIds) && customRules == old(customRules)
      ensures csvError == old(csvError) && csvData == old(csvData) && csvReady == old(csvReady)
      ensures dbLoading == old(dbLoading) && csvLoading == old(csvLoading)
    {
      if outcome.WriteResolved? {
        FetchData(outcome.refresh);
      }
    }
  }

  // ---------------------------------------------------------------------
  // Runs of the session
  // ---------------------------------------------------------------------

  function CacheABC(): seq<PropertyNote> {
    [Unextracted(3, "raw A"), Unextracted(5, "raw B"), Unextracted(7, "raw C")]
  }

  /** The bulk POST rejects: the error says so, the selection [3, 5] is kept
      for a retry and the path is idle again. */
  method PersistRejectedRun() returns (selection: seq<int>, err: string, loading: bool, retryDisabled: bool)
    ensures selection == [3, 5] && err == PersistFailed && !loading && !retryDisabled
  {
    var s := new Session();
    s.FetchData(Resolved(200, Parsed(CacheABC())));
    s.SelectionChange(ArrayOf([3, 5]));
    var request := s.StartPersist();
    assert request == Some(BulkRequest([3, 5], DefaultModel, ""));
    s.FinishPersist(WriteRejected);
    selection, err, loading, retryDisabled := s.selectedIds, s.error, s.dbLoading, s.PersistDisabled();
  }

  /** The bulk POST resolves with a server error and the refresh fails: the
      selection is still cleared, the cache is kept and the error is the load
      error. */
  method PersistRefreshFailsRun() returns (selection: seq<int>, cache: seq<PropertyNote>, err: string)
    ensures selection == [] && cache == CacheABC() && err == LoadFailed
  {
    var s := new Session();
    s.FetchData(Resolved(200, Parsed(CacheABC())));
    s.SelectionChange(ArrayOf([3, 5]));
    var request := s.StartPersist();
    s.FinishPersist(WriteResolved(500, Rejected));
    selection, cache, err := s.selectedIds, s.response, s.error;
  }

  /** Prepare and download once: the link is then closed and the buffer
      kept. */
  method CsvRun() returns (batch: seq<string>, file: CsvFile, ready: bool, kept: seq<ExtractionResult>)
    ensures batch == ["raw A", "raw B"]
    ensures file.filename == CsvFileName && file.headers == CsvHeaders && |file.rows| == 2
    ensures !ready && kept == file.rows
  {
    var s := new Session();
    s.FetchData(Resolved(200, Parsed(CacheABC())));
    s.SelectionChange(ObjectWith(Some("include"), SetOf([3, 5])));
    assert s.selectedIds == [3, 5] && !s.csvLoading;
    var request := s.StartCsvPrepare();
    assert request.value.textField == CsvBatch(CacheABC(), [3, 5]);
    BatchScenario();
    batch := request.value.textField;
    var r := ExtractionResult(None, None, None, None, None, None, None);
    var outcome := Resolved(200, Parsed(Value(Some([r, r]))));
    assert HasResults(outcome);
    s.FinishCsvPrepare(outcome);
    assert s.csvReady && s.csvData == [r, r];
    file := s.Download();
    ready, kept := s.csvReady, s.csvData;
  }

  /** An `exclude` selection object with no ids (the grid's select-all)
      decodes to no ids, so neither button sends anything. */
  method EmptySelectionRun() returns (persistSent: Option<BulkRequest>, csvSent: Option<AskRequest>)
    ensures persistSent == None && csvSent == None
  {
    var s := new Session();
    s.FetchData(Resolved(200, Parsed(CacheABC())));
    s.SelectionChange(ObjectWith(Some("exclude"), SetOf([])));
    persistSent := s.StartPersist();
    csvSent := s.StartCsvPrepare();
  }
}
