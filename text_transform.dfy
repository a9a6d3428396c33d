/**
  The "RAG Text Transform" page: a text sent to the suggestions endpoint,
  guarded against blank input, with four example texts to preload.
 */
module TextTransform {

  import opened Transport

  const EmptyInput: string := "Input can't be empty"
  const SubmitFailed: string := "Something went wrong. Please try again."
  const NoSuggestions: string := "No suggestions returned."

  /** The texts behind the four "Example" buttons. */
  const Examples: seq<string> := [
    "Charming cottage with beautiful views. The kitchen is fully equipped and there’s a cozy lounge to relax in. Guests can enjoy the outdoor seating area and the nearby countryside walks.",
    "Modern apartment with WiFi and a large smart TV. Fresh towels are provided. Great for couples or solo travelers looking for a quiet getaway.",
    "Welcome to our lovely home in BN3 2AB. We’re close to local shops and public transport. Great location for exploring the area!",
    "You’ll love staying here — super comfy bed and lots of natural light. It’s our favorite spot to unwind after a long day."
  ]

  // ---------------------------------------------------------------------
  // `String.prototype.trim`
  // ---------------------------------------------------------------------

  /** The characters `trim` removes: ECMAScript's WhiteSpace (tab, vertical
      tab, form feed, the byte order mark and every Unicode space separator)
      and LineTerminator (line feed, carriage return, line and paragraph
      separators). */
  predicate IsWhitespace(c: char): (w: bool)
    ensures c < '\U{80}' ==> (w <==> c in " \t\n\r\U{B}\U{C}")
  {
    c == '\t' || c == '\U{B}' || c == '\U{C}' || c == ' ' || c == '\U{A0}' || c == '\U{FEFF}'
    || c == '\U{1680}' || ('\U{2000}' <= c <= '\U{200A}') || c == '\U{202F}' || c == '\U{205F}'
    || c == '\U{3000}'
    || c == '\n' || c == '\r' || c == '\U{2028}' || c == '\U{2029}'
  }

  /** `s` without its leading whitespace: a suffix of `s` that starts with a
      non-whitespace character, everything dropped being whitespace. */
  function TrimStart(s: string): (r: string)
    ensures |r| <= |s| && r == s[|s| - |r|..]
    ensures r != [] ==> !IsWhitespace(r[0])
    ensures forall i :: 0 <= i < |s| - |r| ==> IsWhitespace(s[i])
  {
    if s != [] && IsWhitespace(s[0]) then
      var r := TrimStart(s[1..]);
      assert forall i :: 1 <= i < |s| - |r| ==> s[i] == s[1..][i - 1];
      r
    else s
  }

  /** `s` without its trailing whitespace: a prefix of `s` that ends with a
      non-whitespace character, everything dropped being whitespace. */
  function TrimEnd(s: string): (r: string)
    ensures |r| <= |s| && r == s[..|r|]
    ensures r != [] ==> !IsWhitespace(r[|r| - 1])
    ensures forall i :: |r| <= i < |s| ==> IsWhitespace(s[i])
  {
    if s != [] && IsWhitespace(s[|s| - 1]) then TrimEnd(s[..|s| - 1]) else s
  }

  /** `s.trim()`: a slice `s[i..i + |r|]` that neither starts nor ends with
      whitespace, everything dropped on either side being whitespace. */
  function Trim(s: string): (r: string)
    ensures |r| <= |s|
    ensures r != [] ==> !IsWhitespace(r[0]) && !IsWhitespace(r[|r| - 1])
    ensures var i := |s| - |TrimStart(s)|;
              i + |r| <= |s| && r == s[i..i + |r|]
              && (forall j :: 0 <= j < i ==> IsWhitespace(s[j]))
              && (forall j :: i + |r| <= j < |s| ==> IsWhitespace(s[j]))
  {
    var t := TrimStart(s);
    var r := TrimEnd(t);
    TrimSlice(s, t, r);
    r
  }

  /** Trimming the end of a suffix keeps a slice of the whole. */
  lemma TrimSlice(s: string, t: string, r: string)
    requires |t| <= |s| && t == s[|s| - |t|..]
    requires |r| <= |t| && r == t[..|r|]
    requires forall j :: |r| <= j < |t| ==> IsWhitespace(t[j])
    ensures |s| - |t| + |r| <= |s| && r == s[|s| - |t|..|s| - |t| + |r|]
    ensures forall j :: |s| - |t| + |r| <= j < |s| ==> IsWhitespace(s[j])
  {
    var i := |s| - |t|;
    forall j | i + |r| <= j < |s|
      ensures IsWhitespace(s[j])
    {
      assert s[j] == t[j - i];
    }
  }

  /** `!input.trim()` holds exactly when the input is empty or whitespace
      only. */
  lemma TrimEmptyIffBlank(s: string)
    ensures Trim(s) == [] <==> forall i :: 0 <= i < |s| ==> IsWhitespace(s[i])
  {
  }

  // ---------------------------------------------------------------------
  // The suggestions request
  // ---------------------------------------------------------------------

  /** `data.content || 'No suggestions returned.'`: the content when it is a
      non-empty string, the fallback otherwise, so never empty. */
  function SuggestionText(content: Option<string>): (r: string)
    ensures r != []
    ensures content.Some? && content.value != [] ==> r == content.value
    ensures content.None? || content.value == [] ==> r == NoSuggestions
  {
    if content.Some? && content.value != [] then content.value else NoSuggestions
  }

  /** The body posted to `/suggestions`: `{ input }`. */
  datatype SuggestRequest = SuggestRequest(input: string)

  /** The request reached the line that reads `data.content`: `fetch`
      resolved (any status), the body parsed and it was not `null`. */
  predicate Succeeded(o: Response<Reply<string>>) {
    o.Resolved? && o.body.Parsed? && o.body.value.Value?
  }

  class Page {
    var input: string
    var error: string
    var loading: bool
    var response: string

    /** While a request is in flight the error banner is empty: a submit that
        gets past the guard clears it, nothing else writes it, and the
        disabled button keeps a second submit out. */
    ghost predicate Valid()
      reads this
    {
      loading ==> error == ""
    }

    constructor ()
      ensures Valid()
      ensures input == "" && error == "" && !loading && response == ""
    {
      input := "";
      error := "";
      loading := false;
      response := "";
    }

    /** `disabled` of the "Submit" button. */
    predicate SubmitDisabled()
      reads this
    {
      loading
    }

    /** The text area. */
    method SetInput(text: string)
      requires Valid()
      modifies this
      ensures Valid()
      ensures input == text
      ensures error == old(error) && loading == old(loading) && response == old(response)
    {
      input := text;
    }

    /** A click on "Submit", up to the POST. A disabled button sends nothing
        and changes nothing. A blank input sets the empty-input error and
        sends nothing, leaving `loading` and the reply alone. Otherwise
        `loading` is set, the error cleared and the input sent. */
    method StartSubmit() returns (request: Option<SuggestRequest>)
      requires Valid()
      modifies this
      ensures Valid()
      ensures old(SubmitDisabled()) ==> request == None && error == old(error) && loading
      ensures !old(SubmitDisabled()) && Trim(old(input)) == [] ==>
                request == None && error == EmptyInput && !loading
      ensures !old(SubmitDisabled()) && Trim(old(input)) != [] ==>
                request == Some(SuggestRequest(old(input))) && error == "" && loading
      ensures input == old(input) && response == old(response)
    {
      if SubmitDisabled() {
        return None;
      }
      if Trim(input) == [] {
        error := EmptyInput;
        return None;
      }
      loading := true;
      error := "";
      request := Some(SuggestRequest(input));
    }

    /** The rest of `submit`. Success shows the content, or the fallback
        when there is none, so the reply is never empty afterwards; a failure
        sets the error and keeps the reply. `loading` drops in every case. */
    method FinishSubmit(outcome: Response<Reply<string>>)
      requires Valid() && loading
      modifies this
      ensures Valid()
      ensures !loading
      ensures Succeeded(outcome) ==>
                response == SuggestionText(outcome.body.value.field) && response != [] && error == ""
      ensures !Succeeded(outcome) ==> response == old(response) && error == SubmitFailed
      ensures input == old(input)
    {
      if Succeeded(outcome) {
        response := SuggestionText(outcome.body.value.field);
      } else {
        error := SubmitFailed;
      }
      loading := false;
    }

    /** `mapExamples`: loads a text into the input and clears the reply; the
        error banner stays. */
    method MapExamples(value: string)
      requires Valid()
      modifies this
      ensures Valid()
      ensures input == value && response == ""
      ensures error == old(error) && loading == old(loading)
    {
      input := value;
      response := "";
    }
  }

  /** A whitespace-only input is refused without a request. */
  method BlankInputRun() returns (sent: Option<SuggestRequest>, err: string, loading: bool)
    ensures sent == None && err == EmptyInput && !loading
  {
    var p := new Page();
    p.SetInput(" \t\n");
    TrimEmptyIffBlank(" \t\n");
    sent := p.StartSubmit();
    err, loading := p.error, p.loading;
  }

  /** An example replaces the input and clears the reply; a reply whose
      content is empty shows the fallback. */
  method ExampleRun() returns (preloaded: string, sent: string, shown: string)
    ensures preloaded == Examples[1] && sent == "Sea view" && shown == NoSuggestions
  {
    var p := new Page();
    p.MapExamples(Examples[1]);
    preloaded := p.input;
    p.SetInput("Sea view");
    TrimEmptyIffBlank("Sea view");
    assert !IsWhitespace("Sea view"[0]);
    var request := p.StartSubmit();
    sent := request.value.input;
    p.FinishSubmit(Resolved(200, Parsed(Value(Some("")))));
    shown := p.response;
  }
}
