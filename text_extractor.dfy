/**
  The "RAG Text Extractor" page: one free-text field sent to the AI
  extraction service as a batch of one, with the reply shown as JSON.
 */
module TextExtractor {

  import opened Transport
  import opened Extraction

  /** A parsed JSON value, shown as it came back. */
  datatype Json =
    | JNull
    | JBool(b: bool)
    | JNumber(n: int)
    | JString(s: string)
    | JArray(items: seq<Json>)
    | JObject(members: seq<(string, Json)>)

  const SubmitFailed: string := "Something went wrong. Please try again."

  /** The request counts as a success only when `fetch` resolved, `res.ok`
      holds and the body parsed; a non-ok status is thrown before the body is
      read. */
  predicate Succeeded(o: Response<Json>) {
    o.Resolved? && IsOk(o.status) && o.body.Parsed?
  }

  class Page {
    var freeText: string
    var customRules: string
    /** The reply on display; `null` while nothing is shown. */
    var response: Json
    var loading: bool
    var error: string

    /** While a request is in flight nothing stale is on screen: submitting
        clears both the reply and the error, and the disabled button keeps a
        second submit out until the first has finished. */
    ghost predicate Valid()
      reads this
    {
      loading ==> response == JNull && error == ""
    }

    constructor ()
      ensures Valid()
      ensures freeText == "" && customRules == "" && response == JNull && !loading && error == ""
    {
      freeText := "";
      customRules := "";
      response := JNull;
      loading := false;
      error := "";
    }

    /** `disabled` of the "Extract Info" button. */
    predicate SubmitDisabled()
      reads this
    {
      loading
    }

    /** The property-text area. */
    method SetFreeText(text: string)
      requires Valid()
      modifies this
      ensures Valid()
      ensures freeText == text
      ensures customRules == old(customRules) && response == old(response)
      ensures loading == old(loading) && error == old(error)
    {
      freeText := text;
    }

    /** The custom-rules area. */
    method SetCustomRules(text: string)
      requires Valid()
      modifies this
      ensures Valid()
      ensures customRules == text
      ensures freeText == old(freeText) && response == old(response)
      ensures loading == old(loading) && error == old(error)
    {
      customRules := text;
    }

    /** A click on "Extract Info", up to the `/ask` POST. A disabled button
        sends nothing and changes nothing; otherwise `loading` is set, the
        error and the reply are cleared, and the text goes out as a batch of
        exactly one, with the current rules. */
    method StartSubmit() returns (request: Option<AskRequest>)
      requires Valid()
      modifies this
      ensures Valid()
      ensures old(SubmitDisabled()) ==>
                request == None && response == old(response) && error == old(error) && loading
      ensures !old(SubmitDisabled()) ==>
                request == Some(AskRequest([old(freeText)], old(customRules), DefaultModel))
                && loading && error == "" && response == JNull
      ensures SubmitDisabled()
      ensures freeText == old(freeText) && customRules == old(customRules)
    {
      if SubmitDisabled() {
        return None;
      }
      loading := true;
      error := "";
      response := JNull;
      request := Some(AskRequest([freeText], customRules, DefaultModel));
    }

    /** The rest of `handleSubmit`. Success shows the parsed body and keeps
        the error empty; any failure, a non-ok status included, sets the
        error and leaves the reply `null`. `loading` drops in every case. */
    method FinishSubmit(outcome: Response<Json>)
      requires Valid() && loading
      modifies this
      ensures Valid()
      ensures !loading
      ensures Succeeded(outcome) ==> response == outcome.body.value && error == ""
      ensures !Succeeded(outcome) ==> response == JNull && error == SubmitFailed
      ensures freeText == old(freeText) && customRules == old(customRules)
    {
      if Succeeded(outcome) {
        response := outcome.body.value;
      } else {
        error := SubmitFailed;
      }
      loading := false;
    }
  }

  /** A server error with a well-formed JSON body is still a failure. */
  method ServerErrorRun() returns (shown: Json, err: string, loading: bool, sent: seq<string>)
    ensures shown == JNull && err == SubmitFailed && !loading && sent == ["Flat 2, BN3 2AB"]
  {
    var p := new Page();
    p.SetFreeText("Flat 2, BN3 2AB");
    var request := p.StartSubmit();
    sent := request.value.textField;
    p.FinishSubmit(Resolved(500, Parsed(JObject([("detail", JString("boom"))]))));
    shown, err, loading := p.response, p.error, p.loading;
  }
}
