/** The request and record shapes of the AI-extraction endpoint `/ask`. */
module Extraction {

  import opened Transport

  /** The `aiModel` selector: `{ type, model }`. */
  datatype AiModel = AiModel(provider: string, model: string)

  /** The only model the selectors offer. */
  const DefaultModel: AiModel := AiModel("openai", "gpt-4o-mini")

  /** The body posted to `/ask`: `{ textField, customRules, aiModel }`. */
  datatype AskRequest = AskRequest(textField: seq<string>, customRules: string, aiModel: AiModel)

  /** One extracted record: the structured fields of a property note, without
      `id` and `raw_text`; every field may be `null`. */
  datatype ExtractionResult = ExtractionResult(
    postcode: Option<string>,
    city: Option<string>,
    accessInstructions: Option<string>,
    confidenceTip: Option<string>,
    confidenceScore: Option<int>,
    parkingInfo: Option<string>,
    amenities: Option<string>)
}
