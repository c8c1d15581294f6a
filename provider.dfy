/**
 * The two provider endpoints the routes call, as data: what a call returned
 * (or that it threw), and the request it was made with.  The calls themselves
 * are network I/O and are not modelled; their outcomes are inputs.
 */
module Provider {
  import opened Wrappers
  import opened Text

  /** The embeddings endpoint: the vectors of `response.data` in order, or a thrown error. */
  datatype EmbedResponse = Embeddings(vectors: seq<seq<real>>) | EmbedError

  /** The responses endpoint: `response.output_text` (possibly undefined), or a thrown error. */
  datatype GenResponse = Generated(outputText: Option<string>) | GenError

  /** One call to the provider, with the arguments the route passed. */
  datatype ProviderRequest =
    | EmbeddingRequest(model: string, inputs: seq<string>)
    | GenerationRequest(model: string, instructions: string, input: string, temperature: real, maxOutputTokens: nat)

  /** `process.env.OPENAI_API_KEY` is truthy: present and not the empty string. */
  predicate KeyConfigured(apiKey: Option<string>) {
    apiKey.Some? && apiKey.value != ""
  }

  /** The errors both routes report in the same words. */
  const KeyMissing: string := "OPENAI_API_KEY is not configured"
  const EmptyResponse: string := "Empty response from OpenAI"

  /** `response.output_text?.trim()`, with a missing text read as "" (both are falsy). */
  function AnswerText(outputText: Option<string>): (r: string)
    ensures r == "" <==> outputText.None? || IsBlank(outputText.value)
    ensures r != "" ==> !IsWs(r[0]) && !IsWs(r[|r| - 1])
    ensures outputText.Some? ==> r == Trim(outputText.value) && CutBlankEnds(r, outputText.value)
  {
    if outputText.None? then "" else Trim(outputText.value)
  }

  /** The sampling settings both routes pass to the responses endpoint. */
  const Temperature: real := 0.2
  const MaxOutputTokens: nat := 400
}
