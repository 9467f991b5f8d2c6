/** The records exchanged with the assistant service. */
module GeminiTypes {
  import opened Js

  /** Configuration for `initialize`; `temperature` is declared but never read. */
  datatype GeminiConfig = GeminiConfig(apiKey: string, model: Option<string>, temperature: Option<real>)

  /** A completion request; `maxTokens` is declared but never read. */
  datatype CompletionRequest = CompletionRequest(prompt: string, context: Option<string>, maxTokens: Option<int>)

  datatype Usage = Usage(promptTokens: int, completionTokens: int, totalTokens: int)

  datatype CompletionResponse = CompletionResponse(text: string, usage: Option<Usage>)

  /** The error record the service throws; `details` carries the original cause. */
  datatype GeminiError = GeminiError(message: string, code: Option<string>, details: Thrown)
}
