/** The records exchanged between the workflow and the completion activity
    (shared_models.py). */
module SharedModels {

  /** Model used when the creating request does not name one. */
  const DefaultModel: string := "claude-3-7-sonnet-20250219"

  /** Output-token budget used when the creating request does not give one. */
  const DefaultMaxTokens: int := 1024

  /** The input of a workflow run and of one completion call. */
  datatype PromptInput = PromptInput(prompt: string, model: string, maxTokens: int)

  /** What one successful completion call returns. */
  datatype ClaudeResponse = ClaudeResponse(text: string, requestId: string)

  /** An input built with the record's field defaults. */
  function DefaultInput(prompt: string): (r: PromptInput)
    ensures r.prompt == prompt
    ensures r.model == DefaultModel && r.maxTokens == DefaultMaxTokens
  {
    PromptInput(prompt, DefaultModel, DefaultMaxTokens)
  }
}
