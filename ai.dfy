/**
 * The model service's generate call, seen from its callers: a prompt with an
 * optional response MIME type and schema, answered with a response or an
 * exception. Reading the response's text is a separate step that can raise on
 * its own, after generate has returned. Both are oracles handed to every
 * operation that calls the model.
 */
module Ai {
  import opened Wrappers
  import opened Schemas

  datatype GenRequest = GenRequest(prompt: string, mimeType: Option<string>, schema: Option<ResponseSchema>)

  /** The GenerateContentResponse generate returns; what it holds is not part of this model. */
  type Response

  /** generate(prompt, response_mime_type, response_schema), and reading .text of what it returned. */
  datatype Model = Model(generate: GenRequest -> Result<Response>, text: Response -> Result<string>)

  /** generate(prompt) with no generation settings. */
  function Plain(prompt: string): GenRequest {
    GenRequest(prompt, None, None)
  }

  /** generate(...).text, with nothing done between the call and the read. */
  function Ask(m: Model, req: GenRequest): Result<string> {
    var res :- m.generate(req);
    m.text(res)
  }
}
