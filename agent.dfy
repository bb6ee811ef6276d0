/**
 * The boundary with the Python capture agent: how an agent failure is
 * turned into a reply body, what a fetched enrollment payload looks like,
 * and the count-based completeness gate applied to it before anything is
 * written.
 */
module Agent {
  import opened Base

  const AgentNotRunning := "Layanan sidik jari Python tidak berjalan."
  const AgentFailed := "Terjadi kesalahan pada agen Python."

  /**
   * An exception raised by an HTTP call to the agent: its `code` (set for
   * socket errors) and `response.data.message`, which reads as `undefined`
   * when there is no response, no data or no message.
   */
  datatype AgentError = AgentError(code: Option<string>, responseMessage: JsValue)

  /** The JSON body `{ success, message }` sent back to the caller. */
  datatype ErrorBody = ErrorBody(success: bool, message: JsValue)

  /**
   * handlePythonAgentError: a refused connection gets the fixed "service not
   * running" text; otherwise the agent's own message when it is truthy, else
   * the fixed default.
   */
  function HandleAgentError(error: AgentError): (r: ErrorBody)
    ensures !r.success
    ensures Truthy(r.message)
    ensures error.code == Some("ECONNREFUSED") ==> r.message == Str(AgentNotRunning)
    ensures error.code != Some("ECONNREFUSED") && Truthy(error.responseMessage) ==> r.message == error.responseMessage
    ensures error.code != Some("ECONNREFUSED") && !Truthy(error.responseMessage) ==> r.message == Str(AgentFailed)
  {
    if error.code == Some("ECONNREFUSED") then ErrorBody(false, Str(AgentNotRunning))
    else if Truthy(error.responseMessage) then ErrorBody(false, error.responseMessage)
    else ErrorBody(false, Str(AgentFailed))
  }

  /**
   * One property of `templates_base64` or `images_base64`. A string value
   * stands for the bytes it decodes to; any other JSON value makes
   * `Buffer.from(value, 'base64')` throw.
   */
  datatype PayloadValue = Base64Text(decoded: Bytes) | NotText

  datatype Entry = Entry(key: string, value: PayloadValue)

  /**
   * The agent's `get_enrollment_data` answer. Each map is its
   * `Object.entries` list, in iteration order; `None` is a missing or falsy
   * property.
   */
  datatype Payload = Payload(templates: Option<seq<Entry>>, images: Option<seq<Entry>>)

  /** The agent fetch either answers with a payload or throws. */
  datatype FetchOutcome = Fetched(payload: Payload) | FetchFailed(error: AgentError)

  const RequiredTemplateKeys := 10
  const RequiredImageKeys := 13

  /**
   * The completeness gate: both maps present, with at least ten template
   * keys and thirteen image keys. It counts keys and does not look at their
   * names.
   */
  predicate CompletenessGate(p: Payload) {
    && p.templates.Some? && |p.templates.value| >= RequiredTemplateKeys
    && p.images.Some? && |p.images.value| >= RequiredImageKeys
  }
}
