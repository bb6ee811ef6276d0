/**
 * The presence checks the HTTP handlers run on a request body before they
 * touch the agent or the database, and the `create_template` handler, which
 * after its check forwards the body to the agent.
 */
module Requests {
  import opened Base
  import opened Agent

  const MissingNameOrId := "Nama dan Nomor ID diperlukan."
  const IncompleteRequest := "Data tidak lengkap"

  /** `!value` is false: the field is present and not the empty string. */
  predicate Given(value: Option<string>) {
    value.Some? && value.value != ""
  }

  /** The check of `save_enrollment`: both `name` and `idNumber` must be given. */
  predicate SaveRequestComplete(name: Option<string>, idNumber: Option<string>) {
    Given(name) && Given(idNumber)
  }

  /** The check of `create_template`: a body with truthy `template_no` and `capture_type`. */
  predicate CreateTemplateRequestComplete(body: Option<map<string, JsValue>>) {
    body.Some? && Truthy(Field(body.value, "template_no")) && Truthy(Field(body.value, "capture_type"))
  }

  /** The agent's answer to a forwarded request. */
  datatype AgentAnswer = Answered(data: JsValue) | Failed(error: AgentError)

  /** A reply of a forwarding handler: the agent's data as is, or an error body. */
  datatype ProxyBody = Forwarded(data: JsValue) | Error(body: ErrorBody)
  datatype ProxyReply = ProxyReply(status: nat, body: ProxyBody)

  /**
   * `/api/create_template`: 400 on an incomplete body; otherwise the agent's
   * data, or 500 with the mapped agent error.
   */
  function CreateTemplate(body: Option<map<string, JsValue>>, agent: AgentAnswer): (r: ProxyReply)
    ensures r.status == 400 <==> !CreateTemplateRequestComplete(body)
    ensures r.status == 400 ==> r.body == Error(ErrorBody(false, Str(IncompleteRequest)))
    ensures r.status == 200 <==> CreateTemplateRequestComplete(body) && agent.Answered?
    ensures r.status == 200 ==> r.body == Forwarded(agent.data)
    ensures r.status == 500 ==> agent.Failed? && r.body == Error(HandleAgentError(agent.error))
    ensures r.status in {200, 400, 500}
  {
    if !CreateTemplateRequestComplete(body) then ProxyReply(400, Error(ErrorBody(false, Str(IncompleteRequest))))
    else match agent
      case Answered(data) => ProxyReply(200, Forwarded(data))
      case Failed(e) => ProxyReply(500, Error(HandleAgentError(e)))
  }

  /** An incomplete body is refused the same way whatever the agent would have said: the agent is never asked. */
  lemma CreateTemplateRejectsBeforeAgent(body: Option<map<string, JsValue>>, a: AgentAnswer, b: AgentAnswer)
    requires !CreateTemplateRequestComplete(body)
    ensures CreateTemplate(body, a) == CreateTemplate(body, b)
    ensures CreateTemplate(body, a).status == 400
  {
  }

  /** JavaScript truthiness at work: template number 0 is refused as missing. */
  lemma TemplateNumberZeroIsMissing(captureType: JsValue)
    ensures !CreateTemplateRequestComplete(Some(map["template_no" := Num(0.0), "capture_type" := captureType]))
  {
  }
}
