/**
 * How the interaction layer takes apart the response envelopes of
 * `Runtime.evaluate`, and the errors it reports.
 */
module Responses {
  import opened Basics
  import opened Json
  import opened Capability

  datatype Error =
    /** a capability error handed back unchanged */
    | Sent(reason: string)
    /** `fmt.Errorf("<context>: %w", err)` around a capability error */
    | Wrapped(context: string, reason: string)
    /** `fmt.Errorf("<context>: %v", response)`: the envelope did not have the expected shape */
    | Unexpected(context: string, response: map<string, Value>)
    /** the selector did not appear before the poll loop's deadline */
    | Timeout(selector: string)

  const UnexpectedFormat := "unexpected response format"
  const UnexpectedInnerText := "unexpected response format for inner text"

  /** Where `Runtime.evaluate` puts a by-value result: the envelope's `result`, whose `result` is the remote object. */
  const ValuePath := ["result", "result", "value"]

  /** The one-level path `InnerText` reads as written. */
  const ShallowPath := ["result", "value"]

  /** `elementExists`: the boolean at the two-level path, and nothing else. */
  function ExistsValue(response: map<string, Value>): (r: Result<bool, Error>)
    ensures r.Ok? <==> At(Obj(response), ValuePath).Bool?
    ensures r.Ok? ==> r.value == At(Obj(response), ValuePath).b
    ensures r.Err? ==> r.error == Unexpected(UnexpectedFormat, response)
  {
    match Lookup(response, "result")
    case Obj(result) =>
      (match Lookup(result, "result")
       case Obj(nested) =>
         (match Lookup(nested, "value")
          case Bool(v) => Ok(v)
          case _ => Err(Unexpected(UnexpectedFormat, response)))
       case _ => Err(Unexpected(UnexpectedFormat, response)))
    case _ => Err(Unexpected(UnexpectedFormat, response))
  }

  /** `elementExists` including its send: a send error is passed through as it is. */
  function ProbeOutcome(reply: Reply): (r: Result<bool, Error>)
    ensures reply.Refusal? ==> r == Err(Sent(reply.reason))
    ensures r.Ok? <==> reply.Answer? && At(Obj(reply.response), ValuePath).Bool?
  {
    match reply
    case Refusal(m) => Err(Sent(m))
    case Answer(response) => ExistsValue(response)
  }

  /** The probe reply that ends a poll loop: an answer carrying `true` at the two-level path. */
  predicate Found(reply: Reply)
  {
    reply.Answer? && At(Obj(reply.response), ValuePath) == Bool(true)
  }

  /** A probe succeeds with `true` exactly on the replies that end a poll loop. */
  lemma ProbeOutcomeFound(reply: Reply)
    ensures ProbeOutcome(reply) == Ok(true) <==> Found(reply)
  {
  }

  /** `GetHtml`: a string at the two-level path. */
  function HtmlValue(response: map<string, Value>): (r: Result<string, Error>)
    ensures r.Ok? <==> At(Obj(response), ValuePath).Str?
    ensures r.Ok? ==> r.value == At(Obj(response), ValuePath).s
    ensures r.Err? ==> r.error == Unexpected(UnexpectedFormat, response)
  {
    match Lookup(response, "result")
    case Obj(resultMap) =>
      (match Lookup(resultMap, "result")
       case Obj(nested) =>
         (match Lookup(nested, "value")
          case Str(html) => Ok(html)
          case _ => Err(Unexpected(UnexpectedFormat, response)))
       case _ => Err(Unexpected(UnexpectedFormat, response)))
    case _ => Err(Unexpected(UnexpectedFormat, response))
  }

  /** `GetHttpStatus`: a number at the two-level path, converted with Go's `int(f)`. */
  function StatusValue(response: map<string, Value>): (r: Result<int, Error>)
    ensures r.Ok? <==> At(Obj(response), ValuePath).Num?
    ensures r.Ok? ==> r.value == Trunc(At(Obj(response), ValuePath).x)
    ensures r.Err? ==> r.error == Unexpected(UnexpectedFormat, response)
  {
    match Lookup(response, "result")
    case Obj(result) =>
      (match Lookup(result, "result")
       case Obj(nested) =>
         (match Lookup(nested, "value")
          case Num(status) => Ok(Trunc(status))
          case _ => Err(Unexpected(UnexpectedFormat, response)))
       case _ => Err(Unexpected(UnexpectedFormat, response)))
    case _ => Err(Unexpected(UnexpectedFormat, response))
  }

  /** `InnerText` as written: a string at the ONE-level path `response["result"]["value"]`. */
  function InnerTextAsWritten(response: map<string, Value>): (r: Result<string, Error>)
    ensures r.Ok? <==> At(Obj(response), ShallowPath).Str?
    ensures r.Ok? ==> r.value == At(Obj(response), ShallowPath).s
    ensures r.Err? ==> r.error == Unexpected(UnexpectedInnerText, response)
  {
    match Lookup(response, "result")
    case Obj(result) =>
      (match Lookup(result, "value")
       case Str(value) => Ok(value)
       case _ => Err(Unexpected(UnexpectedInnerText, response)))
    case _ => Err(Unexpected(UnexpectedInnerText, response))
  }

  /** `InnerText` reading the path every other evaluation in the file reads. */
  function InnerTextValue(response: map<string, Value>): (r: Result<string, Error>)
    ensures r.Ok? <==> At(Obj(response), ValuePath).Str?
    ensures r.Ok? ==> r.value == At(Obj(response), ValuePath).s
    ensures r.Err? ==> r.error == Unexpected(UnexpectedInnerText, response)
  {
    match Lookup(response, "result")
    case Obj(result) =>
      (match Lookup(result, "result")
       case Obj(nested) =>
         (match Lookup(nested, "value")
          case Str(value) => Ok(value)
          case _ => Err(Unexpected(UnexpectedInnerText, response)))
       case _ => Err(Unexpected(UnexpectedInnerText, response)))
    case _ => Err(Unexpected(UnexpectedInnerText, response))
  }

  /** The envelope a browser sends for a `Runtime.evaluate` with `returnByValue` whose script yields the string `text`. */
  function EvaluateReply(id: real, text: string): map<string, Value>
  {
    map["id" := Num(id), "result" := Obj(map["result" := Obj(map["type" := Str("string"), "value" := Str(text)])])]
  }

  /** As written, `InnerText` rejects every well-formed reply: the string sits one level deeper than it looks. */
  lemma InnerTextAsWrittenRejectsEvaluateReply(id: real, text: string)
    ensures InnerTextAsWritten(EvaluateReply(id, text)) == Err(Unexpected(UnexpectedInnerText, EvaluateReply(id, text)))
    ensures HtmlValue(EvaluateReply(id, text)) == Ok(text)
  {
  }

  /** The corrected reading returns the script's string from the same reply. */
  lemma InnerTextValueAcceptsEvaluateReply(id: real, text: string)
    ensures InnerTextValue(EvaluateReply(id, text)) == Ok(text)
  {
  }

  /** The corrected reading accepts exactly the envelopes `GetHtml` accepts, with the same text. */
  lemma InnerTextAgreesWithHtml(response: map<string, Value>)
    ensures InnerTextValue(response).Ok? <==> HtmlValue(response).Ok?
    ensures InnerTextValue(response).Ok? ==> InnerTextValue(response).value == HtmlValue(response).value
  {
  }
}
