/** The values that pass through the human-controlled MCP server's broker:
    queued tool calls, the human's answers, and what a tool call finally yields. */
module Messages {

  datatype Option<+T> = None | Some(value: T)

  /** A JSON value as carried in a tool call's `arguments`; the broker stores it
      and hands it to the web page without looking inside. */
  datatype Json =
    | Null
    | Bool(b: bool)
    | Number(n: int)
    | Str(s: string)
    | Array(items: seq<Json>)
    | Object(fields: map<string, Json>)

  /** An entry of `pending_requests`: which tool was called, with what, and when
      it was queued (the timestamp is only shown to the human). */
  datatype Request = Request(toolName: string, arguments: map<string, Json>, timestamp: string)

  /** An entry of `completed_responses`: the human's text and whether the human
      marked it as an error. */
  datatype Answer = Answer(response: string, isError: bool)

  /** One POST to `/submit_response`. */
  datatype Submission = Submission(requestId: string, answer: Answer)

  /** The JSON body `/submit_response` sends back. */
  datatype Reply = Accepted | Rejected(error: string)

  const NotFound := "Request not found"

  /** How a tool call ends: the human's text, the human's text raised as an
      exception, or the timeout exception. */
  datatype Outcome = Success(text: string) | HumanError(message: string) | Timeout

  const TimeoutMessage := "Request timed out - no human response received within 5 minutes"

  /** `max_wait`: the number of one-second polls before a call gives up. */
  const MaxWait: nat := 300

  /** What a collected answer turns into: an error flag raises the text, otherwise
      the text is the tool's result. */
  function Verdict(a: Answer): (o: Outcome)
    ensures o != Timeout
    ensures o.HumanError? <==> a.isError
    ensures o == Success(a.response) || o == HumanError(a.response)
  {
    if a.isError then HumanError(a.response) else Success(a.response)
  }

  /** The text the protocol layer receives for an outcome (the exception's
      message for the two failures), and whether it is marked as an error. */
  function ToolResult(o: Outcome): (r: (bool, string))
    ensures r.0 <==> !o.Success?
    ensures o.Timeout? ==> r.1 == TimeoutMessage
    ensures o.Success? ==> r.1 == o.text
    ensures o.HumanError? ==> r.1 == o.message
  {
    match o
    case Success(text) => (false, text)
    case HumanError(message) => (true, message)
    case Timeout => (true, TimeoutMessage)
  }
}
