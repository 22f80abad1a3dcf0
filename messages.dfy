/** The conversation history that is sent upstream, and what a tool call contributes to it. */
module Messages {

  import Json
  import Weather
  import opened ToolCalls

  /** A message's content: text, or a list of structured parts. */
  datatype Content = Text(text: string) | Parts(parts: seq<Json.Value>)

  /** A request message after validation; other fields of the body are dropped by then. */
  datatype RequestMessage = RequestMessage(role: string, content: Content)

  /** What a tool returned, as a structured value: a weather record or an error object. */
  datatype Payload = WeatherResult(report: Weather.Report) | ErrorPayload(error: string)

  /** A tool message's content: the serialised payload, or the text of the exception raised. */
  datatype ToolContent = Output(payload: Payload) | Raised(text: string)

  datatype Message =
    | Chat(role: string, content: Content)                              // {"role", "content"}
    | AssistantToolCalls(toolCalls: seq<ToolCall>)                      // role "assistant", content None
    | ToolReply(toolCallId: string, name: string, output: ToolContent)  // role "tool"

  function Role(m: Message): string {
    match m
    case Chat(role, _) => role
    case AssistantToolCalls(_) => "assistant"
    case ToolReply(_, _, _) => "tool"
  }

  /** `[{"role": m.role, "content": m.content} for m in request.messages]`. */
  function Project(ms: seq<RequestMessage>): (r: seq<Message>)
    ensures |r| == |ms|
    ensures forall i :: 0 <= i < |ms| ==> r[i].Chat? && Role(r[i]) == ms[i].role && r[i].content == ms[i].content
  {
    if ms == [] then [] else [Chat(ms[0].role, ms[0].content)] + Project(ms[1..])
  }

  /** The projection loses nothing of a validated request: it can be read back message by message. */
  lemma {:induction false} ProjectRoundTrip(ms: seq<RequestMessage>)
    ensures Unproject(Project(ms)) == ms
  {
    if ms != [] {
      ProjectRoundTrip(ms[1..]);
      assert Project(ms)[1..] == Project(ms[1..]);
    }
  }

  function Unproject(hs: seq<Message>): seq<RequestMessage> {
    if hs == [] then []
    else (if hs[0].Chat? then [RequestMessage(hs[0].role, hs[0].content)] else []) + Unproject(hs[1..])
  }

}
