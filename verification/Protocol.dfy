/** Messages, Tool calls and Tool results as the providers and the agent loop exchange them. */
module Protocol {
  import opened Text
  import opened Json

  datatype Role = System | User | Assistant

  datatype Transport = Native | Xml

  datatype ToolCall = ToolCall(id: string, name: string, arguments: Json, transport: Transport)

  datatype Status = Ok | Rejected | Failed

  datatype ToolResult =
    ToolResult(callId: string, name: string, status: Status, output: Json, errorCode: Option<string>)

  datatype ChatMessage = ChatMessage(
    role: Role,
    content: string,
    images: seq<string>,
    toolCalls: seq<ToolCall>,
    toolResult: Option<ToolResult>,
    control: bool)

  /** A message that is only text. */
  function Plain(role: Role, content: string): ChatMessage {
    ChatMessage(role, content, [], [], None, false)
  }

  /** A round-control message. */
  function Control(content: string): ChatMessage {
    ChatMessage(System, content, [], [], None, true)
  }

  const FINISH := "shirita.run.finish"
  const REPLACE := "shirita.response.replace"
  const PATCH := "shirita.response.patch"
  const UPDATE_STATUS := "shirita.run.update_status"

  predicate IsResponseControl(name: string) {
    name == REPLACE || name == PATCH
  }
}
