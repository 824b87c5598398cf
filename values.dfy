/**
 * Value types shared by every component of the assistant: optional and
 * failing results, JSON values as produced by `JSON.parse`, message roles,
 * message contents and the two message shapes the chat keeps.
 */
module Values {

  datatype Option<+T> = None | Some(value: T)

  /** A computation that either returns a value or throws an error with a message. */
  datatype Result<+T> = Ok(value: T) | Err(error: string)

  /**
   * For a member whose source has a defect: follow the code as written, or
   * the behaviour evidently intended.
   */
  datatype Reading = AsWritten | AsIntended

  /** A JSON value. Objects are keyed maps; key order is not modelled. */
  datatype Json =
    | JNull
    | JBool(b: bool)
    | JNum(n: int)
    | JStr(s: string)
    | JArr(items: seq<Json>)
    | JObj(fields: map<string, Json>)

  /** JavaScript truthiness of a JSON value: null, false, 0 and "" are falsy. */
  predicate Truthy(j: Json) {
    match j
    case JNull => false
    case JBool(b) => b
    case JNum(n) => n != 0
    case JStr(s) => s != ""
    case _ => true
  }

  /** The value of `obj[key]`, or None when `obj` is not an object or lacks the key. */
  function Field(obj: Json, key: string): Option<Json> {
    if obj.JObj? && key in obj.fields then Some(obj.fields[key]) else None
  }

  /** Roles used by the backend and frontend message streams. */
  datatype Role = System | User | Assistant | Tool | Function | ErrorRole

  /** One part of a multi-part message content. */
  datatype Part =
    | TextPart(text: string)
    | ImageUrlPart(url: string, mediaType: string)

  /** Message content: `null`, a plain string, or an array of parts. */
  datatype Content = NullContent | Str(s: string) | Parts(parts: seq<Part>)

  /** JavaScript truthiness of a content value: null and "" are falsy, arrays are truthy. */
  predicate ContentTruthy(c: Content) {
    match c
    case NullContent => false
    case Str(s) => s != ""
    case Parts(_) => true
  }

  /** A legacy `function_call` record: a tool name and its raw JSON argument text. */
  datatype FunctionCall = FunctionCall(name: string, arguments: string)

  /** A normalised tool call: a tool name and its already parsed arguments. */
  datatype ToolCall = ToolCall(name: string, arguments: Json)

  /** A backend (model-facing) message. */
  datatype Message = Message(
    id: int,
    role: Role,
    content: Content,
    functionCall: Option<FunctionCall>,
    name: Option<string>,
    toolCalls: Option<seq<ToolCall>>)

  /** A frontend (display) message, linked to the backend message that was latest when it was added. */
  datatype FrontendMessage = FrontendMessage(id: int, role: Role, content: Content, backendMessageId: int)
}
