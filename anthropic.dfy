/**
 * The Anthropic model client (app/models/anthropic.js): the output-token
 * budget chosen per model, how a chat call is turned into a Messages API
 * request (system prompt, user messages only, image parts rewritten as
 * base64 sources, tool definitions renamed, tool choice), and how a reply's
 * content blocks become the text and tool calls the agent consumes.
 *
 * The SDK client, retries, the abort signal, logging, the text callback and
 * the temperature (a float passed through untouched) are not modelled.
 */
module AnthropicModels {
  import opened Values
  import opened Seqs
  import opened Text

  /** The model that gets the larger output budget behind a beta header. */
  const LongOutputModel := "claude-3-5-sonnet-20240620"
  const LongOutputBeta := "max-tokens-3-5-sonnet-2024-07-15"
  const DefaultMaxTokens := 4096
  const LongMaxTokens := 8192
  const MaxRetries := 5

  /** What the constructor fixes: model, key, retries, optional base URL, token budget and beta header. */
  datatype ClientConfig = ClientConfig(
    model: string,
    apiKey: string,
    maxRetries: nat,
    baseUrl: Option<string>,
    maxTokens: nat,
    betaHeader: Option<string>)

  /** JavaScript truthiness of an optional string. */
  predicate Present(s: Option<string>) {
    s.Some? && s.value != ""
  }

  /**
   * The constructor: 8192 output tokens and the beta header for the one
   * long-output model, 4096 and no header for every other; the base URL is
   * passed on only when it is truthy.
   */
  function NewClient(model: string, apiKey: string, baseUrl: Option<string>): (c: ClientConfig)
    ensures c.model == model && c.apiKey == apiKey && c.maxRetries == MaxRetries
    ensures c.maxTokens == (if model == LongOutputModel then LongMaxTokens else DefaultMaxTokens)
    ensures c.betaHeader.Some? <==> c.maxTokens > DefaultMaxTokens
    ensures c.betaHeader.Some? ==> c.betaHeader.value == LongOutputBeta
    ensures c.baseUrl.Some? <==> Present(baseUrl)
    ensures c.baseUrl.Some? ==> c.baseUrl == baseUrl
  {
    var long := model == LongOutputModel;
    ClientConfig(
      model, apiKey, MaxRetries,
      if Present(baseUrl) then baseUrl else None,
      if long then LongMaxTokens else DefaultMaxTokens,
      if long then Some(LongOutputBeta) else None)
  }

  // ---------------------------------------------------------------------
  // Messages
  // ---------------------------------------------------------------------

  predicate IsSystem(m: Message) {
    m.role == System
  }

  predicate IsUser(m: Message) {
    m.role == User
  }

  /** `messages.find(role === 'system')?.content`, or null. */
  function SystemPrompt(messages: seq<Message>): (r: Option<Content>)
    ensures r.None? <==> forall i :: 0 <= i < |messages| ==> messages[i].role != System
    ensures r.Some? ==> exists i :: (0 <= i < |messages| && messages[i].role == System
      && r.value == messages[i].content
      && forall j :: 0 <= j < i ==> messages[j].role != System)
  {
    var k := FindIndex(messages, IsSystem);
    if k == -1 then None else Some(messages[k].content)
  }

  /** One content part as the Messages API takes it. */
  datatype AnthropicPart =
    | AText(text: string)
    | AImage(mediaType: string, data: Option<string>)

  /** A user message as sent: rebuilt from its parts, or the original message untouched. */
  datatype AnthropicMessage =
    | UserParts(parts: seq<AnthropicPart>)
    | Unchanged(message: Message)

  /**
   * `url.split(',')[1]`: the text between the first comma and the next one;
   * undefined (dropped from the JSON) when the URL has no comma.
   */
  function ImageData(url: string): Option<string> {
    var pieces := Split(url, ',');
    if |pieces| >= 2 then Some(pieces[1]) else None
  }

  /** A data URL `header,data` yields its data, and so does one with a further comma after the data. */
  lemma ImageDataOfDataUrl(header: string, data: string, more: string)
    requires ',' !in header && ',' !in data
    ensures ImageData(header + [','] + data) == Some(data)
    ensures ImageData(header + [','] + data + [','] + more) == Some(data)
  {
    SplitAround(header, data, ',');
    SplitNoSeparator(header, ',');
    SplitNoSeparator(data, ',');
    assert header + [','] + data + [','] + more == header + [','] + (data + [','] + more);
    SplitAround(header, data + [','] + more, ',');
    SplitAround(data, more, ',');
  }

  /** A URL with no comma carries no data. */
  lemma ImageDataWithoutComma(url: string)
    requires ',' !in url
    ensures ImageData(url) == None
  {
    SplitNoSeparator(url, ',');
  }

  /** `formatImageUrlContent` for image parts; every other part passes through as it is. */
  function FormatPart(p: Part): (r: AnthropicPart)
    ensures p.TextPart? ==> r == AText(p.text)
    ensures p.ImageUrlPart? ==> r == AImage(p.mediaType, ImageData(p.url))
  {
    match p
    case TextPart(t) => AText(t)
    case ImageUrlPart(url, mediaType) => AImage(mediaType, ImageData(url))
  }

  /** One user message: an array content is rebuilt part by part (keeping only role and content); any other content is sent as it is. */
  function FormatUserMessage(m: Message): AnthropicMessage {
    match m.content
    case Parts(ps) => UserParts(seq(|ps|, i requires 0 <= i < |ps| => FormatPart(ps[i])))
    case _ => Unchanged(m)
  }

  /**
   * `formatUserMessages`: exactly the user messages, in order, each
   * formatted; everything else (the system prompt, assistant turns, tool
   * results) is dropped.
   */
  function FormatUserMessages(messages: seq<Message>): (r: seq<AnthropicMessage>)
    ensures |r| == |Filter(messages, IsUser)|
    ensures forall i :: 0 <= i < |r| ==> r[i] == FormatUserMessage(Filter(messages, IsUser)[i])
  {
    var users := Filter(messages, IsUser);
    seq(|users|, i requires 0 <= i < |users| => FormatUserMessage(users[i]))
  }

  /** What is sent as it is, is a user message from the input whose content is not an array. */
  lemma UnchangedAreUserMessages(messages: seq<Message>, i: nat)
    requires i < |FormatUserMessages(messages)| && FormatUserMessages(messages)[i].Unchanged?
    ensures var m := FormatUserMessages(messages)[i].message;
      m in messages && m.role == User && !m.content.Parts?
  {
  }

  /** A rebuilt message keeps the number and order of its parts, and its text parts verbatim. */
  lemma PartsKeepTheirText(m: Message, i: nat)
    requires m.content.Parts? && i < |m.content.parts| && m.content.parts[i].TextPart?
    ensures FormatUserMessage(m).UserParts? && |FormatUserMessage(m).parts| == |m.content.parts|
    ensures FormatUserMessage(m).parts[i] == AText(m.content.parts[i].text)
  {
  }

  /** Formatting distributes over concatenated histories. */
  lemma FormatUserMessagesAppend(a: seq<Message>, b: seq<Message>)
    ensures FormatUserMessages(a + b) == FormatUserMessages(a) + FormatUserMessages(b)
  {
    FilterAppend(a, b, IsUser);
  }

  // ---------------------------------------------------------------------
  // Tools
  // ---------------------------------------------------------------------

  /** A tool definition, as a JSON object's fields. */
  type ToolDef = map<string, Json>

  /**
   * `anthropicToolFormat`: `{...rest, input_schema: parameters}`. Every
   * other field is kept; a definition without `parameters` loses any
   * `input_schema` it had, because the spread is overwritten by `undefined`.
   */
  function AnthropicToolFormat(tool: ToolDef): (r: ToolDef)
    ensures "parameters" !in r
    ensures "input_schema" in r <==> "parameters" in tool
    ensures "input_schema" in r ==> r["input_schema"] == tool["parameters"]
    ensures forall k :: k in tool && k != "parameters" && k != "input_schema" ==> k in r && r[k] == tool[k]
    ensures forall k :: k in r ==> k in tool || k == "input_schema"
  {
    var rest := tool - {"parameters", "input_schema"};
    if "parameters" in tool then rest["input_schema" := tool["parameters"]] else rest
  }

  /** The inverse renaming, from `input_schema` back to `parameters`. */
  function ToOpenAiToolFormat(tool: ToolDef): ToolDef {
    var rest := tool - {"parameters", "input_schema"};
    if "input_schema" in tool then rest["parameters" := tool["input_schema"]] else rest
  }

  /** A definition that does not already use `input_schema` survives the renaming round trip. */
  lemma ToolFormatRoundTrip(tool: ToolDef)
    requires "input_schema" !in tool
    ensures ToOpenAiToolFormat(AnthropicToolFormat(tool)) == tool
  {
    var r := ToOpenAiToolFormat(AnthropicToolFormat(tool));
    assert forall k :: k in r <==> k in tool;
  }

  function FormatTools(ts: seq<ToolDef>): (r: seq<ToolDef>)
    ensures |r| == |ts| && forall i :: 0 <= i < |ts| ==> r[i] == AnthropicToolFormat(ts[i])
  {
    seq(|ts|, i requires 0 <= i < |ts| => AnthropicToolFormat(ts[i]))
  }

  /** `[tool, ...(tools || [])].filter(Boolean)`. */
  function ToolList(tool: Option<ToolDef>, tools: Option<seq<ToolDef>>): seq<ToolDef> {
    (if tool.Some? then [tool.value] else []) + (if tools.Some? then tools.value else [])
  }

  predicate IsRequired(toolChoice: Option<Json>) {
    toolChoice == Some(JStr("required"))
  }

  predicate ChoiceGiven(toolChoice: Option<Json>) {
    toolChoice.Some? && Truthy(toolChoice.value)
  }

  /** `{ type: 'any' }`: the model must call some tool. */
  const AnyTool := JObj(map["type" := JStr("any")])

  /** `{ type: 'tool', name: tool.name }`; a missing name is left out, as JSON leaves out `undefined`. */
  function ForceTool(tool: ToolDef): Json {
    var name := if "name" in tool then map["name" := tool["name"]] else map[];
    JObj(name["type" := JStr("tool")])
  }

  /** The Messages API request: model, system, messages, output budget, tools, tool choice and whether it streams. */
  datatype AnthropicRequest = AnthropicRequest(
    model: string,
    system: Option<Content>,
    messages: seq<AnthropicMessage>,
    maxTokens: nat,
    tools: seq<ToolDef>,
    toolChoice: Option<Json>,
    stream: bool)

  /**
   * `call`: a given `tool` or the choice `required` takes the non-streaming
   * tool path, whose tool choice is `any` for `required` and otherwise
   * forces the first tool, overriding any choice the caller gave; every
   * other call streams with all tools and keeps a truthy choice. Streaming
   * without a tool list throws, as `tools.map` does on null.
   */
  function AnthropicCall(config: ClientConfig, messages: seq<Message>, model: Option<string>, tool: Option<ToolDef>,
                         tools: Option<seq<ToolDef>>, toolChoice: Option<Json>): (r: Result<AnthropicRequest>)
    ensures r.Err? <==> tool.None? && !IsRequired(toolChoice) && tools.None?
    ensures r.Ok? ==> (!r.value.stream <==> tool.Some? || IsRequired(toolChoice))
    ensures r.Ok? ==> r.value.model == (if Present(model) then model.value else config.model)
    ensures r.Ok? ==> r.value.system == SystemPrompt(messages) && r.value.maxTokens == config.maxTokens
    ensures r.Ok? ==> r.value.messages == FormatUserMessages(messages)
    ensures r.Ok? && !r.value.stream ==> r.value.tools == FormatTools(ToolList(tool, tools))
    ensures r.Ok? && r.value.stream ==> r.value.tools == FormatTools(tools.value)
    ensures IsRequired(toolChoice) ==> r.Ok? && r.value.toolChoice == Some(AnyTool)
    ensures tool.Some? && !IsRequired(toolChoice) ==> r.Ok? && r.value.toolChoice == Some(ForceTool(tool.value))
    ensures r.Ok? && r.value.stream ==> r.value.toolChoice == (if ChoiceGiven(toolChoice) then toolChoice else None)
  {
    var base := AnthropicRequest(
      if Present(model) then model.value else config.model,
      SystemPrompt(messages),
      FormatUserMessages(messages),
      config.maxTokens,
      [],
      if ChoiceGiven(toolChoice) then toolChoice else None,
      true);
    if tool.Some? || IsRequired(toolChoice) then
      var list := ToolList(tool, tools);
      var choice := if IsRequired(toolChoice) then AnyTool else ForceTool(list[0]);
      Ok(base.(tools := FormatTools(list), toolChoice := Some(choice), stream := false))
    else if tools.None? then Err("Cannot read properties of null (reading 'map')")
    else Ok(base.(tools := FormatTools(tools.value)))
  }

  /** On the tool path, the caller's own tool choice other than `required` makes no difference. */
  lemma GivenChoiceIgnoredOnToolPath(config: ClientConfig, messages: seq<Message>, model: Option<string>,
                                     tool: ToolDef, tools: Option<seq<ToolDef>>, c1: Option<Json>, c2: Option<Json>)
    requires !IsRequired(c1) && !IsRequired(c2)
    ensures AnthropicCall(config, messages, model, Some(tool), tools, c1)
         == AnthropicCall(config, messages, model, Some(tool), tools, c2)
  {
  }

  // ---------------------------------------------------------------------
  // Replies
  // ---------------------------------------------------------------------

  /** A reply content block. */
  datatype Block =
    | TextBlock(text: string)
    | ToolUseBlock(name: string, input: Json)
    | OtherBlock(kind: string)

  /** The final message of a call: its content blocks and token usage. */
  datatype FinalMessage = FinalMessage(content: seq<Block>, inputTokens: nat, outputTokens: nat)

  /** What `stream` and `toolUse` return, and the usage they report. */
  datatype AnthropicReply = AnthropicReply(content: string, toolCalls: seq<ToolCall>, usage: nat)

  predicate IsText(b: Block) {
    b.TextBlock?
  }

  predicate IsToolUse(b: Block) {
    b.ToolUseBlock?
  }

  /** The first text block's text, or "" when there is none. */
  function FirstText(blocks: seq<Block>): (r: string)
    ensures (forall i :: 0 <= i < |blocks| ==> !blocks[i].TextBlock?) ==> r == ""
    ensures r != "" ==> exists i :: (0 <= i < |blocks| && blocks[i] == TextBlock(r)
      && forall j :: 0 <= j < i ==> !blocks[j].TextBlock?)
  {
    var k := FindIndex(blocks, IsText);
    if k == -1 then "" else blocks[k].text
  }

  /** The tool-use blocks, in order, as `{name, arguments}` calls; a reply without any gives an empty list, never null. */
  function ToolUses(blocks: seq<Block>): (r: seq<ToolCall>)
    ensures (forall i :: 0 <= i < |blocks| ==> !blocks[i].ToolUseBlock?) ==> r == []
    ensures |r| == |Filter(blocks, IsToolUse)|
    ensures forall i :: 0 <= i < |r| ==>
      r[i] == ToolCall(Filter(blocks, IsToolUse)[i].name, Filter(blocks, IsToolUse)[i].input)
  {
    var uses := Filter(blocks, IsToolUse);
    if forall i :: 0 <= i < |blocks| ==> !blocks[i].ToolUseBlock? then
      FilterNone(blocks, IsToolUse);
      []
    else
      seq(|uses|, i requires 0 <= i < |uses| => ToolCall(uses[i].name, uses[i].input))
  }

  /** Every call comes from a tool-use block of the reply, with that block's name and input. */
  lemma ToolUsesFromBlocks(blocks: seq<Block>, i: nat)
    requires i < |ToolUses(blocks)|
    ensures ToolUseBlock(ToolUses(blocks)[i].name, ToolUses(blocks)[i].arguments) in blocks
  {
    var uses := Filter(blocks, IsToolUse);
    assert uses[i] in blocks && uses[i].ToolUseBlock?;
  }

  /** `formattedToolCalls`: builds the list by pushing one call per tool-use block. */
  method FormattedToolCalls(content: seq<Block>) returns (calls: seq<ToolCall>)
    ensures calls == ToolUses(content)
  {
    var toolUses := Filter(content, IsToolUse);
    calls := [];
    var i := 0;
    while i < |toolUses|
      invariant 0 <= i <= |toolUses|
      invariant |calls| == i
      invariant forall j :: 0 <= j < i ==> calls[j] == ToolCall(toolUses[j].name, toolUses[j].input)
    {
      calls := calls + [ToolCall(toolUses[i].name, toolUses[i].input)];
      i := i + 1;
    }
  }

  /**
   * The reply of `stream` and of `toolUse`: the first text block's text,
   * the tool calls, and input plus output tokens as the usage reported to
   * the controller.
   */
  method ReadReply(final: FinalMessage) returns (reply: AnthropicReply)
    ensures reply.content == FirstText(final.content)
    ensures reply.toolCalls == ToolUses(final.content)
    ensures reply.usage == final.inputTokens + final.outputTokens
  {
    var calls := FormattedToolCalls(final.content);
    reply := AnthropicReply(FirstText(final.content), calls, final.inputTokens + final.outputTokens);
  }
}
