/**
 * The research agent (app/chat/planner/researchAgent.js): answers one
 * research item by a bounded loop of model calls in which the model may
 * call the planner tools, until it calls the `output` tool.
 *
 * The language model is the function `respond`, which sees the step number
 * and the call's parameters; the planner tools' execution is `execute`;
 * `JSON.stringify` is `stringify`. The shared result cache is the field
 * `cache`. The model calls made are recorded in the ghost field `calls`.
 */
module ResearchAgents {
  import opened Values
  import opened Seqs
  import opened Text
  import opened PlannerTools

  const MaxStepsDefault := 4

  /** `researchItem.maxSteps || MAX_STEPS`. */
  function MaxSteps(maxSteps: Option<int>): (n: int)
    ensures maxSteps.None? || maxSteps == Some(0) ==> n == MaxStepsDefault
    ensures maxSteps.Some? && maxSteps.value != 0 ==> n == maxSteps.value
  {
    if maxSteps.Some? && maxSteps.value != 0 then maxSteps.value else MaxStepsDefault
  }

  /** Where a research item's extra context comes from: nothing, one source, or several. */
  datatype AdditionalInformation = NoInformation | OneSource(source: string) | Sources(sources: seq<string>)

  datatype ResearchItem = ResearchItem(
    name: string,
    description: string,
    prompt: string,
    outputFormat: Json,
    additionalInformation: AdditionalInformation,
    cache: bool,
    model: Option<string>,
    maxSteps: Option<int>)

  /** A message of the research conversation. */
  datatype ResearchMessage = ResearchMessage(
    role: Role, content: Option<string>, functionCall: Option<FunctionCall>, name: Option<string>)

  /** A tool as offered to the model. */
  datatype FormattedTool = FormattedTool(name: string, description: string, parameters: Json)

  /** The parameters of one model call. */
  datatype StepCall =
    | ForceOutput(messages: seq<ResearchMessage>, tool: FormattedTool)
    | OfferAll(messages: seq<ResearchMessage>, tools: seq<FormattedTool>, toolChoice: string)

  /** What the model answered: tool calls, when the answer has them, and text. */
  datatype ModelResponse = ModelResponse(toolCalls: Option<seq<ToolCall>>, content: Option<string>)

  /** What the agent reads from the project when it builds its system message. */
  datatype Environment = Environment(
    projectPath: string,
    currentDirectory: string,
    folderStructure: string,
    relevantFilesContent: string,
    chatTaskContext: Option<string>,
    potentiallyRelevantFiles: Option<seq<string>>)

  /** `setCache`/`getCache`'s key: results are kept per project. */
  function CacheKey(projectPath: string, name: string): string {
    projectPath + "-" + name
  }

  /** Different item names give different keys within one project, and different projects never share a key for one item. */
  lemma CacheKeySeparatesItems(projectPath: string, a: string, b: string)
    requires a != b
    ensures CacheKey(projectPath, a) != CacheKey(projectPath, b)
  {
    var p := projectPath + "-";
    assert CacheKey(projectPath, a)[|p|..] == a;
    assert CacheKey(projectPath, b)[|p|..] == b;
  }

  function FormatTools(ts: seq<PlannerTool>): (r: seq<FormattedTool>)
    ensures |r| == |ts|
    ensures forall i :: 0 <= i < |ts| ==> r[i] == FormattedTool(ts[i].name, ts[i].description, ts[i].parameters)
  {
    if ts == [] then [] else [FormattedTool(ts[0].name, ts[0].description, ts[0].parameters)] + FormatTools(ts[1..])
  }

  /** The tool offered alone on the last step: the `output` tool of the item's tool set. */
  function OutputTool(outputFormat: Json): (t: FormattedTool)
    ensures t.name == "output"
    ensures Field(t.parameters, "properties") == Some(outputFormat)
  {
    ToolsOnlyChangeOutput(outputFormat);
    var ts := PlannerToolsFor(outputFormat);
    FormattedTool(ts[2].name, ts[2].description, ts[2].parameters)
  }

  /** The parameters of step `i` of `maxSteps`. */
  function StepParams(i: int, maxSteps: int, messages: seq<ResearchMessage>, outputFormat: Json): (c: StepCall)
    ensures i == maxSteps - 1 ==> c.ForceOutput? && c.tool.name == "output"
    ensures i != maxSteps - 1 ==>
      (c.OfferAll? && c.toolChoice == "required" && c.tools == FormatTools(PlannerToolsFor(outputFormat)))
    ensures c.messages == messages
  {
    if i == maxSteps - 1 then ForceOutput(messages, OutputTool(outputFormat))
    else OfferAll(messages, FormatTools(PlannerToolsFor(outputFormat)), "required")
  }

  /** A tool call is the final answer when it calls the `output` tool. */
  predicate IsOutputCall(c: ToolCall) {
    c.name == "output"
  }

  /** `availableTools.find(t => t.name === name)`. */
  function FindPlannerTool(tools: seq<PlannerTool>, name: string): (r: Option<PlannerTool>)
    ensures r.Some? ==> r.value in tools && r.value.name == name
    ensures r.None? ==> forall i :: 0 <= i < |tools| ==> tools[i].name != name
  {
    var k := FindIndex(tools, (t: PlannerTool) => t.name == name);
    if k == -1 then None else Some(tools[k])
  }

  /**
   * The messages `executeToolAndUpdateMessages` appends: for a known,
   * executable tool, the assistant's function call and the tool's result;
   * otherwise none.
   */
  function ToolMessages(call: ToolCall, tools: seq<PlannerTool>, execute: (string, Json) -> string, stringify: Json -> string)
    : (r: seq<ResearchMessage>)
    ensures var t := FindPlannerTool(tools, call.name);
      if t.Some? && t.value.executable then
        |r| == 2
        && r[0] == ResearchMessage(Assistant, None, Some(FunctionCall(call.name, stringify(call.arguments))), None)
        && r[1] == ResearchMessage(Function, Some(execute(call.name, call.arguments)), None, Some(call.name))
      else r == []
  {
    var t := FindPlannerTool(tools, call.name);
    if t.Some? && t.value.executable then
      [ResearchMessage(Assistant, None, Some(FunctionCall(call.name, stringify(call.arguments))), None),
       ResearchMessage(Function, Some(execute(call.name, call.arguments)), None, Some(call.name))]
    else []
  }

  /** The messages appended by executing `calls` in order. */
  function ExecutedMessages(calls: seq<ToolCall>, tools: seq<PlannerTool>, execute: (string, Json) -> string, stringify: Json -> string)
    : seq<ResearchMessage>
  {
    if calls == [] then [] else ExecutedMessages(calls[..|calls| - 1], tools, execute, stringify) + ToolMessages(calls[|calls| - 1], tools, execute, stringify)
  }

  /** The calls `executeToolAndUpdateMessages` runs: those naming a known, executable tool. */
  function Runnable(tools: seq<PlannerTool>): ToolCall -> bool {
    (c: ToolCall) => FindPlannerTool(tools, c.name).Some? && FindPlannerTool(tools, c.name).value.executable
  }

  lemma ToolMessagesCount(call: ToolCall, tools: seq<PlannerTool>, execute: (string, Json) -> string, stringify: Json -> string)
    ensures |ToolMessages(call, tools, execute, stringify)| == if Runnable(tools)(call) then 2 else 0
  {
  }

  /** Each executed call contributes its two messages or none, so the log grows by an even number. */
  lemma {:induction false} ExecutedMessagesCount(calls: seq<ToolCall>, tools: seq<PlannerTool>, execute: (string, Json) -> string, stringify: Json -> string)
    ensures |ExecutedMessages(calls, tools, execute, stringify)| == 2 * |Filter(calls, Runnable(tools))|
  {
    if calls != [] {
      var last := calls[|calls| - 1];
      var init := calls[..|calls| - 1];
      var R := Runnable(tools);
      assert ExecutedMessages(calls, tools, execute, stringify)
        == ExecutedMessages(init, tools, execute, stringify) + ToolMessages(last, tools, execute, stringify);
      ExecutedMessagesCount(init, tools, execute, stringify);
      ToolMessagesCount(last, tools, execute, stringify);
      var k := if R(last) then 1 else 0;
      assert |ExecutedMessages(calls, tools, execute, stringify)| == 2 * |Filter(init, R)| + 2 * k;
      assert |Filter(calls, R)| == |Filter(init, R)| + (if R(last) then 1 else 0) by {
        InitLast(calls);
        FilterAppend(init, [last], R);
        FilterSingleton(last, R);
      }
    }
  }

  /** Calls to the `output` tool itself are never executed: it has no function to run. */
  lemma OutputCallAddsNothing(call: ToolCall, outputFormat: Json, execute: (string, Json) -> string, stringify: Json -> string)
    requires IsOutputCall(call)
    ensures ToolMessages(call, PlannerToolsFor(outputFormat), execute, stringify) == []
  {
    ToolsOnlyChangeOutput(outputFormat);
  }

  /** The first `output` call's position, or -1. */
  function FirstOutput(calls: seq<ToolCall>): (k: int)
    ensures -1 <= k < |calls|
    ensures k >= 0 ==> IsOutputCall(calls[k]) && forall j :: 0 <= j < k ==> !IsOutputCall(calls[j])
    ensures k == -1 ==> forall j :: 0 <= j < |calls| ==> !IsOutputCall(calls[j])
  {
    if calls == [] then -1
    else if IsOutputCall(calls[0]) then 0
    else
      var k := FirstOutput(calls[1..]);
      if k == -1 then -1 else k + 1
  }

  /** No `output` call comes before `i`. */
  predicate NoOutputBefore(calls: seq<ToolCall>, i: nat) {
    FirstOutput(calls) == -1 || FirstOutput(calls) >= i
  }

  /** The first `output` call at or after a point with none before it is the first one overall. */
  lemma FirstOutputAt(calls: seq<ToolCall>, i: nat)
    requires i < |calls| && NoOutputBefore(calls, i)
    ensures IsOutputCall(calls[i]) ==> FirstOutput(calls) == i
    ensures !IsOutputCall(calls[i]) ==> NoOutputBefore(calls, i + 1)
  {
  }

  /** With no `output` call before the end, every call runs. */
  lemma NoOutputCall(calls: seq<ToolCall>)
    requires NoOutputBefore(calls, |calls|)
    ensures FirstOutput(calls) == -1 && calls[..|calls|] == calls
  {
  }

  /** Running one more call of a prefix appends that call's messages. */
  lemma ExecutedPrefixSnoc(calls: seq<ToolCall>, i: nat, tools: seq<PlannerTool>, execute: (string, Json) -> string, stringify: Json -> string)
    requires i < |calls|
    ensures ExecutedMessages(calls[..i + 1], tools, execute, stringify)
      == ExecutedMessages(calls[..i], tools, execute, stringify) + ToolMessages(calls[i], tools, execute, stringify)
  {
    assert calls[..i + 1][..i] == calls[..i];
  }

  /** The text of the research agent's system message. */
  const SystemMessageTemplate :=
    "\n{description}\n\nUse the available tools to gather information.\n"
    + "Call multiple tools at once or with different arguments to gather all necessary information all at once.\n"
    + "Output your findings using the 'output' tool when done or there is no more information to gather.\n"
    + "Respond with 'null' for items that you couldn't find or were not able to research.\n\n\n"
    + "Here is helpful information about the project and files:\n---\n\n{additionalInformation}\n\n"
    + "Current directory is '{currentDirectory}'.\n"

  /** `additionalContext`: the chat's task context in tags, or nothing when it is empty. */
  function AdditionalContext(chatTaskContext: Option<string>): (r: string)
    ensures chatTaskContext.None? || chatTaskContext == Some("") <==> r == ""
    ensures r != "" ==> r == "<additionalContext>\n" + chatTaskContext.value + "\n</additionalContext>"
  {
    if chatTaskContext.None? || chatTaskContext.value == "" then ""
    else "<additionalContext>\n" + chatTaskContext.value + "\n</additionalContext>"
  }

  const FilesOpen := "<potentiallyRelevantFiles>"
  const FilesClose := "</potentiallyRelevantFiles>"

  /**
   * `potentiallyRelevantFiles`: the task context's potentially relevant
   * files, one per line in tags, or nothing when there are none.
   */
  function PotentiallyRelevantFiles(files: Option<seq<string>>): (r: string)
    ensures files.None? || files == Some([]) <==> r == ""
    ensures r != "" ==> r == FilesOpen + "\n" + Join(files.value, "\n") + "\n" + FilesClose
  {
    var fs := if files.Some? then files.value else [];
    if |fs| == 0 then ""
    else FilesOpen + "\n" + Join(fs, "\n") + "\n" + FilesClose
  }

  /** The file list in the tagged block is recovered line by line, for paths without newlines. */
  lemma PotentiallyRelevantFilesLines(files: seq<string>)
    requires files != []
    requires forall i :: 0 <= i < |files| ==> '\n' !in files[i]
    ensures Split(PotentiallyRelevantFiles(Some(files)), '\n') == [FilesOpen] + files + [FilesClose]
  {
    SplitTagged(FilesOpen, files, FilesClose);
  }

  /**
   * `this[name]()` for a name listed as additional information: one of the
   * agent's context methods; any other name is not a method and the call
   * throws.
   */
  function InformationSource(name: string, taskDescription: string, env: Environment): (r: Result<string>)
    ensures r.Ok? <==> name in ["projectStructure", "getTaskDescription", "additionalContext", "taskRelevantFilesContent", "potentiallyRelevantFiles"]
  {
    match name
    case "projectStructure" => Ok("<projectStructure depth=\"2\">\n" + env.folderStructure + "\n</projectStructure>")
    case "getTaskDescription" => Ok("<taskDescription>\n" + taskDescription + "\n</taskDescription>")
    case "additionalContext" => Ok(AdditionalContext(env.chatTaskContext))
    case "taskRelevantFilesContent" => Ok(env.relevantFilesContent)
    case "potentiallyRelevantFiles" => Ok(PotentiallyRelevantFiles(env.potentiallyRelevantFiles))
    case _ => Err("TypeError: this[item] is not a function")
  }

  /** The sources' texts in order, or the first failure. */
  function AllSources(names: seq<string>, taskDescription: string, env: Environment): (r: Result<seq<string>>)
    ensures r.Ok? ==>
      (|r.value| == |names|
       && forall i :: 0 <= i < |names| ==> InformationSource(names[i], taskDescription, env) == Ok(r.value[i]))
    ensures r.Err? ==> exists i :: 0 <= i < |names| && InformationSource(names[i], taskDescription, env).Err?
  {
    if names == [] then Ok([])
    else
      match InformationSource(names[0], taskDescription, env)
      case Err(e) => Err(e)
      case Ok(first) =>
        match AllSources(names[1..], taskDescription, env)
        case Err(e) => Err(e)
        case Ok(rest) => Ok([first] + rest)
  }

  predicate NonEmpty(s: string) {
    s != ""
  }

  /** The additional information block: one source as it is, several with the empty ones dropped and blank lines between. */
  function AdditionalInformationText(info: AdditionalInformation, taskDescription: string, env: Environment): (r: Result<string>)
    ensures info.NoInformation? ==> r == Ok("")
    ensures info.OneSource? ==> r == InformationSource(info.source, taskDescription, env)
    ensures info.Sources? && AllSources(info.sources, taskDescription, env).Ok? ==>
      r == Ok(Join(Filter(AllSources(info.sources, taskDescription, env).value, NonEmpty), "\n\n"))
    ensures info.Sources? && AllSources(info.sources, taskDescription, env).Err? ==> r.Err?
  {
    match info
    case NoInformation => Ok("")
    case OneSource(name) => InformationSource(name, taskDescription, env)
    case Sources(names) =>
      match AllSources(names, taskDescription, env)
      case Err(e) => Err(e)
      case Ok(texts) => Ok(Join(Filter(texts, NonEmpty), "\n\n"))
  }

  /** The system message text: `template` with three first-occurrence replacements in turn. */
  function SystemContent(template: string, description: string, currentDirectory: string, additional: string): string {
    ReplaceFirst(ReplaceFirst(ReplaceFirst(template, "{description}", description),
      "{currentDirectory}", currentDirectory), "{additionalInformation}", additional)
  }

  /** `initializeMessages`: exactly a system message and then the item's prompt as the user's message. */
  function InitializeMessages(template: string, item: ResearchItem, taskDescription: string, env: Environment)
    : (r: Result<seq<ResearchMessage>>)
    ensures r.Ok? <==> AdditionalInformationText(item.additionalInformation, taskDescription, env).Ok?
    ensures r.Ok? ==>
      (|r.value| == 2
       && r.value[0].role == System
       && r.value[0].content == Some(SystemContent(template, item.description, env.currentDirectory,
                                                   AdditionalInformationText(item.additionalInformation, taskDescription, env).value))
       && r.value[1] == ResearchMessage(User, Some(item.prompt), None, None))
  {
    match AdditionalInformationText(item.additionalInformation, taskDescription, env)
    case Err(e) => Err(e)
    case Ok(additional) =>
      Ok([ResearchMessage(System, Some(SystemContent(template, item.description, env.currentDirectory, additional)), None, None),
          ResearchMessage(User, Some(item.prompt), None, None)])
  }

  /** Step `j` of the calls made was given the parameters of step `j`. */
  ghost predicate WellFormedSteps(made: seq<StepCall>, maxSteps: int, outputFormat: Json) {
    forall j :: 0 <= j < |made| ==> made[j] == StepParams(j, maxSteps, made[j].messages, outputFormat)
  }

  lemma WellFormedStepsExtend(made: seq<StepCall>, maxSteps: int, outputFormat: Json, messages: seq<ResearchMessage>)
    requires WellFormedSteps(made, maxSteps, outputFormat)
    ensures WellFormedSteps(made + [StepParams(|made|, maxSteps, messages, outputFormat)], maxSteps, outputFormat)
  {
  }

  /**
   * What one step's answer settles: the arguments of its first `output`
   * call when they are truthy; `None` when there is no such call, when the
   * arguments are falsy, or when the answer has no tool calls.
   */
  function StepOutcome(response: ModelResponse): Option<Json> {
    if response.toolCalls.None? then None
    else
      var k := FirstOutput(response.toolCalls.value);
      if k != -1 && Truthy(response.toolCalls.value[k].arguments) then Some(response.toolCalls.value[k].arguments) else None
  }

  /**
   * The messages one step adds: those of the tool calls run before the
   * first `output` call, or the answer's non-empty text as an assistant
   * message when it has no tool calls.
   */
  function StepMessages(response: ModelResponse, tools: seq<PlannerTool>, execute: (string, Json) -> string, stringify: Json -> string)
    : seq<ResearchMessage>
  {
    if response.toolCalls.Some? then
      var calls := response.toolCalls.value;
      var k := FirstOutput(calls);
      if k == -1 then ExecutedMessages(calls, tools, execute, stringify) else ExecutedMessages(calls[..k], tools, execute, stringify)
    else if response.content.Some? && response.content.value != "" then [ResearchMessage(Assistant, response.content, None, None)]
    else []
  }

  /** The conversation after the steps `made`, begun from `start`. */
  ghost function After(made: seq<StepCall>, start: seq<ResearchMessage>, respond: (nat, StepCall) -> ModelResponse,
                       tools: seq<PlannerTool>, execute: (string, Json) -> string, stringify: Json -> string): seq<ResearchMessage>
  {
    if made == [] then start
    else made[|made| - 1].messages + StepMessages(respond(|made| - 1, made[|made| - 1]), tools, execute, stringify)
  }

  /** Each step's call carries the conversation as the steps before it left it. */
  ghost predicate Chained(made: seq<StepCall>, start: seq<ResearchMessage>, respond: (nat, StepCall) -> ModelResponse,
                          tools: seq<PlannerTool>, execute: (string, Json) -> string, stringify: Json -> string)
  {
    forall j :: 0 <= j < |made| ==> made[j].messages == After(made[..j], start, respond, tools, execute, stringify)
  }

  /** None of the steps `made` settled the research. */
  ghost predicate NoneSettled(made: seq<StepCall>, respond: (nat, StepCall) -> ModelResponse) {
    forall j :: 0 <= j < |made| ==> StepOutcome(respond(j, made[j])).None?
  }

  /**
   * `r` is what the steps `made` settled: `None` when no step settled
   * anything, otherwise the outcome of the last step, the steps before it
   * having settled nothing.
   */
  ghost predicate SettledBy(r: Option<Json>, made: seq<StepCall>, respond: (nat, StepCall) -> ModelResponse) {
    (r.None? ==> NoneSettled(made, respond))
    && (r.Some? ==>
          |made| > 0 && NoneSettled(made[..|made| - 1], respond)
          && r == StepOutcome(respond(|made| - 1, made[|made| - 1])))
  }

  lemma ChainedExtend(made: seq<StepCall>, c: StepCall, start: seq<ResearchMessage>, respond: (nat, StepCall) -> ModelResponse,
                      tools: seq<PlannerTool>, execute: (string, Json) -> string, stringify: Json -> string)
    requires Chained(made, start, respond, tools, execute, stringify)
    requires c.messages == After(made, start, respond, tools, execute, stringify)
    ensures Chained(made + [c], start, respond, tools, execute, stringify)
    ensures After(made + [c], start, respond, tools, execute, stringify)
      == c.messages + StepMessages(respond(|made|, c), tools, execute, stringify)
  {
    var m := made + [c];
    forall j | 0 <= j < |m|
      ensures m[j].messages == After(m[..j], start, respond, tools, execute, stringify)
    {
      if j < |made| {
        assert m[..j] == made[..j];
      } else {
        assert m[..j] == made;
      }
    }
  }

  lemma NoneSettledExtend(made: seq<StepCall>, c: StepCall, respond: (nat, StepCall) -> ModelResponse)
    requires NoneSettled(made, respond)
    ensures StepOutcome(respond(|made|, c)).None? ==> NoneSettled(made + [c], respond)
    ensures (made + [c])[..|made|] == made
  {
  }

  /** The shared cache holds a usable result for `key`. */
  predicate CacheHit(cache: map<string, Json>, key: string) {
    key in cache && Truthy(cache[key])
  }

  class ResearchAgent {
    /** The conversation of the current research item. */
    var messages: seq<ResearchMessage>
    /** The results cache shared by all research items. */
    var cache: map<string, Json>
    var taskDescription: string
    var taskContext: Json
    /** Whether the current item runs on the large model rather than the small one. */
    var usesLargeModel: bool
    /** The model calls made so far, in order. */
    ghost var calls: seq<StepCall>
    /** `SYSTEM_MESSAGE_TEMPLATE`. */
    const systemMessageTemplate: string

    constructor (cache0: map<string, Json>)
      ensures messages == [] && cache == cache0 && calls == []
      ensures systemMessageTemplate == SystemMessageTemplate
    {
      systemMessageTemplate := SystemMessageTemplate;
      messages := [];
      cache := cache0;
      taskDescription := "";
      taskContext := JNull;
      usesLargeModel := false;
      calls := [];
    }

    /** `executeToolAndUpdateMessages`: appends the call and its result when the tool can run. */
    method ExecuteToolAndUpdateMessages(call: ToolCall, tools: seq<PlannerTool>, execute: (string, Json) -> string, stringify: Json -> string)
      modifies this`messages
      ensures messages == old(messages) + ToolMessages(call, tools, execute, stringify)
    {
      var tool := FindPlannerTool(tools, call.name);
      if tool.Some? && tool.value.executable {
        var result := execute(call.name, call.arguments);
        messages := messages + [ResearchMessage(Assistant, None, Some(FunctionCall(call.name, stringify(call.arguments))), None)];
        messages := messages + [ResearchMessage(Function, Some(result), None, Some(call.name))];
      }
    }

    /** One turn of `handleToolCalls`' loop: runs call `i`, extending the record of the calls run so far. */
    method RunNext(toolCalls: seq<ToolCall>, i: nat, tools: seq<PlannerTool>, execute: (string, Json) -> string, stringify: Json -> string,
                   ghost before: seq<ResearchMessage>)
      requires i < |toolCalls|
      requires messages == before + ExecutedMessages(toolCalls[..i], tools, execute, stringify)
      modifies this`messages
      ensures messages == before + ExecutedMessages(toolCalls[..i + 1], tools, execute, stringify)
    {
      ExecuteToolAndUpdateMessages(toolCalls[i], tools, execute, stringify);
      ExecutedPrefixSnoc(toolCalls, i, tools, execute, stringify);
      AppendAssoc(before, ExecutedMessages(toolCalls[..i], tools, execute, stringify), ToolMessages(toolCalls[i], tools, execute, stringify));
    }

    /**
     * `handleToolCalls`: runs the calls in order up to the first `output`
     * call, whose arguments it returns; the calls after it are not run.
     */
    method HandleToolCalls(toolCalls: seq<ToolCall>, tools: seq<PlannerTool>, execute: (string, Json) -> string, stringify: Json -> string)
      returns (r: Option<Json>)
      modifies this`messages
      ensures FirstOutput(toolCalls) == -1 ==>
        r.None? && messages == old(messages) + ExecutedMessages(toolCalls, tools, execute, stringify)
      ensures FirstOutput(toolCalls) != -1 ==>
        && r == Some(toolCalls[FirstOutput(toolCalls)].arguments)
        && messages == old(messages) + ExecutedMessages(toolCalls[..FirstOutput(toolCalls)], tools, execute, stringify)
    {
      var i := 0;
      assert toolCalls[..0] == [];
      AfterPrefix(messages, []);
      while i < |toolCalls|
        invariant 0 <= i <= |toolCalls|
        invariant NoOutputBefore(toolCalls, i)
        invariant messages == old(messages) + ExecutedMessages(toolCalls[..i], tools, execute, stringify)
      {
        FirstOutputAt(toolCalls, i);
        if IsOutputCall(toolCalls[i]) {
          return Some(toolCalls[i].arguments);
        }
        RunNext(toolCalls, i, tools, execute, stringify, old(messages));
        i := i + 1;
      }
      NoOutputCall(toolCalls);
      r := None;
    }

    /**
     * The step loop of `executeResearch`: at most `MaxSteps(item.maxSteps)`
     * model calls, each but the last offering every tool with the choice
     * `required` and the last forcing the `output` tool. The first usable
     * `output` arguments end the loop and are cached under `key` when the
     * item is cacheable; `None` means the budget ran out.
     */
    method RunSteps(item: ResearchItem, key: string,
                    respond: (nat, StepCall) -> ModelResponse, execute: (string, Json) -> string, stringify: Json -> string)
      returns (r: Option<Json>)
      modifies this`messages, this`calls, this`cache
      ensures |old(calls)| <= |calls|
      ensures WellFormedSteps(calls[|old(calls)|..], MaxSteps(item.maxSteps), item.outputFormat)
      ensures Chained(calls[|old(calls)|..], old(messages), respond, PlannerToolsFor(item.outputFormat), execute, stringify)
      ensures messages == After(calls[|old(calls)|..], old(messages), respond, PlannerToolsFor(item.outputFormat), execute, stringify)
      ensures SettledBy(r, calls[|old(calls)|..], respond)
      ensures r.None? ==>
        |calls| == |old(calls)| + (if MaxSteps(item.maxSteps) > 0 then MaxSteps(item.maxSteps) else 0) && cache == old(cache)
      ensures r.Some? ==>
        (Truthy(r.value) && |calls| - |old(calls)| <= MaxSteps(item.maxSteps)
         && cache == (if item.cache then old(cache)[key := r.value] else old(cache)))
    {
      var available := PlannerToolsFor(item.outputFormat);
      var maxSteps := MaxSteps(item.maxSteps);
      ghost var made: seq<StepCall> := [];
      var i := 0;
      while i < maxSteps
        invariant 0 <= i && (maxSteps > 0 ==> i <= maxSteps) && (maxSteps <= 0 ==> i == 0)
        invariant calls == old(calls) + made && |made| == i
        invariant cache == old(cache)
        invariant WellFormedSteps(made, maxSteps, item.outputFormat)
        invariant Chained(made, old(messages), respond, available, execute, stringify)
        invariant messages == After(made, old(messages), respond, available, execute, stringify)
        invariant NoneSettled(made, respond)
      {
        var done;
        done, made := Advance(item, key, i, maxSteps, available, respond, execute, stringify, old(calls), old(messages), made);
        if done.Some? {
          AfterPrefix(old(calls), made);
          return done;
        }
        i := i + 1;
      }
      AfterPrefix(old(calls), made);
      r := None;
    }

    /**
     * One pass of the loop in `RunSteps`: `Step` for the next index, with
     * the steps made so far extended by the call it records.
     */
    method Advance(item: ResearchItem, key: string, i: nat, maxSteps: int, available: seq<PlannerTool>,
                   respond: (nat, StepCall) -> ModelResponse, execute: (string, Json) -> string, stringify: Json -> string,
                   ghost calls0: seq<StepCall>, ghost start: seq<ResearchMessage>, ghost made: seq<StepCall>)
      returns (done: Option<Json>, ghost made': seq<StepCall>)
      requires calls == calls0 + made && |made| == i
      requires WellFormedSteps(made, maxSteps, item.outputFormat)
      requires Chained(made, start, respond, available, execute, stringify)
      requires messages == After(made, start, respond, available, execute, stringify)
      requires NoneSettled(made, respond)
      modifies this`messages, this`calls, this`cache
      ensures calls == calls0 + made' && |made'| == |made| + 1
      ensures WellFormedSteps(made', maxSteps, item.outputFormat)
      ensures Chained(made', start, respond, available, execute, stringify)
      ensures messages == After(made', start, respond, available, execute, stringify)
      ensures done == StepOutcome(respond(|made|, made'[|made|]))
      ensures done.None? ==> NoneSettled(made', respond) && cache == old(cache)
      ensures done.Some? ==> NoneSettled(made'[..|made|], respond)
      ensures done.Some? ==> Truthy(done.value) && cache == (if item.cache then old(cache)[key := done.value] else old(cache))
    {
      WellFormedStepsExtend(made, maxSteps, item.outputFormat, messages);
      ghost var call;
      done, call := Step(item, key, i, maxSteps, available, respond, execute, stringify);
      ChainedExtend(made, call, start, respond, available, execute, stringify);
      NoneSettledExtend(made, call, respond);
      AppendAssoc(calls0, made, [call]);
      made' := made + [call];
    }

    /**
     * One step of the loop: the model is called with step `i`'s parameters;
     * its tool calls are handled, or a non-empty text answer is added to the
     * conversation. Usable `output` arguments end the loop and are cached
     * when the item is cacheable.
     */
    method Step(item: ResearchItem, key: string, i: int, maxSteps: int, available: seq<PlannerTool>,
                respond: (nat, StepCall) -> ModelResponse, execute: (string, Json) -> string, stringify: Json -> string)
      returns (done: Option<Json>, ghost call: StepCall)
      requires 0 <= i
      modifies this`messages, this`calls, this`cache
      ensures call == StepParams(i, maxSteps, old(messages), item.outputFormat)
      ensures calls == old(calls) + [call]
      ensures done == StepOutcome(respond(i, call))
      ensures messages == old(messages) + StepMessages(respond(i, call), available, execute, stringify)
      ensures done.Some? ==> Truthy(done.value) && cache == (if item.cache then old(cache)[key := done.value] else old(cache))
      ensures done.None? ==> cache == old(cache)
    {
      var params := StepParams(i, maxSteps, messages, item.outputFormat);
      call := params;
      calls := calls + [params];
      done := None;
      var response := respond(i, params);
      if response.toolCalls.Some? {
        var result := HandleToolCalls(response.toolCalls.value, available, execute, stringify);
        if result.Some? && Truthy(result.value) {
          if item.cache {
            cache := cache[key := result.value];
          }
          done := Some(result.value);
        }
      } else if response.content.Some? && response.content.value != "" {
        messages := messages + [ResearchMessage(Assistant, response.content, None, None)];
      }
    }

    /**
     * `executeResearch(item, taskDescription, taskContext)`. A cacheable
     * item with a usable cached result returns it without calling the
     * model; otherwise the conversation is seeded and the step loop runs.
     * `Err` is the failure of an additional-information source.
     */
    method ExecuteResearch(item: ResearchItem, taskDescription0: string, taskContext0: Json, env: Environment,
                           respond: (nat, StepCall) -> ModelResponse, execute: (string, Json) -> string, stringify: Json -> string)
      returns (r: Result<Option<Json>>)
      modifies this`messages, this`calls, this`cache, this`taskDescription, this`taskContext, this`usesLargeModel
      ensures var key := CacheKey(env.projectPath, item.name);
        item.cache && CacheHit(old(cache), key) ==>
          r == Ok(Some(old(cache)[key])) && calls == old(calls) && cache == old(cache) && messages == old(messages)
      ensures |old(calls)| <= |calls|
      ensures WellFormedSteps(calls[|old(calls)|..], MaxSteps(item.maxSteps), item.outputFormat)
      ensures r.Err? ==>
        (calls == old(calls) && cache == old(cache) && InitializeMessages(systemMessageTemplate, item, taskDescription0, env).Err?)
      ensures r.Ok? && r.value.None? ==>
        (|calls| == |old(calls)| + (if MaxSteps(item.maxSteps) > 0 then MaxSteps(item.maxSteps) else 0) && cache == old(cache))
      ensures var key := CacheKey(env.projectPath, item.name);
        !(item.cache && CacheHit(old(cache), key)) ==>
          (r.Err? <==> InitializeMessages(systemMessageTemplate, item, taskDescription0, env).Err?)
      ensures var key := CacheKey(env.projectPath, item.name);
        r.Ok? && !(item.cache && CacheHit(old(cache), key)) ==>
          var seed := InitializeMessages(systemMessageTemplate, item, taskDescription0, env).value;
          var made := calls[|old(calls)|..];
          Chained(made, seed, respond, PlannerToolsFor(item.outputFormat), execute, stringify)
          && messages == After(made, seed, respond, PlannerToolsFor(item.outputFormat), execute, stringify)
          && SettledBy(r.value, made, respond)
      ensures var key := CacheKey(env.projectPath, item.name);
        r.Ok? && r.value.Some? && !(item.cache && CacheHit(old(cache), key)) ==>
          (Truthy(r.value.value) && |calls| - |old(calls)| <= MaxSteps(item.maxSteps)
           && cache == (if item.cache then old(cache)[key := r.value.value] else old(cache)))
    {
      var key := CacheKey(env.projectPath, item.name);
      if item.cache && key in cache && Truthy(cache[key]) {
        AfterPrefix(calls, []);
        return Ok(Some(cache[key]));
      }
      r := StartResearch(item, key, taskDescription0, taskContext0, env, respond, execute, stringify);
    }

    /** `executeResearch` past the cache: the task is recorded, the conversation seeded and the step loop run. */
    method StartResearch(item: ResearchItem, key: string, taskDescription0: string, taskContext0: Json, env: Environment,
                         respond: (nat, StepCall) -> ModelResponse, execute: (string, Json) -> string, stringify: Json -> string)
      returns (r: Result<Option<Json>>)
      modifies this`messages, this`calls, this`cache, this`taskDescription, this`taskContext, this`usesLargeModel
      ensures |old(calls)| <= |calls|
      ensures WellFormedSteps(calls[|old(calls)|..], MaxSteps(item.maxSteps), item.outputFormat)
      ensures r.Err? <==> InitializeMessages(systemMessageTemplate, item, taskDescription0, env).Err?
      ensures r.Err? ==> calls == old(calls) && cache == old(cache)
      ensures r.Ok? ==>
        var seed := InitializeMessages(systemMessageTemplate, item, taskDescription0, env).value;
        var made := calls[|old(calls)|..];
        Chained(made, seed, respond, PlannerToolsFor(item.outputFormat), execute, stringify)
        && messages == After(made, seed, respond, PlannerToolsFor(item.outputFormat), execute, stringify)
        && SettledBy(r.value, made, respond)
      ensures r.Ok? && r.value.None? ==>
        (|calls| == |old(calls)| + (if MaxSteps(item.maxSteps) > 0 then MaxSteps(item.maxSteps) else 0) && cache == old(cache))
      ensures r.Ok? && r.value.Some? ==>
        (Truthy(r.value.value) && |calls| - |old(calls)| <= MaxSteps(item.maxSteps)
         && cache == (if item.cache then old(cache)[key := r.value.value] else old(cache)))
    {
      taskDescription := taskDescription0;
      taskContext := taskContext0;
      usesLargeModel := item.model == Some("large");
      var seed := InitializeMessages(systemMessageTemplate, item, taskDescription0, env);
      if seed.Err? {
        AfterPrefix(calls, []);
        return Err(seed.error);
      }
      messages := seed.value;
      var answer := RunSteps(item, key, respond, execute, stringify);
      r := Ok(answer);
    }
  }
}
