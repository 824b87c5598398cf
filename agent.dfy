/**
 * The agent dispatcher (app/chat/agent.js): it takes the model's reply,
 * shows it in the chat, asks the user to approve a tool call when both the
 * global setting and the tool ask for it, runs the tool, and feeds the
 * tool's answer back to the model as a `function` message.
 *
 * JSON parsing, the tools' own execution, the directory listing and the
 * preview's diff and link are parameters. The user's approval click is an
 * explicit value that arrives when the agent waits for it.
 */
module Agents {
  import opened Values
  import opened Seqs
  import opened Text
  import opened Tools
  import opened ChatStore

  /** A reply of the model: optional text and an optional legacy function call. */
  datatype ApiResponse = ApiResponse(content: Option<string>, functionCall: Option<FunctionCall>)

  /** How a `runAgent` call ended. */
  datatype AgentOutcome =
    | Skipped                    // stopped, or no reply at all
    | Answered                   // a reply without a function call
    | Rejected                   // the user declined the tool call
    | Continued(result: string)  // the tool answered; the controller asks the model again
    | StoppedLoading             // the tool answered with an empty string
    | Failed(error: string)      // an error reached the controller's `handleError`

  const ShellToolName := "run_shell_command"

  /**
   * `parseArguments`: the parsed argument text; text that does not parse
   * becomes `{command: raw}` for the shell tool and an error otherwise.
   */
  function ParseArguments(name: string, raw: string, parse: string -> Result<Json>): (r: Result<Json>)
    ensures parse(raw).Ok? ==> r == parse(raw)
    ensures parse(raw).Err? && name != ShellToolName ==> r == parse(raw)
    ensures name == ShellToolName ==> r.Ok?
  {
    match parse(raw)
    case Ok(args) => Ok(args)
    case Err(e) => if name == ShellToolName then Ok(JObj(map["command" := JStr(raw)])) else Err(e)
  }

  /** A shell command whose arguments are not JSON runs the raw text as the command. */
  lemma ShellFallback(raw: string, parse: string -> Result<Json>)
    requires parse(raw).Err?
    ensures ParseArguments(ShellToolName, raw, parse).Ok?
    ensures Field(ParseArguments(ShellToolName, raw, parse).value, "command") == Some(JStr(raw))
  {
  }

  /** The argument object has a string `fileName` that is not blank after trimming. */
  predicate HasFileName(args: Json) {
    args.JObj? && "fileName" in args.fields && args.fields["fileName"].JStr? && !IsBlank(args.fields["fileName"].s)
  }

  /** JSON values on which the `in` operator throws: everything but objects and arrays. */
  predicate IsPrimitive(j: Json) {
    !j.JObj? && !j.JArr?
  }

  const InOperatorError := "TypeError: Cannot use 'in' operator to search for 'fileName'"

  /**
   * `validateFileName`: false without a call or argument text; the argument
   * text is parsed (which may throw), and `'fileName' in args` throws on a
   * primitive value.
   */
  function ValidateFileName(fc: Option<FunctionCall>, parse: string -> Result<Json>): (r: Result<bool>)
    ensures r == Ok(true) <==>
      (fc.Some? && fc.value.arguments != "" && parse(fc.value.arguments).Ok? && HasFileName(parse(fc.value.arguments).value))
    ensures r.Err? <==>
      (fc.Some? && fc.value.arguments != ""
       && (parse(fc.value.arguments).Err? || IsPrimitive(parse(fc.value.arguments).value)))
  {
    if fc.None? || fc.value.arguments == "" then Ok(false)
    else
      match parse(fc.value.arguments)
      case Err(e) => Err(e)
      case Ok(args) =>
        if args.JObj? then Ok(HasFileName(args))
        else if args.JArr? then Ok(false)
        else Err(InOperatorError)
  }

  /** Both settings ask: the global `approvalRequired` and the tool's own flag. */
  predicate AsksForApproval(approvalRequired: bool, functionName: string) {
    approvalRequired && FindTool(functionName).Some? && NeedsApproval(FindTool(functionName).value)
  }

  const ToolLookupError := "TypeError: Cannot read properties of undefined (reading 'approvalRequired')"

  /**
   * `waitForDecision`: with the global setting on, an unknown tool makes the
   * flag lookup throw; a tool that asks waits for the user's choice
   * `userChoice`; everything else is approved at once.
   */
  function WaitForDecision(approvalRequired: bool, functionName: string, userChoice: bool): (r: Result<bool>)
    ensures r.Err? <==> approvalRequired && FindTool(functionName).None?
    ensures AsksForApproval(approvalRequired, functionName) ==> r == Ok(userChoice)
    ensures !AsksForApproval(approvalRequired, functionName) && r.Ok? ==> r == Ok(true)
  {
    if !approvalRequired then Ok(true)
    else match FindTool(functionName)
      case None => Err(ToolLookupError)
      case Some(t) => if NeedsApproval(t) then Ok(userChoice) else Ok(true)
  }

  /**
   * The gate only ever stops the file-writing and shell tools, and only
   * when the global setting is on; the search tool is never gated.
   */
  lemma GateOnlyForWritingTools(approvalRequired: bool, functionName: string)
    ensures AsksForApproval(approvalRequired, functionName) <==> approvalRequired && WritesOrRuns(functionName)
  {
  }

  /** Every tool in the table has an `executeFunction`. */
  lemma ToolsExecutable(name: string)
    ensures FindTool(name).Some? ==> FindTool(name).value.executable
  {
  }

  /** The `name` a backend message keeps: only a non-empty one. */
  function KeptName(name: string): Option<string> {
    if name != "" then Some(name) else None
  }

  const FileNameError := "File name is not provided or invalid."

  /** The outcome of `tool.executeFunction(args)` for a tool looked up by name. */
  function RunTool(functionName: string, args: Json, execute: (string, Json) -> Result<string>): (r: Result<string>)
    ensures FindTool(functionName).None? ==> r == Err("Tool with name " + functionName + " not found.")
    ensures FindTool(functionName).Some? && FindTool(functionName).value.executable ==> r == execute(functionName, args)
  {
    match FindTool(functionName)
    case None => Err("Tool with name " + functionName + " not found.")
    case Some(t) => if t.executable then execute(functionName, args) else Err("tool.executeFunction is not a function")
  }

  /** `Error occurred. <message>`, the frontend notice of a failed tool run. */
  function ToolErrorNotice(e: string): string {
    "Error occurred. " + e
  }

  function FolderErrorText(dir: string): string {
    FolderErrorHead + dir + FolderErrorTail
  }

  const FolderErrorHead := "Error occurred while checking directory structure in "
  const FolderErrorTail :=
    ".\n         <br>Please change directory where app can read/write files or update permissions for current directory."

  /** How one directory entry is listed: `- name`, with a trailing `/` for directories. */
  function FolderEntry(file: string, isDir: bool): (r: string)
    ensures |r| >= 2 && r[..2] == "- "
    ensures isDir ==> r[2..] == file + "/"
    ensures !isDir ==> r[2..] == file
  {
    "- " + file + (if isDir then "/" else "")
  }

  /**
   * The entry lines for the given names; `stat` answers `Some(isDirectory)`,
   * or `None` where `fs.promises.stat` rejects.
   */
  function FolderEntries(files: seq<string>, stat: string -> Option<bool>): (r: seq<string>)
    ensures |r| == |files|
    ensures forall i :: 0 <= i < |files| ==> r[i] == FolderEntry(files[i], stat(files[i]) == Some(true))
  {
    if files == [] then []
    else FolderEntries(files[..|files| - 1], stat) + [FolderEntry(files[|files| - 1], stat(files[|files| - 1]) == Some(true))]
  }

  /** Every name's `stat` succeeds. */
  predicate AllStatted(files: seq<string>, stat: string -> Option<bool>) {
    forall i :: 0 <= i < |files| ==> stat(files[i]).Some?
  }

  /** The first name whose `stat` rejects: every name before it was statted. */
  function FirstUnstatted(files: seq<string>, stat: string -> Option<bool>): (k: nat)
    requires !AllStatted(files, stat)
    ensures k < |files| && stat(files[k]).None? && AllStatted(files[..k], stat)
  {
    if stat(files[0]).None? then 0
    else
      assert !AllStatted(files[1..], stat) by {
        var i :| 0 <= i < |files| && stat(files[i]).None?;
        assert files[1..][i - 1] == files[i];
      }
      var k := FirstUnstatted(files[1..], stat);
      assert forall j :: 0 <= j < k + 1 ==> files[..k + 1][j] == files[j];
      assert forall j :: 1 <= j < k + 1 ==> files[j] == files[1..][..k][j - 1];
      k + 1
  }

  /** The first rejecting name is the one after an all-statted prefix. */
  lemma FirstUnstattedAt(files: seq<string>, stat: string -> Option<bool>, i: nat)
    requires i < |files| && stat(files[i]).None? && AllStatted(files[..i], stat)
    ensures !AllStatted(files, stat) && FirstUnstatted(files, stat) == i
  {
    var k := FirstUnstatted(files, stat);
    assert forall j :: 0 <= j < i ==> files[..i][j] == files[j];
    assert forall j :: 0 <= j < k ==> files[..k][j] == files[j];
  }

  /** What `getFolderStructure` settles on: the listing, nothing (unreadable directory), or a rejection. */
  datatype FolderOutcome = Listed(text: string) | Unreadable | StatRejected(file: string)

  const MaxFolderEntries := 30
  const AndMore := "... and more"
  const EmptyDirectory := "directory is empty"

  /** The listing built from the entry lines. */
  function FolderListing(entries: seq<string>): string {
    if |entries| > MaxFolderEntries then Join(entries[..MaxFolderEntries], "\n") + "\n" + AndMore
    else if |entries| == 0 then EmptyDirectory
    else Join(entries, "\n")
  }

  /**
   * For names without newlines, the listing's lines are the entries
   * themselves, at most 30 of them, followed by `... and more` exactly when
   * some were cut; an empty directory gives the fixed text.
   */
  lemma FolderListingLines(entries: seq<string>)
    requires forall i :: 0 <= i < |entries| ==> '\n' !in entries[i]
    ensures |entries| == 0 ==> FolderListing(entries) == EmptyDirectory
    ensures 0 < |entries| <= MaxFolderEntries ==> Split(FolderListing(entries), '\n') == entries
    ensures |entries| > MaxFolderEntries ==>
      Split(FolderListing(entries), '\n') == entries[..MaxFolderEntries] + [AndMore]
  {
    if |entries| > MaxFolderEntries {
      var kept := entries[..MaxFolderEntries];
      JoinSnoc(kept, AndMore, "\n");
      var lines := kept + [AndMore];
      assert forall i :: 0 <= i < |lines| ==> '\n' !in lines[i] by {
        forall i | 0 <= i < |lines| ensures '\n' !in lines[i] {
          if i < MaxFolderEntries {
            assert lines[i] == entries[i];
          } else {
            assert lines[i] == AndMore;
          }
        }
      }
      SplitJoin(lines, '\n');
    } else if |entries| > 0 {
      SplitJoin(entries, '\n');
    }
  }

  /** JavaScript truthiness of a reply's text. */
  predicate Shown(content: Option<string>) {
    content.Some? && content.value != ""
  }

  /** The frontend text shown for a reply that calls a tool. */
  function PreviewText(content: Option<string>, preview: Preview): string {
    (if Shown(content) then content.value else preview.message) + "\n" + preview.code
  }

  /** A string-valued argument, as the preview templates read it. */
  function StringArg(args: Json, key: string): Option<string> {
    match Field(args, key)
    case Some(JStr(s)) => Some(s)
    case _ => None
  }

  function PreviewArgsOf(args: Json): PreviewArgs {
    PreviewArgs(StringArg(args, "targetFile"), StringArg(args, "createText"), StringArg(args, "command"),
      StringArg(args, "type"), StringArg(args, "query"))
  }

  /** A reply's text as message content: a missing text is `null`. */
  function ContentOf(content: Option<string>): Content {
    if content.Some? then Str(content.value) else NullContent
  }

  /**
   * The error of reading a missing preview: the message template reads the
   * preview's `message` only when the reply has no text, and its `code`
   * in any case, so the first property read is `code` when there is text.
   */
  function PreviewError(content: Option<string>): string {
    "TypeError: Cannot read properties of undefined (reading '" + (if Shown(content) then "code" else "message") + "')"
  }

  /**
   * The string-named properties a promise inherits from `Promise.prototype`
   * and `Object.prototype`. Indexing a promise with one of them yields a
   * function or an object, not `undefined`.
   */
  const PromiseMembers: set<string> := {
    "then", "catch", "finally", "constructor", "__proto__", "toString", "toLocaleString", "valueOf",
    "hasOwnProperty", "isPrototypeOf", "propertyIsEnumerable",
    "__defineGetter__", "__defineSetter__", "__lookupGetter__", "__lookupSetter__"
  }

  /**
   * The display text of a function call as written: the arguments are
   * parsed, then `previewMessageMapping(args)[name]` is read. That call
   * passes the arguments where the tool name belongs, so it yields a
   * promise. A promise has no property named after a tool, so the preview
   * is `undefined` and reading from it throws; a name the promise inherits
   * gives a value without `message` or `code`, and both render as
   * "undefined".
   */
  function FunctionCallPreviewAsWritten(fc: FunctionCall, content: Option<string>, parse: string -> Result<Json>): (r: Result<string>)
    ensures r.Ok? <==> ParseArguments(fc.name, fc.arguments, parse).Ok? && fc.name in PromiseMembers
    ensures r.Ok? ==> r.value == (if Shown(content) then content.value else "undefined") + "\nundefined"
    ensures ParseArguments(fc.name, fc.arguments, parse).Ok? && fc.name !in PromiseMembers ==> r == Err(PreviewError(content))
  {
    match ParseArguments(fc.name, fc.arguments, parse)
    case Err(e) => Err(e)
    case Ok(_) =>
      if fc.name in PromiseMembers then Ok((if Shown(content) then content.value else "undefined") + "\nundefined")
      else Err(PreviewError(content))
  }

  /** No tool is named after a member a promise inherits. */
  lemma NoToolIsPromiseMember(name: string)
    ensures name in PromiseMembers ==> FindTool(name).None?
  {
  }

  /**
   * A call named after an inherited promise member, with a valid file name,
   * runs no tool: `callFunction` answers that the tool was not found.
   */
  lemma PromiseMemberCallRunsNoTool(fc: FunctionCall, parse: string -> Result<Json>, execute: (string, Json) -> Result<string>)
    requires fc.name in PromiseMembers && ValidateFileName(Some(fc), parse) == Ok(true)
    ensures CallFunctionResult(fc, parse, execute).Ok?
    ensures CallFunctionResult(fc, parse, execute).value.answer == "Error: Tool with name " + fc.name + " not found."
  {
    NoToolIsPromiseMember(fc.name);
    CallFunctionNeverThrowsFromTools(fc, parse, execute);
  }

  /**
   * The display text of a function call with the preview looked up by tool
   * name: the reply's text when it has one, else the preview's message,
   * then the preview's code block.
   */
  function FunctionCallPreview(fc: FunctionCall, content: Option<string>, parse: string -> Result<Json>, codeDiff: string, fileLink: string)
    : (r: Result<string>)
    ensures r.Ok? <==> ParseArguments(fc.name, fc.arguments, parse).Ok? && FindTool(fc.name).Some?
    ensures r.Ok? ==>
      var preview := PreviewMessage(fc.name, PreviewArgsOf(ParseArguments(fc.name, fc.arguments, parse).value), codeDiff, fileLink).value;
      && (Shown(content) ==> r.value == content.value + "\n" + preview.code)
      && (!Shown(content) ==> r.value == preview.message + "\n" + preview.code)
  {
    match ParseArguments(fc.name, fc.arguments, parse)
    case Err(e) => Err(e)
    case Ok(args) =>
      match PreviewMessage(fc.name, PreviewArgsOf(args), codeDiff, fileLink)
      case None => Err(PreviewError(content))
      case Some(preview) => Ok(PreviewText(content, preview))
  }

  /**
   * Every known tool call whose arguments parse is shown once the preview
   * is looked up by name, and fails as written.
   */
  lemma PreviewLookupMissesEveryTool(fc: FunctionCall, content: Option<string>, parse: string -> Result<Json>, codeDiff: string, fileLink: string)
    requires FindTool(fc.name).Some? && ParseArguments(fc.name, fc.arguments, parse).Ok?
    ensures FunctionCallPreviewAsWritten(fc, content, parse) == Err(PreviewError(content))
    ensures FunctionCallPreview(fc, content, parse, codeDiff, fileLink).Ok?
  {
    NoToolIsPromiseMember(fc.name);
  }

  /**
   * A shell call without text shows its command in a console block, even
   * when its arguments are not JSON.
   */
  lemma ShellPreviewShowsCommand(raw: string, parse: string -> Result<Json>, codeDiff: string, fileLink: string)
    requires parse(raw).Err?
    ensures FunctionCallPreview(FunctionCall(ShellToolName, raw), None, parse, codeDiff, fileLink)
      == Ok(ShellHeading + "\n" + ConsoleBlock(raw))
  {
    var args := ParseArguments(ShellToolName, raw, parse).value;
    assert StringArg(args, "command") == Some(raw);
    assert PreviewMessage(ShellToolName, PreviewArgsOf(args), codeDiff, fileLink) == Some(Preview(ShellHeading, ConsoleBlock(raw)));
  }

  /**
   * The display text of a reply's function call, in the chosen reading (as
   * written, building it always fails); a reply without one has none.
   */
  function ResponsePreview(response: ApiResponse, reading: Reading, parse: string -> Result<Json>, codeDiff: string, fileLink: string)
    : Result<string>
  {
    if response.functionCall.None? then Err("")
    else if reading.AsWritten? then FunctionCallPreviewAsWritten(response.functionCall.value, response.content, parse)
    else FunctionCallPreview(response.functionCall.value, response.content, parse, codeDiff, fileLink)
  }

  /** The reply text `addResponseToChat` shows, on the display list, from the counter `id0`. */
  function TextFrontend(content: Option<string>, id0: int): seq<FrontendMessage> {
    if Shown(content) then [FrontendMessage(id0 + 2, Assistant, Str(content.value), id0 + 1)] else []
  }

  /** The reply text `addResponseToChat` shows, on the model-facing list. */
  function TextBackend(content: Option<string>, id0: int): seq<Message> {
    if Shown(content) then [Message(id0 + 1, Assistant, Str(content.value), None, None, None)] else []
  }

  /** The counter after the reply text is shown (two ids when it is). */
  function IdAfterText(content: Option<string>, id0: int): int {
    if Shown(content) then id0 + 2 else id0
  }

  /** The latest model-facing id after the reply text is shown. */
  function LastAfterText(content: Option<string>, id0: int, last0: int): int {
    if Shown(content) then id0 + 1 else last0
  }

  /** The preview `addResponseToChat` shows for a function call, from the counter `id1` and latest model-facing id `last1`. */
  function CallFrontend(response: ApiResponse, preview: Result<string>, id1: int, last1: int): seq<FrontendMessage> {
    if response.functionCall.Some? && preview.Ok? then [FrontendMessage(id1 + 1, Assistant, Str(preview.value), last1)] else []
  }

  /** The function call `addResponseToChat` records for the model, with the reply's raw text. */
  function CallBackend(response: ApiResponse, preview: Result<string>, id1: int): seq<Message> {
    if response.functionCall.Some? && preview.Ok?
    then [Message(id1 + 2, Assistant, ContentOf(response.content), response.functionCall, None, None)]
    else []
  }

  /**
   * The display messages `addResponseToChat` appends, from the counter
   * `id0` and the latest model-facing id `last0` before it: the reply's
   * text, then the function call's preview.
   */
  function ResponseFrontend(response: ApiResponse, preview: Result<string>, id0: int, last0: int): seq<FrontendMessage> {
    TextFrontend(response.content, id0)
    + CallFrontend(response, preview, IdAfterText(response.content, id0), LastAfterText(response.content, id0, last0))
  }

  /** The model-facing messages `addResponseToChat` appends: the reply's text, then the call with the raw text. */
  function ResponseBackend(response: ApiResponse, preview: Result<string>, id0: int): seq<Message> {
    TextBackend(response.content, id0) + CallBackend(response, preview, IdAfterText(response.content, id0))
  }

  /**
   * `addResponseToChat`: the reply's text, when truthy, goes to both lists;
   * a function call whose preview can be built adds that preview to the
   * display list and the call itself to the model's list. Only a function
   * call can fail, and it fails with the preview's error.
   */
  method AddResponseToChat(chat: Chat, response: ApiResponse, reading: Reading, parse: string -> Result<Json>, codeDiff: string, fileLink: string)
    returns (err: Option<string>)
    requires chat.Valid()
    modifies chat
    ensures chat.Valid()
    ensures var preview := ResponsePreview(response, reading, parse, codeDiff, fileLink);
      && (err.Some? <==> response.functionCall.Some? && preview.Err?)
      && (err.Some? ==> err.value == preview.error)
      && chat.frontendMessages == old(chat.frontendMessages) + ResponseFrontend(response, preview, old(chat.currentId), old(chat.lastBackendMessageId))
      && chat.backendMessages == old(chat.backendMessages) + ResponseBackend(response, preview, old(chat.currentId))
  {
    ShowText(chat, response.content);
    var preview := ResponsePreview(response, reading, parse, codeDiff, fileLink);
    err := None;
    if response.functionCall.Some? && preview.Err? {
      err := Some(preview.error);
    }
    ShowCall(chat, response, preview);
    AppendAssoc(old(chat.frontendMessages), TextFrontend(response.content, old(chat.currentId)),
      CallFrontend(response, preview, IdAfterText(response.content, old(chat.currentId)),
        LastAfterText(response.content, old(chat.currentId), old(chat.lastBackendMessageId))));
    AppendAssoc(old(chat.backendMessages), TextBackend(response.content, old(chat.currentId)),
      CallBackend(response, preview, IdAfterText(response.content, old(chat.currentId))));
  }

  /** Shows the reply's text on both lists when it is truthy. */
  method ShowText(chat: Chat, content: Option<string>)
    requires chat.Valid()
    modifies chat
    ensures chat.Valid()
    ensures chat.frontendMessages == old(chat.frontendMessages) + TextFrontend(content, old(chat.currentId))
    ensures chat.backendMessages == old(chat.backendMessages) + TextBackend(content, old(chat.currentId))
    ensures chat.currentId == IdAfterText(content, old(chat.currentId))
    ensures chat.lastBackendMessageId == LastAfterText(content, old(chat.currentId), old(chat.lastBackendMessageId))
  {
    if Shown(content) {
      chat.AddMessage(Assistant, Str(content.value));
    }
  }

  /** Shows a function call whose preview was built; nothing otherwise. */
  method ShowCall(chat: Chat, response: ApiResponse, preview: Result<string>)
    requires chat.Valid()
    modifies chat
    ensures chat.Valid()
    ensures chat.frontendMessages == old(chat.frontendMessages) + CallFrontend(response, preview, old(chat.currentId), old(chat.lastBackendMessageId))
    ensures chat.backendMessages == old(chat.backendMessages) + CallBackend(response, preview, old(chat.currentId))
  {
    if response.functionCall.Some? && preview.Ok? {
      ShowFunctionCall(chat, response.functionCall.value, ContentOf(response.content), preview.value);
    }
  }

  /** Adds a function call's display text and the call itself, in that order. */
  method ShowFunctionCall(chat: Chat, fc: FunctionCall, content: Content, text: string)
    requires chat.Valid()
    modifies chat
    ensures chat.Valid()
    ensures chat.frontendMessages == old(chat.frontendMessages) + [FrontendMessage(old(chat.currentId) + 1, Assistant, Str(text), old(chat.lastBackendMessageId))]
    ensures chat.backendMessages == old(chat.backendMessages) + [Message(old(chat.currentId) + 2, Assistant, content, Some(fc), None, None)]
    ensures chat.currentId == old(chat.currentId) + 2
  {
    var f := chat.AddFrontendMessage(Assistant, Str(text));
    var b := chat.AddBackendMessage(Assistant, content, Some(fc), None);
  }

  /** A tool's answer and, when running it failed, the frontend notice. */
  datatype ToolAnswer = ToolAnswer(answer: string, notice: Option<string>)

  /** A tool run's outcome as `callFunction` reports it: a failure becomes text and a notice. */
  function Answer(run: Result<string>): (a: ToolAnswer)
    ensures run.Ok? ==> a.answer == run.value && a.notice.None?
    ensures run.Err? ==> a.answer == "Error: " + run.error && a.notice == Some(ToolErrorNotice(run.error))
  {
    match run
    case Ok(answer) => ToolAnswer(answer, None)
    case Err(e) => ToolAnswer("Error: " + e, Some(ToolErrorNotice(e)))
  }

  /**
   * What `callFunction` yields: an invalid or missing file name and
   * unparseable arguments throw; everything that goes wrong while running
   * the tool, an unknown tool included, becomes an answer instead.
   */
  function CallFunctionResult(fc: FunctionCall, parse: string -> Result<Json>, execute: (string, Json) -> Result<string>)
    : (r: Result<ToolAnswer>)
    ensures r.Ok? <==> ValidateFileName(Some(fc), parse) == Ok(true)
    ensures r.Err? && ValidateFileName(Some(fc), parse) == Ok(false) ==> r == Err(FileNameError)
    ensures r.Ok? ==> r.value == Answer(RunTool(fc.name, parse(fc.arguments).value, execute))
  {
    match ValidateFileName(Some(fc), parse)
    case Err(e) => Err(e)
    case Ok(valid) =>
      if !valid then Err(FileNameError)
      else
        match ParseArguments(fc.name, fc.arguments, parse)
        case Err(e) => Err(e)
        case Ok(args) => Ok(Answer(RunTool(fc.name, args, execute)))
  }

  /**
   * Arguments that keep to the called tool's schema never carry `fileName`,
   * so `callFunction` throws the file-name error before running any tool.
   */
  lemma SchemaArgumentsFailValidation(fc: FunctionCall, parse: string -> Result<Json>, execute: (string, Json) -> Result<string>)
    requires fc.arguments != "" && parse(fc.arguments).Ok? && parse(fc.arguments).value.JObj?
    requires forall k :: k in parse(fc.arguments).value.fields ==> k in PropertyNames(fc.name)
    ensures ValidateFileName(Some(fc), parse) == Ok(false)
    ensures CallFunctionResult(fc, parse, execute) == Err(FileNameError)
  {
    NoSchemaDeclaresFileName(fc.name);
  }

  /**
   * Once the file name is valid, `callFunction` does not throw, whatever the
   * tool does: a failing tool yields `Error: <message>` with a notice, and
   * an unknown tool the not-found message.
   */
  lemma CallFunctionNeverThrowsFromTools(fc: FunctionCall, parse: string -> Result<Json>, execute: (string, Json) -> Result<string>)
    requires ValidateFileName(Some(fc), parse) == Ok(true)
    ensures CallFunctionResult(fc, parse, execute).Ok?
    ensures FindTool(fc.name).Some? && execute(fc.name, parse(fc.arguments).value).Err? ==>
      CallFunctionResult(fc, parse, execute).value
        == ToolAnswer("Error: " + execute(fc.name, parse(fc.arguments).value).error,
                      Some(ToolErrorNotice(execute(fc.name, parse(fc.arguments).value).error)))
    ensures FindTool(fc.name).None? ==>
      CallFunctionResult(fc, parse, execute).value.answer == "Error: Tool with name " + fc.name + " not found."
  {
    var t := FindTool(fc.name);
    if t.Some? {
      assert t.value.executable by {
        ToolsExecutable(fc.name);
      }
    }
  }

  /**
   * `callFunction`: computes `CallFunctionResult` and shows its notice, if
   * any, as a frontend error message; the model's list is untouched.
   */
  method CallFunction(chat: Chat, fc: FunctionCall, parse: string -> Result<Json>, execute: (string, Json) -> Result<string>)
    returns (r: Result<string>)
    requires chat.Valid()
    modifies chat`currentId, chat`frontendMessages
    ensures chat.Valid()
    ensures var c := CallFunctionResult(fc, parse, execute);
      && (c.Err? ==> r == Err(c.error) && chat.frontendMessages == old(chat.frontendMessages))
      && (c.Ok? ==> r == Ok(c.value.answer))
      && (c.Ok? && c.value.notice.None? ==> chat.frontendMessages == old(chat.frontendMessages))
      && (c.Ok? && c.value.notice.Some? ==>
            chat.frontendMessages == old(chat.frontendMessages)
              + [FrontendMessage(old(chat.currentId) + 1, ErrorRole, Str(c.value.notice.value), chat.lastBackendMessageId)])
  {
    var c := CallFunctionResult(fc, parse, execute);
    if c.Err? {
      return Err(c.error);
    }
    if c.value.notice.Some? {
      var m := chat.AddFrontendMessage(ErrorRole, Str(c.value.notice.value));
    }
    r := Ok(c.value.answer);
  }

  /** A rejected call: "Action was rejected" on display, "User rejected function call" for the model. */
  method RecordRejection(chat: Chat)
    requires chat.Valid()
    modifies chat
    ensures chat.Valid()
    ensures chat.frontendMessages == old(chat.frontendMessages)
      + [FrontendMessage(old(chat.currentId) + 1, ErrorRole, Str("Action was rejected"), old(chat.lastBackendMessageId))]
    ensures chat.backendMessages == old(chat.backendMessages)
      + [Message(old(chat.currentId) + 2, User, Str("User rejected function call"), None, None, None)]
  {
    var f := chat.AddFrontendMessage(ErrorRole, Str("Action was rejected"));
    var b := chat.AddBackendMessage(User, Str("User rejected function call"), None, None);
  }

  /**
   * An approved call: the tool runs; a non-empty answer goes back to the
   * model as a `function` message named after the tool, an empty one only
   * stops the loading indicator, and a throw from `callFunction` fails.
   */
  method RunApprovedCall(chat: Chat, fc: FunctionCall, parse: string -> Result<Json>, execute: (string, Json) -> Result<string>)
    returns (o: AgentOutcome)
    requires chat.Valid()
    modifies chat
    ensures chat.Valid()
    ensures var c := CallFunctionResult(fc, parse, execute);
      && (c.Err? ==> o == Failed(c.error) && chat.backendMessages == old(chat.backendMessages))
      && (c.Ok? && c.value.answer == "" ==> o == StoppedLoading && chat.backendMessages == old(chat.backendMessages))
      && (c.Ok? && c.value.answer != "" ==>
            (o == Continued(c.value.answer)
             && chat.backendMessages == old(chat.backendMessages)
                  + [Message(chat.currentId, Function, Str(c.value.answer), None, KeptName(fc.name), None)]))
  {
    var result := CallFunction(chat, fc, parse, execute);
    if result.Err? {
      return Failed(result.error);
    }
    if result.value != "" {
      var m := chat.AddBackendMessage(Function, Str(result.value), None, Some(fc.name));
      o := Continued(result.value);
    } else {
      o := StoppedLoading;
    }
  }

  /** The agent's own state: its working directory and the pending approval click. */
  class Agent {
    var currentWorkingDir: string
    var userDecision: Option<bool>

    constructor (homeDir: string)
      ensures currentWorkingDir == homeDir && userDecision == None
    {
      currentWorkingDir := homeDir;
      userDecision := None;
    }

    /**
     * `runAgent`: a stopped controller or a missing reply does nothing.
     * Otherwise the reply is shown and a function call in it is handled by
     * `HandleFunctionCall`. Errors end in the controller's `handleError`.
     */
    method RunAgent(chat: Chat, stopProcess: bool, response: Option<ApiResponse>, approvalRequired: bool, userChoice: bool,
                    reading: Reading, parse: string -> Result<Json>, execute: (string, Json) -> Result<string>, codeDiff: string, fileLink: string)
      returns (o: AgentOutcome)
      requires chat.Valid()
      modifies this`userDecision, chat
      ensures chat.Valid()
      ensures stopProcess || response.None? ==>
        o == Skipped && userDecision == old(userDecision)
        && chat.frontendMessages == old(chat.frontendMessages) && chat.backendMessages == old(chat.backendMessages)
      ensures o.Skipped? ==> stopProcess || response.None?
      ensures !stopProcess && response.Some? && response.value.functionCall.None? ==>
        o == Answered && userDecision == old(userDecision)
      ensures !stopProcess && response.Some? && response.value.functionCall.Some?
              && ResponsePreview(response.value, reading, parse, codeDiff, fileLink).Err? ==>
        o == Failed(ResponsePreview(response.value, reading, parse, codeDiff, fileLink).error)
      ensures reading.AsWritten? && !stopProcess && response.Some? && response.value.functionCall.Some?
              && response.value.functionCall.value.name !in PromiseMembers ==>
        o.Failed? && userDecision == old(userDecision)
      ensures reading.AsWritten? && o.Continued? ==>
        response.value.functionCall.value.name in PromiseMembers
        && o.result == "Error: Tool with name " + response.value.functionCall.value.name + " not found."
      ensures o.Rejected? ==>
        response.Some? && response.value.functionCall.Some?
        && WaitForDecision(approvalRequired, response.value.functionCall.value.name, userChoice) == Ok(false)
      ensures o.Continued? ==>
        response.Some? && response.value.functionCall.Some?
        && WaitForDecision(approvalRequired, response.value.functionCall.value.name, userChoice) == Ok(true)
        && CallFunctionResult(response.value.functionCall.value, parse, execute).Ok?
        && o.result == CallFunctionResult(response.value.functionCall.value, parse, execute).value.answer
        && o.result != ""
    {
      if stopProcess || response.None? {
        return Skipped;
      }
      var err := AddResponseToChat(chat, response.value, reading, parse, codeDiff, fileLink);
      if err.Some? {
        return Failed(err.value);
      }
      if response.value.functionCall.None? {
        return Answered;
      }
      o := HandleFunctionCall(chat, response.value.functionCall.value, approvalRequired, userChoice, parse, execute);
      if reading.AsWritten? && o.Continued? {
        PromiseMemberCallRunsNoTool(response.value.functionCall.value, parse, execute);
      }
    }

    /**
     * The function-call half of `runAgent`, after the reply is shown. The
     * gate decides; a rejection adds "Action was rejected" to the display
     * list and "User rejected function call" to the model's list and runs
     * nothing; an approval runs the tool and feeds a non-empty answer back
     * as a `function` message named after the tool, while an empty answer
     * only stops the loading indicator. The pending decision is cleared.
     */
    method HandleFunctionCall(chat: Chat, fc: FunctionCall, approvalRequired: bool, userChoice: bool,
                              parse: string -> Result<Json>, execute: (string, Json) -> Result<string>)
      returns (o: AgentOutcome)
      requires chat.Valid()
      modifies this`userDecision, chat
      ensures chat.Valid()
      ensures userDecision == None
      ensures var d := WaitForDecision(approvalRequired, fc.name, userChoice);
        && (d.Err? ==> (o == Failed(d.error)
              && chat.frontendMessages == old(chat.frontendMessages) && chat.backendMessages == old(chat.backendMessages)))
        && (d == Ok(false) ==> (o == Rejected
              && chat.frontendMessages == old(chat.frontendMessages)
                   + [FrontendMessage(old(chat.currentId) + 1, ErrorRole, Str("Action was rejected"), old(chat.lastBackendMessageId))]
              && chat.backendMessages == old(chat.backendMessages)
                   + [Message(old(chat.currentId) + 2, User, Str("User rejected function call"), None, None, None)]))
      ensures var d := WaitForDecision(approvalRequired, fc.name, userChoice);
        var c := CallFunctionResult(fc, parse, execute);
        d == Ok(true) ==>
          && (c.Err? ==> o == Failed(c.error) && chat.backendMessages == old(chat.backendMessages))
          && (c.Ok? && c.value.answer == "" ==> o == StoppedLoading && chat.backendMessages == old(chat.backendMessages))
          && (c.Ok? && c.value.answer != "" ==> (o == Continued(c.value.answer)
                && chat.backendMessages == old(chat.backendMessages)
                     + [Message(chat.currentId, Function, Str(c.value.answer), None, KeptName(fc.name), None)]))
    {
      userDecision := None;
      var decision := WaitForDecision(approvalRequired, fc.name, userChoice);
      if decision.Err? {
        return Failed(decision.error);
      }
      if decision.value {
        o := RunApprovedCall(chat, fc, parse, execute);
      } else {
        RecordRejection(chat);
        o := Rejected;
      }
    }

    /**
     * `getFolderStructure`: the working directory's entries, each listed
     * once in `readdir` order, through `FolderListing`. A directory that
     * cannot be read (`readdir` is None) adds an error notice and yields
     * nothing; a `stat` that rejects, outside the `try`, rejects the whole
     * call at the first such name.
     */
    method GetFolderStructure(chat: Chat, readdir: Option<seq<string>>, stat: string -> Option<bool>)
      returns (r: FolderOutcome)
      requires chat.Valid()
      modifies chat`currentId, chat`frontendMessages
      ensures chat.Valid()
      ensures readdir.None? ==>
        r == Unreadable
        && chat.frontendMessages ==
             old(chat.frontendMessages) + [FrontendMessage(old(chat.currentId) + 1, ErrorRole, Str(FolderErrorText(currentWorkingDir)), chat.lastBackendMessageId)]
      ensures readdir.Some? ==> chat.frontendMessages == old(chat.frontendMessages) && chat.currentId == old(chat.currentId)
      ensures readdir.Some? && AllStatted(readdir.value, stat) ==>
        r == Listed(FolderListing(FolderEntries(readdir.value, stat)))
      ensures readdir.Some? && !AllStatted(readdir.value, stat) ==>
        r == StatRejected(readdir.value[FirstUnstatted(readdir.value, stat)])
    {
      if readdir.None? {
        var m := chat.AddFrontendMessage(ErrorRole, Str(FolderErrorText(currentWorkingDir)));
        return Unreadable;
      }
      var folderStructure, failed := ListEntries(readdir.value, stat);
      if failed.Some? {
        return StatRejected(failed.value);
      }
      if |folderStructure| > MaxFolderEntries {
        folderStructure := folderStructure[..MaxFolderEntries];
        return Listed(Join(folderStructure, "\n") + "\n" + AndMore);
      }
      if |folderStructure| == 0 {
        return Listed(EmptyDirectory);
      }
      return Listed(Join(folderStructure, "\n"));
    }

    /**
     * The `for` loop of `getFolderStructure`: one entry line per name, a
     * directory marked with a slash, until a `stat` rejects.
     */
    method ListEntries(files: seq<string>, stat: string -> Option<bool>) returns (folderStructure: seq<string>, failed: Option<string>)
      ensures AllStatted(files, stat) ==> failed.None? && folderStructure == FolderEntries(files, stat)
      ensures !AllStatted(files, stat) ==> failed == Some(files[FirstUnstatted(files, stat)])
    {
      folderStructure := [];
      var i := 0;
      while i < |files|
        invariant 0 <= i <= |files|
        invariant AllStatted(files[..i], stat)
        invariant folderStructure == FolderEntries(files[..i], stat)
      {
        var isDir := stat(files[i]);
        if isDir.None? {
          FirstUnstattedAt(files, stat, i);
          return folderStructure, Some(files[i]);
        }
        if isDir.value {
          folderStructure := folderStructure + ["- " + files[i] + "/"];
          assert "- " + files[i] + "/" == FolderEntry(files[i], true);
        } else {
          folderStructure := folderStructure + ["- " + files[i]];
          assert "- " + files[i] == FolderEntry(files[i], false);
        }
        assert files[..i + 1][..i] == files[..i];
        assert folderStructure == FolderEntries(files[..i], stat) + [FolderEntry(files[i], stat(files[i]) == Some(true))];
        i := i + 1;
      }
      assert files[..i] == files;
      failed := None;
    }
  }
}
