/**
 * The agent's tool layer (app/tools/tools.js): the table of tool
 * definitions, the enabled-tool projections offered to the model, the task
 * plan that tools tick off step by step, and the pure text work of the file
 * and shell tools.
 *
 * The file system, the terminal, path normalisation, file links, diffs and
 * the search back ends are parameters. The frontend notices a tool adds to
 * the chat are returned as values beside its result.
 */
module Tools {
  import opened Values
  import opened Seqs
  import opened Text

  // ---------------------------------------------------------------------
  // Tool definitions
  // ---------------------------------------------------------------------

  /**
   * One entry of `toolDefinitions`. `approvalRequired` is `None` where the
   * entry has no such key; `executable` says whether it has an
   * `executeFunction`. The description and the parameter schema are kept
   * apart, in `Description` and `Parameters`.
   */
  datatype ToolDefinition = ToolDefinition(
    name: string,
    enabled: bool,
    approvalRequired: Option<bool>,
    executable: bool)

  /** What the model is offered: name, description and parameter schema. */
  datatype ToolSpec = ToolSpec(name: string, description: string, parameters: Json)

  function ToolDefinitions(): seq<ToolDefinition> {
    [
      Definition("browser"),
      Definition("create_or_overwrite_file"),
      Definition("replace_code"),
      Definition("read_file"),
      Definition("run_shell_command"),
      Definition("search"),
      Definition("update_task_plan")
    ]
  }

  /** The names that have an entry in `toolDefinitions`. */
  predicate IsToolName(name: string) {
    match name
    case "browser" | "create_or_overwrite_file" | "replace_code" | "read_file" | "run_shell_command" | "search"
       | "update_task_plan" => true
    case _ => false
  }

  /** The entry with the given name: every entry is enabled and has an `executeFunction`. */
  function Definition(name: string): ToolDefinition {
    ToolDefinition(name, true, ApprovalFlag(name), true)
  }

  /** The entry's `approvalRequired` value. */
  function ApprovalFlag(name: string): Option<bool> {
    match name
    case "create_or_overwrite_file" | "replace_code" | "run_shell_command" => Some(true)
    // The search entry spells its flag `requiresApproval`, so it has no `approvalRequired`.
    case "search" => None
    case _ => Some(false)
  }

  /** An object schema with the given property types (property descriptions are not modelled). */
  function ObjectSchema(props: map<string, string>): Json {
    JObj(map["type" := JStr("object"), "properties" := JObj(map k | k in props :: JObj(map["type" := JStr(props[k])]))])
  }

  /** The `parameters` of the definition with the given name. */
  function Parameters(name: string): Json {
    match name
    case "browser" => ObjectSchema(map["url" := "string", "include_screenshot" := "boolean", "taskPlanStepId" := "integer"])
    case "create_or_overwrite_file" =>
      ObjectSchema(map["targetFile" := "string", "createText" := "string", "taskPlanStepId" := "integer"])
    case "replace_code" =>
      ObjectSchema(map["targetFile" := "string", "startLineNumber" := "integer", "endLineNumber" := "integer",
                       "replaceWith" := "string", "taskPlanStepId" := "integer"])
    case "read_file" => ObjectSchema(map["targetFile" := "string", "taskPlanStepId" := "integer"])
    case "run_shell_command" =>
      ObjectSchema(map["command" := "string", "background" := "boolean", "taskPlanStepId" := "integer"])
    case "search" => ObjectSchema(map["type" := "string", "query" := "string", "taskPlanStepId" := "integer"])
    case "update_task_plan" => ObjectSchema(map["updatedTaskPlan" := "array"])
    case _ => JNull
  }

  /** The property names the `parameters` schema of the named definition declares. */
  function PropertyNames(name: string): set<string> {
    match Field(Parameters(name), "properties")
    case Some(JObj(props)) => props.Keys
    case _ => {}
  }

  /** No definition's schema declares a `fileName` property. */
  lemma NoSchemaDeclaresFileName(name: string)
    ensures "fileName" !in PropertyNames(name)
  {
  }

  /** The `description` of the definition with the given name. */
  function Description(name: string): string {
    match name
    case "browser" =>
      "Allows to interact with the browser, Use it to open webpage for a user to see, to refresh the page after making changes or to capture console output or a screenshot of the page"
    case "create_or_overwrite_file" => "Create or overwrite a file with new content"
    case "replace_code" => "Replace a portion of a file with new content"
    case "read_file" => "Read files. Do not read files again that are listed in the <current_files_contents> section."
    case "run_shell_command" => "Run a single shell command suitable for the {shellType} shell"
    case "search" =>
      "Use to search current project codebase or to search Google. Performs semantic search. Query should be long in a natural language"
    case "update_task_plan" =>
      "Use to update the task plan. Keep the plan in sync with chat conversation. When user asks update the plan.  Always provide all steps in the task plan"
    case _ => ""
  }

  /** `ts.find(t => t.name === name)`. */
  function FindByName(ts: seq<ToolDefinition>, name: string): (r: Option<ToolDefinition>)
    ensures r.Some? ==> r.value in ts && r.value.name == name
    ensures r.None? ==> forall i :: 0 <= i < |ts| ==> ts[i].name != name
  {
    var k := FindIndex(ts, (t: ToolDefinition) => t.name == name);
    if k == -1 then None else Some(ts[k])
  }

  /** `toolDefinitions.find(t => t.name === name)`, looked up by name. */
  function FindTool(name: string): (r: Option<ToolDefinition>)
    ensures r.Some? ==> r.value.name == name
  {
    if IsToolName(name) then Some(Definition(name)) else None
  }

  /** Looking a tool up by name is searching the definition table in order. */
  lemma FindToolSearchesTable(name: string)
    ensures FindTool(name) == FindByName(ToolDefinitions(), name)
  {
    var defs := ToolDefinitions();
    var k := FindIndex(defs, (t: ToolDefinition) => t.name == name);
    TableEntries();
    if IsToolName(name) {
      var i := TableHolds(name);
      assert k != -1;
    }
  }

  /** Every entry of the table is the definition of a tool name. */
  lemma TableEntries()
    ensures forall i :: 0 <= i < |ToolDefinitions()| ==>
      IsToolName(ToolDefinitions()[i].name) && ToolDefinitions()[i] == Definition(ToolDefinitions()[i].name)
  {
  }

  /** Every tool name has an entry in the table. */
  lemma TableHolds(name: string) returns (i: int)
    requires IsToolName(name)
    ensures 0 <= i < |ToolDefinitions()| && ToolDefinitions()[i].name == name
  {
    var defs := ToolDefinitions();
    i := if name == "browser" then 0 else if name == "create_or_overwrite_file" then 1
      else if name == "replace_code" then 2 else if name == "read_file" then 3
      else if name == "run_shell_command" then 4 else if name == "search" then 5 else 6;
  }

  /** The truthiness of a tool's `approvalRequired` flag. */
  predicate NeedsApproval(t: ToolDefinition) {
    t.approvalRequired == Some(true)
  }

  /**
   * Exactly the file-writing and shell tools require approval; the search
   * tool does not, because its flag is misspelt.
   */
  lemma ApprovalFlags()
    ensures forall i :: 0 <= i < |ToolDefinitions()| ==>
      (NeedsApproval(ToolDefinitions()[i]) <==> WritesOrRuns(ToolDefinitions()[i].name))
    ensures FindTool("search").Some? && !NeedsApproval(FindTool("search").value)
  {
    var defs := ToolDefinitions();
    forall i | 0 <= i < |defs| ensures NeedsApproval(defs[i]) <==> WritesOrRuns(defs[i].name) {
      assert defs[i] == Definition(defs[i].name);
    }
  }

  /** The tools that write files or run commands. */
  predicate WritesOrRuns(name: string) {
    name == "create_or_overwrite_file" || name == "replace_code" || name == "run_shell_command"
  }

  /** `{name, description, parameters}` with the first `{shellType}` replaced. */
  function Project(t: ToolDefinition, shellType: string): ToolSpec {
    ToolSpec(t.name, ReplaceFirst(Description(t.name), "{shellType}", shellType), Parameters(t.name))
  }

  function ProjectAll(ts: seq<ToolDefinition>, shellType: string): (r: seq<ToolSpec>)
    ensures |r| == |ts|
    ensures forall i :: 0 <= i < |ts| ==> r[i] == Project(ts[i], shellType)
  {
    if ts == [] then [] else [Project(ts[0], shellType)] + ProjectAll(ts[1..], shellType)
  }

  /** `getEnabledTools(filterFn)`. */
  function GetEnabledTools(keep: ToolDefinition -> bool, shellType: string): seq<ToolSpec> {
    ProjectAll(Filter(ToolDefinitions(), keep), shellType)
  }

  predicate IsEnabled(t: ToolDefinition) {
    t.enabled
  }

  /** `allEnabledTools`. */
  function AllEnabledTools(shellType: string): seq<ToolSpec> {
    GetEnabledTools(IsEnabled, shellType)
  }

  /** `allEnabledExcept(toolNames)`. */
  function AllEnabledExcept(toolNames: seq<string>, shellType: string): seq<ToolSpec> {
    Filter(AllEnabledTools(shellType), (t: ToolSpec) => t.name !in toolNames)
  }

  /** Filtering projected tools by name is projecting the tools filtered by name. */
  lemma {:induction false} FilterProjectByName(ts: seq<ToolDefinition>, shellType: string, names: seq<string>)
    ensures Filter(ProjectAll(ts, shellType), (t: ToolSpec) => t.name !in names)
      == ProjectAll(Filter(ts, (t: ToolDefinition) => t.name !in names), shellType)
  {
    if ts != [] {
      assert ProjectAll(ts, shellType)[1..] == ProjectAll(ts[1..], shellType);
      FilterProjectByName(ts[1..], shellType, names);
    }
  }

  lemma EnabledExceptOf(ts: seq<ToolDefinition>, toolNames: seq<string>, shellType: string)
    ensures Filter(ProjectAll(Filter(ts, IsEnabled), shellType), (t: ToolSpec) => t.name !in toolNames)
      == ProjectAll(Filter(ts, (t: ToolDefinition) => t.enabled && t.name !in toolNames), shellType)
  {
    FilterProjectByName(Filter(ts, IsEnabled), shellType, toolNames);
    FilterFilter(ts, IsEnabled, (t: ToolDefinition) => t.name !in toolNames,
      (t: ToolDefinition) => t.enabled && t.name !in toolNames);
  }

  /**
   * `allEnabledExcept(names)` is the projection of the enabled definitions
   * whose names are not listed, in definition order.
   */
  lemma AllEnabledExceptSpec(toolNames: seq<string>, shellType: string)
    ensures AllEnabledExcept(toolNames, shellType)
      == ProjectAll(Filter(ToolDefinitions(), (t: ToolDefinition) => t.enabled && t.name !in toolNames), shellType)
  {
    EnabledExceptOf(ToolDefinitions(), toolNames, shellType);
  }

  /**
   * `planningTools`: looks up a `task_planning_done` definition that does
   * not exist and reads its name, which throws.
   */
  function PlanningTools(shellType: string): (r: Result<seq<ToolSpec>>)
    ensures r.Err? <==> FindTool("task_planning_done").None?
  {
    var tools := GetEnabledTools((t: ToolDefinition) => t.enabled && !NeedsApproval(t), shellType);
    match FindTool("task_planning_done")
    case None => Err("TypeError: Cannot read properties of undefined (reading 'name')")
    case Some(t) => Ok(tools + [ToolSpec(t.name, Description(t.name), Parameters(t.name))])
  }

  lemma PlanningToolsAlwaysFails(shellType: string)
    ensures PlanningTools(shellType).Err?
  {
    var defs := ToolDefinitions();
    assert forall i :: 0 <= i < |defs| ==> defs[i].name != "task_planning_done";
  }

  // ---------------------------------------------------------------------
  // The task plan
  // ---------------------------------------------------------------------

  datatype Step = Step(title: string, description: string, completed: bool)

  /** The plan with the steps before index `k` marked completed. */
  function CompletedThrough(plan: seq<Step>, k: int): (r: seq<Step>)
    ensures |r| == |plan|
    ensures forall i :: 0 <= i < |plan| && i < k ==>
      r[i].completed && r[i].title == plan[i].title && r[i].description == plan[i].description
    ensures forall i :: 0 <= i < |plan| && i >= k ==> r[i] == plan[i]
  {
    seq(|plan|, i requires 0 <= i < |plan| => if i < k then plan[i].(completed := true) else plan[i])
  }

  /** Completing through `a` and then through `b` is completing through the larger of the two. */
  lemma CompletionComposes(plan: seq<Step>, a: int, b: int)
    ensures CompletedThrough(CompletedThrough(plan, a), b) == CompletedThrough(plan, if a >= b then a else b)
  {
    var once := CompletedThrough(plan, a);
    var twice := CompletedThrough(once, b);
    var m := if a >= b then a else b;
    forall i | 0 <= i < |plan| ensures twice[i] == CompletedThrough(plan, m)[i] {
      if i < m {
        assert twice[i] == plan[i].(completed := true);
      }
    }
  }

  /** The outcome of a tool: its result text and the frontend notice it adds, if any. */
  datatype Outcome = Outcome(result: string, notice: Option<string>)

  const TargetFileNotProvided := "Please provide a target file name in a correct format."

  /** `respondTargetFileNotProvided`. */
  function RespondTargetFileNotProvided(): Outcome {
    Outcome(TargetFileNotProvided, Some("File name was not provided."))
  }

  function DoesNotExist(targetFile: string): string {
    "File with filepath '" + targetFile + "' does not exist"
  }

  /** A string argument that is present and non-empty (JavaScript truthiness). */
  predicate Given(s: Option<string>) {
    s.Some? && s.value != ""
  }

  // ---------------------------------------------------------------------
  // Line-range replacement
  // ---------------------------------------------------------------------

  /**
   * `codeAfterReplace`'s new content: the lines before `startLineNumber`,
   * then `replaceWith`, then the lines after `endLineNumber`, with JavaScript
   * `slice` semantics for out-of-range numbers.
   */
  function CodeAfterReplace(content: string, startLineNumber: int, endLineNumber: int, replaceWith: string): string {
    var lines := Split(content, '\n');
    Join(JsSlice(lines, 0, startLineNumber - 1) + [replaceWith] + JsSliceFrom(lines, endLineNumber), "\n")
  }

  /** The new content's lines are the kept lines around the replacement's own lines. */
  lemma CodeAfterReplaceLines(content: string, startLineNumber: int, endLineNumber: int, replaceWith: string)
    ensures var lines := Split(content, '\n');
      Split(CodeAfterReplace(content, startLineNumber, endLineNumber, replaceWith), '\n')
        == JsSlice(lines, 0, startLineNumber - 1) + Split(replaceWith, '\n') + JsSliceFrom(lines, endLineNumber)
  {
    var lines := Split(content, '\n');
    var before := JsSlice(lines, 0, startLineNumber - 1);
    var after := JsSliceFrom(lines, endLineNumber);
    assert forall i :: 0 <= i < |before| ==> before[i] in lines;
    assert forall i :: 0 <= i < |after| ==> after[i] in lines;
    SplitJoinSpliced(before, replaceWith, after, '\n');
  }

  /**
   * For an in-range line range, lines 1 to `start - 1` and the lines after
   * `end` are kept verbatim around the replacement.
   */
  lemma CodeAfterReplaceInRange(content: string, start: int, end: int, replaceWith: string)
    requires var n := |Split(content, '\n')|; 1 <= start && start - 1 <= end <= n
    ensures var lines := Split(content, '\n');
      Split(CodeAfterReplace(content, start, end, replaceWith), '\n')
        == lines[..start - 1] + Split(replaceWith, '\n') + lines[end..]
  {
    CodeAfterReplaceLines(content, start, end, replaceWith);
  }

  // ---------------------------------------------------------------------
  // Shell output
  // ---------------------------------------------------------------------

  const OmittedMarker := "(some command output omitted)..."
  const EmptyOutputText := "command executed successfully. Terminal command output was empty."

  lemma MarkerHasNoNewline()
    ensures '\n' !in OmittedMarker
  {
    assert forall i :: 0 <= i < |OmittedMarker| ==> OmittedMarker[i] != '\n';
  }

  /** More than 100 lines: the first 5, a marker line, the last 95. */
  function TruncateLines(output: string): string {
    var lines := Split(output, '\n');
    if |lines| > 100 then Join(lines[..5] + [OmittedMarker] + lines[|lines| - 95..], "\n") else output
  }

  lemma TruncateLinesShape(output: string)
    ensures var lines := Split(output, '\n');
      |lines| > 100 ==>
        Split(TruncateLines(output), '\n') == lines[..5] + [OmittedMarker] + lines[|lines| - 95..]
        && |Split(TruncateLines(output), '\n')| == 101
    ensures |Split(output, '\n')| <= 100 ==> TruncateLines(output) == output
  {
    var lines := Split(output, '\n');
    if |lines| > 100 {
      var head, tail := lines[..5], lines[|lines| - 95..];
      assert '\n' !in OmittedMarker by {
        MarkerHasNoNewline();
      }
      NoSeparatorAround(head, OmittedMarker, tail, '\n');
      SplitJoin(head + [OmittedMarker] + tail, '\n');
    }
  }

  /** More than 5000 characters: a marker line, then the last 5000. */
  function TruncateChars(output: string): (r: string)
    ensures |output| <= 5000 ==> r == output
    ensures |output| > 5000 ==>
      |r| == |OmittedMarker| + 1 + 5000
      && r[|r| - 5000..] == output[|output| - 5000..]
      && r[..|OmittedMarker| + 1] == OmittedMarker + "\n"
  {
    if |output| > 5000 then OmittedMarker + "\n" + output[|output| - 5000..] else output
  }

  /** What `shell` reports before the output: the command, quoted. */
  function ShellHeader(command: string): string {
    "Command executed: '" + command + "'\nOutput:\n'"
  }

  /**
   * The text `shell` returns for a foreground command: the header, then the
   * truncated output with the first occurrence of the command's text cut
   * out (the fixed success text when nothing is left), then a closing quote.
   */
  function ShellResult(command: string, output: string): (r: string)
    ensures |r| > |ShellHeader(command)| && r[..|ShellHeader(command)|] == ShellHeader(command) && r[|r| - 1] == '\''
    ensures var shown := r[|ShellHeader(command)|..|r| - 1];
      var t := TruncateChars(TruncateLines(output));
      (IndexOf(t, command).None? ==> shown == (if t == "" then EmptyOutputText else t))
      && (IndexOf(t, command).Some? ==>
            var i := IndexOf(t, command).value;
            var cut := t[..i] + t[i + |command|..];
            shown == (if cut == "" then EmptyOutputText else cut))
  {
    var stripped := ReplaceFirst(TruncateChars(TruncateLines(output)), command, "");
    var shown := if stripped == "" then EmptyOutputText else stripped;
    Bracketed(ShellHeader(command), shown, '\'');
    ShellHeader(command) + shown + "'"
  }

  /** Empty output reports that the command ran with no output. */
  lemma ShellEmptyOutput(command: string)
    ensures ShellResult(command, "") == ShellHeader(command) + EmptyOutputText + "'"
  {
    assert Split("", '\n') == [""];
    assert TruncateLines("") == "";
    assert ReplaceFirst("", command, "") == "" by {
      if IndexOf("", command).Some? {
        assert IndexOf("", command).value == 0;
      }
    }
  }

  /**
   * Output of at most 100 lines and 5000 characters that does not contain
   * the command's text is shown verbatim.
   */
  lemma ShellShowsShortOutput(command: string, output: string)
    requires output != "" && |Split(output, '\n')| <= 100 && |output| <= 5000
    requires IndexOf(output, command).None?
    ensures var r := ShellResult(command, output);
      r == ShellHeader(command) + output + "'"
  {
    TruncateLinesShape(output);
    var r := ShellResult(command, output);
    var h := ShellHeader(command);
    assert r[|h|..|r| - 1] == output;
    assert r == r[..|h|] + r[|h|..|r| - 1] + [r[|r| - 1]];
  }

  // ---------------------------------------------------------------------
  // Search dispatch
  // ---------------------------------------------------------------------

  /** `unifiedSearch`'s result; `codebase` and `google` are the back ends' answers. */
  function UnifiedSearchResult(searchType: string, query: string, codebase: string, google: string): (r: string)
    ensures searchType != "codebase" && searchType != "google" ==> r == "Invalid search type specified."
    ensures searchType == "codebase" ==> StartsWith(r, "Codebase search result for \"") && r == "Codebase search result for \"" + query + "\":\n" + codebase
    ensures searchType == "google" ==> StartsWith(r, "Google search result for \"") && r == "Google search result for \"" + query + "\":\n" + google
  {
    if searchType == "codebase" then "Codebase search result for \"" + query + "\":\n" + codebase
    else if searchType == "google" then "Google search result for \"" + query + "\":\n" + google
    else "Invalid search type specified."
  }

  /** One result of the code-embedding search: the file it is from and the matched text. */
  datatype SearchHit = SearchHit(filePath: string, fileContent: string)

  function HitPaths(results: seq<SearchHit>): (r: seq<string>)
    ensures |r| == |results| && forall i :: 0 <= i < |r| ==> r[i] == results[i].filePath
  {
    if results == [] then [] else [results[0].filePath] + HitPaths(results[1..])
  }

  function HitContents(results: seq<SearchHit>): (r: seq<string>)
    ensures |r| == |results| && forall i :: 0 <= i < |r| ==> r[i] == results[i].fileContent
  {
    if results == [] then [] else [results[0].fileContent] + HitContents(results[1..])
  }

  /**
   * `searchCode` in the tool layer: the matched texts joined by blank lines,
   * with a notice listing each checked file once (`links` are their links,
   * in first-seen order); `No results found` when nothing matched.
   */
  function SearchCodeResult(results: seq<SearchHit>, link: string -> string): (o: Outcome)
    ensures results == [] ==> o == Outcome("No results found", Some("No results found"))
    ensures results != [] ==> o.result == Join(HitContents(results), "\n\n")
    ensures results != [] ==>
      var files := Dedup(HitPaths(results));
      o.notice == Some("Checked " + NatToString(|files|) + " files:<br>" + Join(Links(files, link), "<br>"))
  {
    if results == [] then Outcome("No results found", Some("No results found"))
    else
      var files := Dedup(HitPaths(results));
      Outcome(Join(HitContents(results), "\n\n"), Some("Checked " + NatToString(|files|) + " files:<br>" + Join(Links(files, link), "<br>")))
  }

  /** `openFileLink` of every path, in order. */
  function Links(paths: seq<string>, link: string -> string): (r: seq<string>)
    ensures |r| == |paths| && forall i :: 0 <= i < |r| ==> r[i] == link(paths[i])
  {
    if paths == [] then [] else [link(paths[0])] + Links(paths[1..], link)
  }

  /** The notice counts distinct files, however many of each file's chunks matched. */
  lemma SearchCodeCountsFilesOnce(results: seq<SearchHit>)
    ensures |Dedup(HitPaths(results))| == |set i | 0 <= i < |results| :: results[i].filePath|
  {
    var paths := HitPaths(results);
    DedupCountsDistinct(paths);
    assert (set x | x in paths) == (set i | 0 <= i < |results| :: results[i].filePath) by {
      forall x | x in paths ensures x in (set i | 0 <= i < |results| :: results[i].filePath) {
        var i :| 0 <= i < |paths| && paths[i] == x;
      }
    }
  }

  const DataUrlShown := "data URL to show visualization"

  const ConsoleOpen := "\n<console_output>"
  const ConsoleClose := "</console_output>"
  const ScreenshotNote := "\nScreenshot of the webpage was taken and attached in the user message"

  /**
   * The text `browser` returns: the page opened (data URLs are not echoed
   * back), the page's console output verbatim in tags, and the screenshot
   * note when a screenshot was taken.
   */
  function BrowserResult(url: string, consoleOutput: string, includeScreenshot: bool): (r: string)
    ensures StartsWith(r, "Browser opened ")
    ensures StartsWith(url, "data:") ==> StartsWith(r, "Browser opened " + DataUrlShown + ".")
    ensures !StartsWith(url, "data:") ==> StartsWith(r, "Browser opened " + url + ".")
    ensures var head := "Browser opened " + (if StartsWith(url, "data:") then DataUrlShown else url) + ".";
      var note := if includeScreenshot then ScreenshotNote else "";
      var c := |head| + |ConsoleOpen|;
      |r| == c + |consoleOutput| + |ConsoleClose| + |note|
      && r[|head|..c] == ConsoleOpen
      && r[c..c + |consoleOutput|] == consoleOutput
      && r[c + |consoleOutput|..|r| - |note|] == ConsoleClose
      && r[|r| - |note|..] == note
  {
    var shown := if StartsWith(url, "data:") then DataUrlShown else url;
    var head := "Browser opened " + shown + ".";
    var note := if includeScreenshot then ScreenshotNote else "";
    var tail := ConsoleOpen + consoleOutput + ConsoleClose + note;
    assert StartsWith(head + tail, "Browser opened ") by {
      StartsWithAppend(head, tail);
      StartsWithAppend("Browser opened ", shown + ".");
      assert "Browser opened " + shown + "." == "Browser opened " + (shown + ".");
      StartsWithTransitive(head + tail, head, "Browser opened ");
    }
    assert StartsWith(head + tail, head) by {
      StartsWithAppend(head, tail);
    }
    FiveParts(head, ConsoleOpen, consoleOutput, ConsoleClose, note);
    head + tail
  }

  /** A middle part between a head and one closing element is read back by slicing. */
  lemma Bracketed<T>(h: seq<T>, m: seq<T>, c: T)
    ensures var r := h + m + [c];
      |r| > |h| && r[..|h|] == h && r[|h|..|r| - 1] == m && r[|r| - 1] == c
  {
    var r := h + m + [c];
    assert r[..|h|] == h;
    assert r[|h|..|r| - 1] == m;
  }

  /** The five pieces of a concatenation are read back by slicing. */
  lemma FiveParts<T>(a: seq<T>, b: seq<T>, c: seq<T>, d: seq<T>, e: seq<T>)
    ensures var r := a + (b + c + d + e);
      var k := |a| + |b|;
      |r| == k + |c| + |d| + |e|
      && r[..|a|] == a
      && r[|a|..k] == b
      && r[k..k + |c|] == c
      && r[k + |c|..|r| - |e|] == d
      && r[|r| - |e|..] == e
  {
    var r := a + (b + c + d + e);
    var k := |a| + |b|;
    assert r[..|a|] == a;
    forall i | 0 <= i < |b| ensures r[|a|..k][i] == b[i] {
      assert r[|a| + i] == (b + c + d + e)[i];
    }
    forall i | 0 <= i < |c| ensures r[k..k + |c|][i] == c[i] {
      assert r[k + i] == (b + c + d + e)[|b| + i];
    }
    forall i | 0 <= i < |d| ensures r[k + |c|..|r| - |e|][i] == d[i] {
      assert r[k + |c| + i] == (b + c + d + e)[|b| + |c| + i];
    }
    forall i | 0 <= i < |e| ensures r[|r| - |e|..][i] == e[i] {
      assert r[|r| - |e| + i] == (b + c + d + e)[|b| + |c| + |d| + i];
    }
  }

  /** The arguments `previewMessageMapping` reads; `None` where the model sent none. */
  datatype PreviewArgs = PreviewArgs(
    targetFile: Option<string>, createText: Option<string>, command: Option<string>,
    searchType: Option<string>, query: Option<string>)

  /** A JavaScript template's rendering of a possibly missing string. */
  function Show(s: Option<string>): string {
    if s.Some? then s.value else "undefined"
  }

  datatype Preview = Preview(message: string, code: string)

  const ShellHeading := "Executing shell command:"

  /** A command shown in a console code block. */
  function ConsoleBlock(command: string): string {
    "\n\n```console\n" + command + "\n```"
  }

  /**
   * `previewMessageMapping(functionName, args)`: what the chat shows before
   * a tool runs. `codeDiff` is the diff against the file on disk (empty for
   * a new file), `fileLink` the file's link. An unknown tool has no entry.
   */
  function PreviewMessage(functionName: string, args: PreviewArgs, codeDiff: string, fileLink: string): (r: Option<Preview>)
    ensures r.Some? <==> FindTool(functionName).Some?
    ensures functionName == "replace_code" ==>
      r == Some(Preview("Updating code in " + (if Given(args.targetFile) then fileLink else "") + ":",
                        "\n```diff\n" + codeDiff + "\n```"))
    ensures functionName == "create_or_overwrite_file" ==>
      r.Some? && r.value.message == "Creating a file " + Show(args.targetFile)
      && (codeDiff != "" ==> r.value.code == "\n```diff\n" + codeDiff + "\n```")
      && (codeDiff == "" ==> r.value.code == "\n```\n" + Show(args.createText) + "\n```")
  {
    var link := if Given(args.targetFile) then fileLink else "";
    match functionName
    case "browser" => Some(Preview("", ""))
    case "create_or_overwrite_file" =>
      Some(Preview("Creating a file " + Show(args.targetFile),
        if codeDiff != "" then "\n```diff\n" + codeDiff + "\n```" else "\n```\n" + Show(args.createText) + "\n```"))
    case "read_file" => Some(Preview("", ""))
    case "replace_code" => Some(Preview("Updating code in " + link + ":", "\n```diff\n" + codeDiff + "\n```"))
    case "run_shell_command" => Some(Preview(ShellHeading, ConsoleBlock(Show(args.command))))
    case "search" => Some(Preview("Searching " + Show(args.searchType) + " for '" + Show(args.query) + "'", ""))
    case "update_task_plan" => Some(Preview("", ""))
    case _ => None
  }

  /**
   * The tool-side state: the chat's task plan, `None` when there is none.
   * Tools that finish a step tick the plan off through `CompleteTaskPlanStep`.
   */
  class ToolContext {
    var taskPlan: Option<seq<Step>>

    constructor (plan: Option<seq<Step>>)
      ensures taskPlan == plan
    {
      taskPlan := plan;
    }

    /**
     * `completeTaskPlanStep`: marks steps 1 to `taskPlanStepId` completed.
     * Without a plan or without a step id nothing changes; steps past the
     * end of the plan are skipped.
     */
    method CompleteTaskPlanStep(taskPlanStepId: Option<int>)
      modifies this
      ensures taskPlan ==
        if old(taskPlan).Some? && taskPlanStepId.Some?
        then Some(CompletedThrough(old(taskPlan).value, taskPlanStepId.value))
        else old(taskPlan)
    {
      if taskPlan.Some? && taskPlanStepId.Some? {
        var zeroBasedIndex := taskPlanStepId.value - 1;
        ghost var plan0 := taskPlan.value;
        var i := 0;
        while i <= zeroBasedIndex
          invariant 0 <= i && (zeroBasedIndex >= 0 ==> i <= zeroBasedIndex + 1) && (zeroBasedIndex < 0 ==> i == 0)
          invariant taskPlan.Some? && taskPlan.value == CompletedThrough(plan0, i)
          decreases zeroBasedIndex - i + 1
        {
          if i < |taskPlan.value| {
            taskPlan := Some(taskPlan.value[i := taskPlan.value[i].(completed := true)]);
          }
          i := i + 1;
        }
        assert i == (if zeroBasedIndex >= 0 then zeroBasedIndex + 1 else 0);
        assert CompletedThrough(plan0, i) == CompletedThrough(plan0, taskPlanStepId.value);
      }
    }

    /** `updateTaskPlan`: replaces the plan wholesale. */
    method UpdateTaskPlan(updatedTaskPlan: Option<seq<Step>>) returns (o: Outcome)
      modifies this
      ensures taskPlan == updatedTaskPlan
      ensures o == Outcome("Task plan updated successfully", Some("Plan updated"))
    {
      taskPlan := updatedTaskPlan;
      o := Outcome("Task plan updated successfully", Some("Plan updated"));
    }

    /**
     * `replaceInFile`. `filePath` is the normalised path, `fileExists` whether it
     * fileExists, `content` its text, `diff` the diff text and `link` the file
     * link. `written` is the new file text, `None` when nothing is written.
     */
    method ReplaceInFile(
      targetFile: Option<string>, startLineNumber: int, endLineNumber: int, replaceWith: string,
      taskPlanStepId: Option<int>, filePath: string, fileExists: bool, content: string, diff: string, link: string)
      returns (o: Outcome, written: Option<string>)
      modifies this
      ensures !Given(targetFile) ==> o == RespondTargetFileNotProvided() && written.None? && taskPlan == old(taskPlan)
      ensures Given(targetFile) && !fileExists ==>
        o == Outcome(DoesNotExist(targetFile.value), Some(DoesNotExist(targetFile.value)))
        && written.None? && taskPlan == old(taskPlan)
      ensures Given(targetFile) && fileExists && startLineNumber < 1 ==>
        var msg := "Invalid line range: " + IntToString(startLineNumber) + "-" + IntToString(endLineNumber);
        o == Outcome(msg, Some(msg)) && written.None? && taskPlan == old(taskPlan)
      ensures Given(targetFile) && fileExists && startLineNumber >= 1 ==>
        && written == Some(CodeAfterReplace(content, startLineNumber, endLineNumber, replaceWith))
        && o.result == "File " + filePath + " updated successfully.\n" + "<changes_made_to_file>" + diff + "</changes_made_to_file>"
        && o.notice == Some("File " + link + " updated successfully.")
        && taskPlan == (if old(taskPlan).Some? && taskPlanStepId.Some?
                        then Some(CompletedThrough(old(taskPlan).value, taskPlanStepId.value)) else old(taskPlan))
    {
      if !Given(targetFile) {
        return RespondTargetFileNotProvided(), None;
      }
      if !fileExists {
        var msg := DoesNotExist(targetFile.value);
        return Outcome(msg, Some(msg)), None;
      }
      if startLineNumber < 1 {
        var msg := "Invalid line range: " + IntToString(startLineNumber) + "-" + IntToString(endLineNumber);
        return Outcome(msg, Some(msg)), None;
      }
      written := Some(CodeAfterReplace(content, startLineNumber, endLineNumber, replaceWith));
      CompleteTaskPlanStep(taskPlanStepId);
      o := Outcome("File " + filePath + " updated successfully.\n" + "<changes_made_to_file>" + diff + "</changes_made_to_file>",
                   Some("File " + link + " updated successfully."));
    }

    /** `createFile`: writes `createText` unless no target file is given. */
    method CreateFile(targetFile: Option<string>, createText: string, taskPlanStepId: Option<int>, link: string)
      returns (o: Outcome, written: Option<string>)
      modifies this
      ensures !Given(targetFile) ==> o == RespondTargetFileNotProvided() && written.None? && taskPlan == old(taskPlan)
      ensures Given(targetFile) ==>
        && written == Some(createText)
        && o == Outcome("File '" + targetFile.value + "' created successfully", Some("File " + link + " created successfully"))
        && taskPlan == (if old(taskPlan).Some? && taskPlanStepId.Some?
                        then Some(CompletedThrough(old(taskPlan).value, taskPlanStepId.value)) else old(taskPlan))
    {
      if !Given(targetFile) {
        return RespondTargetFileNotProvided(), None;
      }
      written := Some(createText);
      CompleteTaskPlanStep(taskPlanStepId);
      o := Outcome("File '" + targetFile.value + "' created successfully", Some("File " + link + " created successfully"));
    }

    /**
     * `shell`. A background command (`background === true`) returns at once;
     * otherwise `output` is what the terminal printed.
     */
    method Shell(command: string, background: bool, output: string, taskPlanStepId: Option<int>) returns (r: string)
      modifies this
      ensures background ==> r == "Command started in the background"
      ensures !background ==> r == ShellResult(command, output)
      ensures taskPlan == (if old(taskPlan).Some? && taskPlanStepId.Some?
                           then Some(CompletedThrough(old(taskPlan).value, taskPlanStepId.value)) else old(taskPlan))
    {
      CompleteTaskPlanStep(taskPlanStepId);
      if background {
        return "Command started in the background";
      }
      r := ShellResult(command, output);
    }

    /** `browser`: opens the page, reports it and ticks off the plan step. */
    method Browser(url: string, consoleOutput: string, includeScreenshot: bool, taskPlanStepId: Option<int>)
      returns (o: Outcome)
      modifies this
      ensures o == Outcome(BrowserResult(url, consoleOutput, includeScreenshot), Some("Opened in browser"))
      ensures taskPlan == (if old(taskPlan).Some? && taskPlanStepId.Some?
                           then Some(CompletedThrough(old(taskPlan).value, taskPlanStepId.value)) else old(taskPlan))
    {
      CompleteTaskPlanStep(taskPlanStepId);
      o := Outcome(BrowserResult(url, consoleOutput, includeScreenshot), Some("Opened in browser"));
    }

    /** `unifiedSearch`: a known search type ticks off the plan step; an unknown one changes nothing. */
    method UnifiedSearch(searchType: string, query: string, codebase: string, google: string, taskPlanStepId: Option<int>)
      returns (r: string)
      modifies this
      ensures r == UnifiedSearchResult(searchType, query, codebase, google)
      ensures searchType == "codebase" || searchType == "google" ==>
        taskPlan == (if old(taskPlan).Some? && taskPlanStepId.Some?
                     then Some(CompletedThrough(old(taskPlan).value, taskPlanStepId.value)) else old(taskPlan))
      ensures searchType != "codebase" && searchType != "google" ==> taskPlan == old(taskPlan)
    {
      if searchType == "codebase" || searchType == "google" {
        CompleteTaskPlanStep(taskPlanStepId);
      }
      r := UnifiedSearchResult(searchType, query, codebase, google);
    }
  }

  /** The `read_file` tool: checks the target and reports the read; the contents reach the model elsewhere. */
  function ReadFileTool(targetFile: Option<string>, filePath: string, fileExists: bool, link: string): (o: Outcome)
    ensures !Given(targetFile) ==> o == RespondTargetFileNotProvided()
    ensures Given(targetFile) && !fileExists ==> o.result == DoesNotExist(targetFile.value) && o.notice == Some(o.result)
    ensures Given(targetFile) && fileExists ==> o.result == "File \"" + filePath + "\" was read."
  {
    if !Given(targetFile) then RespondTargetFileNotProvided()
    else if !fileExists then Outcome(DoesNotExist(targetFile.value), Some(DoesNotExist(targetFile.value)))
    else Outcome("File \"" + filePath + "\" was read.", Some("Read " + link + " file"))
  }
}
