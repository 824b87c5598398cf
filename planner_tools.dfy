/**
 * The research agent's own tools (app/chat/planner/tools.js): reading a
 * batch of files, a code search that can answer with file names only, and
 * the `output` tool whose schema is the research item's answer format.
 *
 * Path normalisation, the file system and the embedding search are
 * parameters.
 */
module PlannerTools {
  import opened Values
  import opened Seqs
  import opened Text
  import opened Tools

  /** One planner tool definition; `executable` says whether it has an `executeFunction`. */
  datatype PlannerTool = PlannerTool(name: string, description: string, parameters: Json, executable: bool)

  function Schema(properties: Json, required: seq<string>): Json {
    JObj(map["type" := JStr("object"), "properties" := properties, "required" := JArr(StrArray(required))])
  }

  function StrArray(xs: seq<string>): (r: seq<Json>)
    ensures |r| == |xs| && forall i :: 0 <= i < |xs| ==> r[i] == JStr(xs[i])
  {
    if xs == [] then [] else [JStr(xs[0])] + StrArray(xs[1..])
  }

  function PlannerToolDefinitions(): seq<PlannerTool> {
    [
      PlannerTool("read_files", "Read files.",
        Schema(JObj(map["filePaths" := JObj(map["type" := JStr("array"), "items" := JObj(map["type" := JStr("string")])])]), ["filePaths"]),
        true),
      PlannerTool("search_codebase", "Semantic search that can perform codebase search",
        Schema(JObj(map["query" := JObj(map["type" := JStr("string")]), "filenamesOnly" := JObj(map["type" := JStr("boolean")])]), ["query"]),
        true),
      PlannerTool("output", "Output the result of the task",
        JObj(map["type" := JStr("object"), "properties" := JObj(map[])]),
        false)
    ]
  }

  /** The `output` tool with its properties set to `outputFormat`; other tools pass through. */
  function WithOutputFormat(t: PlannerTool, outputFormat: Json): PlannerTool {
    if t.name == "output" then t.(parameters := JObj(map["type" := JStr("object"), "properties" := outputFormat])) else t
  }

  function MapWithOutputFormat(ts: seq<PlannerTool>, outputFormat: Json): (r: seq<PlannerTool>)
    ensures |r| == |ts| && forall i :: 0 <= i < |ts| ==> r[i] == WithOutputFormat(ts[i], outputFormat)
  {
    if ts == [] then [] else [WithOutputFormat(ts[0], outputFormat)] + MapWithOutputFormat(ts[1..], outputFormat)
  }

  /** `tools(outputFormat)`. */
  function PlannerToolsFor(outputFormat: Json): seq<PlannerTool> {
    MapWithOutputFormat(PlannerToolDefinitions(), outputFormat)
  }

  /**
   * `tools(outputFormat)` keeps every definition, in order, and changes
   * only the `output` tool's parameters, whose properties are then exactly
   * `outputFormat`; the output tool stays one the agent cannot execute.
   */
  lemma ToolsOnlyChangeOutput(outputFormat: Json)
    ensures var r := PlannerToolsFor(outputFormat);
      && |r| == |PlannerToolDefinitions()|
      && (forall i :: 0 <= i < |r| ==>
            (r[i].name == PlannerToolDefinitions()[i].name
             && r[i].description == PlannerToolDefinitions()[i].description
             && r[i].executable == PlannerToolDefinitions()[i].executable))
      && (forall i :: 0 <= i < |r| && r[i].name != "output" ==> r[i] == PlannerToolDefinitions()[i])
      && (forall i :: 0 <= i < |r| && r[i].name == "output" ==>
            (!r[i].executable && Field(r[i].parameters, "properties") == Some(outputFormat)))
  {
    var defs := PlannerToolDefinitions();
    assert defs[2].name == "output";
  }

  /** The planner's own tools: exactly one of them, `output`, has no executable function. */
  lemma OnlyOutputIsNotExecutable()
    ensures forall i :: 0 <= i < |PlannerToolDefinitions()| ==>
      (!PlannerToolDefinitions()[i].executable <==> PlannerToolDefinitions()[i].name == "output")
  {
  }

  function OpenTag(filePath: string): string {
    "<filecontent filename=\"" + filePath + "\">"
  }

  const CloseTag := "</filecontent>"

  /** How one requested file appears in `readFiles`'s answer. */
  function ReadFileEntry(targetFile: string, filePath: string, fileExists: bool, content: string): (r: string)
    ensures !fileExists ==> r == DoesNotExist(targetFile)
    ensures fileExists ==> StartsWith(r, OpenTag(filePath) + "\n")
    ensures fileExists ==>
      var k := |OpenTag(filePath)| + 1;
      |r| == k + |content| + 1 + |CloseTag|
      && r[k..k + |content|] == content
      && r[k + |content|..] == "\n" + CloseTag
  {
    if !fileExists then DoesNotExist(targetFile)
    else
      var head := OpenTag(filePath) + "\n";
      var r := head + (content + "\n" + CloseTag);
      assert StartsWith(r, head) by {
        StartsWithAppend(head, content + "\n" + CloseTag);
      }
      assert r[|head|..|head| + |content|] == content;
      assert r[|head| + |content|..] == "\n" + CloseTag;
      r
  }

  function ReadFileEntries(filePaths: seq<string>, resolve: string -> string, fileExists: string -> bool, read: string -> string)
    : (r: seq<string>)
    ensures |r| == |filePaths|
    ensures forall i :: 0 <= i < |r| ==>
      r[i] == ReadFileEntry(filePaths[i], resolve(filePaths[i]), fileExists(resolve(filePaths[i])), read(resolve(filePaths[i])))
  {
    if filePaths == [] then []
    else
      var p := resolve(filePaths[0]);
      [ReadFileEntry(filePaths[0], p, fileExists(p), read(p))] + ReadFileEntries(filePaths[1..], resolve, fileExists, read)
  }

  /**
   * `readFiles({filePaths})`: one entry per requested path, in the order
   * asked, joined by newlines. `resolve` is path normalisation, `fileExists`
   * and `read` the file system.
   */
  function ReadFiles(filePaths: seq<string>, resolve: string -> string, fileExists: string -> bool, read: string -> string): string {
    Join(ReadFileEntries(filePaths, resolve, fileExists, read), "\n")
  }

  /**
   * A request for files that all exist and whose contents hold no newline
   * splits back into three lines per file: the opening tag, the content and
   * the closing tag.
   */
  lemma {:induction false} ReadFilesLines(filePaths: seq<string>, resolve: string -> string, fileExists: string -> bool, read: string -> string)
    requires forall i :: 0 <= i < |filePaths| ==> fileExists(resolve(filePaths[i]))
    requires forall i :: 0 <= i < |filePaths| ==> '\n' !in read(resolve(filePaths[i])) && '\n' !in resolve(filePaths[i])
    ensures |Split(ReadFiles(filePaths, resolve, fileExists, read), '\n')| == if filePaths == [] then 1 else 3 * |filePaths|
  {
    var entries := ReadFileEntries(filePaths, resolve, fileExists, read);
    var lines := EntryLines(filePaths, resolve, read);
    assert Join(lines, "\n") == Join(entries, "\n") by {
      JoinEntryLines(filePaths, resolve, fileExists, read);
    }
    if filePaths == [] {
      assert Split("", '\n') == [""];
    } else {
      SplitJoin(lines, '\n');
    }
  }

  /** The three lines of each file's entry, all files in order. */
  function EntryLines(filePaths: seq<string>, resolve: string -> string, read: string -> string): (r: seq<string>)
    requires forall i :: 0 <= i < |filePaths| ==> '\n' !in read(resolve(filePaths[i])) && '\n' !in resolve(filePaths[i])
    ensures |r| == 3 * |filePaths|
    ensures forall i :: 0 <= i < |r| ==> '\n' !in r[i]
  {
    if filePaths == [] then []
    else
      var p := resolve(filePaths[0]);
      [OpenTag(p), read(p), CloseTag] + EntryLines(filePaths[1..], resolve, read)
  }

  lemma {:induction false} JoinEntryLines(filePaths: seq<string>, resolve: string -> string, fileExists: string -> bool, read: string -> string)
    requires forall i :: 0 <= i < |filePaths| ==> fileExists(resolve(filePaths[i]))
    requires forall i :: 0 <= i < |filePaths| ==> '\n' !in read(resolve(filePaths[i])) && '\n' !in resolve(filePaths[i])
    ensures Join(EntryLines(filePaths, resolve, read), "\n") == Join(ReadFileEntries(filePaths, resolve, fileExists, read), "\n")
  {
    if filePaths != [] {
      var p := resolve(filePaths[0]);
      var restLines := EntryLines(filePaths[1..], resolve, read);
      var restEntries := ReadFileEntries(filePaths[1..], resolve, fileExists, read);
      JoinEntryLines(filePaths[1..], resolve, fileExists, read);
      assert ReadFileEntries(filePaths, resolve, fileExists, read) == [ReadFileEntry(filePaths[0], p, true, read(p))] + restEntries;
      JoinThree(OpenTag(p), read(p), CloseTag, restLines, restEntries, "\n");
    }
  }

  /** Joining three lines and then the rest is joining their joined entry and the rest. */
  lemma JoinThree(a: string, b: string, c: string, restLines: seq<string>, restEntries: seq<string>, sep: string)
    requires Join(restLines, sep) == Join(restEntries, sep)
    requires restLines == [] <==> restEntries == []
    ensures Join([a, b, c] + restLines, sep) == Join([a + sep + (b + sep + c)] + restEntries, sep)
  {
    if restLines == [] {
      assert [a, b, c] + restLines == [a] + [b, c];
      JoinCons(a, [b, c], sep);
      assert [b, c] == [b] + [c];
      JoinCons(b, [c], sep);
      assert [a + sep + (b + sep + c)] + restEntries == [a + sep + (b + sep + c)];
    } else {
      assert [a, b, c] + restLines == [a] + ([b] + ([c] + restLines));
      JoinCons(a, [b] + ([c] + restLines), sep);
      JoinCons(b, [c] + restLines, sep);
      JoinCons(c, restLines, sep);
      JoinCons(a + sep + (b + sep + c), restEntries, sep);
    }
  }

  /** How many results `searchCode` asks for. */
  function SearchCount(filenamesOnly: bool): nat {
    if filenamesOnly then 30 else 10
  }

  /**
   * `searchCode({query, filenamesOnly})`: the embedding search `search`
   * (always without reranking) is asked for 30 results when only file
   * names are wanted and for 10 otherwise, and its results are shaped by
   * `PlannerSearchResult`.
   */
  function PlannerSearchCode(query: string, filenamesOnly: bool, search: (string, nat) -> seq<SearchHit>,
                             stringify: seq<SearchHit> -> string): (r: string)
    ensures filenamesOnly ==> r == PlannerSearchResult(search(query, 30), true, stringify)
    ensures !filenamesOnly ==> r == PlannerSearchResult(search(query, 10), false, stringify)
  {
    PlannerSearchResult(search(query, SearchCount(filenamesOnly)), filenamesOnly, stringify)
  }

  /**
   * `searchCode({query, filenamesOnly})`'s answer for the given results
   * (fetched without reranking); `stringify` is `JSON.stringify`.
   */
  function PlannerSearchResult(results: seq<SearchHit>, filenamesOnly: bool, stringify: seq<SearchHit> -> string): (r: string)
    ensures results == [] ==> r == "No results found"
    ensures results != [] && !filenamesOnly ==> r == stringify(results)
  {
    if results == [] then "No results found"
    else if filenamesOnly then Join(Dedup(HitPaths(results)), "\n")
    else stringify(results)
  }

  /**
   * With file names only, the answer's lines are the distinct result files,
   * each once, in first-seen order (for paths without newlines).
   */
  lemma FilenamesOnlyLines(results: seq<SearchHit>, stringify: seq<SearchHit> -> string)
    requires results != []
    requires forall i :: 0 <= i < |results| ==> '\n' !in results[i].filePath
    ensures var lines := Split(PlannerSearchResult(results, true, stringify), '\n');
      && lines == Dedup(HitPaths(results))
      && NoDup(lines)
      && (forall i :: 0 <= i < |results| ==> results[i].filePath in lines)
      && (forall i :: 0 <= i < |lines| ==> exists j :: 0 <= j < |results| && results[j].filePath == lines[i])
  {
    var files := Dedup(HitPaths(results));
    DedupedPathsComeFromResults(results);
    forall i | 0 <= i < |files| ensures '\n' !in files[i] {
      var j :| 0 <= j < |results| && results[j].filePath == files[i];
    }
    SplitJoin(files, '\n');
  }

  /** Every distinct path is some result's path, and some path survives. */
  lemma DedupedPathsComeFromResults(results: seq<SearchHit>)
    requires results != []
    ensures var files := Dedup(HitPaths(results));
      && files != []
      && forall i :: 0 <= i < |files| ==> exists j :: 0 <= j < |results| && results[j].filePath == files[i]
  {
    var paths := HitPaths(results);
    var files := Dedup(paths);
    assert paths[0] in files;
    forall i | 0 <= i < |files| ensures exists j :: 0 <= j < |results| && results[j].filePath == files[i] {
      var j :| 0 <= j < |paths| && paths[j] == files[i];
    }
  }
}
