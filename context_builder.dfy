/**
 * What the model sees on each turn (app/chat/chat_context_builder.js): a
 * rolling summary of older history plus the most recent messages verbatim,
 * the list of files relevant to the task with their line-numbered contents,
 * and the system and user messages assembled from fixed sections.
 *
 * Model calls (the summariser, the file ranker, the plan classifier), token
 * counting, JSON serialisation and the file system are parameters.
 */
module ContextBuilder {
  import opened Values
  import opened Seqs
  import opened Text

  const MaxSummaryTokens := 2000
  const MaxRelevantFilesTokens := 10000
  const MaxRelevantFilesCount := 7
  const MaxFileSize := 100000
  /** The last this many messages are shown as they are, not summarised. */
  const SummarizeMessagesThreshold := 6
  /** `getListOfRelevantFiles` keeps at most this many paths. */
  const RelevantFilesCap := 20

  const DiffOpen := "<changes_made_to_file>"
  const DiffClose := "</changes_made_to_file>"

  // ---------------------------------------------------------------------
  // Serialising messages for the summary
  // ---------------------------------------------------------------------

  predicate IsImage(p: Part) {
    p.ImageUrlPart?
  }

  predicate NotImage(p: Part) {
    !p.ImageUrlPart?
  }

  /** A message with the image parts of an array content removed. */
  function StripImages(m: Message): (r: Message)
    ensures r.id == m.id && r.role == m.role && r.toolCalls == m.toolCalls
    ensures r.content.Parts? ==> forall i :: 0 <= i < |r.content.parts| ==> !r.content.parts[i].ImageUrlPart?
    ensures !m.content.Parts? ==> r == m
  {
    if m.content.Parts? then m.(content := Parts(Filter(m.content.parts, NotImage))) else m
  }

  /**
   * The greedy, global `<changes_made_to_file>[\s\S]*</changes_made_to_file>`
   * replacement: from the first opening tag to the last closing tag after it.
   */
  function StripDiff(s: string): (r: string)
    ensures IndexOf(s, DiffOpen).None? ==> r == s
    ensures r != s ==>
      && IndexOf(s, DiffOpen).Some? && LastIndexOf(s, DiffClose).Some?
      && var i := IndexOf(s, DiffOpen).value;
      && var j := LastIndexOf(s, DiffClose).value;
      && i + |DiffOpen| <= j && r == s[..i] + s[j + |DiffClose|..]
    ensures |r| <= |s|
  {
    match IndexOf(s, DiffOpen)
    case None => s
    case Some(i) =>
      match LastIndexOf(s, DiffClose)
      case None => s
      case Some(j) => if i + |DiffOpen| <= j then s[..i] + s[j + |DiffClose|..] else s
  }

  datatype ItemKind = TextItem | ToolResultItem

  /** One entry of a serialised message's `content` list. */
  datatype SummaryItem = ContentItem(kind: ItemKind, content: Content) | ToolUseItem(name: string)

  /** The `{role, content}` record a message is serialised as. */
  datatype SummaryRecord = SummaryRecord(role: Role, items: seq<SummaryItem>)

  function ToolUseItems(calls: seq<ToolCall>): (r: seq<SummaryItem>)
    ensures |r| == |calls|
    ensures forall i :: 0 <= i < |r| ==> r[i] == ToolUseItem(calls[i].name)
  {
    seq(|calls|, i requires 0 <= i < |calls| => ToolUseItem(calls[i].name))
  }

  /**
   * `formatMessageForSummary`: tool results become user turns whose content
   * is a `tool_result` item, tool calls keep only their names, and diff
   * blocks are cut out of string contents when `removeCodeDiff` is set.
   */
  /** The tool calls a message carries, none when it has no `tool_calls`. */
  function CallsOf(m: Message): seq<ToolCall> {
    if m.toolCalls.Some? then m.toolCalls.value else []
  }

  /** How many content items a serialised message starts with: one when its content is truthy. */
  function ContentItems(m: Message): nat {
    if ContentTruthy(m.content) then 1 else 0
  }

  function FormatMessageForSummary(m: Message, removeCodeDiff: bool): (r: SummaryRecord)
    ensures r.role == if m.role == Tool then User else m.role
    ensures |r.items| == ContentItems(m) + |CallsOf(m)|
    ensures forall i :: 0 <= i < |CallsOf(m)| ==> r.items[ContentItems(m) + i] == ToolUseItem(CallsOf(m)[i].name)
    ensures ContentTruthy(m.content) ==>
      r.items[0] == ContentItem(
        if m.role == Tool then ToolResultItem else TextItem,
        if removeCodeDiff && m.content.Str? then Str(StripDiff(m.content.s)) else m.content)
  {
    var head :=
      if ContentTruthy(m.content) then
        var c := if removeCodeDiff && m.content.Str? then Str(StripDiff(m.content.s)) else m.content;
        [ContentItem(if m.role == Tool then ToolResultItem else TextItem, c)]
      else [];
    SummaryRecord(if m.role == Tool then User else m.role, head + ToolUseItems(CallsOf(m)))
  }

  /** Each message serialised and followed by `",\n"`, concatenated. */
  function SummaryText(ms: seq<Message>, removeCodeDiff: bool, stringify: SummaryRecord -> string): string {
    if ms == [] then ""
    else stringify(FormatMessageForSummary(ms[0], removeCodeDiff)) + ",\n" + SummaryText(ms[1..], removeCodeDiff, stringify)
  }

  // ---------------------------------------------------------------------
  // The summary window and the recent window
  // ---------------------------------------------------------------------

  function Preprocess(s: seq<Message>): (r: seq<Message>)
    ensures |r| == |s| && forall i :: 0 <= i < |s| ==> r[i] == StripImages(s[i])
  {
    seq(|s|, i requires 0 <= i < |s| => StripImages(s[i]))
  }

  /** The index where the recent window starts. */
  function RecentStart(s: seq<Message>): (k: nat)
    ensures k <= |s|
  {
    if |s| >= SummarizeMessagesThreshold then |s| - SummarizeMessagesThreshold else 0
  }

  /** The filter both windows apply: messages newer than the summary mark. */
  function AfterMark(lastSummarizedId: int): Message -> bool {
    (m: Message) => m.id > lastSummarizedId
  }

  /** `m` is message `i` of `s`, for some `lo <= i < hi`, images removed and newer than the mark. */
  predicate FromWindow(s: seq<Message>, lo: int, hi: int, lastSummarizedId: int, m: Message) {
    exists i :: lo <= i < hi && 0 <= i < |s| && m == StripImages(s[i]) && s[i].id > lastSummarizedId
  }

  /** What filtering the preprocessed messages `lo..hi` keeps, in both directions. */
  lemma FilteredWindow(s: seq<Message>, lo: nat, hi: nat, lastSummarizedId: int, w: seq<Message>)
    requires lo <= hi <= |s|
    requires w == Filter(Preprocess(s)[lo..hi], AfterMark(lastSummarizedId))
    ensures forall k :: 0 <= k < |w| ==> FromWindow(s, lo, hi, lastSummarizedId, w[k])
    ensures forall i :: lo <= i < hi && s[i].id > lastSummarizedId ==> StripImages(s[i]) in w
  {
    var t := Preprocess(s)[lo..hi];
    forall k | 0 <= k < |w| ensures FromWindow(s, lo, hi, lastSummarizedId, w[k]) {
      var j :| 0 <= j < |t| && t[j] == w[k];
      assert t[j] == StripImages(s[lo + j]);
    }
    forall i | lo <= i < hi && s[i].id > lastSummarizedId ensures StripImages(s[i]) in w {
      assert t[i - lo] == StripImages(s[i]);
    }
  }

  /**
   * The messages serialised into the summary delta: outside the last six,
   * newer than `lastSummarizedId`, images removed.
   */
  function NewlySummarized(s: seq<Message>, lastSummarizedId: int): (r: seq<Message>)
    ensures forall k :: 0 <= k < |r| ==> FromWindow(s, 0, RecentStart(s), lastSummarizedId, r[k])
    ensures forall i :: 0 <= i < RecentStart(s) && s[i].id > lastSummarizedId ==> StripImages(s[i]) in r
  {
    var w := JsSlice(Preprocess(s), 0, -SummarizeMessagesThreshold);
    assert w == Preprocess(s)[0..RecentStart(s)];
    var r := Filter(w, AfterMark(lastSummarizedId));
    FilteredWindow(s, 0, RecentStart(s), lastSummarizedId, r);
    r
  }

  /** The id of the last message of `ms`, or `fallback` when there is none. */
  function LastIdOr(ms: seq<Message>, fallback: int): int {
    if ms == [] then fallback else ms[|ms| - 1].id
  }

  /** The last six messages newer than `lastSummarizedId`, images removed. */
  function RecentCandidates(s: seq<Message>, lastSummarizedId: int): (w: seq<Message>)
    ensures |w| <= SummarizeMessagesThreshold
    ensures forall k :: 0 <= k < |w| ==> FromWindow(s, RecentStart(s), |s|, lastSummarizedId, w[k])
    ensures forall i :: RecentStart(s) <= i < |s| && s[i].id > lastSummarizedId ==> StripImages(s[i]) in w
  {
    var p := Preprocess(s);
    var tail := JsSliceFrom(p, -SummarizeMessagesThreshold);
    assert tail == p[RecentStart(s)..|s|];
    var w := Filter(tail, AfterMark(lastSummarizedId));
    FilteredWindow(s, RecentStart(s), |s|, lastSummarizedId, w);
    w
  }

  /** Dropping the last element when `drop` holds leaves a prefix one shorter. */
  lemma DropLastPrefix<T>(w: seq<T>, r: seq<T>, drop: bool)
    requires drop ==> w != []
    requires r == if drop then w[..|w| - 1] else w
    ensures |r| <= |w| && r == w[..|r|] && (|r| < |w| <==> drop) && |r| + 1 >= |w|
    ensures forall k :: 0 <= k < |r| ==> r[k] == w[k]
  {
  }

  /**
   * The recent window shown verbatim: the recent candidates, except that
   * when the last of them is a user message it is dropped.
   */
  function RecentWindow(s: seq<Message>, lastSummarizedId: int): (r: seq<Message>)
    ensures |r| <= SummarizeMessagesThreshold
    ensures forall k :: 0 <= k < |r| ==> FromWindow(s, RecentStart(s), |s|, lastSummarizedId, r[k])
    ensures var w := RecentCandidates(s, lastSummarizedId);
      && |r| <= |w| && r == w[..|r|]
      && (|r| < |w| <==> (w != [] && w[|w| - 1].role == User))
      && |r| + 1 >= |w|
  {
    var w := RecentCandidates(s, lastSummarizedId);
    var drop := w != [] && w[|w| - 1].role == User;
    var r := if drop then w[..|w| - 1] else w;
    DropLastPrefix(w, r, drop);
    r
  }

  /** A summary request left running: the text to compress and the id mark to adopt when it finishes. */
  datatype CompressionRequest = CompressionRequest(text: string, lastId: int)

  /** What `addSummaryOfMessages` returns now, and the compression it starts, if any. */
  datatype SummaryPlan = SummaryPlan(summary: string, request: Option<CompressionRequest>)

  /**
   * `addSummaryOfMessages`. `tokens` counts tokens and `stringify` is the
   * JSON serialiser. The summary is wrapped in `<conversation_history>`
   * unless everything is blank.
   */
  function PlanSummary(
    s: seq<Message>, lastSummarizedId: int, pastSummarized: string,
    stringify: SummaryRecord -> string, tokens: string -> nat): (r: SummaryPlan)
    ensures var delta := SummaryText(NewlySummarized(s, lastSummarizedId), true, stringify);
      r.request.Some? <==> tokens(delta) > MaxSummaryTokens
    ensures r.request.Some? ==>
      var newer := NewlySummarized(s, lastSummarizedId);
      r.request.value.text == pastSummarized + "\n\n" + SummaryText(newer, true, stringify)
      && r.request.value.lastId == LastIdOr(newer, lastSummarizedId)
    ensures r.summary == "" || (StartsWith(r.summary, HistoryOpen) && |r.summary| > |HistoryOpen|)
    ensures r.summary == WrapHistory(pastSummarized + "\n\n" + SummaryText(NewlySummarized(s, lastSummarizedId), true, stringify)
                                     + SummaryText(RecentWindow(s, lastSummarizedId), false, stringify))
  {
    var newer := NewlySummarized(s, lastSummarizedId);
    var delta := SummaryText(newer, true, stringify);
    var all := pastSummarized + "\n\n" + delta;
    var request := if tokens(delta) > MaxSummaryTokens then Some(CompressionRequest(all, LastIdOr(newer, lastSummarizedId))) else None;
    var full := all + SummaryText(RecentWindow(s, lastSummarizedId), false, stringify);
    SummaryPlan(WrapHistory(full), request)
  }

  const HistoryOpen := "\n<conversation_history>\n["

  /** The history wrapped in its tags, or nothing when it is blank. */
  function WrapHistory(full: string): (r: string)
    ensures r == "" <==> IsBlank(full)
    ensures r != "" ==> StartsWith(r, HistoryOpen) && |r| > |HistoryOpen|
  {
    if IsBlank(full) then "" else
      var r := HistoryOpen + full + "]\n</conversation_history>";
      assert r[..|HistoryOpen|] == HistoryOpen;
      r
  }

  // ---------------------------------------------------------------------
  // Post-processing of the model's summary
  // ---------------------------------------------------------------------

  /** `replace(/^\s*\[/, '')`. */
  function StripLeadingBracket(s: string): string {
    var k := LeadingSpaces(s);
    if k < |s| && s[k] == '[' then s[k + 1..] else s
  }

  /** `replace(/\]\s*$/, ',')`. */
  function TrailingBracketToComma(s: string): string {
    var t := TrailingSpaces(s);
    if t < |s| && s[|s| - t - 1] == ']' then s[..|s| - t - 1] + "," else s
  }

  /** What `summarizeMessages` resolves to: a falsy model result gives back the input. */
  function PostProcessSummary(summary: Option<string>, messages: string): (r: string)
    ensures summary.None? || summary == Some("") ==> r == messages
  {
    if summary.None? || summary.value == "" then messages
    else TrailingBracketToComma(StripLeadingBracket(summary.value))
  }

  /**
   * A summary that comes back as a bracketed list loses its leading `[` and
   * has its trailing `]` turned into `,`, so that it can be followed by more
   * entries.
   */
  lemma PostProcessBracketed(w: string, body: string, w2: string, messages: string)
    requires IsBlank(w) && IsBlank(w2)
    ensures PostProcessSummary(Some(w + "[" + body + "]" + w2), messages) == body + ","
  {
    var s := w + "[" + body + "]" + w2;
    var rest := body + "]" + w2;
    assert s == w + "[" + rest;
    assert s != "" by {
      assert s[|w|] == '[';
    }
    StripBlankThenBracket(w, rest);
    TrailingBracketThenBlank(body, w2);
    assert PostProcessSummary(Some(s), messages) == TrailingBracketToComma(StripLeadingBracket(s));
  }

  lemma StripBlankThenBracket(w: string, rest: string)
    requires IsBlank(w)
    ensures StripLeadingBracket(w + "[" + rest) == rest
  {
    assert !IsSpace('[');
    assert w + "[" + rest == w + ("[" + rest);
    LeadingSpacesOfBlankPrefix(w, "[" + rest);
    assert (w + "[" + rest)[|w| + 1..] == rest;
  }

  lemma TrailingBracketThenBlank(body: string, w2: string)
    requires IsBlank(w2)
    ensures TrailingBracketToComma(body + "]" + w2) == body + ","
  {
    assert !IsSpace(']');
    TrailingSpacesOfBlankSuffix(body + "]", w2);
    var s := body + "]" + w2;
    assert s[|s| - |w2| - 1] == ']';
    assert s[..|s| - |w2| - 1] == body;
  }

  // ---------------------------------------------------------------------
  // Relevant files
  // ---------------------------------------------------------------------

  /**
   * `[...new Set([...chat, ...task, ...edited])].slice(0, 20)`: without
   * duplicates, at most 20, every kept path from one of the inputs.
   */
  function CombineRelevantFiles(chat: seq<string>, task: seq<string>, edited: seq<string>): (r: seq<string>)
    ensures NoDup(r) && |r| <= RelevantFilesCap
    ensures forall i :: 0 <= i < |r| ==> r[i] in chat || r[i] in task || r[i] in edited
    ensures |Dedup(chat + task + edited)| <= RelevantFilesCap ==>
      forall x :: x in chat || x in task || x in edited ==> x in r
    ensures var d := Dedup(chat + task + edited);
      |r| == (if |d| < RelevantFilesCap then |d| else RelevantFilesCap) && r == d[..|r|]
  {
    var d := Dedup(chat + task + edited);
    var r := Take(d, RelevantFilesCap);
    assert forall i :: 0 <= i < |r| ==> r[i] == d[i];
    assert |d| <= RelevantFilesCap ==> forall x :: x in chat || x in task || x in edited ==> x in r by {
      if |d| <= RelevantFilesCap {
        forall x | x in chat || x in task || x in edited ensures x in r {
          var all := chat + task + edited;
          assert x in all;
          var i :| 0 <= i < |all| && all[i] == x;
        }
      }
    }
    r
  }

  /** The set of elements of `s`. */
  function Elems(s: seq<string>): set<string> {
    set x | x in s
  }

  /**
   * The combined list is ordered: first the chat-interaction files, then the
   * earlier relevant files not among them, then the edited files not among
   * either (before the cap of 20 is applied).
   */
  lemma RelevantFilesOrder(chat: seq<string>, task: seq<string>, edited: seq<string>)
    ensures Dedup(chat + task + edited) ==
      Dedup(chat) + DedupFrom(task, Elems(chat)) + DedupFrom(edited, Elems(chat + task))
  {
    assert chat + task + edited == chat + (task + edited);
    DedupFromAppend(chat, task + edited, {});
    assert {} + Elems(chat) == Elems(chat);
    DedupFromAppend(task, edited, Elems(chat));
    assert Elems(chat) + (set x | x in task) == Elems(chat + task);
  }

  /** A file list already without duplicates and within the cap comes back unchanged. */
  lemma CombineIsIdempotent(files: seq<string>)
    requires NoDup(files) && |files| <= RelevantFilesCap
    ensures CombineRelevantFiles(files, [], []) == files
  {
    assert files + [] + [] == files;
    DedupFromNoDup(files, {});
  }

  /** A message whose tool calls `getChatInteractionFiles` passes to `parseArguments`. */
  predicate HasScannedToolCalls(m: Message, mark: int) {
    m.id > mark && m.role == Assistant && m.toolCalls.Some? && |m.toolCalls.value| > 0
  }

  /**
   * `getChatInteractionFiles`' file list. Each scanned tool call's parsed
   * arguments are handed to `parseArguments` as if they were a function-call
   * record; that parses `undefined` and throws. So the scan fails as soon as
   * one newer assistant message has a tool call, and otherwise finds no file.
   */
  function InteractionFiles(s: seq<Message>, mark: int): (r: Result<seq<string>>)
    ensures r.Err? <==> exists i :: 0 <= i < |s| && HasScannedToolCalls(s[i], mark)
    ensures r.Ok? ==> r.value == []
  {
    if exists i :: 0 <= i < |s| && HasScannedToolCalls(s[i], mark)
    then Err("SyntaxError: \"undefined\" is not valid JSON")
    else Ok([])
  }

  /** The scan mark as written at chat_context_builder.js:319: the last index, not the last id. */
  function ScanMarkAsWritten(s: seq<Message>): int {
    |s| - 1
  }

  /** The largest of `mark` and every message id in `s`. */
  function MaxIdFrom(s: seq<Message>, mark: int): (r: int)
    ensures r >= mark
    ensures forall i :: 0 <= i < |s| ==> s[i].id <= r
  {
    if s == [] then mark
    else
      var rest := MaxIdFrom(s[1..], mark);
      if s[0].id > rest then s[0].id else rest
  }

  /** The scan mark as intended: the newest message id seen. */
  function ScanMark(s: seq<Message>, mark: int): int {
    MaxIdFrom(s, mark)
  }

  /** The scan mark `getChatInteractionFiles` stores, in the chosen reading. */
  function NextScanMark(reading: Reading, s: seq<Message>, mark: int): int {
    if reading.AsWritten? then ScanMarkAsWritten(s) else ScanMark(s, mark)
  }

  predicate NewerThan(m: Message, mark: int) {
    m.id > mark
  }

  /** With the index stored as the mark, a scan of two messages rescans both next time. */
  lemma ScanMarkAsWrittenRescans()
    ensures var s := [Message(2, Assistant, Str("a"), None, None, None), Message(3, User, Str("b"), None, None, None)];
      forall i :: 0 <= i < |s| ==> NewerThan(s[i], ScanMarkAsWritten(s))
  {
  }

  /** With the intended mark, nothing already scanned is scanned again. */
  lemma ScanMarkSeesNothingTwice(s: seq<Message>, mark: int)
    ensures forall i :: 0 <= i < |s| ==> !NewerThan(s[i], ScanMark(s, mark))
  {
  }

  // ---------------------------------------------------------------------
  // File contents
  // ---------------------------------------------------------------------

  /** The `<file_content>` block for one file. */
  function FileBlock(file: string, content: string): string {
    "\n<file_content file=\"" + file + "\">\n" + content + "\n</file_content>"
  }

  /** One block per file, in list order; `read` is `readFile`. */
  function FileBlocks(files: seq<string>, read: string -> string): (r: seq<string>)
    ensures |r| == |files|
    ensures forall i :: 0 <= i < |files| ==> r[i] == FileBlock(files[i], read(files[i]))
  {
    if files == [] then [] else [FileBlock(files[0], read(files[0]))] + FileBlocks(files[1..], read)
  }

  /** `getFileContents`. */
  function FileContents(files: seq<string>, read: string -> string): string {
    if files == [] then "" else Join(FileBlocks(files, read), "\n\n")
  }

  /** Whether `reduceRelevantFilesContext` asks the model to rank the files. */
  predicate ReductionDue(tokenCount: nat, fileCount: nat, lastMessageId: int, reduceMark: int) {
    && tokenCount > MaxRelevantFilesTokens
    && fileCount > MaxRelevantFilesCount
    && (lastMessageId - reduceMark >= 10 || reduceMark == 0)
  }

  /** The files whose contents a reduction returns, as written at chat_context_builder.js:350: every ranked file. */
  function ReducedFilesAsWritten(ranked: seq<string>): seq<string> {
    ranked
  }

  /** The files whose contents a reduction returns, as intended: the ones kept as relevant. */
  function ReducedFiles(ranked: seq<string>): (r: seq<string>)
    ensures |r| <= MaxRelevantFilesCount && |r| <= |ranked|
    ensures r == ranked[..|r|]
  {
    Take(ranked, MaxRelevantFilesCount)
  }

  /** The files whose contents a reduction returns, in the chosen reading. */
  function ReturnedFiles(reading: Reading, ranked: seq<string>): seq<string> {
    if reading.AsWritten? then ReducedFilesAsWritten(ranked) else ReducedFiles(ranked)
  }

  /** As written, eight ranked files come back although only seven are kept. */
  lemma ReducedFilesAsWrittenOverflows(read: string -> string)
    ensures var ranked := ["a", "b", "c", "d", "e", "f", "g", "h"];
      |FileBlocks(ReducedFilesAsWritten(ranked), read)| == 8
      && "h" !in Take(ranked, MaxRelevantFilesCount)
      && FileBlocks(ReducedFilesAsWritten(ranked), read)[7] == FileBlock("h", read("h"))
  {
    var ranked := ["a", "b", "c", "d", "e", "f", "g", "h"];
    assert Take(ranked, MaxRelevantFilesCount) == ["a", "b", "c", "d", "e", "f", "g"];
  }

  /** As intended, the returned blocks are exactly those of the kept files. */
  lemma ReducedFilesMatchKept(ranked: seq<string>, read: string -> string)
    ensures var kept := Take(ranked, MaxRelevantFilesCount);
      ReducedFiles(ranked) == kept
      && |FileBlocks(ReducedFiles(ranked), read)| == |kept|
      && forall i :: 0 <= i < |kept| ==> FileBlocks(ReducedFiles(ranked), read)[i] == FileBlock(kept[i], read(kept[i]))
  {
  }

  // ---------------------------------------------------------------------
  // Reading files with line numbers
  // ---------------------------------------------------------------------

  /** `NNNN|` followed by the line: the 1-based number right-aligned to width 4. */
  function NumberedLine(index: nat, line: string): string {
    PadStart(NatToString(index + 1), 4) + "|" + line
  }

  function NumberLines(lines: seq<string>, from: nat): (r: seq<string>)
    ensures |r| == |lines|
    ensures forall i :: 0 <= i < |lines| ==> r[i] == NumberedLine(from + i, lines[i])
  {
    seq(|lines|, i requires 0 <= i < |lines| => NumberedLine(from + i, lines[i]))
  }

  /** `addLineNumbers`. */
  function AddLineNumbers(content: string): string {
    Join(NumberLines(Split(content, '\n'), 0), "\n")
  }

  lemma NumberedLineHasNoNewline(index: nat, line: string)
    requires '\n' !in line
    ensures '\n' !in NumberedLine(index, line)
  {
    var p := PadStart(NatToString(index + 1), 4);
    var d := NatToString(index + 1);
    forall k | 0 <= k < |p| ensures p[k] != '\n' {
      if k >= |p| - |d| {
        assert p[k] == d[k - (|p| - |d|)];
      }
    }
    assert NumberedLine(index, line) == p + "|" + line;
  }

  /** The output lines are the input lines, each with its number in front. */
  lemma AddLineNumbersLines(content: string)
    ensures var lines := Split(content, '\n');
      Split(AddLineNumbers(content), '\n') == NumberLines(lines, 0)
      && |Split(AddLineNumbers(content), '\n')| == |lines|
  {
    var lines := Split(content, '\n');
    var numbered := NumberLines(lines, 0);
    forall i | 0 <= i < |numbered| ensures '\n' !in numbered[i] {
      NumberedLineHasNoNewline(i, lines[i]);
    }
    SplitJoin(numbered, '\n');
  }

  /** Below 10000, the number and its padding take exactly four characters. */
  lemma NumberPrefixWidth(index: nat, line: string)
    requires index + 1 < 10000
    ensures |PadStart(NatToString(index + 1), 4)| == 4
    ensures NumberedLine(index, line)[5..] == line
  {
    assert Pow10(4) == 10000 by {
      assert Pow10(1) == 10 && Pow10(2) == 100 && Pow10(3) == 1000;
    }
    NatToStringLength(index + 1, 4);
  }

  /** Dropping the first five characters of every line. */
  function DropPrefixes(lines: seq<string>): (r: seq<string>)
    ensures |r| == |lines|
    ensures forall i :: 0 <= i < |lines| ==> r[i] == if |lines[i]| >= 5 then lines[i][5..] else []
  {
    if lines == [] then [] else [if |lines[0]| >= 5 then lines[0][5..] else []] + DropPrefixes(lines[1..])
  }

  /**
   * For a text of fewer than 10000 lines, removing the five-character
   * `NNNN|` prefix from every output line gives back the text.
   */
  lemma AddLineNumbersRoundTrip(content: string)
    requires |Split(content, '\n')| < 10000
    ensures Join(DropPrefixes(Split(AddLineNumbers(content), '\n')), "\n") == content
  {
    var lines := Split(content, '\n');
    AddLineNumbersLines(content);
    var stripped := DropPrefixes(NumberLines(lines, 0));
    forall i | 0 <= i < |lines| ensures stripped[i] == lines[i] {
      NumberPrefixWidth(i, lines[i]);
    }
    assert stripped == lines;
    JoinSplit(content, '\n');
  }

  /** The stat of a file, as `readFile` sees it. */
  datatype FileStat = FileStat(size: nat)

  /**
   * `readFile`: a stat or read failure yields the error text; a non-text file
   * and a file over 100000 bytes yield fixed placeholders (the text check
   * first); otherwise the line-numbered contents.
   */
  function ReadFile(stat: Result<FileStat>, isText: bool, content: Result<string>): (r: string)
    ensures stat.Err? ==> r == "Error reading file: " + stat.error
    ensures stat.Ok? && !isText ==> r == "File is not a text file, skipping reading"
    ensures stat.Ok? && isText && stat.value.size > MaxFileSize ==> r == "File is too large to read"
    ensures stat.Ok? && isText && stat.value.size <= MaxFileSize ==>
      r == (if content.Err? then "Error reading file: " + content.error else AddLineNumbers(content.value))
  {
    if stat.Err? then "Error reading file: " + stat.error
    else if !isText || stat.value.size > MaxFileSize then
      (if isText then "File is too large to read" else "File is not a text file, skipping reading")
    else if content.Err? then "Error reading file: " + content.error
    else AddLineNumbers(content.value)
  }

  // ---------------------------------------------------------------------
  // The user message
  // ---------------------------------------------------------------------

  /** `addTaskMessage`. */
  function TaskSection(task: string): string {
    "<task>\n" + task + "\n</task>\n"
  }

  /** `addLastUserMessage`: a falsy message contributes nothing. */
  function LastUserSection(userMessage: Option<string>): (r: string)
    ensures userMessage.None? || userMessage == Some("") ==> r == ""
    ensures userMessage.Some? && userMessage.value != "" ==> StartsWith(r, "<user>") && r == "<user>" + userMessage.value + "</user>\n"
  {
    if userMessage.Some? && userMessage.value != "" then "<user>" + userMessage.value + "</user>\n" else ""
  }

  predicate HasImage(m: Message) {
    m.content.Parts? && exists i :: 0 <= i < |m.content.parts| && m.content.parts[i].ImageUrlPart?
  }

  /** The first image part of a message that has one. */
  function FirstImage(m: Message): (p: Part)
    requires HasImage(m)
    ensures p.ImageUrlPart? && p in m.content.parts
  {
    var k := FindIndex(m.content.parts, IsImage);
    m.content.parts[k]
  }

  /** The part `FirstImage` picks has no image part before it. */
  lemma FirstImageIsFirst(m: Message)
    requires HasImage(m)
    ensures exists k ::
              0 <= k < |m.content.parts| && m.content.parts[k] == FirstImage(m)
              && forall j :: 0 <= j < k ==> !m.content.parts[j].ImageUrlPart?
  {
    var k := FindIndex(m.content.parts, IsImage);
    assert m.content.parts[k] == FirstImage(m);
  }

  /** `getImageMessages`: the first image part of every message that has one, in message order. */
  function GetImageMessages(s: seq<Message>): (r: seq<Part>)
    ensures |r| <= |s|
    ensures forall i :: 0 <= i < |r| ==> r[i].ImageUrlPart?
    ensures r == [] <==> forall i :: 0 <= i < |s| ==> !HasImage(s[i])
  {
    if s == [] then []
    else if HasImage(s[0]) then [FirstImage(s[0])] + GetImageMessages(s[1..])
    else
      var rest := GetImageMessages(s[1..]);
      assert rest == [] ==> forall i :: 0 <= i < |s| ==> !HasImage(s[i]) by {
        if rest == [] {
          forall i | 0 <= i < |s| ensures !HasImage(s[i]) {
            if i > 0 { assert s[i] == s[1..][i - 1]; }
          }
        }
      }
      rest
  }

  /** Prepending a message with an image to both sides keeps them paired. */
  lemma FirstImagesCons(m: Message, rest: seq<Message>, r: seq<Part>)
    requires HasImage(m)
    requires forall i :: 0 <= i < |rest| ==> HasImage(rest[i])
    requires |r| == |rest| && forall i :: 0 <= i < |rest| ==> r[i] == FirstImage(rest[i])
    ensures var w := [m] + rest;
      forall i :: 0 <= i < |w| ==> ([FirstImage(m)] + r)[i] == FirstImage(w[i])
  {
    var w := [m] + rest;
    forall i | 1 <= i < |w| ensures ([FirstImage(m)] + r)[i] == FirstImage(w[i]) {
      assert w[i] == rest[i - 1];
    }
  }

  /**
   * One image part per message that has one, in message order: the `i`th
   * part is the first image of the `i`th message with an image.
   */
  lemma {:induction false} GetImageMessagesPerMessage(s: seq<Message>)
    ensures var withImages := Filter(s, HasImage);
      |GetImageMessages(s)| == |withImages|
      && forall i :: 0 <= i < |withImages| ==> GetImageMessages(s)[i] == FirstImage(withImages[i])
  {
    if s != [] {
      var rest := Filter(s[1..], HasImage);
      var r := GetImageMessages(s[1..]);
      GetImageMessagesPerMessage(s[1..]);
      if HasImage(s[0]) {
        assert Filter(s, HasImage) == [s[0]] + rest;
        assert GetImageMessages(s) == [FirstImage(s[0])] + r;
        FirstImagesCons(s[0], rest, r);
      } else {
        assert Filter(s, HasImage) == rest;
      }
    }
  }

  predicate NonEmpty(s: string) {
    s != ""
  }

  /**
   * `addUserMessage`, given its sections: the non-empty sections in the
   * fixed order task, summary, user, source information, reflection, joined
   * with newlines; with images, the image parts come first and the text is
   * one final part.
   */
  function AssembleUserMessage(task: string, summary: string, lastUser: string, sourceInfo: string, reflect: string, images: seq<Part>): (r: Content)
    ensures var text := Join(Filter([task, summary, lastUser, sourceInfo, reflect], NonEmpty), "\n");
      if images == [] then r == Str(text)
      else r.Parts? && |r.parts| == |images| + 1 && r.parts[..|images|] == images && r.parts[|images|] == TextPart(text)
  {
    var text := Join(Filter([task, summary, lastUser, sourceInfo, reflect], NonEmpty), "\n");
    if images == [] then Str(text) else Parts(images + [TextPart(text)])
  }

  /** With every section present, the text is the sections in order, one per line. */
  lemma AllSectionsInOrder(task: string, summary: string, lastUser: string, sourceInfo: string, reflect: string)
    requires task != "" && summary != "" && lastUser != "" && sourceInfo != "" && reflect != ""
    ensures Join(Filter([task, summary, lastUser, sourceInfo, reflect], NonEmpty), "\n")
      == task + "\n" + (summary + "\n" + (lastUser + "\n" + (sourceInfo + "\n" + reflect)))
  {
    FilterAll([task, summary, lastUser, sourceInfo, reflect], NonEmpty);
    JoinFive(task, summary, lastUser, sourceInfo, reflect, "\n");
  }

  lemma JoinFive(a: string, b: string, c: string, d: string, e: string, sep: string)
    ensures Join([a, b, c, d, e], sep) == a + sep + (b + sep + (c + sep + (d + sep + e)))
  {
    JoinTwoOrMore([a, b, c, d, e], sep);
    assert [a, b, c, d, e][1..] == [b, c, d, e];
    JoinTwoOrMore([b, c, d, e], sep);
    assert [b, c, d, e][1..] == [c, d, e];
    JoinTwoOrMore([c, d, e], sep);
    assert [c, d, e][1..] == [d, e];
    JoinTwoOrMore([d, e], sep);
    assert [d, e][1..] == [e];
  }

  /** Empty sections leave no blank line behind. */
  lemma EmptySectionsSkipped(task: string, lastUser: string)
    ensures Join(Filter([task, "", lastUser, "", ""], NonEmpty), "\n")
      == if task == "" then lastUser else if lastUser == "" then task else task + "\n" + lastUser
  {
    var all := [task, "", lastUser, "", ""];
    assert all[1..] == ["", lastUser, "", ""];
    assert all[1..][1..] == [lastUser, "", ""];
    assert all[1..][1..][1..] == ["", ""];
    assert all[1..][1..][1..][1..] == [""];
    assert Filter(all[1..][1..][1..], NonEmpty) == [];
    if lastUser != "" {
      assert Filter(all[1..][1..], NonEmpty) == [lastUser];
    }
  }

  // ---------------------------------------------------------------------
  // The system message
  // ---------------------------------------------------------------------

  /**
   * The finish-task addendum as written at chat_context_builder.js:95: the
   * imported template is not exported by the prompts module, so it
   * interpolates as `undefined`.
   */
  function FinishAddendumAsWritten(): string {
    "\n\n" + "undefined"
  }

  /** The finish-task addendum as intended: the finish-task template after a blank line. */
  function FinishAddendum(finishTemplate: string): (r: string)
    ensures |r| == |finishTemplate| + 2
    ensures r[2..] == finishTemplate && r[..2] == "\n\n"
  {
    "\n\n" + finishTemplate
  }

  lemma FinishAddendumAsWrittenIsUndefined(finishTemplate: string)
    requires finishTemplate != "undefined"
    ensures FinishAddendumAsWritten() != FinishAddendum(finishTemplate)
    ensures FinishAddendumAsWritten()[2..] == "undefined"
  {
    assert FinishAddendum(finishTemplate)[2..] == finishTemplate;
  }

  /** `addProjectCustomInstructionsMessage`. */
  function CustomInstructionsSection(instructions: Option<string>): string {
    if instructions.Some? && instructions.value != "" then "\n\n" + instructions.value else ""
  }

  class ChatContextBuilder {
    var lastSummarizedMessageID: int
    var lastMessageIdForRelevantFiles: int
    var reduceRelevantFilesContextMessageId: int
    var lastEditedFilesTimestamp: int
    var taskRelevantFiles: seq<string>
    var pastSummarizedMessages: string
    var taskNeedsPlan: bool
    var isComplexTask: bool

    constructor (startTimestamp: int)
      ensures lastSummarizedMessageID == 0 && lastMessageIdForRelevantFiles == 0
      ensures reduceRelevantFilesContextMessageId == 0
      ensures lastEditedFilesTimestamp == startTimestamp
      ensures taskRelevantFiles == [] && pastSummarizedMessages == ""
      ensures !taskNeedsPlan && !isComplexTask
    {
      lastSummarizedMessageID := 0;
      lastMessageIdForRelevantFiles := 0;
      reduceRelevantFilesContextMessageId := 0;
      lastEditedFilesTimestamp := startTimestamp;
      taskRelevantFiles := [];
      pastSummarizedMessages := "";
      taskNeedsPlan := false;
      isComplexTask := false;
    }

    /**
     * The summariser's answer arrives: the summary so far and the id mark
     * advance together, and only here.
     */
    method CompleteCompression(request: CompressionRequest, modelResult: Option<string>)
      modifies this`pastSummarizedMessages, this`lastSummarizedMessageID
      ensures pastSummarizedMessages == PostProcessSummary(modelResult, request.text)
      ensures lastSummarizedMessageID == request.lastId
    {
      pastSummarizedMessages := PostProcessSummary(modelResult, request.text);
      lastSummarizedMessageID := request.lastId;
    }

    /**
     * `getChatInteractionFiles` over the backend list `s`. On success the
     * scan mark becomes the last index of `s` as written
     * (`ScanMarkAsWritten`), or the newest id seen as intended (`ScanMark`).
     */
    method GetChatInteractionFiles(s: seq<Message>, reading: Reading) returns (r: Result<seq<string>>)
      modifies this`lastMessageIdForRelevantFiles
      ensures r == InteractionFiles(s, old(lastMessageIdForRelevantFiles))
      ensures lastMessageIdForRelevantFiles ==
        if r.Ok? then NextScanMark(reading, s, old(lastMessageIdForRelevantFiles)) else old(lastMessageIdForRelevantFiles)
    {
      r := InteractionFiles(s, lastMessageIdForRelevantFiles);
      if r.Ok? {
        lastMessageIdForRelevantFiles := NextScanMark(reading, s, lastMessageIdForRelevantFiles);
      }
    }

    /**
     * `getListOfRelevantFiles`: `edited` is the list of files modified since
     * `lastEditedFilesTimestamp` and `now` the clock.
     */
    method GetListOfRelevantFiles(s: seq<Message>, edited: seq<string>, now: int, reading: Reading) returns (r: Result<seq<string>>)
      modifies this`lastMessageIdForRelevantFiles, this`lastEditedFilesTimestamp, this`taskRelevantFiles
      ensures var chat := InteractionFiles(s, old(lastMessageIdForRelevantFiles));
        if chat.Err? then
          r == Err(chat.error) && taskRelevantFiles == old(taskRelevantFiles)
          && lastEditedFilesTimestamp == old(lastEditedFilesTimestamp)
          && lastMessageIdForRelevantFiles == old(lastMessageIdForRelevantFiles)
        else
          r == Ok(CombineRelevantFiles(chat.value, old(taskRelevantFiles), edited))
          && taskRelevantFiles == r.value && lastEditedFilesTimestamp == now
          && lastMessageIdForRelevantFiles == NextScanMark(reading, s, old(lastMessageIdForRelevantFiles))
    {
      var chat := GetChatInteractionFiles(s, reading);
      if chat.Err? {
        return Err(chat.error);
      }
      lastEditedFilesTimestamp := now;
      var combined := CombineRelevantFiles(chat.value, taskRelevantFiles, edited);
      taskRelevantFiles := combined;
      r := Ok(combined);
    }

    /**
     * `reduceRelevantFilesContext`. `tokenCount` is the token count of
     * `fileContents`; `ranking` is the model's answer, `None` when it is not
     * an array. Past the gate, at most seven ranked files are kept, and the
     * files `ReturnedFiles` names are re-read with `read`: every ranked file
     * as written, only the kept ones as intended.
     */
    method ReduceRelevantFilesContext(
      fileContents: string, fileList: seq<string>, tokenCount: nat, backendCount: nat,
      ranking: Option<seq<string>>, read: string -> string, reading: Reading) returns (r: string)
      modifies this`reduceRelevantFilesContextMessageId, this`taskRelevantFiles
      ensures var due := ReductionDue(tokenCount, |fileList|, backendCount - 1, old(reduceRelevantFilesContextMessageId));
        && reduceRelevantFilesContextMessageId == (if due then backendCount - 1 else old(reduceRelevantFilesContextMessageId))
        && (due && ranking.Some? ==>
              taskRelevantFiles == ReducedFiles(ranking.value)
              && r == FileContents(ReturnedFiles(reading, ranking.value), read))
        && (!(due && ranking.Some?) ==> taskRelevantFiles == old(taskRelevantFiles) && r == fileContents)
      ensures |taskRelevantFiles| <= MaxRelevantFilesCount || taskRelevantFiles == old(taskRelevantFiles)
    {
      var lastMessageId := backendCount - 1;
      if ReductionDue(tokenCount, |fileList|, lastMessageId, reduceRelevantFilesContextMessageId) {
        reduceRelevantFilesContextMessageId := lastMessageId;
        if ranking.Some? {
          taskRelevantFiles := ReducedFiles(ranking.value);
          return FileContents(ReturnedFiles(reading, ranking.value), read);
        }
      }
      r := fileContents;
    }

    /**
     * `addSystemMessage`. `userMessageCount` is the chat's count of user
     * messages, `chatIsEmpty` whether it has no display message, and
     * `needsPlan` the classifier's answer (asked only of an empty chat).
     * The finish-task addendum follows the plan decision.
     */
    method AddSystemMessage(
      userMessageCount: nat, chatIsEmpty: bool, needsPlan: bool, backendCount: nat,
      planTemplate: string, executionTemplate: string, finishTemplate: string,
      customInstructions: Option<string>, osName: string, shellType: string) returns (content: string)
      modifies this`taskNeedsPlan, this`isComplexTask
      ensures var plan := (old(taskNeedsPlan) && userMessageCount == 0) || (chatIsEmpty && needsPlan);
        && taskNeedsPlan == plan
        && isComplexTask == (old(isComplexTask) || plan)
        && var base := (if plan then planTemplate else executionTemplate)
            + (if backendCount > 7 || !isComplexTask then FinishAddendum(finishTemplate) else "")
            + CustomInstructionsSection(customInstructions);
        && content == ReplaceAll(ReplaceAll(base, "{osName}", osName), "{shellType}", shellType)
    {
      var systemMessage: string;
      if (taskNeedsPlan && userMessageCount == 0) || (chatIsEmpty && needsPlan) {
        taskNeedsPlan := true;
        isComplexTask := true;
        systemMessage := planTemplate;
      } else {
        taskNeedsPlan := false;
        systemMessage := executionTemplate;
      }
      var addendum := if backendCount > 7 || !isComplexTask then FinishAddendum(finishTemplate) else "";
      systemMessage := systemMessage + addendum + CustomInstructionsSection(customInstructions);
      systemMessage := ReplaceAll(systemMessage, "{osName}", osName);
      content := ReplaceAll(systemMessage, "{shellType}", shellType);
    }
  }
}
