/**
 * The OpenAI-compatible model client (app/models/openai.js): how a call is
 * routed to the forced-tool request or to the streaming request, how
 * streamed tool-call fragments are stitched together by slot index, and how
 * the finished calls are normalised into `{name, arguments}` records.
 *
 * The HTTP client, the abort signal, logging and the stream callback are not
 * modelled; `parse` stands for `JSON.parse`.
 */
module OpenAIModels {
  import opened Values
  import opened Seqs

  /** The error `parseJSONSafely` throws for text that is not JSON. */
  const ParseFailure := "Failed to parse response from model, invalid response format. Click Retry to try again."

  /** The TypeError of reading `tools[0].name` with no tools. */
  const NoFirstToolError := "Cannot read properties of undefined (reading 'name')"

  /** The TypeError of `tools.map` when `tools` is null. */
  const NoToolsError := "Cannot read properties of null (reading 'map')"

  // ---------------------------------------------------------------------
  // Streamed tool-call fragments
  // ---------------------------------------------------------------------

  /** One streamed fragment of a tool call: its slot index and the pieces of name and argument text it carries. */
  datatype ToolCallDelta = ToolCallDelta(index: nat, name: Option<string>, arguments: Option<string>)

  /** An accumulated slot `{ function: { name, arguments } }`. */
  datatype CallSlot = CallSlot(name: string, arguments: string)

  /** JavaScript truthiness of an optional string. */
  predicate Present(s: Option<string>) {
    s.Some? && s.value != ""
  }

  /** The slot a fresh index starts from. */
  const EmptySlot := CallSlot("", "")

  function SlotOr(slots: map<nat, CallSlot>, index: nat): CallSlot {
    if index in slots then slots[index] else EmptySlot
  }

  /** What one fragment does: create the slot if missing, replace the name, append the argument text. */
  function ApplyDelta(slots: map<nat, CallSlot>, d: ToolCallDelta): (r: map<nat, CallSlot>)
    ensures r.Keys == slots.Keys + {d.index}
    ensures forall k :: k in slots && k != d.index ==> r[k] == slots[k]
  {
    var cur := SlotOr(slots, d.index);
    var name := if Present(d.name) then d.name.value else cur.name;
    var args := if Present(d.arguments) then cur.arguments + d.arguments.value else cur.arguments;
    slots[d.index := CallSlot(name, args)]
  }

  /** The fragments applied in order. */
  function ApplyDeltas(slots: map<nat, CallSlot>, ds: seq<ToolCallDelta>): map<nat, CallSlot> {
    if ds == [] then slots else ApplyDelta(ApplyDeltas(slots, ds[..|ds| - 1]), ds[|ds| - 1])
  }

  /** The array length after the fragments: one past the largest index written. */
  function LengthAfter(length: nat, ds: seq<ToolCallDelta>): nat {
    if ds == [] then length
    else
      var l := LengthAfter(length, ds[..|ds| - 1]);
      if ds[|ds| - 1].index + 1 > l then ds[|ds| - 1].index + 1 else l
  }

  lemma DeltasSnoc(slots: map<nat, CallSlot>, length: nat, ds: seq<ToolCallDelta>, i: nat)
    requires i < |ds|
    ensures ApplyDeltas(slots, ds[..i + 1]) == ApplyDelta(ApplyDeltas(slots, ds[..i]), ds[i])
    ensures LengthAfter(length, ds[..i + 1])
      == if ds[i].index + 1 > LengthAfter(length, ds[..i]) then ds[i].index + 1 else LengthAfter(length, ds[..i])
  {
    assert ds[..i + 1][..i] == ds[..i];
  }

  /** Some fragment names slot `index`. */
  predicate Mentions(ds: seq<ToolCallDelta>, index: nat) {
    exists k :: 0 <= k < |ds| && ds[k].index == index
  }

  /** The last non-empty name fragment for `index`, or `init` when there is none. */
  function LastName(ds: seq<ToolCallDelta>, index: nat, init: string): string {
    if ds == [] then init
    else if ds[|ds| - 1].index == index && Present(ds[|ds| - 1].name) then ds[|ds| - 1].name.value
    else LastName(ds[..|ds| - 1], index, init)
  }

  /** The non-empty argument fragments for `index`, concatenated in order. */
  function Fragments(ds: seq<ToolCallDelta>, index: nat): string {
    if ds == [] then ""
    else
      var last := ds[|ds| - 1];
      Fragments(ds[..|ds| - 1], index) + (if last.index == index && Present(last.arguments) then last.arguments.value else "")
  }

  /**
   * The slots after a run of fragments: exactly the indexes already present
   * or mentioned; each holds the last non-empty name given for it and its
   * argument fragments appended in order; a slot nobody mentions is as it was.
   */
  lemma {:induction false} AccumulatedSlots(slots: map<nat, CallSlot>, ds: seq<ToolCallDelta>, index: nat)
    ensures index in ApplyDeltas(slots, ds) <==> index in slots || Mentions(ds, index)
    ensures index in ApplyDeltas(slots, ds) ==>
      ApplyDeltas(slots, ds)[index]
        == CallSlot(LastName(ds, index, SlotOr(slots, index).name), SlotOr(slots, index).arguments + Fragments(ds, index))
  {
    if ds != [] {
      AccumulatedSlots(slots, ds[..|ds| - 1], index);
      MentionsSnoc(ds, index);
      if ds[|ds| - 1].index == index {
        LastFragmentSlot(slots, ds, index);
      } else {
        assert Fragments(ds, index) == Fragments(ds[..|ds| - 1], index) + "";
      }
    }
  }

  lemma MentionsSnoc(ds: seq<ToolCallDelta>, index: nat)
    requires ds != []
    ensures Mentions(ds, index) <==> Mentions(ds[..|ds| - 1], index) || ds[|ds| - 1].index == index
  {
    var init := ds[..|ds| - 1];
    if Mentions(ds, index) {
      var k :| 0 <= k < |ds| && ds[k].index == index;
      if k < |init| {
        assert init[k] == ds[k];
      }
    }
    if Mentions(init, index) {
      var k :| 0 <= k < |init| && init[k].index == index;
      assert ds[k] == init[k];
    }
  }

  /** The step of `AccumulatedSlots` where the last fragment names the slot. */
  lemma LastFragmentSlot(slots: map<nat, CallSlot>, ds: seq<ToolCallDelta>, index: nat)
    requires ds != [] && ds[|ds| - 1].index == index
    requires index in ApplyDeltas(slots, ds[..|ds| - 1]) <==> index in slots || Mentions(ds[..|ds| - 1], index)
    requires index in ApplyDeltas(slots, ds[..|ds| - 1]) ==>
      ApplyDeltas(slots, ds[..|ds| - 1])[index]
        == CallSlot(LastName(ds[..|ds| - 1], index, SlotOr(slots, index).name),
                    SlotOr(slots, index).arguments + Fragments(ds[..|ds| - 1], index))
    ensures ApplyDeltas(slots, ds)[index]
      == CallSlot(LastName(ds, index, SlotOr(slots, index).name), SlotOr(slots, index).arguments + Fragments(ds, index))
  {
    var init := ds[..|ds| - 1];
    var last := ds[|ds| - 1];
    var start := SlotOr(slots, index);
    var before := ApplyDeltas(slots, init);
    assert SlotOr(before, index) == CallSlot(LastName(init, index, start.name), start.arguments + Fragments(init, index)) by {
      if index !in before {
        NoFragments(init, index);
        NoName(init, index, start.name);
      }
    }
    if Present(last.arguments) {
      AppendAssoc(start.arguments, Fragments(init, index), last.arguments.value);
    } else {
      assert Fragments(ds, index) == Fragments(init, index) + "";
    }
  }

  lemma {:induction false} NoFragments(ds: seq<ToolCallDelta>, index: nat)
    requires !Mentions(ds, index)
    ensures Fragments(ds, index) == ""
  {
    if ds != [] {
      var init := ds[..|ds| - 1];
      forall k | 0 <= k < |init| ensures init[k].index != index {
        assert ds[k] == init[k];
      }
      NoFragments(init, index);
    }
  }

  lemma {:induction false} NoName(ds: seq<ToolCallDelta>, index: nat, init: string)
    requires !Mentions(ds, index)
    ensures LastName(ds, index, init) == init
  {
    if ds != [] {
      var prefix := ds[..|ds| - 1];
      forall k | 0 <= k < |prefix| ensures prefix[k].index != index {
        assert ds[k] == prefix[k];
      }
      NoName(prefix, index, init);
    }
  }

  /** Accumulating two batches one after the other is accumulating their concatenation. */
  lemma {:induction false} ApplyDeltasCompose(slots: map<nat, CallSlot>, a: seq<ToolCallDelta>, b: seq<ToolCallDelta>)
    ensures ApplyDeltas(ApplyDeltas(slots, a), b) == ApplyDeltas(slots, a + b)
    ensures LengthAfter(LengthAfter(0, a), b) == LengthAfter(0, a + b)
  {
    if b == [] {
      assert a + b == a;
    } else {
      ApplyDeltasCompose(slots, a, b[..|b| - 1]);
      assert (a + b)[..|a + b| - 1] == a + b[..|b| - 1];
      assert (a + b)[|a + b| - 1] == b[|b| - 1];
    }
  }

  /** The raw `arguments` of a finished call: JSON text, or an object the API already parsed. */
  datatype RawArguments = ArgText(text: string) | ArgObject(fields: map<string, Json>)

  /** A finished call as the API returns it, before normalisation. */
  datatype RawToolCall = RawToolCall(name: string, arguments: RawArguments)

  /**
   * The JavaScript array `existingCalls` as the slots and length describe
   * it: a hole where no slot was ever created.
   */
  function SlotArray(slots: map<nat, CallSlot>, length: nat): (r: seq<Option<RawToolCall>>)
    ensures |r| == length
    ensures forall i :: 0 <= i < length ==>
      r[i] == if i in slots then Some(RawToolCall(slots[i].name, ArgText(slots[i].arguments))) else None
  {
    seq(length, i requires 0 <= i < length =>
      if i in slots then Some(RawToolCall(slots[i].name, ArgText(slots[i].arguments))) else None)
  }

  /** Writing slot `d.index` keeps every slot inside an array grown to cover it. */
  lemma SlotsWithin(slots: map<nat, CallSlot>, length: nat, d: ToolCallDelta)
    requires forall k :: k in slots ==> k < length
    ensures forall k :: k in ApplyDelta(slots, d) ==> k < if d.index + 1 > length then d.index + 1 else length
  {
  }

  /** `existingCalls` during streaming: its slots, edited in place, and its length. */
  class ToolCallAccumulator {
    var slots: map<nat, CallSlot>
    var length: nat

    /** Every slot lies inside the array. */
    ghost predicate Valid()
      reads this
    {
      forall k :: k in slots ==> k < length
    }

    constructor ()
      ensures Valid() && slots == map[] && length == 0
    {
      slots := map[];
      length := 0;
    }

    /** The array as `formattedToolCalls` receives it. */
    function Entries(): seq<Option<RawToolCall>>
      reads this
    {
      SlotArray(slots, length)
    }

    /** One fragment of `accumulateToolCalls`: create the slot if missing, then overwrite the name and extend the arguments. */
    method AccumulateOne(d: ToolCallDelta)
      requires Valid()
      modifies this
      ensures Valid()
      ensures slots == ApplyDelta(old(slots), d)
      ensures length == if d.index + 1 > old(length) then d.index + 1 else old(length)
    {
      var cur := if d.index in slots then slots[d.index] else CallSlot("", "");
      if Present(d.name) {
        cur := cur.(name := d.name.value);
      }
      if Present(d.arguments) {
        cur := cur.(arguments := cur.arguments + d.arguments.value);
      }
      SlotsWithin(slots, length, d);
      slots := slots[d.index := cur];
      if d.index >= length {
        length := d.index + 1;
      }
    }

    /** `accumulateToolCalls(existingCalls, newCalls)`: applies the fragments in order. */
    method Accumulate(newCalls: seq<ToolCallDelta>)
      requires Valid()
      modifies this
      ensures Valid()
      ensures slots == ApplyDeltas(old(slots), newCalls)
      ensures length == LengthAfter(old(length), newCalls)
    {
      var i := 0;
      while i < |newCalls|
        invariant 0 <= i <= |newCalls|
        invariant Valid()
        invariant slots == ApplyDeltas(old(slots), newCalls[..i])
        invariant length == LengthAfter(old(length), newCalls[..i])
      {
        AccumulateOne(newCalls[i]);
        DeltasSnoc(old(slots), old(length), newCalls, i);
        i := i + 1;
      }
      assert newCalls[..i] == newCalls;
    }
  }

  // ---------------------------------------------------------------------
  // Normalising finished calls
  // ---------------------------------------------------------------------

  /**
   * `parseJSONSafely`: an object passes through unchanged; text is parsed,
   * and text that is not JSON throws the fixed parse failure.
   */
  function ParseJsonSafely(a: RawArguments, parse: string -> Result<Json>): (r: Result<Json>)
    ensures a.ArgObject? ==> r == Ok(JObj(a.fields))
    ensures a.ArgText? ==> (r.Ok? <==> parse(a.text).Ok?)
    ensures a.ArgText? && r.Ok? ==> r.value == parse(a.text).value
    ensures r.Err? ==> r.error == ParseFailure
  {
    match a
    case ArgObject(fields) => Ok(JObj(fields))
    case ArgText(text) => if parse(text).Ok? then Ok(parse(text).value) else Err(ParseFailure)
  }

  /** The entries that are not null (or holes), in order. */
  function NonNull(s: seq<Option<RawToolCall>>): (r: seq<RawToolCall>)
    ensures |r| <= |s|
    ensures forall i :: 0 <= i < |s| && s[i].Some? ==> s[i].value in r
    ensures forall i :: 0 <= i < |r| ==> Some(r[i]) in s
  {
    if s == [] then []
    else NonNull(s[..|s| - 1]) + (if s[|s| - 1].Some? then [s[|s| - 1].value] else [])
  }

  /** Dropping the nulls keeps the order of what remains. */
  lemma {:induction false} NonNullAppend(a: seq<Option<RawToolCall>>, b: seq<Option<RawToolCall>>)
    ensures NonNull(a + b) == NonNull(a) + NonNull(b)
  {
    if b == [] {
      assert a + b == a;
    } else {
      NonNullAppend(a, b[..|b| - 1]);
      assert (a + b)[..|a + b| - 1] == a + b[..|b| - 1];
      var tail := if b[|b| - 1].Some? then [b[|b| - 1].value] else [];
      AppendAssoc(NonNull(a), NonNull(b[..|b| - 1]), tail);
    }
  }

  /** Each call with its arguments parsed; the first failure throws. */
  function ParseCalls(calls: seq<RawToolCall>, parse: string -> Result<Json>): (r: Result<seq<ToolCall>>)
    ensures r.Ok? <==> forall i :: 0 <= i < |calls| ==> ParseJsonSafely(calls[i].arguments, parse).Ok?
    ensures r.Err? ==> r.error == ParseFailure
    ensures r.Ok? ==> (
      && |r.value| == |calls|
      && forall i :: 0 <= i < |calls| ==>
        r.value[i] == ToolCall(calls[i].name, ParseJsonSafely(calls[i].arguments, parse).value))
  {
    if calls == [] then Ok([])
    else
      match ParseJsonSafely(calls[0].arguments, parse)
      case Err(e) => Err(e)
      case Ok(args) =>
        match ParseCalls(calls[1..], parse)
        case Err(e) => Err(e)
        case Ok(rest) =>
          assert forall i :: 1 <= i < |calls| ==> calls[i] == calls[1..][i - 1];
          Ok([ToolCall(calls[0].name, args)] + rest)
  }

  /**
   * `formattedToolCalls`: null for an absent or empty list; otherwise the
   * non-null entries in order, each with its arguments parsed.
   */
  function FormattedToolCalls(calls: Option<seq<Option<RawToolCall>>>, parse: string -> Result<Json>)
    : (r: Result<Option<seq<ToolCall>>>)
    ensures r == Ok(None) <==> calls.None? || calls.value == []
    ensures r.Err? ==> r.error == ParseFailure
    ensures calls.Some? && calls.value != [] ==>
      (r.Ok? <==> ParseCalls(NonNull(calls.value), parse).Ok?)
      && (r.Ok? ==> r.value == Some(ParseCalls(NonNull(calls.value), parse).value))
  {
    if calls.None? || calls.value == [] then Ok(None)
    else
      match ParseCalls(NonNull(calls.value), parse)
      case Err(e) => Err(e)
      case Ok(cs) => Ok(Some(cs))
  }

  /** A list holding only nulls is not empty, so it yields an empty list rather than null. */
  lemma OnlyNullsGiveEmptyList(s: seq<Option<RawToolCall>>, parse: string -> Result<Json>)
    requires s != [] && forall i :: 0 <= i < |s| ==> s[i].None?
    ensures FormattedToolCalls(Some(s), parse) == Ok(Some([]))
  {
    AllNull(s);
  }

  lemma {:induction false} AllNull(s: seq<Option<RawToolCall>>)
    requires forall i :: 0 <= i < |s| ==> s[i].None?
    ensures NonNull(s) == []
  {
    if s != [] {
      AllNull(s[..|s| - 1]);
    }
  }

  // ---------------------------------------------------------------------
  // Routing a call
  // ---------------------------------------------------------------------

  /** A tool definition, as a JSON object's fields. */
  type ToolDef = map<string, Json>

  /** `openAiToolFormat`: the definition wrapped as a function tool. */
  function OpenAiToolFormat(tool: ToolDef): (r: Json)
    ensures r.JObj? && r.fields.Keys == {"type", "function"}
    ensures Field(r, "type") == Some(JStr("function")) && Field(r, "function") == Some(JObj(tool))
  {
    JObj(map["type" := JStr("function"), "function" := JObj(tool)])
  }

  function FormatTools(ts: seq<ToolDef>): (r: seq<Json>)
    ensures |r| == |ts| && forall i :: 0 <= i < |ts| ==> r[i] == OpenAiToolFormat(ts[i])
  {
    seq(|ts|, i requires 0 <= i < |ts| => OpenAiToolFormat(ts[i]))
  }

  /** `[tool, ...(tools || [])].filter(Boolean)`. */
  function ToolList(tool: Option<ToolDef>, tools: Option<seq<ToolDef>>): seq<ToolDef> {
    (if tool.Some? then [tool.value] else []) + (if tools.Some? then tools.value else [])
  }

  /** `{ type: 'function', function: { name: tools[0].name } }`; a missing name is left out, as JSON leaves out `undefined`. */
  function ForceFirstTool(tools: seq<ToolDef>): (r: Result<Json>)
    ensures r.Err? <==> tools == []
  {
    if tools == [] then Err(NoFirstToolError)
    else
      var fn := if "name" in tools[0] then map["name" := tools[0]["name"]] else map[];
      Ok(JObj(map["type" := JStr("function"), "function" := JObj(fn)]))
  }

  /** The request the client sends: model, tools, tool choice, and whether it streams. */
  datatype OpenAiRequest = OpenAiRequest(model: string, tools: seq<Json>, toolChoice: Option<Json>, stream: bool)

  predicate IsRequired(toolChoice: Option<Json>) {
    toolChoice == Some(JStr("required"))
  }

  predicate ChoiceGiven(toolChoice: Option<Json>) {
    toolChoice.Some? && Truthy(toolChoice.value)
  }

  /**
   * `call`: a given `tool` or the choice `required` takes the non-streaming
   * tool path, which forces the first tool when no choice is given; every
   * other call streams, offering all tools.
   */
  function OpenAiCall(defaultModel: string, model: Option<string>, tool: Option<ToolDef>, tools: Option<seq<ToolDef>>,
                      toolChoice: Option<Json>): (r: Result<OpenAiRequest>)
    ensures r.Ok? ==> (!r.value.stream <==> tool.Some? || IsRequired(toolChoice))
    ensures r.Err? <==> tool.None? && !IsRequired(toolChoice) && tools.None?
    ensures r.Ok? ==> r.value.model == if Present(model) then model.value else defaultModel
    ensures r.Ok? && !r.value.stream ==> r.value.tools == FormatTools(ToolList(tool, tools))
    ensures r.Ok? && r.value.stream ==> r.value.tools == FormatTools(tools.value)
    ensures r.Ok? && ChoiceGiven(toolChoice) ==> r.value.toolChoice == toolChoice
    ensures tool.Some? && !ChoiceGiven(toolChoice) ==>
      r.Ok? && r.value.toolChoice == Some(ForceFirstTool([tool.value]).value)
  {
    var m := if Present(model) then model.value else defaultModel;
    if tool.Some? || IsRequired(toolChoice) then
      var list := ToolList(tool, tools);
      var choice := if ChoiceGiven(toolChoice) then Ok(toolChoice.value) else ForceFirstTool(list);
      match choice
      case Err(e) => Err(e)
      case Ok(c) => Ok(OpenAiRequest(m, FormatTools(list), Some(c), false))
    else if tools.None? then Err(NoToolsError)
    else Ok(OpenAiRequest(m, FormatTools(tools.value), if ChoiceGiven(toolChoice) then toolChoice else None, true))
  }

  // ---------------------------------------------------------------------
  // Reading a stream
  // ---------------------------------------------------------------------

  /** One streamed chunk's delta: a piece of text and tool-call fragments, either possibly absent. */
  datatype StreamPart = StreamPart(content: Option<string>, toolCalls: Option<seq<ToolCallDelta>>)

  /** The text one chunk contributes (none when its content is empty or absent). */
  function PartText(part: StreamPart): string {
    if Present(part.content) then part.content.value else ""
  }

  /** The tool-call fragments one chunk carries. */
  function PartDeltas(part: StreamPart): seq<ToolCallDelta> {
    if part.toolCalls.Some? then part.toolCalls.value else []
  }

  /** The text of the chunks, concatenated. */
  function StreamedText(parts: seq<StreamPart>): string {
    if parts == [] then "" else StreamedText(parts[..|parts| - 1]) + PartText(parts[|parts| - 1])
  }

  /** The tool-call fragments of the chunks, in order. */
  function StreamedDeltas(parts: seq<StreamPart>): seq<ToolCallDelta> {
    if parts == [] then [] else StreamedDeltas(parts[..|parts| - 1]) + PartDeltas(parts[|parts| - 1])
  }

  lemma StreamSnoc(parts: seq<StreamPart>, i: nat)
    requires i < |parts|
    ensures StreamedText(parts[..i + 1]) == StreamedText(parts[..i]) + PartText(parts[i])
    ensures StreamedDeltas(parts[..i + 1]) == StreamedDeltas(parts[..i]) + PartDeltas(parts[i])
  {
    assert parts[..i + 1][..i] == parts[..i];
  }

  /** One more chunk: its text is appended, and its fragments are accumulated onto the state so far. */
  lemma StreamStep(parts: seq<StreamPart>, i: nat)
    requires i < |parts|
    ensures StreamedText(parts[..i + 1]) == StreamedText(parts[..i]) + PartText(parts[i])
    ensures ApplyDeltas(ApplyDeltas(map[], StreamedDeltas(parts[..i])), PartDeltas(parts[i]))
      == ApplyDeltas(map[], StreamedDeltas(parts[..i + 1]))
    ensures LengthAfter(LengthAfter(0, StreamedDeltas(parts[..i])), PartDeltas(parts[i]))
      == LengthAfter(0, StreamedDeltas(parts[..i + 1]))
  {
    StreamSnoc(parts, i);
    ApplyDeltasCompose(map[], StreamedDeltas(parts[..i]), PartDeltas(parts[i]));
  }

  /**
   * `stream`: the reply text is the chunks' text concatenated, and the tool
   * calls are the fragments of all chunks accumulated into one array and
   * then normalised.
   */
  method Stream(parts: seq<StreamPart>, parse: string -> Result<Json>)
    returns (content: string, toolCalls: Result<Option<seq<ToolCall>>>)
    ensures content == StreamedText(parts)
    ensures toolCalls == FormattedToolCalls(
      Some(SlotArray(ApplyDeltas(map[], StreamedDeltas(parts)), LengthAfter(0, StreamedDeltas(parts)))), parse)
  {
    content := "";
    var acc := new ToolCallAccumulator();
    var i := 0;
    while i < |parts|
      invariant 0 <= i <= |parts|
      invariant acc.Valid()
      invariant content == StreamedText(parts[..i])
      invariant acc.slots == ApplyDeltas(map[], StreamedDeltas(parts[..i]))
      invariant acc.length == LengthAfter(0, StreamedDeltas(parts[..i]))
    {
      StreamStep(parts, i);
      if Present(parts[i].content) {
        content := content + parts[i].content.value;
      } else {
        AfterPrefix(content, "");
      }
      // A chunk without tool calls accumulates nothing, so it is not singled out.
      acc.Accumulate(PartDeltas(parts[i]));
      i := i + 1;
    }
    assert parts[..i] == parts;
    toolCalls := FormattedToolCalls(Some(acc.Entries()), parse);
  }
}
