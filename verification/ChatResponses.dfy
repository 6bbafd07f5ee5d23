/** Chat streams translated to Responses events, and whole chat messages translated to
    Responses output. `json` stands for the JSON validity test of the library. */
module ChatResponses {
  import opened Basics
  import opened ChatWire

  datatype Item =
    | MessageItem(status: string, text: string)
    | CallItem(id: string, name: string, args: string, status: string)

  datatype Event =
    | Created(respId: string)
    | TextAdded
    | TextDelta(text: string)
    | CallAdded(index: int, id: string, name: string)
    | ArgsDelta(index: int, args: string)
    | TextDone(text: string)
    | ArgsDone(index: int, args: string)
    | ItemDone(index: int, item: Item)
    | Terminal(respId: string, status: string, reason: string, output: seq<Item>)

  // ---------- The batch translation ----------

  datatype Response = Response(status: string, reason: string, output: seq<Item>)

  function ToolToItem(t: ChatTool, json: string -> bool): Result<Item> {
    if t.kind != "" && t.kind != "function" then Err("unsupported tool_call type")
    else if t.id == "" then Err("tool_call is missing id")
    else if t.name == "" then Err("tool_call function is missing name")
    else
      var args := if t.args == "" then "{}" else t.args;
      if !json(args) then Err("tool_call arguments are not valid JSON")
      else Ok(CallItem(t.id, t.name, args, "completed"))
  }

  ghost predicate AllToolsTranslate(tools: seq<ChatTool>, json: string -> bool) {
    forall i :: 0 <= i < |tools| ==> ToolToItem(tools[i], json).Ok?
  }

  function IncompleteReason(finish: string): string {
    match finish
    case "length" => "max_output_tokens"
    case "content_filter" => "content_filter"
    case _ => ""
  }

  function StatusOf(finish: string): string {
    if finish == "length" || finish == "content_filter" then "incomplete" else "completed"
  }

  /** The status and the reason that a client must be given. */
  predicate Reports(finish: string, status: string, reason: string) {
    && (status == "incomplete" <==> finish in {"length", "content_filter"})
    && (status == "completed" <==> finish !in {"length", "content_filter"})
    && (reason == "max_output_tokens" <==> finish == "length")
    && (reason == "content_filter" <==> finish == "content_filter")
    && (reason == "" <==> finish !in {"length", "content_filter"})
  }

  lemma ReasonsAreReported(finish: string)
    ensures Reports(finish, StatusOf(finish), IncompleteReason(finish))
  {
  }

  /** A tool call that can be translated. */
  ghost predicate WellFormed(t: ChatTool, json: string -> bool) {
    && (t.kind == "" || t.kind == "function") && t.id != "" && t.name != ""
    && json(if t.args == "" then "{}" else t.args)
  }

  method ChatToResponses(m: ChatMessage, json: string -> bool) returns (r: Result<Response>)
    ensures r.Ok? <==> AllToolsTranslate(m.tools, json)
    ensures r.Ok? ==> r.value == Response(StatusOf(m.finish), IncompleteReason(m.finish), BatchOutput(m, json))
    ensures r.Ok? <==> forall i :: 0 <= i < |m.tools| ==> WellFormed(m.tools[i], json)
    ensures r.Ok? ==>
              var output, head := r.value.output, if m.text != "" || m.tools == [] then 1 else 0;
              && Reports(m.finish, r.value.status, r.value.reason)
              && |output| == head + |m.tools| && (head == 1 ==> output[0] == MessageItem("completed", m.text))
              && forall i :: 0 <= i < |m.tools| ==>
                   var t := m.tools[i];
                   output[head + i] == CallItem(t.id, t.name, if t.args == "" then "{}" else t.args, "completed")
  {
    hide Reports, StatusOf, IncompleteReason;
    var output := [];
    if m.text != "" { output := output + [MessageItem("completed", m.text)]; }
    var head := output;
    if |m.tools| > 0 {
      var i := 0;
      while i < |m.tools|
        invariant 0 <= i <= |m.tools|
        invariant AllToolsTranslate(m.tools[..i], json)
        invariant output == head + seq(i, k requires 0 <= k < i => ToolToItem(m.tools[k], json).value)
      {
        var item := ToolToItem(m.tools[i], json);
        if item.Err? { return Err(item.message); }
        output := output + [item.value];
        i := i + 1;
      }
    } else if output == [] {
      output := [MessageItem("completed", m.text)];
    }
    ReasonsAreReported(m.finish);
    r := Ok(Response(StatusOf(m.finish), IncompleteReason(m.finish), output));
  }

  ghost function BatchOutput(m: ChatMessage, json: string -> bool): seq<Item>
    requires AllToolsTranslate(m.tools, json)
  {
    (if m.text != "" || m.tools == [] then [MessageItem("completed", m.text)] else [])
    + seq(|m.tools|, k requires 0 <= k < |m.tools| => ToolToItem(m.tools[k], json).value)
  }

  // ---------- What a stream with a given history must have emitted ----------

  function RespId(h: seq<Chunk>, fallback: string): string {
    if h != [] && h[0].id != "" then "resp_" + h[0].id else fallback
  }

  function ToolEvent(ds: seq<ToolDelta>, off: int, d: ToolDelta): seq<Event> {
    (if d.index !in Indexes(ds) then [CallAdded(d.index + off, IdOf(ds + [d], d.index), d.name)] else [])
    + (if d.args != "" then [ArgsDelta(d.index + off, d.args)] else [])
  }

  function ToolEvents(ds: seq<ToolDelta>, off: int, more: seq<ToolDelta>): seq<Event> {
    if more == [] then []
    else
      var init := more[..|more| - 1];
      ToolEvents(ds, off, init) + ToolEvent(ds + init, off, more[|more| - 1])
  }

  function TextEvents(h: seq<Chunk>, ev: Chunk): seq<Event> {
    if ChunkContent(ev) == "" then []
    else (if Content(h) == "" then [TextAdded] else []) + [TextDelta(ChunkContent(ev))]
  }

  function OpeningEvents(h: seq<Chunk>, ev: Chunk, fallback: string): seq<Event> {
    if h == [] then [Created(RespId([ev], fallback))] else []
  }

  function ChunkEvents(h: seq<Chunk>, ev: Chunk, fallback: string): seq<Event> {
    OpeningEvents(h, ev, fallback) + TextEvents(h, ev) + ToolEvents(Deltas(h), Offset(h + [ev]), ChunkTools(ev))
  }

  function Events(h: seq<Chunk>, fallback: string): seq<Event> {
    if h == [] then []
    else Events(h[..|h| - 1], fallback) + ChunkEvents(h[..|h| - 1], h[|h| - 1], fallback)
  }

  function DoneArgs(h: seq<Chunk>, i: int, status: string): string {
    var args := Trim(ArgsOf(Deltas(h), i));
    if args == "" && status == "completed" then "{}" else args
  }

  function CallOf(h: seq<Chunk>, i: int, status: string): Item
    requires i in Indexes(Deltas(h))
  {
    CallItem(IdOf(Deltas(h), i), NameOf(Deltas(h), i), DoneArgs(h, i, status), status)
  }

  function TextItems(h: seq<Chunk>, status: string): seq<Item> {
    if Content(h) != "" then [MessageItem(status, Content(h))] else []
  }

  /** The output of the terminal event, tools in the given order. */
  function StreamOutput(h: seq<Chunk>, status: string, order: seq<int>): seq<Item>
    requires forall i :: i in order ==> i in Indexes(Deltas(h))
  {
    if order == [] then TextItems(h, status)
    else StreamOutput(h, status, order[..|order| - 1]) + [CallOf(h, order[|order| - 1], status)]
  }

  function DoneEvents(h: seq<Chunk>, status: string, order: seq<int>): seq<Event>
    requires forall i :: i in order ==> i in Indexes(Deltas(h))
  {
    if order == [] then
      if Content(h) != "" then [TextDone(Content(h)), ItemDone(0, MessageItem(status, Content(h)))] else []
    else
      var i := order[|order| - 1];
      DoneEvents(h, status, order[..|order| - 1])
      + [ArgsDone(i + Offset(h), DoneArgs(h, i, status)), ItemDone(i + Offset(h), CallOf(h, i, status))]
  }

  function FinalEvents(h: seq<Chunk>, fallback: string, order: seq<int>): seq<Event>
    requires Finish(h).Some? && forall i :: i in order ==> i in Indexes(Deltas(h))
  {
    var finish := Finish(h).value;
    DoneEvents(h, StatusOf(finish), order)
    + [Terminal(RespId(h, fallback), StatusOf(finish), IncompleteReason(finish),
                StreamOutput(h, StatusOf(finish), order))]
  }

  function CheckedArgs(h: seq<Chunk>, i: int): string {
    var args := Trim(ArgsOf(Deltas(h), i));
    if args == "" then "{}" else args
  }

  /** The stream may end here: a finish reason came, and unless the answer was cut short all
      accumulated arguments are JSON. */
  ghost predicate Completable(h: seq<Chunk>, json: string -> bool) {
    && Finish(h).Some?
    && (StatusOf(Finish(h).value) == "completed" ==>
        forall i :: i in Indexes(Deltas(h)) ==> json(CheckedArgs(h, i)))
  }

  // ---------- The stream translator ----------

  datatype Tool = Tool(id: string, name: string, args: string, outputIndex: int)

  /** What one more delta adds to the tools remembered so far. */
  function AddDelta(tools: map<int, Tool>, d: ToolDelta, off: int): map<int, Tool> {
    var tool := if d.index in tools then tools[d.index]
                else Tool(if Trim(d.id) != "" then d.id else MadeUpId(d.index), "", "", d.index + off);
    tools[d.index := tool.(name := if d.name != "" then d.name else tool.name, args := tool.args + d.args)]
  }

  function Tools(ds: seq<ToolDelta>, off: int): map<int, Tool> {
    if ds == [] then map[] else AddDelta(Tools(ds[..|ds| - 1], off), ds[|ds| - 1], off)
  }

  lemma {:induction false} ToolsKeys(ds: seq<ToolDelta>, off: int)
    ensures Tools(ds, off).Keys == Indexes(ds)
  {
    if ds != [] {
      var init, d := ds[..|ds| - 1], ds[|ds| - 1];
      ToolsKeys(init, off);
      IndexesSnoc(init, d);
      assert ds == init + [d];
    }
  }

  /** The remembered tools are what the whole history of deltas says about each index. */
  lemma {:induction false} ToolsAreHistory(ds: seq<ToolDelta>, off: int, i: int)
    requires i in Indexes(ds)
    ensures i in Tools(ds, off)
    ensures Tools(ds, off)[i] == Tool(IdOf(ds, i), NameOf(ds, i), ArgsOf(ds, i), i + off)
  {
    var init, d := ds[..|ds| - 1], ds[|ds| - 1];
    assert ds == init + [d];
    DeltasSnoc(init, d, i);
    ToolsKeys(init, off);
    if i in Indexes(init) { ToolsAreHistory(init, off, i); } else { NoNameOf(init, i); }
  }

  class ResponsesStream {
    const json: string -> bool
    const fallbackId: string
    var respId: string
    var textStarted: bool
    var text: string
    var tools: map<int, Tool>
    var toolOffset: int
    var finished: bool
    var finishReason: string
    var created: bool
    var out: seq<Event>
    ghost var seen: seq<Chunk>

    ghost predicate Valid() reads this {
      && Accepted(seen) && created == (seen != []) && respId == RespId(seen, fallbackId)
      && text == Content(seen) && textStarted == (text != "") && toolOffset == Offset(seen)
      && tools == Tools(Deltas(seen), toolOffset)
      && (match Finish(seen)
          case None => !finished
          case Some(reason) => finished && finishReason == reason)
      && out == Events(seen, fallbackId)
    }

    constructor (json: string -> bool, fallbackId: string)
      ensures Valid() && seen == [] && this.json == json && this.fallbackId == fallbackId
    {
      this.json, this.fallbackId := json, fallbackId;
      respId, textStarted, text, tools, toolOffset := fallbackId, false, "", map[], 0;
      finished, finishReason, created, out, seen := false, "", false, [], [];
    }

    /** One chunk: announce the response, the text item and each tool once, relay every
        fragment. A rejected chunk writes at most the opening event. */
    method Observe(ev: Chunk) returns (ok: bool)
      requires Valid()
      modifies this
      ensures ok <==> Acceptable(old(seen), ev)
      ensures ok ==> Valid() && seen == old(seen) + [ev]
      ensures !ok ==> out == old(out) + OpeningEvents(old(seen), ev, fallbackId)
    {
      hide Trim, ArgsOf, NameOf, IdOf, Content, Deltas, Finish, Accepted, Events, ChunkEvents, Tools, TextEvents,
           ToolEvents, RespId, OpeningEvents;
      ghost var h := seen;
      HistorySnoc(h, ev);
      EventsSnoc(h, ev, fallbackId);
      Open(ev);
      if |ev.choices| > 1 { return false; }
      if |ev.choices| == 0 {
        assert Content(h) + "" == Content(h) && Deltas(h) + [] == Deltas(h) && out + [] + [] == out;
        seen := seen + [ev];
        return true;
      }
      var ch := ev.choices[0];
      if ch.index != 0 { return false; }
      ok := ObserveText(ch.content, ev);
      if !ok { return; }
      ObserveTools(ch.tools, Deltas(h));
      if ch.finish.Some? {
        finished, finishReason := true, ch.finish.value;
      }
      seen := seen + [ev];
    }

    method Open(ev: Chunk)
      requires created == (seen != []) && respId == RespId(seen, fallbackId)
      modifies this`respId, this`created, this`out
      ensures created && respId == RespId(seen + [ev], fallbackId)
      ensures out == old(out) + OpeningEvents(seen, ev, fallbackId)
    {
      if !created {
        if ev.id != "" { respId := "resp_" + ev.id; }
        out := out + [Created(respId)];
        created := true;
      }
    }

    /** The text of one chunk; it may not start after a tool call. */
    method ObserveText(content: string, ghost ev: Chunk) returns (ok: bool)
      requires text == Content(seen) && textStarted == (text != "") && toolOffset == Offset(seen)
      requires tools == Tools(Deltas(seen), toolOffset) && ChunkContent(ev) == content
      modifies this`textStarted, this`text, this`toolOffset, this`out
      ensures ok <==> (content != "" && Content(seen) == "" ==> Deltas(seen) == [])
      ensures ok ==> text == Content(seen + [ev]) && textStarted == (text != "") && toolOffset == Offset(seen + [ev])
      ensures ok ==> tools == Tools(Deltas(seen), toolOffset) && out == old(out) + TextEvents(seen, ev)
      ensures !ok ==> out == old(out)
    {
      hide Trim, ArgsOf, NameOf, IdOf, Content, Deltas;
      HistorySnoc(seen, ev);
      ToolsKeys(Deltas(seen), toolOffset);
      KeysEmptyIff(tools, Deltas(seen));
      if content != "" {
        if !textStarted {
          if |tools| > 0 { return false; }
          toolOffset := 1;
          out := out + [TextAdded];
          textStarted := true;
        }
        text := text + content;
        out := out + [TextDelta(content)];
      }
      ok := true;
    }

    /** The tool_calls of one chunk. */
    method ObserveTools(deltas: seq<ToolDelta>, ghost ds: seq<ToolDelta>)
      requires tools == Tools(ds, toolOffset)
      modifies this`tools, this`out
      ensures tools == Tools(ds + deltas, toolOffset)
      ensures out == old(out) + ToolEvents(ds, toolOffset, deltas)
    {
      hide Trim, ArgsOf, NameOf, IdOf, ToolEvent, AddDelta, FirstOf;
      assert ds + deltas[..0] == ds;
      var k := 0;
      while k < |deltas|
        invariant 0 <= k <= |deltas| && tools == Tools(ds + deltas[..k], toolOffset)
        invariant out == old(out) + ToolEvents(ds, toolOffset, deltas[..k])
      {
        ObserveTool(deltas[k], ds + deltas[..k]);
        assert ds + deltas[..k + 1] == ds + deltas[..k] + [deltas[k]];
        assert deltas[..k + 1][..k] == deltas[..k];
        k := k + 1;
      }
      assert deltas[..|deltas|] == deltas;
    }

    method ObserveTool(d: ToolDelta, ghost ds: seq<ToolDelta>)
      requires tools == Tools(ds, toolOffset)
      modifies this`tools, this`out
      ensures tools == Tools(ds + [d], toolOffset)
      ensures out == old(out) + ToolEvent(ds, toolOffset, d)
    {
      hide Trim, ArgsOf, NameOf, IdOf, FirstOf;
      assert (ds + [d])[..|ds|] == ds;
      ToolsKeys(ds, toolOffset);
      FirstOfNew(ds, d);
      var outputIndex := d.index + toolOffset;
      var tool;
      if d.index in tools {
        tool := tools[d.index];
      } else {
        var id := if Trim(d.id) != "" then d.id else MadeUpId(d.index);
        out := out + [CallAdded(outputIndex, id, d.name)];
        tool := Tool(id, d.name, "", outputIndex);
      }
      if d.name != "" { tool := tool.(name := d.name); }
      tool := tool.(args := tool.args + d.args);
      if d.args != "" { out := out + [ArgsDelta(outputIndex, d.args)]; }
      tools := tools[d.index := tool];
    }

    /** The end of the stream: close every item in index order, then the terminal event. A
        stream that may not end here writes nothing. */
    method Complete() returns (ok: bool, ghost order: seq<int>)
      requires Valid()
      modifies this`out
      ensures ok <==> Completable(seen, json)
      ensures ok ==> Lists(order, Indexes(Deltas(seen))) && out == old(out) + FinalEvents(seen, fallbackId, order)
      ensures ok ==>
                && out != [] && out[|out| - 1].Terminal?
                && Reports(Finish(seen).value, out[|out| - 1].status, out[|out| - 1].reason)
      ensures !ok ==> out == old(out)
    {
      hide Trim, ArgsOf, NameOf, IdOf, Content, Deltas, Events, Tools, StreamOutput, DoneEvents, Accepted;
      if !finished { return false, []; }
      var status := if finishReason == "length" || finishReason == "content_filter" then "incomplete" else "completed";
      ToolsKeys(Deltas(seen), toolOffset);
      var keys := SortedKeys(tools.Keys);
      order := keys;
      if status == "completed" {
        var valid := ValidateToolArguments(keys);
        if !valid { return false, []; }
      }
      var output := CloseItems(status, keys);
      out := out + [Terminal(respId, status, IncompleteReason(finishReason), output)];
      ok := true;
    }

    method CloseItems(status: string, keys: seq<int>) returns (output: seq<Item>)
      requires Valid() && forall i :: i in keys <==> i in Indexes(Deltas(seen))
      modifies this`out
      ensures output == StreamOutput(seen, status, keys)
      ensures out == old(out) + DoneEvents(seen, status, keys)
    {
      hide Trim, ArgsOf, NameOf, IdOf, Content, Deltas, Finish, Accepted, Events, Tools;
      output := [];
      if textStarted {
        output := [MessageItem(status, text)];
        out := out + [TextDone(text), ItemDone(0, MessageItem(status, text))];
      }
      var k := 0;
      while k < |keys|
        invariant 0 <= k <= |keys|
        invariant output == StreamOutput(seen, status, keys[..k])
        invariant out == old(out) + DoneEvents(seen, status, keys[..k])
      {
        assert keys[k] in keys;
        ToolsAreHistory(Deltas(seen), toolOffset, keys[k]);
        var tool := tools[keys[k]];
        var args := Trim(tool.args);
        if args == "" && status == "completed" { args := "{}"; }
        var item := CallItem(tool.id, tool.name, args, status);
        assert item == CallOf(seen, keys[k], status);
        out := out + [ArgsDone(tool.outputIndex, args), ItemDone(tool.outputIndex, item)];
        output := output + [item];
        assert keys[..k + 1][..k] == keys[..k];
        k := k + 1;
      }
      assert keys[..|keys|] == keys;
    }

    method ValidateToolArguments(keys: seq<int>) returns (ok: bool)
      requires Valid() && forall i :: i in keys <==> i in Indexes(Deltas(seen))
      ensures ok <==> forall i :: i in Indexes(Deltas(seen)) ==> json(CheckedArgs(seen, i))
    {
      hide Trim, ArgsOf, Events, NameOf, IdOf;
      var k := 0;
      while k < |keys|
        invariant 0 <= k <= |keys|
        invariant forall j :: 0 <= j < k ==> json(CheckedArgs(seen, keys[j]))
      {
        assert keys[k] in keys;
        ToolsAreHistory(Deltas(seen), toolOffset, keys[k]);
        var raw := Trim(tools[keys[k]].args);
        if raw == "" { raw := "{}"; }
        if !json(raw) { return false; }
        k := k + 1;
      }
      ok := true;
    }
  }

  lemma EventsSnoc(h: seq<Chunk>, ev: Chunk, fallback: string)
    ensures Events(h + [ev], fallback) == Events(h, fallback) + OpeningEvents(h, ev, fallback) + TextEvents(h, ev)
                                          + ToolEvents(Deltas(h), Offset(h + [ev]), ChunkTools(ev))
    ensures ev.choices == [] ==>
              TextEvents(h, ev) == [] && ToolEvents(Deltas(h), Offset(h + [ev]), ChunkTools(ev)) == []
  {
    hide OpeningEvents, TextEvents, ToolEvents, Deltas, Offset, ChunkTools;
    assert (h + [ev])[..|h|] == h;
    NoChoiceNoEvents(h, ev);
  }

  lemma NoChoiceNoEvents(h: seq<Chunk>, ev: Chunk)
    ensures ev.choices == [] ==>
              TextEvents(h, ev) == [] && ToolEvents(Deltas(h), Offset(h + [ev]), ChunkTools(ev)) == []
  {
    hide Deltas, Offset;
  }

  lemma KeysEmptyIff(tools: map<int, Tool>, ds: seq<ToolDelta>)
    requires tools.Keys == Indexes(ds)
    ensures |tools| == 0 <==> ds == []
  {
    assert |tools| == |Indexes(ds)|;
    assert ds == [] || ds[0].index in Indexes(ds);
  }
}
