/** Chat streams translated to Anthropic Messages events, and whole chat messages translated to
    Anthropic content. `parse` stands for the JSON decoder of the library. */
module ChatAnthropic {
  import opened Basics
  import opened ChatWire

  datatype Start = TextStart | ToolStart(id: string, name: string)
  datatype Fragment = TextFragment(text: string) | JsonFragment(json: string)

  datatype Event =
    | MessageStart
    | BlockStart(index: int, start: Start)
    | BlockDelta(index: int, fragment: Fragment)
    | BlockStop(index: int)
    | MessageDelta(stopReason: string)
    | MessageStop

  datatype Block<V> = TextBlock(text: string) | ToolUse(id: string, name: string, input: V)

  // ---------- The batch translation ----------

  function StopReason(finish: string): string {
    match finish
    case "length" => "max_tokens"
    case "tool_calls" => "tool_use"
    case "content_filter" => "stop_sequence"
    case _ => "end_turn"
  }

  /** The stop reason that a client must be given for an answer with or without tool calls. */
  predicate Reports(tooled: bool, finish: string, reason: string) {
    if tooled then reason == "tool_use"
    else
      && (reason == "max_tokens" <==> finish == "length")
      && (reason == "stop_sequence" <==> finish == "content_filter")
      && (reason == "tool_use" <==> finish == "tool_calls")
      && (reason == "end_turn" <==> finish !in {"length", "content_filter", "tool_calls"})
  }

  /** A tool call that can be translated. */
  ghost predicate WellFormed<V>(t: ChatTool, parse: string -> Option<V>) {
    && (t.kind == "" || t.kind == "function") && t.id != "" && t.name != ""
    && parse(if t.args == "" then "{}" else t.args).Some?
  }

  /** The block of a well-formed tool call keeps its id, its name and its parsed arguments. */
  ghost predicate BlockOfTool<V>(t: ChatTool, parse: string -> Option<V>, b: Block<V>) {
    b.ToolUse? && b.id == t.id && b.name == t.name && parse(if t.args == "" then "{}" else t.args) == Some(b.input)
  }

  function ToolToBlock<V>(t: ChatTool, parse: string -> Option<V>): Result<Block<V>> {
    if t.kind != "" && t.kind != "function" then Err("unsupported tool_call type")
    else if t.id == "" then Err("tool_call is missing id")
    else if t.name == "" then Err("tool_call function is missing name")
    else
      var input := parse(if t.args == "" then "{}" else t.args);
      if input.None? then Err("tool_call arguments are not valid JSON")
      else Ok(ToolUse(t.id, t.name, input.value))
  }

  ghost predicate AllToolsTranslate<V>(tools: seq<ChatTool>, parse: string -> Option<V>) {
    forall i :: 0 <= i < |tools| ==> ToolToBlock(tools[i], parse).Ok?
  }

  ghost function BatchContent<V>(m: ChatMessage, parse: string -> Option<V>): seq<Block<V>>
    requires AllToolsTranslate(m.tools, parse)
  {
    (if m.text != "" || m.tools == [] then [TextBlock(m.text)] else [])
    + seq(|m.tools|, k requires 0 <= k < |m.tools| => ToolToBlock(m.tools[k], parse).value)
  }

  function BatchStopReason(m: ChatMessage): string {
    if m.tools != [] then "tool_use" else StopReason(m.finish)
  }

  method ChatToAnthropic<V>(m: ChatMessage, parse: string -> Option<V>) returns (r: Result<(seq<Block<V>>, string)>)
    ensures r.Ok? <==> AllToolsTranslate(m.tools, parse)
    ensures r.Ok? ==> r.value == (BatchContent(m, parse), BatchStopReason(m))
    ensures r.Ok? <==> forall i :: 0 <= i < |m.tools| ==> WellFormed(m.tools[i], parse)
    ensures r.Ok? ==>
              var (content, reason) := r.value;
              var head := if m.text != "" || m.tools == [] then 1 else 0;
              && Reports(m.tools != [], m.finish, reason)
              && |content| == head + |m.tools| && (head == 1 ==> content[0] == TextBlock(m.text))
              && forall i :: 0 <= i < |m.tools| ==> BlockOfTool(m.tools[i], parse, content[head + i])
  {
    var content := [];
    var stopReason := StopReason(m.finish);
    if m.text != "" { content := content + [TextBlock(m.text)]; }
    var head := content;
    if |m.tools| > 0 {
      var i := 0;
      while i < |m.tools|
        invariant 0 <= i <= |m.tools|
        invariant AllToolsTranslate(m.tools[..i], parse)
        invariant content == head + seq(i, k requires 0 <= k < i => ToolToBlock(m.tools[k], parse).value)
      {
        var block := ToolToBlock(m.tools[i], parse);
        if block.Err? { return Err(block.message); }
        content := content + [block.value];
        i := i + 1;
      }
      stopReason := "tool_use";
    } else if content == [] {
      content := [TextBlock(m.text)];
    }
    assert m.tools[..|m.tools|] == m.tools;
    assert |content| == |BatchContent(m, parse)|;
    assert content == BatchContent(m, parse);
    r := Ok((content, stopReason));
  }

  // ---------- What a stream with a given history must have emitted ----------

  function ToolEvent(ds: seq<ToolDelta>, off: int, d: ToolDelta): seq<Event> {
    (if d.index !in Indexes(ds) then [BlockStart(d.index + off, ToolStart(IdOf(ds + [d], d.index), d.name))] else [])
    + (if d.args != "" then [BlockDelta(d.index + off, JsonFragment(d.args))] else [])
  }

  function ToolEvents(ds: seq<ToolDelta>, off: int, more: seq<ToolDelta>): seq<Event> {
    if more == [] then []
    else
      var init := more[..|more| - 1];
      ToolEvents(ds, off, init) + ToolEvent(ds + init, off, more[|more| - 1])
  }

  function TextEvents(h: seq<Chunk>, ev: Chunk): seq<Event> {
    if ChunkContent(ev) == "" then []
    else (if Content(h) == "" then [BlockStart(0, TextStart)] else []) + [BlockDelta(0, TextFragment(ChunkContent(ev)))]
  }

  function Events(h: seq<Chunk>): seq<Event> {
    if h == [] then [MessageStart]
    else
      var init, ev := h[..|h| - 1], h[|h| - 1];
      Events(init) + TextEvents(init, ev) + ToolEvents(Deltas(init), Offset(h), ChunkTools(ev))
  }

  lemma EventsSnoc(h: seq<Chunk>, ev: Chunk)
    ensures Events(h + [ev]) == Events(h) + TextEvents(h, ev) + ToolEvents(Deltas(h), Offset(h + [ev]), ChunkTools(ev))
  {
    assert (h + [ev])[..|h|] == h;
  }

  function Stops(order: seq<int>, off: int): seq<Event> {
    if order == [] then [] else Stops(order[..|order| - 1], off) + [BlockStop(order[|order| - 1] + off)]
  }

  function TextStop(h: seq<Chunk>): seq<Event> {
    if Content(h) != "" then [BlockStop(0)] else []
  }

  function StreamStopReason(h: seq<Chunk>): string
    requires Finish(h).Some?
  {
    if Deltas(h) != [] then "tool_use" else StopReason(Finish(h).value)
  }

  function FinalEvents(h: seq<Chunk>, order: seq<int>): seq<Event>
    requires Finish(h).Some?
  {
    TextStop(h) + Stops(order, Offset(h)) + [MessageDelta(StreamStopReason(h)), MessageStop]
  }

  /** The stream ends with a due stop reason and message_stop. */
  predicate EndsWithReason(out: seq<Event>, tooled: bool, finish: string) {
    && |out| >= 2 && out[|out| - 1] == MessageStop && out[|out| - 2].MessageDelta?
    && Reports(tooled, finish, out[|out| - 2].stopReason)
  }

  lemma ReasonIsReported(h: seq<Chunk>, order: seq<int>, before: seq<Event>)
    requires Finish(h).Some?
    ensures EndsWithReason(before + FinalEvents(h, order), Deltas(h) != [], Finish(h).value)
    ensures Reports(Deltas(h) != [], Finish(h).value, StreamStopReason(h))
  {
    hide Content, Deltas, Finish, Stops, TextStop;
    var body := before + (TextStop(h) + Stops(order, Offset(h)));
    assert before + FinalEvents(h, order) == body + [MessageDelta(StreamStopReason(h)), MessageStop];
  }

  /** The text that is checked to be JSON: trimmed, and `{}` when blank. */
  function Checked(args: string): string {
    if Trim(args) == "" then "{}" else Trim(args)
  }

  ghost predicate Completable<V>(h: seq<Chunk>, parse: string -> Option<V>) {
    && Finish(h).Some?
    && forall i :: i in Indexes(Deltas(h)) ==> parse(Checked(ArgsOf(Deltas(h), i))).Some?
  }

  // ---------- The stream translator ----------

  function ArgsAt(args: map<int, string>, i: int): string { if i in args then args[i] else "" }

  ghost predicate ArgsMatch(args: map<int, string>, ds: seq<ToolDelta>) {
    forall i :: ArgsAt(args, i) == ArgsOf(ds, i)
  }

  lemma ArgsGrow(args: map<int, string>, ds: seq<ToolDelta>, d: ToolDelta)
    requires ArgsMatch(args, ds)
    ensures ArgsMatch(if d.args == "" then args else args[d.index := ArgsAt(args, d.index) + d.args], ds + [d])
  {
    hide ArgsOf, FirstOf, Indexes, NameOf;
    forall i ensures ArgsOf(ds + [d], i) == if i == d.index then ArgsAt(args, i) + d.args else ArgsAt(args, i) {
      DeltasSnoc(ds, d, i);
    }
    assert ArgsAt(args, d.index) + "" == ArgsAt(args, d.index);
  }

  class AnthropicStream<V> {
    const parse: string -> Option<V>
    var blockOpen: bool
    var toolBlocks: set<int>
    var toolArgs: map<int, string>
    var toolOffset: int
    var finished: bool
    var stopReason: string
    var out: seq<Event>
    ghost var seen: seq<Chunk>

    ghost predicate Valid() reads this {
      && Accepted(seen) && blockOpen == (Content(seen) != "") && toolOffset == Offset(seen)
      && toolBlocks == Indexes(Deltas(seen)) && ArgsMatch(toolArgs, Deltas(seen))
      && (match Finish(seen)
          case None => !finished && stopReason == "end_turn"
          case Some(reason) => finished && stopReason == StopReason(reason))
      && out == Events(seen)
    }

    constructor (parse: string -> Option<V>)
      ensures Valid() && seen == [] && this.parse == parse
    {
      this.parse := parse;
      blockOpen, toolBlocks, toolArgs, toolOffset, finished, stopReason := false, {}, map[], 0, false, "end_turn";
      out, seen := [MessageStart], [];
    }

    method Observe(ev: Chunk) returns (ok: bool)
      requires Valid()
      modifies this
      ensures ok <==> Acceptable(old(seen), ev)
      ensures ok ==> Valid() && seen == old(seen) + [ev]
      ensures !ok ==> out == old(out)
    {
      hide Trim, ArgsOf, ArgsMatch, Content, Deltas, Finish, Accepted, Events, TextEvents, ToolEvents;
      ghost var h := seen;
      HistorySnoc(h, ev);
      EventsSnoc(h, ev);
      if |ev.choices| > 1 { return false; }
      if |ev.choices| == 0 {
        NothingFromNoChoice(h, ev);
        assert Content(h) + "" == Content(h) && Deltas(h) + [] == Deltas(h) && out + [] + [] == out;
        seen := seen + [ev];
        return true;
      }
      var ch := ev.choices[0];
      if ch.index != 0 { return false; }
      ok := ObserveText(ch.content, ev);
      if !ok { return; }
      ObserveTools(ch.tools, Deltas(h));
      if ch.finish.Some? {
        finished, stopReason := true, StopReason(ch.finish.value);
      }
      seen := seen + [ev];
    }

    method ObserveText(content: string, ghost ev: Chunk) returns (ok: bool)
      requires blockOpen == (Content(seen) != "") && toolOffset == Offset(seen)
      requires toolBlocks == Indexes(Deltas(seen)) && ChunkContent(ev) == content
      modifies this`blockOpen, this`toolOffset, this`out
      ensures ok <==> (content != "" && Content(seen) == "" ==> Deltas(seen) == [])
      ensures ok ==> blockOpen == (Content(seen + [ev]) != "") && toolOffset == Offset(seen + [ev])
      ensures ok ==> out == old(out) + TextEvents(seen, ev)
      ensures !ok ==> out == old(out)
    {
      hide Content, Deltas;
      HistorySnoc(seen, ev);
      NoIndexesIff(Deltas(seen));
      if content != "" {
        if !blockOpen {
          if |toolBlocks| > 0 { return false; }
          toolOffset := 1;
          out := out + [BlockStart(0, TextStart)];
          blockOpen := true;
        }
        out := out + [BlockDelta(0, TextFragment(content))];
      }
      ok := true;
    }

    method ObserveTools(deltas: seq<ToolDelta>, ghost ds: seq<ToolDelta>)
      requires toolBlocks == Indexes(ds) && ArgsMatch(toolArgs, ds)
      modifies this`toolBlocks, this`toolArgs, this`out
      ensures toolBlocks == Indexes(ds + deltas) && ArgsMatch(toolArgs, ds + deltas)
      ensures out == old(out) + ToolEvents(ds, toolOffset, deltas)
    {
      hide ToolEvent, ArgsMatch, Indexes;
      assert ds + deltas[..0] == ds;
      var k := 0;
      while k < |deltas|
        invariant 0 <= k <= |deltas|
        invariant toolBlocks == Indexes(ds + deltas[..k]) && ArgsMatch(toolArgs, ds + deltas[..k])
        invariant out == old(out) + ToolEvents(ds, toolOffset, deltas[..k])
      {
        ObserveTool(deltas[k], ds + deltas[..k]);
        assert ds + deltas[..k + 1] == ds + deltas[..k] + [deltas[k]];
        assert deltas[..k + 1][..k] == deltas[..k];
        k := k + 1;
      }
      assert deltas[..|deltas|] == deltas;
    }

    method ObserveTool(d: ToolDelta, ghost ds: seq<ToolDelta>)
      requires toolBlocks == Indexes(ds) && ArgsMatch(toolArgs, ds)
      modifies this`toolBlocks, this`toolArgs, this`out
      ensures toolBlocks == Indexes(ds + [d]) && ArgsMatch(toolArgs, ds + [d])
      ensures out == old(out) + ToolEvent(ds, toolOffset, d)
    {
      hide Trim, ArgsMatch, IdOf, FirstOf, Indexes;
      FirstOfNew(ds, d);
      IndexesSnoc(ds, d);
      var blockIndex := d.index + toolOffset;
      if d.index !in toolBlocks {
        var id := if Trim(d.id) != "" then d.id else MadeUpId(d.index);
        out := out + [BlockStart(blockIndex, ToolStart(id, d.name))];
        toolBlocks := toolBlocks + {d.index};
      }
      ArgsGrow(toolArgs, ds, d);
      if d.args != "" {
        toolArgs := toolArgs[d.index := ArgsAt(toolArgs, d.index) + d.args];
        out := out + [BlockDelta(blockIndex, JsonFragment(d.args))];
      }
    }

    /** The end of the stream: close the text block and every tool block in index order. A
        stream that may not end here writes nothing. */
    method Complete() returns (ok: bool, ghost order: seq<int>)
      requires Valid()
      modifies this`out, this`stopReason
      ensures ok <==> Completable(seen, parse)
      ensures ok ==> Lists(order, Indexes(Deltas(seen))) && out == old(out) + FinalEvents(seen, order)
      ensures ok ==> EndsWithReason(out, Deltas(seen) != [], Finish(seen).value)
      ensures !ok ==> out == old(out)
    {
      hide Trim, ArgsOf, Content, Deltas, Finish, Accepted, Events, Stops, TextStop, Checked, EndsWithReason;
      if !finished { return false, []; }
      var keys := SortedKeys(toolBlocks);
      order := keys;
      var valid := ValidateToolArguments(keys);
      if !valid { return false, []; }
      CloseBlocks(keys);
      NoIndexesIff(Deltas(seen));
      assert keys == [] || keys[0] in keys;
      out := out + [MessageDelta(stopReason), MessageStop];
      ReasonIsReported(seen, order, old(out));
      ok := true;
    }

    method CloseBlocks(keys: seq<int>)
      requires blockOpen == (Content(seen) != "")
      modifies this`out, this`stopReason
      ensures out == old(out) + (TextStop(seen) + Stops(keys, toolOffset))
      ensures stopReason == if keys != [] then "tool_use" else old(stopReason)
    {
      hide Content, Stops, TextStop;
      TextStopIs(seen);
      if blockOpen { out := out + [BlockStop(0)]; }
      assert old(out) + [] == old(out);
      StopKeys(keys);
    }

    method StopKeys(keys: seq<int>)
      modifies this`out, this`stopReason
      ensures out == old(out) + Stops(keys, toolOffset)
      ensures stopReason == if keys != [] then "tool_use" else old(stopReason)
    {
      var k := 0;
      assert old(out) + [] == old(out);
      while k < |keys|
        invariant 0 <= k <= |keys| && out == old(out) + Stops(keys[..k], toolOffset)
        invariant stopReason == if k > 0 then "tool_use" else old(stopReason)
      {
        out := out + [BlockStop(keys[k] + toolOffset)];
        stopReason := "tool_use";
        assert keys[..k + 1][..k] == keys[..k];
        k := k + 1;
      }
      assert keys[..|keys|] == keys;
    }

    method ValidateToolArguments(keys: seq<int>) returns (ok: bool)
      requires ArgsMatch(toolArgs, Deltas(seen)) && forall i :: i in keys <==> i in Indexes(Deltas(seen))
      ensures ok <==> forall i :: i in Indexes(Deltas(seen)) ==> parse(Checked(ArgsOf(Deltas(seen), i))).Some?
    {
      hide Trim, ArgsOf, Deltas;
      var k := 0;
      while k < |keys|
        invariant 0 <= k <= |keys|
        invariant forall j :: 0 <= j < k ==> parse(Checked(ArgsOf(Deltas(seen), keys[j]))).Some?
      {
        assert keys[k] in keys;
        assert ArgsAt(toolArgs, keys[k]) == ArgsOf(Deltas(seen), keys[k]);
        var raw := Trim(ArgsAt(toolArgs, keys[k]));
        if raw == "" { raw := "{}"; }
        if parse(raw).None? { return false; }
        k := k + 1;
      }
      ok := true;
    }
  }

  lemma TextStopIs(h: seq<Chunk>)
    ensures TextStop(h) == if Content(h) != "" then [BlockStop(0)] else []
  {
  }

  lemma NoIndexesIff(ds: seq<ToolDelta>)
    ensures |Indexes(ds)| == 0 <==> ds == []
    ensures Indexes(ds) == {} <==> ds == []
  {
    assert ds == [] || ds[0].index in Indexes(ds);
  }

  lemma NothingFromNoChoice(h: seq<Chunk>, ev: Chunk)
    requires ev.choices == []
    ensures TextEvents(h, ev) == [] && ToolEvents(Deltas(h), Offset(h + [ev]), ChunkTools(ev)) == []
  {
  }
}
