/** Chat-completion messages and their streamed chunks, and what a history of chunks says,
    independently of any translator state. */
module ChatWire {
  import opened Basics

  /** One entry of a delta's tool_calls; absent strings are empty. */
  datatype ToolDelta = ToolDelta(index: int, id: string, name: string, args: string)
  datatype Choice = Choice(index: int, content: string, tools: seq<ToolDelta>, finish: Option<string>)
  datatype Chunk = Chunk(id: string, choices: seq<Choice>)

  datatype ChatTool = ChatTool(kind: string, id: string, name: string, args: string)
  datatype ChatMessage = ChatMessage(text: string, tools: seq<ChatTool>, finish: string)

  // ---------- What a history of chunks has said so far ----------

  function ChunkContent(ev: Chunk): string {
    if ev.choices == [] then "" else ev.choices[0].content
  }

  function ChunkTools(ev: Chunk): seq<ToolDelta> {
    if ev.choices == [] then [] else ev.choices[0].tools
  }

  function Content(h: seq<Chunk>): string {
    if h == [] then "" else Content(h[..|h| - 1]) + ChunkContent(h[|h| - 1])
  }

  function Deltas(h: seq<Chunk>): seq<ToolDelta> {
    if h == [] then [] else Deltas(h[..|h| - 1]) + ChunkTools(h[|h| - 1])
  }

  /** The last finish reason seen. */
  function Finish(h: seq<Chunk>): Option<string> {
    if h == [] then None
    else
      var ev := h[|h| - 1];
      if ev.choices != [] && ev.choices[0].finish.Some? then ev.choices[0].finish
      else Finish(h[..|h| - 1])
  }

  function Indexes(ds: seq<ToolDelta>): set<int> { set d | d in ds :: d.index }

  /** All argument fragments of one tool, in order. */
  function ArgsOf(ds: seq<ToolDelta>, i: int): string {
    if ds == [] then ""
    else ArgsOf(ds[..|ds| - 1], i) + (if ds[|ds| - 1].index == i then ds[|ds| - 1].args else "")
  }

  /** The first delta of tool `i`. */
  function FirstOf(ds: seq<ToolDelta>, i: int): ToolDelta
    requires i in Indexes(ds)
    ensures FirstOf(ds, i) in ds && FirstOf(ds, i).index == i
  {
    if i in Indexes(ds[..|ds| - 1]) then FirstOf(ds[..|ds| - 1], i) else ds[|ds| - 1]
  }

  /** The last non-empty name given to tool `i`. */
  function NameOf(ds: seq<ToolDelta>, i: int): string {
    if ds == [] then ""
    else if ds[|ds| - 1].index == i && ds[|ds| - 1].name != "" then ds[|ds| - 1].name
    else NameOf(ds[..|ds| - 1], i)
  }

  /** The id under which tool `i` is announced: its first delta's, or one made up. */
  function IdOf(ds: seq<ToolDelta>, i: int): string
    requires i in Indexes(ds)
  {
    if Trim(FirstOf(ds, i).id) != "" then FirstOf(ds, i).id else MadeUpId(i)
  }

  function MadeUpId(i: int): string { "call_" + Decimal(i) }

  lemma MadeUpIdIsNotBlank(i: int)
    ensures Trim(MadeUpId(i)) != ""
  {
    TrimKeepsHead(MadeUpId(i));
  }

  /** Tool blocks are numbered after the text block, if there is one. */
  function Offset(h: seq<Chunk>): int { if Content(h) != "" then 1 else 0 }

  // ---------- Which chunks a translator accepts ----------

  /** Both translators reject several choices, a choice other than 0, and text that starts
      after a tool call. */
  predicate Acceptable(h: seq<Chunk>, ev: Chunk) {
    ev.choices == [] ||
    (&& |ev.choices| == 1 && ev.choices[0].index == 0
     && (ev.choices[0].content != "" && Content(h) == "" ==> Deltas(h) == []))
  }

  predicate Accepted(h: seq<Chunk>) {
    h == [] || (Accepted(h[..|h| - 1]) && Acceptable(h[..|h| - 1], h[|h| - 1]))
  }

  // ---------- Cuttings ----------

  /** Every delta of tool `i` belongs to `t`: the first carries the whole id and name, later
      ones repeat the name or leave it out, and the argument fragments add up. */
  ghost predicate CutsTool(ds: seq<ToolDelta>, i: int, t: ChatTool) {
    && i in Indexes(ds)
    && FirstOf(ds, i).id == t.id && FirstOf(ds, i).name == t.name
    && (forall d :: d in ds && d.index == i ==> d.name == "" || d.name == t.name)
    && ArgsOf(ds, i) == t.args
  }

  /** `h` is one way of cutting `m` into chunks, with text before tools. */
  ghost predicate Cuts(h: seq<Chunk>, m: ChatMessage) {
    && Accepted(h) && Content(h) == m.text && Finish(h) == Some(m.finish)
    && (forall d :: d in Deltas(h) ==> 0 <= d.index < |m.tools|)
    && (forall i :: 0 <= i < |m.tools| ==> CutsTool(Deltas(h), i, m.tools[i]))
  }

  lemma {:induction false} NameOfCut(ds: seq<ToolDelta>, i: int, name: string)
    requires i in Indexes(ds) && FirstOf(ds, i).name == name
    requires forall d :: d in ds && d.index == i ==> d.name == "" || d.name == name
    ensures NameOf(ds, i) == name
  {
    var init, last := ds[..|ds| - 1], ds[|ds| - 1];
    if i in Indexes(init) {
      NameOfCut(init, i, name);
    } else {
      NoNameOf(init, i);
      assert last in ds && FirstOf(ds, i) == last;
    }
  }

  lemma {:induction false} NoNameOf(ds: seq<ToolDelta>, i: int)
    requires i !in Indexes(ds)
    ensures NameOf(ds, i) == "" && ArgsOf(ds, i) == ""
  {
    if ds != [] {
      assert ds[|ds| - 1] in ds;
      NoNameOf(ds[..|ds| - 1], i);
    }
  }

  /** The tool indexes of a cutting are exactly the positions in the message. */
  lemma IndexesOfCut(h: seq<Chunk>, m: ChatMessage)
    requires Cuts(h, m)
    ensures forall i :: i in Indexes(Deltas(h)) <==> 0 <= i < |m.tools|
  {
    forall i ensures i in Indexes(Deltas(h)) <==> 0 <= i < |m.tools| {
      if 0 <= i < |m.tools| { assert CutsTool(Deltas(h), i, m.tools[i]); }
    }
  }

  /** The sorted tool indexes of a cutting: 0, 1, ..., n-1. */
  lemma OrderOfCut(h: seq<Chunk>, m: ChatMessage, order: seq<int>)
    requires Cuts(h, m) && Lists(order, Indexes(Deltas(h)))
    ensures order == seq(|m.tools|, i => i)
  {
    IndexesOfCut(h, m);
    var n := seq(|m.tools|, i => i);
    forall i ensures i in n <==> i in Indexes(Deltas(h)) {
      if 0 <= i < |m.tools| { assert n[i] == i; }
    }
    ListingIsUnique(order, n, Indexes(Deltas(h)));
  }

  lemma NothingSaid()
    ensures Content([]) == "" && Deltas([]) == []
  {
  }

  // ---------- Histories grow at the end ----------

  lemma {:induction false} HistorySnoc(h: seq<Chunk>, ev: Chunk)
    ensures Content(h + [ev]) == Content(h) + ChunkContent(ev)
    ensures Deltas(h + [ev]) == Deltas(h) + ChunkTools(ev)
    ensures Accepted(h + [ev]) <==> Accepted(h) && Acceptable(h, ev)
    ensures Finish(h + [ev]) == if ev.choices != [] && ev.choices[0].finish.Some? then ev.choices[0].finish
                                else Finish(h)
  {
    assert (h + [ev])[..|h|] == h;
  }

  lemma {:induction false} IndexesSnoc(ds: seq<ToolDelta>, d: ToolDelta)
    ensures Indexes(ds + [d]) == Indexes(ds) + {d.index}
  {
  }

  /** What one more delta changes about tool `i`. */
  lemma {:induction false} DeltasSnoc(ds: seq<ToolDelta>, d: ToolDelta, i: int)
    ensures i in Indexes(ds + [d]) <==> i in Indexes(ds) || i == d.index
    ensures ArgsOf(ds + [d], i) == if i == d.index then ArgsOf(ds, i) + d.args else ArgsOf(ds, i)
    ensures NameOf(ds + [d], i) == if i == d.index && d.name != "" then d.name else NameOf(ds, i)
    ensures i in Indexes(ds) ==> FirstOf(ds + [d], i) == FirstOf(ds, i)
    ensures i !in Indexes(ds) && i == d.index ==> FirstOf(ds + [d], i) == d
  {
    IndexesSnoc(ds, d);
    assert (ds + [d])[..|ds|] == ds;
  }

  lemma FirstOfNew(ds: seq<ToolDelta>, d: ToolDelta)
    ensures d.index !in Indexes(ds) ==>
              && d.index in Indexes(ds + [d])
              && IdOf(ds + [d], d.index) == if Trim(d.id) != "" then d.id else MadeUpId(d.index)
  {
    DeltasSnoc(ds, d, d.index);
  }

  /** No text starts once there are tools, so however a stream goes on, tool numbering never
      shifts. */
  lemma {:induction false} OffsetIsStable(h: seq<Chunk>, more: seq<Chunk>)
    requires Accepted(h + more) && Deltas(h) != []
    ensures Offset(h + more) == Offset(h) && Deltas(h) <= Deltas(h + more)
    decreases |more|
  {
    hide Content, Deltas, Acceptable, Accepted;
    if more == [] {
      assert h + more == h;
    } else {
      var init, ev := more[..|more| - 1], more[|more| - 1];
      assert h + more == h + init + [ev];
      HistorySnoc(h + init, ev);
      OffsetIsStable(h, init);
      StartsNoText(h + init, ev);
    }
  }

  lemma StartsNoText(h: seq<Chunk>, ev: Chunk)
    requires Acceptable(h, ev) && Deltas(h) != []
    ensures Offset(h + [ev]) == Offset(h)
  {
    HistorySnoc(h, ev);
  }

  // ---------- Output positions ----------

  /** A tool of index -1 would take the output index of the text. */
  predicate Apart(text: string, i: int) { text != "" ==> i != -1 }

  ghost predicate AllApart(text: string, ds: seq<ToolDelta>) { forall d :: d in ds ==> Apart(text, d.index) }

  /** The output indexes in use: 0 for text, and `off` past each tool's own index. */
  ghost function SlotKeys(text: string, keys: set<int>, off: int): set<int> {
    (if text != "" then {0} else {}) + set i | i in keys :: i + off
  }

  lemma SlotKeysAdd(text: string, keys: set<int>, off: int, i: int)
    requires Apart(text, i) && off == (if text != "" then 1 else 0)
    ensures SlotKeys(text, keys + {i}, off) == SlotKeys(text, keys, off) + {i + off}
    ensures i in keys ==> i + off in SlotKeys(text, keys, off)
    ensures i !in keys ==> i + off !in SlotKeys(text, keys, off)
  {
  }
}
