/** A client of the Anthropic event stream, which insists on the protocol and assembles the
    content blocks, and the streamed translation against the batch one. */
module ChatAnthropicRefinement {
  import opened Basics
  import opened ChatClient
  import opened ChatWire
  import opened ChatAnthropic

  datatype Slot =
    | TextSlot(acc: string, open: bool)
    | ToolSlot(id: string, name: string, json: string, open: bool)

  datatype Client = Client(started: bool, slots: map<int, Slot>, stopReason: Option<string>, finished: bool)

  const FRESH := Client(false, map[], None, false)

  function Put(c: Client, i: int, s: Slot): Option<Client> { Some(c.(slots := c.slots[i := s])) }

  /** One event, or None if it breaks the protocol: one opening event first; each block
      started once, before its deltas, and stopped once, after them; one message_delta when
      every block is stopped, then one message_stop, last. */
  function Accept(c: Client, e: Event): Option<Client> {
    if c.finished || c.started == e.MessageStart? || (c.stopReason.Some? && !e.MessageStop?) then None else
    match e
    case MessageStart => Some(c.(started := true))
    case BlockStart(i, TextStart) => if i in c.slots then None else Put(c, i, TextSlot("", true))
    case BlockStart(i, ToolStart(id, name)) => if i in c.slots then None else Put(c, i, ToolSlot(id, name, "", true))
    case BlockDelta(i, TextFragment(t)) =>
      if i in c.slots && c.slots[i].TextSlot? && c.slots[i].open
      then Put(c, i, TextSlot(c.slots[i].acc + t, true)) else None
    case BlockDelta(i, JsonFragment(j)) =>
      if i in c.slots && c.slots[i].ToolSlot? && c.slots[i].open
      then Put(c, i, c.slots[i].(json := c.slots[i].json + j)) else None
    case BlockStop(i) =>
      if i in c.slots && c.slots[i].open then Put(c, i, c.slots[i].(open := false)) else None
    case MessageDelta(reason) =>
      if forall i :: i in c.slots ==> !c.slots[i].open then Some(c.(stopReason := Some(reason))) else None
    case MessageStop => if c.stopReason.Some? then Some(c.(finished := true)) else None
  }

  // ---------- The client in step with the translator ----------

  /** The client holds the text and every tool with its fragments so far; the text block is
      stopped if `textDone`, the tools in `closed` are stopped. */
  ghost predicate InStep(c: Client, text: string, ds: seq<ToolDelta>, textDone: bool, closed: set<int>) {
    var off := if text != "" then 1 else 0;
    && c.started && !c.finished && c.stopReason.None?
    && c.slots.Keys == SlotKeys(text, Indexes(ds), off)
    && (text != "" ==> 0 in c.slots && c.slots[0] == TextSlot(text, !textDone))
    && forall i :: i in Indexes(ds) ==>
         && i + off in c.slots
         && c.slots[i + off] == ToolSlot(IdOf(ds, i), FirstOf(ds, i).name, ArgsOf(ds, i), i !in closed)
  }

  /** Tool `i` says the same in both histories. */
  ghost predicate SameTool(ds: seq<ToolDelta>, es: seq<ToolDelta>, i: int)
    requires i in Indexes(ds) && i in Indexes(es)
  {
    IdOf(es, i) == IdOf(ds, i) && FirstOf(es, i).name == FirstOf(ds, i).name && ArgsOf(es, i) == ArgsOf(ds, i)
  }

  /** One tool slot is written, the others stay in step. */
  lemma PutTool(c: Client, text: string, ds: seq<ToolDelta>, es: seq<ToolDelta>, off: int, i: int)
    requires InStep(c, text, ds, false, {}) && Apart(text, i) && off == (if text != "" then 1 else 0)
    requires Indexes(es) == Indexes(ds) + {i}
    requires forall j :: j in Indexes(ds) && j != i ==> SameTool(ds, es, j)
    ensures InStep(c.(slots := c.slots[i + off := ToolSlot(IdOf(es, i), FirstOf(es, i).name, ArgsOf(es, i), true)]),
                   text, es, false, {})
  {
    hide SlotKeys, Trim, ArgsOf, FirstOf, IdOf, Indexes, SameTool;
    SlotKeysAdd(text, Indexes(ds), off, i);
    var c1 := c.(slots := c.slots[i + off := ToolSlot(IdOf(es, i), FirstOf(es, i).name, ArgsOf(es, i), true)]);
    assert c1.slots.Keys == SlotKeys(text, Indexes(es), off);
    forall j | j in Indexes(es)
      ensures j + off in c1.slots
      ensures c1.slots[j + off] == ToolSlot(IdOf(es, j), FirstOf(es, j).name, ArgsOf(es, j), j !in {})
    {
      if j != i { SameSlot(c, text, ds, es, off, j); }
    }
  }

  lemma SameSlot(c: Client, text: string, ds: seq<ToolDelta>, es: seq<ToolDelta>, off: int, j: int)
    requires InStep(c, text, ds, false, {}) && off == (if text != "" then 1 else 0)
    requires j in Indexes(ds) && j in Indexes(es) && SameTool(ds, es, j)
    ensures j + off in c.slots
    ensures c.slots[j + off] == ToolSlot(IdOf(es, j), FirstOf(es, j).name, ArgsOf(es, j), true)
  {
    hide SlotKeys, Trim, ArgsOf, FirstOf, IdOf, Indexes;
  }

  /** A delta only changes the tool it names. */
  lemma OthersSame(ds: seq<ToolDelta>, d: ToolDelta)
    ensures Indexes(ds + [d]) == Indexes(ds) + {d.index}
    ensures forall j :: j in Indexes(ds) && j != d.index ==> SameTool(ds, ds + [d], j)
  {
    hide Trim, ArgsOf, FirstOf, IdOf;
    IndexesSnoc(ds, d);
    forall j | j in Indexes(ds) && j != d.index ensures SameTool(ds, ds + [d], j) {
      DeltasSnoc(ds, d, j);
      OldId(ds, d, j);
    }
  }

  lemma StartAllowed(c: Client, text: string, ds: seq<ToolDelta>, off: int, i: int, s: Start)
    requires InStep(c, text, ds, false, {}) && Apart(text, i) && i !in Indexes(ds)
             && off == (if text != "" then 1 else 0)
    requires s.ToolStart?
    ensures Accept(c, BlockStart(i + off, s)) == Put(c, i + off, ToolSlot(s.id, s.name, "", true))
  {
    hide SlotKeys, ArgsOf, FirstOf, IdOf, Indexes;
    SlotKeysAdd(text, Indexes(ds), off, i);
  }

  lemma AcceptStart(c: Client, text: string, ds: seq<ToolDelta>, off: int, d: ToolDelta)
    requires InStep(c, text, ds, false, {}) && Apart(text, d.index) && d.index !in Indexes(ds)
             && off == (if text != "" then 1 else 0)
    ensures d.index in Indexes(ds + [d])
    ensures var r := Accept(c, BlockStart(d.index + off, ToolStart(IdOf(ds + [d], d.index), d.name)));
            r.Some? && InStep(r.value, text, ds + [d.(args := "")], false, {})
  {
    hide SlotKeys, Trim, ArgsOf, FirstOf, IdOf, SameTool, Indexes, InStep, Accept;
    var e := d.(args := "");
    OthersSame(ds, e);
    SameId(ds, d);
    DeltasSnoc(ds, e, d.index);
    NoNameOf(ds, d.index);
    StartAllowed(c, text, ds, off, d.index, ToolStart(IdOf(ds + [d], d.index), d.name));
    assert ArgsOf(ds + [e], d.index) == "";
    PutTool(c, text, ds, ds + [e], off, d.index);
  }

  lemma SameId(ds: seq<ToolDelta>, d: ToolDelta)
    requires d.index !in Indexes(ds)
    ensures d.index in Indexes(ds + [d]) && d.index in Indexes(ds + [d.(args := "")])
    ensures IdOf(ds + [d], d.index) == IdOf(ds + [d.(args := "")], d.index)
    ensures FirstOf(ds + [d], d.index).name == d.name && FirstOf(ds + [d.(args := "")], d.index).name == d.name
  {
    hide Trim;
    DeltasSnoc(ds, d, d.index);
    DeltasSnoc(ds, d.(args := ""), d.index);
  }

  lemma OldId(ds: seq<ToolDelta>, d: ToolDelta, i: int)
    requires i in Indexes(ds)
    ensures i in Indexes(ds + [d]) && IdOf(ds + [d], i) == IdOf(ds, i) && FirstOf(ds + [d], i) == FirstOf(ds, i)
  {
    hide Trim;
    DeltasSnoc(ds, d, i);
  }

  /** A fragment for a tool that has been started. */
  lemma AcceptJson(c: Client, text: string, ds: seq<ToolDelta>, off: int, d: ToolDelta)
    requires InStep(c, text, ds, false, {}) && d.index in Indexes(ds) && off == (if text != "" then 1 else 0)
    ensures var r := Accept(c, BlockDelta(d.index + off, JsonFragment(d.args)));
            r.Some? && InStep(r.value, text, ds + [d], false, {})
  {
    hide SlotKeys, Trim, ArgsOf, FirstOf, IdOf, SameTool, Indexes;
    OthersSame(ds, d);
    OldId(ds, d, d.index);
    DeltasSnoc(ds, d, d.index);
    PutTool(c, text, ds, ds + [d], off, d.index);
  }

  /** Splitting a delta into its announcement and its fragment says the same. */
  lemma SplitDelta(c: Client, text: string, ds: seq<ToolDelta>, d: ToolDelta)
    requires InStep(c, text, ds + [d.(args := "")] + [d], false, {}) && d.index !in Indexes(ds)
    ensures InStep(c, text, ds + [d], false, {})
  {
    hide SlotKeys, Trim, ArgsOf, FirstOf, IdOf;
    var e := d.(args := "");
    IndexesSnoc(ds, d);
    IndexesSnoc(ds, e);
    IndexesSnoc(ds + [e], d);
    assert Indexes(ds + [e] + [d]) == Indexes(ds + [d]);
    SameId(ds, d);
    forall i | i in Indexes(ds + [d])
      ensures IdOf(ds + [e] + [d], i) == IdOf(ds + [d], i)
      ensures FirstOf(ds + [e] + [d], i).name == FirstOf(ds + [d], i).name
      ensures ArgsOf(ds + [e] + [d], i) == ArgsOf(ds + [d], i)
    {
      DeltasSnoc(ds, e, i);
      DeltasSnoc(ds, d, i);
      DeltasSnoc(ds + [e], d, i);
      OldId(ds + [e], d, i);
      assert ArgsOf(ds, i) + "" == ArgsOf(ds, i);
      if i in Indexes(ds) { OldId(ds, e, i); OldId(ds, d, i); }
    }
  }

  /** A delta that says nothing new. */
  lemma SilentDelta(c: Client, text: string, ds: seq<ToolDelta>, d: ToolDelta)
    requires InStep(c, text, ds, false, {}) && d.index in Indexes(ds) && d.args == ""
    ensures InStep(c, text, ds + [d], false, {})
  {
    hide SlotKeys, Trim, ArgsOf, FirstOf, IdOf;
    IndexesSnoc(ds, d);
    assert Indexes(ds + [d]) == Indexes(ds);
    forall i | i in Indexes(ds)
      ensures IdOf(ds + [d], i) == IdOf(ds, i) && FirstOf(ds + [d], i) == FirstOf(ds, i)
      ensures ArgsOf(ds + [d], i) == ArgsOf(ds, i)
    {
      DeltasSnoc(ds, d, i);
      OldId(ds, d, i);
      assert ArgsOf(ds, i) + "" == ArgsOf(ds, i);
    }
  }

  lemma ReadToolEvent(c: Client, text: string, ds: seq<ToolDelta>, off: int, d: ToolDelta)
    requires InStep(c, text, ds, false, {}) && Apart(text, d.index) && off == (if text != "" then 1 else 0)
    ensures var r := Read(Accept, c, ToolEvent(ds, off, d));
            r.Some? && InStep(r.value, text, ds + [d], false, {})
  {
    hide Trim, Read, FirstOf, IdOf, InStep, Accept;
    IndexesSnoc(ds, d);
    var e := d.(args := "");
    var started: seq<Event> := if d.index in Indexes(ds) then []
                               else [BlockStart(d.index + off, ToolStart(IdOf(ds + [d], d.index), d.name))];
    var frag: seq<Event> := if d.args != "" then [BlockDelta(d.index + off, JsonFragment(d.args))] else [];
    assert ToolEvent(ds, off, d) == started + frag;
    ReadConcat(Accept, c, started, frag);
    if d.index in Indexes(ds) {
      ReadOne(Accept, c, BlockDelta(d.index + off, JsonFragment(d.args)));
      if d.args != "" { AcceptJson(c, text, ds, off, d); } else { SilentDelta(c, text, ds, d); }
    } else {
      ReadOne(Accept, c, started[0]);
      AcceptStart(c, text, ds, off, d);
      var c1 := Read(Accept, c, started).value;
      ReadOne(Accept, c1, BlockDelta(d.index + off, JsonFragment(d.args)));
      if d.args != "" {
        IndexesSnoc(ds, e);
        AcceptJson(c1, text, ds + [e], off, d);
        SplitDelta(Read(Accept, c1, frag).value, text, ds, d);
      } else {
        assert e == d;
      }
    }
  }

  lemma {:induction false} ReadToolEvents(c: Client, text: string, ds: seq<ToolDelta>, off: int, more: seq<ToolDelta>)
    requires InStep(c, text, ds, false, {}) && AllApart(text, more) && off == (if text != "" then 1 else 0)
    ensures var r := Read(Accept, c, ToolEvents(ds, off, more));
            r.Some? && InStep(r.value, text, ds + more, false, {})
  {
    hide InStep, Accept, ToolEvent;
    if more == [] {
      assert ds + more == ds;
    } else {
      var init, d := more[..|more| - 1], more[|more| - 1];
      ReadToolEvents(c, text, ds, off, init);
      ReadConcat(Accept, c, ToolEvents(ds, off, init), ToolEvent(ds + init, off, d));
      assert d in more;
      ReadToolEvent(Read(Accept, c, ToolEvents(ds, off, init)).value, text, ds + init, off, d);
      assert ds + more == ds + init + [d];
    }
  }

  lemma AcceptText(c: Client, text: string, ds: seq<ToolDelta>, t: string)
    requires text != "" && InStep(c, text, ds, false, {})
    ensures var r := Accept(c, BlockDelta(0, TextFragment(t))); r.Some? && InStep(r.value, text + t, ds, false, {})
  {
    hide IdOf, FirstOf, ArgsOf;
    assert text + t != "";
  }

  lemma AcceptFirstText(c: Client, t: string)
    requires t != "" && InStep(c, "", [], false, {})
    ensures var r := Read(Accept, c, [BlockStart(0, TextStart), BlockDelta(0, TextFragment(t))]);
            r.Some? && InStep(r.value, t, [], false, {})
  {
    ReadTwo(Accept, c, BlockStart(0, TextStart), BlockDelta(0, TextFragment(t)));
    assert "" + t == t;
  }

  lemma ReadTextEvents(c: Client, h: seq<Chunk>, ev: Chunk)
    requires InStep(c, Content(h), Deltas(h), false, {}) && Acceptable(h, ev)
    ensures var r := Read(Accept, c, TextEvents(h, ev));
            r.Some? && InStep(r.value, Content(h + [ev]), Deltas(h), false, {})
  {
    hide Read, Content, Deltas, InStep, Accept;
    HistorySnoc(h, ev);
    var t := ChunkContent(ev);
    var frag := BlockDelta(0, TextFragment(t));
    ReadOne(Accept, c, frag);
    if t == "" {
      assert Content(h) + t == Content(h);
    } else if Content(h) == "" {
      assert [BlockStart(0, TextStart)] + [frag] == [BlockStart(0, TextStart), frag];
      assert Content(h) + t == t;
      AcceptFirstText(c, t);
    } else {
      assert [] + [frag] == [frag];
      AcceptText(c, Content(h), Deltas(h), t);
    }
  }

  lemma OpeningInStep()
    ensures var r := Read(Accept, FRESH, [MessageStart]); r.Some? && InStep(r.value, "", [], false, {})
  {
    ReadOne(Accept, FRESH, MessageStart);
  }

  /** Reading everything the translator wrote for a history leaves the client in step. */
  lemma {:induction false} ReadEvents(h: seq<Chunk>)
    requires Accepted(h) && AllApart(Content(h), Deltas(h))
    ensures var r := Read(Accept, FRESH, Events(h)); r.Some? && InStep(r.value, Content(h), Deltas(h), false, {})
  {
    hide InStep, Accept, ToolEvents, TextEvents;
    if h == [] {
      OpeningInStep();
    } else {
      var init, ev := h[..|h| - 1], h[|h| - 1];
      assert h == init + [ev];
      HistorySnoc(init, ev);
      EventsSnoc(init, ev);
      ReadEvents(init);
      var c := Read(Accept, FRESH, Events(init)).value;
      ReadTextEvents(c, init, ev);
      ReadConcat(Accept, FRESH, Events(init), TextEvents(init, ev));
      var c1 := Read(Accept, c, TextEvents(init, ev)).value;
      var tools := ToolEvents(Deltas(init), Offset(h), ChunkTools(ev));
      ReadToolEvents(c1, Content(h), Deltas(init), Offset(h), ChunkTools(ev));
      ReadConcat(Accept, FRESH, Events(init) + TextEvents(init, ev), tools);
    }
  }

  // ---------- Tools in the place of the text ----------

  lemma StartInPlaceOfText(c: Client, text: string, ds: seq<ToolDelta>, d: ToolDelta)
    requires InStep(c, text, ds, false, {}) && text != "" && d.index == -1
    ensures Read(Accept, c, ToolEvent(ds, 1, d)) == None
  {
    hide Trim, Read, FirstOf, IdOf, ArgsOf;
    FirstOfNew(ds, d);
    assert -1 !in Indexes(ds);
    var started := BlockStart(-1 + 1, ToolStart(IdOf(ds + [d], -1), d.name));
    var frag: seq<Event> := if d.args != "" then [BlockDelta(-1 + 1, JsonFragment(d.args))] else [];
    ReadConcat(Accept, c, [started], frag);
    ReadOne(Accept, c, started);
  }

  lemma {:induction false} ToolEventsClash(c: Client, text: string, ds: seq<ToolDelta>, more: seq<ToolDelta>)
    requires InStep(c, text, ds, false, {}) && text != "" && !AllApart(text, more)
    ensures Read(Accept, c, ToolEvents(ds, 1, more)) == None
  {
    hide InStep, Accept, ToolEvent, Read;
    var init, d := more[..|more| - 1], more[|more| - 1];
    assert more == init + [d];
    ReadConcat(Accept, c, ToolEvents(ds, 1, init), ToolEvent(ds + init, 1, d));
    if AllApart(text, init) {
      ReadToolEvents(c, text, ds, 1, init);
      StartInPlaceOfText(Read(Accept, c, ToolEvents(ds, 1, init)).value, text, ds + init, d);
    } else {
      ToolEventsClash(c, text, ds, init);
    }
  }

  /** A tool of index -1 after text is started at the block index of the text. */
  lemma {:induction false} ClashIsRefused(h: seq<Chunk>)
    requires Accepted(h) && !AllApart(Content(h), Deltas(h))
    ensures Read(Accept, FRESH, Events(h)) == None
  {
    hide InStep, Accept, ToolEvents, TextEvents, Offset, Content, Deltas, Read, Events;
    NothingSaid();
    var init, ev := h[..|h| - 1], h[|h| - 1];
    assert h == init + [ev];
    HistorySnoc(init, ev);
    EventsSnoc(init, ev);
    var text, tools := TextEvents(init, ev), ToolEvents(Deltas(init), Offset(h), ChunkTools(ev));
    ReadConcat(Accept, FRESH, Events(init), text);
    ReadConcat(Accept, FRESH, Events(init) + text, tools);
    if AllApart(Content(init), Deltas(init)) {
      ReadEvents(init);
      var c := Read(Accept, FRESH, Events(init)).value;
      ReadTextEvents(c, init, ev);
      OffsetOf(h);
      ToolEventsClash(Read(Accept, c, text).value, Content(h), Deltas(init), ChunkTools(ev));
    } else {
      ClashIsRefused(init);
    }
  }

  // ---------- Closing ----------

  lemma ReadTextStop(c: Client, h: seq<Chunk>)
    requires InStep(c, Content(h), Deltas(h), false, {})
    ensures var r := Read(Accept, c, TextStop(h)); r.Some? && InStep(r.value, Content(h), Deltas(h), true, {})
  {
    hide IdOf, ArgsOf, FirstOf, Content, Deltas, Read, SlotKeys;
    ReadOne(Accept, c, BlockStop(0));
    if Content(h) != "" { assert Accept(c, BlockStop(0)).value.slots.Keys == c.slots.Keys; }
  }

  lemma ReadStop(c: Client, text: string, ds: seq<ToolDelta>, off: int, closed: set<int>, i: int)
    requires InStep(c, text, ds, true, closed) && off == (if text != "" then 1 else 0)
    requires i in Indexes(ds) && i !in closed
    ensures var r := Accept(c, BlockStop(i + off)); r.Some? && InStep(r.value, text, ds, true, closed + {i})
  {
    hide IdOf, ArgsOf, FirstOf, SlotKeys, Indexes;
    assert i + off in c.slots && c.slots[i + off].open;
    assert Accept(c, BlockStop(i + off)).value.slots.Keys == c.slots.Keys;
  }

  lemma {:induction false} ReadStops(c: Client, text: string, ds: seq<ToolDelta>, off: int, order: seq<int>)
    requires InStep(c, text, ds, true, {}) && off == (if text != "" then 1 else 0)
    requires Increasing(order) && forall i :: i in order ==> i in Indexes(ds)
    ensures var r := Read(Accept, c, Stops(order, off)); r.Some? && InStep(r.value, text, ds, true, Elements(order))
  {
    hide InStep, Accept, Elements, Read;
    if order == [] {
      ReadOne(Accept, c, MessageStart);
      assert Elements([]) == {} by { NoElements(); }
    } else {
      var init, i := order[..|order| - 1], order[|order| - 1];
      assert i in order && i !in init;
      ReadStops(c, text, ds, off, init);
      var c1 := Read(Accept, c, Stops(init, off)).value;
      assert i !in Elements(init) by { ElementsOf(init, i); }
      ReadStop(c1, text, ds, off, Elements(init), i);
      ReadConcat(Accept, c, Stops(init, off), [BlockStop(i + off)]);
      ReadOne(Accept, c1, BlockStop(i + off));
      ElementsSnoc(init, i);
      assert order == init + [i];
    }
  }

  lemma NoElements()
    ensures Elements([]) == {}
  {
  }

  lemma ElementsOf(s: seq<int>, i: int)
    ensures i in Elements(s) <==> i in s
  {
  }

  lemma ReadEnd(c: Client, h: seq<Chunk>, reason: string)
    requires InStep(c, Content(h), Deltas(h), true, Indexes(Deltas(h)))
    ensures Read(Accept, c, [MessageDelta(reason), MessageStop]) ==
              Some(c.(stopReason := Some(reason), finished := true))
  {
    hide IdOf, ArgsOf, FirstOf, Content, Deltas, Read;
    ReadTwo(Accept, c, MessageDelta(reason), MessageStop);
    forall k | k in c.slots ensures !c.slots[k].open {
      assert k in SlotKeys(Content(h), Indexes(Deltas(h)), Offset(h));
    }
  }

  /** The blocks as the client holds them when the message stops. */
  ghost predicate Assembled(c: Client, h: seq<Chunk>) {
    && c.slots.Keys == SlotKeys(Content(h), Indexes(Deltas(h)), Offset(h))
    && (Content(h) != "" ==> 0 in c.slots && c.slots[0] == TextSlot(Content(h), false))
    && forall i :: i in Indexes(Deltas(h)) ==>
         && i + Offset(h) in c.slots
         && c.slots[i + Offset(h)] ==
              ToolSlot(IdOf(Deltas(h), i), FirstOf(Deltas(h), i).name, ArgsOf(Deltas(h), i), false)
  }

  lemma AssembledFromStep(c: Client, h: seq<Chunk>)
    requires InStep(c, Content(h), Deltas(h), true, Indexes(Deltas(h)))
    ensures Assembled(c, h)
  {
    hide IdOf, ArgsOf, FirstOf, Content, Deltas, SlotKeys;
  }

  /** Event grammar. A completed stream, of any accepted history, is read to its end by the client,
      which then holds each block's fragments put together and the stop reason, if and only if it
      has no tool of index -1 beside text; with one the client refuses it. */
  lemma StreamsAreGrammatical(h: seq<Chunk>, order: seq<int>)
    requires Accepted(h) && Finish(h).Some? && Lists(order, Indexes(Deltas(h)))
    ensures var r := Read(Accept, FRESH, Events(h) + FinalEvents(h, order));
            && (r.Some? <==> AllApart(Content(h), Deltas(h)))
            && (r.Some? ==>
                  r.value.finished && r.value.stopReason == Some(StreamStopReason(h)) && Assembled(r.value, h))
            && (r.Some? ==> Reports(Deltas(h) != [], Finish(h).value, r.value.stopReason.value))
  {
    hide InStep, Content, Deltas, Read, Events, FinalEvents, Accept, Accepted, Finish, Assembled, AllApart;
    ReadConcat(Accept, FRESH, Events(h), FinalEvents(h, order));
    ReasonIsReported(h, order, []);
    if AllApart(Content(h), Deltas(h)) {
      ReadEvents(h);
      ReadFinal(Read(Accept, FRESH, Events(h)).value, h, order);
    } else {
      ClashIsRefused(h);
    }
  }

  lemma ReadFinal(c: Client, h: seq<Chunk>, order: seq<int>)
    requires InStep(c, Content(h), Deltas(h), false, {}) && Finish(h).Some? && Lists(order, Indexes(Deltas(h)))
    ensures var r := Read(Accept, c, FinalEvents(h, order));
            && r.Some? && r.value.finished && r.value.stopReason == Some(StreamStopReason(h))
            && Assembled(r.value, h)
  {
    hide InStep, Content, Deltas, Read, Accept, Finish, Offset, TextStop, Stops, StreamStopReason;
    ReadTextStop(c, h);
    var c1 := Read(Accept, c, TextStop(h)).value;
    OffsetOf(h);
    ReadStops(c1, Content(h), Deltas(h), Offset(h), order);
    assert Elements(order) == Indexes(Deltas(h));
    var c2 := Read(Accept, c1, Stops(order, Offset(h))).value;
    var end := [MessageDelta(StreamStopReason(h)), MessageStop];
    ReadEnd(c2, h, StreamStopReason(h));
    ReadConcat(Accept, c, TextStop(h), Stops(order, Offset(h)));
    ReadConcat(Accept, c, TextStop(h) + Stops(order, Offset(h)), end);
    AssembledFromStep(c2, h);
    AssembledSame(c2, Read(Accept, c2, end).value, h);
  }

  lemma OffsetOf(h: seq<Chunk>)
    ensures Offset(h) == if Content(h) != "" then 1 else 0
  {
  }

  lemma AssembledSame(c: Client, c': Client, h: seq<Chunk>)
    requires Assembled(c, h) && c'.slots == c.slots
    ensures Assembled(c', h)
  {
    hide IdOf, ArgsOf, FirstOf, Content, Deltas, SlotKeys, Offset;
  }

  // ---------- Against the batch translation ----------

  function BlockOf<V>(s: Slot, parse: string -> Option<V>): Option<Block<V>> {
    match s
    case TextSlot(acc, _) => Some(TextBlock(acc))
    case ToolSlot(id, name, json, _) =>
      var input := parse(if json == "" then "{}" else json);
      if input.None? then None else Some(ToolUse(id, name, input.value))
  }

  /** What the client makes of its blocks, in index order: None if some tool input is not JSON. */
  ghost predicate Yields<V>(c: Client, keys: seq<int>, parse: string -> Option<V>, content: seq<Block<V>>) {
    && |content| == |keys|
    && forall k :: 0 <= k < |keys| ==> keys[k] in c.slots && BlockOf(c.slots[keys[k]], parse) == Some(content[k])
  }

  /** A tool call on which both translations agree: the batch one accepts it, its id is not
      blank, and its trimmed arguments, which the stream checks, are JSON too. */
  ghost predicate AgreeableTool<V>(t: ChatTool, parse: string -> Option<V>) {
    WellFormed(t, parse) && Trim(t.id) != "" && parse(Checked(t.args)).Some?
  }

  ghost predicate Agreeable<V>(m: ChatMessage, parse: string -> Option<V>) {
    && (m.text != "" || m.tools != [])
    && forall i :: 0 <= i < |m.tools| ==> AgreeableTool(m.tools[i], parse)
  }

  /** The block indexes of a cutting, sorted: 0, 1, 2, ... */
  lemma KeysOfCut(c: Client, h: seq<Chunk>, m: ChatMessage, keys: seq<int>)
    requires Cuts(h, m) && Assembled(c, h) && Lists(keys, c.slots.Keys)
    ensures keys == seq(|m.tools| + Offset(h), i => i)
  {
    hide Content, Deltas, Accepted, Finish, IdOf, ArgsOf, FirstOf, CutsTool;
    IndexesOfCut(h, m);
    var n := seq(|m.tools| + Offset(h), i => i);
    forall k ensures k in n <==> k in c.slots.Keys {
      if 0 <= k < |m.tools| + Offset(h) {
        assert n[k] == k;
        assert (k == 0 && Content(h) != "") || (k - Offset(h)) in Indexes(Deltas(h));
      }
    }
    ListingIsUnique(keys, n, c.slots.Keys);
  }

  /** One tool of a cutting. */
  lemma ToolAgrees<V>(c: Client, h: seq<Chunk>, m: ChatMessage, i: nat, parse: string -> Option<V>)
    requires Cuts(h, m) && Assembled(c, h) && i < |m.tools|
    ensures i in Indexes(Deltas(h)) && i + Offset(h) in c.slots
    ensures (&& parse(Checked(ArgsOf(Deltas(h), i))).Some? && ToolToBlock(m.tools[i], parse).Ok?
             && BlockOf(c.slots[i + Offset(h)], parse) == Some(ToolToBlock(m.tools[i], parse).value))
            <==> AgreeableTool(m.tools[i], parse)
  {
    hide Trim, ArgsOf, FirstOf, Content, Finish, Accepted, Deltas, Offset, SlotKeys;
    assert CutsTool(Deltas(h), i, m.tools[i]);
    MadeUpIdIsNotBlank(i);
  }

  /** An assembled client holds exactly the batch content and stop reason if and only if the
      message is not empty and all its tool calls are agreeable. */
  lemma AssembledRefinesBatch<V>(h: seq<Chunk>, m: ChatMessage, parse: string -> Option<V>, c: Client, keys: seq<int>)
    requires Cuts(h, m) && Assembled(c, h) && c.stopReason == Some(StreamStopReason(h)) && Lists(keys, c.slots.Keys)
    ensures (&& Completable(h, parse) && AllToolsTranslate(m.tools, parse)
             && Yields(c, keys, parse, BatchContent(m, parse)) && c.stopReason == Some(BatchStopReason(m)))
            <==> Agreeable(m, parse)
  {
    hide Trim, ArgsOf, FirstOf, Content, Finish, Accepted, Deltas, ToolToBlock, BlockOf, CutsTool, SlotKeys, Checked,
         Assembled, AgreeableTool;
    IndexesOfCut(h, m);
    KeysOfCut(c, h, m, keys);
    StopReasonOfCut(h, m);
    TextOfAssembled(c, h, parse);
    if AllToolsTranslate(m.tools, parse) {
      var b := BatchContent(m, parse);
      assert m.text != "" ==> b[0] == TextBlock(m.text);
      forall i: nat | i < |m.tools|
        ensures (&& parse(Checked(ArgsOf(Deltas(h), i))).Some?
                 && keys[i + Offset(h)] in c.slots
                 && BlockOf(c.slots[keys[i + Offset(h)]], parse) == Some(b[i + Offset(h)]))
                <==> AgreeableTool(m.tools[i], parse)
      {
        ToolAgrees(c, h, m, i, parse);
        assert b[i + Offset(h)] == ToolToBlock(m.tools[i], parse).value;
      }
      if Agreeable(m, parse) {
        forall k | 0 <= k < |keys| ensures keys[k] in c.slots && BlockOf(c.slots[keys[k]], parse) == Some(b[k]) {
          if k >= Offset(h) { assert AgreeableTool(m.tools[k - Offset(h)], parse); }
        }
      } else if m.text != "" || m.tools != [] {
        var i :| 0 <= i < |m.tools| && !AgreeableTool(m.tools[i], parse);
        assert i in Indexes(Deltas(h));
      }
    } else {
      var i :| 0 <= i < |m.tools| && ToolToBlock(m.tools[i], parse).Err?;
      assert !AgreeableTool(m.tools[i], parse) by { NotAgreeable(m.tools[i], parse); }
    }
  }

  /** A client that reads the whole stream to its end and then holds, in index order, exactly the
      batch content, with the batch stop reason. */
  ghost predicate ReadsAsBatch<V>(events: seq<Event>, m: ChatMessage, parse: string -> Option<V>)
    requires AllToolsTranslate(m.tools, parse)
  {
    var r := Read(Accept, FRESH, events);
    && r.Some? && r.value.finished && r.value.stopReason == Some(BatchStopReason(m))
    && Yields(r.value, InOrder(r.value.slots.Keys), parse, BatchContent(m, parse))
  }

  /** For every way of cutting `m` into chunks, both translations succeed and a client that reads
      the streamed events ends with exactly the batch content and stop reason, if and only if the
      message is not empty and all its tool calls are agreeable. */
  lemma StreamRefinesBatch<V>(h: seq<Chunk>, m: ChatMessage, parse: string -> Option<V>, order: seq<int>)
    requires Cuts(h, m) && Lists(order, Indexes(Deltas(h)))
    ensures (&& Completable(h, parse) && AllToolsTranslate(m.tools, parse)
             && ReadsAsBatch(Events(h) + FinalEvents(h, order), m, parse))
            <==> Agreeable(m, parse)
  {
    hide Read, Events, FinalEvents, Cuts, Assembled, Agreeable, Completable, Yields, Content, Deltas, Finish;
    CutsAreAccepted(h, m);
    StreamsAreGrammatical(h, order);
    var c := Read(Accept, FRESH, Events(h) + FinalEvents(h, order)).value;
    AssembledRefinesBatch(h, m, parse, c, InOrder(c.slots.Keys));
  }

  lemma CutsAreAccepted(h: seq<Chunk>, m: ChatMessage)
    requires Cuts(h, m)
    ensures Accepted(h) && AllApart(Content(h), Deltas(h)) && Finish(h).Some?
  {
    hide Content, Deltas, Finish, Accepted, CutsTool;
  }

  lemma NotAgreeable<V>(t: ChatTool, parse: string -> Option<V>)
    requires ToolToBlock(t, parse).Err?
    ensures !AgreeableTool(t, parse)
  {
  }

  lemma StopReasonOfCut(h: seq<Chunk>, m: ChatMessage)
    requires Cuts(h, m)
    ensures StreamStopReason(h) == BatchStopReason(m)
  {
    hide Content, Deltas, Finish, Accepted, ArgsOf, FirstOf;
    IndexesOfCut(h, m);
    NoIndexesIff(Deltas(h));
    if m.tools != [] { assert 0 in Indexes(Deltas(h)); }
    if Deltas(h) != [] { assert Deltas(h)[0].index in Indexes(Deltas(h)); }
  }

  lemma TextOfAssembled<V>(c: Client, h: seq<Chunk>, parse: string -> Option<V>)
    requires Assembled(c, h)
    ensures Content(h) != "" ==> 0 in c.slots && BlockOf(c.slots[0], parse) == Some(TextBlock(Content(h)))
  {
    hide Content, Deltas, IdOf, ArgsOf, FirstOf;
  }
}
