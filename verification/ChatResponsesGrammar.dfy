/** A client of the Responses event stream that insists on the protocol, and the proof that it
    accepts every stream the translator completes. */
module ChatResponsesGrammar {
  import opened Basics
  import opened ChatClient
  import opened ChatWire
  import opened ChatResponses

  /** What a client knows of one output index. */
  datatype Slot =
    | TextOpen(acc: string)
    | TextEnded(acc: string)
    | CallOpen(id: string, acc: string)
    | CallEnded(id: string, acc: string, args: string)
    | Closed

  datatype Client = Client(created: bool, slots: map<int, Slot>, done: seq<Item>, finished: bool)

  const FRESH := Client(false, map[], [], false)

  /** The final arguments of a call, from all its fragments. */
  function FinalArgs(acc: string, status: string): string {
    if Trim(acc) == "" && status == "completed" then "{}" else Trim(acc)
  }

  function Put(c: Client, i: int, s: Slot): Option<Client> { Some(c.(slots := c.slots[i := s])) }

  /** One event, or None if it breaks the protocol: one opening event first; each index added
      once, before its deltas and done events; done text is the concatenation of its deltas and
      done arguments the final arguments; each item done once; one terminal event, last, when
      everything is closed, carrying the finished items. */
  function Accept(c: Client, e: Event): Option<Client> {
    if c.finished || (c.created == e.Created?) then None else
    match e
    case Created(_) => Some(c.(created := true))
    case TextAdded => if 0 in c.slots then None else Put(c, 0, TextOpen(""))
    case TextDelta(t) =>
      if 0 in c.slots && c.slots[0].TextOpen? then Put(c, 0, TextOpen(c.slots[0].acc + t)) else None
    case TextDone(t) =>
      if 0 in c.slots && c.slots[0] == TextOpen(t) then Put(c, 0, TextEnded(t)) else None
    case CallAdded(i, id, _) => if i in c.slots then None else Put(c, i, CallOpen(id, ""))
    case ArgsDelta(i, a) =>
      if i in c.slots && c.slots[i].CallOpen? then Put(c, i, CallOpen(c.slots[i].id, c.slots[i].acc + a)) else None
    case ArgsDone(i, a) =>
      if i in c.slots && c.slots[i].CallOpen? then Put(c, i, CallEnded(c.slots[i].id, c.slots[i].acc, a)) else None
    case ItemDone(i, MessageItem(_, t)) =>
      if i in c.slots && c.slots[i] == TextEnded(t)
      then Put(c.(done := c.done + [e.item]), i, Closed) else None
    case ItemDone(i, CallItem(id, _, args, status)) =>
      if && i in c.slots && c.slots[i].CallEnded? && c.slots[i].id == id && c.slots[i].args == args
         && args == FinalArgs(c.slots[i].acc, status)
      then Put(c.(done := c.done + [e.item]), i, Closed) else None
    case Terminal(_, status, _, output) =>
      if && output == c.done && (forall i :: i in c.slots ==> c.slots[i] == Closed)
         && (forall item :: item in output ==> item.status == status)
      then Some(c.(finished := true)) else None
  }

  // ---------- The client in step with the translator ----------

  /** The client has exactly the text and the tools open, with their fragments so far. */
  ghost predicate InStep(c: Client, text: string, tools: map<int, Tool>, off: int) {
    && c.created && !c.finished && c.done == []
    && c.slots.Keys == SlotKeys(text, tools.Keys, off)
    && (text != "" ==> off == 1 && 0 in c.slots && c.slots[0] == TextOpen(text))
    && (forall i :: i in tools ==>
          (i + off) in c.slots && c.slots[i + off] == CallOpen(tools[i].id, tools[i].args))
  }

  ghost predicate SameCalls(tools: map<int, Tool>, tools': map<int, Tool>) {
    && tools.Keys == tools'.Keys
    && forall i :: i in tools ==> tools'[i].id == tools[i].id && tools'[i].args == tools[i].args
  }

  lemma AcceptAdded(c: Client, text: string, tools: map<int, Tool>, off: int, i: int, t: Tool)
    requires InStep(c, text, tools, off) && Apart(text, i) && i !in tools && off == (if text != "" then 1 else 0)
    requires t.args == ""
    ensures var r := Accept(c, CallAdded(i + off, t.id, t.name));
            r.Some? && InStep(r.value, text, tools[i := t], off)
  {
    hide SlotKeys;
    SlotKeysAdd(text, tools.Keys, off, i);
    assert tools[i := t].Keys == tools.Keys + {i};
  }

  lemma AcceptArgs(c: Client, text: string, tools: map<int, Tool>, off: int, i: int, a: string)
    requires InStep(c, text, tools, off) && i in tools && off == (if text != "" then 1 else 0)
    ensures var r := Accept(c, ArgsDelta(i + off, a));
            r.Some? && InStep(r.value, text, tools[i := tools[i].(args := tools[i].args + a)], off)
  {
    hide SlotKeys;
    var t := tools[i].(args := tools[i].args + a);
    assert tools[i := t].Keys == tools.Keys && i + off in c.slots;
    assert Accept(c, ArgsDelta(i + off, a)) == Put(c, i + off, CallOpen(t.id, t.args));
  }

  lemma InStepByCalls(c: Client, text: string, tools: map<int, Tool>, tools': map<int, Tool>, off: int)
    requires InStep(c, text, tools, off) && SameCalls(tools, tools')
    ensures InStep(c, text, tools', off)
  {
  }

  lemma ReadToolEvent(c: Client, text: string, ds: seq<ToolDelta>, off: int, d: ToolDelta)
    requires InStep(c, text, Tools(ds, off), off) && Apart(text, d.index) && off == (if text != "" then 1 else 0)
    ensures var r := Read(Accept, c, ToolEvent(ds, off, d));
            r.Some? && InStep(r.value, text, Tools(ds + [d], off), off)
  {
    hide Trim, Read, FirstOf, IdOf, InStep, Accept, Tools, AddDelta;
    ToolsKeys(ds, off);
    FirstOfNew(ds, d);
    var i, tools := d.index, Tools(ds, off);
    var id := if Trim(d.id) != "" then d.id else MadeUpId(i);
    var added: seq<Event> := if i in tools then [] else [CallAdded(i + off, id, d.name)];
    var frag: seq<Event> := if d.args != "" then [ArgsDelta(i + off, d.args)] else [];
    assert ToolEvent(ds, off, d) == added + frag;
    var t := if i in tools then tools[i] else Tool(id, d.name, "", i + off);
    var mid := tools[i := t];
    ReadConcat(Accept, c, added, frag);
    ReadAdded(c, text, tools, off, i, t, added);
    var c1 := Read(Accept, c, added).value;
    ReadFragment(c1, text, mid, off, i, d.args, frag);
    SameCallsAfter(ds, off, d, t);
    InStepByCalls(Read(Accept, c1, frag).value, text, mid[i := t.(args := t.args + d.args)], Tools(ds + [d], off), off);
  }

  lemma SameCallsAfter(ds: seq<ToolDelta>, off: int, d: ToolDelta, t: Tool)
    requires t == if d.index in Tools(ds, off) then Tools(ds, off)[d.index]
                  else Tool(if Trim(d.id) != "" then d.id else MadeUpId(d.index), d.name, "", d.index + off)
    ensures SameCalls(Tools(ds, off)[d.index := t.(args := t.args + d.args)], Tools(ds + [d], off))
  {
    hide Trim;
    assert (ds + [d])[..|ds|] == ds;
  }

  lemma ReadAdded(c: Client, text: string, tools: map<int, Tool>, off: int, i: int, t: Tool, added: seq<Event>)
    requires InStep(c, text, tools, off) && Apart(text, i) && off == (if text != "" then 1 else 0)
    requires i in tools ==> t == tools[i] && added == []
    requires i !in tools ==> t.args == "" && t.outputIndex == i + off && added == [CallAdded(i + off, t.id, t.name)]
    ensures var r := Read(Accept, c, added); r.Some? && InStep(r.value, text, tools[i := t], off)
  {
    hide Read, InStep, Accept;
    ReadNone(Accept, c);
    if i in tools {
      assert tools[i := t] == tools;
    } else {
      ReadOne(Accept, c, added[0]);
      AcceptAdded(c, text, tools, off, i, t);
    }
  }

  lemma ReadFragment(c: Client, text: string, tools: map<int, Tool>, off: int, i: int, args: string, frag: seq<Event>)
    requires InStep(c, text, tools, off) && i in tools && off == (if text != "" then 1 else 0)
    requires frag == if args != "" then [ArgsDelta(i + off, args)] else []
    ensures var r := Read(Accept, c, frag);
            r.Some? && InStep(r.value, text, tools[i := tools[i].(args := tools[i].args + args)], off)
  {
    hide Read, InStep, Accept;
    ReadNone(Accept, c);
    if args != "" {
      ReadOne(Accept, c, frag[0]);
      AcceptArgs(c, text, tools, off, i, args);
    } else {
      assert tools[i].args + args == tools[i].args;
      assert tools[i := tools[i].(args := tools[i].args + args)] == tools;
    }
  }

  lemma {:induction false} ReadToolEvents(c: Client, text: string, ds: seq<ToolDelta>, off: int, more: seq<ToolDelta>)
    requires InStep(c, text, Tools(ds, off), off) && AllApart(text, more) && off == (if text != "" then 1 else 0)
    ensures var r := Read(Accept, c, ToolEvents(ds, off, more));
            r.Some? && InStep(r.value, text, Tools(ds + more, off), off)
  {
    hide InStep, Tools, Accept, ToolEvent;
    if more == [] {
      assert ds + more == ds;
    } else {
      var init, d := more[..|more| - 1], more[|more| - 1];
      ReadToolEvents(c, text, ds, off, init);
      ReadConcat(Accept, c, ToolEvents(ds, off, init), ToolEvent(ds + init, off, d));
      assert d in more;
      ReadToolEvent(Read(Accept, c, ToolEvents(ds, off, init)).value, text, ds + init, off, d);
      assert ds + more == ds + init + [d];
    }
  }

  lemma AcceptText(c: Client, text: string, tools: map<int, Tool>, t: string)
    requires text != "" && InStep(c, text, tools, 1)
    ensures var r := Accept(c, TextDelta(t)); r.Some? && InStep(r.value, text + t, tools, 1)
  {
  }

  lemma AcceptFirstText(c: Client, t: string)
    requires t != "" && InStep(c, "", map[], 0)
    ensures var r := Read(Accept, c, [TextAdded, TextDelta(t)]); r.Some? && InStep(r.value, t, map[], 1)
  {
    ReadTwo(Accept, c, TextAdded, TextDelta(t));
    assert "" + t == t;
  }

  lemma ReadTextEvents(c: Client, h: seq<Chunk>, ev: Chunk)
    requires InStep(c, Content(h), Tools(Deltas(h), Offset(h)), Offset(h)) && Acceptable(h, ev)
    ensures var r := Read(Accept, c, TextEvents(h, ev));
            r.Some? && InStep(r.value, Content(h + [ev]), Tools(Deltas(h), Offset(h + [ev])), Offset(h + [ev]))
  {
    hide Read, Content, Deltas, InStep, Accept;
    HistorySnoc(h, ev);
    var t := ChunkContent(ev);
    ReadNone(Accept, c);
    if t == "" {
      assert Content(h) + t == Content(h);
    } else if Content(h) == "" {
      assert [TextAdded] + [TextDelta(t)] == [TextAdded, TextDelta(t)];
      assert Content(h) + t == t;
      AcceptFirstText(c, t);
    } else {
      assert [] + [TextDelta(t)] == [TextDelta(t)];
      ReadOne(Accept, c, TextDelta(t));
      AcceptText(c, Content(h), Tools(Deltas(h), Offset(h)), t);
    }
  }

  /** Reading everything the translator wrote for a history leaves the client in step. */
  lemma {:induction false} ReadEvents(h: seq<Chunk>, fallback: string)
    requires h != [] && Accepted(h) && AllApart(Content(h), Deltas(h))
    ensures var r := Read(Accept, FRESH, Events(h, fallback));
            r.Some? && InStep(r.value, Content(h), Tools(Deltas(h), Offset(h)), Offset(h))
    decreases |h|, 0
  {
    hide InStep, Tools, Accept, ToolEvents, TextEvents, Offset, Content, Deltas;
    var init, ev := h[..|h| - 1], h[|h| - 1];
    assert h == init + [ev];
    HistorySnoc(init, ev);
    EventsSnoc(init, ev, fallback);
    var before := Events(init, fallback) + OpeningEvents(init, ev, fallback);
    ReadOpening(init, ev, fallback);
    var c := Read(Accept, FRESH, before).value;
    ReadTextEvents(c, init, ev);
    ReadConcat(Accept, FRESH, before, TextEvents(init, ev));
    var c' := Read(Accept, c, TextEvents(init, ev)).value;
    OffsetOfContent(h);
    ReadToolEvents(c', Content(h), Deltas(init), Offset(h), ChunkTools(ev));
    ReadConcat(Accept, FRESH, before + TextEvents(init, ev), ToolEvents(Deltas(init), Offset(h), ChunkTools(ev)));
  }

  lemma OffsetOfContent(h: seq<Chunk>)
    ensures Offset(h) == if Content(h) != "" then 1 else 0
  {
  }

  /** The opening event comes first and only once. */
  lemma {:induction false} ReadOpening(init: seq<Chunk>, ev: Chunk, fallback: string)
    requires Accepted(init) && AllApart(Content(init), Deltas(init))
    ensures var r := Read(Accept, FRESH, Events(init, fallback) + OpeningEvents(init, ev, fallback));
            r.Some? && InStep(r.value, Content(init), Tools(Deltas(init), Offset(init)), Offset(init))
    decreases |init|, 1
  {
    hide InStep, Tools, Accept, ToolEvents, TextEvents;
    if init == [] {
      OpeningInStep(RespId([ev], fallback));
      ReadOne(Accept, FRESH, Created(RespId([ev], fallback)));
      assert [] + [Created(RespId([ev], fallback))] == [Created(RespId([ev], fallback))];
    } else {
      HistorySnoc(init, ev);
      ReadEvents(init, fallback);
      assert Events(init, fallback) + [] == Events(init, fallback);
    }
  }

  lemma OpeningInStep(id: string)
    ensures var r := Accept(FRESH, Created(id)); r.Some? && InStep(r.value, "", Tools([], 0), 0)
  {
  }

  // ---------- Tools in the place of the text ----------

  lemma AddedInPlaceOfText(c: Client, text: string, ds: seq<ToolDelta>, d: ToolDelta)
    requires InStep(c, text, Tools(ds, 1), 1) && text != "" && d.index == -1
    ensures Read(Accept, c, ToolEvent(ds, 1, d)) == None
  {
    hide Trim, Read, FirstOf, IdOf, Tools;
    ToolsKeys(ds, 1);
    assert -1 !in Tools(ds, 1);
    var added := CallAdded(-1 + 1, IdOf(ds + [d], -1), d.name);
    var frag: seq<Event> := if d.args != "" then [ArgsDelta(-1 + 1, d.args)] else [];
    ReadConcat(Accept, c, [added], frag);
    ReadOne(Accept, c, added);
  }

  lemma {:induction false} ToolEventsClash(c: Client, text: string, ds: seq<ToolDelta>, more: seq<ToolDelta>)
    requires InStep(c, text, Tools(ds, 1), 1) && text != "" && !AllApart(text, more)
    ensures Read(Accept, c, ToolEvents(ds, 1, more)) == None
  {
    hide InStep, Tools, Accept, ToolEvent, Read;
    var init, d := more[..|more| - 1], more[|more| - 1];
    assert more == init + [d];
    ReadConcat(Accept, c, ToolEvents(ds, 1, init), ToolEvent(ds + init, 1, d));
    if AllApart(text, init) {
      ReadToolEvents(c, text, ds, 1, init);
      AddedInPlaceOfText(Read(Accept, c, ToolEvents(ds, 1, init)).value, text, ds + init, d);
    } else {
      ToolEventsClash(c, text, ds, init);
    }
  }

  /** A tool of index -1 after text is announced at the output index of the text. */
  lemma {:induction false} ClashIsRefused(h: seq<Chunk>, fallback: string)
    requires Accepted(h) && !AllApart(Content(h), Deltas(h))
    ensures Read(Accept, FRESH, Events(h, fallback)) == None
  {
    hide InStep, Tools, Accept, ToolEvents, TextEvents, Offset, Content, Deltas, Read, Events, OpeningEvents;
    NothingSaid();
    var init, ev := h[..|h| - 1], h[|h| - 1];
    assert h == init + [ev];
    HistorySnoc(init, ev);
    EventsSnoc(init, ev, fallback);
    var opening, text := OpeningEvents(init, ev, fallback), TextEvents(init, ev);
    var tools := ToolEvents(Deltas(init), Offset(h), ChunkTools(ev));
    ReadConcat(Accept, FRESH, Events(init, fallback), opening);
    ReadConcat(Accept, FRESH, Events(init, fallback) + opening, text);
    ReadConcat(Accept, FRESH, Events(init, fallback) + opening + text, tools);
    if AllApart(Content(init), Deltas(init)) {
      ReadOpening(init, ev, fallback);
      var c := Read(Accept, FRESH, Events(init, fallback) + opening).value;
      ReadTextEvents(c, init, ev);
      OffsetOfContent(h);
      ToolEventsClash(Read(Accept, c, text).value, Content(h), Deltas(init), ChunkTools(ev));
    } else {
      ClashIsRefused(init, fallback);
    }
  }

  // ---------- Closing ----------

  /** The client while the translator closes items: those in `closed` are done. */
  ghost predicate Closing(c: Client, h: seq<Chunk>, status: string, closed: seq<int>) {
    && c.created && !c.finished && (forall i :: i in closed ==> i in Indexes(Deltas(h)))
    && c.done == StreamOutput(h, status, closed)
    && c.slots.Keys == SlotKeys(Content(h), Indexes(Deltas(h)), Offset(h))
    && (Content(h) != "" ==> 0 in c.slots && c.slots[0] == Closed)
    && (forall i :: i in Indexes(Deltas(h)) ==>
          && i + Offset(h) in c.slots
          && c.slots[i + Offset(h)] == if i in closed then Closed
                                       else CallOpen(IdOf(Deltas(h), i), ArgsOf(Deltas(h), i)))
  }

  lemma InStepCalls(c: Client, h: seq<Chunk>, i: int)
    requires InStep(c, Content(h), Tools(Deltas(h), Offset(h)), Offset(h)) && i in Indexes(Deltas(h))
    ensures i + Offset(h) in c.slots
    ensures c.slots[i + Offset(h)] == CallOpen(IdOf(Deltas(h), i), ArgsOf(Deltas(h), i))
  {
    hide IdOf, ArgsOf, NameOf, Content, Deltas, Tools;
    ToolsAreHistory(Deltas(h), Offset(h), i);
  }

  lemma ReadTextDone(c: Client, h: seq<Chunk>, status: string)
    requires InStep(c, Content(h), Tools(Deltas(h), Offset(h)), Offset(h))
    ensures var r := Read(Accept, c, DoneEvents(h, status, [])); r.Some? && Closing(r.value, h, status, [])
  {
    hide IdOf, ArgsOf, NameOf, Content, Deltas, Tools, Read, SlotKeys;
    ToolsKeys(Deltas(h), Offset(h));
    forall i | i in Indexes(Deltas(h))
      ensures i + Offset(h) in c.slots
      ensures c.slots[i + Offset(h)] == CallOpen(IdOf(Deltas(h), i), ArgsOf(Deltas(h), i))
    {
      InStepCalls(c, h, i);
    }
    ReadNone(Accept, c);
    ReadTwo(Accept, c, TextDone(Content(h)), ItemDone(0, MessageItem(status, Content(h))));
    if Content(h) != "" {
      var c' := Read(Accept, c, DoneEvents(h, status, [])).value;
      assert c'.done == [] + [MessageItem(status, Content(h))] == StreamOutput(h, status, []);
      assert c'.slots.Keys == c.slots.Keys;
    }
  }

  lemma ReadCallDone(c: Client, h: seq<Chunk>, status: string, closed: seq<int>, i: int)
    requires Closing(c, h, status, closed) && i in Indexes(Deltas(h)) && i !in closed
    ensures var r := Read(Accept, c, [ArgsDone(i + Offset(h), DoneArgs(h, i, status)),
                              ItemDone(i + Offset(h), CallOf(h, i, status))]);
            r.Some? && Closing(r.value, h, status, closed + [i])
  {
    hide IdOf, ArgsOf, NameOf, Content, Deltas, Read, Trim, SlotKeys;
    ReadTwo(Accept, c, ArgsDone(i + Offset(h), DoneArgs(h, i, status)), ItemDone(i + Offset(h), CallOf(h, i, status)));
    assert (closed + [i])[..|closed|] == closed;
  }

  lemma {:induction false} ReadDone(c: Client, h: seq<Chunk>, status: string, order: seq<int>)
    requires InStep(c, Content(h), Tools(Deltas(h), Offset(h)), Offset(h))
    requires Increasing(order) && forall i :: i in order ==> i in Indexes(Deltas(h))
    ensures var r := Read(Accept, c, DoneEvents(h, status, order)); r.Some? && Closing(r.value, h, status, order)
  {
    hide InStep, Closing, IdOf, ArgsOf, NameOf, Content, Deltas, Tools, Read, Trim, CallOf, DoneArgs;
    if order == [] {
      ReadTextDone(c, h, status);
    } else {
      var init, i := order[..|order| - 1], order[|order| - 1];
      assert i in order && order == init + [i];
      assert i !in init;
      ReadDone(c, h, status, init);
      ReadCallDone(Read(Accept, c, DoneEvents(h, status, init)).value, h, status, init, i);
      ReadConcat(Accept, c, DoneEvents(h, status, init),
                 [ArgsDone(i + Offset(h), DoneArgs(h, i, status)), ItemDone(i + Offset(h), CallOf(h, i, status))]);
    }
  }

  lemma {:induction false} OutputStatus(h: seq<Chunk>, status: string, order: seq<int>)
    requires forall i :: i in order ==> i in Indexes(Deltas(h))
    ensures forall item :: item in StreamOutput(h, status, order) ==> item.status == status
  {
    hide IdOf, NameOf, Content, Deltas, DoneArgs;
    if order != [] {
      assert order[|order| - 1] in order;
      OutputStatus(h, status, order[..|order| - 1]);
    }
  }

  lemma ReadTerminal(c: Client, h: seq<Chunk>, id: string, status: string, reason: string, order: seq<int>)
    requires Closing(c, h, status, order) && (forall i :: i in order <==> i in Indexes(Deltas(h)))
    ensures var r := Accept(c, Terminal(id, status, reason, StreamOutput(h, status, order)));
            r == Some(c.(finished := true))
  {
    hide IdOf, ArgsOf, NameOf, Content, Deltas, StreamOutput;
    OutputStatus(h, status, order);
    forall k | k in c.slots ensures c.slots[k] == Closed {
      assert k in SlotKeys(Content(h), Indexes(Deltas(h)), Offset(h));
    }
  }

  /** Event grammar. A completed stream, of any accepted history, is read to its end by the client
      (the terminal event is the last one, it is the only one, and it carries exactly the items
      that were closed before it) if and only if it has no tool of index -1 beside text; with one
      the client refuses it. */
  lemma StreamsAreGrammatical(h: seq<Chunk>, fallback: string, order: seq<int>)
    requires Accepted(h) && Finish(h).Some? && Lists(order, Indexes(Deltas(h)))
    ensures var r := Read(Accept, FRESH, Events(h, fallback) + FinalEvents(h, fallback, order));
            && (r.Some? <==> AllApart(Content(h), Deltas(h)))
            && (r.Some? ==> r.value.finished && r.value.done == StreamOutput(h, StatusOf(Finish(h).value), order))
  {
    hide InStep, Closing, Content, Deltas, Tools, Read, Events, FinalEvents, Accept, Accepted, Finish, Offset, AllApart;
    ReadConcat(Accept, FRESH, Events(h, fallback), FinalEvents(h, fallback, order));
    if AllApart(Content(h), Deltas(h)) {
      NonEmpty(h);
      ReadEvents(h, fallback);
      ReadFinal(Read(Accept, FRESH, Events(h, fallback)).value, h, fallback, order);
    } else {
      ClashIsRefused(h, fallback);
    }
  }

  lemma NonEmpty(h: seq<Chunk>)
    requires Finish(h).Some?
    ensures h != []
  {
  }

  lemma ReadFinal(c: Client, h: seq<Chunk>, fallback: string, order: seq<int>)
    requires InStep(c, Content(h), Tools(Deltas(h), Offset(h)), Offset(h))
    requires Finish(h).Some? && Lists(order, Indexes(Deltas(h)))
    ensures var r := Read(Accept, c, FinalEvents(h, fallback, order));
            && r.Some? && r.value.finished
            && r.value.done == StreamOutput(h, StatusOf(Finish(h).value), order)
  {
    hide InStep, Closing, Content, Deltas, Tools, Read, StreamOutput, DoneEvents, Events, Accept, Accepted, Finish,
         Offset;
    var status, reason := StatusOf(Finish(h).value), IncompleteReason(Finish(h).value);
    ReadDone(c, h, status, order);
    var c1 := Read(Accept, c, DoneEvents(h, status, order)).value;
    var terminal := Terminal(RespId(h, fallback), status, reason, StreamOutput(h, status, order));
    ReadTerminal(c1, h, RespId(h, fallback), status, reason, order);
    ReadOne(Accept, c1, terminal);
    ReadConcat(Accept, c, DoneEvents(h, status, order), [terminal]);
    ClosingDone(c1, h, status, order);
  }

  lemma ClosingDone(c: Client, h: seq<Chunk>, status: string, order: seq<int>)
    requires Closing(c, h, status, order)
    ensures c.done == StreamOutput(h, status, order)
  {
  }
}
