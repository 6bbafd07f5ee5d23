/** Reasoning captured from a stream of fragments, and its agreement with capturing the whole
    response. */
module ReasoningCapture {
  import opened Basics
  import opened ReasoningCache
  import opened ReasoningMessages

  // ---------- Lines ----------

  /** The parts of a tool call that may come in fragments. */
  datatype Part = Id | Kind | Name | Arguments

  datatype ToolDelta =
    | BadTool
    | ToolDelta(index: nat, id: Option<string>, kind: Option<string>, name: Option<string>, args: Option<string>)

  datatype ChoiceDelta =
    | BadChoice                 // no object, or no non-negative index
    | NoDelta
    | Delta(index: nat, reasoning: Field, tools: seq<ToolDelta>)

  /** A line of the stream, decoded. */
  datatype Line = Ignored | Broken | Chunk(choices: seq<ChoiceDelta>)

  // ---------- A stream as fragments ----------

  datatype Fragment =
    | Opened(choice: int)
    | Reasoning(choice: int, text: string)
    | Spoiled(choice: int)      // something of the wrong type
    | ToolSeen(choice: int, tool: int)
    | ToolPart(choice: int, tool: int, part: Part, text: string)

  function PartFragment(c: int, t: int, part: Part, text: Option<string>): seq<Fragment> {
    if text.Some? then [ToolPart(c, t, part, text.value)] else []
  }

  function ToolFragments(c: int, tool: ToolDelta): seq<Fragment> {
    match tool
    case BadTool => [Spoiled(c)]
    case ToolDelta(t, id, kind, name, args) =>
      [ToolSeen(c, t)] + PartFragment(c, t, Id, id) + PartFragment(c, t, Kind, kind)
      + PartFragment(c, t, Name, name) + PartFragment(c, t, Arguments, args)
  }

  function ToolsFragments(c: int, tools: seq<ToolDelta>): seq<Fragment> {
    if tools == [] then [] else ToolsFragments(c, tools[..|tools| - 1]) + ToolFragments(c, tools[|tools| - 1])
  }

  function ReasoningFragment(c: int, reasoning: Field): seq<Fragment> {
    match reasoning
    case Absent => []
    case Text(text) => [Reasoning(c, text)]
    case Other => [Spoiled(c)]
  }

  function ChoiceFragments(choice: ChoiceDelta): seq<Fragment> {
    if choice.Delta? then
      [Opened(choice.index)] + ReasoningFragment(choice.index, choice.reasoning)
      + ToolsFragments(choice.index, choice.tools)
    else []
  }

  function ChoicesFragments(choices: seq<ChoiceDelta>): seq<Fragment> {
    if choices == [] then [] else ChoicesFragments(choices[..|choices| - 1]) + ChoiceFragments(choices[|choices| - 1])
  }

  /** A line that ends the capture without a result. */
  predicate Fails(line: Line) { line.Broken? || (line.Chunk? && BadChoice in line.choices) }

  function LineFragments(line: Line): seq<Fragment> { if line.Chunk? then ChoicesFragments(line.choices) else [] }

  predicate AnyFails(lines: seq<Line>) {
    lines != [] && (AnyFails(lines[..|lines| - 1]) || Fails(lines[|lines| - 1]))
  }

  lemma LinesSnoc(lines: seq<Line>, line: Line)
    ensures AnyFails(lines + [line]) <==> AnyFails(lines) || Fails(line)
    ensures Fragments(lines + [line]) == Fragments(lines) + LineFragments(line)
  {
    assert (lines + [line])[..|lines|] == lines;
  }

  function Fragments(lines: seq<Line>): seq<Fragment> {
    if lines == [] then [] else Fragments(lines[..|lines| - 1]) + LineFragments(lines[|lines| - 1])
  }

  // ---------- What a history of fragments says ----------

  function ReasoningOf(fs: seq<Fragment>, c: int): string {
    if fs == [] then ""
    else
      var f := fs[|fs| - 1];
      ReasoningOf(fs[..|fs| - 1], c) + if f.Reasoning? && f.choice == c then f.text else ""
  }

  function PartOf(fs: seq<Fragment>, c: int, t: int, part: Part): string {
    if fs == [] then ""
    else
      var f := fs[|fs| - 1];
      PartOf(fs[..|fs| - 1], c, t, part)
      + if f.ToolPart? && f.choice == c && f.tool == t && f.part == part then f.text else ""
  }

  ghost predicate PartSeen(fs: seq<Fragment>, c: int, t: int, part: Part) {
    exists f :: f in fs && f.ToolPart? && f.choice == c && f.tool == t && f.part == part
  }

  ghost function Choices(fs: seq<Fragment>): set<int> { set f | f in fs :: f.choice }

  ghost function Tools(fs: seq<Fragment>, c: int): set<int> {
    set f | f in fs && (f.ToolSeen? || f.ToolPart?) && f.choice == c :: f.tool
  }

  // ---------- The capture ----------

  datatype StreamTool = StreamTool(id: string, kind: string, name: string, args: string, idSeen: bool, nameSeen: bool,
                                   argsSeen: bool)

  datatype StreamChoice = StreamChoice(reasoning: string, tools: map<int, StreamTool>, failed: bool)

  const EMPTY_TOOL := StreamTool("", "", "", "", false, false, false)
  const EMPTY_CHOICE := StreamChoice("", map[], false)

  ghost predicate ToolInStep(tool: StreamTool, fs: seq<Fragment>, c: int, t: int) {
    && tool.id == PartOf(fs, c, t, Id) && tool.kind == PartOf(fs, c, t, Kind)
    && tool.name == PartOf(fs, c, t, Name) && tool.args == PartOf(fs, c, t, Arguments)
    && tool.idSeen == PartSeen(fs, c, t, Id) && tool.nameSeen == PartSeen(fs, c, t, Name)
    && tool.argsSeen == PartSeen(fs, c, t, Arguments)
  }

  ghost predicate ChoiceInStep(choice: StreamChoice, fs: seq<Fragment>, c: int) {
    && choice.reasoning == ReasoningOf(fs, c) && choice.failed == (Spoiled(c) in fs)
    && choice.tools.Keys == Tools(fs, c)
    && forall t :: t in choice.tools ==> ToolInStep(choice.tools[t], fs, c, t)
  }

  ghost predicate InStep(choices: map<int, StreamChoice>, fs: seq<Fragment>) {
    && choices.Keys == Choices(fs)
    && forall c :: c in choices ==> ChoiceInStep(choices[c], fs, c)
  }

  function ChoiceAt(choices: map<int, StreamChoice>, c: int): StreamChoice {
    if c in choices then choices[c] else EMPTY_CHOICE
  }

  function ToolAt(tools: map<int, StreamTool>, t: int): StreamTool {
    if t in tools then tools[t] else EMPTY_TOOL
  }

  function WithPart(tool: StreamTool, part: Part, text: string): StreamTool {
    match part
    case Id => tool.(id := tool.id + text, idSeen := true)
    case Kind => tool.(kind := tool.kind + text)
    case Name => tool.(name := tool.name + text, nameSeen := true)
    case Arguments => tool.(args := tool.args + text, argsSeen := true)
  }

  /** One fragment, taken by the choice it belongs to. */
  function Take(choices: map<int, StreamChoice>, f: Fragment): map<int, StreamChoice> {
    var choice := ChoiceAt(choices, f.choice);
    choices[f.choice :=
      match f
      case Opened(_) => choice
      case Reasoning(_, text) => choice.(reasoning := choice.reasoning + text)
      case Spoiled(_) => choice.(failed := true)
      case ToolSeen(_, t) => choice.(tools := choice.tools[t := ToolAt(choice.tools, t)])
      case ToolPart(_, t, part, text) =>
        choice.(tools := choice.tools[t := WithPart(ToolAt(choice.tools, t), part, text)])]
  }

  lemma FragmentSnoc(fs: seq<Fragment>, f: Fragment, c: int)
    ensures ReasoningOf(fs + [f], c) == ReasoningOf(fs, c) + if f.Reasoning? && f.choice == c then f.text else ""
    ensures Tools(fs + [f], c) == Tools(fs, c) + if (f.ToolSeen? || f.ToolPart?) && f.choice == c then {f.tool} else {}
    ensures Choices(fs + [f]) == Choices(fs) + {f.choice}
    ensures Spoiled(c) in fs + [f] <==> Spoiled(c) in fs || f == Spoiled(c)
  {
    assert (fs + [f])[..|fs|] == fs;
  }

  lemma PartSnoc(fs: seq<Fragment>, f: Fragment, c: int, t: int, part: Part)
    ensures PartOf(fs + [f], c, t, part) ==
            PartOf(fs, c, t, part)
            + if f.ToolPart? && f.choice == c && f.tool == t && f.part == part then f.text else ""
    ensures PartSeen(fs + [f], c, t, part) <==>
            PartSeen(fs, c, t, part) || (f.ToolPart? && f.choice == c && f.tool == t && f.part == part)
  {
    assert (fs + [f])[..|fs|] == fs;
    if PartSeen(fs, c, t, part) {
      var g :| g in fs && g.ToolPart? && g.choice == c && g.tool == t && g.part == part;
      assert g in fs + [f];
    }
    assert f in fs + [f];
  }

  lemma {:induction false} UnseenIsEmpty(fs: seq<Fragment>, c: int)
    ensures c !in Choices(fs) ==> ReasoningOf(fs, c) == "" && Tools(fs, c) == {} && Spoiled(c) !in fs
  {
    if fs != [] {
      assert fs[|fs| - 1] in fs;
      assert c !in Choices(fs) ==> c !in Choices(fs[..|fs| - 1]);
      UnseenIsEmpty(fs[..|fs| - 1], c);
    }
  }

  lemma {:induction false} UnseenPartIsEmpty(fs: seq<Fragment>, c: int, t: int, part: Part)
    ensures t !in Tools(fs, c) ==> PartOf(fs, c, t, part) == "" && !PartSeen(fs, c, t, part)
  {
    if fs != [] {
      assert fs[|fs| - 1] in fs;
      assert t !in Tools(fs, c) ==> t !in Tools(fs[..|fs| - 1], c);
      UnseenPartIsEmpty(fs[..|fs| - 1], c, t, part);
    }
  }

  lemma EmptyToolInStep(fs: seq<Fragment>, c: int, t: int)
    requires t !in Tools(fs, c)
    ensures ToolInStep(EMPTY_TOOL, fs, c, t)
  {
    hide PartOf, PartSeen;
    UnseenPartIsEmpty(fs, c, t, Id);
    UnseenPartIsEmpty(fs, c, t, Kind);
    UnseenPartIsEmpty(fs, c, t, Name);
    UnseenPartIsEmpty(fs, c, t, Arguments);
  }

  lemma ToolTakes(tool: StreamTool, fs: seq<Fragment>, f: Fragment, c: int, t: int)
    requires ToolInStep(tool, fs, c, t)
    ensures ToolInStep(if f.ToolPart? && f.choice == c && f.tool == t then WithPart(tool, f.part, f.text) else tool,
                       fs + [f], c, t)
  {
    hide PartOf, PartSeen;
    PartSnoc(fs, f, c, t, Id);
    PartSnoc(fs, f, c, t, Kind);
    PartSnoc(fs, f, c, t, Name);
    PartSnoc(fs, f, c, t, Arguments);
    forall s: string ensures s + "" == s { }
  }

  lemma ChoiceTakes(choices: map<int, StreamChoice>, fs: seq<Fragment>, f: Fragment, c: int)
    requires ChoiceInStep(ChoiceAt(choices, c), fs, c)
    ensures ChoiceInStep(ChoiceAt(Take(choices, f), c), fs + [f], c)
  {
    hide ReasoningOf, PartOf, PartSeen, Tools, ToolInStep, WithPart;
    FragmentSnoc(fs, f, c);
    var choice, after := ChoiceAt(choices, c), ChoiceAt(Take(choices, f), c);
    forall t | t in after.tools ensures ToolInStep(after.tools[t], fs + [f], c, t) {
      if t !in choice.tools { EmptyToolInStep(fs, c, t); }
      ToolTakes(ToolAt(choice.tools, t), fs, f, c, t);
    }
    assert choice.reasoning + "" == choice.reasoning;
  }

  /** Taking a fragment keeps every choice in step with the history. */
  lemma TakeKeepsStep(choices: map<int, StreamChoice>, fs: seq<Fragment>, f: Fragment)
    requires InStep(choices, fs)
    ensures InStep(Take(choices, f), fs + [f])
  {
    hide ReasoningOf, PartOf, PartSeen, Tools, ToolInStep, WithPart, ChoiceInStep, Choices;
    FragmentSnoc(fs, f, f.choice);
    forall c: int | c in Take(choices, f) ensures ChoiceInStep(Take(choices, f)[c], fs + [f], c) {
      if c !in choices { EmptyChoiceInStep(fs, c); }
      ChoiceTakes(choices, fs, f, c);
    }
  }

  lemma EmptyChoiceInStep(fs: seq<Fragment>, c: int)
    requires c !in Choices(fs)
    ensures ChoiceInStep(EMPTY_CHOICE, fs, c)
  {
    hide Choices, Tools, ReasoningOf;
    UnseenIsEmpty(fs, c);
  }

  // ---------- What a choice gives to the cache ----------

  ghost predicate ToolComplete(fs: seq<Fragment>, c: int, t: int) {
    && PartSeen(fs, c, t, Id) && PartSeen(fs, c, t, Name) && PartSeen(fs, c, t, Arguments)
    && Trim(PartOf(fs, c, t, Id)) != "" && Trim(PartOf(fs, c, t, Name)) != ""
  }

  /** The streamed turn is worth keeping. */
  ghost predicate Complete(fs: seq<Fragment>, c: int) {
    && Spoiled(c) !in fs && Trim(ReasoningOf(fs, c)) != "" && Tools(fs, c) != {}
    && forall t :: t in Tools(fs, c) ==> ToolComplete(fs, c, t)
  }

  /** The tool call that a message holds where the stream had these fragments. */
  ghost function AssembledTool(fs: seq<Fragment>, c: int, t: int): RawTool {
    Tool(PartOf(fs, c, t, Id), PartSeen(fs, c, t, Name) || PartSeen(fs, c, t, Arguments), PartOf(fs, c, t, Name),
         if PartSeen(fs, c, t, Arguments) then Some(PartOf(fs, c, t, Arguments)) else None)
  }

  ghost function AssembledTools(fs: seq<Fragment>, c: int, order: seq<int>): seq<RawTool> {
    seq(|order|, k requires 0 <= k < |order| => AssembledTool(fs, c, order[k]))
  }

  /** The turn put together from the fragments of choice `c`, tools by increasing index. */
  ghost function TurnOf(fs: seq<Fragment>, c: int): Message {
    Message("assistant", "", Text(ReasoningOf(fs, c)), AssembledTools(fs, c, InOrder(Tools(fs, c))))
  }

  /** `fs` is a cutting of the message: put together, its fragments for choice `c` are the
      message, whatever its content. */
  ghost predicate Cuts(fs: seq<Fragment>, c: int, m: Message) {
    m == TurnOf(fs, c).(content := m.content)
  }

  class StreamCapture {
    const scope: Scope
    const cache: Cache
    const hash: Message -> string
    var choices: map<int, StreamChoice>
    var failed: bool
    var committed: bool
    /** The lines observed. */
    ghost var lines: seq<Line>

    ghost predicate Valid() reads this {
      && failed == AnyFails(lines)
      && (!failed ==> InStep(choices, Fragments(lines)))
    }

    constructor (scope: Scope, cache: Cache, hash: Message -> string)
      ensures Valid() && !committed && lines == [] && this.scope == scope && this.cache == cache && this.hash == hash
    {
      this.scope, this.cache, this.hash := scope, cache, hash;
      choices, failed, committed, lines := map[], false, false, [];
    }

    method ObserveLine(line: Line)
      requires Valid()
      modifies this`choices, this`failed, this`lines
      ensures Valid() && lines == if committed then old(lines) else old(lines) + [line]
    {
      hide InStep, Fragments, AnyFails, ChoicesFragments;
      if committed { return; }
      LinesSnoc(lines, line);
      ghost var fs := Fragments(lines);
      lines := lines + [line];
      if failed { return; }
      match line
      case Ignored => assert fs + [] == fs;
      case Broken => failed := true;
      case Chunk(deltas) =>
        var ok := ObserveChunk(deltas, fs);
        if !ok { failed := true; }
    }

    method ObserveChunk(deltas: seq<ChoiceDelta>, ghost fs: seq<Fragment>) returns (ok: bool)
      requires InStep(choices, fs)
      modifies this`choices
      ensures ok <==> BadChoice !in deltas
      ensures ok ==> InStep(choices, fs + ChoicesFragments(deltas))
    {
      hide InStep, ChoiceFragments;
      var k := 0;
      assert fs + [] == fs;
      while k < |deltas|
        invariant 0 <= k <= |deltas| && BadChoice !in deltas[..k]
        invariant InStep(choices, fs + ChoicesFragments(deltas[..k]))
      {
        assert deltas[..k + 1] == deltas[..k] + [deltas[k]] && deltas[..k + 1][..k] == deltas[..k];
        var choice := deltas[k];
        if choice.BadChoice? {
          assert choice in deltas;
          return false;
        }
        ghost var so := fs + ChoicesFragments(deltas[..k]);
        assert so + ChoiceFragments(choice) == fs + ChoicesFragments(deltas[..k + 1]);
        if choice.Delta? { ObserveChoice(choice, so); } else { NothingToTake(choice, so); }
        k := k + 1;
      }
      assert deltas[..k] == deltas;
      ok := true;
    }

    method ObserveChoice(choice: ChoiceDelta, ghost fs: seq<Fragment>)
      requires choice.Delta? && InStep(choices, fs)
      modifies this`choices
      ensures InStep(choices, fs + ChoiceFragments(choice))
    {
      hide InStep, Take, ToolsFragments;
      TakeKeepsStep(choices, fs, Opened(choice.index));
      choices := Take(choices, Opened(choice.index));
      ghost var head := fs + [Opened(choice.index)] + ReasoningFragment(choice.index, choice.reasoning);
      match choice.reasoning {
        case Absent => assert head == fs + [Opened(choice.index)];
        case Text(text) =>
          TakeKeepsStep(choices, fs + [Opened(choice.index)], Reasoning(choice.index, text));
          choices := Take(choices, Reasoning(choice.index, text));
        case Other =>
          TakeKeepsStep(choices, fs + [Opened(choice.index)], Spoiled(choice.index));
          choices := Take(choices, Spoiled(choice.index));
      }
      ObserveTools(choice.index, choice.tools, head);
      assert head + ToolsFragments(choice.index, choice.tools) == fs + ChoiceFragments(choice);
    }

    method ObserveTools(c: int, tools: seq<ToolDelta>, ghost fs: seq<Fragment>)
      requires InStep(choices, fs)
      modifies this`choices
      ensures InStep(choices, fs + ToolsFragments(c, tools))
    {
      hide InStep, ToolFragments;
      var k := 0;
      assert fs + [] == fs;
      while k < |tools|
        invariant 0 <= k <= |tools| && InStep(choices, fs + ToolsFragments(c, tools[..k]))
      {
        ghost var so := fs + ToolsFragments(c, tools[..k]);
        assert tools[..k + 1][..k] == tools[..k];
        assert so + ToolFragments(c, tools[k]) == fs + ToolsFragments(c, tools[..k + 1]);
        ObserveTool(c, tools[k], so);
        k := k + 1;
      }
      assert tools[..k] == tools;
    }

    method ObserveTool(c: int, tool: ToolDelta, ghost fs: seq<Fragment>)
      requires InStep(choices, fs)
      modifies this`choices
      ensures InStep(choices, fs + ToolFragments(c, tool))
    {
      hide InStep, Take;
      if tool.BadTool? {
        TakeKeepsStep(choices, fs, Spoiled(c));
        choices := Take(choices, Spoiled(c));
        return;
      }
      TakeKeepsStep(choices, fs, ToolSeen(c, tool.index));
      choices := Take(choices, ToolSeen(c, tool.index));
      ghost var gs := fs + [ToolSeen(c, tool.index)];
      ObservePart(c, tool.index, Id, tool.id, gs);
      gs := gs + PartFragment(c, tool.index, Id, tool.id);
      ObservePart(c, tool.index, Kind, tool.kind, gs);
      gs := gs + PartFragment(c, tool.index, Kind, tool.kind);
      ObservePart(c, tool.index, Name, tool.name, gs);
      gs := gs + PartFragment(c, tool.index, Name, tool.name);
      ObservePart(c, tool.index, Arguments, tool.args, gs);
      gs := gs + PartFragment(c, tool.index, Arguments, tool.args);
      assert gs == fs + ToolFragments(c, tool);
    }

    method ObservePart(c: int, t: int, part: Part, text: Option<string>, ghost fs: seq<Fragment>)
      requires InStep(choices, fs)
      modifies this`choices
      ensures InStep(choices, fs + PartFragment(c, t, part, text))
    {
      hide InStep, Take;
      if text.None? {
        assert fs + [] == fs;
        return;
      }
      TakeKeepsStep(choices, fs, ToolPart(c, t, part, text.value));
      choices := Take(choices, ToolPart(c, t, part, text.value));
    }

    /** Stores the reasoning of every complete choice, once, and only the first time. `order`
        lists the complete choices in the order in which they were stored. */
    method Commit(now: Time) returns (ghost order: seq<int>)
      requires Valid() && cache.Valid()
      modifies this`committed, cache
      ensures Valid() && cache.Valid()
      ensures old(failed) || old(committed) ==> cache.given == old(cache.given) && order == []
      ensures !old(failed) && !old(committed) ==>
                var fs := Fragments(lines);
                && committed
                && (forall c :: c in order <==> c in Choices(fs) && Complete(fs, c))
                && (forall i, j :: 0 <= i < j < |order| ==> order[i] != order[j])
                && cache.given == old(cache.given) + Stores(scope, fs, order, hash)
                && AllUsed(cache.limits, old(cache.entries), Writes(Stores(scope, fs, order, hash), now), cache.entries)
    {
      hide InStep, Fragments, Choices, Complete, Stores, AnyFails, AllUsed, Stored, Writes;
      order := [];
      if failed || committed { return; }
      committed := true;
      ghost var fs := Fragments(lines);
      KeysOfStep(choices, fs);
      NothingStored(scope, fs, hash, cache, now);
      var rest := choices.Keys;
      while rest != {}
        invariant rest <= choices.Keys && cache.Valid() && committed
        invariant forall c :: c in order <==> c in choices.Keys - rest && Complete(fs, c)
        invariant forall i, j :: 0 <= i < j < |order| ==> order[i] != order[j]
        invariant cache.given == old(cache.given) + Stores(scope, fs, order, hash)
        invariant AllUsed(cache.limits, old(cache.entries), Writes(Stores(scope, fs, order, hash), now), cache.entries)
        decreases |rest|
      {
        ghost var some := Member(rest);
        var c :| c in rest;
        rest := rest - {c};
        ChoiceOfStep(choices, fs, c);
        var turn := Assemble(choices[c], fs, c);
        if turn.Some? {
          ghost var mid := cache.entries;
          cache.Store(KeyForMessage(scope, turn.value, hash), choices[c].reasoning, now);
          StoresSnoc(scope, fs, order, hash, c, old(cache.given));
          StoredSnoc(scope, fs, order, hash, c, cache.limits, old(cache.entries), mid, now, cache.entries);
          order := order + [c];
        }
      }
    }

    /** The turn of a complete choice. */
    method Assemble(choice: StreamChoice, ghost fs: seq<Fragment>, ghost c: int) returns (turn: Option<Message>)
      requires ChoiceInStep(choice, fs, c)
      ensures turn.Some? <==> Complete(fs, c)
      ensures turn.Some? ==> turn.value == TurnOf(fs, c)
    {
      hide Tools, ReasoningOf, PartOf, PartSeen, Trim, ToolComplete, ToolInStep, AssembledTool;
      if choice.failed || Trim(choice.reasoning) == "" || |choice.tools| == 0 {
        return None;
      }
      var indexes := SortedKeys(choice.tools.Keys);
      ListingIsUnique(indexes, InOrder(Tools(fs, c)), Tools(fs, c));
      var toolCalls := [];
      var k := 0;
      while k < |indexes|
        invariant 0 <= k <= |indexes|
        invariant forall j :: 0 <= j < k ==> ToolComplete(fs, c, indexes[j])
        invariant toolCalls == AssembledTools(fs, c, indexes[..k])
      {
        assert indexes[k] in indexes;
        var t := choice.tools[indexes[k]];
        ToolOfStep(t, fs, c, indexes[k]);
        if !t.idSeen || !t.nameSeen || !t.argsSeen || Trim(t.id) == "" || Trim(t.name) == "" {
          return None;
        }
        toolCalls := toolCalls + [Tool(t.id, true, t.name, Some(t.args))];
        k := k + 1;
      }
      assert indexes[..k] == indexes;
      turn := Some(Message("assistant", "", Text(choice.reasoning), toolCalls));
    }
  }

  lemma NothingToTake(choice: ChoiceDelta, fs: seq<Fragment>)
    requires !choice.Delta?
    ensures fs + ChoiceFragments(choice) == fs
  {
  }

  lemma KeysOfStep(choices: map<int, StreamChoice>, fs: seq<Fragment>)
    requires InStep(choices, fs)
    ensures choices.Keys == Choices(fs)
  {
  }

  lemma ChoiceOfStep(choices: map<int, StreamChoice>, fs: seq<Fragment>, c: int)
    requires InStep(choices, fs) && c in choices
    ensures ChoiceInStep(choices[c], fs, c)
  {
  }

  lemma ToolOfStep(tool: StreamTool, fs: seq<Fragment>, c: int, t: int)
    requires ToolInStep(tool, fs, c, t)
    ensures ToolComplete(fs, c, t)
            <==> tool.idSeen && tool.nameSeen && tool.argsSeen && Trim(tool.id) != "" && Trim(tool.name) != ""
    ensures ToolComplete(fs, c, t) ==> AssembledTool(fs, c, t) == Tool(tool.id, true, tool.name, Some(tool.args))
  {
    hide PartOf, PartSeen, Trim;
  }

  /** What is given to the cache for a list of choices. */
  ghost function Stores(scope: Scope, fs: seq<Fragment>, order: seq<int>, hash: Message -> string): seq<(Key, string)> {
    seq(|order|,
        k requires 0 <= k < |order| => (KeyForMessage(scope, TurnOf(fs, order[k]), hash), ReasoningOf(fs, order[k])))
  }

  /** These texts, written at one time. */
  function Writes(texts: seq<(Key, string)>, now: Time): seq<Use> {
    seq(|texts|, k requires 0 <= k < |texts| => Write(texts[k].0, texts[k].1, now))
  }

  lemma NothingStored(scope: Scope, fs: seq<Fragment>, hash: Message -> string, cache: Cache, now: Time)
    ensures cache.given + Stores(scope, fs, [], hash) == cache.given
    ensures AllUsed(cache.limits, cache.entries, Writes(Stores(scope, fs, [], hash), now), cache.entries)
  {
  }

  lemma StoresSnoc(scope: Scope, fs: seq<Fragment>, order: seq<int>, hash: Message -> string, c: int,
                   given: seq<(Key, string)>)
    ensures given + Stores(scope, fs, order + [c], hash) ==
            given + Stores(scope, fs, order, hash) + [(KeyForMessage(scope, TurnOf(fs, c), hash), ReasoningOf(fs, c))]
  {
    hide KeyForMessage, TurnOf, ReasoningOf;
  }

  lemma StoredSnoc(scope: Scope, fs: seq<Fragment>, order: seq<int>, hash: Message -> string, c: int,
                   l: Limits, before: map<Key, Entry>, mid: map<Key, Entry>, now: Time, after: map<Key, Entry>)
    requires AllUsed(l, before, Writes(Stores(scope, fs, order, hash), now), mid)
    requires Stored(l, mid, KeyForMessage(scope, TurnOf(fs, c), hash), ReasoningOf(fs, c), now, after)
    ensures AllUsed(l, before, Writes(Stores(scope, fs, order + [c], hash), now), after)
  {
    hide KeyForMessage, TurnOf, ReasoningOf, Stored, AllUsed;
    var use := Write(KeyForMessage(scope, TurnOf(fs, c), hash), ReasoningOf(fs, c), now);
    OneUse(l, mid, use, after);
    UsedMore(l, before, Writes(Stores(scope, fs, order, hash), now), mid, use, after);
    assert Writes(Stores(scope, fs, order + [c], hash), now) == Writes(Stores(scope, fs, order, hash), now) + [use];
  }

  // ---------- Agreement with the whole response ----------

  /** However a turn is cut into fragments, the capture keeps it exactly when capturing the whole
      response would, unless some fragment had the wrong type (a null reasoning_content in
      any delta is enough); and then it gives the same key and text to the cache. */
  lemma CaptureIgnoresFragmentation(scope: Scope, fs: seq<Fragment>, c: int, m: Message, hash: Message -> string)
    requires Cuts(fs, c, m)
    ensures Complete(fs, c) <==> Replayable(m) && Spoiled(c) !in fs
    ensures Complete(fs, c) ==>
              Stores(scope, fs, [c], hash) == [(KeyForMessage(scope, m, hash), m.reasoning.text)]
              && Captured(scope, [Some(m)], hash) == Stores(scope, fs, [c], hash)
  {
    hide Tools, ReasoningOf, PartOf, PartSeen, Trim, KeyForMessage, Ids, ToolComplete, AssembledTool;
    assert Trim("assistant") == "assistant" by { AssistantIsTrimmed(); }
    var order := InOrder(Tools(fs, c));
    assert order == [] <==> Tools(fs, c) == {} by {
      if order != [] { assert order[0] in order; }
      if Tools(fs, c) != {} { var some := Member(Tools(fs, c)); assert some in order; }
    }
    forall k | 0 <= k < |order|
      ensures order[k] in order && m.tools[k] == AssembledTool(fs, c, order[k])
      ensures ToolComplete(fs, c, order[k]) <==>
              && m.tools[k].Tool? && Trim(m.tools[k].id) != "" && m.tools[k].hasFunction
              && Trim(m.tools[k].name) != "" && m.tools[k].args.Some?
    {
      CompleteIffValid(fs, c, order[k]);
    }
    assert [Some(m)][..0] == [];
    if Complete(fs, c) {
      IdsOfValid(m.tools);
      KeyDependsOnlyOnIds(scope, m, TurnOf(fs, c), hash);
    }
  }

  /** A later assistant message that lists the same ids, in any order, has the key of the
      streamed turn, so it gets whatever is found under that key. */
  lemma SameIdsSameText(scope: Scope, fs: seq<Fragment>, c: int, later: Message, hash: Message -> string,
                        find: Key -> Option<string>)
    requires Complete(fs, c) && LacksReasoning(later)
             && multiset(Ids(later.tools)) == multiset(Ids(TurnOf(fs, c).tools))
    ensures var found := find(KeyForMessage(scope, TurnOf(fs, c), hash));
            Patched(scope, later, hash, find) == if found.Some? then later.(reasoning := Text(found.value)) else later
  {
    hide Tools, ReasoningOf, PartOf, PartSeen, Trim, KeyForMessage, Ids, ToolComplete, AssembledTool;
    CaptureIgnoresFragmentation(scope, fs, c, TurnOf(fs, c), hash);
    IdsOfValid(TurnOf(fs, c).tools);
    KeyDependsOnlyOnIds(scope, TurnOf(fs, c), later, hash);
  }

  /** The text of choice `c` was accepted at `now` and is the last one written under its key. */
  ghost predicate Current(scope: Scope, fs: seq<Fragment>, c: int, hash: Message -> string, l: Limits,
                          before: map<Key, Entry>, uses: seq<Use>, now: Time)
  {
    var key, full := KeyForMessage(scope, TurnOf(fs, c), hash), Filled(l, before, uses);
    key.Valid() && key in full && full[key] == Entry(ReasoningOf(fs, c), now)
  }

  /** A streamed turn comes back. `before` are the entries before its commit at `now`; `uses` is all
      that has happened to the cache since: the stores of the commit, however many choices the
      stream had, and whatever other requests did. If the text is the last one written under its
      key, and what is not older than `now` fitted all along, then a later assistant message with the
      same ids, in any order, gets exactly the streamed text until the time limit has passed, and
      nothing after. */
  lemma CapturedTurnIsReplayed(scope: Scope, fs: seq<Fragment>, c: int, l: Limits, before: map<Key, Entry>,
                               uses: seq<Use>, now: Time, after: map<Key, Entry>, later: Message, at: Time,
                               hash: Message -> string)
    requires Complete(fs, c) && AllUsed(l, before, uses, after)
    requires Current(scope, fs, c, hash, l, before, uses, now) && Roomy(l, before, uses, now)
    requires LacksReasoning(later) && multiset(Ids(later.tools)) == multiset(Ids(TurnOf(fs, c).tools))
    ensures Patched(scope, later, hash, key => Find(l, after, key, at)) ==
            if at - now <= l.ttl then later.(reasoning := Text(ReasoningOf(fs, c))) else later
  {
    hide ReasoningOf, TurnOf, Trim, KeyForMessage, Ids, Complete, Patched, LacksReasoning, Find, AllUsed, Filled, Roomy;
    KeptIsFound(l, before, uses, after, KeyForMessage(scope, TurnOf(fs, c), hash), ReasoningOf(fs, c), now, at);
    SameIdsSameText(scope, fs, c, later, hash, key => Find(l, after, key, at));
  }

  /** When the conditions hold right after a commit with one complete choice: its text is accepted
      and fits together with the entries that are not older. */
  lemma CurrentAfterCommit(scope: Scope, fs: seq<Fragment>, c: int, hash: Message -> string, l: Limits,
                           before: map<Key, Entry>, now: Time)
    ensures var key, text := KeyForMessage(scope, TurnOf(fs, c), hash), ReasoningOf(fs, c);
            var uses := Writes(Stores(scope, fs, [c], hash), now);
            && (Accepts(l, key, text) ==> Current(scope, fs, c, hash, l, before, uses, now))
            && (Accepts(l, key, text) ==>
                  (Roomy(l, before, uses, now) <==> Fits(l, NotOlder(before[key := Entry(text, now)], now))))
  {
    hide ReasoningOf, TurnOf, KeyForMessage, Trim, Fits;
    var uses := Writes(Stores(scope, fs, [c], hash), now);
    assert uses == [Write(KeyForMessage(scope, TurnOf(fs, c), hash), ReasoningOf(fs, c), now)];
    assert uses[..0] == [] && Filled(l, before, []) == before && Roomy(l, before, [], now);
    if Accepts(l, uses[0].key, uses[0].reasoning) {
      assert Filled(l, before, uses) == before[uses[0].key := Entry(uses[0].reasoning, now)];
    }
  }

  /** The end of a stream, any use of the cache by other requests, and then the next request. */
  method CommitThenPatch(capture: StreamCapture, now: Time, messages: seq<Message>, at: Time)
    returns (patched: seq<Message>, ghost order: seq<int>, ghost others: seq<Use>)
    requires capture.Valid() && capture.cache.Valid() && !capture.failed && !capture.committed
    modifies capture`committed, capture.cache
    ensures |patched| == |messages|
    ensures var fs, l, before := Fragments(capture.lines), capture.cache.limits, old(capture.cache.entries);
            var uses := Writes(Stores(capture.scope, fs, order, capture.hash), now) + others;
            Roomy(l, before, uses, now) ==>
              forall c, i ::
                && c in Choices(fs) && Complete(fs, c) && 0 <= i < |messages| && LacksReasoning(messages[i])
                && Current(capture.scope, fs, c, capture.hash, l, before, uses, now)
                && multiset(Ids(messages[i].tools)) == multiset(Ids(TurnOf(fs, c).tools)) ==>
                  patched[i] == if at - now <= l.ttl then messages[i].(reasoning := Text(ReasoningOf(fs, c)))
                                else messages[i]
    ensures forall c :: c in order <==> c in Choices(Fragments(capture.lines)) && Complete(Fragments(capture.lines), c)
  {
    hide *;
    ghost var fs, l, before := Fragments(capture.lines), capture.cache.limits, capture.cache.entries;
    order := capture.Commit(now);
    ghost var mid := capture.cache.entries;
    others := capture.cache.OthersUse();
    ghost var after := capture.cache.entries;
    ghost var uses := Writes(Stores(capture.scope, fs, order, capture.hash), now) + others;
    UsedConcat(l, before, Writes(Stores(capture.scope, fs, order, capture.hash), now), mid, others, after);
    patched := PatchRequest(capture.scope, messages, capture.cache, at, capture.hash);
    forall c, i | && c in Choices(fs) && Complete(fs, c) && 0 <= i < |messages| && LacksReasoning(messages[i])
                  && Current(capture.scope, fs, c, capture.hash, l, before, uses, now) && Roomy(l, before, uses, now)
                  && multiset(Ids(messages[i].tools)) == multiset(Ids(TurnOf(fs, c).tools))
      ensures patched[i] == if at - now <= l.ttl then messages[i].(reasoning := Text(ReasoningOf(fs, c)))
                            else messages[i]
    {
      CapturedTurnIsReplayed(capture.scope, fs, c, l, before, uses, now, after, messages[i], at, capture.hash);
      assert patched[i] == Patched(capture.scope, messages[i], capture.hash, key => Find(l, after, key, at));
    }
  }

  lemma {:induction false} NotSeen(fs: seq<Fragment>, c: int, t: int, part: Part)
    ensures !PartSeen(fs, c, t, part) ==> PartOf(fs, c, t, part) == ""
  {
    if fs != [] {
      var init, last := fs[..|fs| - 1], fs[|fs| - 1];
      assert fs == init + [last];
      PartSnoc(init, last, c, t, part);
      NotSeen(init, c, t, part);
    }
  }

  lemma CompleteIffValid(fs: seq<Fragment>, c: int, t: int)
    ensures AssembledTool(fs, c, t).Tool?
    ensures var r := AssembledTool(fs, c, t);
            ToolComplete(fs, c, t) <==> Trim(r.id) != "" && r.hasFunction && Trim(r.name) != "" && r.args.Some?
  {
    hide PartOf, PartSeen, Trim;
    NotSeen(fs, c, t, Id);
    NotSeen(fs, c, t, Name);
    assert Trim("") == "" by { BlankIsBlank(); }
  }

  lemma BlankIsBlank()
    ensures Trim("") == ""
  {
  }

  lemma AssistantIsTrimmed()
    ensures Trim("assistant") == "assistant"
  {
    assert TrimLeft("assistant") == "assistant" && TrimRight("assistant") == "assistant";
  }

  lemma IdsOfValid(tools: seq<RawTool>)
    requires ValidToolCalls(tools)
    ensures Ids(tools) != []
  {
    hide Trim;
  }
}
