/** The incremental repair of a Responses event stream: frames pass through, a terminal event
    whose output is missing gets the output items seen before it, and a stream that shows
    nothing can be turned into an error. */
module SseRepair {
  import opened Basics
  import opened SseFrames

  datatype Item = Item(index: Option<int>, raw: Bytes)

  /** The event types the repair looks at, "response.output_item.added" and so on. */
  datatype Kind = ItemAdded | ItemDone | TextDelta | Completed | Incomplete | Failed | ErrorEvent | Other

  /** The JSON library, as functions of a payload. */
  datatype Json = Json(
    kind: Bytes -> Kind,                        // its "type"
    item: Bytes -> Option<Item>,                // its "item", if that is an object, and "output_index"
    itemVisible: Bytes -> bool,
    deltaVisible: Bytes -> bool,
    lacksOutput: Bytes -> bool,                 // "response.output" is missing, no array or empty
    setOutput: (Bytes, Bytes) -> Option<Bytes>, // with "response.output" set
    response: Bytes -> Option<Bytes>,           // its "response", if that is an object
    visible: Bytes -> bool,                     // of a response: it shows text or a tool call
    errorChunk: Bytes -> Bytes,
    noOutputChunk: Bytes)

  // ---------- Events ----------

  datatype Event = Silent | DoneMark | Payload(kind: Kind, data: Bytes)

  function EventOfFrame(js: Json, frame: Bytes): Event {
    var data := Data(frame);
    if data == "" then Silent
    else if Strip(data) == "[DONE]" then DoneMark
    else Payload(js.kind(data), data)
  }

  function Events(js: Json, frames: seq<Bytes>): seq<Event> {
    seq(|frames|, i requires 0 <= i < |frames| => EventOfFrame(js, frames[i]))
  }

  lemma EventsSnoc(js: Json, frames: seq<Bytes>, frame: Bytes)
    ensures Events(js, frames + [frame]) == Events(js, frames) + [EventOfFrame(js, frame)]
  {
  }

  predicate Ends(ev: Event) { ev.Payload? && (ev.kind == Completed || ev.kind == Incomplete) }

  predicate Terminal(ev: Event) { Ends(ev) || (ev.Payload? && (ev.kind == Failed || ev.kind == ErrorEvent)) }

  // ---------- The output items of a history ----------

  function ItemOf(js: Json, ev: Event): Option<Item> {
    if ev.Payload? && ev.kind == ItemDone then js.item(ev.data) else None
  }

  /** The last finished item of every output index. */
  function ByIndex(js: Json, evs: seq<Event>): map<int, Bytes> {
    if evs == [] then map[]
    else
      var before := ByIndex(js, evs[..|evs| - 1]);
      match ItemOf(js, evs[|evs| - 1])
      case Some(Item(Some(i), raw)) => before[i := raw]
      case _ => before
  }

  /** The finished items without an index, in order of arrival. */
  function Unindexed(js: Json, evs: seq<Event>): seq<Bytes> {
    if evs == [] then []
    else
      var before := Unindexed(js, evs[..|evs| - 1]);
      match ItemOf(js, evs[|evs| - 1])
      case Some(Item(None, raw)) => before + [raw]
      case _ => before
  }

  function Listed(items: map<int, Bytes>, keys: seq<int>): seq<Bytes>
    requires forall k :: 0 <= k < |keys| ==> keys[k] in items
  {
    seq(|keys|, k requires 0 <= k < |keys| => items[keys[k]])
  }

  /** Indexed items by increasing index, then the others by arrival. */
  ghost function Items(js: Json, evs: seq<Event>): seq<Bytes> {
    var byIndex := ByIndex(js, evs);
    var keys := InOrder(byIndex.Keys);
    assert forall k :: 0 <= k < |keys| ==> keys[k] in keys;
    Listed(byIndex, keys) + Unindexed(js, evs)
  }

  function ArrayOf(items: seq<Bytes>): Bytes { "[" + Join(items, ",") + "]" }

  /** A terminal payload with the missing output put in, where there is any. */
  ghost function Rebuilt(js: Json, before: seq<Event>, data: Bytes): Bytes {
    if js.lacksOutput(data) && Items(js, before) != [] then
      match js.setOutput(data, ArrayOf(Items(js, before)))
      case None => data
      case Some(patched) => patched
    else data
  }

  // ---------- What was shown ----------

  function ResponseVisible(js: Json, data: Bytes): bool {
    js.response(data).Some? && js.visible(js.response(data).value)
  }

  ghost predicate Shows(js: Json, before: seq<Event>, ev: Event) {
    && ev.Payload?
    && (|| ((ev.kind == ItemAdded || ev.kind == ItemDone) && js.itemVisible(ev.data))
        || (ev.kind == TextDelta && js.deltaVisible(ev.data))
        || (Ends(ev) && ResponseVisible(js, Rebuilt(js, before, ev.data))))
  }

  ghost predicate Shown(js: Json, evs: seq<Event>) {
    evs != [] && (Shown(js, evs[..|evs| - 1]) || Shows(js, evs[..|evs| - 1], evs[|evs| - 1]))
  }

  ghost predicate Ended(js: Json, strict: bool, evs: seq<Event>) {
    && evs != []
    && var init := evs[..|evs| - 1];
       Ended(js, strict, init) || Terminal(evs[|evs| - 1]) || (evs[|evs| - 1].DoneMark? && strict && !Shown(js, init))
  }

  lemma HistorySnoc(js: Json, strict: bool, evs: seq<Event>, ev: Event)
    ensures ByIndex(js, evs + [ev]) == (match ItemOf(js, ev)
                                        case Some(Item(Some(i), raw)) => ByIndex(js, evs)[i := raw]
                                        case _ => ByIndex(js, evs))
    ensures Unindexed(js, evs + [ev]) == (match ItemOf(js, ev)
                                          case Some(Item(None, raw)) => Unindexed(js, evs) + [raw]
                                          case _ => Unindexed(js, evs))
    ensures Shown(js, evs + [ev]) <==> Shown(js, evs) || Shows(js, evs, ev)
    ensures Ended(js, strict, evs + [ev]) <==>
            Ended(js, strict, evs) || Terminal(ev) || (ev.DoneMark? && strict && !Shown(js, evs))
  {
    hide Shows, Terminal;
    assert (evs + [ev])[..|evs|] == evs;
  }

  // ---------- What is written ----------

  function ErrorFrame(chunk: Bytes): Bytes { "event: error\ndata: " + chunk + "\n\n" }

  /** The stream so far is an error if nothing was shown and nothing ended it. */
  ghost predicate Blank(js: Json, strict: bool, evs: seq<Event>) {
    strict && !Shown(js, evs) && !Ended(js, strict, evs)
  }

  ghost function Repaired(js: Json, strict: bool, before: seq<Event>, frame: Bytes): Bytes {
    match EventOfFrame(js, frame)
    case Silent => frame
    case DoneMark => if Blank(js, strict, before) then ErrorFrame(js.noOutputChunk) else frame
    case Payload(kind, data) =>
      if kind == Completed || kind == Incomplete then
        var patched := Rebuilt(js, before, data);
        if strict && !Shown(js, before) && !ResponseVisible(js, patched) && kind != Incomplete
        then ErrorFrame(js.noOutputChunk)
        else if patched != data then ReplaceData(frame, patched)
        else frame
      else if kind == ErrorEvent then ErrorFrame(js.errorChunk(data))
      else frame
  }

  ghost function Emitted(js: Json, strict: bool, frames: seq<Bytes>): Bytes {
    if frames == [] then ""
    else
      var init := frames[..|frames| - 1];
      Emitted(js, strict, init) + Repaired(js, strict, Events(js, init), frames[|frames| - 1])
  }

  lemma EmittedSnoc(js: Json, strict: bool, frames: seq<Bytes>, frame: Bytes)
    ensures Emitted(js, strict, frames + [frame]) ==
            Emitted(js, strict, frames) + Repaired(js, strict, Events(js, frames), frame)
  {
    assert (frames + [frame])[..|frames|] == frames;
  }

  /** The frames of a whole stream; what is left at its end is closed and counts as a frame. */
  function ClosedFrames(bytes: Bytes): seq<Bytes> {
    var (frames, rest) := Frames(bytes);
    if rest == "" then frames else frames + [rest + LF_LF]
  }

  ghost function Output(js: Json, strict: bool, bytes: Bytes): Bytes {
    var frames := ClosedFrames(bytes);
    Emitted(js, strict, frames)
    + if Blank(js, strict, Events(js, frames)) then ErrorFrame(js.noOutputChunk) else ""
  }

  // ---------- The framer ----------

  class Framer {
    const js: Json
    const requireVisibleOutput: bool
    var pending: Bytes
    var outputItemsByIndex: map<int, Bytes>
    var outputItemsFallback: seq<Bytes>
    var sawVisibleOutput: bool
    var sawTerminal: bool
    var dst: Bytes
    ghost var frames: seq<Bytes>
    ghost var received: Bytes

    /** The fields say what the history of frames says. */
    ghost predicate InStep() reads this {
      && outputItemsByIndex == ByIndex(js, Events(js, frames))
      && outputItemsFallback == Unindexed(js, Events(js, frames))
      && sawVisibleOutput == Shown(js, Events(js, frames))
      && sawTerminal == Ended(js, requireVisibleOutput, Events(js, frames))
    }

    ghost predicate Valid() reads this {
      InStep() && Frames(received) == (frames, pending) && dst == Emitted(js, requireVisibleOutput, frames)
    }

    constructor (js: Json, requireVisibleOutput: bool)
      ensures Valid() && received == "" && this.js == js && this.requireVisibleOutput == requireVisibleOutput
    {
      this.js, this.requireVisibleOutput := js, requireVisibleOutput;
      pending, outputItemsByIndex, outputItemsFallback, sawVisibleOutput, sawTerminal := "", map[], [], false, false;
      dst, frames, received := "", [], "";
    }

    method WriteChunk(chunk: Bytes)
      requires Valid()
      modifies this
      ensures Valid() && received == old(received) + chunk
    {
      hide Events, Frames, FrameEnd, Emitted, Repaired, ByIndex, Unindexed, Shown, Ended;
      FramesOfMore(received, chunk);
      received := received + chunk;
      pending := pending + chunk;
      while true
        invariant InStep() && received == old(received) + chunk
        invariant Frames(received) == (frames + Frames(pending).0, Frames(pending).1)
        invariant dst == Emitted(js, requireVisibleOutput, frames)
        decreases |pending|
      {
        var frameEnd := FrameEnd(pending);
        FirstFrame(pending);
        if frameEnd.None? {
          assert frames + [] == frames;
          return;
        }
        var frame := pending[..frameEnd.value];
        assert frames + Frames(pending).0 == frames + [frame] + Frames(pending[frameEnd.value..]).0;
        pending := pending[frameEnd.value..];
        EmittedSnoc(js, requireVisibleOutput, frames, frame);
        var repaired := RepairFrame(frame);
        dst := dst + repaired;
      }
    }

    /** The end of the stream. What is pending never ends in a terminator. */
    method Flush()
      requires Valid()
      modifies this
      ensures dst == Output(js, requireVisibleOutput, received) && received == old(received)
      ensures pending == ""
    {
      hide Events, FrameEnd, Emitted, Repaired, Shown, Ended, ByIndex, Unindexed;
      ghost var before := frames;
      if pending == "" {
        if requireVisibleOutput && !sawVisibleOutput && !sawTerminal {
          dst := dst + ErrorFrame(js.noOutputChunk);
        } else {
          assert dst + "" == dst;
        }
        return;
      }
      var frame := pending;
      EarliestStartIsEarliestEnd(frame);
      assert !Terminated(frame, |frame|);
      if !HasSuffix(frame, LF_LF) && !HasSuffix(frame, CRLF_CRLF) { frame := frame + LF_LF; }
      pending := "";
      EmittedSnoc(js, requireVisibleOutput, before, frame);
      var repaired := RepairFrame(frame);
      dst := dst + repaired;
      if requireVisibleOutput && !sawVisibleOutput && !sawTerminal {
        dst := dst + ErrorFrame(js.noOutputChunk);
      } else {
        assert dst + "" == dst;
      }
    }

    method RepairFrame(frame: Bytes) returns (r: Bytes)
      requires InStep()
      modifies this`outputItemsByIndex, this`outputItemsFallback, this`sawVisibleOutput, this`sawTerminal, this`frames
      ensures InStep() && frames == old(frames) + [frame]
      ensures r == Repaired(js, requireVisibleOutput, Events(js, old(frames)), frame)
    {
      hide Events, Data, Strip, Rebuilt, ReplaceData, ByIndex, Unindexed, Shown, Ended, ResponseVisible, ErrorFrame;
      ghost var evs := Events(js, frames);
      EventsSnoc(js, frames, frame);
      HistorySnoc(js, requireVisibleOutput, evs, EventOfFrame(js, frame));
      frames := frames + [frame];
      r := frame;
      var data := Data(frame);
      if |data| == 0 { return; }
      if Strip(data) == "[DONE]" {
        if requireVisibleOutput && !sawVisibleOutput && !sawTerminal {
          sawTerminal := true;
          r := ErrorFrame(js.noOutputChunk);
        }
        return;
      }
      r := RepairPayload(frame, data, evs);
    }

    method RepairPayload(frame: Bytes, data: Bytes, ghost before: seq<Event>) returns (r: Bytes)
      requires outputItemsByIndex == ByIndex(js, before) && outputItemsFallback == Unindexed(js, before)
      requires sawVisibleOutput == Shown(js, before)
      requires EventOfFrame(js, frame) == Payload(js.kind(data), data)
      modifies this`outputItemsByIndex, this`outputItemsFallback, this`sawVisibleOutput, this`sawTerminal
      ensures var ev := Payload(js.kind(data), data);
              && outputItemsByIndex == ByIndex(js, before + [ev]) && outputItemsFallback == Unindexed(js, before + [ev])
              && sawVisibleOutput == (Shown(js, before) || Shows(js, before, ev))
              && sawTerminal == (old(sawTerminal) || Terminal(ev))
      ensures r == Repaired(js, requireVisibleOutput, before, frame)
    {
      hide Events, Data, Strip, EventOfFrame, Rebuilt, ReplaceData, ByIndex, Unindexed, Shown, Ended, ResponseVisible,
           ErrorFrame;
      var kind := js.kind(data);
      HistorySnoc(js, requireVisibleOutput, before, Payload(kind, data));
      r := frame;
      match kind
      case ItemAdded =>
        if js.itemVisible(data) { sawVisibleOutput := true; }
      case ItemDone =>
        outputItemsByIndex, outputItemsFallback :=
          CollectOutputItem(js, data, outputItemsByIndex, outputItemsFallback, before);
        if js.itemVisible(data) { sawVisibleOutput := true; }
      case TextDelta =>
        if js.deltaVisible(data) { sawVisibleOutput := true; }
      case Completed =>
        r := RepairCompleted(frame, data, kind, before);
      case Incomplete =>
        r := RepairCompleted(frame, data, kind, before);
      case Failed =>
        sawTerminal := true;
      case ErrorEvent =>
        sawTerminal := true;
        r := ErrorFrame(js.errorChunk(data));
      case Other =>
    }

    method RepairCompleted(frame: Bytes, data: Bytes, kind: Kind, ghost before: seq<Event>) returns (r: Bytes)
      requires outputItemsByIndex == ByIndex(js, before) && outputItemsFallback == Unindexed(js, before)
      modifies this`sawVisibleOutput, this`sawTerminal
      ensures sawTerminal
      ensures sawVisibleOutput == (old(sawVisibleOutput) || ResponseVisible(js, Rebuilt(js, before, data)))
      ensures r == if requireVisibleOutput && !sawVisibleOutput && kind != Incomplete then ErrorFrame(js.noOutputChunk)
                   else if Rebuilt(js, before, data) != data then ReplaceData(frame, Rebuilt(js, before, data))
                   else frame
    {
      hide *;
      sawTerminal := true;
      var patched := PatchCompletedOutput(js, data, outputItemsByIndex, outputItemsFallback, before);
      if ResponseVisible(js, patched) { sawVisibleOutput := true; }
      if requireVisibleOutput && !sawVisibleOutput && kind != Incomplete { return ErrorFrame(js.noOutputChunk); }
      if patched != data { return ReplaceData(frame, patched); }
      return frame;
    }
  }

  /** The items of a history, once one more item is finished. */
  method CollectOutputItem(js: Json, data: Bytes, byIndex: map<int, Bytes>, unindexed: seq<Bytes>,
                           ghost before: seq<Event>)
      returns (byIndex': map<int, Bytes>, unindexed': seq<Bytes>)
    requires byIndex == ByIndex(js, before) && unindexed == Unindexed(js, before)
    ensures byIndex' == ByIndex(js, before + [Payload(ItemDone, data)])
    ensures unindexed' == Unindexed(js, before + [Payload(ItemDone, data)])
  {
    hide ByIndex, Unindexed;
    HistorySnoc(js, false, before, Payload(ItemDone, data));
    var item := js.item(data);
    if item.None? { return byIndex, unindexed; }
    if item.value.index.Some? {
      return byIndex[item.value.index.value := item.value.raw], unindexed;
    }
    return byIndex, unindexed + [item.value.raw];
  }

  predicate HasSuffix(s: Bytes, suffix: Bytes) {
    |suffix| <= |s| && s[|s| - |suffix|..] == suffix
  }

  method PatchCompletedOutput(js: Json, data: Bytes, byIndex: map<int, Bytes>, unindexed: seq<Bytes>,
                              ghost before: seq<Event>)
      returns (r: Bytes)
    requires byIndex == ByIndex(js, before) && unindexed == Unindexed(js, before)
    ensures r == Rebuilt(js, before, data)
  {
    hide ByIndex, Unindexed, Join, Items, Lists, Listed;
    var indexes := SortedKeys(byIndex.Keys);
    ItemsInOrder(js, before, indexes);
    var shouldPatch := js.lacksOutput(data) && (|byIndex| > 0 || |unindexed| > 0);
    if !shouldPatch { return data; }
    var indexed := Listed(byIndex, indexes);
    assert "[" + Join([], ",") == "[" by { NothingJoined(); }
    var buf := WriteItems("[", false, indexed, []);
    assert [] + indexed == indexed;
    buf := WriteItems(buf, |indexes| > 0, unindexed, indexed);
    var patched := js.setOutput(data, buf + "]");
    return if patched.None? then data else patched.value;
  }

  /** The items after those already in `buf`, with commas between them. */
  method WriteItems(start: Bytes, any: bool, items: seq<Bytes>, ghost written: seq<Bytes>) returns (buf: Bytes)
    requires start == "[" + Join(written, ",") && any == (written != [])
    ensures buf == "[" + Join(written + items, ",")
  {
    hide Join;
    buf := start;
    var wrote := any;
    assert written + items[..0] == written;
    var k := 0;
    while k < |items|
      invariant 0 <= k <= |items| && wrote == (written + items[..k] != [])
      invariant buf == "[" + Join(written + items[..k], ",")
    {
      JoinSnoc(written + items[..k], items[k]);
      assert written + items[..k + 1] == written + items[..k] + [items[k]];
      ghost var so := Join(written + items[..k], ",");
      assert ("[" + so) + "," + items[k] == "[" + (so + "," + items[k]) && "" + items[k] == items[k];
      if wrote { buf := buf + ","; } else { NothingJoined(); }
      buf := buf + items[k];
      wrote := true;
      k := k + 1;
    }
    assert items[..k] == items;
  }

  lemma NothingJoined()
    ensures Join([], ",") == ""
  {
  }

  lemma ItemsInOrder(js: Json, before: seq<Event>, indexes: seq<int>)
    requires Lists(indexes, ByIndex(js, before).Keys)
    ensures forall k :: 0 <= k < |indexes| ==> indexes[k] in ByIndex(js, before)
    ensures Items(js, before) == Listed(ByIndex(js, before), indexes) + Unindexed(js, before)
    ensures |Listed(ByIndex(js, before), indexes)| == |indexes|
    ensures |ByIndex(js, before)| > 0 <==> indexes != []
  {
    hide ByIndex, Unindexed;
    var keys := ByIndex(js, before).Keys;
    ListingIsUnique(indexes, InOrder(keys), keys);
    NothingListed(ByIndex(js, before), indexes);
    assert forall k :: 0 <= k < |indexes| ==> indexes[k] in indexes;
  }

  lemma NothingListed(items: map<int, Bytes>, keys: seq<int>)
    requires Lists(keys, items.Keys)
    ensures |items| > 0 <==> keys != []
  {
    if keys != [] { assert keys[0] in keys && items != map[]; }
    if |items| > 0 {
      var some := Member(items.Keys);
      assert some in keys;
    }
  }

  lemma JoinSnoc(parts: seq<Bytes>, part: Bytes)
    ensures Join(parts + [part], ",") == (if parts == [] then "" else Join(parts, ",") + ",") + part
  {
    assert (parts + [part])[..|parts|] == parts;
  }

  /** The output depends only on the bytes, not on how they were cut into chunks. */
  method RelayChunks(js: Json, requireVisibleOutput: bool, chunks: seq<Bytes>) returns (output: Bytes)
    ensures output == Output(js, requireVisibleOutput, Concat(chunks))
  {
    hide *;
    var framer := new Framer(js, requireVisibleOutput);
    var k := 0;
    assert Concat(chunks[..0]) == "" by { NoChunks(); }
    while k < |chunks|
      invariant 0 <= k <= |chunks| && framer.Valid() && fresh(framer)
      invariant framer.received == Concat(chunks[..k])
    {
      ConcatSnoc(chunks[..k], chunks[k]);
      assert chunks[..k + 1] == chunks[..k] + [chunks[k]];
      framer.WriteChunk(chunks[k]);
      k := k + 1;
    }
    assert chunks[..k] == chunks;
    framer.Flush();
    output := framer.dst;
  }

  lemma NoChunks()
    ensures Concat([]) == ""
  {
  }

  lemma ConcatSnoc(parts: seq<Bytes>, part: Bytes)
    ensures Concat(parts + [part]) == Concat(parts) + part
  {
    assert (parts + [part])[..|parts|] == parts;
  }
}
