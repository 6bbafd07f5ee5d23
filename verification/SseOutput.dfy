/** What the repair of a terminal event means for a client: the output items of the response, told from
    the frames alone. */
module SseOutput {
  import opened Basics
  import opened SseFrames
  import opened SseRepair
  import opened SseBatch

  // ---------- The items of a list of payloads ----------

  /** Payload `j` finishes an output item. */
  ghost predicate Finishes(js: Json, ds: seq<Bytes>, j: int) {
    0 <= j < |ds| && js.kind(ds[j]) == ItemDone && js.item(ds[j]).Some?
  }

  ghost function ItemAt(js: Json, ds: seq<Bytes>, j: int): Item
    requires Finishes(js, ds, j)
  {
    js.item(ds[j]).value
  }

  /** `src` lists the payloads whose items make up the output: first `n` with an index, for each index
      the last payload that has it, by increasing index; then all those without, as they came. */
  ghost predicate Gathers(js: Json, ds: seq<Bytes>, src: seq<nat>, n: nat) {
    && n <= |src|
    && (forall i :: 0 <= i < |src| ==> Finishes(js, ds, src[i]) && (ItemAt(js, ds, src[i]).index.Some? <==> i < n))
    && (forall i, j :: 0 <= i < j < n ==> ItemAt(js, ds, src[i]).index.value < ItemAt(js, ds, src[j]).index.value)
    && (forall i, j :: n <= i < j < |src| ==> src[i] < src[j])
    && (forall i, j :: 0 <= i < n && src[i] < j && Finishes(js, ds, j) ==>
          ItemAt(js, ds, j).index != ItemAt(js, ds, src[i]).index)
    && (forall j :: Finishes(js, ds, j) && ItemAt(js, ds, j).index.Some? ==>
          exists i :: 0 <= i < n && ItemAt(js, ds, src[i]).index == ItemAt(js, ds, j).index)
    && (forall j :: Finishes(js, ds, j) && ItemAt(js, ds, j).index.None? ==> exists i :: n <= i < |src| && src[i] == j)
  }

  ghost function RawItems(js: Json, ds: seq<Bytes>, src: seq<nat>): seq<Bytes>
    requires forall i :: 0 <= i < |src| ==> Finishes(js, ds, src[i])
  {
    seq(|src|, i requires 0 <= i < |src| => ItemAt(js, ds, src[i]).raw)
  }

  // ---------- Where the items of a history come from ----------

  /** The events say of items what the payloads say. */
  ghost predicate Tell(js: Json, evs: seq<Event>, ds: seq<Bytes>) {
    && |evs| == |ds|
    && forall j :: 0 <= j < |evs| ==>
      ItemOf(js, evs[j]) == if Finishes(js, ds, j) then Some(ItemAt(js, ds, j)) else None
  }

  ghost function LastAt(js: Json, evs: seq<Event>): map<int, nat> {
    if evs == [] then map[]
    else
      var before := LastAt(js, evs[..|evs| - 1]);
      match ItemOf(js, evs[|evs| - 1])
      case Some(Item(Some(i), _)) => before[i := |evs| - 1]
      case _ => before
  }

  ghost function UnindexedAt(js: Json, evs: seq<Event>): seq<nat> {
    if evs == [] then []
    else
      var before := UnindexedAt(js, evs[..|evs| - 1]);
      match ItemOf(js, evs[|evs| - 1])
      case Some(Item(None, _)) => before + [|evs| - 1]
      case _ => before
  }

  /** Place `p` has the last item with index `i`, which is the one kept. */
  ghost predicate IsLast(js: Json, evs: seq<Event>, i: int, p: nat) {
    && i in ByIndex(js, evs) && p < |evs| && ItemOf(js, evs[p]) == Some(Item(Some(i), ByIndex(js, evs)[i]))
    && forall j :: p < j < |evs| && ItemOf(js, evs[j]).Some? ==> ItemOf(js, evs[j]).value.index != Some(i)
  }

  lemma {:induction false} LastAtIsLast(js: Json, evs: seq<Event>)
    ensures LastAt(js, evs).Keys == ByIndex(js, evs).Keys
    ensures forall i :: i in LastAt(js, evs) ==> IsLast(js, evs, i, LastAt(js, evs)[i])
    ensures forall j :: 0 <= j < |evs| && ItemOf(js, evs[j]).Some? && ItemOf(js, evs[j]).value.index.Some? ==>
              ItemOf(js, evs[j]).value.index.value in LastAt(js, evs)
  {
    hide ItemOf;
    if evs != [] { LastAtIsLast(js, evs[..|evs| - 1]); }
  }

  lemma {:induction false} UnindexedAtIsAll(js: Json, evs: seq<Event>)
    ensures |UnindexedAt(js, evs)| == |Unindexed(js, evs)|
    ensures forall i :: 0 <= i < |UnindexedAt(js, evs)| ==>
              var p := UnindexedAt(js, evs)[i];
              p < |evs| && ItemOf(js, evs[p]) == Some(Item(None, Unindexed(js, evs)[i]))
    ensures forall i, j :: 0 <= i < j < |UnindexedAt(js, evs)| ==> UnindexedAt(js, evs)[i] < UnindexedAt(js, evs)[j]
    ensures forall j :: 0 <= j < |evs| && ItemOf(js, evs[j]).Some? && ItemOf(js, evs[j]).value.index.None? ==>
              j in UnindexedAt(js, evs)
  {
    hide ItemOf;
    if evs != [] { UnindexedAtIsAll(js, evs[..|evs| - 1]); }
  }

  /** `src` are the places of the items under `keys`, then of those without an index. */
  ghost predicate Places(js: Json, evs: seq<Event>, ds: seq<Bytes>, keys: seq<int>, src: seq<nat>) {
    && |src| == |keys| + |Unindexed(js, evs)|
    && (forall i :: 0 <= i < |src| ==> Finishes(js, ds, src[i]))
    && (forall i :: 0 <= i < |keys| ==>
          keys[i] in ByIndex(js, evs) && ItemAt(js, ds, src[i]) == Item(Some(keys[i]), ByIndex(js, evs)[keys[i]]))
    && (forall i :: |keys| <= i < |src| ==>
          ItemAt(js, ds, src[i]) == Item(None, Unindexed(js, evs)[i - |keys|]))
  }

  /** The items of a history are those of its payloads, gathered. */
  lemma ItemsAreGathered(js: Json, evs: seq<Event>, ds: seq<Bytes>) returns (src: seq<nat>, n: nat)
    requires Tell(js, evs, ds)
    ensures Gathers(js, ds, src, n) && Items(js, evs) == RawItems(js, ds, src)
  {
    hide ItemOf, ByIndex, Unindexed, LastAt, UnindexedAt, Finishes, ItemAt, Tell, Gathers, RawItems, Items;
    LastAtIsLast(js, evs);
    UnindexedAtIsAll(js, evs);
    var keys := InOrder(ByIndex(js, evs).Keys);
    assert forall k :: 0 <= k < |keys| ==> keys[k] in keys;
    n := |keys|;
    src := seq(n, k requires 0 <= k < n => LastAt(js, evs)[keys[k]]) + UnindexedAt(js, evs);
    PlacesFound(js, evs, ds, keys, src);
    GatheredItems(js, evs, ds, keys, src);
    LastOfEachIndex(js, evs, ds, keys, src);
    AllUnindexed(js, evs, ds, keys, src);
    GathersFrom(js, evs, ds, keys, src);
  }

  ghost predicate InPlace(js: Json, evs: seq<Event>, keys: seq<int>, src: seq<nat>) {
    && Lists(keys, ByIndex(js, evs).Keys) && LastAt(js, evs).Keys == ByIndex(js, evs).Keys
    && (forall k :: 0 <= k < |keys| ==> keys[k] in LastAt(js, evs))
    && src == seq(|keys|, k requires 0 <= k < |keys| && keys[k] in LastAt(js, evs) => LastAt(js, evs)[keys[k]])
              + UnindexedAt(js, evs)
  }

  lemma PlacesFound(js: Json, evs: seq<Event>, ds: seq<Bytes>, keys: seq<int>, src: seq<nat>)
    requires Tell(js, evs, ds) && InPlace(js, evs, keys, src)
    ensures Places(js, evs, ds, keys, src)
  {
    hide ItemOf, ByIndex, Unindexed, LastAt, UnindexedAt;
    LastAtIsLast(js, evs);
    UnindexedAtIsAll(js, evs);
    forall i | 0 <= i < |keys|
      ensures Finishes(js, ds, src[i])
      ensures ItemAt(js, ds, src[i]) == Item(Some(keys[i]), ByIndex(js, evs)[keys[i]])
    {
      assert keys[i] in LastAt(js, evs);
      assert IsLast(js, evs, keys[i], src[i]);
    }
    forall i | |keys| <= i < |src|
      ensures Finishes(js, ds, src[i]) && ItemAt(js, ds, src[i]) == Item(None, Unindexed(js, evs)[i - |keys|])
    {
      assert src[i] == UnindexedAt(js, evs)[i - |keys|];
    }
  }

  /** Each index is there once, with the last payload that has it. */
  lemma LastOfEachIndex(js: Json, evs: seq<Event>, ds: seq<Bytes>, keys: seq<int>, src: seq<nat>)
    requires Tell(js, evs, ds) && InPlace(js, evs, keys, src)
    ensures |keys| <= |src|
    ensures forall i, j :: 0 <= i < |keys| && src[i] < j && Finishes(js, ds, j) ==>
              ItemAt(js, ds, j).index != Some(keys[i])
    ensures forall j :: Finishes(js, ds, j) && ItemAt(js, ds, j).index.Some? ==>
              exists i :: 0 <= i < |keys| && Some(keys[i]) == ItemAt(js, ds, j).index
  {
    hide ItemOf, ByIndex, Unindexed, LastAt, UnindexedAt;
    LastAtIsLast(js, evs);
    forall i, j | 0 <= i < |keys| && src[i] < j && Finishes(js, ds, j)
      ensures ItemAt(js, ds, j).index != Some(keys[i])
    {
      assert keys[i] in LastAt(js, evs);
      assert IsLast(js, evs, keys[i], src[i]) && ItemOf(js, evs[j]).Some?;
    }
    forall j | Finishes(js, ds, j) && ItemAt(js, ds, j).index.Some?
      ensures exists i :: 0 <= i < |keys| && Some(keys[i]) == ItemAt(js, ds, j).index
    {
      var index := ItemOf(js, evs[j]).value.index.value;
      assert index in LastAt(js, evs);
      assert index in LastAt(js, evs).Keys;
      assert index in keys;
    }
  }

  lemma AllUnindexed(js: Json, evs: seq<Event>, ds: seq<Bytes>, keys: seq<int>, src: seq<nat>)
    requires Tell(js, evs, ds) && InPlace(js, evs, keys, src)
    ensures forall i, j :: |keys| <= i < j < |src| ==> src[i] < src[j]
    ensures forall j :: Finishes(js, ds, j) && ItemAt(js, ds, j).index.None? ==>
              exists i :: |keys| <= i < |src| && src[i] == j
  {
    hide ItemOf, ByIndex, Unindexed, LastAt, UnindexedAt;
    UnindexedAtIsAll(js, evs);
    var un := UnindexedAt(js, evs);
    forall i, j | |keys| <= i < j < |src| ensures src[i] < src[j] {
      assert src[i] == un[i - |keys|] && src[j] == un[j - |keys|];
    }
    forall j | Finishes(js, ds, j) && ItemAt(js, ds, j).index.None?
      ensures exists i :: |keys| <= i < |src| && src[i] == j
    {
      assert ItemOf(js, evs[j]).value.index.None?;
      var i :| 0 <= i < |un| && un[i] == j;
      assert src[|keys| + i] == j;
    }
  }

  lemma GathersFrom(js: Json, evs: seq<Event>, ds: seq<Bytes>, keys: seq<int>, src: seq<nat>)
    requires Places(js, evs, ds, keys, src) && Increasing(keys)
    requires forall i, j :: 0 <= i < |keys| && src[i] < j && Finishes(js, ds, j) ==>
               ItemAt(js, ds, j).index != Some(keys[i])
    requires forall j :: Finishes(js, ds, j) && ItemAt(js, ds, j).index.Some? ==>
               exists i :: 0 <= i < |keys| && Some(keys[i]) == ItemAt(js, ds, j).index
    requires forall i, j :: |keys| <= i < j < |src| ==> src[i] < src[j]
    requires forall j :: Finishes(js, ds, j) && ItemAt(js, ds, j).index.None? ==>
               exists i :: |keys| <= i < |src| && src[i] == j
    ensures Gathers(js, ds, src, |keys|)
  {
    hide ByIndex, Unindexed, Finishes, ItemAt;
    forall j | Finishes(js, ds, j) && ItemAt(js, ds, j).index.Some?
      ensures exists i :: 0 <= i < |keys| && ItemAt(js, ds, src[i]).index == ItemAt(js, ds, j).index
    {
      var i :| 0 <= i < |keys| && Some(keys[i]) == ItemAt(js, ds, j).index;
      assert ItemAt(js, ds, src[i]).index == Some(keys[i]);
    }
  }

  lemma GatheredItems(js: Json, evs: seq<Event>, ds: seq<Bytes>, keys: seq<int>, src: seq<nat>)
    requires Places(js, evs, ds, keys, src) && keys == InOrder(ByIndex(js, evs).Keys)
    ensures Items(js, evs) == RawItems(js, ds, src)
  {
    hide ByIndex, Unindexed;
    var a, b := Items(js, evs), RawItems(js, ds, src);
    assert |a| == |b|;
    forall i | 0 <= i < |a| ensures a[i] == b[i] { }
  }

  // ---------- The repaired output ----------

  ghost function Datas(frames: seq<Bytes>): seq<Bytes> {
    seq(|frames|, i requires 0 <= i < |frames| => Data(frames[i]))
  }

  /** What the JSON library does with output items: those of a payload are `isItem`, and an array of
      such items that was set in a payload is read back from its response by `outputOf`. */
  ghost predicate OutputReadsBack(js: Json, isItem: Bytes -> bool, outputOf: Bytes -> seq<Bytes>) {
    && (forall data :: js.item(data).Some? ==> isItem(js.item(data).value.raw))
    && forall data, list: seq<Bytes>, patched ::
         (forall item :: item in list ==> isItem(item)) && js.setOutput(data, ArrayOf(list)) == Some(patched) ==>
           js.response(patched).Some? && outputOf(js.response(patched).value) == list
  }

  lemma BatchEventsTell(js: Json, frames: seq<Bytes>)
    requires Sane(js)
    ensures Tell(js, BatchEvents(js, frames), Datas(frames))
  {
    hide Data, Strip;
    assert Strip("[DONE]") == "[DONE]" by { DoneIsStripped(); }
  }

  /** The payload a terminal event is rebuilt to: with the missing output put in, or as it was. */
  lemma RebuiltOutput(js: Json, isItem: Bytes -> bool, outputOf: Bytes -> seq<Bytes>, evs: seq<Event>, ds: seq<Bytes>,
                      data: Bytes)
      returns (src: seq<nat>, n: nat)
    requires Tell(js, evs, ds) && OutputReadsBack(js, isItem, outputOf)
    ensures Gathers(js, ds, src, n)
    ensures var patched, list := Rebuilt(js, evs, data), RawItems(js, ds, src);
            if js.lacksOutput(data) && list != [] && js.setOutput(data, ArrayOf(list)).Some?
            then js.response(patched).Some? && outputOf(js.response(patched).value) == list else patched == data
  {
    hide ByIndex, Unindexed, Items, Tell, ArrayOf;
    src, n := ItemsAreGathered(js, evs, ds);
    var list := RawItems(js, ds, src);
    forall item | item in list ensures isItem(item) {
      var i :| 0 <= i < |list| && list[i] == item;
      assert Finishes(js, ds, src[i]);
    }
  }

  /** The repair, told from the frames. Whenever the batch reader makes a response of an event stream
      and the payload of its terminal event lacks output, the output of that response is the list of
      items that the frames before have finished, gathered; a payload that has output, or no items to
      get, gives the response it carries. The incremental reader writes, for the same frame, the frame
      itself or the same event with the repaired payload, which carries the same response as long as
      the data of every frame stands on one line. */
  lemma MissingOutputIsFilled(js: Json, isItem: Bytes -> bool, outputOf: Bytes -> seq<Bytes>, strict: bool, body: Bytes,
                              r: Result<Bytes>)
      returns (k: nat, src: seq<nat>, n: nat, written: Bytes)
    requires Sane(js) && OutputReadsBack(js, isItem, outputOf) && Strip(body) != "" && !IsBare(body)
    requires Answers(js, strict, BatchEvents(js, RawFrames(body)), r) && r.Ok?
    ensures FirstTerminal(BatchEvents(js, RawFrames(body)), k) && k < |RawFrames(body)|
    ensures Wrote(js, strict, body, k, written) && Gathers(js, Datas(RawFrames(body)[..k]), src, n)
    ensures var frame, data := ClosedFrames(body)[k], Data(RawFrames(body)[k]);
            var list := RawItems(js, Datas(RawFrames(body)[..k]), src);
            if js.lacksOutput(data) && list != [] && js.setOutput(data, ArrayOf(list)).Some?
            then
              && outputOf(r.value) == list
              && (KeepsLines(js) && (forall f :: f in RawFrames(body) ==> '\n' !in Data(f)) ==>
                    js.response(Data(written)) == Some(r.value) && SseFrames.Event(written) == SseFrames.Event(frame))
            else js.response(data) == Some(r.value) && written == frame
  {
    hide Data, Strip, RawFrames, ClosedFrames, Answers, Compact, KeepsLines, FirstTerminal, Sane, Rebuilt,
         Gathers, Repaired, Output, Emitted, OutputReadsBack, BatchEvents, RawItems, ArrayOf, ReplaceData;
    var patched;
    k, patched, written := IncrementalAgreesWithBatch(js, strict, body, r);
    var frames := RawFrames(body);
    BatchEventsPrefix(js, frames, k);
    BatchEventsTell(js, frames[..k]);
    src, n := RebuiltOutput(js, isItem, outputOf, BatchEvents(js, frames)[..k], Datas(frames[..k]), Data(frames[k]));
    if KeepsLines(js) && forall f :: f in frames ==> '\n' !in Data(f) {
      OneLinePayload(js, frames, k);
      ReplacedDataReadsBack(ClosedFrames(body)[k], patched);
      ReplacedDataKeepsEvent(ClosedFrames(body)[k], patched);
    }
  }

  lemma BatchEventsPrefix(js: Json, frames: seq<Bytes>, k: nat)
    requires k <= |frames|
    ensures |BatchEvents(js, frames)| == |frames| && BatchEvents(js, frames)[..k] == BatchEvents(js, frames[..k])
  {
    hide BatchEvent;
  }

  lemma OneLinePayload(js: Json, frames: seq<Bytes>, k: nat)
    requires k < |frames| && KeepsLines(js) && forall f :: f in frames ==> '\n' !in Data(f)
    ensures Compact(Rebuilt(js, BatchEvents(js, frames[..k]), Data(frames[k])))
    ensures '\n' !in Rebuilt(js, BatchEvents(js, frames[..k]), Data(frames[k]))
  {
    hide Data, Strip, Rebuilt, KeepsLines;
    var before := BatchEvents(js, frames[..k]);
    assert frames[k] in frames;
    OneLineData(frames[k]);
    forall ev | ev in before && ev.Payload? ensures '\n' !in ev.data {
      var i: nat :| i < k && before[i] == ev;
      assert frames[i] in frames;
    }
    RebuiltKeepsLine(js, before, Data(frames[k]));
  }

  // ---------- Failures ----------

  /** A stream that ends in a failure: the batch reader reports an upstream error; the incremental one
      relays a response.failed, and turns an error event into an error frame. */
  lemma FailuresAgree(js: Json, strict: bool, body: Bytes, k: nat) returns (written: Bytes)
    requires Sane(js) && FirstTerminal(BatchEvents(js, RawFrames(body)), k) && k < |RawFrames(body)|
    requires js.kind(Data(RawFrames(body)[k])) in {Failed, ErrorEvent}
    ensures Answer(js, strict, BatchEvents(js, RawFrames(body))[..k], BatchEvents(js, RawFrames(body))[k])
            == Err(UPSTREAM_ERROR)
    ensures Wrote(js, strict, body, k, written)
    ensures written == if js.kind(Data(RawFrames(body)[k])) == ErrorEvent
                       then "event: error\ndata: " + js.errorChunk(Data(RawFrames(body)[k])) + "\n\n"
                       else ClosedFrames(body)[k]
  {
    hide ByIndex, Unindexed, Data, Strip, Frames, Emitted, RawFrames, Shown, Ended, BatchShown, ClosedFrames, Rebuilt,
         EventOfFrame;
    var frames := ClosedFrames(body);
    var evs, bvs := Events(js, frames), BatchEvents(js, RawFrames(body));
    EventsAlike(js, body);
    assert Alike(evs[k], bvs[k]);
    assert evs[k] == EventOfFrame(js, frames[k]);
    written := Repaired(js, strict, Events(js, frames[..k]), frames[k]);
    EmittedSnoc(js, strict, frames[..k], frames[k]);
    assert frames[..k] + [frames[k]] == frames[..k + 1] && frames[..k + 1] + frames[k + 1..] == frames;
    EmittedConcat(js, strict, frames[..k + 1], frames[k + 1..]);
  }

  /** What comes before the terminal event is relayed byte for byte, if visible output is not required
      or was shown before every end mark. */
  lemma PrefixIsRelayed(js: Json, strict: bool, body: Bytes, k: nat)
    requires Sane(js) && FirstTerminal(BatchEvents(js, RawFrames(body)), k) && k < |ClosedFrames(body)|
    requires strict ==> InTime(js, Events(js, ClosedFrames(body)[..k]))
    ensures Emitted(js, strict, ClosedFrames(body)[..k]) == Concat(ClosedFrames(body)[..k])
  {
    hide Data, Strip, Frames, RawFrames, ClosedFrames, EventOfFrame, BatchEvent, InTime, Emitted, Concat;
    EventsAlike(js, body);
    var frames := ClosedFrames(body);
    forall j | 0 <= j < k ensures !Terminal(EventOfFrame(js, frames[..k][j])) {
      assert Alike(Events(js, frames)[j], BatchEvents(js, RawFrames(body))[j]);
    }
    Relayed(js, strict, frames[..k]);
  }
}
