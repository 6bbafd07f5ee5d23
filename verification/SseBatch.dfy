/** A whole Responses event stream read into one response, and its agreement with the
    incremental repair of the same bytes. */
module SseBatch {
  import opened Basics
  import opened SseFrames
  import opened SseRepair

  /** More of the JSON library, for bodies that are JSON and not an event stream. */
  datatype Bare = Bare(valid: Bytes -> bool, response: Bytes -> Option<Bytes>, incomplete: Bytes -> bool)

  const EMPTY_BODY := "OAuth upstream returned an empty response"
  const INVALID_BODY := "OAuth upstream returned invalid JSON"
  const NO_OUTPUT := "OAuth upstream response completed without visible assistant output or tool calls"
  const NO_RESPONSE := "OAuth upstream terminal event is missing response"
  const UPSTREAM_ERROR := "OAuth upstream returned error"
  const TRUNCATED := "OAuth upstream stream ended before response.completed"

  // ---------- What the batch reader makes of a list of frames ----------

  /** The batch reader tests for `[DONE]` without stripping, and does not skip empty data. */
  function BatchEvent(js: Json, frame: Bytes): Event {
    if Data(frame) == "[DONE]" then DoneMark else Payload(js.kind(Data(frame)), Data(frame))
  }

  function BatchEvents(js: Json, frames: seq<Bytes>): seq<Event> {
    seq(|frames|, i requires 0 <= i < |frames| => BatchEvent(js, frames[i]))
  }

  function RawFrames(body: Bytes): seq<Bytes> {
    var (frames, rest) := Frames(body);
    if rest == "" then frames else frames + [rest]
  }

  /** The batch reader does not take an announced item for output. */
  predicate BatchShows(js: Json, ev: Event) {
    && ev.Payload?
    && ((ev.kind == ItemDone && js.itemVisible(ev.data)) || (ev.kind == TextDelta && js.deltaVisible(ev.data)))
  }

  ghost predicate BatchShown(js: Json, evs: seq<Event>) { exists ev :: ev in evs && BatchShows(js, ev) }

  /** The answer, given by the first terminal event. */
  ghost function Answer(js: Json, strict: bool, before: seq<Event>, ev: Event): Result<Bytes>
    requires Terminal(ev)
  {
    if !Ends(ev) then Err(UPSTREAM_ERROR)
    else
      var patched := Rebuilt(js, before, ev.data);
      match js.response(patched)
      case None => Err(NO_RESPONSE)
      case Some(response) =>
        if strict && !BatchShown(js, before) && !js.visible(response) && ev.kind != Incomplete then Err(NO_OUTPUT)
        else Ok(response)
  }

  ghost predicate FirstTerminal(evs: seq<Event>, k: nat) {
    k < |evs| && Terminal(evs[k]) && forall j :: 0 <= j < k ==> !Terminal(evs[j])
  }

  // ---------- The batch reader ----------

  predicate IsBare(body: Bytes) { Strip(body) != "" && Strip(body)[0] == '{' }

  /** The answer of the first terminal event, or an error if there is none. */
  ghost predicate Answers(js: Json, strict: bool, evs: seq<Event>, r: Result<Bytes>) {
    && (forall k: nat :: FirstTerminal(evs, k) ==> r == Answer(js, strict, evs[..k], evs[k]))
    && ((forall k :: 0 <= k < |evs| ==> !Terminal(evs[k])) ==> r == Err(TRUNCATED))
  }

  lemma AnswersFirst(js: Json, strict: bool, evs: seq<Event>, k: nat)
    requires FirstTerminal(evs, k)
    ensures Answers(js, strict, evs, Answer(js, strict, evs[..k], evs[k]))
  {
    hide Answer, Terminal;
    forall j: nat | FirstTerminal(evs, j) ensures j == k { }
  }

  /** The body as one response. */
  method ResponseFromSse(js: Json, bare: Bare, requireVisibleOutput: bool, body: Bytes) returns (r: Result<Bytes>)
    ensures Strip(body) == "" ==> r == Err(EMPTY_BODY)
    ensures IsBare(body) ==>
              var json := Strip(body);
              var response := if bare.response(json).Some? then bare.response(json).value else json;
              && (r == Err(INVALID_BODY) <==> !bare.valid(json))
              && (r == Ok(response) <==>
                    bare.valid(json) && (requireVisibleOutput ==> bare.incomplete(response) || js.visible(response)))
              && (r.Ok? || r == Err(INVALID_BODY) || r == Err(NO_OUTPUT))
    ensures Strip(body) != "" && !IsBare(body) ==>
              Answers(js, requireVisibleOutput, BatchEvents(js, RawFrames(body)), r)
  {
    var trimmed := Strip(body);
    if |trimmed| == 0 { return Err(EMPTY_BODY); }
    if trimmed[0] == '{' {
      if !bare.valid(trimmed) { return Err(INVALID_BODY); }
      var response := trimmed;
      if bare.response(trimmed).Some? { response := bare.response(trimmed).value; }
      if requireVisibleOutput && !bare.incomplete(response) && !js.visible(response) { return Err(NO_OUTPUT); }
      return Ok(response);
    }
    r := ReadFrames(js, requireVisibleOutput, body);
  }

  method ReadFrames(js: Json, requireVisibleOutput: bool, body: Bytes) returns (r: Result<Bytes>)
    ensures Answers(js, requireVisibleOutput, BatchEvents(js, RawFrames(body)), r)
  {
    hide ByIndex, Unindexed, Data, FrameEnd, Rebuilt, RawFrames, BatchShown, Shown, Ended;
    ghost var evs := BatchEvents(js, RawFrames(body));
    ghost var n: nat := 0;
    var outputItemsByIndex: map<int, Bytes> := map[];
    var outputItemsFallback: seq<Bytes> := [];
    var sawVisibleOutput := false;
    var rest := body;
    assert RawFrames(body)[0..] == RawFrames(body);
    NothingSeen(js);
    while |rest| > 0
      invariant n <= |evs| && RawFrames(body)[n..] == RawFrames(rest)
      invariant outputItemsByIndex == ByIndex(js, evs[..n]) && outputItemsFallback == Unindexed(js, evs[..n])
      invariant sawVisibleOutput == BatchShown(js, evs[..n])
      invariant forall k :: 0 <= k < n ==> !Terminal(evs[k])
      decreases |rest|
    {
      FirstRawFrame(rest);
      var end := FrameEnd(rest);
      var frameEnd := if end.None? then |rest| else end.value;
      var eventData := Data(rest[..frameEnd]);
      ghost var all := RawFrames(body);
      assert all[n] == all[n..][0] == rest[..frameEnd] && all[n + 1..] == all[n..][1..];
      rest := rest[frameEnd..];
      ghost var before, ev := evs[..n], evs[n];
      assert evs[..n + 1] == before + [ev] && ev == BatchEvent(js, all[n]);
      HistorySnoc(js, false, before, ev);
      BatchShownSnoc(js, before, ev);
      if Terminal(ev) { AnswersFirst(js, requireVisibleOutput, evs, n); }
      n := n + 1;
      if eventData == "[DONE]" { continue; }
      var kind := js.kind(eventData);
      if kind == ItemDone {
        outputItemsByIndex, outputItemsFallback :=
          CollectOutputItem(js, eventData, outputItemsByIndex, outputItemsFallback, before);
        if js.itemVisible(eventData) { sawVisibleOutput := true; }
      } else if kind == TextDelta {
        if js.deltaVisible(eventData) { sawVisibleOutput := true; }
      } else if kind == Completed || kind == Incomplete {
        var completed := PatchCompletedOutput(js, eventData, outputItemsByIndex, outputItemsFallback, before);
        var response := js.response(completed);
        assert Answer(js, requireVisibleOutput, before, ev) ==
          if response.None? then Err(NO_RESPONSE)
          else if requireVisibleOutput && !sawVisibleOutput && !js.visible(response.value)
                  && kind != Incomplete then Err(NO_OUTPUT)
          else Ok(response.value);
        if response.None? { return Err(NO_RESPONSE); }
        if js.visible(response.value) { sawVisibleOutput := true; }
        if requireVisibleOutput && !sawVisibleOutput && kind != Incomplete { return Err(NO_OUTPUT); }
        return Ok(response.value);
      } else if kind == Failed || kind == ErrorEvent {
        return Err(UPSTREAM_ERROR);
      }
    }
    FramesOfNothing();
    assert evs[..n] == evs;
    r := Err(TRUNCATED);
  }

  lemma NothingSeen(js: Json)
    ensures ByIndex(js, []) == map[] && Unindexed(js, []) == [] && !BatchShown(js, [])
  {
  }

  lemma FramesOfNothing()
    ensures Frames("") == ([], "") && RawFrames("") == []
  {
  }

  lemma FirstRawFrame(rest: Bytes)
    requires rest != ""
    ensures var end := if FrameEnd(rest).None? then |rest| else FrameEnd(rest).value;
            0 < end <= |rest| && RawFrames(rest) == [rest[..end]] + RawFrames(rest[end..])
  {
    hide FrameEnd;
    FramesOfNothing();
    var end := FrameEnd(rest);
    if end.None? {
      assert rest[|rest|..] == "" && rest[..|rest|] == rest;
      assert [rest] + [] == [rest];
    } else {
      var (frames, left) := Frames(rest[end.value..]);
      assert Frames(rest) == ([rest[..end.value]] + frames, left);
      assert [rest[..end.value]] + frames + [left] == [rest[..end.value]] + (frames + [left]);
    }
  }

  lemma BatchShownSnoc(js: Json, before: seq<Event>, ev: Event)
    ensures BatchShown(js, before + [ev]) <==> BatchShown(js, before) || BatchShows(js, ev)
  {
    if BatchShown(js, before) {
      var e :| e in before && BatchShows(js, e);
      assert e in before + [ev];
    }
    if BatchShows(js, ev) { assert ev in before + [ev]; }
  }

  // ---------- Agreement ----------

  /** Neither nothing nor `[DONE]`, with white space around it, is typed JSON. */
  ghost predicate Sane(js: Json) {
    forall data :: data == "" || Strip(data) == "[DONE]" ==> js.kind(data) == Other
  }

  /** Two readings of a frame that have the same consequences. */
  predicate Alike(a: Event, b: Event) {
    a == b || (Idle(a) && Idle(b))
  }

  predicate Idle(ev: Event) { ev.Payload? ==> ev.kind == Other }

  lemma FramesAlike(js: Json, frame: Bytes)
    requires Sane(js)
    ensures Alike(EventOfFrame(js, frame), BatchEvent(js, frame))
    ensures Alike(EventOfFrame(js, frame + LF_LF), BatchEvent(js, frame))
  {
    hide Data, Strip;
    DataIgnoresTerminator(frame);
    assert Strip("[DONE]") == "[DONE]" by { DoneIsStripped(); }
  }

  lemma DoneIsStripped()
    ensures Strip("[DONE]") == "[DONE]"
  {
    hide Strip;
    StripFixes("[DONE]");
  }

  /** Frame by frame, both readers see the same events. */
  lemma EventsAlike(js: Json, body: Bytes)
    requires Sane(js)
    ensures |Events(js, ClosedFrames(body))| == |BatchEvents(js, RawFrames(body))|
    ensures forall k :: 0 <= k < |RawFrames(body)| ==>
              Alike(Events(js, ClosedFrames(body))[k], BatchEvents(js, RawFrames(body))[k])
  {
    hide Data, Strip, Frames, Alike, EventOfFrame, BatchEvent;
    forall k | 0 <= k < |RawFrames(body)|
      ensures Alike(Events(js, ClosedFrames(body))[k], BatchEvents(js, RawFrames(body))[k])
    {
      FramesAlike(js, RawFrames(body)[k]);
    }
  }

  lemma {:induction false} SameItems(js: Json, a: seq<Event>, b: seq<Event>)
    requires |a| == |b| && forall k :: 0 <= k < |a| ==> Alike(a[k], b[k])
    ensures ByIndex(js, a) == ByIndex(js, b) && Unindexed(js, a) == Unindexed(js, b)
  {
    if a != [] { SameItems(js, a[..|a| - 1], b[..|b| - 1]); }
  }

  /** Whatever the batch reader counts as shown, the framer has counted too. */
  lemma {:induction false} ShownToBatch(js: Json, a: seq<Event>, b: seq<Event>)
    requires |a| == |b| && forall k :: 0 <= k < |a| ==> Alike(a[k], b[k])
    ensures BatchShown(js, b) ==> Shown(js, a)
  {
    hide Rebuilt, ResponseVisible;
    if a != [] {
      var init, last := b[..|b| - 1], b[|b| - 1];
      ShownToBatch(js, a[..|a| - 1], init);
      assert b == init + [last];
      BatchShownSnoc(js, init, last);
    }
  }

  /** Some visible item was announced. */
  ghost predicate Announced(js: Json, evs: seq<Event>) {
    exists ev :: ev in evs && AnnouncesOne(js, ev)
  }

  predicate AnnouncesOne(js: Json, ev: Event) { ev.Payload? && ev.kind == ItemAdded && js.itemVisible(ev.data) }

  lemma {:induction false} ShownIsBatchShownOrAnnounced(js: Json, a: seq<Event>, b: seq<Event>)
    requires |a| == |b| && forall k :: 0 <= k < |a| ==> Alike(a[k], b[k]) && !Terminal(b[k])
    ensures Shown(js, a) <==> BatchShown(js, b) || Announced(js, a)
  {
    hide Rebuilt, ResponseVisible, BatchShown, Announced;
    if a == [] {
      assert !BatchShown(js, b) && !Announced(js, a) by { NothingShown(js); }
    } else {
      var inita, lasta := a[..|a| - 1], a[|a| - 1];
      var init, last := b[..|b| - 1], b[|b| - 1];
      ShownIsBatchShownOrAnnounced(js, inita, init);
      assert b == init + [last];
      BatchShownSnoc(js, init, last);
      assert Announced(js, a) <==> Announced(js, inita) || AnnouncesOne(js, lasta) by {
        assert a == inita + [lasta];
        AnnouncedSnoc(js, inita, lasta);
      }
    }
  }

  lemma NothingShown(js: Json)
    ensures !BatchShown(js, []) && !Announced(js, [])
  {
  }

  lemma AnnouncedSnoc(js: Json, before: seq<Event>, ev: Event)
    ensures Announced(js, before + [ev]) <==> Announced(js, before) || AnnouncesOne(js, ev)
  {
    if Announced(js, before) {
      var e :| e in before && AnnouncesOne(js, e);
      assert e in before + [ev];
    }
    if AnnouncesOne(js, ev) { assert ev in before + [ev]; }
  }

  /** Where visible output is required the two readers can differ about the same terminal
      event: the batch reader refuses what the framer lets through exactly when the only
      thing ever shown was the announcement of an item. */
  lemma StrictVerdictsDifferIff(js: Json, body: Bytes, k: nat)
    requires Sane(js) && FirstTerminal(BatchEvents(js, RawFrames(body)), k)
    requires var bvs := BatchEvents(js, RawFrames(body));
             Ends(bvs[k]) && js.response(Rebuilt(js, bvs[..k], bvs[k].data)).Some?
    ensures var bvs, frames := BatchEvents(js, RawFrames(body)), ClosedFrames(body);
            var evs := Events(js, frames);
            var response := js.response(Rebuilt(js, bvs[..k], bvs[k].data)).value;
            var quiet := bvs[k].kind == Completed && !js.visible(response);
            && k < |evs|
            && (Answer(js, true, bvs[..k], bvs[k]) == Err(NO_OUTPUT) <==> quiet && !BatchShown(js, bvs[..k]))
            && (Repaired(js, true, evs[..k], frames[k]) == Repaired(js, false, evs[..k], frames[k])
                <== !quiet || BatchShown(js, bvs[..k]) || Announced(js, evs[..k]))
            && (quiet && !BatchShown(js, bvs[..k]) && !Announced(js, evs[..k])
                ==> Repaired(js, true, evs[..k], frames[k]) == ErrorFrame(js.noOutputChunk))
  {
    hide ByIndex, Unindexed, Data, Strip, Frames, EventOfFrame, BatchEvent, Emitted, RawFrames, Shown, Ended,
         BatchShown, Announced, ReplaceData, ErrorFrame, ClosedFrames;
    var frames := ClosedFrames(body);
    var evs, bvs := Events(js, frames), BatchEvents(js, RawFrames(body));
    EventsAlike(js, body);
    assert Alike(evs[k], bvs[k]);
    SameItems(js, evs[..k], bvs[..k]);
    ShownIsBatchShownOrAnnounced(js, evs[..k], bvs[..k]);
    assert evs[k] == EventOfFrame(js, frames[k]);
  }

  lemma {:induction false} EmittedConcat(js: Json, strict: bool, a: seq<Bytes>, b: seq<Bytes>)
    ensures Emitted(js, strict, a) <= Emitted(js, strict, a + b)
  {
    hide Repaired, Events;
    if b == [] {
      assert a + b == a;
    } else {
      assert (a + b)[..|a + b| - 1] == a + b[..|b| - 1];
      EmittedConcat(js, strict, a, b[..|b| - 1]);
    }
  }

  /** If the first terminal event is answered by a response, the incremental output contains,
      right after what it wrote for the frames before, a frame for the same event; the data of
      that frame is the payload whose response was answered, if and only if it was forwarded
      unchanged or is compact. */
  lemma TerminalFramesAgree(js: Json, strict: bool, body: Bytes, k: nat)
    requires Sane(js)
    requires FirstTerminal(BatchEvents(js, RawFrames(body)), k)
    requires Answer(js, strict, BatchEvents(js, RawFrames(body))[..k], BatchEvents(js, RawFrames(body))[k]).Ok?
    ensures var frames := ClosedFrames(body);
            var evs := Events(js, frames);
            var answer := Answer(js, strict, BatchEvents(js, RawFrames(body))[..k],
                                 BatchEvents(js, RawFrames(body))[k]);
            && k < |frames| && Ends(evs[k]) && evs[k] == BatchEvents(js, RawFrames(body))[k]
            && var patched := Rebuilt(js, evs[..k], evs[k].data);
               var written := Repaired(js, strict, evs[..k], frames[k]);
               && js.response(patched) == Some(answer.value)
               && Emitted(js, strict, frames[..k]) + written <= Output(js, strict, body)
               && written == (if patched == evs[k].data then frames[k] else ReplaceData(frames[k], patched))
               && (Data(written) == patched <==> patched == evs[k].data || Compact(patched))
  {
    hide ByIndex, Unindexed, Data, Strip, Frames, EventOfFrame, BatchEvent, Emitted, RawFrames, Shown, Ended,
         BatchShown, Compact, ReplaceData, ErrorFrame, ClosedFrames;
    var frames := ClosedFrames(body);
    var evs, bvs := Events(js, frames), BatchEvents(js, RawFrames(body));
    EventsAlike(js, body);
    assert Alike(evs[k], bvs[k]);
    SameItems(js, evs[..k], bvs[..k]);
    ShownToBatch(js, evs[..k], bvs[..k]);
    var patched := Rebuilt(js, evs[..k], evs[k].data);
    ReplacedDataReadsBack(frames[k], patched);
    assert evs[k] == EventOfFrame(js, frames[k]);
    TerminalDataOf(js, frames[k]);
    EmittedSnoc(js, strict, frames[..k], frames[k]);
    assert frames[..k] + [frames[k]] == frames[..k + 1] && frames[..k + 1] + frames[k + 1..] == frames;
    EmittedConcat(js, strict, frames[..k + 1], frames[k + 1..]);
    assert Events(js, frames[..k]) == evs[..k];
  }

  lemma TerminalDataOf(js: Json, frame: Bytes)
    ensures EventOfFrame(js, frame).Payload? ==> EventOfFrame(js, frame).data == Data(frame)
  {
    hide Data, Strip;
  }

  /** An answer that is a response was given by a first terminal event. */
  lemma {:induction false} FirstTerminalExists(evs: seq<Event>) returns (k: nat)
    requires exists j :: 0 <= j < |evs| && Terminal(evs[j])
    ensures FirstTerminal(evs, k)
  {
    var init := evs[..|evs| - 1];
    if exists j :: 0 <= j < |init| && Terminal(init[j]) {
      k := FirstTerminalExists(init);
    } else {
      k := |evs| - 1;
    }
  }

  /** What the framer wrote for frame `k`, after everything before it. */
  ghost predicate Wrote(js: Json, strict: bool, body: Bytes, k: nat, written: Bytes) {
    && k < |ClosedFrames(body)|
    && written == Repaired(js, strict, Events(js, ClosedFrames(body)[..k]), ClosedFrames(body)[k])
    && Emitted(js, strict, ClosedFrames(body)[..k]) + written <= Output(js, strict, body)
  }

  /** Whenever the batch reader makes a response of an event stream, the incremental output
      holds, right after what it wrote for the frames before, a frame for the same event. Its data
      is the payload that carries this response, if and only if the payload was forwarded
      unchanged or is compact. */
  lemma IncrementalAgreesWithBatch(js: Json, strict: bool, body: Bytes, r: Result<Bytes>)
      returns (k: nat, patched: Bytes, written: Bytes)
    requires Sane(js) && Strip(body) != "" && !IsBare(body)
    requires Answers(js, strict, BatchEvents(js, RawFrames(body)), r) && r.Ok?
    ensures FirstTerminal(BatchEvents(js, RawFrames(body)), k) && Wrote(js, strict, body, k, written)
    ensures k < |RawFrames(body)| && js.response(patched) == Some(r.value)
    ensures patched == Rebuilt(js, BatchEvents(js, RawFrames(body))[..k], Data(RawFrames(body)[k]))
    ensures written == if patched == Data(RawFrames(body)[k]) then ClosedFrames(body)[k]
                       else ReplaceData(ClosedFrames(body)[k], patched)
    ensures Data(written) == patched <==> patched == Data(RawFrames(body)[k]) || Compact(patched)
  {
    hide ByIndex, Unindexed, Data, Strip, Frames, EventOfFrame, Emitted, RawFrames, Shown, Ended, BatchShown, Compact,
         ReplaceData, ErrorFrame, ClosedFrames, Rebuilt, Repaired, Output;
    var bvs := BatchEvents(js, RawFrames(body));
    k := FirstTerminalExists(bvs);
    TerminalFramesAgree(js, strict, body, k);
    EventsAlike(js, body);
    var frames := ClosedFrames(body);
    assert Events(js, frames)[..k] == Events(js, frames[..k]);
    SameRebuilt(js, Events(js, frames)[..k], bvs[..k], bvs[k].data);
    patched := Rebuilt(js, bvs[..k], Data(RawFrames(body)[k]));
    written := Repaired(js, strict, Events(js, frames[..k]), frames[k]);
  }

  lemma SameRebuilt(js: Json, a: seq<Event>, b: seq<Event>, data: Bytes)
    requires |a| == |b| && forall k :: 0 <= k < |a| ==> Alike(a[k], b[k])
    ensures Rebuilt(js, a, data) == Rebuilt(js, b, data)
  {
    hide ByIndex, Unindexed;
    SameItems(js, a, b);
  }

  // ---------- Streams with one data line a frame ----------

  /** The JSON library breaks no lines: the text of an item is part of its payload, and setting an
      array of one line in a compact payload leaves it compact. */
  ghost predicate KeepsLines(js: Json) {
    && (forall data :: '\n' !in data && js.item(data).Some? ==> '\n' !in js.item(data).value.raw)
    && (forall data, items :: Compact(data) && '\n' !in items && js.setOutput(data, items).Some? ==>
          Compact(js.setOutput(data, items).value))
  }

  lemma {:induction false} ItemsKeepLines(js: Json, evs: seq<Event>)
    requires KeepsLines(js) && forall ev :: ev in evs && ev.Payload? ==> '\n' !in ev.data
    ensures forall i :: i in ByIndex(js, evs) ==> '\n' !in ByIndex(js, evs)[i]
    ensures forall item :: item in Unindexed(js, evs) ==> '\n' !in item
  {
    hide Compact;
    if evs != [] {
      assert evs[|evs| - 1] in evs;
      ItemsKeepLines(js, evs[..|evs| - 1]);
    }
  }

  lemma {:induction false} JoinKeepsLines(parts: seq<Bytes>)
    requires forall part :: part in parts ==> '\n' !in part
    ensures '\n' !in Join(parts, ",")
  {
    if parts != [] {
      assert parts[|parts| - 1] in parts;
      JoinKeepsLines(parts[..|parts| - 1]);
    }
  }

  lemma RebuiltKeepsLine(js: Json, before: seq<Event>, data: Bytes)
    requires KeepsLines(js) && (forall ev :: ev in before && ev.Payload? ==> '\n' !in ev.data) && Compact(data)
    ensures Compact(Rebuilt(js, before, data))
  {
    hide ByIndex, Unindexed, Compact, Join;
    ItemsKeepLines(js, before);
    JoinKeepsLines(Items(js, before));
  }

  /** For an event stream with at most one data line a frame the agreement has no exception: the
      frame that the framer wrote for the terminal event carries the very response that the batch
      reader returned. */
  lemma OneLineStreamsAgree(js: Json, strict: bool, body: Bytes, r: Result<Bytes>) returns (k: nat, written: Bytes)
    requires Sane(js) && KeepsLines(js) && Strip(body) != "" && !IsBare(body)
    requires forall frame :: frame in RawFrames(body) ==> '\n' !in Data(frame)
    requires Answers(js, strict, BatchEvents(js, RawFrames(body)), r) && r.Ok?
    ensures FirstTerminal(BatchEvents(js, RawFrames(body)), k) && Wrote(js, strict, body, k, written)
    ensures js.response(Data(written)) == Some(r.value)
  {
    hide Data, Strip, RawFrames, Rebuilt, Answers, Wrote, Compact, KeepsLines, FirstTerminal, Sane;
    var patched;
    k, patched, written := IncrementalAgreesWithBatch(js, strict, body, r);
    var frames, before := RawFrames(body), BatchEvents(js, RawFrames(body))[..k];
    assert frames[k] in frames;
    OneLineData(frames[k]);
    forall ev | ev in before && ev.Payload? ensures '\n' !in ev.data {
      var i: nat :| i < k && before[i] == ev;
      assert frames[i] in frames;
    }
    RebuiltKeepsLine(js, before, Data(frames[k]));
  }

  // ---------- Streams without a terminal event ----------

  /** An end mark that comes before anything was shown. */
  ghost predicate Untimely(js: Json, evs: seq<Event>, k: nat) {
    k < |evs| && evs[k].DoneMark? && !Shown(js, evs[..k])
  }

  ghost predicate InTime(js: Json, evs: seq<Event>) { forall k: nat :: !Untimely(js, evs, k) }

  ghost predicate FirstUntimely(js: Json, evs: seq<Event>, k: nat) {
    Untimely(js, evs, k) && forall j: nat :: j < k ==> !Untimely(js, evs, j)
  }

  ghost predicate Unfinished(js: Json, frames: seq<Bytes>) {
    forall k :: 0 <= k < |frames| ==> !Terminal(EventOfFrame(js, frames[k]))
  }

  /** The batch reader's other outcome: without a terminal event the stream is relayed byte for
      byte, up to closing its last frame, except that with visible output required the error frame
      replaces the first end mark that comes before anything was shown, or, if there is none,
      follows a stream that showed nothing. */
  lemma UnfinishedStreamIsRelayed(js: Json, strict: bool, body: Bytes)
    requires Unfinished(js, ClosedFrames(body))
    ensures var frames := ClosedFrames(body);
            var evs := Events(js, frames);
            var closed := body + if Frames(body).1 == "" then "" else LF_LF;
            && Concat(frames) == closed
            && (!strict || (InTime(js, evs) && Shown(js, evs)) ==> Output(js, strict, body) == closed)
            && (strict && InTime(js, evs) && !Shown(js, evs) ==>
                  Output(js, strict, body) == closed + ErrorFrame(js.noOutputChunk))
            && (forall k: nat :: strict && FirstUntimely(js, evs, k) ==>
                  Output(js, strict, body) ==
                  Concat(frames[..k]) + ErrorFrame(js.noOutputChunk) + Concat(frames[k + 1..]))
  {
    hide Data, Strip, Frames, EventOfFrame, Repaired, Events, Emitted, Concat, Shown, Ended, Terminal, ErrorFrame;
    var (fs, rest) := Frames(body);
    FramesAreTheBytes(body);
    ConcatSnoc(fs, rest + LF_LF);
    assert Concat(fs) + "" == Concat(fs);
    assert Concat(fs) + rest + LF_LF == Concat(fs) + (rest + LF_LF);
    var frames := ClosedFrames(body);
    var evs := Events(js, frames);
    EventCount(js, frames);
    if !strict || InTime(js, evs) { Relayed(js, strict, frames); }
    forall k: nat | strict && FirstUntimely(js, evs, k)
      ensures Output(js, strict, body) ==
              Concat(frames[..k]) + ErrorFrame(js.noOutputChunk) + Concat(frames[k + 1..])
    {
      MarkReplaced(js, frames, k);
    }
  }

  lemma InTimeInit(js: Json, frames: seq<Bytes>)
    requires frames != []
    ensures var init := frames[..|frames| - 1];
            var evs, last := Events(js, init), EventOfFrame(js, frames[|frames| - 1]);
            && Events(js, frames) == evs + [last]
            && (InTime(js, Events(js, frames)) <==> InTime(js, evs) && !(last.DoneMark? && !Shown(js, evs)))
            && (forall k: nat :: k < |evs| ==> (Untimely(js, Events(js, frames), k) <==> Untimely(js, evs, k)))
  {
    hide EventOfFrame, Shown;
    var init := frames[..|frames| - 1];
    var all, evs := Events(js, frames), Events(js, init);
    var last := EventOfFrame(js, frames[|frames| - 1]);
    assert all == evs + [last];
    forall k: nat | k < |evs| ensures Untimely(js, all, k) <==> Untimely(js, evs, k) {
      assert all[..k] == evs[..k];
    }
    assert all[..|evs|] == evs;
    assert Untimely(js, all, |evs|) <==> last.DoneMark? && !Shown(js, evs);
    if !InTime(js, evs) {
      var k: nat :| Untimely(js, evs, k);
      assert Untimely(js, all, k);
    }
  }

  lemma {:induction false} Relayed(js: Json, strict: bool, frames: seq<Bytes>)
    requires Unfinished(js, frames) && (strict ==> InTime(js, Events(js, frames)))
    ensures Emitted(js, strict, frames) == Concat(frames) && !Ended(js, strict, Events(js, frames))
  {
    hide Data, Strip, EventOfFrame, Events, Shown, InTime, Untimely, ErrorFrame;
    if frames == [] {
      assert Events(js, []) == [] by { NoEvents(js); }
    } else {
      var init := frames[..|frames| - 1];
      InTimeInit(js, frames);
      Relayed(js, strict, init);
      HistorySnoc(js, strict, Events(js, init), EventOfFrame(js, frames[|frames| - 1]));
    }
  }

  lemma NoEvents(js: Json)
    ensures Events(js, []) == []
  {
  }

  lemma {:induction false} MarkReplaced(js: Json, frames: seq<Bytes>, k: nat)
    requires Unfinished(js, frames) && FirstUntimely(js, Events(js, frames), k) && k < |frames|
    ensures Emitted(js, true, frames) ==
            Concat(frames[..k]) + ErrorFrame(js.noOutputChunk) + Concat(frames[k + 1..])
    ensures Ended(js, true, Events(js, frames))
  {
    hide Data, Strip, EventOfFrame, Events, Shown, ErrorFrame, Untimely, Ended, Repaired, Emitted, Concat;
    var init, last := frames[..|frames| - 1], frames[|frames| - 1];
    InTimeInit(js, frames);
    EventCount(js, init);
    assert init + [last] == frames;
    EmittedSnoc(js, true, init, last);
    if k == |init| {
      forall j: nat ensures !Untimely(js, Events(js, init), j) { UntimelyIsInRange(js, Events(js, init), j); }
      Relayed(js, true, init);
      LastIsUntimely(js, frames);
      UntimelyRepaired(js, Events(js, init), last);
      assert frames[k + 1..] == [] && Concat([]) == "" by { NothingConcat(); }
      assert init == frames[..k];
    } else {
      MarkReplaced(js, init, k);
      assert init[..k] == frames[..k] && init[k + 1..] + [last] == frames[k + 1..];
      ConcatSnoc(init[k + 1..], last);
      EndedRepaired(js, Events(js, init), last);
    }
  }

  lemma UntimelyRepaired(js: Json, before: seq<Event>, frame: Bytes)
    requires EventOfFrame(js, frame).DoneMark? && !Shown(js, before) && !Ended(js, true, before)
    ensures Repaired(js, true, before, frame) == ErrorFrame(js.noOutputChunk)
    ensures Ended(js, true, before + [EventOfFrame(js, frame)])
  {
    hide EventOfFrame, Shown, Ended, ErrorFrame;
    HistorySnoc(js, true, before, EventOfFrame(js, frame));
  }

  lemma EndedRepaired(js: Json, before: seq<Event>, frame: Bytes)
    requires Ended(js, true, before) && !Terminal(EventOfFrame(js, frame))
    ensures Repaired(js, true, before, frame) == frame && Ended(js, true, before + [EventOfFrame(js, frame)])
  {
    hide EventOfFrame, Shown, Ended, ErrorFrame;
    HistorySnoc(js, true, before, EventOfFrame(js, frame));
  }

  lemma NothingConcat()
    ensures Concat([]) == ""
  {
  }

  lemma UntimelyIsInRange(js: Json, evs: seq<Event>, k: nat)
    ensures Untimely(js, evs, k) ==> k < |evs|
  {
  }

  lemma EventCount(js: Json, frames: seq<Bytes>)
    ensures |Events(js, frames)| == |frames|
  {
  }

  lemma LastIsUntimely(js: Json, frames: seq<Bytes>)
    requires frames != [] && Untimely(js, Events(js, frames), |frames| - 1)
    ensures EventOfFrame(js, frames[|frames| - 1]).DoneMark? && !Shown(js, Events(js, frames[..|frames| - 1]))
  {
    hide EventOfFrame, Shown;
    InTimeInit(js, frames);
    assert Events(js, frames)[..|frames| - 1] == Events(js, frames[..|frames| - 1]);
  }
}
