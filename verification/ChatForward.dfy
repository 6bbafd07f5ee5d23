/** The chat reader and the two translators put together: lines of a chat stream in, events of the
    other protocol out. */
module ChatForward {
  import opened Basics
  import opened ChatWire
  import opened ChatReader
  import R = ChatResponses
  import A = ChatAnthropic
  import AR = ChatAnthropicRefinement
  import RR = ChatResponsesRefinement

  /** The reader with the callbacks of the Responses translator. */
  ghost function ResponsesReader(parse: string -> Option<Chunk>, json: string -> bool): Reader {
    Reader(parse, (h, ev) => Acceptable(h, ev), h => R.Completable(h, json))
  }

  /** The reader with the callbacks of the Anthropic translator. */
  ghost function AnthropicReader<V>(parse: string -> Option<Chunk>, input: string -> Option<V>): Reader {
    Reader(parse, (h, ev) => Acceptable(h, ev), h => A.Completable(h, input))
  }

  ghost function ToolOrder(h: seq<Chunk>): seq<int> { InOrder(Indexes(Deltas(h))) }

  // ---------- What has been written ----------

  /** The events of the chunks delivered, and the closing ones once done. A rejected first chunk may
      have announced the response. */
  ghost predicate ResponsesWritten(p: Progress, out: seq<R.Event>, fallback: string) {
    var h := p.delivered;
    match p
    case Running(_) => out == R.Events(h, fallback)
    case Done(_) => Finish(h).Some? && out == R.Events(h, fallback) + R.FinalEvents(h, fallback, ToolOrder(h))
    case Failed(_, _) =>
      out == R.Events(h, fallback) || (h == [] && exists ev :: out == R.OpeningEvents([], ev, fallback))
  }

  /** The events of the chunks delivered, and the closing ones once done. */
  ghost predicate AnthropicWritten(p: Progress, out: seq<A.Event>) {
    var h := p.delivered;
    if p.Done? then Finish(h).Some? && out == A.Events(h) + A.FinalEvents(h, ToolOrder(h)) else out == A.Events(h)
  }

  // ---------- The reader and its callbacks ----------

  /** The translator behind the callbacks. */
  datatype Sink<!V> =
    | ToResponses(responses: R.ResponsesStream)
    | ToAnthropic(anthropic: A.AnthropicStream<V>)
  {
    ghost function Stream(): object { if ToResponses? then responses else anthropic }

    /** The translator has taken exactly these chunks. */
    ghost predicate Ready(h: seq<Chunk>) reads Stream() {
      if ToResponses? then responses.Valid() && responses.seen == h else anthropic.Valid() && anthropic.seen == h
    }

    ghost predicate Written(p: Progress) reads Stream() {
      if ToResponses? then ResponsesWritten(p, responses.out, responses.fallbackId)
      else AnthropicWritten(p, anthropic.out)
    }

    ghost function Reads(parse: string -> Option<Chunk>): Reader {
      if ToResponses? then ResponsesReader(parse, responses.json) else AnthropicReader(parse, anthropic.parse)
    }
  }

  method OnEvent<V>(sink: Sink<V>, h: seq<Chunk>, ev: Chunk) returns (ok: bool)
    requires sink.Ready(h)
    modifies sink.Stream()
    ensures ok == Acceptable(h, ev)
    ensures ok ==> sink.Ready(h + [ev])
    ensures sink.Written(if ok then Running(h + [ev]) else Failed(h, REFUSED_CHUNK))
  {
    hide Acceptable, R.Events, R.OpeningEvents, R.Tools, R.RespId, A.Events, A.ArgsMatch, Indexes, Deltas, Accepted,
         Finish, Content;
    match sink
    case ToResponses(stream) =>
      ok := stream.Observe(ev);
      if !ok { RejectedOpening(h, ev, stream.fallbackId); }
    case ToAnthropic(stream) =>
      ok := stream.Observe(ev);
  }

  method OnDone<V>(sink: Sink<V>, h: seq<Chunk>) returns (ok: bool)
    requires sink.Ready(h)
    modifies sink.Stream()
    ensures ok == if sink.ToResponses? then R.Completable(h, sink.responses.json)
                  else A.Completable(h, sink.anthropic.parse)
    ensures sink.Written(if ok then Done(h) else Failed(h, REFUSED_END))
  {
    hide R.Completable, R.Events, R.FinalEvents, R.Tools, R.RespId, A.Completable, A.Events, A.FinalEvents, A.ArgsMatch,
         Indexes, Deltas, Accepted, Finish, Content;
    ghost var order;
    match sink
    case ToResponses(stream) =>
      ok, order := stream.Complete();
      if ok {
        FinishOfCompletable(h, stream.json);
        ListingIsUnique(order, ToolOrder(h), Indexes(Deltas(h)));
      }
    case ToAnthropic(stream) =>
      ok, order := stream.Complete();
      if ok {
        FinishOfClosable(h, stream.parse);
        ListingIsUnique(order, ToolOrder(h), Indexes(Deltas(h)));
      }
  }

  lemma FinishOfCompletable(h: seq<Chunk>, json: string -> bool)
    requires R.Completable(h, json)
    ensures Finish(h).Some?
  {
    hide Trim, Finish;
  }

  lemma FinishOfClosable<V>(h: seq<Chunk>, input: string -> Option<V>)
    requires A.Completable(h, input)
    ensures Finish(h).Some?
  {
    hide Trim, Finish;
  }

  lemma RejectedOpening(h: seq<Chunk>, ev: Chunk, fallback: string)
    ensures var out := R.Events(h, fallback) + R.OpeningEvents(h, ev, fallback);
            out == R.Events(h, fallback) || (h == [] && out == R.OpeningEvents([], ev, fallback))
  {
  }

  lemma WrittenSoFar<V>(sink: Sink<V>, h: seq<Chunk>, why: string)
    requires sink.Ready(h)
    ensures sink.Written(Running(h)) && sink.Written(Failed(h, why))
  {
    hide R.Events, R.RespId, R.Tools, A.Events, A.ArgsMatch, Indexes, Deltas, Accepted, Finish, Content;
  }

  /** One record: nothing, the end, or a chunk. */
  method Flush<V>(parse: string -> Option<Chunk>, sink: Sink<V>, h: seq<Chunk>, record: string) returns (p: Progress)
    requires sink.Ready(h)
    modifies sink.Stream()
    ensures p == Deliver(sink.Reads(parse), h, record)
    ensures p.Running? ==> sink.Ready(p.delivered)
    ensures sink.Written(p)
  {
    hide Trim, Acceptable, R.Completable, A.Completable, ResponsesWritten, AnthropicWritten, Accepted, Content, Deltas,
         R.Events, A.Events;
    WrittenSoFar(sink, h, BAD_JSON);
    var s := Trim(record);
    if s == "" { return Running(h); }
    if s == "[DONE]" {
      var ok := OnDone(sink, h);
      return if ok then Done(h) else Failed(h, REFUSED_END);
    }
    var ev := parse(s);
    if ev.None? { return Failed(h, BAD_JSON); }
    var ok := OnEvent(sink, h, ev.value);
    p := if ok then Running(h + [ev.value]) else Failed(h, REFUSED_CHUNK);
  }

  /** The whole stream in one pass, with either translator behind the callbacks. The outcome is that
      of cutting it into records first. */
  method ReadChatStream<V>(lines: seq<string>, parse: string -> Option<Chunk>, sink: Sink<V>) returns (p: Progress)
    requires sink.Ready([])
    modifies sink.Stream()
    ensures p == Outcome(sink.Reads(parse), lines) && !p.Running?
    ensures sink.Written(p)
  {
    hide Trim, Joined, Deliver, ResponsesReader, AnthropicReader, ResponsesWritten, AnthropicWritten, R.Events,
         A.Events;
    ghost var rd := sink.Reads(parse);
    var data := "";
    p := Running([]);
    WrittenSoFar(sink, [], "");
    var k := 0;
    while k < |lines|
      invariant 0 <= k <= |lines| && p.Running?
      invariant Records(lines[..k]).1 == data && DeliverAll(rd, Records(lines[..k]).0) == p
      invariant sink.Ready(p.delivered) && sink.Written(p)
    {
      RecordsGrow(lines, k);
      var line := lines[k];
      if IsBlank(line) {
        p := Flush(parse, sink, p.delivered, data);
        DeliverAllSnoc(rd, Records(lines[..k]).0, data);
        data := "";
        if !p.Running? {
          RecordsPrefix(lines, k + 1);
          DeliveredIsFinal(rd, Records(lines[..k + 1]).0, Records(lines).0);
          return;
        }
      } else if IsData(line) {
        data := Joined(data, line);
      }
      k := k + 1;
    }
    assert lines[..|lines|] == lines;
    if data != "" { p := Flush(parse, sink, p.delivered, data); }
    EndKeepsWritten(sink, p);
    p := AtEnd(p);
  }

  lemma EndKeepsWritten<V>(sink: Sink<V>, p: Progress)
    requires sink.Written(p)
    ensures sink.Written(AtEnd(p))
  {
    hide R.Events, R.FinalEvents, R.OpeningEvents, A.Events, A.FinalEvents;
  }

  // ---------- From the lines of a stream to the answer ----------

  /** Success needs a finish reason, and so at least one chunk: whatever the lines are, a stream
      that delivers no chunk, such as one that holds only `[DONE]`, fails under both translators. */
  lemma NoFinishFails<V>(lines: seq<string>, parse: string -> Option<Chunk>, json: string -> bool,
                         input: string -> Option<V>)
    ensures var p := Outcome(ResponsesReader(parse, json), lines);
            Finish(p.delivered).None? || p.delivered == [] ==> p.Failed?
    ensures var p := Outcome(AnthropicReader(parse, input), lines);
            Finish(p.delivered).None? || p.delivered == [] ==> p.Failed?
  {
    hide Trim, Records, DeliverAll, Deliver, TakesAll, Indexes, Deltas;
    SuccessIsComplete(ResponsesReader(parse, json), lines);
    SuccessIsComplete(AnthropicReader(parse, input), lines);
  }

  /** Chunks a cutting holds are taken one by one. */
  lemma {:induction false} AcceptedAreTaken(rd: Reader, h: seq<Chunk>)
    requires Accepted(h) && forall g, ev :: rd.accepts(g, ev) <==> Acceptable(g, ev)
    ensures TakesAll(rd, h)
  {
    hide Acceptable;
    if h != [] { AcceptedAreTaken(rd, h[..|h| - 1]); }
  }

  /** A message cut into chunks, each written as a record, and closed with `[DONE]`. */
  function WrittenLines(h: seq<Chunk>, encode: Chunk -> string, rest: seq<string>): seq<string> {
    Wire(h, encode) + [PREFIX + " [DONE]", ""] + rest
  }

  /** From the wire to the answer: for every message, every way of cutting it into chunks and
      whatever follows `[DONE]`, forwarding succeeds and its last event carries the status, reason
      and output of the batch translation, if and only if the message is agreeable. */
  lemma ForwardedAnswerIsBatchAnswer(h: seq<Chunk>, m: ChatMessage, encode: Chunk -> string, rest: seq<string>,
                                     parse: string -> Option<Chunk>, json: string -> bool, fallback: string,
                                     p: Progress, out: seq<R.Event>)
    requires Cuts(h, m) && json("{}") && Encodes(ResponsesReader(parse, json), encode, h)
    requires p == Outcome(ResponsesReader(parse, json), WrittenLines(h, encode, rest))
             && ResponsesWritten(p, out, fallback)
    ensures p.delivered == h
    ensures (&& p.Done? && R.AllToolsTranslate(m.tools, json)
             && out != [] && out[|out| - 1] == R.Terminal(R.RespId(h, fallback), R.StatusOf(m.finish),
                                                          R.IncompleteReason(m.finish), R.BatchOutput(m, json)))
            <==> RR.Agreeable(m, json)
  {
    hide Trim, Content, Deltas, Acceptable, R.Completable, R.BatchOutput, R.AllToolsTranslate, RR.Agreeable, Wire,
         Encodes;
    AcceptedAreTaken(ResponsesReader(parse, json), h);
    WrittenStreamIsDelivered(ResponsesReader(parse, json), h, encode, rest);
    RR.StreamRefinesBatch(h, m, json, ToolOrder(h));
  }

  /** The same for Anthropic: a client that reads the written events ends with the batch content
      and stop reason if and only if the message is agreeable. */
  lemma ForwardedReadsAsBatch<V>(h: seq<Chunk>, m: ChatMessage, encode: Chunk -> string, rest: seq<string>,
                                 parse: string -> Option<Chunk>, input: string -> Option<V>,
                                 p: Progress, out: seq<A.Event>)
    requires Cuts(h, m) && Encodes(AnthropicReader(parse, input), encode, h)
    requires p == Outcome(AnthropicReader(parse, input), WrittenLines(h, encode, rest)) && AnthropicWritten(p, out)
    ensures p.delivered == h
    ensures (p.Done? && A.AllToolsTranslate(m.tools, input) && AR.ReadsAsBatch(out, m, input))
            <==> AR.Agreeable(m, input)
  {
    hide Trim, Content, Deltas, Acceptable, A.Completable, AR.ReadsAsBatch, A.AllToolsTranslate, AR.Agreeable, Wire,
         Encodes;
    AcceptedAreTaken(AnthropicReader(parse, input), h);
    WrittenStreamIsDelivered(AnthropicReader(parse, input), h, encode, rest);
    AR.StreamRefinesBatch(h, m, input, ToolOrder(h));
  }
}
