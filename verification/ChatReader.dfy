/** The line logic that turns a Chat event stream into chunks: data lines are joined, a blank
    line ends a record, `[DONE]` ends the stream. `parse` stands for the JSON decoder,
    `accepts` and `completes` for what the translator behind the callbacks makes of the
    chunks (chunks so far, next chunk). */
module ChatReader {
  import opened Basics
  import opened ChatWire

  datatype Progress =
    | Running(delivered: seq<Chunk>)
    | Done(delivered: seq<Chunk>)
    | Failed(delivered: seq<Chunk>, why: string)

  datatype Reader = Reader(parse: string -> Option<Chunk>, accepts: (seq<Chunk>, Chunk) -> bool,
                           completes: seq<Chunk> -> bool)

  const PREFIX := "data:"
  const BAD_JSON := "invalid Chat stream JSON"
  const REFUSED_CHUNK := "translator refused a chunk"
  const REFUSED_END := "translator refused the end"

  predicate IsData(line: string) { PREFIX <= line }

  predicate IsBlank(line: string) { Trim(line) == "" }

  /** A buffer with one more data line. */
  function Joined(buffer: string, line: string): string
    requires IsData(line)
  {
    (if buffer != "" then buffer + "\n" else "") + Trim(line[|PREFIX|..])
  }

  // ---------- First the whole stream into records, then the records into chunks ----------

  /** The finished records of a list of lines, and the unfinished one. */
  function Records(lines: seq<string>): (r: (seq<string>, string)) {
    if lines == [] then ([], "")
    else
      var (records, buffer) := Records(lines[..|lines| - 1]);
      var line := lines[|lines| - 1];
      if IsBlank(line) then (records + [buffer], "")
      else if IsData(line) then (records, Joined(buffer, line))
      else (records, buffer)
  }

  function Deliver(rd: Reader, delivered: seq<Chunk>, record: string): Progress {
    var s := Trim(record);
    if s == "" then Running(delivered)
    else if s == "[DONE]" then
      if rd.completes(delivered) then Done(delivered) else Failed(delivered, REFUSED_END)
    else match rd.parse(s)
         case None => Failed(delivered, BAD_JSON)
         case Some(ev) =>
           if rd.accepts(delivered, ev) then Running(delivered + [ev])
           else Failed(delivered, REFUSED_CHUNK)
  }

  function DeliverAll(rd: Reader, records: seq<string>): Progress {
    if records == [] then Running([])
    else
      var p := DeliverAll(rd, records[..|records| - 1]);
      if p.Running? then Deliver(rd, p.delivered, records[|records| - 1]) else p
  }

  /** The end of input. A stream that never carried a chunk fails, even after `[DONE]`. */
  function AtEnd(p: Progress): Progress {
    if p.Failed? then p
    else if p.delivered == [] then Failed([], "no data events")
    else if p.Running? then Failed(p.delivered, "ended before [DONE]")
    else p
  }

  function Outcome(rd: Reader, lines: seq<string>): Progress {
    var (records, buffer) := Records(lines);
    var p := DeliverAll(rd, records);
    if !p.Running? then p
    else AtEnd(if buffer != "" then Deliver(rd, p.delivered, buffer) else p)
  }

  // ---------- In one pass ----------

  lemma RecordsGrow(lines: seq<string>, k: nat)
    requires k < |lines|
    ensures var (records, buffer) := Records(lines[..k]);
            Records(lines[..k + 1]) ==
              if IsBlank(lines[k]) then (records + [buffer], "")
              else if IsData(lines[k]) then (records, Joined(buffer, lines[k]))
              else (records, buffer)
  {
    assert lines[..k + 1][..k] == lines[..k];
  }

  lemma {:induction false} RecordsPrefix(lines: seq<string>, k: nat)
    requires k <= |lines|
    ensures Records(lines[..k]).0 <= Records(lines).0
    decreases |lines| - k
  {
    hide Trim;
    if k == |lines| {
      assert lines[..k] == lines;
    } else {
      RecordsGrow(lines, k);
      RecordsPrefix(lines, k + 1);
    }
  }

  lemma DeliverAllSnoc(rd: Reader, records: seq<string>, record: string)
    ensures DeliverAll(rd, records + [record]) ==
            if DeliverAll(rd, records).Running? then Deliver(rd, DeliverAll(rd, records).delivered, record)
            else DeliverAll(rd, records)
  {
    assert (records + [record])[..|records|] == records;
  }

  /** Nothing is delivered after `[DONE]` or an error. */
  lemma {:induction false} DeliveredIsFinal(rd: Reader, some: seq<string>, all: seq<string>)
    requires some <= all && !DeliverAll(rd, some).Running?
    ensures DeliverAll(rd, all) == DeliverAll(rd, some)
    decreases |all|
  {
    hide Deliver;
    if all != some {
      DeliveredIsFinal(rd, some, all[..|all| - 1]);
    }
  }

  // ---------- What a stream of records means ----------

  /** The translator takes every chunk in turn. */
  ghost predicate TakesAll(rd: Reader, h: seq<Chunk>) {
    h == [] || (TakesAll(rd, h[..|h| - 1]) && rd.accepts(h[..|h| - 1], h[|h| - 1]))
  }

  /** `encode` writes each of these chunks as trimmed text that the decoder reads back. */
  ghost predicate Encodes(rd: Reader, encode: Chunk -> string, h: seq<Chunk>) {
    forall ev :: ev in h ==>
      && rd.parse(encode(ev)) == Some(ev)
      && Trim(encode(ev)) == encode(ev) && encode(ev) != "" && encode(ev) != "[DONE]"
  }

  function Wire(h: seq<Chunk>, encode: Chunk -> string): seq<string> {
    if h == [] then [] else Wire(h[..|h| - 1], encode) + [PREFIX + " " + encode(h[|h| - 1]), ""]
  }

  lemma TrimSpaceBefore(s: string)
    ensures Trim(" " + s) == Trim(s)
  {
    assert (" " + s)[1..] == s;
  }

  lemma DataLine(s: string)
    requires Trim(s) == s && s != ""
    ensures IsData(PREFIX + " " + s) && !IsBlank(PREFIX + " " + s) && Joined("", PREFIX + " " + s) == s
  {
    var line := PREFIX + " " + s;
    assert line[..|PREFIX|] == PREFIX && line[|PREFIX|..] == " " + s;
    TrimSpaceBefore(s);
    TrimKeepsHead(line);
  }

  /** One written record after others. */
  lemma RecordsOfOne(lines: seq<string>, s: string)
    requires Trim(s) == s && s != "" && Records(lines).1 == ""
    ensures Records(lines + [PREFIX + " " + s, ""]) == (Records(lines).0 + [s], "")
  {
    hide Trim, Joined;
    var all := lines + [PREFIX + " " + s, ""];
    DataLine(s);
    assert IsBlank("") by { BlankLine(); }
    RecordsGrow(all, |lines|);
    RecordsGrow(all, |lines| + 1);
    assert all[..|lines|] == lines && all[..|lines| + 2] == all;
  }

  lemma BlankLine()
    ensures IsBlank("")
  {
  }

  lemma {:induction false} WireRecords(rd: Reader, h: seq<Chunk>, encode: Chunk -> string)
    requires Encodes(rd, encode, h)
    ensures Records(Wire(h, encode)).1 == ""
    ensures TakesAll(rd, h) ==> DeliverAll(rd, Records(Wire(h, encode)).0) == Running(h)
  {
    hide Trim, IsBlank, Joined;
    if h != [] {
      var init, ev := h[..|h| - 1], h[|h| - 1];
      WireRecords(rd, init, encode);
      RecordsOfOne(Wire(init, encode), encode(ev));
      DeliverAllSnoc(rd, Records(Wire(init, encode)).0, encode(ev));
    }
  }

  /** Every list of chunks the translator takes, written out and closed with `[DONE]`, is
      delivered exactly, whatever bytes follow; the reader ends with success if and only if
      the translator lets the stream end there. */
  lemma WrittenStreamIsDelivered(rd: Reader, h: seq<Chunk>, encode: Chunk -> string, rest: seq<string>)
    requires Encodes(rd, encode, h) && TakesAll(rd, h)
    ensures var p := Outcome(rd, Wire(h, encode) + [PREFIX + " [DONE]", ""] + rest);
            p.delivered == h && (p.Done? <==> rd.completes(h))
  {
    hide Trim, Encodes, TakesAll, Wire, Joined, IsBlank;
    WireRecords(rd, h, encode);
    var lines := Wire(h, encode) + [PREFIX + " [DONE]", ""];
    assert PREFIX + " " + "[DONE]" == PREFIX + " [DONE]";
    TrimDone();
    RecordsOfOne(Wire(h, encode), "[DONE]");
    DeliverAllSnoc(rd, Records(Wire(h, encode)).0, "[DONE]");
    assert (lines + rest)[..|lines|] == lines;
    RecordsPrefix(lines + rest, |lines|);
    DeliveredIsFinal(rd, Records(lines).0, Records(lines + rest).0);
  }

  lemma TrimDone()
    ensures Trim("[DONE]") == "[DONE]"
  {
    assert TrimLeft("[DONE]") == "[DONE]";
  }

  /** Without `[DONE]` the same stream fails, however many chunks arrived. */
  lemma TruncatedStreamFails(rd: Reader, h: seq<Chunk>, encode: Chunk -> string)
    requires Encodes(rd, encode, h) && TakesAll(rd, h)
    ensures Outcome(rd, Wire(h, encode)).Failed?
  {
    hide Trim, Encodes, TakesAll, Wire;
    WireRecords(rd, h, encode);
  }

  /** Comments and other fields may stand anywhere, even inside a record. */
  lemma {:induction false} NoiseIsIgnored(a: seq<string>, noise: string, b: seq<string>)
    requires !IsBlank(noise) && !IsData(noise)
    ensures Records(a + [noise] + b) == Records(a + b)
    decreases |b|
  {
    hide Trim, Joined, IsBlank, IsData;
    if b == [] {
      assert a + b == a && (a + [noise] + b)[..|a|] == a;
    } else {
      NoiseIsIgnored(a, noise, b[..|b| - 1]);
      assert (a + [noise] + b)[..|a| + |b|] == a + [noise] + b[..|b| - 1];
      assert (a + b)[..|a + b| - 1] == a + b[..|b| - 1];
    }
  }

  /** Success is never reported on less: whatever the lines were, the delivered chunks were
      all taken by the translator, which also let the stream end after them. */
  lemma SuccessIsComplete(rd: Reader, lines: seq<string>)
    ensures TakesAll(rd, Outcome(rd, lines).delivered)
    ensures Outcome(rd, lines).Done? ==> rd.completes(Outcome(rd, lines).delivered)
  {
    hide Trim, Records, DeliverAll;
    var (records, buffer) := Records(lines);
    OnlyTakenChunks(rd, records);
    var p := DeliverAll(rd, records);
    if p.Running? && buffer != "" { TakenGrows(rd, p.delivered, buffer); }
  }

  lemma TakenGrows(rd: Reader, h: seq<Chunk>, record: string)
    requires TakesAll(rd, h)
    ensures TakesAll(rd, Deliver(rd, h, record).delivered)
  {
    hide Trim;
    forall ev: Chunk ensures (h + [ev])[..|h|] == h { }
  }

  lemma {:induction false} OnlyTakenChunks(rd: Reader, records: seq<string>)
    ensures var p := DeliverAll(rd, records);
            TakesAll(rd, p.delivered) && (p.Done? ==> rd.completes(p.delivered))
  {
    hide Trim, TakesAll;
    if records == [] {
      assert TakesAll(rd, []) by { NothingTaken(rd); }
    } else {
      OnlyTakenChunks(rd, records[..|records| - 1]);
      var p := DeliverAll(rd, records[..|records| - 1]);
      if p.Running? { TakenGrows(rd, p.delivered, records[|records| - 1]); }
    }
  }

  lemma NothingTaken(rd: Reader)
    ensures TakesAll(rd, [])
  {
  }
}
