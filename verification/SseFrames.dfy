/** Server-sent event frames: where a frame ends, and the data it carries. A byte is a char
    below 256; nothing here depends on the bound. */
module SseFrames {
  import opened Basics

  type Bytes = string

  const LF_LF := "\n\n"
  const CRLF_CRLF := "\r\n\r\n"

  // ---------- bytes.Index ----------

  /** The first place where `pattern` starts. */
  function Index(data: Bytes, pattern: Bytes): (r: Option<nat>)
    ensures r.None? ==> forall i: nat :: !StartsAt(data, i, pattern)
    ensures r.Some? ==> StartsAt(data, r.value, pattern) && forall i: nat :: i < r.value ==> !StartsAt(data, i, pattern)
  {
    IndexFrom(data, pattern, 0)
  }

  function IndexFrom(data: Bytes, pattern: Bytes, from: nat): (r: Option<nat>)
    requires from <= |data|
    ensures r.None? ==> forall i: nat :: from <= i ==> !StartsAt(data, i, pattern)
    ensures r.Some? ==> from <= r.value && StartsAt(data, r.value, pattern)
                        && forall i: nat :: from <= i < r.value ==> !StartsAt(data, i, pattern)
    decreases |data| - from
  {
    if StartsAt(data, from, pattern) then Some(from)
    else if from == |data| then None
    else IndexFrom(data, pattern, from + 1)
  }

  // ---------- Where the first frame ends ----------

  /** The end of whichever terminator starts first. */
  function FrameEnd(data: Bytes): (r: Option<nat>)
    ensures r.Some? ==> 0 < r.value <= |data|
  {
    var lf, crlf := Index(data, LF_LF), Index(data, CRLF_CRLF);
    if lf.None? && crlf.None? then None
    else if lf.None? then Some(crlf.value + |CRLF_CRLF|)
    else if crlf.None? then Some(lf.value + |LF_LF|)
    else if lf.value < crlf.value then Some(lf.value + |LF_LF|)
    else Some(crlf.value + |CRLF_CRLF|)
  }

  predicate EndsLf(data: Bytes, e: int) {
    2 <= e <= |data| && data[e - 2] == '\n' && data[e - 1] == '\n'
  }

  predicate EndsCrlf(data: Bytes, e: int) {
    4 <= e <= |data| && data[e - 4] == '\r' && data[e - 3] == '\n' && data[e - 2] == '\r' && data[e - 1] == '\n'
  }

  /** A terminator ends at `e`. */
  predicate Terminated(data: Bytes, e: int) { EndsLf(data, e) || EndsCrlf(data, e) }

  lemma EndsMatchStarts(data: Bytes, i: nat)
    ensures StartsAt(data, i, LF_LF) <==> EndsLf(data, i + 2)
    ensures StartsAt(data, i, CRLF_CRLF) <==> EndsCrlf(data, i + 4)
  {
    if i + 2 <= |data| {
      var window := data[i..i + 2];
      assert data[i] == window[0] && data[i + 1] == window[1];
      assert window == LF_LF <==> window[0] == '\n' && window[1] == '\n';
    }
    if i + 4 <= |data| {
      var window := data[i..i + 4];
      assert data[i] == window[0] && data[i + 1] == window[1] && data[i + 2] == window[2] && data[i + 3] == window[3];
      assert window == CRLF_CRLF <==> window[0] == '\r' && window[1] == '\n' && window[2] == '\r' && window[3] == '\n';
    }
  }

  /** The two terminators never overlap so that one starts before the other but ends after it:
      the terminator that starts first is also the one that ends first. */
  lemma EarliestStartIsEarliestEnd(data: Bytes)
    ensures FrameEnd(data).None? <==> forall e :: !Terminated(data, e)
    ensures FrameEnd(data).Some? ==>
              Terminated(data, FrameEnd(data).value) && forall e :: Terminated(data, e) ==> FrameEnd(data).value <= e
  {
    hide Index, StartsAt;
    var lf, crlf := Index(data, LF_LF), Index(data, CRLF_CRLF);
    if lf.Some? { EndsMatchStarts(data, lf.value); }
    if crlf.Some? { EndsMatchStarts(data, crlf.value); }
    assert FrameEnd(data).Some? ==> Terminated(data, FrameEnd(data).value);
    forall e | Terminated(data, e) ensures FrameEnd(data).Some? && FrameEnd(data).value <= e {
      if EndsLf(data, e) {
        EndsMatchStarts(data, e - 2);
        assert lf.Some? && lf.value <= e - 2;
        if crlf.Some? && crlf.value <= lf.value { CannotOverlap(data, crlf.value, e); }
      } else {
        EndsMatchStarts(data, e - 4);
        assert crlf.Some? && crlf.value <= e - 4;
      }
    }
  }

  /** No `\n\n` ends strictly inside a CRLF terminator. */
  lemma CannotOverlap(data: Bytes, c: nat, e: int)
    requires StartsAt(data, c, CRLF_CRLF) && EndsLf(data, e) && c <= e - 2
    ensures c + 4 <= e
  {
    var window := data[c..c + 4];
    assert data[c] == window[0] == '\r' && data[c + 2] == window[2] == '\r';
  }

  /** Bytes that arrive later never move the end of a frame. */
  lemma FrameEndIsStable(a: Bytes, b: Bytes)
    requires FrameEnd(a).Some?
    ensures FrameEnd(a + b) == FrameEnd(a)
  {
    hide FrameEnd;
    EarliestStartIsEarliestEnd(a);
    EarliestStartIsEarliestEnd(a + b);
    TerminatedPrefix(a, b, FrameEnd(a).value);
    if FrameEnd(a + b).Some? && FrameEnd(a + b).value <= |a| {
      TerminatedPrefix(a, b, FrameEnd(a + b).value);
    }
  }

  lemma TerminatedPrefix(a: Bytes, b: Bytes, e: int)
    requires e <= |a|
    ensures Terminated(a + b, e) <==> Terminated(a, e)
  {
  }

  // ---------- A byte stream as frames ----------

  /** The complete frames of `data`, and what is left. */
  function Frames(data: Bytes): (r: (seq<Bytes>, Bytes))
    ensures FrameEnd(r.1).None?
    decreases |data|
  {
    match FrameEnd(data)
    case None => ([], data)
    case Some(e) =>
      var (frames, rest) := Frames(data[e..]);
      ([data[..e]] + frames, rest)
  }

  lemma FirstFrame(data: Bytes)
    ensures FrameEnd(data).None? ==> Frames(data) == ([], data)
    ensures FrameEnd(data).Some? ==>
              Frames(data) == ([data[..FrameEnd(data).value]] + Frames(data[FrameEnd(data).value..]).0,
                               Frames(data[FrameEnd(data).value..]).1)
  {
    hide FrameEnd;
  }

  function Concat(parts: seq<Bytes>): Bytes {
    if parts == [] then "" else Concat(parts[..|parts| - 1]) + parts[|parts| - 1]
  }

  lemma {:induction false} ConcatCons(part: Bytes, parts: seq<Bytes>)
    ensures Concat([part] + parts) == part + Concat(parts)
  {
    if parts == [] {
      assert [part] + parts == [part] && [part][..0] == [];
    } else {
      assert ([part] + parts)[..|parts|] == [part] + parts[..|parts| - 1];
      ConcatCons(part, parts[..|parts| - 1]);
    }
  }

  /** Cutting into frames loses nothing. */
  lemma {:induction false} FramesAreTheBytes(data: Bytes)
    ensures Concat(Frames(data).0) + Frames(data).1 == data
    decreases |data|
  {
    hide FrameEnd;
    var e := FrameEnd(data);
    if e.Some? {
      FramesAreTheBytes(data[e.value..]);
      ConcatCons(data[..e.value], Frames(data[e.value..]).0);
    }
  }

  /** Frames of a stream that grows: those there were, then those of the rest and the new bytes. */
  lemma {:induction false} FramesOfMore(a: Bytes, b: Bytes)
    ensures Frames(a + b) == (Frames(a).0 + Frames(Frames(a).1 + b).0, Frames(Frames(a).1 + b).1)
    decreases |a|
  {
    hide FrameEnd;
    var e := FrameEnd(a);
    if e.Some? {
      FrameEndIsStable(a, b);
      assert (a + b)[..e.value] == a[..e.value] && (a + b)[e.value..] == a[e.value..] + b;
      FramesOfMore(a[e.value..], b);
      var (frames, rest) := Frames(a[e.value..]);
      assert Frames(a) == ([a[..e.value]] + frames, rest);
      assert Frames(a + b).0 == [a[..e.value]] + (frames + Frames(rest + b).0);
      assert [a[..e.value]] + (frames + Frames(rest + b).0) == [a[..e.value]] + frames + Frames(rest + b).0;
    } else {
      assert Frames(a).0 + Frames(a + b).0 == Frames(a + b).0;
    }
  }

  // ---------- bytes.TrimSpace ----------

  /** How many bytes of UTF-8 white space `s` starts with: 0 if none. */
  function LeadingSpace(s: Bytes): (w: nat)
    ensures w <= |s|
  {
    if |s| >= 1 && ('\t' <= s[0] <= '\r' || s[0] == ' ') then 1
    else if |s| >= 2 && Wide2(s[0], s[1]) then 2
    else if |s| >= 3 && Wide3(s[0], s[1], s[2]) then 3
    else 0
  }

  function TrailingSpace(s: Bytes): (w: nat)
    ensures w <= |s|
  {
    var n := |s|;
    if n >= 1 && ('\t' <= s[n - 1] <= '\r' || s[n - 1] == ' ') then 1
    else if n >= 2 && Wide2(s[n - 2], s[n - 1]) then 2
    else if n >= 3 && Wide3(s[n - 3], s[n - 2], s[n - 1]) then 3
    else 0
  }

  /** U+0085 and U+00A0. */
  predicate Wide2(a: char, b: char) {
    a == '\U{C2}' && (b == '\U{85}' || b == '\U{A0}')
  }

  /** U+1680, U+2000 to U+200A, U+2028, U+2029, U+202F, U+205F and U+3000. */
  predicate Wide3(a: char, b: char, c: char) {
    || (a == '\U{E1}' && b == '\U{9A}' && c == '\U{80}')
    || (a == '\U{E2}' && b == '\U{80}'
        && ('\U{80}' <= c <= '\U{8A}' || c == '\U{A8}' || c == '\U{A9}' || c == '\U{AF}'))
    || (a == '\U{E2}' && b == '\U{81}' && c == '\U{9F}')
    || (a == '\U{E3}' && b == '\U{80}' && c == '\U{80}')
  }

  function StripLeft(s: Bytes): (r: Bytes)
    ensures LeadingSpace(r) == 0 && |r| <= |s|
  {
    if LeadingSpace(s) == 0 then s else StripLeft(s[LeadingSpace(s)..])
  }

  function StripRight(s: Bytes): (r: Bytes)
    ensures TrailingSpace(r) == 0 && r <= s
  {
    if TrailingSpace(s) == 0 then s else StripRight(s[..|s| - TrailingSpace(s)])
  }

  function Strip(s: Bytes): Bytes { StripRight(StripLeft(s)) }

  /** Stripping leaves a string alone exactly when it neither starts nor ends with white space. */
  lemma StripFixes(s: Bytes)
    ensures Strip(s) == s <==> LeadingSpace(s) == 0 && TrailingSpace(s) == 0
  {
    hide LeadingSpace, TrailingSpace;
  }

  // ---------- Lines and data ----------

  /** The text split at every line feed. */
  function Lines(s: Bytes): (r: seq<Bytes>)
    ensures |r| > 0
  {
    if s == "" then [""]
    else
      var before, c := Lines(s[..|s| - 1]), s[|s| - 1];
      if c == '\n' then before + [""] else before[|before| - 1 := before[|before| - 1] + [c]]
  }

  lemma {:induction false} LinesOfJoined(a: Bytes, b: Bytes)
    ensures Lines(a + "\n" + b) == Lines(a) + Lines(b)
    decreases |b|
  {
    var all := a + "\n" + b;
    if b == "" {
      assert all[..|a|] == a;
    } else {
      assert all[..|all| - 1] == a + "\n" + b[..|b| - 1];
      LinesOfJoined(a, b[..|b| - 1]);
    }
  }

  lemma {:induction false} OneLine(s: Bytes)
    requires '\n' !in s
    ensures Lines(s) == [s]
  {
    if s != "" {
      OneLine(s[..|s| - 1]);
      assert s[|s| - 1] in s && s[..|s| - 1] + [s[|s| - 1]] == s;
    }
  }

  lemma {:induction false} NoLineHoldsABreak(s: Bytes)
    ensures forall i :: 0 <= i < |Lines(s)| ==> '\n' !in Lines(s)[i]
  {
    if s != "" { NoLineHoldsABreak(s[..|s| - 1]); }
  }

  function Join(parts: seq<Bytes>, sep: Bytes): Bytes {
    if parts == [] then ""
    else if |parts| == 1 then parts[0]
    else Join(parts[..|parts| - 1], sep) + sep + parts[|parts| - 1]
  }

  predicate HasField(line: Bytes, name: Bytes) { name <= Strip(line) }

  function FieldValue(line: Bytes, name: Bytes): Bytes
    requires HasField(line, name)
  {
    Strip(Strip(line)[|name|..])
  }

  function DataParts(lines: seq<Bytes>): seq<Bytes> {
    if lines == [] then []
    else
      DataParts(lines[..|lines| - 1])
      + (if HasField(lines[|lines| - 1], "data:") then [FieldValue(lines[|lines| - 1], "data:")] else [])
  }

  /** The payload of a frame: its data lines, each stripped, with line feeds between them.
      (Stripping also removes the carriage return of a CRLF line.) */
  function Data(frame: Bytes): Bytes { Join(DataParts(Lines(frame)), "\n") }

  /** The first event name, or nothing. */
  function EventOf(lines: seq<Bytes>): Bytes {
    if lines == [] then ""
    else if HasField(lines[0], "event:") then FieldValue(lines[0], "event:")
    else EventOf(lines[1..])
  }

  function Event(frame: Bytes): Bytes { EventOf(Lines(frame)) }

  function ReplaceData(frame: Bytes, data: Bytes): Bytes {
    (if Event(frame) != "" then "event: " + Event(frame) + "\n" else "") + "data: " + data + "\n\n"
  }

  // ---------- Data survives framing ----------

  lemma {:induction false} DataPartsConcat(a: seq<Bytes>, b: seq<Bytes>)
    ensures DataParts(a + b) == DataParts(a) + DataParts(b)
  {
    hide HasField, FieldValue;
    if b == [] {
      assert a + b == a;
    } else {
      assert (a + b)[..|a + b| - 1] == a + b[..|b| - 1];
      DataPartsConcat(a, b[..|b| - 1]);
    }
  }

  lemma DataPartsOne(line: Bytes)
    ensures DataParts([line]) == if HasField(line, "data:") then [FieldValue(line, "data:")] else []
  {
    hide HasField, FieldValue;
    assert [line][..0] == [];
  }

  /** Closing an unfinished frame does not change its data. */
  lemma DataIgnoresTerminator(frame: Bytes)
    ensures Data(frame + LF_LF) == Data(frame)
  {
    hide DataParts, Lines, Strip;
    assert frame + LF_LF == frame + "\n" + "" + "\n" + "";
    LinesOfJoined(frame + "\n" + "", "");
    LinesOfJoined(frame, "");
    OneLine("");
    BlankHasNoField();
    DataPartsOne("");
    assert frame + "\n" + "" == frame + "\n";
    assert Lines(frame + LF_LF) == Lines(frame) + [""] + [""];
    DataPartsConcat(Lines(frame) + [""], [""]);
    DataPartsConcat(Lines(frame), [""]);
    assert DataParts(Lines(frame)) + [] + [] == DataParts(Lines(frame));
  }

  lemma BlankHasNoField()
    ensures !HasField("", "data:")
  {
  }

  lemma {:induction false} VisibleHead(s: Bytes)
    requires |s| >= 5 && (s[..5] == "data:" || s[..5] == "event")
    ensures |Strip(s)| >= 5 && Strip(s)[..5] == s[..5]
  {
    assert LeadingSpace(s) == 0 by { assert s[0] == s[..5][0]; }
    HeadStays(s);
  }

  lemma {:induction false} HeadStays(s: Bytes)
    requires |s| >= 5 && (s[..5] == "data:" || s[..5] == "event")
    ensures |StripRight(s)| >= 5 && StripRight(s)[..5] == s[..5]
  {
    var w := TrailingSpace(s);
    if w > 0 {
      assert s[..5][0] == s[0] && s[..5][1] == s[1] && s[..5][2] == s[2] && s[..5][3] == s[3] && s[..5][4] == s[4];
      assert |s| - w >= 5;
      assert s[..|s| - w][..5] == s[..5];
      HeadStays(s[..|s| - w]);
    }
  }

  lemma EventLineHasNoData(name: Bytes)
    ensures !HasField("event: " + name, "data:")
  {
    hide Strip;
    var line := "event: " + name;
    assert line[..5] == "event";
    VisibleHead(line);
    assert Strip(line)[0] == 'e' by { assert Strip(line)[..5][0] == line[..5][0]; }
    assert "data:"[0] == 'd';
  }

  lemma DataLineValue(data: Bytes)
    ensures HasField("data: " + data, "data:") && FieldValue("data: " + data, "data:") == Strip(data)
  {
    var line := "data: " + data;
    assert line[..5] == "data:" && line[5..] == " " + data;
    assert LeadingSpace(line) == 0 by { assert line[0] == 'd'; }
    DataLineStrip(data);
  }

  /** White space after the colon is dropped wherever the right end is stripped first. */
  lemma {:induction false} DataLineStrip(data: Bytes)
    ensures var line := "data: " + data;
            "data:" <= StripRight(line) && Strip(StripRight(line)[5..]) == Strip(data)
    decreases |data|
  {
    hide LeadingSpace, TrailingSpace;
    var line := "data: " + data;
    var w := TrailingSpace(line);
    assert "data:" <= line by { assert line[..5] == "data:"; }
    if data == "" {
      EmptyDataLine();
      assert line == "data: " && "data:"[5..] == "";
    } else if w == 0 {
      assert line[5..] == " " + data;
      SpaceStripped(data);
    } else {
      TailStaysTail("data: ", data);
      var shorter := data[..|data| - w];
      assert line[..|line| - w] == "data: " + shorter;
      DataLineStrip(shorter);
      StripDropsTail(data);
    }
  }

  lemma EmptyDataLine()
    ensures StripRight("data: ") == "data:" && Strip("") == ""
  {
    assert "data: "[..5] == "data:";
    assert TrailingSpace("data:") == 0;
  }

  lemma SpaceStripped(data: Bytes)
    ensures Strip(" " + data) == Strip(data)
  {
    assert (" " + data)[1..] == data;
    assert LeadingSpace(" " + data) == 1;
  }

  /** Trailing white space of a non-empty tail does not reach over an ASCII byte before it. */
  lemma TailStaysTail(head: Bytes, tail: Bytes)
    requires tail != "" && head != "" && head[|head| - 1] == ' '
    ensures TrailingSpace(head + tail) == TrailingSpace(tail)
  {
    var s := head + tail;
    assert s[|s| - 1] == tail[|tail| - 1];
    assert |tail| >= 2 ==> s[|s| - 2] == tail[|tail| - 2];
    assert |tail| >= 3 ==> s[|s| - 3] == tail[|tail| - 3];
    assert |tail| < 2 ==> s[|s| - 2] == ' ';
    assert |tail| == 2 ==> s[|s| - 3] == ' ';
  }

  /** Stripping may start at the right. */
  lemma {:induction false} StripDropsTail(s: Bytes)
    ensures Strip(s[..|s| - TrailingSpace(s)]) == Strip(s)
    decreases |s|
  {
    hide LeadingSpace, TrailingSpace;
    var w, t := LeadingSpace(s), TrailingSpace(s);
    var inner := s[..|s| - t];
    if t == 0 {
      assert inner == s;
    } else if w == 0 {
      LeadingOfPrefix(s, |s| - t);
    } else if w + t > |s| {
      SpacesOverlapFully(s);
      assert inner == "" && s[w..] == "";
    } else {
      LeadingOfPrefix(s, |s| - t);
      TrailingOfSuffix(s, w);
      assert inner[w..] == s[w..][..|s| - w - t];
      StripDropsTail(s[w..]);
    }
  }

  /** Encodings of white space do not overlap one another. */
  lemma SpacesOverlapFully(s: Bytes)
    requires LeadingSpace(s) > 0 && TrailingSpace(s) > 0 && LeadingSpace(s) + TrailingSpace(s) > |s|
    ensures LeadingSpace(s) == TrailingSpace(s) == |s|
  {
  }

  lemma LeadingOfPrefix(s: Bytes, n: nat)
    requires n <= |s|
    ensures LeadingSpace(s[..n]) == if LeadingSpace(s) <= n then LeadingSpace(s) else 0
  {
  }

  lemma TrailingOfSuffix(s: Bytes, n: nat)
    requires n <= |s| && 0 < TrailingSpace(s) <= |s| - n
    ensures TrailingSpace(s[n..]) == TrailingSpace(s)
  {
  }

  // ---------- White space in UTF-8 ----------

  /** The UTF-8 encoding of a character of at most three bytes. */
  function Utf8(c: char): Bytes
    requires c < '\U{10000}'
  {
    var code := c as int;
    if code < 0x80 then [c]
    else if code < 0x800 then [(0xC0 + code / 0x40) as char, (0x80 + code % 0x40) as char]
    else [(0xE0 + code / 0x1000) as char, (0x80 + code / 0x40 % 0x40) as char, (0x80 + code % 0x40) as char]
  }

  lemma SpaceAtEnds(c: char, s: Bytes)
    requires c < '\U{10000}'
    ensures LeadingSpace(Utf8(c) + s) == TrailingSpace(s + Utf8(c)) == if IsSpace(c) then |Utf8(c)| else 0
  {
  }

  /** Stripping bytes agrees with the white space of Unicode, at either end. */
  lemma WhiteSpaceIsStripped(c: char, s: Bytes)
    requires c < '\U{10000}'
    ensures if IsSpace(c) then Strip(Utf8(c) + s) == Strip(s) == Strip(s + Utf8(c))
            else Strip(Utf8(c) + s + Utf8(c)) == Utf8(c) + s + Utf8(c)
  {
    hide LeadingSpace, TrailingSpace, Utf8, IsSpace;
    var u := Utf8(c);
    SpaceAtEnds(c, s);
    if IsSpace(c) {
      assert (u + s)[|u|..] == s && (s + u)[..|s + u| - |u|] == s;
      StripDropsTail(s + u);
    } else {
      SpaceAtEnds(c, s + u);
      SpaceAtEnds(c, u + s);
      assert u + (s + u) == u + s + u;
      StripFixes(u + s + u);
    }
  }

  // ---------- Rewritten data ----------

  lemma {:induction false} StripKeepsBytes(s: Bytes)
    ensures forall c :: c in Strip(s) ==> c in s
  {
    StripLeftKeepsBytes(s);
  }

  lemma {:induction false} StripLeftKeepsBytes(s: Bytes)
    ensures forall c :: c in StripLeft(s) ==> c in s
  {
    if LeadingSpace(s) > 0 { StripLeftKeepsBytes(s[LeadingSpace(s)..]); }
  }

  lemma {:induction false} EventIsOneLine(lines: seq<Bytes>)
    requires forall i :: 0 <= i < |lines| ==> '\n' !in lines[i]
    ensures '\n' !in EventOf(lines)
  {
    hide Strip;
    if lines != [] {
      if HasField(lines[0], "event:") {
        StripKeepsBytes(lines[0]);
        StripKeepsBytes(Strip(lines[0])[|"event:"|..]);
      } else {
        EventIsOneLine(lines[1..]);
      }
    }
  }

  /** The bytes of some lines, each with its line feed. */
  function Size(lines: seq<Bytes>): nat {
    if lines == [] then 0 else Size(lines[..|lines| - 1]) + |lines[|lines| - 1]| + 1
  }

  lemma {:induction false} SizeConcat(a: seq<Bytes>, b: seq<Bytes>)
    ensures Size(a + b) == Size(a) + Size(b)
  {
    if b == [] {
      assert a + b == a;
    } else {
      assert (a + b)[..|a + b| - 1] == a + b[..|b| - 1];
      SizeConcat(a, b[..|b| - 1]);
    }
  }

  lemma {:induction false} SizeOfJoin(parts: seq<Bytes>)
    requires parts != []
    ensures |Join(parts, "\n")| + 1 == Size(parts)
  {
    if |parts| == 1 {
      assert Size(parts[..0]) == 0;
    } else {
      SizeOfJoin(parts[..|parts| - 1]);
    }
  }

  lemma SizeSnoc(lines: seq<Bytes>, line: Bytes)
    ensures Size(lines + [line]) == Size(lines) + |line| + 1
  {
    assert (lines + [line])[..|lines|] == lines;
  }

  lemma {:induction false} SizeOfLines(s: Bytes)
    ensures Size(Lines(s)) == |s| + 1
  {
    hide Size;
    if s == "" {
      SizeSnoc([], "");
      assert [] + [""] == [""] && Size([]) == 0 by { NoLines(); }
    } else {
      var before, c := Lines(s[..|s| - 1]), s[|s| - 1];
      SizeOfLines(s[..|s| - 1]);
      var init, last := before[..|before| - 1], before[|before| - 1];
      assert before == init + [last];
      SizeSnoc(before, "");
      SizeSnoc(init, last);
      SizeSnoc(init, last + [c]);
      assert before[|before| - 1 := last + [c]] == init + [last + [c]];
    }
  }

  lemma NoLines()
    ensures Size([]) == 0
  {
  }

  lemma {:induction false} DataPartsShrink(lines: seq<Bytes>)
    ensures Size(DataParts(lines)) <= Size(lines)
    ensures lines != [] ==> Size(DataParts(lines)) < Size(lines)
  {
    hide Strip;
    if lines != [] {
      var init, last := lines[..|lines| - 1], lines[|lines| - 1];
      DataPartsShrink(init);
      if HasField(last, "data:") {
        StripShrinks(last);
        StripShrinks(Strip(last)[|"data:"|..]);
        var parts := DataParts(init) + [FieldValue(last, "data:")];
        assert parts[..|parts| - 1] == DataParts(init);
      } else {
        assert DataParts(lines) == DataParts(init);
      }
    }
  }

  lemma StripShrinks(s: Bytes)
    ensures |Strip(s)| <= |s|
  {
  }

  /** The data of a single data line is the stripped text, if that is one line; if the text has
      line feeds the data is shorter than the text. */
  lemma DataOfDataLine(data: Bytes)
    ensures '\n' !in data ==> Data("data: " + data) == Strip(data)
    ensures '\n' in data ==> |Data("data: " + data)| < |data|
  {
    hide Strip, DataParts, HasField, FieldValue, Lines;
    if '\n' !in data {
      OneLine("data: " + data);
      DataPartsOne("data: " + data);
      DataLineValue(data);
    } else {
      var i :| 0 <= i < |data| && data[i] == '\n' && '\n' !in data[..i] by { FirstBreak(data); }
      var head, tail := data[..i], data[i + 1..];
      assert "data: " + data == ("data: " + head) + "\n" + tail;
      LinesOfJoined("data: " + head, tail);
      OneLine("data: " + head);
      DataPartsConcat(["data: " + head], Lines(tail));
      DataPartsOne("data: " + head);
      DataLineValue(head);
      StripShrinks(head);
      var parts := DataParts(Lines(tail));
      SizeConcat([Strip(head)], parts);
      SizeOfJoin([Strip(head)] + parts);
      DataPartsShrink(Lines(tail));
      SizeOfLines(tail);
      assert [Strip(head)][..0] == [];
      assert Size([Strip(head)]) == |Strip(head)| + 1;
    }
  }

  lemma {:induction false} FirstBreak(s: Bytes)
    requires '\n' in s
    ensures exists i :: 0 <= i < |s| && s[i] == '\n' && '\n' !in s[..i]
  {
    var init := s[..|s| - 1];
    if '\n' in init {
      FirstBreak(init);
      var i :| 0 <= i < |init| && init[i] == '\n' && '\n' !in init[..i];
      assert s[..i] == init[..i] && s[i] == '\n';
    } else {
      assert s[|s| - 1] == '\n';
    }
  }

  /** A payload that a client reads back as written: one line, no white space around it. */
  predicate Compact(data: Bytes) { '\n' !in data && Strip(data) == data }

  lemma StripIsStripped(s: Bytes)
    ensures Strip(Strip(s)) == Strip(s)
  {
    StripFixes(Strip(s));
    assert StripRight(StripLeft(s)) <= StripLeft(s);
  }

  lemma {:induction false} PartsAreStripped(lines: seq<Bytes>)
    ensures forall part :: part in DataParts(lines) ==> Strip(part) == part
  {
    hide Strip;
    if lines != [] {
      PartsAreStripped(lines[..|lines| - 1]);
      var last := lines[|lines| - 1];
      if HasField(last, "data:") { StripIsStripped(Strip(last)[|"data:"|..]); }
    }
  }

  /** Data that stands on one line is compact. */
  lemma OneLineData(frame: Bytes)
    requires '\n' !in Data(frame)
    ensures Compact(Data(frame))
  {
    hide Strip, DataParts, Lines;
    var parts := DataParts(Lines(frame));
    PartsAreStripped(Lines(frame));
    if parts == [] {
      assert Strip("") == "" by { NothingToStrip(); }
    } else if |parts| == 1 {
      assert parts[0] in parts;
    } else {
      BrokenJoin(parts);
    }
  }

  lemma NothingToStrip()
    ensures Strip("") == ""
  {
  }

  lemma BrokenJoin(parts: seq<Bytes>)
    requires |parts| > 1
    ensures '\n' in Join(parts, "\n")
  {
    var init := Join(parts[..|parts| - 1], "\n");
    assert (init + "\n" + parts[|parts| - 1])[|init|] == '\n';
  }

  /** A frame with its data replaced carries the new data, if and only if that is compact. */
  lemma ReplacedDataReadsBack(frame: Bytes, data: Bytes)
    ensures Data(ReplaceData(frame, data)) == data <==> Compact(data)
  {
    hide Strip, DataParts, HasField, FieldValue, Lines, Event;
    var line := "data: " + data;
    DataOfDataLine(data);
    if Event(frame) == "" {
      assert ReplaceData(frame, data) == line + LF_LF;
      DataIgnoresTerminator(line);
    } else {
      var name := "event: " + Event(frame);
      assert ReplaceData(frame, data) == (name + "\n" + line) + LF_LF;
      DataIgnoresTerminator(name + "\n" + line);
      EventNameIsOneLine(frame);
      OneLine(name);
      LinesOfJoined(name, line);
      DataPartsConcat([name], Lines(line));
      DataPartsOne(name);
      EventLineHasNoData(Event(frame));
      assert [] + DataParts(Lines(line)) == DataParts(Lines(line));
    }
  }

  lemma EventNameIsOneLine(frame: Bytes)
    ensures '\n' !in Event(frame)
  {
    NoLineHoldsABreak(frame);
    EventIsOneLine(Lines(frame));
  }

  // ---------- What stays and what is written ----------

  lemma EventLineValue(name: Bytes)
    requires Strip(name) == name && name != ""
    ensures HasField("event: " + name, "event:") && FieldValue("event: " + name, "event:") == name
  {
    var line := "event: " + name;
    StripFixes(name);
    assert LeadingSpace(line) == 0 by { assert line[0] == 'e'; }
    TailKeepsEnd("event: ", name);
    StripFixes(line);
    assert line[..6] == "event:" && line[6..] == " " + name;
    SpaceStripped(name);
  }

  lemma TailKeepsEnd(head: Bytes, tail: Bytes)
    requires tail != "" && TrailingSpace(tail) == 0 && head != "" && head[|head| - 1] == ' '
    ensures TrailingSpace(head + tail) == 0
  {
    TailStaysTail(head, tail);
  }

  lemma DataLineHasNoEvent(data: Bytes)
    ensures !HasField("data: " + data, "event:")
  {
    hide Strip;
    var line := "data: " + data;
    assert line[..5] == "data:";
    VisibleHead(line);
    assert Strip(line)[0] == 'd' by { assert Strip(line)[..5][0] == line[..5][0]; }
    assert "event:"[0] == 'e';
  }

  lemma {:induction false} EventNameIsStripped(lines: seq<Bytes>)
    ensures Strip(EventOf(lines)) == EventOf(lines)
  {
    hide Strip;
    if lines == [] {
      NothingToStrip();
    } else if HasField(lines[0], "event:") {
      StripIsStripped(Strip(lines[0])[|"event:"|..]);
    } else {
      EventNameIsStripped(lines[1..]);
    }
  }

  /** Replacing one-line data keeps the event name. */
  lemma ReplacedDataKeepsEvent(frame: Bytes, data: Bytes)
    requires '\n' !in data
    ensures Event(ReplaceData(frame, data)) == Event(frame)
  {
    hide Strip, HasField, FieldValue, Lines, EventOf;
    var line, name := "data: " + data, Event(frame);
    EventNameIsStripped(Lines(frame));
    EventNameIsOneLine(frame);
    DataLineHasNoEvent(data);
    OneLine(line);
    BlankEnd(line);
    if name == "" {
      assert ReplaceData(frame, data) == line + LF_LF;
      SkipLine(line, ["", ""]);
      SkipLine("", [""]);
      SkipLine("", []);
      assert [line] + ["", ""] == [line, "", ""] && [""] + [""] == ["", ""] && [""] + [] == [""];
    } else {
      EventLineValue(name);
      var first := "event: " + name;
      OneLine(first);
      assert ReplaceData(frame, data) == first + "\n" + (line + LF_LF);
      LinesOfJoined(first, line + LF_LF);
      TakeLine(first, Lines(line + LF_LF));
    }
  }

  lemma BlankEnd(line: Bytes)
    requires Lines(line) == [line]
    ensures Lines(line + LF_LF) == [line, "", ""]
    ensures !HasField("", "event:") && EventOf([]) == ""
  {
    hide Lines;
    assert line + LF_LF == line + "\n" + "" + "\n" + "";
    LinesOfJoined(line + "\n" + "", "");
    LinesOfJoined(line, "");
    OneLine("");
    assert Lines(line + LF_LF) == [line] + [""] + [""];
  }

  lemma SkipLine(line: Bytes, rest: seq<Bytes>)
    requires !HasField(line, "event:")
    ensures EventOf([line] + rest) == EventOf(rest)
  {
    assert ([line] + rest)[1..] == rest;
  }

  lemma TakeLine(line: Bytes, rest: seq<Bytes>)
    requires HasField(line, "event:")
    ensures EventOf([line] + rest) == FieldValue(line, "event:")
  {
  }

  /** A frame written with one data line for each part. */
  function DataLines(parts: seq<Bytes>): Bytes {
    if parts == [] then "" else DataLines(parts[..|parts| - 1]) + "data: " + parts[|parts| - 1] + "\n"
  }

  /** The data of a frame is what its data lines say, with line feeds between them. */
  lemma {:induction false} DataLinesReadBack(parts: seq<Bytes>)
    requires forall part :: part in parts ==> Compact(part)
    ensures DataParts(Lines(DataLines(parts))) == parts && Data(DataLines(parts)) == Join(parts, "\n")
  {
    hide Strip, Compact, HasField, FieldValue, Lines, DataParts, Join;
    if parts == [] {
      OneLine("");
      BlankHasNoField();
      DataPartsOne("");
    } else {
      var init, last := parts[..|parts| - 1], parts[|parts| - 1];
      assert last in parts;
      DataLinesReadBack(init);
      OneMoreDataLine(init, last);
      assert init + [last] == parts;
    }
  }

  lemma OneMoreDataLine(init: seq<Bytes>, last: Bytes)
    requires Compact(last)
    ensures DataParts(Lines(DataLines(init + [last]))) == DataParts(Lines(DataLines(init))) + [last]
  {
    hide Strip, HasField, FieldValue, Lines, DataParts;
    var line := "data: " + last;
    assert (init + [last])[..|init|] == init;
    assert DataLines(init + [last]) == DataLines(init) + line + "\n";
    LastLineIsBlank(init);
    LinesOfLast(DataLines(init), line);
    DataLineValue(last);
    DataPartsOne(line);
    var before := Lines(DataLines(init));
    assert before == before[..|before| - 1] + [""];
    DataPartsGrow(before[..|before| - 1], line, last);
  }

  lemma DataPartsGrow(lines: seq<Bytes>, line: Bytes, part: Bytes)
    requires DataParts([line]) == [part]
    ensures DataParts(lines + [""]) == DataParts(lines)
    ensures DataParts(lines + [line] + [""]) == DataParts(lines) + [part]
  {
    hide DataParts, HasField, FieldValue;
    BlankHasNoField();
    DataPartsOne("");
    DataPartsConcat(lines, [""]);
    DataPartsConcat(lines, [line]);
    DataPartsConcat(lines + [line], [""]);
  }

  lemma LastLineIsBlank(parts: seq<Bytes>)
    ensures var lines := Lines(DataLines(parts)); lines[|lines| - 1] == ""
  {
    if parts != [] {
      var s := DataLines(parts);
      assert s[|s| - 1] == '\n';
    }
  }

  /** A line added to a text that ends at a line start. */
  lemma LinesOfLast(s: Bytes, line: Bytes)
    requires Lines(s)[|Lines(s)| - 1] == "" && '\n' !in line
    ensures Lines(s + line + "\n") == Lines(s)[..|Lines(s)| - 1] + [line] + [""]
  {
    var all := s + line + "\n";
    assert all[..|all| - 1] == s + line;
    LinesAppend(s, line);
    assert all[|all| - 1] == '\n';
  }

  lemma {:induction false} LinesAppend(s: Bytes, line: Bytes)
    requires Lines(s)[|Lines(s)| - 1] == "" && '\n' !in line
    ensures Lines(s + line) == Lines(s)[..|Lines(s)| - 1] + [line]
    decreases |line|
  {
    if line == "" {
      assert s + line == s;
    } else {
      var init, c := line[..|line| - 1], line[|line| - 1];
      assert (s + line)[..|s + line| - 1] == s + init && (s + line)[|s + line| - 1] == c;
      assert c in line;
      LinesAppend(s, init);
      assert init + [c] == line;
    }
  }
}
