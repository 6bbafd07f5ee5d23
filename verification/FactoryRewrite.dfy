/** Several port numbers replaced in a document at once, by splicing from right to left. */
module FactoryRewrite {
  import opened Basics

  // ---------- Ports ----------

  /** What follows the last colon; nothing without a colon. */
  function PortSuffix(origin: string): (port: string)
    ensures ':' !in port
    ensures ':' in origin ==> |origin| > |port| && origin[|origin| - |port| - 1..] == ":" + port
    ensures ':' !in origin ==> port == ""
  {
    if origin == "" || ':' !in origin then ""
    else if origin[|origin| - 1] == ':' then ""
    else PortSuffix(origin[..|origin| - 1]) + [origin[|origin| - 1]]
  }

  /** bytes.LastIndex. */
  function LastIndex(s: string, pattern: string): (r: Option<nat>)
    ensures r.Some? ==> StartsAt(s, r.value, pattern) && forall i: nat :: StartsAt(s, i, pattern) ==> i <= r.value
    ensures r.None? ==> forall i: nat :: !StartsAt(s, i, pattern)
  {
    LastFrom(s, pattern, |s|)
  }

  function LastFrom(s: string, pattern: string, from: nat): (r: Option<nat>)
    requires forall i: nat :: i > from ==> !StartsAt(s, i, pattern)
    ensures r.Some? ==> StartsAt(s, r.value, pattern) && forall i: nat :: StartsAt(s, i, pattern) ==> i <= r.value
    ensures r.None? ==> forall i: nat :: !StartsAt(s, i, pattern)
    decreases from
  {
    if StartsAt(s, from, pattern) then Some(from) else if from == 0 then None else LastFrom(s, pattern, from - 1)
  }

  // ---------- Simultaneous replacement ----------

  /** Replace `length` bytes at `at` by `text`. */
  datatype Site = Site(at: nat, length: nat, text: string)

  /** The sites lie in the first `n` bytes, from right to left, without overlap. */
  predicate Placed(sites: seq<Site>, n: int) {
    sites == [] || (sites[0].at + sites[0].length <= n && Placed(sites[1..], sites[0].at))
  }

  /** All sites replaced at once: every piece of the result is cut from the original. */
  function Replaced(raw: string, sites: seq<Site>): string
    requires Placed(sites, |raw|)
    decreases |sites|
  {
    if sites == [] then raw
    else Replaced(raw[..sites[0].at], sites[1..]) + sites[0].text + raw[sites[0].at + sites[0].length..]
  }

  /** How far the sites left of position `q` move what follows them. */
  function Shift(sites: seq<Site>, q: int): int {
    if sites == [] then 0
    else Shift(sites[1..], q) + if sites[0].at < q then |sites[0].text| - sites[0].length else 0
  }

  predicate Outside(sites: seq<Site>, q: int) {
    forall i :: 0 <= i < |sites| ==> q < sites[i].at || sites[i].at + sites[i].length <= q
  }

  lemma {:induction false} ShiftOfAll(sites: seq<Site>, n: nat, q: int)
    requires Placed(sites, n) && n <= q && (forall i :: 0 <= i < |sites| ==> sites[i].length > 0)
    ensures Shift(sites, q) == Shift(sites, n) && Shift(sites, n) + n >= 0
    decreases |sites|
  {
    if sites != [] {
      ShiftOfAll(sites[1..], sites[0].at, q);
      ShiftOfAll(sites[1..], sites[0].at, n);
    }
  }

  lemma {:induction false} LengthAfter(raw: string, sites: seq<Site>)
    requires Placed(sites, |raw|) && (forall i :: 0 <= i < |sites| ==> sites[i].length > 0)
    ensures |Replaced(raw, sites)| == |raw| + Shift(sites, |raw|)
    decreases |sites|
  {
    if sites != [] {
      LengthAfter(raw[..sites[0].at], sites[1..]);
      ShiftOfAll(sites[1..], sites[0].at, |raw|);
    }
  }

  /** Every byte outside the sites is kept, moved by the sites to its left. */
  lemma {:induction false} OtherBytesAreKept(raw: string, sites: seq<Site>, q: nat)
    requires Placed(sites, |raw|) && (forall i :: 0 <= i < |sites| ==> sites[i].length > 0)
    requires q < |raw| && Outside(sites, q)
    ensures 0 <= q + Shift(sites, q) < |Replaced(raw, sites)|
    ensures Replaced(raw, sites)[q + Shift(sites, q)] == raw[q]
    decreases |sites|
  {
    if sites != [] {
      var head, rest := sites[0], sites[1..];
      LengthAfter(raw[..head.at], rest);
      if q < head.at {
        assert Outside(rest, q);
        OtherBytesAreKept(raw[..head.at], rest, q);
      } else {
        ShiftOfAll(rest, head.at, q);
      }
    }
  }

  /** Every site's new text stands where the site has moved to. */
  lemma {:induction false} NewTextIsThere(raw: string, sites: seq<Site>, k: nat)
    requires Placed(sites, |raw|) && (forall i :: 0 <= i < |sites| ==> sites[i].length > 0) && k < |sites|
    ensures var at := sites[k].at + Shift(sites[k + 1..], sites[k].at);
            0 <= at && at + |sites[k].text| <= |Replaced(raw, sites)|
            && Replaced(raw, sites)[at..at + |sites[k].text|] == sites[k].text
    decreases |sites|
  {
    var head, rest := sites[0], sites[1..];
    LengthAfter(raw[..head.at], rest);
    if k == 0 {
      ShiftOfAll(rest, head.at, head.at);
    } else {
      NewTextIsThere(raw[..head.at], rest, k - 1);
      assert rest[k - 1..] == sites[k..] && rest[k..] == sites[k + 1..];
      var inner := Replaced(raw[..head.at], rest);
      var at := sites[k].at + Shift(sites[k + 1..], sites[k].at);
      assert Replaced(raw, sites)[at..at + |sites[k].text|] == inner[at..at + |sites[k].text|];
    }
  }

  // ---------- Undoing ----------

  /** The sites that put the old text back, where the replacements have moved them. */
  function Reversed(raw: string, sites: seq<Site>): (r: seq<Site>)
    requires Placed(sites, |raw|)
    ensures |r| == |sites|
    decreases |sites|
  {
    if sites == [] then []
    else
      var head := sites[0];
      [Site(|Replaced(raw[..head.at], sites[1..])|, |head.text|, raw[head.at..head.at + head.length])]
      + Reversed(raw[..head.at], sites[1..])
  }

  /** Replacing is undone by replacing back, whatever the lengths. */
  lemma {:induction false} ReplacingIsReversible(raw: string, sites: seq<Site>)
    requires Placed(sites, |raw|)
    ensures Placed(Reversed(raw, sites), |Replaced(raw, sites)|)
    ensures Replaced(Replaced(raw, sites), Reversed(raw, sites)) == raw
    decreases |sites|
  {
    if sites != [] {
      var head, rest := sites[0], sites[1..];
      ReplacingIsReversible(raw[..head.at], rest);
      OneSiteBack(raw, sites);
    }
  }

  lemma OneSiteBack(raw: string, sites: seq<Site>)
    requires Placed(sites, |raw|) && sites != []
    requires var before := raw[..sites[0].at];
             var a := Replaced(before, sites[1..]);
             Placed(Reversed(before, sites[1..]), |a|) && Replaced(a, Reversed(before, sites[1..])) == before
    ensures Placed(Reversed(raw, sites), |Replaced(raw, sites)|)
    ensures Replaced(Replaced(raw, sites), Reversed(raw, sites)) == raw
  {
    hide Replaced, Reversed, Placed;
    var head, rest := sites[0], sites[1..];
    PlacedHead(sites, |raw|);
    var a, back := Replaced(raw[..head.at], rest), Reversed(raw[..head.at], rest);
    var oldText, tail := raw[head.at..head.at + head.length], raw[head.at + head.length..];
    var out, r := Replaced(raw, sites), Reversed(raw, sites);
    ReplacedHead(raw, sites);
    ReversedHead(raw, sites);
    assert out == a + (head.text + tail);
    assert r[1..] == back;
    assert out[..|a|] == a && out[|a| + |head.text|..] == tail by {
      assert out == (a + head.text) + tail && |a + head.text| == |a| + |head.text|;
    }
    PlacedHead(r, |out|);
    ReplacedHead(out, r);
    assert raw == raw[..head.at] + oldText + tail;
  }

  lemma PlacedHead(sites: seq<Site>, n: int)
    requires sites != []
    ensures Placed(sites, n) <==> sites[0].at + sites[0].length <= n && Placed(sites[1..], sites[0].at)
  {
  }

  lemma ReversedHead(raw: string, sites: seq<Site>)
    requires Placed(sites, |raw|) && sites != []
    ensures var head, rest := sites[0], sites[1..];
            Reversed(raw, sites) ==
            [Site(|Replaced(raw[..head.at], rest)|, |head.text|, raw[head.at..head.at + head.length])]
            + Reversed(raw[..head.at], rest)
  {
    hide Replaced;
  }

  /** With texts of equal lengths the sites stay where they are. */
  lemma {:induction false} EqualLengthsStay(raw: string, sites: seq<Site>)
    requires Placed(sites, |raw|) && forall i :: 0 <= i < |sites| ==> |sites[i].text| == sites[i].length
    ensures |Replaced(raw, sites)| == |raw|
    ensures forall i :: 0 <= i < |sites| ==>
              Reversed(raw, sites)[i].at == sites[i].at && Reversed(raw, sites)[i].length == sites[i].length
    decreases |sites|
  {
    if sites != [] {
      EqualLengthsStay(raw[..sites[0].at], sites[1..]);
    }
  }

  // ---------- Changes ----------

  datatype Change = Change(oldOrigin: string, newOrigin: string, valueStart: nat, valueEnd: nat)

  predicate Spans(raw: string, ch: Change) { ch.valueStart < ch.valueEnd <= |raw| }

  predicate Disjoint(a: Change, b: Change) { a.valueEnd <= b.valueStart || b.valueEnd <= a.valueStart }

  /** What the analysis of a document yields: spans in it, none overlapping another. */
  ghost predicate Analyzed(raw: string, changes: seq<Change>) {
    && (forall i :: 0 <= i < |changes| ==> Spans(raw, changes[i]))
    && (forall i, j :: 0 <= i < j < |changes| ==> Disjoint(changes[i], changes[j]))
  }

  predicate HasPort(raw: string, ch: Change)
    requires Spans(raw, ch)
  {
    LastIndex(raw[ch.valueStart..ch.valueEnd], PortSuffix(ch.oldOrigin)).Some?
  }

  /** The last occurrence of the old port in the span. */
  function SiteOf(raw: string, ch: Change): Site
    requires Spans(raw, ch) && HasPort(raw, ch)
  {
    Site(ch.valueStart + LastIndex(raw[ch.valueStart..ch.valueEnd], PortSuffix(ch.oldOrigin)).value,
         |PortSuffix(ch.oldOrigin)|, PortSuffix(ch.newOrigin))
  }

  ghost predicate Ready(raw: string, changes: seq<Change>) {
    forall ch :: ch in changes ==> Spans(raw, ch) && HasPort(raw, ch)
  }

  function Sites(raw: string, changes: seq<Change>): (sites: seq<Site>)
    requires Ready(raw, changes)
    ensures |sites| == |changes|
  {
    seq(|changes|, i requires 0 <= i < |changes| => SiteOf(raw, changes[i]))
  }

  /** From right to left. */
  ghost predicate Descending(changes: seq<Change>) {
    forall i, j :: 0 <= i < j < |changes| ==> changes[j].valueEnd <= changes[i].valueStart
  }

  /** A span that ends with the port and a quote. */
  predicate EndsWithPort(raw: string, ch: Change)
    requires Spans(raw, ch)
  {
    var port := PortSuffix(ch.oldOrigin);
    port != "" && '\"' !in port && |port| + 1 <= ch.valueEnd - ch.valueStart
    && raw[ch.valueEnd - 1 - |port|..ch.valueEnd] == port + "\""
  }

  /** There the port to replace is exactly the one at the end. */
  lemma PortAtTheEnd(raw: string, ch: Change)
    requires Spans(raw, ch) && EndsWithPort(raw, ch)
    ensures HasPort(raw, ch) && SiteOf(raw, ch).at == ch.valueEnd - 1 - |PortSuffix(ch.oldOrigin)|
  {
    hide PortSuffix;
    var port, value := PortSuffix(ch.oldOrigin), raw[ch.valueStart..ch.valueEnd];
    var at := |value| - 1 - |port|;
    var tail := raw[ch.valueEnd - 1 - |port|..ch.valueEnd];
    assert value[at..at + |port|] == tail[..|port|] == port;
    assert StartsAt(value, at, port);
    assert value[|value| - 1] == tail[|port|] == '\"';
    BeforeTheQuote(value, LastIndex(value, port).value, port);
  }

  lemma BeforeTheQuote(value: string, i: nat, port: string)
    requires StartsAt(value, i, port) && port != "" && '\"' !in port && value[|value| - 1] == '\"'
    ensures i + |port| <= |value| - 1
  {
    assert port[|port| - 1] in port && port[|port| - 1] == value[i..i + |port|][|port| - 1];
  }

  lemma SitesArePlaced(raw: string, changes: seq<Change>, n: nat)
    requires Ready(raw, changes) && Descending(changes) && n <= |raw|
    requires changes != [] ==> changes[0].valueEnd <= n
    ensures Placed(Sites(raw, changes), n)
    decreases |changes|
  {
    hide PortSuffix, LastIndex;
    if changes != [] {
      assert Spans(raw, changes[0]) && forall ch :: ch in changes[1..] ==> ch in changes;
      assert Sites(raw, changes)[1..] == Sites(raw, changes[1..]);
      SitesArePlaced(raw, changes[1..], changes[0].valueStart);
      PlacedIn(Sites(raw, changes[1..]), changes[0].valueStart, SiteOf(raw, changes[0]).at);
    }
  }

  lemma PlacedIn(sites: seq<Site>, n: int, m: int)
    requires Placed(sites, n) && n <= m
    ensures Placed(sites, m)
  {
  }

  // ---------- The rewrite ----------

  method SortDescending(raw: string, changes: seq<Change>) returns (sorted: seq<Change>)
    requires Analyzed(raw, changes)
    ensures multiset(sorted) == multiset(changes) && Analyzed(raw, sorted) && Descending(sorted)
  {
    hide Analyzed, Descending, Spans, Disjoint;
    sorted := changes;
    var i := 0;
    while i < |sorted| - 1
      invariant 0 <= i && |sorted| == |changes| && multiset(sorted) == multiset(changes) && Analyzed(raw, sorted)
      invariant forall a, b :: 0 <= a < i && a < b < |sorted| ==> sorted[a].valueStart >= sorted[b].valueStart
    {
      var j := i + 1;
      while j < |sorted|
        invariant i < j <= |sorted| == |changes| && multiset(sorted) == multiset(changes) && Analyzed(raw, sorted)
        invariant forall a, b :: 0 <= a < i && a < b < |sorted| ==> sorted[a].valueStart >= sorted[b].valueStart
        invariant forall b :: i < b < j ==> sorted[i].valueStart >= sorted[b].valueStart
      {
        if sorted[j].valueStart > sorted[i].valueStart {
          SwapKeepsAnalyzed(raw, sorted, i, j);
          sorted := sorted[i := sorted[j]][j := sorted[i]];
        }
        j := j + 1;
      }
      i := i + 1;
    }
    DisjointAndSorted(raw, sorted);
  }

  lemma SwapKeepsAnalyzed(raw: string, changes: seq<Change>, i: nat, j: nat)
    requires Analyzed(raw, changes) && i < j < |changes|
    ensures Analyzed(raw, changes[i := changes[j]][j := changes[i]])
    ensures multiset(changes[i := changes[j]][j := changes[i]]) == multiset(changes)
  {
    hide Spans, Disjoint;
    forall a: Change, b: Change ensures Disjoint(a, b) == Disjoint(b, a) { DisjointIsSymmetric(a, b); }
  }

  lemma DisjointIsSymmetric(a: Change, b: Change)
    ensures Disjoint(a, b) == Disjoint(b, a)
  {
  }

  lemma DisjointAndSorted(raw: string, changes: seq<Change>)
    requires Analyzed(raw, changes)
    requires forall i, j :: 0 <= i < j < |changes| ==> changes[i].valueStart >= changes[j].valueStart
    ensures Descending(changes)
  {
    forall i, j | 0 <= i < j < |changes| ensures changes[j].valueEnd <= changes[i].valueStart {
      assert Disjoint(changes[i], changes[j]) && Spans(raw, changes[i]);
    }
  }

  lemma SameChanges(raw: string, a: seq<Change>, b: seq<Change>)
    requires multiset(a) == multiset(b)
    ensures Ready(raw, a) <==> Ready(raw, b)
  {
    hide HasPort, Spans;
    assert forall ch :: ch in a <==> ch in multiset(a);
    assert forall ch :: ch in b <==> ch in multiset(b);
  }

  /** The first `k` sites are done; the first `b` bytes hold the others and are as they were. */
  ghost predicate PartlySpliced(raw: string, sites: seq<Site>, k: nat, b: nat, result: string) {
    && k <= |sites| && b <= |raw| && b <= |result| && result[..b] == raw[..b]
    && Placed(sites, |raw|) && Placed(sites[k..], b)
    && Replaced(raw, sites) == Replaced(raw[..b], sites[k..]) + result[b..]
  }

  /** The spans are rewritten one after the other; what lies left of them is not touched yet. */
  method SpliceAll(raw: string, sorted: seq<Change>) returns (r: Result<string>)
    requires Analyzed(raw, sorted) && Descending(sorted)
    ensures r.Ok? <==> Ready(raw, sorted)
    ensures r.Ok? ==> Placed(Sites(raw, sorted), |raw|) && r.value == Replaced(raw, Sites(raw, sorted))
  {
    hide PortSuffix, LastIndex, StartsAt, Replaced, Descending, Placed, Analyzed, Sites, SiteOf, HasPort, Ready,
         PartlySpliced;
    DescendingStep(sorted);
    ReadyMeans(raw, sorted);
    SpansOf(raw, sorted);
    var result := raw;
    ghost var b: nat := |raw|;
    if Ready(raw, sorted) { NothingSpliced(raw, sorted); }
    assert raw[..b] == raw && (sorted != [] ==> Spans(raw, sorted[0]));
    var k := 0;
    while k < |sorted|
      invariant 0 <= k <= |sorted| && b <= |raw| && b <= |result| && result[..b] == raw[..b]
      invariant k < |sorted| ==> sorted[k].valueEnd <= b
      invariant forall j :: 0 <= j < k ==> HasPort(raw, sorted[j])
      invariant Ready(raw, sorted) ==> PartlySpliced(raw, Sites(raw, sorted), k, b, result)
    {
      assert Spans(raw, sorted[k]);
      var next := SpliceSpan(raw, result, b, sorted[k]);
      if next.None? { return Err("old port not found in baseUrl value"); }
      if Ready(raw, sorted) {
        SitesBySite(raw, sorted);
        SpliceOne(raw, Sites(raw, sorted), k, b, result, next.value);
      }
      b := SiteOf(raw, sorted[k]).at;
      result := next.value;
      k := k + 1;
    }
    if Ready(raw, sorted) { AllSpliced(raw, Sites(raw, sorted), b, result); }
    r := Ok(result);
  }

  /** One span of a result whose first `b` bytes are still the original ones. */
  method SpliceSpan(ghost raw: string, result: string, ghost b: nat, ch: Change) returns (r: Option<string>)
    requires b <= |raw| && b <= |result| && result[..b] == raw[..b] && Spans(raw, ch) && ch.valueEnd <= b
    ensures r.Some? <==> HasPort(raw, ch)
    ensures r.Some? ==>
              var site := SiteOf(raw, ch);
              && ch.valueStart <= site.at && site.at + site.length <= ch.valueEnd
              && r.value == result[..site.at] + site.text + result[site.at + site.length..]
              && site.at <= |r.value| && r.value[..site.at] == raw[..site.at]
  {
    hide PortSuffix, LastIndex, StartsAt;
    var valueBytes := result[ch.valueStart..ch.valueEnd];
    SliceAgrees(raw, result, b, ch.valueStart, ch.valueEnd);
    var oldPort, newPort := PortSuffix(ch.oldOrigin), PortSuffix(ch.newOrigin);
    var idx := LastIndex(valueBytes, oldPort);
    if idx.None? { return None; }
    PortFits(valueBytes, idx.value, oldPort);
    var replaceStart := ch.valueStart + idx.value;
    var replaceEnd := replaceStart + |oldPort|;
    SliceAgrees(raw, result, b, 0, replaceStart);
    r := Some(result[..replaceStart] + newPort + result[replaceEnd..]);
  }

  lemma NothingSpliced(raw: string, changes: seq<Change>)
    requires Analyzed(raw, changes) && Descending(changes) && Ready(raw, changes)
    ensures PartlySpliced(raw, Sites(raw, changes), 0, |raw|, raw)
  {
    hide PortSuffix, LastIndex, HasPort, Sites, Placed, Replaced;
    if changes != [] { assert Spans(raw, changes[0]); }
    SitesArePlaced(raw, changes, |raw|);
    var sites := Sites(raw, changes);
    assert sites[0..] == sites && raw[..|raw|] == raw && Replaced(raw, sites) + raw[|raw|..] == Replaced(raw, sites);
  }

  lemma AllSpliced(raw: string, sites: seq<Site>, b: nat, result: string)
    requires PartlySpliced(raw, sites, |sites|, b, result)
    ensures Placed(sites, |raw|) && result == Replaced(raw, sites)
  {
    ReplacedNothing(raw[..b], sites[|sites|..]);
    assert result[..b] + result[b..] == result;
  }

  lemma ReadyMeans(raw: string, changes: seq<Change>)
    ensures Ready(raw, changes)
            <==> forall k :: 0 <= k < |changes| ==> Spans(raw, changes[k]) && HasPort(raw, changes[k])
  {
    hide HasPort, Spans;
    if Ready(raw, changes) {
      forall k | 0 <= k < |changes| ensures changes[k] in changes { }
    }
  }

  lemma SliceAgrees(raw: string, result: string, b: nat, lo: nat, hi: nat)
    requires lo <= hi <= b <= |raw| && b <= |result| && result[..b] == raw[..b]
    ensures result[lo..hi] == raw[lo..hi]
  {
    assert result[lo..hi] == result[..b][lo..hi] && raw[lo..hi] == raw[..b][lo..hi];
  }

  lemma SpansOf(raw: string, changes: seq<Change>)
    requires Analyzed(raw, changes)
    ensures forall k :: 0 <= k < |changes| ==> Spans(raw, changes[k])
  {
  }

  lemma DescendingStep(changes: seq<Change>)
    requires Descending(changes)
    ensures forall k :: 0 <= k < |changes| - 1 ==> changes[k + 1].valueEnd <= changes[k].valueStart
  {
  }

  lemma PortFits(s: string, i: nat, port: string)
    requires StartsAt(s, i, port)
    ensures i + |port| <= |s|
  {
  }

  lemma SpliceOne(raw: string, sites: seq<Site>, k: nat, b: nat, result: string, newResult: string)
    requires PartlySpliced(raw, sites, k, b, result) && k < |sites| && sites[k].at + sites[k].length <= b
    requires newResult == result[..sites[k].at] + sites[k].text + result[sites[k].at + sites[k].length..]
    ensures PartlySpliced(raw, sites, k + 1, sites[k].at, newResult)
  {
    var site := sites[k];
    assert sites[k..][1..] == sites[k + 1..] && sites[k..][0] == site;
    assert Placed(sites[k + 1..], site.at);
    assert raw[..b][..site.at] == raw[..site.at];
    SliceAgrees(raw, result, b, 0, site.at);
    SpliceTail(raw, sites, k, b, result, newResult);
  }

  lemma SpliceTail(raw: string, sites: seq<Site>, k: nat, b: nat, result: string, newResult: string)
    requires k < |sites| && b <= |raw| && b <= |result| && result[..b] == raw[..b]
    requires Placed(sites[k..], b) && Placed(sites[k + 1..], sites[k].at)
    requires sites[k].at + sites[k].length <= b && raw[..b][..sites[k].at] == raw[..sites[k].at]
    requires newResult == result[..sites[k].at] + sites[k].text + result[sites[k].at + sites[k].length..]
    ensures Replaced(raw[..b], sites[k..]) + result[b..] ==
              Replaced(raw[..sites[k].at], sites[k + 1..]) + newResult[sites[k].at..]
  {
    hide Replaced, Placed;
    var site := sites[k];
    assert sites[k..][1..] == sites[k + 1..] && sites[k..][0] == site;
    ReplacedHead(raw[..b], sites[k..]);
    var inner := Replaced(raw[..site.at], sites[k + 1..]);
    TailAgrees(raw, result, b, site.at + site.length);
    assert newResult[site.at..] == site.text + result[site.at + site.length..];
    assert inner + site.text + raw[..b][site.at + site.length..] + result[b..]
        == inner + (site.text + (raw[..b][site.at + site.length..] + result[b..]));
  }

  lemma ReplacedNothing(raw: string, sites: seq<Site>)
    requires sites == []
    ensures Placed(sites, |raw|) && Replaced(raw, sites) == raw
  {
  }

  lemma ReplacedHead(raw: string, sites: seq<Site>)
    requires Placed(sites, |raw|) && sites != []
    ensures Replaced(raw, sites) ==
            Replaced(raw[..sites[0].at], sites[1..]) + sites[0].text + raw[sites[0].at + sites[0].length..]
  {
  }

  lemma TailAgrees(raw: string, result: string, b: nat, from: nat)
    requires from <= b <= |raw| && b <= |result| && result[..b] == raw[..b]
    ensures raw[..b][from..] + result[b..] == result[from..]
  {
    assert result[from..] == result[..b][from..] + result[b..];
  }

  /** Rewrites the port of every change. It fails exactly when some span does not hold its old
      port; otherwise the result is the simultaneous replacement at all the ports, whatever
      the order of the changes. */
  method RewriteFactory(raw: string, changes: seq<Change>) returns (r: Result<string>, ghost sorted: seq<Change>)
    requires Analyzed(raw, changes)
    ensures multiset(sorted) == multiset(changes) && Descending(sorted)
    ensures r.Ok? <==> Ready(raw, changes)
    ensures r.Ok? ==>
              Ready(raw, sorted) && Placed(Sites(raw, sorted), |raw|) && r.value == Replaced(raw, Sites(raw, sorted))
  {
    hide PortSuffix, LastIndex, Analyzed, Ready, Descending;
    var ordered := SortDescending(raw, changes);
    sorted := ordered;
    SameChanges(raw, changes, sorted);
    if |changes| == 0 {
      NothingToChange(raw, sorted);
      return Ok(raw), sorted;
    }
    r := SpliceAll(raw, ordered);
  }

  /** There is only one way to put the same changes in order, so their order on entry does not
      matter. */
  lemma {:induction false} OrderIsUnique(raw: string, a: seq<Change>, b: seq<Change>)
    requires (forall ch :: ch in a ==> Spans(raw, ch)) && Descending(a) && Descending(b) && multiset(a) == multiset(b)
    ensures a == b
  {
    hide Descending, Spans;
    assert |a| == |multiset(a)| == |multiset(b)| == |b|;
    if a != [] {
      SameFirst(raw, a, b);
      Tail(a);
      Tail(b);
      OrderIsUnique(raw, a[1..], b[1..]);
      assert a == [a[0]] + a[1..] && b == [b[0]] + b[1..];
    }
  }

  lemma Tail(s: seq<Change>)
    requires s != []
    ensures multiset(s[1..]) == multiset(s) - multiset{s[0]}
    ensures Descending(s) ==> Descending(s[1..])
    ensures forall ch :: ch in s[1..] ==> ch in s
  {
    assert s == [s[0]] + s[1..];
  }

  lemma SameFirst(raw: string, a: seq<Change>, b: seq<Change>)
    requires (forall ch :: ch in a ==> Spans(raw, ch)) && Descending(a) && Descending(b) && multiset(a) == multiset(b)
    requires a != [] && b != []
    ensures a[0] == b[0]
  {
    assert a[0] in multiset(b) && b[0] in multiset(a);
    assert a[0] in b && b[0] in a;
    var i, j :| 0 <= i < |a| && a[i] == b[0] && 0 <= j < |b| && b[j] == a[0];
    assert Spans(raw, a[0]) && Spans(raw, b[0]);
  }

  lemma NothingToChange(raw: string, changes: seq<Change>)
    requires changes == []
    ensures Ready(raw, changes) && Sites(raw, changes) == [] && Replaced(raw, []) == raw
  {
  }

  // ---------- Rewriting back ----------

  /** The changes that lead back, in the same spans. */
  function Swapped(changes: seq<Change>): seq<Change> {
    seq(|changes|, i requires 0 <= i < |changes| =>
      Change(changes[i].newOrigin, changes[i].oldOrigin, changes[i].valueStart, changes[i].valueEnd))
  }

  /** The new port is as long as the old one. */
  ghost predicate SameWidth(raw: string, changes: seq<Change>) {
    forall ch :: ch in changes ==>
      && Spans(raw, ch) && EndsWithPort(raw, ch)
      && |PortSuffix(ch.newOrigin)| == |PortSuffix(ch.oldOrigin)| && '\"' !in PortSuffix(ch.newOrigin)
  }

  lemma PortThenQuote(raw: string, at: nat, port: string)
    requires at + |port| < |raw| && raw[at..at + |port| + 1] == port + "\""
    ensures raw[at..at + |port|] == port && raw[at + |port|] == '\"'
  {
    var tail := raw[at..at + |port| + 1];
    assert raw[at..at + |port|] == tail[..|port|] == port && raw[at + |port|] == tail[|port|];
  }

  lemma SameWidthIsReady(raw: string, changes: seq<Change>)
    requires SameWidth(raw, changes)
    ensures Ready(raw, changes)
    ensures forall k :: 0 <= k < |changes| ==>
              var site := Sites(raw, changes)[k];
              && site.length == |site.text| > 0 && site.at + site.length == changes[k].valueEnd - 1
              && changes[k].valueStart <= site.at && changes[k].valueEnd <= |raw|
              && raw[site.at..site.at + site.length] == PortSuffix(changes[k].oldOrigin)
              && raw[changes[k].valueEnd - 1] == '\"'
  {
    hide PortSuffix;
    forall ch | ch in changes
      ensures HasPort(raw, ch) && SiteOf(raw, ch).at == ch.valueEnd - 1 - |PortSuffix(ch.oldOrigin)|
      ensures var at := SiteOf(raw, ch).at;
              raw[at..ch.valueEnd - 1] == PortSuffix(ch.oldOrigin) && raw[ch.valueEnd - 1] == '\"'
    {
      PortAtTheEnd(raw, ch);
      PortThenQuote(raw, SiteOf(raw, ch).at, PortSuffix(ch.oldOrigin));
    }
    forall k | 0 <= k < |changes| ensures changes[k] in changes { }
  }

  lemma {:induction false} NoShift(sites: seq<Site>, q: int)
    requires forall i :: 0 <= i < |sites| ==> sites[i].length == |sites[i].text|
    ensures Shift(sites, q) == 0
  {
    if sites != [] { NoShift(sites[1..], q); }
  }

  /** In the rewritten document every span ends with the new port. */
  lemma NewPortAtTheEnd(raw: string, changes: seq<Change>, k: nat)
    requires SameWidth(raw, changes) && Descending(changes) && k < |changes|
    requires Ready(raw, changes) && Placed(Sites(raw, changes), |raw|)
    ensures var out := Replaced(raw, Sites(raw, changes));
            |out| == |raw| && Spans(out, Swapped(changes)[k]) && EndsWithPort(out, Swapped(changes)[k])
  {
    hide PortSuffix, Replaced, Placed, Sites, Ready, HasPort, LastIndex;
    SameWidthIsReady(raw, changes);
    assert changes[k] in changes;
    var q := changes[k].valueEnd - 1;
    QuoteIsOutside(raw, changes, k);
    NewTextAndQuote(raw, Sites(raw, changes), k, q);
    assert Sites(raw, changes)[k].text == PortSuffix(changes[k].newOrigin) by { SiteText(raw, changes, k); }
  }

  lemma SiteText(raw: string, changes: seq<Change>, k: nat)
    requires Ready(raw, changes) && k < |changes|
    ensures Sites(raw, changes)[k].text == PortSuffix(changes[k].newOrigin)
  {
  }

  lemma QuoteIsOutside(raw: string, changes: seq<Change>, k: nat)
    requires SameWidth(raw, changes) && Descending(changes) && k < |changes| && Ready(raw, changes)
    ensures Outside(Sites(raw, changes), changes[k].valueEnd - 1)
  {
    hide PortSuffix, HasPort, LastIndex, EndsWithPort, Sites;
    SameWidthIsReady(raw, changes);
    forall i | 0 <= i < |changes|
      ensures var site := Sites(raw, changes)[i];
              changes[k].valueEnd - 1 < site.at || site.at + site.length <= changes[k].valueEnd - 1
    {
      if i < k { assert changes[k].valueEnd <= changes[i].valueStart; }
      if i > k { assert changes[i].valueEnd <= changes[k].valueStart; }
    }
  }

  lemma NewTextAndQuote(raw: string, sites: seq<Site>, k: nat, q: nat)
    requires Placed(sites, |raw|) && k < |sites| && q < |raw| && Outside(sites, q)
    requires forall i :: 0 <= i < |sites| ==> sites[i].length == |sites[i].text| > 0
    requires sites[k].at + sites[k].length == q
    ensures |Replaced(raw, sites)| == |raw|
    ensures Replaced(raw, sites)[sites[k].at..q + 1] == sites[k].text + [raw[q]]
  {
    hide Replaced, Placed, Shift, Outside;
    var out := Replaced(raw, sites);
    LengthAfter(raw, sites);
    NoShift(sites, |raw|);
    NoShift(sites[k + 1..], sites[k].at);
    NewTextIsThere(raw, sites, k);
    NoShift(sites, q);
    OtherBytesAreKept(raw, sites, q);
    assert out[sites[k].at..q + 1] == out[sites[k].at..q] + [out[q]];
  }

  /** Rewriting a port of the same width and rewriting it back gives the original bytes. */
  lemma RewritingBackRestores(raw: string, changes: seq<Change>)
    requires Analyzed(raw, changes) && Descending(changes) && SameWidth(raw, changes)
    ensures Ready(raw, changes) && Placed(Sites(raw, changes), |raw|)
    ensures var out, back := Replaced(raw, Sites(raw, changes)), Swapped(changes);
            Analyzed(out, back) && Ready(out, back) && Placed(Sites(out, back), |out|)
            && Replaced(out, Sites(out, back)) == raw
  {
    hide PortSuffix, Replaced, HasPort, LastIndex, EndsWithPort, Placed, Sites, SiteOf, Analyzed, Ready;
    SameWidthIsReady(raw, changes);
    SameWidthIsPlaced(raw, changes);
    var sites, back := Sites(raw, changes), Swapped(changes);
    LengthAfter(raw, sites);
    NoShift(sites, |raw|);
    BackIsAnalyzed(raw, changes);
    SitesLeadBack(raw, changes);
    ReplacingIsReversible(raw, sites);
  }

  lemma SameWidthIsPlaced(raw: string, changes: seq<Change>)
    requires SameWidth(raw, changes) && Descending(changes) && Ready(raw, changes)
    ensures Placed(Sites(raw, changes), |raw|)
  {
    hide PortSuffix, HasPort, LastIndex, EndsWithPort, Placed, Sites;
    if changes != [] { assert changes[0] in changes; }
    SitesArePlaced(raw, changes, |raw|);
  }

  lemma BackIsAnalyzed(raw: string, changes: seq<Change>)
    requires Analyzed(raw, changes) && Descending(changes) && SameWidth(raw, changes)
    requires Ready(raw, changes) && Placed(Sites(raw, changes), |raw|)
    ensures var out, back := Replaced(raw, Sites(raw, changes)), Swapped(changes);
            Analyzed(out, back) && Ready(out, back)
  {
    hide PortSuffix, Replaced, HasPort, LastIndex, EndsWithPort, Placed, Sites, SiteOf, SameWidth, Descending;
    var out, back := Replaced(raw, Sites(raw, changes)), Swapped(changes);
    forall k | 0 <= k < |back| ensures Spans(out, back[k]) && HasPort(out, back[k]) {
      SiteBack(raw, changes, k);
    }
    forall i, j | 0 <= i < j < |back| ensures Disjoint(back[i], back[j]) { assert Disjoint(changes[i], changes[j]); }
  }

  lemma SitesLeadBack(raw: string, changes: seq<Change>)
    requires Descending(changes) && SameWidth(raw, changes)
    requires Ready(raw, changes) && Placed(Sites(raw, changes), |raw|)
    requires Ready(Replaced(raw, Sites(raw, changes)), Swapped(changes))
    ensures Sites(Replaced(raw, Sites(raw, changes)), Swapped(changes)) == Reversed(raw, Sites(raw, changes))
  {
    hide PortSuffix, Replaced, HasPort, LastIndex, EndsWithPort, Placed, Sites, SiteOf, SameWidth, Descending, Ready;
    SameWidthIsReady(raw, changes);
    var sites, back := Sites(raw, changes), Swapped(changes);
    var out := Replaced(raw, sites);
    ReversedSites(raw, sites);
    SitesBySite(out, back);
    forall k | 0 <= k < |back| ensures Sites(out, back)[k] == Reversed(raw, sites)[k] {
      SiteBack(raw, changes, k);
    }
  }

  lemma SitesBySite(raw: string, changes: seq<Change>)
    requires Ready(raw, changes)
    ensures forall k :: 0 <= k < |changes| ==>
              changes[k] in changes && Sites(raw, changes)[k] == SiteOf(raw, changes[k])
  {
  }

  lemma SiteBack(raw: string, changes: seq<Change>, k: nat)
    requires SameWidth(raw, changes) && Descending(changes) && k < |changes|
    requires Ready(raw, changes) && Placed(Sites(raw, changes), |raw|)
    ensures var out, ch := Replaced(raw, Sites(raw, changes)), Swapped(changes)[k];
            var site := Sites(raw, changes)[k];
            && Spans(out, ch) && HasPort(out, ch)
            && SiteOf(out, ch) == Site(site.at, site.length, PortSuffix(changes[k].oldOrigin))
  {
    hide PortSuffix, Replaced, HasPort, LastIndex, EndsWithPort, Placed, Sites;
    SameWidthIsReady(raw, changes);
    NewPortAtTheEnd(raw, changes, k);
    PortAtTheEnd(Replaced(raw, Sites(raw, changes)), Swapped(changes)[k]);
    assert changes[k] in changes;
  }

  lemma {:induction false} ReversedSites(raw: string, sites: seq<Site>)
    requires Placed(sites, |raw|) && forall i :: 0 <= i < |sites| ==> |sites[i].text| == sites[i].length
    ensures forall i :: 0 <= i < |sites| ==>
              sites[i].at + sites[i].length <= |raw|
              && Reversed(raw, sites)[i] ==
                Site(sites[i].at, sites[i].length, raw[sites[i].at..sites[i].at + sites[i].length])
    decreases |sites|
  {
    if sites != [] {
      var head, rest := sites[0], sites[1..];
      EqualLengthsStay(raw[..head.at], rest);
      ReversedSites(raw[..head.at], rest);
      forall i | 0 < i < |sites|
        ensures sites[i].at + sites[i].length <= |raw|
        ensures Reversed(raw, sites)[i] ==
                  Site(sites[i].at, sites[i].length, raw[sites[i].at..sites[i].at + sites[i].length])
      {
        assert rest[i - 1] == sites[i];
        SliceAgrees(raw, raw[..head.at], head.at, sites[i].at, sites[i].at + sites[i].length);
      }
    }
  }
}
