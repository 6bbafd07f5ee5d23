/** Which turn a cached reasoning text belongs to, and how it is captured from whole responses
    and put back into requests. */
module ReasoningMessages {
  import opened Basics
  import opened ReasoningCache

  /** A JSON member: missing, a string, or something else. */
  datatype Field = Absent | Text(text: string) | Other

  /** An entry of tool_calls; an id or name that is no string reads as empty. */
  datatype RawTool = NotObject | Tool(id: string, hasFunction: bool, name: string, args: Option<string>)

  /** `tools` is empty if tool_calls is missing or no array. */
  datatype Message = Message(role: string, content: string, reasoning: Field, tools: seq<RawTool>)

  // ---------- Sorted ids ----------

  /** The order of sort.Strings. */
  predicate Below(a: string, b: string) {
    a == "" || (b != "" && (if a[0] != b[0] then a[0] < b[0] else Below(a[1..], b[1..])))
  }

  lemma {:induction false} BelowIsTotal(a: string, b: string)
    ensures Below(a, b) || Below(b, a)
  {
    if a != "" && b != "" { BelowIsTotal(a[1..], b[1..]); }
  }

  lemma {:induction false} BelowIsAntisymmetric(a: string, b: string)
    requires Below(a, b) && Below(b, a)
    ensures a == b
  {
    if a != "" && b != "" {
      BelowIsAntisymmetric(a[1..], b[1..]);
      assert a == [a[0]] + a[1..] && b == [b[0]] + b[1..];
    }
  }

  lemma {:induction false} BelowIsTransitive(a: string, b: string, c: string)
    requires Below(a, b) && Below(b, c)
    ensures Below(a, c)
  {
    if a != "" && a[0] == b[0] && b[0] == c[0] { BelowIsTransitive(a[1..], b[1..], c[1..]); }
  }

  ghost predicate IsSorted(s: seq<string>) {
    s == [] || ((forall x :: x in s[1..] ==> Below(s[0], x)) && IsSorted(s[1..]))
  }

  function Insert(x: string, s: seq<string>): seq<string> {
    if s == [] then [x] else if Below(x, s[0]) then [x] + s else [s[0]] + Insert(x, s[1..])
  }

  function Sorted(s: seq<string>): seq<string> {
    if s == [] then [] else Insert(s[0], Sorted(s[1..]))
  }

  lemma Headed(s: seq<string>)
    requires s != []
    ensures multiset(s) == multiset{s[0]} + multiset(s[1..])
    ensures forall x :: x in s <==> x == s[0] || x in s[1..]
  {
    assert s == [s[0]] + s[1..];
  }

  lemma {:induction false} InsertSorts(x: string, s: seq<string>)
    requires IsSorted(s)
    ensures IsSorted(Insert(x, s)) && multiset(Insert(x, s)) == multiset{x} + multiset(s)
  {
    hide Below;
    var r := Insert(x, s);
    Headed(r);
    if s != [] {
      Headed(s);
      if Below(x, s[0]) {
        assert r[1..] == s;
        forall y | y in s ensures Below(x, y) {
          if y != s[0] { BelowIsTransitive(x, s[0], y); }
        }
      } else {
        BelowIsTotal(x, s[0]);
        InsertSorts(x, s[1..]);
        var rest := Insert(x, s[1..]);
        assert r[1..] == rest;
        forall y | y in rest ensures Below(s[0], y) {
          assert y in multiset(rest);
          assert y == x || y in multiset(s[1..]);
        }
      }
    }
  }

  lemma {:induction false} SortedSorts(s: seq<string>)
    ensures IsSorted(Sorted(s)) && multiset(Sorted(s)) == multiset(s)
  {
    if s != [] {
      SortedSorts(s[1..]);
      InsertSorts(s[0], Sorted(s[1..]));
      assert s == [s[0]] + s[1..];
    }
  }

  /** There is only one sorted list of given strings. */
  lemma {:induction false} SortedListIsUnique(a: seq<string>, b: seq<string>)
    requires IsSorted(a) && IsSorted(b) && multiset(a) == multiset(b)
    ensures a == b
  {
    hide Below;
    assert |a| == |multiset(a)| == |multiset(b)| == |b|;
    if a != [] {
      FirstIsLeast(a, b);
      FirstIsLeast(b, a);
      BelowIsAntisymmetric(a[0], b[0]);
      Headed(a);
      Headed(b);
      assert multiset(a[1..]) == multiset(a) - multiset{a[0]} == multiset(b[1..]);
      SortedListIsUnique(a[1..], b[1..]);
      assert a == [a[0]] + a[1..] && b == [b[0]] + b[1..];
    }
  }

  lemma FirstIsLeast(a: seq<string>, b: seq<string>)
    requires IsSorted(a) && a != [] && b != [] && multiset(a) == multiset(b)
    ensures Below(a[0], b[0])
  {
    hide Below;
    assert b[0] in multiset(b) && b[0] in a;
    Headed(a);
    BelowIsTotal(a[0], a[0]);
  }

  // ---------- The key of a turn ----------

  const NUL := '\U{0}'

  function Joined(ids: seq<string>): string {
    if ids == [] then "" else if |ids| == 1 then ids[0] else ids[0] + [NUL] + Joined(ids[1..])
  }

  /** The stripped ids of a list of tool calls, blank ones left out. */
  function Ids(tools: seq<RawTool>): seq<string> {
    if tools == [] then []
    else
      var t := tools[|tools| - 1];
      Ids(tools[..|tools| - 1]) + if t.Tool? && Trim(t.id) != "" then [Trim(t.id)] else []
  }

  function ToolCallKey(tools: seq<RawTool>): string { Joined(Sorted(Ids(tools))) }

  method ToolCallIDs(tools: seq<RawTool>) returns (key: string)
    ensures key == ToolCallKey(tools)
  {
    hide Trim, Sorted, Joined;
    assert ToolCallKey([]) == "" by { NoIds(); }
    if |tools| == 0 { return ""; }
    var ids := [];
    var k := 0;
    while k < |tools|
      invariant 0 <= k <= |tools| && ids == Ids(tools[..k])
    {
      assert tools[..k + 1][..k] == tools[..k];
      if tools[k].Tool? {
        var id := Trim(tools[k].id);
        if id != "" { ids := ids + [id]; }
      }
      k := k + 1;
    }
    assert tools[..k] == tools;
    if |ids| == 0 { NoIds(); return ""; }
    key := Joined(Sorted(ids));
  }

  lemma NoIds()
    ensures Joined(Sorted([])) == ""
  {
  }

  /** `hash` stands for the digest of the message's JSON without its reasoning. */
  function KeyForMessage(scope: Scope, m: Message, hash: Message -> string): Key {
    var tool := ToolCallKey(m.tools);
    Key(scope, tool, if tool == "" then hash(m.(reasoning := Absent)) else "")
  }

  /** The key does not depend on the order of the tool calls, or on anything else about the
      turn, as long as it has an id. */
  lemma KeyDependsOnlyOnIds(scope: Scope, a: Message, b: Message, hash: Message -> string)
    requires multiset(Ids(a.tools)) == multiset(Ids(b.tools)) && Ids(a.tools) != []
    ensures KeyForMessage(scope, a, hash) == KeyForMessage(scope, b, hash)
  {
    hide Ids, Sorted, Joined;
    SortedSorts(Ids(a.tools));
    SortedSorts(Ids(b.tools));
    SortedListIsUnique(Sorted(Ids(a.tools)), Sorted(Ids(b.tools)));
    IdsAreNotBlank(a.tools);
    JoinedIsNotEmpty(Sorted(Ids(a.tools)), Ids(a.tools));
  }

  lemma {:induction false} IdsAreNotBlank(tools: seq<RawTool>)
    ensures "" !in Ids(tools)
  {
    hide Trim;
    if tools != [] { IdsAreNotBlank(tools[..|tools| - 1]); }
  }

  lemma JoinedIsNotEmpty(sorted: seq<string>, ids: seq<string>)
    requires multiset(sorted) == multiset(ids) && "" !in ids && ids != []
    ensures Joined(sorted) != "" && "" !in sorted && sorted != []
  {
    assert ids[0] in multiset(ids);
    assert "" !in multiset(sorted);
    assert forall s :: s in sorted ==> s in multiset(sorted);
  }

  /** Two turns share a key exactly when they have the same ids, if no id holds a NUL. */
  lemma SameKeyIffSameIds(a: seq<RawTool>, b: seq<RawTool>)
    requires forall id :: id in Ids(a) || id in Ids(b) ==> NUL !in id
    ensures ToolCallKey(a) == ToolCallKey(b) <==> multiset(Ids(a)) == multiset(Ids(b))
  {
    hide Ids, Sorted, Joined;
    SortedSorts(Ids(a));
    SortedSorts(Ids(b));
    IdsAreNotBlank(a);
    IdsAreNotBlank(b);
    forall id | id in Sorted(Ids(a)) || id in Sorted(Ids(b)) ensures NUL !in id && id != "" {
      assert id in multiset(Sorted(Ids(a))) || id in multiset(Sorted(Ids(b)));
    }
    if multiset(Ids(a)) == multiset(Ids(b)) {
      SortedListIsUnique(Sorted(Ids(a)), Sorted(Ids(b)));
    }
    if ToolCallKey(a) == ToolCallKey(b) {
      JoinedIsInjective(Sorted(Ids(a)), Sorted(Ids(b)));
    }
  }

  /** Turns without an id share a key exactly when they have the same digest, whatever reasoning they
      carry, and never one with a turn that has an id. */
  lemma KeysWithoutIds(scope: Scope, a: Message, b: Message, hash: Message -> string)
    requires Ids(a.tools) == []
    ensures Ids(b.tools) == [] ==>
              (KeyForMessage(scope, a, hash) == KeyForMessage(scope, b, hash) <==>
               hash(a.(reasoning := Absent)) == hash(b.(reasoning := Absent)))
    ensures Ids(b.tools) != [] ==> KeyForMessage(scope, a, hash) != KeyForMessage(scope, b, hash)
  {
    hide Ids;
    NoIds();
    if Ids(b.tools) != [] {
      SortedSorts(Ids(b.tools));
      IdsAreNotBlank(b.tools);
      JoinedIsNotEmpty(Sorted(Ids(b.tools)), Ids(b.tools));
    }
  }

  lemma {:induction false} JoinedIsInjective(a: seq<string>, b: seq<string>)
    requires forall id :: id in a || id in b ==> NUL !in id && id != ""
    requires Joined(a) == Joined(b)
    ensures a == b
  {
    HeadOfJoined(a);
    HeadOfJoined(b);
    if a != [] {
      assert Joined(a) != "" && a[0] in a;
      assert b != [] && b[0] in b;
      assert a[0] == BeforeNul(Joined(a)) == b[0];
      TailOfJoined(a, b);
      if |a| > 1 {
        JoinedIsInjective(a[1..], b[1..]);
        assert a == [a[0]] + a[1..] && b == [b[0]] + b[1..];
      }
    }
  }

  function BeforeNul(s: string): string {
    if s == "" || s[0] == NUL then "" else [s[0]] + BeforeNul(s[1..])
  }

  lemma {:induction false} BeforeNulStops(s: string, rest: string)
    requires NUL !in s && (rest == "" || rest[0] == NUL)
    ensures BeforeNul(s + rest) == s
  {
    if s == "" {
      assert s + rest == rest;
    } else {
      assert (s + rest)[1..] == s[1..] + rest;
      BeforeNulStops(s[1..], rest);
      assert s == [s[0]] + s[1..];
    }
  }

  lemma HeadOfJoined(ids: seq<string>)
    requires forall id :: id in ids ==> NUL !in id && id != ""
    ensures ids != [] ==> BeforeNul(Joined(ids)) == ids[0] && Joined(ids) != ""
    ensures |ids| > 1 ==> |Joined(ids)| > |ids[0]|
  {
    if |ids| == 1 {
      assert ids[0] in ids;
      BeforeNulStops(ids[0], "");
      assert ids[0] + "" == ids[0];
    } else if |ids| > 1 {
      assert ids[0] in ids;
      BeforeNulStops(ids[0], [NUL] + Joined(ids[1..]));
      assert ids[0] + ([NUL] + Joined(ids[1..])) == Joined(ids);
    }
  }

  lemma TailOfJoined(a: seq<string>, b: seq<string>)
    requires a != [] && b != [] && a[0] == b[0] && Joined(a) == Joined(b)
    ensures |a| > 1 <==> |b| > 1
    ensures |a| > 1 ==> Joined(a[1..]) == Joined(b[1..])
    ensures |a| == 1 ==> a == b
  {
    var n := |a[0]| + 1;
    assert |a| > 1 ==> Joined(a)[n..] == Joined(a[1..]) && |Joined(a)| >= n;
    assert |b| > 1 ==> Joined(b)[n..] == Joined(b[1..]) && |Joined(b)| >= n;
  }

  // ---------- Whole responses ----------

  predicate ValidToolCalls(tools: seq<RawTool>) {
    && tools != []
    && forall i :: 0 <= i < |tools| ==>
         tools[i].Tool? && Trim(tools[i].id) != "" && tools[i].hasFunction && Trim(tools[i].name) != ""
         && tools[i].args.Some?
  }

  predicate Replayable(m: Message) {
    Trim(m.role) == "assistant" && m.reasoning.Text? && Trim(m.reasoning.text) != "" && ValidToolCalls(m.tools)
  }

  /** What a list of choices gives to the cache. */
  function Captured(scope: Scope, choices: seq<Option<Message>>, hash: Message -> string): seq<(Key, string)> {
    if choices == [] then []
    else
      var c := choices[|choices| - 1];
      Captured(scope, choices[..|choices| - 1], hash)
      + if c.Some? && Replayable(c.value) then [(KeyForMessage(scope, c.value, hash), c.value.reasoning.text)] else []
  }

  method CheckToolCalls(tools: seq<RawTool>) returns (ok: bool)
    ensures ok == ValidToolCalls(tools)
  {
    hide Trim;
    if |tools| == 0 { return false; }
    var k := 0;
    while k < |tools|
      invariant 0 <= k <= |tools|
      invariant k > 0 ==> ValidToolCalls(tools[..k])
    {
      if !tools[k].Tool? || Trim(tools[k].id) == "" { return false; }
      if !tools[k].hasFunction || Trim(tools[k].name) == "" || tools[k].args.None? { return false; }
      assert tools[..k + 1] == tools[..k] + [tools[k]];
      k := k + 1;
    }
    assert tools[..k] == tools;
    ok := true;
  }

  method CaptureNonStream(scope: Scope, choices: seq<Option<Message>>, cache: Cache, now: Time, hash: Message -> string)
    requires cache.Valid()
    modifies cache
    ensures cache.Valid() && cache.given == old(cache.given) + Captured(scope, choices, hash)
  {
    hide Trim, ValidToolCalls, KeyForMessage;
    var k := 0;
    while k < |choices|
      invariant 0 <= k <= |choices| && cache.Valid()
      invariant cache.given == old(cache.given) + Captured(scope, choices[..k], hash)
    {
      assert choices[..k + 1][..k] == choices[..k];
      var choice := choices[k];
      k := k + 1;
      if choice.None? { continue; }
      var m := choice.value;
      if Trim(m.role) != "assistant" { continue; }
      if !m.reasoning.Text? || Trim(m.reasoning.text) == "" { continue; }
      var ok := CheckToolCalls(m.tools);
      if !ok { continue; }
      cache.Store(KeyForMessage(scope, m, hash), m.reasoning.text, now);
    }
    assert choices[..k] == choices;
  }

  // ---------- Requests ----------

  /** An assistant turn with tool calls whose reasoning the client left out. */
  predicate LacksReasoning(m: Message) { Trim(m.role) == "assistant" && m.reasoning.Absent? && m.tools != [] }

  function Patched(scope: Scope, m: Message, hash: Message -> string, find: Key -> Option<string>): Message {
    var found := find(KeyForMessage(scope, m, hash));
    if LacksReasoning(m) && found.Some? then m.(reasoning := Text(found.value)) else m
  }

  /** Every such turn gets exactly the live text of its key; nothing else changes. */
  method PatchRequest(scope: Scope, messages: seq<Message>, cache: Cache, now: Time, hash: Message -> string)
      returns (patched: seq<Message>)
    requires cache.Valid()
    modifies cache
    ensures cache.Valid()
    ensures |patched| == |messages|
    ensures forall i :: 0 <= i < |messages| ==>
              patched[i] == Patched(scope, messages[i], hash, key => old(Find(cache.limits, cache.entries, key, now)))
    ensures forall i :: 0 <= i < |messages| ==>
              var m := messages[i];
              var found := old(Find(cache.limits, cache.entries, KeyForMessage(scope, m, hash), now));
              patched[i] == if Trim(m.role) == "assistant" && m.reasoning.Absent? && m.tools != [] && found.Some?
                            then m.(reasoning := Text(found.value)) else m
  {
    hide Trim, KeyForMessage;
    patched := messages;
    ghost var entries := cache.entries;
    var k := 0;
    while k < |messages|
      invariant 0 <= k <= |messages| == |patched| && cache.Valid()
      invariant forall key :: Find(cache.limits, cache.entries, key, now) == Find(cache.limits, entries, key, now)
      invariant forall i :: 0 <= i < k ==>
                  patched[i] == Patched(scope, messages[i], hash, key => Find(cache.limits, entries, key, now))
      invariant forall i :: k <= i < |messages| ==> patched[i] == messages[i]
    {
      var m := messages[k];
      k := k + 1;
      if Trim(m.role) != "assistant" { continue; }
      if !m.reasoning.Absent? { continue; }
      if |m.tools| == 0 { continue; }
      var reasoning := cache.Lookup(KeyForMessage(scope, m, hash), now, true);
      if reasoning.None? { continue; }
      patched := patched[k - 1 := m.(reasoning := Text(reasoning.value))];
    }
  }
}
