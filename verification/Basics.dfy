/** Small shared notions: options, results, trimming, and sets of integers in order. */
module Basics {
  datatype Option<+T> = None | Some(value: T)

  datatype Result<+T> = Ok(value: T) | Err(message: string)

  // ---------- White space ----------

  /** Unicode White_Space, as strings.TrimSpace sees it. */
  predicate IsSpace(c: char) {
    || '\t' <= c <= '\r' || c == ' ' || c == '\U{85}' || c == '\U{A0}' || c == '\U{1680}'
    || '\U{2000}' <= c <= '\U{200A}' || c == '\U{2028}' || c == '\U{2029}' || c == '\U{202F}'
    || c == '\U{205F}' || c == '\U{3000}'
  }

  function TrimLeft(s: string): string {
    if s != "" && IsSpace(s[0]) then TrimLeft(s[1..]) else s
  }

  function TrimRight(s: string): string {
    if s != "" && IsSpace(s[|s| - 1]) then TrimRight(s[..|s| - 1]) else s
  }

  function Trim(s: string): string { TrimRight(TrimLeft(s)) }

  lemma {:induction false} TrimLeftCuts(s: string) returns (i: nat)
    ensures i <= |s| && TrimLeft(s) == s[i..] && forall k :: 0 <= k < i ==> IsSpace(s[k])
    ensures i < |s| ==> !IsSpace(s[i])
  {
    i := 0;
    if s != "" && IsSpace(s[0]) {
      i := TrimLeftCuts(s[1..]);
      i := i + 1;
    }
  }

  lemma {:induction false} TrimRightCuts(s: string) returns (j: nat)
    ensures j <= |s| && TrimRight(s) == s[..j] && forall k :: j <= k < |s| ==> IsSpace(s[k])
    ensures j > 0 ==> !IsSpace(s[j - 1])
  {
    j := |s|;
    if s != "" && IsSpace(s[j - 1]) { j := TrimRightCuts(s[..j - 1]); }
  }

  /** Trimming takes all white space from both ends and nothing else. */
  lemma TrimCuts(s: string) returns (i: nat, j: nat)
    ensures i <= j <= |s| && Trim(s) == s[i..j]
    ensures forall k :: 0 <= k < i || j <= k < |s| ==> IsSpace(s[k])
    ensures i < j ==> !IsSpace(s[i]) && !IsSpace(s[j - 1])
  {
    hide IsSpace;
    i := TrimLeftCuts(s);
    j := TrimRightCuts(s[i..]);
    j := i + j;
    assert s[i..][..j - i] == s[i..j];
    assert forall k :: 0 <= k < |s| - i ==> s[i..][k] == s[i + k];
    forall k | j <= k < |s| ensures IsSpace(s[k]) { assert IsSpace(s[i..][k - i]); }
  }

  lemma {:induction false} TrimRightKeepsHead(s: string)
    requires s != "" && !IsSpace(s[0])
    ensures TrimRight(s) != "" && TrimRight(s)[0] == s[0]
  {
    if IsSpace(s[|s| - 1]) { TrimRightKeepsHead(s[..|s| - 1]); }
  }

  /** A string that starts with a visible character is not blank. */
  lemma TrimKeepsHead(s: string)
    requires s != "" && !IsSpace(s[0])
    ensures Trim(s) != "" && Trim(s)[0] == s[0]
  {
    TrimRightKeepsHead(s);
  }

  /** `pattern` stands at position `i`. */
  predicate StartsAt(s: string, i: nat, pattern: string) {
    i + |pattern| <= |s| && s[i..i + |pattern|] == pattern
  }

  function Digits(n: nat): string {
    if n < 10 then ["0123456789"[n]] else Digits(n / 10) + ["0123456789"[n % 10]]
  }

  function Decimal(i: int): string { if i < 0 then "-" + Digits(-i) else Digits(i) }

  // ---------- A finite set of integers, in increasing order ----------

  ghost predicate Increasing(s: seq<int>) {
    forall i, j :: 0 <= i < j < |s| ==> s[i] < s[j]
  }

  ghost predicate Lists(s: seq<int>, keys: set<int>) {
    Increasing(s) && forall k :: k in s <==> k in keys
  }

  function Elements(s: seq<int>): set<int> { set i | i in s }

  lemma ElementsSnoc(s: seq<int>, i: int)
    ensures Elements(s + [i]) == Elements(s) + {i}
  {
  }

  lemma Member<T>(s: set<T>) returns (some: T)
    requires s != {}
    ensures some in s
  {
    assert (forall x :: x !in s) ==> s == {};
    some :| some in s;
  }

  lemma {:induction false} MinimumExists(keys: set<int>, some: int) returns (least: int)
    requires some in keys
    ensures least in keys && forall k :: k in keys ==> least <= k
    decreases keys
  {
    if k :| k in keys && k < some {
      least := MinimumExists(keys - {some}, k);
      assert forall j :: j in keys ==> j == some || j in keys - {some};
    } else {
      least := some;
    }
  }

  /** Two increasing lists of the same set are the same list. */
  lemma {:induction false} ListingIsUnique(s: seq<int>, t: seq<int>, keys: set<int>)
    requires Lists(s, keys) && Lists(t, keys)
    ensures s == t
  {
    assert s == [] || s[0] in s;
    assert t == [] || t[0] in t;
    if s != [] {
      var j :| 0 <= j < |t| && t[j] == s[0];
      assert t[0] in s;
      assert s[0] == t[0];
      var rest := keys - {s[0]};
      forall k ensures k in s[1..] <==> k in rest {
        if k in s[1..] { assert k in s; }
        if k in rest { assert k in s; }
      }
      forall k ensures k in t[1..] <==> k in rest {
        if k in t[1..] { assert k in t; }
        if k in rest { assert k in t; }
      }
      ListingIsUnique(s[1..], t[1..], rest);
    }
  }

  lemma {:induction false} ListingExists(keys: set<int>) returns (s: seq<int>)
    ensures Lists(s, keys)
    decreases keys
  {
    if keys == {} {
      s := [];
    } else {
      var some := Member(keys);
      var least := MinimumExists(keys, some);
      var rest := ListingExists(keys - {least});
      s := [least] + rest;
      forall k ensures k in s <==> k in keys { }
      forall i, j | 0 <= i < j < |s| ensures s[i] < s[j] {
        assert s[j] == rest[j - 1] && rest[j - 1] in rest;
      }
    }
  }

  /** The set in increasing order. */
  ghost function InOrder(keys: set<int>): (s: seq<int>)
    ensures Lists(s, keys)
  {
    assert exists s :: Lists(s, keys) by { var s := ListingExists(keys); }
    var s :| Lists(s, keys);
    s
  }

  /** The keys of a map, sorted. */
  method SortedKeys(keys: set<int>) returns (s: seq<int>)
    ensures Lists(s, keys)
  {
    s := [];
    var rest := keys;
    while rest != {}
      invariant rest <= keys && Increasing(s)
      invariant forall k :: k in keys <==> k in rest || k in s
      invariant forall k, i :: k in rest && 0 <= i < |s| ==> s[i] < k
      decreases rest
    {
      ghost var some := Member(rest);
      ghost var least := MinimumExists(rest, some);
      var k :| k in rest && forall j :: j in rest ==> k <= j;
      s := s + [k];
      rest := rest - {k};
    }
  }
}
