/** The reasoning cache: texts kept for a limited time, limited in number and total size. */
module ReasoningCache {
  import opened Basics

  type Time = int

  datatype Scope = Scope(provider: string, authHash: string, model: string, baseURL: string, session: string,
                         thinkingMode: string)

  datatype Key = Key(scope: Scope, toolCallIDs: string, turnHash: string) {
    predicate Valid() {
      && scope.provider != "" && scope.authHash != "" && scope.model != "" && scope.baseURL != "" && scope.session != ""
      && (toolCallIDs != "" || turnHash != "")
    }
  }

  datatype Entry = Entry(reasoning: string, createdAt: Time)

  /** `size` is the length of a text in bytes. */
  datatype Limits = Limits(maxEntries: nat, ttl: nat, maxBytes: nat, size: string -> nat)

  // ---------- The size of a map ----------

  ghost function Total(m: map<Key, Entry>, size: string -> nat): nat
    decreases |m|
  {
    if m == map[] then 0
    else
      assert m.Keys != {};
      var k :| k in m;
      size(m[k].reasoning) + Total(m - {k}, size)
  }

  /** The total may be taken in any order. */
  lemma {:induction false} TotalWithout(m: map<Key, Entry>, size: string -> nat, k: Key)
    requires k in m
    ensures Total(m, size) == size(m[k].reasoning) + Total(m - {k}, size)
    decreases |m|
  {
    var first :| first in m && Total(m, size) == size(m[first].reasoning) + Total(m - {first}, size);
    if first != k {
      TotalWithout(m - {first}, size, k);
      TotalWithout(m - {k}, size, first);
      assert m - {first} - {k} == m - {k} - {first};
    }
  }

  lemma TotalWith(m: map<Key, Entry>, size: string -> nat, k: Key, e: Entry)
    ensures Total(m[k := e], size) == Total(m - {k}, size) + size(e.reasoning)
    ensures k in m ==> Total(m, size) == size(m[k].reasoning) + Total(m - {k}, size)
    ensures k !in m ==> m - {k} == m
  {
    TotalWithout(m[k := e], size, k);
    assert m[k := e] - {k} == m - {k};
    if k in m { TotalWithout(m, size, k); }
  }

  // ---------- What is live, and what may be evicted ----------

  predicate Expired(l: Limits, e: Entry, now: Time) { now - e.createdAt > l.ttl }

  ghost function Live(l: Limits, m: map<Key, Entry>, now: Time): map<Key, Entry> {
    map k | k in m && !Expired(l, m[k], now) :: m[k]
  }

  ghost predicate Fits(l: Limits, m: map<Key, Entry>) { |m| <= l.maxEntries && Total(m, l.size) <= l.maxBytes }

  /** Some of the entries, unchanged. */
  ghost predicate Part(m: map<Key, Entry>, n: map<Key, Entry>) {
    m.Keys <= n.Keys && forall k :: k in m ==> m[k] == n[k]
  }

  lemma PartOfPart(m: map<Key, Entry>, n: map<Key, Entry>, o: map<Key, Entry>)
    requires Part(m, n) && Part(n, o)
    ensures Part(m, o)
  {
  }

  lemma PartWith(m: map<Key, Entry>, n: map<Key, Entry>, k: Key, e: Entry)
    requires Part(m, n)
    ensures Part(m[k := e], n[k := e])
  {
  }

  /** `after` keeps entries of `before` unchanged; whatever is gone is no younger than anything
      kept; and the youngest to go would not have fitted. */
  ghost predicate Evicts(l: Limits, before: map<Key, Entry>, after: map<Key, Entry>) {
    && Part(after, before)
    && (forall gone, kept :: gone in before && gone !in after && kept in after ==>
          before[gone].createdAt <= before[kept].createdAt)
    && (after != before ==> exists last :: LastToGo(l, before, after, last))
  }

  ghost predicate LastToGo(l: Limits, before: map<Key, Entry>, after: map<Key, Entry>, last: Key) {
    && last in before && last !in after && !Fits(l, after[last := before[last]])
    && forall gone :: gone in before && gone !in after ==> before[gone].createdAt <= before[last].createdAt
  }

  /** What a lookup finds. */
  function Find(l: Limits, m: map<Key, Entry>, key: Key, now: Time): Option<string> {
    if key.Valid() && key in m && !Expired(l, m[key], now) then Some(m[key].reasoning) else None
  }

  predicate Accepts(l: Limits, key: Key, reasoning: string) {
    Trim(reasoning) != "" && key.Valid() && l.size(reasoning) <= l.maxBytes
  }

  /** What one store makes of the entries. */
  ghost predicate Stored(l: Limits, before: map<Key, Entry>, key: Key, reasoning: string, now: Time,
                         after: map<Key, Entry>)
  {
    if Accepts(l, key, reasoning) then Evicts(l, Live(l, before[key := Entry(reasoning, now)], now), after)
    else after == before
  }

  /** A use of the cache that may change its entries: a store, or a lookup that drops what expired. */
  datatype Use = Write(key: Key, reasoning: string, at: Time) | Look(key: Key, at: Time)

  function Dropped(l: Limits, m: map<Key, Entry>, key: Key, now: Time): map<Key, Entry> {
    if key in m && Expired(l, m[key], now) then m - {key} else m
  }

  ghost predicate Used(l: Limits, before: map<Key, Entry>, use: Use, after: map<Key, Entry>) {
    match use
    case Write(key, reasoning, at) => Stored(l, before, key, reasoning, at, after)
    case Look(key, at) => after == Dropped(l, before, key, at)
  }

  /** What uses one after the other make of the entries. */
  ghost predicate AllUsed(l: Limits, before: map<Key, Entry>, uses: seq<Use>, after: map<Key, Entry>) {
    if uses == [] then after == before
    else
      var init, last := uses[..|uses| - 1], uses[|uses| - 1];
      exists mid :: AllUsed(l, before, init, mid) && Used(l, mid, last, after)
  }

  // ---------- The cache ----------

  class Cache {
    const limits: Limits
    var bytes: int
    var entries: map<Key, Entry>
    /** The last accepted text of every key. */
    ghost var latest: map<Key, Entry>
    /** Everything that was given to Store. */
    ghost var given: seq<(Key, string)>

    ghost predicate Valid() reads this {
      && bytes == Total(entries, limits.size) && Fits(limits, entries)
      && Part(entries, latest)
    }

    constructor (limits: Limits)
      ensures Valid() && this.limits == limits && entries == map[] && given == []
    {
      this.limits, bytes, entries, latest, given := limits, 0, map[], map[], [];
    }

    /** Both limits hold again after every store. */
    method Store(key: Key, reasoning: string, now: Time)
      requires Valid()
      modifies this
      ensures Valid() && given == old(given) + [(key, reasoning)]
      ensures Stored(limits, old(entries), key, reasoning, now, entries)
      ensures if Trim(reasoning) != "" && limits.size(reasoning) <= limits.maxBytes && key.scope.provider != ""
                 && key.scope.authHash != "" && key.scope.model != "" && key.scope.baseURL != ""
                 && key.scope.session != "" && (key.toolCallIDs != "" || key.turnHash != "")
              then Fits(limits, NotOlder(old(entries)[key := Entry(reasoning, now)], now)) ==>
                     Find(limits, entries, key, now) == Some(reasoning)
              else entries == old(entries)
      ensures latest == if Accepts(limits, key, reasoning) then old(latest)[key := Entry(reasoning, now)]
                        else old(latest)
    {
      hide Trim, Evicts, Live, Part, Total, Fits, NotOlder;
      given := given + [(key, reasoning)];
      if Trim(reasoning) == "" || !key.Valid() { return; }
      if limits.size(reasoning) > limits.maxBytes { return; }
      TotalWith(entries, limits.size, key, Entry(reasoning, now));
      bytes := bytes - if key in entries then limits.size(entries[key].reasoning) else 0;
      entries := entries[key := Entry(reasoning, now)];
      bytes := bytes + limits.size(reasoning);
      PartWith(old(entries), latest, key, Entry(reasoning, now));
      latest := latest[key := Entry(reasoning, now)];
      ghost var full := entries;
      DropExpired(now);
      ghost var live := entries;
      DropOldest();
      PartsOfStore(limits, full, now, live, entries, latest);
      if Fits(limits, NotOlder(full, now)) { StoredSurvives(limits, full, now, live, entries, key); }
    }

    method DropExpired(now: Time)
      requires bytes == Total(entries, limits.size)
      modifies this`bytes, this`entries
      ensures entries == Live(limits, old(entries), now) && bytes == Total(entries, limits.size)
    {
      var rest := entries.Keys;
      while rest != {}
        invariant rest <= old(entries).Keys && rest <= entries.Keys
        invariant entries == map k | k in old(entries) && (k in rest || !Expired(limits, old(entries)[k], now)) ::
                    old(entries)[k]
        invariant bytes == Total(entries, limits.size)
        decreases |rest|
      {
        ghost var some := Member(rest);
        var k :| k in rest;
        rest := rest - {k};
        if Expired(limits, entries[k], now) {
          TotalWithout(entries, limits.size, k);
          bytes := bytes - limits.size(entries[k].reasoning);
          entries := entries - {k};
        }
      }
    }

    /** The loop ends: it removes one entry each time, and no entries fit. */
    method DropOldest()
      requires bytes == Total(entries, limits.size)
      modifies this`bytes, this`entries
      ensures Evicts(limits, old(entries), entries) && Fits(limits, entries) && bytes == Total(entries, limits.size)
    {
      hide Total, Evicts;
      NothingEvicted(limits, entries);
      while |entries| > limits.maxEntries || bytes > limits.maxBytes
        invariant Evicts(limits, old(entries), entries) && bytes == Total(entries, limits.size)
        decreases |entries|
      {
        NothingHasNoSize(limits.size);
        var oldest := Oldest(entries);
        TotalWithout(entries, limits.size, oldest);
        EvictsMore(limits, old(entries), entries, oldest);
        bytes := bytes - limits.size(entries[oldest].reasoning);
        entries := entries - {oldest};
      }
    }

    /** The text of a live entry: the last one accepted for the key, not older than the limit.
        Unless the caller is `alone`, other stores may run between the two critical sections;
        the second removes the entry only if what is there then has expired. */
    method Lookup(key: Key, now: Time, alone: bool) returns (found: Option<string>)
      requires Valid()
      modifies this
      ensures alone ==> given == old(given)
      ensures alone ==> entries == if key.Valid() && key in old(entries) && Expired(limits, old(entries)[key], now)
                                   then old(entries) - {key} else old(entries)
      ensures Valid() && found == old(Find(limits, entries, key, now))
      ensures found.Some? ==>
                key in old(latest) && old(latest)[key].reasoning == found.value
                && now - old(latest)[key].createdAt <= limits.ttl
      ensures found.Some? ==> entries == old(entries)
    {
      if !key.Valid() { return None; }
      if key !in entries { return None; }
      var e := entries[key];
      if now - e.createdAt > limits.ttl {
        if !alone { var _ := OthersUse(); }
        DropIfExpired(key, now);
        return None;
      }
      found := Some(e.reasoning);
    }

    method DropIfExpired(key: Key, now: Time)
      requires Valid()
      modifies this`bytes, this`entries
      ensures Valid()
      ensures entries == Dropped(limits, old(entries), key, now)
    {
      if key in entries && now - entries[key].createdAt > limits.ttl {
        TotalWithout(entries, limits.size, key);
        bytes := bytes - limits.size(entries[key].reasoning);
        entries := entries - {key};
      }
    }

    /** Other requests use the cache. */
    method OthersUse() returns (ghost uses: seq<Use>)
      requires Valid()
      modifies this
      ensures Valid() && AllUsed(limits, old(entries), uses, entries)
    {
      hide *;
      uses := [];
      NothingUsed(limits, entries);
      var turns := *;
      while turns > 0
        invariant Valid() && AllUsed(limits, old(entries), uses, entries)
        decreases turns
      {
        var key: Key, reasoning: string, now: Time, store: bool := *, *, *, *;
        ghost var mid, use := entries, if store then Write(key, reasoning, now) else Look(key, now);
        if store { Store(key, reasoning, now); } else { DropIfExpired(key, now); }
        OneUse(limits, mid, use, entries);
        UsedMore(limits, old(entries), uses, mid, use, entries);
        uses := uses + [use];
        turns := turns - 1;
      }
    }
  }

  lemma NothingUsed(l: Limits, m: map<Key, Entry>)
    ensures AllUsed(l, m, [], m)
  {
  }

  lemma OneUse(l: Limits, before: map<Key, Entry>, use: Use, after: map<Key, Entry>)
    requires use.Write? ==> Stored(l, before, use.key, use.reasoning, use.at, after)
    requires use.Look? ==> after == Dropped(l, before, use.key, use.at)
    ensures Used(l, before, use, after)
  {
  }

  lemma UsedMore(l: Limits, before: map<Key, Entry>, uses: seq<Use>, mid: map<Key, Entry>, use: Use,
                 after: map<Key, Entry>)
    requires AllUsed(l, before, uses, mid) && Used(l, mid, use, after)
    ensures AllUsed(l, before, uses + [use], after)
  {
    hide Used;
    assert (uses + [use])[..|uses|] == uses;
  }

  lemma {:induction false} UsedConcat(l: Limits, before: map<Key, Entry>, a: seq<Use>, mid: map<Key, Entry>,
                                      b: seq<Use>,
                                      after: map<Key, Entry>)
    requires AllUsed(l, before, a, mid) && AllUsed(l, mid, b, after)
    ensures AllUsed(l, before, a + b, after)
    decreases |b|
  {
    hide Used;
    if b == [] {
      assert a + b == a;
    } else {
      var init, last := b[..|b| - 1], b[|b| - 1];
      var m :| AllUsed(l, mid, init, m) && Used(l, m, last, after);
      UsedConcat(l, before, a, mid, init, m);
      UsedMore(l, before, a + init, m, last, after);
      assert a + init + [last] == a + b;
    }
  }

  lemma PartsOfStore(l: Limits, full: map<Key, Entry>, now: Time, live: map<Key, Entry>, after: map<Key, Entry>,
                     latest: map<Key, Entry>)
    requires Part(full, latest) && live == Live(l, full, now) && Evicts(l, live, after)
    ensures Part(after, latest)
  {
    hide Fits;
    PartOfPart(live, full, latest);
    PartOfPart(after, live, latest);
  }

  lemma NothingHasNoSize(size: string -> nat)
    ensures Total(map[], size) == 0
  {
  }

  lemma NothingEvicted(l: Limits, m: map<Key, Entry>)
    ensures Evicts(l, m, m)
  {
  }

  lemma EvictsMore(l: Limits, before: map<Key, Entry>, after: map<Key, Entry>, oldest: Key)
    requires Evicts(l, before, after) && !Fits(l, after)
    requires oldest in after && forall k :: k in after ==> after[oldest].createdAt <= after[k].createdAt
    ensures Evicts(l, before, after - {oldest})
  {
    hide Fits;
    assert (after - {oldest})[oldest := before[oldest]] == after;
    assert LastToGo(l, before, after - {oldest}, oldest);
  }

  method Oldest(m: map<Key, Entry>) returns (oldest: Key)
    requires m != map[]
    ensures oldest in m && forall k :: k in m ==> m[oldest].createdAt <= m[k].createdAt
  {
    ghost var some := Member(m.Keys);
    oldest :| oldest in m.Keys;
    var rest := m.Keys - {oldest};
    while rest != {}
      invariant rest <= m.Keys && oldest in m
      invariant forall k :: k in m.Keys - rest ==> m[oldest].createdAt <= m[k].createdAt
      decreases |rest|
    {
      some := Member(rest);
      var k :| k in rest;
      rest := rest - {k};
      if m[k].createdAt < m[oldest].createdAt { oldest := k; }
    }
  }

  // ---------- Sizes of parts ----------

  lemma {:induction false} TotalOfSubset(m: map<Key, Entry>, n: map<Key, Entry>, size: string -> nat)
    requires m.Keys <= n.Keys && forall k :: k in m ==> m[k] == n[k]
    ensures Total(m, size) <= Total(n, size) && |m| <= |n|
    decreases |n|
  {
    if m == map[] {
    } else {
      var k := Member(m.Keys);
      TotalWithout(m, size, k);
      TotalWithout(n, size, k);
      TotalOfSubset(m - {k}, n - {k}, size);
    }
  }

  lemma AloneFits(l: Limits, key: Key, e: Entry)
    requires l.maxEntries > 0 && l.size(e.reasoning) <= l.maxBytes
    ensures Fits(l, map[][key := e])
  {
    NothingHasNoSize(l.size);
    TotalWith(map[], l.size, key, e);
  }

  // ---------- Which texts survive ----------

  /** The entries not older than `t`. */
  ghost function NotOlder(m: map<Key, Entry>, t: Time): map<Key, Entry> {
    map k | k in m && m[k].createdAt >= t :: m[k]
  }

  /** A text stays, whatever is evicted, as long as it fits together with the entries of the same
      instant and the younger ones. */
  lemma FittingSurvives(l: Limits, before: map<Key, Entry>, after: map<Key, Entry>, key: Key)
    requires Evicts(l, before, after) && key in before && Fits(l, NotOlder(before, before[key].createdAt))
    ensures key in after && after[key] == before[key]
  {
    hide Total;
    if key !in after {
      var last :| LastToGo(l, before, after, last);
      var kept, young := after[last := before[last]], NotOlder(before, before[key].createdAt);
      TotalOfSubset(kept, young, l.size);
      assert false;
    }
  }

  lemma StoredSurvives(l: Limits, full: map<Key, Entry>, now: Time, live: map<Key, Entry>, after: map<Key, Entry>,
                       key: Key)
    requires live == Live(l, full, now) && Evicts(l, live, after) && key in full && full[key].createdAt == now
    requires Fits(l, NotOlder(full, now))
    ensures key in after && after[key] == full[key]
  {
    hide Fits, Total, Evicts;
    assert NotOlder(live, now) == NotOlder(full, now);
    FittingSurvives(l, live, after, key);
  }

  /** In particular a text just stored stays, if the clock has moved on since every other entry was
      made. */
  lemma NewestSurvives(l: Limits, before: map<Key, Entry>, after: map<Key, Entry>, key: Key)
    requires Evicts(l, before, after) && key in before
    requires l.maxEntries > 0 && l.size(before[key].reasoning) <= l.maxBytes
    requires forall k :: k in before && k != key ==> before[k].createdAt < before[key].createdAt
    ensures key in after && after[key] == before[key]
  {
    hide Fits, Total, Evicts;
    AloneFits(l, key, before[key]);
    assert NotOlder(before, before[key].createdAt) == map[][key := before[key]];
    FittingSurvives(l, before, after, key);
  }

  /** The condition is exact: if it fails, some eviction that satisfies both limits removes the
      text, for which one of several entries of one instant goes first is left open. */
  lemma CrowdedMayGo(l: Limits, before: map<Key, Entry>, key: Key) returns (after: map<Key, Entry>)
    requires key in before && !Fits(l, NotOlder(before, before[key].createdAt))
    ensures Evicts(l, before, after) && Fits(l, after) && key !in after
  {
    hide Fits, Total;
    var young := NotOlder(before, before[key].createdAt);
    var mid := young - {key};
    assert mid[key := before[key]] == young;
    assert LastToGo(l, before, mid, key);
    after := EvictUntilFit(l, before, mid);
  }

  lemma {:induction false} EvictUntilFit(l: Limits, before: map<Key, Entry>, mid: map<Key, Entry>)
      returns (after: map<Key, Entry>)
    requires Evicts(l, before, mid)
    ensures Evicts(l, before, after) && Fits(l, after) && after.Keys <= mid.Keys
    decreases |mid|
  {
    hide Evicts;
    if Fits(l, mid) {
      after := mid;
    } else {
      NothingHasNoSize(l.size);
      var oldest := OldestExists(mid);
      EvictsMore(l, before, mid, oldest);
      after := EvictUntilFit(l, before, mid - {oldest});
    }
  }

  lemma {:induction false} OldestExists(m: map<Key, Entry>) returns (oldest: Key)
    requires m != map[]
    ensures oldest in m && forall k :: k in m ==> m[oldest].createdAt <= m[k].createdAt
    decreases |m|
  {
    assert m.Keys != {};
    oldest := Member(m.Keys);
    var rest := m - {oldest};
    if rest != map[] {
      var other := OldestExists(rest);
      assert forall k :: k in m ==> k == oldest || k in rest;
      if m[other].createdAt < m[oldest].createdAt { oldest := other; }
    }
  }

  /** The entries if nothing were ever dropped. */
  function Filled(l: Limits, before: map<Key, Entry>, uses: seq<Use>): map<Key, Entry> {
    if uses == [] then before
    else
      var m, last := Filled(l, before, uses[..|uses| - 1]), uses[|uses| - 1];
      if last.Write? && Accepts(l, last.key, last.reasoning) then m[last.key := Entry(last.reasoning, last.at)] else m
  }

  /** All along, what is not older than `t` fits and has not expired. */
  ghost predicate Roomy(l: Limits, before: map<Key, Entry>, uses: seq<Use>, t: Time) {
    uses == [] ||
    (&& Roomy(l, before, uses[..|uses| - 1], t)
     && uses[|uses| - 1].at - t <= l.ttl && Fits(l, NotOlder(Filled(l, before, uses), t)))
  }

  /** One more use. */
  lemma UseKeeps(l: Limits, full: map<Key, Entry>, mid: map<Key, Entry>, use: Use, after: map<Key, Entry>, t: Time)
    requires Used(l, mid, use, after) && Part(mid, full) && NotOlder(mid, t) == NotOlder(full, t)
    requires use.at - t <= l.ttl
    requires var full' := if use.Write? && Accepts(l, use.key, use.reasoning)
                          then full[use.key := Entry(use.reasoning, use.at)] else full;
             Fits(l, NotOlder(full', t))
    ensures var full' := if use.Write? && Accepts(l, use.key, use.reasoning)
                         then full[use.key := Entry(use.reasoning, use.at)] else full;
            Part(after, full') && NotOlder(after, t) == NotOlder(full', t)
  {
    hide Fits, Total, Accepts, Evicts;
    if use.Write? && Accepts(l, use.key, use.reasoning) {
      var e := Entry(use.reasoning, use.at);
      var full', live := full[use.key := e], Live(l, mid[use.key := e], use.at);
      assert Evicts(l, live, after);
      AfterIsPart(l, live, after);
      YoungAgree(l, full, mid, use.key, e, t);
      assert NotOlder(live, t) == NotOlder(full', t);
      forall k | k in NotOlder(live, t) ensures k in after && after[k] == live[k] {
        FitsLater(l, live, t, live[k].createdAt);
        FittingSurvives(l, live, after, k);
      }
      assert NotOlder(after, t) == NotOlder(live, t);
    }
  }

  lemma AfterIsPart(l: Limits, before: map<Key, Entry>, after: map<Key, Entry>)
    requires Evicts(l, before, after)
    ensures Part(after, before)
  {
  }

  lemma YoungAgree(l: Limits, full: map<Key, Entry>, mid: map<Key, Entry>, key: Key, e: Entry, t: Time)
    requires Part(mid, full) && NotOlder(mid, t) == NotOlder(full, t) && e.createdAt - t <= l.ttl
    ensures NotOlder(Live(l, mid[key := e], e.createdAt), t) == NotOlder(full[key := e], t)
    ensures Part(Live(l, mid[key := e], e.createdAt), full[key := e])
  {
    var live, full' := Live(l, mid[key := e], e.createdAt), full[key := e];
    PartWith(mid, full, key, e);
    assert Part(live, full');
    forall k | k in NotOlder(full', t) ensures k in live {
      if k != key { YoungIsThere(full, mid, k, t); }
    }
  }

  lemma YoungIsThere(full: map<Key, Entry>, mid: map<Key, Entry>, k: Key, t: Time)
    requires NotOlder(mid, t) == NotOlder(full, t) && k in full && full[k].createdAt >= t
    ensures k in mid && mid[k] == full[k]
  {
    assert k in NotOlder(full, t) && NotOlder(full, t)[k] == full[k];
    assert k in NotOlder(mid, t);
  }

  lemma FitsLater(l: Limits, m: map<Key, Entry>, t: Time, u: Time)
    requires Fits(l, NotOlder(m, t)) && t <= u
    ensures Fits(l, NotOlder(m, u))
  {
    TotalOfSubset(NotOlder(m, u), NotOlder(m, t), l.size);
  }

  /** As long as there is room, every text not older than `t` is kept as it was last written,
      whoever uses the cache in between. */
  lemma {:induction false} RoomyKeeps(l: Limits, before: map<Key, Entry>, uses: seq<Use>, after: map<Key, Entry>,
                                      t: Time)
    requires AllUsed(l, before, uses, after) && Roomy(l, before, uses, t)
    ensures Part(after, Filled(l, before, uses)) && NotOlder(after, t) == NotOlder(Filled(l, before, uses), t)
  {
    hide Used, Accepts, Fits, NotOlder;
    if uses != [] {
      var init, last := uses[..|uses| - 1], uses[|uses| - 1];
      var mid :| AllUsed(l, before, init, mid) && Used(l, mid, last, after);
      RoomyKeeps(l, before, init, mid, t);
      UseKeeps(l, Filled(l, before, init), mid, last, after, t);
    }
  }

  /** A text that was the last one written under its key is found until its time limit has passed,
      and not after. */
  lemma KeptIsFound(l: Limits, before: map<Key, Entry>, uses: seq<Use>, after: map<Key, Entry>, key: Key,
                    reasoning: string, now: Time, at: Time)
    requires AllUsed(l, before, uses, after) && Roomy(l, before, uses, now) && key.Valid()
    requires key in Filled(l, before, uses) && Filled(l, before, uses)[key] == Entry(reasoning, now)
    ensures Find(l, after, key, at) == if at - now <= l.ttl then Some(reasoning) else None
  {
    hide Used, Accepts, Fits, AllUsed, Roomy, Filled;
    RoomyKeeps(l, before, uses, after, now);
    assert key in NotOlder(Filled(l, before, uses), now);
    assert key in NotOlder(after, now);
  }
}
