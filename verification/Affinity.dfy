/** Conversation affinity: which account a conversation was last bound to, bounded in number
    and age. */
module Affinity {
  import opened Basics

  /** The zero value stands for a time that was never set. */
  type Time = int

  datatype Record = Record(accountPath: string, updatedAt: Time)

  /** How conversation ids are normalised, how long a binding lasts and how many there may be. */
  datatype Policy = Policy(normalize: string -> string, ttl: nat, max: nat)

  const DEFAULT_TTL: nat := 720 * 3600 // seconds
  const DEFAULT_MAX: nat := 10000

  function WithDefaults(policy: Policy): (r: Policy)
    ensures r.max > 0 && r.ttl > 0
  {
    policy.(ttl := if policy.ttl == 0 then DEFAULT_TTL else policy.ttl,
            max := if policy.max == 0 then DEFAULT_MAX else policy.max)
  }

  // ---------- What the operations promise ----------

  predicate Expired(policy: Policy, rec: Record, now: Time) {
    policy.ttl > 0 && rec.updatedAt != 0 && now - rec.updatedAt > policy.ttl
  }

  /** `after` keeps bindings of `before` unchanged, at most `max` of them (none is lost
      without need), and only bindings no newer than every one kept are gone. */
  ghost predicate Evicts(before: map<string, Record>, after: map<string, Record>, max: nat) {
    && after.Keys <= before.Keys
    && (forall id :: id in after ==> after[id] == before[id])
    && (max == 0 || |before| <= max ==> after == before)
    && (max > 0 && |before| > max ==> |after| == max)
    && forall gone, kept :: gone in before && gone !in after && kept in after ==>
         before[gone].updatedAt <= before[kept].updatedAt
  }

  function Bound(bindings: map<string, Record>, policy: Policy, conversation: string, account: string, now: Time)
    : map<string, Record>
  {
    if policy.normalize(conversation) == "" || Trim(account) == "" then bindings
    else bindings[policy.normalize(conversation) := Record(Trim(account), now)]
  }

  ghost function Current(bindings: map<string, Record>, policy: Policy, valid: set<string>, now: Time)
    : map<string, Record>
  {
    map id | id in bindings && bindings[id].accountPath in valid && !Expired(policy, bindings[id], now) :: bindings[id]
  }

  function Unbound(bindings: map<string, Record>, policy: Policy, conversation: string): map<string, Record> {
    bindings - {policy.normalize(conversation)}
  }

  /** The binding just made stays, if it is newer than every other one. */
  lemma NewestStays(bindings: map<string, Record>, policy: Policy, conversation: string, account: string, now: Time,
                    after: map<string, Record>)
    requires policy.normalize(conversation) != "" && Trim(account) != ""
    requires Evicts(Bound(bindings, policy, conversation, account, now), after, policy.max)
    requires forall id :: id in bindings && id != policy.normalize(conversation) ==> bindings[id].updatedAt < now
    ensures var id := policy.normalize(conversation);
            id in after && after[id] == Record(Trim(account), now)
  {
    hide Trim;
    var id, before := policy.normalize(conversation), Bound(bindings, policy, conversation, account, now);
    if after != before {
      assert |after| == policy.max > 0;
      var kept := Member(after.Keys);
    }
  }

  /** Some record of the file is kept under this id. */
  ghost predicate Loads(policy: Policy, file: map<string, Record>, now: Time, id: string, rec: Record) {
    exists raw :: raw in file && LoadsAs(policy, file[raw], now, raw, id) && rec == file[raw]
  }

  predicate LoadsAs(policy: Policy, rec: Record, now: Time, raw: string, id: string) {
    policy.normalize(raw) == id && id != "" && Trim(rec.accountPath) != "" && !Expired(policy, rec, now)
  }

  // ---------- The store ----------

  class AffinityStore {
    const policy: Policy
    var entries: map<string, Record>

    /** Every id that some record of the file loads under is bound as such a record says, and no
        others, until only the maximum is left. Two ids that normalise to the same one clash: either
        may win. */
    constructor (policy: Policy, file: map<string, Record>, now: Time)
      ensures this.policy == WithDefaults(policy) && |entries| <= this.policy.max
      ensures exists loaded ::
                && (forall id :: id in loaded ==> Loads(this.policy, file, now, id, loaded[id]))
                && (forall raw, id :: raw in file && LoadsAs(this.policy, file[raw], now, raw, id) ==> id in loaded)
                && Evicts(loaded, entries, this.policy.max)
    {
      hide Evicts;
      this.policy := WithDefaults(policy);
      entries := map[];
      new;
      var rest := file.Keys;
      while rest != {}
        invariant rest <= file.Keys
        invariant forall id :: id in entries ==> Loads(this.policy, file, now, id, entries[id])
        invariant forall raw, id ::
                    raw in file.Keys - rest && LoadsAs(this.policy, file[raw], now, raw, id) ==> id in entries
        decreases |rest|
      {
        ghost var some := Member(rest);
        var raw :| raw in rest;
        rest := rest - {raw};
        var id, rec := this.policy.normalize(raw), file[raw];
        if id != "" && Trim(rec.accountPath) != "" && !Expired(this.policy, rec, now) {
          assert LoadsAs(this.policy, file[raw], now, raw, id);
          entries := entries[id := rec];
        }
      }
      ghost var loaded := entries;
      EnforceMax();
      FewEnough(loaded, entries, this.policy.max);
    }

    method Lookup(conversation: string) returns (account: string)
      ensures var id := policy.normalize(conversation);
              account == if id != "" && id in entries then entries[id].accountPath else ""
    {
      var id := policy.normalize(conversation);
      if id == "" || id !in entries { return ""; }
      account := entries[id].accountPath;
    }

    method Unbind(conversation: string)
      modifies this
      ensures policy.normalize(conversation) == "" ==> entries == old(entries)
      ensures policy.normalize(conversation) != "" ==> entries == Unbound(old(entries), policy, conversation)
    {
      var id := policy.normalize(conversation);
      if id == "" || id !in entries { return; }
      entries := entries - {id};
    }

    method Bind(conversation: string, accountPath: string, now: Time)
      modifies this
      ensures policy.normalize(conversation) == "" || Trim(accountPath) == "" ==> entries == old(entries)
      ensures policy.normalize(conversation) != "" && Trim(accountPath) != "" ==>
                Evicts(Bound(old(entries), policy, conversation, accountPath, now), entries, policy.max)
    {
      hide Trim;
      var id, account := policy.normalize(conversation), Trim(accountPath);
      if id == "" || account == "" { return; }
      entries := entries[id := Record(account, now)];
      EnforceMax();
    }

    /** Expired bindings go, and those of accounts that are not valid. */
    method Prune(valid: set<string>, now: Time)
      modifies this
      ensures Evicts(Current(old(entries), policy, valid, now), entries, policy.max)
      ensures forall id :: id in entries ==>
                && entries[id].accountPath in valid
                && (policy.ttl == 0 || entries[id].updatedAt == 0 || now - entries[id].updatedAt <= policy.ttl)
      ensures forall id :: id in old(entries) && id !in entries ==>
                var rec := old(entries)[id];
                || rec.accountPath !in valid
                || (policy.ttl > 0 && rec.updatedAt != 0 && now - rec.updatedAt > policy.ttl)
                || (policy.max > 0 && |entries| == policy.max)
    {
      var rest := entries.Keys;
      while rest != {}
        invariant rest <= old(entries).Keys
        invariant forall id ::
                    id in entries <==>
                    id in old(entries) && (id in rest || id in Current(old(entries), policy, valid, now))
        invariant forall id :: id in entries ==> entries[id] == old(entries)[id]
        decreases |rest|
      {
        ghost var some := Member(rest);
        var id :| id in rest;
        rest := rest - {id};
        if entries[id].accountPath !in valid {
          entries := entries - {id};
        } else if Expired(policy, entries[id], now) {
          entries := entries - {id};
        }
      }
      assert entries == Current(old(entries), policy, valid, now);
      EnforceMax();
    }

    method EnforceMax()
      modifies this
      ensures Evicts(old(entries), entries, policy.max)
    {
      if policy.max == 0 || |entries| <= policy.max { return; }
      hide ByAge, Evicts, WithoutAll;
      var all := OldestFirst(entries);
      var remove := |all| - policy.max;
      ghost var before := entries;
      assert all[..0] == [];
      NothingDropped(before);
      var i := 0;
      while i < remove
        invariant 0 <= i <= remove
        invariant entries == WithoutAll(before, all[..i]) && |entries| == |all| - i
      {
        DropOne(before, all, i);
        entries := entries - {all[i]};
        i := i + 1;
      }
      DroppingTheOldestEvicts(before, all, remove, policy.max);
    }
  }

  lemma FewEnough(before: map<string, Record>, after: map<string, Record>, max: nat)
    requires Evicts(before, after, max) && max > 0
    ensures |after| <= max
  {
  }

  lemma DropOne(m: map<string, Record>, ids: seq<string>, i: nat)
    requires i < |ids| && (forall id :: id in ids ==> id in m) && ByAge(m, ids)
    ensures ids[i] in WithoutAll(m, ids[..i])
    ensures WithoutAll(m, ids[..i + 1]) == WithoutAll(m, ids[..i]) - {ids[i]}
  {
    assert ids[i] in ids && ids[..i + 1] == ids[..i] + [ids[i]];
    assert ids[i] !in ids[..i];
  }

  lemma InPrefix(ids: seq<string>, n: nat, k: nat)
    requires n <= |ids| && k < |ids|
    ensures k < n ==> ids[k] in ids[..n]
  {
  }

  lemma NothingDropped(m: map<string, Record>)
    ensures WithoutAll(m, []) == m
  {
  }

  lemma DroppingTheOldestEvicts(m: map<string, Record>, ids: seq<string>, n: nat, max: nat)
    requires n <= |ids| && (forall id :: id in ids <==> id in m) && ByAge(m, ids)
    requires |m| > max > 0 && |WithoutAll(m, ids[..n])| == max
    ensures Evicts(m, WithoutAll(m, ids[..n]), max)
  {
    forall gone, kept | gone in m && gone in ids[..n] && kept in m && kept !in ids[..n]
      ensures m[gone].updatedAt <= m[kept].updatedAt
    {
      var g :| 0 <= g < n && ids[..n][g] == gone;
      var k :| 0 <= k < |ids| && ids[k] == kept;
      InPrefix(ids, n, k);
    }
  }

  ghost function WithoutAll(m: map<string, Record>, ids: seq<string>): map<string, Record> {
    map id | id in m && id !in ids :: m[id]
  }

  ghost predicate ByAge(m: map<string, Record>, ids: seq<string>)
    requires forall id :: id in ids ==> id in m
  {
    forall i, j :: 0 <= i < j < |ids| ==> ids[i] != ids[j] && m[ids[i]].updatedAt <= m[ids[j]].updatedAt
  }

  /** All ids, sorted by age. */
  method OldestFirst(m: map<string, Record>) returns (ids: seq<string>)
    ensures forall id :: id in ids <==> id in m
    ensures ByAge(m, ids) && |ids| == |m|
  {
    ids := [];
    var rest := m.Keys;
    while rest != {}
      invariant rest <= m.Keys && |ids| + |rest| == |m|
      invariant forall id :: id in m <==> id in ids || id in rest
      invariant forall id :: id in ids ==> id !in rest
      invariant ByAge(m, ids)
      invariant forall i, id :: 0 <= i < |ids| && id in rest ==> m[ids[i]].updatedAt <= m[id].updatedAt
      decreases |rest|
    {
      var oldest := Oldest(m, rest);
      ids, rest := ids + [oldest], rest - {oldest};
    }
  }

  method Oldest(m: map<string, Record>, keys: set<string>) returns (oldest: string)
    requires keys <= m.Keys && keys != {}
    ensures oldest in keys && forall id :: id in keys ==> m[oldest].updatedAt <= m[id].updatedAt
  {
    ghost var some := Member(keys);
    oldest :| oldest in keys;
    var rest := keys - {oldest};
    while rest != {}
      invariant rest <= keys && oldest in keys
      invariant forall id :: id in keys - rest ==> m[oldest].updatedAt <= m[id].updatedAt
      decreases |rest|
    {
      some := Member(rest);
      var id :| id in rest;
      rest := rest - {id};
      if m[id].updatedAt < m[oldest].updatedAt { oldest := id; }
    }
  }
}
