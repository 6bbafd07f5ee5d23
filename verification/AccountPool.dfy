/** The Codex account pool: leases taken and returned while the account set is reloaded, and
    the conversations bound to its accounts. Every method is one critical section, so an
    interleaving of callers is a sequence of the steps below. */
module AccountPool {
  import opened Basics
  import opened Affinity

  // ---------- Accounts ----------

  /** A token file: when its exhausted quota resets, when it expires, how much quota is used,
      and the names it answers to. */
  datatype Token = Token(path: string, codex: bool, disabled: bool, limitReset: Option<Time>, expiry: Option<Time>,
                         hasRefresh: bool, used: real, names: seq<string>)

  datatype Entry = Entry(path: string, codex: bool, disabled: bool, tokenFilePresent: bool,
                         healthy: bool, unhealthyUntil: Time, cooldownUntil: Time, rateLimitedUntil: Time,
                         lastUsed: Time, inFlight: int, expired: bool, refreshable: bool, used: real,
                         names: seq<string>)

  type Entries = map<string, Entry>

  function TokenExpired(tok: Token, now: Time): bool {
    tok.expiry.Some? && tok.expiry.value != 0 && tok.expiry.value <= now
  }

  function Persisted(current: Time, reset: Option<Time>, now: Time): Time {
    if reset.Some? && reset.value > now then reset.value else current
  }

  /** A future mark is only ever shortened by what the token file says. */
  function Suppression(current: Time, reset: Option<Time>, now: Time): Time {
    if current == 0 || current <= now then Persisted(0, reset, now)
    else if reset.Some? && reset.value < current then reset.value
    else current
  }

  function Fresh(tok: Token, now: Time): Entry {
    Entry(tok.path, tok.codex, tok.disabled, true, true, 0, 0, Persisted(0, tok.limitReset, now), 0, 0,
          TokenExpired(tok, now), TokenExpired(tok, now) && tok.hasRefresh, tok.used, tok.names)
  }

  /** Identity from the token, runtime state from the entry. */
  function Updated(e: Entry, tok: Token, now: Time): Entry {
    e.(codex := tok.codex, disabled := tok.disabled, tokenFilePresent := true, used := tok.used, names := tok.names,
       expired := TokenExpired(tok, now), refreshable := TokenExpired(tok, now) && tok.hasRefresh,
       rateLimitedUntil := Suppression(e.rateLimitedUntil, tok.limitReset, now))
  }

  predicate Eligible(e: Entry, exclude: set<string>, now: Time) {
    && e.codex && e.tokenFilePresent && !e.disabled && e.path !in exclude
    && e.cooldownUntil <= now && e.rateLimitedUntil <= now
    && (e.healthy || e.unhealthyUntil <= now)
    && (e.expired ==> e.refreshable)
  }

  /** Why an account cannot serve a request now, whatever else is asked for. */
  predicate Defective(e: Entry, now: Time) {
    || !e.codex                                      // wrong_provider
    || !e.tokenFilePresent                           // removed
    || e.disabled
    || e.cooldownUntil > now
    || e.rateLimitedUntil > now
    || (!e.healthy && e.unhealthyUntil > now)
    || (e.expired && !e.refreshable)
  }

  lemma EligibleIffSound(e: Entry, exclude: set<string>, now: Time)
    ensures Eligible(e, exclude, now) <==> e.path !in exclude && !Defective(e, now)
  {
  }

  // ---------- What each operation does to the entries ----------

  predicate CanBegin(entries: Entries, path: string) { path in entries && entries[path].tokenFilePresent }

  function Begun(entries: Entries, path: string, now: Time): Entries {
    if !CanBegin(entries, path) then entries
    else entries[path := entries[path].(inFlight := entries[path].inFlight + 1, lastUsed := now)]
  }

  function Ended(entries: Entries, path: string): Entries {
    if path !in entries then entries
    else
      var left := if entries[path].inFlight - 1 < 0 then 0 else entries[path].inFlight - 1;
      if left == 0 && !entries[path].tokenFilePresent then entries - {path}
      else entries[path := entries[path].(inFlight := left)]
  }

  /** The last Codex token of every path. */
  function ByPath(tokens: seq<Token>): map<string, Token> {
    if tokens == [] then map[]
    else
      var tok := tokens[|tokens| - 1];
      if tok.codex then ByPath(tokens[..|tokens| - 1])[tok.path := tok] else ByPath(tokens[..|tokens| - 1])
  }

  /** The accounts of the token set, and those without a token file that are still leased. */
  ghost function Reloaded(entries: Entries, tokens: map<string, Token>, now: Time): Entries {
    map p | p in tokens.Keys + entries.Keys && (p in tokens || entries[p].inFlight > 0) ::
      if p in tokens && p in entries then Updated(entries[p], tokens[p], now)
      else if p in tokens then Fresh(tokens[p], now)
      else entries[p].(tokenFilePresent := false)
  }

  ghost function Present(entries: Entries): set<string> {
    set p | p in entries && entries[p].codex && entries[p].tokenFilePresent
  }

  datatype Mark =
    | RateLimited(until: Time) | CoolingDown(until: Time) | Unhealthy(until: Time)
    | Healthy | RateLimitCleared | CooldownCleared

  function WithMark(e: Entry, mark: Mark): Entry {
    match mark
    case RateLimited(until) => e.(rateLimitedUntil := until)
    case CoolingDown(until) => e.(cooldownUntil := until)
    case Unhealthy(until) => e.(healthy := false, unhealthyUntil := until)
    case Healthy => e.(healthy := true, unhealthyUntil := 0)
    case RateLimitCleared => e.(rateLimitedUntil := 0)
    case CooldownCleared => e.(cooldownUntil := 0)
  }

  function Marked(entries: Entries, path: string, mark: Mark): Entries {
    if path in entries then entries[path := WithMark(entries[path], mark)] else entries
  }

  // ---------- The pool as a state machine ----------

  /** `leases` counts, for each account, the leases taken and not yet returned. */
  datatype World = World(entries: Entries, leases: multiset<string>, bindings: map<string, Record>)

  datatype Settings = Settings(sticky: bool, affinity: Option<Policy>)

  datatype Op =
    | Begin(path: string, now: Time)
    | End(path: string)
    | Reload(tokens: seq<Token>, now: Time)
    | MarkAccount(path: string, mark: Mark)
    | BindConversation(conversation: string, path: string, now: Time)
    | ClearConversation(conversation: string)

  predicate Binds(s: Settings, entries: Entries, conversation: string, path: string) {
    && s.sticky && s.affinity.Some? && path in entries && entries[path].codex && entries[path].tokenFilePresent
    && s.affinity.value.normalize(conversation) != "" && Trim(path) != ""
  }

  ghost predicate Step(s: Settings, w: World, op: Op, w': World) {
    match op
    case Begin(path, now) =>
      && w'.entries == Begun(w.entries, path, now) && w'.bindings == w.bindings
      && w'.leases == if CanBegin(w.entries, path) then w.leases + multiset{path} else w.leases
    case End(path) =>
      w'.entries == Ended(w.entries, path) && w'.leases == w.leases - multiset{path} && w'.bindings == w.bindings
    case Reload(tokens, now) =>
      && w'.entries == Reloaded(w.entries, ByPath(tokens), now) && w'.leases == w.leases
      && (if s.affinity.None? then w'.bindings == w.bindings
          else Evicts(Current(w.bindings, s.affinity.value, Present(w'.entries), now), w'.bindings,
                      s.affinity.value.max))
    case MarkAccount(path, mark) =>
      w'.entries == Marked(w.entries, path, mark) && w'.leases == w.leases && w'.bindings == w.bindings
    case BindConversation(conversation, path, now) =>
      && w'.entries == w.entries && w'.leases == w.leases
      && (if !Binds(s, w.entries, conversation, path) then w'.bindings == w.bindings
          else Evicts(Bound(w.bindings, s.affinity.value, conversation, path, now), w'.bindings, s.affinity.value.max))
    case ClearConversation(conversation) =>
      && w'.entries == w.entries && w'.leases == w.leases
      && w'.bindings == if s.sticky && s.affinity.Some? && s.affinity.value.normalize(conversation) != ""
                        then Unbound(w.bindings, s.affinity.value, conversation) else w.bindings
  }

  // ---------- Leases ----------

  /** Every in-flight count is the number of outstanding leases, every leased account has an
      entry, and an entry without a token file is there because it is leased. */
  ghost predicate Conserved(entries: Entries, leases: multiset<string>) {
    && (forall p :: p in entries ==>
          && entries[p].path == p && entries[p].codex && entries[p].inFlight == leases[p]
          && (entries[p].tokenFilePresent || leases[p] > 0))
    && (forall p :: p in leases ==> p in entries)
  }

  /** Only a holder ends a lease. */
  predicate ByHolder(w: World, op: Op) { op.End? ==> op.path in w.leases }

  lemma {:induction false} ByPathKeys(tokens: seq<Token>)
    ensures forall p :: p in ByPath(tokens) ==> ByPath(tokens)[p].path == p && ByPath(tokens)[p].codex
    ensures forall p :: p in ByPath(tokens) ==> ByPath(tokens)[p] in tokens
  {
    if tokens != [] { ByPathKeys(tokens[..|tokens| - 1]); }
  }

  lemma BeginConserves(entries: Entries, leases: multiset<string>, path: string, now: Time)
    requires Conserved(entries, leases)
    ensures Conserved(Begun(entries, path, now), if CanBegin(entries, path) then leases + multiset{path} else leases)
    ensures Present(Begun(entries, path, now)) == Present(entries) && Begun(entries, path, now).Keys == entries.Keys
  {
    if CanBegin(entries, path) { assert Begun(entries, path, now).Keys == entries.Keys; }
  }

  lemma EndConserves(entries: Entries, leases: multiset<string>, path: string)
    requires Conserved(entries, leases) && path in leases
    ensures Conserved(Ended(entries, path), leases - multiset{path})
    ensures Present(Ended(entries, path)) == Present(entries) && Ended(entries, path).Keys <= entries.Keys
  {
  }

  lemma ReloadConserves(entries: Entries, leases: multiset<string>, tokens: seq<Token>, now: Time)
    requires Conserved(entries, leases)
    ensures Conserved(Reloaded(entries, ByPath(tokens), now), leases)
  {
    hide ByPath, Suppression, Persisted, TokenExpired;
    ByPathKeys(tokens);
  }

  lemma MarkConserves(entries: Entries, leases: multiset<string>, path: string, mark: Mark)
    requires Conserved(entries, leases)
    ensures Conserved(Marked(entries, path, mark), leases)
    ensures Present(Marked(entries, path, mark)) == Present(entries) && Marked(entries, path, mark).Keys == entries.Keys
  {
  }

  lemma StepConserves(s: Settings, w: World, op: Op, w': World)
    requires Conserved(w.entries, w.leases) && ByHolder(w, op) && Step(s, w, op, w')
    ensures Conserved(w'.entries, w'.leases)
  {
    hide Conserved, Begun, Ended, Reloaded, Marked, Evicts, Bound, Current, Unbound, Binds, ByPath, Trim;
    match op
    case Begin(path, now) => BeginConserves(w.entries, w.leases, path, now);
    case End(path) => EndConserves(w.entries, w.leases, path);
    case Reload(tokens, now) => ReloadConserves(w.entries, w.leases, tokens, now);
    case MarkAccount(path, mark) => MarkConserves(w.entries, w.leases, path, mark);
    case BindConversation(_, _, _) =>
    case ClearConversation(_) =>
  }

  /** A holder always finds its account, with a positive count: the clamp to zero is never
      needed, and the last holder of an account whose file is gone removes it. */
  lemma HolderEndsItsLease(entries: Entries, leases: multiset<string>, path: string)
    requires Conserved(entries, leases) && path in leases
    ensures path in entries && entries[path].inFlight >= 1
    ensures path in Ended(entries, path) ==> Ended(entries, path)[path].inFlight == entries[path].inFlight - 1
    ensures path !in Ended(entries, path) <==> leases[path] == 1 && !entries[path].tokenFilePresent
  {
  }

  /** An End by someone who holds nothing is harmless exactly when nobody holds a lease there;
      otherwise it takes a lease away from its holder. */
  lemma StrayEndIsHarmlessIff(entries: Entries, leases: multiset<string>, path: string)
    requires Conserved(entries, leases)
    ensures Conserved(Ended(entries, path), leases) <==> path !in leases
    ensures path !in leases ==> Ended(entries, path) == entries
  {
    if path in leases {
      HolderEndsItsLease(entries, leases, path);
    } else if path in entries {
      assert leases[path] == 0 && entries[path].tokenFilePresent;
      assert entries[path].(inFlight := 0) == entries[path];
    }
  }

  // ---------- Bindings ----------

  /** Every binding names an account whose token file is present. */
  ghost predicate Agrees(entries: Entries, bindings: map<string, Record>) {
    forall id :: id in bindings ==> bindings[id].accountPath in Present(entries)
  }

  ghost predicate Trimmed(tokens: seq<Token>) { forall t :: t in tokens ==> Trim(t.path) == t.path }

  ghost predicate TrimmedPaths(entries: Entries) { forall p :: p in entries ==> Trim(p) == p }

  lemma EvictsAgrees(entries: Entries, before: map<string, Record>, after: map<string, Record>, max: nat)
    requires Agrees(entries, before) && Evicts(before, after, max)
    ensures Agrees(entries, after) && (max > 0 ==> |after| <= max)
  {
  }

  lemma StepAgrees(s: Settings, w: World, op: Op, w': World)
    requires Conserved(w.entries, w.leases) && Agrees(w.entries, w.bindings) && TrimmedPaths(w.entries)
    requires ByHolder(w, op) && (op.Reload? ==> s.affinity.Some? && Trimmed(op.tokens)) && Step(s, w, op, w')
    ensures Agrees(w'.entries, w'.bindings) && TrimmedPaths(w'.entries)
  {
    hide Conserved, Begun, Ended, Reloaded, Marked, Present, Evicts, Current, Unbound, Bound, ByPath, Trim;
    match op
    case Begin(path, now) => BeginConserves(w.entries, w.leases, path, now);
    case End(path) => EndConserves(w.entries, w.leases, path);
    case Reload(tokens, now) =>
      var kept := Current(w.bindings, s.affinity.value, Present(w'.entries), now);
      CurrentAgrees(s.affinity.value, w'.entries, w.bindings, now);
      EvictsAgrees(w'.entries, kept, w'.bindings, s.affinity.value.max);
      ReloadIsTrimmed(w.entries, tokens, now);
    case MarkAccount(path, mark) => MarkConserves(w.entries, w.leases, path, mark);
    case BindConversation(conversation, path, now) =>
      if Binds(s, w.entries, conversation, path) {
        BoundAgrees(s, w, conversation, path, now);
        EvictsAgrees(w.entries, Bound(w.bindings, s.affinity.value, conversation, path, now), w'.bindings,
                     s.affinity.value.max);
      }
    case ClearConversation(conversation) => if s.affinity.Some? { UnboundAgrees(s, w, conversation); }
  }

  lemma BoundAgrees(s: Settings, w: World, conversation: string, path: string, now: Time)
    requires Agrees(w.entries, w.bindings) && TrimmedPaths(w.entries) && Binds(s, w.entries, conversation, path)
    ensures Agrees(w.entries, Bound(w.bindings, s.affinity.value, conversation, path, now))
  {
    hide Trim;
  }

  lemma CurrentAgrees(policy: Policy, entries: Entries, bindings: map<string, Record>, now: Time)
    ensures Agrees(entries, Current(bindings, policy, Present(entries), now))
  {
  }

  lemma UnboundAgrees(s: Settings, w: World, conversation: string)
    requires Agrees(w.entries, w.bindings) && s.affinity.Some?
    ensures Agrees(w.entries, Unbound(w.bindings, s.affinity.value, conversation))
  {
  }

  /** Binding trims the account path that the pool looked up untrimmed: where the new binding
      is kept, the store still agrees with the pool exactly when the trimmed path is itself a
      present account. */
  lemma BindAgreesIff(s: Settings, w: World, op: Op, w': World)
    requires op.BindConversation? && Binds(s, w.entries, op.conversation, op.path)
    requires Agrees(w.entries, w.bindings) && Step(s, w, op, w')
    requires var id := s.affinity.value.normalize(op.conversation);
             id in w'.bindings && w'.bindings[id] == Record(Trim(op.path), op.now)
    ensures Agrees(w'.entries, w'.bindings) <==> Trim(op.path) in Present(w.entries)
  {
    hide Trim;
  }

  /** A conversation that an account was just bound to is found there, if the clock has moved on
      since every other binding was made; and one that was cleared is found nowhere. */
  lemma BoundIsFound(s: Settings, w: World, op: Op, w': World)
    requires op.BindConversation? && Step(s, w, op, w') && s.sticky && s.affinity.Some?
    requires op.path in w.entries && w.entries[op.path].codex && w.entries[op.path].tokenFilePresent
    requires s.affinity.value.normalize(op.conversation) != "" && Trim(op.path) != ""
    requires forall id :: id in w.bindings && id != s.affinity.value.normalize(op.conversation) ==>
               w.bindings[id].updatedAt < op.now
    ensures var id := s.affinity.value.normalize(op.conversation);
            id in w'.bindings && w'.bindings[id] == Record(Trim(op.path), op.now)
  {
    hide Trim, Evicts, Bound;
    NewestStays(w.bindings, s.affinity.value, op.conversation, op.path, op.now, w'.bindings);
  }

  lemma ClearedIsUnbound(s: Settings, w: World, op: Op, w': World)
    requires op.ClearConversation? && Step(s, w, op, w') && s.sticky && s.affinity.Some?
    ensures var id := s.affinity.value.normalize(op.conversation);
            && (id != "" ==> id !in w'.bindings)
            && forall other :: other != id && other in w.bindings ==>
                 other in w'.bindings && w'.bindings[other] == w.bindings[other]
  {
  }

  // ---------- Every run ----------

  /** A pool just built from tokens, its loaded bindings pruned. */
  ghost predicate Start(s: Settings, tokens: seq<Token>, now: Time, loaded: map<string, Record>, w: World) {
    && w.entries == Reloaded(map[], ByPath(tokens), now) && w.leases == multiset{}
    && (if s.affinity.None? then w.bindings == map[]
        else Evicts(Current(loaded, s.affinity.value, Present(w.entries), now), w.bindings, s.affinity.value.max))
  }

  ghost predicate IsRun(s: Settings, worlds: seq<World>, ops: seq<Op>) {
    && |worlds| == |ops| + 1
    && forall i :: 0 <= i < |ops| ==> ByHolder(worlds[i], ops[i]) && Step(s, worlds[i], ops[i], worlds[i + 1])
  }

  /** In every interleaving of holders, marks, bindings and reloads with any token sets, leases
      are conserved at every moment. */
  lemma {:induction false} LeasesAreConserved(s: Settings, tokens: seq<Token>, now: Time, loaded: map<string, Record>,
                                              worlds: seq<World>, ops: seq<Op>, n: nat)
    requires IsRun(s, worlds, ops) && Start(s, tokens, now, loaded, worlds[0]) && n < |worlds|
    ensures Conserved(worlds[n].entries, worlds[n].leases)
  {
    hide Step, Evicts, Current, ByPath;
    if n == 0 {
      ByPathKeys(tokens);
    } else {
      LeasesAreConserved(s, tokens, now, loaded, worlds, ops, n - 1);
      StepConserves(s, worlds[n - 1], ops[n - 1], worlds[n]);
    }
  }

  ghost predicate TrimmedOps(ops: seq<Op>) {
    forall i :: 0 <= i < |ops| && ops[i].Reload? ==> Trimmed(ops[i].tokens)
  }

  /** In the same runs, as long as no token file name has white space around it, every binding
      names a present account and there are never more than the maximum. */
  lemma {:induction false} BindingsAgreeWithPool(s: Settings, tokens: seq<Token>, now: Time,
                                                 loaded: map<string, Record>, worlds: seq<World>, ops: seq<Op>, n: nat)
    requires IsRun(s, worlds, ops) && Start(s, tokens, now, loaded, worlds[0]) && n < |worlds|
    requires s.affinity.Some? && s.affinity.value.max > 0 && Trimmed(tokens) && TrimmedOps(ops)
    ensures Agrees(worlds[n].entries, worlds[n].bindings) && TrimmedPaths(worlds[n].entries)
    ensures |worlds[n].bindings| <= s.affinity.value.max
  {
    hide Step, Evicts, Current, ByPath, Trim, Conserved, TrimmedPaths, Agrees;
    if n == 0 {
      var kept := Current(loaded, s.affinity.value, Present(worlds[0].entries), now);
      CurrentAgrees(s.affinity.value, worlds[0].entries, loaded, now);
      EvictsAgrees(worlds[0].entries, kept, worlds[0].bindings, s.affinity.value.max);
      assert TrimmedPaths(worlds[0].entries) by {
        assert TrimmedPaths(map[]) by { NoPaths(); }
        ReloadIsTrimmed(map[], tokens, now);
      }
    } else {
      BindingsAgreeWithPool(s, tokens, now, loaded, worlds, ops, n - 1);
      LeasesAreConserved(s, tokens, now, loaded, worlds, ops, n - 1);
      StepAgrees(s, worlds[n - 1], ops[n - 1], worlds[n]);
      StepKeepsBound(s, worlds[n - 1], ops[n - 1], worlds[n]);
    }
  }

  lemma ReloadIsTrimmed(entries: Entries, tokens: seq<Token>, now: Time)
    requires Trimmed(tokens) && TrimmedPaths(entries)
    ensures TrimmedPaths(Reloaded(entries, ByPath(tokens), now))
  {
    hide Trim, ByPath, Updated, Fresh;
    ByPathKeys(tokens);
  }

  lemma NoPaths()
    ensures TrimmedPaths(map[])
  {
  }

  lemma StepKeepsBound(s: Settings, w: World, op: Op, w': World)
    requires s.affinity.Some? && s.affinity.value.max > 0 && |w.bindings| <= s.affinity.value.max && Step(s, w, op, w')
    ensures |w'.bindings| <= s.affinity.value.max
  {
    hide Trim, ByPath, Bound, Current, Reloaded, Binds;
    if op.ClearConversation? { FewerKeys(w.bindings, s.affinity.value.normalize(op.conversation)); }
  }

  lemma FewerKeys(m: map<string, Record>, id: string)
    ensures |m - {id}| <= |m|
  {
    assert (m - {id}).Keys == m.Keys - {id};
    if id in m { assert |m.Keys - {id}| == |m.Keys| - 1; } else { assert m.Keys - {id} == m.Keys; }
  }

  // ---------- How long a mark lasts ----------

  predicate Suspends(mark: Mark) { mark.RateLimited? || mark.CoolingDown? || mark.Unhealthy? }

  /** The entry carries the mark. */
  predicate Carries(e: Entry, mark: Mark)
    requires Suspends(mark)
  {
    match mark
    case RateLimited(until) => e.rateLimitedUntil == until
    case CoolingDown(until) => e.cooldownUntil == until
    case Unhealthy(until) => !e.healthy && e.unhealthyUntil == until
    case _ => false
  }

  /** The step neither marks the account anew nor takes its token away; a rate limit may also be
      shortened by any reload. */
  ghost predicate LeavesMark(op: Op, path: string, mark: Mark) {
    && (op.MarkAccount? ==> op.path != path)
    && (op.Reload? ==> !mark.RateLimited? && path in ByPath(op.tokens))
  }

  lemma StepLeavesMark(s: Settings, w: World, op: Op, w': World, path: string, mark: Mark)
    requires Suspends(mark) && LeavesMark(op, path, mark) && Step(s, w, op, w')
    requires path in w.entries && w.entries[path].tokenFilePresent && Carries(w.entries[path], mark)
    ensures path in w'.entries && w'.entries[path].tokenFilePresent && Carries(w'.entries[path], mark)
  {
    hide ByPath, Evicts, Bound, Current, Unbound, Binds, Suppression, TokenExpired;
  }

  /** A mark lasts through every stretch of a run in which no step marks the account anew or takes
      its token away: until its time the account cannot serve, and from then on the mark makes no
      difference. */
  lemma {:induction false} MarkSuspendsUntil(s: Settings, worlds: seq<World>, ops: seq<Op>, i: nat, n: nat,
                                             path: string, mark: Mark, now: Time)
    requires IsRun(s, worlds, ops) && i < n < |worlds|
    requires Suspends(mark) && ops[i] == MarkAccount(path, mark) && now >= 0
    requires path in worlds[i].entries && worlds[i].entries[path].tokenFilePresent
    requires forall j :: i < j < n ==> LeavesMark(ops[j], path, mark)
    ensures path in worlds[n].entries && worlds[n].entries[path].tokenFilePresent
            && Carries(worlds[n].entries[path], mark)
    ensures var e := worlds[n].entries[path];
            && (now < mark.until ==> Defective(e, now))
            && (now >= mark.until ==> (Defective(e, now) <==> Defective(Lifted(e, mark), now)))
  {
    hide Step, LeavesMark, Carries, Defective, Lifted;
    if n == i + 1 {
      assert Step(s, worlds[i], ops[i], worlds[n]);
      MarkIsCarried(s, worlds[i], path, mark, worlds[n]);
    } else {
      MarkSuspendsUntil(s, worlds, ops, i, n - 1, path, mark, now);
      assert Step(s, worlds[n - 1], ops[n - 1], worlds[n]);
      StepLeavesMark(s, worlds[n - 1], ops[n - 1], worlds[n], path, mark);
    }
    CarriedSuspends(worlds[n].entries[path], mark, now);
  }

  /** The entry as it would be without the mark. */
  function Lifted(e: Entry, mark: Mark): Entry
    requires Suspends(mark)
  {
    match mark
    case RateLimited(_) => e.(rateLimitedUntil := 0)
    case CoolingDown(_) => e.(cooldownUntil := 0)
    case Unhealthy(_) => e.(healthy := true, unhealthyUntil := 0)
    case _ => e
  }

  lemma MarkIsCarried(s: Settings, w: World, path: string, mark: Mark, w': World)
    requires Suspends(mark) && path in w.entries && w.entries[path].tokenFilePresent
    requires Step(s, w, MarkAccount(path, mark), w')
    ensures path in w'.entries && w'.entries[path].tokenFilePresent && Carries(w'.entries[path], mark)
  {
  }

  lemma CarriedSuspends(e: Entry, mark: Mark, now: Time)
    requires Suspends(mark) && Carries(e, mark)
    ensures now < mark.until ==> Defective(e, now)
    ensures now >= mark.until && now >= 0 ==> (Defective(e, now) <==> Defective(Lifted(e, mark), now))
  {
  }

  // ---------- What a reload makes of the accounts ----------

  /** The token of an account is the last Codex token with its path. */
  lemma {:induction false} ByPathIsLast(tokens: seq<Token>, path: string)
    ensures path in ByPath(tokens) <==> exists i :: 0 <= i < |tokens| && tokens[i].codex && tokens[i].path == path
    ensures path in ByPath(tokens) ==>
              exists i ::
                && 0 <= i < |tokens| && tokens[i].codex && tokens[i].path == path && ByPath(tokens)[path] == tokens[i]
                          && forall j :: i < j < |tokens| && tokens[j].codex ==> tokens[j].path != path
  {
    if tokens != [] {
      var init, last := tokens[..|tokens| - 1], tokens[|tokens| - 1];
      ByPathIsLast(init, path);
      if last.codex && last.path == path {
        assert tokens[|tokens| - 1] == last;
      } else if path in ByPath(init) {
        var i :| && 0 <= i < |init| && init[i].codex && init[i].path == path && ByPath(init)[path] == init[i]
                 && forall j :: i < j < |init| && init[j].codex ==> init[j].path != path;
        assert tokens[i] == init[i];
        forall j | i < j < |tokens| && tokens[j].codex ensures tokens[j].path != path {
          if j < |init| { assert tokens[j] == init[j]; }
        }
      } else {
        forall i | 0 <= i < |tokens| && tokens[i].codex ensures tokens[i].path != path {
          if i < |init| { assert tokens[i] == init[i]; }
        }
      }
    }
  }

  /** The accounts of the token set are there after a reload, with their tokens, and no others. */
  lemma ReloadedArePresent(entries: Entries, tokens: seq<Token>, now: Time)
    ensures Present(Reloaded(entries, ByPath(tokens), now)) == ByPath(tokens).Keys
  {
    hide ByPath, Suppression, Persisted, TokenExpired;
    ByPathKeys(tokens);
  }

  /** After a reload an account of the token set cannot serve exactly if its token is disabled or has
      expired for good, or it was cooling down or unhealthy before, or its rate limit still holds:
      one that held before, unless the token names an earlier time, or else the token's. */
  lemma ReloadedUsability(entries: Entries, tokens: seq<Token>, now: Time, path: string, t: Time)
    requires path in ByPath(tokens) && 0 <= now <= t
    ensures var tok := ByPath(tokens)[path];
            var known := path in entries;
            var running := known && entries[path].rateLimitedUntil > now;
            Defective(Reloaded(entries, ByPath(tokens), now)[path], t) <==>
              || tok.disabled
              || (tok.expiry.Some? && tok.expiry.value != 0 && tok.expiry.value <= now && !tok.hasRefresh)
              || (known && entries[path].cooldownUntil > t)
              || (known && !entries[path].healthy && entries[path].unhealthyUntil > t)
              || (running && entries[path].rateLimitedUntil > t && (tok.limitReset.None? || tok.limitReset.value > t))
              || (!running && tok.limitReset.Some? && tok.limitReset.value > t)
  {
    hide ByPath;
    ByPathKeys(tokens);
  }

  // ---------- The pool ----------

  /** How a pool is configured; `matches` compares an account's names with a pinned selector. */
  datatype Options = Options(sticky: bool, softCap: real, errorCooldown: nat, matches: (seq<string>, string) -> bool)

  class AccountPool {
    const options: Options
    const affinity: AffinityStore?
    var entries: Entries
    ghost var leases: multiset<string>

    ghost function Setup(): Settings {
      Settings(options.sticky, if affinity == null then None else Some(affinity.policy))
    }

    ghost function State(): World reads this, affinity {
      World(entries, leases, if affinity == null then map[] else affinity.entries)
    }

    ghost predicate Valid() reads this {
      Conserved(entries, leases)
    }

    constructor (options: Options, affinity: AffinityStore?, tokens: seq<Token>, now: Time)
      modifies affinity
      ensures Valid() && this.options == options && this.affinity == affinity
      ensures Start(Setup(), tokens, now, if affinity == null then map[] else old(affinity.entries), State())
    {
      hide Evicts, Current, ByPath;
      this.options, this.affinity := options, affinity;
      entries, leases := map[], multiset{};
      new;
      SeedEntries(tokens, now);
      PruneAffinity(now);
    }

    method SeedEntries(tokens: seq<Token>, now: Time)
      requires entries == map[] && leases == multiset{}
      modifies this`entries
      ensures entries == Reloaded(map[], ByPath(tokens), now) && Valid()
    {
      hide Fresh, Updated;
      assert tokens[..0] == [];
      var k := 0;
      while k < |tokens|
        invariant 0 <= k <= |tokens| && entries == Reloaded(map[], ByPath(tokens[..k]), now)
      {
        assert tokens[..k + 1][..k] == tokens[..k];
        if tokens[k].codex { entries := entries[tokens[k].path := Fresh(tokens[k], now)]; }
        k := k + 1;
      }
      assert tokens[..k] == tokens;
      assert Conserved(map[], multiset{});
      ReloadConserves(map[], multiset{}, tokens, now);
    }

    method PruneAffinity(now: Time)
      modifies affinity
      ensures affinity != null ==>
                Evicts(Current(old(affinity.entries), affinity.policy, Present(entries), now), affinity.entries,
                       affinity.policy.max)
    {
      if affinity == null { return; }
      hide Evicts, Current;
      var valid := ValidPaths(entries);
      affinity.Prune(valid, now);
    }

    method Reload(tokens: seq<Token>, now: Time)
      requires Valid()
      modifies this, affinity
      ensures Valid() && Step(Setup(), old(State()), Op.Reload(tokens, now), State())
      ensures leases == old(leases)
    {
      hide Evicts, Current, Fresh, Updated;
      var newTokens := LatestTokens(tokens);
      ByPathKeys(tokens);
      ReloadConserves(entries, leases, tokens, now);
      entries := DropMissing(entries, newTokens);
      entries := AddOrUpdate(entries, newTokens, now, old(entries));
      PruneAffinity(now);
    }

    method Begin(path: string, now: Time) returns (ok: bool)
      requires Valid()
      modifies this
      ensures Valid() && Step(Setup(), old(State()), Op.Begin(path, now), State())
      ensures (ok <==> CanBegin(old(entries), path)) && (ok <==> CanBegin(entries, path))
      ensures leases == if ok then old(leases) + multiset{path} else old(leases)
    {
      hide Conserved;
      BeginConserves(entries, leases, path, now);
      if path !in entries { return false; }
      if !entries[path].tokenFilePresent { return false; }
      entries := entries[path := entries[path].(inFlight := entries[path].inFlight + 1, lastUsed := now)];
      leases := leases + multiset{path};
      ok := true;
    }

    /** Only a holder may call this. */
    method End(path: string)
      requires Valid() && path in leases
      modifies this
      ensures Valid() && Step(Setup(), old(State()), Op.End(path), State())
      ensures leases == old(leases) - multiset{path}
    {
      hide Conserved, Present, Reloaded, Marked, Begun, Binds, Bound, Unbound, Current, Evicts, ByPath;
      EndConserves(entries, leases, path);
      leases := leases - multiset{path};
      if path !in entries { return; }
      var inFlight := entries[path].inFlight - 1;
      if inFlight < 0 { inFlight := 0; }
      if inFlight == 0 && !entries[path].tokenFilePresent {
        entries := entries - {path};
      } else {
        entries := entries[path := entries[path].(inFlight := inFlight)];
      }
    }

    /** MarkRateLimited, MarkCooldown, MarkHealthy, ClearRateLimit and ClearCooldown. */
    method MarkAs(path: string, mark: Mark)
      requires Valid()
      modifies this
      ensures Valid() && Step(Setup(), old(State()), MarkAccount(path, mark), State())
      ensures leases == old(leases)
    {
      hide Conserved, WithMark;
      MarkConserves(entries, leases, path, mark);
      if path in entries { entries := entries[path := WithMark(entries[path], mark)]; }
    }

    method MarkUnhealthy(path: string, now: Time)
      requires Valid()
      modifies this
      ensures Valid() && Step(Setup(), old(State()), MarkAccount(path, Unhealthy(now + options.errorCooldown)), State())
      ensures leases == old(leases)
    {
      hide Step;
      MarkAs(path, Unhealthy(now + options.errorCooldown));
    }

    method BindConversation(conversation: string, path: string, now: Time)
      requires Valid()
      modifies affinity
      ensures Valid() && Step(Setup(), old(State()), Op.BindConversation(conversation, path, now), State())
    {
      hide Trim, Evicts, Conserved;
      if !options.sticky || affinity == null { return; }
      if path !in entries || !entries[path].codex || !entries[path].tokenFilePresent { return; }
      affinity.Bind(conversation, path, now);
    }

    method ClearConversation(conversation: string)
      requires Valid()
      modifies affinity
      ensures Valid() && Step(Setup(), old(State()), Op.ClearConversation(conversation), State())
    {
      if !options.sticky || affinity == null { return; }
      affinity.Unbind(conversation);
    }

    // ---------- Selection ----------

    ghost predicate Candidate(e: Entry, account: string, exclude: set<string>, now: Time) {
      Eligible(e, exclude, now) && (Trim(account) != "" ==> options.matches(e.names, account))
    }

    /** The soft cap prefers accounts under it, if there are any. */
    ghost predicate Preferred(e: Entry, account: string, exclude: set<string>, now: Time) reads this {
      && Candidate(e, account, exclude, now)
      && (options.softCap > 0.0 && e.used >= options.softCap ==>
            forall p :: p in entries && Candidate(entries[p], account, exclude, now) ==>
              entries[p].used >= options.softCap)
    }

    /** An eligible account outside `exclude`, pinned if asked, preferring those under the soft
        cap; none only if there is no candidate. A sticky conversation stays with its account
        while that is preferred, and otherwise gets one with the least quota used. */
    method Select(account: string, exclude: set<string>, conversation: string, now: Time) returns (r: Option<Entry>)
      requires Valid()
      ensures r.None? <==> forall p :: p in entries ==> !Candidate(entries[p], account, exclude, now)
      ensures r.Some? ==> r.value.path in entries && entries[r.value.path] == r.value
      ensures r.Some? ==> r.value.path !in exclude && Preferred(r.value, account, exclude, now)
      ensures r.Some? ==> !Defective(r.value, now)
      ensures r.None? <==>
                forall p :: p in entries ==>
                  Defective(entries[p], now) || p in exclude
                  || (Trim(account) != "" && !options.matches(entries[p].names, account))
      ensures r.Some? && options.sticky && Trim(conversation) != "" && affinity != null ==>
                var id := affinity.policy.normalize(conversation);
                if id != "" && id in affinity.entries && affinity.entries[id].accountPath in entries
                   && affinity.entries[id].accountPath != ""
                   && Preferred(entries[affinity.entries[id].accountPath], account, exclude, now)
                then r.value.path == affinity.entries[id].accountPath
                else forall p :: p in entries && Preferred(entries[p], account, exclude, now) ==>
                  r.value.used <= entries[p].used
    {
      hide Trim, Eligible, Defective;
      forall p | p in entries
        ensures Eligible(entries[p], exclude, now) <==> p !in exclude && !Defective(entries[p], now)
      {
        EligibleIffSound(entries[p], exclude, now);
      }
      var eligible := Candidates(account, exclude, now);
      if |eligible| == 0 { return None; }
      ghost var all := eligible;
      assert eligible[0] in eligible;
      eligible := FilterBySoftCap(eligible);
      assert forall e ::
               e in eligible <==> e.path in entries && entries[e.path] == e && Preferred(e, account, exclude, now) by {
        SoftCapPrefers(all, eligible, account, exclude, now);
      }
      assert forall e :: e in eligible ==> e.path !in exclude by { NotExcluded(eligible, account, exclude, now); }
      if options.sticky && Trim(conversation) != "" && affinity != null {
        var bound := affinity.Lookup(conversation);
        if bound != "" && bound !in exclude {
          var k := 0;
          while k < |eligible|
            invariant 0 <= k <= |eligible| && forall j :: 0 <= j < k ==> eligible[j].path != bound
          {
            if eligible[k].path == bound { return Some(eligible[k]); }
            k := k + 1;
          }
        }
        var picked := LeastUsed(eligible);
        return Some(picked);
      }
      var i: nat :| i < |eligible|;
      return Some(eligible[i]);
    }

    lemma NotExcluded(eligible: seq<Entry>, account: string, exclude: set<string>, now: Time)
      requires forall e :: e in eligible ==> Candidate(e, account, exclude, now)
      ensures forall e :: e in eligible ==> e.path !in exclude
    {
    }

    lemma SoftCapPrefers(all: seq<Entry>, kept: seq<Entry>, account: string, exclude: set<string>, now: Time)
      requires forall e ::
                 e in all <==> e.path in entries && entries[e.path] == e && Candidate(e, account, exclude, now)
      requires Valid()
      requires forall e :: e in kept <==> && e in all
                                          && (options.softCap > 0.0 && e.used >= options.softCap ==>
                                                forall f :: f in all ==> f.used >= options.softCap)
      ensures forall e ::
                e in kept <==> e.path in entries && entries[e.path] == e && Preferred(e, account, exclude, now)
    {
      hide Candidate;
      forall p | p in entries ensures entries[p].path == p { }
    }

    method Candidates(account: string, exclude: set<string>, now: Time) returns (found: seq<Entry>)
      requires Valid()
      ensures forall e ::
                e in found <==> e.path in entries && entries[e.path] == e && Candidate(e, account, exclude, now)
    {
      hide Trim, Eligible;
      found := [];
      var rest := entries.Keys;
      while rest != {}
        invariant rest <= entries.Keys
        invariant forall e :: e in found <==>
                    e.path in entries.Keys - rest && entries[e.path] == e && Candidate(e, account, exclude, now)
        decreases |rest|
      {
        ghost var some := Member(rest);
        var path :| path in rest;
        rest := rest - {path};
        var entry := entries[path];
        if Eligible(entry, exclude, now) {
          if Trim(account) == "" || options.matches(entry.names, account) { found := found + [entry]; }
        }
      }
    }

    method FilterBySoftCap(eligible: seq<Entry>) returns (kept: seq<Entry>)
      ensures forall e :: e in kept <==> && e in eligible
                                         && (options.softCap > 0.0 && e.used >= options.softCap ==>
                                               forall f :: f in eligible ==> f.used >= options.softCap)
    {
      if options.softCap <= 0.0 || |eligible| == 0 { return eligible; }
      var under := [];
      var k := 0;
      while k < |eligible|
        invariant 0 <= k <= |eligible|
        invariant forall e :: e in under <==> e in eligible[..k] && e.used < options.softCap
      {
        assert eligible[..k + 1] == eligible[..k] + [eligible[k]];
        if eligible[k].used < options.softCap { under := under + [eligible[k]]; }
        k := k + 1;
      }
      assert eligible[..k] == eligible;
      if |under| > 0 {
        assert under[0] in under;
        return under;
      }
      return eligible;
    }

    method LeastUsed(eligible: seq<Entry>) returns (least: Entry)
      requires eligible != []
      ensures least in eligible && forall e :: e in eligible ==> least.used <= e.used
    {
      least := eligible[0];
      var k := 1;
      while k < |eligible|
        invariant 1 <= k <= |eligible| && least in eligible
        invariant forall j :: 0 <= j < k ==> least.used <= eligible[j].used
      {
        if eligible[k].used < least.used { least := eligible[k]; }
        k := k + 1;
      }
    }
  }

  // ---------- The two loops of a reload ----------

  /** The entries once the paths in `done` have been looked at. */
  ghost function Remaining(entries: Entries, paths: set<string>, done: set<string>): Entries {
    map p | p in entries && (p !in done || p in paths || entries[p].inFlight > 0) ::
      if p !in done || p in paths then entries[p] else entries[p].(tokenFilePresent := false)
  }

  lemma LookAt(entries: Entries, paths: set<string>, done: set<string>, path: string)
    requires path in entries && path !in done
    ensures var kept := Remaining(entries, paths, done);
            && path in kept && kept[path] == entries[path]
            && Remaining(entries, paths, done + {path}) ==
                 if path in paths then kept
                 else if entries[path].inFlight > 0 then kept[path := entries[path].(tokenFilePresent := false)]
                 else kept - {path}
  {
  }

  lemma NothingLookedAt(entries: Entries, paths: set<string>)
    ensures Remaining(entries, paths, {}) == entries
  {
  }

  /** Entries without a token go, or stay as tombstones while they are leased. */
  method DropMissing(entries: Entries, newTokens: map<string, Token>) returns (kept: Entries)
    ensures kept == Remaining(entries, newTokens.Keys, entries.Keys)
  {
    hide Remaining;
    kept := entries;
    var rest := entries.Keys;
    NothingLookedAt(entries, newTokens.Keys);
    assert entries.Keys - rest == {};
    while rest != {}
      invariant rest <= entries.Keys && kept == Remaining(entries, newTokens.Keys, entries.Keys - rest)
      decreases |rest|
    {
      ghost var some := Member(rest);
      var path :| path in rest;
      ghost var done := entries.Keys - rest;
      LookAt(entries, newTokens.Keys, done, path);
      rest := rest - {path};
      assert entries.Keys - rest == done + {path};
      if path !in newTokens {
        if kept[path].inFlight > 0 {
          kept := kept[path := kept[path].(tokenFilePresent := false)];
        } else {
          kept := kept - {path};
        }
      }
    }
    assert entries.Keys - rest == entries.Keys;
  }

  /** The reloaded entries, where only the tokens in `done` have been taken. */
  ghost function Taken(entries: Entries, tokens: map<string, Token>, now: Time, done: set<string>): Entries {
    map p | p in Reloaded(entries, tokens, now) && (p in entries || p in done) ::
      if p in tokens && p !in done then entries[p] else Reloaded(entries, tokens, now)[p]
  }

  lemma Take(entries: Entries, tokens: map<string, Token>, now: Time, done: set<string>, path: string)
    requires path in tokens && path !in done
    ensures var so := Taken(entries, tokens, now, done);
            && (path in so <==> path in entries) && (path in entries ==> so[path] == entries[path])
            && Taken(entries, tokens, now, done + {path}) ==
                 so[path := if path in entries then Updated(entries[path], tokens[path], now)
                            else Fresh(tokens[path], now)]
  {
    hide Fresh, Updated;
  }

  lemma TakeBounds(entries: Entries, tokens: map<string, Token>, now: Time)
    ensures Taken(entries, tokens, now, {}) == Remaining(entries, tokens.Keys, entries.Keys)
    ensures Taken(entries, tokens, now, tokens.Keys) == Reloaded(entries, tokens, now)
  {
    hide Fresh, Updated;
  }

  method AddOrUpdate(kept: Entries, newTokens: map<string, Token>, now: Time, ghost before: Entries)
    returns (entries: Entries)
    requires kept == Remaining(before, newTokens.Keys, before.Keys)
    ensures entries == Reloaded(before, newTokens, now)
  {
    hide Fresh, Updated, Taken, Remaining, Reloaded;
    TakeBounds(before, newTokens, now);
    entries := kept;
    var rest := newTokens.Keys;
    assert newTokens.Keys - rest == {};
    while rest != {}
      invariant rest <= newTokens.Keys && entries == Taken(before, newTokens, now, newTokens.Keys - rest)
      decreases |rest|
    {
      ghost var some := Member(rest);
      var path :| path in rest;
      ghost var done := newTokens.Keys - rest;
      Take(before, newTokens, now, done, path);
      rest := rest - {path};
      assert newTokens.Keys - rest == done + {path};
      if path in entries {
        entries := entries[path := Updated(entries[path], newTokens[path], now)];
      } else {
        entries := entries[path := Fresh(newTokens[path], now)];
      }
    }
    assert newTokens.Keys - rest == newTokens.Keys;
  }

  method ValidPaths(entries: Entries) returns (valid: set<string>)
    ensures valid == Present(entries)
  {
    valid := {};
    var rest := entries.Keys;
    while rest != {}
      invariant rest <= entries.Keys && valid == Present(entries) - rest
      decreases |rest|
    {
      ghost var some := Member(rest);
      var path :| path in rest;
      rest := rest - {path};
      if entries[path].codex && entries[path].tokenFilePresent { valid := valid + {path}; }
    }
  }

  method LatestTokens(tokens: seq<Token>) returns (byPath: map<string, Token>)
    ensures byPath == ByPath(tokens)
  {
    byPath := map[];
    var k := 0;
    while k < |tokens|
      invariant 0 <= k <= |tokens| && byPath == ByPath(tokens[..k])
    {
      assert tokens[..k + 1][..k] == tokens[..k];
      if tokens[k].codex { byPath := byPath[tokens[k].path := tokens[k]]; }
      k := k + 1;
    }
    assert tokens[..k] == tokens;
  }
}
