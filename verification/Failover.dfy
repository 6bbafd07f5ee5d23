/** The failover handler of a Codex request: it leases one account after another from the
    shared pool, sends the request, and answers the client. Other requests and the token
    watcher use the same pool between any two of its steps. */
module Failover {
  import opened Basics
  import opened Affinity
  import opened AccountPool

  // ---------- What the handler does, as a log ----------

  datatype Answer = Streamed | Translated | UpstreamError | ConfigurationError | Unavailable | Relayed(status: int)

  /** How far a lease has come: nothing tried yet; the token loaded, then refreshed where needed, the
      request built, or which of these failed; sent; answered by upstream. After a failed refresh or a
      failed send the handler looks whether the client is still there: if so the refresh or the
      request counts as lost, otherwise the lease is abandoned. */
  datatype Stage =
    | Ready | Loaded | Renewed | Built
    | NotLoaded | NotRefreshed | NotBuilt
    | Waiting | Got(status: int)
    | RefreshLost | LostInTransport | Abandoned

  /** How far the body of a success has come that is not streamed. */
  datatype Body = Unread | Unreadable | Read | Parsed | Unparsed

  /** What the handler does, and what it hears from the calls it makes. */
  datatype Act =
    | Selected(path: string)
    | Exhausted(entries: Entries, now: Time)   // the pool, without any candidate
    | Gone(path: string)                       // no longer there when the lease was asked for
    | Began(path: string)
    | TokenLoaded(path: string, ok: bool)
    | TokenRefreshed(path: string, ok: bool)
    | RequestBuilt(path: string, ok: bool)
    | Sent(path: string)
    | Received(path: string, status: int)
    | LookedForClient(gone: bool)
    | Replaying(path: string)                  // after a 401 or 403, once more on the same account
    | Bound(path: string)
    | BodyRead(path: string, ok: bool)
    | BodyParsed(path: string, ok: bool)
    | Ended(path: string)
    | MarkedAs(path: string, mark: Mark)
    | Examined(stripped: bool, blamed: bool, changed: bool)   // whether reasoning items are to blame
    | Cleared                                  // the conversation's binding is dropped
    | Stripped                                 // reasoning items were taken out of the payload
    | Answered(answer: Answer)

  datatype Phase =
    | Free
    | Chosen(path: string)
    | Held(path: string, stage: Stage, replaying: bool, bound: bool, body: Body)
    | Left(account: string, outcome: Stage, afterReplay: bool, rest: Body)   // returned, not yet acted upon
    | Weighed(status: int, mayStrip: bool)
    | Refused(status: int)                                                   // about to be relayed
    | Spent                                                                  // no candidate is left

  datatype Track = Broken | Track(phase: Phase, answered: bool)

  predicate Success(status: int) { 200 <= status < 300 }

  predicate Unauthorized(status: int) { status == 401 || status == 403 }

  predicate Retryable(status: int) { status == 429 || status >= 500 }

  /** A refusal that may blame reasoning items; `blamed` says that the body names them. */
  predicate StripEligible(status: int, blamed: bool) {
    400 <= status < 500 && (status in {401, 403, 407, 429} ==> blamed)
  }

  predicate Holds(phase: Phase, path: string) { phase.Held? && phase.path == path }

  predicate Succeeded(phase: Phase) {
    || (phase.Held? && phase.stage.Got? && Success(phase.stage.status))
    || (phase.Left? && phase.outcome.Got? && Success(phase.outcome.status))
  }

  /** Something has come of the lease. */
  predicate Concluded(stage: Stage) { !(stage.Ready? || stage.Loaded? || stage.Renewed? || stage.Built?) }

  /** A lease is returned only after something has come of it; on success not before the
      conversation is bound and the client is answered or the body read. */
  predicate MayRelease(t: Track) {
    && t.Track? && t.phase.Held? && Concluded(t.phase.stage)
    && (Succeeded(t.phase) ==> t.phase.bound && (t.answered || t.phase.body.Read?))
  }

  /** The mark that an account gets for how its lease ended. */
  predicate DueMark(stage: Stage, replaying: bool, mark: Mark) {
    match stage
    case NotLoaded => mark.Unhealthy?
    case RefreshLost => mark.Unhealthy?
    case NotBuilt => replaying && mark.Unhealthy?
    case LostInTransport => if replaying then mark.Unhealthy? else mark.CoolingDown?
    case Got(status) =>
      if Success(status) then false
      else if replaying then mark.Unhealthy?
      else if status == 429 then mark.RateLimited?
      else status >= 500 && mark.CoolingDown?
    case _ => false
  }

  /** A refresh or a send has failed. */
  predicate MayLook(phase: Phase) {
    || (phase.Held? && phase.stage.Waiting?)
    || (phase.Left? && (phase.outcome.NotRefreshed? || phase.outcome.Waiting?))
  }

  function Looked(phase: Phase, gone: bool): Phase {
    match phase
    case Held(_, _, _, _, _) => phase.(stage := if gone then Abandoned else LostInTransport)
    case Left(_, outcome, _, _) =>
      phase.(outcome := if gone then Abandoned else if outcome.NotRefreshed? then RefreshLost else LostInTransport)
    case _ => phase
  }

  /** The first send of a lease has failed. */
  predicate FirstSendFailed(phase: Phase) {
    || (phase.Held? && phase.stage.Waiting? && !phase.replaying)
    || (phase.Left? && phase.outcome.Waiting? && !phase.afterReplay)
  }

  /** A refusal that says nothing about the account. */
  predicate RefusedForGood(phase: Phase) {
    && phase.Left? && !phase.afterReplay && phase.outcome.Got? && !Success(phase.outcome.status)
    && !Unauthorized(phase.outcome.status) && !Retryable(phase.outcome.status)
  }

  predicate MayAnswer(phase: Phase, answer: Answer) {
    match answer
    case Streamed => phase.Held? && Succeeded(phase) && phase.bound && phase.body.Unread?
    case Translated => phase.Left? && phase.rest.Parsed?
    case UpstreamError => (phase.Held? && phase.body.Unreadable?) || (phase.Left? && phase.rest.Unparsed?)
    case ConfigurationError => phase.Left? && phase.outcome.NotBuilt? && !phase.afterReplay
    case Unavailable => phase.Free? || phase.Spent?
    case Relayed(status) =>
      || phase.Free? || phase.Spent? || phase == Refused(status)
      || (phase.Left? && !phase.afterReplay && phase.outcome == Got(status) && Unauthorized(status))
  }

  /** The lease protocol: one account at a time; token, request and send in this order; every outcome
      answered by its own mark, binding, clearing or reply; nothing but the return of a lease after
      the answer. */
  function Advance(t: Track, act: Act): Track {
    if t.Broken? || (t.answered && !act.Ended?) then Broken
    else match act
      case Selected(p) => if t.phase.Free? then t.(phase := Chosen(p)) else Broken
      case Exhausted(_, _) => if t.phase.Free? then t.(phase := Spent) else Broken
      case Gone(p) => if t.phase == Chosen(p) then t.(phase := Free) else Broken
      case Began(p) => if t.phase == Chosen(p) then t.(phase := Lease(p, Ready, false)) else Broken
      case TokenLoaded(p, ok) => OnStage(t, p, Ready, if ok then Loaded else NotLoaded)
      case TokenRefreshed(p, ok) => OnStage(t, p, Loaded, if ok then Renewed else NotRefreshed)
      case RequestBuilt(p, ok) => OnStage(t, p, Renewed, if ok then Built else NotBuilt)
      case Sent(p) => OnStage(t, p, Built, Waiting)
      case Received(p, status) => OnStage(t, p, Waiting, Got(status))
      case LookedForClient(gone) => if MayLook(t.phase) then t.(phase := Looked(t.phase, gone)) else Broken
      case Replaying(p) =>
        if Holds(t.phase, p) && !t.phase.replaying && t.phase.stage.Got? && Unauthorized(t.phase.stage.status)
        then t.(phase := t.phase.(stage := Loaded, replaying := true)) else Broken
      case Bound(p) =>
        if Holds(t.phase, p) && Succeeded(t.phase) && !t.phase.bound then t.(phase := t.phase.(bound := true))
        else Broken
      case BodyRead(p, ok) =>
        if Holds(t.phase, p) && Succeeded(t.phase) && t.phase.bound && t.phase.body.Unread?
        then t.(phase := t.phase.(body := if ok then Read else Unreadable)) else Broken
      case BodyParsed(p, ok) =>
        if t.phase.Left? && t.phase.account == p && t.phase.rest.Read?
        then t.(phase := t.phase.(rest := if ok then Parsed else Unparsed)) else Broken
      case Ended(p) =>
        if Holds(t.phase, p) && MayRelease(t)
        then t.(phase := Left(p, t.phase.stage, t.phase.replaying, t.phase.body)) else Broken
      case MarkedAs(p, mark) =>
        if t.phase.Left? && t.phase.account == p && DueMark(t.phase.outcome, t.phase.afterReplay, mark)
        then t.(phase := Free) else Broken
      case Examined(stripped, blamed, changed) =>
        if RefusedForGood(t.phase)
        then t.(phase := Weighed(t.phase.outcome.status,
                                 !stripped && changed && StripEligible(t.phase.outcome.status, blamed)))
        else Broken
      case Cleared =>
        if t.phase.Weighed? && !t.phase.mayStrip then t.(phase := Refused(t.phase.status)) else Broken
      case Stripped => if t.phase.Weighed? && t.phase.mayStrip then t.(phase := Free) else Broken
      case Answered(answer) => if MayAnswer(t.phase, answer) then t.(answered := true) else Broken
  }

  function Lease(path: string, stage: Stage, replaying: bool): Phase { Held(path, stage, replaying, false, Unread) }

  function OnStage(t: Track, path: string, from: Stage, to: Stage): Track
    requires t.Track?
  {
    if Holds(t.phase, path) && t.phase.stage == from then t.(phase := t.phase.(stage := to)) else Broken
  }

  /** What a log adds up to: how often each account was leased and returned, how many requests were
      sent, how often the payload was stripped, which accounts were tried in vain and which of them
      were gone, what was answered, and the status to relay when nothing is left to try: the last
      one received, or 502 after a first send was lost. */
  datatype Tally = Tally(track: Track, sends: nat, strips: nat, begins: multiset<string>, ends: multiset<string>,
                         tried: set<string>, gone: set<string>, answers: seq<Answer>, lastStatus: int)

  function Count(t: Tally, act: Act): Tally {
    var next := t.(track := Advance(t.track, act));
    match act
    case Began(p) => next.(begins := t.begins + multiset{p})
    case Gone(p) => next.(tried := t.tried + {p}, gone := t.gone + {p})
    case MarkedAs(p, _) => next.(tried := t.tried + {p})
    case Ended(p) => next.(ends := t.ends + multiset{p})
    case Sent(_) => next.(sends := t.sends + 1)
    case Received(_, status) => next.(lastStatus := status)
    case LookedForClient(gone) =>
      if t.track.Track? && FirstSendFailed(t.track.phase) && !gone then next.(lastStatus := 502) else next
    case Stripped => next.(strips := t.strips + 1)
    case Answered(answer) => next.(answers := t.answers + [answer])
    case _ => next
  }

  function TallyOf(log: seq<Act>): Tally {
    if log == [] then Tally(Track(Free, false), 0, 0, multiset{}, multiset{}, {}, {}, [], 0)
    else Count(TallyOf(log[..|log| - 1]), log[|log| - 1])
  }

  function TrackOf(log: seq<Act>): Track { TallyOf(log).track }

  lemma LogSnoc(log: seq<Act>, act: Act)
    ensures TallyOf(log + [act]) == Count(TallyOf(log), act)
  {
    assert (log + [act])[..|log|] == log;
  }

  lemma EndedTrack(t: Track, path: string)
    requires t.Track? && Holds(t.phase, path) && MayRelease(t)
    ensures Advance(t, Ended(path)) == Track(Left(path, t.phase.stage, t.phase.replaying, t.phase.body), t.answered)
    ensures Holding(t.phase) == multiset{path}
    ensures Holding(Left(path, t.phase.stage, t.phase.replaying, t.phase.body)) == multiset{}
  {
  }

  lemma CountEnded(t: Tally, path: string)
    ensures Count(t, Ended(path)) == t.(track := Advance(t.track, Ended(path)), ends := t.ends + multiset{path})
  {
    hide Advance;
  }

  // ---------- What the protocol means ----------

  function Holding(phase: Phase): multiset<string> {
    if phase.Held? then multiset{phase.path} else multiset{}
  }

  /** Every lease taken has been returned, except the one held; nothing is answered twice. */
  ghost predicate Balanced(t: Tally) {
    !t.track.Broken? && t.begins == t.ends + Holding(t.track.phase) && |t.answers| == if t.track.answered then 1 else 0
  }

  lemma ProtocolStep(t: Track, act: Act)
    requires !Advance(t, act).Broken?
    ensures !t.Broken? && (t.answered ==> act.Ended?)
    ensures Advance(t, act).answered == (t.answered || act.Answered?)
    ensures match act
            case Began(p) => t.phase == Chosen(p) && Holding(t.phase) == multiset{}
                             && Holding(Advance(t, act).phase) == multiset{p}
            case Ended(p) => Holding(t.phase) == multiset{p} && Holding(Advance(t, act).phase) == multiset{}
            case _ => Holding(Advance(t, act).phase) == Holding(t.phase)
  {
  }

  /** Which status leads to what. */
  lemma StatusDecides(t: Track, act: Act)
    requires !Advance(t, act).Broken?
    ensures match act
            case Bound(p) => t.phase.Held? && t.phase.stage.Got? && 200 <= t.phase.stage.status <= 299
            case Replaying(p) => t.phase.stage in {Got(401), Got(403)} && !t.phase.replaying
            case Ended(p) =>
              var stage := t.phase.stage;
              stage.Got? && 200 <= stage.status <= 299 ==> t.phase.bound && (t.answered || t.phase.body.Read?)
            case MarkedAs(p, mark) =>
              var Left(path, outcome, afterReplay, _) := t.phase;
              && p == path
              && (mark.RateLimited? ==> !afterReplay && outcome == Got(429))
              && (mark.CoolingDown? ==>
                    !afterReplay && (outcome.LostInTransport? || (outcome.Got? && outcome.status >= 500)))
              && (mark.Unhealthy? ==>
                    || outcome.NotLoaded? || outcome.RefreshLost?
                    || (afterReplay && (outcome.NotBuilt? || outcome.LostInTransport?
                                        || (outcome.Got? && !(200 <= outcome.status <= 299)))))
              && (mark.RateLimited? || mark.CoolingDown? || mark.Unhealthy?)
            case Examined(stripped, blamed, changed) =>
              t.phase.Left? && !t.phase.afterReplay && t.phase.outcome.Got?
              && var status := t.phase.outcome.status;
                 && status < 500 && !(200 <= status <= 299) && status !in {401, 403, 429}
                 && Advance(t, act).phase ==
                      Weighed(status, !stripped && changed && 400 <= status && (status == 407 ==> blamed))
            case Answered(Streamed) => t.phase.stage.Got? && 200 <= t.phase.stage.status <= 299
            case Answered(Relayed(status)) =>
              || t.phase.Free? || t.phase.Spent? || t.phase == Refused(status)
              || (t.phase.Left? && !t.phase.afterReplay && t.phase.outcome == Got(status) && status in {401, 403})
            case _ => true
  {
  }

  lemma {:induction false} ProtocolBalances(log: seq<Act>)
    requires !TrackOf(log).Broken?
    ensures Balanced(TallyOf(log))
  {
    hide Advance, Holding;
    if log == [] {
      assert Holding(Free) == multiset{} by { FreeHoldsNothing(); }
    } else {
      var init, act := log[..|log| - 1], log[|log| - 1];
      ProtocolStep(TrackOf(init), act);
      ProtocolBalances(init);
      assert Holding(Free) == multiset{} by { FreeHoldsNothing(); }
    }
  }

  lemma FreeHoldsNothing()
    ensures Holding(Free) == multiset{}
  {
  }

  // ---------- The handler ----------

  lemma TakeAway(others: multiset<string>, mine: multiset<string>, path: string)
    requires path in others
    ensures path in others + mine && others + mine - multiset{path} == others - multiset{path} + mine
  {
  }

  lemma GiveBack(others: multiset<string>, path: string)
    ensures path in others + multiset{path} && others + multiset{path} - multiset{path} == others + multiset{}
  {
  }

  lemma ChosenHoldsNothing(path: string, others: multiset<string>)
    ensures Holding(Chosen(path)) == multiset{} && others + multiset{} == others
  {
  }

  /** How an attempt ended; the status is what to relay if nothing better comes. */
  datatype Verdict = Finish | TryNext(requested: bool, status: int) | Retry(status: int)

  /** What an account gets for how its lease ended; a rate limit lasts until a time upstream named. */
  datatype Penalty = Sick | Cooling | Limited(until: Time)

  datatype Request = Request(account: string, conversation: string, stream: bool, maxFailovers: nat, errorCooldown: nat)

  /** Only the protocol state changed, and what was returned. */
  ghost predicate SameButTrack(t: Tally, u: Tally) { u == t.(track := u.track, ends := u.ends) }

  ghost predicate Dropped(t: Tally, u: Tally, path: string) {
    u == t.(track := u.track, ends := u.ends, tried := t.tried + {path})
  }

  ghost predicate Leased(t: Tally, u: Tally, path: string) {
    u == t.(track := u.track, begins := t.begins + multiset{path})
  }

  ghost predicate Vanished(t: Tally, u: Tally, path: string) {
    u == t.(track := u.track, tried := t.tried + {path}, gone := t.gone + {path})
  }

  /** After an attempt on `path` that left the client unanswered, with the lease returned: from `t` the
      log has come to `u`, `status` is what to relay if nothing better comes. */
  ghost predicate Moved(t: Tally, u: Tally, maxSends: nat, requested: bool, status: int, path: string) {
    && u.track == Track(Free, false) && u.begins == t.begins && u.strips == t.strips && u.answers == t.answers
    && u.tried == t.tried + {path} && u.gone == t.gone
    && t.sends <= u.sends <= t.sends + maxSends
    && requested == (u.sends > t.sends)
    && (if requested then status == u.lastStatus else u.lastStatus == t.lastStatus)
  }

  /** After an attempt that stripped the payload, so that the same account may be tried again. */
  ghost predicate Reset(t: Tally, u: Tally, status: int) {
    && u.track == Track(Free, false) && u.begins == t.begins && u.strips == t.strips + 1 && u.answers == t.answers
    && u.tried == t.tried && u.gone == t.gone && u.sends == t.sends + 1 && status == u.lastStatus
  }

  /** What holds whenever another account is about to be selected. */
  ghost predicate Trying(t: Tally, attempt: nat, authReplayed: set<string>, stripped: bool, hadUpstreamAttempt: bool,
                         lastStatus: int)
  {
    && t.answers == [] && authReplayed <= t.tried && |t.tried| == attempt
    && hadUpstreamAttempt == (t.sends > 0) && (hadUpstreamAttempt ==> lastStatus == t.lastStatus)
    && t.strips == (if stripped then 1 else 0) && t.sends <= 2 * attempt + t.strips
    && (forall p :: t.begins[p] <= (if p in t.tried then 1 else 0) + t.strips)
    && t.gone <= t.tried && (t.begins == multiset{} ==> t.gone == t.tried && t.strips == 0)
  }

  lemma NextAccount(t: Tally, before: Tally, u: Tally, attempt: nat, authReplayed: set<string>, stripped: bool,
                    had: bool, last: int, path: string, replayed: bool, requested: bool, status: int)
    requires Trying(t, attempt, authReplayed, stripped, had, last) && path !in t.tried
    requires Leased(t, before, path) && Moved(before, u, 2, requested, status, path)
    ensures Trying(u, attempt + 1, if replayed then authReplayed + {path} else authReplayed, stripped,
                   had || requested, if requested then status else last)
    ensures u.tried == t.tried + {path}
  {
    assert path in u.begins;
  }

  lemma NextWithoutLease(t: Tally, u: Tally, attempt: nat, authReplayed: set<string>, stripped: bool, had: bool,
                         last: int, path: string)
    requires Trying(t, attempt, authReplayed, stripped, had, last) && path !in t.tried
    requires Vanished(t, u, path)
    ensures Trying(u, attempt + 1, authReplayed, stripped, had, last) && u.tried == t.tried + {path}
  {
  }

  lemma SameAccountAgain(t: Tally, before: Tally, u: Tally, attempt: nat, authReplayed: set<string>, had: bool,
                         last: int, path: string, status: int)
    requires Trying(t, attempt, authReplayed, false, had, last) && path !in t.tried
    requires Leased(t, before, path) && Reset(before, u, status)
    ensures Trying(u, attempt, authReplayed, true, true, status) && u.tried == t.tried
  {
    assert path in u.begins;
  }

  class Handler {
    const pool: AccountPool
    const request: Request
    var log: seq<Act>
    /** The client has gone away; it does not come back. */
    var cancelled: bool
    /** What everyone else holds. */
    var others: multiset<string>
    var clock: Time

    constructor (pool: AccountPool, request: Request, others: multiset<string>, now: Time)
      requires pool.Valid() && pool.leases == others
      ensures this.pool == pool && this.request == request && log == [] && !cancelled && this.others == others
      ensures clock == now
    {
      this.pool, this.request, this.log, this.cancelled, this.others := pool, request, [], false, others;
      this.clock := now;
    }

    ghost function Phase(): Phase reads `log {
      if TrackOf(log).Broken? then Free else TrackOf(log).phase
    }

    /** The pool is sound, and this handler's leases are exactly those its log says it holds. */
    ghost predicate Valid() reads `log, `others, pool {
      && pool.Valid() && !TrackOf(log).Broken?
      && pool.leases == others + Holding(Phase())
    }

    ghost predicate Running(phase: Phase) reads `log, `others, pool {
      Valid() && TrackOf(log) == Track(phase, false)
    }

    method Note(act: Act)
      requires Valid() && !act.Began? && !act.Ended? && !Advance(TrackOf(log), act).Broken?
      modifies this`log
      ensures Valid() && log == old(log) + [act] && TallyOf(log) == Count(TallyOf(old(log)), act)
    {
      hide TallyOf, Advance, Holding, Conserved;
      LogSnoc(log, act);
      ProtocolStep(TrackOf(log), act);
      log := log + [act];
    }

    /** Any number of steps of other requests and of the watcher, while the clock moves on. */
    method Interfere()
      requires Valid()
      modifies pool, pool.affinity, this`others, this`clock
      ensures Valid() && clock >= old(clock)
    {
      hide *;
      var steps, passed: nat := *, *;
      clock := clock + passed;
      while steps > 0
        invariant Valid() && clock >= old(clock)
        decreases steps
      {
        if {
          case true => OthersBegin();
          case true => OthersEnd();
          case true => OthersReload();
          case true => OthersBind();
        }
        steps := steps - 1;
      }
    }

    method OthersBegin()
      requires Valid()
      modifies pool, this`others
      ensures Valid()
    {
      hide TallyOf, Step, Conserved, CanBegin;
      var path: string, now: Time := *, *;
      var ok := pool.Begin(path, now);
      if ok { others := others + multiset{path}; }
    }

    method OthersEnd()
      requires Valid()
      modifies pool, this`others
      ensures Valid()
    {
      hide TallyOf, Step, Conserved;
      var path: string := *;
      if path in others {
        TakeAway(others, Holding(Phase()), path);
        pool.End(path);
        others := others - multiset{path};
      }
    }

    method OthersReload()
      requires Valid()
      modifies pool, pool.affinity
      ensures Valid()
    {
      hide TallyOf, Step, Conserved;
      var path: string, mark: Mark, tokens: seq<Token>, now: Time := *, *, *, *;
      if
      case true => pool.Reload(tokens, now);
      case true => pool.MarkAs(path, mark);
    }

    method OthersBind()
      requires Valid()
      modifies pool.affinity
      ensures Valid()
    {
      hide TallyOf, Step, Conserved;
      var path: string, conversation: string, now: Time := *, *, *;
      if
      case true => pool.BindConversation(conversation, path, now);
      case true => pool.ClearConversation(conversation);
    }

    // ---------- One step each ----------

    /** Whether the client has gone away by now. */
    method ContextDone() returns (done: bool)
      requires Valid() && !TrackOf(log).answered && MayLook(Phase())
      modifies this`log, this`cancelled
      ensures done == cancelled && (old(cancelled) ==> cancelled)
      ensures Running(Looked(old(Phase()), done)) && log == old(log) + [LookedForClient(done)]
      ensures var t := old(TallyOf(log));
              TallyOf(log) == t.(track := TrackOf(log),
                                 lastStatus := if !done && FirstSendFailed(old(Phase())) then 502 else t.lastStatus)
    {
      hide TallyOf, Conserved, Holding;
      var left := *;
      if left { cancelled := true; }
      done := cancelled;
      Note(LookedForClient(done));
    }

    method Acquire(path: string) returns (ok: bool)
      requires Running(Chosen(path))
      modifies pool, pool.affinity, this`others, this`clock, this`log
      ensures Running(if ok then Lease(path, Ready, false) else Free) && (ok <==> CanBegin(pool.entries, path))
      ensures if ok then Leased(old(TallyOf(log)), TallyOf(log), path)
              else Vanished(old(TallyOf(log)), TallyOf(log), path)
      ensures TallyOf(log).answers == old(TallyOf(log)).answers
    {
      hide TallyOf, Conserved, Step, CanBegin, Advance, Holding, Count;
      Interfere();
      ChosenHoldsNothing(path, others);
      ok := pool.Begin(path, clock);
      if ok { NoteBegan(path); } else { NoteGone(path); }
    }

    method NoteBegan(path: string)
      requires pool.Valid() && TrackOf(log) == Track(Chosen(path), false) && pool.leases == others + multiset{path}
      modifies this`log
      ensures Running(Lease(path, Ready, false))
      ensures Leased(old(TallyOf(log)), TallyOf(log), path)
    {
      hide TallyOf, Conserved;
      LogSnoc(log, Began(path));
      log := log + [Began(path)];
    }

    method NoteGone(path: string)
      requires Running(Chosen(path))
      modifies this`log
      ensures Running(Free)
      ensures Vanished(old(TallyOf(log)), TallyOf(log), path)
    {
      hide TallyOf, Conserved;
      Note(Gone(path));
    }

    method Release(path: string)
      requires Valid() && Holds(Phase(), path) && MayRelease(TrackOf(log))
      modifies pool, pool.affinity, this`others, this`clock, this`log
      ensures Valid() && log == old(log) + [Ended(path)]
      ensures TrackOf(log) == Track(Left(path, old(Phase()).stage, old(Phase()).replaying, old(Phase()).body),
                                    old(TrackOf(log)).answered)
      ensures SameButTrack(old(TallyOf(log)), TallyOf(log))
    {
      hide TallyOf, Step, Conserved, CanBegin, Advance, Holding, MayRelease, Count;
      Interfere();
      LogSnoc(log, Ended(path));
      CountEnded(TallyOf(log), path);
      EndedTrack(TrackOf(log), path);
      GiveBack(others, path);
      pool.End(path);
      log := log + [Ended(path)];
    }

    /** The pool has just taken this step. */
    ghost predicate Took(op: Op) reads pool, pool.affinity {
      exists before: World :: Step(pool.Setup(), before, op, pool.State())
    }

    /** Mark an account for how its lease ended, until the cooldown has passed or, for a rate limit,
        until the time that upstream named. */
    method MarkPool(path: string, penalty: Penalty)
      requires Valid() && !TrackOf(log).answered && Phase().Left? && Phase().account == path
      requires DueMark(Phase().outcome, Phase().afterReplay, MarkFor(penalty, clock))
      modifies pool, pool.affinity, this`others, this`clock, this`log
      ensures Running(Free) && log == old(log) + [MarkedAs(path, MarkFor(penalty, clock))]
      ensures Took(MarkAccount(path, MarkFor(penalty, clock)))
      ensures TallyOf(log) == old(TallyOf(log)).(track := TrackOf(log), tried := old(TallyOf(log)).tried + {path})
    {
      hide TallyOf, Step, Conserved, DueMark, MarkFor, Took;
      Interfere();
      var mark := MarkFor(penalty, clock);
      assert DueMark(Phase().outcome, Phase().afterReplay, mark) by { DueAtAnyTime(penalty, old(clock), clock); }
      TakeMark(path, mark);
      Note(MarkedAs(path, mark));
    }

    method TakeMark(path: string, mark: Mark)
      requires Valid()
      modifies pool
      ensures Valid() && Took(MarkAccount(path, mark))
    {
      hide TallyOf, Step, Conserved;
      ghost var before := pool.State();
      pool.MarkAs(path, mark);
      assert Step(pool.Setup(), before, MarkAccount(path, mark), pool.State());
    }

    lemma DueAtAnyTime(penalty: Penalty, now: Time, later: Time)
      ensures forall stage, replaying ::
                DueMark(stage, replaying, MarkFor(penalty, now)) <==> DueMark(stage, replaying, MarkFor(penalty, later))
    {
    }

    function MarkFor(penalty: Penalty, now: Time): Mark {
      match penalty
      case Sick => Unhealthy(now + pool.options.errorCooldown)
      case Cooling => CoolingDown(now + request.errorCooldown)
      case Limited(until) => RateLimited(until)
    }

    method Bind(path: string)
      requires Valid() && !TrackOf(log).answered && Holds(Phase(), path) && Succeeded(Phase()) && !Phase().bound
      modifies pool, pool.affinity, this`others, this`clock, this`log
      ensures Valid() && TrackOf(log) == Track(old(Phase()).(bound := true), false)
      ensures Took(BindConversation(request.conversation, path, clock))
      ensures SameButTrack(old(TallyOf(log)), TallyOf(log))
    {
      hide TallyOf, Step, Conserved, Took;
      Interfere();
      TakeBinding(path);
      Note(Bound(path));
    }

    method TakeBinding(path: string)
      requires Valid()
      modifies pool.affinity
      ensures Valid() && Took(BindConversation(request.conversation, path, clock))
    {
      hide TallyOf, Step, Conserved;
      ghost var before := pool.State();
      pool.BindConversation(request.conversation, path, clock);
      assert Step(pool.Setup(), before, BindConversation(request.conversation, path, clock), pool.State());
    }

    method Clear()
      requires Valid() && !TrackOf(log).answered && Phase().Weighed? && !Phase().mayStrip
      modifies pool, pool.affinity, this`others, this`clock, this`log
      ensures Running(Refused(old(Phase()).status)) && SameButTrack(old(TallyOf(log)), TallyOf(log))
      ensures Took(ClearConversation(request.conversation))
    {
      hide TallyOf, Step, Conserved, Took;
      Interfere();
      TakeClearing();
      Note(Cleared);
    }

    method TakeClearing()
      requires Valid()
      modifies pool.affinity
      ensures Valid() && Took(ClearConversation(request.conversation))
    {
      hide TallyOf, Step, Conserved;
      ghost var before := pool.State();
      pool.ClearConversation(request.conversation);
      assert Step(pool.Setup(), before, ClearConversation(request.conversation), pool.State());
    }

    /** No account outside `tried` could be selected. */
    ghost predicate NoCandidate(entries: Entries, tried: set<string>, now: Time) {
      forall p :: p in entries ==> !pool.Candidate(entries[p], request.account, tried, now)
    }

    /** The selection just now met this pool. */
    ghost predicate MeetsNoCandidate() reads `log {
      && log != [] && log[|log| - 1].Exhausted?
      && NoCandidate(log[|log| - 1].entries, TallyOf(log).tried, log[|log| - 1].now)
    }

    /** Ask the pool for an account not tried yet: none if and only if the pool has no candidate. */
    method Select(tried: set<string>) returns (path: Option<string>)
      requires Running(Free) && tried == TallyOf(log).tried
      modifies pool, pool.affinity, this`others, this`clock, this`log
      ensures path.Some? <==> !NoCandidate(pool.entries, tried, clock)
      ensures path.Some? ==>
                && Running(Chosen(path.value)) && path.value !in tried && path.value in pool.entries
                && pool.Candidate(pool.entries[path.value], request.account, tried, clock)
      ensures path.None? ==> Running(Spent) && MeetsNoCandidate()
      ensures log == old(log) + [if path.Some? then Selected(path.value) else Exhausted(pool.entries, clock)]
      ensures SameButTrack(old(TallyOf(log)), TallyOf(log))
    {
      hide TallyOf, Step, Conserved, CanBegin, Eligible, Trim;
      Interfere();
      var entry := pool.Select(request.account, tried, request.conversation, clock);
      if entry.Some? {
        path := Some(entry.value.path);
        Note(Selected(entry.value.path));
      } else {
        path := None;
        Note(Exhausted(pool.entries, clock));
      }
    }

    // ---------- The calls it makes ----------

    method LoadToken(path: string) returns (ok: bool)
      requires Running(Lease(path, Ready, false))
      modifies this`log
      ensures Running(Lease(path, if ok then Loaded else NotLoaded, false))
      ensures SameButTrack(old(TallyOf(log)), TallyOf(log))
    {
      hide TallyOf, Conserved;
      ok := *;
      Note(TokenLoaded(path, ok));
    }

    /** RefreshIfNeeded, or ForceRefresh before a replay. */
    method RefreshToken(path: string, ghost phase: Phase) returns (ok: bool)
      requires Running(phase) && Holds(phase, path) && phase.stage.Loaded?
      modifies this`log
      ensures Running(phase.(stage := if ok then Renewed else NotRefreshed))
      ensures SameButTrack(old(TallyOf(log)), TallyOf(log))
    {
      hide TallyOf, Conserved;
      ok := *;
      Note(TokenRefreshed(path, ok));
    }

    /** The upstream URL and the request. */
    method BuildRequest(path: string, ghost phase: Phase) returns (ok: bool)
      requires Running(phase) && Holds(phase, path) && phase.stage.Renewed?
      modifies this`log
      ensures Running(phase.(stage := if ok then Built else NotBuilt))
      ensures SameButTrack(old(TallyOf(log)), TallyOf(log))
    {
      hide TallyOf, Conserved;
      ok := *;
      Note(RequestBuilt(path, ok));
    }

    /** One upstream call: the status, or None for a transport error. */
    method Send(path: string, ghost phase: Phase) returns (status: Option<int>)
      requires Running(phase) && Holds(phase, path) && phase.stage.Built?
      modifies this`log
      ensures Running(phase.(stage := if status.Some? then Got(status.value) else Waiting))
      ensures status.Some? ==> status.value >= 100
      ensures var t := old(TallyOf(log));
              TallyOf(log) == t.(track := TrackOf(log), sends := t.sends + 1,
                                 lastStatus := if status.Some? then status.value else t.lastStatus)
    {
      hide TallyOf, Conserved, Holding;
      Note(Sent(path));
      if * { return None; }
      var code: int :| code >= 100;
      Note(Received(path, code));
      status := Some(code);
    }

    method ReadBody(path: string, ghost phase: Phase) returns (ok: bool)
      requires Running(phase) && Holds(phase, path) && Succeeded(phase) && phase.bound && phase.body.Unread?
      modifies this`log
      ensures Running(phase.(body := if ok then Read else Unreadable))
      ensures SameButTrack(old(TallyOf(log)), TallyOf(log))
    {
      hide TallyOf, Conserved;
      ok := *;
      Note(BodyRead(path, ok));
    }

    method ParseBody(path: string, ghost phase: Phase) returns (ok: bool)
      requires Running(phase) && phase.Left? && phase.account == path && phase.rest.Read?
      modifies this`log
      ensures Running(phase.(rest := if ok then Parsed else Unparsed))
      ensures SameButTrack(old(TallyOf(log)), TallyOf(log))
    {
      hide TallyOf, Conserved;
      ok := *;
      Note(BodyParsed(path, ok));
    }

    /** Whether the refusal blames reasoning items, and the payload has some that can go. */
    method Examine(stripped: bool, status: int) returns (mayStrip: bool)
      requires Valid() && !TrackOf(log).answered && RefusedForGood(Phase()) && Phase().outcome == Got(status)
      modifies this`log
      ensures Running(Weighed(status, mayStrip)) && SameButTrack(old(TallyOf(log)), TallyOf(log))
      ensures mayStrip ==> !stripped && 400 <= status < 500
    {
      hide TallyOf, Conserved;
      var blamed: bool, changed: bool := *, *;
      mayStrip := false;
      if !stripped && StripEligible(status, blamed) {
        if changed { mayStrip := true; }
      }
      Note(Examined(stripped, blamed, changed));
    }

    method Reply(answer: Answer)
      requires Valid() && !TrackOf(log).answered && MayAnswer(Phase(), answer)
      modifies this`log
      ensures Valid() && log == old(log) + [Answered(answer)]
      ensures var t := old(TallyOf(log));
              TallyOf(log) == t.(track := Track(old(Phase()), true), answers := t.answers + [answer])
    {
      hide TallyOf, Conserved, Holding, MayAnswer;
      Note(Answered(answer));
    }

    // ---------- The exits ----------

    /** The success path: bind the conversation, answer, return the lease. */
    method Succeed(path: string, ghost phase: Phase)
      requires Running(phase) && Holds(phase, path) && Succeeded(phase) && !phase.bound && phase.body.Unread?
      modifies pool, pool.affinity, this`others, this`clock, this`log
      ensures Valid() && AnsweredWith(old(TallyOf(log)), TallyOf(log), SuccessAnswers())
    {
      hide TallyOf, Conserved, Holding, Count, Took, Advance;
      Bind(path);
      if request.stream {
        Reply(Streamed);
        Release(path);
        return;
      }
      var read := ReadBody(path, phase.(bound := true));
      if !read {
        Reply(UpstreamError);
        Release(path);
        return;
      }
      Release(path);
      var parsed := ParseBody(path, Left(path, phase.stage, phase.replaying, Read));
      Reply(if parsed then Translated else UpstreamError);
    }

    /** What a client gets for a success. */
    function SuccessAnswers(): set<Answer> { if request.stream then {Streamed} else {Translated, UpstreamError} }

    /** The lease is returned and the client has exactly one answer, one of these. */
    ghost predicate AnsweredWith(t: Tally, u: Tally, answers: set<Answer>) {
      && u.track.Track? && u.track.answered && u.track.phase.Left?
      && u == t.(track := u.track, ends := u.ends, answers := u.answers)
      && |u.answers| == |t.answers| + 1 && u.answers[..|t.answers|] == t.answers
      && u.answers[|t.answers|] in answers
    }

    /** The second request of a lease, after a 401 or 403 and a forced refresh. Whatever
        happens, the lease is returned, and without an answer the account is due to be marked
        unhealthy. Status -1 says that the client has gone, 0 that no response came. */
    method AuthReplay(path: string) returns (ok: bool, status: int)
      requires Running(Lease(path, Renewed, true))
      modifies pool, pool.affinity, this`others, this`clock, this`log, this`cancelled
      ensures Valid() && (old(cancelled) ==> cancelled)
      ensures var t, u := old(TallyOf(log)), TallyOf(log);
              && t.sends <= u.sends <= t.sends + 1 && u.strips == t.strips && u.begins == t.begins
              && u.tried == t.tried && u.gone == t.gone
              && u.track.answered == ok && u.track.phase.Left?
              && (ok ==>
                    u.sends == t.sends + 1 && |u.answers| == |t.answers| + 1 && u.answers[..|t.answers|] == t.answers
                    && u.answers[|t.answers|] in SuccessAnswers())
              && (!ok ==> u.answers == t.answers && u.lastStatus == if status > 0 then status else t.lastStatus)
      ensures !ok ==> status >= -1 && (status == -1 ==> cancelled && FoundGone(Phase()))
      ensures !ok && status >= 0 ==>
                && Phase().account == path
                && forall until :: DueMark(Phase().outcome, Phase().afterReplay, Unhealthy(until))
    {
      hide TallyOf, Conserved, Holding, Count, Advance;
      ghost var phase := Lease(path, Renewed, true);
      var built := BuildRequest(path, phase);
      if !built {
        Release(path);
        return false, 0;
      }
      var response := Send(path, phase.(stage := Built));
      if response.None? {
        Release(path);
        var done := ContextDone();
        return false, if done then -1 else 0;
      }
      if Success(response.value) {
        Succeed(path, phase.(stage := Got(response.value)));
        return true, 0;
      }
      Release(path);
      return false, response.value;
    }

    // ---------- The loop ----------

    function MaxAttempts(): nat { 1 + request.maxFailovers }

    /** The lease was given up because the client has gone. */
    ghost predicate FoundGone(phase: Phase) { phase.Left? && phase.outcome.Abandoned? }

    /** The answer came after the loop. */
    ghost predicate GaveUp(t: Tally) {
      t.answers != [] && t.track.Track? && (t.track.phase.Free? || t.track.phase.Spent?)
    }

    /** Before the answer, a selection met this pool, in which there was no candidate. */
    ghost predicate MetNoCandidate() reads this {
      && |log| >= 2 && log[|log| - 2].Exhausted?
      && NoCandidate(log[|log| - 2].entries, TallyOf(log).tried, log[|log| - 2].now)
    }

    /** What is promised at the end. */
    ghost predicate Finished() reads this, pool {
      var t := TallyOf(log);
      && Valid() && t.track.Track? && !t.track.phase.Held?
      && t.begins == t.ends && pool.leases == others
      && t.sends <= 2 * MaxAttempts() + t.strips && t.strips <= 1
      && (forall p :: t.begins[p] <= 1 + t.strips)
      && |t.answers| <= 1
      && (t.answers == [] ==> cancelled && FoundGone(t.track.phase))
      && (t.answers == [Unavailable] ==> t.sends == 0 && GaveUp(t))
      && (t.sends == 0 && t.answers != [] ==> t.answers[0] in {Unavailable, ConfigurationError})
      && (t.answers != [] && t.answers[0].Relayed? ==> t.answers[0].status == t.lastStatus)
      && (t.answers == [Streamed] ==> request.stream) && (t.answers == [Translated] ==> !request.stream)
      // giving up takes as many accounts as there are attempts, or a pool without a candidate
      && (GaveUp(t) ==> |t.tried| == MaxAttempts() || MetNoCandidate())
      && (t.begins == multiset{} ==> MetNoCandidate() || |t.gone| == MaxAttempts())
    }

    /** After an attempt that ended the request. */
    ghost predicate Closed(t: Tally, u: Tally) reads this {
      && u.track.Track? && !u.track.phase.Held? && u.begins == t.begins && u.strips == t.strips
      && !u.track.phase.Free? && !u.track.phase.Spent?
      && t.sends <= u.sends <= t.sends + 2
      && |u.answers| <= 1
      && (u.answers == [] ==> cancelled && FoundGone(u.track.phase))
      && (u.answers != [] ==>
            u.answers[0] != Unavailable && (u.sends == t.sends ==> u.answers[0] == ConfigurationError))
      && (u.answers != [] && u.answers[0].Relayed? ==> u.answers[0].status == u.lastStatus)
      && (u.answers == [Streamed] ==> request.stream) && (u.answers == [Translated] ==> !request.stream)
    }

    method Respond(isMultiAccount: bool)
      requires Running(Free) && log == []
      modifies pool, pool.affinity, this
      ensures Finished()
    {
      hide *;
      var maxAttempts := MaxAttempts();
      var tried: set<string>, authReplayed: set<string> := {}, {};
      var stripped, hadUpstreamAttempt, lastStatus := false, false, 0;
      var attempt := 0;
      NothingDone(log);
      while attempt < maxAttempts
        invariant attempt <= maxAttempts && Running(Free) && tried == TallyOf(log).tried
        invariant Trying(TallyOf(log), attempt, authReplayed, stripped, hadUpstreamAttempt, lastStatus)
        decreases !stripped, maxAttempts - attempt
      {
        ghost var t0 := TallyOf(log);
        var entry := Select(tried);
        ghost var t := TallyOf(log);
        TryingOn(t0, t, attempt, authReplayed, stripped, hadUpstreamAttempt, lastStatus);
        if entry.None? { break; }
        var path := entry.value;
        var leased := Acquire(path);
        if !leased {
          NextWithoutLease(t, TallyOf(log), attempt, authReplayed, stripped, hadUpstreamAttempt, lastStatus, path);
          tried, attempt := tried + {path}, attempt + 1;
          continue;
        }
        ghost var before := TallyOf(log);
        var verdict, replayed := Attempt(path, isMultiAccount && path !in authReplayed, isMultiAccount, stripped);
        match verdict {
          case Finish =>
            FinishedBy(t, before, attempt, authReplayed, stripped, hadUpstreamAttempt, lastStatus, path);
            return;
          case Retry(status) =>
            SameAccountAgain(t, before, TallyOf(log), attempt, authReplayed, hadUpstreamAttempt, lastStatus, path,
                             status);
            stripped, hadUpstreamAttempt, lastStatus := true, true, status;
          case TryNext(requested, status) =>
            NextAccount(t, before, TallyOf(log), attempt, authReplayed, stripped, hadUpstreamAttempt, lastStatus, path,
                        replayed, requested, status);
            tried, attempt := tried + {path}, attempt + 1;
            if replayed { authReplayed := authReplayed + {path}; }
            if requested { hadUpstreamAttempt, lastStatus := true, status; }
        }
      }
      GiveUp(attempt, authReplayed, stripped, hadUpstreamAttempt, lastStatus);
    }

    /** Nothing is left to try. */
    method GiveUp(ghost attempt: nat, ghost authReplayed: set<string>, ghost stripped: bool, hadUpstreamAttempt: bool,
                  lastStatus: int)
      requires Trying(TallyOf(log), attempt, authReplayed, stripped, hadUpstreamAttempt, lastStatus)
      requires attempt <= MaxAttempts()
      requires if attempt == MaxAttempts() then Running(Free) || Running(Spent) else Running(Spent)
      requires attempt == MaxAttempts() || MeetsNoCandidate()
      modifies this`log
      ensures Finished()
    {
      hide TallyOf, Conserved, Holding, Count, Advance, Trying, NoCandidate, Finished;
      ghost var t := TallyOf(log);
      TryingMeans(t, attempt, authReplayed, stripped, hadUpstreamAttempt, lastStatus);
      Reply(if hadUpstreamAttempt then Relayed(lastStatus) else Unavailable);
      FinishedLast(t, attempt, authReplayed, stripped, hadUpstreamAttempt, lastStatus);
    }

    lemma FinishedBy(t: Tally, before: Tally, attempt: nat, authReplayed: set<string>, stripped: bool, had: bool,
                     last: int, path: string)
      requires Trying(t, attempt, authReplayed, stripped, had, last) && path !in t.tried && attempt < MaxAttempts()
      requires Leased(t, before, path)
      requires Valid() && Closed(before, TallyOf(log))
      ensures Finished()
    {
      hide TallyOf, Conserved, NoCandidate;
      ProtocolBalances(log);
      assert path in TallyOf(log).begins;
    }

    lemma FinishedLast(t: Tally, attempt: nat, authReplayed: set<string>, stripped: bool, had: bool, last: int)
      requires Trying(t, attempt, authReplayed, stripped, had, last) && attempt <= MaxAttempts()
      requires Valid() && t.track.Track? && (t.track.phase.Free? || t.track.phase.Spent?)
      requires TallyOf(log) == t.(track := Track(t.track.phase, true),
                                  answers := [if had then Relayed(last) else Unavailable])
      requires attempt == MaxAttempts() || MetNoCandidate()
      ensures Finished()
    {
      hide TallyOf, Conserved, NoCandidate, MetNoCandidate;
      ProtocolBalances(log);
    }

    /** One account, its lease already taken: refresh the token, send, and act on the outcome. */
    method Attempt(path: string, mayReplay: bool, isMultiAccount: bool, stripped: bool)
      returns (verdict: Verdict, replayed: bool)
      requires Running(Lease(path, Ready, false)) && TallyOf(log).answers == []
      requires isMultiAccount ==> mayReplay
      modifies pool, pool.affinity, this`others, this`clock, this`log, this`cancelled
      ensures Valid() && (old(cancelled) ==> cancelled)
      ensures match verdict
              case Finish => Closed(old(TallyOf(log)), TallyOf(log))
              case TryNext(requested, status) => Moved(old(TallyOf(log)), TallyOf(log), 2, requested, status, path)
              case Retry(status) => !stripped && Reset(old(TallyOf(log)), TallyOf(log), status)
      ensures !verdict.Finish? ==> Running(Free)
      ensures replayed ==> mayReplay && !verdict.Retry?
    {
      hide TallyOf, Conserved, Holding, Count, Took, Advance;
      var loaded := LoadToken(path);
      if !loaded {
        Release(path);
        MarkPool(path, Sick);
        return TryNext(false, 0), false;
      }
      verdict, replayed := Forward(path, mayReplay, isMultiAccount, stripped);
    }

    /** The token is there: refresh it where needed, build the request and send it. */
    method Forward(path: string, mayReplay: bool, isMultiAccount: bool, stripped: bool)
      returns (verdict: Verdict, replayed: bool)
      requires Running(Lease(path, Loaded, false)) && TallyOf(log).answers == []
      requires isMultiAccount ==> mayReplay
      modifies pool, pool.affinity, this`others, this`clock, this`log, this`cancelled
      ensures Valid() && (old(cancelled) ==> cancelled)
      ensures match verdict
              case Finish => Closed(old(TallyOf(log)), TallyOf(log))
              case TryNext(requested, status) => Moved(old(TallyOf(log)), TallyOf(log), 2, requested, status, path)
              case Retry(status) => !stripped && Reset(old(TallyOf(log)), TallyOf(log), status)
      ensures !verdict.Finish? ==> Running(Free)
      ensures replayed ==> mayReplay && !verdict.Retry?
    {
      hide TallyOf, Conserved, Holding, Count, Took, Advance;
      var refreshed := RefreshToken(path, Lease(path, Loaded, false));
      if !refreshed {
        var done := DropUnrefreshed(path, Lease(path, NotRefreshed, false));
        return if done then Finish else TryNext(false, 0), false;
      }
      var built := BuildRequest(path, Lease(path, Renewed, false));
      if !built {
        Release(path);
        Reply(ConfigurationError);
        return Finish, false;
      }
      verdict, replayed := SendFirst(path, mayReplay, isMultiAccount, stripped);
    }

    /** The token could not be refreshed: return the lease and, unless the client has gone, mark the
        account. */
    method DropUnrefreshed(path: string, ghost phase: Phase) returns (done: bool)
      requires Running(phase) && Holds(phase, path) && phase.stage.NotRefreshed?
      modifies pool, pool.affinity, this`others, this`clock, this`log, this`cancelled
      ensures Valid() && (old(cancelled) ==> cancelled)
      ensures done ==> cancelled && TrackOf(log).Track? && FoundGone(TrackOf(log).phase)
                       && SameButTrack(old(TallyOf(log)), TallyOf(log))
      ensures !done ==> Running(Free) && Dropped(old(TallyOf(log)), TallyOf(log), path)
    {
      hide TallyOf, Conserved, Holding, Count, Took, Advance;
      Release(path);
      done := ContextDone();
      if !done { MarkPool(path, Sick); }
    }

    method SendFirst(path: string, mayReplay: bool, isMultiAccount: bool, stripped: bool)
      returns (verdict: Verdict, replayed: bool)
      requires Running(Lease(path, Built, false)) && TallyOf(log).answers == []
      requires isMultiAccount ==> mayReplay
      modifies pool, pool.affinity, this`others, this`clock, this`log, this`cancelled
      ensures Valid() && (old(cancelled) ==> cancelled)
      ensures match verdict
              case Finish => Closed(old(TallyOf(log)), TallyOf(log))
              case TryNext(requested, status) => Moved(old(TallyOf(log)), TallyOf(log), 2, requested, status, path)
              case Retry(status) => !stripped && Reset(old(TallyOf(log)), TallyOf(log), status)
      ensures !verdict.Finish? ==> Running(Free)
      ensures replayed ==> mayReplay && !verdict.Retry?
    {
      hide TallyOf, Conserved, Holding, Count, Took, Advance;
      replayed := false;
      var response := Send(path, Lease(path, Built, false));
      if response.None? {
        var done := ContextDone();
        if done {
          Release(path);
          return Finish, false;
        }
        Release(path);
        MarkPool(path, Cooling);
        return TryNext(true, 502), false;
      }
      if Success(response.value) {
        Succeed(path, Lease(path, Got(response.value), false));
        return Finish, false;
      }
      if Unauthorized(response.value) {
        verdict, replayed := Reject(path, mayReplay, isMultiAccount, response.value);
      } else {
        verdict := Refuse(path, stripped, response.value);
      }
    }

    /** A 401 or 403: with several accounts, refresh the token and replay once; otherwise relay. */
    method Reject(path: string, mayReplay: bool, isMultiAccount: bool, status: int)
      returns (verdict: Verdict, replayed: bool)
      requires Running(Lease(path, Got(status), false)) && TallyOf(log).answers == []
               && TallyOf(log).lastStatus == status
      requires Unauthorized(status) && (isMultiAccount ==> mayReplay) && TallyOf(log).sends > 0
      modifies pool, pool.affinity, this`others, this`clock, this`log, this`cancelled
      ensures Valid() && (old(cancelled) ==> cancelled) && (replayed ==> mayReplay)
      ensures var t := old(TallyOf(log)).(sends := old(TallyOf(log)).sends - 1);
              match verdict
              case Finish => Closed(t, TallyOf(log))
              case TryNext(requested, status) => Moved(t, TallyOf(log), 2, requested, status, path) && requested
                                                 && replayed
              case Retry(_) => false
      ensures replayed <==> isMultiAccount
      ensures !isMultiAccount ==> TallyOf(log).answers == [Relayed(status)]
    {
      hide TallyOf, Conserved, Holding, Count, Took, Advance;
      if isMultiAccount && mayReplay {
        StartReplay(path, status);
        var refreshed := RefreshToken(path, Lease(path, Loaded, true));
        if !refreshed {
          var done := DropUnrefreshed(path, Lease(path, NotRefreshed, true));
          return if done then Finish else TryNext(true, status), true;
        }
        var ok, replayStatus := AuthReplay(path);
        if ok || replayStatus == -1 { return Finish, true; }
        MarkPool(path, Sick);
        return TryNext(true, if replayStatus != 0 then replayStatus else status), true;
      }
      // The handler marks an account that was replayed before and goes on to the next. There is
      // none: a replayed account is tried, and a tried account is not selected.
      assert !isMultiAccount;
      Release(path);
      Reply(Relayed(status));
      return Finish, false;
    }

    method StartReplay(path: string, status: int)
      requires Running(Lease(path, Got(status), false)) && Unauthorized(status)
      modifies this`log
      ensures Running(Lease(path, Loaded, true))
      ensures SameButTrack(old(TallyOf(log)), TallyOf(log))
    {
      hide TallyOf, Conserved;
      Note(Replaying(path));
    }

    /** Any other error status: mark the account and go on, retry once without reasoning items,
        or relay it. */
    method Refuse(path: string, stripped: bool, status: int) returns (verdict: Verdict)
      requires Running(Lease(path, Got(status), false)) && TallyOf(log).answers == []
               && TallyOf(log).lastStatus == status
      requires TallyOf(log).sends > 0 && !Success(status) && !Unauthorized(status)
      modifies pool, pool.affinity, this`others, this`clock, this`log
      ensures Valid()
      ensures var t := old(TallyOf(log)).(sends := old(TallyOf(log)).sends - 1);
              match verdict
              case Finish => Closed(t, TallyOf(log)) && TallyOf(log).answers == [Relayed(status)] && !Retryable(status)
              case TryNext(requested, last) =>
                Moved(t, TallyOf(log), 1, requested, last, path) && requested && Retryable(status)
              case Retry(last) => !stripped && 400 <= status < 500 && Reset(t, TallyOf(log), last)
    {
      hide TallyOf, Conserved, Holding, Count, Took, Advance;
      Release(path);
      if Retryable(status) {
        var until: Time := *;
        MarkPool(path, if status == 429 then Limited(until) else Cooling);
        return TryNext(true, status);
      }
      var mayStrip := Examine(stripped, status);
      if mayStrip {
        NoteStripped(status);
        return Retry(status);
      }
      Clear();
      Reply(Relayed(status));
      return Finish;
    }

    method NoteStripped(ghost status: int)
      requires Running(Weighed(status, true))
      modifies this`log
      ensures Running(Free)
      ensures TallyOf(log) == old(TallyOf(log)).(track := TrackOf(log), strips := old(TallyOf(log)).strips + 1)
    {
      hide TallyOf, Conserved, Holding;
      Note(Stripped);
    }
  }

  lemma NothingDone(log: seq<Act>)
    requires log == []
    ensures TallyOf(log) == Tally(Track(Free, false), 0, 0, multiset{}, multiset{}, {}, {}, [], 0)
    ensures Trying(TallyOf(log), 0, {}, false, false, 0)
  {
  }

  lemma TryingMeans(t: Tally, attempt: nat, authReplayed: set<string>, stripped: bool, had: bool, last: int)
    requires Trying(t, attempt, authReplayed, stripped, had, last)
    ensures authReplayed <= t.tried && t.answers == []
  {
  }

  /** A selection changes nothing but the protocol state. */
  lemma TryingOn(t: Tally, u: Tally, attempt: nat, authReplayed: set<string>, stripped: bool, had: bool, last: int)
    requires Trying(t, attempt, authReplayed, stripped, had, last) && SameButTrack(t, u)
    ensures Trying(u, attempt, authReplayed, stripped, had, last)
    ensures authReplayed <= u.tried == t.tried && u.answers == []
  {
  }
}
