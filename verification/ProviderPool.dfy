/**
 The provider scheduler as a concurrent protocol: any number of search and engine threads interleave
 their lock-held sections over a monotonic clock. The pool's condition variable is a generation
 counter; a section that changes ownership is followed by the same thread's separate bump.
 */
module ProviderPool {
  import opened Common
  import opened ProviderState

  type Name = string
  type Tid = int

  /** Where a thread stands between two sections. */
  datatype Thread =
    | Idle
    /** Read the generation before scanning; may still try to reserve. */
    | Scanning(gen: nat, names: seq<Name>)
    /** Looking at names[at..]; delays holds the rest of each cooldown seen, the clock read once at start. */
    | Timing(gen: nat, names: seq<Name>, at: nat, start: real, delays: seq<real>)
    /** Blocked on the condition since blocked; without delays only a bump wakes it. */
    | Waiting(gen: nat, names: seq<Name>, start: real, blocked: real, delays: seq<real>)
    | Holding(name: Name, token: Token)
    | Supervising(name: Name, token: Token)
    | Engine(name: Name, pass: Option<Token>)
    | Leased(name: Name, pass: Option<Token>)
    | Releasing(name: Name, pass: Option<Token>)
    /** Changed ownership and owes the generation bump. */
    | Bumping(next: Thread)

  /**
   The pool. The fields keeper, spent, issued and starts are a history of the run: who must hand a
   provider back, which tokens are used up, whose each token is, and when each provider started.
   */
  datatype Pool = Pool(
    now: real,
    gen: nat,
    providers: map<Name, Provider>,
    threads: map<Tid, Thread>,
    keeper: map<Name, Tid>,
    issued: seq<Name>,
    spent: set<Token>,
    starts: map<Name, seq<real>>)

  function ThreadOf(s: Pool, t: Tid): Thread {
    if t in s.threads then s.threads[t] else Idle
  }

  datatype Action =
    | Tick(now: real)
    | ReadGeneration(t: Tid, names: seq<Name>)
    | TryReserve(t: Tid, name: Name)
    | GiveUp(t: Tid)
    | StartTiming(t: Tid)
    | Look(t: Tid)
    | Block(t: Tid)
    | TimeOut(t: Tid)
    | Dispatch(t: Tid, engine: Tid)
    | Abandon(t: Tid)
    | Finish(t: Tid)
    | Fail(t: Tid)
    | StartNative(t: Tid, name: Name)
    /** An engine thread that fails before it enters its lease. */
    | Refuse(t: Tid)
    | Enter(t: Tid)
    | RecordStart(t: Tid)
    | Exit(t: Tid)
    | Release(t: Tid)
    | Bump(t: Tid)

  function Least(xs: seq<real>): (m: real)
    requires xs != []
    ensures m in xs && forall i | 0 <= i < |xs| :: m <= xs[i]
  {
    if |xs| == 1 then xs[0]
    else
      var m := Least(xs[1..]);
      if xs[0] < m then xs[0] else m
  }

  predicate Enabled(s: Pool, a: Action) {
    match a
    case Tick(now) => s.now <= now
    case ReadGeneration(t, names) => ThreadOf(s, t).Idle? && forall i | 0 <= i < |names| :: names[i] in s.providers
    case TryReserve(t, name) => ThreadOf(s, t).Scanning? && name in s.providers
    case GiveUp(t) => ThreadOf(s, t).Scanning?
    case StartTiming(t) => ThreadOf(s, t).Scanning? && ThreadOf(s, t).names != []
    case Look(t) => ThreadOf(s, t).Timing? && ThreadOf(s, t).at < |ThreadOf(s, t).names|
                    && ThreadOf(s, t).names[ThreadOf(s, t).at] in s.providers
    case Block(t) => ThreadOf(s, t).Timing? && ThreadOf(s, t).at == |ThreadOf(s, t).names|
    case TimeOut(t) =>
      ThreadOf(s, t).Waiting? && ThreadOf(s, t).delays != []
      && ThreadOf(s, t).blocked + Least(ThreadOf(s, t).delays) <= s.now
    case Dispatch(t, e) => ThreadOf(s, t).Holding? && ThreadOf(s, e).Idle? && t != e
    case Abandon(t) => ThreadOf(s, t).Holding?
    case Finish(t) => ThreadOf(s, t).Supervising?
    case Fail(t) => ThreadOf(s, t).Supervising?
    case StartNative(t, name) => ThreadOf(s, t).Idle? && name in s.providers
    case Refuse(t) => ThreadOf(s, t).Engine?
    case Enter(t) => ThreadOf(s, t).Engine? && ThreadOf(s, t).name in s.providers
    case RecordStart(t) => ThreadOf(s, t).Leased? && ThreadOf(s, t).name in s.providers
                           && ThreadOf(s, t).name in s.starts
    case Exit(t) => ThreadOf(s, t).Leased? && ThreadOf(s, t).name in s.providers
    case Release(t) => ThreadOf(s, t).Releasing? && ThreadOf(s, t).name in s.providers
    case Bump(t) => ThreadOf(s, t).Bumping?
  }

  function Go(s: Pool, t: Tid, x: Thread): Pool {
    s.(threads := s.threads[t := x])
  }

  function LookStep(s: Pool, t: Tid): Pool
    requires Enabled(s, Look(t))
  {
    var x := ThreadOf(s, t);
    var p := s.providers[x.names[x.at]];
    if Owned(p) then Go(s, t, x.(at := x.at + 1))
    else if Remaining(p, x.start) <= 0.0 then Go(s, t, Idle)
    else Go(s, t, x.(at := x.at + 1, delays := x.delays + [Remaining(p, x.start)]))
  }

  function BlockStep(s: Pool, t: Tid): Pool
    requires Enabled(s, Block(t))
  {
    var x := ThreadOf(s, t);
    Go(s, t, if x.gen == s.gen then Waiting(x.gen, x.names, x.start, s.now, x.delays) else Idle)
  }

  function ReserveStep(s: Pool, t: Tid, n: Name): Pool
    requires Enabled(s, TryReserve(t, n))
  {
    if !Admissible(s.providers[n], s.now) then s
    else
      var token := |s.issued|;
      Go(s, t, Bumping(Holding(n, token))).(
        providers := s.providers[n := Reserved(s.providers[n], token)],
        keeper := s.keeper[n := t],
        issued := s.issued + [n])
  }

  function DispatchStep(s: Pool, t: Tid, e: Tid): Pool
    requires Enabled(s, Dispatch(t, e))
  {
    var x := ThreadOf(s, t);
    Go(Go(s, t, Supervising(x.name, x.token)), e, Engine(x.name, Some(x.token))).(
      keeper := if x.name in s.keeper && s.keeper[x.name] == t then s.keeper[x.name := e] else s.keeper)
  }

  function EnterStep(s: Pool, t: Tid): Pool
    requires Enabled(s, Enter(t))
  {
    var x := ThreadOf(s, t);
    if !CanEnter(s.providers[x.name], x.pass, s.now) then Go(s, t, Releasing(x.name, x.pass))
    else
      Go(s, t, Leased(x.name, x.pass)).(
        providers := s.providers[x.name := Entered(s.providers[x.name])],
        keeper := s.keeper[x.name := t],
        spent := if x.pass.Some? then s.spent + {x.pass.value} else s.spent)
  }

  function RecordStep(s: Pool, t: Tid): Pool
    requires Enabled(s, RecordStart(t))
  {
    var n := ThreadOf(s, t).name;
    if Remaining(s.providers[n], s.now) > 0.0 then s
    else
      s.(providers := s.providers[n := Started(s.providers[n], s.now)],
         starts := s.starts[n := s.starts[n] + [s.now]])
  }

  function ExitStep(s: Pool, t: Tid): Pool
    requires Enabled(s, Exit(t))
  {
    var x := ThreadOf(s, t);
    Go(s, t, Bumping(Releasing(x.name, x.pass))).(
      providers := s.providers[x.name := Exited(s.providers[x.name])])
  }

  function ReleaseStep(s: Pool, t: Tid): Pool
    requires Enabled(s, Release(t))
  {
    var x := ThreadOf(s, t);
    if x.pass.None? || s.providers[x.name].reservation != x.pass then Go(s, t, Idle)
    else
      Go(s, t, Bumping(Idle)).(
        providers := s.providers[x.name := Released(s.providers[x.name], x.pass.value)],
        spent := s.spent + {x.pass.value})
  }

  /** The bump moves the generation and wakes every waiting thread. */
  function BumpStep(s: Pool, t: Tid): Pool
    requires Enabled(s, Bump(t))
  {
    var threads := s.threads[t := ThreadOf(s, t).next];
    s.(gen := s.gen + 1,
       threads := map u | u in threads :: if threads[u].Waiting? then Idle else threads[u])
  }

  function Apply(s: Pool, a: Action): Pool
    requires Enabled(s, a)
  {
    match a
    case Tick(now) => s.(now := now)
    case ReadGeneration(t, names) => Go(s, t, Scanning(s.gen, names))
    case TryReserve(t, n) => ReserveStep(s, t, n)
    case GiveUp(t) => Go(s, t, Idle)
    case StartTiming(t) =>
      Go(s, t, Timing(ThreadOf(s, t).gen, ThreadOf(s, t).names, 0, s.now, []))
    case Look(t) => LookStep(s, t)
    case Block(t) => BlockStep(s, t)
    case TimeOut(t) => Go(s, t, Idle)
    case Dispatch(t, e) => DispatchStep(s, t, e)
    case Abandon(t) => Go(s, t, Releasing(ThreadOf(s, t).name, Some(ThreadOf(s, t).token)))
    case Finish(t) => Go(s, t, Idle)
    case Fail(t) => Go(s, t, Releasing(ThreadOf(s, t).name, Some(ThreadOf(s, t).token)))
    case StartNative(t, n) => Go(s, t, Engine(n, None))
    case Refuse(t) => Go(s, t, Releasing(ThreadOf(s, t).name, ThreadOf(s, t).pass))
    case Enter(t) => EnterStep(s, t)
    case RecordStart(t) => RecordStep(s, t)
    case Exit(t) => ExitStep(s, t)
    case Release(t) => ReleaseStep(s, t)
    case Bump(t) => BumpStep(s, t)
  }

  // ---- The invariant ----

  /** A thread that, on every path of the code, still hands this token back or spends it. */
  predicate Duty(x: Thread, n: Name, token: Token)
  {
    match x
    case Holding(m, k) => m == n && k == token
    case Engine(m, k) => m == n && k == Some(token)
    case Releasing(m, k) => m == n && k == Some(token)
    case Bumping(next) => next.Holding? && next.name == n && next.token == token
    case _ => false
  }

  predicate StartsAgree(s: Pool, n: Name)
    requires n in s.providers
  {
    && n in s.starts && Spaced(s.starts[n], MINIMUM_START_INTERVAL)
    && var last := s.providers[n].lastStart;
       if s.starts[n] == [] then last.None? else last == Some(s.starts[n][|s.starts[n]| - 1]) && last.value <= s.now
  }

  /** At most one owner, and the owner is a living thread bound to give the provider back. */
  predicate OwnerOk(s: Pool, n: Name)
    requires n in s.providers
  {
    var p := s.providers[n];
    && !(p.active && p.reservation.Some?)
    && (p.active ==> n in s.keeper && ThreadOf(s, s.keeper[n]).Leased? && ThreadOf(s, s.keeper[n]).name == n)
    && (p.reservation.Some? ==>
          var token := p.reservation.value;
          && token < |s.issued| && s.issued[token] == n && token !in s.spent
          && n in s.keeper && Duty(ThreadOf(s, s.keeper[n]), n, token))
  }

  predicate SomeoneBumps(s: Pool) {
    exists t | t in s.threads :: s.threads[t].Bumping?
  }

  predicate AllOwned(s: Pool, names: seq<Name>, k: nat)
    requires k <= |names|
  {
    forall i | 0 <= i < k :: names[i] in s.providers && Owned(s.providers[names[i]])
  }

  /** The provider's cooldown, seen from a clock reading, ends in one of these delays. */
  predicate Cooling(p: Provider, start: real, delays: seq<real>) {
    p.lastStart.Some? && Remaining(p, start) in delays
  }

  /** Each of the first k providers is owned or has its rest of cooldown among the delays, and no delay is idle. */
  predicate Seen(s: Pool, names: seq<Name>, k: nat, start: real, delays: seq<real>)
    requires k <= |names|
  {
    && (forall i | 0 <= i < k ::
          names[i] in s.providers && (Owned(s.providers[names[i]]) || Cooling(s.providers[names[i]], start, delays)))
    && (forall j | 0 <= j < |delays| :: Attained(s, names, k, start, delays[j]))
  }

  /** The delay is one of the first k providers' rest of cooldown, unless that provider is owned by now. */
  predicate Attained(s: Pool, names: seq<Name>, k: nat, start: real, d: real)
    requires k <= |names|
  {
    exists i :: 0 <= i < k && names[i] in s.providers
                && (Owned(s.providers[names[i]]) || Cooling(s.providers[names[i]], start, [d]))
  }

  predicate IssuedAs(s: Pool, token: Option<Token>, n: Name) {
    token.Some? ==> token.value < |s.issued| && s.issued[token.value] == n
  }

  /** What a thread's position says about the pool. */
  predicate ThreadOk(s: Pool, t: Tid, x: Thread)
    decreases x
  {
    match x
    case Idle => true
    case Scanning(gen, names) => gen <= s.gen
    case Timing(gen, names, at, start, delays) =>
      && gen <= s.gen && at <= |names| && start <= s.now
      && (gen == s.gen ==> SomeoneBumps(s) || Seen(s, names, at, start, delays))
    case Waiting(gen, names, start, blocked, delays) =>
      && gen == s.gen && start <= blocked <= s.now
      && (SomeoneBumps(s) || Seen(s, names, |names|, start, delays))
    case Holding(n, k) => n in s.providers && IssuedAs(s, Some(k), n)
    case Supervising(n, k) => n in s.providers && IssuedAs(s, Some(k), n)
    case Engine(n, k) => n in s.providers && IssuedAs(s, k, n)
    case Leased(n, k) =>
      && n in s.providers && s.providers[n].active && n in s.keeper && s.keeper[n] == t
      && IssuedAs(s, k, n) && (k.Some? ==> k.value in s.spent)
    case Releasing(n, k) => n in s.providers && IssuedAs(s, k, n)
    case Bumping(next) =>
      (next.Holding? || next.Releasing? || next.Idle?) && ThreadOk(s, t, next)
  }

  /** Every issued token is used up, or is the reservation it was issued as. */
  predicate TokensOk(s: Pool) {
    && (forall k | k in s.spent :: k < |s.issued|)
    && (forall k | 0 <= k < |s.issued| :: s.issued[k] in s.providers)
    && (forall k | 0 <= k < |s.issued| && k !in s.spent :: s.providers[s.issued[k]].reservation == Some(k))
  }

  ghost predicate Inv(s: Pool) {
    && (forall n | n in s.providers :: OwnerOk(s, n) && StartsAgree(s, n))
    && (forall t | t in s.threads :: ThreadOk(s, t, s.threads[t]))
    && TokensOk(s)
  }

  predicate Initial(s: Pool) {
    && s.gen == 0 && s.threads == map[] && s.keeper == map[] && s.issued == [] && s.spent == {}
    && (forall n | n in s.providers :: s.providers[n] == FRESH && n in s.starts && s.starts[n] == [])
  }

  // ---- Every action keeps the invariant ----

  lemma InitialHolds(s: Pool)
    requires Initial(s)
    ensures Inv(s)
  {
  }

  lemma PositionOk(s: Pool, t: Tid)
    requires Inv(s)
    ensures ThreadOk(s, t, ThreadOf(s, t))
  {
  }

  /** A step of t that leaves the providers alone and t not bumping. */
  lemma {:induction false} MoveHolds(s: Pool, s': Pool, t: Tid, x: Thread)
    requires Inv(s) && s' == Go(s, t, x)
    requires !ThreadOf(s, t).Bumping? && !x.Bumping?
    requires !ThreadOf(s, t).Leased?
    requires forall n: Name, k: Token | Duty(ThreadOf(s, t), n, k) && n in s.providers && s.providers[n].reservation == Some(k) ::
               Duty(x, n, k)
    requires ThreadOk(s, t, x)
    ensures Inv(s')
  {
    hide StartsAgree;
    BumpersStay(s, s', t);
    forall u | u in s'.threads ensures ThreadOk(s', u, s'.threads[u]) {
      SameView(s, s', u, s'.threads[u]);
    }
    forall n | n in s'.providers ensures OwnerOk(s', n) && StartsAgree(s', n) {
      assert OwnerOk(s, n) && StartsAgree(s, n);
      StartsStay(s, s', n);
    }
  }

  lemma BumpersStay(s: Pool, s': Pool, t: Tid)
    requires forall u | u != t && u in s.threads && s.threads[u].Bumping? :: u in s'.threads && s'.threads[u].Bumping?
    requires !ThreadOf(s, t).Bumping?
    ensures SomeoneBumps(s) ==> SomeoneBumps(s')
  {
  }

  /** No provider becomes free, and none that stays free starts. */
  predicate Calm(s: Pool, s': Pool) {
    && s'.providers.Keys == s.providers.Keys
    && forall n | n in s.providers ::
         || Owned(s'.providers[n])
         || (!Owned(s.providers[n]) && s'.providers[n].lastStart == s.providers[n].lastStart)
  }

  lemma {:induction false} SeenStays(s: Pool, s': Pool, names: seq<Name>, k: nat, start: real, delays: seq<real>)
    requires k <= |names| && Seen(s, names, k, start, delays) && Calm(s, s')
    ensures Seen(s', names, k, start, delays)
  {
    forall j | 0 <= j < |delays| ensures Attained(s', names, k, start, delays[j]) {
      assert Attained(s, names, k, start, delays[j]);
    }
  }

  /** Thread positions read only the generation, the clock, ownership, cooldowns and the history. */
  lemma {:induction false} SameView(s: Pool, s': Pool, t: Tid, x: Thread)
    requires ThreadOk(s, t, x)
    requires s'.gen == s.gen && s'.now >= s.now && s.issued <= s'.issued && s'.spent >= s.spent
    requires SomeoneBumps(s) ==> SomeoneBumps(s')
    requires s'.providers.Keys == s.providers.Keys
    requires SomeoneBumps(s') || Calm(s, s')
    requires x.Leased? && x.name in s.providers && s.providers[x.name].active && x.name in s.keeper && s.keeper[x.name] == t
             ==> s'.providers[x.name].active && x.name in s'.keeper && s'.keeper[x.name] == t
    ensures ThreadOk(s', t, x)
    decreases x
  {
    hide Seen, Calm;
    if x.Bumping? {
      SameView(s, s', t, x.next);
    } else if x.Timing? && x.gen == s.gen && !SomeoneBumps(s') {
      SeenStays(s, s', x.names, x.at, x.start, x.delays);
    } else if x.Waiting? && !SomeoneBumps(s') {
      SeenStays(s, s', x.names, |x.names|, x.start, x.delays);
    }
  }

  lemma {:induction false} TickHolds(s: Pool, now: real)
    requires Inv(s) && Enabled(s, Tick(now))
    ensures Inv(Apply(s, Tick(now)))
  {
    var s' := Apply(s, Tick(now));
    forall u | u in s'.threads ensures ThreadOk(s', u, s'.threads[u]) {
      SameView(s, s', u, s.threads[u]);
    }
    forall n | n in s'.providers ensures OwnerOk(s', n) && StartsAgree(s', n) {
      assert OwnerOk(s, n) && StartsAgree(s, n);
    }
  }

  lemma {:induction false} LookHolds(s: Pool, t: Tid)
    requires Inv(s) && Enabled(s, Look(t))
    ensures Inv(Apply(s, Look(t)))
  {
    hide Seen, Inv, OwnerOk, StartsAgree;
    var x := ThreadOf(s, t);
    PositionOk(s, t);
    if x.gen == s.gen && !SomeoneBumps(s) && ThreadOf(LookStep(s, t), t).Timing? {
      LookSees(s, t);
    }
    MoveHolds(s, Apply(s, Look(t)), t, ThreadOf(Apply(s, Look(t)), t));
  }

  /** One look adds the next provider to what was seen, with its own delay if it is cooling. */
  lemma {:induction false} LookSees(s: Pool, t: Tid)
    requires Enabled(s, Look(t)) && ThreadOf(LookStep(s, t), t).Timing?
    requires var x := ThreadOf(s, t); Seen(s, x.names, x.at, x.start, x.delays)
    ensures var y := ThreadOf(LookStep(s, t), t); Seen(s, y.names, y.at, y.start, y.delays)
  {
    var x, y := ThreadOf(s, t), ThreadOf(LookStep(s, t), t);
    forall i | 0 <= i < y.at
      ensures y.names[i] in s.providers
              && (Owned(s.providers[y.names[i]]) || Cooling(s.providers[y.names[i]], y.start, y.delays))
    {
      if i == x.at && y.delays != x.delays {
        assert y.delays[|x.delays|] == Remaining(s.providers[x.names[i]], x.start);
      }
    }
    forall j | 0 <= j < |y.delays| ensures Attained(s, y.names, y.at, y.start, y.delays[j]) {
      if j < |x.delays| {
        assert Attained(s, x.names, x.at, x.start, x.delays[j]);
      } else {
        assert Cooling(s.providers[x.names[x.at]], x.start, [y.delays[j]]);
      }
    }
  }

  lemma {:induction false} ReserveHolds(s: Pool, t: Tid, n: Name)
    requires Inv(s) && Enabled(s, TryReserve(t, n)) && Admissible(s.providers[n], s.now)
    ensures Inv(ReserveStep(s, t, n))
  {
    hide OwnerOk, StartsAgree;
    var s' := ReserveStep(s, t, n);
    assert s'.threads[t].Bumping?;
    forall u | u in s'.threads ensures ThreadOk(s', u, s'.threads[u]) {
      if u != t {
        assert ThreadOk(s, u, s.threads[u]);
        SameView(s, s', u, s.threads[u]);
      }
    }
    forall m | m in s'.providers ensures OwnerOk(s', m) && StartsAgree(s', m) {
      assert OwnerOk(s, m) && StartsAgree(s, m);
      ReserveKeepsOwner(s, t, n, m);
      StartsStay(s, s', m);
    }
  }

  lemma {:induction false} ReserveKeepsOwner(s: Pool, t: Tid, n: Name, m: Name)
    requires Enabled(s, TryReserve(t, n)) && Admissible(s.providers[n], s.now)
    requires m in s.providers && OwnerOk(s, m) && TokensOk(s)
    ensures OwnerOk(ReserveStep(s, t, n), m)
  {
    if m == n {
      assert ThreadOf(ReserveStep(s, t, n), t) == Bumping(Holding(n, |s.issued|));
    }
  }

  lemma {:induction false} DispatchHolds(s: Pool, t: Tid, e: Tid)
    requires Inv(s) && Enabled(s, Dispatch(t, e))
    ensures Inv(DispatchStep(s, t, e))
  {
    hide StartsAgree, OwnerOk;
    var s' := DispatchStep(s, t, e);
    var x := ThreadOf(s, t);
    assert ThreadOk(s, t, x);
    assert OwnerOk(s, x.name);
    forall m | m in s'.providers ensures OwnerOk(s', m) && StartsAgree(s', m) {
      assert OwnerOk(s, m) && StartsAgree(s, m);
      DispatchKeepsOwner(s, t, e, m);
      StartsStay(s, s', m);
    }
    forall u | u in s'.threads ensures ThreadOk(s', u, s'.threads[u]) {
      if u != t && u != e {
        DispatchKeepsThread(s, t, e, u);
      }
    }
  }

  lemma {:induction false} DispatchKeepsOwner(s: Pool, t: Tid, e: Tid, m: Name)
    requires Enabled(s, Dispatch(t, e)) && m in s.providers && OwnerOk(s, m)
    ensures OwnerOk(DispatchStep(s, t, e), m)
  {
  }

  lemma {:induction false} DispatchKeepsThread(s: Pool, t: Tid, e: Tid, u: Tid)
    requires Enabled(s, Dispatch(t, e)) && u in s.threads && u != t && u != e && ThreadOk(s, u, s.threads[u])
    ensures ThreadOk(DispatchStep(s, t, e), u, s.threads[u])
  {
    var s' := DispatchStep(s, t, e);
    assert SomeoneBumps(s) ==> SomeoneBumps(s') by {
      if SomeoneBumps(s) {
        var v :| v in s.threads && s.threads[v].Bumping?;
        assert v in s'.threads && s'.threads[v].Bumping?;
      }
    }
    SameView(s, s', u, s.threads[u]);
  }

  lemma {:induction false} EnterKeepsOwner(s: Pool, t: Tid, m: Name)
    requires Enabled(s, Enter(t)) && CanEnter(s.providers[ThreadOf(s, t).name], ThreadOf(s, t).pass, s.now)
    requires m in s.providers && OwnerOk(s, m) && OwnerOk(s, ThreadOf(s, t).name)
    ensures OwnerOk(EnterStep(s, t), m)
  {
  }

  lemma {:induction false} EnterKeepsThread(s: Pool, t: Tid, u: Tid)
    requires Enabled(s, Enter(t)) && CanEnter(s.providers[ThreadOf(s, t).name], ThreadOf(s, t).pass, s.now)
    requires u in s.threads && u != t && ThreadOk(s, u, s.threads[u]) && OwnerOk(s, ThreadOf(s, t).name)
    ensures ThreadOk(EnterStep(s, t), u, s.threads[u])
  {
    var s' := EnterStep(s, t);
    BumpersStay(s, s', t);
    SameView(s, s', u, s.threads[u]);
  }

  lemma {:induction false} EnterHolds(s: Pool, t: Tid)
    requires Inv(s) && Enabled(s, Enter(t))
    requires CanEnter(s.providers[ThreadOf(s, t).name], ThreadOf(s, t).pass, s.now)
    ensures Inv(EnterStep(s, t))
  {
    hide OwnerOk, StartsAgree;
    var s' := EnterStep(s, t);
    var x := ThreadOf(s, t);
    assert ThreadOk(s, t, x) && OwnerOk(s, x.name);
    forall m | m in s'.providers ensures OwnerOk(s', m) && StartsAgree(s', m) {
      assert OwnerOk(s, m) && StartsAgree(s, m);
      EnterKeepsOwner(s, t, m);
      StartsStay(s, s', m);
    }
    forall u | u in s'.threads ensures ThreadOk(s', u, s'.threads[u]) {
      if u != t {
        EnterKeepsThread(s, t, u);
      }
    }
    TokensStay(s, t, x);
  }

  /** Entering with a token spends exactly the reservation it names. */
  lemma {:induction false} TokensStay(s: Pool, t: Tid, x: Thread)
    requires Enabled(s, Enter(t)) && x == ThreadOf(s, t) && CanEnter(s.providers[x.name], x.pass, s.now)
    requires TokensOk(s) && ThreadOk(s, t, x)
    ensures TokensOk(EnterStep(s, t))
  {
    var s' := EnterStep(s, t);
    forall k | 0 <= k < |s'.issued| && k !in s'.spent ensures s'.providers[s'.issued[k]].reservation == Some(k) {
      assert s.providers[s.issued[k]].reservation == Some(k);
    }
  }

  lemma {:induction false} StartsStay(s: Pool, s': Pool, m: Name)
    requires m in s.providers && StartsAgree(s, m)
    requires s'.starts == s.starts && s'.now >= s.now && m in s'.providers
    requires s'.providers[m].lastStart == s.providers[m].lastStart
    ensures StartsAgree(s', m)
  {
  }

  lemma {:induction false} FailedEnterHolds(s: Pool, t: Tid)
    requires Inv(s) && Enabled(s, Enter(t))
    requires !CanEnter(s.providers[ThreadOf(s, t).name], ThreadOf(s, t).pass, s.now)
    ensures Inv(EnterStep(s, t))
  {
    var x := ThreadOf(s, t);
    assert ThreadOk(s, t, x);
    MoveHolds(s, EnterStep(s, t), t, Releasing(x.name, x.pass));
  }

  lemma {:induction false} RecordHolds(s: Pool, t: Tid)
    requires Inv(s) && Enabled(s, RecordStart(t))
    ensures Inv(RecordStep(s, t))
  {
    hide ThreadOk, OwnerOk, StartsAgree;
    var s' := RecordStep(s, t);
    forall m | m in s'.providers ensures OwnerOk(s', m) && StartsAgree(s', m) {
      assert OwnerOk(s, m) && StartsAgree(s, m);
      OwnerStays(s, s', m);
      RecordSpaces(s, t, m);
    }
    PositionOk(s, t);
    RecordIsCalm(s, t);
    forall u | u in s'.threads ensures ThreadOk(s', u, s'.threads[u]) {
      SameView(s, s', u, s.threads[u]);
    }
  }

  /** Only an owned provider records a start. */
  lemma RecordIsCalm(s: Pool, t: Tid)
    requires Enabled(s, RecordStart(t)) && ThreadOk(s, t, ThreadOf(s, t))
    ensures Calm(s, RecordStep(s, t))
  {
  }

  lemma {:induction false} OwnerStays(s: Pool, s': Pool, m: Name)
    requires m in s.providers && OwnerOk(s, m) && m in s'.providers
    requires s'.keeper == s.keeper && s'.threads == s.threads && s'.issued == s.issued && s'.spent == s.spent
    requires s'.providers[m].active == s.providers[m].active
    requires s'.providers[m].reservation == s.providers[m].reservation
    ensures OwnerOk(s', m)
  {
  }

  /** The recorder appends a start at least the interval after the last one. */
  lemma {:induction false} RecordSpaces(s: Pool, t: Tid, m: Name)
    requires Enabled(s, RecordStart(t)) && m in s.providers && StartsAgree(s, m)
    ensures StartsAgree(RecordStep(s, t), m)
  {
  }

  lemma {:induction false} ExitHolds(s: Pool, t: Tid)
    requires Inv(s) && Enabled(s, Exit(t))
    ensures Inv(ExitStep(s, t))
  {
    hide OwnerOk, StartsAgree;
    var s' := ExitStep(s, t);
    var x := ThreadOf(s, t);
    assert ThreadOk(s, t, x);
    assert s'.threads[t].Bumping?;
    forall m | m in s'.providers ensures OwnerOk(s', m) && StartsAgree(s', m) {
      assert OwnerOk(s, m) && StartsAgree(s, m);
      ExitKeepsOwner(s, t, m);
      StartsStay(s, s', m);
    }
    forall u | u in s'.threads ensures ThreadOk(s', u, s'.threads[u]) {
      if u != t {
        assert ThreadOk(s, u, s.threads[u]);
        SameView(s, s', u, s.threads[u]);
      }
    }
  }

  lemma {:induction false} ExitKeepsOwner(s: Pool, t: Tid, m: Name)
    requires Enabled(s, Exit(t)) && m in s.providers && OwnerOk(s, m)
    requires ThreadOk(s, t, ThreadOf(s, t))
    ensures OwnerOk(ExitStep(s, t), m)
  {
  }

  lemma {:induction false} ReleaseHolds(s: Pool, t: Tid)
    requires Inv(s) && Enabled(s, Release(t))
    requires ThreadOf(s, t).pass.Some? && s.providers[ThreadOf(s, t).name].reservation == ThreadOf(s, t).pass
    ensures Inv(ReleaseStep(s, t))
  {
    hide OwnerOk, StartsAgree;
    var s' := ReleaseStep(s, t);
    var x := ThreadOf(s, t);
    assert ThreadOk(s, t, x) && OwnerOk(s, x.name);
    assert s'.threads[t].Bumping?;
    forall m | m in s'.providers ensures OwnerOk(s', m) && StartsAgree(s', m) {
      assert OwnerOk(s, m) && StartsAgree(s, m);
      ReleaseKeepsOwner(s, t, m);
      StartsStay(s, s', m);
    }
    forall u | u in s'.threads ensures ThreadOk(s', u, s'.threads[u]) {
      if u != t {
        assert ThreadOk(s, u, s.threads[u]);
        SameView(s, s', u, s.threads[u]);
      }
    }
    forall k | 0 <= k < |s'.issued| && k !in s'.spent ensures s'.providers[s'.issued[k]].reservation == Some(k) {
      assert s.providers[s.issued[k]].reservation == Some(k);
    }
  }

  lemma {:induction false} ReleaseKeepsOwner(s: Pool, t: Tid, m: Name)
    requires Enabled(s, Release(t)) && m in s.providers && OwnerOk(s, m) && OwnerOk(s, ThreadOf(s, t).name)
    requires ThreadOf(s, t).pass.Some? && s.providers[ThreadOf(s, t).name].reservation == ThreadOf(s, t).pass
    ensures OwnerOk(ReleaseStep(s, t), m)
  {
  }

  /** Releasing with no token, or with a token that is not the reservation, only moves the thread on. */
  lemma {:induction false} StaleReleaseHolds(s: Pool, t: Tid)
    requires Inv(s) && Enabled(s, Release(t))
    requires ThreadOf(s, t).pass.None? || s.providers[ThreadOf(s, t).name].reservation != ThreadOf(s, t).pass
    ensures Inv(ReleaseStep(s, t))
  {
    assert ThreadOk(s, t, ThreadOf(s, t));
    MoveHolds(s, ReleaseStep(s, t), t, Idle);
  }

  lemma {:induction false} NextStays(s: Pool, s': Pool, t: Tid, next: Thread)
    requires ThreadOk(s, t, next) && (next.Holding? || next.Releasing? || next.Idle?)
    requires s'.providers == s.providers && s'.issued == s.issued
    ensures ThreadOk(s', t, next)
  {
  }

  lemma {:induction false} BumpHolds(s: Pool, t: Tid)
    requires Inv(s) && Enabled(s, Bump(t))
    ensures Inv(BumpStep(s, t))
  {
    hide OwnerOk, StartsAgree, ThreadOk;
    var s' := BumpStep(s, t);
    forall m | m in s'.providers ensures OwnerOk(s', m) && StartsAgree(s', m) {
      assert OwnerOk(s, m) && StartsAgree(s, m);
      BumpKeepsOwner(s, t, m);
      StartsStay(s, s', m);
    }
    forall u | u in s'.threads ensures ThreadOk(s', u, s'.threads[u]) {
      PositionOk(s, u);
      BumpKeepsThread(s, t, u);
    }
  }

  lemma {:induction false} BumpKeepsOwner(s: Pool, t: Tid, m: Name)
    requires Enabled(s, Bump(t)) && m in s.providers && OwnerOk(s, m)
    ensures OwnerOk(BumpStep(s, t), m)
  {
  }

  lemma {:induction false} BumpKeepsThread(s: Pool, t: Tid, u: Tid)
    requires Enabled(s, Bump(t)) && u in s.threads && ThreadOk(s, u, s.threads[u])
    ensures ThreadOk(BumpStep(s, t), u, BumpStep(s, t).threads[u])
  {
    var x := s.threads[u];
    if x.Bumping? {
      NextStays(s, BumpStep(s, t), u, x.next);
    }
  }

  lemma {:induction false} ActionHolds(s: Pool, a: Action)
    requires Inv(s) && Enabled(s, a)
    ensures Inv(Apply(s, a))
  {
    hide Inv;
    match a
    case Tick(now) => TickHolds(s, now);
    case TryReserve(t, n) =>
      if Admissible(s.providers[n], s.now) {
        ReserveHolds(s, t, n);
      }
    case Look(t) => LookHolds(s, t);
    case Dispatch(t, e) => DispatchHolds(s, t, e);
    case Enter(t) =>
      if CanEnter(s.providers[ThreadOf(s, t).name], ThreadOf(s, t).pass, s.now) {
        EnterHolds(s, t);
      } else {
        FailedEnterHolds(s, t);
      }
    case RecordStart(t) => RecordHolds(s, t);
    case Exit(t) => ExitHolds(s, t);
    case Release(t) =>
      if ThreadOf(s, t).pass.None? || s.providers[ThreadOf(s, t).name].reservation != ThreadOf(s, t).pass {
        StaleReleaseHolds(s, t);
      } else {
        ReleaseHolds(s, t);
      }
    case Bump(t) => BumpHolds(s, t);
    case _ => PlainMoveHolds(s, a);
  }

  lemma {:induction false} PlainMoveHolds(s: Pool, a: Action)
    requires Inv(s) && Enabled(s, a)
    requires a.ReadGeneration? || a.GiveUp? || a.StartTiming? || a.Block? || a.TimeOut? || a.Abandon? || a.Finish? || a.Fail? || a.StartNative?
             || a.Refuse?
    ensures Inv(Apply(s, a))
  {
    hide Inv, OwnerOk, StartsAgree;
    var t := a.t;
    PositionOk(s, t);
    MoveHolds(s, Apply(s, a), t, ThreadOf(Apply(s, a), t));
  }

  // ---- Runs ----

  /** The states of a run of enabled actions, if every one of them is enabled in turn. */
  ghost predicate Reaches(s: Pool, actions: seq<Action>, end: Pool)
    decreases |actions|
  {
    if actions == [] then s == end
    else Enabled(s, actions[0]) && Reaches(Apply(s, actions[0]), actions[1..], end)
  }

  lemma {:induction false} RunsKeepInv(s: Pool, actions: seq<Action>, end: Pool)
    requires Inv(s) && Reaches(s, actions, end)
    ensures Inv(end)
    decreases |actions|
  {
    hide Inv, Apply, Enabled;
    if actions != [] {
      ActionHolds(s, actions[0]);
      RunsKeepInv(Apply(s, actions[0]), actions[1..], end);
    }
  }

  /** A provider has one owner: a reservation excludes a lease, and two leases of it are the same thread's. */
  lemma {:induction false} SingleOwner(s: Pool, actions: seq<Action>, end: Pool, t: Tid, u: Tid)
    requires Initial(s) && Reaches(s, actions, end)
    requires ThreadOf(end, t).Leased? && t in end.threads
    ensures ThreadOf(end, t).name in end.providers
    ensures end.providers[ThreadOf(end, t).name].active && end.providers[ThreadOf(end, t).name].reservation.None?
    ensures u in end.threads && ThreadOf(end, u).Leased? && ThreadOf(end, u).name == ThreadOf(end, t).name ==> u == t
  {
    InitialHolds(s);
    RunsKeepInv(s, actions, end);
    assert ThreadOk(end, t, ThreadOf(end, t));
    assert OwnerOk(end, ThreadOf(end, t).name);
    if u in end.threads {
      assert ThreadOk(end, u, ThreadOf(end, u));
    }
  }

  /** Releasing a token frees its own provider exactly when the token is still unspent; otherwise nothing is freed. */
  lemma {:induction false} ReleaseFreesOnlyItsOwn(s: Pool, t: Tid)
    requires Inv(s) && Enabled(s, Release(t))
    ensures var x := ThreadOf(s, t);
            ReleaseStep(s, t).providers ==
            if x.pass.Some? && x.pass.value !in s.spent
            then s.providers[x.name := s.providers[x.name].(reservation := None)]
            else s.providers
  {
    var x := ThreadOf(s, t);
    assert ThreadOk(s, t, x) && OwnerOk(s, x.name);
  }

  /** A lease is granted to a token once: on success it was unspent, and from then on it is spent. */
  lemma {:induction false} TokenEntersOnce(s: Pool, t: Tid)
    requires Inv(s) && Enabled(s, Enter(t)) && ThreadOf(s, t).pass.Some?
    ensures var x := ThreadOf(s, t);
            ThreadOf(EnterStep(s, t), t).Leased? <==> x.pass.value !in s.spent
    ensures ThreadOf(EnterStep(s, t), t).Leased? ==> ThreadOf(s, t).pass.value in EnterStep(s, t).spent
  {
    var x := ThreadOf(s, t);
    assert ThreadOk(s, t, x) && OwnerOk(s, x.name);
  }

  // ---- Every token is used up ----

  /** How many more sections the thread that holds a token takes, at most, to use it up. */
  function Rank(x: Thread): nat {
    match x
    case Bumping(next) => if next.Holding? then 4 else 0
    case Holding(_, _) => 3
    case Engine(_, _) => 2
    case Releasing(_, _) => 1
    case _ => 0
  }

  function Keeper(s: Pool, token: Token): Thread
    requires token < |s.issued|
  {
    if s.issued[token] in s.keeper then ThreadOf(s, s.keeper[s.issued[token]]) else Idle
  }

  predicate ActsFor(a: Action, t: Tid) {
    match a
    case Tick(_) => false
    case ReadGeneration(u, _) => u == t
    case TryReserve(u, _) => u == t
    case StartNative(u, _) => u == t
    case Dispatch(u, _) => u == t
    case GiveUp(u) => u == t
    case StartTiming(u) => u == t
    case Look(u) => u == t
    case Block(u) => u == t
    case TimeOut(u) => u == t
    case Abandon(u) => u == t
    case Finish(u) => u == t
    case Fail(u) => u == t
    case Refuse(u) => u == t
    case Enter(u) => u == t
    case RecordStart(u) => u == t
    case Exit(u) => u == t
    case Release(u) => u == t
    case Bump(u) => u == t
  }

  /** An unspent token is some thread's duty, and that thread can always take its next section. */
  lemma {:induction false} UnspentTokenHasKeeper(s: Pool, token: Token)
    requires Inv(s) && token < |s.issued| && token !in s.spent
    ensures Duty(Keeper(s, token), s.issued[token], token)
    ensures exists a :: Enabled(s, a) && ActsFor(a, s.keeper[s.issued[token]])
  {
    var n := s.issued[token];
    assert n in s.providers && s.providers[n].reservation == Some(token);
    assert OwnerOk(s, n);
    var t := s.keeper[n];
    match ThreadOf(s, t) {
      case Holding(_, _) => assert Enabled(s, Abandon(t)) && ActsFor(Abandon(t), t);
      case Engine(_, _) => assert Enabled(s, Enter(t)) && ActsFor(Enter(t), t);
      case Releasing(_, _) => assert Enabled(s, Action.Release(t)) && ActsFor(Action.Release(t), t);
      case Bumping(_) => assert Enabled(s, Bump(t)) && ActsFor(Bump(t), t);
    }
  }

  predicate Progresses(s: Pool, a: Action, token: Token)
    requires Enabled(s, a) && token < |s.issued| && s.issued[token] in s.keeper
  {
    var s' := Apply(s, a);
    && token < |s'.issued|
    && (token in s'.spent
        || Rank(Keeper(s', token)) < Rank(Keeper(s, token))
        || (!ActsFor(a, s.keeper[s.issued[token]]) && Keeper(s', token) == Keeper(s, token)))
  }

  lemma {:induction false} BumpProgresses(s: Pool, t: Tid, token: Token)
    requires Enabled(s, Bump(t)) && token < |s.issued| && s.issued[token] in s.keeper
    requires Duty(Keeper(s, token), s.issued[token], token)
    ensures Progresses(s, Bump(t), token)
  {
  }

  lemma {:induction false} DispatchProgresses(s: Pool, t: Tid, e: Tid, token: Token)
    requires Enabled(s, Dispatch(t, e)) && token < |s.issued| && s.issued[token] in s.keeper
    requires Duty(Keeper(s, token), s.issued[token], token)
    ensures Progresses(s, Dispatch(t, e), token)
  {
  }

  lemma {:induction false} OtherProgresses(s: Pool, a: Action, token: Token)
    requires Enabled(s, a) && !a.Bump? && !a.Dispatch? && token < |s.issued| && s.issued[token] in s.keeper
    requires var n := s.issued[token];
             n in s.providers && s.providers[n].reservation == Some(token) && !s.providers[n].active
    requires Duty(Keeper(s, token), s.issued[token], token)
    ensures Progresses(s, a, token)
  {
    hide Remaining;
  }

  /** Each section of the keeper brings its token closer to being used up; no other thread sets it back. */
  lemma {:induction false} TokensProgress(s: Pool, a: Action, token: Token)
    requires Inv(s) && Enabled(s, a) && token < |s.issued| && token !in s.spent
    ensures var s' := Apply(s, a);
            && token < |s'.issued|
            && (token in s'.spent
                || Rank(Keeper(s', token)) < Rank(Keeper(s, token))
                || (!ActsFor(a, s.keeper[s.issued[token]]) && Keeper(s', token) == Keeper(s, token)))
  {
    hide Apply, Enabled, StartsAgree, ThreadOk;
    var n := s.issued[token];
    assert n in s.providers && s.providers[n].reservation == Some(token);
    assert OwnerOk(s, n);
    match a {
      case Bump(t) => BumpProgresses(s, t, token);
      case Dispatch(t, e) => DispatchProgresses(s, t, e, token);
      case _ => OtherProgresses(s, a, token);
    }
  }

  predicate KeeperActs(s: Pool, a: Action, token: Token) {
    && token < |s.issued| && token !in s.spent
    && s.issued[token] in s.keeper && ActsFor(a, s.keeper[s.issued[token]])
  }

  /** How many sections of a run are taken by the thread that keeps the token just then, while it is unspent. */
  function KeeperTurns(s: Pool, actions: seq<Action>, token: Token): nat
    decreases |actions|
  {
    if actions == [] || !Enabled(s, actions[0]) then 0
    else
      (if KeeperActs(s, actions[0], token) then 1 else 0) + KeeperTurns(Apply(s, actions[0]), actions[1..], token)
  }

  lemma {:induction false} SpentStays(s: Pool, a: Action)
    requires Enabled(s, a)
    ensures s.spent <= Apply(s, a).spent
  {
  }

  lemma {:induction false} SpentStaysOverRuns(s: Pool, actions: seq<Action>, end: Pool)
    requires Reaches(s, actions, end)
    ensures s.spent <= end.spent
    decreases |actions|
  {
    hide Apply, Enabled;
    if actions != [] {
      SpentStays(s, actions[0]);
      SpentStaysOverRuns(Apply(s, actions[0]), actions[1..], end);
    }
  }

  /** Over a run that leaves the token unspent its rank falls at least by one for each section of its keeper. */
  lemma {:induction false} RankFalls(s: Pool, actions: seq<Action>, end: Pool, token: Token)
    requires Inv(s) && Reaches(s, actions, end) && token < |s.issued| && token !in end.spent
    ensures token < |end.issued| && KeeperTurns(s, actions, token) + Rank(Keeper(end, token)) <= Rank(Keeper(s, token))
    decreases |actions|
  {
    hide Apply, Enabled, Rank, Keeper, Inv;
    if actions != [] {
      var a := actions[0];
      SpentStaysOverRuns(s, actions, end);
      SpentStaysOverRuns(Apply(s, a), actions[1..], end);
      ActionHolds(s, a);
      TokensProgress(s, a, token);
      RankFalls(Apply(s, a), actions[1..], end, token);
    }
  }

  /**
   In every run a token is used up once its keepers have taken as many sections as its rank, which is at most four,
   however many sections other threads take in between.
   */
  lemma {:induction false} TokensAreUsedUp(
    s: Pool, before: seq<Action>, mid: Pool, actions: seq<Action>, end: Pool, token: Token)
    requires Initial(s) && Reaches(s, before, mid) && Reaches(mid, actions, end)
    requires token < |mid.issued| && (token in mid.spent || KeeperTurns(mid, actions, token) >= Rank(Keeper(mid, token)))
    ensures token in end.spent
    ensures Rank(Keeper(mid, token)) <= 4
  {
    hide Apply, Enabled, Inv, KeeperTurns;
    InitialHolds(s);
    RunsKeepInv(s, before, mid);
    RunsKeepInv(mid, actions, end);
    SpentStaysOverRuns(mid, actions, end);
    if token !in end.spent {
      RankFalls(mid, actions, end, token);
      UnspentTokenHasKeeper(end, token);
    }
  }

  // ---- What the sections bring about ----

  /** A free and cooled provider is reserved by the thread that tries, under a new token; any other try changes nothing. */
  lemma TryingReserves(s: Pool, t: Tid, n: Name)
    requires Enabled(s, TryReserve(t, n))
    ensures var p, s' := s.providers[n], Apply(s, TryReserve(t, n));
            if !p.active && p.reservation.None? && Cooled(p.lastStart, s.now)
            then ThreadOf(s', t) == Bumping(Holding(n, |s.issued|)) && s'.providers[n].reservation == Some(|s.issued|)
            else s' == s
  {
  }

  /** A native engine without a token is admitted exactly to a free and cooled provider. */
  lemma EnteringLeases(s: Pool, t: Tid)
    requires Enabled(s, Enter(t)) && ThreadOf(s, t).pass.None?
    ensures var n, s' := ThreadOf(s, t).name, Apply(s, Enter(t));
            var p := s.providers[n];
            if !p.active && p.reservation.None? && Cooled(p.lastStart, s.now)
            then ThreadOf(s', t) == Leased(n, None) && s'.providers[n] == Provider(true, None, p.lastStart)
            else ThreadOf(s', t) == Releasing(n, None) && s'.providers == s.providers
  {
  }

  /** A start is recorded exactly when the cooldown is over. */
  lemma RecordingStarts(s: Pool, t: Tid)
    requires Enabled(s, RecordStart(t))
    ensures var n, s' := ThreadOf(s, t).name, Apply(s, RecordStart(t));
            if Cooled(s.providers[n].lastStart, s.now)
            then s'.providers[n].lastStart == Some(s.now) && s'.starts[n] == s.starts[n] + [s.now]
            else s' == s
  {
  }

  /** A due timeout and any bump take a waiting thread back to its scan. */
  lemma WakingResumes(s: Pool, t: Tid, u: Tid)
    requires ThreadOf(s, t).Waiting?
    ensures Enabled(s, TimeOut(t)) ==> ThreadOf(Apply(s, TimeOut(t)), t).Idle?
    ensures Enabled(s, Bump(u)) ==> ThreadOf(Apply(s, Bump(u)), t).Idle? && Apply(s, Bump(u)).gen == s.gen + 1
  {
  }

  // ---- Starts ----

  /** Over every run, the starts of one provider keep the interval, second pages inside one lease included. */
  lemma {:induction false} StartsApart(s: Pool, actions: seq<Action>, end: Pool, n: Name, i: nat, j: nat)
    requires Initial(s) && Reaches(s, actions, end) && n in end.providers
    requires n in end.starts && i < j < |end.starts[n]|
    ensures end.starts[n][j] - end.starts[n][i] >= MINIMUM_START_INTERVAL * (j - i) as real
  {
    InitialHolds(s);
    RunsKeepInv(s, actions, end);
    assert StartsAgree(end, n);
    SpacedFar(end.starts[n], MINIMUM_START_INTERVAL, i, j);
  }

  // ---- Waiting ----

  /** A section that frees a provider leaves its thread owing the bump. */
  lemma {:induction false} FreeingOwesBump(s: Pool, a: Action, n: Name)
    requires Inv(s) && Enabled(s, a) && n in s.providers && Owned(s.providers[n])
    requires n in Apply(s, a).providers && !Owned(Apply(s, a).providers[n])
    ensures a.Exit? || a.Release?
    ensures ThreadOf(Apply(s, a), a.t).Bumping?
  {
    hide OwnerOk, StartsAgree, ThreadOk, Inv;
  }

  /** A thread blocked without a timeout waits only while all its providers are owned, or a bump that wakes it is due. */
  lemma {:induction false} NoLostWakeup(s: Pool, actions: seq<Action>, end: Pool, t: Tid)
    requires Initial(s) && Reaches(s, actions, end)
    requires ThreadOf(end, t).Waiting? && ThreadOf(end, t).delays == []
    ensures || AllOwned(end, ThreadOf(end, t).names, |ThreadOf(end, t).names|)
            || exists u :: Enabled(end, Bump(u)) && ThreadOf(BumpStep(end, u), t).Idle?
  {
    InitialHolds(s);
    RunsKeepInv(s, actions, end);
    PositionOk(end, t);
    if SomeoneBumps(end) {
      var u :| u in end.threads && end.threads[u].Bumping?;
      assert Enabled(end, Bump(u)) && ThreadOf(BumpStep(end, u), t).Idle?;
    }
  }

  /** Some start of one of these providers whose cooldown ends d after start. */
  ghost predicate CooldownEnds(s: Pool, names: seq<Name>, start: real, d: real) {
    exists i: nat, j: nat ::
      && i < |names| && names[i] in s.starts && j < |s.starts[names[i]]|
      && s.starts[names[i]][j] + MINIMUM_START_INTERVAL == start + d
  }

  ghost predicate DelaysOk(s: Pool, x: Thread) {
    match x
    case Timing(_, names, _, start, delays) =>
      forall i | 0 <= i < |delays| :: delays[i] > 0.0 && CooldownEnds(s, names, start, delays[i])
    case Waiting(_, names, start, _, delays) =>
      forall i | 0 <= i < |delays| :: delays[i] > 0.0 && CooldownEnds(s, names, start, delays[i])
    case _ => true
  }

  lemma {:induction false} CooldownStays(s: Pool, s': Pool, names: seq<Name>, start: real, d: real)
    requires CooldownEnds(s, names, start, d)
    requires forall n | n in s.starts :: n in s'.starts && s.starts[n] <= s'.starts[n]
    ensures CooldownEnds(s', names, start, d)
  {
    var i: nat, j: nat :|
      && i < |names| && names[i] in s.starts && j < |s.starts[names[i]]|
      && s.starts[names[i]][j] + MINIMUM_START_INTERVAL == start + d;
    assert s'.starts[names[i]][j] == s.starts[names[i]][j];
  }

  lemma {:induction false} DelaysStay(s: Pool, s': Pool, x: Thread)
    requires DelaysOk(s, x)
    requires forall n | n in s.starts :: n in s'.starts && s.starts[n] <= s'.starts[n]
    ensures DelaysOk(s', x)
  {
    hide CooldownEnds;
    if x.Timing? || x.Waiting? {
      forall i | 0 <= i < |x.delays| ensures x.delays[i] > 0.0 && CooldownEnds(s', x.names, x.start, x.delays[i]) {
        CooldownStays(s, s', x.names, x.start, x.delays[i]);
      }
    }
  }

  lemma {:induction false} StartsGrow(s: Pool, a: Action)
    requires Enabled(s, a)
    ensures forall n | n in s.starts :: n in Apply(s, a).starts && s.starts[n] <= Apply(s, a).starts[n]
  {
  }

  lemma {:induction false} LookDelays(s: Pool, t: Tid)
    requires Inv(s) && Enabled(s, Look(t)) && DelaysOk(s, ThreadOf(s, t))
    ensures DelaysOk(s, ThreadOf(LookStep(s, t), t))
  {
    hide OwnerOk, ThreadOk;
    var x := ThreadOf(s, t);
    var n := x.names[x.at];
    assert StartsAgree(s, n);
    if !Owned(s.providers[n]) && Remaining(s.providers[n], x.start) > 0.0 {
      var d := Remaining(s.providers[n], x.start);
      assert s.starts[x.names[x.at]][|s.starts[n]| - 1] + MINIMUM_START_INTERVAL == x.start + d;
      assert CooldownEnds(s, x.names, x.start, d);
    }
  }

  /** The second position waits on no delays the first one does not. */
  predicate Carries(x: Thread, y: Thread) {
    match y
    case Timing(_, names, _, start, delays) =>
      delays == [] || (x.Timing? && x.names == names && x.start == start && x.delays == delays)
    case Waiting(_, names, start, _, delays) =>
      || (x.Timing? && x.names == names && x.start == start && x.delays == delays)
      || (x.Waiting? && x.names == names && x.start == start && x.delays == delays)
    case _ => true
  }

  lemma {:induction false} MovesCarry(s: Pool, a: Action, u: Tid)
    requires Enabled(s, a) && !(a.Look? && a.t == u) && ThreadOk(s, u, ThreadOf(s, u))
    ensures Carries(ThreadOf(s, u), ThreadOf(Apply(s, a), u))
  {
    hide OwnerOk, StartsAgree, SomeoneBumps, AllOwned, IssuedAs, CanEnter, Admissible, Owned, Remaining;
  }

  lemma {:induction false} ActionKeepsDelays(s: Pool, a: Action, u: Tid)
    requires Inv(s) && Enabled(s, a) && DelaysOk(s, ThreadOf(s, u))
    ensures DelaysOk(Apply(s, a), ThreadOf(Apply(s, a), u))
  {
    hide CooldownEnds, Inv, OwnerOk, StartsAgree, ThreadOk, Enabled;
    StartsGrow(s, a);
    PositionOk(s, u);
    if a.Look? && a.t == u {
      LookDelays(s, u);
      DelaysStay(s, Apply(s, a), ThreadOf(LookStep(s, u), u));
    } else {
      DelaysStay(s, Apply(s, a), ThreadOf(s, u));
      MovesCarry(s, a, u);
      CarriedDelays(Apply(s, a), ThreadOf(s, u), ThreadOf(Apply(s, a), u));
    }
  }

  lemma CarriedDelays(s: Pool, x: Thread, y: Thread)
    requires DelaysOk(s, x) && Carries(x, y)
    ensures DelaysOk(s, y)
  {
    hide CooldownEnds;
  }

  lemma {:induction false} RunsKeepDelays(s: Pool, actions: seq<Action>, end: Pool, u: Tid)
    requires Inv(s) && Reaches(s, actions, end) && DelaysOk(s, ThreadOf(s, u))
    ensures DelaysOk(end, ThreadOf(end, u))
    decreases |actions|
  {
    hide Inv, Apply, Enabled, DelaysOk, ThreadOf;
    if actions != [] {
      ActionHolds(s, actions[0]);
      ActionKeepsDelays(s, actions[0], u);
      RunsKeepDelays(Apply(s, actions[0]), actions[1..], end, u);
    }
  }

  /**
   A helper beside NearestWakeup that also covers a thread about to be woken: it is due at the end of the cooldown
   after some recorded start of one of its providers, plus the time between reading the clock and blocking.
   */
  lemma {:induction false} TimedWakeup(s: Pool, actions: seq<Action>, end: Pool, t: Tid) returns (n: Name, j: nat)
    requires Initial(s) && Reaches(s, actions, end)
    requires ThreadOf(end, t).Waiting? && ThreadOf(end, t).delays != []
    ensures n in ThreadOf(end, t).names && n in end.starts && j < |end.starts[n]|
    ensures var x := ThreadOf(end, t);
            var over := end.starts[n][j] + MINIMUM_START_INTERVAL;
            && over > x.start
            && x.blocked + Least(x.delays) == over + (x.blocked - x.start)
            && (x.blocked + Least(x.delays) <= over <==> x.blocked == x.start)
            && (Enabled(end, TimeOut(t)) <==> over + (x.blocked - x.start) <= end.now)
  {
    InitialHolds(s);
    RunsKeepInv(s, actions, end);
    RunsKeepDelays(s, actions, end, t);
    PositionOk(end, t);
    var x := ThreadOf(end, t);
    var d := Least(x.delays);
    var k :| 0 <= k < |x.delays| && x.delays[k] == d;
    assert CooldownEnds(end, x.names, x.start, d);
    var i: nat, m: nat :|
      && i < |x.names| && x.names[i] in end.starts && m < |end.starts[x.names[i]]|
      && end.starts[x.names[i]][m] + MINIMUM_START_INTERVAL == x.start + d;
    n, j := x.names[i], m;
  }

  /** The end of the cooldown of an awaited provider that is free to be reserved once it is over. */
  predicate Awaited(s: Pool, t: Tid, i: nat) {
    && ThreadOf(s, t).Waiting? && i < |ThreadOf(s, t).names| && ThreadOf(s, t).names[i] in s.providers
    && !Owned(s.providers[ThreadOf(s, t).names[i]])
  }

  function ReadyAt(p: Provider): real
    requires p.lastStart.Some?
  {
    p.lastStart.value + MINIMUM_START_INTERVAL
  }

  function AwaitedProvider(s: Pool, t: Tid, i: nat): Provider
    requires Awaited(s, t, i)
  {
    s.providers[ThreadOf(s, t).names[i]]
  }

  /**
   A thread blocked with a timeout, unless a bump that wakes it is due, is due at the nearest end of a cooldown
   among its providers that are not owned, plus the time that passed between reading the clock and blocking:
   no unowned provider is ready earlier than that, and the provider i the delay came from is ready exactly
   then, if it is not owned by now. So the thread is due by every unowned provider's readiness if no time
   passed, and, while i is unowned, only then.
   */
  lemma {:induction false} NearestWakeup(s: Pool, actions: seq<Action>, end: Pool, t: Tid) returns (i: nat)
    requires Initial(s) && Reaches(s, actions, end)
    requires ThreadOf(end, t).Waiting? && ThreadOf(end, t).delays != [] && !SomeoneBumps(end)
    ensures var x := ThreadOf(end, t);
            var due, lag := x.blocked + Least(x.delays), x.blocked - x.start;
            && lag >= 0.0
            && (forall k: nat | k < |x.names| :: x.names[k] in end.providers)
            && (forall k: nat | Awaited(end, t, k) ::
                  AwaitedProvider(end, t, k).lastStart.Some? && due <= ReadyAt(AwaitedProvider(end, t, k)) + lag)
            && i < |x.names|
            && (Awaited(end, t, i) ==>
                  && due == ReadyAt(AwaitedProvider(end, t, i)) + lag
                  && ((forall k: nat | Awaited(end, t, k) :: due <= ReadyAt(AwaitedProvider(end, t, k))) <==> lag == 0.0))
  {
    InitialHolds(s);
    RunsKeepInv(s, actions, end);
    PositionOk(end, t);
    var x := ThreadOf(end, t);
    assert Seen(end, x.names, |x.names|, x.start, x.delays);
    forall k: nat | Awaited(end, t, k)
      ensures AwaitedProvider(end, t, k).lastStart.Some?
      ensures x.blocked + Least(x.delays) <= ReadyAt(AwaitedProvider(end, t, k)) + (x.blocked - x.start)
    {
      var p := AwaitedProvider(end, t, k);
      assert Cooling(p, x.start, x.delays);
      var j :| 0 <= j < |x.delays| && x.delays[j] == Remaining(p, x.start);
    }
    var j :| 0 <= j < |x.delays| && x.delays[j] == Least(x.delays);
    assert Attained(end, x.names, |x.names|, x.start, x.delays[j]);
    var n :| 0 <= n < |x.names| && x.names[n] in end.providers
             && (Owned(end.providers[x.names[n]]) || Cooling(end.providers[x.names[n]], x.start, [x.delays[j]]));
    i := n;
  }

  lemma {:induction false} OneMore(s: Pool, actions: seq<Action>, mid: Pool, a: Action)
    requires Reaches(s, actions, mid) && Enabled(mid, a)
    ensures Reaches(s, actions + [a], Apply(mid, a))
    decreases |actions|
  {
    hide Apply, Enabled;
    if actions == [] {
      assert ([] + [a])[1..] == [] && Reaches(Apply(s, a), [], Apply(mid, a));
    } else {
      assert (actions + [a])[1..] == actions[1..] + [a];
      OneMore(Apply(s, actions[0]), actions[1..], mid, a);
    }
  }

  // A run of one provider: thread 1 starts it at 0 and leaves, thread 0 waits for its cooldown.

  const FREE := Pool(0.0, 0, map["p" := FRESH],
                      map[], map[], [], {}, map["p" := []])
  const ENGINE := Pool(0.0, 0, map["p" := FRESH],
                      map[1 := Engine("p", None)], map[], [], {}, map["p" := []])
  const LEASED := Pool(0.0, 0, map["p" := Provider(true, None, None)],
                      map[1 := Leased("p", None)], map["p" := 1], [], {}, map["p" := []])
  const STARTED := Pool(0.0, 0, map["p" := Provider(true, None, Some(0.0))],
                      map[1 := Leased("p", None)], map["p" := 1], [], {}, map["p" := [0.0]])
  const EXITED := Pool(0.0, 0, map["p" := Provider(false, None, Some(0.0))],
                      map[1 := Bumping(Releasing("p", None))], map["p" := 1], [], {}, map["p" := [0.0]])
  const BUMPED := Pool(0.0, 1, map["p" := Provider(false, None, Some(0.0))],
                      map[1 := Releasing("p", None)], map["p" := 1], [], {}, map["p" := [0.0]])
  const SCANNING := Pool(0.0, 1, map["p" := Provider(false, None, Some(0.0))],
                      map[1 := Releasing("p", None), 0 := Scanning(1, ["p"])], map["p" := 1], [], {}, map["p" := [0.0]])
  const TIMING := Pool(0.0, 1, map["p" := Provider(false, None, Some(0.0))],
                      map[1 := Releasing("p", None), 0 := Timing(1, ["p"], 0, 0.0, [])], map["p" := 1], [], {}, map["p" := [0.0]])
  const LOOKED := Pool(0.0, 1, map["p" := Provider(false, None, Some(0.0))],
                      map[1 := Releasing("p", None), 0 := Timing(1, ["p"], 1, 0.0, [3.0])], map["p" := 1], [], {}, map["p" := [0.0]])
  const LATER := Pool(1.0, 1, map["p" := Provider(false, None, Some(0.0))],
                      map[1 := Releasing("p", None), 0 := Timing(1, ["p"], 1, 0.0, [3.0])], map["p" := 1], [], {}, map["p" := [0.0]])
  const BLOCKED := Pool(1.0, 1, map["p" := Provider(false, None, Some(0.0))],
                      map[1 := Releasing("p", None), 0 := Waiting(1, ["p"], 0.0, 1.0, [3.0])], map["p" := 1], [], {}, map["p" := [0.0]])
  const OVERDUE := Pool(3.5, 1, map["p" := Provider(false, None, Some(0.0))],
                      map[1 := Releasing("p", None), 0 := Waiting(1, ["p"], 0.0, 1.0, [3.0])], map["p" := 1], [], {}, map["p" := [0.0]])

  lemma ToEngine()
    ensures Enabled(FREE, StartNative(1, "p")) && Apply(FREE, StartNative(1, "p")) == ENGINE
  {
  }

  lemma ToLeased()
    ensures Enabled(ENGINE, Enter(1)) && Apply(ENGINE, Enter(1)) == LEASED
  {
  }

  lemma ToStarted()
    ensures Enabled(LEASED, RecordStart(1)) && Apply(LEASED, RecordStart(1)) == STARTED
  {
    assert [] + [0.0] == [0.0];
  }

  lemma ToExited()
    ensures Enabled(STARTED, Exit(1)) && Apply(STARTED, Exit(1)) == EXITED
  {
  }

  lemma ToBumped()
    ensures Enabled(EXITED, Bump(1)) && Apply(EXITED, Bump(1)) == BUMPED
  {
  }

  lemma ToScanning()
    ensures Enabled(BUMPED, ReadGeneration(0, ["p"])) && Apply(BUMPED, ReadGeneration(0, ["p"])) == SCANNING
  {
  }

  lemma ToTiming()
    ensures Enabled(SCANNING, StartTiming(0)) && Apply(SCANNING, StartTiming(0)) == TIMING
  {
  }

  lemma ToLooked()
    ensures Enabled(TIMING, Look(0)) && Apply(TIMING, Look(0)) == LOOKED
  {
    assert [] + [3.0] == [3.0];
  }

  lemma ToLater()
    ensures Enabled(LOOKED, Tick(1.0)) && Apply(LOOKED, Tick(1.0)) == LATER
  {
  }

  lemma ToBlocked()
    ensures Enabled(LATER, Block(0)) && Apply(LATER, Block(0)) == BLOCKED
  {
  }

  lemma ToOverdue()
    ensures Enabled(BLOCKED, Tick(3.5)) && Apply(BLOCKED, Tick(3.5)) == OVERDUE
  {
  }

  /** A run in which the provider is ready at 3.5 while the thread that waits for its cooldown is still blocked. */
  lemma {:induction false} LateWakeup() returns (actions: seq<Action>)
    ensures Initial(FREE) && Reaches(FREE, actions, OVERDUE)
    ensures ThreadOf(OVERDUE, 0).Waiting? && ThreadOf(OVERDUE, 0).names == ["p"] && !Enabled(OVERDUE, TimeOut(0))
    ensures "p" in OVERDUE.providers && Admissible(OVERDUE.providers["p"], OVERDUE.now)
  {
    actions := ReachOverdue();
  }

  lemma {:induction false} ReachOverdue() returns (actions: seq<Action>)
    ensures Reaches(FREE, actions, OVERDUE)
  {
    hide Apply, Enabled;
    actions := [];
    ToEngine();
    OneMore(FREE, actions, FREE, StartNative(1, "p"));
    actions := actions + [StartNative(1, "p")];
    ToLeased();
    OneMore(FREE, actions, ENGINE, Enter(1));
    actions := actions + [Enter(1)];
    ToStarted();
    OneMore(FREE, actions, LEASED, RecordStart(1));
    actions := actions + [RecordStart(1)];
    ToExited();
    OneMore(FREE, actions, STARTED, Exit(1));
    actions := actions + [Exit(1)];
    ToBumped();
    OneMore(FREE, actions, EXITED, Bump(1));
    actions := actions + [Bump(1)];
    ToScanning();
    OneMore(FREE, actions, BUMPED, ReadGeneration(0, ["p"]));
    actions := actions + [ReadGeneration(0, ["p"])];
    ToTiming();
    OneMore(FREE, actions, SCANNING, StartTiming(0));
    actions := actions + [StartTiming(0)];
    ToLooked();
    OneMore(FREE, actions, TIMING, Look(0));
    actions := actions + [Look(0)];
    ToLater();
    OneMore(FREE, actions, LOOKED, Tick(1.0));
    actions := actions + [Tick(1.0)];
    ToBlocked();
    OneMore(FREE, actions, LATER, Block(0));
    actions := actions + [Block(0)];
    ToOverdue();
    OneMore(FREE, actions, BLOCKED, Tick(3.5));
    actions := actions + [Tick(3.5)];
  }
}
