/**
 Admission of paid API attempts: one token or one active attempt at a time, and a cooldown measured from
 the last recorded start. Recording a start checks only that some attempt is active, never the clock; the
 machine below shows why starts of different attempts still keep the interval.
 */
module PaidAdmission {
  import opened Common

  type Token = nat
  type Tid = int

  const INTERVAL: real := 3.0

  datatype Admission = Admission(token: Option<Token>, active: bool, lastStart: Option<real>)

  predicate Owned(a: Admission) {
    a.active || a.token.Some?
  }

  predicate Cooling(a: Admission, now: real) {
    a.lastStart.Some? && now - a.lastStart.value < INTERVAL
  }

  predicate CanReserve(a: Admission, available: bool, now: real) {
    available && !Owned(a) && !Cooling(a, now)
  }

  predicate CanOwn(a: Admission, token: Option<Token>) {
    token.Some? && a.token == token && !a.active
  }

  function Freed(a: Admission, token: Option<Token>): Admission {
    if token.Some? && a.token == token then a.(token := None) else a
  }

  /** One pass of the wait loop. Its three clock readings are taken in this order. */
  datatype Readings = Readings(deadline: real, reserve: real, cooling: real)

  datatype Pass = Stopped | Reserved(token: Token) | Blocked(timeout: Option<real>)

  class Gate {
    var token: Option<Token>
    var active: bool
    var lastStart: Option<real>

    constructor ()
      ensures Value() == Admission(None, false, None)
    {
      token, active, lastStart := None, false, None;
    }

    function Value(): Admission
      reads this
    {
      Admission(token, active, lastStart)
    }

    method Reserve(available: bool, now: real, unused: Token) returns (got: Option<Token>)
      modifies this
      ensures got.Some? <==> CanReserve(old(Value()), available, now)
      ensures got.Some? ==> got.value == unused
      ensures Value() == if got.Some? then old(Value()).(token := got) else old(Value())
      ensures got.Some? <==>
              available && !active && old(token).None? && (lastStart.Some? ==> lastStart.value + 3.0 <= now)
    {
      if !available || active || token.Some? || (lastStart.Some? && now - lastStart.value < INTERVAL) {
        return None;
      }
      token := Some(unused);
      return token;
    }

    method WaitPass(availableFirst: bool, availableThen: bool, deadline: Option<real>, at: Readings, unused: Token)
      returns (p: Pass)
      modifies this
      ensures p.Stopped? <==> !availableFirst || (deadline.Some? && deadline.value - at.deadline <= 0.0)
      ensures p.Reserved? <==> !p.Stopped? && CanReserve(old(Value()), availableThen, at.reserve)
      ensures Value() == if p.Reserved? then old(Value()).(token := Some(p.token)) else old(Value())
      ensures p.Reserved? <==>
              && !p.Stopped? && availableThen && !active && old(token).None?
              && (lastStart.Some? ==> lastStart.value + 3.0 <= at.reserve)
      ensures p.Blocked? ==>
              var rest := if !active && token.None? && lastStart.Some? && at.cooling < lastStart.value + 3.0
                          then Some(lastStart.value + 3.0 - at.cooling) else None;
              p.timeout == if deadline.None? then rest
                           else if rest.Some? && rest.value <= deadline.value - at.deadline then rest
                           else Some(deadline.value - at.deadline)
      ensures p.Blocked? ==> p.timeout == BlockFor(Value(), deadline, at)
      ensures p == PassOf(old(Value()), availableFirst, availableThen, deadline, at, unused)
    {
      if !availableFirst {
        return Stopped;
      }
      if deadline.Some? && deadline.value - at.deadline <= 0.0 {
        return Stopped;
      }
      var got := Reserve(availableThen, at.reserve, unused);
      if got.Some? {
        return Reserved(got.value);
      }
      var delay: Option<real> := None;
      if lastStart.Some? && INTERVAL - (at.cooling - lastStart.value) > 0.0 && !active && token.None? {
        delay := Some(INTERVAL - (at.cooling - lastStart.value));
      }
      if deadline.Some? {
        var remaining := deadline.value - at.deadline;
        delay := if delay.Some? && delay.value <= remaining then delay else Some(remaining);
      }
      return Blocked(delay);
    }

    method Release(released: Option<Token>) returns (notified: bool)
      modifies this
      ensures Value() == Freed(old(Value()), released)
      ensures token == (if old(token) == released then None else old(token))
      ensures active == old(active) && lastStart == old(lastStart)
      ensures notified <==> Owned(old(Value())) && Value() != old(Value())
    {
      notified := false;
      if released.Some? && released == token {
        token := None;
        notified := true;
      }
    }

    method Own(claimed: Option<Token>) returns (ok: bool)
      modifies this
      ensures ok <==> CanOwn(old(Value()), claimed)
      ensures ok <==> claimed.Some? && old(token) == claimed && !old(active)
      ensures Value() == if ok then old(Value()).(token := None, active := true) else old(Value())
    {
      if claimed.None? || token != claimed || active {
        return false;
      }
      token := None;
      active := true;
      return true;
    }

    method Leave()
      modifies this
      ensures Value() == old(Value()).(active := false)
    {
      active := false;
    }

    method RecordStart(now: real) returns (ok: bool)
      modifies this
      ensures ok <==> old(active)
      ensures Value() == if ok then old(Value()).(lastStart := Some(now)) else old(Value())
    {
      if !active {
        return false;
      }
      lastStart := Some(now);
      return true;
    }
  }

  /** How long a pass that reserved nothing blocks; without a bound only a notification ends it. */
  function BlockFor(a: Admission, deadline: Option<real>, at: Readings): (timeout: Option<real>)
    ensures timeout.None? <==>
            deadline.None? && (Owned(a) || !Cooling(a, at.cooling))
    ensures timeout.Some? && deadline.Some? ==> timeout.value <= deadline.value - at.deadline
  {
    var cooling := if !Owned(a) && Cooling(a, at.cooling) then Some(INTERVAL - (at.cooling - a.lastStart.value)) else None;
    if deadline.None? then cooling
    else if cooling.Some? && cooling.value <= deadline.value - at.deadline then cooling
    else Some(deadline.value - at.deadline)
  }

  /** What a pass of the wait loop comes to. */
  function PassOf(
    a: Admission, availableFirst: bool, availableThen: bool, deadline: Option<real>, at: Readings, unused: Token): Pass
  {
    if !availableFirst || (deadline.Some? && deadline.value - at.deadline <= 0.0) then Stopped
    else if CanReserve(a, availableThen, at.reserve) then Reserved(unused)
    else Blocked(BlockFor(a, deadline, at))
  }

  /**
   A pass that fails to reserve blocks without bound on a gate nobody owns exactly when it has no deadline and
   either the cooldown ran out between its two clock readings, or the processor became unavailable after the
   loop's own check. WaitsForAnotherAttempt says what that means over a run.
   */
  lemma UnboundedBlockOnFreeGate(a: Admission, availableThen: bool, deadline: Option<real>, at: Readings)
    requires at.reserve <= at.cooling
    requires !CanReserve(a, availableThen, at.reserve)
    ensures (BlockFor(a, deadline, at).None? && !Owned(a)) <==>
            && deadline.None? && !Owned(a) && !Cooling(a, at.cooling)
            && (!availableThen || Cooling(a, at.reserve))
  {
  }

  /** The cooldown ends at 3.0, between the readings: the waiter misses it and blocks without bound. */
  lemma CooldownEndMissed()
    ensures var a := Admission(None, false, Some(0.0));
            var at := Readings(2.5, 2.5, 3.0);
            && !CanReserve(a, true, at.reserve) && BlockFor(a, None, at).None?
            && CanReserve(a, true, at.cooling)
  {
  }

  // ---- Attempts of any number of threads ----

  datatype Attempt =
    | Idle
    | Holding(token: Token)
    /** Inside the ownership section; an attempt records its start at most once. */
    | Owning(token: Token, recorded: bool)
    | Closing(token: Token)
    /** Blocked until due, or without bound, after the pass that saw this gate at these readings. */
    | Waiting(deadline: Option<real>, due: Option<real>, gate: Admission, availableThen: bool, at: Readings)
    /** Woken by a notification or its timeout; the loop's next pass follows. */
    | Woken(deadline: Option<real>)

  datatype Gates = Gates(
    now: real,
    gate: Admission,
    attempts: map<Tid, Attempt>,
    keeper: Tid,
    issued: nat,
    starts: seq<real>)

  function AttemptOf(s: Gates, t: Tid): Attempt {
    if t in s.attempts then s.attempts[t] else Idle
  }

  datatype Action =
    | Tick(now: real)
    | Take(t: Tid, available: bool)
    | Own(t: Tid)
    | Record(t: Tid)
    | Leave(t: Tid)
    | Release(t: Tid)
    /** The scheduler takes a token back after a failed dispatch, wherever its attempt stands. */
    | Revoke(token: Token)
    /** One pass of the wait loop, with its clock readings; a blocked one starts to wait at since. */
    | TryPass(t: Tid, deadline: Option<real>, availableFirst: bool, availableThen: bool, at: Readings, since: real)
    | TimeOut(t: Tid)

  predicate Enabled(s: Gates, a: Action) {
    match a
    case Tick(now) => s.now <= now
    case Take(t, _) => AttemptOf(s, t).Idle?
    case Own(t) => AttemptOf(s, t).Holding?
    case Record(t) => AttemptOf(s, t).Owning? && !AttemptOf(s, t).recorded
    case Leave(t) => AttemptOf(s, t).Owning?
    case Release(t) => AttemptOf(s, t).Holding? || AttemptOf(s, t).Closing?
    case Revoke(_) => true
    case TryPass(t, deadline, _, _, at, since) =>
      && (AttemptOf(s, t).Idle? || AttemptOf(s, t) == Woken(deadline))
      && s.now <= at.deadline <= at.reserve <= at.cooling <= since
    case TimeOut(t) => AttemptOf(s, t).Waiting? && AttemptOf(s, t).due.Some? && AttemptOf(s, t).due.value <= s.now
  }

  /** A notification wakes every waiter. */
  function Wake(x: Attempt): Attempt {
    if x.Waiting? then Woken(x.deadline) else x
  }

  function WakeAll(attempts: map<Tid, Attempt>): map<Tid, Attempt> {
    map t | t in attempts :: Wake(attempts[t])
  }

  /** A token handed back: a matching one frees the gate and notifies. */
  function HandBack(s: Gates, token: Token): Gates {
    if s.gate.token == Some(token) then s.(gate := Freed(s.gate, Some(token)), attempts := WakeAll(s.attempts)) else s
  }

  function Apply(s: Gates, a: Action): Gates
    requires Enabled(s, a)
  {
    match a
    case Tick(now) => s.(now := now)
    case Take(t, available) =>
      if !CanReserve(s.gate, available, s.now) then s
      else s.(gate := s.gate.(token := Some(s.issued)), attempts := s.attempts[t := Holding(s.issued)],
              keeper := t, issued := s.issued + 1)
    case Own(t) =>
      var k := AttemptOf(s, t).token;
      if !CanOwn(s.gate, Some(k)) then s.(attempts := s.attempts[t := Closing(k)])
      else s.(gate := s.gate.(token := None, active := true), attempts := s.attempts[t := Owning(k, false)])
    case Record(t) =>
      var k := AttemptOf(s, t).token;
      if !s.gate.active then s.(attempts := s.attempts[t := Owning(k, true)])
      else s.(gate := s.gate.(lastStart := Some(s.now)), attempts := s.attempts[t := Owning(k, true)],
              starts := s.starts + [s.now])
    case Leave(t) =>
      s.(gate := s.gate.(active := false), attempts := WakeAll(s.attempts[t := Closing(AttemptOf(s, t).token)]))
    case Release(t) => HandBack(s.(attempts := s.attempts[t := Idle]), AttemptOf(s, t).token)
    case Revoke(k) => HandBack(s, k)
    case TryPass(t, deadline, first, then_, at, since) =>
      var later := s.(now := since);
      (match PassOf(s.gate, first, then_, deadline, at, s.issued)
       case Stopped => later.(attempts := s.attempts[t := Idle])
       case Reserved(k) =>
         later.(gate := s.gate.(token := Some(k)), attempts := s.attempts[t := Holding(k)], keeper := t, issued := k + 1)
       case Blocked(timeout) =>
         var due := if timeout.Some? then Some(since + timeout.value) else None;
         later.(attempts := s.attempts[t := Waiting(deadline, due, s.gate, then_, at)]))
    case TimeOut(t) => s.(attempts := s.attempts[t := Wake(AttemptOf(s, t))])
  }

  predicate AttemptOk(s: Gates, t: Tid, x: Attempt) {
    match x
    case Idle => true
    case Holding(k) => k < s.issued && (s.gate.token == Some(k) ==> s.keeper == t)
    case Owning(k, _) => k < s.issued && s.gate.active && s.keeper == t
    case Closing(k) => k < s.issued && s.gate.token != Some(k)
    case Waiting(deadline, due, gate, available, at) =>
      && at.reserve <= at.cooling && !CanReserve(gate, available, at.reserve)
      && (due.None? <==> BlockFor(gate, deadline, at).None?)
      && (!Owned(s.gate) ==> gate == s.gate)
    case Woken(_) => true
  }

  ghost predicate Inv(s: Gates) {
    && !(s.gate.active && s.gate.token.Some?)
    && (forall t | t in s.attempts :: AttemptOk(s, t, s.attempts[t]))
    && (s.gate.active ==> AttemptOf(s, s.keeper).Owning?)
    && (s.gate.token.Some? ==> AttemptOf(s, s.keeper) == Holding(s.gate.token.value))
    && Spaced(s.starts, INTERVAL)
    && (if s.starts == [] then s.gate.lastStart.None?
        else s.gate.lastStart == Some(s.starts[|s.starts| - 1]) && s.starts[|s.starts| - 1] <= s.now)
    && (Owned(s.gate) && !(AttemptOf(s, s.keeper).Owning? && AttemptOf(s, s.keeper).recorded)
        ==> !Cooling(s.gate, s.now))
  }

  predicate Initial(s: Gates) {
    s.gate == Admission(None, false, None) && s.attempts == map[] && s.issued == 0 && s.starts == []
  }

  lemma ActorOk(s: Gates, a: Action)
    requires Inv(s)
    ensures !a.Tick? && !a.Revoke? ==> AttemptOk(s, a.t, AttemptOf(s, a.t))
  {
  }

  lemma {:induction false} ActionKeepsAttempt(s: Gates, a: Action, t: Tid)
    requires Inv(s) && Enabled(s, a) && t in Apply(s, a).attempts
    ensures AttemptOk(Apply(s, a), t, Apply(s, a).attempts[t])
  {
    hide Cooling, Spaced;
    ActorOk(s, a);
    if t in s.attempts {
      assert AttemptOk(s, t, s.attempts[t]);
    }
  }

  lemma {:induction false} ActionKeepsKeeper(s: Gates, a: Action)
    requires Inv(s) && Enabled(s, a)
    ensures var s' := Apply(s, a);
            && !(s'.gate.active && s'.gate.token.Some?)
            && (s'.gate.active ==> AttemptOf(s', s'.keeper).Owning?)
            && (s'.gate.token.Some? ==> AttemptOf(s', s'.keeper) == Holding(s'.gate.token.value))
  {
    hide Cooling, Spaced, BlockFor;
    ActorOk(s, a);
  }

  lemma {:induction false} ActionKeepsStarts(s: Gates, a: Action)
    requires Inv(s) && Enabled(s, a)
    ensures var s' := Apply(s, a);
            && Spaced(s'.starts, INTERVAL)
            && (if s'.starts == [] then s'.gate.lastStart.None?
                else s'.gate.lastStart == Some(s'.starts[|s'.starts| - 1]) && s'.starts[|s'.starts| - 1] <= s'.now)
            && (Owned(s'.gate) && !(AttemptOf(s', s'.keeper).Owning? && AttemptOf(s', s'.keeper).recorded)
                ==> !Cooling(s'.gate, s'.now))
  {
    hide BlockFor;
    ActorOk(s, a);
  }

  lemma {:induction false} ActionKeepsInv(s: Gates, a: Action)
    requires Inv(s) && Enabled(s, a)
    ensures Inv(Apply(s, a))
  {
    hide Apply, Enabled, AttemptOk, Cooling, Owned, Spaced;
    forall t | t in Apply(s, a).attempts ensures AttemptOk(Apply(s, a), t, Apply(s, a).attempts[t]) {
      ActionKeepsAttempt(s, a, t);
    }
    ActionKeepsKeeper(s, a);
    ActionKeepsStarts(s, a);
  }

  ghost predicate Reaches(s: Gates, actions: seq<Action>, end: Gates)
    decreases |actions|
  {
    if actions == [] then s == end
    else Enabled(s, actions[0]) && Reaches(Apply(s, actions[0]), actions[1..], end)
  }

  lemma {:induction false} RunsKeepInv(s: Gates, actions: seq<Action>, end: Gates)
    requires Inv(s) && Reaches(s, actions, end)
    ensures Inv(end)
    decreases |actions|
  {
    hide Inv, Apply, Enabled;
    if actions != [] {
      ActionKeepsInv(s, actions[0]);
      RunsKeepInv(Apply(s, actions[0]), actions[1..], end);
    }
  }

  /** Over every run, recorded starts keep the interval although recording never reads the last start. */
  lemma {:induction false} AttemptsApart(s: Gates, actions: seq<Action>, end: Gates, i: nat, j: nat)
    requires Initial(s) && Reaches(s, actions, end) && i < j < |end.starts|
    ensures end.starts[j] - end.starts[i] >= INTERVAL * (j - i) as real
  {
    RunsKeepInv(s, actions, end);
    SpacedFar(end.starts, INTERVAL, i, j);
  }

  /** The attempt owns the gate: it is inside the ownership section, or its token is the reservation. */
  predicate Owns(s: Gates, t: Tid) {
    || AttemptOf(s, t).Owning?
    || (AttemptOf(s, t).Holding? && s.gate.token == Some(AttemptOf(s, t).token))
  }

  lemma {:induction false} OneAttempt(s: Gates, actions: seq<Action>, end: Gates, t: Tid, u: Tid)
    requires Initial(s) && Reaches(s, actions, end) && Owns(end, t) && Owns(end, u)
    ensures t == u
  {
    RunsKeepInv(s, actions, end);
    assert AttemptOk(end, t, end.attempts[t]) && AttemptOk(end, u, end.attempts[u]);
  }

  /** The gate is taken exactly while some attempt owns it, so no path of an attempt leaves it taken. */
  lemma {:induction false} OwnedByAttempt(s: Gates, actions: seq<Action>, end: Gates)
    requires Initial(s) && Reaches(s, actions, end)
    ensures Owned(end.gate) <==> exists t :: Owns(end, t)
  {
    RunsKeepInv(s, actions, end);
    if Owned(end.gate) {
      assert Owns(end, end.keeper);
    }
    if t :| Owns(end, t) {
      assert AttemptOk(end, t, end.attempts[t]);
    }
  }

  // ---- Waiters ----

  /** The section gives the gate back. */
  predicate Frees(s: Gates, a: Action) {
    Enabled(s, a) && Owned(s.gate) && !Owned(Apply(s, a).gate)
  }

  /** Some section of the run gives the gate back. */
  predicate EverFreed(s: Gates, actions: seq<Action>)
    decreases |actions|
  {
    && actions != [] && Enabled(s, actions[0])
    && (Frees(s, actions[0]) || EverFreed(Apply(s, actions[0]), actions[1..]))
  }

  /** The thread keeps its position through the whole run. */
  predicate Stays(s: Gates, actions: seq<Action>, t: Tid)
    decreases |actions|
  {
    actions == []
    || (Enabled(s, actions[0]) && AttemptOf(Apply(s, actions[0]), t) == AttemptOf(s, t)
        && Stays(Apply(s, actions[0]), actions[1..], t))
  }

  predicate BlockedWithoutBound(s: Gates, t: Tid) {
    AttemptOf(s, t).Waiting? && AttemptOf(s, t).due.None?
  }

  /**
   A thread blocked without bound while nobody owns the gate has seen this very gate free in its own pass: it has no
   deadline, and missed the end of the cooldown or lost the processor. All others wait for an owner.
   */
  lemma {:induction false} BlockedOnFreeGate(s: Gates, actions: seq<Action>, end: Gates, t: Tid)
    requires Initial(s) && Reaches(s, actions, end) && BlockedWithoutBound(end, t)
    ensures var x := AttemptOf(end, t);
            !Owned(end.gate) <==>
            && x.gate == end.gate && !Owned(x.gate) && x.deadline.None? && !Cooling(x.gate, x.at.cooling)
            && (!x.availableThen || Cooling(x.gate, x.at.reserve))
  {
    RunsKeepInv(s, actions, end);
    var x := AttemptOf(end, t);
    assert AttemptOk(end, t, x);
    UnboundedBlockOnFreeGate(x.gate, x.availableThen, x.deadline, x.at);
  }

  lemma {:induction false} FreeingWakes(s: Gates, a: Action, t: Tid)
    requires Inv(s) && Enabled(s, a) && BlockedWithoutBound(s, t)
    ensures if Frees(s, a) then AttemptOf(Apply(s, a), t) == Woken(AttemptOf(s, t).deadline)
            else AttemptOf(Apply(s, a), t) == AttemptOf(s, t)
  {
    if !a.Tick? && !a.Revoke? {
      assert a.t in s.attempts ==> AttemptOk(s, a.t, s.attempts[a.t]);
    }
  }

  lemma {:induction false} StaysUnlessFreed(s: Gates, actions: seq<Action>, end: Gates, t: Tid)
    requires Inv(s) && Reaches(s, actions, end) && BlockedWithoutBound(s, t)
    ensures Stays(s, actions, t) <==> !EverFreed(s, actions)
    ensures Stays(s, actions, t) ==> AttemptOf(end, t) == AttemptOf(s, t)
    decreases |actions|
  {
    hide Apply, Enabled, Frees, Inv;
    if actions != [] {
      ActionKeepsInv(s, actions[0]);
      FreeingWakes(s, actions[0], t);
      if !Frees(s, actions[0]) {
        StaysUnlessFreed(Apply(s, actions[0]), actions[1..], end, t);
      }
    }
  }

  /** In every run a thread blocked without bound stays blocked exactly as long as nobody gives the gate back. */
  lemma {:induction false} WokenWhenFreed(
    s: Gates, before: seq<Action>, mid: Gates, actions: seq<Action>, end: Gates, t: Tid)
    requires Initial(s) && Reaches(s, before, mid) && Reaches(mid, actions, end) && BlockedWithoutBound(mid, t)
    ensures Stays(mid, actions, t) <==> !EverFreed(mid, actions)
  {
    RunsKeepInv(s, before, mid);
    StaysUnlessFreed(mid, actions, end, t);
  }

  lemma {:induction false} FreeingNeedsToken(s: Gates, actions: seq<Action>, end: Gates)
    requires Reaches(s, actions, end) && !Owned(s.gate) && Inv(s)
    ensures s.issued <= end.issued
    ensures s.issued == end.issued ==> !EverFreed(s, actions)
    decreases |actions|
  {
    hide Inv, Apply, Enabled, Owned;
    if actions != [] {
      var a := actions[0];
      ActionKeepsInv(s, a);
      FreeStays(s, a);
      IssuedGrows(Apply(s, a), actions[1..], end);
      if !Owned(Apply(s, a).gate) {
        FreeingNeedsToken(Apply(s, a), actions[1..], end);
      }
    }
  }

  lemma {:induction false} IssuedGrows(s: Gates, actions: seq<Action>, end: Gates)
    requires Reaches(s, actions, end)
    ensures s.issued <= end.issued
    decreases |actions|
  {
    hide Enabled;
    if actions != [] {
      IssuedGrows(Apply(s, actions[0]), actions[1..], end);
    }
  }

  lemma {:induction false} FreeStays(s: Gates, a: Action)
    requires Inv(s) && Enabled(s, a) && !Owned(s.gate)
    ensures s.issued <= Apply(s, a).issued
    ensures s.issued == Apply(s, a).issued ==> !Owned(Apply(s, a).gate)
  {
    if !a.Tick? && !a.Revoke? {
      assert a.t in s.attempts ==> AttemptOk(s, a.t, s.attempts[a.t]);
    }
  }

  /**
   A thread blocked without bound on a free gate is not woken by time, nor by the processor becoming available:
   in every run it stays blocked until another attempt has been given a token and gives the gate back.
   */
  lemma {:induction false} WaitsForAnotherAttempt(
    s: Gates, before: seq<Action>, mid: Gates, actions: seq<Action>, end: Gates, t: Tid)
    requires Initial(s) && Reaches(s, before, mid) && Reaches(mid, actions, end)
    requires BlockedWithoutBound(mid, t) && !Owned(mid.gate)
    ensures AttemptOf(end, t) == AttemptOf(mid, t) || (mid.issued < end.issued && EverFreed(mid, actions))
  {
    hide Apply, Enabled, EverFreed, Stays;
    RunsKeepInv(s, before, mid);
    StaysUnlessFreed(mid, actions, end, t);
    FreeingNeedsToken(mid, actions, end);
  }

  // ---- A run that leaves a waiter behind ----

  const FIRST := Gates(0.0, Admission(None, false, None), map[], 0, 0, [])
  const RECORDED :=
    Gates(0.0, Admission(None, true, Some(0.0)), map[1 := Owning(0, true)], 1, 1, [0.0])
  const FREE := Gates(0.0, Admission(None, false, Some(0.0)), map[1 := Idle], 1, 1, [0.0])
  const MISSED := Readings(2.5, 2.5, 3.0)

  lemma ToRecorded()
    ensures Reaches(FIRST, [Take(1, true), Own(1), Record(1)], RECORDED)
  {
    var taken := FIRST.(gate := Admission(Some(0), false, None), attempts := map[1 := Holding(0)], keeper := 1, issued := 1);
    var owned := taken.(gate := Admission(None, true, None), attempts := map[1 := Owning(0, false)]);
    assert Apply(FIRST, Take(1, true)) == taken;
    assert Apply(taken, Own(1)) == owned;
    assert Apply(owned, Record(1)) == RECORDED;
    assert Reaches(RECORDED, [], RECORDED);
    assert Reaches(owned, [Record(1)], RECORDED);
    assert Reaches(taken, [Own(1), Record(1)], RECORDED);
  }

  lemma ToFree()
    ensures Reaches(RECORDED, [Leave(1), Release(1)], FREE)
  {
    var left := FREE.(attempts := map[1 := Closing(0)]);
    assert Apply(RECORDED, Leave(1)) == left;
    assert Apply(left, Release(1)) == FREE;
    assert Reaches(FREE, [], FREE);
    assert Reaches(left, [Release(1)], FREE);
  }

  lemma ToBlocked() returns (end: Gates)
    ensures Reaches(FREE, [TryPass(2, None, true, true, MISSED, 3.0)], end)
    ensures BlockedWithoutBound(end, 2) && CanReserve(end.gate, true, end.now)
  {
    end := Apply(FREE, TryPass(2, None, true, true, MISSED, 3.0));
    assert Reaches(end, [], end);
  }

  lemma {:induction false} RunsJoin(s: Gates, a: seq<Action>, mid: Gates, b: seq<Action>, end: Gates)
    requires Reaches(s, a, mid) && Reaches(mid, b, end)
    ensures Reaches(s, a + b, end)
    decreases |a|
  {
    hide Apply, Enabled;
    if a == [] {
      assert a + b == b;
    } else {
      assert (a + b)[1..] == a[1..] + b;
      RunsJoin(Apply(s, a[0]), a[1..], mid, b, end);
    }
  }

  /**
   One attempt comes and goes; a waiter misses the end of its cooldown. It is blocked without bound on a gate it
   could reserve, and stays so in every continuation in which no other attempt is given a token.
   */
  lemma {:induction false} WaiterLeftBehind() returns (actions: seq<Action>, end: Gates)
    ensures Initial(FIRST) && Reaches(FIRST, actions, end)
    ensures BlockedWithoutBound(end, 2) && CanReserve(end.gate, true, end.now)
    ensures forall more, later | Reaches(end, more, later) && later.issued == end.issued ::
              AttemptOf(later, 2) == AttemptOf(end, 2)
  {
    hide Apply, Enabled, Reaches;
    ToRecorded();
    ToFree();
    RunsJoin(FIRST, [Take(1, true), Own(1), Record(1)], RECORDED, [Leave(1), Release(1)], FREE);
    end := ToBlocked();
    actions := [Take(1, true), Own(1), Record(1)] + [Leave(1), Release(1)];
    RunsJoin(FIRST, actions, FREE, [TryPass(2, None, true, true, MISSED, 3.0)], end);
    actions := actions + [TryPass(2, None, true, true, MISSED, 3.0)];
    forall more, later | Reaches(end, more, later) && later.issued == end.issued
      ensures AttemptOf(later, 2) == AttemptOf(end, 2)
    {
      WaitsForAnotherAttempt(FIRST, actions, end, more, later, 2);
    }
  }
}
