/**
 The embedding server's child-process lifecycle. Each function is one section run under the condition's lock;
 the class runs the same sections in place. Processes are named by number; times are monotonic seconds.
 */
module Lifecycle {
  import opened Common

  type Child = nat

  datatype Core = Core(
    child: Option<Child>,
    starting: bool,
    stopping: bool,
    active: nat,
    lastCompleted: real,
    closed: bool,
    requested: bool)

  datatype Verdict = Admitted | Refused | Blocked | Starter

  /** The head of a request: it is admitted to the installed child, refused, made to wait, or made the starter. */
  function Dropped(c: Core, exited: bool): Core {
    if c.child.Some? && exited then c.(child := None) else c
  }

  function Decide(c: Core): Verdict {
    if c.closed then Refused
    else if c.child.Some? && !c.stopping then Admitted
    else if c.requested then Refused
    else if c.starting || c.stopping then Blocked
    else Starter
  }

  function Begun(c: Core, exited: bool): (r: (Core, Verdict)) {
    if c.closed then (c, Refused)
    else
      var d := Dropped(c, exited);
      var v := Decide(d);
      (match v
       case Admitted => d.(active := d.active + 1)
       case Starter => d.(starting := true)
       case _ => d,
       v)
  }

  function Started(c: Core, child: Option<Child>): Core {
    if child.Some? then c.(starting := false, child := child, active := c.active + 1)
    else c.(starting := false, child := None)
  }

  predicate CanReap(c: Core, now: real, idleSeconds: real) {
    c.child.Some? && c.active == 0 && !c.starting && !c.stopping && now - c.lastCompleted >= idleSeconds
  }

  function Reaped(c: Core, child: Child): Core {
    c.(child := if c.child == Some(child) then None else c.child, stopping := false)
  }

  predicate Quiet(c: Core) {
    c.active == 0 && !c.starting && !c.stopping
  }

  /** Stopping excludes active requests and startups; starting excludes an installed child. */
  predicate Sound(c: Core) {
    && (c.stopping ==> c.active == 0 && !c.starting)
    && (c.starting ==> c.child.None?)
  }

  class Proxy {
    const idleSeconds: real
    var child: Option<Child>
    var starting: bool
    var stopping: bool
    var active: nat
    var lastCompleted: real
    var closed: bool
    var requested: bool

    constructor (idleSeconds: real, now: real)
      ensures Value() == Core(None, false, false, 0, now, false, false)
    {
      this.idleSeconds := idleSeconds;
      child, starting, stopping, active, lastCompleted, closed, requested := None, false, false, 0, now, false, false;
    }

    function Value(): Core
      reads this
    {
      Core(child, starting, stopping, active, lastCompleted, closed, requested)
    }

    method TryBegin(exited: bool) returns (v: Verdict)
      modifies this
      ensures (Value(), v) == Begun(old(Value()), exited)
      ensures var gone := old(child).None? || exited;
              && (v.Admitted? <==> !closed && !gone && !stopping)
              && (v.Refused? <==> closed || ((gone || stopping) && requested))
              && (v.Blocked? <==> !closed && (gone || stopping) && !requested && (old(starting) || stopping))
              && (v.Starter? <==> !closed && gone && !requested && !old(starting) && !stopping)
              && active == old(active) + (if v.Admitted? then 1 else 0)
              && starting == (old(starting) || v.Starter?) && stopping == old(stopping)
              && child == (if !closed && exited then None else old(child))
              && lastCompleted == old(lastCompleted) && closed == old(closed) && requested == old(requested)
      ensures Sound(old(Value())) ==> Sound(Value())
    {
      if closed {
        return Refused;
      }
      if child.Some? && exited {
        child := None;
      }
      if child.Some? && !stopping {
        active := active + 1;
        return Admitted;
      }
      if requested {
        return Refused;
      }
      if starting || stopping {
        return Blocked;
      }
      starting := true;
      return Starter;
    }

    /** The end of a startup: the next request on an open proxy is admitted to the new child, or starts another. */
    method FinishStart(started: Option<Child>)
      modifies this
      ensures Value() == Started(old(Value()), started)
      ensures !starting && child == started && active == old(active) + (if started.Some? then 1 else 0)
      ensures stopping == old(stopping) && lastCompleted == old(lastCompleted)
              && closed == old(closed) && requested == old(requested)
      ensures old(starting) && Sound(old(Value())) ==>
              && Sound(Value())
              && (!closed && started.Some? ==> Decide(Value()) == Admitted && active > 0)
              && (!closed && started.None? && !requested ==> Decide(Value()) == Starter)
    {
      starting := false;
      if started.Some? {
        child := started;
        active := active + 1;
      } else {
        child := None;
      }
    }

    method EndRequest(now: real) returns (ok: bool)
      modifies this
      ensures ok <==> old(active) > 0
      ensures Value() == if ok then old(Value()).(active := old(active) - 1, lastCompleted := now) else old(Value())
      ensures Sound(old(Value())) ==> Sound(Value())
    {
      if active <= 0 {
        return false;
      }
      active := active - 1;
      lastCompleted := now;
      return true;
    }

    method TryReap(now: real) returns (victim: Option<Child>)
      modifies this
      ensures victim == if CanReap(old(Value()), now, idleSeconds) then old(child) else None
      ensures victim.Some? <==>
              child.Some? && active == 0 && !starting && !old(stopping) && lastCompleted + idleSeconds <= now
      ensures Value() == if victim.Some? then old(Value()).(stopping := true) else old(Value())
      ensures Sound(old(Value())) ==> Sound(Value())
    {
      if child.None? || active > 0 || starting || stopping || now - lastCompleted < idleSeconds {
        return None;
      }
      stopping := true;
      return child;
    }

    /** The end of a stop: no child is installed, nothing is active, and the next request on an open proxy starts one. */
    method FinishReap(victim: Child)
      modifies this
      ensures Value() == Reaped(old(Value()), victim)
      ensures !stopping && child == (if old(child) == Some(victim) then None else old(child))
      ensures active == old(active) && starting == old(starting) && lastCompleted == old(lastCompleted)
              && closed == old(closed) && requested == old(requested)
      ensures old(stopping) && Sound(old(Value())) && (old(child).None? || old(child) == Some(victim)) ==>
              && Sound(Value()) && Quiet(Value()) && child.None?
              && (!closed && !requested ==> Decide(Value()) == Starter)
    {
      if child == Some(victim) {
        child := None;
      }
      stopping := false;
    }

    method TryFinishShutdown() returns (done: bool, last: Option<Child>)
      modifies this
      ensures done <==> Quiet(old(Value()))
      ensures done <==> active == 0 && !starting && !stopping
      ensures Value() == if done then old(Value()).(child := None) else old(Value())
      ensures last == if done then old(child) else None
      ensures Sound(old(Value())) ==> Sound(Value())
    {
      if active > 0 || starting || stopping {
        return false, None;
      }
      done, last := true, child;
      child := None;
    }
  }
}
