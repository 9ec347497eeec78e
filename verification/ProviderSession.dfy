/**
 The idle expiry of one provider's browser session on its event loop. Queries of a provider are serialized by
 its lease; the idle timer and the expiry task it creates run between any two of their steps.
 */
module ProviderSession {
  import opened Common

  type SessionId = nat

  /** An armed idle timer, with the generation its expiry will carry. */
  datatype Idle = Idle(deadline: real, generation: nat)

  /** A started expiry has already let go of the session and only waits for its connection to close. */
  datatype Expiry = Expiry(generation: nat, started: bool)

  datatype Stage =
    | AtRest
    /** A query that found a running expiry waits for it; late is the session whose deadline it began after. */
    | Arriving(late: Option<SessionId>)
    | Running(session: SessionId)

  class Browser {
    const idleSeconds: real
    var session: Option<SessionId>
    var idle: Option<Idle>
    var expiry: Option<Expiry>
    var generation: nat
    /** Sessions are numbered as they are created; due is the idle deadline of the retained one. */
    var created: nat
    ghost var stage: Stage
    ghost var due: Option<real>

    constructor (idleSeconds: real)
      requires idleSeconds > 0.0
      ensures Valid() && stage.AtRest? && session.None?
    {
      this.idleSeconds := idleSeconds;
      session, idle, expiry, generation, created := None, None, None, 0, 0;
      stage, due := AtRest, None;
    }

    /** A retained session with a deadline has its timer armed at that deadline, or its expiry on the way. */
    ghost predicate Valid()
      reads this
    {
      && idleSeconds > 0.0
      && (session.Some? ==> session.value < created)
      && (expiry.Some? ==> expiry.value.generation == generation && (expiry.value.started ==> session.None?))
      && (idle.Some? ==> idle.value.generation == generation && stage.AtRest? && expiry.None?)
      && match stage
         case AtRest =>
           session.Some? ==>
             if due.Some? then expiry.Some? || (idle.Some? && idle.value.deadline == due.value)
             else idle.None? && expiry.None?
         case Arriving(late) =>
           && (session.Some? && due.None? ==> expiry.None?)
           && (late.Some? ==> late.value < created && (session.None? || (session == late && expiry.Some?)))
         case Running(k) => session == Some(k) && expiry.None?
    }

    /** The timer callback: it may run long after the deadline, or not before the next query at all. */
    method BeginExpiry()
      requires Valid() && idle.Some?
      modifies this
      ensures Valid() && session == old(session) && stage == old(stage) && due == old(due) && created == old(created)
      ensures idle.None? && expiry.Some? && !expiry.value.started
    {
      expiry := Some(Expiry(idle.value.generation, false));
      idle := None;
    }

    /** The expiry task's first step: it lets go of the session before it awaits the close. */
    method Expire()
      requires Valid() && expiry.Some? && !expiry.value.started
      modifies this
      ensures Valid() && session.None? && stage == old(stage) && created == old(created)
      ensures expiry == Some(Expiry(old(expiry).value.generation, true))
    {
      var mine := expiry.value.generation;
      expiry := Some(Expiry(mine, true));
      if mine == generation && session.Some? {
        session, idle := None, None;
      }
    }

    method ExpiryDone()
      requires Valid() && expiry.Some? && expiry.value.started
      modifies this
      ensures Valid() && session == old(session) && stage == old(stage) && expiry.None? && created == old(created)
    {
      expiry := None;
    }

    /** The synchronous head of a query: an already reached deadline lets go of the session here and now. */
    method BeginQuery(now: real)
      requires Valid() && stage.AtRest?
      modifies this
      ensures Valid() && idle.None? && created == old(created) && expiry == old(expiry)
      ensures stage == Arriving(if old(session).Some? && old(due).Some? && now >= old(due).value
                                then old(session) else None)
      ensures session.None? || session == old(session)
      ensures old(session).Some? && old(idle).Some? && now < old(idle).value.deadline ==> session == old(session)
    {
      stage := Arriving(if session.Some? && due.Some? && now >= due.value then session else None);
      if idle.Some? {
        var reached := now >= idle.value.deadline;
        idle := None;
        if reached && session.Some? {
          session := None;
        }
      }
    }

    /** A query cancelled while it waits for a running expiry leaves that expiry running. */
    method CancelArrival()
      requires Valid() && stage.Arriving? && (expiry.Some? || session.None?)
      modifies this
      ensures Valid() && stage.AtRest? && session == old(session) && expiry == old(expiry) && created == old(created)
    {
      stage := AtRest;
    }

    /** Once no expiry is running the query takes the retained session or a new one, never an expired one. */
    method OpenQuery() returns (k: SessionId, reused: bool)
      requires Valid() && stage.Arriving? && expiry.None?
      modifies this
      ensures Valid() && stage == Running(k) && session == Some(k) && generation == old(generation) + 1
      ensures reused <==> old(session).Some?
      ensures reused ==> old(session) == Some(k)
      ensures !reused ==> k == old(created) && created == old(created) + 1
      ensures old(stage).late.Some? ==> k != old(stage).late.value && !reused
    {
      generation := generation + 1;
      reused := session.Some?;
      if session.None? {
        session := Some(created);
        created := created + 1;
      }
      k := session.value;
      stage := Running(k);
    }

    /** The end of a query: a pending session has no deadline, a live one gets a new one, a closed one is dropped. */
    method EndQuery(now: real, pendingProof: bool, active: bool)
      requires Valid() && stage.Running?
      modifies this
      ensures Valid() && stage.AtRest? && created == old(created)
      ensures session == if pendingProof || active then old(session) else None
      ensures pendingProof ==> idle.None? && due.None?
      ensures !pendingProof && active ==> due == Some(now + idleSeconds) && idle == Some(Idle(now + idleSeconds, generation))
    {
      stage, due := AtRest, None;
      if pendingProof {
        idle := None;
      } else if active {
        idle := Some(Idle(now + idleSeconds, generation));
        due := Some(now + idleSeconds);
      } else {
        session := None;
      }
    }

    /** A resumed proof: only a pending session can come back active, and only then has no timer been armed. */
    method EndResume(now: real, active: bool)
      requires Valid() && stage.AtRest? && session.Some? && (active ==> due.None?)
      modifies this
      ensures Valid() && stage.AtRest? && created == old(created)
      ensures session == if active then old(session) else None
      ensures active ==> due == Some(now + idleSeconds) && idle == Some(Idle(now + idleSeconds, generation))
    {
      if active {
        idle := Some(Idle(now + idleSeconds, generation));
        due := Some(now + idleSeconds);
      } else {
        session := None;
      }
    }

    method EndAbort()
      requires Valid() && stage.AtRest?
      modifies this
      ensures Valid() && session.None? && created == old(created)
    {
      session := None;
    }
  }

  /** Two queries with any expiry work between them: one that begins at or after the deadline gets a new session. */
  method QueryAfterIdle(b: Browser, end: real, next: real, timerFires: bool, taskRuns: bool)
    returns (before: SessionId, after: SessionId)
    requires b.Valid() && b.stage.Running?
    modifies b
    ensures b.Valid() && b.stage == Running(after)
    ensures before == old(b.session).value
    ensures next >= end + b.idleSeconds ==> after != before
    ensures next < end + b.idleSeconds && !timerFires ==> after == before
  {
    before := b.session.value;
    b.EndQuery(end, false, true);
    if timerFires {
      b.BeginExpiry();
      if taskRuns {
        b.Expire();
      }
    }
    b.BeginQuery(next);
    if b.expiry.Some? {
      if !b.expiry.value.started {
        b.Expire();
      }
      b.ExpiryDone();
    }
    var reused;
    after, reused := b.OpenQuery();
  }
}
