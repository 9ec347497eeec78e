/**
 One search provider's admission state: reservation, lease and start cooldown. Every function here is
 one section executed under the provider's lock; the class runs the same sections in place.
 Times are seconds of a monotonic clock; a provider that never started has no last start.
 */
module ProviderState {
  import opened Common

  type Token = nat

  const MINIMUM_START_INTERVAL: real := 3.0

  datatype Provider = Provider(active: bool, reservation: Option<Token>, lastStart: Option<real>)

  const FRESH := Provider(false, None, None)

  predicate Owned(p: Provider) {
    p.active || p.reservation.Some?
  }

  /** Seconds until the cooldown ends; not positive when it has ended. */
  function Remaining(p: Provider, now: real): real {
    if p.lastStart.None? then 0.0 else MINIMUM_START_INTERVAL - (now - p.lastStart.value)
  }

  predicate Admissible(p: Provider, now: real) {
    !Owned(p) && Remaining(p, now) <= 0.0
  }

  function Reserved(p: Provider, token: Token): Provider {
    p.(reservation := Some(token))
  }

  function Released(p: Provider, token: Token): Provider {
    if p.reservation == Some(token) then p.(reservation := None) else p
  }

  /** Whether a lease may be entered: with a token it must be the reservation, without one the provider must be free. */
  predicate CanEnter(p: Provider, token: Option<Token>, now: real) {
    if token.Some? then p.reservation == token && !p.active else Admissible(p, now)
  }

  function Entered(p: Provider): Provider {
    p.(active := true, reservation := None)
  }

  function Exited(p: Provider): Provider {
    p.(active := false)
  }

  function Started(p: Provider, now: real): Provider {
    if Remaining(p, now) <= 0.0 then p.(lastStart := Some(now)) else p
  }

  /** Three seconds have passed since the last start, if there was one. */
  predicate Cooled(lastStart: Option<real>, now: real) {
    lastStart.Some? ==> lastStart.value + 3.0 <= now
  }

  class State {
    var active: bool
    var reservation: Option<Token>
    var lastStart: Option<real>

    constructor ()
      ensures Value() == FRESH
    {
      active, reservation, lastStart := false, None, None;
    }

    function Value(): Provider
      reads this
    {
      Provider(active, reservation, lastStart)
    }

    /** Reserves the provider unless it is owned or cooling; the token is the caller's fresh one. */
    method Reserve(now: real, fresh_: Token) returns (token: Option<Token>)
      modifies this
      ensures token.Some? <==> Admissible(old(Value()), now)
      ensures token.Some? ==> token == Some(fresh_) && Value() == Reserved(old(Value()), fresh_)
      ensures token.None? ==> Value() == old(Value())
      ensures token.Some? <==> !active && old(reservation).None? && Cooled(lastStart, now)
      ensures active == old(active) && lastStart == old(lastStart)
      ensures reservation == if token.Some? then Some(fresh_) else old(reservation)
    {
      if active || reservation.Some? || (lastStart.Some? && now - lastStart.value < MINIMUM_START_INTERVAL) {
        return None;
      }
      reservation := Some(fresh_);
      return Some(fresh_);
    }

    method Release(token: Option<Token>) returns (released: bool)
      modifies this
      ensures released <==> token.Some? && old(reservation) == token
      ensures Value() == if token.Some? then Released(old(Value()), token.value) else old(Value())
      ensures active == old(active) && lastStart == old(lastStart)
      ensures reservation == if released then None else old(reservation)
    {
      released := false;
      if token.Some? && reservation == token {
        reservation := None;
        released := true;
      }
    }

    method EnterLease(token: Option<Token>, now: real) returns (entered: bool)
      modifies this
      ensures entered <==> CanEnter(old(Value()), token, now)
      ensures Value() == if entered then Entered(old(Value())) else old(Value())
      ensures entered <==>
              !old(active) && if token.Some? then old(reservation) == token else old(reservation).None? && Cooled(lastStart, now)
      ensures active == (old(active) || entered) && lastStart == old(lastStart)
      ensures reservation == if entered then None else old(reservation)
    {
      if token.Some? {
        if reservation != token || active {
          return false;
        }
        reservation := None;
      } else if active || reservation.Some?
                || (lastStart.Some? && now - lastStart.value < MINIMUM_START_INTERVAL) {
        return false;
      }
      active := true;
      return true;
    }

    method ExitLease()
      modifies this
      ensures Value() == Exited(old(Value()))
      ensures !active && reservation == old(reservation) && lastStart == old(lastStart)
    {
      active := false;
    }

    /** One pass of the start recorder: records now, or returns the seconds it must still sleep. */
    method TryRecordStart(now: real) returns (sleep: Option<real>)
      modifies this
      ensures sleep.None? <==> Remaining(old(Value()), now) <= 0.0
      ensures sleep.Some? ==> sleep.value == Remaining(old(Value()), now)
      ensures Value() == Started(old(Value()), now)
      ensures sleep.None? <==> Cooled(old(lastStart), now)
      ensures sleep.Some? ==> now + sleep.value == old(lastStart).value + 3.0
      ensures lastStart == (if sleep.None? then Some(now) else old(lastStart))
      ensures active == old(active) && reservation == old(reservation)
    {
      if lastStart.Some? && MINIMUM_START_INTERVAL - (now - lastStart.value) > 0.0 {
        return Some(MINIMUM_START_INTERVAL - (now - lastStart.value));
      }
      lastStart := Some(now);
      return None;
    }
  }
}
