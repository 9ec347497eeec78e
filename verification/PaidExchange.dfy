/**
 One paid API attempt: an optional unsigned discovery POST, one signed POST, and the token that admits both.
 Deadline checks, network answers, decoding and signing are the environment's choice; every await may fail.
 */
module PaidExchange {
  import opened Common
  import opened PaidAdmission

  type Terms = nat
  type Json = nat

  /** What one POST brings back: terms and receipt are the decoded headers, body the parsed document. */
  datatype Response = Response(
    status: int,
    terms: Option<Terms>,
    receiptSuccess: Option<bool>,
    retryAfter: Option<real>,
    body: Option<Json>)

  /** late[i] tells whether the i-th deadline check of the attempt fails; a missing answer is a failed request. */
  datatype World = World(
    late: seq<bool>,
    discovery: Option<Response>,
    signs: bool,
    paid: Option<Response>,
    startedAt: real)

  predicate Late(w: World, check: nat) {
    check < |w.late| && w.late[check]
  }

  datatype Payment = NotSubmitted | Unknown | ReportedSuccess | ReportedRejection

  datatype Reason =
    | ProviderUnavailable | RateLimited | PaymentRejected | InvalidResponse | PaymentStatusUnknown

  datatype Failure = Failed

  datatype Event = Start | Unsigned | Signed(terms: Terms)

  const UNAVAILABLE_SUSPENSION: real := 3600.0

  class Outcome {
    var submitted: bool
    var payment: Payment
    var reason: Reason
    var suspension: Option<real>

    constructor ()
      ensures Fresh()
    {
      submitted, payment, reason, suspension := false, NotSubmitted, ProviderUnavailable, None;
    }

    predicate Fresh()
      reads this
    {
      !submitted && payment.NotSubmitted? && suspension.None?
    }
  }

  class Client {
    var requirements: Option<Terms>

    /** Forgets the cached terms and keeps the replacement the answer carries, if it decodes. */
    method Rejected(replacement: Option<Terms>)
      modifies this
      ensures requirements == replacement
    {
      requirements := None;
      if replacement.Some? {
        requirements := replacement;
      }
    }
  }

  class Wire {
    var events: seq<Event>

    method Log(e: Event)
      modifies this
      ensures events == old(events) + [e]
    {
      events := events + [e];
    }
  }

  function RetryDelay(value: Option<real>): (delay: real)
    ensures 60.0 <= delay <= 3600.0
    ensures value.Some? && 60.0 <= value.value <= 3600.0 ==> delay == value.value
    ensures value.None? || value.value < 60.0 ==> delay == 60.0
    ensures value.Some? && value.value > 3600.0 ==> delay == 3600.0
  {
    var wished := if value.Some? then value.value else 60.0;
    var capped := if wished < 3600.0 then wished else 3600.0;
    if capped < 60.0 then 60.0 else capped
  }

  function StatusSuspension(r: Response): Option<real> {
    if r.status == 429 then Some(RetryDelay(r.retryAfter))
    else if r.status == 401 || r.status == 403 then Some(UNAVAILABLE_SUSPENSION)
    else None
  }

  /** How long an answer suspends the provider: as long as it asks for, within a minute and an hour, or an hour. */
  predicate Suspends(r: Response, suspension: Option<real>) {
    && (r.status == 429 ==>
          suspension == Some(if r.retryAfter.None? || r.retryAfter.value < 60.0 then 60.0
                             else if r.retryAfter.value > 3600.0 then 3600.0 else r.retryAfter.value))
    && (r.status == 401 || r.status == 403 ==> suspension == Some(3600.0))
    && (r.status !in {401, 403, 429} ==> suspension.None?)
  }

  lemma StatusSuspends(r: Response)
    ensures Suspends(r, StatusSuspension(r))
  {
  }

  method ClassifyStatus(r: Response, outcome: Outcome)
    modifies outcome
    ensures old(outcome.suspension).None? || StatusSuspension(r).Some? ==> Suspends(r, outcome.suspension)
    ensures outcome.submitted == old(outcome.submitted) && outcome.payment == old(outcome.payment)
    ensures outcome.suspension == if StatusSuspension(r).Some? then StatusSuspension(r) else old(outcome.suspension)
    ensures outcome.reason ==
            if r.status == 429 then RateLimited
            else if r.status == 401 || r.status == 403 then ProviderUnavailable
            else if r.status == 402 && outcome.submitted then PaymentRejected
            else old(outcome.reason)
  {
    if r.status == 429 {
      outcome.reason := RateLimited;
      outcome.suspension := Some(RetryDelay(r.retryAfter));
    } else if r.status == 401 || r.status == 403 {
      outcome.reason := ProviderUnavailable;
      outcome.suspension := Some(UNAVAILABLE_SUSPENSION);
    } else if r.status == 402 && outcome.submitted {
      outcome.reason := PaymentRejected;
    }
  }

  predicate IsRejection(r: Response) {
    r.status == 402 || r.receiptSuccess == Some(false)
  }

  /** The reason a signed request ends with: the status first, then a refused payment, an unknown one, or a bad answer. */
  predicate Explains(r: Response, reason: Reason) {
    && (r.status == 429 ==> reason == RateLimited)
    && (r.status in {401, 403} ==> reason == ProviderUnavailable)
    && (r.status !in {401, 403, 429} && IsRejection(r) ==> reason == PaymentRejected)
    && (r.status !in {401, 402, 403, 429} && r.receiptSuccess.None? ==> reason == PaymentStatusUnknown)
    && (200 <= r.status < 300 && r.receiptSuccess == Some(true) ==> reason == InvalidResponse)
  }

  // ---- What an attempt puts on the wire ----

  /** A cold attempt that discovered terms and got as far as signing under them. */
  predicate PaysAfterDiscovery(w: World) {
    && w.discovery.Some? && w.discovery.value.status == 402 && w.discovery.value.terms.Some?
    && !Late(w, 2) && !Late(w, 3) && !Late(w, 4) && w.signs && !Late(w, 5) && !Late(w, 6)
  }

  /** Everything an attempt sends, from the cached terms and what happens around it. */
  function Sent(cached: Option<Terms>, w: World): seq<Event> {
    if Late(w, 0) then []
    else
      match cached
      case None =>
        if Late(w, 1) then []
        else
          [Start, Unsigned] + (if PaysAfterDiscovery(w) then [Signed(w.discovery.value.terms.value)] else [])
      case Some(terms) =>
        if Late(w, 4) || !w.signs || Late(w, 5) then []
        else [Start] + (if Late(w, 6) then [] else [Signed(terms)])
  }

  /** The document an attempt returns, if it returns one. */
  function Earned(cached: Option<Terms>, w: World): Option<Json> {
    if HasSigned(Sent(cached, w)) then
      if w.paid.Some? && w.paid.value.receiptSuccess == Some(true) && w.paid.value.status != 402
         && 200 <= w.paid.value.status < 300 && !Late(w, 7) && !Late(w, 8)
      then w.paid.value.body else None
    else if cached.None? && Sent(cached, w) != [] && w.discovery.Some? && w.discovery.value.status == 200
            && !Late(w, 2) && !Late(w, 3)
    then w.discovery.value.body
    else None
  }

  predicate HasSigned(sent: seq<Event>) {
    exists i | 0 <= i < |sent| :: sent[i].Signed?
  }

  /** At most one start, one unsigned and one signed POST; a start precedes every POST; warm attempts never discover. */
  lemma SentAtMostOnce(cached: Option<Terms>, w: World, i: nat, j: nat)
    requires i < j < |Sent(cached, w)|
    ensures var sent := Sent(cached, w);
            && sent[0].Start? && sent[i] != sent[j] && !(sent[i].Signed? && sent[j].Signed?)
            && (cached.Some? ==> !sent[j].Unsigned? && (sent[j].Signed? ==> sent[j].terms == cached.value))
  {
  }

  /** A document is a free answer to discovery, or one paid for with a receipt and a status that both say success. */
  lemma EarnedMeans(cached: Option<Terms>, w: World)
    requires Earned(cached, w).Some?
    ensures if HasSigned(Sent(cached, w))
            then w.paid.Some? && w.paid.value.receiptSuccess == Some(true) && !IsRejection(w.paid.value)
                 && Earned(cached, w) == w.paid.value.body
            else Sent(cached, w) == [Start, Unsigned] && w.discovery.Some? && w.discovery.value.status == 200
                 && Earned(cached, w) == w.discovery.value.body
  {
  }

  /** The terms cached after an attempt, given what it sent. */
  predicate CacheFollows(sent: seq<Event>, before: Option<Terms>, after: Option<Terms>, w: World) {
    if HasSigned(sent) && w.paid.Some? && IsRejection(w.paid.value) then after == w.paid.value.terms
    else if before.Some? then after == before
    else if HasSigned(sent) then w.discovery.Some? && after == w.discovery.value.terms
    else after.None? || (sent == [Start, Unsigned] && w.discovery.Some? && after == w.discovery.value.terms)
  }

  /** The attempt gets as far as its signed request: warm at once, cold after terms in a 402 answer. */
  predicate Signs(cached: Option<Terms>, w: World) {
    && !Late(w, 0) && !Late(w, 4) && w.signs && !Late(w, 5) && !Late(w, 6)
    && (cached.None? ==>
          && !Late(w, 1) && w.discovery.Some? && w.discovery.value.status == 402 && w.discovery.value.terms.Some?
          && !Late(w, 2) && !Late(w, 3))
  }

  /** What is sent, and when: a start before the first request, one unsigned request of a cold attempt, one signed one. */
  ghost predicate ExactlySends(sent: seq<Event>, cached: Option<Terms>, w: World) {
    && |sent| <= 3
    && (Start in sent <==> !Late(w, 0) && if cached.None? then !Late(w, 1) else !Late(w, 4) && w.signs && !Late(w, 5))
    && (Start in sent ==> sent[0] == Start)
    && (Unsigned in sent <==> cached.None? && !Late(w, 0) && !Late(w, 1))
    && (Unsigned in sent ==> |sent| > 1 && sent[1] == Unsigned)
    && (forall t: Terms :: Signed(t) in sent <==>
          Signs(cached, w) && Some(t) == if cached.Some? then cached else w.discovery.value.terms)
    && (Signs(cached, w) ==> sent != [] && sent[|sent| - 1].Signed?)
    && |sent| == (if Start in sent then 1 else 0) + (if Unsigned in sent then 1 else 0) + (if Signs(cached, w) then 1 else 0)
  }

  lemma SendsExactly(cached: Option<Terms>, w: World)
    ensures ExactlySends(Sent(cached, w), cached, w)
    ensures HasSigned(Sent(cached, w)) <==> Signs(cached, w)
  {
    hide Late;
    var sent := Sent(cached, w);
    if Signs(cached, w) {
      assert sent[|sent| - 1].Signed?;
    }
  }

  /** The document is the free answer of a cold attempt, or the paid one, when that succeeded in time. */
  predicate Returns(r: Result<Json, Failure>, cached: Option<Terms>, w: World) {
    && (r.Ok? <==>
          || (cached.None? && !Late(w, 0) && !Late(w, 1) && !Late(w, 2) && !Late(w, 3) && w.discovery.Some?
              && w.discovery.value.status == 200 && w.discovery.value.body.Some?)
          || (Signs(cached, w) && w.paid.Some? && w.paid.value.receiptSuccess == Some(true)
              && 200 <= w.paid.value.status < 300 && w.paid.value.body.Some? && !Late(w, 7) && !Late(w, 8)))
    && (r.Ok? ==> Some(r.value) == if Signs(cached, w) then w.paid.value.body else w.discovery.value.body)
  }

  method Discover(client: Client, gate: Gate, outcome: Outcome, wire: Wire, w: World)
    returns (r: Result<Option<Json>, Failure>)
    requires outcome.Fresh() && client.requirements.None? && gate.active
    modifies client, gate, outcome, wire
    ensures outcome.submitted == false && outcome.payment.NotSubmitted?
    ensures gate.Value() == old(gate.Value()).(lastStart := gate.lastStart)
    ensures if Late(w, 1)
            then wire.events == old(wire.events) && gate.lastStart == old(gate.lastStart)
                 && client.requirements.None? && r.Err?
            else wire.events == old(wire.events) + [Start, Unsigned] && gate.lastStart == Some(w.startedAt)
    ensures r.Ok? <==> !Late(w, 1) && w.discovery.Some? && !Late(w, 2) && !Late(w, 3)
                       && if w.discovery.value.status == 200 then w.discovery.value.body.Some?
                          else w.discovery.value.status == 402 && w.discovery.value.terms.Some?
    ensures r.Ok? && r.value.Some? ==>
            && w.discovery.Some? && w.discovery.value.status == 200 && r.value == w.discovery.value.body
            && client.requirements.None?
    ensures r == Result.Ok(None) ==>
            && w.discovery.Some? && w.discovery.value.status == 402
            && w.discovery.value.terms.Some? && client.requirements == w.discovery.value.terms
    ensures r.Err? ==> client.requirements.None? || (w.discovery.Some? && client.requirements == w.discovery.value.terms)
    ensures outcome.suspension.Some? ==> 60.0 <= outcome.suspension.value <= 3600.0
    ensures r.Ok? && r.value.None? ==> outcome.suspension.None?
    ensures if Late(w, 1) || w.discovery.None? then outcome.suspension.None? else Suspends(w.discovery.value, outcome.suspension)
  {
    if Late(w, 1) {
      return Err(Failed);
    }
    var started := gate.RecordStart(w.startedAt);
    wire.Log(Start);
    wire.Log(Unsigned);
    assert wire.events == old(wire.events) + [Start, Unsigned];
    if w.discovery.None? {
      return Err(Failed);
    }
    var answer := w.discovery.value;
    ClassifyStatus(answer, outcome);
    if answer.status == 200 {
      outcome.reason := InvalidResponse;
      if answer.body.None? || Late(w, 2) || Late(w, 3) {
        return Err(Failed);
      }
      return Ok(answer.body);
    }
    if answer.status != 402 {
      return Err(Failed);
    }
    outcome.reason := InvalidResponse;
    if Late(w, 2) || answer.terms.None? {
      return Err(Failed);
    }
    client.requirements := answer.terms;
    if Late(w, 3) {
      return Err(Failed);
    }
    return Ok(None);
  }

  method Pay(client: Client, outcome: Outcome, wire: Wire, w: World) returns (r: Result<Json, Failure>)
    requires client.requirements.Some? && outcome.Fresh()
    modifies client, outcome, wire
    ensures outcome.submitted && !outcome.payment.NotSubmitted?
    ensures wire.events == old(wire.events) + [Signed(old(client.requirements).value)]
    ensures client.requirements ==
            if w.paid.Some? && IsRejection(w.paid.value) then w.paid.value.terms else old(client.requirements)
    ensures r.Ok? <==>
            && w.paid.Some? && w.paid.value.receiptSuccess == Some(true) && 200 <= w.paid.value.status < 300
            && w.paid.value.body.Some? && !Late(w, 7) && !Late(w, 8)
    ensures r.Ok? ==> w.paid.value.body == Some(r.value)
    ensures outcome.payment.ReportedSuccess? <==> w.paid.Some? && w.paid.value.receiptSuccess == Some(true)
    ensures outcome.payment.Unknown? <==> w.paid.None? || w.paid.value.receiptSuccess.None?
    ensures w.paid.None? || StatusSuspension(w.paid.value).None? ==> outcome.suspension.None?
    ensures outcome.suspension.Some? ==> 60.0 <= outcome.suspension.value <= 3600.0
    ensures if w.paid.None? then outcome.suspension.None? else Suspends(w.paid.value, outcome.suspension)
    ensures w.paid.None? ==> outcome.reason == PaymentStatusUnknown
    ensures w.paid.Some? ==> Explains(w.paid.value, outcome.reason)
  {
    outcome.submitted := true;
    outcome.payment := Unknown;
    outcome.reason := PaymentStatusUnknown;
    wire.Log(Signed(client.requirements.value));
    if w.paid.None? {
      return Err(Failed);
    }
    var answer := w.paid.value;
    ClassifyStatus(answer, outcome);
    if answer.receiptSuccess.None? {
      if answer.status == 402 {
        client.Rejected(answer.terms);
      }
      return Err(Failed);
    }
    outcome.payment := if answer.receiptSuccess.value then ReportedSuccess else ReportedRejection;
    if answer.status == 402 || !answer.receiptSuccess.value {
      client.Rejected(answer.terms);
      if answer.status != 401 && answer.status != 403 && answer.status != 429 {
        outcome.reason := PaymentRejected;
      }
      return Err(Failed);
    }
    if !(200 <= answer.status < 300) {
      return Err(Failed);
    }
    outcome.reason := InvalidResponse;
    if answer.body.None? || Late(w, 7) || Late(w, 8) {
      return Err(Failed);
    }
    return Ok(answer.body.value);
  }

  method Exchange(client: Client, gate: Gate, outcome: Outcome, wire: Wire, w: World)
    returns (r: Result<Json, Failure>)
    requires outcome.Fresh() && gate.active
    modifies client, gate, outcome, wire
    ensures var sent := Sent(old(client.requirements), w);
            && wire.events == old(wire.events) + sent
            && (outcome.submitted <==> HasSigned(sent)) && (outcome.payment.NotSubmitted? <==> !HasSigned(sent))
            && CacheFollows(sent, old(client.requirements), client.requirements, w)
            && gate.Value() ==
               old(gate.Value()).(lastStart := if sent == [] then old(gate.lastStart) else Some(w.startedAt))
            && (HasSigned(sent) && (w.paid.None? || StatusSuspension(w.paid.value).None?) ==> outcome.suspension.None?)
    ensures r.Ok? <==> Earned(old(client.requirements), w).Some?
    ensures r.Ok? ==> Earned(old(client.requirements), w) == Some(r.value)
    ensures outcome.suspension.Some? ==> 60.0 <= outcome.suspension.value <= 3600.0
    ensures ExactlySends(wire.events[|old(wire.events)|..], old(client.requirements), w)
    ensures Returns(r, old(client.requirements), w)
    ensures if Signs(old(client.requirements), w) && w.paid.Some? then Suspends(w.paid.value, outcome.suspension)
            else if old(client.requirements).None? && !Late(w, 0) && !Late(w, 1) && w.discovery.Some?
            then Suspends(w.discovery.value, outcome.suspension)
            else outcome.suspension.None?
  {
    SendsExactly(client.requirements, w);
    if Late(w, 0) {
      return Err(Failed);
    }
    var cold := client.requirements.None?;
    if cold {
      var found := Discover(client, gate, outcome, wire, w);
      assert [Start, Unsigned] + [] == [Start, Unsigned];
      if found.Err? {
        return Err(Failed);
      }
      if found.value.Some? {
        return Ok(found.value.value);
      }
    }
    if Late(w, 4) || !w.signs || Late(w, 5) {
      return Err(Failed);
    }
    if !cold {
      var started := gate.RecordStart(w.startedAt);
      wire.Log(Start);
      assert [Start] + [] == [Start];
    }
    if Late(w, 6) {
      return Err(Failed);
    }
    ghost var sent := Sent(old(client.requirements), w);
    assert sent[|sent| - 1] == Signed(client.requirements.value) && HasSigned(sent);
    r := Pay(client, outcome, wire, w);
    assert wire.events == old(wire.events) + sent;
  }

  // ---- The attempt around the exchange ----

  /** How an attempt ended for the processor: results, a suspension in seconds, or neither. */
  datatype Ending = Results(found: Json) | Suspended(seconds: real) | Expired | Invalid

  /** The suspension a failed attempt ends in: what the last answer asked for, else five minutes once paid for, else one. */
  function SuspensionOf(ran: bool, cached: Option<Terms>, w: World): (seconds: real)
    ensures ran && Signs(cached, w) && w.paid.Some? && w.paid.value.status in {401, 403} ==> seconds == 3600.0
    ensures ran && Signs(cached, w) && (w.paid.None? || w.paid.value.status !in {401, 403, 429}) ==> seconds == 300.0
    ensures !ran ==> seconds == 60.0
    ensures ran && !Signs(cached, w) && (cached.Some? || Late(w, 0) || Late(w, 1)) ==> seconds == 60.0
    ensures ran && !Signs(cached, w) && (w.discovery.None? || w.discovery.value.status !in {401, 403, 429}) ==>
              seconds == 60.0
  {
    var last := if !ran then None else if Signs(cached, w) then w.paid
                else if cached.None? && !Late(w, 0) && !Late(w, 1) then w.discovery else None;
    if last.Some? && StatusSuspension(last.value).Some? then StatusSuspension(last.value).value
    else if ran && Signs(cached, w) then 300.0 else 60.0
  }

  /** How the suspension left by the exchange leads to the one the attempt ends in. */
  lemma SuspensionFits(ran: bool, cached: Option<Terms>, w: World, suspension: Option<real>, submitted: bool)
    requires submitted <==> ran && Signs(cached, w)
    requires if !ran then suspension.None?
             else if Signs(cached, w) && w.paid.Some? then Suspends(w.paid.value, suspension)
             else if cached.None? && !Late(w, 0) && !Late(w, 1) && w.discovery.Some?
             then Suspends(w.discovery.value, suspension)
             else suspension.None?
    ensures SuspensionOf(ran, cached, w)
            == if suspension.Some? then suspension.value else if submitted then 300.0 else 60.0
  {
    hide Late;
  }

  /**
   token is what the scheduler reserved or the wait loop returned; parsed is what the answer parses to.
   Whatever happens, the attempt leaves the gate free of its token and of its lease.
   */
  method Process(client: Client, gate: Gate, wire: Wire, token: Option<Token>, suspended: bool, lateAtStart: bool,
                 lateAtSearch: bool, w: World, parsed: Option<Json>)
    returns (ending: Ending)
    modifies client, gate, wire
    ensures var ran := CanOwn(old(gate.Value()), token) && !suspended && !lateAtStart && !lateAtSearch;
            var sent := if ran then Sent(old(client.requirements), w) else [];
            && wire.events == old(wire.events) + sent
            && gate.Value() ==
               (if !CanOwn(old(gate.Value()), token) then Freed(old(gate.Value()), token)
                else Admission(None, false, if sent == [] then old(gate.lastStart) else Some(w.startedAt)))
            && (ending.Results? <==> ran && Earned(old(client.requirements), w).Some? && parsed.Some?)
            && (ending.Results? ==> parsed == Some(ending.found))
            && (HasSigned(sent) ==> ending.Results? || ending.Suspended?)
            && (CanOwn(old(gate.Value()), token) && !suspended && !lateAtStart && !ending.Results? ==>
                  ending == Suspended(SuspensionOf(ran, old(client.requirements), w)))
            && (ran ==> ExactlySends(sent, old(client.requirements), w))
            && (HasSigned(sent) && ending.Suspended? && (w.paid.None? || StatusSuspension(w.paid.value).None?)
                ==> ending.seconds >= 300.0)
    ensures !CanOwn(old(gate.Value()), token) ==> ending == if token.None? then Expired else Invalid
    ensures CanOwn(old(gate.Value()), token) && (suspended || lateAtStart) ==> ending == Expired
    ensures ending.Suspended? ==> 60.0 <= ending.seconds <= 3600.0
  {
    hide Sent, Earned, Signs, ExactlySends, SuspensionOf, Suspends, Late, StatusSuspension;
    SendsExactly(client.requirements, w);
    ghost var cached := client.requirements;
    if token.None? {
      return Expired;
    }
    var owned := gate.Own(token);
    if !owned {
      var notified := gate.Release(token);
      return Invalid;
    }
    ending := Expired;
    if !suspended && !lateAtStart {
      var outcome := new Outcome();
      var r: Result<Json, Failure> := Err(Failed);
      if !lateAtSearch {
        r := Exchange(client, gate, outcome, wire, w);
      }
      SuspensionFits(!lateAtSearch, cached, w, outcome.suspension, outcome.submitted);
      if r.Ok? && parsed.Some? {
        ending := Results(parsed.value);
      } else {
        ending := Suspended(
          if outcome.suspension.Some? then outcome.suspension.value else if outcome.submitted then 300.0 else 60.0);
      }
    }
    gate.Leave();
    var notified := gate.Release(token);
  }
}
