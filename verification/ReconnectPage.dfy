/**
 The chat page's reconnection companion: one stored record, a recovery timer, a poll timer, a status request
 in flight, and the token a reload was committed for. Each function is one callback of the script on the
 page's state; the class runs the same callbacks in place. Every callback reads its clock once.
 */
module ReconnectPage {
  import opened Common

  type Token = nat
  type Session = nat

  const RECORD_TTL := 4 * 60 * 60 * 1000
  const PENDING_GRACE := 15 * 60 * 1000
  const MIN_RECOVERY_INTERVAL := 1500
  const CLOCK_SLACK := 60000
  const POLL_DELAYS: seq<int> := [2000, 5000, 15000, 30000, 60000]

  datatype Phase = NoPhase | Single | SingleWait | Multi

  datatype Record = Record(
    token: Token,
    session: Session,
    startedAt: int,
    multiModel: bool,
    hiddenAt: Option<int>,
    lastRecoveryAt: Option<int>,
    pendingSince: Option<int>,
    phase: Phase,
    attempt: int)

  datatype Purpose = Recover | Settle | SingleSettle | ResumeEof

  datatype Poll = Poll(token: Token, purpose: Purpose)

  datatype Page = Page(
    stored: Option<Record>,
    recoveryTimer: Option<int>,
    pollTimer: Option<Poll>,
    request: Option<Poll>,
    reloading: Option<Token>,
    resumeOwner: Option<Token>)

  /** What a callback finds around the page: the clock, visibility, connectivity, the open chat, and storage. */
  datatype Around = Around(now: int, visible: bool, online: bool, chat: Option<Session>, saves: bool)

  predicate ValidTime(t: Option<int>, least: int, now: int) {
    t.Some? ==> t.value >= least && t.value - now <= CLOCK_SLACK
  }

  predicate ValidRecord(r: Record, now: int) {
    && r.startedAt > 0 && now - r.startedAt <= RECORD_TTL && r.startedAt - now <= CLOCK_SLACK
    && ValidTime(r.hiddenAt, r.startedAt, now)
    && ValidTime(r.lastRecoveryAt, r.startedAt, now)
    && ValidTime(r.pendingSince, r.startedAt, now)
    && 0 <= r.attempt <= |POLL_DELAYS|
  }

  /** Reading the record drops it from storage when it is no longer valid. */
  function Loaded(p: Page, e: Around): Page {
    if p.stored.Some? && !ValidRecord(p.stored.value, e.now) then p.(stored := None) else p
  }

  predicate Holds(p: Page, k: Token) {
    p.stored.Some? && p.stored.value.token == k
  }

  predicate CanSave(r: Record, e: Around) {
    ValidRecord(r, e.now) && e.saves
  }

  predicate Eligible(r: Record, e: Around) {
    e.visible && e.online && e.chat == Some(r.session)
  }

  function Cancel(p: Page, k: Option<Token>): Page {
    p.(recoveryTimer := None, pollTimer := None,
       request := if p.request.Some? && (k.None? || p.request.value.token == k.value) then None else p.request)
  }

  function Clear(p: Page, k: Token, e: Around): Page {
    if p.reloading == Some(k) then p
    else
      var q := Loaded(p, e);
      if !Holds(q, k) then q
      else
        Cancel(q.(stored := None), Some(k)).(
          resumeOwner := if q.resumeOwner == Some(k) then None else q.resumeOwner)
  }

  function ScheduleRecovery(p: Page, e: Around): Page {
    var q := Loaded(p, e);
    if q.stored.None? || q.reloading == Some(q.stored.value.token) || q.recoveryTimer.Some? then q
    else q.(recoveryTimer := Some(0))
  }

  function Mark(p: Page, k: Token, failedReplay: bool, e: Around): Page {
    if p.reloading == Some(k) then p
    else
      var q := Loaded(p, e);
      if !Holds(q, k) then q
      else
        var r := q.stored.value;
        var phase := if failedReplay && r.phase == Single then SingleWait else r.phase;
        var marked := r.(phase := phase, hiddenAt := Some(e.now), attempt := 0);
        if !CanSave(marked, e) then Cancel(q, Some(k))
        else ScheduleRecovery(Cancel(q, Some(k)).(stored := Some(marked)), e)
  }

  function PollDelay(attempt: int, immediate: bool): (delay: int)
    requires 0 <= attempt
  {
    if immediate then 0 else POLL_DELAYS[if attempt < |POLL_DELAYS| then attempt else |POLL_DELAYS| - 1]
  }

  /** Arms the poll timer for r's token unless a poll is armed or in flight, or the page is not eligible. */
  function ScheduleStatus(p: Page, r: Record, immediate: bool, purpose: Purpose, e: Around): Page {
    if p.pollTimer.Some? || p.request.Some? || !Eligible(r, e) then p
    else
      var q := Loaded(p, e);
      if !Holds(q, r.token) then q
      else
        var current := q.stored.value;
        var next := if immediate then current
                    else current.(attempt := Min(current.attempt + 1, |POLL_DELAYS|));
        if !CanSave(next, e) then q
        else q.(stored := Some(next), pollTimer := Some(Poll(next.token, purpose)))
  }

  function FinishResume(p: Page, k: Token, e: Around): Page {
    if p.reloading == Some(k) then p
    else
      var q := Loaded(p.(resumeOwner := if p.resumeOwner == Some(k) then None else p.resumeOwner), e);
      if !Holds(q, k) then q
      else
        var r := q.stored.value.(attempt := 0);
        if !CanSave(r, e) then q
        else
          var saved := q.(stored := Some(r));
          if r.hiddenAt.Some? then ScheduleRecovery(saved, e) else ScheduleStatus(saved, r, true, ResumeEof, e)
  }

  /** The send stream ended: a suspended tab keeps its record for reconciliation, otherwise it is done. */
  function SendEof(p: Page, k: Token, e: Around): Page {
    var q := Loaded(p, e);
    if Holds(q, k) && q.stored.value.hiddenAt.Some? then ScheduleRecovery(q, e) else Clear(q, k, e)
  }

  function StreamFails(p: Page, k: Token, resume: bool, e: Around): Page {
    Mark(p.(resumeOwner := if resume && p.resumeOwner == Some(k) then None else p.resumeOwner), k, resume, e)
  }

  function ResumeAnswered(p: Page, k: Token, ok: bool, wraps: bool, e: Around): Page {
    if !ok then Mark(p, k, true, e)
    else
      var q := Loaded(p, e);
      if Holds(q, k) && wraps then Cancel(q, Some(k)).(resumeOwner := Some(k)) else q
  }

  function NewRecord(k: Token, session: Session, multi: bool, e: Around): Record {
    Record(k, session, e.now, multi, if e.visible then None else Some(e.now), None, None, NoPhase, 0)
  }

  function Send(p: Page, k: Token, session: Session, multi: bool, aborted: bool, e: Around): Page {
    var q := Cancel(p, None).(reloading := None, resumeOwner := None);
    var r := NewRecord(k, session, multi, e);
    var sent := if CanSave(r, e) then q.(stored := Some(r)) else q;
    if aborted then Clear(sent, k, e) else sent
  }

  function Terminal(p: Page, session: Session, e: Around): Page {
    var q := Loaded(p, e);
    if q.stored.Some? && q.stored.value.session == session then Clear(q, q.stored.value.token, e) else q
  }

  function RecoverFires(p: Page, e: Around): Page {
    var q := Loaded(p.(recoveryTimer := None), e);
    if q.stored.None? || !Eligible(q.stored.value, e) then q
    else
      var r := q.stored.value;
      if (r.phase == Multi || r.phase == SingleWait) && r.hiddenAt.None? then ScheduleStatus(q, r, true, Settle, e)
      else if r.phase == Single && r.hiddenAt.None? then ScheduleStatus(q, r, true, SingleSettle, e)
      else if r.phase == Multi || r.phase == SingleWait then
        var woken := r.(hiddenAt := None, attempt := 0);
        if CanSave(woken, e) then ScheduleStatus(q.(stored := Some(woken)), woken, true, Settle, e) else q
      else if r.hiddenAt.None? then q
      else if r.lastRecoveryAt.Some? && e.now - r.lastRecoveryAt.value < MIN_RECOVERY_INTERVAL then
        q.(recoveryTimer := Some(MIN_RECOVERY_INTERVAL - (e.now - r.lastRecoveryAt.value)))
      else
        var fresh_ := r.(attempt := 0);
        if CanSave(fresh_, e) then ScheduleStatus(q.(stored := Some(fresh_)), fresh_, true, Recover, e) else q
  }

  /** The poll timer fires: the status request starts unless one is in flight or the record is not eligible. */
  function PollFires(p: Page, e: Around): Page
    requires p.pollTimer.Some?
  {
    var poll := p.pollTimer.value;
    var q := p.(pollTimer := None);
    if q.request.Some? then q
    else
      var l := Loaded(q, e);
      if !Holds(l, poll.token) || !Eligible(l.stored.value, e) then l else l.(request := Some(poll))
  }

  datatype Answer =
    | Missing
    | Unusable
    | Status(incognito: bool, pending: bool, resumable: bool, running: bool)

  /** What a status answer leads to; reload names the token the page reloads for. */
  datatype Outcome = Outcome(page: Page, reload: Option<Token>)

  function Reload(p: Page, k: Token, works: bool): Outcome {
    var r := if works then Some(k) else None;
    Outcome(Cancel(p, Some(k)).(reloading := r), r)
  }

  function StatusAnswers(p: Page, a: Answer, works: bool, e: Around): Outcome
    requires p.request.Some?
  {
    var k, purpose := p.request.value.token, p.request.value.purpose;
    var q := Loaded(p.(request := None), e);
    if !Holds(q, k) || !Eligible(q.stored.value, e) then Outcome(q, None)
    else if a.Missing? || (a.Status? && a.incognito) then Outcome(Clear(q, k, e), None)
    else if a.Unusable? then Outcome(ScheduleStatus(q, q.stored.value, false, purpose, e), None)
    else Decide(q, k, purpose, a, works, e)
  }

  predicate AwaitsReservation(r: Record, a: Answer, now: int)
    requires a.Status?
  {
    !a.running && a.pending && (r.pendingSince.None? || now - r.pendingSince.value < PENDING_GRACE)
  }

  function Decide(q: Page, k: Token, purpose: Purpose, a: Answer, works: bool, e: Around): Outcome
    requires Holds(q, k) && a.Status?
  {
    var r := q.stored.value;
    if AwaitsReservation(r, a, e.now) then
      var waiting := r.(pendingSince := Some(if r.pendingSince.Some? then r.pendingSince.value else e.now));
      if !CanSave(waiting, e) then Outcome(q, None)
      else Outcome(ScheduleStatus(q.(stored := Some(waiting)), waiting, false, purpose, e), None)
    else if r.phase == SingleWait && a.running then
      Outcome(ScheduleStatus(q, r, false, Settle, e), None)
    else if a.running && !a.resumable then
      var early := r.(pendingSince := None);
      if !CanSave(early, e) then Outcome(q, None)
      else Outcome(ScheduleStatus(q.(stored := Some(early)), early, false, purpose, e), None)
    else Conclude(q, k, purpose, a.running, works, e)
  }

  function Conclude(q: Page, k: Token, purpose: Purpose, running: bool, works: bool, e: Around): Outcome
    requires Holds(q, k)
  {
    var r := q.stored.value;
    match purpose
    case Recover =>
      if !running then Reload(q.(stored := None), k, works)
      else
        var again := r.(hiddenAt := None, lastRecoveryAt := Some(e.now), attempt := 0, pendingSince := None,
                        phase := if r.multiModel then Multi else Single);
        if !CanSave(again, e) then Outcome(q, None) else Reload(q.(stored := Some(again)), k, works)
    case ResumeEof =>
      Outcome(if !running then Clear(q, k, e) else Mark(q, k, true, e), None)
    case SingleSettle =>
      if !running then
        if q.resumeOwner == Some(k) then Outcome(q, None) else Reload(Clear(q, k, e), k, works)
      else if q.resumeOwner != Some(k) then Outcome(ScheduleStatus(q, r, false, SingleSettle, e), None)
      else Outcome(q, None)
    case Settle =>
      if !running then Reload(Clear(q, k, e), k, works)
      else Outcome(ScheduleStatus(q, r, false, Settle, e), None)
  }

  /** Resets what a suspension makes stale; a page that is reloading for its record keeps the record as it is. */
  function Hide(p: Page, e: Around): Page {
    var q := Loaded(p, e);
    if q.stored.None? then q
    else
      var r := q.stored.value;
      var suspended := r.(hiddenAt := Some(e.now), pendingSince := None, attempt := 0);
      Cancel(if q.reloading != Some(r.token) && CanSave(suspended, e) then q.(stored := Some(suspended)) else q,
             Some(r.token))
  }

  function PageShow(p: Page, persisted: bool, e: Around): Page {
    var q := Loaded(p.(reloading := None), e);
    if q.stored.Some? && (persisted || q.stored.value.hiddenAt.Some? || q.stored.value.phase != NoPhase)
    then ScheduleRecovery(q, e) else q
  }

  function GoOnline(p: Page, e: Around): Page {
    var q := Loaded(p, e);
    if q.stored.None? || q.reloading == Some(q.stored.value.token) then q
    else
      var r := q.stored.value;
      var back := r.(hiddenAt := if r.phase == NoPhase then Some(e.now) else r.hiddenAt, attempt := 0);
      if !CanSave(back, e) then q
      else
        var saved := q.(stored := Some(back));
        if back.phase == Single && back.hiddenAt.None? && q.resumeOwner == Some(back.token) then saved
        else ScheduleRecovery(saved, e)
  }

  function GoOffline(p: Page, e: Around): Page {
    var q := Loaded(p, e);
    if q.stored.None? || q.reloading == Some(q.stored.value.token) then q
    else
      var r := q.stored.value;
      var off := r.(pendingSince := None, attempt := 0);
      Cancel(if CanSave(off, e) then q.(stored := Some(off)) else q, Some(r.token))
  }

  function Route(p: Page, e: Around): Page {
    var q := Loaded(p, e);
    if q.stored.None? then q
    else
      var r := q.stored.value;
      if e.chat == Some(r.session) then ScheduleRecovery(q, e)
      else
        var off := r.(pendingSince := None, attempt := 0);
        if r.pendingSince.Some? && CanSave(off, e) then q.(stored := Some(off)) else q
  }

  /** A new document keeps only the stored record. */
  function NewDocument(p: Page, e: Around): Page {
    var q := Loaded(Page(p.stored, None, None, None, None, None), e);
    if q.stored.Some? && (q.stored.value.hiddenAt.Some? || q.stored.value.phase != NoPhase)
    then ScheduleRecovery(q, e) else q
  }

  // ---- What the small callbacks mean ----

  /** No timer is armed, and no status request of this token is in flight. */
  predicate AtRest(p: Page, k: Token) {
    p.recoveryTimer.None? && p.pollTimer.None? && (p.request.Some? ==> p.request.value.token != k)
  }

  /** The page has committed to reload for this token. */
  predicate Committed(p: Page, k: Token) {
    p.reloading == Some(k) && AtRest(p, k)
  }

  /** A committed page keeps its record for the next document: no callback of the outgoing one touches it or starts work. */
  lemma CommittedIsSilent(p: Page, k: Token, failed: bool, e: Around)
    requires Committed(p, k)
    ensures Clear(p, k, e) == p && Mark(p, k, failed, e) == p && FinishResume(p, k, e) == p
    ensures Holds(p, k) ==>
              && AtRest(ScheduleRecovery(p, e), k) && AtRest(GoOnline(p, e), k)
              && (ValidRecord(p.stored.value, e.now) ==>
                    && Hide(p, e) == p && GoOffline(p, e) == p && GoOnline(p, e) == p && SendEof(p, k, e) == p)
  {
  }

  /** The same send, with nothing about its recovery forgotten. */
  predicate SameRecovery(r: Record, before: Option<Record>) {
    && before.Some? && r.token == before.value.token && r.session == before.value.session
    && r.startedAt == before.value.startedAt && r.multiModel == before.value.multiModel
    && r.phase == before.value.phase && r.lastRecoveryAt == before.value.lastRecoveryAt
  }

  /** A record that a callback at this time still finds. */
  predicate Survives(stored: Option<Record>, now: int) {
    stored.Some? && ValidRecord(stored.value, now)
  }

  /** The record a status answer for this token is about, on a page that may act on it. */
  predicate Concerns(stored: Option<Record>, k: Token, e: Around) {
    Survives(stored, e.now) && stored.value.token == k && Eligible(stored.value, e)
  }

  /** A recovery check is called for: at once in a phase without a mark or a waiting one, else a mark and the interval. */
  predicate CheckIsDue(r: Record, now: int) {
    || r.phase == Multi || r.phase == SingleWait || (r.phase == Single && r.hiddenAt.None?)
    || (r.hiddenAt.Some? && (r.lastRecoveryAt.Some? ==> now - r.lastRecoveryAt.value >= MIN_RECOVERY_INTERVAL))
  }

  /** A mark waits for the rest of the interval since the last recovery. */
  predicate IntervalRuns(r: Record, now: int) {
    && (r.phase == NoPhase || r.phase == Single) && r.hiddenAt.Some?
    && r.lastRecoveryAt.Some? && now - r.lastRecoveryAt.value < MIN_RECOVERY_INTERVAL
  }

  /** Answers that settle nothing yet: a young reservation, a waiting replay that runs, a run not yet resumable. */
  predicate Unsettled(r: Record, a: Answer, now: int)
    requires a.Status?
  {
    || (!a.running && a.pending && (r.pendingSince.None? || now - r.pendingSince.value < PENDING_GRACE))
    || (a.running && (r.phase == SingleWait || !a.resumable))
  }

  /** A settled answer reloads: for a recovery always, with a run if it can be noted; for the others once the run is over. */
  predicate Reloads(r: Record, purpose: Purpose, running: bool, owner: Option<Token>, e: Around) {
    match purpose
    case Recover => running ==> e.saves && r.startedAt <= e.now
    case ResumeEof => false
    case SingleSettle => !running && owner != Some(r.token)
    case Settle => !running
  }

  /** What a recovery check of this record is for. */
  function PurposeOf(r: Record): Purpose {
    if r.phase == Multi || r.phase == SingleWait then Settle
    else if r.phase == Single && r.hiddenAt.None? then SingleSettle
    else Recover
  }
}
