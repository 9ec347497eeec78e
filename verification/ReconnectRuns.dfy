/**
 Runs of the reconnection companion: any order of stream, visibility, route, connectivity and status events
 over a clock that does not run backwards, with a history of marks and reloads. The page cannot loop on reloads.
 */
module ReconnectRuns {
  import opened Common
  import opened ReconnectPage

  datatype Event =
    | DoSend(session: Session, multi: bool, aborted: bool)
    | DoClear(k: Token)
    | SendFails(k: Token)
    | SendEnds(k: Token)
    | StreamBreaks(k: Token, resume: bool)
    | ResumeEnds(k: Token)
    | ResumeAnswers(k: Token, ok: bool, wraps: bool)
    | DoTerminal(session: Session)
    | RecoveryTimer
    | PollTimer
    | StatusArrives(answer: Answer, reloadWorks: bool)
    | RouteChange
    | Hidden
    | Visible
    | PageShown(persisted: bool)
    | Online
    | Offline
    | Fresh

  /** One reload: for which token and purpose, when, in which phase, and whether the server reported a run. */
  datatype Reloaded = Reloaded(token: Token, purpose: Purpose, at: int, phase: Phase, running: bool)

  datatype State = State(
    page: Page,
    now: int,
    issued: nat,
    reloads: seq<Reloaded>,
    marks: multiset<Token>)

  predicate Enabled(s: State, ev: Event, e: Around) {
    && s.now <= e.now
    && match ev
       case DoSend(_, _, _) => true
       case PollTimer => s.page.pollTimer.Some?
       case StatusArrives(_, _) => s.page.request.Some?
       case RecoveryTimer => s.page.recoveryTimer.Some?
       case DoClear(k) => k < s.issued
       case SendFails(k) => k < s.issued
       case SendEnds(k) => k < s.issued
       case StreamBreaks(k, _) => k < s.issued
       case ResumeEnds(k) => k < s.issued
       case ResumeAnswers(k, _, _) => k < s.issued
       case _ => true
  }

  function After(s: State, ev: Event, e: Around): Page
    requires Enabled(s, ev, e)
  {
    var p := s.page;
    match ev
    case DoSend(session, multi, aborted) => Send(p, s.issued, session, multi, aborted, e)
    case DoClear(k) => Clear(p, k, e)
    case SendFails(k) => Mark(p, k, false, e)
    case SendEnds(k) => SendEof(p, k, e)
    case StreamBreaks(k, resume) => StreamFails(p, k, resume, e)
    case ResumeEnds(k) => FinishResume(p, k, e)
    case ResumeAnswers(k, ok, wraps) => ResumeAnswered(p, k, ok, wraps, e)
    case DoTerminal(session) => Terminal(p, session, e)
    case RecoveryTimer => RecoverFires(p, e)
    case PollTimer => PollFires(p, e)
    case StatusArrives(a, works) => StatusAnswers(p, a, works, e).page
    case RouteChange => Route(p, e)
    case Hidden => Hide(p, e)
    case Visible => ScheduleRecovery(Loaded(p, e), e)
    case PageShown(persisted) => PageShow(p, persisted, e)
    case Online => GoOnline(p, e)
    case Offline => GoOffline(p, e)
    case Fresh => NewDocument(p, e)
  }

  /** The reload this event causes, if any. */
  function ReloadOf(s: State, ev: Event, e: Around): seq<Reloaded>
    requires Enabled(s, ev, e)
  {
    if !ev.StatusArrives? then []
    else
      var o := StatusAnswers(s.page, ev.answer, ev.reloadWorks, e);
      var l := Loaded(s.page, e).stored;
      if o.reload.None? || l.None? || !ev.answer.Status? then []
      else [Reloaded(o.reload.value, s.page.request.value.purpose, e.now, l.value.phase, ev.answer.running)]
  }

  /** A token is marked when its record goes from not hidden to hidden. */
  predicate Marked(p: Page, k: Token) {
    Holds(p, k) && p.stored.value.hiddenAt.Some?
  }

  function MarkOf(p: Page, q: Page): multiset<Token> {
    if q.stored.Some? && Marked(q, q.stored.value.token) && !Marked(p, q.stored.value.token)
    then multiset{q.stored.value.token} else multiset{}
  }

  /** The tokens of the recovery reloads, each as often as it was reloaded. */
  function Recovered(reloads: seq<Reloaded>): multiset<Token> {
    if reloads == [] then multiset{}
    else
      var last := reloads[|reloads| - 1];
      Recovered(reloads[..|reloads| - 1]) + (if last.purpose == Recover then multiset{last.token} else multiset{})
  }

  function Step(s: State, ev: Event, e: Around): State
    requires Enabled(s, ev, e)
  {
    var q := After(s, ev, e);
    State(q, e.now, if ev.DoSend? then s.issued + 1 else s.issued, s.reloads + ReloadOf(s, ev, e),
          s.marks + MarkOf(s.page, q))
  }

  // ---- What every page state satisfies ----

  /** A poll whose answer could reload for recovery finds a record that is due for it. */
  predicate Due(r: Record, now: int) {
    && (r.phase == NoPhase || r.phase == Single) && r.hiddenAt.Some?
    && (r.lastRecoveryAt.Some? ==> now - r.lastRecoveryAt.value >= MIN_RECOVERY_INTERVAL)
  }

  predicate PollOk(p: Page, poll: Option<Poll>, now: int) {
    poll.Some? ==>
      && p.reloading != Some(poll.value.token)
      && (Holds(p, poll.value.token) && poll.value.purpose == Recover ==> Due(p.stored.value, now))
  }

  predicate PageOk(p: Page, now: int) {
    && PollOk(p, p.pollTimer, now) && PollOk(p, p.request, now)
    && (p.stored.Some? && p.reloading == Some(p.stored.value.token) ==> p.recoveryTimer.None?)
  }

  /** No callback leaves the page in a state a status answer could turn into a repeated recovery. */
  lemma {:induction false} PageStays(s: State, ev: Event, e: Around)
    requires Enabled(s, ev, e) && PageOk(s.page, s.now)
    ensures PageOk(After(s, ev, e), e.now)
  {
    match ev
    case RecoveryTimer => RecoverStays(s.page, s.now, e);
    case StatusArrives(a, works) => AnswerStays(s.page, s.now, a, works, e);
    case ResumeEnds(k) => FinishStays(s.page, s.now, k, e);
    case _ =>
      if ev.Hidden? || ev.Online? || ev.Offline? {
        SuspendStays(s, ev, e);
      } else if ev.RouteChange? || ev.Visible? || ev.PageShown? || ev.Fresh? {
        PageEventStays(s, ev, e);
      } else {
        TokenEventStays(s, ev, e);
      }
  }

  lemma {:induction false} TokenEventStays(s: State, ev: Event, e: Around)
    requires Enabled(s, ev, e) && PageOk(s.page, s.now)
    requires ev.DoSend? || ev.DoClear? || ev.SendFails? || ev.SendEnds? || ev.StreamBreaks? || ev.ResumeAnswers?
             || ev.DoTerminal? || ev.PollTimer?
    ensures PageOk(After(s, ev, e), e.now)
  {
    hide ValidRecord;
    match ev
    case DoSend(_, _, _) =>
    case DoClear(k) => ClearStays(s.page, s.now, k, e);
    case SendEnds(k) => SendEofStays(s.page, s.now, k, e);
    case DoTerminal(_) =>
    case PollTimer =>
    case _ => MarkEventStays(s, ev, e);
  }

  lemma {:induction false} MarkEventStays(s: State, ev: Event, e: Around)
    requires Enabled(s, ev, e) && PageOk(s.page, s.now)
    requires ev.SendFails? || ev.StreamBreaks? || ev.ResumeAnswers?
    ensures PageOk(After(s, ev, e), e.now)
  {
    hide ValidRecord, Mark;
    var p := s.page;
    MarkStays(p, s.now, ev.k, ev.StreamBreaks? && ev.resume, e);
    MarkStays(p, s.now, ev.k, true, e);
    MarkStays(p.(resumeOwner := None), s.now, ev.k, ev.StreamBreaks? && ev.resume, e);
  }

  lemma {:induction false} ClearStays(p: Page, now: int, k: Token, e: Around)
    requires PageOk(p, now) && now <= e.now
    ensures PageOk(Clear(p, k, e), e.now)
  {
    hide ValidRecord;
  }

  lemma {:induction false} SendEofStays(p: Page, now: int, k: Token, e: Around)
    requires PageOk(p, now) && now <= e.now
    ensures PageOk(SendEof(p, k, e), e.now)
  {
    hide ValidRecord, Clear;
    ClearStays(Loaded(p, e), now, k, e);
  }

  lemma {:induction false} MarkStays(p: Page, now: int, k: Token, failed: bool, e: Around)
    requires PageOk(p, now) && now <= e.now
    ensures PageOk(Mark(p, k, failed, e), e.now)
  {
    hide ValidRecord;
  }

  lemma {:induction false} PageEventStays(s: State, ev: Event, e: Around)
    requires Enabled(s, ev, e) && PageOk(s.page, s.now)
    requires ev.RouteChange? || ev.Visible? || ev.PageShown? || ev.Fresh?
    ensures PageOk(After(s, ev, e), e.now)
  {
    hide ValidRecord;
  }

  lemma {:induction false} SuspendStays(s: State, ev: Event, e: Around)
    requires Enabled(s, ev, e) && PageOk(s.page, s.now) && (ev.Hidden? || ev.Online? || ev.Offline?)
    ensures PageOk(After(s, ev, e), e.now)
  {
    hide ValidRecord;
  }

  lemma {:induction false} ScheduleStays(p: Page, r: Record, immediate: bool, purpose: Purpose, e: Around)
    requires PageOk(p, e.now) && p.reloading != Some(r.token)
    requires purpose == Recover && Holds(p, r.token) ==> Due(p.stored.value, e.now)
    ensures PageOk(ScheduleStatus(p, r, immediate, purpose, e), e.now)
  {
  }

  lemma {:induction false} FinishStays(p: Page, now: int, k: Token, e: Around)
    requires PageOk(p, now) && now <= e.now
    ensures PageOk(FinishResume(p, k, e), e.now)
  {
    hide ScheduleStatus;
    if p.reloading != Some(k) {
      var q := Loaded(p.(resumeOwner := if p.resumeOwner == Some(k) then None else p.resumeOwner), e);
      if Holds(q, k) {
        var r := q.stored.value.(attempt := 0);
        ScheduleStays(q.(stored := Some(r)), r, true, ResumeEof, e);
      }
    }
  }

  lemma {:induction false} RecoverStays(p: Page, now: int, e: Around)
    requires PageOk(p, now) && now <= e.now && p.recoveryTimer.Some?
    ensures PageOk(RecoverFires(p, e), e.now)
  {
    hide ScheduleStatus;
    var q := Loaded(p.(recoveryTimer := None), e);
    if q.stored.Some? {
      var r := q.stored.value;
      ScheduleStays(q, r, true, Settle, e);
      ScheduleStays(q, r, true, SingleSettle, e);
      var woken := r.(hiddenAt := None, attempt := 0);
      if r.phase == Multi || r.phase == SingleWait {
        ScheduleStays(q.(stored := Some(woken)), woken, true, Settle, e);
      }
      var fresh_ := r.(attempt := 0);
      if r.hiddenAt.Some? && (r.phase == NoPhase || r.phase == Single)
         && (r.lastRecoveryAt.Some? ==> e.now - r.lastRecoveryAt.value >= MIN_RECOVERY_INTERVAL) {
        ScheduleStays(q.(stored := Some(fresh_)), fresh_, true, Recover, e);
      }
    }
  }

  lemma {:induction false} AnswerStays(p: Page, now: int, a: Answer, works: bool, e: Around)
    requires PageOk(p, now) && now <= e.now && p.request.Some?
    ensures PageOk(StatusAnswers(p, a, works, e).page, e.now)
  {
    hide ScheduleStatus, Decide, Clear, ValidRecord;
    var k, purpose := p.request.value.token, p.request.value.purpose;
    var q := Loaded(p.(request := None), e);
    ClearStays(q, e.now, k, e);
    if Holds(q, k) {
      ScheduleStays(q, q.stored.value, false, purpose, e);
      if a.Status? {
        DecideStays(q, k, purpose, a, works, e);
      }
    }
  }

  lemma {:induction false} DecideStays(q: Page, k: Token, purpose: Purpose, a: Answer, works: bool, e: Around)
    requires PageOk(q, e.now) && Holds(q, k) && a.Status? && q.reloading != Some(k)
    requires purpose == Recover ==> Due(q.stored.value, e.now)
    ensures PageOk(Decide(q, k, purpose, a, works, e).page, e.now)
  {
    hide ScheduleStatus, Conclude, ValidRecord;
    var r := q.stored.value;
    ScheduleStays(q, r, false, Settle, e);
    var waiting := r.(pendingSince := Some(if r.pendingSince.Some? then r.pendingSince.value else e.now));
    ScheduleStays(q.(stored := Some(waiting)), waiting, false, purpose, e);
    var early := r.(pendingSince := None);
    ScheduleStays(q.(stored := Some(early)), early, false, purpose, e);
    ConcludeStays(q, k, purpose, a.running, works, e);
  }

  lemma {:induction false} ConcludeStays(q: Page, k: Token, purpose: Purpose, running: bool, works: bool, e: Around)
    requires PageOk(q, e.now) && Holds(q, k) && q.reloading != Some(k)
    requires purpose == Recover ==> Due(q.stored.value, e.now)
    ensures PageOk(Conclude(q, k, purpose, running, works, e).page, e.now)
  {
    hide ScheduleStatus, Mark, ValidRecord;
    MarkStays(q, e.now, k, true, e);
    ScheduleStays(q, q.stored.value, false, purpose, e);
  }

  // ---- What an event does to the record, and what a reload means ----

  /** A record survives an event only as the same token's, in waiting for good, or as the record of a new send. */
  predicate RecordFollows(p: Page, q: Page, ev: Event, issued: Token, now: int) {
    q.stored.Some? ==>
      var r := q.stored.value;
      || (ev.DoSend? && r.token == issued && r.phase == NoPhase && r.lastRecoveryAt.None?)
      || (Holds(p, r.token)
          && (p.stored.value.phase == SingleWait ==> r.phase == SingleWait)
          && (r.lastRecoveryAt == p.stored.value.lastRecoveryAt || r.lastRecoveryAt == Some(now)))
  }

  lemma {:induction false} RecordStays(s: State, ev: Event, e: Around)
    requires Enabled(s, ev, e) && PageOk(s.page, s.now)
    ensures RecordFollows(s.page, After(s, ev, e), ev, s.issued, e.now)
  {
    hide ValidRecord, RecoverFires, StatusAnswers, FinishResume, ScheduleStatus, PageOk;
    match ev
    case StatusArrives(a, works) => AnswerKeepsRecord(s.page, s.now, a, works, e);
    case RecoveryTimer => RecoverKeepsRecord(s.page, e);
    case ResumeEnds(k) => FinishKeepsRecord(s.page, k, e);
    case _ =>
  }

  lemma {:induction false} RecoverKeepsRecord(p: Page, e: Around)
    ensures RecordFollows(p, RecoverFires(p, e), RecoveryTimer, 0, e.now)
  {
    hide ValidRecord;
  }

  lemma {:induction false} FinishKeepsRecord(p: Page, k: Token, e: Around)
    ensures RecordFollows(p, FinishResume(p, k, e), ResumeEnds(k), 0, e.now)
  {
    hide ValidRecord;
  }

  lemma {:induction false} AnswerKeepsRecord(p: Page, now: int, a: Answer, works: bool, e: Around)
    requires PageOk(p, now) && now <= e.now && p.request.Some?
    ensures RecordFollows(p, StatusAnswers(p, a, works, e).page, Hidden, 0, e.now)
  {
    hide ValidRecord;
  }

  /** What every reload event tells: its phase was not a waiting one unless the run was over, and a reload
      without a run removed the record; a reload with a run used up a mark and is the latest recovery. */
  lemma {:induction false} ReloadMeans(s: State, ev: Event, e: Around)
    requires Enabled(s, ev, e) && PageOk(s.page, s.now)
    ensures |ReloadOf(s, ev, e)| <= 1
    ensures ReloadOf(s, ev, e) != [] ==>
            var x := ReloadOf(s, ev, e)[0];
            var q := After(s, ev, e);
            && Holds(s.page, x.token) && x.phase == s.page.stored.value.phase && x.at == e.now
            && (x.purpose == Recover ==> Due(s.page.stored.value, e.now))
            && (!x.running ==> q.stored.None?)
            && (x.running ==> x.purpose == Recover && Holds(q, x.token) && q.stored.value.hiddenAt.None?
                              && q.stored.value.lastRecoveryAt == Some(e.now))
            && q.reloading == Some(x.token)
  {
    hide ValidRecord, ScheduleStatus, Mark;
  }

  /** Only a suspension, a failure, a lost page or regained connectivity before any recovery marks a record. */
  lemma {:induction false} MarksHaveCauses(s: State, ev: Event, e: Around)
    requires Enabled(s, ev, e) && MarkOf(s.page, After(s, ev, e)) != multiset{}
    ensures || ev.Hidden? || ev.SendFails? || ev.StreamBreaks? || (ev.ResumeAnswers? && !ev.ok)
            || (ev.Online? && s.page.stored.value.phase == NoPhase)
            || (ev.StatusArrives? && ev.answer.Status? && ev.answer.running && s.page.request.value.purpose == ResumeEof)
            || (ev.DoSend? && !e.visible)
  {
    hide ValidRecord;
  }

  // ---- The history ----

  ghost predicate Inv(s: State) {
    && PageOk(s.page, s.now)
    && (s.page.stored.Some? ==> s.page.stored.value.token < s.issued)
    && (forall i | 0 <= i < |s.reloads| :: ReloadOk(s, s.reloads[i]))
    && (forall i, j | 0 <= i < j < |s.reloads| && s.reloads[i].token == s.reloads[j].token ::
          Apart(s.reloads[i], s.reloads[j]))
    && (forall k: Token :: MarksCover(s, k))
  }

  predicate MarksCover(s: State, k: Token) {
    Recovered(s.reloads)[k] + (if Marked(s.page, k) then 1 else 0) <= s.marks[k]
  }

  predicate ReloadOk(s: State, x: Reloaded) {
    && x.token < s.issued && x.at <= s.now
    && (x.phase == SingleWait || x.phase == Multi ==> !x.running)
    && (x.running ==> x.purpose == Recover)
    && (Holds(s.page, x.token) ==>
          x.running && s.page.stored.value.lastRecoveryAt.Some? && x.at <= s.page.stored.value.lastRecoveryAt.value)
  }

  /** Of two reloads of one token the earlier had a run, and a later recovery keeps the interval. */
  predicate Apart(x: Reloaded, y: Reloaded) {
    x.running && (y.purpose == Recover ==> y.at - x.at >= MIN_RECOVERY_INTERVAL)
  }

  /** A recovery reload uses up a mark, and a record is hidden again only by a new mark. */
  lemma {:induction false} MarksStay(s: State, ev: Event, e: Around, k: Token)
    requires Enabled(s, ev, e) && PageOk(s.page, s.now) && MarksCover(s, k)
    ensures MarksCover(Step(s, ev, e), k)
  {
    hide PageOk, After, ReloadOf, ValidRecord;
    ReloadMeans(s, ev, e);
    var r := ReloadOf(s, ev, e);
    if r == [] {
      assert s.reloads + r == s.reloads;
    } else {
      assert r == [r[0]];
      assert (s.reloads + r)[..|s.reloads|] == s.reloads;
    }
  }

  lemma {:induction false} StepKeepsInv(s: State, ev: Event, e: Around)
    requires Inv(s) && Enabled(s, ev, e)
    ensures Inv(Step(s, ev, e))
  {
    hide PageOk, After, ReloadOf, ValidRecord, MarksCover;
    var s' := Step(s, ev, e);
    PageStays(s, ev, e);
    RecordStays(s, ev, e);
    ReloadMeans(s, ev, e);
    forall k: Token ensures MarksCover(s', k) {
      assert MarksCover(s, k);
      MarksStay(s, ev, e, k);
    }
    forall i | 0 <= i < |s'.reloads| ensures ReloadOk(s', s'.reloads[i]) {
      if i < |s.reloads| {
        assert ReloadOk(s, s.reloads[i]);
      }
    }
    forall i, j | 0 <= i < j < |s'.reloads| && s'.reloads[i].token == s'.reloads[j].token
      ensures Apart(s'.reloads[i], s'.reloads[j])
    {
      assert ReloadOk(s, s.reloads[i]);
    }
  }

  // ---- Runs ----

  ghost predicate Reaches(s: State, events: seq<(Event, Around)>, end: State)
    decreases |events|
  {
    if events == [] then s == end
    else Enabled(s, events[0].0, events[0].1) && Reaches(Step(s, events[0].0, events[0].1), events[1..], end)
  }

  predicate Initial(s: State) {
    s.page == Page(None, None, None, None, None, None) && s.issued == 0 && s.reloads == [] && s.marks == multiset{}
  }

  lemma {:induction false} RunsKeepInv(s: State, events: seq<(Event, Around)>, end: State)
    requires Inv(s) && Reaches(s, events, end)
    ensures Inv(end)
    decreases |events|
  {
    hide Inv, Step, Enabled;
    if events != [] {
      StepKeepsInv(s, events[0].0, events[0].1);
      RunsKeepInv(Step(s, events[0].0, events[0].1), events[1..], end);
    }
  }

  /**
   Over every run: no reload in a waiting phase while the server reports a run; a token reloads again only after
   a reload that found a run; recoveries of one token keep the interval; each used up a mark of its own.
   */
  lemma {:induction false} ReloadsCannotLoop(s: State, events: seq<(Event, Around)>, end: State)
    requires Initial(s) && Reaches(s, events, end)
    ensures forall i | 0 <= i < |end.reloads| ::
              end.reloads[i].phase == SingleWait || end.reloads[i].phase == Multi ==> !end.reloads[i].running
    ensures forall i, j | 0 <= i < j < |end.reloads| && end.reloads[i].token == end.reloads[j].token ::
              && end.reloads[i].running && end.reloads[i].purpose == Recover
              && (end.reloads[j].purpose == Recover
                  ==> end.reloads[j].at - end.reloads[i].at >= MIN_RECOVERY_INTERVAL)
    ensures forall k: Token :: Recovered(end.reloads)[k] <= end.marks[k]
  {
    RunsKeepInv(s, events, end);
    hide PageOk, Recovered;
    forall k: Token ensures Recovered(end.reloads)[k] <= end.marks[k] {
      assert MarksCover(end, k);
    }
    forall i, j | 0 <= i < j < |end.reloads| && end.reloads[i].token == end.reloads[j].token
      ensures end.reloads[i].running && end.reloads[i].purpose == Recover
      ensures end.reloads[j].purpose == Recover
              ==> end.reloads[j].at - end.reloads[i].at >= MIN_RECOVERY_INTERVAL
    {
      assert Apart(end.reloads[i], end.reloads[j]) && ReloadOk(end, end.reloads[i]);
    }
    forall i | 0 <= i < |end.reloads| && (end.reloads[i].phase == SingleWait || end.reloads[i].phase == Multi)
      ensures !end.reloads[i].running
    {
      assert ReloadOk(end, end.reloads[i]);
    }
  }

  /** Of a token that waits for completion: still waiting and not reloaded since, or gone after one reload at most. */
  predicate WaitingOrGone(k: Token, before: nat, end: State) {
    && before <= |end.reloads| && k < end.issued
    && var since := end.reloads[before..];
       if Holds(end.page, k)
       then end.page.stored.value.phase == SingleWait && forall i | 0 <= i < |since| :: since[i].token != k
       else forall i, j | 0 <= i < j < |since| :: !(since[i].token == k && since[j].token == k)
  }

  lemma {:induction false} StepWaits(k: Token, before: nat, s: State, ev: Event, e: Around)
    requires Inv(s) && Enabled(s, ev, e) && WaitingOrGone(k, before, s)
    ensures WaitingOrGone(k, before, Step(s, ev, e))
  {
    hide PageOk, After, ReloadOf, Apart, ReloadOk, Recovered;
    var s' := Step(s, ev, e);
    RecordStays(s, ev, e);
    ReloadMeans(s, ev, e);
    assert s'.reloads[before..] == s.reloads[before..] + ReloadOf(s, ev, e);
  }

  /** Once a failed replay has put a token into single-wait, it stays there until its record is removed, and the
      page reloads for it at most once more. */
  lemma {:induction false} FailedReplayReloadsOnceMore(s: State, events: seq<(Event, Around)>, end: State, k: Token)
    requires Inv(s) && Reaches(s, events, end)
    requires Holds(s.page, k) && s.page.stored.value.phase == SingleWait
    ensures WaitingOrGone(k, |s.reloads|, end)
  {
    WaitsOn(k, |s.reloads|, s, events, end);
  }

  lemma {:induction false} WaitsOn(k: Token, before: nat, s: State, events: seq<(Event, Around)>, end: State)
    requires Inv(s) && Reaches(s, events, end) && WaitingOrGone(k, before, s)
    ensures WaitingOrGone(k, before, end)
    decreases |events|
  {
    hide Inv, Step, Enabled, WaitingOrGone;
    if events != [] {
      StepKeepsInv(s, events[0].0, events[0].1);
      StepWaits(k, before, s, events[0].0, events[0].1);
      WaitsOn(k, before, Step(s, events[0].0, events[0].1), events[1..], end);
    }
  }

  // ---- A recovery does happen ----

  /** A page whose record is marked, valid and eligible at e, with nothing of its own in flight. */
  predicate Recoverable(p: Page, e: Around) {
    && Survives(p.stored, e.now) && Eligible(p.stored.value, e) && e.saves
    && p.stored.value.hiddenAt.Some? && (p.stored.value.phase == NoPhase || p.stored.value.phase == Single)
    && p.pollTimer.None? && p.request.None?
  }

  /** A later moment at which the record is still valid and eligible. */
  predicate StillFits(r: Record, earlier: Around, e: Around) {
    && earlier.now <= e.now && r.startedAt <= e.now && e.now - r.startedAt <= RECORD_TTL
    && Eligible(r, e) && e.saves
  }

  lemma {:induction false} TimerAsks(s: State, e: Around)
    requires Enabled(s, RecoveryTimer, e) && Recoverable(s.page, e) && CheckIsDue(s.page.stored.value, e.now)
    ensures var p, r := s.page, s.page.stored.value;
            Step(s, RecoveryTimer, e)
            == s.(now := e.now, page := p.(recoveryTimer := None, pollTimer := Some(Poll(r.token, Recover)),
                                          stored := Some(r.(attempt := 0))))
  {
    assert s.marks + multiset{} == s.marks && s.reloads + [] == s.reloads;
  }

  lemma {:induction false} PollAsks(s: State, e: Around)
    requires Enabled(s, PollTimer, e) && s.page.request.None? && Concerns(s.page.stored, s.page.pollTimer.value.token, e)
    ensures Step(s, PollTimer, e) == s.(now := e.now, page := s.page.(pollTimer := None, request := s.page.pollTimer))
  {
    assert s.marks + multiset{} == s.marks && s.reloads + [] == s.reloads;
  }

  lemma {:induction false} AnswerReloads(s: State, pending: bool, running: bool, e: Around)
    requires s.now <= e.now && s.page.request.Some? && s.page.request.value.purpose == Recover
    requires Concerns(s.page.stored, s.page.request.value.token, e) && e.saves && s.page.stored.value.startedAt <= e.now
    requires s.page.stored.value.phase == NoPhase || s.page.stored.value.phase == Single
    requires !running ==> !pending
    ensures var k, r := s.page.request.value.token, s.page.stored.value;
            var end := Step(s, StatusArrives(Status(false, pending, true, running), true), e);
            && end.reloads == s.reloads + [Reloaded(k, Recover, e.now, r.phase, running)]
            && end.page.reloading == Some(k) && end.marks == s.marks
            && end.page.stored ==
               if running
               then Some(r.(hiddenAt := None, lastRecoveryAt := Some(e.now), attempt := 0, pendingSince := None,
                            phase := if r.multiModel then Multi else Single))
               else None
  {
    assert s.marks + multiset{} == s.marks;
  }

  /**
   A marked record is recovered: with its timer armed and the interval over, the timer, the poll it arms and a
   usable answer reload the page exactly once, for that token.
   */
  lemma {:induction false} MarkedRecordRecovers(
    s: State, e1: Around, e2: Around, e3: Around, pending: bool, running: bool) returns (end: State)
    requires s.page.recoveryTimer.Some? && s.now <= e1.now
    requires Recoverable(s.page, e1) && CheckIsDue(s.page.stored.value, e1.now)
    requires StillFits(s.page.stored.value, e1, e2) && StillFits(s.page.stored.value, e2, e3)
    requires !running ==> !pending
    ensures Reaches(s, [(RecoveryTimer, e1), (PollTimer, e2),
                        (StatusArrives(Status(false, pending, true, running), true), e3)], end)
    ensures var r := s.page.stored.value;
            && end.reloads == s.reloads + [Reloaded(r.token, Recover, e3.now, r.phase, running)]
            && end.page.reloading == Some(r.token) && (!running ==> end.page.stored.None?)
            && (running ==> Holds(end.page, r.token) && end.page.stored.value.hiddenAt.None?
                            && end.page.stored.value.lastRecoveryAt == Some(e3.now))
  {
    hide Step;
    var answer := StatusArrives(Status(false, pending, true, running), true);
    TimerAsks(s, e1);
    var asked := Step(s, RecoveryTimer, e1);
    PollAsks(asked, e2);
    var polled := Step(asked, PollTimer, e2);
    AnswerReloads(polled, pending, running, e3);
    end := Step(polled, answer, e3);
    ThreeSteps(s, (RecoveryTimer, e1), (PollTimer, e2), (answer, e3));
  }

  lemma {:induction false} ThreeSteps(s: State, a: (Event, Around), b: (Event, Around), c: (Event, Around))
    requires Enabled(s, a.0, a.1) && Enabled(Step(s, a.0, a.1), b.0, b.1)
    requires Enabled(Step(Step(s, a.0, a.1), b.0, b.1), c.0, c.1)
    ensures Reaches(s, [a, b, c], Step(Step(Step(s, a.0, a.1), b.0, b.1), c.0, c.1))
  {
    hide Step, Enabled;
    var s1 := Step(s, a.0, a.1);
    var s2 := Step(s1, b.0, b.1);
    var s3 := Step(s2, c.0, c.1);
    assert [a, b, c][1..] == [b, c] && [b, c][1..] == [c] && [c][1..] == [];
    assert Reaches(s3, [], s3);
    assert Reaches(s2, [c], s3);
    assert Reaches(s1, [b, c], s3);
  }

  lemma {:induction false} HidingMarks(p: Page, e: Around)
    requires Survives(p.stored, e.now) && e.saves && p.stored.value.startedAt <= e.now
    requires p.reloading != Some(p.stored.value.token)
    requires p.request.Some? ==> p.request.value.token == p.stored.value.token
    ensures var r := p.stored.value;
            Hide(p, e) == Page(Some(r.(hiddenAt := Some(e.now), pendingSince := None, attempt := 0)), None, None, None,
                               p.reloading, p.resumeOwner)
  {
  }

  lemma {:induction false} ShowingArms(p: Page, e: Around)
    requires Survives(p.stored, e.now) && p.reloading != Some(p.stored.value.token) && p.recoveryTimer.None?
    ensures ScheduleRecovery(Loaded(p, e), e) == p.(recoveryTimer := Some(0))
  {
  }

  /**
   A tab that is hidden and shown again recovers, whatever came before: hiding marks the record, showing the tab
   arms the timer, and the timer, the poll and a usable answer reload the page exactly once, for its token.
   */
  lemma {:induction false} SuspendedTabRecovers(
    s: State, hides: Around, shows: Around, e1: Around, e2: Around, e3: Around, pending: bool, running: bool)
    returns (end: State)
    requires s.now <= hides.now && Survives(s.page.stored, hides.now) && hides.saves
    requires var p, r := s.page, s.page.stored.value;
             && r.startedAt <= hides.now && (r.phase == NoPhase || r.phase == Single)
             && p.reloading != Some(r.token) && (p.request.Some? ==> p.request.value.token == r.token)
             && hides.now <= shows.now <= e1.now
             && StillFits(r, shows, e1) && StillFits(r, e1, e2) && StillFits(r, e2, e3)
             && (r.lastRecoveryAt.Some? ==> e1.now - r.lastRecoveryAt.value >= MIN_RECOVERY_INTERVAL)
    requires !running ==> !pending
    ensures Reaches(s, [(Hidden, hides), (Visible, shows), (RecoveryTimer, e1), (PollTimer, e2),
                        (StatusArrives(Status(false, pending, true, running), true), e3)], end)
    ensures var r := s.page.stored.value;
            && end.reloads == s.reloads + [Reloaded(r.token, Recover, e3.now, r.phase, running)]
            && end.page.reloading == Some(r.token) && (!running ==> end.page.stored.None?)
  {
    hide Hide, ScheduleRecovery, Loaded, Reaches;
    HidingMarks(s.page, hides);
    var hidden := Step(s, Hidden, hides);
    assert hidden.page == Hide(s.page, hides) && hidden.reloads == s.reloads && hidden.now == hides.now;
    ShowingArms(hidden.page, shows);
    var shown := Step(hidden, Visible, shows);
    assert shown.page == hidden.page.(recoveryTimer := Some(0)) && shown.reloads == s.reloads && shown.now == shows.now;
    end := MarkedRecordRecovers(shown, e1, e2, e3, pending, running);
    var rest := [(RecoveryTimer, e1), (PollTimer, e2), (StatusArrives(Status(false, pending, true, running), true), e3)];
    FirstOf(hidden, (Visible, shows), rest, end);
    FirstOf(s, (Hidden, hides), [(Visible, shows)] + rest, end);
    assert [(Hidden, hides)] + ([(Visible, shows)] + rest)
           == [(Hidden, hides), (Visible, shows), rest[0], rest[1], rest[2]];
  }

  lemma FirstOf(s: State, a: (Event, Around), rest: seq<(Event, Around)>, end: State)
    requires Enabled(s, a.0, a.1) && Reaches(Step(s, a.0, a.1), rest, end)
    ensures Reaches(s, [a] + rest, end)
  {
    hide Step, Enabled;
    assert ([a] + rest)[1..] == rest;
  }

  // ---- Old records ----

  /** No reload is ever for a record older than its lifetime, and none for a record dated ahead of the clock. */
  lemma {:induction false} ReloadIsTimely(s: State, ev: Event, e: Around)
    requires Enabled(s, ev, e) && ReloadOf(s, ev, e) != []
    ensures && s.page.stored.Some? && e.now - s.page.stored.value.startedAt <= 14400000
            && s.page.stored.value.startedAt - e.now <= 60000
            && e.visible && e.online && e.chat == Some(s.page.stored.value.session)
  {
  }
}
