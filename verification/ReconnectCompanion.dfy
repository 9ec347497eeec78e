/** The companion's callbacks as the script runs them: on module variables and the stored record, in place. */
module ReconnectCompanion {
  import opened Common
  import opened ReconnectPage
  import opened ReconnectRuns

  class Companion {
    var stored: Option<Record>
    var recoveryTimer: Option<int>
    var pollTimer: Option<Poll>
    var statusRequest: Option<Poll>
    var reloadingToken: Option<Token>
    var resumeOwnerToken: Option<Token>

    function Value(): Page
      reads this
    {
      Page(stored, recoveryTimer, pollTimer, statusRequest, reloadingToken, resumeOwnerToken)
    }

    method LoadRecord(e: Around) returns (r: Option<Record>)
      modifies this
      ensures Value() == Loaded(old(Value()), e) && r == stored
      ensures r.Some? <==> old(stored).Some? && ValidRecord(old(stored).value, e.now)
      ensures r.Some? ==> r == old(stored)
      ensures Loaded(Value(), e) == Value()
    {
      if stored.Some? && !ValidRecord(stored.value, e.now) {
        stored := None;
      }
      r := stored;
    }

    method SaveRecord(r: Record, e: Around) returns (saved: bool)
      modifies this
      ensures saved <==> CanSave(r, e)
      ensures Value() == if saved then old(Value()).(stored := Some(r)) else old(Value())
    {
      if !ValidRecord(r, e.now) || !e.saves {
        return false;
      }
      stored := Some(r);
      return true;
    }

    method CancelRecoveryWork(k: Option<Token>)
      modifies this
      ensures Value() == Cancel(old(Value()), k)
      ensures k.Some? ==> AtRest(Value(), k.value)
      ensures k.None? ==> forall j :: AtRest(Value(), j)
      ensures stored == old(stored) && reloadingToken == old(reloadingToken) && resumeOwnerToken == old(resumeOwnerToken)
      ensures k.Some? && old(statusRequest).Some? && old(statusRequest).value.token != k.value ==>
              statusRequest == old(statusRequest)
    {
      recoveryTimer := None;
      pollTimer := None;
      if statusRequest.Some? && (k.None? || statusRequest.value.token == k.value) {
        statusRequest := None;
      }
    }

    method ClearMatching(k: Token, e: Around) returns (cleared: bool)
      modifies this
      ensures Value() == Clear(old(Value()), k, e)
      ensures cleared <==> old(reloadingToken) != Some(k) && Holds(Loaded(old(Value()), e), k)
      ensures cleared <==> old(reloadingToken) != Some(k) && Survives(old(stored), e.now) && old(stored).value.token == k
      ensures cleared ==> stored.None? && AtRest(Value(), k) && resumeOwnerToken != Some(k)
      ensures !cleared ==>
              && recoveryTimer == old(recoveryTimer) && pollTimer == old(pollTimer) && statusRequest == old(statusRequest)
              && resumeOwnerToken == old(resumeOwnerToken) && (stored.Some? ==> stored == old(stored))
              && (Survives(old(stored), e.now) || reloadingToken == Some(k) ==> stored == old(stored))
      ensures reloadingToken == old(reloadingToken)
    {
      if reloadingToken == Some(k) {
        return false;
      }
      var r := LoadRecord(e);
      if r.None? || r.value.token != k {
        return false;
      }
      stored := None;
      CancelRecoveryWork(Some(k));
      if resumeOwnerToken == Some(k) {
        resumeOwnerToken := None;
      }
      return true;
    }

    method ScheduleTheRecovery(e: Around)
      modifies this
      ensures Value() == ScheduleRecovery(old(Value()), e)
      ensures stored == if Survives(old(stored), e.now) then old(stored) else None
      ensures recoveryTimer ==
              if old(recoveryTimer).None? && Survives(old(stored), e.now) && reloadingToken != Some(stored.value.token)
              then Some(0) else old(recoveryTimer)
      ensures pollTimer == old(pollTimer) && statusRequest == old(statusRequest)
    {
      var r := LoadRecord(e);
      if r.None? || Some(r.value.token) == reloadingToken {
        return;
      }
      if recoveryTimer.None? {
        recoveryTimer := Some(0);
      }
    }

    method MarkForRecovery(k: Token, failedReplay: bool, e: Around)
      modifies this
      ensures Value() == Mark(old(Value()), k, failedReplay, e)
      ensures reloadingToken == old(reloadingToken) && resumeOwnerToken == old(resumeOwnerToken)
      ensures reloadingToken == Some(k) ==> Value() == old(Value())
      ensures reloadingToken != Some(k) ==> (stored.Some? <==> Survives(old(stored), e.now))
      ensures stored.Some? && old(stored).value.token != k ==> stored == old(stored)
      ensures Holds(Value(), k) ==>
              && stored.value.(hiddenAt := None, attempt := 0, phase := NoPhase)
                 == old(stored).value.(hiddenAt := None, attempt := 0, phase := NoPhase)
              && (stored.value.phase == old(stored).value.phase
                  || (failedReplay && old(stored).value.phase == Single && stored.value.phase == SingleWait))
      ensures Holds(Value(), k) && reloadingToken != Some(k) ==>
              pollTimer.None? && (statusRequest.Some? ==> statusRequest.value.token != k)
      ensures Holds(Value(), k) && reloadingToken != Some(k) && e.saves && stored.value.startedAt <= e.now ==>
              && stored.value.hiddenAt == Some(e.now) && recoveryTimer.Some?
              && (failedReplay ==> stored.value.phase != Single)
    {
      if reloadingToken == Some(k) {
        return;
      }
      var found := LoadRecord(e);
      if found.None? || found.value.token != k {
        return;
      }
      CancelRecoveryWork(Some(k));
      var r := found.value;
      if failedReplay && r.phase == Single {
        r := r.(phase := SingleWait);
      }
      r := r.(hiddenAt := Some(e.now), attempt := 0);
      var saved := SaveRecord(r, e);
      if saved {
        ScheduleTheRecovery(e);
      }
    }

    method ScheduleTheStatus(r: Record, immediate: bool, purpose: Purpose, e: Around) returns (delay: int)
      modifies this
      ensures Value() == ScheduleStatus(old(Value()), r, immediate, purpose, e)
      ensures old(pollTimer).Some? ==> Value() == old(Value())
      ensures old(pollTimer).None? ==>
              (pollTimer.Some? <==>
                 && old(statusRequest).None? && Eligible(r, e) && e.saves
                 && Survives(old(stored), e.now) && old(stored).value.token == r.token)
      ensures old(pollTimer).None? && pollTimer.Some? ==>
              var attempt := old(stored).value.attempt;
              && pollTimer == Some(Poll(r.token, purpose))
              && delay == (if immediate then 0 else if attempt < 5 then POLL_DELAYS[attempt] else 60000)
              && stored == Some(old(stored).value.(attempt := if immediate || attempt == 5 then attempt else attempt + 1))
      ensures pollTimer.None? && Survives(old(stored), e.now) ==> stored == old(stored)
    {
      delay := 0;
      if pollTimer.Some? || statusRequest.Some? {
        return;
      }
      if !Eligible(r, e) {
        return;
      }
      var found := LoadRecord(e);
      if found.None? || found.value.token != r.token {
        return;
      }
      var current := found.value;
      delay := PollDelay(current.attempt, immediate);
      if !immediate {
        current := current.(attempt := Min(current.attempt + 1, |POLL_DELAYS|));
      }
      var saved := SaveRecord(current, e);
      if saved {
        pollTimer := Some(Poll(current.token, purpose));
      }
    }

    method FinishResumeCleanly(k: Token, e: Around)
      modifies this
      ensures Value() == FinishResume(old(Value()), k, e)
      ensures reloadingToken != Some(k) ==> resumeOwnerToken != Some(k)
      ensures if reloadingToken == Some(k) then stored == old(stored) else stored.Some? <==> Survives(old(stored), e.now)
      ensures stored.Some? ==> SameRecovery(stored.value, old(stored)) && stored.value.hiddenAt == old(stored).value.hiddenAt
      ensures Holds(Value(), k) && reloadingToken != Some(k) && e.saves ==>
              if stored.value.hiddenAt.Some? then recoveryTimer.Some?
              else Eligible(stored.value, e) && old(pollTimer).None? && old(statusRequest).None? ==>
                     pollTimer == Some(Poll(k, ResumeEof))
    {
      if reloadingToken == Some(k) {
        return;
      }
      if resumeOwnerToken == Some(k) {
        resumeOwnerToken := None;
      }
      var found := LoadRecord(e);
      if found.None? || found.value.token != k {
        return;
      }
      var r := found.value.(attempt := 0);
      var saved := SaveRecord(r, e);
      if !saved {
        return;
      }
      if r.hiddenAt.Some? {
        ScheduleTheRecovery(e);
      } else {
        var delay := ScheduleTheStatus(r, true, ResumeEof, e);
      }
    }

    method InstrumentSend(k: Token, session: Session, multi: bool, aborted: bool, e: Around)
      modifies this
      ensures Value() == Send(old(Value()), k, session, multi, aborted, e)
      ensures forall j :: AtRest(Value(), j)
      ensures reloadingToken.None? && resumeOwnerToken.None?
      ensures aborted ==> !Holds(Value(), k)
      ensures !aborted && e.saves && e.now > 0 ==>
              stored == Some(Record(k, session, e.now, multi, if e.visible then None else Some(e.now), None, None, NoPhase, 0))
    {
      CancelRecoveryWork(None);
      reloadingToken, resumeOwnerToken := None, None;
      var saved := SaveRecord(NewRecord(k, session, multi, e), e);
      if aborted {
        var cleared := ClearMatching(k, e);
      }
    }

    method RecoverNow(e: Around)
      modifies this
      ensures Value() == RecoverFires(old(Value()), e)
      ensures stored.Some? ==> SameRecovery(stored.value, old(stored))
      ensures stored.Some? <==> Survives(old(stored), e.now)
      ensures old(pollTimer).None? ==>
              (pollTimer.Some? <==>
                 && old(statusRequest).None? && e.saves && Survives(old(stored), e.now)
                 && Eligible(old(stored).value, e) && CheckIsDue(old(stored).value, e.now))
      ensures old(pollTimer).None? && pollTimer.Some? ==>
              pollTimer == Some(Poll(old(stored).value.token, PurposeOf(old(stored).value)))
      ensures recoveryTimer.Some? <==>
              Survives(old(stored), e.now) && Eligible(old(stored).value, e) && IntervalRuns(old(stored).value, e.now)
      ensures recoveryTimer.Some? ==>
              && pollTimer == old(pollTimer) && stored == old(stored)
              && e.now + recoveryTimer.value == stored.value.lastRecoveryAt.value + MIN_RECOVERY_INTERVAL
      ensures statusRequest == old(statusRequest)
    {
      recoveryTimer := None;
      var found := LoadRecord(e);
      if found.None? || !Eligible(found.value, e) {
        return;
      }
      var r := found.value;
      var delay;
      if (r.phase == Multi || r.phase == SingleWait) && r.hiddenAt.None? {
        delay := ScheduleTheStatus(r, true, Settle, e);
        return;
      }
      if r.phase == Single && r.hiddenAt.None? {
        delay := ScheduleTheStatus(r, true, SingleSettle, e);
        return;
      }
      if r.phase == Multi || r.phase == SingleWait {
        r := r.(hiddenAt := None, attempt := 0);
        var saved := SaveRecord(r, e);
        if saved {
          delay := ScheduleTheStatus(r, true, Settle, e);
        }
        return;
      }
      if r.hiddenAt.None? {
        return;
      }
      if r.lastRecoveryAt.Some? && e.now - r.lastRecoveryAt.value < MIN_RECOVERY_INTERVAL {
        recoveryTimer := Some(MIN_RECOVERY_INTERVAL - (e.now - r.lastRecoveryAt.value));
        return;
      }
      r := r.(attempt := 0);
      var saved := SaveRecord(r, e);
      if saved {
        delay := ScheduleTheStatus(r, true, Recover, e);
      }
    }

    method PollTimerFires(e: Around)
      requires pollTimer.Some?
      modifies this
      ensures Value() == PollFires(old(Value()), e)
      ensures pollTimer.None? && recoveryTimer == old(recoveryTimer)
      ensures old(statusRequest).Some? ==> statusRequest == old(statusRequest)
      ensures old(statusRequest).None? ==>
              (statusRequest.Some? <==> Holds(Value(), old(pollTimer).value.token) && Eligible(stored.value, e))
      ensures old(statusRequest).None? && statusRequest.Some? ==> statusRequest == old(pollTimer)
    {
      var poll := pollTimer.value;
      pollTimer := None;
      if statusRequest.Some? {
        return;
      }
      var found := LoadRecord(e);
      if found.None? || found.value.token != poll.token || !Eligible(found.value, e) {
        return;
      }
      statusRequest := Some(poll);
    }

    method ReloadForRecovery(k: Token, works: bool) returns (reload: Option<Token>)
      modifies this
      ensures Outcome(Value(), reload) == Reload(old(Value()), k, works)
      ensures AtRest(Value(), k) && stored == old(stored)
      ensures works ==> reload == Some(k) && Committed(Value(), k)
      ensures !works ==> reload.None? && reloadingToken.None?
    {
      reloadingToken := Some(k);
      CancelRecoveryWork(Some(k));
      if !works {
        reloadingToken := None;
      }
      reload := reloadingToken;
    }

    method StatusArrived(a: Answer, works: bool, e: Around) returns (reload: Option<Token>)
      requires statusRequest.Some?
      modifies this
      ensures Outcome(Value(), reload) == StatusAnswers(old(Value()), a, works, e)
      ensures reload.Some? ==>
              && reload.value == old(statusRequest).value.token && Committed(Value(), reload.value)
              && works && a.Status? && !a.incognito && (a.running ==> a.resumable)
      ensures var k := old(statusRequest).value.token;
              && (!Holds(Loaded(old(Value()), e), k) ==>
                    reload.None? && Value() == Loaded(old(Value()), e).(request := None))
              && (Concerns(old(stored), k, e) && old(reloadingToken) != Some(k) && (a.Missing? || (a.Status? && a.incognito))
                  ==> stored.None? && AtRest(Value(), k))
      ensures statusRequest.None?
      ensures reload.Some? <==>
              && Concerns(old(stored), old(statusRequest).value.token, e) && works && a.Status? && !a.incognito
              && !Unsettled(old(stored).value, a, e.now)
              && Reloads(old(stored).value, old(statusRequest).value.purpose, a.running, old(resumeOwnerToken), e)
      ensures Concerns(old(stored), old(statusRequest).value.token, e) && e.saves && old(pollTimer).None?
              && (a.Unusable? || (a.Status? && !a.incognito && Unsettled(old(stored).value, a, e.now)
                                  && old(stored).value.startedAt <= e.now)) ==>
              && pollTimer.Some? && pollTimer.value.token == old(statusRequest).value.token
              && Holds(Value(), pollTimer.value.token)
    {
      var k, purpose := statusRequest.value.token, statusRequest.value.purpose;
      statusRequest := None;
      reload := None;
      var found := LoadRecord(e);
      if found.None? || found.value.token != k {
        return;
      }
      var current := found.value;
      if !Eligible(current, e) {
        return;
      }
      if a.Missing? || (a.Status? && a.incognito) {
        var cleared := ClearMatching(k, e);
        return;
      }
      var delay;
      if a.Unusable? {
        delay := ScheduleTheStatus(current, false, purpose, e);
        return;
      }
      reload := DecideStatus(k, current, purpose, a, works, e);
    }

    method DecideStatus(k: Token, found: Record, purpose: Purpose, a: Answer, works: bool, e: Around)
      returns (reload: Option<Token>)
      requires stored == Some(found) && found.token == k && a.Status?
      modifies this
      ensures Outcome(Value(), reload) == Decide(old(Value()), k, purpose, a, works, e)
      ensures reload.Some? ==>
              && reload == Some(k) && Committed(Value(), k) && works && (a.running ==> a.resumable)
              && !AwaitsReservation(found, a, e.now) && !(found.phase == SingleWait && a.running)
      ensures ValidRecord(found, e.now) ==>
              (reload.Some? <==>
                 works && !Unsettled(found, a, e.now) && Reloads(found, purpose, a.running, old(resumeOwnerToken), e))
      ensures old(statusRequest).None? && old(pollTimer).None? && ValidRecord(found, e.now) && Eligible(found, e)
              && e.saves && found.startedAt <= e.now && Unsettled(found, a, e.now) ==>
              && Holds(Value(), k)
              && pollTimer == Some(Poll(k, if a.running && found.phase == SingleWait then Settle else purpose))
    {
      reload := None;
      var current, delay := found, 0;
      if !a.running && a.pending {
        if current.pendingSince.None? {
          current := current.(pendingSince := Some(e.now));
        }
        if e.now - current.pendingSince.value < PENDING_GRACE {
          var saved := SaveRecord(current, e);
          if saved {
            delay := ScheduleTheStatus(current, false, purpose, e);
          }
          return;
        }
      }
      if current.phase == SingleWait && a.running {
        delay := ScheduleTheStatus(current, false, Settle, e);
        return;
      }
      if a.running && !a.resumable {
        current := current.(pendingSince := None);
        var saved := SaveRecord(current, e);
        if saved {
          delay := ScheduleTheStatus(current, false, purpose, e);
        }
        return;
      }
      reload := ConcludeStatus(k, found, purpose, a.running, works, e);
    }

    method ConcludeStatus(k: Token, found: Record, purpose: Purpose, running: bool, works: bool, e: Around)
      returns (reload: Option<Token>)
      requires stored == Some(found) && found.token == k
      modifies this
      ensures Outcome(Value(), reload) == Conclude(old(Value()), k, purpose, running, works, e)
      ensures reload.Some? ==> reload == Some(k) && Committed(Value(), k) && works && purpose != ResumeEof
      ensures ValidRecord(found, e.now) ==>
              (reload.Some? <==> works && Reloads(found, purpose, running, old(resumeOwnerToken), e))
      ensures running && purpose == ResumeEof && ValidRecord(found, e.now) && e.saves && found.startedAt <= e.now
              && reloadingToken != Some(k) ==>
              && Holds(Value(), k) && stored.value.hiddenAt == Some(e.now) && stored.value.phase != Single
              && recoveryTimer.Some?
      ensures !running && purpose == ResumeEof && reloadingToken != Some(k) ==> stored.None?
      ensures running && (purpose == Settle || (purpose == SingleSettle && old(resumeOwnerToken) != Some(k)))
              && old(statusRequest).None? && old(pollTimer).None? && ValidRecord(found, e.now) && Eligible(found, e)
              && e.saves ==>
              Holds(Value(), k) && pollTimer == Some(Poll(k, purpose))
      ensures reload.Some? && !running && old(reloadingToken) != Some(k) ==> stored.None?
      ensures reload.Some? && running ==>
              && purpose == Recover && Holds(Value(), k) && stored.value.hiddenAt.None?
              && stored.value.lastRecoveryAt == Some(e.now) && stored.value.phase in {Single, Multi}
    {
      reload := None;
      var delay, cleared;
      if purpose == Recover {
        if !running {
          stored := None;
        } else {
          var again := found.(pendingSince := None, hiddenAt := None, lastRecoveryAt := Some(e.now), attempt := 0,
                              phase := if found.multiModel then Multi else Single);
          var saved := SaveRecord(again, e);
          if !saved {
            return;
          }
        }
        reload := ReloadForRecovery(k, works);
      } else if purpose == ResumeEof {
        if !running {
          cleared := ClearMatching(k, e);
        } else {
          MarkForRecovery(k, true, e);
        }
      } else if purpose == SingleSettle {
        if !running {
          if resumeOwnerToken == Some(k) {
            return;
          }
          cleared := ClearMatching(k, e);
          reload := ReloadForRecovery(k, works);
        } else if resumeOwnerToken != Some(k) {
          delay := ScheduleTheStatus(found, false, SingleSettle, e);
        }
      } else if !running {
        cleared := ClearMatching(k, e);
        reload := ReloadForRecovery(k, works);
      } else {
        delay := ScheduleTheStatus(found, false, Settle, e);
      }
    }

    method BecomesHidden(e: Around)
      modifies this
      ensures Value() == Hide(old(Value()), e)
      ensures stored.Some? <==> Survives(old(stored), e.now)
      ensures reloadingToken == old(reloadingToken) && resumeOwnerToken == old(resumeOwnerToken)
      ensures stored.Some? ==> SameRecovery(stored.value, old(stored)) && AtRest(Value(), stored.value.token)
      ensures stored.Some? && reloadingToken == Some(stored.value.token) ==> stored == old(stored)
      ensures stored.Some? && reloadingToken != Some(stored.value.token) && e.saves && stored.value.startedAt <= e.now ==>
              stored.value.hiddenAt == Some(e.now) && stored.value.pendingSince.None?
    {
      var found := LoadRecord(e);
      if found.None? {
        return;
      }
      if Some(found.value.token) != reloadingToken {
        var saved := SaveRecord(found.value.(hiddenAt := Some(e.now), pendingSince := None, attempt := 0), e);
      }
      CancelRecoveryWork(Some(found.value.token));
    }

    method PageIsShown(persisted: bool, e: Around)
      modifies this
      ensures Value() == PageShow(old(Value()), persisted, e)
      ensures reloadingToken.None? && pollTimer == old(pollTimer) && statusRequest == old(statusRequest)
      ensures stored.Some? ==> stored == old(stored)
      ensures stored.Some? <==> Survives(old(stored), e.now)
      ensures recoveryTimer.Some? <==>
              || old(recoveryTimer).Some?
              || (stored.Some? && (persisted || stored.value.hiddenAt.Some? || stored.value.phase != NoPhase))
    {
      reloadingToken := None;
      var found := LoadRecord(e);
      if found.Some? && (persisted || found.value.hiddenAt.Some? || found.value.phase != NoPhase) {
        ScheduleTheRecovery(e);
      }
    }

    method GoesOnline(e: Around)
      modifies this
      ensures Value() == GoOnline(old(Value()), e)
      ensures stored.Some? <==> Survives(old(stored), e.now)
      ensures stored.Some? ==> SameRecovery(stored.value, old(stored))
      ensures stored.Some? && stored.value.phase != NoPhase ==> stored.value.hiddenAt == old(stored).value.hiddenAt
      ensures pollTimer == old(pollTimer) && statusRequest == old(statusRequest)
      ensures stored.Some? && reloadingToken != Some(stored.value.token) && e.saves && stored.value.startedAt <= e.now ==>
              && (stored.value.phase == NoPhase ==> stored.value.hiddenAt == Some(e.now))
              && (recoveryTimer.None? <==>
                    && old(recoveryTimer).None? && stored.value.phase == Single && stored.value.hiddenAt.None?
                    && resumeOwnerToken == Some(stored.value.token))
    {
      var found := LoadRecord(e);
      if found.None? || Some(found.value.token) == reloadingToken {
        return;
      }
      var r := found.value;
      if r.phase == NoPhase {
        r := r.(hiddenAt := Some(e.now));
      }
      r := r.(attempt := 0);
      var saved := SaveRecord(r, e);
      if !saved {
        return;
      }
      if r.phase == Single && r.hiddenAt.None? && resumeOwnerToken == Some(r.token) {
        return;
      }
      ScheduleTheRecovery(e);
    }

    method GoesOffline(e: Around)
      modifies this
      ensures Value() == GoOffline(old(Value()), e)
      ensures stored.Some? <==> Survives(old(stored), e.now)
      ensures stored.Some? ==> SameRecovery(stored.value, old(stored)) && stored.value.hiddenAt == old(stored).value.hiddenAt
      ensures stored.Some? && reloadingToken != Some(stored.value.token) ==> AtRest(Value(), stored.value.token)
      ensures stored.Some? && reloadingToken == Some(stored.value.token) ==> stored == old(stored)
    {
      var found := LoadRecord(e);
      if found.None? || Some(found.value.token) == reloadingToken {
        return;
      }
      var saved := SaveRecord(found.value.(pendingSince := None, attempt := 0), e);
      CancelRecoveryWork(Some(found.value.token));
    }

    /** The send stream ended: a suspended tab keeps its record for reconciliation, otherwise it is done. */
    method SendStreamEnds(k: Token, e: Around)
      modifies this
      ensures Value() == SendEof(old(Value()), k, e)
      ensures stored.Some? ==> stored == old(stored)
      ensures Holds(Loaded(old(Value()), e), k) && reloadingToken != Some(k) ==>
              (stored.Some? <==> old(stored).value.hiddenAt.Some?)
              && if stored.Some? then recoveryTimer.Some? else AtRest(Value(), k)
    {
      var found := LoadRecord(e);
      if found.Some? && found.value.token == k && found.value.hiddenAt.Some? {
        ScheduleTheRecovery(e);
      } else {
        var cleared := ClearMatching(k, e);
      }
    }

    method StreamBroke(k: Token, resume: bool, e: Around)
      modifies this
      ensures Value() == StreamFails(old(Value()), k, resume, e)
      ensures resume ==> resumeOwnerToken != Some(k)
      ensures reloadingToken == Some(k) || (stored.Some? <==> Survives(old(stored), e.now))
      ensures Holds(Value(), k) && reloadingToken != Some(k) && e.saves && stored.value.startedAt <= e.now ==>
              && stored.value.hiddenAt == Some(e.now) && recoveryTimer.Some? && pollTimer.None?
              && stored.value.phase == if resume && old(stored).value.phase == Single then SingleWait else old(stored).value.phase
    {
      if resume && resumeOwnerToken == Some(k) {
        resumeOwnerToken := None;
      }
      MarkForRecovery(k, resume, e);
    }

    method ResumeResponded(k: Token, ok: bool, wraps: bool, e: Around)
      modifies this
      ensures Value() == ResumeAnswered(old(Value()), k, ok, wraps, e)
      ensures ok ==> (stored.Some? ==> stored == old(stored))
      ensures reloadingToken == Some(k) || (stored.Some? <==> Survives(old(stored), e.now))
      ensures ok && !wraps ==>
              && recoveryTimer == old(recoveryTimer) && pollTimer == old(pollTimer) && statusRequest == old(statusRequest)
              && resumeOwnerToken == old(resumeOwnerToken)
      ensures ok && wraps && Holds(Value(), k) ==> resumeOwnerToken == Some(k) && AtRest(Value(), k)
      ensures !ok && Holds(Value(), k) && reloadingToken != Some(k) && e.saves && stored.value.startedAt <= e.now ==>
              stored.value.hiddenAt == Some(e.now) && stored.value.phase != Single
    {
      if !ok {
        MarkForRecovery(k, true, e);
        return;
      }
      var current := LoadRecord(e);
      if current.None? || current.value.token != k {
        return;
      }
      if wraps {
        CancelRecoveryWork(Some(k));
        resumeOwnerToken := Some(k);
      }
    }

    method TerminalRequest(session: Session, e: Around)
      modifies this
      ensures Value() == Terminal(old(Value()), session, e)
      ensures Survives(old(stored), e.now) && old(stored).value.session == session
              && reloadingToken != Some(old(stored).value.token) ==>
              stored.None? && AtRest(Value(), old(stored).value.token)
      ensures Survives(old(stored), e.now) && old(stored).value.session != session ==> Value() == old(Value())
      ensures stored.Some? ==> stored == old(stored)
    {
      var found := LoadRecord(e);
      if found.Some? && found.value.session == session {
        var cleared := ClearMatching(found.value.token, e);
      }
    }

    method RouteChanges(e: Around)
      modifies this
      ensures Value() == Route(old(Value()), e)
      ensures stored.Some? <==> Survives(old(stored), e.now)
      ensures stored.Some? ==> SameRecovery(stored.value, old(stored)) && stored.value.hiddenAt == old(stored).value.hiddenAt
      ensures recoveryTimer.Some? <==>
              || old(recoveryTimer).Some?
              || (stored.Some? && e.chat == Some(stored.value.session) && reloadingToken != Some(stored.value.token))
      ensures stored.Some? && e.chat != Some(stored.value.session) && e.saves ==> stored.value.pendingSince.None?
      ensures stored.Some? && e.chat == Some(stored.value.session) ==> stored == old(stored)
      ensures pollTimer == old(pollTimer) && statusRequest == old(statusRequest)
    {
      var found := LoadRecord(e);
      if found.None? {
        return;
      }
      if e.chat == Some(found.value.session) {
        ScheduleTheRecovery(e);
      } else if found.value.pendingSince.Some? {
        var saved := SaveRecord(found.value.(pendingSince := None, attempt := 0), e);
      }
    }

    method BecomesVisible(e: Around)
      modifies this
      ensures Value() == ScheduleRecovery(Loaded(old(Value()), e), e)
      ensures stored == if Survives(old(stored), e.now) then old(stored) else None
      ensures recoveryTimer.Some? <==>
              old(recoveryTimer).Some? || (stored.Some? && reloadingToken != Some(stored.value.token))
      ensures pollTimer == old(pollTimer) && statusRequest == old(statusRequest)
    {
      var found := LoadRecord(e);
      if found.Some? {
        ScheduleTheRecovery(e);
      }
    }

    /** A new document starts with the stored record alone. */
    method DocumentStarts(e: Around)
      modifies this
      ensures Value() == NewDocument(old(Value()), e)
      ensures stored == if Survives(old(stored), e.now) then old(stored) else None
      ensures pollTimer.None? && statusRequest.None? && reloadingToken.None? && resumeOwnerToken.None?
      ensures recoveryTimer.Some? <==> stored.Some? && (stored.value.hiddenAt.Some? || stored.value.phase != NoPhase)
    {
      recoveryTimer, pollTimer, statusRequest, reloadingToken, resumeOwnerToken := None, None, None, None, None;
      var found := LoadRecord(e);
      if found.Some? && (found.value.hiddenAt.Some? || found.value.phase != NoPhase) {
        ScheduleTheRecovery(e);
      }
    }

    // ---- Every event ----

    /** Runs the callback of any event; new tokens are handed in. */
    method Dispatch(ev: Event, unused: Token, e: Around, ghost s: State) returns (reload: Option<Token>)
      requires s.page == Value() && Enabled(s, ev, e) && unused == s.issued
      modifies this
      ensures Value() == After(s, ev, e)
      ensures reload == if ev.StatusArrives? then StatusAnswers(s.page, ev.answer, ev.reloadWorks, e).reload else None
    {
      reload := None;
      var cleared;
      match ev {
        case DoSend(session, multi, aborted) => InstrumentSend(unused, session, multi, aborted, e);
        case DoClear(k) => cleared := ClearMatching(k, e);
        case SendFails(k) => MarkForRecovery(k, false, e);
        case SendEnds(k) => SendStreamEnds(k, e);
        case StreamBreaks(k, resume) => StreamBroke(k, resume, e);
        case ResumeEnds(k) => FinishResumeCleanly(k, e);
        case ResumeAnswers(k, ok, wraps) => ResumeResponded(k, ok, wraps, e);
        case DoTerminal(session) => TerminalRequest(session, e);
        case RecoveryTimer => RecoverNow(e);
        case PollTimer => PollTimerFires(e);
        case StatusArrives(answer, reloadWorks) => reload := StatusArrived(answer, reloadWorks, e);
        case RouteChange => RouteChanges(e);
        case Hidden => BecomesHidden(e);
        case Visible => BecomesVisible(e);
        case PageShown(persisted) => PageIsShown(persisted, e);
        case Online => GoesOnline(e);
        case Offline => GoesOffline(e);
        case Fresh => DocumentStarts(e);
      }
    }

    /**
     Handles one event on a page whose history is s. The page reached is the one the run reaches, the history's
     invariant holds again, and a reload is reported exactly when the run records one.
     */
    method Handle(ev: Event, unused: Token, e: Around, ghost s: State) returns (reload: Option<Token>)
      requires s.page == Value() && Inv(s) && Enabled(s, ev, e) && unused == s.issued
      modifies this
      ensures Value() == Step(s, ev, e).page && Inv(Step(s, ev, e))
      ensures Step(s, ev, e).reloads == s.reloads + ReloadOf(s, ev, e)
      ensures Tokens(ReloadOf(s, ev, e)) == if reload.Some? then [reload.value] else []
    {
      hide After, Inv;
      StepKeepsInv(s, ev, e);
      ReportedReload(s, ev, e);
      reload := Dispatch(ev, unused, e, s);
    }

    /**
     Serves a whole run of events in place. The page ends as the run does, and the reloads it asked for are the
     run's, so what is proved of every run's reloads holds of this object.
     */
    method Serve(events: seq<(Event, Around)>, first: Token, ghost s: State, ghost end: State) returns (reloads: seq<Token>)
      requires s.page == Value() && Inv(s) && Reaches(s, events, end) && first == s.issued
      modifies this
      ensures Value() == end.page && Inv(end)
      ensures Tokens(end.reloads) == Tokens(s.reloads) + reloads
    {
      hide Inv, After, ReloadOf, Enabled;
      reloads := [];
      var unused := first;
      ghost var now := s;
      var i := 0;
      assert events[0..] == events && Tokens(s.reloads) + [] == Tokens(s.reloads);
      while i < |events|
        invariant 0 <= i <= |events| && Reaches(now, events[i..], end)
        invariant now.page == Value() && Inv(now) && unused == now.issued
        invariant Tokens(now.reloads) == Tokens(s.reloads) + reloads
      {
        var ev, e := events[i].0, events[i].1;
        assert events[i..][0] == events[i] && events[i..][1..] == events[i + 1..];
        var reload := Handle(ev, unused, e, now);
        TokensAppend(now.reloads, ReloadOf(now, ev, e));
        if reload.Some? {
          reloads := reloads + [reload.value];
        }
        now := Step(now, ev, e);
        if ev.DoSend? {
          unused := unused + 1;
        }
        i := i + 1;
      }
      assert events[i..] == [];
    }
  }

  /** The tokens a history reloaded for, in order. */
  function Tokens(reloads: seq<Reloaded>): seq<Token> {
    seq(|reloads|, i requires 0 <= i < |reloads| => reloads[i].token)
  }

  lemma TokensAppend(a: seq<Reloaded>, b: seq<Reloaded>)
    ensures Tokens(a + b) == Tokens(a) + Tokens(b)
  {
  }

  lemma ReportedReload(s: State, ev: Event, e: Around)
    requires Enabled(s, ev, e)
    ensures var reload :=
              if ev.StatusArrives? then StatusAnswers(s.page, ev.answer, ev.reloadWorks, e).reload else None;
            Tokens(ReloadOf(s, ev, e)) == if reload.Some? then [reload.value] else []
  {
    hide ValidRecord, ScheduleStatus, Mark;
  }
}
