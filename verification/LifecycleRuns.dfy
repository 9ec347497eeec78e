/** Any number of request, reaper and shutdown threads over one lifecycle, with the processes they start and stop. */
module LifecycleRuns {
  import opened Common
  import opened Lifecycle

  type Tid = int

  datatype Thread =
    | Idle
    | Beginning
    /** Blocked on the condition until a notification. */
    | Waiting
    | Starting(child: Option<Child>)
    /** Startup failed and starting is already cleared; its process may still have to be terminated. */
    | Failing(child: Option<Child>)
    | Serving
    | Reaping(victim: Child)
    | ShuttingDown
    | Closing(child: Option<Child>)

  /** One termination: which process, whether its startup had failed, and how many requests were unfinished. */
  datatype Kill = Kill(child: Child, failedStart: bool, active: nat)

  /**
   serving, starter and reaper name the threads in those positions; orphans are processes whose termination
   failed, and finished tells that some shutdown got past its wait.
   */
  datatype State = State(
    core: Core,
    now: real,
    threads: map<Tid, Thread>,
    alive: set<Child>,
    spawned: nat,
    serving: set<Tid>,
    starter: Tid,
    reaper: Tid,
    kills: seq<Kill>,
    orphans: set<Child>,
    finished: bool)

  function ThreadOf(s: State, t: Tid): Thread {
    if t in s.threads then s.threads[t] else Idle
  }

  datatype Action =
    | Tick(now: real)
    | Exits(c: Child)
    | Call(t: Tid)
    | TryBegin(t: Tid)
    | Spawn(t: Tid)
    | StartEnds(t: Tid, ok: bool)
    | StopFailed(t: Tid, works: bool)
    | End(t: Tid)
    | Reap(t: Tid, idleSeconds: real)
    | StopReaped(t: Tid, works: bool)
    | RequestShutdown
    | Shutdown(t: Tid)
    | ShutdownEnds(t: Tid)
    | StopLast(t: Tid, works: bool)

  predicate Enabled(s: State, a: Action) {
    match a
    case Tick(now) => s.now <= now
    case Exits(c) => c in s.alive
    case Call(t) => ThreadOf(s, t).Idle?
    case TryBegin(t) => ThreadOf(s, t).Beginning?
    case Spawn(t) => ThreadOf(s, t) == Starting(None)
    case StartEnds(t, ok) => ThreadOf(s, t).Starting? && (ok ==> ThreadOf(s, t).child.Some?)
    case StopFailed(t, _) => ThreadOf(s, t).Failing?
    case End(t) => ThreadOf(s, t).Serving?
    case Reap(t, _) => ThreadOf(s, t).Idle?
    case StopReaped(t, _) => ThreadOf(s, t).Reaping?
    case RequestShutdown => true
    case Shutdown(t) => ThreadOf(s, t).Idle?
    case ShutdownEnds(t) => ThreadOf(s, t).ShuttingDown?
    case StopLast(t, _) => ThreadOf(s, t).Closing?
  }

  function Go(s: State, t: Tid, x: Thread): State {
    s.(threads := s.threads[t := x])
  }

  function Notified(s: State): State {
    s.(threads := map u | u in s.threads :: if s.threads[u].Waiting? then Beginning else s.threads[u])
  }

  /** Terminating a process logs it; one that survives its termination becomes an orphan. */
  function Stopped(s: State, c: Child, works: bool, failedStart: bool): State {
    if c !in s.alive then s
    else s.(alive := if works then s.alive - {c} else s.alive,
            orphans := if works then s.orphans else s.orphans + {c},
            kills := s.kills + [Kill(c, failedStart, s.core.active)])
  }

  predicate Exited(s: State) {
    s.core.child.Some? && s.core.child.value !in s.alive
  }

  function BeginStep(s: State, t: Tid): State
    requires Enabled(s, TryBegin(t))
  {
    var r := Begun(s.core, Exited(s));
    var s' := s.(core := r.0);
    match r.1
    case Admitted => Go(s', t, Serving).(serving := s.serving + {t})
    case Refused => Go(s', t, Idle)
    case Blocked => Go(s', t, Waiting)
    case Starter => Go(s', t, Thread.Starting(None)).(starter := t)
  }

  function StartStep(s: State, t: Tid, ok: bool): State
    requires Enabled(s, StartEnds(t, ok))
  {
    var c := ThreadOf(s, t).child;
    if ok then Notified(Go(s, t, Serving).(core := Started(s.core, c), serving := s.serving + {t}))
    else Notified(Go(s, t, Failing(c)).(core := Started(s.core, None)))
  }

  function StopFailedStep(s: State, t: Tid, works: bool): State
    requires Enabled(s, StopFailed(t, works))
  {
    var c := ThreadOf(s, t).child;
    Go(if c.Some? then Stopped(s, c.value, works, true) else s, t, Idle)
  }

  function EndStep(s: State, t: Tid): State
    requires Enabled(s, End(t))
  {
    if s.core.active == 0 then Go(s, t, Idle)
    else
      Notified(Go(s, t, Idle).(core := s.core.(active := s.core.active - 1, lastCompleted := s.now),
                               serving := s.serving - {t}))
  }

  function ReapStep(s: State, t: Tid, idleSeconds: real): State
    requires Enabled(s, Reap(t, idleSeconds))
  {
    if !CanReap(s.core, s.now, idleSeconds) then s
    else Go(s, t, Reaping(s.core.child.value)).(core := s.core.(stopping := true), reaper := t)
  }

  /** The reaper terminates and then, in any case, clears the installed child and the stopping mark. */
  function StopReapedStep(s: State, t: Tid, works: bool): State
    requires Enabled(s, StopReaped(t, works))
  {
    var c := ThreadOf(s, t).victim;
    var stopped := Stopped(s, c, works, false);
    Notified(Go(stopped, t, Idle).(core := Reaped(stopped.core, c)))
  }

  function ShutdownEndsStep(s: State, t: Tid): State
    requires Enabled(s, ShutdownEnds(t))
  {
    if !Quiet(s.core) then s
    else Go(s, t, Closing(s.core.child)).(core := s.core.(child := None), finished := true)
  }

  function StopLastStep(s: State, t: Tid, works: bool): State
    requires Enabled(s, StopLast(t, works))
  {
    var c := ThreadOf(s, t).child;
    Go(if c.Some? then Stopped(s, c.value, works, false) else s, t, Idle)
  }

  function Apply(s: State, a: Action): State
    requires Enabled(s, a)
  {
    match a
    case Tick(now) => s.(now := now)
    case Exits(c) => s.(alive := s.alive - {c})
    case Call(t) => Go(s, t, Beginning)
    case TryBegin(t) => BeginStep(s, t)
    case Spawn(t) => Go(s, t, Thread.Starting(Some(s.spawned))).(alive := s.alive + {s.spawned}, spawned := s.spawned + 1)
    case StartEnds(t, ok) => StartStep(s, t, ok)
    case StopFailed(t, works) => StopFailedStep(s, t, works)
    case End(t) => EndStep(s, t)
    case Reap(t, idle) => ReapStep(s, t, idle)
    case StopReaped(t, works) => StopReapedStep(s, t, works)
    case RequestShutdown => Notified(s.(core := s.core.(requested := true)))
    case Shutdown(t) => Go(s, t, ShuttingDown).(core := s.core.(requested := true, closed := true))
    case ShutdownEnds(t) => ShutdownEndsStep(s, t)
    case StopLast(t, works) => StopLastStep(s, t, works)
  }

  // ---- The invariant ----

  predicate CoreOk(c: Core, finished: bool) {
    && Sound(c)
    && (finished ==> c.closed && Quiet(c) && c.child.None?)
  }

  predicate ThreadOk(s: State, t: Tid, x: Thread) {
    match x
    case Waiting => s.core.starting || s.core.stopping
    case Starting(c) => s.core.starting && s.starter == t && (c.Some? ==> c.value < s.spawned)
    case Failing(c) => c.Some? ==> c.value < s.spawned && s.core.child != c
    case Serving => t in s.serving
    case Reaping(c) => s.core.stopping && s.reaper == t && c < s.spawned && (s.core.child.None? || s.core.child == Some(c))
    case Closing(c) => s.finished && (c.Some? ==> c.value < s.spawned && s.core.child != c)
    case ShuttingDown => s.core.closed
    case _ => true
  }

  ghost predicate Inv(s: State) {
    && CoreOk(s.core, s.finished)
    && (forall t | t in s.threads :: ThreadOk(s, t, s.threads[t]))
    && |s.serving| == s.core.active && (forall t | t in s.serving :: ThreadOf(s, t).Serving?)
    && (s.core.starting ==> ThreadOf(s, s.starter).Starting?)
    && (s.core.stopping ==> ThreadOf(s, s.reaper).Reaping?)
    && (s.core.child.Some? ==> s.core.child.value < s.spawned)
    && (forall t | t in s.threads :: NotInstalled(s, s.threads[t]))
    && (forall i | 0 <= i < |s.kills| :: !s.kills[i].failedStart ==> s.kills[i].active == 0)
  }

  function StarterChild(s: State): Option<Child> {
    if s.core.starting && ThreadOf(s, s.starter).Starting? then ThreadOf(s, s.starter).child else None
  }

  /** A process still starting, failed or taken out is not the installed one, nor the one being started. */
  predicate NotInstalled(s: State, x: Thread) {
    (x.Starting? || x.Failing? || x.Closing?) && x.child.Some? ==>
      s.core.child != x.child && (!x.Starting? ==> StarterChild(s) != x.child)
  }

  predicate Initial(s: State) {
    && s.core == Core(None, false, false, 0, s.core.lastCompleted, false, false)
    && s.threads == map[] && s.alive == {} && s.spawned == 0 && s.serving == {} && s.kills == [] && s.orphans == {}
    && !s.finished
  }

  lemma PositionOk(s: State, t: Tid)
    requires Inv(s)
    ensures ThreadOk(s, t, ThreadOf(s, t)) && NotInstalled(s, ThreadOf(s, t))
  {
  }

  lemma {:induction false} AdmittedKeeps(s: State, t: Tid)
    requires Inv(s) && Enabled(s, TryBegin(t)) && Begun(s.core, Exited(s)).1.Admitted?
    ensures Inv(BeginStep(s, t))
  {
    var s' := BeginStep(s, t);
    PositionOk(s, t);
    forall u | u in s'.threads ensures ThreadOk(s', u, s'.threads[u]) && NotInstalled(s', s'.threads[u]) {
      PositionOk(s, u);
    }
  }

  lemma {:induction false} TurnedAwayKeeps(s: State, t: Tid)
    requires Inv(s) && Enabled(s, TryBegin(t)) && (Begun(s.core, Exited(s)).1.Refused? || Begun(s.core, Exited(s)).1.Blocked?)
    ensures Inv(BeginStep(s, t))
  {
    var s' := BeginStep(s, t);
    PositionOk(s, t);
    forall u | u in s'.threads ensures ThreadOk(s', u, s'.threads[u]) && NotInstalled(s', s'.threads[u]) {
      PositionOk(s, u);
    }
  }

  lemma {:induction false} StarterKeeps(s: State, t: Tid)
    requires Inv(s) && Enabled(s, TryBegin(t)) && Begun(s.core, Exited(s)).1.Starter?
    ensures Inv(BeginStep(s, t))
  {
    var s' := BeginStep(s, t);
    PositionOk(s, t);
    forall u | u in s'.threads ensures ThreadOk(s', u, s'.threads[u]) && NotInstalled(s', s'.threads[u]) {
      PositionOk(s, u);
    }
  }

  lemma {:induction false} StartEndsKeeps(s: State, t: Tid, ok: bool)
    requires Inv(s) && Enabled(s, StartEnds(t, ok))
    ensures Inv(StartStep(s, t, ok))
  {
    var s' := StartStep(s, t, ok);
    PositionOk(s, t);
    forall u | u in s'.threads ensures ThreadOk(s', u, s'.threads[u]) && NotInstalled(s', s'.threads[u]) {
      if u in s.threads {
        PositionOk(s, u);
      }
    }
  }

  lemma {:induction false} StopFailedKeeps(s: State, t: Tid, works: bool)
    requires Inv(s) && Enabled(s, StopFailed(t, works))
    ensures Inv(StopFailedStep(s, t, works))
  {
    var s' := StopFailedStep(s, t, works);
    PositionOk(s, t);
    forall u | u in s'.threads ensures ThreadOk(s', u, s'.threads[u]) && NotInstalled(s', s'.threads[u]) {
      if u in s.threads {
        PositionOk(s, u);
      }
    }
  }

  lemma {:induction false} EndKeeps(s: State, t: Tid)
    requires Inv(s) && Enabled(s, End(t))
    ensures Inv(EndStep(s, t))
  {
    var s' := EndStep(s, t);
    PositionOk(s, t);
    forall u | u in s'.threads ensures ThreadOk(s', u, s'.threads[u]) && NotInstalled(s', s'.threads[u]) {
      if u in s.threads {
        PositionOk(s, u);
      }
    }
  }

  lemma {:induction false} ReapKeeps(s: State, t: Tid, idleSeconds: real)
    requires Inv(s) && Enabled(s, Reap(t, idleSeconds))
    ensures Inv(ReapStep(s, t, idleSeconds))
  {
    var s' := ReapStep(s, t, idleSeconds);
    PositionOk(s, t);
    forall u | u in s'.threads ensures ThreadOk(s', u, s'.threads[u]) && NotInstalled(s', s'.threads[u]) {
      if u in s.threads {
        PositionOk(s, u);
      }
    }
  }

  lemma {:induction false} StopReapedKeeps(s: State, t: Tid, works: bool)
    requires Inv(s) && Enabled(s, StopReaped(t, works))
    ensures Inv(StopReapedStep(s, t, works))
  {
    var s' := StopReapedStep(s, t, works);
    PositionOk(s, t);
    forall u | u in s'.threads ensures ThreadOk(s', u, s'.threads[u]) && NotInstalled(s', s'.threads[u]) {
      if u in s.threads {
        PositionOk(s, u);
      }
    }
  }

  lemma {:induction false} ShutdownEndsKeeps(s: State, t: Tid)
    requires Inv(s) && Enabled(s, ShutdownEnds(t))
    ensures Inv(ShutdownEndsStep(s, t))
  {
    var s' := ShutdownEndsStep(s, t);
    PositionOk(s, t);
    forall u | u in s'.threads ensures ThreadOk(s', u, s'.threads[u]) && NotInstalled(s', s'.threads[u]) {
      if u in s.threads {
        PositionOk(s, u);
      }
    }
  }

  lemma {:induction false} StopLastKeeps(s: State, t: Tid, works: bool)
    requires Inv(s) && Enabled(s, StopLast(t, works))
    ensures Inv(StopLastStep(s, t, works))
  {
    var s' := StopLastStep(s, t, works);
    PositionOk(s, t);
    forall u | u in s'.threads ensures ThreadOk(s', u, s'.threads[u]) && NotInstalled(s', s'.threads[u]) {
      if u in s.threads {
        PositionOk(s, u);
      }
    }
  }

  lemma {:induction false} PlainKeeps(s: State, a: Action)
    requires Inv(s) && Enabled(s, a)
    requires a.Tick? || a.Exits? || a.Call? || a.Spawn? || a.RequestShutdown? || a.Shutdown?
    ensures Inv(Apply(s, a))
  {
    var s' := Apply(s, a);
    forall u | u in s'.threads ensures ThreadOk(s', u, s'.threads[u]) && NotInstalled(s', s'.threads[u]) {
      if u in s.threads {
        PositionOk(s, u);
      }
    }
  }

  lemma {:induction false} ActionKeepsInv(s: State, a: Action)
    requires Inv(s) && Enabled(s, a)
    ensures Inv(Apply(s, a))
  {
    hide Inv;
    match a
    case TryBegin(t) =>
      match Begun(s.core, Exited(s)).1 {
        case Admitted => AdmittedKeeps(s, t);
        case Starter => StarterKeeps(s, t);
        case _ => TurnedAwayKeeps(s, t);
      }
    case StartEnds(t, ok) => StartEndsKeeps(s, t, ok);
    case StopFailed(t, works) => StopFailedKeeps(s, t, works);
    case End(t) => EndKeeps(s, t);
    case Reap(t, idleSeconds) => ReapKeeps(s, t, idleSeconds);
    case StopReaped(t, works) => StopReapedKeeps(s, t, works);
    case ShutdownEnds(t) => ShutdownEndsKeeps(s, t);
    case StopLast(t, works) => StopLastKeeps(s, t, works);
    case _ => PlainKeeps(s, a);
  }

  // ---- Runs ----

  ghost predicate Reaches(s: State, actions: seq<Action>, end: State)
    decreases |actions|
  {
    if actions == [] then s == end
    else Enabled(s, actions[0]) && Reaches(Apply(s, actions[0]), actions[1..], end)
  }

  lemma {:induction false} RunsKeepInv(s: State, actions: seq<Action>, end: State)
    requires Inv(s) && Reaches(s, actions, end)
    ensures Inv(end) && (s.finished ==> end.finished)
    decreases |actions|
  {
    hide Inv, Enabled;
    if actions != [] {
      ActionKeepsInv(s, actions[0]);
      RunsKeepInv(Apply(s, actions[0]), actions[1..], end);
    }
  }

  /** Only a process whose startup failed is ever terminated while an admitted request is unfinished. */
  lemma {:induction false} StoppedOnlyWhenDrained(s: State, actions: seq<Action>, end: State, i: nat)
    requires Initial(s) && Reaches(s, actions, end) && i < |end.kills| && !end.kills[i].failedStart
    ensures end.kills[i].active == 0
  {
    RunsKeepInv(s, actions, end);
  }

  /** Stopping excludes active requests and startups; starting excludes an installed child and a second starter. */
  lemma {:induction false} Exclusions(s: State, actions: seq<Action>, end: State, t: Tid, u: Tid)
    requires Initial(s) && Reaches(s, actions, end)
    ensures end.core.stopping ==> end.core.active == 0 && !end.core.starting
    ensures ThreadOf(end, t).Starting? ==> end.core.starting && end.core.child.None? && !ThreadOf(end, u).Reaping?
    ensures ThreadOf(end, t).Starting? && ThreadOf(end, u).Starting? ==> t == u
    ensures ThreadOf(end, t).Reaping? ==> !ThreadOf(end, u).Serving?
  {
    RunsKeepInv(s, actions, end);
    PositionOk(end, t);
    PositionOk(end, u);
  }

  /** Matched requests never underflow: the count is exactly the number of threads being served. */
  lemma {:induction false} EndNeverUnderflows(s: State, actions: seq<Action>, end: State, t: Tid)
    requires Initial(s) && Reaches(s, actions, end) && Enabled(end, End(t))
    ensures end.core.active > 0 && EndStep(end, t).core.active == end.core.active - 1
  {
    RunsKeepInv(s, actions, end);
    PositionOk(end, t);
    assert t in end.serving;
  }

  /** Once some shutdown got past its wait nothing is active or installed, and every later request is refused. */
  lemma {:induction false} ShutdownIsFinal(s: State, actions: seq<Action>, mid: State, more: seq<Action>, end: State, t: Tid)
    requires Initial(s) && Reaches(s, actions, mid) && mid.finished && Reaches(mid, more, end)
    ensures end.core.active == 0 && end.core.child.None? && !end.core.starting && !end.core.stopping
    ensures Enabled(end, TryBegin(t)) ==> BeginStep(end, t) == Go(end, t, Idle)
    ensures !ThreadOf(end, t).Serving?
  {
    RunsKeepInv(s, actions, mid);
    RunsKeepInv(mid, more, end);
    PositionOk(end, t);
  }

  /** A request thread blocks only while a startup or a stop is under way whose end wakes it. */
  lemma {:induction false} NoLostWakeup(s: State, actions: seq<Action>, end: State, t: Tid)
    requires Initial(s) && Reaches(s, actions, end) && ThreadOf(end, t).Waiting?
    ensures || (Enabled(end, StartEnds(end.starter, false))
                && ThreadOf(StartStep(end, end.starter, false), t).Beginning?)
            || (Enabled(end, StopReaped(end.reaper, true))
                && ThreadOf(StopReapedStep(end, end.reaper, true), t).Beginning?)
  {
    RunsKeepInv(s, actions, end);
    PositionOk(end, t);
  }

  // ---- Where the tempting claims stop ----

  /** While requests are unfinished, the installed child is dropped exactly by a request that finds it exited. */
  lemma {:induction false} DroppedWhileActive(s: State, a: Action)
    requires Inv(s) && Enabled(s, a) && s.core.child.Some? && s.core.active > 0
    ensures Apply(s, a).core.child != s.core.child <==> a.TryBegin? && Exited(s) && !s.core.closed
  {
    if !a.Tick? && !a.Exits? && !a.RequestShutdown? {
      PositionOk(s, a.t);
    }
  }

  /** The thread will still terminate this process, or install it. */
  predicate HeldBy(x: Thread, c: Child) {
    match x
    case Starting(d) => d == Some(c)
    case Failing(d) => d == Some(c)
    case Closing(d) => d == Some(c)
    case Reaping(d) => d == c
    case _ => false
  }

  ghost predicate Accounted(s: State, c: Child) {
    s.core.child == Some(c) || c in s.orphans || exists t :: t in s.threads && HeldBy(s.threads[t], c)
  }

  /** Where c is after the step, seen from the thread that acted. */
  predicate AccountedBy(s: State, t: Tid, c: Child) {
    s.core.child == Some(c) || c in s.orphans || (t in s.threads && HeldBy(s.threads[t], c))
  }

  lemma {:induction false} InstalledStays(s: State, a: Action, c: Child)
    requires Inv(s) && Enabled(s, a) && c in Apply(s, a).alive && c in s.alive && s.core.child == Some(c)
    ensures Apply(s, a).core.child == Some(c) || (!a.Tick? && !a.Exits? && !a.RequestShutdown? && AccountedBy(Apply(s, a), a.t, c))
  {
    hide NotInstalled;
    if !a.Tick? && !a.Exits? && !a.RequestShutdown? {
      PositionOk(s, a.t);
    }
  }

  lemma {:induction false} HeldStays(s: State, a: Action, t: Tid, c: Child)
    requires Enabled(s, a) && c in Apply(s, a).alive && c in s.alive && t in s.threads && HeldBy(s.threads[t], c)
    ensures AccountedBy(Apply(s, a), t, c)
  {
  }

  lemma {:induction false} SpawnedIsHeld(s: State, a: Action, c: Child)
    requires Enabled(s, a) && c in Apply(s, a).alive && c !in s.alive
    ensures a.Spawn? && AccountedBy(Apply(s, a), a.t, c)
  {
  }

  lemma {:induction false} OrphansStay(s: State, a: Action, c: Child)
    requires Enabled(s, a) && c in s.orphans
    ensures c in Apply(s, a).orphans
  {
  }

  lemma {:induction false} StaysAccounted(s: State, a: Action, c: Child)
    requires Inv(s) && Enabled(s, a) && c in Apply(s, a).alive && (c in s.alive ==> Accounted(s, c))
    ensures Accounted(Apply(s, a), c)
  {
    hide Inv, Apply, Enabled, HeldBy;
    if c !in s.alive {
      SpawnedIsHeld(s, a, c);
    } else if s.core.child == Some(c) {
      InstalledStays(s, a, c);
    } else if c in s.orphans {
      OrphansStay(s, a, c);
    } else {
      var t :| t in s.threads && HeldBy(s.threads[t], c);
      HeldStays(s, a, t, c);
    }
  }

  lemma {:induction false} RunsAccount(s: State, actions: seq<Action>, end: State, c: Child)
    requires Inv(s) && Reaches(s, actions, end) && (c in s.alive ==> Accounted(s, c)) && c in end.alive
    ensures Accounted(end, c)
    decreases |actions|
  {
    hide Inv, Enabled, Apply, Accounted;
    if actions != [] {
      ActionKeepsInv(s, actions[0]);
      var next := Apply(s, actions[0]);
      if c in next.alive {
        StaysAccounted(s, actions[0], c);
      }
      RunsAccount(next, actions[1..], end, c);
    }
  }

  /** After a shutdown, a process is still alive only if stopping it failed, or a thread has yet to stop it:
      one whose startup failed, or the shutdown's own. */
  lemma {:induction false} SurvivorsOfShutdown(s: State, actions: seq<Action>, end: State, c: Child)
    requires Initial(s) && Reaches(s, actions, end) && end.finished && c in end.alive
    ensures || c in end.orphans
            || exists t :: t in end.threads && (end.threads[t] == Failing(Some(c)) || end.threads[t] == Closing(Some(c)))
  {
    RunsKeepInv(s, actions, end);
    RunsAccount(s, actions, end, c);
    if c !in end.orphans {
      var t :| t in end.threads && HeldBy(end.threads[t], c);
      PositionOk(end, t);
      assert end.threads[t] == Failing(Some(c)) || end.threads[t] == Closing(Some(c));
    }
  }

  /** A live process that no shutdown will stop any more: its termination failed, or its failed start still has it. */
  ghost predicate LeftBehind(s: State, c: Child) {
    c in s.alive && (c in s.orphans || exists t :: t in s.threads && s.threads[t] == Failing(Some(c)))
  }

  /** Once every shutdown that got past its wait has also returned, something is alive exactly if it was left behind. */
  lemma {:induction false} ReturnedShutdownLeaves(s: State, actions: seq<Action>, end: State)
    requires Initial(s) && Reaches(s, actions, end) && end.finished
    requires forall t | t in end.threads :: !end.threads[t].Closing?
    ensures end.alive != {} <==> exists c :: LeftBehind(end, c)
  {
    if end.alive != {} {
      var c :| c in end.alive;
      SurvivorsOfShutdown(s, actions, end, c);
      assert LeftBehind(end, c);
    }
    if c :| LeftBehind(end, c) {
      assert c in end.alive;
    }
  }

  /** No startup fails and every termination works. */
  predicate Smooth(a: Action) {
    match a
    case StartEnds(_, ok) => ok
    case StopFailed(_, works) => works
    case StopReaped(_, works) => works
    case StopLast(_, works) => works
    case _ => true
  }

  ghost predicate NothingFailed(s: State) {
    s.orphans == {} && forall t | t in s.threads :: !s.threads[t].Failing?
  }

  lemma {:induction false} SmoothRunsLeaveNothing(s: State, actions: seq<Action>, end: State)
    requires Reaches(s, actions, end) && NothingFailed(s) && forall i | 0 <= i < |actions| :: Smooth(actions[i])
    ensures NothingFailed(end)
    decreases |actions|
  {
    hide Enabled;
    if actions != [] {
      assert Smooth(actions[0]);
      SmoothStep(s, actions[0]);
      SmoothRunsLeaveNothing(Apply(s, actions[0]), actions[1..], end);
    }
  }

  lemma SmoothStep(s: State, a: Action)
    requires Enabled(s, a) && NothingFailed(s) && Smooth(a)
    ensures NothingFailed(Apply(s, a))
  {
  }

  /** Without a failed startup or a failed termination nothing outlives a returned shutdown. */
  lemma {:induction false} NothingOutlivesShutdown(s: State, actions: seq<Action>, end: State)
    requires Initial(s) && Reaches(s, actions, end) && end.finished
    requires forall i | 0 <= i < |actions| :: Smooth(actions[i])
    requires forall t | t in end.threads :: !end.threads[t].Closing?
    ensures end.alive == {}
  {
    SmoothRunsLeaveNothing(s, actions, end);
    ReturnedShutdownLeaves(s, actions, end);
  }

  lemma {:induction false} OneMore(s: State, actions: seq<Action>, mid: State, a: Action)
    requires Reaches(s, actions, mid) && Enabled(mid, a)
    ensures Reaches(s, actions + [a], Apply(mid, a))
    decreases |actions|
  {
    hide Apply, Enabled;
    if actions == [] {
      assert ([] + [a])[1..] == [] && Reaches(Apply(s, a), [], Apply(mid, a));
    } else {
      assert (actions + [a])[1..] == actions[1..] + [a];
      OneMore(Apply(s, actions[0]), actions[1..], mid, a);
    }
  }

  const NEW := State(Core(None, false, false, 0, 0.0, false, false), 0.0,
    map[], {}, 0, {}, 0, 0, [], {}, false)
  const CALLED := State(Core(None, false, false, 0, 0.0, false, false), 0.0,
    map[1 := Beginning], {}, 0, {}, 0, 0, [], {}, false)
  const STARTER := State(Core(None, true, false, 0, 0.0, false, false), 0.0,
    map[1 := Thread.Starting(None)], {}, 0, {}, 1, 0, [], {}, false)
  const SPAWNED := State(Core(None, true, false, 0, 0.0, false, false), 0.0,
    map[1 := Thread.Starting(Some(0))], {0}, 1, {}, 1, 0, [], {}, false)
  const SERVED := State(Core(Some(0), false, false, 1, 0.0, false, false), 0.0,
    map[1 := Serving], {0}, 1, {1}, 1, 0, [], {}, false)
  const CRASHED := State(Core(Some(0), false, false, 1, 0.0, false, false), 0.0,
    map[1 := Serving], {}, 1, {1}, 1, 0, [], {}, false)
  const SECOND := State(Core(Some(0), false, false, 1, 0.0, false, false), 0.0,
    map[1 := Serving, 2 := Beginning], {}, 1, {1}, 1, 0, [], {}, false)
  const DROPPED := State(Core(None, true, false, 1, 0.0, false, false), 0.0,
    map[1 := Serving, 2 := Thread.Starting(None)], {}, 1, {1}, 2, 0, [], {}, false)
  const FAILED := State(Core(None, false, false, 0, 0.0, false, false), 0.0,
    map[1 := Failing(Some(0))], {0}, 1, {}, 1, 0, [], {}, false)
  const CLOSING := State(Core(None, false, false, 0, 0.0, true, true), 0.0,
    map[1 := Failing(Some(0)), 2 := ShuttingDown], {0}, 1, {}, 1, 0, [], {}, false)
  const SHUT := State(Core(None, false, false, 0, 0.0, true, true), 0.0,
    map[1 := Failing(Some(0)), 2 := Closing(None)], {0}, 1, {}, 1, 0, [], {}, true)
  const RETURNED := State(Core(None, false, false, 0, 0.0, true, true), 0.0,
    map[1 := Failing(Some(0)), 2 := Idle], {0}, 1, {}, 1, 0, [], {}, true)

  lemma ToCalled()
    ensures Enabled(NEW, Call(1)) && Apply(NEW, Call(1)) == CALLED
  {
  }

  lemma ToStarter()
    ensures Enabled(CALLED, TryBegin(1)) && Apply(CALLED, TryBegin(1)) == STARTER
  {
  }

  lemma ToSpawned()
    ensures Enabled(STARTER, Spawn(1)) && Apply(STARTER, Spawn(1)) == SPAWNED
  {
  }

  lemma ToServed()
    ensures Enabled(SPAWNED, StartEnds(1, true)) && Apply(SPAWNED, StartEnds(1, true)) == SERVED
  {
  }

  lemma ToCrashed()
    ensures Enabled(SERVED, Exits(0)) && Apply(SERVED, Exits(0)) == CRASHED
  {
  }

  lemma ToSecond()
    ensures Enabled(CRASHED, Call(2)) && Apply(CRASHED, Call(2)) == SECOND
  {
  }

  lemma ToDropped()
    ensures Enabled(SECOND, TryBegin(2)) && Apply(SECOND, TryBegin(2)) == DROPPED
  {
  }

  lemma ToFailed()
    ensures Enabled(SPAWNED, StartEnds(1, false)) && Apply(SPAWNED, StartEnds(1, false)) == FAILED
  {
  }

  lemma ToClosing()
    ensures Enabled(FAILED, Shutdown(2)) && Apply(FAILED, Shutdown(2)) == CLOSING
  {
  }

  lemma ToShut()
    ensures Enabled(CLOSING, ShutdownEnds(2)) && Apply(CLOSING, ShutdownEnds(2)) == SHUT
  {
  }

  lemma ToReturned()
    ensures Enabled(SHUT, StopLast(2, true)) && Apply(SHUT, StopLast(2, true)) == RETURNED
  {
  }

  /** A second start begins while the first child's request is still unfinished: the crashed child was dropped. */
  lemma {:induction false} CrashedChildIsDropped() returns (actions: seq<Action>)
    ensures Initial(NEW) && Reaches(NEW, actions, DROPPED)
    ensures DROPPED.core.active == 1 && DROPPED.core.child.None? && DROPPED.core.starting && ThreadOf(DROPPED, 1).Serving?
  {
    hide Apply, Enabled;
    actions := [];
    ToCalled();
    OneMore(NEW, actions, NEW, Call(1));
    actions := actions + [Call(1)];
    ToStarter();
    OneMore(NEW, actions, CALLED, TryBegin(1));
    actions := actions + [TryBegin(1)];
    ToSpawned();
    OneMore(NEW, actions, STARTER, Spawn(1));
    actions := actions + [Spawn(1)];
    ToServed();
    OneMore(NEW, actions, SPAWNED, StartEnds(1, true));
    actions := actions + [StartEnds(1, true)];
    ToCrashed();
    OneMore(NEW, actions, SERVED, Exits(0));
    actions := actions + [Exits(0)];
    ToSecond();
    OneMore(NEW, actions, CRASHED, Call(2));
    actions := actions + [Call(2)];
    ToDropped();
    OneMore(NEW, actions, SECOND, TryBegin(2));
    actions := actions + [TryBegin(2)];
  }

  /** Shutdown has returned while the process of a failed startup is still alive, awaiting its termination. */
  lemma {:induction false} FailedChildOutlivesShutdown() returns (actions: seq<Action>)
    ensures Initial(NEW) && Reaches(NEW, actions, RETURNED)
    ensures RETURNED.finished && ThreadOf(RETURNED, 2).Idle? && 0 in RETURNED.alive && ThreadOf(RETURNED, 1) == Failing(Some(0))
  {
    hide Apply, Enabled;
    actions := [];
    ToCalled();
    OneMore(NEW, actions, NEW, Call(1));
    actions := actions + [Call(1)];
    ToStarter();
    OneMore(NEW, actions, CALLED, TryBegin(1));
    actions := actions + [TryBegin(1)];
    ToSpawned();
    OneMore(NEW, actions, STARTER, Spawn(1));
    actions := actions + [Spawn(1)];
    ToFailed();
    OneMore(NEW, actions, SPAWNED, StartEnds(1, false));
    actions := actions + [StartEnds(1, false)];
    ToClosing();
    OneMore(NEW, actions, FAILED, Shutdown(2));
    actions := actions + [Shutdown(2)];
    ToShut();
    OneMore(NEW, actions, CLOSING, ShutdownEnds(2));
    actions := actions + [ShutdownEnds(2)];
    ToReturned();
    OneMore(NEW, actions, SHUT, StopLast(2, true));
    actions := actions + [StopLast(2, true)];
  }

  // ---- What does happen ----

  lemma TwoSteps(s: State, a: Action, b: Action)
    requires Enabled(s, a) && Enabled(Apply(s, a), b)
    ensures Reaches(s, [a, b], Apply(Apply(s, a), b))
  {
    hide Apply, Enabled;
    assert [a, b][1..] == [b] && [b][1..] == [];
    assert Reaches(Apply(Apply(s, a), b), [], Apply(Apply(s, a), b));
    assert Reaches(Apply(s, a), [b], Apply(Apply(s, a), b));
  }

  /** A quiet child idle for long enough is stopped by two sections of the reaper, which leave nobody blocked. */
  lemma {:induction false} IdleChildIsReaped(s: State, t: Tid, idleSeconds: real) returns (end: State)
    requires s.core.child.Some? && s.core.active == 0 && !s.core.starting && !s.core.stopping
    requires s.core.lastCompleted + idleSeconds <= s.now && ThreadOf(s, t).Idle?
    ensures Reaches(s, [Reap(t, idleSeconds), StopReaped(t, true)], end)
    ensures end.core == s.core.(child := None) && s.core.child.value !in end.alive && end.alive <= s.alive
    ensures forall u | u in end.threads :: !end.threads[u].Waiting?
    ensures s.core.child.value in s.alive ==> end.kills == s.kills + [Kill(s.core.child.value, false, 0)]
  {
    hide Reaches;
    var marked := Apply(s, Reap(t, idleSeconds));
    assert ThreadOf(marked, t) == Reaping(s.core.child.value) && marked.core == s.core.(stopping := true);
    end := Apply(marked, StopReaped(t, true));
    TwoSteps(s, Reap(t, idleSeconds), StopReaped(t, true));
  }

  /** A request to an open proxy whose child is alive is served at once and counted until its end. */
  lemma {:induction false} LiveChildServes(s: State, t: Tid) returns (end: State)
    requires s.core.child.Some? && s.core.child.value in s.alive && !s.core.closed && !s.core.stopping
    requires ThreadOf(s, t).Idle?
    ensures Reaches(s, [Call(t), TryBegin(t)], end)
    ensures ThreadOf(end, t).Serving? && end.core == s.core.(active := s.core.active + 1)
    ensures Enabled(end, End(t))
    ensures var done := Apply(end, End(t));
            ThreadOf(done, t).Idle? && done.core == s.core.(lastCompleted := s.now)
            && forall u | u in done.threads :: !done.threads[u].Waiting?
  {
    hide Reaches;
    var called := Apply(s, Call(t));
    end := Apply(called, TryBegin(t));
    TwoSteps(s, Call(t), TryBegin(t));
  }

  /** A failed startup's process is terminated by its thread's next section. */
  lemma FailedChildIsStopped(s: State, t: Tid)
    requires ThreadOf(s, t).Failing? && ThreadOf(s, t).child.Some?
    ensures var c, end := ThreadOf(s, t).child.value, Apply(s, StopFailed(t, true));
            ThreadOf(end, t).Idle? && end.alive == s.alive - {c} && end.core == s.core
  {
  }
}
