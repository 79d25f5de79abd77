/** Which states a process can no longer leave, and how often it is tried. */
module LifecycleRuns {
  import opened Basics
  import opened Machines
  import opened Lifecycle
  import opened LifecycleSafety

  /** waitForStopped in internal/process/manager.go ends in one of these states. */
  predicate Terminal(s: State) {
    s == Stopped || s == Exited || s == Fatal
  }

  /** No explicit start among the events. */
  predicate StartFree(es: seq<Event>) {
    forall i :: 0 <= i < |es| ==> !es[i].Start?
  }

  // ---------------------------------------------------------------------
  // The state chart, event by event
  // ---------------------------------------------------------------------

  /** Where an attempt to spawn can leave a process. */
  predicate AfterAttempt(s: State) {
    s == Starting || s == Running || s == Backoff || s == Fatal
  }

  /** Everything event `e` can do to the state: this is the whole chart, conditions included. */
  predicate Move(s: Sys, e: Event, to: State) {
    var retry := e.Fire? && e.t.Retry?;
    var restart := e.Fire? && e.t.Restarting?;
    var watch := (e.Fire? || e.Begin?) && e.t.StartWatch?;
    to == s.p.m.state ||
    match s.p.m.state
    case Stopped | Fatal => e.Start? && !s.p.retired && AfterAttempt(to)
    case Exited => (e.Start? || restart) && !s.p.retired && AfterAttempt(to)
    case Stopping => e.Exit? && to == Stopped
    case Running => (e.Stop? && to == Stopping) || (e.Exit? && to == Exited)
    case Backoff =>
      || (to == Stopped && (e.Stop? || (retry && s.shutdown)))
      || (retry && !s.shutdown && !s.p.retired && AfterAttempt(to))
    case Starting =>
      || (to == Stopping && e.Stop?)
      || (to == Running && (watch || (e.Exit? && e.race.Promotion?)))
      || (to == Fatal && e.Exit?)
      || (to == Backoff && e.Exit? && !s.shutdown)
      || (to == Stopped && e.Exit? && s.shutdown)
  }

  lemma {:induction false} SpawnMoves(p: Proc, now: int, out: Spawn, race: Race)
    requires p.m.state == Starting
    ensures AfterAttempt(SpawnLocked(p, now, out, race).p.m.state)
  {}

  lemma {:induction false} EffectMoves(s: Sys, e: Event)
    requires Enabled(s, e)
    ensures Move(s, e, Effect(s, e).p.m.state)
  {
    hide Enabled, Move, Effect;
    match e
    case Start(_, _) => StartMoves(s, e);
    case Exit(_, _, _) => ExitMoves(s, e);
    case Fire(_, _, _) => FireMoves(s, e);
    case _ => OtherMoves(s, e);
  }

  lemma {:induction false} StartMoves(s: Sys, e: Event)
    requires e.Start? && Enabled(s, e)
    ensures Move(s, e, Effect(s, e).p.m.state)
  {
    hide SpawnLocked, Ends;
    if Startable(s.p) { SpawnMoves(s.p.(m := RequestStart(s.p.m, s.now).0), s.now, e.out, e.race); }
  }

  lemma {:induction false} ExitMoves(s: Sys, e: Event)
    requires e.Exit? && Enabled(s, e)
    ensures Move(s, e, Effect(s, e).p.m.state)
  {
    hide Ends;
  }

  lemma {:induction false} FireMoves(s: Sys, e: Event)
    requires e.Fire? && Enabled(s, e)
    ensures Move(s, e, Effect(s, e).p.m.state)
  {
    hide SpawnLocked, Ends;
    if s.p.m.state == Backoff {
      SpawnMoves(s.p.(m := RetryFromBackoff(s.p.m, s.now).0), s.now, e.out, e.race);
    } else if Startable(s.p) {
      SpawnMoves(s.p.(m := RequestStart(s.p.m, s.now).0), s.now, e.out, e.race);
    }
  }

  lemma {:induction false} OtherMoves(s: Sys, e: Event)
    requires !e.Start? && !e.Exit? && !e.Fire? && Enabled(s, e)
    ensures Move(s, e, Effect(s, e).p.m.state)
  {
    hide Ends;
  }

  lemma {:induction false} StepMoves(s: Sys, e: Event)
    ensures Move(s, e, Step(s, e).p.m.state)
    ensures Step(s, e).p.retired == (s.p.retired || (e.Retire? && !Locked(s)))
    ensures !e.Update? ==> Step(s, e).p.cfg == s.p.cfg
    ensures Step(s, e).shutdown == (s.shutdown || e.BeginShutdown?)
  {
    hide Effect, Ends;
    if (e.Retire? && !Locked(s)) || e.BeginShutdown? { assert Enabled(s, e) by { EndsOfNoTimer(e, s.pending); } }
    if Enabled(s, e) {
      EffectMoves(s, e);
      EffectFrame(s, e);
    }
  }

  lemma EndsOfNoTimer(e: Event, pending: multiset<Timer>)
    requires e.Retire? || e.BeginShutdown?
    ensures Ends(e) <= pending
  {}

  lemma {:induction false} EffectFrame(s: Sys, e: Event)
    requires Enabled(s, e)
    ensures Effect(s, e).p.retired == (s.p.retired || e.Retire?)
    ensures Effect(s, e).p.cfg == if e.Update? then e.cfg else s.p.cfg
  {
    hide Ends, RequestStart, RetryFromBackoff, SetLimits, ProcessStarted, SpawnLocked, StopLocked, ExitSwitch;
    match e
    case Start(out, race) => SpawnFrame(s.p.(m := RequestStart(s.p.m, s.now).0), s.now, out, race);
    case Stop => StopFrame(s.p, s.now);
    case Exit(_, code, race) => ExitFrame(s.p, s.now, code, s.shutdown, race);
    case Fire(t, out, race) =>
      StopFrame(s.p, s.now);
      SpawnFrame(s.p.(m := RequestStart(s.p.m, s.now).0), s.now, out, race);
      SpawnFrame(s.p.(m := RetryFromBackoff(s.p.m, s.now).0), s.now, out, race);
    case _ =>
  }

  predicate SameFrame(p: Proc, q: Proc) {
    q.retired == p.retired && q.cfg == p.cfg
  }

  lemma {:induction false} SpawnFrame(p: Proc, now: int, out: Spawn, race: Race)
    ensures SameFrame(p, SpawnLocked(p, now, out, race).p)
  {
    hide ProcessStarted, ProcessExitedEarly;
  }

  lemma {:induction false} StopFrame(p: Proc, now: int)
    ensures SameFrame(p, StopLocked(p, now).p)
  {
    hide Transition, RequestStop;
  }

  lemma {:induction false} ExitFrame(p: Proc, now: int, code: int, shutdown: bool, race: Race)
    ensures SameFrame(p, ExitSwitch(p, now, code, shutdown, race).p)
  {
    hide ProcessStarted, ProcessExitedEarly, ProcessExited, ShouldRestart, StopLocked;
    if p.m.state == Starting {
      var q := Promote(p, now, race);
      StopFrame(q.(m := ProcessExitedEarly(q.m, Later(now, race)).0), Later(now, race));
    }
  }

  lemma {:induction false} TimeGoesOn(s: Sys, e: Event)
    ensures s.now <= Step(s, e).now
    ensures s.shutdown ==> Step(s, e).shutdown
  {
    hide Effect, Enabled, Ends, Launched, RaceOf;
  }

  lemma {:induction false} RunConcat(s: Sys, a: seq<Event>, b: seq<Event>)
    ensures Run(s, a + b) == Run(Run(s, a), b)
    decreases |a|
  {
    hide Step;
    if a == [] {
      assert a + b == b;
    } else {
      assert (a + b)[1..] == a[1..] + b;
      RunConcat(Step(s, a[0]), a[1..], b);
    }
  }

  lemma {:induction false} RunOne(s: Sys, e: Event)
    ensures Run(s, [e]) == Step(s, e)
  {
    hide Step;
    assert [e][1..] == [];
  }

  // ---------------------------------------------------------------------
  // Single steps outside any race
  // ---------------------------------------------------------------------

  /** An event that ends no goroutine adds to the pending ones what it launches. */
  lemma {:induction false} TimerlessStep(s: Sys, e: Event)
    requires !e.Begin? && !e.Fire? && !e.Cancel? && RaceOf(e).NoRace?
    requires NeedsLock(e) ==> !Locked(s)
    requires e.Exit? ==> s.p.child == Some(e.pid)
    ensures Enabled(s, e)
    ensures Step(s, e) == Sys(Effect(s, e).p, s.pending + Launched(Effect(s, e).launched),
                              if e.Tick? then s.now + e.d else s.now, s.shutdown || e.BeginShutdown?)
  {
    hide Effect, Launched;
    assert s.pending - multiset{} == s.pending;
  }

  /** Firing a timer that is up, outside any race. */
  lemma {:induction false} FireStep(s: Sys, t: Timer, out: Spawn)
    requires t in s.pending && Due(t, s.now) && !t.Restarting?
    ensures Enabled(s, Fire(t, out, NoRace))
    ensures var after := Fired(s.p, t, s.now, out, NoRace, s.shutdown);
      Step(s, Fire(t, out, NoRace)) ==
        Sys(after.p, s.pending - multiset{t} + Launched(after.launched), s.now, s.shutdown)
  {
    hide Fired, Launched;
  }

  /** A watcher or a retry begins. */
  lemma {:induction false} BeginStep(s: Sys, t: Timer)
    requires t in s.pending && !t.Restart? && !t.Restarting? && t.due.None?
    ensures var after := Begun(s.p, t, s.now, s.shutdown);
      Step(s, Begin(t)) == Sys(after.p, s.pending - multiset{t} + Launched(after.launched), s.now, s.shutdown)
  {
    hide Begun, Launched, StartLocked, StopLocked, HandleExit, Fired, UpdateConfig;
    assert Enabled(s, Begin(t));
  }

  /** A goroutine whose channel is closed ends. */
  lemma {:induction false} CancelStep(s: Sys, t: Timer)
    requires t in s.pending && !t.Restart? && !t.Restarting? && t.due.Some? && t.ch in s.p.closed
    ensures Step(s, Cancel(t)) == s.(pending := s.pending - multiset{t})
  {
    hide StartLocked, StopLocked, HandleExit, Fired, Begun, UpdateConfig;
    assert Enabled(s, Cancel(t));
    assert s.pending - multiset{t} + multiset{} == s.pending - multiset{t};
  }

  // ---------------------------------------------------------------------
  // The pending goroutines, step by step
  // ---------------------------------------------------------------------

  /** The goroutines an event does not end are still there after it. */
  lemma {:induction false} SurvivesStep(s: Sys, e: Event, t: Timer)
    requires t in s.pending && Enabled(s, e)
    requires e != Begin(t) && !(e.Fire? && e.t == t) && e != Cancel(t)
    requires RaceOf(e).Promotion? ==> RaceOf(e).watcher != t
    ensures t in Step(s, e).pending
  {
    hide Effect, Launched;
    assert t !in Ends(e);
  }

  lemma {:induction false} LaunchedIsPending(s: Sys, e: Event)
    requires Enabled(s, e)
    ensures Effect(s, e).launched.Some? ==> Effect(s, e).launched.value in Step(s, e).pending
  {
    hide Effect, Ends;
  }

  // ---------------------------------------------------------------------
  // Retirement
  // ---------------------------------------------------------------------

  lemma {:induction false} RetiredStep(s: Sys, e: Event)
    requires s.p.retired
    ensures Step(s, e).p.retired
    ensures !AlreadyUp(s.p.m.state) ==> !AlreadyUp(Step(s, e).p.m.state)
    ensures Terminal(s.p.m.state) ==> Step(s, e).p.m.state == s.p.m.state
  {
    hide Step;
    StepMoves(s, e);
  }

  lemma {:induction false} RetiredRun(s: Sys, es: seq<Event>)
    requires s.p.retired
    ensures Run(s, es).p.retired
    ensures !AlreadyUp(s.p.m.state) ==> !AlreadyUp(Run(s, es).p.m.state)
    ensures Terminal(s.p.m.state) ==> Run(s, es).p.m.state == s.p.m.state
    decreases es
  {
    hide Step;
    if es != [] {
      RetiredStep(s, es[0]);
      RetiredRun(Step(s, es[0]), es[1..]);
    }
  }

  /**
    What a reload may rely on. From any state a run can reach: the process is
    retired, anything happens (`es1`), the reload looks at the state and, if
    that calls for it, stops the process after still more has happened
    (`es2`). Whatever follows (`es3`), the process is never up again; and from
    the moment it is seen STOPPED, EXITED or FATAL it stays so, without a
    child, for good (`es4`), explicit starts included.
   */
  lemma RetirementIsFinal(s: Sys, es1: seq<Event>, es2: seq<Event>, es3: seq<Event>, es4: seq<Event>)
    requires Inv(s.p) && Consistent(s.p.m) && !Locked(s)
    ensures var seen := Run(Step(s, Retire), es1);
      var passed := if AlreadyUp(seen.p.m.state) then Step(Run(seen, es2), Stop) else seen;
      var later := Run(passed, es3);
      && !AlreadyUp(later.p.m.state)
      && (Terminal(later.p.m.state) ==>
            var last := Run(later, es4).p;
            last.m.state == later.p.m.state && last.child.None?)
  {
    hide Step, Run, Inv, Consistent;
    var retired := Step(s, Retire);
    StepMoves(s, Retire);
    StepKeeps(s, Retire);
    var seen := Run(retired, es1);
    RetiredRun(retired, es1);
    RunKeeps(retired, es1);
    var before := Run(seen, es2);
    RetiredRun(seen, es2);
    RunKeeps(seen, es2);
    StopTakesDown(before);
    RetiredStep(before, Stop);
    StepKeeps(before, Stop);
    var passed := if AlreadyUp(seen.p.m.state) then Step(before, Stop) else seen;
    var later := Run(passed, es3);
    RetiredRun(passed, es3);
    RunKeeps(passed, es3);
    RetiredRun(later, es4);
    RunKeeps(later, es4);
    if Terminal(later.p.m.state) { ChildlessWhenTerminal(Run(later, es4).p); }
  }

  lemma ChildlessWhenTerminal(p: Proc)
    requires Inv(p) && Terminal(p.m.state)
    ensures p.child.None?
  {}

  /** A stop leaves no process up, whether it accepts the request or refuses it. */
  lemma {:induction false} StopTakesDown(s: Sys)
    ensures !AlreadyUp(Step(s, Stop).p.m.state)
    ensures StopAccepted(s.p) ==> Step(s, Stop).p.m.state == Stopping || Step(s, Stop).p.m.state == Stopped
  {
    assert Locked(s) || Enabled(s, Stop);
  }

  // ---------------------------------------------------------------------
  // Stop and shutdown
  // ---------------------------------------------------------------------

  /** STOPPING and STOPPED are left only by an explicit start, and FATAL likewise. */
  lemma {:induction false} HaltedRun(s: Sys, es: seq<Event>)
    requires StartFree(es)
    ensures s.p.m.state == Stopped ==> Run(s, es).p.m.state == Stopped
    ensures s.p.m.state == Fatal ==> Run(s, es).p.m.state == Fatal
    ensures s.p.m.state == Stopping ==> Run(s, es).p.m.state == Stopping || Run(s, es).p.m.state == Stopped
    decreases es
  {
    hide Step;
    if es != [] {
      StepMoves(s, es[0]);
      HaltedRun(Step(s, es[0]), es[1..]);
    }
  }

  /** After a Stop that returned no error nothing but an explicit start brings the process back. */
  lemma StopIsRespected(s: Sys, es: seq<Event>)
    requires StopAccepted(s.p)
    requires StartFree(es)
    ensures var last := Run(Step(s, Stop), es).p.m.state; last == Stopping || last == Stopped
  {
    hide Step, Run;
    StopTakesDown(s);
    HaltedRun(Step(s, Stop), es);
  }

  /** No autorestart is between its checks and its start. */
  predicate NoneRestarting(s: Sys) {
    Restarting !in s.pending
  }

  lemma {:induction false} ShutdownStep(s: Sys, e: Event)
    requires s.shutdown && NoneRestarting(s) && !e.Start?
    ensures Step(s, e).shutdown && NoneRestarting(Step(s, e))
    ensures !AlreadyUp(s.p.m.state) ==> !AlreadyUp(Step(s, e).p.m.state)
  {
    hide Effect, Ends;
    StepMoves(s, e);
    if Enabled(s, e) {
      if Effect(s, e).launched == Some(Restarting) { OnlyChecksLaunchRestarting(s, e); }
      if e.Fire? && e.t.Restarting? { EndsRestarting(e); }
    }
  }

  lemma {:induction false} ShutdownRun(s: Sys, es: seq<Event>)
    requires s.shutdown && NoneRestarting(s) && StartFree(es)
    ensures Run(s, es).shutdown && NoneRestarting(Run(s, es))
    ensures !AlreadyUp(s.p.m.state) ==> !AlreadyUp(Run(s, es).p.m.state)
    decreases es
  {
    hide Step, NoneRestarting;
    if es != [] {
      ShutdownStep(s, es[0]);
      ShutdownRun(Step(s, es[0]), es[1..]);
    }
  }

  /** StopAll has closed the shutdown channel, looked at the process and, if that called for it, stopped it. */
  function PassedByStopAll(s: Sys, es1: seq<Event>, es2: seq<Event>): Sys {
    var seen := Run(Step(s, BeginShutdown), es1);
    if AlreadyUp(seen.p.m.state) then Step(Run(seen, es2), Stop) else seen
  }

  /** Then no pending retry or autorestart brings it back: only an explicit start could. */
  ghost predicate StopAllIsFinal(s: Sys) {
    forall es1, es2, es3 :: StartFree(es1) && StartFree(es2) && StartFree(es3) ==>
      !AlreadyUp(Run(PassedByStopAll(s, es1, es2), es3).p.m.state)
  }

  /**
    A shutdown is final for a process exactly if none of its autorestarts is
    past its check of the shutdown channel when that is closed: such a one
    starts the process after StopAll has seen it EXITED and passed on.
    (A retired process it cannot start.)
   */
  lemma {:induction false} ShutdownIsFinalIff(s: Sys)
    requires Inv(s.p) && LockOk(s)
    ensures StopAllIsFinal(s) <==> NoneRestarting(s) || s.p.retired
  {
    hide Step, Run, Inv;
    if NoneRestarting(s) {
      forall es1, es2, es3 | StartFree(es1) && StartFree(es2) && StartFree(es3)
        ensures !AlreadyUp(Run(PassedByStopAll(s, es1, es2), es3).p.m.state)
      {
        ShutdownIsFinal(s, es1, es2, es3);
      }
    } else if s.p.retired {
      forall es1, es2, es3 | StartFree(es1) && StartFree(es2) && StartFree(es3)
        ensures !AlreadyUp(Run(PassedByStopAll(s, es1, es2), es3).p.m.state)
      {
        RetiredStep(s, BeginShutdown);
        RetiredRun(Step(s, BeginShutdown), es1);
        RetiredRun(Run(Step(s, BeginShutdown), es1), es3);
      }
    } else {
      OvertakenAutorestart(s);
    }
  }

  /** Without such an autorestart the shutdown is final. */
  lemma ShutdownIsFinal(s: Sys, es1: seq<Event>, es2: seq<Event>, es3: seq<Event>)
    requires StartFree(es1) && StartFree(es2) && StartFree(es3)
    requires NoneRestarting(s)
    ensures !AlreadyUp(Run(PassedByStopAll(s, es1, es2), es3).p.m.state)
  {
    hide Step, Run;
    var closed := Step(s, BeginShutdown);
    ShutdownBegins(s);
    var seen := Run(closed, es1);
    ShutdownRun(closed, es1);
    var before := Run(seen, es2);
    ShutdownRun(seen, es2);
    ShutdownStep(before, Stop);
    StopTakesDown(before);
    ShutdownRun(PassedByStopAll(s, es1, es2), es3);
  }

  lemma {:induction false} ShutdownBegins(s: Sys)
    ensures Step(s, BeginShutdown) == s.(shutdown := true)
  {
    hide StartLocked, StopLocked, HandleExit, Fired, Begun, UpdateConfig;
    assert Enabled(s, BeginShutdown);
    assert s.pending - multiset{} + multiset{} == s.pending;
  }

  /** With one, the process can be up after StopAll has passed it, without an explicit start. */
  lemma {:induction false} OvertakenAutorestart(s: Sys)
    requires Inv(s.p) && LockOk(s) && !NoneRestarting(s) && !s.p.retired
    ensures var restart := Fire(Restarting, Child(1), NoRace);
      && PassedByStopAll(s, [], []) == s.(shutdown := true)
      && StartFree([]) && StartFree([restart])
      && AlreadyUp(Run(PassedByStopAll(s, [], []), [restart]).p.m.state)
  {
    hide Step, Inv;
    ShutdownBegins(s);
    var seen := s.(shutdown := true);
    var restart := Fire(Restarting, Child(1), NoRace);
    GoesOn(seen, Child(1));
    ChildMeansUp(seen.p, seen.now, 1);
    assert [restart][1..] == [];
    assert Run(seen, [restart]) == Step(seen, restart);
  }

  /**
    An explicit start is not held back by the shutdown: whoever has read the
    channel before StopAll closed it, and does not look again, starts a process
    StopAll has passed.
   */
  lemma {:induction false} OvertakenStart(s: Sys)
    requires Startable(s.p) && NoneRestarting(s)
    ensures var start := Start(Child(1), NoRace);
      && PassedByStopAll(s, [], []) == s.(shutdown := true)
      && AlreadyUp(Run(PassedByStopAll(s, [], []), [start]).p.m.state)
  {
    hide Step, StartLocked;
    ShutdownBegins(s);
    var seen := s.(shutdown := true);
    TimerlessStep(seen, Start(Child(1), NoRace));
    ChildMeansUp(seen.p, seen.now, 1);
    RunOne(seen, Start(Child(1), NoRace));
  }

  lemma {:induction false} ChildMeansUp(p: Proc, now: int, pid: int)
    requires Startable(p)
    ensures AlreadyUp(StartLocked(p, now, Child(pid), NoRace).p.m.state)
  {}

  // ---------------------------------------------------------------------
  // RUNNING without a child
  // ---------------------------------------------------------------------

  /** A process that claims to be up although it has no child. */
  predicate Phantom(p: Proc) {
    Active(p.m.state) && p.child.None?
  }

  /**
    The interleavings that create a phantom: a start watcher promotes the
    attempt to RUNNING inside the critical section that is about to record its
    failure, because the child has exited or could not be spawned.
   */
  predicate LosingRace(s: Sys, e: Event) {
    && Enabled(s, e)
    && RaceOf(e).Promotion?
    && match e
       case Exit(_, _, race) => s.now + race.after - s.p.m.startedAt >= Seconds(s.p.cfg.sup.startsecs)
       case Start(out, race) => out.Failure? && race.after >= Seconds(s.p.cfg.sup.startsecs)
       case Fire(_, out, race) => out.Failure? && race.after >= Seconds(s.p.cfg.sup.startsecs)
  }

  /** A phantom is created by a losing race and by nothing else. */
  lemma {:induction false} PhantomIff(s: Sys, e: Event)
    requires Inv(s.p)
    ensures Phantom(Step(s, e).p) <==> Phantom(s.p) || LosingRace(s, e)
  {
    hide Effect, Phantom, Inv;
    if Enabled(s, e) {
      if e.Exit? { PhantomExit(s, e); } else if e.Fire? { PhantomFire(s, e); } else { PhantomOther(s, e); }
    }
  }

  lemma {:induction false} PhantomExit(s: Sys, e: Event)
    requires Inv(s.p) && e.Exit? && Enabled(s, e)
    ensures Phantom(Effect(s, e).p) <==> Phantom(s.p) || LosingRace(s, e)
  {
    hide Ends;
  }

  lemma {:induction false} PhantomFire(s: Sys, e: Event)
    requires Inv(s.p) && e.Fire? && Enabled(s, e)
    ensures Phantom(Effect(s, e).p) <==> Phantom(s.p) || LosingRace(s, e)
  {
    hide Ends;
  }

  lemma {:induction false} PhantomOther(s: Sys, e: Event)
    requires Inv(s.p) && !e.Exit? && !e.Fire? && Enabled(s, e)
    ensures Phantom(Effect(s, e).p) <==> Phantom(s.p) || LosingRace(s, e)
  {
    hide Ends;
  }

  /** A phantom is for ever: no event of any kind ends it, a stop and a shutdown included. */
  lemma {:induction false} PhantomIsForever(s: Sys, es: seq<Event>)
    requires Inv(s.p) && Consistent(s.p.m) && Phantom(s.p)
    ensures Phantom(Run(s, es).p)
    decreases es
  {
    hide Step, Inv, Consistent;
    if es != [] {
      PhantomIff(s, es[0]);
      StepKeeps(s, es[0]);
      PhantomIsForever(Step(s, es[0]), es[1..]);
    }
  }

  /** In a run no step of which loses the race, a child exists exactly in the active states. */
  lemma {:induction false} WithoutLosingRaces(s: Sys, es: seq<Event>)
    requires Inv(s.p) && Consistent(s.p.m) && !Phantom(s.p)
    requires forall i :: 0 <= i < |es| ==> !LosingRace(Run(s, es[..i]), es[i])
    ensures var p := Run(s, es).p; Active(p.m.state) <==> p.child.Some?
    decreases es
  {
    hide Step, LosingRace, Consistent;
    if es != [] {
      assert Run(s, es[..0]) == s;
      PhantomIff(s, es[0]);
      StepKeeps(s, es[0]);
      forall i | 0 <= i < |es| - 1
        ensures !LosingRace(Run(Step(s, es[0]), es[1..][..i]), es[1..][i])
      {
        assert es[..i + 1][1..] == es[1..][..i];
        assert !LosingRace(Run(s, es[..i + 1]), es[i + 1]);
      }
      WithoutLosingRaces(Step(s, es[0]), es[1..]);
    }
  }
}
