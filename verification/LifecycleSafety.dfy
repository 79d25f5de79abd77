/** What every run of a process keeps. */
module LifecycleSafety {
  import opened Basics
  import opened Configs
  import opened Machines
  import opened Lifecycle

  predicate Active(s: State) {
    s == Starting || s == Running || s == Stopping
  }

  /** A process holds a child only while STARTING, RUNNING or STOPPING; STARTING always has one. */
  ghost predicate ChildMatchesState(p: Proc) {
    && (p.child.Some? ==> Active(p.m.state))
    && (p.m.state == Starting ==> p.child.Some?)
  }

  /**
    No channel has been closed twice, only existing ones were closed, the kill channel
    is there and open exactly while STOPPING, and the current stop channel is
    open except while STOPPING.
   */
  ghost predicate ChannelsOk(p: Proc) {
    && p.stopCh < p.made
    && !p.panicked
    && (forall c :: c in p.closed ==> c < p.made)
    && (p.killCh.Some? <==> p.m.state == Stopping)
    && (p.killCh.Some? ==> p.killCh.value < p.made && p.killCh.value !in p.closed && p.killCh.value != p.stopCh)
    && (p.stopCh in p.closed ==> p.m.state == Stopping)
  }

  /** The limits in force are those of the config, and a pending manual stop shows in the state. */
  ghost predicate SettingsOk(p: Proc) {
    && p.m.startsecs == Seconds(p.cfg.sup.startsecs)
    && p.m.maxRetries == p.cfg.sup.startretries
    && (p.m.manualStop ==> p.m.state == Stopping || p.m.state == Stopped)
  }

  ghost predicate Inv(p: Proc) {
    ChildMatchesState(p) && ChannelsOk(p) && SettingsOk(p)
  }

  lemma FreshInv(cfg: ProgramConfig)
    ensures Inv(NewProc(cfg))
    ensures Consistent(NewProc(cfg).m)
  {}

  // ---------------------------------------------------------------------
  // Child, channels and settings: each critical section
  // ---------------------------------------------------------------------

  lemma {:induction false} SpawnLockedKeepsInv(p: Proc, now: int, out: Spawn, race: Race)
    requires p.m.state == Starting && p.child.None? && ChannelsOk(p) && SettingsOk(p)
    ensures Inv(SpawnLocked(p, now, out, race).p)
  {}

  lemma {:induction false} StartLockedKeepsInv(p: Proc, now: int, out: Spawn, race: Race)
    requires Inv(p)
    ensures Inv(StartLocked(p, now, out, race).p)
  {
    var (m', ok) := RequestStart(p.m, now);
    if !p.retired && !AlreadyUp(p.m.state) && ok {
      SpawnLockedKeepsInv(p.(m := m'), now, out, race);
    }
  }

  lemma {:induction false} StopLockedKeepsInv(p: Proc, now: int)
    requires Inv(p)
    ensures Inv(StopLocked(p, now).p)
  {}

  /** ExitSwitch keeps the channels and leaves the state an exit is expected to leave. */
  lemma {:induction false} ExitSwitchKeeps(p: Proc, now: int, code: int, shutdown: bool, race: Race)
    requires Inv(p)
    ensures var q := ExitSwitch(p, now, code, shutdown, race).p;
      && SettingsOk(q) && !q.panicked && q.stopCh < q.made && q.m.state != Starting
      && (forall c :: c in q.closed ==> c < q.made)
      && q.killCh == p.killCh && (p.killCh.Some? ==> q.closed == p.closed && q.m.state == Stopped)
      && (p.killCh.None? ==> q.m.state != Stopping)
  {}

  lemma {:induction false} HandleExitKeepsInv(p: Proc, now: int, code: int, shutdown: bool, race: Race)
    requires Inv(p)
    ensures Inv(HandleExit(p, now, code, shutdown, race).p)
  {
    ExitSwitchKeeps(p, now, code, shutdown, race);
  }

  lemma {:induction false} RetryFiredKeepsInv(p: Proc, now: int, out: Spawn, race: Race, shutdown: bool)
    requires Inv(p)
    ensures Inv(RetryFired(p, now, out, race, shutdown).p)
  {
    StopLockedKeepsInv(p, now);
    if p.m.state == Backoff {
      SpawnLockedKeepsInv(p.(m := RetryFromBackoff(p.m, now).0), now, out, race);
    }
  }

  lemma {:induction false} FiredKeepsInv(p: Proc, t: Timer, now: int, out: Spawn, race: Race, shutdown: bool)
    requires Inv(p)
    ensures Inv(Fired(p, t, now, out, race, shutdown).p)
  {
    if t.Retry? {
      RetryFiredKeepsInv(p, now, out, race, shutdown);
    } else if t.Restarting? {
      StartLockedKeepsInv(p, now, out, race);
    }
  }

  lemma {:induction false} EffectKeepsInv(s: Sys, e: Event)
    requires Inv(s.p) && Enabled(s, e)
    ensures Inv(Effect(s, e).p)
  {
    match e
    case Start(out, race) => StartLockedKeepsInv(s.p, s.now, out, race);
    case Stop => StopLockedKeepsInv(s.p, s.now);
    case Exit(_, code, race) => HandleExitKeepsInv(s.p, s.now, code, s.shutdown, race);
    case Fire(t, out, race) => FiredKeepsInv(s.p, t, s.now, out, race, s.shutdown);
    case _ =>
  }

  // ---------------------------------------------------------------------
  // History: each critical section
  // ---------------------------------------------------------------------

  lemma {:induction false} SpawnLockedKeepsHistory(p: Proc, now: int, out: Spawn, race: Race)
    requires Consistent(p.m)
    ensures Consistent(SpawnLocked(p, now, out, race).p.m)
  {
    hide Consistent, ProcessStarted, ProcessExitedEarly;
    var later := Later(now, race);
    ProcessStartedKeepsConsistent(p.m, later);
    var q := Promote(p, now, race);
    ProcessStartedKeepsConsistent(q.m, later);
    ProcessExitedEarlyKeepsConsistent(q.m, later);
  }

  lemma {:induction false} StartLockedKeepsHistory(p: Proc, now: int, out: Spawn, race: Race)
    requires Consistent(p.m)
    ensures Consistent(StartLocked(p, now, out, race).p.m)
  {
    TransitionKeepsConsistent(p.m.(manualStop := false), Starting, now);
    SpawnLockedKeepsHistory(p.(m := RequestStart(p.m, now).0), now, out, race);
  }

  lemma {:induction false} StopLockedKeepsHistory(p: Proc, now: int)
    requires Consistent(p.m)
    ensures Consistent(StopLocked(p, now).p.m)
  {
    TransitionKeepsConsistent(p.m, Stopped, now);
    TransitionKeepsConsistent(p.m.(manualStop := true), Stopping, now);
  }

  lemma {:induction false} HandleExitKeepsHistory(p: Proc, now: int, code: int, shutdown: bool, race: Race)
    requires Consistent(p.m)
    ensures Consistent(HandleExit(p, now, code, shutdown, race).p.m)
  {
    hide Consistent, StopLocked, ProcessExitedEarly, ProcessStarted, ProcessExited;
    if p.m.state == Starting {
      var later := Later(now, race);
      ProcessStartedKeepsConsistent(p.m, later);
      var q := Promote(p, now, race);
      ProcessExitedEarlyKeepsConsistent(q.m, later);
      StopLockedKeepsHistory(q.(m := ProcessExitedEarly(q.m, later).0), later);
    } else {
      ProcessExitedKeepsConsistent(p.m, now);
    }
  }

  lemma {:induction false} FiredKeepsHistory(p: Proc, t: Timer, now: int, out: Spawn, race: Race, shutdown: bool)
    requires Consistent(p.m)
    ensures Consistent(Fired(p, t, now, out, race, shutdown).p.m)
  {
    match t
    case StartWatch(_, _) => ProcessStartedKeepsConsistent(p.m, now);
    case StopWatch(_, _) =>
    case Retry(_, _) =>
      StopLockedKeepsHistory(p, now);
      TransitionKeepsConsistent(p.m, Starting, now);
      SpawnLockedKeepsHistory(p.(m := RetryFromBackoff(p.m, now).0), now, out, race);
    case Restart =>
    case Restarting => StartLockedKeepsHistory(p, now, out, race);
  }

  lemma {:induction false} EffectKeepsHistory(s: Sys, e: Event)
    requires Consistent(s.p.m) && Enabled(s, e)
    ensures Consistent(Effect(s, e).p.m)
  {
    match e
    case Start(out, race) => StartLockedKeepsHistory(s.p, s.now, out, race);
    case Stop => StopLockedKeepsHistory(s.p, s.now);
    case Exit(_, code, race) => HandleExitKeepsHistory(s.p, s.now, code, s.shutdown, race);
    case Begin(t) => ProcessStartedKeepsConsistent(s.p.m, s.now);
    case Fire(t, out, race) => FiredKeepsHistory(s.p, t, s.now, out, race, s.shutdown);
    case _ =>
  }

  // ---------------------------------------------------------------------
  // Every run
  // ---------------------------------------------------------------------

  lemma {:induction false} StepKeeps(s: Sys, e: Event)
    requires Inv(s.p) && Consistent(s.p.m)
    ensures Inv(Step(s, e).p) && Consistent(Step(s, e).p.m)
  {
    hide Effect, Enabled, Inv, Consistent;
    if Enabled(s, e) {
      EffectKeepsInv(s, e);
      EffectKeepsHistory(s, e);
    }
  }

  lemma {:induction false} RunKeeps(s: Sys, es: seq<Event>)
    requires Inv(s.p) && Consistent(s.p.m)
    ensures Inv(Run(s, es).p) && Consistent(Run(s, es).p.m)
    decreases es
  {
    hide Step, Inv, Consistent;
    if es != [] {
      StepKeeps(s, es[0]);
      RunKeeps(Step(s, es[0]), es[1..]);
    }
  }

  /**
    In every run a child exists only while STARTING, RUNNING or STOPPING; no
    channel is closed twice; and the kill channel exists exactly while
    STOPPING, where it is still open.
   */
  lemma EveryRunIsSafe(cfg: ProgramConfig, now: int, shutdown: bool, es: seq<Event>)
    ensures var p := Run(Fresh(cfg, now, shutdown), es).p;
      && (p.child.Some? ==> Active(p.m.state))
      && !p.panicked
      && (p.killCh.Some? <==> p.m.state == Stopping)
      && (p.killCh.Some? ==> p.killCh.value !in p.closed)
  {
    FreshInv(cfg);
    RunKeeps(Fresh(cfg, now, shutdown), es);
  }

  /**
    In every run the retry counter is the number of failed attempts since
    RUNNING, every transition is in the table, and RUNNING was never entered
    before the attempt it ends had been STARTING for startsecs.
   */
  lemma EveryRunHasALawfulHistory(cfg: ProgramConfig, now: int, shutdown: bool, es: seq<Event>)
    ensures var m := Run(Fresh(cfg, now, shutdown), es).p.m;
      && m.state == CurrentState(m.history)
      && m.retries == FailuresSinceRunning(m.history)
      && FollowsTable(m.history)
      && RunningWasEarned(m.history)
  {
    FreshInv(cfg);
    RunKeeps(Fresh(cfg, now, shutdown), es);
  }

  /** A spawn never replaces a child that has not been reaped. */
  lemma {:induction false} ChildIsNeverOverwritten(s: Sys, e: Event)
    requires Inv(s.p) && s.p.child.Some?
    ensures var after := Step(s, e).p.child;
      after == s.p.child || (after.None? && e.Exit? && s.p.child == Some(e.pid))
  {
    hide SpawnLocked, ProcessStarted, Ends, ExitSwitch;
  }

  // ---------------------------------------------------------------------
  // The lock between an autorestart's checks and its start
  // ---------------------------------------------------------------------

  /** One autorestart at most is past its checks, and what it has checked still holds. */
  ghost predicate LockOk(s: Sys) {
    s.pending[Restarting] <= 1 && (Restarting in s.pending ==> s.p.m.state == Exited)
  }

  /** An autorestart gets past its checks in EXITED and outside a shutdown only. */
  lemma {:induction false} OnlyChecksLaunchRestarting(s: Sys, e: Event)
    requires Enabled(s, e) && Effect(s, e).launched == Some(Restarting)
    ensures e == Begin(Restart) && MayRestart(s.p, s.shutdown) && !Locked(s) && Effect(s, e).p == s.p
  {
    hide Ends, ProcessStarted, ProcessExitedEarly, ProcessExited, Transition, RequestStart, RequestStop,
      RetryFromBackoff, SetLimits, ShouldRestart;
  }

  /** While it is there, nothing else moves the process. */
  lemma {:induction false} LockedStays(s: Sys, e: Event)
    requires Inv(s.p) && Enabled(s, e) && Locked(s) && !(e.Fire? && e.t.Restarting?)
    ensures Effect(s, e).p == s.p
  {
    hide Ends, StartLocked, ExitSwitch;
  }

  lemma {:induction false} StepKeepsLock(s: Sys, e: Event)
    requires Inv(s.p) && LockOk(s)
    ensures LockOk(Step(s, e))
  {
    hide Effect, Inv, Ends;
    if Enabled(s, e) {
      if Effect(s, e).launched == Some(Restarting) { OnlyChecksLaunchRestarting(s, e); }
      EndsRestarting(e);
      if Restarting in s.pending && !(e.Fire? && e.t.Restarting?) { LockedStays(s, e); }
    }
  }

  lemma EndsRestarting(e: Event)
    ensures e.Fire? && e.t.Restarting? ==> Ends(e)[Restarting] >= 1
  {}

  lemma {:induction false} RunKeepsLock(s: Sys, es: seq<Event>)
    requires Inv(s.p) && Consistent(s.p.m) && LockOk(s)
    ensures LockOk(Run(s, es))
    decreases es
  {
    hide Step, Inv, Consistent, LockOk;
    if es != [] {
      StepKeeps(s, es[0]);
      StepKeepsLock(s, es[0]);
      RunKeepsLock(Step(s, es[0]), es[1..]);
    }
  }

  /** An autorestart that is not interrupted does what its section says. */
  lemma {:induction false} AutorestartIsOneSection(s: Sys, out: Spawn)
    requires Restart in s.pending && !Locked(s)
    ensures var checked := Step(s, Begin(Restart));
      var after := if MayRestart(s.p, s.shutdown) then Step(checked, Fire(Restarting, out, NoRace)) else checked;
      after.p == AutorestartFired(s.p, s.now, out, NoRace, s.shutdown).p
  {
    hide Step, StartLocked, Begun;
    Checks(s);
    var checked := Step(s, Begin(Restart));
    if MayRestart(s.p, s.shutdown) { GoesOn(checked, out); }
  }

  lemma {:induction false} Checks(s: Sys)
    requires Restart in s.pending && !Locked(s)
    ensures var s' := Step(s, Begin(Restart));
      && s'.p == s.p && s'.now == s.now
      && (MayRestart(s.p, s.shutdown) ==> Restarting in s'.pending)
  {
    hide StartLocked, StopLocked, HandleExit, Fired;
    assert Enabled(s, Begin(Restart));
  }

  lemma {:induction false} GoesOn(s: Sys, out: Spawn)
    requires Restarting in s.pending && s.p.m.state == Exited
    ensures Enabled(s, Fire(Restarting, out, NoRace))
    ensures Step(s, Fire(Restarting, out, NoRace)).p == StartLocked(s.p, s.now, out, NoRace).p
  {
    hide StartLocked, StopLocked, HandleExit;
  }
}
