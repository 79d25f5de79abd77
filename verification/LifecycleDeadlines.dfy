/** When the start watcher and the backoff retry fire, and where the documented times fail. */
module LifecycleDeadlines {
  import opened Basics
  import opened Configs
  import opened Machines
  import opened BackoffDelays
  import opened Lifecycle
  import opened LifecycleSafety
  import opened LifecycleRuns

  // ---------------------------------------------------------------------
  // STARTING has a watcher that will promote it
  // ---------------------------------------------------------------------

  /**
    A start watcher that is sure to promote a process with a limit of
    `startsecs`: nothing can cancel it before, and it fires late enough, either
    because it waits that long or because that much time has passed already.
   */
  ghost predicate WatchLasts(s: Sys, t: Timer, startsecs: int) {
    && t in s.pending && t.StartWatch?
    && (t.ch in s.p.closed ==> t.due.None? && startsecs == 0)
    && (t.due.Some? ==> t.due.value - s.p.m.startedAt >= startsecs || s.now - s.p.m.startedAt >= startsecs)
  }

  /** One that is sure to promote it with the limit in force. */
  ghost predicate LiveWatch(s: Sys, t: Timer) {
    WatchLasts(s, t, s.p.m.startsecs)
  }

  ghost predicate StartingIsWatched(s: Sys) {
    s.p.m.state == Starting ==> s.p.m.startedAt <= s.now && exists t :: LiveWatch(s, t)
  }

  /** If the event is an update of a STARTING process, one of its watchers lasts for the new startsecs. */
  ghost predicate Harmless(s: Sys, e: Event) {
    e.Update? && s.p.m.state == Starting ==> exists t :: WatchLasts(s, t, Seconds(e.cfg.sup.startsecs))
  }

  lemma {:induction false} EnteringStarting(s: Sys, e: Event)
    requires Inv(s.p) && Enabled(s, e)
    requires s.p.m.state != Starting && Effect(s, e).p.m.state == Starting
    ensures var after := Effect(s, e);
      && after.p.m.startedAt == s.now
      && after.launched.Some? && after.launched.value.StartWatch?
      && after.launched.value.due.None? && after.launched.value.ch !in after.p.closed
  {
    hide Ends, HandleExit;
    EffectMoves(s, e);
  }

  lemma ExitTailKeepsMachine(p: Proc)
    ensures ExitTail(p).m == p.m
  {}

  lemma {:induction false} StayingInStarting(s: Sys, e: Event)
    requires Inv(s.p) && Enabled(s, e) && !e.Update?
    requires s.p.m.state == Starting && Effect(s, e).p.m.state == Starting
    ensures var after := Effect(s, e).p;
      && !e.Exit? && RaceOf(e).NoRace?
      && after.closed == s.p.closed && after.m.startedAt == s.p.m.startedAt && after.m.startsecs == s.p.m.startsecs
    ensures e.Fire? && e.t.StartWatch? ==> s.now - s.p.m.startedAt < s.p.m.startsecs
    ensures e.Begin? && e.t.StartWatch? && s.p.m.startedAt <= s.now ==>
      s.p.m.startsecs > 0 && Effect(s, e).launched == Some(StartWatch(e.t.ch, Some(s.now + s.p.m.startsecs)))
  {
    hide Ends, ExitSwitch, ExitTail, SpawnLocked;
    if e.Exit? {
      ExitSwitchKeeps(s.p, s.now, e.code, s.shutdown, e.race);
      ExitTailKeepsMachine(ExitSwitch(s.p, s.now, e.code, s.shutdown, e.race).p);
    }
  }

  /** An update of a STARTING process leaves it watched exactly if one of its watchers lasts for the new limit. */
  lemma {:induction false} UpdateKeepsWatchedIff(s: Sys, cfg: ProgramConfig)
    requires s.p.m.state == Starting && s.p.m.startedAt <= s.now
    ensures StartingIsWatched(Step(s, Update(cfg))) <==> Harmless(s, Update(cfg))
  {
    hide Step;
    StepOfUpdate(s, cfg);
    var s' := Step(s, Update(cfg));
    assert forall t :: LiveWatch(s', t) <==> WatchLasts(s, t, Seconds(cfg.sup.startsecs));
  }

  lemma {:induction false} StepOfUpdate(s: Sys, cfg: ProgramConfig)
    requires !Locked(s)
    ensures Step(s, Update(cfg)) == s.(p := UpdateConfig(s.p, cfg))
  {
    hide StartLocked, StopLocked, HandleExit, Fired, Begun, UpdateConfig;
    assert Enabled(s, Update(cfg));
    assert s.pending - multiset{} + multiset{} == s.pending;
  }

  lemma {:induction false} StepKeepsStartingWatched(s: Sys, e: Event)
    requires Inv(s.p) && StartingIsWatched(s) && !e.Update?
    ensures StartingIsWatched(Step(s, e))
  {
    hide Effect, Inv, Ends, Launched;
    var s' := Step(s, e);
    if Enabled(s, e) && s'.p.m.state == Starting {
      var launched := Effect(s, e).launched;
      LaunchedIsPending(s, e);
      if s.p.m.state != Starting {
        EnteringStarting(s, e);
        assert LiveWatch(s', launched.value);
      } else {
        StayingInStarting(s, e);
        var t :| LiveWatch(s, t);
        if e == Begin(t) {
          assert LiveWatch(s', launched.value);
        } else {
          SurvivesStep(s, e, t);
          assert LiveWatch(s', t);
        }
      }
    }
  }

  lemma {:induction false} UpdateOutsideStarting(s: Sys, e: Event)
    requires e.Update? && s.p.m.state != Starting
    ensures StartingIsWatched(Step(s, e))
  {
    hide Step;
    StepMoves(s, e);
  }

  // ---------------------------------------------------------------------
  // What a watcher is good for
  // ---------------------------------------------------------------------

  predicate NoWatch(s: Sys) {
    forall t :: t in s.pending ==> !t.StartWatch?
  }

  /** The child does not exit, nobody stops the process, and its config stays. */
  predicate Calm(es: seq<Event>) {
    forall i :: 0 <= i < |es| ==> !es[i].Exit? && !es[i].Stop? && !es[i].Update?
  }

  /** The process can be left STARTING without anything to promote it, although its child lives. */
  ghost predicate CanStrand(s: Sys) {
    exists es :: Calm(es) && Run(s, es).p.m.state == Starting && NoWatch(Run(s, es))
  }

  lemma {:induction false} CalmKeepsWatched(s: Sys, es: seq<Event>)
    requires Inv(s.p) && Consistent(s.p.m) && StartingIsWatched(s) && Calm(es)
    ensures StartingIsWatched(Run(s, es))
    decreases es
  {
    hide Step, Inv, Consistent, StartingIsWatched;
    if es != [] {
      StepKeeps(s, es[0]);
      StepKeepsStartingWatched(s, es[0]);
      CalmKeepsWatched(Step(s, es[0]), es[1..]);
    }
  }

  /** Without a live one, all watchers can come to an end without promoting the process. */
  lemma {:induction false} DisposeOfWatchers(s: Sys) returns (es: seq<Event>)
    requires s.p.m.startsecs == Seconds(s.p.cfg.sup.startsecs)
    requires s.p.m.state == Starting && forall t :: !LiveWatch(s, t)
    ensures Calm(es) && Run(s, es).p == s.p && NoWatch(Run(s, es))
    decreases |s.pending|
  {
    hide Step, Enabled;
    if t :| t in s.pending && t.StartWatch? {
      var first := DisposeOfOne(s, t);
      var rest := DisposeOfWatchers(Run(s, first));
      es := first + rest;
      RunConcat(s, first, rest);
    } else {
      es := [];
    }
  }

  lemma {:induction false} DisposeOfOne(s: Sys, t: Timer) returns (es: seq<Event>)
    requires s.p.m.startsecs == Seconds(s.p.cfg.sup.startsecs)
    requires s.p.m.state == Starting && (forall t :: !LiveWatch(s, t)) && t in s.pending && t.StartWatch?
    ensures Calm(es)
    ensures var last := Run(s, es);
      last.p == s.p && last.pending == s.pending - multiset{t} && forall t :: !LiveWatch(last, t)
  {
    hide Step, Run, Enabled;
    assert !LiveWatch(s, t);
    if t.ch in s.p.closed && t.due.Some? {
      CancelStep(s, t);
      es := [Cancel(t)];
      RunOne(s, Cancel(t));
    } else if t.ch in s.p.closed {
      es := BeginAndCancel(s, t);
    } else {
      es := FireInVain(s, t);
    }
    forall other ensures !LiveWatch(Run(s, es), other) { assert !LiveWatch(s, other); }
  }

  lemma {:induction false} BeginAndCancel(s: Sys, t: Timer) returns (es: seq<Event>)
    requires t in s.pending && t.StartWatch? && t.due.None? && t.ch in s.p.closed && s.p.cfg.sup.startsecs > 0
    ensures Calm(es) && Run(s, es) == s.(pending := s.pending - multiset{t})
  {
    hide Step, Run, Seconds;
    var armed := StartWatch(t.ch, Some(s.now + Seconds(s.p.cfg.sup.startsecs)));
    BegunAndArmed(s, t, armed);
    var s' := Step(s, Begin(t));
    SwapTimers(s.pending, t, armed);
    CancelStep(s', armed);
    es := [Begin(t), Cancel(armed)];
    RunTwo(s, Begin(t), Cancel(armed));
  }

  lemma {:induction false} BegunAndArmed(s: Sys, t: Timer, armed: Timer)
    requires t in s.pending && t.StartWatch? && t.due.None? && s.p.cfg.sup.startsecs > 0
    requires armed == StartWatch(t.ch, Some(s.now + Seconds(s.p.cfg.sup.startsecs)))
    ensures Step(s, Begin(t)) == s.(pending := s.pending - multiset{t} + multiset{armed})
  {
    hide Step, Enabled;
    BeginStep(s, t);
  }

  lemma SwapTimers(pending: multiset<Timer>, t: Timer, armed: Timer)
    ensures var swapped := pending - multiset{t} + multiset{armed};
      armed in swapped && swapped - multiset{armed} == pending - multiset{t}
  {}

  /** A watcher that waits for too short a time fires without promoting the process. */
  lemma {:induction false} FireInVain(s: Sys, t: Timer) returns (es: seq<Event>)
    requires s.p.m.state == Starting && s.now - s.p.m.startedAt < s.p.m.startsecs
    requires t in s.pending && t.StartWatch? && t.due.Some?
    requires t.due.value - s.p.m.startedAt < s.p.m.startsecs
    ensures Calm(es)
    ensures var last := Run(s, es);
      && last.p == s.p && last.pending == s.pending - multiset{t}
      && last.now - s.p.m.startedAt < s.p.m.startsecs
  {
    hide Step, Enabled;
    var d := if t.due.value > s.now then t.due.value - s.now else 0;
    TimerlessStep(s, Tick(d));
    var s' := Step(s, Tick(d));
    assert s'.p == s.p && s'.pending == s.pending;
    FireStep(s', t, Failure);
    es := [Tick(d), Fire(t, Failure, NoRace)];
    RunTwo(s, Tick(d), Fire(t, Failure, NoRace));
    assert s.pending - multiset{t} + multiset{} == s.pending - multiset{t};
  }

  lemma {:induction false} RunTwo(s: Sys, a: Event, b: Event)
    ensures Run(s, [a, b]) == Step(Step(s, a), b)
  {
    hide Step;
    assert [a, b][1..] == [b] && [b][1..] == [];
    assert Run(Step(s, a), [b]) == Run(Step(Step(s, a), b), []);
  }

  /**
    A STARTING process can be stranded exactly if none of its pending watchers
    is sure to promote it: the open ones all wait for less than startsecs,
    measured from the start of the attempt, and that time has not passed yet.
   */
  lemma {:induction false} CanStrandIff(s: Sys)
    requires Inv(s.p) && Consistent(s.p.m) && s.p.m.state == Starting && s.p.m.startedAt <= s.now
    ensures CanStrand(s) <==> !exists t :: LiveWatch(s, t)
  {
    hide Run, Consistent;
    if exists t :: LiveWatch(s, t) {
      forall es | Calm(es) && Run(s, es).p.m.state == Starting ensures !NoWatch(Run(s, es)) {
        CalmKeepsWatched(s, es);
      }
    } else {
      var es := DisposeOfWatchers(s);
    }
  }

  /** An update of a STARTING process exposes it to that exactly if it is not harmless. */
  lemma {:induction false} UpdateStrandsIff(s: Sys, cfg: ProgramConfig)
    requires Inv(s.p) && Consistent(s.p.m) && s.p.m.state == Starting && s.p.m.startedAt <= s.now
    ensures CanStrand(Step(s, Update(cfg))) <==> !Harmless(s, Update(cfg))
  {
    hide Step, Inv, Consistent, CanStrand;
    UpdateKeepsWatchedIff(s, cfg);
    StepKeeps(s, Update(cfg));
    StepOfUpdate(s, cfg);
    CanStrandIff(Step(s, Update(cfg)));
  }

  /** At no point of the run can the process be stranded. */
  ghost predicate NeverExposed(s: Sys, es: seq<Event>)
    decreases es
  {
    (s.p.m.state == Starting ==> !CanStrand(s)) && (es == [] || NeverExposed(Step(s, es[0]), es[1..]))
  }

  /** Every update along the run is harmless. */
  ghost predicate AllHarmless(s: Sys, es: seq<Event>)
    decreases es
  {
    es == [] || (Harmless(s, es[0]) && AllHarmless(Step(s, es[0]), es[1..]))
  }

  /**
    Along a run a STARTING process can never be stranded exactly if every
    in-place update of it while STARTING finds a watcher that lasts for the new
    startsecs: one that has not begun to wait, one whose time comes late
    enough, or any that is left when the new time has passed already.
   */
  lemma {:induction false} StartingIsNeverStrandedIff(s: Sys, es: seq<Event>)
    requires Inv(s.p) && Consistent(s.p.m) && StartingIsWatched(s)
    ensures NeverExposed(s, es) <==> AllHarmless(s, es)
    decreases es
  {
    hide Step, Inv, Consistent, Harmless, CanStrand;
    if s.p.m.state == Starting { CanStrandIff(s); }
    if es != [] {
      var s' := Step(s, es[0]);
      StepKeeps(s, es[0]);
      WatchedStepIff(s, es[0]);
      if StartingIsWatched(s') {
        StartingIsNeverStrandedIff(s', es[1..]);
      } else {
        UnwatchedIsExposed(s, es[0]);
      }
    }
  }

  lemma {:induction false} UnwatchedIsExposed(s: Sys, e: Event)
    requires Inv(s.p) && Consistent(s.p.m) && StartingIsWatched(s) && !StartingIsWatched(Step(s, e))
    ensures Step(s, e).p.m.state == Starting && CanStrand(Step(s, e))
  {
    hide Step, Inv, Consistent, CanStrand;
    WatchedStepIff(s, e);
    UpdateStrandsIff(s, e.cfg);
    StepOfUpdate(s, e.cfg);
  }

  lemma {:induction false} WatchedStepIff(s: Sys, e: Event)
    requires Inv(s.p) && StartingIsWatched(s)
    ensures StartingIsWatched(Step(s, e)) <==> Harmless(s, e)
  {
    hide Step, Inv;
    if !e.Update? {
      StepKeepsStartingWatched(s, e);
    } else if s.p.m.state == Starting {
      UpdateKeepsWatchedIff(s, e.cfg);
    } else {
      UpdateOutsideStarting(s, e);
    }
  }

  /** The watcher of StartingIsWatched does its work: when it fires the process is RUNNING. */
  lemma LiveWatchPromotes(s: Sys, t: Timer, out: Spawn)
    requires s.p.m.state == Starting && LiveWatch(s, t) && Due(t, s.now)
    ensures Step(s, Fire(t, out, NoRace)).p.m.state == Running
  {
    assert Enabled(s, Fire(t, out, NoRace));
  }

  // ---------------------------------------------------------------------
  // Backoff delays
  // ---------------------------------------------------------------------

  predicate RetriesInRange(m: Machine) {
    m.maxRetries <= 34 && (m.state == Backoff ==> m.retries <= 34)
  }

  /** Updates along the run configure at most 34 retries. */
  predicate FewRetries(es: seq<Event>) {
    forall i :: 0 <= i < |es| && es[i].Update? ==> es[i].cfg.sup.startretries <= 34
  }

  lemma {:induction false} MachineKeepsRange(m: Machine, now: int)
    requires RetriesInRange(m)
    ensures RetriesInRange(ProcessStarted(m, now))
    ensures RetriesInRange(ProcessExitedEarly(m, now).0)
    ensures RetriesInRange(ProcessExited(m, now).0)
    ensures RetriesInRange(RequestStart(m, now).0)
    ensures RetriesInRange(RequestStop(m, now).0)
    ensures RetriesInRange(RetryFromBackoff(m, now).0)
    ensures RetriesInRange(Transition(m, Stopped, now).0)
  {}

  lemma {:induction false} SpawnKeepsRange(p: Proc, now: int, out: Spawn, race: Race)
    requires RetriesInRange(p.m)
    ensures RetriesInRange(SpawnLocked(p, now, out, race).p.m)
  {
    hide RetriesInRange, ProcessStarted, ProcessExitedEarly;
    MachineKeepsRange(p.m, Later(now, race));
    MachineKeepsRange(Promote(p, now, race).m, Later(now, race));
  }

  lemma {:induction false} ExitKeepsRange(p: Proc, now: int, code: int, shutdown: bool, race: Race)
    requires RetriesInRange(p.m)
    ensures RetriesInRange(HandleExit(p, now, code, shutdown, race).p.m)
  {
    hide RetriesInRange, ProcessStarted, ProcessExitedEarly, ProcessExited, Transition, RequestStop, ShouldRestart;
    var later := Later(now, race);
    var q := Promote(p, now, race);
    MachineKeepsRange(p.m, now);
    MachineKeepsRange(p.m, later);
    MachineKeepsRange(q.m, later);
    MachineKeepsRange(ProcessExitedEarly(q.m, later).0, later);
  }

  lemma {:induction false} FiredKeepsRange(p: Proc, t: Timer, now: int, out: Spawn, race: Race, shutdown: bool)
    requires RetriesInRange(p.m)
    ensures RetriesInRange(Fired(p, t, now, out, race, shutdown).p.m)
  {
    hide RetriesInRange, ProcessStarted, RetryFromBackoff, SpawnLocked, RequestStart, Transition, RequestStop;
    MachineKeepsRange(p.m, now);
    SpawnKeepsRange(p.(m := RetryFromBackoff(p.m, now).0), now, out, race);
    SpawnKeepsRange(p.(m := RequestStart(p.m, now).0), now, out, race);
  }

  lemma {:induction false} EffectKeepsRange(s: Sys, e: Event)
    requires RetriesInRange(s.p.m) && Enabled(s, e)
    requires e.Update? ==> e.cfg.sup.startretries <= 34
    ensures RetriesInRange(Effect(s, e).p.m)
  {
    hide Ends, Enabled, HandleExit, Fired, SpawnLocked, ProcessStarted, RequestStart, RequestStop, Transition;
    MachineKeepsRange(s.p.m, s.now);
    match e
    case Start(out, race) => SpawnKeepsRange(s.p.(m := RequestStart(s.p.m, s.now).0), s.now, out, race);
    case Exit(_, code, race) => ExitKeepsRange(s.p, s.now, code, s.shutdown, race);
    case Fire(t, out, race) => FiredKeepsRange(s.p, t, s.now, out, race, s.shutdown);
    case _ =>
  }

  lemma {:induction false} RunKeepsRange(s: Sys, es: seq<Event>)
    requires RetriesInRange(s.p.m) && FewRetries(es)
    ensures RetriesInRange(Run(s, es).p.m)
    decreases es
  {
    hide Effect, Enabled, Ends, RetriesInRange;
    if es != [] {
      if Enabled(s, es[0]) {
        EffectKeepsRange(s, es[0]);
      }
      RunKeepsRange(Step(s, es[0]), es[1..]);
    }
  }

  /**
    With startretries never above 34, a retry that begins to wait while the
    process is in BACKOFF waits exactly the documented time: 1s, 2s, 4s, 8s,
    16s, 32s, then 60s.
   */
  lemma BackoffDelaysAreExact(cfg: ProgramConfig, now: int, shutdown: bool, es: seq<Event>, t: Timer)
    requires cfg.sup.startretries <= 34 && FewRetries(es) && t.Retry?
    requires var s := Run(Fresh(cfg, now, shutdown), es); Enabled(s, Begin(t)) && s.p.m.state == Backoff
    ensures var s := Run(Fresh(cfg, now, shutdown), es);
      && s.p.m.retries >= 1
      && Effect(s, Begin(t)).launched == Some(Retry(t.ch, Some(s.now + Promised(s.p.m.retries))))
  {
    hide Run, Enabled;
    var s0 := Fresh(cfg, now, shutdown);
    var s := Run(s0, es);
    FreshInv(cfg);
    RunKeeps(s0, es);
    RunKeepsRange(s0, es);
    DelayExactUpTo34(s.p.m.retries);
  }

  /**
    Every retry, whenever it begins to wait and in whatever state it then
    finds the process, reads the failure count of that moment. So it waits the
    time documented for the failure that launched it exactly if the count still
    is the same, or both are past the cap; a count set back to 0 by RUNNING
    serves the first failure.
   */
  lemma RetryServesItsFailureIff(s: Sys, e: Event, es: seq<Event>, t: Timer)
    requires Inv(s.p) && Consistent(s.p.m)
    requires Enabled(s, e) && Effect(s, e).launched == Some(t) && t.Retry? && !e.Begin?
    requires Enabled(Run(Step(s, e), es), Begin(t))
    ensures var failure, u := Step(s, e).p.m.retries, Run(Step(s, e), es);
      && failure >= 1
      && Effect(u, Begin(t)).launched == Some(Retry(t.ch, Some(u.now + Delay(u.p.m.retries))))
      && (Delay(u.p.m.retries) == Promised(failure) <==> SameDelay(u.p.m.retries, failure))
  {
    hide Step, Run, Enabled, Delay, Consistent, Inv;
    RetryIsLaunchedInBackoff(s, e);
    StepKeeps(s, e);
    BackoffHasFailed(Step(s, e).p.m);
    SameDelayIff(Run(Step(s, e), es).p.m.retries, Step(s, e).p.m.retries);
  }

  lemma {:induction false} RetryIsLaunchedInBackoff(s: Sys, e: Event)
    requires Enabled(s, e) && Effect(s, e).launched.Some? && Effect(s, e).launched.value.Retry? && !e.Begin?
    ensures Step(s, e).p.m.state == Backoff
  {
    hide Ends, ProcessStarted, ProcessExitedEarly, ProcessExited, Transition, RequestStart, RequestStop,
      RetryFromBackoff, SetLimits, ShouldRestart;
  }

  lemma BackoffHasFailed(m: Machine)
    requires Consistent(m) && m.state == Backoff
    ensures m.retries >= 1
  {}
}
