/** The life of a process as a chart over its states, and what an exit and a stop set off. */
module LifecycleChart {
  import opened Basics
  import opened Configs
  import opened Machines
  import opened Lifecycle
  import opened LifecycleSafety
  import opened LifecycleRuns

  // ---------------------------------------------------------------------
  // The chart
  // ---------------------------------------------------------------------

  /** The state after one more failure: startretries failures in a row are forgiven. */
  function AfterFailure(s: Sys): State {
    if s.p.m.retries >= s.p.cfg.sup.startretries then Fatal else Backoff
  }

  function AfterSpawn(s: Sys, out: Spawn): State {
    if out.Failure? then AfterFailure(s) else if s.p.cfg.sup.startsecs == 0 then Running else Starting
  }

  /** The event spawns, or tries to. */
  predicate Spawns(s: Sys, e: Event) {
    match e
    case Start(_, _) => !s.p.retired && Terminal(s.p.m.state)
    case Fire(Restarting, _, _) => !s.p.retired
    case Fire(Retry(_, _), _, _) => !s.p.retired && s.p.m.state == Backoff && !s.shutdown
    case _ => false
  }

  /** What docs/process-lifecycle.md draws, with the conditions of the code. */
  function NextState(s: Sys, e: Event): State {
    var state := s.p.m.state;
    if Spawns(s, e) then AfterSpawn(s, e.out)
    else
      match e
      case Stop =>
        if state == Starting || state == Running then Stopping else if state == Backoff then Stopped else state
      case Exit(_, _, _) =>
        if state == Running then Exited
        else if state == Starting then
          if AfterFailure(s) == Backoff && s.shutdown then Stopped else AfterFailure(s)
        else Stopped
      case Begin(StartWatch(_, _)) =>
        if state == Starting && s.p.cfg.sup.startsecs == 0 && s.now >= s.p.m.startedAt then Running else state
      case Fire(StartWatch(_, _), _, _) =>
        if state == Starting && s.now - s.p.m.startedAt >= Seconds(s.p.cfg.sup.startsecs) then Running else state
      case Fire(Retry(_, _), _, _) => if state == Backoff && !s.p.retired then Stopped else state
      case _ => state
  }

  function NextChild(s: Sys, e: Event): Option<int> {
    if e.Exit? then None
    else if Spawns(s, e) && e.out.Child? then Some(e.out.pid)
    else s.p.child
  }

  lemma {:induction false} SpawnFollows(p: Proc, now: int, out: Spawn)
    requires p.m.state == Starting && p.m.startedAt == now && SettingsOk(p)
    ensures var q := SpawnLocked(p, now, out, NoRace).p;
      var failed := if p.m.retries >= p.cfg.sup.startretries then Fatal else Backoff;
      && q.m.state == (if out.Failure? then failed else if p.cfg.sup.startsecs == 0 then Running else Starting)
      && q.child == (if out.Child? then Some(out.pid) else p.child)
  {}

  lemma {:induction false} StartFollows(s: Sys, e: Event)
    requires Inv(s.p) && Enabled(s, e) && e.Start? && e.race.NoRace?
    ensures Effect(s, e).p.m.state == NextState(s, e) && Effect(s, e).p.child == NextChild(s, e)
  {
    hide Ends, SpawnLocked;
    if Startable(s.p) { SpawnFollows(s.p.(m := RequestStart(s.p.m, s.now).0), s.now, e.out); }
  }

  lemma {:induction false} FireFollows(s: Sys, e: Event)
    requires Inv(s.p) && Enabled(s, e) && e.Fire? && e.race.NoRace?
    ensures Effect(s, e).p.m.state == NextState(s, e) && Effect(s, e).p.child == NextChild(s, e)
  {
    hide Ends, SpawnLocked;
    if e.t.Retry? && s.p.m.state == Backoff {
      SpawnFollows(s.p.(m := RetryFromBackoff(s.p.m, s.now).0), s.now, e.out);
    }
    if e.t.Restarting? && Startable(s.p) {
      SpawnFollows(s.p.(m := RequestStart(s.p.m, s.now).0), s.now, e.out);
    }
  }

  lemma {:induction false} OthersFollow(s: Sys, e: Event)
    requires Inv(s.p) && Consistent(s.p.m) && Enabled(s, e) && !e.Start? && !e.Fire? && RaceOf(e).NoRace?
    ensures Effect(s, e).p.m.state == NextState(s, e) && Effect(s, e).p.child == NextChild(s, e)
  {
    hide Ends, Consistent;
  }

  /** Outside races, every event leads to exactly the state and the child the chart says. */
  lemma {:induction false} StepFollowsChart(s: Sys, e: Event)
    requires Inv(s.p) && Consistent(s.p.m) && Enabled(s, e) && RaceOf(e).NoRace?
    ensures Step(s, e).p.m.state == NextState(s, e)
    ensures Step(s, e).p.child == NextChild(s, e)
  {
    hide Inv, Consistent, Enabled, Effect, NextState, NextChild;
    match e
    case Start(_, _) => StartFollows(s, e);
    case Fire(_, _, _) => FireFollows(s, e);
    case _ => OthersFollow(s, e);
  }

  // ---------------------------------------------------------------------
  // An exit from RUNNING
  // ---------------------------------------------------------------------

  /**
    An exit from RUNNING launches one autorestart exactly if no shutdown has
    begun and the policy is "true", or is "unexpected" and the exit code is
    none of exitcodes.
   */
  lemma {:induction false} ExitLaunchesRestartIff(s: Sys, pid: int, code: int)
    requires Inv(s.p) && s.p.m.state == Running && s.p.child == Some(pid)
    ensures var s' := Step(s, Exit(pid, code, NoRace));
      var sup := s.p.cfg.sup;
      var again := !s.shutdown && (sup.autorestart == Always ||
        (sup.autorestart == Unexpected && forall i :: 0 <= i < |sup.exitcodes| ==> sup.exitcodes[i] != code));
      && s'.p.m.state == Exited && s'.p.child.None? && s'.p.retired == s.p.retired
      && s'.now == s.now && s'.shutdown == s.shutdown && !(s'.p.m.manualStop)
      && s'.pending == s.pending + if again then multiset{Restart} else multiset{}
  {
    hide Effect;
    var e := Exit(pid, code, NoRace);
    TimerlessStep(s, e);
    ExitEffect(s, e);
  }

  lemma {:induction false} ExitEffect(s: Sys, e: Event)
    requires Inv(s.p) && s.p.m.state == Running && e.Exit? && e.race.NoRace? && Enabled(s, e)
    ensures var after := Effect(s, e);
      && after.p.m.state == Exited && after.p.child.None? && after.p.retired == s.p.retired && !after.p.m.manualStop
      && after.launched == if ShouldRestart(s.p, e.code, s.shutdown) then Some(Restart) else None
  {
    hide Ends, ShouldRestart;
    RestartAsBefore(s.p, ProcessExited(s.p.m, s.now).0, e.code, s.shutdown);
  }

  lemma RestartAsBefore(p: Proc, m: Machine, code: int, shutdown: bool)
    requires m.manualStop == p.m.manualStop
    ensures ShouldRestart(p.(m := m), code, shutdown) == ShouldRestart(p, code, shutdown)
  {}

  /**
    That autorestart brings an unretired process back, if nothing comes between
    and the spawn succeeds; with a shutdown begun meanwhile it does nothing.
   */
  lemma {:induction false} RestartBringsBack(s: Sys, pid: int)
    requires Inv(s.p) && Restart in s.pending && s.p.m.state == Exited && NoneRestarting(s)
    ensures var s' := Run(s, [Begin(Restart), Fire(Restarting, Child(pid), NoRace)]).p;
      if s.shutdown || s.p.retired then s' == s.p
      else s'.child == Some(pid) && s'.m.state == if s.p.cfg.sup.startsecs == 0 then Running else Starting
  {
    hide Step, Inv, Fired, Begun;
    var checked := Step(s, Begin(Restart));
    var fire := Fire(Restarting, Child(pid), NoRace);
    CheckStep(s);
    RunOne(checked, fire);
    assert [Begin(Restart), fire][1..] == [fire];
    assert Run(s, [Begin(Restart), fire]) == Run(checked, [fire]);
    if s.shutdown {
      assert !Enabled(checked, fire) by { assert Ends(fire)[Restarting] == 1; }
      Idle(checked, fire);
    } else {
      GoesOn(checked, Child(pid));
      StartOf(s.p, s.now, pid);
    }
  }

  lemma Idle(s: Sys, e: Event)
    requires !Enabled(s, e)
    ensures Step(s, e) == s
  {}

  lemma {:induction false} CheckStep(s: Sys)
    requires Restart in s.pending && s.p.m.state == Exited && NoneRestarting(s)
    ensures var s' := Step(s, Begin(Restart));
      && s'.p == s.p && s'.now == s.now && s'.shutdown == s.shutdown
      && s'.pending[Restarting] == if s.shutdown then 0 else 1
  {
    hide StartLocked, StopLocked, HandleExit, Fired;
    assert Enabled(s, Begin(Restart));
  }

  lemma {:induction false} StartOf(p: Proc, now: int, pid: int)
    requires Inv(p) && p.m.state == Exited
    ensures var q := StartLocked(p, now, Child(pid), NoRace).p;
      if p.retired then q == p
      else q.child == Some(pid) && q.m.state == if p.cfg.sup.startsecs == 0 then Running else Starting
  {}

  // ---------------------------------------------------------------------
  // A stop, and the SIGKILL after stopwaitsecs
  // ---------------------------------------------------------------------

  /** A stop is accepted exactly if it changes the state, or one is under way already. */
  lemma StopAcceptedIff(s: Sys)
    ensures StopAccepted(s.p) <==> NextState(s, Stop) != s.p.m.state || s.p.m.state == Stopping
  {}

  /** The watcher that sends SIGKILL to a process with this kill channel. */
  predicate KillWatch(t: Timer, ch: nat) {
    t.StopWatch? && t.ch == ch
  }

  /**
    A stop of a STARTING or RUNNING process launches such a watcher on a new
    channel, and closes the one its start watchers and retries wait on.
   */
  lemma {:induction false} StopLaunchesKillWatch(s: Sys)
    requires Inv(s.p) && (s.p.m.state == Starting || s.p.m.state == Running)
    ensures var s' := Step(s, Stop);
      && s'.p.m.state == Stopping && s'.p.child == s.p.child
      && s'.p.killCh.Some? && s'.p.killCh.value !in s'.p.closed
      && s'.pending == s.pending + multiset{StopWatch(s'.p.killCh.value, None)}
      && s.p.stopCh in s'.p.closed && s'.p.closed == s.p.closed + {s.p.stopCh}
  {
    hide Effect;
    TimerlessStep(s, Stop);
    StopEffect(s);
  }

  lemma {:induction false} StopEffect(s: Sys)
    requires Inv(s.p) && (s.p.m.state == Starting || s.p.m.state == Running) && Enabled(s, Stop)
    ensures var after := Effect(s, Stop);
      && after.p.m.state == Stopping && after.p.child == s.p.child
      && after.p.killCh.Some? && after.p.killCh.value !in after.p.closed
      && after.launched == Some(StopWatch(after.p.killCh.value, None))
      && after.p.closed == s.p.closed + {s.p.stopCh}
  {
    hide Ends;
  }

  /** It waits for stopwaitsecs from the moment it begins. */
  lemma {:induction false} KillWatchWaits(s: Sys, ch: nat)
    requires StopWatch(ch, None) in s.pending
    ensures Step(s, Begin(StopWatch(ch, None))).pending == s.pending - multiset{StopWatch(ch, None)}
      + multiset{StopWatch(ch, Some(s.now + 1_000_000_000 * s.p.cfg.sup.stopwaitsecs))}
  {
    BeginStep(s, StopWatch(ch, None));
  }

  ghost predicate KillComes(s: Sys, ch: nat) {
    exists t :: t in s.pending && KillWatch(t, ch)
  }

  predicate Kills(e: Event, ch: nat) {
    e.Fire? && KillWatch(e.t, ch)
  }

  lemma {:induction false} StoppingGoesOn(s: Sys, e: Event)
    requires Inv(s.p) && s.p.m.state == Stopping && !e.Exit?
    ensures Step(s, e).p.killCh == s.p.killCh
  {
    hide Ends, SpawnLocked, HandleExit, Launched;
  }

  lemma {:induction false} StepKeepsKill(s: Sys, e: Event, ch: nat)
    requires ch !in s.p.closed && KillComes(s, ch) && !Kills(e, ch)
    ensures KillComes(Step(s, e), ch)
  {
    hide Step, StartLocked, StopLocked, HandleExit, Fired, Begun;
    var t :| t in s.pending && KillWatch(t, ch);
    if !Enabled(s, e) {
      Idle(s, e);
    } else if e == Begin(t) {
      KillBegins(s, t);
    } else {
      NoPromotion(s, e);
      SurvivesStep(s, e, t);
    }
  }

  lemma KillBegins(s: Sys, t: Timer)
    requires t in s.pending && t.StopWatch? && Enabled(s, Begin(t))
    ensures KillComes(Step(s, Begin(t)), t.ch)
  {
    hide Step;
    KillWatchWaits(s, t.ch);
    var armed := StopWatch(t.ch, Some(s.now + 1_000_000_000 * s.p.cfg.sup.stopwaitsecs));
    assert armed in Step(s, Begin(t)).pending;
  }

  lemma NoPromotion(s: Sys, e: Event)
    requires Enabled(s, e)
    ensures RaceOf(e).Promotion? ==> RaceOf(e).watcher.StartWatch?
  {
    hide Ends;
  }

  /**
    As long as the stopped child has not exited, its SIGKILL has been sent or
    its watcher is still there: nothing cancels it.
   */
  lemma {:induction false} KillIsNeverForgotten(s: Sys, es: seq<Event>, ch: nat)
    requires Inv(s.p) && Consistent(s.p.m) && s.p.killCh == Some(ch) && KillComes(s, ch)
    requires forall i :: 0 <= i < |es| ==> !es[i].Exit?
    ensures Run(s, es).p.m.state == Stopping && Run(s, es).p.killCh == Some(ch)
    ensures KillComes(Run(s, es), ch) || exists i :: 0 <= i < |es| && Kills(es[i], ch)
    decreases es
  {
    hide Step, Consistent;
    if es != [] {
      var s' := Step(s, es[0]);
      assert !es[0].Exit?;
      StepKeeps(s, es[0]);
      StoppingGoesOn(s, es[0]);
      if Kills(es[0], ch) {
        StoppingRun(s', es[1..]);
      } else {
        StepKeepsKill(s, es[0], ch);
        KillIsNeverForgotten(s', es[1..], ch);
        if !KillComes(Run(s', es[1..]), ch) {
          var i :| 0 <= i < |es[1..]| && Kills(es[1..][i], ch);
          assert Kills(es[i + 1], ch);
        }
      }
    }
  }

  /** The exit ends it: the process is STOPPED without a child, and the kill channel is closed. */
  lemma {:induction false} ExitEndsStop(s: Sys, pid: int, code: int, ch: nat)
    requires Inv(s.p) && s.p.m.state == Stopping && s.p.child == Some(pid) && s.p.killCh == Some(ch)
    ensures var s' := Step(s, Exit(pid, code, NoRace));
      && s'.p.m.state == Stopped && s'.p.child.None? && s'.p.killCh.None?
      && s'.p.closed == s.p.closed + {ch} && s'.p.stopCh !in s'.p.closed
      && s'.pending == s.pending
  {
    TimerlessStep(s, Exit(pid, code, NoRace));
  }

  lemma {:induction false} StoppingRun(s: Sys, es: seq<Event>)
    requires Inv(s.p) && Consistent(s.p.m) && s.p.killCh.Some?
    requires forall i :: 0 <= i < |es| ==> !es[i].Exit?
    ensures Run(s, es).p.m.state == Stopping && Run(s, es).p.killCh == s.p.killCh
    decreases es
  {
    hide Step, Consistent;
    if es != [] {
      assert !es[0].Exit?;
      StepKeeps(s, es[0]);
      StoppingGoesOn(s, es[0]);
      StoppingRun(Step(s, es[0]), es[1..]);
    }
  }
}
