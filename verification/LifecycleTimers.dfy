/** The goroutines of a process: which ones a state can count on, and how long they wait. */
module LifecycleTimers {
  import opened Basics
  import opened Machines
  import opened BackoffDelays
  import opened Lifecycle
  import opened LifecycleSafety
  import opened LifecycleRuns

  // ---------------------------------------------------------------------
  // Channels nobody holds any more
  // ---------------------------------------------------------------------

  /** A channel that exists, is open, and is neither the stop nor the kill channel. */
  predicate Orphan(p: Proc, ch: nat) {
    ch < p.made && ch != p.stopCh && p.killCh != Some(ch) && ch !in p.closed
  }

  lemma {:induction false} SectionsKeepOrphan(
    p: Proc, now: int, out: Spawn, race: Race, code: int, shutdown: bool, ch: nat)
    requires Orphan(p, ch)
    ensures Orphan(SpawnLocked(p, now, out, race).p, ch)
    ensures Orphan(StopLocked(p, now).p, ch)
    ensures Orphan(ExitSwitch(p, now, code, shutdown, race).p, ch)
  {
    hide Orphan, SpawnLocked, StopLocked, ExitSwitch;
    SpawnKeepsOrphan(p, now, out, race, ch);
    StopKeepsOrphan(p, now, ch);
    ExitSwitchKeepsOrphan(p, now, code, shutdown, race, ch);
  }

  lemma {:induction false} SpawnKeepsOrphan(p: Proc, now: int, out: Spawn, race: Race, ch: nat)
    requires Orphan(p, ch)
    ensures Orphan(SpawnLocked(p, now, out, race).p, ch)
  {
    hide ProcessStarted, ProcessExitedEarly;
  }

  lemma {:induction false} StopKeepsOrphan(p: Proc, now: int, ch: nat)
    requires Orphan(p, ch)
    ensures Orphan(StopLocked(p, now).p, ch)
  {
    hide Transition, RequestStop;
  }

  lemma {:induction false} ExitSwitchKeepsOrphan(p: Proc, now: int, code: int, shutdown: bool, race: Race, ch: nat)
    requires Orphan(p, ch)
    ensures Orphan(ExitSwitch(p, now, code, shutdown, race).p, ch)
  {
    hide ProcessStarted, ProcessExitedEarly, ProcessExited, ShouldRestart, StopLocked;
    if p.m.state == Starting {
      var q := Promote(p, now, race);
      StopKeepsOrphan(q.(m := ProcessExitedEarly(q.m, Later(now, race)).0), Later(now, race), ch);
    }
  }

  lemma {:induction false} EffectKeepsOrphan(s: Sys, e: Event, ch: nat)
    requires Orphan(s.p, ch) && Enabled(s, e)
    ensures Orphan(Effect(s, e).p, ch)
  {
    hide Ends, Enabled, SpawnLocked, StopLocked, ExitSwitch, ProcessStarted, RequestStart, RetryFromBackoff, SetLimits;
    match e
    case Start(out, race) =>
      SectionsKeepOrphan(s.p.(m := RequestStart(s.p.m, s.now).0), s.now, out, race, 0, s.shutdown, ch);
    case Stop => SectionsKeepOrphan(s.p, s.now, Failure, NoRace, 0, s.shutdown, ch);
    case Exit(_, code, race) => SectionsKeepOrphan(s.p, s.now, Failure, race, code, s.shutdown, ch);
    case Fire(t, out, race) =>
      SectionsKeepOrphan(s.p, s.now, out, race, 0, s.shutdown, ch);
      SectionsKeepOrphan(s.p.(m := RequestStart(s.p.m, s.now).0), s.now, out, race, 0, s.shutdown, ch);
      SectionsKeepOrphan(s.p.(m := RetryFromBackoff(s.p.m, s.now).0), s.now, out, race, 0, s.shutdown, ch);
    case _ =>
  }

  /** An orphaned channel is never closed. */
  lemma {:induction false} OrphanIsNeverClosed(s: Sys, es: seq<Event>, ch: nat)
    requires Orphan(s.p, ch)
    ensures Orphan(Run(s, es).p, ch)
    decreases es
  {
    hide Effect, Enabled, Ends, Orphan;
    if es != [] {
      if Enabled(s, es[0]) {
        EffectKeepsOrphan(s, es[0], ch);
      }
      OrphanIsNeverClosed(Step(s, es[0]), es[1..], ch);
    }
  }

  /**
    The retry scheduled when a STARTING child exits waits on a channel that
    nothing will ever close: only its timer ends it. A stop of the process in
    BACKOFF therefore leaves it pending.
   */
  lemma ExitRetryCannotBeCancelled(s: Sys, e: Event, es: seq<Event>)
    requires Inv(s.p) && Enabled(s, e) && e.Exit?
    requires s.p.m.state == Starting && Effect(s, e).p.m.state == Backoff
    ensures Effect(s, e).launched == Some(Retry(s.p.stopCh, None))
    ensures forall due :: !Enabled(Run(Step(s, e), es), Cancel(Retry(s.p.stopCh, due)))
  {
    ExitLeavesOrphan(s, e);
    hide Step, Effect;
    OrphanIsNeverClosed(Step(s, e), es, s.p.stopCh);
  }

  lemma {:induction false} ExitLeavesOrphan(s: Sys, e: Event)
    requires Inv(s.p) && Enabled(s, e) && e.Exit?
    requires s.p.m.state == Starting && Effect(s, e).p.m.state == Backoff
    ensures Orphan(Step(s, e).p, s.p.stopCh)
    ensures Effect(s, e).launched == Some(Retry(s.p.stopCh, None))
  {
    hide Ends, ProcessStarted;
  }

  /** A stop in BACKOFF closes the channel of a pending retry exactly if that is the current stop channel. */
  lemma {:induction false} StopCancelsIff(s: Sys, t: Timer)
    requires Inv(s.p) && s.p.m.state == Backoff
    requires t in s.pending && t.Retry? && t.ch !in s.p.closed
    ensures t.ch in Step(s, Stop).p.closed <==> t.ch == s.p.stopCh
    ensures t in Step(s, Stop).pending
  {
    hide Step;
    StopIsAStopSection(s);
  }

  lemma {:induction false} StopIsAStopSection(s: Sys)
    requires !Locked(s)
    ensures Step(s, Stop).p == StopLocked(s.p, s.now).p
    ensures Step(s, Stop).pending == s.pending + Launched(StopLocked(s.p, s.now).launched)
  {
    hide StopLocked, StartLocked, HandleExit, Fired, Begun, UpdateConfig, Launched;
    assert Enabled(s, Stop);
    assert s.pending - multiset{} == s.pending;
  }

  // ---------------------------------------------------------------------
  // BACKOFF always has a live retry
  // ---------------------------------------------------------------------

  ghost predicate LiveRetry(s: Sys, t: Timer) {
    t in s.pending && t.Retry? && t.ch !in s.p.closed
  }

  /** A process in BACKOFF that is not retired has a pending retry that cannot be cancelled. */
  ghost predicate BackoffIsWatched(s: Sys) {
    s.p.m.state == Backoff && !s.p.retired ==> exists t :: LiveRetry(s, t)
  }

  lemma {:induction false} FailedSpawnLaunches(p: Proc, now: int, out: Spawn, race: Race)
    requires p.m.state == Starting && p.stopCh !in p.closed
    requires SpawnLocked(p, now, out, race).p.m.state == Backoff
    ensures SpawnLocked(p, now, out, race).launched == Some(Retry(p.stopCh, None))
    ensures SpawnLocked(p, now, out, race).p.closed == p.closed
  {}

  /** Entering BACKOFF, or entering it again through a retry, launches a retry on an open channel. */
  lemma {:induction false} EnteringBackoffLaunches(s: Sys, e: Event)
    requires Inv(s.p) && Enabled(s, e)
    requires s.p.m.state != Backoff || (e.Fire? && e.t.Retry? && !s.p.retired)
    requires Effect(s, e).p.m.state == Backoff
    ensures var after := Effect(s, e);
      after.launched.Some? && after.launched.value.Retry? && after.launched.value.ch !in after.p.closed
  {
    hide Ends, SettingsOk, SpawnLocked, ProcessStarted;
    match e
    case Start(out, race) =>
      if Startable(s.p) {
        FailedSpawnLaunches(s.p.(m := RequestStart(s.p.m, s.now).0), s.now, out, race);
      }
    case Fire(t, out, race) =>
      EffectMoves(s, e);
      if t.Retry? {
        FailedSpawnLaunches(s.p.(m := RetryFromBackoff(s.p.m, s.now).0), s.now, out, race);
      } else if t.Restarting? {
        FailedSpawnLaunches(s.p.(m := RequestStart(s.p.m, s.now).0), s.now, out, race);
      }
    case _ => EffectMoves(s, e);
  }

  /** While BACKOFF lasts no channel is closed. */
  lemma {:induction false} BackoffClosesNothing(s: Sys, e: Event)
    requires Inv(s.p) && Enabled(s, e) && s.p.m.state == Backoff && Effect(s, e).p.m.state == Backoff
    requires !(e.Fire? && e.t.Retry? && !s.p.retired)
    ensures Effect(s, e).p.closed == s.p.closed
  {
    hide Ends, SpawnLocked, SettingsOk;
  }

  lemma {:induction false} StepKeepsBackoffWatched(s: Sys, e: Event)
    requires Inv(s.p) && BackoffIsWatched(s)
    ensures BackoffIsWatched(Step(s, e))
  {
    hide Effect, Inv, Ends, Launched;
    var s' := Step(s, e);
    if Enabled(s, e) && s'.p.m.state == Backoff && !s'.p.retired {
      StepMoves(s, e);
      var launched := Effect(s, e).launched;
      LaunchedIsPending(s, e);
      if s.p.m.state != Backoff || (e.Fire? && e.t.Retry? && !s.p.retired) {
        EnteringBackoffLaunches(s, e);
        assert LiveRetry(s', launched.value);
      } else {
        BackoffClosesNothing(s, e);
        var t :| LiveRetry(s, t);
        if e == Begin(t) {
          BegunRetry(s, t);
          assert LiveRetry(s', launched.value);
        } else {
          SurvivesStep(s, e, t);
          assert LiveRetry(s', t);
        }
      }
    }
  }

  lemma BegunRetry(s: Sys, t: Timer)
    requires t.Retry? && Enabled(s, Begin(t))
    ensures Effect(s, Begin(t)).launched == Some(Retry(t.ch, Some(s.now + Delay(s.p.m.retries))))
  {}

  /** In every run, BACKOFF is never left without a retry to end it. */
  lemma {:induction false} BackoffIsNeverStranded(s: Sys, es: seq<Event>)
    requires Inv(s.p) && Consistent(s.p.m) && BackoffIsWatched(s)
    ensures BackoffIsWatched(Run(s, es))
    decreases es
  {
    hide Step, Inv, Consistent, BackoffIsWatched;
    if es != [] {
      StepKeeps(s, es[0]);
      StepKeepsBackoffWatched(s, es[0]);
      BackoffIsNeverStranded(Step(s, es[0]), es[1..]);
    }
  }
}
