/**
  Where the code falls short of the documented behaviour. Each lemma names,
  for every state of the kind described, the events that show it.
 */
module LifecycleGaps {
  import opened Basics
  import opened Machines
  import opened BackoffDelays
  import opened Lifecycle
  import opened LifecycleSafety
  import opened LifecycleRuns
  import opened LifecycleDeadlines

  /**
    A STARTING process with an armed start watcher can always end up RUNNING
    without a child: the watcher fires while the exit is being handled.
   */
  lemma {:induction false} PhantomIsPossible(s: Sys, t: Timer, code: int)
    requires Inv(s.p) && s.p.m.state == Starting && LiveWatch(s, t) && t.due.Some?
    ensures var d := if t.due.value > s.now then t.due.value - s.now else 0;
      Phantom(Step(Step(s, Tick(d)), Exit(s.p.child.value, code, Promotion(t, 0))).p)
  {
    hide Step, StartLocked, StopLocked, HandleExit, Fired, Begun;
    var d := if t.due.value > s.now then t.due.value - s.now else 0;
    TimerlessStep(s, Tick(d));
    var ticked := Step(s, Tick(d));
    assert ticked.pending == s.pending;
    PhantomIff(ticked, Exit(s.p.child.value, code, Promotion(t, 0)));
  }

  /**
    Without a pending start watcher a STARTING process stays STARTING until its
    child exits or it is stopped, however long that takes and whatever else
    happens, further updates included.
   */
  lemma {:induction false} StrandedNeverRuns(s: Sys, es: seq<Event>)
    requires s.p.m.state == Starting && NoWatch(s)
    requires forall i :: 0 <= i < |es| ==> !es[i].Exit? && !es[i].Stop?
    ensures Run(s, es).p.m.state == Starting && NoWatch(Run(s, es))
    decreases es
  {
    hide Step, NoWatch;
    if es != [] {
      StrandedStep(s, es[0]);
      StrandedNeverRuns(Step(s, es[0]), es[1..]);
    }
  }

  lemma {:induction false} StrandedStep(s: Sys, e: Event)
    requires s.p.m.state == Starting && NoWatch(s) && !e.Exit? && !e.Stop?
    ensures Step(s, e).p.m.state == Starting && NoWatch(Step(s, e))
  {
    hide Effect;
    StepMoves(s, e);
    if Enabled(s, e) {
      assert forall t :: t in Ends(e) ==> t in s.pending;
      WatchIsLaunchedInto(s, e);
    }
  }

  lemma {:induction false} WatchIsLaunchedInto(s: Sys, e: Event)
    requires s.p.m.state == Starting && Enabled(s, e) && !e.Exit? && !(e.Begin? && e.t.StartWatch?)
    ensures Effect(s, e).launched.Some? ==> !Effect(s, e).launched.value.StartWatch?
  {
    hide Ends, HandleExit, ProcessStarted;
  }

  // ---------------------------------------------------------------------
  // A stop in BACKOFF does not cancel the retry of an exited child
  // ---------------------------------------------------------------------

  /** The part of a state the scenario below follows. */
  ghost predicate Follows(s: Sys, state: State, retries: int, from: Sys) {
    && s.p.m.state == state && s.p.m.retries == retries
    && s.p.m.maxRetries == from.p.m.maxRetries && s.p.cfg == from.p.cfg && s.p.retired == from.p.retired
    && s.now == from.now && s.shutdown == from.shutdown
  }

  lemma {:induction false} FailingExit(s: Sys, pid: int, code: int)
    requires s.p.m.state == Starting && s.p.child == Some(pid) && !s.shutdown
    requires s.p.m.retries < s.p.m.maxRetries
    ensures var s' := Step(s, Exit(pid, code, NoRace));
      Follows(s', Backoff, s.p.m.retries + 1, s) && s'.pending == s.pending + multiset{Retry(s.p.stopCh, None)}
  {
    hide Step, Enabled, StartLocked, StopLocked, Fired, Begun;
    TimerlessStep(s, Exit(pid, code, NoRace));
  }

  lemma {:induction false} ArmedRetry(s: Sys, ch: nat)
    requires Retry(ch, None) in s.pending
    ensures var s' := Step(s, Begin(Retry(ch, None)));
      && s'.p == s.p && s'.now == s.now && s'.shutdown == s.shutdown
      && s'.pending == s.pending - multiset{Retry(ch, None)}
                       + multiset{Retry(ch, Some(s.now + Delay(s.p.m.retries)))}
  {
    hide Step, Delay;
    BeginStep(s, Retry(ch, None));
  }

  lemma {:induction false} StoppedBackoff(s: Sys)
    requires s.p.m.state == Backoff
    ensures Follows(Step(s, Stop), Stopped, s.p.m.retries, s) && Step(s, Stop).pending == s.pending
  {
    hide Step, Enabled, StartLocked, HandleExit, Fired, Begun;
    TimerlessStep(s, Stop);
    assert s.pending + multiset{} == s.pending;
  }

  lemma {:induction false} Restarted(s: Sys, pid: int)
    requires s.p.m.state == Stopped && !s.p.retired && s.p.cfg.sup.startsecs > 0
    ensures var s' := Step(s, Start(Child(pid), NoRace));
      Follows(s', Starting, s.p.m.retries, s) && s'.p.child == Some(pid) && s.pending <= s'.pending
  {
    hide Step, Enabled, StopLocked, HandleExit, Fired, Begun;
    TimerlessStep(s, Start(Child(pid), NoRace));
  }

  /** The child exits and its retry starts waiting; the process is stopped, started again, and fails again. */
  function Scenario(s: Sys, pid: int): Sys
    requires s.p.child.Some?
  {
    var backoff := Step(s, Exit(s.p.child.value, 1, NoRace));
    var waiting := Step(backoff, Begin(Retry(s.p.stopCh, None)));
    var stopped := Step(waiting, Stop);
    var started := Step(stopped, Start(Child(pid), NoRace));
    Step(started, Exit(pid, 1, NoRace))
  }

  /**
    The documentation says that a stop in BACKOFF cancels the retry. From any
    STARTING process with two retries left, a stop and a new start leave the
    old retry waiting: the process is in BACKOFF for the failure number
    retries + 2, and the delay of failure number retries + 1 will end it.
   */
  lemma StopLeavesRetryPending(s: Sys, pid: int)
    requires s.p.m.state == Starting && s.p.child.Some? && !s.shutdown && !s.p.retired
    requires s.p.cfg.sup.startsecs > 0 && s.p.m.retries + 2 <= s.p.m.maxRetries
    ensures var last := Scenario(s, pid);
      && last.p.m.state == Backoff && last.p.m.retries == s.p.m.retries + 2 && last.now == s.now
      && Retry(s.p.stopCh, Some(s.now + Delay(s.p.m.retries + 1))) in last.pending
  {
    hide Step, Delay;
    FailingExit(s, s.p.child.value, 1);
    var backoff := Step(s, Exit(s.p.child.value, 1, NoRace));
    ArmedRetry(backoff, s.p.stopCh);
    var waiting := Step(backoff, Begin(Retry(s.p.stopCh, None)));
    StoppedBackoff(waiting);
    var stopped := Step(waiting, Stop);
    Restarted(stopped, pid);
    var started := Step(stopped, Start(Child(pid), NoRace));
    FailingExit(started, pid, 1);
  }

  /** Any retry whose timer is up ends a BACKOFF at once, whichever failure launched it. */
  lemma {:induction false} AnyRetryEndsBackoff(s: Sys, t: Timer, out: Spawn)
    requires s.p.m.state == Backoff && !s.p.retired && !s.shutdown
    requires t in s.pending && t.Retry? && Due(t, s.now)
    ensures var h := Step(s, Fire(t, out, NoRace)).p.m.history;
      |h| > |s.p.m.history| && h[|s.p.m.history|] == Entry(Starting, s.now, s.p.m.startsecs)
  {
    hide Step, Enabled, StopLocked;
    FireStep(s, t, out);
  }

  /**
    A retry that begins to wait late serves another failure than the one it
    follows. From any STARTING process with two retries left: the child exits,
    and before the retry of failure retries + 1 begins, the process is stopped,
    started and fails again. The retry then arms the delay of failure
    retries + 2.
   */
  lemma LateRetryServesAnother(s: Sys, pid: int)
    requires s.p.m.state == Starting && s.p.child.Some? && !s.shutdown && !s.p.retired
    requires s.p.cfg.sup.startsecs > 0 && s.p.m.retries + 2 <= s.p.m.maxRetries
    ensures var backoff := Step(s, Exit(s.p.child.value, 1, NoRace));
      var again := Run(backoff, [Stop, Start(Child(pid), NoRace), Exit(pid, 1, NoRace)]);
      var last := Step(again, Begin(Retry(s.p.stopCh, None)));
      && backoff.p.m.retries == s.p.m.retries + 1
      && Effect(s, Exit(s.p.child.value, 1, NoRace)).launched == Some(Retry(s.p.stopCh, None))
      && last.p.m.state == Backoff
      && Retry(s.p.stopCh, Some(s.now + Delay(s.p.m.retries + 2))) in last.pending
  {
    hide Step, Delay, Effect;
    FailingExit(s, s.p.child.value, 1);
    FailingExitLaunches(s, s.p.child.value, 1);
    var backoff := Step(s, Exit(s.p.child.value, 1, NoRace));
    StoppedBackoff(backoff);
    var stopped := Step(backoff, Stop);
    Restarted(stopped, pid);
    var started := Step(stopped, Start(Child(pid), NoRace));
    FailingExit(started, pid, 1);
    var again := Step(started, Exit(pid, 1, NoRace));
    ThreeSteps(backoff, Stop, Start(Child(pid), NoRace), Exit(pid, 1, NoRace));
    ArmedRetry(again, s.p.stopCh);
  }

  lemma {:induction false} FailingExitLaunches(s: Sys, pid: int, code: int)
    requires s.p.m.state == Starting && s.p.child == Some(pid) && !s.shutdown
    requires s.p.m.retries < s.p.m.maxRetries
    ensures Enabled(s, Exit(pid, code, NoRace))
    ensures Effect(s, Exit(pid, code, NoRace)).launched == Some(Retry(s.p.stopCh, None))
  {
    hide StartLocked, StopLocked, Fired, Begun;
  }

  lemma {:induction false} ThreeSteps(s: Sys, a: Event, b: Event, c: Event)
    ensures Run(s, [a, b, c]) == Step(Step(Step(s, a), b), c)
  {
    hide Step;
    var s1 := Step(s, a);
    assert [a, b, c][1..] == [b, c] && [b, c][1..] == [c] && [c][1..] == [];
    assert Run(s1, [b, c]) == Run(Step(s1, b), [c]);
    assert Run(Step(s1, b), [c]) == Run(Step(Step(s1, b), c), []);
  }
}
