/** How long a BACKOFF lasts: the time documented for its failure, or less. */
module LifecycleBackoffs {
  import opened Basics
  import opened Machines
  import opened BackoffDelays
  import opened Lifecycle
  import opened LifecycleRuns
  import opened LifecycleGaps

  /** No retry that already waits is up before `until`. */
  ghost predicate NoEarlyRetry(s: Sys, until: int) {
    forall t :: t in s.pending && t.Retry? && t.due.Some? ==> t.due.value >= until
  }

  predicate FiresRetry(e: Event) {
    e.Fire? && e.t.Retry?
  }

  /** The process is in BACKOFF all along the run, and no retry fires in it. */
  ghost predicate Waits(s: Sys, es: seq<Event>)
    decreases es
  {
    s.p.m.state == Backoff && (es == [] || (!FiresRetry(es[0]) && Waits(Step(s, es[0]), es[1..])))
  }

  /** Whatever happens, no retry fires before the delay of the failure in hand is over. */
  ghost predicate ServedInFull(s: Sys) {
    forall es, e :: Waits(s, es) && FiresRetry(e) && Enabled(Run(s, es), e) ==>
      Run(s, es).now >= s.now + Delay(s.p.m.retries)
  }

  /** While BACKOFF lasts and no retry fires, the failure count stays, and what begins to wait waits from now. */
  lemma {:induction false} WaitingStep(s: Sys, e: Event)
    requires s.p.m.state == Backoff && !FiresRetry(e) && Step(s, e).p.m.state == Backoff
    ensures Step(s, e).p.m.retries == s.p.m.retries && Step(s, e).now >= s.now
    ensures forall t :: t in Step(s, e).pending && t.Retry? && t.due.Some? ==>
      t in s.pending || t.due.value == s.now + Delay(s.p.m.retries)
  {
    hide Effect, Delay, Ends;
    if Enabled(s, e) {
      WaitingEffect(s, e);
      TimeGoesOn(s, e);
      forall t | t in Step(s, e).pending ensures t in s.pending || Effect(s, e).launched == Some(t) {}
    }
  }

  lemma {:induction false} WaitingEffect(s: Sys, e: Event)
    requires s.p.m.state == Backoff && !FiresRetry(e) && Enabled(s, e) && Effect(s, e).p.m.state == Backoff
    ensures Effect(s, e).p.m.retries == s.p.m.retries
    ensures var launched := Effect(s, e).launched;
      launched.Some? && launched.value.Retry? && launched.value.due.Some? ==>
        launched.value.due.value == s.now + Delay(s.p.m.retries)
  {
    hide Delay, Ends, SpawnLocked, ProcessExitedEarly, ProcessExited, RequestStart, RequestStop;
  }

  lemma {:induction false} WaitingRun(s: Sys, es: seq<Event>, until: int)
    requires Waits(s, es) && NoEarlyRetry(s, until) && until <= s.now + Delay(s.p.m.retries)
    ensures NoEarlyRetry(Run(s, es), until)
    decreases es
  {
    hide Step, Delay;
    if es != [] {
      var s' := Step(s, es[0]);
      assert s'.p.m.state == Backoff;
      WaitingStep(s, es[0]);
      WaitingRun(s', es[1..], until);
    }
  }

  /** Time does not run backwards. */
  lemma {:induction false} RunGoesOn(s: Sys, es: seq<Event>)
    ensures Run(s, es).now >= s.now
    decreases es
  {
    hide Step;
    if es != [] {
      TimeGoesOn(s, es[0]);
      RunGoesOn(Step(s, es[0]), es[1..]);
    }
  }

  /** A retry that waits for less time comes first. */
  lemma {:induction false} EarlyRetryFires(s: Sys, t: Timer)
    requires s.p.m.state == Backoff && t in s.pending && t.Retry? && t.due.Some?
    ensures var d := if t.due.value > s.now then t.due.value - s.now else 0;
      var e := Fire(t, Failure, NoRace);
      Waits(s, [Tick(d)]) && Enabled(Run(s, [Tick(d)]), e) && Run(s, [Tick(d)]).now == s.now + d
  {
    hide Step, Enabled;
    var d := if t.due.value > s.now then t.due.value - s.now else 0;
    TimerlessStep(s, Tick(d));
    var s' := Step(s, Tick(d));
    assert [Tick(d)][1..] == [];
    assert Run(s, [Tick(d)]) == s';
    FireStep(s', t, Failure);
  }

  /**
    The BACKOFF of a failure is served in full exactly if, when it is entered,
    no retry left over from an earlier failure is up before its delay is over.
    (Where the delay is not positive there is nothing to serve.)
   */
  lemma {:induction false} ServedInFullIff(s: Sys)
    requires s.p.m.state == Backoff
    ensures ServedInFull(s) <==> Delay(s.p.m.retries) <= 0 || NoEarlyRetry(s, s.now + Delay(s.p.m.retries))
  {
    hide Step, Run, Enabled, Delay, Waits;
    var until := s.now + Delay(s.p.m.retries);
    if Delay(s.p.m.retries) <= 0 || NoEarlyRetry(s, until) {
      forall es, e | Waits(s, es) && FiresRetry(e) && Enabled(Run(s, es), e) ensures Run(s, es).now >= until {
        RunGoesOn(s, es);
        if NoEarlyRetry(s, until) {
          WaitingRun(s, es, until);
          FiresWhenDue(Run(s, es), e);
        }
      }
    } else {
      var t :| t in s.pending && t.Retry? && t.due.Some? && t.due.value < until;
      EarlyRetryFires(s, t);
      var es, e := [Tick(if t.due.value > s.now then t.due.value - s.now else 0)], Fire(t, Failure, NoRace);
      assert Waits(s, es) && FiresRetry(e) && Enabled(Run(s, es), e) && Run(s, es).now < until;
    }
  }

  lemma {:induction false} FiresWhenDue(s: Sys, e: Event)
    requires FiresRetry(e) && Enabled(s, e)
    ensures e.t in s.pending && e.t.due.Some? && e.t.due.value <= s.now
  {
    assert Ends(e)[e.t] >= 1;
  }

  /**
    A stop, a start and another failure: as long as the delay still doubles the
    BACKOFF of that failure is not served in full.
   */
  lemma StopCutsBackoffShort(s: Sys, pid: int)
    requires s.p.m.state == Starting && s.p.child.Some? && !s.shutdown && !s.p.retired
    requires s.p.cfg.sup.startsecs > 0 && 0 <= s.p.m.retries && s.p.m.retries + 2 <= s.p.m.maxRetries
    ensures s.p.m.retries + 2 <= 7 ==> !ServedInFull(Scenario(s, pid))
  {
    hide Scenario, ServedInFull, Delay;
    StopLeavesRetryPending(s, pid);
    var last := Scenario(s, pid);
    if s.p.m.retries + 2 <= 7 {
      DelayStillGrows(s.p.m.retries + 1);
      ServedInFullIff(last);
      var t := Retry(s.p.stopCh, Some(s.now + Delay(s.p.m.retries + 1)));
      assert t in last.pending;
    }
  }

  lemma DelayStillGrows(r: int)
    requires 1 <= r <= 6
    ensures 0 < Delay(r) < Delay(r + 1)
  {
    DelayExactUpTo34(r);
    DelayExactUpTo34(r + 1);
    PromisedPositive(r);
    PromisedDiffer(r, r + 1);
    Pow2Monotone(r - 1, r);
    Pow2Monotone(r - 1, 5);
    Pow2Values();
    assert Pow2(6) == 2 * Pow2(5);
  }
}
