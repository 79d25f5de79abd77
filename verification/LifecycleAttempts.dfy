/** How often a program that does not get past startsecs is tried. */
module LifecycleAttempts {
  import opened Configs
  import opened Machines
  import opened Lifecycle

  lemma {:induction false} CountApply(m: Machine, target: State, now: int)
    ensures forall s :: Count(Apply(m, target, now).history, s) == Count(m.history, s) + if s == target then 1 else 0
  {
    var h' := Apply(m, target, now).history;
    assert h'[..|h'| - 1] == m.history;
  }

  /** How many times `m` has entered `s` since it was `m0`. */
  function Since(m0: Machine, m: Machine, s: State): int {
    Count(m.history, s) - Count(m0.history, s)
  }

  /**
    Start attempts and failed ones of a machine that was started when it was
    `m0`, was left to itself, and has not been RUNNING since.
   */
  ghost predicate Tally(m0: Machine, m: Machine) {
    var attempts, failures := Since(m0, m, Starting), Since(m0, m, Backoff);
    Since(m0, m, Running) > 0 ||
    (Since(m0, m, Running) == 0 && failures >= 0
     && m.maxRetries == m0.maxRetries && m.retries == m0.retries + failures &&
     match m.state
     case Starting | Stopping => attempts == failures + 1 && (failures == 0 || m.retries <= m.maxRetries)
     case Backoff => attempts == failures >= 1 && m.retries <= m.maxRetries
     case Fatal =>
       attempts == failures >= 1 && m.retries > m.maxRetries && (failures == 1 || m.retries - 1 <= m.maxRetries)
     case Stopped =>
       failures <= attempts <= failures + 1 && attempts >= 1 && (failures == 0 || m.retries <= m.maxRetries)
     case Running | Exited => false)
  }

  lemma {:induction false} MachineKeepsTally(m0: Machine, m: Machine, now: int)
    requires Tally(m0, m)
    ensures Tally(m0, ProcessStarted(m, now))
    ensures Tally(m0, ProcessExitedEarly(m, now).0)
    ensures Tally(m0, ProcessExited(m, now).0)
    ensures Tally(m0, RetryFromBackoff(m, now).0)
    ensures AlreadyUp(m.state) && m.state != Backoff ==> Tally(m0, RequestStop(m, now).0)
    ensures m.state == Backoff ==> Tally(m0, Transition(m, Stopped, now).0)
    ensures m.state == Exited ==> Tally(m0, RequestStart(m, now).0)
  {
    hide Count;
    CountApply(m, Running, now);
    CountApply(m, Backoff, now);
    CountApply(Apply(m, Backoff, now), Fatal, now);
    CountApply(m, Exited, now);
    CountApply(m, Stopped, now);
    CountApply(m, Starting, now);
    CountApply(m.(manualStop := true), Stopping, now);
    CountApply(m.(manualStop := false), Starting, now);
  }

  lemma {:induction false} SpawnKeepsTally(m0: Machine, p: Proc, now: int, out: Spawn, race: Race)
    requires Tally(m0, p.m)
    ensures Tally(m0, SpawnLocked(p, now, out, race).p.m)
  {
    hide Tally, ProcessStarted, ProcessExitedEarly;
    var later := Later(now, race);
    MachineKeepsTally(m0, p.m, later);
    MachineKeepsTally(m0, Promote(p, now, race).m, later);
  }

  lemma {:induction false} StopKeepsTally(m0: Machine, p: Proc, now: int)
    requires Tally(m0, p.m)
    ensures Tally(m0, StopLocked(p, now).p.m)
  {
    hide Tally, Transition, RequestStop;
    MachineKeepsTally(m0, p.m, now);
  }

  lemma {:induction false} ExitKeepsTally(m0: Machine, p: Proc, now: int, code: int, shutdown: bool, race: Race)
    requires Tally(m0, p.m)
    ensures Tally(m0, HandleExit(p, now, code, shutdown, race).p.m)
  {
    hide Tally, ProcessStarted, ProcessExitedEarly, ProcessExited, StopLocked;
    var later := Later(now, race);
    var q := Promote(p, now, race);
    MachineKeepsTally(m0, p.m, now);
    MachineKeepsTally(m0, p.m, later);
    MachineKeepsTally(m0, q.m, later);
    StopKeepsTally(m0, q.(m := ProcessExitedEarly(q.m, later).0), later);
  }

  lemma {:induction false} FiredKeepsTally(
    m0: Machine, p: Proc, t: Timer, now: int, out: Spawn, race: Race, shutdown: bool)
    requires Tally(m0, p.m) && (t.Restarting? ==> p.m.state == Exited)
    ensures Tally(m0, Fired(p, t, now, out, race, shutdown).p.m)
  {
    hide Tally, ProcessStarted, RetryFromBackoff, StopLocked, SpawnLocked, RequestStart;
    MachineKeepsTally(m0, p.m, now);
    StopKeepsTally(m0, p, now);
    SpawnKeepsTally(m0, p.(m := RetryFromBackoff(p.m, now).0), now, out, race);
    if p.m.state == Exited {
      SpawnKeepsTally(m0, p.(m := RequestStart(p.m, now).0), now, out, race);
    }
  }

  /** The events of a program left to itself: no explicit start, no new limits. */
  predicate Unattended(es: seq<Event>) {
    forall i :: 0 <= i < |es| ==> !es[i].Start? && !es[i].Update?
  }

  lemma {:induction false} StepKeepsTally(m0: Machine, s: Sys, e: Event)
    requires Tally(m0, s.p.m)
    requires !e.Start? && !e.Update?
    ensures Tally(m0, Step(s, e).p.m)
  {
    hide Tally, ProcessStarted, StopLocked, HandleExit, Fired, Ends;
    if Enabled(s, e) {
      match e
      case Stop => StopKeepsTally(m0, s.p, s.now);
      case Exit(_, code, race) => ExitKeepsTally(m0, s.p, s.now, code, s.shutdown, race);
      case Begin(t) => MachineKeepsTally(m0, s.p.m, s.now);
      case Fire(t, out, race) => FiredKeepsTally(m0, s.p, t, s.now, out, race, s.shutdown);
      case _ =>
    }
  }

  lemma {:induction false} RunKeepsTally(m0: Machine, s: Sys, es: seq<Event>)
    requires Tally(m0, s.p.m) && Unattended(es)
    ensures Tally(m0, Run(s, es).p.m)
    decreases es
  {
    hide Step, Tally;
    if es != [] {
      StepKeepsTally(m0, s, es[0]);
      RunKeepsTally(m0, Step(s, es[0]), es[1..]);
    }
  }

  lemma FirstRequestTally(p: Proc, now: int)
    requires Startable(p)
    ensures Tally(p.m, RequestStart(p.m, now).0)
  {
    CountApply(p.m.(manualStop := false), Starting, now);
  }

  lemma {:induction false} FirstAttempt(s: Sys, out: Spawn, race: Race)
    requires Startable(s.p) && Enabled(s, Start(out, race))
    ensures Tally(s.p.m, Step(s, Start(out, race)).p.m)
  {
    hide Tally, SpawnLocked, Ends;
    FirstRequestTally(s.p, s.now);
    SpawnKeepsTally(s.p.m, s.p.(m := RequestStart(s.p.m, s.now).0), s.now, out, race);
  }

  /** How many attempts a start gives a program: what is left of startretries + 1, and one in any case. */
  function Allowance(m: Machine): int {
    if m.retries <= m.maxRetries then m.maxRetries - m.retries + 1 else 1
  }

  /**
    A program started in any state that allows it, and left to itself: as long
    as it is not RUNNING it is tried at most as often as its allowance says,
    and it is FATAL exactly when that many attempts have failed. The failures
    counted before the start, since it was last RUNNING, are not forgotten:
    after FATAL a single failed attempt is FATAL again.
   */
  lemma TriedSince(s: Sys, out: Spawn, race: Race, es: seq<Event>)
    requires Startable(s.p) && Enabled(s, Start(out, race)) && Unattended(es)
    ensures var m0, m := s.p.m, Run(Step(s, Start(out, race)), es).p.m;
      var attempts, failures := Since(m0, m, Starting), Since(m0, m, Backoff);
      Since(m0, m, Running) == 0 ==>
        && 1 <= attempts <= Allowance(m0)
        && (m.state == Fatal <==> failures == Allowance(m0))
        && (m.state == Fatal ==> attempts == Allowance(m0))
  {
    hide Step, Run, Count, Enabled, Startable;
    FirstAttempt(s, out, race);
    RunKeepsTally(s.p.m, Step(s, Start(out, race)), es);
  }

  /** In particular a new program is tried exactly startretries + 1 times before it is FATAL. */
  lemma TriedExactly(cfg: ProgramConfig, now: int, shutdown: bool, out: Spawn, es: seq<Event>)
    requires Unattended(es)
    ensures var m := Run(Step(Fresh(cfg, now, shutdown), Start(out, NoRace)), es).p.m;
      var attempts, failures := Count(m.history, Starting), Count(m.history, Backoff);
      Count(m.history, Running) == 0 ==>
        && attempts <= cfg.sup.startretries + 1
        && (m.state == Fatal <==> failures == cfg.sup.startretries + 1)
        && (m.state == Fatal ==> attempts == cfg.sup.startretries + 1)
  {
    var s := Fresh(cfg, now, shutdown);
    assert Enabled(s, Start(out, NoRace));
    hide Step, Run, Enabled;
    TriedSince(s, out, NoRace, es);
  }
}
