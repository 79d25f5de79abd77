/**
  The per-process automaton of internal/process/state.go.

  `Machine` is the value of a state machine together with the list of
  transitions it has taken.
 */
module Machines {

  datatype State = Stopped | Starting | Running | Backoff | Stopping | Exited | Fatal

  /** Durations and clock readings are in nanoseconds, as time.Duration is. */
  function Seconds(n: int): int {
    1_000_000_000 * n
  }

  /** The transition table. */
  predicate Allowed(from: State, to: State) {
    match from
    case Stopped => to == Starting
    case Starting => to == Running || to == Backoff || to == Stopping
    case Running => to == Stopping || to == Exited
    case Backoff => to == Starting || to == Fatal || to == Stopped
    case Stopping => to == Stopped || to == Exited
    case Exited => to == Starting
    case Fatal => to == Starting
  }

  /** The edges of the state chart. */
  const EDGES: set<(State, State)> := {
    (Stopped, Starting),
    (Starting, Running), (Starting, Backoff), (Starting, Stopping),
    (Running, Stopping), (Running, Exited),
    (Backoff, Starting), (Backoff, Fatal), (Backoff, Stopped),
    (Stopping, Stopped), (Stopping, Exited),
    (Exited, Starting), (Fatal, Starting)}

  lemma TableIsChart(from: State, to: State)
    ensures Allowed(from, to) <==> (from, to) in EDGES
  {}

  /** One transition taken: its target, when it was taken, and the startsecs in force then. */
  datatype Entry = Entry(target: State, at: int, startsecs: int)

  datatype Machine = Machine(
    state: State,
    retries: int,
    maxRetries: int,
    startsecs: int,
    startedAt: int,
    manualStop: bool,
    history: seq<Entry>)

  function NewMachine(startsecs: int, startretries: int): Machine {
    Machine(Stopped, 0, startretries, Seconds(startsecs), 0, false, [])
  }

  /** applyTransition: the effects of entering `target`. */
  function Apply(m: Machine, target: State, now: int): Machine {
    m.(state := target,
       startedAt := if target == Starting then now else m.startedAt,
       retries := if target == Running then 0 else if target == Backoff then m.retries + 1 else m.retries,
       history := m.history + [Entry(target, now, m.startsecs)])
  }

  /** transitionLocked: the machine afterwards, and whether the move was allowed. */
  function Transition(m: Machine, target: State, now: int): (Machine, bool) {
    if Allowed(m.state, target) then (Apply(m, target, now), true) else (m, false)
  }

  /** manualStop is cleared even when the transition is then refused. */
  function RequestStart(m: Machine, now: int): (Machine, bool) {
    Transition(m.(manualStop := false), Starting, now)
  }

  function RequestStop(m: Machine, now: int): (Machine, bool) {
    Transition(m.(manualStop := true), Stopping, now)
  }

  function ProcessStarted(m: Machine, now: int): Machine {
    if m.state == Starting && now - m.startedAt >= m.startsecs then Apply(m, Running, now) else m
  }

  function ProcessExitedEarly(m: Machine, now: int): (Machine, bool) {
    if m.state != Starting then (m, false)
    else
      var b := Apply(m, Backoff, now);
      if b.retries > b.maxRetries then (Apply(b, Fatal, now), true) else (b, true)
  }

  function ProcessExited(m: Machine, now: int): (Machine, bool) {
    match m.state
    case Running => (Apply(m, Exited, now), true)
    case Stopping => (Apply(m, Stopped, now), true)
    case _ => (m, false)
  }

  function RetryFromBackoff(m: Machine, now: int): (Machine, bool) {
    if m.state == Backoff then Transition(m, Starting, now) else (m, false)
  }

  function SetLimits(m: Machine, startsecs: int, startretries: int): Machine {
    m.(startsecs := Seconds(startsecs), maxRetries := startretries)
  }

  // ---------------------------------------------------------------------
  // What a list of transitions says, independently of the machine's fields
  // ---------------------------------------------------------------------

  function CurrentState(h: seq<Entry>): State {
    if h == [] then Stopped else h[|h| - 1].target
  }

  /** Every transition is one the table allows, starting from STOPPED. */
  ghost predicate FollowsTable(h: seq<Entry>) {
    h == [] ||
    var before := h[..|h| - 1];
    FollowsTable(before) && Allowed(CurrentState(before), CurrentState(h))
  }

  /** Failed start attempts (entries into BACKOFF) since RUNNING was last entered. */
  function FailuresSinceRunning(h: seq<Entry>): nat {
    if h == [] then 0
    else
      var last := h[|h| - 1];
      var before := h[..|h| - 1];
      if last.target == Running then 0
      else FailuresSinceRunning(before) + if last.target == Backoff then 1 else 0
  }

  /** How many times `s` was entered. */
  function Count(h: seq<Entry>, s: State): nat {
    if h == [] then 0
    else Count(h[..|h| - 1], s) + if h[|h| - 1].target == s then 1 else 0
  }

  /**
    RUNNING was only ever entered straight from STARTING, after that very
    attempt had lasted the startsecs in force at the moment of entry.
   */
  ghost predicate RunningWasEarned(h: seq<Entry>) {
    forall i :: 0 <= i < |h| && h[i].target == Running ==>
      && i > 0
      && h[i - 1].target == Starting
      && h[i].at - h[i - 1].at >= h[i].startsecs
  }

  /** The fields of a machine agree with the transitions it has taken. */
  ghost predicate Consistent(m: Machine) {
    && m.state == CurrentState(m.history)
    && m.retries == FailuresSinceRunning(m.history)
    && (m.state == Starting ==> m.startedAt == m.history[|m.history| - 1].at)
    && FollowsTable(m.history)
    && RunningWasEarned(m.history)
  }

  /** The one induction step behind every operation of the machine. */
  lemma {:induction false} ApplyKeepsConsistent(m: Machine, target: State, now: int)
    requires Consistent(m)
    requires Allowed(m.state, target)
    requires target == Running ==> now - m.startedAt >= m.startsecs
    ensures Consistent(Apply(m, target, now))
  {
    var h' := Apply(m, target, now).history;
    assert h'[..|h'| - 1] == m.history;
  }

  // No operation of the machine, whether it succeeds or is refused, breaks its consistency.

  lemma TransitionKeepsConsistent(m: Machine, target: State, now: int)
    requires Consistent(m)
    requires target != Running
    ensures Consistent(Transition(m, target, now).0)
  {
    if Allowed(m.state, target) {
      ApplyKeepsConsistent(m, target, now);
    }
  }

  lemma ProcessStartedKeepsConsistent(m: Machine, now: int)
    requires Consistent(m)
    ensures Consistent(ProcessStarted(m, now))
  {
    if m.state == Starting && now - m.startedAt >= m.startsecs {
      ApplyKeepsConsistent(m, Running, now);
    }
  }

  lemma ProcessExitedEarlyKeepsConsistent(m: Machine, now: int)
    requires Consistent(m)
    ensures Consistent(ProcessExitedEarly(m, now).0)
  {
    if m.state == Starting {
      ApplyKeepsConsistent(m, Backoff, now);
      ApplyKeepsConsistent(Apply(m, Backoff, now), Fatal, now);
    }
  }

  lemma ProcessExitedKeepsConsistent(m: Machine, now: int)
    requires Consistent(m)
    ensures Consistent(ProcessExited(m, now).0)
  {
    if m.state == Running {
      ApplyKeepsConsistent(m, Exited, now);
    } else if m.state == Stopping {
      ApplyKeepsConsistent(m, Stopped, now);
    }
  }
}
