/**
  The state machine object of internal/process/state.go: its methods update
  the fields in place, each proved against the function on `Machine` values.
 */
module StateMachines {
  import opened Machines

  class StateMachine {
    var state: State
    var retries: int
    var maxRetries: int
    var startsecs: int
    var startedAt: int
    var manualStop: bool
    ghost var history: seq<Entry>

    ghost function View(): Machine
      reads this
    {
      Machine(state, retries, maxRetries, startsecs, startedAt, manualStop, history)
    }

    constructor (startsecs: int, startretries: int)
      ensures View() == NewMachine(startsecs, startretries)
    {
      this.state, this.retries, this.maxRetries := Stopped, 0, startretries;
      this.startsecs := Seconds(startsecs);
      this.startedAt, this.manualStop, this.history := 0, false, [];
    }

    method ApplyTransition(target: State, now: int)
      modifies this
      ensures View() == Apply(old(View()), target, now)
    {
      history := history + [Entry(target, now, startsecs)];
      state := target;
      match target {
        case Starting => startedAt := now;
        case Running => retries := 0;
        case Backoff => retries := retries + 1;
        case _ =>
      }
    }

    method TransitionTo(target: State, now: int) returns (ok: bool)
      modifies this
      ensures (View(), ok) == Transition(old(View()), target, now)
    {
      ok := Allowed(state, target);
      if ok {
        ApplyTransition(target, now);
      }
    }

    method SetLimits(startsecs: int, startretries: int)
      modifies this
      ensures View() == Machines.SetLimits(old(View()), startsecs, startretries)
    {
      this.startsecs := Seconds(startsecs);
      this.maxRetries := startretries;
    }

    method RequestStart(now: int) returns (ok: bool)
      modifies this
      ensures (View(), ok) == Machines.RequestStart(old(View()), now)
      ensures !manualStop
    {
      manualStop := false;
      ok := TransitionTo(Starting, now);
    }

    method RequestStop(now: int) returns (ok: bool)
      modifies this
      ensures (View(), ok) == Machines.RequestStop(old(View()), now)
      ensures manualStop
    {
      manualStop := true;
      ok := TransitionTo(Stopping, now);
    }

    method ProcessStarted(now: int)
      modifies this
      ensures View() == Machines.ProcessStarted(old(View()), now)
    {
      if state != Starting {
        return;
      }
      var elapsed := now - startedAt;
      if elapsed >= startsecs {
        ApplyTransition(Running, now);
      }
    }

    method ProcessExitedEarly(now: int) returns (newState: State, ok: bool)
      modifies this
      ensures (View(), ok) == Machines.ProcessExitedEarly(old(View()), now)
      ensures newState == state
    {
      if state != Starting {
        return state, false;
      }
      ApplyTransition(Backoff, now);
      if retries > maxRetries {
        ApplyTransition(Fatal, now);
      }
      return state, true;
    }

    method ProcessExited(now: int) returns (ok: bool)
      modifies this
      ensures (View(), ok) == Machines.ProcessExited(old(View()), now)
    {
      match state {
        case Running =>
          ok := TransitionTo(Exited, now);
        case Stopping =>
          ok := TransitionTo(Stopped, now);
        case _ =>
          ok := false;
      }
    }

    method RetryFromBackoff(now: int) returns (ok: bool)
      modifies this
      ensures (View(), ok) == Machines.RetryFromBackoff(old(View()), now)
    {
      if state != Backoff {
        return false;
      }
      ok := TransitionTo(Starting, now);
    }
  }
}
