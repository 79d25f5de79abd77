/**
  The process object of internal/process/process.go. Every method is one
  critical section of `Process.mu`, written as the source writes it and proved
  against the function of the same name on `Proc` values.

  The clock reading, the answer of the operating system to a spawn, the state
  of the daemon's shutdown channel and a start watcher that cuts in are
  parameters.
 */
module Processes {
  import opened Basics
  import opened Configs
  import opened Machines
  import opened StateMachines
  import L = Lifecycle
  import opened LifecycleSafety

  class Process {
    var cfg: ProgramConfig
    const sm: StateMachine
    var spawned: Option<int>
    var stopCh: nat
    var killDoneCh: Option<nat>
    var made: nat
    var closed: set<nat>
    var retired: bool
    /** Goroutines launched and not yet returned. */
    var goroutines: multiset<L.Timer>

    ghost function View(): L.Proc
      reads this, sm
    {
      L.Proc(cfg, sm.View(), spawned, stopCh, killDoneCh, made, closed, false, retired)
    }

    ghost predicate Valid()
      reads this, sm
    {
      Inv(View())
    }

    constructor (cfg: ProgramConfig)
      ensures Valid() && fresh(sm)
      ensures View() == L.NewProc(cfg) && goroutines == multiset{}
    {
      this.cfg := cfg;
      this.sm := new StateMachine(cfg.sup.startsecs, cfg.sup.startretries);
      this.spawned, this.killDoneCh, this.retired := None, None, false;
      this.stopCh, this.made, this.closed := 0, 1, {};
      this.goroutines := multiset{};
    }

    /** make(chan struct{}). */
    method MakeChannel() returns (ch: nat)
      modifies this`made
      ensures ch == old(made) && made == old(made) + 1
    {
      ch := made;
      made := made + 1;
    }

    /** close(ch), which panics on a closed channel: every caller must show that it is open. */
    method CloseChannel(ch: nat)
      requires ch !in closed
      modifies this`closed
      ensures closed == old(closed) + {ch}
    {
      closed := closed + {ch};
    }

    /** The state machine while another goroutine holds only its lock. */
    method Interleave(now: int, race: L.Race)
      modifies sm
      ensures View() == L.Promote(old(View()), now, race)
    {
      if race.Promotion? {
        sm.ProcessStarted(now + race.after);
      }
    }

    method FailStartLocked(now: int)
      modifies this`goroutines, sm
      ensures var after := L.FailStart(old(View()), now);
        View() == after.p && goroutines == old(goroutines) + L.Launched(after.launched)
    {
      var newState, _ := sm.ProcessExitedEarly(now);
      if newState == Backoff {
        goroutines := goroutines + multiset{L.Retry(stopCh, None)};
      }
    }

    method SpawnLocked(now: int, out: L.Spawn, race: L.Race) returns (ok: bool)
      modifies this`spawned, this`goroutines, sm
      ensures var after := L.SpawnLocked(old(View()), now, out, race);
        View() == after.p && goroutines == old(goroutines) + L.Launched(after.launched)
      ensures ok == out.Child?
    {
      Interleave(now, race);
      var later := L.Later(now, race);
      match out {
        case Failure =>
          FailStartLocked(later);
          return false;
        case Child(pid) =>
          spawned := Some(pid);
          if cfg.sup.startsecs == 0 {
            sm.ProcessStarted(later);
          } else {
            goroutines := goroutines + multiset{L.StartWatch(stopCh, None)};
          }
          return true;
      }
    }

    method Start(now: int, out: L.Spawn, race: L.Race) returns (ok: bool)
      requires Valid()
      modifies this`spawned, this`goroutines, sm
      ensures Valid()
      ensures var after := L.StartLocked(old(View()), now, out, race);
        View() == after.p && goroutines == old(goroutines) + L.Launched(after.launched)
      ensures ok <==> !old(retired) && old(sm.state) in {Stopped, Exited, Fatal} && out.Child?
      ensures ok ==> old(spawned).None? && spawned == Some(out.pid)
    {
      StartLockedKeepsInv(View(), now, out, race);
      if retired {
        return false;
      }
      match sm.state {
        case Starting => return false;
        case Running => return false;
        case Backoff => return false;
        case _ =>
      }
      ok := sm.RequestStart(now);
      if !ok {
        return;
      }
      ok := SpawnLocked(now, out, race);
    }

    method StopLocked(now: int) returns (ok: bool)
      modifies this, sm
      ensures var after := L.StopLocked(old(View()), now);
        View() == after.p && goroutines == old(goroutines) + L.Launched(after.launched)
      ensures ok == L.StopAccepted(old(View()))
    {
      var state := sm.state;
      if state == Backoff {
        ok := sm.TransitionTo(Stopped, now);
        if stopCh !in closed {
          CloseChannel(stopCh);
        }
        stopCh := MakeChannel();
        return true;
      }
      if state == Stopping {
        return true;
      }
      if state != Running && state != Starting {
        return false;
      }
      ok := sm.RequestStop(now);
      if stopCh !in closed {
        CloseChannel(stopCh);
      }
      var killDone := MakeChannel();
      killDoneCh := Some(killDone);
      goroutines := goroutines + multiset{L.StopWatch(killDone, None)};
      return true;
    }

    method Stop(now: int) returns (ok: bool)
      requires Valid()
      modifies this, sm
      ensures Valid()
      ensures var after := L.StopLocked(old(View()), now);
        View() == after.p && goroutines == old(goroutines) + L.Launched(after.launched)
      ensures ok == L.StopAccepted(old(View()))
      ensures ok <==> old(sm.state) in {Starting, Running, Backoff, Stopping}
    {
      hide L.StopLocked, Inv;
      StopLockedKeepsInv(View(), now);
      ok := StopLocked(now);
    }

    method Retire()
      requires Valid()
      modifies this`retired
      ensures Valid() && View() == old(View()).(retired := true)
    {
      retired := true;
    }

    method UpdateConfig(cfg: ProgramConfig)
      requires Valid()
      modifies this`cfg, sm
      ensures Valid() && View() == L.UpdateConfig(old(View()), cfg)
    {
      this.cfg := cfg;
      sm.SetLimits(cfg.sup.startsecs, cfg.sup.startretries);
    }

    method ShouldRestart(code: int, shutdown: bool) returns (restart: bool)
      ensures restart == L.ShouldRestart(View(), code, shutdown)
    {
      if shutdown {
        return false;
      }
      if sm.manualStop {
        return false;
      }
      match cfg.sup.autorestart {
        case Always => return true;
        case Never => return false;
        case Unexpected =>
          for i := 0 to |cfg.sup.exitcodes|
            invariant code !in cfg.sup.exitcodes[..i]
          {
            if code == cfg.sup.exitcodes[i] {
              return false;
            }
          }
          return true;
      }
    }

    /** The state switch at the head of HandleExitStatus. */
    method ExitSwitch(now: int, code: int, shutdown: bool, race: L.Race)
      modifies this, sm
      ensures var after := L.ExitSwitch(old(View()), now, code, shutdown, race);
        View() == after.p && goroutines == old(goroutines) + L.Launched(after.launched)
    {
      var state := sm.state;
      match state {
        case Starting =>
          Interleave(now, race);
          var later := L.Later(now, race);
          var newState, _ := sm.ProcessExitedEarly(later);
          if newState == Backoff {
            if shutdown {
              var _ := StopLocked(later);
            } else {
              goroutines := goroutines + multiset{L.Retry(stopCh, None)};
            }
          }
        case Running =>
          var _ := sm.ProcessExited(now);
          var restart := ShouldRestart(code, shutdown);
          if restart {
            goroutines := goroutines + multiset{L.Restart};
          }
        case Stopping =>
          var _ := sm.ProcessExited(now);
        case _ =>
      }
    }

    method HandleExitStatus(now: int, code: int, shutdown: bool, race: L.Race)
      requires Valid()
      modifies this, sm
      ensures Valid()
      ensures var after := L.HandleExit(old(View()), now, code, shutdown, race);
        View() == after.p && goroutines == old(goroutines) + L.Launched(after.launched)
    {
      ExitSwitchKeeps(View(), now, code, shutdown, race);
      HandleExitKeepsInv(View(), now, code, shutdown, race);
      hide L.ExitSwitch;
      ExitSwitch(now, code, shutdown, race);
      if killDoneCh.Some? {
        CloseChannel(killDoneCh.value);
        killDoneCh := None;
      }
      spawned := None;
      stopCh := MakeChannel();
    }

    /** The body of retryAfterBackoff once its timer is up. */
    method RetryAfterBackoff(now: int, out: L.Spawn, race: L.Race, shutdown: bool)
      requires Valid()
      modifies this, sm
      ensures Valid()
      ensures var after := L.RetryFired(old(View()), now, out, race, shutdown);
        View() == after.p && goroutines == old(goroutines) + L.Launched(after.launched)
    {
      RetryFiredKeepsInv(View(), now, out, race, shutdown);
      if sm.state != Backoff || retired {
        return;
      }
      if shutdown {
        var _ := StopLocked(now);
        return;
      }
      var ok := sm.RetryFromBackoff(now);
      ok := SpawnLocked(now, out, race);
    }

    method RestartAfterExit(now: int, out: L.Spawn, race: L.Race, shutdown: bool)
      requires Valid()
      modifies this`spawned, this`goroutines, sm
      ensures Valid()
      ensures var after := L.AutorestartFired(old(View()), now, out, race, shutdown);
        View() == after.p && goroutines == old(goroutines) + L.Launched(after.launched)
    {
      if sm.state != Exited || shutdown {
        return;
      }
      var _ := Start(now, out, race);
    }
  }
}
