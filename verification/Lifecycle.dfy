/**
  The life of one supervised process: internal/process/process.go as a
  transition system.

  A step is one critical section of `Process.mu`, one move of a goroutine
  (start watcher, stop watcher, backoff retry, autorestart), or one action of
  the environment. The start watcher promotes STARTING to RUNNING under the
  state machine's own lock, so it may also land in the middle of another
  goroutine's critical section; `Race` is that interleaving.
 */
module Lifecycle {
  import opened Basics
  import opened Configs
  import opened Machines
  import opened BackoffDelays

  /**
    A goroutine that has been launched and has not returned. A watcher or a
    retry holds the channel it was given; `due` is None until it has armed its
    timer. Restart is an autorestart that waits for the process's lock;
    Restarting is one that holds it and has found EXITED and no shutdown.
   */
  datatype Timer =
    | StartWatch(ch: nat, due: Option<int>)
    | StopWatch(ch: nat, due: Option<int>)
    | Retry(ch: nat, due: Option<int>)
    | Restart
    | Restarting

  /**
    A process between two steps. Channels are numbered in order of creation;
    closing one a second time panics.
   */
  datatype Proc = Proc(
    cfg: ProgramConfig,
    m: Machine,
    child: Option<int>,
    stopCh: nat,
    killCh: Option<nat>,
    made: nat,
    closed: set<nat>,
    panicked: bool,
    retired: bool)

  /** NewProcess. */
  function NewProc(cfg: ProgramConfig): Proc {
    Proc(cfg, NewMachine(cfg.sup.startsecs, cfg.sup.startretries), None, 0, None, 1, {}, false, false)
  }

  /** What a critical section leaves: the process, and the goroutine it launched, if any. */
  datatype Section = Section(p: Proc, launched: Option<Timer>)

  /** What the operating system answers to a spawn. */
  datatype Spawn = Child(pid: int) | Failure

  /** A start watcher that fires inside a critical section, `after` nanoseconds into it. */
  datatype Race = NoRace | Promotion(watcher: Timer, after: nat)

  function Later(now: int, race: Race): int {
    if race.NoRace? then now else now + race.after
  }

  function Promote(p: Proc, now: int, race: Race): Proc {
    if race.NoRace? then p else p.(m := ProcessStarted(p.m, now + race.after))
  }

  // ---------------------------------------------------------------------
  // Critical sections
  // ---------------------------------------------------------------------

  /** close(ch). */
  function Close(p: Proc, ch: nat): Proc {
    p.(closed := p.closed + {ch}, panicked := p.panicked || ch in p.closed)
  }

  /** The stop channel is closed behind a select that finds out whether it is closed already. */
  function CloseStop(p: Proc): Proc {
    if p.stopCh in p.closed then p else Close(p, p.stopCh)
  }

  function FailStart(p: Proc, now: int): Section {
    var m' := ProcessExitedEarly(p.m, now).0;
    Section(p.(m := m'), if m'.state == Backoff then Some(Retry(p.stopCh, None)) else None)
  }

  function SpawnLocked(p: Proc, now: int, out: Spawn, race: Race): Section {
    var q := Promote(p, now, race);
    var later := Later(now, race);
    match out
    case Failure => FailStart(q, later)
    case Child(pid) =>
      if q.cfg.sup.startsecs == 0
      then Section(q.(child := Some(pid), m := ProcessStarted(q.m, later)), None)
      else Section(q.(child := Some(pid)), Some(StartWatch(q.stopCh, None)))
  }

  /** A start in these states is refused as "already started"; a bulk stop must stop them (stoppable). */
  predicate AlreadyUp(s: State) {
    s == Starting || s == Running || s == Backoff
  }

  /** Whether startLocked gets as far as the spawn. */
  predicate Startable(p: Proc) {
    !p.retired && (p.m.state == Stopped || p.m.state == Exited || p.m.state == Fatal)
  }

  /** startLocked refuses a retired process, one that is already up, and one that is STOPPING. */
  function StartLocked(p: Proc, now: int, out: Spawn, race: Race): Section {
    if p.retired || AlreadyUp(p.m.state) then Section(p, None)
    else
      var (m', ok) := RequestStart(p.m, now);
      if ok then SpawnLocked(p.(m := m'), now, out, race) else Section(p.(m := m'), None)
  }

  function StopLocked(p: Proc, now: int): Section {
    match p.m.state
    case Backoff =>
      Section(CloseStop(p).(m := Transition(p.m, Stopped, now).0,
                            stopCh := p.made, made := p.made + 1), None)
    case Running | Starting =>
      Section(CloseStop(p).(m := RequestStop(p.m, now).0,
                            killCh := Some(p.made), made := p.made + 1),
              Some(StopWatch(p.made, None)))
    case _ => Section(p, None)
  }

  /** Whether Stop returns without an error. */
  predicate StopAccepted(p: Proc) {
    AlreadyUp(p.m.state) || p.m.state == Stopping
  }

  predicate ShouldRestart(p: Proc, code: int, shutdown: bool) {
    && !shutdown
    && !p.m.manualStop
    && (p.cfg.sup.autorestart == Always
        || (p.cfg.sup.autorestart == Unexpected && code !in p.cfg.sup.exitcodes))
  }

  /** The state switch of HandleExitStatus, before its common tail. */
  function ExitSwitch(p: Proc, now: int, code: int, shutdown: bool, race: Race): Section {
    match p.m.state
    case Starting =>
      var q := Promote(p, now, race);
      var later := Later(now, race);
      var r := q.(m := ProcessExitedEarly(q.m, later).0);
      if r.m.state != Backoff then Section(r, None)
      else if shutdown then StopLocked(r, later)
      else Section(r, Some(Retry(r.stopCh, None)))
    case Running =>
      var q := p.(m := ProcessExited(p.m, now).0);
      Section(q, if ShouldRestart(q, code, shutdown) then Some(Restart) else None)
    case Stopping => Section(p.(m := ProcessExited(p.m, now).0), None)
    case _ => Section(p, None)
  }

  /** The tail of HandleExitStatus: the kill channel is closed, the child forgotten, the stop channel replaced. */
  function ExitTail(p: Proc): Proc {
    var q := if p.killCh.Some? then Close(p, p.killCh.value) else p;
    q.(killCh := None, child := None, stopCh := q.made, made := q.made + 1)
  }

  function HandleExit(p: Proc, now: int, code: int, shutdown: bool, race: Race): Section {
    var s := ExitSwitch(p, now, code, shutdown, race);
    s.(p := ExitTail(s.p))
  }

  function UpdateConfig(p: Proc, cfg: ProgramConfig): Proc {
    p.(cfg := cfg, m := SetLimits(p.m, cfg.sup.startsecs, cfg.sup.startretries))
  }

  function RetryFired(p: Proc, now: int, out: Spawn, race: Race, shutdown: bool): Section {
    if p.m.state != Backoff || p.retired then Section(p, None)
    else if shutdown then StopLocked(p, now)
    else SpawnLocked(p.(m := RetryFromBackoff(p.m, now).0), now, out, race)
  }

  /** What an autorestart checks when it has the lock. */
  predicate MayRestart(p: Proc, shutdown: bool) {
    p.m.state == Exited && !shutdown
  }

  function AutorestartFired(p: Proc, now: int, out: Spawn, race: Race, shutdown: bool): Section {
    if MayRestart(p, shutdown) then StartLocked(p, now, out, race) else Section(p, None)
  }

  /** What a goroutine does when its timer is up; an autorestart goes on from its checks to the start. */
  function Fired(p: Proc, t: Timer, now: int, out: Spawn, race: Race, shutdown: bool): Section {
    match t
    case StartWatch(_, _) => Section(p.(m := ProcessStarted(p.m, now)), None)
    case StopWatch(_, _) => Section(p, None)   // sends SIGKILL, which changes nothing here
    case Retry(_, _) => RetryFired(p, now, out, race, shutdown)
    case Restart => Section(p, None)
    case Restarting => StartLocked(p, now, out, race)
  }

  /** The delay a goroutine arms its timer with, read when it begins to run. */
  function TimerDelay(p: Proc, t: Timer): int {
    match t
    case StartWatch(_, _) => Seconds(p.cfg.sup.startsecs)
    case StopWatch(_, _) => Seconds(p.cfg.sup.stopwaitsecs)
    case Retry(_, _) => Delay(p.m.retries)
    case Restart | Restarting => 0
  }

  /**
    A goroutine begins: it arms its timer, or with startsecs 0 promotes at once
    and ends; an autorestart makes its checks, and keeps the lock if they pass.
   */
  function Begun(p: Proc, t: Timer, now: int, shutdown: bool): Section
    requires !t.Restarting?
  {
    if t.Restart? then Section(p, if MayRestart(p, shutdown) then Some(Restarting) else None)
    else if t.StartWatch? && p.cfg.sup.startsecs == 0
    then Section(p.(m := ProcessStarted(p.m, now)), None)
    else Section(p, Some(t.(due := Some(now + TimerDelay(p, t)))))
  }

  // ---------------------------------------------------------------------
  // Runs
  // ---------------------------------------------------------------------

  /** A process, its goroutines, the clock and the daemon's shutdown channel. */
  datatype Sys = Sys(p: Proc, pending: multiset<Timer>, now: int, shutdown: bool)

  datatype Event =
    | Tick(d: nat)
    | BeginShutdown
    | Start(out: Spawn, race: Race)
    | Stop
    | Retire
    | Update(cfg: ProgramConfig)
    | Exit(pid: int, code: int, race: Race)
    | Begin(t: Timer)
    | Fire(t: Timer, out: Spawn, race: Race)
    | Cancel(t: Timer)

  /** The start watcher that fires in the middle of the event's critical section. */
  function RaceOf(e: Event): Race {
    match e
    case Start(_, race) => race
    case Exit(_, _, race) => race
    case Fire(_, _, race) => race
    case _ => NoRace
  }

  /** The goroutines that end with the event. */
  function Ends(e: Event): multiset<Timer> {
    var own := match e
      case Begin(t) => multiset{t}
      case Fire(t, _, _) => multiset{t}
      case Cancel(t) => multiset{t}
      case _ => multiset{};
    match RaceOf(e)
    case NoRace => own
    case Promotion(watcher, _) => own + multiset{watcher}
  }

  /** The timer of a goroutine is up by `now`. */
  predicate Due(t: Timer, now: int) {
    match t
    case Restart => false
    case Restarting => true
    case _ => t.due.Some? && t.due.value <= now
  }

  /** The event's critical section passes through STARTING, where a start watcher can cut in. */
  predicate PassesStarting(s: Sys, e: Event) {
    match e
    case Start(_, _) => Startable(s.p)
    case Exit(_, _, _) => s.p.m.state == Starting
    case Fire(Retry(_, _), _, _) => s.p.m.state == Backoff && !s.p.retired && !s.shutdown
    case Fire(Restarting, _, _) => s.p.m.state == Exited && !s.p.retired
    case _ => false
  }

  /**
    An autorestart holds the lock, between its checks and its start. The other
    sections are single steps, so they are never seen to hold it.
   */
  predicate Locked(s: Sys) {
    Restarting in s.pending && s.p.m.state == Exited
  }

  /** The event needs the lock, and would do something in EXITED. */
  predicate NeedsLock(e: Event) {
    e.Start? || e.Stop? || e.Retire? || e.Update? || (e.Begin? && e.t.Restart?)
  }

  /** When the environment or the scheduler can take a step. */
  predicate Enabled(s: Sys, e: Event) {
    && Ends(e) <= s.pending
    && (NeedsLock(e) ==> !Locked(s))
    && (match RaceOf(e)
        case NoRace => true
        case Promotion(w, after) => PassesStarting(s, e) && w.StartWatch? && Due(w, s.now + after))
    && (match e
        case Exit(pid, _, _) => s.p.child == Some(pid)
        case Begin(t) => t.Restart? || (!t.Restarting? && t.due.None?)
        case Fire(t, _, _) => Due(t, s.now) && (t.Restarting? ==> s.p.m.state == Exited)
        case Cancel(t) => !t.Restart? && !t.Restarting? && t.due.Some? && t.ch in s.p.closed
        case _ => true)
  }

  function Effect(s: Sys, e: Event): Section
    requires Enabled(s, e)
  {
    match e
    case Start(out, race) => StartLocked(s.p, s.now, out, race)
    case Stop => StopLocked(s.p, s.now)
    case Retire => Section(s.p.(retired := true), None)
    case Update(cfg) => Section(UpdateConfig(s.p, cfg), None)
    case Exit(_, code, race) => HandleExit(s.p, s.now, code, s.shutdown, race)
    case Begin(t) => Begun(s.p, t, s.now, s.shutdown)
    case Fire(t, out, race) => Fired(s.p, t, s.now, out, race, s.shutdown)
    case _ => Section(s.p, None)
  }

  function Launched(t: Option<Timer>): multiset<Timer> {
    match t
    case None => multiset{}
    case Some(t) => multiset{t}
  }

  /** One step; an event that cannot happen leaves everything as it is. */
  function Step(s: Sys, e: Event): Sys {
    if !Enabled(s, e) then s
    else
      var section := Effect(s, e);
      Sys(section.p,
          s.pending - Ends(e) + Launched(section.launched),
          if e.Tick? then s.now + e.d else Later(s.now, RaceOf(e)),
          s.shutdown || e.BeginShutdown?)
  }

  function Run(s: Sys, es: seq<Event>): Sys
    decreases es
  {
    if es == [] then s else Run(Step(s, es[0]), es[1..])
  }

  /** A process as the manager creates it. */
  function Fresh(cfg: ProgramConfig, now: int, shutdown: bool): Sys {
    Sys(NewProc(cfg), multiset{}, now, shutdown)
  }
}
