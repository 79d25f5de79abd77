/** internal/process/reload.go: from one config to the next while the processes live on. */
module Reloads {
  import opened Basics
  import opened Configs
  import opened Machines
  import opened Lifecycle
  import opened LifecycleSafety
  import opened LifecycleRuns
  import opened Worlds
  import opened Ordering
  import opened Names
  import opened Instances
  import opened Managers

  // ---------------------------------------------------------------------
  // How far a program has been taken down
  // ---------------------------------------------------------------------

  /** 1: retired. 2: retired and not up. 3: retired and at rest, which is for good. */
  predicate Reached(p: Proc, stage: nat) {
    && (stage >= 1 ==> p.retired)
    && (stage >= 2 ==> !AlreadyUp(p.m.state))
    && (stage >= 3 ==> Terminal(p.m.state))
  }

  ghost predicate AllReached(w: World, program: string, stage: nat) {
    forall n :: n in w.procs && w.procs[n].group == program ==> Reached(w.procs[n].p, stage)
  }

  lemma ReachedStays(w: World, w': World, retiring: set<string>, program: string, stage: nat)
    requires Evolves(w, w', retiring) && AllReached(w, program, stage)
    ensures AllReached(w', program, stage)
  {
    hide Inv, Consistent;
  }

  /** At rest: retired, in a terminal state and without a child. No event of any kind changes that. */
  lemma RestIsForever(s: Sys, es: seq<Event>)
    requires Inv(s.p) && Consistent(s.p.m) && Reached(s.p, 3)
    ensures var p := Run(s, es).p;
      p.retired && p.m.state == s.p.m.state && p.child.None?
  {
    hide Run, Inv, Consistent;
    RetiredRun(s, es);
    RunKeeps(s, es);
    ChildlessWhenTerminal(Run(s, es).p);
  }

  /** The objects of some programs. */
  ghost function IdsOf(w: World, programs: set<string>): set<nat> {
    set n | n in w.procs && w.procs[n].group in programs :: w.procs[n].id
  }

  lemma IdsOfEvolved(w: World, w': World, retiring: set<string>, programs: set<string>)
    requires Evolves(w, w', retiring)
    ensures IdsOf(w', programs) == IdsOf(w, programs)
  {
    hide Continues;
    forall id | id in IdsOf(w, programs) ensures id in IdsOf(w', programs) {
      var n :| n in w.procs && w.procs[n].group in programs && w.procs[n].id == id;
      assert w'.procs[n].id == id;
    }
  }

  lemma IdIn(w: World, w': World, retiring: set<string>, n: string, program: string)
    requires Evolves(w, w', retiring) && n in w'.procs && w'.procs[n].group == program
    ensures n in w.procs && w'.procs[n].id in IdsOf(w, {program})
  {
    hide Continues;
  }

  method RetireProgram(m: Manager, program: string, ghost retiring: set<string>)
    requires m.Valid() && program in retiring
    modifies m`world, m`turn, m`trace, m`commanded
    ensures old(m.trace) <= m.trace
    ensures m.commanded <= old(m.commanded) + IdsOf(old(m.world), {program})
    ensures m.Valid() && Evolves(old(m.world), m.world, retiring)
    ensures AllReached(m.world, program, 1)
  {
    hide Sane, IdsOk, RunWorld, Act, Continues;
    EvolvesItself(m.world, retiring);
    var names := m.ProgramProcesses(program);
    for i := 0 to |names|
      invariant m.Valid() && Evolves(old(m.world), m.world, retiring)
      invariant old(m.trace) <= m.trace
      invariant m.commanded <= old(m.commanded) + IdsOf(old(m.world), {program})
      invariant forall k :: 0 <= k < i ==> Reached(m.world.procs[names[k]].p, 1)
    {
      ghost var w := m.world;
      IdIn(old(m.world), w, retiring, names[i], program);
      m.RetireProcess(names[i], retiring);
      EvolvesFurther(old(m.world), w, m.world, retiring);
      StaysReached(w, m.world, retiring, names[..i], 1);
    }
    assert names[..|names|] == names;
  }

  /** The same for a list of processes. */
  lemma StaysReached(w: World, w': World, retiring: set<string>, names: seq<string>, stage: nat)
    requires Evolves(w, w', retiring)
    requires forall k :: 0 <= k < |names| ==> names[k] in w.procs && Reached(w.procs[names[k]].p, stage)
    ensures forall k :: 0 <= k < |names| ==> names[k] in w'.procs && Reached(w'.procs[names[k]].p, stage)
  {
    hide Inv, Consistent;
  }

  /** What is up is stopped; a refusal is only logged. */
  method StopIfUp(m: Manager, name: string)
    requires m.Valid() && name in m.world.procs
    modifies m`world, m`turn, m`trace, m`commanded
    ensures old(m.trace) <= m.trace
    ensures m.commanded <= old(m.commanded) + {old(m.world).procs[name].id}
    ensures m.Valid() && Evolves(old(m.world), m.world, {}) && name in m.world.procs
    ensures !AlreadyUp(m.world.procs[name].p.m.state)
  {
    hide Sane, IdsOk, RunWorld, Act, Continues, AlreadyUp;
    var state := m.State(name);
    if AlreadyUp(state) {
      ghost var seen := m.world;
      var _ := m.StopProcess(name);
      EvolvesFurther(old(m.world), seen, m.world, {});
    }
  }

  /** The stop pass over one program. */
  method StopProgram(m: Manager, program: string)
    requires m.Valid() && AllReached(m.world, program, 1)
    modifies m`world, m`turn, m`trace, m`commanded
    ensures old(m.trace) <= m.trace
    ensures m.commanded <= old(m.commanded) + IdsOf(old(m.world), {program})
    ensures m.Valid() && Evolves(old(m.world), m.world, {})
    ensures AllReached(m.world, program, 2)
  {
    hide Sane, IdsOk, RunWorld, Act, Continues, AlreadyUp;
    EvolvesItself(m.world, {});
    var names := m.ProgramProcesses(program);
    for i := 0 to |names|
      invariant m.Valid() && Evolves(old(m.world), m.world, {})
      invariant old(m.trace) <= m.trace
      invariant m.commanded <= old(m.commanded) + IdsOf(old(m.world), {program})
      invariant AllReached(m.world, program, 1)
      invariant forall k :: 0 <= k < i ==> Reached(m.world.procs[names[k]].p, 2)
    {
      ghost var w := m.world;
      IdIn(old(m.world), w, {}, names[i], program);
      StopIfUp(m, names[i]);
      EvolvesFurther(old(m.world), w, m.world, {});
      ReachedStays(w, m.world, {}, program, 1);
      StaysReached(w, m.world, {}, names[..i], 2);
    }
    assert names[..|names|] == names;
  }

  /** What the wait has seen of the processes in `names`, and whether all of them had stopped. */
  ghost predicate Waited(names: seq<string>, seen: map<string, State>, stopped: bool) {
    && (forall n :: n in seen <==> n in names)
    && (stopped <==> forall n :: n in seen ==> Terminal(seen[n]))
  }

  lemma WaitedMore(names: seq<string>, seen: map<string, State>, stopped: bool, n: string, state: State)
    requires Waited(names, seen, stopped) && n !in names
    ensures Waited(names + [n], seen[n := state], stopped && Terminal(state))
  {
    hide Terminal;
    var more := seen[n := state];
    assert forall m :: m in seen ==> m in more && more[m] == seen[m];
    assert n in more && more[n] == state;
  }

  /** Each process seen not to have stopped was waited for until the time was up. */
  ghost predicate WaitedFor(w: World, seen: map<string, State>, gaveUp: set<nat>) {
    forall n :: n in seen && n in w.procs && !Terminal(seen[n]) ==> w.procs[n].id in gaveUp
  }

  lemma WaitedForNone(w: World, gaveUp: set<nat>)
    ensures WaitedFor(w, map[], gaveUp)
  {}

  lemma WaitedForMore(
    w: World, seen: map<string, State>, gaveUp: set<nat>, n: string, state: State, more: set<nat>)
    requires WaitedFor(w, seen, gaveUp) && gaveUp <= more
    requires n in w.procs && !Terminal(state) ==> w.procs[n].id in more
    ensures WaitedFor(w, seen[n := state], more)
  {
    hide Terminal;
  }

  lemma WaitedForBoth(
    w: World, w': World, before: map<string, State>, had: set<nat>, more: map<string, State>, gaveUp: set<nat>)
    requires Evolves(w, w', {}) && had <= gaveUp
    requires WaitedFor(w, before, had) && WaitedFor(w', more, gaveUp)
    ensures WaitedFor(w, before + more, gaveUp)
  {
    hide Continues, Terminal;
  }

  lemma IdStays(w: World, w': World, n: string)
    requires Evolves(w, w', {}) && n in w'.procs
    ensures n in w.procs && w'.procs[n].id == w.procs[n].id
  {
    hide Continues;
  }

  /** The wait for one program; every process of it is waited for even when one has not stopped. */
  method AwaitProgram(m: Manager, program: string) returns (stopped: bool, ghost seen: map<string, State>)
    requires m.Valid() && AllReached(m.world, program, 2)
    modifies m`world, m`turn, m`trace, m`gaveUp
    ensures old(m.trace) <= m.trace
    ensures m.Valid() && Evolves(old(m.world), m.world, {})
    ensures old(m.gaveUp) <= m.gaveUp && WaitedFor(old(m.world), seen, m.gaveUp)
    ensures SeenIn(|old(m.trace)|, m.trace, seen)
    ensures seen.Keys == set n | n in old(m.world).procs && old(m.world).procs[n].group == program
    ensures stopped <==> forall n :: n in seen ==> Terminal(seen[n])
    ensures stopped ==> AllReached(m.world, program, 3)
  {
    hide Sane, IdsOk, RunWorld, Act, Continues, Terminal, AlreadyUp, Waited, WaitedFor, SeenIn;
    EvolvesItself(m.world, {});
    var names := m.ProgramProcesses(program);
    stopped, seen := true, map[];
    WaitedNone();
    WaitedForNone(m.world, m.gaveUp);
    SeenNone(|m.trace|, m.trace);
    for i := 0 to |names|
      invariant m.Valid() && Evolves(old(m.world), m.world, {})
      invariant old(m.trace) <= m.trace
      invariant old(m.gaveUp) <= m.gaveUp && WaitedFor(old(m.world), seen, m.gaveUp)
      invariant SeenIn(|old(m.trace)|, m.trace, seen)
      invariant AllReached(m.world, program, 2)
      invariant Waited(names[..i], seen, stopped)
      invariant stopped ==> forall k :: 0 <= k < i ==> Reached(m.world.procs[names[k]].p, 3)
    {
      ghost var w, had, passed := m.world, m.gaveUp, m.trace;
      IdStays(old(m.world), w, names[i]);
      var ok := m.WaitForStopped(names[i]);
      EvolvesFurther(old(m.world), w, m.world, {});
      WaitedForMore(old(m.world), seen, had, names[i], m.world.procs[names[i]].p.m.state, m.gaveUp);
      ReachedStays(w, m.world, {}, program, 2);
      if stopped { StaysReached(w, m.world, {}, names[..i], 3); }
      assert names[i] !in names[..i] && names[..i + 1] == names[..i] + [names[i]];
      WaitedMore(names[..i], seen, stopped, names[i], m.world.procs[names[i]].p.m.state);
      SeenNow(|old(m.trace)|, passed, seen, m.trace, names[i], m.world.procs[names[i]].p.m.state);
      seen := seen[names[i] := m.world.procs[names[i]].p.m.state];
      if !ok {
        stopped := false;
      }
    }
    assert names[..|names|] == names;
    WaitedMeans(names, seen, stopped);
  }

  lemma WaitedNone()
    ensures Waited([], map[], true)
  {}

  lemma WaitedMeans(names: seq<string>, seen: map<string, State>, stopped: bool)
    requires Waited(names, seen, stopped)
    ensures seen.Keys == Elements(names)
    ensures stopped <==> forall n :: n in seen ==> Terminal(seen[n])
  {}

  /** What has been seen of the processes in `names`, and whether one of them was up. */
  ghost predicate Sighted(w: World, names: seq<string>, seen: map<string, State>, active: bool) {
    && (forall n :: n in seen <==> n in names)
    && (active <==> exists n :: n in seen && AlreadyUp(seen[n]))
    && forall n :: n in seen && n in w.procs && Reached(w.procs[n].p, 2) ==> !AlreadyUp(seen[n])
  }

  lemma SightedMore(
    w: World, w': World, names: seq<string>, seen: map<string, State>, active: bool, n: string, state: State)
    requires Sighted(w, names, seen, active) && n !in names
    requires Evolves(w, w', {}) && n in w'.procs && state == w'.procs[n].p.m.state
    ensures Sighted(w, names + [n], seen[n := state], active || AlreadyUp(state))
  {
    hide AlreadyUp, Inv, Consistent, Terminal;
    var more := seen[n := state];
    assert forall m :: m in seen ==> m in more && more[m] == seen[m];
    assert n in more && more[n] == state;
  }

  lemma SightedNone(w: World)
    ensures Sighted(w, [], map[], false)
  {}

  /** Whether one of the program's processes is up, and the states the answer is based on. */
  method WasActive(m: Manager, program: string) returns (active: bool, ghost seen: map<string, State>)
    requires m.Valid()
    modifies m`world, m`turn, m`trace
    ensures old(m.trace) <= m.trace
    ensures m.Valid() && Evolves(old(m.world), m.world, {})
    ensures seen.Keys == set n | n in old(m.world).procs && old(m.world).procs[n].group == program
    ensures SeenIn(|old(m.trace)|, m.trace, seen)
    ensures AllAsRetired(old(m.world), |old(m.trace)|, m.trace)
    ensures active <==> exists n :: n in seen && AlreadyUp(seen[n])
    ensures forall n :: n in seen && Reached(old(m.world).procs[n].p, 2) ==> !AlreadyUp(seen[n])
  {
    hide Sane, IdsOk, RunWorld, Act, AlreadyUp, Continues, Sighted, Reached, SeenIn,
      AllAsRetired, AsRetired;
    EvolvesItself(m.world, {});
    SightedNone(m.world);
    var names := m.ProgramProcesses(program);
    active, seen := false, map[];
    SeenNone(|m.trace|, m.trace);
    NoneRetiredYet(m.world, m.trace);
    for i := 0 to |names|
      invariant m.Valid() && Evolves(old(m.world), m.world, {})
      invariant old(m.trace) <= m.trace
      invariant Sighted(old(m.world), names[..i], seen, active)
      invariant AllAsRetired(old(m.world), |old(m.trace)|, m.trace)
      invariant SeenIn(|old(m.trace)|, m.trace, seen)
    {
      ghost var w, passed := m.world, m.trace;
      var state := m.State(names[i]);
      EvolvesFurther(old(m.world), w, m.world, {});
      assert names[i] !in names[..i] && names[..i + 1] == names[..i] + [names[i]];
      SightedMore(old(m.world), m.world, names[..i], seen, active, names[i], state);
      SeenNow(|old(m.trace)|, passed, seen, m.trace, names[i], state);
      NoneRetiredNow(old(m.world), m.world);
      LookRetiresNobody(old(m.world), |old(m.trace)|, passed, m.world);
      seen := seen[names[i] := state];
      if AlreadyUp(state) {
        active := true;
      }
    }
    assert names[..|names|] == names;
    SightedMeans(old(m.world), names, seen, active);
  }

  lemma LookRetiresNobody(w0: World, from: nat, trace: seq<World>, w: World)
    requires AllAsRetired(w0, from, trace) && AsRetired(w0, w)
    ensures AllAsRetired(w0, from, trace + [w])
  {
    hide AsRetired;
  }

  lemma SightedMeans(w: World, names: seq<string>, seen: map<string, State>, active: bool)
    requires Sighted(w, names, seen, active) && forall n :: n in names ==> n in w.procs
    ensures seen.Keys == Elements(names)
    ensures active <==> exists n :: n in seen && AlreadyUp(seen[n])
    ensures forall n :: n in seen && Reached(w.procs[n].p, 2) ==> !AlreadyUp(seen[n])
  {}

  /** The world without the processes of a program. */
  function Without(w: World, program: string): World {
    w.(procs := map n | n in w.procs && w.procs[n].group != program :: w.procs[n])
  }

  lemma WithoutKeeps(w: World, program: string, nextId: nat)
    requires Sane(w) && IdsOk(w, nextId)
    ensures Sane(Without(w, program)) && IdsOk(Without(w, program), nextId)
  {
    hide Inv, Consistent;
  }

  /** The same while the names in `todo` have not been looked at. */
  function WithoutSoFar(w: World, program: string, todo: set<string>): World {
    w.(procs := map n | n in w.procs && (n in todo || w.procs[n].group != program) :: w.procs[n])
  }

  lemma WithoutOneMore(w: World, program: string, todo: set<string>, name: string)
    requires name in todo && name in w.procs
    ensures var w' := WithoutSoFar(w, program, todo);
      && name in w'.procs && w'.procs[name] == w.procs[name]
      && WithoutSoFar(w, program, todo - {name})
         == if w.procs[name].group == program then w'.(procs := w'.procs - {name}) else w'
  {
    var w' := WithoutSoFar(w, program, todo);
    var next := WithoutSoFar(w, program, todo - {name});
    if w.procs[name].group == program {
      assert next.procs == w'.procs - {name};
    } else {
      assert next.procs == w'.procs;
    }
  }

  lemma WithoutEnds(w: World, program: string)
    ensures WithoutSoFar(w, program, w.procs.Keys) == w && WithoutSoFar(w, program, {}) == Without(w, program)
  {
    assert WithoutSoFar(w, program, w.procs.Keys).procs == w.procs;
  }

  /**
    removeProgram: the processes of a program and its implicit group are
    dropped. It is never called before all of them are at rest.
   */
  method RemoveProgram(m: Manager, program: string)
    requires m.Valid() && AllReached(m.world, program, 3)
    modifies m`world, m`groups
    ensures m.Valid()
    ensures m.world == Without(old(m.world), program)
    ensures m.groups == old(m.groups) - {program}
  {
    hide Sane, IdsOk, RunWorld, Act, Reached, WithoutSoFar, Without;
    var todo := m.world.procs.Keys;
    WithoutEnds(m.world, program);
    while todo != {}
      invariant todo <= old(m.world).procs.Keys && m.groups == old(m.groups)
      invariant m.world == WithoutSoFar(old(m.world), program, todo)
      decreases |todo|
    {
      var name :| name in todo;
      WithoutOneMore(old(m.world), program, todo, name);
      if m.world.procs[name].group == program {
        m.world := m.world.(procs := m.world.procs - {name});
      }
      todo := todo - {name};
    }
    WithoutKeeps(old(m.world), program, m.nextId);
    m.groups := m.groups - {program};
  }

  // ---------------------------------------------------------------------
  // In-place updates
  // ---------------------------------------------------------------------

  /** The same processes; only those of programs in `updated` may have a new config. */
  ghost predicate Touched(w: World, w': World, updated: set<string>) {
    && w'.procs.Keys == w.procs.Keys
    && (w.shutdown ==> w'.shutdown)
    && forall n :: n in w.procs ==>
         && w'.procs[n].id == w.procs[n].id
         && w'.procs[n].group == w.procs[n].group
         && w'.procs[n].p.retired == w.procs[n].p.retired
         && (Reached(w.procs[n].p, 2) ==> Reached(w'.procs[n].p, 2))
         && (w.procs[n].group in updated || w'.procs[n].p.cfg == w.procs[n].p.cfg)
  }

  lemma EvolvedIsTouched(w: World, w': World, updated: set<string>)
    requires Evolves(w, w', {})
    ensures Touched(w, w', updated)
  {
    hide Inv, Consistent;
  }

  lemma TouchedFurther(a: World, b: World, c: World, updated: set<string>)
    requires Touched(a, b, updated) && Touched(b, c, updated)
    ensures Touched(a, c, updated)
  {}

  lemma TouchedMore(w: World, w': World, updated: set<string>, more: set<string>)
    requires Touched(w, w', updated) && updated <= more
    ensures Touched(w, w', more)
  {}

  /** A program whose config is not being changed stays as its config asks. */
  lemma HoldsTouched(w: World, w': World, updated: set<string>, p: string, cfg: ProgramConfig)
    requires Touched(w, w', updated) && p !in updated && Holds(w, p, cfg)
    ensures Holds(w', p, cfg)
  {
    hide NthName, NthConfig, AllNames;
    forall k: nat | k < Copies(cfg) ensures HoldsNth(w', p, cfg, k) { assert HoldsNth(w, p, cfg, k); }
  }

  lemma HoldsEvolves(w: World, w': World, retiring: set<string>, p: string, cfg: ProgramConfig)
    requires Evolves(w, w', retiring) && p !in retiring && Holds(w, p, cfg)
    ensures Holds(w', p, cfg)
  {
    hide NthName, NthConfig, AllNames, Inv, Consistent;
    forall k: nat | k < Copies(cfg) ensures HoldsNth(w', p, cfg, k) { assert HoldsNth(w, p, cfg, k); }
  }

  lemma {:induction false} UpdateTouches(w: World, name: string, cfg: ProgramConfig, updated: set<string>)
    requires name in w.procs && w.procs[name].group in updated && !Locked(View(w, name))
    ensures var w' := Act(w, Action(name, Update(cfg)));
      Touched(w, w', updated) && w'.procs[name].p.cfg == cfg
      && forall n :: n in w.procs && n != name ==> w'.procs[n] == w.procs[n]
  {
    hide Step;
    StepMoves(View(w, name), Update(cfg));
    TimeGoesOn(View(w, name), Update(cfg));
    UpdateStep(View(w, name), cfg);
  }

  lemma {:induction false} UpdateStep(s: Sys, cfg: ProgramConfig)
    requires !Locked(s)
    ensures Step(s, Update(cfg)).p == UpdateConfig(s.p, cfg)
  {
    assert Enabled(s, Update(cfg));
  }

  lemma IdsTouched(w: World, w': World, nextId: nat, updated: set<string>)
    requires IdsOk(w, nextId) && Touched(w, w', updated)
    ensures IdsOk(w', nextId)
  {}

  /** UpdateConfig on one process. */
  method UpdateProcess(m: Manager, name: string, cfg: ProgramConfig, ghost updated: set<string>)
    requires m.Valid() && name in m.world.procs && m.world.procs[name].group in updated
    modifies m`world, m`turn, m`trace, m`commanded
    ensures old(m.trace) <= m.trace
    ensures m.commanded == old(m.commanded) + {old(m.world).procs[name].id}
    ensures var t := m.env(old(m.turn));
      m.world == Act(LockFreed(RunWorld(old(m.world), t.before), name, t), Action(name, Update(cfg)))
    ensures m.Valid() && Touched(old(m.world), m.world, updated)
    ensures m.world.procs[name].p.cfg == cfg
    ensures forall n :: n in old(m.world).procs && n != name ==>
      m.world.procs[n].p.cfg == old(m.world).procs[n].p.cfg
  {
    hide Sane, IdsOk, RunWorld, Act, Inv, Consistent, LockFreed, Locked;
    m.Acquire(name);
    ghost var w := m.world;
    EvolvedIsTouched(old(m.world), w, updated);
    UpdateTouches(w, name, cfg, updated);
    ActStaysSane(w, Action(name, Update(cfg)));
    m.world := Act(m.world, Action(name, Update(cfg)));
    m.commanded := m.commanded + {old(m.world).procs[name].id};
    IdsTouched(w, m.world, m.nextId, updated);
    TouchedFurther(old(m.world), w, m.world, updated);
  }

  /** The configs of a program's processes by name. */
  ghost predicate IsByName(program: string, cfg: ProgramConfig, byName: map<string, ProgramConfig>) {
    && (forall n :: n in byName <==> n in AllNames(program, cfg))
    && forall k: nat :: k < Copies(cfg) ==>
         NthName(program, cfg, k) in byName && byName[NthName(program, cfg, k)] == NthConfig(cfg, k)
  }

  method ByName(program: string, cfg: ProgramConfig) returns (byName: map<string, ProgramConfig>)
    requires !LacksNumber(cfg)
    ensures IsByName(program, cfg, byName)
  {
    hide NthName, NthConfig, LacksNumber, AreNumbered;
    OwnNamesDiffer(program, cfg);
    ghost var names := AllNames(program, cfg);
    var instances := ExpandNumprocs(program, cfg);
    byName := map[];
    for i := 0 to |instances|
      invariant forall n :: n in byName <==> n in names[..i]
      invariant forall k :: 0 <= k < i ==> names[k] in byName && byName[names[k]] == NthConfig(cfg, k)
    {
      assert instances[i].name == names[i] && forall k :: 0 <= k < i ==> names[k] != names[i];
      byName := byName[instances[i].name := instances[i].cfg];
    }
    assert names[..|instances|] == names;
    forall k: nat | k < Copies(cfg)
      ensures NthName(program, cfg, k) in byName && byName[NthName(program, cfg, k)] == NthConfig(cfg, k)
    {
      assert names[k] == NthName(program, cfg, k);
    }
  }

  /** Each process of a program has the config that `cfg` has for a process of its name. */
  ghost predicate ConfigsTaken(w: World, program: string, cfg: ProgramConfig) {
    forall k: nat :: k < Copies(cfg) ==> TakenNth(w, program, cfg, k)
  }

  ghost predicate TakenNth(w: World, program: string, cfg: ProgramConfig, k: nat) {
    var n := NthName(program, cfg, k);
    n in w.procs && w.procs[n].group == program ==> w.procs[n].p.cfg == NthConfig(cfg, k)
  }

  method UpdateInPlace(m: Manager, program: string, cfg: ProgramConfig)
    requires m.Valid() && !LacksNumber(cfg)
    modifies m`world, m`turn, m`trace, m`groups, m`commanded
    ensures old(m.trace) <= m.trace
    ensures m.commanded <= old(m.commanded) + IdsOf(old(m.world), {program})
    ensures m.Valid() && Touched(old(m.world), m.world, {program})
    ensures ConfigsTaken(m.world, program, cfg)
    ensures m.groups == if program in old(m.groups)
      then old(m.groups)[program := old(m.groups)[program].(priority := cfg.sup.priority)] else old(m.groups)
  {
    hide Sane, IdsOk, IdsOf, RunWorld, Act, IsByName, NthName, NthConfig, AllNames, LacksNumber, Touched;
    var byName := ByName(program, cfg);
    var names := m.ProgramProcesses(program);
    TouchedItself(m.world, {program});
    for i := 0 to |names|
      invariant m.Valid() && Touched(old(m.world), m.world, {program})
      invariant old(m.trace) <= m.trace
      invariant m.world.procs.Keys == old(m.world).procs.Keys
      invariant m.groups == old(m.groups)
      invariant m.commanded <= old(m.commanded) + IdsOf(old(m.world), {program})
      invariant forall k :: 0 <= k < i && names[k] in byName ==> m.world.procs[names[k]].p.cfg == byName[names[k]]
    {
      if names[i] in byName {
        ghost var w := m.world;
        TouchedGroup(old(m.world), w, {program}, names[i]);
        UpdateProcess(m, names[i], byName[names[i]], {program});
        TouchedFurther(old(m.world), w, m.world, {program});
        TouchedGroup(old(m.world), m.world, {program}, names[i]);
      }
    }
    UpdatedTakes(old(m.world), m.world, program, cfg, byName);
    if program in m.groups {
      m.groups := m.groups[program := m.groups[program].(priority := cfg.sup.priority)];
    }
  }

  lemma TouchedItself(w: World, updated: set<string>)
    ensures Touched(w, w, updated)
  {}

  lemma TouchedGroup(w: World, w': World, updated: set<string>, n: string)
    requires Touched(w, w', updated) && n in w.procs
    ensures w'.procs.Keys == w.procs.Keys && w'.procs[n].group == w.procs[n].group
    ensures w'.procs[n].id == w.procs[n].id && w.procs[n].id in IdsOf(w, {w.procs[n].group})
  {}

  /** An in-place change asks for the processes that are there. */
  lemma {:induction false} SameInstances(w: World, program: string, was: ProgramConfig, cfg: ProgramConfig)
    requires !NeedsRestart(was, cfg) && Holds(w, program, was)
    ensures Copies(cfg) == Copies(was)
    ensures forall k: nat :: k < Copies(cfg) ==> NthName(program, cfg, k) == NthName(program, was, k)
    ensures AllNames(program, cfg) == AllNames(program, was)
    ensures forall n :: n in w.procs && w.procs[n].group == program <==> n in AllNames(program, cfg)
  {
    hide NthName, NthConfig, NeedsRestart;
    InPlaceChangeKeepsChildren(program, was, cfg, 0);
    forall k: nat ensures NthName(program, cfg, k) == NthName(program, was, k) {
      InPlaceChangeKeepsChildren(program, was, cfg, k);
    }
    forall n | n in AllNames(program, cfg) ensures n in w.procs && w.procs[n].group == program {
      var k :| 0 <= k < Copies(cfg) && AllNames(program, cfg)[k] == n;
      assert HoldsNth(w, program, was, k);
    }
  }

  lemma {:induction false} UpdatedTakes(
    w: World, w': World, program: string, cfg: ProgramConfig, byName: map<string, ProgramConfig>)
    requires IsByName(program, cfg, byName) && Touched(w, w', {program})
    requires forall n :: n in w.procs && w.procs[n].group == program && n in byName ==> w'.procs[n].p.cfg == byName[n]
    ensures ConfigsTaken(w', program, cfg)
  {
    hide NthName, NthConfig, AllNames, Reached;
  }

  /** A program in step that does not need a restart is in step with the config its processes have taken. */
  lemma {:induction false} TakenHolds(w: World, w': World, program: string, was: ProgramConfig, cfg: ProgramConfig)
    requires !NeedsRestart(was, cfg) && Holds(w, program, was) && Touched(w, w', {program})
    requires ConfigsTaken(w', program, cfg)
    ensures Holds(w', program, cfg)
  {
    hide NthName, NthConfig, NeedsRestart, AllNames, Reached;
    SameInstances(w, program, was, cfg);
    forall k: nat | k < Copies(cfg) ensures HoldsNth(w', program, cfg, k) {
      assert HoldsNth(w, program, was, k);
      assert TakenNth(w', program, cfg, k);
    }
  }

  // ---------------------------------------------------------------------
  // The passes over lists of programs
  // ---------------------------------------------------------------------

  lemma ListStays(w: World, w': World, retiring: set<string>, programs: seq<string>, stage: nat)
    requires Evolves(w, w', retiring)
    requires forall k :: 0 <= k < |programs| ==> AllReached(w, programs[k], stage)
    ensures forall k :: 0 <= k < |programs| ==> AllReached(w', programs[k], stage)
  {
    hide AllReached;
    forall k | 0 <= k < |programs| ensures AllReached(w', programs[k], stage) {
      ReachedStays(w, w', retiring, programs[k], stage);
    }
  }

  lemma IdsOfSome(w: World, w': World, retiring: set<string>, p: string, programs: set<string>)
    requires Evolves(w, w', retiring) && p in programs
    ensures IdsOf(w', {p}) <= IdsOf(w, programs)
  {
    hide Continues;
    IdsOfEvolved(w, w', retiring, {p});
  }

  method RetireAll(m: Manager, programs: seq<string>, ghost retiring: set<string>)
    requires m.Valid() && forall p :: p in programs ==> p in retiring
    modifies m`world, m`turn, m`trace, m`commanded
    ensures old(m.trace) <= m.trace
    ensures m.commanded <= old(m.commanded) + IdsOf(old(m.world), retiring)
    ensures m.Valid() && Evolves(old(m.world), m.world, retiring)
    ensures forall k :: 0 <= k < |programs| ==> AllReached(m.world, programs[k], 1)
  {
    hide Sane, IdsOk, RunWorld, Act, Evolves, AllReached, IdsOf;
    EvolvesItself(m.world, retiring);
    for i := 0 to |programs|
      invariant m.Valid() && Evolves(old(m.world), m.world, retiring)
      invariant old(m.trace) <= m.trace
      invariant m.commanded <= old(m.commanded) + IdsOf(old(m.world), retiring)
      invariant forall k :: 0 <= k < i ==> AllReached(m.world, programs[k], 1)
    {
      ghost var w := m.world;
      IdsOfSome(old(m.world), w, retiring, programs[i], retiring);
      RetireProgram(m, programs[i], retiring);
      EvolvesFurther(old(m.world), w, m.world, retiring);
      ListStays(w, m.world, retiring, programs[..i], 1);
    }
  }

  method StopAll(m: Manager, programs: seq<string>, ghost retiring: set<string>)
    requires m.Valid() && forall p :: p in programs ==> p in retiring
    requires forall k :: 0 <= k < |programs| ==> AllReached(m.world, programs[k], 1)
    modifies m`world, m`turn, m`trace, m`commanded
    ensures old(m.trace) <= m.trace
    ensures m.commanded <= old(m.commanded) + IdsOf(old(m.world), retiring)
    ensures m.Valid() && Evolves(old(m.world), m.world, {})
    ensures forall k :: 0 <= k < |programs| ==> AllReached(m.world, programs[k], 2)
  {
    hide Sane, IdsOk, RunWorld, Act, Evolves, AllReached, IdsOf;
    EvolvesItself(m.world, {});
    for i := 0 to |programs|
      invariant m.Valid() && Evolves(old(m.world), m.world, {})
      invariant old(m.trace) <= m.trace
      invariant m.commanded <= old(m.commanded) + IdsOf(old(m.world), retiring)
      invariant forall k :: 0 <= k < |programs| ==> AllReached(m.world, programs[k], 1)
      invariant forall k :: 0 <= k < i ==> AllReached(m.world, programs[k], 2)
    {
      ghost var w := m.world;
      IdsOfSome(old(m.world), w, {}, programs[i], retiring);
      StopProgram(m, programs[i]);
      EvolvesFurther(old(m.world), w, m.world, {});
      ListStays(w, m.world, {}, programs, 1);
      ListStays(w, m.world, {}, programs[..i], 2);
    }
  }

  /**
    `seen` holds a state for each process of `programs`, as read in a pass
    over them; `flagged` are the programs with one in a state that `counts`.
   */
  ghost predicate FlaggedBy(
    w: World, programs: set<string>, seen: map<string, State>, counts: State -> bool, flagged: set<string>)
  {
    && (forall n :: n in seen <==> n in w.procs && w.procs[n].group in programs)
    && forall p :: p in flagged <==>
         p in programs && exists n :: n in seen && w.procs[n].group == p && counts(seen[n])
  }

  lemma FlaggedNone(w: World, counts: State -> bool)
    ensures FlaggedBy(w, {}, map[], counts, {})
  {}

  lemma SeenMore(
    w: World, w': World, programs: set<string>, before: map<string, State>, p: string, more: map<string, State>)
    requires Evolves(w, w', {}) && p !in programs
    requires forall n :: n in before <==> n in w.procs && w.procs[n].group in programs
    requires more.Keys == set n | n in w'.procs && w'.procs[n].group == p
    ensures forall n :: n in before + more <==> n in w.procs && w.procs[n].group in programs + {p}
    ensures forall n :: n in before ==> n !in more && (before + more)[n] == before[n]
    ensures forall n :: n in more ==> n in w.procs && w.procs[n].group == p && (before + more)[n] == more[n]
  {
    hide Continues;
  }

  /** One program more. */
  lemma FlaggedMore(
    w: World, w': World, programs: set<string>, before: map<string, State>, p: string, more: map<string, State>,
    flagged: set<string>, flag: bool, counts: State -> bool)
    requires Evolves(w, w', {}) && p !in programs && FlaggedBy(w, programs, before, counts, flagged)
    requires more.Keys == set n | n in w'.procs && w'.procs[n].group == p
    requires flag <==> exists n :: n in more && counts(more[n])
    ensures FlaggedBy(w, programs + {p}, before + more, counts, if flag then flagged + {p} else flagged)
  {
    hide Evolves;
    SeenMore(w, w', programs, before, p, more);
  }

  /** A process that was retired and down before the pass is not seen up in it. */
  ghost predicate DownIsSeen(w: World, seen: map<string, State>) {
    forall n :: n in seen && n in w.procs && Reached(w.procs[n].p, 2) ==> !AlreadyUp(seen[n])
  }

  lemma DownIsSeenNone(w: World)
    ensures DownIsSeen(w, map[])
  {}

  lemma DownIsSeenMore(w: World, w': World, before: map<string, State>, more: map<string, State>)
    requires Evolves(w, w', {}) && DownIsSeen(w, before)
    requires forall n :: n in more ==> n in w'.procs && (Reached(w'.procs[n].p, 2) ==> !AlreadyUp(more[n]))
    ensures DownIsSeen(w, before + more)
  {
    hide Inv, Consistent, AlreadyUp;
  }

  /** wasActive: the programs one of whose processes is up. */
  method MarkActive(m: Manager, programs: seq<string>) returns (active: set<string>, ghost seen: map<string, State>)
    requires m.Valid() && Distinct(programs)
    modifies m`world, m`turn, m`trace
    ensures old(m.trace) <= m.trace
    ensures m.Valid() && Evolves(old(m.world), m.world, {})
    ensures FlaggedBy(old(m.world), Elements(programs), seen, s => AlreadyUp(s), active)
    ensures DownIsSeen(old(m.world), seen) && SeenIn(|old(m.trace)|, m.trace, seen)
    ensures AllAsRetired(old(m.world), |old(m.trace)|, m.trace)
  {
    hide Sane, IdsOk, RunWorld, Act, Evolves, AlreadyUp, FlaggedBy, DownIsSeen, SeenIn, AllAsRetired;
    ghost var counts := s => AlreadyUp(s);
    EvolvesItself(m.world, {});
    FlaggedNone(m.world, counts);
    assert Elements(programs[..0]) == {};
    DownIsSeenNone(m.world);
    active, seen := {}, map[];
    SeenNone(|m.trace|, m.trace);
    NoneRetiredYet(m.world, m.trace);
    for i := 0 to |programs|
      invariant m.Valid() && Evolves(old(m.world), m.world, {})
      invariant old(m.trace) <= m.trace
      invariant FlaggedBy(old(m.world), Elements(programs[..i]), seen, counts, active)
      invariant DownIsSeen(old(m.world), seen) && SeenIn(|old(m.trace)|, m.trace, seen)
      invariant AllAsRetired(old(m.world), |old(m.trace)|, m.trace)
    {
      ghost var w, before, had, upTo := m.world, seen, active, Elements(programs[..i]);
      ghost var passed := m.trace;
      var up, more := WasActive(m, programs[i]);
      NoneRetiredMore(old(m.world), w, |old(m.trace)|, passed, m.trace);
      EvolvesFurther(old(m.world), w, m.world, {});
      assert programs[..i + 1] == programs[..i] + [programs[i]] && programs[i] !in programs[..i];
      assert Elements(programs[..i + 1]) == upTo + {programs[i]};
      SeenBoth(|old(m.trace)|, passed, before, |passed|, m.trace, more);
      seen := seen + more;
      FlaggedMore(old(m.world), w, upTo, before, programs[i], more, had, up, counts);
      DownIsSeenMore(old(m.world), w, before, more);
      if up {
        active := active + {programs[i]};
      }
    }
    assert programs[..|programs|] == programs;
  }

  /** The wait pass: the programs with a process that was given up on. */
  method AwaitAll(m: Manager, programs: seq<string>) returns (stuck: set<string>, ghost seen: map<string, State>)
    requires m.Valid() && Distinct(programs)
    requires forall k :: 0 <= k < |programs| ==> AllReached(m.world, programs[k], 2)
    modifies m`world, m`turn, m`trace, m`gaveUp
    ensures old(m.trace) <= m.trace
    ensures m.Valid() && Evolves(old(m.world), m.world, {})
    ensures old(m.gaveUp) <= m.gaveUp && WaitedFor(old(m.world), seen, m.gaveUp)
    ensures SeenIn(|old(m.trace)|, m.trace, seen)
    ensures FlaggedBy(old(m.world), Elements(programs), seen, s => !Terminal(s), stuck)
    ensures forall k :: 0 <= k < |programs| ==> AllReached(m.world, programs[k], if programs[k] in stuck then 2 else 3)
  {
    hide Sane, IdsOk, RunWorld, Act, Evolves, Terminal, AllReached, FlaggedBy, WaitedFor, SeenIn;
    ghost var counts := s => !Terminal(s);
    EvolvesItself(m.world, {});
    FlaggedNone(m.world, counts);
    assert Elements(programs[..0]) == {};
    stuck, seen := {}, map[];
    WaitedForNone(m.world, m.gaveUp);
    SeenNone(|m.trace|, m.trace);
    for i := 0 to |programs|
      invariant m.Valid() && Evolves(old(m.world), m.world, {})
      invariant old(m.trace) <= m.trace
      invariant old(m.gaveUp) <= m.gaveUp && WaitedFor(old(m.world), seen, m.gaveUp)
      invariant SeenIn(|old(m.trace)|, m.trace, seen)
      invariant FlaggedBy(old(m.world), Elements(programs[..i]), seen, counts, stuck)
      invariant forall k :: 0 <= k < |programs| ==> AllReached(m.world, programs[k], 2)
      invariant forall k :: 0 <= k < i ==>
        AllReached(m.world, programs[k], if programs[k] in stuck then 2 else 3)
    {
      ghost var w, before, had, upTo := m.world, seen, stuck, Elements(programs[..i]);
      ghost var given, passed := m.gaveUp, m.trace;
      var stopped, more := AwaitProgram(m, programs[i]);
      SeenBoth(|old(m.trace)|, passed, before, |passed|, m.trace, more);
      WaitedForBoth(old(m.world), w, before, given, more, m.gaveUp);
      EvolvesFurther(old(m.world), w, m.world, {});
      ListStays(w, m.world, {}, programs, 2);
      forall k | 0 <= k < i ensures AllReached(m.world, programs[k], if programs[k] in had then 2 else 3) {
        ReachedStays(w, m.world, {}, programs[k], if programs[k] in had then 2 else 3);
      }
      assert programs[..i + 1] == programs[..i] + [programs[i]] && programs[i] !in programs[..i];
      assert Elements(programs[..i + 1]) == upTo + {programs[i]};
      seen := seen + more;
      FlaggedMore(old(m.world), w, upTo, before, programs[i], more, had, !stopped, counts);
      if !stopped {
        stuck := stuck + {programs[i]};
      }
    }
    assert programs[..|programs|] == programs;
  }

  /** The world without the processes of some programs. */
  function WithoutAll(w: World, gone: set<string>): World {
    w.(procs := map n | n in w.procs && w.procs[n].group !in gone :: w.procs[n])
  }

  lemma WithoutMore(w: World, gone: set<string>, p: string)
    ensures Without(WithoutAll(w, gone), p) == WithoutAll(w, gone + {p})
    ensures WithoutAll(w, {}) == w
  {
    assert Without(WithoutAll(w, gone), p).procs == WithoutAll(w, gone + {p}).procs;
    assert WithoutAll(w, {}).procs == w.procs;
  }

  lemma RestStaysWithout(w: World, gone: set<string>, p: string, stage: nat)
    requires AllReached(w, p, stage)
    ensures AllReached(WithoutAll(w, gone), p, stage)
  {}

  method RemoveAll(m: Manager, programs: seq<string>, stuck: set<string>)
    requires m.Valid()
    requires forall k :: 0 <= k < |programs| && programs[k] !in stuck ==> AllReached(m.world, programs[k], 3)
    modifies m`world, m`groups
    ensures m.Valid()
    ensures var gone := Elements(programs) - stuck;
      m.world == WithoutAll(old(m.world), gone) && m.groups == old(m.groups) - gone
  {
    hide Sane, IdsOk, RunWorld, Act, AllReached, Without, WithoutAll;
    ghost var gone := {};
    WithoutMore(m.world, {}, "");
    for i := 0 to |programs|
      invariant m.Valid() && gone == Elements(programs[..i]) - stuck
      invariant m.world == WithoutAll(old(m.world), gone) && m.groups == old(m.groups) - gone
    {
      if programs[i] !in stuck {
        RestStaysWithout(old(m.world), gone, programs[i], 3);
        RemoveProgram(m, programs[i]);
        WithoutMore(old(m.world), gone, programs[i]);
        gone := gone + {programs[i]};
      }
    }
    assert programs[..|programs|] == programs;
  }

  /** removeStaleGroups: what remains is defined by the config or belongs to a stuck program. */
  method RemoveStaleGroups(m: Manager, cfg: Cfg, keep: set<string>)
    modifies m`groups
    ensures m.groups ==
      map g | g in old(m.groups) && (g in cfg.programs || g in cfg.groups || g in keep) :: old(m.groups)[g]
  {
    var todo := m.groups.Keys;
    while todo != {}
      invariant todo <= old(m.groups).Keys
      invariant forall g :: g in m.groups <==>
        g in old(m.groups) && (g in todo || g in cfg.programs || g in cfg.groups || g in keep)
      invariant forall g :: g in m.groups ==> m.groups[g] == old(m.groups)[g]
      decreases |todo|
    {
      var name :| name in todo;
      todo := todo - {name};
      if name in cfg.programs {
        continue;
      }
      if name in cfg.groups {
        continue;
      }
      if name !in keep {
        m.groups := m.groups - {name};
      }
    }
  }

  // ---------------------------------------------------------------------
  // Starting
  // ---------------------------------------------------------------------

  /** A process that startProgram starts. */
  predicate MayStart(p: Managed, programs: set<string>, honourAutostart: bool) {
    p.group in programs && (honourAutostart ==> p.p.cfg.sup.autostart != Some(false))
  }

  ghost function StartIds(w: World, programs: set<string>, honourAutostart: bool): set<nat> {
    set n | n in w.procs && MayStart(w.procs[n], programs, honourAutostart) :: w.procs[n].id
  }

  lemma StartIdsEvolved(w: World, w': World, programs: set<string>, honour: bool)
    requires Evolves(w, w', {})
    ensures StartIds(w', programs, honour) == StartIds(w, programs, honour)
  {
    hide Inv, Consistent, AlreadyUp, Terminal;
    forall id | id in StartIds(w, programs, honour) ensures id in StartIds(w', programs, honour) {
      var n :| n in w.procs && MayStart(w.procs[n], programs, honour) && w.procs[n].id == id;
      assert w'.procs[n].id == id && MayStart(w'.procs[n], programs, honour);
    }
  }

  ghost function AllowedIds(w: World, names: seq<string>, honour: bool): set<nat>
    requires forall n :: n in names ==> n in w.procs
  {
    set n | n in names && MayStart(w.procs[n], {w.procs[n].group}, honour) :: w.procs[n].id
  }

  lemma AllowedSnoc(w: World, names: seq<string>, i: nat, honour: bool)
    requires i < |names| && forall n :: n in names ==> n in w.procs
    ensures names[..i + 1] == names[..i] + [names[i]]
    ensures AllowedIds(w, names[..i + 1], honour) == AllowedIds(w, names[..i], honour)
      + if honour && w.procs[names[i]].p.cfg.sup.autostart == Some(false) then {} else {w.procs[names[i]].id}
  {
    assert names[..i + 1] == names[..i] + [names[i]];
  }

  lemma AllowedIsStartIds(w: World, names: seq<string>, program: string, honour: bool)
    requires forall n :: n in names ==> n in w.procs && w.procs[n].group == program
    ensures AllowedIds(w, names, honour) <= StartIds(w, {program}, honour)
    ensures (forall n :: n in w.procs && w.procs[n].group == program ==> n in names) ==>
      AllowedIds(w, names, honour) == StartIds(w, {program}, honour)
  {}

  lemma SettingsEvolved(w: World, w': World, n: string)
    requires Evolves(w, w', {}) && n in w.procs
    ensures n in w'.procs && w'.procs[n].id == w.procs[n].id && w'.procs[n].p.cfg == w.procs[n].p.cfg
  {}

  /** One process of startProgram; the answer is whether a shutdown ends the pass. */
  method StartIfAllowed(m: Manager, name: string, honourAutostart: bool) returns (shutting: bool)
    requires m.Valid() && name in m.world.procs
    modifies m`world, m`turn, m`trace, m`started
    ensures old(m.trace) <= m.trace
    ensures m.Valid() && Evolves(old(m.world), m.world, {})
    ensures shutting ==> m.world.shutdown && m.started == old(m.started)
    ensures !shutting ==>
      m.started == old(m.started)
        + if honourAutostart && old(m.world).procs[name].p.cfg.sup.autostart == Some(false) then {}
          else {old(m.world).procs[name].id}
  {
    hide Sane, IdsOk, RunWorld, Act, Evolves;
    m.Meanwhile();
    ghost var seen := m.world;
    SettingsEvolved(old(m.world), seen, name);
    if m.world.shutdown {
      return true;
    }
    var a := m.world.procs[name].p.cfg.sup.autostart;
    if honourAutostart && a == Some(false) {
      return false;
    }
    var _ := m.StartProcess(name);
    EvolvesFurther(old(m.world), seen, m.world, {});
    return false;
  }

  /** startProgram: all that may be started is, unless a shutdown has begun. */
  method StartProgram(m: Manager, program: string, honourAutostart: bool)
    requires m.Valid()
    modifies m`world, m`turn, m`trace, m`started
    ensures old(m.trace) <= m.trace
    ensures m.Valid() && Evolves(old(m.world), m.world, {})
    ensures old(m.started) <= m.started <= old(m.started) + StartIds(old(m.world), {program}, honourAutostart)
    ensures m.world.shutdown || m.started == old(m.started) + StartIds(old(m.world), {program}, honourAutostart)
  {
    hide Sane, IdsOk, RunWorld, Act, Evolves, AllowedIds, StartIds;
    EvolvesItself(m.world, {});
    var names := m.ProgramProcesses(program);
    NoneAllowed(m.world, honourAutostart);
    for i := 0 to |names|
      invariant m.Valid() && Evolves(old(m.world), m.world, {})
      invariant old(m.trace) <= m.trace
      invariant m.started == old(m.started) + AllowedIds(old(m.world), names[..i], honourAutostart)
    {
      ghost var w := m.world;
      AllowedSnoc(old(m.world), names, i, honourAutostart);
      AllowedIsStartIds(old(m.world), names[..i], program, honourAutostart);
      SettingsEvolved(old(m.world), w, names[i]);
      var shutting := StartIfAllowed(m, names[i], honourAutostart);
      EvolvesFurther(old(m.world), w, m.world, {});
      if shutting {
        return;
      }
    }
    assert names[..|names|] == names;
    AllowedIsStartIds(old(m.world), names, program, honourAutostart);
  }

  lemma NoneAllowed(w: World, honour: bool)
    ensures AllowedIds(w, [], honour) == {}
  {}

  /** Starts the programs of the list that are wanted. */
  method StartThose(m: Manager, programs: seq<string>, wanted: set<string>, honourAutostart: bool)
    requires m.Valid()
    modifies m`world, m`turn, m`trace, m`started
    ensures old(m.trace) <= m.trace
    ensures m.Valid() && Evolves(old(m.world), m.world, {})
    ensures var ids := StartIds(old(m.world), Elements(programs) * wanted, honourAutostart);
      && old(m.started) <= m.started <= old(m.started) + ids
      && (m.world.shutdown || m.started == old(m.started) + ids)
  {
    hide Sane, IdsOk, RunWorld, Act, Evolves, StartIds;
    EvolvesItself(m.world, {});
    StartIdsOfNone(m.world, honourAutostart);
    ghost var upTo: set<string> := {};
    for i := 0 to |programs|
      invariant m.Valid() && Evolves(old(m.world), m.world, {})
      invariant old(m.trace) <= m.trace
      invariant upTo == Elements(programs[..i]) * wanted
      invariant old(m.started) <= m.started <= old(m.started) + StartIds(old(m.world), upTo, honourAutostart)
      invariant m.world.shutdown || m.started == old(m.started) + StartIds(old(m.world), upTo, honourAutostart)
    {
      if programs[i] in wanted {
        ghost var w := m.world;
        StartProgram(m, programs[i], honourAutostart);
        EvolvesFurther(old(m.world), w, m.world, {});
        StartIdsEvolved(old(m.world), w, {programs[i]}, honourAutostart);
        StartIdsMore(old(m.world), upTo, programs[i], honourAutostart);
        ShutdownEvolves(w, m.world);
        upTo := upTo + {programs[i]};
      }
    }
    assert programs[..|programs|] == programs;
  }

  lemma StartIdsOfNone(w: World, honour: bool)
    ensures StartIds(w, {}, honour) == {}
  {}

  lemma StartIdsMore(w: World, programs: set<string>, p: string, honour: bool)
    ensures StartIds(w, programs + {p}, honour) == StartIds(w, programs, honour) + StartIds(w, {p}, honour)
  {}

  // ---------------------------------------------------------------------
  // Changed programs
  // ---------------------------------------------------------------------

  /** The changed programs that must be restarted, in order. */
  function ToRestart(
    was: map<string, ProgramConfig>, now: map<string, ProgramConfig>, changed: seq<string>)
    : seq<string>
    requires forall p :: p in changed ==> p in was && p in now
  {
    if changed == [] then []
    else
      var last := changed[|changed| - 1];
      ToRestart(was, now, changed[..|changed| - 1]) + if NeedsRestart(was[last], now[last]) then [last] else []
  }

  lemma {:induction false} ToRestartMeans(
    was: map<string, ProgramConfig>, now: map<string, ProgramConfig>, changed: seq<string>)
    requires Distinct(changed) && forall p :: p in changed ==> p in was && p in now
    ensures var r := ToRestart(was, now, changed);
      Distinct(r) && forall p :: p in r <==> p in changed && NeedsRestart(was[p], now[p])
  {
    hide NeedsRestart;
    if changed != [] {
      var init := changed[..|changed| - 1];
      assert changed == init + [changed[|changed| - 1]];
      ToRestartMeans(was, now, init);
    }
  }

  ghost function InPlace(
    was: map<string, ProgramConfig>, now: map<string, ProgramConfig>, changed: seq<string>)
    : set<string>
    requires forall p :: p in changed ==> p in was && p in now
  {
    set p | p in changed && !NeedsRestart(was[p], now[p])
  }

  /** The groups of the programs in `updated` take over the new priority. */
  ghost predicate Repriced(
    g: map<string, Group>, g': map<string, Group>, now: map<string, ProgramConfig>, updated: set<string>)
    requires updated <= now.Keys
  {
    && g'.Keys == g.Keys
    && forall p :: p in g ==>
         g'[p] == if p in updated then g[p].(priority := now[p].sup.priority) else g[p]
  }

  ghost predicate AllHold(w: World, programs: map<string, ProgramConfig>, which: set<string>) {
    forall p :: p in which ==> p in programs && Holds(w, p, programs[p])
  }

  lemma AllHoldTouched(
    w: World, w': World, updated: set<string>, programs: map<string, ProgramConfig>, which: set<string>)
    requires Touched(w, w', updated) && AllHold(w, programs, which) && which !! updated
    ensures AllHold(w', programs, which)
  {
    hide Holds, Touched;
    forall p | p in which ensures Holds(w', p, programs[p]) { HoldsTouched(w, w', updated, p, programs[p]); }
  }

  lemma IdsOfTouched(w: World, w': World, updated: set<string>, p: string, programs: set<string>)
    requires Touched(w, w', updated) && p in programs
    ensures IdsOf(w', {p}) <= IdsOf(w, programs)
  {}

  ghost predicate AllTaken(w: World, programs: map<string, ProgramConfig>, which: set<string>) {
    forall p :: p in which ==> p in programs && ConfigsTaken(w, p, programs[p])
  }

  lemma AllTakenTouched(
    w: World, w': World, updated: set<string>, programs: map<string, ProgramConfig>, which: set<string>)
    requires Touched(w, w', updated) && AllTaken(w, programs, which) && which !! updated
    ensures AllTaken(w', programs, which)
  {
    hide NthName, NthConfig, Reached;
    forall p, k: nat | p in which && k < Copies(programs[p]) ensures TakenNth(w', p, programs[p], k) {
      assert ConfigsTaken(w, p, programs[p]);
      assert TakenNth(w, p, programs[p], k);
    }
  }

  /**
    The programs in `done` have been updated in place, those in `left` are
    still as they were; the programs in `sound` were in step.
   */
  ghost predicate Updating(
    w0: World, w: World, g0: map<string, Group>, g: map<string, Group>,
    was: map<string, ProgramConfig>, now: map<string, ProgramConfig>,
    sound: set<string>, done: set<string>, left: set<string>)
  {
    && done <= now.Keys
    && Touched(w0, w, done)
    && AllTaken(w, now, done)
    && AllHold(w, now, done * sound)
    && AllHold(w, was, left * sound)
    && Repriced(g0, g, now, done)
  }

  lemma UpdatingNone(
    w: World, g: map<string, Group>, was: map<string, ProgramConfig>, now: map<string, ProgramConfig>,
    sound: set<string>, left: set<string>)
    requires AllHold(w, was, left * sound)
    ensures Updating(w, w, g, g, was, now, sound, {}, left)
  {
    hide Holds, ConfigsTaken;
    TouchedItself(w, {});
  }

  lemma UpdatingMore(
    w0: World, w: World, w': World, g0: map<string, Group>, g: map<string, Group>, g': map<string, Group>,
    was: map<string, ProgramConfig>, now: map<string, ProgramConfig>,
    sound: set<string>, done: set<string>, left: set<string>, p: string, left': set<string>)
    requires Updating(w0, w, g0, g, was, now, sound, done, left)
    requires p in was && p in now && p !in done && p in left && left' <= left && p !in left'
    requires !NeedsRestart(was[p], now[p])
    requires Touched(w, w', {p}) && ConfigsTaken(w', p, now[p])
    requires g' == if p in g then g[p := g[p].(priority := now[p].sup.priority)] else g
    ensures Updating(w0, w', g0, g', was, now, sound, done + {p}, left')
  {
    hide Holds, Touched, ConfigsTaken, NeedsRestart;
    AllHoldTouched(w, w', {p}, now, done * sound);
    AllHoldTouched(w, w', {p}, was, left' * sound);
    AllTakenTouched(w, w', {p}, now, done);
    if p in sound { TakenHolds(w, w', p, was[p], now[p]); }
    TouchedMore(w0, w, done, done + {p});
    TouchedMore(w, w', {p}, done + {p});
    TouchedFurther(w0, w, w', done + {p});
  }

  lemma UpdatingMeans(
    w0: World, w: World, g0: map<string, Group>, g: map<string, Group>,
    was: map<string, ProgramConfig>, now: map<string, ProgramConfig>,
    sound: set<string>, done: set<string>, left: set<string>, fewer: set<string>)
    requires Updating(w0, w, g0, g, was, now, sound, done, left) && fewer <= left
    ensures Updating(w0, w, g0, g, was, now, sound, done, fewer)
    ensures Touched(w0, w, done) && AllTaken(w, now, done) && AllHold(w, now, done * sound)
    ensures done <= now.Keys && Repriced(g0, g, now, done)
  {
    hide Holds, Touched, ConfigsTaken;
  }

  /** The first loop of ApplyReload: what can be updated in place is, the rest is to be restarted. */
  method UpdateChanged(
    m: Manager, was: map<string, ProgramConfig>, now: map<string, ProgramConfig>, changed: seq<string>,
    ghost sound: set<string>)
    returns (restart: seq<string>)
    requires m.Valid() && NamesDiffer(now)
    requires Distinct(changed) && forall p :: p in changed ==> p in was && p in now
    requires AllHold(m.world, was, InPlace(was, now, changed) * sound)
    modifies m`world, m`turn, m`trace, m`groups, m`commanded
    ensures old(m.trace) <= m.trace
    ensures restart == ToRestart(was, now, changed)
    ensures m.Valid() && Touched(old(m.world), m.world, InPlace(was, now, changed))
    ensures AllTaken(m.world, now, InPlace(was, now, changed))
    ensures AllHold(m.world, now, InPlace(was, now, changed) * sound)
    ensures Repriced(old(m.groups), m.groups, now, InPlace(was, now, changed))
    ensures m.commanded <= old(m.commanded) + IdsOf(old(m.world), Elements(changed))
  {
    hide Sane, IdsOk, RunWorld, Act, Holds, Touched, NamesDiffer, NeedsRestart, LacksNumber, IdsOf, Updating, AllHold,
      AllTaken, ConfigsTaken, Repriced, InPlace;
    restart := [];
    ghost var all := Elements(changed);
    UpdatingNone(m.world, m.groups, was, now, sound, InPlace(was, now, changed));
    SplitChangedEnds(was, now, changed);
    for i := 0 to |changed|
      invariant restart == ToRestart(was, now, changed[..i])
      invariant m.Valid()
      invariant old(m.trace) <= m.trace
      invariant Updating(old(m.world), m.world, old(m.groups), m.groups, was, now, sound,
                         InPlace(was, now, changed[..i]), InPlace(was, now, changed[i..]))
      invariant m.commanded <= old(m.commanded) + IdsOf(old(m.world), all)
    {
      var prog := changed[i];
      ghost var w, g, done, left := m.world, m.groups, InPlace(was, now, changed[..i]), InPlace(was, now, changed[i..]);
      SplitChanged(was, now, changed, i);
      UpdatingMeans(old(m.world), w, old(m.groups), g, was, now, sound, done, left,
                    InPlace(was, now, changed[i + 1..]));
      if NeedsRestart(was[prog], now[prog]) {
        restart := restart + [prog];
      } else {
        DifferentNamesAreNumbered(now, prog);
        IdsOfTouched(old(m.world), w, done, prog, all);
        UpdateInPlace(m, prog, now[prog]);
        UpdatingMore(old(m.world), w, m.world, old(m.groups), g, m.groups, was, now, sound, done, left, prog,
                     InPlace(was, now, changed[i + 1..]));
      }
    }
    UpdatingMeans(old(m.world), m.world, old(m.groups), m.groups, was, now, sound, InPlace(was, now, changed), {}, {});
  }

  lemma SplitChangedEnds(was: map<string, ProgramConfig>, now: map<string, ProgramConfig>, changed: seq<string>)
    requires forall p :: p in changed ==> p in was && p in now
    ensures changed[..|changed|] == changed && changed[0..] == changed
    ensures InPlace(was, now, changed[..0]) == {} && InPlace(was, now, changed[|changed|..]) == {}
  {}

  lemma SplitChanged(was: map<string, ProgramConfig>, now: map<string, ProgramConfig>, changed: seq<string>, i: nat)
    requires Distinct(changed) && i < |changed| && forall p :: p in changed ==> p in was && p in now
    ensures changed[..i + 1] == changed[..i] + [changed[i]]
    ensures ToRestart(was, now, changed[..i + 1])
      == ToRestart(was, now, changed[..i]) + if NeedsRestart(was[changed[i]], now[changed[i]]) then [changed[i]] else []
    ensures InPlace(was, now, changed[..i + 1])
      == if NeedsRestart(was[changed[i]], now[changed[i]]) then InPlace(was, now, changed[..i])
         else InPlace(was, now, changed[..i]) + {changed[i]}
    ensures InPlace(was, now, changed[i + 1..]) <= InPlace(was, now, changed[i..])
    ensures changed[i] !in InPlace(was, now, changed[..i]) && changed[i] !in InPlace(was, now, changed[i + 1..])
    ensures !NeedsRestart(was[changed[i]], now[changed[i]]) ==> changed[i] in InPlace(was, now, changed[i..])
  {
    hide NeedsRestart;
    assert changed[..i + 1][..i] == changed[..i];
    assert changed[i..][0] == changed[i];
  }
}
