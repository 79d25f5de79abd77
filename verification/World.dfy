/**
  All managed processes at once. They share the clock and the shutdown
  channel; every action is a step of one of them.
 */
module Worlds {
  import opened Basics
  import opened Machines
  import opened Lifecycle
  import opened LifecycleSafety
  import opened LifecycleRuns

  /** A Process object; `id` tells it from another one of the same name. */
  datatype Managed = Managed(id: nat, group: string, p: Proc, pending: multiset<Timer>)

  datatype World = World(procs: map<string, Managed>, now: int, shutdown: bool)

  datatype Action = Action(name: string, e: Event)

  /** What one process sees of the world. */
  function View(w: World, name: string): Sys
    requires name in w.procs
  {
    Sys(w.procs[name].p, w.procs[name].pending, w.now, w.shutdown)
  }

  function Act(w: World, a: Action): (w': World)
    ensures w'.procs.Keys == w.procs.Keys
    ensures forall n :: n in w.procs ==> w'.procs[n].id == w.procs[n].id && w'.procs[n].group == w.procs[n].group
  {
    if a.name !in w.procs then w
    else
      var s := Step(View(w, a.name), a.e);
      World(w.procs[a.name := w.procs[a.name].(p := s.p, pending := s.pending)], s.now, s.shutdown)
  }

  function RunWorld(w: World, actions: seq<Action>): (w': World)
    ensures w'.procs.Keys == w.procs.Keys
    ensures forall n :: n in w.procs ==> w'.procs[n].id == w.procs[n].id && w'.procs[n].group == w.procs[n].group
    decreases |actions|
  {
    if actions == [] then w else RunWorld(Act(w, actions[0]), actions[1..])
  }

  // ---------------------------------------------------------------------
  // One process in the world
  // ---------------------------------------------------------------------

  /** What process `name` notices of an action: its own, or that time has passed and a shutdown has begun. */
  function Noticed(w: World, a: Action, name: string): seq<Event>
    requires name in w.procs
  {
    if a.name == name then [a.e]
    else if a.name !in w.procs then []
    else
      TimeGoesOn(View(w, a.name), a.e);
      var w' := Act(w, a);
      [Tick(w'.now - w.now)] + if w'.shutdown && !w.shutdown then [BeginShutdown] else []
  }

  function AllNoticed(w: World, actions: seq<Action>, name: string): seq<Event>
    requires name in w.procs
    decreases |actions|
  {
    if actions == [] then []
    else Noticed(w, actions[0], name) + AllNoticed(Act(w, actions[0]), actions[1..], name)
  }

  lemma {:induction false} StepOfNoTimer(s: Sys, e: Event)
    requires e.Tick? || e.BeginShutdown?
    ensures Step(s, e) == Sys(s.p, s.pending, if e.Tick? then s.now + e.d else s.now, s.shutdown || e.BeginShutdown?)
  {
    assert Enabled(s, e);
    assert s.pending - Ends(e) + Launched(None) == s.pending;
  }

  lemma {:induction false} NoticedIsARun(w: World, a: Action, name: string)
    requires name in w.procs
    ensures View(Act(w, a), name) == Run(View(w, name), Noticed(w, a, name))
  {
    hide Step;
    var s := View(w, name);
    if a.name != name && a.name in w.procs {
      var w' := Act(w, a);
      TimeGoesOn(View(w, a.name), a.e);
      StepOfNoTimer(s, Tick(w'.now - w.now));
      var ticked := Step(s, Tick(w'.now - w.now));
      StepOfNoTimer(ticked, BeginShutdown);
      RunOne(s, Tick(w'.now - w.now));
      RunOne(ticked, BeginShutdown);
      RunConcat(s, [Tick(w'.now - w.now)], [BeginShutdown]);
    } else if a.name == name {
      RunOne(s, a.e);
    }
  }

  /** A run of the world, seen from one process, is a run of that process. */
  lemma {:induction false} WorldRunProjects(w: World, actions: seq<Action>, name: string)
    requires name in w.procs
    ensures View(RunWorld(w, actions), name) == Run(View(w, name), AllNoticed(w, actions, name))
    decreases |actions|
  {
    hide Act, Noticed;
    if actions != [] {
      NoticedIsARun(w, actions[0], name);
      WorldRunProjects(Act(w, actions[0]), actions[1..], name);
      RunConcat(View(w, name), Noticed(w, actions[0], name), AllNoticed(Act(w, actions[0]), actions[1..], name));
    }
  }

  /** Every process the world can hold has grown from a new one by steps of its own. */
  ghost predicate Sane(w: World) {
    forall n :: n in w.procs ==> Inv(w.procs[n].p) && Consistent(w.procs[n].p.m) && LockOk(View(w, n))
  }

  lemma {:induction false} WorldStaysSane(w: World, actions: seq<Action>)
    requires Sane(w)
    ensures Sane(RunWorld(w, actions))
  {
    hide RunWorld, Inv, Consistent, LockOk, View, Run, AllNoticed;
    var w' := RunWorld(w, actions);
    forall n | n in w.procs
      ensures Inv(w'.procs[n].p) && Consistent(w'.procs[n].p.m) && LockOk(View(w', n))
    {
      WorldRunProjects(w, actions, n);
      ViewOf(w, n);
      ViewOf(w', n);
      RunKeeps(View(w, n), AllNoticed(w, actions, n));
      RunKeepsLock(View(w, n), AllNoticed(w, actions, n));
    }
  }

  lemma ViewOf(w: World, n: string)
    requires n in w.procs
    ensures View(w, n).p == w.procs[n].p && View(w, n).shutdown == w.shutdown && View(w, n).now == w.now
  {}

  // ---------------------------------------------------------------------
  // What everything but a reload leaves alone
  // ---------------------------------------------------------------------

  /** No action of the kind only a reload takes. */
  predicate ReloadFree(actions: seq<Action>) {
    forall i :: 0 <= i < |actions| ==> !actions[i].e.Update? && !actions[i].e.Retire?
  }

  /**
    How a process can be found later if nothing has changed its config: a
    retired one that is not up stays down, and in a terminal state it rests.
   */
  ghost predicate Continues(p: Proc, q: Proc) {
    && q.cfg == p.cfg
    && (p.retired ==> q.retired)
    && (p.retired && !AlreadyUp(p.m.state) ==> !AlreadyUp(q.m.state))
    && (p.retired && Terminal(p.m.state) ==> q.m.state == p.m.state)
    && (Inv(p) && Consistent(p.m) ==> Inv(q) && Consistent(q.m))
  }

  lemma {:induction false} RunContinues(s: Sys, es: seq<Event>)
    requires forall i :: 0 <= i < |es| ==> !es[i].Update?
    ensures Continues(s.p, Run(s, es).p)
    decreases |es|
  {
    hide Step, Inv, Consistent;
    if es != [] {
      var s' := Step(s, es[0]);
      StepContinues(s, es[0]);
      forall i | 0 <= i < |es[1..]| ensures !es[1..][i].Update? {}
      RunContinues(s', es[1..]);
    }
  }

  lemma {:induction false} StepContinues(s: Sys, e: Event)
    requires !e.Update?
    ensures Continues(s.p, Step(s, e).p)
  {
    hide Step, Inv, Consistent;
    StepMoves(s, e);
    if s.p.retired { RetiredStep(s, e); }
    if Inv(s.p) && Consistent(s.p.m) { StepKeeps(s, e); }
  }

  /** The same processes, each continued; only those of the programs in `retiring` have been retired. */
  ghost predicate Evolves(w: World, w': World, retiring: set<string>) {
    && w'.procs.Keys == w.procs.Keys
    && (w.shutdown ==> w'.shutdown)
    && forall n :: n in w.procs ==>
         && w'.procs[n].id == w.procs[n].id
         && w'.procs[n].group == w.procs[n].group
         && (w.procs[n].group in retiring || w'.procs[n].p.retired == w.procs[n].p.retired)
         && Continues(w.procs[n].p, w'.procs[n].p)
  }

  lemma {:induction false} EvolvesFurther(a: World, b: World, c: World, retiring: set<string>)
    requires Evolves(a, b, retiring) && Evolves(b, c, retiring)
    ensures Evolves(a, c, retiring)
  {
    hide Inv, Consistent, AlreadyUp, Terminal;
  }

  lemma ShutdownEvolves(w: World, w': World)
    requires Evolves(w, w', {})
    ensures w.shutdown ==> w'.shutdown
  {}

  /** An action other than an update lets the world evolve. */
  lemma {:induction false} ActEvolves(w: World, a: Action, retiring: set<string>)
    requires !a.e.Update?
    requires a.e.Retire? && a.name in w.procs ==> w.procs[a.name].group in retiring
    ensures Evolves(w, Act(w, a), retiring)
  {
    hide Step, Inv, Consistent, Continues;
    if a.name in w.procs {
      TimeGoesOn(View(w, a.name), a.e);
      StepContinues(View(w, a.name), a.e);
      StepMoves(View(w, a.name), a.e);
    }
    forall n | n in w.procs ensures Continues(w.procs[n].p, Act(w, a).procs[n].p) {
      if n != a.name || a.name !in w.procs { ContinuesItself(w.procs[n].p); }
    }
  }

  lemma ContinuesItself(p: Proc)
    ensures Continues(p, p)
  {}

  lemma {:induction false} RunEvolves(w: World, actions: seq<Action>, retiring: set<string>)
    requires ReloadFree(actions)
    ensures Evolves(w, RunWorld(w, actions), retiring)
    decreases |actions|
  {
    hide Act, Evolves, Continues;
    if actions == [] {
      EvolvesItself(w, retiring);
    } else {
      var w' := Act(w, actions[0]);
      ActEvolves(w, actions[0], retiring);
      forall i | 0 <= i < |actions[1..]| ensures !actions[1..][i].e.Update? && !actions[1..][i].e.Retire? {}
      RunEvolves(w', actions[1..], retiring);
      EvolvesFurther(w, w', RunWorld(w', actions[1..]), retiring);
    }
  }

  lemma EvolvesItself(w: World, retiring: set<string>)
    ensures Evolves(w, w, retiring)
  {
    forall n | n in w.procs ensures Continues(w.procs[n].p, w.procs[n].p) { ContinuesItself(w.procs[n].p); }
  }
}
