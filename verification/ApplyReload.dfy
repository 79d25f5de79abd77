/** ConfigDiff and ApplyReload: what a reload from one config to another brings about. */
module Reconfiguration {
  import opened Basics
  import opened Configs
  import opened Machines
  import opened Lifecycle
  import opened LifecycleSafety
  import opened LifecycleRuns
  import opened Worlds
  import opened Ordering
  import opened Names
  import opened Instances
  import opened Managers
  import opened Reloads

  // ---------------------------------------------------------------------
  // ConfigDiff
  // ---------------------------------------------------------------------

  ghost predicate IsDiff(was: Cfg, now: Cfg, added: seq<string>, changed: seq<string>, removed: seq<string>) {
    && (forall p :: p in added <==> p in now.programs && p !in was.programs)
    && (forall p :: p in removed <==> p in was.programs && p !in now.programs)
    && (forall p :: p in changed <==> p in was.programs && p in now.programs && was.programs[p] != now.programs[p])
    && Distinct(added) && Distinct(changed) && Distinct(removed)
  }

  method ConfigDiff(was: Cfg, now: Cfg) returns (added: seq<string>, changed: seq<string>, removed: seq<string>)
    ensures IsDiff(was, now, added, changed, removed)
    ensures NamesAscending(added) && NamesAscending(changed) && NamesAscending(removed)
  {
    added := SortNames(set p | p in now.programs && p !in was.programs);
    removed := SortNames(set p | p in was.programs && p !in now.programs);
    changed := SortNames(set p | p in now.programs && p in was.programs && was.programs[p] != now.programs[p]);
  }

  // ---------------------------------------------------------------------
  // A manager in step with a config
  // ---------------------------------------------------------------------

  /** A program's processes and its implicit group are what its config asks for. */
  ghost predicate Settled(w: World, groups: map<string, Group>, p: string, cfg: ProgramConfig) {
    Holds(w, p, cfg) && p in groups && groups[p] == Group(AllNames(p, cfg), cfg.sup.priority)
  }

  /** In step with `cfg` except for the programs in `except`, which may have any processes. */
  ghost predicate InStepExcept(w: World, groups: map<string, Group>, cfg: Cfg, except: set<string>) {
    && (forall p :: p in cfg.programs && p !in except ==> Settled(w, groups, p, cfg.programs[p]))
    && (forall n :: n in w.procs ==> w.procs[n].group in cfg.programs)
    && groups.Keys <= cfg.programs.Keys + cfg.groups.Keys
  }

  /** Every explicit group lists exactly the processes of its programs. */
  ghost predicate GroupsMatch(groups: map<string, Group>, priorities: map<string, int>, cfg: Cfg) {
    && (forall g :: g in cfg.groups ==>
          g in groups && groups[g] == Group(Members(cfg.groups[g].programs, groups), cfg.groups[g].priority))
    && PrioritiesOf(priorities, cfg.groups, cfg.groups.Keys)
  }

  ghost predicate InStep(w: World, groups: map<string, Group>, priorities: map<string, int>, cfg: Cfg) {
    && InStepExcept(w, groups, cfg, {})
    && GroupsMatch(groups, priorities, cfg)
    && groups.Keys == cfg.programs.Keys + cfg.groups.Keys
  }

  /** In step with a config, the managed names are exactly its instance names. */
  lemma {:induction false} NamesAreExact(
    w: World, groups: map<string, Group>, priorities: map<string, int>, cfg: Cfg, n: string)
    requires InStep(w, groups, priorities, cfg)
    ensures n in w.procs <==> exists p, k: nat ::
      p in cfg.programs && k < Copies(cfg.programs[p]) && n == NthName(p, cfg.programs[p], k)
  {
    hide NthName, NthConfig;
    if n in w.procs {
      var p := w.procs[n].group;
      assert Settled(w, groups, p, cfg.programs[p]);
      assert n in AllNames(p, cfg.programs[p]);
    }
    if p, k: nat :| p in cfg.programs && k < Copies(cfg.programs[p]) && n == NthName(p, cfg.programs[p], k) {
      assert Settled(w, groups, p, cfg.programs[p]);
      assert HoldsNth(w, p, cfg.programs[p], k);
    }
  }

  /** What an explicit group lists, from the groups of its programs. */
  lemma GroupListsItsPrograms(
    groups: map<string, Group>, priorities: map<string, int>, cfg: Cfg, g: string, n: string)
    requires GroupsMatch(groups, priorities, cfg) && g in cfg.groups
    ensures n in groups[g].processes
      <==> exists p :: p in cfg.groups[g].programs && p in groups && n in groups[p].processes
  {
    hide Members;
    MembersAre(cfg.groups[g].programs, groups, n);
  }

  /** In step with a config, an explicit group lists the processes of its programs, in the order it names them. */
  lemma {:induction false} GroupListsAllNames(
    w: World, groups: map<string, Group>, priorities: map<string, int>, cfg: Cfg, g: string)
    requires InStep(w, groups, priorities, cfg) && Validated(cfg) && g in cfg.groups
    ensures var ps := cfg.groups[g].programs;
      && (forall p :: p in ps ==> p in cfg.programs)
      && groups[g].processes == Flatten(seq(|ps|, i requires 0 <= i < |ps| => AllNames(ps[i], cfg.programs[ps[i]])))
  {
    hide Holds, Members, AllNames;
    var ps := cfg.groups[g].programs;
    var lists := seq(|ps|, i requires 0 <= i < |ps| => AllNames(ps[i], cfg.programs[ps[i]]));
    forall i | 0 <= i < |ps| ensures ps[i] in groups && groups[ps[i]].processes == lists[i] {
      assert Settled(w, groups, ps[i], cfg.programs[ps[i]]);
    }
    MembersInOrder(ps, groups, lists);
  }

  /** No name the program asks for is held by another program's process. */
  ghost predicate NamesFree(w: World, p: string, cfg: ProgramConfig) {
    forall n :: n in AllNames(p, cfg) && n in w.procs ==> w.procs[n].group == p
  }

  /** The program has neither processes nor a group. */
  ghost predicate Absent(w: World, groups: map<string, Group>, p: string) {
    p !in groups && forall n :: n in w.procs ==> w.procs[n].group != p
  }

  // ---------------------------------------------------------------------
  // Loading the new config
  // ---------------------------------------------------------------------

  /** What LoadConfig makes of a program that was in step or not there at all. */
  lemma {:induction false} LoadSettles(
    w0: World, g0: map<string, Group>, w1: World, implicit: map<string, Group>, g1: map<string, Group>, cfg: Cfg,
    p: string)
    requires Validated(cfg) && p in cfg.programs
    requires Created(w0, w1, cfg.programs, cfg.programs.Keys)
    requires ImplicitGroups(g0, implicit, w0.procs.Keys, cfg.programs, cfg.programs.Keys)
    requires ExplicitGroups(implicit, g1, cfg.groups, cfg.groups.Keys)
    requires Settled(w0, g0, p, cfg.programs[p]) || (Absent(w0, g0, p) && NamesFree(w1, p, cfg.programs[p]))
    ensures Settled(w1, g1, p, cfg.programs[p])
  {
    hide NthName, NthConfig, NewProc, NamesDiffer, Missing, Members;
    var c := cfg.programs[p];
    var names := AllNames(p, c);
    if Absent(w0, g0, p) {
      forall n | n in names ensures n !in w0.procs {}
      NoneMissing(names, w0.procs.Keys);
    }
    forall k: nat | k < Copies(c) ensures HoldsNth(w1, p, c, k) {
      assert AddedNth(w0, w1, p, c, k);
      assert names[k] in names;
      if Settled(w0, g0, p, c) { assert HoldsNth(w0, p, c, k); } else { NewIsNotRetired(NthConfig(c, k)); }
    }
  }

  lemma NewIsNotRetired(cfg: ProgramConfig)
    ensures NewProc(cfg).cfg == cfg && !NewProc(cfg).retired
  {}

  /** The explicit groups agree with the implicit ones they are made from. */
  lemma {:induction false} LoadedGroupsMatch(
    g0: map<string, Group>, taken: set<string>, implicit: map<string, Group>, g1: map<string, Group>,
    priorities: map<string, int>, cfg: Cfg)
    requires Validated(cfg)
    requires ImplicitGroups(g0, implicit, taken, cfg.programs, cfg.programs.Keys)
    requires ExplicitGroups(implicit, g1, cfg.groups, cfg.groups.Keys)
    requires PrioritiesOf(priorities, cfg.groups, cfg.groups.Keys)
    ensures GroupsMatch(g1, priorities, cfg)
    ensures g1.Keys == g0.Keys + cfg.programs.Keys + cfg.groups.Keys
  {
    hide NamesDiffer, Members, Missing, AllNames;
    forall g | g in cfg.groups
      ensures Members(cfg.groups[g].programs, implicit) == Members(cfg.groups[g].programs, g1)
    {
      MembersAgree(cfg.groups[g].programs, implicit, g1);
    }
  }

  // ---------------------------------------------------------------------
  // The parts of ApplyReload
  // ---------------------------------------------------------------------

  /** The same objects under the same names. */
  ghost predicate SameObjects(w: World, w': World) {
    && w'.procs.Keys == w.procs.Keys
    && forall n :: n in w.procs ==> w'.procs[n].id == w.procs[n].id && w'.procs[n].group == w.procs[n].group
  }

  lemma SameObjectsThroughout(w0: World, w1: World, w2: World, updated: set<string>, retiring: set<string>)
    requires Touched(w0, w1, updated) && Evolves(w1, w2, retiring)
    ensures SameObjects(w0, w2)
  {
    hide Continues;
  }

  lemma SameObjectsEvolved(w: World, w': World, retiring: set<string>)
    requires Evolves(w, w', retiring)
    ensures SameObjects(w, w')
  {
    hide Continues;
  }

  lemma FlaggedMoved(
    w: World, w': World, programs: set<string>, seen: map<string, State>, counts: State -> bool, flagged: set<string>)
    requires SameObjects(w, w') && FlaggedBy(w', programs, seen, counts, flagged)
    ensures FlaggedBy(w, programs, seen, counts, flagged)
  {}

  lemma TouchedAsRetired(w: World, w': World, updated: set<string>)
    requires Touched(w, w', updated)
    ensures AsRetired(w, w')
  {}

  lemma AsRetiredItself(w: World)
    ensures AsRetired(w, w)
  {}

  lemma SeenEarlier(from: nat, next: nat, trace: seq<World>, seen: map<string, State>)
    requires SeenIn(next, trace, seen) && from <= next
    ensures SeenIn(from, trace, seen)
  {}

  lemma WaitedForMoved(w: World, w': World, seen: map<string, State>, gaveUp: set<nat>)
    requires SameObjects(w, w') && WaitedFor(w', seen, gaveUp)
    ensures WaitedFor(w, seen, gaveUp)
  {
    hide Terminal;
  }

  /** From reading which programs are active to the end of the wait. */
  method TakeDown(m: Manager, restart: seq<string>, retiring: seq<string>)
    returns (active: set<string>, stuck: set<string>, ghost before: map<string, State>, ghost after: map<string, State>)
    requires m.Valid() && Distinct(restart) && Distinct(retiring)
    modifies m`world, m`turn, m`trace, m`commanded, m`gaveUp
    ensures old(m.trace) <= m.trace
    ensures WaitedFor(old(m.world), after, m.gaveUp)
    ensures SeenBeforeRetiring(old(m.world), |old(m.trace)|, m.trace, before) && SeenIn(|old(m.trace)|, m.trace, after)
    ensures var all := Elements(retiring);
      && m.commanded <= old(m.commanded) + IdsOf(old(m.world), all)
      && m.Valid() && Evolves(old(m.world), m.world, all)
    ensures FlaggedBy(old(m.world), Elements(restart), before, s => AlreadyUp(s), active)
    ensures DownIsSeen(old(m.world), before)
    ensures FlaggedBy(old(m.world), Elements(retiring), after, s => !Terminal(s), stuck)
    ensures forall k :: 0 <= k < |retiring| ==> AllReached(m.world, retiring[k], if retiring[k] in stuck then 2 else 3)
  {
    hide Sane, IdsOk, Evolves, FlaggedBy, DownIsSeen, AllReached, IdsOf, WaitedFor, SeenIn,
      AllAsRetired, SeenBeforeRetiring;
    ghost var all := Elements(retiring);
    ghost var w0 := m.world;
    active, before := MarkActive(m, restart);
    ghost var w1, marked := m.world, m.trace;
    EvolvesAllowing(w0, w1, {}, all);
    RetireAll(m, retiring, all);
    ghost var w2 := m.world;
    IdsOfEvolved(w0, w1, all, all);
    EvolvesFurther(w0, w1, w2, all);
    StopAll(m, retiring, all);
    ghost var w3 := m.world;
    IdsOfEvolved(w0, w2, all, all);
    EvolvesAllowing(w2, w3, {}, all);
    EvolvesFurther(w0, w2, w3, all);
    ghost var stopped := m.trace;
    stuck, after := AwaitAll(m, retiring);
    SeenBeforeAll(w0, |old(m.trace)|, marked, m.trace, before);
    SeenEarlier(|old(m.trace)|, |stopped|, m.trace, after);
    SameObjectsEvolved(w0, w3, all);
    FlaggedMoved(w0, w3, all, after, s => !Terminal(s), stuck);
    WaitedForMoved(w0, w3, after, m.gaveUp);
    EvolvesAllowing(w3, m.world, {}, all);
    EvolvesFurther(w0, w3, m.world, all);
  }

  /** The groups that remain when the programs in `gone` have been removed. */
  function Kept(groups: map<string, Group>, gone: set<string>, cfg: Cfg, stuck: set<string>): map<string, Group> {
    map g | g in groups - gone && (g in cfg.programs || g in cfg.groups || g in stuck) :: groups[g]
  }

  /** From removing what has stopped to loading the new config. */
  method Replace(m: Manager, cfg: Cfg, retiring: seq<string>, stuck: set<string>)
    returns (ghost implicit: map<string, Group>)
    requires m.Valid() && Validated(cfg)
    requires forall k :: 0 <= k < |retiring| && retiring[k] !in stuck ==> AllReached(m.world, retiring[k], 3)
    modifies m`world, m`groups, m`groupPriority, m`nextId
    ensures m.Valid() && m.nextId >= old(m.nextId)
    ensures var gone := Elements(retiring) - stuck;
      var left := WithoutAll(old(m.world), gone);
      var kept := Kept(old(m.groups), gone, cfg, stuck);
      && Created(left, m.world, cfg.programs, cfg.programs.Keys)
      && NewFrom(left, m.world, old(m.nextId))
      && ImplicitGroups(kept, implicit, left.procs.Keys, cfg.programs, cfg.programs.Keys)
      && ExplicitGroups(implicit, m.groups, cfg.groups, cfg.groups.Keys)
      && PrioritiesOf(m.groupPriority, cfg.groups, cfg.groups.Keys)
  {
    hide Sane, IdsOk, AllReached, WithoutAll, Created, NewFrom, ImplicitGroups, ExplicitGroups, PrioritiesOf, Validated,
      NamesDiffer;
    RemoveAll(m, retiring, stuck);
    RemoveStaleGroups(m, cfg, stuck);
    ghost var kept, left := m.groups, m.world.procs.Keys;
    assert kept == Kept(old(m.groups), Elements(retiring) - stuck, cfg, stuck);
    ValidatedNames(cfg);
    m.LoadConfig(cfg);
    implicit :|
      && ImplicitGroups(kept, implicit, left, cfg.programs, cfg.programs.Keys)
      && ExplicitGroups(implicit, m.groups, cfg.groups, cfg.groups.Keys);
  }

  // ---------------------------------------------------------------------
  // From beginning to end
  // ---------------------------------------------------------------------

  /** The programs a reload stops and creates afresh. */
  ghost function Restarting(was: Cfg, now: Cfg): set<string> {
    set p | p in was.programs && p in now.programs && NeedsRestart(was.programs[p], now.programs[p])
  }

  /** The programs a reload stops: those and the removed ones. */
  ghost function Retiring(was: Cfg, now: Cfg): set<string> {
    (set p | p in was.programs && p !in now.programs) + Restarting(was, now)
  }

  lemma UnchangedNeedsNoRestart(was: Cfg, now: Cfg, p: string)
    requires p in was.programs && p in now.programs && was.programs[p] == now.programs[p]
    ensures p !in Retiring(was, now)
  {}

  /** The list of programs to stop is `Retiring`, without repetition. */
  lemma RetiringIs(was: Cfg, now: Cfg, added: seq<string>, changed: seq<string>, removed: seq<string>)
    requires IsDiff(was, now, added, changed, removed)
    ensures var restart := ToRestart(was.programs, now.programs, changed);
      && Distinct(restart) && Distinct(removed + restart)
      && Elements(removed + restart) == Retiring(was, now)
      && Elements(restart) == Restarting(was, now)
      && InPlace(was.programs, now.programs, changed) !! Retiring(was, now)
      && Elements(changed) + Retiring(was, now) == Elements(changed) + Elements(removed)
  {
    hide NeedsRestart;
    ToRestartMeans(was.programs, now.programs, changed);
    forall p | p in was.programs && p in now.programs && NeedsRestart(was.programs[p], now.programs[p])
      ensures p in changed
    {
      if was.programs[p] == now.programs[p] { UnchangedNeedsNoRestart(was, now, p); }
    }
    var restart := ToRestart(was.programs, now.programs, changed);
    DistinctConcat(removed, restart);
  }

  lemma DistinctConcat(a: seq<string>, b: seq<string>)
    requires Distinct(a) && Distinct(b) && forall p :: p in b ==> p !in a
    ensures Distinct(a + b)
  {
    var c := a + b;
    forall i, j | 0 <= i < j < |c| ensures c[i] != c[j] {
      if i < |a| && |a| <= j { assert c[i] == a[i] && c[i] in a && c[j] == b[j - |a|] && c[j] in b; }
    }
  }

  /** A kept program is in step with the new config before anything is removed. */
  lemma {:induction false} KeptSettles(
    w0: World, g0: map<string, Group>, w1: World, g1: map<string, Group>, w2: World, was: Cfg, now: Cfg,
    changed: seq<string>, p: string)
    requires forall q :: q in changed <==> q in was.programs && q in now.programs && was.programs[q] != now.programs[q]
    requires p in was.programs && p in now.programs && p !in Retiring(was, now)
    requires Settled(w0, g0, p, was.programs[p])
    requires var updated := InPlace(was.programs, now.programs, changed);
      && Touched(w0, w1, updated) && Repriced(g0, g1, now.programs, updated)
      && (p in updated ==> Holds(w1, p, now.programs[p]))
    requires Evolves(w1, w2, Retiring(was, now))
    ensures Settled(w2, g1, p, now.programs[p])
  {
    hide Holds, Touched, Evolves, NeedsRestart, AllNames;
    var updated := InPlace(was.programs, now.programs, changed);
    if p in changed {
      assert p in updated;
      SameInstances(w0, p, was.programs[p], now.programs[p]);
    } else {
      HoldsTouched(w0, w1, updated, p, was.programs[p]);
    }
    HoldsEvolves(w1, w2, Retiring(was, now), p, now.programs[p]);
  }

  lemma WithoutSettles(
    w: World, g: map<string, Group>, g': map<string, Group>, gone: set<string>, p: string, cfg: ProgramConfig)
    requires Settled(w, g, p, cfg) && p !in gone && p in g' && g'[p] == g[p]
    ensures Settled(WithoutAll(w, gone), g', p, cfg)
  {
    hide NthName, NthConfig, AllNames;
    forall k: nat | k < Copies(cfg) ensures HoldsNth(WithoutAll(w, gone), p, cfg, k) { assert HoldsNth(w, p, cfg, k); }
  }

  lemma EvolvedSettles(w: World, w': World, g: map<string, Group>, p: string, cfg: ProgramConfig)
    requires Settled(w, g, p, cfg) && Evolves(w, w', {})
    ensures Settled(w', g, p, cfg)
  {
    hide Holds, Evolves;
    HoldsEvolves(w, w', {}, p, cfg);
  }

  lemma NamesFreeEvolved(w: World, w': World, p: string, cfg: ProgramConfig)
    requires Evolves(w, w', {})
    ensures NamesFree(w, p, cfg) <==> NamesFree(w', p, cfg)
  {
    hide Continues;
  }

  /**
    What a reload makes of the processes: `w0` before it, `w` after it. The
    programs in `loose` may have processes their configs do not ask for.
   */
  ghost predicate Replaced(
    w0: World, w: World, nextId: nat, now: Cfg, retiring: set<string>, stuck: set<string>, loose: set<string>)
  {
    // what is not stopped, and what could not be stopped, is still there: the same objects
    && (forall n :: n in w0.procs && (w0.procs[n].group !in retiring || w0.procs[n].group in stuck) ==>
          n in w.procs && w.procs[n].id == w0.procs[n].id && w.procs[n].group == w0.procs[n].group)
    // everything else is new
    && (forall n :: n in w.procs && w.procs[n].id < nextId ==>
          n in w0.procs && w.procs[n].id == w0.procs[n].id
          && (w0.procs[n].group !in retiring || w0.procs[n].group in stuck))
    // and nothing is managed that neither the new config asks for nor an earlier reload has left
    && forall n :: n in w.procs ==>
         var p := w.procs[n].group;
         p in loose || (p in now.programs && n in AllNames(p, now.programs[p]))
  }

  /** Removing and loading, without what happens before and after. */
  lemma {:induction false} ReplacedBetween(
    w2: World, g2: map<string, Group>, w3: World, nextId: nat, was: Cfg, now: Cfg,
    retiring: set<string>, stuck: set<string>, behind: set<string>)
    requires IdsOk(w2, nextId)
    requires Created(WithoutAll(w2, retiring - stuck), w3, now.programs, now.programs.Keys)
    requires NewFrom(WithoutAll(w2, retiring - stuck), w3, nextId)
    requires forall n :: n in w2.procs ==> w2.procs[n].group in was.programs
    requires forall p :: p in was.programs && p !in retiring && p !in behind ==>
      p in now.programs && Settled(w2, g2, p, now.programs[p])
    ensures Replaced(w2, w3, nextId, now, retiring, stuck, stuck + (behind - retiring))
  {
    hide HoldsNth, AllNames, AddedAll;
  }

  lemma ReplacedSame(
    w0: World, w2: World, w3: World, w4: World, nextId: nat, now: Cfg,
    retiring: set<string>, stuck: set<string>, loose: set<string>)
    requires SameObjects(w0, w2) && SameObjects(w3, w4)
    requires Replaced(w2, w3, nextId, now, retiring, stuck, loose)
    ensures Replaced(w0, w4, nextId, now, retiring, stuck, loose)
  {
    hide AllNames;
  }

  /** The processes a reload drops, as they are when it drops them. */
  ghost predicate DroppedAtRest(w0: World, dropped: map<string, Managed>, gone: set<string>) {
    && (forall n :: n in dropped <==> n in w0.procs && w0.procs[n].group in gone)
    && forall n :: n in dropped ==>
         && dropped[n].id == w0.procs[n].id
         && Inv(dropped[n].p) && Consistent(dropped[n].p.m)
         && Reached(dropped[n].p, 3)
  }

  /** The processes of a stuck program are retired and no longer up, though they may not have stopped yet. */
  ghost predicate StuckAreDown(w0: World, w: World, stuck: set<string>) {
    forall n :: n in w0.procs && w0.procs[n].group in stuck ==> n in w.procs && Reached(w.procs[n].p, 2)
  }

  lemma {:induction false} StuckStayDown(
    w0: World, w2: World, w3: World, retiring: seq<string>, stuck: set<string>, gone: set<string>,
    programs: map<string, ProgramConfig>)
    requires SameObjects(w0, w2) && gone == Elements(retiring) - stuck && stuck <= Elements(retiring)
    requires forall k :: 0 <= k < |retiring| ==> AllReached(w2, retiring[k], if retiring[k] in stuck then 2 else 3)
    requires Created(WithoutAll(w2, gone), w3, programs, programs.Keys)
    ensures StuckAreDown(w0, w3, stuck)
  {
    hide Reached, AddedAll, AllNames;
    forall n | n in w0.procs && w0.procs[n].group in stuck ensures n in w3.procs && Reached(w3.procs[n].p, 2) {
      var k :| 0 <= k < |retiring| && retiring[k] == w0.procs[n].group;
      assert AllReached(w2, retiring[k], 2);
      assert n in WithoutAll(w2, gone).procs;
    }
  }

  lemma StuckAreDownEvolved(w0: World, w: World, w': World, stuck: set<string>)
    requires StuckAreDown(w0, w, stuck) && Evolves(w, w', {})
    ensures StuckAreDown(w0, w', stuck)
  {
    hide Inv, Consistent;
  }

  lemma {:induction false} DropsAtRest(
    w0: World, w: World, retiring: seq<string>, stuck: set<string>, gone: set<string>)
    requires SameObjects(w0, w) && Sane(w)
    requires gone == Elements(retiring) - stuck
    requires forall k :: 0 <= k < |retiring| ==> AllReached(w, retiring[k], if retiring[k] in stuck then 2 else 3)
    ensures DroppedAtRest(w0, map n | n in w.procs && w.procs[n].group in gone :: w.procs[n], gone)
  {
    hide Inv, Consistent, Reached;
    forall n | n in w.procs && w.procs[n].group in gone ensures Reached(w.procs[n].p, 3) {
      var k :| 0 <= k < |retiring| && retiring[k] == w.procs[n].group;
      assert AllReached(w, retiring[k], 3);
    }
  }

  /**
    Everything the new config asks for is in step, unless it belongs to a
    program in `loose` or another program holds its name.
   */
  ghost predicate StepsIn(w: World, groups: map<string, Group>, now: Cfg, loose: set<string>) {
    forall p :: p in now.programs && p !in loose && NamesFree(w, p, now.programs[p]) ==>
      Settled(w, groups, p, now.programs[p])
  }

  lemma {:induction false} LoadStepsIn(
    w2: World, g2: map<string, Group>, w3: World, implicit: map<string, Group>, g3: map<string, Group>,
    was: Cfg, now: Cfg, stuck: set<string>, behind: set<string>)
    requires Validated(now)
    requires (was.programs.Keys + now.programs.Keys) !! (was.groups.Keys + now.groups.Keys)
    requires forall n :: n in w2.procs ==> w2.procs[n].group in was.programs
    requires g2.Keys <= was.programs.Keys + was.groups.Keys
    requires forall p :: p in was.programs && p !in Retiring(was, now) && p !in behind ==>
      p in now.programs && Settled(w2, g2, p, now.programs[p])
    requires var gone := Retiring(was, now) - stuck;
      var left := WithoutAll(w2, gone);
      var kept := Kept(g2, gone, now, stuck);
      && Created(left, w3, now.programs, now.programs.Keys)
      && ImplicitGroups(kept, implicit, left.procs.Keys, now.programs, now.programs.Keys)
      && ExplicitGroups(implicit, g3, now.groups, now.groups.Keys)
    ensures StepsIn(w3, g3, now, stuck + (behind - Retiring(was, now)))
  {
    hide Settled, NamesFree, ImplicitGroups, ExplicitGroups, Created, Validated, NeedsRestart;
    var gone := Retiring(was, now) - stuck;
    var left, kept := WithoutAll(w2, gone), Kept(g2, gone, now, stuck);
    var loose := stuck + (behind - Retiring(was, now));
    forall p | p in now.programs && p !in loose && NamesFree(w3, p, now.programs[p])
      ensures Settled(w3, g3, p, now.programs[p])
    {
      var c := now.programs[p];
      if p in was.programs && p !in Retiring(was, now) {
        SettledHasGroup(w2, g2, p, c);
        WithoutSettles(w2, g2, kept, gone, p, c);
      } else {
        assert p !in kept;
      }
      LoadSettles(left, kept, w3, implicit, g3, now, p);
    }
  }

  lemma SettledHasGroup(w: World, g: map<string, Group>, p: string, cfg: ProgramConfig)
    requires Settled(w, g, p, cfg)
    ensures p in g
  {}

  lemma InPlaceHolds(
    w: World, g: map<string, Group>, was: Cfg, now: Cfg, changed: seq<string>, behind: set<string>)
    requires InStepExcept(w, g, was, behind)
    requires forall p :: p in changed ==> p in was.programs && p in now.programs
    ensures AllHold(w, was.programs, InPlace(was.programs, now.programs, changed) * (was.programs.Keys - behind))
  {
    hide Holds, NeedsRestart;
    forall p | p in InPlace(was.programs, now.programs, changed) && p !in behind
      ensures p in was.programs && Holds(w, p, was.programs[p])
    {
      assert Settled(w, g, p, was.programs[p]);
    }
  }

  lemma IdsOfBoth(
    w0: World, w1: World, updated: set<string>, changed: set<string>, removed: set<string>, retiring: set<string>)
    requires Touched(w0, w1, updated) && retiring <= changed + removed
    ensures IdsOf(w1, retiring) <= IdsOf(w0, changed + removed)
    ensures IdsOf(w0, changed) <= IdsOf(w0, changed + removed)
  {}

  lemma {:induction false} AllKeptSettle(
    w0: World, g0: map<string, Group>, w1: World, g1: map<string, Group>, w2: World, was: Cfg, now: Cfg,
    changed: seq<string>, behind: set<string>)
    requires forall q :: q in changed <==> q in was.programs && q in now.programs && was.programs[q] != now.programs[q]
    requires InStepExcept(w0, g0, was, behind)
    requires var updated := InPlace(was.programs, now.programs, changed);
      && Touched(w0, w1, updated) && Repriced(g0, g1, now.programs, updated)
      && AllHold(w1, now.programs, updated * (was.programs.Keys - behind))
    requires Evolves(w1, w2, Retiring(was, now))
    ensures forall p :: p in was.programs && p !in Retiring(was, now) && p !in behind ==>
      p in now.programs && Settled(w2, g1, p, now.programs[p])
    ensures forall n :: n in w2.procs ==> w2.procs[n].group in was.programs
    ensures g1.Keys <= was.programs.Keys + was.groups.Keys
    ensures SameObjects(w0, w2)
  {
    hide Settled, Touched, Holds, Evolves, NeedsRestart;
    SameObjectsThroughout(w0, w1, w2, InPlace(was.programs, now.programs, changed), Retiring(was, now));
    forall p | p in was.programs && p !in Retiring(was, now) && p !in behind
      ensures p in now.programs && Settled(w2, g1, p, now.programs[p])
    {
      KeptSettles(w0, g0, w1, g1, w2, was, now, changed, p);
    }
  }

  lemma FlaggedAreIn(
    w: World, programs: set<string>, seen: map<string, State>, counts: State -> bool, flagged: set<string>)
    requires FlaggedBy(w, programs, seen, counts, flagged)
    ensures flagged <= programs
  {}

  /** What is started, with the ids read at the end. */
  lemma StartedAtEnd(
    w3: World, w4: World, w5: World, a: set<string>, b: set<string>, s0: set<nat>, s1: set<nat>, s2: set<nat>)
    requires Evolves(w3, w4, {}) && Evolves(w4, w5, {})
    requires var ids := StartIds(w3, a, false); s0 <= s1 <= s0 + ids && (w4.shutdown || s1 == s0 + ids)
    requires var ids := StartIds(w4, b, true); s1 <= s2 <= s1 + ids && (w5.shutdown || s2 == s1 + ids)
    ensures var ids := StartIds(w5, a, false) + StartIds(w5, b, true);
      s0 <= s2 <= s0 + ids && (w5.shutdown || s2 == s0 + ids)
  {
    hide StartIds, Evolves;
    StartIdsEvolved(w3, w4, a, false);
    StartIdsEvolved(w4, w5, a, false);
    StartIdsEvolved(w4, w5, b, true);
    ShutdownEvolves(w4, w5);
  }

  lemma StepsInEvolved(w: World, w': World, g: map<string, Group>, now: Cfg, loose: set<string>)
    requires StepsIn(w, g, now, loose) && Evolves(w, w', {})
    ensures StepsIn(w', g, now, loose)
  {
    hide Settled, NamesFree, Evolves;
    forall p | p in now.programs && p !in loose && NamesFree(w', p, now.programs[p])
      ensures Settled(w', g, p, now.programs[p])
    {
      NamesFreeEvolved(w, w', p, now.programs[p]);
      EvolvedSettles(w, w', g, p, now.programs[p]);
    }
  }

  /** What is still there and was retired and down still is. */
  ghost predicate DownAfter(w0: World, w: World) {
    forall n :: n in w0.procs && n in w.procs && w.procs[n].id == w0.procs[n].id && Reached(w0.procs[n].p, 2) ==>
      Reached(w.procs[n].p, 2)
  }

  lemma {:induction false} DownThroughout(
    w0: World, w1: World, w2: World, w3: World, nextId: nat, updated: set<string>, retiring: set<string>,
    gone: set<string>, programs: map<string, ProgramConfig>)
    requires IdsOk(w0, nextId)
    requires Touched(w0, w1, updated) && Evolves(w1, w2, retiring)
    requires Created(WithoutAll(w2, gone), w3, programs, programs.Keys)
    requires NewFrom(WithoutAll(w2, gone), w3, nextId)
    ensures DownAfter(w0, w3)
  {
    hide AddedAll, AllNames, Inv, Consistent, AlreadyUp, Terminal;
    forall n | n in w0.procs && n in w3.procs && w3.procs[n].id == w0.procs[n].id && Reached(w0.procs[n].p, 2)
      ensures Reached(w3.procs[n].p, 2)
    {
      assert n in WithoutAll(w2, gone).procs;
      assert Reached(w1.procs[n].p, 2) && Reached(w2.procs[n].p, 2);
    }
  }

  lemma DownAfterEvolved(w0: World, w: World, w': World)
    requires DownAfter(w0, w) && Evolves(w, w', {})
    ensures DownAfter(w0, w')
  {
    hide Inv, Consistent, AlreadyUp, Terminal;
  }

  /** Every name the config asks for is managed, if not always as a process of the right program. */
  ghost predicate AllNamesTaken(w: World, cfg: Cfg) {
    forall p, n :: p in cfg.programs && n in AllNames(p, cfg.programs[p]) ==> n in w.procs
  }

  lemma {:induction false} CreatedTakesAllNames(w0: World, w1: World, cfg: Cfg)
    requires Created(w0, w1, cfg.programs, cfg.programs.Keys)
    ensures AllNamesTaken(w1, cfg)
  {
    hide NthName, NthConfig;
    forall p, n | p in cfg.programs && n in AllNames(p, cfg.programs[p]) ensures n in w1.procs {
      var k :| 0 <= k < Copies(cfg.programs[p]) && AllNames(p, cfg.programs[p])[k] == n;
      assert AddedNth(w0, w1, p, cfg.programs[p], k);
    }
  }

  /** Every process created since `nextId` is the one the config asks for under its name. */
  ghost predicate NewHold(w: World, nextId: nat, cfg: Cfg) {
    forall p, k: nat :: p in cfg.programs && k < Copies(cfg.programs[p]) ==>
      NewHoldsNth(w, nextId, p, cfg.programs[p], k)
  }

  ghost predicate NewHoldsNth(w: World, nextId: nat, p: string, cfg: ProgramConfig, k: nat) {
    var n := NthName(p, cfg, k);
    n in w.procs && w.procs[n].id >= nextId ==> HoldsNth(w, p, cfg, k)
  }

  lemma {:induction false} CreatedNewHold(w0: World, w1: World, nextId: nat, cfg: Cfg)
    requires Created(w0, w1, cfg.programs, cfg.programs.Keys)
    requires forall n :: n in w0.procs ==> w0.procs[n].id < nextId
    ensures NewHold(w1, nextId, cfg)
  {
    hide NthName, NthConfig, NewProc, AllNames;
    forall p, k: nat | p in cfg.programs && k < Copies(cfg.programs[p])
      ensures NewHoldsNth(w1, nextId, p, cfg.programs[p], k)
    {
      assert AddedNth(w0, w1, p, cfg.programs[p], k);
      NewIsNotRetired(NthConfig(cfg.programs[p], k));
    }
  }

  lemma {:induction false} NewHoldEvolved(w: World, w': World, nextId: nat, cfg: Cfg)
    requires NewHold(w, nextId, cfg) && Evolves(w, w', {})
    ensures NewHold(w', nextId, cfg)
  {
    hide NthName, NthConfig, Inv, Consistent, AlreadyUp, Terminal;
    forall p, k: nat | p in cfg.programs && k < Copies(cfg.programs[p])
      ensures NewHoldsNth(w', nextId, p, cfg.programs[p], k)
    {
      assert NewHoldsNth(w, nextId, p, cfg.programs[p], k);
    }
  }

  lemma AllNamesTakenEvolved(w: World, w': World, cfg: Cfg)
    requires AllNamesTaken(w, cfg) && Evolves(w, w', {})
    ensures AllNamesTaken(w', cfg)
  {
    hide Continues, AllNames;
  }

  /** The group of a program that is not stopped lists the processes it listed before, and no others. */
  ghost predicate ListsKept(g0: map<string, Group>, g: map<string, Group>, was: Cfg, now: Cfg) {
    forall p :: p in g0 && p in was.programs && p !in Retiring(was, now) ==>
      p in now.programs && p in g && g[p].processes == g0[p].processes
  }

  lemma {:induction false} ListsAreKept(
    g0: map<string, Group>, g1: map<string, Group>, implicit: map<string, Group>, g3: map<string, Group>,
    was: Cfg, now: Cfg, updated: set<string>, stuck: set<string>, taken: set<string>)
    requires now.programs.Keys !! now.groups.Keys && updated <= now.programs.Keys
    requires Repriced(g0, g1, now.programs, updated)
    requires var kept := Kept(g1, Retiring(was, now) - stuck, now, stuck);
      ImplicitGroups(kept, implicit, taken, now.programs, now.programs.Keys)
    requires ExplicitGroups(implicit, g3, now.groups, now.groups.Keys)
    ensures ListsKept(g0, g3, was, now)
  {
    hide AllNames, Missing, Members, NeedsRestart;
    var kept := Kept(g1, Retiring(was, now) - stuck, now, stuck);
    forall p | p in g0 && p in was.programs && p !in Retiring(was, now)
      ensures p in now.programs && p in g3 && g3[p].processes == g0[p].processes
    {
      assert p in kept && kept[p] == g1[p];
    }
  }

  /** The programs whose processes need not be those the new config asks for. */
  ghost function Loose(was: Cfg, now: Cfg, stuck: set<string>, behind: set<string>): set<string> {
    stuck + (behind - Retiring(was, now))
  }

  /** ApplyReload up to the point where programs are started. */
  method Exchange(
    m: Manager, was: Cfg, now: Cfg, added: seq<string>, changed: seq<string>, removed: seq<string>,
    ghost behind: set<string>)
    returns (restart: seq<string>, active: set<string>, stuck: set<string>,
             ghost before: map<string, State>, ghost after: map<string, State>, ghost dropped: map<string, Managed>)
    requires m.Valid() && Validated(now) && IsDiff(was, now, added, changed, removed)
    requires (was.programs.Keys + now.programs.Keys) !! (was.groups.Keys + now.groups.Keys)
    requires InStepExcept(m.world, m.groups, was, behind)
    modifies m`world, m`turn, m`trace, m`groups, m`groupPriority, m`nextId, m`commanded, m`gaveUp
    ensures old(m.trace) <= m.trace
    ensures m.Valid()
    ensures WaitedFor(old(m.world), after, m.gaveUp)
    ensures SeenBeforeRetiring(old(m.world), |old(m.trace)|, m.trace, before) && SeenIn(|old(m.trace)|, m.trace, after)
    ensures var loose := Loose(was, now, stuck, behind);
      Replaced(old(m.world), m.world, old(m.nextId), now, Retiring(was, now), stuck, loose)
    ensures StepsIn(m.world, m.groups, now, Loose(was, now, stuck, behind))
    ensures GroupsMatch(m.groups, m.groupPriority, now)
    ensures now.programs.Keys + now.groups.Keys <= m.groups.Keys <= now.programs.Keys + now.groups.Keys + stuck
    ensures Elements(restart) == Restarting(was, now)
    ensures FlaggedBy(old(m.world), Retiring(was, now), after, s => !Terminal(s), stuck)
    ensures FlaggedBy(old(m.world), Restarting(was, now), before, s => AlreadyUp(s), active)
    ensures DownIsSeen(old(m.world), before)
    ensures DroppedAtRest(old(m.world), dropped, Retiring(was, now) - stuck)
    ensures StuckAreDown(old(m.world), m.world, stuck) && DownAfter(old(m.world), m.world)
    ensures AllNamesTaken(m.world, now) && ListsKept(old(m.groups), m.groups, was, now)
    ensures NewHold(m.world, old(m.nextId), now)
    ensures m.commanded <= old(m.commanded) + IdsOf(old(m.world), Elements(changed) + Elements(removed))
  {
    hide Sane, IdsOk, Evolves, Touched, AllReached, FlaggedBy, IdsOf, Settled, AllHold, AllTaken, Created, NewFrom,
      InStepExcept, ImplicitGroups, ExplicitGroups, PrioritiesOf, Validated, Replaced, GroupsMatch, NeedsRestart,
      Repriced, StepsIn, DroppedAtRest, StuckAreDown, DownAfter, DownIsSeen, SameObjects, Retiring, Restarting,
      InPlace, NamesDiffer, Elements, AllNamesTaken, ListsKept, NewHold, WaitedFor, SeenIn, AsRetired,
      SeenBeforeRetiring;
    ghost var w0, g0 := m.world, m.groups;
    ghost var R, updated := Retiring(was, now), InPlace(was.programs, now.programs, changed);
    RetiringIs(was, now, added, changed, removed);
    InPlaceHolds(w0, g0, was, now, changed, behind);
    ValidatedNames(now);

    restart := UpdateChanged(m, was.programs, now.programs, changed, was.programs.Keys - behind);
    ghost var w1, g1 := m.world, m.groups;

    var retiring := removed + restart;
    ghost var updatedAt := m.trace;
    active, stuck, before, after := TakeDown(m, restart, retiring);
    TouchedAsRetired(w0, w1, updated);
    SeenBeforeStays(w0, w1, |old(m.trace)|, |updatedAt|, m.trace, m.trace, before);
    SeenEarlier(|old(m.trace)|, |updatedAt|, m.trace, after);
    ghost var w2 := m.world;
    ghost var gone := R - stuck;
    IdsOfBoth(w0, w1, updated, Elements(changed), Elements(removed), R);
    EvolvesItself(w1, R);
    SameObjectsThroughout(w0, w1, w1, updated, R);
    AllKeptSettle(w0, g0, w1, g1, w2, was, now, changed, behind);
    FlaggedMoved(w0, w1, Restarting(was, now), before, s => AlreadyUp(s), active);
    FlaggedMoved(w0, w1, R, after, s => !Terminal(s), stuck);
    WaitedForMoved(w0, w1, after, m.gaveUp);
    DownIsSeenBefore(w0, w1, updated, before);
    dropped := map n | n in w2.procs && w2.procs[n].group in gone :: w2.procs[n];
    DropsAtRest(w0, w2, retiring, stuck, gone);

    ghost var implicit := Replace(m, now, retiring, stuck);
    FlaggedAreIn(w0, R, after, s => !Terminal(s), stuck);
    AfterExchange(w0, g0, w1, g1, w2, m.world, implicit, m.groups, m.groupPriority, old(m.nextId), was, now, changed,
                  retiring, stuck, behind);
  }

  lemma DownIsSeenBefore(w0: World, w1: World, updated: set<string>, seen: map<string, State>)
    requires Touched(w0, w1, updated) && DownIsSeen(w1, seen)
    ensures DownIsSeen(w0, seen)
  {}

  /** What follows for the processes and groups as a whole. */
  lemma {:induction false} AfterExchange(
    w0: World, g0: map<string, Group>, w1: World, g1: map<string, Group>, w2: World, w3: World,
    implicit: map<string, Group>, g3: map<string, Group>, priorities: map<string, int>, nextId: nat,
    was: Cfg, now: Cfg, changed: seq<string>, retiring: seq<string>, stuck: set<string>, behind: set<string>)
    requires Validated(now) && IdsOk(w0, nextId) && IdsOk(w2, nextId) && InStepExcept(w0, g0, was, behind)
    requires (was.programs.Keys + now.programs.Keys) !! (was.groups.Keys + now.groups.Keys)
    requires forall q :: q in changed <==> q in was.programs && q in now.programs && was.programs[q] != now.programs[q]
    requires var updated := InPlace(was.programs, now.programs, changed);
      && Touched(w0, w1, updated) && Repriced(g0, g1, now.programs, updated)
      && AllHold(w1, now.programs, updated * (was.programs.Keys - behind))
    requires Evolves(w1, w2, Retiring(was, now))
    requires Elements(retiring) == Retiring(was, now) && stuck <= Retiring(was, now)
    requires forall k :: 0 <= k < |retiring| ==> AllReached(w2, retiring[k], if retiring[k] in stuck then 2 else 3)
    requires var gone := Retiring(was, now) - stuck;
      var left := WithoutAll(w2, gone);
      && Created(left, w3, now.programs, now.programs.Keys) && NewFrom(left, w3, nextId)
      && ImplicitGroups(Kept(g1, gone, now, stuck), implicit, left.procs.Keys, now.programs, now.programs.Keys)
      && ExplicitGroups(implicit, g3, now.groups, now.groups.Keys)
      && PrioritiesOf(priorities, now.groups, now.groups.Keys)
    ensures Replaced(w0, w3, nextId, now, Retiring(was, now), stuck, Loose(was, now, stuck, behind))
    ensures StepsIn(w3, g3, now, Loose(was, now, stuck, behind))
    ensures GroupsMatch(g3, priorities, now)
    ensures now.programs.Keys + now.groups.Keys <= g3.Keys <= now.programs.Keys + now.groups.Keys + stuck
    ensures StuckAreDown(w0, w3, stuck) && DownAfter(w0, w3)
    ensures AllNamesTaken(w3, now) && ListsKept(g0, g3, was, now)
    ensures NewHold(w3, nextId, now)
  {
    hide IdsOk, Evolves, Touched, AllReached, Settled, AllHold, Created, NewFrom, InStepExcept, ImplicitGroups,
      ExplicitGroups, PrioritiesOf, Validated, Replaced, GroupsMatch, Repriced, StepsIn, StuckAreDown, DownAfter,
      SameObjects, Retiring, InPlace, Elements, AllNamesTaken, ListsKept, NewHold;
    var R, gone := Retiring(was, now), Retiring(was, now) - stuck;
    AllKeptSettle(w0, g0, w1, g1, w2, was, now, changed, behind);
    StuckStayDown(w0, w2, w3, retiring, stuck, gone, now.programs);
    DownThroughout(w0, w1, w2, w3, nextId, InPlace(was.programs, now.programs, changed), R, gone, now.programs);
    ReplacedBetween(w2, g1, w3, nextId, was, now, R, stuck, behind);
    SameObjectsItself(w3);
    ReplacedSame(w0, w2, w3, w3, nextId, now, R, stuck, Loose(was, now, stuck, behind));
    LoadStepsIn(w2, g1, w3, implicit, g3, was, now, stuck, behind);
    LoadedGroupsMatch(Kept(g1, gone, now, stuck), WithoutAll(w2, gone).procs.Keys, implicit, g3, priorities, now);
    CreatedTakesAllNames(WithoutAll(w2, gone), w3, now);
    OldIds(w2, gone, nextId);
    CreatedNewHold(WithoutAll(w2, gone), w3, nextId, now);
    ValidatedApart(now);
    InPlaceAreThere(was, now, changed);
    ListsAreKept(g0, g1, implicit, g3, was, now, InPlace(was.programs, now.programs, changed), stuck,
                 WithoutAll(w2, gone).procs.Keys);
  }

  lemma OldIds(w: World, gone: set<string>, nextId: nat)
    requires IdsOk(w, nextId)
    ensures forall n :: n in WithoutAll(w, gone).procs ==> WithoutAll(w, gone).procs[n].id < nextId
  {}

  lemma InPlaceAreThere(was: Cfg, now: Cfg, changed: seq<string>)
    requires forall p :: p in changed ==> p in was.programs && p in now.programs
    ensures InPlace(was.programs, now.programs, changed) <= now.programs.Keys
  {}

  lemma ValidatedApart(cfg: Cfg)
    requires Validated(cfg)
    ensures cfg.programs.Keys !! cfg.groups.Keys
  {}

  lemma SameObjectsItself(w: World)
    ensures SameObjects(w, w)
  {}

  /**
    ApplyReload. The manager is in step with the old config, except for the
    programs in `behind`: an earlier reload could not stop them, or they had
    to wait for a name of such a one. `before` and `after` are the states seen
    when looking for active processes and at the end of the wait.
   */
  method ApplyReload(
    m: Manager, was: Cfg, now: Cfg, added: seq<string>, changed: seq<string>, removed: seq<string>,
    ghost behind: set<string>)
    returns (stuck: seq<string>, ghost active: set<string>, ghost before: map<string, State>,
             ghost after: map<string, State>, ghost dropped: map<string, Managed>)
    requires m.Valid() && Validated(now) && IsDiff(was, now, added, changed, removed)
    requires (was.programs.Keys + now.programs.Keys) !! (was.groups.Keys + now.groups.Keys)
    requires InStepExcept(m.world, m.groups, was, behind)
    modifies m
    ensures m.Valid() && old(m.trace) <= m.trace
    // the processes
    ensures var loose := Loose(was, now, Elements(stuck), behind);
      && Replaced(old(m.world), m.world, old(m.nextId), now, Retiring(was, now), Elements(stuck), loose)
      && StepsIn(m.world, m.groups, now, loose)
    // the groups
    ensures GroupsMatch(m.groups, m.groupPriority, now)
    ensures now.programs.Keys + now.groups.Keys <= m.groups.Keys
    ensures m.groups.Keys <= now.programs.Keys + now.groups.Keys + Elements(stuck)
    // what a program that was short of a name gets: the process, but no place in its group's list
    ensures AllNamesTaken(m.world, now) && ListsKept(old(m.groups), m.groups, was, now)
    ensures NewHold(m.world, old(m.nextId), now)
    // what is stuck, and what is dropped
    ensures NamesAscending(stuck)
    ensures FlaggedBy(old(m.world), Retiring(was, now), after, s => !Terminal(s), Elements(stuck))
    ensures WaitedFor(old(m.world), after, m.gaveUp)
    ensures SeenBeforeRetiring(old(m.world), |old(m.trace)|, m.trace, before) && SeenIn(|old(m.trace)|, m.trace, after)
    ensures DroppedAtRest(old(m.world), dropped, Retiring(was, now) - Elements(stuck))
    ensures StuckAreDown(old(m.world), m.world, Elements(stuck)) && Elements(stuck) <= Retiring(was, now)
    ensures DownAfter(old(m.world), m.world)
    // what is started: recreated programs that were active, and added ones where autostart allows it
    ensures FlaggedBy(old(m.world), Restarting(was, now), before, s => AlreadyUp(s), active)
    ensures DownIsSeen(old(m.world), before)
    ensures var ids := StartIds(m.world, active - Elements(stuck), false) + StartIds(m.world, Elements(added), true);
      && old(m.started) <= m.started <= old(m.started) + ids
      && (m.world.shutdown || m.started == old(m.started) + ids)
    // and what is left alone
    ensures m.commanded <= old(m.commanded) + IdsOf(old(m.world), Elements(changed) + Elements(removed))
  {
    hide Sane, IdsOk, Evolves, FlaggedBy, IdsOf, Validated, StartIds, Replaced, GroupsMatch, StepsIn, DroppedAtRest,
      StuckAreDown, DownAfter, DownIsSeen, SameObjects, Retiring, Restarting, InStepExcept, AllNamesTaken,
      ListsKept, NewHold, WaitedFor, SeenIn, AsRetired,
      SeenBeforeRetiring;
    ghost var w0, s0 := m.world, m.started;
    var restart, running, stuckSet;
    restart, running, stuckSet, before, after, dropped := Exchange(m, was, now, added, changed, removed, behind);
    active := running;
    ghost var w3, exchanged := m.world, m.trace;
    StartThose(m, restart, running - stuckSet, false);
    ghost var w4, s4 := m.world, m.started;
    StartThose(m, added, Elements(added), true);
    AsRetiredItself(w0);
    SeenBeforeStays(w0, w0, |old(m.trace)|, |old(m.trace)|, exchanged, m.trace, before);
    SeenLater(|old(m.trace)|, exchanged, m.trace, after);
    EvolvesFurther(w3, w4, m.world, {});
    FlaggedAreIn(w0, Restarting(was, now), before, s => AlreadyUp(s), running);
    assert Elements(restart) * (running - stuckSet) == running - stuckSet;
    assert Elements(added) * Elements(added) == Elements(added);
    StartedAtEnd(w3, w4, m.world, running - stuckSet, Elements(added), s0, s4, m.started);
    SameObjectsItself(w0);
    SameObjectsEvolved(w3, m.world, {});
    ReplacedSame(w0, w0, w3, m.world, old(m.nextId), now, Retiring(was, now), stuckSet,
                 Loose(was, now, stuckSet, behind));
    StepsInEvolved(w3, m.world, m.groups, now, Loose(was, now, stuckSet, behind));
    StuckAreDownEvolved(w0, w3, m.world, stuckSet);
    DownAfterEvolved(w0, w3, m.world);
    AllNamesTakenEvolved(w3, m.world, now);
    NewHoldEvolved(w3, m.world, old(m.nextId), now);
    FlaggedAreIn(w0, Retiring(was, now), after, s => !Terminal(s), stuckSet);
    stuck := SortNames(stuckSet);
    assert Elements(stuck) == stuckSet;
  }

  // ---------------------------------------------------------------------
  // What a reload achieves
  // ---------------------------------------------------------------------

  /** With nothing stuck, now or before, the manager is in step with the new config. */
  lemma {:induction false} NothingStuckMeansInStep(
    w0: World, w: World, nextId: nat, groups: map<string, Group>, priorities: map<string, int>, now: Cfg,
    retiring: set<string>)
    requires NamesDiffer(now.programs)
    requires Replaced(w0, w, nextId, now, retiring, {}, {}) && StepsIn(w, groups, now, {})
    requires GroupsMatch(groups, priorities, now) && groups.Keys == now.programs.Keys + now.groups.Keys
    ensures InStep(w, groups, priorities, now)
  {
    hide Settled, GroupsMatch, AllNames, NamesDiffer;
    forall p | p in now.programs ensures Settled(w, groups, p, now.programs[p]) {
      forall n | n in AllNames(p, now.programs[p]) && n in w.procs ensures w.procs[n].group == p {
        NoCommonName(now.programs, p, w.procs[n].group, n);
      }
    }
  }

  /** A program that is not loose is in step exactly if no other program's process holds a name it asks for. */
  lemma {:induction false} InStepIffNamesFree(
    w: World, groups: map<string, Group>, now: Cfg, loose: set<string>, p: string)
    requires StepsIn(w, groups, now, loose) && p in now.programs && p !in loose
    ensures Settled(w, groups, p, now.programs[p]) <==> NamesFree(w, p, now.programs[p])
  {
    hide NthName, NthConfig;
    var cfg := now.programs[p];
    if Settled(w, groups, p, cfg) {
      forall n | n in AllNames(p, cfg) && n in w.procs ensures w.procs[n].group == p {
        var k :| 0 <= k < Copies(cfg) && AllNames(p, cfg)[k] == n;
        assert HoldsNth(w, p, cfg, k);
      }
    }
  }

  /** The config recorded after a reload: stuck programs keep their old one. */
  function Recorded(was: Cfg, now: Cfg, stuck: set<string>): Cfg {
    Cfg(now.programs + map p | p in stuck && p in was.programs :: was.programs[p], now.groups)
  }

  /** The programs the manager need not be in step with afterwards: loose ones, and ones a name is missing for. */
  ghost function StillBehind(w: World, was: Cfg, now: Cfg, stuck: set<string>, behind: set<string>): set<string> {
    Loose(was, now, stuck, behind) + set p | p in now.programs && !NamesFree(w, p, now.programs[p])
  }

  /** After every reload the manager is in step with the recorded config but for those, and a further one may follow. */
  lemma {:induction false} ReloadMeansInStepExcept(
    w0: World, w: World, nextId: nat, groups: map<string, Group>, was: Cfg, now: Cfg,
    stuck: set<string>, behind: set<string>)
    requires stuck <= Retiring(was, now) && behind <= was.programs.Keys
    requires var loose := Loose(was, now, stuck, behind);
      && Replaced(w0, w, nextId, now, Retiring(was, now), stuck, loose)
      && StepsIn(w, groups, now, loose)
    requires groups.Keys <= now.programs.Keys + now.groups.Keys + stuck
    ensures InStepExcept(w, groups, Recorded(was, now, stuck), StillBehind(w, was, now, stuck, behind))
    ensures StillBehind(w, was, now, stuck, behind) <= Recorded(was, now, stuck).programs.Keys
  {
    hide Settled, NamesFree, AllNames, NeedsRestart;
  }

  // ---------------------------------------------------------------------
  // Programs short of a name
  // ---------------------------------------------------------------------

  /**
    When the names a program asks for are free, each is held by a process of
    its own after the reload; one the reload has created is as the config asks.
   */
  lemma {:induction false} MissingBecomesOwn(w: World, nextId: nat, now: Cfg, p: string, k: nat)
    requires AllNamesTaken(w, now) && NewHold(w, nextId, now)
    requires p in now.programs && NamesFree(w, p, now.programs[p]) && k < Copies(now.programs[p])
    ensures var n := NthName(p, now.programs[p], k);
      n in w.procs && w.procs[n].group == p && (w.procs[n].id >= nextId ==> HoldsNth(w, p, now.programs[p], k))
  {
    hide NthName, HoldsNth;
    assert NewHoldsNth(w, nextId, p, now.programs[p], k);
    assert AllNames(p, now.programs[p])[k] in AllNames(p, now.programs[p]);
  }

  /**
    A program whose group does not list all its processes, because one of them
    could not be created before, is in step after a reload that keeps it
    exactly if the reload has to restart it and it stops. In any other case the
    list stays short.
   */
  lemma {:induction false} ShortProgramRecoversIff(
    w0: World, w: World, g0: map<string, Group>, g: map<string, Group>, nextId: nat, was: Cfg, now: Cfg,
    stuck: set<string>, behind: set<string>, p: string)
    requires var loose := Loose(was, now, stuck, behind);
      && Replaced(w0, w, nextId, now, Retiring(was, now), stuck, loose)
      && StepsIn(w, g, now, loose)
    requires ListsKept(g0, g, was, now) && StuckAreDown(w0, w, stuck) && stuck <= Retiring(was, now)
    requires p in was.programs && p in now.programs && NamesFree(w, p, now.programs[p])
    requires p in g0 && g0[p].processes != AllNames(p, was.programs[p])
    requires p in stuck ==> exists n :: n in w0.procs && w0.procs[n].group == p
    ensures Settled(w, g, p, Recorded(was, now, stuck).programs[p])
      <==> NeedsRestart(was.programs[p], now.programs[p]) && p !in stuck
  {
    hide Holds, NamesFree, NeedsRestart, AllNames, Reached;
    var a, b := was.programs[p], now.programs[p];
    if p in stuck {
      var n :| n in w0.procs && w0.procs[n].group == p;
      RetiredIsNotInStep(w, p, a, n);
    } else if !NeedsRestart(a, b) {
      SameNames(p, a, b);
    }
  }

  lemma {:induction false} SameNames(p: string, a: ProgramConfig, b: ProgramConfig)
    requires !NeedsRestart(a, b)
    ensures AllNames(p, a) == AllNames(p, b)
  {
    hide NthName, NeedsRestart;
    InPlaceChangeKeepsChildren(p, a, b, 0);
    forall k: nat | k < Copies(a) ensures NthName(p, a, k) == NthName(p, b, k) {
      InPlaceChangeKeepsChildren(p, a, b, k);
    }
  }

  lemma {:induction false} RetiredIsNotInStep(w: World, p: string, cfg: ProgramConfig, n: string)
    requires n in w.procs && w.procs[n].group == p && Reached(w.procs[n].p, 2)
    ensures !Holds(w, p, cfg)
  {
    hide NthName, NthConfig;
    if n in AllNames(p, cfg) {
      var k :| 0 <= k < Copies(cfg) && AllNames(p, cfg)[k] == n;
      assert !HoldsNth(w, p, cfg, k);
    }
  }

  // ---------------------------------------------------------------------
  // Stuck programs
  // ---------------------------------------------------------------------

  /** Every process the config asks for is there, but retired and down: none can be started. */
  ghost predicate Dead(w: World, p: string, cfg: ProgramConfig) {
    forall k: nat :: k < Copies(cfg) ==> DeadNth(w, p, cfg, k)
  }

  ghost predicate DeadNth(w: World, p: string, cfg: ProgramConfig, k: nat) {
    var n := NthName(p, cfg, k);
    n in w.procs && w.procs[n].group == p && Reached(w.procs[n].p, 2)
  }

  /** No event of any kind, a start included, brings a process of a dead program up. */
  lemma DeadStaysDown(w: World, p: string, cfg: ProgramConfig, k: nat, es: seq<Event>)
    requires Dead(w, p, cfg) && k < Copies(cfg)
    ensures var n := NthName(p, cfg, k);
      n in w.procs && !AlreadyUp(Run(View(w, n), es).p.m.state)
  {
    hide Run;
    assert DeadNth(w, p, cfg, k);
    RetiredRun(View(w, NthName(p, cfg, k)), es);
  }

  lemma {:induction false} DeadOrSettled(w: World, g: map<string, Group>, p: string, cfg: ProgramConfig)
    ensures !(Dead(w, p, cfg) && Settled(w, g, p, cfg))
  {
    hide NthName, NthConfig, AllNames;
    if Settled(w, g, p, cfg) {
      assert HoldsNth(w, p, cfg, 0);
      assert !DeadNth(w, p, cfg, 0);
    }
  }

  /** A program that was in step, or dead already, is dead when it is stuck. */
  lemma {:induction false} StuckIsDead(
    w0: World, w: World, g0: map<string, Group>, nextId: nat, was: Cfg, now: Cfg,
    stuck: set<string>, loose: set<string>, p: string)
    requires Replaced(w0, w, nextId, now, Retiring(was, now), stuck, loose) && StuckAreDown(w0, w, stuck)
    requires p in was.programs && p in stuck
    requires Settled(w0, g0, p, was.programs[p]) || Dead(w0, p, was.programs[p])
    ensures Dead(w, p, was.programs[p])
  {
    hide NthName, NthConfig, AllNames, Reached;
    var cfg := was.programs[p];
    forall k: nat | k < Copies(cfg) ensures DeadNth(w, p, cfg, k) {
      if Settled(w0, g0, p, cfg) { assert HoldsNth(w0, p, cfg, k); } else { assert DeadNth(w0, p, cfg, k); }
    }
  }

  /** A dead program stays dead when its change, if there is one, is made in place. */
  lemma {:induction false} KeptDeadIsDead(
    w0: World, w: World, nextId: nat, was: Cfg, now: Cfg, stuck: set<string>, loose: set<string>, p: string)
    requires Replaced(w0, w, nextId, now, Retiring(was, now), stuck, loose) && DownAfter(w0, w)
    requires p in was.programs && p !in Retiring(was, now) && Dead(w0, p, was.programs[p])
    ensures p in now.programs && Dead(w, p, now.programs[p])
  {
    hide NthName, NthConfig, AllNames, Reached, NeedsRestart;
    var a, b := was.programs[p], now.programs[p];
    forall k: nat | k < Copies(b) ensures DeadNth(w, p, b, k) {
      InPlaceChangeKeepsChildren(p, a, b, k);
      assert DeadNth(w0, p, a, k);
    }
  }

  /**
    What becomes of a dead program in a reload, exactly: it is in step with
    the recorded config afterwards if the reload had to restart it and it
    stopped, and otherwise it is dead again. Its old config, or one that
    differs only in supervision settings, keeps it dead.
   */
  lemma {:induction false} DeadProgramRecoversIff(
    w0: World, w: World, g: map<string, Group>, nextId: nat, was: Cfg, now: Cfg,
    stuck: set<string>, behind: set<string>, p: string)
    requires var loose := Loose(was, now, stuck, behind);
      && Replaced(w0, w, nextId, now, Retiring(was, now), stuck, loose)
      && StepsIn(w, g, now, loose)
    requires DownAfter(w0, w) && StuckAreDown(w0, w, stuck) && stuck <= Retiring(was, now)
    requires p in was.programs && Dead(w0, p, was.programs[p])
    requires p in now.programs && NamesFree(w, p, now.programs[p])
    ensures var cfg := Recorded(was, now, stuck).programs[p];
      var restarts := NeedsRestart(was.programs[p], now.programs[p]);
      && (Settled(w, g, p, cfg) <==> restarts && p !in stuck)
      && (Dead(w, p, cfg) <==> !restarts || p in stuck)
  {
    hide Settled, Dead, NamesFree, Replaced, DownAfter, StuckAreDown, NeedsRestart;
    var cfg := Recorded(was, now, stuck).programs[p];
    DeadOrSettled(w, g, p, cfg);
    if p in stuck {
      StuckIsDead(w0, w, g, nextId, was, now, stuck, Loose(was, now, stuck, behind), p);
    } else if p !in Retiring(was, now) {
      KeptDeadIsDead(w0, w, nextId, was, now, stuck, Loose(was, now, stuck, behind), p);
    }
  }

  /** The reload that recreates a dead program does not start it: it has not seen it active. */
  lemma RecoveredIsNotStarted(
    w0: World, was: Cfg, now: Cfg, before: map<string, State>, active: set<string>, p: string)
    requires FlaggedBy(w0, Restarting(was, now), before, s => AlreadyUp(s), active) && DownIsSeen(w0, before)
    requires forall n :: n in w0.procs && w0.procs[n].group == p ==> Reached(w0.procs[n].p, 2)
    ensures p !in active
  {
    hide Reached, AlreadyUp;
  }

  /**
    In particular a program that was stuck in one reload is not stopped by the
    next one exactly if its old config is back but for supervision settings;
    its processes then stay retired for good.
   */
  lemma {:induction false} RevertedStuckProgramIsDead(
    w0: World, w: World, was: Cfg, now: Cfg, stuck: set<string>, next: Cfg, p: string, n: string, es: seq<Event>)
    requires StuckAreDown(w0, w, stuck) && p in stuck && p in was.programs
    requires n in w0.procs && w0.procs[n].group == p
    ensures p !in Retiring(Recorded(was, now, stuck), next)
      <==> p in next.programs && !NeedsRestart(was.programs[p], next.programs[p])
    ensures !AlreadyUp(Run(View(w, n), es).p.m.state)
  {
    hide Run, NeedsRestart;
    RetiredRun(View(w, n), es);
  }
}
