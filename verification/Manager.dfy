/** internal/process/manager.go: the processes, the groups, and what is done to all of them. */
module Managers {
  import opened Basics
  import opened Configs
  import opened Machines
  import opened Lifecycle
  import opened LifecycleSafety
  import opened LifecycleRuns
  import opened Worlds
  import opened Ordering
  import opened Names
  import opened Instances

  datatype Cfg = Cfg(programs: map<string, ProgramConfig>, groups: map<string, GroupConfig>)

  datatype Group = Group(processes: seq<string>, priority: int)

  /**
    What happens on its own just before the manager's next action, and the
    answers the outside gives to it: how the start of an autorestart ends that
    holds the lock the action waits for, the outcome of a spawn of its own, and
    how many times a wait looks before it gives up.
   */
  datatype Turn = Turn(
    before: seq<Action>, heldOut: Spawn, heldRace: Race, out: Spawn, race: Race, polls: nat)

  // ---------------------------------------------------------------------
  // What a config asks for
  // ---------------------------------------------------------------------

  /** The processes of program `name` are those its config asks for, all of them usable. */
  ghost predicate Holds(w: World, name: string, cfg: ProgramConfig) {
    && (forall k: nat :: k < Copies(cfg) ==> HoldsNth(w, name, cfg, k))
    && forall n :: n in w.procs && w.procs[n].group == name ==> n in AllNames(name, cfg)
  }

  ghost predicate HoldsNth(w: World, name: string, cfg: ProgramConfig, k: nat) {
    var n := NthName(name, cfg, k);
    && n in w.procs
    && w.procs[n].group == name
    && w.procs[n].p.cfg == NthConfig(cfg, k)
    && !w.procs[n].p.retired
  }

  /** The names that are not taken yet. */
  function Missing(names: seq<string>, taken: set<string>): seq<string> {
    if names == [] then []
    else (if names[0] in taken then [] else [names[0]]) + Missing(names[1..], taken)
  }

  /** The processes of the programs that have a group of their own. */
  function Members(programs: seq<string>, groups: map<string, Group>): seq<string> {
    if programs == [] then []
    else (if programs[0] in groups then groups[programs[0]].processes else []) + Members(programs[1..], groups)
  }

  /** These are the processes listed by the groups of those programs, and no others. */
  lemma {:induction false} MembersAre(programs: seq<string>, groups: map<string, Group>, n: string)
    ensures n in Members(programs, groups) <==>
      exists p :: p in programs && p in groups && n in groups[p].processes
  {
    if programs != [] {
      assert programs == [programs[0]] + programs[1..];
      MembersAre(programs[1..], groups, n);
    }
  }

  /** They come in the order of the programs, and each program's in its own order. */
  lemma {:induction false} MembersInOrder(programs: seq<string>, groups: map<string, Group>, lists: seq<seq<string>>)
    requires |lists| == |programs|
    requires forall i :: 0 <= i < |programs| ==> programs[i] in groups && groups[programs[i]].processes == lists[i]
    ensures Members(programs, groups) == Flatten(lists)
  {
    if programs != [] {
      MembersInOrder(programs[1..], groups, lists[1..]);
    }
  }

  lemma {:induction false} MembersSnoc(init: seq<string>, last: string, groups: map<string, Group>)
    ensures Members(init + [last], groups)
      == Members(init, groups) + if last in groups then groups[last].processes else []
  {
    if init == [] {
      assert [] + [last] == [last] && [last][1..] == [];
      assert Members([last], groups) == (if last in groups then groups[last].processes else []) + Members([], groups);
    } else {
      assert (init + [last])[1..] == init[1..] + [last];
      MembersSnoc(init[1..], last, groups);
    }
  }

  lemma {:induction false} NoneMissing(names: seq<string>, taken: set<string>)
    requires Disjoint(names, taken)
    ensures Missing(names, taken) == names
  {
    if names != [] {
      assert names[0] in names;
      NoneMissing(names[1..], taken);
    }
  }

  lemma {:induction false} MissingSnoc(init: seq<string>, last: string, taken: set<string>)
    ensures Missing(init + [last], taken) == Missing(init, taken) + (if last in taken then [] else [last])
  {
    if init == [] {
      assert [] + [last] == [last];
      assert Missing([last], taken) == (if last in taken then [] else [last]) + Missing([], taken);
    } else {
      assert (init + [last])[1..] == init[1..] + [last];
      MissingSnoc(init[1..], last, taken);
    }
  }

  lemma {:induction false} MissingAgrees(names: seq<string>, a: set<string>, b: set<string>)
    requires forall n :: n in names ==> (n in a <==> n in b)
    ensures Missing(names, a) == Missing(names, b)
  {
    if names != [] {
      assert names[0] in names;
      MissingAgrees(names[1..], a, b);
    }
  }

  /** Ids are handed out once. */
  ghost predicate IdsOk(w: World, nextId: nat) {
    && (forall n :: n in w.procs ==> w.procs[n].id < nextId)
    && forall n, m :: n in w.procs && m in w.procs && w.procs[n].id == w.procs[m].id ==> n == m
  }

  /** LoadConfig's inner loop: one process is created unless its name is taken. */
  function AddOne(w: World, nextId: nat, inst: Instance): (r: (World, nat)) {
    if inst.name in w.procs then (w, nextId)
    else
      (w.(procs := w.procs[inst.name := Managed(nextId, inst.group, NewProc(inst.cfg), multiset{})]), nextId + 1)
  }

  /** The first `k` processes of a program. */
  function AddUpTo(w: World, nextId: nat, name: string, cfg: ProgramConfig, k: nat): (r: (World, nat)) {
    if k == 0 then (w, nextId)
    else
      var (w', next') := AddUpTo(w, nextId, name, cfg, k - 1);
      AddOne(w', next', Instance(NthName(name, cfg, k - 1), name, NthConfig(cfg, k - 1)))
  }

  /** What the first `k` additions leave as it was, and what they add. */
  ghost predicate Added(w0: World, w1: World, name: string, cfg: ProgramConfig, k: nat)
    requires k <= Copies(cfg)
  {
    && w1.shutdown == w0.shutdown
    && (forall n :: n in w0.procs ==> n in w1.procs && w1.procs[n] == w0.procs[n])
    && (forall n :: n in w1.procs && n !in w0.procs ==> exists i: nat :: i < k && n == NthName(name, cfg, i))
    && (forall i: nat :: i < k ==> AddedNth(w0, w1, name, cfg, i))
  }

  ghost predicate AddedNth(w0: World, w1: World, name: string, cfg: ProgramConfig, i: nat) {
    var n := NthName(name, cfg, i);
    && n in w1.procs
    && (n !in w0.procs ==>
          w1.procs[n] == Managed(w1.procs[n].id, name, NewProc(NthConfig(cfg, i)), multiset{}))
  }

  lemma {:induction false} AddUpToAdds(w: World, nextId: nat, name: string, cfg: ProgramConfig, k: nat)
    requires k <= Copies(cfg) && Distinct(AllNames(name, cfg))
    ensures Added(w, AddUpTo(w, nextId, name, cfg, k).0, name, cfg, k)
  {
    hide NthName, NthConfig, NewProc, Added, AddOne;
    if k == 0 {
      AddedNothing(w, name, cfg);
    } else {
      var (w', next') := AddUpTo(w, nextId, name, cfg, k - 1);
      AddUpToAdds(w, nextId, name, cfg, k - 1);
      NextIsNew(w, w', name, cfg, k - 1);
      AddedOneMore(w, w', next', name, cfg, k - 1);
    }
  }

  lemma AddedNothing(w: World, name: string, cfg: ProgramConfig)
    ensures Added(w, w, name, cfg, 0)
  {}

  lemma {:induction false} AddedOneMore(w: World, w': World, next': nat, name: string, cfg: ProgramConfig, k: nat)
    requires k < Copies(cfg) && Added(w, w', name, cfg, k)
    requires NthName(name, cfg, k) in w'.procs <==> NthName(name, cfg, k) in w.procs
    requires forall i: nat :: i < k ==> NthName(name, cfg, i) != NthName(name, cfg, k)
    ensures Added(w, AddOne(w', next', Instance(NthName(name, cfg, k), name, NthConfig(cfg, k))).0, name, cfg, k + 1)
  {
    hide NthName, NthConfig, NewProc;
    var w1 := AddOne(w', next', Instance(NthName(name, cfg, k), name, NthConfig(cfg, k))).0;
    forall n | n in w1.procs && n !in w.procs ensures exists i: nat :: i < k + 1 && n == NthName(name, cfg, i) {
      if n !in w'.procs {
        assert n == NthName(name, cfg, k);
      }
    }
    forall i: nat | i < k + 1 ensures AddedNth(w, w1, name, cfg, i) {
      assert i < k ==> AddedNth(w, w', name, cfg, i);
    }
  }

  /** The next name to add is taken only if it was taken at the beginning. */
  lemma {:induction false} NextIsNew(w0: World, w1: World, name: string, cfg: ProgramConfig, k: nat)
    requires k < Copies(cfg) && Distinct(AllNames(name, cfg)) && Added(w0, w1, name, cfg, k)
    ensures NthName(name, cfg, k) in w1.procs <==> NthName(name, cfg, k) in w0.procs
    ensures forall i: nat :: i < k ==> NthName(name, cfg, i) != NthName(name, cfg, k)
  {
    hide NthName;
    var names := AllNames(name, cfg);
    forall i: nat | i < k ensures NthName(name, cfg, i) != NthName(name, cfg, k) {
      assert names[i] != names[k];
    }
  }

  lemma {:induction false} AddUpToStep(w: World, nextId: nat, name: string, cfg: ProgramConfig, k: nat)
    ensures AddUpTo(w, nextId, name, cfg, 0) == (w, nextId)
    ensures var (w', next') := AddUpTo(w, nextId, name, cfg, k);
      AddUpTo(w, nextId, name, cfg, k + 1)
        == AddOne(w', next', Instance(NthName(name, cfg, k), name, NthConfig(cfg, k)))
  {}

  lemma {:induction false} AddUpToKeeps(w: World, nextId: nat, name: string, cfg: ProgramConfig, k: nat)
    requires Sane(w) && IdsOk(w, nextId)
    ensures var (w', next') := AddUpTo(w, nextId, name, cfg, k);
      && Sane(w') && IdsOk(w', next') && next' >= nextId
      && forall n :: n in w'.procs && n !in w.procs ==> w'.procs[n].id >= nextId
  {
    hide NthName, NthConfig, AddOne, Sane, IdsOk;
    if k > 0 {
      AddUpToKeeps(w, nextId, name, cfg, k - 1);
      var (w', next') := AddUpTo(w, nextId, name, cfg, k - 1);
      AddOneKeeps(w', next', Instance(NthName(name, cfg, k - 1), name, NthConfig(cfg, k - 1)));
    }
  }

  lemma {:induction false} AddOneKeeps(w: World, nextId: nat, inst: Instance)
    requires Sane(w) && IdsOk(w, nextId)
    ensures var (w', next') := AddOne(w, nextId, inst);
      && Sane(w') && IdsOk(w', next') && next' >= nextId
      && forall n :: n in w'.procs ==> if n in w.procs then w'.procs[n] == w.procs[n] else w'.procs[n].id == nextId
  {
    hide NewProc, Sane;
    AddOneIsSane(w, nextId, inst);
  }

  lemma {:induction false} AddOneIsSane(w: World, nextId: nat, inst: Instance)
    requires Sane(w)
    ensures Sane(AddOne(w, nextId, inst).0)
  {
    hide NewProc, Inv, Consistent;
    FreshInv(inst.cfg);
    var w' := AddOne(w, nextId, inst).0;
    forall n | n in w.procs ensures View(w', n) == View(w, n) {}
  }

  ghost predicate AddedAll(w0: World, w1: World, name: string, cfg: ProgramConfig) {
    forall i: nat :: i < Copies(cfg) ==> AddedNth(w0, w1, name, cfg, i)
  }

  /** `w1` is `w0` with what was missing of the programs in `done` created. */
  ghost predicate Created(w0: World, w1: World, programs: map<string, ProgramConfig>, done: set<string>)
    requires done <= programs.Keys
  {
    && w1.shutdown == w0.shutdown
    && (forall n :: n in w0.procs ==> n in w1.procs && w1.procs[n] == w0.procs[n])
    && (forall n :: n in w1.procs && n !in w0.procs ==>
          w1.procs[n].group in done && n in AllNames(w1.procs[n].group, programs[w1.procs[n].group]))
    && forall p :: p in done ==> AddedAll(w0, w1, p, programs[p])
  }

  /** What loading has validated, and that no group is named like a program, which it does not check. */
  ghost predicate Validated(cfg: Cfg) {
    && NamesDiffer(cfg.programs)
    && cfg.groups.Keys !! cfg.programs.Keys
    && (forall g, p :: g in cfg.groups && p in cfg.groups[g].programs ==> p in cfg.programs)
    && forall g, h, p ::
         g in cfg.groups && h in cfg.groups && p in cfg.groups[g].programs && p in cfg.groups[h].programs
         ==> g == h
  }

  lemma {:induction false} DifferentNamesAreNumbered(programs: map<string, ProgramConfig>, p: string)
    requires NamesDiffer(programs) && p in programs
    ensures !LacksNumber(programs[p])
  {
    hide NthName, LacksNumber;
    OwnNamesDiffer(p, programs[p]);
  }

  /** Two programs have no process name in common. */
  lemma {:induction false} NoCommonName(programs: map<string, ProgramConfig>, p: string, q: string, n: string)
    requires NamesDiffer(programs) && p in programs && q in programs
    requires n in AllNames(p, programs[p]) && n in AllNames(q, programs[q])
    ensures p == q
  {
    hide NthName;
    var i :| 0 <= i < Copies(programs[p]) && AllNames(p, programs[p])[i] == n;
    var j :| 0 <= j < Copies(programs[q]) && AllNames(q, programs[q])[j] == n;
    assert NthName(p, programs[p], i) == NthName(q, programs[q], j);
  }

  lemma {:induction false} CreatedMore(
    w0: World, w: World, w': World, programs: map<string, ProgramConfig>, done: set<string>, p: string)
    requires done <= programs.Keys && p in programs && p !in done && NamesDiffer(programs)
    requires Created(w0, w, programs, done)
    requires Added(w, w', p, programs[p], Copies(programs[p]))
    ensures Created(w0, w', programs, done + {p})
    ensures forall n :: n in AllNames(p, programs[p]) ==> (n in w.procs <==> n in w0.procs)
  {
    hide NthName, NthConfig, NewProc, NamesDiffer;
    var cfg := programs[p];
    forall n | n in AllNames(p, cfg) ensures n in w.procs <==> n in w0.procs {
      if n in w.procs && n !in w0.procs { NoCommonName(programs, p, w.procs[n].group, n); }
    }
    forall n | n in w'.procs && n !in w.procs ensures w'.procs[n].group == p && n in AllNames(p, cfg) {
      var i: nat :| i < Copies(cfg) && n == NthName(p, cfg, i);
      assert AddedNth(w, w', p, cfg, i);
      assert AllNames(p, cfg)[i] == n;
    }
    forall i: nat | i < Copies(cfg) ensures AddedNth(w0, w', p, cfg, i) {
      assert AddedNth(w, w', p, cfg, i);
      assert AllNames(p, cfg)[i] in AllNames(p, cfg);
    }
    forall q, i: nat | q in done && i < Copies(programs[q]) ensures AddedNth(w0, w', q, programs[q], i) {
      assert AddedNth(w0, w, q, programs[q], i);
    }
  }

  /** The implicit group of each program in `done` exists, made for what was missing if it is new. */
  ghost predicate ImplicitGroups(
    g0: map<string, Group>, g1: map<string, Group>, taken: set<string>,
    programs: map<string, ProgramConfig>, done: set<string>)
    requires done <= programs.Keys
  {
    && g1.Keys == g0.Keys + done
    && forall p :: p in g1 ==>
         g1[p] == if p in g0 then g0[p] else Group(Missing(AllNames(p, programs[p]), taken), programs[p].sup.priority)
  }

  /** The explicit groups in `done` list the processes of their programs. */
  ghost predicate ExplicitGroups(
    g0: map<string, Group>, g1: map<string, Group>, wanted: map<string, GroupConfig>, done: set<string>)
    requires done <= wanted.Keys
  {
    && g1.Keys == g0.Keys + done
    && forall g :: g in g1 ==>
         g1[g] == if g in done then Group(Members(wanted[g].programs, g0), wanted[g].priority) else g0[g]
  }

  /** Each program of a group in `done` has that group's priority, and no other program has one. */
  ghost predicate PrioritiesOf(priorities: map<string, int>, wanted: map<string, GroupConfig>, done: set<string>)
    requires done <= wanted.Keys
  {
    && (forall p :: p in priorities ==> exists g :: g in done && p in wanted[g].programs)
    && forall g, p :: g in done && p in wanted[g].programs ==> p in priorities && priorities[p] == wanted[g].priority
  }

  lemma MembersNone(groups: map<string, Group>)
    ensures Members([], groups) == []
  {}

  /** What an explicit group lists, from the groups of its programs. */
  lemma ExplicitGroupLists(
    g0: map<string, Group>, g1: map<string, Group>, wanted: map<string, GroupConfig>, done: set<string>, g: string,
    n: string)
    requires done <= wanted.Keys && ExplicitGroups(g0, g1, wanted, done) && g in done
    ensures n in g1[g].processes <==> exists p :: p in wanted[g].programs && p in g0 && n in g0[p].processes
    ensures g1[g].priority == wanted[g].priority
  {
    hide Members;
    MembersAre(wanted[g].programs, g0, n);
  }

  lemma {:induction false} MembersAgree(programs: seq<string>, a: map<string, Group>, b: map<string, Group>)
    requires forall p :: p in programs ==> (p in a <==> p in b) && (p in a ==> a[p] == b[p])
    ensures Members(programs, a) == Members(programs, b)
  {
    if programs != [] {
      assert programs[0] in programs;
      MembersAgree(programs[1..], a, b);
    }
  }

  /** What is new in `w1` has an id from `nextId` on. */
  ghost predicate NewFrom(w0: World, w1: World, nextId: nat) {
    forall n :: n in w1.procs && n !in w0.procs ==> w1.procs[n].id >= nextId
  }

  lemma NothingLoaded(w: World, g: map<string, Group>, programs: map<string, ProgramConfig>, nextId: nat)
    ensures programs.Keys - programs.Keys == {}
    ensures Created(w, w, programs, {}) && ImplicitGroups(g, g, w.procs.Keys, programs, {}) && NewFrom(w, w, nextId)
  {}

  lemma NewFromMore(w0: World, w: World, w': World, nextId: nat, next': nat, p: string, cfg: ProgramConfig)
    requires NewFrom(w0, w, nextId) && nextId <= next' && NewFrom(w, w', next')
    requires Added(w, w', p, cfg, Copies(cfg))
    ensures NewFrom(w0, w', nextId)
  {
    hide NthName, AddedNth;
  }

  lemma {:induction false} ImplicitMore(
    g0: map<string, Group>, g: map<string, Group>, g': map<string, Group>, w0: World, w: World,
    programs: map<string, ProgramConfig>, done: set<string>, p: string)
    requires done <= programs.Keys && p in programs && p !in done
    requires ImplicitGroups(g0, g, w0.procs.Keys, programs, done)
    requires forall n :: n in AllNames(p, programs[p]) ==> (n in w.procs <==> n in w0.procs)
    requires g' == if p in g then g
      else g[p := Group(Missing(AllNames(p, programs[p]), w.procs.Keys), programs[p].sup.priority)]
    ensures ImplicitGroups(g0, g', w0.procs.Keys, programs, done + {p})
  {
    hide AllNames, Missing;
    MissingAgrees(AllNames(p, programs[p]), w.procs.Keys, w0.procs.Keys);
  }

  /** The explicit groups in `done` are there with their priorities, and no other group has changed. */
  ghost predicate NamedGroups(
    g0: map<string, Group>, g1: map<string, Group>, wanted: map<string, GroupConfig>, done: set<string>)
    requires done <= wanted.Keys
  {
    && g1.Keys == g0.Keys + done
    && forall g :: g in g1 ==> if g in done then g1[g].priority == wanted[g].priority else g1[g] == g0[g]
  }

  lemma NamedMore(
    g0: map<string, Group>, g: map<string, Group>, wanted: map<string, GroupConfig>, done: set<string>,
    name: string, group: Group)
    requires done <= wanted.Keys && name in wanted && NamedGroups(g0, g, wanted, done)
    requires group.priority == wanted[name].priority
    ensures NamedGroups(g0, g[name := group], wanted, done + {name})
  {}

  lemma ValidatedNames(cfg: Cfg)
    requires Validated(cfg)
    ensures NamesDiffer(cfg.programs)
  {}

  lemma NoGroups(g: map<string, Group>, cfg: Cfg)
    ensures cfg.groups.Keys - cfg.groups.Keys == {}
    ensures NamedGroups(g, g, cfg.groups, {})
    ensures ExplicitGroups(g, g, cfg.groups, {}) && PrioritiesOf(map[], cfg.groups, {})
  {}

  lemma {:induction false} PrioritiesMore(priorities: map<string, int>, cfg: Cfg, done: set<string>, name: string)
    requires Validated(cfg) && done <= cfg.groups.Keys && name in cfg.groups && name !in done
    requires PrioritiesOf(priorities, cfg.groups, done)
    ensures var group := cfg.groups[name];
      PrioritiesOf(priorities + map p | p in group.programs :: group.priority, cfg.groups, done + {name})
  {
    hide NamesDiffer;
  }

  lemma {:induction false} ExplicitMore(
    g0: map<string, Group>, g: map<string, Group>, cfg: Cfg, done: set<string>, name: string)
    requires Validated(cfg) && done <= cfg.groups.Keys && name in cfg.groups && name !in done
    requires ExplicitGroups(g0, g, cfg.groups, done)
    ensures var group := cfg.groups[name];
      ExplicitGroups(g0, g[name := Group(Members(group.programs, g), group.priority)], cfg.groups, done + {name})
  {
    hide NamesDiffer, Members;
    MembersAgree(cfg.groups[name].programs, g, g0);
  }

  lemma IdsStay(w: World, w': World, nextId: nat, retiring: set<string>)
    requires IdsOk(w, nextId) && Evolves(w, w', retiring)
    ensures IdsOk(w', nextId)
  {
    hide Continues;
  }

  lemma EvolvesAllowing(w: World, w': World, a: set<string>, b: set<string>)
    requires a <= b && Evolves(w, w', a)
    ensures Evolves(w, w', b)
  {
    hide Continues;
  }

  lemma {:induction false} ActStaysSane(w: World, a: Action)
    requires Sane(w)
    ensures Sane(Act(w, a))
  {
    hide Act, Sane;
    WorldStaysSane(w, [a]);
    assert [a][1..] == [];
    ActAlone(w, a);
  }

  lemma {:induction false} ActAlone(w: World, a: Action)
    ensures RunWorld(w, [a]) == Act(w, a)
  {
    hide Act;
    assert [a][1..] == [];
  }

  lemma LockOkOf(w: World, name: string)
    requires Sane(w) && name in w.procs
    ensures LockOk(View(w, name))
  {}

  lemma ActOn(w: World, name: string, e: Event)
    requires name in w.procs
    ensures Act(w, Action(name, e)).procs[name].p == Step(View(w, name), e).p
  {
    hide Step;
  }

  /** A start that reports success has spawned a child, which is still the process's own. */
  lemma {:induction false} StartGivesChild(s: Sys, e: Event)
    requires e.Start? && Enabled(s, e)
    ensures Startable(s.p) && e.out.Child? ==> Step(s, e).p.child == Some(e.out.pid)
  {
    hide Ends;
  }

  /** `e` with its race if that is possible, and without it otherwise. */
  function Feasible(s: Sys, e: Event, calm: Event): Event {
    if Enabled(s, e) then e else calm
  }

  /** How an autorestart that holds the lock goes on in turn `t`. */
  function Finish(s: Sys, t: Turn): Event {
    Feasible(s, Fire(Restarting, t.heldOut, t.heldRace), Fire(Restarting, t.heldOut, NoRace))
  }

  /** The start that turn `t` brings about: a start watcher can only cut in where one is due. */
  function StartEvent(s: Sys, t: Turn): Event {
    Feasible(s, Start(t.out, t.race), Start(t.out, NoRace))
  }

  /** A call on a process waits for its lock. */
  function LockFreed(w: World, name: string, t: Turn): World
    requires name in w.procs
  {
    if Locked(View(w, name)) then Act(w, Action(name, Finish(View(w, name), t))) else w
  }

  lemma {:induction false} FinishFrees(s: Sys, t: Turn)
    requires LockOk(s) && Locked(s)
    ensures Finish(s, t).Fire?
    ensures NoneRestarting(Step(s, Finish(s, t)))
  {
    hide Effect;
    var e := Finish(s, t);
    GoesOn(s, t.heldOut);
    assert e.Fire? && e.t == Restarting && Enabled(s, e);
    if Effect(s, e).launched == Some(Restarting) { OnlyChecksLaunchRestarting(s, e); }
    EndsRestarting(e);
  }

  lemma {:induction false} LockIsFree(w: World, name: string, t: Turn)
    requires name in w.procs && LockOk(View(w, name))
    ensures !Locked(View(LockFreed(w, name, t), name))
  {
    hide Step, Finish, LockOk;
    if Locked(View(w, name)) { FinishFrees(View(w, name), t); }
  }

  lemma {:induction false} StartTurn(w: World, name: string, t: Turn)
    requires name in w.procs && !Locked(View(w, name))
    ensures var e := StartEvent(View(w, name), t);
      && e.Start?
      && (Startable(w.procs[name].p) && t.out.Child? ==>
            Act(w, Action(name, e)).procs[name].p.child == Some(t.out.pid))
  {
    hide Step, Enabled, Startable, Locked;
    var e := StartEvent(View(w, name), t);
    StartIsEnabled(View(w, name), t.out);
    StartGivesChild(View(w, name), e);
    ActOn(w, name, e);
  }

  lemma StartIsEnabled(s: Sys, out: Spawn)
    requires !Locked(s)
    ensures Enabled(s, Start(out, NoRace))
  {}

  // ---------------------------------------------------------------------
  // What has been seen
  // ---------------------------------------------------------------------

  ghost predicate SeenAt(trace: seq<World>, k: nat, n: string, state: State) {
    k < |trace| && n in trace[k].procs && trace[k].procs[n].p.m.state == state
  }

  /** Each process was in the state noted for it at one of the moments from `from` on. */
  ghost predicate SeenIn(from: nat, trace: seq<World>, seen: map<string, State>) {
    forall n :: n in seen ==> exists k: nat :: from <= k && SeenAt(trace, k, n, seen[n])
  }

  /** The world was like this at one of the moments from `from` on. */
  ghost predicate Moment(from: nat, trace: seq<World>, w: World) {
    exists k: nat :: from <= k < |trace| && trace[k] == w
  }

  lemma MomentNow(trace: seq<World>, longer: seq<World>)
    requires trace < longer
    ensures Moment(|trace|, longer, longer[|longer| - 1])
  {}

  lemma MomentStays(from: nat, trace: seq<World>, longer: seq<World>, w: World)
    requires Moment(from, trace, w) && trace <= longer
    ensures Moment(from, longer, w)
  {}

  lemma SeenNone(from: nat, trace: seq<World>)
    ensures SeenIn(from, trace, map[])
  {}

  lemma SeenBoth(
    from: nat, trace: seq<World>, seen: map<string, State>, next: nat, longer: seq<World>, more: map<string, State>)
    requires SeenIn(from, trace, seen) && trace <= longer && from <= next && SeenIn(next, longer, more)
    ensures SeenIn(from, longer, seen + more)
  {
    forall n | n in seen + more ensures exists k: nat :: from <= k && SeenAt(longer, k, n, (seen + more)[n]) {
      if n in more {
        var k: nat :| next <= k && SeenAt(longer, k, n, more[n]);
        assert from <= k && SeenAt(longer, k, n, (seen + more)[n]);
      } else {
        var k: nat :| from <= k && SeenAt(trace, k, n, seen[n]);
        assert from <= k && SeenAt(longer, k, n, (seen + more)[n]);
      }
    }
  }

  lemma SeenLater(from: nat, trace: seq<World>, longer: seq<World>, seen: map<string, State>)
    requires SeenIn(from, trace, seen) && trace <= longer
    ensures SeenIn(from, longer, seen)
  {
    SeenNone(from, longer);
    SeenBoth(from, trace, seen, from, longer, map[]);
    assert seen + map[] == seen;
  }

  /** Nobody has been retired since the world was `w0`. */
  ghost predicate AsRetired(w0: World, w: World) {
    forall n :: n in w0.procs ==> n in w.procs && w.procs[n].p.retired == w0.procs[n].p.retired
  }

  ghost predicate AllAsRetired(w0: World, from: nat, trace: seq<World>) {
    forall k :: from <= k < |trace| ==> AsRetired(w0, trace[k])
  }

  /** The states noted are from moments at which nobody had been retired yet. */
  ghost predicate SeenBeforeRetiring(w0: World, from: nat, trace: seq<World>, seen: map<string, State>) {
    exists lo: nat, hi: nat :: from <= lo && SeenBetween(w0, lo, hi, trace, seen)
  }

  ghost predicate SeenBetween(w0: World, lo: nat, hi: nat, trace: seq<World>, seen: map<string, State>) {
    hi <= |trace| && SeenIn(lo, trace[..hi], seen) && AllAsRetired(w0, lo, trace[..hi])
  }

  lemma NoneRetiredMore(w0: World, w: World, from: nat, trace: seq<World>, longer: seq<World>)
    requires AllAsRetired(w0, from, trace) && trace <= longer && from <= |trace| && Evolves(w0, w, {})
    requires AllAsRetired(w, |trace|, longer)
    ensures AllAsRetired(w0, from, longer)
  {
    hide Continues;
  }

  lemma NoneRetiredNow(w0: World, w: World)
    requires Evolves(w0, w, {})
    ensures AsRetired(w0, w)
  {
    hide Continues;
  }

  lemma NoneRetiredYet(w: World, trace: seq<World>)
    ensures AllAsRetired(w, |trace|, trace)
  {}

  lemma SeenBeforeAll(w0: World, lo: nat, marked: seq<World>, trace: seq<World>, seen: map<string, State>)
    requires SeenIn(lo, marked, seen) && AllAsRetired(w0, lo, marked) && marked <= trace
    ensures SeenBeforeRetiring(w0, lo, trace, seen)
  {
    hide SeenIn, AllAsRetired;
    assert trace[..|marked|] == marked;
    assert SeenBetween(w0, lo, |marked|, trace, seen);
  }

  lemma SeenBeforeStays(
    w0: World, w: World, from: nat, next: nat, trace: seq<World>, longer: seq<World>, seen: map<string, State>)
    requires SeenBeforeRetiring(w, next, trace, seen) && trace <= longer && from <= next
    requires AsRetired(w0, w)
    ensures SeenBeforeRetiring(w0, from, longer, seen)
  {
    hide SeenIn;
    var lo: nat, hi: nat :| next <= lo && SeenBetween(w, lo, hi, trace, seen);
    assert longer[..hi] == trace[..hi];
    assert SeenBetween(w0, lo, hi, longer, seen);
  }

  /** One look more. */
  lemma SeenNow(
    from: nat, trace: seq<World>, seen: map<string, State>, longer: seq<World>, n: string, state: State)
    requires SeenIn(from, trace, seen) && from <= |trace| && trace < longer
    requires SeenAt(longer, |longer| - 1, n, state)
    ensures SeenIn(from, longer, seen[n := state])
  {
    assert SeenIn(|trace|, longer, map[n := state]);
    SeenBoth(from, trace, seen, |trace|, longer, map[n := state]);
    assert seen + map[n := state] == seen[n := state];
  }

  class Manager {
    var world: World
    var groups: map<string, Group>
    var groupPriority: map<string, int>
    var nextId: nat
    /** How many turns have been taken. */
    var turn: nat
    const env: nat -> Turn
    /** The objects the manager has called Start on. */
    ghost var started: set<nat>
    /** The objects the manager has called Stop, Retire or UpdateConfig on. */
    ghost var commanded: set<nat>
    /** The objects it has waited for until the time was up. */
    ghost var gaveUp: set<nat>
    /** The world at every moment at which the manager has looked at it or has acted on a process. */
    ghost var trace: seq<World>

    ghost predicate Valid()
      reads this
    {
      && (forall i :: ReloadFree(env(i).before))
      && Sane(world)
      && IdsOk(world, nextId)
    }

    /** The trace has grown since it was `before`, up to now. */
    ghost predicate Passed(before: seq<World>)
      reads this`trace, this`world
    {
      before < trace && trace[|trace| - 1] == world
    }

    constructor (env: nat -> Turn, now: int)
      requires forall i :: ReloadFree(env(i).before)
      ensures Valid() && fresh(this)
      ensures world == World(map[], now, false) && groups == map[] && groupPriority == map[]
    {
      this.env := env;
      world := World(map[], now, false);
      groups := map[];
      groupPriority := map[];
      nextId := 0;
      turn := 0;
      started := {};
      commanded := {};
      gaveUp := {};
      trace := [];
    }

    // -------------------------------------------------------------------
    // One action of the manager; anything else may have happened before it
    // -------------------------------------------------------------------

    method Meanwhile()
      requires Valid()
      modifies this`world, this`turn, this`trace
      ensures Valid() && Evolves(old(world), world, {}) && world.procs.Keys == old(world).procs.Keys
      ensures turn == old(turn) + 1 && world == RunWorld(old(world), env(old(turn)).before)
      ensures trace == old(trace) + [world]
    {
      hide Sane, Evolves;
      RunEvolves(world, env(turn).before, {});
      WorldStaysSane(world, env(turn).before);
      IdsStay(world, RunWorld(world, env(turn).before), nextId, {});
      world := RunWorld(world, env(turn).before);
      trace := trace + [world];
      turn := turn + 1;
    }

    /** One action on a process that is not of the kind a reload's own bookkeeping is about. */
    method Do(name: string, e: Event, ghost retiring: set<string>)
      requires Valid() && name in world.procs && !e.Update?
      requires e.Retire? ==> world.procs[name].group in retiring
      modifies this`world, this`trace
      ensures Valid() && world == Act(old(world), Action(name, e)) && trace == old(trace) + [world]
      ensures Evolves(old(world), world, retiring) && world.procs.Keys == old(world).procs.Keys
    {
      hide Sane, Act, Evolves;
      var a := Action(name, e);
      ActEvolves(world, a, retiring);
      ActStaysSane(world, a);
      IdsStay(world, Act(world, a), nextId, retiring);
      world := Act(world, a);
      trace := trace + [world];
    }

    method State(name: string) returns (state: Machines.State)
      requires Valid() && name in world.procs
      modifies this`world, this`turn, this`trace
      ensures Valid() && Evolves(old(world), world, {}) && world.procs.Keys == old(world).procs.Keys
      ensures world == RunWorld(old(world), env(old(turn)).before) && turn == old(turn) + 1
      ensures trace == old(trace) + [world]
      ensures state == world.procs[name].p.m.state
    {
      Meanwhile();
      state := world.procs[name].p.m.state;
    }

    /** Waits for a process's lock. */
    method Acquire(name: string)
      requires Valid() && name in world.procs
      modifies this`world, this`turn, this`trace
      ensures Valid() && Evolves(old(world), world, {}) && world.procs.Keys == old(world).procs.Keys
      ensures world == LockFreed(RunWorld(old(world), env(old(turn)).before), name, env(old(turn)))
      ensures turn == old(turn) + 1 && Passed(old(trace))
      ensures !Locked(View(world, name))
    {
      hide Sane, IdsOk, RunWorld, Act, Evolves, Locked, Finish;
      var t := env(turn);
      Meanwhile();
      ghost var w := world;
      LockOkOf(w, name);
      LockIsFree(w, name, t);
      if Locked(View(world, name)) {
        FinishFrees(View(world, name), t);
        Do(name, Finish(View(world, name), t), {});
        EvolvesFurther(old(world), w, world, {});
      }
    }

    method StopProcess(name: string) returns (ok: bool)
      requires Valid() && name in world.procs
      modifies this`world, this`turn, this`trace, this`commanded
      ensures commanded == old(commanded) + {old(world).procs[name].id}
      ensures var w := LockFreed(RunWorld(old(world), env(old(turn)).before), name, env(old(turn)));
        world == Act(w, Action(name, Stop)) && ok == StopAccepted(w.procs[name].p)
      ensures turn == old(turn) + 1 && Passed(old(trace))
      ensures Valid() && Evolves(old(world), world, {}) && world.procs.Keys == old(world).procs.Keys
      ensures !AlreadyUp(world.procs[name].p.m.state)
    {
      hide Sane, IdsOk, RunWorld, Act, Evolves, StopAccepted, LockFreed, Locked;
      Acquire(name);
      ghost var w := world;
      ok := StopAccepted(world.procs[name].p);
      commanded := commanded + {old(world).procs[name].id};
      StopTakesDown(View(world, name));
      ActOn(world, name, Stop);
      Do(name, Stop, {});
      EvolvesFurther(old(world), w, world, {});
    }

    method StartProcess(name: string) returns (ok: bool)
      requires Valid() && name in world.procs
      modifies this`world, this`turn, this`trace, this`started
      ensures started == old(started) + {old(world).procs[name].id}
      ensures var t := env(old(turn));
        var w := LockFreed(RunWorld(old(world), t.before), name, t);
        && world == Act(w, Action(name, StartEvent(View(w, name), t)))
        && ok == (Startable(w.procs[name].p) && t.out.Child?)
      ensures turn == old(turn) + 1 && Passed(old(trace))
      ensures Valid() && Evolves(old(world), world, {}) && world.procs.Keys == old(world).procs.Keys
      ensures ok ==> world.procs[name].p.child == Some(env(old(turn)).out.pid)
    {
      hide Sane, IdsOk, RunWorld, Act, Evolves, Startable, StartEvent, LockFreed, Locked;
      var t := env(turn);
      Acquire(name);
      ghost var w := world;
      ok := Startable(world.procs[name].p) && t.out.Child?;
      started := started + {old(world).procs[name].id};
      StartTurn(w, name, t);
      Do(name, StartEvent(View(world, name), t), {});
      EvolvesFurther(old(world), w, world, {});
    }

    method RetireProcess(name: string, ghost retiring: set<string>)
      requires Valid() && name in world.procs && world.procs[name].group in retiring
      modifies this`world, this`turn, this`trace, this`commanded
      ensures commanded == old(commanded) + {old(world).procs[name].id}
      ensures world ==
        Act(LockFreed(RunWorld(old(world), env(old(turn)).before), name, env(old(turn))), Action(name, Retire))
      ensures Passed(old(trace))
      ensures Valid() && Evolves(old(world), world, retiring) && world.procs.Keys == old(world).procs.Keys
      ensures world.procs[name].p.retired
    {
      hide Sane, IdsOk, RunWorld, Act, Continues, LockFreed, Locked;
      Acquire(name);
      ghost var w := world;
      EvolvesAllowing(old(world), w, {}, retiring);
      commanded := commanded + {old(world).procs[name].id};
      StepMoves(View(world, name), Retire);
      ActOn(world, name, Retire);
      Do(name, Retire, retiring);
      EvolvesFurther(old(world), w, world, retiring);
    }

    /** waitForStopped: looks until the process is in a terminal state or time is up. */
    method WaitForStopped(name: string) returns (ok: bool)
      requires Valid() && name in world.procs
      modifies this`world, this`turn, this`trace, this`gaveUp
      ensures var last := old(turn) + 1 + env(old(turn)).polls;
        old(turn) < turn <= last && (!ok ==> turn == last)
      ensures gaveUp == old(gaveUp) + if ok then {} else {old(world).procs[name].id}
      ensures Valid() && Evolves(old(world), world, {}) && world.procs.Keys == old(world).procs.Keys
      ensures ok <==> Terminal(world.procs[name].p.m.state)
      ensures Passed(old(trace))
    {
      hide Sane, IdsOk, RunWorld, Evolves;
      var polls := env(turn).polls;
      var state := State(name);
      while !Terminal(state) && polls > 0
        invariant Valid() && Evolves(old(world), world, {})
        invariant world.procs.Keys == old(world).procs.Keys
        invariant state == world.procs[name].p.m.state
        invariant gaveUp == old(gaveUp) && Passed(old(trace))
        invariant turn + polls == old(turn) + 1 + env(old(turn)).polls && turn > old(turn)
        decreases polls
      {
        ghost var w := world;
        state := State(name);
        EvolvesFurther(old(world), w, world, {});
        polls := polls - 1;
      }
      ok := Terminal(state);
      if !ok {
        gaveUp := gaveUp + {old(world).procs[name].id};
      }
    }

    /** The processes of a program, sorted by name. */
    method ProgramProcesses(program: string) returns (names: seq<string>)
      ensures NamesAscending(names) && Distinct(names)
      ensures forall n :: n in names <==> n in world.procs && world.procs[n].group == program
    {
      names := SortNames(set n | n in world.procs && world.procs[n].group == program);
    }

    // -------------------------------------------------------------------
    // LoadConfig
    // -------------------------------------------------------------------

    /** The body of LoadConfig's first loop: create what is missing of one program. */
    method LoadProgram(name: string, cfg: ProgramConfig)
      requires Valid() && !LacksNumber(cfg)
      modifies this`world, this`groups, this`nextId
      ensures Valid()
      ensures Added(old(world), world, name, cfg, Copies(cfg))
      ensures groups == if name in old(groups) then old(groups)
        else old(groups)[name := Group(Missing(AllNames(name, cfg), old(world).procs.Keys), cfg.sup.priority)]
      ensures nextId >= old(nextId)
      ensures NewFrom(old(world), world, old(nextId))
    {
      hide NthName, NthConfig, AddUpTo, Added, Sane, IdsOk, LacksNumber, AreNumbered;
      OwnNamesDiffer(name, cfg);
      AddUpToStep(world, nextId, name, cfg, 0);
      var instances := ExpandNumprocs(name, cfg);
      var procNames: seq<string> := [];
      ghost var names := AllNames(name, cfg);
      for i := 0 to |instances|
        invariant groups == old(groups)
        invariant (world, nextId) == AddUpTo(old(world), old(nextId), name, cfg, i)
        invariant procNames == Missing(names[..i], old(world).procs.Keys)
      {
        var inst := instances[i];
        AddUpToStep(old(world), old(nextId), name, cfg, i);
        AddUpToAdds(old(world), old(nextId), name, cfg, i);
        NextIsNew(old(world), world, name, cfg, i);
        MissingSnoc(names[..i], names[i], old(world).procs.Keys);
        assert names[..i + 1] == names[..i] + [names[i]];
        if inst.name in world.procs {
          continue;
        }
        world := world.(procs := world.procs[inst.name := Managed(nextId, inst.group, NewProc(inst.cfg), multiset{})]);
        nextId := nextId + 1;
        procNames := procNames + [inst.name];
      }
      assert names[..|instances|] == names;
      AddUpToKeeps(old(world), old(nextId), name, cfg, Copies(cfg));
      AddUpToAdds(old(world), old(nextId), name, cfg, Copies(cfg));
      if name !in groups {
        groups := groups[name := Group(procNames, cfg.sup.priority)];
      }
    }

    method LoadPrograms(programs: map<string, ProgramConfig>)
      requires Valid() && NamesDiffer(programs)
      modifies this`world, this`groups, this`nextId
      ensures Valid()
      ensures Created(old(world), world, programs, programs.Keys)
      ensures ImplicitGroups(old(groups), groups, old(world).procs.Keys, programs, programs.Keys)
      ensures nextId >= old(nextId) && NewFrom(old(world), world, old(nextId))
    {
      hide NthName, NamesDiffer, Added, Sane, IdsOk, LacksNumber, Created, ImplicitGroups, NewFrom, AllNames;
      var todo := programs.Keys;
      NothingLoaded(world, groups, programs, nextId);
      while todo != {}
        invariant Valid() && todo <= programs.Keys && nextId >= old(nextId)
        invariant Created(old(world), world, programs, programs.Keys - todo)
        invariant ImplicitGroups(old(groups), groups, old(world).procs.Keys, programs, programs.Keys - todo)
        invariant NewFrom(old(world), world, old(nextId))
        decreases |todo|
      {
        var name :| name in todo;
        ghost var w, g, id, done := world, groups, nextId, programs.Keys - todo;
        DifferentNamesAreNumbered(programs, name);
        LoadProgram(name, programs[name]);
        CreatedMore(old(world), w, world, programs, done, name);
        ImplicitMore(old(groups), g, groups, old(world), w, programs, done, name);
        NewFromMore(old(world), w, world, old(nextId), id, name, programs[name]);
        todo := todo - {name};
        assert programs.Keys - todo == done + {name};
      }
      assert programs.Keys - {} == programs.Keys;
    }

    /** Every program of a group gets the group's priority. */
    method SetPriorities(programs: seq<string>, priority: int)
      modifies this`groupPriority
      ensures groupPriority == old(groupPriority) + map p | p in programs :: priority
    {
      for i := 0 to |programs|
        invariant groupPriority == old(groupPriority) + map p | p in programs[..i] :: priority
      {
        groupPriority := groupPriority[programs[i] := priority];
      }
      assert programs[..|programs|] == programs;
    }

    /** The processes that the groups of the programs list. */
    method MembersOf(programs: seq<string>) returns (procs: seq<string>)
      ensures procs == Members(programs, groups)
      ensures forall n :: n in procs <==> exists p :: p in programs && p in groups && n in groups[p].processes
    {
      hide Members;
      procs := [];
      MembersNone(groups);
      for i := 0 to |programs|
        invariant procs == Members(programs[..i], groups)
      {
        MembersSnoc(programs[..i], programs[i], groups);
        assert programs[..i + 1] == programs[..i] + [programs[i]];
        if programs[i] in groups {
          procs := procs + groups[programs[i]].processes;
        }
      }
      assert programs[..|programs|] == programs;
      forall n ensures n in procs <==> exists p :: p in programs && p in groups && n in groups[p].processes {
        MembersAre(programs, groups, n);
      }
    }

    /**
      The explicit groups. With a group named like a program what another
      group lists can depend on the order of the map; its name and priority
      never do.
     */
    method LoadGroups(cfg: Cfg)
      modifies this`groups, this`groupPriority
      ensures NamedGroups(old(groups), groups, cfg.groups, cfg.groups.Keys)
      ensures Validated(cfg) ==> ExplicitGroups(old(groups), groups, cfg.groups, cfg.groups.Keys)
      ensures Validated(cfg) ==> PrioritiesOf(groupPriority, cfg.groups, cfg.groups.Keys)
    {
      hide Validated, Members, ExplicitGroups, PrioritiesOf, NamedGroups;
      groupPriority := map[];
      var todo := cfg.groups.Keys;
      NoGroups(groups, cfg);
      while todo != {}
        invariant todo <= cfg.groups.Keys
        invariant NamedGroups(old(groups), groups, cfg.groups, cfg.groups.Keys - todo)
        invariant Validated(cfg) ==> ExplicitGroups(old(groups), groups, cfg.groups, cfg.groups.Keys - todo)
        invariant Validated(cfg) ==> PrioritiesOf(groupPriority, cfg.groups, cfg.groups.Keys - todo)
        decreases |todo|
      {
        var name :| name in todo;
        var group := cfg.groups[name];
        ghost var done := cfg.groups.Keys - todo;
        NamedMore(old(groups), groups, cfg.groups, done, name, Group(Members(group.programs, groups), group.priority));
        if Validated(cfg) {
          PrioritiesMore(groupPriority, cfg, done, name);
          ExplicitMore(old(groups), groups, cfg, done, name);
        }
        SetPriorities(group.programs, group.priority);
        var allProcs := MembersOf(group.programs);
        groups := groups[name := Group(allProcs, group.priority)];
        todo := todo - {name};
        assert cfg.groups.Keys - todo == done + {name};
      }
      assert cfg.groups.Keys - {} == cfg.groups.Keys;
    }

    /** LoadConfig creates what is missing and drops nothing. */
    method LoadConfig(cfg: Cfg)
      requires Valid() && NamesDiffer(cfg.programs)
      modifies this`world, this`groups, this`groupPriority, this`nextId
      ensures Valid()
      ensures Created(old(world), world, cfg.programs, cfg.programs.Keys)
      ensures nextId >= old(nextId) && NewFrom(old(world), world, old(nextId))
      ensures groups.Keys == old(groups).Keys + cfg.programs.Keys + cfg.groups.Keys
      ensures Validated(cfg) ==> exists implicit ::
        && ImplicitGroups(old(groups), implicit, old(world).procs.Keys, cfg.programs, cfg.programs.Keys)
        && ExplicitGroups(implicit, groups, cfg.groups, cfg.groups.Keys)
      ensures Validated(cfg) ==> PrioritiesOf(groupPriority, cfg.groups, cfg.groups.Keys)
    {
      hide Sane, IdsOk, Created, NewFrom, ExplicitGroups, PrioritiesOf, NamesDiffer;
      LoadPrograms(cfg.programs);
      LoadGroups(cfg);
    }
  }
}
