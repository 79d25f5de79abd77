/** internal/supervisor/runloop.go: reloading the config file, and previewing a reload. */
module Supervisors {
  import opened Basics
  import opened Configs
  import opened Machines
  import L = Lifecycle
  import opened LifecycleRuns
  import opened Worlds
  import opened Ordering
  import opened Names
  import opened Managers
  import opened Reloads
  import opened Reconfiguration
  import Loading

  /** What LoadWithIncludes returns. A file that defines no program leaves the map of programs nil. */
  datatype Parsed = Parsed(cfg: Cfg, nilPrograms: bool)

  datatype ReloadError = ShuttingDown | LoadFailed

  datatype ReloadResult = ReloadResult(added: seq<string>, changed: seq<string>, removed: seq<string>)

  /** What loading guarantees of its result. */
  ghost predicate Loadable(loaded: Result<Parsed, ReloadError>) {
    loaded.Ok? ==> Validated(loaded.value.cfg) && (loaded.value.nilPrograms ==> loaded.value.cfg.programs == map[])
  }

  /** What LoadWithIncludes accepts is validated, as long as no group is named like a program. */
  lemma AcceptedIsValidated(cfg: Cfg)
    requires Loading.GroupsRefer(cfg.programs.Keys, cfg.groups) && NamesDiffer(cfg.programs)
    requires cfg.groups.Keys !! cfg.programs.Keys
    ensures Validated(cfg)
  {
    hide NamesDiffer;
    forall g, h, p | g in cfg.groups && h in cfg.groups && p in cfg.groups[g].programs && p in cfg.groups[h].programs
      ensures g == h
    {
      var i :| 0 <= i < |cfg.groups[g].programs| && cfg.groups[g].programs[i] == p;
      var j :| 0 <= j < |cfg.groups[h].programs| && cfg.groups[h].programs[j] == p;
    }
  }

  /** The difference between two configs, as a set of lists without order. */
  ghost predicate Reports(r: ReloadResult, was: Cfg, now: Cfg) {
    && IsDiff(was, now, r.added, r.changed, r.removed)
    && NamesAscending(r.added) && NamesAscending(r.changed) && NamesAscending(r.removed)
  }

  /**
    What a reload has stopped and started: stuck are the programs with a
    process that was seen not to have stopped when the wait for it was over;
    started are the recreated programs one of whose processes was seen up
    before it was retired, and the added ones where autostart allows it.
   */
  ghost predicate StopsAndStarts(
    w0: World, w: World, from: nat, trace: seq<World>, was: Cfg, now: Cfg, added: seq<string>, stuck: set<string>,
    before: map<string, State>, after: map<string, State>, gaveUp: set<nat>, started0: set<nat>, started: set<nat>)
  {
    && FlaggedBy(w0, Retiring(was, now), after, s => !Terminal(s), stuck)
    && SeenBeforeRetiring(w0, from, trace, before) && SeenIn(from, trace, after) && WaitedFor(w0, after, gaveUp)
    && exists active ::
         && FlaggedBy(w0, Restarting(was, now), before, s => L.AlreadyUp(s), active)
         && var ids := StartIds(w, active - stuck, false) + StartIds(w, Elements(added), true);
            started0 <= started <= started0 + ids && (w.shutdown || started == started0 + ids)
  }

  class Supervisor {
    const manager: Manager
    var config: Cfg
    var shutting: bool
    /** A write to a nil map has panicked. */
    var panicked: bool
    /** The programs the manager need not be in step with (StillBehind). */
    ghost var behind: set<string>

    /** The manager is in step with the recorded config, up to those. */
    ghost predicate Valid()
      reads this, manager
    {
      && manager.Valid()
      && InStepExcept(manager.world, manager.groups, config, behind)
      && behind <= config.programs.Keys
    }

    /** The first part of Run: the processes of the initial config are created. */
    constructor (env: nat -> Turn, now: int, cfg: Cfg)
      requires forall i :: ReloadFree(env(i).before)
      requires Validated(cfg)
      ensures Valid() && fresh(manager) && config == cfg && behind == {}
      ensures InStep(manager.world, manager.groups, manager.groupPriority, cfg)
      ensures !shutting && !panicked
    {
      hide Validated, Created, ImplicitGroups, ExplicitGroups, PrioritiesOf, GroupsMatch, Settled;
      var m := new Manager(env, now);
      ghost var w0 := m.world;
      ValidatedNames(cfg);
      m.LoadConfig(cfg);
      ghost var implicit :|
        && ImplicitGroups(map[], implicit, w0.procs.Keys, cfg.programs, cfg.programs.Keys)
        && ExplicitGroups(implicit, m.groups, cfg.groups, cfg.groups.Keys);
      BootIsInStep(w0, m.world, implicit, m.groups, m.groupPriority, cfg);
      manager := m;
      config := cfg;
      shutting, panicked := false, false;
      behind := {};
    }

    /** applyReload. Unless it panics, a further reload may follow, whatever is stuck. */
    method ApplyReload(loaded: Result<Parsed, ReloadError>)
      returns (r: Result<ReloadResult, ReloadError>, ghost stuck: set<string>,
               ghost before: map<string, State>, ghost after: map<string, State>)
      requires Valid() && Loadable(loaded)
      requires loaded.Ok? && !shutting ==>
        (config.programs.Keys + loaded.value.cfg.programs.Keys) !! (config.groups.Keys + loaded.value.cfg.groups.Keys)
      modifies this, manager
      ensures manager.Valid() && shutting == old(shutting)
      ensures r.Err? <==> old(shutting) || loaded.Err?
      ensures r.Err? ==> config == old(config) && panicked == old(panicked) && behind == old(behind)
      ensures r.Err? ==> manager.world == old(manager.world) && manager.groups == old(manager.groups)
      ensures r.Err? ==> manager.started == old(manager.started) && manager.commanded == old(manager.commanded)
      ensures r.Ok? ==>
        StopsAndStarts(
          old(manager.world), manager.world, |old(manager.trace)|, manager.trace, old(config), loaded.value.cfg,
          r.value.added, stuck, before, after, manager.gaveUp, old(manager.started), manager.started)
      ensures r.Ok? ==>
        var was, now := old(config), loaded.value.cfg;
        var loose := Loose(was, now, stuck, old(behind));
        && Reports(r.value, was, now)
        && stuck <= Retiring(was, now)
        && Replaced(old(manager.world), manager.world, old(manager.nextId), now, Retiring(was, now), stuck, loose)
        && StepsIn(manager.world, manager.groups, now, loose)
        && GroupsMatch(manager.groups, manager.groupPriority, now)
        && StuckAreDown(old(manager.world), manager.world, stuck)
        && DownAfter(old(manager.world), manager.world)
        && panicked == (old(panicked) || (loaded.value.nilPrograms && stuck != {}))
        && (!panicked ==>
              && Valid()
              && config == Recorded(was, now, stuck)
              && behind == StillBehind(manager.world, was, now, stuck, old(behind))
              && (loose == {} ==> InStep(manager.world, manager.groups, manager.groupPriority, config)))
    {
      hide InStepExcept, InStep, Validated, Replaced, StepsIn, GroupsMatch, StuckAreDown, DownAfter, Retiring, IsDiff,
        NamesFree, FlaggedBy, DroppedAtRest, IdsOf, StartIds, Sane, IdsOk, Loose, StillBehind, DownIsSeen,
        AllNamesTaken, ListsKept, NewHold, SeenIn, SeenBeforeRetiring, WaitedFor, Restarting,
        StopsAndStarts;
      stuck, before, after := {}, map[], map[];
      if shutting {
        return Err(ShuttingDown), {}, map[], map[];
      }
      if loaded.Err? {
        return Err(loaded.error), {}, map[], map[];
      }
      var was, now := config, loaded.value.cfg;
      var added, changed, removed := ConfigDiff(was, now);
      r := Ok(ReloadResult(added, changed, removed));
      var left;
      ghost var active, dropped;
      left, active, before, after, dropped :=
        Reconfiguration.ApplyReload(manager, was, now, added, changed, removed, behind);
      stuck := Elements(left);
      assert left != [] ==> left[0] in stuck;
      Assembled(old(manager.world), manager.world, |old(manager.trace)|, manager.trace, was, now, added, stuck,
                active, before, after, manager.gaveUp, old(manager.started), manager.started);
      RetiringIsOld(was, now);
      AfterReload(old(manager.world), manager.world, old(manager.nextId), manager.groups, manager.groupPriority,
                  was, now, stuck, behind);
      var programs, ok := Record(was, now, left, loaded.value.nilPrograms);
      if !ok {
        panicked := true;
        return;
      }
      config := Cfg(programs, now.groups);
      behind := StillBehind(manager.world, was, now, stuck, behind);
    }

    /** The loop that puts the old config of stuck programs into the new one's map; it fails on a nil map. */
    method Record(was: Cfg, now: Cfg, left: seq<string>, nilPrograms: bool)
      returns (programs: map<string, ProgramConfig>, ok: bool)
      requires forall p :: p in left ==> p in was.programs
      ensures ok <==> !nilPrograms || left == []
      ensures ok ==> programs == Recorded(was, now, Elements(left)).programs
    {
      programs := now.programs;
      for i := 0 to |left|
        invariant programs == now.programs + map p | p in Elements(left[..i]) && p in was.programs :: was.programs[p]
        invariant nilPrograms ==> i == 0
      {
        var prog := left[i];
        if prog in was.programs {
          if nilPrograms {
            return programs, false;
          }
          programs := programs[prog := was.programs[prog]];
        }
      }
      assert left[..|left|] == left;
      ok := true;
    }

    method PreviewReload(loaded: Result<Parsed, ReloadError>) returns (r: Result<ReloadResult, ReloadError>)
      ensures r.Ok? <==> loaded.Ok?
      ensures r.Ok? ==> Reports(r.value, config, loaded.value.cfg)
    {
      if loaded.Err? {
        return Err(loaded.error);
      }
      var added, changed, removed := ConfigDiff(config, loaded.value.cfg);
      return Ok(ReloadResult(added, changed, removed));
    }
  }

  lemma Assembled(
    w0: World, w: World, from: nat, trace: seq<World>, was: Cfg, now: Cfg, added: seq<string>, stuck: set<string>,
    active: set<string>, before: map<string, State>, after: map<string, State>, gaveUp: set<nat>,
    started0: set<nat>, started: set<nat>)
    requires FlaggedBy(w0, Retiring(was, now), after, s => !Terminal(s), stuck)
    requires SeenBeforeRetiring(w0, from, trace, before) && SeenIn(from, trace, after) && WaitedFor(w0, after, gaveUp)
    requires FlaggedBy(w0, Restarting(was, now), before, s => L.AlreadyUp(s), active)
    requires var ids := StartIds(w, active - stuck, false) + StartIds(w, Elements(added), true);
      started0 <= started <= started0 + ids && (w.shutdown || started == started0 + ids)
    ensures StopsAndStarts(w0, w, from, trace, was, now, added, stuck, before, after, gaveUp, started0, started)
  {
    hide FlaggedBy, SeenIn, SeenBeforeRetiring, WaitedFor, StartIds, Retiring, Restarting;
  }

  lemma RetiringIsOld(was: Cfg, now: Cfg)
    ensures Retiring(was, now) <= was.programs.Keys
  {}

  lemma AfterReload(
    w0: World, w: World, nextId: nat, groups: map<string, Group>, priorities: map<string, int>, was: Cfg, now: Cfg,
    stuck: set<string>, behind: set<string>)
    requires Validated(now) && stuck <= Retiring(was, now) && behind <= was.programs.Keys
    requires var loose := Loose(was, now, stuck, behind);
      Replaced(w0, w, nextId, now, Retiring(was, now), stuck, loose) && StepsIn(w, groups, now, loose)
    requires GroupsMatch(groups, priorities, now)
    requires now.programs.Keys + now.groups.Keys <= groups.Keys <= now.programs.Keys + now.groups.Keys + stuck
    ensures Loose(was, now, stuck, behind) == {} ==> InStep(w, groups, priorities, Recorded(was, now, stuck))
    ensures InStepExcept(w, groups, Recorded(was, now, stuck), StillBehind(w, was, now, stuck, behind))
    ensures StillBehind(w, was, now, stuck, behind) <= Recorded(was, now, stuck).programs.Keys
  {
    hide InStepExcept, InStep, Replaced, StepsIn, GroupsMatch, Retiring, NamesFree, NamesDiffer, StillBehind;
    if Loose(was, now, stuck, behind) == {} {
      assert stuck == {};
      NothingStuckMeansInStep(w0, w, nextId, groups, priorities, now, Retiring(was, now));
      assert Recorded(was, now, stuck).programs == now.programs;
    }
    ReloadMeansInStepExcept(w0, w, nextId, groups, was, now, stuck, behind);
  }

  /** Loading into an empty manager puts it in step. */
  lemma {:induction false} BootIsInStep(
    w0: World, w: World, implicit: map<string, Group>, groups: map<string, Group>, priorities: map<string, int>,
    cfg: Cfg)
    requires Validated(cfg) && w0.procs == map[]
    requires Created(w0, w, cfg.programs, cfg.programs.Keys)
    requires ImplicitGroups(map[], implicit, w0.procs.Keys, cfg.programs, cfg.programs.Keys)
    requires ExplicitGroups(implicit, groups, cfg.groups, cfg.groups.Keys)
    requires PrioritiesOf(priorities, cfg.groups, cfg.groups.Keys)
    ensures InStep(w, groups, priorities, cfg)
  {
    hide NamesDiffer, AllNames, Settled, AddedAll, GroupsMatch, PrioritiesOf, ImplicitGroups, ExplicitGroups;
    forall p | p in cfg.programs ensures Settled(w, groups, p, cfg.programs[p]) {
      forall n | n in AllNames(p, cfg.programs[p]) && n in w.procs ensures w.procs[n].group == p {
        NoCommonName(cfg.programs, p, w.procs[n].group, n);
      }
      LoadSettles(w0, map[], w, implicit, groups, cfg, p);
    }
    LoadedGroupsMatch(map[], w0.procs.Keys, implicit, groups, priorities, cfg);
  }

  lemma NoElements(s: seq<string>)
    ensures (forall p :: p !in s) ==> s == []
  {
    if s != [] { assert s[0] in s; }
  }

  /**
    A reload is a fixed point up to what is stuck: previewing the same file
    right afterwards reports nothing added, and as changed or removed exactly
    the programs that could not be stopped.
   */
  lemma {:induction false} PreviewAfterReload(was: Cfg, now: Cfg, stuck: set<string>, preview: ReloadResult)
    requires stuck <= Retiring(was, now)
    requires Reports(preview, Recorded(was, now, stuck), now)
    ensures preview.added == []
    ensures Elements(preview.changed) + Elements(preview.removed) == stuck
    ensures Elements(preview.changed) == stuck * now.programs.Keys
  {
    hide NamesAscending;
    NoElements(preview.added);
    forall p | p in stuck ensures p in was.programs && (p in now.programs ==> was.programs[p] != now.programs[p]) {
      if p in now.programs && was.programs[p] == now.programs[p] { UnchangedNeedsNoRestart(was, now, p); }
    }
  }
}
