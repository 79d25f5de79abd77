/**
  Actions on every process in priority order: internal/process/bulk.go, and
  StopAll of internal/process/manager.go.
 */
module Bulk {
  import opened Basics
  import opened Machines
  import opened Lifecycle
  import opened LifecycleSafety
  import opened LifecycleRuns
  import opened Worlds
  import opened Ordering
  import opened Managers

  // ---------------------------------------------------------------------
  // The order
  // ---------------------------------------------------------------------

  /** What a process is ordered by (sortByPriority). */
  function KeyOf(w: World, groupPriority: map<string, int>, name: string): Key
    requires name in w.procs
  {
    var own := w.procs[name].p.cfg.sup.priority;
    var group := w.procs[name].group;
    Key(if group in groupPriority then groupPriority[group] else own, own, name)
  }

  function KeysOf(w: World, groupPriority: map<string, int>, names: seq<string>): (keys: seq<Key>)
    requires forall n :: n in names ==> n in w.procs
    ensures |keys| == |names| && forall i :: 0 <= i < |names| ==> keys[i] == KeyOf(w, groupPriority, names[i])
  {
    seq(|names|, i requires 0 <= i < |names| => KeyOf(w, groupPriority, names[i]))
  }

  /** The priority that decides first: that of the table of groups if the program is in one, else the process's own. */
  function FirstPriority(w: World, groupPriority: map<string, int>, name: string): int
    requires name in w.procs
  {
    var p := w.procs[name];
    if p.group in groupPriority then groupPriority[p.group] else p.p.cfg.sup.priority
  }

  /** `a` is started before `b` and stopped after it. */
  ghost predicate StartsBefore(w: World, groupPriority: map<string, int>, a: string, b: string)
    requires a in w.procs && b in w.procs
  {
    var firstA, firstB := FirstPriority(w, groupPriority, a), FirstPriority(w, groupPriority, b);
    var ownA, ownB := w.procs[a].p.cfg.sup.priority, w.procs[b].p.cfg.sup.priority;
    && firstA <= firstB
    && (firstA == firstB ==> ownA <= ownB)
    && (firstA == firstB && ownA == ownB ==> Alphabetical(a, b))
  }

  /** All processes, each once: the lowest priority number first, or last. */
  ghost predicate ByPriority(w: World, groupPriority: map<string, int>, names: seq<string>, ascending: bool) {
    && (forall n :: n in names <==> n in w.procs)
    && Distinct(names)
    && forall i, j :: 0 <= i < j < |names| ==>
         if ascending then StartsBefore(w, groupPriority, names[i], names[j])
         else StartsBefore(w, groupPriority, names[j], names[i])
  }

  lemma OrderedIsByPriority(w: World, groupPriority: map<string, int>, names: seq<string>, ascending: bool)
    requires Ordered(w, groupPriority, names, ascending)
    ensures ByPriority(w, groupPriority, names, ascending)
  {
    var keys := KeysOf(w, groupPriority, names);
    forall i, j | 0 <= i < j < |names|
      ensures if ascending then StartsBefore(w, groupPriority, names[i], names[j])
        else StartsBefore(w, groupPriority, names[j], names[i])
    {
      var a, b := if ascending then i else j, if ascending then j else i;
      LessTotal(keys[a], keys[b]);
      NameLessMeans(names[a], names[b]);
    }
  }

  /** `names` are all processes, each once, in the order asked for. */
  ghost predicate Ordered(w: World, groupPriority: map<string, int>, names: seq<string>, ascending: bool) {
    && Distinct(names)
    && (forall n :: n in names <==> n in w.procs)
    && InOrder(KeysOf(w, groupPriority, names), ascending)
  }

  /** orderedNames. */
  method OrderedNames(m: Manager, ascending: bool) returns (names: seq<string>)
    ensures Ordered(m.world, m.groupPriority, names, ascending)
    ensures ByPriority(m.world, m.groupPriority, names, ascending)
  {
    var listed: seq<Key> := [];
    var todo := m.world.procs.Keys;
    while todo != {}
      invariant todo <= m.world.procs.Keys
      invariant Distinct(listed)
      invariant forall k :: k in listed <==>
        k.name in m.world.procs.Keys - todo && k == KeyOf(m.world, m.groupPriority, k.name)
      decreases |todo|
    {
      var n :| n in todo;
      listed := listed + [KeyOf(m.world, m.groupPriority, n)];
      todo := todo - {n};
    }
    var sorted := SortByPriority(listed, ascending);
    names := seq(|sorted|, i requires 0 <= i < |sorted| => sorted[i].name);
    NamesOfKeys(m.world, m.groupPriority, sorted, names);
    OrderedIsByPriority(m.world, m.groupPriority, names, ascending);
  }

  lemma NamesOfKeys(w: World, groupPriority: map<string, int>, keys: seq<Key>, names: seq<string>)
    requires Distinct(keys) && |names| == |keys| && forall i :: 0 <= i < |keys| ==> names[i] == keys[i].name
    requires forall k :: k in keys <==> k.name in w.procs && k == KeyOf(w, groupPriority, k.name)
    ensures Distinct(names) && forall n :: n in names <==> n in w.procs
    ensures KeysOf(w, groupPriority, names) == keys
  {
    forall i | 0 <= i < |keys| ensures names[i] in w.procs && keys[i] == KeyOf(w, groupPriority, names[i]) {
      assert keys[i] in keys;
    }
    forall n | n in w.procs ensures n in names {
      var k := KeyOf(w, groupPriority, n);
      assert k in keys;
      var i :| 0 <= i < |keys| && keys[i] == k;
      assert names[i] == n;
    }
  }

  /** The stop order is the exact reverse of the start order. */
  lemma StopOrderIsReversed(w: World, groupPriority: map<string, int>, up: seq<string>, down: seq<string>)
    requires Ordered(w, groupPriority, up, true) && Ordered(w, groupPriority, down, false)
    ensures down == Reversed(up)
  {
    var a, b := KeysOf(w, groupPriority, up), KeysOf(w, groupPriority, down);
    KeysAreAll(w, groupPriority, up);
    KeysAreAll(w, groupPriority, down);
    hide InOrder, KeyOf;
    StopOrderReversesStartOrder(a, b, a, b);
    forall i | 0 <= i < |down| ensures down[i] == Reversed(up)[i] {
      NameOfKey(w, groupPriority, down, i);
      NameOfKey(w, groupPriority, up, |up| - 1 - i);
    }
  }

  lemma NameOfKey(w: World, groupPriority: map<string, int>, names: seq<string>, i: nat)
    requires (forall n :: n in names ==> n in w.procs) && i < |names|
    ensures KeysOf(w, groupPriority, names)[i].name == names[i]
  {}

  lemma KeysAreAll(w: World, groupPriority: map<string, int>, names: seq<string>)
    requires Distinct(names) && forall n :: n in names <==> n in w.procs
    ensures var keys := KeysOf(w, groupPriority, names);
      Distinct(keys) && forall k :: k in keys <==> k.name in w.procs && k == KeyOf(w, groupPriority, k.name)
  {
    var keys := KeysOf(w, groupPriority, names);
    forall i, j | 0 <= i < j < |keys| ensures keys[i] != keys[j] {
      assert keys[i].name == names[i] && keys[j].name == names[j];
    }
    forall k ensures k in keys <==> k.name in w.procs && k == KeyOf(w, groupPriority, k.name) {
      if k in keys {
        var i :| 0 <= i < |keys| && keys[i] == k;
        assert names[i] in names;
      }
      if k.name in w.procs && k == KeyOf(w, groupPriority, k.name) {
        var i :| 0 <= i < |names| && names[i] == k.name;
        assert keys[i] == k;
      }
    }
  }

  // ---------------------------------------------------------------------
  // One process
  // ---------------------------------------------------------------------

  datatype Reason = ShuttingDown | NoSuchProcess | IsStopping | StartFailed | StopFailed | TimedOut

  datatype Outcome = Done | Skipped | Failed(reason: Reason)

  datatype ActionResult = ActionResult(name: string, outcome: Outcome)

  /** The answer of stopOne to what it has seen of the process. */
  ghost predicate StopAnswers(look: World, r: ActionResult) {
    match r.outcome
    case Failed(NoSuchProcess) => r.name !in look.procs
    case Skipped => r.name in look.procs && Terminal(look.procs[r.name].p.m.state)
    case Failed(StopFailed) => r.name in look.procs && AlreadyUp(look.procs[r.name].p.m.state)
    case Failed(TimedOut) =>
      r.name in look.procs && !Terminal(look.procs[r.name].p.m.state) && look.procs[r.name].p.m.state != Backoff
    case Done => r.name in look.procs && !Terminal(look.procs[r.name].p.m.state)
    case _ => false
  }

  /** The object Stop is called on: that of a process seen up. */
  ghost function StopCalls(look: World, name: string): set<nat> {
    if name in look.procs && AlreadyUp(look.procs[name].p.m.state) then {look.procs[name].id} else {}
  }

  lemma TerminalIsDown(state: State)
    ensures Terminal(state) ==> !AlreadyUp(state)
    ensures state == Backoff ==> AlreadyUp(state)
  {}

  lemma StopAnswersWhen(look: World, name: string)
    ensures name !in look.procs ==>
      StopAnswers(look, ActionResult(name, Failed(NoSuchProcess))) && StopCalls(look, name) == {}
    ensures name in look.procs ==>
      var state := look.procs[name].p.m.state;
      && (Terminal(state) ==> StopAnswers(look, ActionResult(name, Skipped)))
      && (!Terminal(state) ==> StopAnswers(look, ActionResult(name, Done)))
      && (AlreadyUp(state) ==> StopAnswers(look, ActionResult(name, Failed(StopFailed))))
      && (!Terminal(state) && state != Backoff ==> StopAnswers(look, ActionResult(name, Failed(TimedOut))))
      && !(Terminal(state) && AlreadyUp(state))
      && StopCalls(look, name) == if AlreadyUp(state) then {look.procs[name].id} else {}
  {}

  /** Whether a Stop called in turn `t` is accepted. */
  ghost predicate StopGoesThrough(look: World, name: string, t: Turn)
    requires name in look.procs
  {
    StopAccepted(LockFreed(RunWorld(look, t.before), name, t).procs[name].p)
  }

  /**
    stopOne: it looks at the process and stops it exactly if that is up; unless
    it fails the process is not up when it returns. It fails if Stop is refused
    or the process is seen not to have stopped in time, and only then.
   */
  method StopOne(m: Manager, name: string) returns (r: ActionResult, ghost look: World)
    requires m.Valid()
    modifies m`world, m`turn, m`trace, m`commanded, m`gaveUp
    ensures old(m.trace) <= m.trace
    ensures m.Valid() && Evolves(old(m.world), m.world, {}) && m.world.procs.Keys == old(m.world).procs.Keys
    ensures r.name == name
    ensures name in old(m.world).procs ==> Moment(|old(m.trace)|, m.trace, look)
    ensures m.Passed(old(m.trace)) || m.world == old(m.world)
    ensures r.outcome == Failed(TimedOut) ==> name in old(m.world).procs && old(m.world).procs[name].id in m.gaveUp
    ensures look ==
      if name in old(m.world).procs then RunWorld(old(m.world), m.env(old(m.turn)).before) else old(m.world)
    ensures StopAnswers(look, r) && m.commanded == old(m.commanded) + StopCalls(look, name)
    ensures name in look.procs && AlreadyUp(look.procs[name].p.m.state) ==>
      (r.outcome == Failed(StopFailed) <==> !StopGoesThrough(look, name, m.env(old(m.turn) + 1)))
    ensures r.outcome == Failed(TimedOut) ==> !Terminal(m.world.procs[name].p.m.state)
    ensures r.outcome.Done? && look.procs[name].p.m.state != Backoff ==> Terminal(m.world.procs[name].p.m.state)
    ensures !r.outcome.Failed? ==> !AlreadyUp(m.world.procs[name].p.m.state)
  {
    hide Sane, IdsOk, Evolves, RunWorld, Act, LockFreed, StopAnswers, StopCalls, StopGoesThrough, Terminal, AlreadyUp,
      Moment;
    EvolvesItself(m.world, {});
    look := m.world;
    StopAnswersWhen(look, name);
    if name !in m.world.procs {
      return ActionResult(name, Failed(NoSuchProcess)), look;
    }
    var state := m.State(name);
    look := m.world;
    ghost var passed := m.trace;
    MomentNow(old(m.trace), passed);
    StopAnswersWhen(look, name);
    SameId(old(m.world), look, name);
    TerminalIsDown(state);
    if Terminal(state) {
      return ActionResult(name, Skipped), look;
    }
    var outcome := StopAndWait(m, name, state);
    MomentStays(|old(m.trace)|, passed, m.trace, look);
    EvolvesFurther(old(m.world), look, m.world, {});
    r := ActionResult(name, outcome);
  }

  /** What stopOne does with a process that is not down: the stop if it is up, and the wait. */
  method StopAndWait(m: Manager, name: string, state: State) returns (outcome: Outcome)
    requires m.Valid() && name in m.world.procs && state == m.world.procs[name].p.m.state && !Terminal(state)
    modifies m`world, m`turn, m`trace, m`commanded, m`gaveUp
    ensures m.Valid() && Evolves(old(m.world), m.world, {}) && m.world.procs.Keys == old(m.world).procs.Keys
    ensures m.Passed(old(m.trace)) && m.commanded == old(m.commanded) + StopCalls(old(m.world), name)
    ensures outcome == Done || outcome == Failed(StopFailed) || outcome == Failed(TimedOut)
    ensures outcome == Failed(StopFailed) <==>
      AlreadyUp(state) && !StopGoesThrough(old(m.world), name, m.env(old(m.turn)))
    ensures outcome == Failed(TimedOut) ==>
      !Terminal(m.world.procs[name].p.m.state) && old(m.world).procs[name].id in m.gaveUp && state != Backoff
    ensures outcome == Done ==>
      && !AlreadyUp(m.world.procs[name].p.m.state)
      && (state != Backoff ==> Terminal(m.world.procs[name].p.m.state))
  {
    hide Sane, IdsOk, Evolves, RunWorld, Act, LockFreed, StopAccepted, Terminal, AlreadyUp;
    EvolvesItself(m.world, {});
    TerminalIsDown(state);
    if AlreadyUp(state) {
      var ok := m.StopProcess(name);
      if !ok {
        return Failed(StopFailed);
      }
      if state == Backoff {
        return Done;
      }
    }
    ghost var w := m.world;
    SameId(old(m.world), w, name);
    var stopped := m.WaitForStopped(name);
    EvolvesFurther(old(m.world), w, m.world, {});
    TerminalIsDown(m.world.procs[name].p.m.state);
    outcome := if stopped then Done else Failed(TimedOut);
  }

  /** Start has been called. */
  predicate Attempted(outcome: Outcome) {
    outcome == Done || outcome == Failed(StartFailed)
  }

  /**
    The answer of startOne to what it has seen of the process, if no shutdown
    cuts it short: what is down it tries to start, and nothing else.
   */
  ghost predicate StartAnswers(look: World, r: ActionResult) {
    match r.outcome
    case Failed(ShuttingDown) => true
    case Failed(NoSuchProcess) => r.name !in look.procs
    case Skipped => r.name in look.procs && AlreadyUp(look.procs[r.name].p.m.state)
    case Failed(IsStopping) => r.name in look.procs && look.procs[r.name].p.m.state == Stopping
    case _ => Attempted(r.outcome) && r.name in look.procs && Terminal(look.procs[r.name].p.m.state)
  }

  /** What a Start called in turn `t` finds, and what it leaves. */
  ghost function StartFinds(look: World, name: string, t: Turn): World
    requires name in look.procs
  {
    LockFreed(RunWorld(look, t.before), name, t)
  }

  ghost function StartLeaves(look: World, name: string, t: Turn): World
    requires name in look.procs
  {
    var w := StartFinds(look, name, t);
    Act(w, Action(name, StartEvent(View(w, name), t)))
  }

  /**
    The Start called in turn `t` succeeds exactly if the process can be started
    then and the spawn brings a child, which it has afterwards; `w` is what is
    there when the shutdown channel is looked at again, in turn `next`.
   */
  ghost predicate StartTells(look: World, name: string, t: Turn, next: Turn, ok: bool, w: World) {
    && name in look.procs
    && (ok <==> Startable(StartFinds(look, name, t).procs[name].p) && t.out.Child?)
    && (ok ==> StartLeaves(look, name, t).procs[name].p.child == Some(t.out.pid))
    && w == RunWorld(StartLeaves(look, name, t), next.before)
  }

  /** The object Start is called on. */
  ghost function StartCalls(look: World, name: string): set<nat> {
    if name in look.procs then {look.procs[name].id} else {}
  }

  /**
    startOne. Once a shutdown has begun it starts nothing, and undoes a start
    that the shutdown overtook. Otherwise it looks at the process and calls
    Start on it exactly if it is down; the answer is Done exactly if there is
    a child then, the one that was spawned.
   */
  method StartOne(m: Manager, name: string) returns (r: ActionResult, ghost look: World)
    requires m.Valid()
    modifies m`world, m`turn, m`trace, m`started, m`commanded
    ensures old(m.trace) <= m.trace
    ensures m.Valid() && Evolves(old(m.world), m.world, {}) && m.world.procs.Keys == old(m.world).procs.Keys
    ensures r.name == name && StartCalls(look, name) == StartCalls(old(m.world), name)
    ensures var w := RunWorld(old(m.world), m.env(old(m.turn)).before);
      if w.shutdown then r.outcome == Failed(ShuttingDown) && m.started == old(m.started)
      else if name !in w.procs then r.outcome == Failed(NoSuchProcess) && m.started == old(m.started)
      else look == RunWorld(w, m.env(old(m.turn) + 1).before)
    ensures StartAnswers(look, r) && old(m.commanded) <= m.commanded
    ensures Moment(|old(m.trace)|, m.trace, look)
    ensures r.outcome == Failed(ShuttingDown) ==> m.world.shutdown
    ensures old(m.world).shutdown ==> r.outcome == Failed(ShuttingDown) && m.started == old(m.started)
    ensures if Attempted(r.outcome) then m.started == old(m.started) + StartCalls(look, name)
      else if r.outcome == Failed(ShuttingDown) then
        || m.started == old(m.started)
        || (m.started == old(m.started) + StartCalls(look, name)
            && (name in m.world.procs ==> !AlreadyUp(m.world.procs[name].p.m.state)))
      else m.started == old(m.started)
    ensures Attempted(r.outcome) ==>
      StartTells(look, name, m.env(old(m.turn) + 2), m.env(old(m.turn) + 3), r.outcome == Done, m.world)
  {
    hide Sane, IdsOk, AlreadyUp, Evolves, RunWorld, Act, LockFreed, StartTells, StartAnswers, Moment;
    m.Meanwhile();
    look := m.world;
    MomentNow(old(m.trace), m.trace);
    SameId(old(m.world), look, name);
    ShutdownEvolves(old(m.world), look);
    StartAnswersWhen(look, name);
    if m.world.shutdown {
      return ActionResult(name, Failed(ShuttingDown)), look;
    }
    if name !in m.world.procs {
      return ActionResult(name, Failed(NoSuchProcess)), look;
    }
    ghost var w, passed := m.world, m.trace;
    r, look := StartUnlessUp(m, name);
    MomentEarlier(|old(m.trace)|, |passed|, m.trace, look);
    EvolvesFurther(old(m.world), w, m.world, {});
  }

  /** What startOne does with a process there is, when no shutdown had begun. */
  method StartUnlessUp(m: Manager, name: string) returns (r: ActionResult, ghost look: World)
    requires m.Valid() && name in m.world.procs
    modifies m`world, m`turn, m`trace, m`started, m`commanded
    ensures m.Valid() && Evolves(old(m.world), m.world, {}) && m.world.procs.Keys == old(m.world).procs.Keys
    ensures old(m.trace) <= m.trace && Moment(|old(m.trace)|, m.trace, look)
    ensures r.name == name && StartCalls(look, name) == StartCalls(old(m.world), name)
    ensures look == RunWorld(old(m.world), m.env(old(m.turn)).before)
    ensures StartAnswers(look, r) && old(m.commanded) <= m.commanded
    ensures r.outcome == Failed(ShuttingDown) ==> m.world.shutdown
    ensures if Attempted(r.outcome) then m.started == old(m.started) + StartCalls(look, name)
      else if r.outcome == Failed(ShuttingDown) then
        m.started == old(m.started) + StartCalls(look, name)
        && (name in m.world.procs ==> !AlreadyUp(m.world.procs[name].p.m.state))
      else m.started == old(m.started)
    ensures Attempted(r.outcome) ==>
      StartTells(look, name, m.env(old(m.turn) + 1), m.env(old(m.turn) + 2), r.outcome == Done, m.world)
  {
    hide Sane, IdsOk, AlreadyUp, Evolves, RunWorld, Act, LockFreed, StartTells, StartAnswers, Moment;
    var state := m.State(name);
    look := m.world;
    ghost var passed := m.trace;
    MomentNow(old(m.trace), passed);
    SameId(old(m.world), look, name);
    StartAnswersWhen(look, name);
    if AlreadyUp(state) {
      return ActionResult(name, Skipped), look;
    }
    if state == Stopping {
      return ActionResult(name, Failed(IsStopping)), look;
    }
    var failure := StartAndRecheck(m, name);
    MomentStays(|old(m.trace)|, passed, m.trace, look);
    EvolvesFurther(old(m.world), look, m.world, {});
    r := ActionResult(name, if failure.None? then Done else Failed(failure.value));
  }

  lemma StartAnswersWhen(look: World, name: string)
    ensures StartAnswers(look, ActionResult(name, Failed(ShuttingDown)))
    ensures name !in look.procs ==> StartAnswers(look, ActionResult(name, Failed(NoSuchProcess)))
    ensures name in look.procs ==>
      var state := look.procs[name].p.m.state;
      && (AlreadyUp(state) ==> StartAnswers(look, ActionResult(name, Skipped)))
      && (state == Stopping ==> StartAnswers(look, ActionResult(name, Failed(IsStopping))))
      && (!AlreadyUp(state) && state != Stopping ==>
            && StartAnswers(look, ActionResult(name, Done))
            && StartAnswers(look, ActionResult(name, Failed(StartFailed))))
  {}

  /** The start itself, and the look at the shutdown channel after it. */
  method StartAndRecheck(m: Manager, name: string) returns (failure: Option<Reason>)
    requires m.Valid() && name in m.world.procs
    modifies m`world, m`turn, m`trace, m`started, m`commanded
    ensures old(m.trace) <= m.trace
    ensures m.Valid() && Evolves(old(m.world), m.world, {}) && m.world.procs.Keys == old(m.world).procs.Keys
    ensures m.started == old(m.started) + {old(m.world).procs[name].id} && old(m.commanded) <= m.commanded
    ensures failure.None? || failure == Some(ShuttingDown) || failure == Some(StartFailed)
    ensures failure == Some(ShuttingDown) ==> m.world.shutdown && !AlreadyUp(m.world.procs[name].p.m.state)
    ensures failure != Some(ShuttingDown) ==>
      StartTells(old(m.world), name, m.env(old(m.turn)), m.env(old(m.turn) + 1), failure.None?, m.world)
    ensures old(m.world).shutdown ==> failure == Some(ShuttingDown)
  {
    hide Sane, IdsOk, AlreadyUp, Evolves, RunWorld, Act, LockFreed, Startable, StartEvent, StopAccepted;
    var ok := m.StartProcess(name);
    ghost var w3 := m.world;
    m.Meanwhile();
    ghost var w4 := m.world;
    EvolvesFurther(old(m.world), w3, w4, {});
    ShutdownEvolves(old(m.world), w4);
    if m.world.shutdown {
      var _ := m.StopProcess(name);
      EvolvesFurther(old(m.world), w4, m.world, {});
      ShutdownEvolves(w4, m.world);
      return Some(ShuttingDown);
    }
    failure := if ok then None else Some(StartFailed);
  }

  // ---------------------------------------------------------------------
  // All processes
  // ---------------------------------------------------------------------

  function NamesOf(results: seq<ActionResult>): (names: seq<string>)
    ensures |names| == |results| && forall i :: 0 <= i < |results| ==> names[i] == results[i].name
  {
    seq(|results|, i requires 0 <= i < |results| => results[i].name)
  }

  /** The names in order, without those in `skip`. */
  function Without(order: seq<string>, skip: set<string>): seq<string> {
    if order == [] then []
    else
      var last := order[|order| - 1];
      Without(order[..|order| - 1], skip) + if last in skip then [] else [last]
  }

  lemma {:induction false} WithoutHas(order: seq<string>, skip: set<string>)
    ensures forall n :: n in Without(order, skip) <==> n in order && n !in skip
  {
    if order != [] {
      assert order == order[..|order| - 1] + [order[|order| - 1]];
      WithoutHas(order[..|order| - 1], skip);
    }
  }

  function IdsOfNames(w: World, names: set<string>): set<nat> {
    set n | n in names && n in w.procs :: w.procs[n].id
  }

  lemma SameIds(w: World, w': World, names: set<string>)
    requires Evolves(w, w', {})
    ensures IdsOfNames(w', names) == IdsOfNames(w, names)
  {
    hide Continues;
    forall id | id in IdsOfNames(w, names) ensures id in IdsOfNames(w', names) {
      var n :| n in names && n in w.procs && w.procs[n].id == id;
      assert w'.procs[n].id == id;
    }
  }

  /** What a reload on another goroutine has made of the processes between two actions. */
  datatype Reload = Reload(world: World, nextId: nat)

  ghost predicate ReloadsOk(reloads: nat -> Option<Reload>) {
    forall i :: reloads(i).Some? ==>
      Sane(reloads(i).value.world) && IdsOk(reloads(i).value.world, reloads(i).value.nextId)
  }

  ghost predicate NoReloads(reloads: nat -> Option<Reload>) {
    forall i :: reloads(i).None?
  }

  /** A reload may have come and gone: any processes may have been dropped, created or updated. */
  method Between(m: Manager, reloads: nat -> Option<Reload>)
    requires m.Valid() && ReloadsOk(reloads)
    modifies m`world, m`nextId, m`trace
    ensures m.Valid() && m.Passed(old(m.trace))
    ensures NoReloads(reloads) ==> m.world == old(m.world)
  {
    hide Sane, IdsOk;
    var r := reloads(m.turn);
    if r.Some? {
      m.world := r.value.world;
      m.nextId := r.value.nextId;
    }
    m.trace := m.trace + [m.world];
  }

  /** What a stop pass has reported, with the world at each look and at each report. */
  ghost predicate StopsReported(
    results: seq<ActionResult>, looks: seq<World>, at: seq<World>, commanded: set<nat>)
  {
    && |looks| == |at| == |results|
    && forall i :: 0 <= i < |results| ==>
         && StopAnswers(looks[i], results[i])
         && StopCalls(looks[i], results[i].name) <= commanded
         && (!results[i].outcome.Failed? ==>
               results[i].name in at[i].procs && !AlreadyUp(at[i].procs[results[i].name].p.m.state))
  }

  /** Each of the worlds was there at one of the moments from `from` on. */
  ghost predicate Moments(from: nat, trace: seq<World>, worlds: seq<World>) {
    forall i :: 0 <= i < |worlds| ==> Moment(from, trace, worlds[i])
  }

  lemma MomentsMore(from: nat, trace: seq<World>, worlds: seq<World>, longer: seq<World>, w: World)
    requires Moments(from, trace, worlds) && trace <= longer && Moment(from, longer, w)
    ensures Moments(from, longer, worlds + [w])
  {
    hide Moment;
    forall i | 0 <= i < |worlds| ensures Moment(from, longer, worlds[i]) {
      MomentStays(from, trace, longer, worlds[i]);
    }
  }

  lemma MomentsStay(from: nat, trace: seq<World>, worlds: seq<World>, longer: seq<World>)
    requires Moments(from, trace, worlds) && trace <= longer
    ensures Moments(from, longer, worlds)
  {
    hide Moment;
    forall i | 0 <= i < |worlds| ensures Moment(from, longer, worlds[i]) {
      MomentStays(from, trace, longer, worlds[i]);
    }
  }

  lemma MomentsEarlier(from: nat, next: nat, trace: seq<World>, worlds: seq<World>)
    requires Moments(next, trace, worlds) && from <= next
    ensures Moments(from, trace, worlds)
  {}

  lemma MomentEarlier(from: nat, next: nat, trace: seq<World>, w: World)
    requires Moment(next, trace, w) && from <= next
    ensures Moment(from, trace, w)
  {}

  /** The last world of a trace that has passed `middle` on the way. */
  lemma MomentAt(before: seq<World>, middle: seq<World>, after: seq<World>, w: World)
    requires before < middle <= after
    requires w == middle[|middle| - 1] || w == after[|after| - 1]
    ensures Moment(|before|, after, w)
  {
    if w == middle[|middle| - 1] { assert after[|middle| - 1] == w; } else { assert after[|after| - 1] == w; }
  }

  lemma StopsReportedMore(
    results: seq<ActionResult>, looks: seq<World>, at: seq<World>, commanded: set<nat>,
    r: ActionResult, look: World, w: World, more: set<nat>)
    requires StopsReported(results, looks, at, commanded) && commanded <= more
    requires StopAnswers(look, r) && StopCalls(look, r.name) <= more
    requires !r.outcome.Failed? ==> r.name in w.procs && !AlreadyUp(w.procs[r.name].p.m.state)
    ensures StopsReported(results + [r], looks + [look], at + [w], more)
  {
    hide StopAnswers, StopCalls, AlreadyUp;
  }

  lemma StopsStayReported(
    results: seq<ActionResult>, looks: seq<World>, at: seq<World>, commanded: set<nat>, more: set<nat>)
    requires StopsReported(results, looks, at, commanded) && commanded <= more
    ensures StopsReported(results, looks, at, more)
  {
    hide StopAnswers, StopCalls, AlreadyUp;
  }

  /** One result for each name, in order, and every process seen up is stopped, whatever reloads come between. */
  method StopPass(m: Manager, order: seq<string>, reloads: nat -> Option<Reload>)
    returns (results: seq<ActionResult>, ghost looks: seq<World>, ghost at: seq<World>)
    requires m.Valid() && ReloadsOk(reloads)
    modifies m`world, m`turn, m`trace, m`nextId, m`commanded, m`gaveUp
    ensures old(m.trace) <= m.trace
    ensures m.Valid()
    ensures NamesOf(results) == order && StopsReported(results, looks, at, m.commanded)
    ensures Moments(|old(m.trace)|, m.trace, looks) && Moments(|old(m.trace)|, m.trace, at)
    ensures NoReloads(reloads) ==> Evolves(old(m.world), m.world, {})
  {
    hide Sane, IdsOk, Evolves, NoReloads, ReloadsOk, StopAnswers, StopCalls, StopGoesThrough, AlreadyUp, StopsReported,
      Moment, Moments, RunWorld;
    EvolvesItself(m.world, {});
    NothingReported(m.commanded, m.started);
    NoMoments(|m.trace|, m.trace);
    results, looks, at := [], [], [];
    for i := 0 to |order|
      invariant m.Valid()
      invariant old(m.trace) <= m.trace
      invariant NamesOf(results) == order[..i] && StopsReported(results, looks, at, m.commanded)
      invariant Moments(|old(m.trace)|, m.trace, looks) && Moments(|old(m.trace)|, m.trace, at)
      invariant NoReloads(reloads) ==> Evolves(old(m.world), m.world, {})
    {
      ghost var before := m.trace;
      Between(m, reloads);
      ghost var w, had, passed := m.world, m.commanded, m.trace;
      ghost var look;
      var r;
      r, look := StopOne(m, order[i]);
      MomentAt(before, passed, m.trace, m.world);
      if look == w {
        MomentAt(before, passed, m.trace, look);
      } else {
        MomentEarlier(|before|, |passed|, m.trace, look);
      }
      MomentEarlier(|old(m.trace)|, |before|, m.trace, look);
      MomentEarlier(|old(m.trace)|, |before|, m.trace, m.world);
      MomentsMore(|old(m.trace)|, before, looks, m.trace, look);
      MomentsMore(|old(m.trace)|, before, at, m.trace, m.world);
      DownUnlessFailed(look, r, m.world);
      StopsReportedMore(results, looks, at, had, r, look, m.world, m.commanded);
      results, looks, at := results + [r], looks + [look], at + [m.world];
      if NoReloads(reloads) { EvolvesFurther(old(m.world), w, m.world, {}); }
    }
    assert order[..|order|] == order;
  }

  lemma NoMoments(from: nat, trace: seq<World>)
    ensures Moments(from, trace, [])
  {}

  lemma NothingReported(commanded: set<nat>, started: set<nat>)
    ensures StopsReported([], [], [], commanded) && StartsReported([], [], started)
  {}

  lemma DownUnlessFailed(look: World, r: ActionResult, w: World)
    requires StopAnswers(look, r) && (r.name in look.procs <==> r.name in w.procs)
    ensures !r.outcome.Failed? ==> r.name in w.procs
  {}

  /** What a start pass has reported, with the world at each look: what is seen down is started. */
  ghost predicate StartsReported(results: seq<ActionResult>, looks: seq<World>, started: set<nat>) {
    && |looks| == |results|
    && forall i :: 0 <= i < |results| ==>
         && StartAnswers(looks[i], results[i])
         && (Attempted(results[i].outcome) ==>
               results[i].name in looks[i].procs && StartCalls(looks[i], results[i].name) <= started)
  }

  lemma StartsReportedMore(
    results: seq<ActionResult>, looks: seq<World>, started: set<nat>, r: ActionResult, look: World, more: set<nat>)
    requires StartsReported(results, looks, started) && started <= more && StartAnswers(look, r)
    requires Attempted(r.outcome) ==> r.name in look.procs && StartCalls(look, r.name) <= more
    ensures StartsReported(results + [r], looks + [look], more)
  {
    hide StartAnswers, Attempted, StartCalls;
  }

  /** A process that exists and is seen down, and meets no shutdown, has been started. */
  lemma SeenDownIsStarted(results: seq<ActionResult>, looks: seq<World>, started: set<nat>, i: nat)
    requires StartsReported(results, looks, started) && i < |results|
    requires results[i].outcome != Failed(ShuttingDown) && results[i].name in looks[i].procs
    requires var state := looks[i].procs[results[i].name].p.m.state; !AlreadyUp(state) && state != Stopping
    ensures results[i].outcome == Done || results[i].outcome == Failed(StartFailed)
    ensures looks[i].procs[results[i].name].id in started
  {}

  /**
    One result for each name that is not to be skipped, in order, and what is
    seen down is started, whatever reloads come between; without reloads
    nothing else is started, and the objects are those of the beginning.
   */
  method StartPass(m: Manager, order: seq<string>, skip: set<string>, reloads: nat -> Option<Reload>)
    returns (results: seq<ActionResult>, ghost looks: seq<World>)
    requires m.Valid() && ReloadsOk(reloads)
    modifies m`world, m`turn, m`trace, m`nextId, m`started, m`commanded
    ensures old(m.trace) <= m.trace
    ensures m.Valid()
    ensures NamesOf(results) == Without(order, skip) && StartsReported(results, looks, m.started)
    ensures Moments(|old(m.trace)|, m.trace, looks)
    ensures old(m.commanded) <= m.commanded
    ensures NoReloads(reloads) ==> Evolves(old(m.world), m.world, {})
    ensures NoReloads(reloads) ==> m.started <= old(m.started) + IdsOfNames(old(m.world), Elements(order) - skip)
    ensures NoReloads(reloads) ==> forall r :: r in results && Attempted(r.outcome) ==>
      r.name in old(m.world).procs && StartCalls(old(m.world), r.name) <= m.started
  {
    hide Sane, IdsOk, Evolves, NoReloads, ReloadsOk, StartAnswers, StartTells, AlreadyUp, StartsReported,
      RunWorld, Attempted, Moment, Moments;
    EvolvesItself(m.world, {});
    NothingReported(m.commanded, m.started);
    NoMoments(|m.trace|, m.trace);
    results, looks := [], [];
    for i := 0 to |order|
      invariant m.Valid()
      invariant old(m.trace) <= m.trace
      invariant NamesOf(results) == Without(order[..i], skip) && StartsReported(results, looks, m.started)
      invariant Moments(|old(m.trace)|, m.trace, looks)
      invariant old(m.commanded) <= m.commanded
      invariant NoReloads(reloads) ==> Evolves(old(m.world), m.world, {})
      invariant NoReloads(reloads) ==> m.started <= old(m.started) + IdsOfNames(old(m.world), Elements(order) - skip)
      invariant NoReloads(reloads) ==> forall r :: r in results && Attempted(r.outcome) ==>
        r.name in old(m.world).procs && StartCalls(old(m.world), r.name) <= m.started
    {
      assert order[..i + 1][..i] == order[..i];
      if order[i] in skip {
        continue;
      }
      ghost var before := m.trace;
      Between(m, reloads);
      ghost var w, s, passed := m.world, m.started, m.trace;
      if NoReloads(reloads) { SameId(old(m.world), w, order[i]); }
      ghost var look;
      var r;
      r, look := StartOne(m, order[i]);
      MomentEarlier(|old(m.trace)|, |passed|, m.trace, look);
      MomentsMore(|old(m.trace)|, before, looks, m.trace, look);
      assert s <= m.started;
      AttemptedIsThere(look, r);
      StartsReportedMore(results, looks, s, r, look, m.started);
      results, looks := results + [r], looks + [look];
      if NoReloads(reloads) { EvolvesFurther(old(m.world), w, m.world, {}); }
    }
    assert order[..|order|] == order;
  }

  lemma AttemptedIsThere(look: World, r: ActionResult)
    requires StartAnswers(look, r)
    ensures Attempted(r.outcome) ==> r.name in look.procs
  {}

  lemma SameId(w: World, w': World, n: string)
    requires Evolves(w, w', {})
    ensures n in w.procs <==> n in w'.procs
    ensures n in w.procs ==> w'.procs[n].id == w.procs[n].id
  {
    hide Continues;
  }

  ghost function FailedNames(results: seq<ActionResult>): set<string> {
    set r | r in results && r.outcome.Failed? :: r.name
  }

  /** The last result for each name. */
  method ByName(results: seq<ActionResult>, failuresOnly: bool) returns (byName: map<string, ActionResult>)
    ensures forall n :: n in byName ==> byName[n] in results && byName[n].name == n
    ensures forall r :: r in results && (failuresOnly ==> r.outcome.Failed?) ==> r.name in byName
    ensures forall n :: n in byName && failuresOnly ==> byName[n].outcome.Failed?
  {
    byName := map[];
    for i := 0 to |results|
      invariant forall n :: n in byName ==> byName[n] in results && byName[n].name == n
      invariant forall j :: 0 <= j < i && (failuresOnly ==> results[j].outcome.Failed?) ==> results[j].name in byName
      invariant forall n :: n in byName && failuresOnly ==> byName[n].outcome.Failed?
    {
      if !failuresOnly || results[i].outcome.Failed? {
        byName := byName[results[i].name := results[i]];
      }
    }
  }

  /**
    RestartAllOrdered: one result per process of the snapshot, in start order;
    the stop pass goes in the reverse order, and what it fails to stop is not
    started but reported with its failure. What the stop pass sees up is
    stopped, and what the start pass sees down is started. All that holds
    whatever reloads come between its actions.
   */
  method RestartAllOrdered(m: Manager, reloads: nat -> Option<Reload>)
    returns (results: seq<ActionResult>, order: seq<string>, stops: seq<ActionResult>, starts: seq<ActionResult>,
             ghost stopLooks: seq<World>, ghost at: seq<World>, ghost startLooks: seq<World>)
    requires m.Valid() && ReloadsOk(reloads)
    modifies m`world, m`turn, m`trace, m`nextId, m`started, m`commanded, m`gaveUp
    ensures old(m.trace) <= m.trace
    ensures m.Valid()
    ensures ByPriority(old(m.world), m.groupPriority, order, true)
    ensures NamesOf(results) == order
    ensures NamesOf(stops) == Reversed(order)
    ensures NamesOf(starts) == Without(order, FailedNames(stops)) && StartsReported(starts, startLooks, m.started)
    ensures StopsReported(stops, stopLooks, at, m.commanded)
    ensures var from := |old(m.trace)|;
      && Moments(from, m.trace, stopLooks) && Moments(from, m.trace, at) && Moments(from, m.trace, startLooks)
    ensures forall r :: r in results ==>
      if r.name in FailedNames(stops) then r in stops && r.outcome.Failed? else r in starts
    ensures NoReloads(reloads) ==>
      m.started <= old(m.started) + IdsOfNames(old(m.world), Elements(order) - FailedNames(stops))
  {
    hide Sane, IdsOk, Evolves, Ordered, ByPriority, Without, IdsOfNames, NoReloads, ReloadsOk, StopsReported,
      StartsReported, Moments;
    order := OrderedNames(m, true);
    var reversed := Reversed(order);
    stops, stopLooks, at := StopPass(m, reversed, reloads);
    ghost var w, commanded, passed := m.world, m.commanded, m.trace;
    var stopFailed := ByName(stops, true);
    var skip := stopFailed.Keys;
    assert skip == FailedNames(stops);
    starts, startLooks := StartPass(m, order, skip, reloads);
    if NoReloads(reloads) { SameIds(old(m.world), w, Elements(order) - skip); }
    var started := ByName(starts, false);
    WithoutHas(order, skip);
    forall n | n in order && n !in stopFailed ensures n in started { StartedHas(starts, order, skip, n); }
    results := Collect(order, stopFailed, started);
    MomentsStay(|old(m.trace)|, passed, stopLooks, m.trace);
    MomentsStay(|old(m.trace)|, passed, at, m.trace);
    MomentsEarlier(|old(m.trace)|, |passed|, m.trace, startLooks);
    StopsStayReported(stops, stopLooks, at, commanded, m.commanded);
  }

  /** The results in start order, a failed stop before whatever else there is. */
  method Collect(order: seq<string>, stopFailed: map<string, ActionResult>, started: map<string, ActionResult>)
    returns (results: seq<ActionResult>)
    requires forall n :: n in stopFailed ==> stopFailed[n].name == n
    requires forall n :: n in started ==> started[n].name == n
    requires forall n :: n in order && n !in stopFailed ==> n in started
    ensures NamesOf(results) == order
    ensures forall r :: r in results ==>
      if r.name in stopFailed then r == stopFailed[r.name] else r.name in started && r == started[r.name]
  {
    results := [];
    for i := 0 to |order|
      invariant NamesOf(results) == order[..i]
      invariant forall r :: r in results ==>
        if r.name in stopFailed then r == stopFailed[r.name] else r.name in started && r == started[r.name]
    {
      var name := order[i];
      results := results + [if name in stopFailed then stopFailed[name] else started[name]];
    }
    assert order[..|order|] == order;
  }

  lemma StartedHas(starts: seq<ActionResult>, order: seq<string>, skip: set<string>, name: string)
    requires NamesOf(starts) == Without(order, skip) && name in Without(order, skip)
    ensures exists r :: r in starts && r.name == name
  {
    var i :| 0 <= i < |starts| && NamesOf(starts)[i] == name;
    assert starts[i] in starts;
  }

  // ---------------------------------------------------------------------
  // Shutdown
  // ---------------------------------------------------------------------

  predicate NoStarts(actions: seq<Action>) {
    forall i :: 0 <= i < |actions| ==> !actions[i].e.Start?
  }

  /** No autorestart of any process is between its checks and its start. */
  ghost predicate NobodyRestarting(w: World) {
    forall n :: n in w.procs ==> NoneRestarting(View(w, n))
  }

  /** A shutdown has begun, no autorestart has overtaken it, and the processes in `names` are not up. */
  ghost predicate Down(w: World, names: seq<string>) {
    && w.shutdown
    && NobodyRestarting(w)
    && forall n :: n in names && n in w.procs ==> !AlreadyUp(w.procs[n].p.m.state)
  }

  lemma {:induction false} DownStays(w: World, actions: seq<Action>, names: seq<string>)
    requires Down(w, names) && NoStarts(actions)
    ensures Down(RunWorld(w, actions), names)
    decreases |actions|
  {
    hide Act, Down;
    if actions != [] {
      ActStaysDown(w, actions[0], names);
      forall i | 0 <= i < |actions[1..]| ensures !actions[1..][i].e.Start? {}
      DownStays(Act(w, actions[0]), actions[1..], names);
    }
  }

  lemma {:induction false} ActStaysDown(w: World, a: Action, names: seq<string>)
    requires Down(w, names) && !a.e.Start?
    ensures Down(Act(w, a), names)
  {
    hide Step;
    if a.name in w.procs { ShutdownStep(View(w, a.name), a.e); }
  }

  lemma ShutdownKeeps(w: World, nextId: nat)
    requires Sane(w) && IdsOk(w, nextId)
    ensures var w' := w.(shutdown := true);
      Sane(w') && IdsOk(w', nextId) && (NobodyRestarting(w) ==> NobodyRestarting(w'))
  {
    hide Inv, Consistent;
    var w' := w.(shutdown := true);
    forall n | n in w.procs ensures View(w', n) == View(w, n).(shutdown := true) {}
  }

  /** One turn of the stop pass: what was down stays down, and the process is down as well. */
  lemma {:induction false} TurnOfStopAll(
    w: World, before: seq<Action>, t: Turn, names: seq<string>, name: string, w': World)
    requires Down(w, names) && NoStarts(before) && name in w.procs
    requires w' == RunWorld(w, before) || w' == Act(LockFreed(RunWorld(w, before), name, t), Action(name, Stop))
    requires name in w'.procs ==> !AlreadyUp(w'.procs[name].p.m.state)
    ensures Down(w', names + [name])
  {
    hide Act, RunWorld;
    DownStays(w, before, names);
    NobodyHoldsTheLock(RunWorld(w, before), name, t);
    ActStaysDown(RunWorld(w, before), Action(name, Stop), names);
  }

  lemma NobodyHoldsTheLock(w: World, name: string, t: Turn)
    requires name in w.procs && NobodyRestarting(w)
    ensures LockFreed(w, name, t) == w
  {
    assert NoneRestarting(View(w, name));
  }

  lemma DownNone(w: World)
    requires w.shutdown && NobodyRestarting(w)
    ensures Down(w, [])
  {}

  lemma OrderedHasAll(w: World, groupPriority: map<string, int>, names: seq<string>, ascending: bool)
    requires Ordered(w, groupPriority, names, ascending)
    ensures forall n :: n in names <==> n in w.procs
  {}

  /** A bulk stop looks, and stops what is up, in two separate turns. */
  method StopTurn(m: Manager, name: string, ghost names: seq<string>) returns (ghost look: World)
    requires m.Valid() && name in m.world.procs
    modifies m`world, m`turn, m`trace, m`commanded
    ensures old(m.trace) <= m.trace
    ensures m.Valid() && m.world.procs.Keys == old(m.world).procs.Keys
    ensures look == RunWorld(old(m.world), m.env(old(m.turn)).before)
    ensures Moment(|old(m.trace)|, m.trace, look) && m.Passed(old(m.trace))
    ensures m.commanded == old(m.commanded) + StopCalls(look, name)
    ensures !AlreadyUp(m.world.procs[name].p.m.state)
    ensures Down(old(m.world), names) && (forall i :: NoStarts(m.env(i).before)) ==> Down(m.world, names + [name])
  {
    hide Sane, IdsOk, Down, Act, RunWorld, Evolves, LockFreed, StopAccepted, Moment;
    ghost var quiet := Down(m.world, names) && forall i :: NoStarts(m.env(i).before);
    var state := m.State(name);
    look := m.world;
    ghost var passed := m.trace;
    MomentNow(old(m.trace), passed);
    if quiet { DownStays(old(m.world), m.env(old(m.turn)).before, names); }
    if AlreadyUp(state) {
      ghost var t := m.turn;
      var _ := m.StopProcess(name);
      MomentStays(|old(m.trace)|, passed, m.trace, look);
      if quiet { TurnOfStopAll(look, m.env(t).before, m.env(t), names, name, m.world); }
    } else if quiet {
      TurnOfStopAll(old(m.world), m.env(old(m.turn)).before, m.env(old(m.turn)), names, name, m.world);
    }
  }

  /** The processes of `names` were looked at one after the other, stopped if they were up, and down then. */
  ghost predicate StoppedInTurn(names: seq<string>, looks: seq<World>, at: seq<World>, commanded: set<nat>) {
    && |looks| == |at| == |names|
    && forall i :: 0 <= i < |names| ==>
         && StopCalls(looks[i], names[i]) <= commanded
         && names[i] in at[i].procs && !AlreadyUp(at[i].procs[names[i]].p.m.state)
  }

  lemma StoppedOneMore(
    names: seq<string>, looks: seq<World>, at: seq<World>, commanded: set<nat>, name: string, look: World, w: World,
    more: set<nat>)
    requires StoppedInTurn(names, looks, at, commanded) && commanded + StopCalls(look, name) <= more
    requires name in w.procs && !AlreadyUp(w.procs[name].p.m.state)
    ensures StoppedInTurn(names + [name], looks + [look], at + [w], more)
  {
    hide StopCalls, AlreadyUp;
  }

  /**
    StopAll. It goes through the processes in the reverse of the start order,
    and stops each one it sees up. If no autorestart is past its check of the
    shutdown channel when that is closed, and nobody calls Start while StopAll
    runs, it leaves a shutdown in which no process is up.
   */
  method StopAll(m: Manager) returns (ghost all: seq<string>, ghost looks: seq<World>, ghost at: seq<World>)
    requires m.Valid()
    modifies m`world, m`turn, m`trace, m`commanded
    ensures old(m.trace) <= m.trace
    ensures m.Valid() && m.world.procs.Keys == old(m.world).procs.Keys
    ensures ByPriority(old(m.world), m.groupPriority, Reversed(all), true)
    ensures StoppedInTurn(all, looks, at, m.commanded)
    ensures Moments(|old(m.trace)|, m.trace, looks) && Moments(|old(m.trace)|, m.trace, at)
    ensures NobodyRestarting(old(m.world)) && (forall i :: NoStarts(m.env(i).before)) ==> Down(m.world, all)
  {
    hide Sane, IdsOk, Down, Ordered, ByPriority, NobodyRestarting, StopCalls, StoppedInTurn, RunWorld, Moment,
      Moments;
    ghost var quiet := NobodyRestarting(m.world) && forall i :: NoStarts(m.env(i).before);
    ShutdownKeeps(m.world, m.nextId);
    m.world := m.world.(shutdown := true);
    var procs := OrderedNames(m, false);
    OrderedHasAll(m.world, m.groupPriority, procs, false);
    ReversedByPriority(old(m.world), m.world, m.groupPriority, procs);
    NobodyStopped(m.commanded);
    NoMoments(|m.trace|, m.trace);
    if quiet { DownNone(m.world); }
    looks, at := [], [];
    for i := 0 to |procs|
      invariant m.Valid() && m.world.procs.Keys == old(m.world).procs.Keys
      invariant old(m.trace) <= m.trace
      invariant StoppedInTurn(procs[..i], looks, at, m.commanded)
      invariant Moments(|old(m.trace)|, m.trace, looks) && Moments(|old(m.trace)|, m.trace, at)
      invariant quiet ==> Down(m.world, procs[..i])
    {
      ghost var had, passed := m.commanded, m.trace;
      ghost var look := StopTurn(m, procs[i], procs[..i]);
      MomentNow(passed, m.trace);
      MomentEarlier(|old(m.trace)|, |passed|, m.trace, look);
      MomentEarlier(|old(m.trace)|, |passed|, m.trace, m.world);
      MomentsMore(|old(m.trace)|, passed, looks, m.trace, look);
      MomentsMore(|old(m.trace)|, passed, at, m.trace, m.world);
      StoppedOneMore(procs[..i], looks, at, had, procs[i], look, m.world, m.commanded);
      looks, at := looks + [look], at + [m.world];
      assert procs[..i + 1] == procs[..i] + [procs[i]];
    }
    assert procs[..|procs|] == procs;
    all := procs;
  }

  lemma NobodyStopped(commanded: set<nat>)
    ensures StoppedInTurn([], [], [], commanded)
  {}

  lemma ReversedByPriority(w: World, w': World, groupPriority: map<string, int>, names: seq<string>)
    requires ByPriority(w', groupPriority, names, false) && w'.procs == w.procs
    ensures ByPriority(w, groupPriority, Reversed(names), true)
  {
    hide Alphabetical;
    var up := Reversed(names);
    forall n | n in names ensures n in up {
      var i :| 0 <= i < |names| && names[i] == n;
      assert up[|names| - 1 - i] == n;
    }
    forall i, j | 0 <= i < j < |up| ensures StartsBefore(w, groupPriority, up[i], up[j]) && up[i] != up[j] {
      assert StartsBefore(w', groupPriority, names[|names| - 1 - i], names[|names| - 1 - j]);
    }
  }

  /** allStopped in internal/supervisor/runloop.go. */
  predicate AllStopped(w: World) {
    forall n :: n in w.procs ==> !Active(w.procs[n].p.m.state)
  }

  /**
    Once a shutdown has taken everything down and the daemon sees no active
    process, it may exit: no child is left, and as long as nobody calls Start
    no pending retry, autorestart or watcher brings one back.
   */
  lemma {:induction false} ShutdownLeavesNoChild(w: World, all: seq<string>, actions: seq<Action>)
    requires Sane(w) && Down(w, all) && (forall n :: n in all <==> n in w.procs)
    requires AllStopped(w) && NoStarts(actions)
    ensures var w' := RunWorld(w, actions);
      AllStopped(w') && forall n :: n in w'.procs ==> w'.procs[n].p.child.None?
    decreases |actions|
  {
    hide Act, Inv, Consistent;
    if actions == [] {
      forall n | n in w.procs ensures w.procs[n].p.child.None? { NoChildUnlessActive(w.procs[n].p); }
    } else {
      var w1 := Act(w, actions[0]);
      ActStaysDown(w, actions[0], all);
      ActStaysSane(w, actions[0]);
      StoppedStays(w, actions[0], all);
      forall i | 0 <= i < |actions[1..]| ensures !actions[1..][i].e.Start? {}
      ShutdownLeavesNoChild(w1, all, actions[1..]);
    }
  }

  lemma NoChildUnlessActive(p: Proc)
    requires Inv(p) && !Active(p.m.state)
    ensures p.child.None?
  {}

  lemma {:induction false} StoppedStays(w: World, a: Action, all: seq<string>)
    requires Down(w, all) && (forall n :: n in all <==> n in w.procs) && AllStopped(w) && !a.e.Start?
    ensures AllStopped(Act(w, a))
  {
    hide Step;
    if a.name in w.procs {
      StepMoves(View(w, a.name), a.e);
      ShutdownStep(View(w, a.name), a.e);
    }
  }
}
