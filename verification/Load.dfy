/** LoadWithIncludes in internal/config/include.go as a whole: includes, then the checks that need all files. */
module Loading {
  import opened Basics
  import opened Configs
  import opened Ordering
  import opened Names
  import opened Includes
  import opened IncludeMeaning

  datatype LoadError = NotLoaded(error: IncludeError) | Invalid

  datatype Loaded = Loaded(programs: map<string, ProgramConfig>, groups: map<string, GroupConfig>)

  /** No program is named twice, in one of the groups or in two. */
  ghost predicate NoneTwice(groups: map<string, GroupConfig>, done: set<string>) {
    forall g, h, i, j ::
      g in done && h in done && g in groups && h in groups
      && 0 <= i < |groups[g].programs| && 0 <= j < |groups[h].programs| ==>
        groups[g].programs[i] == groups[h].programs[j] ==> g == h && i == j
  }

  /** Every group names at least one program, all of them exist, and each belongs to one group only. */
  ghost predicate GroupsRefer(programs: set<string>, groups: map<string, GroupConfig>) {
    && (forall g :: g in groups ==> groups[g].programs != [] && forall p :: p in groups[g].programs ==> p in programs)
    && NoneTwice(groups, groups.Keys)
  }

  /** The first loop of validateGroupReferences. */
  method CheckReferences(programs: set<string>, groups: map<string, GroupConfig>) returns (ok: bool)
    ensures ok <==> forall g :: g in groups ==>
      groups[g].programs != [] && forall p :: p in groups[g].programs ==> p in programs
  {
    ok := true;
    var todo := groups.Keys;
    while todo != {}
      invariant todo <= groups.Keys
      invariant ok <==> forall g :: g in groups && g !in todo ==>
        groups[g].programs != [] && forall p :: p in groups[g].programs ==> p in programs
      decreases |todo|
    {
      var name :| name in todo;
      var list := groups[name].programs;
      var good := list != [];
      for i := 0 to |list|
        invariant good <==> list != [] && forall p :: p in list[..i] ==> p in programs
      {
        assert list[..i + 1] == list[..i] + [list[i]];
        if list[i] !in programs {
          good := false;
        }
      }
      assert list[..|list|] == list;
      ok := ok && good;
      todo := todo - {name};
    }
  }

  /** The programs of the groups looked at so far, in the order of the look. */
  ghost predicate Listed(groups: map<string, GroupConfig>, done: set<string>, seen: set<string>) {
    forall p :: p in seen <==> exists g :: g in done && g in groups && p in groups[g].programs
  }

  lemma NoneTwiceMore(groups: map<string, GroupConfig>, done: set<string>, seen: set<string>, name: string)
    requires name in groups && name !in done && done <= groups.Keys && Listed(groups, done, seen)
    ensures var list := groups[name].programs;
      NoneTwice(groups, done + {name}) <==>
        (NoneTwice(groups, done) && Distinct(list) && forall p :: p in list ==> p !in seen)
  {
    var list := groups[name].programs;
    if NoneTwice(groups, done + {name}) {
      forall p | p in list ensures p !in seen {
        var i :| 0 <= i < |list| && list[i] == p;
        forall g | g in done ensures p !in groups[g].programs {
          forall j | 0 <= j < |groups[g].programs| ensures groups[g].programs[j] != p {}
        }
      }
    }
    if NoneTwice(groups, done) && Distinct(list) && forall p :: p in list ==> p !in seen {
      forall g, h, i, j |
        g in done + {name} && h in done + {name} && g in groups && h in groups
        && 0 <= i < |groups[g].programs| && 0 <= j < |groups[h].programs|
        && groups[g].programs[i] == groups[h].programs[j]
        ensures g == h && i == j
      {
        assert groups[g].programs[i] in groups[g].programs && groups[h].programs[j] in groups[h].programs;
      }
    }
  }

  /** The second loop: a program already listed, in this group or another, is an error. */
  method CheckMembership(groups: map<string, GroupConfig>) returns (ok: bool)
    ensures ok <==> NoneTwice(groups, groups.Keys)
  {
    ok := true;
    var todo := groups.Keys;
    var seen: set<string> := {};
    while todo != {}
      invariant todo <= groups.Keys
      invariant Listed(groups, groups.Keys - todo, seen)
      invariant ok <==> NoneTwice(groups, groups.Keys - todo)
      decreases |todo|
    {
      var name :| name in todo;
      ghost var done, before := groups.Keys - todo, seen;
      NoneTwiceMore(groups, done, before, name);
      var once;
      once, seen := ListMembers(groups[name].programs, seen);
      ok := ok && once;
      todo := todo - {name};
      assert groups.Keys - todo == done + {name};
    }
    assert groups.Keys - {} == groups.Keys;
  }

  method ListMembers(list: seq<string>, before: set<string>) returns (once: bool, seen: set<string>)
    ensures seen == before + Elements(list)
    ensures once <==> Distinct(list) && forall p :: p in list ==> p !in before
  {
    once, seen := true, before;
    for i := 0 to |list|
      invariant seen == before + Elements(list[..i])
      invariant once <==> Distinct(list[..i]) && forall p :: p in list[..i] ==> p !in before
    {
      assert list[..i + 1] == list[..i] + [list[i]];
      DistinctSnoc(list[..i], list[i]);
      if list[i] in seen {
        once := false;
      }
      seen := seen + {list[i]};
    }
    assert list[..|list|] == list;
  }

  method ValidateGroupReferences(programs: set<string>, groups: map<string, GroupConfig>) returns (ok: bool)
    ensures ok <==> GroupsRefer(programs, groups)
  {
    var refer := CheckReferences(programs, groups);
    var once := CheckMembership(groups);
    ok := refer && once;
  }

  /**
    LoadWithIncludes: accepted is a config whose include graph is sound
    (AcceptedIff), whose groups refer to its programs, each to its own, and
    whose processes have different names.
   */
  method Load(disk: Disk, root: Path) returns (r: Result<Loaded, LoadError>)
    ensures match LoadTree(disk, root)
      case Err(e) => r == Err(NotLoaded(e))
      case Ok(all) =>
        r == if GroupsRefer(all.programs.Keys, all.groups) && NamesDiffer(all.programs)
             then Ok(Loaded(all.programs, all.groups)) else Err(Invalid)
    ensures r.Ok? ==> Sound(disk, root)
  {
    hide LoadTree, NamesDiffer, GroupsRefer, CheckPrograms, Sound;
    AcceptedIff(disk, root);
    var cfg, err := LoadWithIncludes(disk, root);
    if err.Some? {
      return Err(NotLoaded(err.value));
    }
    var refer := ValidateGroupReferences(cfg.programs.Keys, cfg.groups);
    var errs := ValidateProcessNames(cfg.programs);
    if !refer || errs != [] {
      return Err(Invalid);
    }
    return Ok(Loaded(cfg.programs, cfg.groups));
  }
}
