/** internal/config/include.go: a config file together with everything it includes. */
module Includes {
  import opened Basics
  import opened Configs

  type Path = string

  /** What filepath.Glob answers for one pattern: an error, or the files in sorted order. */
  datatype Glob = BadPattern | Matches(paths: seq<Path>)

  /** What Load and ExpandVariables make of one file, and its patterns resolved against its directory. */
  datatype Source =
    | Broken
    | File(includes: seq<Glob>, programs: map<string, ProgramConfig>, groups: map<string, GroupConfig>)

  /** The files by absolute path; a path that is missing cannot be loaded. */
  type Disk = map<Path, Source>

  datatype IncludeError = Malformed | Circular(path: Path) | LoadFailed(path: Path) | Duplicate(path: Path)

  /** A file merged with what it includes so far; `files` lists, in load order, whose content it holds. */
  datatype Merged = Merged(programs: map<string, ProgramConfig>, groups: map<string, GroupConfig>, files: seq<Path>)

  /** The work an include directive asks for, in order: a file to load, or a pattern to fail on. */
  datatype Item = Bad | At(path: Path)

  function Visits(paths: seq<Path>): (items: seq<Item>)
    ensures |items| == |paths| && forall i :: 0 <= i < |paths| ==> items[i] == At(paths[i])
  {
    seq(|paths|, i requires 0 <= i < |paths| => At(paths[i]))
  }

  function Items(globs: seq<Glob>): seq<Item> {
    if globs == [] then []
    else (match globs[0] case BadPattern => [Bad] case Matches(paths) => Visits(paths)) + Items(globs[1..])
  }

  predicate Readable(disk: Disk, path: Path) {
    path in disk && disk[path].File?
  }

  function Alone(disk: Disk, path: Path): Merged
    requires Readable(disk, path)
  {
    Merged(disk[path].programs, disk[path].groups, [path])
  }

  /** mergePrograms and mergeGroups, for files with no program in common: a later group wins. */
  function Merge(a: Merged, b: Merged): Merged {
    Merged(a.programs + b.programs, a.groups + b.groups, a.files + b.files)
  }

  lemma {:induction false} FewerLeft(disk: Disk, seen: set<Path>, more: set<Path>)
    requires seen <= more
    ensures |disk.Keys - more| <= |disk.Keys - seen|
    ensures (exists p :: p in disk && p !in seen && p in more) ==> |disk.Keys - more| < |disk.Keys - seen|
  {
    var a, b := disk.Keys - more, disk.Keys - seen;
    assert a <= b;
    assert |b| == |a| + |b - a| by { assert b == a + (b - a); }
    if p :| p in disk && p !in seen && p in more { assert p in b - a; }
  }

  /** One file matched by a pattern: what `acc` becomes once it is merged in, and every file seen by then. */
  function LoadOne(disk: Disk, acc: Merged, path: Path, seen: set<Path>): (r: Result<(Merged, set<Path>), IncludeError>)
    ensures r.Ok? ==> seen + {path} <= r.value.1
    decreases |disk.Keys - seen|, 0
  {
    if path in seen then Err(Circular(path))
    else if !Readable(disk, path) then Err(LoadFailed(path))
    else
      FewerLeft(disk, seen, seen + {path});
      match Resolve(disk, Alone(disk, path), Items(disk[path].includes), seen + {path})
      case Err(e) => Err(e)
      case Ok((sub, seen')) =>
        if sub.programs.Keys !! acc.programs.Keys then Ok((Merge(acc, sub), seen')) else Err(Duplicate(path))
  }

  /** resolveIncludes. */
  function Resolve(disk: Disk, acc: Merged, items: seq<Item>, seen: set<Path>)
    : (r: Result<(Merged, set<Path>), IncludeError>)
    ensures r.Ok? ==> seen <= r.value.1
    decreases |disk.Keys - seen|, |items|
  {
    if items == [] then Ok((acc, seen))
    else if items[0].Bad? then Err(Malformed)
    else
      match LoadOne(disk, acc, items[0].path, seen)
      case Err(e) => Err(e)
      case Ok((acc', seen')) =>
        FewerLeft(disk, seen, seen');
        Resolve(disk, acc', items[1..], seen')
  }

  /** The loading part of LoadWithIncludes: the main file counts as seen. */
  function LoadTree(disk: Disk, root: Path): Result<Merged, IncludeError> {
    if !Readable(disk, root) then Err(LoadFailed(root))
    else
      match Resolve(disk, Alone(disk, root), Items(disk[root].includes), {root})
      case Err(e) => Err(e)
      case Ok((all, _)) => Ok(all)
  }

  // ---------------------------------------------------------------------
  // The loops of the program
  // ---------------------------------------------------------------------

  /** The map of files already loaded, shared by the whole recursion. */
  class Seen {
    var paths: set<Path>

    constructor (paths: set<Path>)
      ensures this.paths == paths
    {
      this.paths := paths;
    }
  }

  class Config {
    var programs: map<string, ProgramConfig>
    var groups: map<string, GroupConfig>
    var includes: seq<Glob>
    /** The files whose content has been merged in. */
    ghost var files: seq<Path>

    ghost function Value(): Merged
      reads this
    {
      Merged(programs, groups, files)
    }

    constructor (disk: Disk, path: Path)
      requires Readable(disk, path)
      ensures Value() == Alone(disk, path)
      ensures includes == disk[path].includes
    {
      programs := disk[path].programs;
      groups := disk[path].groups;
      includes := disk[path].includes;
      files := [path];
    }

    /** mergePrograms: refused if a program is defined on both sides. */
    method MergePrograms(src: map<string, ProgramConfig>) returns (ok: bool)
      modifies this`programs
      ensures ok <==> src.Keys !! old(programs).Keys
      ensures ok ==> programs == old(programs) + src
    {
      var todo := src.Keys;
      while todo != {}
        invariant todo <= src.Keys
        invariant src.Keys - todo !! old(programs).Keys
        invariant programs.Keys == old(programs).Keys + (src.Keys - todo)
        invariant forall name :: name in old(programs) ==> programs[name] == old(programs)[name]
        invariant forall name :: name in src && name !in todo ==> programs[name] == src[name]
        decreases |todo|
      {
        var name :| name in todo;
        if name in programs {
          return false;
        }
        programs := programs[name := src[name]];
        todo := todo - {name};
      }
      return true;
    }

    /** mergePrograms and mergeGroups. */
    method Absorb(src: Config) returns (ok: bool)
      requires src != this
      modifies this
      ensures ok <==> src.programs.Keys !! old(programs).Keys
      ensures ok ==> Value() == Merge(old(Value()), src.Value())
      ensures includes == old(includes)
    {
      ok := MergePrograms(src.programs);
      groups := groups + src.groups;
      files := files + src.files;
    }

    /** The body of the inner loop of resolveIncludes: one matched file. */
    method IncludeFile(disk: Disk, path: Path, seen: Seen) returns (err: Option<IncludeError>)
      modifies this, seen
      ensures var spec := LoadOne(disk, old(Value()), path, old(seen.paths));
        match err
        case None => spec == Ok((Value(), seen.paths)) && includes == old(includes)
        case Some(e) => spec == Err(e)
      decreases |disk.Keys - seen.paths|, 0
    {
      hide Resolve, Items, Merge;
      if path in seen.paths {
        return Some(Circular(path));
      }
      seen.paths := seen.paths + {path};
      if path !in disk || disk[path].Broken? {
        return Some(LoadFailed(path));
      }
      FewerLeft(disk, old(seen.paths), seen.paths);
      var included := new Config(disk, path);
      err := included.ResolveIncludes(disk, seen);
      if err.Some? {
        return;
      }
      var merged := Absorb(included);
      err := if merged then None else Some(Duplicate(path));
    }

    /** resolveIncludes. */
    method ResolveIncludes(disk: Disk, seen: Seen) returns (err: Option<IncludeError>)
      modifies this, seen
      ensures var spec := Resolve(disk, old(Value()), Items(old(includes)), old(seen.paths));
        match err
        case None => spec == Ok((Value(), seen.paths)) && includes == []
        case Some(e) => spec == Err(e)
      decreases |disk.Keys - seen.paths|, 1
    {
      hide Items, LoadOne, Visits;
      ghost var goal := Resolve(disk, Value(), Items(includes), seen.paths);
      var globs := includes;
      assert globs[0..] == globs;
      for i := 0 to |globs|
        invariant old(seen.paths) <= seen.paths
        invariant includes == globs
        invariant goal == Resolve(disk, Value(), Items(globs[i..]), seen.paths)
      {
        ItemsStep(globs, i);
        if globs[i].BadPattern? {
          return Some(Malformed);
        }
        var paths := globs[i].paths;
        ghost var rest := Items(globs[i + 1..]);
        for j := 0 to |paths|
          invariant old(seen.paths) <= seen.paths
          invariant includes == globs
          invariant goal == Resolve(disk, Value(), Visits(paths[j..]) + rest, seen.paths)
        {
          VisitsStep(paths, j, rest);
          FewerLeft(disk, old(seen.paths), seen.paths);
          err := IncludeFile(disk, paths[j], seen);
          if err.Some? {
            return;
          }
        }
        VisitsStep(paths, |paths|, rest);
      }
      ItemsStep(globs, |globs|);
      includes := [];
      return None;
    }
  }

  lemma ItemsStep(globs: seq<Glob>, i: nat)
    requires i <= |globs|
    ensures i == |globs| ==> Items(globs[i..]) == []
    ensures i < |globs| && globs[i].BadPattern? ==> Items(globs[i..]) == [Bad] + Items(globs[i + 1..])
    ensures i < |globs| && globs[i].Matches? ==>
      Items(globs[i..]) == Visits(globs[i].paths[0..]) + Items(globs[i + 1..])
  {
    if i < |globs| {
      assert globs[i..][0] == globs[i] && globs[i..][1..] == globs[i + 1..];
      if globs[i].Matches? { assert globs[i].paths[0..] == globs[i].paths; }
    }
  }

  lemma VisitsStep(paths: seq<Path>, j: nat, rest: seq<Item>)
    requires j <= |paths|
    ensures j == |paths| ==> Visits(paths[j..]) + rest == rest
    ensures j < |paths| ==> Visits(paths[j..]) + rest == [At(paths[j])] + (Visits(paths[j + 1..]) + rest)
  {}

  /** LoadWithIncludes up to its final validation. */
  method LoadWithIncludes(disk: Disk, root: Path) returns (cfg: Config?, err: Option<IncludeError>)
    ensures match err
      case None => cfg != null && fresh(cfg) && LoadTree(disk, root) == Ok(cfg.Value()) && cfg.includes == []
      case Some(e) => cfg == null && LoadTree(disk, root) == Err(e)
  {
    if root !in disk || disk[root].Broken? {
      return null, Some(LoadFailed(root));
    }
    var main := new Config(disk, root);
    var seen := new Seen({root});
    err := main.ResolveIncludes(disk, seen);
    cfg := if err.None? then main else null;
  }
}
