/**
  What include resolution promises, said without the order in which files are
  loaded: a config is accepted exactly if its include graph is a readable tree
  whose files define different programs.
 */
module IncludeMeaning {
  import opened Basics
  import opened Configs
  import opened Includes

  /** A file that can be read and whose own include patterns are all well formed. */
  predicate Loads(disk: Disk, path: Path) {
    Readable(disk, path) && forall item :: item in Items(disk[path].includes) ==> item.At?
  }

  /**
    A route says which included file to go to at each level. It leads
    somewhere if every file on the way can be read and has such an entry.
   */
  function Follow(disk: Disk, path: Path, route: seq<nat>): Option<Path>
    decreases |route|, 1
  {
    if route == [] then Some(path)
    else if !Readable(disk, path) then None
    else FollowItems(disk, Items(disk[path].includes), route)
  }

  function FollowItems(disk: Disk, items: seq<Item>, route: seq<nat>): Option<Path>
    decreases |route|, 0
  {
    if route == [] || route[0] >= |items| || items[route[0]].Bad? then None
    else Follow(disk, items[route[0]].path, route[1..])
  }

  // ---------------------------------------------------------------------
  // Success: every file reachable from the items is loaded exactly once
  // ---------------------------------------------------------------------

  ghost predicate AllLoad(disk: Disk, items: seq<Item>) {
    && (forall i :: 0 <= i < |items| ==> items[i].At?)
    && forall r :: FollowItems(disk, items, r).Some? ==> Loads(disk, FollowItems(disk, items, r).value)
  }

  ghost predicate OneRouteEach(disk: Disk, items: seq<Item>) {
    forall r1, r2 ::
      FollowItems(disk, items, r1).Some? && FollowItems(disk, items, r1) == FollowItems(disk, items, r2) ==> r1 == r2
  }

  /** `files` holds what the routes through `items` lead to, and nothing else. */
  ghost predicate Reaches(disk: Disk, items: seq<Item>, files: seq<Path>) {
    && (forall r :: FollowItems(disk, items, r).Some? ==> FollowItems(disk, items, r).value in files)
    && forall f :: f in files ==> exists r :: FollowItems(disk, items, r) == Some(f)
  }

  predicate NoRepeat(files: seq<Path>) {
    forall i, j :: 0 <= i < j < |files| ==> files[i] != files[j]
  }

  predicate Apart(files: seq<Path>, seen: set<Path>) {
    forall f :: f in files ==> f !in seen
  }

  ghost predicate Covers(disk: Disk, items: seq<Item>, files: seq<Path>) {
    && AllLoad(disk, items) && OneRouteEach(disk, items) && Reaches(disk, items, files) && NoRepeat(files)
    && InRouteOrder(disk, items, files)
  }

  /** A file comes before what it includes, and that before what comes later at its level. */
  predicate RouteLess(r1: seq<nat>, r2: seq<nat>) {
    r2 != [] && (r1 == [] || r1[0] < r2[0] || (r1[0] == r2[0] && RouteLess(r1[1..], r2[1..])))
  }

  /** `files` are in the order of their routes. */
  ghost predicate InRouteOrder(disk: Disk, items: seq<Item>, files: seq<Path>) {
    forall i, j, r1, r2 ::
      (0 <= i < j < |files| && FollowItems(disk, items, r1) == Some(files[i])
       && FollowItems(disk, items, r2) == Some(files[j])) ==> RouteLess(r1, r2)
  }

  /** Where a route leads tells how it begins. */
  lemma {:induction false} RouteTo(
    disk: Disk, items: seq<Item>, below: seq<Path>, rest: seq<Path>, r: seq<nat>)
    requires items != [] && items[0].At? && Readable(disk, items[0].path)
    requires Reaches(disk, Items(disk[items[0].path].includes), below) && Reaches(disk, items[1..], rest)
    requires FollowItems(disk, items, r).Some?
    ensures r != []
    ensures var f, path := FollowItems(disk, items, r).value, items[0].path;
      || (f == path && r == [0])
      || (f in below && r[0] == 0 && |r| > 1
          && FollowItems(disk, Items(disk[path].includes), r[1..]) == Some(f))
      || (f in rest && r[0] > 0 && FollowItems(disk, items[1..], [r[0] - 1] + r[1..]) == Some(f))
  {
    hide FollowItems;
    Cases(disk, items, r);
    if |r| == 1 && r[0] == 0 { assert r == [0]; }
  }

  lemma {:induction false} InOrderCons(disk: Disk, items: seq<Item>, below: seq<Path>, rest: seq<Path>)
    requires items != [] && items[0].At? && Readable(disk, items[0].path)
    requires Covers(disk, Items(disk[items[0].path].includes), below)
    requires Covers(disk, items[1..], rest)
    requires items[0].path !in below
    requires forall f :: f in rest ==> f != items[0].path && f !in below
    ensures InRouteOrder(disk, items, [items[0].path] + below + rest)
  {
    hide FollowItems, Follow, Items, AllLoad, OneRouteEach, Reaches, InRouteOrder;
    var path := items[0].path;
    var inner := Items(disk[path].includes);
    var files := [path] + below + rest;
    forall i, j, r1, r2 |
      0 <= i < j < |files| && FollowItems(disk, items, r1) == Some(files[i])
      && FollowItems(disk, items, r2) == Some(files[j])
      ensures RouteLess(r1, r2)
    {
      RouteTo(disk, items, below, rest, r1);
      RouteTo(disk, items, below, rest, r2);
      PlaceIn(path, below, rest, i);
      PlaceIn(path, below, rest, j);
      if 0 < i && j <= |below| {
        InOrderAt(disk, inner, below, i - 1, j - 1, r1[1..], r2[1..]);
      } else if i > |below| {
        var k := 1 + |below|;
        InOrderAt(disk, items[1..], rest, i - k, j - k, [r1[0] - 1] + r1[1..], [r2[0] - 1] + r2[1..]);
        Lowered(r1, r2);
      }
    }
    OrderedAll(disk, items, files);
  }

  lemma PlaceIn(path: Path, below: seq<Path>, rest: seq<Path>, i: nat)
    requires i < 1 + |below| + |rest|
    requires path !in below && forall f :: f in rest ==> f != path && f !in below
    ensures var f := ([path] + below + rest)[i];
      if i == 0 then f == path && f !in below && f !in rest
      else if i <= |below| then f == below[i - 1] && f in below && f != path && f !in rest
      else f == rest[i - 1 - |below|] && f in rest && f != path && f !in below
  {}

  lemma InOrderAt(disk: Disk, items: seq<Item>, files: seq<Path>, i: nat, j: nat, r1: seq<nat>, r2: seq<nat>)
    requires InRouteOrder(disk, items, files) && i < j < |files|
    requires FollowItems(disk, items, r1) == Some(files[i]) && FollowItems(disk, items, r2) == Some(files[j])
    ensures RouteLess(r1, r2)
  {
    hide FollowItems;
  }

  lemma OrderedAll(disk: Disk, items: seq<Item>, files: seq<Path>)
    requires forall i, j, r1, r2 ::
      (0 <= i < j < |files| && FollowItems(disk, items, r1) == Some(files[i])
       && FollowItems(disk, items, r2) == Some(files[j])) ==> RouteLess(r1, r2)
    ensures InRouteOrder(disk, items, files)
  {
    hide FollowItems, RouteLess;
  }

  lemma Lowered(r1: seq<nat>, r2: seq<nat>)
    requires r1 != [] && r2 != [] && r1[0] > 0 && r2[0] > 0
    requires RouteLess([r1[0] - 1] + r1[1..], [r2[0] - 1] + r2[1..])
    ensures RouteLess(r1, r2)
  {
    assert ([r1[0] - 1] + r1[1..])[1..] == r1[1..] && ([r2[0] - 1] + r2[1..])[1..] == r2[1..];
  }

  /** A route through `items` goes to the first item, below it, or through the others. */
  lemma {:induction false} Cases(disk: Disk, items: seq<Item>, r: seq<nat>)
    requires items != [] && items[0].At? && Readable(disk, items[0].path)
    requires FollowItems(disk, items, r).Some?
    ensures r != []
    ensures r == [0] ==> FollowItems(disk, items, r) == Some(items[0].path)
    ensures r[0] == 0 && |r| > 1 ==>
      FollowItems(disk, items, r) == FollowItems(disk, Items(disk[items[0].path].includes), r[1..])
    ensures r[0] > 0 ==>
      FollowItems(disk, items, r) == FollowItems(disk, items[1..], [r[0] - 1] + r[1..])
  {
    if r[0] == 0 && |r| > 1 {
      assert r[1..] != [];
    } else if r[0] > 0 {
      assert ([r[0] - 1] + r[1..])[1..] == r[1..];
    }
  }

  lemma {:induction false} Below(disk: Disk, items: seq<Item>, r: seq<nat>)
    requires items != [] && items[0].At? && Readable(disk, items[0].path) && r != []
    ensures FollowItems(disk, items, [0] + r) == FollowItems(disk, Items(disk[items[0].path].includes), r)
  {
    assert ([0] + r)[1..] == r;
  }

  lemma {:induction false} Beside(disk: Disk, items: seq<Item>, r: seq<nat>)
    requires items != [] && r != []
    ensures FollowItems(disk, items, [r[0] + 1] + r[1..]) == FollowItems(disk, items[1..], r)
  {
    assert ([r[0] + 1] + r[1..])[1..] == r[1..];
  }

  /** Covering the first item's own includes and the remaining items covers everything. */
  lemma {:induction false} CoversCons(disk: Disk, items: seq<Item>, below: seq<Path>, rest: seq<Path>)
    requires items != [] && items[0].At? && Readable(disk, items[0].path)
    requires Covers(disk, Items(disk[items[0].path].includes), below)
    requires Covers(disk, items[1..], rest)
    requires items[0].path !in below
    requires forall f :: f in rest ==> f != items[0].path && f !in below
    ensures Covers(disk, items, [items[0].path] + below + rest)
  {
    InOrderCons(disk, items, below, rest);
    hide FollowItems, Follow, InRouteOrder;
    var path := items[0].path;
    var inner := Items(disk[path].includes);
    var files := [path] + below + rest;
    assert Loads(disk, path) by {
      forall item | item in inner ensures item.At? {
        var i :| 0 <= i < |inner| && inner[i] == item;
      }
    }
    forall i | 0 <= i < |items| ensures items[i].At? {
      if i > 0 { assert items[1..][i - 1].At?; }
    }
    forall r | FollowItems(disk, items, r).Some?
      ensures Loads(disk, FollowItems(disk, items, r).value) && FollowItems(disk, items, r).value in files
    {
      Cases(disk, items, r);
    }
    forall f | f in files ensures exists r :: FollowItems(disk, items, r) == Some(f) {
      if f == path {
        FirstItem(disk, items);
      } else if f in below {
        var r :| FollowItems(disk, inner, r) == Some(f);
        NonEmpty(disk, inner, r);
        Below(disk, items, r);
      } else {
        var r :| FollowItems(disk, items[1..], r) == Some(f);
        NonEmpty(disk, items[1..], r);
        Beside(disk, items, r);
      }
    }
    forall r1, r2 | FollowItems(disk, items, r1).Some?
      && FollowItems(disk, items, r1) == FollowItems(disk, items, r2)
      ensures r1 == r2
    {
      Cases(disk, items, r1);
      Cases(disk, items, r2);
      SameRoute(r1, r2);
    }
    NoRepeatConcat([path], below);
    NoRepeatConcat([path] + below, rest);
  }

  lemma NoRepeatConcat(a: seq<Path>, b: seq<Path>)
    requires NoRepeat(a) && NoRepeat(b)
    requires forall f :: f in b ==> f !in a
    ensures NoRepeat(a + b)
  {
    var c := a + b;
    forall i, j | 0 <= i < j < |c| ensures c[i] != c[j] {
      if i < |a| <= j { assert c[i] == a[i] && c[i] in a && c[j] == b[j - |a|] && c[j] in b; }
      if j < |a| { assert c[i] == a[i] && c[j] == a[j]; }
      if |a| <= i { assert c[i] == b[i - |a|] && c[j] == b[j - |a|]; }
    }
  }

  lemma {:induction false} FirstItem(disk: Disk, items: seq<Item>)
    requires items != [] && items[0].At?
    ensures FollowItems(disk, items, [0]) == Some(items[0].path)
  {}

  lemma {:induction false} NonEmpty(disk: Disk, items: seq<Item>, r: seq<nat>)
    requires FollowItems(disk, items, r).Some?
    ensures r != []
  {}

  lemma SameRoute(r1: seq<nat>, r2: seq<nat>)
    requires r1 != [] && r2 != []
    ensures r1[0] == 0 && r2[0] == 0 && r1[1..] == r2[1..] ==> r1 == r2
    ensures r1[0] > 0 && r2[0] > 0 && [r1[0] - 1] + r1[1..] == [r2[0] - 1] + r2[1..] ==> r1 == r2
  {
    assert r1 == [r1[0]] + r1[1..] && r2 == [r2[0]] + r2[1..];
    if r1[0] > 0 && r2[0] > 0 && [r1[0] - 1] + r1[1..] == [r2[0] - 1] + r2[1..] {
      assert ([r1[0] - 1] + r1[1..])[0] == r1[0] - 1;
      assert ([r2[0] - 1] + r2[1..])[0] == r2[0] - 1;
      assert ([r1[0] - 1] + r1[1..])[1..] == r1[1..];
      assert ([r2[0] - 1] + r2[1..])[1..] == r2[1..];
    }
  }

  /** What a successful resolution did for its first item. */
  lemma {:induction false} Unfold(disk: Disk, acc: Merged, items: seq<Item>, seen: set<Path>)
    requires items != [] && Resolve(disk, acc, items, seen).Ok?
    ensures items[0].At? && items[0].path !in seen && Readable(disk, items[0].path)
    ensures var path := items[0].path;
      var inner := Resolve(disk, Alone(disk, path), Items(disk[path].includes), seen + {path});
      && inner.Ok?
      && Resolve(disk, Merge(acc, inner.value.0), items[1..], inner.value.1) == Resolve(disk, acc, items, seen)
      && acc.programs.Keys !! inner.value.0.programs.Keys
      && |disk.Keys - (seen + {path})| < |disk.Keys - seen|
      && |disk.Keys - inner.value.1| < |disk.Keys - seen|
  {
    hide Items;
    var path := items[0].path;
    FewerLeft(disk, seen, seen + {path});
    FewerLeft(disk, seen, LoadOne(disk, acc, path, seen).value.1);
  }

  function Set(files: seq<Path>): set<Path> {
    set f | f in files
  }

  /** Resolving `items` succeeds, and `files` is what it loads. */
  ghost predicate Loading(disk: Disk, acc: Merged, items: seq<Item>, seen: set<Path>, files: seq<Path>) {
    && Resolve(disk, acc, items, seen).Ok?
    && Resolve(disk, acc, items, seen).value.0.files == acc.files + files
    && Resolve(disk, acc, items, seen).value.1 == seen + Set(files)
    && Apart(files, seen)
    && Covers(disk, items, files)
  }

  lemma {:induction false} LoadingCons(
    disk: Disk, acc: Merged, items: seq<Item>, seen: set<Path>, sub: Merged, below: seq<Path>, rest: seq<Path>)
    requires items != [] && items[0].At? && items[0].path !in seen && Readable(disk, items[0].path)
    requires var path := items[0].path;
      var inner := Items(disk[path].includes);
      && Loading(disk, Alone(disk, path), inner, seen + {path}, below)
      && Resolve(disk, Alone(disk, path), inner, seen + {path}).value.0 == sub
      && Loading(disk, Merge(acc, sub), items[1..], seen + {path} + Set(below), rest)
      && Resolve(disk, Merge(acc, sub), items[1..], seen + {path} + Set(below)) == Resolve(disk, acc, items, seen)
    ensures Loading(disk, acc, items, seen, [items[0].path] + below + rest)
  {
    hide Follow, FollowItems, Covers, Items, Resolve, Set, Apart, Merge, Alone;
    var path := items[0].path;
    MergeFiles(disk, acc, sub, path);
    Assemble(acc.files, path, below, rest, seen);
    CoversCons(disk, items, below, rest);
  }

  lemma {:induction false} ResolvedLoads(disk: Disk, acc: Merged, items: seq<Item>, seen: set<Path>)
    returns (files: seq<Path>)
    requires Resolve(disk, acc, items, seen).Ok?
    ensures Loading(disk, acc, items, seen, files)
    decreases |disk.Keys - seen|, |items|
  {
    hide Items, Resolve, Merge, Alone, Covers, Set;
    if items == [] {
      files := [];
      LoadingNothing(disk, acc, seen);
    } else {
      Unfold(disk, acc, items, seen);
      var path := items[0].path;
      var (sub, seen') := Resolve(disk, Alone(disk, path), Items(disk[path].includes), seen + {path}).value;
      var below := ResolvedLoads(disk, Alone(disk, path), Items(disk[path].includes), seen + {path});
      var rest := ResolvedLoads(disk, Merge(acc, sub), items[1..], seen');
      LoadingCons(disk, acc, items, seen, sub, below, rest);
      files := [path] + below + rest;
    }
  }

  lemma {:induction false} LoadingNothing(disk: Disk, acc: Merged, seen: set<Path>)
    ensures Loading(disk, acc, [], seen, [])
  {}

  lemma MergeFiles(disk: Disk, a: Merged, b: Merged, path: Path)
    requires Readable(disk, path)
    ensures Merge(a, b).files == a.files + b.files && Alone(disk, path).files == [path]
  {}

  lemma Assemble(acc: seq<Path>, path: Path, below: seq<Path>, rest: seq<Path>, seen: set<Path>)
    requires path !in seen && Apart(below, seen + {path}) && Apart(rest, seen + {path} + Set(below))
    ensures var files := [path] + below + rest;
      && acc + files == acc + ([path] + below) + rest
      && seen + Set(files) == seen + {path} + Set(below) + Set(rest)
      && Apart(files, seen)
      && path !in below
      && forall f :: f in rest ==> f != path && f !in below
  {}

  // ---------------------------------------------------------------------
  // Success: the content is the disjoint union of the files' own programs
  // ---------------------------------------------------------------------

  const NOTHING := Merged(map[], map[], [])

  function Own(disk: Disk, path: Path): Merged {
    if Readable(disk, path) then Alone(disk, path) else NOTHING
  }

  /** The files' own programs and groups laid over one another in order. */
  function Joined(disk: Disk, files: seq<Path>): Merged {
    if files == [] then NOTHING
    else Merge(Joined(disk, files[..|files| - 1]), Own(disk, files[|files| - 1]))
  }

  lemma MapLaws<V>(a: map<string, V>, b: map<string, V>, c: map<string, V>)
    ensures (a + b) + c == a + (b + c)
    ensures a + map[] == a && map[] + a == a
  {}

  lemma MergeLaws(a: Merged, b: Merged, c: Merged)
    ensures Merge(Merge(a, b), c) == Merge(a, Merge(b, c))
    ensures Merge(a, NOTHING) == a && Merge(NOTHING, a) == a
  {
    MapLaws(a.programs, b.programs, c.programs);
    MapLaws(a.groups, b.groups, c.groups);
    assert (a.files + b.files) + c.files == a.files + (b.files + c.files);
    assert a.files + [] == a.files && [] + a.files == a.files;
  }

  lemma {:induction false} JoinedConcat(disk: Disk, a: seq<Path>, b: seq<Path>)
    ensures Joined(disk, a + b) == Merge(Joined(disk, a), Joined(disk, b))
    decreases |b|
  {
    hide Merge, Own;
    if b == [] {
      assert a + b == a;
      MergeLaws(Joined(disk, a), NOTHING, NOTHING);
    } else {
      var init, last := b[..|b| - 1], b[|b| - 1];
      assert (a + b)[..|a + b| - 1] == a + init;
      JoinedConcat(disk, a, init);
      MergeLaws(Joined(disk, a), Joined(disk, init), Own(disk, last));
    }
  }

  lemma {:induction false} JoinedOne(disk: Disk, path: Path)
    ensures Joined(disk, [path]) == Own(disk, path)
  {
    assert [path][..0] == [];
    MergeLaws(Own(disk, path), NOTHING, NOTHING);
  }

  function OwnPrograms(disk: Disk, path: Path): map<string, ProgramConfig> {
    Own(disk, path).programs
  }

  /** No program is defined in two of the files, or in one of them and in `taken`. */
  ghost predicate Unshared(disk: Disk, taken: set<string>, files: seq<Path>) {
    && (forall f :: f in files ==> OwnPrograms(disk, f).Keys !! taken)
    && forall i, j :: 0 <= i < j < |files| ==> OwnPrograms(disk, files[i]).Keys !! OwnPrograms(disk, files[j]).Keys
  }

  ghost predicate Defined(disk: Disk, files: seq<Path>, name: string) {
    exists f :: f in files && name in OwnPrograms(disk, f)
  }

  lemma JoinedSnoc(disk: Disk, init: seq<Path>, last: Path)
    ensures Joined(disk, init + [last]).programs == Joined(disk, init).programs + OwnPrograms(disk, last)
    ensures Joined(disk, init + [last]).files == Joined(disk, init).files + Own(disk, last).files
  {
    assert (init + [last])[..|init|] == init;
  }

  /** The programs of a join are those of its files. */
  lemma {:induction false} JoinedPrograms(disk: Disk, files: seq<Path>)
    ensures forall name :: name in Joined(disk, files).programs <==> Defined(disk, files, name)
    decreases |files|
  {
    hide Joined, OwnPrograms;
    if files == [] {
      JoinedNone(disk);
    } else {
      var init, last := files[..|files| - 1], files[|files| - 1];
      assert files == init + [last];
      JoinedSnoc(disk, init, last);
      JoinedPrograms(disk, init);
    }
  }

  lemma {:induction false} JoinedNone(disk: Disk)
    ensures Joined(disk, []) == NOTHING
  {}

  /** Without sharing, each program keeps the definition of its file. */
  lemma {:induction false} JoinedKeeps(disk: Disk, files: seq<Path>, f: Path, name: string)
    requires Unshared(disk, {}, files) && f in files && name in OwnPrograms(disk, f)
    ensures name in Joined(disk, files).programs
    ensures Joined(disk, files).programs[name] == OwnPrograms(disk, f)[name]
    decreases |files|
  {
    hide Joined, OwnPrograms;
    var init, last := files[..|files| - 1], files[|files| - 1];
    assert files == init + [last];
    JoinedSnoc(disk, init, last);
    if f != last {
      assert f in init;
      assert Unshared(disk, {}, init) by {
        forall i, j | 0 <= i < j < |init| ensures OwnPrograms(disk, init[i]).Keys !! OwnPrograms(disk, init[j]).Keys {
          assert init[i] == files[i] && init[j] == files[j];
        }
      }
      JoinedKeeps(disk, init, f, name);
      var i :| 0 <= i < |init| && init[i] == f;
      assert files[i] == f && files[|init|] == last;
    }
  }

  /** The groups a file defines itself. */
  function OwnGroups(disk: Disk, path: Path): map<string, GroupConfig> {
    if Readable(disk, path) then disk[path].groups else map[]
  }

  /** Of the files that define the group this is the last one. */
  ghost predicate LastToDefine(disk: Disk, files: seq<Path>, g: string, i: int) {
    && 0 <= i < |files| && g in OwnGroups(disk, files[i])
    && forall j :: i < j < |files| ==> g !in OwnGroups(disk, files[j])
  }

  lemma GroupsSnoc(disk: Disk, init: seq<Path>, last: Path)
    ensures Joined(disk, init + [last]).groups == Joined(disk, init).groups + OwnGroups(disk, last)
  {
    assert (init + [last])[..|init|] == init;
  }

  /** Of the files that define a group, the last one gives its value. */
  lemma {:induction false} JoinedGroups(disk: Disk, files: seq<Path>, g: string)
    ensures g in Joined(disk, files).groups <==> exists f :: f in files && g in OwnGroups(disk, f)
    ensures forall i :: LastToDefine(disk, files, g, i) ==>
      g in Joined(disk, files).groups && Joined(disk, files).groups[g] == OwnGroups(disk, files[i])[g]
    decreases |files|
  {
    hide Joined, OwnGroups;
    if files == [] {
      JoinedNone(disk);
    } else {
      var init, last := files[..|files| - 1], files[|files| - 1];
      assert files == init + [last];
      JoinedGroups(disk, init, g);
      GroupsSnoc(disk, init, last);
      if g !in OwnGroups(disk, last) {
        forall i | LastToDefine(disk, files, g, i) ensures LastToDefine(disk, init, g, i) {
          assert forall j :: i < j < |init| ==> files[j] == init[j];
        }
      }
    }
  }

  /** The groups are those of the files, each as the last of them defines it. */
  ghost predicate LastWins(disk: Disk, files: seq<Path>, groups: map<string, GroupConfig>) {
    && (forall g :: g in groups <==> exists f :: f in files && g in OwnGroups(disk, f))
    && forall g, i :: LastToDefine(disk, files, g, i) ==> g in groups && groups[g] == OwnGroups(disk, files[i])[g]
  }

  lemma LastWinsInJoined(disk: Disk, files: seq<Path>)
    ensures LastWins(disk, files, Joined(disk, files).groups)
  {
    hide Joined, OwnGroups;
    forall g
      ensures g in Joined(disk, files).groups <==> exists f :: f in files && g in OwnGroups(disk, f)
      ensures forall i :: LastToDefine(disk, files, g, i) ==>
        g in Joined(disk, files).groups && Joined(disk, files).groups[g] == OwnGroups(disk, files[i])[g]
    {
      JoinedGroups(disk, files, g);
    }
  }

  lemma {:induction false} JoinedFiles(disk: Disk, files: seq<Path>)
    requires forall f :: f in files ==> Readable(disk, f)
    ensures Joined(disk, files).files == files
    decreases |files|
  {
    if files != [] {
      var init, last := files[..|files| - 1], files[|files| - 1];
      assert files == init + [last];
      JoinedSnoc(disk, init, last);
      JoinedFiles(disk, init);
    }
  }

  lemma {:induction false} UnsharedConcat(disk: Disk, taken: set<string>, a: seq<Path>, b: seq<Path>)
    requires Unshared(disk, taken, a)
    requires Unshared(disk, taken + Joined(disk, a).programs.Keys, b)
    ensures Unshared(disk, taken, a + b)
  {
    JoinedPrograms(disk, a);
    hide Joined, OwnPrograms;
  }

  /** Resolving `items` lays the content of `files` over `acc`, and nothing is defined twice. */
  ghost predicate Joining(disk: Disk, acc: Merged, items: seq<Item>, seen: set<Path>, files: seq<Path>) {
    && Resolve(disk, acc, items, seen).Ok?
    && Resolve(disk, acc, items, seen).value.0 == Merge(acc, Joined(disk, files))
    && Unshared(disk, acc.programs.Keys, files)
    && forall f :: f in files ==> Readable(disk, f)
  }

  lemma {:induction false} ResolvedJoins(disk: Disk, acc: Merged, items: seq<Item>, seen: set<Path>)
    returns (files: seq<Path>)
    requires Resolve(disk, acc, items, seen).Ok?
    ensures Joining(disk, acc, items, seen, files)
    decreases |disk.Keys - seen|, |items|
  {
    hide Items, Resolve, Merge, Alone, Joined, Unshared;
    if items == [] {
      files := [];
      JoiningNothing(disk, acc, seen);
    } else {
      Unfold(disk, acc, items, seen);
      var path := items[0].path;
      var (sub, seen') := Resolve(disk, Alone(disk, path), Items(disk[path].includes), seen + {path}).value;
      var below := ResolvedJoins(disk, Alone(disk, path), Items(disk[path].includes), seen + {path});
      var rest := ResolvedJoins(disk, Merge(acc, sub), items[1..], seen');
      JoiningCons(disk, acc, path, sub, below, rest);
      files := [path] + below + rest;
    }
  }

  lemma {:induction false} JoiningNothing(disk: Disk, acc: Merged, seen: set<Path>)
    ensures Joining(disk, acc, [], seen, [])
  {
    MergeLaws(acc, acc, acc);
  }

  lemma {:induction false} JoiningCons(
    disk: Disk, acc: Merged, path: Path, sub: Merged, below: seq<Path>, rest: seq<Path>)
    requires Readable(disk, path)
    requires sub == Merge(Alone(disk, path), Joined(disk, below))
    requires Unshared(disk, Alone(disk, path).programs.Keys, below)
    requires acc.programs.Keys !! sub.programs.Keys
    requires Unshared(disk, Merge(acc, sub).programs.Keys, rest)
    ensures Merge(Merge(acc, sub), Joined(disk, rest)) == Merge(acc, Joined(disk, [path] + below + rest))
    ensures Unshared(disk, acc.programs.Keys, [path] + below + rest)
  {
    hide Joined, Unshared;
    JoinedOne(disk, path);
    JoinedConcat(disk, [path], below);
    JoinedConcat(disk, [path] + below, rest);
    assert sub == Joined(disk, [path] + below);
    MergeLaws(acc, sub, Joined(disk, rest));
    UnsharedSub(disk, acc.programs.Keys, path, below);
    UnsharedConcat(disk, acc.programs.Keys, [path] + below, rest);
  }

  lemma {:induction false} UnsharedSub(disk: Disk, taken: set<string>, path: Path, below: seq<Path>)
    requires Unshared(disk, OwnPrograms(disk, path).Keys, below)
    requires Joined(disk, [path] + below).programs.Keys !! taken
    ensures Unshared(disk, taken, [path] + below)
  {
    JoinedPrograms(disk, [path] + below);
    hide Joined, OwnPrograms;
    var files := [path] + below;
    forall f | f in files ensures OwnPrograms(disk, f).Keys !! taken {}
    forall i, j | 0 <= i < j < |files| ensures OwnPrograms(disk, files[i]).Keys !! OwnPrograms(disk, files[j]).Keys {
      assert files[j] == below[j - 1] && (i > 0 ==> files[i] == below[i - 1]);
    }
  }

  // ---------------------------------------------------------------------
  // Failure happens only for a reason
  // ---------------------------------------------------------------------

  /** Every file behind `items` is still unseen and defines nothing that is `taken`. */
  ghost predicate AllNew(disk: Disk, items: seq<Item>, seen: set<Path>, taken: set<string>) {
    forall r :: FollowItems(disk, items, r).Some? ==>
      var f := FollowItems(disk, items, r).value;
      f !in seen && OwnPrograms(disk, f).Keys !! taken
  }

  /** Different routes lead to files that define different programs. */
  ghost predicate NothingTwice(disk: Disk, items: seq<Item>) {
    forall r1, r2 :: FollowItems(disk, items, r1).Some? && FollowItems(disk, items, r2).Some? && r1 != r2 ==>
      OwnPrograms(disk, FollowItems(disk, items, r1).value).Keys
      !! OwnPrograms(disk, FollowItems(disk, items, r2).value).Keys
  }

  ghost predicate SoundItems(disk: Disk, items: seq<Item>) {
    AllLoad(disk, items) && OneRouteEach(disk, items) && NothingTwice(disk, items)
  }

  /** What is sound stays sound below the first item, and everything there is new. */
  lemma {:induction false} SoundBelow(disk: Disk, items: seq<Item>, seen: set<Path>, taken: set<string>)
    requires items != [] && items[0].At? && Readable(disk, items[0].path)
    requires SoundItems(disk, items) && AllNew(disk, items, seen, taken)
    ensures var path := items[0].path;
      var inner := Items(disk[path].includes);
      && Loads(disk, path) && path !in seen
      && SoundItems(disk, inner)
      && AllNew(disk, inner, seen + {path}, OwnPrograms(disk, path).Keys)
      && OwnPrograms(disk, path).Keys !! taken && AllNew(disk, inner, {}, taken)
  {
    hide Follow, FollowItems, OwnPrograms;
    var path := items[0].path;
    var inner := Items(disk[path].includes);
    FirstItem(disk, items);
    assert Loads(disk, path);
    forall i | 0 <= i < |inner| ensures inner[i].At? { assert inner[i] in inner; }
    forall r | FollowItems(disk, inner, r).Some?
      ensures FollowItems(disk, items, [0] + r) == FollowItems(disk, inner, r) && [0] + r != [0]
    {
      NonEmpty(disk, inner, r);
      Below(disk, items, r);
    }
    forall r1, r2: seq<nat> | [0] + r1 == [0] + r2 ensures r1 == r2 {
      assert ([0] + r1)[1..] == r1 && ([0] + r2)[1..] == r2;
    }
  }

  lemma {:induction false} SoundBeside(
    disk: Disk, items: seq<Item>, seen: set<Path>, taken: set<string>, below: seq<Path>)
    requires items != [] && items[0].At? && Readable(disk, items[0].path)
    requires SoundItems(disk, items) && AllNew(disk, items, seen, taken)
    requires Reaches(disk, Items(disk[items[0].path].includes), below)
    ensures SoundItems(disk, items[1..])
    ensures AllNew(disk, items[1..], seen + {items[0].path} + Set(below), taken)
    ensures AllNew(disk, items[1..], {}, OwnPrograms(disk, items[0].path).Keys)
    ensures forall f :: f in below ==> AllNew(disk, items[1..], {}, OwnPrograms(disk, f).Keys)
  {
    hide Follow, FollowItems, OwnPrograms;
    var path := items[0].path;
    var inner, others := Items(disk[path].includes), items[1..];
    FirstItem(disk, items);
    forall r | FollowItems(disk, others, r).Some?
      ensures r != [] && FollowItems(disk, items, Shift(r)) == FollowItems(disk, others, r)
    {
      NonEmpty(disk, others, r);
      Beside(disk, items, r);
    }
    forall r1, r2 | r1 != [] && r2 != [] && Shift(r1) == Shift(r2) ensures r1 == r2 {
      ShiftOnce(r1, r2);
    }
    forall f | f in below ensures exists r :: FollowItems(disk, items, [0] + r) == Some(f) {
      var r :| FollowItems(disk, inner, r) == Some(f);
      NonEmpty(disk, inner, r);
      Below(disk, items, r);
    }
  }

  function Shift(r: seq<nat>): (s: seq<nat>)
    requires r != []
    ensures |s| > 0 && s[0] > 0
  {
    [r[0] + 1] + r[1..]
  }

  lemma ShiftOnce(r1: seq<nat>, r2: seq<nat>)
    requires r1 != [] && r2 != [] && Shift(r1) == Shift(r2)
    ensures r1 == r2
  {
    assert r1 == [Shift(r1)[0] - 1] + Shift(r1)[1..];
    assert r2 == [Shift(r2)[0] - 1] + Shift(r2)[1..];
  }

  /** The two accounts of a successful resolution are about the same files. */
  lemma {:induction false} ResolvedBoth(disk: Disk, acc: Merged, items: seq<Item>, seen: set<Path>)
    returns (files: seq<Path>)
    requires Resolve(disk, acc, items, seen).Ok?
    ensures Loading(disk, acc, items, seen, files) && Joining(disk, acc, items, seen, files)
  {
    hide Covers, Items, Resolve, Set, Unshared, Apart, Joined;
    files := ResolvedLoads(disk, acc, items, seen);
    var joined := ResolvedJoins(disk, acc, items, seen);
    JoinedFiles(disk, joined);
    MergeFilesOnly(acc, Joined(disk, joined));
    assert files == (acc.files + files)[|acc.files|..] && joined == (acc.files + joined)[|acc.files|..];
  }

  lemma MergeFilesOnly(a: Merged, b: Merged)
    ensures Merge(a, b).files == a.files + b.files
    ensures Merge(a, b).programs.Keys == a.programs.Keys + b.programs.Keys
  {}

  lemma {:induction false} SoundResolves(disk: Disk, acc: Merged, items: seq<Item>, seen: set<Path>)
    requires SoundItems(disk, items) && AllNew(disk, items, seen, acc.programs.Keys)
    ensures Resolve(disk, acc, items, seen).Ok?
    decreases |disk.Keys - seen|, |items|
  {
    hide Follow, FollowItems, Items, OwnPrograms, Joined, OneRouteEach, NothingTwice, AllNew, Merge, Unshared, Apart,
      Covers;
    if items != [] {
      var path := items[0].path;
      FirstLoads(disk, items);
      var inner := Items(disk[path].includes);
      SoundBelow(disk, items, seen, acc.programs.Keys);
      OwnIsAlone(disk, path);
      FewerLeft(disk, seen, seen + {path});
      SoundResolves(disk, Alone(disk, path), inner, seen + {path});
      var (sub, seen') := Resolve(disk, Alone(disk, path), inner, seen + {path}).value;
      var below := ResolvedBoth(disk, Alone(disk, path), inner, seen + {path});
      CoversReaches(disk, inner, below);
      SoundBeside(disk, items, seen, acc.programs.Keys, below);
      SubIsNew(disk, acc, items, seen', sub, below);
      FewerLeft(disk, seen, seen');
      SoundResolves(disk, Merge(acc, sub), items[1..], seen');
    }
  }

  lemma {:induction false} FirstLoads(disk: Disk, items: seq<Item>)
    requires items != [] && AllLoad(disk, items)
    ensures items[0].At? && Readable(disk, items[0].path)
  {
    FirstItem(disk, items);
    assert Loads(disk, items[0].path);
  }

  lemma OwnIsAlone(disk: Disk, path: Path)
    requires Readable(disk, path)
    ensures OwnPrograms(disk, path) == Alone(disk, path).programs && Alone(disk, path).files == [path]
  {}

  lemma CoversReaches(disk: Disk, items: seq<Item>, files: seq<Path>)
    requires Covers(disk, items, files)
    ensures Reaches(disk, items, files)
  {}

  /** What the first item brings in is new to `acc`, and new to what follows. */
  lemma {:induction false} SubIsNew(
    disk: Disk, acc: Merged, items: seq<Item>, seen: set<Path>, sub: Merged, below: seq<Path>)
    requires items != [] && items[0].At? && Readable(disk, items[0].path)
    requires var path := items[0].path;
      var inner := Items(disk[path].includes);
      && Reaches(disk, inner, below)
      && AllNew(disk, inner, {}, acc.programs.Keys)
      && OwnPrograms(disk, path).Keys !! acc.programs.Keys
      && sub == Merge(Alone(disk, path), Joined(disk, below))
      && AllNew(disk, items[1..], seen, acc.programs.Keys)
      && AllNew(disk, items[1..], {}, OwnPrograms(disk, path).Keys)
      && forall f :: f in below ==> AllNew(disk, items[1..], {}, OwnPrograms(disk, f).Keys)
    ensures sub.programs.Keys !! acc.programs.Keys
    ensures AllNew(disk, items[1..], seen, Merge(acc, sub).programs.Keys)
  {
    hide Follow, FollowItems, Items, OwnPrograms, Joined, Merge, Reaches;
    var path := items[0].path;
    OwnIsAlone(disk, path);
    MergeFilesOnly(Alone(disk, path), Joined(disk, below));
    MergeFilesOnly(acc, sub);
    JoinedPrograms(disk, below);
    forall f | f in below ensures OwnPrograms(disk, f).Keys !! acc.programs.Keys {
      ReachedIsNew(disk, Items(disk[path].includes), below, f, acc.programs.Keys);
    }
  }

  lemma {:induction false} ReachedIsNew(disk: Disk, items: seq<Item>, files: seq<Path>, f: Path, taken: set<string>)
    requires Reaches(disk, items, files) && f in files && AllNew(disk, items, {}, taken)
    ensures OwnPrograms(disk, f).Keys !! taken
  {
    var r :| FollowItems(disk, items, r) == Some(f);
  }

  // ---------------------------------------------------------------------
  // The main file
  // ---------------------------------------------------------------------

  ghost predicate Reachable(disk: Disk, root: Path, f: Path) {
    exists r :: Follow(disk, root, r) == Some(f)
  }

  /** Every file reachable can be read, by one route only, and no two define the same program. */
  ghost predicate Sound(disk: Disk, root: Path) {
    && (forall r :: Follow(disk, root, r).Some? ==> Loads(disk, Follow(disk, root, r).value))
    && (forall r1, r2 ::
          Follow(disk, root, r1).Some? && Follow(disk, root, r1) == Follow(disk, root, r2) ==> r1 == r2)
    && forall r1, r2 :: Follow(disk, root, r1).Some? && Follow(disk, root, r2).Some? && r1 != r2 ==>
        disk[Follow(disk, root, r1).value].programs.Keys !! disk[Follow(disk, root, r2).value].programs.Keys
  }

  /** Loading a tree is resolving the one item that names its root. */
  lemma {:induction false} LoadIsResolve(disk: Disk, root: Path)
    ensures LoadTree(disk, root).Ok? <==> Resolve(disk, NOTHING, [At(root)], {}).Ok?
    ensures LoadTree(disk, root).Ok? ==>
      LoadTree(disk, root).value == Resolve(disk, NOTHING, [At(root)], {}).value.0
  {
    hide Items;
    assert {} + {root} == {root};
    assert [At(root)][1..] == [];
    if LoadTree(disk, root).Ok? { MergeLaws(LoadTree(disk, root).value, NOTHING, NOTHING); }
  }

  lemma {:induction false} FromRoot(disk: Disk, root: Path, r: seq<nat>)
    ensures FollowItems(disk, [At(root)], [0] + r) == Follow(disk, root, r)
    ensures ([0] + r)[1..] == r
    ensures FollowItems(disk, [At(root)], r).Some? ==> r != [] && r == [0] + r[1..]
  {}

  lemma LoadsOwn(disk: Disk, f: Path)
    requires Loads(disk, f)
    ensures Readable(disk, f) && OwnPrograms(disk, f) == disk[f].programs
  {}

  lemma {:induction false} SoundIsSoundItems(disk: Disk, root: Path)
    ensures Sound(disk, root) <==> SoundItems(disk, [At(root)])
  {
    hide Follow, FollowItems, Items, Loads, OwnPrograms;
    var items := [At(root)];
    forall f | Loads(disk, f) ensures f in disk && disk[f].File? && OwnPrograms(disk, f) == disk[f].programs {
      LoadsOwn(disk, f);
    }
    forall r ensures FollowItems(disk, items, [0] + r) == Follow(disk, root, r) && ([0] + r)[1..] == r {
      FromRoot(disk, root, r);
    }
    forall r | FollowItems(disk, items, r).Some? ensures r != [] && r == [0] + r[1..] {
      FromRoot(disk, root, r);
    }
  }

  /**
    A config is accepted exactly if its include graph is a tree of readable
    files with different programs. A file reachable by two routes, a cycle
    through the main file included, is an error; so resolution ends on every
    disk, and fails on none without a reason.
   */
  lemma {:induction false} AcceptedIff(disk: Disk, root: Path)
    ensures LoadTree(disk, root).Ok? <==> Sound(disk, root)
  {
    hide Follow, FollowItems, Items, SoundItems, Sound, Resolve, LoadTree;
    LoadIsResolve(disk, root);
    SoundIsSoundItems(disk, root);
    var items := [At(root)];
    if SoundItems(disk, items) {
      assert AllNew(disk, items, {}, NOTHING.programs.Keys);
      SoundResolves(disk, NOTHING, items, {});
    }
    if Resolve(disk, NOTHING, items, {}).Ok? {
      var files := ResolvedBoth(disk, NOTHING, items, {});
      LoadedIsSound(disk, items, files);
    }
  }

  lemma {:induction false} LoadedIsSound(disk: Disk, items: seq<Item>, files: seq<Path>)
    requires Covers(disk, items, files) && Unshared(disk, {}, files)
    ensures SoundItems(disk, items)
  {
    hide Follow, FollowItems, Items, OwnPrograms, AllLoad;
    forall r1, r2 | FollowItems(disk, items, r1).Some? && FollowItems(disk, items, r2).Some? && r1 != r2
      ensures OwnPrograms(disk, FollowItems(disk, items, r1).value).Keys
        !! OwnPrograms(disk, FollowItems(disk, items, r2).value).Keys
    {
      var f1, f2 := FollowItems(disk, items, r1).value, FollowItems(disk, items, r2).value;
      assert f1 != f2;
      var i :| 0 <= i < |files| && files[i] == f1;
      var j :| 0 <= j < |files| && files[j] == f2;
    }
  }

  /**
    What an accepted config holds: each reachable file once, every program of
    each of them with its own definition and no other, and every group as the
    last of the files defines it. The files are in the order of their routes: a
    file, then what it includes, then what is included after it.
   */
  lemma {:induction false} TreeIsLoaded(disk: Disk, root: Path)
    requires LoadTree(disk, root).Ok?
    ensures var all := LoadTree(disk, root).value;
      && NoRepeat(all.files)
      && (forall f :: f in all.files <==> Reachable(disk, root, f))
      && (forall f :: f in all.files ==> Readable(disk, f))
      && (forall f, name :: f in all.files && name in disk[f].programs ==>
            name in all.programs && all.programs[name] == disk[f].programs[name])
      && (forall name :: name in all.programs ==> exists f :: f in all.files && name in disk[f].programs)
      && (forall i, j, r1, r2 ::
            (0 <= i < j < |all.files| && Follow(disk, root, r1) == Some(all.files[i])
             && Follow(disk, root, r2) == Some(all.files[j])) ==> RouteLess(r1, r2))
      && LastWins(disk, all.files, all.groups)
      && all == Joined(disk, all.files)
  {
    hide Follow, FollowItems, Items, Resolve, LoadTree, Joined, AllLoad, OneRouteEach, Unshared, NoRepeat, Reachable,
      InRouteOrder, RouteLess, LastWins;
    LoadIsResolve(disk, root);
    var items := [At(root)];
    var files := ResolvedBoth(disk, NOTHING, items, {});
    var all := LoadTree(disk, root).value;
    MergeLaws(Joined(disk, files), NOTHING, NOTHING);
    assert [] + files == files && NOTHING.programs.Keys == {};
    JoinedPrograms(disk, files);
    forall f, name | f in files && name in disk[f].programs
      ensures name in all.programs && all.programs[name] == disk[f].programs[name]
    {
      JoinedKeeps(disk, files, f, name);
    }
    LastWinsInJoined(disk, files);
    forall i, j, r1, r2 |
      0 <= i < j < |files| && Follow(disk, root, r1) == Some(files[i]) && Follow(disk, root, r2) == Some(files[j])
      ensures RouteLess(r1, r2)
    {
      FromRoot(disk, root, r1);
      FromRoot(disk, root, r2);
      InOrderAt(disk, items, files, i, j, [0] + r1, [0] + r2);
      SameBeginning(r1, r2);
    }
    forall f ensures f in files <==> Reachable(disk, root, f) {
      ReachedFromRoot(disk, root, files, f);
    }
  }

  lemma SameBeginning(r1: seq<nat>, r2: seq<nat>)
    requires RouteLess([0] + r1, [0] + r2)
    ensures RouteLess(r1, r2)
  {
    assert ([0] + r1)[1..] == r1 && ([0] + r2)[1..] == r2;
  }

  lemma {:induction false} ReachedFromRoot(disk: Disk, root: Path, files: seq<Path>, f: Path)
    requires Reaches(disk, [At(root)], files)
    ensures f in files <==> Reachable(disk, root, f)
  {
    hide Follow, FollowItems;
    var items := [At(root)];
    if f in files {
      var r :| FollowItems(disk, items, r) == Some(f);
      FromRoot(disk, root, r);
      FromRoot(disk, root, r[1..]);
      assert Follow(disk, root, r[1..]) == Some(f);
    }
    if r :| Follow(disk, root, r) == Some(f) {
      FromRoot(disk, root, r);
      assert FollowItems(disk, items, [0] + r) == Some(f);
    }
  }
}
