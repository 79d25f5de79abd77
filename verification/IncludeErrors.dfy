/** What the errors of include resolution say: each one names a fault that is there. */
module IncludeErrors {
  import opened Basics
  import opened Includes
  import opened IncludeMeaning

  /** The file is where the route leads. */
  predicate LeadsTo(disk: Disk, items: seq<Item>, r: seq<nat>, path: Path) {
    FollowItems(disk, items, r) == Some(path)
  }

  predicate DefinedAt(disk: Disk, items: seq<Item>, r: seq<nat>, name: string) {
    FollowItems(disk, items, r).Some? && name in OwnPrograms(disk, FollowItems(disk, items, r).value)
  }

  /** The file at `r`, or one below it, defines a program that is there already or that another file defines. */
  ghost predicate DefinedTwice(
    disk: Disk, items: seq<Item>, taken: set<string>, r: seq<nat>, below: seq<nat>, name: string)
  {
    && DefinedAt(disk, items, r + below, name)
    && (name in taken || exists other :: other != r + below && DefinedAt(disk, items, other, name))
  }

  /** A pattern of the directive itself, or of a file a route leads to, is malformed. */
  ghost predicate BadSomewhere(disk: Disk, items: seq<Item>) {
    || Bad in items
    || exists r, path :: LeadsTo(disk, items, r, path) && Readable(disk, path) && Bad in Items(disk[path].includes)
  }

  ghost predicate TwoRoutes(disk: Disk, items: seq<Item>, path: Path, r1: seq<nat>, r2: seq<nat>) {
    r1 != r2 && LeadsTo(disk, items, r1, path) && LeadsTo(disk, items, r2, path)
  }

  /** The fault an error names, in what the items lead to. */
  ghost predicate Reason(disk: Disk, items: seq<Item>, seen: set<Path>, taken: set<string>, e: IncludeError) {
    match e
    case Malformed => BadSomewhere(disk, items)
    case LoadFailed(path) => !Readable(disk, path) && exists r :: LeadsTo(disk, items, r, path)
    case Circular(path) =>
      || (path in seen && exists r :: LeadsTo(disk, items, r, path))
      || exists r1, r2 :: TwoRoutes(disk, items, path, r1, r2)
    case Duplicate(path) =>
      exists r, below, name :: LeadsTo(disk, items, r, path) && DefinedTwice(disk, items, taken, r, below, name)
  }

  // ---------------------------------------------------------------------
  // A fault below the first item, or beside it
  // ---------------------------------------------------------------------

  function Deeper(r: seq<nat>): seq<nat> {
    [0] + r
  }

  function Further(r: seq<nat>): seq<nat>
    requires r != []
  {
    [r[0] + 1] + r[1..]
  }

  lemma {:induction false} DeeperLeads(disk: Disk, items: seq<Item>, r: seq<nat>)
    requires items != [] && items[0].At? && Readable(disk, items[0].path)
    requires FollowItems(disk, Items(disk[items[0].path].includes), r).Some?
    ensures r != [] && FollowItems(disk, items, Deeper(r)) == FollowItems(disk, Items(disk[items[0].path].includes), r)
  {
    hide FollowItems;
    NonEmpty(disk, Items(disk[items[0].path].includes), r);
    Below(disk, items, r);
  }

  lemma {:induction false} FurtherLeads(disk: Disk, items: seq<Item>, r: seq<nat>)
    requires items != [] && FollowItems(disk, items[1..], r).Some?
    ensures r != [] && FollowItems(disk, items, Further(r)) == FollowItems(disk, items[1..], r)
  {
    hide FollowItems;
    NonEmpty(disk, items[1..], r);
    Beside(disk, items, r);
  }

  lemma {:induction false} ReasonBelow(
    disk: Disk, items: seq<Item>, seen: set<Path>, taken: set<string>, e: IncludeError)
    requires items != [] && items[0].At? && Readable(disk, items[0].path)
    requires var path := items[0].path;
      Reason(disk, Items(disk[path].includes), seen + {path}, OwnPrograms(disk, path).Keys, e)
    ensures Reason(disk, items, seen, taken, e)
  {
    hide FollowItems, Items, OwnPrograms;
    var path := items[0].path;
    var inner := Items(disk[path].includes);
    FirstItem(disk, items);
    forall r | FollowItems(disk, inner, r).Some?
      ensures r != [] && FollowItems(disk, items, Deeper(r)) == FollowItems(disk, inner, r)
    {
      DeeperLeads(disk, items, r);
    }
    match e
    case Malformed =>
      if Bad in inner {
        assert LeadsTo(disk, items, [0], path);
      } else {
        var r, p :| LeadsTo(disk, inner, r, p) && Readable(disk, p) && Bad in Items(disk[p].includes);
        assert LeadsTo(disk, items, Deeper(r), p);
      }
    case LoadFailed(p) =>
      var r :| LeadsTo(disk, inner, r, p);
      assert LeadsTo(disk, items, Deeper(r), p);
    case Circular(p) =>
      if r1, r2 :| TwoRoutes(disk, inner, p, r1, r2) {
        assert Deeper(r1)[1..] == r1 && Deeper(r2)[1..] == r2;
        assert TwoRoutes(disk, items, p, Deeper(r1), Deeper(r2));
      } else {
        var r :| LeadsTo(disk, inner, r, p);
        assert LeadsTo(disk, items, Deeper(r), p);
        if p == path { assert TwoRoutes(disk, items, p, [0], Deeper(r)); }
      }
    case Duplicate(p) =>
      var r, below, name :| LeadsTo(disk, inner, r, p)
        && DefinedTwice(disk, inner, OwnPrograms(disk, path).Keys, r, below, name);
      assert Deeper(r) + below == Deeper(r + below) && Deeper(r + below)[1..] == r + below;
      if name in OwnPrograms(disk, path) {
        assert DefinedAt(disk, items, [0], name);
      } else {
        var other :| other != r + below && DefinedAt(disk, inner, other, name);
        assert Deeper(other)[1..] == other && DefinedAt(disk, items, Deeper(other), name);
      }
      assert DefinedTwice(disk, items, taken, Deeper(r), below, name);
  }

  /** `files` are what lies below the first item. */
  lemma {:induction false} ReasonBeside(
    disk: Disk, items: seq<Item>, seen: set<Path>, taken: set<string>, files: seq<Path>, more: set<string>,
    e: IncludeError)
    requires items != [] && items[0].At? && Readable(disk, items[0].path)
    requires Reaches(disk, Items(disk[items[0].path].includes), files)
    requires forall name :: name in more ==>
      name in taken || name in OwnPrograms(disk, items[0].path) || Defined(disk, files, name)
    requires Reason(disk, items[1..], seen + {items[0].path} + Set(files), more, e)
    ensures Reason(disk, items, seen, taken, e)
  {
    hide FollowItems, Items, OwnPrograms;
    var path := items[0].path;
    var inner := Items(disk[path].includes);
    FirstItem(disk, items);
    forall r | FollowItems(disk, items[1..], r).Some?
      ensures r != [] && FollowItems(disk, items, Further(r)) == FollowItems(disk, items[1..], r)
    {
      FurtherLeads(disk, items, r);
    }
    match e
    case Malformed =>
      if Bad in items[1..] {
        assert Bad in items;
      } else {
        var r, p :| LeadsTo(disk, items[1..], r, p) && Readable(disk, p) && Bad in Items(disk[p].includes);
        assert LeadsTo(disk, items, Further(r), p);
      }
    case LoadFailed(p) =>
      var r :| LeadsTo(disk, items[1..], r, p);
      assert LeadsTo(disk, items, Further(r), p);
    case Circular(p) =>
      if r1, r2 :| TwoRoutes(disk, items[1..], p, r1, r2) {
        Apart2(r1, r2);
        assert TwoRoutes(disk, items, p, Further(r1), Further(r2));
      } else {
        var r :| LeadsTo(disk, items[1..], r, p);
        assert LeadsTo(disk, items, Further(r), p);
        assert Further(r)[0] > 0;
        if p == path {
          assert LeadsTo(disk, items, [0], p);
          assert TwoRoutes(disk, items, p, [0], Further(r));
        } else if p in Set(files) {
          var b := RouteBelow(disk, items, files, p);
          assert TwoRoutes(disk, items, p, b, Further(r));
        }
      }
    case Duplicate(p) =>
      var r, below, name :| LeadsTo(disk, items[1..], r, p) && DefinedTwice(disk, items[1..], more, r, below, name);
      assert FollowItems(disk, items[1..], r).Some? && FollowItems(disk, items[1..], r + below).Some?;
      assert Further(r) + below == Further(r + below) && Further(r + below)[0] > 0;
      assert LeadsTo(disk, items, Further(r), p) && DefinedAt(disk, items, Further(r) + below, name);
      if name in more && name !in taken {
        if name in OwnPrograms(disk, path) {
          assert DefinedAt(disk, items, [0], name);
        } else {
          var f :| f in files && name in OwnPrograms(disk, f);
          var b := RouteBelow(disk, items, files, f);
          assert DefinedAt(disk, items, b, name);
        }
      } else if name !in taken {
        var other :| other != r + below && DefinedAt(disk, items[1..], other, name);
        assert other != [] && DefinedAt(disk, items, Further(other), name);
        Apart2(other, r + below);
        assert Further(other) != Further(r) + below;
      }
      assert DefinedTwice(disk, items, taken, Further(r), below, name);
  }

  lemma Apart2(r1: seq<nat>, r2: seq<nat>)
    requires r1 != [] && r2 != [] && r1 != r2
    ensures Further(r1) != Further(r2)
  {
    assert r1 == [Further(r1)[0] - 1] + Further(r1)[1..] && r2 == [Further(r2)[0] - 1] + Further(r2)[1..];
  }

  lemma {:induction false} RouteBelow(disk: Disk, items: seq<Item>, files: seq<Path>, p: Path) returns (b: seq<nat>)
    requires items != [] && items[0].At? && Readable(disk, items[0].path)
    requires Reaches(disk, Items(disk[items[0].path].includes), files) && p in files
    ensures |b| > 1 && b[0] == 0 && LeadsTo(disk, items, b, p)
  {
    hide FollowItems, Items;
    var r :| FollowItems(disk, Items(disk[items[0].path].includes), r) == Some(p);
    DeeperLeads(disk, items, r);
    b := Deeper(r);
  }

  // ---------------------------------------------------------------------
  // Every error
  // ---------------------------------------------------------------------

  lemma {:induction false} ErrorHasReason(disk: Disk, acc: Merged, items: seq<Item>, seen: set<Path>)
    requires Resolve(disk, acc, items, seen).Err?
    ensures Reason(disk, items, seen, acc.programs.Keys, Resolve(disk, acc, items, seen).error)
    decreases |disk.Keys - seen|, |items|
  {
    hide Items, Reason, Merge, Alone, FollowItems;
    if items[0].Bad? {
      BadFirst(disk, items, seen, acc.programs.Keys);
    } else {
      var path := items[0].path;
      if path in seen || !Readable(disk, path) {
        FirstFails(disk, items, seen, acc.programs.Keys);
      } else {
        FewerLeft(disk, seen, seen + {path});
        var inner := Items(disk[path].includes);
        var below := Resolve(disk, Alone(disk, path), inner, seen + {path});
        if below.Err? {
          ErrorHasReason(disk, Alone(disk, path), inner, seen + {path});
          OwnIsAlone(disk, path);
          ReasonBelow(disk, items, seen, acc.programs.Keys, below.error);
        } else {
          ErrorAfterFirst(disk, acc, items, seen);
        }
      }
    }
  }

  lemma BadFirst(disk: Disk, items: seq<Item>, seen: set<Path>, taken: set<string>)
    requires items != [] && items[0].Bad?
    ensures Reason(disk, items, seen, taken, Malformed)
  {
    assert items[0] in items;
  }

  lemma FirstFails(disk: Disk, items: seq<Item>, seen: set<Path>, taken: set<string>)
    requires items != [] && items[0].At?
    ensures items[0].path in seen ==> Reason(disk, items, seen, taken, Circular(items[0].path))
    ensures !Readable(disk, items[0].path) ==> Reason(disk, items, seen, taken, LoadFailed(items[0].path))
  {
    FirstItem(disk, items);
    assert LeadsTo(disk, items, [0], items[0].path);
  }

  /** The first item loads, but cannot be merged, or something after it fails. */
  lemma {:induction false} ErrorAfterFirst(disk: Disk, acc: Merged, items: seq<Item>, seen: set<Path>)
    requires items != [] && items[0].At? && items[0].path !in seen && Readable(disk, items[0].path)
    requires Resolve(disk, Alone(disk, items[0].path), Items(disk[items[0].path].includes), seen + {items[0].path}).Ok?
    requires Resolve(disk, acc, items, seen).Err?
    ensures Reason(disk, items, seen, acc.programs.Keys, Resolve(disk, acc, items, seen).error)
    decreases |disk.Keys - seen|, |items|, 0
  {
    hide Items, Reason, Merge, Alone, FollowItems, Covers, Unshared, Joined;
    var path := items[0].path;
    var inner := Items(disk[path].includes);
    var (sub, seen') := Resolve(disk, Alone(disk, path), inner, seen + {path}).value;
    var files := ResolvedBoth(disk, Alone(disk, path), inner, seen + {path});
    CoversReaches(disk, inner, files);
    OwnIsAlone(disk, path);
    JoinedPrograms(disk, files);
    MergeFilesOnly(Alone(disk, path), Joined(disk, files));
    if sub.programs.Keys !! acc.programs.Keys {
      var rest := Merge(acc, sub);
      MergeFilesOnly(acc, sub);
      FewerLeft(disk, seen, seen');
      assert Resolve(disk, rest, items[1..], seen') == Resolve(disk, acc, items, seen);
      ErrorHasReason(disk, rest, items[1..], seen');
      ReasonBeside(disk, items, seen, acc.programs.Keys, files, rest.programs.Keys,
                   Resolve(disk, acc, items, seen).error);
    } else {
      var name :| name in sub.programs && name in acc.programs;
      SharedName(disk, items, seen, acc.programs.Keys, files, name);
    }
  }

  lemma {:induction false} SharedName(
    disk: Disk, items: seq<Item>, seen: set<Path>, taken: set<string>, files: seq<Path>, name: string)
    requires items != [] && items[0].At? && Readable(disk, items[0].path)
    requires Reaches(disk, Items(disk[items[0].path].includes), files) && name in taken
    requires name in OwnPrograms(disk, items[0].path) || Defined(disk, files, name)
    ensures Reason(disk, items, seen, taken, Duplicate(items[0].path))
  {
    hide FollowItems, Items, OwnPrograms;
    var path := items[0].path;
    FirstItem(disk, items);
    assert LeadsTo(disk, items, [0], path);
    if name in OwnPrograms(disk, path) {
      assert [0] + [] == [0];
      assert DefinedTwice(disk, items, taken, [0], [], name);
    } else {
      var f :| f in files && name in OwnPrograms(disk, f);
      var b := RouteBelow(disk, items, files, f);
      assert [0] + b[1..] == b;
      assert DefinedTwice(disk, items, taken, [0], b[1..], name);
    }
  }

  lemma {:induction false} LoadErrorIsResolve(disk: Disk, root: Path)
    requires LoadTree(disk, root).Err?
    ensures Resolve(disk, NOTHING, [At(root)], {}) == Err(LoadTree(disk, root).error)
  {
    hide Items, Merge, Alone;
    assert {} + {root} == {root};
    assert LoadOne(disk, NOTHING, root, {}) == Err(LoadTree(disk, root).error);
    assert [At(root)][0].path == root;
  }

  /**
    An error of loading a config names a fault of its include tree: a malformed
    pattern; a file that cannot be loaded; a file that two routes lead to; a
    file that defines, itself or through an include, a program another file
    defines as well.
   */
  lemma {:induction false} LoadErrorHasReason(disk: Disk, root: Path)
    requires LoadTree(disk, root).Err?
    ensures Reason(disk, [At(root)], {}, {}, LoadTree(disk, root).error)
  {
    hide Items, Reason;
    LoadErrorIsResolve(disk, root);
    assert NOTHING.programs.Keys == {};
    ErrorHasReason(disk, NOTHING, [At(root)], {});
  }
}
