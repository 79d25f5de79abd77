/** sortByPriority in internal/process/manager.go: the order of every ordered action. */
module Ordering {

  /** String comparison: the first difference decides, and a prefix comes first. */
  predicate NameLess(a: string, b: string) {
    b != "" && (a == "" || a[0] < b[0] || (a[0] == b[0] && NameLess(a[1..], b[1..])))
  }

  lemma {:induction false} NameLessIrreflexive(a: string)
    ensures !NameLess(a, a)
  {
    if a != "" { NameLessIrreflexive(a[1..]); }
  }

  lemma {:induction false} NameLessTotal(a: string, b: string)
    ensures NameLess(a, b) ==> !NameLess(b, a)
    ensures NameLess(a, b) || NameLess(b, a) || a == b
  {
    if a != "" && b != "" {
      NameLessTotal(a[1..], b[1..]);
      if a[0] == b[0] && a[1..] == b[1..] { assert a == [a[0]] + a[1..] && b == [b[0]] + b[1..]; }
    }
  }

  lemma {:induction false} NameLessTransitive(a: string, b: string, c: string)
    requires NameLess(a, b) && NameLess(b, c)
    ensures NameLess(a, c)
  {
    if a != "" && a[0] == b[0] == c[0] { NameLessTransitive(a[1..], b[1..], c[1..]); }
  }

  /** One name comes before another: it is a beginning of it, or smaller at the first place where they differ. */
  ghost predicate Alphabetical(a: string, b: string) {
    exists k: nat :: DiffersFirstAt(a, b, k)
  }

  ghost predicate DiffersFirstAt(a: string, b: string, k: nat) {
    k <= |a| && k < |b| && a[..k] == b[..k] && (k == |a| || a[k] < b[k])
  }

  lemma NotAt(a: string, b: string, k: nat)
    requires b == "" || (a != "" && a[0] > b[0])
    ensures !DiffersFirstAt(a, b, k)
  {
    if 0 < k <= |a| && k < |b| { assert a[..k][0] == a[0] && b[..k][0] == b[0]; }
  }

  lemma {:induction false} NameLessMeans(a: string, b: string)
    ensures NameLess(a, b) <==> Alphabetical(a, b)
  {
    if a != "" && b != "" && a[0] == b[0] {
      NameLessMeans(a[1..], b[1..]);
      if Alphabetical(a[1..], b[1..]) {
        var k: nat :| DiffersFirstAt(a[1..], b[1..], k);
        assert a[..k + 1] == [a[0]] + a[1..][..k] && b[..k + 1] == [b[0]] + b[1..][..k];
        assert DiffersFirstAt(a, b, k + 1);
      }
      if Alphabetical(a, b) {
        var k: nat :| DiffersFirstAt(a, b, k);
        assert a[1..][..k - 1] == a[..k][1..] && b[1..][..k - 1] == b[..k][1..];
        assert DiffersFirstAt(a[1..], b[1..], k - 1);
      }
    } else if b != "" && (a == "" || a[0] < b[0]) {
      assert DiffersFirstAt(a, b, 0);
    } else {
      forall k: nat ensures !DiffersFirstAt(a, b, k) { NotAt(a, b, k); }
    }
  }

  /**
    What a process is ordered by: the priority of its [groups] table, or its
    own if it is in none; then its own priority; then its name.
   */
  datatype Key = Key(group: int, own: int, name: string)

  predicate Less(a: Key, b: Key) {
    if a.group != b.group then a.group < b.group
    else if a.own != b.own then a.own < b.own
    else NameLess(a.name, b.name)
  }

  /** The comparison given to sort.Slice: descending reverses all three parts. */
  predicate Before(a: Key, b: Key, ascending: bool) {
    if ascending then Less(a, b) else !Less(a, b) && a != b
  }

  lemma LessTotal(a: Key, b: Key)
    ensures !Less(a, a)
    ensures Less(a, b) ==> !Less(b, a)
    ensures Less(a, b) || Less(b, a) || a == b
  {
    NameLessTotal(a.name, b.name);
    NameLessIrreflexive(a.name);
  }

  lemma LessTransitive(a: Key, b: Key, c: Key)
    requires Less(a, b) && Less(b, c)
    ensures Less(a, c)
  {
    if a.group == b.group == c.group && a.own == b.own == c.own {
      NameLessTransitive(a.name, b.name, c.name);
    }
  }

  /** What sort.Slice leaves: no element comes before an earlier one. */
  predicate InOrder(s: seq<Key>, ascending: bool) {
    forall i, j :: 0 <= i < j < |s| ==> !Before(s[j], s[i], ascending)
  }

  predicate Distinct<T(==)>(s: seq<T>) {
    forall i, j :: 0 <= i < j < |s| ==> s[i] != s[j]
  }

  /** The same elements, each once, in whatever order. */
  ghost predicate Rearranged<T(!new)>(a: seq<T>, b: seq<T>) {
    Distinct(a) && Distinct(b) && forall x :: x in a <==> x in b
  }

  function Reversed<T>(s: seq<T>): (r: seq<T>)
    ensures |r| == |s| && forall i :: 0 <= i < |s| ==> r[i] == s[|s| - 1 - i]
  {
    seq(|s|, i requires 0 <= i < |s| => s[|s| - 1 - i])
  }

  function Elements<T>(s: seq<T>): set<T> {
    set x | x in s
  }

  predicate Ascending(s: seq<Key>) {
    forall i, j :: 0 <= i < j < |s| ==> Less(s[i], s[j])
  }

  lemma InOrderMeans(s: seq<Key>, ascending: bool)
    requires Distinct(s) && InOrder(s, ascending)
    ensures Ascending(if ascending then s else Reversed(s))
  {
    var r := if ascending then s else Reversed(s);
    forall i, j | 0 <= i < j < |r| ensures Less(r[i], r[j]) {
      LessTotal(r[i], r[j]);
      if !ascending { assert s[|s| - 1 - j] != s[|s| - 1 - i]; }
    }
  }

  /** Only one ascending sequence has given elements. */
  lemma {:induction false} AscendingIsUnique(a: seq<Key>, b: seq<Key>)
    requires Ascending(a) && Ascending(b)
    requires forall k :: k in a <==> k in b
    ensures a == b
  {
    assert b != [] ==> b[0] in b;
    if a != [] {
      assert a[0] in b;
      assert b[0] in a;
      LessTotal(a[0], b[0]);
      forall k ensures k in a[1..] <==> k in b[1..] {
        LessTotal(k, k);
        if k in a[1..] { assert k in a && Less(a[0], k); assert k in b; }
        if k in b[1..] { assert k in b && Less(b[0], k); assert k in a; }
      }
      AscendingIsUnique(a[1..], b[1..]);
    }
  }

  /**
    For differently named processes the stop order is the exact reverse of the
    start order, in whatever order the map yields them to the two sorts and
    however each sort treats elements it may exchange.
   */
  lemma StopOrderReversesStartOrder(up: seq<Key>, down: seq<Key>, listed: seq<Key>, relisted: seq<Key>)
    requires Rearranged(listed, relisted)
    requires Rearranged(up, listed) && InOrder(up, true)
    requires Rearranged(down, relisted) && InOrder(down, false)
    ensures down == Reversed(up)
  {
    InOrderMeans(up, true);
    InOrderMeans(down, false);
    var flipped := Reversed(down);
    forall k ensures k in up <==> k in flipped {
      if k in up {
        assert k in down;
        var i :| 0 <= i < |down| && down[i] == k;
        assert flipped[|down| - 1 - i] == k;
      }
      if k in flipped { assert k in down; }
    }
    AscendingIsUnique(up, flipped);
  }

  // ---------------------------------------------------------------------
  // A sort
  // ---------------------------------------------------------------------

  /** One insertion into an ordered sequence. */
  method Insert(s: seq<Key>, k: Key, ascending: bool) returns (r: seq<Key>)
    requires Distinct(s) && k !in s && InOrder(s, ascending)
    ensures Rearranged(r, s + [k]) && InOrder(r, ascending)
  {
    var i := 0;
    while i < |s| && Before(s[i], k, ascending)
      invariant 0 <= i <= |s|
      invariant forall j :: 0 <= j < i ==> Before(s[j], k, ascending)
    {
      i := i + 1;
    }
    r := s[..i] + [k] + s[i..];
    InsertedInOrder(s, k, i, ascending);
    assert s == s[..i] + s[i..];
  }

  lemma BeforeIsStrict(a: Key, b: Key, ascending: bool)
    ensures Before(a, b, ascending) ==> !Before(b, a, ascending)
    ensures Before(a, b, ascending) || Before(b, a, ascending) || a == b
  {
    LessTotal(a, b);
  }

  lemma NotBeforeTransitive(a: Key, b: Key, c: Key, ascending: bool)
    requires !Before(b, a, ascending) && !Before(c, b, ascending)
    ensures !Before(c, a, ascending)
  {
    LessTotal(a, b);
    LessTotal(b, c);
    LessTotal(a, c);
    if Less(a, b) && Less(b, c) { LessTransitive(a, b, c); }
    if Less(c, b) && Less(b, a) { LessTransitive(c, b, a); }
  }

  lemma InsertedInOrder(s: seq<Key>, k: Key, i: nat, ascending: bool)
    requires InOrder(s, ascending) && i <= |s|
    requires forall j :: 0 <= j < i ==> Before(s[j], k, ascending)
    requires i < |s| ==> !Before(s[i], k, ascending)
    ensures InOrder(s[..i] + [k] + s[i..], ascending)
  {
    hide Before;
    var r := s[..i] + [k] + s[i..];
    forall a, b | 0 <= a < b < |r| ensures !Before(r[b], r[a], ascending) {
      if b < i {
      } else if b == i {
        BeforeIsStrict(s[a], k, ascending);
      } else if a == i {
        if b - 1 > i { NotBeforeTransitive(k, s[i], s[b - 1], ascending); }
      } else {
        assert r[b] == s[b - 1];
      }
    }
  }

  /** sortByPriority. */
  method SortByPriority(listed: seq<Key>, ascending: bool) returns (sorted: seq<Key>)
    requires Distinct(listed)
    ensures Rearranged(sorted, listed) && InOrder(sorted, ascending)
  {
    sorted := [];
    for i := 0 to |listed|
      invariant Rearranged(sorted, listed[..i]) && InOrder(sorted, ascending)
    {
      assert listed[..i + 1] == listed[..i] + [listed[i]];
      sorted := Insert(sorted, listed[i], ascending);
    }
    assert listed[..|listed|] == listed;
  }

  /** Names only: every process has the same priorities. */
  function NameKey(name: string): Key {
    Key(0, 0, name)
  }

  predicate NamesAscending(names: seq<string>) {
    forall i, j :: 0 <= i < j < |names| ==> NameLess(names[i], names[j])
  }

  /** sort.Strings on differing names. */
  method SortNames(names: set<string>) returns (sorted: seq<string>)
    ensures NamesAscending(sorted)
    ensures forall n :: n in sorted <==> n in names
    ensures Distinct(sorted)
  {
    var keys: seq<Key> := [];
    var todo := names;
    while todo != {}
      invariant todo <= names
      invariant Distinct(keys) && InOrder(keys, true)
      invariant forall k :: k in keys ==> k == NameKey(k.name)
      invariant forall n :: NameKey(n) in keys <==> n in names - todo
      decreases |todo|
    {
      var n :| n in todo;
      keys := Insert(keys, NameKey(n), true);
      todo := todo - {n};
    }
    InOrderMeans(keys, true);
    sorted := seq(|keys|, i requires 0 <= i < |keys| => keys[i].name);
    forall n ensures n in sorted <==> n in names {
      if n in names {
        var i :| 0 <= i < |keys| && keys[i] == NameKey(n);
        assert sorted[i] == n;
      }
      if n in sorted {
        var i :| 0 <= i < |sorted| && sorted[i] == n;
        assert keys[i] in keys;
      }
    }
    forall i, j | 0 <= i < j < |sorted| ensures NameLess(sorted[i], sorted[j]) && sorted[i] != sorted[j] {
      assert Less(keys[i], keys[j]) && keys[i] in keys && keys[j] in keys;
      NameLessIrreflexive(sorted[i]);
    }
  }
}
