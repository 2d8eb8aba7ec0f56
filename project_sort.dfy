/** The projects the extension posts to the panel after loading them, and
    the sort by path that orders them first. */
module ProjectSort {
  import opened PathOrder

  /** A `PackageReference` item read from a project file. */
  datatype PackageReference = PackageReference(id: string, version: string)

  /** One discovered project file, as the panel receives it. */
  datatype Project = Project(path: string, projectName: string, packages: seq<PackageReference>)

  /** `x` may come before `y`: the comparator does not put `y` first. */
  predicate InOrder(x: Project, y: Project)
  {
    ComparePaths(x.path, y.path) <= 0
  }

  /** Non-decreasing by path, over every pair of positions. */
  predicate Sorted(s: seq<Project>)
  {
    forall i, j :: 0 <= i < j < |s| ==> InOrder(s[i], s[j])
  }

  lemma InOrderTransitive(x: Project, y: Project, z: Project)
    requires InOrder(x, y) && InOrder(y, z)
    ensures InOrder(x, z)
  {
    CompareConsistent(x.path, y.path, z.path);
  }

  /** Prepending an element that may come before every element keeps a
      sorted sequence sorted. */
  lemma ConsSorted(y: Project, t: seq<Project>)
    requires Sorted(t)
    requires forall z :: z in t ==> InOrder(y, z)
    ensures Sorted([y] + t)
  {
  }

  /** Puts `x` in front of the first element it does not sort after, so
      that it stays ahead of the projects with the same path. */
  function Insert(x: Project, s: seq<Project>): (r: seq<Project>)
    requires Sorted(s)
    ensures Sorted(r)
    ensures multiset(r) == multiset(s) + multiset{x}
    ensures forall y :: y in r ==> y == x || y in s
  {
    if s == [] then [x]
    else if InOrder(x, s[0]) then
      InsertFront(x, s);
      [x] + s
    else
      var rest := Insert(x, s[1..]);
      InsertBehind(x, s, rest);
      [s[0]] + rest
  }

  lemma InsertFront(x: Project, s: seq<Project>)
    requires Sorted(s) && s != [] && InOrder(x, s[0])
    ensures Sorted([x] + s)
  {
    forall z | z in s ensures InOrder(x, z) {
      var j :| 0 <= j < |s| && s[j] == z;
      if j > 0 {
        InOrderTransitive(x, s[0], s[j]);
      }
    }
    ConsSorted(x, s);
  }

  lemma InsertBehind(x: Project, s: seq<Project>, rest: seq<Project>)
    requires Sorted(s) && s != [] && !InOrder(x, s[0])
    requires Sorted(rest)
    requires multiset(rest) == multiset(s[1..]) + multiset{x}
    requires forall y :: y in rest ==> y == x || y in s[1..]
    ensures Sorted([s[0]] + rest)
    ensures multiset([s[0]] + rest) == multiset(s) + multiset{x}
  {
    CompareConsistent(x.path, s[0].path, s[0].path);
    forall z | z in rest ensures InOrder(s[0], z) {
      if z != x {
        var j :| 0 <= j < |s[1..]| && s[1..][j] == z;
        assert s[j + 1] == z;
      }
    }
    ConsSorted(s[0], rest);
    assert s == [s[0]] + s[1..];
  }

  /** The order the projects are posted in: sorted by path, a permutation
      of those discovered (see also `SortByPathStable`). */
  function SortByPath(s: seq<Project>): (r: seq<Project>)
    ensures Sorted(r)
    ensures multiset(r) == multiset(s)
    ensures |r| == |s|
  {
    if s == [] then []
    else
      assert s == [s[0]] + s[1..];
      Insert(s[0], SortByPath(s[1..]))
  }

  /** The projects of `s` whose path is `p`, in the order of `s`. */
  function WithPath(s: seq<Project>, p: string): seq<Project>
  {
    if s == [] then []
    else (if s[0].path == p then [s[0]] else []) + WithPath(s[1..], p)
  }

  lemma {:induction false} InsertWithPath(x: Project, s: seq<Project>, p: string)
    requires Sorted(s)
    ensures WithPath(Insert(x, s), p) == if x.path == p then [x] + WithPath(s, p) else WithPath(s, p)
  {
    if s != [] && !InOrder(x, s[0]) {
      InsertWithPath(x, s[1..], p);
      assert s[0].path != x.path;
      var r := Insert(x, s);
      assert r[0] == s[0] && r[1..] == Insert(x, s[1..]);
    }
  }

  /** The sort is stable, as `Array.prototype.sort` is: the projects that
      share a path come out in the order in which they were discovered. */
  lemma {:induction false} SortByPathStable(s: seq<Project>, p: string)
    ensures WithPath(SortByPath(s), p) == WithPath(s, p)
  {
    if s != [] {
      SortByPathStable(s[1..], p);
      InsertWithPath(s[0], SortByPath(s[1..]), p);
    }
  }
}
