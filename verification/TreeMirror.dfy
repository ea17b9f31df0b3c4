/** Making one directory tree an exact copy of another. */
module TreeMirror {
  import opened Text
  import Sorting

  /** The parts of a path below a root, never none. */
  type Path = seq<string>

  datatype Node = Dir | File(content: string)

  type Tree = map<Path, Node>

  predicate Under(p: Path, q: Path) { p <= q }

  /** Every path has a name, and its parents are directories of the tree. */
  predicate WellFormed(t: Tree) {
    forall p :: p in t ==> p != [] && (|p| > 1 ==> p[..|p| - 1] in t && t[p[..|p| - 1]].Dir?)
  }

  // ---------- The order of paths ----------

  predicate TextLess(a: string, b: string) {
    if a == "" || b == "" then a == "" && b != ""
    else a[0] < b[0] || (a[0] == b[0] && TextLess(a[1..], b[1..]))
  }

  predicate PathLess(p: Path, q: Path) {
    if p == [] || q == [] then p == [] && q != []
    else TextLess(p[0], q[0]) || (p[0] == q[0] && PathLess(p[1..], q[1..]))
  }

  lemma {:induction false} TextOrder(a: string, b: string)
    ensures TextLess(a, b) || TextLess(b, a) || a == b
    ensures !(TextLess(a, b) && TextLess(b, a)) && !TextLess(a, a)
    decreases |a| + |b|
  {
    if a != "" { TextOrder(a[1..], if b != "" then b[1..] else ""); }
    if a != "" && b != "" {
      assert a == [a[0]] + a[1..] && b == [b[0]] + b[1..];
    }
  }

  lemma {:induction false} TextThen(a: string, b: string, c: string)
    requires TextLess(a, b) && TextLess(b, c)
    ensures TextLess(a, c)
  {
    if a != "" && a[0] == b[0] == c[0] { TextThen(a[1..], b[1..], c[1..]); }
  }

  lemma {:induction false} PathOrder(p: Path, q: Path)
    ensures PathLess(p, q) || PathLess(q, p) || p == q
    ensures !(PathLess(p, q) && PathLess(q, p)) && !PathLess(p, p)
    decreases |p| + |q|
  {
    hide TextLess;
    if p != [] {
      TextOrder(p[0], p[0]);
      PathOrder(p[1..], if q != [] then q[1..] else []);
    }
    if p != [] && q != [] {
      TextOrder(p[0], q[0]);
      assert p == [p[0]] + p[1..] && q == [q[0]] + q[1..];
    }
  }

  lemma {:induction false} PathThen(p: Path, q: Path, r: Path)
    requires PathLess(p, q) && PathLess(q, r)
    ensures PathLess(p, r)
  {
    hide TextLess;
    if p != [] {
      if TextLess(p[0], q[0]) && TextLess(q[0], r[0]) {
        TextThen(p[0], q[0], r[0]);
      } else if p[0] == q[0] == r[0] {
        PathThen(p[1..], q[1..], r[1..]);
      }
    }
  }

  /** A directory sorts before all that is in it. */
  lemma {:induction false} ParentLess(p: Path, q: Path)
    requires p <= q && p != q
    ensures PathLess(p, q)
  {
    if p != [] { ParentLess(p[1..], q[1..]); }
  }

  predicate NotBelow(p: Path, q: Path) { !PathLess(p, q) }

  /** `sorted(ps, reverse=True)` */
  function SortDown(ps: seq<Path>): seq<Path> { Sorting.Sort(ps, NotBelow) }

  predicate Descending(ps: seq<Path>) { Sorting.Sorted(ps, NotBelow) }

  lemma PathsOrdered()
    ensures Sorting.Orders(NotBelow)
  {
    hide PathLess;
    forall p, q
      ensures NotBelow(p, q) || NotBelow(q, p)
    {
      PathOrder(p, q);
    }
    forall p, q, r | NotBelow(p, q) && NotBelow(q, r)
      ensures NotBelow(p, r)
    {
      PathOrder(p, q);
      PathOrder(q, r);
      if PathLess(p, r) {
        if q != r { PathThen(p, r, q); }
      }
    }
  }

  // ---------- File operations ----------

  function Parent(p: Path): Path
    requires p != []
  {
    p[..|p| - 1]
  }

  /** `mkdir(parents=True, exist_ok=True)`; `None` when a file is in the way */
  function MakeDirs(t: Tree, p: Path): (u: Option<Tree>)
    decreases |p|
  {
    if p == [] then Some(t)
    else if p in t then (if t[p].Dir? then Some(t) else None)
    else
      var u := MakeDirs(t, Parent(p));
      if u.None? then None else Some(u.value[p := Dir])
  }

  /** `shutil.copy2` of a file with the same name: onto a directory means into it. */
  function Copy(t: Tree, p: Path, content: string): Option<Tree>
    requires p != []
  {
    if p !in t || t[p].File? then Some(t[p := File(content)])
    else
      var q := p + [p[|p| - 1]];
      if q in t && t[q].Dir? then None else Some(t[q := File(content)])
  }

  /** What the copying loop does for one path of the source. */
  function Place(t: Tree, p: Path, n: Node): Option<Tree>
    requires p != []
  {
    match n
    case Dir => MakeDirs(t, p)
    case File(content) =>
      var u := MakeDirs(t, Parent(p));
      if u.None? then None else Copy(u.value, p, content)
  }

  /** `unlink`, or `rmtree`: the path and all below it */
  function Without(t: Tree, p: Path): Tree { map q | q in t && !Under(p, q) :: t[q] }

  /** The paths of a tree in the order in which it is walked, whatever that is. */
  ghost predicate Lists(ps: seq<Path>, t: Tree) { forall p :: p in ps <==> p in t }

  /** No path is a file in one tree and a directory in the other. */
  predicate NoClash(s: Tree, t: Tree) { forall p :: p in s && p in t ==> (s[p].Dir? <==> t[p].Dir?) }

  /** The files among the paths, which is what is copied. */
  function FilesOf(s: Tree, ps: seq<Path>): seq<Path>
    requires forall p :: p in ps ==> p in s
  {
    if ps == [] then [] else FilesOf(s, ps[..|ps| - 1]) + if s[ps[|ps| - 1]].File? then [ps[|ps| - 1]] else []
  }

  /** They are the files, in the order in which they are listed. */
  lemma {:induction false} FilesOfIs(s: Tree, ps: seq<Path>, n: nat)
    requires n <= |ps| && forall p :: p in ps ==> p in s
    ensures forall p :: p in FilesOf(s, ps) <==> p in ps && s[p].File?
    ensures FilesOf(s, ps[..n]) <= FilesOf(s, ps)
  {
    if ps != [] {
      var k := |ps| - 1;
      var less, last := ps[..k], ps[k];
      assert ps == less + [last];
      FilesOfIs(s, less, if n < |ps| then n else k);
      if n < |ps| { assert less[..n] == ps[..n]; } else { assert ps[..n] == ps; }
    }
  }

  // ---------- What placing does ----------

  /** Nothing that was there goes away or changes its kind. */
  predicate KeepsKinds(t: Tree, u: Tree) { forall p :: p in t ==> p in u && (t[p].Dir? <==> u[p].Dir?) }

  lemma {:induction false} MakeDirsKeeps(t: Tree, p: Path)
    ensures MakeDirs(t, p).Some? ==> KeepsKinds(t, MakeDirs(t, p).value)
    ensures MakeDirs(t, p).Some? && p != [] ==> p in MakeDirs(t, p).value && MakeDirs(t, p).value[p].Dir?
    ensures MakeDirs(t, p).Some? && [] !in t ==> [] !in MakeDirs(t, p).value
    decreases |p|
  {
    if p != [] && p !in t { MakeDirsKeeps(t, Parent(p)); }
  }

  lemma PlaceKeeps(t: Tree, p: Path, n: Node)
    requires p != [] && Place(t, p, n).Some?
    ensures KeepsKinds(t, Place(t, p, n).value)
    ensures p in Place(t, p, n).value && t.Keys <= Place(t, p, n).value.Keys
    ensures [] !in t ==> [] !in Place(t, p, n).value
  {
    hide MakeDirs;
    MakeDirsKeeps(t, p);
    MakeDirsKeeps(t, Parent(p));
  }

  /** The target while it is filled from a source it does not clash with: what the source has is
      there in its kind, and as it is in the source for the paths done; the rest is as before. */
  predicate Filled(s: Tree, t0: Tree, t: Tree, done: set<Path>) {
    && KeepsKinds(t0, t)
    && (forall p :: p in t && p in s ==> (t[p].Dir? <==> s[p].Dir?))
    && (forall p :: p in t && p !in s ==> p in t0 && t[p] == t0[p])
    && (forall p :: p in done ==> p in s && p in t && t[p] == s[p])
  }

  lemma {:induction false} MakeDirsFills(s: Tree, t0: Tree, t: Tree, done: set<Path>, p: Path)
    requires WellFormed(s) && Filled(s, t0, t, done) && (p == [] || (p in s && s[p].Dir?))
    ensures MakeDirs(t, p).Some? && Filled(s, t0, MakeDirs(t, p).value, done)
    ensures p != [] ==> p in MakeDirs(t, p).value && MakeDirs(t, p).value[p].Dir?
    decreases |p|
  {
    if p != [] && p !in t { MakeDirsFills(s, t0, t, done, Parent(p)); }
  }

  lemma MadeFills(s: Tree, t0: Tree, t: Tree, done: set<Path>, p: Path)
    requires Filled(s, t0, t, done) && p in s && p in t && s[p] == t[p]
    ensures Filled(s, t0, t, done + {p})
  {
  }

  lemma CopyFills(s: Tree, t0: Tree, t: Tree, done: set<Path>, p: Path)
    requires Filled(s, t0, t, done) && p in s && s[p].File? && p != []
    ensures var u := Copy(t, p, s[p].content);
      u.Some? && Filled(s, t0, u.value, done + {p})
  {
    assert p in t ==> t[p].File?;
  }

  lemma PlaceFills(s: Tree, t0: Tree, t: Tree, done: set<Path>, p: Path)
    requires WellFormed(s) && Filled(s, t0, t, done) && p in s && p != []
    ensures Place(t, p, s[p]).Some? && Filled(s, t0, Place(t, p, s[p]).value, done + {p})
  {
    hide WellFormed, Filled, MakeDirs;
    if s[p].Dir? {
      MakeDirsFills(s, t0, t, done, p);
      MadeFills(s, t0, MakeDirs(t, p).value, done, p);
    } else {
      ParentIsDir(s, p);
      MakeDirsFills(s, t0, t, done, Parent(p));
      CopyFills(s, t0, MakeDirs(t, Parent(p)).value, done, p);
    }
  }

  lemma ParentIsDir(s: Tree, p: Path)
    requires WellFormed(s) && p in s && p != []
    ensures Parent(p) == [] || (Parent(p) in s && s[Parent(p)].Dir?)
  {
  }

  // ---------- What pruning does ----------

  /** All above a path of a tree is in the tree. */
  lemma {:induction false} Above(s: Tree, p: Path, q: Path)
    requires WellFormed(s) && q in s && p != [] && p <= q
    ensures p in s
    decreases |q|
  {
    if p != q {
      ParentIsDir(s, q);
      assert p <= Parent(q);
      Above(s, p, Parent(q));
    }
  }

  /** The tree after pruning the first paths of the list. */
  function Pruned(t: Tree, expected: set<Path>, seen: seq<Path>): Tree {
    map p | p in t && (p in expected || p !in seen) :: t[p]
  }

  /** What is below the path to be removed was removed before. */
  lemma GoneBelow(s: Tree, t: Tree, ps: seq<Path>, i: nat, q: Path)
    requires WellFormed(s) && Descending(ps) && Lists(ps, t) && i < |ps|
    requires ps[i] !in s && ps[i] != [] && q in t && ps[i] <= q && q != ps[i]
    ensures q !in s && q in ps[..i]
  {
    hide PathLess, WellFormed;
    var p := ps[i];
    if q in s { Above(s, p, q); }
    ParentLess(p, q);
    var j :| 0 <= j < |ps| && ps[j] == q;
    assert i < j ==> NotBelow(ps[i], ps[j]);
    assert ps[..i][j] == q;
  }

  lemma ListedThere(t: Tree, ps: seq<Path>, i: nat)
    requires Lists(ps, t) && i < |ps|
    ensures ps[i] in t
  {
  }

  lemma PrunedNext(s: Tree, t: Tree, ps: seq<Path>, i: nat)
    requires i < |ps| && ps[i] in t && ps[i] !in s && ps[i] !in ps[..i]
    requires forall q :: q in t && ps[i] <= q && q != ps[i] ==> q !in s && q in ps[..i]
    ensures ps[i] in Pruned(t, s.Keys, ps[..i])
    ensures Without(Pruned(t, s.Keys, ps[..i]), ps[i]) == Pruned(t, s.Keys, ps[..i + 1])
  {
    assert ps[..i + 1] == ps[..i] + [ps[i]];
  }

  /** Visiting paths downwards, a path to be removed has nothing below it left. */
  lemma NothingBelow(s: Tree, t: Tree, ps: seq<Path>, i: nat)
    requires WellFormed(s) && Descending(ps) && Lists(ps, t) && i < |ps|
    requires ps[i] !in s && ps[i] != [] && ps[i] !in ps[..i]
    ensures ps[i] in Pruned(t, s.Keys, ps[..i])
    ensures Without(Pruned(t, s.Keys, ps[..i]), ps[i]) == Pruned(t, s.Keys, ps[..i + 1])
  {
    hide WellFormed, Descending, Lists, Pruned, Without;
    var p := ps[i];
    forall q | q in t && p <= q && q != p
      ensures q !in s && q in ps[..i]
    {
      GoneBelow(s, t, ps, i, q);
    }
    ListedThere(t, ps, i);
    PrunedNext(s, t, ps, i);
  }

  // ---------- The mirror ----------

  /** A directory on disk. */
  class Folder {
    var nodes: Tree

    constructor (t: Tree)
      ensures nodes == t
    {
      nodes := t;
    }

    method Mkdir(p: Path) returns (ok: bool)
      modifies this
      ensures ok <==> MakeDirs(old(nodes), p).Some?
      ensures nodes == if ok then MakeDirs(old(nodes), p).value else old(nodes)
    {
      var t := MakeDirs(nodes, p);
      ok := t.Some?;
      if ok { nodes := t.value; }
    }

    method CopyInto(p: Path, content: string) returns (ok: bool)
      requires p != []
      modifies this
      ensures ok <==> Copy(old(nodes), p, content).Some?
      ensures nodes == if ok then Copy(old(nodes), p, content).value else old(nodes)
    {
      var t := Copy(nodes, p, content);
      ok := t.Some?;
      if ok { nodes := t.value; }
    }

    /** The path to remove must be there. */
    method Remove(p: Path)
      requires p in nodes
      modifies this
      ensures nodes == Without(old(nodes), p)
    {
      nodes := Without(nodes, p);
    }

    /** One path of the source. */
    method PlaceNode(p: Path, n: Node) returns (ok: bool)
      requires p != []
      modifies this
      ensures ok <==> Place(old(nodes), p, n).Some?
      ensures ok ==> nodes == Place(old(nodes), p, n).value
    {
      match n
      case Dir =>
        ok := Mkdir(p);
      case File(content) =>
        ok := Mkdir(Parent(p));
        if ok {
          ok := CopyInto(p, content);
        }
    }

    /** Copies everything in `source`, walked in the order `walk`. */
    method Fill(source: Tree, walk: seq<Path>) returns (ok: bool, copied: seq<Path>)
      requires WellFormed(source) && Lists(walk, source) && [] !in nodes
      modifies this
      ensures NoClash(source, old(nodes)) ==> ok && Filled(source, old(nodes), nodes, source.Keys)
      ensures ok ==> copied == FilesOf(source, walk)
      ensures ok ==> KeepsKinds(old(nodes), nodes) && source.Keys <= nodes.Keys && [] !in nodes
    {
      hide WellFormed, Filled, NoClash, KeepsKinds, Place;
      ok, copied := true, [];
      ghost var t0, done := nodes, {};
      FillStarts(source, t0);
      for i := 0 to |walk|
        invariant ok && copied == FilesOf(source, walk[..i])
        invariant KeepsKinds(t0, nodes) && [] !in nodes
        invariant NoClash(source, t0) ==> Filled(source, t0, nodes, done)
        invariant done <= nodes.Keys && forall p :: p in done <==> p in walk[..i]
      {
        var path := walk[i];
        assert path in walk;
        PathNamed(source, path);
        assert walk[..i + 1][..i] == walk[..i] && walk[..i + 1] == walk[..i] + [path];
        ghost var before := nodes;
        if NoClash(source, t0) { PlaceFills(source, t0, nodes, done, path); }
        ok := PlaceNode(path, source[path]);
        if !ok {
          return;
        }
        PlaceKeeps(before, path, source[path]);
        KindsThen(t0, before, nodes);
        done := done + {path};
        if source[path].File? {
          copied := copied + [path];
        }
      }
      assert walk[..|walk|] == walk;
      assert done == source.Keys;
    }

    /** Removes what is not expected, each path before those above it. */
    method Prune(source: Tree, order: seq<Path>)
      requires WellFormed(source) && Descending(order) && Lists(order, nodes) && Distinct(order) && [] !in nodes
      modifies this
      ensures nodes == map p | p in old(nodes) && p in source :: old(nodes)[p]
    {
      hide WellFormed, Descending, PathLess;
      ghost var t := nodes;
      for i := 0 to |order|
        invariant nodes == Pruned(t, source.Keys, order[..i])
      {
        var path := order[i];
        assert path in order;
        assert order[..i + 1] == order[..i] + [path];
        if path !in source {
          NothingBelow(source, t, order, i);
          Remove(path);
        }
      }
      assert order[..|order|] == order;
    }

    /** Makes the folder a copy of `source`; `walk` and `walkAll` are the orders in which the source,
        and the folder after copying, are walked. It succeeds and gives an equal tree exactly when no
        path is a file on one side and a directory on the other; and whenever it gets to the end, the
        folder has the paths of the source and no others. */
    method CopyTreeExact(source: Tree, walk: seq<Path>, walkAll: Tree -> seq<Path>)
      returns (ok: bool, copied: seq<Path>)
      requires WellFormed(source) && Lists(walk, source) && WellFormed(nodes)
      requires forall t :: Lists(walkAll(t), t) && Distinct(walkAll(t))
      modifies this
      ensures (ok && nodes == source) <==> NoClash(source, old(nodes))
      ensures ok ==> copied == FilesOf(source, walk) && nodes.Keys == source.Keys
    {
      ghost var t0 := nodes;
      ok, copied := Fill(source, walk);
      if !ok {
        return;
      }
      ghost var t1 := nodes;
      var order := SortDown(walkAll(nodes));
      SortDownLists(walkAll(nodes), nodes);
      Prune(source, order);
      MirrorIsExact(source, t0, t1, nodes);
    }
  }

  lemma FillStarts(s: Tree, t: Tree)
    ensures KeepsKinds(t, t) && (NoClash(s, t) ==> Filled(s, t, t, {}))
  {
  }

  lemma PathNamed(s: Tree, p: Path)
    requires WellFormed(s) && p in s
    ensures p != []
  {
  }

  lemma KindsThen(t: Tree, u: Tree, v: Tree)
    requires KeepsKinds(t, u) && KeepsKinds(u, v)
    ensures KeepsKinds(t, v)
  {
  }

  lemma {:induction false} DistinctCounts(ps: seq<Path>)
    requires Distinct(ps)
    ensures forall p :: p in ps ==> multiset(ps)[p] == 1
  {
    if ps != [] {
      assert ps == [ps[0]] + ps[1..];
      DistinctCounts(ps[1..]);
      assert ps[0] !in ps[1..];
    }
  }

  lemma {:induction false} CountsDistinct(ps: seq<Path>)
    requires forall p :: p in ps ==> multiset(ps)[p] == 1
    ensures Distinct(ps)
  {
    if ps != [] {
      var q, rest := ps[0], ps[1..];
      assert ps == [q] + rest && multiset(ps)[q] == 1 + multiset(rest)[q];
      forall p | p in rest
        ensures multiset(rest)[p] == 1
      {
        assert p in ps;
      }
      CountsDistinct(rest);
    }
  }

  lemma SortDownLists(ps: seq<Path>, t: Tree)
    requires Lists(ps, t) && Distinct(ps)
    ensures Descending(SortDown(ps)) && Lists(SortDown(ps), t) && Distinct(SortDown(ps))
  {
    hide NotBelow;
    PathsOrdered();
    Sorting.SortFacts(ps, NotBelow);
    DistinctCounts(ps);
    CountsDistinct(SortDown(ps));
  }

  lemma MirrorIsExact(s: Tree, t0: Tree, t1: Tree, t: Tree)
    requires KeepsKinds(t0, t1) && s.Keys <= t1.Keys
    requires NoClash(s, t0) ==> Filled(s, t0, t1, s.Keys)
    requires t == map p | p in t1 && p in s :: t1[p]
    ensures t == s <==> NoClash(s, t0)
    ensures t.Keys == s.Keys
  {
  }
}
