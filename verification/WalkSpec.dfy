/**
 The in-kernel path walk: what it should report, stated on the dentry and mount graph.

 Kernel pointers are numbers, 0 is the null pointer, and every read is total: a
 read that faults yields 0, as the probe-read helpers do.
 */
module WalkSpec {
  type Byte = bv8

  const PATH_CAP: nat := 1024
  const NAME_MAX: nat := 255
  const MAX_COMPONENTS: nat := 32
  const SLASH: Byte := 0x2f

  datatype Pos = Pos(d: nat, m: nat)

  datatype Inode = NoInode | Inode(dev: nat, ino: nat)

  /** Dentries and mounts: parents, mount roots and mountpoints, and the inode of each dentry. */
  datatype Graph = Graph(parent: nat -> nat, inode: nat -> Inode,
                         mountRoot: nat -> nat, mountParent: nat -> nat, mountPoint: nat -> nat)

  type Names = nat -> seq<Byte>

  datatype Watch = Watch(keys: set<(nat, nat)>, inodeOnly: bool)

  predicate Watched(g: Graph, w: Watch, d: nat) {
    match g.inode(d)
    case NoInode => false
    case Inode(dev, ino) => (dev, ino) in w.keys || (w.inodeOnly && (0, ino) in w.keys)
  }

  predicate AtMountRoot(g: Graph, p: Pos) { p.d == g.mountRoot(p.m) }

  datatype Up = Top | To(pos: Pos)

  /** The position above: across the mount at a mount root, else the parent dentry. */
  function Above(g: Graph, p: Pos): Up {
    if AtMountRoot(g, p) then
      if g.mountParent(p.m) == 0 || g.mountParent(p.m) == p.m then Top
      else To(Pos(g.mountPoint(p.m), g.mountParent(p.m)))
    else if g.parent(p.d) == 0 || g.parent(p.d) == p.d then Top
    else To(Pos(g.parent(p.d), p.m))
  }

  /** The positions a walk of at most `n` steps visits, leaf first. */
  function Chain(g: Graph, p: Pos, n: nat): (c: seq<Pos>)
    ensures |c| <= n && (n > 0 ==> |c| > 0 && c[0] == p)
    decreases n, p
  {
    if n == 0 then []
    else match Above(g, p)
      case Top => [p]
      case To(q) => [p] + Chain(g, q, n - 1)
  }

  // ---- the reference: the path as the task sees it

  datatype Seen = Lost | Path(bytes: seq<Byte>)

  /** The path from `root` down to `p`, if the root is among the first `n` positions. */
  function TaskPath(g: Graph, name: Names, root: Pos, p: Pos, n: nat): Seen
    decreases n, p
  {
    if n == 0 then Lost
    else if p == root then Path([])
    else match Above(g, p)
      case Top => Lost
      case To(q) =>
        match TaskPath(g, name, root, q, n - 1)
        case Lost => Lost
        case Path(s) => Path(if AtMountRoot(g, p) then s else s + [SLASH] + name(p.d))
  }

  /** The names below the root (or below where the walk ends), leaf first. */
  function Below(g: Graph, name: Names, root: Pos, p: Pos, n: nat): seq<seq<Byte>>
    decreases n, p
  {
    if n == 0 || p == root then []
    else match Above(g, p)
      case Top => []
      case To(q) => (if AtMountRoot(g, p) then [] else [name(p.d)]) + Below(g, name, root, q, n - 1)
  }

  /** "/name" for each name, the leaf last. */
  function Render(names: seq<seq<Byte>>): seq<Byte> {
    if names == [] then [] else [SLASH] + names[|names| - 1] + Render(names[..|names| - 1])
  }

  predicate Short(names: seq<seq<Byte>>) { forall i :: 0 <= i < |names| ==> |names[i]| <= NAME_MAX }

  predicate Fits(names: seq<seq<Byte>>) { Short(names) && |Render(names)| <= PATH_CAP }

  /** `run` is the longest leaf-side run of `names` that fits the buffer. */
  ghost predicate LongestRun(run: seq<seq<Byte>>, names: seq<seq<Byte>>) {
    && run <= names && Fits(run)
    && forall k :: |run| < k <= |names| ==> !Fits(names[..k])
  }

  /** What a record must say of the walk from `p`. */
  ghost predicate Reports(g: Graph, name: Names, root: Pos, p: Pos, bytes: seq<Byte>, truncated: bool) {
    var names := Below(g, name, root, p, MAX_COMPONENTS);
    var seen := TaskPath(g, name, root, p, MAX_COMPONENTS);
    && (!truncated <==> seen.Path? && Fits(names))
    && (!truncated ==> bytes == if seen.bytes == [] then [SLASH] else seen.bytes)
    && (truncated ==> exists run :: LongestRun(run, names) && bytes == (if run == [] then [] else Render(run)[1..]))
  }

  /** A watched directory lies on the way up, within the steps a walk may take. */
  ghost predicate Matches(g: Graph, w: Watch, p: Pos) { MatchesWithin(g, w, p, MAX_COMPONENTS) }

  ghost predicate MatchesWithin(g: Graph, w: Watch, p: Pos, n: nat) {
    var c := Chain(g, p, n);
    exists i :: 0 <= i < |c| && Watched(g, w, c[i].d)
  }

  // ---- facts about the reference

  lemma {:induction false} RenderSnoc(names: seq<seq<Byte>>, x: seq<Byte>)
    ensures Render(names + [x]) == [SLASH] + x + Render(names)
  {
    assert (names + [x])[..|names|] == names;
  }

  lemma FitsSnoc(names: seq<seq<Byte>>, x: seq<Byte>)
    requires Fits(names)
    ensures Fits(names + [x]) <==> |x| <= NAME_MAX && |Render(names)| + |x| + 1 <= PATH_CAP
  {
    RenderSnoc(names, x);
    assert (names + [x])[|names|] == x;
  }

  lemma {:induction false} RenderCons(x: seq<Byte>, names: seq<seq<Byte>>)
    ensures Render([x] + names) == Render(names) + [SLASH] + x
  {
    if names == [] {
      assert [x] + names == [] + [x];
      RenderSnoc([], x);
    } else {
      var k := |names| - 1;
      RenderCons(x, names[..k]);
      assert [x] + names == ([x] + names[..k]) + [names[k]];
      RenderSnoc([x] + names[..k], names[k]);
      RenderSnoc(names[..k], names[k]);
      assert names == names[..k] + [names[k]];
    }
  }

  /** Met within `n` positions, the task's path is the rendering of the names below the root. */
  lemma {:induction false} TaskPathRenders(g: Graph, name: Names, root: Pos, p: Pos, n: nat)
    requires TaskPath(g, name, root, p, n).Path?
    ensures TaskPath(g, name, root, p, n).bytes == Render(Below(g, name, root, p, n))
    decreases n
  {
    if p != root {
      var q := Above(g, p).pos;
      TaskPathRenders(g, name, root, q, n - 1);
      if !AtMountRoot(g, p) {
        RenderCons(name(p.d), Below(g, name, root, q, n - 1));
      } else {
        assert [] + Below(g, name, root, q, n - 1) == Below(g, name, root, q, n - 1);
      }
    }
  }

  lemma {:induction false} RenderGrows(names: seq<seq<Byte>>, k: nat)
    requires k <= |names|
    ensures |Render(names[..k])| <= |Render(names)|
    decreases |names|
  {
    if k < |names| {
      var l := |names| - 1;
      assert names[..l][..k] == names[..k];
      RenderGrows(names[..l], k);
    } else {
      assert names[..k] == names;
    }
  }

  /** A run stopped by a name that does not fit behind it is the longest one. */
  lemma StoppedRunIsLongest(run: seq<seq<Byte>>, names: seq<seq<Byte>>)
    requires run <= names && Fits(run)
    requires |run| < |names| ==> !Fits(names[..|run| + 1])
    ensures LongestRun(run, names)
  {
    forall k | |run| < k <= |names| ensures !Fits(names[..k]) {
      if Fits(names[..k]) {
        assert names[..k][..|run| + 1] == names[..|run| + 1];
        RenderGrows(names[..k], |run| + 1);
        assert false;
      }
    }
  }

  /** Whether a walk matches depends on the first 32 positions alone: not on the root, not on any name. */
  lemma {:induction false} MatchIsLocal(g: Graph, h: Graph, w: Watch, p: Pos)
    requires forall i :: 0 <= i < |Chain(g, p, MAX_COMPONENTS)| ==>
      var q := Chain(g, p, MAX_COMPONENTS)[i];
      Above(g, q) == Above(h, q) && g.inode(q.d) == h.inode(q.d)
    ensures Matches(g, w, p) <==> Matches(h, w, p)
  {
    SameChain(g, h, p, MAX_COMPONENTS);
    var c := Chain(g, p, MAX_COMPONENTS);
    assert forall i :: 0 <= i < |c| ==> (Watched(g, w, c[i].d) <==> Watched(h, w, c[i].d));
  }

  lemma {:induction false} SameChain(g: Graph, h: Graph, p: Pos, n: nat)
    requires forall i :: 0 <= i < |Chain(g, p, n)| ==> Above(g, Chain(g, p, n)[i]) == Above(h, Chain(g, p, n)[i])
    ensures Chain(g, p, n) == Chain(h, p, n)
    decreases n
  {
    if n > 0 {
      var c := Chain(g, p, n);
      assert c[0] == p;
      if Above(g, p).To? {
        var q := Above(g, p).pos;
        var rest := Chain(g, q, n - 1);
        forall i | 0 <= i < |rest| ensures Above(g, rest[i]) == Above(h, rest[i]) {
          assert rest[i] == c[i + 1];
        }
        SameChain(g, h, q, n - 1);
      }
    }
  }

  // ---- the same on the graph alone: the way up, position by position

  /** The position above `q` in the graph is `u`: the mountpoint in the parent mount, or the parent dentry. */
  predicate IsAbove(g: Graph, q: Pos, u: Pos) {
    if q.d == g.mountRoot(q.m)
    then g.mountParent(q.m) != 0 && g.mountParent(q.m) != q.m && u == Pos(g.mountPoint(q.m), g.mountParent(q.m))
    else g.parent(q.d) != 0 && g.parent(q.d) != q.d && u == Pos(g.parent(q.d), q.m)
  }

  ghost predicate Leads(g: Graph, p: Pos, way: seq<Pos>) {
    && |way| > 0 && way[0] == p
    && forall i :: 0 <= i < |way| - 1 ==> IsAbove(g, way[i], way[i + 1])
  }

  lemma LeadsOn(g: Graph, p: Pos, way: seq<Pos>)
    requires Leads(g, p, way) && |way| > 1
    ensures Above(g, p) == To(way[1]) && Leads(g, way[1], way[1..])
  {
    assert IsAbove(g, way[0], way[1]);
  }

  lemma LeadsFrom(g: Graph, p: Pos, rest: seq<Pos>)
    requires rest != [] && Above(g, p) == To(rest[0]) && Leads(g, rest[0], rest)
    ensures Leads(g, p, [p] + rest)
  {
    var way := [p] + rest;
    forall i | 0 <= i < |way| - 1 ensures IsAbove(g, way[i], way[i + 1]) {
      if i > 0 { assert IsAbove(g, rest[i - 1], rest[i]); }
    }
  }

  lemma {:induction false} ChainLeads(g: Graph, p: Pos, n: nat)
    requires n > 0
    ensures Leads(g, p, Chain(g, p, n))
    decreases n
  {
    if n > 1 && Above(g, p).To? {
      var q := Above(g, p).pos;
      ChainLeads(g, q, n - 1);
      LeadsFrom(g, p, Chain(g, q, n - 1));
    }
  }

  /** Every way of at most `n` positions is the beginning of the walk. */
  lemma {:induction false} WayInChain(g: Graph, p: Pos, way: seq<Pos>, n: nat)
    requires Leads(g, p, way) && |way| <= n
    ensures way <= Chain(g, p, n)
    decreases n
  {
    if |way| > 1 {
      LeadsOn(g, p, way);
      WayInChain(g, way[1], way[1..], n - 1);
      assert way == [p] + way[1..];
    }
  }

  /**
   A way of at most 32 positions leads to a dentry whose inode is on the list: with its device, or,
   where the flag says that inode numbers count alone, under device 0.
   */
  ghost predicate UnderWatch(g: Graph, w: Watch, p: Pos) {
    exists way: seq<Pos> :: Leads(g, p, way) && |way| <= 32 && WatchedEnd(g, w, way)
  }

  predicate WatchedEnd(g: Graph, w: Watch, way: seq<Pos>)
    requires way != []
  {
    var x := g.inode(way[|way| - 1].d);
    x.Inode? && ((x.dev, x.ino) in w.keys || (w.inodeOnly && (0, x.ino) in w.keys))
  }

  lemma MatchesMeans(g: Graph, w: Watch, p: Pos)
    ensures Matches(g, w, p) <==> UnderWatch(g, w, p)
  {
    var c := Chain(g, p, MAX_COMPONENTS);
    if Matches(g, w, p) {
      var i :| 0 <= i < |c| && Watched(g, w, c[i].d);
      ChainLeads(g, p, MAX_COMPONENTS);
      var way := c[..i + 1];
      assert Leads(g, p, way) && WatchedEnd(g, w, way);
    }
    if UnderWatch(g, w, p) {
      var way: seq<Pos> :| Leads(g, p, way) && |way| <= 32 && WatchedEnd(g, w, way);
      WayInChain(g, p, way, MAX_COMPONENTS);
      assert c[|way| - 1] == way[|way| - 1];
    }
  }

  /** The names on a way, leaf first: of every position below its end but the roots of mounts, which have none. */
  function NamesOn(g: Graph, name: Names, way: seq<Pos>): seq<seq<Byte>> {
    if |way| <= 1 then []
    else (if way[0].d == g.mountRoot(way[0].m) then [] else [name(way[0].d)]) + NamesOn(g, name, way[1..])
  }

  ghost predicate Topmost(g: Graph, q: Pos) { forall u :: !IsAbove(g, q, u) }

  /**
   The longest way that matters: it ends at the root, where nothing is above, or after 32 steps,
   the first of the three.
   */
  ghost predicate WholeWay(g: Graph, root: Pos, p: Pos, way: seq<Pos>, n: nat) {
    && Leads(g, p, way) && |way| <= n + 1
    && (forall i :: 0 <= i < |way| - 1 ==> way[i] != root)
    && (way[|way| - 1] == root || |way| == n + 1 || Topmost(g, way[|way| - 1]))
  }

  lemma WholeOn(g: Graph, root: Pos, p: Pos, rest: seq<Pos>, n: nat)
    requires n > 0 && p != root && rest != [] && Above(g, p) == To(rest[0]) && WholeWay(g, root, rest[0], rest, n - 1)
    ensures WholeWay(g, root, p, [p] + rest, n)
  {
    LeadsFrom(g, p, rest);
    var way := [p] + rest;
    assert way[|way| - 1] == rest[|rest| - 1];
  }

  /** There is such a way; its names are those below the root, and it meets the root where the task's path does. */
  lemma {:induction false} FindWay(g: Graph, name: Names, root: Pos, p: Pos, n: nat) returns (way: seq<Pos>)
    ensures WholeWay(g, root, p, way, n) && NamesOn(g, name, way) == Below(g, name, root, p, n)
    ensures TaskPath(g, name, root, p, n).Path? <==> way[|way| - 1] == root && |way| <= n
    decreases n
  {
    if n == 0 || p == root || Above(g, p).Top? {
      way := [p];
      if Above(g, p).Top? { assert Topmost(g, p); }
    } else {
      var q := Above(g, p).pos;
      var rest := FindWay(g, name, root, q, n - 1);
      way := [p] + rest;
      assert way[1..] == rest;
      WholeOn(g, root, p, rest, n);
    }
  }

  /** What a record says of the walk from `p`, on the way up alone. */
  ghost predicate Shows(g: Graph, name: Names, root: Pos, p: Pos, bytes: seq<Byte>, truncated: bool) {
    exists way :: WholeWay(g, root, p, way, 32) && ShowsOn(NamesOn(g, name, way), bytes, truncated,
                                                           way[|way| - 1] == root && |way| <= 32)
  }

  /**
   Whole if the way meets the root within 32 positions, no name is longer than 255 bytes and all of
   them with their slashes take at most 1024; else the longest tail that is so, without its slash.
   */
  ghost predicate ShowsOn(names: seq<seq<Byte>>, bytes: seq<Byte>, truncated: bool, met: bool) {
    if met && |Render(names)| <= 1024 && (forall i :: 0 <= i < |names| ==> |names[i]| <= 255)
    then !truncated && bytes == if names == [] then [0x2f] else Render(names)
    else truncated && exists k :: Tail(names, k) && bytes == if k == 0 then [] else Render(names[..k])[1..]
  }

  /** The first `k` names fit the buffer, and no more do. */
  ghost predicate Tail(names: seq<seq<Byte>>, k: int) {
    && 0 <= k <= |names| && |Render(names[..k])| <= 1024 && (forall i :: 0 <= i < k ==> |names[i]| <= 255)
    && (k < |names| ==> |names[k]| > 255 || |Render(names[..k])| + 1 + |names[k]| > 1024)
  }

  lemma ReportsShows(g: Graph, name: Names, root: Pos, p: Pos, bytes: seq<Byte>, truncated: bool)
    requires Reports(g, name, root, p, bytes, truncated)
    ensures Shows(g, name, root, p, bytes, truncated)
  {
    var way := FindWay(g, name, root, p, MAX_COMPONENTS);
    var names, met := NamesOn(g, name, way), way[|way| - 1] == root && |way| <= 32;
    if truncated {
      var run :| LongestRun(run, names) && bytes == (if run == [] then [] else Render(run)[1..]);
      LongestIsTail(names, run);
    } else {
      TaskPathRenders(g, name, root, p, MAX_COMPONENTS);
    }
    assert ShowsOn(names, bytes, truncated, met);
  }

  lemma LongestIsTail(names: seq<seq<Byte>>, run: seq<seq<Byte>>)
    requires LongestRun(run, names)
    ensures Tail(names, |run|) && names[..|run|] == run
  {
    var k := |run|;
    assert names[..k] == run;
    forall i | 0 <= i < k ensures |names[i]| <= 255 { assert run[i] == names[i]; }
    if k < |names| {
      assert names[..k + 1] == run + [names[k]] && !Fits(names[..k + 1]);
      FitsSnoc(run, names[k]);
    }
  }
}
