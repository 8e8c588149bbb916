/**
 The walk itself (`walk_begin`, `walk_step`, `walk_path`) over the per-CPU scratch
 area, and the two hooks' use of it.
 */
module PathWalk {
  import opened WalkSpec

  /** The kernel objects one hook reads, and the watch list. */
  datatype Kernel = Kernel(g: Graph, name: Names, root: Pos, watch: Watch)

  /** A masked offset or length; `size` is a power of two. */
  function Masked(x: nat, size: nat): (r: nat)
    requires size > 0
    ensures r < size && (x < size ==> r == x)
  {
    x % size
  }

  /**
   What one step at `q` does to the path: at the root it is complete if nothing was
   left out and writing stops; elsewhere a name is added if it fits, or stops it.
   */
  ghost predicate Stepped(k: Kernel, q: Pos, run: seq<seq<Byte>>, complete: bool, full: bool,
                          run': seq<seq<Byte>>, complete': bool, full': bool) {
    && complete' == (complete || (q == k.root && !full))
    && if Above(k.g, q).Top? || AtMountRoot(k.g, q) || full || q == k.root
       then full' == (full || q == k.root) && run' == run
       else if Fits(run + [k.name(q.d)]) then !full' && run' == run + [k.name(q.d)]
       else full' && run' == run
  }

  /** Per-CPU work area: walk state and a buffer of twice the path capacity. */
  class Scratch {
    var d: nat
    var m: nat
    var rootD: nat
    var rootM: nat
    var cur: nat
    var inodeOnly: bool
    var matched: bool
    var complete: bool
    var full: bool
    const buf: array<Byte>
    /** The names written so far, leaf first. */
    ghost var run: seq<seq<Byte>>

    constructor ()
      ensures Clean() && fresh(buf)
    {
      buf := new Byte[2 * PATH_CAP](_ => 0);
      d, m, rootD, rootM, cur := 0, 0, 0, 0, PATH_CAP;
      inodeOnly, matched, complete, full, run := false, false, false, false, [];
    }

    /** Between walks: the upper half of the buffer has never been written. */
    ghost predicate Clean()
      reads this, buf
    {
      buf.Length == 2 * PATH_CAP && forall i :: PATH_CAP <= i < 2 * PATH_CAP ==> buf[i] == 0
    }

    /** During a walk: the buffer ends, at its middle, in the names written so far. */
    ghost predicate Walking()
      reads this, buf
    {
      && Clean() && Fits(run)
      && cur == PATH_CAP - |Render(run)|
      && buf[cur..PATH_CAP] == Render(run)
    }

    method Begin(k: Kernel)
      modifies this`rootD, this`rootM, this`inodeOnly, this`matched
      ensures rootD == k.root.d && rootM == k.root.m && inodeOnly == k.watch.inodeOnly && !matched
    {
      rootD, rootM, inodeOnly, matched := k.root.d, k.root.m, k.watch.inodeOnly, false;
    }

    /** The probe read of a name into the buffer. */
    method ReadName(at: nat, bytes: seq<Byte>)
      requires at + |bytes| <= buf.Length
      modifies buf
      ensures forall j :: at <= j < at + |bytes| ==> buf[j] == bytes[j - at]
      ensures forall j :: 0 <= j < buf.Length && !(at <= j < at + |bytes|) ==> buf[j] == old(buf[j])
    {
      for i := 0 to |bytes|
        invariant forall j :: at <= j < at + i ==> buf[j] == bytes[j - at]
        invariant forall j :: 0 <= j < buf.Length && !(at <= j < at + i) ==> buf[j] == old(buf[j])
      {
        buf[at + i] := bytes[i];
      }
    }

    /**
     Writes "/x" in front of position `cur`.  The offsets are masked as in the
     program; the masks change nothing, except the offset of an empty name at the
     very end of the path area, where nothing is written.
     */
    method WriteName(x: seq<Byte>)
      requires buf.Length == 2 * PATH_CAP && cur <= PATH_CAP && |x| <= NAME_MAX && |x| + 1 <= cur
      modifies this`cur, buf
      ensures cur == old(cur) - |x| - 1 && buf[cur] == SLASH
      ensures forall j :: cur < j < old(cur) ==> buf[j] == x[j - cur - 1]
      ensures forall j :: 0 <= j < buf.Length && !(cur <= j < old(cur)) ==> buf[j] == old(buf[j])
    {
      var pos := cur - |x|;
      var len := Masked(|x|, 256);
      ReadName(Masked(pos, PATH_CAP), x[..len]);
      pos := pos - 1;
      buf[Masked(pos, PATH_CAP)] := SLASH;
      cur := pos;
    }

    method Prepend(x: seq<Byte>)
      requires Walking() && |x| <= NAME_MAX && |x| + 1 <= cur
      modifies this`cur, this`run, buf
      ensures Walking() && run == old(run) + [x]
    {
      RenderSnoc(run, x);
      ghost var before := buf[cur..PATH_CAP];
      WriteName(x);
      run := run + [x];
      forall j | cur <= j < PATH_CAP ensures buf[j] == ([SLASH] + x + before)[j - cur] { }
    }

    /** Prepends the name unless writing has stopped; a name that does not fit stops it. */
    method WriteOrStop(x: seq<Byte>)
      requires Walking()
      modifies this`cur, this`full, this`run, buf
      ensures Walking()
      ensures if old(full) then full && run == old(run)
              else if Fits(old(run) + [x]) then !full && run == old(run) + [x]
              else full && run == old(run)
    {
      if full { return; }
      FitsSnoc(run, x);
      if |x| > NAME_MAX || |x| + 1 > cur { full := true; } else { Prepend(x); }
    }

    /** `is_watched`: one lookup with the device, and one without where the flag allows it. */
    method IsWatched(k: Kernel, dentry: nat) returns (yes: bool)
      requires inodeOnly == k.watch.inodeOnly
      ensures yes == Watched(k.g, k.watch, dentry)
    {
      var inode := k.g.inode(dentry);
      if inode.NoInode? { return false; }
      if (inode.dev, inode.ino) in k.watch.keys { return true; }
      if !inodeOnly { return false; }
      return (0, inode.ino) in k.watch.keys;
    }

    /** The checks at one position: the watch list, and the task's root. */
    method Visit(k: Kernel)
      requires Walking() && rootD == k.root.d && rootM == k.root.m && inodeOnly == k.watch.inodeOnly
      modifies this`matched, this`complete, this`full
      ensures Walking()
      ensures matched == (old(matched) || Watched(k.g, k.watch, d))
      ensures complete == (old(complete) || (Pos(d, m) == k.root && !old(full)))
      ensures full == (old(full) || Pos(d, m) == k.root)
    {
      if !matched {
        var yes := IsWatched(k, d);
        if yes { matched := true; }
      }
      if d == rootD && m == rootM {
        if !full { complete := true; }
        full := true;
      }
    }

    /** One step at (d, m); true when there is nothing above. */
    method Step(k: Kernel) returns (stop: bool)
      requires Walking() && rootD == k.root.d && rootM == k.root.m && inodeOnly == k.watch.inodeOnly
      modifies this`d, this`m, this`cur, this`matched, this`complete, this`full, this`run, buf
      ensures Walking()
      ensures matched == (old(matched) || Watched(k.g, k.watch, old(d)))
      ensures var p := Pos(old(d), old(m));
              && stop == Above(k.g, p).Top?
              && (!stop ==> Pos(d, m) == Above(k.g, p).pos)
              && Stepped(k, p, old(run), old(complete), old(full), run, complete, full)
    {
      Visit(k);
      if d == k.g.mountRoot(m) {
        var up := k.g.mountParent(m);
        if up == 0 || up == m { return true; }
        d, m := k.g.mountPoint(m), up;
        return false;
      }
      var parent := k.g.parent(d);
      if parent == 0 || parent == d { return true; }
      var x := k.name(d);
      d := parent;
      WriteOrStop(x);
      return false;
    }

    /** The constant-size read from the path's first byte; past the path it reads the zero half. */
    method CopyOut(start: nat, dst: array<Byte>) returns (len: nat)
      requires Clean() && start <= PATH_CAP && dst.Length == PATH_CAP && dst != buf
      modifies dst
      ensures len == PATH_CAP - start && dst[..len] == buf[start..PATH_CAP]
      ensures forall i :: len <= i < PATH_CAP ==> dst[i] == 0
    {
      var from := Masked(start, 2 * PATH_CAP);
      len := PATH_CAP - from;
      forall i | 0 <= i < PATH_CAP { dst[i] := buf[from + i]; }
    }

    /** The unused second path is copied from the half that is never written. */
    method CopyZeros(dst: array<Byte>)
      requires Clean() && dst.Length == PATH_CAP && dst != buf
      modifies dst
      ensures Clean() && forall i :: 0 <= i < PATH_CAP ==> dst[i] == 0
    {
      forall i | 0 <= i < PATH_CAP { dst[i] := buf[PATH_CAP + i]; }
    }

    /**
     Walks up from `p` and copies the path into `dst`.  Whatever the buffer held
     before, `dst` is exactly the reported bytes followed by zeros.
     */
    method Walk(k: Kernel, p: Pos, dst: array<Byte>) returns (len: nat, truncated: bool)
      requires Clean() && dst.Length == PATH_CAP && dst != buf
      requires rootD == k.root.d && rootM == k.root.m && inodeOnly == k.watch.inodeOnly
      modifies this`d, this`m, this`cur, this`matched, this`complete, this`full, this`run, buf, dst
      ensures Clean()
      ensures matched <==> old(matched) || UnderWatch(k.g, k.watch, p)
      ensures len <= PATH_CAP && Shows(k.g, k.name, k.root, p, dst[..len], truncated)
      ensures forall i :: len <= i < PATH_CAP ==> dst[i] == 0
    {
      Climb(k, p, MAX_COMPONENTS);
      MatchesMeans(k.g, k.watch, p);
      len, truncated := Finish(k, p, dst);
      ReportsShows(k.g, k.name, k.root, p, dst[..len], truncated);
    }

    /** What is in the buffer after the loop, copied out as it is to be reported. */
    method Finish(k: Kernel, ghost p: Pos, dst: array<Byte>) returns (len: nat, truncated: bool)
      requires Walking() && Climbed(k, p, MAX_COMPONENTS, run, complete) && dst.Length == PATH_CAP && dst != buf
      modifies buf, dst
      ensures Clean()
      ensures len <= PATH_CAP && Reports(k.g, k.name, k.root, p, dst[..len], truncated)
      ensures forall i :: len <= i < PATH_CAP ==> dst[i] == 0
    {
      var start := cur;
      ghost var names := Below(k.g, k.name, k.root, p, MAX_COMPONENTS);
      if complete {
        if start == PATH_CAP {
          start := PATH_CAP - 1;
          buf[Masked(PATH_CAP - 1, PATH_CAP)] := SLASH;
        }
        truncated := false;
        TaskPathRenders(k.g, k.name, k.root, p, MAX_COMPONENTS);
      } else {
        start := if start < PATH_CAP then start + 1 else PATH_CAP;
        truncated := true;
        StoppedRunIsLongest(run, names);
      }
      len := CopyOut(start, dst);
      if truncated { assert LongestRun(run, names) && dst[..len] == if run == [] then [] else Render(run)[1..]; }
    }

    /** Where the walk is and what it has found. */
    ghost function Now(): Shot
      reads this
    {
      Shot(Pos(d, m), run, complete, full, matched)
    }

    /** One round of the loop. */
    method StepOn(k: Kernel) returns (stop: bool)
      requires Walking() && rootD == k.root.d && rootM == k.root.m && inodeOnly == k.watch.inodeOnly
      modifies this`d, this`m, this`cur, this`matched, this`complete, this`full, this`run, buf
      ensures Walking()
      ensures if stop then Halts(k, old(Now()), Now()) else Moves(k, old(Now()), Now())
    {
      stop := Step(k);
    }

    method StartAt(p: Pos)
      requires Clean()
      modifies this`d, this`m, this`cur, this`complete, this`full, this`run
      ensures Walking() && Now() == Shot(p, [], false, false, matched)
    {
      d, m, cur, complete, full, run := p.d, p.m, PATH_CAP, false, false, [];
    }

    /** The bounded loop. */
    method Climb(k: Kernel, p: Pos, limit: nat)
      requires Clean()
      requires rootD == k.root.d && rootM == k.root.m && inodeOnly == k.watch.inodeOnly
      modifies this`d, this`m, this`cur, this`matched, this`complete, this`full, this`run, buf
      ensures Walking()
      ensures matched <==> old(matched) || MatchesWithin(k.g, k.watch, p, limit)
      ensures Climbed(k, p, limit, run, complete)
    {
      StartAt(p);
      var i, stop := 0, false;
      ghost var log := [Now()];
      while i < limit && !stop
        invariant Walking() && rootD == k.root.d && rootM == k.root.m && inodeOnly == k.watch.inodeOnly
        invariant 0 <= i <= limit && Trail(k, log) && log[0] == Shot(p, [], false, false, old(matched))
        invariant |log| == (if stop then i else i + 1)
        invariant if stop then Halts(k, log[|log| - 1], Now()) else log[|log| - 1] == Now()
      {
        stop := StepOn(k);
        if !stop {
          TrailGrows(k, log, Now());
          log := log + [Now()];
        }
        i := i + 1;
      }
      TrailMeans(k, p, limit, log, Now(), stop);
    }
  }

  /** A moment of a walk. */
  datatype Shot = Shot(pos: Pos, run: seq<seq<Byte>>, complete: bool, full: bool, matched: bool)

  /** What one step makes of path and match. */
  ghost predicate Finds(k: Kernel, a: Shot, b: Shot) {
    && Stepped(k, a.pos, a.run, a.complete, a.full, b.run, b.complete, b.full) && Fits(b.run)
    && (b.matched <==> a.matched || Watched(k.g, k.watch, a.pos.d))
  }

  ghost predicate Moves(k: Kernel, a: Shot, b: Shot) { Above(k.g, a.pos) == To(b.pos) && Finds(k, a, b) }

  ghost predicate Halts(k: Kernel, a: Shot, b: Shot) { Above(k.g, a.pos).Top? && Finds(k, a, b) }

  ghost predicate Trail(k: Kernel, log: seq<Shot>) {
    log != [] && forall i :: 0 <= i < |log| - 1 ==> Moves(k, log[i], log[i + 1])
  }

  lemma TrailGrows(k: Kernel, log: seq<Shot>, b: Shot)
    requires Trail(k, log) && Moves(k, log[|log| - 1], b)
    ensures Trail(k, log + [b])
  {
    var more := log + [b];
    forall i | 0 <= i < |more| - 1 ensures Moves(k, more[i], more[i + 1]) {
      if i < |log| - 1 { assert more[i] == log[i] && more[i + 1] == log[i + 1]; }
    }
  }

  function Visits(log: seq<Shot>, n: nat): seq<Pos>
    requires n <= |log|
  {
    if n == 0 then [] else Visits(log, n - 1) + [log[n - 1].pos]
  }

  /** What a walk has found by its `j`-th moment. */
  ghost predicate FoundBy(k: Kernel, p: Pos, limit: nat, log: seq<Shot>, j: nat)
    requires j < |log| && j <= limit
  {
    var x := log[j];
    && OnTheWay(k, p, limit, Visits(log, j), To(x.pos), limit - j, x.run, x.complete, x.full)
    && (x.matched <==> log[0].matched || AnyWatched(k.g, k.watch, Visits(log, j)))
  }

  lemma FoundNext(k: Kernel, p: Pos, limit: nat, log: seq<Shot>, j: nat)
    requires 0 < j < |log| && j <= limit && FoundBy(k, p, limit, log, j - 1) && Moves(k, log[j - 1], log[j])
    ensures FoundBy(k, p, limit, log, j)
  {
    var done, n, a, b := Visits(log, j - 1), limit - (j - 1), log[j - 1], log[j];
    assert Visits(log, j) == done + [a.pos] && n - 1 == limit - j;
    CourseStep(k, p, limit, done, a, b, n);
    assert OnTheWay(k, p, limit, done + [a.pos], To(b.pos), limit - j, b.run, b.complete, b.full);
  }

  lemma {:induction false} TrailTo(k: Kernel, p: Pos, limit: nat, log: seq<Shot>, j: nat)
    requires Trail(k, log) && log[0] == Shot(p, [], false, false, log[0].matched) && j < |log| && j <= limit
    ensures FoundBy(k, p, limit, log, j)
  {
    if j == 0 {
      ClimbStarts(k, p, limit);
    } else {
      TrailTo(k, p, limit, log, j - 1);
      FoundNext(k, p, limit, log, j);
    }
  }

  lemma CourseStep(k: Kernel, p: Pos, limit: nat, done: seq<Pos>, a: Shot, b: Shot, n: nat)
    requires n > 0 && Finds(k, a, b) && (Above(k.g, a.pos).To? ==> Above(k.g, a.pos).pos == b.pos)
    requires OnTheWay(k, p, limit, done, To(a.pos), n, a.run, a.complete, a.full)
    ensures OnTheWay(k, p, limit, done + [a.pos], Above(k.g, a.pos), n - 1, b.run, b.complete, b.full)
    ensures AnyWatched(k.g, k.watch, done + [a.pos]) <==>
      AnyWatched(k.g, k.watch, done) || Watched(k.g, k.watch, a.pos.d)
  {
    ClimbStep(k, p, limit, a.pos, n, a.run, a.complete, a.full, b.run, b.complete, b.full);
    VisitStep(k.g, k.watch, p, limit, done, a.pos, n);
  }

  /** What it has found in the end: at the top, or out of steps. */
  lemma TrailMeans(k: Kernel, p: Pos, limit: nat, log: seq<Shot>, last: Shot, stop: bool)
    requires Trail(k, log) && log[0] == Shot(p, [], false, false, log[0].matched)
    requires if stop then |log| <= limit && Halts(k, log[|log| - 1], last)
             else |log| == limit + 1 && last == log[limit]
    ensures last.matched <==> log[0].matched || MatchesWithin(k.g, k.watch, p, limit)
    ensures Climbed(k, p, limit, last.run, last.complete)
  {
    var j := |log| - 1;
    var done := Visits(log, j);
    TrailTo(k, p, limit, log, j);
    if stop {
      CourseStep(k, p, limit, done, log[j], last, limit - j);
      LoopEnds(k, p, limit, done + [log[j].pos], Top, limit - j - 1, last.run, last.complete, last.full);
    } else {
      LoopEnds(k, p, limit, done, To(last.pos), 0, last.run, last.complete, last.full);
    }
  }

  /** `done` has been visited and `run` collected; the walk goes on at `next` with `n` steps left, or has ended. */
  ghost predicate OnTheWay(k: Kernel, p: Pos, limit: nat, done: seq<Pos>, next: Up, n: nat,
                           run: seq<seq<Byte>>, complete: bool, full: bool) {
    && Visited(k.g, p, limit, done, next, n)
    && if next.Top? then Climbed(k, p, limit, run, complete)
       else Climbing(k, p, limit, next.pos, n, run, complete, full)
  }

  ghost predicate AnyWatched(g: Graph, w: Watch, done: seq<Pos>) {
    exists j :: 0 <= j < |done| && Watched(g, w, done[j].d)
  }

  /** `done` has been visited; the walk goes on at `next` with `n` steps left. */
  ghost predicate Visited(g: Graph, p: Pos, limit: nat, done: seq<Pos>, next: Up, n: nat) {
    Chain(g, p, limit) == done + if next.Top? then [] else Chain(g, next.pos, n)
  }

  /** What the loop leaves, whether it stopped at the top or ran out of steps. */
  lemma LoopEnds(k: Kernel, p: Pos, limit: nat, done: seq<Pos>, next: Up, n: nat,
                 run: seq<seq<Byte>>, complete: bool, full: bool)
    requires OnTheWay(k, p, limit, done, next, n, run, complete, full) && (next.Top? || n == 0)
    ensures AnyWatched(k.g, k.watch, done) <==> MatchesWithin(k.g, k.watch, p, limit)
    ensures Climbed(k, p, limit, run, complete)
  {
    VisitEnds(k.g, k.watch, p, limit, done, next, n);
    if next.To? { ClimbEnds(k, p, limit, next.pos, run, complete, full); }
  }

  lemma VisitStep(g: Graph, w: Watch, p: Pos, limit: nat, done: seq<Pos>, q: Pos, n: nat)
    requires n > 0 && Visited(g, p, limit, done, To(q), n)
    ensures Visited(g, p, limit, done + [q], Above(g, q), n - 1)
    ensures AnyWatched(g, w, done + [q]) <==> AnyWatched(g, w, done) || Watched(g, w, q.d)
  {
    var rest := if Above(g, q).Top? then [] else Chain(g, Above(g, q).pos, n - 1);
    assert Chain(g, q, n) == [q] + rest;
    Onwards(done, q, rest);
    OneMoreWatched(g, w, done, q);
  }

  lemma Onwards(done: seq<Pos>, q: Pos, rest: seq<Pos>)
    ensures done + ([q] + rest) == (done + [q]) + rest
  {
  }

  lemma OneMoreWatched(g: Graph, w: Watch, done: seq<Pos>, q: Pos)
    ensures AnyWatched(g, w, done + [q]) <==> AnyWatched(g, w, done) || Watched(g, w, q.d)
  {
    assert (done + [q])[|done|] == q;
    if AnyWatched(g, w, done) {
      var j :| 0 <= j < |done| && Watched(g, w, done[j].d);
      assert (done + [q])[j] == done[j];
    }
  }

  lemma VisitEnds(g: Graph, w: Watch, p: Pos, limit: nat, done: seq<Pos>, next: Up, n: nat)
    requires Visited(g, p, limit, done, next, n) && (next.Top? || n == 0)
    ensures MatchesWithin(g, w, p, limit) <==> AnyWatched(g, w, done)
  {
    assert Chain(g, p, limit) == done;
  }

  lemma ClimbStarts(k: Kernel, p: Pos, limit: nat)
    ensures OnTheWay(k, p, limit, [], To(p), limit, [], false, false)
  {
    assert [] + Below(k.g, k.name, k.root, p, limit) == Below(k.g, k.name, k.root, p, limit);
    assert [] + Chain(k.g, p, limit) == Chain(k.g, p, limit);
  }

  /** Where a walk from `p` stands at `q` with `n` steps left. */
  ghost predicate Climbing(k: Kernel, p: Pos, limit: nat, q: Pos, n: nat,
                           run: seq<seq<Byte>>, complete: bool, full: bool) {
    var names := Below(k.g, k.name, k.root, p, limit);
    var seen := TaskPath(k.g, k.name, k.root, p, limit);
    && run <= names && Fits(run)
    && (!full ==> !complete && names == run + Below(k.g, k.name, k.root, q, n))
    && (!full ==> (seen.Path? <==> TaskPath(k.g, k.name, k.root, q, n).Path?))
    && (full && complete ==> run == names && seen.Path?)
    && (full && !complete ==> |run| < |names| && !Fits(names[..|run| + 1]))
  }

  /** Where it ends: complete exactly when the root was met and every name fitted. */
  ghost predicate Climbed(k: Kernel, p: Pos, limit: nat, run: seq<seq<Byte>>, complete: bool) {
    var names := Below(k.g, k.name, k.root, p, limit);
    && run <= names && Fits(run)
    && (complete <==> TaskPath(k.g, k.name, k.root, p, limit).Path? && Fits(names))
    && (complete ==> run == names)
    && (|run| < |names| ==> !Fits(names[..|run| + 1]))
  }

  lemma ClimbEnds(k: Kernel, p: Pos, limit: nat, q: Pos, run: seq<seq<Byte>>, complete: bool, full: bool)
    requires Climbing(k, p, limit, q, 0, run, complete, full)
    ensures Climbed(k, p, limit, run, complete)
  {
    Blocked(Below(k.g, k.name, k.root, p, limit), |run|);
  }

  /** Once a run does not fit, no longer one does. */
  lemma Blocked(names: seq<seq<Byte>>, k: nat)
    requires k <= |names|
    ensures k < |names| && !Fits(names[..k + 1]) ==> !Fits(names)
  {
    if k < |names| { RenderGrows(names, k + 1); }
  }

  lemma ClimbStep(k: Kernel, p: Pos, limit: nat, q: Pos, n: nat, run: seq<seq<Byte>>, complete: bool, full: bool,
                  run': seq<seq<Byte>>, complete': bool, full': bool)
    requires n > 0 && Climbing(k, p, limit, q, n, run, complete, full) && Fits(run')
    requires Stepped(k, q, run, complete, full, run', complete', full')
    ensures match Above(k.g, q)
            case Top => Climbed(k, p, limit, run', complete')
            case To(u) => Climbing(k, p, limit, u, n - 1, run', complete', full')
  {
    if full {
      Blocked(Below(k.g, k.name, k.root, p, limit), |run|);
    } else if q == k.root || Above(k.g, q).Top? {
      assert run + [] == run;
    } else if AtMountRoot(k.g, q) {
      assert [] + Below(k.g, k.name, k.root, Above(k.g, q).pos, n - 1)
             == Below(k.g, k.name, k.root, Above(k.g, q).pos, n - 1);
    } else {
      NameStep(k, p, limit, q, n, run, run', complete', full');
    }
  }

  /** A step that adds a name, or stops at one that does not fit. */
  lemma NameStep(k: Kernel, p: Pos, limit: nat, q: Pos, n: nat, run: seq<seq<Byte>>,
                 run': seq<seq<Byte>>, complete': bool, full': bool)
    requires n > 0 && Climbing(k, p, limit, q, n, run, false, false) && Fits(run')
    requires q != k.root && Above(k.g, q).To? && !AtMountRoot(k.g, q)
    requires Stepped(k, q, run, false, false, run', complete', full')
    ensures Climbing(k, p, limit, Above(k.g, q).pos, n - 1, run', complete', full')
  {
    var names := Below(k.g, k.name, k.root, p, limit);
    var x, rest := k.name(q.d), Below(k.g, k.name, k.root, Above(k.g, q).pos, n - 1);
    assert names == run + ([x] + rest) == (run + [x]) + rest;
    assert names[..|run| + 1] == run + [x];
  }

  // ---- the hooks' use of the walk

  /** The path fields of a record; each path is `PATH_CAP` bytes. */
  class PathFields {
    const path: array<Byte>
    const oldPath: array<Byte>
    var pathLen: nat
    var oldPathLen: nat
    var pathTruncated: bool
    var oldPathTruncated: bool

    ghost predicate Apart(s: Scratch) {
      && path.Length == PATH_CAP && oldPath.Length == PATH_CAP
      && path != oldPath && path != s.buf && oldPath != s.buf
    }

    constructor ()
      ensures path.Length == PATH_CAP && oldPath.Length == PATH_CAP && path != oldPath && fresh(path) && fresh(oldPath)
    {
      path, oldPath := new Byte[PATH_CAP](_ => 0), new Byte[PATH_CAP](_ => 0);
      pathLen, oldPathLen, pathTruncated, oldPathTruncated := 0, 0, false, false;
    }
  }

  /** `a` is exactly the reported path of `p`, zero past its length. */
  ghost predicate Holds(k: Kernel, p: Pos, a: seq<Byte>, len: nat, truncated: bool) {
    && len <= |a| && Shows(k.g, k.name, k.root, p, a[..len], truncated)
    && forall i :: len <= i < |a| ==> a[i] == 0
  }

  /** `stage_one`: one walk; the unused second path is copied from the zero half. */
  method WalkOne(s: Scratch, rec: PathFields, k: Kernel, p: Pos) returns (matched: bool)
    requires s.Clean() && rec.Apart(s)
    modifies s, s.buf, rec, rec.path, rec.oldPath
    ensures s.Clean()
    ensures matched <==> UnderWatch(k.g, k.watch, p)
    ensures Holds(k, p, rec.path[..], rec.pathLen, rec.pathTruncated)
    ensures matched ==> rec.oldPathLen == 0 && !rec.oldPathTruncated
    ensures matched ==> forall i :: 0 <= i < PATH_CAP ==> rec.oldPath[i] == 0
  {
    s.Begin(k);
    rec.pathLen, rec.pathTruncated := s.Walk(k, p, rec.path);
    assert rec.path[..][..rec.pathLen] == rec.path[..rec.pathLen];
    matched := s.matched;
    if !matched { return; }
    rec.oldPathLen, rec.oldPathTruncated := 0, false;
    s.CopyZeros(rec.oldPath);
  }

  /** `kp_path_rename`: two walks through one buffer; a match on either side counts. */
  method WalkRename(s: Scratch, rec: PathFields, k: Kernel, to: Pos, from: Pos) returns (matched: bool)
    requires s.Clean() && rec.Apart(s)
    modifies s, s.buf, rec, rec.path, rec.oldPath
    ensures s.Clean()
    ensures matched <==> UnderWatch(k.g, k.watch, to) || UnderWatch(k.g, k.watch, from)
    ensures Holds(k, to, rec.path[..], rec.pathLen, rec.pathTruncated)
    ensures Holds(k, from, rec.oldPath[..], rec.oldPathLen, rec.oldPathTruncated)
  {
    s.Begin(k);
    rec.pathLen, rec.pathTruncated := s.Walk(k, to, rec.path);
    assert rec.path[..][..rec.pathLen] == rec.path[..rec.pathLen];
    rec.oldPathLen, rec.oldPathTruncated := s.Walk(k, from, rec.oldPath);
    assert rec.oldPath[..][..rec.oldPathLen] == rec.oldPath[..rec.oldPathLen];
    matched := s.matched;
  }

  /** One hook's operands. */
  datatype Job = One(k: Kernel, p: Pos) | Rename(k: Kernel, to: Pos, from: Pos)

  /** The two path fields of a finished record. */
  datatype Fields = Fields(
    path: seq<Byte>, len: nat, truncated: bool,
    oldPath: seq<Byte>, oldLen: nat, oldTruncated: bool)

  predicate Blank(a: seq<Byte>) { |a| == PATH_CAP && forall i :: 0 <= i < |a| ==> a[i] == 0 }

  ghost predicate Answers(j: Job, matched: bool, f: Fields) {
    match j
    case One(k, p) =>
      && (matched <==> UnderWatch(k.g, k.watch, p))
      && Holds(k, p, f.path, f.len, f.truncated)
      && (matched ==> f.oldLen == 0 && Blank(f.oldPath))
    case Rename(k, to, from) =>
      && (matched <==> UnderWatch(k.g, k.watch, to) || UnderWatch(k.g, k.watch, from))
      && Holds(k, to, f.path, f.len, f.truncated) && Holds(k, from, f.oldPath, f.oldLen, f.oldTruncated)
  }

  /** One hook's use of the scratch area, whichever it is. */
  method WalkJob(s: Scratch, rec: PathFields, job: Job) returns (matched: bool, f: Fields)
    requires s.Clean() && rec.Apart(s)
    modifies s, s.buf, rec, rec.path, rec.oldPath
    ensures s.Clean() && AllAnswered([job], [(matched, f)])
  {
    match job {
      case One(k, p) => matched := WalkOne(s, rec, k, p);
      case Rename(k, to, from) => matched := WalkRename(s, rec, k, to, from);
    }
    f := Fields(rec.path[..], rec.pathLen, rec.pathTruncated, rec.oldPath[..], rec.oldPathLen, rec.oldPathTruncated);
    assert Answers(job, matched, f);
  }

  /**
   Any sequence of walks on one CPU, all through the same scratch area and record:
   each record is determined by its own operands, so nothing leaks from one to another.
   */
  method WalkAll(s: Scratch, rec: PathFields, jobs: seq<Job>) returns (out: seq<(bool, Fields)>)
    requires s.Clean() && rec.Apart(s)
    modifies s, s.buf, rec, rec.path, rec.oldPath
    ensures s.Clean()
    ensures |out| == |jobs| && AllAnswered(jobs, out)
  {
    out := [];
    for i := 0 to |jobs|
      invariant s.Clean()
      invariant |out| == i && AllAnswered(jobs[..i], out)
    {
      var matched, f := WalkJob(s, rec, jobs[i]);
      MoreAnswers(jobs[..i], out, [jobs[i]], [(matched, f)]);
      out := out + [(matched, f)];
      assert jobs[..i + 1] == jobs[..i] + [jobs[i]];
    }
    assert jobs[..|jobs|] == jobs;
  }

  ghost predicate AllAnswered(jobs: seq<Job>, out: seq<(bool, Fields)>) {
    |out| == |jobs| && forall i :: 0 <= i < |jobs| ==> AnswersAt(jobs, out, i)
  }

  ghost predicate AnswersAt(jobs: seq<Job>, out: seq<(bool, Fields)>, i: nat)
    requires i < |jobs| && i < |out|
  {
    Answers(jobs[i], out[i].0, out[i].1)
  }

  lemma MoreAnswers(a: seq<Job>, x: seq<(bool, Fields)>, b: seq<Job>, y: seq<(bool, Fields)>)
    requires AllAnswered(a, x) && AllAnswered(b, y)
    ensures AllAnswered(a + b, x + y)
  {
    forall i: nat | i < |a + b| ensures AnswersAt(a + b, x + y, i) {
      if i < |a| { assert AnswersAt(a, x, i); } else { assert AnswersAt(b, y, i - |a|); }
    }
  }
}
