/**
 The stage / clear / emit machine of the filesystem program, as a step function over
 the hooks and tracepoints of all threads.  Each program run is one step.
 */
module StagingSpec {
  type Thread = nat

  datatype Kind = Create | Write | Delete | Rename
  datatype Inode = NoInode | Inode(dev: nat, ino: nat, mode: nat, uid: nat, gid: nat)
  datatype Rec = Rec(kind: Kind, path: seq<bv8>, oldPath: seq<bv8>, inode: Inode)

  /** What the kernel answers to the map insert: success, or a full map. */
  datatype Insert = Stored | NoRoom

  datatype Step =
    | Enter(t: Thread)
    /** mknod, mkdir, unlink, rmdir, rename, truncate: `rec` is what the walk built. */
    | Hook(t: Thread, agent: bool, matched: bool, rec: Rec, insert: Insert)
    /** security_file_open; `rec.inode` is the opened inode. */
    | Open(t: Thread, agent: bool, writing: bool, regular: bool, matched: bool, rec: Rec, insert: Insert)
    | Exit(t: Thread, ret: int, reserved: bool, copied: bool)
    | Die(t: Thread)

  datatype Fate = Emitted | Dropped | SyscallFailed | Cleared

  /** A staged record and the number of the step that staged it. */
  datatype Entry = Entry(rec: Rec, tag: nat)

  datatype Event = Event(t: Thread, rec: Rec, ret: int, tag: nat)

  datatype State = State(pending: map<Thread, Entry>, drops: nat, events: seq<Event>, fates: map<nat, Fate>, clock: nat)

  const Init := State(map[], 0, [], map[], 0)

  /** This step builds a record and its insert succeeds, unless one is staged already. */
  predicate Inserts(e: Step) {
    (e.Hook? || (e.Open? && e.writing && e.regular)) && !e.agent && e.matched && e.insert.Stored?
  }

  predicate NoPlace(e: Step) {
    (e.Hook? || (e.Open? && e.writing && e.regular)) && !e.agent && e.matched && e.insert.NoRoom?
  }

  /** A step that ends whatever the thread has staged. */
  predicate Ends(e: Step, t: Thread) { (e.Enter? || e.Exit? || e.Die?) && e.t == t }

  function FateAt(e: Step): Fate
    requires e.Enter? || e.Exit? || e.Die?
  {
    if !e.Exit? then Cleared
    else if e.ret < 0 then SyscallFailed
    else if e.reserved && e.copied then Emitted
    else Dropped
  }

  /** An open of the file just created may only add the inode. */
  function Filled(r: Rec, e: Step, t: Thread): Rec {
    if e.Open? && e.t == t && e.writing && e.regular && r.kind == Create && r.inode == NoInode
    then r.(inode := e.rec.inode) else r
  }

  function Next(s: State, e: Step): State {
    var s := s.(clock := s.clock + 1);
    if e.Hook? || e.Open? then
      if e.t in s.pending then
        s.(pending := s.pending[e.t := s.pending[e.t].(rec := Filled(s.pending[e.t].rec, e, e.t))])
      else if Inserts(e) then s.(pending := s.pending[e.t := Entry(e.rec, s.clock - 1)])
      else if NoPlace(e) then s.(drops := s.drops + 1)
      else s
    else if e.t !in s.pending then s
    else
      var x := s.pending[e.t];
      State(s.pending - {e.t},
            if FateAt(e) == Dropped then s.drops + 1 else s.drops,
            if FateAt(e) == Emitted then s.events + [Event(e.t, x.rec, e.ret, x.tag)] else s.events,
            s.fates[x.tag := FateAt(e)], s.clock)
  }

  function Run(tr: seq<Step>): State {
    if tr == [] then Init else Next(Run(tr[..|tr| - 1]), tr[|tr| - 1])
  }

  // ---- what a trace says, without the machine

  /** The step of `t` that staged what is pending for it after `tr`, if any. */
  function FirstInsert(tr: seq<Step>, t: Thread): int {
    if tr == [] then -1
    else
      var n := |tr| - 1;
      var h := FirstInsert(tr[..n], t);
      if Ends(tr[n], t) then -1
      else if h >= 0 then h
      else if tr[n].t == t && Inserts(tr[n]) then n
      else -1
  }

  /** `h` is the first insert of `t` since its last boundary before `i`. */
  ghost predicate IsFirst(tr: seq<Step>, t: Thread, h: int, i: nat)
    requires i <= |tr|
  {
    && 0 <= h < i && tr[h].t == t && Inserts(tr[h])
    && (forall g :: h < g < i ==> !Ends(tr[g], t))
    && forall g :: 0 <= g < h && tr[g].t == t && Inserts(tr[g]) ==> exists b :: g < b < h && Ends(tr[b], t)
  }

  /** The record staged at `h` as the opens of `t` in `w` left it. */
  function FilledBy(r: Rec, w: seq<Step>, t: Thread): Rec {
    if w == [] then r else Filled(FilledBy(r, w[..|w| - 1], t), w[|w| - 1], t)
  }

  /** The last boundary of `t` before `i` is its enter at `j`; so it is for the exit of a call seen from its start. */
  ghost predicate EnteredAt(tr: seq<Step>, t: Thread, j: int, i: int) {
    && 0 <= j < i <= |tr| && tr[j] == Enter(t)
    && forall g :: j < g < i ==> !Ends(tr[g], t)
  }

  // ---- the machine against the trace

  lemma {:induction false} ClockIsLength(tr: seq<Step>)
    ensures Run(tr).clock == |tr|
  {
    if tr != [] { ClockIsLength(tr[..|tr| - 1]); }
  }

  lemma {:induction false} FirstInsertIsFirst(tr: seq<Step>, t: Thread)
    ensures FirstInsert(tr, t) >= 0 ==> IsFirst(tr, t, FirstInsert(tr, t), |tr|)
    ensures FirstInsert(tr, t) < 0 ==>
      forall g :: 0 <= g < |tr| && tr[g].t == t && Inserts(tr[g]) ==> exists b :: g < b < |tr| && Ends(tr[b], t)
  {
    if tr != [] {
      var n := |tr| - 1;
      var h := FirstInsert(tr[..n], t);
      FirstInsertIsFirst(tr[..n], t);
      var prev := tr[..n];
      assert forall g :: 0 <= g < n ==> prev[g] == tr[g];
      if Ends(tr[n], t) {
      } else if h >= 0 {
        assert IsFirst(prev, t, h, n);
        forall g | 0 <= g < h && tr[g].t == t && Inserts(tr[g]) ensures exists b :: g < b < h && Ends(tr[b], t) {
          var b :| g < b < h && Ends(prev[b], t);
        }
      } else {
        forall g | 0 <= g < n && tr[g].t == t && Inserts(tr[g]) ensures exists b :: g < b < n && Ends(tr[b], t) {
          assert prev[g] == tr[g];
          var b :| g < b < n && Ends(prev[b], t);
          assert Ends(tr[b], t);
        }
      }
    }
  }

  lemma {:induction false} PendingTag(tr: seq<Step>, t: Thread)
    ensures t in Run(tr).pending <==> FirstInsert(tr, t) >= 0
    ensures t in Run(tr).pending ==>
      var h := FirstInsert(tr, t);
      h < |tr| && Run(tr).pending[t].tag == h && tr[h].t == t && (tr[h].Hook? || tr[h].Open?)
  {
    if tr != [] {
      PendingTag(tr[..|tr| - 1], t);
      ClockIsLength(tr[..|tr| - 1]);
    }
  }

  /** What is pending for a thread is decided by that thread's own steps. */
  lemma {:induction false} PendingIsFirst(tr: seq<Step>, t: Thread)
    ensures t in Run(tr).pending <==> FirstInsert(tr, t) >= 0
    ensures t in Run(tr).pending ==>
      var h := FirstInsert(tr, t);
      0 <= h < |tr| && Run(tr).pending[t].tag == h && tr[h].t == t &&
      (tr[h].Hook? || tr[h].Open?) && Run(tr).pending[t].rec == FilledBy(tr[h].rec, tr[h + 1..], t)
  {
    PendingTag(tr, t);
    if tr != [] && t in Run(tr).pending {
      var n := |tr| - 1;
      var prev := tr[..n];
      PendingTag(prev, t);
      if t in Run(prev).pending {
        PendingIsFirst(prev, t);
        var h := FirstInsert(prev, t);
        assert tr[h + 1..][..n - h - 1] == prev[h + 1..];
        assert tr[h] == prev[h];
      }
    }
  }

  /** An open of `t` that can tell the inode of a file just created. */
  predicate TellsInode(e: Step, t: Thread) { e.Open? && e.t == t && e.writing && e.regular && e.rec.inode != NoInode }

  /** The first of them. */
  ghost predicate FirstTelling(w: seq<Step>, t: Thread, o: int) {
    0 <= o < |w| && TellsInode(w[o], t) && forall g :: 0 <= g < o ==> !TellsInode(w[g], t)
  }

  /** Opens after the staging hook add the inode to a CREATE without one, the first that has it; and nothing else. */
  lemma {:induction false} OnlyInodeAdded(r: Rec, w: seq<Step>, t: Thread)
    ensures r.kind != Create || r.inode != NoInode || (forall o :: 0 <= o < |w| ==> !TellsInode(w[o], t)) ==>
      FilledBy(r, w, t) == r
    ensures forall o :: r.kind == Create && r.inode == NoInode && FirstTelling(w, t, o) ==>
      FilledBy(r, w, t) == r.(inode := w[o].rec.inode)
  {
    if w != [] {
      var n := |w| - 1;
      var prev := w[..n];
      OnlyInodeAdded(r, prev, t);
      assert forall g :: 0 <= g < n ==> prev[g] == w[g];
      forall o | r.kind == Create && r.inode == NoInode && FirstTelling(w, t, o)
        ensures FilledBy(r, w, t) == r.(inode := w[o].rec.inode)
      {
        if o < n { assert FirstTelling(prev, t, o); }
      }
    }
  }

  // ---- theorems over all traces

  /** What the exit at `i` reports: the first successful insert since the thread's last boundary. */
  ghost predicate ReportedAt(tr: seq<Step>, i: nat, h: int, ev: Event)
    requires i < |tr|
  {
    var t := tr[i].t;
    && IsFirst(tr, t, h, i)
    && ev.t == t && ev.tag == h
    && (ev.rec == tr[h].rec
        || exists o :: FillsAt(tr, t, h, o, i) && ev.rec == tr[h].rec.(inode := tr[o].rec.inode))
    && (ev.rec == tr[h].rec ==> forall o :: !FillsAt(tr, t, h, o, i))
  }

  /** The open at `o` is the first after `h` to tell the inode of the file that the CREATE staged at `h` lacks. */
  ghost predicate FillsAt(tr: seq<Step>, t: Thread, h: int, o: int, i: nat)
    requires 0 <= h < i <= |tr| && (tr[h].Hook? || tr[h].Open?)
  {
    && tr[h].rec.kind == Create && tr[h].rec.inode == NoInode
    && h < o < i && TellsInode(tr[o], t) && forall g :: h < g < o ==> !TellsInode(tr[g], t)
  }

  /** Some hook of the exiting thread inserted since its last boundary. */
  ghost predicate HookedBefore(tr: seq<Step>, i: nat)
    requires i < |tr|
  {
    exists h :: HookedAt(tr, i, h)
  }

  ghost predicate HookedAt(tr: seq<Step>, i: nat, h: int)
    requires i < |tr|
  {
    && 0 <= h < i && tr[h].t == tr[i].t
    && (tr[h].Hook? || (tr[h].Open? && tr[h].writing && tr[h].regular))
    && !tr[h].agent && tr[h].matched && tr[h].insert.Stored?
    && forall g :: h < g < i ==> !((tr[g].Enter? || tr[g].Exit? || tr[g].Die?) && tr[g].t == tr[i].t)
  }

  ghost predicate Reported(tr: seq<Step>, i: nat, ev: Event)
    requires i < |tr|
  {
    exists h :: ReportedAt(tr, i, h, ev)
  }

  /**
   In every run: an exit adds an event exactly when the call succeeded, the ring
   buffer took the record, and some hook of that thread inserted since its last boundary, which
   is its enter if that was seen; it is then one event, with the kind and paths of the first such
   hook.
   */
  lemma EventsAreFirstHooks(tr: seq<Step>, i: nat)
    requires i < |tr| && tr[i].Exit?
    ensures HookedBefore(tr, i) && tr[i].ret >= 0 && tr[i].reserved && tr[i].copied ==>
      exists ev :: Run(tr[..i + 1]).events == Run(tr[..i]).events + [ev] && ev.ret == tr[i].ret && Reported(tr, i, ev)
    ensures !(HookedBefore(tr, i) && tr[i].ret >= 0 && tr[i].reserved && tr[i].copied) ==>
      Run(tr[..i + 1]).events == Run(tr[..i]).events
  {
    var t, prev := tr[i].t, tr[..i];
    assert tr[..i + 1][..i] == prev && tr[..i + 1][i] == tr[i];
    PendingIsFirst(prev, t);
    var h := FirstInsert(prev, t);
    HookedMeansPending(tr, i);
    if h >= 0 && FateAt(tr[i]) == Emitted {
      var ev := Event(t, Run(prev).pending[t].rec, tr[i].ret, h);
      assert Run(tr[..i + 1]).events == Run(prev).events + [ev];
      PendingIsReported(tr, i, ev);
    }
  }

  /** And no other step adds one. */
  lemma OnlyExitsEmit(tr: seq<Step>, i: nat)
    requires i < |tr| && !tr[i].Exit?
    ensures Run(tr[..i + 1]).events == Run(tr[..i]).events
  {
    assert tr[..i + 1][..i] == tr[..i];
  }

  lemma HookedMeansPending(tr: seq<Step>, i: nat)
    requires i < |tr| && tr[i].Exit?
    ensures HookedBefore(tr, i) <==> FirstInsert(tr[..i], tr[i].t) >= 0
  {
    var t, prev := tr[i].t, tr[..i];
    FirstInsertIsFirst(prev, t);
    var h := FirstInsert(prev, t);
    assert forall g :: 0 <= g < i ==> prev[g] == tr[g];
    if h >= 0 { assert HookedAt(tr, i, h); }
    if HookedBefore(tr, i) {
      var k :| HookedAt(tr, i, k);
      assert prev[k].t == t && Inserts(prev[k]);
    }
  }

  lemma FirstInPrefix(tr: seq<Step>, t: Thread, h: int, i: nat)
    requires i <= |tr| && IsFirst(tr[..i], t, h, i)
    ensures IsFirst(tr, t, h, i)
  {
    var prev := tr[..i];
    assert forall g :: 0 <= g < i ==> prev[g] == tr[g];
    forall g | 0 <= g < h && tr[g].t == t && Inserts(tr[g]) ensures exists b :: g < b < h && Ends(tr[b], t) {
      assert prev[g] == tr[g];
      var b :| g < b < h && Ends(prev[b], t);
      assert Ends(tr[b], t);
    }
  }

  /** What the opens between `h` and `i` make of the record staged at `h`. */
  lemma FilledExactly(tr: seq<Step>, t: Thread, h: int, i: nat)
    requires 0 <= h < i <= |tr| && (tr[h].Hook? || tr[h].Open?)
    ensures var r := FilledBy(tr[h].rec, tr[..i][h + 1..], t);
      && (r == tr[h].rec || exists o :: FillsAt(tr, t, h, o, i) && r == tr[h].rec.(inode := tr[o].rec.inode))
      && (r == tr[h].rec ==> forall o :: !FillsAt(tr, t, h, o, i))
  {
    var w := tr[..i][h + 1..];
    OnlyInodeAdded(tr[h].rec, w, t);
    assert forall g :: 0 <= g < |w| ==> w[g] == tr[h + 1 + g];
    forall o | FillsAt(tr, t, h, o, i) ensures FilledBy(tr[h].rec, w, t) == tr[h].rec.(inode := tr[o].rec.inode) {
      TellingInWindow(tr, w, t, h, o);
    }
    if !(forall o :: 0 <= o < |w| ==> !TellsInode(w[o], t)) {
      var o := FindTelling(w, t);
      if tr[h].rec.kind == Create && tr[h].rec.inode == NoInode { WindowFills(tr, w, t, h, o, i); }
    }
  }

  lemma TellingInWindow(tr: seq<Step>, w: seq<Step>, t: Thread, h: int, o: int)
    requires 0 <= h && |w| + h + 1 <= |tr| && forall g :: 0 <= g < |w| ==> w[g] == tr[h + 1 + g]
    requires h < o < h + 1 + |w| && TellsInode(tr[o], t) && forall g :: h < g < o ==> !TellsInode(tr[g], t)
    ensures FirstTelling(w, t, o - h - 1) && w[o - h - 1] == tr[o]
  {
  }

  lemma WindowFills(tr: seq<Step>, w: seq<Step>, t: Thread, h: int, o: int, i: nat)
    requires 0 <= h < i <= |tr| && (tr[h].Hook? || tr[h].Open?) && i == h + 1 + |w|
    requires forall g :: 0 <= g < |w| ==> w[g] == tr[h + 1 + g]
    requires FirstTelling(w, t, o) && tr[h].rec.kind == Create && tr[h].rec.inode == NoInode
    ensures FillsAt(tr, t, h, h + 1 + o, i)
  {
    forall g | h < g < h + 1 + o ensures !TellsInode(tr[g], t) { assert w[g - h - 1] == tr[g]; }
  }

  lemma {:induction false} FindTelling(w: seq<Step>, t: Thread) returns (o: int)
    requires exists k :: 0 <= k < |w| && TellsInode(w[k], t)
    ensures FirstTelling(w, t, o)
    decreases |w|
  {
    var n := |w| - 1;
    if k :| 0 <= k < n && TellsInode(w[..n][k], t) {
      o := FindTelling(w[..n], t);
      assert forall g :: 0 <= g < n ==> w[..n][g] == w[g];
    } else {
      o := n;
      assert forall g :: 0 <= g < n ==> w[..n][g] == w[g];
    }
  }

  lemma PendingIsReported(tr: seq<Step>, i: nat, ev: Event)
    requires i < |tr| && tr[i].Exit?
    requires var h := FirstInsert(tr[..i], tr[i].t);
             0 <= h < i && ev.t == tr[i].t && ev.tag == h && (tr[h].Hook? || tr[h].Open?) &&
             ev.rec == FilledBy(tr[h].rec, tr[..i][h + 1..], tr[i].t)
    ensures Reported(tr, i, ev)
  {
    var t, prev := tr[i].t, tr[..i];
    FirstInsertIsFirst(prev, t);
    var h := FirstInsert(prev, t);
    FirstInPrefix(tr, t, h, i);
    FilledExactly(tr, t, h, i);
    assert ReportedAt(tr, i, h, ev);
  }

  /** If the call was seen from its enter, that is where the first one is counted from. */
  lemma FirstSinceEnter(tr: seq<Step>, t: Thread, i: nat, j: int, h: int)
    requires EnteredAt(tr, t, j, i) && IsFirst(tr, t, h, i)
    ensures j < h && forall g :: j < g < h && tr[g].t == t ==> !Inserts(tr[g])
  {
    assert Ends(tr[j], t);
  }

  // ---- every staged entry ends in exactly one way

  /** Step `h` staged an entry. */
  predicate StagedAt(tr: seq<Step>, h: nat)
    requires h < |tr|
  {
    FirstInsert(tr[..h + 1], tr[h].t) == h
  }

  predicate StillPending(tr: seq<Step>, h: nat)
    requires h < |tr|
  {
    FirstInsert(tr, tr[h].t) == h
  }

  /** A later step changes nothing about a staging but ends it. */
  lemma EarlierStaged(tr: seq<Step>, h: nat)
    requires h < |tr| - 1
    ensures var n := |tr| - 1; var prev := tr[..n];
      && tr[h] == prev[h] && StagedAt(tr, h) == StagedAt(prev, h)
      && (StillPending(tr, h) <==> StillPending(prev, h) && !Ends(tr[n], tr[h].t))
  {
    assert tr[..h + 1] == tr[..|tr| - 1][..h + 1];
  }

  /** A boundary gives a fate to what is pending for its thread, and no other step gives one. */
  lemma FatesGrow(tr: seq<Step>, h: nat)
    requires tr != []
    ensures var n := |tr| - 1; var prev := tr[..n];
      h in Run(tr).fates <==>
      h in Run(prev).fates || (h < n && StillPending(prev, h) && Ends(tr[n], prev[h].t))
  {
    var n := |tr| - 1;
    var prev, e := tr[..n], tr[n];
    PendingTag(prev, e.t);
    if h < n && StillPending(prev, h) { PendingTag(prev, prev[h].t); }
  }

  /** What was staged has a fate or is still pending, never both; and nothing else has a fate. */
  lemma {:induction false} OneFate(tr: seq<Step>, h: nat)
    ensures h in Run(tr).fates <==> h < |tr| && StagedAt(tr, h) && !StillPending(tr, h)
    ensures h < |tr| && StillPending(tr, h) ==> StagedAt(tr, h)
  {
    if tr != [] {
      var n := |tr| - 1;
      OneFate(tr[..n], h);
      FatesGrow(tr, h);
      if h < n { EarlierStaged(tr, h); } else { assert tr[..n + 1] == tr; }
    }
  }

  ghost predicate FirstBoundary(tr: seq<Step>, h: nat, b: int)
    requires h < |tr|
  {
    h < b < |tr| && Ends(tr[b], tr[h].t) && forall g :: h < g < b ==> !Ends(tr[g], tr[h].t)
  }

  /** How a boundary decides: failed call, lost record, record submitted, or nothing to submit. */
  predicate Decided(tr: seq<Step>, b: int, f: Fate)
    requires 0 <= b < |tr|
  {
    && (f == SyscallFailed <==> tr[b].Exit? && tr[b].ret < 0)
    && (f == Emitted <==> tr[b].Exit? && tr[b].ret >= 0 && tr[b].reserved && tr[b].copied)
    && (f == Dropped <==> tr[b].Exit? && tr[b].ret >= 0 && !(tr[b].reserved && tr[b].copied))
    && (f == Cleared <==> tr[b].Enter? || tr[b].Die?)
  }

  lemma LastIsBoundary(tr: seq<Step>, h: nat)
    requires tr != [] && h < |tr| - 1 && StillPending(tr[..|tr| - 1], h) && Ends(tr[|tr| - 1], tr[h].t)
    ensures FirstBoundary(tr, h, |tr| - 1)
  {
    var prev := tr[..|tr| - 1];
    FirstInsertIsFirst(prev, tr[h].t);
    assert forall g :: h < g < |prev| ==> prev[g] == tr[g];
  }

  lemma FateStep(tr: seq<Step>, h: nat)
    requires tr != [] && h in Run(tr).fates
    ensures var n := |tr| - 1; var prev := tr[..n];
      || (h in Run(prev).fates && Run(tr).fates[h] == Run(prev).fates[h])
      || (h < n && StillPending(prev, h) && Ends(tr[n], tr[h].t) && Run(tr).fates[h] == FateAt(tr[n]))
  {
    var n := |tr| - 1;
    var prev, e := tr[..n], tr[n];
    OneFate(prev, h);
    PendingIsFirst(prev, e.t);
    if h < n { assert prev[h] == tr[h]; }
  }

  /** The thread's first boundary after the staging decides the fate, and nothing later changes it. */
  lemma {:induction false} FateIsFirstBoundary(tr: seq<Step>, h: nat)
    requires h in Run(tr).fates
    ensures h < |tr| && exists b :: FirstBoundary(tr, h, b) && Decided(tr, b, Run(tr).fates[h])
  {
    if tr != [] {
      var n := |tr| - 1;
      var prev := tr[..n];
      FateStep(tr, h);
      if h in Run(prev).fates && Run(tr).fates[h] == Run(prev).fates[h] {
        FateIsFirstBoundary(prev, h);
        var b :| FirstBoundary(prev, h, b) && Decided(prev, b, Run(prev).fates[h]);
        BoundaryStays(tr, h, b);
        assert Decided(tr, b, Run(tr).fates[h]);
      } else {
        LastIsBoundary(tr, h);
        assert Decided(tr, n, Run(tr).fates[h]);
      }
    }
  }

  lemma BoundaryStays(tr: seq<Step>, h: nat, b: int)
    requires tr != [] && h < |tr| - 1 && FirstBoundary(tr[..|tr| - 1], h, b)
    ensures FirstBoundary(tr, h, b) && tr[b] == tr[..|tr| - 1][b]
  {
    var prev := tr[..|tr| - 1];
    assert forall g :: 0 <= g < |prev| ==> prev[g] == tr[g];
  }

  function With(fates: map<nat, Fate>, f: Fate): set<nat> { set h | h in fates && fates[h] == f }

  predicate RefusedAt(tr: seq<Step>, i: nat)
    requires i < |tr|
  {
    && (tr[i].Hook? || (tr[i].Open? && tr[i].writing && tr[i].regular))
    && !tr[i].agent && tr[i].matched && tr[i].insert.NoRoom? && FirstInsert(tr[..i], tr[i].t) < 0
  }

  function Refused(tr: seq<Step>): set<nat> { set i | 0 <= i < |tr| && RefusedAt(tr, i) }

  /** The events are the emitted entries, and the drop counter counts every lost one once. */
  lemma {:induction false} Accounts(tr: seq<Step>)
    ensures |Run(tr).events| == |With(Run(tr).fates, Emitted)|
    ensures Run(tr).drops == |With(Run(tr).fates, Dropped)| + |Refused(tr)|
  {
    if tr != [] {
      var n := |tr| - 1;
      var prev, e := tr[..n], tr[n];
      Accounts(prev);
      PendingIsFirst(prev, e.t);
      RefusedGrows(tr);
      var s := Run(prev);
      if (e.Enter? || e.Exit? || e.Die?) && e.t in s.pending {
        var x := s.pending[e.t].tag;
        OneFate(prev, x);
        WithGrows(s.fates, x, FateAt(e), Emitted);
        WithGrows(s.fates, x, FateAt(e), Dropped);
      }
    }
  }

  lemma WithGrows(fates: map<nat, Fate>, x: nat, f: Fate, g: Fate)
    requires x !in fates
    ensures |With(fates[x := f], g)| == |With(fates, g)| + if f == g then 1 else 0
  {
    assert With(fates[x := f], g) == With(fates, g) + if f == g then {x} else {};
  }

  lemma RefusedGrows(tr: seq<Step>)
    requires tr != []
    ensures |Refused(tr)| == |Refused(tr[..|tr| - 1])| + if RefusedAt(tr, |tr| - 1) then 1 else 0
  {
    var n := |tr| - 1;
    var prev := tr[..n];
    forall i: nat | i < n ensures RefusedAt(tr, i) <==> RefusedAt(prev, i) {
      assert tr[..i] == prev[..i] && tr[i] == prev[i];
    }
    assert Refused(tr) == Refused(prev) + if RefusedAt(tr, n) then {n} else {};
  }
}

/** The programs themselves, over the PENDING and DROPS maps. */
module Staging {
  import opened StagingSpec

  class Tracer {
    var pending: map<Thread, Entry>
    var drops: nat
    var events: seq<Event>
    /** How each entry that is gone ended, and the number of steps so far. */
    ghost var fates: map<nat, Fate>
    var clock: nat

    ghost function State(): State
      reads this
    {
      StagingSpec.State(pending, drops, events, fates, clock)
    }

    constructor ()
      ensures State() == Init
    {
      pending, drops, events, fates, clock := map[], 0, [], map[], 0;
    }

    /** `stage_commit`: a failure other than "already staged" counts as a drop. */
    method Commit(t: Thread, rec: Rec, insert: Insert)
      modifies this
      ensures clock == old(clock) && events == old(events) && fates == old(fates)
      ensures t in old(pending) ==> pending == old(pending) && drops == old(drops)
      ensures t !in old(pending) ==>
        if insert.Stored? then pending == old(pending)[t := Entry(rec, clock)] && drops == old(drops)
        else pending == old(pending) && drops == old(drops) + 1
    {
      if t in pending { return; }
      if insert.NoRoom? { drops := drops + 1; } else { pending := pending[t := Entry(rec, clock)]; }
    }

    /** `stage_one` and the rename hook: the first hook of a call wins. */
    method Stage(t: Thread, agent: bool, matched: bool, rec: Rec, insert: Insert)
      modifies this
      ensures State() == Next(old(State()), Hook(t, agent, matched, rec, insert))
    {
      if !agent && t !in pending && matched { Commit(t, rec, insert); }
      assert t in old(pending) ==> pending == old(pending)[t := old(pending)[t]];
      clock := clock + 1;
    }

    /** `kp_file_open`. */
    method FileOpen(t: Thread, agent: bool, writing: bool, regular: bool, matched: bool, rec: Rec, insert: Insert)
      modifies this
      ensures State() == Next(old(State()), Open(t, agent, writing, regular, matched, rec, insert))
    {
      if writing && regular {
        if t !in pending {
          if !agent && matched { Commit(t, rec, insert); }
        } else {
          var staged := pending[t];
          if staged.rec.kind == Create && staged.rec.inode == NoInode {
            pending := pending[t := staged.(rec := staged.rec.(inode := rec.inode))];
          }
        }
      }
      assert t in old(pending) && pending == old(pending) ==> pending == old(pending)[t := old(pending)[t]];
      clock := clock + 1;
    }

    /** `on_enter` and `tp_task_exit`: forget whatever the thread has staged. */
    method Clear(t: Thread, die: bool)
      modifies this
      ensures State() == Next(old(State()), if die then Die(t) else Enter(t))
    {
      if t in pending { fates := fates[pending[t].tag := Cleared]; }
      pending := pending - {t};
      clock := clock + 1;
      assert t !in old(pending) ==> pending == old(pending);
    }

    /** `on_exit`: emit the staged record of a successful call; delete it in every case. */
    method OnExit(t: Thread, ret: int, reserved: bool, copied: bool)
      modifies this
      ensures State() == Next(old(State()), Exit(t, ret, reserved, copied))
    {
      clock := clock + 1;
      if t !in pending { return; }
      var staged := pending[t];
      if ret >= 0 {
        if !reserved {
          drops := drops + 1;
        } else if !copied {
          drops := drops + 1;
        } else {
          events := events + [Event(t, staged.rec, ret, staged.tag)];
        }
      }
      fates := fates[staged.tag := FateAt(Exit(t, ret, reserved, copied))];
      pending := pending - {t};
    }
  }
}
