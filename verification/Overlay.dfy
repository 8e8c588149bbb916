/**
 The persisted policy overlay.  As for the vault, names are journalled one operation at
 a time and a crash may bring back any namespace since the last commit; contents that
 were not synced can be anything after a crash.
 */
module OverlaySpec {
  import opened Options
  import opened PolicySpec

  type Ino = nat

  /** The two names involved: the overlay and its temporary file. */
  datatype Names = Names(overlay: Option<Ino>, tmp: Option<Ino>)

  /** A file holds a policy in JSON, or text that does not parse. */
  datatype Content = Whole(policy: Policy) | Partial

  datatype Disk = Disk(past: seq<Names>, cur: Names, data: map<Ino, Content>, synced: set<Ino>)
  {
    predicate Has(ns: Names) { ns == cur || ns in past }
    function Push(ns: Names): Disk { this.(past := past + [cur], cur := ns) }
    function Commit(): Disk { this.(past := []) }
  }

  /** `load_overlay`, with the default policy where there is none to load. */
  function Loaded(ns: Names, data: map<Ino, Content>): Policy {
    if ns.overlay.Some? && ns.overlay.value in data && data[ns.overlay.value].Whole?
       && data[ns.overlay.value].policy.Valid()
    then data[ns.overlay.value].policy
    else EMPTY
  }

  function Current(d: Disk): Policy { Loaded(d.cur, d.data) }

  ghost predicate CrashTo(d: Disk, e: Disk) {
    && e.past == [] && d.Has(e.cur)
    && e.data.Keys == d.data.Keys == e.synced
    && forall i :: i in d.synced && i in d.data ==> e.data[i] == d.data[i]
  }

  /** Whatever namespace comes back, its overlay is a synced, valid policy and is not the temporary file. */
  predicate SoundNames(d: Disk, ns: Names) {
    && (ns.overlay.Some? ==>
        var i := ns.overlay.value;
        && i in d.synced && i in d.data && d.data[i].Whole? && d.data[i].policy.Valid()
        && ns.tmp != Some(i) && d.cur.tmp != Some(i))
    && (ns.tmp.Some? ==> ns.tmp.value in d.data)
  }

  ghost predicate Sound(d: Disk) { forall ns :: d.Has(ns) ==> SoundNames(d, ns) }

  /** The policies a crash can bring back. */
  function Possible(d: Disk): set<Policy> {
    {Current(d)} + set ns | ns in d.past :: Loaded(ns, d.data)
  }

  // ---- what attempts to save make of that

  /** Which call of one save fails, if any does. */
  datatype Fault = NoFault | AtRemove | AtOpen | AtWrite | AtSync | AtRename

  datatype Attempt = Attempt(policy: Policy, fault: Fault)
  {
    /** The new policy is in place. */
    predicate Takes() { if policy.IsEmpty() then !fault.AtRemove? else fault.NoFault? || fault.AtRemove? }

    /** The temporary file is synced; there is none for the empty policy. */
    predicate Syncs() { !policy.IsEmpty() && (fault.NoFault? || fault.AtRemove? || fault.AtRename?) }
  }

  /** What a crash can bring back, and what is there without one. */
  datatype Outlook = Outlook(possible: set<Policy>, current: Policy)

  function OutlookOf(d: Disk): Outlook { Outlook(Possible(d), Current(d)) }

  function Tried(fsyncNames: bool, o: Outlook, t: Attempt): Outlook {
    var possible := if fsyncNames && t.Syncs() then {o.current} else o.possible;
    if t.Takes() then Outlook(possible + {t.policy}, t.policy) else Outlook(possible, o.current)
  }

  function TriedAll(fsyncNames: bool, o: Outlook, ts: seq<Attempt>): Outlook {
    if ts == [] then o else Tried(fsyncNames, TriedAll(fsyncNames, o, ts[..|ts| - 1]), ts[|ts| - 1])
  }

  /** The last attempt whose sync committed names, if any. */
  function LastCommit(fsyncNames: bool, ts: seq<Attempt>): (c: int)
    ensures -1 <= c < |ts|
  {
    if ts == [] then -1
    else if fsyncNames && ts[|ts| - 1].Syncs() then |ts| - 1
    else LastCommit(fsyncNames, ts[..|ts| - 1])
  }

  predicate TakenAt(ts: seq<Attempt>, i: nat, q: Policy)
    requires i < |ts|
  {
    ts[i].Takes() && ts[i].policy == q
  }

  /** `q` was saved since names were last committed, or was there at that moment. */
  ghost predicate ComesBack(fsyncNames: bool, o: Outlook, ts: seq<Attempt>, q: Policy) {
    var c := LastCommit(fsyncNames, ts);
    || (if c < 0 then q in o.possible else q == TriedAll(fsyncNames, o, ts[..c]).current)
    || exists i :: 0 <= i < |ts| && c <= i && TakenAt(ts, i, q)
  }

  lemma ComesBackSnoc(fsyncNames: bool, o: Outlook, ts: seq<Attempt>, q: Policy)
    requires ts != [] && !(fsyncNames && ts[|ts| - 1].Syncs())
    ensures var n := |ts| - 1;
      ComesBack(fsyncNames, o, ts, q) <==> ComesBack(fsyncNames, o, ts[..n], q) || TakenAt(ts, n, q)
  {
    var n := |ts| - 1;
    var prev, c := ts[..n], LastCommit(fsyncNames, ts);
    assert c == LastCommit(fsyncNames, prev) && (c >= 0 ==> ts[..c] == prev[..c]);
    forall i: nat | i < n ensures TakenAt(ts, i, q) == TakenAt(prev, i, q) { assert prev[i] == ts[i]; }
    if exists i :: 0 <= i < |prev| && c <= i && TakenAt(prev, i, q) {
      var i :| 0 <= i < |prev| && c <= i && TakenAt(prev, i, q);
      assert TakenAt(ts, i, q);
    }
  }

  /** After any attempts, failed ones included, a crash can bring back exactly these policies. */
  lemma {:induction false} PossibleExactly(fsyncNames: bool, o: Outlook, ts: seq<Attempt>, q: Policy)
    ensures q in TriedAll(fsyncNames, o, ts).possible <==> ComesBack(fsyncNames, o, ts, q)
  {
    if ts != [] {
      var n := |ts| - 1;
      PossibleExactly(fsyncNames, o, ts[..n], q);
      if fsyncNames && ts[n].Syncs() {
        assert LastCommit(fsyncNames, ts) == n;
        assert TakenAt(ts, n, q) <==> exists i :: 0 <= i < |ts| && n <= i && TakenAt(ts, i, q);
      } else {
        ComesBackSnoc(fsyncNames, o, ts, q);
      }
    }
  }

  /**
   "Old or new" after a save at the end of any attempts: exactly where its own sync commits names,
   or everything that could come back before is the old policy or the new one.
   */
  lemma OldOrNew(fsyncNames: bool, o: Outlook, ts: seq<Attempt>, t: Attempt)
    requires t.Takes()
    ensures var old_ := TriedAll(fsyncNames, o, ts).current;
      (forall q :: ComesBack(fsyncNames, o, ts + [t], q) ==> q == old_ || q == t.policy)
      <==> (fsyncNames && !t.policy.IsEmpty())
           || forall q :: ComesBack(fsyncNames, o, ts, q) ==> q == old_ || q == t.policy
  {
    var all, was := ts + [t], TriedAll(fsyncNames, o, ts);
    assert all[..|ts|] == ts;
    forall q
      ensures ComesBack(fsyncNames, o, all, q) <==> q in Tried(fsyncNames, was, t).possible
      ensures ComesBack(fsyncNames, o, ts, q) <==> q in was.possible
    {
      PossibleExactly(fsyncNames, o, all, q);
      PossibleExactly(fsyncNames, o, ts, q);
    }
  }

  /** Exactly these. */
  lemma CrashOutcomes(d: Disk, p: Policy)
    requires Sound(d)
    ensures p in Possible(d) <==> exists e :: CrashTo(d, e) && Current(e) == p
  {
    if p in Possible(d) {
      var ns :| d.Has(ns) && Loaded(ns, d.data) == p;
      var e := Disk([], ns, d.data, d.data.Keys);
      assert CrashTo(d, e) && Current(e) == p;
    }
    forall e | CrashTo(d, e) ensures Current(e) in Possible(d) {
      assert SoundNames(d, e.cur);
      assert Current(e) == Loaded(e.cur, d.data);
    }
  }

  /** After a crash the disk is sound again. */
  lemma CrashKeepsSound(d: Disk, e: Disk)
    requires Sound(d) && CrashTo(d, e)
    ensures Sound(e) && Possible(e) == {Current(e)}
  {
    assert SoundNames(d, e.cur);
  }
}

module Overlay {
  import opened Options
  import opened PolicySpec
  import opened OverlaySpec

  class Store {
    /** Whether syncing a file also commits the names of its volume; filesystems differ. */
    const fsyncNames: bool
    var disk: Disk
    var nextIno: Ino
    /** Every disk state so far, for what is said about crashes. */
    ghost var seen: seq<Disk>

    /** A store on the disk found at a start. */
    constructor (fsyncNames: bool, disk: Disk, nextIno: Ino)
      requires Sound(disk) && forall i :: i in disk.data ==> i < nextIno
      ensures Valid() && this.fsyncNames == fsyncNames && this.disk == disk && seen == [disk]
    {
      this.fsyncNames, this.disk, this.nextIno, seen := fsyncNames, disk, nextIno, [disk];
    }

    ghost predicate Valid()
      reads this
    {
      && Sound(disk) && (forall i :: i in disk.data ==> i < nextIno)
      && seen != [] && seen[|seen| - 1] == disk
    }

    /** Every disk since the beginning of the call can only bring back `allowed`. */
    ghost predicate SafeSince(n: nat, allowed: set<Policy>)
      reads this
    {
      n <= |seen| && forall k :: n <= k < |seen| ==> Sound(seen[k]) && Possible(seen[k]) <= allowed
    }

    method Set(d: Disk, ghost n: nat, ghost allowed: set<Policy>)
      requires SafeSince(n, allowed) && Sound(d) && Possible(d) <= allowed
      modifies this`disk, this`seen
      ensures disk == d && SafeSince(n, allowed) && seen == old(seen) + [d]
    {
      disk := d;
      seen := seen + [d];
    }

    /** Creates or truncates the temporary file; the overlay of no namespace is touched. */
    method OpenTmp(ghost n: nat, ghost allowed: set<Policy>) returns (t: Ino)
      requires Valid() && SafeSince(n, allowed) && Possible(disk) <= allowed
      modifies this
      ensures old(seen) <= seen
      ensures Valid() && SafeSince(n, allowed) && Possible(disk) == old(Possible(disk))
      ensures disk.cur == Names(old(disk.cur.overlay), Some(t)) && Current(disk) == old(Current(disk))
      ensures t in disk.data && disk.data[t] == Partial
    {
      if disk.cur.tmp.Some? {
        t := disk.cur.tmp.value;
        assert SoundNames(disk, disk.cur);
        var d := disk.(data := disk.data[t := Partial], synced := disk.synced - {t});
        TmpIsNoOverlay(disk, d, t);
        Set(d, n, allowed);
      } else {
        t := nextIno;
        var d := disk.Push(disk.cur.(tmp := Some(t))).(data := disk.data[t := Partial]);
        FreshTmp(disk, d, t);
        nextIno := nextIno + 1;
        Set(d, n, allowed);
      }
    }

    method WriteTmp(t: Ino, p: Policy, ghost n: nat, ghost allowed: set<Policy>)
      requires Valid() && SafeSince(n, allowed) && Possible(disk) <= allowed
      requires disk.cur.tmp == Some(t) && t in disk.data
      modifies this`disk, this`seen
      ensures old(seen) <= seen
      ensures Valid() && SafeSince(n, allowed)
      ensures Possible(disk) == old(Possible(disk)) && Current(disk) == old(Current(disk))
      ensures disk.cur == old(disk.cur) && t in disk.data && disk.data[t] == Whole(p)
    {
      var d := disk.(data := disk.data[t := Whole(p)], synced := disk.synced - {t});
      TmpIsNoOverlay(disk, d, t);
      Set(d, n, allowed);
    }

    method SyncTmp(t: Ino, ghost n: nat, ghost allowed: set<Policy>)
      requires Valid() && SafeSince(n, allowed) && Possible(disk) <= allowed && t in disk.data
      modifies this`disk, this`seen
      ensures old(seen) <= seen
      ensures Valid() && SafeSince(n, allowed) && Current(disk) == old(Current(disk))
      ensures Possible(disk) == if fsyncNames then {old(Current(disk))} else old(Possible(disk))
      ensures disk.cur == old(disk.cur) && disk.data == old(disk.data) && t in disk.synced
    {
      var d := disk.(synced := disk.synced + {t});
      Synced(disk, d, t);
      if fsyncNames {
        Committed(d);
        d := d.Commit();
      }
      Set(d, n, allowed);
    }

    method RenameTmp(t: Ino, p: Policy, ghost n: nat, ghost allowed: set<Policy>)
      requires Valid() && SafeSince(n, allowed) && Possible(disk) + {p} <= allowed && p.Valid()
      requires t in disk.synced && t in disk.data && disk.data[t] == Whole(p)
      modifies this`disk, this`seen
      ensures old(seen) <= seen
      ensures Valid() && SafeSince(n, allowed)
      ensures Current(disk) == p && Possible(disk) == old(Possible(disk)) + {p}
    {
      var d := disk.Push(Names(Some(t), None));
      Renamed(disk, d, t);
      Set(d, n, allowed);
    }

    /** The empty policy: remove the overlay, if there is one; nothing is synced. */
    method RemoveOverlay(fails: bool) returns (ok: bool)
      requires Valid()
      modifies this`disk, this`seen
      ensures old(seen) <= seen
      ensures Valid() && SafeSince(old(|seen|), old(Possible(disk)) + {EMPTY})
      ensures ok <==> !fails || old(disk.cur.overlay.None?)
      ensures ok ==> Current(disk) == EMPTY && Possible(disk) == old(Possible(disk)) + {EMPTY}
      ensures !ok ==> disk == old(disk)
    {
      if disk.cur.overlay.None? { return true; }
      if fails { return false; }
      var d := disk.Push(disk.cur.(overlay := None));
      Removed(disk, d);
      Set(d, |seen|, Possible(disk) + {EMPTY});
      return true;
    }

    /**
     `save_overlay`.  At every point a crash can bring back what it could before or the new policy;
     in the end, exactly what the attempt leaves possible.
     */
    method Save(p: Policy, fault: Fault) returns (ok: bool)
      requires Valid() && p.Valid()
      modifies this
      ensures old(seen) <= seen
      ensures Valid()
      ensures Current(disk) == if ok then p else old(Current(disk))
      ensures OutlookOf(disk) == Tried(fsyncNames, old(OutlookOf(disk)), Attempt(p, fault))
      ensures ok ==> Possible(disk) == if fsyncNames && !p.IsEmpty() then {old(Current(disk)), p}
                                       else old(Possible(disk)) + {p}
      ensures !ok ==> Possible(disk) == if fsyncNames && !p.IsEmpty() && fault.AtRename? then {old(Current(disk))}
                                        else old(Possible(disk))
      ensures SafeSince(old(|seen|), old(Possible(disk)) + {p})
      ensures ok <==> fault.NoFault? ||
                      (if p.IsEmpty() then !fault.AtRemove? || old(disk.cur.overlay.None?) else fault.AtRemove?)
    {
      if p.IsEmpty() {
        ok := RemoveOverlay(fault.AtRemove?);
        return;
      }
      ghost var n, allowed := |seen|, Possible(disk) + {p};
      if fault.AtOpen? { return false; }
      var t := OpenTmp(n, allowed);
      if fault.AtWrite? { return false; }
      WriteTmp(t, p, n, allowed);
      if fault.AtSync? { return false; }
      SyncTmp(t, n, allowed);
      if fault.AtRename? { return false; }
      RenameTmp(t, p, n, allowed);
      return true;
    }
  }

  predicate SameOverlays(d: Disk, e: Disk) { Possible(e) == Possible(d) && Current(e) == Current(d) }

  /** Changing the contents of the temporary file changes no overlay. */
  lemma TmpIsNoOverlay(d: Disk, e: Disk, t: Ino)
    requires Sound(d) && d.cur.tmp == Some(t) && t in d.data
    requires e == d.(data := e.data, synced := d.synced - {t}) && t in e.data && e.data == d.data[t := e.data[t]]
    ensures Sound(e) && SameOverlays(d, e)
  {
    forall ns | d.Has(ns) ensures SoundNames(e, ns) && Loaded(ns, e.data) == Loaded(ns, d.data) {
      assert SoundNames(d, ns);
    }
  }

  lemma Synced(d: Disk, e: Disk, t: Ino)
    requires Sound(d) && e == d.(synced := d.synced + {t})
    ensures Sound(e) && SameOverlays(d, e)
  {
    forall ns | d.Has(ns) ensures SoundNames(e, ns) {
      assert SoundNames(d, ns);
    }
  }

  lemma Committed(d: Disk)
    requires Sound(d)
    ensures Sound(d.Commit()) && Possible(d.Commit()) == {Current(d)} && Current(d.Commit()) == Current(d)
  {
    assert SoundNames(d, d.cur);
  }

  lemma FreshTmp(d: Disk, e: Disk, t: Ino)
    requires Sound(d) && t !in d.data
    requires e == d.Push(d.cur.(tmp := Some(t))).(data := d.data[t := Partial])
    ensures Sound(e) && SameOverlays(d, e)
  {
    forall ns | d.Has(ns) ensures SoundNames(e, ns) && Loaded(ns, e.data) == Loaded(ns, d.data) {
      assert SoundNames(d, ns);
    }
    assert Loaded(e.cur, e.data) == Loaded(d.cur, e.data);
    assert forall ns :: e.Has(ns) <==> d.Has(ns) || ns == e.cur;
  }

  lemma Removed(d: Disk, e: Disk)
    requires Sound(d) && e == d.Push(d.cur.(overlay := None))
    ensures Sound(e) && Possible(e) == Possible(d) + {EMPTY} && Current(e) == EMPTY
  {
    assert SoundNames(d, d.cur);
    forall ns | e.Has(ns) ensures SoundNames(e, ns) {
      if d.Has(ns) { assert SoundNames(d, ns); }
    }
  }

  lemma Renamed(d: Disk, e: Disk, t: Ino)
    requires Sound(d) && t in d.synced && t in d.data && d.data[t].Whole? && d.data[t].policy.Valid()
    requires e == d.Push(Names(Some(t), None))
    ensures Sound(e) && Possible(e) == Possible(d) + {d.data[t].policy} && Current(e) == d.data[t].policy
  {
    forall ns | e.Has(ns) ensures SoundNames(e, ns) {
      if d.Has(ns) { assert SoundNames(d, ns); }
    }
  }

  /**
   Two saves on a committed disk.  Where a sync does not commit names, or the second one only
   removes the overlay, three policies can come back; otherwise the last two.
   */
  method SaveTwice(store: Store, p: Policy, q: Policy)
    requires store.Valid() && store.disk.past == [] && p.Valid() && q.Valid()
    modifies store
    ensures Possible(store.disk)
            == if store.fsyncNames && !q.IsEmpty() then {p, q} else {old(Current(store.disk)), p, q}
  {
    var _ := store.Save(p, NoFault);
    var _ := store.Save(q, NoFault);
  }

  /** Any run of saves: what is there, and what a crash can bring back. */
  method SaveAll(store: Store, ts: seq<Attempt>)
    requires store.Valid() && forall i :: 0 <= i < |ts| ==> ts[i].policy.Valid()
    modifies store
    ensures store.Valid() && OutlookOf(store.disk) == TriedAll(store.fsyncNames, old(OutlookOf(store.disk)), ts)
    ensures forall q :: q in Possible(store.disk) <==>
                        ComesBack(store.fsyncNames, old(OutlookOf(store.disk)), ts, q)
  {
    for i := 0 to |ts|
      invariant store.Valid()
      invariant OutlookOf(store.disk) == TriedAll(store.fsyncNames, old(OutlookOf(store.disk)), ts[..i])
    {
      assert ts[..i + 1][..i] == ts[..i];
      var _ := store.Save(ts[i].policy, ts[i].fault);
    }
    assert ts[..|ts|] == ts;
    forall q ensures q in Possible(store.disk) <==> ComesBack(store.fsyncNames, old(OutlookOf(store.disk)), ts, q) {
      PossibleExactly(store.fsyncNames, old(OutlookOf(store.disk)), ts, q);
    }
  }
}
