/**
 How single filesystem operations keep what the vault promises.
 */
module VaultSteps {
  import opened CrashDisk
  import opened VaultSpec

  /**
   What is claimed of one file during one operation: with `mine`, that it is the
   file being quarantined under `id`; with `kept`, that its bytes were safe before.
   */
  datatype Claim = Claim(f: File, id: nat, digest: Data -> string, mine: bool, kept: bool, but: int)

  ghost predicate Pair(v: Namespace, o: Namespace, d: Disk, c: Claim) {
    && (c.mine || c.kept ==> c.f.path.Outside?)
    && (c.mine ==> Intact(v, o, d, c.f, c.id, c.digest))
    && (c.kept ==> Reachable(v, o, d, c.f, c.but) && Orderly(v, d))
  }

  ghost predicate Guard(d: Disk, c: Claim) {
    forall v, o :: d.vault.Has(v) && d.other.Has(o) ==> Pair(v, o, d, c)
  }

  ghost predicate Guarded(seen: set<Disk>, c: Claim) {
    forall d :: d in seen ==> Guard(d, c)
  }

  lemma Meaning(d: Disk, c: Claim)
    requires Guard(d, c)
    ensures c.mine ==> Safe(d, c.f, c.id, c.digest)
    ensures c.kept ==> KeptBut(d, c.f, c.but)
  {
    forall v, o | d.vault.Has(v) && d.other.Has(o)
      ensures c.mine ==> Intact(v, o, d, c.f, c.id, c.digest)
      ensures c.kept ==> Reachable(v, o, d, c.f, c.but) && Orderly(v, d)
    {
      assert Pair(v, o, d, c);
    }
  }

  /** Dropping the exception from a claim. */
  lemma Forget(d: Disk, c: Claim)
    requires Guard(d, c)
    ensures Guard(d, c.(but := -1))
  {
    forall v, o | d.vault.Has(v) && d.other.Has(o) ensures Pair(v, o, d, c.(but := -1)) {
      PairForgets(v, o, d, c);
    }
  }

  // ---- whole-disk steps

  /** A new namespace element is harmless if it is with every state of the other volume. */
  lemma Pushed(d: Disk, dev: Device, ns: Namespace, c: Claim)
    requires Guard(d, c)
    requires dev.VaultDevice? ==> forall o :: d.other.Has(o) ==> Pair(ns, o, d, c)
    requires dev.OtherDevice? ==> forall v :: d.vault.Has(v) ==> Pair(v, ns, d, c)
    ensures Guard(d.Push(dev, ns), c)
  {
    var e := d.Push(dev, ns);
    forall v, o | e.vault.Has(v) && e.other.Has(o) ensures Pair(v, o, e, c) {
      PairRetained(v, o, d, e, c);
    }
  }

  predicate Retains(d: Disk, e: Disk) {
    && d.synced <= e.synced
    && forall n :: n in d.synced && n in d.data ==> n in e.data && e.data[n] == d.data[n]
  }

  /** Syncs, commits and writes to files not yet synced only narrow what a crash can do. */
  lemma Narrowed(d: Disk, e: Disk, c: Claim)
    requires Guard(d, c) && Retains(d, e)
    requires forall v :: e.vault.Has(v) ==> d.vault.Has(v)
    requires forall o :: e.other.Has(o) ==> d.other.Has(o)
    ensures Guard(e, c)
  {
    forall v, o | e.vault.Has(v) && e.other.Has(o) ensures Pair(v, o, e, c) {
      assert Pair(v, o, d, c);
      PairRetained(v, o, d, e, c);
    }
  }

  // ---- one pair of namespaces

  predicate Keeps(v: Namespace, w: Namespace, p: Path) {
    p in v.names ==> p in w.names && w.names[p] == v.names[p]
  }

  lemma PairRetained(v: Namespace, o: Namespace, d: Disk, e: Disk, c: Claim)
    requires Pair(v, o, d, c) && Retains(d, e)
    ensures Pair(v, o, e, c)
  {
    if c.kept {
      StillReachable(v, o, d, v, o, e, c.f, c.but);
      forall i: nat | Blob(i) in v.names ensures HasRecord(v, e, i) { assert HasRecord(v, d, i); }
    }
  }

  lemma StillReachable(v: Namespace, o: Namespace, d: Disk, w: Namespace, u: Namespace, e: Disk, f: File, but: int)
    requires Reachable(v, o, d, f, but) && Retains(d, e)
    requires forall i: nat :: i != but ==> Keeps(v, w, Blob(i)) && Keeps(v, w, Sidecar(i))
    requires Keeps(v, w, f.path) && Keeps(o, u, f.path)
    ensures Reachable(w, u, e, f, but)
  {
    if !Holds(Home(v, o, f.path), f.path, d, f.content) {
      var i: nat :| i != but && Stored(v, d, f, i);
      assert Keeps(v, w, Blob(i)) && Keeps(v, w, Sidecar(i));
      assert Stored(w, e, f, i);
    }
  }

  /** A new file under a free name of the vault's volume. */
  lemma BindInVault(v: Namespace, o: Namespace, d: Disk, p: Path, n: Ino, a: Attr, c: Claim)
    requires Pair(v, o, d, c) && p !in v.names && p.On().VaultDevice?
    requires forall q :: q in v.names ==> v.names[q] != n
    requires p.Blob? && c.mine ==> p == Blob(c.id) && c.f.path.On().OtherDevice? && Recorded(v, d, c.f, c.id, c.digest)
    requires p.Blob? && c.kept ==> HasRecord(v, d, p.id)
    requires c.mine ==> p != c.f.path
    ensures Pair(Bind(v, p, n, a), o, d, c)
  {
    var w := Bind(v, p, n, a);
    if c.kept {
      StillReachable(v, o, d, w, o, d, c.f, c.but);
      forall i: nat | Blob(i) in w.names ensures HasRecord(w, d, i) { assert HasRecord(v, d, i); }
    }
  }

  /** A mode change keeps the claim: it touches no name and no content. */
  lemma ModeChanged(v: Namespace, o: Namespace, d: Disk, p: Path, a: Attr, c: Claim)
    requires Pair(v, o, d, c) && p in v.names && p.On().VaultDevice?
    requires c.mine && c.f.path.On().VaultDevice? && c.f.path in v.names ==> v.names[c.f.path] != v.names[p]
    ensures Pair(WithAttr(v, p, a), o, d, c)
  {
    var w := WithAttr(v, p, a);
    if c.kept {
      StillReachable(v, o, d, w, o, d, c.f, c.but);
      forall i: nat | Blob(i) in w.names ensures HasRecord(w, d, i) { assert HasRecord(v, d, i); }
    }
  }

  /** The move into the vault on one volume. */
  lemma MovedIn(v: Namespace, o: Namespace, d: Disk, p: Path, c: Claim)
    requires Pair(v, o, d, c) && p.Outside? && p.On().VaultDevice? && p in v.names
    requires Blob(c.id) !in v.names && c.but == c.id
    requires HasRecord(v, d, c.id) && d.data[v.names[Sidecar(c.id)]].car.path == p
    requires c.mine ==> c.f.path == p && Recorded(v, d, c.f, c.id, c.digest)
    ensures Pair(Renamed(v, p, Blob(c.id)), o, d, c.(but := -1))
  {
    var w := Renamed(v, p, Blob(c.id));
    if c.kept {
      forall i: nat | Blob(i) in w.names ensures HasRecord(w, d, i) {
        if i != c.id { assert HasRecord(v, d, i); }
      }
      if Holds(Home(v, o, c.f.path), c.f.path, d, c.f.content) {
        if c.f.path == p { assert Stored(w, d, c.f, c.id); }
      } else {
        var i: nat :| i != c.but && Stored(v, d, c.f, i);
        assert Stored(w, d, c.f, i) && i != -1;
      }
    }
  }

  /** Undoing the move. */
  lemma MovedBack(v: Namespace, o: Namespace, d: Disk, p: Path, c: Claim)
    requires Pair(v, o, d, c) && p.Outside? && p.On().VaultDevice? && p !in v.names
    requires Blob(c.id) in v.names && c.but == -1
    requires HasRecord(v, d, c.id) && d.data[v.names[Sidecar(c.id)]].car.path == p
    requires c.mine ==> c.f.path == p && AttrAt(v, Blob(c.id)) == c.f.attr
    ensures Pair(Renamed(v, Blob(c.id), p), o, d, c.(but := c.id))
  {
    var w := Renamed(v, Blob(c.id), p);
    if c.kept {
      forall i: nat | Blob(i) in w.names ensures HasRecord(w, d, i) { assert HasRecord(v, d, i); }
      if !Holds(Home(v, o, c.f.path), c.f.path, d, c.f.content) {
        var i: nat :| i != -1 && Stored(v, d, c.f, i);
        if i != c.id { assert Stored(w, d, c.f, i); }
      }
    }
  }

  /** Removing a vault name nothing depends on any more. */
  lemma Cleared(v: Namespace, o: Namespace, d: Disk, p: Path, c: Claim)
    requires Pair(v, o, d, c) && c.but == c.id
    requires p == SidecarTmp(c.id) || p == Blob(c.id) || (p == Sidecar(c.id) && Blob(c.id) !in v.names)
    requires c.mine ==> c.f.path in Home(v, o, c.f.path).names
    ensures Pair(Unlinked(v, p), o, d, c)
  {
    var w := Unlinked(v, p);
    if c.kept {
      forall i: nat | Blob(i) in w.names ensures HasRecord(w, d, i) { assert HasRecord(v, d, i); }
      if !Holds(Home(v, o, c.f.path), c.f.path, d, c.f.content) {
        var i: nat :| i != c.but && Stored(v, d, c.f, i);
        assert Stored(w, d, c.f, i);
      }
    }
  }

  /** The finished record replaces the pending one under the same path. */
  lemma Rewritten(v: Namespace, o: Namespace, d: Disk, car: Car, c: Claim)
    requires Pair(v, o, d, c) && Holds(v, SidecarTmp(c.id), d, Json(car)) && car.path.Outside?
    requires HasRecord(v, d, c.id) && d.data[v.names[Sidecar(c.id)]].car.path == car.path
    requires c.mine ==> car.path == c.f.path && car.attr == c.f.attr
    requires c.mine ==> car.pending || car.sha == c.digest(c.f.content)
    ensures Pair(Renamed(v, SidecarTmp(c.id), Sidecar(c.id)), o, d, c)
  {
    var w := Renamed(v, SidecarTmp(c.id), Sidecar(c.id));
    if c.kept {
      forall i: nat | Blob(i) in w.names ensures HasRecord(w, d, i) {
        if i != c.id { assert HasRecord(v, d, i); }
      }
      if !Holds(Home(v, o, c.f.path), c.f.path, d, c.f.content) {
        var i: nat :| i != c.but && Stored(v, d, c.f, i);
        assert Stored(w, d, c.f, i);
      }
    }
  }

  /** The original goes once the vault holds a synced copy and a durable record of it. */
  lemma OriginalGone(v: Namespace, o: Namespace, d: Disk, p: Path, c: Claim)
    requires Pair(v, o, d, c) && p.Outside? && p.On().OtherDevice? && p in o.names && o.names[p] in d.data
    requires c.but == c.id && Holds(v, Blob(c.id), d, d.data[o.names[p]])
    requires HasRecord(v, d, c.id) && d.data[v.names[Sidecar(c.id)]].car.path == p
    requires c.mine ==> c.f.path == p
    ensures Pair(v, Unlinked(o, p), d, c.(but := -1))
  {
    if c.kept {
      if Holds(Home(v, o, c.f.path), c.f.path, d, c.f.content) {
        if c.f.path == p { assert Stored(v, d, c.f, c.id); }
      } else {
        var i: nat :| i != c.but && Stored(v, d, c.f, i);
        assert i != -1;
      }
    }
  }

  // ---- the same, for whole disks

  lemma CreatedInVault(d: Disk, p: Path, n: Ino, a: Attr, c: Claim)
    requires d.Valid() && n !in d.data && Guard(d, c)
    requires p.On().VaultDevice? && p !in d.vault.cur.names && !p.Outside?
    requires p.Blob? && c.mine ==> p == Blob(c.id) && c.f.path.On().OtherDevice?
    requires p.Blob? && c.mine ==> Recorded(d.vault.cur, d, c.f, c.id, c.digest)
    requires p.Blob? && c.kept ==> HasRecord(d.vault.cur, d, p.id)
    ensures Guard(d.Push(VaultDevice, Bind(d.vault.cur, p, n, a)).(data := d.data[n := Raw([])]), c)
  {
    var ns := d.vault.cur;
    assert d.vault.Has(ns);
    forall o | d.other.Has(o) ensures Pair(Bind(ns, p, n, a), o, d, c) {
      assert Pair(ns, o, d, c);
      BindInVault(ns, o, d, p, n, a, c);
    }
    Pushed(d, VaultDevice, Bind(ns, p, n, a), c);
    var e := d.Push(VaultDevice, Bind(ns, p, n, a));
    Narrowed(e, e.(data := d.data[n := Raw([])]), c);
  }

  lemma ClearedFromVault(d: Disk, p: Path, c: Claim)
    requires d.Valid() && Guard(d, c) && c.but == c.id
    requires p == SidecarTmp(c.id) || p == Blob(c.id) || (p == Sidecar(c.id) && Blob(c.id) !in d.vault.cur.names)
    requires c.mine ==> forall o :: d.other.Has(o) ==> c.f.path in Home(d.vault.cur, o, c.f.path).names
    ensures Guard(d.Push(VaultDevice, Unlinked(d.vault.cur, p)), c)
  {
    var ns := d.vault.cur;
    assert d.vault.Has(ns);
    forall o | d.other.Has(o) ensures Pair(Unlinked(ns, p), o, d, c) { Cleared(ns, o, d, p, c); }
    Pushed(d, VaultDevice, Unlinked(ns, p), c);
  }

  /** A temporary record name is nobody's only copy. */
  lemma TmpCleared(d: Disk, i: nat, c: Claim)
    requires d.Valid() && Guard(d, c)
    ensures Guard(d.Push(VaultDevice, Unlinked(d.vault.cur, SidecarTmp(i))), c)
  {
    var ns := d.vault.cur;
    var w := Unlinked(ns, SidecarTmp(i));
    assert d.vault.Has(ns);
    forall o | d.other.Has(o) ensures Pair(w, o, d, c) {
      assert Pair(ns, o, d, c);
      if c.kept {
        StillReachable(ns, o, d, w, o, d, c.f, c.but);
        forall j: nat | Blob(j) in w.names ensures HasRecord(w, d, j) { assert HasRecord(ns, d, j); }
      }
    }
    Pushed(d, VaultDevice, w, c);
  }

  lemma RewrittenInVault(d: Disk, car: Car, c: Claim)
    requires d.Valid() && Guard(d, c)
    requires Holds(d.vault.cur, SidecarTmp(c.id), d, Json(car)) && car.path.Outside?
    requires HasRecord(d.vault.cur, d, c.id)
    requires d.data[d.vault.cur.names[Sidecar(c.id)]].car.path == car.path
    requires c.mine ==> car.path == c.f.path && car.attr == c.f.attr
    requires c.mine ==> car.pending || car.sha == c.digest(c.f.content)
    ensures Guard(d.Push(VaultDevice, Renamed(d.vault.cur, SidecarTmp(c.id), Sidecar(c.id))), c)
  {
    var ns := d.vault.cur;
    assert d.vault.Has(ns);
    forall o | d.other.Has(o) ensures Pair(Renamed(ns, SidecarTmp(c.id), Sidecar(c.id)), o, d, c) {
      Rewritten(ns, o, d, car, c);
    }
    Pushed(d, VaultDevice, Renamed(ns, SidecarTmp(c.id), Sidecar(c.id)), c);
  }

  lemma BlobModeChanged(d: Disk, a: Attr, c: Claim)
    requires Guard(d, c) && Blob(c.id) in d.vault.cur.names
    requires c.mine ==> c.f.path.On().OtherDevice? || c.f.path !in d.vault.cur.names
    ensures Guard(d.Push(VaultDevice, WithAttr(d.vault.cur, Blob(c.id), a)), c)
  {
    var ns := d.vault.cur;
    assert d.vault.Has(ns);
    forall o | d.other.Has(o) ensures Pair(WithAttr(ns, Blob(c.id), a), o, d, c) {
      assert Pair(ns, o, d, c);
      ModeChanged(ns, o, d, Blob(c.id), a, c);
    }
    Pushed(d, VaultDevice, WithAttr(ns, Blob(c.id), a), c);
  }

  lemma MovedIntoVault(d: Disk, p: Path, c: Claim)
    requires Guard(d, c) && p.Outside? && p.On().VaultDevice? && p in d.vault.cur.names
    requires Blob(c.id) !in d.vault.cur.names && c.but == c.id
    requires HasRecord(d.vault.cur, d, c.id) && d.data[d.vault.cur.names[Sidecar(c.id)]].car.path == p
    requires c.mine ==> c.f.path == p && Recorded(d.vault.cur, d, c.f, c.id, c.digest)
    ensures Guard(d.Push(VaultDevice, Renamed(d.vault.cur, p, Blob(c.id))), c.(but := -1))
  {
    var ns := d.vault.cur;
    assert d.vault.Has(ns);
    forall o | d.other.Has(o) ensures Pair(Renamed(ns, p, Blob(c.id)), o, d, c.(but := -1)) {
      MovedIn(ns, o, d, p, c);
    }
    Forget(d, c);
    Pushed(d, VaultDevice, Renamed(ns, p, Blob(c.id)), c.(but := -1));
  }

  /** Undoing the move and dropping the record, in that order. */
  lemma MovedOutOfVault(d: Disk, p: Path, c: Claim)
    requires Guard(d, c) && p.Outside? && p.On().VaultDevice? && p !in d.vault.cur.names
    requires Blob(c.id) in d.vault.cur.names && c.but == -1
    requires HasRecord(d.vault.cur, d, c.id) && d.data[d.vault.cur.names[Sidecar(c.id)]].car.path == p
    requires c.mine ==> c.f.path == p && AttrAt(d.vault.cur, Blob(c.id)) == c.f.attr
    ensures var e := d.Push(VaultDevice, Renamed(d.vault.cur, Blob(c.id), p));
            Guard(e, c) && Guard(e.Push(VaultDevice, Unlinked(e.vault.cur, Sidecar(c.id))), c)
  {
    var ns := d.vault.cur;
    var w := Renamed(ns, Blob(c.id), p);
    assert d.vault.Has(ns);
    var k := c.(but := c.id);
    forall o | d.other.Has(o) ensures Pair(w, o, d, c) && Pair(Unlinked(w, Sidecar(c.id)), o, d, c) {
      MovedBack(ns, o, d, p, c);
      Cleared(w, o, d, Sidecar(c.id), k);
      PairForgets(w, o, d, k);
      PairForgets(Unlinked(w, Sidecar(c.id)), o, d, k);
    }
    Pushed(d, VaultDevice, w, c);
    var e := d.Push(VaultDevice, w);
    forall o | e.other.Has(o) ensures Pair(Unlinked(w, Sidecar(c.id)), o, e, c) {
      PairRetained(Unlinked(w, Sidecar(c.id)), o, d, e, c);
    }
    Pushed(e, VaultDevice, Unlinked(w, Sidecar(c.id)), c);
  }

  lemma PairForgets(v: Namespace, o: Namespace, d: Disk, c: Claim)
    requires Pair(v, o, d, c)
    ensures Pair(v, o, d, c.(but := -1))
  {
    if c.kept && !Holds(Home(v, o, c.f.path), c.f.path, d, c.f.content) {
      var i: nat :| i != c.but && Stored(v, d, c.f, i);
      assert i != -1;
    }
  }

  lemma OriginalRemoved(d: Disk, p: Path, c: Claim)
    requires Guard(d, c) && d.vault.past == [] && p.Outside? && p.On().OtherDevice?
    requires p in d.other.cur.names && d.other.cur.names[p] in d.data
    requires c.but == c.id && Holds(d.vault.cur, Blob(c.id), d, d.data[d.other.cur.names[p]])
    requires HasRecord(d.vault.cur, d, c.id) && d.data[d.vault.cur.names[Sidecar(c.id)]].car.path == p
    requires c.mine ==> c.f.path == p
    ensures Guard(d.Push(OtherDevice, Unlinked(d.other.cur, p)), c.(but := -1))
  {
    assert d.vault.Has(d.vault.cur) && d.other.Has(d.other.cur);
    forall v | d.vault.Has(v) ensures Pair(v, Unlinked(d.other.cur, p), d, c.(but := -1)) {
      OriginalGone(v, d.other.cur, d, p, c);
    }
    Forget(d, c);
    Pushed(d, OtherDevice, Unlinked(d.other.cur, p), c.(but := -1));
  }

  /** Before an operation under an unused id, its claims hold. */
  lemma Starts(d: Disk, c: Claim)
    requires c.f.path.Outside? && Unused(d, c.id) && c.but == c.id
    requires c.mine ==> Settled(d, c.f)
    requires c.kept ==> Kept(d, c.f)
    ensures Guard(d, c) && Guard(d, c.(but := -1))
  {
    forall v, o | d.vault.Has(v) && d.other.Has(o) ensures Pair(v, o, d, c) {
      assert Free(v, c.id);
      if c.mine { assert AtHome(v, o, d, c.f); }
      if c.kept {
        assert Reachable(v, o, d, c.f, -1) && Orderly(v, d);
        if !Holds(Home(v, o, c.f.path), c.f.path, d, c.f.content) {
          var i: nat :| i != -1 && Stored(v, d, c.f, i);
          assert i != c.id;
        }
      }
    }
    Forget(d, c);
  }
}
