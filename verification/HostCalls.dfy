/**
 The system calls the vault code makes, on a crash-aware disk.

 Every call may fail when `faulty` is set.  Calls the executor uses to clean up
 (`let _ = ...` in the source) do not fail: with failing clean-up the promises
 about the vault do not hold.  `seen` collects the disk after every single call,
 so a claim about all of `seen` is a claim about every crash point.
 */
module HostCalls {
  import opened Options
  import opened CrashDisk

  datatype Move = Done | CrossDevice | Occupied | IoError

  const AgentUid: nat := 0
  const AgentGid: nat := 0

  /** Running programs see a change only under the names in `ps`. */
  ghost predicate OnlyAt(d: Disk, e: Disk, ps: set<Path>)
  {
    forall q :: q !in ps ==> Look(e, q) == Look(d, q)
  }

  /** Only the contents of inode `n` changed, under whatever names it has. */
  ghost predicate SameFor(d: Disk, e: Disk, n: Ino)
    requires n in e.data
  {
    forall q :: Look(e, q) == if Look(d, q).Entry? && Look(d, q).ino == n
                              then Look(d, q).(data := e.data[n], synced := n in e.synced)
                              else Look(d, q)
  }

  /** The inode under `p` got the attributes `a`, under every name it has on that volume. */
  ghost predicate Reattributed(d: Disk, e: Disk, p: Path, a: Attr)
    requires Look(d, p).Entry?
  {
    forall q :: Look(e, q) == if Look(d, q).Entry? && Look(d, q).ino == Look(d, p).ino && q.On() == p.On()
                              then Look(d, q).(attr := a)
                              else Look(d, q)
  }

  /** The disk with a new, empty inode under `p`. */
  function Bound(d: Disk, p: Path, n: Ino, a: Attr): Disk {
    d.Push(p.On(), Bind(d.Live(p.On()), p, n, a)).(data := d.data[n := Raw([])])
  }

  lemma BoundValid(d: Disk, p: Path, n: Ino, a: Attr)
    requires d.Valid() && n !in d.data
    ensures Bound(d, p, n, a).Valid()
  {
    assert d.vault.Has(d.vault.cur) && d.other.Has(d.other.cur);
  }

  lemma BoundLook(d: Disk, p: Path, n: Ino, a: Attr, q: Path)
    requires d.Valid() && n !in d.data
    ensures Look(Bound(d, p, n, a), q) == if q == p then Entry(n, a, Raw([]), false) else Look(d, q)
  {
    assert d.vault.Has(d.vault.cur) && d.other.Has(d.other.cur);
  }

  /** It changes what is found under that name only. */
  lemma BoundLooks(d: Disk, p: Path, n: Ino, a: Attr)
    requires d.Valid() && n !in d.data
    ensures OnlyAt(d, Bound(d, p, n, a), {p}) && Look(Bound(d, p, n, a), p) == Entry(n, a, Raw([]), false)
  {
    forall q ensures Look(Bound(d, p, n, a), q) == if q == p then Entry(n, a, Raw([]), false) else Look(d, q) {
      BoundLook(d, p, n, a, q);
    }
  }

  class Host {
    /** Hash of a file's contents (SHA-256 in the program). */
    const digest: Data -> string
    /** Whether syncing a file also commits the names on its volume. */
    const fsyncNames: bool
    const faulty: bool
    var disk: Disk
    var nextIno: Ino
    ghost var seen: set<Disk>

    constructor (digest: Data -> string, fsyncNames: bool, faulty: bool, disk: Disk, nextIno: Ino)
      requires disk.Valid() && forall n :: n in disk.data ==> n < nextIno
      ensures Valid() && this.disk == disk && seen == {}
      ensures this.digest == digest && this.fsyncNames == fsyncNames && this.faulty == faulty
    {
      this.digest, this.fsyncNames, this.faulty := digest, fsyncNames, faulty;
      this.disk, this.nextIno, this.seen := disk, nextIno, {};
    }

    ghost predicate Valid()
      reads this
    {
      disk.Valid() && forall n :: n in disk.data ==> n < nextIno
    }

    method Faults() returns (fails: bool)
      ensures fails ==> faulty
    {
      fails := *;
      fails := faulty && fails;
    }

    /** open(O_CREAT | O_EXCL). */
    method Create(p: Path, mode: Mode) returns (r: Option<Ino>)
      requires Valid()
      modifies this
      ensures Valid() && seen == old(seen) + {disk}
      ensures r.None? ==> disk == old(disk)
      ensures r.None? ==> faulty || p in old(disk).Live(p.On()).names
      ensures r.Some? ==> p !in old(disk).Live(p.On()).names && r.value !in old(disk).data
      ensures r.Some? ==>
        disk == old(disk)
                .Push(p.On(), Bind(old(disk).Live(p.On()), p, r.value, Attr(mode, AgentUid, AgentGid)))
                .(data := old(disk).data[r.value := Raw([])])
      ensures r.Some? ==> Look(disk, p) == Entry(r.value, Attr(mode, AgentUid, AgentGid), Raw([]), false)
      ensures r.Some? ==> OnlyAt(old(disk), disk, {p})
    {
      var fails := Faults();
      var ns := disk.Live(p.On());
      if fails || p in ns.names {
        r := None;
      } else {
        var n := nextIno;
        nextIno := nextIno + 1;
        BoundValid(disk, p, n, Attr(mode, AgentUid, AgentGid));
        BoundLooks(disk, p, n, Attr(mode, AgentUid, AgentGid));
        disk := disk.Push(p.On(), Bind(ns, p, n, Attr(mode, AgentUid, AgentGid)))
                .(data := disk.data[n := Raw([])]);
        r := Some(n);
      }
      seen := seen + {disk};
    }

    /** write_all into a freshly created file; a failed write leaves it torn. */
    method Write(n: Ino, x: Data) returns (ok: bool)
      requires Valid() && n in disk.data && n !in disk.synced
      modifies this`disk, this`seen
      ensures Valid() && seen == old(seen) + {disk}
      ensures disk == old(disk).(data := old(disk).data[n := if ok then x else Torn])
      ensures !ok ==> faulty
      ensures SameFor(old(disk), disk, n)
    {
      var fails := Faults();
      ok := !fails;
      disk := disk.(data := disk.data[n := if ok then x else Torn]);
      seen := seen + {disk};
    }

    /** fsync of an open file: its contents, and with `fsyncNames` the volume's names. */
    method SyncFile(n: Ino, dev: Device) returns (ok: bool)
      requires Valid() && n in disk.data
      modifies this`disk, this`seen
      ensures Valid() && seen == old(seen) + {disk}
      ensures !ok ==> disk == old(disk) && faulty
      ensures ok ==> disk == (if fsyncNames then old(disk).Commit(dev) else old(disk))
                             .(synced := old(disk).synced + {n})
      ensures SameFor(old(disk), disk, n)
    {
      var fails := Faults();
      ok := !fails;
      if ok {
        disk := (if fsyncNames then disk.Commit(dev) else disk).(synced := disk.synced + {n});
      }
      seen := seen + {disk};
    }

    /** fsync of the vault directory. */
    method SyncVault() returns (ok: bool)
      requires Valid()
      modifies this`disk, this`seen
      ensures Valid() && seen == old(seen) + {disk}
      ensures disk == if ok then old(disk).Commit(VaultDevice) else old(disk)
      ensures OnlyAt(old(disk), disk, {})
      ensures !ok ==> faulty
    {
      var fails := Faults();
      ok := !fails;
      if ok { disk := disk.Commit(VaultDevice); }
      seen := seen + {disk};
    }

    method Rename(from: Path, to: Path, sure: bool) returns (r: Move)
      requires Valid() && from in disk.Live(from.On()).names
      modifies this`disk, this`seen
      ensures Valid() && seen == old(seen) + {disk}
      ensures r != Occupied
      ensures r == CrossDevice <==> from.On() != to.On()
      ensures r == IoError ==> faulty && !sure
      ensures disk == if r == Done
                      then old(disk).Push(to.On(), Renamed(old(disk).Live(to.On()), from, to))
                      else old(disk)
      ensures OnlyAt(old(disk), disk, {from, to})
      ensures r == Done && from != to ==> Look(disk, from) == Absent && Look(disk, to) == Look(old(disk), from)
      ensures r != Done ==> OnlyAt(old(disk), disk, {})
    {
      var fails := Faults();
      if from.On() != to.On() {
        r := CrossDevice;
      } else if fails && !sure {
        r := IoError;
      } else {
        r := Done;
        disk := disk.Push(to.On(), Renamed(disk.Live(to.On()), from, to));
      }
      seen := seen + {disk};
    }

    /** link(2): fails when the destination exists. */
    method Link(from: Path, to: Path) returns (r: Move)
      requires Valid() && from in disk.Live(from.On()).names
      modifies this`disk, this`seen
      ensures Valid() && seen == old(seen) + {disk}
      ensures r == CrossDevice <==> from.On() != to.On()
      ensures r == IoError ==> faulty
      ensures r == Occupied ==> to in old(disk).Live(to.On()).names
      ensures r == Done ==> to !in old(disk).Live(to.On()).names
      ensures disk == if r == Done
                      then old(disk).Push(to.On(), Linked(old(disk).Live(to.On()), from, to))
                      else old(disk)
      ensures OnlyAt(old(disk), disk, if r == Done then {to} else {})
      ensures r == Done ==> Look(disk, to) == Look(old(disk), from)
    {
      var fails := Faults();
      if from.On() != to.On() {
        r := CrossDevice;
      } else if to in disk.Live(to.On()).names {
        r := Occupied;
      } else if fails {
        r := IoError;
      } else {
        r := Done;
        disk := disk.Push(to.On(), Linked(disk.Live(to.On()), from, to));
      }
      seen := seen + {disk};
    }

    /** unlink(2); a clean-up call (`sure`) does not fail. */
    method Remove(p: Path, sure: bool) returns (ok: bool)
      requires Valid()
      modifies this`disk, this`seen
      ensures Valid() && seen == old(seen) + {disk}
      ensures !ok ==> faulty && !sure
      ensures disk == if ok then old(disk).Push(p.On(), Unlinked(old(disk).Live(p.On()), p)) else old(disk)
      ensures OnlyAt(old(disk), disk, if ok then {p} else {})
      ensures ok ==> Look(disk, p) == Absent
    {
      var fails := Faults();
      ok := sure || !fails;
      if ok { disk := disk.Push(p.On(), Unlinked(disk.Live(p.On()), p)); }
      seen := seen + {disk};
    }

    method Chmod(p: Path, mode: Mode, sure: bool) returns (ok: bool)
      requires Valid() && p in disk.Live(p.On()).names
      modifies this`disk, this`seen
      ensures Valid() && seen == old(seen) + {disk}
      ensures !ok ==> faulty && !sure
      ensures disk ==
        var ns := old(disk).Live(p.On());
        if ok then old(disk).Push(p.On(), WithAttr(ns, p, AttrAt(ns, p).(mode := mode))) else old(disk)
      ensures if ok then Reattributed(old(disk), disk, p, Look(old(disk), p).attr.(mode := mode))
              else OnlyAt(old(disk), disk, {})
    {
      var fails := Faults();
      ok := sure || !fails;
      if ok {
        var ns := disk.Live(p.On());
        disk := disk.Push(p.On(), WithAttr(ns, p, AttrAt(ns, p).(mode := mode)));
      }
      seen := seen + {disk};
    }

    method Chown(p: Path, uid: nat, gid: nat) returns (ok: bool)
      requires Valid() && p in disk.Live(p.On()).names
      modifies this`disk, this`seen
      ensures Valid() && seen == old(seen) + {disk}
      ensures !ok ==> faulty
      ensures disk ==
        var ns := old(disk).Live(p.On());
        if ok then old(disk).Push(p.On(), WithAttr(ns, p, Chowned(AttrAt(ns, p), uid, gid))) else old(disk)
      ensures if ok then Reattributed(old(disk), disk, p, Chowned(Look(old(disk), p).attr, uid, gid))
              else OnlyAt(old(disk), disk, {})
    {
      var fails := Faults();
      ok := !fails;
      if ok {
        var ns := disk.Live(p.On());
        disk := disk.Push(p.On(), WithAttr(ns, p, Chowned(AttrAt(ns, p), uid, gid)));
      }
      seen := seen + {disk};
    }

    /** Hashes a file to its end; a read error or an expired budget fails it. */
    method HashOf(n: Ino) returns (r: Option<string>)
      requires Valid() && n in disk.data
      ensures r.Some? ==> r.value == digest(disk.data[n])
      ensures r.None? ==> faulty
    {
      var fails := Faults();
      r := if fails then None else Some(digest(disk.data[n]));
    }
  }
}
