/**
 The vault over whole runs: quarantines, restores and crashes in any order.
 */
module VaultRuns {
  import opened CrashDisk
  import opened VaultSpec
  import opened VaultSteps
  import opened HostCalls
  import opened VaultQuarantine
  import opened VaultRestore

  // ---- crash outcomes as values

  /** The disk after a crash that keeps `v` and `o`; contents never synced become `junk`. */
  function Crashed(d: Disk, v: Namespace, o: Namespace, junk: Ino -> Data): Disk {
    Disk(Volume([], v), Volume([], o), map n | n in d.data :: if n in d.synced then d.data[n] else junk(n), d.data.Keys)
  }

  lemma CrashedIsCrash(d: Disk, v: Namespace, o: Namespace, junk: Ino -> Data)
    requires d.Valid() && d.vault.Has(v) && d.other.Has(o)
    ensures CrashTo(d, Crashed(d, v, o, junk)) && Crashed(d, v, o, junk).Valid()
  {
  }

  // ---- restoring what a crash left

  /**
   Wherever the quarantine of `f` was cut short: restore succeeds exactly when the
   path is free; otherwise the file is still there as it was.
   */
  lemma VerdictAfterCrash(d: Disk, fs: Disk, f: File, id: nat, digest: Data -> string)
    requires Safe(d, f, id, digest) && CrashTo(d, fs) && fs.Valid() && f.path.Outside?
    ensures Verdict(fs, id, false, digest) == Ok <==> Look(fs, f.path) == Absent
    ensures Look(fs, f.path) == Absent ==>
      && Look(fs, Blob(id)).Entry? && Look(fs, Blob(id)).data == f.content
      && Look(fs, Sidecar(id)).data.car.path == f.path && Look(fs, Sidecar(id)).data.car.attr == f.attr
      && AllVaulted(fs, f, id, digest)
    ensures Look(fs, f.path) != Absent ==>
      && Look(fs, f.path).data == f.content && Look(fs, f.path).attr == f.attr
      && (f.path.On().VaultDevice? ==> Look(fs, Blob(id)) == Absent)
  {
    CrashKeepsIntact(d, fs, f, id, digest);
    var v, o := fs.vault.cur, fs.other.cur;
    assert Intact(v, o, fs, f, id, digest);
    if f.path in Home(v, o, f.path).names && Sidecar(id) in v.names && Blob(id) in v.names {
      assert Recorded(v, fs, f, id, digest);
    }
  }

  /** Restart after a crash anywhere in a quarantine, and restore. */
  method RecoverAfterCrash(fs: Disk, nextIno: Ino, id: nat, digest: Data -> string, fsyncNames: bool,
                           ghost d: Disk, ghost f: File)
    returns (h: Host, r: Outcome)
    requires fs.Valid() && forall n :: n in fs.data ==> n < nextIno
    requires Safe(d, f, id, digest) && CrashTo(d, fs) && f.path.Outside?
    ensures fresh(h) && h.Valid()
    ensures Look(fs, f.path) == Absent ==> r == Ok
    ensures r == Ok ==> var e := Look(h.disk, f.path); e.Entry? && e.data == f.content && e.attr == f.attr
    ensures Look(fs, f.path) != Absent ==> r.Err? && Look(h.disk, f.path) == Look(fs, f.path)
    ensures Look(fs, f.path) != Absent ==> Look(h.disk, f.path).data == f.content && Look(h.disk, f.path).attr == f.attr
  {
    VerdictAfterCrash(d, fs, f, id, digest);
    h := new Host(digest, fsyncNames, false, fs, nextIno);
    r := Restore(h, id, false, f);
    if Look(fs, f.path) != Absent {
      assert Same(f.path, Look(fs, f.path), Look(h.disk, f.path), Look(fs, Blob(id)));
    }
  }

  // ---- whole runs

  datatype Op =
    | DoQuarantine(path: Path, inode: Ino, id: nat, dryRun: bool)
    | DoRestore(id: nat, dryRun: bool)
    | Crash(keepVault: nat, keepOther: nat, junk: Ino -> Data)

  /** The namespace a crash that keeps `k` uncommitted operations brings back. */
  function Kth(vol: Volume, k: nat): (ns: Namespace)
    ensures vol.Has(ns)
  {
    if k < |vol.past| then vol.past[k] else vol.cur
  }

  /** What an operation leaves of the disk it found: a dry run of a quarantine nothing new, a crash what it keeps. */
  ghost predicate Did(op: Op, d: Disk, e: Disk) {
    match op
    case DoQuarantine(_, _, _, dryRun) => dryRun ==> e == d
    case DoRestore(_, _) => true
    case Crash(k, l, junk) => e == Crashed(d, Kth(d.vault, k), Kth(d.other, l), junk)
  }

  ghost predicate AllKept(points: set<Disk>, f: File) { forall d :: d in points ==> Kept(d, f) }

  /** One of them, with every disk it passes. */
  method RunOne(h0: Host, op: Op, ghost f: File) returns (h: Host, crossed: bool, ghost points: set<Disk>)
    requires h0.Valid() && f.path.Outside?
    modifies h0
    ensures h.Valid() && (h == h0 || fresh(h)) && h.fsyncNames == h0.fsyncNames
    ensures h.disk in points && Did(op, old(h0.disk), h.disk)
    ensures Kept(old(h0.disk), f) && (h0.fsyncNames || !crossed) ==> AllKept(points, f)
  {
    h, crossed, points := h0, false, {h0.disk};
    match op {
      case DoQuarantine(path, inode, id, dryRun) =>
        if Unused(h.disk, id) {
          var _ := Quarantine(h, path, inode, id, dryRun, f);
          points := h.seen;
        }
      case DoRestore(id, dryRun) =>
        var across := Verdict(h.disk, id, dryRun, h.digest) == Ok && RecordedPath(h.disk, id).On().OtherDevice?;
        var r := Restore(h, id, dryRun, f);
        crossed := across && r == Ok;
        points := h.seen;
      case Crash(k, l, junk) =>
        h := Restart(h, k, l, junk, f);
        points := {h.disk};
    }
  }

  /** A host on the disk that a crash leaves. */
  method Restart(h0: Host, k: nat, l: nat, junk: Ino -> Data, ghost f: File) returns (h: Host)
    requires h0.Valid()
    ensures fresh(h) && h.Valid() && h.fsyncNames == h0.fsyncNames
    ensures h.disk == Crashed(h0.disk, Kth(h0.disk.vault, k), Kth(h0.disk.other, l), junk)
    ensures Kept(h0.disk, f) ==> Kept(h.disk, f)
  {
    var v, o := Kth(h0.disk.vault, k), Kth(h0.disk.other, l);
    CrashedIsCrash(h0.disk, v, o, junk);
    var fs := Crashed(h0.disk, v, o, junk);
    if Kept(h0.disk, f) { CrashKeeps(h0.disk, fs, f); }
    h := new Host(h0.digest, h0.fsyncNames, h0.faulty, fs, h0.nextIno);
  }

  /** The disks between the operations. */
  ghost predicate InTurn(ops: seq<Op>, between: seq<Disk>) {
    |between| == |ops| + 1 && forall i :: 0 <= i < |ops| ==> Did(ops[i], between[i], between[i + 1])
  }

  lemma NextInTurn(ops: seq<Op>, between: seq<Disk>, op: Op, e: Disk)
    requires InTurn(ops, between) && Did(op, between[|ops|], e)
    ensures InTurn(ops + [op], between + [e])
  {
    var more, disks := ops + [op], between + [e];
    forall i | 0 <= i < |more| ensures Did(more[i], disks[i], disks[i + 1]) {
      if i < |ops| { assert more[i] == ops[i] && disks[i] == between[i] && disks[i + 1] == between[i + 1]; }
    }
  }

  lemma MoreKept(a: set<Disk>, b: set<Disk>, f: File)
    requires AllKept(a, f) && AllKept(b, f)
    ensures AllKept(a + b, f)
  {
  }

  /**
   No run of quarantines, restores and crashes loses a file's bytes: at every point
   of the run, and after a crash at that point, they are at the file's path or in
   the vault with a readable record, and every blob in the vault has such a record.
   Only a restore across volumes, where syncing a file does not commit its name,
   is excepted (`crossed`).
   */
  method Run(h0: Host, ops: seq<Op>, ghost f: File)
    returns (h: Host, crossed: bool, ghost points: set<Disk>, ghost between: seq<Disk>)
    requires h0.Valid() && f.path.Outside? && Kept(h0.disk, f)
    modifies h0
    ensures h.Valid() && (h == h0 || fresh(h)) && h.fsyncNames == h0.fsyncNames
    ensures h.disk in points
    ensures InTurn(ops, between) && between[0] == old(h0.disk) && between[|ops|] == h.disk
    ensures h0.fsyncNames || !crossed ==> AllKept(points, f)
    ensures h0.fsyncNames || !crossed ==> forall d, fs :: d in points && CrashTo(d, fs) ==> Kept(fs, f)
  {
    h, crossed, points, between := h0, false, {h0.disk}, [h0.disk];
    for i := 0 to |ops|
      invariant h.Valid() && (h == h0 || fresh(h)) && h.fsyncNames == h0.fsyncNames
      invariant h.disk in points && InTurn(ops[..i], between) && between[0] == old(h0.disk) && between[i] == h.disk
      invariant h0.fsyncNames || !crossed ==> AllKept(points, f)
    {
      var across;
      ghost var passed;
      h, across, passed := RunOne(h, ops[i], f);
      crossed := crossed || across;
      NextInTurn(ops[..i], between, ops[i], h.disk);
      assert ops[..i + 1] == ops[..i] + [ops[i]];
      if h0.fsyncNames || !crossed { MoreKept(points, passed, f); }
      points, between := points + passed, between + [h.disk];
    }
    assert ops[..|ops|] == ops;
    if h0.fsyncNames || !crossed {
      forall d, fs | d in points && CrashTo(d, fs) ensures Kept(fs, f) { CrashKeeps(d, fs, f); }
    }
  }

  // ---- restarting after a crash inside a restore

  /** Wherever a crash can go back to, the path is free or holds the file as it was. */
  ghost predicate PathOk(d: Disk, f: File) {
    forall v, o :: d.vault.Has(v) && d.other.Has(o) && f.path in Home(v, o, f.path).names ==> AtHome(v, o, d, f)
  }

  /**
   What lies at the path when a restore that began on `d0` was cut short: the file as it was, a
   link to its blob, or the copy that had just begun, with whatever it holds.
   */
  predicate Occupant(d0: Disk, fs: Disk, f: File, id: nat) {
    var e, b := Look(fs, f.path), Look(fs, Blob(id));
    || (e.Entry? && e.data == f.content && e.attr == f.attr)
    || (f.path.On().VaultDevice? && e.Entry? && b.Entry? && e.ino == b.ino)
    || (f.path.On().OtherDevice? && e.Entry? && e.ino !in d0.data)
  }

  lemma VaultedAgain(d0: Disk, d: Disk, fs: Disk, v0: Namespace, v: Namespace, f: File, id: nat, digest: Data -> string)
    requires Vaulted(v0, d0, f, id, digest) && Retains(d0, d) && CrashTo(d, fs)
    requires Blob(id) in v.names && v.names[Blob(id)] == v0.names[Blob(id)]
    requires Sidecar(id) in v.names && v.names[Sidecar(id)] == v0.names[Sidecar(id)]
    ensures Vaulted(v, fs, f, id, digest)
  {
  }

  /** After a crash inside a restore the blob is whole and recorded, or gone. */
  lemma BlobAfterCrash(d0: Disk, d: Disk, fs: Disk, f: File, id: nat, digest: Data -> string)
    requires AllVaulted(d0, f, id, digest) && OnTrail(d, d0, id, f.path) && CrashTo(d, fs)
    requires f.path.Outside? && Blob(id) in fs.vault.cur.names
    ensures Vaulted(fs.vault.cur, fs, f, id, digest)
  {
    var v := fs.vault.cur;
    var v0 := if d0.vault.Has(v) then v else d0.vault.cur;
    assert d0.vault.Has(v0) && Vaulted(v0, d0, f, id, digest);
    VaultedAgain(d0, d, fs, v0, v, f, id, digest);
  }

  lemma PathAfterCrash(d0: Disk, d: Disk, fs: Disk, f: File, id: nat, digest: Data -> string)
    requires d0.Valid() && fs.Valid() && f.path.Outside? && Look(d0, f.path) == Absent && PathOk(d0, f)
    requires OnTrail(d, d0, id, f.path) && CrashTo(d, fs)
    requires f.path.On().VaultDevice? ==> InCustody(d, f, id, digest)
    requires Look(fs, f.path) != Absent
    ensures Occupant(d0, fs, f, id)
  {
    var v, o := fs.vault.cur, fs.other.cur;
    NoNameWhenAbsent(d0, f.path);
    assert d0.vault.Has(d0.vault.cur) && d0.other.Has(d0.other.cur);
    if f.path.On().VaultDevice? {
      assert Custody(v, o, d, f, id, digest);
      if d0.vault.Has(v) {
        assert AtHome(v, d0.other.cur, d0, f);
      }
    } else if d0.other.Has(o) {
      assert AtHome(d0.vault.cur, o, d0, f);
    }
  }

  /**
   Wherever a restore was cut short: trying again succeeds exactly when the blob is still there and
   the path is free.  With the path occupied it answers so, and what lies there is one of three
   things; with the blob gone, on the vault's own volume, the file is home already.
   */
  lemma VerdictAfterCutRestore(d0: Disk, d: Disk, fs: Disk, f: File, id: nat, digest: Data -> string)
    requires d0.Valid() && fs.Valid() && f.path.Outside?
    requires AllVaulted(d0, f, id, digest) && Look(d0, f.path) == Absent && PathOk(d0, f)
    requires OnTrail(d, d0, id, f.path) && CrashTo(d, fs)
    requires f.path.On().VaultDevice? ==> InCustody(d, f, id, digest)
    ensures Look(fs, Blob(id)).Entry? ==> Vaulted(fs.vault.cur, fs, f, id, digest)
    ensures Verdict(fs, id, false, digest) == Ok <==> Look(fs, Blob(id)).Entry? && Look(fs, f.path) == Absent
    ensures Look(fs, Blob(id)).Entry? && Look(fs, f.path) != Absent ==>
      Verdict(fs, id, false, digest) == Err(DestinationExists) && Occupant(d0, fs, f, id)
    ensures Look(fs, Blob(id)) == Absent && f.path.On().VaultDevice? ==>
      Look(fs, f.path).Entry? && Look(fs, f.path).data == f.content && Look(fs, f.path).attr == f.attr
  {
    if Look(fs, Blob(id)).Entry? {
      BlobAfterCrash(d0, d, fs, f, id, digest);
      if Look(fs, f.path) != Absent { PathAfterCrash(d0, d, fs, f, id, digest); }
    } else {
      NoNameWhenAbsent(fs, Blob(id));
      if f.path.On().VaultDevice? { assert Custody(fs.vault.cur, fs.other.cur, d, f, id, digest); }
    }
  }

  /** Both names are there and are names of one inode. */
  predicate LinkedTo(d: Disk, p: Path, q: Path) {
    Look(d, p).Entry? && Look(d, q).Entry? && Look(d, p).ino == Look(d, q).ino
  }

  /** Restart after a crash anywhere in a restore, and restore again. */
  method RetryAfterCrash(fs: Disk, nextIno: Ino, id: nat, digest: Data -> string, fsyncNames: bool,
                         ghost d0: Disk, ghost d: Disk, ghost f: File)
    returns (h: Host, r: Outcome)
    requires fs.Valid() && forall n :: n in fs.data ==> n < nextIno
    requires d0.Valid() && f.path.Outside?
    requires AllVaulted(d0, f, id, digest) && Look(d0, f.path) == Absent && PathOk(d0, f)
    requires OnTrail(d, d0, id, f.path) && CrashTo(d, fs)
    requires f.path.On().VaultDevice? ==> InCustody(d, f, id, digest)
    ensures fresh(h) && h.Valid()
    ensures r == Ok <==> Look(fs, Blob(id)).Entry? && Look(fs, f.path) == Absent
    ensures r == Ok ==>
      var e := Look(h.disk, f.path); e.Entry? && e.data == f.content && e.attr == f.attr
    ensures r != Ok && Look(fs, f.path) != Absent ==>
      var a, e := Look(fs, f.path), Look(h.disk, f.path);
      e.Entry? && e.ino == a.ino && e.data == a.data
    ensures f.path.On().VaultDevice? && LinkedTo(fs, f.path, Blob(id)) ==> Look(h.disk, f.path).attr.mode == 0
  {
    VerdictAfterCutRestore(d0, d, fs, f, id, digest);
    if Look(fs, Blob(id)).Entry? { RecordSays(fs, f, id, digest); }
    h := new Host(digest, fsyncNames, false, fs, nextIno);
    r := Restore(h, id, false, f);
    if r != Ok && Look(fs, f.path) != Absent { StaysAtPath(fs, h.disk, f.path, id); }
  }

  lemma RecordSays(fs: Disk, f: File, id: nat, digest: Data -> string)
    requires Vaulted(fs.vault.cur, fs, f, id, digest)
    ensures Look(fs, Blob(id)).Entry? && Look(fs, Blob(id)).data == f.content
    ensures Look(fs, Sidecar(id)).Entry? && Look(fs, Sidecar(id)).data.Json?
    ensures Look(fs, Sidecar(id)).data.car.path == f.path && Look(fs, Sidecar(id)).data.car.attr == f.attr
  {
  }

  /** A refused restore leaves the occupant, locked if it is a link to the blob. */
  lemma StaysAtPath(d: Disk, e: Disk, p: Path, id: nat)
    requires forall q :: Same(q, Look(d, q), Look(e, q), Look(d, Blob(id)))
    requires Look(d, p).Entry?
    ensures Look(e, p).Entry? && Look(e, p).ino == Look(d, p).ino && Look(e, p).data == Look(d, p).data
    ensures p.On().VaultDevice? && LinkedTo(d, p, Blob(id)) && Locked(e, id) ==> Look(e, p).attr.mode == 0
  {
    assert Same(p, Look(d, p), Look(e, p), Look(d, Blob(id)));
    assert Same(Blob(id), Look(d, Blob(id)), Look(e, Blob(id)), Look(d, Blob(id)));
  }

  // ---- what is not promised

  /** A crash that keeps everything done so far, just after the destination appeared. */
  lemma CutJustAfter(d0: Disk, d: Disk, f: File, id: nat, digest: Data -> string, junk: Ino -> Data)
    requires d0.Valid() && d.Valid() && Retains(d0, d) && f.path.Outside?
    requires Vaulted(d0.vault.cur, d0, f, id, digest) && Begun(d, d0, id, f.path)
    ensures var fs := Crashed(d, d.vault.cur, d.other.cur, junk);
      && CrashTo(d, fs) && fs.Valid() && Verdict(fs, id, false, digest) == Err(DestinationExists)
      && (f.path.On().VaultDevice? ==> LinkedTo(fs, f.path, Blob(id)))
      && (f.path.On().OtherDevice? ==> Look(fs, f.path).Entry? && Look(fs, f.path).data == junk(Look(fs, f.path).ino))
  {
    CrashedIsCrash(d, d.vault.cur, d.other.cur, junk);
    var fs := Crashed(d, d.vault.cur, d.other.cur, junk);
    VaultedAgain(d0, d, fs, d0.vault.cur, fs.vault.cur, f, id, digest);
    assert fs.vault.Has(fs.vault.cur) && fs.other.Has(fs.other.cur);
  }

  /**
   Any restore can be cut short so that a retry is refused: on the vault's own volume with the path
   a link to the blob, which by `RetryAfterCrash` the retry leaves with mode 0000; on the other one
   with the path holding whatever the disk had there.
   */
  method RestoreCutShort(h: Host, id: nat, junk: Ino -> Data, ghost f: File)
    returns (r: Outcome, ghost d: Disk, ghost fs: Disk)
    requires h.Valid() && !h.faulty && f.path.Outside?
    requires Verdict(h.disk, id, false, h.digest) == Ok && AllVaulted(h.disk, f, id, h.digest)
    modifies h
    ensures r == Ok && d in h.seen && CrashTo(d, fs) && fs.Valid()
    ensures Verdict(fs, id, false, h.digest) == Err(DestinationExists)
    ensures f.path.On().VaultDevice? ==> LinkedTo(fs, f.path, Blob(id))
    ensures f.path.On().OtherDevice? ==> Look(fs, f.path).Entry? && Look(fs, f.path).data == junk(Look(fs, f.path).ino)
  {
    ghost var d0 := h.disk;
    InTheVault(d0, f, id, h.digest);
    r := Restore(h, id, false, f);
    d := Pick(h.seen, d0, id, f.path);
    CutJustAfter(d0, d, f, id, h.digest, junk);
    fs := Crashed(d, d.vault.cur, d.other.cur, junk);
  }

  lemma InTheVault(d: Disk, f: File, id: nat, digest: Data -> string)
    requires AllVaulted(d, f, id, digest)
    ensures Vaulted(d.vault.cur, d, f, id, digest) && RecordedPath(d, id) == f.path
  {
    assert d.vault.Has(d.vault.cur);
  }

  lemma Pick(seen: set<Disk>, start: Disk, id: nat, dest: Path) returns (d: Disk)
    requires BegunIn(seen, start, id, dest)
    ensures d in seen && Begun(d, start, id, dest)
  {
    d :| d in seen && Begun(d, start, id, dest);
  }

  /** `Stored` in what a running program finds. */
  lemma StoredByLook(d: Disk, f: File, i: nat)
    ensures Stored(d.vault.cur, d, f, i) <==>
      var b, s := Look(d, Blob(i)), Look(d, Sidecar(i));
      && b.Entry? && b.synced && b.data == f.content
      && s.Entry? && s.synced && s.data.Json? && s.data.car.path.Outside? && s.data.car.path == f.path
  {
  }

  lemma StillNotStored(d0: Disk, d: Disk, id: nat, car: Car, f: File, i: nat)
    requires Returned(d0, d, id, car) && car.path.Outside? && i != id && !Stored(d0.vault.cur, d0, f, i)
    ensures !Stored(d.vault.cur, d, f, i)
  {
    StoredByLook(d0, f, i);
    StoredByLook(d, f, i);
    assert Same(Blob(i), Look(d0, Blob(i)), Look(d, Blob(i)), Look(d0, Blob(id)));
    assert Same(Sidecar(i), Look(d0, Sidecar(i)), Look(d, Sidecar(i)), Look(d0, Blob(id)));
  }

  lemma NowhereToFind(d: Disk, o: Namespace, f: File)
    requires d.other.Has(o) && f.path.On().OtherDevice? && f.path !in o.names
    requires forall i: nat :: !Stored(d.vault.cur, d, f, i)
    ensures !Kept(d, f)
  {
    assert d.vault.Has(d.vault.cur);
    assert !Reachable(d.vault.cur, o, d, f, -1);
  }

  /**
   A restore onto the other volume whose sync does not commit names succeeds, and a crash then
   leaves the bytes neither at the path nor under the id; if no other id has them, they are gone.
   */
  method CrossRestoreLoses(h: Host, id: nat, junk: Ino -> Data, ghost f: File) returns (r: Outcome, ghost fs: Disk)
    requires h.Valid() && !h.faulty && !h.fsyncNames && Verdict(h.disk, id, false, h.digest) == Ok
    requires f.path == RecordedPath(h.disk, id) && f.path.On().OtherDevice?
    modifies h
    ensures r == Ok && CrashTo(h.disk, fs) && fs.Valid()
    ensures Look(fs, f.path) == Absent && Look(fs, Blob(id)) == Absent
    ensures (forall i: nat :: i != id ==> !Stored(old(h.disk).vault.cur, old(h.disk), f, i)) ==> !Kept(h.disk, f)
  {
    ghost var d0 := h.disk;
    ghost var car := Look(d0, Sidecar(id)).data.car;
    r := Restore(h, id, false, f);
    ghost var d := h.disk;
    ghost var o :| d.other.Has(o) && LeftBehind(o, f.path, false);
    assert d.vault.Has(d.vault.cur);
    CrashedIsCrash(d, d.vault.cur, o, junk);
    fs := Crashed(d, d.vault.cur, o, junk);
    if forall i: nat :: i != id ==> !Stored(d0.vault.cur, d0, f, i) {
      forall i: nat ensures !Stored(d.vault.cur, d, f, i) {
        if i != id { StillNotStored(d0, d, id, car, f, i); } else { StoredByLook(d, f, id); }
      }
      NowhereToFind(d, o, f);
    }
  }

  /**
   Where it does commit them, a crash can leave the file with the agent's owner and mode 0600 and
   the record of the right ones gone: it can no longer be given back as it was.
   */
  method CrossRestoreForgets(h: Host, id: nat, junk: Ino -> Data, ghost f: File) returns (r: Outcome, ghost fs: Disk)
    requires h.Valid() && !h.faulty && h.fsyncNames && Verdict(h.disk, id, false, h.digest) == Ok
    requires f.path == RecordedPath(h.disk, id) && f.path.On().OtherDevice?
    modifies h
    ensures r == Ok && CrashTo(h.disk, fs) && fs.Valid()
    ensures Look(fs, Sidecar(id)) == Absent
    ensures Look(fs, f.path).Entry? && Look(fs, f.path).attr == Attr(0x180, AgentUid, AgentGid)
    ensures f.attr != Attr(0x180, AgentUid, AgentGid) ==> !InCustody(h.disk, f, id, h.digest)
  {
    r := Restore(h, id, false, f);
    ghost var d := h.disk;
    ghost var o :| d.other.Has(o) && LeftBehind(o, f.path, true);
    assert d.vault.Has(d.vault.cur);
    CrashedIsCrash(d, d.vault.cur, o, junk);
    fs := Crashed(d, d.vault.cur, o, junk);
    if f.attr != Attr(0x180, AgentUid, AgentGid) {
      assert !AtHome(d.vault.cur, o, d, f) && !Vaulted(d.vault.cur, d, f, id, h.digest);
      assert !Custody(d.vault.cur, o, d, f, id, h.digest);
    }
  }
}
