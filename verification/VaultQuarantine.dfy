/**
 `LinuxExecutor::quarantine` and the helpers it uses, system call by system call.
 */
module VaultQuarantine {
  import opened Options
  import opened CrashDisk
  import opened VaultSpec
  import opened VaultSteps
  import opened HostCalls

  datatype FailCode = NotFound | TargetChanged | Unverifiable | DestinationExists | Io
  datatype Outcome = Ok | Preview | Err(code: FailCode)

  /** Only what lies under the names in `ps` changed. */
  ghost predicate Extends(d: Disk, e: Disk, ps: set<Path>)
  {
    e.other == d.other && forall q :: q !in ps ==> Look(e, q) == Look(d, q)
  }

  /** The vault has a synced record under `id` that names `p`. */
  predicate RecordOf(d: Disk, id: nat, p: Path)
  {
    var e := Look(d, Sidecar(id));
    e.Entry? && e.synced && e.data.Json? && e.data.car.path == p && p.Outside?
  }

  /** All that is left under `p`, if anything is, is a file whose write broke off before its sync. */
  predicate LeftOver(d: Disk, p: Path) { Look(d, p) == Absent || !Look(d, p).synced }

  /** Writes and syncs a file of the vault that is not synced yet. */
  method Fill(h: Host, n: Ino, x: Data, ghost c: Claim) returns (ok: bool)
    requires h.Valid() && Guard(h.disk, c) && Guarded(h.seen, c.(but := -1))
    requires n in h.disk.data && n !in h.disk.synced
    modifies h
    ensures h.Valid() && Guard(h.disk, c) && Guarded(h.seen, c.(but := -1)) && h.disk in h.seen
    ensures n in h.disk.data && SameFor(old(h.disk), h.disk, n)
    ensures h.disk.vault.cur == old(h.disk.vault.cur) && h.disk.other == old(h.disk.other)
    ensures ok ==> n in h.disk.synced && n in h.disk.data && h.disk.data[n] == x
    ensures !ok ==> h.faulty && n !in h.disk.synced
  {
    ghost var d := h.disk;
    ok := h.Write(n, x);
    Narrowed(d, h.disk, c);
    Forget(h.disk, c);
    if !ok { return; }
    d := h.disk;
    ok := h.SyncFile(n, VaultDevice);
    Narrowed(d, h.disk, c);
    Forget(h.disk, c);
  }

  /**
   Creates a vault file with O_EXCL, writes it and syncs it (`write_sidecar`,
   `copy_into_vault` and the temp file of `replace_sidecar`).  With `tidy` a
   failed write or sync removes the name again.
   */
  method WriteNew(h: Host, p: Path, x: Data, tidy: bool, ghost c: Claim) returns (ok: bool)
    requires h.Valid() && Guard(h.disk, c) && Guarded(h.seen, c.(but := -1))
    requires !p.Outside? && c.id == p.id
    requires tidy ==> p !in h.disk.vault.cur.names && !p.Sidecar?
    requires p.Blob? ==> c.but == c.id && HasRecord(h.disk.vault.cur, h.disk, c.id)
    requires p.Blob? && c.mine ==> Recorded(h.disk.vault.cur, h.disk, c.f, c.id, c.digest)
    requires p.Blob? && c.mine ==> c.f.path.On().OtherDevice? && forall o :: h.disk.other.Has(o) ==> c.f.path in o.names
    modifies h
    ensures h.Valid() && Guard(h.disk, c) && Guarded(h.seen, c.(but := -1)) && h.disk in h.seen
    ensures Extends(old(h.disk), h.disk, {p})
    ensures ok ==> var e := Look(h.disk, p); e.Entry? && e.synced && e.data == x
    ensures !ok ==> h.faulty || p in old(h.disk).vault.cur.names
    ensures !ok && tidy ==> p !in h.disk.vault.cur.names
    ensures !ok && p !in old(h.disk).vault.cur.names ==> LeftOver(h.disk, p)
  {
    ghost var d0 := h.disk;
    var n := h.Create(p, 0x180);
    if n.None? { Forget(h.disk, c); return false; }
    CreatedInVault(d0, p, n.value, Attr(0x180, AgentUid, AgentGid), c);
    Forget(h.disk, c);
    ok := Fill(h, n.value, x, c);
    ghost var d := h.disk;
    if !ok && tidy {
      var gone := h.Remove(p, true);
      if p.Blob? { ClearedFromVault(d, p, c); } else { TmpCleared(d, p.id, c); }
      Forget(h.disk, c);
    }
  }

  /** Replaces the record atomically: synced temp file, rename over it, fsync the vault. */
  method ReplaceRecord(h: Host, id: nat, car: Car, ghost c: Claim) returns (ok: bool)
    requires h.Valid() && Guard(h.disk, c) && Guarded(h.seen, c.(but := -1)) && c.id == id
    requires RecordOf(h.disk, id, car.path)
    requires c.mine ==> car.path == c.f.path && car.attr == c.f.attr
    requires c.mine ==> car.pending || car.sha == c.digest(c.f.content)
    modifies h
    ensures h.Valid() && Guard(h.disk, c) && Guarded(h.seen, c.(but := -1)) && h.disk in h.seen
    ensures Extends(old(h.disk), h.disk, {Sidecar(id), SidecarTmp(id)})
    ensures RecordOf(h.disk, id, car.path)
    ensures ok ==> Look(h.disk, Sidecar(id)).data == Json(car) && h.disk.vault.past == []
    ensures SidecarTmp(id) !in h.disk.vault.cur.names
    ensures !ok ==> h.faulty
  {
    ghost var d0 := h.disk;
    ghost var d := d0;
    var gone := h.Remove(SidecarTmp(id), true);
    TmpCleared(d, id, c);
    Forget(h.disk, c);
    d := h.disk;
    ok := WriteNew(h, SidecarTmp(id), Json(car), true, c);
    if !ok { return; }
    ok := InstallRecord(h, id, car, c);
  }

  /** The second half: rename the synced temp file over the record, fsync the vault. */
  method InstallRecord(h: Host, id: nat, car: Car, ghost c: Claim) returns (ok: bool)
    requires h.Valid() && Guard(h.disk, c) && Guarded(h.seen, c.(but := -1)) && c.id == id
    requires RecordOf(h.disk, id, car.path)
    requires var e := Look(h.disk, SidecarTmp(id)); e.Entry? && e.synced && e.data == Json(car)
    requires c.mine ==> car.path == c.f.path && car.attr == c.f.attr
    requires c.mine ==> car.pending || car.sha == c.digest(c.f.content)
    modifies h
    ensures h.Valid() && Guard(h.disk, c) && Guarded(h.seen, c.(but := -1)) && h.disk in h.seen
    ensures Extends(old(h.disk), h.disk, {Sidecar(id), SidecarTmp(id)})
    ensures RecordOf(h.disk, id, car.path)
    ensures ok ==> Look(h.disk, Sidecar(id)).data == Json(car) && h.disk.vault.past == []
    ensures SidecarTmp(id) !in h.disk.vault.cur.names
    ensures !ok ==> h.faulty
  {
    ghost var d := h.disk;
    var r := h.Rename(SidecarTmp(id), Sidecar(id), false);
    if r != Done {
      Forget(h.disk, c);
      var gone := h.Remove(SidecarTmp(id), true);
      TmpCleared(d, id, c);
      Forget(h.disk, c);
      return false;
    }
    RewrittenInVault(d, car, c);
    Forget(h.disk, c);
    d := h.disk;
    ok := h.SyncVault();
    Narrowed(d, h.disk, c);
    Forget(h.disk, c);
  }

  /** The `undo` closure after a copy: drop the copy, then the record. */
  method UndoCopy(h: Host, path: Path, id: nat, ghost c: Claim)
    requires h.Valid() && Guard(h.disk, c) && Guarded(h.seen, c.(but := -1)) && c.id == id && c.but == id
    requires path.Outside? && path.On().OtherDevice?
    requires c.mine ==> c.f.path == path && forall o :: h.disk.other.Has(o) ==> path in o.names
    modifies h
    ensures h.Valid() && Guarded(h.seen, c.(but := -1)) && h.disk in h.seen
    ensures Look(h.disk, Blob(id)) == Absent && Look(h.disk, Sidecar(id)) == Absent
    ensures Look(h.disk, path) == Look(old(h.disk), path)
  {
    ghost var d := h.disk;
    var done := h.Remove(Blob(id), true);
    ClearedFromVault(d, Blob(id), c);
    Forget(h.disk, c);
    d := h.disk;
    done := h.Remove(Sidecar(id), true);
    ClearedFromVault(d, Sidecar(id), c);
    Forget(h.disk, c);
  }

  /** Its first call after a rename: the mode the file had. */
  method ModeBack(h: Host, id: nat, mode: Mode, ghost path: Path, ghost c: Claim)
    requires h.Valid() && Guard(h.disk, c) && Guarded(h.seen, c) && c.id == id && c.but == -1
    requires RecordOf(h.disk, id, path) && Look(h.disk, Blob(id)).Entry?
    requires path.On().VaultDevice? && Look(h.disk, path) == Absent && (c.mine ==> c.f.path == path)
    modifies h
    ensures h.Valid() && Guard(h.disk, c) && Guarded(h.seen, c) && h.disk in h.seen
    ensures RecordOf(h.disk, id, path) && Look(h.disk, path) == Absent
    ensures var e := Look(old(h.disk), Blob(id)); Look(h.disk, Blob(id)) == e.(attr := e.attr.(mode := mode))
  {
    ghost var d := h.disk;
    NoNameWhenAbsent(d, path);
    var done := h.Chmod(Blob(id), mode, true);
    BlobModeChanged(d, AttrAt(d.vault.cur, Blob(id)).(mode := mode), c);
  }

  /** Then the file, then its record. */
  method MoveBack(h: Host, path: Path, id: nat, ghost c: Claim)
    requires h.Valid() && Guard(h.disk, c) && Guarded(h.seen, c) && c.id == id && c.but == -1
    requires RecordOf(h.disk, id, path) && Look(h.disk, Blob(id)).Entry?
    requires path.On().VaultDevice? && Look(h.disk, path) == Absent
    requires c.mine ==> c.f.path == path && c.f.attr == Look(h.disk, Blob(id)).attr
    modifies h
    ensures h.Valid() && Guarded(h.seen, c) && h.disk in h.seen
    ensures Look(h.disk, Blob(id)) == Absent && Look(h.disk, Sidecar(id)) == Absent
    ensures Look(h.disk, path) == Look(old(h.disk), Blob(id))
  {
    MovedOutOfVault(h.disk, path, c);
    var back := h.Rename(Blob(id), path, true);
    var done := h.Remove(Sidecar(id), true);
  }

  function Remoded(e: Entry, mode: Option<Mode>): Entry
    requires e.Entry?
  {
    e.(attr := if mode.Some? then e.attr.(mode := mode.value) else e.attr)
  }

  /** The `undo` closure after a rename: put the mode back, then the file, then drop the record. */
  method UndoMove(h: Host, path: Path, id: nat, mode: Option<Mode>, ghost c: Claim)
    requires h.Valid() && Guard(h.disk, c) && Guarded(h.seen, c) && c.id == id && c.but == -1
    requires RecordOf(h.disk, id, path) && Look(h.disk, Blob(id)).Entry?
    requires path.On().VaultDevice? && Look(h.disk, path) == Absent
    requires c.mine ==> c.f.path == path && c.f.attr == Remoded(Look(h.disk, Blob(id)), mode).attr
    modifies h
    ensures h.Valid() && Guarded(h.seen, c) && h.disk in h.seen
    ensures Look(h.disk, Blob(id)) == Absent && Look(h.disk, Sidecar(id)) == Absent
    ensures Look(h.disk, path) == Remoded(Look(old(h.disk), Blob(id)), mode)
  {
    if mode.Some? { ModeBack(h, id, mode.value, path, c); }
    MoveBack(h, path, id, c);
  }

  /** What `undo` needs: what kind of move it takes back, and that the file is as it should be. */
  ghost predicate CanUndo(d: Disk, path: Path, id: nat, copied: bool, mode: Option<Mode>, c: Claim) {
    && c.id == id && path.Outside? && (c.mine ==> c.f.path == path)
    && (copied ==> c.but == id && path.On().OtherDevice? && (c.mine ==> forall o :: d.other.Has(o) ==> path in o.names))
    && (!copied ==>
        && c.but == -1 && path.On().VaultDevice? && RecordOf(d, id, path)
        && Look(d, Blob(id)).Entry? && Look(d, path) == Absent
        && (c.mine ==> c.f.attr == Remoded(Look(d, Blob(id)), mode).attr))
  }

  /** The `undo` closure. */
  method Undo(h: Host, path: Path, id: nat, copied: bool, mode: Option<Mode>, ghost c: Claim)
    requires h.Valid() && Guard(h.disk, c) && Guarded(h.seen, c.(but := -1))
    requires CanUndo(h.disk, path, id, copied, mode, c)
    modifies h
    ensures h.Valid() && Guarded(h.seen, c.(but := -1)) && h.disk in h.seen
    ensures Look(h.disk, Blob(id)) == Absent && Look(h.disk, Sidecar(id)) == Absent
    ensures Look(h.disk, path) ==
      if copied then Look(old(h.disk), path) else Remoded(Look(old(h.disk), Blob(id)), mode)
  {
    if copied { UndoCopy(h, path, id, c); } else { UndoMove(h, path, id, mode, c); }
  }

  /** Hashes the blob and locks it; nothing else changes. */
  method Seal(h: Host, id: nat, ghost path: Path, ghost c: Claim) returns (sha: Option<string>)
    requires h.Valid() && Guard(h.disk, c) && Guarded(h.seen, c.(but := -1)) && c.id == id
    requires RecordOf(h.disk, id, path) && Look(h.disk, Blob(id)).Entry?
    requires path.On().OtherDevice? || Look(h.disk, path) == Absent
    requires c.mine ==> c.f.path == path
    modifies h
    ensures h.Valid() && Guard(h.disk, c) && Guarded(h.seen, c.(but := -1))
    ensures h.disk.other == old(h.disk.other) && RecordOf(h.disk, id, path)
    ensures Look(h.disk, path) == Look(old(h.disk), path)
    ensures sha.None? ==> h.faulty && Look(h.disk, Blob(id)) == Look(old(h.disk), Blob(id))
    ensures sha.Some? ==> sha.value == h.digest(Look(old(h.disk), Blob(id)).data)
    ensures sha.Some? ==> Look(h.disk, Blob(id)) == Remoded(Look(old(h.disk), Blob(id)), Some(0))
  {
    ghost var d := h.disk;
    sha := h.HashOf(h.disk.vault.cur.names[Blob(id)]);
    if sha.None? { return; }
    if path.On().VaultDevice? { NoNameWhenAbsent(d, path); }
    var ok := h.Chmod(Blob(id), 0, false);
    if !ok {
      Forget(d, c);
      return None;
    }
    BlobModeChanged(d, AttrAt(d.vault.cur, Blob(id)).(mode := 0), c);
    Forget(h.disk, c);
  }

  /**
   From a blob in the vault to a finished quarantine: hash it, lock it, make the
   record final.  Any failure undoes the move.
   */
  method Finish(h: Host, path: Path, meta: Attr, id: nat, copied: bool, ghost c: Claim) returns (ok: bool)
    requires h.Valid() && Guard(h.disk, c) && Guarded(h.seen, c.(but := -1)) && c.id == id && c.digest == h.digest
    requires RecordOf(h.disk, id, path) && path.Outside?
    requires Look(h.disk, Blob(id)).Entry? && (copied ==> Look(h.disk, Blob(id)).synced)
    requires copied ==> c.but == id && path.On().OtherDevice?
    requires copied && c.mine ==> forall o :: h.disk.other.Has(o) ==> path in o.names
    requires !copied ==> c.but == -1 && path.On().VaultDevice? && Look(h.disk, path) == Absent
    requires !copied ==> Look(h.disk, Blob(id)).attr == meta
    requires c.mine ==> c.f.path == path && c.f.attr == meta && c.f.content == Look(h.disk, Blob(id)).data
    modifies h
    ensures h.Valid() && Guarded(h.seen, c.(but := -1)) && h.disk in h.seen && (ok ==> Guard(h.disk, c))
    ensures ok ==> RecordOf(h.disk, id, path) && h.disk.vault.past == [] && h.disk.other == old(h.disk.other)
    ensures ok ==>
      Look(h.disk, Sidecar(id)).data == Json(Car(path, meta, h.digest(Look(old(h.disk), Blob(id)).data), false))
    ensures ok ==> Look(h.disk, Blob(id)) == Remoded(Look(old(h.disk), Blob(id)), Some(0))
    ensures ok ==> Look(h.disk, path) == Look(old(h.disk), path)
    ensures !ok ==> h.faulty && Look(h.disk, Blob(id)) == Absent && Look(h.disk, Sidecar(id)) == Absent
    ensures !ok ==> Look(h.disk, path) == if copied then Look(old(h.disk), path) else Look(old(h.disk), Blob(id))
  {
    var sha := Seal(h, id, path, c);
    if sha.None? {
      Undo(h, path, id, copied, None, c);
      return false;
    }
    ok := Finalise(h, Car(path, meta, sha.value, false), id, copied, c);
  }

  /** The final record of a sealed blob; if it cannot be written, the move is undone. */
  method Finalise(h: Host, car: Car, id: nat, copied: bool, ghost c: Claim) returns (ok: bool)
    requires h.Valid() && Guard(h.disk, c) && Guarded(h.seen, c.(but := -1))
    requires RecordOf(h.disk, id, car.path) && Look(h.disk, Blob(id)).Entry?
    requires CanUndo(h.disk, car.path, id, copied, Some(car.attr.mode), c)
    requires c.mine ==> car.attr == c.f.attr && car.sha == c.digest(c.f.content)
    modifies h
    ensures h.Valid() && Guarded(h.seen, c.(but := -1)) && h.disk in h.seen && (ok ==> Guard(h.disk, c))
    ensures ok ==> RecordOf(h.disk, id, car.path) && h.disk.vault.past == [] && h.disk.other == old(h.disk.other)
    ensures ok ==> Look(h.disk, Sidecar(id)).data == Json(car) && Look(h.disk, Blob(id)) == Look(old(h.disk), Blob(id))
    ensures ok ==> Look(h.disk, car.path) == Look(old(h.disk), car.path)
    ensures !ok ==> h.faulty && Look(h.disk, Blob(id)) == Absent && Look(h.disk, Sidecar(id)) == Absent
    ensures !ok ==>
      Look(h.disk, car.path)
      == if copied then Look(old(h.disk), car.path) else Remoded(Look(old(h.disk), Blob(id)), Some(car.attr.mode))
  {
    ok := ReplaceRecord(h, id, car, c);
    if !ok { Undo(h, car.path, id, copied, Some(car.attr.mode), c); }
  }

  /** Removes the record of a quarantine that put nothing into the vault. */
  method DropRecord(h: Host, path: Path, id: nat, ghost c: Claim)
    requires h.Valid() && Guard(h.disk, c) && Guarded(h.seen, c.(but := -1)) && c.id == id == c.but
    requires Blob(id) !in h.disk.vault.cur.names && path.Outside?
    requires c.mine ==> forall o :: h.disk.other.Has(o) ==> c.f.path in Home(h.disk.vault.cur, o, c.f.path).names
    modifies h
    ensures h.Valid() && Guard(h.disk, c) && Guarded(h.seen, c.(but := -1)) && h.disk in h.seen
    ensures Look(h.disk, path) == Look(old(h.disk), path) && Look(h.disk, Blob(id)) == Absent
    ensures Look(h.disk, Sidecar(id)) == Absent
  {
    ghost var d := h.disk;
    var gone := h.Remove(Sidecar(id), true);
    ClearedFromVault(d, Sidecar(id), c);
    Forget(h.disk, c);
  }

  /** The pending record, durable before anything moves. */
  method PendingRecord(h: Host, path: Path, meta: Attr, id: nat, ghost c: Claim) returns (ok: bool)
    requires h.Valid() && Guard(h.disk, c) && Guarded(h.seen, c.(but := -1)) && c.id == id == c.but
    requires path.Outside? && Blob(id) !in h.disk.vault.cur.names && Sidecar(id) !in h.disk.vault.cur.names
    requires c.mine ==> c.f.path == path && Look(h.disk, path).Entry?
    requires c.mine && path.On().OtherDevice? ==> forall o :: h.disk.other.Has(o) ==> path in o.names
    modifies h
    ensures h.Valid() && Guard(h.disk, c) && Guarded(h.seen, c.(but := -1)) && h.disk in h.seen
    ensures Look(h.disk, path) == Look(old(h.disk), path) && Look(h.disk, Blob(id)) == Absent
    ensures ok ==> h.disk.other == old(h.disk.other)
    ensures ok ==> RecordOf(h.disk, id, path) && Look(h.disk, Sidecar(id)).data == Json(Car(path, meta, "", true))
    ensures ok ==> h.disk.vault.past == [] && Look(h.disk, Sidecar(id)).synced
    ensures !ok ==> h.faulty && LeftOver(h.disk, Sidecar(id))
  {
    ok := WriteNew(h, Sidecar(id), Json(Car(path, meta, "", true)), false, c);
    if !ok { return; }
    ghost var d := h.disk;
    ok := h.SyncVault();
    Narrowed(d, h.disk, c);
    Forget(h.disk, c);
    if !ok {
      assert Look(h.disk, Blob(id)) == Absent;
      NoNameWhenAbsent(h.disk, Blob(id));
      DropRecord(h, path, id, c);
    }
  }

  lemma NoNameWhenAbsent(d: Disk, p: Path)
    requires d.Valid() && Look(d, p) == Absent
    ensures p !in d.Live(p.On()).names
  {
    assert d.vault.Has(d.vault.cur) && d.other.Has(d.other.cur);
  }

  /** The part that changes the disk: pending record, move or copy, finish, unlink. */
  method Proceed(h: Host, path: Path, id: nat, ghost c: Claim) returns (r: Outcome)
    requires h.Valid() && Guard(h.disk, c) && Guarded(h.seen, c.(but := -1)) && Unused(h.disk, id)
    requires c.id == id == c.but && c.digest == h.digest && path.Outside? && Look(h.disk, path).Entry?
    requires c.mine ==> c.f.path == path && Settled(h.disk, c.f)
    modifies h
    ensures h.Valid() && Guarded(h.seen, c.(but := -1)) && h.disk in h.seen
    ensures r == Ok || (h.faulty && r == Err(Io))
    ensures r != Ok ==> Look(h.disk, path) == Look(old(h.disk), path) && Look(h.disk, Blob(id)) == Absent
    ensures r != Ok ==> LeftOver(h.disk, Sidecar(id))
    ensures r == Ok ==> Look(h.disk, path) == Absent && h.disk.vault.past == []
    ensures r == Ok ==> Vaulting(old(h.disk), h.disk, path, id, h.digest)
  {
    var meta := AttrAt(h.disk.Live(path.On()), path);
    var n := h.disk.Live(path.On()).names[path];
    if c.mine {
      assert AtHome(h.disk.vault.cur, h.disk.other.cur, h.disk, c.f);
      forall o | h.disk.other.Has(o) && path.On().OtherDevice? ensures path in o.names {
        assert AtHome(h.disk.vault.cur, o, h.disk, c.f);
      }
    }
    var ok := PendingRecord(h, path, meta, id, c);
    if !ok { return Err(Io); }
    ghost var d := h.disk;
    var move := h.Rename(path, Blob(id), false);
    match move
    case Done =>
      MovedIntoVault(d, path, c);
      ok := Finish(h, path, meta, id, false, c.(but := -1));
      return if ok then Ok else Err(Io);
    case CrossDevice =>
      Forget(h.disk, c);
      r := CopyAcross(h, path, n, meta, id, c);
    case IoError =>
      Forget(h.disk, c);
      DropRecord(h, path, id, c);
      return Err(Io);
  }

  ghost predicate Vaulting(d: Disk, e: Disk, path: Path, id: nat, digest: Data -> string) {
    var x, b, s := Look(d, path), Look(e, Blob(id)), Look(e, Sidecar(id));
    && x.Entry? && b.Entry? && b.data == x.data && b.attr.mode == 0
    && s.Entry? && s.data == Json(Car(path, x.attr, digest(x.data), false))
  }

  /** The cross-device move: copy, finish, and only then unlink the original. */
  method CopyAcross(h: Host, path: Path, n: Ino, meta: Attr, id: nat, ghost c: Claim) returns (r: Outcome)
    requires h.Valid() && Guard(h.disk, c) && Guarded(h.seen, c.(but := -1))
    requires c.id == id == c.but && c.digest == h.digest && path.On().OtherDevice?
    requires Look(h.disk, path).Entry? && Look(h.disk, path).ino == n && Look(h.disk, path).attr == meta
    requires Blob(id) !in h.disk.vault.cur.names && RecordOf(h.disk, id, path)
    requires c.mine ==> c.f.path == path && c.f.attr == meta && c.f.content == Look(h.disk, path).data
    requires c.mine ==> Look(h.disk, Sidecar(id)).data.car.attr == meta && Look(h.disk, Sidecar(id)).data.car.pending
    requires c.mine ==> forall o :: h.disk.other.Has(o) ==> path in o.names
    modifies h
    ensures h.Valid() && Guarded(h.seen, c.(but := -1)) && h.disk in h.seen
    ensures r == Ok || (h.faulty && r == Err(Io))
    ensures r != Ok ==> Look(h.disk, path) == Look(old(h.disk), path) && Look(h.disk, Blob(id)) == Absent
    ensures r != Ok ==> Look(h.disk, Sidecar(id)) == Absent
    ensures r == Ok ==> Look(h.disk, path) == Absent && h.disk.vault.past == []
    ensures r == Ok ==> Vaulting(old(h.disk), h.disk, path, id, h.digest)
  {
    var ok := WriteNew(h, Blob(id), h.disk.data[n], true, c);
    if !ok {
      DropRecord(h, path, id, c);
      return Err(Io);
    }
    ok := Finish(h, path, meta, id, true, c);
    if !ok { return Err(Io); }
    ok := UnlinkOriginal(h, path, id, c);
    return if ok then Ok else Err(Io);
  }

  /** The last call of a copy; if it fails, the copy goes instead. */
  method UnlinkOriginal(h: Host, path: Path, id: nat, ghost c: Claim) returns (ok: bool)
    requires h.Valid() && Guard(h.disk, c) && Guarded(h.seen, c.(but := -1)) && c.id == id == c.but
    requires path.Outside? && path.On().OtherDevice? && RecordOf(h.disk, id, path)
    requires Look(h.disk, path).Entry? && Look(h.disk, Blob(id)).Entry? && Look(h.disk, Blob(id)).synced
    requires Look(h.disk, Blob(id)).data == Look(h.disk, path).data && h.disk.vault.past == []
    requires c.mine ==> c.f.path == path && c.f.content == Look(h.disk, path).data
    requires c.mine ==> forall o :: h.disk.other.Has(o) ==> path in o.names
    modifies h
    ensures h.Valid() && Guarded(h.seen, c.(but := -1)) && h.disk in h.seen
    ensures ok ==> Look(h.disk, path) == Absent && h.disk.vault == old(h.disk.vault)
    ensures ok ==> Look(h.disk, Blob(id)) == Look(old(h.disk), Blob(id))
    ensures ok ==> Look(h.disk, Sidecar(id)) == Look(old(h.disk), Sidecar(id))
    ensures !ok ==> h.faulty && Look(h.disk, path) == Look(old(h.disk), path) && Look(h.disk, Blob(id)) == Absent
    ensures !ok ==> Look(h.disk, Sidecar(id)) == Absent
  {
    ghost var d := h.disk;
    ok := h.Remove(path, false);
    if ok {
      OriginalRemoved(d, path, c);
    } else {
      Forget(h.disk, c);
      UndoCopy(h, path, id, c);
    }
  }

  /**
   Quarantines `path` under the new id `id`, if it is still the file with `inode`, which stands for
   inode and device, and lies outside the vault; a dry run stops there.  For an arbitrary file `f`, at every
   crash point: if it is the file being quarantined, it is intact (`Safe`); whatever
   file it is, if its bytes were safe before they are safe still (`Kept`).
   An error leaves the path and its file as they were and no blob behind, and at most a record
   whose own write broke off.
   */
  method Quarantine(h: Host, path: Path, inode: Ino, id: nat, dryRun: bool, ghost f: File) returns (r: Outcome)
    requires h.Valid() && Unused(h.disk, id)
    modifies h
    ensures h.Valid() && h.disk in h.seen
    ensures f.path == path && path.Outside? && Settled(old(h.disk), f) ==>
      forall d :: d in h.seen ==> Safe(d, f, id, h.digest)
    ensures f.path.Outside? && Kept(old(h.disk), f) ==> forall d :: d in h.seen ==> Kept(d, f)
    ensures r != Ok ==> Look(h.disk, path) == Look(old(h.disk), path) && Look(h.disk, Blob(id)) == Absent
    ensures r != Ok ==> LeftOver(h.disk, Sidecar(id))
    ensures r == Ok ==> Look(h.disk, path) == Absent && h.disk.vault.past == []
    ensures r == Ok ==> Vaulting(old(h.disk), h.disk, path, id, h.digest)
    ensures r in {Ok, Preview, Err(NotFound), Err(TargetChanged), Err(Io)} && (r == Err(Io) ==> h.faulty)
    ensures r == Ok || r == Preview ==>
      var e := Look(old(h.disk), path); e.Entry? && e.ino == inode && path.Outside? && (r == Preview <==> dryRun)
    ensures r == Err(NotFound) ==> Look(old(h.disk), path) == Absent
    ensures r == Err(TargetChanged) ==>
      var e := Look(old(h.disk), path); e.Entry? && (e.ino != inode || !path.Outside?)
    ensures dryRun || (r != Ok && r != Err(Io)) ==> h.disk == old(h.disk)
  {
    ghost var kept := f.path.Outside? && Kept(h.disk, f);
    ghost var mine := f.path == path && path.Outside? && Settled(h.disk, f);
    ghost var c := Claim(f, id, h.digest, mine, kept, id);
    h.seen := {h.disk};
    if f.path.Outside? { Starts(h.disk, c); }
    var early := Admit(h, path, inode, dryRun);
    if early.Some? { return early.value; }
    r := Proceed(h, path, id, c);
    Meant(h.seen, c);
  }

  /** The checks on the open file: an answer, or none if the move can begin. */
  method Admit(h: Host, path: Path, inode: Ino, dryRun: bool) returns (r: Option<Outcome>)
    requires h.Valid()
    ensures r.Some? ==> r.value in {Preview, Err(NotFound), Err(TargetChanged), Err(Io)}
    ensures r == Some(Err(Io)) ==> h.faulty
    ensures r == Some(Err(NotFound)) ==> Look(h.disk, path) == Absent
    ensures r == Some(Err(TargetChanged)) ==>
      var e := Look(h.disk, path); e.Entry? && (e.ino != inode || !path.Outside?)
    ensures r.None? || r == Some(Preview) ==>
      var e := Look(h.disk, path); e.Entry? && e.ino == inode && path.Outside? && (r.Some? <==> dryRun)
  {
    var broken := h.Faults();
    if broken { return Some(Err(Io)); }
    var live := h.disk.Live(path.On());
    if path !in live.names { return Some(Err(NotFound)); }
    if live.names[path] != inode { return Some(Err(TargetChanged)); }
    if !path.Outside? { return Some(Err(TargetChanged)); }
    return if dryRun then Some(Preview) else None;
  }

  /** What the claim means for every disk it was kept on. */
  lemma Meant(seen: set<Disk>, c: Claim)
    requires Guarded(seen, c.(but := -1))
    ensures forall d :: d in seen && c.mine ==> Safe(d, c.f, c.id, c.digest)
    ensures forall d :: d in seen && c.kept ==> Kept(d, c.f)
  {
    forall d | d in seen
      ensures c.mine ==> Safe(d, c.f, c.id, c.digest)
      ensures c.kept ==> Kept(d, c.f)
    {
      Meaning(d, c.(but := -1));
    }
  }
}
