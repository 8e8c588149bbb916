/**
 `LinuxExecutor::restore`, system call by system call.
 */
module VaultRestore {
  import opened Options
  import opened CrashDisk
  import opened VaultSpec
  import opened VaultSteps
  import opened HostCalls
  import opened VaultQuarantine

  /** The file can be given back exactly: it lies at home as it was, or the vault has it with its record. */
  predicate Custody(v: Namespace, o: Namespace, d: Disk, f: File, id: nat, digest: Data -> string) {
    && (AtHome(v, o, d, f) || Vaulted(v, d, f, id, digest))
    && (Blob(id) in v.names ==> Recorded(v, d, f, id, digest))
  }

  ghost predicate InCustody(d: Disk, f: File, id: nat, digest: Data -> string) {
    forall v, o :: d.vault.Has(v) && d.other.Has(o) ==> Custody(v, o, d, f, id, digest)
  }

  /** Whatever a crash does, the vault has the file with its record. */
  ghost predicate AllVaulted(d: Disk, f: File, id: nat, digest: Data -> string) {
    forall v :: d.vault.Has(v) ==> Vaulted(v, d, f, id, digest)
  }

  /** What restore answers when no system call fails, checks in the source's order. */
  function Verdict(d: Disk, id: nat, dryRun: bool, digest: Data -> string): Outcome {
    var s, b := Look(d, Sidecar(id)), Look(d, Blob(id));
    if s == Absent then Err(NotFound)
    else if !s.data.Json? then Err(Unverifiable)
    else if !s.data.car.path.Outside? then Err(Unverifiable)
    else if b == Absent then Err(NotFound)
    else if !s.data.car.pending && digest(b.data) != s.data.car.sha then Err(TargetChanged)
    else if Look(d, s.data.car.path) != Absent then Err(DestinationExists)
    else if dryRun then Preview
    else Ok
  }

  /** What each answer says about record, blob and destination; together they cover every case. */
  lemma VerdictMeans(d: Disk, id: nat, dryRun: bool, digest: Data -> string)
    ensures var r, s, b := Verdict(d, id, dryRun, digest), Look(d, Sidecar(id)), Look(d, Blob(id));
      && (r == Err(NotFound) ==> s == Absent || (s.data.Json? && s.data.car.path.Outside? && b == Absent))
      && (r == Err(Unverifiable) ==> s.Entry? && !(s.data.Json? && s.data.car.path.Outside?))
      && (r in {Ok, Preview, Err(TargetChanged), Err(DestinationExists)} ==>
          && s.Entry? && s.data.Json? && s.data.car.path.Outside? && b.Entry?
          && (r == Err(TargetChanged) <==> !s.data.car.pending && s.data.car.sha != digest(b.data))
          && (r == Ok || r == Preview ==> Look(d, s.data.car.path) == Absent)
          && (r == Err(DestinationExists) ==> Look(d, s.data.car.path) != Absent))
      && (r == Ok ==> !dryRun) && (r == Preview ==> dryRun)
      && r in {Ok, Preview, Err(NotFound), Err(Unverifiable), Err(TargetChanged), Err(DestinationExists)}
  {
  }

  // ---- the names a restore of `id` to `dest` can leave, from the names it found

  /** On the vault's volume: as found, with the blob linked to the destination, or without the blob. */
  predicate VaultNames(x: map<Path, Ino>, c: map<Path, Ino>, id: nat, dest: Path) {
    || x == c || Blob(id) !in x
    || (dest.On().VaultDevice? && Blob(id) in c && dest !in c && x == c[dest := c[Blob(id)]])
  }

  /** On the other one: as found, or with a new file at the destination. */
  predicate OtherNames(x: map<Path, Ino>, start: Disk, dest: Path) {
    var c := start.other.cur.names;
    || x == c
    || (dest.On().OtherDevice? && dest in x && dest !in c && x - {dest} == c && x[dest] !in start.data)
  }

  ghost predicate OnTrail(d: Disk, start: Disk, id: nat, dest: Path) {
    && Retains(start, d) && start.data.Keys <= d.data.Keys
    && (forall v :: d.vault.Has(v) ==> start.vault.Has(v) || VaultNames(v.names, start.vault.cur.names, id, dest))
    && (forall o :: d.other.Has(o) ==> start.other.Has(o) || OtherNames(o.names, start, dest))
  }

  /** What a crash can find once the destination exists: a link to the blob, or a file not yet synced. */
  predicate Begun(d: Disk, start: Disk, id: nat, dest: Path) {
    if dest.On().VaultDevice? then
      && Blob(id) in start.vault.cur.names
      && d.vault.cur.names == start.vault.cur.names[dest := start.vault.cur.names[Blob(id)]]
    else
      d.vault.cur.names == start.vault.cur.names && dest in d.other.cur.names && d.other.cur.names[dest] !in d.synced
  }

  /**
   Claims kept through a restore to `dest` that began on `start`; `exact` starts from a file
   the vault certainly has.
   */
  datatype Ward = Ward(c: Claim, exact: bool, start: Disk, dest: Path)

  ghost predicate Held(d: Disk, w: Ward) {
    && !w.c.mine && w.c.but == -1
    && Guard(d, w.c)
    && (w.exact ==> AllVaulted(d, w.c.f, w.c.id, w.c.digest))
    && Tracked(d, w)
  }

  ghost predicate Tracked(d: Disk, w: Ward) {
    && OnTrail(d, w.start, w.c.id, w.dest)
    && VaultNames(d.vault.cur.names, w.start.vault.cur.names, w.c.id, w.dest)
    && OtherNames(d.other.cur.names, w.start, w.dest)
  }

  ghost predicate AllHeld(seen: set<Disk>, w: Ward) {
    forall d :: d in seen ==>
      && d.Valid() && Guard(d, w.c) && (w.exact ==> InCustody(d, w.c.f, w.c.id, w.c.digest))
      && OnTrail(d, w.start, w.c.id, w.dest)
  }

  lemma TrailNarrowed(d: Disk, e: Disk, w: Ward)
    requires Tracked(d, w) && Retains(d, e) && d.data.Keys <= e.data.Keys
    requires forall v :: e.vault.Has(v) ==> d.vault.Has(v)
    requires forall o :: e.other.Has(o) ==> d.other.Has(o)
    requires e.vault.cur == d.vault.cur && e.other.cur == d.other.cur
    ensures Tracked(e, w)
  {
  }

  lemma TrailPushed(d: Disk, dev: Device, ns: Namespace, w: Ward)
    requires Tracked(d, w)
    requires dev.VaultDevice? ==> VaultNames(ns.names, w.start.vault.cur.names, w.c.id, w.dest)
    requires dev.OtherDevice? ==> OtherNames(ns.names, w.start, w.dest)
    ensures Tracked(d.Push(dev, ns), w)
  {
  }

  lemma Enough(d: Disk, w: Ward)
    requires Held(d, w)
    ensures Guard(d, w.c) && (w.exact ==> InCustody(d, w.c.f, w.c.id, w.c.digest))
    ensures OnTrail(d, w.start, w.c.id, w.dest)
  {
    if w.exact {
      forall v, o | d.vault.Has(v) && d.other.Has(o) ensures Custody(v, o, d, w.c.f, w.c.id, w.c.digest) {
        assert Vaulted(v, d, w.c.f, w.c.id, w.c.digest);
      }
    }
  }

  // ---- steps

  lemma HeldNarrowed(d: Disk, e: Disk, w: Ward)
    requires Held(d, w) && Retains(d, e) && d.data.Keys <= e.data.Keys
    requires forall v :: e.vault.Has(v) ==> d.vault.Has(v)
    requires forall o :: e.other.Has(o) ==> d.other.Has(o)
    requires e.vault.cur == d.vault.cur && e.other.cur == d.other.cur
    ensures Held(e, w)
  {
    Narrowed(d, e, w.c);
    TrailNarrowed(d, e, w);
    if w.exact {
      forall v | e.vault.Has(v) ensures Vaulted(v, e, w.c.f, w.c.id, w.c.digest) {
        assert Vaulted(v, d, w.c.f, w.c.id, w.c.digest);
      }
    }
  }

  /** A change on the vault's volume that keeps every vault name and every outside name. */
  lemma HeldPushed(d: Disk, ns: Namespace, w: Ward)
    requires Held(d, w)
    requires forall p :: Keeps(d.vault.cur, ns, p)
    requires forall i: nat :: Blob(i) in ns.names ==> Blob(i) in d.vault.cur.names
    requires VaultNames(ns.names, w.start.vault.cur.names, w.c.id, w.dest)
    ensures Held(d.Push(VaultDevice, ns), w)
  {
    TrailPushed(d, VaultDevice, ns, w);
    var v := d.vault.cur;
    assert d.vault.Has(v);
    assert Keeps(v, ns, Blob(w.c.id)) && Keeps(v, ns, Sidecar(w.c.id));
    forall o | d.other.Has(o) ensures Pair(ns, o, d, w.c) {
      assert Pair(v, o, d, w.c);
      if w.c.kept {
        StillReachable(v, o, d, ns, o, d, w.c.f, w.c.but);
        forall i: nat | Blob(i) in ns.names ensures HasRecord(ns, d, i) {
          assert HasRecord(v, d, i) && Keeps(v, ns, Sidecar(i));
        }
      }
    }
    Pushed(d, VaultDevice, ns, w.c);
    if w.exact {
      assert Vaulted(v, d, w.c.f, w.c.id, w.c.digest);
      forall u | d.Push(VaultDevice, ns).vault.Has(u) ensures Vaulted(u, d, w.c.f, w.c.id, w.c.digest) {
      }
    }
  }

  /** A change on the other volume that keeps every name. */
  lemma HeldPushedElsewhere(d: Disk, ns: Namespace, w: Ward)
    requires Held(d, w)
    requires forall p :: Keeps(d.other.cur, ns, p)
    requires OtherNames(ns.names, w.start, w.dest)
    ensures Held(d.Push(OtherDevice, ns), w)
  {
    TrailPushed(d, OtherDevice, ns, w);
    var o := d.other.cur;
    assert d.other.Has(o);
    forall v | d.vault.Has(v) ensures Pair(v, ns, d, w.c) {
      assert Pair(v, o, d, w.c);
      if w.c.kept { StillReachable(v, o, d, v, ns, d, w.c.f, w.c.but); }
    }
    Pushed(d, OtherDevice, ns, w.c);
  }

  /** Going back to names the volume had before. */
  lemma HeldBack(d0: Disk, d: Disk, dev: Device, ns: Namespace, w: Ward)
    requires Held(d0, w) && Held(d, w) && Retains(d0, d)
    requires ns.names == d0.Live(dev).names
    requires if dev.VaultDevice? then d.other == d0.other else d.vault == d0.vault
    ensures Held(d.Push(dev, ns), w)
  {
    TrailPushed(d, dev, ns, w);
    var v0, o0 := d0.vault.cur, d0.other.cur;
    assert d0.vault.Has(v0) && d0.other.Has(o0);
    if dev.VaultDevice? {
      forall o | d.other.Has(o) ensures Pair(ns, o, d, w.c) {
        assert Pair(v0, o, d0, w.c);
        if w.c.kept {
          StillReachable(v0, o, d0, ns, o, d, w.c.f, w.c.but);
          forall i: nat | Blob(i) in ns.names ensures HasRecord(ns, d, i) { assert HasRecord(v0, d0, i); }
        }
      }
      if w.exact { assert Vaulted(v0, d0, w.c.f, w.c.id, w.c.digest); }
    } else {
      forall v | d.vault.Has(v) ensures Pair(v, ns, d, w.c) {
        assert Pair(v, o0, d0, w.c) && Pair(v, d.other.cur, d, w.c);
        if w.c.kept { StillReachable(v, o0, d0, v, ns, d, w.c.f, w.c.but); }
      }
    }
    Pushed(d, dev, ns, w.c);
    if w.exact {
      forall u | d.Push(dev, ns).vault.Has(u) ensures Vaulted(u, d, w.c.f, w.c.id, w.c.digest) {
      }
    }
  }

  /** Whatever a crash does, the blob's bytes are at `home` too. */
  ghost predicate CopiedTo(d: Disk, id: nat, home: Path) {
    forall o, x ::
      d.other.Has(o) && Holds(d.vault.cur, Blob(id), d, x) ==> Holds(Home(d.vault.cur, o, home), home, d, x)
  }

  /** The blob and its record may go once every crash outcome has the bytes at home. */
  lemma BlobDropped(d: Disk, home: Path, w: Ward)
    requires Held(d, w) && home.Outside?
    requires w.c.kept ==>
      HasRecord(d.vault.cur, d, w.c.id) && d.data[d.vault.cur.names[Sidecar(w.c.id)]].car.path == home
    requires w.c.kept ==> CopiedTo(d, w.c.id, home)
    ensures var e := d.Push(VaultDevice, Unlinked(d.vault.cur, Blob(w.c.id)));
            Guard(e, w.c) && Guard(e.Push(VaultDevice, Unlinked(e.vault.cur, Sidecar(w.c.id))), w.c)
  {
    var v := d.vault.cur;
    var v1 := Unlinked(v, Blob(w.c.id));
    var v2 := Unlinked(v1, Sidecar(w.c.id));
    assert d.vault.Has(v);
    forall o | d.other.Has(o) ensures Pair(v1, o, d, w.c) && Pair(v2, o, d, w.c) { BlobGone(v, o, d, home, w); }
    var e := d.Push(VaultDevice, v1);
    Pushed(d, VaultDevice, v1, w.c);
    forall o | e.other.Has(o) ensures Pair(v2, o, e, w.c) { PairRetained(v2, o, d, e, w.c); }
    Pushed(e, VaultDevice, v2, w.c);
  }

  /** And the file stays restorable exactly if it lies at home exactly in every crash outcome. */
  lemma CustodyPasses(d: Disk, w: Ward)
    requires AllVaulted(d, w.c.f, w.c.id, w.c.digest) && w.c.f.path.Outside?
    requires forall o :: d.other.Has(o) ==> AtHome(d.vault.cur, o, d, w.c.f)
    ensures var e := d.Push(VaultDevice, Unlinked(d.vault.cur, Blob(w.c.id)));
            InCustody(e, w.c.f, w.c.id, w.c.digest) &&
            InCustody(e.Push(VaultDevice, Unlinked(e.vault.cur, Sidecar(w.c.id))), w.c.f, w.c.id, w.c.digest)
  {
    var e := d.Push(VaultDevice, Unlinked(d.vault.cur, Blob(w.c.id)));
    var g := e.Push(VaultDevice, Unlinked(e.vault.cur, Sidecar(w.c.id)));
    forall u, o | g.vault.Has(u) && g.other.Has(o) ensures Custody(u, o, g, w.c.f, w.c.id, w.c.digest) {
      assert AtHome(d.vault.cur, o, d, w.c.f);
      if d.vault.Has(u) { assert Vaulted(u, d, w.c.f, w.c.id, w.c.digest); }
    }
    forall u, o | e.vault.Has(u) && e.other.Has(o) ensures Custody(u, o, e, w.c.f, w.c.id, w.c.digest) {
      assert Custody(u, o, g, w.c.f, w.c.id, w.c.digest);
    }
  }

  lemma BlobGone(v: Namespace, o: Namespace, d: Disk, home: Path, w: Ward)
    requires Pair(v, o, d, w.c) && !w.c.mine && w.c.but == -1 && home.Outside?
    requires w.c.kept ==> HasRecord(v, d, w.c.id) && d.data[v.names[Sidecar(w.c.id)]].car.path == home
    requires w.c.kept ==> forall x :: Holds(v, Blob(w.c.id), d, x) ==> Holds(Home(v, o, home), home, d, x)
    ensures var v1 := Unlinked(v, Blob(w.c.id));
            Pair(v1, o, d, w.c) && Pair(Unlinked(v1, Sidecar(w.c.id)), o, d, w.c)
  {
    var v1 := Unlinked(v, Blob(w.c.id));
    var v2 := Unlinked(v1, Sidecar(w.c.id));
    if w.c.kept {
      forall i: nat | Blob(i) in v1.names ensures HasRecord(v1, d, i) && HasRecord(v2, d, i) {
        assert HasRecord(v, d, i);
      }
      if !Holds(Home(v, o, w.c.f.path), w.c.f.path, d, w.c.f.content) {
        var i: nat :| i != -1 && Stored(v, d, w.c.f, i);
        if i != w.c.id { assert Stored(v1, d, w.c.f, i) && Stored(v2, d, w.c.f, i); }
      }
    }
  }

  // ---- the operation

  /** Under `q` nothing changed but attributes of inode `n`, on volume `dev`. */
  predicate Alike(q: Path, a: Entry, b: Entry, dev: Device, n: Ino) {
    a == b || (q.On() == dev && a.Entry? && b.Entry? && a.ino == n && b == a.(attr := b.attr))
  }

  /** Mode 0000 on the blob, and so on every other name of its inode. */
  ghost predicate Locked(d: Disk, id: nat) {
    Look(d, Blob(id)).Entry? ==>
      forall q: Path :: q.On().VaultDevice? && Look(d, q).Entry? && Look(d, q).ino == Look(d, Blob(id)).ino
                        ==> Look(d, q).attr.mode == 0
  }

  /** A mode change of the blob, visible under every other name its inode has. */
  method Remode(h: Host, id: nat, mode: Mode, sure: bool, ghost w: Ward) returns (ok: bool)
    requires h.Valid() && Held(h.disk, w) && AllHeld(h.seen, w) && Look(h.disk, Blob(id)).Entry?
    modifies h
    ensures h.Valid() && Held(h.disk, w) && AllHeld(h.seen, w) && h.disk in h.seen && old(h.seen) <= h.seen
    ensures h.disk.other == old(h.disk.other) && (!ok ==> h.faulty && !sure)
    ensures AllAlike(old(h.disk), h.disk, VaultDevice, Look(old(h.disk), Blob(id)).ino)
    ensures Look(h.disk, Blob(id)).Entry? && Look(h.disk, Blob(id)).ino == Look(old(h.disk), Blob(id)).ino
    ensures Look(h.disk, Blob(id)).data == Look(old(h.disk), Blob(id)).data
    ensures ok && mode == 0 ==> Locked(h.disk, id)
  {
    ghost var d := h.disk;
    ok := h.Chmod(Blob(id), mode, sure);
    if ok { HeldPushed(d, h.disk.vault.cur, w); }
    Enough(h.disk, w);
  }

  lemma AlikeTwice(d: Disk, e: Disk, g: Disk, n: Ino)
    requires AllAlike(d, e, VaultDevice, n) && AllAlike(e, g, VaultDevice, n)
    ensures AllAlike(d, g, VaultDevice, n)
  {
    forall q ensures Alike(q, Look(d, q), Look(g, q), VaultDevice, n) {
      assert Alike(q, Look(d, q), Look(e, q), VaultDevice, n) && Alike(q, Look(e, q), Look(g, q), VaultDevice, n);
    }
  }

  /** Opens the locked blob by making it readable for a moment, and hashes it. */
  method OpenVaulted(h: Host, id: nat, ghost w: Ward) returns (r: Option<string>)
    requires h.Valid() && Held(h.disk, w) && AllHeld(h.seen, w) && Look(h.disk, Blob(id)).Entry?
    modifies h
    ensures h.Valid() && Held(h.disk, w) && AllHeld(h.seen, w) && h.disk in h.seen && old(h.seen) <= h.seen
    ensures h.disk.other == old(h.disk.other)
    ensures AllAlike(old(h.disk), h.disk, VaultDevice, Look(old(h.disk), Blob(id)).ino)
    ensures r.Some? ==> r.value == h.digest(Look(old(h.disk), Blob(id)).data)
    ensures r.Some? ==> Locked(h.disk, id)
    ensures r.None? ==> h.faulty
  {
    ghost var d0 := h.disk;
    var ok := Remode(h, id, 0x100, false, w);
    if !ok { return None; }
    var unreadable := h.Faults();
    ghost var d1 := h.disk;
    ok := Remode(h, id, 0, true, w);
    AlikeTwice(d0, d1, h.disk, Look(d0, Blob(id)).ino);
    if unreadable { return None; }
    r := h.HashOf(h.disk.vault.cur.names[Blob(id)]);
  }

  /** Removes a destination this restore made, back to the names of `d0`. */
  method BackOut(h: Host, dest: Path, ghost d0: Disk, ghost w: Ward)
    requires h.Valid() && Held(h.disk, w) && AllHeld(h.seen, w) && Held(d0, w) && Retains(d0, h.disk)
    requires h.disk.Live(dest.On()).names - {dest} == d0.Live(dest.On()).names
    requires if dest.On().VaultDevice? then h.disk.other == d0.other else h.disk.vault == d0.vault
    modifies h
    ensures h.Valid() && Held(h.disk, w) && AllHeld(h.seen, w) && h.disk in h.seen && old(h.seen) <= h.seen
    ensures Look(h.disk, dest) == Absent && OnlyAt(old(h.disk), h.disk, {dest})
  {
    ghost var d := h.disk;
    var gone := h.Remove(dest, true);
    HeldBack(d0, d, dest.On(), h.disk.Live(dest.On()), w);
    Enough(h.disk, w);
  }

  /** The destination is there, not yet synced; nothing else has changed. */
  predicate Appeared(d: Disk, before: Disk, dest: Path) {
    d.vault == before.vault && dest in d.other.cur.names && d.other.cur.names[dest] !in d.synced
  }

  /** The cross-device way back: a new synced file at the free destination. */
  method PlaceCopy(h: Host, content: Data, dest: Path, ghost w: Ward) returns (ok: bool)
    requires h.Valid() && Held(h.disk, w) && AllHeld(h.seen, w)
    requires dest.Outside? && dest.On().OtherDevice? && Look(h.disk, dest) == Absent && dest == w.dest
    modifies h
    ensures h.Valid() && Held(h.disk, w) && AllHeld(h.seen, w) && h.disk in h.seen && old(h.seen) <= h.seen
    ensures ok ==> exists d :: d in h.seen && Appeared(d, old(h.disk), dest)
    ensures OnlyAt(old(h.disk), h.disk, {dest})
    ensures !ok ==> h.faulty && Look(h.disk, dest) == Absent
    ensures ok ==> h.disk.vault == old(h.disk.vault) && Retains(old(h.disk), h.disk)
    ensures ok ==> dest in h.disk.other.cur.names && h.disk.other.cur.names - {dest} == old(h.disk).other.cur.names
    ensures ok ==> Look(h.disk, dest) == Entry(Look(h.disk, dest).ino, Attr(0x180, AgentUid, AgentGid), content, true)
    ensures ok ==> if h.fsyncNames then h.disk.other.past == [] else h.disk.other.Has(old(h.disk).other.cur)
    ensures ok ==> Look(h.disk, dest).ino !in old(h.disk).data
  {
    ghost var d0 := h.disk;
    var n := CreateDest(h, dest, w);
    if n.None? { return false; }
    ghost var d1 := h.disk;
    assert Appeared(d1, d0, dest) && d1 in h.seen;
    ok := WriteAndSync(h, n.value, content, w);
    if !ok { BackOut(h, dest, d0, w); }
  }

  /** Its first call: an empty file at the destination. */
  method CreateDest(h: Host, dest: Path, ghost w: Ward) returns (n: Option<Ino>)
    requires h.Valid() && Held(h.disk, w) && AllHeld(h.seen, w)
    requires dest.Outside? && dest.On().OtherDevice? && Look(h.disk, dest) == Absent && dest == w.dest
    modifies h
    ensures h.Valid() && Held(h.disk, w) && AllHeld(h.seen, w) && h.disk in h.seen && old(h.seen) <= h.seen
    ensures n.None? ==> h.faulty && h.disk == old(h.disk)
    ensures n.Some? ==>
      && n.value !in old(h.disk).data && n.value in h.disk.data && n.value !in h.disk.synced
      && h.disk.vault == old(h.disk.vault) && Retains(old(h.disk), h.disk)
      && h.disk.other.cur.names == old(h.disk).other.cur.names[dest := n.value]
      && h.disk.other.cur.names - {dest} == old(h.disk).other.cur.names
      && h.disk.other.Has(old(h.disk).other.cur)
      && OnlyAt(old(h.disk), h.disk, {dest})
      && Look(h.disk, dest) == Entry(n.value, Attr(0x180, AgentUid, AgentGid), Raw([]), false)
  {
    ghost var d0 := h.disk;
    NoNameWhenAbsent(d0, dest);
    n := h.Create(dest, 0x180);
    if n.Some? {
      NewAtDest(d0, h.disk.other.cur, n.value, w);
      HeldPushedElsewhere(d0, h.disk.other.cur, w);
      HeldNarrowed(d0.Push(OtherDevice, h.disk.other.cur), h.disk, w);
    }
    Enough(h.disk, w);
  }

  lemma NewAtDest(d: Disk, ns: Namespace, n: Ino, w: Ward)
    requires Tracked(d, w) && w.dest.On().OtherDevice? && w.dest !in d.other.cur.names && n !in d.data
    requires ns.names == d.other.cur.names[w.dest := n]
    ensures OtherNames(ns.names, w.start, w.dest)
  {
    assert ns.names - {w.dest} == d.other.cur.names;
  }

  method WriteAndSync(h: Host, n: Ino, content: Data, ghost w: Ward) returns (ok: bool)
    requires h.Valid() && Held(h.disk, w) && AllHeld(h.seen, w) && n in h.disk.data && n !in h.disk.synced
    modifies h
    ensures h.Valid() && Held(h.disk, w) && AllHeld(h.seen, w) && h.disk in h.seen && old(h.seen) <= h.seen
    ensures h.disk.vault == old(h.disk.vault) && h.disk.other.cur == old(h.disk.other.cur)
    ensures Retains(old(h.disk), h.disk)
    ensures n in h.disk.data && SameFor(old(h.disk), h.disk, n)
    ensures !ok ==> h.faulty
    ensures ok ==> h.disk.data[n] == content && n in h.disk.synced
    ensures ok ==> h.disk.other == if h.fsyncNames then old(h.disk.other).Commit() else old(h.disk.other)
  {
    ghost var d := h.disk;
    ok := h.Write(n, content);
    HeldNarrowed(d, h.disk, w);
    Enough(h.disk, w);
    if ok {
      d := h.disk;
      ok := h.SyncFile(n, OtherDevice);
      HeldNarrowed(d, h.disk, w);
      Enough(h.disk, w);
    }
  }

  /** Only attributes of the inode under `dest` changed, in steps that kept every name. */
  ghost predicate Dressed(d: Disk, e: Disk, dest: Path) {
    && Look(d, dest).Entry? && e.data == d.data && e.synced == d.synced
    && e.Live(dest.On()).names == d.Live(dest.On()).names
    && (if dest.On().VaultDevice? then e.other == d.other else e.vault == d.vault)
    && (dest.On().OtherDevice? ==> forall o :: d.other.Has(o) ==> e.other.Has(o))
    && (dest.On().OtherDevice? ==> forall o :: e.other.Has(o) ==> d.other.Has(o) || o.names == d.other.cur.names)
    && AllAlike(d, e, dest.On(), Look(d, dest).ino)
  }

  ghost predicate AllAlike(d: Disk, e: Disk, dev: Device, n: Ino) {
    forall q :: Alike(q, Look(d, q), Look(e, q), dev, n)
  }

  lemma DressedTwice(d: Disk, e: Disk, g: Disk, dest: Path)
    requires Dressed(d, e, dest) && Dressed(e, g, dest)
    ensures Dressed(d, g, dest)
  {
    assert Alike(dest, Look(d, dest), Look(e, dest), dest.On(), Look(d, dest).ino);
    forall q ensures Alike(q, Look(d, q), Look(g, q), dest.On(), Look(d, dest).ino) {
      assert Alike(q, Look(d, q), Look(e, q), dest.On(), Look(d, dest).ino);
      assert Alike(q, Look(e, q), Look(g, q), dest.On(), Look(e, dest).ino);
    }
  }

  lemma SameDressed(d: Disk, dest: Path)
    requires Look(d, dest).Entry?
    ensures Dressed(d, d, dest)
  {
  }

  method SetOwner(h: Host, dest: Path, uid: nat, gid: nat, ghost w: Ward) returns (ok: bool)
    requires h.Valid() && Held(h.disk, w) && AllHeld(h.seen, w) && Look(h.disk, dest).Entry?
    modifies h
    ensures h.Valid() && Held(h.disk, w) && AllHeld(h.seen, w) && h.disk in h.seen && old(h.seen) <= h.seen
    ensures Dressed(old(h.disk), h.disk, dest) && (!ok ==> h.faulty)
    ensures ok ==> var e := Look(old(h.disk), dest); Look(h.disk, dest) == e.(attr := Chowned(e.attr, uid, gid))
  {
    ghost var d := h.disk;
    SameDressed(d, dest);
    ok := h.Chown(dest, uid, gid);
    if ok { HeldDressed(d, dest, h.disk.Live(dest.On()), w); }
    Enough(h.disk, w);
  }

  method SetMode(h: Host, dest: Path, mode: Mode, ghost w: Ward) returns (ok: bool)
    requires h.Valid() && Held(h.disk, w) && AllHeld(h.seen, w) && Look(h.disk, dest).Entry?
    modifies h
    ensures h.Valid() && Held(h.disk, w) && AllHeld(h.seen, w) && h.disk in h.seen && old(h.seen) <= h.seen
    ensures Dressed(old(h.disk), h.disk, dest) && (!ok ==> h.faulty)
    ensures ok ==> var e := Look(old(h.disk), dest); Look(h.disk, dest) == e.(attr := e.attr.(mode := mode))
  {
    ghost var d := h.disk;
    SameDressed(d, dest);
    ok := h.Chmod(dest, mode, false);
    if ok { HeldDressed(d, dest, h.disk.Live(dest.On()), w); }
    Enough(h.disk, w);
  }

  /** Owner first (chown drops the setuid bits), then the mode. */
  method Dress(h: Host, dest: Path, attr: Attr, ghost w: Ward) returns (ok: bool)
    requires h.Valid() && Held(h.disk, w) && AllHeld(h.seen, w) && Look(h.disk, dest).Entry?
    modifies h
    ensures h.Valid() && Held(h.disk, w) && AllHeld(h.seen, w) && h.disk in h.seen && old(h.seen) <= h.seen
    ensures Dressed(old(h.disk), h.disk, dest) && (!ok ==> h.faulty)
    ensures ok ==> Look(h.disk, dest) == Look(old(h.disk), dest).(attr := attr)
  {
    ghost var d := h.disk;
    ok := SetOwner(h, dest, attr.uid, attr.gid, w);
    if !ok { return; }
    ghost var e := h.disk;
    ok := SetMode(h, dest, attr.mode, w);
    DressedTwice(d, e, h.disk, dest);
  }

  lemma HeldDressed(d: Disk, p: Path, ns: Namespace, w: Ward)
    requires Held(d, w) && ns.names == d.Live(p.On()).names
    ensures Held(d.Push(p.On(), ns), w)
  {
    if p.On().VaultDevice? { HeldPushed(d, ns, w); } else { HeldPushedElsewhere(d, ns, w); }
  }

  lemma TrailDropped(d: Disk, w: Ward)
    requires Tracked(d, w)
    ensures var e := d.Push(VaultDevice, Unlinked(d.vault.cur, Blob(w.c.id)));
      && OnTrail(e, w.start, w.c.id, w.dest)
      && OnTrail(e.Push(VaultDevice, Unlinked(e.vault.cur, Sidecar(w.c.id))), w.start, w.c.id, w.dest)
  {
    var e := d.Push(VaultDevice, Unlinked(d.vault.cur, Blob(w.c.id)));
    TrailPushed(d, VaultDevice, e.vault.cur, w);
    TrailPushed(e, VaultDevice, Unlinked(e.vault.cur, Sidecar(w.c.id)), w);
  }

  /** The last two calls: the blob, then its record. */
  method Discard(h: Host, id: nat, home: Path, ghost w: Ward)
    requires h.Valid() && Held(h.disk, w) && AllHeld(h.seen, w) && w.c.id == id && home.Outside?
    requires w.c.kept ==> RecordOf(h.disk, id, home)
    requires w.c.kept ==> CopiedTo(h.disk, id, home)
    requires w.exact ==> forall o :: h.disk.other.Has(o) ==> AtHome(h.disk.vault.cur, o, h.disk, w.c.f)
    requires w.exact ==> w.c.f.path.Outside?
    modifies h
    ensures h.Valid() && AllHeld(h.seen, w) && h.disk in h.seen && old(h.seen) <= h.seen
    ensures h.disk.other == old(h.disk.other) && OnlyAt(old(h.disk), h.disk, {Blob(id), Sidecar(id)})
    ensures Blob(id) !in h.disk.vault.cur.names && Sidecar(id) !in h.disk.vault.cur.names
  {
    BlobDropped(h.disk, home, w);
    if w.exact { CustodyPasses(h.disk, w); }
    TrailDropped(h.disk, w);
    var gone := h.Remove(Blob(id), true);
    gone := h.Remove(Sidecar(id), true);
  }

  /** Nothing but attributes of the blob's own inode changed. */
  predicate Same(q: Path, a: Entry, b: Entry, blob: Entry) {
    a == b || (blob.Entry? && Alike(q, a, b, VaultDevice, blob.ino))
  }

  /** Whether the bytes survive a crash after a successful restore to `dest`. */
  predicate BytesSafe(fsyncNames: bool, dest: Path) { dest.On().VaultDevice? || fsyncNames }

  /**
   What a crash may find on the other volume after a restore to it: no destination
   at all, or, when syncing a file commits its name, one with the agent's own owner
   and mode.
   */
  predicate LeftBehind(o: Namespace, dest: Path, fsyncNames: bool) {
    if fsyncNames then dest in o.names && AttrAt(o, dest) == Attr(0x180, AgentUid, AgentGid) else dest !in o.names
  }

  /** What is left of a claim once the file is back at `dest`. */
  function After(w: Ward, fsyncNames: bool, dest: Path): Ward {
    w.(c := w.c.(kept := w.c.kept && BytesSafe(fsyncNames, dest)), exact := w.exact && dest.On().VaultDevice?)
  }

  lemma Weakened(d: Disk, seen: set<Disk>, w: Ward, fsyncNames: bool, dest: Path)
    requires Held(d, w) && AllHeld(seen, w)
    ensures Held(d, After(w, fsyncNames, dest)) && AllHeld(seen, After(w, fsyncNames, dest))
  {
    var k := After(w, fsyncNames, dest).c;
    forall e | e in seen || e == d ensures Guard(e, k) {
      forall v, o | e.vault.Has(v) && e.other.Has(o) ensures Pair(v, o, e, k) { assert Pair(v, o, e, w.c); }
    }
  }

  lemma Reaped(seen: set<Disk>, w: Ward)
    requires AllHeld(seen, w) && w.c.but == -1
    ensures w.c.kept ==> forall d :: d in seen ==> Kept(d, w.c.f)
    ensures w.exact ==> forall d :: d in seen ==> InCustody(d, w.c.f, w.c.id, w.c.digest)
    ensures forall d :: d in seen ==> d.Valid() && OnTrail(d, w.start, w.c.id, w.dest)
  {
    forall d | d in seen && w.c.kept ensures Kept(d, w.c.f) { Meaning(d, w.c); }
  }

  /** On one volume the destination is the blob's own inode, so the bytes are home already. */
  lemma LinkedHome(d: Disk, id: nat, dest: Path, car: Car, w: Ward)
    requires Held(d, w) && w.c.id == id && dest.Outside? && dest.On().VaultDevice? && dest == car.path
    requires Blob(id) in d.vault.cur.names && dest in d.vault.cur.names
    requires d.vault.cur.names[dest] == d.vault.cur.names[Blob(id)] && AttrAt(d.vault.cur, dest) == car.attr
    requires Look(d, Sidecar(id)).Entry? && Look(d, Sidecar(id)).data == Json(car)
    ensures w.c.kept ==> RecordOf(d, id, dest)
    ensures CopiedTo(d, id, dest)
    ensures w.exact ==> w.c.f.path == dest && forall o :: d.other.Has(o) ==> AtHome(d.vault.cur, o, d, w.c.f)
  {
    var v := d.vault.cur;
    assert d.vault.Has(v) && d.other.Has(d.other.cur);
    if w.exact { assert Vaulted(v, d, w.c.f, id, w.c.digest); }
    if w.c.kept { assert Pair(v, d.other.cur, d, w.c) && HasRecord(v, d, id); }
  }

  /** With the destination's name committed by its sync, every crash outcome has the copy. */
  lemma CopiedHome(d: Disk, id: nat, dest: Path, car: Car, w: Ward)
    requires Held(d, w) && w.c.kept && w.c.id == id && dest.Outside? && dest.On().OtherDevice? && dest == car.path
    requires Look(d, Sidecar(id)).Entry? && Look(d, Sidecar(id)).data == Json(car) && Look(d, Blob(id)).Entry?
    requires forall o :: d.other.Has(o) ==> Holds(o, dest, d, Look(d, Blob(id)).data)
    ensures RecordOf(d, id, dest)
    ensures CopiedTo(d, id, dest)
  {
    assert d.vault.Has(d.vault.cur) && d.other.Has(d.other.cur);
    assert Pair(d.vault.cur, d.other.cur, d, w.c) && HasRecord(d.vault.cur, d, id);
  }

  lemma BeginsHeld(d: Disk, w: Ward)
    requires !w.c.mine && w.c.but == -1
    requires w.c.kept ==> w.c.f.path.Outside? && Kept(d, w.c.f)
    requires w.exact ==> AllVaulted(d, w.c.f, w.c.id, w.c.digest)
    requires w.start == d
    ensures Held(d, w)
  {
    forall v, o | d.vault.Has(v) && d.other.Has(o) ensures Pair(v, o, d, w.c) {
      if w.c.kept { assert Reachable(v, o, d, w.c.f, -1) && Orderly(v, d); }
    }
  }

  /** What a successful return leaves: the file at its path with its attributes, and an empty vault entry. */
  ghost predicate Returned(d0: Disk, d: Disk, id: nat, car: Car) {
    && Look(d0, Blob(id)).Entry? && Look(d, car.path).Entry?
    && Look(d, car.path).data == Look(d0, Blob(id)).data && Look(d, car.path).attr == car.attr
    && Look(d, Blob(id)) == Absent && Look(d, Sidecar(id)) == Absent
    && forall q :: q !in {car.path, Blob(id), Sidecar(id)} ==> Same(q, Look(d0, q), Look(d, q), Look(d0, Blob(id)))
  }

  ghost predicate BegunIn(seen: set<Disk>, start: Disk, id: nat, dest: Path) {
    exists d :: d in seen && Begun(d, start, id, dest)
  }

  ghost predicate SomeLeftBehind(d: Disk, dest: Path, fsyncNames: bool) {
    exists o :: d.other.Has(o) && LeftBehind(o, dest, fsyncNames)
  }

  /** Before the blob is linked or copied the names are those found at the start. */
  lemma NamesAsFound(d: Disk, w: Ward)
    requires Tracked(d, w) && Blob(w.c.id) in d.vault.cur.names
    requires w.dest.On().OtherDevice? || w.dest !in d.vault.cur.names
    ensures d.vault.cur.names == w.start.vault.cur.names
  {
  }

  /** Puts the blob back at the recorded path, by hard link or by copy. */
  method Give(h: Host, id: nat, car: Car, ghost w: Ward) returns (r: Outcome)
    requires h.Valid() && Held(h.disk, w) && AllHeld(h.seen, w) && w.c.id == id && w.dest == car.path
    requires Look(h.disk, Sidecar(id)).Entry? && Look(h.disk, Sidecar(id)).data == Json(car) && car.path.Outside?
    requires Look(h.disk, Blob(id)).Entry? && Look(h.disk, car.path) == Absent
    modifies h
    ensures h.Valid() && h.disk in h.seen
    ensures r == Ok || (r == Err(Io) && h.faulty)
    ensures AllHeld(h.seen, if r == Ok then After(w, h.fsyncNames, car.path) else w)
    ensures r == Ok ==> Returned(old(h.disk), h.disk, id, car) && BegunIn(h.seen, w.start, id, car.path)
    ensures r != Ok ==> AllAlike(old(h.disk), h.disk, VaultDevice, Look(old(h.disk), Blob(id)).ino)
    ensures r == Ok && car.path.On().OtherDevice? ==> SomeLeftBehind(h.disk, car.path, h.fsyncNames)
  {
    ghost var d0 := h.disk;
    assert car.path !in d0.Live(car.path.On()).names by { NoNameWhenAbsent(d0, car.path); }
    NamesAsFound(d0, w);
    var move := h.Link(Blob(id), car.path);
    match move
    case Done =>
      HeldPushed(d0, h.disk.vault.cur, w);
      Enough(h.disk, w);
      assert Begun(h.disk, w.start, id, car.path);
      r := GiveLinked(h, id, car, d0, w);
    case CrossDevice =>
      Enough(h.disk, w);
      r := GiveCopied(h, id, car, w);
    case IoError =>
      Enough(h.disk, w);
      r := Err(Io);
  }

  method GiveLinked(h: Host, id: nat, car: Car, ghost d0: Disk, ghost w: Ward) returns (r: Outcome)
    requires h.Valid() && Held(h.disk, w) && AllHeld(h.seen, w) && w.c.id == id && w.dest == car.path
    requires Held(d0, w) && car.path.Outside? && car.path.On().VaultDevice?
    requires Look(d0, Sidecar(id)).Entry? && Look(d0, Sidecar(id)).data == Json(car)
    requires Blob(id) in d0.vault.cur.names && car.path !in d0.vault.cur.names
    requires h.disk.vault.cur == Linked(d0.vault.cur, Blob(id), car.path)
    requires h.disk.other == d0.other && Retains(d0, h.disk)
    requires OnlyAt(d0, h.disk, {car.path}) && Look(h.disk, car.path) == Look(d0, Blob(id)) && Look(d0, Blob(id)).Entry?
    requires Look(d0, car.path) == Absent
    modifies h
    ensures h.Valid() && h.disk in h.seen && old(h.seen) <= h.seen
    ensures r == Ok || (r == Err(Io) && h.faulty)
    ensures AllHeld(h.seen, w)
    ensures r == Ok ==> Returned(d0, h.disk, id, car)
    ensures r != Ok ==> AllAlike(d0, h.disk, VaultDevice, Look(d0, Blob(id)).ino)
  {
    assert h.disk.vault.cur.names - {car.path} == d0.vault.cur.names;
    ghost var d1 := h.disk;
    var ok := DressLinked(h, car, d0, w);
    if !ok { return Err(Io); }
    ghost var d2 := h.disk;
    StillLinked(d1, d2, id, car);
    LinkedHome(d2, id, car.path, car, w);
    Discard(h, id, car.path, w);
    GivenBack(d0, d1, d2, h.disk, id, car);
    r := Ok;
  }

  /** Owner and mode of the linked file; if that fails, the link goes again. */
  method DressLinked(h: Host, car: Car, ghost d0: Disk, ghost w: Ward) returns (ok: bool)
    requires h.Valid() && Held(h.disk, w) && AllHeld(h.seen, w) && Held(d0, w) && Retains(d0, h.disk)
    requires car.path.On().VaultDevice? && car.path !in d0.vault.cur.names && Look(d0, car.path) == Absent
    requires h.disk.vault.cur.names - {car.path} == d0.vault.cur.names && h.disk.other == d0.other
    requires OnlyAt(d0, h.disk, {car.path}) && Look(h.disk, car.path).Entry?
    modifies h
    ensures h.Valid() && Held(h.disk, w) && AllHeld(h.seen, w) && h.disk in h.seen && old(h.seen) <= h.seen
    ensures ok ==> Dressed(old(h.disk), h.disk, car.path)
    ensures ok ==> Look(h.disk, car.path) == Look(old(h.disk), car.path).(attr := car.attr)
    ensures !ok ==> h.faulty && AllAlike(d0, h.disk, VaultDevice, Look(old(h.disk), car.path).ino)
  {
    ghost var d1 := h.disk;
    ok := Dress(h, car.path, car.attr, w);
    if !ok {
      ghost var d2 := h.disk;
      BackOut(h, car.path, d0, w);
      Undressed(d0, d1, d2, h.disk, car.path);
    }
  }

  /** Taking back the link leaves only the attributes changed. */
  lemma Undressed(d0: Disk, d1: Disk, d2: Disk, d3: Disk, dest: Path)
    requires OnlyAt(d0, d1, {dest}) && Look(d0, dest) == Absent && Look(d3, dest) == Absent && dest.On().VaultDevice?
    requires Dressed(d1, d2, dest) && OnlyAt(d2, d3, {dest})
    ensures AllAlike(d0, d3, VaultDevice, Look(d1, dest).ino)
  {
    forall q ensures Alike(q, Look(d0, q), Look(d3, q), VaultDevice, Look(d1, dest).ino) {
      assert Alike(q, Look(d1, q), Look(d2, q), VaultDevice, Look(d1, dest).ino);
    }
  }

  /** After dressing, the link is still the blob's inode, now with the recorded attributes. */
  lemma StillLinked(d1: Disk, d2: Disk, id: nat, car: Car)
    requires Dressed(d1, d2, car.path) && car.path.On().VaultDevice?
    requires Look(d1, Sidecar(id)).Entry? && Look(d1, Blob(id)).Entry?
    requires Look(d1, Blob(id)).ino == Look(d1, car.path).ino
    requires Look(d2, car.path) == Look(d1, car.path).(attr := car.attr)
    ensures Look(d2, Sidecar(id)).Entry? && Look(d2, Sidecar(id)).data == Look(d1, Sidecar(id)).data
    ensures Blob(id) in d2.vault.cur.names && car.path in d2.vault.cur.names
    ensures d2.vault.cur.names[car.path] == d2.vault.cur.names[Blob(id)] && AttrAt(d2.vault.cur, car.path) == car.attr
  {
    assert Alike(Sidecar(id), Look(d1, Sidecar(id)), Look(d2, Sidecar(id)), VaultDevice, Look(d1, car.path).ino);
    assert Alike(Blob(id), Look(d1, Blob(id)), Look(d2, Blob(id)), VaultDevice, Look(d1, car.path).ino);
  }

  lemma GivenBack(d0: Disk, d1: Disk, d2: Disk, d3: Disk, id: nat, car: Car)
    requires car.path.Outside? && Look(d0, Blob(id)).Entry?
    requires OnlyAt(d0, d1, {car.path}) && Look(d1, car.path) == Look(d0, Blob(id)) && car.path.On().VaultDevice?
    requires Dressed(d1, d2, car.path) && Look(d2, car.path) == Look(d1, car.path).(attr := car.attr)
    requires OnlyAt(d2, d3, {Blob(id), Sidecar(id)}) && Look(d3, Blob(id)) == Absent && Look(d3, Sidecar(id)) == Absent
    ensures Returned(d0, d3, id, car)
  {
    forall q | q !in {car.path, Blob(id), Sidecar(id)} ensures Same(q, Look(d0, q), Look(d3, q), Look(d0, Blob(id))) {
      assert Alike(q, Look(d1, q), Look(d2, q), VaultDevice, Look(d1, car.path).ino);
    }
  }

  /** The copy at the destination, with its owner and mode; or nothing at all. */
  method CopyHome(h: Host, id: nat, car: Car, ghost w: Ward) returns (ok: bool)
    requires h.Valid() && Held(h.disk, w) && AllHeld(h.seen, w) && w.c.id == id && w.dest == car.path
    requires car.path.Outside? && car.path.On().OtherDevice?
    requires Look(h.disk, Blob(id)).Entry? && Look(h.disk, car.path) == Absent
    modifies h
    ensures h.Valid() && Held(h.disk, w) && AllHeld(h.seen, w) && h.disk in h.seen && old(h.seen) <= h.seen
    ensures OnlyAt(old(h.disk), h.disk, {car.path})
    ensures !ok ==> h.faulty && Look(h.disk, car.path) == Absent
    ensures ok ==> exists d :: d in h.seen && Appeared(d, old(h.disk), car.path)
    ensures ok ==> SomeLeftBehind(h.disk, car.path, h.fsyncNames)
    ensures ok ==> var e := Look(h.disk, car.path);
      e.Entry? && e.data == Look(old(h.disk), Blob(id)).data && e.attr == car.attr
    ensures ok && h.fsyncNames ==>
      forall o :: h.disk.other.Has(o) ==> Holds(o, car.path, h.disk, Look(old(h.disk), Blob(id)).data)
  {
    ghost var d0 := h.disk;
    ok := PlaceCopy(h, h.disk.data[h.disk.vault.cur.names[Blob(id)]], car.path, w);
    if !ok { return; }
    ok := DressCopy(h, car, d0, w);
  }

  /** Owner and mode of the copy; if that fails, the copy goes again. */
  method DressCopy(h: Host, car: Car, ghost d0: Disk, ghost w: Ward) returns (ok: bool)
    requires h.Valid() && Held(h.disk, w) && AllHeld(h.seen, w) && Held(d0, w) && Retains(d0, h.disk)
    requires car.path.On().OtherDevice? && Look(d0, car.path) == Absent && car.path !in d0.other.cur.names
    requires h.disk.other.cur.names - {car.path} == d0.other.cur.names && h.disk.vault == d0.vault
    requires OnlyAt(d0, h.disk, {car.path}) && Fresh(d0, h.disk, car.path, h.fsyncNames)
    modifies h
    ensures h.Valid() && Held(h.disk, w) && AllHeld(h.seen, w) && h.disk in h.seen && old(h.seen) <= h.seen
    ensures OnlyAt(d0, h.disk, {car.path})
    ensures !ok ==> h.faulty && Look(h.disk, car.path) == Absent
    ensures ok ==> SomeLeftBehind(h.disk, car.path, h.fsyncNames)
    ensures ok ==> Look(h.disk, car.path) == Look(old(h.disk), car.path).(attr := car.attr)
    ensures ok && h.fsyncNames ==>
      forall o :: h.disk.other.Has(o) ==> Holds(o, car.path, h.disk, Look(old(h.disk), car.path).data)
  {
    ghost var d1 := h.disk;
    ok := Dress(h, car.path, car.attr, w);
    OnlyTheCopy(d0, d1, h.disk, car.path);
    if !ok {
      BackOut(h, car.path, d0, w);
      return;
    }
    CopyStays(d0, d1, h.disk, car.path, h.fsyncNames);
  }

  /** A copy just placed: a new inode, synced whole; its name committed or not. */
  ghost predicate Fresh(d0: Disk, d: Disk, dest: Path, fsyncNames: bool) {
    && Look(d, dest).Entry? && Look(d, dest).synced && Look(d, dest).attr == Attr(0x180, AgentUid, AgentGid)
    && Look(d, dest).ino !in d0.data && d0.Valid()
    && if fsyncNames then d.other.past == [] else d.other.Has(d0.other.cur)
  }

  /** Attributes of a new inode are seen under no other name. */
  lemma OnlyTheCopy(d0: Disk, d1: Disk, d2: Disk, dest: Path)
    requires OnlyAt(d0, d1, {dest}) && Dressed(d1, d2, dest) && d0.Valid() && Look(d1, dest).ino !in d0.data
    ensures OnlyAt(d0, d2, {dest})
  {
    forall q | q != dest ensures Look(d2, q) == Look(d0, q) {
      assert Alike(q, Look(d1, q), Look(d2, q), dest.On(), Look(d1, dest).ino);
      assert Look(d1, q) == Look(d0, q);
    }
  }

  lemma CopyStays(d0: Disk, d1: Disk, d2: Disk, dest: Path, fsyncNames: bool)
    requires Fresh(d0, d1, dest, fsyncNames) && Dressed(d1, d2, dest) && dest.On().OtherDevice?
    requires dest !in d0.other.cur.names
    ensures SomeLeftBehind(d2, dest, fsyncNames)
    ensures fsyncNames ==> forall o :: d2.other.Has(o) ==> Holds(o, dest, d2, Look(d1, dest).data)
  {
    var o := if fsyncNames then d1.other.cur else d0.other.cur;
    assert d2.other.Has(o) && LeftBehind(o, dest, fsyncNames);
  }

  method GiveCopied(h: Host, id: nat, car: Car, ghost w: Ward) returns (r: Outcome)
    requires h.Valid() && Held(h.disk, w) && AllHeld(h.seen, w) && w.c.id == id && w.dest == car.path
    requires Look(h.disk, Sidecar(id)).Entry? && Look(h.disk, Sidecar(id)).data == Json(car)
    requires car.path.Outside? && car.path.On().OtherDevice?
    requires Look(h.disk, Blob(id)).Entry? && Look(h.disk, car.path) == Absent
    requires h.disk.vault.cur.names == w.start.vault.cur.names
    modifies h
    ensures h.Valid() && h.disk in h.seen
    ensures r == Ok || (r == Err(Io) && h.faulty)
    ensures AllHeld(h.seen, if r == Ok then After(w, h.fsyncNames, car.path) else w)
    ensures r == Ok ==> Returned(old(h.disk), h.disk, id, car) && BegunIn(h.seen, w.start, id, car.path)
    ensures r != Ok ==> forall q :: Look(h.disk, q) == Look(old(h.disk), q)
    ensures r == Ok ==> SomeLeftBehind(h.disk, car.path, h.fsyncNames)
  {
    ghost var d0 := h.disk;
    var ok := CopyHome(h, id, car, w);
    if !ok { return Err(Io); }
    ghost var d1, seen1 := h.disk, h.seen;
    AppearedIsBegun(seen1, d0, id, car.path, w);
    CopyAndRecord(d0, d1, id, car);
    DropCopied(h, id, car, w);
    BegunGrows(seen1, h.seen, w.start, id, car.path);
    CopiedBack(d0, d1, h.disk, id, car);
    LeftBehindStays(d1, h.disk, car.path, h.fsyncNames);
    r := Ok;
  }

  lemma CopyAndRecord(d0: Disk, d1: Disk, id: nat, car: Car)
    requires OnlyAt(d0, d1, {car.path}) && car.path.Outside?
    ensures Look(d1, Sidecar(id)) == Look(d0, Sidecar(id)) && Look(d1, Blob(id)) == Look(d0, Blob(id))
  {
  }

  lemma BegunGrows(seen: set<Disk>, more: set<Disk>, start: Disk, id: nat, dest: Path)
    requires seen <= more && BegunIn(seen, start, id, dest)
    ensures BegunIn(more, start, id, dest)
  {
  }

  lemma LeftBehindStays(d: Disk, e: Disk, dest: Path, fsyncNames: bool)
    requires SomeLeftBehind(d, dest, fsyncNames) && e.other == d.other
    ensures SomeLeftBehind(e, dest, fsyncNames)
  {
  }

  lemma CopiedBack(d0: Disk, d1: Disk, d2: Disk, id: nat, car: Car)
    requires car.path.Outside? && Look(d0, Blob(id)).Entry? && OnlyAt(d0, d1, {car.path})
    requires Look(d1, car.path).Entry? && Look(d1, car.path).data == Look(d0, Blob(id)).data
    requires Look(d1, car.path).attr == car.attr
    requires OnlyAt(d1, d2, {Blob(id), Sidecar(id)}) && Look(d2, Blob(id)) == Absent && Look(d2, Sidecar(id)) == Absent
    ensures Returned(d0, d2, id, car)
  {
  }

  lemma AppearedIsBegun(seen: set<Disk>, d0: Disk, id: nat, dest: Path, w: Ward)
    requires dest.On().OtherDevice? && d0.vault.cur.names == w.start.vault.cur.names
    requires exists d :: d in seen && Appeared(d, d0, dest)
    ensures BegunIn(seen, w.start, id, dest)
  {
    var d :| d in seen && Appeared(d, d0, dest);
    assert Begun(d, w.start, id, dest);
  }

  /** With the copy in place, the blob and its record go. */
  method DropCopied(h: Host, id: nat, car: Car, ghost w: Ward)
    requires h.Valid() && Held(h.disk, w) && AllHeld(h.seen, w) && w.c.id == id
    requires Look(h.disk, Sidecar(id)).Entry? && Look(h.disk, Sidecar(id)).data == Json(car)
    requires car.path.Outside? && car.path.On().OtherDevice? && Look(h.disk, Blob(id)).Entry?
    requires h.fsyncNames ==>
      forall o :: h.disk.other.Has(o) ==> Holds(o, car.path, h.disk, Look(h.disk, Blob(id)).data)
    modifies h
    ensures h.Valid() && h.disk in h.seen && old(h.seen) <= h.seen
    ensures AllHeld(h.seen, After(w, h.fsyncNames, car.path))
    ensures h.disk.other == old(h.disk.other) && OnlyAt(old(h.disk), h.disk, {Blob(id), Sidecar(id)})
    ensures Look(h.disk, Blob(id)) == Absent && Look(h.disk, Sidecar(id)) == Absent
  {
    Weakened(h.disk, h.seen, w, h.fsyncNames, car.path);
    ghost var k := After(w, h.fsyncNames, car.path);
    if k.c.kept { CopiedHome(h.disk, id, car.path, car, k); }
    Discard(h, id, car.path, k);
  }

  /** The checks in order, then the move. */
  method Attempt(h: Host, id: nat, dryRun: bool, ghost w: Ward) returns (r: Outcome)
    requires h.Valid() && Held(h.disk, w) && AllHeld(h.seen, w) && w.c.id == id && h.disk in h.seen
    requires w.dest == RecordedPath(h.disk, id)
    modifies h
    ensures h.Valid() && h.disk in h.seen
    ensures r == Verdict(old(h.disk), id, dryRun, h.digest) || (h.faulty && r == Err(Io))
    ensures AllHeld(h.seen, if r == Ok then After(w, h.fsyncNames, w.dest) else w)
    ensures r == Ok ==> Returned(old(h.disk), h.disk, id, Look(old(h.disk), Sidecar(id)).data.car)
    ensures r == Ok ==> BegunIn(h.seen, w.start, id, w.dest)
    ensures r != Ok ==> forall q :: Same(q, Look(old(h.disk), q), Look(h.disk, q), Look(old(h.disk), Blob(id)))
    ensures r in {Preview, Err(TargetChanged), Err(DestinationExists)} ==> Locked(h.disk, id)
    ensures r == Ok && w.dest.On().OtherDevice? ==> SomeLeftBehind(h.disk, w.dest, h.fsyncNames)
  {
    ghost var d0 := h.disk;
    var early := Examine(h, id, dryRun, w);
    if early.Some? { return early.value; }
    ghost var d1 := h.disk;
    var car := h.disk.data[h.disk.vault.cur.names[Sidecar(id)]].car;
    r := Give(h, id, car, w);
    if r == Ok { ReturnedFrom(d0, d1, h.disk, id, car); } else { StillSame(d0, d1, h.disk, id); }
  }

  /** The checks: an answer, or none if the move can begin. */
  method Examine(h: Host, id: nat, dryRun: bool, ghost w: Ward) returns (r: Option<Outcome>)
    requires h.Valid() && Held(h.disk, w) && AllHeld(h.seen, w) && w.c.id == id && h.disk in h.seen
    modifies h
    ensures h.Valid() && Held(h.disk, w) && AllHeld(h.seen, w) && h.disk in h.seen
    ensures r.Some? ==> r.value != Ok
    ensures r.Some? ==> r.value == Verdict(old(h.disk), id, dryRun, h.digest) || (h.faulty && r.value == Err(Io))
    ensures r.Some? ==> forall q :: Same(q, Look(old(h.disk), q), Look(h.disk, q), Look(old(h.disk), Blob(id)))
    ensures r.Some? && r.value in {Preview, Err(TargetChanged), Err(DestinationExists)} ==> Locked(h.disk, id)
    ensures r.None? ==> Verdict(old(h.disk), id, dryRun, h.digest) == Ok
    ensures r.None? ==> AllAlike(old(h.disk), h.disk, VaultDevice, Look(old(h.disk), Blob(id)).ino)
    ensures r.None? ==>
      && Look(h.disk, Sidecar(id)).Entry? && Look(h.disk, Sidecar(id)).data == Look(old(h.disk), Sidecar(id)).data
      && Look(h.disk, Blob(id)).Entry? && Look(h.disk, RecordedPath(old(h.disk), id)) == Absent
  {
    var broken := h.Faults();
    if broken { return Some(Err(Io)); }
    var ns := h.disk.vault.cur;
    if Sidecar(id) !in ns.names { return Some(Err(NotFound)); }
    var x := h.disk.data[ns.names[Sidecar(id)]];
    if !x.Json? { return Some(Err(Unverifiable)); }
    if !x.car.path.Outside? { return Some(Err(Unverifiable)); }
    if Blob(id) !in ns.names { return Some(Err(NotFound)); }
    ghost var d0 := h.disk;
    var sha := OpenVaulted(h, id, w);
    if sha.None? { return Some(Err(Io)); }
    if !x.car.pending && sha.value != x.car.sha { return Some(Err(TargetChanged)); }
    AlikeAt(d0, h.disk, x.car.path, id);
    AlikeAt(d0, h.disk, Sidecar(id), id);
    if x.car.path in h.disk.Live(x.car.path.On()).names { return Some(Err(DestinationExists)); }
    if dryRun { return Some(Preview); }
    AlikeAt(d0, h.disk, Blob(id), id);
    return None;
  }

  lemma AlikeAt(d: Disk, e: Disk, q: Path, id: nat)
    requires Look(d, Blob(id)).Entry? && AllAlike(d, e, VaultDevice, Look(d, Blob(id)).ino)
    ensures Alike(q, Look(d, q), Look(e, q), VaultDevice, Look(d, Blob(id)).ino)
  {
  }

  lemma StillSame(d0: Disk, d1: Disk, d: Disk, id: nat)
    requires Look(d0, Blob(id)).Entry? && AllAlike(d0, d1, VaultDevice, Look(d0, Blob(id)).ino)
    requires Look(d1, Blob(id)).Entry? && AllAlike(d1, d, VaultDevice, Look(d1, Blob(id)).ino)
    ensures forall q :: Same(q, Look(d0, q), Look(d, q), Look(d0, Blob(id)))
  {
    AlikeAt(d0, d1, Blob(id), id);
    forall q ensures Same(q, Look(d0, q), Look(d, q), Look(d0, Blob(id))) {
      AlikeAt(d0, d1, q, id);
      AlikeAt(d1, d, q, id);
    }
  }

  /** The path a record names, if it can be read. */
  function RecordedPath(d: Disk, id: nat): Path {
    var s := Look(d, Sidecar(id));
    if s.Entry? && s.data.Json? then s.data.car.path else SidecarTmp(id)
  }

  lemma ReturnedFrom(d0: Disk, d1: Disk, d: Disk, id: nat, car: Car)
    requires Look(d0, Blob(id)).Entry? && Returned(d1, d, id, car)
    requires AllAlike(d0, d1, VaultDevice, Look(d0, Blob(id)).ino)
    ensures Returned(d0, d, id, car)
  {
    assert Alike(Blob(id), Look(d0, Blob(id)), Look(d1, Blob(id)), VaultDevice, Look(d0, Blob(id)).ino);
    forall q | q !in {car.path, Blob(id), Sidecar(id)} ensures Same(q, Look(d0, q), Look(d, q), Look(d0, Blob(id))) {
      assert Alike(q, Look(d0, q), Look(d1, q), VaultDevice, Look(d0, Blob(id)).ino);
      assert Same(q, Look(d1, q), Look(d, q), Look(d1, Blob(id)));
    }
  }

  /**
   Restores quarantine `id`.  For an arbitrary file `f`, at every crash point: its
   bytes are safe (`Kept`), and if the vault certainly had it under `id` it can
   still be given back exactly (`InCustody`), as far as the destination's volume
   allows: see the last clauses for what a crash after a cross-device restore does.
   Bytes are given back only if the record names a free path outside the vault and is pending or
   has their digest, and never by a dry run.
   */
  method Restore(h: Host, id: nat, dryRun: bool, ghost f: File) returns (r: Outcome)
    requires h.Valid()
    modifies h
    ensures h.Valid() && h.disk in h.seen
    ensures r == Verdict(old(h.disk), id, dryRun, h.digest) || (h.faulty && r == Err(Io))
    ensures r == Err(Io) ==> h.faulty
    ensures r == Err(NotFound) ==>
      var s, b := Look(old(h.disk), Sidecar(id)), Look(old(h.disk), Blob(id));
      s == Absent || (s.data.Json? && s.data.car.path.Outside? && b == Absent)
    ensures r == Err(Unverifiable) ==>
      var s := Look(old(h.disk), Sidecar(id)); s.Entry? && !(s.data.Json? && s.data.car.path.Outside?)
    ensures r in {Ok, Preview, Err(TargetChanged), Err(DestinationExists)} ==>
      var s, b := Look(old(h.disk), Sidecar(id)), Look(old(h.disk), Blob(id));
      && s.Entry? && s.data.Json? && s.data.car.path.Outside? && b.Entry?
      && (r == Err(TargetChanged) <==> !s.data.car.pending && s.data.car.sha != h.digest(b.data))
      && (r == Ok || r == Preview ==> Look(old(h.disk), s.data.car.path) == Absent && (r == Preview <==> dryRun))
      && (r == Err(DestinationExists) ==> Look(old(h.disk), s.data.car.path) != Absent)
    ensures f.path.Outside? && Kept(old(h.disk), f)
            && (r == Ok ==> BytesSafe(h.fsyncNames, RecordedPath(old(h.disk), id)))
            ==> forall d :: d in h.seen ==> Kept(d, f)
    ensures f.path.Outside? && AllVaulted(old(h.disk), f, id, h.digest) && (r == Ok ==> f.path.On().VaultDevice?)
            ==> forall d :: d in h.seen ==> InCustody(d, f, id, h.digest)
    ensures forall d :: d in h.seen ==> d.Valid() && OnTrail(d, old(h.disk), id, RecordedPath(old(h.disk), id))
    ensures r == Ok ==> Returned(old(h.disk), h.disk, id, Look(old(h.disk), Sidecar(id)).data.car)
    ensures r == Ok ==> BegunIn(h.seen, old(h.disk), id, RecordedPath(old(h.disk), id))
    ensures r != Ok ==> forall q :: Same(q, Look(old(h.disk), q), Look(h.disk, q), Look(old(h.disk), Blob(id)))
    ensures r in {Preview, Err(TargetChanged), Err(DestinationExists)} ==> Locked(h.disk, id)
    ensures r == Ok && RecordedPath(old(h.disk), id).On().OtherDevice? ==>
      SomeLeftBehind(h.disk, RecordedPath(old(h.disk), id), h.fsyncNames)
  {
    ghost var kept := f.path.Outside? && Kept(h.disk, f);
    ghost var exact := f.path.Outside? && AllVaulted(h.disk, f, id, h.digest);
    ghost var w := Ward(Claim(f, id, h.digest, false, kept, -1), exact, h.disk, RecordedPath(h.disk, id));
    VerdictMeans(h.disk, id, dryRun, h.digest);
    BeginsHeld(h.disk, w);
    Enough(h.disk, w);
    h.seen := {h.disk};
    r := Attempt(h, id, dryRun, w);
    ghost var k := if r == Ok then After(w, h.fsyncNames, w.dest) else w;
    Reaped(h.seen, k);
    if exact && r == Ok { assert Vaulted(old(h.disk).vault.cur, old(h.disk), f, id, h.digest); }
  }
}
