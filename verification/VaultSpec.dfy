/**
 The quarantine vault: what must survive a crash, stated on the disk alone.
 */
module VaultSpec {
  import opened CrashDisk

  /** A file as it was when somebody asked to quarantine it. */
  datatype File = File(path: Path, content: Data, attr: Attr)

  function Home(v: Namespace, o: Namespace, p: Path): Namespace {
    if p.On().VaultDevice? then v else o
  }

  /** The file lies at its own path, unchanged. */
  predicate AtHome(v: Namespace, o: Namespace, d: Disk, f: File) {
    var h := Home(v, o, f.path);
    Holds(h, f.path, d, f.content) && AttrAt(h, f.path) == f.attr
  }

  /** The vault has a readable record of `f` under `id`, good enough to restore it. */
  predicate Recorded(v: Namespace, d: Disk, f: File, id: nat, digest: Data -> string) {
    && Sidecar(id) in v.names
    && v.names[Sidecar(id)] in d.synced
    && v.names[Sidecar(id)] in d.data
    && var x := d.data[v.names[Sidecar(id)]];
    && x.Json?
    && x.car.path == f.path && x.car.attr == f.attr
    && (x.car.pending || x.car.sha == digest(f.content))
  }

  predicate Vaulted(v: Namespace, d: Disk, f: File, id: nat, digest: Data -> string) {
    Holds(v, Blob(id), d, f.content) && Recorded(v, d, f, id, digest)
  }

  /**
   What a crash during the quarantine of `f` may leave: the file is at its path
   exactly as it was, or its path is free and the vault holds all its bytes; a
   blob in the vault is never without its record; and on one volume the file is
   never in both places.
   */
  predicate Intact(v: Namespace, o: Namespace, d: Disk, f: File, id: nat, digest: Data -> string) {
    && (f.path in Home(v, o, f.path).names ==> AtHome(v, o, d, f))
    && (f.path !in Home(v, o, f.path).names ==> Vaulted(v, d, f, id, digest))
    && (Blob(id) in v.names ==> Recorded(v, d, f, id, digest))
    && (f.path.On().VaultDevice? ==> Blob(id) !in v.names || f.path !in v.names)
  }

  ghost predicate Safe(d: Disk, f: File, id: nat, digest: Data -> string) {
    forall v, o :: d.vault.Has(v) && d.other.Has(o) ==> Intact(v, o, d, f, id, digest)
  }

  /** `f` has been at its path, unchanged, ever since the last commit. */
  ghost predicate Settled(d: Disk, f: File) {
    forall v, o :: d.vault.Has(v) && d.other.Has(o) ==> AtHome(v, o, d, f)
  }

  /** No crash can bring back a name of quarantine `id` (ids are random UUIDs). */
  predicate Unused(d: Disk, id: nat) {
    Free(d.vault.cur, id) && forall k :: 0 <= k < |d.vault.past| ==> Free(d.vault.past[k], id)
  }

  predicate Free(v: Namespace, id: nat) {
    Blob(id) !in v.names && Sidecar(id) !in v.names && SidecarTmp(id) !in v.names
  }

  // ---- the bytes of an arbitrary file, over whole runs

  /** The vault holds `f`'s bytes under `id`, with a readable record naming its path. */
  predicate Stored(v: Namespace, d: Disk, f: File, id: nat) {
    && Holds(v, Blob(id), d, f.content)
    && HasRecord(v, d, id)
    && d.data[v.names[Sidecar(id)]].car.path == f.path
  }

  predicate HasRecord(v: Namespace, d: Disk, id: nat) {
    && Sidecar(id) in v.names
    && v.names[Sidecar(id)] in d.synced
    && v.names[Sidecar(id)] in d.data
    && d.data[v.names[Sidecar(id)]].Json?
    && d.data[v.names[Sidecar(id)]].car.path.Outside?
  }

  /** `f`'s bytes can be found: at its path, or in the vault under an id other than `but`. */
  ghost predicate Reachable(v: Namespace, o: Namespace, d: Disk, f: File, but: int) {
    || Holds(Home(v, o, f.path), f.path, d, f.content)
    || exists id: nat :: id != but && Stored(v, d, f, id)
  }

  ghost predicate Orderly(v: Namespace, d: Disk) {
    forall id: nat :: Blob(id) in v.names ==> HasRecord(v, d, id)
  }

  /** Whatever a crash does: `f`'s bytes can be found and every blob has a readable record. */
  ghost predicate KeptBut(d: Disk, f: File, but: int) {
    forall v, o :: d.vault.Has(v) && d.other.Has(o) ==> Reachable(v, o, d, f, but) && Orderly(v, d)
  }

  ghost predicate Kept(d: Disk, f: File) { KeptBut(d, f, -1) }

  // ---- from crash points to crash outcomes

  /** A crash out of a safe state leaves the file intact. */
  lemma CrashKeepsIntact(d: Disk, fs: Disk, f: File, id: nat, digest: Data -> string)
    requires Safe(d, f, id, digest) && CrashTo(d, fs)
    ensures Intact(fs.vault.cur, fs.other.cur, fs, f, id, digest)
    ensures Safe(fs, f, id, digest)
  {
    var v, o := fs.vault.cur, fs.other.cur;
    assert Intact(v, o, d, f, id, digest);
  }

  lemma CrashKeeps(d: Disk, fs: Disk, f: File)
    requires Kept(d, f) && CrashTo(d, fs)
    ensures Kept(fs, f)
  {
    var v, o := fs.vault.cur, fs.other.cur;
    assert Reachable(v, o, d, f, -1) && Orderly(v, d);
    forall id: nat | HasRecord(v, d, id)
      ensures HasRecord(v, fs, id)
    {
    }
    if !Holds(Home(v, o, f.path), f.path, d, f.content) {
      var id: nat :| Stored(v, d, f, id);
      assert Stored(v, fs, f, id);
    }
  }
}
