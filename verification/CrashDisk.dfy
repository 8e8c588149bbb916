/**
 A small crash-aware filesystem.

 Two volumes exist: the one that holds the quarantine vault and another one.
 A volume is its current namespace together with the namespaces it went through
 since its last commit, one per metadata operation.  A crash keeps, on each
 volume independently, some prefix of the uncommitted operations, that is, it
 brings back any one of those namespaces.  File contents are not journalled: an inode whose
 contents were not synced holds anything at all after a crash.
 */
module CrashDisk {

  type Ino = nat
  type Mode = bv12

  datatype Device = VaultDevice | OtherDevice

  /** Names outside the vault, and the three names one quarantine id has inside it. */
  datatype Path =
    | Outside(dev: Device, name: string)
    | Blob(id: nat)
    | Sidecar(id: nat)
    | SidecarTmp(id: nat)
  {
    function On(): Device { if Outside? then dev else VaultDevice }
  }

  datatype Attr = Attr(mode: Mode, uid: nat, gid: nat)

  /** The identity record stored next to a vaulted file. */
  datatype Car = Car(path: Path, attr: Attr, sha: string, pending: bool)

  datatype Data = Raw(bytes: seq<bv8>) | Json(car: Car) | Torn

  datatype Namespace = Namespace(names: map<Path, Ino>, attrs: map<Ino, Attr>)

  /** A volume: what programs see now, and the uncommitted states a crash may bring back. */
  datatype Volume = Volume(past: seq<Namespace>, cur: Namespace)
  {
    predicate Has(ns: Namespace) { ns == cur || ns in past }
    function Push(ns: Namespace): Volume { Volume(past + [cur], ns) }
    /** Everything seen becomes durable. */
    function Commit(): Volume { Volume([], cur) }
  }

  datatype Disk = Disk(vault: Volume, other: Volume, data: map<Ino, Data>, synced: set<Ino>)
  {
    /** Every name, in every namespace a crash may bring back, is of an existing inode. */
    ghost predicate Valid() {
      && synced <= data.Keys
      && (forall v, p :: vault.Has(v) && p in v.names ==> v.names[p] in data)
      && (forall o, p :: other.Has(o) && p in o.names ==> o.names[p] in data)
    }

    /** The namespace running programs see. */
    function Live(dev: Device): Namespace { if dev.VaultDevice? then vault.cur else other.cur }

    function Push(dev: Device, ns: Namespace): Disk {
      if dev.VaultDevice? then this.(vault := vault.Push(ns)) else this.(other := other.Push(ns))
    }

    function Commit(dev: Device): Disk {
      if dev.VaultDevice? then this.(vault := vault.Commit()) else this.(other := other.Commit())
    }
  }

  // ---- single metadata operations on a namespace

  function Bind(ns: Namespace, p: Path, n: Ino, a: Attr): Namespace {
    Namespace(ns.names[p := n], ns.attrs[n := a])
  }

  function Unlinked(ns: Namespace, p: Path): Namespace {
    ns.(names := ns.names - {p})
  }

  function Linked(ns: Namespace, from: Path, to: Path): Namespace
    requires from in ns.names
  {
    ns.(names := ns.names[to := ns.names[from]])
  }

  function Renamed(ns: Namespace, from: Path, to: Path): Namespace
    requires from in ns.names
  {
    ns.(names := (ns.names - {from})[to := ns.names[from]])
  }

  function WithAttr(ns: Namespace, p: Path, a: Attr): Namespace
    requires p in ns.names
  {
    ns.(attrs := ns.attrs[ns.names[p] := a])
  }

  function AttrAt(ns: Namespace, p: Path): Attr
    requires p in ns.names
  {
    if ns.names[p] in ns.attrs then ns.attrs[ns.names[p]] else Attr(0, 0, 0)
  }

  /** chown(2) drops the setuid and setgid bits. */
  function Chowned(a: Attr, uid: nat, gid: nat): Attr { Attr(a.mode & 0x3ff, uid, gid) }

  // ---- crashes

  /** `fs` is a disk the machine may find after losing power in state `d`. */
  ghost predicate CrashTo(d: Disk, fs: Disk) {
    && fs.vault.past == [] && d.vault.Has(fs.vault.cur)
    && fs.other.past == [] && d.other.Has(fs.other.cur)
    && fs.data.Keys == d.data.Keys == fs.synced
    && forall n :: n in d.synced && n in d.data ==> fs.data[n] == d.data[n]
  }

  /** In namespace `ns`, `p` names a file whose durable contents are `x`. */
  predicate Holds(ns: Namespace, p: Path, d: Disk, x: Data) {
    && p in ns.names
    && ns.names[p] in d.synced
    && ns.names[p] in d.data
    && d.data[ns.names[p]] == x
  }

  /** What a running program finds under a name. */
  datatype Entry = Absent | Entry(ino: Ino, attr: Attr, data: Data, synced: bool)

  function Look(d: Disk, p: Path): Entry {
    var ns := d.Live(p.On());
    if p in ns.names && ns.names[p] in d.data
    then Entry(ns.names[p], AttrAt(ns, p), d.data[ns.names[p]], ns.names[p] in d.synced)
    else Absent
  }
}
