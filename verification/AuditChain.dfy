/**
 The audit log: the bytes hashed for an entry, the chain of hashes, and what a chain
 that verifies says about the log it came from.
 */
module AuditSpec {
  import opened Options

  type Byte = x: int | 0 <= x < 256
  const WORD := 0x1_0000_0000_0000_0000
  type U64 = x: int | 0 <= x < 0x1_0000_0000_0000_0000

  /** A byte string of the machine: its length fits a 64-bit word. */
  type Bytes = s: seq<Byte> | |s| < 0x1_0000_0000_0000_0000
  type Uuid = s: seq<Byte> | |s| == 16 witness Repeat(0, 16)

  function Repeat(b: Byte, n: nat): (r: seq<Byte>)
    ensures |r| == n
  {
    if n == 0 then [] else [b] + Repeat(b, n - 1)
  }

  datatype Actor = User(id: Uuid) | System
  datatype AuditResult = Success | Failure | Denied
  datatype EntityRef = EntityRef(kind: nat, id: Bytes)

  datatype NewEntry = NewEntry(who: Actor, what: Bytes, target: EntityRef, why: Option<Bytes>, result: AuditResult)

  datatype AuditEntry = AuditEntry(auditId: Uuid, timestamp: U64, given: NewEntry, prevHash: Bytes, entryHash: Bytes)

  /** The parts that are not modelled: the digest in hexadecimal, and JSON. */
  datatype Codec = Codec(
    digest: seq<Byte> -> Bytes,
    who: Actor -> Bytes,
    target: EntityRef -> Bytes,
    result: AuditResult -> Bytes)
  {
    /** JSON tells two entries apart in the fields it renders. */
    predicate Tells(a: NewEntry, b: NewEntry) {
      && (who(a.who) == who(b.who) ==> a.who == b.who)
      && (target(a.target) == target(b.target) ==> a.target == b.target)
      && (result(a.result) == result(b.result) ==> a.result == b.result)
    }
  }

  const GENESIS: Bytes := Repeat(48, 64)

  /** `n` in `k` bytes, least significant first. */
  function LittleEndian(n: nat, k: nat): (r: seq<Byte>)
    ensures |r| == k
  {
    if k == 0 then [] else [n % 256] + LittleEndian(n / 256, k - 1)
  }

  function Word(n: U64): seq<Byte> { LittleEndian(n, 8) }

  /** `hash_field`: the length, then the bytes. */
  function Field(b: Bytes): seq<Byte> { Word(|b|) + b }

  function Flag(w: Option<Bytes>): Byte { if w.Some? then 1 else 0 }

  function Tail(w: Option<Bytes>): seq<Byte> { if w.Some? then Field(w.value) else [] }

  /** A byte says whether there is a reason at all; the reason follows. */
  function Why(w: Option<Bytes>): seq<Byte> { [Flag(w)] + Tail(w) }

  /** The bytes `compute_hash` feeds to the hasher. */
  function Preimage(c: Codec, e: AuditEntry): seq<Byte> {
    Field(e.prevHash) + (e.auditId + (Word(e.timestamp) + (Field(c.who(e.given.who)) + (Field(e.given.what)
    + (Field(c.target(e.given.target)) + (Why(e.given.why) + Field(c.result(e.given.result))))))))
  }

  function HashOf(c: Codec, e: AuditEntry): Bytes { c.digest(Preimage(c, e)) }

  // ---- the encoding is injective

  function Range(k: nat): nat { if k == 0 then 1 else 256 * Range(k - 1) }

  lemma {:induction false} LittleEndianInjective(m: nat, n: nat, k: nat)
    requires m < Range(k) && n < Range(k) && LittleEndian(m, k) == LittleEndian(n, k)
    ensures m == n
  {
    if k > 0 {
      var x, y := LittleEndian(m, k), LittleEndian(n, k);
      assert x[0] == m % 256 && y[0] == n % 256;
      assert x[1..] == LittleEndian(m / 256, k - 1) && y[1..] == LittleEndian(n / 256, k - 1);
      LittleEndianInjective(m / 256, n / 256, k - 1);
    }
  }

  lemma WordInjective(m: U64, n: U64)
    requires Word(m) == Word(n)
    ensures m == n
  {
    assert Range(2) == 0x1_0000 && Range(4) == 0x1_0000_0000 && Range(6) == 0x1_0000_0000_0000;
    assert Range(8) == WORD;
    LittleEndianInjective(m, n, 8);
  }

  lemma Split(a: seq<Byte>, b: seq<Byte>, r: seq<Byte>, s: seq<Byte>)
    requires |a| == |b| && a + r == b + s
    ensures a == b && r == s
  {
    assert a == (a + r)[..|a|] && r == (a + r)[|a|..];
    assert b == (b + s)[..|b|] && s == (b + s)[|b|..];
  }

  /** A length-prefixed field can be told from whatever follows it. */
  lemma FieldSplit(a: Bytes, b: Bytes, r: seq<Byte>, s: seq<Byte>)
    requires Field(a) + r == Field(b) + s
    ensures a == b && r == s
  {
    assert Field(a) + r == Word(|a|) + (a + r) && Field(b) + s == Word(|b|) + (b + s);
    Split(Word(|a|), Word(|b|), a + r, b + s);
    WordInjective(|a|, |b|);
    Split(a, b, r, s);
  }

  lemma Regroup(a: seq<Byte>, b: seq<Byte>, r: seq<Byte>)
    ensures (a + b) + r == a + (b + r)
  {
  }

  lemma FlagSplit(v: Option<Bytes>, w: Option<Bytes>, r: seq<Byte>, s: seq<Byte>)
    requires Why(v) + r == Why(w) + s
    ensures v.Some? == w.Some? && Tail(v) + r == Tail(w) + s
  {
    Regroup([Flag(v)], Tail(v), r);
    Regroup([Flag(w)], Tail(w), s);
    Split([Flag(v)], [Flag(w)], Tail(v) + r, Tail(w) + s);
    assert Flag(v) == [Flag(v)][0] && Flag(w) == [Flag(w)][0];
  }

  lemma WhySplit(v: Option<Bytes>, w: Option<Bytes>, r: seq<Byte>, s: seq<Byte>)
    requires Why(v) + r == Why(w) + s
    ensures v == w && r == s
  {
    FlagSplit(v, w, r, s);
    if v.Some? {
      FieldSplit(v.value, w.value, r, s);
    } else {
      assert [] + r == r && [] + s == s;
    }
  }

  /** Equal bytes come from entries equal in every hashed field. */
  lemma EncodingInjective(c: Codec, a: AuditEntry, b: AuditEntry)
    requires c.Tells(a.given, b.given) && Preimage(c, a) == Preimage(c, b)
    ensures a == b.(entryHash := a.entryHash)
  {
    var a7, b7 := Field(c.result(a.given.result)), Field(c.result(b.given.result));
    var a6, b6 := Why(a.given.why) + a7, Why(b.given.why) + b7;
    var a5, b5 := Field(c.target(a.given.target)) + a6, Field(c.target(b.given.target)) + b6;
    var a4, b4 := Field(a.given.what) + a5, Field(b.given.what) + b5;
    var a3, b3 := Field(c.who(a.given.who)) + a4, Field(c.who(b.given.who)) + b4;
    var a2, b2 := Word(a.timestamp) + a3, Word(b.timestamp) + b3;
    FieldSplit(a.prevHash, b.prevHash, a.auditId + a2, b.auditId + b2);
    Split(a.auditId, b.auditId, a2, b2);
    Split(Word(a.timestamp), Word(b.timestamp), a3, b3);
    WordInjective(a.timestamp, b.timestamp);
    FieldSplit(c.who(a.given.who), c.who(b.given.who), a4, b4);
    FieldSplit(a.given.what, b.given.what, a5, b5);
    FieldSplit(c.target(a.given.target), c.target(b.given.target), a6, b6);
    WhySplit(a.given.why, b.given.why, a7, b7);
    assert a7 + [] == a7 && b7 + [] == b7;
    FieldSplit(c.result(a.given.result), c.result(b.given.result), [], []);
  }

  // ---- chains

  /** The hash the next entry must carry as its `prev_entry_hash`. */
  function Head(es: seq<AuditEntry>): Bytes { if es == [] then GENESIS else es[|es| - 1].entryHash }

  /** Every entry names its predecessor's hash and carries its own. */
  predicate Chained(c: Codec, es: seq<AuditEntry>) {
    forall i :: 0 <= i < |es| ==> LinkOk(c, es, i)
  }

  predicate LinkOk(c: Codec, es: seq<AuditEntry>, i: nat)
    requires i < |es|
  {
    es[i].prevHash == Head(es[..i]) && es[i].entryHash == HashOf(c, es[i])
  }

  lemma LinksOfPrefix(c: Codec, es: seq<AuditEntry>, n: nat)
    requires n <= |es|
    ensures forall i :: 0 <= i < n ==> LinkOk(c, es[..n], i) == LinkOk(c, es, i)
  {
    forall i | 0 <= i < n ensures LinkOk(c, es[..n], i) == LinkOk(c, es, i) {
      assert es[..n][..i] == es[..i] && es[..n][i] == es[i];
    }
  }

  /** Every prefix of a log that verifies verifies: truncation is not detected. */
  lemma PrefixVerifies(c: Codec, es: seq<AuditEntry>, n: nat)
    requires Chained(c, es) && n <= |es|
    ensures Chained(c, es[..n])
  {
    LinksOfPrefix(c, es, n);
  }

  lemma ChainedSnoc(c: Codec, es: seq<AuditEntry>, e: AuditEntry)
    ensures Chained(c, es + [e]) <==> Chained(c, es) && e.prevHash == Head(es) && e.entryHash == HashOf(c, e)
  {
    var all, n := es + [e], |es|;
    assert all[..n] == es && all[n] == e;
    LinksOfPrefix(c, all, n);
    assert Chained(c, all) ==> LinkOk(c, all, n);
    assert Chained(c, all) ==> forall i :: 0 <= i < n ==> LinkOk(c, all, i);
    assert LinkOk(c, all, n) <==> e.prevHash == Head(es) && e.entryHash == HashOf(c, e);
  }

  /** JSON tells the entries of one log from those of the other. */
  predicate ToldApart(c: Codec, xs: seq<AuditEntry>, ys: seq<AuditEntry>) {
    forall x, y :: x in xs && y in ys ==> c.Tells(x.given, y.given)
  }

  /** No two entries of the logs have different bytes with one digest, and none has the genesis digest. */
  ghost predicate NoCollision(c: Codec, xs: seq<AuditEntry>, ys: seq<AuditEntry>) {
    && (forall x, y :: x in xs && y in ys && HashOf(c, x) == HashOf(c, y) ==> Preimage(c, x) == Preimage(c, y))
    && (forall x :: x in xs || x in ys ==> HashOf(c, x) != GENESIS)
  }

  /** Logs that end in the same hash are both empty or end in the same entry. */
  lemma LastEntryAgrees(c: Codec, xs: seq<AuditEntry>, ys: seq<AuditEntry>)
    requires ToldApart(c, xs, ys) && NoCollision(c, xs, ys)
    requires Chained(c, xs) && Chained(c, ys) && Head(xs) == Head(ys)
    ensures xs == [] <==> ys == []
    ensures xs != [] ==> xs[|xs| - 1] == ys[|ys| - 1] && Head(xs[..|xs| - 1]) == Head(ys[..|ys| - 1])
  {
    if xs != [] { assert LinkOk(c, xs, |xs| - 1) && xs[|xs| - 1] in xs; }
    if ys != [] { assert LinkOk(c, ys, |ys| - 1) && ys[|ys| - 1] in ys; }
    if xs != [] && ys != [] { EncodingInjective(c, xs[|xs| - 1], ys[|ys| - 1]); }
  }

  lemma NoCollisionInPrefix(c: Codec, xs: seq<AuditEntry>, ys: seq<AuditEntry>, m: nat, n: nat)
    requires ToldApart(c, xs, ys) && NoCollision(c, xs, ys) && m <= |xs| && n <= |ys|
    ensures ToldApart(c, xs[..m], ys[..n]) && NoCollision(c, xs[..m], ys[..n])
  {
    assert forall x :: x in xs[..m] ==> x in xs;
    assert forall y :: y in ys[..n] ==> y in ys;
  }

  /** Two logs to compare: both verify, end in the same hash, and are told apart by JSON and digest. */
  ghost predicate Rivals(c: Codec, xs: seq<AuditEntry>, ys: seq<AuditEntry>) {
    && ToldApart(c, xs, ys) && NoCollision(c, xs, ys)
    && Chained(c, xs) && Chained(c, ys) && Head(xs) == Head(ys)
  }

  lemma ShorterRivals(c: Codec, xs: seq<AuditEntry>, ys: seq<AuditEntry>)
    requires Rivals(c, xs, ys)
    ensures xs == [] <==> ys == []
    ensures xs != [] ==> xs[|xs| - 1] == ys[|ys| - 1] && Rivals(c, xs[..|xs| - 1], ys[..|ys| - 1])
  {
    LastEntryAgrees(c, xs, ys);
    if xs != [] {
      PrefixVerifies(c, xs, |xs| - 1);
      PrefixVerifies(c, ys, |ys| - 1);
      NoCollisionInPrefix(c, xs, ys, |xs| - 1, |ys| - 1);
    }
  }

  lemma SameFromParts(xs: seq<AuditEntry>, ys: seq<AuditEntry>)
    requires xs != [] && ys != [] && xs[..|xs| - 1] == ys[..|ys| - 1] && xs[|xs| - 1] == ys[|ys| - 1]
    ensures xs == ys
  {
    assert xs == xs[..|xs| - 1] + [xs[|xs| - 1]] && ys == ys[..|ys| - 1] + [ys[|ys| - 1]];
  }

  /** Two logs that verify and end in the same hash are the same log. */
  lemma {:induction false} HeadDeterminesLog(c: Codec, xs: seq<AuditEntry>, ys: seq<AuditEntry>)
    requires Rivals(c, xs, ys)
    ensures xs == ys
    decreases |xs|
  {
    ShorterRivals(c, xs, ys);
    if xs != [] {
      HeadDeterminesLog(c, xs[..|xs| - 1], ys[..|ys| - 1]);
      SameFromParts(xs, ys);
    }
  }

  lemma LastEntryChanged(c: Codec, es: seq<AuditEntry>, x: AuditEntry)
    requires Chained(c, es) && es != []
    ensures var n := |es| - 1;
      Chained(c, es[n := x]) <==> x.prevHash == es[n].prevHash && x.entryHash == HashOf(c, x)
  {
    var n := |es| - 1;
    assert es == es[..n] + [es[n]] && es[n := x] == es[..n] + [x];
    ChainedSnoc(c, es[..n], es[n]);
    ChainedSnoc(c, es[..n], x);
  }

  lemma EarlierEntryChanged(c: Codec, es: seq<AuditEntry>, i: nat, x: AuditEntry)
    requires Chained(c, es) && i < |es| - 1 && ToldApart(c, es, es[i := x]) && NoCollision(c, es, es[i := x])
    ensures Chained(c, es[i := x]) <==> x == es[i]
  {
    SameHead(es, i, x);
    if x == es[i] {
      assert es[i := x] == es;
    } else if Chained(c, es[i := x]) {
      HeadDeterminesLog(c, es, es[i := x]);
    }
  }

  lemma SameHead(es: seq<AuditEntry>, i: nat, x: AuditEntry)
    requires i < |es| - 1
    ensures Head(es[i := x]) == Head(es) && es[i := x][i] == x
  {
  }

  /**
   Replacing one entry of a log that verifies is noticed, unless it is the last entry
   and the new one is again well formed.
   */
  lemma ChangedEntryIsNoticed(c: Codec, es: seq<AuditEntry>, i: nat, x: AuditEntry)
    requires Chained(c, es) && i < |es| && ToldApart(c, es, es[i := x]) && NoCollision(c, es, es[i := x])
    ensures Chained(c, es[i := x]) <==>
      x == es[i] || (i == |es| - 1 && x.prevHash == es[i].prevHash && x.entryHash == HashOf(c, x))
  {
    if i == |es| - 1 {
      LastEntryChanged(c, es, x);
      assert LinkOk(c, es, i);
    } else {
      EarlierEntryChanged(c, es, i, x);
    }
  }

  // ---- appending

  /** The entry `append` writes after `es`. */
  function Entry(c: Codec, es: seq<AuditEntry>, given: NewEntry, id: Uuid, time: U64): AuditEntry {
    var e := AuditEntry(id, time, given, Head(es), []);
    e.(entryHash := HashOf(c, e))
  }

  lemma EntryIsLinked(c: Codec, es: seq<AuditEntry>, given: NewEntry, id: Uuid, time: U64)
    ensures var e := Entry(c, es, given, id, time);
      e.entryHash == HashOf(c, e) && (Chained(c, es + [e]) <==> Chained(c, es))
  {
    var e := Entry(c, es, given, id, time);
    assert Preimage(c, e) == Preimage(c, e.(entryHash := []));
    ChainedSnoc(c, es, e);
  }

  // ---- for instance

  function PlainDigest(b: seq<Byte>): Bytes { if |b| < WORD then b else [] }

  function PlainWho(a: Actor): Bytes { if a.User? then a.id else [] }

  function PlainTarget(t: EntityRef): Bytes { t.id }

  function PlainResult(r: AuditResult): Bytes { if r.Success? then [0] else if r.Failure? then [1] else [2] }

  /** A codec without collisions on short entries: the digest is the bytes themselves. */
  function Plain(): Codec { Codec(PlainDigest, PlainWho, PlainTarget, PlainResult) }

  function SomeEntry(): NewEntry { NewEntry(System, [], EntityRef(0, []), None, Success) }

  predicate Short(e: AuditEntry) { e.given == SomeEntry() && |e.prevHash| <= 1000 }

  lemma PlainHash(e: AuditEntry)
    requires Short(e)
    ensures HashOf(Plain(), e) == Preimage(Plain(), e) && |HashOf(Plain(), e)| == |e.prevHash| + 66
  {
  }

  lemma PlainTells(xs: seq<AuditEntry>, ys: seq<AuditEntry>)
    requires forall e :: e in xs || e in ys ==> Short(e)
    ensures ToldApart(Plain(), xs, ys) && NoCollision(Plain(), xs, ys)
  {
    forall e | e in xs || e in ys
      ensures HashOf(Plain(), e) == Preimage(Plain(), e) && HashOf(Plain(), e) != GENESIS
    {
      PlainHash(e);
    }
  }

  /** The same entry at the time `t`, after `es`. */
  function At(es: seq<AuditEntry>, t: U64): AuditEntry { Entry(Plain(), es, SomeEntry(), Repeat(0, 16), t) }

  lemma ShortAt(es: seq<AuditEntry>, t: U64)
    requires |Head(es)| <= 900
    ensures Short(At(es, t)) && |At(es, t).entryHash| == |Head(es)| + 66 && At(es, t).timestamp == t
    ensures Chained(Plain(), es) ==> Chained(Plain(), es + [At(es, t)])
  {
    EntryIsLinked(Plain(), es, SomeEntry(), Repeat(0, 16), t);
    PlainHash(At(es, t));
  }

  /** Logs made so differ where their times do, and can be told apart. */
  lemma PlainLog(es: seq<AuditEntry>, t: U64, u: U64)
    requires |Head(es)| <= 900 && Chained(Plain(), es) && (forall e :: e in es ==> Short(e)) && t != u
    ensures At(es, t) != At(es, u) && At(es, u).prevHash == At(es, t).prevHash == Head(es)
    ensures At(es, u).entryHash == HashOf(Plain(), At(es, u))
    ensures var log := es + [At(es, t)];
      Chained(Plain(), log) && |Head(log)| == |Head(es)| + 66 && forall e :: e in log ==> Short(e)
  {
    ShortAt(es, t);
    ShortAt(es, u);
    EntryIsLinked(Plain(), es, SomeEntry(), Repeat(0, 16), u);
  }

  lemma PlainChange(es: seq<AuditEntry>, i: nat, x: AuditEntry)
    requires Chained(Plain(), es) && (forall e :: e in es ==> Short(e)) && i < |es| && Short(x) && x != es[i]
    requires x.prevHash == es[i].prevHash && x.entryHash == HashOf(Plain(), x)
    ensures ToldApart(Plain(), es, es[i := x]) && NoCollision(Plain(), es, es[i := x])
    ensures Chained(Plain(), es[i := x]) <==> i == |es| - 1
  {
    PlainTells(es, es[i := x]);
    ChangedEntryIsNoticed(Plain(), es, i, x);
  }

  /** A log of two entries whose first one cannot get another time unnoticed, and whose last one can. */
  lemma OnlyTheLastCanChange(t: U64, u: U64)
    requires t != u
    ensures var e, x := At([], t), At([], u);
      var f, y := At([e], t), At([e], u);
      var es := [e] + [f];
      && Rivals(Plain(), es, es) && x != e && y != f
      && ToldApart(Plain(), es, es[0 := x]) && NoCollision(Plain(), es, es[0 := x])
      && ToldApart(Plain(), es, es[1 := y]) && NoCollision(Plain(), es, es[1 := y])
      && !Chained(Plain(), es[0 := x]) && Chained(Plain(), es[1 := y])
  {
    var e, x := At([], t), At([], u);
    PlainLog([], t, u);
    ShortAt([], u);
    assert [] + [e] == [e];
    var f, y := At([e], t), At([e], u);
    PlainLog([e], t, u);
    ShortAt([e], u);
    var es := [e] + [f];
    PlainTells(es, es);
    PlainChange(es, 0, x);
    PlainChange(es, 1, y);
  }

  datatype Request = Request(given: NewEntry, id: Uuid, time: U64)

  function Appended(c: Codec, es: seq<AuditEntry>, rs: seq<Request>): seq<AuditEntry> {
    if rs == [] then es
    else
      var r := rs[|rs| - 1];
      var sofar := Appended(c, es, rs[..|rs| - 1]);
      sofar + [Entry(c, sofar, r.given, r.id, r.time)]
  }

  /** Any sequence of appends leaves a log that verifies, if it did before. */
  lemma {:induction false} AppendsVerify(c: Codec, es: seq<AuditEntry>, rs: seq<Request>)
    ensures Chained(c, Appended(c, es, rs)) <==> Chained(c, es)
  {
    if rs != [] {
      var r := rs[|rs| - 1];
      var sofar := Appended(c, es, rs[..|rs| - 1]);
      AppendsVerify(c, es, rs[..|rs| - 1]);
      EntryIsLinked(c, sofar, r.given, r.id, r.time);
    }
  }

  predicate Carries(e: AuditEntry, r: Request) { Request(e.given, e.auditId, e.timestamp) == r }

  /** It keeps what was there and adds what was given, in order. */
  lemma {:induction false} AppendsKeep(c: Codec, es: seq<AuditEntry>, rs: seq<Request>)
    ensures |Appended(c, es, rs)| == |es| + |rs| && es <= Appended(c, es, rs)
    ensures forall i :: 0 <= i < |rs| ==> Carries(Appended(c, es, rs)[|es| + i], rs[i])
  {
    if rs != [] {
      var n := |rs| - 1;
      var prev, all := Appended(c, es, rs[..n]), Appended(c, es, rs);
      AppendsKeep(c, es, rs[..n]);
      assert all[..|es|] == prev[..|es|];
      forall i | 0 <= i < n ensures Carries(all[|es| + i], rs[i]) {
        assert all[|es| + i] == prev[|es| + i] && rs[..n][i] == rs[i];
      }
    }
  }

  // ---- the file

  /** A line of the file: white space, an entry, or text that is no entry. */
  datatype Line = Blank | Good(entry: AuditEntry) | Bad

  datatype Error =
    | Unreadable
    | ReadEntry(line: nat)
    | ChainBroken(auditId: Uuid, expected: Bytes, found: Bytes)
    | NotWritten

  datatype Result<T> = Ok(value: T) | Err(error: Error)

  /** The entries of a file all of whose lines parse. */
  function Entries(lines: seq<Line>): seq<AuditEntry> {
    if lines == [] then []
    else Entries(lines[..|lines| - 1]) + if lines[|lines| - 1].Good? then [lines[|lines| - 1].entry] else []
  }

  predicate Parses(lines: seq<Line>) { Bad !in lines }

  lemma EntriesSnoc(lines: seq<Line>, l: Line)
    ensures Entries(lines + [l]) == Entries(lines) + if l.Good? then [l.entry] else []
  {
    assert (lines + [l])[..|lines|] == lines;
  }

  /** The file: its lines, and whether the last one still lacks its newline. */
  datatype File = File(lines: seq<Line>, open: bool)
  {
    predicate Valid() { open ==> lines != [] }

    /** What is written next continues a line that holds more than white space. */
    predicate Hanging() { Valid() && open && !lines[|lines| - 1].Blank? }
  }

  /** Two texts on one line are no entry, unless the first is white space. */
  function Joined(l: Line, x: Line): Line { if l.Blank? then x else Bad }

  function Put(f: File, x: Line, newline: bool): File
    requires f.Valid()
  {
    var n := |f.lines| - 1;
    File(if f.open then f.lines[..n] + [Joined(f.lines[n], x)] else f.lines + [x], !newline)
  }

  /** How the write of one line can end: whole, without its newline, in its middle, or before it began. */
  datatype Written = Whole | NoNewline | Part | Nothing

  datatype Try = Try(request: Request, written: Written)

  /** What one append makes of the file: nothing if it cannot be read. */
  function AppendTo(c: Codec, f: File, t: Try): File
    requires f.Valid()
  {
    if !Parses(f.lines) || t.written.Nothing? then f
    else if t.written.Part? then Put(f, Bad, false)
    else Put(f, Good(NewLine(c, f, t)), t.written.Whole?)
  }

  lemma PutReadable(f: File, x: Line, newline: bool)
    requires f.Valid() && Parses(f.lines)
    ensures var g := Put(f, x, newline);
      && g.Valid() && (Parses(g.lines) <==> !x.Bad? && !f.Hanging())
      && (Parses(g.lines) ==> Entries(g.lines) == Entries(f.lines) + if x.Good? then [x.entry] else [])
      && (Parses(g.lines) ==> (g.Hanging() <==> !newline && !x.Blank?))
  {
    if f.open { PutOnOpen(f, x, newline); } else { EntriesSnoc(f.lines, x); }
  }

  lemma PutOnOpen(f: File, x: Line, newline: bool)
    requires f.Valid() && Parses(f.lines) && f.open
    ensures var g := Put(f, x, newline);
      && (Parses(g.lines) <==> !x.Bad? && f.lines[|f.lines| - 1].Blank?)
      && (Parses(g.lines) ==> Entries(g.lines) == Entries(f.lines) + if x.Good? then [x.entry] else [])
  {
    var n := |f.lines| - 1;
    var g := Put(f, x, newline);
    assert f.lines == f.lines[..n] + [f.lines[n]] && f.lines[n] in f.lines;
    EntriesSnoc(f.lines[..n], f.lines[n]);
    EntriesSnoc(f.lines[..n], Joined(f.lines[n], x));
    assert g.lines[n] == Joined(f.lines[n], x) && g.lines[n] in g.lines;
    assert forall l :: l in g.lines <==> l in f.lines[..n] || l == g.lines[n];
    assert forall l :: l in f.lines[..n] ==> l in f.lines;
  }

  /** An append keeps the log readable exactly if it wrote nothing, or a whole entry on a line of its own. */
  lemma AppendReadable(c: Codec, f: File, t: Try)
    requires f.Valid()
    ensures var g := AppendTo(c, f, t);
      && g.Valid()
      && (Parses(g.lines) <==> Parses(f.lines) && (t.written.Nothing? || (!t.written.Part? && !f.Hanging())))
      && (Parses(g.lines) && !t.written.Nothing? ==>
          && Entries(g.lines) == Entries(f.lines) + [NewLine(c, f, t)]
          && (g.Hanging() <==> t.written.NoNewline?))
  {
    if Parses(f.lines) {
      PutReadable(f, Bad, false);
      PutReadable(f, Good(NewLine(c, f, t)), t.written.Whole?);
    }
  }

  function NewLine(c: Codec, f: File, t: Try): AuditEntry {
    Entry(c, Entries(f.lines), t.request.given, t.request.id, t.request.time)
  }

  function AppendAll(c: Codec, f: File, ts: seq<Try>): (g: File)
    requires f.Valid()
    ensures g.Valid()
  {
    if ts == [] then f else AppendTo(c, AppendAll(c, f, ts[..|ts| - 1]), ts[|ts| - 1])
  }

  predicate SomeNoNewline(ts: seq<Try>) { exists i :: 0 <= i < |ts| && ts[i].written.NoNewline? }

  lemma SomeSnoc(ts: seq<Try>)
    requires ts != []
    ensures SomeNoNewline(ts) <==> SomeNoNewline(ts[..|ts| - 1]) || ts[|ts| - 1].written.NoNewline?
  {
    var n := |ts| - 1;
    assert forall i :: 0 <= i < n ==> ts[..n][i] == ts[i];
    if SomeNoNewline(ts[..n]) {
      var i :| 0 <= i < n && ts[..n][i].written.NoNewline?;
      assert ts[i].written.NoNewline?;
    }
  }

  /** No write stopped in its middle, and none followed one that stopped before its newline. */
  predicate Unhurt(ts: seq<Try>) {
    && (forall i :: 0 <= i < |ts| ==> !ts[i].written.Part?)
    && (forall i, j :: 0 <= i < j < |ts| && ts[i].written.NoNewline? ==> ts[j].written.Nothing?)
  }

  lemma UnhurtSnoc(ts: seq<Try>)
    requires ts != []
    ensures var n := |ts| - 1;
      Unhurt(ts) <==> Unhurt(ts[..n]) && !ts[n].written.Part? && (ts[n].written.Nothing? || !SomeNoNewline(ts[..n]))
  {
    var n := |ts| - 1;
    var prev := ts[..n];
    assert forall i :: 0 <= i < n ==> prev[i] == ts[i];
    if SomeNoNewline(prev) {
      var i :| 0 <= i < n && prev[i].written.NoNewline?;
      assert ts[i].written.NoNewline?;
    }
  }

  /** Over any sequence of appends the log stays readable exactly if no write was hurt so. */
  lemma {:induction false} ReadableExactly(c: Codec, f: File, ts: seq<Try>)
    requires Parses(f.lines) && !f.open
    ensures Parses(AppendAll(c, f, ts).lines) <==> Unhurt(ts)
    ensures Unhurt(ts) ==> (AppendAll(c, f, ts).Hanging() <==> SomeNoNewline(ts))
  {
    if ts != [] {
      var n := |ts| - 1;
      ReadableExactly(c, f, ts[..n]);
      UnhurtSnoc(ts);
      SomeSnoc(ts);
      AppendReadable(c, AppendAll(c, f, ts[..n]), ts[n]);
    }
  }
}

/** The log as its callers see it. */
module FileLog {
  import opened Options
  import opened AuditSpec

  class FileAuditLog {
    const codec: Codec
    var lines: seq<Line>
    /** The last line has no newline yet. */
    var open: bool

    ghost function Contents(): File
      reads this
    {
      File(lines, open)
    }

    constructor (codec: Codec)
      ensures Contents() == File([], false) && this.codec == codec
    {
      this.codec := codec;
      lines, open := [], false;
    }

    /** All entries in file order, or an error for the first line that does not parse. */
    method ReadAll(readable: bool) returns (r: Result<seq<AuditEntry>>)
      ensures readable && Parses(lines) <==> r.Ok?
      ensures r.Ok? ==> r.value == Entries(lines)
      ensures r.Err? && readable ==>
        && r.error.ReadEntry? && r.error.line < |lines|
        && lines[r.error.line] == Bad && Parses(lines[..r.error.line])
    {
      if !readable { return Err(Unreadable); }
      var entries := [];
      for i := 0 to |lines|
        invariant Parses(lines[..i]) && entries == Entries(lines[..i])
      {
        assert lines[..i + 1] == lines[..i] + [lines[i]];
        EntriesSnoc(lines[..i], lines[i]);
        if lines[i].Blank? { continue; }
        if lines[i].Bad? { return Err(ReadEntry(i)); }
        entries := entries + [lines[i].entry];
      }
      assert lines[..|lines|] == lines;
      return Ok(entries);
    }

    /** An error names the first entry that breaks the chain; there is none exactly when the chain holds. */
    method VerifyChain(readable: bool) returns (r: Result<()>)
      ensures r.Ok? <==> readable && Parses(lines) && Chained(codec, Entries(lines))
      ensures r.Err? && readable && Parses(lines) ==> FirstBroken(codec, Entries(lines), r.error)
    {
      var all := ReadAll(readable);
      if all.Err? { return Err(all.error); }
      r := VerifyEntries(codec, all.value);
    }

    /**
     The new entry goes to the end of the file; no earlier line changes.  An answer of success does
     not look at what the line already held.
     */
    method Append(request: Request, readable: bool, written: Written) returns (r: Result<AuditEntry>)
      requires Contents().Valid()
      modifies this
      ensures Contents().Valid()
      ensures r.Ok? <==> readable && Parses(old(lines)) && written.Whole?
      ensures readable ==> Contents() == AppendTo(codec, old(Contents()), Try(request, written))
      ensures !readable ==> Contents() == old(Contents())
      ensures r.Ok? ==> r.value == Entry(codec, Entries(old(lines)), request.given, request.id, request.time)
      ensures r.Ok? ==> (Parses(lines) <==> !old(Contents()).Hanging())
      ensures r.Ok? && Parses(lines) ==> Entries(lines) == Entries(old(lines)) + [r.value]
      ensures r.Ok? && Parses(lines) ==> (Chained(codec, Entries(lines)) <==> Chained(codec, Entries(old(lines))))
    {
      AppendReadable(codec, Contents(), Try(request, written));
      EntryIsLinked(codec, Entries(lines), request.given, request.id, request.time);
      r := NextEntry(request, readable);
      if r.Err? { return; }
      if written.Nothing? { return Err(NotWritten); }
      WriteLine(if written.Part? then Bad else Good(r.value), written.Whole?);
      if !written.Whole? { return Err(NotWritten); }
    }

    /** The entry to write: linked to the last one in the file. */
    method NextEntry(request: Request, readable: bool) returns (r: Result<AuditEntry>)
      ensures r.Ok? <==> readable && Parses(lines)
      ensures r.Ok? ==> r.value == Entry(codec, Entries(lines), request.given, request.id, request.time)
    {
      var all := ReadAll(readable);
      if all.Err? { return Err(all.error); }
      var prev := if |all.value| == 0 then GENESIS else all.value[|all.value| - 1].entryHash;
      var entry := AuditEntry(request.id, request.time, request.given, prev, []);
      var hash := ComputeHash(codec, entry);
      return Ok(entry.(entryHash := hash));
    }

    method WriteLine(x: Line, newline: bool)
      requires Contents().Valid()
      modifies this
      ensures Contents() == Put(old(Contents()), x, newline)
    {
      if open {
        var n := |lines| - 1;
        lines := lines[..n] + [if lines[n].Blank? then x else Bad];
      } else {
        lines := lines + [x];
      }
      open := !newline;
    }
  }

  /** What has been fed to the hasher. */
  class Hasher {
    var fed: seq<Byte>

    constructor ()
      ensures fed == []
    {
      fed := [];
    }

    method Update(bytes: seq<Byte>)
      modifies this
      ensures fed == old(fed) + bytes
    {
      fed := fed + bytes;
    }

    /** `hash_field`. */
    method HashField(b: Bytes)
      modifies this
      ensures fed == old(fed) + Field(b)
    {
      Update(Word(|b|));
      Update(b);
      Joins(old(fed), Word(|b|), b);
    }

    /** The reason: a byte that says whether there is one, and then the reason. */
    method HashWhy(why: Option<Bytes>)
      modifies this
      ensures fed == old(fed) + Why(why)
    {
      if why.Some? {
        Update([1]);
        HashField(why.value);
        Joins(old(fed), [1], Field(why.value));
      } else {
        Update([0]);
        assert [0] + [] == [0];
      }
    }
  }

  lemma Joins(a: seq<Byte>, b: seq<Byte>, c: seq<Byte>)
    ensures a + b + c == a + (b + c)
  {
  }

  /** `compute_hash`: every hashed field in turn, those of variable length with their length. */
  method ComputeHash(codec: Codec, e: AuditEntry) returns (hash: Bytes)
    ensures hash == HashOf(codec, e)
  {
    var hasher := new Hasher();
    hasher.HashField(e.prevHash);
    hasher.Update(e.auditId);
    hasher.Update(Word(e.timestamp));
    hasher.HashField(codec.who(e.given.who));
    hasher.HashField(e.given.what);
    hasher.HashField(codec.target(e.given.target));
    hasher.HashWhy(e.given.why);
    hasher.HashField(codec.result(e.given.result));
    FedInTurn(codec, e);
    assert hasher.fed == [] + Field(e.prevHash) + e.auditId + Word(e.timestamp) + Field(codec.who(e.given.who))
                         + Field(e.given.what) + Field(codec.target(e.given.target)) + Why(e.given.why)
                         + Field(codec.result(e.given.result));
    return codec.digest(hasher.fed);
  }

  lemma FedInTurn(c: Codec, e: AuditEntry)
    ensures Preimage(c, e) == [] + Field(e.prevHash) + e.auditId + Word(e.timestamp) + Field(c.who(e.given.who))
                              + Field(e.given.what) + Field(c.target(e.given.target)) + Why(e.given.why)
                              + Field(c.result(e.given.result))
  {
  }

  /** The first `n` links hold. */
  predicate ChainedTo(c: Codec, es: seq<AuditEntry>, n: nat)
    requires n <= |es|
  {
    n == 0 || (ChainedTo(c, es, n - 1) && LinkOk(c, es, n - 1))
  }

  lemma {:induction false} LinksBefore(c: Codec, es: seq<AuditEntry>, n: nat)
    requires n <= |es|
    ensures ChainedTo(c, es, n) <==> forall i :: 0 <= i < n ==> LinkOk(c, es, i)
  {
    if n > 0 { LinksBefore(c, es, n - 1); }
  }

  lemma NotChained(c: Codec, es: seq<AuditEntry>, i: nat)
    requires i < |es| && !LinkOk(c, es, i)
    ensures !Chained(c, es)
  {
  }

  /** The loop of `verify_chain`. */
  method VerifyEntries(codec: Codec, entries: seq<AuditEntry>) returns (r: Result<()>)
    ensures r.Ok? <==> Chained(codec, entries)
    ensures r.Err? ==> FirstBroken(codec, entries, r.error)
  {
    var expected := GENESIS;
    for i := 0 to |entries|
      invariant ChainedTo(codec, entries, i) && expected == Head(entries[..i])
    {
      var wrong := CheckLink(codec, entries, i, expected);
      if wrong.Some? {
        NotChained(codec, entries, i);
        return Err(wrong.value);
      }
      expected := entries[i].entryHash;
    }
    LinksBefore(codec, entries, |entries|);
    return Ok(());
  }

  /** One round of it: the link to the entry before, then the entry's own hash. */
  method CheckLink(codec: Codec, entries: seq<AuditEntry>, i: nat, expected: Bytes) returns (wrong: Option<Error>)
    requires i < |entries| && expected == Head(entries[..i])
    ensures wrong.None? <==> LinkOk(codec, entries, i)
    ensures wrong.Some? ==> BrokenAt(codec, entries, i, wrong.value)
    ensures wrong.Some? && entries[i].prevHash != expected ==>
      wrong.value == ChainBroken(entries[i].auditId, expected, entries[i].prevHash)
    ensures wrong.Some? && entries[i].prevHash == expected ==>
      wrong.value == ChainBroken(entries[i].auditId, HashOf(codec, entries[i]), entries[i].entryHash)
  {
    var e := entries[i];
    if e.prevHash != expected { return Some(ChainBroken(e.auditId, expected, e.prevHash)); }
    var recomputed := ComputeHash(codec, e);
    if recomputed != e.entryHash { return Some(ChainBroken(e.auditId, recomputed, e.entryHash)); }
    return None;
  }

  /** The error is about the first entry whose link does not hold. */
  predicate FirstBroken(c: Codec, es: seq<AuditEntry>, err: Error) {
    exists k :: 0 <= k < |es| && BrokenAt(c, es, k, err) && ChainedTo(c, es, k)
  }

  /** The error says what entry `k` should have carried and what it carries. */
  predicate BrokenAt(c: Codec, es: seq<AuditEntry>, k: nat, err: Error)
    requires k < |es|
  {
    && !LinkOk(c, es, k)
    && err == if es[k].prevHash != Head(es[..k]) then ChainBroken(es[k].auditId, Head(es[..k]), es[k].prevHash)
              else ChainBroken(es[k].auditId, HashOf(c, es[k]), es[k].entryHash)
  }
}
