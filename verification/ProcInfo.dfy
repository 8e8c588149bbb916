/** What the executor reads from the kernel: stat lines, device numbers, parent chains. */
module StatSpec {
  import opened Options

  datatype StatInfo = StatInfo(state: char, ppid: nat, startTicks: nat)

  const U32_MAX := 0xffff_ffff
  const U64_MAX := 0xffff_ffff_ffff_ffff

  /** Unicode white space. */
  predicate White(c: char) {
    var n := c as int;
    || 9 <= n <= 13 || n == 32 || n == 0x85 || n == 0xa0 || n == 0x1680 || 0x2000 <= n <= 0x200a
    || n == 0x2028 || n == 0x2029 || n == 0x202f || n == 0x205f || n == 0x3000
  }

  predicate Plain(s: string) { forall i :: 0 <= i < |s| ==> !White(s[i]) }

  /** The length of the first word of a text that starts with one. */
  function WordLength(s: string): (n: nat)
    ensures n <= |s| && Plain(s[..n]) && (n < |s| ==> White(s[n])) && (s != [] && !White(s[0]) ==> n > 0)
  {
    if s == [] || White(s[0]) then 0
    else
      var n := 1 + WordLength(s[1..]);
      assert s[..n] == [s[0]] + s[1..][..n - 1];
      n
  }

  /** `split_whitespace`. */
  function Words(s: string): seq<string>
    decreases |s|
  {
    if s == [] then []
    else if White(s[0]) then Words(s[1..])
    else
      var n := WordLength(s);
      [s[..n]] + Words(s[n..])
  }

  /** The text after the last `)`, if there is one. */
  function AfterParen(s: string): Option<string> {
    if s == [] then None
    else
      var rest := AfterParen(s[1..]);
      if rest.Some? then rest else if s[0] == ')' then Some(s[1..]) else None
  }

  predicate Digit(c: char) { '0' <= c <= '9' }

  predicate Digits(s: string) { forall i :: 0 <= i < |s| ==> Digit(s[i]) }

  function Value(s: string): nat
    requires Digits(s)
  {
    if s == [] then 0 else 10 * Value(s[..|s| - 1]) + (s[|s| - 1] as int - '0' as int)
  }

  /** Rust's parser for unsigned numbers: an optional plus sign, digits, and no overflow. */
  function ParseUnsigned(s: string, max: nat): Option<nat> {
    var d := if s != [] && s[0] == '+' then s[1..] else s;
    if d != [] && Digits(d) && Value(d) <= max then Some(Value(d)) else None
  }

  /** `parse_stat`. */
  function ParseStat(s: string): (r: Option<StatInfo>)
    ensures r.Some? ==> r.value.ppid < 0x1_0000_0000 && r.value.startTicks < 0x1_0000_0000_0000_0000
  {
    var rest := AfterParen(s);
    if rest.None? then None
    else
      var words := Words(rest.value);
      if |words| < 1 || words[0] == [] then None
      else if |words| < 2 || ParseUnsigned(words[1], U32_MAX).None? then None
      else if |words| < 20 || ParseUnsigned(words[19], U64_MAX).None? then None
      else Some(StatInfo(words[0][0], ParseUnsigned(words[1], U32_MAX).value, ParseUnsigned(words[19], U64_MAX).value))
  }

  // ---- what the kernel writes

  function Decimal(n: nat): (s: string)
    ensures s != [] && Digits(s) && Plain(s)
  {
    var last := [('0' as int + n % 10) as char];
    if n < 10 then last else Decimal(n / 10) + last
  }

  predicate Field(f: string) { f != [] && Plain(f) && ')' !in f }

  predicate Fields(fs: seq<string>) { forall i :: 0 <= i < |fs| ==> Field(fs[i]) }

  /** Fields, each after a space. */
  function Spaced(fs: seq<string>): string {
    if fs == [] then [] else " " + fs[0] + Spaced(fs[1..])
  }

  /** A stat line: whatever `head` and `comm` hold, then state, parent, 17 fields, start time, more fields. */
  function StatLine(head: string, comm: string, state: char, ppid: nat,
                    middle: seq<string>, start: nat, more: seq<string>): string {
    head + "(" + comm + ")" + Spaced([[state], Decimal(ppid)] + middle + [Decimal(start)] + more) + "\n"
  }

  lemma {:induction false} DecimalValue(n: nat)
    ensures Value(Decimal(n)) == n
  {
    if n >= 10 {
      DecimalValue(n / 10);
      var s := Decimal(n);
      assert s[..|s| - 1] == Decimal(n / 10);
    }
  }

  lemma ParsesBack(n: nat, max: nat)
    requires n <= max
    ensures ParseUnsigned(Decimal(n), max) == Some(n)
  {
    DecimalValue(n);
    assert Digit(Decimal(n)[0]);
  }

  lemma {:induction false} WordOf(f: string, rest: string)
    requires Plain(f) && (rest != [] ==> White(rest[0]))
    ensures WordLength(f + rest) == |f|
  {
    if f != [] {
      WordOf(f[1..], rest);
      assert (f + rest)[1..] == f[1..] + rest;
      assert (f + rest)[0] == f[0];
    } else {
      assert f + rest == rest;
    }
  }

  /** Splitting undoes the joining. */
  lemma {:induction false} WordsOfSpaced(fs: seq<string>)
    requires Fields(fs)
    ensures Words(Spaced(fs) + "\n") == fs
    ensures (Spaced(fs) + "\n") != [] && White((Spaced(fs) + "\n")[0])
  {
    if fs == [] {
      assert Words("\n") == Words([]);
      assert [] + "\n" == "\n";
    } else {
      WordsOfSpaced(fs[1..]);
      FirstWord(fs[0], Spaced(fs[1..]) + "\n");
      Regroup(fs[0], Spaced(fs[1..]));
      assert fs == [fs[0]] + fs[1..];
    }
  }

  lemma Regroup(f: string, rest: string)
    ensures " " + f + rest + "\n" == " " + (f + (rest + "\n"))
  {
  }

  lemma FirstWord(f: string, rest: string)
    requires Field(f) && rest != [] && White(rest[0])
    ensures Words(" " + (f + rest)) == [f] + Words(rest)
  {
    var s := f + rest;
    WordOf(f, rest);
    assert s[0] == f[0] && s[..|f|] == f && s[|f|..] == rest;
    assert (" " + s)[1..] == s;
  }

  lemma {:induction false} NoParenAfter(s: string)
    requires ')' !in s
    ensures AfterParen(s).None?
  {
    if s != [] { NoParenAfter(s[1..]); }
  }

  /** The last parenthesis is found whatever comes before it. */
  lemma {:induction false} LastParen(before: string, after: string)
    requires ')' !in after
    ensures AfterParen(before + ")" + after) == Some(after)
  {
    var s := before + ")" + after;
    if before == [] {
      assert s[0] == ')' && s[1..] == after;
      NoParenAfter(after);
    } else {
      LastParen(before[1..], after);
      assert s[1..] == before[1..] + ")" + after;
    }
  }

  lemma {:induction false} SpacedHasNoParen(fs: seq<string>)
    requires Fields(fs)
    ensures ')' !in Spaced(fs)
  {
    if fs != [] { SpacedHasNoParen(fs[1..]); }
  }

  /** The state, parent and start time come back from every stat line, whatever the command name holds. */
  lemma StatRoundTrip(head: string, comm: string, state: char, ppid: nat,
                      middle: seq<string>, start: nat, more: seq<string>)
    requires !White(state) && state != ')' && ppid <= U32_MAX && start <= U64_MAX
    requires |middle| == 17 && Fields(middle) && Fields(more)
    ensures ParseStat(StatLine(head, comm, state, ppid, middle, start, more)) == Some(StatInfo(state, ppid, start))
  {
    var fs := [[state], Decimal(ppid)] + middle + [Decimal(start)] + more;
    var after := Spaced(fs) + "\n";
    assert Fields(fs) by {
      assert Digits(Decimal(ppid)) && Digits(Decimal(start));
    }
    SpacedHasNoParen(fs);
    assert StatLine(head, comm, state, ppid, middle, start, more) == (head + "(" + comm) + ")" + after;
    LastParen(head + "(" + comm, after);
    WordsOfSpaced(fs);
    ParsesBack(ppid, U32_MAX);
    ParsesBack(start, U64_MAX);
  }

  // ---- device numbers

  /** glibc's `makedev`. */
  function MakeDev(major: bv64, minor: bv64): bv64 {
    ((major & 0xffff_f000) << 32) | ((major & 0xfff) << 8) | ((minor & 0xffff_ff00) << 12) | (minor & 0xff)
  }

  function Major(dev: bv64): bv64 { ((dev >> 8) & 0xfff) | ((dev >> 32) & !0xfff) }

  function Minor(dev: bv64): bv64 { (dev & 0xff) | ((dev >> 12) & !0xff) }

  function Low32(x: bv64): bv64 { x & 0xffff_ffff }

  function EncodeDeviceId(major: bv64, minor: bv64): bv64 { (Low32(major) << 32) | Low32(minor) }

  /** `encode_st_dev`. */
  function EncodeStDev(dev: bv64): bv64 { EncodeDeviceId(Major(dev), Minor(dev)) }

  lemma MajorBack(major: bv64, minor: bv64)
    requires Low32(major) == major && Low32(minor) == minor
    ensures Major(MakeDev(major, minor)) == major
  {
  }

  lemma MinorBack(major: bv64, minor: bv64)
    requires Low32(major) == major && Low32(minor) == minor
    ensures Low32(Minor(MakeDev(major, minor))) == minor
  {
  }

  /** Two halves side by side can be told apart again. */
  lemma Halves(high: bv64, low: bv64)
    requires Low32(high) == high && Low32(low) == low
    ensures ((high << 32) | low) >> 32 == high && Low32((high << 32) | low) == low
  {
  }

  lemma SideBySide(dev: bv64, major: bv64, minor: bv64)
    requires Low32(Major(dev)) == major && Low32(Minor(dev)) == minor
    ensures EncodeStDev(dev) == (major << 32) | minor
  {
  }

  /** The id of a packed device is its 32-bit major and minor side by side. */
  lemma PackedDevice(major: bv64, minor: bv64)
    requires Low32(major) == major && Low32(minor) == minor
    ensures EncodeStDev(MakeDev(major, minor)) == (major << 32) | minor
    ensures EncodeStDev(MakeDev(major, minor)) >> 32 == major && Low32(EncodeStDev(MakeDev(major, minor))) == minor
  {
    MajorBack(major, minor);
    MinorBack(major, minor);
    SideBySide(MakeDev(major, minor), major, minor);
    Halves(major, minor);
  }

  lemma Unpacked(dev: bv64)
    ensures MakeDev(EncodeStDev(dev) >> 32, Low32(EncodeStDev(dev))) == dev
  {
  }

  /** Different devices never share an id. */
  lemma DevicesDiffer(a: bv64, b: bv64)
    requires EncodeStDev(a) == EncodeStDev(b)
    ensures a == b
  {
    Unpacked(a);
    Unpacked(b);
  }
}

module ProcInfo {
  import opened Options
  import opened StatSpec

  /** Each is the parent of the one before, the first of `pid` itself. */
  ghost predicate ParentChain(parent: nat -> Option<nat>, pid: nat, out: seq<nat>) {
    forall i :: 0 <= i < |out| ==> parent(Child(pid, out, i)) == Some(out[i])
  }

  function Child(pid: nat, out: seq<nat>, i: nat): nat
    requires i <= |out|
  {
    if i == 0 then pid else out[i - 1]
  }

  ghost predicate NoRepeat(pid: nat, out: seq<nat>) {
    && 0 !in out && pid !in out
    && forall i, j :: 0 <= i < j < |out| ==> out[i] != out[j]
  }

  const MAX_HOPS := 64

  lemma ChainGrows(parent: nat -> Option<nat>, pid: nat, out: seq<nat>, p: nat)
    requires ParentChain(parent, pid, out) && parent(Child(pid, out, |out|)) == Some(p)
    ensures ParentChain(parent, pid, out + [p])
  {
    var more := out + [p];
    forall i | 0 <= i < |more| ensures parent(Child(pid, more, i)) == Some(more[i]) {
      assert Child(pid, more, i) == Child(pid, out, i);
    }
  }

  lemma StillNoRepeat(pid: nat, out: seq<nat>, p: nat)
    requires NoRepeat(pid, out) && p != 0 && p !in out && p != pid
    ensures NoRepeat(pid, out + [p])
  {
  }

  /**
   `ancestors_from`: the parent chain without repetition, cut only by a missing parent,
   the root, a cycle, or the hop limit.
   */
  method AncestorsFrom(pid: nat, parent: nat -> Option<nat>) returns (out: seq<nat>)
    ensures ParentChain(parent, pid, out) && NoRepeat(pid, out) && |out| <= 64
    ensures |out| < 64 ==>
      var next := parent(Child(pid, out, |out|));
      next.None? || next.value == 0 || next.value == pid || next.value in out
  {
    out := [];
    var cur := pid;
    for k := 0 to MAX_HOPS
      invariant |out| == k && cur == Child(pid, out, |out|)
      invariant ParentChain(parent, pid, out) && NoRepeat(pid, out)
    {
      var next := parent(cur);
      if next.None? || next.value == 0 || next.value in out || next.value == pid { return; }
      ChainGrows(parent, pid, out, next.value);
      StillNoRepeat(pid, out, next.value);
      out := out + [next.value];
      cur := next.value;
    }
  }
}
