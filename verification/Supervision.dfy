/** Policies, and what the agent should be running under one. */
module PolicySpec {
  import opened Options

  datatype Sensor =
    | ProcessExec | Filesystem | Network | Identity | Systemd | Persistence | Container | Dns
    /** Not controlled by policy. */
    | Synthetic

  const STARTUP_ORDER: seq<Sensor> :=
    [ProcessExec, Filesystem, Network, Identity, Systemd, Persistence, Container, Dns]

  /** The names a policy may mention, in the order they are switched. */
  const KNOWN_SENSORS: seq<Sensor> :=
    [Container, Dns, Filesystem, Identity, Network, Persistence, ProcessExec, Systemd]

  const MIN_HEARTBEAT_SECS := 10
  const MAX_HEARTBEAT_SECS := 3600

  datatype Policy = Policy(level: Option<nat>, sensors: map<Sensor, bool>, heartbeat: Option<nat>)
  {
    predicate IsEmpty() { level.None? && sensors == map[] && heartbeat.None? }

    predicate Valid() {
      && Synthetic !in sensors
      && (heartbeat.Some? ==> MIN_HEARTBEAT_SECS <= heartbeat.value <= MAX_HEARTBEAT_SECS)
    }

    /** Unset means enabled. */
    predicate On(n: Sensor) { n == Synthetic || n !in sensors || sensors[n] }
  }

  const EMPTY := Policy(None, map[], None)

  /** What agent.yaml configures, and which sensors come up when started. */
  datatype Config = Config(built: set<Sensor>, starts: set<Sensor>, baseHeartbeat: nat)
  {
    predicate Startable(n: Sensor) { n in built && n in starts }
  }

  datatype Reason = DisabledByPolicy | Failed
  datatype Skip = Skip(name: Sensor, reason: Reason)

  function One(b: bool): nat { if b then 1 else 0 }

  /** Sensor `n` runs once or not at all, and has one mark or none, as being switched `on` asks. */
  predicate SettledAt(cfg: Config, running: seq<Sensor>, skipped: seq<Skip>, n: Sensor, on: bool) {
    && multiset(running)[n] == One(cfg.Startable(n) && on)
    && multiset(skipped)[Skip(n, DisabledByPolicy)] == One(n in cfg.built && !on)
  }

  ghost predicate Settled(cfg: Config, running: seq<Sensor>, skipped: seq<Skip>, p: Policy) {
    forall n :: SettledAt(cfg, running, skipped, n, p.On(n))
  }

  /** A sensor that could run has gone: it neither runs nor is marked. */
  predicate LostAt(cfg: Config, running: seq<Sensor>, skipped: seq<Skip>, n: Sensor) {
    && cfg.Startable(n)
    && multiset(running)[n] == 0 && multiset(skipped)[Skip(n, DisabledByPolicy)] == 0
  }

  /** Where a sensor stands: as switched on, as switched off, or gone from both lists. */
  datatype Mode = Up | Down | Lost

  predicate InMode(cfg: Config, running: seq<Sensor>, skipped: seq<Skip>, n: Sensor, m: Mode) {
    match m
    case Up => SettledAt(cfg, running, skipped, n, true)
    case Down => n != Synthetic && SettledAt(cfg, running, skipped, n, false)
    case Lost => n != Synthetic && LostAt(cfg, running, skipped, n)
  }

  function ModeIn(cfg: Config, running: seq<Sensor>, skipped: seq<Skip>, n: Sensor): Mode {
    if SettledAt(cfg, running, skipped, n, true) then Up
    else if SettledAt(cfg, running, skipped, n, false) then Down
    else Lost
  }

  predicate OrderlyAt(cfg: Config, running: seq<Sensor>, skipped: seq<Skip>, n: Sensor) {
    InMode(cfg, running, skipped, n, ModeIn(cfg, running, skipped, n))
  }

  ghost predicate AllOrderly(cfg: Config, running: seq<Sensor>, skipped: seq<Skip>) {
    forall n :: OrderlyAt(cfg, running, skipped, n)
  }

  /** A built sensor is in one mode only. */
  lemma ModeIs(cfg: Config, running: seq<Sensor>, skipped: seq<Skip>, n: Sensor, m: Mode)
    requires InMode(cfg, running, skipped, n, m)
    ensures OrderlyAt(cfg, running, skipped, n)
    ensures n in cfg.built ==> ModeIn(cfg, running, skipped, n) == m
  {
  }

  // ---- switching

  /** Switching a sensor on or off; one that is not whole panics while the sensor stops or starts. */
  datatype Toggle = Toggle(on: bool, whole: bool)

  /** Only what is marked is started, and only a sensor that runs is stopped. */
  function Switched(m: Mode, t: Toggle, startable: bool): Mode {
    if t.whole || !startable then (if !t.on then Down else if m.Lost? then Lost else Up)
    else if t.on then (if m.Down? then Lost else m)
    else (if m.Up? then Lost else Down)
  }

  function Wanted(on: bool): Mode { if on then Up else Down }

  /** The mode after a sequence of toggles. */
  function ModeAfter(first: Mode, ts: seq<Toggle>, startable: bool): Mode {
    if ts == [] then first else Switched(ModeAfter(first, ts[..|ts| - 1], startable), ts[|ts| - 1], startable)
  }

  lemma {:induction false} ModeAfterBoth(first: Mode, a: seq<Toggle>, b: seq<Toggle>, startable: bool)
    ensures ModeAfter(first, a + b, startable) == ModeAfter(ModeAfter(first, a, startable), b, startable)
  {
    if b == [] {
      assert a + b == a;
    } else {
      ModeAfterBoth(first, a, b[..|b| - 1], startable);
      assert (a + b)[..|a + b| - 1] == a + b[..|b| - 1];
    }
  }

  /** The toggle at `i` panics after it has taken the sensor out of the one list and before the other has it. */
  predicate LosesAt(first: Mode, ts: seq<Toggle>, i: nat)
    requires i < |ts|
  {
    !ts[i].whole && ModeAfter(first, ts[..i], true) == Wanted(!ts[i].on)
  }

  ghost predicate OnSince(ts: seq<Toggle>, i: nat) { forall j :: i < j < |ts| ==> ts[j].on }

  ghost predicate LostBy(first: Mode, ts: seq<Toggle>) {
    exists i :: 0 <= i < |ts| && LosesAt(first, ts, i) && OnSince(ts, i)
  }

  /** A sensor is lost exactly if a toggle was cut in its middle and the sensor was never switched off since. */
  lemma {:induction false} LostExactly(first: Mode, ts: seq<Toggle>)
    requires !first.Lost?
    ensures ModeAfter(first, ts, true).Lost? <==> LostBy(first, ts)
  {
    if ts != [] {
      var n := |ts| - 1;
      LostExactly(first, ts[..n]);
      LostBySnoc(first, ts);
    }
  }

  lemma LostBySnoc(first: Mode, ts: seq<Toggle>)
    requires ts != []
    ensures var n := |ts| - 1;
      LostBy(first, ts) <==> LosesAt(first, ts, n) || (ts[n].on && LostBy(first, ts[..n]))
  {
    var n := |ts| - 1;
    var prev := ts[..n];
    forall i | 0 <= i < n
      ensures LosesAt(first, ts, i) == LosesAt(first, prev, i)
      ensures OnSince(ts, i) <==> OnSince(prev, i) && ts[n].on
    {
      assert prev[..i] == ts[..i] && prev[i] == ts[i];
    }
    assert OnSince(ts, n);
    if LostBy(first, prev) && ts[n].on {
      var i :| 0 <= i < n && LosesAt(first, prev, i) && OnSince(prev, i);
      assert LosesAt(first, ts, i) && OnSince(ts, i);
    }
  }

  /** How far an apply had come when it panicked: not begun, between two sensors, or inside the next one's toggle. */
  datatype Cut = NotBegun | After(sensors: nat) | Inside(sensors: nat)
  {
    predicate Valid() {
      match this
      case NotBegun => true
      case After(k) => k <= |KNOWN_SENSORS|
      case Inside(k) => k < |KNOWN_SENSORS|
    }

    /** What became of sensor `n`. */
    function Reached(p: Policy, n: Sensor): seq<Toggle> {
      if n == Synthetic || NotBegun? || KnownRank(n) > sensors then []
      else if KnownRank(n) < sensors then [Toggle(p.On(n), true)]
      else if Inside? then [Toggle(p.On(n), false)]
      else []
    }
  }

  lemma KnownNames(n: Sensor)
    ensures n != Synthetic <==> n in STARTUP_ORDER
    ensures n != Synthetic <==> n in KNOWN_SENSORS
  {
    match n
    case ProcessExec => assert STARTUP_ORDER[0] == n && KNOWN_SENSORS[6] == n;
    case Filesystem => assert STARTUP_ORDER[1] == n && KNOWN_SENSORS[2] == n;
    case Network => assert STARTUP_ORDER[2] == n && KNOWN_SENSORS[4] == n;
    case Identity => assert STARTUP_ORDER[3] == n && KNOWN_SENSORS[3] == n;
    case Systemd => assert STARTUP_ORDER[4] == n && KNOWN_SENSORS[7] == n;
    case Persistence => assert STARTUP_ORDER[5] == n && KNOWN_SENSORS[5] == n;
    case Container => assert STARTUP_ORDER[6] == n && KNOWN_SENSORS[0] == n;
    case Dns => assert STARTUP_ORDER[7] == n && KNOWN_SENSORS[1] == n;
    case Synthetic =>
  }

  /** The place of a sensor in each of the two lists. */
  function StartupRank(n: Sensor): nat {
    match n
    case ProcessExec => 0 case Filesystem => 1 case Network => 2 case Identity => 3
    case Systemd => 4 case Persistence => 5 case Container => 6 case Dns => 7 case Synthetic => 8
  }

  function KnownRank(n: Sensor): nat {
    match n
    case Container => 0 case Dns => 1 case Filesystem => 2 case Identity => 3
    case Network => 4 case Persistence => 5 case ProcessExec => 6 case Systemd => 7 case Synthetic => 8
  }

  lemma Ranked(i: nat)
    requires i < 8
    ensures StartupRank(STARTUP_ORDER[i]) == i && KnownRank(KNOWN_SENSORS[i]) == i
  {
    if i == 0 { } else if i == 1 { } else if i == 2 { } else if i == 3 { }
    else if i == 4 { } else if i == 5 { } else if i == 6 { } else { assert i == 7; }
  }

  lemma KnownPrefix(n: Sensor, k: nat)
    requires k <= |KNOWN_SENSORS|
    ensures n in KNOWN_SENSORS[..k] <==> n != Synthetic && KnownRank(n) < k
  {
    if n in KNOWN_SENSORS[..k] {
      var i :| 0 <= i < k && KNOWN_SENSORS[i] == n;
      Ranked(i);
      KnownNames(n);
    }
    if n != Synthetic && KnownRank(n) < k {
      KnownNames(n);
      var i :| 0 <= i < |KNOWN_SENSORS| && KNOWN_SENSORS[i] == n;
      Ranked(i);
      assert KNOWN_SENSORS[..k][i] == n;
    }
  }

  /** Neither list names a sensor twice, or the synthetic one. */
  lemma ListsAreSets()
    ensures Distinct(STARTUP_ORDER) && Distinct(KNOWN_SENSORS)
    ensures Synthetic !in STARTUP_ORDER && Synthetic !in KNOWN_SENSORS
  {
    forall i, j | 0 <= i < j < 8
      ensures STARTUP_ORDER[i] != STARTUP_ORDER[j] && KNOWN_SENSORS[i] != KNOWN_SENSORS[j]
    {
      Ranked(i);
      Ranked(j);
    }
    KnownNames(Synthetic);
  }

  predicate Distinct(ns: seq<Sensor>) { forall i, j :: 0 <= i < j < |ns| ==> ns[i] != ns[j] }

  /** Every sensor that could run and should is running, or marked so that it can be started. */
  ghost predicate NoneLost(cfg: Config, running: seq<Sensor>, skipped: seq<Skip>, p: Policy) {
    forall n :: cfg.Startable(n) && p.On(n) ==>
      n in running || Skip(n, DisabledByPolicy) in skipped
  }

  /** The mode of `n` once the sensors in `done` are switched. */
  function Moved(cfg: Config, running: seq<Sensor>, skipped: seq<Skip>, done: seq<Sensor>, p: Policy, n: Sensor): Mode {
    var m := ModeIn(cfg, running, skipped, n);
    if n in done then Switched(m, Toggle(p.On(n), true), cfg.Startable(n)) else m
  }

  /** From `r` and `s` the sensors in `done` are switched, the others are as they were. */
  ghost predicate Partly(cfg: Config, r: seq<Sensor>, s: seq<Skip>, running: seq<Sensor>, skipped: seq<Skip>,
                         done: seq<Sensor>, p: Policy) {
    forall n :: InMode(cfg, running, skipped, n, Moved(cfg, r, s, done, p, n))
  }

  lemma NothingMoved(cfg: Config, r: seq<Sensor>, s: seq<Skip>, p: Policy)
    requires AllOrderly(cfg, r, s)
    ensures Partly(cfg, r, s, r, s, [], p)
  {
    forall n ensures InMode(cfg, r, s, n, Moved(cfg, r, s, [], p, n)) { assert OrderlyAt(cfg, r, s, n); }
  }

  /** From `r` and `s` an apply that panicked has come as far as `cut` says. */
  ghost predicate CutShort(cfg: Config, r: seq<Sensor>, s: seq<Skip>, running: seq<Sensor>, skipped: seq<Skip>,
                           p: Policy, cut: Cut) {
    forall n :: InMode(cfg, running, skipped, n, ModeUntil(cfg, r, s, p, cut, n))
  }

  function ModeUntil(cfg: Config, r: seq<Sensor>, s: seq<Skip>, p: Policy, cut: Cut, n: Sensor): Mode {
    ModeAfter(ModeIn(cfg, r, s, n), cut.Reached(p, n), cfg.Startable(n))
  }

  lemma OneToggle(m: Mode, t: Toggle, startable: bool)
    ensures ModeAfter(m, [t], startable) == Switched(m, t, startable)
  {
    assert [t][..0] == [];
  }

  /** The stop of a running sensor panics. */
  lemma StopCut(p: Policy, n: Sensor)
    requires n != Synthetic && !p.On(n)
    ensures Inside(KnownRank(n)).Valid() && ModeAfter(Up, Inside(KnownRank(n)).Reached(p, n), true).Lost?
  {
    OneToggle(Up, Toggle(false, false), true);
  }

  lemma CutBetween(cfg: Config, r: seq<Sensor>, s: seq<Skip>, running: seq<Sensor>, skipped: seq<Skip>,
                   p: Policy, k: nat)
    requires k <= |KNOWN_SENSORS| && Partly(cfg, r, s, running, skipped, KNOWN_SENSORS[..k], p)
    ensures CutShort(cfg, r, s, running, skipped, p, After(k))
  {
    forall n ensures InMode(cfg, running, skipped, n, ModeUntil(cfg, r, s, p, After(k), n)) {
      KnownPrefix(n, k);
      OneToggle(ModeIn(cfg, r, s, n), Toggle(p.On(n), true), cfg.Startable(n));
      assert InMode(cfg, running, skipped, n, Moved(cfg, r, s, KNOWN_SENSORS[..k], p, n));
    }
  }

  /** Inside the toggle of one sensor the others are as between two. */
  lemma SameElsewhere(p: Policy, k: nat, n: Sensor)
    requires k < |KNOWN_SENSORS| && n != KNOWN_SENSORS[k]
    ensures Inside(k).Reached(p, n) == After(k).Reached(p, n)
  {
    if n != Synthetic && KnownRank(n) == k {
      KnownNames(n);
      var i :| 0 <= i < |KNOWN_SENSORS| && KNOWN_SENSORS[i] == n;
      Ranked(i);
    }
  }

  lemma CutShortMeans(cfg: Config, r: seq<Sensor>, s: seq<Skip>, running: seq<Sensor>, skipped: seq<Skip>,
                      p: Policy, cut: Cut)
    requires CutShort(cfg, r, s, running, skipped, p, cut)
    ensures AllOrderly(cfg, running, skipped)
    ensures forall n :: n in cfg.built ==> ModeIn(cfg, running, skipped, n) == ModeUntil(cfg, r, s, p, cut, n)
  {
    forall n
      ensures OrderlyAt(cfg, running, skipped, n)
      ensures n in cfg.built ==> ModeIn(cfg, running, skipped, n) == ModeUntil(cfg, r, s, p, cut, n)
    {
      ModeIs(cfg, running, skipped, n, ModeUntil(cfg, r, s, p, cut, n));
    }
  }

  lemma LostMeans(cfg: Config, running: seq<Sensor>, skipped: seq<Skip>, n: Sensor)
    requires OrderlyAt(cfg, running, skipped, n)
    ensures ModeIn(cfg, running, skipped, n).Lost? <==>
      cfg.Startable(n) && n !in running && Skip(n, DisabledByPolicy) !in skipped
  {
    assert n in running <==> multiset(running)[n] > 0;
    assert Skip(n, DisabledByPolicy) in skipped <==> multiset(skipped)[Skip(n, DisabledByPolicy)] > 0;
  }

  /** A built sensor is settled exactly in the mode the policy wants. */
  lemma SettledIsWanted(cfg: Config, running: seq<Sensor>, skipped: seq<Skip>, n: Sensor, p: Policy)
    requires OrderlyAt(cfg, running, skipped, n)
    ensures SettledAt(cfg, running, skipped, n, p.On(n)) <==>
      n !in cfg.built || ModeIn(cfg, running, skipped, n) == Wanted(p.On(n))
  {
  }

  lemma SwitchedOne(cfg: Config, r: seq<Sensor>, s: seq<Skip>, running: seq<Sensor>, skipped: seq<Skip>,
                    p: Policy, n: Sensor)
    requires OrderlyAt(cfg, r, s, n)
    requires InMode(cfg, running, skipped, n, Moved(cfg, r, s, KNOWN_SENSORS, p, n))
    ensures OrderlyAt(cfg, running, skipped, n)
    ensures n in cfg.built ==>
      ModeIn(cfg, running, skipped, n)
      == Switched(ModeIn(cfg, r, s, n), Toggle(p.On(n), true), cfg.Startable(n))
    ensures SettledAt(cfg, running, skipped, n, p.On(n)) <==>
      (cfg.Startable(n) && p.On(n) ==> n in r || Skip(n, DisabledByPolicy) in s)
  {
    KnownNames(n);
    ModeIs(cfg, running, skipped, n, Moved(cfg, r, s, KNOWN_SENSORS, p, n));
    LostMeans(cfg, r, s, n);
    SettledIsWanted(cfg, running, skipped, n, p);
  }

  /** Switching all of them leads to the policy exactly if none that should run was lost before. */
  lemma SwitchedAll(cfg: Config, r: seq<Sensor>, s: seq<Skip>, running: seq<Sensor>, skipped: seq<Skip>, p: Policy)
    requires AllOrderly(cfg, r, s) && Partly(cfg, r, s, running, skipped, KNOWN_SENSORS, p)
    ensures AllOrderly(cfg, running, skipped)
    ensures forall n :: n in cfg.built ==>
      ModeIn(cfg, running, skipped, n)
      == Switched(ModeIn(cfg, r, s, n), Toggle(p.On(n), true), cfg.Startable(n))
    ensures Settled(cfg, running, skipped, p) <==> NoneLost(cfg, r, s, p)
  {
    forall n
      ensures OrderlyAt(cfg, running, skipped, n)
      ensures n in cfg.built ==>
        ModeIn(cfg, running, skipped, n)
        == Switched(ModeIn(cfg, r, s, n), Toggle(p.On(n), true), cfg.Startable(n))
      ensures SettledAt(cfg, running, skipped, n, p.On(n)) <==>
        (cfg.Startable(n) && p.On(n) ==> n in r || Skip(n, DisabledByPolicy) in s)
    {
      SwitchedOne(cfg, r, s, running, skipped, p, n);
    }
  }

  /** A settled agent runs, without repetition, exactly the sensors that are built, start and are on. */
  lemma SettledMeans(cfg: Config, running: seq<Sensor>, skipped: seq<Skip>, p: Policy)
    requires Settled(cfg, running, skipped, p)
    ensures forall n :: n in running <==>
      n in cfg.built && n in cfg.starts && (n == Synthetic || n !in p.sensors || p.sensors[n])
    ensures forall n :: Skip(n, DisabledByPolicy) in skipped <==>
      n in cfg.built && n != Synthetic && n in p.sensors && !p.sensors[n]
    ensures forall n :: n in running ==> Skip(n, DisabledByPolicy) !in skipped
  {
    forall n
      ensures n in running <==> cfg.Startable(n) && p.On(n)
      ensures Skip(n, DisabledByPolicy) in skipped <==> n in cfg.built && !p.On(n)
    {
      assert SettledAt(cfg, running, skipped, n, p.On(n));
      assert n in running <==> n in multiset(running);
      assert Skip(n, DisabledByPolicy) in skipped <==> Skip(n, DisabledByPolicy) in multiset(skipped);
    }
  }

  /** In a sensor's mode, as against a settled agent: it misses the sensors it has lost, and nothing else. */
  lemma SameButLost(cfg: Config, r: seq<Sensor>, s: seq<Skip>, r2: seq<Sensor>, s2: seq<Skip>, p: Policy)
    requires AllOrderly(cfg, r, s) && Settled(cfg, r2, s2, p)
    requires forall n :: n in cfg.built ==>
      ModeIn(cfg, r, s, n) == Wanted(p.On(n)) || (ModeIn(cfg, r, s, n).Lost? && p.On(n))
    ensures forall n :: multiset(r)[n] == if ModeIn(cfg, r, s, n).Lost? then 0 else multiset(r2)[n]
    ensures forall n :: multiset(s)[Skip(n, DisabledByPolicy)] == multiset(s2)[Skip(n, DisabledByPolicy)]
    ensures multiset(r) == multiset(r2) <==> forall n :: n in cfg.built ==> !ModeIn(cfg, r, s, n).Lost?
  {
    forall n
      ensures multiset(r)[n] == if ModeIn(cfg, r, s, n).Lost? then 0 else multiset(r2)[n]
      ensures multiset(s)[Skip(n, DisabledByPolicy)] == multiset(s2)[Skip(n, DisabledByPolicy)]
      ensures ModeIn(cfg, r, s, n).Lost? ==> n in cfg.built && multiset(r2)[n] == 1
    {
      assert OrderlyAt(cfg, r, s, n) && SettledAt(cfg, r2, s2, n, p.On(n));
    }
  }

  /** A lost sensor does not run; where the policy is settled it does. */
  lemma LostNotRunning(cfg: Config, r: seq<Sensor>, s: seq<Skip>, r2: seq<Sensor>, s2: seq<Skip>, p: Policy, n: Sensor)
    requires AllOrderly(cfg, r, s) && Settled(cfg, r2, s2, p)
    requires cfg.Startable(n) && ModeIn(cfg, r, s, n).Lost? && p.On(n)
    ensures n !in r && n in r2
  {
    assert OrderlyAt(cfg, r, s, n);
    LostMeans(cfg, r, s, n);
    SettledMeans(cfg, r2, s2, p);
  }

  /** Two agents settled for one policy run the same sensors and carry the same marks. */
  lemma SettledIsUnique(cfg: Config, r: seq<Sensor>, s: seq<Skip>, r2: seq<Sensor>, s2: seq<Skip>, p: Policy)
    requires Settled(cfg, r, s, p) && Settled(cfg, r2, s2, p)
    ensures multiset(r) == multiset(r2)
    ensures forall n :: multiset(s)[Skip(n, DisabledByPolicy)] == multiset(s2)[Skip(n, DisabledByPolicy)]
  {
    forall n
      ensures multiset(r)[n] == multiset(r2)[n]
      ensures multiset(s)[Skip(n, DisabledByPolicy)] == multiset(s2)[Skip(n, DisabledByPolicy)]
    {
      assert SettledAt(cfg, r, s, n, p.On(n)) && SettledAt(cfg, r2, s2, n, p.On(n));
    }
  }
}

/** The sensor supervision of the agent. */
module Supervision {
  import opened Options
  import opened PolicySpec

  datatype SensorChange = Started | Stopped | Unchanged | NotConfigured | FailedToStart

  /** What a toggle answers; nothing if it panics. */
  function Answer(was: Mode, t: Toggle, built: bool, starts: bool): Option<SensorChange> {
    if !built || was.Lost? || (t.on && was.Up?) || (!t.on && was.Down?) then Some(Unchanged)
    else if t.on then (if !t.whole then None else Some(if starts then Started else FailedToStart))
    else if starts then (if !t.whole then None else Some(Stopped))
    else Some(Unchanged)
  }

  /** All entries except marks of `name`. */
  function Unmarked(s: seq<Skip>, x: Skip): (r: seq<Skip>)
    ensures forall y :: multiset(r)[y] == if y == x then 0 else multiset(s)[y]
  {
    if s == [] then []
    else
      var n := |s| - 1;
      assert s == s[..n] + [s[n]];
      if s[n] == x then Unmarked(s[..n], x) else Unmarked(s[..n], x) + [s[n]]
  }

  /** All entries about other sensors. */
  function Others(s: seq<Skip>, name: Sensor): (r: seq<Skip>)
    ensures forall y :: multiset(r)[y] == if y.name == name then 0 else multiset(s)[y]
  {
    if s == [] then []
    else
      var n := |s| - 1;
      assert s == s[..n] + [s[n]];
      if s[n].name == name then Others(s[..n], name) else Others(s[..n], name) + [s[n]]
  }

  /** The first loop of a start: what to try, and what policy forbids. */
  method Collect(cfg: Config, overlay: Policy, order: seq<Sensor>) returns (candidates: seq<Sensor>, skipped: seq<Skip>)
    requires Synthetic !in order && Distinct(order)
    ensures forall n :: multiset(candidates)[n] == One(n in order && n in cfg.built && overlay.On(n))
    ensures forall n :: multiset(skipped)[Skip(n, DisabledByPolicy)]
                        == One(n in order && n in cfg.built && !overlay.On(n))
    ensures forall n :: multiset(skipped)[Skip(n, Failed)] == 0
  {
    candidates, skipped := [], [];
    for i := 0 to |order|
      invariant forall n :: multiset(candidates)[n] == One(n in order[..i] && n in cfg.built && overlay.On(n))
      invariant forall n :: multiset(skipped)[Skip(n, DisabledByPolicy)]
                            == One(n in order[..i] && n in cfg.built && !overlay.On(n))
      invariant forall n :: multiset(skipped)[Skip(n, Failed)] == 0
    {
      var name := order[i];
      assert order[..i + 1] == order[..i] + [name];
      assert name !in order[..i];
      if name !in cfg.built { continue; }
      if name in overlay.sensors && !overlay.sensors[name] {
        skipped := skipped + [Skip(name, DisabledByPolicy)];
        continue;
      }
      candidates := candidates + [name];
    }
    assert order[..|order|] == order;
  }

  method Candidates(cfg: Config, overlay: Policy) returns (candidates: seq<Sensor>, skipped: seq<Skip>)
    ensures forall n :: multiset(candidates)[n] == One(n in cfg.built && overlay.On(n))
    ensures forall n :: multiset(skipped)[Skip(n, DisabledByPolicy)] == One(n in cfg.built && !overlay.On(n))
    ensures forall n :: multiset(skipped)[Skip(n, Failed)] == 0
  {
    forall n ensures n != Synthetic <==> n in STARTUP_ORDER { KnownNames(n); }
    ListsAreSets();
    candidates, skipped := Collect(cfg, overlay, STARTUP_ORDER);
    if Synthetic in cfg.built { candidates := candidates + [Synthetic]; }
  }

  /** The second loop of a start. */
  method StartAll(cfg: Config, candidates: seq<Sensor>, skipped: seq<Skip>)
    returns (running: seq<Sensor>, after: seq<Skip>)
    ensures forall n :: multiset(running)[n] == if n in cfg.starts then multiset(candidates)[n] else 0
    ensures forall n :: multiset(after)[Skip(n, DisabledByPolicy)] == multiset(skipped)[Skip(n, DisabledByPolicy)]
    ensures forall n :: multiset(after)[Skip(n, Failed)]
                        == multiset(skipped)[Skip(n, Failed)] + if n in cfg.starts then 0 else multiset(candidates)[n]
  {
    running, after := [], skipped;
    for i := 0 to |candidates|
      invariant forall n :: multiset(running)[n] == if n in cfg.starts then multiset(candidates[..i])[n] else 0
      invariant forall n :: multiset(after)[Skip(n, DisabledByPolicy)] == multiset(skipped)[Skip(n, DisabledByPolicy)]
      invariant forall n :: multiset(after)[Skip(n, Failed)] == multiset(skipped)[Skip(n, Failed)]
                            + if n in cfg.starts then 0 else multiset(candidates[..i])[n]
    {
      assert candidates[..i + 1] == candidates[..i] + [candidates[i]];
      if candidates[i] in cfg.starts {
        running := running + [candidates[i]];
      } else {
        after := after + [Skip(candidates[i], Failed)];
      }
    }
    assert candidates[..|candidates|] == candidates;
  }

  class Agent {
    const cfg: Config
    var sensors: seq<Sensor>
    var skipped: seq<Skip>
    var level: nat
    var heartbeat: nat
    var applied: Policy

    /** The agent follows the policy it says it has applied. */
    ghost predicate Follows(p: Policy)
      reads this
    {
      && Settled(cfg, sensors, skipped, p)
      && KnobsFollow(p)
    }

    predicate KnobsFollow(p: Policy)
      reads this
    {
      && applied == p
      && level == (if p.level.Some? then p.level.value else 0)
      && heartbeat == (if p.heartbeat.Some? then p.heartbeat.value else cfg.baseHeartbeat)
    }

    /** A fresh start from the overlay found on disk. */
    constructor Start(cfg: Config, overlay: Policy)
      ensures this.cfg == cfg && Follows(overlay)
      ensures forall n :: multiset(skipped)[Skip(n, Failed)] == One(n in cfg.built && n !in cfg.starts && overlay.On(n))
    {
      var candidates, forbidden := Candidates(cfg, overlay);
      var running, after := StartAll(cfg, candidates, forbidden);
      this.cfg := cfg;
      sensors, skipped := running, after;
      level := if overlay.level.Some? then overlay.level.value else 0;
      heartbeat := if overlay.heartbeat.Some? then overlay.heartbeat.value else cfg.baseHeartbeat;
      applied := overlay;
    }

    /** `mark_disabled`. */
    method MarkDisabled(name: Sensor, disabled: bool)
      modifies this`skipped
      ensures forall y :: multiset(skipped)[y]
                          == if y == Skip(name, DisabledByPolicy) then One(disabled) else old(multiset(skipped)[y])
    {
      skipped := Unmarked(skipped, Skip(name, DisabledByPolicy));
      if disabled { skipped := skipped + [Skip(name, DisabledByPolicy)]; }
    }

    method Position(name: Sensor) returns (i: int)
      ensures i >= 0 ==> i < |sensors| && sensors[i] == name
      ensures i < 0 ==> name !in sensors
    {
      for k := 0 to |sensors|
        invariant name !in sensors[..k]
      {
        if sensors[k] == name { return k; }
      }
      return -1;
    }

    /** Nothing about any sensor but `name` changes. */
    twostate predicate OnlyAbout(name: Sensor)
      reads this
    {
      && (forall n :: n != name ==> multiset(sensors)[n] == old(multiset(sensors)[n]))
      && (forall y: Skip :: y.name != name ==> multiset(skipped)[y] == old(multiset(skipped)[y]))
    }

    /** The sensor is taken out of the list, stopped and marked; `whole` is false if its stop panics. */
    method Disable(name: Sensor, whole: bool, ghost was: Mode) returns (change: Option<SensorChange>)
      requires name != Synthetic && InMode(cfg, sensors, skipped, name, was)
      modifies this`sensors, this`skipped
      ensures InMode(cfg, sensors, skipped, name, Switched(was, Toggle(false, whole), cfg.Startable(name)))
      ensures OnlyAbout(name)
      ensures change == Answer(was, Toggle(false, whole), name in cfg.built, name in cfg.starts)
    {
      assert name in sensors <==> multiset(sensors)[name] > 0;
      var i := Position(name);
      if i >= 0 {
        assert sensors == sensors[..i] + [sensors[i]] + sensors[i + 1..];
        sensors := sensors[..i] + sensors[i + 1..];
        if !whole { return None; }
        MarkDisabled(name, true);
        return Some(Stopped);
      }
      if name in cfg.built { MarkDisabled(name, true); }
      return Some(Unchanged);
    }

    /** Only what is marked is unmarked and started; `whole` is false if the start panics. */
    method Enable(name: Sensor, whole: bool, ghost was: Mode) returns (change: Option<SensorChange>)
      requires name != Synthetic && InMode(cfg, sensors, skipped, name, was)
      modifies this`sensors, this`skipped
      ensures InMode(cfg, sensors, skipped, name, Switched(was, Toggle(true, whole), cfg.Startable(name)))
      ensures OnlyAbout(name)
      ensures change == Answer(was, Toggle(true, whole), name in cfg.built, name in cfg.starts)
      ensures change == Some(FailedToStart) ==> multiset(skipped)[Skip(name, Failed)] == 1
    {
      assert name in sensors <==> multiset(sensors)[name] > 0;
      assert Skip(name, DisabledByPolicy) in skipped <==> multiset(skipped)[Skip(name, DisabledByPolicy)] > 0;
      var i := Position(name);
      if i >= 0 { return Some(Unchanged); }
      if Skip(name, DisabledByPolicy) !in skipped { return Some(Unchanged); }
      MarkDisabled(name, false);
      if name !in cfg.built { return Some(NotConfigured); }
      if !whole { return None; }
      if name in cfg.starts {
        sensors := sensors + [name];
        return Some(Started);
      }
      skipped := Others(skipped, name);
      skipped := skipped + [Skip(name, Failed)];
      return Some(FailedToStart);
    }

    /** `set_sensor_enabled`, which answers nothing if it panics. */
    method SetSensorEnabled(name: Sensor, enabled: bool, whole: bool, ghost was: Mode)
      returns (change: Option<SensorChange>)
      requires name != Synthetic && InMode(cfg, sensors, skipped, name, was)
      modifies this`sensors, this`skipped
      ensures InMode(cfg, sensors, skipped, name, Switched(was, Toggle(enabled, whole), cfg.Startable(name)))
      ensures OnlyAbout(name)
      ensures change == Answer(was, Toggle(enabled, whole), name in cfg.built, name in cfg.starts)
      ensures change == Some(Started) <==> name !in old(sensors) && name in sensors
      ensures change == Some(Stopped) ==>
        name in old(sensors) && name !in sensors && Skip(name, DisabledByPolicy) in skipped
      ensures name in old(sensors) && name !in sensors ==> change == Some(Stopped) || (!whole && change == None)
      ensures change == Some(FailedToStart) ==>
        && enabled && name !in sensors && Skip(name, DisabledByPolicy) in old(skipped)
        && multiset(skipped)[Skip(name, Failed)] == 1
      ensures change == None ==> !whole && name !in sensors && Skip(name, DisabledByPolicy) !in skipped
      ensures change == Some(Unchanged) ==> (name in sensors <==> name in old(sensors))
    {
      if enabled { change := Enable(name, whole, was); } else { change := Disable(name, whole, was); }
    }

    /** Every sensor is up, down or lost; the synthetic one is up. */
    ghost predicate Orderly()
      reads this
    {
      AllOrderly(cfg, sensors, skipped)
    }

    function Stands(n: Sensor): Mode
      reads this
    {
      ModeIn(cfg, sensors, skipped, n)
    }

    /**
     `Agent::apply_policy`, which runs under the apply lock.  From wherever earlier applies and
     panics left the agent it reaches the new policy exactly if no sensor that should run is lost;
     a lost one stays so until a policy switches it off.
     */
    method ApplyPolicy(p: Policy)
      requires Orderly()
      modifies this
      ensures Orderly() && KnobsFollow(p)
      ensures forall n :: n in cfg.built ==>
        Stands(n) == Switched(old(Stands(n)), Toggle(p.On(n), true), cfg.Startable(n))
      ensures applied == p && (p.level.Some? ==> level == p.level.value)
      ensures heartbeat == if p.heartbeat.Some? then p.heartbeat.value else cfg.baseHeartbeat
      ensures Follows(p) <==>
        forall n :: n in cfg.built && n in cfg.starts && (n == Synthetic || n !in p.sensors || p.sensors[n]) ==>
          n in old(sensors) || Skip(n, DisabledByPolicy) in old(skipped)
    {
      SetKnobs(p);
      ListsAreSets();
      SwitchAll(KNOWN_SENSORS, p);
      SwitchedAll(cfg, old(sensors), old(skipped), sensors, skipped, p);
    }

    /** An apply that panics. */
    method ApplyUntil(p: Policy, cut: Cut)
      requires Orderly() && cut.Valid()
      modifies this
      ensures Orderly() && if cut.NotBegun? then unchanged(this) else KnobsFollow(p)
      ensures forall n :: n in cfg.built ==>
        Stands(n) == ModeAfter(old(Stands(n)), cut.Reached(p, n), cfg.Startable(n))
    {
      if cut.NotBegun? { return; }
      SetKnobs(p);
      ListsAreSets();
      SwitchAll(KNOWN_SENSORS[..cut.sensors], p);
      CutBetween(cfg, old(sensors), old(skipped), sensors, skipped, p, cut.sensors);
      if cut.Inside? { SwitchHalf(cut.sensors, p, old(sensors), old(skipped)); }
      CutShortMeans(cfg, old(sensors), old(skipped), sensors, skipped, p, cut);
    }

    /** `PolicyRuntime::set`. */
    method SetKnobs(p: Policy)
      modifies this`level, this`heartbeat, this`applied
      ensures KnobsFollow(p)
    {
      level := if p.level.Some? then p.level.value else 0;
      heartbeat := if p.heartbeat.Some? then p.heartbeat.value else cfg.baseHeartbeat;
      applied := p;
    }

    method SwitchAll(known: seq<Sensor>, p: Policy)
      requires Orderly()
      requires Synthetic !in known && Distinct(known)
      modifies this`sensors, this`skipped
      ensures Partly(cfg, old(sensors), old(skipped), sensors, skipped, known, p)
    {
      ghost var r, s := sensors, skipped;
      NothingMoved(cfg, r, s, p);
      for i := 0 to |known|
        invariant Partly(cfg, r, s, sensors, skipped, known[..i], p)
      {
        var name := known[i];
        assert name !in known[..i] && name != Synthetic;
        assert InMode(cfg, sensors, skipped, name, Moved(cfg, r, s, known[..i], p, name));
        ghost var r1, s1 := sensors, skipped;
        var enabled := if name in p.sensors then p.sensors[name] else true;
        var _ := SetSensorEnabled(name, enabled, true, ModeIn(cfg, r, s, name));
        ghost var done := known[..i + 1];
        assert done == known[..i] + [name];
        forall n ensures InMode(cfg, sensors, skipped, n, Moved(cfg, r, s, done, p, n)) {
          if n != name { assert InMode(cfg, r1, s1, n, Moved(cfg, r, s, known[..i], p, n)); }
        }
      }
      assert known[..|known|] == known;
    }

    /** The toggle in which the apply panics. */
    method SwitchHalf(k: nat, p: Policy, ghost r: seq<Sensor>, ghost s: seq<Skip>)
      requires k < |KNOWN_SENSORS| && CutShort(cfg, r, s, sensors, skipped, p, After(k))
      modifies this`sensors, this`skipped
      ensures CutShort(cfg, r, s, sensors, skipped, p, Inside(k))
    {
      var name := KNOWN_SENSORS[k];
      Ranked(k);
      KnownNames(name);
      OneToggle(ModeIn(cfg, r, s, name), Toggle(p.On(name), false), cfg.Startable(name));
      assert InMode(cfg, sensors, skipped, name, ModeUntil(cfg, r, s, p, After(k), name));
      var enabled := if name in p.sensors then p.sensors[name] else true;
      var _ := SetSensorEnabled(name, enabled, false, ModeIn(cfg, r, s, name));
      forall n ensures InMode(cfg, sensors, skipped, n, ModeUntil(cfg, r, s, p, Inside(k), n)) {
        if n != name {
          SameElsewhere(p, k, n);
          assert old(InMode(cfg, sensors, skipped, n, ModeUntil(cfg, r, s, p, After(k), n)));
        }
      }
    }

    /** Following a policy is being orderly, with no sensor lost. */
    lemma FollowsIsOrderly(p: Policy)
      requires Follows(p)
      ensures Orderly() && forall n :: n in cfg.built ==> Stands(n) == Wanted(p.On(n))
    {
      forall n
        ensures OrderlyAt(cfg, sensors, skipped, n) && (n in cfg.built ==> Stands(n) == Wanted(p.On(n)))
      {
        assert SettledAt(cfg, sensors, skipped, n, p.On(n));
        ModeIs(cfg, sensors, skipped, n, Wanted(p.On(n)));
      }
    }
  }

  predicate AllOn(ps: seq<Policy>, n: Sensor) { forall i :: 0 <= i < |ps| ==> ps[i].On(n) }

  /** What a sequence of applies makes of a sensor. */
  function Finally(m: Mode, ps: seq<Policy>, n: Sensor): Mode
    requires ps != []
  {
    if m.Lost? && AllOn(ps, n) then Lost else Wanted(ps[|ps| - 1].On(n))
  }

  lemma FinallySnoc(m: Mode, ps: seq<Policy>, n: Sensor, startable: bool)
    requires ps != []
    ensures var k := |ps| - 1;
      Finally(m, ps, n)
      == Switched(if k == 0 then m else Finally(m, ps[..k], n), Toggle(ps[k].On(n), true), startable)
  {
    var k := |ps| - 1;
    assert AllOn(ps, n) <==> AllOn(ps[..k], n) && ps[k].On(n);
  }

  /**
   Any sequence of applies ends where a fresh start from the last policy does, exactly if every
   sensor lost before it was switched off on the way.
   */
  method ApplyAll(agent: Agent, ps: seq<Policy>) returns (other: Agent)
    requires agent.Orderly() && ps != []
    modifies agent
    ensures fresh(other) && other.Follows(ps[|ps| - 1]) && agent.KnobsFollow(ps[|ps| - 1])
    ensures forall n :: n in agent.cfg.built ==> agent.Stands(n) == Finally(old(agent.Stands(n)), ps, n)
    ensures forall n :: multiset(agent.skipped)[Skip(n, DisabledByPolicy)]
                        == multiset(other.skipped)[Skip(n, DisabledByPolicy)]
    ensures multiset(agent.sensors) == multiset(other.sensors) <==>
            forall n :: n in agent.cfg.built && old(agent.Stands(n)).Lost? ==> !AllOn(ps, n)
  {
    for i := 0 to |ps|
      invariant agent.Orderly() && (i == 0 ==> unchanged(agent)) && (i > 0 ==> agent.KnobsFollow(ps[i - 1]))
      invariant i > 0 ==>
        forall n :: n in agent.cfg.built ==> agent.Stands(n) == Finally(old(agent.Stands(n)), ps[..i], n)
    {
      agent.ApplyPolicy(ps[i]);
      forall n | n in agent.cfg.built ensures agent.Stands(n) == Finally(old(agent.Stands(n)), ps[..i + 1], n) {
        assert ps[..i + 1][..i] == ps[..i];
        FinallySnoc(old(agent.Stands(n)), ps[..i + 1], n, agent.cfg.Startable(n));
      }
    }
    assert ps[..|ps|] == ps;
    other := new Agent.Start(agent.cfg, ps[|ps| - 1]);
    SameButLost(agent.cfg, agent.sensors, agent.skipped, other.sensors, other.skipped, ps[|ps| - 1]);
  }
}
