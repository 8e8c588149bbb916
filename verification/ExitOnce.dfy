/**
 One exit record per thread group.  Threads of any number of groups are started, spawn
 others and leave in any order; every exiting thread runs `handle_exit`, whose read of
 `signal->live`, claim of the group in EXITED and record are three separate steps.
 */
module ExitSpec {
  import opened Options

  type Tid = nat
  /** A thread group: its id together with the start time of its leader. */
  type Group = nat

  datatype Phase =
    | Running
    /** Has decremented `live`; the tracepoint comes after. */
    | Left
    /** Has read zero. */
    | Saw
    /** Has claimed the group. */
    | Won
    | Done

  datatype Thread = Thread(group: Group, phase: Phase, code: int)

  /** `signal_struct`: threads that have not left, and the code of a group exit, if one was ordered. */
  datatype Signal = Signal(live: int, groupExit: Option<int>, agent: bool)

  /** One line of what user space can see: an exit record, or a counted drop. */
  datatype Outcome = Record(group: Group, status: int) | Drop(group: Group)

  /** What the program keeps: EXITED, and the records and drops so far. */
  datatype Table = Table(exited: set<Group>, log: seq<Outcome>)

  datatype State = State(threads: map<Tid, Thread>, signals: map<Group, Signal>, table: Table)

  const Init := State(map[], map[], Table({}, []))

  datatype Step =
    | Start(t: Tid, g: Group, agent: bool)
    | Spawn(t: Tid, child: Tid)
    | OrderExit(g: Group, code: int)
    | Leave(t: Tid, code: int)
    | Check(t: Tid)
    /** `fails`: the map has no room, which is not the answer "already there". */
    | Claim(t: Tid, fails: bool)
    | Report(t: Tid, reserved: bool)
    | Evict(g: Group)

  predicate In(s: State, t: Tid, phase: Phase) {
    t in s.threads && s.threads[t].phase == phase && s.threads[t].group in s.signals
  }

  predicate Enabled(s: State, e: Step) {
    match e
    case Start(t, g, _) => t !in s.threads && g !in s.signals
    case Spawn(t, child) => In(s, t, Running) && child !in s.threads
    case OrderExit(g, _) => g in s.signals
    case Leave(t, _) => In(s, t, Running)
    case Check(t) => In(s, t, Left)
    case Claim(t, _) => In(s, t, Saw)
    case Report(t, _) => In(s, t, Won)
    case Evict(_) => true
  }

  function Moved(s: State, t: Tid, phase: Phase): State
    requires t in s.threads
  {
    s.(threads := s.threads[t := s.threads[t].(phase := phase)])
  }

  function Count(s: State, g: Group, delta: int): State
    requires g in s.signals
  {
    s.(signals := s.signals[g := s.signals[g].(live := s.signals[g].live + delta)])
  }

  /** The status a waiting parent would see. */
  function Status(sig: Signal, code: int): int {
    if sig.groupExit.Some? then sig.groupExit.value else code
  }

  function Apply(s: State, e: Step): State
    requires Enabled(s, e)
  {
    match e
    case Start(t, g, agent) =>
      s.(threads := s.threads[t := Thread(g, Running, 0)], signals := s.signals[g := Signal(1, None, agent)])
    case Spawn(t, child) =>
      var g := s.threads[t].group;
      Count(s, g, 1).(threads := s.threads[child := Thread(g, Running, 0)])
    case OrderExit(g, code) => s.(signals := s.signals[g := s.signals[g].(groupExit := Some(code))])
    case Leave(t, code) =>
      var x := s.threads[t];
      Count(s, x.group, -1).(threads := s.threads[t := Thread(x.group, Left, code)])
    case Check(t) =>
      var sig := s.signals[s.threads[t].group];
      Moved(s, t, if sig.agent || sig.live != 0 then Done else Saw)
    case Claim(t, fails) =>
      var g := s.threads[t].group;
      if fails then Moved(s, t, Won)
      else if g in s.table.exited then Moved(s, t, Done)
      else Moved(s, t, Won).(table := s.table.(exited := s.table.exited + {g}))
    case Report(t, reserved) =>
      var x := s.threads[t];
      var line := if reserved then Record(x.group, Status(s.signals[x.group], x.code)) else Drop(x.group);
      Moved(s, t, Done).(table := s.table.(log := s.table.log + [line]))
    case Evict(g) => s.(table := s.table.(exited := s.table.exited - {g}))
  }

  function Next(s: State, e: Step): State { if Enabled(s, e) then Apply(s, e) else s }

  function Run(tr: seq<Step>): State {
    if tr == [] then Init else Next(Run(tr[..|tr| - 1]), tr[|tr| - 1])
  }

  // ---- what is reported

  /** The code of the last group exit ordered, if any was. */
  function Ordered(tr: seq<Step>, g: Group): Option<int> {
    if tr == [] then None
    else
      var prev, e := tr[..|tr| - 1], tr[|tr| - 1];
      if e.OrderExit? && e.g == g && StartedIn(prev, g) then Some(e.code) else Ordered(prev, g)
  }

  predicate StartedIn(tr: seq<Step>, g: Group) { g in Run(tr).signals }

  /** The code with which a thread left, if it has. */
  function LeftWith(tr: seq<Step>, t: Tid): int {
    if tr == [] then 0
    else
      var prev, e := tr[..|tr| - 1], tr[|tr| - 1];
      if e.Leave? && e.t == t && In(Run(prev), t, Running) then e.code else LeftWith(prev, t)
  }

  lemma {:induction false} OrderedIsKept(tr: seq<Step>, g: Group)
    ensures if StartedIn(tr, g) then Run(tr).signals[g].groupExit == Ordered(tr, g) else Ordered(tr, g).None?
  {
    if tr != [] { OrderedIsKept(tr[..|tr| - 1], g); }
  }

  lemma {:induction false} CodeIsKept(tr: seq<Step>, t: Tid)
    ensures if t in Run(tr).threads then Run(tr).threads[t].code == LeftWith(tr, t) else LeftWith(tr, t) == 0
    ensures t in Run(tr).threads && Run(tr).threads[t].phase == Running ==> LeftWith(tr, t) == 0
  {
    if tr != [] { CodeIsKept(tr[..|tr| - 1], t); }
  }

  /**
   A report writes one line about its thread's group: a record, if there is room for it, with the code
   of the last group exit ordered, or else the one its thread left with.  No other step writes one.
   */
  lemma ReportSays(tr: seq<Step>, e: Step)
    ensures var s, log := Run(tr), Run(tr + [e]).table.log;
      if e.Report? && In(s, e.t, Won) then
        var g := s.threads[e.t].group;
        log == s.table.log + [if !e.reserved then Drop(g)
                              else Record(g, if Ordered(tr, g).Some? then Ordered(tr, g).value else LeftWith(tr, e.t))]
      else log == s.table.log
  {
    assert (tr + [e])[..|tr|] == tr;
    if e.Report? && In(Run(tr), e.t, Won) {
      OrderedIsKept(tr, Run(tr).threads[e.t].group);
      CodeIsKept(tr, e.t);
    }
  }

  // ---- counting

  function Outcomes(log: seq<Outcome>, g: Group): nat {
    if log == [] then 0
    else Outcomes(log[..|log| - 1], g) + if log[|log| - 1].group == g then 1 else 0
  }

  /** The threads of `g` that have not left. */
  function Alive(s: State, g: Group): set<Tid> {
    set t | t in s.threads && s.threads[t].group == g && s.threads[t].phase == Running
  }

  /** Some thread of `g` has seen `live` at zero and not finished. */
  predicate Acting(s: State, t: Tid, g: Group) {
    t in s.threads && s.threads[t].group == g && (s.threads[t].phase == Saw || s.threads[t].phase == Won)
  }

  /** What holds of any group, whatever EXITED forgets or refuses. */
  ghost predicate LiveOk(s: State, g: Group)
    requires g in s.signals
  {
    && s.signals[g].live == |Alive(s, g)|
    && (Alive(s, g) != {} || s.signals[g].agent ==> Outcomes(s.table.log, g) == 0)
    && forall t :: Acting(s, t, g) ==> Alive(s, g) == {} && !s.signals[g].agent
  }

  ghost predicate Inv(s: State) {
    && (forall t :: t in s.threads ==> s.threads[t].group in s.signals)
    && (forall g :: g in s.signals ==> LiveOk(s, g))
    && (forall g :: g !in s.signals ==> Outcomes(s.table.log, g) == 0 && g !in s.table.exited)
  }

  lemma {:induction false} RunKeepsInv(tr: seq<Step>)
    ensures Inv(Run(tr))
  {
    if tr != [] {
      var prev, e := tr[..|tr| - 1], tr[|tr| - 1];
      RunKeepsInv(prev);
      NextKeepsInv(Run(prev), e);
    }
  }

  lemma AliveAfter(s: State, e: Step, g: Group)
    requires Enabled(s, e)
    ensures Alive(Apply(s, e), g) ==
      (match e
       case Start(t, g2, _) => Alive(s, g) + if g == g2 then {t} else {}
       case Spawn(t, child) => Alive(s, g) + if g == s.threads[t].group then {child} else {}
       case Leave(t, _) => Alive(s, g) - {t}
       case _ => Alive(s, g))
  {
  }

  lemma OutcomesSnoc(log: seq<Outcome>, line: Outcome, g: Group)
    ensures Outcomes(log + [line], g) == Outcomes(log, g) + if line.group == g then 1 else 0
  {
    assert (log + [line])[..|log|] == log;
  }

  predicate Joins(s: State, e: Step, g: Group) {
    (e.Start? && e.g == g) || (e.Spawn? && In(s, e.t, Running) && s.threads[e.t].group == g)
  }

  predicate Leaves(s: State, e: Step, g: Group) { e.Leave? && In(s, e.t, Running) && s.threads[e.t].group == g }

  lemma OneMoreAlive(s: State, e: Step, g: Group)
    requires Enabled(s, e) && Joins(s, e, g)
    ensures |Alive(Apply(s, e), g)| == |Alive(s, g)| + 1
  {
    AliveAfter(s, e, g);
    var t := if e.Start? then e.t else e.child;
    assert t !in Alive(s, g) && Alive(Apply(s, e), g) == Alive(s, g) + {t};
  }

  lemma OneAliveLess(s: State, e: Step, g: Group)
    requires Enabled(s, e) && Leaves(s, e, g)
    ensures |Alive(Apply(s, e), g)| == |Alive(s, g)| - 1
  {
    AliveAfter(s, e, g);
    assert e.t in Alive(s, g);
  }

  lemma SameAlive(s: State, e: Step, g: Group)
    requires Enabled(s, e) && !Joins(s, e, g) && !Leaves(s, e, g)
    ensures Alive(Apply(s, e), g) == Alive(s, g)
  {
    AliveAfter(s, e, g);
    if e.Leave? { assert e.t !in Alive(s, g); }
  }

  lemma AliveCount(s: State, e: Step, g: Group)
    requires Enabled(s, e)
    ensures |Alive(Apply(s, e), g)| == |Alive(s, g)| + if Joins(s, e, g) then 1 else if Leaves(s, e, g) then -1 else 0
  {
    if Joins(s, e, g) { OneMoreAlive(s, e, g); }
    else if Leaves(s, e, g) { OneAliveLess(s, e, g); }
    else { SameAlive(s, e, g); }
  }

  lemma LiveKept(s: State, e: Step, g: Group)
    requires Inv(s) && Enabled(s, e) && g in Apply(s, e).signals
    ensures Apply(s, e).signals[g].live == |Alive(Apply(s, e), g)|
  {
    AliveCount(s, e, g);
    if g in s.signals { assert LiveOk(s, g); } else { NoneAlive(s, g); }
  }

  lemma NoneAlive(s: State, g: Group)
    requires Inv(s) && g !in s.signals
    ensures Alive(s, g) == {}
  {
  }

  /** A thread starts acting only when it reads zero. */
  lemma ActsOnZero(s: State, e: Step, g: Group, t: Tid)
    requires Enabled(s, e) && Acting(Apply(s, e), t, g) && !Acting(s, t, g)
    ensures e == Check(t) && s.threads[t].group == g && s.signals[g].live == 0 && !s.signals[g].agent
  {
  }

  /** Once no thread of a group is left, none comes back. */
  lemma EmptyStaysEmpty(s: State, e: Step, g: Group)
    requires Enabled(s, e) && g in s.signals && Alive(s, g) == {}
    ensures Alive(Apply(s, e), g) == {}
  {
    AliveAfter(s, e, g);
    assert e.Spawn? ==> e.t in Alive(s, s.threads[e.t].group);
  }

  lemma ActingKept(s: State, e: Step, g: Group, t: Tid)
    requires Inv(s) && Enabled(s, e) && Acting(Apply(s, e), t, g)
    ensures g in s.signals && Alive(Apply(s, e), g) == {} && !Apply(s, e).signals[g].agent
  {
    if !Acting(s, t, g) { ActsOnZero(s, e, g, t); }
    assert g in s.signals && LiveOk(s, g);
    assert Alive(s, g) == {};
    EmptyStaysEmpty(s, e, g);
  }

  /** A group with threads left had some before, or is new. */
  lemma AliveBefore(s: State, e: Step, g: Group)
    requires Enabled(s, e) && g in s.signals && Alive(Apply(s, e), g) != {}
    ensures Alive(s, g) != {}
  {
    AliveAfter(s, e, g);
    if e.Spawn? && s.threads[e.t].group == g { assert e.t in Alive(s, g); }
  }

  /** No step reports a group that has threads left or is the agent's. */
  lemma NotYetReported(s: State, e: Step, g: Group)
    requires Inv(s) && Enabled(s, e) && g in s.signals && (Alive(s, g) != {} || s.signals[g].agent)
    ensures !Ends(s, e, g)
  {
    assert LiveOk(s, g);
    assert Ends(s, e, g) ==> Acting(s, e.t, g);
  }

  lemma SilentKept(s: State, e: Step, g: Group)
    requires Inv(s) && Enabled(s, e) && g in Apply(s, e).signals
    requires Alive(Apply(s, e), g) != {} || Apply(s, e).signals[g].agent
    ensures Outcomes(Apply(s, e).table.log, g) == 0
  {
    OutcomesAfter(s, e, g);
    if g in s.signals {
      assert LiveOk(s, g);
      if Alive(Apply(s, e), g) != {} { AliveBefore(s, e, g); }
      NotYetReported(s, e, g);
    }
  }

  lemma GroupKept(s: State, e: Step, g: Group)
    requires Inv(s) && Enabled(s, e) && g in Apply(s, e).signals
    ensures LiveOk(Apply(s, e), g)
  {
    var s2 := Apply(s, e);
    LiveKept(s, e, g);
    if Alive(s2, g) != {} || s2.signals[g].agent { SilentKept(s, e, g); }
    forall t | Acting(s2, t, g) ensures Alive(s2, g) == {} && !s2.signals[g].agent { ActingKept(s, e, g, t); }
  }

  lemma ThreadsHaveGroups(s: State, e: Step)
    requires Enabled(s, e) && forall t :: t in s.threads ==> s.threads[t].group in s.signals
    ensures forall t :: t in Apply(s, e).threads ==> Apply(s, e).threads[t].group in Apply(s, e).signals
  {
  }

  lemma UnknownGroup(s: State, e: Step, g: Group)
    requires Enabled(s, e) && g !in Apply(s, e).signals
    requires g !in s.signals ==> Outcomes(s.table.log, g) == 0 && g !in s.table.exited
    ensures Outcomes(Apply(s, e).table.log, g) == 0 && g !in Apply(s, e).table.exited
  {
    assert g !in s.signals;
    if e.Report? { OutcomesSnoc(s.table.log, Apply(s, e).table.log[|s.table.log|], g); }
  }

  lemma NextKeepsInv(s: State, e: Step)
    requires Inv(s)
    ensures Inv(Next(s, e))
  {
    if Enabled(s, e) {
      ThreadsHaveGroups(s, e);
      forall g | g in Apply(s, e).signals ensures LiveOk(Apply(s, e), g) { GroupKept(s, e, g); }
      forall g | g !in Apply(s, e).signals
        ensures Outcomes(Apply(s, e).table.log, g) == 0 && g !in Apply(s, e).table.exited
      {
        UnknownGroup(s, e, g);
      }
    }
  }

  // ---- theorems

  /** A thread of `g` tries to insert the key. */
  predicate Tries(s: State, e: Step, g: Group) { e.Claim? && In(s, e.t, Saw) && s.threads[e.t].group == g }

  /** And goes on to report: the key was not there, or the map failed. */
  predicate Wins(s: State, e: Step, g: Group) { Tries(s, e, g) && (e.fails || g !in s.table.exited) }

  predicate Ends(s: State, e: Step, g: Group) { e.Report? && In(s, e.t, Won) && s.threads[e.t].group == g }

  /** How many tries of a run went on to report. */
  function Passed(tr: seq<Step>, g: Group): nat {
    if tr == [] then 0
    else
      var prev, e := tr[..|tr| - 1], tr[|tr| - 1];
      Passed(prev, g) + if Wins(Run(prev), e, g) then 1 else 0
  }

  function Winners(s: State, g: Group): set<Tid> {
    set t | t in s.threads && s.threads[t].group == g && s.threads[t].phase == Won
  }

  /** Threads that have left and may still claim the group. */
  function Hopefuls(s: State, g: Group): set<Tid> {
    set t | t in s.threads && s.threads[t].group == g && (s.threads[t].phase == Left || s.threads[t].phase == Saw)
  }

  /** Every passed try is an outcome or about to be one; and until one passes, someone can still try. */
  ghost predicate Accounted(s: State, g: Group, passed: nat) {
    && |Winners(s, g)| + Outcomes(s.table.log, g) == passed
    && (g in s.table.exited ==> passed > 0)
    && (g in s.signals && !s.signals[g].agent && Alive(s, g) == {} && passed == 0 ==> Hopefuls(s, g) != {})
  }

  lemma OneMoreWinner(s: State, e: Step, g: Group)
    requires Enabled(s, e) && Wins(s, e, g)
    ensures Winners(Apply(s, e), g) == Winners(s, g) + {e.t} && e.t !in Winners(s, g)
  {
  }

  lemma OneWinnerLess(s: State, e: Step, g: Group)
    requires Enabled(s, e) && Ends(s, e, g)
    ensures Winners(Apply(s, e), g) == Winners(s, g) - {e.t} && e.t in Winners(s, g)
  {
  }

  lemma SameWinners(s: State, e: Step, g: Group)
    requires Enabled(s, e) && !Wins(s, e, g) && !Ends(s, e, g)
    ensures Winners(Apply(s, e), g) == Winners(s, g)
  {
    var s2 := Apply(s, e);
    forall t ensures t in Winners(s2, g) <==> t in Winners(s, g) {
    }
  }

  function Change(s: State, e: Step, g: Group): int {
    if Wins(s, e, g) then 1 else if Ends(s, e, g) then -1 else 0
  }

  lemma WinnersAfter(s: State, e: Step, g: Group)
    requires Enabled(s, e)
    ensures |Winners(Apply(s, e), g)| == |Winners(s, g)| + Change(s, e, g)
  {
    if Wins(s, e, g) {
      OneMoreWinner(s, e, g);
    } else if Ends(s, e, g) {
      OneWinnerLess(s, e, g);
    } else {
      SameWinners(s, e, g);
    }
  }

  lemma OutcomesAfter(s: State, e: Step, g: Group)
    requires Enabled(s, e)
    ensures Outcomes(Apply(s, e).table.log, g) == Outcomes(s.table.log, g) + if Ends(s, e, g) then 1 else 0
  {
    if e.Report? { OutcomesSnoc(s.table.log, Apply(s, e).table.log[|s.table.log|], g); }
  }

  lemma HopefulStays(s: State, e: Step, g: Group, t: Tid)
    requires Enabled(s, e) && g in s.signals && t in Hopefuls(s, g) && !Wins(s, e, g)
    requires s.signals[g].live == 0 && !s.signals[g].agent && g !in s.table.exited
    ensures t in Hopefuls(Apply(s, e), g)
  {
  }

  lemma StillHopeful(s: State, e: Step, g: Group)
    requires Inv(s) && Enabled(s, e) && Accounted(s, g, 0) && !Wins(s, e, g)
    requires var s2 := Apply(s, e); g in s2.signals && !s2.signals[g].agent && Alive(s2, g) == {}
    ensures Hopefuls(Apply(s, e), g) != {}
  {
    AliveAfter(s, e, g);
    if Leaves(s, e, g) {
      assert e.t in Hopefuls(Apply(s, e), g);
    } else {
      EmptyBefore(s, e, g);
      assert LiveOk(s, g);
      var t :| t in Hopefuls(s, g);
      HopefulStays(s, e, g, t);
    }
  }

  lemma EmptyBefore(s: State, e: Step, g: Group)
    requires Enabled(s, e) && g in Apply(s, e).signals && Alive(Apply(s, e), g) == {} && !Leaves(s, e, g)
    ensures g in s.signals && Alive(s, g) == {} && Apply(s, e).signals[g].agent == s.signals[g].agent
  {
    AliveAfter(s, e, g);
    if e.Leave? { assert e.t !in Alive(s, g); }
  }

  lemma AccountedStep(s: State, e: Step, g: Group, passed: nat)
    requires Inv(s) && Accounted(s, g, passed)
    ensures Accounted(Next(s, e), g, passed + if Wins(s, e, g) then 1 else 0)
  {
    if Enabled(s, e) {
      var s2 := Apply(s, e);
      WinnersAfter(s, e, g);
      OutcomesAfter(s, e, g);
      if passed == 0 && !Wins(s, e, g) && g in s2.signals && !s2.signals[g].agent && Alive(s2, g) == {} {
        StillHopeful(s, e, g);
      }
    }
  }

  /** In every run the outcomes of a group, with those about to come, number the tries that passed. */
  lemma {:induction false} OutcomesArePassed(tr: seq<Step>, g: Group)
    ensures Accounted(Run(tr), g, Passed(tr, g))
  {
    if tr == [] {
      assert Winners(Init, g) == {};
    } else {
      OutcomesArePassed(tr[..|tr| - 1], g);
      RunKeepsInv(tr[..|tr| - 1]);
      AccountedStep(Run(tr[..|tr| - 1]), tr[|tr| - 1], g, Passed(tr[..|tr| - 1], g));
    }
  }

  // ---- when a second try passes

  predicate TryAt(tr: seq<Step>, i: nat, g: Group)
    requires i < |tr|
  {
    Tries(Run(tr[..i]), tr[i], g)
  }

  /** Before step `i` the key of `g` was inserted and not evicted since. */
  ghost predicate KeyHeld(tr: seq<Step>, i: nat, g: Group)
    requires i <= |tr|
  {
    exists k :: 0 <= k < i && InsertedAt(tr, k, i, g)
  }

  ghost predicate InsertedAt(tr: seq<Step>, k: nat, i: nat, g: Group)
    requires k < i <= |tr|
  {
    TryAt(tr, k, g) && !tr[k].fails && forall m :: k < m < i ==> tr[m] != Evict(g)
  }

  /** A try that is not the group's first finds the key gone, or the map fails it. */
  ghost predicate PassesAgain(tr: seq<Step>, i: nat, g: Group)
    requires i < |tr|
  {
    TryAt(tr, i, g) && (exists j :: 0 <= j < i && TryAt(tr, j, g)) && (tr[i].fails || !KeyHeld(tr, i, g))
  }

  ghost predicate Repeats(tr: seq<Step>, g: Group) {
    exists i :: 0 <= i < |tr| && PassesAgain(tr, i, g)
  }

  lemma SamePrefix(tr: seq<Step>, n: nat, g: Group)
    requires n <= |tr|
    ensures forall i :: 0 <= i < n ==> TryAt(tr[..n], i, g) == TryAt(tr, i, g)
  {
    forall i | 0 <= i < n ensures TryAt(tr[..n], i, g) == TryAt(tr, i, g) {
      assert tr[..n][..i] == tr[..i] && tr[..n][i] == tr[i];
    }
  }

  lemma SameKey(tr: seq<Step>, n: nat, i: nat, g: Group)
    requires i <= n <= |tr|
    ensures KeyHeld(tr[..n], i, g) <==> KeyHeld(tr, i, g)
  {
    SamePrefix(tr, n, g);
    var prev := tr[..n];
    assert forall m :: 0 <= m < n ==> prev[m] == tr[m];
    if KeyHeld(prev, i, g) {
      var k :| 0 <= k < i && InsertedAt(prev, k, i, g);
      assert InsertedAt(tr, k, i, g);
    }
    if KeyHeld(tr, i, g) {
      var k :| 0 <= k < i && InsertedAt(tr, k, i, g);
      assert InsertedAt(prev, k, i, g);
    }
  }

  lemma KeyStep(tr: seq<Step>, n: nat, g: Group)
    requires n < |tr|
    ensures KeyHeld(tr, n + 1, g) <==> (KeyHeld(tr, n, g) && tr[n] != Evict(g)) || (TryAt(tr, n, g) && !tr[n].fails)
  {
    if TryAt(tr, n, g) && !tr[n].fails { assert InsertedAt(tr, n, n + 1, g); }
    if KeyHeld(tr, n, g) && tr[n] != Evict(g) {
      var k :| 0 <= k < n && InsertedAt(tr, k, n, g);
      assert InsertedAt(tr, k, n + 1, g);
    }
    if KeyHeld(tr, n + 1, g) {
      var k :| 0 <= k < n + 1 && InsertedAt(tr, k, n + 1, g);
      if k < n { assert InsertedAt(tr, k, n, g); }
    }
  }

  /** EXITED has the key exactly when it was inserted and not evicted since. */
  lemma {:induction false} ExitedIsHeld(tr: seq<Step>, n: nat, g: Group)
    requires n <= |tr|
    ensures g in Run(tr[..n]).table.exited <==> KeyHeld(tr, n, g)
  {
    if n > 0 {
      ExitedIsHeld(tr, n - 1, g);
      KeyStep(tr, n - 1, g);
      assert tr[..n][..n - 1] == tr[..n - 1];
    }
  }

  lemma {:induction false} PassedIfTried(tr: seq<Step>, g: Group)
    ensures Passed(tr, g) > 0 <==> exists j :: 0 <= j < |tr| && TryAt(tr, j, g)
  {
    if tr != [] {
      var n := |tr| - 1;
      PassedIfTried(tr[..n], g);
      SamePrefix(tr, n, g);
      OutcomesArePassed(tr[..n], g);
      if Passed(tr[..n], g) > 0 {
        var j :| 0 <= j < n && TryAt(tr[..n], j, g);
        assert TryAt(tr, j, g);
      }
      assert TryAt(tr, n, g) <==> Tries(Run(tr[..n]), tr[n], g);
    }
  }

  lemma RepeatsSnoc(tr: seq<Step>, g: Group)
    requires tr != []
    ensures Repeats(tr, g) <==> Repeats(tr[..|tr| - 1], g) || PassesAgain(tr, |tr| - 1, g)
  {
    var n := |tr| - 1;
    var prev := tr[..n];
    SamePrefix(tr, n, g);
    forall i | 0 <= i < n ensures PassesAgain(prev, i, g) <==> PassesAgain(tr, i, g) {
      SameKey(tr, n, i, g);
      assert prev[i] == tr[i];
    }
    if Repeats(prev, g) {
      var i :| 0 <= i < n && PassesAgain(prev, i, g);
      assert PassesAgain(tr, i, g);
    }
    if Repeats(tr, g) {
      var i :| 0 <= i <= n && PassesAgain(tr, i, g);
      if i < n { assert PassesAgain(prev, i, g); }
    }
  }

  lemma LastPasses(tr: seq<Step>, g: Group)
    requires tr != []
    ensures var n := |tr| - 1;
      PassesAgain(tr, n, g) <==> Wins(Run(tr[..n]), tr[n], g) && Passed(tr[..n], g) > 0
  {
    var n := |tr| - 1;
    SamePrefix(tr, n, g);
    PassedIfTried(tr[..n], g);
    ExitedIsHeld(tr, n, g);
    if Passed(tr[..n], g) > 0 {
      var j :| 0 <= j < n && TryAt(tr[..n], j, g);
      assert TryAt(tr, j, g);
    }
  }

  lemma {:induction false} OnePassUnlessRepeated(tr: seq<Step>, g: Group)
    ensures Passed(tr, g) <= 1 <==> !Repeats(tr, g)
  {
    if tr != [] {
      OnePassUnlessRepeated(tr[..|tr| - 1], g);
      RepeatsSnoc(tr, g);
      LastPasses(tr, g);
    }
  }

  /** A group has at most one outcome as long as no try but its first passes. */
  lemma AtMostOne(tr: seq<Step>, g: Group)
    requires !Repeats(tr, g)
    ensures Outcomes(Run(tr).table.log, g) <= 1
  {
    OutcomesArePassed(tr, g);
    OnePassUnlessRepeated(tr, g);
  }

  /**
   When every thread of a group has run the program to its end, the group has an outcome;
   and exactly one if and only if every try after its first found the key.
   */
  lemma ExactlyOneAtRest(tr: seq<Step>, g: Group)
    requires g in Run(tr).signals && !Run(tr).signals[g].agent
    requires forall t :: t in Run(tr).threads && Run(tr).threads[t].group == g ==> Run(tr).threads[t].phase == Done
    ensures Outcomes(Run(tr).table.log, g) >= 1
    ensures Outcomes(Run(tr).table.log, g) == 1 <==> !Repeats(tr, g)
  {
    var s := Run(tr);
    OutcomesArePassed(tr, g);
    OnePassUnlessRepeated(tr, g);
    assert Alive(s, g) == {} && Hopefuls(s, g) == {} && Winners(s, g) == {};
  }

  /**
   No outcome before every thread of the group has left, none ever for the agent's own
   group; whatever EXITED evicts or refuses.
   */
  lemma OnlyAfterAllLeft(tr: seq<Step>, g: Group)
    requires Outcomes(Run(tr).table.log, g) > 0
    ensures g in Run(tr).signals && !Run(tr).signals[g].agent && Run(tr).signals[g].live == 0
    ensures forall t :: t in Run(tr).threads && Run(tr).threads[t].group == g ==> Run(tr).threads[t].phase != Running
  {
    RunKeepsInv(tr);
    var s := Run(tr);
    assert g in s.signals && LiveOk(s, g);
    assert forall t :: t in s.threads && s.threads[t].group == g && s.threads[t].phase == Running ==> t in Alive(s, g);
  }

  /** Two threads of one group, both past the read of zero. */
  function BothSaw(g: Group): seq<Step> {
    [Start(0, g, false)] + [Spawn(0, 1)] + [Leave(0, 0)] + [Leave(1, 0)] + [Check(0)] + [Check(1)]
  }

  function Twice(g: Group): seq<Step> {
    BothSaw(g) + [Claim(0, false)] + [Evict(g)] + [Claim(1, false)] + [Report(0, true)] + [Report(1, true)]
  }

  lemma {:induction false} RunSnoc(tr: seq<Step>, e: Step)
    ensures Run(tr + [e]) == Next(Run(tr), e)
  {
    assert (tr + [e])[..|tr|] == tr;
  }

  lemma BothLeftRun(g: Group)
    ensures Run([Start(0, g, false)] + [Spawn(0, 1)] + [Leave(0, 0)] + [Leave(1, 0)]) ==
      State(map[0 := Thread(g, Left, 0), 1 := Thread(g, Left, 0)], map[g := Signal(0, None, false)], Table({}, []))
  {
    RunSnoc([], Start(0, g, false));
    assert [] + [Start(0, g, false)] == [Start(0, g, false)];
    RunSnoc([Start(0, g, false)], Spawn(0, 1));
    RunSnoc([Start(0, g, false)] + [Spawn(0, 1)], Leave(0, 0));
    RunSnoc([Start(0, g, false)] + [Spawn(0, 1)] + [Leave(0, 0)], Leave(1, 0));
  }

  lemma BothSawRun(g: Group)
    ensures Run(BothSaw(g)) ==
      State(map[0 := Thread(g, Saw, 0), 1 := Thread(g, Saw, 0)], map[g := Signal(0, None, false)], Table({}, []))
  {
    BothLeftRun(g);
    var tr := [Start(0, g, false)] + [Spawn(0, 1)] + [Leave(0, 0)] + [Leave(1, 0)];
    RunSnoc(tr, Check(0));
    RunSnoc(tr + [Check(0)], Check(1));
  }

  lemma BothWon(g: Group)
    ensures var s := Run(BothSaw(g) + [Claim(0, false)] + [Evict(g)] + [Claim(1, false)]);
      s == State(map[0 := Thread(g, Won, 0), 1 := Thread(g, Won, 0)], map[g := Signal(0, None, false)], Table({g}, []))
  {
    BothSawRun(g);
    var tr := BothSaw(g);
    RunSnoc(tr, Claim(0, false));
    RunSnoc(tr + [Claim(0, false)], Evict(g));
    RunSnoc(tr + [Claim(0, false)] + [Evict(g)], Claim(1, false));
  }

  /** For instance: an eviction between two claims gives one group two records. */
  lemma EvictionRepeats(g: Group)
    ensures Outcomes(Run(Twice(g)).table.log, g) == 2
  {
    BothWon(g);
    var tr := BothSaw(g) + [Claim(0, false)] + [Evict(g)] + [Claim(1, false)];
    RunSnoc(tr, Report(0, true));
    RunSnoc(tr + [Report(0, true)], Report(1, true));
    assert Run(Twice(g)).table.log == [Record(g, 0)] + [Record(g, 0)];
    OutcomesSnoc([Record(g, 0)], Record(g, 0), g);
  }

  // ---- the program in one piece

  /** `handle_exit` when nothing else happens in between. */
  function OnExit(t: Table, g: Group, sig: Signal, code: int, fails: bool, reserved: bool): Table {
    if sig.agent || sig.live != 0 || (!fails && g in t.exited) then t
    else Table(if fails then t.exited else t.exited + {g},
               t.log + [if reserved then Record(g, Status(sig, code)) else Drop(g)])
  }

  lemma UninterruptedExit(s: State, t: Tid, fails: bool, reserved: bool)
    requires Enabled(s, Check(t))
    ensures var x := s.threads[t];
      Next(Next(Next(s, Check(t)), Claim(t, fails)), Report(t, reserved)).table
      == OnExit(s.table, x.group, s.signals[x.group], x.code, fails, reserved)
  {
  }
}

/** The exit tracepoint. */
module ExitOnce {
  import opened Options
  import opened ExitSpec

  class ExitTracer {
    var exited: set<Group>
    var log: seq<Outcome>

    ghost function Contents(): Table
      reads this
    {
      Table(exited, log)
    }

    constructor ()
      ensures Contents() == Init.table
    {
      exited, log := {}, [];
    }

    method HandleExit(g: Group, sig: Option<Signal>, code: int, fails: bool, reserved: bool)
      modifies this
      ensures Contents() ==
        if sig.Some? then OnExit(old(Contents()), g, sig.value, code, fails, reserved) else old(Contents())
      ensures sig.None? || sig.value.agent || sig.value.live != 0 || (!fails && g in old(exited)) ==>
        Contents() == old(Contents())
      ensures sig.Some? && !sig.value.agent && sig.value.live == 0 && (fails || g !in old(exited)) ==>
        && exited == (if fails then old(exited) else old(exited) + {g})
        && log == old(log) + [if !reserved then Drop(g)
                              else Record(g, if sig.value.groupExit.Some? then sig.value.groupExit.value else code)]
    {
      if sig.None? || sig.value.agent { return; }
      if sig.value.live != 0 { return; }
      if !fails {
        if g in exited { return; }
        exited := exited + {g};
      }
      var status := if sig.value.groupExit.Some? then sig.value.groupExit.value else code;
      log := log + [if reserved then Record(g, status) else Drop(g)];
    }
  }
}
