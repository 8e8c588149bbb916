/**
 The command gate: nine admission permits, one run permit, and the policy commands that
 pass through it.  A command persists its policy and then applies it, in two steps, and
 commands, timeouts, cancellations and panics interleave freely.
 */
module GateSpec {
  import opened Options
  import opened PolicySpec

  const MAX_WAITING := 8

  type Id = nat

  datatype Stage =
    | Waiting
    /** Holds both permits; nothing persisted yet. */
    | Todo
    /** The overlay is on disk, the sensors are not switched. */
    | Saved
    | Applied
    /** Both permits given back, or never held. */
    | Over

  datatype Answer = Pending | Busy | TimedOut | Panicked | Result

  datatype Command = Command(policy: Policy, stage: Stage, answer: Answer)

  datatype State = State(commands: map<Id, Command>, admission: int, running: int, overlay: Policy, live: Policy)

  /** The source gives the gate one run permit; `permits` shows what that is for. */
  function Init(p: Policy, permits: nat): State { State(map[], 1 + MAX_WAITING, permits, p, p) }

  datatype Step =
    | Arrive(id: Id, policy: Policy)
    /** The caller goes away while its command waits. */
    | Cancel(id: Id)
    | Begin(id: Id)
    | Save(id: Id)
    | Apply(id: Id)
    | TimeOut(id: Id)
    | Finish(id: Id)
    /** `cut` says how far its apply had come, if that is where it panics. */
    | Panic(id: Id, cut: Cut)

  predicate Runs(g: Stage) { g.Todo? || g.Saved? || g.Applied? }

  predicate At(s: State, id: Id, g: Stage) { id in s.commands && s.commands[id].stage == g }

  predicate Enabled(s: State, e: Step) {
    match e
    case Arrive(id, _) => id !in s.commands
    case Cancel(id) => At(s, id, Waiting)
    case Begin(id) => At(s, id, Waiting) && s.running > 0
    case Save(id) => At(s, id, Todo)
    case Apply(id) => At(s, id, Saved)
    case TimeOut(id) => id in s.commands && Runs(s.commands[id].stage) && s.commands[id].answer.Pending?
    case Finish(id) => At(s, id, Todo) || At(s, id, Applied)
    case Panic(id, cut) => id in s.commands && Runs(s.commands[id].stage) && cut.Valid()
  }

  function Moved(s: State, id: Id, g: Stage): State
    requires id in s.commands
  {
    s.(commands := s.commands[id := s.commands[id].(stage := g)])
  }

  /** An answer given once stays. */
  function Ended(s: State, id: Id, a: Answer): State
    requires id in s.commands
  {
    var c := s.commands[id];
    s.(commands := s.commands[id := c.(stage := Over, answer := if c.answer.Pending? then a else c.answer)],
       admission := s.admission + 1, running := s.running + 1)
  }

  function Do(s: State, e: Step): State
    requires Enabled(s, e)
  {
    match e
    case Arrive(id, p) =>
      if s.admission == 0 then s.(commands := s.commands[id := Command(p, Over, Busy)])
      else s.(commands := s.commands[id := Command(p, Waiting, Pending)], admission := s.admission - 1)
    case Cancel(id) => Moved(s, id, Over).(admission := s.admission + 1)
    case Begin(id) => Moved(s, id, Todo).(running := s.running - 1)
    case Save(id) => Moved(s, id, Saved).(overlay := s.commands[id].policy)
    case Apply(id) => Moved(s, id, Applied).(live := s.commands[id].policy)
    case TimeOut(id) => s.(commands := s.commands[id := s.commands[id].(answer := TimedOut)])
    case Finish(id) => Ended(s, id, Result)
    case Panic(id, _) => Ended(s, id, Panicked)
  }

  /** A command taken up, begun and saved. */
  function Submitted(s: State, id: Id, p: Policy): State
    requires id !in s.commands && s.admission > 0 && s.running > 0
  {
    Do(Do(Do(s, Arrive(id, p)), Begin(id)), Save(id))
  }

  /** A command that panics in its apply, and one that completes. */
  function Struck(s: State, id: Id, p: Policy): State {
    s.(commands := s.commands[id := Command(p, Over, Panicked)], overlay := p)
  }

  function Served(s: State, id: Id, p: Policy): State {
    s.(commands := s.commands[id := Command(p, Over, Result)], overlay := p, live := p)
  }

  lemma SubmittedThen(s: State, id: Id, p: Policy, cut: Cut)
    requires id !in s.commands && s.admission > 0 && s.running > 0 && cut.Valid()
    ensures var s2 := Submitted(s, id, p);
      && At(s2, id, Saved) && s2.commands[id].policy == p && Do(s2, Panic(id, cut)) == Struck(s, id, p)
      && At(Do(s2, Apply(id)), id, Applied) && Do(Do(s2, Apply(id)), Finish(id)) == Served(s, id, p)
  {
    var s2 := Submitted(s, id, p);
    assert s2.commands == s.commands[id := Command(p, Saved, Pending)];
    assert Do(s2, Panic(id, cut)).commands == s.commands[id := Command(p, Over, Panicked)];
    assert Do(s2, Apply(id)).commands == s.commands[id := Command(p, Applied, Pending)];
    assert Do(Do(s2, Apply(id)), Finish(id)).commands == s.commands[id := Command(p, Over, Result)];
  }

  function Next(s: State, e: Step): State { if Enabled(s, e) then Do(s, e) else s }

  function Run(p: Policy, permits: nat, tr: seq<Step>): State {
    if tr == [] then Init(p, permits) else Next(Run(p, permits, tr[..|tr| - 1]), tr[|tr| - 1])
  }

  lemma RunSnoc(p: Policy, permits: nat, tr: seq<Step>, e: Step)
    ensures Run(p, permits, tr + [e]) == Next(Run(p, permits, tr), e)
  {
    assert (tr + [e])[..|tr|] == tr;
  }

  function Executing(s: State): set<Id> { set id | id in s.commands && Runs(s.commands[id].stage) }

  /** Admitted and not finished. */
  function Admitted(s: State): set<Id> { set id | id in s.commands && !s.commands[id].stage.Over? }

  ghost predicate Conserved(s: State, permits: nat) {
    s.admission + |Admitted(s)| == 1 + MAX_WAITING && s.running + |Executing(s)| == permits
  }

  ghost predicate InBounds(s: State) { s.admission >= 0 && s.running >= 0 }

  lemma SetsAfter(s: State, e: Step)
    requires Enabled(s, e)
    ensures Admitted(Do(s, e)) ==
      (match e
       case Arrive(id, _) => Admitted(s) + if s.admission == 0 then {} else {id}
       case Cancel(id) => Admitted(s) - {id}
       case Finish(id) => Admitted(s) - {id}
       case Panic(id, _) => Admitted(s) - {id}
       case _ => Admitted(s))
    ensures Executing(Do(s, e)) ==
      (match e
       case Begin(id) => Executing(s) + {id}
       case Finish(id) => Executing(s) - {id}
       case Panic(id, _) => Executing(s) - {id}
       case _ => Executing(s))
  {
  }

  lemma AdmissionConserved(s: State, e: Step, permits: nat)
    requires Conserved(s, permits) && InBounds(s) && Enabled(s, e)
    ensures Do(s, e).admission + |Admitted(Do(s, e))| == 1 + MAX_WAITING && Do(s, e).admission >= 0
  {
    SetsAfter(s, e);
    if e.Arrive? { assert e.id !in Admitted(s); }
    if e.Cancel? || e.Finish? || e.Panic? { assert e.id in Admitted(s); }
  }

  lemma RunningConserved(s: State, e: Step, permits: nat)
    requires Conserved(s, permits) && InBounds(s) && Enabled(s, e)
    ensures Do(s, e).running + |Executing(Do(s, e))| == permits && Do(s, e).running >= 0
  {
    SetsAfter(s, e);
    if e.Begin? { assert e.id !in Executing(s); }
    if e.Finish? || e.Panic? { assert e.id in Executing(s); }
  }

  /** In every run the permits are conserved; so at most one command executes and at most nine are admitted. */
  lemma {:induction false} PermitsConserved(p: Policy, permits: nat, tr: seq<Step>)
    ensures Conserved(Run(p, permits, tr), permits) && InBounds(Run(p, permits, tr))
    ensures |Executing(Run(p, permits, tr))| <= permits && |Admitted(Run(p, permits, tr))| <= 9
  {
    if tr == [] {
      assert Admitted(Init(p, permits)) == {} && Executing(Init(p, permits)) == {};
    } else {
      var s, e := Run(p, permits, tr[..|tr| - 1]), tr[|tr| - 1];
      PermitsConserved(p, permits, tr[..|tr| - 1]);
      if Enabled(s, e) {
        AdmissionConserved(s, e, permits);
        RunningConserved(s, e, permits);
      }
    }
  }

  /** A command is refused as busy exactly when nine admitted ones are unfinished. */
  lemma BusyIffFull(p: Policy, tr: seq<Step>, id: Id, q: Policy)
    requires id !in Run(p, 1, tr).commands
    ensures var s := Run(p, 1, tr);
      var c := Next(s, Arrive(id, q)).commands[id];
      (c.answer.Busy? <==> |Admitted(s)| == 9) && (c.answer.Busy? <==> c.stage.Over?)
  {
    PermitsConserved(p, 1, tr);
  }

  // ---- a command keeps its permits until its task ends

  predicate EndsTask(s: State, e: Step, id: Id) {
    (e.Finish? || e.Panic?) && e.id == id && Enabled(s, e)
  }

  /** Some step of `more` ends the task of `id`. */
  ghost predicate TaskEnds(p: Policy, tr: seq<Step>, more: seq<Step>, id: Id) {
    exists i :: 0 <= i < |more| && EndsTask(Run(p, 1, tr + more[..i]), more[i], id)
  }

  lemma TaskEndsSnoc(p: Policy, tr: seq<Step>, more: seq<Step>, id: Id)
    requires more != []
    ensures var n := |more| - 1;
      TaskEnds(p, tr, more, id)
      <==> TaskEnds(p, tr, more[..n], id) || EndsTask(Run(p, 1, tr + more[..n]), more[n], id)
  {
    var n := |more| - 1;
    var prev := more[..n];
    assert forall i :: 0 <= i < n ==> prev[..i] == more[..i];
    if TaskEnds(p, tr, prev, id) {
      var i :| 0 <= i < n && EndsTask(Run(p, 1, tr + prev[..i]), prev[i], id);
      assert EndsTask(Run(p, 1, tr + more[..i]), more[i], id);
    }
    if TaskEnds(p, tr, more, id) {
      var i :| 0 <= i <= n && EndsTask(Run(p, 1, tr + more[..i]), more[i], id);
      if i < n { assert EndsTask(Run(p, 1, tr + prev[..i]), prev[i], id); }
    }
  }

  lemma StaysOver(s: State, e: Step, id: Id)
    requires At(s, id, Over)
    ensures At(Next(s, e), id, Over) && Next(s, e).commands[id].answer == s.commands[id].answer
  {
  }

  lemma ExecutingStep(s: State, e: Step, id: Id)
    requires id in Executing(s)
    ensures id in Executing(Next(s, e)) <==> !EndsTask(s, e, id)
    ensures EndsTask(s, e, id) ==> At(Next(s, e), id, Over)
    ensures !s.commands[id].answer.Pending? ==> Next(s, e).commands[id].answer == s.commands[id].answer
  {
    if Enabled(s, e) { SetsAfter(s, e); }
  }

  /** A command that executes does so until its own task ends, and only then; an answer given stays. */
  lemma {:induction false} ExecutesUntilEnd(p: Policy, tr: seq<Step>, more: seq<Step>, id: Id)
    requires id in Executing(Run(p, 1, tr))
    ensures var s := Run(p, 1, tr + more);
      && id in s.commands && (id in Executing(s) <==> !TaskEnds(p, tr, more, id))
      && (id !in Executing(s) ==> At(s, id, Over))
      && (!Run(p, 1, tr).commands[id].answer.Pending? ==> s.commands[id].answer == Run(p, 1, tr).commands[id].answer)
  {
    if more == [] {
      assert tr + more == tr;
    } else {
      var n := |more| - 1;
      var s := Run(p, 1, tr + more[..n]);
      ExecutesUntilEnd(p, tr, more[..n], id);
      TaskEndsSnoc(p, tr, more, id);
      assert tr + more == tr + more[..n] + [more[n]];
      RunSnoc(p, 1, tr + more[..n], more[n]);
      if id in Executing(s) { ExecutingStep(s, more[n], id); } else { StaysOver(s, more[n], id); }
    }
  }

  /**
   A timeout answer frees nothing: until its task ends the command keeps the run permit, so no
   other begins, and its place among the nine, so an arrival is refused when eight others wait.
   */
  lemma TimeoutFreesNothing(p: Policy, tr: seq<Step>, more: seq<Step>, id: Id, other: Id, q: Policy)
    requires id in Executing(Run(p, 1, tr)) && Run(p, 1, tr).commands[id].answer == TimedOut
    requires !TaskEnds(p, tr, more, id) && other !in Run(p, 1, tr + more).commands
    ensures var s := Run(p, 1, tr + more);
      && id in s.commands && s.commands[id].answer == TimedOut && Executing(s) == {id} && id in Admitted(s)
      && (forall o :: !Enabled(s, Begin(o)))
      && (Next(s, Arrive(other, q)).commands[other].answer.Busy? <==> |Admitted(s) - {id}| == MAX_WAITING)
  {
    var s := Run(p, 1, tr + more);
    ExecutesUntilEnd(p, tr, more, id);
    PermitsConserved(p, 1, tr + more);
    AloneWhenOne(s);
    BusyIffFull(p, tr + more, other, q);
    assert Executing(s) - {id} == {};
  }

  /** The step gives `id` an answer: what became of its task, or that it takes too long. */
  predicate AnswersAt(p: Policy, tr: seq<Step>, i: nat, id: Id, a: Answer)
    requires i < |tr|
  {
    && Enabled(Run(p, 1, tr[..i]), tr[i]) && !tr[i].Arrive? && tr[i].id == id
    && match a
       case TimedOut => tr[i].TimeOut?
       case Panicked => tr[i].Panic?
       case Result => tr[i].Finish?
       case _ => false
  }

  ghost predicate AnsweredBefore(p: Policy, tr: seq<Step>, i: nat, id: Id)
    requires i <= |tr|
  {
    exists k, a :: 0 <= k < i && AnswersAt(p, tr, k, id, a)
  }

  /** An answer tells the truth: it is that of the first step that had one to give. */
  lemma {:induction false} AnswersTell(p: Policy, tr: seq<Step>, id: Id)
    requires id in Run(p, 1, tr).commands && Run(p, 1, tr).commands[id].answer !in {Pending, Busy}
    ensures exists i :: 0 <= i < |tr| && AnswersAt(p, tr, i, id, Run(p, 1, tr).commands[id].answer)
                        && !AnsweredBefore(p, tr, i, id)
  {
    var n := |tr| - 1;
    var prev, e := tr[..n], tr[n];
    var s, a := Run(p, 1, prev), Run(p, 1, tr).commands[id].answer;
    if id in s.commands && s.commands[id].answer == a {
      AnswersTell(p, prev, id);
      var i :| 0 <= i < n && AnswersAt(p, prev, i, id, a) && !AnsweredBefore(p, prev, i, id);
      EarlierAnswers(p, tr, id, i);
      assert AnswersAt(p, tr, i, id, a);
    } else {
      assert AnswersAt(p, tr, n, id, a);
      PendingUntil(p, prev, id);
      EarlierAnswers(p, tr, id, n);
    }
  }

  lemma EarlierAnswers(p: Policy, tr: seq<Step>, id: Id, i: nat)
    requires tr != [] && i <= |tr| - 1
    ensures var prev := tr[..|tr| - 1];
      && (forall k, a :: 0 <= k < |prev| ==> AnswersAt(p, prev, k, id, a) == AnswersAt(p, tr, k, id, a))
      && (AnsweredBefore(p, tr, i, id) ==> AnsweredBefore(p, prev, i, id))
  {
    var prev := tr[..|tr| - 1];
    forall k, a | 0 <= k < |prev| ensures AnswersAt(p, prev, k, id, a) == AnswersAt(p, tr, k, id, a) {
      assert prev[..k] == tr[..k] && prev[k] == tr[k];
    }
    if AnsweredBefore(p, tr, i, id) {
      var k, a :| 0 <= k < i && AnswersAt(p, tr, k, id, a);
      assert AnswersAt(p, prev, k, id, a);
    }
  }

  lemma {:induction false} BusyIsOver(p: Policy, tr: seq<Step>, id: Id)
    requires id in Run(p, 1, tr).commands && Run(p, 1, tr).commands[id].answer == Busy
    ensures Run(p, 1, tr).commands[id].stage == Over
  {
    var s := Run(p, 1, tr[..|tr| - 1]);
    if id in s.commands && s.commands[id].answer == Busy { BusyIsOver(p, tr[..|tr| - 1], id); }
  }

  /** No answer was given to a command that is not there, is pending, or was busy. */
  lemma {:induction false} PendingUntil(p: Policy, tr: seq<Step>, id: Id)
    requires id in Run(p, 1, tr).commands ==> Run(p, 1, tr).commands[id].answer in {Pending, Busy}
    ensures !AnsweredBefore(p, tr, |tr|, id)
  {
    if tr != [] {
      var n := |tr| - 1;
      PendingUntil(p, tr[..n], id);
      var s := Run(p, 1, tr[..n]);
      if id in s.commands && s.commands[id].answer == Busy { BusyIsOver(p, tr[..n], id); }
      EarlierAnswers(p, tr, id, n);
      assert forall a :: !AnswersAt(p, tr, n, id, a);
    }
  }

  // ---- what is persisted is what is live

  /** The policy of the last save, if a panic struck between it and its apply. */
  function Torn(p: Policy, tr: seq<Step>): Option<Policy> {
    if tr == [] then None
    else
      var prev, e := tr[..|tr| - 1], tr[|tr| - 1];
      var s := Run(p, 1, prev);
      if e.Save? && Enabled(s, e) then None
      else if e.Panic? && Enabled(s, e) && At(s, e.id, Saved) then Some(s.commands[e.id].policy)
      else Torn(p, prev)
  }

  lemma TornSnoc(p: Policy, tr: seq<Step>, e: Step)
    ensures var s := Run(p, 1, tr);
      e.Save? && Enabled(s, e) ==> Torn(p, tr + [e]).None?
    ensures !e.Save? && !e.Panic? ==> Torn(p, tr + [e]) == Torn(p, tr)
  {
    assert (tr + [e])[..|tr|] == tr;
  }

  /** A panic has struck an apply and none has completed since. */
  predicate Broken(p: Policy, tr: seq<Step>) {
    if tr == [] then false
    else
      var prev, e := tr[..|tr| - 1], tr[|tr| - 1];
      var s := Run(p, 1, prev);
      if e.Apply? && Enabled(s, e) then false
      else (e.Panic? && Enabled(s, e) && At(s, e.id, Saved)) || Broken(p, prev)
  }

  ghost predicate SomeSaved(s: State) { exists id :: At(s, id, Saved) }

  ghost predicate Agrees(s: State, torn: Option<Policy>, broken: bool) {
    && (forall id, other :: id in Executing(s) && other in Executing(s) ==> id == other)
    && (forall id :: At(s, id, Saved) ==> s.commands[id].policy == s.overlay)
    && (torn.Some? ==> s.overlay == torn.value && !SomeSaved(s))
    && (torn.None? && s.overlay != s.live ==> SomeSaved(s))
    && (torn.None? && broken ==> SomeSaved(s))
  }

  lemma AloneWhenOne(s: State)
    requires |Executing(s)| <= 1
    ensures forall id, other :: id in Executing(s) && other in Executing(s) ==> id == other
  {
    forall id, other | id in Executing(s) && other in Executing(s) ensures id == other {
      if id != other {
        assert {id, other} <= Executing(s);
        Smaller({id, other}, Executing(s));
      }
    }
  }

  lemma {:induction false} Smaller(a: set<Id>, b: set<Id>)
    requires a <= b
    ensures |a| <= |b|
  {
    if a != {} {
      var x :| x in a;
      Smaller(a - {x}, b - {x});
    }
  }

  lemma SavedAfter(s: State, e: Step)
    requires Enabled(s, e) && (forall id, other :: id in Executing(s) && other in Executing(s) ==> id == other)
    ensures e.Save? ==> SomeSaved(Do(s, e))
    ensures e.Apply? || (e.Panic? && At(s, e.id, Saved)) ==> !SomeSaved(Do(s, e))
    ensures !e.Save? && !e.Apply? && !(e.Panic? && At(s, e.id, Saved)) ==> (SomeSaved(Do(s, e)) <==> SomeSaved(s))
    ensures e.Save? ==> !SomeSaved(s)
  {
    var s2 := Do(s, e);
    if e.Save? || e.Apply? || (e.Panic? && At(s, e.id, Saved)) { assert e.id in Executing(s); }
    if e.Save? { assert At(s2, e.id, Saved); }
    forall id | At(s, id, Saved) ensures id in Executing(s) && (id != e.id ==> At(s2, id, Saved)) { }
    forall id | At(s2, id, Saved) ensures id == e.id || (At(s, id, Saved) && id in Executing(s)) { }
  }

  lemma AgreesStep(s: State, e: Step, torn: Option<Policy>, broken: bool, torn': Option<Policy>, broken': bool)
    requires Agrees(s, torn, broken) && Enabled(s, e)
    requires torn' == if e.Save? then None
                      else if e.Panic? && At(s, e.id, Saved) then Some(s.commands[e.id].policy) else torn
    requires broken' == if e.Apply? then false else (e.Panic? && At(s, e.id, Saved)) || broken
    ensures var s2 := Do(s, e);
      && (forall id :: At(s2, id, Saved) ==> s2.commands[id].policy == s2.overlay)
      && (torn'.Some? ==> s2.overlay == torn'.value && !SomeSaved(s2))
      && (torn'.None? && s2.overlay != s2.live ==> SomeSaved(s2))
      && (torn'.None? && broken' ==> SomeSaved(s2))
  {
    var s2 := Do(s, e);
    SavedAfter(s, e);
    if e.Apply? { assert SomeSaved(s); }
    forall id | At(s2, id, Saved) ensures s2.commands[id].policy == s2.overlay {
      assert id != e.id ==> At(s, id, Saved) && SomeSaved(s);
    }
  }

  lemma {:induction false} OverlayAgrees(p: Policy, tr: seq<Step>)
    ensures Agrees(Run(p, 1, tr), Torn(p, tr), Broken(p, tr))
  {
    PermitsConserved(p, 1, tr);
    AloneWhenOne(Run(p, 1, tr));
    if tr != [] {
      var prev, e := tr[..|tr| - 1], tr[|tr| - 1];
      OverlayAgrees(p, prev);
      if Enabled(Run(p, 1, prev), e) {
        AgreesStep(Run(p, 1, prev), e, Torn(p, prev), Broken(p, prev), Torn(p, tr), Broken(p, tr));
      }
    }
  }

  /**
   Whenever no command executes, the overlay on disk differs from the live policy exactly if the
   last save was torn from its apply by a panic and its policy is not the live one; while a
   command executes, the overlay is the live policy, the torn one, or the one being applied.
   */
  lemma PersistedIsLive(p: Policy, tr: seq<Step>)
    ensures var s, torn := Run(p, 1, tr), Torn(p, tr);
      && (Executing(s) == {} ==> (s.overlay != s.live <==> torn.Some? && torn.value != s.live))
      && (torn.Some? ==> s.overlay == torn.value)
      && (s.overlay == s.live || torn.Some? || exists id :: id in Executing(s) && s.commands[id].policy == s.overlay)
  {
    OverlayAgrees(p, tr);
    var s := Run(p, 1, tr);
    if SomeSaved(s) {
      var id :| At(s, id, Saved);
      assert id in Executing(s);
    }
  }

  /** With nothing executing and nothing torn, no apply is left broken either. */
  lemma IdleIsWhole(p: Policy, tr: seq<Step>)
    requires Executing(Run(p, 1, tr)) == {} && Torn(p, tr).None?
    ensures !Broken(p, tr) && Run(p, 1, tr).overlay == Run(p, 1, tr).live
  {
    OverlayAgrees(p, tr);
    var s := Run(p, 1, tr);
    assert forall id :: At(s, id, Saved) ==> id in Executing(s);
  }

  /** For instance: a panic there does leave them apart, with nothing executing. */
  lemma PanicCanDisagree(p: Policy, q: Policy, cut: Cut)
    requires cut.Valid()
    ensures var s := Run(p, 1, [Arrive(0, q)] + [Begin(0)] + [Save(0)] + [Panic(0, cut)]);
      s.overlay == q && s.live == p && Executing(s) == {}
  {
    assert [] + [Arrive(0, q)] == [Arrive(0, q)];
    RunSnoc(p, 1, [], Arrive(0, q));
    RunSnoc(p, 1, [Arrive(0, q)], Begin(0));
    RunSnoc(p, 1, [Arrive(0, q)] + [Begin(0)], Save(0));
    RunSnoc(p, 1, [Arrive(0, q)] + [Begin(0)] + [Save(0)], Panic(0, cut));
  }

  /** An idle gate has all its permits, and is idle again after the two. */
  lemma IdleAgain(p: Policy, tr: seq<Step>, i: Id, q: Policy, j: Id, r: Policy)
    requires Admitted(Run(p, 1, tr)) == {} && i !in Run(p, 1, tr).commands
    ensures var s := Run(p, 1, tr);
      && s.admission > 0 && s.running > 0 && Struck(s, i, q).admission > 0 && Struck(s, i, q).running > 0
      && Admitted(Served(Struck(s, i, q), j, r)) == {} && Executing(Served(Struck(s, i, q), j, r)) == {}
  {
    PermitsConserved(p, 1, tr);
    var s := Run(p, 1, tr);
    assert Executing(s) <= Admitted(s);
    var s2 := Served(Struck(s, i, q), j, r);
    forall id | id in s2.commands ensures s2.commands[id].stage.Over? { assert id !in Admitted(s); }
  }

  // ---- what becomes of one sensor

  /** How a step switches sensor `n`. */
  function TogglesOf(s: State, e: Step, n: Sensor): seq<Toggle> {
    if !Enabled(s, e) then []
    else if e.Apply? then [Toggle(s.commands[e.id].policy.On(n), true)]
    else if e.Panic? && At(s, e.id, Saved) then e.cut.Reached(s.commands[e.id].policy, n)
    else []
  }

  /** All toggles of `n` in a run. */
  function Toggles(p: Policy, tr: seq<Step>, n: Sensor): seq<Toggle> {
    if tr == [] then []
    else
      var prev := tr[..|tr| - 1];
      Toggles(p, prev, n) + TogglesOf(Run(p, 1, prev), tr[|tr| - 1], n)
  }

  function StandsAfter(p: Policy, tr: seq<Step>, n: Sensor, startable: bool): Mode {
    ModeAfter(Wanted(p.On(n)), Toggles(p, tr, n), startable)
  }

  lemma StandsSnoc(p: Policy, tr: seq<Step>, e: Step, n: Sensor, startable: bool)
    ensures StandsAfter(p, tr + [e], n, startable)
            == ModeAfter(StandsAfter(p, tr, n, startable), TogglesOf(Run(p, 1, tr), e, n), startable)
  {
    assert (tr + [e])[..|tr|] == tr;
    ModeAfterBoth(Wanted(p.On(n)), Toggles(p, tr, n), TogglesOf(Run(p, 1, tr), e, n), startable);
  }

  /** Unless an apply is broken off, a sensor stands as the live policy wants it, or it is lost and should run. */
  lemma {:induction false} WantedUnlessLost(p: Policy, tr: seq<Step>, n: Sensor, startable: bool)
    requires !Broken(p, tr)
    ensures var m, on := StandsAfter(p, tr, n, startable), Run(p, 1, tr).live.On(n);
      m == Wanted(on) || (m.Lost? && on)
  {
    if tr != [] {
      var prev, e := tr[..|tr| - 1], tr[|tr| - 1];
      assert tr == prev + [e];
      StandsSnoc(p, prev, e, n, startable);
      if e.Apply? && Enabled(Run(p, 1, prev), e) {
        OneToggle(StandsAfter(p, prev, n, startable), Toggle(Run(p, 1, tr).live.On(n), true), startable);
      } else {
        WantedUnlessLost(p, prev, n, startable);
      }
    }
  }

  // ---- why there is one run permit: saving happens outside the lock that applying takes

  function BothBegun(q: Policy, r: Policy): seq<Step> {
    [Arrive(0, q)] + [Arrive(1, r)] + [Begin(0)] + [Begin(1)]
  }

  lemma BothBegunRun(p: Policy, q: Policy, r: Policy)
    ensures Run(p, 2, BothBegun(q, r)) ==
      State(map[0 := Command(q, Todo, Pending), 1 := Command(r, Todo, Pending)], MAX_WAITING - 1, 0, p, p)
  {
    assert [] + [Arrive(0, q)] == [Arrive(0, q)];
    RunSnoc(p, 2, [], Arrive(0, q));
    RunSnoc(p, 2, [Arrive(0, q)], Arrive(1, r));
    RunSnoc(p, 2, [Arrive(0, q)] + [Arrive(1, r)], Begin(0));
    RunSnoc(p, 2, [Arrive(0, q)] + [Arrive(1, r)] + [Begin(0)], Begin(1));
  }

  lemma BothSavedRun(p: Policy, q: Policy, r: Policy)
    ensures Run(p, 2, BothBegun(q, r) + [Save(0)] + [Save(1)]) ==
      State(map[0 := Command(q, Saved, Pending), 1 := Command(r, Saved, Pending)], MAX_WAITING - 1, 0, r, p)
  {
    BothBegunRun(p, q, r);
    var tr := BothBegun(q, r);
    RunSnoc(p, 2, tr, Save(0));
    RunSnoc(p, 2, tr + [Save(0)], Save(1));
  }

  lemma BothAppliedRun(p: Policy, q: Policy, r: Policy)
    ensures Run(p, 2, BothBegun(q, r) + [Save(0)] + [Save(1)] + [Apply(1)] + [Apply(0)]) ==
      State(map[0 := Command(q, Applied, Pending), 1 := Command(r, Applied, Pending)], MAX_WAITING - 1, 0, r, q)
  {
    BothSavedRun(p, q, r);
    var tr := BothBegun(q, r) + [Save(0)] + [Save(1)];
    RunSnoc(p, 2, tr, Apply(1));
    RunSnoc(p, 2, tr + [Apply(1)], Apply(0));
  }

  /** With two permits, two commands can leave one policy on disk and the other one live, for good. */
  lemma TwoPermitsCanDisagree(p: Policy, q: Policy, r: Policy)
    ensures var tr := BothBegun(q, r) + [Save(0)] + [Save(1)] + [Apply(1)] + [Apply(0)] + [Finish(0)] + [Finish(1)];
      var s := Run(p, 2, tr);
      s.overlay == r && s.live == q && Executing(s) == {}
  {
    BothAppliedRun(p, q, r);
    var tr := BothBegun(q, r) + [Save(0)] + [Save(1)] + [Apply(1)] + [Apply(0)];
    RunSnoc(p, 2, tr, Finish(0));
    RunSnoc(p, 2, tr + [Finish(0)], Finish(1));
  }
}

/** The handler over the overlay file and the agent. */
module CommandGate {
  import opened Options
  import opened PolicySpec
  import opened OverlaySpec
  import opened Overlay
  import opened Supervision
  import G = GateSpec

  function Policies(commands: map<G.Id, G.Command>): set<Policy> {
    set id | id in commands :: commands[id].policy
  }

  /** Commands keep their policies, and more may come. */
  lemma PoliciesGrow(c: map<G.Id, G.Command>, c2: map<G.Id, G.Command>)
    requires forall id :: id in c ==> id in c2 && c2[id].policy == c[id].policy
    ensures Policies(c) <= Policies(c2)
  {
    forall q | q in Policies(c) ensures q in Policies(c2) {
      var id :| id in c && c[id].policy == q;
      assert id in c2 && c2[id].policy == q;
    }
  }

  /**
   `AgentCommandHandler` with the executor behind it: its two semaphores, the commands that have
   called it, the overlay file and the agent.  `Persist` and `Switch` are the two halves of the
   blocking task; commands, timeouts and panics call the methods in any order the gate allows.
   */
  class Handler {
    const store: Store
    const agent: Agent
    var commands: map<G.Id, G.Command>
    var admission: int
    var running: int
    /** The policy found at the start, what a crash could bring back then, and the steps since. */
    ghost const start: Policy
    ghost const base: set<Policy>
    ghost var trace: seq<G.Step>

    ghost function State(): G.State
      reads this
    {
      G.Run(start, 1, trace)
    }

    /** The policies that were there at the start or came with a command. */
    ghost function Ever(): set<Policy>
      reads this
    {
      base + Policies(commands)
    }

    /**
     The gate is as its run says, the file holds the policy the gate takes to be persisted, and the
     agent stands as the applies of the run left it.
     */
    ghost predicate Valid()
      reads this, store, agent
    {
      && commands == State().commands && admission == State().admission && running == State().running
      && (forall id :: id in commands ==> commands[id].policy.Valid())
      && store.Valid() && store.SafeSince(0, Ever())
      && AgentStands()
      && Current(store.disk) == State().overlay
      && (!G.Broken(start, trace) ==> agent.KnobsFollow(State().live))
    }

    /** Every sensor stands as the toggles of the run left it. */
    ghost predicate AgentStands()
      reads this, agent
    {
      && agent.Orderly()
      && forall n :: n in agent.cfg.built ==>
           agent.Stands(n) == G.StandsAfter(start, trace, n, agent.cfg.Startable(n))
    }

    constructor (cfg: Config, fsyncNames: bool, disk: Disk, nextIno: Ino)
      requires Sound(disk) && forall i :: i in disk.data ==> i < nextIno
      ensures Valid() && fresh(store) && fresh(agent) && trace == [] && start == Current(disk) && base == Possible(disk)
      ensures store.disk == disk && agent.cfg == cfg && store.fsyncNames == fsyncNames
    {
      var st := new Store(fsyncNames, disk, nextIno);
      var ag := new Agent.Start(cfg, Current(disk));
      ag.FollowsIsOrderly(Current(disk));
      store, agent := st, ag;
      commands, admission, running := map[], 1 + G.MAX_WAITING, 1;
      start, base, trace := Current(disk), Possible(disk), [];
      new;
      assert Ever() == base;
    }

    /** Book-keeping of one step. */
    ghost method Record(e: G.Step)
      requires G.Enabled(State(), e)
      modifies this`trace
      ensures trace == old(trace) + [e] && State() == G.Do(old(State()), e)
      ensures G.Broken(start, trace) ==
        (!e.Apply? && ((e.Panic? && old(G.At(State(), e.id, G.Saved))) || old(G.Broken(start, trace))))
      ensures forall n, st :: G.StandsAfter(start, trace, n, st)
                              == ModeAfter(old(G.StandsAfter(start, trace, n, st)), G.TogglesOf(old(State()), e, n), st)
    {
      G.RunSnoc(start, 1, trace, e);
      forall n, st
        ensures G.StandsAfter(start, trace + [e], n, st)
                == ModeAfter(G.StandsAfter(start, trace, n, st), G.TogglesOf(State(), e, n), st)
      {
        G.StandsSnoc(start, trace, e, n, st);
      }
      assert (trace + [e])[..|trace|] == trace;
      trace := trace + [e];
    }

    /** After a step the commands are those of the run again. */
    lemma StillValid(before: map<G.Id, G.Command>, was: set<Policy>)
      requires commands == State().commands && admission == State().admission && running == State().running
      requires forall id :: id in commands ==> commands[id].policy.Valid()
      requires forall id :: id in before ==> id in commands && commands[id].policy == before[id].policy
      requires was == base + Policies(before)
      requires store.Valid() && store.SafeSince(0, was) && AgentStands() && Current(store.disk) == State().overlay
      requires !G.Broken(start, trace) ==> agent.KnobsFollow(State().live)
      ensures Valid()
    {
      PoliciesGrow(before, commands);
      assert was <= Ever();
    }

    method Arrive(id: G.Id, p: Policy) returns (admitted: bool)
      requires Valid() && id !in commands && p.Valid()
      modifies this
      ensures Valid() && trace == old(trace) + [G.Arrive(id, p)] && State() == G.Do(old(State()), G.Arrive(id, p))
      ensures id in commands && (admitted <==> !commands[id].answer.Busy?)
    {
      Record(G.Arrive(id, p));
      if admission == 0 {
        commands := commands[id := G.Command(p, G.Over, G.Busy)];
        admitted := false;
      } else {
        admission := admission - 1;
        commands := commands[id := G.Command(p, G.Waiting, G.Pending)];
        admitted := true;
      }
      StillValid(old(commands), old(Ever()));
    }

    /** The caller goes away while its command waits. */
    method Cancel(id: G.Id)
      requires Valid() && G.At(State(), id, G.Waiting)
      modifies this
      ensures Valid() && trace == old(trace) + [G.Cancel(id)]
    {
      Record(G.Cancel(id));
      commands := commands[id := commands[id].(stage := G.Over)];
      admission := admission + 1;
      StillValid(old(commands), old(Ever()));
    }

    /** The wait for the run permit is over. */
    method Begin(id: G.Id)
      requires Valid() && G.At(State(), id, G.Waiting) && running > 0
      modifies this
      ensures Valid() && trace == old(trace) + [G.Begin(id)] && State() == G.Do(old(State()), G.Begin(id))
    {
      Record(G.Begin(id));
      running := running - 1;
      commands := commands[id := commands[id].(stage := G.Todo)];
      StillValid(old(commands), old(Ever()));
    }

    /** The caller is told "timed out"; the task goes on. */
    method TimeOut(id: G.Id)
      requires Valid() && G.Enabled(State(), G.TimeOut(id))
      modifies this
      ensures Valid() && trace == old(trace) + [G.TimeOut(id)]
    {
      Record(G.TimeOut(id));
      commands := commands[id := commands[id].(answer := G.TimedOut)];
      StillValid(old(commands), old(Ever()));
    }

    /** The first half of the task: the overlay file.  A save that fails changes nothing. */
    method Persist(id: G.Id, fault: Fault) returns (ok: bool)
      requires Valid() && G.At(State(), id, G.Todo)
      modifies this, store
      ensures Valid() && trace == old(trace) + (if ok then [G.Save(id)] else [])
      ensures State() == if ok then G.Do(old(State()), G.Save(id)) else old(State())
      ensures old(store.seen) <= store.seen && (fault.NoFault? ==> ok)
      ensures store.SafeSince(old(|store.seen|), old(Possible(store.disk)) + {old(commands[id].policy)})
    {
      ok := SaveFor(id, fault);
      if !ok { return; }
      Record(G.Save(id));
      commands := commands[id := commands[id].(stage := G.Saved)];
      StillValid(old(commands), old(Ever()));
    }

    method SaveFor(id: G.Id, fault: Fault) returns (ok: bool)
      requires Valid() && id in commands
      modifies store
      ensures store.Valid() && store.SafeSince(0, Ever()) && old(store.seen) <= store.seen && (fault.NoFault? ==> ok)
      ensures Current(store.disk) == if ok then commands[id].policy else old(Current(store.disk))
      ensures store.SafeSince(old(|store.seen|), old(Possible(store.disk)) + {commands[id].policy})
    {
      ghost var was := store.seen;
      ok := store.Save(commands[id].policy, fault);
      AllSafe(was, commands[id].policy);
    }

    /** What a save can bring back was there before or came with its command. */
    lemma AllSafe(was: seq<Disk>, p: Policy)
      requires was != [] && was <= store.seen
      requires forall k :: 0 <= k < |was| ==> Sound(was[k]) && Possible(was[k]) <= Ever()
      requires store.SafeSince(|was|, Possible(was[|was| - 1]) + {p}) && p in Ever()
      ensures store.SafeSince(0, Ever())
    {
      forall k | 0 <= k < |store.seen| ensures Sound(store.seen[k]) && Possible(store.seen[k]) <= Ever() {
        if k < |was| { assert store.seen[k] == was[k]; }
      }
    }

    /** The second half: the agent. */
    method Switch(id: G.Id)
      requires Valid() && G.At(State(), id, G.Saved)
      modifies this, agent
      ensures Valid() && trace == old(trace) + [G.Apply(id)] && State() == G.Do(old(State()), G.Apply(id))
      ensures agent.Follows(old(commands[id].policy)) <==>
              old(NoneLost(agent.cfg, agent.sensors, agent.skipped, commands[id].policy))
      ensures forall n :: n in agent.cfg.built ==>
        agent.Stands(n)
        == Switched(old(agent.Stands(n)), Toggle(old(commands[id].policy).On(n), true), agent.cfg.Startable(n))
    {
      var p := commands[id].policy;
      agent.ApplyPolicy(p);
      Record(G.Apply(id));
      forall n | n in agent.cfg.built
        ensures agent.Stands(n) == G.StandsAfter(start, trace, n, agent.cfg.Startable(n))
      {
        OneToggle(old(agent.Stands(n)), Toggle(p.On(n), true), agent.cfg.Startable(n));
      }
      commands := commands[id := commands[id].(stage := G.Applied)];
      StillValid(old(commands), old(Ever()));
    }

    /** A command that finds the gate idle comes as far as its apply. */
    method Submit(id: G.Id, p: Policy)
      requires Valid() && id !in State().commands && p.Valid() && State().admission > 0 && State().running > 0
      modifies this, store
      ensures Valid() && G.Torn(start, trace).None?
      ensures State() == G.Submitted(old(State()), id, p)
    {
      var _ := Arrive(id, p);
      Begin(id);
      G.TornSnoc(start, trace, G.Save(id));
      var _ := Persist(id, NoFault);
    }

    /** The blocking task ends and drops both permits it owns. */
    method Finish(id: G.Id)
      requires Valid() && (G.At(State(), id, G.Todo) || G.At(State(), id, G.Applied))
      modifies this
      ensures Valid() && trace == old(trace) + [G.Finish(id)] && State() == G.Do(old(State()), G.Finish(id))
    {
      Record(G.Finish(id));
      Release(id, G.Result);
      StillValid(old(commands), old(Ever()));
    }

    /** It panics before the save or after the apply. */
    method PanicOutside(id: G.Id)
      requires Valid() && id in commands && G.Runs(commands[id].stage) && !commands[id].stage.Saved?
      modifies this
      ensures Valid() && trace == old(trace) + [G.Panic(id, NotBegun)]
    {
      Record(G.Panic(id, NotBegun));
      Release(id, G.Panicked);
      StillValid(old(commands), old(Ever()));
    }

    /** It panics between the save and the end of the apply. */
    method PanicInside(id: G.Id, cut: Cut)
      requires Valid() && G.At(State(), id, G.Saved) && cut.Valid()
      modifies this, agent
      ensures Valid() && trace == old(trace) + [G.Panic(id, cut)] && State() == G.Do(old(State()), G.Panic(id, cut))
      ensures forall n :: n in agent.cfg.built ==>
        agent.Stands(n)
        == ModeAfter(old(agent.Stands(n)), cut.Reached(old(commands[id].policy), n), agent.cfg.Startable(n))
    {
      agent.ApplyUntil(commands[id].policy, cut);
      Record(G.Panic(id, cut));
      Release(id, G.Panicked);
      StillValid(old(commands), old(Ever()));
    }

    method Release(id: G.Id, answer: G.Answer)
      requires id in commands
      modifies this`commands, this`admission, this`running
      ensures var c := old(commands)[id];
        commands == old(commands)[id := c.(stage := G.Over, answer := if c.answer.Pending? then answer else c.answer)]
      ensures admission == old(admission) + 1 && running == old(running) + 1
    {
      var c := commands[id];
      commands := commands[id := c.(stage := G.Over, answer := if c.answer.Pending? then answer else c.answer)];
      admission, running := admission + 1, running + 1;
    }

    /**
     With nothing executing and nothing torn, the agent has the marks and knobs of a fresh start from
     the file on disk; and its sensors, exactly if no panic in the middle of a toggle lost one that
     was not switched off since.
     */
    method CompareWithFresh() returns (other: Agent)
      requires Valid() && G.Executing(State()) == {} && G.Torn(start, trace).None?
      ensures fresh(other) && other.Follows(Current(store.disk)) && agent.KnobsFollow(Current(store.disk))
      ensures forall n :: multiset(agent.skipped)[Skip(n, DisabledByPolicy)]
                          == multiset(other.skipped)[Skip(n, DisabledByPolicy)]
      ensures multiset(agent.sensors) == multiset(other.sensors) <==>
              forall n :: agent.cfg.Startable(n) ==> !LostBy(Wanted(start.On(n)), G.Toggles(start, trace, n))
    {
      G.IdleIsWhole(start, trace);
      var p := Current(store.disk);
      other := new Agent.Start(agent.cfg, p);
      forall n | n in agent.cfg.built
        ensures agent.Stands(n) == Wanted(p.On(n)) || (agent.Stands(n).Lost? && p.On(n))
        ensures agent.Stands(n).Lost? <==>
          agent.cfg.Startable(n) && LostBy(Wanted(start.On(n)), G.Toggles(start, trace, n))
      {
        G.WantedUnlessLost(start, trace, n, agent.cfg.Startable(n));
        LostExactly(Wanted(start.On(n)), G.Toggles(start, trace, n));
        assert OrderlyAt(agent.cfg, agent.sensors, agent.skipped, n);
      }
      SameButLost(agent.cfg, agent.sensors, agent.skipped, other.sensors, other.skipped, p);
    }

    /**
     A crash at any point since the start, inside a save included: the next start follows a policy
     that point could bring back, one of the start's or of a command.
     */
    method Reboot(ghost k: nat, e: Disk) returns (other: Agent)
      requires Valid() && k < |store.seen| && CrashTo(store.seen[k], e)
      ensures fresh(other) && other.Follows(Current(e))
      ensures Current(e) in Possible(store.seen[k]) && Current(e) in Ever()
    {
      CrashOutcomes(store.seen[k], Current(e));
      other := new Agent.Start(agent.cfg, Current(e));
    }
  }

  /** The stop of a running sensor panics while a policy switches it off. */
  method LoseOne(h: Handler, id: G.Id, n: Sensor, off: Policy)
    requires h.Valid() && id !in h.State().commands && h.State().admission > 0 && h.State().running > 0
    requires n != Synthetic && h.agent.cfg.Startable(n) && h.agent.Stands(n).Up? && off.Valid() && !off.On(n)
    modifies h, h.store, h.agent
    ensures h.Valid() && h.agent.Stands(n).Lost?
    ensures h.State() == G.Struck(old(h.State()), id, off)
  {
    var cut := Inside(KnownRank(n));
    StopCut(off, n);
    G.SubmittedThen(h.State(), id, off, cut);
    h.Submit(id, off);
    h.PanicInside(id, cut);
  }

  /** A command that switches it on again completes, in vain. */
  method SwitchOnAgain(h: Handler, id: G.Id, n: Sensor, p: Policy)
    requires h.Valid() && id !in h.State().commands && h.State().admission > 0 && h.State().running > 0
    requires h.agent.cfg.Startable(n) && h.agent.Stands(n).Lost? && p.Valid() && p.On(n)
    modifies h, h.store, h.agent
    ensures h.Valid() && h.agent.Stands(n).Lost? && G.Torn(h.start, h.trace).None?
    ensures h.State() == G.Served(old(h.State()), id, p)
  {
    G.SubmittedThen(h.State(), id, p, NotBegun);
    h.Submit(id, p);
    G.TornSnoc(h.start, h.trace, G.Apply(id));
    h.Switch(id);
    G.TornSnoc(h.start, h.trace, G.Finish(id));
    h.Finish(id);
  }

  /**
   So a sensor can be lost at any idle moment of any run: the gate is idle again and nothing is torn,
   but the sensor does not run, as it would after a fresh start.
   */
  method StopPanics(h: Handler, i: G.Id, off: Policy, j: G.Id, p: Policy, n: Sensor) returns (other: Agent)
    requires h.Valid() && G.Admitted(h.State()) == {} && i != j && i !in h.State().commands && j !in h.State().commands
    requires n != Synthetic && h.agent.cfg.Startable(n) && h.agent.Stands(n).Up?
    requires off.Valid() && !off.On(n) && p.Valid() && p.On(n)
    modifies h, h.store, h.agent
    ensures h.Valid() && G.Admitted(h.State()) == {} && G.Torn(h.start, h.trace).None?
    ensures fresh(other) && other.Follows(Current(h.store.disk)) && n in other.sensors && n !in h.agent.sensors
  {
    G.IdleAgain(h.start, h.trace, i, off, j, p);
    LoseOne(h, i, n, off);
    SwitchOnAgain(h, j, n, p);
    other := new Agent.Start(h.agent.cfg, p);
    LostNotRunning(h.agent.cfg, h.agent.sensors, h.agent.skipped, other.sensors, other.skipped, p, n);
  }

  /**
   `PolicyAwareExecutor::apply_policy`: a dry run and a failed save change nothing; otherwise the
   overlay is saved first and then applied.
   */
  method ApplyPolicy(store: Store, agent: Agent, p: Policy, dryRun: bool, fault: Fault) returns (ok: bool)
    requires store.Valid() && p.Valid() && agent.Orderly()
    modifies store, agent
    ensures store.Valid() && agent.Orderly()
    ensures ok && !dryRun ==> agent.KnobsFollow(p) && Current(store.disk) == p
    ensures ok && !dryRun ==> (agent.Follows(p) <==> old(NoneLost(agent.cfg, agent.sensors, agent.skipped, p)))
    ensures !ok || dryRun ==> unchanged(agent) && Current(store.disk) == old(Current(store.disk))
    ensures store.SafeSince(old(|store.seen|), old(Possible(store.disk)) + {p})
  {
    if dryRun { return true; }
    ok := store.Save(p, fault);
    if !ok { return; }
    agent.ApplyPolicy(p);
  }
}
