/**
 Socket owner tracking: the SOCKS map of the network program against the life cycle of
 TCP sockets (section 3.3.2 of RFC 9293).

 A life of a socket starts when it leaves CLOSE, or when it is born in SYN-RECEIVED as
 the child of a listener, and ends when it is back in CLOSE.  A state change and its
 tracepoint are one step.  An accept is up to four steps, so a close on another
 processor, or another accept, can fall between any two of them.  An accept resolves
 the descriptor it returned to whatever socket that names by then: a thread that swaps
 descriptors can make it any TCP socket, in any state.
 */
module SocketSpec {
  type Addr = nat
  type Life = nat

  datatype Tcp =
    | Close | Listen | SynSent | SynRecv | Established
    | FinWait1 | FinWait2 | CloseWait | Closing | LastAck | TimeWait

  /**
   The state changes of a socket that is not in CLOSE.  A reset or an abort leads to
   CLOSE from anywhere.  A passive open happens on a child socket of its own, so
   nothing goes back to LISTEN.
   */
  predicate Legal(from: Tcp, to: Tcp) {
    from != Close &&
    (to == Close || match from
      case Listen => to == SynSent
      case SynSent => to == Established || to == SynRecv
      case SynRecv => to == Established || to == FinWait1
      case Established => to == FinWait1 || to == CloseWait
      case FinWait1 => to == FinWait2 || to == Closing || to == TimeWait
      case FinWait2 => to == TimeWait
      case Closing => to == TimeWait
      case CloseWait => to == LastAck
      case _ => false)
  }

  datatype Direction = Outbound | Inbound
  datatype Task = Task(tgid: nat, uid: nat, comm: string, exeDev: nat, exeIno: nat)
  datatype Owner = Owner(task: Task, dir: Direction)

  datatype Kind = Connected | Accepted | Closed

  /** A record in the ring buffer; `life` says which life of the socket it is about. */
  datatype Event = Event(kind: Kind, addr: Addr, owner: Owner, life: Life)

  /** What the program keeps: SOCKS, the ring buffer and the drop counter. */
  datatype Table = Table(socks: map<Addr, Owner>, events: seq<Event>, drops: nat)

  function Emit(t: Table, ev: Event, reserved: bool): Table {
    if reserved then t.(events := t.events + [ev]) else t.(drops := t.drops + 1)
  }

  function Untrack(t: Table, a: Addr): Table { t.(socks := t.socks - {a}) }

  /** `handle_state` on the change `from` to `to` of socket `a`. */
  function OnState(t: Table, a: Addr, from: Tcp, to: Tcp, task: Task, agent: bool, reserved: bool, life: Life): Table {
    if from == Close && to == SynSent then
      if agent then Untrack(t, a) else t.(socks := t.socks[a := Owner(task, Outbound)])
    else if a !in t.socks then t
    else if to == Established && from == SynSent then Emit(t, Event(Connected, a, t.socks[a], life), reserved)
    else if to == Close then
      Untrack(if from == SynSent then t else Emit(t, Event(Closed, a, t.socks[a], life), reserved), a)
    else t
  }

  /** An accept that is half done: announced, in the map, or found closed. */
  datatype Call = Announced(a: Addr, owner: Owner) | Stored(a: Addr) | Doomed(a: Addr)

  /** `queued`: a child that no accept has resolved to yet. */
  datatype Slot = Slot(life: Life, tcp: Tcp, queued: bool)

  datatype Info = Info(child: bool, agent: bool)

  /** An owner read from the current task, for a life. */
  datatype Capture = Capture(life: Life, owner: Owner)

  type Thread = nat

  datatype State = State(
    slots: map<Addr, Slot>, calls: map<Thread, Call>, lives: map<Life, Info>, next: Life,
    table: Table, captures: seq<Capture>)

  const Init := State(map[], map[], map[], 0, Table(map[], [], 0), [])

  datatype Step =
    | Connect(a: Addr, task: Task, agent: bool)
    /** A socket that is only created, or that listens. */
    | Create(a: Addr, listening: bool)
    | Spawn(a: Addr)
    | Change(a: Addr, to: Tcp, reserved: bool)
    | Accept(t: Thread, a: Addr, task: Task, agent: bool, reserved: bool)
    | Store(t: Thread)
    | Reread(t: Thread)
    | Unstore(t: Thread)
    | Evict(a: Addr)

  /** The address a step is about. */
  function Site(s: State, e: Step): Addr {
    if e.Store? || e.Reread? || e.Unstore? then (if e.t in s.calls then s.calls[e.t].a else 0) else e.a
  }

  predicate InFlight(s: State, a: Addr) { exists t :: t in s.calls && s.calls[t].a == a }

  /** The address is free for a new life: no socket there is alive, no accept on it half done. */
  predicate Vacant(s: State, a: Addr) { a in s.slots ==> s.slots[a].tcp == Close && !InFlight(s, a) }

  predicate Enabled(s: State, e: Step) {
    match e
    case Connect(a, _, _) => Vacant(s, a)
    case Create(a, _) => Vacant(s, a)
    case Spawn(a) => Vacant(s, a)
    case Change(a, to, _) => a in s.slots && Legal(s.slots[a].tcp, to)
    case Accept(t, a, _, _, _) => t !in s.calls && a in s.slots
    case Store(t) => t in s.calls && s.calls[t].Announced? && s.calls[t].a in s.slots
    case Reread(t) => t in s.calls && s.calls[t].Stored? && s.calls[t].a in s.slots
    case Unstore(t) => t in s.calls && s.calls[t].Doomed? && s.calls[t].a in s.slots
    case Evict(_) => true
  }

  function Birth(s: State, a: Addr, tcp: Tcp, info: Info): State {
    s.(slots := s.slots[a := Slot(s.next, tcp, info.child)], lives := s.lives[s.next := info], next := s.next + 1)
  }

  function Apply(s: State, e: Step): State
    requires Enabled(s, e)
  {
    match e
    case Connect(a, task, agent) =>
      Birth(s, a, SynSent, Info(false, agent)).(
        table := OnState(s.table, a, Close, SynSent, task, agent, true, s.next),
        captures := if agent then s.captures else s.captures + [Capture(s.next, Owner(task, Outbound))])
    case Create(a, listening) => Birth(s, a, if listening then Listen else Close, Info(false, false))
    case Spawn(a) => Birth(s, a, SynRecv, Info(true, false))
    case Change(a, to, reserved) =>
      var x := s.slots[a];
      s.(slots := s.slots[a := x.(tcp := to)],
         table := OnState(s.table, a, x.tcp, to, Task(0, 0, "", 0, 0), false, reserved, x.life))
    case Accept(t, a, task, agent, reserved) =>
      var x, w := s.slots[a], Owner(task, Inbound);
      var s1 := s.(slots := s.slots[a := x.(queued := false)]);
      if agent then
        s1.(table := Untrack(s.table, a), lives := if x.queued then s.lives[x.life := Info(true, true)] else s.lives)
      else
        s1.(table := Emit(s.table, Event(Accepted, a, w, x.life), reserved),
            captures := s.captures + [Capture(x.life, w)], calls := s.calls[t := Announced(a, w)])
    case Store(t) =>
      var a := s.calls[t].a;
      s.(calls := s.calls[t := Stored(a)], table := s.table.(socks := s.table.socks[a := s.calls[t].owner]))
    case Reread(t) =>
      var a := s.calls[t].a;
      s.(calls := if s.slots[a].tcp == Close then s.calls[t := Doomed(a)] else s.calls - {t})
    case Unstore(t) => s.(calls := s.calls - {t}, table := Untrack(s.table, s.calls[t].a))
    case Evict(a) => s.(table := Untrack(s.table, a))
  }

  /** A step that the system cannot take changes nothing. */
  function Next(s: State, e: Step): State { if Enabled(s, e) then Apply(s, e) else s }

  function Run(tr: seq<Step>): State {
    if tr == [] then Init else Next(Run(tr[..|tr| - 1]), tr[|tr| - 1])
  }

  // ---- what is said about one life

  /** The kinds of the records about one life, in order. */
  function Kinds(events: seq<Event>, life: Life): seq<Kind> {
    if events == [] then []
    else
      var n := |events| - 1;
      Kinds(events[..n], life) + if events[n].life == life then [events[n].kind] else []
  }

  function Story(s: State, life: Life): seq<Kind> { Kinds(s.table.events, life) }

  /** The owners captured for one life, in order. */
  function Owners(captures: seq<Capture>, life: Life): seq<Owner> {
    if captures == [] then []
    else
      var n := |captures| - 1;
      Owners(captures[..n], life) + if captures[n].life == life then [captures[n].owner] else []
  }

  function OwnersOf(s: State, life: Life): seq<Owner> { Owners(s.captures, life) }

  /** Without the accepts. */
  function Rest(ks: seq<Kind>): seq<Kind> {
    if ks == [] then []
    else Rest(ks[..|ks| - 1]) + if ks[|ks| - 1].Accepted? then [] else [ks[|ks| - 1]]
  }

  /** At most one CONNECT and one CLOSE, in that order. */
  predicate Shaped(ks: seq<Kind>) { Whole(Rest(ks)) }

  predicate Whole(r: seq<Kind>) { r == [] || r == [Connected] || r == [Closed] || r == [Connected, Closed] }

  /** At most one opening record, of the right kind, and one closing record, in that order. */
  predicate Proper(ks: seq<Kind>, child: bool) {
    var open := if child then Accepted else Connected;
    ks == [] || ks == [open] || ks == [Closed] || ks == [open, Closed]
  }

  /** The life has one owner at most, captured by its own connect or accept, and none if it is the agent's. */
  predicate Fit(s: State, l: Life) {
    var os := OwnersOf(s, l);
    l in s.lives ==>
      && |os| <= 1
      && (s.lives[l].agent ==> os == [])
      && (os != [] ==> (os[0].dir.Inbound? <==> s.lives[l].child))
  }

  /** What holds of a life at every moment. */
  predicate LifeOk(s: State, l: Life) {
    var ks := Story(s, l);
    && (l !in s.lives ==> ks == [] && OwnersOf(s, l) == [])
    && Shaped(ks)
    && (l in s.lives && Fit(s, l) ==> Proper(ks, s.lives[l].child) && (s.lives[l].agent ==> ks == []))
  }

  /** An accept on `a` will still look whether the socket is closed. */
  ghost predicate Checking(s: State, a: Addr) {
    exists t :: t in s.calls && s.calls[t].a == a && !s.calls[t].Announced?
  }

  /** What holds of the socket at one address at every moment. */
  ghost predicate SlotOk(s: State, a: Addr)
    requires a in s.slots
  {
    var x := s.slots[a];
    var ks, os := Story(s, x.life), OwnersOf(s, x.life);
    && x.life in s.lives
    && (x.tcp == Listen || x.tcp == SynSent ==> Rest(ks) == [] && !s.lives[x.life].child)
    && (x.tcp != Close ==> Rest(ks) == [] || Rest(ks) == [Connected])
    && (x.queued ==> s.lives[x.life] == Info(true, false) && ks == [] && os == [])
    && (s.lives[x.life].child && !x.queued ==> s.lives[x.life].agent || os != [])
    && (a in s.table.socks ==> s.table.socks[a] in os && (x.tcp == Close ==> Checking(s, a)))
  }

  predicate CallOk(s: State, t: Thread)
    requires t in s.calls
  {
    && s.calls[t].a in s.slots
    && var x := s.slots[s.calls[t].a];
       && OwnersOf(s, x.life) != []
       && (s.calls[t].Announced? ==> s.calls[t].owner in OwnersOf(s, x.life))
       && (s.calls[t].Doomed? ==> x.tcp == Close)
  }

  ghost predicate Inv(s: State) {
    && (forall l: Life :: l in s.lives <==> l < s.next)
    && (forall a :: a in s.slots ==> SlotOk(s, a))
    && (forall a :: a in s.table.socks ==> a in s.slots)
    && (forall t :: t in s.calls ==> CallOk(s, t))
    && (forall a, b :: a in s.slots && b in s.slots && s.slots[a].life == s.slots[b].life ==> a == b)
    && (forall l :: LifeOk(s, l))
    && (forall ev :: ev in s.table.events ==> ev.owner in OwnersOf(s, ev.life))
  }

  lemma KindsSnoc(events: seq<Event>, ev: Event, life: Life)
    ensures ev.life == life ==> Kinds(events + [ev], life) == Kinds(events, life) + [ev.kind]
    ensures ev.life != life ==> Kinds(events + [ev], life) == Kinds(events, life)
  {
    assert (events + [ev])[..|events|] == events;
  }

  lemma OwnersSnoc(captures: seq<Capture>, c: Capture, life: Life)
    ensures c.life == life ==> Owners(captures + [c], life) == Owners(captures, life) + [c.owner]
    ensures c.life != life ==> Owners(captures + [c], life) == Owners(captures, life)
  {
    assert (captures + [c])[..|captures|] == captures;
  }

  /** The step reads an owner from its task. */
  predicate Capturing(e: Step) { (e.Connect? || e.Accept?) && !e.agent }

  function CapturedOwner(e: Step): Owner
    requires Capturing(e)
  {
    Owner(e.task, if e.Connect? then Outbound else Inbound)
  }

  function CapturedLife(s: State, e: Step): Life
    requires Capturing(e) && Enabled(s, e)
  {
    if e.Connect? then s.next else s.slots[e.a].life
  }

  /** A step adds the owner it reads to the life it is about, and changes no other. */
  lemma OwnersGrow(s: State, e: Step, l: Life)
    requires Enabled(s, e)
    ensures Capturing(e) && CapturedLife(s, e) == l ==> OwnersOf(Apply(s, e), l) == OwnersOf(s, l) + [CapturedOwner(e)]
    ensures !(Capturing(e) && CapturedLife(s, e) == l) ==> OwnersOf(Apply(s, e), l) == OwnersOf(s, l)
  {
    if Capturing(e) {
      var c := Capture(CapturedLife(s, e), CapturedOwner(e));
      assert Apply(s, e).captures == s.captures + [c];
      OwnersSnoc(s.captures, c, l);
    } else {
      assert Apply(s, e).captures == s.captures;
    }
  }

  lemma RestSnoc(ks: seq<Kind>, k: Kind)
    ensures k.Accepted? ==> Rest(ks + [k]) == Rest(ks)
    ensures !k.Accepted? ==> Rest(ks + [k]) == Rest(ks) + [k]
  {
    assert (ks + [k])[..|ks|] == ks;
  }

  // ---- one step

  /** From `s` to `s2` only the socket at `a`, its accepts and the records about its life may change. */
  ghost predicate Framed(s: State, s2: State, a: Addr) {
    && a in s2.slots
    && (forall b :: b != a ==> (b in s2.slots <==> b in s.slots) && (b in s.slots ==> s2.slots[b] == s.slots[b]))
    && (forall b :: b != a ==> (b in s2.table.socks <==> b in s.table.socks)
                               && (b in s.table.socks ==> s2.table.socks[b] == s.table.socks[b]))
    && (forall t :: t in s.calls && s.calls[t].a != a ==> t in s2.calls && s2.calls[t] == s.calls[t])
    && (forall t :: t in s2.calls && s2.calls[t].a != a ==> t in s.calls && s2.calls[t] == s.calls[t])
    && FramedLife(s, s2, s2.slots[a].life)
    && (if a in s.slots && s.slots[a].life == s2.slots[a].life then s2.next == s.next
        else s2.slots[a].life == s.next && s2.next == s.next + 1)
  }

  ghost predicate FramedLife(s: State, s2: State, l: Life) {
    && l in s2.lives
    && (forall m :: m != l ==> (m in s2.lives <==> m in s.lives) && (m in s.lives ==> s2.lives[m] == s.lives[m]))
    && (s2.captures == s.captures || exists w :: s2.captures == s.captures + [Capture(l, w)])
    && (s2.table.events == s.table.events || exists ev :: Adds(s, s2, ev, l))
  }

  ghost predicate Adds(s: State, s2: State, ev: Event, l: Life) {
    s2.table.events == s.table.events + [ev] && ev.life == l && ev.owner in OwnersOf(s2, l)
  }

  /** Nothing is said about other lives, and what was captured stays. */
  lemma OtherLives(s: State, s2: State, l: Life, m: Life)
    requires FramedLife(s, s2, l)
    ensures m != l ==> Story(s2, m) == Story(s, m) && OwnersOf(s2, m) == OwnersOf(s, m)
    ensures forall w :: w in OwnersOf(s, m) ==> w in OwnersOf(s2, m)
  {
    if s2.captures != s.captures {
      var w :| s2.captures == s.captures + [Capture(l, w)];
      OwnersSnoc(s.captures, Capture(l, w), m);
    }
    if s2.table.events != s.table.events {
      var ev :| Adds(s, s2, ev, l);
      KindsSnoc(s.table.events, ev, m);
    }
  }

  lemma OtherSlot(s: State, s2: State, a: Addr, b: Addr)
    requires Inv(s) && Framed(s, s2, a) && b in s.slots && b != a
    ensures SlotOk(s2, b)
  {
    assert SlotOk(s, b);
    OtherLives(s, s2, s2.slots[a].life, s.slots[b].life);
    if Checking(s, b) {
      var t :| t in s.calls && s.calls[t].a == b && !s.calls[t].Announced?;
      assert t in s2.calls && s2.calls[t] == s.calls[t];
    }
  }

  lemma OtherCall(s: State, s2: State, a: Addr, t: Thread)
    requires Inv(s) && Framed(s, s2, a) && t in s2.calls && s2.calls[t].a != a
    ensures CallOk(s2, t)
  {
    assert CallOk(s, t);
    OtherLives(s, s2, s2.slots[a].life, s.slots[s.calls[t].a].life);
  }

  lemma OtherLife(s: State, s2: State, l: Life, m: Life)
    requires Inv(s) && FramedLife(s, s2, l) && m != l
    ensures LifeOk(s2, m)
  {
    OtherLives(s, s2, l, m);
    assert LifeOk(s, m);
  }

  lemma FramedEvents(s: State, s2: State, l: Life, ev: Event)
    requires Inv(s) && FramedLife(s, s2, l) && ev in s2.table.events
    ensures ev.owner in OwnersOf(s2, ev.life)
  {
    if s2.table.events != s.table.events {
      var new_ :| Adds(s, s2, new_, l);
      assert ev in s.table.events || ev == new_;
    }
    if ev in s.table.events { OtherLives(s, s2, l, ev.life); }
  }

  lemma FramedKeepsInv(s: State, s2: State, a: Addr)
    requires Inv(s) && Framed(s, s2, a)
    requires SlotOk(s2, a) && LifeOk(s2, s2.slots[a].life)
    requires forall t :: t in s2.calls && s2.calls[t].a == a ==> CallOk(s2, t)
    ensures Inv(s2)
  {
    forall b | b in s2.slots ensures SlotOk(s2, b) { if b != a { OtherSlot(s, s2, a, b); } }
    forall t | t in s2.calls ensures CallOk(s2, t) { if s2.calls[t].a != a { OtherCall(s, s2, a, t); } }
    forall m ensures LifeOk(s2, m) { if m != s2.slots[a].life { OtherLife(s, s2, s2.slots[a].life, m); } }
    forall ev | ev in s2.table.events ensures ev.owner in OwnersOf(s2, ev.life) {
      FramedEvents(s, s2, s2.slots[a].life, ev);
    }
    FramedDistinct(s, s2, a);
  }

  lemma FramedDistinct(s: State, s2: State, a: Addr)
    requires Inv(s) && Framed(s, s2, a)
    ensures forall l: Life :: l in s2.lives <==> l < s2.next
    ensures forall b :: b in s2.table.socks && b != a ==> b in s2.slots
    ensures forall b, c :: b in s2.slots && c in s2.slots && s2.slots[b].life == s2.slots[c].life ==> b == c
  {
    forall b | b in s2.slots && b != a ensures s2.slots[b].life != s2.slots[a].life {
      assert SlotOk(s, b);
    }
  }

  // ---- each kind of step

  lemma OnlyAtSite(s: State, e: Step, a: Addr)
    requires Enabled(s, e) && !e.Connect? && !e.Create? && !e.Spawn?
    requires a == Site(s, e) && a in s.slots && FramedLife(s, Apply(s, e), s.slots[a].life)
    ensures Framed(s, Apply(s, e), a)
  {
  }

  lemma OnlyAtBirth(s: State, e: Step)
    requires Enabled(s, e) && (e.Connect? || e.Create? || e.Spawn?)
    requires FramedLife(s, Apply(s, e), s.next) && (e.a in s.slots ==> s.slots[e.a].life != s.next)
    ensures Framed(s, Apply(s, e), e.a)
  {
  }

  lemma BirthLife(s: State, e: Step)
    requires LifeOk(s, s.next) && s.next !in s.lives
    requires Enabled(s, e) && (e.Connect? || e.Create? || e.Spawn?) && e.a !in s.table.socks
    ensures FramedLife(s, Apply(s, e), s.next) && LifeOk(Apply(s, e), s.next) && SlotOk(Apply(s, e), e.a)
  {
    OwnersGrow(s, e, s.next);
    BirthFramed(s, e);
    assert Apply(s, e).table.events == s.table.events;
  }

  lemma BirthFramed(s: State, e: Step)
    requires Enabled(s, e) && (e.Connect? || e.Create? || e.Spawn?)
    ensures FramedLife(s, Apply(s, e), s.next)
  {
    if Capturing(e) { assert Apply(s, e).captures == s.captures + [Capture(s.next, CapturedOwner(e))]; }
  }

  lemma BirthKeepsInv(s: State, e: Step)
    requires Inv(s) && Enabled(s, e) && (e.Connect? || e.Create? || e.Spawn?)
    ensures Inv(Apply(s, e))
  {
    assert LifeOk(s, s.next);
    if e.a in s.slots { assert SlotOk(s, e.a); }
    BirthLife(s, e);
    OnlyAtBirth(s, e);
    forall t | t in s.calls ensures s.calls[t].a != e.a { assert CallOk(s, t); }
    FramedKeepsInv(s, Apply(s, e), e.a);
  }

  /** What is left out are accepts only. */
  lemma {:induction false} RestKeeps(ks: seq<Kind>, k: Kind)
    ensures k in ks && !k.Accepted? ==> k in Rest(ks)
  {
    if ks != [] { RestKeeps(ks[..|ks| - 1], k); }
  }

  lemma NoneOf(r: seq<Kind>)
    ensures r == [] || r == [Connected] ==> Closed !in r
    ensures r == [] ==> Connected !in r
  {
  }

  lemma NotYetClosed(ks: seq<Kind>)
    requires Rest(ks) == [] || Rest(ks) == [Connected]
    ensures Closed !in ks
  {
    RestKeeps(ks, Closed);
    NoneOf(Rest(ks));
  }

  lemma NothingYet(ks: seq<Kind>)
    requires Rest(ks) == []
    ensures Closed !in ks && Connected !in ks
  {
    RestKeeps(ks, Closed);
    RestKeeps(ks, Connected);
    NoneOf(Rest(ks));
  }

  lemma ProperNothing(ks: seq<Kind>)
    requires Proper(ks, false) && Closed !in ks && Connected !in ks
    ensures ks == []
  {
  }

  lemma ProperAndOpen(ks: seq<Kind>, child: bool)
    requires Proper(ks, child) && Closed !in ks
    ensures ks == [] || ks == [if child then Accepted else Connected]
  {
    assert ks != [] ==> ks[|ks| - 1] in ks;
  }

  /** CONNECT comes first in a life that is no child's. */
  lemma ConnectStory(ks: seq<Kind>)
    requires Rest(ks) == []
    ensures Rest(ks + [Connected]) == [Connected]
    ensures Proper(ks, false) ==> Proper(ks + [Connected], false)
  {
    RestSnoc(ks, Connected);
    NothingYet(ks);
    if Proper(ks, false) {
      ProperNothing(ks);
      assert [] + [Connected] == [Connected];
    }
  }

  lemma WholeOnceClosed(r: seq<Kind>)
    requires r == [] || r == [Connected]
    ensures Whole(r + [Closed])
  {
    if r == [] {
      assert r + [Closed] == [Closed];
    } else {
      assert r + [Closed] == [Connected, Closed];
    }
  }

  lemma ClosedProper(ks: seq<Kind>, child: bool)
    requires Proper(ks, child) && Closed !in ks
    ensures Proper(ks + [Closed], child)
  {
    ProperAndOpen(ks, child);
    if ks == [] {
      assert ks + [Closed] == [Closed];
    } else {
      assert ks + [Closed] == [if child then Accepted else Connected, Closed];
    }
  }

  /** CLOSE comes last. */
  lemma CloseStory(ks: seq<Kind>, child: bool)
    requires Rest(ks) == [] || Rest(ks) == [Connected]
    ensures Shaped(ks + [Closed])
    ensures Proper(ks, child) ==> Proper(ks + [Closed], child)
  {
    RestSnoc(ks, Closed);
    WholeOnceClosed(Rest(ks));
    NotYetClosed(ks);
    if Proper(ks, child) { ClosedProper(ks, child); }
  }

  predicate DueOpening(from: Tcp, to: Tcp) { from == SynSent && to == Established }

  lemma ChangeStory(s: State, e: Step)
    requires Enabled(s, e) && e.Change? && SlotOk(s, e.a)
    ensures var s2, x := Apply(s, e), s.slots[e.a];
      && OwnersOf(s2, x.life) == OwnersOf(s, x.life) && s2.lives == s.lives
      && FramedLife(s, s2, x.life)
      && (Story(s2, x.life) == Story(s, x.life)
          || (e.a in s.table.socks && e.to == Close && x.tcp != SynSent
              && Story(s2, x.life) == Story(s, x.life) + [Closed])
          || (e.a in s.table.socks && x.tcp == SynSent && e.to == Established
              && Story(s2, x.life) == Story(s, x.life) + [Connected]))
  {
    var s2, x := Apply(s, e), s.slots[e.a];
    if e.a in s.table.socks && e.reserved && (if e.to == Close then x.tcp != SynSent else DueOpening(x.tcp, e.to)) {
      var ev := Event(if e.to == Close then Closed else Connected, e.a, s.table.socks[e.a], x.life);
      KindsSnoc(s.table.events, ev, x.life);
      assert Adds(s, s2, ev, x.life);
    }
  }

  lemma ChangeLife(s: State, e: Step)
    requires Enabled(s, e) && e.Change? && SlotOk(s, e.a) && LifeOk(s, s.slots[e.a].life)
    ensures var ks := Story(Apply(s, e), s.slots[e.a].life);
      LifeOk(Apply(s, e), s.slots[e.a].life) && (e.to != Close ==> Rest(ks) == [] || Rest(ks) == [Connected])
      && (e.to == SynSent ==> Rest(ks) == [])
  {
    var l := s.slots[e.a].life;
    ChangeStory(s, e);
    if Story(Apply(s, e), l) == Story(s, l) {
    } else if e.to == Close {
      CloseStory(Story(s, l), s.lives[l].child);
    } else {
      ConnectStory(Story(s, l));
    }
  }

  lemma ChangeSlot(s: State, e: Step)
    requires Enabled(s, e) && e.Change? && SlotOk(s, e.a) && LifeOk(s, s.slots[e.a].life)
    ensures SlotOk(Apply(s, e), e.a)
  {
    ChangeStory(s, e);
    ChangeLife(s, e);
  }

  lemma ChangeKeepsInv(s: State, e: Step)
    requires Inv(s) && Enabled(s, e) && e.Change?
    ensures Inv(Apply(s, e))
  {
    assert SlotOk(s, e.a) && LifeOk(s, s.slots[e.a].life);
    ChangeStory(s, e);
    ChangeLife(s, e);
    ChangeSlot(s, e);
    OnlyAtSite(s, e, e.a);
    forall t | t in s.calls ensures CallOk(Apply(s, e), t) { assert CallOk(s, t); }
    FramedKeepsInv(s, Apply(s, e), e.a);
  }

  lemma AcceptStory(s: State, e: Step)
    requires Enabled(s, e) && e.Accept?
    ensures var s2, l := Apply(s, e), s.slots[e.a].life;
      && Story(s2, l) == (if !e.agent && e.reserved then Story(s, l) + [Accepted] else Story(s, l))
      && Rest(Story(s2, l)) == Rest(Story(s, l))
      && OwnersOf(s2, l) == if e.agent then OwnersOf(s, l) else OwnersOf(s, l) + [Owner(e.task, Inbound)]
  {
    var l, w := s.slots[e.a].life, Owner(e.task, Inbound);
    OwnersGrow(s, e, l);
    if !e.agent {
      if e.reserved {
        KindsSnoc(s.table.events, Event(Accepted, e.a, w, l), l);
        RestSnoc(Story(s, l), Accepted);
      }
    }
  }

  lemma AcceptFramed(s: State, e: Step)
    requires Enabled(s, e) && e.Accept? && SlotOk(s, e.a)
    ensures FramedLife(s, Apply(s, e), s.slots[e.a].life)
  {
    var s2, l, w := Apply(s, e), s.slots[e.a].life, Owner(e.task, Inbound);
    AcceptStory(s, e);
    if !e.agent {
      assert s2.captures == s.captures + [Capture(l, w)];
      if e.reserved { assert Adds(s, s2, Event(Accepted, e.a, w, l), l); }
    }
  }

  lemma AcceptLife(s: State, e: Step)
    requires Enabled(s, e) && e.Accept? && SlotOk(s, e.a) && LifeOk(s, s.slots[e.a].life)
    ensures LifeOk(Apply(s, e), s.slots[e.a].life)
  {
    var l := s.slots[e.a].life;
    AcceptStory(s, e);
    FitAccept(s, e, l);
    if Fit(Apply(s, e), l) && !e.agent { FirstAccept(Story(s, l)); }
  }

  lemma FirstAccept(ks: seq<Kind>)
    requires ks == []
    ensures Proper(ks + [Accepted], true)
  {
    assert ks + [Accepted] == [Accepted];
  }

  lemma FitAccept(s: State, e: Step, l: Life)
    requires Enabled(s, e) && e.Accept? && SlotOk(s, e.a) && s.slots[e.a].life == l
    ensures Fit(Apply(s, e), l) <==> Fit(s, l) && !Stray(s, e, l)
  {
    AcceptStory(s, e);
    if !e.agent { FitWithOneMore(s, Apply(s, e), l, Owner(e.task, Inbound), s.slots[e.a].queued); }
  }

  /** One more inbound owner fits exactly a child that waits for its accept. */
  lemma FitWithOneMore(s: State, s2: State, l: Life, w: Owner, queued: bool)
    requires l in s.lives && s2.lives == s.lives && OwnersOf(s2, l) == OwnersOf(s, l) + [w] && w.dir.Inbound?
    requires queued ==> s.lives[l] == Info(true, false) && OwnersOf(s, l) == []
    requires s.lives[l].child && !queued ==> s.lives[l].agent || OwnersOf(s, l) != []
    ensures Fit(s2, l) <==> Fit(s, l) && queued
  {
    var os, os2 := OwnersOf(s, l), OwnersOf(s2, l);
    assert |os2| == |os| + 1 && os2[|os|] == w;
  }

  lemma AcceptSlot(s: State, e: Step)
    requires Enabled(s, e) && e.Accept? && SlotOk(s, e.a)
    ensures SlotOk(Apply(s, e), e.a)
  {
    AcceptStory(s, e);
    if !e.agent { InLonger(OwnersOf(s, s.slots[e.a].life), Owner(e.task, Inbound)); }
    if Checking(s, e.a) { StillChecking(s, e); }
  }

  lemma StillChecking(s: State, e: Step)
    requires Enabled(s, e) && e.Accept? && Checking(s, e.a)
    ensures Checking(Apply(s, e), e.a)
  {
    var t :| t in s.calls && s.calls[t].a == e.a && !s.calls[t].Announced?;
    assert t in Apply(s, e).calls && Apply(s, e).calls[t] == s.calls[t];
  }

  lemma AcceptCall(s: State, e: Step, t: Thread)
    requires Enabled(s, e) && e.Accept? && t in Apply(s, e).calls && Apply(s, e).calls[t].a == e.a
    requires t in s.calls ==> CallOk(s, t)
    ensures CallOk(Apply(s, e), t)
  {
    AcceptStory(s, e);
    var os := OwnersOf(s, s.slots[e.a].life);
    if !e.agent { InLonger(os, Owner(e.task, Inbound)); }
  }

  lemma InLonger(os: seq<Owner>, w: Owner)
    ensures w in os + [w] && forall x :: x in os ==> x in os + [w]
  {
  }

  lemma AcceptKeepsInv(s: State, e: Step)
    requires Inv(s) && Enabled(s, e) && e.Accept?
    ensures Inv(Apply(s, e))
  {
    assert SlotOk(s, e.a) && LifeOk(s, s.slots[e.a].life);
    AcceptFramed(s, e);
    AcceptLife(s, e);
    AcceptSlot(s, e);
    OnlyAtSite(s, e, e.a);
    forall t | t in Apply(s, e).calls && Apply(s, e).calls[t].a == e.a ensures CallOk(Apply(s, e), t) {
      if t in s.calls { assert CallOk(s, t); }
      AcceptCall(s, e, t);
    }
    FramedKeepsInv(s, Apply(s, e), e.a);
  }

  lemma StoreSlot(s: State, e: Step)
    requires Enabled(s, e) && (e.Store? || e.Reread? || e.Unstore?)
    requires SlotOk(s, s.calls[e.t].a) && CallOk(s, e.t)
    ensures SlotOk(Apply(s, e), s.calls[e.t].a)
  {
    var s2, a := Apply(s, e), s.calls[e.t].a;
    if e.Store? || (e.Reread? && s.slots[a].tcp == Close) { assert e.t in s2.calls && !s2.calls[e.t].Announced?; }
  }

  lemma StoreKeepsInv(s: State, e: Step)
    requires Inv(s) && Enabled(s, e) && (e.Store? || e.Reread? || e.Unstore?)
    ensures Inv(Apply(s, e))
  {
    var s2, a := Apply(s, e), s.calls[e.t].a;
    assert SlotOk(s, a) && CallOk(s, e.t) && LifeOk(s, s.slots[a].life);
    StoreSlot(s, e);
    assert LifeOk(s2, s.slots[a].life);
    OnlyAtSite(s, e, a);
    forall t | t in s2.calls && s2.calls[t].a == a ensures CallOk(s2, t) { StoreCall(s, e, t); }
    FramedKeepsInv(s, s2, a);
  }

  lemma StoreCall(s: State, e: Step, t: Thread)
    requires Enabled(s, e) && (e.Store? || e.Reread? || e.Unstore?)
    requires t in Apply(s, e).calls && t in s.calls && CallOk(s, t)
    ensures CallOk(Apply(s, e), t)
  {
  }

  lemma EvictKeepsInv(s: State, e: Step)
    requires Inv(s) && e.Evict?
    ensures Inv(Apply(s, e))
  {
    var s2 := Apply(s, e);
    if e.a in s.slots {
      assert SlotOk(s, e.a) && LifeOk(s, s.slots[e.a].life);
      assert LifeOk(s2, s.slots[e.a].life);
      OnlyAtSite(s, e, e.a);
      forall t | t in s2.calls && s2.calls[t].a == e.a ensures CallOk(s2, t) { assert CallOk(s, t); }
      FramedKeepsInv(s, s2, e.a);
    } else {
      assert s.table.socks - {e.a} == s.table.socks;
    }
  }

  lemma NextKeepsInv(s: State, e: Step)
    requires Inv(s)
    ensures Inv(Next(s, e))
  {
    if Enabled(s, e) {
      if e.Connect? || e.Create? || e.Spawn? { BirthKeepsInv(s, e); }
      else if e.Change? { ChangeKeepsInv(s, e); }
      else if e.Accept? { AcceptKeepsInv(s, e); }
      else if e.Evict? { EvictKeepsInv(s, e); }
      else { StoreKeepsInv(s, e); }
    }
  }

  lemma InitOk()
    ensures Inv(Init)
  {
    assert forall l :: Story(Init, l) == [] && OwnersOf(Init, l) == [];
    assert forall l :: LifeOk(Init, l);
  }

  lemma {:induction false} RunKeepsInv(tr: seq<Step>)
    ensures Inv(Run(tr))
  {
    if tr == [] {
      InitOk();
    } else {
      RunKeepsInv(tr[..|tr| - 1]);
      NextKeepsInv(Run(tr[..|tr| - 1]), tr[|tr| - 1]);
    }
  }

  // ---- what holds in every run

  /** While no accept on an address is half done, an entry is there only for a socket not in CLOSE. */
  lemma EntriesAreAlive(tr: seq<Step>, a: Addr)
    requires a in Run(tr).table.socks
    ensures a in Run(tr).slots && (!InFlight(Run(tr), a) ==> Run(tr).slots[a].tcp != Close)
  {
    RunKeepsInv(tr);
    assert SlotOk(Run(tr), a);
  }

  /** The step reads an owner for life `l` from the task that connects or accepts it. */
  predicate Captures(s: State, e: Step, l: Life, w: Owner) {
    Enabled(s, e) && Capturing(e) && CapturedLife(s, e) == l && CapturedOwner(e) == w
  }

  predicate CapturedAt(tr: seq<Step>, i: nat, l: Life, w: Owner)
    requires i < |tr|
  {
    Captures(Run(tr[..i]), tr[i], l, w)
  }

  lemma OwnersStep(s: State, e: Step, l: Life, w: Owner)
    ensures w in OwnersOf(Next(s, e), l) <==> w in OwnersOf(s, l) || Captures(s, e, l, w)
  {
    if Enabled(s, e) { OwnersGrow(s, e, l); }
  }

  /** The owners on record for a life are those its own connect and the accepts on it captured. */
  lemma {:induction false} OwnersAreCaptured(tr: seq<Step>, l: Life, w: Owner)
    ensures w in OwnersOf(Run(tr), l) <==> exists i :: 0 <= i < |tr| && CapturedAt(tr, i, l, w)
  {
    if tr != [] {
      var n := |tr| - 1;
      var prev := tr[..n];
      OwnersAreCaptured(prev, l, w);
      OwnersStep(Run(prev), tr[n], l, w);
      forall i | 0 <= i < n ensures CapturedAt(tr, i, l, w) <==> CapturedAt(prev, i, l, w) {
        assert tr[..i] == prev[..i] && tr[i] == prev[i];
      }
      if w in OwnersOf(Run(prev), l) {
        var i :| 0 <= i < n && CapturedAt(prev, i, l, w);
        assert CapturedAt(tr, i, l, w);
      }
      assert CapturedAt(tr, n, l, w) <==> Captures(Run(prev), tr[n], l, w);
    }
  }

  /** Every record carries an owner and direction captured by the connect or an accept of that same life. */
  lemma RecordsNameTheirOwner(tr: seq<Step>, ev: Event)
    requires ev in Run(tr).table.events
    ensures exists i :: 0 <= i < |tr| && CapturedAt(tr, i, ev.life, ev.owner)
  {
    RunKeepsInv(tr);
    OwnersAreCaptured(tr, ev.life, ev.owner);
  }

  /** If the accepts on that life resolve properly, there is no other owner it could carry. */
  lemma TheOnlyOwner(tr: seq<Step>, ev: Event, i: nat, w: Owner)
    requires ev in Run(tr).table.events && Clean(tr, ev.life) && i < |tr| && CapturedAt(tr, i, ev.life, w)
    ensures w == ev.owner
  {
    RunKeepsInv(tr);
    RecordOwner(Run(tr), ev);
    OwnersAreCaptured(tr, ev.life, w);
    CleanIffFit(tr, ev.life);
    FitMeansOne(Run(tr), ev.life, ev.owner, w);
  }

  lemma RecordOwner(s: State, ev: Event)
    requires Inv(s) && ev in s.table.events
    ensures ev.owner in OwnersOf(s, ev.life) && ev.life in s.lives
  {
    assert LifeOk(s, ev.life);
  }

  lemma FitMeansOne(s: State, l: Life, v: Owner, w: Owner)
    requires Fit(s, l) && l in s.lives && v in OwnersOf(s, l) && w in OwnersOf(s, l)
    ensures v == w
  {
    var os := OwnersOf(s, l);
    assert |os| == 1 && os == [os[0]];
  }

  /** In any life at most one CONNECT and one CLOSE, the CONNECT first; whatever accepts resolve to it. */
  lemma ConnectThenClose(tr: seq<Step>, l: Life)
    ensures Shaped(Story(Run(tr), l))
  {
    RunKeepsInv(tr);
    assert LifeOk(Run(tr), l);
  }

  // ---- what holds of a life exactly when its accepts resolve properly

  /** An accept by another task than the agent's resolves to life `l`, which is no child waiting for its accept. */
  predicate Stray(s: State, e: Step, l: Life) {
    e.Accept? && !e.agent && Enabled(s, e) && s.slots[e.a].life == l && !s.slots[e.a].queued
  }

  predicate StrayAt(tr: seq<Step>, i: nat, l: Life)
    requires i < |tr|
  {
    Stray(Run(tr[..i]), tr[i], l)
  }

  ghost predicate Clean(tr: seq<Step>, l: Life) { forall i :: 0 <= i < |tr| ==> !StrayAt(tr, i, l) }

  lemma CleanSnoc(tr: seq<Step>, l: Life)
    requires tr != []
    ensures var n := |tr| - 1; Clean(tr, l) <==> Clean(tr[..n], l) && !Stray(Run(tr[..n]), tr[n], l)
  {
    var n := |tr| - 1;
    var prev := tr[..n];
    forall i | 0 <= i < n ensures StrayAt(tr, i, l) <==> StrayAt(prev, i, l) {
      assert tr[..i] == prev[..i] && tr[i] == prev[i];
    }
    assert StrayAt(tr, n, l) <==> Stray(Run(prev), tr[n], l);
  }

  lemma SameOwners(s: State, e: Step, l: Life)
    requires Enabled(s, e) && (e.Accept? ==> s.slots[e.a].life != l) && l != s.next
    ensures OwnersOf(Apply(s, e), l) == OwnersOf(s, l)
  {
    OwnersGrow(s, e, l);
  }

  lemma FitElsewhere(s: State, e: Step, l: Life)
    requires Enabled(s, e) && (e.Accept? ==> s.slots[e.a].life != l) && l != s.next
    ensures Fit(Apply(s, e), l) <==> Fit(s, l)
  {
    SameOwners(s, e, l);
  }

  lemma FitStep(s: State, e: Step, l: Life)
    requires Inv(s)
    ensures Fit(Next(s, e), l) <==> Fit(s, l) && !Stray(s, e, l)
  {
    if Enabled(s, e) {
      if e.Accept? && s.slots[e.a].life == l {
        assert SlotOk(s, e.a);
        FitAccept(s, e, l);
      } else if l != s.next {
        FitElsewhere(s, e, l);
      } else {
        NextFits(s, e);
      }
    }
  }

  lemma NextFits(s: State, e: Step)
    requires Inv(s) && Enabled(s, e)
    ensures Fit(s, s.next) && Fit(Apply(s, e), s.next) && !Stray(s, e, s.next)
  {
    var l := s.next;
    assert LifeOk(s, l);
    if e.Accept? { assert SlotOk(s, e.a); }
    OwnersGrow(s, e, l);
  }

  /**
   A life has at most one owner, captured by its own connect or accept and never for the
   agent's, exactly when every accept of another task that resolves to it finds a child
   not yet accepted.
   */
  lemma {:induction false} CleanIffFit(tr: seq<Step>, l: Life)
    ensures Clean(tr, l) <==> Fit(Run(tr), l)
  {
    if tr != [] {
      var prev := tr[..|tr| - 1];
      CleanIffFit(prev, l);
      CleanSnoc(tr, l);
      RunKeepsInv(prev);
      FitStep(Run(prev), tr[|tr| - 1], l);
    }
  }

  /** An accept of another task resolves to life `l` and its record reaches the ring buffer. */
  predicate Announces(s: State, e: Step, l: Life) {
    e.Accept? && !e.agent && e.reserved && Enabled(s, e) && s.slots[e.a].life == l
  }

  /** How many do so in a run. */
  function Announcements(tr: seq<Step>, l: Life): nat {
    if tr == [] then 0
    else
      var prev, e := tr[..|tr| - 1], tr[|tr| - 1];
      Announcements(prev, l) + if Announces(Run(prev), e, l) then 1 else 0
  }

  function Accepts(ks: seq<Kind>): nat {
    if ks == [] then 0 else Accepts(ks[..|ks| - 1]) + if ks[|ks| - 1].Accepted? then 1 else 0
  }

  lemma AcceptsSnoc(ks: seq<Kind>, k: Kind)
    ensures Accepts(ks + [k]) == Accepts(ks) + if k.Accepted? then 1 else 0
  {
    assert (ks + [k])[..|ks|] == ks;
  }

  lemma {:induction false} StoryLength(ks: seq<Kind>)
    ensures |ks| == |Rest(ks)| + Accepts(ks)
  {
    if ks != [] { StoryLength(ks[..|ks| - 1]); }
  }

  /** A step adds at most one record, about the socket it touches; an ACCEPT exactly if it announces one. */
  lemma NewRecord(s: State, e: Step)
    requires Next(s, e).table.events != s.table.events
    ensures |Next(s, e).table.events| == |s.table.events| + 1
    ensures var ev := Next(s, e).table.events[|s.table.events|];
      && Next(s, e).table.events == s.table.events + [ev]
      && (forall l :: Announces(s, e, l) <==> ev.kind.Accepted? && ev.life == l)
      && Site(s, e) in s.slots && ev.life == s.slots[Site(s, e)].life
      && (!ev.kind.Accepted? ==> s.slots[Site(s, e)].tcp != Close)
  {
  }

  lemma NoRecord(s: State, e: Step, l: Life)
    requires Next(s, e).table.events == s.table.events
    ensures !Announces(s, e, l)
  {
    assert Announces(s, e, l) ==> |Next(s, e).table.events| == |s.table.events| + 1;
  }

  lemma StoryStep(s: State, e: Step, l: Life)
    ensures Story(s, l) <= Story(Next(s, e), l)
    ensures Accepts(Story(Next(s, e), l)) == Accepts(Story(s, l)) + if Announces(s, e, l) then 1 else 0
  {
    if Next(s, e).table.events != s.table.events {
      NewRecord(s, e);
      var ev := Next(s, e).table.events[|s.table.events|];
      KindsSnoc(s.table.events, ev, l);
      AcceptsSnoc(Story(s, l), ev.kind);
    } else {
      NoRecord(s, e, l);
    }
  }

  lemma {:induction false} AcceptsAreAnnounced(tr: seq<Step>, l: Life)
    ensures Accepts(Story(Run(tr), l)) == Announcements(tr, l)
  {
    if tr != [] {
      AcceptsAreAnnounced(tr[..|tr| - 1], l);
      StoryStep(Run(tr[..|tr| - 1]), tr[|tr| - 1], l);
    }
  }

  /** Every accept of another task that resolves to `l` got its record into the ring buffer. */
  ghost predicate AllAnnounced(tr: seq<Step>, l: Life) {
    forall i :: 0 <= i < |tr| ==> !MutedAt(tr, i, l)
  }

  predicate MutedAt(tr: seq<Step>, i: nat, l: Life)
    requires i < |tr|
  {
    Muted(Run(tr[..i]), tr[i], l)
  }

  predicate Muted(s: State, e: Step, l: Life) {
    e.Accept? && !e.agent && !e.reserved && Enabled(s, e) && s.slots[e.a].life == l
  }

  function Inbounds(os: seq<Owner>): nat {
    if os == [] then 0 else Inbounds(os[..|os| - 1]) + if os[|os| - 1].dir.Inbound? then 1 else 0
  }

  lemma InboundsSnoc(os: seq<Owner>, w: Owner)
    ensures Inbounds(os + [w]) == Inbounds(os) + if w.dir.Inbound? then 1 else 0
  {
    assert (os + [w])[..|os|] == os;
  }

  lemma InboundsStep(s: State, e: Step, l: Life)
    requires !Muted(s, e, l)
    ensures Inbounds(OwnersOf(Next(s, e), l)) == Inbounds(OwnersOf(s, l)) + if Announces(s, e, l) then 1 else 0
  {
    if Enabled(s, e) {
      OwnersGrow(s, e, l);
      if Capturing(e) { InboundsSnoc(OwnersOf(s, l), CapturedOwner(e)); }
    }
  }

  lemma {:induction false} InboundsAreAnnounced(tr: seq<Step>, l: Life)
    requires AllAnnounced(tr, l)
    ensures Inbounds(OwnersOf(Run(tr), l)) == Announcements(tr, l)
  {
    if tr != [] {
      var n := |tr| - 1;
      var prev := tr[..n];
      forall i | 0 <= i < n ensures !MutedAt(prev, i, l) {
        assert tr[..i] == prev[..i] && prev[i] == tr[i] && !MutedAt(tr, i, l);
      }
      InboundsAreAnnounced(prev, l);
      assert !MutedAt(tr, n, l);
      InboundsStep(Run(prev), tr[n], l);
    }
  }

  /** Outbound owners come from the connect that starts a life: one at most, never the agent's or a child's. */
  ghost predicate OutboundOk(s: State, l: Life) {
    var os := OwnersOf(s, l);
    && |os| <= Inbounds(os) + 1
    && (l in s.lives && (s.lives[l].child || s.lives[l].agent) ==> |os| == Inbounds(os))
    && (l !in s.lives ==> os == [])
  }

  lemma OutboundElsewhere(s: State, e: Step, l: Life)
    requires Enabled(s, e) && l != s.next && !(e.Accept? && s.slots[e.a].life == l) && OutboundOk(s, l)
    ensures OutboundOk(Apply(s, e), l)
  {
    SameOwners(s, e, l);
  }

  lemma OutboundAccept(s: State, e: Step, l: Life)
    requires Enabled(s, e) && e.Accept? && s.slots[e.a].life == l && l in s.lives && OutboundOk(s, l) && SlotOk(s, e.a)
    ensures OutboundOk(Apply(s, e), l)
  {
    AcceptStory(s, e);
    InboundsSnoc(OwnersOf(s, l), Owner(e.task, Inbound));
  }

  lemma OutboundBirth(s: State, e: Step)
    requires Enabled(s, e) && OwnersOf(s, s.next) == [] && s.next !in s.lives
    requires e.Accept? ==> s.slots[e.a].life != s.next
    ensures OutboundOk(Apply(s, e), s.next)
  {
    OwnersGrow(s, e, s.next);
    if Capturing(e) { InboundsSnoc([], CapturedOwner(e)); }
  }

  lemma OutboundStep(s: State, e: Step, l: Life)
    requires Inv(s) && OutboundOk(s, l)
    ensures OutboundOk(Next(s, e), l)
  {
    if Enabled(s, e) {
      assert e.Accept? ==> SlotOk(s, e.a);
      if e.Accept? && s.slots[e.a].life == l {
        OutboundAccept(s, e, l);
      } else if l == s.next {
        OutboundBirth(s, e);
      } else {
        OutboundElsewhere(s, e, l);
      }
    }
  }

  lemma {:induction false} OutboundIsOk(tr: seq<Step>, l: Life)
    ensures OutboundOk(Run(tr), l)
  {
    if tr != [] {
      OutboundIsOk(tr[..|tr| - 1], l);
      RunKeepsInv(tr[..|tr| - 1]);
      OutboundStep(Run(tr[..|tr| - 1]), tr[|tr| - 1], l);
    }
  }

  lemma ProperCounts(ks: seq<Kind>, child: bool)
    requires Proper(ks, child)
    ensures Accepts(ks) <= One(child)
  {
    assert [Connected][..0] == [] && [Accepted][..0] == [] && [Closed][..0] == [];
    assert [Connected, Closed][..1] == [Connected] && [Accepted, Closed][..1] == [Accepted];
  }

  function One(b: bool): nat { if b then 1 else 0 }

  lemma {:induction false} NoInboundIfNone(os: seq<Owner>)
    ensures |os| >= Inbounds(os)
    ensures |os| == 1 ==> (os[0].dir.Inbound? <==> Inbounds(os) == 1)
  {
    if os != [] { NoInboundIfNone(os[..|os| - 1]); }
  }

  lemma FitFromCounts(s: State, l: Life)
    requires OutboundOk(s, l) && l in s.lives
    requires Inbounds(OwnersOf(s, l)) <= One(s.lives[l].child)
    requires s.lives[l].agent ==> Inbounds(OwnersOf(s, l)) == 0
    ensures Fit(s, l)
  {
    NoInboundIfNone(OwnersOf(s, l));
  }

  /**
   The records of a life: at most one opening of its kind and one closing, in that order,
   and none for the agent's, if its accepts resolve properly; and only if, as far as the
   ring buffer took the accept records.
   */
  lemma OneOpeningOneClosing(tr: seq<Step>, l: Life)
    requires l in Run(tr).lives
    ensures var s := Run(tr);
      var proper := Proper(Story(s, l), s.lives[l].child) && (s.lives[l].agent ==> Story(s, l) == []);
      (Clean(tr, l) ==> proper) && (AllAnnounced(tr, l) ==> (Clean(tr, l) <==> proper))
  {
    var s := Run(tr);
    CleanIffFit(tr, l);
    RunKeepsInv(tr);
    assert LifeOk(s, l);
    if AllAnnounced(tr, l) && Proper(Story(s, l), s.lives[l].child) && (s.lives[l].agent ==> Story(s, l) == []) {
      InboundsAreAnnounced(tr, l);
      AcceptsAreAnnounced(tr, l);
      ProperCounts(Story(s, l), s.lives[l].child);
      OutboundIsOk(tr, l);
      FitFromCounts(s, l);
    }
  }

  /** The agent's own sockets are silent, exactly as long as no other task's accept resolves to them. */
  lemma AgentIsSilent(tr: seq<Step>, l: Life)
    requires l in Run(tr).lives && Run(tr).lives[l].agent
    ensures Clean(tr, l) <==> OwnersOf(Run(tr), l) == []
    ensures Clean(tr, l) ==> Story(Run(tr), l) == []
  {
    CleanIffFit(tr, l);
    RunKeepsInv(tr);
    assert LifeOk(Run(tr), l);
  }

  // ---- after the end of a life

  /** Life `l` is finished: its socket, if still there, is closed. */
  ghost predicate Ended(s: State, l: Life) {
    l in s.lives && forall a :: a in s.slots && s.slots[a].life == l ==> s.slots[a].tcp == Close
  }

  lemma EndedStep(s: State, e: Step, l: Life)
    requires Inv(s) && Ended(s, l)
    ensures Ended(Next(s, e), l) && Rest(Story(Next(s, e), l)) == Rest(Story(s, l))
  {
    EndedStays(s, e, l);
    EndedRest(s, e, l);
  }

  lemma EndedRest(s: State, e: Step, l: Life)
    requires Ended(s, l)
    ensures Rest(Story(Next(s, e), l)) == Rest(Story(s, l))
  {
    if Next(s, e).table.events != s.table.events {
      NewRecord(s, e);
      var ev := Next(s, e).table.events[|s.table.events|];
      KindsSnoc(s.table.events, ev, l);
      RestSnoc(Story(s, l), ev.kind);
    }
  }

  lemma EndedStays(s: State, e: Step, l: Life)
    requires Inv(s) && Ended(s, l)
    ensures Ended(Next(s, e), l)
  {
  }

  lemma {:induction false} EndedFrom(tr: seq<Step>, more: seq<Step>, l: Life)
    requires Ended(Run(tr), l)
    ensures Ended(Run(tr + more), l) && Rest(Story(Run(tr + more), l)) == Rest(Story(Run(tr), l))
    ensures Story(Run(tr), l) <= Story(Run(tr + more), l)
  {
    if more == [] {
      assert tr + more == tr;
    } else {
      var n := |more| - 1;
      var prev := tr + more[..n];
      EndedFrom(tr, more[..n], l);
      RunKeepsInv(prev);
      assert tr + more == prev + [more[n]];
      RunSnoc(prev, more[n]);
      EndedStep(Run(prev), more[n], l);
      StoryStep(Run(prev), more[n], l);
    }
  }

  /** After its end nothing is said about a life but what accepts that resolve to it announce. */
  lemma OverForGood(tr: seq<Step>, more: seq<Step>, l: Life)
    requires Ended(Run(tr), l)
    ensures Ended(Run(tr + more), l) && Rest(Story(Run(tr + more), l)) == Rest(Story(Run(tr), l))
    ensures Story(Run(tr), l) <= Story(Run(tr + more), l)
    ensures Story(Run(tr + more), l) == Story(Run(tr), l) <==> Announcements(tr + more, l) == Announcements(tr, l)
  {
    EndedFrom(tr, more, l);
    AcceptsAreAnnounced(tr + more, l);
    AcceptsAreAnnounced(tr, l);
    StoryLength(Story(Run(tr + more), l));
    StoryLength(Story(Run(tr), l));
  }

  /** A connect that goes from SYN-SENT to CLOSE yields no record, then or later, unless an accept resolves to it. */
  lemma FailedConnectIsSilent(tr: seq<Step>, e: Step, more: seq<Step>)
    requires e.Change? && e.to == Close && Enabled(Run(tr), e) && Run(tr).slots[e.a].tcp == SynSent
    ensures var l := Run(tr).slots[e.a].life;
      Story(Run(tr + [e] + more), l) == [] <==> Announcements(tr + [e] + more, l) == 0
  {
    var s, l := Run(tr), Run(tr).slots[e.a].life;
    RunKeepsInv(tr);
    assert SlotOk(s, e.a);
    assert (tr + [e])[..|tr|] == tr;
    assert Story(Run(tr + [e]), l) == Story(s, l);
    OverForGood(tr + [e], more, l);
    AcceptsAreAnnounced(tr + [e] + more, l);
    StoryLength(Story(Run(tr + [e] + more), l));
  }

  // ---- an accept on a swapped descriptor

  function Swapped(task: Task, other: Task): seq<Step> {
    [Connect(0, task, false)] + [Change(0, Established, true)] + [Accept(0, 0, other, false, true)] + [Store(0)]
  }

  lemma RunSnoc(tr: seq<Step>, e: Step)
    ensures Run(tr + [e]) == Next(Run(tr), e)
  {
    assert (tr + [e])[..|tr|] == tr;
  }

  lemma ConnectedRun(task: Task)
    ensures var s := Run([Connect(0, task, false)] + [Change(0, Established, true)]);
      && s.slots == map[0 := Slot(0, Established, false)] && s.calls == map[] && s.next == 1
      && s.lives == map[0 := Info(false, false)] && s.captures == [Capture(0, Owner(task, Outbound))]
      && s.table == Table(map[0 := Owner(task, Outbound)], [Event(Connected, 0, Owner(task, Outbound), 0)], 0)
  {
    assert [] + [Connect(0, task, false)] == [Connect(0, task, false)];
    RunSnoc([], Connect(0, task, false));
    RunSnoc([Connect(0, task, false)], Change(0, Established, true));
  }

  /**
   The condition is needed: an accept whose descriptor names a connected socket by then gives
   one life a CONNECT and an ACCEPT, and the map the wrong owner.
   */
  lemma SwappedDescriptor(task: Task, other: Task)
    ensures var s := Run(Swapped(task, other));
      && Story(s, 0) == [Connected, Accepted] && !Proper(Story(s, 0), false) && !Clean(Swapped(task, other), 0)
      && s.table.socks == map[0 := Owner(other, Inbound)]
  {
    SwappedRun(task, other);
    var s := Run(Swapped(task, other));
    var ev, ev2 := Event(Connected, 0, Owner(task, Outbound), 0), Event(Accepted, 0, Owner(other, Inbound), 0);
    KindsSnoc([], ev, 0);
    assert [] + [ev] == [ev];
    KindsSnoc([ev], ev2, 0);
    assert [Connected] + [Accepted] == [Connected, Accepted];
    OneOpeningOneClosing(Swapped(task, other), 0);
  }

  lemma SwappedRun(task: Task, other: Task)
    ensures var s := Run(Swapped(task, other));
      && s.table.events
         == [Event(Connected, 0, Owner(task, Outbound), 0)] + [Event(Accepted, 0, Owner(other, Inbound), 0)]
      && s.table.socks == map[0 := Owner(other, Inbound)] && s.lives == map[0 := Info(false, false)]
  {
    ConnectedRun(task);
    var tr := [Connect(0, task, false)] + [Change(0, Established, true)];
    RunSnoc(tr, Accept(0, 0, other, false, true));
    RunSnoc(tr + [Accept(0, 0, other, false, true)], Store(0));
  }

  // ---- nothing due is missed

  /** A captured socket that is not closed is in the map, except while an accept on it has not stored it. */
  ghost predicate Tracked(s: State, a: Addr)
    requires a in s.slots
  {
    var x := s.slots[a];
    x.tcp != Close && OwnersOf(s, x.life) != [] && !Announcing(s, a) ==> a in s.table.socks
  }

  ghost predicate Announcing(s: State, a: Addr) {
    exists t :: t in s.calls && s.calls[t].a == a && s.calls[t].Announced?
  }

  /** The entry of life `l` is taken away: by the kernel, or by an accept of the agent's that resolves to it. */
  predicate Takes(s: State, e: Step, l: Life) {
    && (e.Evict? || (e.Accept? && e.agent && Enabled(s, e) && !s.slots[e.a].queued))
    && e.a in s.slots && s.slots[e.a].life == l
  }

  predicate TakenAt(tr: seq<Step>, i: nat, l: Life)
    requires i < |tr|
  {
    Takes(Run(tr[..i]), tr[i], l)
  }

  ghost predicate Untaken(tr: seq<Step>, l: Life) { forall i :: 0 <= i < |tr| ==> !TakenAt(tr, i, l) }

  lemma StillAnnouncing(s: State, e: Step, a: Addr)
    requires Enabled(s, e) && Announcing(s, a) && !(e.Store? && Site(s, e) == a)
    ensures Announcing(Apply(s, e), a)
  {
    var t :| t in s.calls && s.calls[t].a == a && s.calls[t].Announced?;
    assert t in Apply(s, e).calls && Apply(s, e).calls[t] == s.calls[t];
  }

  /** A step elsewhere is about another life. */
  lemma OtherSite(s: State, e: Step, a: Addr)
    requires Inv(s) && Enabled(s, e) && a in s.slots && a != Site(s, e)
    ensures s.slots[a].life != s.next && (e.Accept? ==> s.slots[e.a].life != s.slots[a].life)
  {
    assert SlotOk(s, a);
  }

  lemma TrackedElsewhere(s: State, e: Step, a: Addr)
    requires Enabled(s, e) && a in s.slots && a != Site(s, e) && Tracked(s, a)
    requires s.slots[a].life != s.next && (e.Accept? ==> s.slots[e.a].life != s.slots[a].life)
    ensures Tracked(Apply(s, e), a)
  {
    SameOwners(s, e, s.slots[a].life);
    if Announcing(s, a) { StillAnnouncing(s, e, a); }
  }

  lemma TrackedHere(s: State, e: Step, a: Addr)
    requires Inv(s) && Enabled(s, e) && a == Site(s, e) && a in s.slots && Tracked(s, a)
    requires !Takes(s, e, s.slots[a].life)
    requires !e.Connect? && !e.Create? && !e.Spawn?
    ensures Tracked(Apply(s, e), a)
  {
    var s2 := Apply(s, e);
    assert SlotOk(s, a);
    if e.Store? || e.Reread? || e.Unstore? { assert CallOk(s, e.t); }
    if Announcing(s, a) && !e.Store? { StillAnnouncing(s, e, a); }
    if e.Accept? {
      AcceptStory(s, e);
      if !e.agent { assert e.t in s2.calls && s2.calls[e.t] == Announced(a, Owner(e.task, Inbound)); }
    }
  }

  lemma TrackedFromBirth(s: State, e: Step)
    requires Inv(s) && Enabled(s, e) && (e.Connect? || e.Create? || e.Spawn?)
    ensures Tracked(Apply(s, e), e.a)
  {
    assert LifeOk(s, s.next);
  }

  /** Only a birth puts another life at an address. */
  lemma SameLife(s: State, e: Step, a: Addr)
    requires Enabled(s, e) && a in Apply(s, e).slots && !(a == Site(s, e) && (e.Connect? || e.Create? || e.Spawn?))
    ensures a in s.slots && s.slots[a].life == Apply(s, e).slots[a].life
  {
  }

  lemma TrackedStep(s: State, e: Step, a: Addr)
    requires Inv(s) && Enabled(s, e) && a in Apply(s, e).slots && !Takes(s, e, Apply(s, e).slots[a].life)
    requires a in s.slots && s.slots[a].life == Apply(s, e).slots[a].life ==> Tracked(s, a)
    ensures Tracked(Apply(s, e), a)
  {
    if a == Site(s, e) && (e.Connect? || e.Create? || e.Spawn?) {
      TrackedFromBirth(s, e);
    } else {
      SameLife(s, e, a);
      if a != Site(s, e) {
        OtherSite(s, e, a);
        TrackedElsewhere(s, e, a);
      } else {
        TrackedHere(s, e, a);
      }
    }
  }

  /** A socket is tracked as long as no step takes the entry of its own life. */
  lemma {:induction false} TrackedUnlessTaken(tr: seq<Step>, a: Addr)
    requires a in Run(tr).slots && Untaken(tr, Run(tr).slots[a].life)
    ensures Tracked(Run(tr), a)
  {
    if tr != [] {
      var n, l := |tr| - 1, Run(tr).slots[a].life;
      var prev := tr[..n];
      forall i | 0 <= i < n ensures !TakenAt(prev, i, l) {
        assert prev[..i] == tr[..i] && prev[i] == tr[i] && !TakenAt(tr, i, l);
      }
      if a in Run(prev).slots && Run(prev).slots[a].life == l { TrackedUnlessTaken(prev, a); }
      RunKeepsInv(prev);
      assert !TakenAt(tr, n, l);
      if Enabled(Run(prev), tr[n]) { TrackedStep(Run(prev), tr[n], a); }
    }
  }

  /**
   Unless its entry was taken away, every connection of a captured life that goes from SYN-SENT
   to ESTABLISHED is recorded, or counted as dropped, and so is every close other than a failed
   connect's, with an owner captured for that life; except while an accept on it has announced it
   and not stored it yet.
   */
  lemma DueRecords(tr: seq<Step>, e: Step)
    requires e.Change? && Enabled(Run(tr), e) && Untaken(tr, Run(tr).slots[e.a].life)
    requires OwnersOf(Run(tr), Run(tr).slots[e.a].life) != []
    ensures var s, s2, x := Run(tr), Next(Run(tr), e), Run(tr).slots[e.a];
      var due := (x.tcp == SynSent && e.to == Established) || (x.tcp != SynSent && e.to == Close);
      if e.a !in s.table.socks then Announcing(s, e.a) && s2.table == s.table
      else
        && s.table.socks[e.a] in OwnersOf(s, x.life)
        && var ev := Event(if e.to == Close then Closed else Connected, e.a, s.table.socks[e.a], x.life);
           && s2.table.events == s.table.events + (if due && e.reserved then [ev] else [])
           && s2.table.drops == s.table.drops + if due && !e.reserved then 1 else 0
  {
    TrackedUnlessTaken(tr, e.a);
    RunKeepsInv(tr);
    DueStep(Run(tr), e);
  }

  lemma DueStep(s: State, e: Step)
    requires e.Change? && Enabled(s, e) && SlotOk(s, e.a) && Tracked(s, e.a) && OwnersOf(s, s.slots[e.a].life) != []
    ensures var s2, x := Apply(s, e), s.slots[e.a];
      var due := (x.tcp == SynSent && e.to == Established) || (x.tcp != SynSent && e.to == Close);
      if e.a !in s.table.socks then Announcing(s, e.a) && s2.table == s.table
      else
        && s.table.socks[e.a] in OwnersOf(s, x.life)
        && var ev := Event(if e.to == Close then Closed else Connected, e.a, s.table.socks[e.a], x.life);
           && s2.table.events == s.table.events + (if due && e.reserved then [ev] else [])
           && s2.table.drops == s.table.drops + if due && !e.reserved then 1 else 0
  {
  }

  function AnnouncedChild(task: Task): seq<Step> {
    [Spawn(0)] + [Change(0, Established, true)] + [Accept(0, 0, task, false, true)]
  }

  function TooSoon(task: Task): seq<Step> {
    AnnouncedChild(task) + [Change(0, Close, true)] + [Store(0)] + [Reread(0)] + [Unstore(0)]
  }

  lemma AnnouncedRun(task: Task)
    ensures var s := Run(AnnouncedChild(task));
      && s.slots == map[0 := Slot(0, Established, false)] && s.calls == map[0 := Announced(0, Owner(task, Inbound))]
      && s.table == Table(map[], [Event(Accepted, 0, Owner(task, Inbound), 0)], 0)
  {
    assert [] + [Spawn(0)] == [Spawn(0)];
    RunSnoc([], Spawn(0));
    RunSnoc([Spawn(0)], Change(0, Established, true));
    RunSnoc([Spawn(0)] + [Change(0, Established, true)], Accept(0, 0, task, false, true));
  }

  /** For instance: a socket that closes in that moment has an ACCEPT and no CLOSE, written or counted. */
  lemma ClosedTooSoon(task: Task)
    ensures var s := Run(TooSoon(task));
      && Story(s, 0) == [Accepted] && s.slots == map[0 := Slot(0, Close, false)] && s.calls == map[]
      && s.table.drops == 0 && s.table.socks == map[]
  {
    AnnouncedRun(task);
    var tr, ev := AnnouncedChild(task), Event(Accepted, 0, Owner(task, Inbound), 0);
    RunSnoc(tr, Change(0, Close, true));
    RunSnoc(tr + [Change(0, Close, true)], Store(0));
    RunSnoc(tr + [Change(0, Close, true)] + [Store(0)], Reread(0));
    RunSnoc(tr + [Change(0, Close, true)] + [Store(0)] + [Reread(0)], Unstore(0));
    KindsSnoc([], ev, 0);
    assert [] + [ev] == [ev] && [] + [Accepted] == [Accepted];
  }

  // ---- the accept program in one piece

  /** `on_accept_exit` when nothing else happens in between. */
  function OnAccept(t: Table, a: Addr, task: Task, agent: bool, reserved: bool, closed: bool, life: Life): Table {
    var w := Owner(task, Inbound);
    if agent then Untrack(t, a)
    else
      var t := Emit(t, Event(Accepted, a, w, life), reserved);
      if closed then Untrack(t, a) else t.(socks := t.socks[a := w])
  }

  /** The four steps taken without a pause do what the program does in one piece. */
  lemma UninterruptedAccept(s: State, e: Step)
    requires e.Accept? && Enabled(s, e)
    ensures var x := s.slots[e.a];
      Next(Next(Next(Next(s, e), Store(e.t)), Reread(e.t)), Unstore(e.t)).table
      == OnAccept(s.table, e.a, e.task, e.agent, e.reserved, x.tcp == Close, x.life)
  {
    var w := Owner(e.task, Inbound);
    assert s.table.socks[e.a := w] - {e.a} == s.table.socks - {e.a};
  }
}

/** The two programs over SOCKS. */
module Sockets {
  import opened SocketSpec

  const IPPROTO_TCP := 6
  const AF_INET := 2
  const AF_INET6 := 10

  /** What a file descriptor of the accepting task leads to. */
  datatype Fd =
    | NoSock
    | Sock(addr: Addr, pointsBack: bool, protocol: nat, family: nat, closed: bool, life: Life)

  predicate IsTcp(protocol: nat, family: nat) { protocol == IPPROTO_TCP && (family == AF_INET || family == AF_INET6) }

  /** The new descriptor is in the table and is a TCP socket that points back at it. */
  predicate Resolves(fds: seq<Fd>, ret: int) {
    0 <= ret < |fds| && fds[ret].Sock? && fds[ret].pointsBack && IsTcp(fds[ret].protocol, fds[ret].family)
  }

  class Monitor {
    var socks: map<Addr, Owner>
    var events: seq<Event>
    var drops: nat

    ghost function Contents(): Table
      reads this
    {
      Table(socks, events, drops)
    }

    constructor ()
      ensures Contents() == Init.table
    {
      socks, events, drops := map[], [], 0;
    }

    method Record(kind: Kind, a: Addr, owner: Owner, reserved: bool, life: Life)
      modifies this
      ensures Contents() == Emit(old(Contents()), Event(kind, a, owner, life), reserved)
    {
      if !reserved { drops := drops + 1; return; }
      events := events + [Event(kind, a, owner, life)];
    }

    method HandleState(protocol: nat, family: nat, a: Addr, from: Tcp, to: Tcp,
                       task: Task, agent: bool, reserved: bool, life: Life)
      modifies this
      ensures Contents() == if IsTcp(protocol, family)
                            then OnState(old(Contents()), a, from, to, task, agent, reserved, life) else old(Contents())
      ensures protocol != 6 || (family != 2 && family != 10) ==> Contents() == old(Contents())
      ensures protocol == 6 && (family == 2 || family == 10) && from == Close && to == SynSent ==>
        events == old(events) && drops == old(drops) && socks - {a} == old(socks) - {a}
        && (if agent then a !in socks else a in socks && socks[a] == Owner(task, Outbound))
      ensures protocol == 6 && (family == 2 || family == 10) && !(from == Close && to == SynSent) ==>
        var due := a in old(socks) && ((to == Established && from == SynSent) || (to == Close && from != SynSent));
        && socks == (if to == Close then old(socks) - {a} else old(socks))
        && events == old(events) + (if due && reserved
                                    then [Event(if to == Close then Closed else Connected, a, old(socks)[a], life)]
                                    else [])
        && drops == old(drops) + if due && !reserved then 1 else 0
    {
      if protocol != IPPROTO_TCP { return; }
      if family != AF_INET && family != AF_INET6 { return; }
      if from == Close && to == SynSent {
        if agent { socks := socks - {a}; return; }
        socks := socks[a := Owner(task, Outbound)];
        return;
      }
      if to != Established && to != Close { return; }
      if a !in socks { return; }
      var tracked := socks[a];
      if to == Established {
        if from == SynSent { Record(Connected, a, tracked, reserved, life); }
        return;
      }
      if from != SynSent { Record(Closed, a, tracked, reserved, life); }
      socks := socks - {a};
    }

    method OnAcceptExit(ret: int, fds: seq<Fd>, task: Task, agent: bool, reserved: bool)
      modifies this
      ensures !Resolves(fds, ret) ==> Contents() == old(Contents())
      ensures Resolves(fds, ret) ==>
        var sk := fds[ret];
        Contents() == OnAccept(old(Contents()), sk.addr, task, agent, reserved, sk.closed, sk.life)
      ensures Contents() == old(Contents()) ||
        (0 <= ret < |fds| && fds[ret].Sock? && fds[ret].pointsBack
         && fds[ret].protocol == 6 && (fds[ret].family == 2 || fds[ret].family == 10))
      ensures 0 <= ret < |fds| && fds[ret].Sock? && fds[ret].pointsBack
              && fds[ret].protocol == 6 && (fds[ret].family == 2 || fds[ret].family == 10) ==>
        var a, w := fds[ret].addr, Owner(task, Inbound);
        && socks - {a} == old(socks) - {a}
        && (a in socks <==> !agent && !fds[ret].closed) && (a in socks ==> socks[a] == w)
        && events == old(events) + (if !agent && reserved then [Event(Accepted, a, w, fds[ret].life)] else [])
        && drops == old(drops) + if !agent && !reserved then 1 else 0
    {
      if ret < 0 { return; }
      if ret >= |fds| { return; }
      if fds[ret].NoSock? { return; }
      var sk := fds[ret];
      if !sk.pointsBack { return; }
      if sk.protocol != IPPROTO_TCP { return; }
      if sk.family != AF_INET && sk.family != AF_INET6 { return; }
      var a := sk.addr;
      if agent { socks := socks - {a}; return; }
      var owner := Owner(task, Inbound);
      Record(Accepted, a, owner, reserved, sk.life);
      assert socks[a := owner] - {a} == socks - {a};
      socks := socks[a := owner];
      if sk.closed { socks := socks - {a}; }
    }
  }
}
