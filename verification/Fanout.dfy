/**
 The live event stream: every connection has a bounded queue of its own, and what does
 not fit is counted, never waited for.
 */
module FanoutSpec {
  import opened Options

  type Id = nat
  type Host = nat
  type Ast = nat

  const LIVE_EVENT_CHANNEL_CAPACITY := 4096

  datatype Event = Event(host: Host, body: string)

  /** A connection, its queue, and what its receiver has taken out so far. */
  datatype Conn = Conn(
    id: Id, filter: Option<Ast>, hosts: Option<set<Host>>,
    queue: seq<Event>, received: seq<Event>, dropped: nat, open: bool)

  type Eval = (Event, Ast) -> bool

  /** The host check comes first; no filter lets everything through. */
  predicate Wants(eval: Eval, c: Conn, e: Event) {
    && (c.hosts.Some? ==> e.host in c.hosts.value)
    && (c.filter.Some? ==> eval(e, c.filter.value))
  }

  /** What `publish` does with one event on one connection. */
  function Offered(eval: Eval, c: Conn, e: Event): Conn {
    if !Wants(eval, c, e) then c
    else if c.open && |c.queue| < LIVE_EVENT_CHANNEL_CAPACITY then c.(queue := c.queue + [e])
    else c.(dropped := c.dropped + 1)
  }

  datatype Step =
    | Subscribe(id: Id, filter: Option<Ast>, hosts: Option<set<Host>>)
    | Offer(id: Id, event: Event)
    | Receive(id: Id)
    /** The receiving half is dropped. */
    | Hang(id: Id)
    | SetHosts(id: Id, newHosts: set<Host>)
    | Unsubscribe(id: Id)

  function Fresh(id: Id, filter: Option<Ast>, hosts: Option<set<Host>>): Conn {
    Conn(id, filter, hosts, [], [], 0, true)
  }

  /** The effect of a step on the connection it names. */
  function After(eval: Eval, c: Conn, e: Step): Conn {
    match e
    case Offer(_, event) => Offered(eval, c, event)
    case Receive(_) => if c.queue == [] then c else c.(queue := c.queue[1..], received := c.received + [c.queue[0]])
    case Hang(_) => c.(open := false)
    case SetHosts(_, hosts) => if c.hosts.Some? then c.(hosts := Some(hosts)) else c
    case _ => c
  }

  /** The position of a connection, or the length if there is none. */
  function IndexOf(conns: seq<Conn>, id: Id): (i: nat)
    ensures i <= |conns|
    ensures i < |conns| ==> conns[i].id == id
    ensures forall k :: 0 <= k < i ==> conns[k].id != id
  {
    if conns == [] then 0 else if conns[0].id == id then 0 else 1 + IndexOf(conns[1..], id)
  }

  function Next(eval: Eval, conns: seq<Conn>, e: Step): seq<Conn> {
    var i := IndexOf(conns, e.id);
    if e.Subscribe? then (if i < |conns| then conns else conns + [Fresh(e.id, e.filter, e.hosts)])
    else if i == |conns| then conns
    else if e.Unsubscribe? then conns[..i] + conns[i + 1..]
    else conns[i := After(eval, conns[i], e)]
  }

  function Run(eval: Eval, tr: seq<Step>): seq<Conn> {
    if tr == [] then [] else Next(eval, Run(eval, tr[..|tr| - 1]), tr[|tr| - 1])
  }

  lemma RunSnoc(eval: Eval, tr: seq<Step>, e: Step)
    ensures Run(eval, tr + [e]) == Next(eval, Run(eval, tr), e)
  {
    assert (tr + [e])[..|tr|] == tr;
  }

  predicate Distinct(conns: seq<Conn>) { forall i, j :: 0 <= i < j < |conns| ==> conns[i].id != conns[j].id }

  function Find(conns: seq<Conn>, id: Id): Option<Conn> {
    if IndexOf(conns, id) < |conns| then Some(conns[IndexOf(conns, id)]) else None
  }

  // ---- a connection by itself

  function SoloStep(eval: Eval, c: Option<Conn>, id: Id, e: Step): Option<Conn> {
    if e.id != id then c
    else if e.Subscribe? then (if c.Some? then c else Some(Fresh(id, e.filter, e.hosts)))
    else if c.None? || e.Unsubscribe? then None
    else Some(After(eval, c.value, e))
  }

  /** Connection `id` as its own steps alone make it. */
  function Solo(eval: Eval, tr: seq<Step>, id: Id): Option<Conn> {
    if tr == [] then None else SoloStep(eval, Solo(eval, tr[..|tr| - 1], id), id, tr[|tr| - 1])
  }

  /** The events offered to `id` since it subscribed that matched its filter and hosts at that moment. */
  function Matched(eval: Eval, tr: seq<Step>, id: Id): seq<Event> {
    if tr == [] then []
    else
      var prev, e := tr[..|tr| - 1], tr[|tr| - 1];
      var c := Solo(eval, prev, id);
      if e.id != id then Matched(eval, prev, id)
      else if c.None? || e.Unsubscribe? then []
      else if e.Offer? && Wants(eval, c.value, e.event) then Matched(eval, prev, id) + [e.event]
      else Matched(eval, prev, id)
  }

  lemma FindAt(conns: seq<Conn>, id: Id, i: nat)
    requires Distinct(conns) && i < |conns| && conns[i].id == id
    ensures IndexOf(conns, id) == i && Find(conns, id) == Some(conns[i])
  {
  }

  lemma FindNone(conns: seq<Conn>, id: Id)
    requires forall k :: 0 <= k < |conns| ==> conns[k].id != id
    ensures Find(conns, id) == None
  {
  }

  lemma AfterKeepsId(eval: Eval, c: Conn, e: Step)
    ensures After(eval, c, e).id == c.id
  {
  }

  lemma RemovedAlone(conns: seq<Conn>, i: nat, id: Id)
    requires Distinct(conns) && i < |conns|
    ensures var after := conns[..i] + conns[i + 1..];
      Distinct(after) && Find(after, id) == if conns[i].id == id then None else Find(conns, id)
  {
    var after, k := conns[..i] + conns[i + 1..], IndexOf(conns, id);
    RemovedAt(conns, i);
    if k == |conns| || k == i {
      assert forall j :: 0 <= j < |after| ==> after[j].id != id;
      FindNone(after, id);
    } else {
      FindAt(after, id, if k < i then k else k - 1);
    }
  }

  lemma RemovedAt(conns: seq<Conn>, i: nat)
    requires Distinct(conns) && i < |conns|
    ensures var after := conns[..i] + conns[i + 1..];
      && |after| == |conns| - 1 && Distinct(after)
      && forall j :: 0 <= j < |after| ==> after[j] == if j < i then conns[j] else conns[j + 1]
  {
  }

  lemma UpdatedAlone(conns: seq<Conn>, i: nat, c: Conn, id: Id)
    requires Distinct(conns) && i < |conns| && c.id == conns[i].id
    ensures Distinct(conns[i := c]) && Find(conns[i := c], id) == if c.id == id then Some(c) else Find(conns, id)
  {
    var after, k := conns[i := c], IndexOf(conns, id);
    if k < |conns| { FindAt(after, id, k); } else { FindNone(after, id); }
  }

  lemma AddedAlone(conns: seq<Conn>, c: Conn, id: Id)
    requires Distinct(conns) && forall k :: 0 <= k < |conns| ==> conns[k].id != c.id
    ensures Distinct(conns + [c]) && Find(conns + [c], id) == if c.id == id then Some(c) else Find(conns, id)
  {
    var after, k := conns + [c], IndexOf(conns, id);
    if k < |conns| { FindAt(after, id, k); }
    else if c.id == id { FindAt(after, id, |conns|); }
    else { FindNone(after, id); }
  }

  lemma StepAlone(eval: Eval, conns: seq<Conn>, e: Step, id: Id)
    requires Distinct(conns)
    ensures Distinct(Next(eval, conns, e))
    ensures Find(Next(eval, conns, e), id) == SoloStep(eval, Find(conns, id), id, e)
  {
    var i := IndexOf(conns, e.id);
    if e.Subscribe? {
      if i == |conns| { AddedAlone(conns, Fresh(e.id, e.filter, e.hosts), id); }
    } else if i < |conns| {
      if e.Unsubscribe? {
        RemovedAlone(conns, i, id);
      } else {
        AfterKeepsId(eval, conns[i], e);
        UpdatedAlone(conns, i, After(eval, conns[i], e), id);
      }
    }
  }

  /** What a connection holds is decided by its own steps: no other connection, however full, matters. */
  lemma {:induction false} NonInterference(eval: Eval, tr: seq<Step>, id: Id)
    ensures Distinct(Run(eval, tr)) && Find(Run(eval, tr), id) == Solo(eval, tr, id)
  {
    if tr == [] {
      FindNone([], id);
    } else {
      NonInterference(eval, tr[..|tr| - 1], id);
      StepAlone(eval, Run(eval, tr[..|tr| - 1]), tr[|tr| - 1], id);
    }
  }

  // ---- accounting

  /** `xs` is `ys` with some elements left out. */
  predicate Subsequence<T(==)>(xs: seq<T>, ys: seq<T>) {
    if xs == [] then true
    else if ys == [] then false
    else
      var m, n := |xs| - 1, |ys| - 1;
      Subsequence(xs, ys[..n]) || (xs[m] == ys[n] && Subsequence(xs[..m], ys[..n]))
  }

  lemma SubsequenceSnoc<T>(xs: seq<T>, ys: seq<T>, y: T)
    requires Subsequence(xs, ys)
    ensures Subsequence(xs, ys + [y]) && Subsequence(xs + [y], ys + [y])
  {
    assert (ys + [y])[..|ys|] == ys && (xs + [y])[..|xs|] == xs;
  }

  /**
   For every live connection: what matched is what was received, is queued or was counted
   as dropped; what was kept is in order; and the queue is within bounds.
   */
  lemma {:induction false} Accounted(eval: Eval, tr: seq<Step>, id: Id)
    requires Solo(eval, tr, id).Some?
    ensures var c, matched := Solo(eval, tr, id).value, Matched(eval, tr, id);
      && |matched| == |c.received| + |c.queue| + c.dropped
      && Subsequence(c.received + c.queue, matched)
      && |c.queue| <= LIVE_EVENT_CHANNEL_CAPACITY
  {
    var prev, e := tr[..|tr| - 1], tr[|tr| - 1];
    var was := Solo(eval, prev, id);
    if was.Some? {
      Accounted(eval, prev, id);
      var c, matched := was.value, Matched(eval, prev, id);
      if e.id == id {
        if e.Offer? {
          SubsequenceSnoc(c.received + c.queue, matched, e.event);
          assert c.received + (c.queue + [e.event]) == c.received + c.queue + [e.event];
        } else if e.Receive? && c.queue != [] {
          assert c.received + [c.queue[0]] + c.queue[1..] == c.received + c.queue;
        }
      }
    }
  }

  // ---- what a trace says about a connection

  /** The step at `k` is the subscription under which `id` is connected after `tr`. */
  ghost predicate JoinedAt(tr: seq<Step>, id: Id, k: int) {
    && 0 <= k < |tr| && tr[k].Subscribe? && tr[k].id == id
    && (forall g :: k < g < |tr| ==> !(tr[g].Unsubscribe? && tr[g].id == id))
    && (forall g :: 0 <= g < k && tr[g].Subscribe? && tr[g].id == id ==> LeftBetween(tr, id, g, k))
  }

  ghost predicate LeftBetween(tr: seq<Step>, id: Id, g: int, k: int)
    requires 0 <= g <= k <= |tr|
  {
    exists b :: g < b < k && tr[b].Unsubscribe? && tr[b].id == id
  }

  /** The hosts given last: by a change since the subscription at `k`, or else by it. */
  function HostsSince(tr: seq<Step>, id: Id, k: nat): set<Host>
    requires k < |tr| && tr[k].Subscribe? && tr[k].hosts.Some?
  {
    var e := tr[|tr| - 1];
    if |tr| == k + 1 then tr[k].hosts.value
    else if e.SetHosts? && e.id == id then e.newHosts
    else HostsSince(tr[..|tr| - 1], id, k)
  }

  ghost predicate HungUp(tr: seq<Step>, id: Id, k: nat) { exists g :: k < g < |tr| && tr[g] == Hang(id) }

  /** An event that the subscription at `k` is for: of a host it is scoped to, and let through by its filter. */
  predicate Entitled(eval: Eval, tr: seq<Step>, id: Id, k: nat, e: Event)
    requires k < |tr| && tr[k].Subscribe?
  {
    && (tr[k].hosts.Some? ==> e.host in HostsSince(tr, id, k))
    && (tr[k].filter.Some? ==> eval(e, tr[k].filter.value))
  }

  /** The events offered since that the subscription was for at that moment. */
  function EntitledOffers(eval: Eval, tr: seq<Step>, id: Id, k: nat): seq<Event>
    requires k < |tr| && tr[k].Subscribe?
  {
    if |tr| == k + 1 then []
    else
      var prev, e := tr[..|tr| - 1], tr[|tr| - 1];
      if e.Offer? && e.id == id && Entitled(eval, prev, id, k, e.event)
      then EntitledOffers(eval, prev, id, k) + [e.event]
      else EntitledOffers(eval, prev, id, k)
  }

  lemma JoinedBefore(tr: seq<Step>, id: Id, k: int)
    requires JoinedAt(tr, id, k) && k < |tr| - 1
    ensures JoinedAt(tr[..|tr| - 1], id, k)
  {
    var prev := tr[..|tr| - 1];
    forall g | 0 <= g < k && prev[g].Subscribe? && prev[g].id == id ensures LeftBetween(prev, id, g, k) {
      assert tr[g] == prev[g] && LeftBetween(tr, id, g, k);
      var b :| g < b < k && tr[b].Unsubscribe? && tr[b].id == id;
      assert prev[b] == tr[b];
    }
  }

  /** Nobody is connected under an id that has subscribed and always left again. */
  lemma {:induction false} NotConnected(eval: Eval, tr: seq<Step>, id: Id)
    requires forall g :: 0 <= g < |tr| && tr[g].Subscribe? && tr[g].id == id ==> LeftBetween(tr, id, g, |tr|)
    ensures Solo(eval, tr, id).None?
  {
    if tr != [] {
      var n := |tr| - 1;
      var prev, e := tr[..n], tr[n];
      if !(e.Unsubscribe? && e.id == id) {
        forall g | 0 <= g < n && prev[g].Subscribe? && prev[g].id == id ensures LeftBetween(prev, id, g, n) {
          assert LeftBetween(tr, id, g, |tr|);
          var b :| g < b < |tr| && tr[b].Unsubscribe? && tr[b].id == id;
          assert prev[b] == tr[b];
        }
        NotConnected(eval, prev, id);
      }
    }
  }

  /** What the machine keeps about a connection is what the trace says. */
  lemma {:induction false} KeptAsTold(eval: Eval, tr: seq<Step>, id: Id, k: int)
    requires JoinedAt(tr, id, k)
    ensures Solo(eval, tr, id).Some?
    ensures var c := Solo(eval, tr, id).value;
      && c.filter == tr[k].filter && c.hosts.Some? == tr[k].hosts.Some?
      && (c.hosts.Some? ==> c.hosts.value == HostsSince(tr, id, k)) && c.open == !HungUp(tr, id, k)
    ensures Matched(eval, tr, id) == EntitledOffers(eval, tr, id, k)
  {
    var n := |tr| - 1;
    var prev, e := tr[..n], tr[n];
    if k == n {
      forall g | 0 <= g < n && prev[g].Subscribe? && prev[g].id == id ensures LeftBetween(prev, id, g, n) {
        assert tr[g] == prev[g] && LeftBetween(tr, id, g, k);
        var b :| g < b < k && tr[b].Unsubscribe? && tr[b].id == id;
        assert prev[b] == tr[b];
      }
      NotConnected(eval, prev, id);
    } else {
      JoinedBefore(tr, id, k);
      KeptAsTold(eval, prev, id, k);
      assert prev[k] == tr[k];
      HungSnoc(tr, id, k);
    }
  }

  lemma HungSnoc(tr: seq<Step>, id: Id, k: nat)
    requires k < |tr| - 1
    ensures HungUp(tr, id, k) <==> HungUp(tr[..|tr| - 1], id, k) || tr[|tr| - 1] == Hang(id)
  {
    var prev := tr[..|tr| - 1];
    if HungUp(prev, id, k) {
      var g :| k < g < |prev| && prev[g] == Hang(id);
      assert tr[g] == Hang(id);
    }
    if HungUp(tr, id, k) && tr[|tr| - 1] != Hang(id) {
      var g :| k < g < |tr| && tr[g] == Hang(id);
      assert prev[g] == Hang(id);
    }
  }

  /** Someone is connected under an id exactly if it has subscribed and not left since. */
  lemma {:induction false} ConnectedIsJoined(eval: Eval, tr: seq<Step>, id: Id)
    ensures Find(Run(eval, tr), id).Some? <==> exists k :: JoinedAt(tr, id, k)
  {
    NonInterference(eval, tr, id);
    if k :| JoinedAt(tr, id, k) { KeptAsTold(eval, tr, id, k); }
    if Solo(eval, tr, id).Some? { var _ := FindJoin(eval, tr, id); }
  }

  lemma {:induction false} FindJoin(eval: Eval, tr: seq<Step>, id: Id) returns (k: int)
    requires Solo(eval, tr, id).Some?
    ensures JoinedAt(tr, id, k)
    decreases |tr|
  {
    var n := |tr| - 1;
    var prev, e := tr[..n], tr[n];
    if Solo(eval, prev, id).Some? {
      k := FindJoin(eval, prev, id);
      forall g | 0 <= g < k && tr[g].Subscribe? && tr[g].id == id ensures LeftBetween(tr, id, g, k) {
        assert prev[g] == tr[g] && LeftBetween(prev, id, g, k);
        var b :| g < b < k && prev[b].Unsubscribe? && prev[b].id == id;
        assert tr[b] == prev[b];
      }
      assert forall g :: k < g < n ==> prev[g] == tr[g];
    } else {
      k := n;
      forall g | 0 <= g < k && tr[g].Subscribe? && tr[g].id == id ensures LeftBetween(tr, id, g, k) {
        if !LeftBetween(tr, id, g, k) { StillJoined(eval, tr, id, g); }
      }
    }
  }

  /** Who subscribed and has not left is connected. */
  lemma {:induction false} StillJoined(eval: Eval, tr: seq<Step>, id: Id, g: int)
    requires 0 <= g < |tr| - 1 && tr[g].Subscribe? && tr[g].id == id && !LeftBetween(tr, id, g, |tr| - 1)
    ensures Solo(eval, tr[..|tr| - 1], id).Some?
    decreases |tr|
  {
    var prev := tr[..|tr| - 1];
    if g < |prev| - 1 {
      forall b | g < b < |prev| ensures !(prev[b].Unsubscribe? && prev[b].id == id) { assert prev[b] == tr[b]; }
      StillJoined(eval, prev, id, g);
    }
  }

  /**
   For every connection among any others: the events it was entitled to are those received, queued or
   counted as dropped; it gets no others; what it gets is in order; and the queue is within bounds.
   */
  lemma LiveConnections(eval: Eval, tr: seq<Step>, id: Id, k: int)
    requires JoinedAt(tr, id, k)
    ensures Find(Run(eval, tr), id).Some?
    ensures var c, offers := Find(Run(eval, tr), id).value, EntitledOffers(eval, tr, id, k);
      && |offers| == |c.received| + |c.queue| + c.dropped
      && Subsequence(c.received + c.queue, offers)
      && |c.queue| <= LIVE_EVENT_CHANNEL_CAPACITY
  {
    NonInterference(eval, tr, id);
    KeptAsTold(eval, tr, id, k);
    Accounted(eval, tr, id);
  }

  /** So each event it gets was offered to it while it was scoped to its host, and its filter let it through. */
  lemma OnlyEntitled(eval: Eval, tr: seq<Step>, id: Id, k: int, x: Event)
    requires JoinedAt(tr, id, k) && Find(Run(eval, tr), id).Some?
    requires x in Find(Run(eval, tr), id).value.received + Find(Run(eval, tr), id).value.queue
    ensures exists j ::
      && k < j < |tr| && tr[j] == Offer(id, x)
      && (tr[k].hosts.Some? ==> x.host in HostsSince(tr[..j], id, k))
      && (tr[k].filter.Some? ==> eval(x, tr[k].filter.value))
  {
    LiveConnections(eval, tr, id, k);
    var c := Find(Run(eval, tr), id).value;
    InBoth(c.received + c.queue, EntitledOffers(eval, tr, id, k), x);
    var j := FindOffer(eval, tr, id, k, x);
  }

  lemma {:induction false} InBoth<T>(xs: seq<T>, ys: seq<T>, x: T)
    requires Subsequence(xs, ys) && x in xs
    ensures x in ys
    decreases |ys|
  {
    var m, n := |xs| - 1, |ys| - 1;
    if Subsequence(xs, ys[..n]) {
      InBoth(xs, ys[..n], x);
    } else if x != xs[m] {
      assert x in xs[..m];
      InBoth(xs[..m], ys[..n], x);
    }
  }

  lemma {:induction false} FindOffer(eval: Eval, tr: seq<Step>, id: Id, k: nat, x: Event) returns (j: int)
    requires k < |tr| && tr[k].Subscribe? && x in EntitledOffers(eval, tr, id, k)
    ensures k < j < |tr| && tr[j] == Offer(id, x) && Entitled(eval, tr[..j], id, k, x)
    decreases |tr|
  {
    var prev, e := tr[..|tr| - 1], tr[|tr| - 1];
    if x in EntitledOffers(eval, prev, id, k) {
      j := FindOffer(eval, prev, id, k, x);
      assert prev[..j] == tr[..j] && prev[j] == tr[j];
    } else {
      j := |tr| - 1;
    }
  }

  /** What an offer does: queued if it is for the connection and has room there, else counted, else nothing. */
  lemma OfferDecides(eval: Eval, tr: seq<Step>, id: Id, k: int, e: Event)
    requires JoinedAt(tr, id, k)
    ensures Find(Run(eval, tr), id).Some? && Find(Run(eval, tr + [Offer(id, e)]), id).Some?
    ensures var c, c2 := Find(Run(eval, tr), id).value, Find(Run(eval, tr + [Offer(id, e)]), id).value;
      c2 == if (tr[k].hosts.Some? && e.host !in HostsSince(tr, id, k))
               || (tr[k].filter.Some? && !eval(e, tr[k].filter.value)) then c
            else if !HungUp(tr, id, k) && |c.queue| < 4096 then c.(queue := c.queue + [e])
            else c.(dropped := c.dropped + 1)
  {
    NonInterference(eval, tr, id);
    NonInterference(eval, tr + [Offer(id, e)], id);
    KeptAsTold(eval, tr, id, k);
    assert (tr + [Offer(id, e)])[..|tr|] == tr;
  }

  // ---- a batch

  /** Steps of receivers only: they need no lock, so they can fall anywhere in a publish. */
  predicate Receiving(tr: seq<Step>) { forall i :: 0 <= i < |tr| ==> tr[i].Receive? || tr[i].Hang? }

  /** What the receivers do before event `j` is offered to connection `i`. */
  type Between = (nat, nat) -> seq<Step>

  ghost predicate OnlyReceivers(between: Between) { forall j, i :: Receiving(between(j, i)) }

  /** One event to the connections in turn. */
  function Row(ids: seq<Id>, e: Event, j: nat, between: Between): seq<Step> {
    if ids == [] then []
    else
      var n := |ids| - 1;
      Row(ids[..n], e, j, between) + (between(j, n) + [Offer(ids[n], e)])
  }

  /** The steps of one publish: event by event, with what the receivers do in between. */
  function Batch(ids: seq<Id>, es: seq<Event>, between: Between): seq<Step> {
    if es == [] then []
    else
      var n := |es| - 1;
      Batch(ids, es[..n], between) + Row(ids, es[n], n, between)
  }

  /** The events offered to `id` by some steps, in order. */
  function OfferedTo(tr: seq<Step>, id: Id): seq<Event> {
    if tr == [] then []
    else
      var e := tr[|tr| - 1];
      OfferedTo(tr[..|tr| - 1], id) + if e.Offer? && e.id == id then [e.event] else []
  }

  lemma {:induction false} OfferedToConcat(a: seq<Step>, b: seq<Step>, id: Id)
    ensures OfferedTo(a + b, id) == OfferedTo(a, id) + OfferedTo(b, id)
  {
    if b == [] {
      assert a + b == a;
    } else {
      OfferedToConcat(a, b[..|b| - 1], id);
      assert (a + b)[..|a + b| - 1] == a + b[..|b| - 1];
    }
  }

  lemma {:induction false} ReceiversOfferNothing(tr: seq<Step>, id: Id)
    requires Receiving(tr)
    ensures OfferedTo(tr, id) == []
  {
    if tr != [] { ReceiversOfferNothing(tr[..|tr| - 1], id); }
  }

  predicate NoRepeat(ids: seq<Id>) { forall i, j :: 0 <= i < j < |ids| ==> ids[i] != ids[j] }

  lemma LastOffer(pre: seq<Step>, a: Id, e: Event, id: Id)
    requires Receiving(pre)
    ensures OfferedTo(pre + [Offer(a, e)], id) == Once(e, a == id)
  {
    ReceiversOfferNothing(pre, id);
    assert (pre + [Offer(a, e)])[..|pre|] == pre;
  }

  lemma {:induction false} RowOffersOnce(ids: seq<Id>, e: Event, j: nat, between: Between, id: Id)
    requires OnlyReceivers(between) && NoRepeat(ids)
    ensures OfferedTo(Row(ids, e, j, between), id) == Once(e, id in ids)
  {
    if ids != [] {
      var n := |ids| - 1;
      RowOffersOnce(ids[..n], e, j, between, id);
      OfferedToConcat(Row(ids[..n], e, j, between), between(j, n) + [Offer(ids[n], e)], id);
      LastOffer(between(j, n), ids[n], e, id);
      OneOfThem(ids, e, id);
    }
  }

  function Once(e: Event, b: bool): seq<Event> { if b then [e] else [] }

  lemma OneOfThem(ids: seq<Id>, e: Event, id: Id)
    requires ids != [] && NoRepeat(ids)
    ensures var n := |ids| - 1; Once(e, id in ids[..n]) + Once(e, ids[n] == id) == Once(e, id in ids)
  {
    var n := |ids| - 1;
    assert ids == ids[..n] + [ids[n]];
    assert ids[n] !in ids[..n];
  }

  lemma LastRow(ids: seq<Id>, es: seq<Event>, e: Event, between: Between, id: Id)
    requires OnlyReceivers(between) && NoRepeat(ids) && id in ids
    ensures OfferedTo(Batch(ids, es + [e], between), id) == OfferedTo(Batch(ids, es, between), id) + [e]
  {
    assert (es + [e])[..|es|] == es;
    RowOffersOnce(ids, e, |es|, between, id);
    OfferedToConcat(Batch(ids, es, between), Row(ids, e, |es|, between), id);
  }

  /** A publish offers each connection the whole batch in order, whatever the receivers do meanwhile. */
  lemma {:induction false} BatchOffersAll(ids: seq<Id>, es: seq<Event>, between: Between, id: Id)
    requires OnlyReceivers(between) && NoRepeat(ids) && id in ids
    ensures OfferedTo(Batch(ids, es, between), id) == es
  {
    if es != [] {
      var init, last := es[..|es| - 1], es[|es| - 1];
      BatchOffersAll(ids, init, between, id);
      LastRow(ids, init, last, between, id);
      assert init + [last] == es;
    }
  }

  lemma Regroup(t: seq<Step>, a: seq<Step>, b: seq<Step>)
    ensures t + a + b == t + (a + b)
  {
  }

  lemma StepsGrow(t: seq<Step>, steps: seq<Step>, i: nat)
    requires i < |steps|
    ensures t + steps[..i] + [steps[i]] == t + steps[..i + 1]
  {
    assert steps[..i + 1] == steps[..i] + [steps[i]];
    Regroup(t, steps[..i], [steps[i]]);
  }

  lemma RowGrows(t: seq<Step>, ids: seq<Id>, i: nat, e: Event, j: nat, between: Between)
    requires i < |ids|
    ensures t + Row(ids[..i], e, j, between) + between(j, i) + [Offer(ids[i], e)]
            == t + Row(ids[..i + 1], e, j, between)
  {
    assert ids[..i + 1][..i] == ids[..i];
    var row, mid, last := Row(ids[..i], e, j, between), between(j, i), [Offer(ids[i], e)];
    assert Row(ids[..i + 1], e, j, between) == row + (mid + last);
    Regroup(t, row, mid + last);
    Regroup(t + row, mid, last);
  }

  lemma BatchGrows(t: seq<Step>, ids: seq<Id>, es: seq<Event>, j: nat, between: Between)
    requires j < |es|
    ensures t + Batch(ids, es[..j], between) + Row(ids, es[j], j, between) == t + Batch(ids, es[..j + 1], between)
  {
    assert es[..j + 1][..j] == es[..j];
    Regroup(t, Batch(ids, es[..j], between), Row(ids, es[j], j, between));
  }

  function Ids(conns: seq<Conn>): (ids: seq<Id>)
    ensures |ids| == |conns| && forall i :: 0 <= i < |conns| ==> ids[i] == conns[i].id
  {
    if conns == [] then [] else Ids(conns[..|conns| - 1]) + [conns[|conns| - 1].id]
  }

  /** Steps that neither add nor remove connections keep their order. */
  lemma SameIds(eval: Eval, conns: seq<Conn>, e: Step)
    requires !e.Subscribe? && !e.Unsubscribe?
    ensures |Next(eval, conns, e)| == |conns|
    ensures forall i :: 0 <= i < |conns| ==> Next(eval, conns, e)[i].id == conns[i].id
  {
    var i := IndexOf(conns, e.id);
    if i < |conns| { AfterKeepsId(eval, conns[i], e); }
  }
}

module Fanout {
  import opened Options
  import opened FanoutSpec

  class LiveEventBroadcaster {
    const eval: Eval
    var connections: seq<Conn>
    /** Everything that has happened. */
    ghost var trace: seq<Step>

    ghost predicate Valid()
      reads this
    {
      connections == Run(eval, trace) && Distinct(connections)
    }

    constructor (eval: Eval)
      ensures Valid() && trace == [] && this.eval == eval
    {
      this.eval := eval;
      connections, trace := [], [];
    }

    /** Book-keeping of one step. */
    ghost method Record(e: Step)
      requires Valid()
      modifies this`trace
      ensures trace == old(trace) + [e] && Run(eval, trace) == Next(eval, connections, e)
      ensures Distinct(Next(eval, connections, e))
    {
      RunSnoc(eval, trace, e);
      StepAlone(eval, connections, e, e.id);
      trace := trace + [e];
    }

    method SubscribeScoped(id: Id, filter: Option<Ast>, hosts: Option<set<Host>>)
      requires Valid() && Find(connections, id).None?
      modifies this
      ensures Valid() && trace == old(trace) + [Subscribe(id, filter, hosts)]
    {
      Record(Subscribe(id, filter, hosts));
      connections := connections + [Conn(id, filter, hosts, [], [], 0, true)];
    }

    method Position(id: Id) returns (i: nat)
      ensures i == IndexOf(connections, id)
    {
      i := 0;
      while i < |connections|
        invariant i <= |connections| && forall k :: 0 <= k < i ==> connections[k].id != id
      {
        if connections[i].id == id { return; }
        i := i + 1;
      }
    }

    /** No effect on an unscoped connection. */
    method SetHosts(id: Id, hosts: set<Host>)
      requires Valid()
      modifies this
      ensures Valid() && trace == old(trace) + [FanoutSpec.SetHosts(id, hosts)]
    {
      Record(FanoutSpec.SetHosts(id, hosts));
      var i := Position(id);
      if i < |connections| && connections[i].hosts.Some? {
        connections := connections[i := connections[i].(hosts := Some(hosts))];
      }
    }

    method Unsubscribe(id: Id)
      requires Valid()
      modifies this
      ensures Valid() && trace == old(trace) + [FanoutSpec.Unsubscribe(id)]
    {
      Record(FanoutSpec.Unsubscribe(id));
      var i := Position(id);
      if i < |connections| { connections := connections[..i] + connections[i + 1..]; }
    }

    /** The receiving end takes an event out, or goes away. */
    method ReceiverStep(e: Step)
      requires Valid() && (e.Receive? || e.Hang?)
      modifies this
      ensures Valid() && trace == old(trace) + [e] && Ids(connections) == Ids(old(connections))
    {
      Record(e);
      SameIds(eval, connections, e);
      var i := Position(e.id);
      if i < |connections| {
        var c := connections[i];
        if e.Hang? {
          c := c.(open := false);
        } else if c.queue != [] {
          c := c.(queue := c.queue[1..], received := c.received + [c.queue[0]]);
        }
        connections := connections[i := c];
      }
      SameIdList(old(connections), connections);
    }

    lemma SameIdList(a: seq<Conn>, b: seq<Conn>)
      requires |a| == |b| && forall i :: 0 <= i < |a| ==> a[i].id == b[i].id
      ensures Ids(a) == Ids(b)
    {
    }

    method Receivers(steps: seq<Step>)
      requires Valid() && Receiving(steps)
      modifies this
      ensures Valid() && trace == old(trace) + steps && Ids(connections) == Ids(old(connections))
    {
      for i := 0 to |steps|
        invariant Valid() && trace == old(trace) + steps[..i] && Ids(connections) == Ids(old(connections))
      {
        ReceiverStep(steps[i]);
        StepsGrow(old(trace), steps, i);
      }
      assert steps[..|steps|] == steps;
    }

    /** The body of the two loops: one event to one connection, without waiting. */
    method OfferTo(i: nat, event: Event)
      requires Valid() && i < |connections|
      modifies this
      ensures Valid() && Ids(connections) == Ids(old(connections))
      ensures trace == old(trace) + [Offer(old(connections)[i].id, event)]
    {
      var conn := connections[i];
      Record(Offer(conn.id, event));
      SameIds(eval, connections, Offer(conn.id, event));
      FindAt(connections, conn.id, i);
      assert connections[i := conn] == connections;
      var next := TrySend(conn, event);
      connections := connections[i := next];
      SameIdList(old(connections), connections);
    }

    /** The checks, then a send that does not wait. */
    method TrySend(conn: Conn, event: Event) returns (next: Conn)
      ensures next == Offered(eval, conn, event)
    {
      if conn.hosts.Some? {
        if event.host !in conn.hosts.value { return conn; }
      }
      var matches := if conn.filter.Some? then eval(event, conn.filter.value) else true;
      if !matches { return conn; }
      if conn.open && |conn.queue| < LIVE_EVENT_CHANNEL_CAPACITY {
        return conn.(queue := conn.queue + [event]);
      }
      return conn.(dropped := conn.dropped + 1);
    }

    method PublishTo(i: nat, event: Event, before: seq<Step>)
      requires Valid() && i < |connections| && Receiving(before)
      modifies this
      ensures Valid() && Ids(connections) == Ids(old(connections))
      ensures trace == old(trace) + before + [Offer(Ids(old(connections))[i], event)]
    {
      Receivers(before);
      OfferTo(i, event);
    }

    /** The inner loop: one event to every connection, with whatever receivers do in between. */
    method PublishOne(event: Event, j: nat, between: Between)
      requires Valid() && OnlyReceivers(between)
      modifies this
      ensures Valid() && Ids(connections) == Ids(old(connections))
      ensures trace == old(trace) + Row(Ids(old(connections)), event, j, between)
    {
      ghost var ids := Ids(connections);
      for i := 0 to |connections|
        invariant Valid() && Ids(connections) == ids && |connections| == |ids|
        invariant trace == old(trace) + Row(ids[..i], event, j, between)
      {
        PublishTo(i, event, between(j, i));
        RowGrows(old(trace), ids, i, event, j, between);
      }
      assert ids[..|ids|] == ids;
    }

    /** `publish`: the steps of the batch, and nothing else. */
    method Publish(events: seq<Event>, between: Between)
      requires Valid() && OnlyReceivers(between)
      modifies this
      ensures Valid() && Ids(connections) == Ids(old(connections))
      ensures trace == old(trace) + Batch(Ids(old(connections)), events, between)
    {
      ghost var ids := Ids(connections);
      for j := 0 to |events|
        invariant Valid() && Ids(connections) == ids
        invariant trace == old(trace) + Batch(ids, events[..j], between)
      {
        PublishOne(events[j], j, between);
        BatchGrows(old(trace), ids, events, j, between);
      }
      assert events[..|events|] == events;
    }
  }
}
