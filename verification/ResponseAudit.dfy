/**
 Response actions and their audit entries: what is written to the audit log, and what is
 dispatched, in which order, for every answer of the stores, the dispatcher and the log.
 */
module ResponseSpec {
  import opened Options

  datatype Action =
    | TerminateProcess | StopService | QuarantineFile | RestoreFile
    | BlockIndicator | IsolateNetwork | DisablePersistence | CollectEvidence

  /** Actions carried out by an agent. */
  predicate Remote(a: Action) { a.TerminateProcess? || a.QuarantineFile? || a.RestoreFile? }

  type Id = nat

  /** An audit target: an entity of the request, a vaulted file on a host, or the marker of an internal error. */
  datatype Target = Entity(id: Id) | Vaulted(quarantine: Id, host: Id) | InternalError

  datatype AuditResult = Success | Failure

  /** The audited action: its canonical name and whether it is a dry run. */
  datatype What = What(action: Action, dryRun: bool)

  const MAX_REASON_BYTES := 1024

  datatype Reason = Reason(blank: bool, bytes: nat)

  datatype Body = Body(
    target: Option<Id>, reason: Reason, dryRun: bool,
    incident: Option<Id>, quarantine: Option<Id>, host: Option<Id>)

  /** One thing the handler does that leaves a trace. */
  datatype Act =
    | Append(what: What, target: Target, result: AuditResult, ok: bool)
    /** The server's own dispatch is begun. */
    | Local(action: Action, target: Target, dryRun: bool)
    /** The command dispatcher is called; the command may reach the agent from now on. */
    | Send(host: Id, action: Action, target: Target, dryRun: bool)

  datatype Outcome =
    | DryRunPreview | EvidenceCollected | Rejected
    | Executed | ExecutionFailed | Refused | TimedOut | AgentOffline | ControlDisabled

  /**
   Why the handler does not get beyond an await: what it waits for panics, and takes the handler
   with it; or the client hangs up, and the request is dropped with its connection.
   */
  datatype Cut = Panicked | CallerGone

  datatype LocalAnswer = Came(outcome: Outcome) | UnknownTarget | OtherError | NoAnswer(cut: Cut)

  datatype CommandAnswer =
    | AnsExecuted | AnsFailed | AnsRefused | AnsDryRunOk
    | ErrTimedOut | ErrOffline | ErrDisabled | ErrFailed
    | NoReply(cut: Cut)

  datatype Resolution = Resolved(host: Id) | Unknown | ResolutionError | NotResolved(cut: Cut)

  datatype Incident = OfTenant(tenant: Option<Id>) | NoIncident | IncidentError | IncidentCut(cut: Cut)

  datatype Tenancy = NoStore | LookupError | OwnedBy(tenant: Option<Id>) | TenancyCut(cut: Cut)

  /** Every answer the handler can get; `appends(k)` is the log's answer to the k-th attempt. */
  datatype World = World(
    scope: Option<nat>, incident: Incident, tenancy: Tenancy, resolution: Resolution,
    local: LocalAnswer, localPreview: LocalAnswer, command: CommandAnswer, appends: nat -> bool)

  // ---- what a request must satisfy before anything is done

  /** Ids for a restore and only for a restore; a target for everything else. */
  predicate WellAddressed(a: Action, b: Body) {
    if a.RestoreFile? then b.quarantine.Some? && b.host.Some? && b.target.None?
    else b.quarantine.None? && b.host.None? && b.target.Some?
  }

  predicate Acceptable(a: Option<Action>, tenant: Option<Id>, b: Body, w: World) {
    && a.Some?
    && !b.reason.blank && b.reason.bytes <= MAX_REASON_BYTES
    && WellAddressed(a.value, b)
    && w.scope.None?
    && (tenant.Some? && b.incident.Some? ==> w.incident == OfTenant(tenant))
  }

  function TargetOf(a: Action, b: Body): Target
    requires WellAddressed(a, b)
  {
    if a.RestoreFile? then Vaulted(b.quarantine.value, b.host.value) else Entity(b.target.value)
  }

  /** Where an agent-backed action goes, if its addressee can be found. */
  function Addressee(a: Action, tenant: Option<Id>, b: Body, w: World): Option<Id>
    requires WellAddressed(a, b)
  {
    if a.RestoreFile? then
      if tenant.None? || w.tenancy == OwnedBy(tenant) then b.host else None
    else if w.resolution.Resolved? then Some(w.resolution.host) else None
  }

  // ---- what is said about a trace

  predicate Effect(x: Act) { (x.Local? || x.Send?) && !x.dryRun }

  /**
   An effect comes right after a successful entry for the same action and target, and
   exactly one further entry for the action is attempted after it.
   */
  predicate Bracketed(acts: seq<Act>, i: nat)
    requires i < |acts| && !acts[i].Append?
  {
    && i > 0 && acts[i - 1] == Append(What(acts[i].action, false), acts[i].target, Success, true)
    && |acts| == i + 2 && acts[i + 1].Append? && acts[i + 1].what == acts[i - 1].what
    && (acts[i + 1].target == acts[i].target || (acts[i].Local? && acts[i + 1].target == InternalError))
  }

  predicate Audited(acts: seq<Act>) {
    forall i :: 0 <= i < |acts| && Effect(acts[i]) ==> Bracketed(acts, i)
  }

  /** What the closing entry of the server's own action says; none if the handler does not see the answer. */
  function LocalVerdict(x: LocalAnswer): Option<AuditResult> {
    match x
    case NoAnswer(_) => None
    case Came(o) => Some(if o.EvidenceCollected? || o.DryRunPreview? then Success else Failure)
    case _ => Some(Failure)
  }

  /** What the entry of a preview says. */
  function PreviewVerdict(x: LocalAnswer): Option<AuditResult> {
    if x.NoAnswer? then None else Some(if x == Came(DryRunPreview) then Success else Failure)
  }

  /** What the entry about a command says. */
  function CommandVerdict(c: CommandAnswer): Option<AuditResult> {
    if c.NoReply? then None else Some(if c.AnsExecuted? || c.AnsDryRunOk? then Success else Failure)
  }

  /** What the one entry of a dry run says, if it is written. */
  function DryVerdict(a: Action, w: World): Option<AuditResult> {
    if !Remote(a) then PreviewVerdict(w.localPreview)
    else if w.command.ErrOffline? || w.command.ErrDisabled? then
      if a.RestoreFile? then Some(Success) else PreviewVerdict(w.localPreview)
    else CommandVerdict(w.command)
  }

  /** What a dry run asks before it writes its entry: the agent, if there is one to ask, or the server itself. */
  function Asked(a: Action, target: Target, host: Option<Id>, w: World): seq<Act> {
    if host.None? then [Local(a, target, true)]
    else
      var ask := [Send(host.value, a, target, true)];
      if (w.command.ErrOffline? || w.command.ErrDisabled?) && !a.RestoreFile? then ask + [Local(a, target, true)]
      else ask
  }

  /** A dry run: no effect, and one entry, the last thing done; none if the handler is cut off. */
  predicate DryTrace(acts: seq<Act>, asked: seq<Act>, a: Action, target: Target,
                     verdict: Option<AuditResult>, w: World) {
    acts == asked + if verdict.Some? then [Append(What(a, true), target, verdict.value, w.appends(0))] else []
  }

  /** A real run: nothing but a failed entry; or entry, effect, and the entry with the verdict, if there is one. */
  predicate RealTrace(acts: seq<Act>, target: Target, effect: Act, verdict: Option<AuditResult>, w: World)
    requires !effect.Append?
  {
    var what := What(effect.action, false);
    if !w.appends(0) then acts == [Append(what, target, Success, false)]
    else
      && |acts| == (if verdict.Some? then 3 else 2)
      && acts[0] == Append(what, target, Success, true) && acts[1] == effect
      && (verdict.Some? ==>
          var about := if effect.Local? && w.local.OtherError? then InternalError else target;
          acts[2] == Append(what, about, verdict.value, w.appends(1)))
  }

  /** The whole account of an acceptable request. */
  predicate HandledTrace(acts: seq<Act>, a: Action, tenant: Option<Id>, b: Body, w: World)
    requires WellAddressed(a, b)
  {
    var target := TargetOf(a, b);
    var host := Addressee(a, tenant, b, w);
    if Remote(a) && host.None? then
      if a.RestoreFile? || w.resolution.NotResolved? then acts == []
      else acts == [Append(What(a, b.dryRun), target, Failure, w.appends(0))]
    else if b.dryRun then
      DryTrace(acts, Asked(a, target, if Remote(a) then host else None, w), a, target, DryVerdict(a, w), w)
    else if Remote(a) then
      RealTrace(acts, target, Send(host.value, a, target, false), CommandVerdict(w.command), w)
    else RealTrace(acts, target, Local(a, target, false), LocalVerdict(w.local), w)
  }

  /** The case in which an effect is not followed by an entry: the handler is cut off while it waits for it. */
  predicate CutOff(a: Option<Action>, tenant: Option<Id>, b: Body, w: World) {
    && Acceptable(a, tenant, b, w) && !b.dryRun && w.appends(0)
    && if Remote(a.value) then Addressee(a.value, tenant, b, w).Some? && w.command.NoReply? else w.local.NoAnswer?
  }

  // ---- what the account means, on the request and the answers alone

  /** What goes to an agent goes to the right one: a restore to the host named, and then only if the tenant owns it. */
  lemma SentToTheRightHost(acts: seq<Act>, a: Action, tenant: Option<Id>, b: Body, w: World, i: nat)
    requires WellAddressed(a, b) && HandledTrace(acts, a, tenant, b, w) && i < |acts| && acts[i].Send?
    ensures a == TerminateProcess || a == QuarantineFile || a == RestoreFile
    ensures acts[i].action == a && acts[i].dryRun == b.dryRun
    ensures a == RestoreFile ==>
      && b.host == Some(acts[i].host) && acts[i].target == Vaulted(b.quarantine.value, b.host.value)
      && (tenant.Some? ==> w.tenancy == OwnedBy(tenant))
    ensures a != RestoreFile ==> w.resolution == Resolved(acts[i].host) && acts[i].target == Entity(b.target.value)
  {
  }

  /** A request that can be addressed is sent, exactly once; a real one only after its entry. */
  lemma SentOnce(acts: seq<Act>, a: Action, tenant: Option<Id>, b: Body, w: World)
    requires WellAddressed(a, b) && HandledTrace(acts, a, tenant, b, w)
    requires a == TerminateProcess || a == QuarantineFile || a == RestoreFile
    requires if a == RestoreFile then tenant.None? || w.tenancy == OwnedBy(tenant) else w.resolution.Resolved?
    ensures b.dryRun ==> acts != [] && acts[0].Send? && forall i :: 0 < i < |acts| ==> !acts[i].Send?
    ensures !b.dryRun && w.appends(0) ==>
      |acts| >= 2 && acts[1].Send? && forall i :: 0 <= i < |acts| && i != 1 ==> !acts[i].Send?
    ensures !b.dryRun && !w.appends(0) ==> forall i :: 0 <= i < |acts| ==> acts[i].Append?
  {
  }

  /** Every entry is about the action asked for, dry or real; its last one says how it went. */
  lemma EntriesSay(acts: seq<Act>, a: Action, tenant: Option<Id>, b: Body, w: World, i: nat)
    requires WellAddressed(a, b) && HandledTrace(acts, a, tenant, b, w) && i < |acts| && acts[i].Append?
    ensures acts[i].what == What(a, b.dryRun)
    ensures if i == 2 && !Remote(a) && w.local == OtherError then acts[i].target == InternalError
            else if a == RestoreFile then acts[i].target == Vaulted(b.quarantine.value, b.host.value)
            else acts[i].target == Entity(b.target.value)
    ensures Remote(a) && a != RestoreFile && !w.resolution.Resolved? ==> acts[i].result == Failure
    ensures !b.dryRun && i == 0 && (Remote(a) && a != RestoreFile ==> w.resolution.Resolved?) ==>
      acts[0].result == Success
    ensures !b.dryRun && i == 2 ==>
      (acts[2].result == Success <==>
       if a == TerminateProcess || a == QuarantineFile || a == RestoreFile
       then w.command == AnsExecuted || w.command == AnsDryRunOk
       else w.local == Came(EvidenceCollected) || w.local == Came(DryRunPreview))
    ensures b.dryRun && i > 0 ==>
      (acts[i].result == Success <==>
       if acts[i - 1].Local? then w.localPreview == Came(DryRunPreview)
       else w.command == AnsExecuted || w.command == AnsDryRunOk || w.command == ErrOffline || w.command == ErrDisabled)
  {
  }

  /** Whatever cuts it off, the entry and the effect are there, and nothing after them. */
  lemma EffectLeftOpen(acts: seq<Act>, a: Action, tenant: Option<Id>, b: Body, w: World)
    requires CutOff(Some(a), tenant, b, w) && HandledTrace(acts, a, tenant, b, w)
    ensures |acts| == 2 && acts[0] == Append(What(a, false), TargetOf(a, b), Success, true) && Effect(acts[1])
    ensures !Audited(acts)
  {
    assert Effect(acts[1]) && !Bracketed(acts, 1);
  }

  function OutcomeOf(c: CommandAnswer): Option<Outcome> {
    match c
    case AnsExecuted => Some(Executed)
    case AnsFailed => Some(ExecutionFailed)
    case AnsRefused => Some(Refused)
    case AnsDryRunOk => Some(DryRunPreview)
    case ErrTimedOut => Some(TimedOut)
    case ErrOffline => Some(AgentOffline)
    case ErrDisabled => Some(ControlDisabled)
    case _ => None
  }

  datatype Mapped = Mapped(status: nat, result: AuditResult)

  function MapOutcome(o: Outcome): Mapped {
    match o
    case Executed => Mapped(200, Success)
    case DryRunPreview => Mapped(200, Success)
    case ExecutionFailed => Mapped(200, Failure)
    case Refused => Mapped(422, Failure)
    case TimedOut => Mapped(504, Failure)
    case AgentOffline => Mapped(409, Failure)
    case ControlDisabled => Mapped(409, Failure)
    case _ => Mapped(500, Failure)
  }
}

module ResponseAudit {
  import opened Options
  import opened ResponseSpec

  /** One request being handled. */
  class Handler {
    const world: World
    const tenant: Option<Id>
    const body: Body
    var acts: seq<Act>
    /** How many entries have been attempted. */
    var attempts: nat

    constructor (world: World, tenant: Option<Id>, body: Body)
      ensures this.world == world && this.tenant == tenant && this.body == body && acts == [] && attempts == 0
    {
      this.world, this.tenant, this.body := world, tenant, body;
      acts, attempts := [], 0;
    }

    /** An attempt to append; the log decides whether it succeeds. */
    method Audit(what: What, target: Target, result: AuditResult) returns (ok: bool)
      modifies this
      ensures acts == old(acts) + [Append(what, target, result, ok)]
      ensures ok == world.appends(old(attempts)) && attempts == old(attempts) + 1
    {
      ok := world.appends(attempts);
      acts, attempts := acts + [Append(what, target, result, ok)], attempts + 1;
    }

    /** The checks before anything is done: they leave no trace. */
    method Prepare(action: Option<Action>) returns (target: Option<Target>, status: nat)
      ensures target.Some? <==> Acceptable(action, tenant, body, world)
      ensures target.Some? ==> target.value == TargetOf(action.value, body)
    {
      if action.None? { return None, 404; }
      var a := action.value;
      if body.reason.blank { return None, 400; }
      if body.reason.bytes > MAX_REASON_BYTES { return None, 400; }
      var restore: Option<(Id, Id)> := None;
      if a.RestoreFile? {
        if body.quarantine.None? || body.host.None? { return None, 422; }
        restore := Some((body.quarantine.value, body.host.value));
      } else if body.quarantine.Some? || body.host.Some? {
        return None, 422;
      }
      if restore.Some? && body.target.Some? { return None, 422; }
      if restore.None? && body.target.None? { return None, 400; }
      var found := if restore.Some? then Vaulted(restore.value.0, restore.value.1) else Entity(body.target.value);
      if world.scope.Some? { return None, world.scope.value; }
      if tenant.Some? && body.incident.Some? {
        if world.incident.IncidentCut? { return None, 0; }
        if world.incident.IncidentError? { return None, 500; }
        if world.incident.NoIncident? || world.incident.tenant != tenant { return None, 404; }
      }
      return Some(found), 0;
    }

    /** `local_dry_run`: a preview without effects, then one entry. */
    method LocalDryRun(a: Action, target: Target) returns (status: nat)
      requires attempts == 0
      modifies this
      ensures DryTrace(acts, old(acts) + [Local(a, target, true)], a, target, PreviewVerdict(world.localPreview), world)
    {
      acts := acts + [Local(a, target, true)];
      var result := Failure;
      match world.localPreview {
        case NoAnswer(_) => return 0;
        case Came(o) => if o.DryRunPreview? { result := Success; }
                        status := if o.DryRunPreview? then 200 else 500;
        case UnknownTarget => status := 400;
        case OtherError => status := 500;
      }
      var _ := Audit(What(a, true), target, result);
    }

    /** The server's own execution: entry, dispatch, entry. */
    method LocalReal(a: Action, target: Target) returns (status: nat)
      requires acts == [] && attempts == 0
      modifies this
      ensures RealTrace(acts, target, Local(a, target, false), LocalVerdict(world.local), world)
    {
      var first := Audit(What(a, false), target, Success);
      if !first { return 500; }
      acts := acts + [Local(a, target, false)];
      var closing, result := target, Failure;
      match world.local {
        case NoAnswer(_) => return 0;
        case Came(o) =>
          match o {
            case DryRunPreview => result, status := Success, 200;
            case EvidenceCollected => result, status := Success, 200;
            case Rejected => status := 501;
            case _ => status := 500;
          }
        case UnknownTarget => status := 400;
        case OtherError => closing, status := InternalError, 500;
      }
      var _ := Audit(What(a, false), closing, result);
    }

    /** Finds the addressee; only an unresolved target of an ordinary action leaves an entry. */
    method Resolve(a: Action, target: Target) returns (host: Option<Id>, status: nat)
      requires WellAddressed(a, body) && acts == [] && attempts == 0
      modifies this
      ensures host == Addressee(a, tenant, body, world)
      ensures host.Some? || a.RestoreFile? || world.resolution.NotResolved? ==> acts == [] && attempts == 0
      ensures host.None? && !a.RestoreFile? && !world.resolution.NotResolved? ==>
        acts == [Append(What(a, body.dryRun), target, Failure, world.appends(0))]
    {
      if a.RestoreFile? {
        if tenant.Some? {
          if world.tenancy.NoStore? { return None, 404; }
          if world.tenancy.TenancyCut? { return None, 0; }
          if world.tenancy.LookupError? { return None, 500; }
          if world.tenancy.tenant != tenant { return None, 404; }
        }
        return body.host, 0;
      }
      match world.resolution {
        case Resolved(h) => return Some(h), 0;
        case NotResolved(_) => return None, 0;
        case Unknown =>
          var _ := Audit(What(a, body.dryRun), target, Failure);
          return None, if tenant.Some? then 404 else 400;
        case ResolutionError =>
          var _ := Audit(What(a, body.dryRun), target, Failure);
          return None, 500;
      }
    }

    /** One entry, the last thing done. */
    method Conclude(a: Action, target: Target, result: AuditResult)
      requires attempts == 0
      modifies this
      ensures DryTrace(acts, old(acts), a, target, Some(result), world)
    {
      var _ := Audit(What(a, true), target, result);
    }

    /** `run_dry`: the agent validates, or the server previews when there is none; one entry in every case. */
    method RunDry(a: Action, target: Target, host: Id) returns (status: nat)
      requires acts == [] && attempts == 0 && body.dryRun && Remote(a)
      modifies this
      ensures DryTrace(acts, Asked(a, target, Some(host), world), a, target, DryVerdict(a, world), world)
    {
      acts := acts + [Send(host, a, target, true)];
      if world.command.NoReply? { return 0; }
      var outcome := OutcomeOf(world.command);
      if outcome.None? {
        Conclude(a, target, Failure);
        return 502;
      }
      if outcome.value.AgentOffline? || outcome.value.ControlDisabled? {
        if a.RestoreFile? {
          Conclude(a, target, Success);
          return 200;
        }
        status := LocalDryRun(a, target);
        return;
      }
      var m := MapOutcome(outcome.value);
      Conclude(a, target, m.result);
      return m.status;
    }

    /** `run_real`: entry, command, entry; no command without the first entry. */
    method RunReal(a: Action, target: Target, host: Id) returns (status: nat)
      requires acts == [] && attempts == 0 && !body.dryRun
      modifies this
      ensures RealTrace(acts, target, Send(host, a, target, false), CommandVerdict(world.command), world)
    {
      var first := Audit(What(a, false), target, Success);
      if !first { return 500; }
      acts := acts + [Send(host, a, target, false)];
      if world.command.NoReply? { return 0; }
      var outcome := OutcomeOf(world.command);
      if outcome.None? {
        var _ := Audit(What(a, false), target, Failure);
        return 502;
      }
      var m := MapOutcome(outcome.value);
      var _ := Audit(What(a, false), target, m.result);
      return m.status;
    }

    method HandleRemote(a: Action, target: Target) returns (status: nat)
      requires acts == [] && attempts == 0 && Remote(a)
      requires WellAddressed(a, body) && target == TargetOf(a, body)
      modifies this
      ensures HandledTrace(acts, a, tenant, body, world)
      ensures Audited(acts) <==>
        body.dryRun || !world.appends(0) || Addressee(a, tenant, body, world).None? || !world.command.NoReply?
    {
      var host;
      host, status := Resolve(a, target);
      if host.None? { return; }
      if body.dryRun {
        status := RunDry(a, target, host.value);
      } else {
        status := RunReal(a, target, host.value);
        RealIsAudited(acts, target, Send(host.value, a, target, false), CommandVerdict(world.command), world);
      }
    }

    method HandleLocal(a: Action, target: Target) returns (status: nat)
      requires acts == [] && attempts == 0 && !Remote(a)
      requires WellAddressed(a, body) && target == TargetOf(a, body)
      modifies this
      ensures HandledTrace(acts, a, tenant, body, world)
      ensures Audited(acts) <==> body.dryRun || !world.appends(0) || !world.local.NoAnswer?
    {
      if body.dryRun {
        status := LocalDryRun(a, target);
      } else {
        status := LocalReal(a, target);
        RealIsAudited(acts, target, Local(a, target, false), LocalVerdict(world.local), world);
      }
    }

    /**
     `response_handler`.  Every effect follows a successful entry for its action and target and is
     followed by exactly one more, unless the handler is cut off while it waits for the effect.
     */
    method Handle(action: Option<Action>) returns (status: nat)
      requires acts == [] && attempts == 0
      modifies this
      ensures acts != [] ==>
        && action.Some? && !body.reason.blank && body.reason.bytes <= 1024 && world.scope.None?
        && (tenant.Some? && body.incident.Some? ==> world.incident == OfTenant(tenant))
        && (action.value == RestoreFile ==> body.quarantine.Some? && body.host.Some? && body.target.None?)
        && (action.value != RestoreFile ==> body.quarantine.None? && body.host.None? && body.target.Some?)
      ensures !Acceptable(action, tenant, body, world) ==> acts == []
      ensures Acceptable(action, tenant, body, world) ==> HandledTrace(acts, action.value, tenant, body, world)
      ensures Audited(acts) <==> !CutOff(action, tenant, body, world)
    {
      var target;
      target, status := Prepare(action);
      if target.None? { return; }
      if Remote(action.value) {
        status := HandleRemote(action.value, target.value);
      } else {
        status := HandleLocal(action.value, target.value);
      }
    }
  }

  /** For instance: the client hangs up while the agent quarantines its file; no entry tells how it went. */
  method HangUp(host: Id, file: Id) returns (h: Handler)
    ensures fresh(h) && !Audited(h.acts)
    ensures h.acts == [Append(What(QuarantineFile, false), Entity(file), Success, true)]
                      + [Send(host, QuarantineFile, Entity(file), false)]
  {
    var body := Body(Some(file), Reason(false, 1), false, None, None, None);
    var world := World(None, NoIncident, NoStore, Resolved(host), NoAnswer(CallerGone), NoAnswer(CallerGone),
                       NoReply(CallerGone), _ => true);
    h := new Handler(world, None, body);
    var _ := h.Handle(Some(QuarantineFile));
  }

  /** A real run is audited exactly if its effect, when it has one, got its verdict. */
  lemma RealIsAudited(acts: seq<Act>, target: Target, effect: Act, verdict: Option<AuditResult>, w: World)
    requires Effect(effect) && effect.target == target && RealTrace(acts, target, effect, verdict, w)
    ensures Audited(acts) <==> !w.appends(0) || verdict.Some?
  {
    if w.appends(0) { assert Effect(acts[1]); }
  }
}
