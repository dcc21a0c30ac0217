/**
  One command through the bridge: schema, idempotence, anti-forgery, kill-switch, policy, consumption, audit,
  effect, reply. First what a run to completion does to the store, stage by stage, then the method that does it.
 */
module Pipeline {
  import opened Text
  import opened Json
  import opened Domain
  import opened Repository
  import Policy

  datatype Envelope = Envelope(author: Id, content: Str, correlationId: Id, signed: bool)

  datatype Result = Returned(outcome: Outcome) | Thrown(code: ErrorCode)

  /** How each repository call of one run fares. */
  datatype Faults = Faults(
    precheck: Fault,
    killSwitchRead: Fault,
    claimRead: Fault,
    consumedRead: Fault,
    consume: Fault,
    linkApproval: Fault,
    auditCommand: Fault,
    effect: Fault,
    decide: Fault,
    audit: Fault,
    enqueue: Fault,
    deadLetterAudit: Fault)

  /** Where a run ends, and whether its effect transaction committed. */
  datatype Passage = Passage(store: Store, result: Result, committed: bool)

  // ---------- pure helpers ----------

  function ParseCommand(cfg: Config, content: Str): Option<Command> {
    var raw := cfg.platform.parse(content);
    if raw.Some? then cfg.validate(raw.value) else None
  }

  function CommandId(cfg: Config, env: Envelope): Id { cfg.digest(env.content) }

  predicate IsCeo(cfg: Config, author: Id) { cfg.normalize(author) in cfg.ceoKeys }

  predicate IsAgent(cfg: Config, author: Id) { cfg.normalize(author) in cfg.agentKeys }

  /** A CEO only by signature, a claims agent only without one. */
  function ResolveRole(cfg: Config, env: Envelope): Role {
    if env.signed && IsCeo(cfg, env.author) then Ceo
    else if !env.signed && IsAgent(cfg, env.author) then AgentSinistres
    else Inconnu
  }

  function Decide(cfg: Config, env: Envelope, cmd: Command, killSwitch: Option<KillSwitchRow>, claim: Option<Claim>, consumed: bool)
    : Policy.Decision
  {
    Policy.Evaluate(cmd, Policy.Context(killSwitch, claim, consumed, cfg.threshold), ResolveRole(cfg, env))
  }

  function ClaimOf(s: Store, cmd: Command): Option<Claim> {
    if cmd.IsClaim() && cmd.claimId in s.claims then Some(s.claims[cmd.claimId]) else None
  }

  // ---------- the stages, last first ----------

  /** safeAudit: a failure to append is swallowed. */
  function SafeAudit(cfg: Config, s: Store, env: Envelope, event: AuditEvent, f: Fault): Store {
    f.After(s, WithAudit(cfg, s, env.correlationId, event))
  }

  function Conclude(cfg: Config, s: Store, env: Envelope, event: AuditEvent, outcome: Outcome, f: Faults, committed: bool): Passage {
    Passage(SafeAudit(cfg, s, env, event, f.audit), Returned(outcome), committed)
  }

  /** The catch block: a transient error goes back to the caller, any other to the dead-letter queue. */
  function Fail(cfg: Config, s: Store, env: Envelope, code: ErrorCode, f: Faults, committed: bool): Passage {
    if code == DbUnavailable then Passage(s, Thrown(code), committed)
    else
      var queued := f.enqueue.After(s, WithDeadLetter(s, DeadLetterEntry(env.correlationId, env.content, code)));
      if !f.enqueue.Fine? then Passage(queued, Thrown(f.enqueue.Code()), committed)
      else Passage(SafeAudit(cfg, queued, env, DeadLetterAudit(code), f.deadLetterAudit), Returned(DeadLetter(code)), committed)
  }

  function AtDecide(cfg: Config, s: Store, env: Envelope, cmd: Command, f: Faults): Passage {
    var decided := if cmd.IsClaim()
      then f.decide.After(s, WithDecision(s, env.correlationId, cmd.approvedBy, cmd.reason, cmd.SettlementApprove?))
      else s;
    Conclude(cfg, decided, env, ExecutedAudit(cmd), Executed, f, true)
  }

  function AtEffect(cfg: Config, s: Store, env: Envelope, cmd: Command, f: Faults): Passage {
    var after := f.effect.After(s, WithEffect(s, cfg.threshold, cmd, env.correlationId));
    if !f.effect.Fine? then Fail(cfg, after, env, f.effect.Code(), f, f.effect.LostReply?)
    else AtDecide(cfg, after, env, cmd, f)
  }

  function CommandEvent(cfg: Config, env: Envelope, cmd: Command): AuditEvent {
    CommandAudit(CommandId(cfg, env), ResolveRole(cfg, env), env.author, cmd)
  }

  function AtAuditCommand(cfg: Config, s: Store, env: Envelope, cmd: Command, f: Faults): Passage {
    var after := f.auditCommand.After(s, WithAudit(cfg, s, env.correlationId, CommandEvent(cfg, env, cmd)));
    if !f.auditCommand.Fine? then Fail(cfg, after, env, f.auditCommand.Code(), f, false)
    else AtEffect(cfg, after, env, cmd, f)
  }

  function AtLinkApproval(cfg: Config, s: Store, env: Envelope, cmd: Command, f: Faults): Passage {
    if !cmd.IsClaim() then AtAuditCommand(cfg, s, env, cmd, f)
    else
      var after := f.linkApproval.After(s, WithApproval(s, env.correlationId, LinkedApproval(cmd)));
      if !f.linkApproval.Fine? then Fail(cfg, after, env, f.linkApproval.Code(), f, false)
      else AtAuditCommand(cfg, after, env, cmd, f)
  }

  function AtConsume(cfg: Config, s: Store, env: Envelope, cmd: Command, f: Faults): Passage {
    var id := CommandId(cfg, env);
    var after := f.consume.After(s, WithConsumed(s, id, env.correlationId));
    if !f.consume.Fine? then Fail(cfg, after, env, f.consume.Code(), f, false)
    else if id in s.consumed then Conclude(cfg, s, env, ConsumedAudit(id), Consumed, f, false)
    else AtLinkApproval(cfg, after, env, cmd, f)
  }

  function AtPolicy(cfg: Config, s: Store, env: Envelope, cmd: Command, f: Faults): Passage {
    if cmd.IsClaim() && !f.claimRead.Fine? then Fail(cfg, s, env, f.claimRead.Code(), f, false)
    else if !f.consumedRead.Fine? then Fail(cfg, s, env, f.consumedRead.Code(), f, false)
    else
      var decision := Decide(cfg, env, cmd, s.killSwitch, ClaimOf(s, cmd), CommandId(cfg, env) in s.consumed);
      match decision
      case Deny(reason) =>
        Conclude(cfg, s, env, PolicyDeniedAudit(reason, ResolveRole(cfg, env)), Denied(reason), f, false)
      case Allow => AtConsume(cfg, s, env, cmd, f)
  }

  function AtKillSwitch(cfg: Config, s: Store, env: Envelope, cmd: Command, f: Faults): Passage {
    if !f.killSwitchRead.Fine? then Fail(cfg, s, env, f.killSwitchRead.Code(), f, false)
    else if s.Locked() && !cmd.KillSwitchDeactivate? then
      Fail(cfg, SafeAudit(cfg, s, env, KillSwitchBlockedAudit(s.killSwitch.value.setBy), f.audit), env, KillSwitchBlocked, f, false)
    else AtPolicy(cfg, s, env, cmd, f)
  }

  function AtPrecheck(cfg: Config, s: Store, env: Envelope, cmd: Command, f: Faults): Passage {
    var id := CommandId(cfg, env);
    if !f.precheck.Fine? then Fail(cfg, s, env, f.precheck.Code(), f, false)
    else if id in s.consumed then Conclude(cfg, s, env, ConsumedPrecheckAudit(id), Consumed, f, false)
    else if !env.signed && IsCeo(cfg, env.author) then
      Conclude(cfg, s, env, AuthDeniedAudit, Denied(CeoWithoutSignature), f, false)
    else AtKillSwitch(cfg, s, env, cmd, f)
  }

  /** What processInboundCommand does to the store when nothing else runs beside it. */
  function Process(cfg: Config, s: Store, env: Envelope, f: Faults): Passage {
    match ParseCommand(cfg, env.content)
    case None => Conclude(cfg, s, env, SchemaInvalidAudit, Denied(SchemaInvalid), f, false)
    case Some(cmd) => AtPrecheck(cfg, s, env, cmd, f)
  }

  // ---------- the method ----------

  method TrySafeAudit(cfg: Config, repo: PgRepository, env: Envelope, event: AuditEvent, f: Fault)
    modifies repo
    ensures repo.Contents() == SafeAudit(cfg, old(repo.Contents()), env, event, f)
  {
    var _ := repo.AppendAudit(cfg, env.correlationId, event, f);
  }

  /** processInboundCommand: run the pipeline, and route its errors. */
  method ProcessInboundCommand(cfg: Config, repo: PgRepository, env: Envelope, f: Faults)
    returns (r: Result, ghost committed: bool)
    modifies repo
    ensures Passage(repo.Contents(), r, committed) == Process(cfg, old(repo.Contents()), env, f)
  {
    var e: Option<ErrorCode>;
    r, e, committed := RunPipeline(cfg, repo, env, f);
    if e.Some? {
      if e.value == DbUnavailable {
        return Thrown(e.value), committed;
      }
      var q := repo.Enqueue(DeadLetterEntry(env.correlationId, env.content, e.value), f.enqueue);
      if q.Failed? {
        return Thrown(q.fault.Code()), committed;
      }
      TrySafeAudit(cfg, repo, env, DeadLetterAudit(e.value), f.deadLetterAudit);
      r := Returned(DeadLetter(e.value));
    }
  }

  /** The store and outcome a run reaches, from its error if it ended in one. */
  function Caught(cfg: Config, s: Store, env: Envelope, r: Result, e: Option<ErrorCode>, f: Faults, committed: bool): Passage {
    if e.Some? then Fail(cfg, s, env, e.value, f, committed) else Passage(s, r, committed)
  }

  /** runPipeline: an error is returned in `e` instead of thrown. */
  method RunPipeline(cfg: Config, repo: PgRepository, env: Envelope, f: Faults)
    returns (r: Result, e: Option<ErrorCode>, ghost committed: bool)
    modifies repo
    ensures Caught(cfg, repo.Contents(), env, r, e, f, committed) == Process(cfg, old(repo.Contents()), env, f)
  {
    r, e, committed := Returned(Executed), None, false;
    // Text that is no admissible command ends here.
    var parsed := ParseCommand(cfg, env.content);
    if parsed.None? {
      TrySafeAudit(cfg, repo, env, SchemaInvalidAudit, f.audit);
      return Returned(Denied(SchemaInvalid)), None, false;
    }
    var cmd := parsed.value;
    var id := CommandId(cfg, env);
    // So does one whose id is already on record.
    var known := repo.IsCommandConsumed(id, f.precheck);
    if known.Failed? {
      return r, Some(known.fault.Code()), false;
    }
    if known.value {
      TrySafeAudit(cfg, repo, env, ConsumedPrecheckAudit(id), f.audit);
      return Returned(Consumed), None, false;
    }
    // Nobody speaks for the CEO unsigned.
    if !env.signed && IsCeo(cfg, env.author) {
      TrySafeAudit(cfg, repo, env, AuthDeniedAudit, f.audit);
      return Returned(Denied(CeoWithoutSignature)), None, false;
    }
    var killSwitch := repo.GetKillSwitch(f.killSwitchRead);
    if killSwitch.Failed? {
      return r, Some(killSwitch.fault.Code()), false;
    }
    if Policy.Active(killSwitch.value) && !cmd.KillSwitchDeactivate? {
      TrySafeAudit(cfg, repo, env, KillSwitchBlockedAudit(killSwitch.value.value.setBy), f.audit);
      return r, Some(KillSwitchBlocked), false;
    }
    // The rest depends on what the tables say.
    r, e, committed := EvaluateAndExecute(cfg, repo, env, cmd, killSwitch.value, f);
  }

  /** The context holds the kill-switch as it was read before; nothing runs in between. */
  method EvaluateAndExecute(cfg: Config, repo: PgRepository, env: Envelope, cmd: Command,
                            killSwitch: Option<KillSwitchRow>, f: Faults)
    returns (r: Result, e: Option<ErrorCode>, ghost committed: bool)
    requires killSwitch == repo.killSwitch
    modifies repo
    ensures Caught(cfg, repo.Contents(), env, r, e, f, committed) == AtPolicy(cfg, old(repo.Contents()), env, cmd, f)
  {
    r, e, committed := Returned(Executed), None, false;
    var claim: Option<Claim> := None;
    if cmd.IsClaim() {
      var found := repo.FindClaim(cmd.claimId, f.claimRead);
      if found.Failed? {
        return r, Some(found.fault.Code()), false;
      }
      claim := found.value;
    }
    var known := repo.IsCommandConsumed(CommandId(cfg, env), f.consumedRead);
    if known.Failed? {
      return r, Some(known.fault.Code()), false;
    }
    var decision := Decide(cfg, env, cmd, killSwitch, claim, known.value);
    if decision.Deny? {
      TrySafeAudit(cfg, repo, env, PolicyDeniedAudit(decision.reason, ResolveRole(cfg, env)), f.audit);
      return Returned(Denied(decision.reason)), None, false;
    }
    r, e, committed := ConsumeAndExecute(cfg, repo, env, cmd, f);
  }

  method ConsumeAndExecute(cfg: Config, repo: PgRepository, env: Envelope, cmd: Command, f: Faults)
    returns (r: Result, e: Option<ErrorCode>, ghost committed: bool)
    modifies repo
    ensures Caught(cfg, repo.Contents(), env, r, e, f, committed) == AtConsume(cfg, old(repo.Contents()), env, cmd, f)
  {
    r, e, committed := Returned(Executed), None, false;
    // Of several runs with one id, the insert lets through only the first.
    var inserted := repo.MarkConsumed(CommandId(cfg, env), env.correlationId, f.consume);
    if inserted.Failed? {
      return r, Some(inserted.fault.Code()), false;
    }
    if !inserted.value {
      TrySafeAudit(cfg, repo, env, ConsumedAudit(CommandId(cfg, env)), f.audit);
      return Returned(Consumed), None, false;
    }
    r, e, committed := Execute(cfg, repo, env, cmd, f);
  }

  method Execute(cfg: Config, repo: PgRepository, env: Envelope, cmd: Command, f: Faults)
    returns (r: Result, e: Option<ErrorCode>, ghost committed: bool)
    modifies repo
    ensures Caught(cfg, repo.Contents(), env, r, e, f, committed) == AtLinkApproval(cfg, old(repo.Contents()), env, cmd, f)
  {
    r, e, committed := Returned(Executed), None, false;
    if cmd.IsClaim() {
      var linked := repo.LinkApproval(env.correlationId, cmd, f.linkApproval);
      if linked.Failed? {
        return r, Some(linked.fault.Code()), false;
      }
    }
    // The log knows of the command before anything happens.
    var audited := repo.AppendAudit(cfg, env.correlationId, CommandEvent(cfg, env, cmd), f.auditCommand);
    if audited.Failed? {
      return r, Some(audited.fault.Code()), false;
    }
    // From here on the tables change, all or nothing.
    var done := repo.RunEffect(cfg.threshold, cmd, env.correlationId, f.effect);
    if done.Failed? {
      return r, Some(done.fault.Code()), f.effect.LostReply?;
    }
    committed := true;
    if cmd.IsClaim() {
      var _ := repo.DecideApproval(env.correlationId, cmd.approvedBy, cmd.reason, cmd.SettlementApprove?, f.decide);
    }
    // What remains cannot fail the run.
    TrySafeAudit(cfg, repo, env, ExecutedAudit(cmd), f.audit);
    r := Returned(Executed);
  }
}
