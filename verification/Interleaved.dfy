/**
  Many requests in flight: each advances by one repository call at a time, in any order, and any call may fail.
 */
module Interleaved {
  import opened Json
  import opened Domain
  import opened Repository
  import opened Pipeline
  import Policy

  /** The repository call a run is about to make, with what it has read so far. */
  datatype Pc =
    | Precheck(cmd: Command)
    | ReadKillSwitch(cmd: Command)
    | ReadClaim(cmd: Command, killSwitch: Option<KillSwitchRow>)
    | ReadConsumed(cmd: Command, killSwitch: Option<KillSwitchRow>, claim: Option<Claim>)
    | Consume(cmd: Command)
    | LinkApproval(cmd: Command)
    | AuditCommand(cmd: Command)
    | Effect(cmd: Command)
    | ResolveApproval(cmd: Command)
    | Auditing(event: AuditEvent, outcome: Outcome)
    | AuditBlocked(event: AuditEvent)
    | Enqueueing(code: ErrorCode)
    | AuditDeadLetter(code: ErrorCode)
    | Finished(result: Result)

  function Start(cfg: Config, env: Envelope): Pc {
    match ParseCommand(cfg, env.content)
    case None => Auditing(SchemaInvalidAudit, Denied(SchemaInvalid))
    case Some(cmd) => Precheck(cmd)
  }

  function Caught(code: ErrorCode): Pc {
    if code == DbUnavailable then Finished(Thrown(code)) else Enqueueing(code)
  }

  /** Where the run goes on after its call, unless the call failed. */
  function Next(cfg: Config, s: Store, env: Envelope, pc: Pc): Pc
    requires !pc.Finished?
  {
    var id := CommandId(cfg, env);
    match pc
    case Precheck(cmd) =>
      if id in s.consumed then Auditing(ConsumedPrecheckAudit(id), Outcome.Consumed)
      else if !env.signed && IsCeo(cfg, env.author) then Auditing(AuthDeniedAudit, Denied(CeoWithoutSignature))
      else ReadKillSwitch(cmd)
    case ReadKillSwitch(cmd) =>
      if s.Locked() && !cmd.KillSwitchDeactivate? then AuditBlocked(KillSwitchBlockedAudit(s.killSwitch.value.setBy))
      else if cmd.IsClaim() then ReadClaim(cmd, s.killSwitch)
      else ReadConsumed(cmd, s.killSwitch, None)
    case ReadClaim(cmd, killSwitch) => ReadConsumed(cmd, killSwitch, ClaimOf(s, cmd))
    case ReadConsumed(cmd, killSwitch, claim) =>
      (match Decide(cfg, env, cmd, killSwitch, claim, id in s.consumed)
       case Deny(reason) => Auditing(PolicyDeniedAudit(reason, ResolveRole(cfg, env)), Denied(reason))
       case Allow => Consume(cmd))
    case Consume(cmd) =>
      if id in s.consumed then Auditing(ConsumedAudit(id), Outcome.Consumed)
      else if cmd.IsClaim() then LinkApproval(cmd)
      else AuditCommand(cmd)
    case LinkApproval(cmd) => AuditCommand(cmd)
    case AuditCommand(cmd) => Effect(cmd)
    case Effect(cmd) => if cmd.IsClaim() then ResolveApproval(cmd) else Auditing(ExecutedAudit(cmd), Executed)
    case ResolveApproval(cmd) => Auditing(ExecutedAudit(cmd), Executed)
    case Auditing(_, outcome) => Finished(Returned(outcome))
    case AuditBlocked(_) => Caught(KillSwitchBlocked)
    case Enqueueing(code) => AuditDeadLetter(code)
    case AuditDeadLetter(code) => Finished(Returned(DeadLetter(code)))
  }

  /** The statement behind the call. */
  function Statement(cfg: Config, s: Store, env: Envelope, pc: Pc): Store {
    match pc
    case Consume(_) => WithConsumed(s, CommandId(cfg, env), env.correlationId)
    case LinkApproval(cmd) => if cmd.IsClaim() then WithApproval(s, env.correlationId, LinkedApproval(cmd)) else s
    case AuditCommand(cmd) => WithAudit(cfg, s, env.correlationId, CommandEvent(cfg, env, cmd))
    case Effect(cmd) => WithEffect(s, cfg.threshold, cmd, env.correlationId)
    case ResolveApproval(cmd) =>
      if cmd.IsClaim() then WithDecision(s, env.correlationId, cmd.approvedBy, cmd.reason, cmd.SettlementApprove?) else s
    case Auditing(event, _) => WithAudit(cfg, s, env.correlationId, event)
    case AuditBlocked(event) => WithAudit(cfg, s, env.correlationId, event)
    case Enqueueing(code) => WithDeadLetter(s, DeadLetterEntry(env.correlationId, env.content, code))
    case AuditDeadLetter(code) => WithAudit(cfg, s, env.correlationId, DeadLetterAudit(code))
    case _ => s
  }

  /** Calls whose failure the code swallows. */
  predicate Swallows(pc: Pc) {
    pc.Auditing? || pc.AuditBlocked? || pc.AuditDeadLetter? || pc.ResolveApproval?
  }

  function Advanced(cfg: Config, s: Store, env: Envelope, pc: Pc, f: Fault): (r: (Store, Pc))
    requires !pc.Finished?
  {
    (f.After(s, Statement(cfg, s, env, pc)),
     if f.Fine? || Swallows(pc) then Next(cfg, s, env, pc)
     else if pc.Enqueueing? then Finished(Thrown(f.Code()))
     else Caught(f.Code()))
  }

  /** Progress: every call takes a run closer to its end, so it makes at most twelve. */
  function Rank(pc: Pc): nat {
    match pc
    case Precheck(_) => 0
    case ReadKillSwitch(_) => 1
    case ReadClaim(_, _) => 2
    case ReadConsumed(_, _, _) => 3
    case Consume(_) => 4
    case LinkApproval(_) => 5
    case AuditCommand(_) => 6
    case Effect(_) => 7
    case ResolveApproval(_) => 8
    case Auditing(_, _) => 9
    case AuditBlocked(_) => 9
    case Enqueueing(_) => 10
    case AuditDeadLetter(_) => 11
    case Finished(_) => 12
  }

  lemma AdvanceProgresses(cfg: Config, s: Store, env: Envelope, pc: Pc, f: Fault)
    requires !pc.Finished?
    ensures Rank(pc) < Rank(Advanced(cfg, s, env, pc, f).1) <= 12
  {
  }

  // ---------- one run alone is the serial pipeline ----------

  function FaultAt(f: Faults, pc: Pc): Fault {
    match pc
    case Precheck(_) => f.precheck
    case ReadKillSwitch(_) => f.killSwitchRead
    case ReadClaim(_, _) => f.claimRead
    case ReadConsumed(_, _, _) => f.consumedRead
    case Consume(_) => f.consume
    case LinkApproval(_) => f.linkApproval
    case AuditCommand(_) => f.auditCommand
    case Effect(_) => f.effect
    case ResolveApproval(_) => f.decide
    case Auditing(_, _) => f.audit
    case AuditBlocked(_) => f.audit
    case Enqueueing(_) => f.enqueue
    case AuditDeadLetter(_) => f.deadLetterAudit
    case Finished(_) => Fine
  }

  function RunAlone(cfg: Config, s: Store, env: Envelope, pc: Pc, f: Faults): (Store, Result)
    decreases 12 - Rank(pc)
  {
    if pc.Finished? then (s, pc.result)
    else
      AdvanceProgresses(cfg, s, env, pc, FaultAt(f, pc));
      var (t, next) := Advanced(cfg, s, env, pc, FaultAt(f, pc));
      RunAlone(cfg, t, env, next, f)
  }

  predicate EndsAs(r: (Store, Result), p: Passage) { r.0 == p.store && r.1 == p.result }

  lemma CaughtAlone(cfg: Config, s: Store, env: Envelope, code: ErrorCode, f: Faults, committed: bool)
    ensures EndsAs(RunAlone(cfg, s, env, Caught(code), f), Fail(cfg, s, env, code, f, committed))
  {
    var queued := f.enqueue.After(s, WithDeadLetter(s, DeadLetterEntry(env.correlationId, env.content, code)));
    assert RunAlone(cfg, queued, env, AuditDeadLetter(code), f)
        == (SafeAudit(cfg, queued, env, DeadLetterAudit(code), f.deadLetterAudit), Returned(DeadLetter(code)));
  }

  lemma ConcludeAlone(cfg: Config, s: Store, env: Envelope, event: AuditEvent, outcome: Outcome, f: Faults, committed: bool)
    ensures EndsAs(RunAlone(cfg, s, env, Auditing(event, outcome), f), Conclude(cfg, s, env, event, outcome, f, committed))
  {
  }

  lemma EffectAlone(cfg: Config, s: Store, env: Envelope, cmd: Command, f: Faults)
    ensures EndsAs(RunAlone(cfg, s, env, Effect(cmd), f), AtEffect(cfg, s, env, cmd, f))
  {
    var after := f.effect.After(s, WithEffect(s, cfg.threshold, cmd, env.correlationId));
    if !f.effect.Fine? {
      CaughtAlone(cfg, after, env, f.effect.Code(), f, f.effect.LostReply?);
    } else if cmd.IsClaim() {
      var decided := f.decide.After(after, WithDecision(after, env.correlationId, cmd.approvedBy, cmd.reason, cmd.SettlementApprove?));
      ConcludeAlone(cfg, decided, env, ExecutedAudit(cmd), Executed, f, true);
      assert RunAlone(cfg, after, env, ResolveApproval(cmd), f)
          == RunAlone(cfg, decided, env, Auditing(ExecutedAudit(cmd), Executed), f);
    } else {
      ConcludeAlone(cfg, after, env, ExecutedAudit(cmd), Executed, f, true);
    }
  }

  lemma AuditCommandAlone(cfg: Config, s: Store, env: Envelope, cmd: Command, f: Faults)
    ensures EndsAs(RunAlone(cfg, s, env, AuditCommand(cmd), f), AtAuditCommand(cfg, s, env, cmd, f))
  {
    var after := f.auditCommand.After(s, WithAudit(cfg, s, env.correlationId, CommandEvent(cfg, env, cmd)));
    if f.auditCommand.Fine? {
      EffectAlone(cfg, after, env, cmd, f);
    } else {
      CaughtAlone(cfg, after, env, f.auditCommand.Code(), f, false);
    }
  }

  lemma LinkAlone(cfg: Config, s: Store, env: Envelope, cmd: Command, f: Faults)
    requires cmd.IsClaim()
    ensures EndsAs(RunAlone(cfg, s, env, LinkApproval(cmd), f), AtLinkApproval(cfg, s, env, cmd, f))
  {
    var after := f.linkApproval.After(s, WithApproval(s, env.correlationId, LinkedApproval(cmd)));
    if f.linkApproval.Fine? {
      AuditCommandAlone(cfg, after, env, cmd, f);
      assert RunAlone(cfg, s, env, LinkApproval(cmd), f) == RunAlone(cfg, after, env, AuditCommand(cmd), f);
    } else {
      CaughtAlone(cfg, after, env, f.linkApproval.Code(), f, false);
      assert RunAlone(cfg, s, env, LinkApproval(cmd), f) == RunAlone(cfg, after, env, Caught(f.linkApproval.Code()), f);
    }
  }

  lemma ConsumeAlone(cfg: Config, s: Store, env: Envelope, cmd: Command, f: Faults)
    ensures EndsAs(RunAlone(cfg, s, env, Consume(cmd), f), AtConsume(cfg, s, env, cmd, f))
  {
    var id := CommandId(cfg, env);
    var after := f.consume.After(s, WithConsumed(s, id, env.correlationId));
    if !f.consume.Fine? {
      CaughtAlone(cfg, after, env, f.consume.Code(), f, false);
    } else if id in s.consumed {
      ConcludeAlone(cfg, s, env, ConsumedAudit(id), Outcome.Consumed, f, false);
    } else if cmd.IsClaim() {
      LinkAlone(cfg, after, env, cmd, f);
    } else {
      AuditCommandAlone(cfg, after, env, cmd, f);
    }
  }

  lemma {:induction false} DeniedAlone(cfg: Config, s: Store, env: Envelope, cmd: Command, reason: DenyReason, f: Faults)
    requires f.consumedRead.Fine?
    requires Decide(cfg, env, cmd, s.killSwitch, ClaimOf(s, cmd), CommandId(cfg, env) in s.consumed) == Policy.Deny(reason)
    ensures EndsAs(RunAlone(cfg, s, env, ReadConsumed(cmd, s.killSwitch, ClaimOf(s, cmd)), f),
                    Conclude(cfg, s, env, PolicyDeniedAudit(reason, ResolveRole(cfg, env)), Denied(reason), f, false))
  {
    ConcludeAlone(cfg, s, env, PolicyDeniedAudit(reason, ResolveRole(cfg, env)), Denied(reason), f, false);
  }

  lemma ReadConsumedAlone(cfg: Config, s: Store, env: Envelope, cmd: Command, f: Faults)
    requires cmd.IsClaim() ==> f.claimRead.Fine?
    ensures EndsAs(RunAlone(cfg, s, env, ReadConsumed(cmd, s.killSwitch, ClaimOf(s, cmd)), f), AtPolicy(cfg, s, env, cmd, f))
  {
    if !f.consumedRead.Fine? {
      CaughtAlone(cfg, s, env, f.consumedRead.Code(), f, false);
    } else {
      var decision := Decide(cfg, env, cmd, s.killSwitch, ClaimOf(s, cmd), CommandId(cfg, env) in s.consumed);
      match decision
      case Deny(reason) => DeniedAlone(cfg, s, env, cmd, reason, f);
      case Allow => ConsumeAlone(cfg, s, env, cmd, f);
    }
  }

  lemma ReadClaimAlone(cfg: Config, s: Store, env: Envelope, cmd: Command, f: Faults)
    requires cmd.IsClaim()
    ensures EndsAs(RunAlone(cfg, s, env, ReadClaim(cmd, s.killSwitch), f), AtPolicy(cfg, s, env, cmd, f))
  {
    if f.claimRead.Fine? {
      ReadConsumedAlone(cfg, s, env, cmd, f);
    } else {
      CaughtAlone(cfg, s, env, f.claimRead.Code(), f, false);
    }
  }

  lemma ReadKillSwitchAlone(cfg: Config, s: Store, env: Envelope, cmd: Command, f: Faults)
    ensures EndsAs(RunAlone(cfg, s, env, ReadKillSwitch(cmd), f), AtKillSwitch(cfg, s, env, cmd, f))
  {
    if !f.killSwitchRead.Fine? {
      CaughtAlone(cfg, s, env, f.killSwitchRead.Code(), f, false);
    } else if s.Locked() && !cmd.KillSwitchDeactivate? {
      var event := KillSwitchBlockedAudit(s.killSwitch.value.setBy);
      var audited := SafeAudit(cfg, s, env, event, f.audit);
      CaughtAlone(cfg, audited, env, KillSwitchBlocked, f, false);
      assert RunAlone(cfg, s, env, AuditBlocked(event), f) == RunAlone(cfg, audited, env, Caught(KillSwitchBlocked), f);
    } else if cmd.IsClaim() {
      ReadClaimAlone(cfg, s, env, cmd, f);
    } else {
      ReadConsumedAlone(cfg, s, env, cmd, f);
    }
  }

  /** A run that nothing interrupts ends exactly where the serial pipeline does. */
  lemma AloneIsSerial(cfg: Config, s: Store, env: Envelope, f: Faults)
    ensures EndsAs(RunAlone(cfg, s, env, Start(cfg, env), f), Process(cfg, s, env, f))
  {
    match ParseCommand(cfg, env.content)
    case None => ConcludeAlone(cfg, s, env, SchemaInvalidAudit, Denied(SchemaInvalid), f, false);
    case Some(cmd) =>
      var id := CommandId(cfg, env);
      if !f.precheck.Fine? {
        CaughtAlone(cfg, s, env, f.precheck.Code(), f, false);
      } else if id in s.consumed {
        ConcludeAlone(cfg, s, env, ConsumedPrecheckAudit(id), Outcome.Consumed, f, false);
      } else if !env.signed && IsCeo(cfg, env.author) {
        ConcludeAlone(cfg, s, env, AuthDeniedAudit, Denied(CeoWithoutSignature), f, false);
      } else {
        ReadKillSwitchAlone(cfg, s, env, cmd, f);
      }
  }
}
