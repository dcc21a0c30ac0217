/** What one run of the pipeline can and cannot do, under every pattern of failures. */
module PipelineLaws {
  import opened Json
  import opened Domain
  import opened Repository
  import opened Pipeline
  import Policy

  /** The tables an effect is about. */
  datatype Business = Business(claims: map<Id, Claim>, ledger: seq<LedgerRow>, killSwitch: Option<KillSwitchRow>)

  function BusinessOf(s: Store): Business { Business(s.claims, s.ledger, s.killSwitch) }

  /** What a command means for claims, ledger and kill-switch. */
  function Meaning(b: Business, threshold: real, cmd: Command, correlationId: Id): Business {
    match cmd
    case SettlementApprove(claimId, maxAmount, _, _, _) =>
      b.(claims := SetStatus(b.claims, claimId, Regle),
         ledger := b.ledger + [LedgerRow(correlationId, claimId, SettlementAmount(maxAmount, threshold))])
    case SettlementReject(claimId, _, _, _) => b.(claims := SetStatus(b.claims, claimId, Refuse))
    case KillSwitchActivate(actor, _, _) => b.(killSwitch := Some(KillSwitchRow(true, Some(actor))))
    case KillSwitchDeactivate(actor, _, _) =>
      if b.killSwitch.Some? then b.(killSwitch := Some(KillSwitchRow(false, Some(actor)))) else b
    case _ => b
  }

  /** The transaction's statements add up to the command's meaning, and touch approvals besides. */
  lemma EffectMeans(s: Store, threshold: real, cmd: Command, correlationId: Id)
    ensures var t := WithEffect(s, threshold, cmd, correlationId);
      && BusinessOf(t) == Meaning(BusinessOf(s), threshold, cmd, correlationId)
      && t.consumed == s.consumed && t.audit == s.audit && t.deadLetters == s.deadLetters
  {
  }

  /** Every gate before the effect lets the run through. */
  ghost predicate Reaches(cfg: Config, s: Store, env: Envelope, f: Faults) {
    && ParseCommand(cfg, env.content).Some?
    && var cmd := ParseCommand(cfg, env.content).value;
    && CommandId(cfg, env) !in s.consumed
    && (IsCeo(cfg, env.author) ==> env.signed)
    && Policy.Permitted(cmd, Policy.Context(s.killSwitch, ClaimOf(s, cmd), false, cfg.threshold), ResolveRole(cfg, env))
    && f.precheck.Fine? && f.killSwitchRead.Fine? && f.consumedRead.Fine? && f.consume.Fine? && f.auditCommand.Fine?
    && (cmd.IsClaim() ==> f.claimRead.Fine? && f.linkApproval.Fine?)
  }

  predicate Quiet(r: Result) { r.Returned? && (r.outcome.Denied? || r.outcome.Consumed?) }

  /** What a run with command cmd owes to the store it started from, `through` saying whether it reached its effect. */
  ghost predicate Settles(cfg: Config, s: Store, env: Envelope, cmd: Command, f: Faults, p: Passage, through: bool) {
    && p.committed == (through && !f.effect.Refused?)
    && (p.result == Returned(Executed) <==> through && f.effect.Fine?)
    && BusinessOf(p.store) == (if p.committed then Meaning(BusinessOf(s), cfg.threshold, cmd, env.correlationId) else BusinessOf(s))
    && (p.committed ==> p.store.consumed == s.consumed[CommandId(cfg, env) := env.correlationId])
    && (Quiet(p.result) ==> p.store == s.(audit := p.store.audit))
  }

  lemma FailKeeps(cfg: Config, s: Store, env: Envelope, code: ErrorCode, f: Faults, committed: bool)
    ensures var p := Fail(cfg, s, env, code, f, committed);
      && p.committed == committed
      && p.store == s.(audit := p.store.audit, deadLetters := p.store.deadLetters)
      && s.audit <= p.store.audit && s.deadLetters <= p.store.deadLetters
      && p.result != Returned(Executed) && !Quiet(p.result)
  {
  }

  lemma FailSettles(cfg: Config, s: Store, t: Store, env: Envelope, cmd: Command, code: ErrorCode, f: Faults)
    requires BusinessOf(t) == BusinessOf(s)
    ensures Settles(cfg, s, env, cmd, f, Fail(cfg, t, env, code, f, false), false)
  {
    FailKeeps(cfg, t, env, code, f, false);
  }

  /** From the effect on: it commits unless its transaction is refused. */
  lemma EffectStage(cfg: Config, s: Store, t: Store, env: Envelope, cmd: Command, f: Faults)
    requires BusinessOf(t) == BusinessOf(s) && t.consumed == s.consumed[CommandId(cfg, env) := env.correlationId]
    ensures Settles(cfg, s, env, cmd, f, AtEffect(cfg, t, env, cmd, f), true)
  {
    EffectMeans(t, cfg.threshold, cmd, env.correlationId);
    if !f.effect.Fine? {
      FailKeeps(cfg, f.effect.After(t, WithEffect(t, cfg.threshold, cmd, env.correlationId)), env, f.effect.Code(), f, f.effect.LostReply?);
    }
  }

  lemma AuditStage(cfg: Config, s: Store, t: Store, env: Envelope, cmd: Command, f: Faults)
    requires BusinessOf(t) == BusinessOf(s) && t.consumed == s.consumed[CommandId(cfg, env) := env.correlationId]
    ensures Settles(cfg, s, env, cmd, f, AtAuditCommand(cfg, t, env, cmd, f), f.auditCommand.Fine?)
  {
    var audited := f.auditCommand.After(t, WithAudit(cfg, t, env.correlationId, CommandEvent(cfg, env, cmd)));
    if f.auditCommand.Fine? {
      EffectStage(cfg, s, audited, env, cmd, f);
    } else {
      FailSettles(cfg, s, audited, env, cmd, f.auditCommand.Code(), f);
    }
  }

  predicate ConsumeFine(cmd: Command, f: Faults) {
    f.consume.Fine? && f.auditCommand.Fine? && (cmd.IsClaim() ==> f.linkApproval.Fine?)
  }

  lemma ConsumeStage(cfg: Config, s: Store, env: Envelope, cmd: Command, f: Faults)
    requires CommandId(cfg, env) !in s.consumed
    ensures Settles(cfg, s, env, cmd, f, AtConsume(cfg, s, env, cmd, f), ConsumeFine(cmd, f))
  {
    var consumed := f.consume.After(s, WithConsumed(s, CommandId(cfg, env), env.correlationId));
    if !f.consume.Fine? {
      FailSettles(cfg, s, consumed, env, cmd, f.consume.Code(), f);
    } else if cmd.IsClaim() {
      var linked := f.linkApproval.After(consumed, WithApproval(consumed, env.correlationId, LinkedApproval(cmd)));
      if f.linkApproval.Fine? {
        AuditStage(cfg, s, linked, env, cmd, f);
      } else {
        FailSettles(cfg, s, linked, env, cmd, f.linkApproval.Code(), f);
      }
    } else {
      AuditStage(cfg, s, consumed, env, cmd, f);
    }
  }

  lemma PolicyStage(cfg: Config, s: Store, env: Envelope, cmd: Command, f: Faults)
    requires CommandId(cfg, env) !in s.consumed
    ensures Settles(cfg, s, env, cmd, f, AtPolicy(cfg, s, env, cmd, f),
      && (cmd.IsClaim() ==> f.claimRead.Fine?) && f.consumedRead.Fine? && ConsumeFine(cmd, f)
      && Policy.Permitted(cmd, Policy.Context(s.killSwitch, ClaimOf(s, cmd), false, cfg.threshold), ResolveRole(cfg, env)))
  {
    Policy.AllowedExactlyWhenPermitted(cmd, Policy.Context(s.killSwitch, ClaimOf(s, cmd), false, cfg.threshold), ResolveRole(cfg, env));
    if cmd.IsClaim() && !f.claimRead.Fine? {
      FailSettles(cfg, s, s, env, cmd, f.claimRead.Code(), f);
    } else if !f.consumedRead.Fine? {
      FailSettles(cfg, s, s, env, cmd, f.consumedRead.Code(), f);
    } else {
      ConsumeStage(cfg, s, env, cmd, f);
    }
  }

  lemma KillSwitchStage(cfg: Config, s: Store, env: Envelope, cmd: Command, f: Faults)
    requires CommandId(cfg, env) !in s.consumed
    ensures Settles(cfg, s, env, cmd, f, AtKillSwitch(cfg, s, env, cmd, f),
      && f.killSwitchRead.Fine? && (cmd.IsClaim() ==> f.claimRead.Fine?) && f.consumedRead.Fine? && ConsumeFine(cmd, f)
      && Policy.Permitted(cmd, Policy.Context(s.killSwitch, ClaimOf(s, cmd), false, cfg.threshold), ResolveRole(cfg, env)))
  {
    if !f.killSwitchRead.Fine? {
      FailSettles(cfg, s, s, env, cmd, f.killSwitchRead.Code(), f);
    } else if s.Locked() && !cmd.KillSwitchDeactivate? {
      FailSettles(cfg, s, SafeAudit(cfg, s, env, KillSwitchBlockedAudit(s.killSwitch.value.setBy), f.audit), env, cmd, KillSwitchBlocked, f);
    } else {
      PolicyStage(cfg, s, env, cmd, f);
    }
  }

  lemma PrecheckStage(cfg: Config, s: Store, env: Envelope, cmd: Command, f: Faults)
    requires ParseCommand(cfg, env.content) == Some(cmd)
    ensures Settles(cfg, s, env, cmd, f, AtPrecheck(cfg, s, env, cmd, f), Reaches(cfg, s, env, f))
  {
    if !f.precheck.Fine? {
      FailSettles(cfg, s, s, env, cmd, f.precheck.Code(), f);
    } else if CommandId(cfg, env) !in s.consumed {
      KillSwitchStage(cfg, s, env, cmd, f);
    }
  }

  /** Exactly which runs commit, exactly which report 'executed', and what a commit changes. */
  lemma AllOrNothing(cfg: Config, s: Store, env: Envelope, f: Faults)
    ensures var p := Process(cfg, s, env, f);
      && (p.committed <==> Reaches(cfg, s, env, f) && !f.effect.Refused?)
      && (p.result == Returned(Executed) <==> Reaches(cfg, s, env, f) && f.effect.Fine?)
      && BusinessOf(p.store) == (if p.committed
           then Meaning(BusinessOf(s), cfg.threshold, ParseCommand(cfg, env.content).value, env.correlationId)
           else BusinessOf(s))
      && (p.committed ==> p.store.consumed == s.consumed[CommandId(cfg, env) := env.correlationId])
      && (Quiet(p.result) ==> p.store == s.(audit := p.store.audit))
  {
    if ParseCommand(cfg, env.content).Some? {
      PrecheckStage(cfg, s, env, ParseCommand(cfg, env.content).value, f);
    }
  }

  /** 'executed' is reported exactly for committed effects, unless the reply to COMMIT is lost. */
  lemma ExecutedMeansCommitted(cfg: Config, s: Store, env: Envelope, f: Faults)
    ensures var p := Process(cfg, s, env, f);
      (p.committed <==> p.result == Returned(Executed)) <==> !(Reaches(cfg, s, env, f) && f.effect.LostReply?)
  {
    AllOrNothing(cfg, s, env, f);
  }

  /** What the caller hears then. */
  lemma LostReplyIsCaught(cfg: Config, s: Store, env: Envelope, f: Faults)
    requires Reaches(cfg, s, env, f) && f.effect == LostReply(false) && f.enqueue.Fine?
    ensures Process(cfg, s, env, f).result == Returned(DeadLetter(EffectFailed))
  {
    var cmd := ParseCommand(cfg, env.content).value;
    Policy.AllowedExactlyWhenPermitted(cmd, Policy.Context(s.killSwitch, ClaimOf(s, cmd), false, cfg.threshold), ResolveRole(cfg, env));
  }

  /** Who may have an effect, and on what: read off the store the run started from. */
  ghost predicate Authorized(cfg: Config, s: Store, env: Envelope, cmd: Command) {
    && (|| (env.signed && IsCeo(cfg, env.author))
        || (!env.signed && IsAgent(cfg, env.author) && !IsCeo(cfg, env.author) && cmd.SettlementApprove?
            && cmd.claimId in s.claims && Eur(s.claims[cmd.claimId].amount) <= cfg.threshold))
    && (cmd.SettlementApprove? ==>
          && cmd.claimId in s.claims && s.claims[cmd.claimId].Open() && !s.claims[cmd.claimId].blocked
          && Eur(s.claims[cmd.claimId].amount) <= cmd.maxAmount)
    && (cmd.SettlementReject? ==> cmd.claimId in s.claims && s.claims[cmd.claimId].status !in {Regle, Cloture})
    && (s.Locked() ==> cmd.KillSwitchDeactivate?)
  }

  lemma CommitsAreAuthorized(cfg: Config, s: Store, env: Envelope, f: Faults)
    requires Process(cfg, s, env, f).committed
    ensures ParseCommand(cfg, env.content).Some?
    ensures Authorized(cfg, s, env, ParseCommand(cfg, env.content).value)
    ensures CommandId(cfg, env) !in s.consumed
  {
    AllOrNothing(cfg, s, env, f);
  }

  /** The conditions of a command that do not depend on who gives it. */
  ghost predicate Timely(s: Store, cmd: Command) {
    && (cmd.PricingException? ==> cmd.newPrime > 0.0)
    && (cmd.KillSwitchDeactivate? ==> s.Locked())
  }

  predicate CallsFine(cmd: Command, f: Faults) {
    && f.precheck.Fine? && f.killSwitchRead.Fine? && f.consumedRead.Fine? && f.consume.Fine? && f.auditCommand.Fine? && !f.effect.Refused?
    && (cmd.IsClaim() ==> f.claimRead.Fine? && f.linkApproval.Fine?)
  }

  /** Exactly which runs commit: fresh, by someone authorized, at the right time, with no call before the effect failing. */
  lemma CommitsExactly(cfg: Config, s: Store, env: Envelope, f: Faults)
    ensures Process(cfg, s, env, f).committed <==>
      && ParseCommand(cfg, env.content).Some?
      && var cmd := ParseCommand(cfg, env.content).value;
      && CommandId(cfg, env) !in s.consumed && Authorized(cfg, s, env, cmd) && Timely(s, cmd) && CallsFine(cmd, f)
  {
    AllOrNothing(cfg, s, env, f);
  }

  /** A run that only left traces: audit records and, if it failed, a dead letter. */
  predicate OnlyTraces(s: Store, t: Store) {
    t == s.(audit := t.audit, deadLetters := t.deadLetters) && s.audit <= t.audit && s.deadLetters <= t.deadLetters
  }

  /** While the switch is on, nothing but a deactivation gets as far as consuming its id. */
  lemma LockedLeavesTraces(cfg: Config, s: Store, env: Envelope, f: Faults)
    requires s.Locked()
    requires ParseCommand(cfg, env.content).Some? ==> !ParseCommand(cfg, env.content).value.KillSwitchDeactivate?
    ensures OnlyTraces(s, Process(cfg, s, env, f).store)
  {
    var parsed := ParseCommand(cfg, env.content);
    if parsed.Some? {
      LockedStage(cfg, s, env, parsed.value, f);
      if !f.precheck.Fine? {
        FailKeeps(cfg, s, env, f.precheck.Code(), f, false);
      }
    }
  }

  lemma LockedStage(cfg: Config, s: Store, env: Envelope, cmd: Command, f: Faults)
    requires s.Locked() && !cmd.KillSwitchDeactivate?
    ensures OnlyTraces(s, AtKillSwitch(cfg, s, env, cmd, f).store)
  {
    if !f.killSwitchRead.Fine? {
      FailKeeps(cfg, s, env, f.killSwitchRead.Code(), f, false);
    } else {
      FailKeeps(cfg, SafeAudit(cfg, s, env, KillSwitchBlockedAudit(s.killSwitch.value.setBy), f.audit), env, KillSwitchBlocked, f, false);
    }
  }

  /** A CEO author without a signature gets nowhere. */
  lemma UnsignedCeoLeavesTraces(cfg: Config, s: Store, env: Envelope, f: Faults)
    requires !env.signed && IsCeo(cfg, env.author)
    ensures var p := Process(cfg, s, env, f);
      && !p.committed && OnlyTraces(s, p.store)
      && (f.precheck.Fine? ==> p.store.deadLetters == s.deadLetters && p.result.Returned?)
  {
    if !f.precheck.Fine? {
      FailKeeps(cfg, s, env, f.precheck.Code(), f, false);
    }
  }
}
