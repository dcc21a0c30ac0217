/** What the approvals table holds after a run or a request: whose row changes, and what it says then. */
module ApprovalRows {
  import opened Text
  import opened Json
  import opened Domain
  import opened Repository
  import opened Pipeline
  import opened PipelineLaws
  import opened OutcomeLaws

  function RowAt(s: Store, corr: Id): Option<Approval> {
    if corr in s.approvals then Some(s.approvals[corr]) else None
  }

  /** Of all approvals only that of `corr` may differ, and it is `row`. */
  ghost predicate OnlyRow(s: Store, t: Store, corr: Id, row: Option<Approval>) {
    && RowAt(t, corr) == row
    && forall c :: c != corr ==> RowAt(t, c) == RowAt(s, c)
  }

  // ---------- what the row should be ----------

  /** A claim command asks for an approval of its own claim, with the amount if it is a settlement. */
  function AskedFor(cmd: Command): Approval
    requires cmd.IsClaim()
  {
    match cmd
    case SettlementApprove(claimId, maxAmount, _, actor, _) =>
      Approval(ClaimSettlementApprove, Some(claimId), Some(Cents(maxAmount)), EnAttente, Some(actor), None, None)
    case SettlementReject(claimId, _, actor, _) =>
      Approval(ClaimSettlementReject, Some(claimId), None, EnAttente, Some(actor), None, None)
  }

  /** The row once a claim command is linked to it: an existing row stays as it is. */
  function Linked(before: Option<Approval>, cmd: Command): Option<Approval> {
    if before.None? && cmd.IsClaim() then Some(AskedFor(cmd)) else before
  }

  /**
    The row once the command has had its effect. A settlement approves a waiting row and a refusal refuses any, but
    neither writes down who decided or why; a pricing exception enters an approved row unless there is one.
   */
  function Resolved(row: Option<Approval>, cmd: Command): Option<Approval> {
    match cmd
    case SettlementApprove(_, _, _, _, _) =>
      if row.Some? && row.value.status == EnAttente then Some(row.value.(status := Approuve)) else row
    case SettlementReject(_, _, _, _) => if row.Some? then Some(row.value.(status := Rejected)) else row
    case PricingException(_, prime, reason, actor, _) =>
      if row.Some? then row else Some(Approval(PolicyPricingException, None, Some(Cents(prime)), Approuve, None, Some(actor), Some(reason)))
    case _ => row
  }

  /** Nothing stood before the consumption of the command's id. */
  predicate Cleared(cfg: Config, s: Store, env: Envelope, f: Faults) {
    ParseCommand(cfg, env.content).Some?
    && First(BeforeConsumption(cfg, s, env, ParseCommand(cfg, env.content).value, f)) == Clear
  }

  /** The run's own row at its end. */
  function RowAfter(cfg: Config, s: Store, env: Envelope, f: Faults, committed: bool): Option<Approval> {
    var before := RowAt(s, env.correlationId);
    if !Cleared(cfg, s, env, f) || !f.consume.Fine? then before
    else
      var cmd := ParseCommand(cfg, env.content).value;
      var linked := if f.linkApproval.Refused? then before else Linked(before, cmd);
      if committed then Resolved(linked, cmd) else linked
  }

  // ---------- the stages, last first ----------

  lemma Untouched(s: Store, t: Store, corr: Id)
    requires t.approvals == s.approvals
    ensures OnlyRow(s, t, corr, RowAt(s, corr))
  {
  }

  lemma FailLeavesRows(cfg: Config, s: Store, env: Envelope, code: ErrorCode, f: Faults, committed: bool)
    ensures var p := Fail(cfg, s, env, code, f, committed);
      p.store.approvals == s.approvals && p.store.consumed == s.consumed && p.committed == committed
  {
    FailKeeps(cfg, s, env, code, f, committed);
  }

  /** The decision after an effect finds no waiting row, and changes nothing. */
  lemma DecidingIsTooLate(s: Store, corr: Id, actor: Id, reason: Str, approve: bool)
    requires !Pending(s, corr)
    ensures WithDecision(s, corr, actor, reason, approve) == s
  {
  }

  lemma EffectRow(s: Store, threshold: real, cmd: Command, corr: Id)
    ensures var t := WithEffect(s, threshold, cmd, corr);
      && OnlyRow(s, t, corr, Resolved(RowAt(s, corr), cmd)) && t.consumed == s.consumed
      && (cmd.IsClaim() ==> !Pending(t, corr))
  {
  }

  lemma EffectStageRow(cfg: Config, s: Store, env: Envelope, cmd: Command, f: Faults)
    ensures var p := AtEffect(cfg, s, env, cmd, f);
      && p.committed == !f.effect.Refused? && p.store.consumed == s.consumed
      && OnlyRow(s, p.store, env.correlationId,
                 if p.committed then Resolved(RowAt(s, env.correlationId), cmd) else RowAt(s, env.correlationId))
  {
    var t := f.effect.After(s, WithEffect(s, cfg.threshold, cmd, env.correlationId));
    EffectRow(s, cfg.threshold, cmd, env.correlationId);
    if !f.effect.Fine? {
      FailLeavesRows(cfg, t, env, f.effect.Code(), f, f.effect.LostReply?);
    } else if cmd.IsClaim() {
      DecidingIsTooLate(t, env.correlationId, cmd.approvedBy, cmd.reason, cmd.SettlementApprove?);
    }
  }

  lemma AuditStageRow(cfg: Config, s: Store, env: Envelope, cmd: Command, f: Faults)
    ensures var p := AtAuditCommand(cfg, s, env, cmd, f);
      && p.store.consumed == s.consumed
      && OnlyRow(s, p.store, env.correlationId,
                 if p.committed then Resolved(RowAt(s, env.correlationId), cmd) else RowAt(s, env.correlationId))
  {
    var t := f.auditCommand.After(s, WithAudit(cfg, s, env.correlationId, CommandEvent(cfg, env, cmd)));
    if f.auditCommand.Fine? {
      EffectStageRow(cfg, t, env, cmd, f);
    } else {
      FailLeavesRows(cfg, t, env, f.auditCommand.Code(), f, false);
    }
  }

  lemma LinkRow(s: Store, cmd: Command, corr: Id)
    requires cmd.IsClaim()
    ensures OnlyRow(s, WithApproval(s, corr, LinkedApproval(cmd)), corr, Linked(RowAt(s, corr), cmd))
  {
  }

  lemma LinkStageRow(cfg: Config, s: Store, env: Envelope, cmd: Command, f: Faults)
    ensures var p := AtLinkApproval(cfg, s, env, cmd, f);
      var linked := if f.linkApproval.Refused? then RowAt(s, env.correlationId) else Linked(RowAt(s, env.correlationId), cmd);
      && p.store.consumed == s.consumed
      && OnlyRow(s, p.store, env.correlationId, if p.committed then Resolved(linked, cmd) else linked)
  {
    if cmd.IsClaim() {
      var t := f.linkApproval.After(s, WithApproval(s, env.correlationId, LinkedApproval(cmd)));
      LinkRow(s, cmd, env.correlationId);
      if f.linkApproval.Fine? {
        AuditStageRow(cfg, t, env, cmd, f);
      } else {
        FailLeavesRows(cfg, t, env, f.linkApproval.Code(), f, false);
      }
    } else {
      AuditStageRow(cfg, s, env, cmd, f);
    }
  }

  /** What a cleared run does to approvals and consumed ids. */
  ghost predicate WritesOwn(cfg: Config, s: Store, env: Envelope, cmd: Command, f: Faults, p: Passage) {
    var before := RowAt(s, env.correlationId);
    var linked := if f.consume.Fine? && !f.linkApproval.Refused? then Linked(before, cmd) else before;
    && p.store.consumed == (if f.consume.Refused? then s.consumed else s.consumed[CommandId(cfg, env) := env.correlationId])
    && OnlyRow(s, p.store, env.correlationId, if p.committed then Resolved(linked, cmd) else linked)
    && (p.committed ==> f.consume.Fine?)
  }

  lemma ConsumeStageRow(cfg: Config, s: Store, env: Envelope, cmd: Command, f: Faults)
    requires CommandId(cfg, env) !in s.consumed
    ensures WritesOwn(cfg, s, env, cmd, f, AtConsume(cfg, s, env, cmd, f))
  {
    var t := f.consume.After(s, WithConsumed(s, CommandId(cfg, env), env.correlationId));
    if f.consume.Fine? {
      LinkStageRow(cfg, t, env, cmd, f);
    } else {
      FailLeavesRows(cfg, t, env, f.consume.Code(), f, false);
    }
  }

  /** A run that met an obstacle before its consumption writes neither. */
  ghost predicate WritesNothing(s: Store, p: Passage) {
    p.store.approvals == s.approvals && p.store.consumed == s.consumed && !p.committed
  }

  lemma FailWritesNothing(cfg: Config, s: Store, env: Envelope, f: Faults)
    ensures forall code :: WritesNothing(s, Fail(cfg, s, env, code, f, false))
  {
    forall code ensures WritesNothing(s, Fail(cfg, s, env, code, f, false)) {
      FailLeavesRows(cfg, s, env, code, f, false);
    }
  }

  /** A part of a run, with the obstacles left before consumption. */
  ghost predicate Writes(cfg: Config, s: Store, env: Envelope, cmd: Command, f: Faults, before: seq<Obstacle>, p: Passage) {
    if First(before) == Clear then WritesOwn(cfg, s, env, cmd, f, p) else WritesNothing(s, p)
  }

  lemma PolicyStageRow(cfg: Config, s: Store, env: Envelope, cmd: Command, f: Faults)
    requires CommandId(cfg, env) !in s.consumed
    ensures Writes(cfg, s, env, cmd, f, [OfClaims(cmd, f.claimRead), CallOf(f.consumedRead), AgainstPolicy(cfg, s, env, cmd)], AtPolicy(cfg, s, env, cmd, f))
  {
    FailWritesNothing(cfg, s, env, f);
    FirstFrom(OfClaims(cmd, f.claimRead), [CallOf(f.consumedRead)] + [AgainstPolicy(cfg, s, env, cmd)]);
    FirstFrom(CallOf(f.consumedRead), [AgainstPolicy(cfg, s, env, cmd)]);
    assert [OfClaims(cmd, f.claimRead), CallOf(f.consumedRead), AgainstPolicy(cfg, s, env, cmd)]
        == [OfClaims(cmd, f.claimRead)] + ([CallOf(f.consumedRead)] + [AgainstPolicy(cfg, s, env, cmd)]);
    if (cmd.IsClaim() ==> f.claimRead.Fine?) && f.consumedRead.Fine? && AgainstPolicy(cfg, s, env, cmd) == Clear {
      ConsumeStageRow(cfg, s, env, cmd, f);
    }
  }

  lemma KillSwitchStageRow(cfg: Config, s: Store, env: Envelope, cmd: Command, f: Faults)
    requires CommandId(cfg, env) !in s.consumed
    ensures Writes(cfg, s, env, cmd, f,
                   [CallOf(f.killSwitchRead), SwitchedOn(s, cmd), OfClaims(cmd, f.claimRead), CallOf(f.consumedRead), AgainstPolicy(cfg, s, env, cmd)],
                   AtKillSwitch(cfg, s, env, cmd, f))
  {
    var later := [OfClaims(cmd, f.claimRead), CallOf(f.consumedRead), AgainstPolicy(cfg, s, env, cmd)];
    FirstFrom(CallOf(f.killSwitchRead), [SwitchedOn(s, cmd)] + later);
    FirstFrom(SwitchedOn(s, cmd), later);
    assert [CallOf(f.killSwitchRead)] + ([SwitchedOn(s, cmd)] + later)
        == [CallOf(f.killSwitchRead), SwitchedOn(s, cmd), OfClaims(cmd, f.claimRead), CallOf(f.consumedRead), AgainstPolicy(cfg, s, env, cmd)];
    FailWritesNothing(cfg, s, env, f);
    if !f.killSwitchRead.Fine? {
    } else if SwitchedOn(s, cmd) != Clear {
      FailWritesNothing(cfg, SafeAudit(cfg, s, env, KillSwitchBlockedAudit(s.killSwitch.value.setBy), f.audit), env, f);
    } else {
      PolicyStageRow(cfg, s, env, cmd, f);
    }
  }

  lemma PrecheckStageRow(cfg: Config, s: Store, env: Envelope, cmd: Command, f: Faults)
    ensures Writes(cfg, s, env, cmd, f, BeforeConsumption(cfg, s, env, cmd, f), AtPrecheck(cfg, s, env, cmd, f))
  {
    var later := [CallOf(f.killSwitchRead), SwitchedOn(s, cmd), OfClaims(cmd, f.claimRead), CallOf(f.consumedRead), AgainstPolicy(cfg, s, env, cmd)];
    FirstFrom(CallOf(f.precheck), [AlreadyRun(cfg, s, env)] + ([UnsignedCeo(cfg, env)] + later));
    FirstFrom(AlreadyRun(cfg, s, env), [UnsignedCeo(cfg, env)] + later);
    FirstFrom(UnsignedCeo(cfg, env), later);
    assert [CallOf(f.precheck)] + ([AlreadyRun(cfg, s, env)] + ([UnsignedCeo(cfg, env)] + later)) == BeforeConsumption(cfg, s, env, cmd, f);
    FailWritesNothing(cfg, s, env, f);
    if f.precheck.Fine? && AlreadyRun(cfg, s, env) == Clear && UnsignedCeo(cfg, env) == Clear {
      KillSwitchStageRow(cfg, s, env, cmd, f);
    }
  }

  // ---------- a run ----------

  /** Under every pattern of failures: a run touches no approval but its own, and its own ends as it should. */
  lemma RunWritesItsRow(cfg: Config, s: Store, env: Envelope, f: Faults)
    ensures var p := Process(cfg, s, env, f);
      && OnlyRow(s, p.store, env.correlationId, RowAfter(cfg, s, env, f, p.committed))
      && p.store.consumed == (if Cleared(cfg, s, env, f) && !f.consume.Refused?
                              then s.consumed[CommandId(cfg, env) := env.correlationId] else s.consumed)
  {
    match ParseCommand(cfg, env.content)
    case None => Untouched(s, Process(cfg, s, env, f).store, env.correlationId);
    case Some(cmd) => PrecheckStageRow(cfg, s, env, cmd, f);
  }

  /** A committed pricing exception enters exactly one approved row, unless there is a row under its correlation id. */
  lemma PricingEntersRow(cfg: Config, s: Store, env: Envelope, f: Faults)
    requires Process(cfg, s, env, f).committed
    requires ParseCommand(cfg, env.content).Some? && ParseCommand(cfg, env.content).value.PricingException?
    ensures var cmd, t := ParseCommand(cfg, env.content).value, Process(cfg, s, env, f).store;
      t.approvals == if env.correlationId in s.approvals then s.approvals
                     else s.approvals[env.correlationId :=
                       Approval(PolicyPricingException, None, Some(Cents(cmd.newPrime)), Approuve, None, Some(cmd.approvedBy), Some(cmd.reason))]
  {
    var p, cmd := Process(cfg, s, env, f), ParseCommand(cfg, env.content).value;
    RunWritesItsRow(cfg, s, env, f);
    CommittedIsCleared(cfg, s, env, f);
    PricingRow(cfg, s, env, cmd, f);
    var row := RowAfter(cfg, s, env, f, true).value;
    OnlyRowIsUpdate(s, p.store, env.correlationId, row);
  }

  lemma PricingRow(cfg: Config, s: Store, env: Envelope, cmd: Command, f: Faults)
    requires Cleared(cfg, s, env, f) && f.consume.Fine? && ParseCommand(cfg, env.content) == Some(cmd) && cmd.PricingException?
    ensures RowAfter(cfg, s, env, f, true)
         == if env.correlationId in s.approvals then Some(s.approvals[env.correlationId])
            else Some(Approval(PolicyPricingException, None, Some(Cents(cmd.newPrime)), Approuve, None, Some(cmd.approvedBy), Some(cmd.reason)))
  {
  }

  lemma OnlyRowIsUpdate(s: Store, t: Store, corr: Id, row: Approval)
    requires OnlyRow(s, t, corr, Some(row))
    ensures t.approvals == s.approvals[corr := row]
  {
    forall c ensures c in t.approvals <==> c in s.approvals || c == corr {
      assert c != corr ==> RowAt(t, c) == RowAt(s, c);
    }
    forall c | c in t.approvals ensures t.approvals[c] == s.approvals[corr := row][c] {
      assert c != corr ==> RowAt(t, c) == RowAt(s, c);
    }
  }

  lemma CommittedIsCleared(cfg: Config, s: Store, env: Envelope, f: Faults)
    requires Process(cfg, s, env, f).committed
    ensures Cleared(cfg, s, env, f) && f.consume.Fine?
  {
    PrecheckStageRow(cfg, s, env, ParseCommand(cfg, env.content).value, f);
  }

  /** Content that has had its effect is never run again, whoever sends it, under whatever correlation id. */
  lemma ContentRunsOnce(cfg: Config, s: Store, env: Envelope, f: Faults, t: Store, again: Envelope, g: Faults)
    requires Process(cfg, s, env, f).committed && again.content == env.content && g.precheck.Fine?
    requires Process(cfg, s, env, f).store.consumed.Keys <= t.consumed.Keys
    ensures var p := Process(cfg, t, again, g);
      p.result == Returned(Consumed) && !p.committed && p.store == t.(audit := p.store.audit)
  {
    AllOrNothing(cfg, s, env, f);
  }
}
