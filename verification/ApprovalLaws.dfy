/** How an approval can change, statement by statement and run by run: its status moves forward, its terms stay. */
module ApprovalLaws {
  import opened Text
  import opened Json
  import opened Domain
  import opened Repository
  import opened Pipeline
  import opened Server

  /** No status returns to en_attente, refuse is final, and approuve can only become refuse. */
  predicate Later(a: ApprovalStatus, b: ApprovalStatus) {
    a == b || b == Rejected || (a == EnAttente && b == Approuve)
  }

  /** What an approval asks for, and who asked. */
  predicate SameTerms(a: Approval, b: Approval) {
    a.kind == b.kind && a.claimId == b.claimId && a.amount == b.amount && a.requestedBy == b.requestedBy
  }

  /** Approvals stay and keep their terms, move forward, and leave approuve only for the correlation id in `rejected`. */
  ghost predicate Moves(s: Store, t: Store, rejected: Option<Id>) {
    forall k :: k in s.approvals ==>
      && k in t.approvals && SameTerms(s.approvals[k], t.approvals[k])
      && Later(s.approvals[k].status, t.approvals[k].status)
      && (s.approvals[k].status == Approuve ==> t.approvals[k].status == Approuve || rejected == Some(k))
  }

  lemma MovesThen(s: Store, t: Store, u: Store, rejected: Option<Id>)
    requires (Moves(s, t, None) && Moves(t, u, rejected)) || (Moves(s, t, rejected) && Moves(t, u, None))
    ensures Moves(s, u, rejected)
  {
  }

  lemma StatementsMove(s: Store, correlationId: Id, a: Approval, decidedBy: Id, reason: Str, approve: bool)
    ensures Moves(s, WithApproval(s, correlationId, a), None)
    ensures Moves(s, WithDecision(s, correlationId, decidedBy, reason, approve), None)
  {
  }

  function RejectedBy(cmd: Command, correlationId: Id): Option<Id> {
    if cmd.SettlementReject? then Some(correlationId) else None
  }

  lemma EffectMoves(s: Store, threshold: real, cmd: Command, correlationId: Id)
    ensures Moves(s, WithEffect(s, threshold, cmd, correlationId), RejectedBy(cmd, correlationId))
  {
  }

  lemma FailMoves(cfg: Config, s: Store, env: Envelope, code: ErrorCode, f: Faults, committed: bool)
    ensures Fail(cfg, s, env, code, f, committed).store.approvals == s.approvals
    ensures Fail(cfg, s, env, code, f, committed).committed == committed
  {
  }

  lemma DecideStageMoves(cfg: Config, s: Store, env: Envelope, cmd: Command, f: Faults)
    ensures var p := AtDecide(cfg, s, env, cmd, f); p.committed && Moves(s, p.store, None)
  {
    if cmd.IsClaim() {
      DecisionStatementMoves(s, env.correlationId, cmd.approvedBy, cmd.reason, cmd.SettlementApprove?);
    }
  }

  lemma EffectStageMoves(cfg: Config, s: Store, env: Envelope, cmd: Command, f: Faults)
    ensures var p := AtEffect(cfg, s, env, cmd, f);
      Moves(s, p.store, if p.committed then RejectedBy(cmd, env.correlationId) else None)
  {
    var after := f.effect.After(s, WithEffect(s, cfg.threshold, cmd, env.correlationId));
    EffectMoves(s, cfg.threshold, cmd, env.correlationId);
    if f.effect.Fine? {
      DecideStageMoves(cfg, after, env, cmd, f);
      MovesThen(s, after, AtDecide(cfg, after, env, cmd, f).store, RejectedBy(cmd, env.correlationId));
    } else {
      FailMoves(cfg, after, env, f.effect.Code(), f, f.effect.LostReply?);
    }
  }

  lemma {:induction false} AuditStageMoves(cfg: Config, s: Store, env: Envelope, cmd: Command, f: Faults)
    ensures var p := AtAuditCommand(cfg, s, env, cmd, f);
      Moves(s, p.store, if p.committed then RejectedBy(cmd, env.correlationId) else None)
  {
    var after := f.auditCommand.After(s, WithAudit(cfg, s, env.correlationId, CommandEvent(cfg, env, cmd)));
    if f.auditCommand.Fine? {
      EffectStageMoves(cfg, after, env, cmd, f);
    } else {
      FailMoves(cfg, after, env, f.auditCommand.Code(), f, false);
    }
  }

  lemma LinkStageMoves(cfg: Config, s: Store, env: Envelope, cmd: Command, f: Faults)
    ensures var p := AtLinkApproval(cfg, s, env, cmd, f);
      Moves(s, p.store, if p.committed then RejectedBy(cmd, env.correlationId) else None)
  {
    if cmd.IsClaim() {
      var after := f.linkApproval.After(s, WithApproval(s, env.correlationId, LinkedApproval(cmd)));
      StatementsMove(s, env.correlationId, LinkedApproval(cmd), cmd.approvedBy, cmd.reason, true);
      if f.linkApproval.Fine? {
        AuditStageMoves(cfg, after, env, cmd, f);
        var p := AtAuditCommand(cfg, after, env, cmd, f);
        MovesThen(s, after, p.store, if p.committed then RejectedBy(cmd, env.correlationId) else None);
      } else {
        FailMoves(cfg, after, env, f.linkApproval.Code(), f, false);
      }
    } else {
      AuditStageMoves(cfg, s, env, cmd, f);
    }
  }

  lemma ConsumeStageMoves(cfg: Config, s: Store, env: Envelope, cmd: Command, f: Faults)
    ensures var p := AtConsume(cfg, s, env, cmd, f);
      Moves(s, p.store, if p.committed then RejectedBy(cmd, env.correlationId) else None)
  {
    var after := f.consume.After(s, WithConsumed(s, CommandId(cfg, env), env.correlationId));
    if f.consume.Fine? {
      LinkStageMoves(cfg, after, env, cmd, f);
    } else {
      FailMoves(cfg, after, env, f.consume.Code(), f, false);
    }
  }

  lemma PolicyStageMoves(cfg: Config, s: Store, env: Envelope, cmd: Command, f: Faults)
    ensures var p := AtPolicy(cfg, s, env, cmd, f);
      Moves(s, p.store, if p.committed then RejectedBy(cmd, env.correlationId) else None)
  {
    ConsumeStageMoves(cfg, s, env, cmd, f);
    FailsMove(cfg, s, env, f);
  }

  lemma KillSwitchStageMoves(cfg: Config, s: Store, env: Envelope, cmd: Command, f: Faults)
    ensures var p := AtKillSwitch(cfg, s, env, cmd, f);
      Moves(s, p.store, if p.committed then RejectedBy(cmd, env.correlationId) else None)
  {
    PolicyStageMoves(cfg, s, env, cmd, f);
    FailsMove(cfg, s, env, f);
    FailsMove(cfg, SafeAudit(cfg, s, env, KillSwitchBlockedAudit(if s.Locked() then s.killSwitch.value.setBy else None), f.audit), env, f);
  }

  lemma FailsMove(cfg: Config, s: Store, env: Envelope, f: Faults)
    ensures forall code :: Fail(cfg, s, env, code, f, false).store.approvals == s.approvals && !Fail(cfg, s, env, code, f, false).committed
  {
    forall code
      ensures Fail(cfg, s, env, code, f, false).store.approvals == s.approvals && !Fail(cfg, s, env, code, f, false).committed
    {
      FailMoves(cfg, s, env, code, f, false);
    }
  }

  /** The correlation id a run may take out of approuve: that of a committed rejection. */
  function RejectedByRun(cfg: Config, env: Envelope, committed: bool): Option<Id> {
    if committed && ParseCommand(cfg, env.content).Some?
    then RejectedBy(ParseCommand(cfg, env.content).value, env.correlationId) else None
  }

  lemma ProcessMoves(cfg: Config, s: Store, env: Envelope, f: Faults)
    ensures var p := Process(cfg, s, env, f);
      Moves(s, p.store, RejectedByRun(cfg, env, p.committed))
  {
    if ParseCommand(cfg, env.content).Some? {
      KillSwitchStageMoves(cfg, s, env, ParseCommand(cfg, env.content).value, f);
      FailsMove(cfg, s, env, f);
    }
  }

  function RejectedByRequest(cfg: Config, r: Served): Option<Id> {
    if r.committed.Some? then RejectedByRun(cfg, r.committed.value, true) else None
  }

  lemma ServeMoves(cfg: Config, s: Store, req: Request, f: RequestFaults)
    ensures var r := Serve(cfg, s, req, f);
      Moves(s, r.store, RejectedByRequest(cfg, r))
  {
    match req
    case PostCommand(command, author, event, corr) => CommandMoves(cfg, s, command, author, event, corr, f.run);
    case PostApproval(claimId, amount, reason, requester, corr) =>
      StatementsMove(s, corr, RequestedApproval(cfg, claimId, amount, reason, requester), requester, reason, true);
    case PostDecision(corr, decidedBy, event, reason, approve, now) =>
      DecisionMoves(cfg, s, corr, decidedBy, event, reason, approve, now, f);
    case PostKillSwitch(active, decidedBy, reason, now, corr) =>
      KillSwitchMoves(cfg, s, active, decidedBy, reason, now, corr, f);
  }

  lemma CommandMoves(cfg: Config, s: Store, command: Json, author: Id, event: Option<SignedEvent>, corr: Id, f: Faults)
    ensures var r := ServeCommand(cfg, s, command, author, event, corr, f);
      Moves(s, r.store, RejectedByRequest(cfg, r))
  {
    var env := CommandEnvelope(cfg, command, author, event, corr);
    if env.Some? {
      ProcessMoves(cfg, s, env.value, f);
    }
  }

  lemma KillSwitchMoves(cfg: Config, s: Store, active: bool, decidedBy: Id, reason: Str, now: Str, corr: Id, f: RequestFaults)
    ensures var r := ServeKillSwitch(cfg, s, active, decidedBy, reason, now, corr, f);
      Moves(s, r.store, RejectedByRequest(cfg, r))
  {
    var ceo := cfg.normalize(decidedBy);
    if ceo in cfg.ceoKeys && f.route.Fine? {
      RunMoves(cfg, s, WithKillSwitch(s, active, ceo), KillSwitchEnvelope(cfg, active, ceo, reason, now, corr), f.run);
    }
  }

  lemma RunMoves(cfg: Config, s: Store, t: Store, env: Envelope, f: Faults)
    requires Moves(s, t, None)
    ensures var p := Process(cfg, t, env, f); Moves(s, p.store, RejectedByRun(cfg, env, p.committed))
  {
    ProcessMoves(cfg, t, env, f);
    var p := Process(cfg, t, env, f);
    MovesThen(s, t, p.store, RejectedByRun(cfg, env, p.committed));
  }

  lemma DecisionMoves(cfg: Config, s: Store, corr: Id, decidedBy: Id, event: Option<SignedEvent>,
                      reason: Str, approve: bool, now: Str, f: RequestFaults)
    ensures var r := ServeDecision(cfg, s, corr, decidedBy, event, reason, approve, now, f);
      Moves(s, r.store, RejectedByRequest(cfg, r))
  {
    var decider := Decider(cfg, decidedBy, event);
    if decider.Some? && decider.value in cfg.ceoKeys {
      var t := WithDecision(s, corr, decider.value, reason, approve);
      DecisionStatementMoves(s, corr, decider.value, reason, approve);
      if f.route.Fine? && Pending(s, corr) && Launches(t.approvals[corr], approve) {
        RunMoves(cfg, s, t, LaunchEnvelope(cfg, t.approvals[corr], corr, reason, decider.value, now), f.run);
      }
    }
  }

  lemma DecisionStatementMoves(s: Store, corr: Id, decidedBy: Id, reason: Str, approve: bool)
    ensures Moves(s, WithDecision(s, corr, decidedBy, reason, approve), None)
  {
  }
}
