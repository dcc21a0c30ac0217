/** What each route answers, what a refused request leaves, and what a request or a decision writes down. */
module RouteLaws {
  import opened Text
  import opened Json
  import opened JsonLaws
  import opened Domain
  import opened Repository
  import opened Pipeline
  import opened PipelineLaws
  import opened ApprovalRows
  import opened Server
  import opened SerialRuns
  import opened MoneyLaws
  import Audit

  // ---------- POST /commands ----------

  /** The event signs this command: a channel message whose content is the command's value, and which verifies. */
  ghost predicate Signs(cfg: Config, ev: SignedEvent, command: Json) {
    && ev.kind == 9 && cfg.verifyEvent(ev)
    && cfg.platform.parse(ev.content).Some?
    && SameValue(Finite(cfg.platform.parse(ev.content).value), Finite(command))
  }

  /** The actions an unsigned request may not ask for when signatures are required. */
  predicate NeedsSignature(cfg: Config, cmd: Command) {
    cfg.requireSigned && !cmd.SettlementApprove? && !cmd.FinanceReport?
  }

  lemma VerifiedExactlyWhenSigned(cfg: Config, ev: SignedEvent, command: Json)
    requires cfg.platform.Holds(command)
    requires cfg.platform.parse(ev.content).Some? ==> cfg.platform.Holds(cfg.platform.parse(ev.content).value)
    ensures VerifySigned(cfg, ev, command) == if Signs(cfg, ev, command) then Some(cfg.lower(ev.pubkey)) else None
  {
    if cfg.platform.parse(ev.content).Some? {
      StableDecidesEquality(cfg.platform.parse(ev.content).value, command);
    }
  }

  /** Who a posted command runs as. */
  function RunsAs(cfg: Config, command: Json, author: Id, event: Option<SignedEvent>, corr: Id): Envelope {
    Envelope(if event.Some? then cfg.lower(event.value.pubkey) else author, Stringify(command), corr, event.Some?)
  }

  /** Exactly when a posted command is refused, that a refusal leaves no trace, and what is answered otherwise. */
  lemma CommandRoute(cfg: Config, s: Store, command: Json, author: Id, event: Option<SignedEvent>, corr: Id, f: Faults)
    requires Audit.Lawful(cfg.platform) && cfg.platform.Holds(command)
    ensures var r := ServeCommand(cfg, s, command, author, event, corr, f);
      if cfg.validate(command).None? then r == Served(s, BadRequest, None)
      else if (event.Some? && !Signs(cfg, event.value, command))
           || (event.None? && NeedsSignature(cfg, cfg.validate(command).value)) then r == Served(s, Unauthorized, None)
      else
        var p := Process(cfg, s, RunsAs(cfg, command, author, event, corr), f);
        && r.store == p.store && r.committed == (if p.committed then Some(RunsAs(cfg, command, author, event, corr)) else None)
        && r.response == (if p.result.Returned? then Ok(Some(p.result.outcome)) else ServerError)
  {
    if event.Some? {
      VerifiedExactlyWhenSigned(cfg, event.value, command);
    }
    CheckedRoute(cfg, s, command, author, event, corr, f);
    if cfg.validate(command).Some? {
      RunIsAnswered(RunsAs(cfg, command, author, event, corr), Process(cfg, s, RunsAs(cfg, command, author, event, corr), f));
    }
  }

  lemma RunIsAnswered(env: Envelope, p: Passage)
    ensures var r := AfterRun(env, p, Respond(p.result));
      && r.store == p.store && r.committed == (if p.committed then Some(env) else None)
      && r.response == (if p.result.Returned? then Ok(Some(p.result.outcome)) else ServerError)
  {
  }

  lemma CheckedRoute(cfg: Config, s: Store, command: Json, author: Id, event: Option<SignedEvent>, corr: Id, f: Faults)
    requires event.Some? ==> VerifySigned(cfg, event.value, command) in {None, Some(cfg.lower(event.value.pubkey))}
    ensures ServeCommand(cfg, s, command, author, event, corr, f)
         == if cfg.validate(command).None? then Served(s, BadRequest, None)
            else if (event.Some? && VerifySigned(cfg, event.value, command).None?)
                 || (event.None? && NeedsSignature(cfg, cfg.validate(command).value)) then Served(s, Unauthorized, None)
            else
              var env := RunsAs(cfg, command, author, event, corr);
              AfterRun(env, Process(cfg, s, env, f), Respond(Process(cfg, s, env, f).result))
  {
  }

  // ---------- POST /approvals ----------

  /** A known key's request enters a waiting row of exactly what it asks for; any other request leaves no trace. */
  lemma ApprovalRoute(cfg: Config, s: Store, claimId: Id, amount: real, reason: Str, requester: Id, corr: Id, f: Fault)
    ensures var r := ServeApproval(cfg, s, claimId, amount, reason, requester, corr, f);
      && r.committed == None
      && (if amount <= 0.0 then r == Served(s, BadRequest, None)
          else if cfg.normalize(requester) !in cfg.ceoKeys && cfg.normalize(requester) !in cfg.agentKeys then r == Served(s, Forbidden, None)
          else
            && r.response == (if f.Fine? then Ok(None) else ServerError)
            && r.store == if f.Refused? || corr in s.approvals then s
                          else s.(approvals := s.approvals[corr := Approval(ClaimSettlementApprove, Some(claimId), Some(Cents(amount)),
                                                                            EnAttente, Some(cfg.normalize(requester)), None, Some(reason))]))
  {
  }

  // ---------- POST /approvals/:correlationId/decide ----------

  /** The key a decision is made under: the signer's when an event is attached, else the declared one. */
  function DecidingKey(cfg: Config, decidedBy: Id, event: Option<SignedEvent>): Id {
    cfg.normalize(if event.Some? then cfg.lower(event.value.pubkey) else decidedBy)
  }

  /** The row after a decision: status, who and why; nothing else of it. */
  function DecidedRow(a: Approval, ceo: Id, reason: Str, approve: bool): Approval {
    Approval(a.kind, a.claimId, a.amount, if approve then Approuve else Rejected, a.requestedBy, Some(ceo), Some(reason))
  }

  /** Exactly who may decide what, and that a refused decision leaves no trace. */
  lemma DecisionRefused(cfg: Config, s: Store, corr: Id, decidedBy: Id, event: Option<SignedEvent>,
                        reason: Str, approve: bool, now: Str, f: RequestFaults)
    ensures var r := ServeDecision(cfg, s, corr, decidedBy, event, reason, approve, now, f);
      && (event.Some? && !cfg.verifyEvent(event.value) ==> r == Served(s, Unauthorized, None))
      && ((event.Some? ==> cfg.verifyEvent(event.value)) && DecidingKey(cfg, decidedBy, event) !in cfg.ceoKeys ==> r == Served(s, Forbidden, None))
      && ((event.Some? ==> cfg.verifyEvent(event.value)) && DecidingKey(cfg, decidedBy, event) in cfg.ceoKeys && !Pending(s, corr) ==>
            r == Served(s, if f.route.Fine? then Conflict else ServerError, None))
  {
  }

  /** An accepted decision is written into its row, whatever becomes of the settlement it launches, and into no other. */
  lemma DecisionIsRecorded(cfg: Config, s: Store, corr: Id, decidedBy: Id, event: Option<SignedEvent>,
                           reason: Str, approve: bool, now: Str, f: RequestFaults)
    requires Lawful(cfg) && (event.Some? ==> cfg.verifyEvent(event.value)) && DecidingKey(cfg, decidedBy, event) in cfg.ceoKeys
    requires Pending(s, corr) && !f.route.Refused?
    ensures var r := ServeDecision(cfg, s, corr, decidedBy, event, reason, approve, now, f);
      r.store.approvals == s.approvals[corr := DecidedRow(s.approvals[corr], DecidingKey(cfg, decidedBy, event), reason, approve)]
  {
    var ceo := DecidingKey(cfg, decidedBy, event);
    var t := WithDecision(s, corr, ceo, reason, approve);
    assert t.approvals == s.approvals[corr := DecidedRow(s.approvals[corr], ceo, reason, approve)];
    if f.route.Fine? && Launches(t.approvals[corr], approve) {
      LaunchLeavesRows(cfg, t, t.approvals[corr], corr, reason, ceo, now, f.run);
    }
  }

  /** What an accepted decision answers: what its settlement came to, if it launches one. */
  lemma DecisionAnswered(cfg: Config, s: Store, corr: Id, decidedBy: Id, event: Option<SignedEvent>,
                         reason: Str, approve: bool, now: Str, f: RequestFaults)
    requires (event.Some? ==> cfg.verifyEvent(event.value)) && DecidingKey(cfg, decidedBy, event) in cfg.ceoKeys && Pending(s, corr)
    ensures var r, a := ServeDecision(cfg, s, corr, decidedBy, event, reason, approve, now, f), s.approvals[corr];
      if !f.route.Fine? then r.response == ServerError
      else if !(approve && a.kind == ClaimSettlementApprove && a.amount.Some?) then r.response == Ok(None)
      else
        var ceo := DecidingKey(cfg, decidedBy, event);
        var p := Process(cfg, WithDecision(s, corr, ceo, reason, approve),
                         LaunchEnvelope(cfg, DecidedRow(a, ceo, reason, approve), corr, reason, ceo, now), f.run);
        r.response == (if p.result.Returned? then Ok(Some(p.result.outcome)) else ServerError)
  {
  }

  /** The settlement a decision launches finds its row decided, and leaves it so. */
  lemma LaunchLeavesRows(cfg: Config, s: Store, a: Approval, corr: Id, reason: Str, ceo: Id, now: Str, f: Faults)
    requires Lawful(cfg) && a.amount.Some? && corr in s.approvals && s.approvals[corr].status != EnAttente
    ensures Process(cfg, s, LaunchEnvelope(cfg, a, corr, reason, ceo, now), f).store.approvals == s.approvals
  {
    MadeTextIsTheCommand(cfg, LaunchedCommand(a, corr, reason, ceo, now));
    SettlementLeavesDecided(cfg, s, LaunchEnvelope(cfg, a, corr, reason, ceo, now), f);
  }

  /** A settlement does not touch a row that is no longer waiting. */
  lemma SettlementLeavesDecided(cfg: Config, s: Store, env: Envelope, f: Faults)
    requires ParseCommand(cfg, env.content).Some? ==> ParseCommand(cfg, env.content).value.SettlementApprove?
    requires env.correlationId in s.approvals && s.approvals[env.correlationId].status != EnAttente
    ensures Process(cfg, s, env, f).store.approvals == s.approvals
  {
    RunWritesItsRow(cfg, s, env, f);
    OnlyRowIsUpdate(s, Process(cfg, s, env, f).store, env.correlationId, s.approvals[env.correlationId]);
  }

  /** What a decision launches: the settlement of the approval's claim at its amount, in the CEO's name, as signed. */
  lemma DecisionLaunches(cfg: Config, s: Store, corr: Id, decidedBy: Id, event: Option<SignedEvent>,
                         reason: Str, approve: bool, now: Str, f: RequestFaults)
    requires Lawful(cfg)
    ensures var r := ServeDecision(cfg, s, corr, decidedBy, event, reason, approve, now, f);
      r.committed.Some? ==>
        && approve && Pending(s, corr) && s.approvals[corr].kind == ClaimSettlementApprove && s.approvals[corr].amount.Some?
        && r.committed.value.author == DecidingKey(cfg, decidedBy, event)
        && r.committed.value.correlationId == corr && r.committed.value.signed
        && ParseCommand(cfg, r.committed.value.content)
           == Some(SettlementApprove(ApprovedClaim(s, corr), Eur(s.approvals[corr].amount.value),
                                     EXECUTION_PREFIX + (if |reason| > 100 then reason[..100] else reason) + EXECUTION_SUFFIX,
                                     DecidingKey(cfg, decidedBy, event), now))
  {
    var ceo := DecidingKey(cfg, decidedBy, event);
    if Pending(s, corr) && s.approvals[corr].amount.Some? {
      MadeTextIsTheCommand(cfg, LaunchedCommand(WithDecision(s, corr, ceo, reason, approve).approvals[corr], corr, reason, ceo, now));
    }
    LaunchedEnvelope(cfg, s, corr, decidedBy, event, reason, approve, now, f);
  }

  lemma LaunchedEnvelope(cfg: Config, s: Store, corr: Id, decidedBy: Id, event: Option<SignedEvent>,
                         reason: Str, approve: bool, now: Str, f: RequestFaults)
    ensures var r, ceo := ServeDecision(cfg, s, corr, decidedBy, event, reason, approve, now, f), DecidingKey(cfg, decidedBy, event);
      r.committed.Some? ==>
        && approve && Pending(s, corr) && s.approvals[corr].kind == ClaimSettlementApprove && s.approvals[corr].amount.Some?
        && r.committed == Some(LaunchEnvelope(cfg, WithDecision(s, corr, ceo, reason, approve).approvals[corr], corr, reason, ceo, now))
        && ParseCommand(cfg, r.committed.value.content).Some?
  {
    var r := ServeDecision(cfg, s, corr, decidedBy, event, reason, approve, now, f);
    if r.committed.Some? {
      var t := WithDecision(s, corr, DecidingKey(cfg, decidedBy, event), reason, approve);
      AllOrNothing(cfg, t, r.committed.value, f.run);
    }
  }

  // ---------- POST /killswitch ----------

  /** The row says what was asked and by whom; a request by any other key leaves no trace. */
  lemma KillSwitchRoute(cfg: Config, s: Store, active: bool, decidedBy: Id, reason: Str, now: Str, corr: Id, f: RequestFaults)
    requires KeysNormalize(cfg)
    ensures var r := ServeKillSwitch(cfg, s, active, decidedBy, reason, now, corr, f);
      if cfg.normalize(decidedBy) !in cfg.ceoKeys then r == Served(s, Forbidden, None)
      else
        && r.committed == None
        && r.store.killSwitch == (if f.route.Refused? then s.killSwitch else Some(KillSwitchRow(active, Some(cfg.normalize(decidedBy)))))
        && r.store == s.(killSwitch := r.store.killSwitch, audit := r.store.audit, deadLetters := r.store.deadLetters)
        && (r.response == Ok(None) || r.response == ServerError)
        && (f.route.Fine? && f.run.precheck.Fine? ==> r.response == Ok(None))
        && (!f.route.Fine? ==> r.response == ServerError)
  {
    KillSwitchRouteSetsTheSwitch(cfg, s, active, decidedBy, reason, now, corr, f);
    if cfg.normalize(decidedBy) in cfg.ceoKeys && f.route.Fine? {
      UnsignedCeoLeavesTraces(cfg, WithKillSwitch(s, active, cfg.normalize(decidedBy)),
                              KillSwitchEnvelope(cfg, active, cfg.normalize(decidedBy), reason, now, corr), f.run);
    }
  }

  // ---------- from a request to its payment ----------

  /** The request of a known key for an approval under a free correlation id, which takes effect. */
  predicate Requests(cfg: Config, s: Store, step: Step, corr: Id) {
    && step.req.PostApproval? && step.req.correlationId == corr && step.req.amount > 0.0
    && (IsCeo(cfg, step.req.requestedBy) || IsAgent(cfg, step.req.requestedBy))
    && corr !in s.approvals && !step.faults.route.Refused?
  }

  /**
    In any serial run: what a decision pays on an approval requested earlier in the run is for the requested claim,
    and at most the requested amount.
   */
  lemma RequestedIsPaid(cfg: Config, s: Store, steps: seq<Step>, i: nat, j: nat)
    requires Lawful(cfg) && cfg.threshold > 0.0 && i < j < |steps|
    requires Requests(cfg, Run(cfg, s, steps[..i]), steps[i], steps[i].req.correlationId)
    requires steps[j].req.PostDecision? && steps[j].req.correlationId == steps[i].req.correlationId
    requires ServedAt(cfg, s, steps, j).committed.Some?
    ensures var before, after := Run(cfg, s, steps[..j]).ledger, Run(cfg, s, steps[..j + 1]).ledger;
      && |after| == |before| + 1 && after[..|before|] == before
      && after[|before|].claimId == steps[i].req.claimId && -after[|before|].amount <= Cents(steps[i].req.amount)
  {
    var req, d := steps[i].req, steps[j].req;
    RunUpTo(cfg, s, steps, i);
    RunUpTo(cfg, s, steps, j);
    ApprovalRoute(cfg, Run(cfg, s, steps[..i]), req.claimId, req.amount, req.reason, req.requestedBy, req.correlationId, steps[i].faults.route);
    RunMovesApprovals(cfg, s, steps, i + 1, j);
    DecisionPaysApproved(cfg, Run(cfg, s, steps[..j]), d.correlationId, d.decidedBy, d.event, d.reason, d.approve, d.now, steps[j].faults);
  }
}
