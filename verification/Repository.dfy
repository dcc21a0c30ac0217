/**
  The repository: what each SQL statement does to the tables, and a class that issues them. Any call may fail
  before it takes effect or lose its reply after it did.
 */
module Repository {
  import opened Text
  import opened Json
  import opened JsonLaws
  import opened Domain
  import Audit

  // ---------- failures ----------

  /** `Refused`: the call did nothing. `LostReply`: it took effect, and the caller sees an error all the same. */
  datatype Fault = Fine | Refused(transient: bool) | LostReply(transient: bool)
  {
    function Code(): ErrorCode
      requires !Fine?
    {
      if transient then DbUnavailable else EffectFailed
    }

    /** The store after a statement that would turn s into t. */
    function After(s: Store, t: Store): Store { if Refused? then s else t }
  }

  datatype Reply<+T> = Done(value: T) | Failed(fault: Fault)

  function Answer<T>(f: Fault, value: T): Reply<T> {
    if f.Fine? then Done(value) else Failed(f)
  }

  // ---------- statements ----------

  /** A consumed id is written once; writing it again does nothing. */
  function WithConsumed(s: Store, commandId: Id, correlationId: Id): Store {
    if commandId in s.consumed then s else s.(consumed := s.consumed[commandId := correlationId])
  }

  /** An approval is written unless its correlation id has one. */
  function WithApproval(s: Store, correlationId: Id, a: Approval): Store {
    if correlationId in s.approvals then s else s.(approvals := s.approvals[correlationId := a])
  }

  function LinkedApproval(cmd: Command): Approval
    requires cmd.IsClaim()
  {
    Approval(cmd.Type(), Some(cmd.claimId), if cmd.SettlementApprove? then Some(Cents(cmd.maxAmount)) else None,
             EnAttente, Some(cmd.approvedBy), None, None)
  }

  predicate Pending(s: Store, correlationId: Id) {
    correlationId in s.approvals && s.approvals[correlationId].status == EnAttente
  }

  function Decided(a: Approval, decidedBy: Id, reason: Str, approve: bool): Approval {
    a.(status := if approve then Approuve else Rejected, decidedBy := Some(decidedBy), reason := Some(reason))
  }

  /** Deciding an approval touches it only while it waits. */
  function WithDecision(s: Store, correlationId: Id, decidedBy: Id, reason: Str, approve: bool): Store {
    if Pending(s, correlationId)
    then s.(approvals := s.approvals[correlationId := Decided(s.approvals[correlationId], decidedBy, reason, approve)])
    else s
  }

  function WithKillSwitch(s: Store, active: bool, setBy: Id): Store {
    s.(killSwitch := Some(KillSwitchRow(active, Some(setBy))))
  }

  /** Setting the status of a claim that does not exist does nothing. */
  function SetStatus(claims: map<Id, Claim>, claimId: Id, status: ClaimStatus): map<Id, Claim> {
    if claimId in claims then claims[claimId := claims[claimId].(status := status)] else claims
  }

  function WithClaimStatus(s: Store, claimId: Id, status: ClaimStatus): Store {
    s.(claims := SetStatus(s.claims, claimId, status))
  }

  function WithApprovalStatus(s: Store, correlationId: Id, status: ApprovalStatus): Store {
    if correlationId in s.approvals
    then s.(approvals := s.approvals[correlationId := s.approvals[correlationId].(status := status)])
    else s
  }

  /** A settlement row takes out what the command allows, but never more than the threshold. */
  function SettlementAmount(maxAmount: real, threshold: real): int {
    Cents(-Abs(Min(maxAmount, threshold)))
  }

  function WithSettlement(s: Store, row: LedgerRow): Store {
    s.(ledger := s.ledger + [row])
  }

  /** The business effect of a command: one transaction. */
  function WithEffect(s: Store, threshold: real, cmd: Command, correlationId: Id): Store {
    match cmd
    case SettlementApprove(claimId, maxAmount, _, _, _) =>
      var s1 := WithSettlement(s, LedgerRow(correlationId, claimId, SettlementAmount(maxAmount, threshold)));
      var s2 := WithClaimStatus(s1, claimId, Regle);
      if Pending(s2, correlationId) then WithApprovalStatus(s2, correlationId, Approuve) else s2
    case SettlementReject(claimId, _, _, _) =>
      WithApprovalStatus(WithClaimStatus(s, claimId, Refuse), correlationId, Rejected)
    case KillSwitchActivate(actor, _, _) => WithKillSwitch(s, true, actor)
    case KillSwitchDeactivate(actor, _, _) =>
      if s.killSwitch.Some? then WithKillSwitch(s, false, actor) else s
    case PricingException(_, prime, reason, actor, _) =>
      WithApproval(s, correlationId,
        Approval(PolicyPricingException, None, Some(Cents(prime)), Approuve, None, Some(actor), Some(reason)))
    case FinanceReport(_, _, _, _) => s
  }

  /** The hash of the newest row of audit_log, or the empty string. */
  function LastHash(audit: seq<AuditRecord>): Str {
    if audit == [] then [] else audit[|audit| - 1].row.hash
  }

  /** The record appendAudit makes: its row links to the newest one. */
  function NextRecord(cfg: Config, audit: seq<AuditRecord>, correlationId: Id, event: AuditEvent): AuditRecord {
    var n := |audit|;
    AuditRecord(correlationId, event,
                Audit.NextRow(cfg.digest, cfg.platform, LastHash(audit), cfg.entry(n, correlationId, event), n + 1))
  }

  function WithAudit(cfg: Config, s: Store, correlationId: Id, event: AuditEvent): Store {
    s.(audit := s.audit + [NextRecord(cfg, s.audit, correlationId, event)])
  }

  function WithDeadLetter(s: Store, entry: DeadLetterEntry): Store {
    s.(deadLetters := s.deadLetters + [entry])
  }

  // ---------- the class that issues them ----------

  class PgRepository {
    var claims: map<Id, Claim>
    var ledger: seq<LedgerRow>
    var approvals: map<Id, Approval>
    var consumed: map<Id, Id>
    var killSwitch: Option<KillSwitchRow>
    var audit: seq<AuditRecord>
    var deadLetters: seq<DeadLetterEntry>

    constructor (s: Store)
      ensures Contents() == s
    {
      claims, ledger, approvals, consumed := s.claims, s.ledger, s.approvals, s.consumed;
      killSwitch, audit, deadLetters := s.killSwitch, s.audit, s.deadLetters;
    }

    function Contents(): Store
      reads this
    {
      Store(claims, ledger, approvals, consumed, killSwitch, audit, deadLetters)
    }

    method IsCommandConsumed(commandId: Id, f: Fault) returns (r: Reply<bool>)
      ensures r == Answer(f, commandId in consumed)
    {
      r := Answer(f, commandId in consumed);
    }

    method GetKillSwitch(f: Fault) returns (r: Reply<Option<KillSwitchRow>>)
      ensures r == Answer(f, killSwitch)
    {
      r := Answer(f, killSwitch);
    }

    method FindClaim(claimId: Id, f: Fault) returns (r: Reply<Option<Claim>>)
      ensures r == Answer(f, if claimId in claims then Some(claims[claimId]) else None)
    {
      r := Answer(f, if claimId in claims then Some(claims[claimId]) else None);
    }

    /** True when this call inserted the row. */
    method MarkConsumed(commandId: Id, correlationId: Id, f: Fault) returns (r: Reply<bool>)
      modifies this
      ensures Contents() == f.After(old(Contents()), WithConsumed(old(Contents()), commandId, correlationId))
      ensures r == Answer(f, commandId !in old(consumed))
    {
      r := Answer(f, commandId !in consumed);
      if !f.Refused? && commandId !in consumed {
        consumed := consumed[commandId := correlationId];
      }
    }

    method LinkApproval(correlationId: Id, cmd: Command, f: Fault) returns (r: Reply<()>)
      requires cmd.IsClaim()
      modifies this
      ensures Contents() == f.After(old(Contents()), WithApproval(old(Contents()), correlationId, LinkedApproval(cmd)))
      ensures r == Answer(f, ())
    {
      r := Answer(f, ());
      if !f.Refused? && correlationId !in approvals {
        approvals := approvals[correlationId := LinkedApproval(cmd)];
      }
    }

    /** Creates an approval waiting for the CEO and returns it; an existing one is left alone, and no row comes back. */
    method CreateApproval(correlationId: Id, a: Approval, f: Fault) returns (r: Reply<Option<Approval>>)
      modifies this
      ensures Contents() == f.After(old(Contents()), WithApproval(old(Contents()), correlationId, a))
      ensures r == Answer(f, if correlationId in old(approvals) then None else Some(a))
    {
      r := Answer(f, if correlationId in approvals then None else Some(a));
      if !f.Refused? && correlationId !in approvals {
        approvals := approvals[correlationId := a];
      }
    }

    method DecideApproval(correlationId: Id, decidedBy: Id, reason: Str, approve: bool, f: Fault)
      returns (r: Reply<Option<Approval>>)
      modifies this
      ensures Contents() ==
        f.After(old(Contents()), WithDecision(old(Contents()), correlationId, decidedBy, reason, approve))
      ensures r == Answer(f, if Pending(old(Contents()), correlationId)
                             then Some(Decided(old(approvals)[correlationId], decidedBy, reason, approve)) else None)
    {
      if correlationId in approvals && approvals[correlationId].status == EnAttente {
        var updated := Decided(approvals[correlationId], decidedBy, reason, approve);
        r := Answer(f, Some(updated));
        if !f.Refused? {
          approvals := approvals[correlationId := updated];
        }
      } else {
        r := Answer(f, None);
      }
    }

    method SetKillSwitch(active: bool, setBy: Id, f: Fault) returns (r: Reply<()>)
      modifies this
      ensures Contents() == f.After(old(Contents()), WithKillSwitch(old(Contents()), active, setBy))
      ensures r == Answer(f, ())
    {
      r := Answer(f, ());
      if !f.Refused? {
        killSwitch := Some(KillSwitchRow(active, Some(setBy)));
      }
    }

    /** Reads the last hash and inserts the next row, as one serialized operation. */
    method AppendAudit(cfg: Config, correlationId: Id, event: AuditEvent, f: Fault) returns (r: Reply<()>)
      modifies this
      ensures Contents() == f.After(old(Contents()), WithAudit(cfg, old(Contents()), correlationId, event))
      ensures r == Answer(f, ())
    {
      r := Answer(f, ());
      if !f.Refused? {
        var prev: Str := [];
        if audit != [] {
          prev := audit[|audit| - 1].row.hash;
        }
        var entry := cfg.entry(|audit|, correlationId, event);
        var hash := Audit.ComputeAuditHash(cfg.digest, prev, entry.payload);
        var stored := entry.(payload := cfg.platform.column(Finite(Audit.OrEmptyObject(entry.payload))));
        audit := audit + [AuditRecord(correlationId, event, Audit.Row(|audit| + 1, stored, Some(prev), hash))];
      }
    }

    method Enqueue(entry: DeadLetterEntry, f: Fault) returns (r: Reply<()>)
      modifies this
      ensures Contents() == f.After(old(Contents()), WithDeadLetter(old(Contents()), entry))
      ensures r == Answer(f, ())
    {
      r := Answer(f, ());
      if !f.Refused? {
        deadLetters := deadLetters + [entry];
      }
    }

    method SettleClaimEffect(threshold: real, claimId: Id, maxAmount: real, correlationId: Id)
      modifies this
      ensures forall reason, actor, at ::
        Contents() == WithEffect(old(Contents()), threshold, SettlementApprove(claimId, maxAmount, reason, actor, at), correlationId)
    {
      ledger := ledger + [LedgerRow(correlationId, claimId, SettlementAmount(maxAmount, threshold))];
      if claimId in claims {
        claims := claims[claimId := claims[claimId].(status := Regle)];
      }
      if correlationId in approvals && approvals[correlationId].status == EnAttente {
        approvals := approvals[correlationId := approvals[correlationId].(status := Approuve)];
      }
    }

    /** The effect inside its transaction: statement by statement, then COMMIT or ROLLBACK. */
    method RunEffect(threshold: real, cmd: Command, correlationId: Id, f: Fault) returns (r: Reply<()>)
      modifies this
      ensures Contents() == f.After(old(Contents()), WithEffect(old(Contents()), threshold, cmd, correlationId))
      ensures r == Answer(f, ())
    {
      var claims0, ledger0, approvals0, killSwitch0 := claims, ledger, approvals, killSwitch;
      match cmd {
        case SettlementApprove(claimId, maxAmount, _, _, _) =>
          SettleClaimEffect(threshold, claimId, maxAmount, correlationId);
        case SettlementReject(claimId, _, _, _) =>
          if claimId in claims {
            claims := claims[claimId := claims[claimId].(status := Refuse)];
          }
          if correlationId in approvals {
            approvals := approvals[correlationId := approvals[correlationId].(status := Rejected)];
          }
        case KillSwitchActivate(actor, _, _) =>
          killSwitch := Some(KillSwitchRow(true, Some(actor)));
        case KillSwitchDeactivate(actor, _, _) =>
          if killSwitch.Some? {
            killSwitch := Some(KillSwitchRow(false, Some(actor)));
          }
        case PricingException(_, prime, reason, actor, _) =>
          if correlationId !in approvals {
            approvals := approvals[correlationId :=
              Approval(PolicyPricingException, None, Some(Cents(prime)), Approuve, None, Some(actor), Some(reason))];
          }
        case FinanceReport(_, _, _, _) =>
      }
      if f.Refused? {
        claims, ledger, approvals, killSwitch := claims0, ledger0, approvals0, killSwitch0;
      }
      r := Answer(f, ());
    }
  }
}
