/**
  The hash-chained log of a bridge at work. From any log that verifies, every call of every interleaving and every
  request of every serial run leaves a log that verifies and extends the one before.
 */
module AuditTrail {
  import opened Json
  import opened JsonLaws
  import opened Domain
  import opened Repository
  import opened Pipeline
  import opened PipelineLaws
  import opened Server
  import opened MoneyLaws
  import opened Interleaved
  import opened InterleavedLaws
  import Audit

  /** The rows of audit_log. */
  function Rows(audit: seq<AuditRecord>): (r: seq<Audit.Row>)
    ensures |r| == |audit|
  {
    seq(|audit|, i requires 0 <= i < |audit| => audit[i].row)
  }

  /** The log passes verifyAuditChain. */
  ghost predicate LogVerifies(cfg: Config, audit: seq<AuditRecord>) {
    Audit.Verifies(cfg.digest, cfg.platform, Rows(audit))
  }

  // ---------- one record ----------

  ghost predicate RecordsKeepVerifying(cfg: Config) {
    forall audit, corr, event :: LogVerifies(cfg, audit) ==> LogVerifies(cfg, audit + [NextRecord(cfg, audit, corr, event)])
  }

  lemma LawfulRecordsKeepVerifying(cfg: Config)
    requires Audit.Lawful(cfg.platform) && LogsObjects(cfg)
    ensures RecordsKeepVerifying(cfg)
  {
    forall audit, corr, event | LogVerifies(cfg, audit)
      ensures LogVerifies(cfg, audit + [NextRecord(cfg, audit, corr, event)])
    {
      RecordKeepsVerifying(cfg, audit, corr, event);
    }
  }

  lemma RecordKeepsVerifying(cfg: Config, audit: seq<AuditRecord>, corr: Id, event: AuditEvent)
    requires Audit.Lawful(cfg.platform) && LogsObjects(cfg) && LogVerifies(cfg, audit)
    ensures LogVerifies(cfg, audit + [NextRecord(cfg, audit, corr, event)])
  {
    var n := |audit|;
    var entry := cfg.entry(n, corr, event);
    RowsOfMore(cfg, audit, corr, event);
    Audit.AppendKeepsVerifying(cfg.digest, cfg.platform, Rows(audit), entry, n + 1);
  }

  lemma RowsOfMore(cfg: Config, audit: seq<AuditRecord>, corr: Id, event: AuditEvent)
    ensures Rows(audit + [NextRecord(cfg, audit, corr, event)])
         == Audit.Appended(cfg.digest, cfg.platform, Rows(audit), cfg.entry(|audit|, corr, event), |audit| + 1)
  {
  }

  // ---------- one step ----------

  /** What an audit call writes: the entry of its event, numbered and linked, with the hash of its own payload. */
  lemma RecordSays(cfg: Config, s: Store, corr: Id, event: AuditEvent)
    ensures var n, t := |s.audit|, WithAudit(cfg, s, corr, event);
      var entry, row := cfg.entry(n, corr, event), t.audit[n].row;
      && t == s.(audit := t.audit) && |t.audit| == n + 1 && t.audit[..n] == s.audit
      && t.audit[n].correlationId == corr && t.audit[n].event == event
      && row.seqNo == n + 1 && row.prevHash == Some(if n == 0 then [] else s.audit[n - 1].row.hash)
      && row.entry == Audit.AuditEntry(entry.correlationId, entry.source, entry.action,
                                       cfg.platform.column(Finite(Audit.OrEmptyObject(entry.payload))))
      && row.hash == Audit.ComputeAuditHash(cfg.digest, row.prevHash.value, entry.payload)
  {
  }

  /** The log of t extends that of s, and verifies if that one did. */
  ghost predicate Continues(cfg: Config, s: Store, t: Store) {
    s.audit <= t.audit && (LogVerifies(cfg, s.audit) ==> LogVerifies(cfg, t.audit))
  }

  lemma ContinuesOn(cfg: Config, s: Store, t: Store, u: Store)
    requires Continues(cfg, s, t) && Continues(cfg, t, u)
    ensures Continues(cfg, s, u)
  {
  }

  lemma StatementContinues(cfg: Config, s: Store, env: Envelope, pc: Pc)
    requires RecordsKeepVerifying(cfg)
    ensures Continues(cfg, s, Statement(cfg, s, env, pc))
  {
    if pc.Effect? {
      EffectMeans(s, cfg.threshold, pc.cmd, env.correlationId);
    }
  }

  lemma AdvancedContinues(cfg: Config, s: Store, env: Envelope, pc: Pc, f: Fault)
    requires RecordsKeepVerifying(cfg) && !pc.Finished?
    ensures Continues(cfg, s, Advanced(cfg, s, env, pc, f).0)
  {
    StatementContinues(cfg, s, env, pc);
  }

  // ---------- any number of requests in flight ----------

  lemma MoveContinues(cfg: Config, w: World, m: Move)
    requires RecordsKeepVerifying(cfg)
    ensures Continues(cfg, w.store, Moved(cfg, w, m).store)
  {
    if m.Advance? && m.task < |w.tasks| && w.tasks[m.task].Running? && !w.tasks[m.task].pc.Finished? {
      AdvancedContinues(cfg, w.store, w.tasks[m.task].env, w.tasks[m.task].pc, m.fault);
    }
  }

  lemma {:induction false} PlayContinues(cfg: Config, s: Store, moves: seq<Move>, i: nat)
    requires RecordsKeepVerifying(cfg) && i <= |moves|
    ensures Continues(cfg, Play(cfg, s, moves[..i]).store, Play(cfg, s, moves).store)
  {
    if i < |moves| {
      var n := |moves| - 1;
      assert moves[..n][..i] == moves[..i];
      PlayContinues(cfg, s, moves[..n], i);
      MoveContinues(cfg, Play(cfg, s, moves[..n]), moves[n]);
    } else {
      assert moves[..i] == moves;
    }
  }

  /** In every reachable state of every interleaving, failures and all, the log verifies and extends every earlier one. */
  lemma LogAlwaysVerifies(cfg: Config, s: Store, moves: seq<Move>, i: nat)
    requires Lawful(cfg) && LogVerifies(cfg, s.audit) && i <= |moves|
    ensures LogVerifies(cfg, Play(cfg, s, moves).store.audit)
    ensures s.audit <= Play(cfg, s, moves[..i]).store.audit <= Play(cfg, s, moves).store.audit
  {
    LawfulRecordsKeepVerifying(cfg);
    assert moves[..0] == [] && moves[..i][..0] == [];
    PlayContinues(cfg, s, moves, 0);
    PlayContinues(cfg, s, moves[..i], 0);
    PlayContinues(cfg, s, moves, i);
  }

  // ---------- serial runs ----------

  lemma {:induction false} RunAloneContinues(cfg: Config, s: Store, env: Envelope, pc: Pc, f: Faults)
    requires RecordsKeepVerifying(cfg)
    ensures Continues(cfg, s, RunAlone(cfg, s, env, pc, f).0)
    decreases 12 - Rank(pc)
  {
    if !pc.Finished? {
      var fault := FaultAt(f, pc);
      var (t, next) := Advanced(cfg, s, env, pc, fault);
      AdvanceProgresses(cfg, s, env, pc, fault);
      AdvancedContinues(cfg, s, env, pc, fault);
      RunAloneContinues(cfg, t, env, next, f);
      ContinuesOn(cfg, s, t, RunAlone(cfg, t, env, next, f).0);
    }
  }

  lemma ProcessContinues(cfg: Config, s: Store, env: Envelope, f: Faults)
    requires RecordsKeepVerifying(cfg)
    ensures Continues(cfg, s, Process(cfg, s, env, f).store)
  {
    AloneIsSerial(cfg, s, env, f);
    RunAloneContinues(cfg, s, env, Start(cfg, env), f);
  }

  lemma ServeContinues(cfg: Config, s: Store, req: Request, f: RequestFaults)
    requires RecordsKeepVerifying(cfg)
    ensures Continues(cfg, s, Serve(cfg, s, req, f).store)
  {
    match req
    case PostCommand(command, author, event, corr) =>
      var env := CommandEnvelope(cfg, command, author, event, corr);
      if env.Some? {
        ProcessContinues(cfg, s, env.value, f.run);
      }
    case PostApproval(_, _, _, _, _) =>
    case PostDecision(corr, decidedBy, event, reason, approve, now) =>
      var decider := Decider(cfg, decidedBy, event);
      if decider.Some? && Pending(s, corr) {
        var t := WithDecision(s, corr, decider.value, reason, approve);
        if Launches(t.approvals[corr], approve) {
          ProcessContinues(cfg, t, LaunchEnvelope(cfg, t.approvals[corr], corr, reason, decider.value, now), f.run);
        }
      }
    case PostKillSwitch(active, decidedBy, reason, now, corr) =>
      var ceo := cfg.normalize(decidedBy);
      ProcessContinues(cfg, WithKillSwitch(s, active, ceo), KillSwitchEnvelope(cfg, active, ceo, reason, now, corr), f.run);
  }

  /** The same of every serial run. */
  lemma {:induction false} RunLogVerifies(cfg: Config, s: Store, steps: seq<Step>)
    requires Lawful(cfg) && LogVerifies(cfg, s.audit)
    ensures LogVerifies(cfg, Run(cfg, s, steps).audit) && s.audit <= Run(cfg, s, steps).audit
  {
    LawfulRecordsKeepVerifying(cfg);
    if steps != [] {
      var n := |steps| - 1;
      RunLogVerifies(cfg, s, steps[..n]);
      ServeContinues(cfg, Run(cfg, s, steps[..n]), steps[n].req, steps[n].faults);
    }
  }
}
