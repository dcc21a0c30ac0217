/** From the model's answers to the ledger: an agent's task, the kill-switch it reads, and the bridge it posts to. */
module EndToEnd {
  import opened Json
  import opened Domain
  import opened Repository
  import opened Pipeline
  import opened PipelineLaws
  import opened Server
  import opened SerialRuns
  import opened MoneyLaws
  import opened KillSwitchCache
  import opened Agent
  import opened AgentLaws
  import KillSwitchOverlap

  /** The request that reaches the bridge: never signed, in the agent's own name. */
  function BridgeRequest(cfg: Config, agent: AgentConfig, outward: Outward): Request {
    match outward
    case PostedCommand(command, corr) => PostCommand(cfg.render(command), agent.npub, None, corr)
    case PostedApproval(r, corr) => PostApproval(r.claimId, r.amount, r.reason, agent.npub, corr)
  }

  /** The task made this outward call. */
  predicate Makes(agent: AgentConfig, w: Surroundings, task: Task, outward: Outward) {
    Posted(outward) in TaskRun(agent, w, task).trace
  }

  // ---------- money ----------

  /** The only thing an agent's post can add to a ledger: one row for its claim, within both thresholds. */
  predicate OneCappedRow(cfg: Config, agent: AgentConfig, command: Command, before: seq<LedgerRow>, after: seq<LedgerRow>)
    requires command.SettlementApprove?
  {
    && |after| == |before| + 1 && after[..|before|] == before
    && after[|before|].claimId == command.claimId
    && -after[|before|].amount <= Cents(cfg.threshold)
    && -after[|before|].amount <= Cents(agent.escalation)
  }

  lemma PostPaysWithin(cfg: Config, agent: AgentConfig, s: Store, command: Command, corr: Id, f: RequestFaults)
    requires Lawful(cfg) && cfg.threshold > 0.0 && Capped(agent, command)
    ensures var r := Serve(cfg, s, PostCommand(cfg.render(command), agent.npub, None, corr), f);
      r.store.ledger == s.ledger || OneCappedRow(cfg, agent, command, s.ledger, r.store.ledger)
  {
    var r := ServeCommand(cfg, s, cfg.render(command), agent.npub, None, corr, f.run);
    PostRunsTheCommand(cfg, s, command, agent.npub, corr, f.run);
    CommittedIsAccounted(cfg, s, PostCommand(cfg.render(command), agent.npub, None, corr), f);
    AccountedPaysWithin(cfg, agent, s, command, r);
  }

  lemma PostRunsTheCommand(cfg: Config, s: Store, command: Command, author: Id, corr: Id, f: Faults)
    requires Lawful(cfg)
    ensures var r := ServeCommand(cfg, s, cfg.render(command), author, None, corr, f);
      r.committed.Some? ==> ParseCommand(cfg, r.committed.value.content) == Some(command)
  {
    MadeTextIsTheCommand(cfg, command);
    PostedContent(cfg, s, cfg.render(command), author, corr, f);
  }

  lemma PostedContent(cfg: Config, s: Store, command: Json, author: Id, corr: Id, f: Faults)
    ensures var r := ServeCommand(cfg, s, command, author, None, corr, f);
      r.committed.Some? ==> r.committed.value.content == Stringify(command) && ParseCommand(cfg, r.committed.value.content).Some?
  {
    AllOrNothing(cfg, s, Envelope(author, Stringify(command), corr, false), f);
  }

  lemma AccountedPaysWithin(cfg: Config, agent: AgentConfig, s: Store, command: Command, r: Served)
    requires cfg.threshold > 0.0 && Capped(agent, command) && Accounted(cfg, s, r)
    requires r.committed.Some? ==> ParseCommand(cfg, r.committed.value.content) == Some(command)
    ensures r.store.ledger == s.ledger || OneCappedRow(cfg, agent, command, s.ledger, r.store.ledger)
  {
    if r.committed.Some? {
      SettlementPaysWithin(cfg, s.claims[command.claimId], command.maxAmount,
                           LedgerRow(r.committed.value.correlationId, command.claimId, SettlementAmount(command.maxAmount, cfg.threshold)));
    }
  }

  lemma MadeIsCapped(agent: AgentConfig, w: Surroundings, task: Task, outward: Outward)
    requires Makes(agent, w, task, outward)
    ensures outward.PostedCommand? ==> Capped(agent, outward.command)
  {
    var t := TaskRun(agent, w, task).trace;
    var i :| 0 <= i < |t| && t[i] == Posted(outward);
    OutwardCallsAreGuarded(agent, w, task, i);
  }

  /**
    Whatever the model answered: serving an agent's outward call leaves the ledger alone, or adds one row for the
    posted claim that pays at most the bridge's threshold and at most the agent's, rounded to the cent.
   */
  lemma AgentPaysWithin(cfg: Config, agent: AgentConfig, w: Surroundings, task: Task, outward: Outward, s: Store, f: RequestFaults)
    requires Lawful(cfg) && cfg.threshold > 0.0 && Makes(agent, w, task, outward)
    ensures var after := Serve(cfg, s, BridgeRequest(cfg, agent, outward), f).store.ledger;
      after == s.ledger || (outward.PostedCommand? && Capped(agent, outward.command)
                            && OneCappedRow(cfg, agent, outward.command, s.ledger, after))
  {
    MadeIsCapped(agent, w, task, outward);
    match outward
    case PostedCommand(command, corr) => PostPaysWithin(cfg, agent, s, command, corr, f);
    case PostedApproval(_, _) =>
  }

  lemma {:induction false} LedgerOnlyGrows(cfg: Config, s: Store, steps: seq<Step>, k: nat)
    requires Bounded(cfg) && KeysNormalize(cfg) && cfg.threshold > 0.0 && k <= |steps|
    ensures Run(cfg, s, steps[..k]).ledger <= Run(cfg, s, steps).ledger
  {
    if k < |steps| {
      var n := |steps| - 1;
      LedgerOnlyGrows(cfg, s, steps[..n], k);
      assert steps[..n][..k] == steps[..k];
      var before := Run(cfg, s, steps[..n]);
      ServeSettles(cfg, before, before, steps[n].req, steps[n].faults);
    } else {
      assert steps[..k] == steps;
    }
  }

  /**
    In any serial run in which step k is an agent's post: a row it adds is, to the end of the run, the only row
    the run has for that claim.
   */
  lemma AgentPaysOnce(cfg: Config, agent: AgentConfig, w: Surroundings, task: Task, outward: Outward, s: Store, steps: seq<Step>, k: nat)
    requires Lawful(cfg) && cfg.threshold > 0.0 && k < |steps|
    requires Makes(agent, w, task, outward) && steps[k].req == BridgeRequest(cfg, agent, outward)
    ensures var before, final := Run(cfg, s, steps[..k]).ledger, Run(cfg, s, steps).ledger;
      var after := Run(cfg, s, steps[..k + 1]).ledger;
      && s.ledger <= before <= after <= final
      && (after != before ==>
            && outward.PostedCommand? && Capped(agent, outward.command)
            && OneCappedRow(cfg, agent, outward.command, before, after)
            && forall n :: |s.ledger| <= n < |final| && final[n].claimId == outward.command.claimId ==> n == |before|)
  {
    LawfulIsBounded(cfg);
    RunUpTo(cfg, s, steps, k);
    AgentPaysWithin(cfg, agent, w, task, outward, Run(cfg, s, steps[..k]), steps[k].faults);
    LedgerOnlyGrows(cfg, s, steps, k);
    LedgerOnlyGrows(cfg, s, steps, k + 1);
    RunSettles(cfg, s, steps[..k]);
    RunSettles(cfg, s, steps);
  }

  // ---------- the switch ----------

  /** The task's n-th check is question at[n] of the cached switch; other tasks may ask in between. */
  ghost predicate Asks(w: Surroundings, cacheMs: int, qs: seq<Query>, at: seq<nat>) {
    && (forall m, n :: 0 <= m < n < |at| ==> at[m] < at[n])
    && (forall n :: 0 <= n < |at| ==> at[n] < |qs| && w.switchOn(n) == AnswerAt(cacheMs, qs, at[n]))
  }

  /** A trace that ends in a check and a post has that one check more than its acts before. */
  lemma ChecksBeforePost(t: seq<Act>)
    requires |t| >= 2 && t[|t| - 2].Checked? && t[|t| - 1].Posted?
    ensures Count(t, IS_CHECK) == Count(t[..|t| - 2], IS_CHECK) + 1
  {
    assert Init(Init(t)) == t[..|t| - 2];
  }

  /**
    An agent only reaches the bridge on a switch that was really read as off. At its last check, the one directly
    before the post, the latest successful read gave off, and was made less than cacheMs before or by that very check,
    unless that check failed to read.
   */
  lemma OutwardOnlyWhenReadOff(agent: AgentConfig, w: Surroundings, task: Task, outward: Outward, cacheMs: int, qs: seq<Query>, at: seq<nat>)
    returns (k: nat, j: nat)
    requires Makes(agent, w, task, outward) && Asks(w, cacheMs, qs, at)
    requires Count(TaskRun(agent, w, task).trace, IS_CHECK) <= |at|
    ensures var checks := Count(TaskRun(agent, w, task).trace, IS_CHECK); checks > 0 && k == at[checks - 1]
    ensures j <= k < |qs| && LatestRead(cacheMs, qs, j, k + 1) && !RowValue(qs[j].reply)
    ensures Fresh(cacheMs, qs, k, j) || (Reads(cacheMs, qs, k) && qs[k].reply.ReadFailed?)
  {
    k := LastCheckIsOff(agent, w, task, outward, at);
    j := LatestReadOf(cacheMs, qs, k);
    FreshUnlessReadFails(cacheMs, qs, k);
    if !(Reads(cacheMs, qs, k) && qs[k].reply.ReadFailed?) {
      j :| 0 <= j <= k && Fresh(cacheMs, qs, k, j);
    }
  }

  /** The task's n-th check is call at[n] of a switch whose calls may overlap. */
  ghost predicate Calls(w: Surroundings, s: KillSwitchOverlap.Switch, at: seq<nat>) {
    && (forall m, n :: 0 <= m < n < |at| ==> at[m] < at[n])
    && (forall n :: 0 <= n < |at| ==> at[n] < |s.calls| && !s.calls[at[n]].Reading? && w.switchOn(n) == s.calls[at[n]].value)
  }

  /** However the calls of its tasks overlap, the same but for one thing: the read need not be the latest. */
  lemma OutwardOnlyWhenSomeReadOff(agent: AgentConfig, w: Surroundings, task: Task, outward: Outward, cacheMs: int,
                                   steps: seq<KillSwitchOverlap.Step>, at: seq<nat>) returns (k: nat, j: nat)
    requires Makes(agent, w, task, outward) && Calls(w, KillSwitchOverlap.Play(cacheMs, steps), at)
    requires Count(TaskRun(agent, w, task).trace, IS_CHECK) <= |at|
    ensures var checks := Count(TaskRun(agent, w, task).trace, IS_CHECK); checks > 0 && k == at[checks - 1]
    ensures var s := KillSwitchOverlap.Play(cacheMs, steps);
      && k < |s.calls| && !s.calls[k].Reading?
      && KillSwitchOverlap.Read(s, j) && !RowValue(s.calls[j].reply)
      && (KillSwitchOverlap.FreshFrom(cacheMs, s, k, j) || KillSwitchOverlap.FailedToRead(s, k))
  {
    var t, s := TaskRun(agent, w, task).trace, KillSwitchOverlap.Play(cacheMs, steps);
    k := LastCheckIsOff(agent, w, task, outward, at);
    KillSwitchOverlap.AnswersAreFresh(cacheMs, steps, k);
    if KillSwitchOverlap.FailedToRead(s, k) {
      j :| KillSwitchOverlap.Agrees(s, k, j);
    } else {
      j :| KillSwitchOverlap.FreshFrom(cacheMs, s, k, j);
    }
  }

  /** The check directly before a post is the task's last, and it was told off. */
  lemma LastCheckIsOff(agent: AgentConfig, w: Surroundings, task: Task, outward: Outward, at: seq<nat>) returns (k: nat)
    requires Makes(agent, w, task, outward) && Count(TaskRun(agent, w, task).trace, IS_CHECK) <= |at|
    ensures var checks := Count(TaskRun(agent, w, task).trace, IS_CHECK);
      checks > 0 && k == at[checks - 1] && !w.switchOn(checks - 1)
  {
    var t := TaskRun(agent, w, task).trace;
    var i :| 0 <= i < |t| && t[i] == Posted(outward);
    OutwardCallsAreGuarded(agent, w, task, i);
    ChecksBeforePost(t);
    k := at[Count(t, IS_CHECK) - 1];
  }

  lemma LatestReadOf(cacheMs: int, qs: seq<Query>, k: nat) returns (j: nat)
    requires k < |qs| && !AnswerAt(cacheMs, qs, k)
    ensures j <= k && LatestRead(cacheMs, qs, j, k + 1) && !RowValue(qs[j].reply)
  {
    CacheIsLatestRead(cacheMs, qs, k + 1);
    CacheOfPrefix(cacheMs, qs, k);
    j :| 0 <= j < k + 1 && LatestRead(cacheMs, qs, j, k + 1)
      && CacheAfter(cacheMs, qs[..k + 1]) == Some(CacheEntry(RowValue(qs[j].reply), qs[j].now));
  }
}
