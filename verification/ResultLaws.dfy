/** What interleaved runs report, and how it agrees with what they did. */
module ResultLaws {
  import opened Domain
  import opened Repository
  import opened Pipeline
  import opened Server
  import opened Interleaved
  import opened InterleavedLaws

  /** A run that is going to report, or has reported, that it was executed. */
  predicate TellsExecuted(pc: Pc) {
    pc.ResolveApproval? || (pc.Auditing? && pc.outcome == Executed) || pc == Finished(Returned(Executed))
  }

  /** One that reports a denial, or that its command was consumed already. */
  predicate TellsNothingDone(pc: Pc) {
    (pc.Auditing? && pc.outcome != Executed) || (pc.Finished? && pc.result.Returned? && (pc.result.outcome.Denied? || pc.result.outcome.Consumed?))
  }

  predicate CommittedBy(h: seq<Event>, k: nat) { exists i :: 0 <= i < |h| && h[i].Commit? && h[i].task == k }

  ghost predicate Honest(h: seq<Event>, k: nat, task: Task) {
    task.Running? ==>
      && (TellsExecuted(task.pc) ==> CommittedBy(h, k))
      && (TellsNothingDone(task.pc) ==> !CommittedBy(h, k))
  }

  ghost predicate AllHonest(w: World) { forall k :: 0 <= k < |w.tasks| ==> Honest(w.history, k, w.tasks[k]) }

  lemma CommittedGrows(h: seq<Event>, g: seq<Event>, k: nat)
    ensures CommittedBy(h, k) ==> CommittedBy(h + g, k)
    ensures (forall i :: 0 <= i < |g| ==> !(g[i].Commit? && g[i].task == k)) ==> CommittedBy(h + g, k) == CommittedBy(h, k)
  {
    if CommittedBy(h, k) {
      var i :| 0 <= i < |h| && h[i].Commit? && h[i].task == k;
      assert (h + g)[i] == h[i];
    }
  }

  /** How a step comes to report something. */
  lemma NextTells(cfg: Config, s: Store, env: Envelope, pc: Pc, f: Fault)
    requires !pc.Finished?
    ensures var next := Advanced(cfg, s, env, pc, f).1;
      && (TellsExecuted(next) ==> TellsExecuted(pc) || (pc.Effect? && f.Fine?))
      && (TellsNothingDone(next) ==> TellsNothingDone(pc) || Rank(pc) <= 4)
      && (TellsNothingDone(next) || TellsExecuted(next) ==> !pc.Effect? || f.Fine?)
  {
  }

  lemma RunningIsHonest(cfg: Config, s: Store, h: seq<Event>, k: nat, env: Envelope, pc: Pc, f: Fault)
    requires Honest(h, k, Running(env, pc)) && TaskOk(cfg, h, k, Running(env, pc)) && !pc.Finished?
    ensures Honest(h + Happened(cfg, s, k, env, pc, f), k, Running(env, Advanced(cfg, s, env, pc, f).1))
  {
    var g := Happened(cfg, s, k, env, pc, f);
    NextTells(cfg, s, env, pc, f);
    CommittedGrows(h, g, k);
    if pc.Effect? && f.Fine? {
      assert (h + g)[|h|] == Commit(k, env);
    }
  }

  lemma CallIsHonest(cfg: Config, s: Store, h: seq<Event>, k: nat, task: Task, f: Fault)
    requires Honest(h, k, task) && TaskOk(cfg, h, k, task)
    ensures var (_, next, events) := Call(cfg, s, k, task, f);
      Honest(h + events, k, next) && forall i :: 0 <= i < |events| ==> events[i].task == k
  {
    if task.Running? && !task.pc.Finished? {
      RunningIsHonest(cfg, s, h, k, task.env, task.pc, f);
    } else {
      var (_, next, events) := Call(cfg, s, k, task, f);
      CommittedGrows(h, events, k);
      assert next.Running? ==> next.pc == Start(cfg, next.env);
    }
  }

  lemma MoveStaysHonest(cfg: Config, s0: Store, w: World, m: Move)
    requires AllHonest(w) && Invariant(cfg, s0, w)
    ensures AllHonest(Moved(cfg, w, m))
  {
    match m
    case Arrive(req) =>
      var task := Admitted(cfg, req);
      assert task.Running? ==> task.pc == Start(cfg, task.env);
    case Advance(k, f) =>
      if k < |w.tasks| {
        var events := Call(cfg, w.store, k, w.tasks[k], f).2;
        assert TaskOk(cfg, w.history, k, w.tasks[k]);
        CallIsHonest(cfg, w.store, w.history, k, w.tasks[k], f);
        forall j | 0 <= j < |w.tasks| && j != k ensures Honest(w.history + events, j, w.tasks[j]) {
          CommittedGrows(w.history, events, j);
        }
      }
  }

  /**
    However requests interleave and whatever fails: a run that reports 'executed' has committed its effect, and one
    that reports a denial or a consumed command has not.
   */
  lemma {:induction false} ReportsAreHonest(cfg: Config, s: Store, moves: seq<Move>)
    ensures AllHonest(Play(cfg, s, moves))
  {
    if moves != [] {
      var n := |moves| - 1;
      ReportsAreHonest(cfg, s, moves[..n]);
      InvariantAlways(cfg, s, moves[..n]);
      MoveStaysHonest(cfg, s, Play(cfg, s, moves[..n]), moves[n]);
    }
  }

  /** A run whose id is taken before it comes to consume it reports that, records that, and does nothing else. */
  lemma LoserIsConsumed(cfg: Config, s: Store, env: Envelope, cmd: Command, f: Fault, g: Fault)
    requires CommandId(cfg, env) in s.consumed && f.Fine?
    ensures var (t, pc) := Advanced(cfg, s, env, Consume(cmd), f);
      && t == s && !pc.Finished?
      && Advanced(cfg, t, env, pc, g)
         == (if g.Refused? then s else WithAudit(cfg, s, env.correlationId, ConsumedAudit(CommandId(cfg, env))), Finished(Returned(Outcome.Consumed)))
  {
  }

  // ---------- one request alone is served as the routes serve it ----------

  /** A request whose calls nothing comes between: its route's own statement, then the run it starts. */
  function RequestAlone(cfg: Config, s: Store, req: Request, f: RequestFaults): Store {
    match Admitted(cfg, req)
    case Running(env, pc) => RunAlone(cfg, s, env, pc, f.run).0
    case task =>
      var (t, next, _) := Call(cfg, s, 0, task, f.route);
      if next.Running? then RunAlone(cfg, t, next.env, next.pc, f.run).0 else t
  }

  /** It leaves the store as the route does. */
  lemma RequestAloneIsServed(cfg: Config, s: Store, req: Request, f: RequestFaults)
    ensures RequestAlone(cfg, s, req, f) == Serve(cfg, s, req, f).store
  {
    match req
    case PostCommand(command, author, event, corr) => CommandAlone(cfg, s, req, f);
    case PostApproval(_, _, _, _, _) =>
    case PostDecision(corr, decidedBy, event, reason, approve, now) => DecisionAlone(cfg, s, req, f);
    case PostKillSwitch(active, decidedBy, reason, now, corr) =>
      AloneIsSerial(cfg, WithKillSwitch(s, active, cfg.normalize(decidedBy)),
                    KillSwitchEnvelope(cfg, active, cfg.normalize(decidedBy), reason, now, corr), f.run);
  }

  lemma CommandAlone(cfg: Config, s: Store, req: Request, f: RequestFaults)
    requires req.PostCommand?
    ensures RequestAlone(cfg, s, req, f) == Serve(cfg, s, req, f).store
  {
    var env := CommandEnvelope(cfg, req.command, req.author, req.event, req.correlationId);
    if env.Some? {
      AloneIsSerial(cfg, s, env.value, f.run);
    }
  }

  lemma DecisionAlone(cfg: Config, s: Store, req: Request, f: RequestFaults)
    requires req.PostDecision?
    ensures RequestAlone(cfg, s, req, f) == Serve(cfg, s, req, f).store
  {
    var decider := Decider(cfg, req.decidedBy, req.event);
    if decider.Some? && Pending(s, req.correlationId) {
      var t := WithDecision(s, req.correlationId, decider.value, req.reason, req.approve);
      var a := t.approvals[req.correlationId];
      if Launches(a, req.approve) {
        AloneIsSerial(cfg, t, LaunchEnvelope(cfg, a, req.correlationId, req.reason, decider.value, req.now), f.run);
      }
    }
  }
}
