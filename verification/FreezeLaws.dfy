/** What the kill-switch stops, and what it takes to switch it off. */
module FreezeLaws {
  import opened Text
  import opened Json
  import opened Domain
  import opened Repository
  import opened Pipeline
  import opened Server
  import opened PipelineLaws
  import opened SerialRuns
  import opened MoneyLaws

  /** A request that may switch the kill-switch off: a CEO's, by the route or by a command the CEO signed. */
  predicate MaySwitchOff(cfg: Config, req: Request) {
    match req
    case PostKillSwitch(active, decidedBy, _, _, _) => !active && IsCeo(cfg, decidedBy)
    case PostCommand(command, _, event, _) =>
      && cfg.validate(command).Some? && cfg.validate(command).value.KillSwitchDeactivate?
      && event.Some? && VerifySigned(cfg, event.value, command).Some?
      && IsCeo(cfg, VerifySigned(cfg, event.value, command).value)
    case _ => false
  }

  /** A deactivation takes effect: the route's statement, or a committed command. */
  predicate SwitchesOff(cfg: Config, s: Store, req: Request, f: RequestFaults) {
    || (req.PostKillSwitch? && !req.active && IsCeo(cfg, req.decidedBy) && !f.route.Refused?)
    || CommitsDeactivation(cfg, Serve(cfg, s, req, f))
  }

  predicate CommitsDeactivation(cfg: Config, r: Served) {
    && r.committed.Some? && ParseCommand(cfg, r.committed.value.content).Some?
    && ParseCommand(cfg, r.committed.value.content).value.KillSwitchDeactivate?
  }

  /** Money and claims stand still. */
  predicate Held(s: Store, t: Store) { t.ledger == s.ledger && t.claims == s.claims }

  predicate Frozen(s: Store, t: Store) { Held(s, t) && t.consumed == s.consumed && t.Locked() }

  // ---------- one request ----------

  /** While the switch is on no request moves money or claims, and it stays on exactly unless a deactivation takes effect. */
  lemma ServeHeld(cfg: Config, s: Store, req: Request, f: RequestFaults)
    requires Bounded(cfg) && KeysNormalize(cfg) && s.Locked()
    ensures var t := Serve(cfg, s, req, f).store;
      Held(s, t) && (t.Locked() <==> !SwitchesOff(cfg, s, req, f))
  {
    match req
    case PostCommand(command, author, event, corr) => CommandHeld(cfg, s, command, author, event, corr, f.run);
    case PostApproval(_, _, _, _, _) =>
    case PostDecision(corr, decidedBy, event, reason, approve, now) =>
      DecisionHeld(cfg, s, corr, decidedBy, event, reason, approve, now, f);
    case PostKillSwitch(active, decidedBy, reason, now, corr) =>
      KillSwitchRouteSetsTheSwitch(cfg, s, active, decidedBy, reason, now, corr, f);
  }

  lemma ProcessHeld(cfg: Config, s: Store, env: Envelope, f: Faults)
    requires s.Locked()
    ensures var p := Process(cfg, s, env, f);
      && Held(s, p.store)
      && (p.committed ==> ParseCommand(cfg, env.content).Some? && ParseCommand(cfg, env.content).value.KillSwitchDeactivate?)
      && (p.store.Locked() <==> !p.committed)
  {
    AllOrNothing(cfg, s, env, f);
    if Process(cfg, s, env, f).committed {
      CommitsAreAuthorized(cfg, s, env, f);
    }
  }

  lemma CommandHeld(cfg: Config, s: Store, command: Json, author: Id, event: Option<SignedEvent>, corr: Id, f: Faults)
    requires s.Locked()
    ensures var r := ServeCommand(cfg, s, command, author, event, corr, f);
      Held(s, r.store) && (r.store.Locked() <==> !CommitsDeactivation(cfg, r))
  {
    var env := CommandEnvelope(cfg, command, author, event, corr);
    if env.Some? {
      ProcessHeld(cfg, s, env.value, f);
    }
  }

  lemma DecisionHeld(cfg: Config, s: Store, corr: Id, decidedBy: Id, event: Option<SignedEvent>,
                     reason: Str, approve: bool, now: Str, f: RequestFaults)
    requires s.Locked()
    ensures var r := ServeDecision(cfg, s, corr, decidedBy, event, reason, approve, now, f);
      Held(s, r.store) && (r.store.Locked() <==> !CommitsDeactivation(cfg, r))
  {
    var decider := Decider(cfg, decidedBy, event);
    if decider.Some? && f.route.Fine? && Pending(s, corr) {
      var t := WithDecision(s, corr, decider.value, reason, approve);
      if Launches(t.approvals[corr], approve) {
        ProcessHeld(cfg, t, LaunchEnvelope(cfg, t.approvals[corr], corr, reason, decider.value, now), f.run);
      }
    }
  }

  /** Only a CEO's request takes the switch off. */
  lemma SwitchingOffTakesTheCeo(cfg: Config, s: Store, req: Request, f: RequestFaults)
    requires Lawful(cfg) && ValidRequest(cfg, req)
    requires SwitchesOff(cfg, s, req, f)
    ensures MaySwitchOff(cfg, req)
  {
    RequestsReadBack(cfg, req);
    if req.PostDecision? {
      LaunchesReadBack(cfg, s, req);
    }
    SwitchingOffTakesReading(cfg, s, req, f);
  }

  lemma SwitchingOffTakesReading(cfg: Config, s: Store, req: Request, f: RequestFaults)
    requires KeysNormalize(cfg) && ReadsBack(cfg, req)
    requires req.PostDecision? ==> LaunchReadsBack(cfg, s, req)
    requires SwitchesOff(cfg, s, req, f)
    ensures MaySwitchOff(cfg, req)
  {
    match req
    case PostCommand(_, _, _, _) => PostedDeactivation(cfg, s, req, f.run);
    case PostApproval(_, _, _, _, _) =>
    case PostDecision(_, _, _, _, _, _) => DecisionsSettle(cfg, s, req, f);
    case PostKillSwitch(active, decidedBy, reason, now, corr) =>
      KillSwitchRouteSetsTheSwitch(cfg, s, active, decidedBy, reason, now, corr, f);
  }

  lemma PostedDeactivation(cfg: Config, s: Store, req: Request, f: Faults)
    requires req.PostCommand? && ReadsBack(cfg, req)
    requires CommitsDeactivation(cfg, ServeCommand(cfg, s, req.command, req.author, req.event, req.correlationId, f))
    ensures MaySwitchOff(cfg, req)
  {
    var env := CommandEnvelope(cfg, req.command, req.author, req.event, req.correlationId).value;
    CommitsAreAuthorized(cfg, s, env, f);
  }

  /** The settlement a decision launches, if any, is read back as itself or refused by the schemas. */
  ghost predicate LaunchReadsBack(cfg: Config, s: Store, req: Request)
    requires req.PostDecision?
  {
    var decider := Decider(cfg, req.decidedBy, req.event);
    decider.Some? && Pending(s, req.correlationId) ==>
      var a := WithDecision(s, req.correlationId, decider.value, req.reason, req.approve).approvals[req.correlationId];
      Launches(a, req.approve) ==>
        var cmd := LaunchedCommand(a, req.correlationId, req.reason, decider.value, req.now);
        var parsed := ParseCommand(cfg, Stringify(cfg.render(cmd)));
        parsed == Some(cmd) || parsed.None?
  }

  lemma LaunchesReadBack(cfg: Config, s: Store, req: Request)
    requires Lawful(cfg) && req.PostDecision?
    ensures LaunchReadsBack(cfg, s, req)
  {
    var decider := Decider(cfg, req.decidedBy, req.event);
    if decider.Some? && Pending(s, req.correlationId) {
      var a := WithDecision(s, req.correlationId, decider.value, req.reason, req.approve).approvals[req.correlationId];
      if Launches(a, req.approve) {
        MadeTextIsTheCommand(cfg, LaunchedCommand(a, req.correlationId, req.reason, decider.value, req.now));
      }
    }
  }

  /** What a decision commits is a settlement. */
  lemma DecisionsSettle(cfg: Config, s: Store, req: Request, f: RequestFaults)
    requires req.PostDecision? && LaunchReadsBack(cfg, s, req)
    ensures !CommitsDeactivation(cfg, Serve(cfg, s, req, f))
  {
  }

  // ---------- consumed ids ----------

  lemma PolicyLeavesTraces(cfg: Config, s: Store, env: Envelope, cmd: Command, f: Faults)
    requires cmd.KillSwitchDeactivate? && ResolveRole(cfg, env) != Ceo
    ensures OnlyTraces(s, AtPolicy(cfg, s, env, cmd, f).store)
  {
    if !f.consumedRead.Fine? {
      FailKeeps(cfg, s, env, f.consumedRead.Code(), f, false);
    }
  }

  /** A deactivation in any name but a signed CEO's leaves only traces. */
  lemma OthersLeaveTraces(cfg: Config, s: Store, env: Envelope, f: Faults)
    requires !(env.signed && IsCeo(cfg, env.author))
    requires ParseCommand(cfg, env.content).Some? && ParseCommand(cfg, env.content).value.KillSwitchDeactivate?
    ensures OnlyTraces(s, Process(cfg, s, env, f).store)
  {
    var cmd := ParseCommand(cfg, env.content).value;
    PolicyLeavesTraces(cfg, s, env, cmd, f);
    if !f.precheck.Fine? {
      FailKeeps(cfg, s, env, f.precheck.Code(), f, false);
    } else if !f.killSwitchRead.Fine? {
      FailKeeps(cfg, s, env, f.killSwitchRead.Code(), f, false);
    }
  }

  /** Nothing but a request that may switch it off even consumes an id while the switch is on. */
  lemma ServeFrozen(cfg: Config, s: Store, req: Request, f: RequestFaults)
    requires Lawful(cfg) && ValidRequest(cfg, req) && s.Locked() && !MaySwitchOff(cfg, req)
    ensures Frozen(s, Serve(cfg, s, req, f).store)
  {
    match req
    case PostCommand(command, author, event, corr) =>
      if cfg.validate(command).Some? {
        AdmittedTextIsTheCommand(cfg, command);
      }
      CommandFrozen(cfg, s, command, author, event, corr, f.run);
    case PostApproval(_, _, _, _, _) =>
    case PostDecision(corr, decidedBy, event, reason, approve, now) =>
      DecisionFrozen(cfg, s, corr, decidedBy, event, reason, approve, now, f);
    case PostKillSwitch(active, decidedBy, reason, now, corr) =>
      KillSwitchRouteSetsTheSwitch(cfg, s, active, decidedBy, reason, now, corr, f);
  }

  lemma CommandFrozen(cfg: Config, s: Store, command: Json, author: Id, event: Option<SignedEvent>, corr: Id, f: Faults)
    requires s.Locked() && (cfg.validate(command).Some? ==> ParseCommand(cfg, Stringify(command)) == cfg.validate(command))
    requires !MaySwitchOff(cfg, PostCommand(command, author, event, corr))
    ensures Frozen(s, ServeCommand(cfg, s, command, author, event, corr, f).store)
  {
    var env := CommandEnvelope(cfg, command, author, event, corr);
    if cfg.validate(command).Some? && env.Some? {
      RunFreezes(cfg, s, env.value, f);
    }
  }

  lemma RunFreezes(cfg: Config, s: Store, env: Envelope, f: Faults)
    requires s.Locked()
    requires ParseCommand(cfg, env.content).Some? && ParseCommand(cfg, env.content).value.KillSwitchDeactivate?
      ==> !(env.signed && IsCeo(cfg, env.author))
    ensures OnlyTraces(s, Process(cfg, s, env, f).store)
  {
    if ParseCommand(cfg, env.content).Some? && ParseCommand(cfg, env.content).value.KillSwitchDeactivate? {
      OthersLeaveTraces(cfg, s, env, f);
    } else {
      LockedLeavesTraces(cfg, s, env, f);
    }
  }

  lemma DecisionFrozen(cfg: Config, s: Store, corr: Id, decidedBy: Id, event: Option<SignedEvent>,
                       reason: Str, approve: bool, now: Str, f: RequestFaults)
    requires Lawful(cfg) && s.Locked()
    ensures Frozen(s, ServeDecision(cfg, s, corr, decidedBy, event, reason, approve, now, f).store)
  {
    var decider := Decider(cfg, decidedBy, event);
    if decider.Some? && f.route.Fine? && Pending(s, corr) {
      var t := WithDecision(s, corr, decider.value, reason, approve);
      if Launches(t.approvals[corr], approve) {
        LaunchFrozen(cfg, t, t.approvals[corr], corr, reason, decider.value, now, f.run);
      }
    }
  }

  lemma LaunchFrozen(cfg: Config, s: Store, a: Approval, corr: Id, reason: Str, ceo: Id, now: Str, f: Faults)
    requires Lawful(cfg) && s.Locked() && a.amount.Some?
    ensures OnlyTraces(s, Process(cfg, s, LaunchEnvelope(cfg, a, corr, reason, ceo, now), f).store)
  {
    MadeTextIsTheCommand(cfg, LaunchedCommand(a, corr, reason, ceo, now));
    LockedLeavesTraces(cfg, s, LaunchEnvelope(cfg, a, corr, reason, ceo, now), f);
  }

  // ---------- runs ----------

  /** Until a deactivation takes effect, no run moves money or claims, and the switch stays on. */
  lemma {:induction false} RunHeld(cfg: Config, s: Store, steps: seq<Step>)
    requires Bounded(cfg) && KeysNormalize(cfg) && s.Locked()
    requires forall k :: 0 <= k < |steps| ==> !SwitchesOff(cfg, Run(cfg, s, steps[..k]), steps[k].req, steps[k].faults)
    ensures Held(s, Run(cfg, s, steps)) && Run(cfg, s, steps).Locked()
  {
    if steps != [] {
      var n := |steps| - 1;
      forall k | 0 <= k < n ensures !SwitchesOff(cfg, Run(cfg, s, steps[..n][..k]), steps[..n][k].req, steps[..n][k].faults) {
        assert steps[..n][..k] == steps[..k];
      }
      RunHeld(cfg, s, steps[..n]);
      ServeHeld(cfg, Run(cfg, s, steps[..n]), steps[n].req, steps[n].faults);
    }
  }

  /** Without a CEO's request to switch it off, no run even consumes an id. */
  lemma {:induction false} RunFrozen(cfg: Config, s: Store, steps: seq<Step>)
    requires Lawful(cfg) && s.Locked()
    requires forall k :: 0 <= k < |steps| ==> ValidRequest(cfg, steps[k].req) && !MaySwitchOff(cfg, steps[k].req)
    ensures Frozen(s, Run(cfg, s, steps))
  {
    if steps != [] {
      var n := |steps| - 1;
      RunFrozen(cfg, s, steps[..n]);
      ServeFrozen(cfg, Run(cfg, s, steps[..n]), steps[n].req, steps[n].faults);
    }
  }

  /** A CEO's activation through the route freezes every run that follows it, up to the CEO's own deactivation. */
  lemma ActivationFreezes(cfg: Config, s: Store, activation: Step, steps: seq<Step>)
    requires Lawful(cfg) && !activation.faults.route.Refused?
    requires activation.req.PostKillSwitch? && activation.req.active && IsCeo(cfg, activation.req.decidedBy)
    requires forall k :: 0 <= k < |steps| ==> ValidRequest(cfg, steps[k].req) && !MaySwitchOff(cfg, steps[k].req)
    ensures var t := Serve(cfg, s, activation.req, activation.faults).store;
      t.Locked() && Frozen(t, Run(cfg, t, steps))
  {
    var req := activation.req;
    var t := Serve(cfg, s, req, activation.faults).store;
    KillSwitchRouteSetsTheSwitch(cfg, s, true, req.decidedBy, req.reason, req.now, req.correlationId, activation.faults);
    assert t.Locked();
    RunFrozen(cfg, t, steps);
  }
}
