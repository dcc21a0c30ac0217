/** Runs in which each request is served to completion before the next, with any failures. */
module SerialRuns {
  import opened Text
  import opened Json
  import opened JsonLaws
  import opened Domain
  import opened Repository
  import opened Pipeline
  import opened Server
  import opened PipelineLaws

  // ---------- one request ----------

  /** Whatever text is read as a command is within the bounds of the schemas. */
  ghost predicate Bounded(cfg: Config) {
    forall t :: ParseCommand(cfg, t).Some? ==> WithinBounds(ParseCommand(cfg, t).value)
  }

  lemma LawfulIsBounded(cfg: Config)
    requires Lawful(cfg)
    ensures Bounded(cfg)
  {
    forall t | ParseCommand(cfg, t).Some? ensures WithinBounds(ParseCommand(cfg, t).value) {
      assert cfg.platform.Holds(cfg.platform.parse(t).value);
    }
  }

  /** What one request does to claims, ledger and consumed ids: one authorized command's effect, or nothing. */
  ghost predicate Accounted(cfg: Config, s: Store, r: Served) {
    match r.committed
    case None => r.store.claims == s.claims && r.store.ledger == s.ledger
    case Some(env) =>
      && ParseCommand(cfg, env.content).Some?
      && var cmd := ParseCommand(cfg, env.content).value;
      && WithinBounds(cmd)
      && Authorized(cfg, s, env, cmd)
      && CommandId(cfg, env) !in s.consumed
      && var b := Meaning(BusinessOf(s), cfg.threshold, cmd, env.correlationId);
      && r.store.claims == b.claims && r.store.ledger == b.ledger
  }

  lemma RunAccounted(cfg: Config, s: Store, env: Envelope, f: Faults, response: Response)
    requires Bounded(cfg)
    ensures Accounted(cfg, s, AfterRun(env, Process(cfg, s, env, f), response))
  {
    AllOrNothing(cfg, s, env, f);
    if Process(cfg, s, env, f).committed {
      CommitsAreAuthorized(cfg, s, env, f);
    }
  }

  /** The pipeline run nested in POST /killswitch never commits: the route's whole effect is to set the switch. */
  lemma KillSwitchRouteSetsTheSwitch(cfg: Config, s: Store, active: bool, decidedBy: Id, reason: Str, now: Str, corr: Id, f: RequestFaults)
    requires KeysNormalize(cfg)
    ensures var r := ServeKillSwitch(cfg, s, active, decidedBy, reason, now, corr, f);
      var t := if cfg.normalize(decidedBy) in cfg.ceoKeys then f.route.After(s, WithKillSwitch(s, active, cfg.normalize(decidedBy))) else s;
      && r.committed == None && OnlyTraces(t, r.store)
      && (f.run.precheck.Fine? ==> r.store.deadLetters == s.deadLetters)
  {
    var ceo := cfg.normalize(decidedBy);
    if ceo in cfg.ceoKeys && f.route.Fine? {
      UnsignedCeoLeavesTraces(cfg, WithKillSwitch(s, active, ceo), KillSwitchEnvelope(cfg, active, ceo, reason, now, corr), f.run);
    }
  }

  lemma DecisionAccounted(cfg: Config, s: Store, corr: Id, decidedBy: Id, event: Option<SignedEvent>,
                          reason: Str, approve: bool, now: Str, f: RequestFaults)
    requires Bounded(cfg)
    ensures Accounted(cfg, s, ServeDecision(cfg, s, corr, decidedBy, event, reason, approve, now, f))
  {
    var decider := Decider(cfg, decidedBy, event);
    if decider.Some? && f.route.Fine? && Pending(s, corr) {
      var t := WithDecision(s, corr, decider.value, reason, approve);
      var a := t.approvals[corr];
      if Launches(a, approve) {
        var env := LaunchEnvelope(cfg, a, corr, reason, decider.value, now);
        RunAccounted(cfg, t, env, f.run, Respond(Process(cfg, t, env, f.run).result));
      }
    }
  }

  lemma ServeAccounted(cfg: Config, s: Store, req: Request, f: RequestFaults)
    requires Bounded(cfg) && KeysNormalize(cfg)
    ensures Accounted(cfg, s, Serve(cfg, s, req, f))
  {
    match req
    case PostCommand(command, author, event, corr) =>
      var env := CommandEnvelope(cfg, command, author, event, corr);
      if env.Some? {
        RunAccounted(cfg, s, env.value, f.run, Respond(Process(cfg, s, env.value, f.run).result));
      }
    case PostApproval(_, _, _, _, _) =>
    case PostDecision(corr, decidedBy, event, reason, approve, now) =>
      DecisionAccounted(cfg, s, corr, decidedBy, event, reason, approve, now, f);
    case PostKillSwitch(active, decidedBy, reason, now, corr) =>
      KillSwitchRouteSetsTheSwitch(cfg, s, active, decidedBy, reason, now, corr, f);
  }

  // ---------- authority ----------

  /** The CEO signed this command: the event of a posted command verifies, names the author, and carries it. */
  ghost predicate SignedFor(cfg: Config, req: Request, env: Envelope) {
    && req.PostCommand? && req.event.Some?
    && var ev := req.event.value;
    && cfg.verifyEvent(ev) && ev.kind == CHANNEL_MESSAGE_KIND && env.author == cfg.lower(ev.pubkey)
    && cfg.platform.parse(ev.content).Some?
    && SameValue(Finite(cfg.platform.parse(ev.content).value), req.command)
    && ParseCommand(cfg, env.content) == cfg.validate(req.command)
  }

  /** A decision of the CEO: an approval pending under this correlation id, launched in the CEO's name. */
  ghost predicate DecidedBy(cfg: Config, s: Store, req: Request, env: Envelope) {
    && req.PostDecision? && req.approve && Pending(s, req.correlationId)
    && env.correlationId == req.correlationId
    && Decider(cfg, req.decidedBy, req.event) == Some(env.author) && env.author in cfg.ceoKeys
  }

  /** The run of a posted command parses back the command that was posted. */
  lemma PostedTextIsTheCommand(cfg: Config, command: Json)
    requires Lawful(cfg) && cfg.platform.Plain(command)
    ensures ParseCommand(cfg, Stringify(command)) == cfg.validate(command)
  {
    var w := cfg.platform.parse(Stringify(command)).value;
    assert SameValue(command, w);
  }

  /** So does the run of a command the server made itself, unless the schemas refuse it. */
  lemma MadeTextIsTheCommand(cfg: Config, cmd: Command)
    requires Lawful(cfg)
    ensures var parsed := ParseCommand(cfg, Stringify(cfg.render(cmd)));
      parsed == Some(cmd) || parsed.None?
  {
    PostedTextIsTheCommand(cfg, cfg.render(cmd));
  }

  lemma VerifiedEventCarriesCommand(cfg: Config, ev: SignedEvent, command: Json)
    requires Lawful(cfg) && cfg.platform.Plain(command)
    requires VerifySigned(cfg, ev, command).Some?
    ensures cfg.platform.parse(ev.content).Some? && SameValue(Finite(cfg.platform.parse(ev.content).value), command)
    ensures cfg.verifyEvent(ev) && ev.kind == CHANNEL_MESSAGE_KIND
  {
    StableDecidesEquality(cfg.platform.parse(ev.content).value, command);
    FiniteKeepsCanonical(command);
  }

  /** Where the command of a committed effect came from. */
  ghost predicate Sourced(cfg: Config, s: Store, req: Request, env: Envelope) {
    if env.signed then SignedFor(cfg, req, env) || DecidedBy(cfg, s, req, env)
    else req.PostCommand? && req.event.None? && env.author == req.author
         && ParseCommand(cfg, env.content) == cfg.validate(req.command)
  }

  /** The same, of any command the schemas admit. */
  lemma AdmittedTextIsTheCommand(cfg: Config, command: Json)
    requires Lawful(cfg) && cfg.platform.Holds(command) && cfg.validate(command).Some?
    ensures ParseCommand(cfg, Stringify(command)) == cfg.validate(command)
  {
    PostedTextIsTheCommand(cfg, command);
  }

  lemma AcceptedEventCarriesCommand(cfg: Config, ev: SignedEvent, command: Json)
    requires Lawful(cfg) && cfg.platform.Holds(command) && cfg.validate(command).Some?
    requires VerifySigned(cfg, ev, command).Some?
    ensures cfg.platform.parse(ev.content).Some? && SameValue(Finite(cfg.platform.parse(ev.content).value), command)
  {
    VerifiedEventCarriesCommand(cfg, ev, command);
  }

  /** The texts a posted request is judged by say what its command says. */
  ghost predicate ReadsBack(cfg: Config, req: Request) {
    req.PostCommand? && cfg.validate(req.command).Some? ==>
      && ParseCommand(cfg, Stringify(req.command)) == cfg.validate(req.command)
      && (req.event.Some? && VerifySigned(cfg, req.event.value, req.command).Some? ==>
            && cfg.platform.parse(req.event.value.content).Some?
            && SameValue(Finite(cfg.platform.parse(req.event.value.content).value), req.command))
  }

  lemma RequestsReadBack(cfg: Config, req: Request)
    requires Lawful(cfg) && ValidRequest(cfg, req)
    ensures ReadsBack(cfg, req)
  {
    if req.PostCommand? && cfg.validate(req.command).Some? {
      AdmittedTextIsTheCommand(cfg, req.command);
      if req.event.Some? && VerifySigned(cfg, req.event.value, req.command).Some? {
        AcceptedEventCarriesCommand(cfg, req.event.value, req.command);
      }
    }
  }

  lemma PostedCommandSourced(cfg: Config, s: Store, req: Request, f: RequestFaults)
    requires req.PostCommand? && ReadsBack(cfg, req)
    ensures var r := ServeCommand(cfg, s, req.command, req.author, req.event, req.correlationId, f.run);
      r.committed.Some? ==> Sourced(cfg, s, req, r.committed.value)
  {
  }

  lemma DecisionSourced(cfg: Config, s: Store, req: Request, f: RequestFaults)
    requires req.PostDecision?
    ensures var r := ServeDecision(cfg, s, req.correlationId, req.decidedBy, req.event, req.reason, req.approve, req.now, f);
      r.committed.Some? ==> Sourced(cfg, s, req, r.committed.value)
  {
  }

  lemma CommittedIsSourced(cfg: Config, s: Store, req: Request, f: RequestFaults)
    requires KeysNormalize(cfg) && ReadsBack(cfg, req)
    ensures var r := Serve(cfg, s, req, f);
      r.committed.Some? ==> Sourced(cfg, s, req, r.committed.value)
  {
    match req
    case PostCommand(_, _, _, _) => PostedCommandSourced(cfg, s, req, f);
    case PostApproval(_, _, _, _, _) =>
    case PostDecision(_, _, _, _, _, _) => DecisionSourced(cfg, s, req, f);
    case PostKillSwitch(active, decidedBy, reason, now, corr) =>
      KillSwitchRouteSetsTheSwitch(cfg, s, active, decidedBy, reason, now, corr, f);
  }

  /** Every effect comes from a signed event, a CEO decision, or an unsigned agent's own small settlement. */
  lemma EffectsAreAuthorized(cfg: Config, s: Store, req: Request, f: RequestFaults)
    requires Lawful(cfg) && ValidRequest(cfg, req)
    requires Serve(cfg, s, req, f).committed.Some?
    ensures var env := Serve(cfg, s, req, f).committed.value;
      && ParseCommand(cfg, env.content).Some?
      && Authorized(cfg, s, env, ParseCommand(cfg, env.content).value)
      && Sourced(cfg, s, req, env)
  {
    CommittedIsAccounted(cfg, s, req, f);
    RequestsReadBack(cfg, req);
    CommittedIsSourced(cfg, s, req, f);
  }

  lemma CommittedIsAccounted(cfg: Config, s: Store, req: Request, f: RequestFaults)
    requires Lawful(cfg)
    ensures Accounted(cfg, s, Serve(cfg, s, req, f))
  {
    LawfulIsBounded(cfg);
    ServeAccounted(cfg, s, req, f);
  }

  // ---------- what signatures stand behind ----------

  /** The request carries an event that verifies under a CEO key. */
  predicate CarriesCeoEvent(cfg: Config, req: Request) {
    && (req.PostCommand? || req.PostDecision?) && req.event.Some?
    && cfg.verifyEvent(req.event.value) && IsCeo(cfg, cfg.lower(req.event.value.pubkey))
  }

  /** An agent settles, unsigned, a claim within the threshold. */
  predicate OwnSettlement(cfg: Config, s: Store, env: Envelope) {
    && !env.signed && IsAgent(cfg, env.author) && !IsCeo(cfg, env.author)
    && ParseCommand(cfg, env.content).Some?
    && var cmd := ParseCommand(cfg, env.content).value;
    && cmd.SettlementApprove? && cmd.claimId in s.claims && Eur(s.claims[cmd.claimId].amount) <= cfg.threshold
  }

  /** A CEO's event or an agent's own settlement stands behind an effect, exactly unless a decision came without an event. */
  lemma SignatureBehindExactly(cfg: Config, s: Store, req: Request, f: RequestFaults)
    requires Bounded(cfg) && KeysNormalize(cfg)
    requires Serve(cfg, s, req, f).committed.Some?
    ensures CarriesCeoEvent(cfg, req) || OwnSettlement(cfg, s, Serve(cfg, s, req, f).committed.value)
       <==> !(req.PostDecision? && req.event.None?)
  {
    ServeAccounted(cfg, s, req, f);
    match req
    case PostCommand(command, author, event, corr) => PostedEnvelope(cfg, s, command, author, event, corr, f.run);
    case PostDecision(corr, decidedBy, event, reason, approve, now) =>
      DecidedEnvelope(cfg, s, corr, decidedBy, event, reason, approve, now, f);
    case PostApproval(_, _, _, _, _) =>
    case PostKillSwitch(active, decidedBy, reason, now, corr) =>
      KillSwitchRouteSetsTheSwitch(cfg, s, active, decidedBy, reason, now, corr, f);
  }

  lemma PostedEnvelope(cfg: Config, s: Store, command: Json, author: Id, event: Option<SignedEvent>, corr: Id, f: Faults)
    ensures var r := ServeCommand(cfg, s, command, author, event, corr, f);
      r.committed.Some? ==>
        && r.committed.value.signed == event.Some?
        && (event.Some? ==> cfg.verifyEvent(event.value) && r.committed.value.author == cfg.lower(event.value.pubkey))
  {
  }

  lemma DecidedEnvelope(cfg: Config, s: Store, corr: Id, decidedBy: Id, event: Option<SignedEvent>,
                        reason: Str, approve: bool, now: Str, f: RequestFaults)
    ensures var r := ServeDecision(cfg, s, corr, decidedBy, event, reason, approve, now, f);
      r.committed.Some? ==>
        && r.committed.value.signed && Decider(cfg, decidedBy, event) == Some(r.committed.value.author)
        && r.committed.value.author in cfg.ceoKeys
        && (event.Some? ==> cfg.verifyEvent(event.value))
  {
  }

  /** What an event attached to a decision says plays no part: only that it verifies, and under which key. */
  lemma DecisionIgnoresContent(cfg: Config, s: Store, corr: Id, name: Id, ev: SignedEvent, otherName: Id, other: SignedEvent,
                               reason: Str, approve: bool, now: Str, f: RequestFaults)
    requires cfg.verifyEvent(ev) && cfg.verifyEvent(other) && ev.pubkey == other.pubkey
    ensures ServeDecision(cfg, s, corr, name, Some(ev), reason, approve, now, f)
         == ServeDecision(cfg, s, corr, otherName, Some(other), reason, approve, now, f)
  {
  }
}
