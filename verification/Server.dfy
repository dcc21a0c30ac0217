/** Signed events and the HTTP routes that change the store. */
module Server {
  import opened Text
  import opened Json
  import opened Domain
  import opened Repository
  import opened Pipeline
  import Policy

  // ---------- signed events ----------

  /** Strict structural equality of two commands. */
  predicate SameCommand(a: Json, b: Json) {
    StableStringify(a) == StableStringify(b)
  }

  const CHANNEL_MESSAGE_KIND := 9

  /** verifySignedEventForCommand: the author's key, if the event signs exactly this command. */
  function VerifySigned(cfg: Config, ev: SignedEvent, command: Json): Option<Id> {
    if ev.kind != CHANNEL_MESSAGE_KIND then None
    else
      var contents := cfg.platform.parse(ev.content);
      if contents.None? || !SameCommand(contents.value, command) || !cfg.verifyEvent(ev) then None
      else Some(cfg.lower(ev.pubkey))
  }

  // ---------- requests ----------

  datatype Request =
    | PostCommand(command: Json, author: Id, event: Option<SignedEvent>, correlationId: Id)
    | PostApproval(claimId: Id, amount: real, reason: Str, requestedBy: Id, correlationId: Id)
    | PostDecision(correlationId: Id, decidedBy: Id, event: Option<SignedEvent>, reason: Str, approve: bool, now: Str)
    | PostKillSwitch(active: bool, decidedBy: Id, reason: Str, now: Str, correlationId: Id)

  /** A request body is the result of JSON.parse. */
  predicate ValidRequest(cfg: Config, req: Request) {
    req.PostCommand? ==> cfg.platform.Holds(req.command)
  }

  datatype Response = BadRequest | Unauthorized | Forbidden | Conflict | ServerError | Ok(outcome: Option<Outcome>)

  function Respond(r: Result): Response {
    match r
    case Returned(outcome) => Ok(Some(outcome))
    case Thrown(_) => ServerError
  }

  /** The failures of one request: its own statement first, then those of the run it starts. */
  datatype RequestFaults = RequestFaults(route: Fault, run: Faults)

  /** Where a request leaves the store; `committed` names the run whose effect committed, if one did. */
  datatype Served = Served(store: Store, response: Response, committed: Option<Envelope>)

  function Refusal(s: Store, response: Response): Served { Served(s, response, None) }

  function AfterRun(env: Envelope, p: Passage, response: Response): Served {
    Served(p.store, response, if p.committed then Some(env) else None)
  }

  // ---------- POST /commands ----------

  /** The envelope of a posted command: authority comes from the signed event when there is one. */
  function CommandEnvelope(cfg: Config, command: Json, author: Id, event: Option<SignedEvent>, correlationId: Id): Option<Envelope> {
    match event
    case None => Some(Envelope(author, Stringify(command), correlationId, false))
    case Some(ev) =>
      var signer := VerifySigned(cfg, ev, command);
      if signer.None? then None else Some(Envelope(signer.value, Stringify(command), correlationId, true))
  }

  function ServeCommand(cfg: Config, s: Store, command: Json, author: Id, event: Option<SignedEvent>, correlationId: Id, f: Faults): Served {
    var validated := cfg.validate(command);
    if validated.None? then Refusal(s, BadRequest)
    else
      var env := CommandEnvelope(cfg, command, author, event, correlationId);
      if env.None? then Refusal(s, Unauthorized)
      else if cfg.requireSigned && !env.value.signed && Policy.RequiresCeo(validated.value.Type()) then Refusal(s, Unauthorized)
      else
        var p := Process(cfg, s, env.value, f);
        AfterRun(env.value, p, Respond(p.result))
  }

  // ---------- POST /approvals ----------

  function RequestedApproval(cfg: Config, claimId: Id, amount: real, reason: Str, requestedBy: Id): Approval {
    Approval(ClaimSettlementApprove, Some(claimId), Some(Cents(amount)), EnAttente, Some(cfg.normalize(requestedBy)), None, Some(reason))
  }

  function ServeApproval(cfg: Config, s: Store, claimId: Id, amount: real, reason: Str, requestedBy: Id, correlationId: Id, f: Fault): Served {
    if amount <= 0.0 then Refusal(s, BadRequest)
    else if !IsCeo(cfg, requestedBy) && !IsAgent(cfg, requestedBy) then Refusal(s, Forbidden)
    else
      var t := f.After(s, WithApproval(s, correlationId, RequestedApproval(cfg, claimId, amount, reason, requestedBy)));
      Refusal(t, if f.Fine? then Ok(None) else ServerError)
  }

  // ---------- POST /approvals/:correlationId/decide ----------

  const EXECUTION_PREFIX: Str := Of("Execution after CEO approval \U{201C} ")
  const EXECUTION_SUFFIX: Str := Of(" \U{201D}")

  /** The settlement an approval launches, capped at the approved amount. */
  function LaunchedCommand(a: Approval, correlationId: Id, reason: Str, ceo: Id, now: Str): Command
    requires a.amount.Some?
  {
    SettlementApprove(
      if a.claimId.Some? then a.claimId.value else correlationId,
      Eur(a.amount.value),
      EXECUTION_PREFIX + Prefix(reason, 100) + EXECUTION_SUFFIX,
      ceo,
      now)
  }

  predicate Launches(a: Approval, approve: bool) {
    approve && a.kind == ClaimSettlementApprove && a.amount.Some?
  }

  function LaunchEnvelope(cfg: Config, a: Approval, correlationId: Id, reason: Str, ceo: Id, now: Str): Envelope
    requires a.amount.Some?
  {
    Envelope(ceo, Stringify(cfg.render(LaunchedCommand(a, correlationId, reason, ceo, now))), correlationId, true)
  }

  /** Who decides: the signer of the attached event, else the declared name. */
  function Decider(cfg: Config, decidedBy: Id, event: Option<SignedEvent>): Option<Id> {
    match event
    case None => Some(cfg.normalize(decidedBy))
    case Some(ev) => if cfg.verifyEvent(ev) then Some(cfg.normalize(cfg.lower(ev.pubkey))) else None
  }

  function ServeDecision(cfg: Config, s: Store, correlationId: Id, decidedBy: Id, event: Option<SignedEvent>,
                         reason: Str, approve: bool, now: Str, f: RequestFaults): Served {
    var decider := Decider(cfg, decidedBy, event);
    if decider.None? then Refusal(s, Unauthorized)
    else if decider.value !in cfg.ceoKeys then Refusal(s, Forbidden)
    else
      var t := f.route.After(s, WithDecision(s, correlationId, decider.value, reason, approve));
      if !f.route.Fine? then Refusal(t, ServerError)
      else if !Pending(s, correlationId) then Refusal(t, Conflict)
      else
        var a := t.approvals[correlationId];
        if !Launches(a, approve) then Refusal(t, Ok(None))
        else
          var env := LaunchEnvelope(cfg, a, correlationId, reason, decider.value, now);
          var p := Process(cfg, t, env, f.run);
          AfterRun(env, p, Respond(p.result))
  }

  // ---------- POST /killswitch ----------

  /** The unsigned command the route sends through the pipeline after it has set the switch. */
  function KillSwitchEnvelope(cfg: Config, active: bool, ceo: Id, reason: Str, now: Str, correlationId: Id): Envelope {
    var cmd := if active then KillSwitchActivate(ceo, reason, now) else KillSwitchDeactivate(ceo, reason, now);
    Envelope(ceo, Stringify(cfg.render(cmd)), correlationId, false)
  }

  function ServeKillSwitch(cfg: Config, s: Store, active: bool, decidedBy: Id, reason: Str, now: Str, correlationId: Id, f: RequestFaults): Served {
    var ceo := cfg.normalize(decidedBy);
    if ceo !in cfg.ceoKeys then Refusal(s, Forbidden)
    else
      var t := f.route.After(s, WithKillSwitch(s, active, ceo));
      if !f.route.Fine? then Refusal(t, ServerError)
      else
        var env := KillSwitchEnvelope(cfg, active, ceo, reason, now, correlationId);
        var p := Process(cfg, t, env, f.run);
        AfterRun(env, p, if p.result.Thrown? then ServerError else Ok(None))
  }

  function Serve(cfg: Config, s: Store, req: Request, f: RequestFaults): Served {
    match req
    case PostCommand(command, author, event, corr) => ServeCommand(cfg, s, command, author, event, corr, f.run)
    case PostApproval(claimId, amount, reason, requester, corr) =>
      ServeApproval(cfg, s, claimId, amount, reason, requester, corr, f.route)
    case PostDecision(corr, decidedBy, event, reason, approve, now) =>
      ServeDecision(cfg, s, corr, decidedBy, event, reason, approve, now, f)
    case PostKillSwitch(active, decidedBy, reason, now, corr) =>
      ServeKillSwitch(cfg, s, active, decidedBy, reason, now, corr, f)
  }

  // ---------- the handlers ----------

  class Bridge {
    const cfg: Config
    const repo: PgRepository

    constructor (cfg: Config, repo: PgRepository)
      ensures this.cfg == cfg && this.repo == repo
    {
      this.cfg, this.repo := cfg, repo;
    }

    method HandleCommand(command: Json, author: Id, event: Option<SignedEvent>, correlationId: Id, f: Faults)
      returns (r: Response, ghost ran: Option<Envelope>)
      modifies repo
      ensures Served(repo.Contents(), r, ran) == ServeCommand(cfg, old(repo.Contents()), command, author, event, correlationId, f)
    {
      ran := None;
      var validated := cfg.validate(command);
      if validated.None? {
        return BadRequest, None;
      }
      var authorPubkey, signed := author, event.Some?;
      if event.Some? {
        var check := VerifySigned(cfg, event.value, command);
        if check.None? {
          return Unauthorized, None;
        }
        authorPubkey := check.value;
      }
      if cfg.requireSigned && !signed && Policy.RequiresCeo(validated.value.Type()) {
        return Unauthorized, None;
      }
      var env := Envelope(authorPubkey, Stringify(command), correlationId, signed);
      var result, committed := ProcessInboundCommand(cfg, repo, env, f);
      r, ran := Respond(result), if committed then Some(env) else None;
    }

    method HandleApproval(claimId: Id, amount: real, reason: Str, requestedBy: Id, correlationId: Id, f: Fault) returns (r: Response)
      modifies repo
      ensures Served(repo.Contents(), r, None)
           == ServeApproval(cfg, old(repo.Contents()), claimId, amount, reason, requestedBy, correlationId, f)
    {
      if amount <= 0.0 {
        return BadRequest;
      }
      if !IsCeo(cfg, requestedBy) && !IsAgent(cfg, requestedBy) {
        return Forbidden;
      }
      var created := repo.CreateApproval(correlationId, RequestedApproval(cfg, claimId, amount, reason, requestedBy), f);
      r := if created.Failed? then ServerError else Ok(None);
    }

    method HandleDecision(correlationId: Id, decidedBy: Id, event: Option<SignedEvent>, reason: Str, approve: bool, now: Str, f: RequestFaults)
      returns (r: Response, ghost ran: Option<Envelope>)
      modifies repo
      ensures Served(repo.Contents(), r, ran)
           == ServeDecision(cfg, old(repo.Contents()), correlationId, decidedBy, event, reason, approve, now, f)
    {
      ran := None;
      var decider := Decider(cfg, decidedBy, event);
      if decider.None? {
        return Unauthorized, None;
      }
      if decider.value !in cfg.ceoKeys {
        return Forbidden, None;
      }
      var updated := repo.DecideApproval(correlationId, decider.value, reason, approve, f.route);
      if updated.Failed? {
        return ServerError, None;
      }
      if updated.value.None? {
        return Conflict, None;
      }
      var a := updated.value.value;
      if !Launches(a, approve) {
        return Ok(None), None;
      }
      var env := LaunchEnvelope(cfg, a, correlationId, reason, decider.value, now);
      var result, committed := ProcessInboundCommand(cfg, repo, env, f.run);
      r, ran := Respond(result), if committed then Some(env) else None;
    }

    method HandleKillSwitch(active: bool, decidedBy: Id, reason: Str, now: Str, correlationId: Id, f: RequestFaults)
      returns (r: Response, ghost ran: Option<Envelope>)
      modifies repo
      ensures Served(repo.Contents(), r, ran)
           == ServeKillSwitch(cfg, old(repo.Contents()), active, decidedBy, reason, now, correlationId, f)
    {
      ran := None;
      var ceo := cfg.normalize(decidedBy);
      if ceo !in cfg.ceoKeys {
        return Forbidden, None;
      }
      var set' := repo.SetKillSwitch(active, ceo, f.route);
      if set'.Failed? {
        return ServerError, None;
      }
      var env := KillSwitchEnvelope(cfg, active, ceo, reason, now, correlationId);
      var result, committed := ProcessInboundCommand(cfg, repo, env, f.run);
      r, ran := if result.Thrown? then ServerError else Ok(None), if committed then Some(env) else None;
    }
  }
}
