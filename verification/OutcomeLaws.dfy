/**
  What becomes of a run, read off the first obstacle in its way. A run makes its calls and passes its gates in one
  order; its answer, its dead letters, its audit events and its consumed id all follow from the first that is not clear.
 */
module OutcomeLaws {
  import opened Json
  import opened Domain
  import opened Repository
  import opened Pipeline
  import Policy

  /** A gate that ends the run with an outcome, the kill-switch, or a call whose failure is not swallowed. */
  datatype Obstacle =
    | Clear
    | Stops(outcome: Outcome, event: AuditEvent)
    | Blocks(event: AuditEvent)
    | Breaks(fault: Fault)

  function First(os: seq<Obstacle>): Obstacle {
    if os == [] then Clear else if os[0] != Clear then os[0] else First(os[1..])
  }

  function CallOf(f: Fault): Obstacle { if f.Fine? then Clear else Breaks(f) }

  // ---------- the obstacles, in order ----------

  function AlreadyRun(cfg: Config, s: Store, env: Envelope): Obstacle {
    if CommandId(cfg, env) in s.consumed then Stops(Consumed, ConsumedPrecheckAudit(CommandId(cfg, env))) else Clear
  }

  function UnsignedCeo(cfg: Config, env: Envelope): Obstacle {
    if IsCeo(cfg, env.author) && !env.signed then Stops(Denied(CeoWithoutSignature), AuthDeniedAudit) else Clear
  }

  function SwitchedOn(s: Store, cmd: Command): Obstacle {
    if s.killSwitch.Some? && s.killSwitch.value.active && !cmd.KillSwitchDeactivate?
    then Blocks(KillSwitchBlockedAudit(s.killSwitch.value.setBy)) else Clear
  }

  /** What the policy has against the command, given the tables as they are. */
  function AgainstPolicy(cfg: Config, s: Store, env: Envelope, cmd: Command): Obstacle {
    var claim := if cmd.IsClaim() && cmd.claimId in s.claims then Some(s.claims[cmd.claimId]) else None;
    match Policy.Evaluate(cmd, Policy.Context(s.killSwitch, claim, CommandId(cfg, env) in s.consumed, cfg.threshold), ResolveRole(cfg, env))
    case Allow => Clear
    case Deny(reason) => Stops(Denied(reason), PolicyDeniedAudit(reason, ResolveRole(cfg, env)))
  }

  function OfClaims(cmd: Command, f: Fault): Obstacle { if cmd.IsClaim() then CallOf(f) else Clear }

  /** Reading and deciding. */
  function BeforeConsumption(cfg: Config, s: Store, env: Envelope, cmd: Command, f: Faults): seq<Obstacle> {
    [CallOf(f.precheck), AlreadyRun(cfg, s, env), UnsignedCeo(cfg, env), CallOf(f.killSwitchRead), SwitchedOn(s, cmd),
     OfClaims(cmd, f.claimRead), CallOf(f.consumedRead), AgainstPolicy(cfg, s, env, cmd)]
  }

  /** Writing. */
  function FromConsumption(cmd: Command, f: Faults): seq<Obstacle> {
    [CallOf(f.consume), OfClaims(cmd, f.linkApproval), CallOf(f.auditCommand), CallOf(f.effect)]
  }

  function FirstOf(cfg: Config, s: Store, env: Envelope, f: Faults): Obstacle {
    match ParseCommand(cfg, env.content)
    case None => Stops(Denied(SchemaInvalid), SchemaInvalidAudit)
    case Some(cmd) => First(BeforeConsumption(cfg, s, env, cmd, f) + FromConsumption(cmd, f))
  }

  // ---------- what follows from an obstacle ----------

  /** The code of a dead letter, if the obstacle is not left to the caller to retry. */
  function Buried(o: Obstacle): Option<ErrorCode> {
    match o
    case Blocks(_) => Some(KillSwitchBlocked)
    case Breaks(Refused(transient)) => if transient then None else Some(EffectFailed)
    case Breaks(LostReply(transient)) => if transient then None else Some(EffectFailed)
    case _ => None
  }

  /** The answer: a transient error goes back to the caller, any other to the dead-letter queue, unless that fails too. */
  function AnswerTo(o: Obstacle, enqueue: Fault): Result {
    match o
    case Clear => Returned(Executed)
    case Stops(outcome, _) => Returned(outcome)
    case _ =>
      if Buried(o).None? then Thrown(DbUnavailable)
      else match enqueue
        case Fine => Returned(DeadLetter(Buried(o).value))
        case Refused(transient) => Thrown(if transient then DbUnavailable else EffectFailed)
        case LostReply(transient) => Thrown(if transient then DbUnavailable else EffectFailed)
  }

  /** The dead letters a run adds: one with its own correlation id and content, or none. */
  function LettersOf(o: Obstacle, env: Envelope, enqueue: Fault): seq<DeadLetterEntry> {
    if Buried(o).Some? && !enqueue.Refused? then [DeadLetterEntry(env.correlationId, env.content, Buried(o).value)] else []
  }

  function Told(event: AuditEvent, f: Fault): seq<AuditEvent> { if f.Refused? then [] else [event] }

  /** The audit events at the end of a run. */
  function LastEvents(cfg: Config, env: Envelope, o: Obstacle, f: Faults): seq<AuditEvent> {
    match o
    case Clear =>
      if ParseCommand(cfg, env.content).Some? then Told(ExecutedAudit(ParseCommand(cfg, env.content).value), f.audit) else []
    case Stops(_, event) => Told(event, f.audit)
    case Blocks(event) => Told(event, f.audit) + DeadLetterEvents(o, f)
    case Breaks(_) => DeadLetterEvents(o, f)
  }

  function DeadLetterEvents(o: Obstacle, f: Faults): seq<AuditEvent> {
    if Buried(o).Some? && f.enqueue.Fine? then Told(DeadLetterAudit(Buried(o).value), f.deadLetterAudit) else []
  }

  /** What was recorded, with its correlation id. */
  function Journal(audit: seq<AuditRecord>): (r: seq<(Id, AuditEvent)>)
    ensures |r| == |audit|
  {
    seq(|audit|, i requires 0 <= i < |audit| => (audit[i].correlationId, audit[i].event))
  }

  function Under(corr: Id, events: seq<AuditEvent>): (r: seq<(Id, AuditEvent)>)
    ensures |r| == |events|
  {
    seq(|events|, i requires 0 <= i < |events| => (corr, events[i]))
  }

  /** A part of a run that ends on o, from store s on, having told `events`. */
  ghost predicate Routed(cfg: Config, s: Store, env: Envelope, f: Faults, o: Obstacle, events: seq<AuditEvent>, p: Passage) {
    && p.result == AnswerTo(o, f.enqueue)
    && p.store.deadLetters == s.deadLetters + LettersOf(o, env, f.enqueue)
    && Journal(p.store.audit) == Journal(s.audit) + Under(env.correlationId, events + LastEvents(cfg, env, o, f))
  }

  // ---------- appending to the journal ----------

  lemma JournalGrows(cfg: Config, s: Store, corr: Id, event: AuditEvent, f: Fault)
    ensures Journal(f.After(s, WithAudit(cfg, s, corr, event)).audit) == Journal(s.audit) + Under(corr, Told(event, f))
  {
  }

  lemma UnderBoth(corr: Id, a: seq<AuditEvent>, b: seq<AuditEvent>)
    ensures Under(corr, a + b) == Under(corr, a) + Under(corr, b)
  {
  }

  lemma FirstFrom(o: Obstacle, os: seq<Obstacle>)
    ensures First([o] + os) == if o != Clear then o else First(os)
  {
    assert ([o] + os)[1..] == os;
  }

  lemma ConcludeRoutes(cfg: Config, s: Store, env: Envelope, outcome: Outcome, event: AuditEvent, f: Faults)
    ensures Routed(cfg, s, env, f, Stops(outcome, event), [], Conclude(cfg, s, env, event, outcome, f, false))
  {
    JournalGrows(cfg, s, env.correlationId, event, f.audit);
    assert [] + Told(event, f.audit) == Told(event, f.audit);
  }

  /** The catch block does with a broken call what its fault calls for. */
  lemma FailRoutes(cfg: Config, s: Store, env: Envelope, fault: Fault, f: Faults, committed: bool)
    requires !fault.Fine?
    ensures Routed(cfg, s, env, f, Breaks(fault), [], Fail(cfg, s, env, fault.Code(), f, committed))
  {
    var queued := f.enqueue.After(s, WithDeadLetter(s, DeadLetterEntry(env.correlationId, env.content, fault.Code())));
    JournalGrows(cfg, queued, env.correlationId, DeadLetterAudit(fault.Code()), f.deadLetterAudit);
    assert [] + DeadLetterEvents(Breaks(fault), f) == DeadLetterEvents(Breaks(fault), f);
  }

  lemma BlockRoutes(cfg: Config, s: Store, env: Envelope, event: AuditEvent, f: Faults)
    ensures Routed(cfg, s, env, f, Blocks(event), [], Fail(cfg, SafeAudit(cfg, s, env, event, f.audit), env, KillSwitchBlocked, f, false))
  {
    var t := SafeAudit(cfg, s, env, event, f.audit);
    var queued := f.enqueue.After(t, WithDeadLetter(t, DeadLetterEntry(env.correlationId, env.content, KillSwitchBlocked)));
    JournalGrows(cfg, s, env.correlationId, event, f.audit);
    JournalGrows(cfg, queued, env.correlationId, DeadLetterAudit(KillSwitchBlocked), f.deadLetterAudit);
    var told, letters := Told(event, f.audit), DeadLetterEvents(Blocks(event), f);
    UnderBoth(env.correlationId, told, letters);
    assert [] + (told + letters) == told + letters;
  }

  /** Nothing between s and t that the answer, the dead letters or the journal would show. */
  lemma RoutedFrom(cfg: Config, s: Store, t: Store, env: Envelope, f: Faults, o: Obstacle, events: seq<AuditEvent>, p: Passage)
    requires Routed(cfg, t, env, f, o, events, p) && t.deadLetters == s.deadLetters && t.audit == s.audit
    ensures Routed(cfg, s, env, f, o, events, p)
  {
  }

  // ---------- the stages, last first ----------

  lemma EffectRoutes(cfg: Config, s: Store, env: Envelope, cmd: Command, f: Faults)
    requires ParseCommand(cfg, env.content) == Some(cmd)
    ensures Routed(cfg, s, env, f, First([CallOf(f.effect)]), [], AtEffect(cfg, s, env, cmd, f))
  {
    var t := f.effect.After(s, WithEffect(s, cfg.threshold, cmd, env.correlationId));
    if f.effect.Fine? {
      DecideRoutes(cfg, t, env, cmd, f);
      RoutedFrom(cfg, s, t, env, f, Clear, [], AtDecide(cfg, t, env, cmd, f));
    } else {
      FailRoutes(cfg, t, env, f.effect, f, f.effect.LostReply?);
      RoutedFrom(cfg, s, t, env, f, Breaks(f.effect), [], Fail(cfg, t, env, f.effect.Code(), f, f.effect.LostReply?));
    }
  }

  lemma DecideRoutes(cfg: Config, s: Store, env: Envelope, cmd: Command, f: Faults)
    requires ParseCommand(cfg, env.content) == Some(cmd)
    ensures Routed(cfg, s, env, f, Clear, [], AtDecide(cfg, s, env, cmd, f))
  {
    var decided := if cmd.IsClaim()
      then f.decide.After(s, WithDecision(s, env.correlationId, cmd.approvedBy, cmd.reason, cmd.SettlementApprove?))
      else s;
    JournalGrows(cfg, decided, env.correlationId, ExecutedAudit(cmd), f.audit);
    assert [] + Told(ExecutedAudit(cmd), f.audit) == Told(ExecutedAudit(cmd), f.audit);
  }

  /** The events of a run once it has told of its command. */
  function CommandTold(cfg: Config, env: Envelope, cmd: Command, f: Faults): seq<AuditEvent> {
    Told(CommandAudit(CommandId(cfg, env), ResolveRole(cfg, env), env.author, cmd), f.auditCommand)
  }

  lemma ToldFirst(cfg: Config, s: Store, t: Store, env: Envelope, f: Faults, o: Obstacle, events: seq<AuditEvent>, p: Passage)
    requires Routed(cfg, t, env, f, o, [], p) && t.deadLetters == s.deadLetters
    requires Journal(t.audit) == Journal(s.audit) + Under(env.correlationId, events)
    ensures Routed(cfg, s, env, f, o, events, p)
  {
    var last := LastEvents(cfg, env, o, f);
    UnderBoth(env.correlationId, events, last);
    assert [] + last == last;
  }

  lemma AuditRoutes(cfg: Config, s: Store, env: Envelope, cmd: Command, f: Faults)
    requires ParseCommand(cfg, env.content) == Some(cmd)
    ensures Routed(cfg, s, env, f, First([CallOf(f.auditCommand), CallOf(f.effect)]), CommandTold(cfg, env, cmd, f),
                   AtAuditCommand(cfg, s, env, cmd, f))
  {
    var event := CommandEvent(cfg, env, cmd);
    var t := f.auditCommand.After(s, WithAudit(cfg, s, env.correlationId, event));
    FirstFrom(CallOf(f.auditCommand), [CallOf(f.effect)]);
    JournalGrows(cfg, s, env.correlationId, event, f.auditCommand);
    if f.auditCommand.Fine? {
      EffectRoutes(cfg, t, env, cmd, f);
      ToldFirst(cfg, s, t, env, f, First([CallOf(f.effect)]), Told(event, f.auditCommand), AtEffect(cfg, t, env, cmd, f));
    } else {
      FailRoutes(cfg, t, env, f.auditCommand, f, false);
      ToldFirst(cfg, s, t, env, f, Breaks(f.auditCommand), Told(event, f.auditCommand), Fail(cfg, t, env, f.auditCommand.Code(), f, false));
    }
  }

  /** The command is told of once it is consumed and linked. */
  function EventsFromConsumption(cfg: Config, env: Envelope, cmd: Command, f: Faults): seq<AuditEvent> {
    if f.consume.Fine? && (cmd.IsClaim() ==> f.linkApproval.Fine?) then CommandTold(cfg, env, cmd, f) else []
  }

  lemma LinkRoutes(cfg: Config, s: Store, env: Envelope, cmd: Command, f: Faults)
    requires ParseCommand(cfg, env.content) == Some(cmd) && f.consume.Fine?
    ensures Routed(cfg, s, env, f, First([OfClaims(cmd, f.linkApproval), CallOf(f.auditCommand), CallOf(f.effect)]),
                   EventsFromConsumption(cfg, env, cmd, f), AtLinkApproval(cfg, s, env, cmd, f))
  {
    FirstFrom(OfClaims(cmd, f.linkApproval), [CallOf(f.auditCommand), CallOf(f.effect)]);
    if cmd.IsClaim() {
      var t := f.linkApproval.After(s, WithApproval(s, env.correlationId, LinkedApproval(cmd)));
      if f.linkApproval.Fine? {
        AuditRoutes(cfg, t, env, cmd, f);
        RoutedFrom(cfg, s, t, env, f, First([CallOf(f.auditCommand), CallOf(f.effect)]), CommandTold(cfg, env, cmd, f), AtAuditCommand(cfg, t, env, cmd, f));
      } else {
        FailRoutes(cfg, t, env, f.linkApproval, f, false);
        RoutedFrom(cfg, s, t, env, f, Breaks(f.linkApproval), [], Fail(cfg, t, env, f.linkApproval.Code(), f, false));
      }
    } else {
      AuditRoutes(cfg, s, env, cmd, f);
    }
  }

  lemma ConsumeRoutes(cfg: Config, s: Store, env: Envelope, cmd: Command, f: Faults)
    requires ParseCommand(cfg, env.content) == Some(cmd) && CommandId(cfg, env) !in s.consumed
    ensures Routed(cfg, s, env, f, First(FromConsumption(cmd, f)), EventsFromConsumption(cfg, env, cmd, f), AtConsume(cfg, s, env, cmd, f))
  {
    var t := f.consume.After(s, WithConsumed(s, CommandId(cfg, env), env.correlationId));
    var rest := [OfClaims(cmd, f.linkApproval), CallOf(f.auditCommand), CallOf(f.effect)];
    FirstFrom(CallOf(f.consume), rest);
    assert FromConsumption(cmd, f) == [CallOf(f.consume)] + rest;
    if f.consume.Fine? {
      LinkRoutes(cfg, t, env, cmd, f);
      RoutedFrom(cfg, s, t, env, f, First(rest), EventsFromConsumption(cfg, env, cmd, f), AtLinkApproval(cfg, t, env, cmd, f));
    } else {
      FailRoutes(cfg, t, env, f.consume, f, false);
      RoutedFrom(cfg, s, t, env, f, Breaks(f.consume), [], Fail(cfg, t, env, f.consume.Code(), f, false));
    }
  }

  /** The events of a run up to its effect: the command's own, once nothing stood before its consumption. */
  function FirstEvents(cfg: Config, s: Store, env: Envelope, cmd: Command, f: Faults, before: seq<Obstacle>): seq<AuditEvent> {
    if First(before) == Clear then EventsFromConsumption(cfg, env, cmd, f) else []
  }

  lemma FirstOfBoth(a: seq<Obstacle>, b: seq<Obstacle>)
    ensures First(a + b) == if First(a) != Clear then First(a) else First(b)
  {
    if a == [] {
      assert a + b == b;
    } else {
      assert (a + b)[1..] == a[1..] + b;
      FirstOfBoth(a[1..], b);
    }
  }

  lemma PolicyRoutes(cfg: Config, s: Store, env: Envelope, cmd: Command, f: Faults)
    requires ParseCommand(cfg, env.content) == Some(cmd) && CommandId(cfg, env) !in s.consumed
    ensures var before := [OfClaims(cmd, f.claimRead), CallOf(f.consumedRead), AgainstPolicy(cfg, s, env, cmd)];
      Routed(cfg, s, env, f, First(before + FromConsumption(cmd, f)), FirstEvents(cfg, s, env, cmd, f, before), AtPolicy(cfg, s, env, cmd, f))
  {
    var before := [OfClaims(cmd, f.claimRead), CallOf(f.consumedRead), AgainstPolicy(cfg, s, env, cmd)];
    FirstOfBoth(before, FromConsumption(cmd, f));
    FirstFrom(OfClaims(cmd, f.claimRead), [CallOf(f.consumedRead), AgainstPolicy(cfg, s, env, cmd)]);
    FirstFrom(CallOf(f.consumedRead), [AgainstPolicy(cfg, s, env, cmd)]);
    assert before == [OfClaims(cmd, f.claimRead)] + [CallOf(f.consumedRead), AgainstPolicy(cfg, s, env, cmd)];
    assert [CallOf(f.consumedRead), AgainstPolicy(cfg, s, env, cmd)] == [CallOf(f.consumedRead)] + [AgainstPolicy(cfg, s, env, cmd)];
    if cmd.IsClaim() && !f.claimRead.Fine? {
      FailRoutes(cfg, s, env, f.claimRead, f, false);
    } else if !f.consumedRead.Fine? {
      FailRoutes(cfg, s, env, f.consumedRead, f, false);
    } else {
      match AgainstPolicy(cfg, s, env, cmd)
      case Stops(outcome, event) => ConcludeRoutes(cfg, s, env, outcome, event, f);
      case _ => ConsumeRoutes(cfg, s, env, cmd, f);
    }
  }

  lemma KillSwitchRoutes(cfg: Config, s: Store, env: Envelope, cmd: Command, f: Faults)
    requires ParseCommand(cfg, env.content) == Some(cmd) && CommandId(cfg, env) !in s.consumed
    ensures var before := [CallOf(f.killSwitchRead), SwitchedOn(s, cmd), OfClaims(cmd, f.claimRead), CallOf(f.consumedRead), AgainstPolicy(cfg, s, env, cmd)];
      Routed(cfg, s, env, f, First(before + FromConsumption(cmd, f)), FirstEvents(cfg, s, env, cmd, f, before), AtKillSwitch(cfg, s, env, cmd, f))
  {
    var later := [OfClaims(cmd, f.claimRead), CallOf(f.consumedRead), AgainstPolicy(cfg, s, env, cmd)];
    var before := [CallOf(f.killSwitchRead)] + ([SwitchedOn(s, cmd)] + later);
    FirstFrom(CallOf(f.killSwitchRead), [SwitchedOn(s, cmd)] + later);
    FirstFrom(SwitchedOn(s, cmd), later);
    FirstOfBoth(before, FromConsumption(cmd, f));
    FirstOfBoth(later, FromConsumption(cmd, f));
    assert before == [CallOf(f.killSwitchRead), SwitchedOn(s, cmd), OfClaims(cmd, f.claimRead), CallOf(f.consumedRead), AgainstPolicy(cfg, s, env, cmd)];
    if !f.killSwitchRead.Fine? {
      FailRoutes(cfg, s, env, f.killSwitchRead, f, false);
    } else if SwitchedOn(s, cmd) != Clear {
      BlockRoutes(cfg, s, env, KillSwitchBlockedAudit(s.killSwitch.value.setBy), f);
    } else {
      PolicyRoutes(cfg, s, env, cmd, f);
    }
  }

  lemma PrecheckRoutes(cfg: Config, s: Store, env: Envelope, cmd: Command, f: Faults)
    requires ParseCommand(cfg, env.content) == Some(cmd)
    ensures var before := BeforeConsumption(cfg, s, env, cmd, f);
      Routed(cfg, s, env, f, First(before + FromConsumption(cmd, f)), FirstEvents(cfg, s, env, cmd, f, before), AtPrecheck(cfg, s, env, cmd, f))
  {
    var later := [CallOf(f.killSwitchRead), SwitchedOn(s, cmd), OfClaims(cmd, f.claimRead), CallOf(f.consumedRead), AgainstPolicy(cfg, s, env, cmd)];
    var before := [CallOf(f.precheck)] + ([AlreadyRun(cfg, s, env)] + ([UnsignedCeo(cfg, env)] + later));
    FirstFrom(CallOf(f.precheck), [AlreadyRun(cfg, s, env)] + ([UnsignedCeo(cfg, env)] + later));
    FirstFrom(AlreadyRun(cfg, s, env), [UnsignedCeo(cfg, env)] + later);
    FirstFrom(UnsignedCeo(cfg, env), later);
    FirstOfBoth(before, FromConsumption(cmd, f));
    FirstOfBoth(later, FromConsumption(cmd, f));
    assert before == BeforeConsumption(cfg, s, env, cmd, f);
    if !f.precheck.Fine? {
      FailRoutes(cfg, s, env, f.precheck, f, false);
    } else if AlreadyRun(cfg, s, env) != Clear {
      ConcludeRoutes(cfg, s, env, Consumed, ConsumedPrecheckAudit(CommandId(cfg, env)), f);
    } else if UnsignedCeo(cfg, env) != Clear {
      ConcludeRoutes(cfg, s, env, Denied(CeoWithoutSignature), AuthDeniedAudit, f);
    } else {
      KillSwitchRoutes(cfg, s, env, cmd, f);
    }
  }

  /** The audit events of a run: the command's own, if it got that far, and those it ends on. */
  function EventsOf(cfg: Config, s: Store, env: Envelope, f: Faults): seq<AuditEvent> {
    (match ParseCommand(cfg, env.content)
     case None => []
     case Some(cmd) => FirstEvents(cfg, s, env, cmd, f, BeforeConsumption(cfg, s, env, cmd, f)))
    + LastEvents(cfg, env, FirstOf(cfg, s, env, f), f)
  }

  /** Under every pattern of failures, a run's answer, dead letters and audit events are those of its first obstacle. */
  lemma RunFollowsFirstObstacle(cfg: Config, s: Store, env: Envelope, f: Faults)
    ensures var p, o := Process(cfg, s, env, f), FirstOf(cfg, s, env, f);
      && p.result == AnswerTo(o, f.enqueue)
      && p.store.deadLetters == s.deadLetters + LettersOf(o, env, f.enqueue)
      && Journal(p.store.audit) == Journal(s.audit) + Under(env.correlationId, EventsOf(cfg, s, env, f))
  {
    match ParseCommand(cfg, env.content)
    case None => ConcludeRoutes(cfg, s, env, Denied(SchemaInvalid), SchemaInvalidAudit, f);
    case Some(cmd) => PrecheckRoutes(cfg, s, env, cmd, f);
  }
}
