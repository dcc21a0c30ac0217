/**
  The Hermes agent: one task is a bounded conversation with a language model that may call tools, followed by at
  most one call to the bridge. The model, the kill-switch, the read-only tools and the PII scrub are arbitrary.
 */
module Agent {
  import opened Text
  import opened Json
  import opened Domain

  const MAX_ITERATIONS := 6

  // ---------- settings and oracles ----------

  datatype AgentConfig = AgentConfig(
    npub: Id,
    escalation: real,
    allowed: set<Str>,
    number: Json -> Option<real>,   // Number(v), when it is finite
    numeral: real -> Str,           // the text of a number
    clean: Json -> Option<Json>,    // scrubbed arguments, unless the scrubbed text no longer parses
    scrub: Str -> Str)

  /** What surrounds a task. Kill-switch checks and tool executions are numbered from the start of the task. */
  datatype Surroundings = Surroundings(
    switchOn: nat -> bool,
    chat: seq<Message> -> Option<ChatReply>,
    tool: (nat, Str, Json) -> Execution,
    now: nat -> Str)

  datatype Message = System(content: Str) | User(content: Str) | Assistant(content: Str) | Tool(callId: Str, content: Str)

  datatype ToolCall = ToolCall(id: Str, name: Str, arguments: Json)

  datatype ChatReply = ChatReply(calls: seq<ToolCall>, text: Str)

  datatype ApprovalRequest = ApprovalRequest(claimId: Id, amount: real, reason: Str, requestedBy: Id)

  datatype Execution = Execution(ok: bool, result: Json, candidate: Option<Command>, pending: Option<ApprovalRequest>)

  datatype Record = Record(name: Str, ok: bool, result: Json)

  datatype Outward = PostedCommand(command: Command, correlationId: Id) | PostedApproval(request: ApprovalRequest, correlationId: Id)

  /** What a task does, in order. */
  datatype Act =
    | Checked(active: bool)
    | ChatFailed
    | Replied(asked: seq<Message>, reply: ChatReply)
    | Ran(call: ToolCall, execution: Execution)
    | Posted(outward: Outward)

  // ---------- the tools ----------

  const RECOMMEND: Str := Of("recommander_reglement")

  /** The registry. */
  const TOOLS: set<Str> := {
    Of("lire_sinistre"), Of("lire_client"), Of("lire_contrat"), Of("calculer_prime"), Of("evaluer_risque"),
    Of("qualifier_lead"), RECOMMEND, Of("requeter_pnl"), Of("consulter_memoire")}

  function ErrorResult(message: Str): Json { Obj([Entry(Of("error"), Text(message))]) }

  function ToolFailure(message: Str): Execution { Execution(false, ErrorResult(message), None, None) }

  function Field(args: Json, key: Str): Option<Json> {
    if args.Obj? then Lookup(args.entries, key) else None
  }

  /** reqString: a string that is not blank, trimmed and cut. */
  function RequiredString(args: Json, key: Str, max: nat): (r: Option<Str>)
    requires max > 0
    ensures r.Some? ==> 0 < |r.value| <= max
  {
    var v := Field(args, key);
    if v.None? || !v.value.Text? || Trim(v.value.s) == [] then None else Some(Prefix(Trim(v.value.s), max))
  }

  function OptionalNumber(cfg: AgentConfig, args: Json, key: Str): Option<real> {
    var v := Field(args, key);
    if v.None? then None else cfg.number(v.value)
  }

  /** buildSettlementCommand: the amount rounded to the cent, None when the minimal checks fail. */
  function BuildSettlement(claimId: Id, amount: real, reason: Str, approvedBy: Id, now: Str): Option<Command> {
    var rounded := Eur((amount * 100.0 + 0.5).Floor);
    if |Prefix(claimId, 64)| == 0 || |Prefix(reason, 500)| == 0 || amount <= 0.0 || rounded > MAX_AMOUNT then None
    else Some(SettlementApprove(Prefix(claimId, 64), rounded, Prefix(reason, 500), approvedBy, now))
  }

  function RecommendationResult(cfg: AgentConfig, kind: Str, claimId: Id, amount: real, escalates: bool): Json {
    Obj([Entry(Of("recommandation"), Text(kind)), Entry(Of("claim_id"), Text(claimId)),
         Entry(Of("montant_eur"), Num(cfg.numeral(amount))), Entry(Of("escalation_ceo"), Bool(escalates)),
         Entry(Of("seuil_eur"), Num(cfg.numeral(cfg.escalation)))])
  }

  function MissingArgument(key: Str): Execution {
    ToolFailure(Of("argument '") + key + Of("' missing or invalid"))
  }

  /** A candidate command up to the threshold, a request for approval above it. */
  function Recommendation(cfg: AgentConfig, claimId: Str, amount: real, reason: Str, now: Str): Execution {
    if amount > cfg.escalation then
      Execution(true, RecommendationResult(cfg, Of("approbations.create"), claimId, amount, true), None,
                Some(ApprovalRequest(claimId, amount, reason, cfg.npub)))
    else
      var command := BuildSettlement(claimId, amount, reason, cfg.npub, now);
      if command.None? then ToolFailure(Of("invalid claim.settlement.approve command"))
      else Execution(true, RecommendationResult(cfg, Of("claim.settlement.approve"), claimId, amount, false), command, None)
  }

  function RecommendFrom(cfg: AgentConfig, claimId: Option<Str>, amount: Option<real>, reason: Option<Str>, now: Str): Execution {
    if claimId.None? then MissingArgument(Of("claim_id"))
    else if reason.None? then MissingArgument(Of("raison"))
    else if amount.None? || amount.value <= 0.0 then ToolFailure(Of("'montant' must be a strictly positive number"))
    else Recommendation(cfg, claimId.value, amount.value, reason.value, now)
  }

  /** recommander_reglement. */
  function Recommend(cfg: AgentConfig, args: Json, now: Str): Execution {
    RecommendFrom(cfg, RequiredString(args, Of("claim_id"), 64), OptionalNumber(cfg, args, Of("montant")),
                  RequiredString(args, Of("raison"), 500), now)
  }

  /** The registry's dispatch: no tool but recommander_reglement produces a command or an approval request. */
  function Dispatch(cfg: AgentConfig, w: Surroundings, n: nat, name: Str, args: Json): Execution {
    if name == RECOMMEND then Recommend(cfg, args, w.now(n)) else w.tool(n, name, args).(candidate := None, pending := None)
  }

  /** executeOne: deny by default; None when the scrubbed arguments no longer parse, which aborts the task. */
  function ExecuteOne(cfg: AgentConfig, w: Surroundings, n: nat, call: ToolCall): Option<Execution> {
    if call.name !in TOOLS then Some(ToolFailure(Of("unknown tool")))
    else if call.name !in cfg.allowed then Some(ToolFailure(Of("tool not allowed: ") + call.name))
    else
      var args := cfg.clean(call.arguments);
      if args.None? then None else Some(Dispatch(cfg, w, n, call.name, args.value))
  }

  /** What the conversation gets to see of a result. */
  function Content(result: Json): Str { Prefix(Stringify(result), 4000) }

  function ScrubCandidate(cfg: AgentConfig, c: Command): Command {
    match c
    case SettlementApprove(claimId, amount, reason, approvedBy, at) => SettlementApprove(claimId, amount, cfg.scrub(reason), approvedBy, at)
    case _ => c
  }

  // ---------- a task, as a function of its surroundings ----------

  datatype Phase = Looping | Broke | Stopped | Aborted

  datatype Progress = Progress(
    phase: Phase,
    checks: nat,
    messages: seq<Message>,
    records: seq<Record>,
    candidate: Option<Command>,
    pending: Option<ApprovalRequest>,
    fallback: Str,
    trace: seq<Act>)

  function Check(w: Surroundings, p: Progress): Progress {
    p.(checks := p.checks + 1, trace := p.trace + [Checked(w.switchOn(p.checks))])
  }

  function OneCall(cfg: AgentConfig, w: Surroundings, p: Progress, call: ToolCall): Progress {
    match ExecuteOne(cfg, w, |p.records|, call)
    case None => p.(phase := Aborted)
    case Some(e) =>
      p.(messages := p.messages + [Tool(call.id, Content(e.result))],
         records := p.records + [Record(call.name, e.ok, e.result)],
         candidate := if e.candidate.Some? then e.candidate else p.candidate,
         pending := if e.pending.Some? then e.pending else p.pending,
         trace := p.trace + [Ran(call, e)])
  }

  function Calls(cfg: AgentConfig, w: Surroundings, p: Progress, calls: seq<ToolCall>): Progress {
    if calls == [] then p
    else
      var q := Calls(cfg, w, p, calls[..|calls| - 1]);
      if q.phase.Aborted? then q else OneCall(cfg, w, q, calls[|calls| - 1])
  }

  predicate MadeProgress(records: seq<Record>, from: nat) { exists i :: from <= i < |records| && records[i].ok }

  /** The answer of the model, and what the turn does about it. */
  function Answered(cfg: AgentConfig, w: Surroundings, p: Progress, reply: ChatReply): Progress {
    var q := p.(trace := p.trace + [Replied(p.messages, reply)]);
    if reply.calls == [] then q.(fallback := reply.text, phase := Broke)
    else
      var r := Calls(cfg, w, q.(messages := q.messages + [Assistant(reply.text)]), reply.calls);
      if r.phase.Aborted? then r
      else if r.candidate.Some? || r.pending.Some? || !MadeProgress(r.records, |p.records|) then r.(phase := Broke)
      else r
  }

  function Turn(cfg: AgentConfig, w: Surroundings, p: Progress): Progress {
    var q := Check(w, p);
    if w.switchOn(p.checks) then q.(phase := Stopped)
    else match w.chat(q.messages)
      case None => q.(trace := q.trace + [ChatFailed], phase := Broke)
      case Some(reply) => Answered(cfg, w, q, reply)
  }

  function Turns(cfg: AgentConfig, w: Surroundings, p: Progress, n: nat): Progress {
    if n == 0 then p
    else
      var q := Turns(cfg, w, p, n - 1);
      if q.phase.Looping? then Turn(cfg, w, q) else q
  }

  /** Which outward call the conversation calls for: an escalation wins over a command. */
  function Choice(cfg: AgentConfig, p: Progress, correlationId: Id): Option<Outward> {
    if p.pending.Some? then Some(PostedApproval(p.pending.value, correlationId))
    else if p.candidate.Some? then Some(PostedCommand(ScrubCandidate(cfg, p.candidate.value), correlationId))
    else None
  }

  function Closing(cfg: AgentConfig, w: Surroundings, p: Progress, correlationId: Id): Progress {
    var choice := Choice(cfg, p, correlationId);
    if choice.None? then p
    else
      var q := Check(w, p);
      if w.switchOn(p.checks) then q else q.(trace := q.trace + [Posted(choice.value)])
  }

  datatype Task = Task(correlationId: Id, opening: seq<Message>)

  datatype TaskResult = TaskResult(phase: Phase, records: seq<Record>, fallback: Str)

  function Opened(task: Task): Progress {
    Progress(Looping, 0, task.opening, [], None, None, [], [])
  }

  function TaskRun(cfg: AgentConfig, w: Surroundings, task: Task): Progress {
    var p := Check(w, Opened(task));
    if w.switchOn(0) then p.(phase := Stopped)
    else
      var q := Turns(cfg, w, p, MAX_ITERATIONS);
      if q.phase.Stopped? || q.phase.Aborted? then q else Closing(cfg, w, q, task.correlationId)
  }

  /** Once a turn has ended the loop, nothing more happens in it. */
  lemma {:induction false} TurnsStay(cfg: AgentConfig, w: Surroundings, p: Progress, n: nat, m: nat)
    requires n <= m && !Turns(cfg, w, p, n).phase.Looping?
    ensures Turns(cfg, w, p, m) == Turns(cfg, w, p, n)
    decreases m
  {
    if n < m {
      TurnsStay(cfg, w, p, n, m - 1);
    }
  }

  // ---------- the loops ----------

  /** executeOne for each call of a reply, in order. */
  method ExecuteCalls(cfg: AgentConfig, w: Surroundings, calls: seq<ToolCall>, p: Progress) returns (q: Progress, madeProgress: bool)
    requires !p.phase.Aborted?
    ensures q == Calls(cfg, w, p, calls)
    ensures !q.phase.Aborted? ==> madeProgress == MadeProgress(q.records, |p.records|)
  {
    var messages, records, candidate, pending, trace := p.messages, p.records, p.candidate, p.pending, p.trace;
    madeProgress := false;
    for i := 0 to |calls|
      invariant p.(messages := messages, records := records, candidate := candidate, pending := pending, trace := trace)
             == Calls(cfg, w, p, calls[..i])
      invariant |p.records| <= |records|
      invariant madeProgress == MadeProgress(records, |p.records|)
    {
      var call := calls[i];
      assert calls[..i + 1][..i] == calls[..i];
      var execution := ExecuteOne(cfg, w, |records|, call);
      if execution.None? {
        CallsAbort(cfg, w, p, calls, i + 1);
        q := p.(messages := messages, records := records, candidate := candidate, pending := pending, trace := trace, phase := Aborted);
        return;
      }
      var e := execution.value;
      ghost var before := records;
      records := records + [Record(call.name, e.ok, e.result)];
      if e.candidate.Some? {
        candidate := e.candidate;
      }
      if e.pending.Some? {
        pending := e.pending;
      }
      madeProgress := madeProgress || e.ok;
      ProgressGrows(before, Record(call.name, e.ok, e.result), |p.records|);
      messages := messages + [Tool(call.id, Content(e.result))];
      trace := trace + [Ran(call, e)];
    }
    assert calls[..|calls|] == calls;
    q := p.(messages := messages, records := records, candidate := candidate, pending := pending, trace := trace);
  }

  lemma {:induction false} CallsAbort(cfg: AgentConfig, w: Surroundings, p: Progress, calls: seq<ToolCall>, n: nat)
    requires n <= |calls| && Calls(cfg, w, p, calls[..n]).phase.Aborted?
    ensures Calls(cfg, w, p, calls) == Calls(cfg, w, p, calls[..n])
  {
    if n < |calls| {
      assert calls[..|calls| - 1][..n] == calls[..n];
      CallsAbort(cfg, w, p, calls[..|calls| - 1], n);
    } else {
      assert calls[..n] == calls;
    }
  }

  lemma ProgressGrows(records: seq<Record>, r: Record, from: nat)
    requires from <= |records|
    ensures MadeProgress(records + [r], from) <==> MadeProgress(records, from) || r.ok
  {
    var all := records + [r];
    if r.ok {
      assert all[|records|].ok;
    }
    if MadeProgress(records, from) {
      var i :| from <= i < |records| && records[i].ok;
      assert all[i].ok;
    }
  }

  method RunTask(cfg: AgentConfig, w: Surroundings, task: Task) returns (r: TaskResult, trace: seq<Act>)
    ensures var p := TaskRun(cfg, w, task);
      trace == p.trace && r == TaskResult(p.phase, p.records, p.fallback)
  {
    // A task that finds the switch on does nothing at all.
    var stop := w.switchOn(0);
    var p := Progress(Looping, 1, task.opening, [], None, None, [], [] + [Checked(stop)]);
    assert p == Check(w, Opened(task));
    if stop {
      r, trace := TaskResult(Stopped, [], []), p.trace;
      return;
    }
    ghost var start := p;
    var iteration := 0;
    while iteration < MAX_ITERATIONS && p.phase.Looping?
      invariant iteration <= MAX_ITERATIONS && p == Turns(cfg, w, start, iteration)
    {
      p := TakeTurn(cfg, w, p);
      iteration := iteration + 1;
    }
    if iteration < MAX_ITERATIONS {
      TurnsStay(cfg, w, start, iteration, MAX_ITERATIONS);
    }
    assert p == Turns(cfg, w, start, MAX_ITERATIONS);
    if !p.phase.Stopped? && !p.phase.Aborted? {
      p := PostToBridge(cfg, w, p, task.correlationId);
    }
    r, trace := TaskResult(p.phase, p.records, p.fallback), p.trace;
  }

  /** Command or escalation, after one more look at the kill-switch. */
  method PostToBridge(cfg: AgentConfig, w: Surroundings, p: Progress, correlationId: Id) returns (q: Progress)
    ensures q == Closing(cfg, w, p, correlationId)
  {
    q := p;
    if p.pending.Some? {
      q := q.(checks := q.checks + 1, trace := q.trace + [Checked(w.switchOn(q.checks))]);
      if !w.switchOn(p.checks) {
        q := q.(trace := q.trace + [Posted(PostedApproval(p.pending.value, correlationId))]);
      }
    } else if p.candidate.Some? {
      q := q.(checks := q.checks + 1, trace := q.trace + [Checked(w.switchOn(q.checks))]);
      if !w.switchOn(p.checks) {
        q := q.(trace := q.trace + [Posted(PostedCommand(ScrubCandidate(cfg, p.candidate.value), correlationId))]);
      }
    }
  }

  /** One iteration: look at the kill-switch, ask the model, do what it says. */
  method TakeTurn(cfg: AgentConfig, w: Surroundings, p: Progress) returns (q: Progress)
    requires p.phase.Looping?
    ensures q == Turn(cfg, w, p)
  {
    var stop := w.switchOn(p.checks);
    q := p.(checks := p.checks + 1, trace := p.trace + [Checked(stop)]);
    if stop {
      q := q.(phase := Stopped);
      return;
    }
    var response := w.chat(q.messages);
    if response.None? {
      q := q.(trace := q.trace + [ChatFailed], phase := Broke);
    } else {
      q := Converse(cfg, w, q, response.value);
    }
  }

  /** The part of a turn after the model has replied. */
  method Converse(cfg: AgentConfig, w: Surroundings, p: Progress, reply: ChatReply) returns (q: Progress)
    requires !p.phase.Aborted?
    ensures q == Answered(cfg, w, p, reply)
  {
    q := p.(trace := p.trace + [Replied(p.messages, reply)]);
    if |reply.calls| == 0 {
      q := q.(fallback := reply.text, phase := Broke);
      return;
    }
    q := q.(messages := q.messages + [Assistant(reply.text)]);
    var madeProgress;
    q, madeProgress := ExecuteCalls(cfg, w, reply.calls, q);
    if !q.phase.Aborted? && (q.candidate.Some? || q.pending.Some? || !madeProgress) {
      q := q.(phase := Broke);
    }
  }
}
