/** What a task does whatever the model answers and whenever the kill-switch changes. */
module AgentLaws {
  import opened Text
  import opened Json
  import opened Domain
  import opened Agent

  // ---------- reading a trace ----------

  function Last(t: seq<Act>): Act
    requires t != []
  {
    t[|t| - 1]
  }

  function Init(t: seq<Act>): seq<Act>
    requires t != []
  {
    t[..|t| - 1]
  }

  /** The messages a trace adds to the conversation. */
  function Conversation(t: seq<Act>): seq<Message> {
    if t == [] then []
    else match Last(t)
      case Replied(_, reply) => Conversation(Init(t)) + if reply.calls == [] then [] else [Assistant(reply.text)]
      case Ran(call, e) => Conversation(Init(t)) + [Tool(call.id, Content(e.result))]
      case _ => Conversation(Init(t))
  }

  /** The calls of the latest reply that have not been answered yet. */
  function Owed(t: seq<Act>): seq<ToolCall> {
    if t == [] then []
    else match Last(t)
      case Replied(_, reply) => reply.calls
      case Ran(_, _) => var before := Owed(Init(t)); if before == [] then [] else before[1..]
      case _ => Owed(Init(t))
  }

  function Count(t: seq<Act>, kind: Act -> bool): nat {
    if t == [] then 0 else Count(Init(t), kind) + if kind(Last(t)) then 1 else 0
  }

  const IS_CHECK: Act -> bool := (a: Act) => a.Checked?
  const IS_CHAT: Act -> bool := (a: Act) => a.Replied? || a.ChatFailed?
  const IS_RUN: Act -> bool := (a: Act) => a.Ran?
  const IS_POST: Act -> bool := (a: Act) => a.Posted?

  function LatestCandidate(t: seq<Act>): Option<Command> {
    if t == [] then None
    else if Last(t).Ran? && Last(t).execution.candidate.Some? then Last(t).execution.candidate
    else LatestCandidate(Init(t))
  }

  function LatestPending(t: seq<Act>): Option<ApprovalRequest> {
    if t == [] then None
    else if Last(t).Ran? && Last(t).execution.pending.Some? then Last(t).execution.pending
    else LatestPending(Init(t))
  }

  // ---------- what each act must be preceded by ----------

  predicate JustAllowed(before: seq<Act>) { before != [] && Last(before) == Checked(false) }

  /** The protocol: what may come next after `before`. */
  predicate Justified(cfg: AgentConfig, w: Surroundings, task: Task, before: seq<Act>, act: Act) {
    match act
    case Checked(active) => Owed(before) == [] && active == w.switchOn(Count(before, IS_CHECK))
    case ChatFailed => Owed(before) == [] && JustAllowed(before) && w.chat(task.opening + Conversation(before)) == None
    case Replied(asked, reply) =>
      Owed(before) == [] && JustAllowed(before) && asked == task.opening + Conversation(before) && w.chat(asked) == Some(reply)
    case Ran(call, e) =>
      Owed(before) != [] && call == Owed(before)[0] && ExecuteOne(cfg, w, Count(before, IS_RUN), call) == Some(e)
    case Posted(outward) =>
      && Owed(before) == [] && JustAllowed(before)
      && (match outward
          case PostedApproval(request, corr) => LatestPending(before) == Some(request) && corr == task.correlationId
          case PostedCommand(command, corr) =>
            && LatestPending(before) == None && LatestCandidate(before).Some? && corr == task.correlationId
            && command == ScrubCandidate(cfg, LatestCandidate(before).value))
  }

  predicate Proper(cfg: AgentConfig, w: Surroundings, task: Task, t: seq<Act>) {
    t == [] || (Proper(cfg, w, task, Init(t)) && Justified(cfg, w, task, Init(t), Last(t)))
  }

  lemma {:induction false} ProperAt(cfg: AgentConfig, w: Surroundings, task: Task, t: seq<Act>, i: nat)
    requires Proper(cfg, w, task, t) && i < |t|
    ensures Proper(cfg, w, task, t[..i]) && Justified(cfg, w, task, t[..i], t[i])
  {
    if i < |t| - 1 {
      ProperAt(cfg, w, task, Init(t), i);
      assert Init(t)[..i] == t[..i];
    }
  }

  // ---------- the task keeps to the protocol ----------

  /** What the task's variables hold is what its trace says. */
  predicate Books(cfg: AgentConfig, w: Surroundings, task: Task, p: Progress) {
    && Proper(cfg, w, task, p.trace)
    && p.messages == task.opening + Conversation(p.trace)
    && p.checks == Count(p.trace, IS_CHECK)
    && |p.records| == Count(p.trace, IS_RUN)
    && p.candidate == LatestCandidate(p.trace)
    && p.pending == LatestPending(p.trace)
  }

  /** How far a part of a task goes: chats and posts it may add. */
  predicate Adds(p: Progress, q: Progress, chats: nat) {
    Count(q.trace, IS_CHAT) <= Count(p.trace, IS_CHAT) + chats && Count(q.trace, IS_POST) == Count(p.trace, IS_POST)
    && |p.trace| <= |q.trace|
  }

  lemma Extended(t: seq<Act>, a: Act)
    ensures Init(t + [a]) == t && Last(t + [a]) == a
  {
  }

  lemma CheckKeeps(cfg: AgentConfig, w: Surroundings, task: Task, p: Progress)
    requires Books(cfg, w, task, p) && Owed(p.trace) == []
    ensures var q := Check(w, p);
      Books(cfg, w, task, q) && Owed(q.trace) == [] && Adds(p, q, 0) && Last(q.trace) == Checked(w.switchOn(p.checks))
  {
    Extended(p.trace, Checked(w.switchOn(p.checks)));
  }

  lemma OneCallKeeps(cfg: AgentConfig, w: Surroundings, task: Task, p: Progress, call: ToolCall)
    requires Books(cfg, w, task, p) && Owed(p.trace) != [] && call == Owed(p.trace)[0]
    ensures var q := OneCall(cfg, w, p, call);
      && Books(cfg, w, task, q) && Adds(p, q, 0)
      && (q.phase == p.phase != Aborted ==> Owed(q.trace) == Owed(p.trace)[1..])
  {
    var e := ExecuteOne(cfg, w, |p.records|, call);
    if e.Some? {
      Extended(p.trace, Ran(call, e.value));
      Assoc(task.opening, Conversation(p.trace), [Tool(call.id, Content(e.value.result))]);
    }
  }

  lemma {:induction false} CallsKeep(cfg: AgentConfig, w: Surroundings, task: Task, p: Progress, calls: seq<ToolCall>, n: nat)
    requires Books(cfg, w, task, p) && p.phase.Looping? && n <= |calls| && Owed(p.trace) == calls
    ensures var q := Calls(cfg, w, p, calls[..n]);
      && Books(cfg, w, task, q) && Adds(p, q, 0)
      && (q.phase.Looping? || q.phase.Aborted?) && (q.phase.Looping? ==> Owed(q.trace) == calls[n..])
  {
    if n > 0 {
      CallsKeep(cfg, w, task, p, calls, n - 1);
      assert calls[..n][..n - 1] == calls[..n - 1];
      var q := Calls(cfg, w, p, calls[..n - 1]);
      if q.phase.Looping? {
        OneCallKeeps(cfg, w, task, q, calls[n - 1]);
      }
    }
  }

  lemma AnsweredKeeps(cfg: AgentConfig, w: Surroundings, task: Task, p: Progress, reply: ChatReply)
    requires Books(cfg, w, task, p) && p.phase.Looping? && Owed(p.trace) == [] && JustAllowed(p.trace)
    requires w.chat(p.messages) == Some(reply)
    ensures var q := Answered(cfg, w, p, reply);
      Books(cfg, w, task, q) && Adds(p, q, 1) && (!q.phase.Aborted? ==> Owed(q.trace) == [])
  {
    var q := p.(trace := p.trace + [Replied(p.messages, reply)]);
    Extended(p.trace, Replied(p.messages, reply));
    if reply.calls != [] {
      var r := q.(messages := q.messages + [Assistant(reply.text)]);
      Assoc(task.opening, Conversation(p.trace), [Assistant(reply.text)]);
      CallsKeep(cfg, w, task, r, reply.calls, |reply.calls|);
      assert reply.calls[..|reply.calls|] == reply.calls;
    }
  }

  lemma TurnKeeps(cfg: AgentConfig, w: Surroundings, task: Task, p: Progress)
    requires Books(cfg, w, task, p) && p.phase.Looping? && Owed(p.trace) == []
    ensures var q := Turn(cfg, w, p);
      Books(cfg, w, task, q) && Adds(p, q, 1) && (!q.phase.Aborted? ==> Owed(q.trace) == [])
  {
    CheckKeeps(cfg, w, task, p);
    var q := Check(w, p);
    if !w.switchOn(p.checks) {
      match w.chat(q.messages)
      case None => Extended(q.trace, ChatFailed);
      case Some(reply) => AnsweredKeeps(cfg, w, task, q, reply);
    }
  }

  lemma {:induction false} TurnsKeep(cfg: AgentConfig, w: Surroundings, task: Task, p: Progress, n: nat)
    requires Books(cfg, w, task, p) && p.phase.Looping? && Owed(p.trace) == []
    ensures var q := Turns(cfg, w, p, n);
      Books(cfg, w, task, q) && Adds(p, q, n) && (!q.phase.Aborted? ==> Owed(q.trace) == [])
  {
    if n > 0 {
      TurnsKeep(cfg, w, task, p, n - 1);
      var q := Turns(cfg, w, p, n - 1);
      if q.phase.Looping? {
        TurnKeeps(cfg, w, task, q);
      }
    }
  }

  lemma ClosingKeeps(cfg: AgentConfig, w: Surroundings, task: Task, p: Progress)
    requires Books(cfg, w, task, p) && Owed(p.trace) == []
    ensures var q := Closing(cfg, w, p, task.correlationId);
      && Proper(cfg, w, task, q.trace) && Owed(q.trace) == [] && q.phase == p.phase
      && Count(q.trace, IS_CHAT) == Count(p.trace, IS_CHAT) && Count(q.trace, IS_POST) <= Count(p.trace, IS_POST) + 1
      && (q.trace == p.trace || (q.trace != [] && Count(Init(q.trace), IS_POST) == Count(p.trace, IS_POST)))
  {
    var choice := Choice(cfg, p, task.correlationId);
    if choice.Some? {
      CheckKeeps(cfg, w, task, p);
      Extended(p.trace, Checked(w.switchOn(p.checks)));
      Extended(Check(w, p).trace, Posted(choice.value));
    }
  }

  /**
    Whatever the model answers and whenever the switch changes: every act of a task is one the protocol justifies,
    every tool call of every reply gets its own answer in order unless the task aborts, and a task makes at most
    six chats and one outward call.
   */
  lemma TaskIsProper(cfg: AgentConfig, w: Surroundings, task: Task)
    ensures var p := TaskRun(cfg, w, task);
      && Proper(cfg, w, task, p.trace)
      && (!p.phase.Aborted? ==> Owed(p.trace) == [])
      && Count(p.trace, IS_CHAT) <= MAX_ITERATIONS
      && Count(p.trace, IS_POST) <= 1
      && p.trace != [] && Count(Init(p.trace), IS_POST) == 0
  {
    var p := Opened(task);
    assert task.opening + Conversation(p.trace) == task.opening;
    CheckKeeps(cfg, w, task, p);
    if !w.switchOn(0) {
      var q := Turns(cfg, w, Check(w, p), MAX_ITERATIONS);
      TurnsKeep(cfg, w, task, Check(w, p), MAX_ITERATIONS);
      if !q.phase.Aborted? {
        ClosingKeeps(cfg, w, task, q);
      }
    }
  }

  // ---------- what that means ----------

  lemma {:induction false} Counted(t: seq<Act>, kind: Act -> bool, i: nat)
    requires i < |t| && kind(t[i])
    ensures Count(t, kind) > 0
  {
    if i < |t| - 1 {
      Counted(Init(t), kind, i);
    }
  }

  /** While a reply's calls are owed, the next act answers the next of them. */
  lemma OwedNext(cfg: AgentConfig, w: Surroundings, task: Task, t: seq<Act>, n: nat, calls: seq<ToolCall>)
    requires Proper(cfg, w, task, t) && Owed(t) == [] && n <= |t| && Owed(t[..n]) == calls != []
    ensures n < |t| && t[n].Ran? && t[n].call == calls[0] && Owed(t[..n + 1]) == calls[1..]
  {
    var read := t[..n];
    assert |read| == |t| ==> read == t;
    ProperAt(cfg, w, task, t, n);
    Extended(read, t[n]);
    assert read + [t[n]] == t[..n + 1];
  }

  /** Reply i of a proper trace is followed by the answers to its own calls, in order. */
  lemma {:induction false} AnswersFollow(cfg: AgentConfig, w: Surroundings, task: Task, t: seq<Act>, i: nat, j: nat)
    requires Proper(cfg, w, task, t) && Owed(t) == [] && i < |t| && t[i].Replied? && j < |t[i].reply.calls|
    ensures i + 1 + j < |t| && t[i + 1 + j].Ran? && t[i + 1 + j].call == t[i].reply.calls[j]
    ensures Owed(t[..i + 2 + j]) == t[i].reply.calls[j + 1..]
  {
    if j == 0 {
      Extended(t[..i], t[i]);
      assert t[..i] + [t[i]] == t[..i + 1];
    } else {
      AnswersFollow(cfg, w, task, t, i, j - 1);
    }
    OwedNext(cfg, w, task, t, i + 1 + j, t[i].reply.calls[j..]);
  }

  /** A command an agent may post: one claim, within the escalation threshold on the cent grid, in its own name. */
  predicate Capped(cfg: AgentConfig, c: Command) {
    && c.SettlementApprove? && 0 < |c.claimId| <= 64 && c.approvedBy == cfg.npub
    && 0.0 <= c.maxAmount && Cents(c.maxAmount) <= Cents(cfg.escalation) && c.maxAmount == Eur(Cents(c.maxAmount))
  }

  /** An execution settles only up to the threshold and escalates only above it, never both. */
  predicate Guarded(cfg: AgentConfig, e: Execution) {
    && (e.candidate.Some? ==> e.pending.None? && Capped(cfg, e.candidate.value))
    && (e.pending.Some? ==> e.pending.value.amount > cfg.escalation && e.pending.value.requestedBy == cfg.npub)
  }

  /** What an execution can be: denied unless registered and listed, and a settlement only up to the threshold. */
  lemma ExecutionIsGuarded(cfg: AgentConfig, w: Surroundings, n: nat, call: ToolCall, e: Execution)
    requires ExecuteOne(cfg, w, n, call) == Some(e)
    ensures e.ok || e.candidate.Some? || e.pending.Some? ==> call.name in TOOLS && call.name in cfg.allowed
    ensures e.candidate.Some? || e.pending.Some? ==> call.name == RECOMMEND
    ensures Guarded(cfg, e)
  {
    if call.name == RECOMMEND && call.name in TOOLS && call.name in cfg.allowed {
      var args := cfg.clean(call.arguments).value;
      RecommendIsCapped(cfg, args, w.now(n));
    }
  }

  lemma RecommendIsCapped(cfg: AgentConfig, args: Json, now: Str)
    ensures Guarded(cfg, Recommend(cfg, args, now))
  {
    RecommendFromIsCapped(cfg, RequiredString(args, Of("claim_id"), 64), OptionalNumber(cfg, args, Of("montant")),
                          RequiredString(args, Of("raison"), 500), now);
  }

  lemma RecommendFromIsCapped(cfg: AgentConfig, claimId: Option<Str>, amount: Option<real>, reason: Option<Str>, now: Str)
    ensures Guarded(cfg, RecommendFrom(cfg, claimId, amount, reason, now))
  {
    if claimId.Some? && reason.Some? && amount.Some? && amount.value > 0.0 {
      RecommendationIsCapped(cfg, claimId.value, amount.value, reason.value, now);
    }
  }

  lemma RecommendationIsCapped(cfg: AgentConfig, claimId: Id, amount: real, reason: Str, now: Str)
    requires amount > 0.0
    ensures Guarded(cfg, Recommendation(cfg, claimId, amount, reason, now))
  {
    if amount <= cfg.escalation {
      CentsMonotone(amount, cfg.escalation);
      CentsOfEur(Cents(amount));
    }
  }

  /** A recommendation becomes exactly one of: an escalation of the amount as given, a command for it to the nearest cent, a refusal. */
  lemma RecommendationMeans(cfg: AgentConfig, claimId: Id, amount: real, reason: Str, now: Str)
    requires amount > 0.0 && 0 < |claimId| <= 64 && 0 < |reason| <= 500
    ensures var e := Recommendation(cfg, claimId, amount, reason, now);
      && (e.pending.Some? <==> amount > cfg.escalation)
      && (e.pending.Some? ==> e.pending == Some(ApprovalRequest(claimId, amount, reason, cfg.npub)))
      && (e.candidate.Some? <==> amount <= cfg.escalation && Eur((amount * 100.0 + 0.5).Floor) <= MAX_AMOUNT)
      && (e.candidate.Some? ==>
            && e.candidate == Some(SettlementApprove(claimId, e.candidate.value.maxAmount, reason, cfg.npub, now))
            && Abs(e.candidate.value.maxAmount - amount) <= 0.005)
      && (e.ok <==> e.pending.Some? || e.candidate.Some?)
  {
  }

  lemma {:induction false} CandidateComesFrom(cfg: AgentConfig, w: Surroundings, task: Task, t: seq<Act>)
    requires Proper(cfg, w, task, t)
    ensures LatestCandidate(t).Some? ==> Capped(cfg, LatestCandidate(t).value)
    ensures LatestPending(t) == None <==> forall i :: 0 <= i < |t| && t[i].Ran? ==> t[i].execution.pending == None
    ensures LatestPending(t).Some? ==> LatestPending(t).value.amount > cfg.escalation && LatestPending(t).value.requestedBy == cfg.npub
  {
    if t != [] {
      CandidateComesFrom(cfg, w, task, Init(t));
      if Last(t).Ran? {
        ExecutionIsGuarded(cfg, w, Count(Init(t), IS_RUN), Last(t).call, Last(t).execution);
      }
      assert forall i :: 0 <= i < |t| - 1 ==> t[i] == Init(t)[i];
    }
  }

  /** Every answer marked ok names a tool that is registered and allowed. */
  lemma OkAnswersAreAllowed(cfg: AgentConfig, w: Surroundings, task: Task, i: nat)
    requires var t := TaskRun(cfg, w, task).trace; i < |t| && t[i].Ran? && t[i].execution.ok
    ensures var call := TaskRun(cfg, w, task).trace[i].call; call.name in TOOLS && call.name in cfg.allowed
  {
    var t := TaskRun(cfg, w, task).trace;
    TaskIsProper(cfg, w, task);
    ProperAt(cfg, w, task, t, i);
    ExecutionIsGuarded(cfg, w, Count(t[..i], IS_RUN), t[i].call, t[i].execution);
  }

  lemma PostIsLast(cfg: AgentConfig, w: Surroundings, task: Task, i: nat)
    requires var t := TaskRun(cfg, w, task).trace; i < |t| && t[i].Posted?
    ensures var t := TaskRun(cfg, w, task).trace;
      i == |t| - 1 && Proper(cfg, w, task, t)
  {
    var t := TaskRun(cfg, w, task).trace;
    TaskIsProper(cfg, w, task);
    if i < |t| - 1 {
      Counted(Init(t), IS_POST, i);
    }
  }

  /**
    An outward call directly follows a kill-switch check that said no; a posted command is capped, and posted only
    if no call of the task escalated; a posted approval asks for more than the threshold.
   */
  ghost predicate PostGuarded(cfg: AgentConfig, w: Surroundings, task: Task, t: seq<Act>, i: nat)
    requires i < |t| && t[i].Posted?
  {
    && i > 0 && t[i - 1] == Checked(false) && !w.switchOn(Count(t[..i - 1], IS_CHECK))
    && (match t[i].outward
        case PostedCommand(command, corr) =>
          && corr == task.correlationId && Capped(cfg, command)
          && forall j :: 0 <= j < |t| && t[j].Ran? ==> t[j].execution.pending == None
        case PostedApproval(request, corr) =>
          corr == task.correlationId && request.amount > cfg.escalation && request.requestedBy == cfg.npub)
  }

  lemma LastPostIsGuarded(cfg: AgentConfig, w: Surroundings, task: Task, t: seq<Act>, i: nat)
    requires Proper(cfg, w, task, t) && i == |t| - 1 && t[i].Posted?
    ensures PostGuarded(cfg, w, task, t, i)
  {
    var before := Init(t);
    CandidateComesFrom(cfg, w, task, before);
    ProperAt(cfg, w, task, t, i - 1);
    assert Last(before) == t[i - 1];
    assert forall j :: 0 <= j < i ==> t[j] == before[j];
  }

  /** The outward call of a task is its last act, and guarded. */
  lemma OutwardCallsAreGuarded(cfg: AgentConfig, w: Surroundings, task: Task, i: nat)
    requires var t := TaskRun(cfg, w, task).trace; i < |t| && t[i].Posted?
    ensures var t := TaskRun(cfg, w, task).trace; i == |t| - 1 && PostGuarded(cfg, w, task, t, i)
  {
    PostIsLast(cfg, w, task, i);
    LastPostIsGuarded(cfg, w, task, TaskRun(cfg, w, task).trace, i);
  }
}
