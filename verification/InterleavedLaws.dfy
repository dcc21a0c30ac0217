/** Any number of requests in flight, interleaved call by call, with any failures: what always holds. */
module InterleavedLaws {
  import opened Text
  import opened Json
  import opened Domain
  import opened Repository
  import opened Pipeline
  import opened PipelineLaws
  import opened Server
  import opened ApprovalLaws
  import opened Interleaved
  import Policy

  /** A request in flight: about to issue its route's own statement, or inside the pipeline. */
  datatype Task =
    | Requesting(correlationId: Id, approval: Approval)
    | Deciding(correlationId: Id, ceo: Id, reason: Str, approve: bool, now: Str)
    | Switching(active: bool, ceo: Id, reason: Str, now: Str, correlationId: Id)
    | Running(env: Envelope, pc: Pc)
    | Closed

  /** What is worth remembering of a call that took effect. */
  datatype Event =
    | SwitchPassed(task: nat, env: Envelope)
    | ClaimRead(task: nat, env: Envelope)
    | Consumption(task: nat, env: Envelope)
    | CommandAudited(task: nat, env: Envelope)
    | Commit(task: nat, env: Envelope)
    | Launch(task: nat, correlationId: Id)
    | SwitchSet(task: nat, active: bool, ceo: Id)

  datatype World = World(store: Store, tasks: seq<Task>, history: seq<Event>)

  /** A new request, or one more call of a request in flight. */
  datatype Move = Arrive(req: Request) | Advance(task: nat, fault: Fault)

  /** The checks a route makes before its first call. */
  function Admitted(cfg: Config, req: Request): Task {
    match req
    case PostCommand(command, author, event, corr) =>
      var validated := cfg.validate(command);
      var env := CommandEnvelope(cfg, command, author, event, corr);
      if validated.None? || env.None? then Closed
      else if cfg.requireSigned && !env.value.signed && Policy.RequiresCeo(validated.value.Type()) then Closed
      else Running(env.value, Start(cfg, env.value))
    case PostApproval(claimId, amount, reason, requester, corr) =>
      if amount <= 0.0 || (!IsCeo(cfg, requester) && !IsAgent(cfg, requester)) then Closed
      else Requesting(corr, RequestedApproval(cfg, claimId, amount, reason, requester))
    case PostDecision(corr, decidedBy, event, reason, approve, now) =>
      var decider := Decider(cfg, decidedBy, event);
      if decider.None? || decider.value !in cfg.ceoKeys then Closed else Deciding(corr, decider.value, reason, approve, now)
    case PostKillSwitch(active, decidedBy, reason, now, corr) =>
      var ceo := cfg.normalize(decidedBy);
      if ceo !in cfg.ceoKeys then Closed else Switching(active, ceo, reason, now, corr)
  }

  /** One call of one task: the store and the task after it, and the events it leaves. */
  function Call(cfg: Config, s: Store, k: nat, task: Task, f: Fault): (Store, Task, seq<Event>) {
    match task
    case Closed => (s, Closed, [])
    case Requesting(corr, a) => (f.After(s, WithApproval(s, corr, a)), Closed, [])
    case Deciding(corr, ceo, reason, approve, now) =>
      var t := f.After(s, WithDecision(s, corr, ceo, reason, approve));
      if f.Fine? && Pending(s, corr) && Launches(t.approvals[corr], approve) then
        var env := LaunchEnvelope(cfg, t.approvals[corr], corr, reason, ceo, now);
        (t, Running(env, Start(cfg, env)), [Launch(k, corr)])
      else (t, Closed, [])
    case Switching(active, ceo, reason, now, corr) =>
      var env := KillSwitchEnvelope(cfg, active, ceo, reason, now, corr);
      (f.After(s, WithKillSwitch(s, active, ceo)),
       if f.Fine? then Running(env, Start(cfg, env)) else Closed,
       if f.Refused? then [] else [SwitchSet(k, active, ceo)])
    case Running(env, pc) =>
      if pc.Finished? then (s, Closed, [])
      else
        var (t, next) := Advanced(cfg, s, env, pc, f);
        (t, Running(env, next), Happened(cfg, s, k, env, pc, f))
  }

  function Happened(cfg: Config, s: Store, k: nat, env: Envelope, pc: Pc, f: Fault): seq<Event> {
    match pc
    case ReadKillSwitch(cmd) => if f.Fine? && (!s.Locked() || cmd.KillSwitchDeactivate?) then [SwitchPassed(k, env)] else []
    case ReadClaim(_, _) => if f.Fine? then [ClaimRead(k, env)] else []
    case Consume(_) => if f.Fine? && CommandId(cfg, env) !in s.consumed then [Consumption(k, env)] else []
    case AuditCommand(_) => if f.Refused? then [] else [CommandAudited(k, env)]
    case Effect(_) => if f.Refused? then [] else [Commit(k, env)]
    case _ => []
  }

  function Moved(cfg: Config, w: World, m: Move): World {
    match m
    case Arrive(req) => w.(tasks := w.tasks + [Admitted(cfg, req)])
    case Advance(k, f) =>
      if k >= |w.tasks| then w
      else
        var (t, task, events) := Call(cfg, w.store, k, w.tasks[k], f);
        World(t, w.tasks[k := task], w.history + events)
  }

  /** The world after any moves, from store s with nothing in flight. */
  function Play(cfg: Config, s: Store, moves: seq<Move>): World {
    if moves == [] then World(s, [], [])
    else Moved(cfg, Play(cfg, s, moves[..|moves| - 1]), moves[|moves| - 1])
  }

  // ---------- what holds of a history ----------

  ghost predicate ConsumedBefore(h: seq<Event>, n: nat, k: nat, env: Envelope)
    requires n <= |h|
  {
    exists c :: 0 <= c < n && h[c] == Consumption(k, env)
  }

  ghost predicate AuditedBefore(h: seq<Event>, n: nat, k: nat, env: Envelope)
    requires n <= |h|
  {
    exists a :: 0 <= a < n && h[a] == CommandAudited(k, env) && ConsumedBefore(h, a, k, env)
  }

  /** Roles that can have an effect: a signed CEO, or an agent that settles without a signature. */
  ghost predicate MayAct(cfg: Config, env: Envelope) {
    && ParseCommand(cfg, env.content).Some?
    && ((env.signed && IsCeo(cfg, env.author))
        || (!env.signed && IsAgent(cfg, env.author) && !IsCeo(cfg, env.author)
            && ParseCommand(cfg, env.content).value.SettlementApprove?))
  }

  ghost predicate OneConsumptionPerId(cfg: Config, h: seq<Event>) {
    forall i, j :: 0 <= i < j < |h| && h[i].Consumption? && h[j].Consumption? ==> CommandId(cfg, h[i].env) != CommandId(cfg, h[j].env)
  }

  ghost predicate OneCommitPerId(cfg: Config, h: seq<Event>) {
    forall i, j :: 0 <= i < j < |h| && h[i].Commit? && h[j].Commit? ==> CommandId(cfg, h[i].env) != CommandId(cfg, h[j].env)
  }

  ghost predicate CommitsArePrepared(cfg: Config, h: seq<Event>) {
    forall i :: 0 <= i < |h| && h[i].Commit? ==> AuditedBefore(h, i, h[i].task, h[i].env) && MayAct(cfg, h[i].env)
  }

  ghost predicate OneLaunchPerApproval(h: seq<Event>) {
    forall i, j :: 0 <= i < j < |h| && h[i].Launch? && h[j].Launch? ==> h[i].correlationId != h[j].correlationId
  }

  /** Claims, ledger and kill-switch as the events alone leave them. */
  function Replay(cfg: Config, b: Business, h: seq<Event>): Business {
    if h == [] then b else Replayed(cfg, Replay(cfg, b, h[..|h| - 1]), h[|h| - 1])
  }

  function Replayed(cfg: Config, b: Business, e: Event): Business {
    match e
    case Commit(_, env) =>
      var parsed := ParseCommand(cfg, env.content);
      if parsed.Some? then Meaning(b, cfg.threshold, parsed.value, env.correlationId) else b
    case SwitchSet(_, active, ceo) => b.(killSwitch := Some(KillSwitchRow(active, Some(ceo))))
    case _ => b
  }

  // ---------- the invariant ----------

  /** The row the audit call of this run writes. */
  ghost predicate HasCommandRow(cfg: Config, s: Store, env: Envelope) {
    && ParseCommand(cfg, env.content).Some?
    && exists r :: r in s.audit && r.correlationId == env.correlationId
         && r.event == CommandEvent(cfg, env, ParseCommand(cfg, env.content).value)
  }

  /** The store keeps what the history says it got. */
  ghost predicate Recorded(cfg: Config, s: Store, e: Event) {
    match e
    case Consumption(_, env) => CommandId(cfg, env) in s.consumed
    case CommandAudited(_, env) => HasCommandRow(cfg, s, env)
    case Launch(_, corr) => corr in s.approvals && s.approvals[corr].status != EnAttente
    case _ => true
  }

  ghost predicate AllRecorded(cfg: Config, s: Store, h: seq<Event>) {
    forall i :: 0 <= i < |h| ==> Recorded(cfg, s, h[i])
  }

  /** The command a run carries is the one its content parses to. */
  predicate Carries(cfg: Config, env: Envelope, pc: Pc) {
    Rank(pc) <= 8 ==> ParseCommand(cfg, env.content) == Some(pc.cmd)
  }

  predicate BeforeCommit(task: Task) { task.Running? ==> Rank(task.pc) <= 7 }

  ghost predicate TaskOk(cfg: Config, h: seq<Event>, k: nat, task: Task) {
    && (BeforeCommit(task) && task != Closed ==> forall i :: 0 <= i < |h| ==> !(h[i].Commit? && h[i].task == k))
    && (task.Running? ==>
          && Carries(cfg, task.env, task.pc)
          && (1 <= Rank(task.pc) <= 8 ==> task.env.signed || !IsCeo(cfg, task.env.author))
          && (4 <= Rank(task.pc) <= 7 ==> MayAct(cfg, task.env))
          && (5 <= Rank(task.pc) <= 7 ==> ConsumedBefore(h, |h|, k, task.env))
          && (Rank(task.pc) == 7 ==> AuditedBefore(h, |h|, k, task.env)))
  }

  ghost predicate TasksOk(cfg: Config, tasks: seq<Task>, h: seq<Event>) {
    && (forall k :: 0 <= k < |tasks| ==> TaskOk(cfg, h, k, tasks[k]))
    && (forall i :: 0 <= i < |h| ==> h[i].task < |tasks|)
  }

  ghost predicate Safe(cfg: Config, h: seq<Event>) {
    OneConsumptionPerId(cfg, h) && OneCommitPerId(cfg, h) && CommitsArePrepared(cfg, h) && OneLaunchPerApproval(h)
  }

  ghost predicate Invariant(cfg: Config, s0: Store, w: World) {
    && Safe(cfg, w.history)
    && AllRecorded(cfg, w.store, w.history)
    && TasksOk(cfg, w.tasks, w.history)
    && BusinessOf(w.store) == Replay(cfg, BusinessOf(s0), w.history)
  }

  // ---------- one call ----------

  /** Nothing a call does takes back a consumed id or an audit row, or makes an approval wait again. */
  lemma CallKeepsRecords(cfg: Config, s: Store, k: nat, task: Task, f: Fault, h: seq<Event>)
    requires AllRecorded(cfg, s, h)
    ensures AllRecorded(cfg, Call(cfg, s, k, task, f).0, h)
  {
    var t := Call(cfg, s, k, task, f).0;
    CallMoves(cfg, s, k, task, f);
    CallGrows(cfg, s, k, task, f);
    forall i | 0 <= i < |h| ensures Recorded(cfg, t, h[i]) {
      assert Recorded(cfg, s, h[i]);
    }
  }

  lemma CallGrows(cfg: Config, s: Store, k: nat, task: Task, f: Fault)
    ensures var t := Call(cfg, s, k, task, f).0; s.consumed.Keys <= t.consumed.Keys && s.audit <= t.audit
  {
    if task.Running? {
      StatementGrows(cfg, s, task.env, task.pc);
    }
  }

  lemma StatementGrows(cfg: Config, s: Store, env: Envelope, pc: Pc)
    ensures var t := Statement(cfg, s, env, pc); s.consumed.Keys <= t.consumed.Keys && s.audit <= t.audit
  {
    if pc.Effect? {
      EffectMeans(s, cfg.threshold, pc.cmd, env.correlationId);
    }
  }

  /** The approval a call may take out of approuve: that of a committed rejection. */
  function RejectedInCall(task: Task, f: Fault): Option<Id> {
    if task.Running? && task.pc.Effect? && !f.Refused? then RejectedBy(task.pc.cmd, task.env.correlationId) else None
  }

  lemma CallMoves(cfg: Config, s: Store, k: nat, task: Task, f: Fault)
    ensures Moves(s, Call(cfg, s, k, task, f).0, RejectedInCall(task, f))
  {
    match task
    case Requesting(corr, a) => StatementsMove(s, corr, a, corr, corr, true);
    case Deciding(corr, ceo, reason, approve, _) => StatementsMove(s, corr, RequestedApproval(cfg, corr, 0.0, reason, ceo), ceo, reason, approve);
    case Running(env, pc) => StatementMoves(cfg, s, env, pc);
    case _ =>
  }

  lemma StatementMoves(cfg: Config, s: Store, env: Envelope, pc: Pc)
    ensures Moves(s, Statement(cfg, s, env, pc), if pc.Effect? then RejectedBy(pc.cmd, env.correlationId) else None)
  {
    match pc
    case LinkApproval(cmd) =>
      if cmd.IsClaim() {
        StatementsMove(s, env.correlationId, LinkedApproval(cmd), cmd.approvedBy, cmd.reason, true);
      }
    case Effect(cmd) => EffectMoves(s, cfg.threshold, cmd, env.correlationId);
    case _ =>
  }

  /** The business tables change by exactly what the call's events say. */
  lemma CallReplays(cfg: Config, s: Store, k: nat, task: Task, f: Fault)
    requires task.Running? ==> Carries(cfg, task.env, task.pc)
    ensures var (t, _, events) := Call(cfg, s, k, task, f);
      BusinessOf(t) == (if events == [] then BusinessOf(s) else Replayed(cfg, BusinessOf(s), events[0])) && |events| <= 1
  {
    if task.Running? && task.pc.Effect? {
      EffectMeans(s, cfg.threshold, task.pc.cmd, task.env.correlationId);
    }
  }

  /** What a call's own event is backed by. */
  lemma CallEvent(cfg: Config, s: Store, k: nat, task: Task, f: Fault, h: seq<Event>)
    requires TaskOk(cfg, h, k, task)
    ensures var (t, _, events) := Call(cfg, s, k, task, f);
      events != [] ==>
        && events[0].task == k && Recorded(cfg, t, events[0])
        && (events[0].Consumption? ==> CommandId(cfg, events[0].env) !in s.consumed)
        && (events[0].Launch? ==> Pending(s, events[0].correlationId))
        && (events[0].Commit? ==>
              && task == Running(events[0].env, task.pc) && task.pc.Effect?
              && AuditedBefore(h, |h|, k, events[0].env) && MayAct(cfg, events[0].env))
  {
  }

  lemma AuditedIsConsumed(h: seq<Event>, n: nat, k: nat, env: Envelope)
    requires n <= |h| && AuditedBefore(h, n, k, env)
    ensures ConsumedBefore(h, n, k, env)
  {
  }

  lemma ConsumptionKeepsOne(cfg: Config, s: Store, h: seq<Event>, e: Event)
    requires OneConsumptionPerId(cfg, h) && AllRecorded(cfg, s, h) && (e.Consumption? ==> CommandId(cfg, e.env) !in s.consumed)
    ensures OneConsumptionPerId(cfg, h + [e])
  {
    forall i | 0 <= i < |h| && h[i].Consumption? && e.Consumption? ensures CommandId(cfg, h[i].env) != CommandId(cfg, e.env) {
      assert Recorded(cfg, s, h[i]);
    }
  }

  lemma LaunchKeepsOne(cfg: Config, s: Store, h: seq<Event>, e: Event)
    requires OneLaunchPerApproval(h) && AllRecorded(cfg, s, h) && (e.Launch? ==> Pending(s, e.correlationId))
    ensures OneLaunchPerApproval(h + [e])
  {
    forall i | 0 <= i < |h| && h[i].Launch? && e.Launch? ensures h[i].correlationId != e.correlationId {
      assert Recorded(cfg, s, h[i]);
    }
  }

  lemma CommitStaysPrepared(cfg: Config, h: seq<Event>, e: Event)
    requires CommitsArePrepared(cfg, h) && (e.Commit? ==> AuditedBefore(h, |h|, e.task, e.env) && MayAct(cfg, e.env))
    ensures CommitsArePrepared(cfg, h + [e])
  {
    PrefixKeepsBefore(h, [e]);
  }

  /** Each commit rests on its own task's consumption, and no id is consumed twice. */
  lemma CommitKeepsOne(cfg: Config, h: seq<Event>, e: Event)
    requires OneConsumptionPerId(cfg, h) && OneCommitPerId(cfg, h) && CommitsArePrepared(cfg, h)
    requires e.Commit? ==> AuditedBefore(h, |h|, e.task, e.env)
    requires e.Commit? ==> forall i :: 0 <= i < |h| ==> !(h[i].Commit? && h[i].task == e.task)
    ensures OneCommitPerId(cfg, h + [e])
  {
    var n := |h|;
    forall i | 0 <= i < n && h[i].Commit? && e.Commit? ensures CommandId(cfg, h[i].env) != CommandId(cfg, e.env) {
      AuditedIsConsumed(h, i, h[i].task, h[i].env);
      AuditedIsConsumed(h, n, e.task, e.env);
      var c :| 0 <= c < i && h[c] == Consumption(h[i].task, h[i].env);
      var d :| 0 <= d < n && h[d] == Consumption(e.task, e.env);
      assert c < d || d < c || c == d;
    }
  }

  /** A history stays safe as it grows by a call's event. */
  lemma EventKeepsSafe(cfg: Config, s: Store, h: seq<Event>, e: Event)
    requires Safe(cfg, h) && AllRecorded(cfg, s, h)
    requires e.Consumption? ==> CommandId(cfg, e.env) !in s.consumed
    requires e.Launch? ==> Pending(s, e.correlationId)
    requires e.Commit? ==> AuditedBefore(h, |h|, e.task, e.env) && MayAct(cfg, e.env)
    requires e.Commit? ==> forall i :: 0 <= i < |h| ==> !(h[i].Commit? && h[i].task == e.task)
    ensures Safe(cfg, h + [e])
  {
    ConsumptionKeepsOne(cfg, s, h, e);
    LaunchKeepsOne(cfg, s, h, e);
    CommitStaysPrepared(cfg, h, e);
    CommitKeepsOne(cfg, h, e);
  }

  lemma PrefixKeepsBefore(h: seq<Event>, g: seq<Event>)
    ensures forall n: nat, k, env :: n <= |h| && ConsumedBefore(h, n, k, env) ==> ConsumedBefore(h + g, n, k, env)
    ensures forall n: nat, k, env :: n <= |h| && AuditedBefore(h, n, k, env) ==> AuditedBefore(h + g, n, k, env)
  {
    var hg := h + g;
    forall n: nat, k, env | n <= |h| && ConsumedBefore(h, n, k, env) ensures ConsumedBefore(hg, n, k, env) {
      var c :| 0 <= c < n && h[c] == Consumption(k, env);
      assert hg[c] == h[c];
    }
    forall n: nat, k, env | n <= |h| && AuditedBefore(h, n, k, env) ensures AuditedBefore(hg, n, k, env) {
      var a :| 0 <= a < n && h[a] == CommandAudited(k, env) && ConsumedBefore(h, a, k, env);
      assert hg[a] == h[a];
    }
  }

  lemma BeforeGrows(h: seq<Event>, g: seq<Event>, k: nat, env: Envelope)
    ensures ConsumedBefore(h, |h|, k, env) ==> ConsumedBefore(h + g, |h + g|, k, env)
    ensures AuditedBefore(h, |h|, k, env) ==> AuditedBefore(h + g, |h + g|, k, env)
  {
    PrefixKeepsBefore(h, g);
  }

  /** Other tasks are none the wiser. */
  lemma OtherTaskOk(cfg: Config, h: seq<Event>, g: seq<Event>, k: nat, task: Task)
    requires TaskOk(cfg, h, k, task) && forall i :: 0 <= i < |g| ==> g[i].task != k
    ensures TaskOk(cfg, h + g, k, task)
  {
    if task.Running? {
      BeforeGrows(h, g, k, task.env);
    }
  }

  /** The pipeline's step keeps the books of its own task. */
  lemma RunningOk(cfg: Config, s: Store, h: seq<Event>, k: nat, env: Envelope, pc: Pc, f: Fault)
    requires TaskOk(cfg, h, k, Running(env, pc)) && !pc.Finished?
    ensures TaskOk(cfg, h + Happened(cfg, s, k, env, pc, f), k, Running(env, Advanced(cfg, s, env, pc, f).1))
  {
    var g := Happened(cfg, s, k, env, pc, f);
    var next := Advanced(cfg, s, env, pc, f).1;
    BeforeGrows(h, g, k, env);
    if Rank(next) <= 7 {
      NextOk(cfg, s, env, pc, f);
      if g != [] {
        assert (h + g)[|h|] == g[0];
        PrefixKeepsBefore(h, g);
      }
    }
  }

  lemma NextOk(cfg: Config, s: Store, env: Envelope, pc: Pc, f: Fault)
    requires !pc.Finished? && Carries(cfg, env, pc)
    requires 1 <= Rank(pc) <= 8 ==> env.signed || !IsCeo(cfg, env.author)
    requires 4 <= Rank(pc) <= 7 ==> MayAct(cfg, env)
    ensures var next := Advanced(cfg, s, env, pc, f).1;
      Rank(next) <= 7 ==>
        && f.Fine? && Rank(pc) < 7 && Carries(cfg, env, next) && (env.signed || !IsCeo(cfg, env.author))
        && (Rank(next) >= 4 ==> MayAct(cfg, env))
        && (Rank(next) == 5 ==> pc.Consume?)
        && (Rank(next) == 6 ==> pc.Consume? || pc.LinkApproval?)
        && (Rank(next) == 7 ==> pc.AuditCommand?)
        && (pc.Consume? ==> CommandId(cfg, env) !in s.consumed)
  {
  }

  lemma CallTaskOk(cfg: Config, s: Store, h: seq<Event>, k: nat, task: Task, f: Fault)
    requires TaskOk(cfg, h, k, task)
    ensures var (_, next, events) := Call(cfg, s, k, task, f); TaskOk(cfg, h + events, k, next)
  {
    if task.Running? && !task.pc.Finished? {
      RunningOk(cfg, s, h, k, task.env, task.pc, f);
    }
  }

  // ---------- any number of moves ----------

  lemma ArrivalKeeps(cfg: Config, s0: Store, w: World, req: Request)
    requires Invariant(cfg, s0, w)
    ensures Invariant(cfg, s0, Moved(cfg, w, Arrive(req)))
  {
    assert TaskOk(cfg, w.history, |w.tasks|, Admitted(cfg, req));
  }

  lemma TasksStayOk(cfg: Config, tasks: seq<Task>, h: seq<Event>, k: nat, next: Task, events: seq<Event>)
    requires TasksOk(cfg, tasks, h) && k < |tasks| && TaskOk(cfg, h + events, k, next)
    requires forall i :: 0 <= i < |events| ==> events[i].task == k
    ensures TasksOk(cfg, tasks[k := next], h + events)
  {
    var after := tasks[k := next];
    forall j | 0 <= j < |after| ensures TaskOk(cfg, h + events, j, after[j]) {
      if j != k {
        OtherTaskOk(cfg, h, events, j, tasks[j]);
      }
    }
  }

  lemma SafeKeeps(cfg: Config, s: Store, k: nat, task: Task, f: Fault, h: seq<Event>)
    requires Safe(cfg, h) && AllRecorded(cfg, s, h) && TaskOk(cfg, h, k, task)
    ensures Safe(cfg, h + Call(cfg, s, k, task, f).2)
  {
    var events := Call(cfg, s, k, task, f).2;
    CallEvent(cfg, s, k, task, f, h);
    if events == [] {
      assert h + events == h;
    } else {
      assert events == [events[0]];
      EventKeepsSafe(cfg, s, h, events[0]);
    }
  }

  lemma RecordsKeep(cfg: Config, s: Store, k: nat, task: Task, f: Fault, h: seq<Event>)
    requires AllRecorded(cfg, s, h) && TaskOk(cfg, h, k, task)
    ensures var (t, _, events) := Call(cfg, s, k, task, f);
      AllRecorded(cfg, t, h + events) && |events| <= 1 && (events != [] ==> events[0].task == k)
  {
    var (t, _, events) := Call(cfg, s, k, task, f);
    CallKeepsRecords(cfg, s, k, task, f, h);
    CallEvent(cfg, s, k, task, f, h);
  }

  lemma ReplayKeeps(cfg: Config, b: Business, s: Store, k: nat, task: Task, f: Fault, h: seq<Event>)
    requires BusinessOf(s) == Replay(cfg, b, h) && TaskOk(cfg, h, k, task)
    ensures var (t, _, events) := Call(cfg, s, k, task, f); BusinessOf(t) == Replay(cfg, b, h + events)
  {
    var (t, _, events) := Call(cfg, s, k, task, f);
    CallReplays(cfg, s, k, task, f);
    assert if events == [] then h + events == h else (h + events)[..|h|] == h;
  }

  lemma AdvanceKeeps(cfg: Config, s0: Store, w: World, k: nat, f: Fault)
    requires Invariant(cfg, s0, w) && k < |w.tasks|
    ensures Invariant(cfg, s0, Moved(cfg, w, Advance(k, f)))
  {
    var (_, next, events) := Call(cfg, w.store, k, w.tasks[k], f);
    SafeKeeps(cfg, w.store, k, w.tasks[k], f, w.history);
    RecordsKeep(cfg, w.store, k, w.tasks[k], f, w.history);
    ReplayKeeps(cfg, BusinessOf(s0), w.store, k, w.tasks[k], f, w.history);
    CallTaskOk(cfg, w.store, w.history, k, w.tasks[k], f);
    TasksStayOk(cfg, w.tasks, w.history, k, next, events);
  }

  lemma {:induction false} InvariantAlways(cfg: Config, s0: Store, moves: seq<Move>)
    ensures Invariant(cfg, s0, Play(cfg, s0, moves))
  {
    if moves != [] {
      var n := |moves| - 1;
      InvariantAlways(cfg, s0, moves[..n]);
      match moves[n]
      case Arrive(req) => ArrivalKeeps(cfg, s0, Play(cfg, s0, moves[..n]), req);
      case Advance(k, f) =>
        if k < |Play(cfg, s0, moves[..n]).tasks| {
          AdvanceKeeps(cfg, s0, Play(cfg, s0, moves[..n]), k, f);
        }
    }
  }

  /**
    For each command id at most one request ever passes consumption and at most one effect ever commits; every
    commit is preceded by its own run's consumption and command audit row, under a role that may act; each
    approval launches at most one settlement.
   */
  lemma AtMostOnce(cfg: Config, s: Store, moves: seq<Move>)
    ensures var w := Play(cfg, s, moves);
      && OneConsumptionPerId(cfg, w.history) && OneCommitPerId(cfg, w.history)
      && CommitsArePrepared(cfg, w.history) && OneLaunchPerApproval(w.history)
      && AllRecorded(cfg, w.store, w.history)
  {
    InvariantAlways(cfg, s, moves);
  }

  /** At any moment claims, ledger and kill-switch are exactly the committed effects, each whole, in commit order. */
  lemma TablesAreCommits(cfg: Config, s: Store, moves: seq<Move>)
    ensures var w := Play(cfg, s, moves);
      BusinessOf(w.store) == Replay(cfg, BusinessOf(s), w.history)
  {
    InvariantAlways(cfg, s, moves);
  }

  // ---------- approvals ----------

  /** Some committed rejection carries this correlation id. */
  ghost predicate RejectionIn(cfg: Config, h: seq<Event>, from: nat, corr: Id) {
    exists i :: from <= i < |h| && h[i].Commit? && h[i].env.correlationId == corr
      && ParseCommand(cfg, h[i].env.content).Some? && ParseCommand(cfg, h[i].env.content).value.SettlementReject?
  }

  /** From w to x approvals keep their terms and move forward, and one leaves approuve only by a rejection committed in between. */
  ghost predicate ApprovalsMove(cfg: Config, w: World, x: World) {
    && w.history <= x.history
    && (forall c :: c in w.store.approvals ==>
      && c in x.store.approvals && SameTerms(w.store.approvals[c], x.store.approvals[c])
      && Later(w.store.approvals[c].status, x.store.approvals[c].status)
      && (w.store.approvals[c].status == Approuve && x.store.approvals[c].status != Approuve
          ==> RejectionIn(cfg, x.history, |w.history|, c)))
  }

  lemma MoveMoves(cfg: Config, s0: Store, w: World, m: Move)
    requires Invariant(cfg, s0, w)
    ensures ApprovalsMove(cfg, w, Moved(cfg, w, m))
  {
    if m.Advance? && m.task < |w.tasks| {
      var x := Moved(cfg, w, m);
      var task := w.tasks[m.task];
      CallMoves(cfg, w.store, m.task, task, m.fault);
      assert TaskOk(cfg, w.history, m.task, task);
      if RejectedInCall(task, m.fault).Some? {
        assert x.history[|w.history|] == Commit(m.task, task.env);
      }
    }
  }

  lemma ApprovalsMoveOn(cfg: Config, w: World, x: World, y: World)
    requires ApprovalsMove(cfg, w, x) && ApprovalsMove(cfg, x, y)
    ensures ApprovalsMove(cfg, w, y)
  {
    forall c | c in w.store.approvals && w.store.approvals[c].status == Approuve && y.store.approvals[c].status != Approuve
      ensures RejectionIn(cfg, y.history, |w.history|, c)
    {
      if x.store.approvals[c].status == Approuve {
        assert RejectionIn(cfg, y.history, |x.history|, c);
      } else {
        assert RejectionIn(cfg, x.history, |w.history|, c);
        var i :| |w.history| <= i < |x.history| && x.history[i].Commit? && x.history[i].env.correlationId == c
          && ParseCommand(cfg, x.history[i].env.content).Some? && ParseCommand(cfg, x.history[i].env.content).value.SettlementReject?;
        assert y.history[i] == x.history[i];
      }
    }
  }

  /** However requests interleave: no approval waits again, a refusal is final, an approval falls only to a rejection. */
  lemma {:induction false} PlayMovesApprovals(cfg: Config, s: Store, moves: seq<Move>, i: nat)
    requires i <= |moves|
    ensures ApprovalsMove(cfg, Play(cfg, s, moves[..i]), Play(cfg, s, moves))
    decreases |moves|
  {
    if i < |moves| {
      var n := |moves| - 1;
      assert moves[..n][..i] == moves[..i];
      PlayMovesApprovals(cfg, s, moves[..n], i);
      InvariantAlways(cfg, s, moves[..n]);
      MoveMoves(cfg, s, Play(cfg, s, moves[..n]), moves[n]);
      ApprovalsMoveOn(cfg, Play(cfg, s, moves[..i]), Play(cfg, s, moves[..n]), Play(cfg, s, moves));
    } else {
      assert moves[..i] == moves;
    }
  }

  // ---------- what interleaving gives up ----------

  ghost predicate Reachable(cfg: Config, s: Store, w: World) {
    exists moves :: Play(cfg, s, moves) == w
  }

  lemma ReachableThen(cfg: Config, s: Store, w: World, m: Move)
    requires Reachable(cfg, s, w)
    ensures Reachable(cfg, s, Moved(cfg, w, m))
  {
    var moves :| Play(cfg, s, moves) == w;
    assert (moves + [m])[..|moves|] == moves;
    assert Play(cfg, s, moves + [m]) == Moved(cfg, w, m);
  }

  /** A settlement the gates would let through on store s. */
  ghost predicate Ready(cfg: Config, s: Store, env: Envelope, cmd: Command) {
    && ParseCommand(cfg, env.content) == Some(cmd) && cmd.SettlementApprove?
    && (env.signed || !IsCeo(cfg, env.author)) && CommandId(cfg, env) !in s.consumed
    && Policy.Permitted(cmd, Policy.Context(s.killSwitch, ClaimOf(s, cmd), false, cfg.threshold), ResolveRole(cfg, env))
  }

  predicate OthersWait(w: World, x: World, k: nat) {
    |x.tasks| == |w.tasks| && forall j :: 0 <= j < |w.tasks| && j != k ==> x.tasks[j] == w.tasks[j]
  }

  /** The next call of a run goes well. */
  lemma OneMore(cfg: Config, s: Store, w: World, k: nat, env: Envelope, pc: Pc) returns (x: World)
    requires Reachable(cfg, s, w) && k < |w.tasks| && w.tasks[k] == Running(env, pc) && !pc.Finished?
    ensures Reachable(cfg, s, x) && OthersWait(w, x, k)
    ensures x.store == Statement(cfg, w.store, env, pc) && x.tasks[k] == Running(env, Next(cfg, w.store, env, pc))
  {
    ReachableThen(cfg, s, w, Advance(k, Fine));
    x := Moved(cfg, w, Advance(k, Fine));
  }

  /** In four calls a run reads its way to the consumption. */
  lemma ReadsThrough(cfg: Config, s: Store, w: World, k: nat, env: Envelope, cmd: Command) returns (x: World)
    requires Reachable(cfg, s, w) && k < |w.tasks| && w.tasks[k] == Running(env, Precheck(cmd)) && Ready(cfg, w.store, env, cmd)
    ensures Reachable(cfg, s, x) && OthersWait(w, x, k) && x.store == w.store && x.tasks[k] == Running(env, Consume(cmd))
  {
    Policy.AllowedExactlyWhenPermitted(cmd, Policy.Context(w.store.killSwitch, ClaimOf(w.store, cmd), false, cfg.threshold), ResolveRole(cfg, env));
    x := OneMore(cfg, s, w, k, env, Precheck(cmd));
    x := OneMore(cfg, s, x, k, env, ReadKillSwitch(cmd));
    x := OneMore(cfg, s, x, k, env, ReadClaim(cmd, w.store.killSwitch));
    x := OneMore(cfg, s, x, k, env, ReadConsumed(cmd, w.store.killSwitch, ClaimOf(w.store, cmd)));
  }

  /** In four more it commits its effect, whatever became of the claim since. */
  lemma CommitsThrough(cfg: Config, s: Store, w: World, k: nat, env: Envelope, cmd: Command) returns (x: World)
    requires Reachable(cfg, s, w) && k < |w.tasks| && w.tasks[k] == Running(env, Consume(cmd))
    requires cmd.SettlementApprove? && CommandId(cfg, env) !in w.store.consumed
    ensures Reachable(cfg, s, x) && OthersWait(w, x, k)
    ensures x.store.ledger == w.store.ledger + [RowOf(cfg, env, cmd)]
    ensures x.store.consumed.Keys == w.store.consumed.Keys + {CommandId(cfg, env)}
    ensures x.store.killSwitch == w.store.killSwitch
  {
    x := ConsumesNext(cfg, s, w, k, env, cmd);
    x := AuditsNext(cfg, s, x, k, env, cmd);
    x := SettlesNext(cfg, s, x, k, env, cmd);
  }

  lemma ConsumesNext(cfg: Config, s: Store, w: World, k: nat, env: Envelope, cmd: Command) returns (x: World)
    requires Reachable(cfg, s, w) && k < |w.tasks| && w.tasks[k] == Running(env, Consume(cmd))
    requires cmd.SettlementApprove? && CommandId(cfg, env) !in w.store.consumed
    ensures Reachable(cfg, s, x) && OthersWait(w, x, k) && x.tasks[k] == Running(env, LinkApproval(cmd))
    ensures x.store == w.store.(consumed := w.store.consumed[CommandId(cfg, env) := env.correlationId])
  {
    x := OneMore(cfg, s, w, k, env, Consume(cmd));
  }

  lemma AuditsNext(cfg: Config, s: Store, w: World, k: nat, env: Envelope, cmd: Command) returns (x: World)
    requires Reachable(cfg, s, w) && k < |w.tasks| && w.tasks[k] == Running(env, LinkApproval(cmd)) && cmd.SettlementApprove?
    ensures Reachable(cfg, s, x) && OthersWait(w, x, k) && x.tasks[k] == Running(env, Effect(cmd))
    ensures x.store.ledger == w.store.ledger && x.store.consumed == w.store.consumed && x.store.killSwitch == w.store.killSwitch
  {
    x := OneMore(cfg, s, w, k, env, LinkApproval(cmd));
    x := OneMore(cfg, s, x, k, env, AuditCommand(cmd));
  }

  lemma SettlesNext(cfg: Config, s: Store, w: World, k: nat, env: Envelope, cmd: Command) returns (x: World)
    requires Reachable(cfg, s, w) && k < |w.tasks| && w.tasks[k] == Running(env, Effect(cmd)) && cmd.SettlementApprove?
    ensures Reachable(cfg, s, x) && OthersWait(w, x, k)
    ensures x.store.ledger == w.store.ledger + [RowOf(cfg, env, cmd)] && x.store.consumed == w.store.consumed
    ensures x.store.killSwitch == w.store.killSwitch
  {
    EffectMeans(w.store, cfg.threshold, cmd, env.correlationId);
    x := OneMore(cfg, s, w, k, env, Effect(cmd));
  }

  lemma Arrives(cfg: Config, s: Store, w: World, req: Request) returns (x: World)
    requires Reachable(cfg, s, w)
    ensures Reachable(cfg, s, x) && x == w.(tasks := w.tasks + [Admitted(cfg, req)])
  {
    ReachableThen(cfg, s, w, Arrive(req));
    x := Moved(cfg, w, Arrive(req));
  }

  lemma BothRead(cfg: Config, s: Store, a: Request, b: Request, ea: Envelope, eb: Envelope, ca: Command, cb: Command) returns (x: World)
    requires Ready(cfg, s, ea, ca) && Ready(cfg, s, eb, cb)
    requires Admitted(cfg, a) == Running(ea, Start(cfg, ea)) && Admitted(cfg, b) == Running(eb, Start(cfg, eb))
    ensures Reachable(cfg, s, x) && x.store == s && |x.tasks| == 2
    ensures x.tasks[0] == Running(ea, Consume(ca)) && x.tasks[1] == Running(eb, Consume(cb))
  {
    x := BothArrive(cfg, s, a, b);
    x := ReadsThrough(cfg, s, x, 0, ea, ca);
    x := ReadsThrough(cfg, s, x, 1, eb, cb);
  }

  lemma BothArrive(cfg: Config, s: Store, a: Request, b: Request) returns (x: World)
    ensures Reachable(cfg, s, x) && x == World(s, [Admitted(cfg, a), Admitted(cfg, b)], [])
  {
    assert Play(cfg, s, []) == World(s, [], []);
    x := Arrives(cfg, s, World(s, [], []), a);
    x := Arrives(cfg, s, x, b);
  }

  function RowOf(cfg: Config, env: Envelope, cmd: Command): LedgerRow
    requires cmd.SettlementApprove?
  {
    LedgerRow(env.correlationId, cmd.claimId, SettlementAmount(cmd.maxAmount, cfg.threshold))
  }

  /**
    Two different commands for one claim, each fit to settle it alone, can both settle it when they interleave:
    the policy reads the claim before the effect's transaction. Only runs that overlap so can: see ClaimLaws.
   */
  lemma OneClaimCanBeSettledTwice(cfg: Config, s: Store, a: Request, b: Request, ea: Envelope, eb: Envelope, ca: Command, cb: Command)
    requires Ready(cfg, s, ea, ca) && Ready(cfg, s, eb, cb) && CommandId(cfg, ea) != CommandId(cfg, eb)
    requires ca.claimId == cb.claimId
    requires Admitted(cfg, a) == Running(ea, Start(cfg, ea)) && Admitted(cfg, b) == Running(eb, Start(cfg, eb))
    ensures exists x :: Reachable(cfg, s, x) && x.store.ledger == s.ledger + [RowOf(cfg, ea, ca), RowOf(cfg, eb, cb)]
  {
    var x := BothRead(cfg, s, a, b, ea, eb, ca, cb);
    x := CommitsThrough(cfg, s, x, 0, ea, ca);
    x := CommitsThrough(cfg, s, x, 1, eb, cb);
    assert x.store.ledger == s.ledger + [RowOf(cfg, ea, ca), RowOf(cfg, eb, cb)];
  }
}
