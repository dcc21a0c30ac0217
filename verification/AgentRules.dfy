/**
  A task as a machine that looks only at what has happened so far: what is due next, and when nothing is. The trace of
  every task is the one run of this machine, and what the task returns can be read off it.
 */
module AgentRules {
  import opened Text
  import opened Json
  import opened Domain
  import opened Agent
  import opened AgentLaws

  // ---------- what a trace says ----------

  /** What the answers of a trace report, in order. */
  function Reported(t: seq<Act>): (r: seq<Record>)
    ensures |r| == Count(t, IS_RUN)
  {
    if t == [] then []
    else match Last(t)
      case Ran(call, e) => Reported(Init(t)) + [Record(call.name, e.ok, e.result)]
      case _ => Reported(Init(t))
  }

  /** Some call of the latest reply was answered well. */
  predicate Productive(t: seq<Act>) {
    t != [] && match Last(t)
      case Ran(_, e) => e.ok || Productive(Init(t))
      case Checked(_) => Productive(Init(t))
      case _ => false
  }

  /** The text of a reply without calls. */
  function PlainReply(t: seq<Act>): Str {
    if t == [] then []
    else match Last(t)
      case Replied(_, reply) => if reply.calls == [] then reply.text else PlainReply(Init(t))
      case _ => PlainReply(Init(t))
  }

  /** The outward call a trace calls for: the latest escalation, else the latest settlement with its reason scrubbed. */
  function Wanted(cfg: AgentConfig, task: Task, t: seq<Act>): Option<Outward> {
    match (LatestPending(t), LatestCandidate(t))
    case (Some(request), _) => Some(PostedApproval(request, task.correlationId))
    case (None, Some(SettlementApprove(claimId, amount, reason, actor, at))) =>
      Some(PostedCommand(SettlementApprove(claimId, amount, cfg.scrub(reason), actor, at), task.correlationId))
    case (None, Some(command)) => Some(PostedCommand(command, task.correlationId))
    case (None, None) => None
  }

  // ---------- the machine ----------

  function Asked(w: Surroundings, task: Task, t: seq<Act>): Act {
    var messages := task.opening + Conversation(t);
    var reply := w.chat(messages);
    if reply.None? then ChatFailed else Replied(messages, reply.value)
  }

  function Look(w: Surroundings, t: seq<Act>): Act { Checked(w.switchOn(Count(t, IS_CHECK))) }

  /**
    What is due after t, or nothing. Calls are answered first, in order. A task looks at the switch when it begins,
    before each of at most six chats, and before it posts; it stops when the switch is on. It chats again only if its
    latest reply had a call answered well and nothing is to be posted yet, and posts once something is.
   */
  function Due(cfg: AgentConfig, w: Surroundings, task: Task, t: seq<Act>): Option<Act> {
    if Owed(t) != [] then
      var e := ExecuteOne(cfg, w, Count(t, IS_RUN), Owed(t)[0]);
      if e.None? then None else Some(Ran(Owed(t)[0], e.value))
    else if t == [] then Some(Look(w, t))
    else match Last(t)
      case Posted(_) => None
      case Checked(on) =>
        if on then None
        else if |t| == 1 then Some(Look(w, t))
        else if Wanted(cfg, task, t).Some? then Some(Posted(Wanted(cfg, task, t).value))
        else Some(Asked(w, task, t))
      case _ =>
        if Wanted(cfg, task, t).Some? || (Productive(t) && Count(t, IS_CHAT) < 6) then Some(Look(w, t)) else None
  }

  predicate Ruled(cfg: AgentConfig, w: Surroundings, task: Task, t: seq<Act>) {
    t == [] || (Ruled(cfg, w, task, Init(t)) && Due(cfg, w, task, Init(t)) == Some(Last(t)))
  }

  // ---------- the task's variables and the machine ----------

  /** The task has done what was due so far, and its variables say so. */
  predicate OnTrack(cfg: AgentConfig, w: Surroundings, task: Task, p: Progress) {
    Books(cfg, w, task, p) && Ruled(cfg, w, task, p.trace) && p.records == Reported(p.trace) && p.fallback == PlainReply(p.trace)
  }

  /** Between two turns: nothing is to be posted, and after the first turn the latest reply was productive. */
  predicate Between(cfg: AgentConfig, task: Task, p: Progress, chats: nat) {
    && p.phase.Looping? && p.trace != [] && Owed(p.trace) == [] && Wanted(cfg, task, p.trace) == None
    && Count(p.trace, IS_CHAT) == chats && PlainReply(p.trace) == []
    && (if chats == 0 then p.trace == [Checked(false)] else Last(p.trace).Ran? && Productive(p.trace))
  }

  lemma Follows(cfg: AgentConfig, w: Surroundings, task: Task, t: seq<Act>, a: Act)
    requires Ruled(cfg, w, task, t) && Due(cfg, w, task, t) == Some(a)
    ensures Ruled(cfg, w, task, t + [a])
  {
    Extended(t, a);
  }

  lemma CheckOnTrack(cfg: AgentConfig, w: Surroundings, task: Task, p: Progress)
    requires OnTrack(cfg, w, task, p) && Owed(p.trace) == [] && Due(cfg, w, task, p.trace) == Some(Look(w, p.trace))
    ensures var q := Check(w, p);
      && OnTrack(cfg, w, task, q) && Owed(q.trace) == [] && Last(q.trace) == Checked(w.switchOn(p.checks)) && Init(q.trace) == p.trace
      && Count(q.trace, IS_CHAT) == Count(p.trace, IS_CHAT)
      && Wanted(cfg, task, q.trace) == Wanted(cfg, task, p.trace) && PlainReply(q.trace) == PlainReply(p.trace)
  {
    CheckKeeps(cfg, w, task, p);
    Follows(cfg, w, task, p.trace, Look(w, p.trace));
    Extended(p.trace, Look(w, p.trace));
  }

  lemma OneCallOnTrack(cfg: AgentConfig, w: Surroundings, task: Task, p: Progress, call: ToolCall)
    requires OnTrack(cfg, w, task, p) && p.phase.Looping? && Owed(p.trace) != [] && call == Owed(p.trace)[0]
    ensures var q := OneCall(cfg, w, p, call);
      && OnTrack(cfg, w, task, q) && Count(q.trace, IS_CHAT) == Count(p.trace, IS_CHAT) && PlainReply(q.trace) == PlainReply(p.trace)
      && (q.phase.Aborted? ==> Owed(q.trace) != [] && Due(cfg, w, task, q.trace) == None)
      && (q.phase.Looping? ==>
            && |q.trace| == |p.trace| + 1 && Owed(q.trace) == Owed(p.trace)[1..] && Last(q.trace).Ran?
            && |q.records| == |p.records| + 1 && q.records[..|p.records|] == p.records
            && Productive(q.trace) == (Productive(p.trace) || q.records[|p.records|].ok))
  {
    var e := ExecuteOne(cfg, w, |p.records|, call);
    OneCallKeeps(cfg, w, task, p, call);
    if e.Some? {
      Follows(cfg, w, task, p.trace, Ran(call, e.value));
      Extended(p.trace, Ran(call, e.value));
    }
  }

  lemma {:induction false} CallsOnTrack(cfg: AgentConfig, w: Surroundings, task: Task, p: Progress, calls: seq<ToolCall>, n: nat)
    requires OnTrack(cfg, w, task, p) && p.phase.Looping? && n <= |calls| && Owed(p.trace) == calls && !Productive(p.trace)
    ensures var q := Calls(cfg, w, p, calls[..n]);
      && OnTrack(cfg, w, task, q) && Count(q.trace, IS_CHAT) == Count(p.trace, IS_CHAT) && PlainReply(q.trace) == PlainReply(p.trace)
      && (q.phase.Looping? || q.phase.Aborted?)
      && (q.phase.Aborted? ==> Owed(q.trace) != [] && Due(cfg, w, task, q.trace) == None)
      && (q.phase.Looping? ==>
            && Owed(q.trace) == calls[n..] && (n > 0 ==> Last(q.trace).Ran?) && |p.records| <= |q.records|
            && Productive(q.trace) == MadeProgress(q.records, |p.records|))
  {
    if n > 0 {
      CallsOnTrack(cfg, w, task, p, calls, n - 1);
      assert calls[..n][..n - 1] == calls[..n - 1];
      var q := Calls(cfg, w, p, calls[..n - 1]);
      if q.phase.Looping? {
        OneCallOnTrack(cfg, w, task, q, calls[n - 1]);
        var r := OneCall(cfg, w, q, calls[n - 1]);
        if r.phase.Looping? {
          ProgressGrows(q.records, r.records[|q.records|], |p.records|);
          assert r.records == q.records + [r.records[|q.records|]];
        }
      }
    }
  }

  /** Where a part of the loop can leave a task that is not to go on: stopped or aborted for good, or at its end. */
  predicate Over(cfg: AgentConfig, w: Surroundings, task: Task, p: Progress) {
    var wanted := Wanted(cfg, task, p.trace);
    match p.phase
    case Looping => false
    case Aborted => Owed(p.trace) != [] && Due(cfg, w, task, p.trace) == None
    case Stopped => p.trace != [] && Last(p.trace) == Checked(true) && wanted == None && Owed(p.trace) == []
    case Broke =>
      Owed(p.trace) == [] && p.trace != [] && !Last(p.trace).Checked? && !Last(p.trace).Posted?
      && Due(cfg, w, task, p.trace) == if wanted.Some? then Some(Look(w, p.trace)) else None
  }

  lemma PlainOnTrack(cfg: AgentConfig, w: Surroundings, task: Task, p: Progress, reply: ChatReply)
    requires OnTrack(cfg, w, task, p) && p.phase.Looping? && Owed(p.trace) == [] && JustAllowed(p.trace) && reply.calls == []
    requires w.chat(p.messages) == Some(reply) && Due(cfg, w, task, p.trace) == Some(Asked(w, task, p.trace))
    requires Wanted(cfg, task, p.trace) == None
    ensures var q := Answered(cfg, w, p, reply); OnTrack(cfg, w, task, q) && Over(cfg, w, task, q)
  {
    var act := Replied(p.messages, reply);
    Follows(cfg, w, task, p.trace, act);
    Extended(p.trace, act);
    AnsweredKeeps(cfg, w, task, p, reply);
  }

  /** The task once it has taken a reply with calls into its conversation. */
  lemma RepliedOnTrack(cfg: AgentConfig, w: Surroundings, task: Task, p: Progress, reply: ChatReply)
    requires OnTrack(cfg, w, task, p) && p.phase.Looping? && Owed(p.trace) == [] && JustAllowed(p.trace) && reply.calls != []
    requires w.chat(p.messages) == Some(reply) && Due(cfg, w, task, p.trace) == Some(Asked(w, task, p.trace))
    ensures var r := p.(trace := p.trace + [Replied(p.messages, reply)], messages := p.messages + [Assistant(reply.text)]);
      && OnTrack(cfg, w, task, r) && Owed(r.trace) == reply.calls && !Productive(r.trace)
      && Count(r.trace, IS_CHAT) == Count(p.trace, IS_CHAT) + 1 && PlainReply(r.trace) == PlainReply(p.trace)
  {
    var act := Replied(p.messages, reply);
    Follows(cfg, w, task, p.trace, act);
    Extended(p.trace, act);
    Assoc(task.opening, Conversation(p.trace), [Assistant(reply.text)]);
  }

  /** What a turn does once its calls are answered. */
  lemma AnsweredAllOnTrack(cfg: AgentConfig, w: Surroundings, task: Task, r: Progress, from: nat, chats: nat)
    requires OnTrack(cfg, w, task, r) && r.phase.Looping? && r.trace != [] && Owed(r.trace) == [] && Last(r.trace).Ran?
    requires from <= |r.records| && Productive(r.trace) == MadeProgress(r.records, from)
    requires Count(r.trace, IS_CHAT) == chats > 0 && PlainReply(r.trace) == []
    ensures var q := if r.candidate.Some? || r.pending.Some? || !MadeProgress(r.records, from) then r.(phase := Broke) else r;
      OnTrack(cfg, w, task, q) && (Between(cfg, task, q, chats) || Over(cfg, w, task, q))
  {
    WantedExactly(cfg, w, task, r);
  }

  lemma AnsweredOnTrack(cfg: AgentConfig, w: Surroundings, task: Task, p: Progress, reply: ChatReply)
    requires OnTrack(cfg, w, task, p) && p.phase.Looping? && Owed(p.trace) == [] && JustAllowed(p.trace)
    requires w.chat(p.messages) == Some(reply) && Due(cfg, w, task, p.trace) == Some(Asked(w, task, p.trace))
    requires Wanted(cfg, task, p.trace) == None && PlainReply(p.trace) == []
    ensures var q := Answered(cfg, w, p, reply);
      OnTrack(cfg, w, task, q) && (Between(cfg, task, q, Count(p.trace, IS_CHAT) + 1) || Over(cfg, w, task, q))
  {
    if reply.calls == [] {
      PlainOnTrack(cfg, w, task, p, reply);
    } else {
      var r := p.(trace := p.trace + [Replied(p.messages, reply)], messages := p.messages + [Assistant(reply.text)]);
      RepliedOnTrack(cfg, w, task, p, reply);
      CallsOnTrack(cfg, w, task, r, reply.calls, |reply.calls|);
      assert reply.calls[..|reply.calls|] == reply.calls && reply.calls[|reply.calls|..] == [];
      var q := Calls(cfg, w, r, reply.calls);
      if q.phase.Looping? {
        AnsweredAllOnTrack(cfg, w, task, q, |p.records|, Count(p.trace, IS_CHAT) + 1);
      }
    }
  }

  lemma WantedExactly(cfg: AgentConfig, w: Surroundings, task: Task, p: Progress)
    requires Books(cfg, w, task, p)
    ensures Wanted(cfg, task, p.trace).Some? <==> p.candidate.Some? || p.pending.Some?
    ensures Choice(cfg, p, task.correlationId) == Wanted(cfg, task, p.trace)
  {
  }

  lemma FailedChatOnTrack(cfg: AgentConfig, w: Surroundings, task: Task, p: Progress)
    requires OnTrack(cfg, w, task, p) && Owed(p.trace) == [] && JustAllowed(p.trace) && Wanted(cfg, task, p.trace) == None
    requires w.chat(p.messages) == None && Due(cfg, w, task, p.trace) == Some(Asked(w, task, p.trace))
    ensures var q := p.(trace := p.trace + [ChatFailed], phase := Broke); OnTrack(cfg, w, task, q) && Over(cfg, w, task, q)
  {
    Follows(cfg, w, task, p.trace, ChatFailed);
    Extended(p.trace, ChatFailed);
  }

  /** A turn begins with a look at the switch; told off, it asks the model. */
  lemma TurnBegins(cfg: AgentConfig, w: Surroundings, task: Task, p: Progress, chats: nat)
    requires OnTrack(cfg, w, task, p) && Between(cfg, task, p, chats) && chats < 6
    ensures var q := Check(w, p);
      && OnTrack(cfg, w, task, q) && Owed(q.trace) == [] && q.phase.Looping? && Last(q.trace) == Checked(w.switchOn(p.checks))
      && Count(q.trace, IS_CHAT) == chats && Wanted(cfg, task, q.trace) == None && PlainReply(q.trace) == []
      && (!w.switchOn(p.checks) ==> JustAllowed(q.trace) && Due(cfg, w, task, q.trace) == Some(Asked(w, task, q.trace)))
  {
    CheckOnTrack(cfg, w, task, p);
    assert |Check(w, p).trace| > 1;
  }

  lemma TurnOnTrack(cfg: AgentConfig, w: Surroundings, task: Task, p: Progress, chats: nat)
    requires OnTrack(cfg, w, task, p) && Between(cfg, task, p, chats) && chats < 6
    ensures var q := Turn(cfg, w, p);
      OnTrack(cfg, w, task, q) && (Between(cfg, task, q, chats + 1) || Over(cfg, w, task, q))
  {
    TurnBegins(cfg, w, task, p, chats);
    var q := Check(w, p);
    if !w.switchOn(p.checks) {
      match w.chat(q.messages)
      case None => FailedChatOnTrack(cfg, w, task, q);
      case Some(reply) => AnsweredOnTrack(cfg, w, task, q, reply);
    }
  }

  lemma {:induction false} TurnsOnTrack(cfg: AgentConfig, w: Surroundings, task: Task, p: Progress, n: nat)
    requires OnTrack(cfg, w, task, p) && Between(cfg, task, p, 0) && n <= 6
    ensures var q := Turns(cfg, w, p, n);
      OnTrack(cfg, w, task, q) && (Between(cfg, task, q, n) || Over(cfg, w, task, q))
  {
    if n > 0 {
      TurnsOnTrack(cfg, w, task, p, n - 1);
      var q := Turns(cfg, w, p, n - 1);
      if q.phase.Looping? {
        TurnOnTrack(cfg, w, task, q, n - 1);
      }
    }
  }

  /** What a finished task's trace and variables have to do with each other. */
  predicate Finished(cfg: AgentConfig, w: Surroundings, task: Task, p: Progress) {
    && Ruled(cfg, w, task, p.trace) && Due(cfg, w, task, p.trace) == None && p.trace != []
    && p.records == Reported(p.trace) && p.fallback == PlainReply(p.trace)
    && (p.phase.Aborted? <==> Owed(p.trace) != [])
    && (p.phase.Stopped? <==> Owed(p.trace) == [] && Last(p.trace) == Checked(true) && Wanted(cfg, task, p.trace) == None)
  }

  lemma ClosingFinishes(cfg: AgentConfig, w: Surroundings, task: Task, p: Progress)
    requires OnTrack(cfg, w, task, p) && (Between(cfg, task, p, 6) || (p.phase.Broke? && Over(cfg, w, task, p)))
    ensures Finished(cfg, w, task, Closing(cfg, w, p, task.correlationId))
  {
    WantedExactly(cfg, w, task, p);
    var choice := Choice(cfg, p, task.correlationId);
    if choice.Some? {
      CheckOnTrack(cfg, w, task, p);
      var q := Check(w, p);
      if !w.switchOn(p.checks) {
        Follows(cfg, w, task, q.trace, Posted(choice.value));
        Extended(q.trace, Posted(choice.value));
      }
    }
  }

  lemma OpeningOnTrack(cfg: AgentConfig, w: Surroundings, task: Task)
    ensures var q := Check(w, Opened(task));
      && OnTrack(cfg, w, task, q) && q.trace == [Checked(w.switchOn(0))] && q.phase.Looping?
      && Owed(q.trace) == [] && Count(q.trace, IS_CHAT) == 0 && Wanted(cfg, task, q.trace) == None && PlainReply(q.trace) == []
  {
    var p := Opened(task);
    assert task.opening + Conversation(p.trace) == task.opening;
    CheckOnTrack(cfg, w, task, p);
    assert Check(w, p).trace == [] + [Checked(w.switchOn(0))];
  }

  /** What follows the opening check. */
  lemma LoopFinishes(cfg: AgentConfig, w: Surroundings, task: Task, q: Progress)
    requires OnTrack(cfg, w, task, q) && Between(cfg, task, q, 0)
    ensures var r := Turns(cfg, w, q, MAX_ITERATIONS);
      Finished(cfg, w, task, if r.phase.Stopped? || r.phase.Aborted? then r else Closing(cfg, w, r, task.correlationId))
  {
    TurnsOnTrack(cfg, w, task, q, MAX_ITERATIONS);
    var r := Turns(cfg, w, q, MAX_ITERATIONS);
    if !r.phase.Stopped? && !r.phase.Aborted? {
      ClosingFinishes(cfg, w, task, r);
    }
  }

  /**
    Whatever the model answers and whenever the switch changes, a task's trace is the run of the machine from its
    beginning to where nothing is due; its records are the answers, and its fallback the plain reply, of that trace.
   */
  lemma TaskFollowsRules(cfg: AgentConfig, w: Surroundings, task: Task)
    ensures Finished(cfg, w, task, TaskRun(cfg, w, task))
  {
    OpeningOnTrack(cfg, w, task);
    if !w.switchOn(0) {
      LoopFinishes(cfg, w, task, Check(w, Opened(task)));
    }
  }

  /** There is only one such trace. */
  lemma {:induction false} OneRunOnly(cfg: AgentConfig, w: Surroundings, task: Task, t: seq<Act>, u: seq<Act>)
    requires Ruled(cfg, w, task, t) && Due(cfg, w, task, t) == None
    requires Ruled(cfg, w, task, u) && Due(cfg, w, task, u) == None
    ensures t == u
  {
    var n := if |t| <= |u| then |t| else |u|;
    PrefixesAgree(cfg, w, task, t, u, n);
    if n < |u| {
      assert t == t[..n];
      RuledAt(cfg, w, task, u, n);
    } else if n < |t| {
      assert u == u[..n];
      RuledAt(cfg, w, task, t, n);
    } else {
      assert t == t[..n] && u == u[..n];
    }
  }

  lemma {:induction false} RuledAt(cfg: AgentConfig, w: Surroundings, task: Task, t: seq<Act>, i: nat)
    requires Ruled(cfg, w, task, t) && i < |t|
    ensures Due(cfg, w, task, t[..i]) == Some(t[i])
  {
    if i < |t| - 1 {
      RuledAt(cfg, w, task, Init(t), i);
      assert Init(t)[..i] == t[..i];
    }
  }

  lemma {:induction false} PrefixesAgree(cfg: AgentConfig, w: Surroundings, task: Task, t: seq<Act>, u: seq<Act>, n: nat)
    requires Ruled(cfg, w, task, t) && Ruled(cfg, w, task, u) && n <= |t| && n <= |u|
    ensures t[..n] == u[..n]
  {
    if n > 0 {
      PrefixesAgree(cfg, w, task, t, u, n - 1);
      RuledAt(cfg, w, task, t, n - 1);
      RuledAt(cfg, w, task, u, n - 1);
      assert t[..n] == t[..n - 1] + [t[n - 1]] && u[..n] == u[..n - 1] + [u[n - 1]];
    }
  }

  // ---------- the records ----------

  lemma {:induction false} ReportedFrom(t: seq<Act>, k: nat) returns (i: nat)
    requires k < |Reported(t)|
    ensures i < |t| && t[i].Ran? && Reported(t)[k] == Record(t[i].call.name, t[i].execution.ok, t[i].execution.result)
  {
    if Last(t).Ran? && k == |Reported(t)| - 1 {
      i := |t| - 1;
    } else {
      i := ReportedFrom(Init(t), k);
    }
  }

  /** Every record of a task that is marked ok names a tool that is registered and allowed. */
  lemma OkRecordsAreAllowed(cfg: AgentConfig, w: Surroundings, task: Task, k: nat)
    requires k < |TaskRun(cfg, w, task).records| && TaskRun(cfg, w, task).records[k].ok
    ensures var name := TaskRun(cfg, w, task).records[k].name; name in TOOLS && name in cfg.allowed
  {
    var p := TaskRun(cfg, w, task);
    TaskFollowsRules(cfg, w, task);
    var i := ReportedFrom(p.trace, k);
    OkAnswersAreAllowed(cfg, w, task, i);
  }

  // ---------- one call ----------

  /** What a call comes to: refused by name, or run on cleaned arguments; only a recommendation yields anything to post. */
  lemma CallMeans(cfg: AgentConfig, w: Surroundings, n: nat, call: ToolCall)
    ensures var e := ExecuteOne(cfg, w, n, call);
      && (e == None <==> call.name in TOOLS && call.name in cfg.allowed && cfg.clean(call.arguments) == None)
      && (call.name !in TOOLS || call.name !in cfg.allowed ==> e.Some? && !e.value.ok && e.value.candidate == None && e.value.pending == None)
      && (e.Some? && call.name in TOOLS && call.name in cfg.allowed ==>
            var args := cfg.clean(call.arguments).value;
            if call.name == Of("recommander_reglement") then e.value == Recommend(cfg, args, w.now(n))
            else
              var ran := w.tool(n, call.name, args);
              e.value == Execution(ran.ok, ran.result, None, None))
  {
  }

  /** The text of a field, without blanks around it and cut, if there is any. */
  function Words(args: Json, key: string, max: nat): Option<Str> {
    if args.Obj? && Lookup(args.entries, Of(key)).Some? && Lookup(args.entries, Of(key)).value.Text?
       && Trim(Lookup(args.entries, Of(key)).value.s) != []
    then
      var words := Trim(Lookup(args.entries, Of(key)).value.s);
      Some(if |words| > max then words[..max] else words)
    else None
  }

  function Number(cfg: AgentConfig, args: Json, key: string): Option<real> {
    if args.Obj? && Lookup(args.entries, Of(key)).Some? then cfg.number(Lookup(args.entries, Of(key)).value) else None
  }

  lemma ArgumentsAreRead(cfg: AgentConfig, args: Json, key: string, max: nat)
    requires max > 0
    ensures RequiredString(args, Of(key), max) == Words(args, key, max) && OptionalNumber(cfg, args, Of(key)) == Number(cfg, args, key)
  {
  }

  lemma RecommendFromMeans(cfg: AgentConfig, claimId: Option<Str>, amount: Option<real>, reason: Option<Str>, now: Str)
    ensures var e := RecommendFrom(cfg, claimId, amount, reason, now);
      if claimId.Some? && reason.Some? && amount.Some? && amount.value > 0.0
      then e == Recommendation(cfg, claimId.value, amount.value, reason.value, now)
      else !e.ok && e.candidate == None && e.pending == None
  {
  }

  /** A recommendation takes its claim, amount and reason from the arguments of those names, and is refused without them. */
  lemma RecommendationIsOfItsArguments(cfg: AgentConfig, args: Json, now: Str)
    ensures var e := Recommend(cfg, args, now);
      var (claimId, amount, reason) := (Words(args, "claim_id", 64), Number(cfg, args, "montant"), Words(args, "raison", 500));
      if claimId.Some? && reason.Some? && amount.Some? && amount.value > 0.0
      then e == Recommendation(cfg, claimId.value, amount.value, reason.value, now)
      else !e.ok && e.candidate == None && e.pending == None
  {
    ArgumentsAreRead(cfg, args, "claim_id", 64);
    ArgumentsAreRead(cfg, args, "montant", 1);
    ArgumentsAreRead(cfg, args, "raison", 500);
    RecommendFromMeans(cfg, Words(args, "claim_id", 64), Number(cfg, args, "montant"), Words(args, "raison", 500), now);
  }

  /** What a recommendation tells the model: which way it goes, the claim, the amount, and the threshold it was held against. */
  lemma RecommendationTells(cfg: AgentConfig, claimId: Id, amount: real, reason: Str, now: Str)
    requires amount > 0.0
    ensures var e := Recommendation(cfg, claimId, amount, reason, now);
      e.ok ==>
        && e.result.Obj? && Keys(e.result.entries) == {Of("recommandation"), Of("claim_id"), Of("montant_eur"), Of("escalation_ceo"), Of("seuil_eur")}
        && Lookup(e.result.entries, Of("recommandation"))
           == Some(Text(if amount > cfg.escalation then Of("approbations.create") else Of("claim.settlement.approve")))
        && Lookup(e.result.entries, Of("claim_id")) == Some(Text(claimId))
        && Lookup(e.result.entries, Of("montant_eur")) == Some(Num(cfg.numeral(amount)))
        && Lookup(e.result.entries, Of("escalation_ceo")) == Some(Bool(amount > cfg.escalation))
        && Lookup(e.result.entries, Of("seuil_eur")) == Some(Num(cfg.numeral(cfg.escalation)))
  {
    var kind := if amount > cfg.escalation then Of("approbations.create") else Of("claim.settlement.approve");
    ResultTells(cfg, kind, claimId, amount, amount > cfg.escalation);
  }

  lemma ResultTells(cfg: AgentConfig, kind: Str, claimId: Id, amount: real, escalates: bool)
    ensures var v := RecommendationResult(cfg, kind, claimId, amount, escalates);
      && v.Obj? && Keys(v.entries) == {Of("recommandation"), Of("claim_id"), Of("montant_eur"), Of("escalation_ceo"), Of("seuil_eur")}
      && Lookup(v.entries, Of("recommandation")) == Some(Text(kind)) && Lookup(v.entries, Of("claim_id")) == Some(Text(claimId))
      && Lookup(v.entries, Of("montant_eur")) == Some(Num(cfg.numeral(amount)))
      && Lookup(v.entries, Of("escalation_ceo")) == Some(Bool(escalates))
      && Lookup(v.entries, Of("seuil_eur")) == Some(Num(cfg.numeral(cfg.escalation)))
  {
    var es := RecommendationResult(cfg, kind, claimId, amount, escalates).entries;
    forall i, j | 0 <= i < j < 5 ensures es[i].key != es[j].key {
      assert |es[i].key| != |es[j].key| || es[i].key[0] != es[j].key[0];
    }
    forall i | 0 <= i < 5 ensures Lookup(es, es[i].key) == Some(es[i].value) && es[i].key in Keys(es) {
      LookupAt(es, i);
    }
    assert es[0].key in Keys(es) && es[1].key in Keys(es) && es[2].key in Keys(es) && es[3].key in Keys(es) && es[4].key in Keys(es);
  }

  lemma {:induction false} LookupAt(es: seq<Entry<Json>>, i: nat)
    requires i < |es| && forall j :: 0 <= j < i ==> es[j].key != es[i].key
    ensures Lookup(es, es[i].key) == Some(es[i].value)
  {
    if i > 0 {
      assert es[0].key != es[i].key;
      LookupAt(es[1..], i - 1);
    }
  }

  /** The conversation gets to see a result as JSON, up to its first 4000 code units. */
  lemma ContentIsCut(result: Json)
    ensures var text := Stringify(result); Content(result) == if |text| > 4000 then text[..4000] else text
  {
  }
}
