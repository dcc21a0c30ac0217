/** What an activation of the kill-switch stops when requests interleave: everything that had not yet passed it. */
module SwitchLaws {
  import opened Domain
  import opened Repository
  import opened Pipeline
  import opened PipelineLaws
  import opened Server
  import opened Interleaved
  import opened InterleavedLaws
  import Policy

  // ---------- events and the switch ----------

  predicate CommitsSwitch(cfg: Config, e: Event, active: bool) {
    && e.Commit? && ParseCommand(cfg, e.env.content).Some?
    && var cmd := ParseCommand(cfg, e.env.content).value;
    && if active then cmd.KillSwitchActivate? else cmd.KillSwitchDeactivate?
  }

  /** The switch is set to on: by the route, or by a committed command. */
  predicate Activates(cfg: Config, e: Event) { (e.SwitchSet? && e.active) || CommitsSwitch(cfg, e, true) }

  predicate Deactivates(cfg: Config, e: Event) { (e.SwitchSet? && !e.active) || CommitsSwitch(cfg, e, false) }

  /** A run with any command but a deactivation. */
  predicate Stoppable(cfg: Config, env: Envelope) {
    ParseCommand(cfg, env.content).Some? ==> !ParseCommand(cfg, env.content).value.KillSwitchDeactivate?
  }

  ghost predicate PassedBefore(h: seq<Event>, n: nat, k: nat, env: Envelope)
    requires n <= |h|
  {
    exists r :: 0 <= r < n && h[r] == SwitchPassed(k, env)
  }

  // ---------- the invariant ----------

  predicate PastTheSwitch(task: Task) { task.Running? && 2 <= Rank(task.pc) <= 7 }

  ghost predicate TasksPassed(tasks: seq<Task>, h: seq<Event>) {
    forall k :: 0 <= k < |tasks| && PastTheSwitch(tasks[k]) ==> PassedBefore(h, |h|, k, tasks[k].env)
  }

  /** Claims are read, and effects committed, by runs that have passed the switch. */
  ghost predicate ActsPassed(h: seq<Event>) {
    forall c :: 0 <= c < |h| && (h[c].ClaimRead? || h[c].Commit?) ==> PassedBefore(h, c, h[c].task, h[c].env)
  }

  /** Whoever passed the switch, with anything but a deactivation, found it off. */
  ghost predicate PassedWhenOff(cfg: Config, b: Business, h: seq<Event>) {
    forall r :: 0 <= r < |h| && h[r].SwitchPassed? && Stoppable(cfg, h[r].env) ==> !Policy.Active(Replay(cfg, b, h[..r]).killSwitch)
  }

  ghost predicate SwitchInvariant(cfg: Config, s0: Store, w: World) {
    TasksPassed(w.tasks, w.history) && ActsPassed(w.history) && PassedWhenOff(cfg, BusinessOf(s0), w.history)
  }

  lemma PassedBeforeGrows(h: seq<Event>, g: seq<Event>, n: nat, k: nat, env: Envelope)
    requires n <= |h| && PassedBefore(h, n, k, env)
    ensures PassedBefore(h + g, n, k, env) && PassedBefore(h + g, |h + g|, k, env)
  {
    var r :| 0 <= r < n && h[r] == SwitchPassed(k, env);
    assert (h + g)[r] == h[r];
  }

  /** A call takes its own run past the switch only by passing it. */
  lemma CallPasses(cfg: Config, s: Store, h: seq<Event>, k: nat, task: Task, f: Fault)
    requires PastTheSwitch(task) ==> PassedBefore(h, |h|, k, task.env)
    ensures var (_, next, events) := Call(cfg, s, k, task, f);
      PastTheSwitch(next) ==> PassedBefore(h + events, |h + events|, k, next.env)
  {
    var (_, next, events) := Call(cfg, s, k, task, f);
    if PastTheSwitch(next) {
      if PastTheSwitch(task) {
        PassedBeforeGrows(h, events, |h|, k, task.env);
      } else {
        assert events == [SwitchPassed(k, next.env)];
        assert (h + events)[|h|] == SwitchPassed(k, next.env);
      }
    }
  }

  lemma CallActs(cfg: Config, s: Store, h: seq<Event>, k: nat, task: Task, f: Fault)
    requires ActsPassed(h) && (PastTheSwitch(task) ==> PassedBefore(h, |h|, k, task.env))
    ensures ActsPassed(h + Call(cfg, s, k, task, f).2)
  {
    var events := Call(cfg, s, k, task, f).2;
    var after := h + events;
    forall c | 0 <= c < |after| && (after[c].ClaimRead? || after[c].Commit?) ensures PassedBefore(after, c, after[c].task, after[c].env) {
      if c < |h| {
        assert after[c] == h[c];
        PassedBeforeGrows(h, events, c, h[c].task, h[c].env);
      } else {
        assert after[c] == events[0] && events[0].task == k && events[0].env == task.env;
        PassedBeforeGrows(h, events, |h|, k, task.env);
      }
    }
  }

  lemma CallPassesWhenOff(cfg: Config, b: Business, s: Store, h: seq<Event>, k: nat, task: Task, f: Fault)
    requires PassedWhenOff(cfg, b, h) && BusinessOf(s) == Replay(cfg, b, h)
    requires task.Running? ==> Carries(cfg, task.env, task.pc)
    ensures PassedWhenOff(cfg, b, h + Call(cfg, s, k, task, f).2)
  {
    var events := Call(cfg, s, k, task, f).2;
    var after := h + events;
    forall r | 0 <= r < |after| && after[r].SwitchPassed? && Stoppable(cfg, after[r].env)
      ensures !Policy.Active(Replay(cfg, b, after[..r]).killSwitch)
    {
      if r < |h| {
        assert after[r] == h[r] && after[..r] == h[..r];
      } else {
        assert after[..r] == h;
        assert after[r] == events[0] == SwitchPassed(k, task.env);
      }
    }
  }

  lemma MoveKeepsSwitch(cfg: Config, s0: Store, w: World, m: Move)
    requires SwitchInvariant(cfg, s0, w) && Invariant(cfg, s0, w)
    ensures SwitchInvariant(cfg, s0, Moved(cfg, w, m))
  {
    match m
    case Arrive(req) =>
      assert !PastTheSwitch(Admitted(cfg, req));
    case Advance(k, f) =>
      if k < |w.tasks| {
        var h, task := w.history, w.tasks[k];
        var (_, next, events) := Call(cfg, w.store, k, task, f);
        assert TaskOk(cfg, h, k, task);
        CallPasses(cfg, w.store, h, k, task, f);
        CallActs(cfg, w.store, h, k, task, f);
        CallPassesWhenOff(cfg, BusinessOf(s0), w.store, h, k, task, f);
        OthersStayPassed(w.tasks, h, k, next, events);
      }
  }

  lemma OthersStayPassed(tasks: seq<Task>, h: seq<Event>, k: nat, next: Task, events: seq<Event>)
    requires TasksPassed(tasks, h) && k < |tasks|
    requires PastTheSwitch(next) ==> PassedBefore(h + events, |h + events|, k, next.env)
    ensures TasksPassed(tasks[k := next], h + events)
  {
    var after := tasks[k := next];
    forall j | 0 <= j < |after| && PastTheSwitch(after[j]) ensures PassedBefore(h + events, |h + events|, j, after[j].env) {
      if j != k {
        PassedBeforeGrows(h, events, |h|, j, tasks[j].env);
      }
    }
  }

  lemma {:induction false} SwitchAlways(cfg: Config, s: Store, moves: seq<Move>)
    ensures SwitchInvariant(cfg, s, Play(cfg, s, moves))
  {
    if moves != [] {
      var n := |moves| - 1;
      SwitchAlways(cfg, s, moves[..n]);
      InvariantAlways(cfg, s, moves[..n]);
      MoveKeepsSwitch(cfg, s, Play(cfg, s, moves[..n]), moves[n]);
    }
  }

  // ---------- what an activation stops ----------

  /** From an activation on, the switch stays on until an event turns it off. */
  lemma {:induction false} StaysOn(cfg: Config, b: Business, h: seq<Event>, a: nat, n: nat)
    requires a < n <= |h| && Activates(cfg, h[a]) && forall i :: a < i < n ==> !Deactivates(cfg, h[i])
    ensures Policy.Active(Replay(cfg, b, h[..n]).killSwitch)
  {
    assert h[..n][..n - 1] == h[..n - 1];
    if a < n - 1 {
      StaysOn(cfg, b, h, a, n - 1);
    }
  }

  /**
    However requests interleave: after an activation, and until a deactivation, any effect that commits but a
    deactivation's belongs to a run that had passed the switch before the activation.
   */
  lemma ActivationStopsTheRest(cfg: Config, s: Store, moves: seq<Move>, a: nat, c: nat)
    requires var h := Play(cfg, s, moves).history;
      && a < c < |h| && Activates(cfg, h[a]) && (forall i :: a < i < c ==> !Deactivates(cfg, h[i]))
      && h[c].Commit? && Stoppable(cfg, h[c].env)
    ensures var h := Play(cfg, s, moves).history;
      PassedBefore(h, a, h[c].task, h[c].env)
  {
    SwitchAlways(cfg, s, moves);
    PassedBeforeActivation(cfg, BusinessOf(s), Play(cfg, s, moves).history, a, c);
  }

  lemma PassedBeforeActivation(cfg: Config, b: Business, h: seq<Event>, a: nat, c: nat)
    requires ActsPassed(h) && PassedWhenOff(cfg, b, h)
    requires a < c < |h| && Activates(cfg, h[a]) && (forall i :: a < i < c ==> !Deactivates(cfg, h[i]))
    requires h[c].Commit? && Stoppable(cfg, h[c].env)
    ensures PassedBefore(h, a, h[c].task, h[c].env)
  {
    assert PassedBefore(h, c, h[c].task, h[c].env);
    var r :| 0 <= r < c && h[r] == SwitchPassed(h[c].task, h[c].env);
    if a < r {
      StaysOn(cfg, b, h, a, r);
    }
  }

  /** Such late effects are possible: a settlement that has passed the switch commits after it is turned on. */
  lemma LateCommitIsPossible(cfg: Config, s: Store, settle: Request, activate: Request, env: Envelope, cmd: Command)
    requires Ready(cfg, s, env, cmd) && Admitted(cfg, settle) == Running(env, Start(cfg, env))
    requires activate.PostKillSwitch? && activate.active && IsCeo(cfg, activate.decidedBy)
    ensures exists x :: Reachable(cfg, s, x) && x.store.Locked() && x.store.ledger == s.ledger + [RowOf(cfg, env, cmd)]
  {
    var x := BothArrive(cfg, s, settle, activate);
    x := ReadsThrough(cfg, s, x, 0, env, cmd);
    x := SwitchesOn(cfg, s, x, 1);
    x := CommitsThrough(cfg, s, x, 0, env, cmd);
  }

  lemma SwitchesOn(cfg: Config, s: Store, w: World, k: nat) returns (x: World)
    requires Reachable(cfg, s, w) && k < |w.tasks| && w.tasks[k].Switching? && w.tasks[k].active
    ensures Reachable(cfg, s, x) && OthersWait(w, x, k) && x.store.Locked()
    ensures x.store == w.store.(killSwitch := x.store.killSwitch)
  {
    ReachableThen(cfg, s, w, Advance(k, Fine));
    x := Moved(cfg, w, Advance(k, Fine));
  }
}
