/**
  Settlements of one claim when requests interleave. A run decides on the claim as it read it; so a second settlement
  is one that read the claim before the first committed, and without such overlaps the serial bounds hold.
 */
module ClaimLaws {
  import opened Json
  import opened Domain
  import opened Repository
  import opened Pipeline
  import opened PipelineLaws
  import opened SerialRuns
  import opened MoneyLaws
  import opened Interleaved
  import opened InterleavedLaws
  import opened SwitchLaws
  import Policy

  // ---------- events about a claim ----------

  /** A committed effect on a claim. */
  predicate OnClaim(cfg: Config, e: Event, claimId: Id) {
    && e.Commit? && ParseCommand(cfg, e.env.content).Some?
    && var cmd := ParseCommand(cfg, e.env.content).value;
    && cmd.IsClaim() && cmd.claimId == claimId
  }

  predicate Settling(cfg: Config, e: Event) {
    e.Commit? && ParseCommand(cfg, e.env.content).Some? && ParseCommand(cfg, e.env.content).value.SettlementApprove?
  }

  function ClaimIdOf(cfg: Config, e: Event): Id
    requires Settling(cfg, e)
  {
    ParseCommand(cfg, e.env.content).value.claimId
  }

  ghost predicate ReadBefore(h: seq<Event>, n: nat, k: nat, env: Envelope)
    requires n <= |h|
  {
    exists r :: 0 <= r < n && h[r] == ClaimRead(k, env)
  }

  /** The run behind commit d had read its claim when c committed. */
  ghost predicate Overlap(h: seq<Event>, c: nat, d: nat)
    requires c < d < |h| && h[d].Commit?
  {
    ReadBefore(h, c, h[d].task, h[d].env)
  }

  // ---------- claims as events leave them ----------

  predicate OpenIn(claims: map<Id, Claim>, claimId: Id) { claimId in claims && claims[claimId].Open() }

  function ClaimIn(claims: map<Id, Claim>, claimId: Id): Option<Claim> {
    if claimId in claims then Some(claims[claimId]) else None
  }

  /** What the policy asks of the claim a run has read. */
  ghost predicate Fit(cfg: Config, env: Envelope, cmd: Command, claim: Option<Claim>) {
    exists ks :: Policy.Permitted(cmd, Policy.Context(ks, claim, false, cfg.threshold), ResolveRole(cfg, env))
  }

  /** The claims when event r happened. */
  function ClaimsAt(cfg: Config, b: Business, h: seq<Event>, r: nat): map<Id, Claim>
    requires r <= |h|
  {
    Replay(cfg, b, h[..r]).claims
  }

  /** After a commit on a claim, the claim is open no more. */
  lemma {:induction false} ClosedStays(cfg: Config, b: Business, h: seq<Event>, c: nat, n: nat, claimId: Id)
    requires c < n <= |h| && OnClaim(cfg, h[c], claimId)
    ensures !OpenIn(ClaimsAt(cfg, b, h, n), claimId)
  {
    assert h[..n][..n - 1] == h[..n - 1];
    if c < n - 1 {
      ClosedStays(cfg, b, h, c, n - 1, claimId);
    }
  }

  /** Between commits on it, a claim does not change. */
  lemma {:induction false} Untouched(cfg: Config, b: Business, h: seq<Event>, r: nat, n: nat, claimId: Id)
    requires r <= n <= |h| && forall c :: r <= c < n ==> !OnClaim(cfg, h[c], claimId)
    ensures ClaimIn(ClaimsAt(cfg, b, h, n), claimId) == ClaimIn(ClaimsAt(cfg, b, h, r), claimId)
  {
    if r < n {
      assert h[..n][..n - 1] == h[..n - 1];
      Untouched(cfg, b, h, r, n - 1, claimId);
    }
  }

  lemma {:induction false} OpenFromTheStart(cfg: Config, b: Business, h: seq<Event>, claimId: Id)
    ensures OpenIn(Replay(cfg, b, h).claims, claimId) ==> OpenIn(b.claims, claimId)
  {
    if h != [] {
      OpenFromTheStart(cfg, b, h[..|h| - 1], claimId);
    }
  }

  // ---------- the invariant ----------

  /** Run k read its claim at r, and found `claim`. */
  ghost predicate Saw(cfg: Config, b: Business, h: seq<Event>, r: nat, k: nat, env: Envelope, cmd: Command, claim: Option<Claim>)
    requires r < |h| && cmd.IsClaim()
  {
    h[r] == ClaimRead(k, env) && claim == ClaimIn(ClaimsAt(cfg, b, h, r), cmd.claimId)
  }

  ghost predicate SawBefore(cfg: Config, b: Business, h: seq<Event>, n: nat, k: nat, env: Envelope, cmd: Command, claim: Option<Claim>)
    requires n <= |h| && cmd.IsClaim()
  {
    exists r :: 0 <= r < n && Saw(cfg, b, h, r, k, env, cmd, claim)
  }

  ghost predicate SawFit(cfg: Config, b: Business, h: seq<Event>, n: nat, k: nat, env: Envelope, cmd: Command)
    requires n <= |h| && cmd.IsClaim()
  {
    exists claim :: Fit(cfg, env, cmd, claim) && SawBefore(cfg, b, h, n, k, env, cmd, claim)
  }

  /** A run past its read remembers the claim it read, and past the policy that claim was fit. */
  ghost predicate TaskSaw(cfg: Config, b: Business, h: seq<Event>, k: nat, task: Task) {
    task.Running? ==>
      && (task.pc.ReadConsumed? && task.pc.cmd.IsClaim() ==> SawBefore(cfg, b, h, |h|, k, task.env, task.pc.cmd, task.pc.claim))
      && (4 <= Rank(task.pc) <= 7 && task.pc.cmd.IsClaim() ==> SawFit(cfg, b, h, |h|, k, task.env, task.pc.cmd))
  }

  ghost predicate TasksSaw(cfg: Config, b: Business, h: seq<Event>, tasks: seq<Task>) {
    forall k :: 0 <= k < |tasks| ==> TaskSaw(cfg, b, h, k, tasks[k])
  }

  /** Every committed effect on a claim comes of a read that found the claim fit. */
  ghost predicate CommitSaw(cfg: Config, b: Business, h: seq<Event>, d: nat)
    requires d < |h|
  {
    h[d].Commit? && ParseCommand(cfg, h[d].env.content).Some? && ParseCommand(cfg, h[d].env.content).value.IsClaim() ==>
      SawFit(cfg, b, h, d, h[d].task, h[d].env, ParseCommand(cfg, h[d].env.content).value)
  }

  ghost predicate CommitsSaw(cfg: Config, b: Business, h: seq<Event>) {
    forall d :: 0 <= d < |h| ==> CommitSaw(cfg, b, h, d)
  }

  ghost predicate ReadInvariant(cfg: Config, b: Business, w: World) {
    TasksSaw(cfg, b, w.history, w.tasks) && CommitsSaw(cfg, b, w.history)
  }

  lemma SawGrows(cfg: Config, b: Business, h: seq<Event>, g: seq<Event>, n: nat, k: nat, env: Envelope, cmd: Command, claim: Option<Claim>)
    requires n <= |h| && cmd.IsClaim() && SawBefore(cfg, b, h, n, k, env, cmd, claim)
    ensures SawBefore(cfg, b, h + g, n, k, env, cmd, claim) && SawBefore(cfg, b, h + g, |h + g|, k, env, cmd, claim)
  {
    var r :| 0 <= r < n && Saw(cfg, b, h, r, k, env, cmd, claim);
    assert (h + g)[..r] == h[..r];
    assert Saw(cfg, b, h + g, r, k, env, cmd, claim);
  }

  lemma SawFitGrows(cfg: Config, b: Business, h: seq<Event>, g: seq<Event>, n: nat, k: nat, env: Envelope, cmd: Command)
    requires n <= |h| && cmd.IsClaim() && SawFit(cfg, b, h, n, k, env, cmd)
    ensures SawFit(cfg, b, h + g, n, k, env, cmd) && SawFit(cfg, b, h + g, |h + g|, k, env, cmd)
  {
    var claim :| Fit(cfg, env, cmd, claim) && SawBefore(cfg, b, h, n, k, env, cmd, claim);
    SawGrows(cfg, b, h, g, n, k, env, cmd, claim);
  }

  lemma TaskSawGrows(cfg: Config, b: Business, h: seq<Event>, g: seq<Event>, k: nat, task: Task)
    requires TaskSaw(cfg, b, h, k, task)
    ensures TaskSaw(cfg, b, h + g, k, task)
  {
    if task.Running? && 3 <= Rank(task.pc) <= 7 && task.pc.cmd.IsClaim() {
      if task.pc.ReadConsumed? {
        SawGrows(cfg, b, h, g, |h|, k, task.env, task.pc.cmd, task.pc.claim);
      } else {
        SawFitGrows(cfg, b, h, g, |h|, k, task.env, task.pc.cmd);
      }
    }
  }

  lemma CommitSawGrows(cfg: Config, b: Business, h: seq<Event>, g: seq<Event>, d: nat)
    requires d < |h| && CommitSaw(cfg, b, h, d)
    ensures CommitSaw(cfg, b, h + g, d)
  {
    var e := h[d];
    assert (h + g)[d] == e;
    if e.Commit? && ParseCommand(cfg, e.env.content).Some? && ParseCommand(cfg, e.env.content).value.IsClaim() {
      SawFitGrows(cfg, b, h, g, d, e.task, e.env, ParseCommand(cfg, e.env.content).value);
    }
  }

  // ---------- one call keeps it ----------

  /** The policy lets through only what is fit. */
  lemma AllowedIsFit(cfg: Config, env: Envelope, cmd: Command, killSwitch: Option<KillSwitchRow>, claim: Option<Claim>, consumed: bool)
    requires Decide(cfg, env, cmd, killSwitch, claim, consumed) == Policy.Allow
    ensures Fit(cfg, env, cmd, claim) && !consumed
  {
    Policy.AllowedExactlyWhenPermitted(cmd, Policy.Context(killSwitch, claim, consumed, cfg.threshold), ResolveRole(cfg, env));
    assert Policy.Permitted(cmd, Policy.Context(killSwitch, claim, false, cfg.threshold), ResolveRole(cfg, env));
  }

  /** The steps by which a run comes past its read and past the policy. */
  lemma NextSees(cfg: Config, s: Store, env: Envelope, pc: Pc, f: Fault)
    requires !pc.Finished?
    ensures var next := Advanced(cfg, s, env, pc, f).1;
      && (next.ReadConsumed? && next.cmd.IsClaim() ==>
            (pc.ReadClaim? && f.Fine? && pc.cmd == next.cmd && next.claim == ClaimOf(s, next.cmd))
            || (pc.ReadKillSwitch? && !pc.cmd.IsClaim() && pc.cmd == next.cmd))
      && (4 <= Rank(next) <= 7 ==> 3 <= Rank(pc) <= 6 && pc.cmd == next.cmd)
      && (4 <= Rank(next) <= 7 && pc.ReadConsumed? ==>
            Decide(cfg, env, pc.cmd, pc.killSwitch, pc.claim, CommandId(cfg, env) in s.consumed) == Policy.Allow)
  {
  }

  lemma RunningSees(cfg: Config, b: Business, s: Store, h: seq<Event>, k: nat, env: Envelope, pc: Pc, f: Fault)
    requires TaskSaw(cfg, b, h, k, Running(env, pc)) && !pc.Finished? && BusinessOf(s) == Replay(cfg, b, h)
    ensures TaskSaw(cfg, b, h + Happened(cfg, s, k, env, pc, f), k, Running(env, Advanced(cfg, s, env, pc, f).1))
  {
    var next, g := Advanced(cfg, s, env, pc, f).1, Happened(cfg, s, k, env, pc, f);
    NextSees(cfg, s, env, pc, f);
    TaskSawGrows(cfg, b, h, g, k, Running(env, pc));
    if next.ReadConsumed? && next.cmd.IsClaim() {
      assert g == [ClaimRead(k, env)];
      assert (h + g)[..|h|] == h;
      assert Saw(cfg, b, h + g, |h|, k, env, next.cmd, next.claim);
    } else if 4 <= Rank(next) <= 7 && next.cmd.IsClaim() && pc.ReadConsumed? {
      AllowedIsFit(cfg, env, pc.cmd, pc.killSwitch, pc.claim, CommandId(cfg, env) in s.consumed);
    }
  }

  lemma CallSees(cfg: Config, b: Business, s: Store, h: seq<Event>, k: nat, task: Task, f: Fault)
    requires TaskSaw(cfg, b, h, k, task) && BusinessOf(s) == Replay(cfg, b, h)
    ensures var (_, next, events) := Call(cfg, s, k, task, f); TaskSaw(cfg, b, h + events, k, next)
  {
    if task.Running? && !task.pc.Finished? {
      RunningSees(cfg, b, s, h, k, task.env, task.pc, f);
    } else {
      var next := Call(cfg, s, k, task, f).1;
      assert next.Running? ==> next.pc == Start(cfg, next.env);
    }
  }

  lemma CallCommitsSaw(cfg: Config, b: Business, s: Store, h: seq<Event>, k: nat, task: Task, f: Fault)
    requires CommitsSaw(cfg, b, h) && TaskSaw(cfg, b, h, k, task) && (task.Running? ==> Carries(cfg, task.env, task.pc))
    ensures CommitsSaw(cfg, b, h + Call(cfg, s, k, task, f).2)
  {
    var events := Call(cfg, s, k, task, f).2;
    var after := h + events;
    forall d | 0 <= d < |after| ensures CommitSaw(cfg, b, after, d) {
      if d < |h| {
        CommitSawGrows(cfg, b, h, events, d);
      } else if after[d].Commit? {
        assert after[d] == events[0] == Commit(k, task.env) && task.pc.Effect?;
        if task.pc.cmd.IsClaim() {
          SawFitGrows(cfg, b, h, events, |h|, k, task.env, task.pc.cmd);
        }
      }
    }
  }

  lemma MoveKeepsReads(cfg: Config, s0: Store, w: World, m: Move)
    requires ReadInvariant(cfg, BusinessOf(s0), w) && Invariant(cfg, s0, w)
    ensures ReadInvariant(cfg, BusinessOf(s0), Moved(cfg, w, m))
  {
    var b, h := BusinessOf(s0), w.history;
    match m
    case Arrive(req) =>
      var task := Admitted(cfg, req);
      assert task.Running? ==> task.pc == Start(cfg, task.env);
    case Advance(k, f) =>
      if k < |w.tasks| {
        var (_, next, events) := Call(cfg, w.store, k, w.tasks[k], f);
        assert TaskOk(cfg, h, k, w.tasks[k]);
        CallSees(cfg, b, w.store, h, k, w.tasks[k], f);
        CallCommitsSaw(cfg, b, w.store, h, k, w.tasks[k], f);
        forall j | 0 <= j < |w.tasks| && j != k ensures TaskSaw(cfg, b, h + events, j, w.tasks[j]) {
          TaskSawGrows(cfg, b, h, events, j, w.tasks[j]);
        }
      }
  }

  lemma {:induction false} ReadsAlways(cfg: Config, s: Store, moves: seq<Move>)
    ensures ReadInvariant(cfg, BusinessOf(s), Play(cfg, s, moves))
  {
    if moves != [] {
      var n := |moves| - 1;
      ReadsAlways(cfg, s, moves[..n]);
      InvariantAlways(cfg, s, moves[..n]);
      MoveKeepsReads(cfg, s, Play(cfg, s, moves[..n]), moves[n]);
    }
  }

  // ---------- a second settlement overlaps the first ----------

  lemma FitIsOpen(cfg: Config, env: Envelope, cmd: Command, claim: Option<Claim>)
    requires cmd.IsClaim() && Fit(cfg, env, cmd, claim)
    ensures claim.Some?
    ensures cmd.SettlementApprove? ==> claim.value.Open() && Eur(claim.value.amount) <= cmd.maxAmount
    ensures cmd.SettlementReject? ==> claim.value.status !in {Regle, Cloture}
  {
  }

  /**
    A settlement after any effect on its claim read the claim, and so had passed the kill-switch, before that effect
    committed.
   */
  lemma SettlementsOverlap(cfg: Config, s: Store, moves: seq<Move>, c: nat, d: nat)
    requires var h := Play(cfg, s, moves).history;
      c < d < |h| && Settling(cfg, h[d]) && OnClaim(cfg, h[c], ClaimIdOf(cfg, h[d]))
    ensures var h := Play(cfg, s, moves).history;
      Overlap(h, c, d) && PassedBefore(h, c, h[d].task, h[d].env)
  {
    var h := Play(cfg, s, moves).history;
    ReadsAlways(cfg, s, moves);
    SwitchAlways(cfg, s, moves);
    SettlementReadBefore(cfg, BusinessOf(s), h, c, d);
    ReadIsPassed(h, c, h[d].task, h[d].env);
  }

  lemma SettlementReadBefore(cfg: Config, b: Business, h: seq<Event>, c: nat, d: nat)
    requires CommitsSaw(cfg, b, h)
    requires c < d < |h| && Settling(cfg, h[d]) && OnClaim(cfg, h[c], ClaimIdOf(cfg, h[d]))
    ensures Overlap(h, c, d)
  {
    var cmd := ParseCommand(cfg, h[d].env.content).value;
    var r := ReadOf(cfg, b, h, d, cmd);
    if c < r {
      ClosedStays(cfg, b, h, c, r, cmd.claimId);
    }
  }

  /** The read an effect on a claim comes of. */
  lemma ReadOf(cfg: Config, b: Business, h: seq<Event>, d: nat, cmd: Command) returns (r: nat)
    requires CommitsSaw(cfg, b, h) && d < |h| && h[d].Commit?
    requires ParseCommand(cfg, h[d].env.content) == Some(cmd) && cmd.IsClaim()
    ensures r < d && h[r] == ClaimRead(h[d].task, h[d].env)
    ensures Fit(cfg, h[d].env, cmd, ClaimIn(ClaimsAt(cfg, b, h, r), cmd.claimId))
    ensures cmd.SettlementApprove? ==> OpenIn(ClaimsAt(cfg, b, h, r), cmd.claimId)
  {
    assert CommitSaw(cfg, b, h, d);
    var claim :| Fit(cfg, h[d].env, cmd, claim) && SawBefore(cfg, b, h, d, h[d].task, h[d].env, cmd, claim);
    r :| 0 <= r < d && Saw(cfg, b, h, r, h[d].task, h[d].env, cmd, claim);
    FitIsOpen(cfg, h[d].env, cmd, claim);
  }

  lemma ReadIsPassed(h: seq<Event>, c: nat, k: nat, env: Envelope)
    requires ActsPassed(h) && c <= |h| && ReadBefore(h, c, k, env)
    ensures PassedBefore(h, c, k, env)
  {
    var r :| 0 <= r < c && h[r] == ClaimRead(k, env);
    assert PassedBefore(h, r, k, env);
    var q :| 0 <= q < r && h[q] == SwitchPassed(k, env);
  }

  // ---------- rows and settlements ----------

  /** The rows the committed settlements of a history add, in order. */
  function Rows(cfg: Config, h: seq<Event>): seq<LedgerRow> {
    if h == [] then []
    else
      var n := |h| - 1;
      if Settling(cfg, h[n]) then Rows(cfg, h[..n]) + [RowOf(cfg, h[n].env, ParseCommand(cfg, h[n].env.content).value)]
      else Rows(cfg, h[..n])
  }

  /** Where those settlements are. */
  function Settlements(cfg: Config, h: seq<Event>): (ps: seq<nat>)
    ensures forall i :: 0 <= i < |ps| ==> ps[i] < |h| && Settling(cfg, h[ps[i]])
    ensures forall i, j :: 0 <= i < j < |ps| ==> ps[i] < ps[j]
  {
    if h == [] then []
    else
      var n := |h| - 1;
      if Settling(cfg, h[n]) then Settlements(cfg, h[..n]) + [n] else Settlements(cfg, h[..n])
  }

  lemma {:induction false} LedgerIsRows(cfg: Config, b: Business, h: seq<Event>)
    ensures Replay(cfg, b, h).ledger == b.ledger + Rows(cfg, h)
  {
    if h != [] {
      LedgerIsRows(cfg, b, h[..|h| - 1]);
    }
  }

  lemma {:induction false} RowsAreSettlements(cfg: Config, h: seq<Event>)
    ensures |Rows(cfg, h)| == |Settlements(cfg, h)|
    ensures forall i :: 0 <= i < |Rows(cfg, h)| ==>
      var e := h[Settlements(cfg, h)[i]]; Rows(cfg, h)[i] == RowOf(cfg, e.env, ParseCommand(cfg, e.env.content).value)
  {
    if h != [] {
      RowsAreSettlements(cfg, h[..|h| - 1]);
    }
  }

  lemma {:induction false} AllSettlements(cfg: Config, h: seq<Event>, d: nat)
    requires d < |h| && Settling(cfg, h[d])
    ensures d in Settlements(cfg, h)
  {
    if d < |h| - 1 {
      AllSettlements(cfg, h[..|h| - 1], d);
    }
  }

  lemma NewRows(cfg: Config, s: Store, moves: seq<Move>)
    ensures var w := Play(cfg, s, moves);
      s.ledger <= w.store.ledger && w.store.ledger[|s.ledger|..] == Rows(cfg, w.history)
  {
    TablesAreCommits(cfg, s, moves);
    LedgerIsRows(cfg, BusinessOf(s), Play(cfg, s, moves).history);
  }

  // ---------- one row per claim, exactly without overlaps ----------

  predicate OneRowEach(rows: seq<LedgerRow>) { forall i, j :: 0 <= i < j < |rows| ==> rows[i].claimId != rows[j].claimId }

  predicate SameClaim(cfg: Config, a: Event, b: Event) {
    Settling(cfg, a) && Settling(cfg, b) && ClaimIdOf(cfg, a) == ClaimIdOf(cfg, b)
  }

  /** Two settlements of one claim, the later of which had read the claim when the earlier committed. */
  ghost predicate SettlementsCross(cfg: Config, h: seq<Event>) {
    exists c, d :: 0 <= c < d < |h| && SameClaim(cfg, h[c], h[d]) && Overlap(h, c, d)
  }

  lemma RowsOfPair(cfg: Config, h: seq<Event>, c: nat, d: nat)
    requires c < d < |h| && SameClaim(cfg, h[c], h[d])
    ensures !OneRowEach(Rows(cfg, h))
  {
    var ps := Settlements(cfg, h);
    RowsAreSettlements(cfg, h);
    AllSettlements(cfg, h, c);
    AllSettlements(cfg, h, d);
    var i :| 0 <= i < |ps| && ps[i] == c;
    var j :| 0 <= j < |ps| && ps[j] == d;
    assert i < j;
    assert Rows(cfg, h)[i].claimId == Rows(cfg, h)[j].claimId;
  }

  lemma PairOfRows(cfg: Config, h: seq<Event>) returns (c: nat, d: nat)
    requires !OneRowEach(Rows(cfg, h))
    ensures c < d < |h| && SameClaim(cfg, h[c], h[d])
  {
    RowsAreSettlements(cfg, h);
    var i, j :| 0 <= i < j < |Rows(cfg, h)| && Rows(cfg, h)[i].claimId == Rows(cfg, h)[j].claimId;
    c, d := Settlements(cfg, h)[i], Settlements(cfg, h)[j];
  }

  lemma CrossExactly(cfg: Config, b: Business, h: seq<Event>)
    requires CommitsSaw(cfg, b, h)
    ensures OneRowEach(Rows(cfg, h)) <==> !SettlementsCross(cfg, h)
  {
    if SettlementsCross(cfg, h) {
      var c, d :| 0 <= c < d < |h| && SameClaim(cfg, h[c], h[d]) && Overlap(h, c, d);
      RowsOfPair(cfg, h, c, d);
    } else if !OneRowEach(Rows(cfg, h)) {
      var c, d := PairOfRows(cfg, h);
      SettlementReadBefore(cfg, b, h, c, d);
    }
  }

  /** However requests interleave, every claim gets at most one row exactly when no two settlements of a claim cross. */
  lemma OneRowExactly(cfg: Config, s: Store, moves: seq<Move>)
    ensures var w := Play(cfg, s, moves);
      && s.ledger <= w.store.ledger
      && (OneRowEach(w.store.ledger[|s.ledger|..]) <==> !SettlementsCross(cfg, w.history))
  {
    NewRows(cfg, s, moves);
    ReadsAlways(cfg, s, moves);
    CrossExactly(cfg, BusinessOf(s), Play(cfg, s, moves).history);
  }

  // ---------- payouts ----------

  /** Whatever crosses, a settled claim was open at the start. */
  lemma SettledWasOpen(cfg: Config, b: Business, h: seq<Event>, d: nat)
    requires CommitsSaw(cfg, b, h) && d < |h| && Settling(cfg, h[d])
    ensures OpenIn(b.claims, ClaimIdOf(cfg, h[d]))
  {
    var r := ReadOf(cfg, b, h, d, ParseCommand(cfg, h[d].env.content).value);
    OpenFromTheStart(cfg, b, h[..r], ClaimIdOf(cfg, h[d]));
  }

  /** And its row pays at most the threshold. */
  lemma RowIsCapped(cfg: Config, env: Envelope, cmd: Command)
    requires cmd.SettlementApprove? && cmd.maxAmount > 0.0 && cfg.threshold > 0.0
    ensures -RowOf(cfg, env, cmd).amount <= Cents(cfg.threshold)
  {
    CentsMonotone(Min(cmd.maxAmount, cfg.threshold), cfg.threshold);
  }

  lemma RowsAreModest(cfg: Config, b: Business, h: seq<Event>, i: nat)
    requires CommitsSaw(cfg, b, h) && i < |Rows(cfg, h)| && Bounded(cfg) && cfg.threshold > 0.0
    ensures OpenIn(b.claims, Rows(cfg, h)[i].claimId) && -Rows(cfg, h)[i].amount <= Cents(cfg.threshold)
  {
    RowsAreSettlements(cfg, h);
    var d := Settlements(cfg, h)[i];
    SettledWasOpen(cfg, b, h, d);
    RowIsCapped(cfg, h[d].env, ParseCommand(cfg, h[d].env.content).value);
  }

  /** Without crossing settlements the serial bound holds of every interleaving: the threshold per claim open at its start. */
  lemma PayoutBoundedUncrossed(cfg: Config, s: Store, moves: seq<Move>)
    requires Bounded(cfg) && cfg.threshold > 0.0 && !SettlementsCross(cfg, Play(cfg, s, moves).history)
    ensures s.ledger <= Play(cfg, s, moves).store.ledger
    ensures var rows := Play(cfg, s, moves).store.ledger[|s.ledger|..];
      |rows| <= |OpenClaims(s)| && Paid(rows) <= Cents(cfg.threshold) * |OpenClaims(s)|
  {
    var h := Play(cfg, s, moves).history;
    NewRows(cfg, s, moves);
    ReadsAlways(cfg, s, moves);
    CrossExactly(cfg, BusinessOf(s), h);
    forall i | 0 <= i < |Rows(cfg, h)| ensures Rows(cfg, h)[i].claimId in OpenClaims(s) && -Rows(cfg, h)[i].amount <= Cents(cfg.threshold) {
      RowsAreModest(cfg, BusinessOf(s), h, i);
    }
    DistinctRowsPayBounded(Rows(cfg, h), OpenClaims(s), Cents(cfg.threshold));
  }

  // ---------- without any overlap, the serial law ----------

  /** No effect on a claim commits between another's read of that claim and its commit. */
  ghost predicate InTurn(cfg: Config, h: seq<Event>) {
    forall c, d, claimId :: 0 <= c < d < |h| && OnClaim(cfg, h[c], claimId) && OnClaim(cfg, h[d], claimId) ==> !Overlap(h, c, d)
  }

  /** An effect in turn finds its claim as the policy was shown it. */
  lemma InTurnIsCurrent(cfg: Config, b: Business, h: seq<Event>, d: nat, cmd: Command)
    requires CommitsSaw(cfg, b, h) && InTurn(cfg, h) && d < |h| && h[d].Commit?
    requires ParseCommand(cfg, h[d].env.content) == Some(cmd) && cmd.IsClaim()
    ensures Fit(cfg, h[d].env, cmd, ClaimIn(ClaimsAt(cfg, b, h, d), cmd.claimId))
  {
    var r := ReadOf(cfg, b, h, d, cmd);
    assert OnClaim(cfg, h[d], cmd.claimId);
    forall c | r <= c < d ensures !OnClaim(cfg, h[c], cmd.claimId) {
      if OnClaim(cfg, h[c], cmd.claimId) {
        assert r < c && !Overlap(h, c, d);
        assert ReadBefore(h, c, h[d].task, h[d].env);
        assert false;
      }
    }
    Untouched(cfg, b, h, r, d, cmd.claimId);
  }

  function Placed(s: Store, b: Business): Store { s.(claims := b.claims, ledger := b.ledger, killSwitch := b.killSwitch) }

  lemma EffectSettles(cfg: Config, s0: Store, b: Business, env: Envelope, cmd: Command)
    requires cfg.threshold > 0.0 && Settled(cfg, s0, Placed(s0, b)) && WithinBounds(cmd)
    requires cmd.IsClaim() ==> Fit(cfg, env, cmd, ClaimIn(b.claims, cmd.claimId))
    ensures Settled(cfg, s0, Placed(s0, Meaning(b, cfg.threshold, cmd, env.correlationId)))
  {
    var s, t := Placed(s0, b), Placed(s0, Meaning(b, cfg.threshold, cmd, env.correlationId));
    if cmd.IsClaim() {
      FitIsOpen(cfg, env, cmd, ClaimIn(b.claims, cmd.claimId));
    }
    match cmd
    case SettlementApprove(claimId, maxAmount, _, _, _) =>
      var row := LedgerRow(env.correlationId, claimId, SettlementAmount(maxAmount, cfg.threshold));
      SettlementPaysWithin(cfg, s.claims[claimId], maxAmount, row);
      ApprovalKeepsSettled(cfg, s0, s, t, row);
    case SettlementReject(claimId, _, _, _) => RejectionKeepsSettled(cfg, s0, s, t, claimId);
    case _ =>
  }

  lemma {:induction false} SettledUpTo(cfg: Config, s: Store, h: seq<Event>, n: nat)
    requires CommitsSaw(cfg, BusinessOf(s), h) && InTurn(cfg, h) && n <= |h| && Bounded(cfg) && cfg.threshold > 0.0
    ensures Settled(cfg, s, Placed(s, Replay(cfg, BusinessOf(s), h[..n])))
  {
    var b := BusinessOf(s);
    if n > 0 {
      var e := h[n - 1];
      SettledUpTo(cfg, s, h, n - 1);
      assert h[..n][..n - 1] == h[..n - 1];
      if e.Commit? && ParseCommand(cfg, e.env.content).Some? {
        var cmd := ParseCommand(cfg, e.env.content).value;
        if cmd.IsClaim() {
          InTurnIsCurrent(cfg, b, h, n - 1, cmd);
        }
        EffectSettles(cfg, s, Replay(cfg, b, h[..n - 1]), e.env, cmd);
      }
    }
  }

  /** What holds of every serial run holds of every interleaving whose effects on each claim come in turn. */
  lemma InTurnSettles(cfg: Config, s: Store, moves: seq<Move>)
    requires Bounded(cfg) && cfg.threshold > 0.0 && InTurn(cfg, Play(cfg, s, moves).history)
    ensures Settled(cfg, s, Play(cfg, s, moves).store)
  {
    var w := Play(cfg, s, moves);
    TablesAreCommits(cfg, s, moves);
    ReadsAlways(cfg, s, moves);
    SettledUpTo(cfg, s, w.history, |w.history|);
    assert w.history[..|w.history|] == w.history;
  }

  // ---------- who can still settle a closed claim ----------

  /** The world after more moves. */
  function PlayOn(cfg: Config, w: World, moves: seq<Move>): World
    decreases |moves|
  {
    if moves == [] then w else PlayOn(cfg, Moved(cfg, w, moves[0]), moves[1..])
  }

  predicate CommitsBy(h: seq<Event>, from: nat, k: nat) { exists i :: from <= i < |h| && h[i].Commit? && h[i].task == k }

  /** Some continuation has task k commit its effect. */
  ghost predicate MayCommit(cfg: Config, w: World, k: nat) {
    exists moves :: CommitsBy(PlayOn(cfg, w, moves).history, |w.history|, k)
  }

  /** The run has read all it will read, the policy allows it on what it read, and its id is its own or free. */
  predicate Cleared(cfg: Config, s: Store, env: Envelope, pc: Pc) {
    match pc
    case ReadConsumed(cmd, killSwitch, claim) =>
      CommandId(cfg, env) !in s.consumed && Decide(cfg, env, cmd, killSwitch, claim, false) == Policy.Allow
    case Consume(_) => CommandId(cfg, env) !in s.consumed
    case LinkApproval(_) => true
    case AuditCommand(_) => true
    case Effect(_) => true
    case _ => false
  }

  lemma {:induction false} HistoryGrows(cfg: Config, w: World, moves: seq<Move>)
    ensures w.history <= PlayOn(cfg, w, moves).history
    decreases |moves|
  {
    if moves != [] {
      HistoryGrows(cfg, Moved(cfg, w, moves[0]), moves[1..]);
    }
  }

  /** Left to itself, a cleared run commits. */
  lemma {:induction false} ClearedCommits(cfg: Config, w: World, k: nat, env: Envelope, pc: Pc) returns (moves: seq<Move>)
    requires k < |w.tasks| && w.tasks[k] == Running(env, pc) && Cleared(cfg, w.store, env, pc)
    ensures CommitsBy(PlayOn(cfg, w, moves).history, |w.history|, k)
    decreases 7 - Rank(pc)
  {
    var m := Advance(k, Fine);
    var x := Moved(cfg, w, m);
    if pc.Effect? {
      moves := [m];
      assert PlayOn(cfg, w, moves) == PlayOn(cfg, x, []) == x;
      assert x.history[|w.history|] == Commit(k, env);
    } else {
      StaysCleared(cfg, w.store, env, pc);
      var more := ClearedCommits(cfg, x, k, env, Next(cfg, w.store, env, pc));
      moves := [m] + more;
      assert moves[1..] == more;
    }
  }

  lemma StaysCleared(cfg: Config, s: Store, env: Envelope, pc: Pc)
    requires Cleared(cfg, s, env, pc) && !pc.Effect?
    ensures var next := Next(cfg, s, env, pc); Cleared(cfg, Statement(cfg, s, env, pc), env, next) && Rank(pc) < Rank(next) <= 7
  {
  }

  /** The run cannot commit any more: its claim is closed and it is not cleared. */
  ghost predicate Stuck(cfg: Config, w: World, k: nat, claimId: Id) {
    && k < |w.tasks| && !OpenIn(w.store.claims, claimId)
    && (w.tasks[k] == Closed || (w.tasks[k].Running? && StuckAt(cfg, w.store, w.tasks[k].env, w.tasks[k].pc, claimId)))
  }

  ghost predicate StuckAt(cfg: Config, s: Store, env: Envelope, pc: Pc, claimId: Id) {
    && !Cleared(cfg, s, env, pc)
    && (Rank(pc) <= 7 ==> pc.cmd.SettlementApprove? && pc.cmd.claimId == claimId)
  }

  lemma ClosedIsDenied(cfg: Config, s: Store, env: Envelope, cmd: Command, killSwitch: Option<KillSwitchRow>)
    requires cmd.SettlementApprove? && !OpenIn(s.claims, cmd.claimId)
    ensures Decide(cfg, env, cmd, killSwitch, ClaimOf(s, cmd), false) != Policy.Allow
  {
  }

  lemma StuckNext(cfg: Config, s: Store, env: Envelope, pc: Pc, f: Fault, claimId: Id)
    requires !pc.Finished? && StuckAt(cfg, s, env, pc, claimId) && !OpenIn(s.claims, claimId)
    ensures var (t, next) := Advanced(cfg, s, env, pc, f); StuckAt(cfg, t, env, next, claimId)
    ensures !pc.Effect?
  {
    if pc.ReadClaim? {
      ClosedIsDenied(cfg, s, env, pc.cmd, pc.killSwitch);
    }
  }

  /** No call opens a claim. */
  lemma CallKeepsClosed(cfg: Config, s: Store, k: nat, task: Task, f: Fault, claimId: Id)
    requires !OpenIn(s.claims, claimId)
    ensures !OpenIn(Call(cfg, s, k, task, f).0.claims, claimId)
  {
    if task.Running? {
      StatementKeepsClosed(cfg, s, task.env, task.pc, claimId);
    }
  }

  lemma StatementKeepsClosed(cfg: Config, s: Store, env: Envelope, pc: Pc, claimId: Id)
    requires !OpenIn(s.claims, claimId)
    ensures !OpenIn(Statement(cfg, s, env, pc).claims, claimId)
  {
    if pc.Effect? {
      EffectMeans(s, cfg.threshold, pc.cmd, env.correlationId);
    }
  }

  lemma StuckStays(cfg: Config, w: World, k: nat, claimId: Id, m: Move)
    requires Stuck(cfg, w, k, claimId)
    ensures Stuck(cfg, Moved(cfg, w, m), k, claimId)
    ensures !CommitsBy(Moved(cfg, w, m).history, |w.history|, k)
  {
    if m.Advance? && m.task < |w.tasks| {
      var j, f := m.task, m.fault;
      CallKeepsClosed(cfg, w.store, j, w.tasks[j], f, claimId);
      CallGrows(cfg, w.store, j, w.tasks[j], f);
      if j == k && w.tasks[k].Running? && !w.tasks[k].pc.Finished? {
        StuckNext(cfg, w.store, w.tasks[k].env, w.tasks[k].pc, f, claimId);
      }
    }
  }

  lemma {:induction false} StuckNeverCommits(cfg: Config, w: World, k: nat, claimId: Id, moves: seq<Move>)
    requires Stuck(cfg, w, k, claimId)
    ensures !CommitsBy(PlayOn(cfg, w, moves).history, |w.history|, k)
    decreases |moves|
  {
    if moves != [] {
      var x := Moved(cfg, w, moves[0]);
      StuckStays(cfg, w, k, claimId, moves[0]);
      StuckNeverCommits(cfg, x, k, claimId, moves[1..]);
      HistoryGrows(cfg, x, moves[1..]);
    }
  }

  /**
    Of the runs that would settle a claim which is closed by now, exactly those can still do it that have read the
    claim and may settle it as they read it, their id not taken by another since.
   */
  lemma ClosedClaimSettledExactly(cfg: Config, w: World, k: nat, env: Envelope, pc: Pc)
    requires k < |w.tasks| && w.tasks[k] == Running(env, pc) && Rank(pc) <= 7
    requires pc.cmd.SettlementApprove? && !OpenIn(w.store.claims, pc.cmd.claimId)
    ensures MayCommit(cfg, w, k) <==> Cleared(cfg, w.store, env, pc)
  {
    if Cleared(cfg, w.store, env, pc) {
      var moves := ClearedCommits(cfg, w, k, env, pc);
    } else {
      forall moves ensures !CommitsBy(PlayOn(cfg, w, moves).history, |w.history|, k) {
        StuckNeverCommits(cfg, w, k, pc.cmd.claimId, moves);
      }
    }
  }
}
