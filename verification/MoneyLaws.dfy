/** What whole serial runs pay out, and how they decide. */
module MoneyLaws {
  import opened Text
  import opened Json
  import opened Domain
  import opened Repository
  import opened Pipeline
  import opened Server
  import opened ApprovalLaws
  import opened SerialRuns

  datatype Step = Step(req: Request, faults: RequestFaults)

  /** The store after serving the steps in order. */
  function Run(cfg: Config, s: Store, steps: seq<Step>): Store {
    if steps == [] then s
    else
      var last := steps[|steps| - 1];
      Serve(cfg, Run(cfg, s, steps[..|steps| - 1]), last.req, last.faults).store
  }

  /** What step k of a run is served as. */
  function ServedAt(cfg: Config, s: Store, steps: seq<Step>, k: nat): Served
    requires k < |steps|
  {
    Serve(cfg, Run(cfg, s, steps[..k]), steps[k].req, steps[k].faults)
  }

  lemma RunUpTo(cfg: Config, s: Store, steps: seq<Step>, k: nat)
    requires k < |steps|
    ensures Run(cfg, s, steps[..k + 1]) == ServedAt(cfg, s, steps, k).store
  {
    assert steps[..k + 1][..k] == steps[..k];
  }

  // ---------- settlements ----------

  /** The ways a run moves a claim: an open one is settled, any but a settled or closed one is refused. */
  predicate ClaimMoves(a: Claim, b: Claim) {
    && a.amount == b.amount && a.blocked == b.blocked
    && (a.status == b.status || (a.Open() && b.status == Regle) || (a.status !in {Regle, Cloture} && b.status == Refuse))
  }

  /** A settlement row pays between the lesser of claim and threshold, and the threshold. */
  predicate PaysWithin(cfg: Config, row: LedgerRow, claim: Claim) {
    Cents(Min(Eur(claim.amount), cfg.threshold)) <= -row.amount <= Cents(cfg.threshold)
  }

  /** Where a run from s0 can be: the ledger has only grown, by at most one row per claim that was open. */
  ghost predicate Settled(cfg: Config, s0: Store, s: Store) {
    && s0.ledger <= s.ledger
    && s.claims.Keys == s0.claims.Keys
    && (forall c :: c in s0.claims ==> ClaimMoves(s0.claims[c], s.claims[c]))
    && (forall i :: |s0.ledger| <= i < |s.ledger| ==> RowSettles(cfg, s0, s, s.ledger[i]))
    && (forall i, j :: |s0.ledger| <= i < j < |s.ledger| ==> s.ledger[i].claimId != s.ledger[j].claimId)
  }

  predicate RowSettles(cfg: Config, s0: Store, s: Store, row: LedgerRow) {
    && row.claimId in s0.claims && row.claimId in s.claims
    && s0.claims[row.claimId].Open()
    && s.claims[row.claimId].status == Regle
    && PaysWithin(cfg, row, s0.claims[row.claimId])
  }

  lemma SettlementPaysWithin(cfg: Config, claim: Claim, maxAmount: real, row: LedgerRow)
    requires cfg.threshold > 0.0 && maxAmount > 0.0 && Eur(claim.amount) <= maxAmount
    requires row.amount == SettlementAmount(maxAmount, cfg.threshold)
    ensures PaysWithin(cfg, row, claim)
    ensures -row.amount <= Cents(maxAmount)
  {
    var paid := Min(maxAmount, cfg.threshold);
    assert -row.amount == Cents(paid);
    CentsMonotone(Min(Eur(claim.amount), cfg.threshold), paid);
    CentsMonotone(paid, cfg.threshold);
    CentsMonotone(paid, maxAmount);
  }

  /** A permitted settlement covers its claim exactly when the claim is within the threshold, whoever approved it. */
  lemma CoversClaimExactly(cfg: Config, claim: Claim, maxAmount: real)
    requires cfg.threshold > 0.0 && maxAmount > 0.0 && Eur(claim.amount) <= maxAmount
    ensures -SettlementAmount(maxAmount, cfg.threshold) >= claim.amount <==> claim.amount <= Cents(cfg.threshold)
  {
    var paid := Min(maxAmount, cfg.threshold);
    assert -SettlementAmount(maxAmount, cfg.threshold) == Cents(paid);
    CentsMonotone(paid, cfg.threshold);
    CentsMonotone(Eur(claim.amount), maxAmount);
    CentsOfEur(claim.amount);
  }

  /** A settlement that committed adds one row for its claim, settles it, and covers it exactly when it is within the threshold. */
  lemma CommittedCoversExactly(cfg: Config, s: Store, req: Request, f: RequestFaults)
    requires Bounded(cfg) && KeysNormalize(cfg) && cfg.threshold > 0.0
    requires Serve(cfg, s, req, f).committed.Some?
    requires var parsed := ParseCommand(cfg, Serve(cfg, s, req, f).committed.value.content);
      parsed.Some? && parsed.value.SettlementApprove?
    ensures var t := Serve(cfg, s, req, f).store;
      var claimId := ParseCommand(cfg, Serve(cfg, s, req, f).committed.value.content).value.claimId;
      && claimId in s.claims && claimId in t.claims && t.claims[claimId].status == Regle
      && |t.ledger| == |s.ledger| + 1 && t.ledger[|s.ledger|].claimId == claimId
      && (-t.ledger[|s.ledger|].amount >= s.claims[claimId].amount <==> s.claims[claimId].amount <= Cents(cfg.threshold))
  {
    ServeAccounted(cfg, s, req, f);
    var cmd := ParseCommand(cfg, Serve(cfg, s, req, f).committed.value.content).value;
    CoversClaimExactly(cfg, s.claims[cmd.claimId], cmd.maxAmount);
  }

  lemma StatusMoves(s0: Store, s: Store, t: map<Id, Claim>, claimId: Id, status: ClaimStatus)
    requires claimId in s.claims && t == SetStatus(s.claims, claimId, status)
    requires s.claims.Keys == s0.claims.Keys && forall c :: c in s0.claims ==> ClaimMoves(s0.claims[c], s.claims[c])
    requires status == Regle ==> s.claims[claimId].Open()
    requires status == Refuse ==> s.claims[claimId].status !in {Regle, Cloture}
    requires status == Regle || status == Refuse
    ensures t.Keys == s0.claims.Keys && forall c :: c in s0.claims ==> ClaimMoves(s0.claims[c], t[c])
  {
  }

  lemma ApprovalKeepsSettled(cfg: Config, s0: Store, s: Store, t: Store, row: LedgerRow)
    requires Settled(cfg, s0, s)
    requires row.claimId in s.claims && s.claims[row.claimId].Open() && PaysWithin(cfg, row, s.claims[row.claimId])
    requires t.ledger == s.ledger + [row] && t.claims == SetStatus(s.claims, row.claimId, Regle)
    ensures Settled(cfg, s0, t)
  {
    StatusMoves(s0, s, t.claims, row.claimId, Regle);
    var n := |s.ledger|;
    forall i | |s0.ledger| <= i < |t.ledger| ensures RowSettles(cfg, s0, t, t.ledger[i]) {
      if i < n {
        assert RowSettles(cfg, s0, s, s.ledger[i]);
      } else {
        assert ClaimMoves(s0.claims[row.claimId], s.claims[row.claimId]);
      }
    }
    forall i, j | |s0.ledger| <= i < j < |t.ledger| ensures t.ledger[i].claimId != t.ledger[j].claimId {
      assert RowSettles(cfg, s0, s, s.ledger[i]);
    }
  }

  lemma RejectionKeepsSettled(cfg: Config, s0: Store, s: Store, t: Store, claimId: Id)
    requires Settled(cfg, s0, s)
    requires claimId in s.claims && s.claims[claimId].status !in {Regle, Cloture}
    requires t.ledger == s.ledger && t.claims == SetStatus(s.claims, claimId, Refuse)
    ensures Settled(cfg, s0, t)
  {
    StatusMoves(s0, s, t.claims, claimId, Refuse);
    forall i | |s0.ledger| <= i < |t.ledger| ensures RowSettles(cfg, s0, t, t.ledger[i]) {
      assert RowSettles(cfg, s0, s, s.ledger[i]);
    }
  }

  lemma ServeSettles(cfg: Config, s0: Store, s: Store, req: Request, f: RequestFaults)
    requires Bounded(cfg) && KeysNormalize(cfg) && cfg.threshold > 0.0 && Settled(cfg, s0, s)
    ensures Settled(cfg, s0, Serve(cfg, s, req, f).store)
  {
    ServeAccounted(cfg, s, req, f);
    AccountedSettles(cfg, s0, s, Serve(cfg, s, req, f));
  }

  lemma AccountedSettles(cfg: Config, s0: Store, s: Store, r: Served)
    requires cfg.threshold > 0.0 && Settled(cfg, s0, s) && Accounted(cfg, s, r)
    ensures Settled(cfg, s0, r.store)
  {
    if r.committed.Some? {
      var env := r.committed.value;
      var cmd := ParseCommand(cfg, env.content).value;
      match cmd
      case SettlementApprove(claimId, maxAmount, _, _, _) =>
        var row := LedgerRow(env.correlationId, claimId, SettlementAmount(maxAmount, cfg.threshold));
        SettlementPaysWithin(cfg, s.claims[claimId], maxAmount, row);
        ApprovalKeepsSettled(cfg, s0, s, r.store, row);
      case SettlementReject(claimId, _, _, _) => RejectionKeepsSettled(cfg, s0, s, r.store, claimId);
      case _ =>
    }
  }

  /** Every serial run, failures and all, stays within the settlements its starting claims allow. */
  lemma {:induction false} RunSettles(cfg: Config, s: Store, steps: seq<Step>)
    requires Bounded(cfg) && KeysNormalize(cfg) && cfg.threshold > 0.0
    ensures Settled(cfg, s, Run(cfg, s, steps))
  {
    if steps != [] {
      var n := |steps| - 1;
      RunSettles(cfg, s, steps[..n]);
      ServeSettles(cfg, s, Run(cfg, s, steps[..n]), steps[n].req, steps[n].faults);
    }
  }

  /** The claim an approval is about. */
  function ApprovedClaim(s: Store, corr: Id): Id
    requires corr in s.approvals
  {
    if s.approvals[corr].claimId.Some? then s.approvals[corr].claimId.value else corr
  }

  /** A settlement launched by a CEO decision pays its own approval's claim, and at most the approved amount. */
  lemma DecisionPaysApproved(cfg: Config, s: Store, corr: Id, decidedBy: Id, event: Option<SignedEvent>,
                             reason: Str, approve: bool, now: Str, f: RequestFaults)
    requires Lawful(cfg) && cfg.threshold > 0.0
    requires ServeDecision(cfg, s, corr, decidedBy, event, reason, approve, now, f).committed.Some?
    ensures Pending(s, corr) && s.approvals[corr].amount.Some?
    ensures var ledger := ServeDecision(cfg, s, corr, decidedBy, event, reason, approve, now, f).store.ledger;
      && |ledger| == |s.ledger| + 1 && ledger[..|s.ledger|] == s.ledger
      && ledger[|s.ledger|].claimId == ApprovedClaim(s, corr)
      && -ledger[|s.ledger|].amount <= s.approvals[corr].amount.value
  {
    var ceo := Decider(cfg, decidedBy, event).value;
    var a := WithDecision(s, corr, ceo, reason, approve).approvals[corr];
    var cmd := LaunchedCommand(a, corr, reason, ceo, now);
    LawfulIsBounded(cfg);
    DecisionAccounted(cfg, s, corr, decidedBy, event, reason, approve, now, f);
    MadeTextIsTheCommand(cfg, cmd);
    LaunchedPays(cfg, s.claims[cmd.claimId], cmd.maxAmount, a.amount.value, LedgerRow(corr, cmd.claimId, SettlementAmount(cmd.maxAmount, cfg.threshold)));
  }

  lemma LaunchedPays(cfg: Config, claim: Claim, maxAmount: real, approved: int, row: LedgerRow)
    requires cfg.threshold > 0.0 && maxAmount > 0.0 && Eur(claim.amount) <= maxAmount && maxAmount == Eur(approved)
    requires row.amount == SettlementAmount(maxAmount, cfg.threshold)
    ensures -row.amount <= approved
  {
    SettlementPaysWithin(cfg, claim, maxAmount, row);
    CentsOfEur(approved);
  }

  // ---------- total payout ----------

  function OpenClaims(s: Store): set<Id> {
    set c | c in s.claims && s.claims[c].Open()
  }

  function Paid(rows: seq<LedgerRow>): int {
    if rows == [] then 0 else Paid(rows[..|rows| - 1]) - rows[|rows| - 1].amount
  }

  lemma {:induction false} DistinctRowsPayBounded(rows: seq<LedgerRow>, claims: set<Id>, cap: int)
    requires forall i :: 0 <= i < |rows| ==> rows[i].claimId in claims && -rows[i].amount <= cap
    requires forall i, j :: 0 <= i < j < |rows| ==> rows[i].claimId != rows[j].claimId
    requires cap >= 0
    ensures |rows| <= |claims| && Paid(rows) <= cap * |rows| <= cap * |claims|
  {
    if rows != [] {
      var n := |rows| - 1;
      DistinctRowsPayBounded(rows[..n], claims - {rows[n].claimId}, cap);
      assert cap * |rows| == cap * n + cap;
    }
    MultiplyMonotone(cap, |rows|, |claims|);
  }

  lemma MultiplyMonotone(cap: int, m: int, n: int)
    requires cap >= 0 && m <= n
    ensures cap * m <= cap * n
  {
  }

  /** The rows a run added pay in total at most the threshold for each claim that was open at its start. */
  lemma PayoutBounded(cfg: Config, s: Store, steps: seq<Step>)
    requires Bounded(cfg) && KeysNormalize(cfg) && cfg.threshold > 0.0
    ensures s.ledger <= Run(cfg, s, steps).ledger
    ensures var rows := Run(cfg, s, steps).ledger[|s.ledger|..];
      |rows| <= |OpenClaims(s)| && Paid(rows) <= Cents(cfg.threshold) * |OpenClaims(s)|
  {
    RunSettles(cfg, s, steps);
    var t := Run(cfg, s, steps);
    var rows := t.ledger[|s.ledger|..];
    forall i | 0 <= i < |rows| ensures rows[i].claimId in OpenClaims(s) && -rows[i].amount <= Cents(cfg.threshold) {
      assert RowSettles(cfg, s, t, t.ledger[|s.ledger| + i]);
    }
    DistinctRowsPayBounded(rows, OpenClaims(s), Cents(cfg.threshold));
  }

  // ---------- approvals ----------

  /** A decision that launches a settlement under its correlation id. */
  predicate LaunchesAt(cfg: Config, s: Store, step: Step, corr: Id) {
    && step.req.PostDecision? && step.req.correlationId == corr && step.faults.route.Fine?
    && Decider(cfg, step.req.decidedBy, step.req.event).Some?
    && Decider(cfg, step.req.decidedBy, step.req.event).value in cfg.ceoKeys
    && Pending(s, corr) && Launches(s.approvals[corr], step.req.approve)
  }

  ghost predicate StatusesMove(s: Store, t: Store) {
    forall k :: k in s.approvals ==>
      k in t.approvals && SameTerms(s.approvals[k], t.approvals[k]) && Later(s.approvals[k].status, t.approvals[k].status)
  }

  /** Between any two moments of a run no approval changes its terms, no status returns to en_attente, and refuse is final. */
  lemma {:induction false} RunMovesApprovals(cfg: Config, s: Store, steps: seq<Step>, i: nat, j: nat)
    requires i <= j <= |steps|
    ensures StatusesMove(Run(cfg, s, steps[..i]), Run(cfg, s, steps[..j]))
  {
    var stores := seq(|steps| + 1, k requires 0 <= k <= |steps| => Run(cfg, s, steps[..k]));
    forall k | 0 <= k < |steps| ensures StatusesMove(stores[k], stores[k + 1]) {
      RunUpTo(cfg, s, steps, k);
      ServeMovesStatuses(cfg, stores[k], steps[k]);
    }
    StatusesMoveAlong(stores, i, j);
  }

  lemma {:induction false} StatusesMoveAlong(stores: seq<Store>, i: nat, j: nat)
    requires i <= j < |stores|
    requires forall k :: 0 <= k < |stores| - 1 ==> StatusesMove(stores[k], stores[k + 1])
    ensures StatusesMove(stores[i], stores[j])
    decreases j
  {
    if i < j {
      StatusesMoveAlong(stores, i, j - 1);
      StatusesMoveOn(stores[i], stores[j - 1], stores[j]);
    }
  }

  lemma ServeMovesStatuses(cfg: Config, s: Store, step: Step)
    ensures StatusesMove(s, Serve(cfg, s, step.req, step.faults).store)
  {
    ServeMoves(cfg, s, step.req, step.faults);
  }

  lemma StatusesMoveOn(s: Store, t: Store, u: Store)
    requires StatusesMove(s, t) && StatusesMove(t, u)
    ensures StatusesMove(s, u)
  {
  }

  lemma LaunchSettlesStatus(cfg: Config, s: Store, step: Step, corr: Id)
    requires LaunchesAt(cfg, s, step, corr)
    ensures var t := Serve(cfg, s, step.req, step.faults).store;
      corr in t.approvals && t.approvals[corr].status != EnAttente
  {
    var req := step.req;
    var ceo := Decider(cfg, req.decidedBy, req.event).value;
    var t := WithDecision(s, corr, ceo, req.reason, req.approve);
    var env := LaunchEnvelope(cfg, t.approvals[corr], corr, req.reason, ceo, req.now);
    ProcessMoves(cfg, t, env, step.faults.run);
  }

  /** /decide launches the settlement of a correlation id at most once in a run. */
  lemma LaunchedOnce(cfg: Config, s: Store, steps: seq<Step>, i: nat, j: nat, corr: Id)
    requires i < j < |steps|
    requires LaunchesAt(cfg, Run(cfg, s, steps[..i]), steps[i], corr)
    ensures !LaunchesAt(cfg, Run(cfg, s, steps[..j]), steps[j], corr)
  {
    LaunchSettlesStatus(cfg, Run(cfg, s, steps[..i]), steps[i], corr);
    RunUpTo(cfg, s, steps, i);
    RunMovesApprovals(cfg, s, steps, i + 1, j);
  }
}
