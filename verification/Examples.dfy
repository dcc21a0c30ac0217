/** Runs, under lawful configurations, that show where what one might expect does not hold. */
module Examples {
  import opened Text
  import opened Json
  import opened Domain
  import opened Repository
  import opened Pipeline
  import opened PipelineLaws
  import opened Server
  import opened InterleavedLaws
  import opened SwitchLaws
  import opened Consistency
  import Audit
  import Interleaved
  import Policy

  const FINE := Faults(Fine, Fine, Fine, Fine, Fine, Fine, Fine, Fine, Fine, Fine, Fine, Fine)

  /** A store with one open claim, and the approvals given. */
  function OneClaim(claimId: Id, amount: int, approvals: map<Id, Approval>): Store {
    Store(map[claimId := Claim(Ouvert, amount, false)], [], approvals, map[], None, [], [])
  }

  function Settlement(claimId: Id, euros: nat, reason: Str, actor: Id): Command {
    SettlementApprove(claimId, euros as real, reason, actor, [])
  }

  /** One CEO and one agent, each under a key in normal form. */
  predicate Casts(cfg: Config, ceo: Id, agent: Id) {
    && cfg.ceoKeys == {ceo} && cfg.agentKeys == {agent} && agent != ceo
    && cfg.normalize(ceo) == ceo && cfg.normalize(agent) == agent && cfg.lower(ceo) == ceo
  }

  /** The JSON of this command is admitted and read back as this command. */
  predicate Reads(cfg: Config, cmd: Command) {
    cfg.validate(cfg.render(cmd)) == Some(cmd) && ParseCommand(cfg, Stringify(cfg.render(cmd))) == Some(cmd)
  }

  lemma ExampleCasts(ceo: Id, agent: Id, threshold: real, digest: Audit.Hash, verifyEvent: SignedEvent -> bool)
    requires agent != ceo
    ensures Casts(Example(ceo, agent, threshold, digest, verifyEvent), ceo, agent)
  {
  }

  lemma ExampleReads(ceo: Id, agent: Id, threshold: real, digest: Audit.Hash, verifyEvent: SignedEvent -> bool, cmd: Command)
    requires cmd.SettlementApprove? && 0.0 < cmd.maxAmount <= MAX_AMOUNT && cmd.maxAmount.Floor as real == cmd.maxAmount
    ensures Reads(Example(ceo, agent, threshold, digest, verifyEvent), cmd)
  {
    RenderedIsRead(cmd);
    RenderedIsPlain(cmd);
    ReadInvertsStringify(RenderSettlement(cmd));
  }

  /** A permitted settlement runs its effect unless its transaction is refused. */
  lemma Settles(cfg: Config, s: Store, env: Envelope, cmd: Command, f: Faults)
    requires ParseCommand(cfg, env.content) == Some(cmd) && cmd.SettlementApprove? && CommandId(cfg, env) !in s.consumed
    requires IsCeo(cfg, env.author) ==> env.signed
    requires Policy.Permitted(cmd, Policy.Context(s.killSwitch, ClaimOf(s, cmd), false, cfg.threshold), ResolveRole(cfg, env))
    requires f.(effect := Fine) == FINE && !f.effect.Refused?
    ensures Reaches(cfg, s, env, f)
    ensures var p := Process(cfg, s, env, f);
      && p.committed && p.store.claims == SetStatus(s.claims, cmd.claimId, Regle)
      && p.store.ledger == s.ledger + [LedgerRow(env.correlationId, cmd.claimId, SettlementAmount(cmd.maxAmount, cfg.threshold))]
  {
    assert Reaches(cfg, s, env, f);
    AllOrNothing(cfg, s, env, f);
  }

  // ---------- a lost reply ----------

  function AgentRun(cfg: Config, agent: Id, cmd: Command, corr: Id): Envelope {
    Envelope(agent, Stringify(cfg.render(cmd)), corr, false)
  }

  lemma AgentIsPermitted(cfg: Config, claimId: Id, reason: Str, ceo: Id, agent: Id, corr: Id)
    requires Casts(cfg, ceo, agent) && cfg.threshold == 1.0
    ensures var cmd, s := Settlement(claimId, 1, reason, agent), OneClaim(claimId, 100, map[]);
      Policy.Permitted(cmd, Policy.Context(s.killSwitch, ClaimOf(s, cmd), false, cfg.threshold),
                       ResolveRole(cfg, AgentRun(cfg, agent, cmd, corr)))
  {
  }

  lemma LostReplySettles(cfg: Config, claimId: Id, ceo: Id, agent: Id, corr: Id)
    requires Casts(cfg, ceo, agent) && cfg.threshold == 1.0 && Reads(cfg, Settlement(claimId, 1, [], agent))
    ensures var s, env := OneClaim(claimId, 100, map[]), AgentRun(cfg, agent, Settlement(claimId, 1, [], agent), corr);
      var p := Process(cfg, s, env, FINE.(effect := LostReply(false)));
      && p.committed && claimId in p.store.claims && p.store.claims[claimId].status == Regle
      && p.result == Returned(DeadLetter(EffectFailed))
  {
    var s, cmd, f := OneClaim(claimId, 100, map[]), Settlement(claimId, 1, [], agent), FINE.(effect := LostReply(false));
    var env := AgentRun(cfg, agent, cmd, corr);
    AgentIsPermitted(cfg, claimId, [], ceo, agent, corr);
    Settles(cfg, s, env, cmd, f);
    LostReplyIsCaught(cfg, s, env, f);
  }

  /** An agent's settlement is applied while its caller hears of a dead letter. */
  lemma LostReplyHidesCommit(claimId: Id, ceo: Id, agent: Id, corr: Id, digest: Audit.Hash)
    returns (cfg: Config, s: Store, env: Envelope, f: Faults)
    requires agent != ceo
    ensures Lawful(cfg) && s == OneClaim(claimId, 100, map[])
    ensures var p := Process(cfg, s, env, f);
      && p.committed && claimId in p.store.claims && p.store.claims[claimId].status == Regle
      && p.result == Returned(DeadLetter(EffectFailed))
  {
    cfg, s, f := Example(ceo, agent, 1.0, digest, event => false), OneClaim(claimId, 100, map[]), FINE.(effect := LostReply(false));
    env := AgentRun(cfg, agent, Settlement(claimId, 1, [], agent), corr);
    ExampleCasts(ceo, agent, 1.0, digest, event => false);
    ExampleReads(ceo, agent, 1.0, digest, event => false, Settlement(claimId, 1, [], agent));
    LostReplySettles(cfg, claimId, ceo, agent, corr);
    ExampleIsLawful(ceo, agent, 1.0, digest, event => false);
  }

  // ---------- a decision without an event ----------

  function WaitingApproval(cents: int): Approval {
    Approval(ClaimSettlementApprove, None, Some(cents), EnAttente, None, None, None)
  }

  function LaunchReason(reason: Str): Str { EXECUTION_PREFIX + Prefix(reason, 100) + EXECUTION_SUFFIX }

  /** The settlement launched for a waiting approval of a whole amount. */
  lemma LaunchIsSettlement(corr: Id, euros: nat, reason: Str, ceo: Id, now: Str)
    ensures LaunchedCommand(Decided(WaitingApproval(100 * euros), ceo, reason, true), corr, reason, ceo, now)
         == SettlementApprove(corr, euros as real, LaunchReason(reason), ceo, now)
  {
  }

  lemma DecisionSettles(cfg: Config, corr: Id, euros: nat, ceo: Id, agent: Id, reason: Str, now: Str)
    requires Casts(cfg, ceo, agent) && Reads(cfg, SettlementApprove(corr, euros as real, LaunchReason(reason), ceo, now))
    ensures var s := OneClaim(corr, 100 * euros, map[corr := WaitingApproval(100 * euros)]);
      var r := ServeDecision(cfg, s, corr, ceo, None, reason, true, now, RequestFaults(Fine, FINE));
      && r.committed.Some? && |r.store.ledger| == 1 && r.store.ledger[0].claimId == corr
      && corr in r.store.claims && r.store.claims[corr].status == Regle
  {
    var s := OneClaim(corr, 100 * euros, map[corr := WaitingApproval(100 * euros)]);
    var t, cmd := WithDecision(s, corr, ceo, reason, true), SettlementApprove(corr, euros as real, LaunchReason(reason), ceo, now);
    LaunchIsSettlement(corr, euros, reason, ceo, now);
    assert t.approvals[corr] == Decided(WaitingApproval(100 * euros), ceo, reason, true);
    Settles(cfg, t, Envelope(ceo, Stringify(cfg.render(cmd)), corr, true), cmd, FINE);
  }

  /** A decision in a CEO's name settles its claim though no event was attached and none would verify. */
  lemma UnsignedDecisionSettles(corr: Id, euros: nat, ceo: Id, agent: Id, reason: Str, now: Str, digest: Audit.Hash)
    returns (cfg: Config, s: Store)
    requires 0 < euros <= 10_000_000 && agent != ceo
    ensures Lawful(cfg) && forall ev :: !cfg.verifyEvent(ev)
    ensures var r := ServeDecision(cfg, s, corr, ceo, None, reason, true, now, RequestFaults(Fine, FINE));
      && s.ledger == [] && r.committed.Some? && |r.store.ledger| == 1 && r.store.ledger[0].claimId == corr
      && corr in r.store.claims && r.store.claims[corr].status == Regle
  {
    cfg := Example(ceo, agent, 1.0, digest, event => false);
    s := OneClaim(corr, 100 * euros, map[corr := WaitingApproval(100 * euros)]);
    ExampleCasts(ceo, agent, 1.0, digest, event => false);
    ExampleReads(ceo, agent, 1.0, digest, event => false, SettlementApprove(corr, euros as real, LaunchReason(reason), ceo, now));
    DecisionSettles(cfg, corr, euros, ceo, agent, reason, now);
    ExampleIsLawful(ceo, agent, 1.0, digest, event => false);
  }

  // ---------- a claim above the threshold ----------

  function SignedPost(ceo: Id, content: Str): SignedEvent { SignedEvent([], ceo, [], 0, CHANNEL_MESSAGE_KIND, [], content) }

  /** Half the claim is paid when the threshold is half of it. */
  lemma HalfIsPaid(euros: nat)
    ensures SettlementAmount((2 * euros) as real, euros as real) == -100 * euros
  {
    assert euros as real <= (2 * euros) as real;
    CentsOfEur(-100 * euros);
  }

  lemma SignedSettlementPaysHalf(cfg: Config, claimId: Id, euros: nat, ceo: Id, agent: Id, corr: Id)
    requires Casts(cfg, ceo, agent) && cfg.threshold == euros as real && euros > 0
    requires Reads(cfg, Settlement(claimId, 2 * euros, [], ceo))
    requires var command := cfg.render(Settlement(claimId, 2 * euros, [], ceo));
      VerifySigned(cfg, SignedPost(ceo, Stringify(command)), command) == Some(ceo)
    ensures var s, command := OneClaim(claimId, 200 * euros, map[]), cfg.render(Settlement(claimId, 2 * euros, [], ceo));
      var r := ServeCommand(cfg, s, command, ceo, Some(SignedPost(ceo, Stringify(command))), corr, FINE);
      && r.committed.Some? && claimId in r.store.claims && r.store.claims[claimId].status == Regle
      && r.store.ledger == [LedgerRow(corr, claimId, -100 * euros)]
  {
    var s, cmd := OneClaim(claimId, 200 * euros, map[]), Settlement(claimId, 2 * euros, [], ceo);
    var env := Envelope(ceo, Stringify(cfg.render(cmd)), corr, true);
    Settles(cfg, s, env, cmd, FINE);
    HalfIsPaid(euros);
  }

  /** A signed CEO settles a claim of twice the threshold: the claim ends 'regle', and half of it is paid. */
  lemma LargeClaimIsHalfPaid(claimId: Id, euros: nat, ceo: Id, agent: Id, corr: Id, digest: Audit.Hash)
    returns (cfg: Config, s: Store, command: Json, event: SignedEvent)
    requires 0 < 2 * euros <= 10_000_000 && agent != ceo
    ensures Lawful(cfg) && s == OneClaim(claimId, 200 * euros, map[])
    ensures var r := ServeCommand(cfg, s, command, ceo, Some(event), corr, FINE);
      && r.committed.Some? && claimId in r.store.claims && r.store.claims[claimId].status == Regle
      && r.store.ledger == [LedgerRow(corr, claimId, -100 * euros)]
  {
    cfg := Example(ceo, agent, euros as real, digest, event => true);
    var cmd := Settlement(claimId, 2 * euros, [], ceo);
    s, command := OneClaim(claimId, 200 * euros, map[]), cfg.render(cmd);
    event := SignedPost(ceo, Stringify(command));
    ExampleCasts(ceo, agent, euros as real, digest, event => true);
    ExampleReads(ceo, agent, euros as real, digest, event => true, cmd);
    RenderedIsPlain(cmd);
    ReadInvertsStringify(command);
    SignedSettlementPaysHalf(cfg, claimId, euros, ceo, agent, corr);
    ExampleIsLawful(ceo, agent, euros as real, digest, event => true);
  }

  // ---------- two settlements of one claim ----------

  const ZEROS: Audit.Digest := seq(64, _ => 48)
  const ONES: Audit.Digest := seq(64, _ => 49)

  /** A hash that tells one text from all others. */
  function Marks(text: Str): Audit.Hash { t => if t == text then ZEROS else ONES }

  lemma MarksTell(a: Str, b: Str)
    requires a != b
    ensures Marks(a)(a) != Marks(a)(b)
  {
    assert ZEROS[0] != ONES[0];
  }

  function AgentPost(cfg: Config, agent: Id, cmd: Command, corr: Id): Request { PostCommand(cfg.render(cmd), agent, None, corr) }

  lemma AgentIsReady(cfg: Config, claimId: Id, reason: Str, ceo: Id, agent: Id, corr: Id)
    requires Casts(cfg, ceo, agent) && cfg.threshold == 1.0 && Reads(cfg, Settlement(claimId, 1, reason, agent))
    ensures var cmd := Settlement(claimId, 1, reason, agent);
      var env := AgentRun(cfg, agent, cmd, corr);
      && Ready(cfg, OneClaim(claimId, 100, map[]), env, cmd)
      && Admitted(cfg, AgentPost(cfg, agent, cmd, corr)) == Running(env, Interleaved.Start(cfg, env))
  {
    AgentIsPermitted(cfg, claimId, reason, ceo, agent, corr);
  }

  lemma OneEuroIsPaid(cfg: Config, env: Envelope, claimId: Id, reason: Str, agent: Id)
    requires cfg.threshold == 1.0
    ensures RowOf(cfg, env, Settlement(claimId, 1, reason, agent)) == LedgerRow(env.correlationId, claimId, -100)
  {
  }

  lemma TwoPostsSettle(cfg: Config, claimId: Id, ceo: Id, agent: Id, corr: Id, other: Id, a: Str, b: Str) returns (x: World)
    requires Casts(cfg, ceo, agent) && cfg.threshold == 1.0
    requires Reads(cfg, Settlement(claimId, 1, a, agent)) && Reads(cfg, Settlement(claimId, 1, b, agent))
    requires CommandId(cfg, AgentRun(cfg, agent, Settlement(claimId, 1, a, agent), corr))
          != CommandId(cfg, AgentRun(cfg, agent, Settlement(claimId, 1, b, agent), other))
    ensures Reachable(cfg, OneClaim(claimId, 100, map[]), x)
    ensures x.store.ledger == [LedgerRow(corr, claimId, -100), LedgerRow(other, claimId, -100)]
  {
    var s := OneClaim(claimId, 100, map[]);
    var ca, cb := Settlement(claimId, 1, a, agent), Settlement(claimId, 1, b, agent);
    var ea, eb := AgentRun(cfg, agent, ca, corr), AgentRun(cfg, agent, cb, other);
    AgentIsReady(cfg, claimId, a, ceo, agent, corr);
    AgentIsReady(cfg, claimId, b, ceo, agent, other);
    OneClaimCanBeSettledTwice(cfg, s, AgentPost(cfg, agent, ca, corr), AgentPost(cfg, agent, cb, other), ea, eb, ca, cb);
    x :| Reachable(cfg, s, x) && x.store.ledger == s.ledger + [RowOf(cfg, ea, ca), RowOf(cfg, eb, cb)];
    OneEuroIsPaid(cfg, ea, claimId, a, agent);
    OneEuroIsPaid(cfg, eb, claimId, b, agent);
  }

  /** Two posts of one agent for one claim, with different reasons, both settle it when their calls interleave. */
  lemma TwoPostsSettleOneClaim(claimId: Id, ceo: Id, agent: Id, corr: Id, other: Id) returns (cfg: Config, x: World)
    requires agent != ceo
    ensures Lawful(cfg) && Reachable(cfg, OneClaim(claimId, 100, map[]), x)
    ensures x.store.ledger == [LedgerRow(corr, claimId, -100), LedgerRow(other, claimId, -100)]
  {
    var a, b := Settlement(claimId, 1, [48], agent), Settlement(claimId, 1, [49], agent);
    var digest := Marks(Stringify(RenderSettlement(a)));
    cfg := Example(ceo, agent, 1.0, digest, event => false);
    ExampleCasts(ceo, agent, 1.0, digest, event => false);
    ExampleReads(ceo, agent, 1.0, digest, event => false, a);
    ExampleReads(ceo, agent, 1.0, digest, event => false, b);
    assert a.reason[0] != b.reason[0];
    MarksTell(Stringify(RenderSettlement(a)), Stringify(RenderSettlement(b)));
    x := TwoPostsSettle(cfg, claimId, ceo, agent, corr, other, [48], [49]);
    ExampleIsLawful(ceo, agent, 1.0, digest, event => false);
  }

  // ---------- an effect after the switch is on ----------

  lemma PostSettlesLate(cfg: Config, claimId: Id, ceo: Id, agent: Id, corr: Id, other: Id) returns (x: World)
    requires Casts(cfg, ceo, agent) && cfg.threshold == 1.0 && Reads(cfg, Settlement(claimId, 1, [], agent))
    ensures Reachable(cfg, OneClaim(claimId, 100, map[]), x) && x.store.Locked()
    ensures x.store.ledger == [LedgerRow(corr, claimId, -100)]
  {
    var s, cmd := OneClaim(claimId, 100, map[]), Settlement(claimId, 1, [], agent);
    var env := AgentRun(cfg, agent, cmd, corr);
    AgentIsReady(cfg, claimId, [], ceo, agent, corr);
    LateCommitIsPossible(cfg, s, AgentPost(cfg, agent, cmd, corr), PostKillSwitch(true, ceo, [], [], other), env, cmd);
    x :| Reachable(cfg, s, x) && x.store.Locked() && x.store.ledger == s.ledger + [RowOf(cfg, env, cmd)];
    OneEuroIsPaid(cfg, env, claimId, [], agent);
  }

  /** A post that has passed the kill-switch settles its claim after the CEO has turned the switch on. */
  lemma PostSettlesUnderTheSwitch(claimId: Id, ceo: Id, agent: Id, corr: Id, other: Id, digest: Audit.Hash)
    returns (cfg: Config, x: World)
    requires agent != ceo
    ensures Lawful(cfg) && Reachable(cfg, OneClaim(claimId, 100, map[]), x) && x.store.Locked()
    ensures x.store.ledger == [LedgerRow(corr, claimId, -100)]
  {
    cfg := Example(ceo, agent, 1.0, digest, event => false);
    ExampleCasts(ceo, agent, 1.0, digest, event => false);
    ExampleReads(ceo, agent, 1.0, digest, event => false, Settlement(claimId, 1, [], agent));
    x := PostSettlesLate(cfg, claimId, ceo, agent, corr, other);
    ExampleIsLawful(ceo, agent, 1.0, digest, event => false);
  }
}
