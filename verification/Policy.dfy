/** The decision policy: a pure function of the command, what was read from the database, and the author's role. */
module Policy {
  import opened Json
  import opened Domain

  datatype Context = Context(killSwitch: Option<KillSwitchRow>, claim: Option<Claim>, consumed: bool, threshold: real)

  datatype Decision = Allow | Deny(reason: DenyReason)

  predicate Active(k: Option<KillSwitchRow>) { k.Some? && k.value.active }

  function Evaluate(cmd: Command, ctx: Context, role: Role): Decision {
    if Active(ctx.killSwitch) && !cmd.KillSwitchDeactivate? then Deny(KillSwitchOn)
    else if ctx.consumed then Deny(AlreadyConsumed)
    else match cmd
      case SettlementApprove(_, amount, _, _, _) => EvaluateApprove(amount, ctx, role)
      case SettlementReject(_, _, _, _) => EvaluateReject(ctx, role)
      case PricingException(_, prime, _, _, _) =>
        if role != Ceo then Deny(ReservedToCeo) else if prime <= 0.0 then Deny(InvalidPrime) else Allow
      case KillSwitchActivate(_, _, _) =>
        if role != Ceo then Deny(ReservedToCeo) else if Active(ctx.killSwitch) then Deny(AlreadyActive) else Allow
      case KillSwitchDeactivate(_, _, _) =>
        if role != Ceo then Deny(ReservedToCeo) else if !Active(ctx.killSwitch) then Deny(AlreadyInactive) else Allow
      case FinanceReport(_, _, _, _) =>
        if role == Ceo || role == Finance || role == Conformite then Allow else Deny(ReportNotAllowed)
  }

  function EvaluateApprove(maxAmount: real, ctx: Context, role: Role): Decision {
    if role != Ceo && role != AgentSinistres then Deny(RoleMayNotSettle)
    else if ctx.claim.None? then Deny(ClaimNotFound)
    else
      var s := ctx.claim.value;
      if !s.Open() then Deny(InvalidStatus(s.status))
      else if role == AgentSinistres && Eur(s.amount) > ctx.threshold then Deny(AboveThreshold)
      else
        var cap := if role == Ceo then maxAmount else Min(maxAmount, ctx.threshold);
        if Eur(s.amount) > cap then Deny(AboveCap)
        else if s.blocked then Deny(ComplianceBlocked)
        else Allow
  }

  function EvaluateReject(ctx: Context, role: Role): Decision {
    if role != Ceo then Deny(ReservedToCeo)
    else if ctx.claim.None? then Deny(ClaimNotFound)
    else
      var s := ctx.claim.value;
      if s.status == Regle || s.status == Cloture then Deny(InvalidStatus(s.status)) else Allow
  }

  /** The actions reserved to the CEO: everything but a settlement and a report. */
  predicate RequiresCeo(t: CommandType) {
    t == ClaimSettlementReject || t == PolicyPricingException || t == AgentKillSwitchActivate || t == AgentKillSwitchDeactivate
  }

  /** The seven deny rules of the documentation, as what an allowed command must satisfy. */
  ghost predicate Permitted(cmd: Command, ctx: Context, role: Role) {
    && (Active(ctx.killSwitch) ==> cmd.KillSwitchDeactivate?)
    && !ctx.consumed
    && (RequiresCeo(cmd.Type()) ==> role == Ceo)
    && (cmd.SettlementApprove? ==>
          && ctx.claim.Some? && ctx.claim.value.Open() && !ctx.claim.value.blocked
          && Eur(ctx.claim.value.amount) <= cmd.maxAmount
          && (role == Ceo || (role == AgentSinistres && Eur(ctx.claim.value.amount) <= ctx.threshold)))
    && (cmd.SettlementReject? ==> ctx.claim.Some? && ctx.claim.value.status !in {Regle, Cloture})
    && (cmd.PricingException? ==> cmd.newPrime > 0.0)
    && (cmd.KillSwitchDeactivate? ==> Active(ctx.killSwitch))
    && (cmd.FinanceReport? ==> role in {Ceo, Finance, Conformite})
  }

  /** The cascade of checks allows exactly what the rules permit. */
  lemma AllowedExactlyWhenPermitted(cmd: Command, ctx: Context, role: Role)
    ensures Evaluate(cmd, ctx, role) == Allow <==> Permitted(cmd, ctx, role)
  {
  }

  // ---------- the reason of a denial ----------

  /** A rule, and the reason given when it is the first that is broken. */
  datatype Rule = Rule(kept: bool, reason: DenyReason)

  function FirstBroken(rules: seq<Rule>): Decision {
    if rules == [] then Allow else if rules[0].kept then FirstBroken(rules[1..]) else Deny(rules[0].reason)
  }

  /** The rules for each command, in the order they are applied. */
  function Rules(cmd: Command, ctx: Context, role: Role): seq<Rule> {
    [Rule(!Active(ctx.killSwitch) || cmd.KillSwitchDeactivate?, KillSwitchOn), Rule(!ctx.consumed, AlreadyConsumed)]
    + match cmd
      case SettlementApprove(_, amount, _, _, _) =>
        [Rule(role in {Ceo, AgentSinistres}, RoleMayNotSettle), Rule(ctx.claim.Some?, ClaimNotFound)]
        + (if ctx.claim.None? then [] else ClaimRules(amount, ctx.claim.value, ctx.threshold, role))
      case SettlementReject(_, _, _, _) =>
        [Rule(role == Ceo, ReservedToCeo), Rule(ctx.claim.Some?, ClaimNotFound)]
        + (if ctx.claim.None? then [] else [Rule(ctx.claim.value.status !in {Regle, Cloture}, InvalidStatus(ctx.claim.value.status))])
      case PricingException(_, prime, _, _, _) => [Rule(role == Ceo, ReservedToCeo), Rule(prime > 0.0, InvalidPrime)]
      case KillSwitchActivate(_, _, _) => [Rule(role == Ceo, ReservedToCeo), Rule(!Active(ctx.killSwitch), AlreadyActive)]
      case KillSwitchDeactivate(_, _, _) => [Rule(role == Ceo, ReservedToCeo), Rule(Active(ctx.killSwitch), AlreadyInactive)]
      case FinanceReport(_, _, _, _) => [Rule(role in {Ceo, Finance, Conformite}, ReportNotAllowed)]
  }

  /** An agent is bound by the threshold, and its cap with it; the CEO by the command's own cap alone. */
  function ClaimRules(amount: real, claim: Claim, threshold: real, role: Role): seq<Rule> {
    [Rule(claim.status in {Ouvert, EnTraitement}, InvalidStatus(claim.status)),
     Rule(role == Ceo || Eur(claim.amount) <= threshold, AboveThreshold),
     Rule(Eur(claim.amount) <= amount && (role == Ceo || Eur(claim.amount) <= threshold), AboveCap),
     Rule(!claim.blocked, ComplianceBlocked)]
  }

  lemma FirstBrokenFrom(r: Rule, rules: seq<Rule>)
    ensures FirstBroken([r] + rules) == if r.kept then FirstBroken(rules) else Deny(r.reason)
  {
    assert ([r] + rules)[1..] == rules;
  }

  lemma FirstOfTwo(a: Rule, b: Rule, rules: seq<Rule>)
    ensures FirstBroken([a, b] + rules) == if !a.kept then Deny(a.reason) else if !b.kept then Deny(b.reason) else FirstBroken(rules)
  {
    FirstBrokenFrom(a, [b] + rules);
    FirstBrokenFrom(b, rules);
    assert [a, b] + rules == [a] + ([b] + rules);
  }

  lemma ClaimDecision(amount: real, claim: Claim, threshold: real, role: Role)
    requires role in {Ceo, AgentSinistres}
    ensures EvaluateApprove(amount, Context(None, Some(claim), false, threshold), role) == FirstBroken(ClaimRules(amount, claim, threshold, role))
  {
    var rules := ClaimRules(amount, claim, threshold, role);
    FirstOfTwo(rules[0], rules[1], rules[2..]);
    FirstOfTwo(rules[2], rules[3], []);
    assert rules == [rules[0], rules[1]] + rules[2..] && rules[2..] == [rules[2], rules[3]] + [];
  }

  lemma OwnRulesDecide(cmd: Command, ctx: Context, role: Role)
    requires (Active(ctx.killSwitch) ==> cmd.KillSwitchDeactivate?) && !ctx.consumed
    ensures Evaluate(cmd, ctx, role) == FirstBroken(Rules(cmd, ctx, role)[2..])
  {
    var own := Rules(cmd, ctx, role)[2..];
    match cmd
    case SettlementApprove(_, amount, _, _, _) =>
      FirstOfTwo(own[0], own[1], own[2..]);
      assert own == [own[0], own[1]] + own[2..];
      if ctx.claim.Some? && role in {Ceo, AgentSinistres} {
        assert own[2..] == ClaimRules(amount, ctx.claim.value, ctx.threshold, role);
        ClaimDecision(amount, ctx.claim.value, ctx.threshold, role);
      }
    case SettlementReject(_, _, _, _) =>
      FirstOfTwo(own[0], own[1], own[2..]);
      assert own == [own[0], own[1]] + own[2..];
      if ctx.claim.Some? {
        FirstBrokenFrom(own[2], []);
        assert own[2..] == [own[2]] + [];
      }
    case FinanceReport(_, _, _, _) =>
      FirstBrokenFrom(own[0], []);
      assert own == [own[0]] + [];
    case _ =>
      FirstOfTwo(own[0], own[1], []);
      assert own == [own[0], own[1]] + [];
  }

  /** A denial gives the reason of the first rule that is broken. */
  lemma DenialNamesFirstBroken(cmd: Command, ctx: Context, role: Role)
    ensures Evaluate(cmd, ctx, role) == FirstBroken(Rules(cmd, ctx, role))
  {
    var rules := Rules(cmd, ctx, role);
    FirstOfTwo(rules[0], rules[1], rules[2..]);
    assert rules == [rules[0], rules[1]] + rules[2..];
    if rules[0].kept && rules[1].kept {
      OwnRulesDecide(cmd, ctx, role);
    }
  }
}
