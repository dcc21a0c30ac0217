/** The commands the bridge accepts, its tables, and the functions it gets from its platform. */
module Domain {
  import opened Text
  import opened Json
  import Audit

  /** An identifier: a claim, a correlation, a command, a public key. */
  type Id = Str

  // ---------- commands ----------

  /** The six typed commands; amounts are in euros and may have more than two decimals. */
  datatype Command =
    | SettlementApprove(claimId: Id, maxAmount: real, reason: Str, approvedBy: Id, requestedAt: Str)
    | SettlementReject(claimId: Id, reason: Str, approvedBy: Id, requestedAt: Str)
    | PricingException(contratId: Id, newPrime: real, reason: Str, approvedBy: Id, requestedAt: Str)
    | KillSwitchActivate(approvedBy: Id, reason: Str, requestedAt: Str)
    | KillSwitchDeactivate(approvedBy: Id, reason: Str, requestedAt: Str)
    | FinanceReport(periode: Str, departements: seq<Str>, approvedBy: Id, requestedAt: Str)
  {
    predicate IsClaim() { SettlementApprove? || SettlementReject? }

    function Type(): CommandType {
      match this
      case SettlementApprove(_, _, _, _, _) => ClaimSettlementApprove
      case SettlementReject(_, _, _, _) => ClaimSettlementReject
      case PricingException(_, _, _, _, _) => PolicyPricingException
      case KillSwitchActivate(_, _, _) => AgentKillSwitchActivate
      case KillSwitchDeactivate(_, _, _) => AgentKillSwitchDeactivate
      case FinanceReport(_, _, _, _) => FinanceReportRequest
    }
  }

  datatype CommandType =
    | ClaimSettlementApprove
    | ClaimSettlementReject
    | PolicyPricingException
    | AgentKillSwitchActivate
    | AgentKillSwitchDeactivate
    | FinanceReportRequest

  const MAX_AMOUNT: real := 10000000.0

  /** The bounds the schemas put on amounts. */
  predicate WithinBounds(c: Command) {
    match c
    case SettlementApprove(_, amount, _, _, _) => 0.0 < amount <= MAX_AMOUNT
    case PricingException(_, prime, _, _, _) => 0.0 < prime <= MAX_AMOUNT
    case _ => true
  }

  // ---------- amounts ----------

  function Abs(x: real): real { if x < 0.0 then -x else x }

  function Min(x: real, y: real): real { if x <= y then x else y }

  function Eur(cents: int): real { cents as real / 100.0 }

  /** What a NUMERIC(_, 2) column makes of an amount in euros: whole cents, halves away from zero. */
  function Cents(eur: real): int {
    if eur < 0.0 then -(-eur * 100.0 + 0.5).Floor else (eur * 100.0 + 0.5).Floor
  }

  /** The nearest cent; of two equally near, the one away from zero. */
  lemma CentsAreNearest(x: real)
    ensures Abs(Eur(Cents(x)) - x) <= 0.005
    ensures Abs(Eur(Cents(x)) - x) == 0.005 ==> Abs(Eur(Cents(x))) > Abs(x)
  {
  }

  lemma CentsMonotone(x: real, y: real)
    requires x <= y
    ensures Cents(x) <= Cents(y)
  {
  }

  lemma CentsOfEur(c: int)
    ensures Cents(Eur(c)) == c
  {
  }

  // ---------- tables ----------

  datatype ClaimStatus = Ouvert | EnTraitement | EnCours | Contentieux | Regle | Refuse | Cloture | Autre(name: Str)

  /** A row of sinistres, as the bridge reads it; the amount is in cents. */
  datatype Claim = Claim(status: ClaimStatus, amount: int, blocked: bool)
  {
    predicate Open() { status == Ouvert || status == EnTraitement }
  }

  /** A settlement row of pnl_ledger; the claim is named in its description. */
  datatype LedgerRow = LedgerRow(correlationId: Id, claimId: Id, amount: int)

  /** The statut column: en_attente, approuve, refuse, expire. */
  datatype ApprovalStatus = EnAttente | Approuve | Rejected | Expire

  datatype Approval = Approval(
    kind: CommandType,
    claimId: Option<Id>,
    amount: Option<int>,
    status: ApprovalStatus,
    requestedBy: Option<Id>,
    decidedBy: Option<Id>,
    reason: Option<Str>)

  datatype KillSwitchRow = KillSwitchRow(active: bool, setBy: Option<Id>)

  datatype Role = Ceo | Conformite | Finance | AgentSales | AgentSouscription | AgentSinistres | Inconnu

  datatype DenyReason =
    | KillSwitchOn
    | AlreadyConsumed
    | RoleMayNotSettle
    | ClaimNotFound
    | InvalidStatus(status: ClaimStatus)
    | AboveThreshold
    | AboveCap
    | ComplianceBlocked
    | ReservedToCeo
    | InvalidPrime
    | AlreadyActive
    | AlreadyInactive
    | ReportNotAllowed
    | SchemaInvalid
    | CeoWithoutSignature

  datatype ErrorCode = KillSwitchBlocked | DbUnavailable | EffectFailed

  datatype Outcome = Executed | Denied(reason: DenyReason) | Consumed | DeadLetter(code: ErrorCode)

  datatype AuditEvent =
    | SchemaInvalidAudit
    | ConsumedPrecheckAudit(commandId: Id)
    | AuthDeniedAudit
    | KillSwitchBlockedAudit(setBy: Option<Id>)
    | PolicyDeniedAudit(reason: DenyReason, role: Role)
    | ConsumedAudit(commandId: Id)
    | CommandAudit(commandId: Id, role: Role, author: Id, command: Command)
    | ExecutedAudit(command: Command)
    | DeadLetterAudit(code: ErrorCode)

  /** What was recorded, and the hash-chained row that says so in audit_log. */
  datatype AuditRecord = AuditRecord(correlationId: Id, event: AuditEvent, row: Audit.Row)

  datatype DeadLetterEntry = DeadLetterEntry(correlationId: Id, content: Str, code: ErrorCode)

  /** Everything the bridge keeps: its Postgres tables and the dead-letter queue. */
  datatype Store = Store(
    claims: map<Id, Claim>,
    ledger: seq<LedgerRow>,
    approvals: map<Id, Approval>,
    consumed: map<Id, Id>,
    killSwitch: Option<KillSwitchRow>,
    audit: seq<AuditRecord>,
    deadLetters: seq<DeadLetterEntry>)
  {
    predicate Locked() { killSwitch.Some? && killSwitch.value.active }
  }

  // ---------- configuration ----------

  /** A Nostr event attached to a request. */
  datatype SignedEvent = SignedEvent(id: Id, pubkey: Id, sig: Str, createdAt: int, kind: int, tags: seq<seq<Str>>, content: Str)

  /**
    The bridge's settings, and the functions it calls: SHA-256 in hexadecimal, JSON.parse and the audit column,
    public-key normalization, the schema validator, the NIP-01 check, lower-casing, the JSON of a command the server
    itself makes, and how the n-th audit record reads as an entry.
   */
  datatype Config = Config(
    ceoKeys: set<Id>,
    agentKeys: set<Id>,
    threshold: real,
    requireSigned: bool,
    digest: Audit.Hash,
    platform: Audit.Platform,
    normalize: Id -> Id,
    validate: Json -> Option<Command>,
    verifyEvent: SignedEvent -> bool,
    lower: Id -> Id,
    render: Command -> Json,
    entry: (nat, Id, AuditEvent) -> Audit.AuditEntry)

  /** A key that normalizes to a listed CEO key is in normal form once normalized. */
  ghost predicate KeysNormalize(cfg: Config) {
    forall k :: cfg.normalize(k) in cfg.ceoKeys ==> cfg.normalize(cfg.normalize(k)) == cfg.normalize(k)
  }

  /** The schemas look at values, not at key order, and admit neither infinities nor amounts out of bounds. */
  ghost predicate SchemasLawful(cfg: Config) {
    && (forall v, w :: cfg.platform.Holds(v) && cfg.platform.Holds(w) && SameValue(v, w) ==> cfg.validate(v) == cfg.validate(w))
    && (forall v :: cfg.platform.Holds(v) && cfg.validate(v).Some? ==> AllFinite(v) && WithinBounds(cfg.validate(v).value))
  }

  /** The JSON of a command is that command, when the schemas admit it at all. */
  ghost predicate RendersCommands(cfg: Config) {
    forall c :: cfg.platform.Plain(cfg.render(c)) && (cfg.validate(cfg.render(c)) == Some(c) || cfg.validate(cfg.render(c)).None?)
  }

  /** Every audit payload is an object. */
  ghost predicate LogsObjects(cfg: Config) {
    forall n: nat, corr, event :: cfg.platform.Holds(cfg.entry(n, corr, event).payload) && cfg.entry(n, corr, event).payload.Obj?
  }

  /** What is relied on about those functions. */
  ghost predicate Lawful(cfg: Config) {
    Audit.Lawful(cfg.platform) && SchemasLawful(cfg) && RendersCommands(cfg) && KeysNormalize(cfg) && LogsObjects(cfg)
  }
}
