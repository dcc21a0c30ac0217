# Verification of the claims bridge and its agents

This project models, in Dafny, the part of the repository that decides and records: the bridge that takes typed
commands through its gates to a transactional effect, its hash-chained audit log, the agents that recommend
settlements under a kill-switch, the seeding and dashboard arithmetic, and the skills parser. Everything below is
proved for all inputs, all runs and all patterns of failure, not for samples.

`dafny verify dfyconfig.toml` checks the whole project.

## How it is organised

| file | models |
|---|---|
| `Text`, `Json`, `JsonLaws` | strings as UTF-16 code units; JSON values, `JSON.stringify` with the escapes of section 7 of RFC 8259, the canonical printer with keys in the order of section 3.2.3 of RFC 8785, a parser, and the proof that the printer decides equality |
| `Audit`, `AuditOverlap`, `AuditTrail` | the append-only log chained by an arbitrary hash function, and its verifier; appends whose two calls overlap; and the proof that every audit append of the bridge keeps its log verifying |
| `Domain`, `Policy`, `Repository` | commands, tables, the policy, and each SQL statement as a function and as a method of a class |
| `Pipeline`, `PipelineLaws`, `OutcomeLaws` | one command through the pipeline; what it commits; and its answer, dead letters and audit events, read off the first obstacle in its way |
| `Server`, `ApprovalLaws`, `ApprovalRows`, `RouteLaws` | the four routes that change the store, how approvals move, what their rows say, and what each route answers and writes |
| `SerialRuns`, `MoneyLaws`, `FreezeLaws` | runs in which each request is served to completion: authority, money, and the kill-switch |
| `Interleaved`, `InterleavedLaws`, `SwitchLaws`, `ClaimLaws`, `ResultLaws` | the same pipeline as a machine that makes one repository call per step, with any number of requests in flight; what the kill-switch stops there, when the serial bounds on settlements hold there, and what runs report |
| `KillSwitchCache`, `KillSwitchOverlap`, `EndToEnd` | the cached kill-switch, asked in order or with overlapping calls, and agent, switch and bridge composed |
| `Agent`, `AgentLaws`, `AgentRules` | the agent's task loop, what its acts are guarded by, and the machine whose one run every task is |
| `Seeding`, `Dashboard` | proportional rescaling with rounding residue, ledger seeding, weekly aggregation and claims ratios |
| `Skills` | the frontmatter state machine |
| `Consistency`, `Examples` | functions that obey everything relied on about the libraries, with a schema that reads settlement objects; and runs under such functions that show where what one might expect fails |

Code that changes things step by step is a method proved equal to a function of the old state; the laws are lemmas
about that function.

Every repository call may be `Refused` (it did nothing) or may lose its reply (`LostReply`: it took effect and the
caller sees an error), with a transient error or not. SHA-256, Schnorr signatures, key normalization, JSON.parse, the
schema validator and the language model are function parameters.

What is relied on about the parameters is written out as `Lawful`, and the theorems about money ask only for parts of
it. A JSON number is its text, and a platform says which texts it prints for numbers (`printed`); parsing is
relied on only for values whose numbers are spelled that way, and to return such values. So nothing is asked about
texts that JSON.stringify never makes, such as `-` or `1.0`. A number stands for the decimal value of its text; a
command whose amount no number text spells has no JSON of its own, and need not be read back.
`Consistency.ExampleIsLawful` exhibits parameters that obey `Lawful`; they are not JSON.parse and the repository's
schemas, of which these laws remain what is relied on.

Amounts in commands are real numbers of euros; table columns, seeding and the dashboard count whole cents.

## Where the code and its comments differ

- A CEO may approve a settlement above the threshold, and the policy comment says so, but the ledger row is always
  capped at the threshold while the claim ends 'regle'. `MoneyLaws.CommittedCoversExactly`: the row of a committed
  settlement covers its claim exactly when the claim is within the threshold. `Examples.LargeClaimIsHalfPaid` is a
  signed settlement of a claim of which half is paid.
- 'executed' is said to follow the effect. The two agree in every run but those whose COMMIT took effect while its
  reply was lost: `PipelineLaws.ExecutedMeansCommitted`, with such a run in `Examples.LostReplyHidesCommit`.
- The overview documents say CEO decisions are signed. `/decide` also accepts a listed key without an event, and runs
  the settlement it launches as signed. The model follows the code. `SerialRuns.SignatureBehindExactly`: a CEO's
  verifying event, or an agent's own unsigned settlement, stands behind a committed effect exactly unless it came of
  a decision without an event; `Examples.UnsignedDecisionSettles` is such a decision, where no event verifies at all.
- An event attached to a decision need not be about that decision: only that it verifies, and its key, are looked at.
  `SerialRuns.DecisionIgnoresContent`: any other event of that key serves as well. That the CEO signed the
  very command that is run holds of posted commands: `SerialRuns.VerifiedEventCarriesCommand`.
- The policy looks at a claim some calls before the effect's transaction, so of two runs on one claim in flight
  together both can settle it: `InterleavedLaws.OneClaimCanBeSettledTwice`, with two such posts in
  `Examples.TwoPostsSettleOneClaim`. Only overlap does it. `ClaimLaws.SettlementsOverlap`: a settlement after another
  effect on its claim had read the claim before that effect committed. `ClaimLaws.ClosedClaimSettledExactly`: of the
  runs in flight, those can still settle a claim that is closed by now that were let through by what they read before,
  and no others. `ClaimLaws.InTurnSettles`: when no effect on a claim commits between another's read and commit, all
  that holds of serial runs holds of the interleaving.
- The pipeline decides the approval of a claim command after its effect, which has taken it out of waiting already; so
  that statement never finds a row, and the row of a posted settlement says neither who decided nor why:
  `ApprovalRows.RunWritesItsRow`. A decision made through `/decide` does record both: `RouteLaws.DecisionIsRecorded`.
- The kill-switch is read once per run. What has read it as off may still commit after an activation, and nothing
  else but a deactivation may: `SwitchLaws.ActivationStopsTheRest`, with such a post in
  `Examples.PostSettlesUnderTheSwitch`.
- The run nested in `POST /killswitch` is unsigned and from a CEO key, so it always stops at the anti-forgery gate:
  `SerialRuns.KillSwitchRouteSetsTheSwitch`.
- The log is said to verify whatever is appended. A payload that is a bare string of JSON text, or a bare infinity,
  does not survive storage: `Audit.ReadBackKeepsText` gives the exact condition, which every object payload meets.
- The comment on appendAudit assumes a lock that serializes appends; the code has none. Reading the last hash and
  inserting the row are two calls. `AuditOverlap.VerifiesExactlyAsRead` says when the log verifies without a lock:
  exactly when each append, at its insert, finds the last hash to be the one it had read.
  `AuditOverlap.VerifiesExactlyInTurn`: so it does when no other insert came in between, and otherwise only by a
  collision of the hash that walking back from the two logs finds. `AuditOverlap.OverlapBreaksTheLog` is a log that
  breaks whatever the hash, and under the lock the two calls amount to one append (`AuditOverlap.LockedIsAppended`),
  which is what the rest of the model takes.
- The agents' kill-switch awaits its read between looking at the cache and filling it, so calls of concurrent tasks
  can overlap. An older read that lands last then replaces a newer one: `KillSwitchOverlap.OlderReadOverwrites`. What
  remains true is `KillSwitchOverlap.AnswersAreFresh`, and an agent still posts only on a switch read as off
  (`EndToEnd.OutwardOnlyWhenSomeReadOff`).
- An infinite number prints as `null`, so the canonical printer identifies the two: `JsonLaws.InfinityPrintsAsNull`.
- Rescaling is said to keep estimates above settlements. It does, and keeps amounts non-negative, exactly when the
  rows before the last do not round above the target: `Seeding.CoherentExactly`, with a family of portfolios outside
  that condition in `Seeding.ResidueCanTurnNegative`.
- The seeding is said to control the claims ratio. The ledger's ratio over all departments is 70% to half a cent over
  the premiums (`Seeding.SeededRatio`), but premiums and claims are booked under different departments, so no ratio the
  dashboard shows by department is near that: `Seeding.SeededRatiosByDepartment`.
- The snapshot's ratios are called a mirror of the SQL view; they agree under the condition in
  `Dashboard.RatiosAgreeExactly`.

## Model

| member | source | states |
|---|---|---|
| JsonLaws.ParseInvertsStringify | buzz-hermes-bridge/src/commands/schemas.ts:197-203 | printed JSON text parses back to the value it printed: escapes, separators and numbers are unambiguous |
| JsonLaws.StablePrintsCanonical | buzz-hermes-bridge/src/commands/schemas.ts:197-203 | the recursive printer with sorted keys prints the plain text of one canonical form of the value |
| JsonLaws.CanonicalDecides | buzz-hermes-bridge/src/commands/schemas.ts:200-202 | two values have the same canonical form exactly when they are equal with objects as finite maps |
| JsonLaws.StableDecidesEquality | buzz-hermes-bridge/src/commands/schemas.ts:197-203 | two values print alike exactly when they are equal with objects as finite maps and infinities as null |
| JsonLaws.StableTextReadsBack | buzz-hermes-bridge/src/commands/schemas.ts:197-203 | canonical text is itself JSON and reads back to an equal value, and printing that again gives the same text |
| JsonLaws.InfinityPrintsAsNull | buzz-hermes-bridge/src/commands/schemas.ts:198 | the one confusion the printer makes |
| JsonLaws.CanonicalIsOrdered | buzz-hermes-bridge/src/commands/schemas.ts:197-203 | what is printed is the plain text of a value whose keys ascend at every depth |
| Text.LessAtFirstDifference | buzz-hermes-bridge/src/commands/schemas.ts:201 | keys ascend by code unit: a proper prefix first, else the smaller unit where they first differ |
| JsonLaws.EscapeIsShortest | buzz-hermes-bridge/src/commands/schemas.ts:198 | every unit is written in the shortest way RFC 8259 has, in small digits; lone surrogates by their digits |
| JsonLaws.EscapeKeepsPairs | buzz-hermes-bridge/src/commands/schemas.ts:198 | surrogate pairs are left as they are, and every other unit takes its own escape |
| Audit.AuditLog.AppendAudit | buzz-hermes-bridge/src/audit.ts:22-27 | the log grows by one row linked to the last hash, hashed from the payload as given and stored as JSON |
| Audit.VerifyAuditChain | buzz-hermes-bridge/src/audit.ts:43-75 | intact exactly when every row links and hashes right; otherwise the first row that fails, and which check failed first |
| Audit.PrefixVerifies | buzz-hermes-bridge/src/audit.ts:61-74 | verification is prefix-closed |
| Audit.ReadBackKeepsText | buzz-hermes-bridge/src/audit.ts:16-27 | storing, reparsing and reordering keys keeps the hashed text, exactly for the payloads that survive |
| Audit.BuiltRowLinks | buzz-hermes-bridge/src/audit.ts:22-27 | every row of a built log keeps its number, correlation id, source and action, links to its predecessor and carries the hash of its own payload |
| Audit.HashesCanonicalText | buzz-hermes-bridge/src/audit.ts:16-19 | what is hashed is the previous hash followed by the plain text of the payload with its keys in order |
| Audit.AppendKeepsVerifying | buzz-hermes-bridge/src/audit.ts:22-75 | appending a payload that survives storage keeps any verifying log verifying |
| Audit.BuiltLogVerifies | buzz-hermes-bridge/src/audit.ts:22-75 | a log made by any sequence of appends verifies |
| Audit.LostPayloadBreaksRow | buzz-hermes-bridge/src/audit.ts:43-83 | a row of a built log checks exactly when the text hashed for it and the text read back for it have one hash; the two texts are the same exactly when its payload survives storage |
| Audit.ChainCoversPayloadOnly | buzz-hermes-bridge/src/audit.ts:16-19 | source, action and correlation id are not covered by the chain |
| Audit.LastHashCommits | buzz-hermes-bridge/src/audit.ts:16-19 | two verified logs with one last hash agree in length and row by row, or walking back yields a concrete collision |
| AuditOverlap.VerifiesExactlyAsRead | buzz-hermes-bridge/src/audit.ts:21-75 | reads and inserts of any appends in any order: the log verifies exactly when each append, at its insert, found the last hash to be the one it had read |
| AuditOverlap.VerifiesExactlyInTurn | buzz-hermes-bridge/src/audit.ts:21-41 | the log verifies when no insert came between another's read and insert; if it verifies although one did, walking back from the rows that append saw and the rows it came after finds two texts with one hash |
| AuditOverlap.OverlapBreaksTheLog | buzz-hermes-bridge/src/audit.ts:22-41 | two appends that both read an empty log leave one that does not verify, whatever the hash |
| AuditOverlap.LockedIsAppended | buzz-hermes-bridge/src/audit.ts:21-27 | with each insert right after its read, the two calls build the log of single appends |
| AuditTrail.LogAlwaysVerifies | buzz-hermes-bridge/src/pipeline.ts:114-242 | from any store whose log verifies, it verifies in every reachable state of every interleaving of requests whose appends are serialized, failures and all, and each earlier log is a prefix of it |
| AuditTrail.RunLogVerifies | buzz-hermes-bridge/src/db/repository.ts:195-207 | the same of every serial run, through every route |
| AuditTrail.RecordSays | buzz-hermes-bridge/src/db/repository.ts:195-207 | an audit call adds one record of its event, numbered and linked to the newest, and nothing else |
| Policy.AllowedExactlyWhenPermitted | buzz-hermes-bridge/src/policy/policy.ts:27-120 | the cascade of checks allows exactly what the business rules, stated independently of their order, permit |
| Policy.DenialNamesFirstBroken | buzz-hermes-bridge/src/policy/policy.ts:27-120 | a denial gives the reason of the first broken rule, in the order of the rules for its command |
| Repository.PgRepository.RunEffect | buzz-hermes-bridge/src/pipeline.ts:196-221 | the statements of each command type inside a transaction that commits whole or rolls back whole |
| Pipeline.ProcessInboundCommand | buzz-hermes-bridge/src/pipeline.ts:80-112 | the whole run with its error routing reaches the store and result of the stage-by-stage specification |
| PipelineLaws.EffectMeans | buzz-hermes-bridge/src/pipeline.ts:196-221 | the transaction's statements add up to one business meaning per command |
| PipelineLaws.AllOrNothing | buzz-hermes-bridge/src/pipeline.ts:87-242 | under every failure pattern: which runs commit, which report 'executed', what a commit changes, and that 'denied' and 'consumed' leave all but the audit log alone |
| PipelineLaws.ExecutedMeansCommitted | buzz-hermes-bridge/src/db/repository.ts:209-222 | 'executed' is reported exactly for committed effects, except when the reply to COMMIT is lost |
| PipelineLaws.CommitsExactly | buzz-hermes-bridge/src/pipeline.ts:114-221 | a run commits exactly when its command is fresh, timely and given by someone authorized, and no call up to its effect fails |
| OutcomeLaws.RunFollowsFirstObstacle | buzz-hermes-bridge/src/pipeline.ts:80-163 | under every pattern of failures, answer, dead letters and audit events are those of the first failing call or closed gate: a transient error is thrown back and queues nothing, any other queues one dead letter of its own id and content |
| ApprovalRows.RunWritesItsRow | buzz-hermes-bridge/src/pipeline.ts:180-227 | a run touches no approval but its own, which ends as linked and resolved by its command; its id is consumed exactly when nothing stood before |
| ApprovalRows.PricingEntersRow | buzz-hermes-bridge/src/pipeline.ts:210-212 | a committed pricing exception enters exactly one approved row with its price, approver and reason, unless its correlation id has a row |
| ApprovalRows.ContentRunsOnce | buzz-hermes-bridge/src/pipeline.ts:132-138 | content that has had its effect is answered 'consumed' ever after, whoever sends it and under whatever correlation id |
| PipelineLaws.CommitsAreAuthorized | buzz-hermes-bridge/src/pipeline.ts:144-177 | a commit means a signed CEO, or an unsigned listed agent settling a claim within the threshold; and an open, unblocked claim |
| PipelineLaws.LockedLeavesTraces | buzz-hermes-bridge/src/pipeline.ts:157-163 | while the switch is on, only a deactivation gets past audit and dead letters |
| PipelineLaws.UnsignedCeoLeavesTraces | buzz-hermes-bridge/src/pipeline.ts:147-152 | a CEO author without a signature changes nothing but traces |
| Server.Bridge.HandleDecision | buzz-hermes-bridge/src/http/server.ts:216-274 | POST /approvals/:correlationId/decide, with the settlement it launches |
| RouteLaws.CommandRoute | buzz-hermes-bridge/src/http/server.ts:180-214 | exactly when a posted command is refused, that a refusal leaves no trace, and who it runs as otherwise |
| RouteLaws.ApprovalRoute | buzz-hermes-bridge/src/http/server.ts:162-178 | a known key's request enters a waiting row of exactly the claim, amount, reason and requester it names; any other leaves no trace |
| RouteLaws.DecisionRefused | buzz-hermes-bridge/src/http/server.ts:224-244 | who may decide what, and that a refused decision leaves no trace |
| RouteLaws.DecisionIsRecorded | buzz-hermes-bridge/src/http/server.ts:241 | an accepted decision writes status, decider and reason into its row, whatever becomes of the settlement, and nothing else into any row |
| RouteLaws.DecisionAnswered | buzz-hermes-bridge/src/http/server.ts:241-273 | what an accepted decision answers: what its settlement came to, if it launches one |
| RouteLaws.DecisionLaunches | buzz-hermes-bridge/src/http/server.ts:247-267 | what commits on a decision is the settlement of its approval's claim at its amount, in the CEO's name |
| RouteLaws.KillSwitchRoute | buzz-hermes-bridge/src/http/server.ts:276-303 | the row says what was asked and by whom, and a request by any other key leaves no trace |
| RouteLaws.RequestedIsPaid | buzz-hermes-bridge/src/http/server.ts:162-267 | in any serial run, what a decision pays on an approval requested earlier is for the requested claim and at most the requested amount |
| ApprovalLaws.EffectMoves | buzz-hermes-bridge/src/pipeline.ts:198-212 | the only statement that takes an approval out of 'approuve' is the reject effect's |
| ApprovalLaws.ProcessMoves | buzz-hermes-bridge/src/db/repository.ts:255-264 | one run keeps every approval's terms and moves it forward only, and out of 'approuve' only by its own committed rejection |
| ApprovalLaws.ServeMoves | buzz-hermes-bridge/src/http/server.ts:241-267 | the same of every request |
| SerialRuns.KillSwitchRouteSetsTheSwitch | buzz-hermes-bridge/src/http/server.ts:287-298 | the nested run never commits and leaves only traces (an audit record, or a dead letter if its first read fails): the route's whole effect is to set the switch |
| SerialRuns.ServeAccounted | buzz-hermes-bridge/src/http/server.ts:162-303 | a request changes claims and ledger by one authorized command's meaning, or not at all |
| SerialRuns.PostedTextIsTheCommand | buzz-hermes-bridge/src/http/server.ts:204-212 | the run parses the posted command back from the text it is given |
| SerialRuns.VerifiedEventCarriesCommand | buzz-hermes-bridge/src/identity/verify.ts:30-77 | an accepted signed event carries the very command that is run |
| SerialRuns.EffectsAreAuthorized | buzz-hermes-bridge/src/pipeline.ts:144-177 | every effect comes from a signed event with that command, a CEO decision on a waiting approval, or an agent's own small settlement |
| SerialRuns.SignatureBehindExactly | buzz-hermes-bridge/src/http/server.ts:224-267 | a verifying CEO event or an agent's own settlement stands behind a committed effect exactly unless it came of a decision without an event |
| SerialRuns.DecisionIgnoresContent | buzz-hermes-bridge/src/http/server.ts:224-239 | two verifying events of one key serve a decision alike, whatever they say |
| MoneyLaws.SettlementPaysWithin | buzz-hermes-bridge/src/db/repository.ts:591 | a settlement row pays between the lesser of claim and threshold, and the threshold |
| MoneyLaws.CommittedCoversExactly | buzz-hermes-bridge/src/db/repository.ts:583-603 | a committed settlement settles its claim with one row, which covers the claim exactly when the claim is within the threshold |
| MoneyLaws.DecisionPaysApproved | buzz-hermes-bridge/src/http/server.ts:249-267 | a settlement launched by a CEO decision pays its own approval's claim, and at most the approved amount |
| MoneyLaws.RunSettles | buzz-hermes-bridge/src/policy/policy.ts:60-97 | over any serial run each claim gets at most one settlement row, only if it was open, and 'regle' and 'refuse' are absorbing |
| MoneyLaws.DistinctRowsPayBounded | buzz-hermes-bridge/src/db/repository.ts:589-595 | rows for distinct claims pay at most the cap times the number of claims |
| MoneyLaws.PayoutBounded | buzz-hermes-bridge/src/db/repository.ts:583-603 | total payout of a run is at most the threshold times the number of claims open at its start |
| FreezeLaws.ServeHeld | buzz-hermes-bridge/src/pipeline.ts:157-163 | while the switch is on no request moves money or claims, and it stays on exactly unless a deactivation takes effect |
| FreezeLaws.SwitchingOffTakesTheCeo | buzz-hermes-bridge/src/policy/policy.ts:111-115 | a deactivation takes effect only by a CEO's own request: the route under a CEO key, or a deactivation the CEO signed |
| FreezeLaws.ServeFrozen | buzz-hermes-bridge/src/pipeline.ts:157-163 | under the switch any other request, refused attempts to switch it off included, leaves ledger, claims, consumed ids and the switch alone |
| FreezeLaws.RunHeld | buzz-hermes-bridge/src/http/server.ts:276-303 | until a deactivation takes effect no serial run moves money or claims |
| FreezeLaws.RunFrozen | buzz-hermes-bridge/src/pipeline.ts:157-163 | without a CEO's request to switch it off no serial run even consumes an id |
| FreezeLaws.ActivationFreezes | buzz-hermes-bridge/src/http/server.ts:276-303 | a CEO's activation through the route freezes every run that follows, whatever becomes of its reply |
| MoneyLaws.RunMovesApprovals | buzz-hermes-bridge/src/db/repository.ts:255-264 | over any serial run no approval changes its terms, no status returns to 'en_attente' and 'refuse' is final |
| MoneyLaws.LaunchedOnce | buzz-hermes-bridge/src/http/server.ts:241-267 | /decide launches the settlement of a correlation id at most once |
| Interleaved.AdvanceProgresses | buzz-hermes-bridge/src/pipeline.ts:114-247 | every call takes a run nearer its end |
| Interleaved.AloneIsSerial | buzz-hermes-bridge/src/pipeline.ts:80-247 | a run that nothing interrupts ends exactly where the serial pipeline does, for every failure pattern |
| InterleavedLaws.InvariantAlways | buzz-hermes-bridge/src/pipeline.ts:114-247 | the invariant behind the two rows below holds in every reachable state |
| InterleavedLaws.AtMostOnce | buzz-hermes-bridge/src/pipeline.ts:180-221 | for any requests, interleaving and failures: at most one consumption and one commit per command id, each commit preceded by its own consumption and audit row under a role that may act, at most one launch per approval |
| InterleavedLaws.TablesAreCommits | buzz-hermes-bridge/src/db/repository.ts:209-222 | at any moment claims, ledger and kill-switch are exactly the committed effects, each whole, in commit order |
| InterleavedLaws.PlayMovesApprovals | buzz-hermes-bridge/src/db/repository.ts:255-264 | interleaved or not: no approval waits again, a refusal is final, an approval falls only to a rejection committed in between |
| InterleavedLaws.OneClaimCanBeSettledTwice | buzz-hermes-bridge/src/pipeline.ts:165-203 | two different commands on one claim, each fit to settle it alone, can both settle it when their runs overlap |
| ClaimLaws.SettlementsOverlap | buzz-hermes-bridge/src/pipeline.ts:165-203 | interleaved: a settlement after another effect on its claim had passed the switch and read the claim before that effect committed |
| ClaimLaws.OneRowExactly | buzz-hermes-bridge/src/db/repository.ts:583-603 | interleaved: each claim gets at most one row exactly when no two settlements of a claim cross |
| ClaimLaws.PayoutBoundedUncrossed | buzz-hermes-bridge/src/db/repository.ts:583-603 | without such crossings the payout is at most the threshold times the claims open at the start |
| ClaimLaws.InTurnSettles | buzz-hermes-bridge/src/policy/policy.ts:60-97 | if no effect on a claim commits between another's read and commit, all that holds of claims and rows in serial runs holds of the interleaving |
| ClaimLaws.ClosedClaimSettledExactly | buzz-hermes-bridge/src/pipeline.ts:165-203 | a run in flight can still settle a claim closed by now exactly if it has read the claim, may settle it as it read it, and its id is free or its own |
| ResultLaws.ReportsAreHonest | buzz-hermes-bridge/src/pipeline.ts:180-242 | interleaved: a run that reports 'executed' has committed, one that reports a denial or a consumed command has not |
| ResultLaws.LoserIsConsumed | buzz-hermes-bridge/src/pipeline.ts:180-185 | a run whose id is taken before it consumes it reports and records that, and does nothing else |
| ResultLaws.RequestAloneIsServed | buzz-hermes-bridge/src/http/server.ts:162-303 | a request whose calls nothing comes between leaves the store as its route does |
| SwitchLaws.ActivationStopsTheRest | buzz-hermes-bridge/src/pipeline.ts:157-163 | interleaved: after an activation, until a deactivation, every commit but a deactivation is of a run that passed the switch before it |
| SwitchLaws.LateCommitIsPossible | buzz-hermes-bridge/src/pipeline.ts:157-203 | and such runs exist: any ready settlement can commit after the switch is on |
| Examples.LostReplyHidesCommit | buzz-hermes-bridge/src/db/repository.ts:209-222 | an agent's settlement committed while its caller hears of a dead letter |
| Examples.UnsignedDecisionSettles | buzz-hermes-bridge/src/http/server.ts:224-267 | a decision with no event settles its claim where no event would verify |
| Examples.LargeClaimIsHalfPaid | buzz-hermes-bridge/src/db/repository.ts:583-603 | a signed CEO settles a claim of twice the threshold, and half is paid |
| Examples.TwoPostsSettleOneClaim | buzz-hermes-bridge/src/pipeline.ts:165-203 | two posts of one agent both settle one claim |
| Examples.PostSettlesUnderTheSwitch | buzz-hermes-bridge/src/pipeline.ts:157-203 | a post settles its claim after the CEO has turned the switch on |
| KillSwitchCache.KillSwitch.IsActive | agents/_runtime/src/security/killswitch.ts:27-43 | the answer and the cache after it, from the clock and what a read would give |
| KillSwitchCache.CacheIsLatestRead | agents/_runtime/src/security/killswitch.ts:29-38 | the cache holds the latest successful read |
| KillSwitchCache.AnswerIsLatestRead | agents/_runtime/src/security/killswitch.ts:27-43 | every answer is the value of the latest successful read, or true when there is none |
| KillSwitchCache.FreshUnlessReadFails | agents/_runtime/src/security/killswitch.ts:28-42 | an answer is fresh (less than cacheMs old, or just read) exactly unless its own read failed |
| KillSwitchCache.ReadsAreApart | agents/_runtime/src/security/killswitch.ts:29-31 | successive successful reads are at least cacheMs apart |
| KillSwitchCache.ReadsAreBounded | agents/_runtime/src/security/killswitch.ts:29-31 | their number over a span is bounded by the span over cacheMs, plus one |
| KillSwitchOverlap.AnswersAreFresh | agents/_runtime/src/security/killswitch.ts:27-43 | overlapping calls: an answer is what its own read, or one begun less than cacheMs before it, says; if its own read failed, what some call read, or true |
| KillSwitchOverlap.GoesToDatabaseExactly | agents/_runtime/src/security/killswitch.ts:28-31 | a call reads exactly when no read has landed or the one that landed last began cacheMs ago or more |
| KillSwitchOverlap.OlderReadOverwrites | agents/_runtime/src/security/killswitch.ts:28-38 | two calls a millisecond apart both read, and the older read, landing last, replaces on by off |
| KillSwitchOverlap.OneByOneIsSequential | agents/_runtime/src/security/killswitch.ts:27-43 | calls that do not overlap give the answers and the cache of questions asked in order |
| Agent.RunTask | agents/_runtime/src/runtime/agent.ts:119-259 | the loop's records, fallback, phase and trace of acts |
| Agent.RequiredString | agents/_runtime/src/tools/tools.ts:65-71 | a required string is never empty and never longer than its cap |
| AgentLaws.TaskIsProper | agents/_runtime/src/runtime/agent.ts:119-259 | whatever the model answers: every act is justified by those before it, each reply's calls are answered in order unless the task aborts, at most six chats and one outward call |
| AgentLaws.AnswersFollow | agents/_runtime/src/runtime/agent.ts:185-210 | reply i is followed by the answers to its own calls, in order |
| AgentLaws.ExecutionIsGuarded | agents/_runtime/src/runtime/agent.ts:266-288 | an ok answer, a command or an escalation needs a registered and allowed tool; a settlement stays within the threshold, an escalation is above it |
| AgentLaws.RecommendationMeans | agents/_runtime/src/bridge/client.ts:62-96 | a recommendation becomes an escalation of the amount as given, a command for it to the nearest cent, or a refusal, and exactly when each |
| AgentLaws.RecommendationIsCapped | agents/_runtime/src/tools/tools.ts:418-465 | a candidate command is capped by the threshold on the cent grid, in the agent's own name |
| AgentLaws.OkAnswersAreAllowed | agents/_runtime/src/runtime/agent.ts:271-279 | every ok answer in a trace is to a registered and allowed tool |
| AgentLaws.OutwardCallsAreGuarded | agents/_runtime/src/runtime/agent.ts:217-243 | the outward call is the last act and directly follows an inactive check; no command is posted if any call escalated |
| AgentRules.TaskFollowsRules | agents/_runtime/src/runtime/agent.ts:119-259 | a task's trace is the run of a machine that looks at nothing but the trace so far, from its beginning to where nothing is due; records, fallback and stop are read off it |
| AgentRules.OneRunOnly | agents/_runtime/src/runtime/agent.ts:119-259 | that machine has one such run |
| AgentRules.OkRecordsAreAllowed | agents/_runtime/src/runtime/agent.ts:191-194 | every record marked ok names a registered and allowed tool |
| AgentRules.CallMeans | agents/_runtime/src/runtime/agent.ts:266-288 | a call is refused by name or run on scrubbed arguments, and only a recommendation yields anything to post |
| AgentRules.RecommendationIsOfItsArguments | agents/_runtime/src/tools/tools.ts:414-421 | claim, amount and reason of a recommendation come from the arguments of those names, and it is refused without them |
| AgentRules.RecommendationTells | agents/_runtime/src/tools/tools.ts:422-465 | what the model is told of a recommendation: its way, claim, amount and the threshold |
| AgentRules.ContentIsCut | agents/_runtime/src/runtime/agent.ts:203-209 | the conversation sees at most the first 4000 units of a result |
| EndToEnd.AgentPaysWithin | agents/_runtime/src/bridge/client.ts:62-96 | serving an agent's post leaves the ledger alone or adds one row within the bridge's and the agent's threshold |
| EndToEnd.AgentPaysOnce | agents/_runtime/src/tools/tools.ts:414-465 | in any serial run that row is the only one the run has for its claim |
| EndToEnd.OutwardOnlyWhenReadOff | agents/_runtime/src/runtime/agent.ts:217-243 | at the check directly before an outward call the latest successful read gave off, and was made less than cacheMs before or by that check, unless that check's own read failed |
| EndToEnd.OutwardOnlyWhenSomeReadOff | agents/_runtime/src/runtime/agent.ts:217-243 | with overlapping calls the same, except that the read need not be the latest |
| Seeding.Round | infra/postgres/seed_faker.py:178 | rounding is within half a cent, halves to even |
| Domain.CentsAreNearest | buzz-hermes-bridge/src/db/repository.ts:591-595 | a column holds the nearest cent, of two equally near the one away from zero |
| Seeding.RescaleSinistres | infra/postgres/seed_faker.py:162-192 | the claims after rescaling in place |
| Seeding.RescalingIsExact | infra/postgres/seed_faker.py:154-192 | posted amounts sum to the target, to the cent |
| Seeding.SharesAreWhole | infra/postgres/seed_faker.py:177 | the exact shares add up to the target |
| Seeding.RescaledNearShares | infra/postgres/seed_faker.py:172-192 | after rescaling every posting row posts within half a cent of its proportional share of the target, the last within (n-1)/2 cents |
| Seeding.CoherentExactly | infra/postgres/seed_faker.py:181-188 | every rescaled row is non-negative with estimate at least settlement, exactly when the rows before the last do not round above the target |
| Seeding.LargeLastShareSuffices | infra/postgres/seed_faker.py:169 | a last share of at least (n-1)/2 cents is enough |
| Seeding.ResidueCanTurnNegative | infra/postgres/seed_faker.py:180 | portfolios of one-cent reserves whose last row turns negative |
| Seeding.SeedPnl | infra/postgres/seed_faker.py:195-236 | the ledger rows written, their number and the two totals |
| Seeding.LedgerSums | infra/postgres/seed_faker.py:195-236 | the ledger sums to premiums minus fees minus positive claims, in two rows per contract and one per positive claim |
| Seeding.LedgerBooks | infra/postgres/seed_faker.py:195-236 | premiums are booked as 'prime' under auto, fees as 'frais' under finance, settlements and reserves as 'reglement' and 'provision' under the claims department, and nothing anywhere else |
| Seeding.FeesAreATenth | infra/postgres/seed_faker.py:213-216 | the fees are a tenth of the premiums, to half a cent a contract |
| Seeding.RescaledRow | infra/postgres/seed_faker.py:181-192 | a rescaled row keeps contract and status; settled ones get an estimate within half a cent of the drawn ratio, reserves no settlement, and rows that posted nothing stay |
| Seeding.SeedScaleMaison | infra/postgres/seed_faker.py:279-284 | rescale to the target, then write the ledger |
| Seeding.PostedIsTarget | infra/postgres/seed_faker.py:224-234 | after an in-bounds rescale the claims written total the target |
| Seeding.SeededRatio | infra/postgres/seed_faker.py:280-287 | the claims ratio read off the seeded ledger's rows is within half a cent over the premiums of 0.70 |
| Seeding.SeededRatiosByDepartment | infra/postgres/schema_v2.sql:144-153 | by department the seeded ledger has premiums without charges, or charges without premiums |
| Dashboard.WeeksStartOnMonday | buzz-hermes-bridge/src/db/repository.ts:540-546 | a day's week is the one Monday at most six days back |
| Dashboard.DaysAreCounted | buzz-hermes-bridge/src/db/repository.ts:540-546 | days are counted in UTC, and week days follow each other from a Thursday |
| Dashboard.TruncationIsMonday | infra/postgres/schema_v2.sql:127-139 | stepping back to a Monday, as the view truncates, gives the snapshot's week |
| Dashboard.KeyIsInjective | buzz-hermes-bridge/src/db/repository.ts:477 | the composite key tells week and department apart |
| Dashboard.Weekly | buzz-hermes-bridge/src/db/repository.ts:472-486 | the sorted rows and the cumulative result of the snapshot |
| Dashboard.RowsAreGroups | infra/postgres/schema_v2.sql:127-139 | the rows are exactly the view's groups: one per week and department, with the group's sum |
| Dashboard.RowsAreOrdered | buzz-hermes-bridge/src/db/repository.ts:482-486 | the rows come with the latest week first, and the departments in order within a week |
| Dashboard.WeeklyConserves | buzz-hermes-bridge/src/db/repository.ts:472-505 | the weekly rows add up to the cumulative result, for any ledger |
| Dashboard.Ratios | buzz-hermes-bridge/src/db/repository.ts:488-501 | the departments listed, and each one's ratio or null |
| Dashboard.RatiosAgreeExactly | infra/postgres/schema_v2.sql:144-153 | snapshot and view agree on a department exactly when its premiums are not negative and, if positive, its charges have one sign |
| Dashboard.RatiosMatchTheView | infra/postgres/schema_v2.sql:144-153 | under the ledger's sign convention they agree everywhere, and the view is null on departments without a premium |
| Dashboard.FiltersAgree | infra/postgres/schema_v2.sql:144-153 | the snapshot's premiums and charges are the view's filtered sums |
| Consistency.ReadInvertsStringify | buzz-hermes-bridge/src/audit.ts:77-83 | printing and parsing give every finite value back |
| Consistency.RenderedIsRead | buzz-hermes-bridge/src/commands/schemas.ts:197-203 | an example schema reads each settlement back from the object it is rendered as |
| Consistency.ExampleIsLawful | buzz-hermes-bridge/src/pipeline.ts:250-262 | all that is relied on about the libraries can be had together, with a schema that admits settlements |
| Skills.LaterFenceBreaks | agents/_runtime/src/skills/loader.ts:46-51 | a later key that begins with three dashes closes the frontmatter early, and the rest runs into the body |
| Skills.ParseSkillMarkdown | agents/_runtime/src/skills/loader.ts:41-80 | normalization, fences, lines and body |
| Skills.ClosingIsFound | agents/_runtime/src/skills/loader.ts:46 | the closing fence is found where the format puts it |
| Skills.KeyLineWithBlanks | agents/_runtime/src/skills/loader.ts:54-57 | blanks before and after the colon, and after the value, do not matter |
| Skills.InlineIsRead | agents/_runtime/src/skills/loader.ts:24-34 | an inline list reads back its items |
| Skills.QuotedListIsRead | agents/_runtime/src/skills/loader.ts:24-34 | a list of quoted items reads back the items, one quote off each end |
| Skills.StrayBulletsIgnored | agents/_runtime/src/skills/loader.ts:60-77 | bullets belong to the key directly above them; after a text or an inline list they are ignored |
| Skills.UnfencedIsBody | agents/_runtime/src/skills/loader.ts:43-49 | text that does not open, or is not closed, is all body |
| Skills.LinesAreRead | agents/_runtime/src/skills/loader.ts:53-78 | the lines of any settings leave exactly those settings in the data |
| Skills.DataHolds | agents/_runtime/src/skills/loader.ts:53-79 | with distinct keys the data holds exactly the settings |
| Skills.FrontmatterRoundTrip | agents/_runtime/src/skills/loader.ts:41-80 | settings and body rendered in the documented format parse back exactly when no key after the first begins with three dashes and none is the prototype's name |
| Skills.CrLfParsesAlike | agents/_runtime/src/skills/loader.ts:42 | CRLF input parses as its LF form |

## Left out

- Audit.AuditLog.AppendAudit: reading the last hash and inserting the row are one step, as under the lock the comment assumes; `AuditOverlap` takes them apart.
- AuditTrail.LogAlwaysVerifies: for the same reason an audit append is one step of an interleaving there; without the lock the exact condition is that of `AuditOverlap.VerifiesExactlyAsRead`.
- Claim ids are taken as resolved; the database's conversion of id text to integer is not modelled.
- Seeding.RescaleSinistres: amounts are exact cents and exact quotients, not binary floating point.
- KillSwitchCache.KillSwitch.IsActive: a call is one step, as when calls do not overlap; so its laws on the latest read and on the distance of reads are about questions asked in order. `KillSwitchOverlap` takes a call apart.
- Agent.RunTask: the prompts, the summary text, the memory write at the end and the PII masking itself are not modelled; masking is an arbitrary function that may leave arguments unparsable.
- The locale's comparison of texts is a parameter; it is relied on to order them consistently, and to tell the texts of different weeks apart.
- Dashboard.RowsAreGroups: the view's date_trunc works in the session's time zone, taken to be UTC.
- A number in JSON is the text JSON.stringify prints for it; minus zero and zero are one number, and `undefined` does not occur inside payloads.
- The column type of audit payloads keeps every JSON value up to key order; values a database refuses, such as U+0000 in a string, are not modelled.
- `canonical` in verify.ts repeats stableStringify; one function models both.
- Only settlement rows of the ledger are in the bridge's store; seeding and dashboard have their own ledgers.
- The channel reply, its text and the adapter: its failure is swallowed by the source and changes nothing.
- An error of the dead-letter queue itself goes back to the caller as it is; the model says only whether it was transient.
- Timestamps, correlation ids and command times are inputs.
- Table semantics come from the SQL text, not from the in-memory test stub.
- Approval expiry, exactly-once execution, listing routes, metrics, HTML pages, configuration loading and retries by the caller are not modelled.
- Risk scoring, lead qualification and the pricing grid: stateless lookups over fixed tables, which no law above depends on.
