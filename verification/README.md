# Verified model of the NAP agent registry

NAP registers agents under `agent://` URIs, moves them through a lifecycle that it records in a
hash-chained ledger, resolves their URIs, delegates certificate authority to other registries and
watches their endpoints. This project models those parts in Dafny and proves what they promise
over all inputs, all runs and all interleavings. `dafny verify dfyconfig.toml` checks everything.

| module | models |
|---|---|
| `Strings` | the Go string operations used below (index, cut, split, join, trim, decimal) |
| `TrustLedger` | entry encoding, chain verification, tamper evidence, the in-memory ledger |
| `PostgresLedger` | `Append` as interleaved transactions under the advisory lock |
| `Capability`, `Uri`, `AgentId` | the identity strings: capability paths, URI printing and parsing, agent IDs |
| `AgentTable`, `Registry`, `AgentService` | the agents table, lifecycle calls one at a time, and the service object that carries them out |
| `Lifecycle`, `ProofStore` | the same calls statement by statement, interleaved with DNS challenges and e-mail verification, and the stores behind the gate |
| `TxtTiming`, `AuditOrder`, `Tokens` | what of that depends on when DNS answers, on the order in which audit entries are logged, and on which calls use a token at the same time |
| `Federation` | registries that issue intermediate CAs to each other |
| `RateLimit`, `RateBound`, `RateSchedules`, `Health`, `ResolverCache` | the time-driven components, with their locks, goroutines and clocks |
| `Batch` | the two batch fan-outs |
| `Usernames`, `Threat` | username allocation and the threat score |

Where the source updates state in place there is a class whose methods are proved equal to step
functions, and the whole-run results are lemmas about those functions. Concurrency is a state
machine: a step is one statement, critical section or channel operation, and a run is any sequence
of steps.

## Assumptions

- SHA-256 is an arbitrary function to 64 hex digits. Tamper evidence hands out the collision, or
  the preimage of the genesis constant, that a difference would need.
- Generated row keys, challenge IDs and agent IDs are fresh. `IDInjective` shows what agent-ID
  freshness comes down to: different timestamps or random bytes.
- Clocks never go back. In `RateLimit` a request reads the clock at its lookup and again before it
  takes a token; results are stated for the longest time from lookup to take, and cleanup is
  invisible with the shipped burst for up to 598 seconds.
- Transactions run at the default isolation level of PostgreSQL, READ COMMITTED.
- In `Registry` calls run one at a time and ledger appends succeed; `Lifecycle` drops both.
- In `Health` a round lists each agent once, as the primary key of the query makes sure.
- `Federation` processes path lengths as in section 6.1.4 of RFC 5280; `AgentId` encodes as in
  section 6 of RFC 4648.

## Where the code differs from what it says

- `Activate` looks at no status, so it also revives revoked agents, which can overrun the quota:
  `QuotaKeptIff` has the exact case and `QuotaCanBeExceeded` a run.
- `normalizeCapability` is not idempotent (`NormalizeIdempotentIff`); the category of an accepted
  capability is a fixed point all the same.
- Agent IDs grow with time in base32 alphabet order. As ASCII text two of them are in order unless
  at the first difference of their timestamps the alphabet passes from letters to digits
  (`AsciiOrderIff`), which happens about twice a second (`AsciiOrderDiffers`).
- `Verify` accepts any `Index` (`VerifyIgnoresIndex`). A ledger text column that holds `|` can be
  re-read as different columns with the same hash; `ForgeableIff` says this is the only way to
  alter a verified ledger while keeping every hashed text.
- `IssueIntermediateCert` accepts a path length of -1, which means no constraint; only the depth
  column keeps it out (`IssueKeepsLogIff`).
- Audit entries are appended after the status write, so concurrent calls can log in an order that
  replays to another status (`AuditOrderCanDiffer`), and a failed append loses one. `AuditSettlesIff`
  has the exact condition: no status is set while another call has still to log a different one, and
  no append fails for the last outstanding entry when the trail says something else.
- A cache hit rebuilds the URI from the request, where a miss returns the registry's; `HitURIIff`
  says when they are the same. An invalidation lasts exactly when no call holds a reply for the
  same request that it has not stored yet (`InvalidationLastsIff`).
- The token bucket is drawn from by a clock reading that other requests can overtake, and going back
  to an older reading refills it for the same time twice. `RateBounded` has the bound with that
  extra; `BoundKeptIff` says that the advertised bound is kept in every run exactly when the burst is
  at most one or no time can pass between lookup and take. Cleanup is invisible in every run exactly
  when a burst refills within the idle time less that delay (`CleanupInvisibleIff`).
- Lengthening a name or description never lowers the threat score, but lengthening an endpoint can;
  `LongerEndpointLowersIff` says exactly when.
- The expiry of a DNS challenge is checked before DNS is asked and not again, so an answer that comes
  after the expiry still verifies the domain; `LateReplyReachable` gives a run. `GateOverRuns` says
  what holds in every run. `GatedInTimeIff` says exactly when every gated domain also has an answer
  that was in time, and `NoLateReplyGatedInTime` that it suffices that no answer comes late.
- The comments say that a token is marked used atomically, but the transaction reads it before it
  marks it and at READ COMMITTED two of them may both read it unused (`UsedTwice`). A used or expired
  token is never used again exactly when no call is between the two statements (`NeverAgainIff`), and
  calls that take turns use a token at most once (`UsedOnce`).
- A federated registry's pool of intermediates is its own certificate, which is too small for
  sub-delegated ones (`OwnLeafIff`); with all certificates in it every leaf would verify
  (`FullPoolAccepts`).

## Model

| member | source | states |
|---|---|---|
| `TrustLedger.EncodingInjective` | internal/trustledger/entry.go:27-36 | the `|`-joined text of a separator-free entry determines every hashed field, even against entries that do hold separators |
| `TrustLedger.EncodeText` | internal/trustledger/entry.go:27-36 | the hashed text is the seven columns in their order with a bar between them |
| `TrustLedger.RereadSameText` | internal/trustledger/entry.go:27-36 | an entry that does hold the separator shares its text with a different entry |
| `TrustLedger.TamperEvidence` | internal/trustledger/memory.go:82-114 | two verified ledgers with one root, the first separator-free, have the same length and entries from index 1 on; otherwise a collision or genesis preimage is handed out |
| `TrustLedger.ForgeableIff` | internal/trustledger/memory.go:82-114 | a verified ledger admits a different verified one with the same root and the same texts if and only if some text column holds the separator |
| `TrustLedger.AppendKeepsChain` | internal/trustledger/memory.go:37-61 | appending keeps the chain verified, indices contiguous and earlier entries in place; when the new entry is tamper-evident |
| `TrustLedger.AppendedEntry` | internal/trustledger/memory.go:37-61 | an append adds one entry with the request's URI, action and actor, the clock reading, the next index, the hash of the payload, the tail's hash and the hash of its own text; without a payload nothing |
| `TrustLedger.VerifyIgnoresIndex` | internal/trustledger/memory.go:82-104 | any verified chain with any indices in place of its own, hashed again, verifies and has the same contents |
| `TrustLedger.ReindexedPrefix` | internal/trustledger/memory.go:82-104 | only entries from the first changed index on are hashed anew |
| `TrustLedger.MemoryLedger.Append` | internal/trustledger/memory.go:37-61 | the entries become the specified extension (`AppendedEntry` says what it records); a payload that does not marshal changes nothing |
| `TrustLedger.MemoryLedger.Verify` | internal/trustledger/memory.go:82-104 | accepts exactly the verified chains, and otherwise reports the first defect: where the chain stops being in order, by that entry's index, and which check fails |
| `TrustLedger.MemoryLedger.Get` | internal/trustledger/memory.go:64-71 | the entry at an index in range, otherwise an error |
| `TrustLedger.MemoryLedger.ReadRoot` | internal/trustledger/memory.go:107-114 | the hash of the last entry |
| `PostgresLedger.InterleavingsRefineMemory` | internal/trustledger/postgres.go:33-93 | every interleaving of append transactions leaves the rows that in-memory appends of the committed requests give; contiguous indices, verified chain, no shared tail |
| `PostgresLedger.RunKeepsInv` | internal/trustledger/postgres.go:33-93 | committed rows never change or disappear, and the lock protocol invariant holds in every reachable state |
| `PostgresLedger.UninterruptedAppend` | internal/trustledger/postgres.go:33-93 | a transaction left alone with the lock performs exactly one in-memory append, unless the hash is taken, and leaves the lock free and no transaction behind |
| `PostgresLedger.LockHolder` | internal/trustledger/postgres.go:43-50 | in every interleaving the lock is held exactly by the open transaction past asking for it, if there is one |
| `PostgresLedger.EndingFreesLock` | internal/trustledger/postgres.go:43-50 | however the holder ends (commit, rollback, refused insert), any waiting transaction gets the lock with its next statement |
| `PostgresLedger.TwoAppends` | internal/trustledger/postgres.go:33-93 | two appends one after the other both commit, unless a hash is taken |
| `PostgresLedger.CommittedWereBegun` | internal/trustledger/postgres.go:33-93 | every request committed in a run was begun in it with the same columns and payload |
| `PostgresLedger.PayloadEvidence` | internal/trustledger/postgres.go:33-93 | two sequences of requests whose ledgers have one root are the same, payloads included, or a broken entry hash or two payloads with one hash are handed out |
| `PostgresLedger.ReplayInMemory` | internal/trustledger/memory.go:37-61 | repeated calls of the in-memory `Append` produce the specified rows |
| `PostgresLedger.Database.TxBegin` | internal/trustledger/postgres.go:33-93 | opens a transaction for a request whose payload marshals |
| `PostgresLedger.Database.TxLock` | internal/trustledger/postgres.go:33-93 | takes the advisory lock if it is free |
| `PostgresLedger.Database.TxReadTail` | internal/trustledger/postgres.go:33-93 | reads index and hash of the last row, or ends the transaction on an empty table |
| `PostgresLedger.Database.TxInsert` | internal/trustledger/postgres.go:33-93 | stages the entry built on the row read, unless a unique column is taken |
| `PostgresLedger.Database.TxCommit` | internal/trustledger/postgres.go:33-93 | makes the staged row the last one and releases the lock |
| `PostgresLedger.Database.TxRollback` | internal/trustledger/postgres.go:33-93 | forgets the transaction and releases the lock |
| `PostgresLedger.VerifyStream` | internal/trustledger/postgres.go:122-161 | the streaming loop accepts exactly the verified chains and reports the first defect otherwise |
| `Capability.NormalizeIdempotentIff` | internal/registry/service/agent.go:812-817 | normalizing twice is normalizing once exactly for inputs that, inside their outer white space and then their outer separators, neither start nor end with white space |
| `Capability.NormalizeNotIdempotent` | internal/registry/service/agent.go:812-817 | an input on which normalizing twice differs from once |
| `Capability.CategoryIsFixedPoint` | internal/registry/model/capabilities.go:122-166 | the top-level category of an accepted capability is nonempty, slug-safe and unchanged by normalization |
| `Capability.NormalizedText` | internal/registry/service/agent.go:812-817 | the normal form is, character by character, what is inside the outer white space and separators, in lower case and with `>` for `/` |
| `Capability.CoreCut` | internal/registry/service/agent.go:812-817 | what normalizing drops is white space and separators, and what is left starts and ends with no separator |
| `Capability.ValidJoinIff` | internal/registry/model/capabilities.go:122-157 | a path is accepted if and only if it has 1 to 3 levels of 1 to 100 bytes, 200 bytes in all, and a first level of letters, digits, hyphens and underscores |
| `Capability.SlugText` | internal/registry/service/agent.go:820-824 | a skill slug is, character by character, the ID inside its outer white space, in lower case and with hyphens for blanks |
| `Uri.ParsePrint` | pkg/uri/uri.go:46-109 | printing then parsing returns every clean component tuple |
| `Uri.ParseGivesClean` | pkg/uri/uri.go:46-100 | whatever escape-free text is accepted, the components are clean |
| `Uri.CanonicalForm` | pkg/uri/uri.go:46-109 | printing an accepted URI parses back to the same components and is a fixed point |
| `Uri.AcceptedIff` | pkg/uri/uri.go:46-141 | which absolute URIs are accepted: scheme agent in any case, clean nonempty host, two path segments or more, nonempty clean first segment, last one starting with `agent_`; and which components are returned |
| `Uri.RoundTripIff` | pkg/uri/uri.go:46-109 | a component tuple survives printing and parsing if and only if it is clean |
| `Uri.AnySkillParsesBack` | pkg/uri/uri.go:46-100 | slashes in the skill disturb neither organisation, category nor agent ID |
| `Uri.ParsesBackIff` | pkg/uri/uri.go:46-100 | every agent ID parses back under an organisation and skill if and only if the organisation is a clean host and the skill has no `?`, `#` or control character |
| `AgentId.TimestampBytes` | internal/registry/service/agent.go:794-808 | the byte loop writes the timestamp big-endian into the buffer |
| `AgentId.DecodeEncode` | internal/registry/service/agent.go:794-808 | base32 decoding returns the encoded bytes, for every byte sequence |
| `AgentId.EncodeValue` | internal/registry/service/agent.go:794-808 | the groups of five bits write the whole input as one number |
| `AgentId.TestVectors` | internal/registry/service/agent.go:794-808 | the encodings of fooba and foobar are those of section 10 of RFC 4648, in lower case and unpadded |
| `AgentId.IDRoundTrip` | internal/registry/service/agent.go:794-808 | the ID is `agent_` and 29 characters from a-z and 2-7, which decode to the 18 bytes |
| `AgentId.IDInjective` | internal/registry/service/agent.go:794-808 | equal IDs have equal timestamps and random bytes |
| `AgentId.LaterIDIsGreater` | internal/registry/service/agent.go:794-808 | a later timestamp gives a greater ID in alphabet order, whatever the random bytes |
| `AgentId.AsciiOrderIff` | internal/registry/service/agent.go:794-808 | a later ID is later as ASCII text unless the timestamps' first differing quintet goes from a letter to a digit, and then it is earlier; whatever the random bytes |
| `AgentId.AsciiOrderDiffers` | internal/registry/service/agent.go:794-808 | for every timestamp whose twelfth character is `z`, the ID made 16 ms later is earlier as ASCII text |
| `AgentId.IDIsClean` | pkg/uri/uri.go:132-140 | every ID passes the URI parser's ID check and holds no slash or special character |
| `AgentTable.MatchesOwnCategory` | internal/registry/repository/agent.go:92-100 | a row is found under its own top-level category by the equality-or-LIKE lookup |
| `AgentTable.LikePrefixIff` | internal/registry/repository/agent.go:92-100 | a LIKE pattern that ends in its only `%` matches exactly the texts that start with it, an underscore standing for any character |
| `AgentTable.MatchesIff` | internal/registry/repository/agent.go:92-100 | the lookup matches exactly rows with the same trust root and agent ID whose capability is the one asked for or below it |
| `AgentTable.URIText` | internal/registry/model/agent.go:100-109 | the URI shows trust root, first capability level, the skill if there is one, and agent ID |
| `AgentTable.AgentRepository.Create` | internal/registry/repository/agent.go:31-80 | inserts the row exactly when its key is free and no row has the same trust root, capability and agent ID |
| `AgentTable.AgentRepository.ExecStatement` | internal/registry/repository/agent.go:403-559 | a guarded statement affects exactly the addressed row, and only if its guard holds |
| `AgentTable.AgentRepository.GetByAgentID` | internal/registry/repository/agent.go:92-100 | returns a matching row, or nothing exactly when none matches |
| `AgentTable.AgentRepository.CountByOwner` | internal/registry/repository/agent.go:308-315 | counts the non-revoked agents of the owner |
| `Registry.ReplayEqualsTable` | internal/registry/service/agent.go:394-721 | in every run, folding the ledger entries with a present agent's URI gives its status, the ledger verifies, and no other agent, past or present, has that URI |
| `Registry.URINeverChanges` | internal/registry/repository/agent.go:403-439 | a present agent's URI is the same in all states |
| `Registry.RegistrationIff` | internal/registry/service/agent.go:252-353 | which registrations are accepted: a valid path from the first field that holds one, and owner and user name for hosted agents, or endpoint and a non-blank owner domain |
| `Registry.StoredColumns` | internal/registry/service/agent.go:297-351 | what each column of the new row holds: pending, the chosen path, the registry's or the owner's domain as trust root, nothing of a certificate, suspension, deprecation or revocation |
| `Registry.StoredSkill` | internal/registry/service/agent.go:820-837 | the stored skill is the slug of a nonempty first skill ID, character by character, else the last level of a path of several, else empty |
| `Registry.DeclaredSkillDecides` | internal/registry/service/agent.go:828-837 | with a declared skill ID the stored skill does not depend on the capability |
| `Registry.PlansAreTruthful` | internal/registry/service/agent.go:449-721 | the action logged by each call says what its statement did to the status |
| `Registry.RunKeepsInv` | internal/registry/service/agent.go:252-721 | the whole invariant over any run: chain, identities, distinct URIs, ledger in step with the table |
| `Registry.PrintedURIResolves` | internal/registry/service/agent.go:420-436 | the printed URI of every present agent with clean trust root and skill parses, and resolving it can only give that agent, if it is active or deprecated, or else its status |
| `Registry.ResolvesIff` | internal/registry/service/agent.go:420-436 | for every request whose category has no `%` or backslash: an agent found is one it denotes and active or deprecated, a refusal names the status of another such agent, and nothing is found exactly when there is none |
| `Registry.RegistrableIff` | internal/registry/model/agent.go:100-109 | the printed URIs of a trust root and skill parse back for all agent IDs if and only if these are clean |
| `Registry.QuotaKeptIff` | internal/registry/service/agent.go:286-296 | a call keeps every user within the limit unless it activates a revoked hosted agent of a user at the limit |
| `Registry.QuotaCanBeExceeded` | internal/registry/service/agent.go:286-296 | a run from the start, with a limit of one, that leaves a user with two non-revoked hosted agents |
| `Registry.QuotaOverRuns` | internal/registry/service/agent.go:493-526 | in every run that activates no revoked agent, no user exceeds the limit |
| `AgentService.Service.RegisterAgent` | internal/registry/service/agent.go:252-407 | performs exactly the specified registration: succeeds unless the request is invalid, the user is at the limit or a key is taken, and logs it under the new URI and its owner; otherwise nothing changes |
| `AgentService.Service.UpdateAgent` | internal/registry/service/agent.go:449-491 | each nonempty field replaces the stored one, the rest stays; logs an update by the owner domain |
| `AgentService.Service.ActivateAgent` | internal/registry/service/agent.go:498-600 | makes an existing agent active that passes the gate and, with an issuer, has a certificate, which it stores; logs it; otherwise nothing changes |
| `AgentService.Service.RevokeAgent` | internal/registry/service/agent.go:602-629 | makes an existing agent revoked, stores a nonempty reason and logs it |
| `AgentService.Service.SuspendAgent` | internal/registry/service/agent.go:632-654 | makes an active agent suspended with the time and logs it; otherwise nothing changes |
| `AgentService.Service.RestoreAgent` | internal/registry/service/agent.go:657-675 | makes a suspended agent active without a suspension time and logs it; otherwise nothing changes |
| `AgentService.Service.DeprecateAgent` | internal/registry/service/agent.go:683-721 | makes an active agent deprecated with time, sunset date and replacement and logs it; refuses a malformed date |
| `AgentService.Service.DeleteAgent` | internal/registry/service/agent.go:789-791 | removes the row and logs nothing |
| `AgentService.Service.Resolve` | internal/registry/service/agent.go:420-436 | hands out only active and deprecated agents with that trust root and agent ID, names the status of others, and finds nothing exactly when no row matches |
| `Lifecycle.GateOverRuns` | internal/registry/service/agent.go:498-526 | whatever interleaves, every active, suspended or deprecated agent has a verified challenge whose successful lookup was begun before expiry, or an owner with a verified e-mail, and still has it after any further steps |
| `Lifecycle.OrgIsProven` | internal/registry/service/agent.go:252-407 | the organisation of every resolvable agent is the registry's own name, for hosted ones, or the lower-case form of a domain so verified |
| `TxtTiming.GatedInTimeIff` | internal/registry/service/agent.go:498-526 | in every state of a run every active, suspended or deprecated domain agent has a verified challenge with a lookup answered before expiry, if and only if no activation takes effect on a domain agent whose domain has none |
| `TxtTiming.NoLateReplyGatedInTime` | internal/dns/dns.go:50-70 | in a run without replies after the expiry every such agent has one |
| `TxtTiming.LateReplyActivates` | internal/registry/service/dns_challenge.go:99-145 | from any state, a run in which a reply after the expiry makes a domain agent active |
| `TxtTiming.LateReplyReachable` | internal/registry/service/dns_challenge.go:99-145 | so it happens from the start to every domain agent that can be registered, with or without an owner, and its domain then has no challenge answered in time |
| `Lifecycle.ActivationIff` | internal/registry/service/agent.go:498-600 | an undisturbed activation ends active if and only if the agent was active, or its owner domain has a verified challenge, or its owner, if it has one, a verified e-mail |
| `Lifecycle.TierIsEarned` | internal/registry/model/agent.go:113-125 | in every run exactly active and deprecated agents have a tier: verified and trusted, without and with a certificate, imply a domain challenge verified by a lookup begun in time, basic a verified owner e-mail |
| `Lifecycle.EdgesOverRuns` | internal/registry/repository/agent.go:442-559 | for every interleaving, each status change is a legal edge of its call, suspended rows have a suspension time and deprecated rows a deprecation time |
| `Lifecycle.PendingNeverReentered` | internal/registry/service/agent.go:602-721 | once out of pending an agent never returns to it |
| `Lifecycle.PlannedWrite` | internal/registry/service/agent.go:602-721 | a write planned from a stale row takes the current row only along a legal edge |
| `Lifecycle.RunKeepsInv` | internal/registry/repository/dns_challenge.go:61-104 | verified challenges and verified e-mails persist through pruning and every other step |
| `AuditOrder.AuditSettlesIff` | internal/registry/service/agent.go:224-244 | the trail of an agent, registration included, replays to its status in every state of a run, whatever the order of outstanding entries, if and only if no write sets its status while another call has still to log a different one and no append fails for the last outstanding entry when the trail says something else |
| `AuditOrder.SettlesIff` | internal/registry/service/agent.go:224-244 | in a given state that is so exactly when all outstanding entries say what the status is, or there are none and the trail says it already |
| `AuditOrder.AuditReplaysOneAtATime` | internal/registry/service/agent.go:394-721 | if no write to an agent takes effect while an entry about it is outstanding, and none of their appends fails, the trail replays to the table once all are logged |
| `AuditOrder.AuditOrderCanDiffer` | internal/registry/service/agent.go:224-244 | from any state with an active agent, a suspend and a restore whose entries are logged in reverse leave an audit trail that replays to the wrong status |
| `ProofStore.Store.StartChallenge` | internal/registry/service/dns_challenge.go:52-81 | issues an unverified challenge that expires 900 seconds later; refuses the empty domain |
| `ProofStore.Store.VerifyChallenge` | internal/registry/service/dns_challenge.go:99-145 | runs exactly the read, check, reply and mark statements; each result exactly in its case, and only success marks the challenge |
| `ProofStore.VerifyCallIff` | internal/registry/service/dns_challenge.go:99-145 | a challenge ends verified exactly when it was before, or is in time at both expiry checks and its record is found, whenever the reply comes |
| `ProofStore.Store.IsDomainVerified` | internal/registry/service/dns_challenge.go:149-158 | true exactly when a verified challenge for the domain exists |
| `ProofStore.Store.DeleteExpired` | internal/registry/repository/dns_challenge.go:96-104 | removes exactly the unverified expired challenges and counts them |
| `ProofStore.Store.UseVerificationToken` | internal/users/repository.go:125-167 | succeeds exactly for a token that is there, of the right type, unused and not expired; then marks it used and verifies the address of its own user, else changes nothing |
| `ProofStore.Store.UsePasswordResetToken` | internal/users/repository.go:173-211 | likewise for reset tokens, without touching e-mail verification |
| `Tokens.UndisturbedUse` | internal/users/repository.go:125-211 | the two statements of a use that nothing interleaves with use the token exactly if it is there, of the right type, unused and not expired |
| `Tokens.HoldersAfter` | internal/users/repository.go:125-211 | a call gets past the read only with an unused token that has not expired, and only by using it does one cease to hold it |
| `Tokens.UsesConserved` | internal/users/repository.go:125-211 | once a token is used or expired, uses and calls holding it are kept in sum in every run: further uses are only by calls that read it before |
| `Tokens.NeverAgainIff` | internal/users/repository.go:125-211 | a used or expired token is never used again in any continuation if and only if no call holds it |
| `Tokens.UsedOnce` | internal/users/repository.go:125-211 | in every run in which calls take turns with a token it is used at most once |
| `Tokens.UsedTwice` | internal/users/repository.go:125-211 | from any state with a usable token, a run in which two calls use it |
| `ProofStore.Store.LinkExisting` | internal/users/service.go:198-221 | an OAuth login that matches an account by e-mail verifies it |
| `ProofStore.Store.IsEmailVerified` | internal/users/service.go:178-184 | reads the verification flag, false for unknown users |
| `Federation.DelegationDepth` | internal/federation/service.go:81-142 | after any sequence of steps from the start every issued chain has strictly falling path lengths in 0..2, at most 3 intermediates, is valid under RFC 5280 with a leaf appended, and further steps do not change it |
| `Federation.CertsAreApproved` | internal/federation/service.go:81-123 | behind every certificate of every run there is an issue step for a registry that was then active, approved before and not suspended in between, with its trust root and depth |
| `Federation.OnlyActiveIssues` | internal/federation/service.go:81-123 | a step that extends the log is an issue for an active registry by a node with signing authority, and what the certificate is |
| `Federation.RootsStayUnique` | internal/federation/service.go:27-50 | in every run no two registries of a node have one trust root, and none has an empty one |
| `Federation.CanDelegate` | internal/federation/service.go:81-123 | a node can delegate every path length in 0..2 below its own: a run that issues that certificate |
| `Federation.ThreeLevelsReachable` | internal/identity/issuer.go:80-131 | the bound of three intermediates is attained by a run |
| `Federation.DecreasingIsValid` | internal/identity/issuer.go:80-131 | strictly falling path lengths pass the path-length processing of section 6.1.4 of RFC 5280 |
| `Federation.IssueKeepsLogIff` | internal/identity/issuer.go:80-131 | issuing keeps all chains falling exactly when the requested length is not -1 (and at most 2 from the root) |
| `Federation.IssuesIff` | internal/identity/issuer.go:80-131 | which path lengths are accepted: from the root -1 or more, with an intermediate -1 or more and below a positive one of its own |
| `Federation.OwnLeafIff` | internal/identity/issuer.go:283-304 | there is a trusted path from a registry's own certificate, its only intermediate, exactly when its anchor is that certificate or its direct issuer; under the root CA exactly for directly issued ones |
| `Federation.FullPoolAccepts` | internal/identity/issuer.go:283-304 | with all certificates as intermediates there is a trusted path to the root CA for the leaves of every registry |
| `Federation.FederationService.Register` | internal/federation/service.go:27-50 | adds a pending registry unless a field is missing or the trust root is taken |
| `Federation.FederationService.IssueIntermediateCA` | internal/federation/service.go:81-123 | issues and stores a certificate exactly for an active registry whose request the issuer accepts, with its trust root and depth |
| `Federation.FederationService.UpdateMaxPathLen` | internal/federation/service.go:127-142 | sets the depth of an existing registry exactly for 0, 1 and 2 |
| `RateLimit.CleanupInvisible` | internal/registry/handler/ratelimit.go:20-59 | for every interleaving of lookups, clock readings, takes and cleanups, each decision is that of a limiter that never forgets |
| `RateSchedules.CleanupInvisibleIff` | internal/registry/handler/ratelimit.go:20-59 | every run decides as a limiter that never forgets, if and only if a burst refills within 600 seconds less the longest time from lookup to take |
| `RateLimit.ForgettingIsSoundIff` | internal/registry/handler/ratelimit.go:24-36 | an emptied bucket is full again whenever it may be forgotten if and only if a burst refills within the idle time |
| `RateLimit.ShippedConfigRefills` | cmd/registry/main.go:361-363 | a burst of twice the rate meets that condition for delays up to 598 seconds |
| `RateBound.RateBounded` | internal/registry/handler/ratelimit.go:38-57 | in every interleaving no address gets more than burst plus rate times length requests through in a window, plus what accrues for the time overtaken readings turn its bucket back |
| `RateBound.RateBoundedInOrder` | internal/registry/handler/ratelimit.go:38-57 | the advertised bound when the requests of the address use their readings in order |
| `RateSchedules.BoundKeptIff` | internal/registry/handler/ratelimit.go:38-57 | the advertised bound is kept in every run if and only if the burst is at most one or no time can pass between lookup and take |
| `RateLimit.ExactlyABurst` | internal/registry/handler/ratelimit.go:38-57 | a full bucket allows exactly a burst of requests at one moment |
| `RateLimit.SteadyNeverRefused` | internal/registry/handler/ratelimit.go:38-57 | whoever waits for one token's worth after an allowed request is allowed again |
| `RateLimit.RefusalIsFree` | internal/registry/handler/ratelimit.go:50-57 | a refused request changes no later answer |
| `RateLimit.AllowsIff` | internal/registry/handler/ratelimit.go:50-57 | a request is granted exactly when the tokens left and those accrued since at the rate make one, and the burst is positive |
| `RateLimit.FirstBurst` | internal/registry/handler/ratelimit.go:38-57 | an address seen for the first time gets exactly a burst through at once |
| `RateLimit.RateLimiter.Lookup` | internal/registry/handler/ratelimit.go:41-48 | finds or creates the bucket of the address and stamps it |
| `RateLimit.RateLimiter.Read` | internal/registry/handler/ratelimit.go:50-57 | reads the clock for a request, once |
| `RateLimit.RateLimiter.Take` | internal/registry/handler/ratelimit.go:50-57 | takes a token by that reading from the bucket looked up if it has one, else leaves it alone |
| `RateLimit.RateLimiter.Cleanup` | internal/registry/handler/ratelimit.go:25-36 | deletes exactly the entries idle for more than ten minutes |
| `Health.HealthMatchesHistory` | internal/health/checker.go:107-172 | after any goroutine interleaving the counter is the trailing run of failures, webhooks are the maximal failing runs that reached the threshold (3 unless configured), and the status is degraded when the run is at least that, else healthy if a probe ever succeeded, else unknown |
| `Health.HistoryIsObserved` | internal/health/checker.go:122-138 | in every interleaving each probe result is counted once and in order |
| `Health.TenInFlight` | internal/health/checker.go:114-122 | in every reachable state at most ten goroutines are past the semaphore, and a waiting one gets past it exactly when fewer are |
| `Health.RoundCompletes` | internal/health/checker.go:107-172 | from every reachable state all goroutines under way can come to their end, so no slot is lost and the next round can start |
| `Health.LongRunsGrow` | internal/health/checker.go:130-168 | a result completes a new long run exactly when the trailing run has just reached the threshold |
| `Health.TrailingIsMaximal` | internal/health/checker.go:130-137 | the trailing run is all failures and cannot be extended |
| `Health.HealthChecker.Count` | internal/health/checker.go:130-138 | the critical section updates the agent's counter and nothing else |
| `Health.HealthChecker.Write` | internal/health/checker.go:142-160 | writes healthy on success, degraded exactly at the threshold, and otherwise nothing |
| `ResolverCache.KeyInjective` | internal/resolver/resolver.go:271-273 | requests without `/` in trust root and agent ID have different keys |
| `ResolverCache.KeyUniqueIff` | internal/resolver/resolver.go:271-273 | a request shares its key with no other if and only if none of its components holds a slash |
| `ResolverCache.KeysCollide` | internal/resolver/resolver.go:271-273 | moving a boundary across a slash gives a different request with the same key |
| `ResolverCache.HitURIIff` | internal/resolver/resolver.go:275-278 | the URI a hit rebuilds for an agent's own components is the agent's exactly when it has no primary skill |
| `ResolverCache.LookupRefines` | internal/resolver/cache.go:36-78 | in every interleaving a lookup hits exactly when the last store or invalidation of that request is a store at most one TTL ago |
| `ResolverCache.HitHasBoundedAge` | internal/resolver/resolver.go:65-108 | a hit at t was given by the registry for the same request and stored at some s with s <= t <= s + TTL, not overwritten or invalidated since |
| `ResolverCache.EachAnsweredOnce` | internal/resolver/resolver.go:65-108 | in every interleaving the calls started are those answered, once each, and those under way |
| `ResolverCache.EvictionsInvisible` | internal/resolver/cache.go:67-78 | runs that differ only in evictions give the same responses |
| `ResolverCache.InvalidationLastsIff` | internal/resolver/resolver.go:154-158 | in every continuation all hits of an invalidated request were replied after the invalidation, if and only if at that moment no call holds an unstored reply for it |
| `ResolverCache.InvalidationOvertaken` | internal/resolver/resolver.go:154-158 | an invalidation before another call's store is undone by it for a whole TTL |
| `ResolverCache.Cache.Evict` | internal/resolver/cache.go:67-78 | removes exactly the expired entries and counts them |
| `ResolverCache.ResolveCall` | internal/resolver/resolver.go:65-108 | one undisturbed call answers and stores as the three steps do: refuses an incomplete request, serves a fresh entry, passes a failure on, else stores the reply for a TTL |
| `Batch.ManyLinesUp` | internal/resolver/resolver.go:115-151 | for every finishing and delivery order every slot is filled exactly once, slot i with the outcome of request i, and no sender blocks |
| `Batch.ManyNeverStuck` | internal/resolver/resolver.go:115-151 | from every reachable state the collector can come to have all results |
| `Batch.Collect` | internal/resolver/resolver.go:144-148 | the collector loop puts each delivered result in its own slot and fills all slots |
| `Batch.FanLinesUp` | internal/registry/handler/agent.go:934-990 | for every order of goroutines every slot is filled exactly once with its own outcome, at most ten are past the semaphore, and one that waits gets past it exactly when fewer are; up to 100 requests |
| `Batch.FanNeverStuck` | internal/registry/handler/agent.go:954-990 | from every reachable state all goroutines can come to their end |
| `Batch.PrintedBatchResolves` | internal/registry/handler/agent.go:954-990 | a batch of up to 100 printed URIs answers each in its own slot: the agent if it is active or deprecated, else its status |
| `Batch.BatchCall.Work` | internal/registry/handler/agent.go:965-983 | writes the goroutine's own slot of the shared slice and no other |
| `Usernames.GenerateUniqueUsername` | internal/users/service.go:291-310 | returns the first candidate not found, and fails exactly when none of the 9999 is |
| `Usernames.CandidatesDistinct` | internal/users/service.go:291-310 | base, base2, base3, ... are pairwise distinct |
| `Usernames.CandidateNames` | internal/users/service.go:291-310 | the candidates are the base, base2, and so on: the base with the decimal of the number |
| `Usernames.AllocationSucceedsIff` | internal/users/service.go:291-310 | n taken names always leave a candidate free if and only if n is less than 9999 |
| `Usernames.Allocate` | internal/users/service.go:291-310 | the name returned is not taken, and there is one whenever fewer than 9999 are |
| `Threat.Score` | internal/threat/rulescorer.go:31-55 | the score is 17, 20, 10 and 15 points for each match of the four rules, capped at 100, with the severity label of its range; rejected exactly from 85 on |
| `Threat.RuleCapabilityKeywords` | internal/threat/rulescorer.go:65-83 | one finding for each suspicious capability, in their order, naming the first keyword it mentions |
| `Threat.RuleKeywords` | internal/threat/rulescorer.go:91-142 | one finding for each keyword that the text mentions and no other |
| `Threat.RuleEndpointScheme` | internal/threat/rulescorer.go:107-120 | a finding exactly for plain-HTTP endpoints that are not local |
| `Threat.ScoreMonotone` | internal/threat/rulescorer.go:31-142 | more capabilities and longer name and description lower neither score nor severity nor undo a rejection |
| `Threat.LongerEndpointLowersIff` | internal/threat/rulescorer.go:31-120 | appending to the endpoint lowers the score if and only if it was insecure, has come to mention a local address and the points were below 110; and undoes a rejection if and only if they were from 85 to 94 |
| `Threat.EndpointNotMonotone` | internal/threat/rulescorer.go:107-120 | appending localhost to an insecure endpoint lowers the score, unless the points are 110 or more |

## Left out

- HTTP handlers, routing, gRPC, command line, web site: input and output.
- Cryptography and certificate encoding: a certificate is its issuer, subject and path length.
- DNS, endpoint probes, mail, webhooks and the hop to other registries: outcomes are arbitrary inputs
  of a step; resolution through a remote registry is not modelled.
- Percent escapes in URLs, and the rules newer Go versions add for IPv6 literals: `Uri` covers
  escape-free text.
- Case folding outside ASCII in `Strings.ToLower`; `Threat` is proved for any character-wise folding.
- Which validation error `ValidateCapabilityNode` reports: only whether there is one.
- SQL text and drivers: tables are maps and sequences with guarded statements. Stored fields read
  back as written, timestamps included.
- A commit whose outcome the client does not learn.
- Metadata, tags, agent cards and tool manifests, access tokens, metrics, logging: field copying.
- Search, listing and the ordering of search results.
- Aliasing of the entries and rows that Go methods return by pointer.
- Rounding in the rate limiter: token counts are reals.
- The clock moving during one pass of `Cleanup`, `Evict` or `DeleteExpired`: a pass reads it once.
- A process restart, which resets failure counters while the status column stays.
- The address `slugifyEmail` leaves over: `Usernames` is proved for every base.
- Certificate serial numbers and validity dates, and expiry of agents, which nothing in the core sets.
