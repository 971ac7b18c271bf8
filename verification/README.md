# A verified model of the ola-core authentication daemon

`ola-core` is a local daemon that answers one question over a Unix socket: may
this UID be considered authenticated?  It sends a fresh nonce to an adapter,
checks the adapter's answer, applies a policy, writes a hash-chained audit entry
and only then answers.  This project models the parts where a mistake would be
silent and proves what they promise, for all inputs and all runs.

| module | models |
|---|---|
| `Bytes` | UTF-8, decimal, hexadecimal and little-endian encodings with their inverses; `f32` as bit patterns |
| `Entry` | the audit entry and its version 1 hash payload, with a decoder |
| `Chain` | `verify_reader`, what acceptance means, and tamper evidence |
| `Recovery` | `last_entry_hash`: the chain head from a bounded tail |
| `Logger` | `AuditLogger`: `open`, `log`, `reopen`, call by call |
| `LogRuns` | whole runs of the logger, with failed and torn writes, rotation and restarts |
| `Codec` | a concrete line format showing that the codec hypotheses can be met |
| `NonceStore` | the pending map, its per-UID index, and histories of calls |
| `RateLimiter` | fixed windows in a bounded table |
| `Methods`, `Attestation` | method names and the MAC both sides compute |
| `Policy` | loading, ordering and evaluating rules |
| `Health`, `Registry` | probe histories, availability, resolution of `any` |
| `Server` | `verify_once` as a concurrent protocol: connections, steps, runs |
| `Nonces`, `Safety`, `Trail` | what holds in every reachable state of `Server`: no nonce leaks, what an answer rests on, what the log holds |
| `Ownership`, `Completeness`, `Denials` | whose issue is spent, that honest requests are allowed, and that every denial has a cause |
| `Redraw` | a run in which a repeated nonce makes an Allow spend another request's issue |

State that the daemon updates in place is a class (`PayloadBuffer`,
`AuditLogger`, `Store`, `Limiter`, `AdapterHealth`, `Mac`) or a method with a loop
(`VerifyReader`, `ReadUntilNewline`, `EncodeHex`, `Load`, `SortSpecificFirst`,
`LoadRegistry`, `AvailableMethods`).  Each is proved equal to a specification
function, and the theorems are about that function.

## How to read the results

* **No cryptographic assumption.**  SHA-256 and HMAC (section 2 of RFC 2104) are
  arbitrary functions.  A binding theorem says "the two are equal, or here is a
  collision".
* **The line codec is a hypothesis, not an axiom.**  `Logger.JsonLines` says that
  a printed line has no newline, is not blank, and parses back exactly when the
  confidence is finite and both chain fields are present (section 6 of RFC 8259
  has no infinities and no NaN).  `Recovery.BlankRejected` says that a blank line
  does not parse, and `LogRuns.ScrapsRejected` that an entry with another one, or
  the beginning of one, glued in front of it does not parse.  `Codec.CodecExists`
  shows that all three can hold together.
* **Time** is a natural number.  In the protocol the monotonic clock does not go
  back; wall-clock reads are arbitrary.  Background tasks may use an instant that
  they read before they got the lock; in the rate limiter every operation may.
* **The protocol** takes one step for each operation under a mutex and for each
  local stretch of a handler.  Random draws, adapter answers, probe results, I/O
  outcomes and the rate limiter's verdict are arbitrary parameters of steps, so the
  theorems cover every behaviour of those components.  For `any` a handler reads the
  health map once for each method, and probes may fall between two readings.  Steps
  of up to sixteen connections, sweeps, probes, reloads and log reopens interleave
  freely.

## Where the code falls short of its intention

* A non-finite confidence is logged as it came from the adapter
  (`crates/ola-core/src/infrastructure/audit/entry.rs:114`), is printed as `null`,
  and cannot be read back.  `prev_hash` advances only after write and sync both
  succeed, but a failed call may leave part of its line, or all of it, behind.  A
  reopen trusts whatever file it finds at the path, and a restart on a freshly
  rotated, empty file starts a new chain.  `LogRuns.RunAgrees` says exactly when
  the joined log still reports one entry for each successful call and ends at the
  hash in memory: if and only if every durable record was finite, no failed write
  left a byte, every file that a reopen found instead of the old one was empty, and
  no restart met an empty segment while the last hash was not zero.
  `LogRuns.ProcessAgrees` is the same for one process and `Trail.TrailVerifies` for
  a running server.  `Logger.InfiniteConfidenceBreaksLog`, `Logger.OrphanVerifies`,
  `Logger.OrphanBreaksChain`, `Logger.RestartAdoptsOrphan` and
  `Logger.SegmentAlone` show single failures in detail.
* The failure counter of the health monitor is a `u32` incremented with `+=`.  It
  wraps in release builds, so the status follows the failure count modulo 2^32.
  `Health.StatusAsIntended` says exactly when that equals the intended reading and
  `Health.WrapMisreads` gives a history where it does not.  A build with overflow
  checks would panic there instead; that is not modelled.
* Start-up recovery skips trailing blank lines, while the verifier rejects them.
  On a verified log the two agree whenever the window reaches the last line, and
  recovery refuses otherwise (`Recovery.RecoveryAgreesWithVerify`); with blank
  lines appended the verifier rejects exactly then, and recovery still succeeds
  (`Recovery.BlankSuffixDisagrees`).
* `consume` matches a nonce by value.  The safety theorems hold for every sequence
  of draws, but an Allow spends the issue of its own request exactly unless that
  nonce was issued again in between (`Ownership.AllowSpendsOwnIssue`).
  `Redraw.RedrawnAllow` is a run where it was, with the longest adapter timeout that
  the configuration accepts
  (`crates/ola-core/src/adapters/config_loader.rs:131`), which equals the TTL.  For
  any shorter timeout an answer finds its own issue outstanding, or taken by another
  holder of the same nonce (`Ownership.AnswerFindsIssue`).
* With `max_per_sec` equal to `u32::MAX` the saturating counter never exceeds the
  limit.  Twice the limit per window-long interval holds for exactly the smaller
  limits (`RateLimiter.RateBoundIff`).
* `check` and the clean-up read the clock before they take the lock.  Out of order by
  `STALE_AFTER` or more, eviction forgets windows that still count and no rate bound
  holds at all; below that one does (`RateLimiter.BoundExistsIff`,
  `RateLimiter.WindowBoundIff`), and eviction is invisible exactly below
  `STALE_AFTER` minus the window (`RateLimiter.InvisibleIff`).

## Model

| member | source | states |
|---|---|---|
| `Bytes.EncodeHex` | crates/ola-core/src/infrastructure/audit/hex.rs:5-13 | the loop computes the two-digits-per-byte text `Hex`, which `HexInjective` shows to be lossless |
| `Bytes.HexInjective` | crates/ola-core/src/infrastructure/audit/hex.rs:5-13 | different byte strings have different hexadecimal texts |
| `Bytes.HexOfZeros` | crates/ola-core/src/infrastructure/audit/mod.rs:12-13 | the hexadecimal text of `n` zero bytes is `2n` zeros, so the chain start is the text of a 32-byte zero digest |
| `Entry.PayloadBuffer.PushBytes` | crates/ola-core/src/infrastructure/audit/entry.rs:138-147 | appending name, tag, decimal length, value and newline in place extends the encoding by exactly that one field |
| `Entry.PayloadBuffer.PushOption` | crates/ola-core/src/infrastructure/audit/entry.rs:131-136 | an absent text is appended as a field distinct from every present one |
| `Entry.HashPayloadV1` | crates/ola-core/src/infrastructure/audit/entry.rs:38-60 | the buffer built field by field equals the encoding of the twelve hashed fields in order |
| `Entry.DecodeEncodedField` | crates/ola-core/src/infrastructure/audit/entry.rs:123-147 | one encoded field followed by any bytes decodes to that field and those bytes, whatever the value contains |
| `Entry.PayloadRoundTrip` | crates/ola-core/src/infrastructure/audit/entry.rs:38-60 | a decoder recovers all twelve hashed fields from the payload bytes |
| `Entry.PayloadInjective` | crates/ola-core/src/infrastructure/audit/entry.rs:38-60 | payloads are equal if and only if the entries agree on everything but `entry_hash` |
| `Chain.ReadUntilNewline` | crates/ola-core/src/infrastructure/audit/verifier.rs:45-51 | reads up to and including the first newline, or to the end of the file |
| `Chain.CheckBuffer` | crates/ola-core/src/infrastructure/audit/verifier.rs:63-105 | the per-line checks with their errors, in order |
| `Chain.ComputeEntryHash` | crates/ola-core/src/infrastructure/audit/hex.rs:15-17 | pushing, digesting and printing an entry yields the hash the chain is specified with |
| `Chain.VerifyReader` | crates/ola-core/src/infrastructure/audit/verifier.rs:38-114 | the loop over raw bytes computes the recursive verifier, including the error and its line number |
| `Chain.VerifyAcceptsIffLinked` | crates/ola-core/src/infrastructure/audit/verifier.rs:38-114 | a log is accepted if and only if it is a list of newline-ended lines that parse to entries, each with the digest of its own payload and the hash of the one before, starting at zero |
| `Chain.AcceptedEntries` | crates/ola-core/src/infrastructure/audit/verifier.rs:106-113 | the report counts those entries and carries the last one's hash |
| `Chain.VerifyLocatesError` | crates/ola-core/src/infrastructure/audit/verifier.rs:53-105 | on rejection every line before the reported one is accepted, and the reported line is the incomplete or failing one |
| `Chain.VerifyAppend` | crates/ola-core/src/infrastructure/audit/verifier.rs:38-114 | verifying joined segments is verifying one and then the next from its hash; an error in the first is the error of the whole |
| `Chain.ChainBinding` | crates/ola-core/src/infrastructure/audit/verifier.rs:38-114 | two accepted logs with the same last hash hold the same entries, or those entries exhibit two contents with one hash or a content hashing to zero |
| `Chain.DigestChainBinding` | crates/ola-core/src/infrastructure/audit/entry.rs:38-60 | the same for the daemon's own hash: identical entries, or two different payloads with one digest, or a payload with the zero digest, for any digest function |
| `Chain.CheckpointBinding` | crates/ola-core/src/infrastructure/audit/verifier.rs:38-114 | a saved last hash reappears in a later accepted log only if that log begins with exactly the saved entries, or a collision is exhibited |
| `Recovery.FindIsLast` | crates/ola-core/src/infrastructure/audit/logger.rs:144-152 | the backward search finds the last non-blank line, or nothing exactly when there is none |
| `Recovery.RecoveryOfBlank` | crates/ola-core/src/infrastructure/audit/logger.rs:130-138 | on a blank file recovery returns the zero hash exactly when the file is empty or fits in the window |
| `Recovery.RecoveryExact` | crates/ola-core/src/infrastructure/audit/logger.rs:100-176 | on any other file the whole result: the checked hash of the last non-blank line of the whole file if the file ends in a newline and the window reaches that line, otherwise an error |
| `Recovery.RecoverySound` | crates/ola-core/src/infrastructure/audit/logger.rs:100-176 | whatever recovery returns is the recomputed hash of the last non-blank line of the whole file, or zero for a blank file |
| `Recovery.RecoveryAgreesWithVerify` | crates/ola-core/src/infrastructure/audit/logger.rs:100-176 | a non-empty segment that the verifier accepts after any hash recovers to exactly the verifier's last hash when the window reaches its last line, and fails otherwise |
| `Recovery.BlankSuffixDisagrees` | crates/ola-core/src/infrastructure/audit/logger.rs:144-152 | blank lines behind a verified log are rejected by the verifier at the first of them exactly when there are any, while recovery returns the old last hash exactly when the window reaches it |
| `Logger.AuditLogger.Open` | crates/ola-core/src/infrastructure/audit/logger.rs:31-45 | opens with the recovered hash, or fails with the recovery error |
| `Logger.AuditLogger.Log` | crates/ola-core/src/infrastructure/audit/logger.rs:58-85 | appends one stamped line and advances the hash only on success; a failure keeps the hash and leaves nothing, part of the line or all of it |
| `Logger.AuditLogger.Reopen` | crates/ola-core/src/infrastructure/audit/logger.rs:47-56 | changes at most the file, to whatever is at the path with the bytes it holds; the in-memory hash stays |
| `Logger.OpenAgrees` | crates/ola-core/src/infrastructure/audit/logger.rs:31-45 | on a verified file `open` succeeds exactly when the file is empty or the window reaches its last line, and then the memory agrees with the file |
| `Logger.LogAgrees` | crates/ola-core/src/infrastructure/audit/logger.rs:58-85 | one successful call with a finite confidence keeps file and memory in agreement, with one more entry |
| `Logger.RestartRecovers` | crates/ola-core/src/infrastructure/audit/logger.rs:31-45 | a restart on the open segment of an agreeing logger recovers the very hash it held, exactly when the window reaches, or starts over from zero if the segment is empty |
| `Logger.OrphanVerifies` | crates/ola-core/src/infrastructure/audit/logger.rs:71-78 | after a failed sync the log verifies with one entry too many and ends at the orphan's hash, while the memory keeps the one before it |
| `Logger.OrphanBreaksChain` | crates/ola-core/src/infrastructure/audit/logger.rs:71-78 | the next success behind an orphan is rejected at its own line |
| `Logger.RestartAdoptsOrphan` | crates/ola-core/src/infrastructure/audit/logger.rs:31-45 | a restart that reaches the orphan makes memory and log agree again, with an entry for a call that reported failure |
| `Logger.SegmentAlone` | crates/ola-core/src/infrastructure/audit/logger.rs:47-85 | after a rotation and one record the open file alone verifies only if nothing was logged before, and otherwise fails at line 1, while the joined log is fine |
| `Logger.InfiniteConfidenceBreaksLog` | crates/ola-core/src/infrastructure/audit/entry.rs:92-121 | a logged infinite confidence fails verification at line 1 and blocks the next start-up |
| `LogRuns.VerifyCounts` | crates/ola-core/src/infrastructure/audit/verifier.rs:38-114 | an accepted log reports exactly as many entries as it has lines |
| `LogRuns.GluedRejected` | crates/ola-core/src/infrastructure/audit/logger.rs:68-74 | a line written behind the scraps of failed writes makes the log rejected for good |
| `LogRuns.RunAgrees` | crates/ola-core/src/infrastructure/audit/logger.rs:31-85 | after any run of `log` calls with any I/O outcome, reopens and restarts, the joined segments report one entry more for each successful call and end at the in-memory hash if and only if every operation was harmless; then they hold the start plus one sealed entry for each success, in order |
| `LogRuns.ProcessAgrees` | crates/ola-core/src/infrastructure/audit/logger.rs:47-85 | for one process the condition is: all logged confidences finite, no failed call left a byte, every other file that a reopen found was empty |
| `LogRuns.DurableLine` | crates/ola-core/src/infrastructure/audit/logger.rs:68-74 | the line of a durable record stays in the files right behind what was there before, whatever happens later |
| `LogRuns.HashIsOfLogged` | crates/ola-core/src/infrastructure/audit/logger.rs:47-85 | within one process the in-memory hash is that of the records logged, whatever happened to the files |
| `Codec.CodecExists` | crates/ola-core/src/infrastructure/audit/entry.rs:14-34 | for every digest some line codec meets all the hypotheses the audit theorems make |
| `NonceStore.Store.constructor` | crates/ola-core/src/security/nonce.rs:31-39 | the store starts empty and valid |
| `NonceStore.Store.Generate` | crates/ola-core/src/security/nonce.rs:68-94 | the capacity checks and up to sixteen draws, with the whole new state; the index and both caps are kept |
| `NonceStore.Store.Consume` | crates/ola-core/src/security/nonce.rs:96-118 | removes first and judges afterwards; the nonce is gone whatever the verdict |
| `NonceStore.Store.Sweep` | crates/ola-core/src/security/nonce.rs:45-58 | removing one by one leaves exactly the nonces younger than the TTL, with the index matching them |
| `NonceStore.SweepIsUnique` | crates/ola-core/src/security/nonce.rs:45-58 | the state after a sweep does not depend on the order of removal |
| `NonceStore.IndexRemove` | crates/ola-core/src/security/nonce.rs:147-155 | the saturating decrement never meets a zero and keeps every count equal to the nonces owned |
| `NonceStore.StepKeepsValid` | crates/ola-core/src/security/nonce.rs:45-118 | each operation keeps counts exact, no zero counts, and both caps |
| `NonceStore.RunInvariant` | crates/ola-core/src/security/nonce.rs:45-118 | after any sequence of operations the state is valid, the history explains every pending nonce, each spend ended an issue to the same UID within the TTL with nothing in between, and each swept nonce was at least the TTL old |
| `NonceStore.SpendsAreDistinct` | crates/ola-core/src/security/nonce.rs:96-118 | no two spends end the same issue |
| `NonceStore.Conservation` | crates/ola-core/src/security/nonce.rs:82-118 | for every nonce, issues equal removals plus one if it is outstanding, so spends never outnumber issues |
| `RateLimiter.Limiter.Check` | crates/ola-core/src/security/rate_limit.rs:50-73 | the answer and the whole new table, never above the cap |
| `RateLimiter.Limiter.CleanupStale` | crates/ola-core/src/security/rate_limit.rs:75-85 | keeps exactly the slots younger than `STALE_AFTER` |
| `RateLimiter.TableWithinCap` | crates/ola-core/src/security/rate_limit.rs:50-85 | the table never exceeds its cap in any run |
| `RateLimiter.RateBound` | crates/ola-core/src/security/rate_limit.rs:50-85 | any closed interval no longer than the window admits at most `Windows(skew)` times the limit, for every UID and every mix of checks and clean-ups whose instants are out of order by at most `skew`, any skew below `STALE_AFTER` |
| `RateLimiter.BoundExistsIff` | crates/ola-core/src/security/rate_limit.rs:50-85 | some bound holds for all runs if and only if instants are out of order by less than `STALE_AFTER` |
| `RateLimiter.RateBoundIff` | crates/ola-core/src/security/rate_limit.rs:50-85 | for instants in order, at most twice the limit is admitted in every run if and only if the limit is below `u32::MAX`; at the top a burst exceeds it |
| `RateLimiter.WindowBound` | crates/ola-core/src/security/rate_limit.rs:63-72 | each window admits at most the limit, also with instants out of order |
| `RateLimiter.WindowBoundIff` | crates/ola-core/src/security/rate_limit.rs:63-85 | it does so in all runs if and only if instants are out of order by less than `STALE_AFTER` |
| `RateLimiter.Simulation` | crates/ola-core/src/security/rate_limit.rs:10-11 | the evicting table and one that never evicts differ only in slots too old to matter |
| `RateLimiter.EvictionInvisible` | crates/ola-core/src/security/rate_limit.rs:50-85 | until a check is refused for lack of room, every check is answered as by a limiter that never evicts |
| `RateLimiter.InvisibleIff` | crates/ola-core/src/security/rate_limit.rs:10-11 | at limit one this holds in all runs if and only if instants are out of order by less than `STALE_AFTER` minus the window |
| `Methods.PrintAfterParse` | crates/ola-core/src/core/types/result.rs:36-57 | a method string that parses prints back unchanged; it parses exactly when it is known or a valid name |
| `Methods.ParseAfterPrint` | crates/ola-core/src/core/types/result.rs:16-57 | printing then parsing gives a method back exactly when it is canonical |
| `Methods.AnyIsNotAName` | crates/ola-core/src/core/types/method.rs:28-49 | the reserved word `any` is rejected as a method name |
| `Attestation.VerifyResult` | crates/ola-core/src/security/attestation/verifier.rs:77-117 | feeding the MAC part by part computes the specified verdict on the 80-byte layout |
| `Attestation.EvidenceHash` | crates/ola-adapter-demo-fido2/src/main.rs:202-225 | the adapter's steps compute the MAC of the same layout |
| `Attestation.SignedResultVerifies` | crates/ola-adapter-demo-fido2/src/main.rs:160-178 | a result signed by the adapter is received exactly when its method name parses and its confidence is finite, and then verifies under the same key and echoes the request |
| `Attestation.MacInputBinds` | crates/ola-core/src/security/attestation/verifier.rs:77-121 | equal MAC inputs commit to equal nonce, UID, method, confidence bits and timestamp, or the method digests collide |
| `Attestation.AttestationBinds` | crates/ola-core/src/security/attestation/verifier.rs:77-121 | two accepted results under one key with one evidence hash agree on all five fields, or exhibit a MAC or digest collision |
| `Attestation.ReceivedMethodsAgree` | crates/ola-core/src/core/types/result.rs:36-57 | results off the wire that bind to the same method string carry the same parsed method |
| `Attestation.MissingKeys` | crates/ola-core/src/security/attestation/verifier.rs:60-75 | lists exactly the configured adapters without a key |
| `Attestation.StartupRulesOutUnknown` | crates/ola-core/src/security/attestation/verifier.rs:60-75 | after a start with no missing keys no configured adapter is unknown |
| `Policy.Load` | crates/ola-core/src/core/policy/parser.rs:27-48 | succeeds exactly when confidences are valid and selectors distinct, and returns the rules with specific ones first in their old order; otherwise the error names what is wrong with the first offending rule |
| `Policy.SortSpecificFirst` | crates/ola-core/src/core/policy/parser.rs:46-46 | the stable sort by "is a wildcard" |
| `Policy.SortPermutes` | crates/ola-core/src/core/policy/parser.rs:46-46 | sorting loses and adds no rule |
| `Policy.FirstMatchGoverns` | crates/ola-core/src/core/policy/evaluator.rs:42-109 | the first match after sorting is the exact-method rule if there is one, otherwise the wildcard, otherwise none |
| `Policy.LoadableAnyOrder` | crates/ola-core/src/core/policy/parser.rs:27-46 | permuting the file never changes whether it loads |
| `Policy.DecisionsAnyOrder` | crates/ola-core/src/core/policy/evaluator.rs:42-109 | permuting the file never changes a decision |
| `Policy.AllowIffMet` | crates/ola-core/src/core/policy/evaluator.rs:42-98 | Allow exactly when the governing rule exists and the result meets its age, confidence and UID demands under the global cap |
| `Policy.OverflowUnreachable` | crates/ola-core/src/config.rs:82-89 | the overflow denial needs both the rule and the cap above the accepted bound, so a configured daemon never returns it |
| `Health.AdapterHealth.Record` | crates/ola-core/src/adapters/health.rs:94-108 | one probe's effect on the four fields |
| `Health.StatusIsHistory` | crates/ola-core/src/adapters/health.rs:85-108 | the status as a function of the probe history, for every history, with the wrapping counter |
| `Health.StatusAsIntended` | crates/ola-core/src/adapters/health.rs:94-108 | the status is Up, Degraded or Down as intended exactly unless, after a success, the failures in a row have wrapped the counter back below three |
| `Health.WrapMisreads` | crates/ola-core/src/adapters/health.rs:100-105 | one success and 2^32 failures read as Degraded |
| `Registry.LoadRegistry` | crates/ola-core/src/adapters/registry.rs:49-98 | succeeds exactly when adapter names are distinct and each method is listed once, and then routes each method to the adapter that lists it; otherwise the error names the duplicate in the first configuration that cannot be added |
| `Registry.AvailableMethods` | crates/ola-core/src/adapters/registry.rs:132-147 | the methods whose own reading of the health map was not down, all of them, in ascending order |
| `Registry.AscendingUnique` | crates/ola-core/src/adapters/registry.rs:132-147 | that list is determined by its members, whatever the map's order |
| `Registry.Resolve` | crates/ola-core/src/adapters/registry.rs:153-176 | a named method resolves to its client; `any` to the least method read as not down, or to nothing exactly when all were down |
| `Registry.SomethingToPick` | crates/ola-core/src/adapters/registry.rs:153-170 | whatever was read, there is a least method that is up, or none is |
| `Registry.MonitorIsHistory` | crates/ola-core/src/adapters/health.rs:52-75 | each slot of the shared health map depends on that adapter's own probes alone |
| `Registry.AvailableIffHistory` | crates/ola-core/src/adapters/registry.rs:132-187 | a method is available exactly when its adapter has answered before and its failures since, modulo 2^32, are below three |
| `Nonces.StoreAlwaysOk` | crates/ola-core/src/security/nonce.rs:45-118 | in every reachable state of the server the store is valid and its history justified and ordered in time |
| `Nonces.SpendWithinTtl` | crates/ola-core/src/security/nonce.rs:96-118 | every spend of a run ended an issue to the same UID at most the TTL earlier |
| `Nonces.NeverLeaks` | crates/ola-core/src/infrastructure/ipc/unix_socket.rs:496-613 | in every reachable state each pending nonce is held by a request in flight, on one of at most sixteen connections |
| `Nonces.CapacityNeverReached` | crates/ola-core/src/security/nonce.rs:74-80 | in every reachable state at most sixteen nonces are pending and neither capacity check of `generate` fires |
| `Safety.PhasesAlwaysOk` | crates/ola-core/src/infrastructure/ipc/unix_socket.rs:471-687 | in every reachable state what each handler holds is backed by the run so far |
| `Safety.OneDecisionOneRecord` | crates/ola-core/src/infrastructure/ipc/unix_socket.rs:444-687 | every answer follows exactly one log call of its request; a successful call carries the same decision, request id, caller and target, and a reason exactly for a denial, and a failed one yields neither allow nor deny |
| `Safety.AllowSafety` | crates/ola-core/src/infrastructure/ipc/unix_socket.rs:471-687 | for every Allow of every interleaved run: version, id and nonce echoed before the deadline, the nonce spent by this request within the TTL of an issue to the target UID, the method the resolved one (for `any` one that was read up while all before it were read down), attestation passed when required, policy allowed under the request's snapshot, only root names another UID, and the record names the adapter, method, evidence and nonce prefix |
| `Denials.EventsAlwaysHonest` | crates/ola-core/src/security/nonce.rs:68-118 | in every run a failed draw means that the random source failed or all sixteen draws repeated issued nonces, and a refused spend that it came too late or another holder of the same nonce consumed it |
| `Denials.LooksAlwaysHonest` | crates/ola-core/src/adapters/registry.rs:178-187 | every reading of the health map on behalf of `any` is what the probes up to then make of the adapter |
| `Denials.DenialHasCause` | crates/ola-core/src/infrastructure/ipc/unix_socket.rs:471-706 | every denial of every run has its cause, with the event that shows it: no registered adapter, or for `any` each method read as down; a failed draw; a missing, foreign or late answer; a spend too late or of a nonce taken by another holder; a failed attestation; another method; or policy |
| `Safety.AllowsSpendDistinctIssues` | crates/ola-core/src/infrastructure/ipc/unix_socket.rs:595-613 | no two Allows of a run spend the same issue |
| `Safety.NoReplayedEvidence` | crates/ola-core/src/infrastructure/ipc/unix_socket.rs:595-635 | with attestation required, two Allows of a run on results of one adapter with one evidence hash exhibit a MAC collision, a digest collision, or a nonce issued twice |
| `Ownership.IssuesAlwaysOk` | crates/ola-core/src/infrastructure/ipc/unix_socket.rs:496-613 | in every reachable state each handler's own issue is the last event about its nonce, unless a sweep took it after its TTL or a request holding another issue of the same nonce consumed it; and no two handlers hold one issue |
| `Ownership.SpendOutcome` | crates/ola-core/src/infrastructure/ipc/unix_socket.rs:595-613 | a spend succeeds while the TTL is not exceeded and neither a sweep nor another holder took the nonce, and otherwise fails unless it was issued again since; a sweep takes it only once the TTL is over: no spurious replay denial |
| `Ownership.AnswerFindsIssue` | crates/ola-core/src/adapters/client.rs:64-86 | for every timeout below the TTL, an answer within the monotonic deadline finds its own issue outstanding, or taken by another holder of the same nonce |
| `Ownership.AllowSpendsOwnIssue` | crates/ola-core/src/infrastructure/ipc/unix_socket.rs:595-613 | every Allow spent the very issue that its own request dispatched, if and only if that nonce was not issued again between the two |
| `Redraw.RedrawnAllow` | crates/ola-core/src/infrastructure/ipc/unix_socket.rs:496-613 | with the longest accepted timeout, a run in which a swept nonce is drawn again and an Allow spends the issue of another connection |
| `Completeness.JudgeAllowsIff` | crates/ola-core/src/infrastructure/ipc/unix_socket.rs:615-686 | evidence is allowed exactly when attestation passes where required, the method is the resolved one, and policy allows |
| `Completeness.ElsewhereRun` | crates/ola-core/src/infrastructure/ipc/unix_socket.rs:192-207 | steps of other connections and of background tasks never move a handler |
| `Completeness.HonestAnswerAllowed` | crates/ola-core/src/infrastructure/ipc/unix_socket.rs:471-687 | a waiting request whose adapter signs an answer within both deadlines that policy accepts, with its nonce still spendable and the record written, is allowed, whatever other steps interleave |
| `Trail.LiveIsOneLoad` | crates/ola-core/src/infrastructure/ipc/unix_socket.rs:244-249 | the live allowlist and policy come from one successful load, and failed reloads since changed neither |
| `Trail.SnapshotsAlwaysOk` | crates/ola-core/src/infrastructure/ipc/unix_socket.rs:305-311 | every request holds the version that was live when it arrived |
| `Trail.DecisionUsesOneVersion` | crates/ola-core/src/infrastructure/ipc/unix_socket.rs:305-311 | every answer that policy reached, allow or deny, is exactly the answer of the version live when the request arrived, whose allowlist admitted the caller, whatever reloads ran meanwhile |
| `Trail.TrailVerifies` | crates/ola-core/src/infrastructure/audit/logger.rs:47-85 | the joined log of a running server reports one entry for each durable record and ends at the in-memory hash exactly when every durable record is finite, no failed write left a byte, and every other file that a reopen found was empty |
| `Trail.HashIsOfRecords` | crates/ola-core/src/infrastructure/audit/logger.rs:47-56 | the in-memory hash depends on the durable records alone: no reload, reopen or failed write changes it |
| `Trail.EveryDecisionIsOnRecord` | crates/ola-core/src/infrastructure/ipc/unix_socket.rs:470-687 | while the trail is intact, every allow or deny ever answered is an entry of the verified log with the same decision, request id, caller and target, and where policy decided the evidence it rests on |
| `Trail.EveryDecisionIsWritten` | crates/ola-core/src/infrastructure/ipc/unix_socket.rs:470-687 | every allow or deny ever answered has its line in the log files, whatever writes failed and whether or not the log still verifies |
| `Trail.DecisionsHaveOwnEntries` | crates/ola-core/src/infrastructure/ipc/unix_socket.rs:470-687 | distinct answers have distinct entries, in the order of their records |

## Left out

- SHA-256, HMAC and constant-time comparison: library code, arbitrary functions here.
- JSON and TOML text: library code; entries, requests and policies are records, and the audit line codec is a hypothesis.
- File opening, modes, owners and symlink checks (`crates/ola-core/src/security/fs.rs`): system calls without algorithmic content.
- Privilege dropping, seccomp, socket setup and systemd notification: operating-system calls in a fixed order.
- The PAM bridge and the Python client: small case splits around sockets and FFI.
- Framing, adapter queues, the idle timeout and metrics: a failed exchange is an adapter answer that never came, and counters are not modelled.
- An answer that becomes ready after the monotonic deadline but before its task is polled again counts as timed out.
- `ping`, `status`, `list_methods`, malformed lines and unsupported versions: they touch no modelled state and only keep or close a connection.
- Mutex poisoning, task panics and the abort at shutdown: a panicking or aborted handler would leave its nonce to the sweep.
- LogRuns.RunAgrees: assumes that a file found at the path is some audit log (any whole lines, then beginnings of entries) and that each restart got past recovery, because bytes of another kind may happen to parse in front of an entry and a daemon whose restart is refused is down and logs nothing; LogRuns.ProcessAgrees and Trail.TrailVerifies assume the same of the files.
- Start-up environment parsing: only the bound on the global age cap matters and is modelled.
- Allowlist file text and adapter configuration validation: an abstract UID set and validated records.
- The 64-bit entry and line counters of the verifier and the capacity arithmetic of collections: unbounded here.
- The coupling of the rate limiter to the protocol: its verdict is an arbitrary step parameter there, and the limiter has its own theorems.
- Iteration order of hash maps: loops over a map pick its keys in an arbitrary order.
