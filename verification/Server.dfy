/** `verify_once` as a concurrent protocol
    (crates/ola-core/src/infrastructure/ipc/unix_socket.rs).  Up to sixteen
    connections interleave.  Every operation under a mutex and every purely local
    stretch of a handler is one step; clocks, random draws, adapter answers and
    I/O outcomes are arbitrary step parameters.  `trace` and `nonceLog` record
    what happened, so the theorems speak about whole runs. */
module Server {
  import opened Bytes
  import opened Methods
  import opened Entry
  import opened Chain
  import A = Attestation
  import H = Health
  import L = Logger
  import N = NonceStore
  import P = Policy
  import R = Registry

  const MAX_CONNECTIONS: nat := 16
  const PROTOCOL_VERSION: nat := 1

  /** The monotonic clock counts nanoseconds. */
  const NANOS_PER_MS: nat := 1_000_000

  /** The longest adapter timeout that the configuration accepts. */
  const MAX_TIMEOUT_MS: nat := 30_000

  /** What is fixed at start-up. */
  datatype Config = Config(
    env: AuditEnv,
    clients: map<string, R.Client>,
    adapters: set<string>,
    started: nat,
    keys: map<string, A.Key>,
    crypto: A.Crypto,
    requireAttestation: bool,
    describe: P.DenyReason -> string)

  /** What SIGHUP replaces, as one value. */
  datatype Snapshot = Snapshot(allowlist: set<u32>, engine: P.Engine)

  datatype Response =
    | Allow(id: Option<string>, name: string)
    | Deny(id: Option<string>, reason: string)
    | Failure(id: Option<string>, message: string)

  /** `params.uid`: absent, not an unsigned integer, or a number. */
  datatype UidParam = Missing | NotUnsigned | Number(value: u64)

  /** One accepted `verify_once` request and the snapshot it was accepted under. */
  datatype Job = Job(
    received: nat, caller: u32, param: UidParam, uid: u32, wanted: string, id: Option<string>, snapshot: Snapshot)

  datatype Route = Route(name: string, adapter: string, timeoutMs: nat)

  /** An adapter answer that passed the version, id, nonce and deadline checks. */
  datatype Evidence = Evidence(
    route: Route, request: A.Request, result: A.VerificationResult,
    issue: nat, dispatched: nat, returned: nat, checkedMs: u64)

  /** What policy was asked about, and when. */
  datatype Basis = Basis(evidence: Evidence, spend: nat, judgedMs: u64)

  /** Where a verdict was reached: by policy, or at an earlier check; the indices
      `at` point at the trace event that shows it. */
  datatype Cause =
    | ByPolicy
    | Unresolved(at: nat)
    | NoNonce(at: nat)
    | BadAnswer(request: A.Request, issue: nat, dispatched: nat, at: nat)
    | NotSpent(evidence: Evidence, at: nat)
    | NotAttested(evidence: Evidence, spend: nat)
    | OtherMethod(evidence: Evidence, spend: nat)

  /** What a handler is about to record and then answer. */
  datatype Verdict = Verdict(fact: Fact, response: Response, basis: Option<Basis>, cause: Cause)

  /** Where a connection handler stands. */
  datatype Phase =
    | Idle
    | Resolving(job: Job, seen: map<string, bool>)
    | Issuing(job: Job, route: Route)
    | Waiting(job: Job, route: Route, request: A.Request, issue: nat, due: nat, dispatched: nat)
    | Abandoning(job: Job, nonce: N.Nonce, issue: nat, verdict: Verdict)
    | Spending(job: Job, evidence: Evidence)
    | Judging(job: Job, evidence: Evidence, spend: nat)
    | Auditing(job: Job, verdict: Verdict)
    | Answering(job: Job, verdict: Verdict, logged: nat, ok: bool)

  datatype Conn = Conn(caller: u32, phase: Phase)

  datatype Event =
    | Reloaded(allowlist: Option<set<u32>>, engine: Option<P.Engine>)
    | Reopened(outcome: L.ReopenOutcome)
    | Probed(name: string, probe: H.Probe)
    | Received(conn: nat, caller: u32, param: UidParam, wanted: string, id: Option<string>, snapshot: Snapshot)
    | Looked(conn: nat, name: string, up: bool)
    | Resolved(conn: nat, pick: Option<string>)
    | Undrawn(conn: nat, draws: N.Draws, error: N.NonceError)
    | Dispatched(conn: nat, request: A.Request, issue: nat)
    | Returned(conn: nat, answer: Option<A.VerificationResult>, nowMs: u64)
    | Unspent(conn: nat, issue: nat, error: N.NonceError, at: nat)
    | Logged(conn: nat, fact: Fact, io: L.WriteOutcome)
    | Responded(conn: nat, job: Job, response: Response, logged: nat, basis: Option<Basis>, cause: Cause)

  /** Phases, evidence and `Dispatched` events carry the index of their nonce's
      issue in `nonceLog`; `spender` remembers which request (by the index of its `Received` event)
      made each successful nonce spend, and `consumer` which
      issue the handler held that made each spent or refused event of `nonceLog`. */
  datatype State = State(
    clock: nat,
    live: Snapshot,
    nonces: N.NonceState,
    audit: L.LogState,
    conns: map<nat, Conn>,
    trace: seq<Event>,
    nonceLog: seq<N.Event>,
    spender: map<nat, nat>,
    consumer: map<nat, nat>)

  // -------------------------------------------------------------- pure helpers

  /** `request_uid`: only root may name another UID, and must name one. */
  function RequestUid(caller: u32, param: UidParam): Result<u32, string> {
    if caller != 0 then Ok(caller)
    else
      match param
      case Missing => Err("root caller must supply params.uid")
      case NotUnsigned => Err("uid must be an unsigned integer")
      case Number(v) => if v > U32_MAX then Err("uid out of range") else Ok(v)
  }

  function NonceReason(e: N.NonceError): string {
    match e
    case NotFound => "nonce_not_found"
    case Expired => "nonce_expired"
    case UidMismatch => "nonce_uid_mismatch"
    case TableFull => "nonce_table_full"
    case TooManyForUid => "nonce_uid_limit"
    case RandomUnavailable => "nonce_random_unavailable"
  }

  function AttestationReason(e: A.AttestationError): string {
    match e
    case UnknownAdapter => "attestation_unknown_adapter"
    case HashMismatch => "attestation_hash_mismatch"
  }

  /** `AuditEntry::deny` */
  function DenyFact(
    tsMs: u64, job: Job, name: string, reason: string, adapter: Option<string>,
      result: Option<A.VerificationResult>): Fact
  {
    Fact(tsMs, job.id, job.caller, job.uid, adapter, name, "deny", Some(reason),
         if result.Some? then result.value.confidence else ZERO_BITS,
         if result.Some? then Hex(result.value.evidenceHash) else "",
         if result.Some? then Hex(result.value.nonce[..8]) else "")
  }

  /** `AuditEntry::from_decision` */
  function DecisionFact(
    cfg: Config, tsMs: u64, job: Job, route: Route, result: A.VerificationResult, decision: P.Decision): Fact
  {
    Fact(tsMs, job.id, job.caller, job.uid, Some(route.adapter), route.name,
         if decision == P.Allow then "allow" else "deny",
         if decision.Deny? then Some(cfg.describe(decision.reason)) else None,
         result.confidence, Hex(result.evidenceHash), Hex(result.nonce[..8]))
  }

  function DenyVerdict(
    tsMs: u64, job: Job, name: string, reason: string, adapter: Option<string>,
    result: Option<A.VerificationResult>, clientReason: string, cause: Cause): Verdict
  {
    Verdict(DenyFact(tsMs, job, name, reason, adapter, result), Deny(job.id, clientReason), None, cause)
  }

  /** Attestation, method match and policy, in that order. */
  function Judge(cfg: Config, job: Job, e: Evidence, spend: nat, nowMs: u64, tsMs: u64): Verdict {
    var adapter := Some(e.route.adapter);
    var attested := A.Verify(cfg.crypto, cfg.keys, e.route.adapter, e.result);
    if cfg.requireAttestation && attested.Err? then
      DenyVerdict(tsMs, job, e.route.name, AttestationReason(attested.error), adapter, Some(e.result),
        "invalid evidence hash",
                  NotAttested(e, spend))
    else if AsStr(e.result.authMethod) != e.route.name then
      DenyVerdict(tsMs, job, e.route.name, "method_mismatch", adapter, Some(e.result), "method mismatch",
        OtherMethod(e, spend))
    else
      var decision := P.Evaluate(job.snapshot.engine, e.result, job.uid, nowMs);
      var fact := DecisionFact(cfg, tsMs, job, e.route, e.result, decision);
      var basis := Some(Basis(e, spend, nowMs));
      match decision
      case Allow => Verdict(fact, Allow(job.id, AsStr(e.result.authMethod)), basis, ByPolicy)
      case Deny(reason) => Verdict(fact, Deny(job.id, cfg.describe(reason)), basis, ByPolicy)
  }

  function SaturatingAdd(a: u64, b: nat): u64 {
    if a + b <= U64_MAX then a + b else U64_MAX
  }

  // --------------------------------------------------------------------- steps

  datatype Step =
    | Tick(now: nat)
    | Sweep(now: nat)
    | Reload(allowlist: Option<set<u32>>, engine: Option<P.Engine>)
    | ReopenLog(outcome: L.ReopenOutcome)
    | Probe(name: string, probe: H.Probe)
    | Accept(conn: nat, caller: u32)
    | Close(conn: nat)
    | Receive(conn: nat, param: UidParam, wanted: string, id: Option<string>, limited: bool)
    | Look(conn: nat, name: string)
    | Resolve(conn: nat, choice: Option<string>, reason: string, tsMs: u64)
    | Issue(conn: nat, draws: N.Draws, uuid: seq<byte>, nowMs: u64, tsMs: u64)
    | Return(conn: nat, answer: Option<A.VerificationResult>, reason: string, nowMs: u64, tsMs: u64)
    | Abandon(conn: nat)
    | Spend(conn: nat, tsMs: u64)
    | Decide(conn: nat, nowMs: u64, tsMs: u64)
    | WriteAudit(conn: nat, io: L.WriteOutcome)
    | Respond(conn: nat)

  /** Steps of no connection. */
  predicate BackgroundStep(step: Step) {
    step.Tick? || step.Sweep? || step.Reload? || step.ReopenLog? || step.Probe?
  }

  /** Steps that open or close a connection. */
  predicate DoorStep(step: Step) {
    step.Accept? || step.Close?
  }

  /** Steps of a handler that use the nonce store. */
  predicate NonceStep(step: Step) {
    step.Issue? || step.Abandon? || step.Spend?
  }

  /** The other steps of a handler. */
  predicate LocalStep(step: Step) {
    step.Receive? || step.Look? || step.Resolve? || step.Return? || step.Decide? || step.WriteAudit? || step.Respond?
  }

  function SetPhase(s: State, conn: nat, phase: Phase): State
    requires conn in s.conns
  {
    s.(conns := s.conns[conn := s.conns[conn].(phase := phase)])
  }

  function Record(s: State, e: Event): State {
    s.(trace := s.trace + [e])
  }

  /** One nonce operation: new store state and its history entry. */
  ghost function NonceOp(s: State, op: N.Op): State {
    s.(nonces := N.Step(s.nonces, op), nonceLog := s.nonceLog + N.EventOf(s.nonces, op))
  }

  function DoReload(s: State, allowlist: Option<set<u32>>, engine: Option<P.Engine>): State {
    var t := Record(s, Reloaded(allowlist, engine));
    if allowlist.Some? && engine.Some? then t.(live := Snapshot(allowlist.value, engine.value)) else t
  }

  /** The connection stays open only if the caller is on the live allowlist. */
  function DoAccept(s: State, conn: nat, caller: u32): State {
    if conn in s.conns || |s.conns| >= MAX_CONNECTIONS || caller !in s.live.allowlist then s
    else s.(conns := s.conns[conn := Conn(caller, Idle)])
  }

  /** One loaded state serves the allowlist check here and the policy later. */
  function DoReceive(s: State, conn: nat, param: UidParam, wanted: string, id: Option<string>, limited: bool): State
    requires conn in s.conns && s.conns[conn].phase.Idle?
  {
    var caller := s.conns[conn].caller;
    var uid := RequestUid(caller, param);
    if caller !in s.live.allowlist || limited || uid.Err? || ValidateName(wanted, true).Err? then
      s.(conns := s.conns - {conn})
    else
      var job := Job(|s.trace|, caller, param, uid.value, wanted, id, s.live);
      Record(SetPhase(s, conn, Resolving(job, map[])), Received(conn, caller, param, wanted, id, s.live))
  }

  /** The probes among the first `k` events. */
  ghost function Probes(trace: seq<Event>, k: nat): seq<(string, H.Probe)>
    requires k <= |trace|
  {
    if k == 0 then []
    else if trace[k - 1].Probed? then Probes(trace, k - 1) + [(trace[k - 1].name, trace[k - 1].probe)]
    else Probes(trace, k - 1)
  }

  /** The shared health map after the first `k` events. */
  ghost function HealthAt(cfg: Config, trace: seq<Event>, k: nat): map<string, H.HealthState>
    requires k <= |trace|
  {
    R.Monitor(cfg.adapters, cfg.started, Probes(trace, k))
  }

  ghost predicate CanLook(cfg: Config, phase: Phase, name: string) {
    phase.Resolving? && phase.job.wanted == "any" && name in cfg.clients && name !in phase.seen
  }

  /** One reading of the health map on behalf of `any`: the lock is taken anew for
      each method. */
  ghost function DoLook(cfg: Config, s: State, conn: nat, name: string): State
    requires conn in s.conns && CanLook(cfg, s.conns[conn].phase, name)
  {
    var phase := s.conns[conn].phase;
    var up := R.Available(cfg.clients, HealthAt(cfg, s.trace, |s.trace|), name);
    Record(SetPhase(s, conn, Resolving(phase.job, phase.seen[name := up])), Looked(conn, name, up))
  }

  /** `any` is resolved once every method was read. */
  ghost predicate CanResolve(cfg: Config, phase: Phase, choice: Option<string>) {
    && phase.Resolving?
    && (phase.job.wanted == "any" ==> phase.seen.Keys == cfg.clients.Keys && R.Picks(phase.seen, choice))
  }

  /** A named method must be registered; for `any` the readings pick, or nothing is
      available. */
  function DoResolve(cfg: Config, s: State, conn: nat, choice: Option<string>, reason: string, tsMs: u64): State
    requires conn in s.conns && s.conns[conn].phase.Resolving?
  {
    var job := s.conns[conn].phase.job;
    var name := if job.wanted == "any" then choice else Some(job.wanted);
    var t := Record(s, Resolved(conn, name));
    if name.Some? && name.value in cfg.clients then
      var client := cfg.clients[name.value];
      SetPhase(t, conn, Issuing(job, Route(name.value, client.name, client.timeoutMs)))
    else
      SetPhase(t, conn, Auditing(job, DenyVerdict(tsMs, job, job.wanted, reason, None, None, reason,
        Unresolved(|s.trace|))))
  }

  ghost function DoIssue(s: State, conn: nat, draws: N.Draws, uuid: seq<byte>, nowMs: u64, tsMs: u64): State
    requires conn in s.conns && s.conns[conn].phase.Issuing?
  {
    var job, route := s.conns[conn].phase.job, s.conns[conn].phase.route;
    match N.GenerateResult(s.nonces, job.uid, draws)
    case Err(e) =>
      var verdict := DenyVerdict(
        tsMs, job, route.name, NonceReason(e), Some(route.adapter), None, NonceReason(e), NoNonce(|s.trace|));
      Record(SetPhase(s, conn, Auditing(job, verdict)), Undrawn(conn, draws, e))
    case Ok(nonce) =>
      var request := A.Request(PROTOCOL_VERSION, uuid, job.uid, nonce, SaturatingAdd(nowMs, route.timeoutMs));
      var t := NonceOp(s, N.DoGenerate(job.uid, draws, s.clock));
      var due := s.clock + route.timeoutMs * NANOS_PER_MS;
      Record(SetPhase(t, conn, Waiting(job, route, request, |s.nonceLog|, due, |s.trace|)),
             Dispatched(conn, request, |s.nonceLog|))
  }

  /** What the answer leads to: the client's version and id checks, the nonce
      match and the deadline. */
  function AfterAnswer(
    phase: Phase, at: nat, answer: Option<A.VerificationResult>, reason: string, nowMs: u64, tsMs: u64): Phase
    requires phase.Waiting?
  {
    var job, route, request, issue := phase.job, phase.route, phase.request, phase.issue;
    var adapter, cause := Some(route.adapter), BadAnswer(request, issue, phase.dispatched, at);
    if answer.None? || answer.value.version != PROTOCOL_VERSION || answer.value.id != request.id then
      Abandoning(job, request.nonce, issue, DenyVerdict(tsMs, job, route.name, reason, adapter, None, reason, cause))
    else if answer.value.nonce != request.nonce then
      Abandoning(job, request.nonce, issue,
                 DenyVerdict(tsMs, job, route.name, "nonce_mismatch", adapter, answer,
                   "nonce mismatch detected", cause))
    else if nowMs > request.deadlineMs then
      Abandoning(job, request.nonce, issue,
                 DenyVerdict(tsMs, job, route.name, "request_deadline_expired", adapter, answer,
                   "request deadline expired", cause))
    else Spending(job, Evidence(route, request, answer.value, issue, phase.dispatched, at, nowMs))
  }

  function DoReturn(
    s: State, conn: nat, answer: Option<A.VerificationResult>, reason: string, nowMs: u64, tsMs: u64): State
    requires conn in s.conns && s.conns[conn].phase.Waiting?
  {
    var phase := s.conns[conn].phase;
    var got := Got(phase, s.clock, answer);
    Record(SetPhase(s, conn, AfterAnswer(phase, |s.trace|, got, reason, nowMs, tsMs)), Returned(conn, got, nowMs))
  }

  /** The exchange with the adapter is cut off at its monotonic deadline. */
  function Got(phase: Phase, clock: nat, answer: Option<A.VerificationResult>): Option<A.VerificationResult>
    requires phase.Waiting?
  {
    if clock <= phase.due then answer else None
  }

  /** `consume` by a handler that holds issue `issue`. */
  ghost function Consumed(s: State, nonce: N.Nonce, uid: u32, issue: nat): State {
    var t := NonceOp(s, N.DoConsume(nonce, uid, s.clock));
    t.(consumer := if |t.nonceLog| > |s.nonceLog| then s.consumer[|s.nonceLog| := issue] else s.consumer)
  }

  ghost function DoAbandon(s: State, conn: nat): State
    requires conn in s.conns && s.conns[conn].phase.Abandoning?
  {
    var phase := s.conns[conn].phase;
    SetPhase(Consumed(s, phase.nonce, phase.job.uid, phase.issue), conn, Auditing(phase.job, phase.verdict))
  }

  ghost function DoSpend(s: State, conn: nat, tsMs: u64): State
    requires conn in s.conns && s.conns[conn].phase.Spending?
  {
    var job, e := s.conns[conn].phase.job, s.conns[conn].phase.evidence;
    var t := Consumed(s, e.request.nonce, job.uid, e.issue);
    match N.ConsumeResult(s.nonces, e.request.nonce, job.uid, s.clock)
    case Err(error) =>
      var verdict := DenyVerdict(
        tsMs, job, e.route.name, NonceReason(error), Some(e.route.adapter), Some(e.result), "nonce replay detected",
        NotSpent(e, |s.trace|));
      Record(SetPhase(t, conn, Auditing(job, verdict)), Unspent(conn, e.issue, error, s.clock))
    case Ok(_) =>
      SetPhase(t.(spender := t.spender[|s.nonceLog| := job.received]), conn, Judging(job, e, |s.nonceLog|))
  }

  function DoDecide(cfg: Config, s: State, conn: nat, nowMs: u64, tsMs: u64): State
    requires conn in s.conns && s.conns[conn].phase.Judging?
  {
    var phase := s.conns[conn].phase;
    SetPhase(s, conn, Auditing(phase.job, Judge(cfg, phase.job, phase.evidence, phase.spend, nowMs, tsMs)))
  }

  function DoWriteAudit(cfg: Config, s: State, conn: nat, io: L.WriteOutcome): State
    requires conn in s.conns && s.conns[conn].phase.Auditing?
  {
    var job, verdict := s.conns[conn].phase.job, s.conns[conn].phase.verdict;
    var t := s.(audit := L.LogCall(cfg.env, s.audit, verdict.fact, io));
    Record(SetPhase(t, conn, Answering(job, verdict, |s.trace|, io.Synced?)), Logged(conn, verdict.fact, io))
  }

  /** No durable record, no decision. */
  function DoRespond(s: State, conn: nat): State
    requires conn in s.conns && s.conns[conn].phase.Answering?
  {
    var phase := s.conns[conn].phase;
    var response := if phase.ok then phase.verdict.response else Failure(phase.job.id, "audit failed");
    Record(SetPhase(s, conn, Idle),
           Responded(conn, phase.job, response, phase.logged, if phase.ok then phase.verdict.basis else None,
                     phase.verdict.cause))
  }

  /** One step; a step that is not enabled leaves the state alone.  A sweep uses an
      instant read before it took the lock. */
  ghost function Do(cfg: Config, s: State, step: Step): State {
    match step
    case Tick(now) => if now >= s.clock then s.(clock := now) else s
    case Sweep(now) => if now <= s.clock then NonceOp(s, N.DoSweep(now)) else s
    case Reload(allowlist, engine) => DoReload(s, allowlist, engine)
    case ReopenLog(outcome) => Record(s, Reopened(outcome)).(audit := L.ReopenCall(s.audit, outcome))
    case Probe(name, probe) => Record(s, Probed(name, probe))
    case Accept(conn, caller) => DoAccept(s, conn, caller)
    case Close(conn) => if conn in s.conns && s.conns[conn].phase.Idle? then s.(conns := s.conns - {conn}) else s
    case Receive(conn, param, wanted, id, limited) =>
      if conn in s.conns && s.conns[conn].phase.Idle? then DoReceive(s, conn, param, wanted, id, limited) else s
    case Look(conn, name) =>
      if conn in s.conns && CanLook(cfg, s.conns[conn].phase, name) then DoLook(cfg, s, conn, name) else s
    case Resolve(conn, choice, reason, tsMs) =>
      if conn in s.conns && CanResolve(cfg, s.conns[conn].phase, choice) then
        DoResolve(cfg, s, conn, choice, reason, tsMs) else s
    case Issue(conn, draws, uuid, nowMs, tsMs) =>
      if conn in s.conns && s.conns[conn].phase.Issuing? && |draws| == N.MAX_DRAWS
      then DoIssue(s, conn, draws, uuid, nowMs, tsMs) else s
    case Return(conn, answer, reason, nowMs, tsMs) =>
      if conn in s.conns && s.conns[conn].phase.Waiting? then DoReturn(s, conn, answer, reason, nowMs, tsMs) else s
    case Abandon(conn) => if conn in s.conns && s.conns[conn].phase.Abandoning? then DoAbandon(s, conn) else s
    case Spend(conn, tsMs) => if conn in s.conns && s.conns[conn].phase.Spending? then DoSpend(s, conn, tsMs) else s
    case Decide(conn, nowMs, tsMs) =>
      if conn in s.conns && s.conns[conn].phase.Judging? then DoDecide(cfg, s, conn, nowMs, tsMs) else s
    case WriteAudit(conn, io) =>
      if conn in s.conns && s.conns[conn].phase.Auditing? then DoWriteAudit(cfg, s, conn, io) else s
    case Respond(conn) => if conn in s.conns && s.conns[conn].phase.Answering? then DoRespond(s, conn) else s
  }

  /** A freshly started daemon. */
  ghost predicate Init(s: State) {
    && s.conns == map[] && s.trace == [] && s.nonceLog == [] && s.spender == map[] && s.consumer == map[]
    && s.nonces == N.NonceState(map[], map[])
  }

  /** The state after a run of steps. */
  ghost function Exec(cfg: Config, s: State, steps: seq<Step>): State {
    if steps == [] then s else Do(cfg, Exec(cfg, s, steps[..|steps| - 1]), steps[|steps| - 1])
  }
}
