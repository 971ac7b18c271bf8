/** What every answer of the server rests on.  The phase of each connection
    carries indices into the run's trace; the invariants say what those indices
    point at, and the theorems at the end read them off for every run. */
module Safety {
  import opened Bytes
  import opened Methods
  import opened Entry
  import opened Server
  import opened Nonces
  import A = Attestation
  import L = Logger
  import N = NonceStore
  import P = Policy
  import R = Registry

  /** The history part of a state. */
  datatype World = World(trace: seq<Event>, nonceLog: seq<N.Event>, spender: map<nat, nat>)

  function WorldOf(s: State): World {
    World(s.trace, s.nonceLog, s.spender)
  }

  // ------------------------------------------------------ facts about one job

  /** Events of no connection. */
  predicate Background(e: Event) {
    e.Reloaded? || e.Reopened? || e.Probed?
  }

  predicate ByConn(e: Event, conn: nat) {
    !Background(e) && e.conn == conn
  }

  /** A request of `conn` starts or ends. */
  predicate Boundary(e: Event, conn: nat) {
    (e.Received? || e.Responded?) && e.conn == conn
  }

  predicate LogBy(e: Event, conn: nat) {
    e.Logged? && e.conn == conn
  }

  /** Between `from` and `to`, `conn` neither took nor answered a request. */
  ghost predicate Quiet(trace: seq<Event>, from: nat, to: nat, conn: nat)
    requires to <= |trace|
  {
    forall i :: from < i < to ==> !Boundary(trace[i], conn)
  }

  /** Between `from` and `to`, `conn` logged nothing, or only at `at`. */
  ghost predicate NoLog(trace: seq<Event>, from: nat, to: nat, conn: nat)
    requires to <= |trace|
  {
    forall i :: from < i < to ==> !LogBy(trace[i], conn)
  }

  ghost predicate OnlyLog(trace: seq<Event>, from: nat, to: nat, conn: nat, at: nat)
    requires to <= |trace|
  {
    forall i :: from < i < to && LogBy(trace[i], conn) ==> i == at
  }

  /** The job is what was received: the target UID follows from the caller, and
      the caller was on the allowlist of the job's own snapshot. */
  ghost predicate JobOk(trace: seq<Event>, conn: nat, job: Job) {
    && job.received < |trace|
    && trace[job.received] == Received(conn, job.caller, job.param, job.wanted, job.id, job.snapshot)
    && RequestUid(job.caller, job.param) == Ok(job.uid)
    && job.caller in job.snapshot.allowlist
  }

  /** On behalf of the job, method `name` was read from the health map as `up`. */
  ghost predicate Saw(trace: seq<Event>, conn: nat, job: Job, name: string, up: bool) {
    exists i :: job.received < i < |trace| && trace[i] == Looked(conn, name, up)
  }

  ghost predicate SeenOk(trace: seq<Event>, conn: nat, job: Job, seen: map<string, bool>) {
    forall m :: m in seen ==> Saw(trace, conn, job, m, seen[m])
  }

  /** A registered route: the one asked for, or for `any` a method that was seen up
      while every method ordered before it was seen down. */
  ghost predicate RouteOk(cfg: Config, w: World, conn: nat, job: Job, route: Route) {
    && route.name in cfg.clients
    && cfg.clients[route.name] == R.Client(route.adapter, route.timeoutMs)
    && if job.wanted != "any" then job.wanted == route.name
       else
         && Saw(w.trace, conn, job, route.name, true)
         && forall m :: m in cfg.clients && m != route.name && !R.Before(route.name, m) ==>
           Saw(w.trace, conn, job, m, false)
  }

  /** The request went out with a nonce issued to the job's target UID. */
  ghost predicate SentOk(w: World, conn: nat, job: Job, request: A.Request, issue: nat, dispatched: nat) {
    && job.received < dispatched < |w.trace|
    && w.trace[dispatched] == Dispatched(conn, request, issue)
    && request.uid == job.uid
    && issue < |w.nonceLog|
    && w.nonceLog[issue].Issued?
    && w.nonceLog[issue].nonce == request.nonce
    && w.nonceLog[issue].uid == job.uid
  }

  /** The adapter's answer echoed this request's version, id and nonce, in time. */
  ghost predicate EvidenceOk(cfg: Config, w: World, conn: nat, job: Job, e: Evidence) {
    && RouteOk(cfg, w, conn, job, e.route)
    && SentOk(w, conn, job, e.request, e.issue, e.dispatched)
    && e.dispatched < e.returned < |w.trace|
    && w.trace[e.returned] == Returned(conn, Some(e.result), e.checkedMs)
    && e.result.version == PROTOCOL_VERSION
    && e.result.id == e.request.id
    && e.result.nonce == e.request.nonce
    && e.checkedMs <= e.request.deadlineMs
  }

  /** The nonce of the request was spent, for the target UID, by this very job. */
  ghost predicate SpendOk(w: World, job: Job, e: Evidence, spend: nat) {
    && e.issue < spend < |w.nonceLog|
    && w.nonceLog[spend].Spent?
    && w.nonceLog[spend].nonce == e.request.nonce
    && w.nonceLog[spend].uid == job.uid
    && spend in w.spender
    && w.spender[spend] == job.received
  }

  /** What policy is asked about: spent, attested evidence of the resolved method. */
  ghost predicate BasisOk(cfg: Config, w: World, conn: nat, job: Job, b: Basis) {
    var e := b.evidence;
    && EvidenceOk(cfg, w, conn, job, e)
    && SpendOk(w, job, e, b.spend)
    && (cfg.requireAttestation ==> A.Verify(cfg.crypto, cfg.keys, e.route.adapter, e.result).Ok?)
    && AsStr(e.result.authMethod) == e.route.name
  }

  /** The answer to a request whose result policy judged. */
  function PolicyAnswer(cfg: Config, job: Job, b: Basis, engine: P.Engine): Response {
    match P.Evaluate(engine, b.evidence.result, job.uid, b.judgedMs)
    case Allow => Allow(job.id, b.evidence.route.name)
    case Deny(reason) => Deny(job.id, cfg.describe(reason))
  }

  /** The record carries the decision, request id, caller and target of the
      answer it precedes, and a reason exactly when that is a denial. */
  predicate FactMatches(job: Job, fact: Fact, response: Response) {
    && fact.requestId == job.id && response.id == job.id
    && fact.callerUid == job.caller && fact.uid == job.uid
    && !response.Failure?
    && fact.decision == (if response.Allow? then "allow" else "deny")
    && (fact.denyReason.None? <==> response.Allow?)
  }

  /** The record of a decision by policy names the adapter, the method, the evidence and the
      first eight bytes of the nonce it rests on. */
  predicate RecordsEvidence(fact: Fact, e: Evidence) {
    && fact.adapterName == Some(e.route.adapter) && fact.methodName == e.route.name
    && fact.confidence == e.result.confidence
    && fact.evidenceHash == Hex(e.result.evidenceHash)
    && fact.noncePrefix == Hex(e.request.nonce[..8])
  }

  ghost predicate VerdictOk(cfg: Config, w: World, conn: nat, job: Job, v: Verdict) {
    && FactMatches(job, v.fact, v.response)
    && (v.cause.ByPolicy? <==> v.basis.Some?)
    && (v.response.Allow? ==> v.cause.ByPolicy?)
    && (v.basis.Some? ==>
          && BasisOk(cfg, w, conn, job, v.basis.value)
          && v.response == PolicyAnswer(cfg, job, v.basis.value, job.snapshot.engine)
          && RecordsEvidence(v.fact, v.basis.value.evidence))
    && CauseOk(cfg, w, conn, job, v.cause)
  }

  /** The answer, if any, did not echo the request's version, id and nonce in time. */
  predicate Unacceptable(request: A.Request, answer: Option<A.VerificationResult>, nowMs: u64) {
    !(&& answer.Some? && answer.value.version == PROTOCOL_VERSION
      && answer.value.id == request.id && answer.value.nonce == request.nonce && nowMs <= request.deadlineMs)
  }

  /** The trace bears out why a request was turned down before policy. */
  ghost predicate CauseOk(cfg: Config, w: World, conn: nat, job: Job, cause: Cause) {
    match cause
    case ByPolicy => true
    case Unresolved(at) =>
      && job.received < at < |w.trace| && w.trace[at].Resolved? && w.trace[at].conn == conn
      && if job.wanted != "any" then w.trace[at].pick == Some(job.wanted) && job.wanted !in cfg.clients
         else w.trace[at].pick == None && forall m :: m in cfg.clients ==> Saw(w.trace, conn, job, m, false)
    case NoNonce(at) =>
      job.received < at < |w.trace| && w.trace[at].Undrawn? && w.trace[at].conn == conn
    case BadAnswer(request, issue, dispatched, at) =>
      && SentOk(w, conn, job, request, issue, dispatched)
      && dispatched < at < |w.trace| && w.trace[at].Returned? && w.trace[at].conn == conn
      && Unacceptable(request, w.trace[at].answer, w.trace[at].nowMs)
    case NotSpent(e, at) =>
      && EvidenceOk(cfg, w, conn, job, e)
      && e.returned < at < |w.trace| && w.trace[at].Unspent? && w.trace[at].conn == conn && w.trace[at].issue == e.issue
    case NotAttested(e, spend) =>
      && EvidenceOk(cfg, w, conn, job, e) && SpendOk(w, job, e, spend)
      && cfg.requireAttestation && A.Verify(cfg.crypto, cfg.keys, e.route.adapter, e.result).Err?
    case OtherMethod(e, spend) =>
      && EvidenceOk(cfg, w, conn, job, e) && SpendOk(w, job, e, spend)
      && AsStr(e.result.authMethod) != e.route.name
  }

  // ------------------------------------------------------- the phase invariant

  ghost predicate Pending(trace: seq<Event>, conn: nat, caller: u32, job: Job) {
    && JobOk(trace, conn, job) && job.caller == caller
    && Quiet(trace, job.received, |trace|, conn)
  }

  /** The request is under way: nothing answered, and logged only at `logged`. */
  ghost predicate OnTrack(trace: seq<Event>, conn: nat, c: Conn)
    requires !c.phase.Idle?
  {
    && Pending(trace, conn, c.caller, c.phase.job)
    && if c.phase.Answering? then OnlyLog(trace, c.phase.job.received, |trace|, conn, c.phase.logged)
       else NoLog(trace, c.phase.job.received, |trace|, conn)
  }

  /** What the phase holds is what the history shows. */
  ghost predicate Backed(cfg: Config, w: World, conn: nat, phase: Phase) {
    match phase
    case Idle => true
    case Resolving(job, seen) => SeenOk(w.trace, conn, job, seen)
    case Issuing(job, route) => RouteOk(cfg, w, conn, job, route)
    case Waiting(job, route, request, issue, _, dispatched) =>
      RouteOk(cfg, w, conn, job, route) && SentOk(w, conn, job, request, issue, dispatched)
    case Abandoning(job, _, _, verdict) => VerdictOk(cfg, w, conn, job, verdict) && verdict.response.Deny?
    case Spending(job, e) => EvidenceOk(cfg, w, conn, job, e)
    case Judging(job, e, spend) => EvidenceOk(cfg, w, conn, job, e) && SpendOk(w, job, e, spend)
    case Auditing(job, verdict) => VerdictOk(cfg, w, conn, job, verdict)
    case Answering(job, verdict, logged, ok) =>
      && VerdictOk(cfg, w, conn, job, verdict)
      && job.received < logged < |w.trace|
      && LogBy(w.trace[logged], conn) && w.trace[logged].fact == verdict.fact && w.trace[logged].io.Synced? == ok
  }

  ghost predicate PhaseOk(cfg: Config, w: World, conn: nat, c: Conn) {
    !c.phase.Idle? ==> OnTrack(w.trace, conn, c) && Backed(cfg, w, conn, c.phase)
  }

  ghost predicate PhasesOk(cfg: Config, s: State) {
    && (forall c :: c in s.conns ==> PhaseOk(cfg, WorldOf(s), c, s.conns[c]))
    && SpendersLogged(s)
  }

  /** Every spend that the server remembers is in the nonce log. */
  ghost predicate SpendersLogged(s: State) {
    forall j :: j in s.spender ==> j < |s.nonceLog|
  }

  // ------------------------------------------------------ history only grows

  /** `v` continues `w`, and `conn` did nothing in between. */
  ghost predicate GrowsQuietly(w: World, v: World, conn: nat) {
    && w.trace <= v.trace
    && w.nonceLog <= v.nonceLog
    && (forall j :: j in w.spender ==> j in v.spender && v.spender[j] == w.spender[j])
    && forall i :: |w.trace| <= i < |v.trace| ==> !ByConn(v.trace[i], conn)
  }

  /** The same without any promise about `conn`. */
  ghost predicate Grows(w: World, v: World) {
    && w.trace <= v.trace
    && w.nonceLog <= v.nonceLog
    && forall j :: j in w.spender ==> j in v.spender && v.spender[j] == w.spender[j]
  }

  lemma BasisStays(cfg: Config, w: World, v: World, conn: nat, job: Job, b: Basis)
    requires Grows(w, v) && BasisOk(cfg, w, conn, job, b)
    ensures BasisOk(cfg, v, conn, job, b)
  {
    EvidenceStays(cfg, w, v, conn, job, b.evidence);
    SpendStays(w, v, job, b.evidence, b.spend);
  }

  lemma CauseStays(cfg: Config, w: World, v: World, conn: nat, job: Job, cause: Cause)
    requires Grows(w, v) && CauseOk(cfg, w, conn, job, cause)
    ensures CauseOk(cfg, v, conn, job, cause)
  {
    match cause
    case Unresolved(_) =>
      if job.wanted == "any" {
        forall m | m in cfg.clients ensures Saw(v.trace, conn, job, m, false) {
          SawStays(w, v, conn, job, m, false);
        }
      }
    case BadAnswer(request, issue, dispatched, _) => SentStays(w, v, conn, job, request, issue, dispatched);
    case NotSpent(e, _) => EvidenceStays(cfg, w, v, conn, job, e);
    case NotAttested(e, spend) =>
      EvidenceStays(cfg, w, v, conn, job, e);
      SpendStays(w, v, job, e, spend);
    case OtherMethod(e, spend) =>
      EvidenceStays(cfg, w, v, conn, job, e);
      SpendStays(w, v, job, e, spend);
    case _ =>
  }

  lemma VerdictStays(cfg: Config, w: World, v: World, conn: nat, job: Job, verdict: Verdict)
    requires Grows(w, v) && VerdictOk(cfg, w, conn, job, verdict)
    ensures VerdictOk(cfg, v, conn, job, verdict)
  {
    CauseStays(cfg, w, v, conn, job, verdict.cause);
    if verdict.basis.Some? {
      BasisStays(cfg, w, v, conn, job, verdict.basis.value);
    }
  }

  lemma SawStays(w: World, v: World, conn: nat, job: Job, name: string, up: bool)
    requires Grows(w, v) && Saw(w.trace, conn, job, name, up)
    ensures Saw(v.trace, conn, job, name, up)
  {
    var i :| job.received < i < |w.trace| && w.trace[i] == Looked(conn, name, up);
    assert v.trace[i] == Looked(conn, name, up);
  }

  lemma SeenStays(w: World, v: World, conn: nat, job: Job, seen: map<string, bool>)
    requires Grows(w, v) && SeenOk(w.trace, conn, job, seen)
    ensures SeenOk(v.trace, conn, job, seen)
  {
    forall m | m in seen ensures Saw(v.trace, conn, job, m, seen[m]) {
      SawStays(w, v, conn, job, m, seen[m]);
    }
  }

  lemma RouteStays(cfg: Config, w: World, v: World, conn: nat, job: Job, route: Route)
    requires Grows(w, v) && RouteOk(cfg, w, conn, job, route)
    ensures RouteOk(cfg, v, conn, job, route)
  {
    if job.wanted == "any" {
      SawStays(w, v, conn, job, route.name, true);
      forall m | m in cfg.clients && m != route.name && !R.Before(route.name, m)
        ensures Saw(v.trace, conn, job, m, false)
      {
        SawStays(w, v, conn, job, m, false);
      }
    }
  }

  lemma EvidenceStays(cfg: Config, w: World, v: World, conn: nat, job: Job, e: Evidence)
    requires Grows(w, v) && EvidenceOk(cfg, w, conn, job, e)
    ensures EvidenceOk(cfg, v, conn, job, e)
  {
    RouteStays(cfg, w, v, conn, job, e.route);
    SentStays(w, v, conn, job, e.request, e.issue, e.dispatched);
  }

  lemma SpendStays(w: World, v: World, job: Job, e: Evidence, spend: nat)
    requires Grows(w, v) && SpendOk(w, job, e, spend)
    ensures SpendOk(v, job, e, spend)
  {
  }

  lemma SentStays(w: World, v: World, conn: nat, job: Job, request: A.Request, issue: nat, dispatched: nat)
    requires Grows(w, v) && SentOk(w, conn, job, request, issue, dispatched)
    ensures SentOk(v, conn, job, request, issue, dispatched)
  {
  }

  lemma BackedStays(cfg: Config, w: World, v: World, conn: nat, phase: Phase)
    requires Grows(w, v) && Backed(cfg, w, conn, phase)
    ensures Backed(cfg, v, conn, phase)
  {
    match phase
    case Resolving(job, seen) => SeenStays(w, v, conn, job, seen);
    case Issuing(job, route) => RouteStays(cfg, w, v, conn, job, route);
    case Waiting(job, route, request, issue, _, dispatched) =>
      RouteStays(cfg, w, v, conn, job, route);
      SentStays(w, v, conn, job, request, issue, dispatched);
    case Abandoning(job, _, _, verdict) => VerdictStays(cfg, w, v, conn, job, verdict);
    case Spending(job, e) => EvidenceStays(cfg, w, v, conn, job, e);
    case Judging(job, e, spend) =>
      EvidenceStays(cfg, w, v, conn, job, e);
      SpendStays(w, v, job, e, spend);
    case Auditing(job, verdict) => VerdictStays(cfg, w, v, conn, job, verdict);
    case Answering(job, verdict, _, _) => VerdictStays(cfg, w, v, conn, job, verdict);
    case _ =>
  }

  lemma OnTrackStays(w: World, v: World, conn: nat, c: Conn)
    requires !c.phase.Idle? && GrowsQuietly(w, v, conn) && OnTrack(w.trace, conn, c)
    ensures OnTrack(v.trace, conn, c)
  {
  }

  /** A connection that does nothing keeps its invariant whatever others do. */
  lemma PhaseStays(cfg: Config, w: World, v: World, conn: nat, c: Conn)
    requires GrowsQuietly(w, v, conn) && PhaseOk(cfg, w, conn, c)
    ensures PhaseOk(cfg, v, conn, c)
  {
    if !c.phase.Idle? {
      OnTrackStays(w, v, conn, c);
      BackedStays(cfg, w, v, conn, c.phase);
    }
  }

  /** Only `conn` moved, and only it added to the trace. */
  ghost predicate MovedOnly(s: State, t: State, conn: nat) {
    && OthersStay(s, t, conn)
    && Grows(WorldOf(s), WorldOf(t))
    && (forall i :: |s.trace| <= i < |t.trace| ==> Background(t.trace[i]) || t.trace[i].conn == conn)
    && SpendersLogged(t)
  }

  lemma MoveKeepsPhases(cfg: Config, s: State, t: State, conn: nat)
    requires PhasesOk(cfg, s) && MovedOnly(s, t, conn)
    requires conn in t.conns ==> PhaseOk(cfg, WorldOf(t), conn, t.conns[conn])
    ensures PhasesOk(cfg, t)
  {
    forall c | c in t.conns ensures PhaseOk(cfg, WorldOf(t), c, t.conns[c]) {
      if c != conn {
        assert c in s.conns && t.conns[c] == s.conns[c];
        PhaseStays(cfg, WorldOf(s), WorldOf(t), c, s.conns[c]);
      }
    }
  }

  // ------------------------------------------------------------- step by step

  lemma ReceiveKeeps(
    cfg: Config, s: State, conn: nat, param: UidParam, wanted: string, id: Option<string>, limited: bool)
    requires PhasesOk(cfg, s) && conn in s.conns && s.conns[conn].phase.Idle?
    ensures PhasesOk(cfg, DoReceive(s, conn, param, wanted, id, limited))
  {
    MoveKeepsPhases(cfg, s, DoReceive(s, conn, param, wanted, id, limited), conn);
  }

  /** The handler's own step, with at most one event of its own that is neither a
      boundary nor a log call, keeps its request on track. */
  lemma OwnEventStays(trace: seq<Event>, more: seq<Event>, conn: nat, c: Conn, d: Conn)
    requires !c.phase.Idle? && !c.phase.Answering? && OnTrack(trace, conn, c)
    requires !d.phase.Idle? && !d.phase.Answering? && d.caller == c.caller && d.phase.job == c.phase.job
    requires trace <= more && |more| <= |trace| + 1
    requires |more| == |trace| + 1 ==> !Boundary(more[|trace|], conn) && !LogBy(more[|trace|], conn)
    ensures OnTrack(more, conn, d)
  {
  }

  /** Only `conn` moved, on the same request, adding at most one such event. */
  ghost predicate OwnMove(s: State, t: State, conn: nat) {
    && MovedOnly(s, t, conn) && conn in s.conns && conn in t.conns
    && (var c, d := s.conns[conn], t.conns[conn];
        && !c.phase.Idle? && !c.phase.Answering? && !d.phase.Idle? && !d.phase.Answering?
        && d.caller == c.caller && d.phase.job == c.phase.job)
    && |t.trace| <= |s.trace| + 1
    && (|t.trace| == |s.trace| + 1 ==> !Boundary(t.trace[|s.trace|], conn) && !LogBy(t.trace[|s.trace|], conn))
  }

  lemma OwnStep(cfg: Config, s: State, t: State, conn: nat)
    requires PhasesOk(cfg, s) && OwnMove(s, t, conn) && Backed(cfg, WorldOf(t), conn, t.conns[conn].phase)
    ensures PhasesOk(cfg, t)
  {
    assert PhaseOk(cfg, WorldOf(s), conn, s.conns[conn]);
    OwnEventStays(s.trace, t.trace, conn, s.conns[conn], t.conns[conn]);
    MoveKeepsPhases(cfg, s, t, conn);
  }

  lemma ResolveMoves(cfg: Config, s: State, conn: nat, choice: Option<string>, reason: string, tsMs: u64)
    requires SpendersLogged(s) && conn in s.conns && s.conns[conn].phase.Resolving?
    ensures OwnMove(s, DoResolve(cfg, s, conn, choice, reason, tsMs), conn)
  {
  }

  lemma LookMoves(cfg: Config, s: State, conn: nat, name: string)
    requires SpendersLogged(s) && conn in s.conns && CanLook(cfg, s.conns[conn].phase, name)
    ensures OwnMove(s, DoLook(cfg, s, conn, name), conn)
  {
  }

  lemma IssueMoves(s: State, conn: nat, draws: N.Draws, uuid: seq<byte>, nowMs: u64, tsMs: u64)
    requires SpendersLogged(s) && conn in s.conns && s.conns[conn].phase.Issuing?
    ensures OwnMove(s, DoIssue(s, conn, draws, uuid, nowMs, tsMs), conn)
  {
  }

  lemma ReturnMoves(s: State, conn: nat, answer: Option<A.VerificationResult>, reason: string, nowMs: u64, tsMs: u64)
    requires SpendersLogged(s) && conn in s.conns && s.conns[conn].phase.Waiting?
    ensures OwnMove(s, DoReturn(s, conn, answer, reason, nowMs, tsMs), conn)
  {
  }

  lemma AbandonMoves(s: State, conn: nat)
    requires SpendersLogged(s) && conn in s.conns && s.conns[conn].phase.Abandoning?
    ensures OwnMove(s, DoAbandon(s, conn), conn)
  {
  }

  lemma SpendMoves(s: State, conn: nat, tsMs: u64)
    requires SpendersLogged(s) && conn in s.conns && s.conns[conn].phase.Spending?
    ensures OwnMove(s, DoSpend(s, conn, tsMs), conn)
  {
    var job, e := s.conns[conn].phase.job, s.conns[conn].phase.evidence;
    if N.ConsumeResult(s.nonces, e.request.nonce, job.uid, s.clock).Ok? {
      SpendAppends(s, e.request.nonce, job.uid);
    }
  }

  lemma DecideMoves(cfg: Config, s: State, conn: nat, nowMs: u64, tsMs: u64)
    requires SpendersLogged(s) && conn in s.conns && s.conns[conn].phase.Judging?
    ensures OwnMove(s, DoDecide(cfg, s, conn, nowMs, tsMs), conn)
  {
  }

  lemma LookBacked(w: World, v: World, conn: nat, job: Job, seen: map<string, bool>, name: string, up: bool)
    requires Grows(w, v) && v.trace == w.trace + [Looked(conn, name, up)] && job.received < |w.trace|
    requires SeenOk(w.trace, conn, job, seen)
    ensures SeenOk(v.trace, conn, job, seen[name := up])
  {
    SeenStays(w, v, conn, job, seen);
    assert v.trace[|w.trace|] == Looked(conn, name, up);
    assert Saw(v.trace, conn, job, name, up);
  }

  lemma LookKeeps(cfg: Config, s: State, conn: nat, name: string)
    requires PhasesOk(cfg, s) && conn in s.conns && CanLook(cfg, s.conns[conn].phase, name)
    ensures PhasesOk(cfg, DoLook(cfg, s, conn, name))
  {
    assert PhaseOk(cfg, WorldOf(s), conn, s.conns[conn]);
    var phase, t := s.conns[conn].phase, DoLook(cfg, s, conn, name);
    LookMoves(cfg, s, conn, name);
    LookBacked(WorldOf(s), WorldOf(t), conn, phase.job, phase.seen, name, t.conns[conn].phase.seen[name]);
    OwnStep(cfg, s, t, conn);
  }

  /** What `any` picked was seen up, and all before it down. */
  lemma PickedOk(cfg: Config, w: World, conn: nat, job: Job, seen: map<string, bool>, name: string)
    requires SeenOk(w.trace, conn, job, seen) && seen.Keys == cfg.clients.Keys && R.Picks(seen, Some(name))
    ensures Saw(w.trace, conn, job, name, true)
    ensures forall m :: m in cfg.clients && m != name && !R.Before(name, m) ==> Saw(w.trace, conn, job, m, false)
  {
    forall m | m in cfg.clients && m != name && !R.Before(name, m) ensures Saw(w.trace, conn, job, m, false) {
      assert m in seen && !seen[m];
    }
  }

  lemma NothingUp(cfg: Config, w: World, conn: nat, job: Job, seen: map<string, bool>)
    requires SeenOk(w.trace, conn, job, seen) && seen.Keys == cfg.clients.Keys && R.Picks(seen, None)
    ensures forall m :: m in cfg.clients ==> Saw(w.trace, conn, job, m, false)
  {
    forall m | m in cfg.clients ensures Saw(w.trace, conn, job, m, false) {
      assert m in seen && !seen[m];
    }
  }

  lemma ResolveGrows(cfg: Config, s: State, conn: nat, choice: Option<string>, reason: string, tsMs: u64)
    requires conn in s.conns && s.conns[conn].phase.Resolving?
    ensures Grows(WorldOf(s), WorldOf(DoResolve(cfg, s, conn, choice, reason, tsMs)))
  {
  }

  lemma ResolveBacked(cfg: Config, s: State, conn: nat, choice: Option<string>, reason: string, tsMs: u64)
    requires conn in s.conns && CanResolve(cfg, s.conns[conn].phase, choice)
    requires PhaseOk(cfg, WorldOf(s), conn, s.conns[conn])
    ensures var t := DoResolve(cfg, s, conn, choice, reason, tsMs);
            Backed(cfg, WorldOf(t), conn, t.conns[conn].phase)
  {
    var job, seen, t := s.conns[conn].phase.job, s.conns[conn].phase.seen, DoResolve(cfg, s, conn, choice,
      reason, tsMs);
    var name := if job.wanted == "any" then choice else Some(job.wanted);
    ResolveGrows(cfg, s, conn, choice, reason, tsMs);
    SeenStays(WorldOf(s), WorldOf(t), conn, job, seen);
    if name.None? || name.value !in cfg.clients {
      if job.wanted == "any" {
        NothingUp(cfg, WorldOf(t), conn, job, seen);
      }
      assert CauseOk(cfg, WorldOf(t), conn, job, Unresolved(|s.trace|));
    } else if job.wanted == "any" {
      PickedOk(cfg, WorldOf(t), conn, job, seen, name.value);
    }
  }

  lemma ResolveKeeps(cfg: Config, s: State, conn: nat, choice: Option<string>, reason: string, tsMs: u64)
    requires PhasesOk(cfg, s) && conn in s.conns && CanResolve(cfg, s.conns[conn].phase, choice)
    ensures PhasesOk(cfg, DoResolve(cfg, s, conn, choice, reason, tsMs))
  {
    assert PhaseOk(cfg, WorldOf(s), conn, s.conns[conn]);
    ResolveBacked(cfg, s, conn, choice, reason, tsMs);
    ResolveMoves(cfg, s, conn, choice, reason, tsMs);
    OwnStep(cfg, s, DoResolve(cfg, s, conn, choice, reason, tsMs), conn);
  }

  lemma IssueBacked(cfg: Config, s: State, conn: nat, draws: N.Draws, uuid: seq<byte>, nowMs: u64, tsMs: u64)
    requires conn in s.conns && s.conns[conn].phase.Issuing? && PhaseOk(cfg, WorldOf(s), conn, s.conns[conn])
    ensures var t := DoIssue(s, conn, draws, uuid, nowMs, tsMs);
            Backed(cfg, WorldOf(t), conn, t.conns[conn].phase)
  {
    var job, t := s.conns[conn].phase.job, DoIssue(s, conn, draws, uuid, nowMs, tsMs);
    if N.GenerateResult(s.nonces, job.uid, draws).Err? {
      assert CauseOk(cfg, WorldOf(t), conn, job, NoNonce(|s.trace|));
    } else {
      RouteStays(cfg, WorldOf(s), WorldOf(t), conn, job, s.conns[conn].phase.route);
    }
  }

  lemma IssueKeeps(cfg: Config, s: State, conn: nat, draws: N.Draws, uuid: seq<byte>, nowMs: u64, tsMs: u64)
    requires PhasesOk(cfg, s) && conn in s.conns && s.conns[conn].phase.Issuing?
    ensures PhasesOk(cfg, DoIssue(s, conn, draws, uuid, nowMs, tsMs))
  {
    assert PhaseOk(cfg, WorldOf(s), conn, s.conns[conn]);
    IssueBacked(cfg, s, conn, draws, uuid, nowMs, tsMs);
    IssueMoves(s, conn, draws, uuid, nowMs, tsMs);
    OwnStep(cfg, s, DoIssue(s, conn, draws, uuid, nowMs, tsMs), conn);
  }

  lemma GoodAnswer(
    cfg: Config, w: World, v: World, conn: nat, phase: Phase, answer: Option<A.VerificationResult>, nowMs: u64)
    requires phase.Waiting? && RouteOk(cfg, w, conn, phase.job, phase.route)
    requires SentOk(w, conn, phase.job, phase.request, phase.issue, phase.dispatched)
    requires v == w.(trace := w.trace + [Returned(conn, answer, nowMs)])
    requires !Unacceptable(phase.request, answer, nowMs)
    ensures EvidenceOk(cfg, v, conn, phase.job,
                       Evidence(phase.route, phase.request, answer.value, phase.issue, phase.dispatched,
                         |w.trace|, nowMs))
  {
    RouteStays(cfg, w, v, conn, phase.job, phase.route);
    SentStays(w, v, conn, phase.job, phase.request, phase.issue, phase.dispatched);
  }

  lemma BadAnswerRefused(
    cfg: Config, w: World, v: World, conn: nat, phase: Phase, answer: Option<A.VerificationResult>, reason: string,
    nowMs: u64, tsMs: u64)
    requires phase.Waiting? && SentOk(w, conn, phase.job, phase.request, phase.issue, phase.dispatched)
    requires v == w.(trace := w.trace + [Returned(conn, answer, nowMs)])
    requires Unacceptable(phase.request, answer, nowMs)
    ensures var next := AfterAnswer(phase, |w.trace|, answer, reason, nowMs, tsMs);
            next.Abandoning? && VerdictOk(cfg, v, conn, phase.job, next.verdict) && next.verdict.response.Deny?
  {
    assert CauseOk(cfg, v, conn, phase.job, BadAnswer(phase.request, phase.issue, phase.dispatched, |w.trace|));
  }

  lemma ReturnBacked(
    cfg: Config, w: World, v: World, conn: nat, phase: Phase, answer: Option<A.VerificationResult>, reason: string,
    nowMs: u64, tsMs: u64)
    requires phase.Waiting? && Backed(cfg, w, conn, phase)
    requires v == w.(trace := w.trace + [Returned(conn, answer, nowMs)])
    ensures Backed(cfg, v, conn, AfterAnswer(phase, |w.trace|, answer, reason, nowMs, tsMs))
  {
    if Unacceptable(phase.request, answer, nowMs) {
      BadAnswerRefused(cfg, w, v, conn, phase, answer, reason, nowMs, tsMs);
    } else {
      GoodAnswer(cfg, w, v, conn, phase, answer, nowMs);
    }
  }

  lemma ReturnKeeps(
    cfg: Config, s: State, conn: nat, answer: Option<A.VerificationResult>, reason: string, nowMs: u64, tsMs: u64)
    requires PhasesOk(cfg, s) && conn in s.conns && s.conns[conn].phase.Waiting?
    ensures PhasesOk(cfg, DoReturn(s, conn, answer, reason, nowMs, tsMs))
  {
    assert PhaseOk(cfg, WorldOf(s), conn, s.conns[conn]);
    var t := DoReturn(s, conn, answer, reason, nowMs, tsMs);
    var phase := s.conns[conn].phase;
    ReturnBacked(cfg, WorldOf(s), WorldOf(t), conn, phase, Got(phase, s.clock, answer), reason, nowMs, tsMs);
    ReturnMoves(s, conn, answer, reason, nowMs, tsMs);
    OwnStep(cfg, s, t, conn);
  }

  lemma AbandonKeeps(cfg: Config, s: State, conn: nat)
    requires PhasesOk(cfg, s) && conn in s.conns && s.conns[conn].phase.Abandoning?
    ensures PhasesOk(cfg, DoAbandon(s, conn))
  {
    assert PhaseOk(cfg, WorldOf(s), conn, s.conns[conn]);
    var t := DoAbandon(s, conn);
    AbandonMoves(s, conn);
    VerdictStays(cfg, WorldOf(s), WorldOf(t), conn, s.conns[conn].phase.job, s.conns[conn].phase.verdict);
    OwnStep(cfg, s, t, conn);
  }

  lemma SpentBacked(cfg: Config, s: State, conn: nat, tsMs: u64)
    requires PhasesOk(cfg, s) && conn in s.conns && s.conns[conn].phase.Spending?
    requires var phase := s.conns[conn].phase;
             N.ConsumeResult(s.nonces, phase.evidence.request.nonce, phase.job.uid, s.clock).Ok?
    ensures var t := DoSpend(s, conn, tsMs);
            Backed(cfg, WorldOf(t), conn, t.conns[conn].phase) && Grows(WorldOf(s), WorldOf(t))
  {
    assert PhaseOk(cfg, WorldOf(s), conn, s.conns[conn]);
    var job, e, t := s.conns[conn].phase.job, s.conns[conn].phase.evidence, DoSpend(s, conn, tsMs);
    SpendAppends(s, e.request.nonce, job.uid);
    assert Grows(WorldOf(s), WorldOf(t));
    EvidenceStays(cfg, WorldOf(s), WorldOf(t), conn, job, e);
  }

  lemma UnspentBacked(cfg: Config, s: State, conn: nat, tsMs: u64)
    requires PhasesOk(cfg, s) && conn in s.conns && s.conns[conn].phase.Spending?
    requires var phase := s.conns[conn].phase;
             N.ConsumeResult(s.nonces, phase.evidence.request.nonce, phase.job.uid, s.clock).Err?
    ensures var t := DoSpend(s, conn, tsMs);
            Backed(cfg, WorldOf(t), conn, t.conns[conn].phase) && Grows(WorldOf(s), WorldOf(t))
  {
    assert PhaseOk(cfg, WorldOf(s), conn, s.conns[conn]);
    var job, e, t := s.conns[conn].phase.job, s.conns[conn].phase.evidence, DoSpend(s, conn, tsMs);
    assert Grows(WorldOf(s), WorldOf(t));
    EvidenceStays(cfg, WorldOf(s), WorldOf(t), conn, job, e);
    assert CauseOk(cfg, WorldOf(t), conn, job, NotSpent(e, |s.trace|));
  }

  lemma SpendKeeps(cfg: Config, s: State, conn: nat, tsMs: u64)
    requires PhasesOk(cfg, s) && conn in s.conns && s.conns[conn].phase.Spending?
    ensures PhasesOk(cfg, DoSpend(s, conn, tsMs))
  {
    var job, e := s.conns[conn].phase.job, s.conns[conn].phase.evidence;
    if N.ConsumeResult(s.nonces, e.request.nonce, job.uid, s.clock).Ok? {
      SpentBacked(cfg, s, conn, tsMs);
    } else {
      UnspentBacked(cfg, s, conn, tsMs);
    }
    SpendMoves(s, conn, tsMs);
    OwnStep(cfg, s, DoSpend(s, conn, tsMs), conn);
  }

  lemma JudgeOk(cfg: Config, w: World, conn: nat, job: Job, e: Evidence, spend: nat, nowMs: u64, tsMs: u64)
    requires EvidenceOk(cfg, w, conn, job, e) && SpendOk(w, job, e, spend)
    ensures VerdictOk(cfg, w, conn, job, Judge(cfg, job, e, spend, nowMs, tsMs))
  {
    var attested := A.Verify(cfg.crypto, cfg.keys, e.route.adapter, e.result);
    if cfg.requireAttestation && attested.Err? {
      assert CauseOk(cfg, w, conn, job, NotAttested(e, spend));
    } else if AsStr(e.result.authMethod) != e.route.name {
      assert CauseOk(cfg, w, conn, job, OtherMethod(e, spend));
    } else {
      JudgedByPolicy(cfg, w, conn, job, e, spend, nowMs, tsMs);
    }
  }

  lemma JudgedByPolicy(cfg: Config, w: World, conn: nat, job: Job, e: Evidence, spend: nat, nowMs: u64, tsMs: u64)
    requires BasisOk(cfg, w, conn, job, Basis(e, spend, nowMs))
    ensures VerdictOk(cfg, w, conn, job, Judge(cfg, job, e, spend, nowMs, tsMs))
  {
  }

  lemma DecideKeeps(cfg: Config, s: State, conn: nat, nowMs: u64, tsMs: u64)
    requires PhasesOk(cfg, s) && conn in s.conns && s.conns[conn].phase.Judging?
    ensures PhasesOk(cfg, DoDecide(cfg, s, conn, nowMs, tsMs))
  {
    assert PhaseOk(cfg, WorldOf(s), conn, s.conns[conn]);
    var phase := s.conns[conn].phase;
    JudgeOk(cfg, WorldOf(s), conn, phase.job, phase.evidence, phase.spend, nowMs, tsMs);
    DecideMoves(cfg, s, conn, nowMs, tsMs);
    OwnStep(cfg, s, DoDecide(cfg, s, conn, nowMs, tsMs), conn);
  }

  lemma WriteAuditKeeps(cfg: Config, s: State, conn: nat, io: L.WriteOutcome)
    requires PhasesOk(cfg, s) && conn in s.conns && s.conns[conn].phase.Auditing?
    ensures PhasesOk(cfg, DoWriteAudit(cfg, s, conn, io))
  {
    assert PhaseOk(cfg, WorldOf(s), conn, s.conns[conn]);
    var t := DoWriteAudit(cfg, s, conn, io);
    WriteMoves(cfg, s, conn, io);
    WriteBacked(cfg, WorldOf(s), WorldOf(t), conn, s.conns[conn].phase, io);
    WriteOnTrack(s.trace, t.trace, conn, s.conns[conn], io);
    MoveKeepsPhases(cfg, s, t, conn);
  }

  lemma WriteMoves(cfg: Config, s: State, conn: nat, io: L.WriteOutcome)
    requires SpendersLogged(s) && conn in s.conns && s.conns[conn].phase.Auditing?
    ensures MovedOnly(s, DoWriteAudit(cfg, s, conn, io), conn)
  {
  }

  /** The phase after the log call. */
  function Written(trace: seq<Event>, phase: Phase, io: L.WriteOutcome): Phase
    requires phase.Auditing?
  {
    Answering(phase.job, phase.verdict, |trace|, io.Synced?)
  }

  lemma WriteBacked(cfg: Config, w: World, v: World, conn: nat, phase: Phase, io: L.WriteOutcome)
    requires phase.Auditing? && phase.job.received < |w.trace| && Backed(cfg, w, conn, phase)
    requires v == w.(trace := w.trace + [Logged(conn, phase.verdict.fact, io)])
    ensures Backed(cfg, v, conn, Written(w.trace, phase, io))
  {
    VerdictStays(cfg, w, v, conn, phase.job, phase.verdict);
  }

  lemma WriteOnTrack(trace: seq<Event>, more: seq<Event>, conn: nat, c: Conn, io: L.WriteOutcome)
    requires c.phase.Auditing? && OnTrack(trace, conn, c) && more == trace + [Logged(conn, c.phase.verdict.fact, io)]
    ensures OnTrack(more, conn, c.(phase := Written(trace, c.phase, io)))
  {
  }

  lemma RespondKeeps(cfg: Config, s: State, conn: nat)
    requires PhasesOk(cfg, s) && conn in s.conns && s.conns[conn].phase.Answering?
    ensures PhasesOk(cfg, DoRespond(s, conn))
  {
    MoveKeepsPhases(cfg, s, DoRespond(s, conn), conn);
  }

  /** Steps of no connection. */
  ghost predicate BackgroundMove(s: State, t: State) {
    && t.conns == s.conns && Grows(WorldOf(s), WorldOf(t)) && t.spender == s.spender && SpendersLogged(t)
    && forall i :: |s.trace| <= i < |t.trace| ==> Background(t.trace[i])
  }

  lemma BackgroundKeeps(cfg: Config, s: State, t: State)
    requires PhasesOk(cfg, s) && BackgroundMove(s, t)
    ensures PhasesOk(cfg, t)
  {
    forall c | c in t.conns ensures PhaseOk(cfg, WorldOf(t), c, t.conns[c]) {
      PhaseStays(cfg, WorldOf(s), WorldOf(t), c, s.conns[c]);
    }
  }

  lemma OpenCloseKeeps(cfg: Config, s: State, t: State, conn: nat)
    requires PhasesOk(cfg, s) && OthersStay(s, t, conn) && WorldOf(t) == WorldOf(s)
    requires conn in t.conns ==> t.conns[conn].phase.Idle? || (conn in s.conns && t.conns[conn] == s.conns[conn])
    ensures PhasesOk(cfg, t)
  {
    MoveKeepsPhases(cfg, s, t, conn);
  }

  lemma StepKeepsPhases(cfg: Config, s: State, step: Step)
    requires PhasesOk(cfg, s)
    ensures PhasesOk(cfg, Do(cfg, s, step))
  {
    if BackgroundStep(step) {
      BackgroundMoves(cfg, s, step);
      BackgroundKeeps(cfg, s, Do(cfg, s, step));
    } else if DoorStep(step) {
      DoorStepKeeps(cfg, s, step);
    } else if step.conn in s.conns {
      HandlerKeepsPhases(cfg, s, step);
    }
  }

  lemma DoorStepKeeps(cfg: Config, s: State, step: Step)
    requires PhasesOk(cfg, s) && DoorStep(step)
    ensures PhasesOk(cfg, Do(cfg, s, step))
  {
    OpenCloseKeeps(cfg, s, Do(cfg, s, step), step.conn);
  }

  lemma SweepMoves(cfg: Config, s: State, step: Step)
    requires step.Sweep? && SpendersLogged(s)
    ensures BackgroundMove(s, Do(cfg, s, step))
  {
  }

  lemma RecordMoves(cfg: Config, s: State, step: Step)
    requires BackgroundStep(step) && !step.Sweep? && SpendersLogged(s)
    ensures BackgroundMove(s, Do(cfg, s, step))
  {
  }

  lemma BackgroundMoves(cfg: Config, s: State, step: Step)
    requires BackgroundStep(step) && SpendersLogged(s)
    ensures BackgroundMove(s, Do(cfg, s, step))
  {
    if step.Sweep? {
      SweepMoves(cfg, s, step);
    } else {
      RecordMoves(cfg, s, step);
    }
  }

  lemma HandlerKeepsPhases(cfg: Config, s: State, step: Step)
    requires PhasesOk(cfg, s)
    requires !BackgroundStep(step) && !DoorStep(step)
    requires step.conn in s.conns
    ensures PhasesOk(cfg, Do(cfg, s, step))
  {
    var phase := s.conns[step.conn].phase;
    match step
    case Receive(conn, param, wanted, id, limited) =>
      if phase.Idle? {
        ReceiveKeeps(cfg, s, conn, param, wanted, id, limited);
      }
    case Look(conn, name) =>
      if CanLook(cfg, phase, name) {
        LookKeeps(cfg, s, conn, name);
      }
    case Resolve(conn, choice, reason, tsMs) =>
      if CanResolve(cfg, phase, choice) {
        ResolveKeeps(cfg, s, conn, choice, reason, tsMs);
      }
    case Issue(conn, draws, uuid, nowMs, tsMs) =>
      if phase.Issuing? && |draws| == N.MAX_DRAWS {
        IssueKeeps(cfg, s, conn, draws, uuid, nowMs, tsMs);
      }
    case Return(conn, answer, reason, nowMs, tsMs) =>
      if phase.Waiting? {
        ReturnKeeps(cfg, s, conn, answer, reason, nowMs, tsMs);
      }
    case Abandon(conn) =>
      if phase.Abandoning? {
        AbandonKeeps(cfg, s, conn);
      }
    case Spend(conn, tsMs) =>
      if phase.Spending? {
        SpendKeeps(cfg, s, conn, tsMs);
      }
    case Decide(conn, nowMs, tsMs) =>
      if phase.Judging? {
        DecideKeeps(cfg, s, conn, nowMs, tsMs);
      }
    case WriteAudit(conn, io) =>
      if phase.Auditing? {
        WriteAuditKeeps(cfg, s, conn, io);
      }
    case Respond(conn) =>
      if phase.Answering? {
        RespondKeeps(cfg, s, conn);
      }
  }

  lemma {:induction false} PhasesAlwaysOk(cfg: Config, s: State, steps: seq<Step>)
    requires Init(s)
    ensures PhasesOk(cfg, Exec(cfg, s, steps))
  {
    if steps != [] {
      PhasesAlwaysOk(cfg, s, steps[..|steps| - 1]);
      StepKeepsPhases(cfg, Exec(cfg, s, steps[..|steps| - 1]), steps[|steps| - 1]);
    }
  }

  // ---------------------------------------------------------- answers of a run

  /** The answer at `k` follows exactly one record of its request, made at
      `logged`; a successful record carries the same decision, request id, caller
      and target UID, and a failed one yields neither allow nor deny. */
  ghost predicate OneRecord(trace: seq<Event>, k: nat)
    requires k < |trace| && trace[k].Responded?
  {
    var e := trace[k];
    && JobOk(trace, e.conn, e.job)
    && e.job.received < e.logged < k
    && Quiet(trace, e.job.received, k, e.conn)
    && OnlyLog(trace, e.job.received, k, e.conn, e.logged)
    && LogBy(trace[e.logged], e.conn)
    && if trace[e.logged].io.Synced? then FactMatches(e.job, trace[e.logged].fact, e.response) else e.response.Failure?
  }

  /** An answer that policy reached is policy's, on good evidence, and recorded as
      such; every other allow or deny is a denial that the trace bears out. */
  ghost predicate GroundsOk(cfg: Config, w: World, k: nat)
    requires k < |w.trace| && w.trace[k].Responded?
  {
    var e := w.trace[k];
    && CauseOk(cfg, w, e.conn, e.job, e.cause)
    && (e.response.Allow? ==> e.cause.ByPolicy?)
    && (!e.response.Failure? ==> (e.cause.ByPolicy? <==> e.basis.Some?))
    && (e.basis.Some? ==>
          && BasisOk(cfg, w, e.conn, e.job, e.basis.value)
          && e.response == PolicyAnswer(cfg, e.job, e.basis.value, e.job.snapshot.engine)
          && e.basis.value.evidence.returned < k
          && e.logged < k && w.trace[e.logged].Logged?
          && RecordsEvidence(w.trace[e.logged].fact, e.basis.value.evidence))
  }

  ghost predicate AnswerOk(cfg: Config, w: World, k: nat)
    requires k < |w.trace|
  {
    w.trace[k].Responded? ==> OneRecord(w.trace, k) && GroundsOk(cfg, w, k)
  }

  ghost predicate AnswersOk(cfg: Config, w: World) {
    forall k: nat :: k < |w.trace| ==> AnswerOk(cfg, w, k)
  }

  lemma OneRecordStays(trace: seq<Event>, more: seq<Event>, k: nat)
    requires trace <= more && k < |trace| && trace[k].Responded? && OneRecord(trace, k)
    ensures OneRecord(more, k)
  {
  }

  lemma AnswerStays(cfg: Config, w: World, v: World, k: nat)
    requires Grows(w, v) && k < |w.trace| && AnswerOk(cfg, w, k)
    ensures AnswerOk(cfg, v, k)
  {
    if w.trace[k].Responded? {
      OneRecordStays(w.trace, v.trace, k);
      var e := w.trace[k];
      CauseStays(cfg, w, v, e.conn, e.job, e.cause);
      if e.basis.Some? {
        BasisStays(cfg, w, v, e.conn, e.job, e.basis.value);
      }
    }
  }

  lemma NoAnswerKeeps(cfg: Config, w: World, v: World)
    requires AnswersOk(cfg, w) && Grows(w, v)
    requires forall i :: |w.trace| <= i < |v.trace| ==> !v.trace[i].Responded?
    ensures AnswersOk(cfg, v)
  {
    forall k: nat | k < |v.trace| ensures AnswerOk(cfg, v, k) {
      if k < |w.trace| {
        AnswerStays(cfg, w, v, k);
      }
    }
  }

  lemma NewAnswerOk(cfg: Config, s: State, conn: nat)
    requires PhasesOk(cfg, s) && conn in s.conns && s.conns[conn].phase.Answering?
    ensures AnswerOk(cfg, WorldOf(DoRespond(s, conn)), |s.trace|)
  {
    assert PhaseOk(cfg, WorldOf(s), conn, s.conns[conn]);
    var t, phase := DoRespond(s, conn), s.conns[conn].phase;
    VerdictStays(cfg, WorldOf(s), WorldOf(t), conn, phase.job, phase.verdict);
  }

  lemma RespondAnswers(cfg: Config, s: State, conn: nat)
    requires PhasesOk(cfg, s) && AnswersOk(cfg, WorldOf(s)) && conn in s.conns && s.conns[conn].phase.Answering?
    ensures AnswersOk(cfg, WorldOf(DoRespond(s, conn)))
  {
    var w, v := WorldOf(s), WorldOf(DoRespond(s, conn));
    NewAnswerOk(cfg, s, conn);
    forall k: nat | k < |v.trace| ensures AnswerOk(cfg, v, k) {
      if k < |w.trace| {
        AnswerStays(cfg, w, v, k);
      }
    }
  }

  /** History grew, and by no answer. */
  ghost predicate Extends(s: State, t: State) {
    && Grows(WorldOf(s), WorldOf(t))
    && forall i :: |s.trace| <= i < |t.trace| ==> !t.trace[i].Responded?
  }

  lemma OwnMoveExtends(s: State, t: State, conn: nat)
    requires OwnMove(s, t, conn)
    ensures Extends(s, t)
  {
    forall i | |s.trace| <= i < |t.trace| ensures !t.trace[i].Responded? {
      assert i == |s.trace|;
    }
  }

  lemma BackgroundExtends(cfg: Config, s: State, step: Step)
    requires SpendersLogged(s) && BackgroundStep(step)
    ensures Extends(s, Do(cfg, s, step))
  {
    BackgroundMoves(cfg, s, step);
    var t := Do(cfg, s, step);
    forall i | |s.trace| <= i < |t.trace| ensures !t.trace[i].Responded? {
      assert Background(t.trace[i]);
    }
  }

  lemma DoorExtends(cfg: Config, s: State, step: Step)
    requires DoorStep(step)
    ensures Extends(s, Do(cfg, s, step))
  {
  }

  lemma NonceStepExtends(cfg: Config, s: State, step: Step)
    requires SpendersLogged(s) && NonceStep(step) && step.conn in s.conns
    ensures Extends(s, Do(cfg, s, step))
  {
    var phase := s.conns[step.conn].phase;
    match step
    case Issue(conn, draws, uuid, nowMs, tsMs) =>
      if phase.Issuing? && |draws| == N.MAX_DRAWS {
        IssueMoves(s, conn, draws, uuid, nowMs, tsMs);
        OwnMoveExtends(s, DoIssue(s, conn, draws, uuid, nowMs, tsMs), conn);
      }
    case Abandon(conn) =>
      if phase.Abandoning? {
        AbandonMoves(s, conn);
        OwnMoveExtends(s, DoAbandon(s, conn), conn);
      }
    case Spend(conn, tsMs) =>
      if phase.Spending? {
        SpendMoves(s, conn, tsMs);
        OwnMoveExtends(s, DoSpend(s, conn, tsMs), conn);
      }
  }

  lemma EarlyStepExtends(cfg: Config, s: State, step: Step)
    requires step.Receive? || step.Look? || step.Resolve?
    ensures Extends(s, Do(cfg, s, step))
  {
  }

  lemma LateStepExtends(cfg: Config, s: State, step: Step)
    requires step.Return? || step.Decide? || step.WriteAudit?
    ensures Extends(s, Do(cfg, s, step))
  {
  }

  lemma StepExtends(cfg: Config, s: State, step: Step)
    requires SpendersLogged(s) && !step.Respond?
    ensures Extends(s, Do(cfg, s, step))
  {
    if BackgroundStep(step) {
      BackgroundExtends(cfg, s, step);
    } else if DoorStep(step) {
      DoorExtends(cfg, s, step);
    } else if NonceStep(step) {
      if step.conn in s.conns {
        NonceStepExtends(cfg, s, step);
      }
    } else if step.Receive? || step.Look? || step.Resolve? {
      EarlyStepExtends(cfg, s, step);
    } else {
      LateStepExtends(cfg, s, step);
    }
  }

  lemma StepKeepsAnswers(cfg: Config, s: State, step: Step)
    requires PhasesOk(cfg, s) && AnswersOk(cfg, WorldOf(s))
    ensures AnswersOk(cfg, WorldOf(Do(cfg, s, step)))
  {
    if step.Respond? && step.conn in s.conns && s.conns[step.conn].phase.Answering? {
      RespondAnswers(cfg, s, step.conn);
    } else if !step.Respond? {
      StepExtends(cfg, s, step);
      NoAnswerKeeps(cfg, WorldOf(s), WorldOf(Do(cfg, s, step)));
    }
  }

  lemma {:induction false} AnswersAlwaysOk(cfg: Config, s: State, steps: seq<Step>)
    requires Init(s)
    ensures AnswersOk(cfg, WorldOf(Exec(cfg, s, steps)))
  {
    if steps != [] {
      AnswersAlwaysOk(cfg, s, steps[..|steps| - 1]);
      PhasesAlwaysOk(cfg, s, steps[..|steps| - 1]);
      StepKeepsAnswers(cfg, Exec(cfg, s, steps[..|steps| - 1]), steps[|steps| - 1]);
    }
  }

  // ------------------------------------------------------------- the theorems

  /** One decision, one record, for every answer of every run. */
  lemma OneDecisionOneRecord(cfg: Config, s: State, steps: seq<Step>, k: nat)
    requires Init(s) && k < |Exec(cfg, s, steps).trace| && Exec(cfg, s, steps).trace[k].Responded?
    ensures OneRecord(Exec(cfg, s, steps).trace, k)
  {
    AnswersAlwaysOk(cfg, s, steps);
    assert AnswerOk(cfg, WorldOf(Exec(cfg, s, steps)), k);
  }

  /** Safety of every Allow over every interleaved run: the adapter echoed this
      request's id and nonce before the deadline; the consume ended an issue made
      to the same target UID at most the TTL before; the method is the resolved
      one, which is the requested one unless that was `any`; the MAC check passed
      under the resolved adapter's key when attestation is required; policy
      allowed under the snapshot whose allowlist admitted the caller; and the
      record names the evidence. */
  lemma AllowSafety(cfg: Config, s: State, steps: seq<Step>, k: nat) returns (b: Basis, issue: nat)
    requires Init(s) && k < |Exec(cfg, s, steps).trace|
    requires Exec(cfg, s, steps).trace[k].Responded? && Exec(cfg, s, steps).trace[k].response.Allow?
    ensures var t := Exec(cfg, s, steps);
            && t.trace[k].basis == Some(b)
            && BasisOk(cfg, WorldOf(t), t.trace[k].conn, t.trace[k].job, b)
            && P.Evaluate(t.trace[k].job.snapshot.engine, b.evidence.result, t.trace[k].job.uid, b.judgedMs) == P.Allow
            && t.trace[k].response.name == b.evidence.route.name
            && b.evidence.returned < k && t.trace[k].logged < k && t.trace[t.trace[k].logged].Logged?
            && RecordsEvidence(t.trace[t.trace[k].logged].fact, b.evidence)
            && (t.trace[k].job.caller != 0 ==> t.trace[k].job.uid == t.trace[k].job.caller)
            && N.SpendOf(t.nonceLog, b.spend, issue)
            && t.nonceLog[issue].uid == t.trace[k].job.uid
            && t.nonceLog[issue].at <= t.nonceLog[b.spend].at <= t.nonceLog[issue].at + N.NONCE_TTL
  {
    var t := Exec(cfg, s, steps);
    AnswersAlwaysOk(cfg, s, steps);
    StoreAlwaysOk(cfg, s, steps);
    assert AnswerOk(cfg, WorldOf(t), k);
    b := t.trace[k].basis.value;
    issue := SpendWithinTtl(t.nonceLog, t.clock, b.spend);
  }

  /** Two answers never belong to the same request. */
  lemma AnswersAreOfDistinctJobs(trace: seq<Event>, j: nat, k: nat)
    requires j < k < |trace| && trace[j].Responded? && trace[k].Responded?
    requires OneRecord(trace, j) && OneRecord(trace, k)
    ensures trace[j].job.received != trace[k].job.received
  {
    if trace[j].job.received == trace[k].job.received {
      assert Boundary(trace[j], trace[k].conn);
      assert false;
    }
  }

  /** No two Allows of a run spend the same issue. */
  lemma AllowsSpendDistinctIssues(cfg: Config, s: State, steps: seq<Step>, j: nat, k: nat)
    requires Init(s) && j < k < |Exec(cfg, s, steps).trace|
    requires Exec(cfg, s, steps).trace[j].Responded? && Exec(cfg, s, steps).trace[j].response.Allow?
    requires Exec(cfg, s, steps).trace[k].Responded? && Exec(cfg, s, steps).trace[k].response.Allow?
    ensures var t := Exec(cfg, s, steps);
            && t.trace[j].basis.Some? && t.trace[k].basis.Some?
            && t.trace[j].basis.value.spend < |t.nonceLog| && t.trace[k].basis.value.spend < |t.nonceLog|
            && forall i: nat :: !(N.SpendOf(t.nonceLog, t.trace[j].basis.value.spend, i)
                                  && N.SpendOf(t.nonceLog, t.trace[k].basis.value.spend, i))
  {
    var t := Exec(cfg, s, steps);
    AnswersAlwaysOk(cfg, s, steps);
    assert AnswerOk(cfg, WorldOf(t), j) && AnswerOk(cfg, WorldOf(t), k);
    AnswersAreOfDistinctJobs(t.trace, j, k);
    var a, b := t.trace[j].basis.value.spend, t.trace[k].basis.value.spend;
    assert a != b;
    forall i: nat | N.SpendOf(t.nonceLog, a, i) ensures !N.SpendOf(t.nonceLog, b, i) {
      if a < b {
        N.SpendsAreDistinct(t.nonceLog, a, b, i);
      } else if N.SpendOf(t.nonceLog, b, i) {
        N.SpendsAreDistinct(t.nonceLog, b, a, i);
      }
    }
  }

  // ------------------------------------------------------ no replayed evidence

  /** The same nonce was issued twice. */
  ghost predicate NonceRepeated(h: seq<N.Event>) {
    exists i, j :: 0 <= i < j < |h| && h[i].Issued? && h[j].Issued? && h[i].nonce == h[j].nonce
  }

  /** Two pieces of evidence under one key and with one hash are the same, unless a
      collision is at hand. */
  ghost predicate CollisionAt(cfg: Config, adapter: string, x: A.VerificationResult, y: A.VerificationResult) {
    || (adapter in cfg.keys
        && A.MacCollision(cfg.crypto, cfg.keys[adapter], A.ResultInput(cfg.crypto, x), A.ResultInput(cfg.crypto, y)))
    || A.ShaCollision(cfg.crypto, AsStr(x.authMethod), AsStr(y.authMethod))
  }

  lemma SameHashSameNonce(cfg: Config, adapter: string, x: A.VerificationResult, y: A.VerificationResult)
    requires A.Verify(cfg.crypto, cfg.keys, adapter, x).Ok? && A.Verify(cfg.crypto, cfg.keys, adapter, y).Ok?
    requires x.evidenceHash == y.evidenceHash
    ensures x.nonce == y.nonce || CollisionAt(cfg, adapter, x, y)
  {
    A.AttestationBinds(cfg.crypto, cfg.keys, adapter, x, y);
  }

  lemma IssuesRepeat(h: seq<N.Event>, i: nat, j: nat)
    requires i < |h| && j < |h| && i != j && h[i].Issued? && h[j].Issued? && h[i].nonce == h[j].nonce
    ensures NonceRepeated(h)
  {
    if i < j {
      assert h[i].nonce == h[j].nonce;
    } else {
      assert h[j].nonce == h[i].nonce;
    }
  }

  /** No replayed evidence.  With attestation required, two Allows of a run that rest
      on results of one adapter with one evidence hash exhibit a MAC collision or a
      digest collision, or the random source repeated a nonce. */
  lemma NoReplayedEvidence(cfg: Config, s: State, steps: seq<Step>, j: nat, k: nat)
    returns (x: A.VerificationResult, y: A.VerificationResult, adapter: string)
    requires Init(s) && cfg.requireAttestation && j < k < |Exec(cfg, s, steps).trace|
    requires Exec(cfg, s, steps).trace[j].Responded? && Exec(cfg, s, steps).trace[j].response.Allow?
    requires Exec(cfg, s, steps).trace[k].Responded? && Exec(cfg, s, steps).trace[k].response.Allow?
    requires var t := Exec(cfg, s, steps);
             t.trace[j].basis.Some? && t.trace[k].basis.Some? ==>
               && t.trace[j].basis.value.evidence.route.adapter == t.trace[k].basis.value.evidence.route.adapter
               && t.trace[j].basis.value.evidence.result.evidenceHash ==
                 t.trace[k].basis.value.evidence.result.evidenceHash
    ensures var t := Exec(cfg, s, steps);
            && t.trace[j].basis.Some? && t.trace[k].basis.Some?
            && x == t.trace[j].basis.value.evidence.result && y == t.trace[k].basis.value.evidence.result
            && adapter == t.trace[j].basis.value.evidence.route.adapter
            && (CollisionAt(cfg, adapter, x, y) || NonceRepeated(t.nonceLog))
  {
    var t := Exec(cfg, s, steps);
    var b, first := AllowSafety(cfg, s, steps, j);
    var c, second := AllowSafety(cfg, s, steps, k);
    x, y, adapter := b.evidence.result, c.evidence.result, b.evidence.route.adapter;
    AllowsSpendDistinctIssues(cfg, s, steps, j, k);
    assert first != second;
    ReplayShows(cfg, WorldOf(t), t.trace[j].conn, t.trace[j].job, b, first, t.trace[k].conn, t.trace[k].job, c, second);
  }

  lemma ReplayShows(
    cfg: Config, w: World, conn: nat, job: Job, b: Basis, first: nat, other: nat, another: Job, c: Basis, second: nat)
    requires cfg.requireAttestation && BasisOk(cfg, w, conn, job, b) && BasisOk(cfg, w, other, another, c)
    requires N.SpendOf(w.nonceLog, b.spend, first) && N.SpendOf(w.nonceLog, c.spend, second) && first != second
    requires b.evidence.route.adapter == c.evidence.route.adapter
    requires b.evidence.result.evidenceHash == c.evidence.result.evidenceHash
    ensures CollisionAt(cfg, b.evidence.route.adapter, b.evidence.result, c.evidence.result)
            || NonceRepeated(w.nonceLog)
  {
    SameHashSameNonce(cfg, b.evidence.route.adapter, b.evidence.result, c.evidence.result);
    if b.evidence.result.nonce == c.evidence.result.nonce {
      IssuesRepeat(w.nonceLog, first, second);
    }
  }
}
