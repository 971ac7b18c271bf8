/** Why the ownership theorems speak of redraws: a run in which the random source
    repeats a nonce and an Allow spends the issue of another request. */
module Redraw {
  import opened Bytes
  import opened Methods
  import opened Server
  import opened Nonces
  import opened Ownership
  import opened Completeness
  import A = Attestation
  import L = Logger
  import N = NonceStore
  import P = Policy

  /** Sixteen draws of one nonce. */
  function Same(nonce: N.Nonce): N.Draws {
    seq(N.MAX_DRAWS, _ => Some(nonce))
  }

  /** What one connection needs to ask for method `name` as UID `uid`. */
  ghost predicate Ready(cfg: Config, t: State, conn: nat, uid: u32, name: string) {
    && conn in t.conns && t.conns[conn] == Conn(uid, Idle)
    && uid != 0 && uid in t.live.allowlist
    && name != "any" && ValidateName(name, true).Ok? && name in cfg.clients
  }

  /** Nothing but the named connection, the nonce log and the trace changed. */
  ghost predicate OnlyConn(t: State, u: State, conn: nat) {
    u.live == t.live && u.clock == t.clock && OthersStay(t, u, conn)
  }

  lemma ReceiveEnters(cfg: Config, t: State, conn: nat, uid: u32, name: string)
    requires Ready(cfg, t, conn, uid, name)
    ensures var job := Job(|t.trace|, uid, Missing, uid, name, None, t.live);
            var u := Do(cfg, t, Receive(conn, Missing, name, None, false));
            && InPhase(u, conn, Resolving(job, map[])) && OnlyConn(t, u, conn) && SameStore(t, u)
  {
  }

  lemma ResolveEnters(cfg: Config, t: State, conn: nat, job: Job)
    requires InPhase(t, conn, Resolving(job, map[])) && job.wanted != "any" && job.wanted in cfg.clients
    ensures var client := cfg.clients[job.wanted];
            var u := Do(cfg, t, Resolve(conn, None, "", 0));
            && InPhase(u, conn, Issuing(job, Route(job.wanted, client.name, client.timeoutMs)))
            && OnlyConn(t, u, conn) && SameStore(t, u)
  {
  }

  lemma IssueEnters(cfg: Config, t: State, conn: nat, job: Job, route: Route, nonce: N.Nonce, uuid: seq<byte>)
    requires InPhase(t, conn, Issuing(job, route)) && StoreOk(t) && NoLeak(t) && nonce !in t.nonces.pending
    ensures var u := Do(cfg, t, Issue(conn, Same(nonce), uuid, 0, 0));
            var request := A.Request(PROTOCOL_VERSION, uuid, job.uid, nonce, SaturatingAdd(0, route.timeoutMs));
            var due := t.clock + route.timeoutMs * NANOS_PER_MS;
            && InPhase(u, conn, Waiting(job, route, request, |t.nonceLog|, due, |t.trace|)) && OnlyConn(t, u, conn)
            && u.nonceLog == t.nonceLog + [N.Issued(nonce, job.uid, t.clock)]
            && u.nonces.pending == t.nonces.pending[nonce := N.Pending(t.clock, job.uid)]
  {
    RoomForAll(t, job.uid, Same(nonce));
    assert Same(nonce)[0] == Some(nonce);
  }

  /** The connection waits for the adapter with a fresh issue of `nonce`. */
  ghost predicate Entered(
    cfg: Config, t: State, u: State, conn: nat, uid: u32, name: string, nonce: N.Nonce, uuid: seq<byte>, phase: Phase)
  {
    && InPhase(u, conn, phase) && OnlyConn(t, u, conn)
    && phase.Waiting? && phase.job.uid == uid && phase.job.snapshot == t.live
    && name in cfg.clients && phase.route == Route(name, cfg.clients[name].name, cfg.clients[name].timeoutMs)
    && phase.request.nonce == nonce && phase.request.id == uuid && phase.issue == |t.nonceLog|
    && phase.due == t.clock + phase.route.timeoutMs * NANOS_PER_MS
    && u.nonceLog == t.nonceLog + [N.Issued(nonce, uid, t.clock)]
    && u.nonces.pending == t.nonces.pending[nonce := N.Pending(t.clock, uid)]
  }

  /** Receive, resolve and issue on one connection. */
  lemma Enter(cfg: Config, s: State, run: seq<Step>, conn: nat, uid: u32, name: string, nonce: N.Nonce, uuid: seq<byte>)
    returns (more: seq<Step>, phase: Phase)
    requires Init(s) && Ready(cfg, Exec(cfg, s, run), conn, uid, name) && nonce !in Exec(cfg, s, run).nonces.pending
    ensures Entered(cfg, Exec(cfg, s, run), Exec(cfg, s, more), conn, uid, name, nonce, uuid, phase)
  {
    var t := Exec(cfg, s, run);
    var job := Job(|t.trace|, uid, Missing, uid, name, None, t.live);
    var route := Route(name, cfg.clients[name].name, cfg.clients[name].timeoutMs);
    var received := run + [Receive(conn, Missing, name, None, false)];
    ExecSnoc(cfg, s, run, Receive(conn, Missing, name, None, false));
    ReceiveEnters(cfg, t, conn, uid, name);
    var resolved := received + [Resolve(conn, None, "", 0)];
    ExecSnoc(cfg, s, received, Resolve(conn, None, "", 0));
    ResolveEnters(cfg, Exec(cfg, s, received), conn, job);
    more := resolved + [Issue(conn, Same(nonce), uuid, 0, 0)];
    var u := Exec(cfg, s, resolved);
    ExecSnoc(cfg, s, resolved, Issue(conn, Same(nonce), uuid, 0, 0));
    StoreAlwaysOk(cfg, s, resolved);
    NeverLeaks(cfg, s, resolved);
    IssueEnters(cfg, u, conn, job, route, nonce, uuid);
    phase := Exec(cfg, s, more).conns[conn].phase;
  }

  /** The clock passes the TTL and a sweep takes the only pending nonce. */
  lemma Expire(cfg: Config, t: State, nonce: N.Nonce, uid: u32)
    requires t.nonces.pending == map[nonce := N.Pending(t.clock, uid)]
    ensures var later := t.clock + N.NONCE_TTL;
            var u := Do(cfg, Do(cfg, t, Tick(later)), Sweep(later));
            && u.nonces.pending == map[] && u.nonceLog == t.nonceLog + [N.Expelled({nonce}, later)]
            && u.clock == later && u.live == t.live && u.conns == t.conns
  {
    var later := t.clock + N.NONCE_TTL;
    var ticked := Do(cfg, t, Tick(later));
    assert N.Stale(ticked.nonces, later) == {nonce};
  }

  ghost predicate OnlyPending(t: State, nonce: N.Nonce, uid: u32) {
    t.nonces.pending == map[nonce := N.Pending(t.clock, uid)]
  }

  /** One TTL later and after a sweep. */
  ghost predicate SweptFrom(t: State, u: State, nonce: N.Nonce) {
    && u.nonces.pending == map[] && u.nonceLog == t.nonceLog + [N.Expelled({nonce}, t.clock + N.NONCE_TTL)]
    && u.clock == t.clock + N.NONCE_TTL && u.live == t.live && u.conns == t.conns
  }

  lemma ExpireRun(cfg: Config, s: State, run: seq<Step>, nonce: N.Nonce, uid: u32) returns (more: seq<Step>)
    requires OnlyPending(Exec(cfg, s, run), nonce, uid)
    ensures SweptFrom(Exec(cfg, s, run), Exec(cfg, s, more), nonce)
  {
    var t := Exec(cfg, s, run);
    var later := t.clock + N.NONCE_TTL;
    more := run + [Tick(later)] + [Sweep(later)];
    ExecSnoc(cfg, s, run, Tick(later));
    ExecSnoc(cfg, s, run + [Tick(later)], Sweep(later));
    Expire(cfg, t, nonce, uid);
  }

  /** A caller connects. */
  lemma AcceptConnects(cfg: Config, t: State, conn: nat, uid: u32)
    requires conn !in t.conns && |t.conns| < MAX_CONNECTIONS && uid in t.live.allowlist
    ensures Do(cfg, t, Accept(conn, uid)) == t.(conns := t.conns[conn := Conn(uid, Idle)])
  {
  }

  /** Two callers are connected and nothing else happened. */
  ghost predicate Connected(s: State, t: State, uid: u32) {
    && 1 in t.conns && 2 in t.conns && t.conns[1] == Conn(uid, Idle) && t.conns[2] == Conn(uid, Idle)
    && t.live == s.live && t.nonceLog == [] && t.nonces.pending == map[]
  }

  lemma {:induction false} Connect(cfg: Config, s: State, uid: u32) returns (run: seq<Step>)
    requires Init(s) && uid in s.live.allowlist
    ensures Connected(s, Exec(cfg, s, run), uid)
  {
    var none: seq<Step> := [];
    ExecSnoc(cfg, s, none, Accept(1, uid));
    AcceptConnects(cfg, s, 1, uid);
    var one := none + [Accept(1, uid)];
    OneMoreConn(s.conns, 1, Conn(uid, Idle));
    ExecSnoc(cfg, s, one, Accept(2, uid));
    AcceptConnects(cfg, Exec(cfg, s, one), 2, uid);
    run := one + [Accept(2, uid)];
  }

  lemma AnswerArrives(cfg: Config, t: State, conn: nat, phase: Phase, result: A.VerificationResult)
    requires phase.Waiting? && InPhase(t, conn, phase) && t.clock <= phase.due
    requires result.version == PROTOCOL_VERSION && result.id == phase.request.id && result.nonce == phase.request.nonce
    ensures var e := Evidence(phase.route, phase.request, result, phase.issue, phase.dispatched, |t.trace|, 0);
            var u := Do(cfg, t, Return(conn, Some(result), "", 0, 0));
            InPhase(u, conn, Spending(phase.job, e)) && SameStore(t, u) && u.clock == t.clock
  {
  }

  lemma NonceSpent(cfg: Config, t: State, conn: nat, job: Job, e: Evidence)
    requires InPhase(t, conn, Spending(job, e)) && N.ConsumeResult(t.nonces, e.request.nonce, job.uid, t.clock).Ok?
    ensures var u := Do(cfg, t, Spend(conn, 0));
            && InPhase(u, conn, Judging(job, e, |t.nonceLog|))
            && u.nonceLog == t.nonceLog + [N.Spent(e.request.nonce, job.uid, t.clock)]
  {
    SpendAppends(t, e.request.nonce, job.uid);
  }

  /** The last event is an Allow on basis `b`. */
  ghost predicate EndsAllowed(t: State, b: Basis) {
    && |t.trace| > 0 && t.trace[|t.trace| - 1].Responded?
    && t.trace[|t.trace| - 1].response.Allow? && t.trace[|t.trace| - 1].basis == Some(b)
  }

  lemma JudgedAllowed(cfg: Config, job: Job, e: Evidence, spend: nat)
    requires cfg.requireAttestation ==> A.Verify(cfg.crypto, cfg.keys, e.route.adapter, e.result).Ok?
    requires AsStr(e.result.authMethod) == e.route.name
    requires P.Evaluate(job.snapshot.engine, e.result, job.uid, 0) == P.Allow
    ensures Judge(cfg, job, e, spend, 0, 0).response.Allow?
    ensures Judge(cfg, job, e, spend, 0, 0).basis == Some(Basis(e, spend, 0))
  {
  }

  lemma JudgedNext(cfg: Config, t: State, conn: nat, job: Job, e: Evidence, spend: nat)
    requires InPhase(t, conn, Judging(job, e, spend))
    ensures var u := Do(cfg, t, Decide(conn, 0, 0));
            InPhase(u, conn, Auditing(job, Judge(cfg, job, e, spend, 0, 0))) && u.nonceLog == t.nonceLog
  {
    DecideMoves(cfg, t, conn, job, e, spend, 0, 0);
    HandlerSameStore(cfg, t, Decide(conn, 0, 0));
  }

  lemma Recorded(cfg: Config, t: State, conn: nat, job: Job, verdict: Verdict)
    requires InPhase(t, conn, Auditing(job, verdict)) && verdict.response.Allow? && verdict.basis.Some?
    ensures var u := Do(cfg, Do(cfg, t, WriteAudit(conn, L.Synced)), Respond(conn));
            EndsAllowed(u, verdict.basis.value) && u.nonceLog == t.nonceLog
  {
  }

  /** From a waiting request with a spendable nonce to its Allow. */
  lemma Finish(cfg: Config, s: State, run: seq<Step>, conn: nat, phase: Phase, result: A.VerificationResult)
    returns (more: seq<Step>, b: Basis)
    requires phase.Waiting? && InPhase(Exec(cfg, s, run), conn, phase) && Exec(cfg, s, run).clock <= phase.due
    requires result.version == PROTOCOL_VERSION && result.id == phase.request.id && result.nonce == phase.request.nonce
    requires var t := Exec(cfg, s, run); N.ConsumeResult(t.nonces, phase.request.nonce, phase.job.uid, t.clock).Ok?
    requires cfg.requireAttestation ==> A.Verify(cfg.crypto, cfg.keys, phase.route.adapter, result).Ok?
    requires AsStr(result.authMethod) == phase.route.name
    requires P.Evaluate(phase.job.snapshot.engine, result, phase.job.uid, 0) == P.Allow
    ensures var t, u := Exec(cfg, s, run), Exec(cfg, s, more);
            && EndsAllowed(u, b) && b.evidence.issue == phase.issue && b.spend == |t.nonceLog|
            && u.nonceLog == t.nonceLog + [N.Spent(phase.request.nonce, phase.job.uid, t.clock)]
  {
    var t := Exec(cfg, s, run);
    var e := Evidence(phase.route, phase.request, result, phase.issue, phase.dispatched, |t.trace|, 0);
    var back := run + [Return(conn, Some(result), "", 0, 0)];
    ExecSnoc(cfg, s, run, Return(conn, Some(result), "", 0, 0));
    AnswerArrives(cfg, t, conn, phase, result);
    var spent := back + [Spend(conn, 0)];
    ExecSnoc(cfg, s, back, Spend(conn, 0));
    NonceSpent(cfg, Exec(cfg, s, back), conn, phase.job, e);
    var decided := spent + [Decide(conn, 0, 0)];
    ExecSnoc(cfg, s, spent, Decide(conn, 0, 0));
    JudgedAllowed(cfg, phase.job, e, |t.nonceLog|);
    JudgedNext(cfg, Exec(cfg, s, spent), conn, phase.job, e, |t.nonceLog|);
    var written := decided + [WriteAudit(conn, L.Synced)];
    ExecSnoc(cfg, s, decided, WriteAudit(conn, L.Synced));
    more := written + [Respond(conn)];
    ExecSnoc(cfg, s, written, Respond(conn));
    Recorded(cfg, Exec(cfg, s, decided), conn, phase.job, Judge(cfg, phase.job, e, |t.nonceLog|, 0, 0));
    b := Basis(e, |t.nonceLog|, 0);
  }

  /** Connection 1 waits with an expired issue of a nonce that connection 2 was
      issued since. */
  ghost predicate Prepared(
    cfg: Config, s: State, t: State, uid: u32, name: string, nonce: N.Nonce, uuid: seq<byte>, phase: Phase, at: nat)
  {
    && InPhase(t, 1, phase) && phase.Waiting? && phase.issue == 0
    && phase.job.uid == uid && phase.job.snapshot == s.live
    && name in cfg.clients && phase.route == Route(name, cfg.clients[name].name, cfg.clients[name].timeoutMs)
    && phase.request.nonce == nonce && phase.request.id == uuid
    && phase.due == at + phase.route.timeoutMs * NANOS_PER_MS
    && t.clock == at + N.NONCE_TTL && nonce in t.nonces.pending && t.nonces.pending[nonce] == N.Pending(t.clock, uid)
    && t.nonceLog == [N.Issued(nonce, uid, at), N.Expelled({nonce}, at + N.NONCE_TTL),
                      N.Issued(nonce, uid, at + N.NONCE_TTL)]
  }

  /** Connection 1 waits, its issue expired, and connection 2 is idle. */
  ghost predicate Expired(
    cfg: Config, s: State, t: State, uid: u32, name: string, nonce: N.Nonce, uuid: seq<byte>, phase: Phase, at: nat)
  {
    && InPhase(t, 1, phase) && phase.Waiting? && phase.issue == 0
    && phase.job.uid == uid && phase.job.snapshot == s.live
    && name in cfg.clients && phase.route == Route(name, cfg.clients[name].name, cfg.clients[name].timeoutMs)
    && phase.request.nonce == nonce && phase.request.id == uuid
    && phase.due == at + phase.route.timeoutMs * NANOS_PER_MS
    && t.clock == at + N.NONCE_TTL && t.nonces.pending == map[] && t.live == s.live
    && t.nonceLog == [N.Issued(nonce, uid, at), N.Expelled({nonce}, at + N.NONCE_TTL)]
    && 2 in t.conns && t.conns[2] == Conn(uid, Idle)
  }

  lemma EnterAndExpire(cfg: Config, s: State, uid: u32, name: string, nonce: N.Nonce, uuid: seq<byte>)
    returns (run: seq<Step>, phase: Phase, at: nat)
    requires Init(s) && uid != 0 && uid in s.live.allowlist
    requires name != "any" && ValidateName(name, true).Ok? && name in cfg.clients
    ensures Expired(cfg, s, Exec(cfg, s, run), uid, name, nonce, uuid, phase, at)
  {
    var start := Connect(cfg, s, uid);
    at := Exec(cfg, s, start).clock;
    var first;
    first, phase := Enter(cfg, s, start, 1, uid, name, nonce, uuid);
    EnteredAlone(cfg, Exec(cfg, s, start), Exec(cfg, s, first), uid, name, nonce, uuid, phase);
    run := ExpireRun(cfg, s, first, nonce, uid);
    ExpiredHolds(cfg, s, Exec(cfg, s, start), Exec(cfg, s, first), Exec(cfg, s, run), uid, name, nonce, uuid, phase);
  }

  lemma EnteredAlone(
    cfg: Config, t: State, u: State, uid: u32, name: string, nonce: N.Nonce, uuid: seq<byte>, phase: Phase)
    requires Entered(cfg, t, u, 1, uid, name, nonce, uuid, phase) && t.nonces.pending == map[]
    ensures OnlyPending(u, nonce, uid)
  {
  }

  lemma ExpiredHolds(
    cfg: Config, s: State, t: State, u: State, v: State, uid: u32, name: string, nonce: N.Nonce, uuid: seq<byte>,
    phase: Phase)
    requires Connected(s, t, uid) && Entered(cfg, t, u, 1, uid, name, nonce, uuid, phase) && SweptFrom(u, v, nonce)
    ensures Expired(cfg, s, v, uid, name, nonce, uuid, phase, t.clock)
  {
  }

  lemma Prepare(cfg: Config, s: State, uid: u32, name: string, nonce: N.Nonce, uuid: seq<byte>, other: seq<byte>)
    returns (run: seq<Step>, phase: Phase, at: nat)
    requires Init(s) && uid != 0 && uid in s.live.allowlist
    requires name != "any" && ValidateName(name, true).Ok? && name in cfg.clients
    ensures Prepared(cfg, s, Exec(cfg, s, run), uid, name, nonce, uuid, phase, at)
  {
    var expired, phase2;
    expired, phase, at := EnterAndExpire(cfg, s, uid, name, nonce, uuid);
    run, phase2 := Enter(cfg, s, expired, 2, uid, name, nonce, other);
  }

  /** The run.  Connection 1 is issued a nonce and its adapter takes all the time its
      timeout allows, which is the TTL; the sweep takes the nonce; connection 2 of
      the same UID draws the same nonce; then the answer for connection 1 arrives,
      just in time, and its Allow spends the issue of connection 2. */
  lemma RedrawnAllow(
    cfg: Config, s: State, uid: u32, name: string, nonce: N.Nonce, uuid: seq<byte>, other: seq<byte>,
    result: A.VerificationResult)
    returns (steps: seq<Step>)
    requires Init(s) && uid != 0 && uid in s.live.allowlist
    requires name != "any" && ValidateName(name, true).Ok? && name in cfg.clients
    requires cfg.clients[name].timeoutMs == MAX_TIMEOUT_MS
    requires result.version == PROTOCOL_VERSION && result.id == uuid && result.nonce == nonce
    requires cfg.requireAttestation ==> A.Verify(cfg.crypto, cfg.keys, cfg.clients[name].name, result).Ok?
    requires AsStr(result.authMethod) == name && P.Evaluate(s.live.engine, result, uid, 0) == P.Allow
    ensures var t := Exec(cfg, s, steps);
            && |t.trace| > 0 && t.trace[|t.trace| - 1].Responded? && t.trace[|t.trace| - 1].response.Allow?
            && t.trace[|t.trace| - 1].basis.Some?
            && var b := t.trace[|t.trace| - 1].basis.value;
               && b.evidence.issue == 0 && b.spend == 3 && |t.nonceLog| == 4
               && N.SpendOf(t.nonceLog, 3, 2) && !N.SpendOf(t.nonceLog, 3, 0)
  {
    var run, phase, at := Prepare(cfg, s, uid, name, nonce, uuid, other);
    var b;
    steps, b := Finish(cfg, s, run, 1, phase, result);
    Unowned(Exec(cfg, s, steps).nonceLog, nonce, uid, at);
  }

  lemma Unowned(h: seq<N.Event>, nonce: N.Nonce, uid: u32, at: nat)
    requires h == [N.Issued(nonce, uid, at), N.Expelled({nonce}, at + N.NONCE_TTL),
                   N.Issued(nonce, uid, at + N.NONCE_TTL), N.Spent(nonce, uid, at + N.NONCE_TTL)]
    ensures N.SpendOf(h, 3, 2) && !N.SpendOf(h, 3, 0)
  {
    assert N.About(h[2], nonce);
  }
}
