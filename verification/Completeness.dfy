/** An honest, timely answer that policy accepts leads to Allow, whatever other
    connections, sweeps, reloads and log reopens do between the steps of the
    request. */
module Completeness {
  import opened Bytes
  import opened Methods
  import opened Server
  import opened Nonces
  import opened Ownership
  import A = Attestation
  import L = Logger
  import N = NonceStore
  import P = Policy

  // ------------------------------------------------------ the checks, exactly

  /** Exactly which evidence is allowed. */
  lemma JudgeAllowsIff(cfg: Config, job: Job, e: Evidence, spend: nat, nowMs: u64, tsMs: u64)
    ensures Judge(cfg, job, e, spend, nowMs, tsMs).response == Allow(job.id, e.route.name) <==>
            && (cfg.requireAttestation ==> A.Verify(cfg.crypto, cfg.keys, e.route.adapter, e.result).Ok?)
            && AsStr(e.result.authMethod) == e.route.name
            && P.Evaluate(job.snapshot.engine, e.result, job.uid, nowMs) == P.Allow
  {
  }

  // --------------------------------------------- other steps leave a handler be

  /** The step belongs to no connection or to another one. */
  predicate Elsewhere(step: Step, conn: nat) {
    BackgroundStep(step) || step.conn != conn
  }

  ghost predicate AllElsewhere(steps: seq<Step>, conn: nat) {
    forall i :: 0 <= i < |steps| ==> Elsewhere(steps[i], conn)
  }

  ghost predicate InPhase(t: State, conn: nat, phase: Phase) {
    conn in t.conns && t.conns[conn].phase == phase
  }

  /** After the run, connection `conn` is in phase `phase`. */
  ghost predicate Reaches(cfg: Config, s: State, run: seq<Step>, conn: nat, phase: Phase) {
    InPhase(Exec(cfg, s, run), conn, phase)
  }

  ghost predicate Unmoved(t: State, u: State, conn: nat) {
    conn in t.conns && conn in u.conns && u.conns[conn] == t.conns[conn]
  }

  lemma BackgroundUnmoved(cfg: Config, t: State, step: Step, conn: nat)
    requires Elsewhere(step, conn) && conn in t.conns
    requires BackgroundStep(step) || DoorStep(step)
    ensures Unmoved(t, Do(cfg, t, step), conn)
  {
  }

  lemma NonceStepUnmoved(cfg: Config, t: State, step: Step, conn: nat)
    requires Elsewhere(step, conn) && conn in t.conns && NonceStep(step)
    ensures Unmoved(t, Do(cfg, t, step), conn)
  {
  }

  lemma EarlyStepUnmoved(cfg: Config, t: State, step: Step, conn: nat)
    requires Elsewhere(step, conn) && conn in t.conns && (step.Receive? || step.Look? || step.Resolve?)
    ensures Unmoved(t, Do(cfg, t, step), conn)
  {
  }

  lemma LateStepUnmoved(cfg: Config, t: State, step: Step, conn: nat)
    requires Elsewhere(step, conn) && conn in t.conns
    requires step.Return? || step.Decide? || step.WriteAudit? || step.Respond?
    ensures Unmoved(t, Do(cfg, t, step), conn)
  {
  }

  lemma ElsewhereKeeps(cfg: Config, t: State, step: Step, conn: nat)
    requires Elsewhere(step, conn) && conn in t.conns
    ensures Unmoved(t, Do(cfg, t, step), conn)
  {
    if NonceStep(step) {
      NonceStepUnmoved(cfg, t, step, conn);
    } else if step.Receive? || step.Look? || step.Resolve? {
      EarlyStepUnmoved(cfg, t, step, conn);
    } else if LocalStep(step) {
      LateStepUnmoved(cfg, t, step, conn);
    } else {
      BackgroundUnmoved(cfg, t, step, conn);
    }
  }

  lemma ExecSnoc(cfg: Config, s: State, run: seq<Step>, step: Step)
    ensures Exec(cfg, s, run + [step]) == Do(cfg, Exec(cfg, s, run), step)
  {
    assert (run + [step])[..|run|] == run;
  }

  lemma {:induction false} ElsewhereRun(cfg: Config, s: State, run: seq<Step>, more: seq<Step>, conn: nat, phase: Phase)
    requires Reaches(cfg, s, run, conn, phase) && AllElsewhere(more, conn)
    ensures Reaches(cfg, s, run + more, conn, phase)
    decreases |more|
  {
    if more == [] {
      assert run + more == run;
    } else {
      var front, step := more[..|more| - 1], more[|more| - 1];
      ElsewhereRun(cfg, s, run, front, conn, phase);
      assert run + more == (run + front) + [step];
      ExecSnoc(cfg, s, run + front, step);
      ElsewhereKeeps(cfg, Exec(cfg, s, run + front), step, conn);
    }
  }

  // --------------------------------------------------- the steps of one request

  ghost predicate MovesTo(cfg: Config, t: State, step: Step, conn: nat, phase: Phase) {
    InPhase(Do(cfg, t, step), conn, phase)
  }

  /** One own step, then steps of others. */
  lemma StepThen(cfg: Config, s: State, run: seq<Step>, step: Step, more: seq<Step>, conn: nat, phase: Phase)
    requires MovesTo(cfg, Exec(cfg, s, run), step, conn, phase) && AllElsewhere(more, conn)
    ensures Reaches(cfg, s, run + [step] + more, conn, phase)
  {
    ExecSnoc(cfg, s, run, step);
    ElsewhereRun(cfg, s, run + [step], more, conn, phase);
  }

  lemma ReturnMoves(
    cfg: Config, t: State, conn: nat, phase: Phase,
    answer: Option<A.VerificationResult>, reason: string, nowMs: u64, tsMs: u64)
    requires phase.Waiting? && InPhase(t, conn, phase)
    ensures MovesTo(cfg, t, Return(conn, answer, reason, nowMs, tsMs), conn,
                    AfterAnswer(phase, |t.trace|, Got(phase, t.clock, answer), reason, nowMs, tsMs))
  {
  }

  lemma SpendMoves(cfg: Config, t: State, conn: nat, job: Job, e: Evidence, tsMs: u64)
    requires InPhase(t, conn, Spending(job, e)) && N.ConsumeResult(t.nonces, e.request.nonce, job.uid, t.clock).Ok?
    ensures MovesTo(cfg, t, Spend(conn, tsMs), conn, Judging(job, e, |t.nonceLog|))
  {
  }

  lemma DecideMoves(cfg: Config, t: State, conn: nat, job: Job, e: Evidence, spend: nat, nowMs: u64, tsMs: u64)
    requires InPhase(t, conn, Judging(job, e, spend))
    ensures MovesTo(cfg, t, Decide(conn, nowMs, tsMs), conn, Auditing(job, Judge(cfg, job, e, spend, nowMs, tsMs)))
  {
    Decided(cfg, t, conn, job, e, spend, nowMs, tsMs);
    DoesDecide(cfg, t, conn, nowMs, tsMs);
  }

  lemma DoesDecide(cfg: Config, t: State, conn: nat, nowMs: u64, tsMs: u64)
    requires conn in t.conns && t.conns[conn].phase.Judging?
    ensures Do(cfg, t, Decide(conn, nowMs, tsMs)) == DoDecide(cfg, t, conn, nowMs, tsMs)
  {
  }

  lemma Decided(cfg: Config, t: State, conn: nat, job: Job, e: Evidence, spend: nat, nowMs: u64, tsMs: u64)
    requires InPhase(t, conn, Judging(job, e, spend))
    ensures InPhase(DoDecide(cfg, t, conn, nowMs, tsMs), conn, Auditing(job, Judge(cfg, job, e, spend, nowMs, tsMs)))
  {
  }

  lemma WriteMoves(cfg: Config, t: State, conn: nat, job: Job, verdict: Verdict, io: L.WriteOutcome)
    requires InPhase(t, conn, Auditing(job, verdict))
    ensures MovesTo(cfg, t, WriteAudit(conn, io), conn, Answering(job, verdict, |t.trace|, io.Synced?))
  {
  }

  /** The run ends by answering `job` with `response`. */
  ghost predicate Answers(cfg: Config, s: State, run: seq<Step>, conn: nat, job: Job, response: Response) {
    var trace := Exec(cfg, s, run).trace;
    && |trace| > 0 && trace[|trace| - 1].Responded?
    && trace[|trace| - 1].conn == conn && trace[|trace| - 1].job == job && trace[|trace| - 1].response == response
  }

  lemma RespondLast(cfg: Config, s: State, run: seq<Step>, conn: nat, job: Job, verdict: Verdict, logged: nat)
    requires Reaches(cfg, s, run, conn, Answering(job, verdict, logged, true))
    ensures Answers(cfg, s, run + [Respond(conn)], conn, job, verdict.response)
  {
    ExecSnoc(cfg, s, run, Respond(conn));
  }

  /** From spendable evidence to the answer. */
  lemma EvidenceAllowed(
    cfg: Config, s: State, run: seq<Step>, conn: nat, job: Job, e: Evidence, judgeMs: u64, tsMs: u64,
    b: seq<Step>, c: seq<Step>, d: seq<Step>)
    requires Reaches(cfg, s, run, conn, Spending(job, e))
    requires N.ConsumeResult(Exec(cfg, s, run).nonces, e.request.nonce, job.uid, Exec(cfg, s, run).clock).Ok?
    requires A.Verify(cfg.crypto, cfg.keys, e.route.adapter, e.result).Ok? && AsStr(e.result.authMethod) == e.route.name
    requires P.Evaluate(job.snapshot.engine, e.result, job.uid, judgeMs) == P.Allow
    requires AllElsewhere(b, conn) && AllElsewhere(c, conn) && AllElsewhere(d, conn)
    ensures Answers(cfg, s,
                    run + [Spend(conn, tsMs)] + b + [Decide(conn, judgeMs, tsMs)] + c
                      + [WriteAudit(conn, L.Synced)] + d + [Respond(conn)],
                    conn, job, Allow(job.id, e.route.name))
  {
    var spend := |Exec(cfg, s, run).nonceLog|;
    var spent := run + [Spend(conn, tsMs)] + b;
    var decided := spent + [Decide(conn, judgeMs, tsMs)] + c;
    var verdict := Judge(cfg, job, e, spend, judgeMs, tsMs);
    JudgeAllowsIff(cfg, job, e, spend, judgeMs, tsMs);
    SpendMoves(cfg, Exec(cfg, s, run), conn, job, e, tsMs);
    StepThen(cfg, s, run, Spend(conn, tsMs), b, conn, Judging(job, e, spend));
    DecideMoves(cfg, Exec(cfg, s, spent), conn, job, e, spend, judgeMs, tsMs);
    StepThen(cfg, s, spent, Decide(conn, judgeMs, tsMs), c, conn, Auditing(job, verdict));
    WriteMoves(cfg, Exec(cfg, s, decided), conn, job, verdict, L.Synced);
    StepThen(cfg, s, decided, WriteAudit(conn, L.Synced), d, conn,
             Answering(job, verdict, |Exec(cfg, s, decided).trace|, true));
    RespondLast(cfg, s, decided + [WriteAudit(conn, L.Synced)] + d, conn, job, verdict, |Exec(cfg, s, decided).trace|);
  }

  /** What the daemon receives from an adapter that signs with the configured key. */
  function Signed(cfg: Config, phase: Phase, confidence: F32, signedMs: u64): Result<A.VerificationResult, A.WireError>
    requires phase.Waiting? && phase.route.adapter in cfg.keys
  {
    A.Receive(A.AdapterResult(cfg.crypto, cfg.keys[phase.route.adapter], phase.route.name, confidence,
      phase.request, signedMs))
  }

  /** Completeness.  Let a request wait for its adapter.  If the adapter signs its
      answer with the configured key, the answer is back before both deadlines and
      its nonce still spendable, policy accepts the result and the record is
      written, then the request is allowed, whatever steps of others (`a` to `d`)
      fall between its own. */
  lemma HonestAnswerAllowed(
    cfg: Config, s: State, run: seq<Step>, conn: nat, phase: Phase, confidence: F32, signedMs: u64,
    result: A.VerificationResult, returnMs: u64, judgeMs: u64, tsMs: u64,
    back: seq<Step>, a: seq<Step>, b: seq<Step>, c: seq<Step>, d: seq<Step>)
    requires Init(s) && phase.Waiting? && Reaches(cfg, s, run, conn, phase)
    requires phase.route.adapter in cfg.keys && Signed(cfg, phase, confidence, signedMs) == Ok(result)
    requires Exec(cfg, s, run).clock <= phase.due && returnMs <= phase.request.deadlineMs
    requires back == run + [Return(conn, Some(result), "", returnMs, tsMs)] + a
    requires var t := Exec(cfg, s, back); IsIssue(t.nonceLog, phase.issue) && Spendable(LedgerOf(t), phase.issue)
    requires P.Evaluate(phase.job.snapshot.engine, result, phase.job.uid, judgeMs) == P.Allow
    requires AllElsewhere(a, conn) && AllElsewhere(b, conn) && AllElsewhere(c, conn) && AllElsewhere(d, conn)
    ensures Answers(cfg, s,
                    back + [Spend(conn, tsMs)] + b + [Decide(conn, judgeMs, tsMs)] + c
                      + [WriteAudit(conn, L.Synced)] + d + [Respond(conn)],
                    conn, phase.job, Allow(phase.job.id, phase.route.name))
  {
    A.SignedResultVerifies(cfg.crypto, cfg.keys, phase.route.adapter, phase.route.name, confidence,
      phase.request, signedMs);
    var next := AfterAnswer(phase, |Exec(cfg, s, run).trace|, Some(result), "", returnMs, tsMs);
    ReturnMoves(cfg, Exec(cfg, s, run), conn, phase, Some(result), "", returnMs, tsMs);
    StepThen(cfg, s, run, Return(conn, Some(result), "", returnMs, tsMs), a, conn, next);
    SpendOutcome(cfg, s, back, conn);
    EvidenceAllowed(cfg, s, back, conn, phase.job, next.evidence, judgeMs, tsMs, b, c, d);
  }
}
