/** Whose nonce is it?  A request in flight keeps its own issue alive for the whole
    TTL, whatever other connections, sweeps and reloads do meanwhile, unless another
    request that holds an issue of the very same nonce consumes it; so an answer in
    time is never mistaken for a replay, and an Allow spends the issue of its own
    request exactly when the nonce was not issued again in between. */
module Ownership {
  import opened Bytes
  import opened Server
  import opened Nonces
  import opened Safety
  import A = Attestation
  import N = NonceStore

  /** The nonce history, who consumed what, and the time. */
  datatype Ledger = Ledger(log: seq<N.Event>, consumer: map<nat, nat>, clock: nat)

  function LedgerOf(s: State): Ledger {
    Ledger(s.nonceLog, s.consumer, s.clock)
  }

  ghost predicate IsIssue(h: seq<N.Event>, i: nat) {
    i < |h| && h[i].Issued?
  }

  /** A sweep after issue `i` expelled its nonce. */
  ghost predicate SweptAfter(h: seq<N.Event>, i: nat)
    requires IsIssue(h, i)
  {
    exists k :: i < k < |h| && h[k].Expelled? && h[i].nonce in h[k].nonces
  }

  /** The nonce was issued again after issue `i`. */
  ghost predicate ReissuedAfter(h: seq<N.Event>, i: nat)
    requires IsIssue(h, i)
  {
    exists k :: i < k < |h| && h[k].Issued? && h[k].nonce == h[i].nonce
  }

  /** After issue `i` a request that held another issue of its nonce consumed it. */
  ghost predicate TakenAfter(l: Ledger, i: nat)
    requires IsIssue(l.log, i)
  {
    exists k :: i < k < |l.log| && TakenAt(l, i, k)
  }

  ghost predicate TakenAt(l: Ledger, i: nat, k: nat)
    requires IsIssue(l.log, i) && k < |l.log|
  {
    && (l.log[k].Spent? || l.log[k].Refused?) && l.log[k].nonce == l.log[i].nonce
    && k in l.consumer && l.consumer[k] != i
  }

  /** The issue whose nonce a handler still has to consume. */
  function HeldIssue(phase: Phase): Option<nat> {
    match phase
    case Waiting(_, _, _, issue, _, _) => Some(issue)
    case Abandoning(_, _, issue, _) => Some(issue)
    case Spending(_, evidence) => Some(evidence.issue)
    case _ => None
  }

  ghost predicate Outstanding(h: seq<N.Event>, i: nat)
    requires IsIssue(h, i)
  {
    N.OutstandingFrom(h, |h|, h[i].nonce, i)
  }

  /** Issue `i` is the last thing that happened to its nonce, or a sweep took it
      after its TTL, or another request that held an issue of the same nonce did. */
  ghost predicate Alive(l: Ledger, i: nat) {
    && IsIssue(l.log, i)
    && (Outstanding(l.log, i) || (SweptAfter(l.log, i) && l.clock >= l.log[i].at + N.NONCE_TTL) || TakenAfter(l, i))
  }

  ghost predicate HeldOk(l: Ledger, phase: Phase) {
    HeldIssue(phase).Some? ==>
      var i := HeldIssue(phase).value;
      && Alive(l, i) && HeldNonce(phase) == Some(l.log[i].nonce) && phase.job.uid == l.log[i].uid
      && (phase.Waiting? ==> phase.due == l.log[i].at + phase.route.timeoutMs * NANOS_PER_MS)
  }

  ghost predicate DistinctHolders(conns: map<nat, Conn>) {
    forall c, d :: c in conns && d in conns && c != d && HeldIssue(conns[c].phase).Some? ==>
      HeldIssue(conns[c].phase) != HeldIssue(conns[d].phase)
  }

  ghost predicate IssuesOk(s: State) {
    && (forall c :: c in s.conns ==> HeldOk(LedgerOf(s), s.conns[c].phase))
    && DistinctHolders(s.conns)
    && forall k :: k in s.consumer ==> k < |s.nonceLog|
  }

  // ------------------------------------------------------------- one more event

  /** `m` continues `l` by at most one event. */
  ghost predicate Continues(l: Ledger, m: Ledger) {
    && l.log <= m.log && |m.log| <= |l.log| + 1 && l.clock <= m.clock
    && forall k :: k in l.consumer ==> k in m.consumer && m.consumer[k] == l.consumer[k]
  }

  /** The newest event of `m`, if any, spares issue `i` of `l`. */
  ghost predicate Spares(l: Ledger, m: Ledger, i: nat)
    requires Continues(l, m)
  {
    IsIssue(l.log, i) && |m.log| == |l.log| + 1 && Outstanding(l.log, i) ==>
      !N.About(m.log[|l.log|], l.log[i].nonce) || TakenAfter(m, i)
  }

  lemma SweptStays(h: seq<N.Event>, g: seq<N.Event>, i: nat)
    requires h <= g && IsIssue(h, i) && SweptAfter(h, i)
    ensures SweptAfter(g, i)
  {
    var k :| i < k < |h| && h[k].Expelled? && h[i].nonce in h[k].nonces;
    assert g[k] == h[k];
  }

  lemma TakenStays(l: Ledger, m: Ledger, i: nat)
    requires Continues(l, m) && IsIssue(l.log, i) && TakenAfter(l, i)
    ensures TakenAfter(m, i)
  {
    var k :| i < k < |l.log| && TakenAt(l, i, k);
    assert m.log[k] == l.log[k];
    assert TakenAt(m, i, k);
  }

  lemma AliveStays(l: Ledger, m: Ledger, i: nat)
    requires Continues(l, m) && Alive(l, i) && Spares(l, m, i)
    ensures Alive(m, i)
  {
    if SweptAfter(l.log, i) {
      SweptStays(l.log, m.log, i);
    }
    if TakenAfter(l, i) {
      TakenStays(l, m, i);
    }
    N.LastAboutPrefix(l.log, m.log, |l.log|, l.log[i].nonce);
    assert |m.log| == |l.log| ==> m.log == l.log;
  }

  lemma HeldStaysOk(l: Ledger, m: Ledger, phase: Phase)
    requires Continues(l, m) && HeldOk(l, phase)
    requires HeldIssue(phase).Some? ==> Spares(l, m, HeldIssue(phase).value)
    ensures HeldOk(m, phase)
  {
    if HeldIssue(phase).Some? {
      AliveStays(l, m, HeldIssue(phase).value);
    }
  }

  /** `conn` moved; a new event spares what the others hold. */
  ghost predicate Undisturbed(s: State, t: State, conn: nat) {
    && OthersStay(s, t, conn) && Continues(LedgerOf(s), LedgerOf(t))
    && (forall k :: k in t.consumer ==> k < |t.nonceLog|)
    && forall d :: d in s.conns && d != conn && HeldIssue(s.conns[d].phase).Some? ==>
         Spares(LedgerOf(s), LedgerOf(t), HeldIssue(s.conns[d].phase).value)
  }

  lemma MoveKeepsIssues(s: State, t: State, conn: nat)
    requires IssuesOk(s) && Undisturbed(s, t, conn)
    requires conn in t.conns ==>
               && HeldOk(LedgerOf(t), t.conns[conn].phase)
               && (HeldIssue(t.conns[conn].phase).Some? ==>
                     || (conn in s.conns && HeldIssue(t.conns[conn].phase) == HeldIssue(s.conns[conn].phase))
                     || HeldIssue(t.conns[conn].phase).value >= |s.nonceLog|)
    ensures IssuesOk(t)
  {
    forall c | c in t.conns ensures HeldOk(LedgerOf(t), t.conns[c].phase) {
      if c != conn {
        assert HeldOk(LedgerOf(s), s.conns[c].phase);
        HeldStaysOk(LedgerOf(s), LedgerOf(t), s.conns[c].phase);
      }
    }
    forall c | c in s.conns && HeldIssue(s.conns[c].phase).Some?
      ensures HeldIssue(s.conns[c].phase).value < |s.nonceLog|
    {
      assert HeldOk(LedgerOf(s), s.conns[c].phase);
    }
  }

  // ------------------------------------------------------------- step by step

  /** Same history, same consumers. */
  ghost predicate SameLedger(s: State, t: State) {
    t.nonceLog == s.nonceLog && t.consumer == s.consumer && s.clock <= t.clock
  }

  ghost predicate KeepsHold(c: Conn, d: Conn) {
    HeldIssue(d.phase).Some? ==>
      && HeldIssue(d.phase) == HeldIssue(c.phase) && HeldNonce(d.phase) == HeldNonce(c.phase)
      && d.phase.job == c.phase.job && (d.phase.Waiting? ==> d == c)
  }

  /** A handler that keeps what it holds, or holds nothing. */
  lemma QuietIssues(s: State, t: State, conn: nat)
    requires IssuesOk(s) && OthersStay(s, t, conn) && SameLedger(s, t)
    requires conn in t.conns && HeldIssue(t.conns[conn].phase).Some? ==>
               conn in s.conns && KeepsHold(s.conns[conn], t.conns[conn])
    ensures IssuesOk(t)
  {
    if conn in t.conns && HeldIssue(t.conns[conn].phase).Some? {
      assert HeldOk(LedgerOf(s), s.conns[conn].phase);
      HeldStaysOk(LedgerOf(s), LedgerOf(t), s.conns[conn].phase);
    }
    MoveKeepsIssues(s, t, conn);
  }

  lemma NewIssueAlive(l: Ledger, e: N.Event)
    requires e.Issued?
    ensures Alive(l.(log := l.log + [e]), |l.log|)
  {
    N.LastAboutSnoc(l.log, e, e.nonce);
  }

  /** A fresh draw is about no outstanding issue. */
  lemma DrawSpares(s: State, t: State, e: N.Event, i: nat)
    requires N.Explains(s.nonceLog, s.nonces) && e.Issued? && e.nonce !in s.nonces.pending
    requires Continues(LedgerOf(s), LedgerOf(t)) && t.nonceLog == s.nonceLog + [e]
    ensures Spares(LedgerOf(s), LedgerOf(t), i)
  {
    if IsIssue(s.nonceLog, i) {
      assert N.ExplainsOne(s.nonceLog, s.nonces, s.nonceLog[i].nonce);
    }
  }

  lemma IssueKeepsIssues(s: State, conn: nat, draws: N.Draws, uuid: seq<byte>, nowMs: u64, tsMs: u64)
    requires IssuesOk(s) && StoreOk(s) && conn in s.conns && s.conns[conn].phase.Issuing?
    ensures IssuesOk(DoIssue(s, conn, draws, uuid, nowMs, tsMs))
  {
    var t := DoIssue(s, conn, draws, uuid, nowMs, tsMs);
    var uid := s.conns[conn].phase.job.uid;
    if N.GenerateResult(s.nonces, uid, draws).Err? {
      QuietIssues(s, t, conn);
    } else {
      var e := N.Issued(N.GenerateResult(s.nonces, uid, draws).value, uid, s.clock);
      N.FreshDraw(s.nonces.pending, draws, 0);
      assert t.nonceLog == s.nonceLog + [e];
      NewIssueAlive(LedgerOf(s), e);
      forall d | d in s.conns && d != conn && HeldIssue(s.conns[d].phase).Some?
        ensures Spares(LedgerOf(s), LedgerOf(t), HeldIssue(s.conns[d].phase).value)
      {
        DrawSpares(s, t, e, HeldIssue(s.conns[d].phase).value);
      }
      MoveKeepsIssues(s, t, conn);
    }
  }

  /** The consumer's own issue is another one, so this is a taking. */
  lemma ConsumeSpares(s: State, t: State, conn: nat, d: nat, nonce: N.Nonce, issue: nat)
    requires IssuesOk(s) && conn in s.conns && HeldIssue(s.conns[conn].phase) == Some(issue)
    requires d in s.conns && d != conn && HeldIssue(s.conns[d].phase).Some?
    requires Continues(LedgerOf(s), LedgerOf(t)) && |t.nonceLog| == |s.nonceLog| + 1
    requires var e := t.nonceLog[|s.nonceLog|]; (e.Spent? || e.Refused?) && e.nonce == nonce
    requires |s.nonceLog| in t.consumer && t.consumer[|s.nonceLog|] == issue
    ensures Spares(LedgerOf(s), LedgerOf(t), HeldIssue(s.conns[d].phase).value)
  {
    var i, k := HeldIssue(s.conns[d].phase).value, |s.nonceLog|;
    assert HeldOk(LedgerOf(s), s.conns[d].phase);
    if N.About(t.nonceLog[k], s.nonceLog[i].nonce) {
      assert TakenAt(LedgerOf(t), i, k);
    }
  }

  lemma ConsumeKeepsIssues(s: State, t: State, conn: nat, nonce: N.Nonce, uid: u32, issue: nat)
    requires IssuesOk(s) && conn in s.conns && HeldIssue(s.conns[conn].phase) == Some(issue)
    requires OthersStay(s, t, conn) && LedgerOf(t) == LedgerOf(Consumed(s, nonce, uid, issue))
    requires conn in t.conns && HeldIssue(t.conns[conn].phase).None?
    ensures IssuesOk(t)
  {
    if |t.nonceLog| == |s.nonceLog| + 1 {
      forall d | d in s.conns && d != conn && HeldIssue(s.conns[d].phase).Some?
        ensures Spares(LedgerOf(s), LedgerOf(t), HeldIssue(s.conns[d].phase).value)
      {
        ConsumeSpares(s, t, conn, d, nonce, issue);
      }
    }
    MoveKeepsIssues(s, t, conn);
  }

  lemma AbandonKeepsIssues(s: State, conn: nat)
    requires IssuesOk(s) && conn in s.conns && s.conns[conn].phase.Abandoning?
    ensures IssuesOk(DoAbandon(s, conn))
  {
    var phase := s.conns[conn].phase;
    ConsumeKeepsIssues(s, DoAbandon(s, conn), conn, phase.nonce, phase.job.uid, phase.issue);
  }

  lemma SpendLedger(s: State, conn: nat, tsMs: u64)
    requires conn in s.conns && s.conns[conn].phase.Spending?
    ensures var phase, t := s.conns[conn].phase, DoSpend(s, conn, tsMs);
            && LedgerOf(t) == LedgerOf(Consumed(s, phase.evidence.request.nonce, phase.job.uid, phase.evidence.issue))
            && OthersStay(s, t, conn) && conn in t.conns && HeldIssue(t.conns[conn].phase).None?
  {
  }

  lemma SpendKeepsIssues(s: State, conn: nat, tsMs: u64)
    requires IssuesOk(s) && conn in s.conns && s.conns[conn].phase.Spending?
    ensures IssuesOk(DoSpend(s, conn, tsMs))
  {
    var phase := s.conns[conn].phase;
    var e := phase.evidence;
    SpendLedger(s, conn, tsMs);
    ConsumeKeepsIssues(s, DoSpend(s, conn, tsMs), conn, e.request.nonce, phase.job.uid, e.issue);
  }

  /** A sweep expels a nonce only when its issue is out of time. */
  lemma SweptIsOver(s: State, now: nat, i: nat)
    requires N.Explains(s.nonceLog, s.nonces) && now <= s.clock && IsIssue(s.nonceLog, i) && Outstanding(s.nonceLog, i)
    requires s.nonceLog[i].nonce in N.Stale(s.nonces, now)
    ensures s.clock >= s.nonceLog[i].at + N.NONCE_TTL
  {
    assert N.ExplainsOne(s.nonceLog, s.nonces, s.nonceLog[i].nonce);
  }

  lemma ExpelledAlive(s: State, t: State, now: nat, i: nat)
    requires N.Explains(s.nonceLog, s.nonces) && now <= s.clock && IsIssue(s.nonceLog, i) && Outstanding(s.nonceLog, i)
    requires Continues(LedgerOf(s), LedgerOf(t)) && s.nonceLog[i].nonce in N.Stale(s.nonces, now)
    requires t.nonceLog == s.nonceLog + [N.Expelled(N.Stale(s.nonces, now), now)]
    ensures Alive(LedgerOf(t), i)
  {
    SweptIsOver(s, now, i);
    assert t.nonceLog[|s.nonceLog|] == N.Expelled(N.Stale(s.nonces, now), now);
    assert t.nonceLog[i] == s.nonceLog[i];
    assert SweptAfter(t.nonceLog, i);
  }

  lemma HeldThroughSweep(s: State, now: nat, phase: Phase)
    requires N.Explains(s.nonceLog, s.nonces) && now <= s.clock && HeldOk(LedgerOf(s), phase)
    ensures HeldOk(LedgerOf(NonceOp(s, N.DoSweep(now))), phase)
  {
    var t := NonceOp(s, N.DoSweep(now));
    if HeldIssue(phase).Some? {
      var i := HeldIssue(phase).value;
      if Outstanding(s.nonceLog, i) && s.nonceLog[i].nonce in N.Stale(s.nonces, now) {
        ExpelledAlive(s, t, now, i);
      } else {
        AliveStays(LedgerOf(s), LedgerOf(t), i);
      }
    }
  }

  lemma SweepKeepsIssues(s: State, now: nat)
    requires IssuesOk(s) && N.Explains(s.nonceLog, s.nonces) && now <= s.clock
    ensures IssuesOk(NonceOp(s, N.DoSweep(now)))
  {
    var t := NonceOp(s, N.DoSweep(now));
    forall c | c in t.conns ensures HeldOk(LedgerOf(t), t.conns[c].phase) {
      HeldThroughSweep(s, now, s.conns[c].phase);
    }
  }

  lemma BackgroundLedger(cfg: Config, s: State, step: Step)
    requires BackgroundStep(step) && !step.Sweep?
    ensures SameLedger(s, Do(cfg, s, step)) && Do(cfg, s, step).conns == s.conns
  {
  }

  lemma BackgroundKeepsIssues(s: State, t: State)
    requires IssuesOk(s) && SameLedger(s, t) && t.conns == s.conns
    ensures IssuesOk(t)
  {
    forall c | c in t.conns ensures HeldOk(LedgerOf(t), t.conns[c].phase) {
      HeldStaysOk(LedgerOf(s), LedgerOf(t), s.conns[c].phase);
    }
  }

  /** A local step of a handler, other than taking the answer, holds nothing after. */
  ghost predicate HoldsNothing(s: State, t: State, conn: nat) {
    && OthersStay(s, t, conn) && SameLedger(s, t)
    && (conn in t.conns && HeldIssue(t.conns[conn].phase).Some? ==> conn in s.conns && t.conns[conn] == s.conns[conn])
  }

  lemma DoorHoldsNothing(cfg: Config, s: State, step: Step)
    requires DoorStep(step)
    ensures HoldsNothing(s, Do(cfg, s, step), step.conn)
  {
  }

  lemma ReceiveHoldsNothing(cfg: Config, s: State, step: Step)
    requires step.Receive?
    ensures HoldsNothing(s, Do(cfg, s, step), step.conn)
  {
  }

  lemma ResolveHoldsNothing(cfg: Config, s: State, step: Step)
    requires step.Look? || step.Resolve?
    ensures HoldsNothing(s, Do(cfg, s, step), step.conn)
  {
  }

  lemma DecideHoldsNothing(cfg: Config, s: State, step: Step)
    requires step.Decide?
    ensures HoldsNothing(s, Do(cfg, s, step), step.conn)
  {
  }

  lemma AnswerHoldsNothing(cfg: Config, s: State, step: Step)
    requires step.WriteAudit? || step.Respond?
    ensures HoldsNothing(s, Do(cfg, s, step), step.conn)
  {
  }

  lemma ReturnKeepsIssues(
    s: State, conn: nat, answer: Option<A.VerificationResult>, reason: string, nowMs: u64, tsMs: u64)
    requires IssuesOk(s) && conn in s.conns && s.conns[conn].phase.Waiting?
    ensures IssuesOk(DoReturn(s, conn, answer, reason, nowMs, tsMs))
  {
    QuietIssues(s, DoReturn(s, conn, answer, reason, nowMs, tsMs), conn);
  }

  lemma IssueStepKeepsIssues(cfg: Config, s: State, step: Step)
    requires IssuesOk(s) && StoreOk(s) && step.Issue?
    ensures IssuesOk(Do(cfg, s, step))
  {
    if step.conn in s.conns && s.conns[step.conn].phase.Issuing? && |step.draws| == N.MAX_DRAWS {
      IssueKeepsIssues(s, step.conn, step.draws, step.uuid, step.nowMs, step.tsMs);
    }
  }

  lemma AbandonStepKeepsIssues(cfg: Config, s: State, step: Step)
    requires IssuesOk(s) && step.Abandon?
    ensures IssuesOk(Do(cfg, s, step))
  {
    if step.conn in s.conns && s.conns[step.conn].phase.Abandoning? {
      AbandonKeepsIssues(s, step.conn);
    }
  }

  lemma SpendStepKeepsIssues(cfg: Config, s: State, step: Step)
    requires IssuesOk(s) && step.Spend?
    ensures IssuesOk(Do(cfg, s, step))
  {
    if step.conn in s.conns && s.conns[step.conn].phase.Spending? {
      SpendKeepsIssues(s, step.conn, step.tsMs);
    }
  }

  lemma LocalHoldsNothing(cfg: Config, s: State, step: Step)
    requires (LocalStep(step) || DoorStep(step)) && !step.Return?
    ensures HoldsNothing(s, Do(cfg, s, step), step.conn)
  {
    if DoorStep(step) {
      DoorHoldsNothing(cfg, s, step);
    } else if step.Receive? {
      ReceiveHoldsNothing(cfg, s, step);
    } else if step.Look? || step.Resolve? {
      ResolveHoldsNothing(cfg, s, step);
    } else if step.Decide? {
      DecideHoldsNothing(cfg, s, step);
    } else {
      AnswerHoldsNothing(cfg, s, step);
    }
  }

  lemma StepKeepsIssues(cfg: Config, s: State, step: Step)
    requires IssuesOk(s) && StoreOk(s)
    ensures IssuesOk(Do(cfg, s, step))
  {
    if step.Issue? {
      IssueStepKeepsIssues(cfg, s, step);
    } else if step.Abandon? {
      AbandonStepKeepsIssues(cfg, s, step);
    } else if step.Spend? {
      SpendStepKeepsIssues(cfg, s, step);
    } else if step.Sweep? {
      if step.now <= s.clock {
        SweepKeepsIssues(s, step.now);
      }
    } else if BackgroundStep(step) {
      BackgroundLedger(cfg, s, step);
      BackgroundKeepsIssues(s, Do(cfg, s, step));
    } else if step.Return? {
      if step.conn in s.conns && s.conns[step.conn].phase.Waiting? {
        ReturnKeepsIssues(s, step.conn, step.answer, step.reason, step.nowMs, step.tsMs);
      }
    } else {
      LocalHoldsNothing(cfg, s, step);
      QuietIssues(s, Do(cfg, s, step), step.conn);
    }
  }

  /** In every reachable state each handler's own issue is alive, and no two
      handlers hold the same issue. */
  lemma {:induction false} IssuesAlwaysOk(cfg: Config, s: State, steps: seq<Step>)
    requires Init(s)
    ensures IssuesOk(Exec(cfg, s, steps))
  {
    if steps != [] {
      var front, step := steps[..|steps| - 1], steps[|steps| - 1];
      StoreAlwaysOk(cfg, s, front);
      IssuesAlwaysOk(cfg, s, front);
      StepKeepsIssues(cfg, Exec(cfg, s, front), step);
    }
  }

  // ------------------------------------------------------------- the theorems

  /** The TTL is not exceeded, and neither a sweep nor another request took it. */
  ghost predicate Spendable(l: Ledger, i: nat)
    requires IsIssue(l.log, i)
  {
    l.clock <= l.log[i].at + N.NONCE_TTL && !SweptAfter(l.log, i) && !TakenAfter(l, i)
  }

  lemma ConsumeOfAlive(l: Ledger, nonces: N.NonceState, i: nat)
    requires N.Explains(l.log, nonces) && Alive(l, i)
    ensures Spendable(l, i) ==> N.ConsumeResult(nonces, l.log[i].nonce, l.log[i].uid, l.clock).Ok?
    ensures !Spendable(l, i) && !ReissuedAfter(l.log, i) ==>
              N.ConsumeResult(nonces, l.log[i].nonce, l.log[i].uid, l.clock).Err?
    ensures N.ConsumeResult(nonces, l.log[i].nonce, l.log[i].uid, l.clock).Err? ==>
              l.clock >= l.log[i].at + N.NONCE_TTL || TakenAfter(l, i)
  {
    var nonce := l.log[i].nonce;
    assert N.ExplainsOne(l.log, nonces, nonce);
    var last := N.LastAbout(l.log, |l.log|, nonce);
    assert last.Some? && last.value >= i;
    if SweptAfter(l.log, i) {
      var k :| i < k < |l.log| && l.log[k].Expelled? && nonce in l.log[k].nonces;
      assert N.About(l.log[k], nonce);
    }
    if TakenAfter(l, i) {
      var k :| i < k < |l.log| && TakenAt(l, i, k);
      assert N.About(l.log[k], nonce);
    }
  }

  /** What a handler with phase `phase` finds when it consumes. */
  ghost predicate OutcomeOk(t: State, phase: Phase)
    requires phase.Spending?
  {
    var e := phase.evidence;
    var result := N.ConsumeResult(t.nonces, e.request.nonce, phase.job.uid, t.clock);
    && IsIssue(t.nonceLog, e.issue)
    && (Spendable(LedgerOf(t), e.issue) ==> result.Ok?)
    && (!Spendable(LedgerOf(t), e.issue) && !ReissuedAfter(t.nonceLog, e.issue) ==> result.Err?)
    && (SweptAfter(t.nonceLog, e.issue) && !TakenAfter(LedgerOf(t), e.issue) ==>
          t.clock >= t.nonceLog[e.issue].at + N.NONCE_TTL)
  }

  /** No spurious replay.  In every run, a handler about to spend its nonce succeeds
      while the TTL is not exceeded and neither a sweep nor another request that
      held an issue of this nonce took it, and otherwise fails unless the nonce was
      issued again since.  A sweep takes it only once the TTL is over. */
  lemma SpendOutcome(cfg: Config, s: State, steps: seq<Step>, conn: nat)
    requires Init(s)
    requires conn in Exec(cfg, s, steps).conns && Exec(cfg, s, steps).conns[conn].phase.Spending?
    ensures OutcomeOk(Exec(cfg, s, steps), Exec(cfg, s, steps).conns[conn].phase)
  {
    var t := Exec(cfg, s, steps);
    IssuesAlwaysOk(cfg, s, steps);
    StoreAlwaysOk(cfg, s, steps);
    assert HeldOk(LedgerOf(t), t.conns[conn].phase);
    var i := t.conns[conn].phase.evidence.issue;
    ConsumeOfAlive(LedgerOf(t), t.nonces, i);
    if SweptAfter(t.nonceLog, i) && !TakenAfter(LedgerOf(t), i) {
      SweptAlone(LedgerOf(t), i);
    }
  }

  lemma SweptAlone(l: Ledger, i: nat)
    requires Alive(l, i) && SweptAfter(l.log, i) && !TakenAfter(l, i)
    ensures l.clock >= l.log[i].at + N.NONCE_TTL
  {
    var k :| i < k < |l.log| && l.log[k].Expelled? && l.log[i].nonce in l.log[k].nonces;
    assert N.About(l.log[k], l.log[i].nonce);
  }

  /** An answer that the client accepts finds its own issue outstanding, for every
      adapter timeout below the TTL: the exchange was cut off before any sweep could
      take the nonce, so only another holder of the same nonce can have. */
  lemma AnswerFindsIssue(cfg: Config, s: State, steps: seq<Step>, conn: nat)
    requires Init(s) && conn in Exec(cfg, s, steps).conns && Exec(cfg, s, steps).conns[conn].phase.Waiting?
    requires var t := Exec(cfg, s, steps);
             t.clock <= t.conns[conn].phase.due && t.conns[conn].phase.route.timeoutMs * NANOS_PER_MS < N.NONCE_TTL
    ensures var t := Exec(cfg, s, steps);
            var i := t.conns[conn].phase.issue;
            && IsIssue(t.nonceLog, i) && t.clock < t.nonceLog[i].at + N.NONCE_TTL
            && (Outstanding(t.nonceLog, i) || TakenAfter(LedgerOf(t), i))
  {
    var t := Exec(cfg, s, steps);
    IssuesAlwaysOk(cfg, s, steps);
    assert HeldOk(LedgerOf(t), t.conns[conn].phase);
  }

  /** The nonce of issue `i` is issued again before event `j`. */
  ghost predicate ReissuedBetween(h: seq<N.Event>, i: nat, j: nat)
    requires IsIssue(h, i) && i < j < |h|
  {
    exists m :: i < m < j && h[m].Issued? && h[m].nonce == h[i].nonce
  }

  lemma SpendsOwnIff(h: seq<N.Event>, i: nat, j: nat, issue: nat)
    requires IsIssue(h, i) && i < j < |h| && N.SpendOf(h, j, issue) && h[i].nonce == h[j].nonce
    ensures issue == i <==> !ReissuedBetween(h, i, j)
  {
    assert N.About(h[i], h[j].nonce);
  }

  /** Every Allow of every run spent the issue that its own request dispatched,
      exactly unless that nonce was issued again between the two. */
  lemma AllowSpendsOwnIssue(cfg: Config, s: State, steps: seq<Step>, k: nat)
    requires Init(s) && k < |Exec(cfg, s, steps).trace|
    requires Exec(cfg, s, steps).trace[k].Responded? && Exec(cfg, s, steps).trace[k].response.Allow?
    ensures var t := Exec(cfg, s, steps);
            && t.trace[k].basis.Some?
            && var b := t.trace[k].basis.value;
               && t.trace[k].job.received < b.evidence.dispatched < k
               && t.trace[b.evidence.dispatched] == Dispatched(t.trace[k].conn, b.evidence.request, b.evidence.issue)
               && b.evidence.issue < b.spend < |t.nonceLog| && t.nonceLog[b.evidence.issue].Issued?
               && (N.SpendOf(t.nonceLog, b.spend, b.evidence.issue) <==>
                   !ReissuedBetween(t.nonceLog, b.evidence.issue, b.spend))
  {
    var t := Exec(cfg, s, steps);
    var b, issue := AllowSafety(cfg, s, steps, k);
    SpendsOwnIff(t.nonceLog, b.evidence.issue, b.spend, issue);
  }
}
