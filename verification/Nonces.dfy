/** Nonces inside the running server: the store's invariants hold in every
    reachable state, and no nonce outlives the request that holds it. */
module Nonces {
  import opened Bytes
  import opened Server
  import A = Attestation
  import N = NonceStore

  // -------------------------------------------------------- the store in a run

  /** Sweeps may use an instant read before the lock; all other events carry the
      clock of their step. */
  predicate Timed(e: N.Event) {
    !e.Expelled?
  }

  ghost predicate TimesOrdered(h: seq<N.Event>, clock: nat) {
    && (forall i :: 0 <= i < |h| && Timed(h[i]) ==> h[i].at <= clock)
    && (forall i, j :: 0 <= i < j < |h| && Timed(h[i]) && Timed(h[j]) ==> h[i].at <= h[j].at)
  }

  ghost predicate StoreOk(s: State) {
    && N.Valid(s.nonces)
    && N.Explains(s.nonceLog, s.nonces)
    && N.AllJustified(s.nonceLog)
    && TimesOrdered(s.nonceLog, s.clock)
    && forall j :: j in s.spender ==> j < |s.nonceLog|
  }

  predicate OnTime(op: N.Op, clock: nat) {
    op.DoSweep? || op.now == clock
  }

  lemma TimesExtend(h: seq<N.Event>, clock: nat, nonces: N.NonceState, op: N.Op)
    requires TimesOrdered(h, clock) && OnTime(op, clock)
    ensures TimesOrdered(h + N.EventOf(nonces, op), clock)
  {
  }

  lemma NonceOpKeepsStore(s: State, op: N.Op)
    requires StoreOk(s) && OnTime(op, s.clock)
    ensures StoreOk(NonceOp(s, op))
  {
    N.StepKeepsValid(s.nonces, op);
    N.StepExplains(s.nonceLog, s.nonces, op);
    N.StepAllJustified(s.nonceLog, s.nonces, op);
    TimesExtend(s.nonceLog, s.clock, s.nonces, op);
  }

  /** A successful consume appends exactly one spend. */
  lemma SpendAppends(s: State, nonce: N.Nonce, uid: u32)
    requires N.ConsumeResult(s.nonces, nonce, uid, s.clock).Ok?
    ensures N.EventOf(s.nonces, N.DoConsume(nonce, uid, s.clock)) == [N.Spent(nonce, uid, s.clock)]
  {
  }

  ghost predicate SameStore(s: State, t: State) {
    t.nonces == s.nonces && t.nonceLog == s.nonceLog && t.spender == s.spender && t.clock >= s.clock
  }

  lemma SameStoreOk(s: State, t: State)
    requires StoreOk(s) && SameStore(s, t)
    ensures StoreOk(t)
  {
  }

  lemma IssueKeepsStore(s: State, conn: nat, draws: N.Draws, uuid: seq<byte>, nowMs: u64, tsMs: u64)
    requires StoreOk(s) && conn in s.conns && s.conns[conn].phase.Issuing?
    ensures StoreOk(DoIssue(s, conn, draws, uuid, nowMs, tsMs))
  {
    var uid := s.conns[conn].phase.job.uid;
    var op := N.DoGenerate(uid, draws, s.clock);
    NonceOpKeepsStore(s, op);
    var t := DoIssue(s, conn, draws, uuid, nowMs, tsMs);
    if N.GenerateResult(s.nonces, uid, draws).Ok? {
      SameStoreOk(NonceOp(s, op), t);
    } else {
      SameStoreOk(s, t);
    }
  }

  lemma SpendKeepsStore(s: State, conn: nat, tsMs: u64)
    requires StoreOk(s) && conn in s.conns && s.conns[conn].phase.Spending?
    ensures StoreOk(DoSpend(s, conn, tsMs))
  {
    var job, e := s.conns[conn].phase.job, s.conns[conn].phase.evidence;
    var op := N.DoConsume(e.request.nonce, job.uid, s.clock);
    NonceOpKeepsStore(s, op);
    if N.ConsumeResult(s.nonces, e.request.nonce, job.uid, s.clock).Ok? {
      SpendAppends(s, e.request.nonce, job.uid);
    }
  }

  lemma BackgroundSameStore(cfg: Config, s: State, step: Step)
    requires BackgroundStep(step) && !step.Sweep?
    ensures SameStore(s, Do(cfg, s, step))
  {
  }

  lemma DoorSameStore(cfg: Config, s: State, step: Step)
    requires DoorStep(step)
    ensures SameStore(s, Do(cfg, s, step))
  {
  }

  lemma EarlySameStore(cfg: Config, s: State, step: Step)
    requires step.Receive? || step.Look? || step.Resolve?
    ensures SameStore(s, Do(cfg, s, step))
  {
  }

  lemma LateSameStore(cfg: Config, s: State, step: Step)
    requires step.Return? || step.Decide? || step.WriteAudit? || step.Respond?
    ensures SameStore(s, Do(cfg, s, step))
  {
  }

  lemma HandlerSameStore(cfg: Config, s: State, step: Step)
    requires LocalStep(step)
    ensures SameStore(s, Do(cfg, s, step))
  {
    if step.Receive? || step.Look? || step.Resolve? {
      EarlySameStore(cfg, s, step);
    } else {
      LateSameStore(cfg, s, step);
    }
  }

  lemma StepKeepsStore(cfg: Config, s: State, step: Step)
    requires StoreOk(s)
    ensures StoreOk(Do(cfg, s, step))
  {
    var t := Do(cfg, s, step);
    match step
    case Sweep(now) =>
      if now <= s.clock {
        NonceOpKeepsStore(s, N.DoSweep(now));
      }
    case Issue(conn, draws, uuid, nowMs, tsMs) =>
      if conn in s.conns && s.conns[conn].phase.Issuing? && |draws| == N.MAX_DRAWS {
        IssueKeepsStore(s, conn, draws, uuid, nowMs, tsMs);
      }
    case Abandon(conn) =>
      if conn in s.conns && s.conns[conn].phase.Abandoning? {
        var op := N.DoConsume(s.conns[conn].phase.nonce, s.conns[conn].phase.job.uid, s.clock);
        NonceOpKeepsStore(s, op);
        SameStoreOk(NonceOp(s, op), t);
      }
    case Spend(conn, tsMs) =>
      if conn in s.conns && s.conns[conn].phase.Spending? {
        SpendKeepsStore(s, conn, tsMs);
      }
    case _ =>
      if BackgroundStep(step) {
        BackgroundSameStore(cfg, s, step);
      } else if DoorStep(step) {
        DoorSameStore(cfg, s, step);
      } else {
        HandlerSameStore(cfg, s, step);
      }
      SameStoreOk(s, t);
  }

  lemma {:induction false} StoreAlwaysOk(cfg: Config, s: State, steps: seq<Step>)
    requires Init(s)
    ensures StoreOk(Exec(cfg, s, steps))
  {
    if steps == [] {
      N.EmptyExplains();
    } else {
      StoreAlwaysOk(cfg, s, steps[..|steps| - 1]);
      StepKeepsStore(cfg, Exec(cfg, s, steps[..|steps| - 1]), steps[|steps| - 1]);
    }
  }

  /** A spend in the log of a run ended an issue to the same UID, no more than the
      TTL before it. */
  lemma SpendWithinTtl(h: seq<N.Event>, clock: nat, j: nat) returns (i: nat)
    requires N.AllJustified(h) && TimesOrdered(h, clock) && j < |h| && h[j].Spent?
    ensures N.SpendOf(h, j, i)
    ensures h[i].Issued? && h[i].nonce == h[j].nonce && h[i].uid == h[j].uid
    ensures h[i].at <= h[j].at <= h[i].at + N.NONCE_TTL
  {
    assert N.Justified(h, j);
    i :| N.SpendOf(h, j, i);
  }

  // ------------------------------------------------------------ nothing leaks

  /** The nonce a handler still has to consume. */
  function HeldNonce(phase: Phase): Option<N.Nonce> {
    match phase
    case Waiting(_, _, request, _, _, _) => Some(request.nonce)
    case Abandoning(_, nonce, _, _) => Some(nonce)
    case Spending(_, evidence) => Some(evidence.request.nonce)
    case _ => None
  }

  ghost predicate HeldBy(s: State, n: N.Nonce, conn: nat) {
    conn in s.conns && HeldNonce(s.conns[conn].phase) == Some(n)
  }

  /** Every pending nonce belongs to a request in flight. */
  ghost predicate NoLeak(s: State) {
    && |s.conns| <= MAX_CONNECTIONS
    && forall n :: n in s.nonces.pending ==> exists conn :: HeldBy(s, n, conn)
  }

  /** Only `conn` moved. */
  ghost predicate OthersStay(s: State, t: State, conn: nat) {
    forall d :: d != conn ==> (d in s.conns <==> d in t.conns) && (d in s.conns ==> s.conns[d] == t.conns[d])
  }

  lemma HeldStays(s: State, t: State, conn: nat)
    requires NoLeak(s) && OthersStay(s, t, conn) && |t.conns| <= MAX_CONNECTIONS
    requires forall n :: n in t.nonces.pending ==>
               HeldBy(t, n, conn) || (n in s.nonces.pending && !HeldBy(s, n, conn))
    ensures NoLeak(t)
  {
    forall n | n in t.nonces.pending ensures exists d :: HeldBy(t, n, d) {
      if !HeldBy(t, n, conn) {
        var d :| HeldBy(s, n, d);
        assert HeldBy(t, n, d);
      }
    }
  }

  lemma SetPhaseSize(s: State, conn: nat, phase: Phase)
    requires conn in s.conns
    ensures |SetPhase(s, conn, phase).conns| == |s.conns|
    ensures OthersStay(s, SetPhase(s, conn, phase), conn)
  {
    assert SetPhase(s, conn, phase).conns.Keys == s.conns.Keys;
    assert |SetPhase(s, conn, phase).conns.Keys| == |s.conns.Keys|;
  }

  lemma RemoveSize(s: State, conn: nat)
    ensures |s.conns - {conn}| <= |s.conns|
  {
    assert (s.conns - {conn}).Keys == s.conns.Keys - {conn};
    assert |s.conns.Keys - {conn}| <= |s.conns.Keys|;
  }

  lemma AcceptNoLeak(s: State, conn: nat, caller: u32)
    requires NoLeak(s)
    ensures NoLeak(DoAccept(s, conn, caller))
  {
    var t := DoAccept(s, conn, caller);
    if conn !in s.conns {
      OneMoreConn(s.conns, conn, Conn(caller, Idle));
      HeldStays(s, t, conn);
    }
  }

  lemma OneMoreConn(conns: map<nat, Conn>, conn: nat, c: Conn)
    requires conn !in conns
    ensures |conns[conn := c]| == |conns| + 1
  {
    assert conns[conn := c].Keys == conns.Keys + {conn};
    assert |conns.Keys + {conn}| == |conns.Keys| + 1;
  }

  lemma CloseNoLeak(s: State, conn: nat)
    requires NoLeak(s) && conn in s.conns && s.conns[conn].phase.Idle?
    ensures NoLeak(s.(conns := s.conns - {conn}))
  {
    RemoveSize(s, conn);
    HeldStays(s, s.(conns := s.conns - {conn}), conn);
  }

  lemma IssueNoLeak(s: State, conn: nat, draws: N.Draws, uuid: seq<byte>, nowMs: u64, tsMs: u64)
    requires NoLeak(s) && conn in s.conns && s.conns[conn].phase.Issuing?
    ensures NoLeak(DoIssue(s, conn, draws, uuid, nowMs, tsMs))
  {
    var t := DoIssue(s, conn, draws, uuid, nowMs, tsMs);
    SetPhaseSize(s, conn, t.conns[conn].phase);
    HeldStays(s, t, conn);
  }

  /** Leaving the holding phases always goes through a consume. */
  lemma ConsumeNoLeak(s: State, t: State, conn: nat, n: N.Nonce)
    requires NoLeak(s) && HeldBy(s, n, conn) && OthersStay(s, t, conn) && |t.conns| == |s.conns|
    requires t.nonces.pending == s.nonces.pending - {n}
    ensures NoLeak(t)
  {
    HeldStays(s, t, conn);
  }

  /** Steps that neither issue nor consume keep what the handler holds. */
  lemma ResolvingNoLeak(cfg: Config, s: State, step: Step)
    requires NoLeak(s) && (step.Look? || step.Resolve?)
    ensures NoLeak(Do(cfg, s, step))
  {
    QuietStepNoLeak(s, Do(cfg, s, step), step.conn);
  }

  lemma DecidingNoLeak(cfg: Config, s: State, step: Step)
    requires NoLeak(s) && step.Decide?
    ensures NoLeak(Do(cfg, s, step))
  {
    QuietStepNoLeak(s, Do(cfg, s, step), step.conn);
  }

  lemma AnsweringNoLeak(cfg: Config, s: State, step: Step)
    requires NoLeak(s) && (step.WriteAudit? || step.Respond?)
    ensures NoLeak(Do(cfg, s, step))
  {
    QuietStepNoLeak(s, Do(cfg, s, step), step.conn);
  }

  lemma ReturnNoLeak(s: State, conn: nat, answer: Option<A.VerificationResult>, reason: string, nowMs: u64, tsMs: u64)
    requires NoLeak(s) && conn in s.conns && s.conns[conn].phase.Waiting?
    ensures NoLeak(DoReturn(s, conn, answer, reason, nowMs, tsMs))
  {
    QuietMoveNoLeak(s, DoReturn(s, conn, answer, reason, nowMs, tsMs), conn);
  }

  lemma ReceiveNoLeak(s: State, conn: nat, param: UidParam, wanted: string, id: Option<string>, limited: bool)
    requires NoLeak(s) && conn in s.conns && s.conns[conn].phase.Idle?
    ensures NoLeak(DoReceive(s, conn, param, wanted, id, limited))
  {
    var t := DoReceive(s, conn, param, wanted, id, limited);
    if conn in t.conns {
      QuietMoveNoLeak(s, t, conn);
    } else {
      CloseNoLeak(s, conn);
    }
  }

  lemma AbandonNoLeak(s: State, conn: nat)
    requires NoLeak(s) && conn in s.conns && s.conns[conn].phase.Abandoning?
    ensures NoLeak(DoAbandon(s, conn))
  {
    var t := DoAbandon(s, conn);
    SetPhaseSize(s, conn, t.conns[conn].phase);
    ConsumeNoLeak(s, t, conn, s.conns[conn].phase.nonce);
  }

  lemma SpendNoLeak(s: State, conn: nat, tsMs: u64)
    requires NoLeak(s) && conn in s.conns && s.conns[conn].phase.Spending?
    ensures NoLeak(DoSpend(s, conn, tsMs))
  {
    var t := DoSpend(s, conn, tsMs);
    SetPhaseSize(s, conn, t.conns[conn].phase);
    ConsumeNoLeak(s, t, conn, s.conns[conn].phase.evidence.request.nonce);
  }

  lemma IssueStepNoLeak(cfg: Config, s: State, step: Step)
    requires NoLeak(s) && step.Issue?
    ensures NoLeak(Do(cfg, s, step))
  {
    if step.conn in s.conns && s.conns[step.conn].phase.Issuing? && |step.draws| == N.MAX_DRAWS {
      IssueNoLeak(s, step.conn, step.draws, step.uuid, step.nowMs, step.tsMs);
    }
  }

  lemma AbandonStepNoLeak(cfg: Config, s: State, step: Step)
    requires NoLeak(s) && step.Abandon?
    ensures NoLeak(Do(cfg, s, step))
  {
    if step.conn in s.conns && s.conns[step.conn].phase.Abandoning? {
      AbandonNoLeak(s, step.conn);
    }
  }

  lemma SpendStepNoLeak(cfg: Config, s: State, step: Step)
    requires NoLeak(s) && step.Spend?
    ensures NoLeak(Do(cfg, s, step))
  {
    if step.conn in s.conns && s.conns[step.conn].phase.Spending? {
      SpendNoLeak(s, step.conn, step.tsMs);
    }
  }

  lemma BackgroundNoLeak(cfg: Config, s: State, step: Step)
    requires NoLeak(s) && BackgroundStep(step)
    ensures NoLeak(Do(cfg, s, step))
  {
    HeldStaysEverywhere(s, Do(cfg, s, step));
  }

  lemma StepNoLeak(cfg: Config, s: State, step: Step)
    requires NoLeak(s)
    ensures NoLeak(Do(cfg, s, step))
  {
    match step
    case Accept(conn, caller) => AcceptNoLeak(s, conn, caller);
    case Close(conn) =>
      if conn in s.conns && s.conns[conn].phase.Idle? {
        CloseNoLeak(s, conn);
      }
    case Receive(conn, param, wanted, id, limited) =>
      if conn in s.conns && s.conns[conn].phase.Idle? {
        ReceiveNoLeak(s, conn, param, wanted, id, limited);
      }
    case Return(conn, answer, reason, nowMs, tsMs) =>
      if conn in s.conns && s.conns[conn].phase.Waiting? {
        ReturnNoLeak(s, conn, answer, reason, nowMs, tsMs);
      }
    case Look(_, _) => ResolvingNoLeak(cfg, s, step);
    case Resolve(_, _, _, _) => ResolvingNoLeak(cfg, s, step);
    case Decide(_, _, _) => DecidingNoLeak(cfg, s, step);
    case WriteAudit(_, _) => AnsweringNoLeak(cfg, s, step);
    case Respond(_) => AnsweringNoLeak(cfg, s, step);
    case _ =>
      if step.Issue? {
        IssueStepNoLeak(cfg, s, step);
      } else if step.Abandon? {
        AbandonStepNoLeak(cfg, s, step);
      } else if step.Spend? {
        SpendStepNoLeak(cfg, s, step);
      } else {
        BackgroundNoLeak(cfg, s, step);
      }
  }

  lemma HeldStaysEverywhere(s: State, t: State)
    requires NoLeak(s) && t.conns == s.conns && forall n :: n in t.nonces.pending ==> n in s.nonces.pending
    ensures NoLeak(t)
  {
    forall n | n in t.nonces.pending ensures exists d :: HeldBy(t, n, d) {
      var d :| HeldBy(s, n, d);
      assert HeldBy(t, n, d);
    }
  }

  /** A handler that keeps what it holds. */
  lemma QuietMoveNoLeak(s: State, t: State, conn: nat)
    requires NoLeak(s) && t.nonces == s.nonces && conn in s.conns && conn in t.conns
    requires t.conns == s.conns[conn := t.conns[conn]]
    requires HeldNonce(t.conns[conn].phase) == HeldNonce(s.conns[conn].phase)
    ensures NoLeak(t)
  {
    assert t.conns.Keys == s.conns.Keys;
    assert |t.conns.Keys| == |s.conns.Keys|;
    HeldStays(s, t, conn);
  }

  lemma QuietStepNoLeak(s: State, t: State, conn: nat)
    requires NoLeak(s) && t.nonces == s.nonces
    requires t == s || (&& conn in s.conns && conn in t.conns && t.conns == s.conns[conn := t.conns[conn]]
                        && HeldNonce(t.conns[conn].phase) == HeldNonce(s.conns[conn].phase))
    ensures NoLeak(t)
  {
    if t != s {
      QuietMoveNoLeak(s, t, conn);
    }
  }

  /** Nonces never leak: in every reachable state each pending nonce is held by a
      request in flight, and there are at most sixteen of those. */
  lemma {:induction false} NeverLeaks(cfg: Config, s: State, steps: seq<Step>)
    requires Init(s)
    ensures NoLeak(Exec(cfg, s, steps))
  {
    if steps != [] {
      NeverLeaks(cfg, s, steps[..|steps| - 1]);
      StepNoLeak(cfg, Exec(cfg, s, steps[..|steps| - 1]), steps[|steps| - 1]);
    }
  }

  // ----------------------------------------------------- so the caps never bite

  lemma {:induction false} CoveredSize(nonces: set<N.Nonce>, conns: map<nat, Conn>)
    requires forall n :: n in nonces ==> exists c :: c in conns && HeldNonce(conns[c].phase) == Some(n)
    ensures |nonces| <= |conns|
    decreases |nonces|
  {
    if nonces != {} {
      var n :| n in nonces;
      var c :| c in conns && HeldNonce(conns[c].phase) == Some(n);
      var rest, fewer := nonces - {n}, conns - {c};
      forall m | m in rest ensures exists d :: d in fewer && HeldNonce(fewer[d].phase) == Some(m) {
        var d :| d in conns && HeldNonce(conns[d].phase) == Some(m);
        assert d in fewer;
      }
      CoveredSize(rest, fewer);
      assert fewer.Keys == conns.Keys - {c};
      assert |conns.Keys - {c}| == |conns.Keys| - 1;
      assert |rest| == |nonces| - 1;
    }
  }

  lemma PendingBounded(s: State)
    requires NoLeak(s)
    ensures |s.nonces.pending| <= |s.conns| <= MAX_CONNECTIONS
  {
    forall n | n in s.nonces.pending.Keys ensures exists c :: c in s.conns && HeldNonce(s.conns[c].phase) == Some(n) {
      var c :| HeldBy(s, n, c);
      assert c in s.conns;
    }
    CoveredSize(s.nonces.pending.Keys, s.conns);
  }

  lemma RoomForAll(t: State, uid: u32, draws: N.Draws)
    requires NoLeak(t) && StoreOk(t)
    ensures |t.nonces.pending| <= |t.conns| <= MAX_CONNECTIONS
    ensures N.GenerateResult(t.nonces, uid, draws) == N.Draw(t.nonces.pending, draws, 0)
  {
    PendingBounded(t);
    N.CountIsOwned(t.nonces, uid);
    var mine := N.OwnedBy(t.nonces.pending, uid);
    assert mine <= t.nonces.pending.Keys;
    N.SubsetSize(mine, t.nonces.pending.Keys);
  }

  /** In every reachable state, `generate` gets past both capacity checks: its
      answer depends on the random draws alone. */
  lemma CapacityNeverReached(cfg: Config, s: State, steps: seq<Step>, uid: u32, draws: N.Draws)
    requires Init(s)
    ensures var t := Exec(cfg, s, steps);
            && |t.nonces.pending| <= |t.conns| <= MAX_CONNECTIONS
            && N.GenerateResult(t.nonces, uid, draws) == N.Draw(t.nonces.pending, draws, 0)
  {
    NeverLeaks(cfg, s, steps);
    StoreAlwaysOk(cfg, s, steps);
    RoomForAll(Exec(cfg, s, steps), uid, draws);
  }
}
