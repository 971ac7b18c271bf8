/** Nothing is denied without a cause: every denial of every run is borne out by
    the trace, down to the random draw, the adapter's answer, the clock or the
    policy that led to it. */
module Denials {
  import opened Bytes
  import opened Server
  import opened Nonces
  import opened Safety
  import opened Ownership
  import N = NonceStore
  import P = Policy
  import R = Registry

  // ------------------------------------------------- what the events stand for

  ghost predicate WasIssued(h: seq<N.Event>, n: N.Nonce) {
    exists i :: 0 <= i < |h| && h[i].Issued? && h[i].nonce == n
  }

  /** The random source failed, or every draw repeated a nonce issued before. */
  ghost predicate DrawFailed(h: seq<N.Event>, draws: N.Draws, error: N.NonceError) {
    || (error == N.RandomUnavailable && exists k :: 0 <= k < |draws| && draws[k].None?)
    || (&& error == N.TableFull && |draws| == N.MAX_DRAWS
        && forall k :: 0 <= k < |draws| ==> draws[k].Some? && WasIssued(h, draws[k].value))
  }

  /** The nonce was spent too late, or a request that held another issue of the same
      nonce had consumed it. */
  ghost predicate SpendFailed(l: Ledger, issue: nat, at: nat) {
    IsIssue(l.log, issue) && (at >= l.log[issue].at + N.NONCE_TTL || TakenAfter(l, issue))
  }

  ghost predicate EventHonest(l: Ledger, e: Event) {
    && (e.Undrawn? ==> DrawFailed(l.log, e.draws, e.error))
    && (e.Unspent? ==> SpendFailed(l, e.issue, e.at))
  }

  ghost predicate EventsHonest(s: State) {
    forall k :: 0 <= k < |s.trace| ==> EventHonest(LedgerOf(s), s.trace[k])
  }

  lemma HonestStays(l: Ledger, m: Ledger, e: Event)
    requires Continues(l, m) && EventHonest(l, e)
    ensures EventHonest(m, e)
  {
    if e.Undrawn? && e.error == N.TableFull {
      forall k | 0 <= k < |e.draws| ensures e.draws[k].Some? && WasIssued(m.log, e.draws[k].value) {
        IssuedStays(l.log, m.log, e.draws[k].value);
      }
    }
    if e.Unspent? && TakenAfter(l, e.issue) {
      TakenStays(l, m, e.issue);
    }
  }

  lemma IssuedStays(h: seq<N.Event>, g: seq<N.Event>, n: N.Nonce)
    requires h <= g && WasIssued(h, n)
    ensures WasIssued(g, n)
  {
    var i :| 0 <= i < |h| && h[i].Issued? && h[i].nonce == n;
    assert g[i] == h[i];
  }

  /** One more honest event. */
  lemma OneMoreHonest(s: State, t: State)
    requires EventsHonest(s) && s.trace <= t.trace && Continues(LedgerOf(s), LedgerOf(t))
    requires forall k :: |s.trace| <= k < |t.trace| ==> EventHonest(LedgerOf(t), t.trace[k])
    ensures EventsHonest(t)
  {
    forall k | 0 <= k < |t.trace| ensures EventHonest(LedgerOf(t), t.trace[k]) {
      if k < |s.trace| {
        HonestStays(LedgerOf(s), LedgerOf(t), s.trace[k]);
      }
    }
  }

  // ------------------------------------------------------------------ one step

  lemma {:induction false} DrawErrors(pending: map<N.Nonce, N.Pending>, draws: N.Draws, i: nat)
    requires i <= |draws| && N.Draw(pending, draws, i).Err?
    ensures var e := N.Draw(pending, draws, i).error;
            || (e == N.RandomUnavailable && exists k :: i <= k < |draws| && draws[k].None?)
            || (e == N.TableFull && forall k :: i <= k < |draws| ==> draws[k].Some? && draws[k].value in pending)
    decreases |draws| - i
  {
    if i < |draws| && draws[i].Some? {
      DrawErrors(pending, draws, i + 1);
    }
  }

  lemma PendingWasIssued(s: State, n: N.Nonce)
    requires StoreOk(s) && n in s.nonces.pending
    ensures WasIssued(s.nonceLog, n)
  {
    assert N.ExplainsOne(s.nonceLog, s.nonces, n);
  }

  lemma UndrawnHonest(s: State, uid: u32, draws: N.Draws)
    requires StoreOk(s) && NoLeak(s) && N.GenerateResult(s.nonces, uid, draws).Err? && |draws| == N.MAX_DRAWS
    ensures DrawFailed(s.nonceLog, draws, N.GenerateResult(s.nonces, uid, draws).error)
  {
    RoomForAll(s, uid, draws);
    DrawErrors(s.nonces.pending, draws, 0);
    forall k | 0 <= k < |draws| && draws[k].Some? && draws[k].value in s.nonces.pending
      ensures WasIssued(s.nonceLog, draws[k].value)
    {
      PendingWasIssued(s, draws[k].value);
    }
  }

  lemma IssueHonest(cfg: Config, s: State, step: Step)
    requires EventsHonest(s) && StoreOk(s) && NoLeak(s) && step.Issue?
    ensures EventsHonest(Do(cfg, s, step))
  {
    var conn := step.conn;
    if conn in s.conns && s.conns[conn].phase.Issuing? && |step.draws| == N.MAX_DRAWS {
      var uid := s.conns[conn].phase.job.uid;
      if N.GenerateResult(s.nonces, uid, step.draws).Err? {
        UndrawnHonest(s, uid, step.draws);
      }
      OneMoreHonest(s, Do(cfg, s, step));
    }
  }

  lemma UnspentHonest(s: State, conn: nat)
    requires StoreOk(s) && IssuesOk(s) && conn in s.conns && s.conns[conn].phase.Spending?
    requires var phase := s.conns[conn].phase;
             N.ConsumeResult(s.nonces, phase.evidence.request.nonce, phase.job.uid, s.clock).Err?
    ensures SpendFailed(LedgerOf(s), s.conns[conn].phase.evidence.issue, s.clock)
  {
    assert HeldOk(LedgerOf(s), s.conns[conn].phase);
    ConsumeOfAlive(LedgerOf(s), s.nonces, s.conns[conn].phase.evidence.issue);
  }

  lemma SpendHonest(cfg: Config, s: State, step: Step)
    requires EventsHonest(s) && StoreOk(s) && IssuesOk(s) && step.Spend?
    ensures EventsHonest(Do(cfg, s, step))
  {
    var conn, t := step.conn, Do(cfg, s, step);
    if conn in s.conns && s.conns[conn].phase.Spending? {
      var job, e := s.conns[conn].phase.job, s.conns[conn].phase.evidence;
      SpendContinues(cfg, s, step);
      if N.ConsumeResult(s.nonces, e.request.nonce, job.uid, s.clock).Err? {
        UnspentHonest(s, conn);
        HonestStays(LedgerOf(s), LedgerOf(t), Unspent(conn, e.issue, t.trace[|s.trace|].error, s.clock));
      }
      OneMoreHonest(s, t);
    }
  }

  predicate Plain(e: Event) {
    !e.Undrawn? && !e.Unspent? && !e.Looked?
  }

  ghost predicate OnlyPlain(s: State, t: State) {
    s.trace <= t.trace && forall k :: |s.trace| <= k < |t.trace| ==> Plain(t.trace[k])
  }

  lemma BackgroundPlain(cfg: Config, s: State, step: Step)
    requires BackgroundStep(step) || DoorStep(step) || step.Abandon?
    ensures OnlyPlain(s, Do(cfg, s, step))
  {
  }

  lemma EarlyPlain(cfg: Config, s: State, step: Step)
    requires step.Receive? || step.Resolve?
    ensures OnlyPlain(s, Do(cfg, s, step))
  {
  }

  lemma LatePlain(cfg: Config, s: State, step: Step)
    requires step.Return? || step.Decide? || step.WriteAudit? || step.Respond?
    ensures OnlyPlain(s, Do(cfg, s, step))
  {
  }

  lemma OthersPlain(cfg: Config, s: State, step: Step)
    requires !step.Issue? && !step.Spend? && !step.Look?
    ensures OnlyPlain(s, Do(cfg, s, step))
  {
    if step.Receive? || step.Resolve? {
      EarlyPlain(cfg, s, step);
    } else if LocalStep(step) {
      LatePlain(cfg, s, step);
    } else {
      BackgroundPlain(cfg, s, step);
    }
  }

  lemma IssueContinues(cfg: Config, s: State, step: Step)
    requires step.Issue? || step.Sweep?
    ensures Continues(LedgerOf(s), LedgerOf(Do(cfg, s, step)))
  {
  }

  lemma AbandonContinues(cfg: Config, s: State, step: Step)
    requires IssuesOk(s) && step.Abandon?
    ensures Continues(LedgerOf(s), LedgerOf(Do(cfg, s, step)))
  {
  }

  lemma ConsumedContinues(s: State, nonce: N.Nonce, uid: u32, issue: nat)
    requires IssuesOk(s)
    ensures Continues(LedgerOf(s), LedgerOf(Consumed(s, nonce, uid, issue)))
  {
  }

  lemma DoesSpend(cfg: Config, s: State, conn: nat, tsMs: u64)
    requires conn in s.conns && s.conns[conn].phase.Spending?
    ensures Do(cfg, s, Spend(conn, tsMs)) == DoSpend(s, conn, tsMs)
  {
  }

  lemma SpendContinues(cfg: Config, s: State, step: Step)
    requires IssuesOk(s) && step.Spend?
    ensures Continues(LedgerOf(s), LedgerOf(Do(cfg, s, step)))
  {
    if step.conn in s.conns && s.conns[step.conn].phase.Spending? {
      var phase := s.conns[step.conn].phase;
      DoesSpend(cfg, s, step.conn, step.tsMs);
      SpendLedger(s, step.conn, step.tsMs);
      ConsumedContinues(s, phase.evidence.request.nonce, phase.job.uid, phase.evidence.issue);
    }
  }

  lemma ReturnContinues(cfg: Config, s: State, step: Step)
    requires step.Return?
    ensures SameLedger(s, Do(cfg, s, step))
  {
  }

  lemma StepContinues(cfg: Config, s: State, step: Step)
    requires IssuesOk(s)
    ensures Continues(LedgerOf(s), LedgerOf(Do(cfg, s, step)))
  {
    if step.Issue? || step.Sweep? {
      IssueContinues(cfg, s, step);
    } else if step.Abandon? {
      AbandonContinues(cfg, s, step);
    } else if step.Spend? {
      SpendContinues(cfg, s, step);
    } else if BackgroundStep(step) {
      BackgroundLedger(cfg, s, step);
    } else if step.Return? {
      ReturnContinues(cfg, s, step);
    } else {
      LocalHoldsNothing(cfg, s, step);
    }
  }

  lemma LookHonest(cfg: Config, s: State, step: Step)
    requires step.Look? && EventsHonest(s) && IssuesOk(s)
    ensures EventsHonest(Do(cfg, s, step))
  {
    StepContinues(cfg, s, step);
    OneMoreHonest(s, Do(cfg, s, step));
  }

  lemma StepHonest(cfg: Config, s: State, step: Step)
    requires EventsHonest(s) && StoreOk(s) && NoLeak(s) && IssuesOk(s)
    ensures EventsHonest(Do(cfg, s, step))
  {
    if step.Issue? {
      IssueHonest(cfg, s, step);
    } else if step.Spend? {
      SpendHonest(cfg, s, step);
    } else if step.Look? {
      LookHonest(cfg, s, step);
    } else {
      StepContinues(cfg, s, step);
      OthersPlain(cfg, s, step);
      OneMoreHonest(s, Do(cfg, s, step));
    }
  }

  lemma {:induction false} EventsAlwaysHonest(cfg: Config, s: State, steps: seq<Step>)
    requires Init(s)
    ensures EventsHonest(Exec(cfg, s, steps))
  {
    if steps != [] {
      var front := steps[..|steps| - 1];
      EventsAlwaysHonest(cfg, s, front);
      StoreAlwaysOk(cfg, s, front);
      NeverLeaks(cfg, s, front);
      IssuesAlwaysOk(cfg, s, front);
      StepHonest(cfg, Exec(cfg, s, front), steps[|steps| - 1]);
    }
  }

  // ----------------------------------------------------------- reading health

  /** A reading says what the probes so far make of the method's adapter. */
  ghost predicate LooksHonest(cfg: Config, trace: seq<Event>) {
    forall i :: 0 <= i < |trace| ==> LookHonestAt(cfg, trace, i)
  }

  ghost predicate LookHonestAt(cfg: Config, trace: seq<Event>, i: nat)
    requires i < |trace|
  {
    trace[i].Looked? ==> (trace[i].up <==> R.Available(cfg.clients, HealthAt(cfg, trace, i), trace[i].name))
  }

  lemma {:induction false} ProbesPrefix(trace: seq<Event>, more: seq<Event>, k: nat)
    requires k <= |trace| && trace <= more
    ensures Probes(more, k) == Probes(trace, k)
  {
    if k > 0 {
      ProbesPrefix(trace, more, k - 1);
    }
  }

  lemma LooksStay(cfg: Config, trace: seq<Event>, more: seq<Event>)
    requires LooksHonest(cfg, trace) && trace <= more
    requires forall k :: |trace| <= k < |more| ==> LookHonestAt(cfg, more, k)
    ensures LooksHonest(cfg, more)
  {
    forall i | 0 <= i < |more| ensures LookHonestAt(cfg, more, i) {
      if i < |trace| {
        assert LookHonestAt(cfg, trace, i);
        ProbesPrefix(trace, more, i);
      }
    }
  }

  lemma LookStepHonest(cfg: Config, s: State, step: Step)
    requires step.Look? && LooksHonest(cfg, s.trace)
    ensures LooksHonest(cfg, Do(cfg, s, step).trace)
  {
    var t := Do(cfg, s, step);
    if step.conn in s.conns && CanLook(cfg, s.conns[step.conn].phase, step.name) {
      ProbesPrefix(s.trace, t.trace, |s.trace|);
      assert LookHonestAt(cfg, t.trace, |s.trace|);
      LooksStay(cfg, s.trace, t.trace);
    }
  }

  lemma SilentStep(cfg: Config, s: State, step: Step)
    requires step.Issue? || step.Spend?
    ensures var t := Do(cfg, s, step);
            s.trace <= t.trace && forall k :: |s.trace| <= k < |t.trace| ==> !t.trace[k].Looked?
  {
  }

  lemma {:induction false} LooksAlwaysHonest(cfg: Config, s: State, steps: seq<Step>)
    requires Init(s)
    ensures LooksHonest(cfg, Exec(cfg, s, steps).trace)
  {
    if steps != [] {
      var t, step := Exec(cfg, s, steps[..|steps| - 1]), steps[|steps| - 1];
      LooksAlwaysHonest(cfg, s, steps[..|steps| - 1]);
      if step.Look? {
        LookStepHonest(cfg, t, step);
      } else {
        if step.Issue? || step.Spend? {
          SilentStep(cfg, t, step);
        } else {
          OthersPlain(cfg, t, step);
        }
        LooksStay(cfg, t.trace, Do(cfg, t, step).trace);
      }
    }
  }

  // --------------------------------------------------------------- the theorem

  /** While the job was resolved, the adapter of method `m` was down at event `i`,
      as the probes up to then have it. */
  ghost predicate WasDown(cfg: Config, trace: seq<Event>, conn: nat, job: Job, m: string) {
    exists i :: job.received < i < |trace| && DownAt(cfg, trace, conn, m, i)
  }

  ghost predicate DownAt(cfg: Config, trace: seq<Event>, conn: nat, m: string, i: nat)
    requires i < |trace|
  {
    trace[i] == Looked(conn, m, false) && !R.Available(cfg.clients, HealthAt(cfg, trace, i), m)
  }

  /** What turned a request down, with what shows it. */
  ghost predicate Turned(cfg: Config, t: State, conn: nat, job: Job, basis: Option<Basis>, cause: Cause) {
    && CauseOk(cfg, WorldOf(t), conn, job, cause)
    && match cause
       case ByPolicy =>
         && basis.Some? && BasisOk(cfg, WorldOf(t), conn, job, basis.value)
         && P.Evaluate(job.snapshot.engine, basis.value.evidence.result, job.uid, basis.value.judgedMs).Deny?
       case Unresolved(_) =>
         if job.wanted == "any" then forall m :: m in cfg.clients ==> WasDown(cfg, t.trace, conn, job, m)
         else job.wanted !in cfg.clients
       case NoNonce(at) => DrawFailed(t.nonceLog, t.trace[at].draws, t.trace[at].error)
       case NotSpent(e, at) => SpendFailed(LedgerOf(t), e.issue, t.trace[at].at)
       case _ => true
  }

  lemma SawDown(cfg: Config, trace: seq<Event>, conn: nat, job: Job, m: string)
    requires LooksHonest(cfg, trace) && Saw(trace, conn, job, m, false)
    ensures WasDown(cfg, trace, conn, job, m)
  {
    var i :| job.received < i < |trace| && trace[i] == Looked(conn, m, false);
    assert LookHonestAt(cfg, trace, i);
    assert DownAt(cfg, trace, conn, m, i);
  }

  /** Every denial has its cause.  The method was not registered, or for `any` each
      registered method was read as down; or the random source failed or all its
      sixteen draws repeated issued nonces; or the adapter's answer was missing, did
      not echo the request, or came late; or the nonce was spent too late or taken by
      another holder; or attestation failed; or the method was another; or policy
      denied. */
  lemma DenialHasCause(cfg: Config, s: State, steps: seq<Step>, k: nat)
    requires Init(s) && k < |Exec(cfg, s, steps).trace|
    requires Exec(cfg, s, steps).trace[k].Responded? && Exec(cfg, s, steps).trace[k].response.Deny?
    ensures var t := Exec(cfg, s, steps);
            Turned(cfg, t, t.trace[k].conn, t.trace[k].job, t.trace[k].basis, t.trace[k].cause)
  {
    var t := Exec(cfg, s, steps);
    AnswersAlwaysOk(cfg, s, steps);
    EventsAlwaysHonest(cfg, s, steps);
    LooksAlwaysHonest(cfg, s, steps);
    assert AnswerOk(cfg, WorldOf(t), k);
    CauseTurns(cfg, t, t.trace[k].conn, t.trace[k].job, t.trace[k].basis, t.trace[k].cause);
  }

  lemma CauseTurns(cfg: Config, t: State, conn: nat, job: Job, basis: Option<Basis>, cause: Cause)
    requires EventsHonest(t) && LooksHonest(cfg, t.trace) && CauseOk(cfg, WorldOf(t), conn, job, cause)
    requires cause.ByPolicy? ==>
               && basis.Some? && BasisOk(cfg, WorldOf(t), conn, job, basis.value)
               && P.Evaluate(job.snapshot.engine, basis.value.evidence.result, job.uid, basis.value.judgedMs).Deny?
    ensures Turned(cfg, t, conn, job, basis, cause)
  {
    match cause
    case Unresolved(_) =>
      if job.wanted == "any" {
        forall m | m in cfg.clients ensures WasDown(cfg, t.trace, conn, job, m) {
          SawDown(cfg, t.trace, conn, job, m);
        }
      }
    case NoNonce(at) => assert EventHonest(LedgerOf(t), t.trace[at]);
    case NotSpent(_, at) => assert EventHonest(LedgerOf(t), t.trace[at]);
    case _ =>
  }
}
