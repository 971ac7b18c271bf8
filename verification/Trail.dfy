/** Reloads and the audit trail over runs of the server. */
module Trail {
  import opened Bytes
  import opened Entry
  import opened Chain
  import opened Server
  import opened Safety
  import L = Logger
  import R = LogRuns
  import Recovery

  // ------------------------------------------------------------ one version each

  /** A reload takes effect only when both files loaded. */
  predicate Effective(e: Event) {
    e.Reloaded? && e.allowlist.Some? && e.engine.Some?
  }

  /** The allowlist and policy in force after the first `k` events. */
  ghost function LiveAt(init: Snapshot, trace: seq<Event>, k: nat): Snapshot
    requires k <= |trace|
  {
    if k == 0 then init
    else if Effective(trace[k - 1]) then Snapshot(trace[k - 1].allowlist.value, trace[k - 1].engine.value)
    else LiveAt(init, trace, k - 1)
  }

  lemma {:induction false} LiveAtPrefix(init: Snapshot, trace: seq<Event>, more: seq<Event>, k: nat)
    requires k <= |trace| && trace <= more
    ensures LiveAt(init, more, k) == LiveAt(init, trace, k)
  {
    if k > 0 {
      LiveAtPrefix(init, trace, more, k - 1);
    }
  }

  /** The live pair comes from one load: the initial one, or the last reload in
      which both files loaded; failed reloads after it changed neither half. */
  lemma {:induction false} LiveIsOneLoad(init: Snapshot, trace: seq<Event>, k: nat)
    requires k <= |trace|
    ensures || (LiveAt(init, trace, k) == init && forall i :: 0 <= i < k ==> !Effective(trace[i]))
            || exists j: nat ::
                 && j < k && Effective(trace[j])
                 && LiveAt(init, trace, k) == Snapshot(trace[j].allowlist.value, trace[j].engine.value)
                 && forall i :: j < i < k ==> !Effective(trace[i])
  {
    if k > 0 {
      LiveIsOneLoad(init, trace, k - 1);
    }
  }

  /** Every request captured the snapshot that was live when it arrived. */
  ghost predicate SnapshotsOk(init: Snapshot, s: State) {
    && s.live == LiveAt(init, s.trace, |s.trace|)
    && forall a: nat :: a < |s.trace| && s.trace[a].Received? ==> s.trace[a].snapshot == LiveAt(init, s.trace, a)
  }

  lemma RecordKeepsSnapshots(init: Snapshot, s: State, t: State, e: Event)
    requires SnapshotsOk(init, s) && t.trace == s.trace + [e]
    requires e.Received? ==> e.snapshot == s.live
    requires t.live == if Effective(e) then Snapshot(e.allowlist.value, e.engine.value) else s.live
    ensures SnapshotsOk(init, t)
  {
    LiveAtPrefix(init, s.trace, t.trace, |s.trace|);
    forall a: nat | a < |t.trace| && t.trace[a].Received? ensures t.trace[a].snapshot == LiveAt(init, t.trace, a) {
      if a < |s.trace| {
        LiveAtPrefix(init, s.trace, t.trace, a);
      }
    }
  }

  /** At most one event is recorded, and only effective reloads touch `live`. */
  ghost predicate RecordsOne(s: State, t: State) {
    || (t.trace == s.trace && t.live == s.live)
    || (&& |t.trace| == |s.trace| + 1 && s.trace <= t.trace
        && var e := t.trace[|s.trace|];
           && (e.Received? ==> e.snapshot == s.live)
           && t.live == if Effective(e) then Snapshot(e.allowlist.value, e.engine.value) else s.live)
  }

  lemma BackgroundRecords(cfg: Config, s: State, step: Step)
    requires BackgroundStep(step) || DoorStep(step)
    ensures RecordsOne(s, Do(cfg, s, step))
  {
  }

  lemma IssueRecords(cfg: Config, s: State, step: Step)
    requires step.Issue?
    ensures RecordsOne(s, Do(cfg, s, step))
  {
  }

  lemma ConsumeRecords(cfg: Config, s: State, step: Step)
    requires step.Abandon? || step.Spend?
    ensures RecordsOne(s, Do(cfg, s, step))
  {
  }

  lemma EarlyStepRecords(cfg: Config, s: State, step: Step)
    requires step.Receive? || step.Look? || step.Resolve?
    ensures RecordsOne(s, Do(cfg, s, step))
  {
  }

  lemma LateStepRecords(cfg: Config, s: State, step: Step)
    requires step.Return? || step.Decide? || step.WriteAudit? || step.Respond?
    ensures RecordsOne(s, Do(cfg, s, step))
  {
  }

  lemma StepRecords(cfg: Config, s: State, step: Step)
    ensures RecordsOne(s, Do(cfg, s, step))
  {
    if step.Issue? {
      IssueRecords(cfg, s, step);
    } else if NonceStep(step) {
      ConsumeRecords(cfg, s, step);
    } else if step.Receive? || step.Look? || step.Resolve? {
      EarlyStepRecords(cfg, s, step);
    } else if LocalStep(step) {
      LateStepRecords(cfg, s, step);
    } else {
      BackgroundRecords(cfg, s, step);
    }
  }

  lemma {:induction false} SnapshotsAlwaysOk(cfg: Config, s: State, steps: seq<Step>)
    requires Init(s)
    ensures SnapshotsOk(s.live, Exec(cfg, s, steps))
  {
    if steps != [] {
      var t, step := Exec(cfg, s, steps[..|steps| - 1]), steps[|steps| - 1];
      SnapshotsAlwaysOk(cfg, s, steps[..|steps| - 1]);
      StepRecords(cfg, t, step);
      OneKeepsSnapshots(s.live, t, Do(cfg, t, step));
    }
  }

  lemma OneKeepsSnapshots(init: Snapshot, s: State, t: State)
    requires SnapshotsOk(init, s) && RecordsOne(s, t)
    ensures SnapshotsOk(init, t)
  {
    if t.trace != s.trace {
      RecordKeepsSnapshots(init, s, t, t.trace[|s.trace|]);
    }
  }

  /** Reload atomicity: every answer that policy reached, allow or deny, is exactly
      the answer of the one version that was live when its request arrived, and
      that version's allowlist admitted the caller, whatever reloads ran while the
      adapter was working. */
  lemma DecisionUsesOneVersion(cfg: Config, s: State, steps: seq<Step>, k: nat)
    requires Init(s) && k < |Exec(cfg, s, steps).trace|
    requires Exec(cfg, s, steps).trace[k].Responded?
    requires !Exec(cfg, s, steps).trace[k].response.Failure? && Exec(cfg, s, steps).trace[k].cause.ByPolicy?
    ensures var t := Exec(cfg, s, steps);
            var job, basis := t.trace[k].job, t.trace[k].basis;
            && job.received < k && basis.Some?
            && var version := LiveAt(s.live, t.trace, job.received);
               && job.caller in version.allowlist
               && t.trace[k].response == PolicyAnswer(cfg, job, basis.value, version.engine)
               && BasisOk(cfg, WorldOf(t), t.trace[k].conn, job, basis.value)
  {
    var t := Exec(cfg, s, steps);
    AnswersAlwaysOk(cfg, s, steps);
    SnapshotsAlwaysOk(cfg, s, steps);
    assert AnswerOk(cfg, WorldOf(t), k);
    assert t.trace[t.trace[k].job.received].Received?;
  }

  // ------------------------------------------------------------- the audit trail

  /** What the first `k` events did to the audit log. */
  ghost function LogOps(trace: seq<Event>, k: nat): seq<R.LogOp>
    requires k <= |trace|
  {
    if k == 0 then []
    else
      match trace[k - 1]
      case Logged(_, fact, io) => LogOps(trace, k - 1) + [R.Append(fact, io)]
      case Reopened(outcome) => LogOps(trace, k - 1) + [R.Reopen(outcome)]
      case _ => LogOps(trace, k - 1)
  }

  /** The facts durably logged by the first `k` events, in order. */
  ghost function Durable(trace: seq<Event>, k: nat): seq<Fact>
    requires k <= |trace|
  {
    if k == 0 then []
    else if trace[k - 1].Logged? && trace[k - 1].io.Synced? then Durable(trace, k - 1) + [trace[k - 1].fact]
    else Durable(trace, k - 1)
  }

  lemma {:induction false} LogOpsPrefix(trace: seq<Event>, more: seq<Event>, k: nat)
    requires k <= |trace| && trace <= more
    ensures LogOps(more, k) == LogOps(trace, k)
  {
    if k > 0 {
      LogOpsPrefix(trace, more, k - 1);
    }
  }

  lemma {:induction false} LogOpsLogDurable(trace: seq<Event>, k: nat)
    requires k <= |trace|
    ensures R.Logged(LogOps(trace, k)) == Durable(trace, k)
  {
    if k > 0 {
      LogOpsLogDurable(trace, k - 1);
      match trace[k - 1]
      case Logged(_, fact, io) => LoggedSnoc(LogOps(trace, k - 1), R.Append(fact, io));
      case Reopened(outcome) => LoggedSnoc(LogOps(trace, k - 1), R.Reopen(outcome));
      case _ =>
    }
  }

  lemma {:induction false} LoggedSnoc(ops: seq<R.LogOp>, op: R.LogOp)
    ensures R.Logged(ops + [op]) == if op.Append? && op.io.Synced? then R.Logged(ops) + [op.fact] else R.Logged(ops)
  {
    assert (ops + [op])[..|ops|] == ops;
  }

  lemma {:induction false} LogOpsNoRestart(trace: seq<Event>, k: nat)
    requires k <= |trace|
    ensures R.NoRestart(LogOps(trace, k))
  {
    if k > 0 {
      LogOpsNoRestart(trace, k - 1);
    }
  }

  /** The audit state is what those operations make of the initial one. */
  ghost predicate AuditIsRun(cfg: Config, first: L.LogState, s: State) {
    s.audit == R.Run(cfg.env, first, LogOps(s.trace, |s.trace|))
  }

  lemma RunSnoc(env: AuditEnv, first: L.LogState, ops: seq<R.LogOp>, op: R.LogOp)
    ensures R.Run(env, first, ops + [op]) == R.Apply(env, R.Run(env, first, ops), op)
  {
    assert (ops + [op])[..|ops|] == ops;
  }

  /** The audit state changes as the recorded event says. */
  ghost predicate LogFollows(cfg: Config, s: State, t: State) {
    || (t.trace == s.trace && t.audit == s.audit)
    || (&& |t.trace| == |s.trace| + 1 && s.trace <= t.trace
        && match t.trace[|s.trace|]
           case Logged(_, fact, io) => t.audit == R.Apply(cfg.env, s.audit, R.Append(fact, io))
           case Reopened(outcome) => t.audit == R.Apply(cfg.env, s.audit, R.Reopen(outcome))
           case _ => t.audit == s.audit)
  }

  lemma FollowingKeepsRun(cfg: Config, first: L.LogState, s: State, t: State)
    requires AuditIsRun(cfg, first, s) && LogFollows(cfg, s, t)
    ensures AuditIsRun(cfg, first, t)
  {
    LogOpsPrefix(s.trace, t.trace, |s.trace|);
    if t.trace != s.trace {
      var ops := LogOps(s.trace, |s.trace|);
      match t.trace[|s.trace|]
      case Logged(_, fact, io) => RunSnoc(cfg.env, first, ops, R.Append(fact, io));
      case Reopened(outcome) => RunSnoc(cfg.env, first, ops, R.Reopen(outcome));
      case _ =>
    }
  }

  lemma BackgroundFollows(cfg: Config, s: State, step: Step)
    requires BackgroundStep(step) || DoorStep(step)
    ensures LogFollows(cfg, s, Do(cfg, s, step))
  {
  }

  lemma IssueFollows(cfg: Config, s: State, step: Step)
    requires step.Issue?
    ensures LogFollows(cfg, s, Do(cfg, s, step))
  {
  }

  lemma ConsumeFollows(cfg: Config, s: State, step: Step)
    requires step.Abandon? || step.Spend?
    ensures LogFollows(cfg, s, Do(cfg, s, step))
  {
  }

  lemma QuietStepFollows(cfg: Config, s: State, step: Step)
    requires LocalStep(step)
    ensures LogFollows(cfg, s, Do(cfg, s, step))
  {
  }

  lemma {:induction false} AuditAlwaysRun(cfg: Config, s: State, steps: seq<Step>)
    requires Init(s)
    ensures AuditIsRun(cfg, s.audit, Exec(cfg, s, steps))
  {
    if steps != [] {
      var t, step := Exec(cfg, s, steps[..|steps| - 1]), steps[|steps| - 1];
      AuditAlwaysRun(cfg, s, steps[..|steps| - 1]);
      if step.Issue? {
        IssueFollows(cfg, t, step);
      } else if NonceStep(step) {
        ConsumeFollows(cfg, t, step);
      } else if LocalStep(step) {
        QuietStepFollows(cfg, t, step);
      } else {
        BackgroundFollows(cfg, t, step);
      }
      FollowingKeepsRun(cfg, s.audit, t, Do(cfg, t, step));
    }
  }

  /** What is assumed of the line codec. */
  ghost predicate Codec(env: AuditEnv) {
    L.JsonLines(env) && Recovery.BlankRejected(env) && R.ScrapsRejected(env)
  }

  /** Every durable record is finite, no failed write left a byte, and every other
      file that a reopen found was empty. */
  ghost predicate TrailIntact(trace: seq<Event>) {
    var ops := LogOps(trace, |trace|);
    L.AllFinite(Durable(trace, |trace|)) && R.NothingTorn(ops) && R.OnlyFreshFiles(ops)
  }

  /** Every other file that a reopen found was some audit log. */
  ghost predicate AuditFiles(env: AuditEnv, trace: seq<Event>) {
    R.AuditFiles(env, LogOps(trace, |trace|))
  }

  lemma TrailOfRun(env: AuditEnv, base: seq<AuditEntry>, first: L.LogState, trace: seq<Event>)
    requires Codec(env) && L.Agrees(env, first, base) && AuditFiles(env, trace)
    ensures R.RightExactlyIf(TrailIntact(trace), env, R.Run(env, first, LogOps(trace, |trace|)), base,
                             Durable(trace, |trace|))
  {
    LogOpsLogDurable(trace, |trace|);
    LogOpsNoRestart(trace, |trace|);
    R.ProcessAgrees(env, first, base, LogOps(trace, |trace|));
  }

  /** The log of a running server, joined over rotations, reports one entry for each
      durable record and ends at the in-memory hash exactly when the trail is
      intact. */
  lemma TrailVerifies(cfg: Config, base: seq<AuditEntry>, s: State, steps: seq<Step>)
    requires Init(s) && Codec(cfg.env) && L.Agrees(cfg.env, s.audit, base)
    requires AuditFiles(cfg.env, Exec(cfg, s, steps).trace)
    ensures var t := Exec(cfg, s, steps);
            R.RightExactlyIf(TrailIntact(t.trace), cfg.env, t.audit, base, Durable(t.trace, |t.trace|))
  {
    AuditAlwaysRun(cfg, s, steps);
    TrailOfRun(cfg.env, base, s.audit, Exec(cfg, s, steps).trace);
  }

  /** The in-memory hash depends on the durable records alone: no reload, reopen or
      failed write ever changes it. */
  lemma HashIsOfRecords(cfg: Config, base: seq<AuditEntry>, s: State, steps: seq<Step>)
    requires Init(s) && s.audit.prevHash == LastHash(ZeroHash(), base)
    ensures var t := Exec(cfg, s, steps);
            t.audit.prevHash == LastHash(ZeroHash(), L.Entries(cfg.env, base, Durable(t.trace, |t.trace|)))
  {
    var t := Exec(cfg, s, steps);
    AuditAlwaysRun(cfg, s, steps);
    LogOpsLogDurable(t.trace, |t.trace|);
    LogOpsNoRestart(t.trace, |t.trace|);
    R.HashIsOfLogged(cfg.env, s.audit, base, LogOps(t.trace, |t.trace|));
  }

  // ----------------------------------------------- from an answer to its entry

  lemma {:induction false} DurableGrows(trace: seq<Event>, j: nat, k: nat)
    requires j <= k <= |trace|
    ensures Durable(trace, j) <= Durable(trace, k)
  {
    if j < k {
      DurableGrows(trace, j, k - 1);
    }
  }

  lemma {:induction false} EntryFacts(env: AuditEnv, base: seq<AuditEntry>, facts: seq<Fact>, i: nat)
    requires i < |facts|
    ensures L.Entries(env, base, facts)[|base| + i].fact == facts[i]
    decreases |facts|
  {
    var front := facts[..|facts| - 1];
    if i < |front| {
      EntryFacts(env, base, front, i);
    }
  }

  /** The entry of the record made at event `d`. */
  ghost function EntryOf(base: seq<AuditEntry>, trace: seq<Event>, d: nat): nat
    requires d <= |trace|
  {
    |base| + |Durable(trace, d)|
  }

  lemma {:induction false} RecordIsEntry(env: AuditEnv, base: seq<AuditEntry>, trace: seq<Event>, d: nat)
    requires d < |trace| && trace[d].Logged? && trace[d].io.Synced?
    ensures var es := L.Entries(env, base, Durable(trace, |trace|));
            EntryOf(base, trace, d) < |es| && es[EntryOf(base, trace, d)].fact == trace[d].fact
  {
    DurableAt(trace, d);
    EntryFacts(env, base, Durable(trace, |trace|), |Durable(trace, d)|);
  }

  lemma {:induction false} DurableAt(trace: seq<Event>, d: nat)
    requires d < |trace| && trace[d].Logged? && trace[d].io.Synced?
    ensures var n, facts := |Durable(trace, d)|, Durable(trace, |trace|);
            n < |facts| && facts[n] == trace[d].fact
  {
    DurableGrows(trace, d + 1, |trace|);
    assert Durable(trace, d + 1)[|Durable(trace, d)|] == trace[d].fact;
  }

  /** End to end: while the trail is intact, every allow or deny a run ever answered
      is an entry of the verified log, with the same decision, request id, caller
      and target UID, and where policy decided also the adapter, method, evidence
      and nonce prefix. */
  lemma EveryDecisionIsOnRecord(cfg: Config, base: seq<AuditEntry>, s: State, steps: seq<Step>, k: nat)
    returns (es: seq<AuditEntry>)
    requires Init(s) && Codec(cfg.env) && L.Agrees(cfg.env, s.audit, base)
    requires k < |Exec(cfg, s, steps).trace| && Exec(cfg, s, steps).trace[k].Responded?
    requires !Exec(cfg, s, steps).trace[k].response.Failure?
    requires TrailIntact(Exec(cfg, s, steps).trace)
    ensures var t := Exec(cfg, s, steps);
            && VerifiedAs(cfg.env, L.Joined(t.audit), es)
            && t.trace[k].logged < k
            && var i := EntryOf(base, t.trace, t.trace[k].logged);
               && i < |es|
               && FactMatches(t.trace[k].job, es[i].fact, t.trace[k].response)
               && (t.trace[k].basis.Some? ==> RecordsEvidence(es[i].fact, t.trace[k].basis.value.evidence))
  {
    var t := Exec(cfg, s, steps);
    AnswersAlwaysOk(cfg, s, steps);
    assert AnswerOk(cfg, WorldOf(t), k);
    R.FreshFilesAreAudit(cfg.env, LogOps(t.trace, |t.trace|));
    TrailVerifies(cfg, base, s, steps);
    es := L.Entries(cfg.env, base, Durable(t.trace, |t.trace|));
    RecordIsEntry(cfg.env, base, t.trace, t.trace[k].logged);
  }

  lemma {:induction false} LogOpsUpTo(trace: seq<Event>, d: nat, k: nat)
    requires d < k <= |trace| && trace[d].Logged?
    ensures var i := |LogOps(trace, d)|;
            && i < |LogOps(trace, k)| && LogOps(trace, k)[..i] == LogOps(trace, d)
            && LogOps(trace, k)[i] == R.Append(trace[d].fact, trace[d].io)
  {
    if d + 1 < k {
      LogOpsUpTo(trace, d, k - 1);
    }
  }

  lemma RecordIsWritten(env: AuditEnv, first: L.LogState, trace: seq<Event>, d: nat)
    returns (front: seq<byte>, prev: string)
    requires d < |trace| && trace[d].Logged? && trace[d].io.Synced?
    ensures front + L.LogLine(env, prev, trace[d].fact) <= L.Joined(R.Run(env, first, LogOps(trace, |trace|)))
  {
    var ops, i := LogOps(trace, |trace|), |LogOps(trace, d)|;
    LogOpsUpTo(trace, d, |trace|);
    R.DurableLine(env, first, ops, i);
    front, prev := L.Joined(R.Run(env, first, ops[..i])), R.Run(env, first, ops[..i]).prevHash;
  }

  /** Every allow or deny a run ever answered has its line in the log files, whatever
      writes failed, whatever the reopens found, and whether or not the log still
      verifies. */
  lemma EveryDecisionIsWritten(cfg: Config, s: State, steps: seq<Step>, k: nat)
    returns (front: seq<byte>, prev: string, fact: Fact)
    requires Init(s) && k < |Exec(cfg, s, steps).trace| && Exec(cfg, s, steps).trace[k].Responded?
    requires !Exec(cfg, s, steps).trace[k].response.Failure?
    ensures var t := Exec(cfg, s, steps);
            && front + L.LogLine(cfg.env, prev, fact) <= L.Joined(t.audit)
            && FactMatches(t.trace[k].job, fact, t.trace[k].response)
            && (t.trace[k].basis.Some? ==> RecordsEvidence(fact, t.trace[k].basis.value.evidence))
  {
    var t := Exec(cfg, s, steps);
    AnswersAlwaysOk(cfg, s, steps);
    AuditAlwaysRun(cfg, s, steps);
    assert AnswerOk(cfg, WorldOf(t), k);
    fact := t.trace[t.trace[k].logged].fact;
    front, prev := RecordIsWritten(cfg.env, s.audit, t.trace, t.trace[k].logged);
  }

  lemma RecordsAreDistinct(trace: seq<Event>, j: nat, k: nat)
    requires j < k < |trace| && trace[j].Responded? && trace[k].Responded?
    requires OneRecord(trace, j) && OneRecord(trace, k)
    ensures trace[j].logged != trace[k].logged
  {
    if trace[j].logged == trace[k].logged {
      assert trace[j].conn == trace[k].conn;
      assert Boundary(trace[j], trace[k].conn);
      assert false;
    }
  }

  lemma EntriesInOrder(base: seq<AuditEntry>, trace: seq<Event>, c: nat, d: nat)
    requires c < d < |trace| && trace[c].Logged? && trace[c].io.Synced?
    ensures EntryOf(base, trace, c) < EntryOf(base, trace, d)
  {
    DurableGrows(trace, c + 1, d);
  }

  /** Distinct answers have distinct entries, in the order of their records. */
  lemma DecisionsHaveOwnEntries(cfg: Config, base: seq<AuditEntry>, s: State, steps: seq<Step>, j: nat, k: nat)
    requires Init(s) && j < |Exec(cfg, s, steps).trace| && k < |Exec(cfg, s, steps).trace| && j != k
    requires Exec(cfg, s, steps).trace[j].Responded? && !Exec(cfg, s, steps).trace[j].response.Failure?
    requires Exec(cfg, s, steps).trace[k].Responded? && !Exec(cfg, s, steps).trace[k].response.Failure?
    ensures var t := Exec(cfg, s, steps);
            var c, d := t.trace[j].logged, t.trace[k].logged;
            && c < j && d < k && c != d
            && (c < d <==> EntryOf(base, t.trace, c) < EntryOf(base, t.trace, d))
            && EntryOf(base, t.trace, c) != EntryOf(base, t.trace, d)
  {
    var t := Exec(cfg, s, steps);
    OneDecisionOneRecord(cfg, s, steps, j);
    OneDecisionOneRecord(cfg, s, steps, k);
    if j < k {
      RecordsAreDistinct(t.trace, j, k);
    } else {
      RecordsAreDistinct(t.trace, k, j);
    }
    if t.trace[j].logged < t.trace[k].logged {
      EntriesInOrder(base, t.trace, t.trace[j].logged, t.trace[k].logged);
    } else {
      EntriesInOrder(base, t.trace, t.trace[k].logged, t.trace[j].logged);
    }
  }
}
