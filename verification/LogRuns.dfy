/** Runs of the audit logger: any calls of `log` with any I/O outcome, any
    reopens, and restarts of the daemon.  The main theorem says exactly when the
    joined log still reports one entry for each successful call and ends at the
    hash in memory. */
module LogRuns {
  import opened Bytes
  import opened Entry
  import opened Chain
  import opened Recovery
  import opened Logger

  datatype LogOp = Append(fact: Fact, io: WriteOutcome) | Reopen(outcome: ReopenOutcome) | Restart

  function Apply(env: AuditEnv, s: LogState, op: LogOp): LogState {
    match op
    case Append(fact, io) => LogCall(env, s, fact, io)
    case Reopen(outcome) => ReopenCall(s, outcome)
    case Restart =>
      match OpenCall(env, s.current, AUDIT_RECOVERY_WINDOW_BYTES)
      case Ok(t) => s.(prevHash := t.prevHash)
      case Err(_) => s
  }

  function Run(env: AuditEnv, s: LogState, ops: seq<LogOp>): LogState {
    if ops == [] then s else Apply(env, Run(env, s, ops[..|ops| - 1]), ops[|ops| - 1])
  }

  /** The facts of the calls that returned success, in order. */
  function Logged(ops: seq<LogOp>): seq<Fact> {
    if ops == [] then []
    else
      var facts, op := Logged(ops[..|ops| - 1]), ops[|ops| - 1];
      if op.Append? && op.io.Synced? then facts + [op.fact] else facts
  }

  // ---------------------------------------------------------- the condition

  /** Operations that cannot spoil the log: a durable record with a finite
      confidence or a failed one that left nothing; a reopen that finds no other
      file, or an empty one; a restart on a segment that is not empty, or before
      anything was logged. */
  predicate Harmless(t: LogState, op: LogOp) {
    match op
    case Append(fact, io) => (io.Synced? && IsFinite(fact.confidence)) || io == WriteFailed(0)
    case Reopen(outcome) => outcome.Replaced? ==> outcome.file == []
    case Restart => t.current != [] || t.prevHash == ZeroHash()
  }

  /** What is taken for granted: a file found at the path is some audit log, and a
      restart got past recovery (otherwise the daemon is down). */
  ghost predicate Plausible(env: AuditEnv, t: LogState, op: LogOp) {
    match op
    case Append(_, _) => true
    case Reopen(outcome) => outcome.Replaced? ==> AuditFile(env, outcome.file)
    case Restart => OpenCall(env, t.current, AUDIT_RECOVERY_WINDOW_BYTES).Ok?
  }

  ghost predicate AllHarmless(env: AuditEnv, s: LogState, ops: seq<LogOp>) {
    ops != [] ==>
      var front := ops[..|ops| - 1];
      AllHarmless(env, s, front) && Harmless(Run(env, s, front), ops[|ops| - 1])
  }

  ghost predicate AllPlausible(env: AuditEnv, s: LogState, ops: seq<LogOp>) {
    ops != [] ==>
      var front := ops[..|ops| - 1];
      AllPlausible(env, s, front) && Plausible(env, Run(env, s, front), ops[|ops| - 1])
  }

  // ---------------------------------------------------------------- counting

  function Newlines(s: seq<byte>): nat {
    if s == [] then 0 else Newlines(s[..|s| - 1]) + if s[|s| - 1] == NEWLINE then 1 else 0
  }

  lemma {:induction false} NewlinesAppend(a: seq<byte>, b: seq<byte>)
    ensures Newlines(a + b) == Newlines(a) + Newlines(b)
  {
    if b == [] {
      assert a + b == a;
    } else {
      assert (a + b)[..|a + b| - 1] == a + b[..|b| - 1];
      NewlinesAppend(a, b[..|b| - 1]);
    }
  }

  lemma {:induction false} NoNewlines(s: seq<byte>)
    requires NEWLINE !in s
    ensures Newlines(s) == 0
  {
    if s != [] {
      NoNewlines(s[..|s| - 1]);
    }
  }

  lemma OneNewline(line: seq<byte>)
    requires NEWLINE !in line
    ensures Newlines(line + [NEWLINE]) == 1
  {
    NewlinesAppend(line, [NEWLINE]);
    NoNewlines(line);
    assert [NEWLINE][..0] == [];
  }

  lemma CompleteCounts(s: seq<byte>)
    requires Complete(s) && s != []
    ensures Newlines(s) > 0
  {
  }

  /** An accepted log reports exactly its lines. */
  lemma {:induction false} VerifyCounts(env: AuditEnv, log: seq<byte>, prev: string, n: nat)
    requires VerifyFrom(env, log, prev, n).Ok?
    ensures VerifyFrom(env, log, prev, n).value.entries == n + Newlines(log)
    decreases |log|
  {
    if log != [] {
      var line, tail := SplitLine(log);
      VerifyStep(env, line, tail, prev, n);
      VerifyCounts(env, tail, CheckLine(env, line, prev).value, n + 1);
      OneNewline(line);
      NewlinesAppend(line + [NEWLINE], tail);
    }
  }

  // ------------------------------------------------------------------ scraps

  /** What a write that stopped early leaves: the first bytes of a printed entry. */
  datatype Scrap = Scrap(entry: AuditEntry, left: nat)

  function ScrapBytes(env: AuditEnv, pieces: seq<Scrap>): seq<byte> {
    if pieces == [] then []
    else
      var piece := pieces[|pieces| - 1];
      var text := env.show(piece.entry);
      ScrapBytes(env, pieces[..|pieces| - 1]) + if piece.left < |text| then text[..piece.left] else text
  }

  ghost predicate AllCut(pieces: seq<Scrap>) {
    forall i :: 0 <= i < |pieces| ==> pieces[i].left > 0
  }

  ghost predicate Loose(pieces: seq<Scrap>) {
    pieces != [] && AllCut(pieces)
  }

  /** Any whole lines, good or bad, and then whatever cut writes left. */
  ghost predicate AuditFile(env: AuditEnv, file: seq<byte>) {
    exists good: seq<byte>, pieces :: EndsIn(env, file, good, pieces)
  }

  ghost predicate EndsIn(env: AuditEnv, file: seq<byte>, good: seq<byte>, pieces: seq<Scrap>) {
    Complete(good) && AllCut(pieces) && file == good + ScrapBytes(env, pieces)
  }

  lemma {:induction false} ScrapsAppend(env: AuditEnv, pieces: seq<Scrap>, more: seq<Scrap>)
    ensures ScrapBytes(env, pieces + more) == ScrapBytes(env, pieces) + ScrapBytes(env, more)
    decreases |more|
  {
    if more == [] {
      assert pieces + more == pieces;
    } else {
      var front := more[..|more| - 1];
      ScrapsAppend(env, pieces, front);
      assert (pieces + more)[..|pieces + more| - 1] == pieces + front;
    }
  }

  /** The parser refuses an entry with scraps in front of it: no JSON object has
      another one, or a cut one, glued before its opening brace. */
  ghost predicate ScrapsRejected(env: AuditEnv) {
    forall pieces, e :: Loose(pieces) ==> ScrapRejected(env, pieces, e)
  }

  ghost predicate ScrapRejected(env: AuditEnv, pieces: seq<Scrap>, e: AuditEntry) {
    env.parse(ScrapBytes(env, pieces) + env.show(e)) == None
  }

  lemma {:induction false} ScrapsHaveNoNewline(env: AuditEnv, pieces: seq<Scrap>)
    requires JsonLines(env)
    ensures NEWLINE !in ScrapBytes(env, pieces)
  {
    if pieces != [] {
      ScrapsHaveNoNewline(env, pieces[..|pieces| - 1]);
      assert LineCodec(env, pieces[|pieces| - 1].entry);
    }
  }

  lemma ScrapsAreBytes(env: AuditEnv, pieces: seq<Scrap>)
    requires JsonLines(env) && Loose(pieces)
    ensures ScrapBytes(env, pieces) != []
  {
    assert LineCodec(env, pieces[|pieces| - 1].entry);
  }

  lemma OneMoreScrap(env: AuditEnv, pieces: seq<Scrap>, prev: string, fact: Fact, left: nat)
    ensures ScrapBytes(env, pieces + [Scrap(Stamp(env, prev, fact), left)]) ==
            ScrapBytes(env, pieces) + Written(LogLine(env, prev, fact), WriteFailed(left))
  {
    var more := pieces + [Scrap(Stamp(env, prev, fact), left)];
    assert more[..|more| - 1] == pieces;
    var text := env.show(Stamp(env, prev, fact));
    assert left < |text| ==> (text + [NEWLINE])[..left] == text[..left];
    assert (text + [NEWLINE])[..|text|] == text;
  }

  // ------------------------------------------------ the ways to be spoiled

  /** Some complete part of the log is rejected, hence all of it. */
  ghost predicate Rejected(env: AuditEnv, log: seq<byte>) {
    exists good: seq<byte> :: good <= log && Complete(good) && Verify(env, good).Err?
  }

  /** The log ends in scraps of failed writes. */
  ghost predicate EndsLoose(env: AuditEnv, log: seq<byte>) {
    exists good: seq<byte>, pieces :: IsLoose(env, log, good, pieces)
  }

  ghost predicate IsLoose(env: AuditEnv, log: seq<byte>, good: seq<byte>, pieces: seq<Scrap>) {
    pieces != [] && EndsIn(env, log, good, pieces)
  }

  /** A restart on an empty segment forgot the hash of the entries before it. */
  ghost predicate HeadLost(env: AuditEnv, t: LogState) {
    && t.current == [] && t.prevHash == ZeroHash()
    && exists es :: VerifiedAs(env, Joined(t), es) && LastHash(ZeroHash(), es) != ZeroHash()
  }

  /** The log of `t` does not report `n` entries and the hash in memory. */
  ghost predicate Spoiled(env: AuditEnv, t: LogState, n: nat) {
    && Newlines(Joined(t)) >= n
    && (Newlines(Joined(t)) > n || Rejected(env, Joined(t)) || EndsLoose(env, Joined(t)) || HeadLost(env, t))
  }

  lemma RejectedFails(env: AuditEnv, log: seq<byte>)
    requires Rejected(env, log)
    ensures Verify(env, log).Err?
  {
    var good :| good <= log && Complete(good) && Verify(env, good).Err?;
    assert log == good + log[|good|..];
    VerifyAppend(env, good, log[|good|..], ZeroHash(), 0);
  }

  lemma LooseFails(env: AuditEnv, log: seq<byte>)
    requires JsonLines(env) && EndsLoose(env, log)
    ensures Verify(env, log).Err?
  {
    var good, pieces :| IsLoose(env, log, good, pieces);
    ScrapsHaveNoNewline(env, pieces);
    ScrapsAreBytes(env, pieces);
    var text := ScrapBytes(env, pieces);
    assert log[|log| - 1] == text[|text| - 1];
    if Verify(env, log).Ok? {
      VerifiedComplete(env, log, ZeroHash(), 0);
      assert false;
    }
  }

  /** The joined log reports `n` entries and the hash in memory. */
  ghost predicate Reports(env: AuditEnv, t: LogState, n: nat) {
    Verify(env, Joined(t)) == Ok(Report(n, t.prevHash))
  }

  lemma SpoiledFails(env: AuditEnv, t: LogState, n: nat)
    requires JsonLines(env) && Spoiled(env, t, n)
    ensures !Reports(env, t, n)
  {
    if Rejected(env, Joined(t)) {
      RejectedFails(env, Joined(t));
    } else if EndsLoose(env, Joined(t)) {
      LooseFails(env, Joined(t));
    } else if HeadLost(env, t) {
      var es :| VerifiedAs(env, Joined(t), es) && LastHash(ZeroHash(), es) != ZeroHash();
      VerifiedIsAccepted(env, Joined(t), es);
    } else if Verify(env, Joined(t)).Ok? {
      VerifyCounts(env, Joined(t), ZeroHash(), 0);
    }
  }

  // -------------------------------------------------- one operation on the bytes

  /** What an operation appends to the joined log. */
  function Added(env: AuditEnv, t: LogState, op: LogOp): seq<byte> {
    match op
    case Append(fact, io) => Written(LogLine(env, t.prevHash, fact), io)
    case Reopen(outcome) => if outcome.Replaced? then outcome.file else []
    case Restart => []
  }

  function Successes(op: LogOp): nat {
    if op.Append? && op.io.Synced? then 1 else 0
  }

  lemma ApplyJoins(env: AuditEnv, t: LogState, op: LogOp)
    ensures Joined(Apply(env, t, op)) == Joined(t) + Added(env, t, op)
  {
    match op
    case Append(fact, io) => LogJoins(env, t, fact, io);
    case Reopen(outcome) => ReopenJoins(t, outcome);
    case Restart =>
  }

  lemma LineCounts(env: AuditEnv, prev: string, fact: Fact)
    requires JsonLines(env)
    ensures Newlines(LogLine(env, prev, fact)) == 1 && Complete(LogLine(env, prev, fact))
  {
    assert LineCodec(env, Stamp(env, prev, fact));
    OneNewline(env.show(Stamp(env, prev, fact)));
  }

  lemma ApplyCounts(env: AuditEnv, t: LogState, op: LogOp)
    requires JsonLines(env)
    ensures Newlines(Joined(Apply(env, t, op))) == Newlines(Joined(t)) + Newlines(Added(env, t, op))
    ensures Newlines(Added(env, t, op)) >= Successes(op)
  {
    ApplyJoins(env, t, op);
    NewlinesAppend(Joined(t), Added(env, t, op));
    if op.Append? {
      LineCounts(env, t.prevHash, op.fact);
    }
  }

  // ------------------------------------------------- spoiled once, spoiled for good

  lemma CountStays(env: AuditEnv, t: LogState, op: LogOp, n: nat)
    requires JsonLines(env) && Newlines(Joined(t)) > n
    ensures Spoiled(env, Apply(env, t, op), n + Successes(op))
  {
    ApplyCounts(env, t, op);
  }

  lemma RejectedStays(env: AuditEnv, t: LogState, op: LogOp, n: nat)
    requires JsonLines(env) && Newlines(Joined(t)) >= n && Rejected(env, Joined(t))
    ensures Spoiled(env, Apply(env, t, op), n + Successes(op))
  {
    ApplyCounts(env, t, op);
    ApplyJoins(env, t, op);
    var good :| good <= Joined(t) && Complete(good) && Verify(env, good).Err?;
    assert good <= Joined(t) + Added(env, t, op);
  }

  /** A line of another file, or of a call that failed, is one too many. */
  lemma ExtraLine(env: AuditEnv, t: LogState, op: LogOp, n: nat)
    requires JsonLines(env) && Newlines(Joined(t)) >= n && Plausible(env, t, op)
    requires (op.Append? && op.io.SyncFailed?) || (op.Reopen? && op.outcome.Replaced? && Newlines(op.outcome.file) > 0)
    ensures Spoiled(env, Apply(env, t, op), n + Successes(op))
  {
    ApplyCounts(env, t, op);
    if op.Append? {
      LineCounts(env, t.prevHash, op.fact);
    }
  }

  /** Another file behind a complete log or behind scraps: its lines are too many,
      or it is scraps itself. */
  lemma ForeignFile(env: AuditEnv, t: LogState, op: LogOp, n: nat, good: seq<byte>, pieces: seq<Scrap>)
    requires JsonLines(env) && Newlines(Joined(t)) >= n && Plausible(env, t, op)
    requires op.Reopen? && op.outcome.Replaced? && op.outcome.file != []
    requires EndsIn(env, Joined(t), good, pieces)
    ensures Spoiled(env, Apply(env, t, op), n + Successes(op))
  {
    var file := op.outcome.file;
    var front, more :| EndsIn(env, file, front, more);
    if front != [] {
      CompleteCounts(front);
      NewlinesAppend(front, ScrapBytes(env, more));
      ExtraLine(env, t, op, n);
    } else {
      assert file == ScrapBytes(env, more);
      ApplyCounts(env, t, op);
      ApplyJoins(env, t, op);
      MoreScraps(env, Joined(t), good, pieces, more);
    }
  }

  lemma {:induction false} MoreScraps(
    env: AuditEnv, log: seq<byte>, good: seq<byte>, pieces: seq<Scrap>, more: seq<Scrap>)
    requires EndsIn(env, log, good, pieces) && Loose(more)
    ensures EndsLoose(env, log + ScrapBytes(env, more))
  {
    var all := pieces + more;
    ScrapsAppend(env, pieces, more);
    AppendAssociates(good, ScrapBytes(env, pieces), ScrapBytes(env, more));
    assert AllCut(all) && all != [];
    assert IsLoose(env, log + ScrapBytes(env, more), good, all);
  }

  lemma AppendAssociates(a: seq<byte>, b: seq<byte>, c: seq<byte>)
    ensures a + b + c == a + (b + c)
  {
  }

  /** A write that stopped early behind a complete log or behind other scraps. */
  lemma ScrapSpoils(env: AuditEnv, t: LogState, op: LogOp, n: nat, good: seq<byte>, pieces: seq<Scrap>)
    requires JsonLines(env) && Newlines(Joined(t)) >= n
    requires op.Append? && op.io.WriteFailed? && op.io.left > 0
    requires EndsIn(env, Joined(t), good, pieces)
    ensures Spoiled(env, Apply(env, t, op), n + Successes(op))
  {
    ApplyCounts(env, t, op);
    ApplyJoins(env, t, op);
    StillLoose(env, Joined(t), good, pieces, t.prevHash, op.fact, op.io.left);
  }

  lemma {:induction false} StillLoose(
    env: AuditEnv, log: seq<byte>, good: seq<byte>, pieces: seq<Scrap>, prev: string, fact: Fact, left: nat)
    requires EndsIn(env, log, good, pieces) && left > 0
    ensures EndsLoose(env, log + Written(LogLine(env, prev, fact), WriteFailed(left)))
  {
    var more := pieces + [Scrap(Stamp(env, prev, fact), left)];
    var text := Written(LogLine(env, prev, fact), WriteFailed(left));
    OneMoreScrap(env, pieces, prev, fact, left);
    AppendAssociates(good, ScrapBytes(env, pieces), text);
    assert AllCut(more) && more != [];
    assert IsLoose(env, log + text, good, more);
  }

  lemma {:induction false} UnreadableRejected(env: AuditEnv, good: seq<byte>, line: seq<byte>)
    requires Complete(good) && NEWLINE !in line && env.parse(line) == None
    ensures Verify(env, good + (line + [NEWLINE] + [])).Err?
  {
    VerifyAppend(env, good, line + [NEWLINE] + [], ZeroHash(), 0);
    if Verify(env, good).Ok? {
      VerifyStep(env, line, [], Verify(env, good).value.lastHash, Verify(env, good).value.entries);
    }
  }

  lemma RejectedWhole(env: AuditEnv, log: seq<byte>)
    requires Complete(log) && Verify(env, log).Err?
    ensures Rejected(env, log)
  {
    assert log <= log;
  }

  /** A whole line behind scraps is malformed. */
  lemma {:induction false} GluedRejected(env: AuditEnv, good: seq<byte>, pieces: seq<Scrap>, prev: string, fact: Fact)
    requires JsonLines(env) && ScrapsRejected(env) && Complete(good) && Loose(pieces)
    ensures Rejected(env, good + ScrapBytes(env, pieces) + LogLine(env, prev, fact))
  {
    var e, scraps := Stamp(env, prev, fact), ScrapBytes(env, pieces);
    assert LineCodec(env, e);
    ScrapsHaveNoNewline(env, pieces);
    assert ScrapRejected(env, pieces, e);
    UnreadableRejected(env, good, scraps + env.show(e));
    GluedBytes(good, scraps, env.show(e));
    RejectedWhole(env, good + scraps + LogLine(env, prev, fact));
  }

  lemma GluedBytes(good: seq<byte>, scraps: seq<byte>, line: seq<byte>)
    ensures good + scraps + (line + [NEWLINE]) == good + (scraps + line + [NEWLINE] + [])
    ensures Complete(good + scraps + (line + [NEWLINE]))
  {
  }

  lemma LooseStays(env: AuditEnv, t: LogState, op: LogOp, n: nat)
    requires JsonLines(env) && ScrapsRejected(env) && Plausible(env, t, op)
    requires Newlines(Joined(t)) >= n && EndsLoose(env, Joined(t))
    ensures Spoiled(env, Apply(env, t, op), n + Successes(op))
  {
    var good, pieces :| IsLoose(env, Joined(t), good, pieces);
    ApplyCounts(env, t, op);
    ApplyJoins(env, t, op);
    if op.Append? && op.io.WriteFailed? && op.io.left > 0 {
      ScrapSpoils(env, t, op, n, good, pieces);
    } else if op.Append? && !op.io.WriteFailed? {
      GluedRejected(env, good, pieces, t.prevHash, op.fact);
    } else if op.Reopen? && op.outcome.Replaced? && op.outcome.file != [] {
      ForeignFile(env, t, op, n, good, pieces);
    } else {
      assert Joined(Apply(env, t, op)) == Joined(t);
    }
  }

  lemma NoScraps(env: AuditEnv, log: seq<byte>)
    requires Complete(log)
    ensures EndsIn(env, log, log, [])
  {
    assert log + ScrapBytes(env, []) == log;
  }

  /** A record behind a lost head is out of place. */
  lemma {:induction false} HeadLostRecord(env: AuditEnv, t: LogState, op: LogOp, es: seq<AuditEntry>)
    requires JsonLines(env) && op.Append? && op.io.Synced? && t.prevHash == ZeroHash()
    requires VerifiedAs(env, Joined(t), es) && LastHash(ZeroHash(), es) != ZeroHash()
    ensures Rejected(env, Joined(Apply(env, t, op)))
  {
    ApplyJoins(env, t, op);
    BadLineRejected(env, Joined(t), es, ZeroHash(), op.fact);
    RejectedWhole(env, Joined(Apply(env, t, op)));
  }

  /** What appends nothing leaves the head lost. */
  lemma {:induction false} HeadLostIdle(env: AuditEnv, t: LogState, op: LogOp, n: nat)
    requires JsonLines(env) && Plausible(env, t, op) && Newlines(Joined(t)) >= n && HeadLost(env, t)
    requires Added(env, t, op) == [] && Successes(op) == 0
    ensures Spoiled(env, Apply(env, t, op), n)
  {
    ApplyJoins(env, t, op);
    assert Joined(Apply(env, t, op)) == Joined(t);
  }

  lemma {:induction false} HeadLostStays(env: AuditEnv, t: LogState, op: LogOp, n: nat)
    requires JsonLines(env) && Plausible(env, t, op)
    requires Newlines(Joined(t)) >= n && HeadLost(env, t)
    ensures Spoiled(env, Apply(env, t, op), n + Successes(op))
  {
    var es :| VerifiedAs(env, Joined(t), es) && LastHash(ZeroHash(), es) != ZeroHash();
    if op.Append? && op.io.Synced? {
      ApplyCounts(env, t, op);
      HeadLostRecord(env, t, op, es);
    } else if op.Append? && op.io.SyncFailed? {
      ExtraLine(env, t, op, n);
    } else if Added(env, t, op) == [] {
      HeadLostIdle(env, t, op, n);
    } else {
      VerifiedIsComplete(env, Joined(t), es);
      NoScraps(env, Joined(t));
      if op.Append? {
        ScrapSpoils(env, t, op, n, Joined(t), []);
      } else {
        ForeignFile(env, t, op, n, Joined(t), []);
      }
    }
  }

  lemma SpoiledStays(env: AuditEnv, t: LogState, op: LogOp, n: nat)
    requires JsonLines(env) && ScrapsRejected(env) && Plausible(env, t, op) && Spoiled(env, t, n)
    ensures Spoiled(env, Apply(env, t, op), n + Successes(op))
  {
    if Newlines(Joined(t)) > n {
      CountStays(env, t, op, n);
    } else if Rejected(env, Joined(t)) {
      RejectedStays(env, t, op, n);
    } else if EndsLoose(env, Joined(t)) {
      LooseStays(env, t, op, n);
    } else {
      HeadLostStays(env, t, op, n);
    }
  }

  // --------------------------------------------------------- leaving agreement

  lemma AgreesCounts(env: AuditEnv, t: LogState, es: seq<AuditEntry>)
    requires Agrees(env, t, es)
    ensures Newlines(Joined(t)) == |es| && Complete(Joined(t))
    ensures Reports(env, t, |es|)
  {
    VerifiedIsAccepted(env, Joined(t), es);
    VerifyCounts(env, Joined(t), ZeroHash(), 0);
    VerifiedIsComplete(env, Joined(t), es);
  }

  lemma HarmfulSpoils(env: AuditEnv, t: LogState, es: seq<AuditEntry>, op: LogOp)
    requires JsonLines(env) && Agrees(env, t, es) && Plausible(env, t, op) && !Harmless(t, op)
    ensures Spoiled(env, Apply(env, t, op), |es| + Successes(op))
  {
    AgreesCounts(env, t, es);
    match op
    case Append(fact, io) =>
      if io.Synced? {
        ApplyCounts(env, t, op);
        ApplyJoins(env, t, op);
        BadLineRejected(env, Joined(t), es, t.prevHash, fact);
        var log := Joined(Apply(env, t, op));
        assert log <= log;
      } else if io.SyncFailed? {
        ExtraLine(env, t, op, |es|);
      } else {
        NoScraps(env, Joined(t));
        ScrapSpoils(env, t, op, |es|, Joined(t), []);
      }
    case Reopen(_) =>
      NoScraps(env, Joined(t));
      ForeignFile(env, t, op, |es|, Joined(t), []);
    case Restart => assert HeadLost(env, Apply(env, t, op));
  }

  lemma HarmlessAgrees(env: AuditEnv, t: LogState, es: seq<AuditEntry>, op: LogOp)
    requires JsonLines(env) && BlankRejected(env) && Agrees(env, t, es) && Plausible(env, t, op) && Harmless(t, op)
    ensures Agrees(env, Apply(env, t, op), if Successes(op) == 1 then es + [Stamp(env, t.prevHash, op.fact)] else es)
  {
    match op
    case Append(fact, io) =>
      if io.Synced? {
        LogAgrees(env, t, es, fact);
      } else {
        NothingWrittenAgrees(env, t, es, fact);
      }
    case Reopen(outcome) => ReopenAgrees(env, t, es, outcome);
    case Restart => RestartRecovers(env, t, es, AUDIT_RECOVERY_WINDOW_BYTES);
  }

  // -------------------------------------------------------------- the theorem

  /** What holds after a run: agreement on exactly the logged facts while every
      operation was harmless, and a spoiled log ever after. */
  ghost predicate Standing(env: AuditEnv, s: LogState, es: seq<AuditEntry>, ops: seq<LogOp>) {
    var t := Run(env, s, ops);
    if AllHarmless(env, s, ops) then Agrees(env, t, Entries(env, es, Logged(ops)))
    else Spoiled(env, t, |es| + |Logged(ops)|)
  }

  lemma StandingStep(env: AuditEnv, s: LogState, es: seq<AuditEntry>, front: seq<LogOp>, ops: seq<LogOp>)
    requires JsonLines(env) && BlankRejected(env) && ScrapsRejected(env)
    requires ops != [] && front == ops[..|ops| - 1] && Standing(env, s, es, front)
    requires Plausible(env, Run(env, s, front), ops[|ops| - 1])
    ensures Standing(env, s, es, ops)
  {
    var t, op, facts := Run(env, s, front), ops[|ops| - 1], Logged(front);
    if !AllHarmless(env, s, front) {
      SpoiledStays(env, t, op, |es| + |facts|);
    } else if !Harmless(t, op) {
      HarmfulSpoils(env, t, Entries(env, es, facts), op);
    } else {
      HarmlessAgrees(env, t, Entries(env, es, facts), op);
      if Successes(op) == 1 {
        EntriesSnoc(env, es, facts, op.fact);
      }
    }
  }

  lemma {:induction false} RunStanding(env: AuditEnv, s: LogState, es: seq<AuditEntry>, ops: seq<LogOp>)
    requires JsonLines(env) && BlankRejected(env) && ScrapsRejected(env)
    requires Agrees(env, s, es) && AllPlausible(env, s, ops)
    ensures Standing(env, s, es, ops)
  {
    if ops != [] {
      RunStanding(env, s, es, ops[..|ops| - 1]);
      StandingStep(env, s, es, ops[..|ops| - 1], ops);
    }
  }

  /** `t` reports one entry more than `es` for each of `facts` if and only if
      `condition`; and then it holds exactly `es` and a sealed entry for each. */
  ghost predicate RightExactlyIf(condition: bool, env: AuditEnv, t: LogState, es: seq<AuditEntry>, facts: seq<Fact>) {
    && (Reports(env, t, |es| + |facts|) <==> condition)
    && (condition ==> Agrees(env, t, Entries(env, es, facts)))
  }

  /** The writer and the verifier agree over runs, exactly.  From a log verified
      as `es` whose last hash is in memory, after any `log` calls with any outcome,
      any reopens and any restarts, the segments joined in write order report one
      entry more for each successful call, ending at the hash in memory, if and
      only if every operation was harmless; and then they hold exactly `es` and a
      sealed entry for each successful call, in order. */
  lemma {:induction false} RunAgrees(env: AuditEnv, s: LogState, es: seq<AuditEntry>, ops: seq<LogOp>)
    requires JsonLines(env) && BlankRejected(env) && ScrapsRejected(env)
    requires Agrees(env, s, es) && AllPlausible(env, s, ops)
    ensures RightExactlyIf(AllHarmless(env, s, ops), env, Run(env, s, ops), es, Logged(ops))
  {
    RunStanding(env, s, es, ops);
    if AllHarmless(env, s, ops) {
      RightIfAgrees(env, Run(env, s, ops), es, Logged(ops));
    } else {
      WrongIfSpoiled(env, Run(env, s, ops), es, Logged(ops));
    }
  }

  lemma {:induction false} RightIfAgrees(env: AuditEnv, t: LogState, es: seq<AuditEntry>, facts: seq<Fact>)
    requires Agrees(env, t, Entries(env, es, facts))
    ensures RightExactlyIf(true, env, t, es, facts)
  {
    AgreesCounts(env, t, Entries(env, es, facts));
  }

  lemma {:induction false} WrongIfSpoiled(env: AuditEnv, t: LogState, es: seq<AuditEntry>, facts: seq<Fact>)
    requires JsonLines(env) && Spoiled(env, t, |es| + |facts|)
    ensures RightExactlyIf(false, env, t, es, facts)
  {
    SpoiledFails(env, t, |es| + |facts|);
  }

  // ----------------------------------------------------- what stays in the files

  /** Whatever else happens, the line of a durable record stays where it was written:
      right behind everything that was in the files before. */
  lemma {:induction false} DurableLine(env: AuditEnv, s: LogState, ops: seq<LogOp>, i: nat)
    requires i < |ops| && ops[i].Append? && ops[i].io.Synced?
    ensures var before := Run(env, s, ops[..i]);
            Joined(before) + LogLine(env, before.prevHash, ops[i].fact) <= Joined(Run(env, s, ops))
    decreases |ops|
  {
    var front, op := ops[..|ops| - 1], ops[|ops| - 1];
    ApplyJoins(env, Run(env, s, front), op);
    if i < |front| {
      assert front[..i] == ops[..i];
      DurableLine(env, s, front, i);
    }
  }

  // ----------------------------------------------------- without restarts

  ghost predicate NothingTorn(ops: seq<LogOp>) {
    forall i :: 0 <= i < |ops| && ops[i].Append? ==> ops[i].io.Synced? || ops[i].io == WriteFailed(0)
  }

  ghost predicate OnlyFreshFiles(ops: seq<LogOp>) {
    forall i :: 0 <= i < |ops| && ops[i].Reopen? && ops[i].outcome.Replaced? ==> ops[i].outcome.file == []
  }

  ghost predicate NoRestart(ops: seq<LogOp>) {
    forall i :: 0 <= i < |ops| ==> !ops[i].Restart?
  }

  lemma {:induction false} HarmlessIff(env: AuditEnv, s: LogState, ops: seq<LogOp>)
    requires NoRestart(ops)
    ensures AllHarmless(env, s, ops) <==> AllFinite(Logged(ops)) && NothingTorn(ops) && OnlyFreshFiles(ops)
  {
    if ops != [] {
      var front, op := ops[..|ops| - 1], ops[|ops| - 1];
      HarmlessIff(env, s, front);
      assert ops == front + [op];
      if Successes(op) == 1 {
        FiniteSnoc(Logged(front), op.fact);
      }
    }
  }

  ghost predicate AuditFiles(env: AuditEnv, ops: seq<LogOp>) {
    forall i :: 0 <= i < |ops| && ops[i].Reopen? && ops[i].outcome.Replaced? ==> AuditFile(env, ops[i].outcome.file)
  }

  lemma FreshFilesAreAudit(env: AuditEnv, ops: seq<LogOp>)
    requires OnlyFreshFiles(ops)
    ensures AuditFiles(env, ops)
  {
    var none: seq<byte> := [];
    assert none + ScrapBytes(env, []) == none;
    assert EndsIn(env, none, none, []);
  }

  /** For one process, plausible means that the files found were audit logs. */
  lemma {:induction false} PlausibleFiles(env: AuditEnv, s: LogState, ops: seq<LogOp>)
    requires NoRestart(ops)
    ensures AllPlausible(env, s, ops) <==> AuditFiles(env, ops)
  {
    if ops != [] {
      var front, op := ops[..|ops| - 1], ops[|ops| - 1];
      PlausibleFiles(env, s, front);
      assert ops == front + [op];
    }
  }

  /** One process: the log is right exactly when every logged confidence is finite,
      no failed call left a byte, and every file a reopen found was empty. */
  lemma ProcessAgrees(env: AuditEnv, s: LogState, es: seq<AuditEntry>, ops: seq<LogOp>)
    requires JsonLines(env) && BlankRejected(env) && ScrapsRejected(env)
    requires Agrees(env, s, es) && AuditFiles(env, ops) && NoRestart(ops)
    ensures RightExactlyIf(AllFinite(Logged(ops)) && NothingTorn(ops) && OnlyFreshFiles(ops),
                           env, Run(env, s, ops), es, Logged(ops))
  {
    PlausibleFiles(env, s, ops);
    RunAgrees(env, s, es, ops);
    HarmlessIff(env, s, ops);
  }

  /** Within one process the hash in memory is that of the records logged, whatever
      happened to the files. */
  lemma {:induction false} HashIsOfLogged(env: AuditEnv, s: LogState, es: seq<AuditEntry>, ops: seq<LogOp>)
    requires NoRestart(ops) && s.prevHash == LastHash(ZeroHash(), es)
    ensures Run(env, s, ops).prevHash == LastHash(ZeroHash(), Entries(env, es, Logged(ops)))
  {
    if ops != [] {
      var front, op := ops[..|ops| - 1], ops[|ops| - 1];
      HashIsOfLogged(env, s, es, front);
      if Successes(op) == 1 {
        EntriesSnoc(env, es, Logged(front), op.fact);
      }
    }
  }
}
