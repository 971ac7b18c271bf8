/** The append-only audit logger (`open`, `log` and `reopen` in
    crates/ola-core/src/infrastructure/audit/logger.rs) and its agreement with
    the verifier, call by call. */
module Logger {
  import opened Bytes
  import opened Entry
  import opened Chain
  import opened Recovery

  /** Rotated-out segments in write order, the open segment, and the hash the
      next entry will carry. */
  datatype LogState = LogState(archived: seq<seq<byte>>, current: seq<byte>, prevHash: string)

  /** How a write-and-sync ended: durable; stopped by an error before the whole
      line, with `left` bytes of it in the file; or written but not synced. */
  datatype WriteOutcome = Synced | WriteFailed(left: nat) | SyncFailed

  /** What `reopen` found at the path: nothing it may open, the file it had, or
      another file and its bytes (empty after a rotation). */
  datatype ReopenOutcome = OpenFailed | SameFile | Replaced(file: seq<byte>)

  /** The entry `log` writes: it fills both chain fields. */
  function Stamp(env: AuditEnv, prev: string, fact: Fact): (e: AuditEntry)
    ensures e.fact == fact && e.prevHash == prev
    ensures IsLowerHexHash(prev) ==> Sealed(env, e)
  {
    var e := AuditEntry(fact, prev, "");
    e.(entryHash := env.seal(e))
  }

  function LogLine(env: AuditEnv, prev: string, fact: Fact): seq<byte> {
    env.show(Stamp(env, prev, fact)) + [NEWLINE]
  }

  /** What a call leaves in the file. */
  function Written(line: seq<byte>, io: WriteOutcome): (r: seq<byte>)
    ensures r <= line
  {
    match io
    case Synced => line
    case WriteFailed(left) => if left < |line| then line[..left] else if line == [] then [] else line[..|line| - 1]
    case SyncFailed => line
  }

  function LogCall(env: AuditEnv, s: LogState, fact: Fact, io: WriteOutcome): LogState {
    s.(current := s.current + Written(LogLine(env, s.prevHash, fact), io),
       prevHash := if io.Synced? then Stamp(env, s.prevHash, fact).entryHash else s.prevHash)
  }

  function ReopenCall(s: LogState, io: ReopenOutcome): LogState {
    match io
    case OpenFailed => s
    case SameFile => s
    case Replaced(file) => s.(archived := s.archived + [s.current], current := file)
  }

  /** `open` on a file with the given bytes. */
  function OpenCall(env: AuditEnv, file: seq<byte>, window: nat): Result<LogState, RecoverError> {
    match LastEntryHash(env, file, window)
    case Ok(h) => Ok(LogState([], file, h))
    case Err(error) => Err(error)
  }

  // -------------------------------------------------------------- the object

  class AuditLogger {
    var archived: seq<seq<byte>>
    var file: seq<byte>
    var prevHash: string

    constructor (file: seq<byte>, prevHash: string)
      ensures State() == LogState([], file, prevHash)
    {
      this.archived := [];
      this.file := file;
      this.prevHash := prevHash;
    }

    function State(): LogState
      reads this
    {
      LogState(archived, file, prevHash)
    }

    static method Open(env: AuditEnv, file: seq<byte>) returns (r: Result<AuditLogger, RecoverError>)
      ensures r.Ok? <==> OpenCall(env, file, AUDIT_RECOVERY_WINDOW_BYTES).Ok?
      ensures r.Ok? ==> fresh(r.value) && Ok(r.value.State()) == OpenCall(env, file, AUDIT_RECOVERY_WINDOW_BYTES)
      ensures r.Err? ==> Err(r.error) == OpenCall(env, file, AUDIT_RECOVERY_WINDOW_BYTES)
    {
      var recovered := LastEntryHash(env, file, AUDIT_RECOVERY_WINDOW_BYTES);
      if recovered.Err? {
        return Err(recovered.error);
      }
      var logger := new AuditLogger(file, recovered.value);
      r := Ok(logger);
    }

    /** Stamp, print, write, sync; the in-memory hash moves only at the end. */
    method Log(env: AuditEnv, fact: Fact, io: WriteOutcome) returns (ok: bool)
      modifies this
      ensures ok == io.Synced?
      ensures State() == LogCall(env, old(State()), fact, io)
    {
      var entry := AuditEntry(fact, prevHash, "");
      entry := entry.(entryHash := env.seal(entry));
      var line := env.show(entry) + [NEWLINE];
      file := file + Written(line, io);
      if !io.Synced? {
        return false;
      }
      prevHash := entry.entryHash;
      ok := true;
    }

    /** The hash is carried over; only the file handle changes. */
    method Reopen(io: ReopenOutcome) returns (ok: bool)
      modifies this
      ensures ok == !io.OpenFailed?
      ensures State() == ReopenCall(old(State()), io)
      ensures prevHash == old(prevHash)
    {
      if io.OpenFailed? {
        return false;
      }
      if io.Replaced? {
        archived, file := archived + [file], io.file;
      }
      ok := true;
    }
  }

  // ------------------------------------------------------------ what it wrote

  function Flatten(segments: seq<seq<byte>>): seq<byte> {
    if segments == [] then [] else Flatten(segments[..|segments| - 1]) + segments[|segments| - 1]
  }

  /** All segments joined in write order. */
  function Joined(s: LogState): seq<byte> {
    Flatten(s.archived) + s.current
  }

  lemma ReopenJoins(s: LogState, io: ReopenOutcome)
    ensures Joined(ReopenCall(s, io)) == Joined(s) + if io.Replaced? then io.file else []
    ensures ReopenCall(s, io).prevHash == s.prevHash
  {
    var segments := s.archived + [s.current];
    assert segments[..|segments| - 1] == s.archived;
  }

  lemma LogJoins(env: AuditEnv, s: LogState, fact: Fact, io: WriteOutcome)
    ensures Joined(LogCall(env, s, fact, io)) == Joined(s) + Written(LogLine(env, s.prevHash, fact), io)
  {
  }

  /** What a line can hold.  JSON has no infinities and no NaN: the serializer
      writes `null` for them and the parser refuses `null` for a float.  The
      chain fields are left out of the text when empty and are then missing. */
  predicate Storable(e: AuditEntry) {
    IsFinite(e.fact.confidence) && e.prevHash != "" && e.entryHash != ""
  }

  /** The line codec: no newline inside a line, never a blank line, and parsing
      gives back exactly the storable entries. */
  ghost predicate JsonLines(env: AuditEnv) {
    forall e :: LineCodec(env, e)
  }

  ghost predicate LineCodec(env: AuditEnv, e: AuditEntry) {
    && NEWLINE !in env.show(e)
    && !Blank(env.show(e))
    && env.parse(env.show(e)) == if Storable(e) then Some(e) else None
  }

  ghost predicate AllFinite(facts: seq<Fact>) {
    forall i :: 0 <= i < |facts| ==> IsFinite(facts[i].confidence)
  }

  /** The entries that logging `facts` after `base` produces. */
  ghost function Entries(env: AuditEnv, base: seq<AuditEntry>, facts: seq<Fact>): (es: seq<AuditEntry>)
    ensures |es| == |base| + |facts|
  {
    if facts == [] then base
    else
      var es := Entries(env, base, facts[..|facts| - 1]);
      es + [Stamp(env, LastHash(ZeroHash(), es), facts[|facts| - 1])]
  }

  // ------------------------------------------------------------ the agreement

  /** Memory and files agree on `es`: the segments joined in write order are
      verified as `es`, and the hash in memory is the last one. */
  ghost predicate Agrees(env: AuditEnv, s: LogState, es: seq<AuditEntry>) {
    && VerifiedAs(env, Joined(s), es)
    && IsLowerHexHash(s.prevHash) && s.prevHash == LastHash(ZeroHash(), es)
    && Complete(Flatten(s.archived))
  }

  lemma {:induction false} UnlinesSnoc(lines: seq<seq<byte>>, line: seq<byte>)
    ensures Unlines(lines + [line]) == Unlines(lines) + (line + [NEWLINE])
  {
    if lines == [] {
      assert [] + [line] == [line];
      assert [line][1..] == [];
    } else {
      assert (lines + [line])[1..] == lines[1..] + [line];
      UnlinesSnoc(lines[1..], line);
    }
  }

  lemma HoldsSnoc(
    env: AuditEnv, log: seq<byte>, lines: seq<seq<byte>>, es: seq<AuditEntry>, line: seq<byte>, e: AuditEntry)
    requires Holds(env, log, lines, es) && NEWLINE !in line && env.parse(line) == Some(e)
    ensures Holds(env, log + (line + [NEWLINE]), lines + [line], es + [e])
  {
    UnlinesSnoc(lines, line);
    forall k: nat | k < |lines| + 1 ensures ParsesAt(env, lines + [line], es + [e], k) {
      if k < |lines| {
        assert ParsesAt(env, lines, es, k);
      }
    }
  }

  lemma LinkedSnoc(env: AuditEnv, first: string, es: seq<AuditEntry>, e: AuditEntry)
    requires Linked(env, first, es) && Sealed(env, e) && e.prevHash == LastHash(first, es)
    ensures Linked(env, first, es + [e])
  {
    var fs := es + [e];
    forall k: nat | k < |fs| ensures LinkAt(env, first, fs, k) {
      if k < |es| {
        assert LinkAt(env, first, es, k);
      }
    }
  }

  lemma StampedLine(env: AuditEnv, prev: string, fact: Fact)
    requires JsonLines(env) && IsLowerHexHash(prev)
    ensures var e := Stamp(env, prev, fact);
            && NEWLINE !in env.show(e)
            && env.parse(env.show(e)) == if IsFinite(fact.confidence) then Some(e) else None
  {
    var e := Stamp(env, prev, fact);
    assert LineCodec(env, e);
    assert |e.entryHash| == 64;
  }

  lemma VerifiedSnoc(env: AuditEnv, log: seq<byte>, es: seq<AuditEntry>, fact: Fact)
    requires JsonLines(env) && VerifiedAs(env, log, es) && IsFinite(fact.confidence)
    requires IsLowerHexHash(LastHash(ZeroHash(), es))
    ensures var e := Stamp(env, LastHash(ZeroHash(), es), fact);
            VerifiedAs(env, log + (env.show(e) + [NEWLINE]), es + [e])
  {
    var e := Stamp(env, LastHash(ZeroHash(), es), fact);
    var lines :| Holds(env, log, lines, es);
    StampedLine(env, LastHash(ZeroHash(), es), fact);
    HoldsSnoc(env, log, lines, es, env.show(e), e);
    LinkedSnoc(env, ZeroHash(), es, e);
  }

  lemma VerifiedIsAccepted(env: AuditEnv, log: seq<byte>, es: seq<AuditEntry>)
    requires VerifiedAs(env, log, es)
    ensures Verify(env, log) == Ok(Report(|es|, LastHash(ZeroHash(), es)))
  {
    var lines :| Holds(env, log, lines, es);
    LinkedAccepted(env, log, lines, es, ZeroHash(), 0);
  }

  lemma EntriesSnoc(env: AuditEnv, base: seq<AuditEntry>, facts: seq<Fact>, fact: Fact)
    ensures var es := Entries(env, base, facts);
            Entries(env, base, facts + [fact]) == es + [Stamp(env, LastHash(ZeroHash(), es), fact)]
  {
    assert (facts + [fact])[..|facts|] == facts;
  }

  lemma FiniteSnoc(facts: seq<Fact>, fact: Fact)
    ensures AllFinite(facts + [fact]) <==> AllFinite(facts) && IsFinite(fact.confidence)
  {
    var all := facts + [fact];
    assert all[|facts|] == fact;
    assert forall i :: 0 <= i < |facts| ==> all[i] == facts[i];
  }

  lemma VerifiedIsComplete(env: AuditEnv, log: seq<byte>, es: seq<AuditEntry>)
    requires VerifiedAs(env, log, es)
    ensures Complete(log)
  {
    VerifiedIsAccepted(env, log, es);
    VerifiedComplete(env, log, ZeroHash(), 0);
  }

  /** One successful call with a finite confidence keeps the agreement. */
  lemma LogAgrees(env: AuditEnv, s: LogState, es: seq<AuditEntry>, fact: Fact)
    requires JsonLines(env) && Agrees(env, s, es) && IsFinite(fact.confidence)
    ensures Agrees(env, LogCall(env, s, fact, Synced), es + [Stamp(env, s.prevHash, fact)])
  {
    LogJoins(env, s, fact, Synced);
    VerifiedSnoc(env, Joined(s), es, fact);
  }

  /** A call that failed without leaving a byte keeps it too. */
  lemma NothingWrittenAgrees(env: AuditEnv, s: LogState, es: seq<AuditEntry>, fact: Fact)
    requires Agrees(env, s, es)
    ensures LogCall(env, s, fact, WriteFailed(0)) == s
  {
    assert Written(LogLine(env, s.prevHash, fact), WriteFailed(0)) == [];
  }

  /** And so does any reopen that finds an empty file, the old one or none. */
  lemma ReopenAgrees(env: AuditEnv, s: LogState, es: seq<AuditEntry>, io: ReopenOutcome)
    requires Agrees(env, s, es) && (io.Replaced? ==> io.file == [])
    ensures Agrees(env, ReopenCall(s, io), es)
  {
    ReopenJoins(s, io);
    VerifiedIsComplete(env, Joined(s), es);
    if io.Replaced? {
      assert Joined(ReopenCall(s, io)) == Joined(s);
      assert Flatten(ReopenCall(s, io).archived) == Joined(s);
    }
  }

  // ------------------------------------------------------- starting and stopping

  lemma VerifiedStart(env: AuditEnv, file: seq<byte>, es: seq<AuditEntry>)
    requires VerifiedAs(env, file, es)
    ensures Agrees(env, LogState([], file, LastHash(ZeroHash(), es)), es)
  {
    VerifiedIsAccepted(env, file, es);
    if es != [] {
      assert LinkAt(env, ZeroHash(), es, |es| - 1);
    }
    assert Joined(LogState([], file, LastHash(ZeroHash(), es))) == file;
  }

  /** `open` on an empty file, or on a verified one whose last line the window
      reaches, yields a state that agrees with the file; on a verified file out of
      reach it fails. */
  lemma OpenAgrees(env: AuditEnv, file: seq<byte>, es: seq<AuditEntry>, window: nat)
    requires BlankRejected(env) && VerifiedAs(env, file, es)
    ensures OpenCall(env, file, window).Ok? <==> file == [] || WindowReaches(file, window, LastLineStart(file))
    ensures OpenCall(env, file, window).Ok? ==> Agrees(env, OpenCall(env, file, window).value, es)
  {
    VerifiedIsAccepted(env, file, es);
    VerifiedStart(env, file, es);
    if file != [] {
      RecoveryAgreesWithVerify(env, file, ZeroHash(), 0, window);
    }
  }

  lemma SegmentVerified(env: AuditEnv, s: LogState, es: seq<AuditEntry>)
    requires Agrees(env, s, es)
    ensures Verify(env, Flatten(s.archived)).Ok?
    ensures var before := Verify(env, Flatten(s.archived)).value;
            VerifyFrom(env, s.current, before.lastHash, before.entries) == Ok(Report(|es|, s.prevHash))
  {
    VerifiedIsAccepted(env, Joined(s), es);
    VerifyAppend(env, Flatten(s.archived), s.current, ZeroHash(), 0);
  }

  /** A restart of an agreeing logger on its open segment: with an entry in the
      segment it recovers the very hash the memory held, exactly when the window
      reaches; on an empty segment it starts over from zero. */
  lemma RestartRecovers(env: AuditEnv, s: LogState, es: seq<AuditEntry>, window: nat)
    requires BlankRejected(env) && Agrees(env, s, es)
    ensures s.current == [] ==> OpenCall(env, s.current, window) == Ok(LogState([], [], ZeroHash()))
    ensures s.current != [] ==>
            OpenCall(env, s.current, window) ==
            if WindowReaches(s.current, window, LastLineStart(s.current)) then Ok(LogState([], s.current, s.prevHash))
            else Err(NoCompleteEntry)
  {
    if s.current != [] {
      SegmentVerified(env, s, es);
      var before := Verify(env, Flatten(s.archived)).value;
      RecoveryAgreesWithVerify(env, s.current, before.lastHash, before.entries, window);
    }
  }

  // -------------------------------------------- where the agreement breaks

  /** A line stamped with any hash but the last one, or with a confidence that is
      not finite, is rejected for good. */
  lemma BadLineRejected(
    env: AuditEnv, log: seq<byte>, es: seq<AuditEntry>, prev: string, fact: Fact)
    requires JsonLines(env) && VerifiedAs(env, log, es) && IsLowerHexHash(prev)
    requires prev != LastHash(ZeroHash(), es) || !IsFinite(fact.confidence)
    ensures Complete(log + LogLine(env, prev, fact))
    ensures Verify(env, log + LogLine(env, prev, fact)) ==
            Err(VerifyError(|es| + 1, if IsFinite(fact.confidence) then PrevMismatch else Malformed))
  {
    var line := env.show(Stamp(env, prev, fact));
    VerifiedIsComplete(env, log, es);
    VerifiedIsAccepted(env, log, es);
    VerifyAppend(env, log, line + [NEWLINE], ZeroHash(), 0);
    StampedLine(env, prev, fact);
    assert line + [NEWLINE] == line + [NEWLINE] + [];
    VerifyStep(env, line, [], LastHash(ZeroHash(), es), |es|);
  }

  /** The whole line of a failed call: the log verifies, with one entry more than
      calls that succeeded, and ends at a hash the memory does not hold unless the
      orphan's hash repeats the one before it. */
  lemma OrphanVerifies(env: AuditEnv, s: LogState, es: seq<AuditEntry>, orphan: Fact)
    requires JsonLines(env) && Agrees(env, s, es) && IsFinite(orphan.confidence)
    ensures var t := LogCall(env, s, orphan, SyncFailed);
            Verify(env, Joined(t)) == Ok(Report(|es| + 1, Stamp(env, s.prevHash, orphan).entryHash))
              && t.prevHash == s.prevHash
  {
    var kept := LogCall(env, s, orphan, Synced);
    LogAgrees(env, s, es, orphan);
    VerifiedIsAccepted(env, Joined(kept), es + [Stamp(env, s.prevHash, orphan)]);
    assert LogCall(env, s, orphan, SyncFailed) == kept.(prevHash := s.prevHash);
  }

  /** The next success behind such an orphan is rejected at its own line. */
  lemma OrphanBreaksChain(env: AuditEnv, s: LogState, es: seq<AuditEntry>, orphan: Fact, next: Fact)
    requires JsonLines(env) && Agrees(env, s, es) && IsFinite(orphan.confidence) && IsFinite(next.confidence)
    requires Stamp(env, s.prevHash, orphan).entryHash != s.prevHash
    ensures Verify(env, Joined(LogCall(env, LogCall(env, s, orphan, SyncFailed), next, Synced))) ==
            Err(VerifyError(|es| + 2, PrevMismatch))
  {
    var kept, torn := LogCall(env, s, orphan, Synced), LogCall(env, s, orphan, SyncFailed);
    LogAgrees(env, s, es, orphan);
    assert torn == kept.(prevHash := s.prevHash);
    LogJoins(env, torn, next, Synced);
    BadLineRejected(env, Joined(kept), es + [Stamp(env, s.prevHash, orphan)], s.prevHash, next);
  }

  /** A restart that reaches the orphan adopts it: memory and log agree again, on
      a log that holds an entry for a call that reported failure. */
  lemma RestartAdoptsOrphan(env: AuditEnv, s: LogState, es: seq<AuditEntry>, orphan: Fact, window: nat)
    requires JsonLines(env) && BlankRejected(env) && Agrees(env, s, es) && IsFinite(orphan.confidence)
    requires var t := LogCall(env, s, orphan, SyncFailed);
             t.current != [] && WindowReaches(t.current, window, LastLineStart(t.current))
    ensures var t := LogCall(env, s, orphan, SyncFailed);
            && OpenCall(env, t.current, window).Ok?
            && Agrees(env, t.(prevHash := OpenCall(env, t.current, window).value.prevHash),
                      es + [Stamp(env, s.prevHash, orphan)])
  {
    var kept := LogCall(env, s, orphan, Synced);
    LogAgrees(env, s, es, orphan);
    RestartRecovers(env, kept, es + [Stamp(env, s.prevHash, orphan)], window);
    assert LogCall(env, s, orphan, SyncFailed).(prevHash := kept.prevHash) == kept;
  }

  /** A stamped line on its own: accepted from the chain start, or out of place. */
  lemma StampedLineAlone(env: AuditEnv, prev: string, fact: Fact)
    requires JsonLines(env) && IsLowerHexHash(prev) && IsFinite(fact.confidence)
    ensures Verify(env, LogLine(env, prev, fact)) ==
            if prev == ZeroHash() then Ok(Report(1, Stamp(env, prev, fact).entryHash))
            else Err(VerifyError(1, PrevMismatch))
  {
    var line := env.show(Stamp(env, prev, fact));
    StampedLine(env, prev, fact);
    assert line + [NEWLINE] == line + [NEWLINE] + [];
    VerifyStep(env, line, [], ZeroHash(), 0);
  }

  lemma FirstAfterRotation(env: AuditEnv, s: LogState, fact: Fact)
    ensures var t := LogCall(env, ReopenCall(s, Replaced([])), fact, Synced);
            && t.current == LogLine(env, s.prevHash, fact)
            && t.prevHash == Stamp(env, s.prevHash, fact).entryHash
  {
  }

  lemma RotatedAgrees(env: AuditEnv, s: LogState, es: seq<AuditEntry>, fact: Fact)
    requires JsonLines(env) && Agrees(env, s, es) && IsFinite(fact.confidence)
    ensures Agrees(env, LogCall(env, ReopenCall(s, Replaced([])), fact, Synced), es + [Stamp(env, s.prevHash, fact)])
  {
    ReopenAgrees(env, s, es, Replaced([]));
    LogAgrees(env, ReopenCall(s, Replaced([])), es, fact);
  }

  /** The report on the open segment alone after a rotation and one record. */
  function AloneReport(env: AuditEnv, s: LogState, fact: Fact): Result<Report, VerifyError> {
    if s.prevHash == ZeroHash() then Ok(Report(1, Stamp(env, s.prevHash, fact).entryHash))
    else Err(VerifyError(1, PrevMismatch))
  }

  /** A rotated segment on its own.  The first record after a rotation verifies
      alone only if nothing was logged before it; otherwise the open file by
      itself is rejected at line 1, although the joined log is fine. */
  lemma SegmentAlone(env: AuditEnv, s: LogState, es: seq<AuditEntry>, fact: Fact)
    requires JsonLines(env) && Agrees(env, s, es) && IsFinite(fact.confidence)
    ensures var t := LogCall(env, ReopenCall(s, Replaced([])), fact, Synced);
            && Verify(env, t.current) == AloneReport(env, s, fact)
            && Agrees(env, t, es + [Stamp(env, s.prevHash, fact)])
  {
    StampedLineAlone(env, s.prevHash, fact);
    FirstAfterRotation(env, s, fact);
    RotatedAgrees(env, s, es, fact);
  }

  lemma UnreadableOnlyLine(env: AuditEnv, line: seq<byte>, window: nat)
    requires NEWLINE !in line && !Blank(line) && env.parse(line) == None
    ensures Verify(env, line + [NEWLINE]) == Err(VerifyError(1, Malformed))
    ensures LastEntryHash(env, line + [NEWLINE], window).Err?
  {
    var log := line + [NEWLINE];
    assert log == line + [NEWLINE] + [];
    VerifyStep(env, line, [], ZeroHash(), 0);
    OnlyLineIsLast(line);
    assert log[0..|line|] == line;
    RecoveryExact(env, log, window, 0, |line|);
  }

  /** A concrete record the writer accepts and nobody can read back: confidence
      plus infinity.  The log then fails verification at line 1 and the next
      start-up refuses it. */
  lemma InfiniteConfidenceBreaksLog(env: AuditEnv, fact: Fact, window: nat)
    requires JsonLines(env) && fact.confidence == INFINITY_BITS
    ensures var s := LogCall(env, LogState([], [], ZeroHash()), fact, Synced);
            && Verify(env, Joined(s)) == Err(VerifyError(1, Malformed))
            && OpenCall(env, Joined(s), window).Err?
  {
    var line := env.show(Stamp(env, ZeroHash(), fact));
    StampedLine(env, ZeroHash(), fact);
    assert LineCodec(env, Stamp(env, ZeroHash(), fact));
    assert Joined(LogCall(env, LogState([], [], ZeroHash()), fact, Synced)) == line + [NEWLINE];
    UnreadableOnlyLine(env, line, window);
  }

  lemma OnlyLineIsLast(line: seq<byte>)
    requires NEWLINE !in line && !Blank(line)
    ensures LastNonBlankAt(line + [NEWLINE], 0, |line|)
  {
    var log := line + [NEWLINE];
    var i :| 0 <= i < |line| && !IsWhitespace(line[i]);
    assert log[i] == line[i];
    assert forall j :: 0 <= j < |line| ==> log[j] == line[j];
  }
}
