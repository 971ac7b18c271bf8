/** Recovering the chain head at start-up from a bounded tail of the log
    (`last_entry_hash`, `last_complete_line` and `recover_entry_hash` in
    crates/ola-core/src/infrastructure/audit/logger.rs), compared with the full
    scan of the verifier. */
module Recovery {
  import opened Bytes
  import opened Entry
  import opened Chain

  const AUDIT_RECOVERY_WINDOW_BYTES: nat := 1024 * 1024

  /** `is_ascii_whitespace` */
  predicate IsWhitespace(b: byte) {
    b == 32 || b == 9 || b == 10 || b == 12 || b == 13
  }

  predicate Blank(s: seq<byte>) {
    forall i :: 0 <= i < |s| ==> IsWhitespace(s[i])
  }

  datatype RecoverError = NoCompleteEntry | BadFinalEntry(kind: LineError)

  // -------------------------------------------------------- the code's steps

  /** Bytes `lo` up to `hi` of `s` are all whitespace. */
  predicate BlankIn(s: seq<byte>, lo: nat, hi: nat)
    requires lo <= hi <= |s|
  {
    forall i :: lo <= i < hi ==> IsWhitespace(s[i])
  }

  /** The start of the line that ends at `i`, looking back no further than `q`. */
  function LineStart(s: seq<byte>, q: nat, i: nat): (k: nat)
    requires q <= i <= |s|
    ensures q <= k <= i
    ensures k == q || s[k - 1] == NEWLINE
    ensures forall j :: k <= j < i ==> s[j] != NEWLINE
    decreases i
  {
    if i == q || s[i - 1] == NEWLINE then i else LineStart(s, q, i - 1)
  }

  /** `tail.split(newline).rev().find(not blank)` for the tail of `s` that starts
      at `q`, from the line that ends at `hi` backwards. */
  function FindLastNonBlank(s: seq<byte>, q: nat, hi: nat): (r: Option<(nat, nat)>)
    requires q <= hi <= |s|
    ensures r.Some? ==> q <= r.value.0 <= r.value.1 <= hi
    decreases hi
  {
    var lo := LineStart(s, q, hi);
    if !BlankIn(s, lo, hi) then Some((lo, hi))
    else if lo == q then None
    else FindLastNonBlank(s, q, lo - 1)
  }

  /** `last_complete_line` of the tail that starts at `q`. */
  function LastCompleteLine(s: seq<byte>, q: nat): (r: Option<(nat, nat)>)
    requires q <= |s|
    ensures r.Some? ==> q <= r.value.0 <= r.value.1 <= |s|
  {
    if q < |s| && s[|s| - 1] != NEWLINE then None else FindLastNonBlank(s, q, |s|)
  }

  function RecoverEntryHash(env: AuditEnv, line: seq<byte>): Result<string, RecoverError> {
    match env.parse(line)
    case None => Err(BadFinalEntry(Malformed))
    case Some(e) =>
      if !IsLowerHexHash(e.prevHash) then Err(BadFinalEntry(BadPrevHash))
      else if !IsLowerHexHash(e.entryHash) then Err(BadFinalEntry(BadEntryHash))
      else if e.entryHash != env.seal(Bare(e)) then Err(BadFinalEntry(HashMismatch))
      else Ok(e.entryHash)
  }

  /** Where the part of the file that recovery looks at begins: the start of the
      file, or just after the first newline in the window. */
  function TailStart(file: seq<byte>, window: nat): (q: nat)
    ensures q <= |file|
  {
    if |file| <= window then 0
    else
      var p := NewlineFrom(file, |file| - window);
      if p < |file| then p + 1 else |file|
  }

  function LastEntryHash(env: AuditEnv, file: seq<byte>, window: nat): Result<string, RecoverError> {
    if file == [] then Ok(ZeroHash())
    else
      var q := TailStart(file, window);
      match LastCompleteLine(file, q)
      case Some((lo, hi)) => RecoverEntryHash(env, file[lo..hi])
      case None => if |file| <= window && BlankIn(file, q, |file|) then Ok(ZeroHash()) else Err(NoCompleteEntry)
  }

  // ------------------------------------------- the last line, independently

  /** `s[lo..hi]` is a line of `s` that is not blank, and all that follows is. */
  ghost predicate LastNonBlankAt(s: seq<byte>, lo: nat, hi: nat) {
    && lo <= hi <= |s|
    && (lo == 0 || s[lo - 1] == NEWLINE)
    && (hi == |s| || s[hi] == NEWLINE)
    && (forall i :: lo <= i < hi ==> s[i] != NEWLINE)
    && !BlankIn(s, lo, hi)
    && BlankIn(s, hi, |s|)
  }

  lemma LastNonBlankUnique(s: seq<byte>, lo: nat, hi: nat, lo': nat, hi': nat)
    requires LastNonBlankAt(s, lo, hi) && LastNonBlankAt(s, lo', hi')
    ensures lo == lo' && hi == hi'
  {
    var i :| lo <= i < hi && !IsWhitespace(s[i]);
    var j :| lo' <= j < hi' && !IsWhitespace(s[j]);
    assert i < hi' && j < hi;
  }

  /** Searching backwards finds the last line that is not blank, and nothing
      exactly when there is none. */
  lemma {:induction false} FindIsLast(s: seq<byte>, q: nat, hi: nat)
    requires q <= hi <= |s| && (q == 0 || s[q - 1] == NEWLINE)
    requires (hi == |s| || s[hi] == NEWLINE) && BlankIn(s, hi, |s|)
    ensures match FindLastNonBlank(s, q, hi)
            case None => BlankIn(s, q, |s|)
            case Some((a, b)) => LastNonBlankAt(s, a, b)
    decreases hi
  {
    var lo := LineStart(s, q, hi);
    if BlankIn(s, lo, hi) && lo != q {
      assert IsWhitespace(s[lo - 1]);
      FindIsLast(s, q, lo - 1);
    }
  }

  // ----------------------------------------------------- recovery, exactly

  /** Whether the window holds the whole file, or at least the newline that
      precedes position `lo`. */
  predicate WindowReaches(file: seq<byte>, window: nat, lo: nat) {
    |file| <= window || |file| - window < lo
  }

  lemma TailAtLineStart(file: seq<byte>, window: nat)
    ensures var q := TailStart(file, window);
            q == 0 || q == |file| || file[q - 1] == NEWLINE
  {
  }

  lemma TailReaches(file: seq<byte>, window: nat, lo: nat, hi: nat)
    requires LastNonBlankAt(file, lo, hi)
    ensures WindowReaches(file, window, lo) ==> TailStart(file, window) <= lo
    ensures !WindowReaches(file, window, lo) ==> TailStart(file, window) >= hi
  {
    if |file| > window {
      var p := NewlineFrom(file, |file| - window);
      assert lo > 0 ==> file[lo - 1] == NEWLINE;
    }
  }

  /** The line recovery settles on, and when it settles on one. */
  lemma TailLine(file: seq<byte>, window: nat, lo: nat, hi: nat)
    requires LastNonBlankAt(file, lo, hi) && file[|file| - 1] == NEWLINE
    ensures LastCompleteLine(file, TailStart(file, window)) ==
            if WindowReaches(file, window, lo) then Some((lo, hi)) else None
  {
    var q := TailStart(file, window);
    TailAtLineStart(file, window);
    TailReaches(file, window, lo, hi);
    FindIsLast(file, q, |file|);
    var found := FindLastNonBlank(file, q, |file|);
    if found.Some? {
      LastNonBlankUnique(file, found.value.0, found.value.1, lo, hi);
    }
  }

  /** Exactly when recovery succeeds on a blank file: it returns the zero hash
      when the file fits in the window. */
  lemma RecoveryOfBlank(env: AuditEnv, file: seq<byte>, window: nat)
    requires BlankIn(file, 0, |file|)
    ensures LastEntryHash(env, file, window) ==
            if file == [] || |file| <= window then Ok(ZeroHash()) else Err(NoCompleteEntry)
  {
    if file != [] {
      var q := TailStart(file, window);
      TailAtLineStart(file, window);
      if LastCompleteLine(file, q).Some? {
        FindIsLast(file, q, |file|);
        assert false;
      }
    }
  }

  /** Exactly when recovery succeeds on any other file, and with what: the
      recomputed hash of the last line of the whole file that is not blank,
      provided the file ends in a newline and the window reaches that line. */
  lemma RecoveryExact(env: AuditEnv, file: seq<byte>, window: nat, lo: nat, hi: nat)
    requires LastNonBlankAt(file, lo, hi)
    ensures LastEntryHash(env, file, window) ==
            if file[|file| - 1] == NEWLINE && WindowReaches(file, window, lo) then RecoverEntryHash(env, file[lo..hi])
            else Err(NoCompleteEntry)
  {
    var i :| lo <= i < hi && !IsWhitespace(file[i]);
    if file[|file| - 1] == NEWLINE {
      TailLine(file, window, lo, hi);
    } else {
      assert |file| <= window ==> !BlankIn(file, 0, |file|);
      assert LastCompleteLine(file, TailStart(file, window)).None? by {
        if TailStart(file, window) == |file| {
          FindNothingAtEnd(file);
        }
      }
    }
  }

  lemma FindNothingAtEnd(s: seq<byte>)
    ensures FindLastNonBlank(s, |s|, |s|) == None
  {
  }

  /** Whatever recovery returns is justified by the whole file. */
  lemma RecoverySound(env: AuditEnv, file: seq<byte>, window: nat)
    requires LastEntryHash(env, file, window).Ok?
    ensures if BlankIn(file, 0, |file|) then LastEntryHash(env, file, window) == Ok(ZeroHash())
            else exists lo: nat, hi: nat ::
                   && LastNonBlankAt(file, lo, hi)
                   && LastEntryHash(env, file, window) == RecoverEntryHash(env, file[lo..hi])
  {
    if BlankIn(file, 0, |file|) {
      RecoveryOfBlank(env, file, window);
    } else {
      FindIsLast(file, 0, |file|);
      var (lo, hi) := FindLastNonBlank(file, 0, |file|).value;
      RecoveryExact(env, file, window, lo, hi);
      assert LastNonBlankAt(file, lo, hi);
    }
  }

  // ------------------------------------------------ agreement with verify

  /** Blank lines are not JSON objects. */
  ghost predicate BlankRejected(env: AuditEnv) {
    forall line :: Blank(line) ==> env.parse(line) == None
  }

  /** Where the last line of a newline-terminated log begins. */
  function LastLineStart(log: seq<byte>): (lo: nat)
    requires log != []
    ensures lo <= |log| - 1
  {
    LineStart(log, 0, |log| - 1)
  }

  lemma {:induction false} VerifiedComplete(env: AuditEnv, log: seq<byte>, prev: string, n: nat)
    requires VerifyFrom(env, log, prev, n).Ok?
    ensures Complete(log)
    decreases |log|
  {
    if log != [] {
      var line, rest := SplitLine(log);
      VerifyStep(env, line, rest, prev, n);
      VerifiedComplete(env, rest, CheckLine(env, line, prev).value, n + 1);
    }
  }

  lemma LastLineSplit(log: seq<byte>)
    requires log != [] && Complete(log)
    ensures var lo, hi := LastLineStart(log), |log| - 1;
            && log == log[..lo] + (log[lo..hi] + [NEWLINE] + [])
            && Complete(log[..lo])
            && NEWLINE !in log[lo..hi]
  {
  }

  lemma LastOfTwo(env: AuditEnv, front: seq<byte>, line: seq<byte>, prev: string, n: nat)
    requires Complete(front) && NEWLINE !in line && VerifyFrom(env, front + (line + [NEWLINE] + []), prev, n).Ok?
    ensures RecoverEntryHash(env, line) == Ok(VerifyFrom(env, front + (line + [NEWLINE] + []), prev, n).value.lastHash)
  {
    VerifyAppend(env, front, line + [NEWLINE] + [], prev, n);
    var report := VerifyFrom(env, front, prev, n).value;
    VerifyStep(env, line, [], report.lastHash, report.entries);
  }

  /** The verifier's last hash is the hash on the last line, wherever in the chain
      the segment starts. */
  lemma VerifiedLastLine(env: AuditEnv, log: seq<byte>, prev: string, n: nat)
    requires log != [] && Complete(log) && VerifyFrom(env, log, prev, n).Ok?
    ensures RecoverEntryHash(env, log[LastLineStart(log)..|log| - 1]) ==
            Ok(VerifyFrom(env, log, prev, n).value.lastHash)
  {
    LastLineSplit(log);
    LastOfTwo(env, log[..LastLineStart(log)], log[LastLineStart(log)..|log| - 1], prev, n);
  }

  lemma LastLineNotBlank(env: AuditEnv, log: seq<byte>)
    requires BlankRejected(env) && log != [] && Complete(log)
    requires env.parse(log[LastLineStart(log)..|log| - 1]).Some?
    ensures LastNonBlankAt(log, LastLineStart(log), |log| - 1)
  {
    var lo, hi := LastLineStart(log), |log| - 1;
    var line := log[lo..hi];
    assert !Blank(line);
    var i :| 0 <= i < |line| && !IsWhitespace(line[i]);
    assert !IsWhitespace(log[lo + i]);
  }

  lemma RecoveryOfLastLine(env: AuditEnv, log: seq<byte>, window: nat)
    requires BlankRejected(env) && log != [] && Complete(log)
    requires RecoverEntryHash(env, log[LastLineStart(log)..|log| - 1]).Ok?
    ensures LastEntryHash(env, log, window) ==
            if WindowReaches(log, window, LastLineStart(log)) then
              RecoverEntryHash(env, log[LastLineStart(log)..|log| - 1])
            else Err(NoCompleteEntry)
  {
    LastLineNotBlank(env, log);
    RecoveryExact(env, log, window, LastLineStart(log), |log| - 1);
  }

  /** The bounded tail agrees with the full scan.  On a non-empty segment that the
      verifier accepts after hash `prev`, recovery returns exactly the verifier's
      last hash when the file fits in the window or the window holds the last line
      and the newline before it, and otherwise refuses to start. */
  lemma RecoveryAgreesWithVerify(env: AuditEnv, log: seq<byte>, prev: string, n: nat, window: nat)
    requires BlankRejected(env) && log != [] && VerifyFrom(env, log, prev, n).Ok?
    ensures LastEntryHash(env, log, window) ==
            if WindowReaches(log, window, LastLineStart(log)) then Ok(VerifyFrom(env, log, prev, n).value.lastHash)
            else Err(NoCompleteEntry)
  {
    VerifiedComplete(env, log, prev, n);
    VerifiedLastLine(env, log, prev, n);
    RecoveryOfLastLine(env, log, window);
  }

  // -------------------------------------------------- where the two disagree

  lemma BlankFirstLine(blank: seq<byte>)
    requires Blank(blank) && blank != [] && Complete(blank)
    ensures LineEnd(blank) < |blank| && Blank(blank[..LineEnd(blank)])
  {
    CompleteHasLine(blank);
  }

  lemma BlankSuffixSkipped(log: seq<byte>, blank: seq<byte>, lo: nat)
    requires log != [] && LastNonBlankAt(log, lo, |log| - 1) && Complete(log) && Blank(blank)
    ensures LastNonBlankAt(log + blank, lo, |log| - 1)
  {
    var all, hi := log + blank, |log| - 1;
    var i :| lo <= i < hi && !IsWhitespace(log[i]);
    assert !IsWhitespace(all[i]);
    forall j | hi <= j < |all| ensures IsWhitespace(all[j]) {
      if j >= |log| {
        assert all[j] == blank[j - |log|];
      }
    }
  }

  lemma BlankSuffixRejected(env: AuditEnv, log: seq<byte>, blank: seq<byte>)
    requires BlankRejected(env) && Verify(env, log).Ok? && Blank(blank) && Complete(blank) && blank != []
    ensures Verify(env, log + blank) == Err(VerifyError(Verify(env, log).value.entries + 1, Malformed))
  {
    VerifiedComplete(env, log, ZeroHash(), 0);
    VerifyAppend(env, log, blank, ZeroHash(), 0);
    BlankFirstLine(blank);
    assert CheckLine(env, blank[..LineEnd(blank)], Verify(env, log).value.lastHash) == Err(Malformed);
  }

  lemma BlankSuffixRecovers(env: AuditEnv, log: seq<byte>, blank: seq<byte>, window: nat)
    requires BlankRejected(env) && log != [] && Verify(env, log).Ok? && Blank(blank) && Complete(blank)
    ensures LastEntryHash(env, log + blank, window) ==
            if WindowReaches(log + blank, window, LastLineStart(log)) then Ok(Verify(env, log).value.lastHash)
            else Err(NoCompleteEntry)
  {
    var lo, hi := LastLineStart(log), |log| - 1;
    VerifiedComplete(env, log, ZeroHash(), 0);
    VerifiedLastLine(env, log, ZeroHash(), 0);
    LastLineNotBlank(env, log);
    BlankSuffixSkipped(log, blank, lo);
    RecoveryExact(env, log + blank, window, lo, hi);
    assert (log + blank)[lo..hi] == log[lo..hi];
    assert (log + blank)[|log + blank| - 1] == NEWLINE;
  }

  /** Blank lines at the end.  Behind a non-empty verified log, a blank suffix of
      whole lines is refused by the verifier, at its first line, exactly when it is
      not empty; recovery still returns the old last hash exactly when the window
      reaches back to the last entry. */
  lemma BlankSuffixDisagrees(env: AuditEnv, log: seq<byte>, blank: seq<byte>, window: nat)
    requires BlankRejected(env) && log != [] && Verify(env, log).Ok? && Blank(blank) && Complete(blank)
    ensures Verify(env, log + blank) ==
            if blank == [] then Verify(env, log) else Err(VerifyError(Verify(env, log).value.entries + 1, Malformed))
    ensures LastEntryHash(env, log + blank, window) ==
            if WindowReaches(log + blank, window, LastLineStart(log)) then Ok(Verify(env, log).value.lastHash)
            else Err(NoCompleteEntry)
  {
    if blank == [] {
      assert log + blank == log;
    } else {
      BlankSuffixRejected(env, log, blank);
    }
    BlankSuffixRecovers(env, log, blank, window);
  }
}
