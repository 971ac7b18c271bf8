/** The hash chain and its verifier
    (crates/ola-core/src/infrastructure/audit/verifier.rs).  SHA-256 and the
    JSON line codec are arbitrary functions; nothing here assumes that the
    digest is collision free.  Binding results are therefore stated as "equal,
    or here is a collision". */
module Chain {
  import opened Bytes
  import opened Entry

  /** The three operations the chain is built on: the hash of an entry, and one
      log line printed and parsed (`serde_json` plus the UTF-8 check).  All the
      chain reasoning below is about arbitrary such operations. */
  datatype AuditEnv = AuditEnv(
    seal: AuditEntry -> HexHash,
    show: AuditEntry -> seq<byte>,
    parse: seq<byte> -> Option<AuditEntry>)

  /** `hex_sha256(&entry.hash_payload_v1())` */
  function EntryHash(digest: seq<byte> -> Bytes32, e: AuditEntry): HexHash {
    Hex(digest(Payload(e)))
  }

  /** The daemon's own environment: an entry hash is the lower-case hex of the
      digest of the version 1 payload. */
  function Environment(
    digest: seq<byte> -> Bytes32, show: AuditEntry -> seq<byte>, parse: seq<byte> -> Option<AuditEntry>): AuditEnv
  {
    AuditEnv((e: AuditEntry) => EntryHash(digest, e), show, parse)
  }

  /** The entry as it is when its hash is taken: the hash field is empty. */
  function Bare(e: AuditEntry): AuditEntry {
    e.(entryHash := "")
  }

  datatype LineError = Incomplete | Malformed | BadPrevHash | BadEntryHash | PrevMismatch | HashMismatch

  datatype VerifyError = VerifyError(line: nat, kind: LineError)

  datatype Report = Report(entries: nat, lastHash: string)

  /** The checks made on one complete line, given the hash it must extend. */
  function CheckLine(env: AuditEnv, line: seq<byte>, prev: string): Result<string, LineError> {
    match env.parse(line)
    case None => Err(Malformed)
    case Some(e) =>
      if !IsLowerHexHash(e.prevHash) then Err(BadPrevHash)
      else if !IsLowerHexHash(e.entryHash) then Err(BadEntryHash)
      else if e.prevHash != prev then Err(PrevMismatch)
      else if e.entryHash != env.seal(Bare(e)) then Err(HashMismatch)
      else Ok(e.entryHash)
  }

  function NewlineFrom(s: seq<byte>, i: nat): (k: nat)
    requires i <= |s|
    ensures i <= k <= |s|
    ensures forall j :: i <= j < k ==> s[j] != NEWLINE
    ensures k < |s| ==> s[k] == NEWLINE
    decreases |s| - i
  {
    if i == |s| || s[i] == NEWLINE then i else NewlineFrom(s, i + 1)
  }

  /** The index of the first newline, or the length when there is none. */
  function LineEnd(s: seq<byte>): (k: nat)
    ensures k <= |s|
    ensures forall j :: 0 <= j < k ==> s[j] != NEWLINE
    ensures k < |s| ==> s[k] == NEWLINE
  {
    NewlineFrom(s, 0)
  }

  /** The verifier as a recursion over the remaining bytes. */
  function VerifyFrom(env: AuditEnv, log: seq<byte>, prev: string, entries: nat): Result<Report, VerifyError>
    decreases |log|
  {
    if log == [] then Ok(Report(entries, prev))
    else
      var k := LineEnd(log);
      if k == |log| then Err(VerifyError(entries + 1, Incomplete))
      else
        match CheckLine(env, log[..k], prev)
        case Err(kind) => Err(VerifyError(entries + 1, kind))
        case Ok(h) => VerifyFrom(env, log[k + 1..], h, entries + 1)
  }

  function Verify(env: AuditEnv, log: seq<byte>): Result<Report, VerifyError> {
    VerifyFrom(env, log, ZeroHash(), 0)
  }

  // ------------------------------------------------- the imperative verifier

  /** `read_until(b'\n', &mut buf)` from position `pos`. */
  method ReadUntilNewline(log: seq<byte>, pos: nat) returns (buf: seq<byte>)
    requires pos <= |log|
    ensures IsRead(log, pos, buf)
  {
    buf := [];
    ghost var k := LineEnd(log[pos..]);
    while pos + |buf| < |log| && (buf == [] || buf[|buf| - 1] != NEWLINE)
      invariant |buf| <= |log| - pos && buf == log[pos..pos + |buf|]
      invariant |buf| <= k + 1
      invariant |buf| == k + 1 <==> buf != [] && buf[|buf| - 1] == NEWLINE
      decreases |log| - pos - |buf|
    {
      var i := |buf|;
      buf := buf + [log[pos + i]];
      assert log[pos..][i] == log[pos + i];
      assert i < k ==> log[pos..][..k][i] == log[pos + i];
    }
  }

  /** `buf` is what one read from position `pos` returns. */
  ghost predicate IsRead(log: seq<byte>, pos: nat, buf: seq<byte>)
    requires pos <= |log|
  {
    && |buf| <= |log| - pos && buf == log[pos..pos + |buf|]
    && var k := LineEnd(log[pos..]);
       |buf| == if k == |log| - pos then k else k + 1
  }

  /** Verifying from position `pos` on is all that is left of the run. */
  ghost predicate Remains(
    env: AuditEnv, log: seq<byte>, pos: nat, prev: string, n: nat, outcome: Result<Report, VerifyError>)
  {
    pos <= |log| && outcome == VerifyFrom(env, log[pos..], prev, n)
  }

  lemma StartRemains(env: AuditEnv, log: seq<byte>)
    ensures Remains(env, log, 0, ZeroHash(), 0, Verify(env, log))
  {
    assert log[0..] == log;
  }

  /** What a read from position `pos` means for the rest of the run. */
  lemma ReadLine(
    env: AuditEnv, log: seq<byte>, pos: nat, buf: seq<byte>, prev: string, n: nat, outcome: Result<Report, VerifyError>)
    requires Remains(env, log, pos, prev, n, outcome) && IsRead(log, pos, buf)
    ensures if buf == [] then outcome == Ok(Report(n, prev))
            else if buf[|buf| - 1] != NEWLINE then outcome == Err(VerifyError(n + 1, Incomplete))
            else match CheckLine(env, buf[..|buf| - 1], prev)
                 case Err(kind) => outcome == Err(VerifyError(n + 1, kind))
                 case Ok(h) => Remains(env, log, pos + |buf|, h, n + 1, outcome)
  {
    var rest, m := log[pos..], |buf| - 1;
    var k := LineEnd(rest);
    if buf != [] {
      assert rest[m] == buf[m];
      if k < |rest| {
        assert buf[..m] == rest[..k];
        assert log[pos + |buf|..] == rest[k + 1..];
      }
    }
  }

  /** `hex_sha256(&entry.hash_payload_v1())` as the code computes it: the payload
      is pushed into a buffer, digested and printed digit by digit. */
  method ComputeEntryHash(digest: seq<byte> -> Bytes32, entry: AuditEntry) returns (hash: string)
    ensures hash == EntryHash(digest, entry)
  {
    var payload := HashPayloadV1(entry);
    hash := EncodeHex(digest(payload));
  }

  /** The checks of one loop iteration, in the order the code makes them. */
  method CheckBuffer(env: AuditEnv, buf: seq<byte>, prevHash: string) returns (r: Result<string, LineError>)
    ensures r == CheckLine(env, buf, prevHash)
  {
    var parsed := env.parse(buf);
    if parsed.None? {
      return Err(Malformed);
    }
    var entry := parsed.value;
    if !IsLowerHexHash(entry.prevHash) {
      return Err(BadPrevHash);
    }
    if !IsLowerHexHash(entry.entryHash) {
      return Err(BadEntryHash);
    }
    if entry.prevHash != prevHash {
      return Err(PrevMismatch);
    }
    var entryHash := entry.entryHash;
    entry := entry.(entryHash := "");
    if entryHash != env.seal(entry) {
      return Err(HashMismatch);
    }
    r := Ok(entryHash);
  }

  /** `verify_reader`: clears and refills `buf` line by line, carrying the last
      hash, the entry count and the line number. */
  method VerifyReader(env: AuditEnv, log: seq<byte>) returns (r: Result<Report, VerifyError>)
    ensures r == Verify(env, log)
  {
    var prevHash, entries, lineNo, pos := ZeroHash(), 0, 0, 0;
    ghost var outcome := Verify(env, log);
    StartRemains(env, log);
    while true
      invariant lineNo == entries && Remains(env, log, pos, prevHash, entries, outcome)
      decreases |log| - pos
    {
      var buf := ReadUntilNewline(log, pos);
      ReadLine(env, log, pos, buf, prevHash, entries, outcome);
      if |buf| == 0 {
        break;
      }
      lineNo := lineNo + 1;
      if buf[|buf| - 1] != NEWLINE {
        return Err(VerifyError(lineNo, Incomplete));
      }
      pos := pos + |buf|;
      buf := buf[..|buf| - 1];
      var checked := CheckBuffer(env, buf, prevHash);
      if checked.Err? {
        return Err(VerifyError(lineNo, checked.error));
      }
      prevHash := checked.value;
      entries := entries + 1;
    }
    r := Ok(Report(entries, prevHash));
  }

  // ------------------------------------------------ what acceptance means

  /** An entry whose own hashes are well formed and whose entry hash is the
      digest of its payload. */
  ghost predicate Sealed(env: AuditEnv, e: AuditEntry) {
    IsLowerHexHash(e.prevHash) && e.entryHash == env.seal(Bare(e))
  }

  /** The hash that entry `k` must carry as its `prevHash`. */
  ghost function HashBefore(first: string, es: seq<AuditEntry>, k: nat): string
    requires k <= |es|
  {
    if k == 0 then first else es[k - 1].entryHash
  }

  ghost function LastHash(first: string, es: seq<AuditEntry>): string {
    HashBefore(first, es, |es|)
  }

  ghost predicate LinkAt(env: AuditEnv, first: string, es: seq<AuditEntry>, k: nat)
    requires k < |es|
  {
    Sealed(env, es[k]) && es[k].prevHash == HashBefore(first, es, k)
  }

  /** Every entry is sealed and points at the one before it. */
  ghost predicate Linked(env: AuditEnv, first: string, es: seq<AuditEntry>) {
    forall k: nat :: k < |es| ==> LinkAt(env, first, es, k)
  }

  /** The bytes of a log whose lines are `lines`, each ended by a newline. */
  ghost function Unlines(lines: seq<seq<byte>>): seq<byte> {
    if lines == [] then [] else lines[0] + [NEWLINE] + Unlines(lines[1..])
  }

  ghost predicate ParsesAt(env: AuditEnv, lines: seq<seq<byte>>, es: seq<AuditEntry>, k: nat)
    requires k < |lines| == |es|
  {
    NEWLINE !in lines[k] && env.parse(lines[k]) == Some(es[k])
  }

  /** `log` is a list of complete lines that parse, in order, to `es`. */
  ghost predicate Holds(env: AuditEnv, log: seq<byte>, lines: seq<seq<byte>>, es: seq<AuditEntry>) {
    && |lines| == |es|
    && log == Unlines(lines)
    && forall k: nat :: k < |lines| ==> ParsesAt(env, lines, es, k)
  }

  lemma LineEndOf(line: seq<byte>, rest: seq<byte>)
    requires NEWLINE !in line
    ensures LineEnd(line + [NEWLINE] + rest) == |line|
  {
    var s := line + [NEWLINE] + rest;
    assert s[|line|] == NEWLINE;
    assert forall i :: 0 <= i < |line| ==> s[i] == line[i];
  }

  /** One accepted line in front of a log. */
  lemma VerifyStep(env: AuditEnv, line: seq<byte>, rest: seq<byte>, prev: string, n: nat)
    requires NEWLINE !in line
    ensures VerifyFrom(env, line + [NEWLINE] + rest, prev, n) ==
            match CheckLine(env, line, prev)
            case Err(kind) => Err(VerifyError(n + 1, kind))
            case Ok(h) => VerifyFrom(env, rest, h, n + 1)
  {
    LineEndOf(line, rest);
    var s := line + [NEWLINE] + rest;
    assert s[..|line|] == line && s[|line| + 1..] == rest;
  }

  lemma LinkedCons(env: AuditEnv, first: string, e: AuditEntry, es: seq<AuditEntry>)
    ensures Linked(env, first, [e] + es) <==> Sealed(env, e) && e.prevHash == first && Linked(env, e.entryHash, es)
    ensures LastHash(first, [e] + es) == LastHash(e.entryHash, es)
  {
    var fs := [e] + es;
    assert LinkAt(env, first, fs, 0) <==> Sealed(env, e) && e.prevHash == first;
    forall k: nat | k < |es| ensures LinkAt(env, first, fs, k + 1) <==> LinkAt(env, e.entryHash, es, k) {
      assert fs[k + 1] == es[k];
    }
    if Linked(env, e.entryHash, es) && LinkAt(env, first, fs, 0) {
      forall k: nat | k < |fs| ensures LinkAt(env, first, fs, k) {
        assert k > 0 ==> LinkAt(env, e.entryHash, es, k - 1);
      }
    }
  }

  lemma HoldsCons(
    env: AuditEnv, line: seq<byte>, rest: seq<byte>, lines: seq<seq<byte>>, e: AuditEntry, es: seq<AuditEntry>)
    requires NEWLINE !in line && env.parse(line) == Some(e) && Holds(env, rest, lines, es)
    ensures Holds(env, line + [NEWLINE] + rest, [line] + lines, [e] + es)
  {
    var ls, fs := [line] + lines, [e] + es;
    assert ls[1..] == lines;
    forall k: nat | k < |ls| ensures ParsesAt(env, ls, fs, k) {
      if k > 0 {
        assert ParsesAt(env, lines, es, k - 1);
      }
    }
  }

  lemma HoldsTail(env: AuditEnv, log: seq<byte>, lines: seq<seq<byte>>, es: seq<AuditEntry>)
    requires Holds(env, log, lines, es) && es != []
    ensures log == lines[0] + [NEWLINE] + Unlines(lines[1..])
    ensures NEWLINE !in lines[0] && env.parse(lines[0]) == Some(es[0])
    ensures Holds(env, Unlines(lines[1..]), lines[1..], es[1..])
  {
    assert ParsesAt(env, lines, es, 0);
    forall k: nat | k < |lines| - 1 ensures ParsesAt(env, lines[1..], es[1..], k) {
      assert ParsesAt(env, lines, es, k + 1);
    }
  }

  /** Completeness: a well-linked log is accepted with the right report. */
  lemma {:induction false} LinkedAccepted(
    env: AuditEnv, log: seq<byte>, lines: seq<seq<byte>>, es: seq<AuditEntry>, first: string, n: nat)
    requires Holds(env, log, lines, es) && Linked(env, first, es)
    ensures VerifyFrom(env, log, first, n) == Ok(Report(n + |es|, LastHash(first, es)))
    decreases |es|
  {
    if es != [] {
      var e, fs, rest := es[0], es[1..], Unlines(lines[1..]);
      assert Linked(env, e.entryHash, fs) && LastHash(first, es) == LastHash(e.entryHash, fs) by {
        assert es == [e] + fs;
        LinkedCons(env, first, e, fs);
      }
      HoldsTail(env, log, lines, es);
      LinkedAccepted(env, rest, lines[1..], fs, e.entryHash, n + 1);
      FirstLineChecks(env, lines[0], es, first);
      VerifyStep(env, lines[0], rest, first, n);
    }
  }

  lemma FirstLineChecks(env: AuditEnv, line: seq<byte>, es: seq<AuditEntry>, first: string)
    requires es != [] && Linked(env, first, es) && env.parse(line) == Some(es[0])
    ensures CheckLine(env, line, first) == Ok(es[0].entryHash)
  {
    assert LinkAt(env, first, es, 0);
  }

  lemma CheckedIsSealed(env: AuditEnv, line: seq<byte>, prev: string)
    requires CheckLine(env, line, prev).Ok?
    ensures env.parse(line).Some?
    ensures var e := env.parse(line).value;
            Sealed(env, e) && e.prevHash == prev && CheckLine(env, line, prev) == Ok(e.entryHash)
  {
  }

  /** Soundness: an accepted log is a well-linked list of complete lines. */
  lemma {:induction false} AcceptedLinked(env: AuditEnv, log: seq<byte>, first: string, n: nat)
    returns (lines: seq<seq<byte>>, es: seq<AuditEntry>)
    requires VerifyFrom(env, log, first, n).Ok?
    ensures Holds(env, log, lines, es) && Linked(env, first, es)
    ensures VerifyFrom(env, log, first, n) == Ok(Report(n + |es|, LastHash(first, es)))
    decreases |log|
  {
    if log == [] {
      lines, es := [], [];
    } else {
      var line, rest := SplitLine(log);
      VerifyStep(env, line, rest, first, n);
      CheckedIsSealed(env, line, first);
      var e := env.parse(line).value;
      var ls, fs := AcceptedLinked(env, rest, e.entryHash, n + 1);
      lines, es := [line] + ls, [e] + fs;
      HoldsCons(env, line, rest, ls, e, fs);
      LinkedCons(env, first, e, fs);
    }
  }

  /** The verifier accepts exactly the well-linked logs. */
  lemma VerifyAcceptsIffLinked(env: AuditEnv, log: seq<byte>)
    ensures Verify(env, log).Ok? <==>
            exists lines, es :: Holds(env, log, lines, es) && Linked(env, ZeroHash(), es)
  {
    if Verify(env, log).Ok? {
      var lines, es := AcceptedLinked(env, log, ZeroHash(), 0);
    }
    forall lines, es | Holds(env, log, lines, es) && Linked(env, ZeroHash(), es) ensures Verify(env, log).Ok? {
      LinkedAccepted(env, log, lines, es, ZeroHash(), 0);
    }
  }

  // --------------------------------------------------------- tamper evidence

  /** Two different hashed contents, one hash. */
  ghost predicate Collision(env: AuditEnv, e: AuditEntry, f: AuditEntry) {
    Bare(e) != Bare(f) && env.seal(Bare(e)) == env.seal(Bare(f))
  }

  ghost predicate CollisionBetween(env: AuditEnv, es: seq<AuditEntry>, fs: seq<AuditEntry>) {
    exists i, j :: 0 <= i < |es| && 0 <= j < |fs| && Collision(env, es[i], fs[j])
  }

  /** Some entry of `es` hashes to the all-zero chain start. */
  ghost predicate ZeroPreimage(env: AuditEnv, zero: string, es: seq<AuditEntry>) {
    exists i :: 0 <= i < |es| && env.seal(Bare(es[i])) == zero
  }

  /** What a forger must exhibit: a collision or a preimage of the zero hash. */
  ghost predicate Broken(env: AuditEnv, zero: string, es: seq<AuditEntry>, fs: seq<AuditEntry>) {
    CollisionBetween(env, es, fs) || ZeroPreimage(env, zero, es) || ZeroPreimage(env, zero, fs)
  }

  /** Equal entry hashes: equal entries, or a collision. */
  lemma SealedBinds(env: AuditEnv, e: AuditEntry, f: AuditEntry)
    requires Sealed(env, e) && Sealed(env, f) && e.entryHash == f.entryHash
    ensures e == f || Collision(env, e, f)
  {
    assert Bare(e) == Bare(f) ==> e == f;
  }

  /** Walking both chains back from equal hashes, nothing can differ. */
  lemma {:induction false} HashBinds(
    env: AuditEnv, zero: string, es: seq<AuditEntry>, fs: seq<AuditEntry>, m: nat, n: nat)
    requires Linked(env, zero, es) && Linked(env, zero, fs) && m <= |es| && n <= |fs|
    requires HashBefore(zero, es, m) == HashBefore(zero, fs, n)
    ensures Broken(env, zero, es, fs) || (m == n && forall k :: 0 <= k < m ==> es[k] == fs[k])
    decreases m
  {
    if m == 0 || n == 0 {
      if n > 0 {
        assert LinkAt(env, zero, fs, n - 1);
        assert env.seal(Bare(fs[n - 1])) == zero;
      } else if m > 0 {
        assert LinkAt(env, zero, es, m - 1);
        assert env.seal(Bare(es[m - 1])) == zero;
      }
    } else {
      assert LinkAt(env, zero, es, m - 1) && LinkAt(env, zero, fs, n - 1);
      SealedBinds(env, es[m - 1], fs[n - 1]);
      if es[m - 1] == fs[n - 1] {
        HashBinds(env, zero, es, fs, m - 1, n - 1);
      } else {
        assert Collision(env, es[m - 1], fs[n - 1]);
      }
    }
  }

  /** The entries of an accepted log. */
  ghost predicate VerifiedAs(env: AuditEnv, log: seq<byte>, es: seq<AuditEntry>) {
    && (exists lines :: Holds(env, log, lines, es))
    && Linked(env, ZeroHash(), es)
  }

  lemma AcceptedEntries(env: AuditEnv, log: seq<byte>)
    requires Verify(env, log).Ok?
    ensures exists es :: VerifiedAs(env, log, es) && Verify(env, log) == Ok(Report(|es|, LastHash(ZeroHash(), es)))
  {
    var lines, es := AcceptedLinked(env, log, ZeroHash(), 0);
    assert VerifiedAs(env, log, es);
  }

  /** Chain binding.  Two accepted logs with the same last hash hold the same
      entries, field by field, unless the entries themselves exhibit a digest
      collision or a preimage of the zero hash. */
  lemma ChainBinding(env: AuditEnv, log1: seq<byte>, log2: seq<byte>, es: seq<AuditEntry>, fs: seq<AuditEntry>)
    requires VerifiedAs(env, log1, es) && VerifiedAs(env, log2, fs)
    requires Verify(env, log1).Ok? && Verify(env, log2).Ok?
    requires Verify(env, log1).value.lastHash == Verify(env, log2).value.lastHash
    ensures es == fs || Broken(env, ZeroHash(), es, fs)
  {
    var ls :| Holds(env, log1, ls, es);
    var ms :| Holds(env, log2, ms, fs);
    LinkedAccepted(env, log1, ls, es, ZeroHash(), 0);
    LinkedAccepted(env, log2, ms, fs, ZeroHash(), 0);
    HashBinds(env, ZeroHash(), es, fs, |es|, |fs|);
  }

  /** The same in terms of the digest: under the daemon's own environment the
      collision is between two different payloads, and the zero preimage is a
      payload whose digest is thirty-two zero bytes. */
  ghost predicate DigestBroken(digest: seq<byte> -> Bytes32, es: seq<AuditEntry>, fs: seq<AuditEntry>) {
    || (exists i, j :: 0 <= i < |es| && 0 <= j < |fs| && DigestCollision(digest, es[i], fs[j]))
    || (exists i :: 0 <= i < |es| && DigestsToZero(digest, es[i]))
    || (exists i :: 0 <= i < |fs| && DigestsToZero(digest, fs[i]))
  }

  ghost predicate DigestCollision(digest: seq<byte> -> Bytes32, e: AuditEntry, f: AuditEntry) {
    Payload(e) != Payload(f) && digest(Payload(e)) == digest(Payload(f))
  }

  ghost predicate DigestsToZero(digest: seq<byte> -> Bytes32, e: AuditEntry) {
    digest(Payload(e)) == seq(32, _ => 0)
  }

  lemma CollisionIsDigestCollision(
    digest: seq<byte> -> Bytes32, show: AuditEntry -> seq<byte>, parse: seq<byte> -> Option<AuditEntry>,
    e: AuditEntry, f: AuditEntry)
    requires Collision(Environment(digest, show, parse), e, f)
    ensures DigestCollision(digest, e, f)
  {
    PayloadInjective(e, f);
    PayloadInjective(e, Bare(e));
    PayloadInjective(f, Bare(f));
    HexInjective(digest(Payload(e)), digest(Payload(f)));
  }

  lemma ZeroSealIsZeroDigest(
    digest: seq<byte> -> Bytes32, show: AuditEntry -> seq<byte>, parse: seq<byte> -> Option<AuditEntry>, e: AuditEntry)
    requires Environment(digest, show, parse).seal(Bare(e)) == ZeroHash()
    ensures DigestsToZero(digest, e)
  {
    PayloadInjective(e, Bare(e));
    HexOfZeros(32);
    HexInjective(digest(Payload(e)), seq(32, _ => 0));
  }

  lemma BrokenIsDigestBroken(
    digest: seq<byte> -> Bytes32, show: AuditEntry -> seq<byte>, parse: seq<byte> -> Option<AuditEntry>,
    es: seq<AuditEntry>, fs: seq<AuditEntry>)
    requires Broken(Environment(digest, show, parse), ZeroHash(), es, fs)
    ensures DigestBroken(digest, es, fs)
  {
    var env := Environment(digest, show, parse);
    if CollisionBetween(env, es, fs) {
      var i, j :| 0 <= i < |es| && 0 <= j < |fs| && Collision(env, es[i], fs[j]);
      CollisionIsDigestCollision(digest, show, parse, es[i], fs[j]);
    } else if ZeroPreimage(env, ZeroHash(), es) {
      var i :| 0 <= i < |es| && env.seal(Bare(es[i])) == ZeroHash();
      ZeroSealIsZeroDigest(digest, show, parse, es[i]);
    } else {
      var i :| 0 <= i < |fs| && env.seal(Bare(fs[i])) == ZeroHash();
      ZeroSealIsZeroDigest(digest, show, parse, fs[i]);
    }
  }

  /** Chain binding for the daemon's logs, for any digest function. */
  lemma DigestChainBinding(
    digest: seq<byte> -> Bytes32, show: AuditEntry -> seq<byte>, parse: seq<byte> -> Option<AuditEntry>,
    log1: seq<byte>, log2: seq<byte>, es: seq<AuditEntry>, fs: seq<AuditEntry>)
    requires VerifiedAs(Environment(digest, show, parse), log1, es)
    requires VerifiedAs(Environment(digest, show, parse), log2, fs)
    requires Verify(Environment(digest, show, parse), log1).Ok? && Verify(Environment(digest, show, parse), log2).Ok?
    requires Verify(Environment(digest, show, parse), log1).value.lastHash ==
             Verify(Environment(digest, show, parse), log2).value.lastHash
    ensures es == fs || DigestBroken(digest, es, fs)
  {
    ChainBinding(Environment(digest, show, parse), log1, log2, es, fs);
    if es != fs {
      BrokenIsDigestBroken(digest, show, parse, es, fs);
    }
  }

  /** Checkpoint binding.  A hash saved when the log held `es` still appears in
      a later accepted log only if that log starts with exactly `es`. */
  lemma CheckpointBinding(
    env: AuditEnv, log1: seq<byte>, log2: seq<byte>, es: seq<AuditEntry>, fs: seq<AuditEntry>, k: nat)
    requires VerifiedAs(env, log1, es) && VerifiedAs(env, log2, fs)
    requires k < |fs| && fs[k].entryHash == LastHash(ZeroHash(), es)
    ensures es <= fs || Broken(env, ZeroHash(), es, fs)
  {
    HashBinds(env, ZeroHash(), es, fs, |es|, k + 1);
  }

  // ------------------------------------------------------ logs piece by piece

  /** Empty, or ended by a newline. */
  ghost predicate Complete(log: seq<byte>) {
    log == [] || log[|log| - 1] == NEWLINE
  }

  lemma LineEndPrefix(a: seq<byte>, b: seq<byte>)
    requires LineEnd(a) < |a|
    ensures LineEnd(a + b) == LineEnd(a)
  {
    var k := LineEnd(a);
    var line := a[..k];
    assert a + b == line + [NEWLINE] + (a[k + 1..] + b);
    LineEndOf(line, a[k + 1..] + b);
  }

  lemma CompleteHasLine(a: seq<byte>)
    requires a != [] && Complete(a)
    ensures LineEnd(a) < |a| && Complete(a[LineEnd(a) + 1..])
  {
    assert a[..|a|][|a| - 1] == NEWLINE;
  }

  /** Verifying a complete log and then more: an accepted part hands its hash
      on, and a rejected part rejects the whole with the same error. */
  lemma {:induction false} VerifyAppend(env: AuditEnv, a: seq<byte>, b: seq<byte>, prev: string, n: nat)
    requires Complete(a)
    ensures VerifyFrom(env, a + b, prev, n) ==
            match VerifyFrom(env, a, prev, n)
            case Ok(report) => VerifyFrom(env, b, report.lastHash, report.entries)
            case Err(error) => Err(error)
    decreases |a|
  {
    if a == [] {
      assert a + b == b;
    } else {
      CompleteHasLine(a);
      LineEndPrefix(a, b);
      var k := LineEnd(a);
      assert (a + b)[..k] == a[..k] && (a + b)[k + 1..] == a[k + 1..] + b;
      var checked := CheckLine(env, a[..k], prev);
      if checked.Ok? {
        VerifyAppend(env, a[k + 1..], b, checked.value, n + 1);
      }
    }
  }

  lemma SplitLine(log: seq<byte>) returns (line: seq<byte>, tail: seq<byte>)
    requires LineEnd(log) < |log|
    ensures line == log[..LineEnd(log)] && NEWLINE !in line
    ensures log == line + [NEWLINE] + tail && |tail| < |log|
  {
    var k := LineEnd(log);
    line, tail := log[..k], log[k + 1..];
  }

  /** `error` is what is wrong with the first line of `rest` after hash `last`. */
  ghost predicate Culprit(env: AuditEnv, rest: seq<byte>, last: string, kind: LineError) {
    && rest != []
    && if LineEnd(rest) == |rest| then kind == Incomplete
       else CheckLine(env, rest[..LineEnd(rest)], last) == Err(kind)
  }

  /** `good` is accepted and `rest` begins with the line that `error` reports. */
  ghost predicate LocatedAt(
    env: AuditEnv, good: seq<byte>, rest: seq<byte>, last: string, prev: string, n: nat, error: VerifyError)
  {
    && error.line > n
    && VerifyFrom(env, good, prev, n) == Ok(Report(error.line - 1, last))
    && Culprit(env, rest, last, error.kind)
  }

  lemma LocatedHere(env: AuditEnv, log: seq<byte>, prev: string, n: nat)
    requires VerifyFrom(env, log, prev, n).Err?
    requires LineEnd(log) == |log| || CheckLine(env, log[..LineEnd(log)], prev).Err?
    ensures LocatedAt(env, [], log, prev, prev, n, VerifyFrom(env, log, prev, n).error)
  {
  }

  lemma LocatedLater(
    env: AuditEnv, line: seq<byte>, good: seq<byte>, rest: seq<byte>, last: string, prev: string, n: nat,
      error: VerifyError)
    requires NEWLINE !in line && CheckLine(env, line, prev).Ok?
    requires LocatedAt(env, good, rest, last, CheckLine(env, line, prev).value, n + 1, error)
    ensures LocatedAt(env, line + [NEWLINE] + good, rest, last, prev, n, error)
  {
    VerifyStep(env, line, good, prev, n);
  }

  /** Where verification fails: the lines before the reported one are accepted,
      and the reported one is incomplete or fails its own check. */
  lemma {:induction false} VerifyLocatesError(env: AuditEnv, log: seq<byte>, prev: string, n: nat)
    returns (good: seq<byte>, rest: seq<byte>, last: string)
    requires VerifyFrom(env, log, prev, n).Err?
    ensures log == good + rest
    ensures LocatedAt(env, good, rest, last, prev, n, VerifyFrom(env, log, prev, n).error)
    decreases |log|
  {
    if LineEnd(log) == |log| || CheckLine(env, log[..LineEnd(log)], prev).Err? {
      good, rest, last := [], log, prev;
      LocatedHere(env, log, prev, n);
    } else {
      var line, tail := SplitLine(log);
      VerifyStep(env, line, tail, prev, n);
      good, rest, last := VerifyLocatesError(env, tail, CheckLine(env, line, prev).value, n + 1);
      LocatedLater(env, line, good, rest, last, prev, n, VerifyFrom(env, log, prev, n).error);
      good := line + [NEWLINE] + good;
    }
  }
}
