/** Adapter attestation: the daemon's check
    (crates/ola-core/src/security/attestation/verifier.rs) and the signing side
    (crates/ola-adapter-demo-fido2/src/main.rs).  The MAC and the digest are
    arbitrary functions. */
module Attestation {
  import opened Bytes
  import opened Methods

  type Key = Bytes32

  datatype VerificationResult = VerificationResult(
    version: nat,
    id: seq<byte>,
    confidence: F32,
    authMethod: AuthMethod,
    timestampMs: u64,
    uid: u32,
    nonce: Bytes32,
    evidenceHash: Bytes32)

  /** HMAC-SHA256 under a key, and SHA-256. */
  datatype Crypto = Crypto(mac: (Key, seq<byte>) -> Bytes32, sha: seq<byte> -> Bytes32)

  datatype AttestationError = UnknownAdapter | HashMismatch

  /** nonce, UID, method commitment, confidence bits and timestamp, each of fixed
      width: eighty bytes in all. */
  function MacInput(
    c: Crypto, nonce: Bytes32, uid: u32, name: string, confidence: F32, timestampMs: u64): (r: seq<byte>)
    ensures |r| == 80
  {
    nonce + LittleEndian(uid, 4) + c.sha(Utf8(name)) + LittleEndian(confidence, 4) + LittleEndian(timestampMs, 8)
  }

  function ResultInput(c: Crypto, r: VerificationResult): seq<byte> {
    MacInput(c, r.nonce, r.uid, AsStr(r.authMethod), r.confidence, r.timestampMs)
  }

  function Verify(
    c: Crypto, keys: map<string, Key>, adapter: string, r: VerificationResult): Result<(), AttestationError>
  {
    if adapter !in keys then Err(UnknownAdapter)
    else if c.mac(keys[adapter], ResultInput(c, r)) != r.evidenceHash then Err(HashMismatch)
    else Ok(())
  }

  // ------------------------------------------------------ the MAC, fed in steps

  class Mac {
    const key: Key
    var fed: seq<byte>

    constructor (key: Key)
      ensures this.key == key && fed == []
    {
      this.key := key;
      fed := [];
    }

    method Update(data: seq<byte>)
      modifies this
      ensures fed == old(fed) + data
    {
      fed := fed + data;
    }
  }

  /** `verify` as the daemon runs it. */
  method VerifyResult(c: Crypto, keys: map<string, Key>, adapter: string, r: VerificationResult)
    returns (outcome: Result<(), AttestationError>)
    ensures outcome == Verify(c, keys, adapter, r)
  {
    if adapter !in keys {
      return Err(UnknownAdapter);
    }
    var mac := new Mac(keys[adapter]);
    mac.Update(r.nonce);
    mac.Update(LittleEndian(r.uid, 4));
    mac.Update(c.sha(Utf8(AsStr(r.authMethod))));
    mac.Update(LittleEndian(r.confidence, 4));
    mac.Update(LittleEndian(r.timestampMs, 8));
    FedInParts(r.nonce, LittleEndian(r.uid, 4), c.sha(Utf8(AsStr(r.authMethod))), LittleEndian(r.confidence, 4),
               LittleEndian(r.timestampMs, 8));
    var expected := c.mac(mac.key, mac.fed);
    if expected != r.evidenceHash {
      return Err(HashMismatch);
    }
    outcome := Ok(());
  }

  /** `evidence_hash` as the adapter runs it. */
  method EvidenceHash(
    c: Crypto, key: Key, nonce: Bytes32, uid: u32, name: string, confidence: F32, timestampMs: u64)
    returns (hash: Bytes32)
    ensures hash == c.mac(key, MacInput(c, nonce, uid, name, confidence, timestampMs))
  {
    var mac := new Mac(key);
    mac.Update(nonce);
    mac.Update(LittleEndian(uid, 4));
    mac.Update(c.sha(Utf8(name)));
    mac.Update(LittleEndian(confidence, 4));
    mac.Update(LittleEndian(timestampMs, 8));
    FedInParts(nonce, LittleEndian(uid, 4), c.sha(Utf8(name)), LittleEndian(confidence, 4),
               LittleEndian(timestampMs, 8));
    hash := c.mac(mac.key, mac.fed);
  }

  lemma {:induction false} FedInParts(a: seq<byte>, b: seq<byte>, c: seq<byte>, d: seq<byte>, e: seq<byte>)
    ensures [] + a + b + c + d + e == a + b + c + d + e
  {
  }

  // --------------------------------------------------------------- the adapter

  datatype Request = Request(version: nat, id: seq<byte>, uid: u32, nonce: Bytes32, deadlineMs: u64)

  /** What travels on the wire: the method is still a string. */
  datatype WireResult = WireResult(
    version: nat,
    id: seq<byte>,
    confidence: F32,
    name: string,
    timestampMs: u64,
    uid: u32,
    nonce: Bytes32,
    evidenceHash: Bytes32)

  /** The result the demo adapter builds for a request. */
  function AdapterResult(c: Crypto, key: Key, name: string, confidence: F32, request: Request, nowMs: u64): WireResult {
    WireResult(1, request.id, confidence, name, nowMs, request.uid, request.nonce,
               c.mac(key, MacInput(c, request.nonce, request.uid, name, confidence, nowMs)))
  }

  datatype WireError = NotANumber | BadName(error: NameError)

  /** The daemon's side of the wire.  A confidence that is not finite was printed as
      `null` and is refused; the method string goes through the parser. */
  function Receive(w: WireResult): Result<VerificationResult, WireError> {
    if !IsFinite(w.confidence) then Err(NotANumber)
    else
      match ParseMethod(w.name)
      case Ok(m) =>
        Ok(VerificationResult(w.version, w.id, w.confidence, m, w.timestampMs, w.uid, w.nonce, w.evidenceHash))
      case Err(error) => Err(BadName(error))
  }

  /** Round trip.  A result signed with the configured key is received exactly
      when its method name is known or valid and its confidence finite, and then it
      verifies and echoes the request. */
  lemma SignedResultVerifies(
    c: Crypto, keys: map<string, Key>, adapter: string, name: string, confidence: F32, request: Request, nowMs: u64)
    requires adapter in keys
    ensures var w := AdapterResult(c, keys[adapter], name, confidence, request, nowMs);
            && (Receive(w).Ok? <==> IsFinite(confidence) && (Known(name) || ValidateName(name, false).Ok?))
            && (Receive(w).Ok? ==>
                  && Verify(c, keys, adapter, Receive(w).value) == Ok(())
                  && Receive(w).value.version == 1
                  && Receive(w).value.nonce == request.nonce
                  && Receive(w).value.id == request.id
                  && Receive(w).value.uid == request.uid
                  && AsStr(Receive(w).value.authMethod) == name)
  {
    AnyIsNotAName();
    PrintAfterParse(name);
  }

  // ------------------------------------------------------------------- binding

  ghost predicate MacCollision(c: Crypto, key: Key, x: seq<byte>, y: seq<byte>) {
    x != y && c.mac(key, x) == c.mac(key, y)
  }

  ghost predicate ShaCollision(c: Crypto, s: string, t: string) {
    Utf8(s) != Utf8(t) && c.sha(Utf8(s)) == c.sha(Utf8(t))
  }

  /** The five committed fields. */
  ghost predicate SameEvidence(r: VerificationResult, s: VerificationResult) {
    && r.nonce == s.nonce && r.uid == s.uid && AsStr(r.authMethod) == AsStr(s.authMethod)
    && r.confidence == s.confidence && r.timestampMs == s.timestampMs
  }

  lemma Widths()
    ensures Power256(4) == 0x1_0000_0000 && Power256(8) == 0x1_0000_0000_0000_0000
  {
    assert Power256(1) == 256 && Power256(2) == 65536;
    assert Power256(3) == 16777216;
    assert Power256(5) == 0x100_0000_0000;
    assert Power256(6) == 0x1_0000_0000_0000;
    assert Power256(7) == 0x100_0000_0000_0000;
  }

  lemma SplitAppend(a: seq<byte>, rest: seq<byte>, b: seq<byte>, more: seq<byte>)
    requires |a| == |b| && a + rest == b + more
    ensures a == b && rest == more
  {
    assert a == (a + rest)[..|a|] && b == (b + more)[..|b|];
    assert rest == (a + rest)[|a|..] && more == (b + more)[|b|..];
  }

  lemma SplitFive(
    a: seq<byte>, b: seq<byte>, c: seq<byte>, d: seq<byte>, e: seq<byte>,
    a': seq<byte>, b': seq<byte>, c': seq<byte>, d': seq<byte>, e': seq<byte>)
    requires |a| == |a'| && |b| == |b'| && |c| == |c'| && |d| == |d'|
    requires a + b + c + d + e == a' + b' + c' + d' + e'
    ensures a == a' && b == b' && c == c' && d == d' && e == e'
  {
    SplitAppend(a + b + c + d, e, a' + b' + c' + d', e');
    SplitAppend(a + b + c, d, a' + b' + c', d');
    SplitAppend(a + b, c, a' + b', c');
    SplitAppend(a, b, a', b');
  }

  /** Fixed widths make the layout split in one way only. */
  lemma {:induction false} MacInputParts(
    c: Crypto, nonce: Bytes32, uid: u32, name: string, confidence: F32, ts: u64,
    nonce': Bytes32, uid': u32, name': string, confidence': F32, ts': u64)
    requires MacInput(c, nonce, uid, name, confidence, ts) == MacInput(c, nonce', uid', name', confidence', ts')
    ensures nonce == nonce' && LittleEndian(uid, 4) == LittleEndian(uid', 4) && c.sha(Utf8(name)) == c.sha(Utf8(name'))
    ensures LittleEndian(confidence, 4) == LittleEndian(confidence', 4) && LittleEndian(ts, 8) == LittleEndian(ts', 8)
  {
    SplitFive(nonce, LittleEndian(uid, 4), c.sha(Utf8(name)), LittleEndian(confidence, 4), LittleEndian(ts, 8),
              nonce', LittleEndian(uid', 4), c.sha(Utf8(name')), LittleEndian(confidence', 4), LittleEndian(ts', 8));
  }

  /** Equal inputs commit to equal fields, unless the method digests collide. */
  lemma MacInputBinds(c: Crypto, r: VerificationResult, s: VerificationResult)
    requires ResultInput(c, r) == ResultInput(c, s)
    ensures SameEvidence(r, s) || ShaCollision(c, AsStr(r.authMethod), AsStr(s.authMethod))
  {
    MacInputParts(c, r.nonce, r.uid, AsStr(r.authMethod), r.confidence, r.timestampMs,
                  s.nonce, s.uid, AsStr(s.authMethod), s.confidence, s.timestampMs);
    Widths();
    LittleEndianInjective(r.uid, s.uid, 4);
    LittleEndianInjective(r.confidence, s.confidence, 4);
    LittleEndianInjective(r.timestampMs, s.timestampMs, 8);
    Utf8RoundTrip(AsStr(r.authMethod));
    Utf8RoundTrip(AsStr(s.authMethod));
  }

  /** Binding.  Two results accepted under one key with the same evidence hash
      agree on nonce, UID, method, confidence bits and timestamp, or they exhibit
      a MAC collision or a digest collision. */
  lemma AttestationBinds(
    c: Crypto, keys: map<string, Key>, adapter: string, r: VerificationResult, s: VerificationResult)
    requires Verify(c, keys, adapter, r).Ok? && Verify(c, keys, adapter, s).Ok?
    requires r.evidenceHash == s.evidenceHash
    ensures || SameEvidence(r, s)
            || MacCollision(c, keys[adapter], ResultInput(c, r), ResultInput(c, s))
            || ShaCollision(c, AsStr(r.authMethod), AsStr(s.authMethod))
  {
    if ResultInput(c, r) == ResultInput(c, s) {
      MacInputBinds(c, r, s);
    }
  }

  /** Off the wire, equal method strings are equal methods: two results that bind
      agree on the parsed method too, which is what policy matches on. */
  lemma ReceivedMethodsAgree(v: WireResult, w: WireResult)
    requires Receive(v).Ok? && Receive(w).Ok? && SameEvidence(Receive(v).value, Receive(w).value)
    ensures Receive(v).value.authMethod == Receive(w).value.authMethod
  {
    PrintAfterParse(v.name);
    PrintAfterParse(w.name);
    AsStrInjective(Receive(v).value.authMethod, Receive(w).value.authMethod);
  }

  // ------------------------------------------------------------- start-up check

  /** `require_keys_for_adapters`: the configured adapters without a key. */
  function MissingKeys(keys: map<string, Key>, names: seq<string>): (r: seq<string>)
    ensures forall n :: n in r <==> n in names && n !in keys
  {
    if names == [] then []
    else (if names[0] in keys then [] else [names[0]]) + MissingKeys(keys, names[1..])
  }

  /** A daemon that started with attestation on never meets an unknown adapter. */
  lemma StartupRulesOutUnknown(
    c: Crypto, keys: map<string, Key>, names: seq<string>, adapter: string, r: VerificationResult)
    requires MissingKeys(keys, names) == [] && adapter in names
    ensures Verify(c, keys, adapter, r) != Err(UnknownAdapter)
  {
    assert adapter !in MissingKeys(keys, names);
  }
}
