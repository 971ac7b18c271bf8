/** The audit record and the bytes its hash commits to
    (crates/ola-core/src/infrastructure/audit/entry.rs).  `Payload` is the
    tagged, length-prefixed encoding; `DecodePayload` is a left inverse of it. */
module Entry {
  import opened Bytes

  /** What a caller states about one authorization decision. */
  datatype Fact = Fact(
    tsMs: u64,
    requestId: Option<string>,
    callerUid: u32,
    uid: u32,
    adapterName: Option<string>,
    methodName: string,
    decision: string,
    denyReason: Option<string>,
    confidence: F32,
    evidenceHash: string,
    noncePrefix: string)

  /** A fact and the two chain fields, which only the logger fills. */
  datatype AuditEntry = AuditEntry(fact: Fact, prevHash: string, entryHash: string)

  /** One line of the payload: name, tag byte and raw value. */
  datatype Field = Field(name: seq<byte>, tag: byte, value: seq<byte>)

  const TAG_VALUE: byte := 118
  const TAG_SOME: byte := 115
  const TAG_NONE: byte := 110

  /** The fixed text of one payload version: its first line and field names. */
  datatype Layout = Layout(prefix: seq<byte>, names: seq<seq<byte>>)

  predicate TwelveNames(l: Layout) {
    |l.names| == 12
  }

  function V1(): (l: Layout)
    ensures TwelveNames(l)
  {
    Layout(
      Ascii("OLA-AUDIT-HASH-V1\n"),
      [Ascii("ts_ms"), Ascii("request_id"), Ascii("caller_uid"), Ascii("uid"), Ascii("adapter_name"),
       Ascii("method"), Ascii("decision"), Ascii("deny_reason"), Ascii("confidence"),
       Ascii("evidence_hash"), Ascii("nonce_prefix"), Ascii("prev_hash")])
  }

  // ------------------------------------------------------------- encoding

  function EncodeCounted(value: seq<byte>): seq<byte> {
    Decimal(|value|) + [COLON] + value + [NEWLINE]
  }

  function EncodeField(f: Field): seq<byte> {
    f.name + [COLON, f.tag, COLON] + EncodeCounted(f.value)
  }

  function EncodeFields(fs: seq<Field>): seq<byte> {
    if fs == [] then [] else EncodeField(fs[0]) + EncodeFields(fs[1..])
  }

  function NumberField(name: seq<byte>, v: nat): Field {
    Field(name, TAG_VALUE, Decimal(v))
  }

  function TextField(name: seq<byte>, v: string): Field {
    Field(name, TAG_VALUE, Utf8(v))
  }

  function OptionField(name: seq<byte>, v: Option<string>): Field {
    match v
    case Some(t) => Field(name, TAG_SOME, Utf8(t))
    case None => Field(name, TAG_NONE, [])
  }

  /** `format!("{:08x}", bits)`: the big-endian bytes of the pattern in hex. */
  function BitsHex(x: F32): string {
    Hex([x / 0x100_0000, x / 0x1_0000 % 0x100, x / 0x100 % 0x100, x % 0x100])
  }

  function Fields(l: Layout, e: AuditEntry): (fs: seq<Field>)
    requires TwelveNames(l)
    ensures |fs| == 12
  {
    [ NumberField(l.names[0], e.fact.tsMs),
      OptionField(l.names[1], e.fact.requestId),
      NumberField(l.names[2], e.fact.callerUid),
      NumberField(l.names[3], e.fact.uid),
      OptionField(l.names[4], e.fact.adapterName),
      TextField(l.names[5], e.fact.methodName),
      TextField(l.names[6], e.fact.decision),
      OptionField(l.names[7], e.fact.denyReason),
      TextField(l.names[8], BitsHex(e.fact.confidence)),
      TextField(l.names[9], e.fact.evidenceHash),
      TextField(l.names[10], e.fact.noncePrefix),
      TextField(l.names[11], e.prevHash) ]
  }

  function Encode(l: Layout, e: AuditEntry): seq<byte>
    requires TwelveNames(l)
  {
    l.prefix + EncodeFields(Fields(l, e))
  }

  function Payload(e: AuditEntry): seq<byte> {
    Encode(V1(), e)
  }

  // ----------------------------------------- the in-place builder (push_*)

  lemma {:induction false} EncodeFieldsAppend(fs: seq<Field>, f: Field)
    ensures EncodeFields(fs + [f]) == EncodeFields(fs) + EncodeField(f)
  {
    if fs == [] {
      assert [f][1..] == [];
    } else {
      assert (fs + [f])[1..] == fs[1..] + [f];
      EncodeFieldsAppend(fs[1..], f);
    }
  }

  lemma PushedField(out: seq<byte>, f: Field)
    ensures out + f.name + [COLON] + [f.tag] + [COLON] + Decimal(|f.value|) + [COLON] + f.value + [NEWLINE] ==
            out + EncodeField(f)
  {
    var head := f.name + [COLON, f.tag, COLON];
    assert out + f.name + [COLON] + [f.tag] + [COLON] == out + head;
    assert out + head + Decimal(|f.value|) + [COLON] + f.value + [NEWLINE] == out + head + EncodeCounted(f.value);
    assert out + head + EncodeCounted(f.value) == out + (head + EncodeCounted(f.value));
  }

  class PayloadBuffer {
    var out: seq<byte>
    ghost const start: seq<byte>
    ghost var pushed: seq<Field>

    /** The buffer holds its first line and then exactly the pushed fields. */
    ghost predicate Valid()
      reads this
    {
      out == start + EncodeFields(pushed)
    }

    constructor (first: seq<byte>)
      ensures Valid() && start == first && pushed == []
    {
      out := first;
      start := first;
      pushed := [];
    }

    method PushBytes(name: seq<byte>, tag: byte, value: seq<byte>)
      requires Valid()
      modifies this
      ensures Valid() && pushed == old(pushed) + [Field(name, tag, value)]
    {
      ghost var f := Field(name, tag, value);
      PushedField(out, f);
      EncodeFieldsAppend(pushed, f);
      assert out + EncodeField(f) == start + (EncodeFields(pushed) + EncodeField(f));
      out := out + name;
      out := out + [COLON];
      out := out + [tag];
      out := out + [COLON];
      out := out + Decimal(|value|);
      out := out + [COLON];
      out := out + value;
      out := out + [NEWLINE];
      pushed := pushed + [f];
    }

    method PushNumber(name: seq<byte>, v: nat)
      requires Valid()
      modifies this
      ensures Valid() && pushed == old(pushed) + [NumberField(name, v)]
    {
      PushBytes(name, TAG_VALUE, Decimal(v));
    }

    method PushText(name: seq<byte>, v: string)
      requires Valid()
      modifies this
      ensures Valid() && pushed == old(pushed) + [TextField(name, v)]
    {
      PushBytes(name, TAG_VALUE, Utf8(v));
    }

    method PushOption(name: seq<byte>, v: Option<string>)
      requires Valid()
      modifies this
      ensures Valid() && pushed == old(pushed) + [OptionField(name, v)]
    {
      match v
      case Some(t) => PushBytes(name, TAG_SOME, Utf8(t));
      case None => PushBytes(name, TAG_NONE, []);
    }
  }

  method PushRequest(b: PayloadBuffer, l: Layout, e: AuditEntry)
    requires TwelveNames(l) && b.Valid() && b.pushed == Fields(l, e)[..0]
    modifies b
    ensures b.Valid() && b.pushed == Fields(l, e)[..4]
  {
    b.PushNumber(l.names[0], e.fact.tsMs);
    b.PushOption(l.names[1], e.fact.requestId);
    b.PushNumber(l.names[2], e.fact.callerUid);
    b.PushNumber(l.names[3], e.fact.uid);
  }

  method PushOutcome(b: PayloadBuffer, l: Layout, e: AuditEntry)
    requires TwelveNames(l) && b.Valid() && b.pushed == Fields(l, e)[..4]
    modifies b
    ensures b.Valid() && b.pushed == Fields(l, e)[..8]
  {
    b.PushOption(l.names[4], e.fact.adapterName);
    b.PushText(l.names[5], e.fact.methodName);
    b.PushText(l.names[6], e.fact.decision);
    b.PushOption(l.names[7], e.fact.denyReason);
  }

  method PushEvidence(b: PayloadBuffer, l: Layout, e: AuditEntry)
    requires TwelveNames(l) && b.Valid() && b.pushed == Fields(l, e)[..8]
    modifies b
    ensures b.Valid() && b.pushed == Fields(l, e)[..12]
  {
    b.PushText(l.names[8], BitsHex(e.fact.confidence));
    b.PushText(l.names[9], e.fact.evidenceHash);
    b.PushText(l.names[10], e.fact.noncePrefix);
    b.PushText(l.names[11], e.prevHash);
  }

  method PushEntry(l: Layout, e: AuditEntry) returns (payload: seq<byte>)
    requires TwelveNames(l)
    ensures payload == Encode(l, e)
  {
    var b := new PayloadBuffer(l.prefix);
    PushRequest(b, l, e);
    PushOutcome(b, l, e);
    PushEvidence(b, l, e);
    assert Fields(l, e)[..12] == Fields(l, e);
    payload := b.out;
  }

  /** `hash_payload_v1`: twelve pushes into one buffer build exactly `Payload`. */
  method HashPayloadV1(e: AuditEntry) returns (payload: seq<byte>)
    ensures payload == Payload(e)
  {
    payload := PushEntry(V1(), e);
  }

  // ------------------------------------------------------------- decoding

  /** Reads `name:tag:` off the front of `s`. */
  function DecodeLabel(name: seq<byte>, s: seq<byte>): (r: Option<(byte, seq<byte>)>) {
    var a := |name|;
    if |s| < a + 3 || s[..a] != name || s[a] != COLON || s[a + 2] != COLON then None
    else Some((s[a + 1], s[a + 3..]))
  }

  /** Reads `len:value\n` off the front of `t`. */
  function DecodeCounted(t: seq<byte>): (r: Option<(seq<byte>, seq<byte>)>) {
    var k := DigitRun(t);
    if k == |t| || t[k] != COLON then None
    else
      var len := DigitsValue(t[..k]);
      var v := t[k + 1..];
      if |v| <= len || v[len] != NEWLINE then None else Some((v[..len], v[len + 1..]))
  }

  function DecodeField(name: seq<byte>, s: seq<byte>): (r: Option<(Field, seq<byte>)>) {
    match DecodeLabel(name, s)
    case None => None
    case Some((tag, t)) =>
      match DecodeCounted(t)
      case None => None
      case Some((value, rest)) => Some((Field(name, tag, value), rest))
  }

  lemma DecodeEncodedCounted(value: seq<byte>, rest: seq<byte>)
    ensures DecodeCounted(EncodeCounted(value) + rest) == Some((value, rest))
  {
    var d := Decimal(|value|);
    var v := value + ([NEWLINE] + rest);
    var t := d + ([COLON] + v);
    assert EncodeCounted(value) + rest == t;
    DigitRunOf(d, [COLON] + v);
    assert t[..|d|] == d;
    assert t[|d| + 1..] == v;
    DecimalValue(|value|);
    assert v[..|value|] == value;
    assert v[|value| + 1..] == rest;
  }

  lemma DecodeEncodedField(f: Field, rest: seq<byte>)
    ensures DecodeField(f.name, EncodeField(f) + rest) == Some((f, rest))
  {
    var head, t := f.name + [COLON, f.tag, COLON], EncodeCounted(f.value) + rest;
    var s := head + t;
    assert EncodeField(f) + rest == s;
    assert s[..|f.name|] == f.name && s[|f.name| + 3..] == t;
    DecodeEncodedCounted(f.value, rest);
  }

  function DecodeFields(names: seq<seq<byte>>, s: seq<byte>): (r: Option<seq<Field>>)
    ensures r.Some? ==> |r.value| == |names|
    decreases |names|
  {
    if names == [] then if s == [] then Some([]) else None
    else
      match DecodeField(names[0], s)
      case None => None
      case Some((f, rest)) =>
        match DecodeFields(names[1..], rest)
        case None => None
        case Some(fs) => Some([f] + fs)
  }

  function Names(fs: seq<Field>): seq<seq<byte>> {
    seq(|fs|, i requires 0 <= i < |fs| => fs[i].name)
  }

  ghost predicate Decodes(names: seq<seq<byte>>, s: seq<byte>, fs: seq<Field>) {
    DecodeFields(names, s) == Some(fs)
  }

  lemma DecodesOne(names: seq<seq<byte>>, s: seq<byte>, f: Field, rest: seq<byte>, fs: seq<Field>)
    requires names != [] && names[0] == f.name && DecodeField(f.name, s) == Some((f, rest))
    requires Decodes(names[1..], rest, fs)
    ensures Decodes(names, s, [f] + fs)
  {
  }

  lemma DecodesFirst(fs: seq<Field>)
    requires fs != [] && Decodes(Names(fs)[1..], EncodeFields(fs[1..]), fs[1..])
    ensures Decodes(Names(fs), EncodeFields(fs), fs)
  {
    DecodeEncodedField(fs[0], EncodeFields(fs[1..]));
    assert EncodeFields(fs) == EncodeField(fs[0]) + EncodeFields(fs[1..]);
    assert fs == [fs[0]] + fs[1..];
    DecodesOne(Names(fs), EncodeFields(fs), fs[0], EncodeFields(fs[1..]), fs[1..]);
  }

  lemma {:induction false} DecodeEncodedFields(fs: seq<Field>)
    ensures Decodes(Names(fs), EncodeFields(fs), fs)
    decreases |fs|
  {
    if fs != [] {
      DecodeEncodedFields(fs[1..]);
      assert Names(fs)[1..] == Names(fs[1..]);
      DecodesFirst(fs);
    }
  }

  function DecodeNumber(f: Field): Option<nat> {
    if f.tag == TAG_VALUE && DigitRun(f.value) == |f.value| then Some(DigitsValue(f.value)) else None
  }

  function DecodeU32(f: Field): Option<u32> {
    match DecodeNumber(f)
    case Some(n) => if n <= U32_MAX then Some(n) else None
    case None => None
  }

  function DecodeU64(f: Field): Option<u64> {
    match DecodeNumber(f)
    case Some(n) => if n <= U64_MAX then Some(n) else None
    case None => None
  }

  function DecodeText(f: Field): Option<string> {
    if f.tag == TAG_VALUE then FromUtf8(f.value) else None
  }

  function DecodeOption(f: Field): Option<Option<string>> {
    if f.tag == TAG_NONE && f.value == [] then Some(None)
    else if f.tag == TAG_SOME then
      match FromUtf8(f.value)
      case Some(t) => Some(Some(t))
      case None => None
    else None
  }

  function HexDigitValue(c: char): int {
    if '0' <= c <= '9' then c as int - 48 else if 'a' <= c <= 'f' then c as int - 87 else 0
  }

  function HexValue(s: string): nat {
    if s == [] then 0 else 16 * HexValue(s[..|s| - 1]) + HexDigitValue(s[|s| - 1])
  }

  function DecodeBits(f: Field): Option<F32> {
    match DecodeText(f)
    case Some(t) => if HexValue(t) <= U32_MAX then Some(HexValue(t)) else None
    case None => None
  }

  lemma HexValueStep(s: seq<byte>, b: byte)
    ensures HexValue(Hex(s + [b])) == 256 * HexValue(Hex(s)) + b
  {
    assert (s + [b])[..|s|] == s;
    var h := Hex(s);
    var hi, lo := HEX[b / 16], HEX[b % 16];
    HexDigitIs(b / 16);
    HexDigitIs(b % 16);
    assert Hex(s + [b]) == h + [hi, lo] == (h + [hi]) + [lo];
    assert (h + [hi] + [lo])[..|h| + 1] == h + [hi];
    assert (h + [hi])[..|h|] == h;
  }

  lemma HexValueOfFour(a: byte, b: byte, c: byte, d: byte)
    ensures HexValue(Hex([a, b, c, d])) == 0x100_0000 * a + 0x1_0000 * b + 0x100 * c + d
  {
    var none: seq<byte> := [];
    HexValueStep(none, a);
    HexValueStep([a], b);
    HexValueStep([a, b], c);
    HexValueStep([a, b, c], d);
    assert none + [a] == [a] && [a] + [b] == [a, b];
    assert [a, b] + [c] == [a, b, c] && [a, b, c] + [d] == [a, b, c, d];
  }

  lemma FourBytes(x: F32)
    ensures 0x100_0000 * (x / 0x100_0000) + 0x1_0000 * (x / 0x1_0000 % 0x100) + 0x100 * (x / 0x100 % 0x100)
            + x % 0x100 == x
  {
    assert x / 0x100 == x / 0x1_0000 * 0x100 + x / 0x100 % 0x100;
    assert x / 0x1_0000 == x / 0x100_0000 * 0x100 + x / 0x1_0000 % 0x100;
  }

  lemma BitsHexValue(x: F32)
    ensures HexValue(BitsHex(x)) == x
  {
    FourBytes(x);
    HexValueOfFour(x / 0x100_0000, x / 0x1_0000 % 0x100, x / 0x100 % 0x100, x % 0x100);
  }

  lemma NumberFieldDecodes(name: seq<byte>, v: nat)
    ensures DecodeNumber(NumberField(name, v)) == Some(v)
  {
    var d := Decimal(v);
    assert DigitRun(d) == |d|;
    DecimalValue(v);
  }

  lemma TextFieldDecodes(name: seq<byte>, v: string)
    ensures DecodeText(TextField(name, v)) == Some(v)
  {
    Utf8RoundTrip(v);
  }

  lemma OptionFieldDecodes(name: seq<byte>, v: Option<string>)
    ensures DecodeOption(OptionField(name, v)) == Some(v)
  {
    if v.Some? {
      Utf8RoundTrip(v.value);
    }
  }

  /** An entry rebuilt from its twelve fields; the entry hash is not hashed, so
      it comes back empty. */
  function FromFields(fs: seq<Field>): Option<AuditEntry>
    requires |fs| == 12
  {
    match (DecodeU64(fs[0]), DecodeOption(fs[1]), DecodeU32(fs[2]), DecodeU32(fs[3]))
    case (Some(ts), Some(id), Some(caller), Some(uid)) => (
      match (DecodeOption(fs[4]), DecodeText(fs[5]), DecodeText(fs[6]), DecodeOption(fs[7]))
      case (Some(adapter), Some(name), Some(decision), Some(reason)) => (
        match (DecodeBits(fs[8]), DecodeText(fs[9]), DecodeText(fs[10]), DecodeText(fs[11]))
        case (Some(confidence), Some(evidence), Some(nonce), Some(prev)) =>
          Some(AuditEntry(
            Fact(ts, id, caller, uid, adapter, name, decision, reason, confidence, evidence, nonce), prev, ""))
        case _ => None)
      case _ => None)
    case _ => None
  }

  function Decode(l: Layout, s: seq<byte>): Option<AuditEntry>
    requires TwelveNames(l)
  {
    var p := l.prefix;
    if |s| < |p| || s[..|p|] != p then None
    else
      match DecodeFields(l.names, s[|p|..])
      case Some(fs) => FromFields(fs)
      case None => None
  }

  function DecodePayload(s: seq<byte>): Option<AuditEntry> {
    Decode(V1(), s)
  }

  lemma FieldsDecode(l: Layout, e: AuditEntry)
    requires TwelveNames(l)
    ensures FromFields(Fields(l, e)) == Some(e.(entryHash := ""))
  {
    NumberFieldDecodes(l.names[0], e.fact.tsMs);
    OptionFieldDecodes(l.names[1], e.fact.requestId);
    NumberFieldDecodes(l.names[2], e.fact.callerUid);
    NumberFieldDecodes(l.names[3], e.fact.uid);
    OptionFieldDecodes(l.names[4], e.fact.adapterName);
    TextFieldDecodes(l.names[5], e.fact.methodName);
    TextFieldDecodes(l.names[6], e.fact.decision);
    OptionFieldDecodes(l.names[7], e.fact.denyReason);
    TextFieldDecodes(l.names[8], BitsHex(e.fact.confidence));
    BitsHexValue(e.fact.confidence);
    TextFieldDecodes(l.names[9], e.fact.evidenceHash);
    TextFieldDecodes(l.names[10], e.fact.noncePrefix);
    TextFieldDecodes(l.names[11], e.prevHash);
  }

  lemma DecodeEncoded(l: Layout, fs: seq<Field>)
    requires TwelveNames(l) && Names(fs) == l.names
    ensures |fs| == 12
    ensures Decode(l, l.prefix + EncodeFields(fs)) == FromFields(fs)
  {
    var p, s := l.prefix, EncodeFields(fs);
    assert (p + s)[..|p|] == p && (p + s)[|p|..] == s;
    DecodeEncodedFields(fs);
    assert |Names(fs)| == |fs|;
  }

  lemma FieldNames(l: Layout, e: AuditEntry)
    requires TwelveNames(l)
    ensures Names(Fields(l, e)) == l.names
  {
  }

  lemma RoundTrip(l: Layout, e: AuditEntry)
    requires TwelveNames(l)
    ensures Decode(l, Encode(l, e)) == Some(e.(entryHash := ""))
  {
    FieldNames(l, e);
    DecodeEncoded(l, Fields(l, e));
    FieldsDecode(l, e);
  }

  /** The encoding loses nothing but the entry hash: a decoder recovers all
      twelve hashed fields whatever bytes the texts contain. */
  lemma PayloadRoundTrip(e: AuditEntry)
    ensures DecodePayload(Payload(e)) == Some(e.(entryHash := ""))
  {
    RoundTrip(V1(), e);
  }

  /** Equal payloads mean equal entries apart from the entry hash, and only then. */
  lemma PayloadInjective(e: AuditEntry, f: AuditEntry)
    ensures Payload(e) == Payload(f) <==> e.(entryHash := "") == f.(entryHash := "")
  {
    PayloadRoundTrip(e);
    PayloadRoundTrip(f);
    if e.(entryHash := "") == f.(entryHash := "") {
      assert Fields(V1(), e) == Fields(V1(), f);
    }
  }
}
