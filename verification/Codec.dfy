/** The hypotheses about the line codec and the parser can be met together: a
    line format, much simpler than JSON, that satisfies them for any digest.  So
    the theorems that assume them are not vacuous. */
module Codec {
  import opened Bytes
  import opened Entry
  import opened Chain
  import opened Recovery
  import L = Logger
  import R = LogRuns

  const SEPARATOR: byte := 80

  /** Opens every line and occurs nowhere else. */
  const BRACE: byte := 81

  /** Two bytes in 64..79 for each byte. */
  function Stretch(s: seq<byte>): (r: seq<byte>)
    ensures forall i :: 0 <= i < |r| ==> 64 <= r[i] < 80
  {
    if s == [] then [] else [64 + s[0] / 16, 64 + s[0] % 16] + Stretch(s[1..])
  }

  function Line(e: AuditEntry): seq<byte> {
    [BRACE] + (Stretch(Payload(e)) + [SEPARATOR] + Stretch(Utf8(e.entryHash)))
  }

  lemma {:induction false} StretchBinds(s: seq<byte>, rest: seq<byte>, t: seq<byte>, more: seq<byte>)
    requires Stretch(s) + [SEPARATOR] + rest == Stretch(t) + [SEPARATOR] + more
    ensures s == t && rest == more
  {
    var x, y := Stretch(s) + [SEPARATOR] + rest, Stretch(t) + [SEPARATOR] + more;
    if s == [] || t == [] {
      assert x[0] == y[0];
      assert rest == x[1..] && more == y[1..];
    } else {
      assert x[2..] == Stretch(s[1..]) + [SEPARATOR] + rest;
      assert y[2..] == Stretch(t[1..]) + [SEPARATOR] + more;
      StretchBinds(s[1..], rest, t[1..], more);
      assert x[0] == y[0] && x[1] == y[1];
      SameByte(s[0], t[0]);
      assert s == [s[0]] + s[1..] && t == [t[0]] + t[1..];
    }
  }

  lemma SameByte(a: byte, b: byte)
    requires a / 16 == b / 16 && a % 16 == b % 16
    ensures a == b
  {
  }

  lemma LineInjective(e: AuditEntry, f: AuditEntry)
    requires Line(e) == Line(f)
    ensures e == f
  {
    assert Line(e)[1..] == Line(f)[1..];
    StretchBinds(Payload(e), Stretch(Utf8(e.entryHash)), Payload(f), Stretch(Utf8(f.entryHash)));
    PayloadInjective(e, f);
    StretchBinds(Utf8(e.entryHash), [], Utf8(f.entryHash), []);
    Utf8RoundTrip(e.entryHash);
    Utf8RoundTrip(f.entryHash);
  }

  ghost predicate Prints(e: AuditEntry, line: seq<byte>) {
    L.Storable(e) && Line(e) == line
  }

  ghost function Parse(line: seq<byte>): (r: Option<AuditEntry>)
    ensures r.Some? ==> Prints(r.value, line)
    ensures r.None? ==> forall e :: !Prints(e, line)
  {
    if e :| Prints(e, line) then Some(e) else None
  }

  lemma ParseLine(e: AuditEntry)
    ensures Parse(Line(e)) == if L.Storable(e) then Some(e) else None
  {
    var r := Parse(Line(e));
    if r.Some? {
      LineInjective(r.value, e);
    } else {
      assert !Prints(e, Line(e));
    }
  }

  lemma LineIsPlain(e: AuditEntry)
    ensures NEWLINE !in Line(e) && !Blank(Line(e))
  {
    assert !IsWhitespace(Line(e)[0]);
  }

  /** An opening brace inside a line is no line's. */
  lemma GluedIsNoLine(front: seq<byte>, e: AuditEntry, f: AuditEntry)
    requires front != []
    ensures front + Line(e) != Line(f)
  {
    var k := |front|;
    assert (front + Line(e))[k] == BRACE;
    if k < |Line(f)| {
      assert Line(f)[k] == (Stretch(Payload(f)) + [SEPARATOR] + Stretch(Utf8(f.entryHash)))[k - 1];
    }
  }

  lemma ScrapsDoNotParse(env: AuditEnv, pieces: seq<R.Scrap>, e: AuditEntry)
    requires env.show == Line && env.parse == Parse && L.JsonLines(env) && R.Loose(pieces)
    ensures R.ScrapRejected(env, pieces, e)
  {
    var front := R.ScrapBytes(env, pieces);
    R.ScrapsAreBytes(env, pieces);
    var r := Parse(front + Line(e));
    if r.Some? {
      GluedIsNoLine(front, e, r.value);
      assert false;
    }
  }

  /** For every digest there is an environment that meets all three hypotheses. */
  lemma CodecExists(digest: seq<byte> -> Bytes32) returns (env: AuditEnv)
    ensures env.seal == Environment(digest, Line, Parse).seal
    ensures L.JsonLines(env) && BlankRejected(env) && R.ScrapsRejected(env)
  {
    env := Environment(digest, Line, Parse);
    forall e ensures L.LineCodec(env, e) {
      ParseLine(e);
      LineIsPlain(e);
    }
    forall pieces, e | R.Loose(pieces) ensures R.ScrapRejected(env, pieces, e) {
      ScrapsDoNotParse(env, pieces, e);
    }
    forall line | Blank(line) ensures env.parse(line) == None {
      var r := Parse(line);
      if r.Some? {
        LineIsPlain(r.value);
        assert false;
      }
    }
  }
}
