/** Method names (crates/ola-core/src/core/types/method.rs) and the method type
    with its printer and parser (crates/ola-core/src/core/types/result.rs). */
module Methods {
  import opened Bytes

  datatype AuthMethod = Libfprint | Fido2 | Pin | Other(name: string)

  datatype NameError = Empty | Whitespace | ReservedAny | TooLong | InvalidChars

  const MAX_NAME_LEN: nat := 64

  predicate IsWhitespace(c: char) {
    var v := c as int;
    || 9 <= v <= 13 || v == 0x20 || v == 0x85 || v == 0xA0 || v == 0x1680
    || 0x2000 <= v <= 0x200A || v == 0x2028 || v == 0x2029 || v == 0x202F || v == 0x205F || v == 0x3000
  }

  predicate IsNameChar(c: char) {
    'a' <= c <= 'z' || 'A' <= c <= 'Z' || '0' <= c <= '9' || c == '_' || c == '-' || c == '.'
  }

  /** `validate_name`, with its checks in order. */
  function ValidateName(value: string, allowAny: bool): Result<(), NameError> {
    if value == [] then Err(Empty)
    else if IsWhitespace(value[0]) || IsWhitespace(value[|value| - 1]) then Err(Whitespace)
    else if value == "any" && !allowAny then Err(ReservedAny)
    else if |Utf8(value)| > MAX_NAME_LEN then Err(TooLong)
    else if exists i :: 0 <= i < |value| && !IsNameChar(value[i]) then Err(InvalidChars)
    else Ok(())
  }

  function AsStr(m: AuthMethod): string {
    match m
    case Libfprint => "libfprint"
    case Fido2 => "fido2"
    case Pin => "pin"
    case Other(name) => name
  }

  /** The deserializer. */
  function ParseMethod(raw: string): Result<AuthMethod, NameError> {
    if raw == "libfprint" then Ok(Libfprint)
    else if raw == "fido2" then Ok(Fido2)
    else if raw == "pin" then Ok(Pin)
    else if raw == "any" then Err(ReservedAny)
    else
      match ValidateName(raw, false)
      case Ok(_) => Ok(Other(raw))
      case Err(error) => Err(error)
  }

  predicate Known(name: string) {
    name == "libfprint" || name == "fido2" || name == "pin"
  }

  /** The values the parser can produce. */
  predicate Canonical(m: AuthMethod) {
    m.Other? ==> !Known(m.name) && ValidateName(m.name, false).Ok?
  }

  /** Printing undoes parsing, which succeeds on known and on valid names. */
  lemma PrintAfterParse(raw: string)
    ensures ParseMethod(raw).Ok? <==> Known(raw) || ValidateName(raw, false).Ok?
    ensures ParseMethod(raw).Ok? ==> AsStr(ParseMethod(raw).value) == raw && Canonical(ParseMethod(raw).value)
  {
  }

  /** Parsing undoes printing exactly on the canonical values. */
  lemma ParseAfterPrint(m: AuthMethod)
    ensures ParseMethod(AsStr(m)) == Ok(m) <==> Canonical(m)
  {
    AnyIsNotAName();
  }

  lemma AnyIsNotAName()
    ensures ValidateName("any", false) == Err(ReservedAny)
  {
    assert !IsWhitespace('a') && !IsWhitespace('y');
  }

  /** Distinct canonical methods print differently. */
  lemma AsStrInjective(m: AuthMethod, n: AuthMethod)
    requires Canonical(m) && Canonical(n) && AsStr(m) == AsStr(n)
    ensures m == n
  {
    ParseAfterPrint(m);
    ParseAfterPrint(n);
  }
}
