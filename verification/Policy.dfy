/** Policy loading (crates/ola-core/src/core/policy/parser.rs) and evaluation
    (crates/ola-core/src/core/policy/evaluator.rs). */
module Policy {
  import opened Bytes
  import opened Methods
  import opened Attestation

  /** No selector means the rule applies to every method. */
  datatype PolicyRule = PolicyRule(
    selector: Option<AuthMethod>, minConfidence: F32, maxAgeSecs: u64, requireUidMatch: bool)

  datatype LoadError = InvalidMinConfidence | DuplicateMethod(m: AuthMethod) | DuplicateWildcard

  datatype DenyReason =
    | ConfidenceTooLow(got: F32, required: F32)
    | InvalidConfidence(got: F32)
    | ResultTooOld(ageMs: u64, maxAgeMs: u64)
    | ResultAgeWindowOverflow
    | ResultFromFuture(skewMs: u64)
    | UidMismatch(claimed: u32, resultUid: u32)
    | NoMatchingRule

  datatype Decision = Allow | Deny(reason: DenyReason)

  datatype Engine = Engine(rules: seq<PolicyRule>, maxResultAgeSecs: u64)

  /** The bound the configuration puts on the global age cap. */
  const MAX_RESULT_AGE_SECS_UPPER_BOUND: nat := U64_MAX / 1000

  // ------------------------------------------------------------------- loading

  ghost predicate ConfidencesValid(rules: seq<PolicyRule>) {
    forall i :: 0 <= i < |rules| ==> InUnitInterval(rules[i].minConfidence)
  }

  ghost predicate DistinctSelectors(rules: seq<PolicyRule>) {
    forall i, j :: 0 <= i < j < |rules| ==> rules[i].selector != rules[j].selector
  }

  ghost predicate Loadable(rules: seq<PolicyRule>) {
    ConfidencesValid(rules) && DistinctSelectors(rules)
  }

  /** Rule `i` is what the error complains about. */
  ghost predicate Offends(rules: seq<PolicyRule>, i: nat, error: LoadError)
    requires i < |rules|
  {
    match error
    case InvalidMinConfidence => !InUnitInterval(rules[i].minConfidence)
    case DuplicateMethod(m) => rules[i].selector == Some(m) && exists j :: 0 <= j < i && rules[j].selector == Some(m)
    case DuplicateWildcard => rules[i].selector == None && exists j :: 0 <= j < i && rules[j].selector == None
  }

  function Specific(rules: seq<PolicyRule>): seq<PolicyRule> {
    if rules == [] then []
    else Specific(rules[..|rules| - 1]) + if rules[|rules| - 1].selector.Some? then [rules[|rules| - 1]] else []
  }

  function Wildcards(rules: seq<PolicyRule>): seq<PolicyRule> {
    if rules == [] then []
    else Wildcards(rules[..|rules| - 1]) + if rules[|rules| - 1].selector.None? then [rules[|rules| - 1]] else []
  }

  /** `sort_by_key(is_none)` is a stable sort on a two-valued key. */
  function SpecificFirst(rules: seq<PolicyRule>): seq<PolicyRule> {
    Specific(rules) + Wildcards(rules)
  }

  method SortSpecificFirst(rules: seq<PolicyRule>) returns (sorted: seq<PolicyRule>)
    ensures sorted == SpecificFirst(rules)
  {
    var specific, wild := [], [];
    for i := 0 to |rules|
      invariant specific == Specific(rules[..i]) && wild == Wildcards(rules[..i])
    {
      assert rules[..i + 1][..i] == rules[..i];
      if rules[i].selector.Some? {
        specific := specific + [rules[i]];
      } else {
        wild := wild + [rules[i]];
      }
    }
    assert rules[..|rules|] == rules;
    sorted := specific + wild;
  }

  /** `load_with_owner` after the file is parsed: the loop that fills the seen
      sets, then the sort. */
  method Load(rules: seq<PolicyRule>) returns (r: Result<seq<PolicyRule>, LoadError>)
    ensures r.Ok? <==> Loadable(rules)
    ensures r.Ok? ==> r.value == SpecificFirst(rules)
    ensures r.Err? ==> exists i: nat :: i < |rules| && Loadable(rules[..i]) && Offends(rules, i, r.error)
  {
    var seenMethods: set<AuthMethod>, seenWildcard := {}, false;
    for i := 0 to |rules|
      invariant ConfidencesValid(rules[..i]) && DistinctSelectors(rules[..i])
      invariant forall m :: m in seenMethods <==> exists j :: 0 <= j < i && rules[j].selector == Some(m)
      invariant seenWildcard <==> exists j :: 0 <= j < i && rules[j].selector == None
    {
      if !InUnitInterval(rules[i].minConfidence) {
        assert Offends(rules, i, InvalidMinConfidence);
        return Err(InvalidMinConfidence);
      }
      match rules[i].selector
      case Some(m) =>
        if m in seenMethods {
          assert Offends(rules, i, DuplicateMethod(m));
          return Err(DuplicateMethod(m));
        }
        seenMethods := seenMethods + {m};
      case None =>
        if seenWildcard {
          assert Offends(rules, i, DuplicateWildcard);
          return Err(DuplicateWildcard);
        }
        seenWildcard := true;
    }
    assert rules[..|rules|] == rules;
    var sorted := SortSpecificFirst(rules);
    r := Ok(sorted);
  }

  // ---------------------------------------------------------------- evaluation

  predicate RuleMatches(rule: PolicyRule, m: AuthMethod) {
    rule.selector.None? || rule.selector.value == m
  }

  function FirstMatch(rules: seq<PolicyRule>, m: AuthMethod): (r: Option<PolicyRule>) {
    if rules == [] then None
    else if RuleMatches(rules[0], m) then Some(rules[0])
    else FirstMatch(rules[1..], m)
  }

  function Min(a: u64, b: u64): u64 {
    if a <= b then a else b
  }

  /** `evaluate`, with the clock read as a parameter. */
  function Evaluate(engine: Engine, result: VerificationResult, requestUid: u32, nowMs: u64): Decision {
    match FirstMatch(engine.rules, result.authMethod)
    case None => Deny(NoMatchingRule)
    case Some(rule) => EvaluateRule(rule, engine.maxResultAgeSecs, result, requestUid, nowMs)
  }

  function EvaluateRule(
    rule: PolicyRule, capSecs: u64, result: VerificationResult, requestUid: u32, nowMs: u64): Decision
  {
    if result.timestampMs > nowMs then Deny(ResultFromFuture(result.timestampMs - nowMs))
    else
      var ageMs := nowMs - result.timestampMs;
      var maxAgeSecs := Min(rule.maxAgeSecs, capSecs);
      if maxAgeSecs * 1000 > U64_MAX then Deny(ResultAgeWindowOverflow)
      else if ageMs > maxAgeSecs * 1000 then Deny(ResultTooOld(ageMs, maxAgeSecs * 1000))
      else if !IsFinite(result.confidence) || !InUnitInterval(result.confidence) then
        Deny(InvalidConfidence(result.confidence))
      else if Less(result.confidence, rule.minConfidence) then
        Deny(ConfidenceTooLow(result.confidence, rule.minConfidence))
      else if rule.requireUidMatch && result.uid != requestUid then Deny(UidMismatch(requestUid, result.uid))
      else Allow
  }

  // ------------------------------------------------- what the rules mean, once

  /** The rule that governs a method, whatever the file order: the exact rule if
      there is one, otherwise the wildcard, otherwise none. */
  ghost predicate Governs(rules: seq<PolicyRule>, m: AuthMethod, r: Option<PolicyRule>) {
    if exists x :: x in rules && x.selector == Some(m) then r.Some? && r.value in rules && r.value.selector == Some(m)
    else if exists x :: x in rules && x.selector == None then r.Some? && r.value in rules && r.value.selector == None
    else r == None
  }

  lemma DistinctBySelector(rules: seq<PolicyRule>, x: PolicyRule, y: PolicyRule)
    requires DistinctSelectors(rules) && x in rules && y in rules && x.selector == y.selector
    ensures x == y
  {
  }

  lemma GovernsUnique(rules: seq<PolicyRule>, m: AuthMethod, r: Option<PolicyRule>, s: Option<PolicyRule>)
    requires DistinctSelectors(rules) && Governs(rules, m, r) && Governs(rules, m, s)
    ensures r == s
  {
    if r.Some? {
      DistinctBySelector(rules, r.value, s.value);
    }
  }

  lemma {:induction false} SpecificMembers(rules: seq<PolicyRule>, x: PolicyRule)
    ensures x in Specific(rules) <==> x in rules && x.selector.Some?
    ensures x in Wildcards(rules) <==> x in rules && x.selector.None?
  {
    if rules != [] {
      SpecificMembers(rules[..|rules| - 1], x);
      assert rules == rules[..|rules| - 1] + [rules[|rules| - 1]];
    }
  }

  /** The sort neither loses nor invents a rule, and puts no wildcard in front of
      a specific rule. */
  lemma {:induction false} SortPermutes(rules: seq<PolicyRule>)
    ensures multiset(SpecificFirst(rules)) == multiset(rules)
  {
    if rules != [] {
      var front, last := rules[..|rules| - 1], rules[|rules| - 1];
      SortPermutes(front);
      assert rules == front + [last];
      assert multiset(SpecificFirst(front)) == multiset(Specific(front)) + multiset(Wildcards(front));
      assert multiset(SpecificFirst(rules)) == multiset(Specific(rules)) + multiset(Wildcards(rules));
    }
  }

  lemma {:induction false} FirstMatchFinds(rules: seq<PolicyRule>, m: AuthMethod)
    ensures match FirstMatch(rules, m)
            case Some(r) => r in rules && RuleMatches(r, m)
            case None => forall x :: x in rules ==> !RuleMatches(x, m)
  {
    if rules != [] {
      FirstMatchFinds(rules[1..], m);
      assert rules == [rules[0]] + rules[1..];
    }
  }

  lemma {:induction false} FirstMatchConcat(a: seq<PolicyRule>, b: seq<PolicyRule>, m: AuthMethod)
    ensures FirstMatch(a + b, m) == if FirstMatch(a, m).Some? then FirstMatch(a, m) else FirstMatch(b, m)
  {
    if a == [] {
      assert a + b == b;
    } else {
      assert (a + b)[1..] == a[1..] + b;
      FirstMatchConcat(a[1..], b, m);
    }
  }

  /** Duplicate rejection, a stable sort and first match together mean: the most
      specific rule wins. */
  lemma FirstMatchGoverns(rules: seq<PolicyRule>, m: AuthMethod)
    ensures Governs(rules, m, FirstMatch(SpecificFirst(rules), m))
  {
    var a, b := Specific(rules), Wildcards(rules);
    FirstMatchConcat(a, b, m);
    FirstMatchFinds(a, m);
    FirstMatchFinds(b, m);
    forall x ensures x in a <==> x in rules && x.selector.Some?
             ensures x in b <==> x in rules && x.selector.None?
    {
      SpecificMembers(rules, x);
    }
  }

  // --------------------------------------------------- independence of order

  lemma SameMembers(rules: seq<PolicyRule>, other: seq<PolicyRule>)
    requires multiset(rules) == multiset(other)
    ensures |rules| == |other|
    ensures forall x :: x in rules <==> x in other
  {
    assert |multiset(rules)| == |rules| && |multiset(other)| == |other|;
    forall x ensures x in rules <==> x in other {
      assert x in rules <==> x in multiset(rules);
      assert x in other <==> x in multiset(other);
    }
  }

  /** Distinct selectors, seen from the bag of rules alone. */
  ghost predicate DistinctInBag(bag: multiset<PolicyRule>) {
    && (forall x :: x in bag ==> bag[x] == 1)
    && (forall x, y :: x in bag && y in bag && x.selector == y.selector ==> x == y)
  }

  lemma TwiceInBag(rules: seq<PolicyRule>, i: nat, j: nat)
    requires i < j < |rules| && rules[i] == rules[j]
    ensures multiset(rules)[rules[i]] >= 2
  {
    var front := rules[..j];
    assert front[i] == rules[i];
    assert rules[i] in multiset(front);
    assert rules == front + [rules[j]] + rules[j + 1..];
    assert multiset(rules) == multiset(front) + multiset([rules[j]]) + multiset(rules[j + 1..]);
  }

  lemma {:induction false} OnceInBag(rules: seq<PolicyRule>, x: PolicyRule)
    requires DistinctSelectors(rules)
    ensures multiset(rules)[x] <= 1
  {
    if rules != [] {
      var front, last := rules[..|rules| - 1], rules[|rules| - 1];
      assert rules == front + [last];
      OnceInBag(front, x);
      assert x == last ==> multiset(front)[x] == 0;
    }
  }

  lemma DistinctIsBagProperty(rules: seq<PolicyRule>)
    ensures DistinctSelectors(rules) <==> DistinctInBag(multiset(rules))
  {
    var bag := multiset(rules);
    if DistinctSelectors(rules) {
      forall x | x in bag ensures bag[x] == 1 {
        OnceInBag(rules, x);
      }
      forall x, y | x in bag && y in bag && x.selector == y.selector ensures x == y {
        DistinctBySelector(rules, x, y);
      }
    }
    if DistinctInBag(bag) {
      forall i, j | 0 <= i < j < |rules| ensures rules[i].selector != rules[j].selector {
        assert rules[i] in bag && rules[j] in bag;
        if rules[i] == rules[j] {
          TwiceInBag(rules, i, j);
        }
      }
    }
  }

  /** Permuting the rules of the file never changes whether it loads. */
  lemma LoadableAnyOrder(rules: seq<PolicyRule>, other: seq<PolicyRule>)
    requires multiset(rules) == multiset(other)
    ensures Loadable(rules) <==> Loadable(other)
  {
    SameMembers(rules, other);
    DistinctIsBagProperty(rules);
    DistinctIsBagProperty(other);
    assert ConfidencesValid(rules) <==> forall x :: x in rules ==> InUnitInterval(x.minConfidence);
    assert ConfidencesValid(other) <==> forall x :: x in other ==> InUnitInterval(x.minConfidence);
  }

  lemma GovernsAnyOrder(rules: seq<PolicyRule>, other: seq<PolicyRule>, m: AuthMethod, r: Option<PolicyRule>)
    requires forall x :: x in rules <==> x in other
    ensures Governs(rules, m, r) <==> Governs(other, m, r)
  {
  }

  /** ... nor any decision. */
  lemma DecisionsAnyOrder(
    rules: seq<PolicyRule>, other: seq<PolicyRule>, cap: u64, result: VerificationResult, uid: u32, nowMs: u64)
    requires multiset(rules) == multiset(other) && Loadable(rules)
    ensures Evaluate(Engine(SpecificFirst(rules), cap), result, uid, nowMs) ==
            Evaluate(Engine(SpecificFirst(other), cap), result, uid, nowMs)
  {
    var m := result.authMethod;
    SameMembers(rules, other);
    FirstMatchGoverns(rules, m);
    FirstMatchGoverns(other, m);
    GovernsAnyOrder(rules, other, m, FirstMatch(SpecificFirst(other), m));
    GovernsUnique(rules, m, FirstMatch(SpecificFirst(rules), m), FirstMatch(SpecificFirst(other), m));
  }

  // ------------------------------------------------------- what Allow promises

  /** A result that meets a rule under a global age cap. */
  ghost predicate Meets(rule: PolicyRule, capSecs: u64, result: VerificationResult, requestUid: u32, nowMs: u64) {
    && result.timestampMs <= nowMs
    && nowMs - result.timestampMs <= 1000 * rule.maxAgeSecs
    && nowMs - result.timestampMs <= 1000 * capSecs
    && AtMost(ZERO_BITS, result.confidence) && AtMost(result.confidence, ONE_BITS)
    && AtMost(rule.minConfidence, result.confidence)
    && (rule.requireUidMatch ==> result.uid == requestUid)
  }

  /** Allow means exactly that the governing rule exists and is met, for every
      loaded policy and every age cap the configuration accepts. */
  lemma AllowIffMet(
    rules: seq<PolicyRule>, cap: u64, result: VerificationResult, requestUid: u32, nowMs: u64)
    requires Loadable(rules) && cap <= MAX_RESULT_AGE_SECS_UPPER_BOUND
    ensures Evaluate(Engine(SpecificFirst(rules), cap), result, requestUid, nowMs) == Allow <==>
            exists rule :: Governs(rules, result.authMethod, Some(rule)) && Meets(rule, cap, result, requestUid, nowMs)
  {
    var m := result.authMethod;
    var found := FirstMatch(SpecificFirst(rules), m);
    FirstMatchGoverns(rules, m);
    if found.Some? {
      var rule := found.value;
      assert rule in rules;
      assert InUnitInterval(rule.minConfidence);
      RuleAllows(rule, cap, result, requestUid, nowMs);
    }
    forall rule | Governs(rules, m, Some(rule)) ensures found == Some(rule) {
      GovernsUnique(rules, m, found, Some(rule));
    }
  }

  lemma RuleAllows(rule: PolicyRule, cap: u64, result: VerificationResult, requestUid: u32, nowMs: u64)
    requires InUnitInterval(rule.minConfidence) && cap <= MAX_RESULT_AGE_SECS_UPPER_BOUND
    ensures EvaluateRule(rule, cap, result, requestUid, nowMs) == Allow <==> Meets(rule, cap, result, requestUid, nowMs)
  {
    assert Min(rule.maxAgeSecs, cap) * 1000 <= U64_MAX;
  }

  /** The overflow denial is reachable exactly when both the governing rule and
      the cap exceed the configuration's bound and the result is not from the
      future; a configured daemon never returns it. */
  lemma OverflowUnreachable(engine: Engine, result: VerificationResult, requestUid: u32, nowMs: u64)
    ensures Evaluate(engine, result, requestUid, nowMs) == Deny(ResultAgeWindowOverflow) <==>
            && FirstMatch(engine.rules, result.authMethod).Some?
            && result.timestampMs <= nowMs
            && FirstMatch(engine.rules, result.authMethod).value.maxAgeSecs > MAX_RESULT_AGE_SECS_UPPER_BOUND
            && engine.maxResultAgeSecs > MAX_RESULT_AGE_SECS_UPPER_BOUND
  {
  }
}
