/** The per-UID rate limiter (crates/ola-core/src/security/rate_limit.rs): fixed
    windows, a bounded table, lazy reset and eviction of stale slots. */
module RateLimiter {
  import opened Bytes

  datatype RateEntry = RateEntry(lastReset: nat, count: u32)

  type Table = map<u32, RateEntry>

  const MAX_TRACKED_UIDS: nat := 4096

  /** One second and sixty seconds, in nanoseconds of the monotonic clock. */
  const RATE_WINDOW: nat := 1_000_000_000
  const STALE_AFTER: nat := 60_000_000_000

  /** `cleanup_stale_locked` */
  function Cleanup(t: Table, now: nat): (r: Table)
    ensures forall uid :: uid in r <==> uid in t && Elapsed(now, t[uid].lastReset) < STALE_AFTER
    ensures forall uid :: uid in r ==> r[uid] == t[uid]
  {
    map uid | uid in t && Elapsed(now, t[uid].lastReset) < STALE_AFTER :: t[uid]
  }

  /** The table after the clean-up that a full table triggers for a new UID. */
  function MakeRoom(t: Table, uid: u32, now: nat, cap: nat): Table {
    if uid !in t && |t| >= cap then Cleanup(t, now) else t
  }

  predicate Full(t: Table, uid: u32, now: nat, cap: nat) {
    uid !in t && |MakeRoom(t, uid, now, cap)| >= cap
  }

  /** The slot of a UID once its window is current. */
  function Current(t: Table, uid: u32, now: nat): RateEntry {
    if uid in t && Elapsed(now, t[uid].lastReset) <= RATE_WINDOW then t[uid] else RateEntry(now, 0)
  }

  function Bump(e: RateEntry): RateEntry {
    e.(count := if e.count < U32_MAX then e.count + 1 else e.count)
  }

  function CheckTable(t: Table, uid: u32, now: nat, cap: nat): Table {
    if Full(t, uid, now, cap) then MakeRoom(t, uid, now, cap)
    else MakeRoom(t, uid, now, cap)[uid := Bump(Current(t, uid, now))]
  }

  predicate Admits(t: Table, uid: u32, max: u32, now: nat, cap: nat) {
    !Full(t, uid, now, cap) && Bump(Current(t, uid, now)).count <= max
  }

  // -------------------------------------------------------------- the object

  class Limiter {
    var limits: Table
    const cap: nat

    /** `new` */
    constructor ()
      ensures limits == map[] && cap == MAX_TRACKED_UIDS
    {
      limits := map[];
      cap := MAX_TRACKED_UIDS;
    }

    /** `with_max_tracked_uids` */
    constructor WithCap(cap: nat)
      ensures limits == map[] && this.cap == cap
    {
      limits := map[];
      this.cap := cap;
    }

    /** `check` */
    method Check(uid: u32, maxPerSec: u32, now: nat) returns (allowed: bool)
      requires |limits| <= cap
      modifies this
      ensures allowed == Admits(old(limits), uid, maxPerSec, now, cap)
      ensures limits == CheckTable(old(limits), uid, now, cap)
      ensures |limits| <= cap
    {
      CheckKeepsCap(limits, uid, now, cap);
      if uid !in limits && |limits| >= cap {
        limits := Cleanup(limits, now);
        if |limits| >= cap {
          return false;
        }
      }
      var entry := if uid in limits then limits[uid] else RateEntry(now, 0);
      if Elapsed(now, entry.lastReset) > RATE_WINDOW {
        entry := RateEntry(now, 0);
      }
      entry := Bump(entry);
      limits := limits[uid := entry];
      allowed := entry.count <= maxPerSec;
    }

    /** `cleanup_stale` */
    method CleanupStale(now: nat)
      requires |limits| <= cap
      modifies this
      ensures limits == Cleanup(old(limits), now)
      ensures |limits| <= cap
    {
      CleanupShrinks(limits, now);
      limits := Cleanup(limits, now);
    }
  }

  lemma CleanupShrinks(t: Table, now: nat)
    ensures |Cleanup(t, now)| <= |t|
  {
    var r := Cleanup(t, now);
    assert t.Keys == r.Keys + (t.Keys - r.Keys);
  }

  lemma InsertSize(t: Table, uid: u32, e: RateEntry)
    ensures |t[uid := e]| == if uid in t then |t| else |t| + 1
  {
    var r := t[uid := e];
    assert r.Keys == t.Keys + {uid};
  }

  /** The hard cap on the table is never exceeded. */
  lemma CheckKeepsCap(t: Table, uid: u32, now: nat, cap: nat)
    requires |t| <= cap
    ensures |CheckTable(t, uid, now, cap)| <= cap
  {
    CleanupShrinks(t, now);
    InsertSize(MakeRoom(t, uid, now, cap), uid, Bump(Current(t, uid, now)));
  }

  // --------------------------------------------------------------------- runs

  datatype Op = Check(uid: u32, now: nat) | Clean(now: nat)

  function Apply(t: Table, op: Op, cap: nat): Table {
    match op
    case Check(uid, now) => CheckTable(t, uid, now, cap)
    case Clean(now) => Cleanup(t, now)
  }

  /** The table after the first `k` operations on an empty limiter. */
  function TableAt(ops: seq<Op>, k: nat, cap: nat): Table
    requires k <= |ops|
  {
    if k == 0 then map[] else Apply(TableAt(ops, k - 1, cap), ops[k - 1], cap)
  }

  /** Whether operation `k` is a check that is admitted. */
  predicate AdmittedAt(ops: seq<Op>, k: nat, max: u32, cap: nat)
    requires k < |ops|
  {
    ops[k].Check? && Admits(TableAt(ops, k, cap), ops[k].uid, max, ops[k].now, cap)
  }

  /** Each operation reads the clock before it takes the lock, so an instant may be
      older than one that got in first, but by no more than the longest wait. */
  ghost predicate Skewed(ops: seq<Op>, skew: nat) {
    forall i, j :: 0 <= i < j < |ops| ==> ops[i].now <= ops[j].now + skew
  }

  /** How far apart two windows of one UID start at least: more than a window,
      unless instants are so much out of order that a slot is evicted early. */
  function Gap(skew: nat): nat
    requires skew < STALE_AFTER
  {
    if skew < STALE_AFTER - RATE_WINDOW then RATE_WINDOW + 1 else STALE_AFTER - skew
  }

  lemma {:induction false} TableWithinCap(ops: seq<Op>, k: nat, cap: nat)
    requires k <= |ops|
    ensures |TableAt(ops, k, cap)| <= cap
  {
    if k > 0 {
      TableWithinCap(ops, k - 1, cap);
      match ops[k - 1]
      case Check(uid, now) => CheckKeepsCap(TableAt(ops, k - 1, cap), uid, now, cap);
      case Clean(now) => CleanupShrinks(TableAt(ops, k - 1, cap), now);
    }
  }

  // --------------------------------------------------------------- rate bound

  /** A UID, its limit and a time interval to count admissions in. */
  datatype Probe = Probe(uid: u32, max: u32, from: nat, to: nat, cap: nat)

  /** One if the operation is an admitted check of the UID. */
  function Hit(p: Probe, t: Table, op: Op): nat {
    if op.Check? && op.uid == p.uid && Admits(t, p.uid, p.max, op.now, p.cap) then 1 else 0
  }

  /** The same, counted only inside the interval. */
  function Counted(p: Probe, t: Table, op: Op): nat {
    if p.from <= op.now <= p.to then Hit(p, t, op) else 0
  }

  /** How many of the first `k` operations are admitted checks in the interval. */
  function AdmittedIn(p: Probe, ops: seq<Op>, k: nat): nat
    requires k <= |ops|
  {
    if k == 0 then 0 else AdmittedIn(p, ops, k - 1) + Counted(p, TableAt(ops, k - 1, p.cap), ops[k - 1])
  }

  /** The window a UID last opened, kept even after its slot is evicted: its
      admissions, those of them in the interval, the interval's admissions in all
      earlier windows; and how many windows the interval drew admissions from,
      with the start of the first and of the latest of them. */
  datatype Meter =
    | Closed
    | Open(start: nat, admitted: nat, current: nat, earlier: nat, used: nat, first: nat, latest: nat)

  predicate OpensWindow(t: Table, uid: u32, now: nat) {
    uid !in t || Elapsed(now, t[uid].lastReset) > RATE_WINDOW
  }

  function Total(m: Meter): nat {
    if m.Open? then m.current + m.earlier else 0
  }

  /** A window just opened, with nothing counted yet. */
  function NewWindow(m: Meter, now: nat): Meter {
    if m.Closed? then Open(now, 0, 0, 0, 0, 0, 0) else Open(now, 0, 0, Total(m), m.used, m.first, m.latest)
  }

  /** One check in the open window, counted if it is in the interval. */
  function Count(m: Meter, hit: nat, counted: nat): Meter
    requires m.Open?
  {
    var n := m.(admitted := m.admitted + hit, current := m.current + counted);
    if counted == 0 || m.current > 0 then n
    else n.(used := m.used + 1, first := if m.used == 0 then m.start else m.first, latest := m.start)
  }

  function MeterNext(p: Probe, m: Meter, t: Table, op: Op): Meter {
    if op.Clean? || op.uid != p.uid || Full(t, op.uid, op.now, p.cap) then m
    else
      Count(if m.Closed? || OpensWindow(t, op.uid, op.now) then NewWindow(m, op.now) else m,
            Hit(p, t, op), Counted(p, t, op))
  }

  function MeterAt(p: Probe, ops: seq<Op>, k: nat): Meter
    requires k <= |ops|
  {
    if k == 0 then Closed else MeterNext(p, MeterAt(p, ops, k - 1), TableAt(ops, k - 1, p.cap), ops[k - 1])
  }

  /** The latest instant among the first `k` operations. */
  function High(ops: seq<Op>, k: nat): nat
    requires k <= |ops|
  {
    if k == 0 then 0 else if ops[k - 1].now > High(ops, k - 1) then ops[k - 1].now else High(ops, k - 1)
  }

  lemma {:induction false} HighIsSkewed(ops: seq<Op>, k: nat, now: nat, skew: nat)
    requires k <= |ops| && forall i :: 0 <= i < k ==> ops[i].now <= now + skew
    ensures High(ops, k) <= now + skew
  {
    if k > 0 {
      HighIsSkewed(ops, k - 1, now, skew);
    }
  }

  /** Operation `k` is at most `skew` older than the latest before it. */
  ghost predicate SkewedAt(ops: seq<Op>, k: nat, skew: nat)
    requires 0 < k <= |ops|
  {
    High(ops, k - 1) <= ops[k - 1].now + skew
  }

  lemma OpIsSkewed(ops: seq<Op>, k: nat, skew: nat)
    requires 0 < k <= |ops| && Skewed(ops, skew)
    ensures SkewedAt(ops, k, skew)
  {
    HighIsSkewed(ops, k - 1, ops[k - 1].now, skew);
  }

  function Later(high: nat, now: nat): nat {
    if now > high then now else high
  }

  /** The meter of a UID agrees with its slot, if it still has one. */
  ghost predicate MeterTracks(p: Probe, m: Meter, t: Table, high: nat) {
    && (p.uid in t ==> m.Open? && t[p.uid].lastReset == m.start && m.admitted <= t[p.uid].count)
    && (m.Open? ==> m.start <= high && m.current <= m.admitted <= p.max)
    && (m.Open? && p.uid !in t ==> high >= m.start + STALE_AFTER)
  }

  lemma CleanKeepsMeter(p: Probe, m: Meter, t: Table, high: nat, now: nat)
    requires MeterTracks(p, m, t, high)
    ensures MeterTracks(p, m, Cleanup(t, now), Later(high, now))
  {
  }

  lemma OtherKeepsMeter(p: Probe, m: Meter, t: Table, high: nat, op: Op)
    requires MeterTracks(p, m, t, high)
    requires op.Check? && (op.uid != p.uid || Full(t, op.uid, op.now, p.cap))
    ensures MeterTracks(p, m, Apply(t, op, p.cap), Later(high, op.now))
  {
    CleanKeepsMeter(p, m, t, high, op.now);
  }

  lemma CheckKeepsMeter(p: Probe, m: Meter, t: Table, high: nat, now: nat)
    requires p.max < U32_MAX && MeterTracks(p, m, t, high) && !Full(t, p.uid, now, p.cap)
    ensures MeterTracks(p, MeterNext(p, m, t, Check(p.uid, now)), CheckTable(t, p.uid, now, p.cap), Later(high, now))
  {
    assert CheckTable(t, p.uid, now, p.cap)[p.uid] == Bump(Current(t, p.uid, now));
  }

  lemma MeterStep(p: Probe, m: Meter, t: Table, high: nat, op: Op)
    requires p.max < U32_MAX && MeterTracks(p, m, t, high)
    ensures MeterTracks(p, MeterNext(p, m, t, op), Apply(t, op, p.cap), Later(high, op.now))
  {
    match op
    case Clean(now) => CleanKeepsMeter(p, m, t, high, now);
    case Check(uid, now) =>
      if uid != p.uid || Full(t, uid, now, p.cap) {
        OtherKeepsMeter(p, m, t, high, op);
      } else {
        CheckKeepsMeter(p, m, t, high, now);
      }
  }

  /** The windows the interval draws from all start within reach of it, more than a
      window apart, and each gives at most the limit. */
  ghost predicate MeterBounded(p: Probe, m: Meter, skew: nat)
    requires skew < STALE_AFTER
  {
    m.Open? ==>
      && (m.current > 0 ==> m.used > 0 && m.latest == m.start)
      && m.earlier <= (if m.current > 0 then m.used - 1 else m.used) * p.max
      && (m.used > 0 ==>
            && p.from <= m.first + RATE_WINDOW && m.latest <= p.to + skew
            && (m.current == 0 ==> m.latest + Gap(skew) <= m.start)
            && m.first + (m.used - 1) * Gap(skew) <= m.latest)
  }

  lemma OneMoreTimes(n: nat, k: nat)
    ensures (n + 1) * k == n * k + k
  {
  }

  lemma NewWindowBounded(p: Probe, m: Meter, now: nat, skew: nat)
    requires skew < STALE_AFTER && MeterBounded(p, m, skew)
    requires m.Open? ==> m.start + Gap(skew) <= now && m.current <= p.max
    ensures MeterBounded(p, NewWindow(m, now), skew)
  {
    if m.Open? && m.current > 0 {
      OneMoreTimes(m.used - 1, p.max);
    }
  }

  lemma CountBounded(p: Probe, m: Meter, now: nat, hit: nat, counted: nat, skew: nat)
    requires skew < STALE_AFTER && m.Open? && MeterBounded(p, m, skew) && counted <= 1
    requires counted == 1 ==> p.from <= now <= p.to && now <= m.start + RATE_WINDOW && m.start <= now + skew
    ensures MeterBounded(p, Count(m, hit, counted), skew)
  {
    if m.used > 0 {
      OneMoreTimes(m.used - 1, Gap(skew));
    }
  }

  lemma BoundStep(p: Probe, m: Meter, t: Table, high: nat, op: Op, skew: nat)
    requires skew < STALE_AFTER && MeterTracks(p, m, t, high) && MeterBounded(p, m, skew) && high <= op.now + skew
    ensures MeterBounded(p, MeterNext(p, m, t, op), skew)
  {
    if op.Check? && op.uid == p.uid && !Full(t, op.uid, op.now, p.cap) {
      if m.Closed? || OpensWindow(t, op.uid, op.now) {
        NewWindowBounded(p, m, op.now, skew);
        CountBounded(p, NewWindow(m, op.now), op.now, Hit(p, t, op), Counted(p, t, op), skew);
      } else {
        CountBounded(p, m, op.now, Hit(p, t, op), Counted(p, t, op), skew);
      }
    }
  }

  lemma TotalStep(p: Probe, m: Meter, t: Table, op: Op)
    ensures Total(MeterNext(p, m, t, op)) == Total(m) + Counted(p, t, op)
  {
  }

  ghost predicate MeterOk(p: Probe, ops: seq<Op>, k: nat)
    requires k <= |ops|
  {
    MeterTracks(p, MeterAt(p, ops, k), TableAt(ops, k, p.cap), High(ops, k))
  }

  lemma {:induction false} MeterNextOk(p: Probe, ops: seq<Op>, k: nat)
    requires 0 < k <= |ops| && p.max < U32_MAX && MeterOk(p, ops, k - 1)
    ensures MeterOk(p, ops, k)
  {
    MeterStep(p, MeterAt(p, ops, k - 1), TableAt(ops, k - 1, p.cap), High(ops, k - 1), ops[k - 1]);
  }

  lemma {:induction false} MeterInvariant(p: Probe, ops: seq<Op>, k: nat)
    requires k <= |ops| && p.max < U32_MAX
    ensures MeterOk(p, ops, k)
  {
    if k > 0 {
      MeterInvariant(p, ops, k - 1);
      MeterNextOk(p, ops, k);
    }
  }

  ghost predicate BoundOk(p: Probe, ops: seq<Op>, k: nat, skew: nat)
    requires k <= |ops| && skew < STALE_AFTER
  {
    MeterBounded(p, MeterAt(p, ops, k), skew)
  }

  lemma {:induction false} BoundFirst(p: Probe, ops: seq<Op>, skew: nat)
    requires skew < STALE_AFTER
    ensures BoundOk(p, ops, 0, skew)
  {
  }

  lemma {:induction false} BoundNext(p: Probe, ops: seq<Op>, k: nat, skew: nat)
    requires 0 < k <= |ops| && skew < STALE_AFTER && SkewedAt(ops, k, skew)
    requires MeterOk(p, ops, k - 1) && BoundOk(p, ops, k - 1, skew)
    ensures BoundOk(p, ops, k, skew)
  {
    BoundStep(p, MeterAt(p, ops, k - 1), TableAt(ops, k - 1, p.cap), High(ops, k - 1), ops[k - 1], skew);
  }

  lemma {:induction false} BoundInvariant(p: Probe, ops: seq<Op>, k: nat, skew: nat)
    requires k <= |ops| && Skewed(ops, skew) && skew < STALE_AFTER && p.max < U32_MAX
    ensures BoundOk(p, ops, k, skew)
  {
    if k == 0 {
      BoundFirst(p, ops, skew);
    } else {
      BoundInvariant(p, ops, k - 1, skew);
      BoundAdvance(p, ops, k, skew);
    }
  }

  lemma {:induction false} BoundAdvance(p: Probe, ops: seq<Op>, k: nat, skew: nat)
    requires 0 < k <= |ops| && Skewed(ops, skew) && skew < STALE_AFTER && p.max < U32_MAX
    requires BoundOk(p, ops, k - 1, skew)
    ensures BoundOk(p, ops, k, skew)
  {
    MeterInvariant(p, ops, k - 1);
    OpIsSkewed(ops, k, skew);
    BoundNext(p, ops, k, skew);
  }

  /** The meter adds up to the plain count. */
  lemma {:induction false} MeterTotals(p: Probe, ops: seq<Op>, k: nat)
    requires k <= |ops|
    ensures AdmittedIn(p, ops, k) == Total(MeterAt(p, ops, k))
  {
    if k > 0 {
      MeterTotals(p, ops, k - 1);
      TotalStep(p, MeterAt(p, ops, k - 1), TableAt(ops, k - 1, p.cap), ops[k - 1]);
    }
  }

  /** How many windows an interval no longer than one can draw admissions from:
      two, when instants are in order. */
  function Windows(skew: nat): nat
    requires skew < STALE_AFTER
  {
    1 + (2 * RATE_WINDOW + skew) / Gap(skew)
  }

  lemma AtMostQuotient(n: nat, d: nat, x: nat)
    requires d > 0 && n * d <= x
    ensures n <= x / d
  {
    if n > x / d {
      TimesMore(x / d + 1, n, d);
      OneMoreTimes(x / d, d);
    }
  }

  lemma FewWindows(p: Probe, m: Meter, skew: nat)
    requires skew < STALE_AFTER && m.Open? && MeterBounded(p, m, skew) && p.to <= p.from + RATE_WINDOW
    ensures m.used <= Windows(skew)
  {
    if m.used > 0 {
      AtMostQuotient(m.used - 1, Gap(skew), 2 * RATE_WINDOW + skew);
    }
  }

  ghost predicate WithinLimit(p: Probe, n: nat, skew: nat)
    requires skew < STALE_AFTER
  {
    n <= Windows(skew) * p.max
  }

  lemma TimesMore(a: nat, b: nat, k: nat)
    requires a <= b
    ensures a * k <= b * k
  {
  }

  lemma TotalBounded(p: Probe, m: Meter, t: Table, high: nat, skew: nat)
    requires skew < STALE_AFTER && MeterTracks(p, m, t, high) && MeterBounded(p, m, skew)
    requires p.to <= p.from + RATE_WINDOW
    ensures WithinLimit(p, Total(m), skew)
  {
    if m.Open? {
      FewWindows(p, m, skew);
      TimesMore(m.used, Windows(skew), p.max);
      if m.current > 0 {
        OneMoreTimes(m.used - 1, p.max);
      }
    }
  }

  /** The rate bound.  For any UID and any mix of checks and clean-ups whose instants
      are out of order by at most `skew`, a closed interval no longer than the
      window admits at most the limit times `Windows(skew)`. */
  lemma RateBound(p: Probe, ops: seq<Op>, skew: nat)
    requires Skewed(ops, skew) && skew < STALE_AFTER && p.max < U32_MAX && p.to <= p.from + RATE_WINDOW
    ensures WithinLimit(p, AdmittedIn(p, ops, |ops|), skew)
  {
    MeterTotals(p, ops, |ops|);
    MeterInvariant(p, ops, |ops|);
    BoundInvariant(p, ops, |ops|, skew);
    TotalBounded(p, MeterAt(p, ops, |ops|), TableAt(ops, |ops|, p.cap), High(ops, |ops|), skew);
  }

  // ------------------------------------------------ out of order beyond measure

  /** Checks at one instant, with a clean-up from `STALE_AFTER` later after each. */
  function ThrashOp(uid: u32, now: nat, j: nat): Op {
    if j % 2 == 0 then Check(uid, now) else Clean(now + STALE_AFTER)
  }

  function Thrash(uid: u32, now: nat, n: nat): seq<Op> {
    seq(2 * n, (j: nat) => ThrashOp(uid, now, j))
  }

  /** The table between the operations: empty, or one fresh slot. */
  ghost predicate Thrashing(p: Probe, t: Table, j: nat) {
    if j % 2 == 0 then t == map[] else t == map[p.uid := RateEntry(p.from, 1)]
  }

  lemma ThrashStep(p: Probe, t: Table, j: nat)
    requires 0 < p.max < U32_MAX && p.cap > 0 && p.from <= p.to && Thrashing(p, t, j)
    ensures Thrashing(p, Apply(t, ThrashOp(p.uid, p.from, j), p.cap), j + 1)
    ensures Counted(p, t, ThrashOp(p.uid, p.from, j)) == 1 - j % 2
    ensures HitIn(p, t, ThrashOp(p.uid, p.from, j), p.from) == 1 - j % 2
  {
  }

  ghost predicate IsThrash(p: Probe, ops: seq<Op>) {
    && 0 < p.max < U32_MAX && p.cap > 0 && p.from <= p.to
    && forall i: nat :: i < |ops| ==> ThrashAt(p, ops, i)
  }

  ghost predicate ThrashAt(p: Probe, ops: seq<Op>, i: nat)
    requires i < |ops|
  {
    ops[i] == ThrashOp(p.uid, p.from, i)
  }

  ghost predicate ThrashingAt(p: Probe, ops: seq<Op>, j: nat)
    requires j <= |ops|
  {
    Thrashing(p, TableAt(ops, j, p.cap), j)
  }

  lemma {:induction false} ThrashTableNext(p: Probe, ops: seq<Op>, j: nat)
    requires IsThrash(p, ops) && 0 < j <= |ops| && ThrashingAt(p, ops, j - 1)
    ensures ThrashingAt(p, ops, j)
  {
    assert ThrashAt(p, ops, j - 1);
    ThrashStep(p, TableAt(ops, j - 1, p.cap), j - 1);
  }

  lemma {:induction false} ThrashTable(p: Probe, ops: seq<Op>, j: nat)
    requires IsThrash(p, ops) && j <= |ops|
    ensures ThrashingAt(p, ops, j)
  {
    if j > 0 {
      ThrashTable(p, ops, j - 1);
      ThrashTableNext(p, ops, j);
    }
  }

  ghost predicate CountsHalf(p: Probe, ops: seq<Op>, j: nat)
    requires j <= |ops|
  {
    AdmittedIn(p, ops, j) == (j + 1) / 2
  }

  ghost predicate FillsHalf(p: Probe, ops: seq<Op>, j: nat)
    requires j <= |ops|
  {
    AdmittedInWindow(p, ops, j, p.from) == (j + 1) / 2
  }

  lemma HalfNext(j: nat)
    requires j > 0
    ensures (j + 1) / 2 == j / 2 + (1 - (j - 1) % 2)
  {
  }

  /** What operation `j` of the thrashing run adds to the counts. */
  lemma {:induction false} ThrashAdds(p: Probe, ops: seq<Op>, j: nat)
    requires IsThrash(p, ops) && 0 < j <= |ops| && ThrashingAt(p, ops, j - 1)
    ensures Counted(p, TableAt(ops, j - 1, p.cap), ops[j - 1]) == 1 - (j - 1) % 2
    ensures HitIn(p, TableAt(ops, j - 1, p.cap), ops[j - 1], p.from) == 1 - (j - 1) % 2
  {
    assert ThrashAt(p, ops, j - 1);
    ThrashStep(p, TableAt(ops, j - 1, p.cap), j - 1);
  }

  lemma {:induction false} ThrashCountsNext(p: Probe, ops: seq<Op>, j: nat)
    requires IsThrash(p, ops) && 0 < j <= |ops| && ThrashingAt(p, ops, j - 1) && CountsHalf(p, ops, j - 1)
    ensures CountsHalf(p, ops, j)
  {
    HalfNext(j);
    ThrashAdds(p, ops, j);
  }

  lemma {:induction false} ThrashFillsNext(p: Probe, ops: seq<Op>, j: nat)
    requires IsThrash(p, ops) && 0 < j <= |ops| && ThrashingAt(p, ops, j - 1) && FillsHalf(p, ops, j - 1)
    ensures FillsHalf(p, ops, j)
  {
    HalfNext(j);
    ThrashAdds(p, ops, j);
  }

  lemma {:induction false} ThrashAdmitted(p: Probe, ops: seq<Op>, j: nat)
    requires IsThrash(p, ops) && j <= |ops|
    ensures CountsHalf(p, ops, j) && FillsHalf(p, ops, j)
  {
    if j == 0 {
      ThrashFirst(p, ops);
    } else {
      ThrashAdmitted(p, ops, j - 1);
      ThrashAdvance(p, ops, j);
    }
  }

  lemma {:induction false} ThrashFirst(p: Probe, ops: seq<Op>)
    ensures CountsHalf(p, ops, 0) && FillsHalf(p, ops, 0)
  {
  }

  lemma {:induction false} ThrashAdvance(p: Probe, ops: seq<Op>, j: nat)
    requires IsThrash(p, ops) && 0 < j <= |ops| && CountsHalf(p, ops, j - 1) && FillsHalf(p, ops, j - 1)
    ensures CountsHalf(p, ops, j) && FillsHalf(p, ops, j)
  {
    ThrashTable(p, ops, j - 1);
    ThrashCountsNext(p, ops, j);
    ThrashFillsNext(p, ops, j);
  }

  lemma ThrashSkewed(uid: u32, now: nat, n: nat, skew: nat)
    requires skew >= STALE_AFTER
    ensures Skewed(Thrash(uid, now, n), skew)
  {
    var ops := Thrash(uid, now, n);
    assert forall i :: 0 <= i < |ops| ==> now <= ops[i].now <= now + STALE_AFTER;
  }

  lemma ThrashCounts(p: Probe, n: nat)
    requires 0 < p.max < U32_MAX && p.cap > 0 && p.from <= p.to
    ensures AdmittedIn(p, Thrash(p.uid, p.from, n), 2 * n) == n
    ensures AdmittedInWindow(p, Thrash(p.uid, p.from, n), 2 * n, p.from) == n
  {
    ThrashAdmitted(p, Thrash(p.uid, p.from, n), 2 * n);
  }

  ghost predicate BoundedBy(p: Probe, skew: nat, bound: nat) {
    forall ops :: Skewed(ops, skew) ==> AdmittedIn(p, ops, |ops|) <= bound
  }

  /** A rate bound exists at all if and only if instants are out of order by less
      than `STALE_AFTER`: from there on eviction can forget any number of checks. */
  lemma BoundExistsIff(p: Probe, skew: nat)
    requires 0 < p.max < U32_MAX && p.cap > 0 && p.from <= p.to <= p.from + RATE_WINDOW
    ensures (exists bound :: BoundedBy(p, skew, bound)) <==> skew < STALE_AFTER
  {
    if skew < STALE_AFTER {
      forall ops | Skewed(ops, skew) ensures AdmittedIn(p, ops, |ops|) <= Windows(skew) * p.max {
        RateBound(p, ops, skew);
      }
      assert BoundedBy(p, skew, Windows(skew) * p.max);
    } else {
      forall bound: nat ensures !BoundedBy(p, skew, bound) {
        ThrashExceeds(p, skew, bound);
      }
    }
  }

  lemma ThrashExceeds(p: Probe, skew: nat, bound: nat)
    requires 0 < p.max < U32_MAX && p.cap > 0 && p.from <= p.to && skew >= STALE_AFTER
    ensures !BoundedBy(p, skew, bound)
  {
    ThrashSkewed(p.uid, p.from, bound + 1, skew);
    ThrashCounts(p, bound + 1);
    assert AdmittedIn(p, Thrash(p.uid, p.from, bound + 1), 2 * (bound + 1)) > bound;
  }

  ghost predicate WindowsFit(p: Probe, skew: nat) {
    forall ops, start :: Skewed(ops, skew) ==> AdmittedInWindow(p, ops, |ops|, start) <= p.max
  }

  /** Each window admits at most the limit under exactly the same condition. */
  lemma WindowBoundIff(p: Probe, skew: nat)
    requires 0 < p.max < U32_MAX && p.cap > 0 && p.from <= p.to
    ensures WindowsFit(p, skew) <==> skew < STALE_AFTER
  {
    if skew < STALE_AFTER {
      forall ops, start | Skewed(ops, skew) ensures AdmittedInWindow(p, ops, |ops|, start) <= p.max {
        WindowBound(p, ops, start, skew);
      }
    } else {
      ThrashOverfills(p, skew);
    }
  }

  lemma ThrashOverfills(p: Probe, skew: nat)
    requires 0 < p.max < U32_MAX && p.cap > 0 && p.from <= p.to && skew >= STALE_AFTER
    ensures !WindowsFit(p, skew)
  {
    ThrashSkewed(p.uid, p.from, p.max + 1, skew);
    ThrashCounts(p, p.max + 1);
    assert AdmittedInWindow(p, Thrash(p.uid, p.from, p.max + 1), 2 * (p.max + 1), p.from) > p.max;
  }

  // ---------------------------------------------- at the top limit it ends

  /** `n` checks of one UID at one instant. */
  function Burst(uid: u32, now: nat, n: nat): seq<Op> {
    seq(n, i => Check(uid, now))
  }

  /** The table after `k` of them. */
  ghost predicate BurstTable(p: Probe, t: Table, now: nat, k: nat) {
    if k == 0 then t == map[]
    else p.uid in t && t[p.uid] == RateEntry(now, if k < U32_MAX then k else U32_MAX)
  }

  lemma BurstStep(p: Probe, t: Table, now: nat, k: nat)
    requires p.max == U32_MAX && p.cap > 0 && p.from <= now <= p.to && BurstTable(p, t, now, k)
    ensures Counted(p, t, Check(p.uid, now)) == 1
    ensures BurstTable(p, Apply(t, Check(p.uid, now), p.cap), now, k + 1)
  {
  }

  ghost predicate BurstCount(p: Probe, ops: seq<Op>, now: nat, k: nat)
    requires k <= |ops|
  {
    AdmittedIn(p, ops, k) == k && BurstTable(p, TableAt(ops, k, p.cap), now, k)
  }

  lemma {:induction false} BurstNext(p: Probe, now: nat, ops: seq<Op>, k: nat)
    requires p.max == U32_MAX && p.cap > 0 && p.from <= now <= p.to
    requires 0 < k <= |ops| && ops[k - 1] == Check(p.uid, now) && BurstCount(p, ops, now, k - 1)
    ensures BurstCount(p, ops, now, k)
  {
    BurstStep(p, TableAt(ops, k - 1, p.cap), now, k - 1);
  }

  lemma {:induction false} BurstAdmitted(p: Probe, now: nat, ops: seq<Op>, k: nat)
    requires p.max == U32_MAX && p.cap > 0 && p.from <= now <= p.to && k <= |ops|
    requires forall i :: 0 <= i < |ops| ==> ops[i] == Check(p.uid, now)
    ensures BurstCount(p, ops, now, k)
  {
    if k > 0 {
      BurstAdmitted(p, now, ops, k - 1);
      BurstNext(p, now, ops, k);
    }
  }

  /** Twice the limit is not exceeded by the instants of `ops`, if they are in order. */
  ghost predicate AtMostTwice(p: Probe, ops: seq<Op>) {
    Skewed(ops, 0) ==> AdmittedIn(p, ops, |ops|) <= 2 * p.max
  }

  lemma InOrderAtMostTwice(p: Probe, ops: seq<Op>)
    requires p.max < U32_MAX && p.to <= p.from + RATE_WINDOW
    ensures AtMostTwice(p, ops)
  {
    assert Windows(0) == 2;
    if Skewed(ops, 0) {
      RateBound(p, ops, 0);
    }
  }

  lemma BurstExceeds(p: Probe)
    requires p.max == U32_MAX && p.cap > 0 && p.from <= p.to
    ensures !AtMostTwice(p, Burst(p.uid, p.from, 2 * U32_MAX + 1))
  {
    BurstAdmitted(p, p.from, Burst(p.uid, p.from, 2 * U32_MAX + 1), 2 * U32_MAX + 1);
  }

  /** For instants in order, twice the limit holds for exactly the limits below the
      top of the counter's range: there the counter saturates at the limit itself
      and a burst of any length is admitted. */
  lemma RateBoundIff(p: Probe)
    requires p.cap > 0 && p.from <= p.to <= p.from + RATE_WINDOW
    ensures (forall ops :: AtMostTwice(p, ops)) <==> p.max < U32_MAX
  {
    if p.max < U32_MAX {
      forall ops ensures AtMostTwice(p, ops) {
        InOrderAtMostTwice(p, ops);
      }
    } else {
      BurstExceeds(p);
    }
  }

  // --------------------------------------------------------- window by window

  /** One if the operation is an admitted check in the window from `start`. */
  function HitIn(p: Probe, t: Table, op: Op, start: nat): nat {
    if Current(t, p.uid, op.now).lastReset == start then Hit(p, t, op) else 0
  }

  /** How many of the first `k` operations hit that window. */
  function AdmittedInWindow(p: Probe, ops: seq<Op>, k: nat, start: nat): nat
    requires k <= |ops|
  {
    if k == 0 then 0
    else AdmittedInWindow(p, ops, k - 1, start) + HitIn(p, TableAt(ops, k - 1, p.cap), ops[k - 1], start)
  }

  /** `n` admissions in the window that started at `start` fit the limit; they
      are the meter's own count while that window is the last one opened, and a
      window not yet opened has none. */
  ghost predicate WindowFits(p: Probe, m: Meter, start: nat, n: nat) {
    && n <= p.max
    && (m.Closed? || m.start < start ==> n == 0)
    && (m.Open? && m.start == start ==> n == m.admitted)
  }

  lemma WindowStep(p: Probe, m: Meter, t: Table, high: nat, op: Op, start: nat, n: nat)
    requires p.max < U32_MAX && MeterTracks(p, m, t, high) && high < op.now + STALE_AFTER && WindowFits(p, m, start, n)
    ensures WindowFits(p, MeterNext(p, m, t, op), start, n + HitIn(p, t, op, start))
  {
  }

  ghost predicate WindowOk(p: Probe, ops: seq<Op>, k: nat, start: nat)
    requires k <= |ops|
  {
    WindowFits(p, MeterAt(p, ops, k), start, AdmittedInWindow(p, ops, k, start))
  }

  lemma {:induction false} WindowFirst(p: Probe, ops: seq<Op>, start: nat)
    ensures WindowOk(p, ops, 0, start)
  {
  }

  lemma {:induction false} WindowNext(p: Probe, ops: seq<Op>, k: nat, start: nat, skew: nat)
    requires 0 < k <= |ops| && p.max < U32_MAX && skew < STALE_AFTER && SkewedAt(ops, k, skew)
    requires MeterOk(p, ops, k - 1) && WindowOk(p, ops, k - 1, start)
    ensures WindowOk(p, ops, k, start)
  {
    WindowStep(p, MeterAt(p, ops, k - 1), TableAt(ops, k - 1, p.cap), High(ops, k - 1), ops[k - 1], start,
               AdmittedInWindow(p, ops, k - 1, start));
  }

  lemma {:induction false} WindowInvariant(p: Probe, ops: seq<Op>, k: nat, start: nat, skew: nat)
    requires k <= |ops| && Skewed(ops, skew) && skew < STALE_AFTER && p.max < U32_MAX
    ensures WindowOk(p, ops, k, start)
  {
    if k == 0 {
      WindowFirst(p, ops, start);
    } else {
      WindowInvariant(p, ops, k - 1, start, skew);
      WindowAdvance(p, ops, k, start, skew);
    }
  }

  lemma {:induction false} WindowAdvance(p: Probe, ops: seq<Op>, k: nat, start: nat, skew: nat)
    requires 0 < k <= |ops| && Skewed(ops, skew) && skew < STALE_AFTER && p.max < U32_MAX
    requires WindowOk(p, ops, k - 1, start)
    ensures WindowOk(p, ops, k, start)
  {
    MeterInvariant(p, ops, k - 1);
    OpIsSkewed(ops, k, skew);
    WindowNext(p, ops, k, start, skew);
  }

  /** Each window admits at most the limit, however long the run. */
  lemma WindowBound(p: Probe, ops: seq<Op>, start: nat, skew: nat)
    requires Skewed(ops, skew) && skew < STALE_AFTER && p.max < U32_MAX
    ensures AdmittedInWindow(p, ops, |ops|, start) <= p.max
  {
    WindowInvariant(p, ops, |ops|, start, skew);
  }

  // --------------------------------------------------- eviction is invisible

  /** A limiter that never evicts and never runs out of room. */
  function FreeTableAt(ops: seq<Op>, k: nat): Table
    requires k <= |ops|
  {
    if k == 0 then map[]
    else
      var t := FreeTableAt(ops, k - 1);
      match ops[k - 1]
      case Check(uid, now) => t[uid := Bump(Current(t, uid, now))]
      case Clean(_) => t
  }

  predicate FreeAdmittedAt(ops: seq<Op>, k: nat, max: u32)
    requires k < |ops|
  {
    ops[k].Check? && Bump(Current(FreeTableAt(ops, k), ops[k].uid, ops[k].now)).count <= max
  }

  /** The two tables differ only in slots that are too old to matter. */
  ghost predicate SameButStale(t: Table, free: Table, high: nat) {
    && (forall uid :: uid in t ==> uid in free && free[uid] == t[uid])
    && (forall uid :: uid in free && uid !in t ==> high >= free[uid].lastReset + STALE_AFTER)
  }

  ghost predicate NeverFull(ops: seq<Op>, k: nat, cap: nat)
    requires k <= |ops|
  {
    forall i :: 0 <= i < k ==> HadRoom(ops, i, cap)
  }

  ghost predicate HadRoom(ops: seq<Op>, i: nat, cap: nat)
    requires i < |ops|
  {
    ops[i].Check? ==> !Full(TableAt(ops, i, cap), ops[i].uid, ops[i].now, cap)
  }

  lemma SameCurrent(t: Table, free: Table, high: nat, uid: u32, now: nat)
    requires SameButStale(t, free, high) && high < now + STALE_AFTER - RATE_WINDOW
    ensures Current(t, uid, now) == Current(free, uid, now)
  {
  }

  lemma StepSimulates(t: Table, free: Table, high: nat, uid: u32, now: nat, cap: nat)
    requires SameButStale(t, free, high) && high < now + STALE_AFTER - RATE_WINDOW && !Full(t, uid, now, cap)
    ensures SameButStale(CheckTable(t, uid, now, cap), free[uid := Bump(Current(free, uid, now))], Later(high, now))
  {
    SameCurrent(t, free, high, uid, now);
  }

  lemma CleanSimulates(t: Table, free: Table, high: nat, now: nat)
    requires SameButStale(t, free, high)
    ensures SameButStale(Cleanup(t, now), free, Later(high, now))
  {
  }

  ghost predicate Simulates(ops: seq<Op>, k: nat, cap: nat)
    requires k <= |ops|
  {
    SameButStale(TableAt(ops, k, cap), FreeTableAt(ops, k), High(ops, k))
  }

  lemma {:induction false} SimulationNext(ops: seq<Op>, k: nat, cap: nat, skew: nat)
    requires 0 < k <= |ops| && Simulates(ops, k - 1, cap) && HadRoom(ops, k - 1, cap)
    requires skew < STALE_AFTER - RATE_WINDOW && SkewedAt(ops, k, skew)
    ensures Simulates(ops, k, cap)
  {
    var t, free, high := TableAt(ops, k - 1, cap), FreeTableAt(ops, k - 1), High(ops, k - 1);
    match ops[k - 1]
    case Check(uid, now) => StepSimulates(t, free, high, uid, now, cap);
    case Clean(now) => CleanSimulates(t, free, high, now);
  }

  lemma {:induction false} Simulation(ops: seq<Op>, k: nat, cap: nat, skew: nat)
    requires k <= |ops| && Skewed(ops, skew) && skew < STALE_AFTER - RATE_WINDOW && NeverFull(ops, k, cap)
    ensures Simulates(ops, k, cap)
  {
    if k > 0 {
      Simulation(ops, k - 1, cap, skew);
      OpIsSkewed(ops, k, skew);
      SimulationNext(ops, k, cap, skew);
    }
  }

  /** Eviction is invisible: until a check is turned away for lack of room, every
      check gets the answer of the limiter that never evicts, wherever clean-ups
      fall, including the ones a full table triggers. */
  lemma EvictionInvisible(ops: seq<Op>, k: nat, max: u32, cap: nat, skew: nat)
    requires k < |ops| && Skewed(ops, skew) && skew < STALE_AFTER - RATE_WINDOW && NeverFull(ops, k + 1, cap)
    ensures AdmittedAt(ops, k, max, cap) <==> FreeAdmittedAt(ops, k, max)
  {
    Simulation(ops, k, cap, skew);
    OpIsSkewed(ops, k + 1, skew);
    assert HadRoom(ops, k, cap);
    if ops[k].Check? {
      SameCurrent(TableAt(ops, k, cap), FreeTableAt(ops, k), High(ops, k), ops[k].uid, ops[k].now);
    }
  }

  ghost predicate Invisible(max: u32, cap: nat, skew: nat) {
    forall ops, k: nat :: k < |ops| && Skewed(ops, skew) && NeverFull(ops, k + 1, cap) ==> SameAnswer(ops, k, max, cap)
  }

  ghost predicate SameAnswer(ops: seq<Op>, k: nat, max: u32, cap: nat)
    requires k < |ops|
  {
    AdmittedAt(ops, k, max, cap) <==> FreeAdmittedAt(ops, k, max)
  }

  /** A clean-up from so far ahead that a check inside the old window starts anew. */
  function EarlyEviction(): seq<Op> {
    [Check(0, 0), Clean(STALE_AFTER), Check(0, RATE_WINDOW)]
  }

  lemma EarlyEvictionShows(cap: nat)
    requires cap > 0
    ensures NeverFull(EarlyEviction(), 3, cap) && !SameAnswer(EarlyEviction(), 2, 1, cap)
  {
    var ops := EarlyEviction();
    assert TableAt(ops, 1, cap) == map[0 := RateEntry(0, 1)];
    assert TableAt(ops, 2, cap) == map[];
    assert FreeTableAt(ops, 1) == map[0 := RateEntry(0, 1)];
    assert FreeTableAt(ops, 2) == map[0 := RateEntry(0, 1)];
  }

  /** Eviction is invisible at limit one if and only if instants are out of order by
      less than `STALE_AFTER` minus the window; below that it is for every limit. */
  lemma InvisibleIff(cap: nat, skew: nat)
    requires cap > 0
    ensures Invisible(1, cap, skew) <==> skew < STALE_AFTER - RATE_WINDOW
  {
    if skew < STALE_AFTER - RATE_WINDOW {
      forall ops, k: nat | k < |ops| && Skewed(ops, skew) && NeverFull(ops, k + 1, cap)
        ensures SameAnswer(ops, k, 1, cap) {
        EvictionInvisible(ops, k, 1, cap, skew);
      }
    } else {
      EarlyEvictionShows(cap);
      assert Skewed(EarlyEviction(), skew);
    }
  }
}
