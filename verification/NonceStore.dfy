/** The single-use challenge store (crates/ola-core/src/security/nonce.rs): a
    map of pending nonces with a redundant per-UID count index. */
module NonceStore {
  import opened Bytes

  type Nonce = Bytes32

  datatype Pending = Pending(issuedAt: nat, uid: u32)

  datatype NonceError = NotFound | Expired | UidMismatch | TableFull | TooManyForUid | RandomUnavailable

  datatype NonceState = NonceState(pending: map<Nonce, Pending>, perUid: map<u32, nat>)

  /** Thirty seconds, in nanoseconds of the monotonic clock. */
  const NONCE_TTL: nat := 30_000_000_000
  const MAX_PENDING_NONCES: nat := 1024
  const MAX_PENDING_NONCES_PER_UID: nat := 32
  const MAX_DRAWS: nat := 16

  // ------------------------------------------------------ the index it keeps

  /** The pending nonces that belong to one UID. */
  ghost function OwnedBy(pending: map<Nonce, Pending>, uid: u32): set<Nonce> {
    set n | n in pending && pending[n].uid == uid
  }

  ghost predicate IndexAt(pending: map<Nonce, Pending>, perUid: map<u32, nat>, uid: u32) {
    && (uid in perUid <==> OwnedBy(pending, uid) != {})
    && (uid in perUid ==> perUid[uid] == |OwnedBy(pending, uid)|)
  }

  /** The count index that the pending map determines. */
  ghost predicate IndexOf(pending: map<Nonce, Pending>, perUid: map<u32, nat>) {
    forall uid: u32 :: IndexAt(pending, perUid, uid)
  }

  /** The index agrees with the map and both caps hold. */
  ghost predicate Valid(s: NonceState) {
    && IndexOf(s.pending, s.perUid)
    && |s.pending| <= MAX_PENDING_NONCES
    && forall uid :: uid in s.perUid ==> 0 < s.perUid[uid] <= MAX_PENDING_NONCES_PER_UID
  }

  function Count(perUid: map<u32, nat>, uid: u32): nat {
    if uid in perUid then perUid[uid] else 0
  }

  /** `decrement_uid_count` */
  function Decrement(perUid: map<u32, nat>, uid: u32): map<u32, nat> {
    if uid in perUid && perUid[uid] > 1 then perUid[uid := perUid[uid] - 1] else perUid - {uid}
  }

  lemma OwnedInsert(pending: map<Nonce, Pending>, n: Nonce, p: Pending, uid: u32)
    requires n !in pending
    ensures OwnedBy(pending[n := p], uid) == OwnedBy(pending, uid) + if p.uid == uid then {n} else {}
  {
  }

  lemma OwnedRemove(pending: map<Nonce, Pending>, n: Nonce, uid: u32)
    requires n in pending
    ensures OwnedBy(pending - {n}, uid) == OwnedBy(pending, uid) - {n}
    ensures n in OwnedBy(pending, uid) <==> pending[n].uid == uid
  {
  }

  /** Issuing adds one to exactly one count. */
  lemma IndexInsert(pending: map<Nonce, Pending>, perUid: map<u32, nat>, n: Nonce, p: Pending)
    requires IndexOf(pending, perUid) && n !in pending
    ensures IndexOf(pending[n := p], perUid[p.uid := Count(perUid, p.uid) + 1])
  {
    var more, counts := pending[n := p], perUid[p.uid := Count(perUid, p.uid) + 1];
    forall uid: u32 ensures IndexAt(more, counts, uid) {
      assert IndexAt(pending, perUid, uid);
      OwnedInsert(pending, n, p, uid);
      assert n !in OwnedBy(pending, uid);
    }
  }

  /** Removing takes one from exactly one count, which is never already zero:
      the saturating subtraction never saturates. */
  lemma IndexRemove(pending: map<Nonce, Pending>, perUid: map<u32, nat>, n: Nonce)
    requires IndexOf(pending, perUid) && n in pending
    ensures pending[n].uid in perUid && perUid[pending[n].uid] >= 1
    ensures IndexOf(pending - {n}, Decrement(perUid, pending[n].uid))
  {
    OwnedRemove(pending, n, pending[n].uid);
    assert IndexAt(pending, perUid, pending[n].uid);
    var fewer, counts := pending - {n}, Decrement(perUid, pending[n].uid);
    forall uid: u32 ensures IndexAt(fewer, counts, uid) {
      assert IndexAt(pending, perUid, uid);
      OwnedRemove(pending, n, uid);
      var own := OwnedBy(pending, uid);
      if n in own {
        assert |own - {n}| == |own| - 1;
        assert own == (own - {n}) + {n};
      } else {
        assert own - {n} == own;
      }
    }
  }

  // ------------------------------------------------------------ the operations

  /** The draws of one call: each is 32 bytes, or a failure of the random source. */
  type Draws = seq<Option<Nonce>>

  /** The first draw from `i` on that decides the call. */
  function Draw(pending: map<Nonce, Pending>, draws: Draws, i: nat): Result<Nonce, NonceError>
    requires i <= |draws|
    decreases |draws| - i
  {
    if i == |draws| then Err(TableFull)
    else if draws[i].None? then Err(RandomUnavailable)
    else if draws[i].value in pending then Draw(pending, draws, i + 1)
    else Ok(draws[i].value)
  }

  function GenerateResult(s: NonceState, uid: u32, draws: Draws): (r: Result<Nonce, NonceError>)
  {
    if |s.pending| >= MAX_PENDING_NONCES then Err(TableFull)
    else if Count(s.perUid, uid) >= MAX_PENDING_NONCES_PER_UID then Err(TooManyForUid)
    else Draw(s.pending, draws, 0)
  }

  function GenerateState(s: NonceState, uid: u32, draws: Draws, now: nat): NonceState {
    match GenerateResult(s, uid, draws)
    case Err(_) => s
    case Ok(n) => NonceState(s.pending[n := Pending(now, uid)], s.perUid[uid := Count(s.perUid, uid) + 1])
  }

  function ConsumeResult(s: NonceState, n: Nonce, uid: u32, now: nat): Result<(), NonceError> {
    if n !in s.pending then Err(NotFound)
    else if Elapsed(now, s.pending[n].issuedAt) > NONCE_TTL then Err(Expired)
    else if s.pending[n].uid != uid then Err(UidMismatch)
    else Ok(())
  }

  function Remove(s: NonceState, n: Nonce): NonceState {
    if n !in s.pending then s
    else NonceState(s.pending - {n}, Decrement(s.perUid, s.pending[n].uid))
  }

  /** What the background sweep removes at instant `now`. */
  function Stale(s: NonceState, now: nat): set<Nonce> {
    set n | n in s.pending && Elapsed(now, s.pending[n].issuedAt) >= NONCE_TTL
  }

  /** The sweep, stated by what is left: the fresh nonces and their counts. */
  ghost predicate Swept(s: NonceState, t: NonceState, now: nat) {
    t.pending == s.pending - Stale(s, now) && Valid(t)
  }

  lemma FreshDraw(pending: map<Nonce, Pending>, draws: Draws, i: nat)
    requires i <= |draws| && Draw(pending, draws, i).Ok?
    ensures Draw(pending, draws, i).value !in pending
    decreases |draws| - i
  {
  }

  lemma CountIsOwned(s: NonceState, uid: u32)
    requires IndexOf(s.pending, s.perUid)
    ensures Count(s.perUid, uid) == |OwnedBy(s.pending, uid)|
  {
    assert IndexAt(s.pending, s.perUid, uid);
  }

  lemma GenerateKeepsValid(s: NonceState, uid: u32, draws: Draws, now: nat)
    requires Valid(s)
    ensures Valid(GenerateState(s, uid, draws, now))
  {
    if GenerateResult(s, uid, draws).Ok? {
      var n := GenerateResult(s, uid, draws).value;
      FreshDraw(s.pending, draws, 0);
      IndexInsert(s.pending, s.perUid, n, Pending(now, uid));
      assert |s.pending[n := Pending(now, uid)]| == |s.pending| + 1;
    }
  }

  lemma RemoveKeepsValid(s: NonceState, n: Nonce)
    requires Valid(s)
    ensures Valid(Remove(s, n))
    ensures Remove(s, n).pending == s.pending - {n}
  {
    if n in s.pending {
      IndexRemove(s.pending, s.perUid, n);
      PendingShrinks(s.pending, n);
    }
  }

  lemma PendingShrinks(pending: map<Nonce, Pending>, n: Nonce)
    ensures |pending - {n}| <= |pending|
  {
    assert (pending - {n}).Keys == pending.Keys - {n};
    assert |(pending - {n}).Keys| <= |pending.Keys|;
  }

  /** Two valid states with the same pending nonces have the same index. */
  lemma IndexUnique(s: NonceState, t: NonceState)
    requires IndexOf(s.pending, s.perUid) && IndexOf(t.pending, t.perUid) && s.pending == t.pending
    ensures s == t
  {
    forall uid: u32 ensures uid in s.perUid <==> uid in t.perUid {
      assert IndexAt(s.pending, s.perUid, uid) && IndexAt(t.pending, t.perUid, uid);
    }
    forall uid: u32 | uid in s.perUid ensures s.perUid[uid] == t.perUid[uid] {
      assert IndexAt(s.pending, s.perUid, uid) && IndexAt(t.pending, t.perUid, uid);
    }
    assert s.perUid == t.perUid;
  }

  // -------------------------------------------------------------- the object

  class Store {
    var pending: map<Nonce, Pending>
    var perUid: map<u32, nat>

    constructor ()
      ensures State() == NonceState(map[], map[]) && Valid(State())
    {
      pending, perUid := map[], map[];
    }

    function State(): NonceState
      reads this
    {
      NonceState(pending, perUid)
    }

    /** `generate`: up to sixteen draws, the first unused one is issued. */
    method Generate(uid: u32, draws: Draws, now: nat) returns (r: Result<Nonce, NonceError>)
      requires Valid(State()) && |draws| == MAX_DRAWS
      modifies this
      ensures Valid(State())
      ensures r == GenerateResult(old(State()), uid, draws)
      ensures State() == GenerateState(old(State()), uid, draws, now)
    {
      GenerateKeepsValid(State(), uid, draws, now);
      if |pending| >= MAX_PENDING_NONCES {
        return Err(TableFull);
      }
      if Count(perUid, uid) >= MAX_PENDING_NONCES_PER_UID {
        return Err(TooManyForUid);
      }
      for i := 0 to MAX_DRAWS
        invariant State() == old(State())
        invariant Draw(pending, draws, 0) == Draw(pending, draws, i)
      {
        if draws[i].None? {
          return Err(RandomUnavailable);
        }
        var nonce := draws[i].value;
        if nonce in pending {
          continue;
        }
        pending := pending[nonce := Pending(now, uid)];
        perUid := perUid[uid := Count(perUid, uid) + 1];
        return Ok(nonce);
      }
      r := Err(TableFull);
    }

    /** `consume`: remove first, judge afterwards. */
    method Consume(nonce: Nonce, uid: u32, now: nat) returns (r: Result<(), NonceError>)
      requires Valid(State())
      modifies this
      ensures Valid(State())
      ensures r == ConsumeResult(old(State()), nonce, uid, now)
      ensures State() == Remove(old(State()), nonce)
      ensures nonce !in pending
    {
      RemoveKeepsValid(State(), nonce);
      if nonce !in pending {
        return Err(NotFound);
      }
      var entry := pending[nonce];
      pending := pending - {nonce};
      perUid := Decrement(perUid, entry.uid);
      if Elapsed(now, entry.issuedAt) > NONCE_TTL {
        return Err(Expired);
      }
      if entry.uid != uid {
        return Err(UidMismatch);
      }
      r := Ok(());
    }

    /** The cleanup tick: collect the expired nonces, then remove one by one,
        decrementing as it goes. */
    method Sweep(now: nat)
      requires Valid(State())
      modifies this
      ensures Swept(old(State()), State(), now)
    {
      var expired := Stale(State(), now);
      while expired != {}
        invariant Valid(State())
        invariant expired <= pending.Keys
        invariant pending - expired == old(pending) - Stale(old(State()), now)
        decreases expired
      {
        var nonce :| nonce in expired;
        RemoveKeepsValid(State(), nonce);
        ghost var before, left := pending, expired - {nonce};
        var uid := pending[nonce].uid;
        pending := pending - {nonce};
        perUid := Decrement(perUid, uid);
        assert pending - left == before - expired;
        expired := expired - {nonce};
      }
    }
  }

  // ------------------------------------------------------------------ history

  /** What each completed call did to the pending set. */
  datatype Event =
    | Issued(nonce: Nonce, uid: u32, at: nat)
    | Spent(nonce: Nonce, uid: u32, at: nat)
    | Refused(nonce: Nonce, at: nat)
    | Expelled(nonces: set<Nonce>, at: nat)

  datatype Op =
    | DoGenerate(uid: u32, draws: Draws, now: nat)
    | DoConsume(nonce: Nonce, uid: u32, now: nat)
    | DoSweep(now: nat)

  /** The state after a sweep, as a function; `Store.Sweep` computes it. */
  ghost function SweepState(s: NonceState, now: nat): NonceState {
    NonceState(s.pending - Stale(s, now), IndexMap(s.pending - Stale(s, now)))
  }

  ghost function IndexMap(pending: map<Nonce, Pending>): map<u32, nat> {
    map uid | uid in (set n | n in pending :: pending[n].uid) :: |OwnedBy(pending, uid)|
  }

  ghost function Step(s: NonceState, op: Op): NonceState {
    match op
    case DoGenerate(uid, draws, now) => GenerateState(s, uid, draws, now)
    case DoConsume(nonce, _, _) => Remove(s, nonce)
    case DoSweep(now) => SweepState(s, now)
  }

  /** The event of a call, if it touched the pending set at all. */
  ghost function EventOf(s: NonceState, op: Op): seq<Event> {
    match op
    case DoGenerate(uid, draws, now) => (
      match GenerateResult(s, uid, draws)
      case Ok(n) => [Issued(n, uid, now)]
      case Err(_) => [])
    case DoConsume(nonce, uid, now) =>
      if nonce !in s.pending then []
      else if ConsumeResult(s, nonce, uid, now).Ok? then [Spent(nonce, uid, now)]
      else [Refused(nonce, now)]
    case DoSweep(now) => [Expelled(Stale(s, now), now)]
  }

  predicate About(e: Event, n: Nonce) {
    match e
    case Issued(m, _, _) => m == n
    case Spent(m, _, _) => m == n
    case Refused(m, _) => m == n
    case Expelled(ms, _) => n in ms
  }

  /** The most recent event about `n` among the first `k` events. */
  function LastAbout(h: seq<Event>, k: nat, n: Nonce): (r: Option<nat>)
    requires k <= |h|
    ensures r.Some? ==> r.value < k && About(h[r.value], n)
    ensures r.Some? ==> forall i :: r.value < i < k ==> !About(h[i], n)
    ensures r.None? ==> forall i :: 0 <= i < k ==> !About(h[i], n)
  {
    if k == 0 then None else if About(h[k - 1], n) then Some(k - 1) else LastAbout(h, k - 1, n)
  }

  /** `n` is outstanding after `k` events: the last thing that happened to it is
      the issue at index `i`. */
  ghost predicate OutstandingFrom(h: seq<Event>, k: nat, n: Nonce, i: nat)
    requires k <= |h|
  {
    LastAbout(h, k, n) == Some(i) && h[i].Issued?
  }

  /** The pending map is exactly the outstanding issues of the history. */
  ghost predicate Explains(h: seq<Event>, s: NonceState) {
    forall n: Nonce :: ExplainsOne(h, s, n)
  }

  ghost predicate ExplainsOne(h: seq<Event>, s: NonceState, n: Nonce) {
    match LastAbout(h, |h|, n)
    case Some(i) =>
      if h[i].Issued? then n in s.pending && s.pending[n] == Pending(h[i].at, h[i].uid) else n !in s.pending
    case None => n !in s.pending
  }

  /** A removal is justified by the issue it ends. */
  ghost predicate Justified(h: seq<Event>, j: nat)
    requires j < |h|
  {
    match h[j]
    case Issued(n, _, _) => forall i :: LastAbout(h, j, n) == Some(i) ==> !h[i].Issued?
    case Spent(n, uid, at) => exists i: nat :: SpendOf(h, j, i)
    case Refused(n, _) => exists i: nat :: OutstandingFrom(h, j, n, i)
    case Expelled(ns, at) => forall n :: n in ns ==> exists i: nat :: OldIssue(h, j, n, i, at)
  }

  /** The spend at `j` ended the issue at `i`: same nonce, same UID, within the
      TTL, and nothing happened to the nonce in between. */
  ghost predicate SpendOf(h: seq<Event>, j: nat, i: nat)
    requires j < |h|
  {
    && h[j].Spent?
    && OutstandingFrom(h, j, h[j].nonce, i)
    && h[i].uid == h[j].uid
    && Elapsed(h[j].at, h[i].at) <= NONCE_TTL
  }

  ghost predicate OldIssue(h: seq<Event>, j: nat, n: Nonce, i: nat, at: nat)
    requires j < |h|
  {
    OutstandingFrom(h, j, n, i) && Elapsed(at, h[i].at) >= NONCE_TTL
  }

  lemma {:induction false} LastAboutPrefix(h: seq<Event>, g: seq<Event>, k: nat, n: Nonce)
    requires k <= |h| && h <= g
    ensures LastAbout(g, k, n) == LastAbout(h, k, n)
    decreases k
  {
    if k > 0 {
      LastAboutPrefix(h, g, k - 1, n);
    }
  }

  lemma LastAboutSnoc(h: seq<Event>, e: Event, n: Nonce)
    ensures LastAbout(h + [e], |h| + 1, n) == if About(e, n) then Some(|h|) else LastAbout(h, |h|, n)
  {
    LastAboutPrefix(h, h + [e], |h|, n);
  }

  lemma SweepStateValid(s: NonceState, now: nat)
    requires Valid(s)
    ensures Swept(s, SweepState(s, now), now)
  {
    var t := SweepState(s, now);
    IndexMapIsIndex(t.pending);
    forall uid: u32 | uid in t.perUid ensures 0 < t.perUid[uid] <= MAX_PENDING_NONCES_PER_UID {
      var mine, all := OwnedBy(t.pending, uid), OwnedBy(s.pending, uid);
      assert mine <= all;
      SubsetSize(mine, all);
      assert IndexAt(t.pending, t.perUid, uid) && IndexAt(s.pending, s.perUid, uid);
      assert uid in s.perUid;
    }
    assert t.pending.Keys <= s.pending.Keys;
    SubsetSize(t.pending.Keys, s.pending.Keys);
  }

  lemma IndexMapIsIndex(pending: map<Nonce, Pending>)
    ensures IndexOf(pending, IndexMap(pending))
  {
    forall uid: u32 ensures IndexAt(pending, IndexMap(pending), uid) {
      if uid in IndexMap(pending) {
        var n :| n in pending && pending[n].uid == uid;
        assert n in OwnedBy(pending, uid);
      } else if OwnedBy(pending, uid) != {} {
        var n :| n in OwnedBy(pending, uid);
        assert false;
      }
    }
  }

  lemma {:induction false} SubsetSize<T>(a: set<T>, b: set<T>)
    requires a <= b
    ensures |a| <= |b|
  {
    assert b == a + (b - a);
  }

  /** Sweeping one by one in any order gives the same state as the function. */
  lemma SweepIsUnique(s: NonceState, t: NonceState, now: nat)
    requires Valid(s) && Swept(s, t, now)
    ensures t == SweepState(s, now)
  {
    SweepStateValid(s, now);
    IndexUnique(t, SweepState(s, now));
  }

  lemma StepKeepsValid(s: NonceState, op: Op)
    requires Valid(s)
    ensures Valid(Step(s, op))
  {
    match op
    case DoGenerate(uid, draws, now) => GenerateKeepsValid(s, uid, draws, now);
    case DoConsume(nonce, _, _) => RemoveKeepsValid(s, nonce);
    case DoSweep(now) => SweepStateValid(s, now);
  }

  /** Adding event `e` while `s` becomes `t` keeps nonce `n` explained. */
  lemma ExplainsSnoc(h: seq<Event>, s: NonceState, e: Event, t: NonceState, n: Nonce)
    requires ExplainsOne(h, s, n)
    requires !About(e, n) ==> (n in s.pending <==> n in t.pending) && (n in s.pending ==> s.pending[n] == t.pending[n])
    requires About(e, n) && e.Issued? ==> n in t.pending && t.pending[n] == Pending(e.at, e.uid)
    requires About(e, n) && !e.Issued? ==> n !in t.pending
    ensures ExplainsOne(h + [e], t, n)
  {
    LastAboutSnoc(h, e, n);
  }

  /** One call keeps the history faithful to the map. */
  lemma StepExplains(h: seq<Event>, s: NonceState, op: Op)
    requires Valid(s) && Explains(h, s)
    ensures Explains(h + EventOf(s, op), Step(s, op))
  {
    var t, added := Step(s, op), EventOf(s, op);
    if op.DoConsume? {
      RemoveKeepsValid(s, op.nonce);
    }
    if added == [] {
      assert h + added == h && t.pending == s.pending;
      forall n: Nonce ensures ExplainsOne(h, t, n) {
        assert ExplainsOne(h, s, n);
      }
    } else {
      assert added == [added[0]];
      forall n: Nonce ensures ExplainsOne(h + added, t, n) {
        assert ExplainsOne(h, s, n);
        ExplainsSnoc(h, s, added[0], t, n);
      }
    }
  }

  /** Every event a call adds is justified by what came before. */
  lemma StepJustified(h: seq<Event>, s: NonceState, op: Op)
    requires Valid(s) && Explains(h, s) && EventOf(s, op) != []
    ensures Justified(h + EventOf(s, op), |h|)
  {
    var e := EventOf(s, op)[0];
    var g := h + EventOf(s, op);
    assert g[|h|] == e;
    forall n: Nonce ensures LastAbout(g, |h|, n) == LastAbout(h, |h|, n) {
      LastAboutPrefix(h, g, |h|, n);
    }
    match op
    case DoGenerate(uid, draws, now) =>
      FreshDraw(s.pending, draws, 0);
      assert ExplainsOne(h, s, e.nonce);
    case DoConsume(nonce, uid, now) =>
      assert ExplainsOne(h, s, nonce);
      var i := LastAbout(h, |h|, nonce).value;
      if e.Spent? {
        assert SpendOf(g, |h|, i);
      } else {
        assert OutstandingFrom(g, |h|, nonce, i);
      }
    case DoSweep(now) =>
      forall n | n in e.nonces ensures exists i: nat :: OldIssue(g, |h|, n, i, now) {
        assert ExplainsOne(h, s, n);
        assert OldIssue(g, |h|, n, LastAbout(h, |h|, n).value, now);
      }
  }

  ghost predicate AllJustified(h: seq<Event>) {
    forall j: nat :: j < |h| ==> Justified(h, j)
  }

  /** Whether an event is justified depends only on what came before it. */
  lemma JustifiedPrefix(h: seq<Event>, g: seq<Event>, j: nat)
    requires j < |h| && h <= g
    ensures Justified(h, j) <==> Justified(g, j)
  {
    forall n: Nonce ensures LastAbout(g, j, n) == LastAbout(h, j, n) {
      LastAboutPrefix(h, g, j, n);
    }
    assert forall i: nat :: SpendOf(h, j, i) <==> SpendOf(g, j, i);
    assert forall n: Nonce, i: nat :: OutstandingFrom(h, j, n, i) <==> OutstandingFrom(g, j, n, i);
    assert forall n: Nonce, i: nat, at: nat :: OldIssue(h, j, n, i, at) <==> OldIssue(g, j, n, i, at);
  }

  lemma StepAllJustified(h: seq<Event>, s: NonceState, op: Op)
    requires Valid(s) && Explains(h, s) && AllJustified(h)
    ensures AllJustified(h + EventOf(s, op))
  {
    var g := h + EventOf(s, op);
    forall j: nat | j < |g| ensures Justified(g, j) {
      if j < |h| {
        JustifiedPrefix(h, g, j);
      } else {
        StepJustified(h, s, op);
      }
    }
  }

  // --------------------------------------------------------------------- runs

  /** State and history after a run of calls from the empty store. */
  ghost function Run(ops: seq<Op>): (NonceState, seq<Event>) {
    if ops == [] then (NonceState(map[], map[]), [])
    else
      var (s, h) := Run(ops[..|ops| - 1]);
      var op := ops[|ops| - 1];
      (Step(s, op), h + EventOf(s, op))
  }

  lemma EmptyExplains()
    ensures Valid(NonceState(map[], map[])) && Explains([], NonceState(map[], map[]))
  {
    forall uid: u32 ensures IndexAt(map[], map[], uid) {
      assert OwnedBy(map[], uid) == {};
    }
  }

  /** After any calls in any order: the index agrees with the map, the caps hold,
      the pending nonces are exactly the outstanding issues, and every removal
      ended an outstanding issue (a spend: same UID, within the TTL; a sweep: at
      least the TTL old). */
  lemma {:induction false} RunInvariant(ops: seq<Op>)
    ensures Valid(Run(ops).0) && Explains(Run(ops).1, Run(ops).0) && AllJustified(Run(ops).1)
  {
    if ops == [] {
      EmptyExplains();
    } else {
      var front, op := ops[..|ops| - 1], ops[|ops| - 1];
      RunInvariant(front);
      var (s, h) := Run(front);
      StepKeepsValid(s, op);
      StepExplains(h, s, op);
      StepAllJustified(h, s, op);
    }
  }

  /** Single use: two spends never end the same issue. */
  lemma SpendsAreDistinct(h: seq<Event>, j: nat, k: nat, i: nat)
    requires j < k < |h| && SpendOf(h, j, i)
    ensures !SpendOf(h, k, i)
  {
    assert About(h[j], h[i].nonce);
  }

  // ------------------------------------------------------------- conservation

  ghost function IssuedCount(h: seq<Event>, n: Nonce): nat {
    if h == [] then 0
    else IssuedCount(h[..|h| - 1], n) + if h[|h| - 1].Issued? && h[|h| - 1].nonce == n then 1 else 0
  }

  ghost function RemovedCount(h: seq<Event>, n: Nonce): nat {
    if h == [] then 0
    else RemovedCount(h[..|h| - 1], n) + if !h[|h| - 1].Issued? && About(h[|h| - 1], n) then 1 else 0
  }

  ghost function SpentCount(h: seq<Event>, n: Nonce): nat {
    if h == [] then 0
    else SpentCount(h[..|h| - 1], n) + if h[|h| - 1].Spent? && h[|h| - 1].nonce == n then 1 else 0
  }

  lemma {:induction false} SpentAreRemoved(h: seq<Event>, n: Nonce)
    ensures SpentCount(h, n) <= RemovedCount(h, n)
  {
    if h != [] {
      SpentAreRemoved(h[..|h| - 1], n);
    }
  }

  lemma JustifiedFront(h: seq<Event>)
    requires h != [] && AllJustified(h)
    ensures AllJustified(h[..|h| - 1])
  {
    var g := h[..|h| - 1];
    forall j: nat | j < |g| ensures Justified(g, j) {
      JustifiedPrefix(g, h, j);
    }
  }

  ghost predicate Outstanding(h: seq<Event>, n: Nonce) {
    exists i: nat :: OutstandingFrom(h, |h|, n, i)
  }

  /** Conservation, for every nonce value: issues are exactly removals plus the
      one that may still be pending, so spends never outnumber issues. */
  lemma {:induction false} Conservation(h: seq<Event>, n: Nonce)
    requires AllJustified(h)
    ensures IssuedCount(h, n) == RemovedCount(h, n) + if Outstanding(h, n) then 1 else 0
    ensures SpentCount(h, n) <= IssuedCount(h, n)
  {
    if h != [] {
      var g, e := h[..|h| - 1], h[|h| - 1];
      assert h == g + [e];
      JustifiedFront(h);
      Conservation(g, n);
      LastAboutSnoc(g, e, n);
      LastAboutPrefix(g, h, |g|, n);
      assert Justified(h, |g|);
      OutstandingIs(g, n);
      OutstandingIs(h, n);
    }
    SpentAreRemoved(h, n);
  }

  lemma OutstandingIs(h: seq<Event>, n: Nonce)
    ensures Outstanding(h, n) <==> LastAbout(h, |h|, n).Some? && h[LastAbout(h, |h|, n).value].Issued?
  {
    if LastAbout(h, |h|, n).Some? && h[LastAbout(h, |h|, n).value].Issued? {
      assert OutstandingFrom(h, |h|, n, LastAbout(h, |h|, n).value);
    }
  }
}
