/** Adapter health (crates/ola-core/src/adapters/health.rs): a probe state
    machine.  The failure counter is 32 bits wide and wraps in release builds. */
module Health {
  import opened Bytes

  datatype HealthStatus = Up | Degraded | Down

  datatype HealthState = HealthState(status: HealthStatus, failures: u32, lastChecked: nat, lastSuccess: Option<nat>)

  datatype Probe = Probe(ok: bool, at: nat)

  function NewHealth(status: HealthStatus, now: nat): HealthState {
    HealthState(status, 0, now, if status == Up then Some(now) else None)
  }

  function RecordProbe(h: HealthState, p: Probe): HealthState {
    if p.ok then HealthState(Up, 0, p.at, Some(p.at))
    else
      var failures := (h.failures + 1) % 0x1_0000_0000;
      HealthState(if h.lastSuccess.Some? && failures < 3 then Degraded else Down, failures, p.at, h.lastSuccess)
  }

  class AdapterHealth {
    var status: HealthStatus
    var consecutiveFailures: u32
    var lastChecked: nat
    var lastSuccess: Option<nat>

    /** `new_health(Down, now)`, the only way an adapter starts. */
    constructor (now: nat)
      ensures State() == NewHealth(Down, now)
    {
      status, consecutiveFailures, lastChecked, lastSuccess := Down, 0, now, None;
    }

    function State(): HealthState
      reads this
    {
      HealthState(status, consecutiveFailures, lastChecked, lastSuccess)
    }

    /** `record_probe` */
    method Record(isUp: bool, now: nat)
      modifies this
      ensures State() == RecordProbe(old(State()), Probe(isUp, now))
    {
      if isUp {
        status := Up;
        consecutiveFailures := 0;
        lastSuccess := Some(now);
      } else {
        consecutiveFailures := (consecutiveFailures + 1) % 0x1_0000_0000;
        status := if lastSuccess.Some? && consecutiveFailures < 3 then Degraded else Down;
      }
      lastChecked := now;
    }
  }

  /** The state after a probe history, from the initial Down. */
  function After(start: nat, probes: seq<Probe>): HealthState {
    if probes == [] then NewHealth(Down, start)
    else RecordProbe(After(start, probes[..|probes| - 1]), probes[|probes| - 1])
  }

  // ------------------------------------------------ the history, independently

  /** How many probes at the end failed in a row. */
  function TrailingFailures(probes: seq<Probe>): nat {
    if probes == [] || probes[|probes| - 1].ok then 0 else 1 + TrailingFailures(probes[..|probes| - 1])
  }

  predicate EverSucceeded(probes: seq<Probe>) {
    exists i :: 0 <= i < |probes| && probes[i].ok
  }

  lemma SucceededFront(probes: seq<Probe>)
    requires probes != []
    ensures EverSucceeded(probes) <==> EverSucceeded(probes[..|probes| - 1]) || probes[|probes| - 1].ok
  {
    var front := probes[..|probes| - 1];
    if EverSucceeded(front) {
      var i :| 0 <= i < |front| && front[i].ok;
      assert probes[i].ok;
    }
    if EverSucceeded(probes) && !probes[|probes| - 1].ok {
      var i :| 0 <= i < |probes| && probes[i].ok;
      assert front[i].ok;
    }
  }

  /** The fields as functions of the history. */
  lemma {:induction false} StateIsHistory(start: nat, probes: seq<Probe>)
    ensures After(start, probes).failures == TrailingFailures(probes) % 0x1_0000_0000
    ensures After(start, probes).lastSuccess.Some? <==> EverSucceeded(probes)
  {
    if probes != [] {
      StateIsHistory(start, probes[..|probes| - 1]);
      SucceededFront(probes);
      WrapAdd(TrailingFailures(probes[..|probes| - 1]));
    }
  }

  lemma WrapAdd(n: nat)
    ensures (n % 0x1_0000_0000 + 1) % 0x1_0000_0000 == (n + 1) % 0x1_0000_0000
  {
  }

  /** Health refines its history, for every history and with the wrap of the
      counter: Up exactly after a success, Degraded exactly when some success is
      followed by failures whose count is below three once wrapped, Down
      otherwise. */
  lemma StatusIsHistory(start: nat, probes: seq<Probe>)
    ensures var h, f := After(start, probes), TrailingFailures(probes);
            && (h.status == Up <==> EverSucceeded(probes) && f == 0)
            && (h.status == Degraded <==> EverSucceeded(probes) && f > 0 && f % 0x1_0000_0000 < 3)
  {
    if probes != [] {
      StateIsHistory(start, probes[..|probes| - 1]);
      StateIsHistory(start, probes);
      SucceededFront(probes);
    }
  }

  /** The intended reading: Degraded is one or two failures after a success. */
  function Intended(probes: seq<Probe>): HealthStatus {
    if !EverSucceeded(probes) then Down
    else if TrailingFailures(probes) == 0 then Up
    else if TrailingFailures(probes) <= 2 then Degraded
    else Down
  }

  /** The code meets the intended reading exactly until, after some success, the
      failures in a row wrap the counter back below three. */
  lemma StatusAsIntended(start: nat, probes: seq<Probe>)
    ensures After(start, probes).status == Intended(probes) <==>
            !(EverSucceeded(probes) && TrailingFailures(probes) > U32_MAX
              && TrailingFailures(probes) % 0x1_0000_0000 < 3)
  {
    StatusIsHistory(start, probes);
  }

  lemma {:induction false} FailuresInARow(probes: seq<Probe>, n: nat)
    requires n < |probes| && probes[|probes| - 1 - n].ok
    requires forall i :: |probes| - n <= i < |probes| ==> !probes[i].ok
    ensures TrailingFailures(probes) == n
    decreases n
  {
    if n > 0 {
      FailuresInARow(probes[..|probes| - 1], n - 1);
    }
  }

  /** Where it stops: after one success and 2^32 failures the status is Degraded,
      not Down. */
  lemma WrapMisreads(start: nat)
    ensures var probes := [Probe(true, start)] + seq(0x1_0000_0000, (i: nat) => Probe(false, start));
            After(start, probes).status == Degraded && Intended(probes) == Down
  {
    var probes := [Probe(true, start)] + seq(0x1_0000_0000, (i: nat) => Probe(false, start));
    FailuresInARow(probes, 0x1_0000_0000);
    assert probes[0].ok;
    StatusIsHistory(start, probes);
  }
}
