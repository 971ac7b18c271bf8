/** The adapter registry (crates/ola-core/src/adapters/registry.rs): loading,
    availability and the resolution of `any`. */
module Registry {
  import opened Bytes
  import opened Health

  datatype AdapterConfig = AdapterConfig(name: string, methodNames: seq<string>, timeoutMs: nat)

  datatype Client = Client(name: string, timeoutMs: nat)

  datatype LoadError = DuplicateAdapter(name: string) | DuplicateMethod(name: string)

  // ------------------------------------------------------------------- loading

  /** Method `m` is listed by configuration `k`. */
  ghost predicate Lists(configs: seq<AdapterConfig>, k: nat, m: string)
    requires k < |configs|
  {
    m in configs[k].methodNames
  }

  /** Adapter names are distinct and every method is listed once. */
  ghost predicate Unambiguous(configs: seq<AdapterConfig>) {
    && (forall i, j :: 0 <= i < j < |configs| ==> configs[i].name != configs[j].name)
    && (forall i: nat, j: nat, m :: i < j < |configs| && Lists(configs, i, m) ==> !Lists(configs, j, m))
    && (forall i :: 0 <= i < |configs| ==> NoRepeats(configs[i].methodNames))
  }

  ghost predicate NoRepeats(names: seq<string>) {
    forall i, j :: 0 <= i < j < |names| ==> names[i] != names[j]
  }

  /** `clients` sends each listed method to the configuration that lists it. */
  ghost predicate Routes(clients: map<string, Client>, configs: seq<AdapterConfig>) {
    && (forall k: nat, m :: k < |configs| && Lists(configs, k, m) ==>
          m in clients && clients[m] == Client(configs[k].name, configs[k].timeoutMs))
    && (forall m :: m in clients ==> exists k: nat :: k < |configs| && Lists(configs, k, m))
  }

  /** Method `m` is listed although it is owned already, or listed twice. */
  ghost predicate Repeats(clients: map<string, Client>, names: seq<string>, m: string) {
    m in names && (m in clients || exists i, j :: 0 <= i < j < |names| && names[i] == names[j] == m)
  }

  /** Configuration `i` is the first that cannot be added, for the given reason;
      `clients` are the routes of those before it. */
  ghost predicate Offends(configs: seq<AdapterConfig>, i: nat, clients: map<string, Client>, error: LoadError) {
    && i < |configs| && Unambiguous(configs[..i]) && Routes(clients, configs[..i])
    && match error
       case DuplicateAdapter(n) => configs[i].name == n && exists j :: 0 <= j < i && configs[j].name == n
       case DuplicateMethod(m) => Repeats(clients, configs[i].methodNames, m)
  }

  /** Adds the methods of one adapter, stopping at the first one already owned. */
  method AddMethods(clients: map<string, Client>, client: Client, names: seq<string>)
    returns (r: Result<map<string, Client>, LoadError>)
    ensures r.Ok? <==> NoRepeats(names) && forall m :: m in names ==> m !in clients
    ensures r.Err? ==> r.error.DuplicateMethod? && Repeats(clients, names, r.error.name)
    ensures r.Ok? ==> forall m :: m in r.value <==> m in clients || m in names
    ensures r.Ok? ==> forall m :: m in r.value ==> r.value[m] == if m in names then client else clients[m]
  {
    var all := clients;
    for i := 0 to |names|
      invariant NoRepeats(names[..i]) && forall m :: m in names[..i] ==> m !in clients
      invariant forall m :: m in all <==> m in clients || m in names[..i]
      invariant forall m :: m in all ==> all[m] == if m in names[..i] then client else clients[m]
    {
      var name := names[i];
      assert names[..i + 1] == names[..i] + [name];
      if name in all {
        if name !in clients {
          var j :| 0 <= j < i && names[..i][j] == name;
          assert names[j] == names[i];
        }
        assert Repeats(clients, names, name);
        return Err(DuplicateMethod(name));
      }
      all := all[name := client];
    }
    assert names[..|names|] == names;
    r := Ok(all);
  }

  /** `load_from_dir_with_owner` once the configurations are read. */
  method LoadRegistry(configs: seq<AdapterConfig>) returns (r: Result<map<string, Client>, LoadError>)
    ensures r.Ok? <==> Unambiguous(configs)
    ensures r.Ok? ==> Routes(r.value, configs)
    ensures r.Err? ==> exists i: nat, clients :: Offends(configs, i, clients, r.error)
  {
    var clients: map<string, Client>, names: set<string> := map[], {};
    for i := 0 to |configs|
      invariant Unambiguous(configs[..i]) && Routes(clients, configs[..i])
      invariant forall n :: n in names <==> exists j :: 0 <= j < i && configs[j].name == n
    {
      var config, done := configs[i], configs[..i];
      if config.name in names {
        assert Offends(configs, i, clients, DuplicateAdapter(config.name));
        return Err(DuplicateAdapter(config.name));
      }
      names := names + {config.name};
      var client := Client(config.name, config.timeoutMs);
      var added := AddMethods(clients, client, config.methodNames);
      if added.Err? {
        StillAmbiguous(configs, i, clients);
        assert Offends(configs, i, clients, added.error);
        return Err(added.error);
      }
      RoutesGrow(configs, i, clients, added.value);
      clients := added.value;
    }
    assert configs[..|configs|] == configs;
    r := Ok(clients);
  }

  lemma StillAmbiguous(configs: seq<AdapterConfig>, i: nat, clients: map<string, Client>)
    requires i < |configs| && Routes(clients, configs[..i])
    requires !(NoRepeats(configs[i].methodNames) && forall m :: m in configs[i].methodNames ==> m !in clients)
    ensures !Unambiguous(configs)
  {
    if NoRepeats(configs[i].methodNames) {
      var m :| m in configs[i].methodNames && m in clients;
      var k: nat :| k < i && Lists(configs[..i], k, m);
      assert Lists(configs, k, m) && Lists(configs, i, m);
    }
  }

  lemma RoutesGrow(configs: seq<AdapterConfig>, i: nat, clients: map<string, Client>, more: map<string, Client>)
    requires i < |configs| && Unambiguous(configs[..i]) && Routes(clients, configs[..i])
    requires forall j :: 0 <= j < i ==> configs[j].name != configs[i].name
    requires NoRepeats(configs[i].methodNames) && forall m :: m in configs[i].methodNames ==> m !in clients
    requires forall m :: m in more <==> m in clients || m in configs[i].methodNames
    requires forall m :: m in more ==>
               more[m] == if m in configs[i].methodNames then Client(configs[i].name, configs[i].timeoutMs)
                 else clients[m]
    ensures Unambiguous(configs[..i + 1]) && Routes(more, configs[..i + 1])
  {
    var front, longer := configs[..i], configs[..i + 1];
    forall k: nat, m | k < i ensures Lists(longer, k, m) <==> Lists(front, k, m) {
    }
    forall m ensures Lists(longer, i, m) <==> m in configs[i].methodNames {
    }
    forall a: nat, b: nat, m | a < b < |longer| && Lists(longer, a, m) ensures !Lists(longer, b, m) {
      if b == i {
        assert Lists(front, a, m);
      } else {
        assert Lists(front, a, m) && !Lists(front, b, m);
      }
    }
    forall m | m in more ensures exists k: nat :: k < |longer| && Lists(longer, k, m) {
      if m in clients {
        var k: nat :| k < |front| && Lists(front, k, m);
        assert Lists(longer, k, m);
      } else {
        assert Lists(longer, i, m);
      }
    }
    forall k: nat, m | k < |longer| && Lists(longer, k, m)
      ensures m in more && more[m] == Client(longer[k].name, longer[k].timeoutMs)
    {
      if k < i {
        assert Lists(front, k, m);
      }
    }
  }

  // ------------------------------------------------------------------ ordering

  /** String order: byte-wise on UTF-8, which is scalar by scalar. */
  predicate Before(a: string, b: string) {
    b != [] && (a == [] || a[0] < b[0] || (a[0] == b[0] && Before(a[1..], b[1..])))
  }

  lemma {:induction false} BeforeTotal(a: string, b: string)
    ensures Before(a, b) || a == b || Before(b, a)
    ensures !(Before(a, b) && Before(b, a)) && !Before(a, a)
  {
    if a != [] && b != [] {
      BeforeTotal(a[1..], b[1..]);
      BeforeTotal(a[1..], a[1..]);
      assert a == [a[0]] + a[1..] && b == [b[0]] + b[1..];
    } else if a != [] {
      BeforeTotal(a[1..], a[1..]);
    }
  }

  lemma {:induction false} BeforeTransitive(a: string, b: string, c: string)
    requires Before(a, b) && Before(b, c)
    ensures Before(a, c)
  {
    if a != [] && a[0] == b[0] == c[0] {
      BeforeTransitive(a[1..], b[1..], c[1..]);
    }
  }

  ghost predicate Ascending(names: seq<string>) {
    forall i, j :: 0 <= i < j < |names| ==> Before(names[i], names[j])
  }

  // -------------------------------------------------------------- availability

  /** `adapter_down`: absent from the health map counts as down. */
  predicate AdapterDown(health: map<string, HealthState>, name: string) {
    name !in health || health[name].status == Down
  }

  predicate Available(clients: map<string, Client>, health: map<string, HealthState>, m: string) {
    m in clients && !AdapterDown(health, clients[m].name)
  }

  method InsertSorted(names: seq<string>, x: string) returns (r: seq<string>)
    requires Ascending(names) && x !in names
    ensures Ascending(r) && forall y :: y in r <==> y in names || y == x
  {
    var i := 0;
    while i < |names| && Before(names[i], x)
      invariant i <= |names|
      invariant forall k :: 0 <= k < i ==> Before(names[k], x)
    {
      i := i + 1;
    }
    r := names[..i] + [x] + names[i..];
    forall k | i <= k < |names| ensures Before(x, names[k]) {
      BeforeTotal(names[i], x);
      if k > i {
        BeforeTransitive(x, names[i], names[k]);
      }
    }
    InsertedAscending(names, i, x);
    assert names == names[..i] + names[i..];
  }

  lemma InsertedAscending(names: seq<string>, i: nat, x: string)
    requires i <= |names| && Ascending(names)
    requires forall k :: 0 <= k < i ==> Before(names[k], x)
    requires forall k :: i <= k < |names| ==> Before(x, names[k])
    ensures Ascending(names[..i] + [x] + names[i..])
  {
    var r := names[..i] + [x] + names[i..];
    forall a, b | 0 <= a < b < |r| ensures Before(r[a], r[b]) {
      var p := if a < i then a else a - 1;
      var q := if b < i then b else b - 1;
      assert a != i ==> r[a] == names[p];
      assert b != i ==> r[b] == names[q];
    }
  }

  /** `available_methods`: filter the keys, whatever their map order, then sort.  The
      lock on the health map is taken once for each method, so `down` is what each
      method's own reading said, and a probe may have fallen between two of them. */
  method AvailableMethods(clients: map<string, Client>, down: string -> bool) returns (names: seq<string>)
    ensures Ascending(names)
    ensures forall m :: m in names <==> m in clients && !down(m)
  {
    names := [];
    var left := clients.Keys;
    while left != {}
      invariant left <= clients.Keys && Ascending(names)
      invariant forall m :: m in names <==> m in clients && m !in left && !down(m)
      decreases left
    {
      var m :| m in left;
      left := left - {m};
      if !down(m) {
        names := InsertSorted(names, m);
      }
    }
  }

  /** `resolve_client`, on one reading of the health map for each method. */
  method Resolve(clients: map<string, Client>, down: string -> bool, m: string) returns (r: Option<(string, Client)>)
    ensures m != "any" ==> r == if m in clients then Some((m, clients[m])) else None
    ensures m == "any" ==> (r.None? <==> forall n :: n in clients ==> down(n))
    ensures m == "any" && r.Some? ==>
              && r.value.0 in clients && !down(r.value.0) && r.value.1 == clients[r.value.0]
              && forall n :: n in clients && !down(n) ==> n == r.value.0 || Before(r.value.0, n)
  {
    if m == "any" {
      var names := AvailableMethods(clients, down);
      if names == [] {
        return None;
      }
      assert names[0] in names;
      r := Some((names[0], clients[names[0]]));
      forall n | n in clients && !down(n) ensures n == names[0] || Before(names[0], n) {
        assert n in names;
      }
    } else {
      r := if m in clients then Some((m, clients[m])) else None;
    }
  }

  /** `name` is what `any` resolves to on the readings `up`: the least method seen up,
      or nothing when none was. */
  predicate Picks(up: map<string, bool>, name: Option<string>) {
    match name
    case None => forall m :: m in up ==> !up[m]
    case Some(n) => n in up && up[n] && forall m :: m in up && up[m] ==> m == n || Before(n, m)
  }

  /** There is always something to pick. */
  lemma {:induction false} SomethingToPick(up: map<string, bool>) returns (name: Option<string>)
    ensures Picks(up, name)
    decreases |up|
  {
    if forall m :: m in up ==> !up[m] {
      name := None;
    } else {
      var m :| m in up && up[m];
      var rest := up - {m};
      assert rest.Keys == up.Keys - {m};
      assert |rest.Keys| < |up.Keys|;
      var least := SomethingToPick(rest);
      name := if least.Some? && Before(least.value, m) then least else Some(m);
      forall n | n in up && up[n] && n != m ensures name == Some(n) || Before(name.value, n) {
        assert n in rest && rest[n];
        BeforeTotal(least.value, m);
        if name == Some(m) && n != least.value {
          BeforeTransitive(m, least.value, n);
        }
      }
    }
  }

  /** Two ascending lists with the same members are the same list, so the answer
      of `available_methods` is determined by the registry and the health map. */
  lemma {:induction false} AscendingUnique(a: seq<string>, b: seq<string>)
    requires Ascending(a) && Ascending(b) && forall x :: x in a <==> x in b
    ensures a == b
    decreases |a|
  {
    assert b != [] ==> b[0] in b;
    if a != [] {
      assert a[0] in a;
      HeadsAgree(a, b);
      forall x ensures x in a[1..] <==> x in b[1..] {
        TailMembers(a, x);
        TailMembers(b, x);
      }
      AscendingUnique(a[1..], b[1..]);
    }
  }

  lemma TailMembers(a: seq<string>, x: string)
    requires Ascending(a) && a != []
    ensures x in a[1..] <==> x in a && x != a[0]
  {
    BeforeTotal(a[0], a[0]);
    assert a == [a[0]] + a[1..];
    if x in a[1..] {
      var i :| 0 <= i < |a[1..]| && a[1..][i] == x;
      assert Before(a[0], a[i + 1]);
    }
  }

  lemma HeadsAgree(a: seq<string>, b: seq<string>)
    requires Ascending(a) && Ascending(b) && a != [] && forall x :: x in a <==> x in b
    ensures b != [] && a[0] == b[0]
  {
    assert a[0] in a && a[0] in b;
    assert b[0] in b && b[0] in a;
    var i :| 0 <= i < |b| && b[i] == a[0];
    var j :| 0 <= j < |a| && a[j] == b[0];
    BeforeTotal(a[0], b[0]);
  }

  // ------------------------------------------------ availability over history

  /** The monitor's map after a list of probe results for named adapters, each
      recorded under the lock; a missing slot is first created Down. */
  function Monitor(names: set<string>, start: nat, events: seq<(string, Probe)>): map<string, HealthState> {
    if events == [] then map n | n in names :: NewHealth(Down, start)
    else
      var health := Monitor(names, start, events[..|events| - 1]);
      var (name, probe) := events[|events| - 1];
      health[name := RecordProbe(if name in health then health[name] else NewHealth(Down, probe.at), probe)]
  }

  /** The probes of one adapter, in order. */
  function ProbesOf(events: seq<(string, Probe)>, name: string): seq<Probe> {
    if events == [] then []
    else
      var probes, (n, probe) := ProbesOf(events[..|events| - 1], name), events[|events| - 1];
      if n == name then probes + [probe] else probes
  }

  lemma {:induction false} MonitorIsHistory(names: set<string>, start: nat, events: seq<(string, Probe)>, name: string)
    requires name in names
    ensures name in Monitor(names, start, events)
    ensures Monitor(names, start, events)[name] == After(start, ProbesOf(events, name))
  {
    if events != [] {
      var front := events[..|events| - 1];
      MonitorIsHistory(names, start, front, name);
      var (n, probe) := events[|events| - 1];
      if n == name {
        var probes := ProbesOf(front, name);
        assert (probes + [probe])[..|probes|] == probes;
      }
    }
  }

  /** A method is available exactly when its adapter has ever answered and its
      failures since then, as the 32-bit counter reads them, are below three. */
  lemma AvailableIffHistory(
    clients: map<string, Client>, names: set<string>, start: nat, events: seq<(string, Probe)>, m: string)
    requires m in clients ==> clients[m].name in names
    ensures Available(clients, Monitor(names, start, events), m) <==>
            && m in clients
            && var probes := ProbesOf(events, clients[m].name);
               EverSucceeded(probes) && TrailingFailures(probes) % 0x1_0000_0000 < 3
  {
    if m in clients {
      MonitorIsHistory(names, start, events, clients[m].name);
      StatusIsHistory(start, ProbesOf(events, clients[m].name));
    }
  }
}
