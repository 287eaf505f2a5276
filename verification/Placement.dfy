/** Matching server and client names to hosts: nested round robin over data centres and machines. */
module Placement {
  import opened Basics
  import opened RoundRobin
  import opened Hosts

  datatype Error = DivisionByZero | EmptyCycle | NoClientMachines

  type Placing<T> = Result<T, Error>

  type Machines = map<string, seq<string>>

  ghost predicate Covers(keys: seq<string>, m: Machines) {
    && keys != [] && Distinct(keys)
    && forall j :: 0 <= j < |keys| ==> keys[j] in m
  }

  /** The first n turns never reach a data centre without machines. */
  ghost predicate Served(keys: seq<string>, m: Machines, n: nat)
    requires Covers(keys, m)
  {
    forall j :: 0 <= j < |keys| && j < n ==> m[keys[j]] != []
  }

  lemma ServedAt(keys: seq<string>, m: Machines, n: nat, i: nat)
    requires Covers(keys, m) && Served(keys, m, n) && i < n
    ensures m[keys[i % |keys|]] != []
  {
    if i < |keys| {
      DivModUnique(i, |keys|, 0, i);
    }
  }

  /** The closed form of nested round robin. */
  function HostOf(keys: seq<string>, m: Machines, i: nat): string
    requires Covers(keys, m) && m[keys[i % |keys|]] != []
  {
    var machines := m[keys[i % |keys|]];
    machines[(i / |keys|) % |machines|]
  }

  // ----- the cyclic iterators

  datatype Cycle = Cycle(items: seq<string>, pos: nat)

  function Next(c: Cycle): (string, Cycle)
    requires c.pos < |c.items|
  {
    (c.items[c.pos], c.(pos := (c.pos + 1) % |c.items|))
  }

  /** The iterator of each data centre after i turns of the outer cycle. */
  ghost predicate InStep(its: map<string, Cycle>, keys: seq<string>, m: Machines, i: nat)
    requires Covers(keys, m)
  {
    forall j :: 0 <= j < |keys| ==>
                  && keys[j] in its && its[keys[j]].items == m[keys[j]]
                  && (m[keys[j]] != [] ==> its[keys[j]].pos == Turns(i, j, |keys|) % |m[keys[j]]|)
  }

  lemma StepKeeps(its: map<string, Cycle>, keys: seq<string>, m: Machines, i: nat)
    requires Covers(keys, m) && InStep(its, keys, m, i) && m[keys[i % |keys|]] != []
    ensures var dc := keys[i % |keys|];
      && its[dc].pos < |its[dc].items|
      && Next(its[dc]).0 == HostOf(keys, m, i)
      && InStep(its[dc := Next(its[dc]).1], keys, m, i + 1)
  {
    var t := i % |keys|;
    var dc := keys[t];
    var its' := its[dc := Next(its[dc]).1];
    assert Turns(i, t, |keys|) == i / |keys|;
    forall j | 0 <= j < |keys|
      ensures keys[j] in its' && its'[keys[j]].items == m[keys[j]]
      ensures m[keys[j]] != [] ==> its'[keys[j]].pos == Turns(i + 1, j, |keys|) % |m[keys[j]]|
    {
      TurnsStep(i, j, |keys|);
      if j == t {
        CursorStep(Turns(i, j, |keys|), |m[dc]|);
      } else {
        assert keys[j] != dc;
      }
    }
  }

  ghost predicate Placed(p: map<string, string>, names: seq<string>, keys: seq<string>, m: Machines)
    requires Covers(keys, m)
  {
    && Served(keys, m, |names|)
    && (forall i :: 0 <= i < |names| ==>
          m[keys[i % |keys|]] != [] && names[i] in p && p[names[i]] == HostOf(keys, m, i))
  }

  lemma PlacedStep(p: map<string, string>, names: seq<string>, name: string, keys: seq<string>, m: Machines)
    requires Covers(keys, m) && Placed(p, names, keys, m) && name !in names && m[keys[|names| % |keys|]] != []
    ensures Placed(p[name := HostOf(keys, m, |names|)], names + [name], keys, m)
  {
    ServedStep(keys, m, |names|);
  }

  /** Gives each name the next host, and fails exactly when a machine list it needs is empty. */
  method Assign(process: map<string, string>, names: seq<string>, keys: seq<string>, m: Machines)
    returns (r: Placing<map<string, string>>)
    requires Covers(keys, m) && Distinct(names)
    ensures r.Ok? <==> Served(keys, m, |names|)
    ensures r.Err? ==> r.error == EmptyCycle
    ensures r.Ok? ==>
      && Placed(r.value, names, keys, m)
      && (forall x :: x in r.value <==> x in process || x in names)
      && (forall x :: x in process && x !in names ==> r.value[x] == process[x])
  {
    var its := map dc | dc in m :: Cycle(m[dc], 0);
    var turn, p := 0, process;
    InitInStep(its, keys, m);
    for n := 0 to |names|
      invariant turn == n % |keys| && InStep(its, keys, m, n)
      invariant Placed(p, names[..n], keys, m)
      invariant forall x :: x in p <==> x in process || x in names[..n]
      invariant forall x :: x in process && x !in names[..n] ==> p[x] == process[x]
    {
      var dc := keys[turn];
      CursorStep(n, |keys|);
      turn := (turn + 1) % |keys|;
      if |its[dc].items| == 0 {
        EmptyMachines(keys, m, n);
        return Err(EmptyCycle);
      }
      StepKeeps(its, keys, m, n);
      var (host, it) := Next(its[dc]);
      its := its[dc := it];
      assert names[..n + 1] == names[..n] + [names[n]];
      PlacedStep(p, names[..n], names[n], keys, m);
      p := p[names[n] := host];
    }
    assert names[..|names|] == names;
    return Ok(p);
  }

  lemma InitInStep(its: map<string, Cycle>, keys: seq<string>, m: Machines)
    requires Covers(keys, m)
    requires forall dc :: dc in m ==> dc in its && its[dc] == Cycle(m[dc], 0)
    ensures InStep(its, keys, m, 0)
  {
    DivModUnique(0, |keys|, 0, 0);
    forall j | 0 <= j < |keys| && m[keys[j]] != [] ensures 0 == Turns(0, j, |keys|) % |m[keys[j]]| {
      DivModUnique(0, |m[keys[j]]|, 0, 0);
    }
  }

  /** A centre with no machines is first met on the first lap. */
  lemma EmptyMachines(keys: seq<string>, m: Machines, n: nat)
    requires Covers(keys, m) && Served(keys, m, n) && m[keys[n % |keys|]] == []
    ensures forall k :: k > n ==> !Served(keys, m, k)
  {
    var j := n % |keys|;
    assert j <= n by {
      assert n == (n / |keys|) * |keys| + j;
    }
    forall k: nat | k > n ensures !Served(keys, m, k) {
      assert 0 <= j < |keys| && j < k && m[keys[j]] == [];
    }
  }

  lemma ServedStep(keys: seq<string>, m: Machines, n: nat)
    requires Covers(keys, m) && Served(keys, m, n) && m[keys[n % |keys|]] != []
    ensures Served(keys, m, n + 1)
  {
    if n < |keys| {
      DivModUnique(n, |keys|, 0, n);
    }
  }

  // ----- loads

  /** How many of the first n names are placed on host h. */
  ghost function Load(keys: seq<string>, m: Machines, n: nat, h: string): nat
    requires Covers(keys, m) && Served(keys, m, n)
  {
    if n == 0 then 0
    else
      ServedAt(keys, m, n, n - 1);
      Load(keys, m, n - 1, h) + if HostOf(keys, m, n - 1) == h then 1 else 0
  }

  /** The names that the table puts on host h, by position. */
  ghost function Hosted(p: map<string, string>, names: seq<string>, h: string): set<nat> {
    set i: nat | i < |names| && names[i] in p && p[names[i]] == h
  }

  /** A table filled by round robin puts as many names on a host as the closed form says. */
  lemma {:induction false} PlacedLoad(p: map<string, string>, names: seq<string>, keys: seq<string>, m: Machines,
                                      h: string)
    requires Covers(keys, m) && Placed(p, names, keys, m)
    ensures |Hosted(p, names, h)| == Load(keys, m, |names|, h)
  {
    if names == [] {
      assert Hosted(p, names, h) == {};
    } else {
      var n := |names| - 1;
      PlacedLoad(p, names[..n], keys, m, h);
      HostedStep(p, names, h);
    }
  }

  lemma HostedStep(p: map<string, string>, names: seq<string>, h: string)
    requires names != [] && names[|names| - 1] in p
    ensures var n := |names| - 1;
      |Hosted(p, names, h)| == |Hosted(p, names[..n], h)| + if p[names[n]] == h then 1 else 0
  {
    var n := |names| - 1;
    var before := Hosted(p, names[..n], h);
    assert Hosted(p, names, h) == if p[names[n]] == h then before + {n} else before;
  }

  ghost function CentreLoad(keys: seq<string>, n: nat, j: nat): nat
    requires j < |keys|
  {
    if n == 0 then 0 else CentreLoad(keys, n - 1, j) + if (n - 1) % |keys| == j then 1 else 0
  }

  /** Data centre j gets Turns(n, j, D) of the first n names, so two centres differ by at most one. */
  lemma {:induction false} CentresBalanced(keys: seq<string>, n: nat, j: nat, k: nat)
    requires j < |keys| && k < |keys|
    ensures CentreLoad(keys, n, j) == Turns(n, j, |keys|)
    ensures CentreLoad(keys, n, j) <= CentreLoad(keys, n, k) + 1
  {
    if n > 0 {
      CentresBalanced(keys, n - 1, j, k);
      CentresBalanced(keys, n - 1, k, j);
      TurnsStep(n - 1, j, |keys|);
      TurnsStep(n - 1, k, |keys|);
    } else {
      DivModUnique(0, |keys|, 0, 0);
    }
  }

  ghost predicate Separate(keys: seq<string>, m: Machines)
    requires Covers(keys, m)
  {
    && (forall j :: 0 <= j < |keys| ==> Distinct(m[keys[j]]))
    && (forall j, k, h :: 0 <= j < |keys| && 0 <= k < |keys| && h in m[keys[j]] && h in m[keys[k]] ==> j == k)
  }

  lemma SameHost(keys: seq<string>, m: Machines, i: nat, j: nat, k: nat)
    requires Covers(keys, m) && Separate(keys, m) && m[keys[i % |keys|]] != []
    requires j < |keys| && k < |m[keys[j]]|
    ensures HostOf(keys, m, i) == m[keys[j]][k] <==> i % |keys| == j && (i / |keys|) % |m[keys[j]]| == k
  {
    var t := i % |keys|;
    if HostOf(keys, m, i) == m[keys[j]][k] {
      assert HostOf(keys, m, i) in m[keys[t]] && m[keys[j]][k] in m[keys[j]];
    }
  }

  /** The exact load of machine k of data centre j; machines of one centre differ by at most one. */
  lemma {:induction false} HostLoad(keys: seq<string>, m: Machines, n: nat, j: nat, k: nat)
    requires Covers(keys, m) && Separate(keys, m) && Served(keys, m, n)
    requires j < |keys| && k < |m[keys[j]]|
    ensures Load(keys, m, n, m[keys[j]][k]) == Turns(Turns(n, j, |keys|), k, |m[keys[j]]|)
  {
    var len := |m[keys[j]]|;
    if n == 0 {
      DivModUnique(0, |keys|, 0, 0);
      DivModUnique(0, len, 0, 0);
    } else {
      var i := n - 1;
      ServedAt(keys, m, n, i);
      HostLoad(keys, m, i, j, k);
      SameHost(keys, m, i, j, k);
      TurnsStep(i, j, |keys|);
      if i % |keys| == j {
        TurnsStep(i / |keys|, k, len);
      }
    }
  }

  lemma HostsBalanced(keys: seq<string>, m: Machines, n: nat, j: nat, k: nat, other: nat)
    requires Covers(keys, m) && Separate(keys, m) && Served(keys, m, n)
    requires j < |keys| && k < |m[keys[j]]| && other < |m[keys[j]]|
    ensures Load(keys, m, n, m[keys[j]][k]) <= Load(keys, m, n, m[keys[j]][other]) + 1
  {
    HostLoad(keys, m, n, j, k);
    HostLoad(keys, m, n, j, other);
  }

  lemma {:induction false} IdleHost(keys: seq<string>, m: Machines, n: nat, h: string)
    requires Covers(keys, m) && Served(keys, m, n)
    requires forall j :: 0 <= j < |keys| ==> h !in m[keys[j]]
    ensures Load(keys, m, n, h) == 0
  {
    if n > 0 {
      ServedAt(keys, m, n, n - 1);
      IdleHost(keys, m, n - 1, h);
      assert HostOf(keys, m, n - 1) in m[keys[(n - 1) % |keys|]];
    }
  }

  // ----- choosing the machines

  /** hosts[:k], where a negative k counts from the end. */
  function Take(s: seq<string>, k: int): (r: seq<string>)
    ensures r <= s
  {
    if k >= |s| then s else if k >= 0 then s[..k] else if |s| + k >= 0 then s[..|s| + k] else []
  }

  function PerCentre(n: nat, cpu: int, centres: nat): int
    requires cpu != 0 && centres > 0
  {
    Ceil(Ceil(n, cpu), centres)
  }

  function ServerMachines(hosts: Machines, per: int): (m: Machines)
    ensures m.Keys == hosts.Keys
  {
    map dc | dc in hosts :: Take(hosts[dc], per)
  }

  /** A list of the members of s in some order, as list(s) gives for a Python set. */
  ghost predicate Enumerates(list: seq<string>, s: set<string>) {
    Distinct(list) && forall x :: x in list <==> x in s
  }

  function Members(s: seq<string>): set<string> {
    set x | x in s
  }

  function ClientMachines(hosts: Machines, per: int, list: set<string> -> seq<string>): (m: Machines)
    ensures m.Keys == hosts.Keys
  {
    map dc | dc in hosts :: list(Members(hosts[dc]) - Members(Take(hosts[dc], per)))
  }

  predicate NoMachines(m: Machines) {
    forall dc :: dc in m ==> m[dc] == []
  }

  /** Every name can be given a host. */
  ghost predicate Feasible(keys: seq<string>, hosts: Machines, servers: nat, clients: nat, cpu: int, overlap: bool,
                           list: set<string> -> seq<string>)
    requires Covers(keys, hosts)
  {
    && cpu != 0
    && var per := PerCentre(servers, cpu, |keys|);
       var sm, cm := ServerMachines(hosts, per), ClientMachines(hosts, per, list);
       && Served(keys, sm, servers)
       && (NoMachines(cm) ==> overlap)
       && Served(keys, if NoMachines(cm) then sm else cm, clients)
  }

  lemma DistinctParts(a: seq<string>, b: seq<string>)
    requires Distinct(a + b)
    ensures Distinct(a) && Distinct(b) && forall i, k :: 0 <= i < |a| && 0 <= k < |b| ==> a[i] != b[k]
  {
    var s := a + b;
    assert forall i :: 0 <= i < |a| ==> s[i] == a[i];
    assert forall k :: 0 <= k < |b| ==> s[|a| + k] == b[k];
  }

  method GenerateProcess(keys: seq<string>, hosts: Machines, servers: seq<string>, clients: seq<string>,
                         cpu: int, overlap: bool, list: set<string> -> seq<string>)
    returns (r: Placing<map<string, string>>)
    requires Covers(keys, hosts) && Distinct(servers + clients)
    ensures cpu == 0 ==> r == Err(DivisionByZero)
    ensures cpu != 0 ==>
      var per := PerCentre(|servers|, cpu, |keys|);
      var sm, cm := ServerMachines(hosts, per), ClientMachines(hosts, per, list);
      if !Served(keys, sm, |servers|) then r == Err(EmptyCycle)
      else if NoMachines(cm) && !overlap then r == Err(NoClientMachines)
      else
        var cm := if NoMachines(cm) then sm else cm;
        if !Served(keys, cm, |clients|) then r == Err(EmptyCycle)
        else
          && r.Ok?
          && (forall x :: x in r.value <==> x in servers || x in clients)
          && Placed(r.value, servers, keys, sm) && Placed(r.value, clients, keys, cm)
  {
    if cpu == 0 {
      return Err(DivisionByZero);
    }
    hide Take, PerCentre, HostOf;
    DistinctParts(servers, clients);
    var per := PerCentre(|servers|, cpu, |keys|);
    var sm := ServerMachines(hosts, per);
    var cm := ClientMachines(hosts, per, list);
    r := Assign(map[], servers, keys, sm);
    if r.Err? {
      return;
    }
    if NoMachines(cm) {
      if !overlap {
        return Err(NoClientMachines);
      }
      cm := sm;
    }
    var process := r.value;
    r := Assign(process, clients, keys, cm);
  }

  // ----- what the placement guarantees

  lemma ServersSeparate(keys: seq<string>, hosts: Machines, per: int)
    requires Partitioned(keys, hosts)
    ensures Covers(keys, hosts)
    ensures Covers(keys, ServerMachines(hosts, per)) && Separate(keys, ServerMachines(hosts, per))
  {
    var sm := ServerMachines(hosts, per);
    forall j | 0 <= j < |keys| ensures Distinct(sm[keys[j]]) && sm[keys[j]] <= hosts[keys[j]] {
      assert keys[j] in hosts;
    }
    forall j, k, h | 0 <= j < |keys| && 0 <= k < |keys| && h in sm[keys[j]] && h in sm[keys[k]] ensures j == k {
      assert h in hosts[keys[j]] && h in hosts[keys[k]];
    }
  }

  lemma MachineBound(keys: seq<string>, m: Machines, n: nat, j: nat, k: nat, per: nat, cpu: nat)
    requires Covers(keys, m) && Separate(keys, m) && Served(keys, m, n)
    requires j < |keys| && |m[keys[j]]| == per && k < per && n <= cpu * per * |keys|
    ensures Load(keys, m, n, m[keys[j]][k]) <= cpu
  {
    HostLoad(keys, m, n, j, k);
    TurnsAtMost(n, j, |keys|, cpu * per);
    TurnsAtMost(Turns(n, j, |keys|), k, per, cpu);
  }

  lemma EnoughMachines(keys: seq<string>, hosts: Machines, per: nat, n: nat)
    requires Partitioned(keys, hosts) && forall dc :: dc in hosts ==> |hosts[dc]| >= per
    requires n > 0 ==> per > 0
    ensures var sm := ServerMachines(hosts, per);
      && Covers(keys, sm) && Separate(keys, sm) && Served(keys, sm, n)
      && forall j :: 0 <= j < |keys| ==> |sm[keys[j]]| == per
  {
    ServersSeparate(keys, hosts, per);
  }

  /** No host gets more than cpu servers, if every data centre has as many hosts as are asked for. */
  lemma LoadBound(keys: seq<string>, hosts: Machines, n: nat, cpu: int, h: string)
    requires Partitioned(keys, hosts) && cpu >= 1
    requires var per := PerCentre(n, cpu, |keys|); forall dc :: dc in hosts ==> |hosts[dc]| >= per
    ensures var sm := ServerMachines(hosts, PerCentre(n, cpu, |keys|));
      Covers(keys, sm) && Served(keys, sm, n) && Load(keys, sm, n, h) <= cpu
  {
    var per := PerCentre(n, cpu, |keys|);
    var sm := ServerMachines(hosts, per);
    NestedCeilingsAreLeast(n, cpu, |keys|);
    EnoughMachines(keys, hosts, per, n);
    if j, k :| 0 <= j < |keys| && 0 <= k < |sm[keys[j]]| && sm[keys[j]][k] == h {
      MachineBound(keys, sm, n, j, k, per, cpu);
    } else {
      IdleHost(keys, sm, n, h);
    }
  }

  /** While any client machine remains, no client shares a machine with a server. */
  lemma ClientsApart(keys: seq<string>, hosts: Machines, servers: seq<string>, clients: seq<string>, per: int,
                     list: set<string> -> seq<string>, p: map<string, string>, i: nat, k: nat)
    requires Partitioned(keys, hosts) && forall s :: Enumerates(list(s), s)
    requires i < |servers| && k < |clients|
    requires Covers(keys, ServerMachines(hosts, per)) && Covers(keys, ClientMachines(hosts, per, list))
    requires Placed(p, servers, keys, ServerMachines(hosts, per))
    requires Placed(p, clients, keys, ClientMachines(hosts, per, list))
    ensures p[servers[i]] != p[clients[k]]
  {
    var sm, cm := ServerMachines(hosts, per), ClientMachines(hosts, per, list);
    var sdc, cdc := keys[i % |keys|], keys[k % |keys|];
    assert p[servers[i]] in sm[sdc] && p[servers[i]] in hosts[sdc];
    assert p[clients[k]] in cm[cdc];
    var rest := Members(hosts[cdc]) - Members(Take(hosts[cdc], per));
    assert Enumerates(list(rest), rest);
    assert p[clients[k]] in rest;
  }

  // ----- the choice of machines, from the number of hosts that is enough

  /** The first k hosts, all of them if there are fewer. */
  function Front(s: seq<string>, k: nat): seq<string> {
    if k < |s| then s[..k] else s
  }

  /** A slice up to k, or up to |k| before the end. */
  lemma TakeIsSlice(s: seq<string>, k: int)
    ensures k >= 0 ==> Take(s, k) == Front(s, k)
    ensures -|s| <= k < 0 ==> |Take(s, k)| == |s| + k
    ensures k < -|s| ==> Take(s, k) == []
  {
  }

  /** Some data centre has more than k hosts. */
  ghost predicate Spare(hosts: Machines, k: nat) {
    exists dc :: dc in hosts && |hosts[dc]| > k
  }

  lemma PerCentreIsLeast(n: nat, cpu: int, centres: nat, k: nat)
    requires cpu >= 1 && centres > 0 && IsLeast(n, cpu, centres, k)
    ensures PerCentre(n, cpu, centres) == k
  {
    NestedCeilingsAreLeast(n, cpu, centres);
    EnoughIsNoLess(n, cpu, centres, k, PerCentre(n, cpu, centres));
    EnoughIsNoLess(n, cpu, centres, PerCentre(n, cpu, centres), k);
  }

  lemma SpareMachines(keys: seq<string>, hosts: Machines, k: nat, list: set<string> -> seq<string>)
    requires Partitioned(keys, hosts) && forall s :: Enumerates(list(s), s)
    ensures NoMachines(ClientMachines(hosts, k, list)) <==> !Spare(hosts, k)
    ensures forall dc :: dc in hosts ==> ServerMachines(hosts, k)[dc] == Front(hosts[dc], k)
    ensures forall dc, h :: dc in hosts ==>
      (h in ClientMachines(hosts, k, list)[dc] <==> h in hosts[dc] && h !in Front(hosts[dc], k))
    ensures forall dc :: dc in hosts ==> (ClientMachines(hosts, k, list)[dc] == [] <==> |hosts[dc]| <= k)
  {
    forall dc | dc in hosts
      ensures ServerMachines(hosts, k)[dc] == Front(hosts[dc], k)
      ensures forall h :: h in ClientMachines(hosts, k, list)[dc] <==> h in hosts[dc] && h !in Front(hosts[dc], k)
      ensures ClientMachines(hosts, k, list)[dc] == [] <==> |hosts[dc]| <= k
    {
      LeftOver(hosts[dc], k, list);
    }
  }

  lemma ListedHasMember(list: seq<string>, s: set<string>)
    requires Enumerates(list, s) && list != []
    ensures s != {}
  {
    assert list[0] in s;
  }

  lemma LeftOver(s: seq<string>, k: nat, list: set<string> -> seq<string>)
    requires Distinct(s) && forall x :: Enumerates(list(x), x)
    ensures Take(s, k) == Front(s, k)
    ensures var rest := list(Members(s) - Members(Take(s, k)));
      (forall h :: h in rest <==> h in s && h !in Front(s, k)) && (rest == [] <==> |s| <= k)
  {
    TakeIsSlice(s, k);
    var rest := Members(s) - Members(Front(s, k));
    assert Enumerates(list(rest), rest);
    if |s| > k {
      assert s[k] in Members(s) && s[k] !in Front(s, k);
      assert s[k] in list(rest);
    } else {
      assert rest == {};
      if list(rest) != [] {
        ListedHasMember(list(rest), rest);
      }
    }
  }

  /** The clients' pool in a data centre: the hosts left over, or the servers' if none is left anywhere. */
  ghost predicate InPool(hosts: Machines, dc: string, k: nat, h: string)
    requires dc in hosts
  {
    if Spare(hosts, k) then h in hosts[dc] && h !in Front(hosts[dc], k) else h in Front(hosts[dc], k)
  }

  /** Every data centre that a server or a client comes to has a host for it, and clients may share
      hosts with servers if none is left over. */
  ghost predicate Sufficient(keys: seq<string>, hosts: Machines, servers: nat, clients: nat, overlap: bool, k: nat)
    requires Covers(keys, hosts)
  {
    && (forall j :: 0 <= j < |keys| && j < servers ==> Front(hosts[keys[j]], k) != [])
    && (Spare(hosts, k) || overlap)
    && (forall j :: 0 <= j < |keys| && j < clients ==>
          if Spare(hosts, k) then |hosts[keys[j]]| > k else Front(hosts[keys[j]], k) != [])
  }

  lemma ServedByFront(keys: seq<string>, hosts: Machines, k: nat, n: nat)
    requires Covers(keys, hosts)
    ensures Served(keys, ServerMachines(hosts, k), n) <==>
            forall j :: 0 <= j < |keys| && j < n ==> Front(hosts[keys[j]], k) != []
  {
    forall j | 0 <= j < |keys| ensures ServerMachines(hosts, k)[keys[j]] == Front(hosts[keys[j]], k) {
      TakeIsSlice(hosts[keys[j]], k);
    }
    hide Front, Take;
  }

  lemma ServedByPool(keys: seq<string>, hosts: Machines, k: nat, list: set<string> -> seq<string>, n: nat)
    requires Partitioned(keys, hosts) && Covers(keys, hosts) && forall s :: Enumerates(list(s), s)
    ensures var sm, cm := ServerMachines(hosts, k), ClientMachines(hosts, k, list);
      Served(keys, if NoMachines(cm) then sm else cm, n) <==>
      forall j :: 0 <= j < |keys| && j < n ==>
        if Spare(hosts, k) then |hosts[keys[j]]| > k else Front(hosts[keys[j]], k) != []
  {
    hide Front, Spare, NoMachines, Partitioned;
    SpareMachines(keys, hosts, k, list);
    if Spare(hosts, k) {
      forall j | 0 <= j < |keys| ensures ClientMachines(hosts, k, list)[keys[j]] != [] <==> |hosts[keys[j]]| > k {
        assert keys[j] in hosts;
      }
    } else {
      ServedByFront(keys, hosts, k, n);
    }
  }

  /** With the least number of hosts that is enough, success is exactly that. */
  lemma FeasibleExactlyWhen(keys: seq<string>, hosts: Machines, servers: nat, clients: nat, cpu: int, overlap: bool,
                            list: set<string> -> seq<string>, k: nat)
    requires Partitioned(keys, hosts) && Covers(keys, hosts) && forall s :: Enumerates(list(s), s)
    requires cpu >= 1 && IsLeast(servers, cpu, |keys|, k)
    ensures Feasible(keys, hosts, servers, clients, cpu, overlap, list) <==>
            Sufficient(keys, hosts, servers, clients, overlap, k)
  {
    hide PerCentre, Front, IsLeast, Spare, Served, NoMachines, Partitioned;
    PerCentreIsLeast(servers, cpu, |keys|, k);
    SpareMachines(keys, hosts, k, list);
    ServedByFront(keys, hosts, k, servers);
    ServedByPool(keys, hosts, k, list, clients);
  }

  /** Servers go to the first k hosts of their data centres, clients to the pool of theirs. */
  ghost predicate Split(p: map<string, string>, keys: seq<string>, hosts: Machines, servers: seq<string>,
                        clients: seq<string>, k: nat)
    requires Covers(keys, hosts)
  {
    && (forall i :: 0 <= i < |servers| ==> servers[i] in p && p[servers[i]] in Front(hosts[keys[i % |keys|]], k))
    && (forall i :: 0 <= i < |clients| ==> clients[i] in p && InPool(hosts, keys[i % |keys|], k, p[clients[i]]))
  }

  lemma PlacedAt(p: map<string, string>, names: seq<string>, keys: seq<string>, m: Machines, i: nat)
    requires Covers(keys, m) && Placed(p, names, keys, m) && i < |names|
    ensures names[i] in p && keys[i % |keys|] in m && p[names[i]] in m[keys[i % |keys|]]
  {
    assert HostOf(keys, m, i) in m[keys[i % |keys|]];
  }

  lemma PoolMembers(hosts: Machines, dc: string, k: nat, h: string)
    requires dc in hosts
    ensures InPool(hosts, dc, k, h) <==>
            if Spare(hosts, k) then h in hosts[dc] && h !in Front(hosts[dc], k) else h in Front(hosts[dc], k)
  {
  }

  lemma PlacedSplits(p: map<string, string>, keys: seq<string>, hosts: Machines, servers: seq<string>,
                     clients: seq<string>, cpu: int, list: set<string> -> seq<string>, k: nat)
    requires Partitioned(keys, hosts) && Covers(keys, hosts) && forall s :: Enumerates(list(s), s)
    requires cpu >= 1 && IsLeast(|servers|, cpu, |keys|, k)
    requires var per := PerCentre(|servers|, cpu, |keys|);
      var sm, cm := ServerMachines(hosts, per), ClientMachines(hosts, per, list);
      Placed(p, servers, keys, sm) && Placed(p, clients, keys, if NoMachines(cm) then sm else cm)
    ensures Split(p, keys, hosts, servers, clients, k)
  {
    hide PerCentre, Front, IsLeast, Spare, Placed, NoMachines, InPool, Partitioned;
    PerCentreIsLeast(|servers|, cpu, |keys|, k);
    SpareMachines(keys, hosts, k, list);
    var sm, cm := ServerMachines(hosts, k), ClientMachines(hosts, k, list);
    forall i | 0 <= i < |servers| ensures servers[i] in p && p[servers[i]] in Front(hosts[keys[i % |keys|]], k) {
      PlacedAt(p, servers, keys, sm, i);
    }
    forall i | 0 <= i < |clients| ensures clients[i] in p && InPool(hosts, keys[i % |keys|], k, p[clients[i]]) {
      PlacedAt(p, clients, keys, if NoMachines(cm) then sm else cm, i);
      PoolMembers(hosts, keys[i % |keys|], k, p[clients[i]]);
    }
  }
}
