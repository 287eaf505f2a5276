/** From a cluster description to process and site records: the layout generator feeding the controller. */
module Pipeline {
  import opened Basics
  import opened Decimal
  import opened Hosts
  import opened Layout
  import opened Placement
  import opened ProcessInfo
  import opened RoundRobin
  import Sorting

  datatype Tables = Tables(process: map<string, string>, servers: seq<seq<string>>, clients: seq<seq<string>>)

  datatype Strategy = Balanced | WithLeader

  // ----- generate_layout

  /** What generate_layout promises of its tables: every name has a configured host, and reading the
      rows in order lists the printed servers and the clients. */
  ghost predicate Complete(t: Tables, hosts: seq<string>, servers: nat, clients: nat) {
    && (forall x :: x in t.process <==> x in ServerNames(servers) || x in ClientNames(clients))
    && (forall x :: x in t.process ==> t.process[x] in hosts)
    && Flatten(t.servers) == SiteTexts(ServerNames(servers))
    && Flatten(t.clients) == ClientNames(clients)
  }

  lemma PlacedInHosts(p: map<string, string>, names: seq<string>, keys: seq<string>, m: Machines,
                      hosts: seq<string>)
    requires Covers(keys, m) && Placed(p, names, keys, m)
    requires forall dc, h :: dc in m && h in m[dc] ==> h in hosts
    ensures forall x :: x in names ==> x in p && p[x] in hosts
  {
    forall x | x in names ensures x in p && p[x] in hosts {
      var i :| 0 <= i < |names| && names[i] == x;
      assert p[names[i]] == HostOf(keys, m, i);
      assert HostOf(keys, m, i) in m[keys[i % |keys|]];
    }
  }

  lemma MachinesInHosts(table: Machines, hosts: seq<string>, dcs: seq<string>, per: int,
                        list: set<string> -> seq<string>)
    requires IsTable(table, hosts, dcs) && forall s :: Enumerates(list(s), s)
    ensures forall dc, h :: dc in table && h in ServerMachines(table, per)[dc] ==> h in hosts
    ensures forall dc, h :: dc in table && h in ClientMachines(table, per, list)[dc] ==> h in hosts
  {
    var sm, cm := ServerMachines(table, per), ClientMachines(table, per, list);
    forall dc, h | dc in table && (h in sm[dc] || h in cm[dc]) ensures h in hosts {
      HostAtHome(table, hosts, dcs, dc, h);
      var rest := Placement.Members(table[dc]) - Placement.Members(Take(table[dc], per));
      assert Enumerates(list(rest), rest);
    }
  }

  lemma CoversTable(keys: seq<string>, table: Machines)
    requires Partitioned(keys, table)
    ensures Covers(keys, table)
  {
    assert forall j :: 0 <= j < |keys| ==> keys[j] in keys;
  }

  /** generate_layout for distinct configured hosts: when it succeeds, and what it then returns. */
  method GenerateLayout(hosts: seq<string>, dcs: seq<string>, clients: nat, shards: nat, replicas: nat,
                        cpu: int, overlap: bool, strategy: Strategy, list: set<string> -> seq<string>)
    returns (r: Placing<Tables>, ghost keys: seq<string>, ghost table: Machines)
    requires Distinct(hosts) && forall s :: Enumerates(list(s), s)
    ensures keys == Keys(Listed(dcs)) && IsTable(table, hosts, Listed(dcs)) && Covers(keys, table)
    ensures r.Ok? <==>
            && Feasible(keys, table, shards * replicas, clients, cpu, overlap, list)
            && (strategy.WithLeader? || replicas > 0 || clients == 0)
    ensures r.Ok? ==> cpu != 0 && Complete(r.value, hosts, shards * replicas, clients)
    ensures r.Ok? ==>
      var per := PerCentre(shards * replicas, cpu, |keys|);
      var sm, cm := ServerMachines(table, per), ClientMachines(table, per, list);
      && Placed(r.value.process, ServerNames(shards * replicas), keys, sm)
      && Placed(r.value.process, ClientNames(clients), keys, if NoMachines(cm) then sm else cm)
  {
    var order, groups := HostsByDatacenter(hosts, dcs);
    keys, table := order, groups;
    HostPartition(table, hosts, Listed(dcs));
    CoversTable(keys, table);
    var serverNames, clientNames := ServerNames(shards * replicas), ClientNames(clients);
    NamesDistinct(shards * replicas, clients);
    var process := GenerateProcess(order, groups, serverNames, clientNames, cpu, overlap, list);
    if process.Err? {
      return Err(process.error), keys, table;
    }
    ProcessInHosts(process.value, serverNames, clientNames, keys, table, hosts, Listed(dcs), cpu, list);
    var servers := GenerateSiteServer(serverNames, shards, replicas);
    if strategy.WithLeader? {
      var rows := LeaderSiteClient(clientNames);
      return Ok(Tables(process.value, servers, rows)), keys, table;
    }
    var rows := GenerateSiteClient(clientNames, replicas);
    if rows.Err? {
      return Err(rows.error), keys, table;
    }
    return Ok(Tables(process.value, servers, rows.value)), keys, table;
  }

  lemma ProcessInHosts(p: map<string, string>, servers: seq<string>, clients: seq<string>, keys: seq<string>,
                       table: Machines, hosts: seq<string>, dcs: seq<string>, cpu: int,
                       list: set<string> -> seq<string>)
    requires IsTable(table, hosts, dcs) && Covers(keys, table) && forall s :: Enumerates(list(s), s)
    requires forall x :: x in p <==> x in servers || x in clients
    requires cpu != 0
    requires var per := PerCentre(|servers|, cpu, |keys|);
      var sm, cm := ServerMachines(table, per), ClientMachines(table, per, list);
      Placed(p, servers, keys, sm) && Placed(p, clients, keys, if NoMachines(cm) then sm else cm)
    ensures forall x :: x in p ==> p[x] in hosts
  {
    var per := PerCentre(|servers|, cpu, |keys|);
    var sm, cm := ServerMachines(table, per), ClientMachines(table, per, list);
    MachinesInHosts(table, hosts, dcs, per, list);
    PlacedInHosts(p, servers, keys, sm, hosts);
    PlacedInHosts(p, clients, keys, if NoMachines(cm) then sm else cm, hosts);
  }

  // ----- the sites the controller reads back

  function ServerSite(process: map<string, string>, last: int, i: nat): Site
    requires ServerName(i) in process
  {
    var name := ServerName(i);
    Site(last + 1 + i, process[name], name, Server, 10000 + i, 20000 + i)
  }

  function ClientSite(process: map<string, string>, rpcPort: int, last: int, k: nat): Site
    requires ClientName(k) in process
  {
    var name := ClientName(k);
    Site(last + 1 + k, process[name], name, Client, rpcPort, rpcPort)
  }

  /** Server i is read back with its own name, port 10000 + i, control port 20000 + i and the next id. */
  lemma ServerReadBack(process: map<string, string>, rpcPort: int, last: int, i: nat)
    requires ServerName(i) in process
    ensures OneSite(Server, SiteText(ServerName(i), FIRST_PORT + i), process, rpcPort, last + 1 + i) ==
            Ok(ServerSite(process, last, i))
  {
    NoColon(i);
    hide ServerName, Parse, SplitSite, SiteText;
    SplitSiteText(ServerName(i), FIRST_PORT + i);
  }

  lemma ClientReadBack(process: map<string, string>, rpcPort: int, last: int, k: nat)
    requires ClientName(k) in process
    ensures OneSite(Client, ClientName(k), process, rpcPort, last + 1 + k) ==
            Ok(ClientSite(process, rpcPort, last, k))
  {
    NoColon(k);
    hide ClientName, SplitSite;
    SplitBare(ClientName(k));
  }

  function ServerSites(n: nat, process: map<string, string>, last: int): (r: seq<Site>)
    requires forall i :: 0 <= i < n ==> ServerName(i) in process
    ensures |r| == n && forall i :: 0 <= i < n ==> r[i] == ServerSite(process, last, i)
  {
    seq(n, i requires 0 <= i < n => ServerSite(process, last, i))
  }

  function ClientSites(n: nat, process: map<string, string>, rpcPort: int, last: int): (r: seq<Site>)
    requires forall k :: 0 <= k < n ==> ClientName(k) in process
    ensures |r| == n && forall k :: 0 <= k < n ==> r[k] == ClientSite(process, rpcPort, last, k)
  {
    seq(n, k requires 0 <= k < n => ClientSite(process, rpcPort, last, k))
  }

  lemma {:induction false} ServersReadBack(n: nat, texts: seq<string>, process: map<string, string>,
                                           rpcPort: int, last: int)
    requires |texts| == n && forall i :: 0 <= i < n ==> texts[i] == SiteText(ServerName(i), FIRST_PORT + i)
    requires forall i :: 0 <= i < n ==> ServerName(i) in process
    ensures Sites(Server, texts, process, rpcPort, last) == Ok(ServerSites(n, process, last))
  {
    hide OneSite, ServerSite, SiteText, ServerName;
    if n > 0 {
      var before := texts[..n - 1];
      ServersReadBack(n - 1, before, process, rpcPort, last);
      ServerReadBack(process, rpcPort, last, n - 1);
      SitesSnoc(Server, before, texts[n - 1], process, rpcPort, last);
      assert texts == before + [texts[n - 1]];
      assert ServerSites(n, process, last) ==
             ServerSites(n - 1, process, last) + [ServerSite(process, last, n - 1)];
    }
  }

  lemma {:induction false} ClientsReadBack(n: nat, texts: seq<string>, process: map<string, string>,
                                           rpcPort: int, last: int)
    requires |texts| == n && forall k :: 0 <= k < n ==> texts[k] == ClientName(k)
    requires forall k :: 0 <= k < n ==> ClientName(k) in process
    ensures Sites(Client, texts, process, rpcPort, last) == Ok(ClientSites(n, process, rpcPort, last))
  {
    hide OneSite, ClientSite, ClientName;
    if n > 0 {
      var before := texts[..n - 1];
      ClientsReadBack(n - 1, before, process, rpcPort, last);
      ClientReadBack(process, rpcPort, last, n - 1);
      SitesSnoc(Client, before, texts[n - 1], process, rpcPort, last);
      assert texts == before + [texts[n - 1]];
      assert ClientSites(n, process, rpcPort, last) ==
             ClientSites(n - 1, process, rpcPort, last) + [ClientSite(process, rpcPort, last, n - 1)];
    }
  }

  // ----- get_sites

  function OfKind(sites: seq<Site>, kind: Kind): seq<Site> {
    if sites == [] then []
    else
      var s := sites[|sites| - 1];
      OfKind(sites[..|sites| - 1], kind) + if s.kind == kind then [s] else []
  }

  /** The sites of one kind over the processes in dictionary order. */
  function Gather(order: seq<string>, infos: map<string, Process>, kind: Kind): seq<Site>
    requires forall k :: 0 <= k < |order| ==> order[k] in infos
  {
    if order == [] then []
    else
      Gather(order[..|order| - 1], infos, kind) + OfKind(infos[order[|order| - 1]].sites, kind)
  }

  method GetSites(order: seq<string>, infos: map<string, Process>, kind: Kind) returns (sites: seq<Site>)
    requires forall k :: 0 <= k < |order| ==> order[k] in infos
    ensures sites == Gather(order, infos, kind)
  {
    sites := [];
    for k := 0 to |order|
      invariant sites == Gather(order[..k], infos, kind)
    {
      assert order[..k + 1][..k] == order[..k];
      var own := infos[order[k]].sites;
      ghost var before := sites;
      for i := 0 to |own|
        invariant sites == before + OfKind(own[..i], kind)
      {
        assert own[..i + 1][..i] == own[..i];
        if own[i].kind == kind {
          sites := sites + [own[i]];
        }
      }
      assert own[..|own|] == own;
    }
    assert order[..|order|] == order;
  }

  lemma {:induction false} OfKindCount(sites: seq<Site>, kind: Kind, s: Site)
    ensures multiset(OfKind(sites, kind))[s] == if s.kind == kind then multiset(sites)[s] else 0
  {
    if sites != [] {
      var rest := sites[..|sites| - 1];
      assert sites == rest + [sites[|sites| - 1]];
      OfKindCount(rest, kind, s);
    }
  }

  lemma {:induction false} SitesOfCount(all: seq<Site>, process: string, s: Site)
    ensures multiset(SitesOf(all, process))[s] == if s.process == process then multiset(all)[s] else 0
  {
    if all != [] {
      var rest := all[..|all| - 1];
      assert all == rest + [all[|all| - 1]];
      SitesOfCount(rest, process, s);
    }
  }

  lemma {:induction false} GatherCount(order: seq<string>, infos: map<string, Process>, kind: Kind,
                                       all: seq<Site>, s: Site)
    requires Distinct(order) && Owns(infos, all) && forall k :: 0 <= k < |order| ==> order[k] in infos
    ensures multiset(Gather(order, infos, kind))[s] ==
            if s.kind == kind && s.process in order then multiset(all)[s] else 0
  {
    if order != [] {
      var rest, p := order[..|order| - 1], order[|order| - 1];
      GatherCount(rest, infos, kind, all, s);
      OfKindCount(infos[p].sites, kind, s);
      SitesOfCount(all, p, s);
      assert order == rest + [p];
      assert p !in rest;
    }
  }

  /** The server list and the client list together hold every site exactly as often as it was made,
      and each list holds only its own kind. */
  lemma EverySiteOnce(order: seq<string>, infos: map<string, Process>, all: seq<Site>)
    requires Distinct(order) && Owns(infos, all) && forall k :: 0 <= k < |order| ==> order[k] in infos
    requires forall i :: 0 <= i < |all| ==> all[i].process in order
    ensures multiset(Gather(order, infos, Server)) + multiset(Gather(order, infos, Client)) == multiset(all)
    ensures forall s :: s in Gather(order, infos, Server) ==> s.kind == Server
    ensures forall s :: s in Gather(order, infos, Client) ==> s.kind == Client
  {
    hide Owns, Gather, Distinct;
    var servers, clients := Gather(order, infos, Server), Gather(order, infos, Client);
    forall s
      ensures multiset(servers)[s] + multiset(clients)[s] == multiset(all)[s]
      ensures s in servers ==> s.kind == Server
      ensures s in clients ==> s.kind == Client
    {
      GatherCount(order, infos, Server, all, s);
      GatherCount(order, infos, Client, all, s);
      assert s in servers <==> s in multiset(servers);
      assert s in clients <==> s in multiset(clients);
      assert s in all <==> s in multiset(all);
    }
    assert multiset(servers) + multiset(clients) == multiset(all);
  }

  // ----- the whole pipeline

  ghost predicate HasNames(process: map<string, string>, servers: nat, clients: nat) {
    && (forall i :: 0 <= i < servers ==> ServerName(i) in process)
    && (forall k :: 0 <= k < clients ==> ClientName(k) in process)
  }

  lemma NamesPresent(t: Tables, hosts: seq<string>, servers: nat, clients: nat)
    requires Complete(t, hosts, servers, clients)
    ensures HasNames(t.process, servers, clients)
  {
    hide ServerName, ClientName, SiteText;
    forall i | 0 <= i < servers ensures ServerName(i) in t.process {
      assert ServerNames(servers)[i] == ServerName(i);
    }
    forall k | 0 <= k < clients ensures ClientName(k) in t.process {
      assert ClientNames(clients)[k] == ClientName(k);
    }
  }

  /** The sites of a layout in creation order. */
  function LayoutSites(process: map<string, string>, servers: nat, clients: nat, rpcPort: int, last: int): seq<Site>
    requires HasNames(process, servers, clients)
  {
    ServerSites(servers, process, last) + ClientSites(clients, process, rpcPort, last + servers)
  }

  /** Every site of a complete layout is read back, with ids that run on without a gap. */
  lemma LayoutReadBack(t: Tables, hosts: seq<string>, servers: nat, clients: nat, rpcPort: int, last: int)
    requires Complete(t, hosts, servers, clients)
    ensures HasNames(t.process, servers, clients)
    ensures Sites(Server, Flatten(t.servers), t.process, rpcPort, last) == Ok(ServerSites(servers, t.process, last))
    ensures Sites(Client, Flatten(t.clients), t.process, rpcPort, last + servers) ==
            Ok(ClientSites(clients, t.process, rpcPort, last + servers))
    ensures LayoutSites(t.process, servers, clients, rpcPort, last) ==
            ServerSites(servers, t.process, last) + ClientSites(clients, t.process, rpcPort, last + servers)
  {
    hide Sites, ServerName, ClientName, ServerSite, ClientSite, SiteText, Flatten;
    NamesPresent(t, hosts, servers, clients);
    ServersReadBack(servers, Flatten(t.servers), t.process, rpcPort, last);
    ClientsReadBack(clients, Flatten(t.clients), t.process, rpcPort, last + servers);
  }

  /** The controller's records for a complete layout: no key is missed, processes and sites are
      numbered from the counters on, every process owns its sites, and the port put on a process's
      command line (base port plus id) is the one the controller connects to. */
  method ReadLayout(t: Tables, hosts: map<string, string>, names: seq<string>, ghost servers: nat, ghost clients: nat,
                    rpcPort: int, lastProcess: int, lastSite: int, ghost hostNames: seq<string>)
    returns (infos: map<string, Process>)
    requires Complete(t, hostNames, servers, clients) && Lists(names, t.process)
    requires forall h :: h in hostNames ==> h in hosts
    ensures HasNames(t.process, servers, clients)
    ensures Numbered(infos, ProcessOrder(names, t.process), hosts, rpcPort, lastProcess)
    ensures Owns(infos, LayoutSites(t.process, servers, clients, rpcPort, lastSite))
    ensures forall x :: x in infos ==> rpcPort + infos[x].id == infos[x].rpcPort
  {
    hide *;
    LayoutReadBack(t, hostNames, servers, clients, rpcPort, lastSite);
    LayoutKnown(t, hosts, names, servers, clients, hostNames);
    var r := GetProcessInfo(hosts, names, t.process, t.servers, t.clients, rpcPort, lastProcess, lastSite);
    infos := r.value;
    ConnectPorts(infos, ProcessOrder(names, t.process), hosts, rpcPort, lastProcess);
  }

  lemma LayoutKnown(t: Tables, hosts: map<string, string>, names: seq<string>, servers: nat, clients: nat,
                    hostNames: seq<string>)
    requires Complete(t, hostNames, servers, clients) && Lists(names, t.process)
    requires forall h :: h in hostNames ==> h in hosts
    ensures Known(names, t.process, hosts) && |Flatten(t.servers)| == servers
  {
    hide Flatten, ServerNames, ClientNames;
  }

  lemma LayoutSitesDistinct(process: map<string, string>, servers: nat, clients: nat, rpcPort: int, last: int)
    requires HasNames(process, servers, clients)
    ensures Distinct(LayoutSites(process, servers, clients, rpcPort, last))
  {
    var all := LayoutSites(process, servers, clients, rpcPort, last);
    assert forall i :: 0 <= i < |all| ==> all[i].id == last + 1 + i;
  }

  lemma LayoutSitesPlaced(process: map<string, string>, names: seq<string>, servers: nat, clients: nat,
                          rpcPort: int, last: int)
    requires HasNames(process, servers, clients) && Lists(names, process)
    ensures var all := LayoutSites(process, servers, clients, rpcPort, last);
      forall i :: 0 <= i < |all| ==> all[i].process in ProcessOrder(names, process)
  {
    hide Sorting.Sort, Keys, ServerName, ClientName, Lists;
    var all := LayoutSites(process, servers, clients, rpcPort, last);
    var order := ProcessOrder(names, process);
    SortedLists(names, process);
    forall i | 0 <= i < |all| ensures all[i].process in order {
      var name := if i < servers then ServerName(i) else ClientName(i - servers);
      OrderCovers(Sorting.Sort(names, StringLeq()), process, name);
    }
  }

  lemma OrderRegistered(infos: map<string, Process>, names: seq<string>, process: map<string, string>,
                        hosts: map<string, string>, rpcPort: int, last: int)
    requires Lists(names, process) && Numbered(infos, ProcessOrder(names, process), hosts, rpcPort, last)
    ensures var order := ProcessOrder(names, process);
      Distinct(order) && forall k :: 0 <= k < |order| ==> order[k] in infos
  {
    SortedLists(names, process);
    KeysDistinct(Column(Sorting.Sort(names, StringLeq()), process));
  }

  /** In those records the server list and the client list hold every site of the layout, each once. */
  lemma LayoutSitesOnce(process: map<string, string>, hosts: map<string, string>, names: seq<string>,
                        servers: nat, clients: nat, rpcPort: int, lastProcess: int, lastSite: int,
                        infos: map<string, Process>)
    requires HasNames(process, servers, clients) && Lists(names, process)
    requires Numbered(infos, ProcessOrder(names, process), hosts, rpcPort, lastProcess)
    requires Owns(infos, LayoutSites(process, servers, clients, rpcPort, lastSite))
    ensures
      var all, order := LayoutSites(process, servers, clients, rpcPort, lastSite), ProcessOrder(names, process);
      && Distinct(all)
      && (forall k :: 0 <= k < |order| ==> order[k] in infos)
      && multiset(Gather(order, infos, Server)) + multiset(Gather(order, infos, Client)) == multiset(all)
      && (forall s :: s in Gather(order, infos, Server) ==> s.kind == Server)
      && (forall s :: s in Gather(order, infos, Client) ==> s.kind == Client)
  {
    hide *;
    LayoutSitesDistinct(process, servers, clients, rpcPort, lastSite);
    LayoutSitesPlaced(process, names, servers, clients, rpcPort, lastSite);
    OrderRegistered(infos, names, process, hosts, rpcPort, lastProcess);
    EverySiteOnce(ProcessOrder(names, process), infos, LayoutSites(process, servers, clients, rpcPort, lastSite));
  }

  lemma ConnectPorts(infos: map<string, Process>, order: seq<string>, hosts: map<string, string>, rpcPort: int,
                     last: int)
    requires Numbered(infos, order, hosts, rpcPort, last)
    ensures forall x :: x in infos ==> rpcPort + infos[x].id == infos[x].rpcPort
  {
    forall x | x in infos ensures rpcPort + infos[x].id == infos[x].rpcPort {
      var k :| 0 <= k < |order| && order[k] == x;
    }
  }

  // ----- ports

  function Range(start: int, n: nat): (r: seq<int>)
    ensures |r| == n && forall i :: 0 <= i < n ==> r[i] == start + i
  {
    seq(n, i => start + i)
  }

  /** There are at most 10000 servers, and the process ports fit below, between or above the service
      ports from 10000 on and the control ports from 20000 on. */
  predicate PortsFit(servers: nat, processes: nat, base: int) {
    && servers <= 10000
    && (servers == 0 || processes == 0 || base + processes <= 10000 ||
        (10000 + servers <= base && base + processes <= 20000) || 20000 + servers <= base)
  }

  /** Exactly then the service, control and process ports of a cluster are pairwise distinct. */
  lemma PortSeparation(servers: nat, processes: nat, base: int)
    ensures Distinct(Range(10000, servers) + Range(20000, servers) + Range(base, processes)) <==>
            PortsFit(servers, processes, base)
  {
    var ports := Range(10000, servers) + Range(20000, servers) + Range(base, processes);
    if servers > 10000 {
      assert ports[10000] == 20000 == ports[servers];
    } else if servers > 0 && processes > 0 {
      if base + processes > 10000 && base < 10000 + servers {
        var p := if base >= 10000 then base else 10000;
        assert ports[p - 10000] == p == ports[2 * servers + p - base];
      } else if base + processes > 20000 && base < 20000 + servers {
        var p := if base >= 20000 then base else 20000;
        assert ports[servers + p - 20000] == p == ports[2 * servers + p - base];
      }
    }
  }

  function Ports(sites: seq<Site>): (r: seq<int>)
    ensures |r| == |sites| && forall i :: 0 <= i < |sites| ==> r[i] == sites[i].port
  {
    seq(|sites|, i requires 0 <= i < |sites| => sites[i].port)
  }

  function ControlPorts(sites: seq<Site>): (r: seq<int>)
    ensures |r| == |sites| && forall i :: 0 <= i < |sites| ==> r[i] == sites[i].rpcPort
  {
    seq(|sites|, i requires 0 <= i < |sites| => sites[i].rpcPort)
  }

  function ProcessPorts(order: seq<string>, infos: map<string, Process>): (r: seq<int>)
    requires forall k :: 0 <= k < |order| ==> order[k] in infos
    ensures |r| == |order| && forall k :: 0 <= k < |order| ==> r[k] == infos[order[k]].rpcPort
  {
    seq(|order|, k requires 0 <= k < |order| => infos[order[k]].rpcPort)
  }

  /** The exact condition for a layout's records to use every port once, with `base` the first
      process port: the configured port when processes are numbered from 0. */
  lemma LayoutPorts(process: map<string, string>, hosts: map<string, string>, names: seq<string>,
                    servers: nat, clients: nat, rpcPort: int, lastProcess: int, lastSite: int,
                    infos: map<string, Process>)
    requires HasNames(process, servers, clients) && Lists(names, process)
    requires Numbered(infos, ProcessOrder(names, process), hosts, rpcPort, lastProcess)
    ensures forall i :: 0 <= i < servers ==> ServerName(i) in process
    ensures
      var order := ProcessOrder(names, process);
      var sites := ServerSites(servers, process, lastSite);
      && (forall k :: 0 <= k < |order| ==> order[k] in infos)
      && (Distinct(Ports(sites) + ControlPorts(sites) + ProcessPorts(order, infos)) <==>
          PortsFit(servers, |order|, rpcPort + lastProcess + 1))
  {
    hide *;
    HasServerNames(process, servers, clients);
    SitePortsRange(servers, process, lastSite);
    ProcessPortsRange(infos, ProcessOrder(names, process), hosts, rpcPort, lastProcess);
    PortSeparation(servers, |ProcessOrder(names, process)|, rpcPort + lastProcess + 1);
  }

  lemma HasServerNames(process: map<string, string>, servers: nat, clients: nat)
    requires HasNames(process, servers, clients)
    ensures forall i :: 0 <= i < servers ==> ServerName(i) in process
  {
  }

  lemma SitePortsRange(servers: nat, process: map<string, string>, last: int)
    requires forall i :: 0 <= i < servers ==> ServerName(i) in process
    ensures Ports(ServerSites(servers, process, last)) == Range(10000, servers)
    ensures ControlPorts(ServerSites(servers, process, last)) == Range(20000, servers)
  {
    hide ServerName;
  }

  lemma ProcessPortsRange(infos: map<string, Process>, order: seq<string>, hosts: map<string, string>,
                          rpcPort: int, last: int)
    requires Numbered(infos, order, hosts, rpcPort, last)
    ensures forall k :: 0 <= k < |order| ==> order[k] in infos
    ensures ProcessPorts(order, infos) == Range(rpcPort + last + 1, |order|)
  {
  }

  // ----- the load of a layout's hosts

  /** Every data centre has as many hosts as the two ceilings ask for. */
  ghost predicate EnoughHosts(keys: seq<string>, table: Machines, servers: nat, cpu: int)
    requires keys != [] && cpu != 0
  {
    forall dc :: dc in table ==> |table[dc]| >= PerCentre(servers, cpu, |keys|)
  }

  /** The process table of a layout puts at most cpu servers on any host, if every data centre has
      enough hosts. */
  lemma LayoutLoad(hosts: seq<string>, dcs: seq<string>, table: Machines, servers: nat, cpu: int,
                   process: map<string, string>, h: string)
    requires Distinct(hosts) && IsTable(table, hosts, Listed(dcs)) && Covers(Keys(Listed(dcs)), table)
    requires cpu >= 1 && EnoughHosts(Keys(Listed(dcs)), table, servers, cpu)
    requires var keys := Keys(Listed(dcs));
      Placed(process, ServerNames(servers), keys, ServerMachines(table, PerCentre(servers, cpu, |keys|)))
    ensures |Hosted(process, ServerNames(servers), h)| <= cpu
  {
    var keys := Keys(Listed(dcs));
    HostPartition(table, hosts, Listed(dcs));
    LoadBound(keys, table, servers, cpu, h);
    PlacedLoad(process, ServerNames(servers), keys, ServerMachines(table, PerCentre(servers, cpu, |keys|)), h);
  }

  // ----- servers and clients on one host

  /** No client runs on a host that runs a server. */
  ghost predicate ServersAlone(process: map<string, string>, servers: nat, clients: nat)
    requires HasNames(process, servers, clients)
  {
    forall i, k :: 0 <= i < servers && 0 <= k < clients ==> process[ServerName(i)] != process[ClientName(k)]
  }

  /** Servers and clients are apart exactly when some data centre has a host that no server is given. */
  lemma LayoutApart(hosts: seq<string>, dcs: seq<string>, table: Machines, servers: nat, clients: nat, cpu: int,
                    list: set<string> -> seq<string>, process: map<string, string>)
    requires Distinct(hosts) && IsTable(table, hosts, Listed(dcs)) && Covers(Keys(Listed(dcs)), table)
    requires HasNames(process, servers, clients) && servers > 0 && clients > 0 && cpu != 0
    requires forall s :: Enumerates(list(s), s)
    requires var keys := Keys(Listed(dcs)); var per := PerCentre(servers, cpu, |keys|);
      var sm, cm := ServerMachines(table, per), ClientMachines(table, per, list);
      && Placed(process, ServerNames(servers), keys, sm)
      && Placed(process, ClientNames(clients), keys, if NoMachines(cm) then sm else cm)
    ensures var per := PerCentre(servers, cpu, |Keys(Listed(dcs))|);
      ServersAlone(process, servers, clients) <==> !NoMachines(ClientMachines(table, per, list))
  {
    hide ServerName, ClientName, PerCentre, HostOf, Take;
    var keys := Keys(Listed(dcs));
    var per := PerCentre(servers, cpu, |keys|);
    HostPartition(table, hosts, Listed(dcs));
    if NoMachines(ClientMachines(table, per, list)) {
      assert process[ServerNames(servers)[0]] == process[ClientNames(clients)[0]];
    } else {
      forall i, k | 0 <= i < servers && 0 <= k < clients ensures process[ServerName(i)] != process[ClientName(k)] {
        ClientsApart(keys, table, ServerNames(servers), ClientNames(clients), per, list, process, i, k);
      }
    }
  }

  lemma LayoutFeasible(hosts: seq<string>, dcs: seq<string>, table: Machines, servers: nat, clients: nat, cpu: int,
                       overlap: bool, list: set<string> -> seq<string>)
    requires Distinct(hosts) && IsTable(table, hosts, Listed(dcs)) && Covers(Keys(Listed(dcs)), table)
    requires forall s :: Enumerates(list(s), s)
    ensures var keys := Keys(Listed(dcs));
      cpu >= 1 ==> forall k: nat :: IsLeast(servers, cpu, |keys|, k) ==>
        (Feasible(keys, table, servers, clients, cpu, overlap, list) <==>
         Sufficient(keys, table, servers, clients, overlap, k))
  {
    hide *;
    var keys := Keys(Listed(dcs));
    HostPartition(table, hosts, Listed(dcs));
    forall k: nat | cpu >= 1 && IsLeast(servers, cpu, |keys|, k)
      ensures Feasible(keys, table, servers, clients, cpu, overlap, list) <==>
              Sufficient(keys, table, servers, clients, overlap, k)
    {
      FeasibleExactlyWhen(keys, table, servers, clients, cpu, overlap, list, k);
    }
  }

  lemma LayoutSplits(hosts: seq<string>, dcs: seq<string>, table: Machines, servers: nat, clients: nat, cpu: int,
                     list: set<string> -> seq<string>, process: map<string, string>)
    requires Distinct(hosts) && IsTable(table, hosts, Listed(dcs)) && Covers(Keys(Listed(dcs)), table)
    requires forall s :: Enumerates(list(s), s)
    requires cpu != 0
    requires var keys := Keys(Listed(dcs)); var per := PerCentre(servers, cpu, |keys|);
      var sm, cm := ServerMachines(table, per), ClientMachines(table, per, list);
      && Placed(process, ServerNames(servers), keys, sm)
      && Placed(process, ClientNames(clients), keys, if NoMachines(cm) then sm else cm)
    ensures var keys := Keys(Listed(dcs));
      cpu >= 1 ==> forall k: nat :: IsLeast(servers, cpu, |keys|, k) ==>
        Split(process, keys, table, ServerNames(servers), ClientNames(clients), k)
  {
    hide *;
    var keys := Keys(Listed(dcs));
    HostPartition(table, hosts, Listed(dcs));
    forall k: nat | cpu >= 1 && IsLeast(servers, cpu, |keys|, k)
      ensures Split(process, keys, table, ServerNames(servers), ClientNames(clients), k)
    {
      PlacedSplits(process, keys, table, ServerNames(servers), ClientNames(clients), cpu, list, k);
    }
  }

  // ----- from the cluster description to the site lists

  lemma NamesList(t: Tables, hosts: seq<string>, servers: nat, clients: nat)
    requires Complete(t, hosts, servers, clients)
    ensures Lists(ServerNames(servers) + ClientNames(clients), t.process)
  {
    hide ServerName, ClientName, SiteText, Flatten;
    NamesDistinct(servers, clients);
  }

  /** generate_layout, get_process_info and get_sites in turn, for hosts with their addresses.  The two
      site lists hold every site once, with ids from 0 on.  No host serves more than cpu servers if there
      are enough hosts.  Of every data centre the servers get the least number of hosts that is enough,
      or all, and the clients the others, or the same if none is left anywhere.  Clients are apart from
      the servers exactly when a host is left for them, and no port is used twice exactly when the port
      ranges fit. */
  method Deploy(addresses: map<string, string>, hosts: seq<string>, dcs: seq<string>, clients: nat, shards: nat,
                replicas: nat, cpu: int, overlap: bool, strategy: Strategy, list: set<string> -> seq<string>,
                rpcPort: int)
    returns (r: Placing<Tables>, infos: map<string, Process>, serverSites: seq<Site>, clientSites: seq<Site>,
             ghost keys: seq<string>, ghost table: Machines)
    requires Distinct(hosts) && (forall h :: h in hosts ==> h in addresses) && forall s :: Enumerates(list(s), s)
    ensures keys == Keys(Listed(dcs)) && IsTable(table, hosts, Listed(dcs)) && Covers(keys, table)
    ensures r.Ok? <==>
            && Feasible(keys, table, shards * replicas, clients, cpu, overlap, list)
            && (strategy.WithLeader? || replicas > 0 || clients == 0)
    ensures r.Ok? ==>
      var n := shards * replicas;
      && HasNames(r.value.process, n, clients) && Lists(ServerNames(n) + ClientNames(clients), r.value.process)
      && Distinct(LayoutSites(r.value.process, n, clients, rpcPort, -1))
      && multiset(serverSites) + multiset(clientSites) ==
         multiset(LayoutSites(r.value.process, n, clients, rpcPort, -1))
      && (forall s :: s in serverSites ==> s.kind == Server) && (forall s :: s in clientSites ==> s.kind == Client)
    ensures r.Ok? && cpu >= 1 && EnoughHosts(keys, table, shards * replicas, cpu) ==>
      forall h :: |Hosted(r.value.process, ServerNames(shards * replicas), h)| <= cpu
    ensures cpu >= 1 ==> forall k: nat :: IsLeast(shards * replicas, cpu, |keys|, k) ==>
      (Feasible(keys, table, shards * replicas, clients, cpu, overlap, list) <==>
       Sufficient(keys, table, shards * replicas, clients, overlap, k))
    ensures r.Ok? && cpu >= 1 ==> forall k: nat :: IsLeast(shards * replicas, cpu, |keys|, k) ==>
      Split(r.value.process, keys, table, ServerNames(shards * replicas), ClientNames(clients), k)
    ensures r.Ok? && shards * replicas > 0 && clients > 0 ==>
      var per := PerCentre(shards * replicas, cpu, |keys|);
      ServersAlone(r.value.process, shards * replicas, clients) <==> !NoMachines(ClientMachines(table, per, list))
    ensures r.Ok? ==>
      var n := shards * replicas;
      var order := ProcessOrder(ServerNames(n) + ClientNames(clients), r.value.process);
      var sites := ServerSites(n, r.value.process, -1);
      && (forall k :: 0 <= k < |order| ==> order[k] in infos)
      && (Distinct(Ports(sites) + ControlPorts(sites) + ProcessPorts(order, infos)) <==>
          PortsFit(n, |order|, rpcPort))
  {
    hide *;
    infos, serverSites, clientSites := map[], [], [];
    r, keys, table := GenerateLayout(hosts, dcs, clients, shards, replicas, cpu, overlap, strategy, list);
    LayoutFeasible(hosts, dcs, table, shards * replicas, clients, cpu, overlap, list);
    if r.Err? {
      return;
    }
    var n := shards * replicas;
    LayoutSplits(hosts, dcs, table, n, clients, cpu, list, r.value.process);
    var names := ServerNames(n) + ClientNames(clients);
    NamesList(r.value, hosts, n, clients);
    infos := ReadLayout(r.value, addresses, names, n, clients, rpcPort, -1, -1, hosts);
    LayoutPorts(r.value.process, addresses, names, n, clients, rpcPort, -1, -1, infos);
    LayoutSitesOnce(r.value.process, addresses, names, n, clients, rpcPort, -1, -1, infos);
    var order := ProcessOrder(names, r.value.process);
    serverSites := GetSites(order, infos, Server);
    clientSites := GetSites(order, infos, Client);
    if cpu >= 1 && EnoughHosts(keys, table, n, cpu) {
      forall h ensures |Hosted(r.value.process, ServerNames(n), h)| <= cpu {
        LayoutLoad(hosts, dcs, table, n, cpu, r.value.process, h);
      }
    }
    if n > 0 && clients > 0 {
      LayoutApart(hosts, dcs, table, n, clients, cpu, list, r.value.process);
    }
  }
}
