/** The controller's process and site records, built from a layout's process and site tables. */
module ProcessInfo {
  import opened Basics
  import opened Decimal
  import opened Hosts
  import opened Sorting
  import opened Layout

  datatype Kind = Server | Client

  datatype Site = Site(id: int, process: string, name: string, kind: Kind, port: int, rpcPort: int)

  datatype Process = Process(id: int, name: string, address: string, rpcPort: int, sites: seq<Site>)

  datatype Error = KeyError | ValueError

  type Reading<T> = Result<T, Error>

  // ----- one site

  datatype Text = Bare(name: string) | WithPort(name: string, port: string) | TooManyParts

  function FirstColon(s: string): (c: nat)
    ensures c <= |s| && ':' !in s[..c]
    ensures c < |s| ==> s[c] == ':'
  {
    if s == [] || s[0] == ':' then 0
    else
      var c := FirstColon(s[1..]) + 1;
      assert s[..c] == [s[0]] + s[1..][..c - 1];
      c
  }

  /** site.split(':'), unpacked into two parts when there is a colon. */
  function SplitSite(s: string): Text {
    var c := FirstColon(s);
    if c == |s| then Bare(s)
    else if ':' in s[c + 1..] then TooManyParts
    else WithPort(s[..c], s[c + 1..])
  }

  lemma FirstColonAt(a: string, b: string)
    requires ':' !in a
    ensures FirstColon(a + ":" + b) == |a|
  {
    var s := a + ":" + b;
    var c := FirstColon(s);
    assert s[|a|] == ':';
    assert forall k :: 0 <= k < |a| ==> s[k] == a[k] != ':';
    assert forall k :: |a| < k <= |s| ==> ':' in s[..k] by {
      forall k | |a| < k <= |s| ensures ':' in s[..k] {
        assert s[..k][|a|] == ':';
      }
    }
  }

  /** A text without a colon is a name, one with a single colon a name and a port, and more colons are an
      error. */
  lemma SplitExactlyWhen(s: string)
    ensures
      match SplitSite(s)
      case Bare(name) => s == name && ':' !in s
      case WithPort(name, port) => s == name + ":" + port && ':' !in name && ':' !in port
      case TooManyParts => exists i, j :: 0 <= i < j < |s| && s[i] == s[j] == ':'
  {
    var c := FirstColon(s);
    if c == |s| {
      assert s[..c] == s;
    } else if ':' in s[c + 1..] {
      var k :| 0 <= k < |s[c + 1..]| && s[c + 1..][k] == ':';
      assert s[c + 1 + k] == ':';
    } else {
      assert s == s[..c] + ":" + s[c + 1..];
    }
  }

  /** Splitting a printed site gives back its name and, read as a number, its port. */
  lemma SplitSiteText(name: string, port: nat)
    requires ':' !in name
    ensures SplitSite(SiteText(name, port)) == WithPort(name, Show(port))
    ensures Parse(Show(port)) == Some(port)
  {
    var s := SiteText(name, port);
    FirstColonAt(name, Show(port));
    ParseShow(port);
    assert s[..|name|] == name && s[|name| + 1..] == Show(port);
  }

  lemma SplitBare(name: string)
    requires ':' !in name
    ensures SplitSite(name) == Bare(name)
  {
    assert forall i :: 0 <= i < |name| ==> name[i] in name;
  }

  function NewSite(id: int, process: string, name: string, kind: Kind, port: int): Site {
    Site(id, process, name, kind, port, if kind == Client then port else port + CTRL_PORT_DELTA)
  }

  function OneSite(kind: Kind, text: string, processes: map<string, string>, rpcPort: int, id: int): Reading<Site> {
    match SplitSite(text)
    case TooManyParts => Err(ValueError)
    case Bare(name) =>
      if name !in processes then Err(KeyError) else Ok(NewSite(id, processes[name], name, kind, rpcPort))
    case WithPort(name, port) =>
      if name !in processes then Err(KeyError)
      else
        match Parse(port)
        case None => Err(ValueError)
        case Some(p) => Ok(NewSite(id, processes[name], name, kind, p))
  }

  /** The part before the first colon, or the whole text, is no known name. */
  ghost predicate UnknownName(text: string, processes: map<string, string>) {
    exists name, rest :: text == name + rest && ':' !in name && (rest == "" || rest[0] == ':') && name !in processes
  }

  /** More than one colon, or a known name with a port that is no number. */
  ghost predicate Malformed(text: string, processes: map<string, string>) {
    || (exists i, j :: 0 <= i < j < |text| && text[i] == text[j] == ':')
    || (exists name, port :: text == name + ":" + port && name in processes && Parse(port).None?)
  }

  /** The text is the name alone, and the port the controller's, or it is name and port. */
  ghost predicate ReadsAs(text: string, name: string, port: int, rpcPort: int) {
    || (text == name && ':' !in text && port == rpcPort)
    || (exists digits :: text == name + ":" + digits && Parse(digits) == Some(port))
  }

  lemma NameUnknown(text: string, name: string, rest: string, processes: map<string, string>)
    requires text == name + rest && ':' !in name && (rest == "" || rest[0] == ':') && name !in processes
    ensures UnknownName(text, processes)
  {
  }

  /** A site that is made has the name and port its text is read as; the errors are an unknown name, and
      a malformed text. */
  lemma SiteExactlyWhen(kind: Kind, text: string, processes: map<string, string>, rpcPort: int, id: int)
    ensures
      match OneSite(kind, text, processes, rpcPort, id)
      case Ok(s) =>
        && s.id == id && s.kind == kind && s.name in processes && s.process == processes[s.name]
        && s.rpcPort == s.port + (if kind == Client then 0 else 10000) && ReadsAs(text, s.name, s.port, rpcPort)
      case Err(KeyError) => UnknownName(text, processes)
      case Err(ValueError) => Malformed(text, processes)
  {
    hide Parse, UnknownName;
    SplitExactlyWhen(text);
    match SplitSite(text)
    case TooManyParts =>
    case Bare(name) =>
      hide Malformed;
      if name !in processes {
        NameUnknown(text, name, "", processes);
      }
    case WithPort(name, port) =>
      if name !in processes {
        NameUnknown(text, name, ":" + port, processes);
      }
  }

  /** The sites made from the texts in order, with consecutive ids after `last`, or the first error. */
  function Sites(kind: Kind, texts: seq<string>, processes: map<string, string>, rpcPort: int, last: int):
    (r: Reading<seq<Site>>)
    ensures r.Ok? ==> |r.value| == |texts|
  {
    if texts == [] then Ok([])
    else
      var n := |texts|;
      match Sites(kind, texts[..n - 1], processes, rpcPort, last)
      case Err(e) => Err(e)
      case Ok(before) =>
        match OneSite(kind, texts[n - 1], processes, rpcPort, last + n)
        case Err(e) => Err(e)
        case Ok(s) => Ok(before + [s])
  }

  /** The sites of one process, in creation order. */
  function SitesOf(all: seq<Site>, process: string): seq<Site> {
    if all == [] then []
    else
      var s := all[|all| - 1];
      SitesOf(all[..|all| - 1], process) + if s.process == process then [s] else []
  }

  lemma SitesOfSnoc(all: seq<Site>, s: Site, process: string)
    ensures SitesOf(all + [s], process) == SitesOf(all, process) + if s.process == process then [s] else []
  {
    assert (all + [s])[..|all|] == all;
  }

  // ----- the dictionary of processes

  /** `names` lists the keys of the process table. */
  ghost predicate Lists(names: seq<string>, processes: map<string, string>) {
    && Distinct(names)
    && (forall k :: 0 <= k < |names| ==> names[k] in processes)
    && (forall x :: x in processes ==> x in names)
  }

  function Column(names: seq<string>, processes: map<string, string>): (r: seq<string>)
    requires forall i :: 0 <= i < |names| ==> names[i] in processes
    ensures |r| == |names| && forall i :: 0 <= i < |names| ==> r[i] == processes[names[i]]
  {
    seq(|names|, i requires 0 <= i < |names| => processes[names[i]])
  }

  lemma SortedLists(names: seq<string>, processes: map<string, string>)
    requires Lists(names, processes)
    ensures Lists(Sort(names, StringLeq()), processes)
  {
    var sorted := Sort(names, StringLeq());
    ReorderedLists(names, sorted, processes);
  }

  lemma ReorderedLists(names: seq<string>, sorted: seq<string>, processes: map<string, string>)
    requires Lists(names, processes) && multiset(sorted) == multiset(names)
    ensures Lists(sorted, processes)
  {
    DistinctCounts(names);
    DistinctCounts(sorted);
    forall k | 0 <= k < |sorted| ensures sorted[k] in processes {
      assert sorted[k] in multiset(sorted);
      assert sorted[k] in names;
    }
    forall x | x in processes ensures x in sorted {
      assert x in multiset(names);
    }
  }

  /** The machines in the order their first name comes alphabetically. */
  function ProcessOrder(names: seq<string>, processes: map<string, string>): seq<string>
    requires Lists(names, processes)
  {
    SortedLists(names, processes);
    Keys(Column(Sort(names, StringLeq()), processes))
  }

  ghost predicate Known(names: seq<string>, processes: map<string, string>, hosts: map<string, string>)
    requires Lists(names, processes)
  {
    forall k :: 0 <= k < |names| ==> processes[names[k]] in hosts
  }

  /** The dictionary holds exactly the processes of `order`, with consecutive ids after `last` and
      ports that follow the ids. */
  ghost predicate Numbered(infos: map<string, Process>, order: seq<string>, hosts: map<string, string>,
                           rpcPort: int, last: int)
  {
    && (forall x :: x in infos ==> x in order)
    && (forall k :: 0 <= k < |order| ==>
                      && order[k] in hosts && order[k] in infos
                      && IsInfo(infos[order[k]], order[k], hosts[order[k]], rpcPort, last + 1 + k))
  }

  predicate IsInfo(p: Process, name: string, address: string, rpcPort: int, id: int) {
    p.id == id && p.name == name && p.address == address && p.rpcPort == rpcPort + id
  }

  /** Each process owns its sites, in creation order. */
  ghost predicate Owns(infos: map<string, Process>, all: seq<Site>) {
    forall x :: x in infos ==> infos[x].sites == SitesOf(all, x)
  }

  method NewProcesses(hosts: map<string, string>, column: seq<string>, rpcPort: int, last: int)
    returns (ok: bool, order: seq<string>, infos: map<string, Process>)
    ensures ok <==> forall k :: 0 <= k < |column| ==> column[k] in hosts
    ensures ok ==> order == Keys(column) && Numbered(infos, order, hosts, rpcPort, last) && Owns(infos, [])
  {
    ok, order, infos := true, [], map[];
    var id := last;
    assert Numbered(infos, order, hosts, rpcPort, last) && Owns(infos, []) && Keys(column[..0]) == [];
    hide *;
    for i := 0 to |column|
      invariant ok && order == Keys(column[..i]) && id == last + |order|
      invariant Numbered(infos, order, hosts, rpcPort, last) && Owns(infos, [])
      invariant forall k :: 0 <= k < i ==> column[k] in hosts
    {
      KeysSnoc(column[..i], column[i]);
      assert column[..i] + [column[i]] == column[..i + 1];
      ok, order, infos, id := NewProcess(infos, column[i], order, hosts, rpcPort, id, last);
      if !ok {
        return;
      }
    }
    assert column[..|column|] == column;
  }

  lemma NumberedKeys(infos: map<string, Process>, order: seq<string>, hosts: map<string, string>,
                     rpcPort: int, last: int, x: string)
    requires Numbered(infos, order, hosts, rpcPort, last)
    ensures x in infos <==> x in order
    ensures x in order ==> x in hosts
  {
  }

  method NewProcess(infos: map<string, Process>, process: string, order: seq<string>,
                    hosts: map<string, string>, rpcPort: int, id: int, ghost last: int)
    returns (ok: bool, order': seq<string>, infos': map<string, Process>, id': int)
    requires Numbered(infos, order, hosts, rpcPort, last) && Owns(infos, []) && id == last + |order|
    ensures ok <==> process in hosts
    ensures ok ==> order' == order + if process in order then [] else [process]
    ensures ok ==> Numbered(infos', order', hosts, rpcPort, last) && Owns(infos', []) && id' == last + |order'|
  {
    NumberedKeys(infos, order, hosts, rpcPort, last, process);
    ok, order', infos', id' := true, order, infos, id;
    if process !in infos {
      if process !in hosts {
        ok := false;
        return;
      }
      id' := id + 1;
      infos' := infos[process := Process(id', process, hosts[process], rpcPort + id', [])];
      order' := order + [process];
    }
  }

  method AddSites(infos0: map<string, Process>, kind: Kind, texts: seq<string>, processes: map<string, string>,
                  ghost order: seq<string>, ghost hosts: map<string, string>, rpcPort: int,
                  ghost lastProcess: int, lastSite: int, ghost earlier: seq<Site>)
    returns (r: Reading<map<string, Process>>, id: int)
    requires Distinct(order) && Numbered(infos0, order, hosts, rpcPort, lastProcess) && Owns(infos0, earlier)
    requires forall x :: x in processes ==> processes[x] in infos0
    ensures
      match Sites(kind, texts, processes, rpcPort, lastSite)
      case Err(e) => r == Err(e)
      case Ok(sites) =>
        && r.Ok? && id == lastSite + |texts| && r.value.Keys == infos0.Keys
        && Numbered(r.value, order, hosts, rpcPort, lastProcess) && Owns(r.value, earlier + sites)
  {
    hide OneSite, Numbered, Owns;
    var infos := infos0;
    id := lastSite;
    ghost var sites := [];
    assert earlier + sites == earlier;
    for i := 0 to |texts|
      invariant id == lastSite + i && infos.Keys == infos0.Keys
      invariant Sites(kind, texts[..i], processes, rpcPort, lastSite) == Ok(sites)
      invariant Numbered(infos, order, hosts, rpcPort, lastProcess) && Owns(infos, earlier + sites)
    {
      SitesSnoc(kind, texts[..i], texts[i], processes, rpcPort, lastSite);
      assert texts[..i] + [texts[i]] == texts[..i + 1];
      id := id + 1;
      var one := OneSite(kind, texts[i], processes, rpcPort, id);
      if one.Err? {
        SitesStop(kind, texts, processes, rpcPort, lastSite, i + 1);
        return Err(one.error), id;
      }
      SiteHasProcess(kind, texts[i], processes, rpcPort, id, infos0);
      infos := AddSite(infos, one.value, order, hosts, rpcPort, lastProcess, earlier + sites);
      assert earlier + sites + [one.value] == earlier + (sites + [one.value]);
      sites := sites + [one.value];
    }
    assert texts[..|texts|] == texts;
    r := Ok(infos);
  }

  lemma SiteHasProcess(kind: Kind, text: string, processes: map<string, string>, rpcPort: int, id: int,
                       infos: map<string, Process>)
    requires OneSite(kind, text, processes, rpcPort, id).Ok?
    requires forall x :: x in processes ==> processes[x] in infos
    ensures OneSite(kind, text, processes, rpcPort, id).value.process in infos
  {
  }

  lemma SitesSnoc(kind: Kind, texts: seq<string>, text: string, processes: map<string, string>, rpcPort: int, last: int)
    requires Sites(kind, texts, processes, rpcPort, last).Ok?
    ensures
      match OneSite(kind, text, processes, rpcPort, last + |texts| + 1)
      case Err(e) => Sites(kind, texts + [text], processes, rpcPort, last) == Err(e)
      case Ok(s) =>
        Sites(kind, texts + [text], processes, rpcPort, last) ==
        Ok(Sites(kind, texts, processes, rpcPort, last).value + [s])
  {
    hide OneSite;
    assert (texts + [text])[..|texts|] == texts;
  }

  method AddSite(infos: map<string, Process>, s: Site, ghost order: seq<string>, ghost hosts: map<string, string>,
                 ghost rpcPort: int, ghost last: int, ghost all: seq<Site>)
    returns (next: map<string, Process>)
    requires Distinct(order) && Numbered(infos, order, hosts, rpcPort, last) && Owns(infos, all)
    requires s.process in infos
    ensures next.Keys == infos.Keys
    ensures Numbered(next, order, hosts, rpcPort, last) && Owns(next, all + [s])
  {
    var pi := infos[s.process];
    next := infos[s.process := pi.(sites := pi.sites + [s])];
    assert Owns(next, all + [s]) by {
      forall x | x in next ensures next[x].sites == SitesOf(all + [s], x) {
        SitesOfSnoc(all, s, x);
      }
    }
    hide Owns, SitesOf;
  }

  lemma {:induction false} SitesStop(kind: Kind, texts: seq<string>, processes: map<string, string>,
                                     rpcPort: int, last: int, n: nat)
    requires n <= |texts| && Sites(kind, texts[..n], processes, rpcPort, last).Err?
    ensures Sites(kind, texts, processes, rpcPort, last) == Sites(kind, texts[..n], processes, rpcPort, last)
  {
    if n == |texts| {
      assert texts[..n] == texts;
    } else {
      var m := |texts| - 1;
      assert texts[..m][..n] == texts[..n];
      SitesStop(kind, texts[..m], processes, rpcPort, last, n);
    }
  }

  lemma OrderCovers(names: seq<string>, processes: map<string, string>, x: string)
    requires Lists(names, processes) && x in processes
    ensures processes[x] in Keys(Column(names, processes))
  {
    var column := Column(names, processes);
    var k :| 0 <= k < |names| && names[k] == x;
    assert column[k] == processes[x];
    KeysMembers(column, processes[x]);
  }

  lemma KnownSorted(names: seq<string>, sorted: seq<string>, processes: map<string, string>, hosts: map<string, string>)
    requires Lists(names, processes) && Lists(sorted, processes)
    ensures Known(names, processes, hosts) ==> Known(sorted, processes, hosts)
  {
    forall k | 0 <= k < |sorted| && Known(names, processes, hosts) ensures processes[sorted[k]] in hosts {
      assert sorted[k] in names;
    }
  }

  /** get_process_info: the two counters are the class attributes that number processes and sites. */
  method GetProcessInfo(hosts: map<string, string>, names: seq<string>, processes: map<string, string>,
                        serverRows: seq<seq<string>>, clientRows: seq<seq<string>>, rpcPort: int,
                        lastProcess: int, lastSite: int)
    returns (r: Reading<map<string, Process>>)
    requires Lists(names, processes)
    ensures
      var servers := Sites(Server, Flatten(serverRows), processes, rpcPort, lastSite);
      var clients := Sites(Client, Flatten(clientRows), processes, rpcPort, lastSite + |Flatten(serverRows)|);
      if !Known(names, processes, hosts) then r == Err(KeyError)
      else if servers.Err? then r == Err(servers.error)
      else if clients.Err? then r == Err(clients.error)
      else
        && r.Ok? && Numbered(r.value, ProcessOrder(names, processes), hosts, rpcPort, lastProcess)
        && Owns(r.value, servers.value + clients.value)
  {
    hide *;
    var ok, order, infos := SortedProcesses(hosts, names, processes, rpcPort, lastProcess);
    if !ok {
      return Err(KeyError);
    }
    r := FillSites(infos, Flatten(serverRows), Flatten(clientRows), processes, order, hosts, rpcPort,
                   lastProcess, lastSite);
  }

  method SortedProcesses(hosts: map<string, string>, names: seq<string>, processes: map<string, string>,
                         rpcPort: int, last: int)
    returns (ok: bool, order: seq<string>, infos: map<string, Process>)
    requires Lists(names, processes)
    ensures ok <==> Known(names, processes, hosts)
    ensures ok ==> order == ProcessOrder(names, processes) && Distinct(order)
    ensures ok ==> Numbered(infos, order, hosts, rpcPort, last) && Owns(infos, [])
    ensures ok ==> forall x :: x in processes ==> processes[x] in infos
  {
    var sorted := Sort(names, StringLeq());
    SortedLists(names, processes);
    KnownSorted(names, sorted, processes, hosts);
    KnownSorted(sorted, names, processes, hosts);
    ok, order, infos := NewProcesses(hosts, Column(sorted, processes), rpcPort, last);
    if ok {
      AllPlaced(sorted, processes, infos, order, hosts, rpcPort, last);
    }
  }

  lemma AllPlaced(names: seq<string>, processes: map<string, string>, infos: map<string, Process>,
                  order: seq<string>, hosts: map<string, string>, rpcPort: int, last: int)
    requires Lists(names, processes) && order == Keys(Column(names, processes))
    requires Numbered(infos, order, hosts, rpcPort, last)
    ensures Distinct(order) && forall x :: x in processes ==> processes[x] in infos
  {
    KeysDistinct(Column(names, processes));
    forall x | x in processes ensures processes[x] in infos {
      OrderCovers(names, processes, x);
      NumberedKeys(infos, order, hosts, rpcPort, last, processes[x]);
    }
  }

  method FillSites(infos: map<string, Process>, servers: seq<string>, clients: seq<string>,
                   processes: map<string, string>, ghost order: seq<string>, ghost hosts: map<string, string>,
                   rpcPort: int, ghost lastProcess: int, lastSite: int)
    returns (r: Reading<map<string, Process>>)
    requires Distinct(order) && Numbered(infos, order, hosts, rpcPort, lastProcess) && Owns(infos, [])
    requires forall x :: x in processes ==> processes[x] in infos
    ensures
      var ss := Sites(Server, servers, processes, rpcPort, lastSite);
      var cs := Sites(Client, clients, processes, rpcPort, lastSite + |servers|);
      if ss.Err? then r == Err(ss.error)
      else if cs.Err? then r == Err(cs.error)
      else
        && r.Ok? && Numbered(r.value, order, hosts, rpcPort, lastProcess)
        && Owns(r.value, ss.value + cs.value)
  {
    hide Numbered, Sites;
    var id;
    r, id := AddSites(infos, Server, servers, processes, order, hosts, rpcPort, lastProcess, lastSite, []);
    if r.Err? {
      return;
    }
    ghost var sites := Sites(Server, servers, processes, rpcPort, lastSite).value;
    assert [] + sites == sites;
    r, id := AddSites(r.value, Client, clients, processes, order, hosts, rpcPort, lastProcess, id, sites);
  }

  // ----- which process gets the smaller id

  /** Some name of p comes before every name of q. */
  ghost predicate NamedBefore(processes: map<string, string>, p: string, q: string) {
    exists x :: x in processes && processes[x] == p && forall y :: y in processes && processes[y] == q ==> Before(x, y)
  }

  lemma SortedBefore(names: seq<string>, i: nat, j: nat)
    requires Sorted(names, StringLeq()) && Distinct(names) && i < j < |names|
    ensures Before(names[i], names[j])
  {
    assert StringLeq()(names[i], names[j]);
    PrecedesMeans(names[i], names[j]);
  }

  lemma OrderFollowsNames(names: seq<string>, processes: map<string, string>, i: nat, j: nat)
    requires Lists(names, processes) && i < j < |ProcessOrder(names, processes)|
    ensures var order := ProcessOrder(names, processes); NamedBefore(processes, order[i], order[j])
  {
    hide Sort, Before;
    var sorted := Sort(names, StringLeq());
    SortedLists(names, processes);
    StringsAreOrdered();
    SortSorted(names, StringLeq());
    var column := Column(sorted, processes);
    var first := KeysInOrder(column, i, j);
    var x := sorted[first];
    forall y | y in processes && processes[y] == Keys(column)[j] ensures Before(x, y) {
      var q :| 0 <= q < |sorted| && sorted[q] == y;
      assert column[q] == processes[y];
      SortedBefore(sorted, first, q);
    }
  }

  lemma NotBothBefore(processes: map<string, string>, p: string, q: string)
    requires NamedBefore(processes, p, q) && NamedBefore(processes, q, p)
    ensures p == q
  {
    hide Before;
    var x :| x in processes && processes[x] == p && forall y :: y in processes && processes[y] == q ==> Before(x, y);
    var y :| y in processes && processes[y] == q && forall z :: z in processes && processes[z] == p ==> Before(y, z);
    PrecedesMeans(x, y);
    PrecedesMeans(y, x);
    PrecedesTotal(x, y);
  }

  /** Of two processes the one with the alphabetically least name gets the smaller id. */
  lemma IdsFollowNames(infos: map<string, Process>, names: seq<string>, processes: map<string, string>,
                       hosts: map<string, string>, rpcPort: int, last: int, p: string, q: string)
    requires Lists(names, processes) && Numbered(infos, ProcessOrder(names, processes), hosts, rpcPort, last)
    requires p in infos && q in infos && p != q
    ensures infos[p].id < infos[q].id <==> NamedBefore(processes, p, q)
  {
    hide NamedBefore, ProcessOrder;
    var order := ProcessOrder(names, processes);
    var i :| 0 <= i < |order| && order[i] == p;
    var j :| 0 <= j < |order| && order[j] == q;
    if i < j {
      OrderFollowsNames(names, processes, i, j);
    } else {
      OrderFollowsNames(names, processes, j, i);
      if NamedBefore(processes, p, q) {
        NotBothBefore(processes, p, q);
      }
    }
  }
}
