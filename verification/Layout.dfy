/** The names and the site tables of a layout. */
module Layout {
  import opened Basics
  import opened Decimal
  import Placement

  const FIRST_PORT := 10000
  const CTRL_PORT_DELTA := 10000

  // ----- names

  function ServerName(i: nat): string {
    "s" + Show(i)
  }

  function ClientName(k: nat): string {
    "c" + Show(k)
  }

  function ServerNames(n: nat): (r: seq<string>)
    ensures |r| == n && forall i :: 0 <= i < n ==> r[i] == ServerName(i)
  {
    seq(n, i requires 0 <= i < n => ServerName(i))
  }

  function ClientNames(n: nat): (r: seq<string>)
    ensures |r| == n && forall k :: 0 <= k < n ==> r[k] == ClientName(k)
  {
    seq(n, k requires 0 <= k < n => ClientName(k))
  }

  lemma TagInjective(tag: string, a: nat, b: nat)
    requires tag + Show(a) == tag + Show(b)
    ensures a == b
  {
    assert (tag + Show(a))[|tag|..] == Show(a) && (tag + Show(b))[|tag|..] == Show(b);
    ShowInjective(a, b);
  }

  lemma TagsDiffer(a: nat, b: nat)
    ensures "s" + Show(a) != "c" + Show(b)
  {
    assert ("s" + Show(a))[0] == 's' && ("c" + Show(b))[0] == 'c';
  }

  lemma NamesDistinct(servers: nat, clients: nat)
    ensures Distinct(ServerNames(servers) + ClientNames(clients))
  {
    var names := ServerNames(servers) + ClientNames(clients);
    forall i, j | 0 <= i < j < |names| ensures names[i] != names[j] {
      if names[i] == names[j] {
        if j < servers {
          TagInjective("s", i, j);
        } else if i >= servers {
          TagInjective("c", i - servers, j - servers);
        } else {
          assert false by { TagsDiffer(i, j - servers); }
        }
      }
    }
  }

  lemma NoColon(n: nat)
    ensures ':' !in ServerName(n) && ':' !in ClientName(n)
  {
    ParseShow(n);
    hide Show, Parse;
    assert ':' !in Show(n);
  }

  // ----- rows of sites

  function SiteText(name: string, port: nat): string {
    name + ":" + Show(port)
  }

  function SiteTexts(names: seq<string>): (r: seq<string>)
    ensures |r| == |names| && forall i :: 0 <= i < |names| ==> r[i] == SiteText(names[i], FIRST_PORT + i)
  {
    seq(|names|, i requires 0 <= i < |names| => SiteText(names[i], FIRST_PORT + i))
  }

  method ServerRow(names: seq<string>, start: nat, replicas: nat, firstPort: nat)
    returns (row: seq<string>, port: nat)
    requires start + replicas <= |names| && firstPort == FIRST_PORT + start
    ensures row == SiteTexts(names)[start..start + replicas]
    ensures port == firstPort + replicas
  {
    row, port := [], firstPort;
    for rep := 0 to replicas
      invariant port == firstPort + rep
      invariant |row| == rep && forall k :: 0 <= k < rep ==> row[k] == SiteText(names[start + k], firstPort + k)
    {
      row := row + [names[start + rep] + ":" + Show(port)];
      port := port + 1;
    }
  }

  /** One row per shard; reading the rows in order gives each server its own consecutive port. */
  method GenerateSiteServer(names: seq<string>, shards: nat, replicas: nat) returns (rows: seq<seq<string>>)
    requires |names| == shards * replicas
    ensures |rows| == shards && forall k :: 0 <= k < shards ==> |rows[k]| == replicas
    ensures Flatten(rows) == SiteTexts(names)
  {
    var port, start := FIRST_PORT, 0;
    rows := [];
    for sid := 0 to shards
      invariant start == sid * replicas && start + (shards - sid) * replicas == |names|
      invariant port == FIRST_PORT + start && start <= |names|
      invariant |rows| == sid && forall k :: 0 <= k < sid ==> |rows[k]| == replicas
      invariant Flatten(rows) == SiteTexts(names)[..start]
    {
      var row;
      OneMoreRow(sid, replicas);
      OneMoreRow(shards - sid - 1, replicas);
      row, port := ServerRow(names, start, replicas, port);
      FlattenSnoc(rows, row);
      rows, start := rows + [row], start + replicas;
    }
  }

  lemma OneMoreRow(rows: nat, replicas: nat)
    ensures (rows + 1) * replicas == rows * replicas + replicas
    ensures rows * replicas >= 0
  {
  }

  ghost predicate ClientRows(rows: seq<seq<string>>, names: seq<string>, replicas: nat) {
    && Flatten(rows) == names
    && (forall k :: 0 <= k < |rows| - 1 ==> |rows[k]| == replicas)
    && (rows != [] ==> 0 < |rows[|rows| - 1]| <= replicas)
  }

  /** Client rows of `replicas` names, the last one possibly shorter; no name is lost or moved. */
  method GenerateSiteClient(names: seq<string>, replicas: nat) returns (r: Placement.Placing<seq<seq<string>>>)
    ensures replicas == 0 && names != [] ==> r == Err(Placement.DivisionByZero)
    ensures replicas > 0 || names == [] ==> r.Ok? && ClientRows(r.value, names, replicas)
  {
    if |names| == 0 {
      return Ok([]);
    }
    if replicas == 0 {
      return Err(Placement.DivisionByZero);
    }
    var rows, row := [], [];
    for cid := 0 to |names|
      invariant |row| < replicas
      invariant Flatten(rows) + row == names[..cid]
      invariant forall k :: 0 <= k < |rows| ==> |rows[k]| == replicas
    {
      ghost var before := row;
      row := row + [names[cid]];
      assert Flatten(rows) + row == (Flatten(rows) + before) + [names[cid]] == names[..cid + 1];
      FullRow(|row|, replicas);
      if |row| % replicas == 0 && |row| > 0 {
        FlattenSnoc(rows, row);
        rows, row := rows + [row], [];
      }
    }
    assert names[..|names|] == names;
    if |row| > 0 {
      FlattenSnoc(rows, row);
      rows := rows + [row];
    }
    return Ok(rows);
  }

  lemma FullRow(len: nat, replicas: nat)
    requires 0 < len <= replicas
    ensures len % replicas == 0 <==> len == replicas
  {
  }

  /** With the leader strategy every client is a row of its own. */
  method LeaderSiteClient(names: seq<string>) returns (rows: seq<seq<string>>)
    ensures Flatten(rows) == names
    ensures forall k :: 0 <= k < |rows| ==> |rows[k]| == 1
  {
    rows := [];
    for i := 0 to |names|
      invariant Flatten(rows) == names[..i]
      invariant forall k :: 0 <= k < |rows| ==> |rows[k]| == 1
    {
      FlattenSnoc(rows, [names[i]]);
      rows := rows + [[names[i]]];
    }
  }
}
