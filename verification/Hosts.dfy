/** Grouping the configured hosts by data centre. */
module Hosts {
  import opened Basics
  import opened Sorting

  /** Code-point order on strings, as Python's sorted uses it. */
  predicate Precedes(a: string, b: string) {
    a == [] || (b != [] && (a[0] < b[0] || (a[0] == b[0] && Precedes(a[1..], b[1..]))))
  }

  function StringLeq(): (string, string) -> bool {
    (a, b) => Precedes(a, b)
  }

  lemma {:induction false} PrecedesTotal(a: string, b: string)
    ensures Precedes(a, b) || Precedes(b, a)
    ensures Precedes(a, b) && Precedes(b, a) ==> a == b
  {
    if a != [] && b != [] && a[0] == b[0] {
      PrecedesTotal(a[1..], b[1..]);
      assert a == [a[0]] + a[1..] && b == [b[0]] + b[1..];
    }
  }

  lemma {:induction false} PrecedesTransitive(a: string, b: string, c: string)
    requires Precedes(a, b) && Precedes(b, c)
    ensures Precedes(a, c)
  {
    if a != [] && a[0] == b[0] == c[0] {
      PrecedesTransitive(a[1..], b[1..], c[1..]);
    }
  }

  lemma StringsAreOrdered()
    ensures TotalOrder(StringLeq())
  {
    forall a, b ensures StringLeq()(a, b) || StringLeq()(b, a) {
      PrecedesTotal(a, b);
    }
    forall a, b, c | StringLeq()(a, b) && StringLeq()(b, c) ensures StringLeq()(a, c) {
      PrecedesTransitive(a, b, c);
    }
  }

  /** The two strings agree up to some position, where a ends or has the smaller character. */
  ghost predicate Before(a: string, b: string) {
    exists k :: 0 <= k <= |a| && k < |b| && a[..k] == b[..k] && (k == |a| || a[k] < b[k])
  }

  /** The order is equality or coming before. */
  lemma {:induction false} PrecedesMeans(a: string, b: string)
    ensures Precedes(a, b) <==> a == b || Before(a, b)
  {
    if a == [] {
      assert b != [] ==> a[..0] == b[..0];
    } else if b == [] {
    } else if a[0] != b[0] {
      assert a[..0] == b[..0];
      assert Before(a, b) ==> a[0] < b[0] by {
        if k :| 0 <= k <= |a| && k < |b| && a[..k] == b[..k] && (k == |a| || a[k] < b[k]) {
          assert k > 0 ==> a[..k][0] == b[..k][0];
        }
      }
    } else {
      PrecedesMeans(a[1..], b[1..]);
      assert a == [a[0]] + a[1..] && b == [b[0]] + b[1..];
      BeforeTail(a, b);
    }
  }

  lemma BeforeTail(a: string, b: string)
    requires a != [] && b != [] && a[0] == b[0]
    ensures Before(a, b) <==> Before(a[1..], b[1..])
  {
    if k :| 0 <= k <= |a| && k < |b| && a[..k] == b[..k] && (k == |a| || a[k] < b[k]) {
      assert k > 0;
      assert a[1..][..k - 1] == a[..k][1..] && b[1..][..k - 1] == b[..k][1..];
    }
    var ta, tb := a[1..], b[1..];
    if k :| 0 <= k <= |ta| && k < |tb| && ta[..k] == tb[..k] && (k == |ta| || ta[k] < tb[k]) {
      assert a[..k + 1] == [a[0]] + ta[..k] && b[..k + 1] == [b[0]] + tb[..k];
    }
  }

  // ----- the data centre of a host

  /** The first listed data centre whose name is a prefix of h. */
  function Home(h: string, dcs: seq<string>): Option<string> {
    if dcs == [] then None
    else if dcs[0] <= h then Some(dcs[0])
    else Home(h, dcs[1..])
  }

  ghost predicate FirstPrefix(h: string, dcs: seq<string>, i: int) {
    0 <= i < |dcs| && dcs[i] <= h && forall k :: 0 <= k < i ==> !(dcs[k] <= h)
  }

  lemma {:induction false} HomeIsFirstPrefix(h: string, dcs: seq<string>, i: nat)
    requires FirstPrefix(h, dcs, i)
    ensures Home(h, dcs) == Some(dcs[i])
  {
    if i > 0 {
      assert !(dcs[0] <= h);
      assert FirstPrefix(h, dcs[1..], i - 1) by {
        forall k | 0 <= k < i - 1 ensures !(dcs[1..][k] <= h) {
          assert dcs[1..][k] == dcs[k + 1];
        }
      }
      HomeIsFirstPrefix(h, dcs[1..], i - 1);
    }
  }

  lemma {:induction false} HomelessHost(h: string, dcs: seq<string>)
    requires forall i :: 0 <= i < |dcs| ==> !(dcs[i] <= h)
    ensures Home(h, dcs).None?
  {
    if dcs != [] {
      HomelessHost(h, dcs[1..]);
    }
  }

  /** The keys of the dictionary, in insertion order. */
  function Keys(dcs: seq<string>): (keys: seq<string>)
    ensures dcs != [] ==> keys != []
  {
    if dcs == [] then []
    else
      var last := dcs[|dcs| - 1];
      var r := Keys(dcs[..|dcs| - 1]);
      if last in r then r else r + [last]
  }

  lemma {:induction false} KeysDistinct(dcs: seq<string>)
    ensures Distinct(Keys(dcs))
  {
    if dcs != [] {
      KeysDistinct(dcs[..|dcs| - 1]);
    }
  }

  lemma {:induction false} KeysMembers(dcs: seq<string>, dc: string)
    ensures dc in Keys(dcs) <==> dc in dcs
  {
    if dcs != [] {
      KeysMembers(dcs[..|dcs| - 1], dc);
      assert dcs == dcs[..|dcs| - 1] + [dcs[|dcs| - 1]];
    }
  }

  /** Keys come in the order of their first occurrences. */
  lemma {:induction false} KeysInOrder(dcs: seq<string>, i: nat, j: nat) returns (first: nat)
    requires i < j < |Keys(dcs)|
    ensures first < |dcs| && dcs[first] == Keys(dcs)[i]
    ensures forall q :: 0 <= q < |dcs| && dcs[q] == Keys(dcs)[j] ==> first < q
  {
    var n := |dcs| - 1;
    var r := Keys(dcs[..n]);
    if j < |r| {
      KeysDistinct(dcs);
      first := KeysInOrder(dcs[..n], i, j);
    } else {
      KeysMembers(dcs[..n], r[i]);
      KeysMembers(dcs[..n], dcs[n]);
      first :| 0 <= first < n && dcs[..n][first] == r[i];
    }
  }

  lemma KeysSnoc(dcs: seq<string>, dc: string)
    ensures Keys(dcs + [dc]) == Keys(dcs) + if dc in Keys(dcs) then [] else [dc]
  {
    assert (dcs + [dc])[..|dcs|] == dcs;
  }

  /** The hosts whose home is dc, in configuration order. */
  function Members(hosts: seq<string>, dcs: seq<string>, dc: string): seq<string> {
    if hosts == [] then []
    else
      var h := hosts[|hosts| - 1];
      Members(hosts[..|hosts| - 1], dcs, dc) + if Home(h, dcs) == Some(dc) then [h] else []
  }

  /** An empty list of data centres means one nameless centre, which is a prefix of every host. */
  function Listed(dcs: seq<string>): (r: seq<string>)
    ensures r != []
  {
    if dcs == [] then [""] else dcs
  }

  lemma {:induction false} NamelessCentre(hosts: seq<string>)
    ensures Members(hosts, [""], "") == hosts
  {
    if hosts != [] {
      NamelessCentre(hosts[..|hosts| - 1]);
      assert "" <= hosts[|hosts| - 1];
    }
  }

  /** The table has one sorted list of hosts per listed data centre. */
  ghost predicate IsTable(table: map<string, seq<string>>, hosts: seq<string>, dcs: seq<string>) {
    && (forall dc :: dc in table <==> dc in dcs)
    && (forall dc :: dc in table ==> table[dc] == Sort(Members(hosts, dcs, dc), StringLeq()))
  }

  method HomeOf(h: string, dcs: seq<string>) returns (r: Option<string>)
    ensures r == Home(h, dcs)
  {
    for i := 0 to |dcs|
      invariant forall k :: 0 <= k < i ==> !(dcs[k] <= h)
    {
      if dcs[i] <= h {
        HomeIsFirstPrefix(h, dcs, i);
        return Some(dcs[i]);
      }
    }
    HomelessHost(h, dcs);
    return None;
  }

  ghost predicate Groups(m: map<string, seq<string>>, hosts: seq<string>, dcs: seq<string>) {
    && (forall dc :: dc in m <==> dc in dcs)
    && (forall dc :: dc in m ==> m[dc] == Members(hosts, dcs, dc))
  }

  method EmptyLists(dcs: seq<string>) returns (keys: seq<string>, result: map<string, seq<string>>)
    ensures keys == Keys(dcs) && Groups(result, [], dcs)
  {
    keys, result := [], map[];
    for i := 0 to |dcs|
      invariant keys == Keys(dcs[..i])
      invariant forall dc :: dc in result <==> dc in dcs[..i]
      invariant forall dc :: dc in result ==> result[dc] == []
    {
      KeysSnoc(dcs[..i], dcs[i]);
      assert dcs[..i] + [dcs[i]] == dcs[..i + 1];
      if dcs[i] !in keys {
        keys := keys + [dcs[i]];
      }
      result := result[dcs[i] := []];
    }
    assert dcs[..|dcs|] == dcs;
  }

  method Append(result: map<string, seq<string>>, h: string, ghost before: seq<string>, dcs: seq<string>)
    returns (next: map<string, seq<string>>)
    requires Groups(result, before, dcs)
    ensures Groups(next, before + [h], dcs)
  {
    var home := HomeOf(h, dcs);
    assert (before + [h])[..|before|] == before;
    next := result;
    if home.Some? {
      HomeIsListed(h, dcs);
      next := result[home.value := result[home.value] + [h]];
    }
  }

  method HostsByDatacenter(hosts: seq<string>, dcs: seq<string>)
    returns (keys: seq<string>, result: map<string, seq<string>>)
    ensures keys == Keys(Listed(dcs))
    ensures IsTable(result, hosts, Listed(dcs))
  {
    if |dcs| == 0 {
      NamelessCentre(hosts);
      return [""], map["" := Sort(hosts, StringLeq())];
    }
    keys, result := EmptyLists(dcs);
    result := GroupAll(result, hosts, dcs);
    result := map dc | dc in result :: Sort(result[dc], StringLeq());
  }

  /** The loop over the hosts. */
  method GroupAll(empty: map<string, seq<string>>, hosts: seq<string>, dcs: seq<string>)
    returns (result: map<string, seq<string>>)
    requires Groups(empty, [], dcs)
    ensures Groups(result, hosts, dcs)
  {
    hide Groups;
    result := empty;
    for n := 0 to |hosts|
      invariant Groups(result, hosts[..n], dcs)
    {
      result := Append(result, hosts[n], hosts[..n], dcs);
      assert hosts[..n] + [hosts[n]] == hosts[..n + 1];
    }
    assert hosts[..|hosts|] == hosts;
  }

  lemma {:induction false} HomeIsListed(h: string, dcs: seq<string>)
    ensures Home(h, dcs).Some? ==> Home(h, dcs).value in dcs && Home(h, dcs).value <= h
  {
    if dcs != [] && !(dcs[0] <= h) {
      HomeIsListed(h, dcs[1..]);
    }
  }

  // ----- the partition

  lemma {:induction false} MembersAt(hosts: seq<string>, dcs: seq<string>, dc: string, h: string)
    ensures h in Members(hosts, dcs, dc) <==> h in hosts && Home(h, dcs) == Some(dc)
  {
    if hosts != [] {
      MembersAt(hosts[..|hosts| - 1], dcs, dc, h);
      assert hosts == hosts[..|hosts| - 1] + [hosts[|hosts| - 1]];
    }
  }

  lemma {:induction false} MembersDistinct(hosts: seq<string>, dcs: seq<string>, dc: string)
    requires Distinct(hosts)
    ensures Distinct(Members(hosts, dcs, dc))
  {
    if hosts != [] {
      var rest, h := hosts[..|hosts| - 1], hosts[|hosts| - 1];
      MembersDistinct(rest, dcs, dc);
      MembersAt(rest, dcs, dc, h);
      assert h !in rest;
    }
  }

  ghost predicate Partitioned(keys: seq<string>, table: map<string, seq<string>>) {
    && keys != [] && Distinct(keys)
    && (forall dc :: dc in keys <==> dc in table)
    && (forall dc :: dc in table ==> Distinct(table[dc]))
    && (forall h, dc, other :: dc in table && other in table && h in table[dc] && h in table[other] ==> dc == other)
  }

  lemma GroupIsOrdered(hosts: seq<string>, dcs: seq<string>, dc: string)
    requires Distinct(hosts)
    ensures var group := Sort(Members(hosts, dcs, dc), StringLeq());
      Distinct(group) && Sorted(group, StringLeq())
  {
    var members := Members(hosts, dcs, dc);
    StringsAreOrdered();
    SortSorted(members, StringLeq());
    MembersDistinct(hosts, dcs, dc);
    DistinctCounts(members);
    DistinctCounts(Sort(members, StringLeq()));
  }

  lemma GroupMembers(hosts: seq<string>, dcs: seq<string>, dc: string, h: string)
    ensures h in Sort(Members(hosts, dcs, dc), StringLeq()) <==> h in hosts && Home(h, dcs) == Some(dc)
  {
    MembersAt(hosts, dcs, dc, h);
    SortMembers(Members(hosts, dcs, dc), StringLeq());
  }

  /** A host is listed under the first data centre whose name is its prefix, and under no other. */
  lemma HostAtHome(table: map<string, seq<string>>, hosts: seq<string>, dcs: seq<string>, dc: string, h: string)
    requires IsTable(table, hosts, dcs) && dc in table
    ensures h in table[dc] <==> h in hosts && exists i :: FirstPrefix(h, dcs, i) && dcs[i] == dc
  {
    GroupMembers(hosts, dcs, dc, h);
    if Home(h, dcs).Some? {
      var i := HomeIndex(h, dcs);
    }
    forall i | FirstPrefix(h, dcs, i) ensures Home(h, dcs) == Some(dcs[i]) {
      HomeIsFirstPrefix(h, dcs, i);
    }
  }

  lemma {:induction false} HomeIndex(h: string, dcs: seq<string>) returns (i: nat)
    requires Home(h, dcs).Some?
    ensures FirstPrefix(h, dcs, i) && dcs[i] == Home(h, dcs).value
  {
    if dcs[0] <= h {
      i := 0;
    } else {
      var k := HomeIndex(h, dcs[1..]);
      i := k + 1;
      forall m | 0 <= m < i ensures !(dcs[m] <= h) {
        if m > 0 {
          assert dcs[1..][m - 1] == dcs[m];
        }
      }
    }
  }

  lemma HostsInOrder(table: map<string, seq<string>>, hosts: seq<string>, dcs: seq<string>)
    requires Distinct(hosts) && IsTable(table, hosts, dcs)
    ensures forall dc :: dc in table ==> Sorted(table[dc], StringLeq()) && Distinct(table[dc])
  {
    forall dc | dc in table ensures Sorted(table[dc], StringLeq()) && Distinct(table[dc]) {
      GroupIsOrdered(hosts, dcs, dc);
    }
  }

  /** No host is listed twice, within a data centre or across two. */
  lemma HostPartition(table: map<string, seq<string>>, hosts: seq<string>, dcs: seq<string>)
    requires Distinct(hosts) && dcs != [] && IsTable(table, hosts, dcs)
    ensures Partitioned(Keys(dcs), table)
  {
    HostsInOrder(table, hosts, dcs);
    KeysDistinct(dcs);
    forall dc ensures dc in Keys(dcs) <==> dc in dcs {
      KeysMembers(dcs, dc);
    }
    assert dcs[0] in Keys(dcs);
    forall h, dc, other | dc in table && other in table && h in table[dc] && h in table[other]
      ensures dc == other
    {
      GroupMembers(hosts, dcs, dc, h);
      GroupMembers(hosts, dcs, other, h);
    }
  }
}
