/** Counting the turns of a cyclic iterator. */
module RoundRobin {
  import opened Basics

  /** How many of the first n turns of a cycle over `len` positions fall on position j. */
  function Turns(n: nat, j: nat, len: nat): (r: nat)
    requires j < len
  {
    n / len + if j < n % len then 1 else 0
  }

  lemma Multiples(d: int, len: int)
    requires len > 0
    ensures d >= 1 ==> d * len >= len
    ensures d <= -1 ==> d * len <= -len
    ensures d == 0 ==> d * len == 0
  {
  }

  lemma DivModUnique(n: int, len: int, q: int, r: int)
    requires len > 0 && n == q * len + r && 0 <= r < len
    ensures n / len == q && n % len == r
  {
    var d := n / len - q;
    assert d * len == r - n % len by {
      assert n == len * (n / len) + n % len;
    }
    Multiples(d, len);
  }

  lemma DivModStep(n: nat, len: nat)
    requires len > 0
    ensures n % len + 1 < len ==> (n + 1) / len == n / len && (n + 1) % len == n % len + 1
    ensures n % len + 1 == len ==> (n + 1) / len == n / len + 1 && (n + 1) % len == 0
  {
    var q, r := n / len, n % len;
    assert n == q * len + r;
    if r + 1 < len {
      DivModUnique(n + 1, len, q, r + 1);
    } else {
      assert (q + 1) * len == q * len + len;
      DivModUnique(n + 1, len, q + 1, 0);
    }
  }

  /** One more turn goes to position n mod len. */
  lemma TurnsStep(n: nat, j: nat, len: nat)
    requires j < len
    ensures Turns(n + 1, j, len) == Turns(n, j, len) + if n % len == j then 1 else 0
  {
    DivModStep(n, len);
  }

  /** The cursor of a cycle after one more turn. */
  lemma CursorStep(n: nat, len: nat)
    requires len > 0
    ensures (n + 1) % len == (n % len + 1) % len
  {
    DivModStep(n, len);
    if n % len + 1 < len {
      DivModUnique(n % len + 1, len, 0, n % len + 1);
    }
  }

  /** A cycle of `len` positions serves n turns with at most x each, if n <= x * len. */
  lemma TurnsAtMost(n: nat, j: nat, len: nat, x: nat)
    requires j < len && n <= x * len
    ensures Turns(n, j, len) <= x
  {
    var q, r := n / len, n % len;
    assert n == q * len + r;
    assert (q - x) * len == q * len - x * len;
    Multiples(q - x, len);
  }

  /** The least number of hosts per centre that is enough for n names at `cpu` each on `len` centres. */
  predicate IsLeast(n: nat, cpu: int, len: nat, per: int) {
    per >= 0 && n <= cpu * per * len && (per > 0 ==> cpu * (per - 1) * len < n)
  }

  lemma Scale(a: int, b: int, c: nat, d: nat)
    requires a <= b
    ensures c * a * d <= c * b * d
  {
    assert c * a <= c * b;
  }

  lemma Regroup(a: int, b: int, c: int)
    ensures a * (b * c) == a * b * c == a * (c * b)
  {
  }

  /** It is what the two nested ceilings compute. */
  lemma NestedCeilingsAreLeast(n: nat, cpu: nat, len: nat)
    requires cpu > 0 && len > 0
    ensures IsLeast(n, cpu, len, Ceil(Ceil(n, cpu), len))
  {
    var machines := Ceil(n, cpu);
    var per := Ceil(machines, len);
    hide Ceil;
    Scale(machines, len * per, cpu, 1);
    Regroup(cpu, per, len);
    if per > 0 {
      Scale(len * (per - 1), machines - 1, cpu, 1);
      Regroup(cpu, per - 1, len);
    }
  }

  lemma EnoughIsNoLess(n: nat, cpu: nat, len: nat, enough: nat, least: int)
    requires n <= cpu * enough * len && IsLeast(n, cpu, len, least)
    ensures least <= enough
  {
    if least > enough {
      Scale(enough, least - 1, cpu, len);
      assert false;
    }
  }
}
