/** The benchmark service's primality test by trial division up to the square root. */
module Prime {
  import opened RoundRobin

  ghost predicate NoDivisor(n: int) {
    forall d :: 1 < d < n ==> n % d != 0
  }

  /** `root` is the integer square root of n, or one off from it either way. */
  ghost predicate NearRoot(root: nat, n: nat) {
    (root + 2) * (root + 2) > n && (root == 0 || (root - 1) * (root - 1) <= n)
  }

  lemma RootIsNear(n: nat, r: nat, k: nat)
    requires r * r <= n < (r + 1) * (r + 1) && r - 1 <= k <= r + 1
    ensures NearRoot(k, n)
  {
    Product(k + 2, k + 2, r + 1);
    if k > 0 {
      Product(r, r, k - 1);
    }
  }

  /** A divisor gives one not above any m with (m + 1) squared beyond n. */
  lemma SmallDivisor(n: nat, d: nat, m: nat) returns (e: nat)
    requires 1 < d < n && n % d == 0 && (m + 1) * (m + 1) > n
    ensures 1 < e <= m && n % e == 0
  {
    if d <= m {
      e := d;
    } else {
      e := n / d;
      assert n == d * e;
      Cofactor(n, d, e);
      if e > m {
        Product(d, e, m + 1);
        assert false;
      }
    }
  }

  lemma Cofactor(n: nat, d: nat, e: nat)
    requires 1 < d < n && n == d * e
    ensures 1 < e && n % e == 0
  {
    assert e != 0 && e != 1;
    DivModUnique(n, e, d, 0);
  }

  lemma Product(a: nat, b: nat, c: nat)
    requires a >= c && b >= c
    ensures a * b >= c * c
  {
    assert a * b >= c * b;
    assert c * b >= c * c;
  }

  /** A root one off leaves the last candidate below n itself. */
  lemma CandidatesBelow(root: nat, n: nat)
    requires NearRoot(root, n) && n > 4
    ensures root + 1 < n
  {
    if root > 3 {
      assert (root - 1) * (root - 1) >= 3 * (root - 1);
    }
  }

  /** The flag is -1 for n <= 0 and otherwise says whether n has no divisor strictly between 1 and
      itself, also when the floating-point square root is off by one. */
  method FastPrime(n: int, root: nat) returns (flag: int)
    requires n > 3 ==> NearRoot(root, n)
    ensures n <= 0 ==> flag == -1
    ensures n > 0 ==> flag == if NoDivisor(n) then 1 else 0
  {
    if n <= 0 {
      flag := -1;
    } else if n <= 3 {
      flag := 1;
      assert n == 3 ==> n % 2 != 0;
    } else if n % 2 == 0 {
      flag := 0;
      assert 1 < 2 < n;
    } else {
      var d := 3;
      var m := root + 1;
      CandidatesBelow(root, n);
      while d <= m
        invariant d >= 3 && forall e :: 1 < e < d && e <= m ==> n % e != 0
      {
        if n % d == 0 {
          flag := 0;
          return;
        }
        d := d + 1;
      }
      flag := 1;
      forall k | 1 < k < n ensures n % k != 0 {
        if n % k == 0 {
          var e := SmallDivisor(n, k, m);
          assert false;
        }
      }
    }
  }
}
