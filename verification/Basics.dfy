/** Notions that several modules share. */
module Basics {

  datatype Option<+T> = None | Some(value: T)

  datatype Result<+T, +E> = Ok(value: T) | Err(error: E)

  ghost predicate Distinct<T>(s: seq<T>) {
    forall i, j :: 0 <= i < j < |s| ==> s[i] != s[j]
  }

  lemma {:induction false} DistinctCounts<T>(s: seq<T>)
    ensures Distinct(s) <==> forall x :: multiset(s)[x] <= 1
  {
    if s != [] {
      var rest, last := s[..|s| - 1], s[|s| - 1];
      assert s == rest + [last];
      DistinctCounts(rest);
      assert last in rest <==> multiset(rest)[last] >= 1;
      if forall x :: multiset(s)[x] <= 1 {
        forall x ensures multiset(rest)[x] <= 1 {
          assert multiset(s)[x] <= 1;
        }
        assert multiset(s)[last] <= 1;
      }
    }
  }

  function Flatten<T>(rows: seq<seq<T>>): seq<T> {
    if rows == [] then [] else Flatten(rows[..|rows| - 1]) + rows[|rows| - 1]
  }

  lemma FlattenSnoc<T>(rows: seq<seq<T>>, row: seq<T>)
    ensures Flatten(rows + [row]) == Flatten(rows) + row
  {
    assert (rows + [row])[..|rows|] == rows;
  }

  /** The integer ceiling of n / d, for a divisor of either sign. */
  function Ceil(n: int, d: int): (q: int)
    requires d != 0
    ensures d > 0 ==> d * (q - 1) < n <= d * q
    ensures d > 0 && n >= 0 ==> q >= 0
  {
    if d > 0 then (n + d - 1) / d else (-n - d - 1) / -d
  }

  // ----- white space

  /** The characters str.strip removes. */
  predicate IsSpace(c: char) {
    || '\U{09}' <= c <= '\U{0D}' || '\U{1C}' <= c <= '\U{20}' || c == '\U{85}' || c == '\U{A0}'
    || c == '\U{1680}' || '\U{2000}' <= c <= '\U{200A}' || c == '\U{2028}' || c == '\U{2029}'
    || c == '\U{202F}' || c == '\U{205F}' || c == '\U{3000}'
  }

  function TrimLeft(s: string): string {
    if s != [] && IsSpace(s[0]) then TrimLeft(s[1..]) else s
  }

  function TrimRight(s: string): string {
    if s != [] && IsSpace(s[|s| - 1]) then TrimRight(s[..|s| - 1]) else s
  }

  function Strip(s: string): string {
    TrimRight(TrimLeft(s))
  }

  ghost predicate Blank(s: string) {
    forall i :: 0 <= i < |s| ==> IsSpace(s[i])
  }

  /** Nothing to strip: empty, or with a first and a last character that are not white space. */
  ghost predicate Bare(s: string) {
    s == [] || (!IsSpace(s[0]) && !IsSpace(s[|s| - 1]))
  }

  lemma {:induction false} TrimLeftSplits(s: string) returns (a: string)
    ensures s == a + TrimLeft(s) && Blank(a) && (TrimLeft(s) == [] || !IsSpace(TrimLeft(s)[0]))
  {
    if s != [] && IsSpace(s[0]) {
      var rest := TrimLeftSplits(s[1..]);
      a := [s[0]] + rest;
    } else {
      a := [];
    }
  }

  lemma {:induction false} TrimRightSplits(s: string) returns (b: string)
    ensures s == TrimRight(s) + b && Blank(b) && (TrimRight(s) == [] || !IsSpace(TrimRight(s)[|TrimRight(s)| - 1]))
  {
    if s != [] && IsSpace(s[|s| - 1]) {
      var rest := TrimRightSplits(s[..|s| - 1]);
      b := rest + [s[|s| - 1]];
    } else {
      b := [];
    }
  }

  /** Stripping removes white space from both ends, and all of it. */
  lemma StripSplits(s: string) returns (a: string, b: string)
    ensures s == a + Strip(s) + b && Blank(a) && Blank(b) && Bare(Strip(s))
  {
    a := TrimLeftSplits(s);
    b := TrimRightSplits(TrimLeft(s));
  }

  /** There is only one such way to split a text. */
  lemma StripOf(a: string, m: string, b: string)
    requires Blank(a) && Blank(b) && Bare(m)
    ensures Strip(a + m + b) == m
  {
    hide IsSpace, TrimLeft, TrimRight;
    var s := a + m + b;
    var a', b' := StripSplits(s);
    var m' := Strip(s);
    assert s == a' + m' + b';
    if m == [] {
      assert Blank(s);
      if m' != [] {
        NotBlank(a', m', b');
      }
    } else {
      NotBlank(a, m, b);
      assert m' == [] ==> Blank(s);
      assert s[|a|] == m[0] && s[|a| + |m| - 1] == m[|m| - 1];
      assert s[|a'|] == m'[0] && s[|a'| + |m'| - 1] == m'[|m'| - 1];
      SameStart(s, a, a');
      SameEnd(s, |a| + |m|, |a'| + |m'|);
      assert m == s[|a|..|a| + |m|] && m' == s[|a'|..|a'| + |m'|];
    }
  }

  lemma NotBlank(a: string, m: string, b: string)
    requires Bare(m) && m != []
    ensures !Blank(a + m + b)
  {
    assert (a + m + b)[|a|] == m[0];
  }

  lemma SameStart(s: string, a: string, b: string)
    requires |a| < |s| && |b| < |s| && a <= s && b <= s && Blank(a) && Blank(b)
    requires !IsSpace(s[|a|]) && !IsSpace(s[|b|])
    ensures |a| == |b|
  {
    assert forall k :: 0 <= k < |a| ==> s[k] == a[k] && IsSpace(s[k]);
    assert forall k :: 0 <= k < |b| ==> s[k] == b[k] && IsSpace(s[k]);
  }

  lemma SameEnd(s: string, i: nat, j: nat)
    requires 0 < i <= |s| && 0 < j <= |s| && Blank(s[i..]) && Blank(s[j..])
    requires !IsSpace(s[i - 1]) && !IsSpace(s[j - 1])
    ensures i == j
  {
    assert forall k :: i <= k < |s| ==> s[k] == s[i..][k - i] && IsSpace(s[k]);
    assert forall k :: j <= k < |s| ==> s[k] == s[j..][k - j] && IsSpace(s[k]);
  }

  lemma StripKeepsBare(s: string)
    requires Bare(s)
    ensures Strip(s) == s
  {
    StripOf([], s, []);
    assert [] + s + [] == s;
  }
}
