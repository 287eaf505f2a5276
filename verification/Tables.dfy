/** Merging the result tables of repeated trials: per row, the trial with the median throughput. */
module Tables {
  import opened Basics
  import opened Sorting
  import opened TxnRecord

  // ----- the median with zeros taken as missing

  /** Zero entries stand for missing trials and are raised to the maximum. */
  function Lifted(a: seq<real>): (r: seq<real>)
    requires a != []
    ensures |r| == |a|
  {
    seq(|a|, i requires 0 <= i < |a| => if a[i] == 0.0 then Max(a) else a[i])
  }

  function LastIndex(a: seq<real>, v: real): (k: nat)
    ensures a != [] ==> k < |a|
    ensures v in a ==> k < |a| && a[k] == v && forall i :: k < i < |a| ==> a[i] != v
    ensures v !in a ==> k == 0
  {
    if a == [] then 0
    else if a[|a| - 1] == v then |a| - 1
    else
      assert a == a[..|a| - 1] + [a[|a| - 1]];
      LastIndex(a[..|a| - 1], v)
  }

  /** The median throughput and the trial it comes from. */
  function MedianOf(a: seq<real>): (r: (real, nat))
    requires a != []
    ensures r.1 < |a|
  {
    if Max(a) == 0.0 then (0.0, 0)
    else
      var v := Sort(Lifted(a), RealLeq())[|a| / 2];
      (v, LastIndex(a, v))
  }

  lemma LiftedMembers(a: seq<real>, v: real)
    requires a != [] && Max(a) != 0.0 && v in Lifted(a)
    ensures v in a && v != 0.0
  {
  }

  /** The reported index holds the reported median, except exactly when the maximum is zero and the
      first entry is not. */
  lemma MedianIsATrial(a: seq<real>)
    requires a != []
    ensures a[MedianOf(a).1] == MedianOf(a).0 <==> Max(a) != 0.0 || a[0] == 0.0
    ensures (forall i :: 0 <= i < |a| ==> a[i] >= 0.0) ==> a[MedianOf(a).1] == MedianOf(a).0
  {
    if Max(a) != 0.0 {
      var s := Sort(Lifted(a), RealLeq());
      var v := s[|a| / 2];
      SortMembers(Lifted(a), RealLeq());
      LiftedMembers(a, v);
    } else {
      assert a[0] in a;
    }
  }

  /** A list where it fails: the maximum is 0 and the first entry is not. */
  lemma MedianNotATrial(a: seq<real>)
    requires a == [-1.0, 0.0]
    ensures MedianOf(a) == (0.0, 0) && a[MedianOf(a).1] != MedianOf(a).0
  {
    assert a[0] in a && a[1] in a;
  }

  /** The median is the least value with more than half of the lifted entries at or below it. */
  lemma MedianRank(a: seq<real>, w: real)
    requires a != [] && Max(a) != 0.0
    ensures AtMost(Lifted(a), MedianOf(a).0) > |a| / 2
    ensures w < MedianOf(a).0 ==> AtMost(Lifted(a), w) <= |a| / 2
  {
    var s := Sort(Lifted(a), RealLeq());
    var v := s[|a| / 2];
    RealsAreOrdered();
    SortSorted(Lifted(a), RealLeq());
    AtMostSort(Lifted(a), v);
    AtMostSort(Lifted(a), w);
    var k := AtMostSplits(s, v);
    var m := AtMostSplits(s, w);
  }

  lemma RealsAreOrdered()
    ensures TotalOrder(RealLeq())
  {
  }

  // ----- median, on the caller's list

  method FillZeros(a: array<real>, m: real)
    modifies a
    ensures forall i :: 0 <= i < a.Length ==> a[i] == if old(a[i]) == 0.0 then m else old(a[i])
  {
    for i := 0 to a.Length
      invariant forall k :: i <= k < a.Length ==> a[k] == old(a[k])
      invariant forall k :: 0 <= k < i ==> a[k] == if old(a[k]) == 0.0 then m else old(a[k])
    {
      if a[i] == 0.0 {
        a[i] := m;
      }
    }
  }

  method Restore(a: array<real>, copy: seq<real>)
    requires |copy| == a.Length
    modifies a
    ensures a[..] == copy
  {
    for i := 0 to a.Length
      invariant a[..i] == copy[..i]
    {
      a[i] := copy[i];
    }
  }

  method FindLast(copy: seq<real>, v: real) returns (k: nat)
    ensures k == LastIndex(copy, v)
  {
    k := 0;
    for i := 0 to |copy|
      invariant k == LastIndex(copy[..i], v)
    {
      assert copy[..i + 1][..i] == copy[..i];
      if copy[i] == v {
        k := i;
      }
    }
    assert copy[..|copy|] == copy;
  }

  /** Overwrites the list, reads the median off it, and puts the list back as it was.  An empty list
      makes the maximum fail. */
  method Median(a: array<real>) returns (r: Option<(real, nat)>)
    modifies a
    ensures a[..] == old(a[..])
    ensures r == if a.Length == 0 then None else Some(MedianOf(old(a[..])))
  {
    if a.Length == 0 {
      return None;
    }
    var copy := a[..];
    var m := Max(copy);
    if m == 0.0 {
      return Some((0.0, 0));
    }
    FillZeros(a, m);
    assert a[..] == Lifted(copy);
    var v := Sort(a[..], RealLeq())[a.Length / 2];
    var k := FindLast(copy, v);
    Restore(a, copy);
    return Some((v, k));
  }

  /** The median of a list the caller has just collected. */
  method MedianIn(s: seq<real>) returns (v: real, k: nat)
    requires s != []
    ensures (v, k) == MedianOf(s)
  {
    var list := new real[|s|](i requires 0 <= i < |s| => s[i]);
    assert list[..] == s;
    var m := Median(list);
    v, k := m.value.0, m.value.1;
  }

  // ----- the spread

  function Sum(a: seq<real>): real {
    if a == [] then 0.0 else Sum(a[..|a| - 1]) + a[|a| - 1]
  }

  function Square(d: real): real { d * d }

  function Squares(a: seq<real>, mean: real): (r: seq<real>)
    ensures |r| == |a|
  {
    seq(|a|, i requires 0 <= i < |a| => Square(a[i] - mean))
  }

  function Mean(a: seq<real>): real
    requires a != []
  {
    Sum(a) / |a| as real
  }

  function Variance(a: seq<real>): real
    requires a != []
  {
    Sum(Squares(a, Mean(a))) / |a| as real
  }

  /** The standard deviation, with the square root as a parameter. */
  function Deviation(a: seq<real>, root: real -> real): real
    requires a != []
  {
    if Max(a) == 0.0 then 0.0 else root(Variance(a))
  }

  lemma SquaresSnoc(a: seq<real>, x: real)
    requires a != []
    ensures Sum(Squares(a, x)) == Sum(Squares(a[..|a| - 1], x)) + Square(a[|a| - 1] - x)
  {
    hide Square;
    assert Squares(a, x)[..|a| - 1] == Squares(a[..|a| - 1], x);
  }

  lemma NoSquares(x: real)
    ensures Sum(Squares([], x)) == 0.0
  {
  }

  lemma Distribute(p: real, a: real, b: real)
    ensures p * (a + b) == p * a + p * b
  {
  }

  function Line(p: real, q: real, sum: real, count: real): real { p * sum + q * count }

  lemma LineStep(p: real, q: real, sum: real, count: real, e: real, sum': real, count': real)
    requires sum' == sum + e && count' == count + 1.0
    ensures Line(p, q, sum', count') == Line(p, q, sum, count) + p * e + q
  {
    Distribute(p, sum, e);
    Distribute(q, count, 1.0);
  }

  lemma LineFromZero(p: real, q: real)
    ensures Line(p, q, 0.0, 0.0) == 0.0
  {
  }

  /** Moving the point from y to x changes the squared distance of an entry e by p * e + q. */
  ghost predicate Shifted(x: real, y: real, p: real, q: real) {
    p == 2.0 * (y - x) && q == Square(x) - Square(y)
  }

  lemma OneSquare(e: real, x: real, y: real, p: real, q: real)
    requires Shifted(x, y, p, q)
    ensures Square(e - x) == Square(e - y) + p * e + q
  {
    assert (e - x) * (e - x) == e * e - 2.0 * x * e + x * x;
    assert (e - y) * (e - y) == e * e - 2.0 * y * e + y * y;
    assert 2.0 * (y - x) * e == 2.0 * y * e - 2.0 * x * e;
  }

  /** The squared distances from x in terms of those from y. */
  lemma {:induction false} SquaresExpand(a: seq<real>, x: real, y: real, p: real, q: real)
    requires Shifted(x, y, p, q)
    ensures Sum(Squares(a, x)) == Sum(Squares(a, y)) + Line(p, q, Sum(a), |a| as real)
  {
    hide Square, Squares, Shifted, Line;
    if a == [] {
      NoSquares(x);
      NoSquares(y);
      LineFromZero(p, q);
    } else {
      var rest, e := a[..|a| - 1], a[|a| - 1];
      SquaresExpand(rest, x, y, p, q);
      SquaresSnoc(a, x);
      SquaresSnoc(a, y);
      OneSquare(e, x, y, p, q);
      LineStep(p, q, Sum(rest), |rest| as real, e, Sum(a), |a| as real);
    }
  }

  lemma CompleteSquare(m: real, x: real)
    ensures 2.0 * (m - x) * m + (Square(x) - Square(m)) == Square(x - m)
  {
    assert (x - m) * (x - m) == x * x - 2.0 * x * m + m * m;
    assert 2.0 * (m - x) * m == 2.0 * m * m - 2.0 * x * m;
  }

  lemma Divide(a: real, n: real)
    requires n > 0.0
    ensures a / n * n == a && (a >= 0.0 ==> a / n >= 0.0)
  {
  }

  lemma Cancel(a: real, b: real, n: real)
    requires n > 0.0 && a * n == b * n
    ensures a == b
  {
  }

  /** The mean squared distance of the entries from any point is the variance plus the squared distance
      of that point from the mean: the variance is the least of these, taken at the mean only. */
  lemma VarianceIsLeast(a: seq<real>, x: real)
    requires a != []
    ensures Sum(Squares(a, x)) / |a| as real == Variance(a) + Square(x - Mean(a))
    ensures Variance(a) >= 0.0
  {
    hide Sum, Squares, Square;
    var m, n := Mean(a), |a| as real;
    var p, q := 2.0 * (m - x), Square(x) - Square(m);
    SquaresExpand(a, x, m, p, q);
    SquaresNotNegative(a, m);
    CompleteSquare(m, x);
    var near, far := Sum(Squares(a, m)), Sum(Squares(a, x));
    Divide(Sum(a), n);
    Divide(near, n);
    Divide(far, n);
    LeastArithmetic(far, near, p, q, m, n, Square(x - m));
    Cancel(far / n, near / n + Square(x - m), n);
  }

  lemma LeastArithmetic(far: real, near: real, p: real, q: real, m: real, n: real, d: real)
    requires n > 0.0 && far == near + p * (m * n) + q * n && p * m + q == d && near / n * n == near
    ensures far == (near / n + d) * n
  {
    assert p * (m * n) == p * m * n;
    assert (p * m + q) * n == p * m * n + q * n;
    assert (near / n + d) * n == near / n * n + d * n;
  }

  lemma PositiveSquare(d: real)
    requires d > 0.0
    ensures Square(d) > 0.0
  {
    var r := Square(d) / d;
    assert r * d == d * d;
    assert r == d;
  }

  lemma SquareIsEven(d: real)
    ensures Square(d) == Square(-d) && Square(0.0) == 0.0
  {
  }

  lemma SquareNotNegative(d: real)
    ensures Square(d) >= 0.0 && (Square(d) == 0.0 <==> d == 0.0)
  {
    hide Square;
    SquareIsEven(d);
    if d > 0.0 {
      PositiveSquare(d);
    } else if d < 0.0 {
      PositiveSquare(-d);
    }
  }

  /** A sum of squares is zero only if every distance is. */
  lemma {:induction false} SquaresNotNegative(a: seq<real>, x: real)
    ensures Sum(Squares(a, x)) >= 0.0
    ensures Sum(Squares(a, x)) == 0.0 <==> forall i :: 0 <= i < |a| ==> a[i] == x
  {
    hide Square, Squares;
    if a == [] {
      NoSquares(x);
    } else {
      var rest, e := a[..|a| - 1], a[|a| - 1];
      SquaresNotNegative(rest, x);
      SquaresSnoc(a, x);
      SquareNotNegative(e - x);
      assert a == rest + [e];
    }
  }

  /** No spread means that all entries are equal. */
  lemma NoVariance(a: seq<real>)
    requires a != []
    ensures Variance(a) == 0.0 <==> forall i, j :: 0 <= i < j < |a| ==> a[i] == a[j]
  {
    hide Sum, Squares, Square;
    var m, n := Mean(a), |a| as real;
    SquaresNotNegative(a, m);
    SquaresNotNegative(a, a[0]);
    VarianceIsLeast(a, a[0]);
    SquareNotNegative(a[0] - m);
    Divide(Sum(Squares(a, m)), n);
    Divide(Sum(Squares(a, a[0])), n);
  }

  // ----- the tables

  /** A latency distribution, by percentile. */
  type Latencies = map<string, real>

  datatype RowValue = RowValue(conc: int, p50: real, tps: real, p99: real, all: Latencies, dev: real)

  class Row {
    var conc: int
    var p50: real
    var tps: real
    var p99: real
    var all: Latencies
    var dev: real

    constructor (v: RowValue)
      ensures View() == v
    {
      conc, p50, tps, p99, all, dev := v.conc, v.p50, v.tps, v.p99, v.all, v.dev;
    }

    function View(): RowValue
      reads this
    {
      RowValue(conc, p50, tps, p99, all, dev)
    }
  }

  function Throughputs(column: seq<RowValue>): (r: seq<real>)
    ensures |r| == |column|
  {
    seq(|column|, j requires 0 <= j < |column| => column[j].tps)
  }

  /** The merged row over the rows of all trials, the first trial first. */
  function MergedRow(column: seq<RowValue>, root: real -> real): RowValue
    requires column != []
  {
    var tps := Throughputs(column);
    var (v, k) := MedianOf(tps);
    RowValue(column[0].conc, column[k].p50, v, column[k].p99, column[k].all, Deviation(tps, root))
  }

  /** All latency fields of a merged row come from one trial, and that trial's throughput is the
      reported median, except when the maximum is zero and the first throughput is not. */
  lemma MergedFromOneTrial(column: seq<RowValue>, root: real -> real) returns (k: nat)
    requires column != []
    ensures k < |column|
    ensures var r := MergedRow(column, root);
      && r.conc == column[0].conc && r.p50 == column[k].p50 && r.p99 == column[k].p99 && r.all == column[k].all
      && (r.tps == column[k].tps <==> Max(Throughputs(column)) != 0.0 || column[0].tps == 0.0)
      && ((forall j :: 0 <= j < |column| ==> column[j].tps >= 0.0) ==> r.tps == column[k].tps)
      && r.dev == if Max(Throughputs(column)) == 0.0 then 0.0 else root(Variance(Throughputs(column)))
  {
    var tps := Throughputs(column);
    k := MedianOf(tps).1;
    MedianIsATrial(tps);
  }

  /** Row i exists in every trial. */
  ghost predicate Present(trials: seq<seq<Row>>, i: nat) {
    forall j :: 0 <= j < |trials| ==> i < |trials[j]|
  }

  /** The rows of the first trial, which become the result, are different objects from one another
      and from the rows of the other trials. */
  ghost predicate Unshared(trials: seq<seq<Row>>)
    requires trials != []
  {
    && (forall i, k :: 0 <= i < k < |trials[0]| ==> trials[0][i] != trials[0][k])
    && (forall j, i, k :: 1 <= j < |trials| && 0 <= i < |trials[j]| && 0 <= k < |trials[0]| ==>
                            trials[j][i] != trials[0][k])
  }

  /** Row i of every trial. */
  ghost function Column(trials: seq<seq<Row>>, i: nat): (r: seq<RowValue>)
    requires Present(trials, i)
    reads set j | 0 <= j < |trials| :: trials[j][i]
    ensures |r| == |trials| && forall j :: 0 <= j < |trials| ==> r[j] == trials[j][i].View()
  {
    var rows := set j | 0 <= j < |trials| :: trials[j][i];
    seq(|trials|, j requires 0 <= j < |trials| reads rows => trials[j][i].View())
  }

  /** One pass of the merging loop, on the list of rows that is also the first trial.  A trial without
      row i makes it fail before anything is written. */
  method MergeOne(trials: seq<seq<Row>>, i: nat, root: real -> real) returns (ok: bool)
    requires trials != [] && i < |trials[0]|
    modifies trials[0][i]
    ensures ok <==> Present(trials, i)
    ensures trials[0][i].View() == if ok then MergedRow(old(Column(trials, i)), root) else old(trials[0][i].View())
  {
    hide MedianOf, Deviation;
    var p50, tps, p99, all := [], [], [], [];
    for j := 0 to |trials|
      invariant |p50| == |tps| == |p99| == |all| == j
      invariant forall k :: 0 <= k < j ==> i < |trials[k]|
      invariant forall k :: 0 <= k < j ==> p50[k] == trials[k][i].p50 && p99[k] == trials[k][i].p99
      invariant forall k :: 0 <= k < j ==> tps[k] == trials[k][i].tps && all[k] == trials[k][i].all
      modifies {}
    {
      if i >= |trials[j]| {
        return false;
      }
      p50 := p50 + [trials[j][i].p50];
      tps := tps + [trials[j][i].tps];
      p99 := p99 + [trials[j][i].p99];
      all := all + [trials[j][i].all];
    }
    ghost var column := Column(trials, i);
    assert tps == Throughputs(column);
    var v, k := MedianIn(tps);
    ok := true;
    var row := trials[0][i];
    row.tps := v;
    row.p50 := p50[k];
    row.p99 := p99[k];
    row.all := all[k];
    row.dev := Deviation(tps, root);
  }

  lemma RowsEnd(trials: seq<seq<Row>>, i: nat, k: nat)
    requires i <= k && !Present(trials, i)
    ensures !Present(trials, k)
  {
  }

  lemma RowsPresent(trials: seq<seq<Row>>, i: nat)
    requires Present(trials, i)
    ensures forall j :: 0 <= j < |trials| ==> i < |trials[j]|
  {
  }

  /** Although the result is the first trial's own list, updated while it is still being read, every
      row that all trials have becomes the merge of the rows as they were, and nothing else changes.
      The first row some trial lacks ends the merge with an error. */
  method Merge(trials: seq<seq<Row>>, root: real -> real) returns (r: Option<seq<Row>>)
    requires trials != [] && Unshared(trials)
    modifies trials[0]
    ensures r == if forall i :: 0 <= i < |trials[0]| ==> Present(trials, i) then Some(trials[0]) else None
    ensures forall i :: 0 <= i < |trials[0]| && Present(trials, i) ==>
                          trials[0][i].View() == MergedRow(old(Column(trials, i)), root)
    ensures forall i :: 0 <= i < |trials[0]| && !Present(trials, i) ==> trials[0][i].View() == old(trials[0][i].View())
    ensures forall j, i :: 1 <= j < |trials| && 0 <= i < |trials[j]| ==>
                             trials[j][i].View() == old(trials[j][i].View())
  {
    hide MergedRow, Column, Row.View, Present;
    var data := trials[0];
    for i := 0 to |data|
      invariant forall k :: 0 <= k < i ==>
        Present(trials, k) && data[k].View() == MergedRow(old(Column(trials, k)), root)
      invariant forall k :: i <= k < |data| ==> data[k].View() == old(data[k].View())
      invariant forall j, k :: 1 <= j < |trials| && 0 <= k < |trials[j]| ==>
                                 trials[j][k].View() == old(trials[j][k].View())
    {
      if Present(trials, i) {
        RowsPresent(trials, i);
        assert Column(trials, i) == old(Column(trials, i));
      }
      var ok := MergeOne(trials, i, root);
      if !ok {
        forall k | i <= k < |data| ensures !Present(trials, k) {
          RowsEnd(trials, i, k);
        }
        return None;
      }
    }
    return Some(data);
  }
}
