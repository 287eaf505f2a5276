/** The objects of run.py that the heartbeat loop updates in place: one TxnInfo per transaction
    type, held in a dictionary of the ClientController.  A heartbeat runs through the methods of these
    objects and is proved to do to their values what `Recording.Heartbeat` says. */
module BenchmarkController {
  import opened Basics
  import opened TxnRecord
  import Rec = Recording
  import Sorting
  import Window

  class TxnInfo {
    var cur: Counts
    var pre: Counts
    var minInterval: real
    var lastIntervalStart: int
    var midStatus: nat
    var midPre: Counts
    var mid: Counts
    var midTime: real
    var midLatencies: seq<real>
    var midAllLatencies: seq<real>
    var midAttempts: seq<real>
    var midTries: seq<int>
    var midExhausted: nat

    function View(): Txn
      reads this
    {
      Txn(cur, pre, minInterval, lastIntervalStart, midStatus, midPre, mid, midTime,
          midLatencies, midAllLatencies, midAttempts, midTries, midExhausted)
    }

    constructor ()
      ensures View() == NewTxn()
    {
      cur, pre, minInterval, lastIntervalStart, midStatus := ZERO, ZERO, 0.0, 0, 0;
      midPre, mid, midTime := ZERO, ZERO, 0.0;
      midLatencies, midAllLatencies, midAttempts, midTries, midExhausted := [], [], [], [], 0;
    }

    method SetMidStatus()
      modifies this`midStatus
      ensures View() == TxnRecord.SetMidStatus(old(View()))
    {
      midStatus := midStatus + 1;
    }

    method Clear()
      modifies this`cur, this`midExhausted, this`minInterval, this`midPre, this`mid
      ensures View() == TxnRecord.Clear(old(View()))
    {
      cur := ZERO;
      midExhausted := 0;
      minInterval := MAX_LATENCY;
      if midStatus == 0 {
        midPre := ZERO;
      } else if midStatus == 1 {
        mid := ZERO;
      }
    }

    method PushRes(r: Report, period: real)
      modifies this
      ensures View() == TxnRecord.PushRes(old(View()), Push(r, period))
    {
      hide Counts.Plus;
      cur := cur.Plus(r.counts);
      if minInterval > period {
        minInterval := period;
      }
      if midStatus == 0 {
        midPre := midPre.Plus(r.counts);
      } else if midStatus == 1 {
        PushMid(r, period);
      }
    }

    /** The part of push_res for the recording period. */
    method PushMid(r: Report, period: real)
      modifies this`midLatencies, this`midAllLatencies, this`midAttempts, this`midTime, this`midTries, this`mid,
        this`midExhausted
      ensures View() ==
              old(View()).(midLatencies := old(midLatencies) + r.latencies,
                           midAllLatencies := old(midAllLatencies) + (old(midLatencies) + r.latencies),
                           midAttempts := old(midAttempts) + r.attempts, midTime := old(midTime) + period,
                           midTries := old(midTries) + r.nTry, mid := old(mid).Plus(r.counts),
                           midExhausted := old(midExhausted) + r.exhausted)
    {
      hide Counts.Plus;
      midLatencies := midLatencies + r.latencies;
      midAllLatencies := midAllLatencies + midLatencies;
      midAttempts := midAttempts + r.attempts;
      midTime := midTime + period;
      midTries := midTries + r.nTry;
      mid := mid.Plus(r.counts);
      midExhausted := midExhausted + r.exhausted;
    }

    method GetRes() returns (totalRow: Counts, intervalRow: Counts)
      modifies this`lastIntervalStart, this`pre
      ensures View() == TxnRecord.GetRes(old(View()))
      ensures totalRow == old(View()).cur && intervalRow == IntervalRow(old(View()))
    {
      totalRow, intervalRow := cur, cur.Minus(pre);
      lastIntervalStart := cur.start - pre.start;
      pre := cur;
    }

    /** Exhausted retries count as the longest latency. */
    method Pad()
      requires midExhausted > 0 ==> midLatencies != []
      modifies this`midAllLatencies
      ensures midAllLatencies == Padded(old(View()))
    {
      if midExhausted > 0 {
        var m := Max(midLatencies);
        midAllLatencies := midAllLatencies + seq(midExhausted, _ => m);
      }
    }

    method SortLists()
      requires midExhausted > 0 ==> midLatencies != []
      modifies this`midLatencies, this`midAllLatencies, this`midAttempts, this`midTries
      ensures View() == TxnRecord.SortLists(old(View()))
    {
      hide Padded, Sorting.Sort;
      Pad();
      midLatencies := Sorting.Sort(midLatencies, Sorting.RealLeq());
      midAllLatencies := Sorting.Sort(midAllLatencies, Sorting.RealLeq());
      midAttempts := Sorting.Sort(midAttempts, Sorting.RealLeq());
      midTries := Sorting.Sort(midTries, IntLeq());
    }

    /** `result` is Raised when the source raises; the record may then be half updated. */
    method PrintMid(numClients: nat) returns (result: PrintResult)
      modifies this
      ensures result == TxnRecord.PrintMid(old(View()), numClients)
      ensures result.Logged? ==> View() == AfterPrint(old(View()), numClients)
    {
      if numClients == 0 || midTime == 0.0 {
        return Raised;
      }
      if (midExhausted > 0 && midLatencies == []) || (midLatencies != [] && midAttempts == []) {
        return Raised;
      }
      QuotientNonZero(midTime, numClients as real);
      midTime := midTime / numClients as real;
      SortLists();
      assert View() == AfterPrint(old(View()), numClients);
      result := Logged(DataBlock(View()), View());
    }
  }

  // ----- the loops over all records

  ghost function Views(records: seq<TxnInfo>): (r: seq<Txn>)
    reads records
    ensures |r| == |records| && forall i :: 0 <= i < |records| ==> r[i] == records[i].View()
  {
    seq(|records|, i requires 0 <= i < |records| reads records => records[i].View())
  }

  method ClearEach(records: seq<TxnInfo>)
    requires Distinct(records)
    modifies records
    ensures forall i :: 0 <= i < |records| ==> Views(records)[i] == Clear(old(Views(records))[i])
  {
    hide Clear, TxnInfo.View;
    for n := 0 to |records|
      invariant forall i :: 0 <= i < n ==> records[i].View() == Clear(old(records[i].View()))
      invariant forall i :: n <= i < |records| ==> records[i].View() == old(records[i].View())
    {
      records[n].Clear();
    }
  }

  method SetMidStatusEach(records: seq<TxnInfo>)
    requires Distinct(records)
    modifies records
    ensures forall i :: 0 <= i < |records| ==> Views(records)[i] == SetMidStatus(old(Views(records))[i])
  {
    hide SetMidStatus, TxnInfo.View;
    for n := 0 to |records|
      invariant forall i :: 0 <= i < n ==> records[i].View() == SetMidStatus(old(records[i].View()))
      invariant forall i :: n <= i < |records| ==> records[i].View() == old(records[i].View())
    {
      records[n].SetMidStatus();
    }
  }

  /** Prints record after record, up to the first that raises. */
  method PrintEach(records: seq<TxnInfo>, numClients: nat) returns (ok: bool)
    requires Distinct(records)
    modifies records
    ensures ok <==> forall i :: 0 <= i < |records| ==> CanPrint(old(Views(records))[i], numClients)
    ensures ok ==> forall i :: 0 <= i < |records| ==>
      Views(records)[i] == AfterPrint(old(Views(records))[i], numClients)
  {
    hide AfterPrint, CanPrint, DataBlock, TxnInfo.View;
    for n := 0 to |records|
      invariant forall i :: 0 <= i < n ==> CanPrint(old(records[i].View()), numClients)
      invariant forall i :: 0 <= i < n ==> records[i].View() == AfterPrint(old(records[i].View()), numClients)
      invariant forall i :: n <= i < |records| ==> records[i].View() == old(records[i].View())
    {
      var result := records[n].PrintMid(numClients);
      if result.Raised? {
        assert !CanPrint(old(Views(records))[n], numClients);
        return false;
      }
    }
    ok := true;
  }

  method GetResEach(records: seq<TxnInfo>) returns (rows: seq<Counts>)
    requires Distinct(records)
    modifies records
    ensures |rows| == |records| && forall i :: 0 <= i < |rows| ==> rows[i] == IntervalRow(old(Views(records))[i])
    ensures forall i :: 0 <= i < |records| ==> Views(records)[i] == GetRes(old(Views(records))[i])
  {
    hide GetRes, IntervalRow, TxnInfo.View;
    rows := [];
    for n := 0 to |records|
      invariant |rows| == n
      invariant forall i :: 0 <= i < n ==> rows[i] == IntervalRow(old(records[i].View()))
      invariant forall i :: 0 <= i < n ==> records[i].View() == GetRes(old(records[i].View()))
      invariant forall i :: n <= i < |records| ==> records[i].View() == old(records[i].View())
    {
      var totalRow, intervalRow := records[n].GetRes();
      rows := rows + [intervalRow];
    }
  }

  // ----- the dictionary as a value

  /** The rows are the records of the controller c, in the order of its types. */
  ghost predicate RowsOf(c: Rec.Controller, rows: seq<Txn>) {
    && Rec.Keyed(c) && |rows| == |c.types|
    && forall i :: 0 <= i < |rows| ==> c.types[i] in c.infos && rows[i] == c.infos[c.types[i]]
  }

  lemma RowsAre(c: Rec.Controller, rows: seq<Txn>)
    requires RowsOf(c, rows)
    ensures |rows| == |c.types|
    ensures forall i :: 0 <= i < |rows| ==> c.types[i] in c.infos && rows[i] == c.infos[c.types[i]]
  {
  }

  /** The controller after f has been applied to every record. */
  ghost predicate Mapped(c: Rec.Controller, f: Txn -> Txn, c': Rec.Controller) {
    && c'.types == c.types && c'.infos.Keys == c.infos.Keys
    && forall k :: k in c.infos ==> c'.infos[k] == f(c.infos[k])
  }

  lemma ClearMaps(c: Rec.Controller)
    ensures Mapped(c, Clear, Rec.ClearAll(c)) && Rec.ClearAll(c) == c.(infos := Rec.ClearAll(c).infos, cur := ZERO)
  {
    hide Clear;
  }

  lemma RecordingKeepsRows(c: Rec.Controller, rows: seq<Txn>, on: bool)
    requires RowsOf(c, rows)
    ensures RowsOf(c.(recording := on), rows)
  {
  }

  lemma MappedRows(c: Rec.Controller, rows: seq<Txn>, f: Txn -> Txn, c': Rec.Controller, rows': seq<Txn>)
    requires RowsOf(c, rows) && Mapped(c, f, c')
    requires |rows'| == |rows| && forall i :: 0 <= i < |rows| ==> rows'[i] == f(rows[i])
    ensures RowsOf(c', rows')
  {
  }

  function Printer(numClients: nat): Txn -> Txn {
    t => AfterPrint(t, numClients)
  }

  function PrintedAll(c: Rec.Controller): Rec.Controller {
    c.(infos := map k | k in c.infos :: AfterPrint(c.infos[k], c.proxies))
  }

  function MovedAll(c: Rec.Controller): Rec.Controller {
    c.(infos := map k | k in c.infos :: SetMidStatus(c.infos[k]))
  }

  lemma PrintMaps(c: Rec.Controller)
    ensures Mapped(c, Printer(c.proxies), PrintedAll(c)) && PrintedAll(c) == c.(infos := PrintedAll(c).infos)
  {
    hide AfterPrint;
  }

  lemma MoveMaps(c: Rec.Controller)
    ensures Mapped(c, SetMidStatus, MovedAll(c)) && MovedAll(c) == c.(infos := MovedAll(c).infos)
  {
    hide SetMidStatus;
  }

  /** The window opens with a pass of status moves, and closes with a pass of prints and one of those. */
  lemma WindowPasses(c: Rec.Controller, progress: int)
    ensures Window.Opens(c.recording, progress) ==> Rec.MoveWindow(c, progress) == MovedAll(c).(recording := true)
    ensures Window.Closes(c.recording, progress) && Rec.AllPrint(c) ==>
              Rec.MoveWindow(c, progress) == MovedAll(PrintedAll(c)).(recording := false)
  {
    hide AfterPrint, SetMidStatus, Rec.AllPrint;
  }

  lemma ShiftMaps(c: Rec.Controller)
    ensures Mapped(c, GetRes, Rec.Shift(c)) && Rec.Shift(c) == c.(infos := Rec.Shift(c).infos, pre := c.cur)
  {
    hide GetRes;
  }

  lemma AllRowsPrint(c: Rec.Controller, rows: seq<Txn>)
    requires RowsOf(c, rows)
    ensures Rec.AllPrint(c) <==> forall i :: 0 <= i < |rows| ==> CanPrint(rows[i], c.proxies)
  {
    hide CanPrint;
    if forall i :: 0 <= i < |rows| ==> CanPrint(rows[i], c.proxies) {
      forall k | k in c.infos ensures CanPrint(c.infos[k], c.proxies) {
        var i :| 0 <= i < |c.types| && c.types[i] == k;
        assert CanPrint(rows[i], c.proxies);
      }
    }
  }

  lemma RegisterRows(c: Rec.Controller, rows: seq<Txn>, k: Rec.TxnType)
    requires RowsOf(c, rows) && k !in c.infos
    ensures RowsOf(Rec.Register(c, k), rows + [NewTxn()])
  {
    Rec.RegisterKeyed(c, k);
    hide Rec.Keyed, NewTxn;
  }

  lemma PushRows(c: Rec.Controller, rows: seq<Txn>, i: nat, p: Push)
    requires RowsOf(c, rows) && i < |rows|
    ensures var k := c.types[i]; var c' := Rec.PushTxn(c, p.period, k, p.report);
      && c' == c.(infos := c'.infos, cur := c.cur.Plus(p.report.counts))
      && RowsOf(c', rows[i := PushRes(rows[i], p)])
  {
    hide PushRes;
  }

  lemma PushRegisters(c: Rec.Controller, k: Rec.TxnType, p: Push)
    ensures Rec.PushTxn(Rec.Register(c, k), p.period, k, p.report) == Rec.PushTxn(c, p.period, k, p.report)
  {
    hide PushRes, NewTxn;
  }

  /** Each type has its place in the order of the types. */
  ghost predicate Places(types: seq<Rec.TxnType>, place: map<Rec.TxnType, nat>) {
    && (forall i :: 0 <= i < |types| ==> types[i] in place && place[types[i]] == i)
    && (forall k :: k in place ==> place[k] < |types| && types[place[k]] == k)
  }

  // ----- the controller

  /** The txn_infos dictionary is kept as its records in insertion order and the place of each key. */
  class ClientController {
    var types: seq<Rec.TxnType>
    var records: seq<TxnInfo>
    var place: map<Rec.TxnType, nat>
    var cur: Counts
    var pre: Counts
    var recording: bool
    const proxies: nat

    /** The controller as a value. */
    ghost var model: Rec.Controller

    ghost predicate Fields()
      reads this
    {
      && types == model.types && cur == model.cur && pre == model.pre
      && recording == model.recording && proxies == model.proxies
      && |records| == |types| && Places(types, place)
    }

    ghost predicate Valid()
      reads this, records
    {
      Fields() && Distinct(records) && RowsOf(model, Views(records))
    }

    constructor (proxies: nat)
      ensures Valid() && model == Rec.InitialController(proxies) && records == []
    {
      this.proxies := proxies;
      types, records, place, cur, pre, recording := [], [], map[], ZERO, ZERO, false;
      model := Rec.InitialController(proxies);
    }

    method ClearAll()
      requires Valid()
      modifies this`cur, this`model, records
      ensures Valid() && model == Rec.ClearAll(old(model))
    {
      hide RowsOf, Mapped, Views, Clear, Distinct, Rec.ClearAll, Places;
      ClearMaps(model);
      ghost var rows := Views(records);
      ClearEach(records);
      MappedRows(model, rows, Clear, Rec.ClearAll(model), Views(records));
      cur := ZERO;
      model := Rec.ClearAll(model);
    }

    /** A type seen for the first time gets a record of its own. */
    method Register(k: Rec.TxnType)
      requires Valid()
      modifies this`types, this`records, this`place, this`model
      ensures Valid() && model == Rec.Register(old(model), k) && k in place
      ensures old(records) <= records && forall i :: |old(records)| <= i < |records| ==> fresh(records[i])
    {
      hide RowsOf, Rec.Register, Places, NewTxn;
      ghost var rows := Views(records);
      KeyPlaces(model, rows, place, k);
      if k in place {
        return;
      }
      RegisterRows(model, rows, k);
      var info := new TxnInfo();
      records, place := records + [info], place[k := |types|];
      types := types + [k];
      assert Views(records) == rows + [NewTxn()];
      model := Rec.Register(model, k);
    }

    method PushTxn(period: real, k: Rec.TxnType, r: Report)
      requires Valid()
      modifies this`types, this`records, this`place, this`cur, this`model, records
      ensures Valid() && model == Rec.PushTxn(old(model), period, k, r)
      ensures old(records) <= records && forall i :: |old(records)| <= i < |records| ==> fresh(records[i])
    {
      hide RowsOf, PushRes, Rec.Register, Rec.PushTxn, TxnInfo.View;
      Register(k);
      PushRegisters(old(model), k, Push(r, period));
      cur := cur.Plus(r.counts);
      ghost var rows := Views(records);
      PushRows(model, rows, place[k], Push(r, period));
      records[place[k]].PushRes(r, period);
      assert Views(records) == rows[place[k] := PushRes(rows[place[k]], Push(r, period))];
      model := Rec.PushTxn(model, period, k, r);
    }

    method PushReports(reports: seq<Rec.ClientReport>)
      requires Valid()
      modifies this`types, this`records, this`place, this`cur, this`model, records
      ensures Valid() && model == Rec.PushReports(old(model), reports)
      ensures old(records) <= records && forall i :: |old(records)| <= i < |records| ==> fresh(records[i])
    {
      hide Rec.PushTxn, Fields, RowsOf, Distinct, Views;
      for i := 0 to |reports|
        invariant Valid() && model == Rec.PushReports(old(model), reports[..i])
        invariant old(records) <= records && forall i :: |old(records)| <= i < |records| ==> fresh(records[i])
      {
        PushClient(reports[i]);
        assert reports[..i + 1][..i] == reports[..i];
      }
      assert reports[..|reports|] == reports;
    }

    method PushClient(report: Rec.ClientReport)
      requires Valid()
      modifies this`types, this`records, this`place, this`cur, this`model, records
      ensures Valid() && model == Rec.PushClient(old(model), report.period, report.txns)
      ensures old(records) <= records && forall i :: |old(records)| <= i < |records| ==> fresh(records[i])
    {
      hide Rec.PushTxn, Fields, RowsOf, Distinct, Views;
      for j := 0 to |report.txns|
        invariant Valid() && model == Rec.PushClient(old(model), report.period, report.txns[..j])
        invariant old(records) <= records && forall i :: |old(records)| <= i < |records| ==> fresh(records[i])
      {
        PushTxn(report.period, report.txns[j].0, report.txns[j].1);
        assert report.txns[..j + 1][..j] == report.txns[..j];
      }
      assert report.txns[..|report.txns|] == report.txns;
    }

    /** The part of print_stage_result that moves the window; false when a print raises. */
    method MoveWindow(progress: int) returns (ok: bool)
      requires Valid()
      modifies this`recording, this`model, records
      ensures ok <==> (Window.Closes(old(recording), progress) ==> Rec.AllPrint(old(model)))
      ensures ok ==> Valid() && model == Rec.MoveWindow(old(model), progress)
    {
      WindowPasses(model, progress);
      hide RowsOf, Distinct, Views, Places, Rec.AllPrint, Rec.Keyed, MovedAll, PrintedAll;
      ok := true;
      if !recording {
        if progress >= Window.LOWER_CUTOFF && progress <= Window.UPPER_CUTOFF {
          SetMidStatusAll();
          SetRecording(true);
        }
      } else if progress >= Window.UPPER_CUTOFF {
        ok := PrintAll();
        if ok {
          SetMidStatusAll();
          SetRecording(false);
        }
      }
    }

    method SetRecording(on: bool)
      requires Valid()
      modifies this`recording, this`model
      ensures Valid() && model == old(model).(recording := on)
    {
      RecordingKeepsRows(model, Views(records), on);
      hide RowsOf, Places;
      recording := on;
      model := model.(recording := on);
    }

    method SetMidStatusAll()
      requires Valid()
      modifies this`model, records
      ensures Valid() && model == MovedAll(old(model))
    {
      hide RowsOf, Mapped, Views, SetMidStatus, Distinct, MovedAll, Places;
      MoveMaps(model);
      ghost var rows := Views(records);
      SetMidStatusEach(records);
      MappedRows(model, rows, SetMidStatus, MovedAll(model), Views(records));
      model := MovedAll(model);
    }

    method PrintAll() returns (ok: bool)
      requires Valid()
      modifies this`model, records
      ensures ok <==> Rec.AllPrint(old(model))
      ensures ok ==> Valid() && model == PrintedAll(old(model))
    {
      hide RowsOf, Mapped, Views, AfterPrint, CanPrint, Distinct, Rec.AllPrint, PrintedAll, Places;
      PrintMaps(model);
      ghost var rows := Views(records);
      AllRowsPrint(model, rows);
      ok := PrintEach(records, proxies);
      if ok {
        MappedRows(model, rows, Printer(proxies), PrintedAll(model), Views(records));
        model := PrintedAll(model);
      }
    }

    /** The interval rows of all types; the counters move on. */
    method GetResults() returns (rows: seq<Counts>)
      requires Valid()
      modifies this`pre, this`model, records
      ensures Valid() && model == Rec.Shift(old(model)) && |rows| == |types|
      ensures forall i :: 0 <= i < |rows| ==>
                            types[i] in old(model).infos && rows[i] == IntervalRow(old(model).infos[types[i]])
    {
      hide RowsOf, Mapped, Views, GetRes, IntervalRow, Distinct, Rec.Shift, Places;
      ghost var before := Views(records);
      RowsAre(model, before);
      ShiftMaps(model);
      rows := GetResEach(records);
      MappedRows(model, before, GetRes, Rec.Shift(model), Views(records));
      pre := cur;
      model := Rec.Shift(model);
    }

    /** One round of the loop of benchmark_record.  Unless the program stops, it prints the interval
        row of every type and the total row, and moves the records as `Recording.Heartbeat` says. */
    method Heartbeat(b: Rec.Beat) returns (ok: bool, rows: seq<Counts>, total: Counts)
      requires Valid()
      modifies this, records
      ensures ok <==> Rec.Heartbeat(old(model), b).Running?
      ensures ok ==> Valid() && Rec.Heartbeat(old(model), b) == Rec.Running(model)
      ensures ok ==>
        var collected := Rec.Collected(old(model), b);
        && |rows| == |collected.types| == |types|
        && (forall i :: 0 <= i < |rows| ==> rows[i] == IntervalRow(Rec.RecordOf(collected, collected.types[i])))
        && total == collected.cur.Minus(collected.pre)
    {
      hide RowsOf, Distinct, Views, Rec.AllPrint, Rec.PushReports, Rec.ClearAll, Rec.Shift, Rec.MoveWindow, IntervalRow;
      rows, total := [], ZERO;
      if b.reports == [] {
        return false, rows, total;
      }
      ClearAll();
      PushReports(b.reports);
      ghost var collected := model;
      ok := MoveWindow(b.progress);
      if ok && (b.intervalTime == 0.0 || b.totalTime == 0.0) {
        ok := false;
      }
      if ok {
        MovedRows(collected, b.progress);
        total := cur.Minus(pre);
        rows := GetResults();
      }
    }
  }

  /** Moving the window changes no interval row and no total. */
  lemma MovedRows(c: Rec.Controller, progress: int)
    requires Window.Closes(c.recording, progress) ==> Rec.AllPrint(c)
    ensures var d := Rec.MoveWindow(c, progress);
      && d.types == c.types && d.cur == c.cur && d.pre == c.pre && d.infos.Keys == c.infos.Keys
      && forall k :: k in c.infos ==> IntervalRow(d.infos[k]) == IntervalRow(c.infos[k])
  {
  }

  lemma KeyPlaces(c: Rec.Controller, rows: seq<Txn>, place: map<Rec.TxnType, nat>, k: Rec.TxnType)
    requires RowsOf(c, rows) && Places(c.types, place)
    ensures k in place ==> k in c.infos && Rec.Register(c, k) == c
    ensures k !in place ==>
      && k !in c.infos && Places(c.types + [k], place[k := |c.types|])
      && Rec.Register(c, k) == c.(types := c.types + [k], infos := Rec.Register(c, k).infos)
  {
  }
}
