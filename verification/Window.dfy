/** The recording window of print_stage_result, driven by the progress (in percent) of successive
    heartbeats. */
module Window {

  const LOWER_CUTOFF := 10
  const UPPER_CUTOFF := 90

  predicate Opens(recording: bool, progress: int) {
    !recording && LOWER_CUTOFF <= progress <= UPPER_CUTOFF
  }

  predicate Closes(recording: bool, progress: int) {
    recording && progress >= UPPER_CUTOFF
  }

  /** Whether the window is open after a heartbeat. */
  function After(recording: bool, progress: int): bool {
    if Opens(recording, progress) then true
    else if Closes(recording, progress) then false
    else recording
  }

  function Recording(ps: seq<int>): bool {
    if ps == [] then false else After(Recording(ps[..|ps| - 1]), ps[|ps| - 1])
  }

  function Openings(ps: seq<int>): nat {
    if ps == [] then 0
    else Openings(ps[..|ps| - 1]) + if Opens(Recording(ps[..|ps| - 1]), ps[|ps| - 1]) then 1 else 0
  }

  function Closings(ps: seq<int>): nat {
    if ps == [] then 0
    else Closings(ps[..|ps| - 1]) + if Closes(Recording(ps[..|ps| - 1]), ps[|ps| - 1]) then 1 else 0
  }

  /** An open window stays open below 90 percent; a closed one opens from 10 to 90 percent. */
  lemma RecordingStep(ps: seq<int>, p: int)
    ensures Recording(ps + [p]) <==> if Recording(ps) then p < 90 else 10 <= p <= 90
  {
    assert (ps + [p])[..|ps|] == ps;
  }

  // ----- the number of windows, from the progress values alone

  ghost predicate NonDecreasing(ps: seq<int>) {
    forall i, j :: 0 <= i < j < |ps| ==> ps[i] <= ps[j]
  }

  /** Some heartbeat falls inside the window before its last percent. */
  predicate HasEarly(ps: seq<int>) {
    exists i :: 0 <= i < |ps| && LOWER_CUTOFF <= ps[i] < UPPER_CUTOFF
  }

  function CountAt(ps: seq<int>, p: int): nat {
    if ps == [] then 0 else CountAt(ps[..|ps| - 1], p) + if ps[|ps| - 1] == p then 1 else 0
  }

  /** Heartbeats at exactly 90 percent open and close in turn; an earlier one has already opened. */
  function WindowCount(early: bool, atUpper: nat): nat {
    if early then 1 + atUpper / 2 else (atUpper + 1) / 2
  }

  lemma EarlySplits(ps: seq<int>)
    requires ps != []
    ensures HasEarly(ps) <==> HasEarly(ps[..|ps| - 1]) || LOWER_CUTOFF <= ps[|ps| - 1] < UPPER_CUTOFF
  {
    var rest := ps[..|ps| - 1];
    if HasEarly(rest) {
      var i :| 0 <= i < |rest| && LOWER_CUTOFF <= rest[i] < UPPER_CUTOFF;
      assert ps[i] == rest[i];
    }
    if HasEarly(ps) {
      var i :| 0 <= i < |ps| && LOWER_CUTOFF <= ps[i] < UPPER_CUTOFF;
      assert i < |rest| ==> rest[i] == ps[i];
    }
  }

  /** Below 90 percent nothing has been counted, and the window is open once 10 percent is reached. */
  lemma {:induction false} BelowUpper(ps: seq<int>)
    requires NonDecreasing(ps) && (ps != [] ==> ps[|ps| - 1] < UPPER_CUTOFF)
    ensures CountAt(ps, UPPER_CUTOFF) == 0 && Closings(ps) == 0
    ensures HasEarly(ps) <==> Recording(ps)
    ensures Recording(ps) <==> ps != [] && ps[|ps| - 1] >= LOWER_CUTOFF
    ensures Openings(ps) == if Recording(ps) then 1 else 0
  {
    if ps != [] {
      assert |ps| >= 2 ==> ps[|ps| - 2] <= ps[|ps| - 1];
      BelowUpper(ps[..|ps| - 1]);
      EarlySplits(ps);
    }
  }

  predicate OpenAtUpper(early: bool, atUpper: nat) {
    if early then atUpper % 2 == 0 else atUpper % 2 == 1
  }

  /** One more heartbeat at 90 percent flips the window. */
  lemma OneMoreAtUpper(early: bool, n: nat)
    ensures OpenAtUpper(early, n + 1) == !OpenAtUpper(early, n)
    ensures WindowCount(early, n + 1) == WindowCount(early, n) + if OpenAtUpper(early, n) then 0 else 1
  {
  }

  /** For every non-decreasing progress the number of windows, and whether one is still open. */
  lemma {:induction false} WindowsClosedForm(ps: seq<int>)
    requires NonDecreasing(ps)
    ensures Openings(ps) == WindowCount(HasEarly(ps), CountAt(ps, UPPER_CUTOFF))
    ensures Openings(ps) == Closings(ps) + if Recording(ps) then 1 else 0
    ensures Recording(ps) <==>
      ps != [] && ps[|ps| - 1] <= UPPER_CUTOFF && OpenAtUpper(HasEarly(ps), CountAt(ps, UPPER_CUTOFF))
  {
    if ps == [] || ps[|ps| - 1] < UPPER_CUTOFF {
      BelowUpper(ps);
    } else {
      var rest := ps[..|ps| - 1];
      assert rest != [] ==> rest[|rest| - 1] <= ps[|ps| - 1];
      WindowsClosedForm(rest);
      EarlySplits(ps);
      OneMoreAtUpper(HasEarly(rest), CountAt(rest, UPPER_CUTOFF));
    }
  }

  /** Exactly when the window opens at most once: one heartbeat at 90 percent is harmless, a second
      one is only if no earlier heartbeat opened the window. */
  lemma OpensAtMostOnce(ps: seq<int>)
    requires NonDecreasing(ps)
    ensures Openings(ps) <= 1 <==> CountAt(ps, UPPER_CUTOFF) <= if HasEarly(ps) then 1 else 2
  {
    WindowsClosedForm(ps);
  }

  /** With an earlier heartbeat, two at 90 percent open the window twice. */
  lemma OpensTwice(ps: seq<int>)
    requires ps == [50, 90, 90]
    ensures NonDecreasing(ps) && Openings(ps) == 2 && Recording(ps)
  {
    var two := ps[..2];
    assert two[..1] == [50] && [50][..0] == [];
    assert Openings([50]) == 1 && Recording([50]);
    assert Openings(two) == 1 && !Recording(two);
  }
}
