/** The two processes of ServerController: the parent (setup_heartbeat) waits on a condition
    variable until the child (server_heart_beat) reports that the servers are up, runs the
    clients, and tells the child to stop.  They share one lock and one value.  Every statement
    that takes or releases the lock, reads or writes the value, waits or notifies is one step;
    the scheduler picks any enabled one.  An exception can reach the child before any of its
    statements; the lock is re-entrant, so the handler can take it again, and a process that ends
    does not release it. */
module Handshake {

  datatype Owner = Free | Parent | Child

  datatype ParentPc =
    | PAcquire                    // before the first acquire
    | PCheck                      // has the lock, tests the value
    | PWaiting(notified: bool)    // inside cond.wait, without the lock
    | PRelease                    // has the lock, saw a value that is neither 0 nor 5
    | PRun                        // inside client_run
    | PAcquireAgain
    | PReset                      // has the lock, about to store 0
    | PReleaseAgain
    | PJoin                       // waits for the child to end
    | PDone
    | PRaised                     // "server init failed": ended without releasing the lock
    | PFailed                     // client_run raised; the exit still waits for the child

  datatype ChildPc =
    | CProbe(ready: nat)          // that many sites have answered "ready"
    | CAcquire
    | CSet                        // has the lock, about to store 1
    | CNotify
    | CRelease
    | CLoop                       // top of the heartbeat loop, before acquire
    | CTest                       // has the lock
    | CReleaseStay
    | CSleep
    | CReleaseExit                // saw 0, leaves the loop
    | CReport
    | CExcept                     // in the handler, before acquire
    | CSetFailed                  // has the lock, about to store 5
    | CNotifyFailed
    | CReleaseFailed
    | CDone

  datatype State = State(
    sites: nat,
    lock: Owner,
    depth: nat,                   // how many times over the child holds the lock
    value: int,
    parent: ParentPc,
    child: ChildPc,
    sawAllReady: bool,            // the child has seen every server site ready
    clientsStarted: bool,
    clientsReturned: bool,
    leftByZero: bool)             // the child has left its loop because the value was 0

  predicate Init(s: State) {
    s == State(s.sites, Free, 0, 0, PAcquire, CProbe(0), false, false, false, false)
  }

  datatype Step = ParentStep | ClientsRaise | ChildStep | ChildRaises

  predicate InHandler(c: ChildPc) {
    c.CExcept? || c.CSetFailed? || c.CNotifyFailed? || c.CReleaseFailed?
  }

  predicate Enabled(s: State, step: Step) {
    match step
    case ParentStep =>
      (match s.parent
       case PAcquire => s.lock.Free?
       case PWaiting(notified) => notified && s.lock.Free?
       case PAcquireAgain => s.lock.Free?
       case PJoin => s.child.CDone?
       case PDone => false
       case PRaised => false
       case PFailed => false
       case _ => true)
    case ClientsRaise => s.parent.PRun?
    case ChildStep =>
      (match s.child
       case CAcquire => s.lock.Free?
       case CLoop => s.lock.Free?
       case CExcept => !s.lock.Parent?
       case CDone => false
       case _ => true)
    case ChildRaises => !s.child.CDone?
  }

  function ParentMoves(s: State): State {
    match s.parent
    case PAcquire => s.(lock := Parent, parent := PCheck)
    case PCheck =>
      if s.value == 0 then s.(lock := Free, parent := PWaiting(false))
      else if s.value == 5 then s.(parent := PRaised)
      else s.(parent := PRelease)
    case PWaiting(_) => s.(lock := Parent, parent := PCheck)
    case PRelease => s.(lock := Free, parent := PRun, clientsStarted := true)
    case PRun => s.(parent := PAcquireAgain, clientsReturned := true)
    case PAcquireAgain => s.(lock := Parent, parent := PReset)
    case PReset => s.(value := 0, parent := PReleaseAgain)
    case PReleaseAgain => s.(lock := Free, parent := PJoin)
    case PJoin => s.(parent := PDone)
    case _ => s
  }

  /** notify wakes the parent only if it is waiting at that moment. */
  function Notified(p: ParentPc): ParentPc {
    if p.PWaiting? then PWaiting(true) else p
  }

  function ChildAcquires(s: State): State {
    s.(lock := Child, depth := s.depth + 1)
  }

  function ChildReleases(s: State): State {
    if s.depth <= 1 then s.(lock := Free, depth := 0) else s.(depth := s.depth - 1)
  }

  function ChildMoves(s: State): State {
    match s.child
    case CProbe(ready) =>
      if ready < s.sites then s.(child := CProbe(ready + 1)) else s.(child := CAcquire, sawAllReady := true)
    case CAcquire => ChildAcquires(s).(child := CSet)
    case CSet => s.(value := 1, child := CNotify)
    case CNotify => s.(parent := Notified(s.parent), child := CRelease)
    case CRelease => ChildReleases(s).(child := CLoop)
    case CLoop => ChildAcquires(s).(child := CTest)
    case CTest => if s.value == 0 then s.(child := CReleaseExit, leftByZero := true) else s.(child := CReleaseStay)
    case CReleaseStay => ChildReleases(s).(child := CSleep)
    case CSleep => s.(child := CLoop)
    case CReleaseExit => ChildReleases(s).(child := CReport)
    case CReport => s.(child := CDone)
    case CExcept => ChildAcquires(s).(child := CSetFailed)
    case CSetFailed => s.(value := 5, child := CNotifyFailed)
    case CNotifyFailed => s.(parent := Notified(s.parent), child := CReleaseFailed)
    case CReleaseFailed => ChildReleases(s).(child := CDone)
    case CDone => s
  }

  /** An exception inside the try leads to the handler; one inside the handler ends the process. */
  function ChildRaised(s: State): State {
    s.(child := if InHandler(s.child) then CDone else CExcept)
  }

  function Perform(s: State, step: Step): State
    requires Enabled(s, step)
  {
    match step
    case ParentStep => ParentMoves(s)
    case ClientsRaise => s.(parent := PFailed)
    case ChildStep => ChildMoves(s)
    case ChildRaises => ChildRaised(s)
  }

  ghost predicate Next(s: State, s': State) {
    exists step :: Enabled(s, step) && Perform(s, step) == s'
  }

  ghost predicate IsRun(run: seq<State>) {
    && |run| > 0
    && Init(run[0])
    && forall i :: 0 < i < |run| ==> Next(run[i - 1], run[i])
  }

  // ----- what every reachable state satisfies

  predicate ParentHolds(p: ParentPc) {
    p.PCheck? || p.PRelease? || p.PReset? || p.PReleaseAgain? || p.PRaised?
  }

  predicate ChildHolds(c: ChildPc) {
    || c.CSet? || c.CNotify? || c.CRelease? || c.CTest? || c.CReleaseStay? || c.CReleaseExit?
    || c.CSetFailed? || c.CNotifyFailed? || c.CReleaseFailed?
  }

  /** The child has stored nothing yet. */
  predicate Silent(c: ChildPc) {
    c.CProbe? || c.CAcquire? || c.CSet? || c.CExcept? || c.CSetFailed?
  }

  /** The child has stored 1 or 5 but not called notify. */
  predicate AboutToNotify(c: ChildPc) {
    c.CNotify? || c.CNotifyFailed?
  }

  /** Between its two notifications, or after its last. */
  predicate InLoop(c: ChildPc) {
    c.CRelease? || c.CLoop? || c.CTest? || c.CReleaseStay? || c.CSleep? || c.CReleaseExit? || c.CReport?
  }

  predicate BeforeRun(p: ParentPc) {
    p.PAcquire? || p.PCheck? || p.PWaiting? || p.PRelease? || p.PRaised?
  }

  predicate AfterReset(p: ParentPc) {
    p.PReleaseAgain? || p.PJoin? || p.PDone?
  }

  /** The parent has still to take the lock. */
  predicate NeedsLock(p: ParentPc) {
    p.PAcquire? || p.PWaiting? || p.PRun? || p.PAcquireAgain?
  }

  /** The child holds the lock once more than it is going to release it. */
  predicate Leaked(s: State) {
    s.depth > if ChildHolds(s.child) then 1 else 0
  }

  /** The parent waits for a lock that is never released, or for a child that has ended unheard. */
  predicate Doomed(s: State) {
    (Leaked(s) && NeedsLock(s.parent)) || (s.value == 0 && s.child.CDone? && BeforeRun(s.parent))
  }

  predicate Inv(s: State) {
    && (s.lock.Parent? <==> ParentHolds(s.parent))
    && (s.lock.Child? <==> s.depth > 0)
    && (ChildHolds(s.child) ==> s.depth > 0)
    && (Leaked(s) ==> s.child.CDone? || InHandler(s.child))
    && s.value in {0, 1, 5}
    && (s.child.CProbe? ==> s.child.ready <= s.sites)
    // who has seen what
    && (s.value == 1 || s.child.CAcquire? || s.child.CSet? || s.child.CNotify? || InLoop(s.child) ==> s.sawAllReady)
    && (s.clientsStarted <==> !BeforeRun(s.parent))
    && (s.clientsReturned ==> s.clientsStarted)
    && (s.clientsReturned <==> s.parent.PAcquireAgain? || s.parent.PReset? || AfterReset(s.parent))
    && (s.clientsStarted || s.parent.PRelease? ==> s.sawAllReady)
    && (s.leftByZero ==> s.clientsReturned)
    && (s.child.CReleaseExit? || s.child.CReport? ==> s.leftByZero)
    // what the value can be
    && (s.child.CProbe? || s.child.CAcquire? || s.child.CSet? ==> s.value == 0 && BeforeRun(s.parent))
    && (s.child.CNotify? ==> s.value == 1)
    && (s.child.CNotifyFailed? ==> s.value == 5)
    && (s.child.CReleaseFailed? ==> s.value == 5)
    && (s.value == 5 ==> s.child.CNotifyFailed? || s.child.CReleaseFailed? || s.child.CDone?)
    && (s.parent.PRelease? ==> s.value == 1)
    && (s.value == 0 ==> BeforeRun(s.parent) || AfterReset(s.parent))
    && (s.value == 0 && !Silent(s.child) && !s.child.CDone? ==> AfterReset(s.parent))
    && (AfterReset(s.parent) && !s.child.CDone? && s.value != 0 ==> s.child.CNotifyFailed? || s.child.CReleaseFailed?)
    // wakeups
    && (s.parent == PWaiting(false) ==> (s.value == 0 && Silent(s.child)) || AboutToNotify(s.child) || Doomed(s))
    && (s.parent == PWaiting(true) ==> s.value != 0)
    && (s.parent.PRaised? ==> s.value == 5 && s.child.CDone?)
  }

  lemma InitHolds(s: State)
    requires Init(s)
    ensures Inv(s)
  {
  }

  lemma ParentKeeps(s: State)
    requires Inv(s) && Enabled(s, ParentStep)
    ensures Inv(ParentMoves(s)) && ParentMoves(s).sites == s.sites
  {
  }

  lemma TryKeeps(s: State)
    requires Inv(s) && Enabled(s, ChildStep) && !InHandler(s.child)
    ensures Inv(ChildMoves(s)) && ChildMoves(s).sites == s.sites
  {
  }

  lemma HandlerKeeps(s: State)
    requires Inv(s) && Enabled(s, ChildStep) && InHandler(s.child)
    ensures Inv(ChildMoves(s)) && ChildMoves(s).sites == s.sites
  {
  }

  lemma RaiseKeeps(s: State)
    requires Inv(s) && Enabled(s, ChildRaises)
    ensures Inv(ChildRaised(s))
  {
  }

  lemma FailureKeeps(s: State)
    requires Inv(s) && Enabled(s, ClientsRaise)
    ensures Inv(s.(parent := PFailed))
  {
  }

  lemma StepKeeps(s: State, step: Step)
    requires Inv(s) && Enabled(s, step)
    ensures Inv(Perform(s, step)) && Perform(s, step).sites == s.sites
  {
    hide Inv, ParentMoves, ChildMoves, InHandler;
    match step
    case ParentStep => ParentKeeps(s);
    case ChildStep =>
      if InHandler(s.child) {
        HandlerKeeps(s);
      } else {
        TryKeeps(s);
      }
    case ChildRaises => RaiseKeeps(s);
    case ClientsRaise => FailureKeeps(s);
  }

  lemma {:induction false} RunInvariant(run: seq<State>, i: nat)
    requires IsRun(run) && i < |run|
    ensures Inv(run[i]) && run[i].sites == run[0].sites
  {
    if i == 0 {
      InitHolds(run[0]);
    } else {
      RunInvariant(run, i - 1);
      assert Next(run[i - 1], run[i]);
      var step :| Enabled(run[i - 1], step) && Perform(run[i - 1], step) == run[i];
      StepKeeps(run[i - 1], step);
    }
  }

  // ----- safety

  /** A step raises a flag only where its event takes place. */
  lemma StepRecords(s: State, s': State)
    requires Next(s, s') && Inv(s)
    ensures s'.sawAllReady && !s.sawAllReady ==> s.child == CProbe(s.sites)
    ensures s'.clientsReturned && !s.clientsReturned ==> s.parent.PRun?
  {
  }

  lemma {:induction false} FlagsRecordEvents(run: seq<State>, i: nat)
    requires IsRun(run) && i < |run|
    ensures run[i].sawAllReady ==> exists j :: 0 <= j < i && run[j].child == CProbe(run[j].sites)
    ensures run[i].clientsReturned ==> exists j :: 0 <= j < i && run[j].parent.PRun?
  {
    hide Inv, Next;
    if i > 0 {
      FlagsRecordEvents(run, i - 1);
      RunInvariant(run, i - 1);
      StepRecords(run[i - 1], run[i]);
    }
  }

  /** client_run is entered only after the child has counted every server site as ready, and the
      child leaves its loop on value 0 only after client_run was entered and has returned. */
  lemma HandshakeSafety(run: seq<State>, i: nat)
    requires IsRun(run) && i < |run|
    ensures run[i].parent.PRun? ==> exists j :: 0 <= j < i && run[j].child == CProbe(run[i].sites)
    ensures run[i].child.CReport? ==>
      run[i].clientsReturned && !run[i].parent.PRun? && exists j :: 0 <= j < i && run[j].parent.PRun?
  {
    RunInvariant(run, i);
    FlagsRecordEvents(run, i);
    if run[i].parent.PRun? {
      var j :| 0 <= j < i && run[j].child == CProbe(run[j].sites);
      RunInvariant(run, j);
    }
  }

  // ----- exceptions that cannot be made good

  /** An exception inside a critical section while the parent has still to take the lock, or in the
      handler before it has told the waiting parent. */
  predicate Fatal(s: State) {
    (ChildHolds(s.child) && NeedsLock(s.parent)) || (s.child.CExcept? && s.value == 0 && BeforeRun(s.parent))
  }

  /** The step between the two states is such an exception. */
  predicate RaisesFatally(s: State, s': State) {
    Fatal(s) && s' == ChildRaised(s)
  }

  /** Some step up to moment i is such an exception. */
  ghost predicate FatalUpTo(run: seq<State>, i: nat)
    requires i < |run|
  {
    exists k :: 0 < k <= i && RaisesFatally(run[k - 1], run[k])
  }

  lemma FatalStep(s: State, step: Step)
    requires Inv(s) && Enabled(s, step) && !Doomed(s)
    ensures Doomed(Perform(s, step)) <==> RaisesFatally(s, Perform(s, step))
  {
  }

  lemma DoomStays(s: State, step: Step)
    requires Inv(s) && Enabled(s, step) && Doomed(s) && !s.parent.PFailed?
    ensures Doomed(Perform(s, step)) || Perform(s, step).parent.PFailed?
  {
  }

  lemma ChildLeavesFailed(s: State)
    requires s.parent.PFailed?
    ensures ChildMoves(s).parent == s.parent
  {
    assert Notified(s.parent) == s.parent;
    hide Notified;
  }

  lemma FailureStays(s: State, s': State)
    requires Next(s, s') && s.parent.PFailed?
    ensures s'.parent.PFailed?
  {
    hide ChildMoves;
    ChildLeavesFailed(s);
    var step :| Enabled(s, step) && Perform(s, step) == s';
    assert !step.ParentStep? && !step.ClientsRaise?;
  }

  /** The parent is doomed at a moment of a run exactly when a fatal exception came before it. */
  lemma {:induction false} DoomedExactlyWhen(run: seq<State>, i: nat)
    requires IsRun(run) && i < |run| && !run[i].parent.PFailed?
    ensures Doomed(run[i]) <==> FatalUpTo(run, i)
  {
    hide Inv, Doomed, Next, RaisesFatally, Perform, Enabled;
    if i == 0 {
      StartsWell(run[0]);
    } else {
      assert Next(run[i - 1], run[i]);
      if run[i - 1].parent.PFailed? {
        FailureStays(run[i - 1], run[i]);
      }
      DoomedExactlyWhen(run, i - 1);
      RunInvariant(run, i - 1);
      DoomStep(run[i - 1], run[i]);
      assert FatalUpTo(run, i) <==> FatalUpTo(run, i - 1) || RaisesFatally(run[i - 1], run[i]);
    }
  }

  lemma StartsWell(s: State)
    requires Init(s)
    ensures !Doomed(s)
  {
  }

  lemma DoomStep(s: State, s': State)
    requires Inv(s) && Next(s, s') && !s.parent.PFailed? && !s'.parent.PFailed?
    ensures Doomed(s') <==> Doomed(s) || RaisesFatally(s, s')
  {
    hide Inv, Doomed, RaisesFatally, Perform, Enabled;
    var step :| Enabled(s, step) && Perform(s, step) == s';
    if Doomed(s) {
      DoomStays(s, step);
    } else {
      FatalStep(s, step);
    }
  }

  /** No wakeup is lost but by a fatal exception: while the parent waits and nobody has notified it,
      the child still owes it a notification. */
  lemma NoLostWakeup(run: seq<State>, i: nat)
    requires IsRun(run) && i < |run| && run[i].parent == PWaiting(false)
    ensures (run[i].value == 0 && Silent(run[i].child)) || AboutToNotify(run[i].child) || FatalUpTo(run, i)
  {
    hide Next, RaisesFatally;
    RunInvariant(run, i);
    DoomedExactlyWhen(run, i);
  }

  // ----- progress

  /** The parent's own code is done; the exit of its process still waits for the child. */
  predicate ParentEnded(s: State) {
    s.parent.PDone? || s.parent.PRaised? || s.parent.PFailed?
  }

  predicate Finished(s: State) {
    ParentEnded(s) && s.child.CDone?
  }

  predicate EndsWell(s: State) {
    Finished(s) && !s.parent.PFailed?
  }

  lemma NotFailed(s: State)
    requires EndsWell(s)
    ensures !s.parent.PFailed?
  {
  }

  /** Neither process can take a step of its own, and they have not both ended. */
  predicate Stuck(s: State) {
    !Finished(s) && !Enabled(s, ParentStep) && !Enabled(s, ChildStep)
  }

  lemma StuckIsDoomed(s: State)
    requires Inv(s) && Stuck(s)
    ensures Doomed(s) && s.child.CDone? && !s.parent.PFailed?
  {
  }

  /** No state is stuck but after a fatal exception, and when the parent ends with the lock in its
      hands the child no longer needs it. */
  lemma DeadlockFreedom(run: seq<State>, i: nat)
    requires IsRun(run) && i < |run|
    ensures Stuck(run[i]) ==> FatalUpTo(run, i)
    ensures run[i].parent.PRaised? ==> run[i].lock.Parent? && run[i].child.CDone?
  {
    hide Next, RaisesFatally, Stuck;
    RunInvariant(run, i);
    if Stuck(run[i]) {
      StuckIsDoomed(run[i]);
      DoomedExactlyWhen(run, i);
    }
  }

  lemma Taking(run: seq<State>, step: Step) returns (longer: seq<State>)
    requires run != [] && IsRun(run) && Enabled(run[|run| - 1], step)
    ensures |longer| == |run| + 1 && IsRun(longer) && run <= longer
    ensures longer[|run|] == Perform(run[|run| - 1], step)
  {
    hide Perform, Enabled, Init;
    var s := run[|run| - 1];
    assert Next(s, Perform(s, step));
    longer := run + [Perform(s, step)];
  }

  lemma BeginsRun(s: State)
    requires Init(s)
    ensures IsRun([s])
  {
  }

  lemma LockedOut(s: State)
    requires s.child.CDone? && s.lock.Child? && s.parent.PWaiting?
    ensures Stuck(s)
  {
  }

  /** The parent waits, and the child, with no site to probe, takes the lock. */
  lemma ParentWaits(s: State) returns (s1: State, s2: State, s3: State, s4: State)
    requires s == State(0, Free, 0, 0, PAcquire, CProbe(0), false, false, false, false)
    ensures Init(s) && Enabled(s, ParentStep) && s1 == Perform(s, ParentStep)
    ensures Enabled(s1, ParentStep) && s2 == Perform(s1, ParentStep)
    ensures Enabled(s2, ChildStep) && s3 == Perform(s2, ChildStep)
    ensures Enabled(s3, ChildStep) && s4 == Perform(s3, ChildStep)
    ensures s4 == State(0, Child, 1, 0, PWaiting(false), CSet, true, false, false, false)
  {
    s1 := s.(lock := Parent, parent := PCheck);
    s2 := s.(parent := PWaiting(false));
    s3 := s2.(child := CAcquire, sawAllReady := true);
    s4 := s3.(lock := Child, depth := 1, child := CSet);
  }

  /** The handler takes the lock a second time and releases it once. */
  lemma ChildFails(s: State) returns (s1: State, s2: State, s3: State, s4: State, s5: State)
    requires s == State(0, Child, 1, 0, PWaiting(false), CSet, true, false, false, false)
    ensures Enabled(s, ChildRaises) && s1 == Perform(s, ChildRaises)
    ensures Enabled(s1, ChildStep) && s2 == Perform(s1, ChildStep)
    ensures Enabled(s2, ChildStep) && s3 == Perform(s2, ChildStep)
    ensures Enabled(s3, ChildStep) && s4 == Perform(s3, ChildStep)
    ensures Enabled(s4, ChildStep) && s5 == Perform(s4, ChildStep)
    ensures s5 == State(0, Child, 1, 5, PWaiting(true), CDone, true, false, false, false)
  {
    s1 := s.(child := CExcept);
    s2 := s.(child := CSetFailed, depth := 2);
    s3 := s2.(child := CNotifyFailed, value := 5);
    s4 := s3.(child := CReleaseFailed, parent := PWaiting(true));
    s5 := s4.(child := CDone, depth := 1);
  }

  /** A run that does get stuck: an exception hits the child as it is about to store 1. */
  lemma StuckRun() returns (run: seq<State>)
    ensures run != [] && IsRun(run) && Stuck(run[|run| - 1])
    ensures var s := run[|run| - 1]; s.parent == PWaiting(true) && s.lock.Child? && s.value == 5
  {
    hide *;
    var s0 := State(0, Free, 0, 0, PAcquire, CProbe(0), false, false, false, false);
    var s1, s2, s3, s4 := ParentWaits(s0);
    var s5, s6, s7, s8, s9 := ChildFails(s4);
    BeginsRun(s0);
    run := Taking([s0], ParentStep);
    run := Taking(run, ParentStep);
    run := Taking(run, ChildStep);
    run := Taking(run, ChildStep);
    run := Taking(run, ChildRaises);
    run := Taking(run, ChildStep);
    run := Taking(run, ChildStep);
    run := Taking(run, ChildStep);
    run := Taking(run, ChildStep);
    LockedOut(s9);
  }

  function ParentRank(s: State): nat {
    match s.parent
    case PAcquire => 11
    case PCheck => if s.value == 0 then 10 else 7
    case PWaiting(notified) => if notified then 8 else 9
    case PRelease => 6
    case PRun => 5
    case PAcquireAgain => 4
    case PReset => 3
    case PReleaseAgain => 2
    case PJoin => 1
    case _ => 0
  }

  function ChildRank(s: State): nat
    requires s.child.CProbe? ==> s.child.ready <= s.sites
  {
    match s.child
    case CProbe(ready) => 20 + s.sites - ready
    case CAcquire => 19
    case CSet => 18
    case CNotify => 17
    case CRelease => 16
    case CTest => if s.value == 0 then 9 else 15
    case CReleaseStay => 14
    case CSleep => 13
    case CLoop => 12
    case CReleaseExit => 8
    case CReport => 7
    case CExcept => 4
    case CSetFailed => 3
    case CNotifyFailed => 2
    case CReleaseFailed => 1
    case CDone => 0
  }

  /** The process to run next: the child while it has the lock, else the parent if it can. */
  function Helpful(s: State): Step {
    if ChildHolds(s.child) || !Enabled(s, ParentStep) then ChildStep else ParentStep
  }

  lemma ParentProgress(s: State)
    requires Inv(s) && Enabled(s, ParentStep) && !ChildHolds(s.child)
    ensures !ParentMoves(s).parent.PFailed? && ParentRank(ParentMoves(s)) < ParentRank(s)
  {
  }

  lemma ChildProgress(s: State)
    requires Inv(s) && !Finished(s) && !s.parent.PFailed? && !Doomed(s)
    requires ChildHolds(s.child) || !Enabled(s, ParentStep)
    ensures Enabled(s, ChildStep)
    ensures var s' := ChildMoves(s);
      && !s'.parent.PFailed? && (s'.child.CProbe? ==> s'.child.ready <= s'.sites)
      && (ParentRank(s') < ParentRank(s) || (ParentRank(s') == ParentRank(s) && ChildRank(s') < ChildRank(s)))
  {
  }

  lemma HelpfulStep(s: State)
    requires Inv(s) && !Finished(s) && !s.parent.PFailed? && !Doomed(s)
    ensures Enabled(s, Helpful(s)) && Inv(Perform(s, Helpful(s)))
    ensures !Perform(s, Helpful(s)).parent.PFailed? && !Doomed(Perform(s, Helpful(s)))
    ensures var s' := Perform(s, Helpful(s));
      ParentRank(s') < ParentRank(s) || (ParentRank(s') == ParentRank(s) && ChildRank(s') < ChildRank(s))
  {
    if Helpful(s).ParentStep? {
      ParentProgress(s);
    } else {
      ChildProgress(s);
    }
    StepKeeps(s, Helpful(s));
    OwnStepIsSafe(s, Helpful(s));
    hide Inv, ParentMoves, ChildMoves, ParentRank, ChildRank, Enabled, Doomed;
  }

  lemma OwnStepIsSafe(s: State, step: Step)
    requires Inv(s) && Enabled(s, step) && !Doomed(s) && (step.ParentStep? || step.ChildStep?)
    ensures !Doomed(Perform(s, step))
  {
  }

  /** From every state in which the parent is not doomed and client_run has not raised, both processes
      can run to their end: the spinning child never traps the parent. */
  lemma {:induction false} CanFinish(run: seq<State>) returns (longer: seq<State>)
    requires IsRun(run) && !run[|run| - 1].parent.PFailed? && Inv(run[|run| - 1]) && !Doomed(run[|run| - 1])
    ensures IsRun(longer) && run <= longer && EndsWell(longer[|longer| - 1])
    decreases ParentRank(run[|run| - 1]), ChildRank(run[|run| - 1])
  {
    hide Enabled, Perform, Doomed, ParentRank, ChildRank;
    var s := run[|run| - 1];
    if Finished(s) {
      longer := run;
    } else {
      HelpfulStep(s);
      longer := Taking(run, Helpful(s));
      longer := CanFinish(longer);
    }
  }

  /** A doomed parent ends only if client_run raises. */
  lemma {:induction false} DoomedToTheEnd(run: seq<State>, i: nat, j: nat)
    requires IsRun(run) && i <= j < |run| && Doomed(run[i]) && !run[i].parent.PFailed?
    ensures Doomed(run[j]) || run[j].parent.PFailed?
    decreases j
  {
    hide Inv, Doomed, Next, Perform, Enabled;
    if i < j {
      DoomedToTheEnd(run, i, j - 1);
      RunInvariant(run, j - 1);
      assert Next(run[j - 1], run[j]);
      if run[j - 1].parent.PFailed? {
        FailureStays(run[j - 1], run[j]);
      } else if !run[j].parent.PFailed? {
        DoomStep(run[j - 1], run[j]);
      }
    }
  }

  lemma WellEndedIsNotDoomed(s: State)
    requires Inv(s) && EndsWell(s)
    ensures !Doomed(s)
  {
  }

  /** A run in which client_run has not raised can be continued until both processes end, and end
      without that, exactly when no fatal exception has occurred in it. */
  lemma EveryRunCanFinish(run: seq<State>)
    requires IsRun(run) && !run[|run| - 1].parent.PFailed?
    ensures (exists longer :: IsRun(longer) && run <= longer && EndsWell(longer[|longer| - 1])) <==>
            !FatalUpTo(run, |run| - 1)
  {
    hide Inv, Doomed, Init, Next, FatalUpTo, EndsWell;
    var n := |run| - 1;
    RunInvariant(run, n);
    DoomedExactlyWhen(run, n);
    if !Doomed(run[n]) {
      var longer := CanFinish(run);
    }
    forall longer | IsRun(longer) && run <= longer && EndsWell(longer[|longer| - 1]) ensures !Doomed(run[n]) {
      RunInvariant(longer, |longer| - 1);
      WellEndedIsNotDoomed(longer[|longer| - 1]);
      if Doomed(run[n]) {
        DoomedToTheEnd(longer, n, |longer| - 1);
        NotFailed(longer[|longer| - 1]);
      }
    }
  }

  // ----- when client_run raises

  /** The parent has failed, and no exception has led the child out of its loop. */
  predicate Spins(s: State) {
    s.parent.PFailed? && !InHandler(s.child) && !s.child.CDone?
  }

  /** The step between the two states is an exception in the child. */
  predicate Hit(s: State, s': State) {
    !s.child.CDone? && s' == ChildRaised(s)
  }

  ghost predicate HitBetween(run: seq<State>, i: nat, j: nat)
    requires i <= j < |run|
  {
    exists k :: i < k <= j && Hit(run[k - 1], run[k])
  }

  /** Nobody resets the value any more, so the child finds 1 each time it looks. */
  lemma SpinStep(s: State, s': State)
    requires Inv(s) && Spins(s) && Next(s, s')
    ensures s.value == 1 && (Spins(s') || Hit(s, s'))
  {
  }

  lemma {:induction false} SpinsUntilHit(run: seq<State>, i: nat, j: nat)
    requires IsRun(run) && i <= j < |run| && Spins(run[i])
    ensures Spins(run[j]) || HitBetween(run, i, j)
    decreases j
  {
    hide Inv, Next, Spins, Hit;
    if i < j {
      SpinsUntilHit(run, i, j - 1);
      RunInvariant(run, j - 1);
      if Spins(run[j - 1]) {
        SpinStep(run[j - 1], run[j]);
      }
    }
  }

  /** The child is in its handler, or has ended there. */
  predicate Out(s: State) {
    InHandler(s.child) || (s.child.CDone? && !s.leftByZero)
  }

  lemma OutStep(s: State, s': State)
    requires Inv(s) && Next(s, s')
    ensures Out(s') ==> Out(s) || Hit(s, s')
  {
    hide ParentMoves, Inv, ChildAcquires, Notified;
    ReportLeft(s);
    ParentMovesAlone(s);
  }

  lemma StaysOut(s: State, s': State)
    requires Next(s, s') && (Hit(s, s') || InHandler(s.child) || s.child.CDone?)
    ensures InHandler(s'.child) || s'.child.CDone?
  {
    hide ParentMoves;
    ParentMovesAlone(s);
  }

  lemma ReportLeft(s: State)
    requires Inv(s)
    ensures s.child.CReport? ==> s.leftByZero
  {
  }

  lemma ParentMovesAlone(s: State)
    ensures ParentMoves(s).child == s.child && ParentMoves(s).leftByZero == s.leftByZero
  {
  }

  lemma {:induction false} OutByHit(run: seq<State>, i: nat)
    requires IsRun(run) && i < |run|
    ensures Out(run[i]) ==> HitBetween(run, 0, i)
    ensures HitBetween(run, 0, i) ==> InHandler(run[i].child) || run[i].child.CDone?
  {
    hide Inv, Next, Hit, InHandler, Out;
    if i == 0 {
      StartsInside(run[0]);
    } else {
      OutByHit(run, i - 1);
      RunInvariant(run, i - 1);
      OutStep(run[i - 1], run[i]);
      if Hit(run[i - 1], run[i]) || InHandler(run[i - 1].child) || run[i - 1].child.CDone? {
        StaysOut(run[i - 1], run[i]);
      }
      assert HitBetween(run, 0, i) <==> HitBetween(run, 0, i - 1) || Hit(run[i - 1], run[i]);
    }
  }

  lemma StartsInside(s: State)
    requires Init(s)
    ensures !Out(s)
  {
  }

  lemma FailedIsOutOrSpins(s: State)
    requires Inv(s) && s.parent.PFailed?
    ensures !Spins(s) <==> Out(s)
    ensures InHandler(s.child) || s.child.CDone? <==> Out(s)
  {
  }

  lemma HandlerStep(s: State)
    requires Inv(s) && s.parent.PFailed? && InHandler(s.child)
    ensures Enabled(s, ChildStep) && !Hit(s, Perform(s, ChildStep))
    ensures var s' := Perform(s, ChildStep);
      s'.parent.PFailed? && Out(s') && (s'.child.CDone? || (InHandler(s'.child) && ChildRank(s') < ChildRank(s)))
  {
  }

  /** Once in its handler, the child runs to its end by itself. */
  lemma {:induction false} HandlerEnds(run: seq<State>) returns (longer: seq<State>)
    requires IsRun(run) && run[|run| - 1].parent.PFailed? && InHandler(run[|run| - 1].child)
    ensures IsRun(longer) && run <= longer && longer[|longer| - 1].child.CDone?
    ensures !HitBetween(longer, |run| - 1, |longer| - 1)
    decreases ChildRank(run[|run| - 1])
  {
    hide Inv, Perform, Enabled, ChildRank, InHandler, Init, Next, Hit;
    var n := |run| - 1;
    RunInvariant(run, n);
    HandlerStep(run[n]);
    longer := Taking(run, ChildStep);
    if !longer[n + 1].child.CDone? {
      longer := HandlerEnds(longer);
    }
  }

  /** After client_run has raised, the child ends without a further exception if and only if one had
      already hit it.  Otherwise it spins, and the exit of the program waits for it. */
  lemma FailedRunEnds(run: seq<State>)
    requires IsRun(run) && run[|run| - 1].parent.PFailed?
    ensures (exists longer: seq<State> :: IsRun(longer) && run <= longer && longer[|longer| - 1].child.CDone? &&
                              !HitBetween(longer, |run| - 1, |longer| - 1)) <==>
            HitBetween(run, 0, |run| - 1)
  {
    hide Inv, Spins, InHandler, Init, Next, HitBetween, Out;
    var n := |run| - 1;
    RunInvariant(run, n);
    OutByHit(run, n);
    FailedIsOutOrSpins(run[n]);
    if run[n].child.CDone? {
      NoStepNoHit(run, n);
    } else if InHandler(run[n].child) {
      var longer := HandlerEnds(run);
    } else {
      forall longer: seq<State> | IsRun(longer) && run <= longer && longer[|longer| - 1].child.CDone?
        ensures HitBetween(longer, n, |longer| - 1)
      {
        SpinsUntilHit(longer, n, |longer| - 1);
        SpinnerHasNotEnded(longer[|longer| - 1]);
      }
    }
  }

  lemma NoStepNoHit(run: seq<State>, n: nat)
    requires n < |run|
    ensures !HitBetween(run, n, n)
  {
  }

  lemma SpinnerHasNotEnded(s: State)
    requires s.child.CDone?
    ensures !Spins(s)
  {
  }

  /** The child reports 1 and goes to its loop; the parent starts the clients, and client_run raises. */
  lemma ChildReports(s: State) returns (s1: State, s2: State, s3: State, s4: State, s5: State)
    requires s == State(0, Free, 0, 0, PAcquire, CProbe(0), false, false, false, false)
    ensures Init(s) && Enabled(s, ChildStep) && s1 == Perform(s, ChildStep)
    ensures Enabled(s1, ChildStep) && s2 == Perform(s1, ChildStep)
    ensures Enabled(s2, ChildStep) && s3 == Perform(s2, ChildStep)
    ensures Enabled(s3, ChildStep) && s4 == Perform(s3, ChildStep)
    ensures Enabled(s4, ChildStep) && s5 == Perform(s4, ChildStep)
    ensures s5 == State(0, Free, 0, 1, PAcquire, CLoop, true, false, false, false)
  {
    s1 := s.(child := CAcquire, sawAllReady := true);
    s2 := s1.(lock := Child, depth := 1, child := CSet);
    s3 := s2.(value := 1, child := CNotify);
    s4 := s3.(child := CRelease);
    s5 := s1.(value := 1, child := CLoop);
  }

  lemma ParentFails(s: State) returns (s1: State, s2: State, s3: State, s4: State)
    requires s == State(0, Free, 0, 1, PAcquire, CLoop, true, false, false, false)
    ensures Enabled(s, ParentStep) && s1 == Perform(s, ParentStep)
    ensures Enabled(s1, ParentStep) && s2 == Perform(s1, ParentStep)
    ensures Enabled(s2, ParentStep) && s3 == Perform(s2, ParentStep)
    ensures Enabled(s3, ClientsRaise) && s4 == Perform(s3, ClientsRaise)
    ensures s4 == State(0, Free, 0, 1, PFailed, CLoop, true, true, false, false)
  {
    s1 := s.(lock := Parent, parent := PCheck);
    s2 := s1.(parent := PRelease);
    s3 := s.(parent := PRun, clientsStarted := true);
    s4 := s3.(parent := PFailed);
  }

  lemma OneRound(s: State) returns (s1: State, s2: State, s3: State)
    requires s == State(0, Free, 0, 1, PFailed, CLoop, true, true, false, false)
    ensures Enabled(s, ChildStep) && s1 == Perform(s, ChildStep)
    ensures Enabled(s1, ChildStep) && s2 == Perform(s1, ChildStep)
    ensures Enabled(s2, ChildStep) && s3 == Perform(s2, ChildStep)
    ensures Enabled(s3, ChildStep) && s == Perform(s3, ChildStep) && s1 != s
  {
    s1 := s.(lock := Child, depth := 1, child := CTest);
    s2 := s1.(child := CReleaseStay);
    s3 := s.(child := CSleep);
  }

  /** A run without an exception in the child that comes round to the same state: the child has looked
      at the value once more and goes on. */
  lemma SpinningRun() returns (run: seq<State>)
    ensures |run| > 4 && IsRun(run) && run[|run| - 1] == run[|run| - 5] && run[|run| - 4] != run[|run| - 5]
    ensures var s := run[|run| - 1]; s.parent.PFailed? && s.child.CLoop? && s.value == 1
  {
    hide *;
    var s0 := State(0, Free, 0, 0, PAcquire, CProbe(0), false, false, false, false);
    var s1, s2, s3, s4, s5 := ChildReports(s0);
    var s6, s7, s8, s9 := ParentFails(s5);
    var sa, sb, sc := OneRound(s9);
    BeginsRun(s0);
    run := Taking([s0], ChildStep);
    run := Taking(run, ChildStep);
    run := Taking(run, ChildStep);
    run := Taking(run, ChildStep);
    run := Taking(run, ChildStep);
    run := Taking(run, ParentStep);
    run := Taking(run, ParentStep);
    run := Taking(run, ParentStep);
    run := Taking(run, ClientsRaise);
    var round := Taking(run, ChildStep);
    assert round[9] == s9 && round[10] == sa;
    run := Taking(round, ChildStep);
    run := Taking(run, ChildStep);
    run := Taking(run, ChildStep);
    assert run[9] == round[9] && run[10] == round[10];
  }
}
