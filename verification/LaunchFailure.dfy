/**
 * How failed and cancelled launches leave the session row and its workspaces
 * (wacp-console/crates/console-core/src/session_launcher.rs and
 * wacp-console/crates/console-api/src/routes/sessions.rs).
 */
module LaunchFailure {
  import opened Options
  import opened SessionState
  import opened SessionStore
  import opened LaunchSaga
  import opened SessionWorld
  import opened SessionInvariant
  import opened SessionSteps
  import opened SessionTheorems

  // Marking a session FAILED

  /** The session has left LAUNCHING: it is ACTIVE or has ended. */
  predicate PastLaunching(s: State) {
    s == Active || IsTerminal(s)
  }

  /** The request has read the session as LAUNCHING and has not returned. */
  predicate Entered(p: Point) {
    !InRoute(p) && !p.LoadRow? && !p.Returned?
  }

  /** A request in the saga has a session past validation; one that marked it has it past LAUNCHING. */
  predicate MarkingOk(row: Row, l: Launcher) {
    && (Entered(l.at) ==> PastValidation(row.state))
    && (l.marked ==> PastLaunching(row.state))
  }

  predicate AllMarkingOk(w: World) {
    forall i :: 0 <= i < |w.launchers| ==> MarkingOk(w.row, w.launchers[i])
  }

  lemma StateMovesOn(assignments: seq<Id>, w: World, s: Step)
    requires Distinct(assignments) && Inv(assignments, w) && Enabled(w, s)
    ensures var v := Apply(assignments, w, s);
      && (PastValidation(w.row.state) ==> PastValidation(v.row.state))
      && (PastLaunching(w.row.state) ==> PastLaunching(v.row.state))
  {
    if PastValidation(w.row.state) {
      WriteUsesUpRank(assignments, w, s);
    }
  }

  /** The operation enters the saga only past validation, and marks only by its update. */
  predicate Marks(l: Launcher, row: Row, m: Move) {
    && (Entered(m.next.at) ==> PastValidation(row.state))
    && (m.next.marked ==> l.marked || (m.effect == Cas(Launching, Failed) && PastValidation(row.state)))
  }

  lemma CreateMarks(assignments: seq<Id>, l: Launcher, row: Row, reply: Reply)
    requires MarkingOk(row, l) && InCreate(l.at)
    ensures Marks(l, row, CreateMove(assignments, l, row, reply))
  {
  }

  lemma PrepareMarks(assignments: seq<Id>, l: Launcher, row: Row, reply: Reply)
    requires MarkingOk(row, l) && !InRoute(l.at) && !InEnd(l.at)
    ensures Marks(l, row, PrepareMove(assignments, l, row, reply))
  {
  }

  lemma RouteMarks(l: Launcher, row: Row, reply: Reply)
    requires InRoute(l.at)
    ensures Marks(l, row, RouteMove(l, row, reply))
  {
  }

  lemma EndMarks(l: Launcher, row: Row, reply: Reply)
    requires MarkingOk(row, l) && InEnd(l.at)
    ensures Marks(l, row, EndMove(l, reply))
  {
  }

  lemma OwnStepMarks(assignments: seq<Id>, l: Launcher, row: Row, reply: Reply)
    requires MarkingOk(row, l)
    ensures Marks(l, row, Advance(assignments, l, row, reply))
  {
    if InRoute(l.at) {
      RouteMarks(l, row, reply);
    } else if InEnd(l.at) {
      EndMarks(l, row, reply);
    } else if InCreate(l.at) {
      CreateMarks(assignments, l, row, reply);
    } else {
      PrepareMarks(assignments, l, row, reply);
    }
  }

  lemma CasLeavesLaunching(w: World, i: nat, place: nat)
    requires PastValidation(w.row.state)
    ensures PastLaunching(LaunchEffect(w, i, place, Cas(Launching, Failed)).row.state)
  {
  }

  lemma LaunchOpKeepsMarking(assignments: seq<Id>, w: World, i: nat, reply: Reply)
    requires Distinct(assignments) && Inv(assignments, w) && AllMarkingOk(w) && Enabled(w, LaunchOp(i, reply))
    ensures AllMarkingOk(LaunchStepOf(assignments, w, i, reply))
  {
    var v := LaunchStepOf(assignments, w, i, reply);
    var m := Advance(assignments, w.launchers[i], w.row, reply);
    StateMovesOn(assignments, w, LaunchOp(i, reply));
    OwnStepMarks(assignments, w.launchers[i], w.row, reply);
    if m.effect == Cas(Launching, Failed) && PastValidation(w.row.state) {
      CasLeavesLaunching(w.(launchers := w.launchers[i := m.next]), i, |w.launchers[i].created|);
    }
    LaunchersAfter(assignments, w, i, reply);
    MarkingPut(w, v, i);
  }

  lemma LaunchersAfter(assignments: seq<Id>, w: World, i: nat, reply: Reply)
    requires i < |w.launchers|
    ensures LaunchStepOf(assignments, w, i, reply).launchers
         == w.launchers[i := Advance(assignments, w.launchers[i], w.row, reply).next]
  {
  }

  lemma MarkingPut(w: World, v: World, i: nat)
    requires AllMarkingOk(w) && i < |w.launchers| == |v.launchers|
    requires PastValidation(w.row.state) ==> PastValidation(v.row.state)
    requires PastLaunching(w.row.state) ==> PastLaunching(v.row.state)
    requires MarkingOk(v.row, v.launchers[i])
    requires forall j :: 0 <= j < |w.launchers| && j != i ==> v.launchers[j] == w.launchers[j]
    ensures AllMarkingOk(v)
  {
    forall j | 0 <= j < |v.launchers|
      ensures MarkingOk(v.row, v.launchers[j])
    {
      assert MarkingOk(w.row, w.launchers[j]);
    }
  }

  /** Requests arrive at the route's first read, and crashes only kill them. */
  lemma OtherStepsKeepPoints(assignments: seq<Id>, w: World, s: Step)
    requires Enabled(w, s) && !s.LaunchOp?
    ensures var v := Apply(assignments, w, s);
      && |v.launchers| >= |w.launchers|
      && (forall i :: 0 <= i < |w.launchers| ==>
            v.launchers[i].at == w.launchers[i].at && v.launchers[i].marked == w.launchers[i].marked)
      && forall i :: |w.launchers| <= i < |v.launchers| ==> v.launchers[i] == REQUESTED
  {
  }

  lemma StepKeepsMarking(assignments: seq<Id>, w: World, s: Step)
    requires Distinct(assignments) && Inv(assignments, w) && AllMarkingOk(w) && Enabled(w, s)
    ensures AllMarkingOk(Apply(assignments, w, s))
  {
    if s.LaunchOp? {
      LaunchOpKeepsMarking(assignments, w, s.i, s.reply);
    } else {
      var v := Apply(assignments, w, s);
      StateMovesOn(assignments, w, s);
      OtherStepsKeepPoints(assignments, w, s);
      forall i | 0 <= i < |v.launchers|
        ensures MarkingOk(v.row, v.launchers[i])
      {
        assert i < |w.launchers| ==> MarkingOk(w.row, w.launchers[i]);
      }
    }
  }

  lemma {:induction false} RunKeepsMarking(assignments: seq<Id>, w: World, run: seq<Step>)
    requires Distinct(assignments) && Inv(assignments, w) && AllMarkingOk(w) && Legal(assignments, w, run)
    ensures AllMarkingOk(Exec(assignments, w, run))
    decreases run
  {
    if run != [] {
      StepKeepsInv(assignments, w, run[0]);
      StepKeepsMarking(assignments, w, run[0]);
      RunKeepsMarking(assignments, Apply(assignments, w, run[0]), run[1..]);
    }
  }

  lemma {:induction false} PastLaunchingForGood(assignments: seq<Id>, w: World, run: seq<Step>)
    requires Distinct(assignments) && Inv(assignments, w) && PastLaunching(w.row.state) && Legal(assignments, w, run)
    ensures PastLaunching(Exec(assignments, w, run).row.state)
    decreases run
  {
    if run != [] {
      StepKeepsInv(assignments, w, run[0]);
      StateMovesOn(assignments, w, run[0]);
      PastLaunchingForGood(assignments, Apply(assignments, w, run[0]), run[1..]);
    }
  }

  /**
   * Once the update of a request's `mark_failed` has reached the database, the session is past
   * LAUNCHING, whoever moved it, and stays so whatever follows.
   */
  lemma MarkedIsPastLaunching(assignments: seq<Id>, run: seq<Step>, more: seq<Step>, i: nat)
    requires IsRun(assignments, run) && Legal(assignments, Reached(assignments, run), more)
    requires i < |Reached(assignments, run).launchers| && Reached(assignments, run).launchers[i].marked
    ensures PastLaunching(Reached(assignments, run).row.state)
    ensures PastLaunching(Exec(assignments, Reached(assignments, run), more).row.state)
  {
    InitInv(assignments);
    ReachedInv(assignments, run);
    RunKeepsMarking(assignments, Init(assignments), run);
    var w := Reached(assignments, run);
    assert MarkingOk(w.row, w.launchers[i]);
    PastLaunchingForGood(assignments, w, more);
  }

  /**
   * The operation with which a request of the saga returns leaves a LAUNCHING session LAUNCHING exactly
   * when the database failed it or it was asking the pool for a channel; otherwise the session is FAILED.
   */
  lemma ReturnLeavesLaunchingIff(assignments: seq<Id>, run: seq<Step>, i: nat, reply: Reply)
    requires IsRun(assignments, run) && Enabled(Reached(assignments, run), LaunchOp(i, reply))
    requires var w := Reached(assignments, run);
      && w.row.state == Launching && !InRoute(w.launchers[i].at) && !w.launchers[i].at.Returned?
      && Apply(assignments, w, LaunchOp(i, reply)).launchers[i].at.Returned?
    ensures var v := Apply(assignments, Reached(assignments, run), LaunchOp(i, reply));
      && v.row.state == (if reply.DbFails? || Reached(assignments, run).launchers[i].at.AcquireChannel? then Launching
                         else Failed)
      && (v.row.state == Failed <==> v.launchers[i].marked)
  {
    InitInv(assignments);
    ReachedInv(assignments, run);
    RunKeepsMarking(assignments, Init(assignments), run);
    var w := Reached(assignments, run);
    assert MarkingOk(w.row, w.launchers[i]);
    assert Won(w.launchers[i]) <==> w.winner == Some(i);
    assert LauncherOk(assignments, w.launchers[i]);
    ReturnOf(assignments, w.launchers[i], w.row, reply);
    var m := Advance(assignments, w.launchers[i], w.row, reply);
    LaunchersAfter(assignments, w, i, reply);
    assert m.next.at.Returned?;
  }

  /** A returning operation on a LAUNCHING session updates it to FAILED, or the database or pool failed it. */
  predicate ReturnsOk(l: Launcher, m: Move, reply: Reply) {
    m.next.at.Returned? ==>
      && m.effect == (if reply.DbFails? || l.at.AcquireChannel? then Silent else Cas(Launching, Failed))
      && (m.next.marked <==> m.effect == Cas(Launching, Failed))
  }

  lemma PrepareReturns(assignments: seq<Id>, l: Launcher, row: Row, reply: Reply)
    requires row.state == Launching && !l.at.Returned? && !l.marked
    ensures ReturnsOk(l, PrepareMove(assignments, l, row, reply), reply)
  {
  }

  lemma CreateReturns(assignments: seq<Id>, l: Launcher, row: Row, reply: Reply)
    requires InCreate(l.at)
    ensures ReturnsOk(l, CreateMove(assignments, l, row, reply), reply)
  {
  }

  lemma EndReturns(l: Launcher, reply: Reply)
    requires InEnd(l.at) && !l.at.Returned? && !Won(l) && !l.marked
    requires l.at.MarkFailed? ==> l.at.error.StepError? || l.at.error.NoAssignments?
    ensures ReturnsOk(l, EndMove(l, reply), reply)
  {
  }

  lemma ReturnOf(assignments: seq<Id>, l: Launcher, row: Row, reply: Reply)
    requires row.state == Launching && !InRoute(l.at) && !l.at.Returned? && !Won(l) && !l.marked
    requires l.at.MarkFailed? ==> l.at.error.StepError? || l.at.error.NoAssignments?
    ensures ReturnsOk(l, Advance(assignments, l, row, reply), reply)
  {
    if InEnd(l.at) {
      EndReturns(l, reply);
    } else if InCreate(l.at) {
      CreateReturns(assignments, l, row, reply);
    } else {
      PrepareReturns(assignments, l, row, reply);
    }
  }
}
