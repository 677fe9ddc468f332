/**
 * Several launch requests for one session: which of them can enter the saga, and when one of them
 * keeps another from committing (wacp-console/crates/console-api/src/routes/sessions.rs and
 * wacp-console/crates/console-core/src/session_launcher.rs).
 */
module ConcurrentLaunches {
  import opened Options
  import opened SessionState
  import opened SessionStore
  import opened LaunchSaga
  import opened SessionWorld
  import opened SessionInvariant
  import opened SessionSteps
  import opened SessionTheorems
  import opened LaunchFailure

  // Entering the saga

  /** The request has read the session as CONFIGURING, has not been refused, and has not loaded it yet. */
  predicate OnItsWay(p: Point) {
    p.RouteToValidating? || p.RouteValidate? || p.RouteToLaunching? || p.LoadRow?
  }

  /** A request outside the saga that can no longer enter it. */
  predicate Barred(w: World, i: nat)
    requires i < |w.launchers|
  {
    var l := w.launchers[i];
    && !Entered(l.at) && PastValidation(w.row.state)
    && (!l.alive || !OnItsWay(l.at) || PastLaunching(w.row.state))
  }

  /** An operation on a session past validation brings no barred request closer. */
  lemma BarredMoves(assignments: seq<Id>, l: Launcher, row: Row, reply: Reply)
    requires !Entered(l.at) && PastValidation(row.state) && (!OnItsWay(l.at) || PastLaunching(row.state))
    ensures var n := Advance(assignments, l, row, reply).next;
      !Entered(n.at) && (!OnItsWay(n.at) || PastLaunching(row.state))
  {
    OutsideMoves(assignments, l, row, reply);
    if InRoute(l.at) {
      BarredRoute(l, row, reply);
    } else if l.at.LoadRow? {
      BarredLoad(assignments, l, row, reply);
    }
  }

  /** Outside the saga a request is in the route, about to load the session, or has returned. */
  lemma OutsideMoves(assignments: seq<Id>, l: Launcher, row: Row, reply: Reply)
    requires !Entered(l.at)
    ensures Advance(assignments, l, row, reply) ==
      if InRoute(l.at) then RouteMove(l, row, reply)
      else if l.at.LoadRow? then PrepareMove(assignments, l, row, reply)
      else Move(l, Silent)
  {
  }

  lemma BarredRoute(l: Launcher, row: Row, reply: Reply)
    requires InRoute(l.at) && PastValidation(row.state) && (!OnItsWay(l.at) || PastLaunching(row.state))
    ensures var n := RouteMove(l, row, reply).next;
      !Entered(n.at) && (!OnItsWay(n.at) || PastLaunching(row.state))
  {
  }

  lemma BarredLoad(assignments: seq<Id>, l: Launcher, row: Row, reply: Reply)
    requires l.at.LoadRow? && PastLaunching(row.state)
    ensures PrepareMove(assignments, l, row, reply).next.at.Returned?
  {
  }

  lemma BarredStep(assignments: seq<Id>, w: World, s: Step, i: nat)
    requires Distinct(assignments) && Inv(assignments, w) && Enabled(w, s) && i < |w.launchers| && Barred(w, i)
    ensures var v := Apply(assignments, w, s); i < |v.launchers| && Barred(v, i)
  {
    StateMovesOn(assignments, w, s);
    if s.LaunchOp? {
      LaunchersAfter(assignments, w, s.i, s.reply);
      if s.i == i {
        BarredMoves(assignments, w.launchers[i], w.row, s.reply);
        AdvanceKeepsAlive(assignments, w.launchers[i], w.row, s.reply);
      }
    } else {
      OtherStepsKeepPoints(assignments, w, s);
      OtherStepsRevive(assignments, w, s, i);
    }
  }

  lemma AdvanceKeepsAlive(assignments: seq<Id>, l: Launcher, row: Row, reply: Reply)
    ensures Advance(assignments, l, row, reply).next.alive == l.alive
  {
    CreateKeepsAlive(assignments, l, row, reply);
    PrepareKeepsAlive(assignments, l, row, reply);
    EndKeepsAlive(l, reply);
  }

  lemma CreateKeepsAlive(assignments: seq<Id>, l: Launcher, row: Row, reply: Reply)
    ensures CreateMove(assignments, l, row, reply).next.alive == l.alive
  {
  }

  lemma PrepareKeepsAlive(assignments: seq<Id>, l: Launcher, row: Row, reply: Reply)
    ensures PrepareMove(assignments, l, row, reply).next.alive == l.alive == RouteMove(l, row, reply).next.alive
  {
  }

  lemma EndKeepsAlive(l: Launcher, reply: Reply)
    ensures EndMove(l, reply).next.alive == l.alive
  {
  }

  lemma OtherStepsRevive(assignments: seq<Id>, w: World, s: Step, i: nat)
    requires Enabled(w, s) && !s.LaunchOp? && i < |w.launchers|
    ensures var v := Apply(assignments, w, s); i < |v.launchers| && (v.launchers[i].alive ==> w.launchers[i].alive)
  {
  }

  lemma {:induction false} BarredForGood(assignments: seq<Id>, w: World, run: seq<Step>, i: nat)
    requires Distinct(assignments) && Inv(assignments, w) && Legal(assignments, w, run)
    requires i < |w.launchers| && Barred(w, i)
    ensures var v := Exec(assignments, w, run); i < |v.launchers| && Barred(v, i)
    decreases run
  {
    if run != [] {
      StepKeepsInv(assignments, w, run[0]);
      BarredStep(assignments, w, run[0], i);
      BarredForGood(assignments, Apply(assignments, w, run[0]), run[1..], i);
    }
  }

  /** Some continuation takes the request into the saga. */
  ghost predicate CanEnter(assignments: seq<Id>, w: World, i: nat) {
    exists more :: Enters(assignments, w, more, i)
  }

  ghost predicate Enters(assignments: seq<Id>, w: World, more: seq<Step>, i: nat) {
    && Legal(assignments, w, more)
    && i < |Exec(assignments, w, more).launchers| && Entered(Exec(assignments, w, more).launchers[i].at)
  }

  /** How many operations a request on its way is from the saga. */
  function Distance(p: Point): nat {
    match p
    case RouteToValidating => 4
    case RouteValidate => 3
    case RouteToLaunching => 2
    case LoadRow => 1
    case _ => 0
  }

  /** On a LAUNCHING session the route's own updates miss, and change nothing but the request. */
  lemma WayStep(assignments: seq<Id>, w: World, i: nat)
    requires i < |w.launchers| && w.launchers[i].alive && OnItsWay(w.launchers[i].at) && w.row.state == Launching
    ensures Enabled(w, LaunchOp(i, Fine))
    ensures var v := Apply(assignments, w, LaunchOp(i, Fine));
      && |v.launchers| == |w.launchers| && v.launchers[i].alive && v.row == w.row
      && (Entered(v.launchers[i].at) || OnItsWay(v.launchers[i].at))
      && Distance(v.launchers[i].at) < Distance(w.launchers[i].at)
  {
    LaunchersAfter(assignments, w, i, Fine);
  }

  lemma {:induction false} WayIn(assignments: seq<Id>, w: World, i: nat) returns (more: seq<Step>)
    requires i < |w.launchers| && w.launchers[i].alive && w.row.state == Launching
    requires OnItsWay(w.launchers[i].at) || Entered(w.launchers[i].at)
    ensures Enters(assignments, w, more, i)
    decreases Distance(w.launchers[i].at)
  {
    if Entered(w.launchers[i].at) {
      more := [];
    } else {
      WayStep(assignments, w, i);
      var rest := WayIn(assignments, Apply(assignments, w, LaunchOp(i, Fine)), i);
      more := [LaunchOp(i, Fine)] + rest;
      assert more[0] == LaunchOp(i, Fine) && more[1..] == rest;
    }
  }

  /**
   * In every run, once the session is past validation: a request that is not in the saga can still enter it
   * if and only if it is alive, has read the session as CONFIGURING, has not been refused, and the session
   * is LAUNCHING. Its own guarded updates decide nothing, because the route ignores whether they matched.
   */
  lemma CanEnterIff(assignments: seq<Id>, run: seq<Step>, i: nat)
    requires IsRun(assignments, run) && PastValidation(Reached(assignments, run).row.state)
    requires i < |Reached(assignments, run).launchers| && !Entered(Reached(assignments, run).launchers[i].at)
    ensures var w := Reached(assignments, run);
      CanEnter(assignments, w, i) <==>
        w.launchers[i].alive && OnItsWay(w.launchers[i].at) && w.row.state == Launching
  {
    ReachedInv(assignments, run);
    var w := Reached(assignments, run);
    if w.launchers[i].alive && OnItsWay(w.launchers[i].at) && w.row.state == Launching {
      var more := WayIn(assignments, w, i);
    } else {
      BarredNeverEnters(assignments, w, i);
    }
  }

  lemma BarredNeverEnters(assignments: seq<Id>, w: World, i: nat)
    requires Distinct(assignments) && Inv(assignments, w) && i < |w.launchers| && Barred(w, i)
    ensures !CanEnter(assignments, w, i)
  {
    forall more | Legal(assignments, w, more)
      ensures !Enters(assignments, w, more, i)
    {
      BarredForGood(assignments, w, more, i);
    }
  }

  // Keeping another request from committing

  /** Whoever wrote FAILED for a failed launch has marked it, and has returned. */
  predicate FailuresMarked(w: World) {
    && (forall i :: 0 <= i < |w.launchers| && w.launchers[i].marked ==> w.launchers[i].at.Returned?)
    && (forall n :: 0 <= n < |w.writes| ==> FailureMarked(w.launchers, w.writes[n].cause))
  }

  predicate FailureMarked(launchers: seq<Launcher>, c: Cause) {
    c.LaunchFailed? ==> c.request < |launchers| && launchers[c.request].marked
  }

  lemma AdvanceKeepsMark(assignments: seq<Id>, l: Launcher, row: Row, reply: Reply)
    requires l.marked ==> l.at.Returned?
    ensures var m := Advance(assignments, l, row, reply);
      && (l.marked ==> m.next.marked) && (m.next.marked ==> m.next.at.Returned?)
      && (m.effect.Cas? && m.effect.to.Failed? ==> m.next.marked)
  {
    if InEnd(l.at) {
      EndKeepsMark(l, reply);
    } else if InCreate(l.at) {
      CreateKeepsMark(assignments, l, row, reply);
    } else {
      PrepareKeepsMark(assignments, l, row, reply);
    }
  }

  lemma EndKeepsMark(l: Launcher, reply: Reply)
    requires l.marked ==> l.at.Returned?
    ensures var m := EndMove(l, reply);
      && (l.marked ==> m.next.marked) && (m.next.marked ==> m.next.at.Returned?)
      && (m.effect.Cas? && m.effect.to.Failed? ==> m.next.marked)
  {
  }

  lemma CreateKeepsMark(assignments: seq<Id>, l: Launcher, row: Row, reply: Reply)
    requires !l.marked
    ensures var m := CreateMove(assignments, l, row, reply); !m.next.marked && !m.effect.Cas?
  {
  }

  lemma PrepareKeepsMark(assignments: seq<Id>, l: Launcher, row: Row, reply: Reply)
    requires !l.marked
    ensures var m := PrepareMove(assignments, l, row, reply); !m.next.marked && !m.effect.Cas?
    ensures var m := RouteMove(l, row, reply); !m.next.marked && (m.effect.Cas? ==> !m.effect.to.Failed?)
  {
  }

  /** The write an effect adds, if any, is marked by its request. */
  lemma EffectMarks(w: World, i: nat, place: nat, e: Effect)
    requires i < |w.launchers| && (e.Cas? && e.to.Failed? ==> w.launchers[i].marked)
    requires forall n :: 0 <= n < |w.writes| ==> FailureMarked(w.launchers, w.writes[n].cause)
    ensures var v := LaunchEffect(w, i, place, e);
      v.launchers == w.launchers && forall n :: 0 <= n < |v.writes| ==> FailureMarked(v.launchers, v.writes[n].cause)
  {
  }

  lemma LaunchOpKeepsFailures(assignments: seq<Id>, w: World, i: nat, reply: Reply)
    requires FailuresMarked(w) && i < |w.launchers|
    ensures FailuresMarked(LaunchStepOf(assignments, w, i, reply))
  {
    var l := w.launchers[i];
    AdvanceKeepsMark(assignments, l, w.row, reply);
    var m := Advance(assignments, l, w.row, reply);
    var w1 := w.(launchers := w.launchers[i := m.next]);
    forall n | 0 <= n < |w.writes|
      ensures FailureMarked(w1.launchers, w1.writes[n].cause)
    {
      assert FailureMarked(w.launchers, w.writes[n].cause);
    }
    EffectMarks(w1, i, |l.created|, m.effect);
  }

  lemma OtherStepsWrite(assignments: seq<Id>, w: World, s: Step)
    requires WatchersOk(w) && Enabled(w, s) && !s.LaunchOp?
    ensures var v := Apply(assignments, w, s);
      v.writes == w.writes ||
      (|v.writes| == |w.writes| + 1 && v.writes[..|w.writes|] == w.writes && !v.writes[|w.writes|].cause.LaunchFailed?)
  {
    match s
    case CancelOp(j, reply) =>
    case MonitorOp(k, news) => assert MonitorOk(w, w.monitors[k]);
    case RecoveryOp(r, probe) => assert RecoveryOk(w, w.recoveries[r]);
    case _ =>
  }

  lemma StepKeepsFailures(assignments: seq<Id>, w: World, s: Step)
    requires WatchersOk(w) && FailuresMarked(w) && Enabled(w, s)
    ensures FailuresMarked(Apply(assignments, w, s))
  {
    if s.LaunchOp? {
      LaunchOpKeepsFailures(assignments, w, s.i, s.reply);
    } else {
      var v := Apply(assignments, w, s);
      OtherStepsKeepPoints(assignments, w, s);
      OtherStepsWrite(assignments, w, s);
      forall n | 0 <= n < |v.writes|
        ensures FailureMarked(v.launchers, v.writes[n].cause)
      {
        if n < |w.writes| {
          assert v.writes[n] == v.writes[..|w.writes|][n] == w.writes[n];
          assert FailureMarked(w.launchers, w.writes[n].cause);
        }
      }
    }
  }

  lemma {:induction false} RunKeepsFailures(assignments: seq<Id>, w: World, run: seq<Step>)
    requires Distinct(assignments) && Inv(assignments, w) && FailuresMarked(w) && Legal(assignments, w, run)
    ensures FailuresMarked(Exec(assignments, w, run))
    decreases run
  {
    if run != [] {
      StepKeepsInv(assignments, w, run[0]);
      StepKeepsFailures(assignments, w, run[0]);
      RunKeepsFailures(assignments, Apply(assignments, w, run[0]), run[1..]);
    }
  }

  /** Some write made the session LAUNCHING. */
  predicate WasLaunching(w: World) {
    exists n :: 0 <= n < |w.writes| && w.writes[n].to == Launching
  }

  /** Nobody enters the saga of a session that was never LAUNCHING. */
  predicate EntriesOk(w: World) {
    forall i :: 0 <= i < |w.launchers| && Entered(w.launchers[i].at) ==> WasLaunching(w)
  }

  lemma LaunchingWasWritten(w: World)
    requires WritesOk(w) && w.row.state == Launching
    ensures WasLaunching(w)
  {
    assert w.writes != [] && w.writes[|w.writes| - 1].to == Launching;
  }

  lemma WasLaunchingStays(assignments: seq<Id>, w: World, s: Step)
    requires WasLaunching(w) && Enabled(w, s)
    ensures WasLaunching(Apply(assignments, w, s))
  {
    StepWrites(assignments, w, s);
    var v := Apply(assignments, w, s);
    var n :| 0 <= n < |w.writes| && w.writes[n].to == Launching;
    assert v.writes[n] == v.writes[..|w.writes|][n];
  }

  lemma EntersFromLaunching(assignments: seq<Id>, l: Launcher, row: Row, reply: Reply)
    ensures Entered(Advance(assignments, l, row, reply).next.at) ==> Entered(l.at) || row.state == Launching
  {
    if !Entered(l.at) {
      OutsideMoves(assignments, l, row, reply);
      RouteStaysOutside(l, row, reply);
    }
  }

  lemma RouteStaysOutside(l: Launcher, row: Row, reply: Reply)
    requires !Entered(l.at)
    ensures !Entered(RouteMove(l, row, reply).next.at)
  {
  }

  lemma StepKeepsEntries(assignments: seq<Id>, w: World, s: Step)
    requires WritesOk(w) && EntriesOk(w) && Enabled(w, s)
    ensures EntriesOk(Apply(assignments, w, s))
  {
    var v := Apply(assignments, w, s);
    if WasLaunching(w) {
      WasLaunchingStays(assignments, w, s);
    } else if s.LaunchOp? {
      LaunchersAfter(assignments, w, s.i, s.reply);
      EntersFromLaunching(assignments, w.launchers[s.i], w.row, s.reply);
      if w.row.state == Launching {
        LaunchingWasWritten(w);
      }
    } else {
      OtherStepsKeepPoints(assignments, w, s);
    }
  }

  lemma {:induction false} RunKeepsEntries(assignments: seq<Id>, w: World, run: seq<Step>)
    requires Distinct(assignments) && Inv(assignments, w) && EntriesOk(w) && Legal(assignments, w, run)
    ensures EntriesOk(Exec(assignments, w, run))
    decreases run
  {
    if run != [] {
      StepKeepsInv(assignments, w, run[0]);
      StepKeepsEntries(assignments, w, run[0]);
      RunKeepsEntries(assignments, Apply(assignments, w, run[0]), run[1..]);
    }
  }

  /** A write out of LAUNCHING by a cancel or by another launch request. */
  predicate TakenAway(x: Write, i: nat) {
    && x.from == Launching
    && (x.cause.CancelledBy? || ((x.cause.LaunchFailed? || x.cause.Committed?) && x.cause.request != i))
  }

  /** After a write out of LAUNCHING the session is past LAUNCHING. */
  lemma {:induction false} PastAfterWrite(w: World, n: nat, k: nat)
    requires WritesOk(w) && n < k <= |w.writes| && w.writes[n].from == Launching
    ensures PastLaunching(StateBefore(w.writes, k))
  {
    CauseIsEdge(w, w.writes[k - 1]);
    if k > n + 1 {
      PastAfterWrite(w, n, k - 1);
      assert Linked(w.writes, k - 1);
    }
  }

  /** A session that was LAUNCHING and no longer is went out of it by some write. */
  lemma WriteOutOfLaunching(w: World) returns (n: nat)
    requires WritesOk(w) && WasLaunching(w) && w.row.state != Launching
    ensures n < |w.writes| && w.writes[n].from == Launching
  {
    var m :| 0 <= m < |w.writes| && w.writes[m].to == Launching;
    n := m + 1;
    assert Linked(w.writes, n);
  }

  /** Who can write a session out of LAUNCHING, seen by a request that neither won nor marked. */
  lemma OutOfLaunchingByOthers(w: World, n: nat, i: nat)
    requires WritesOk(w) && WinnerOk(w) && FailuresMarked(w) && n < |w.writes| && w.writes[n].from == Launching
    requires i < |w.launchers| && !Won(w.launchers[i]) && !w.launchers[i].marked
    ensures TakenAway(w.writes[n], i)
  {
    assert CauseOk(w, w.writes[n]) && FailureMarked(w.launchers, w.writes[n].cause);
    assert Won(w.launchers[i]) <==> w.winner == Some(i);
  }

  /**
   * In every run: the finalize of a request that the database does not fail is refused if and only if a
   * cancel or another request of the same session has written it out of LAUNCHING.
   */
  lemma CommitIsRefusedIff(assignments: seq<Id>, run: seq<Step>, i: nat, reply: Reply)
    requires IsRun(assignments, run) && Enabled(Reached(assignments, run), LaunchOp(i, reply)) && !reply.DbFails?
    requires Reached(assignments, run).launchers[i].at == CallFinalize
    ensures var w := Reached(assignments, run);
      !Won(Apply(assignments, w, LaunchOp(i, reply)).launchers[i]) <==>
        exists n :: 0 <= n < |w.writes| && TakenAway(w.writes[n], i)
  {
    InitInv(assignments);
    ReachedInv(assignments, run);
    RunKeepsFailures(assignments, Init(assignments), run);
    RunKeepsEntries(assignments, Init(assignments), run);
    var w := Reached(assignments, run);
    LaunchersAfter(assignments, w, i, reply);
    FinalizeWinsIff(assignments, w.launchers[i], w.row, reply);
    RefusedInInv(assignments, w, i);
  }

  lemma FinalizeWinsIff(assignments: seq<Id>, l: Launcher, row: Row, reply: Reply)
    requires l.at == CallFinalize && l.created != [] && !reply.DbFails?
    ensures Won(Advance(assignments, l, row, reply).next) <==> row.state == Launching
  {
  }

  lemma RefusedInInv(assignments: seq<Id>, w: World, i: nat)
    requires Inv(assignments, w) && FailuresMarked(w) && EntriesOk(w)
    requires i < |w.launchers| && w.launchers[i].at == CallFinalize
    ensures w.row.state != Launching <==> exists n :: 0 <= n < |w.writes| && TakenAway(w.writes[n], i)
  {
    if w.row.state != Launching {
      var n := WriteOutOfLaunching(w);
      OutOfLaunchingByOthers(w, n, i);
    }
    forall n | 0 <= n < |w.writes| && TakenAway(w.writes[n], i)
      ensures w.row.state != Launching
    {
      PastAfterWrite(w, n, |w.writes|);
    }
  }
}
