/**
 * What the session protocol guarantees over every run, and where it falls
 * short of its documentation.
 */
module SessionTheorems {
  import opened Options
  import opened SessionState
  import opened SessionStore
  import opened LaunchSaga
  import opened SessionWorld
  import opened SessionInvariant
  import opened SessionSteps

  /** The world after a run of a freshly configured session. */
  function Reached(assignments: seq<Id>, run: seq<Step>): World
    requires Legal(assignments, Init(assignments), run)
  {
    Exec(assignments, Init(assignments), run)
  }

  predicate IsRun(assignments: seq<Id>, run: seq<Step>) {
    Distinct(assignments) && Legal(assignments, Init(assignments), run)
  }

  lemma ReachedInv(assignments: seq<Id>, run: seq<Step>)
    requires IsRun(assignments, run)
    ensures Inv(assignments, Reached(assignments, run))
  {
    InitInv(assignments);
    RunKeepsInv(assignments, Init(assignments), run);
  }

  // The launch saga under concurrency

  /** At most one launch request ever returns Active, and the row then carries exactly its ids. */
  lemma LaunchHasOneWinner(assignments: seq<Id>, run: seq<Step>, i: nat, j: nat)
    requires IsRun(assignments, run)
    requires var w := Reached(assignments, run);
      i < |w.launchers| && Won(w.launchers[i]) && j < |w.launchers|
    ensures var w := Reached(assignments, run);
      var l := w.launchers[i];
      && (Won(w.launchers[j]) ==> j == i)
      && |l.created| == |assignments| + 1
      && w.row.coordinator == Some(l.created[0])
      && w.row.workspaces.Keys == (set a | a in assignments)
      && forall k :: 0 <= k < |assignments| ==> w.row.workspaces[assignments[k]] == Some(l.created[k + 1])
  {
    ReachedInv(assignments, run);
  }

  /** No request's rollback ever aborts a workspace of another request; a winner's are aborted by no rollback. */
  lemma RollbackAbortsOnlyItsOwn(assignments: seq<Id>, run: seq<Step>, n: nat, i: nat, k: nat)
    requires IsRun(assignments, run)
    requires var w := Reached(assignments, run);
      && n < |w.aborts| && i < |w.launchers| && k < |w.launchers[i].created|
      && w.aborts[n].workspace == w.launchers[i].created[k]
    ensures var w := Reached(assignments, run);
      if w.aborts[n].who.ByLaunch? then w.aborts[n].who == ByLaunch(i) && !Won(w.launchers[i])
      else Won(w.launchers[i]) && k == 0
  {
    ReachedInv(assignments, run);
    AbortNamesItsOwn(assignments, Reached(assignments, run), n, i, k);
  }

  lemma AbortNamesItsOwn(assignments: seq<Id>, w: World, n: nat, i: nat, k: nat)
    requires Inv(assignments, w)
    requires n < |w.aborts| && i < |w.launchers| && k < |w.launchers[i].created|
    requires w.aborts[n].workspace == w.launchers[i].created[k]
    ensures if w.aborts[n].who.ByLaunch? then w.aborts[n].who == ByLaunch(i) && !Won(w.launchers[i])
            else Won(w.launchers[i]) && k == 0
  {
    var a := w.aborts[n];
    assert w.issued[a.workspace] == Slot(i, k);
    match a.who {
      case ByLaunch(j) =>
        AbortsByContains(w.aborts, n);
        AbortedWereCreated(assignments, w.launchers[j]);
        var m :| 0 <= m < |w.launchers[j].created| && w.launchers[j].created[m] == a.workspace;
        assert w.issued[a.workspace] == Slot(j, m);
      case ByCancel(j) =>
        var v := w.winner.value;
        assert w.launchers[v].created[0] == a.workspace;
        assert w.issued[a.workspace] == Slot(v, 0);
    }
  }

  lemma {:induction false} AbortsByContains(aborts: seq<Abort>, n: nat)
    requires n < |aborts|
    ensures aborts[n].workspace in AbortsBy(aborts, aborts[n].who)
  {
    if n < |aborts| - 1 {
      var front := aborts[..|aborts| - 1];
      AbortsByContains(front, n);
      assert front[n] == aborts[n];
    }
  }

  lemma AbortedWereCreated(assignments: seq<Id>, l: Launcher)
    requires LauncherOk(assignments, l)
    ensures forall x :: x in l.aborted ==> x in l.created
  {
  }

  /** A launch that returns a step error has asked for exactly one abort of every workspace it was given. */
  lemma StepErrorRollsBackExactly(assignments: seq<Id>, run: seq<Step>, i: nat)
    requires IsRun(assignments, run)
    requires var w := Reached(assignments, run);
      && i < |w.launchers| && w.launchers[i].at.Returned? && w.launchers[i].at.outcome.StepError?
    ensures var w := Reached(assignments, run);
      var l := w.launchers[i];
      && AbortsBy(w.aborts, ByLaunch(i)) == (if l.rollbackSkipped then [] else l.created)
      && forall k, m :: 0 <= k < m < |l.created| ==> l.created[k] != l.created[m]
  {
    ReachedInv(assignments, run);
    var w := Reached(assignments, run);
    var l := w.launchers[i];
    assert LauncherOk(assignments, l);
    forall k, m | 0 <= k < m < |l.created|
      ensures l.created[k] != l.created[m]
    {
      assert w.issued[l.created[k]] == Slot(i, k) && w.issued[l.created[m]] == Slot(i, m);
    }
  }

  // The row

  lemma CauseIsEdge(w: World, x: Write)
    requires CauseOk(w, x)
    ensures ValidTransition(x.from, x.to)
  {
  }

  /** Every update that matches is an edge of the data model, and together they are one path. */
  lemma EveryWriteIsAnEdge(assignments: seq<Id>, run: seq<Step>)
    requires IsRun(assignments, run)
    ensures var w := Reached(assignments, run);
      && (forall n :: 0 <= n < |w.writes| ==> ValidTransition(w.writes[n].from, w.writes[n].to))
      && (forall n :: 0 <= n < |w.writes| ==> Linked(w.writes, n))
      && w.row.state == StateBefore(w.writes, |w.writes|)
      && (w.row.state == Active ==> w.row.coordinator.Some?)
  {
    ReachedInv(assignments, run);
    var w := Reached(assignments, run);
    forall n | 0 <= n < |w.writes|
      ensures ValidTransition(w.writes[n].from, w.writes[n].to)
    {
      CauseIsEdge(w, w.writes[n]);
    }
  }

  /** No launch request moves a session out of ACTIVE, or out of a terminal state. */
  lemma LaunchNeverWritesPastLaunching(assignments: seq<Id>, run: seq<Step>, n: nat)
    requires IsRun(assignments, run)
    requires n < |Reached(assignments, run).writes|
    ensures var x := Reached(assignments, run).writes[n];
      x.cause.Route? || x.cause.LaunchFailed? || x.cause.Committed? ==>
        x.from != Active && !IsTerminal(x.from) && (x.to == Failed ==> x.from == Launching)
  {
    ReachedInv(assignments, run);
    assert CauseOk(Reached(assignments, run), Reached(assignments, run).writes[n]);
  }

  /** A step adds at most one write, and changes the state only with it. */
  lemma StepWrites(assignments: seq<Id>, w: World, s: Step)
    requires Enabled(w, s)
    ensures var w' := Apply(assignments, w, s);
      if w'.writes == w.writes then w'.row.state == w.row.state
      else |w'.writes| == |w.writes| + 1 && w'.writes[..|w.writes|] == w.writes
  {
    match s
    case LaunchOp(i, reply) =>
      var m := Advance(assignments, w.launchers[i], w.row, reply);
      LaunchEffectWrites(w.(launchers := w.launchers[i := m.next]), i, |w.launchers[i].created|, m.effect);
    case _ =>
  }

  lemma LaunchEffectWrites(w: World, i: nat, place: nat, e: Effect)
    ensures var w' := LaunchEffect(w, i, place, e);
      if w'.writes == w.writes then w'.row.state == w.row.state
      else |w'.writes| == |w.writes| + 1 && w'.writes[..|w.writes|] == w.writes
  {
  }

  predicate PastValidation(s: State) {
    s == Launching || s == Active || IsTerminal(s)
  }

  /** The history only grew, and every write used up rank. */
  predicate UsesUpRank(w: World, v: World) {
    && |w.writes| <= |v.writes| && v.writes[..|w.writes|] == w.writes
    && PastValidation(v.row.state)
    && |v.writes| + Rank(v.row.state) <= |w.writes| + Rank(w.row.state)
    && (|v.writes| == |w.writes| ==> v.row.state == w.row.state)
  }

  lemma UsesUpRankTransitive(u: World, v: World, w: World)
    requires UsesUpRank(u, v) && UsesUpRank(v, w)
    ensures UsesUpRank(u, w)
  {
    assert w.writes[..|u.writes|] == w.writes[..|v.writes|][..|u.writes|];
  }

  /** Past validation a write uses up rank. */
  lemma WriteUsesUpRank(assignments: seq<Id>, w: World, s: Step)
    requires Distinct(assignments) && Inv(assignments, w) && Enabled(w, s) && PastValidation(w.row.state)
    ensures Inv(assignments, Apply(assignments, w, s)) && UsesUpRank(w, Apply(assignments, w, s))
  {
    StepKeepsInv(assignments, w, s);
    StepWrites(assignments, w, s);
    RankDrops(w, Apply(assignments, w, s));
  }

  lemma RankDrops(w: World, v: World)
    requires WritesOk(w) && WritesOk(v) && PastValidation(w.row.state)
    requires if v.writes == w.writes then v.row.state == w.row.state
             else |v.writes| == |w.writes| + 1 && v.writes[..|w.writes|] == w.writes
    ensures UsesUpRank(w, v)
  {
    if v.writes != w.writes {
      NewWriteIsEdge(w, v);
    }
  }

  lemma NewWriteIsEdge(w: World, v: World)
    requires WritesOk(w) && WritesOk(v) && |v.writes| == |w.writes| + 1 && v.writes[..|w.writes|] == w.writes
    ensures ValidTransition(w.row.state, v.row.state)
  {
    var n := |w.writes|;
    assert Linked(v.writes, n);
    assert n > 0 ==> v.writes[n - 1] == v.writes[..n][n - 1];
    CauseIsEdge(v, v.writes[n]);
  }

  /** Two writes are left from LAUNCHING, one from ACTIVE, none from a terminal state. */
  lemma {:induction false} WritesUseUpRank(assignments: seq<Id>, w: World, run: seq<Step>)
    requires Distinct(assignments) && Inv(assignments, w) && Legal(assignments, w, run)
    requires PastValidation(w.row.state)
    ensures UsesUpRank(w, Exec(assignments, w, run))
    decreases run
  {
    if run != [] {
      var v := Apply(assignments, w, run[0]);
      WriteUsesUpRank(assignments, w, run[0]);
      WritesUseUpRank(assignments, v, run[1..]);
      UsesUpRankTransitive(w, v, Exec(assignments, v, run[1..]));
    }
  }

  /** Once LAUNCHING, at most two further updates match; once terminal, none do. */
  lemma TerminalStatesAbsorb(assignments: seq<Id>, run: seq<Step>, more: seq<Step>)
    requires IsRun(assignments, run) && Legal(assignments, Reached(assignments, run), more)
    ensures var w := Reached(assignments, run);
      var w' := Exec(assignments, w, more);
      && (w.row.state == Launching ==> |w'.writes| <= |w.writes| + 2)
      && (IsTerminal(w.row.state) ==> w'.row.state == w.row.state && w'.writes == w.writes)
  {
    ReachedInv(assignments, run);
    var w := Reached(assignments, run);
    if PastValidation(w.row.state) {
      WritesUseUpRank(assignments, w, more);
      var w' := Exec(assignments, w, more);
      assert |w'.writes| == |w.writes| ==> w'.writes[..|w.writes|] == w'.writes;
    }
  }

  // Crashes and recovery

  /** The causes that end an ACTIVE session other than its root workspace ending. */
  predicate Forced(c: Cause) {
    c.CancelledBy? || c.MonitorFatal? || c.RecoveryMissing? || c.RecoveryRpc?
  }

  /**
   * Wherever the console crashes and restarts: an ACTIVE session takes the
   * state its root workspace ended in, whether a monitor or a recovery writes
   * it, unless a cancel, a stream's last failure, a missing workspace or an
   * unexpected probe error came first.
   */
  lemma ActiveEndsAsItsRootDoes(assignments: seq<Id>, run: seq<Step>, n: nat)
    requires IsRun(assignments, run)
    requires var w := Reached(assignments, run);
      n < |w.writes| && w.writes[n].from == Active
    ensures var w := Reached(assignments, run);
      var x := w.writes[n];
      var root := w.row.coordinator;
      && root.Some?
      && if Forced(x.cause) then x.to == if x.cause.CancelledBy? then Cancelled else Failed
         else
           && (x.cause == MonitorSaw(root.value) || x.cause == RecoverySaw(root.value))
           && root.value in w.ended && x.to == StateFor(w.ended[root.value])
  {
    ReachedInv(assignments, run);
    var w := Reached(assignments, run);
    assert CauseOk(w, w.writes[n]);
    if w.writes[n].cause.CancelledBy? {
      WasActiveHasCoordinator(assignments, w, n);
    }
  }

  /** Only a commit makes a session ACTIVE. */
  lemma WasActiveHasCoordinator(assignments: seq<Id>, w: World, n: nat)
    requires Inv(assignments, w) && n < |w.writes| && w.writes[n].from == Active
    ensures w.row.coordinator.Some?
  {
    assert Linked(w.writes, n);
    assert CauseOk(w, w.writes[n - 1]);
  }

  /** The session left ACTIVE with write `n` because its root was seen to have ended as `e`. */
  predicate SeenToEnd(w: World, n: nat, e: Ending) {
    && n < |w.writes| && w.writes[n].from == Active && !Forced(w.writes[n].cause)
    && w.row.coordinator.Some? && w.row.coordinator.value in w.ended && w.ended[w.row.coordinator.value] == e
  }

  /** Two runs, crashed and restarted anywhere, whose roots ended alike and were seen to, end alike. */
  lemma CrashPlacementDoesNotMatter(
      assignments: seq<Id>, run1: seq<Step>, run2: seq<Step>, n1: nat, n2: nat, e: Ending)
    requires IsRun(assignments, run1) && SeenToEnd(Reached(assignments, run1), n1, e)
    requires IsRun(assignments, run2) && SeenToEnd(Reached(assignments, run2), n2, e)
    ensures Reached(assignments, run1).row.state == Reached(assignments, run2).row.state == StateFor(e)
  {
    LeftActiveForGood(assignments, run1, n1);
    LeftActiveForGood(assignments, run2, n2);
  }

  /** The write that takes a session out of ACTIVE is its last. */
  lemma LeftActiveForGood(assignments: seq<Id>, run: seq<Step>, n: nat)
    requires IsRun(assignments, run)
    requires var w := Reached(assignments, run); n < |w.writes| && w.writes[n].from == Active
    ensures var w := Reached(assignments, run); n == |w.writes| - 1 && w.row.state == w.writes[n].to
    ensures var w := Reached(assignments, run);
      !Forced(w.writes[n].cause) ==>
        w.row.coordinator.Some? && w.row.coordinator.value in w.ended
        && w.row.state == StateFor(w.ended[w.row.coordinator.value])
  {
    ReachedInv(assignments, run);
    var w := Reached(assignments, run);
    ActiveEndsAsItsRootDoes(assignments, run, n);
    if n + 1 < |w.writes| {
      assert Linked(w.writes, n + 1);
      CauseIsEdge(w, w.writes[n]);
      CauseIsEdge(w, w.writes[n + 1]);
    }
  }

  /** A probe that finds the runtime unavailable ends the recovery and changes nothing else. */
  lemma UnavailableProbeChangesNothing(assignments: seq<Id>, w: World, r: nat)
    requires r < |w.recoveries| && w.recoveries[r].Probing?
    ensures Apply(assignments, w, RecoveryOp(r, Unavailable)) == w.(recoveries := w.recoveries[r := Finished])
  {
  }

  // Where the code falls short of its documentation

  /**
   * A cancel that succeeded asked for its session's root to be aborted if and
   * only if it had read the session as ACTIVE; the best-effort abort of a
   * LAUNCHING session never has a workspace to abort.
   */
  lemma CancelAbortsIffItSawActive(assignments: seq<Id>, run: seq<Step>, j: nat)
    requires IsRun(assignments, run)
    requires var w := Reached(assignments, run);
      j < |w.cancels| && CancelWrote(w.cancels[j])
    ensures var w := Reached(assignments, run);
      var c := w.cancels[j];
      && (AbortsBy(w.aborts, ByCancel(j)) != [] <==> c.seen == Active)
      && (c.seen == Active ==> w.row.coordinator.Some? && AbortsBy(w.aborts, ByCancel(j)) == [w.row.coordinator.value])
  {
    ReachedInv(assignments, run);
    var w := Reached(assignments, run);
    assert CancelOk(w, w.cancels[j]);
  }

  /** A LAUNCHING row that no live launch request can still move. */
  predicate Stuck(w: World) {
    && w.row.state == Launching
    && forall i :: 0 <= i < |w.launchers| ==>
         !w.launchers[i].alive || w.launchers[i].at.Returned? || w.launchers[i].at.RouteRead?
  }

  /** The world stays stuck without a write, or a cancel ends the session. */
  predicate StuckOr(w: World, v: World, s: Step) {
    || (Stuck(v) && v.writes == w.writes)
    || (&& v.row.state == Cancelled && s.CancelOp?
        && v.writes == w.writes + [Write(Launching, Cancelled, CancelledBy(s.j))])
  }

  lemma StuckLaunchOp(assignments: seq<Id>, w: World, i: nat, reply: Reply)
    requires Stuck(w) && Enabled(w, LaunchOp(i, reply))
    ensures StuckOr(w, LaunchStepOf(assignments, w, i, reply), LaunchOp(i, reply))
  {
    var l := w.launchers[i];
    assert l.at.Returned? || l.at.RouteRead?;
    var m := Advance(assignments, l, w.row, reply);
    assert m.next.at.Returned? && m.effect == Silent;
    assert LaunchStepOf(assignments, w, i, reply) == w.(launchers := w.launchers[i := m.next]);
  }

  lemma StuckCancelOp(w: World, j: nat, reply: Reply)
    requires Stuck(w) && CancelsOk(w) && w.row.coordinator.None? && Enabled(w, CancelOp(j, reply))
    ensures StuckOr(w, CancelStepOf(w, j, reply), CancelOp(j, reply))
  {
    assert CancelOk(w, w.cancels[j]);
    var m := CancelAdvance(w.cancels[j], w.row, reply);
    var v := CancelStepOf(w, j, reply);
    assert v.launchers == w.launchers;
    if m.writes {
      assert v.writes == w.writes + [Write(Launching, Cancelled, CancelledBy(j))];
    } else {
      assert v.row == w.row && v.writes == w.writes;
    }
  }

  lemma StuckWatcherOp(assignments: seq<Id>, w: World, s: Step)
    requires Stuck(w) && Enabled(w, s) && !s.LaunchOp? && !s.CancelOp?
    ensures StuckOr(w, Apply(assignments, w, s), s)
  {
    var v := Apply(assignments, w, s);
    assert v.row == w.row && v.writes == w.writes;
    assert forall i :: 0 <= i < |w.launchers| ==> v.launchers[i].at == w.launchers[i].at;
  }

  lemma StuckStep(assignments: seq<Id>, w: World, s: Step)
    requires Inv(assignments, w) && Stuck(w) && Enabled(w, s)
    ensures StuckOr(w, Apply(assignments, w, s), s)
  {
    if s.LaunchOp? {
      StuckLaunchOp(assignments, w, s.i, s.reply);
    } else if s.CancelOp? {
      StuckCancelOp(w, s.j, s.answer);
    } else {
      StuckWatcherOp(assignments, w, s);
    }
  }

  /**
   * A crash in the middle of a launch leaves the session LAUNCHING through any
   * number of restarts, recoveries and new launch requests: the one thing that
   * can still move it is a cancel.
   */
  lemma {:induction false} OnlyCancelFreesStuck(assignments: seq<Id>, w: World, run: seq<Step>)
    requires Distinct(assignments) && Inv(assignments, w) && Stuck(w) && Legal(assignments, w, run)
    ensures var w' := Exec(assignments, w, run);
      || (w'.row.state == Launching && w'.writes == w.writes)
      || (&& w'.row.state == Cancelled
          && exists j :: w'.writes == w.writes + [Write(Launching, Cancelled, CancelledBy(j))])
    decreases run
  {
    if run != [] {
      var v := Apply(assignments, w, run[0]);
      StepKeepsInv(assignments, w, run[0]);
      StuckStep(assignments, w, run[0]);
      if Stuck(v) {
        OnlyCancelFreesStuck(assignments, v, run[1..]);
      } else {
        WritesUseUpRank(assignments, v, run[1..]);
        var w' := Exec(assignments, v, run[1..]);
        assert w'.writes == w'.writes[..|v.writes|] == v.writes;
        assert w'.writes == w.writes + [Write(Launching, Cancelled, CancelledBy(run[0].j))];
      }
    }
  }

  lemma CrashMidLaunchIsStuck(assignments: seq<Id>, run: seq<Step>, more: seq<Step>)
    requires IsRun(assignments, run) && Reached(assignments, run).row.state == Launching
    requires Legal(assignments, CrashAndRestart(Reached(assignments, run)), more)
    ensures var w := Reached(assignments, run);
      var w' := Exec(assignments, CrashAndRestart(w), more);
      || (w'.row.state == Launching && w'.writes == w.writes)
      || (&& w'.row.state == Cancelled
          && exists j :: w'.writes == w.writes + [Write(Launching, Cancelled, CancelledBy(j))])
  {
    ReachedInv(assignments, run);
    var w := Reached(assignments, run);
    CrashKeepsInv(assignments, w);
    OnlyCancelFreesStuck(assignments, CrashAndRestart(w), more);
  }

  /** The recovery branch for an ACTIVE session without a workspace id is never taken. */
  lemma RecoveryNeverFindsStuck(assignments: seq<Id>, run: seq<Step>, r: nat)
    requires IsRun(assignments, run) && r < |Reached(assignments, run).recoveries|
    ensures var x := Reached(assignments, run).recoveries[r];
      x.Marking? ==> x.mark.cause != RecoveryStuck
  {
    ReachedInv(assignments, run);
    assert RecoveryOk(Reached(assignments, run), Reached(assignments, run).recoveries[r]);
  }
}
