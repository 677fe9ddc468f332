/**
 * When a cancelled session's committed launch is aborted, and when it never will be
 * (wacp-console/crates/console-api/src/routes/sessions.rs).
 */
module CancelledLaunch {
  import opened Options
  import opened SessionState
  import opened SessionStore
  import opened LaunchSaga
  import opened SessionWorld
  import opened SessionInvariant
  import opened SessionSteps
  import opened SessionTheorems

  /** Somebody asked the runtime to abort the workspace. */
  predicate AbortAsked(w: World, id: Id) {
    exists n :: 0 <= n < |w.aborts| && w.aborts[n].workspace == id
  }

  // The cancels that have asked

  /** The cancel read the session as ACTIVE and found a channel. */
  predicate HasAsked(c: Cancel) {
    c.seen == Active && c.connected
  }

  predicate SomeAsked(w: World) {
    exists j :: 0 <= j < |w.cancels| && HasAsked(w.cancels[j])
  }

  lemma {:induction false} AbortsByFrom(aborts: seq<Abort>, who: Requester, id: Id)
    requires id in AbortsBy(aborts, who)
    ensures exists n :: 0 <= n < |aborts| && aborts[n].workspace == id
  {
    var n := |aborts| - 1;
    if aborts[n].workspace != id {
      AbortsByFrom(aborts[..n], who, id);
      var k :| 0 <= k < n && aborts[..n][k].workspace == id;
      assert aborts[k].workspace == id;
    }
  }

  lemma AskingCancel(w: World, j: nat, id: Id)
    requires AbortLogOk(w) && CancelsOk(w) && j < |w.cancels| && id in AbortsBy(w.aborts, ByCancel(j))
    ensures HasAsked(w.cancels[j])
  {
    assert CancelOk(w, w.cancels[j]);
  }

  lemma CancelsAbort(w: World, j: nat, root: Id)
    requires AbortLogOk(w) && CancelsOk(w) && w.row.coordinator == Some(root)
    requires j < |w.cancels| && HasAsked(w.cancels[j])
    ensures AbortAsked(w, root)
  {
    assert CancelOk(w, w.cancels[j]);
    AbortsByFrom(w.aborts, ByCancel(j), root);
  }

  /** The committed root was asked to be aborted exactly if some cancel has asked. */
  lemma RootIsAbortedIff(assignments: seq<Id>, w: World, root: Id)
    requires Inv(assignments, w) && w.row.coordinator == Some(root)
    ensures AbortAsked(w, root) <==> SomeAsked(w)
  {
    var i := w.winner.value;
    assert w.launchers[i].created[0] == root;
    forall n | 0 <= n < |w.aborts| && w.aborts[n].workspace == root
      ensures SomeAsked(w)
    {
      assert Won(w.launchers[i]) <==> w.winner == Some(i);
      AbortNamesItsOwn(assignments, w, n, i, 0);
      AbortsByContains(w.aborts, n);
      AskingCancel(w, w.aborts[n].who.cancel, root);
    }
    forall j | 0 <= j < |w.cancels| && HasAsked(w.cancels[j])
      ensures AbortAsked(w, root)
    {
      CancelsAbort(w, j, root);
    }
  }

  // The steps with which they asked

  /** A cancel that read ACTIVE gets a channel. */
  predicate StepAsks(w: World, s: Step) {
    s.CancelOp? && s.j < |w.cancels| && w.cancels[s.j].at == CancelAbort && !s.answer.NoChannel?
  }

  /** Somewhere in the run a cancel that read ACTIVE gets a channel. */
  predicate RunAsks(assignments: seq<Id>, w: World, run: seq<Step>)
    requires Legal(assignments, w, run)
    decreases run
  {
    run != [] && (StepAsks(w, run[0]) || RunAsks(assignments, Apply(assignments, w, run[0]), run[1..]))
  }

  lemma CancelAdvanceAsks(w: World, c: Cancel, reply: Reply)
    requires CancelOk(w, c)
    ensures var m := CancelAdvance(c, w.row, reply);
      HasAsked(m.next) <==> HasAsked(c) || (c.at == CancelAbort && !reply.NoChannel?)
  {
  }

  /** Any other step leaves the cancels as they were, starts one, or kills them. */
  lemma OtherStepsKeepCancels(assignments: seq<Id>, w: World, s: Step)
    requires Enabled(w, s) && !s.CancelOp?
    ensures var v := Apply(assignments, w, s);
      && |v.cancels| >= |w.cancels|
      && (forall j :: 0 <= j < |w.cancels| ==>
            v.cancels[j] == w.cancels[j] || (s.CrashRestart? && v.cancels[j] == w.cancels[j].(alive := false)))
      && forall j :: |w.cancels| <= j < |v.cancels| ==> v.cancels[j] == CANCEL_START
  {
    if s.LaunchOp? {
      LaunchKeepsCancels(assignments, w, s.i, s.reply);
    }
  }

  lemma LaunchKeepsCancels(assignments: seq<Id>, w: World, i: nat, reply: Reply)
    requires i < |w.launchers|
    ensures LaunchStepOf(assignments, w, i, reply).cancels == w.cancels
  {
  }

  lemma CancelsAfter(w: World, j: nat, reply: Reply)
    requires j < |w.cancels|
    ensures CancelStepOf(w, j, reply).cancels == w.cancels[j := CancelAdvance(w.cancels[j], w.row, reply).next]
  {
  }

  lemma StepAsksOnce(assignments: seq<Id>, w: World, s: Step)
    requires CancelsOk(w) && Enabled(w, s)
    ensures SomeAsked(Apply(assignments, w, s)) <==> SomeAsked(w) || StepAsks(w, s)
  {
    var v := Apply(assignments, w, s);
    if s.CancelOp? {
      CancelsAfter(w, s.j, s.answer);
      assert CancelOk(w, w.cancels[s.j]);
      CancelAdvanceAsks(w, w.cancels[s.j], s.answer);
      assert HasAsked(v.cancels[s.j]) <==> HasAsked(w.cancels[s.j]) || StepAsks(w, s);
      assert forall j :: 0 <= j < |w.cancels| && j != s.j ==> v.cancels[j] == w.cancels[j];
    } else {
      OtherStepsKeepCancels(assignments, w, s);
      assert forall j :: 0 <= j < |w.cancels| ==> HasAsked(v.cancels[j]) == HasAsked(w.cancels[j]);
    }
  }

  lemma {:induction false} RunAsksIff(assignments: seq<Id>, w: World, run: seq<Step>)
    requires Distinct(assignments) && Inv(assignments, w) && Legal(assignments, w, run)
    ensures SomeAsked(Exec(assignments, w, run)) <==> SomeAsked(w) || RunAsks(assignments, w, run)
    decreases run
  {
    if run != [] {
      StepKeepsInv(assignments, w, run[0]);
      StepAsksOnce(assignments, w, run[0]);
      RunAsksIff(assignments, Apply(assignments, w, run[0]), run[1..]);
    }
  }

  /**
   * In every run: the root of the launch that committed was asked to be aborted if and only if some
   * cancel that had read the session as ACTIVE got a channel when it wanted one.
   */
  lemma CommittedRootIsAbortedIff(assignments: seq<Id>, run: seq<Step>, root: Id)
    requires IsRun(assignments, run) && Reached(assignments, run).row.coordinator == Some(root)
    ensures AbortAsked(Reached(assignments, run), root) <==> RunAsks(assignments, Init(assignments), run)
  {
    InitInv(assignments);
    ReachedInv(assignments, run);
    RunAsksIff(assignments, Init(assignments), run);
    RootIsAbortedIff(assignments, Reached(assignments, run), root);
  }

  // The leak

  /** The session was ended by a cancel that had read it before the commit. */
  predicate EndedByStaleCancel(w: World) {
    && w.writes != [] && w.writes[|w.writes| - 1].cause.CancelledBy?
    && var j := w.writes[|w.writes| - 1].cause.cancel;
       j < |w.cancels| && w.cancels[j].seen != Active
  }

  /**
   * A session is left CANCELLED with nobody asked to abort its committed launch exactly when no cancel
   * that read it as ACTIVE got a channel; the cancel that ended it had then read it before the commit.
   */
  lemma CancelledLaunchLeaksIff(assignments: seq<Id>, run: seq<Step>, root: Id)
    requires IsRun(assignments, run)
    requires Reached(assignments, run).row.state == Cancelled && Reached(assignments, run).row.coordinator == Some(root)
    ensures var w := Reached(assignments, run);
      && (!AbortAsked(w, root) <==> !RunAsks(assignments, Init(assignments), run))
      && (!AbortAsked(w, root) ==> EndedByStaleCancel(w))
  {
    CommittedRootIsAbortedIff(assignments, run, root);
    ReachedInv(assignments, run);
    RootIsAbortedIff(assignments, Reached(assignments, run), root);
    UnaskedIsStale(Reached(assignments, run));
  }

  lemma UnaskedIsStale(w: World)
    requires WritesOk(w) && CancelsOk(w) && w.row.state == Cancelled
    ensures !SomeAsked(w) ==> EndedByStaleCancel(w)
  {
    assert w.writes != [];
    var x := w.writes[|w.writes| - 1];
    assert CauseOk(w, x);
    assert CancelOk(w, w.cancels[x.cause.cancel]);
    assert w.cancels[x.cause.cancel].seen == Active ==> HasAsked(w.cancels[x.cause.cancel]);
  }

  // The leak is for good

  /** An ended session with no cancel that has asked or can still ask. */
  predicate NobodyWillAsk(w: World) {
    && IsTerminal(w.row.state)
    && forall j :: 0 <= j < |w.cancels| ==>
         !HasAsked(w.cancels[j]) && (w.cancels[j].alive ==> w.cancels[j].at != CancelAbort)
  }

  lemma EndedCancelOp(w: World, c: Cancel, reply: Reply)
    requires CancelOk(w, c) && IsTerminal(w.row.state) && !HasAsked(c) && c.at != CancelAbort
    ensures var n := CancelAdvance(c, w.row, reply).next; !HasAsked(n) && n.at != CancelAbort
  {
  }

  /** Nothing changes the row of an ended session. */
  lemma EndedRowStays(assignments: seq<Id>, w: World, s: Step)
    requires LaunchersOk(assignments, w) && Enabled(w, s) && IsTerminal(w.row.state)
    ensures Apply(assignments, w, s).row == w.row
  {
    if s.LaunchOp? {
      AdvanceShape(assignments, w.launchers[s.i], w.row, s.reply);
    } else if s.CancelOp? {
      EndedCancelWrites(w.cancels[s.j], w.row, s.answer);
    }
  }

  lemma EndedCancelWrites(c: Cancel, row: Row, reply: Reply)
    requires IsTerminal(row.state)
    ensures !CancelAdvance(c, row, reply).writes
  {
  }

  lemma NobodyWillAskStep(assignments: seq<Id>, w: World, s: Step)
    requires Inv(assignments, w) && NobodyWillAsk(w) && Enabled(w, s)
    ensures NobodyWillAsk(Apply(assignments, w, s))
  {
    var v := Apply(assignments, w, s);
    EndedRowStays(assignments, w, s);
    if s.CancelOp? {
      CancelsAfter(w, s.j, s.answer);
      assert CancelOk(w, w.cancels[s.j]);
      EndedCancelOp(w, w.cancels[s.j], s.answer);
    } else {
      OtherStepsKeepCancels(assignments, w, s);
    }
  }

  lemma {:induction false} NobodyEverAsks(assignments: seq<Id>, w: World, run: seq<Step>)
    requires Distinct(assignments) && Inv(assignments, w) && NobodyWillAsk(w) && Legal(assignments, w, run)
    ensures var v := Exec(assignments, w, run); Inv(assignments, v) && NobodyWillAsk(v) && v.row == w.row
    decreases run
  {
    if run != [] {
      StepKeepsInv(assignments, w, run[0]);
      EndedRowStays(assignments, w, run[0]);
      NobodyWillAskStep(assignments, w, run[0]);
      NobodyEverAsks(assignments, Apply(assignments, w, run[0]), run[1..]);
    }
  }

  /**
   * Once a session is CANCELLED with its committed launch aborted by nobody, and no live cancel is about to
   * ask, no continuation ever asks: neither recoveries nor restarts nor further cancels reconcile it.
   */
  lemma LeakIsForGood(assignments: seq<Id>, run: seq<Step>, more: seq<Step>, root: Id)
    requires IsRun(assignments, run) && Legal(assignments, Reached(assignments, run), more)
    requires var w := Reached(assignments, run);
      && w.row.state == Cancelled && w.row.coordinator == Some(root) && !AbortAsked(w, root)
      && forall j :: 0 <= j < |w.cancels| && w.cancels[j].alive ==> w.cancels[j].at != CancelAbort
    ensures !AbortAsked(Exec(assignments, Reached(assignments, run), more), root)
  {
    ReachedInv(assignments, run);
    var w := Reached(assignments, run);
    RootIsAbortedIff(assignments, w, root);
    NobodyEverAsks(assignments, w, more);
    RootIsAbortedIff(assignments, Exec(assignments, w, more), root);
  }
}
