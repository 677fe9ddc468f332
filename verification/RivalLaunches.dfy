/**
 * A concrete run of two launch requests for one session in which both enter the saga and neither wins
 * (wacp-console/crates/console-api/src/routes/sessions.rs).
 */
module RivalLaunches {
  import opened Options
  import opened SessionState
  import opened SessionStore
  import opened LaunchSaga
  import opened SessionWorld
  import opened SessionTheorems
  import opened LeakingRuns

  /** A one-assignment session with two launch requests and no cancel. */
  datatype Rivals = Rivals(first: Launcher, second: Launcher, row: Row, issued: set<Id>)

  /** An operation of the first or of the second request, and the reply it meets. */
  datatype Play = First(reply: Reply) | Second(reply: Reply)

  const CONFIGURED := Row(Configuring, None, map[0 := None])

  predicate InRivals(w: World, r: Rivals) {
    && w.launchers == [r.first, r.second] && w.row == r.row
    && w.issued.Keys == r.issued && w.lost == {} && w.cancels == []
  }

  function Mover(r: Rivals, p: Play): Launcher {
    if p.First? then r.first else r.second
  }

  predicate PlayOk(r: Rivals, p: Play) {
    Mover(r, p).alive && (p.reply.Workspace? ==> p.reply.id !in r.issued)
  }

  /** The row after a guarded update or a refused commit; no commit succeeds here. */
  function RowAfter(row: Row, e: Effect): Row {
    if e.Cas? then Transition(row, e.from, e.to) else row
  }

  function TakePlay(r: Rivals, p: Play): Rivals {
    var m := Advance([0], Mover(r, p), r.row, p.reply);
    Rivals(if p.First? then m.next else r.first, if p.First? then r.second else m.next,
           RowAfter(r.row, m.effect),
           if m.effect.Received? then r.issued + {m.effect.workspace} else r.issued)
  }

  lemma PlayIsStep(w: World, r: Rivals, p: Play) returns (s: Step)
    requires InRivals(w, r) && PlayOk(r, p) && !Advance([0], Mover(r, p), r.row, p.reply).effect.Commit?
    ensures Enabled(w, s) && InRivals(Apply([0], w, s), TakePlay(r, p))
  {
    s := LaunchOp(if p.First? then 0 else 1, p.reply);
  }

  /** A run of the two requests that leads to `r`. */
  ghost predicate RunTo(run: seq<Step>, r: Rivals) {
    IsRun([0], run) && InRivals(Reached([0], run), r)
  }

  lemma Next(run: seq<Step>, r: Rivals, p: Play, r': Rivals) returns (longer: seq<Step>)
    requires RunTo(run, r) && PlayOk(r, p) && !Advance([0], Mover(r, p), r.row, p.reply).effect.Commit?
    requires TakePlay(r, p) == r'
    ensures RunTo(longer, r')
  {
    var s := PlayIsStep(Reached([0], run), r, p);
    Extend([0], Init([0]), run, s);
    longer := run + [s];
  }

  lemma Start() returns (run: seq<Step>)
    ensures RunTo(run, Rivals(REQUESTED, REQUESTED, CONFIGURED, {}))
  {
    Extend([0], Init([0]), [], StartLaunch);
    Extend([0], Init([0]), [] + [StartLaunch], StartLaunch);
    run := [] + [StartLaunch] + [StartLaunch];
  }

  /** The requests at points `p` and `q` before either has a workspace. */
  function Bare(p: Point, q: Point, s: State): Rivals {
    Rivals(REQUESTED.(at := p), REQUESTED.(at := q), CONFIGURED.(state := s), {})
  }

  /** Both read CONFIGURING before either writes. */
  lemma BothRead() returns (run: seq<Step>)
    ensures RunTo(run, Bare(RouteToValidating, RouteToValidating, Configuring))
  {
    run := Start();
    var begin := Bare(RouteRead, RouteRead, Configuring);
    run := Next(run, begin, First(Fine), Bare(RouteToValidating, RouteRead, Configuring));
    run := Next(run, Bare(RouteToValidating, RouteRead, Configuring), Second(Fine),
                Bare(RouteToValidating, RouteToValidating, Configuring));
  }

  /** The second request's updates miss, and it goes on all the same. */
  lemma BothValidate() returns (run: seq<Step>)
    ensures RunTo(run, Bare(RouteToLaunching, RouteToLaunching, Validating))
  {
    run := BothRead();
    run := Next(run, Bare(RouteToValidating, RouteToValidating, Configuring), First(Fine),
                Bare(RouteValidate, RouteToValidating, Validating));
    run := Next(run, Bare(RouteValidate, RouteToValidating, Validating), Second(Fine),
                Bare(RouteValidate, RouteValidate, Validating));
    run := Next(run, Bare(RouteValidate, RouteValidate, Validating), First(Fine),
                Bare(RouteToLaunching, RouteValidate, Validating));
    run := Next(run, Bare(RouteToLaunching, RouteValidate, Validating), Second(Fine),
                Bare(RouteToLaunching, RouteToLaunching, Validating));
  }

  lemma BothEnter() returns (run: seq<Step>)
    ensures RunTo(run, Bare(ListAssignments, ListAssignments, Launching))
  {
    run := BothValidate();
    run := Next(run, Bare(RouteToLaunching, RouteToLaunching, Validating), First(Fine),
                Bare(LoadRow, RouteToLaunching, Launching));
    run := Next(run, Bare(LoadRow, RouteToLaunching, Launching), Second(Fine), Bare(LoadRow, LoadRow, Launching));
    run := Next(run, Bare(LoadRow, LoadRow, Launching), First(Fine), Bare(ListAssignments, LoadRow, Launching));
    run := Next(run, Bare(ListAssignments, LoadRow, Launching), Second(Fine),
                Bare(ListAssignments, ListAssignments, Launching));
  }

  lemma BothConnect() returns (run: seq<Step>)
    ensures RunTo(run, Bare(CallSubmitGoal, CallSubmitGoal, Launching))
  {
    run := BothEnter();
    run := Next(run, Bare(ListAssignments, ListAssignments, Launching), First(Fine),
                Bare(AcquireChannel, ListAssignments, Launching));
    run := Next(run, Bare(AcquireChannel, ListAssignments, Launching), First(Fine),
                Bare(CallSubmitGoal, ListAssignments, Launching));
    run := Next(run, Bare(CallSubmitGoal, ListAssignments, Launching), Second(Fine),
                Bare(CallSubmitGoal, AcquireChannel, Launching));
    run := Next(run, Bare(CallSubmitGoal, AcquireChannel, Launching), Second(Fine),
                Bare(CallSubmitGoal, CallSubmitGoal, Launching));
  }

  /** The requests with roots 7 and 9. */
  function Rooted(p: Point, q: Point, s: State): Rivals {
    Rivals(REQUESTED.(at := p, created := [7]), REQUESTED.(at := q, created := [9]), CONFIGURED.(state := s), {7, 9})
  }

  lemma BothReceive() returns (run: seq<Step>)
    ensures RunTo(run, Rooted(BuildDirectives, BuildDirectives, Launching))
  {
    run := BothConnect();
    var half := Rivals(REQUESTED.(at := BuildDirectives, created := [7]), REQUESTED.(at := CallSubmitGoal),
                       CONFIGURED.(state := Launching), {7});
    run := Next(run, Bare(CallSubmitGoal, CallSubmitGoal, Launching), First(Workspace(7)), half);
    run := Next(run, half, Second(Workspace(9)), Rooted(BuildDirectives, BuildDirectives, Launching));
  }

  lemma BothSubmit() returns (run: seq<Step>)
    ensures RunTo(run, Rooted(CallDecompose, CallDecompose, Launching))
  {
    run := BothReceive();
    run := Next(run, Rooted(BuildDirectives, BuildDirectives, Launching), First(Fine),
                Rooted(CallDecompose, BuildDirectives, Launching));
    run := Next(run, Rooted(CallDecompose, BuildDirectives, Launching), Second(Fine),
                Rooted(CallDecompose, CallDecompose, Launching));
  }

  const DECOMPOSE_ERROR := StepError(Decompose)

  /** The second request, rolled back and returned. */
  const BEATEN := REQUESTED.(at := Returned(DECOMPOSE_ERROR), created := [9], aborted := [9], marked := true)

  lemma SecondConnects() returns (run: seq<Step>)
    ensures RunTo(run, Rooted(CallDecompose, RollbackAbort(DECOMPOSE_ERROR), Launching))
  {
    run := BothSubmit();
    var r1 := Rooted(CallDecompose, RollbackConnect(DECOMPOSE_ERROR), Launching);
    run := Next(run, Rooted(CallDecompose, CallDecompose, Launching), Second(RpcFails), r1);
    run := Next(run, r1, Second(Fine), Rooted(CallDecompose, RollbackAbort(DECOMPOSE_ERROR), Launching));
  }

  /** The second request fails, rolls back its own workspace and marks the session FAILED. */
  lemma SecondFails() returns (run: seq<Step>)
    ensures RunTo(run, Rooted(CallDecompose, CallDecompose, Failed).(second := BEATEN))
  {
    run := SecondConnects();
    var r2 := Rooted(CallDecompose, RollbackAbort(DECOMPOSE_ERROR), Launching);
    var r3 := r2.(second := r2.second.(at := MarkFailed(DECOMPOSE_ERROR), aborted := [9]));
    run := Next(run, r2, Second(Fine), r3);
    run := Next(run, r3, Second(Fine), Rooted(CallDecompose, CallDecompose, Failed).(second := BEATEN));
  }

  /** The first request, at point `p` with all its workspaces, on the FAILED session. */
  function Complete(p: Point, aborted: seq<Id>): Rivals {
    Rivals(REQUESTED.(at := p, created := [7, 8], launched := [Placement(0, 8)], aborted := aborted), BEATEN,
           CONFIGURED.(state := Failed), {7, 8, 9})
  }

  lemma FirstCompletes() returns (run: seq<Step>)
    ensures RunTo(run, Complete(CallFinalize, []))
  {
    run := SecondFails();
    var r0 := Rooted(CallDecompose, CallDecompose, Failed).(second := BEATEN);
    var r1 := Rooted(CallDispatch, CallDecompose, Failed).(second := BEATEN);
    run := Next(run, r0, First(Tasks(1)), r1);
    run := Next(run, r1, First(Workspace(8)), Complete(CallFinalize, []));
  }

  const FINALIZE_ERROR := StepError(Finalize)

  /** Its commit is refused, because the other request's failure has already ended the session. */
  lemma FirstIsRefused() returns (run: seq<Step>)
    ensures RunTo(run, Complete(RollbackAbort(FINALIZE_ERROR), []))
  {
    run := FirstCompletes();
    var r1 := Complete(RollbackConnect(FINALIZE_ERROR), []);
    run := Next(run, Complete(CallFinalize, []), First(Fine), r1);
    run := Next(run, r1, First(Fine), Complete(RollbackAbort(FINALIZE_ERROR), []));
  }

  lemma FirstRollsBack() returns (run: seq<Step>)
    ensures RunTo(run, Complete(MarkFailed(FINALIZE_ERROR), [7, 8]))
  {
    run := FirstIsRefused();
    var r1 := Complete(RollbackAbort(FINALIZE_ERROR), [7]);
    run := Next(run, Complete(RollbackAbort(FINALIZE_ERROR), []), First(Fine), r1);
    run := Next(run, r1, First(Fine), Complete(MarkFailed(FINALIZE_ERROR), [7, 8]));
  }

  /**
   * Concurrent launches are said to be serialized, with a conflict for the loser. Here two launches of one
   * session both enter the saga, the failure of one ends the session under the other, which had every
   * workspace it needed, and both return step errors: neither is refused with a conflict and nobody wins.
   */
  lemma RivalsCanBothLose() returns (run: seq<Step>)
    ensures IsRun([0], run)
    ensures var w := Reached([0], run);
      && w.row.state == Failed && w.row.coordinator == None && w.cancels == [] && |w.launchers| == 2
      && w.launchers[0].at == Returned(StepError(Finalize)) && w.launchers[0].created == [7, 8]
      && w.launchers[1].at == Returned(StepError(Decompose)) && w.launchers[1].created == [9]
  {
    run := FirstRollsBack();
    var last := Complete(Returned(FINALIZE_ERROR), [7, 8]);
    run := Next(run, Complete(MarkFailed(FINALIZE_ERROR), [7, 8]), First(Fine),
                last.(first := last.first.(marked := true)));
  }
}
