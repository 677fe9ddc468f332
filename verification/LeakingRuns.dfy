/**
 * Concrete runs that leave workspaces behind: a cancel that loses a launch, a launch whose
 * directive lookup fails, and a rollback without a channel.
 */
module LeakingRuns {
  import opened Options
  import opened SessionState
  import opened SessionStore
  import opened LaunchSaga
  import opened SessionWorld
  import opened SessionTheorems

  /** One more step of a run. */
  lemma {:induction false} Extend(assignments: seq<Id>, w: World, run: seq<Step>, s: Step)
    requires Legal(assignments, w, run) && Enabled(Exec(assignments, w, run), s)
    ensures Legal(assignments, w, run + [s])
    ensures Exec(assignments, w, run + [s]) == Apply(assignments, Exec(assignments, w, run), s)
    decreases run
  {
    if run == [] {
      assert run + [s] == [s];
      assert Legal(assignments, Apply(assignments, w, s), []);
    } else {
      Extend(assignments, Apply(assignments, w, run[0]), run[1..], s);
      assert (run + [s])[0] == run[0] && (run + [s])[1..] == run[1..] + [s];
    }
  }

  /** A one-assignment session with one launch request, one cancel and no aborts. */
  datatype Duel = Duel(launcher: Launcher, cancel: Cancel, row: Row, issued: set<Id>)

  datatype Turn = LaunchTurn(reply: Reply) | CancelTurn

  const DUEL_START := Duel(REQUESTED, CANCEL_START, Row(Configuring, None, map[0 := None]), {})

  predicate InDuel(w: World, d: Duel) {
    && w.launchers == [d.launcher] && w.cancels == [d.cancel] && w.row == d.row
    && w.issued.Keys == d.issued && w.lost == {} && w.aborts == []
  }

  /** The turn can be taken, and requests no abort. */
  predicate TurnOk(d: Duel, t: Turn) {
    match t
    case LaunchTurn(reply) =>
      && d.launcher.alive && (reply.Workspace? ==> reply.id !in d.issued)
      && !Advance([0], d.launcher, d.row, reply).effect.AbortRequest?
    case CancelTurn => d.cancel.alive && CancelAdvance(d.cancel, d.row, Fine).abort.None?
  }

  function TakeTurn(d: Duel, t: Turn): Duel {
    match t
    case LaunchTurn(reply) =>
      var m := Advance([0], d.launcher, d.row, reply);
      Duel(m.next, d.cancel,
           if m.effect.Cas? then Transition(d.row, m.effect.from, m.effect.to)
           else if m.effect.Commit? && d.row.state == Launching then Finalized(d.row, m.effect.root, m.effect.launched)
           else d.row,
           if m.effect.Received? then d.issued + {m.effect.workspace} else d.issued)
    case CancelTurn =>
      var m := CancelAdvance(d.cancel, d.row, Fine);
      d.(cancel := m.next, row := if m.writes then d.row.(state := Cancelled) else d.row)
  }

  /** `duel` lists the states that `turns` lead through. */
  predicate Played(duel: seq<Duel>, turns: seq<Turn>) {
    && |duel| == |turns| + 1
    && duel[0] == DUEL_START
    && forall k :: 0 <= k < |turns| ==> TurnOk(duel[k], turns[k]) && TakeTurn(duel[k], turns[k]) == duel[k + 1]
  }

  lemma TurnIsStep(w: World, d: Duel, t: Turn) returns (s: Step)
    requires InDuel(w, d) && TurnOk(d, t)
    ensures Enabled(w, s) && InDuel(Apply([0], w, s), TakeTurn(d, t))
  {
    s := if t.LaunchTurn? then LaunchOp(0, t.reply) else CancelOp(0, Fine);
  }

  /** Every duel is a run. */
  lemma {:induction false} DuelIsRun(duel: seq<Duel>, turns: seq<Turn>) returns (run: seq<Step>)
    requires Played(duel, turns)
    ensures IsRun([0], run) && InDuel(Reached([0], run), duel[|turns|])
    decreases turns
  {
    if turns == [] {
      run := [StartLaunch, StartCancel];
      Extend([0], Init([0]), [], StartLaunch);
      Extend([0], Init([0]), [] + [StartLaunch], StartCancel);
      assert run == [] + [StartLaunch] + [StartCancel];
    } else {
      var n := |turns| - 1;
      run := DuelIsRun(duel[..n + 1], turns[..n]);
      var s := TurnIsStep(Reached([0], run), duel[n], turns[n]);
      Extend([0], Init([0]), run, s);
      run := run + [s];
    }
  }

  predicate PlayedTo(duel: seq<Duel>, turns: seq<Turn>, d: Duel) {
    Played(duel, turns) && duel[|turns|] == d
  }

  lemma Play(duel: seq<Duel>, turns: seq<Turn>, d: Duel, t: Turn, d': Duel)
    returns (duel': seq<Duel>, turns': seq<Turn>)
    requires PlayedTo(duel, turns, d) && TurnOk(d, t) && TakeTurn(d, t) == d'
    ensures PlayedTo(duel', turns', d')
  {
    duel', turns' := duel + [d'], turns + [t];
  }

  /** The request at `p`, with the row in state `s`. */
  function Lone(p: Point, s: State): Duel {
    DUEL_START.(launcher := REQUESTED.(at := p), row := DUEL_START.row.(state := s))
  }

  /** The same with root workspace 7. */
  function Rooted(p: Point): Duel {
    Duel(REQUESTED.(at := p, created := [7]), CANCEL_START, DUEL_START.row.(state := Launching), {7})
  }

  lemma RoutePart() returns (duel: seq<Duel>, turns: seq<Turn>)
    ensures PlayedTo(duel, turns, Lone(LoadRow, Launching))
  {
    duel, turns := [DUEL_START], [];
    duel, turns := Play(duel, turns, DUEL_START, LaunchTurn(Fine), Lone(RouteToValidating, Configuring));
    duel, turns := Play(duel, turns, Lone(RouteToValidating, Configuring), LaunchTurn(Fine),
                        Lone(RouteValidate, Validating));
    duel, turns := Play(duel, turns, Lone(RouteValidate, Validating), LaunchTurn(Fine),
                        Lone(RouteToLaunching, Validating));
    duel, turns := Play(duel, turns, Lone(RouteToLaunching, Validating), LaunchTurn(Fine), Lone(LoadRow, Launching));
  }

  lemma LoadPart() returns (duel: seq<Duel>, turns: seq<Turn>)
    ensures PlayedTo(duel, turns, Lone(CallSubmitGoal, Launching))
  {
    duel, turns := RoutePart();
    duel, turns := Play(duel, turns, Lone(LoadRow, Launching), LaunchTurn(Fine), Lone(ListAssignments, Launching));
    duel, turns := Play(duel, turns, Lone(ListAssignments, Launching), LaunchTurn(Fine),
                        Lone(AcquireChannel, Launching));
    duel, turns := Play(duel, turns, Lone(AcquireChannel, Launching), LaunchTurn(Fine),
                        Lone(CallSubmitGoal, Launching));
  }

  const READY_TO_FINALIZE :=
    Duel(Launcher(true, CallFinalize, [7, 8], [Placement(0, 8)], [], false, false), CANCEL_START,
         Row(Launching, None, map[0 := None]), {7, 8})

  lemma GoalPart() returns (duel: seq<Duel>, turns: seq<Turn>)
    ensures PlayedTo(duel, turns, Rooted(CallDecompose))
  {
    duel, turns := LoadPart();
    duel, turns := Play(duel, turns,
                        Lone(CallSubmitGoal, Launching), LaunchTurn(Workspace(7)), Rooted(BuildDirectives));
    duel, turns := Play(duel, turns, Rooted(BuildDirectives), LaunchTurn(Fine), Rooted(CallDecompose));
  }

  lemma RuntimePart() returns (duel: seq<Duel>, turns: seq<Turn>)
    ensures PlayedTo(duel, turns, READY_TO_FINALIZE)
  {
    duel, turns := GoalPart();
    duel, turns := Play(duel, turns, Rooted(CallDecompose), LaunchTurn(Tasks(1)), Rooted(CallDispatch));
    duel, turns := Play(duel, turns, Rooted(CallDispatch), LaunchTurn(Workspace(8)), READY_TO_FINALIZE);
  }

  const SAW_LAUNCHING := Cancel(true, CancelReread, Launching, None, [], false)

  const OVERTAKEN :=
    Duel(READY_TO_FINALIZE.launcher.(at := SpawnMonitor), SAW_LAUNCHING,
         Row(Active, Some(7), map[0 := Some(8)]), {7, 8})

  /** The finalize overtakes a cancel that has read LAUNCHING. */
  lemma FinalizeOvertakesCancel() returns (duel: seq<Duel>, turns: seq<Turn>)
    ensures PlayedTo(duel, turns, OVERTAKEN)
  {
    duel, turns := RuntimePart();
    var row := READY_TO_FINALIZE.row;
    assert Place(row.workspaces, [Placement(0, 8)][..0]) == row.workspaces;
    assert Finalized(row, 7, [Placement(0, 8)]) == OVERTAKEN.row;
    duel, turns := Play(duel, turns, READY_TO_FINALIZE, CancelTurn, READY_TO_FINALIZE.(cancel := SAW_LAUNCHING));
    duel, turns := Play(duel, turns, READY_TO_FINALIZE.(cancel := SAW_LAUNCHING), LaunchTurn(Fine), OVERTAKEN);
  }

  /** The cancel then writes CANCELLED and returns success. */
  lemma CancelFinishes() returns (duel: seq<Duel>, turns: seq<Turn>)
    ensures PlayedTo(duel, turns, OVERTAKEN.(row := OVERTAKEN.row.(state := Cancelled),
                                             cancel := SAW_LAUNCHING.(at := CancelReturned(true))))
  {
    duel, turns := FinalizeOvertakesCancel();
    var writing := OVERTAKEN.(cancel := SAW_LAUNCHING.(at := CancelWrite));
    var cleaning := OVERTAKEN.(row := OVERTAKEN.row.(state := Cancelled),
                               cancel := SAW_LAUNCHING.(at := CancelCleanup));
    duel, turns := Play(duel, turns, OVERTAKEN, CancelTurn, writing);
    duel, turns := Play(duel, turns, writing, CancelTurn, cleaning);
    duel, turns := Play(duel, turns, cleaning, CancelTurn,
                        cleaning.(cancel := SAW_LAUNCHING.(at := CancelReturned(true))));
  }

  /**
   * The promise that a session is not left CANCELLED with its workspaces
   * alive fails: the launched workspaces of this CANCELLED session are aborted
   * by nobody.
   */
  lemma CancelCanLeakALaunch() returns (run: seq<Step>)
    ensures IsRun([0], run)
    ensures var w := Reached([0], run);
      && w.row == Row(Cancelled, Some(7), map[0 := Some(8)]) && w.aborts == []
      && |w.launchers| == 1 && Won(w.launchers[0])
      && |w.cancels| == 1 && w.cancels[0].at == CancelReturned(true)
  {
    var duel, turns := CancelFinishes();
    run := DuelIsRun(duel, turns);
  }

  /**
   * A launch that fails is said to leave its session FAILED and its workspaces rolled back. One whose
   * directive lookup fails after SubmitGoal leaves it LAUNCHING, with its root aborted by nobody.
   */
  lemma FailedLookupLeaksTheRoot() returns (run: seq<Step>)
    ensures IsRun([0], run)
    ensures var w := Reached([0], run);
      && w.row == Row(Launching, None, map[0 := None]) && w.aborts == []
      && |w.launchers| == 1 && w.launchers[0].at == Returned(DbError) && w.launchers[0].created == [7]
  {
    var duel, turns := LoadPart();
    duel, turns := Play(duel, turns,
                        Lone(CallSubmitGoal, Launching), LaunchTurn(Workspace(7)), Rooted(BuildDirectives));
    duel, turns := Play(duel, turns, Rooted(BuildDirectives), LaunchTurn(DbFails), Rooted(Returned(DbError)));
    run := DuelIsRun(duel, turns);
  }

  /** A step error whose rollback finds no channel leaves its session FAILED and its root aborted by nobody. */
  lemma RollbackWithoutChannelLeaks() returns (run: seq<Step>)
    ensures IsRun([0], run)
    ensures var w := Reached([0], run);
      && w.row == Row(Failed, None, map[0 := None]) && w.aborts == []
      && |w.launchers| == 1 && w.launchers[0].at == Returned(StepError(Decompose)) && w.launchers[0].created == [7]
  {
    var duel, turns := GoalPart();
    var error := StepError(Decompose);
    duel, turns := Play(duel, turns, Rooted(CallDecompose), LaunchTurn(RpcFails), Rooted(RollbackConnect(error)));
    duel, turns := SkipRollback(duel, turns, error);
    run := DuelIsRun(duel, turns);
  }

  lemma SkipRollback(duel: seq<Duel>, turns: seq<Turn>, error: Outcome)
    returns (duel': seq<Duel>, turns': seq<Turn>)
    requires PlayedTo(duel, turns, Rooted(RollbackConnect(error)))
    ensures var d := Rooted(Returned(error));
      PlayedTo(duel', turns', d.(launcher := d.launcher.(rollbackSkipped := true, marked := true),
                                 row := d.row.(state := Failed)))
  {
    var marking := Rooted(MarkFailed(error));
    marking := marking.(launcher := marking.launcher.(rollbackSkipped := true));
    var done := Rooted(Returned(error));
    done := done.(launcher := done.launcher.(rollbackSkipped := true, marked := true),
                  row := done.row.(state := Failed));
    duel', turns' := Play(duel, turns, Rooted(RollbackConnect(error)), LaunchTurn(NoChannel), marking);
    duel', turns' := Play(duel', turns', marking, LaunchTurn(Fine), done);
  }
}
