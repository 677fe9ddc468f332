/**
 * One launch request: the launch route's state changes followed by the launch
 * saga (wacp-console/crates/console-api/src/routes/sessions.rs and
 * wacp-console/crates/console-core/src/session_launcher.rs).
 *
 * `Advance` is the request as an automaton that does one awaited operation at
 * a time, so that many requests can be interleaved. `Launch` is the saga in
 * the form the console runs it, proved to follow the automaton.
 */
module LaunchSaga {
  import opened SessionState
  import opened SessionStore

  datatype LaunchStep = SubmitGoal | Decompose | Dispatch | Finalize

  datatype Outcome =
    | LaunchedActive(root: Id, launched: seq<Placement>)
    | AlreadyActive(state: State)
    | UnexpectedState(state: State)
    | NoAssignments
    | PoolUnavailable
    | StepError(step: LaunchStep)
    | DbError
    | NotConfiguring
    | ValidationFailed

  /** The operation a request awaits next. */
  datatype Point =
    | RouteRead
    | RouteToValidating
    | RouteValidate
    | RouteToConfiguring
    | RouteToLaunching
    | LoadRow
    | ListAssignments
    | AcquireChannel
    | CallSubmitGoal
    | BuildDirectives
    | CallDecompose
    | CallDispatch
    | CallFinalize
    | RollbackConnect(error: Outcome)
    | RollbackAbort(error: Outcome)
    | MarkFailed(error: Outcome)
    | SpawnMonitor
    | Returned(outcome: Outcome)

  /**
   * `created` are the workspace ids the runtime returned to this request, root
   * first; `aborted` those it has asked the runtime to abort. `rollbackSkipped`
   * records a rollback without a channel, `marked` that the update of
   * `mark_failed` reached the database.
   */
  datatype Launcher = Launcher(
    alive: bool,
    at: Point,
    created: seq<Id>,
    launched: seq<Placement>,
    aborted: seq<Id>,
    rollbackSkipped: bool,
    marked: bool)

  const REQUESTED := Launcher(true, RouteRead, [], [], [], false, false)

  /** What the awaited operation came back with. */
  datatype Reply =
    | Fine
    | Invalid
    | DbFails
    | NoChannel
    | RpcFails
    | Workspace(id: Id)
    | Tasks(count: nat)

  /** What one operation does outside the request. */
  datatype Effect =
    | Silent
    | Cas(from: State, to: State)
    | Commit(root: Id, launched: seq<Placement>)
    | AbortRequest(workspace: Id)
    | Received(workspace: Id)
    | Spawn(root: Id)

  datatype Move = Move(next: Launcher, effect: Effect)

  function Goto(l: Launcher, p: Point): Move {
    Move(l.(at := p), Silent)
  }

  /** The route's part: validation and the change to LAUNCHING. */
  function RouteMove(l: Launcher, row: Row, reply: Reply): Move {
    match l.at
    case RouteRead =>
      if reply.DbFails? then Goto(l, Returned(DbError))
      else if row.state != Configuring then Goto(l, Returned(NotConfiguring))
      else Goto(l, RouteToValidating)
    case RouteToValidating =>
      if reply.DbFails? then Goto(l, Returned(DbError))
      else Move(l.(at := RouteValidate), Cas(Configuring, Validating))
    case RouteValidate =>
      if reply.Invalid? then Goto(l, RouteToConfiguring) else Goto(l, RouteToLaunching)
    case RouteToConfiguring =>
      if reply.DbFails? then Goto(l, Returned(ValidationFailed))
      else Move(l.(at := Returned(ValidationFailed)), Cas(Validating, Configuring))
    case RouteToLaunching =>
      if reply.DbFails? then Goto(l, Returned(DbError))
      else Move(l.(at := LoadRow), Cas(Validating, Launching))
    case _ => Move(l, Silent)
  }

  /** Loading the session, and what the saga does without receiving ids. */
  function PrepareMove(assignments: seq<Id>, l: Launcher, row: Row, reply: Reply): Move {
    match l.at
    case LoadRow =>
      if reply.DbFails? then Goto(l, Returned(DbError))
      else if row.state == Launching then Goto(l, ListAssignments)
      else if row.state == Active || IsTerminal(row.state) then Goto(l, Returned(AlreadyActive(row.state)))
      else Goto(l, Returned(UnexpectedState(row.state)))
    case ListAssignments =>
      if reply.DbFails? then Goto(l, Returned(DbError))
      else if assignments == [] then Goto(l, MarkFailed(NoAssignments))
      else Goto(l, AcquireChannel)
    case AcquireChannel =>
      if reply.NoChannel? then Goto(l, Returned(PoolUnavailable)) else Goto(l, CallSubmitGoal)
    case BuildDirectives =>
      if reply.DbFails? then Goto(l, Returned(DbError)) else Goto(l, CallDecompose)
    case CallDecompose =>
      if reply == Tasks(|assignments|) then Goto(l, CallDispatch)
      else Goto(l, RollbackConnect(StepError(Decompose)))
    case _ => Move(l, Silent)
  }

  /** The calls that create workspaces, and the finalize transaction. */
  function CreateMove(assignments: seq<Id>, l: Launcher, row: Row, reply: Reply): Move {
    match l.at
    case CallSubmitGoal =>
      if reply.Workspace? then Move(l.(at := BuildDirectives, created := [reply.id]), Received(reply.id))
      else Goto(l, MarkFailed(StepError(SubmitGoal)))
    case CallDispatch =>
      if !reply.Workspace? then Goto(l, RollbackConnect(StepError(Dispatch)))
      else if |l.launched| < |assignments| then
        var launched := l.launched + [Placement(assignments[|l.launched|], reply.id)];
        Move(l.(at := if |launched| == |assignments| then CallFinalize else CallDispatch,
                created := l.created + [reply.id],
                launched := launched),
             Received(reply.id))
      else Goto(l, CallFinalize)
    case CallFinalize =>
      if reply.DbFails? || row.state != Launching || l.created == [] then
        Goto(l, RollbackConnect(StepError(Finalize)))
      else Move(l.(at := SpawnMonitor), Commit(l.created[0], l.launched))
    case _ => Move(l, Silent)
  }

  /** What follows the saga: the rollback, or the session's monitor. */
  function EndMove(l: Launcher, reply: Reply): Move {
    match l.at
    case RollbackConnect(error) =>
      if reply.NoChannel? then Goto(l.(rollbackSkipped := true), MarkFailed(error))
      else Goto(l, RollbackAbort(error))
    case RollbackAbort(error) =>
      if |l.aborted| < |l.created| then
        var workspace := l.created[|l.aborted|];
        var aborted := l.aborted + [workspace];
        Move(l.(aborted := aborted,
                at := if |aborted| == |l.created| then MarkFailed(error) else RollbackAbort(error)),
             AbortRequest(workspace))
      else Goto(l, MarkFailed(error))
    case MarkFailed(error) =>
      if reply.DbFails? then Goto(l, Returned(error))
      else Move(l.(at := Returned(error), marked := true), Cas(Launching, Failed))
    case SpawnMonitor =>
      if l.created == [] then Move(l, Silent)
      else Move(l.(at := Returned(LaunchedActive(l.created[0], l.launched))), Spawn(l.created[0]))
    case _ => Move(l, Silent)
  }

  predicate InRoute(p: Point) {
    p.RouteRead? || p.RouteToValidating? || p.RouteValidate? || p.RouteToConfiguring? || p.RouteToLaunching?
  }

  predicate InCreate(p: Point) {
    p.CallSubmitGoal? || p.CallDispatch? || p.CallFinalize?
  }

  predicate InEnd(p: Point) {
    p.RollbackConnect? || p.RollbackAbort? || p.MarkFailed? || p.SpawnMonitor? || p.Returned?
  }

  /** One awaited operation of a request that finds the session row as `row`. */
  function Advance(assignments: seq<Id>, l: Launcher, row: Row, reply: Reply): Move {
    if InRoute(l.at) then RouteMove(l, row, reply)
    else if InEnd(l.at) then EndMove(l, reply)
    else if InCreate(l.at) then CreateMove(assignments, l, row, reply)
    else PrepareMove(assignments, l, row, reply)
  }

  /** The request holds the committed launch. */
  predicate Won(l: Launcher) {
    l.at.SpawnMonitor? || (l.at.Returned? && l.at.outcome.LaunchedActive?)
  }

  /** Placements recorded so far: the first assignments, each with its own workspace. */
  predicate Paired(assignments: seq<Id>, l: Launcher) {
    && |l.launched| <= |assignments|
    && (l.launched == [] || |l.created| == |l.launched| + 1)
    && forall k :: 0 <= k < |l.launched| ==>
         l.launched[k] == Placement(assignments[k], l.created[k + 1])
  }

  predicate RolledBack(l: Launcher) {
    if l.rollbackSkipped then l.aborted == [] else l.aborted == l.created
  }

  /** No rollback has begun. */
  predicate Untouched(l: Launcher) {
    l.aborted == [] && !l.rollbackSkipped
  }

  /** No workspace has been created yet. */
  predicate Early(p: Point) {
    || InRoute(p) || p.LoadRow? || p.ListAssignments? || p.AcquireChannel? || p.CallSubmitGoal?
    || p == MarkFailed(NoAssignments)
  }

  /** How many workspaces the request holds at each point. */
  predicate CountsOk(assignments: seq<Id>, l: Launcher) {
    && (Early(l.at) ==> l.created == [] && l.launched == [])
    && (l.at.AcquireChannel? || l.at.CallSubmitGoal? ==> assignments != [])
    && (l.at.BuildDirectives? || l.at.CallDecompose? ==> |l.created| == 1 && l.launched == [] && assignments != [])
    && (l.at.CallDispatch? ==> |l.created| == |l.launched| + 1 && |l.launched| < |assignments|)
    && (l.at.CallFinalize? || Won(l) ==> |l.created| == |assignments| + 1 && |l.launched| == |assignments|)
    && (l.at.Returned? && l.at.outcome.LaunchedActive? ==> l.at.outcome == LaunchedActive(l.created[0], l.launched))
    && (l.at.RollbackConnect? || l.at.RollbackAbort? ==> l.created != [] && l.at.error.StepError?)
    && (l.at.MarkFailed? ==> l.at.error.StepError? || l.at.error.NoAssignments?)
    && (l.at.Returned? && !Won(l) && !l.at.outcome.StepError? ==>
          l.created == [] || (l.at.outcome.DbError? && |l.created| == 1))
  }

  /** How far the rollback has come at each point. */
  predicate UndoOk(l: Launcher) {
    if l.at.RollbackAbort? then
      |l.aborted| < |l.created| && l.aborted == l.created[..|l.aborted|] && !l.rollbackSkipped
    else if l.at.MarkFailed? then
      RolledBack(l)
    else if l.at.Returned? then
      if l.at.outcome.StepError? then RolledBack(l) else l.aborted == []
    else
      Untouched(l)
  }

  /** What the saga keeps at each point. */
  predicate LauncherOk(assignments: seq<Id>, l: Launcher) {
    Paired(assignments, l) && CountsOk(assignments, l) && UndoOk(l)
  }

  lemma SubmitKeepsLauncherOk(assignments: seq<Id>, l: Launcher, row: Row, reply: Reply)
    requires LauncherOk(assignments, l) && l.at.CallSubmitGoal?
    ensures LauncherOk(assignments, CreateMove(assignments, l, row, reply).next)
  {
  }

  lemma DispatchKeepsLauncherOk(assignments: seq<Id>, l: Launcher, row: Row, reply: Reply)
    requires LauncherOk(assignments, l) && l.at.CallDispatch?
    ensures LauncherOk(assignments, CreateMove(assignments, l, row, reply).next)
  {
  }

  lemma FinalizeKeepsLauncherOk(assignments: seq<Id>, l: Launcher, row: Row, reply: Reply)
    requires LauncherOk(assignments, l) && l.at.CallFinalize?
    ensures LauncherOk(assignments, CreateMove(assignments, l, row, reply).next)
  {
  }

  lemma LoadKeepsLauncherOk(assignments: seq<Id>, l: Launcher, row: Row, reply: Reply)
    requires LauncherOk(assignments, l) && (l.at.LoadRow? || l.at.ListAssignments? || l.at.AcquireChannel?)
    ensures LauncherOk(assignments, PrepareMove(assignments, l, row, reply).next)
  {
  }

  lemma DecomposeKeepsLauncherOk(assignments: seq<Id>, l: Launcher, row: Row, reply: Reply)
    requires LauncherOk(assignments, l) && (l.at.BuildDirectives? || l.at.CallDecompose?)
    ensures LauncherOk(assignments, PrepareMove(assignments, l, row, reply).next)
  {
  }

  lemma RouteKeepsLauncherOk(assignments: seq<Id>, l: Launcher, row: Row, reply: Reply)
    requires LauncherOk(assignments, l) && InRoute(l.at)
    ensures LauncherOk(assignments, RouteMove(l, row, reply).next)
  {
  }

  lemma EndKeepsLauncherOk(assignments: seq<Id>, l: Launcher, reply: Reply)
    requires LauncherOk(assignments, l) && InEnd(l.at)
    ensures LauncherOk(assignments, EndMove(l, reply).next)
  {
    if l.at.RollbackAbort? {
      var n := |l.aborted|;
      assert l.created[..n] + [l.created[n]] == l.created[..n + 1];
      assert l.created[..|l.created|] == l.created;
    }
  }

  lemma AdvanceKeepsLauncherOk(assignments: seq<Id>, l: Launcher, row: Row, reply: Reply)
    requires LauncherOk(assignments, l)
    ensures LauncherOk(assignments, Advance(assignments, l, row, reply).next)
  {
    if InRoute(l.at) {
      RouteKeepsLauncherOk(assignments, l, row, reply);
    } else if InEnd(l.at) {
      EndKeepsLauncherOk(assignments, l, reply);
    } else if l.at.CallSubmitGoal? {
      SubmitKeepsLauncherOk(assignments, l, row, reply);
    } else if l.at.CallDispatch? {
      DispatchKeepsLauncherOk(assignments, l, row, reply);
    } else if l.at.CallFinalize? {
      FinalizeKeepsLauncherOk(assignments, l, row, reply);
    } else if l.at.BuildDirectives? || l.at.CallDecompose? {
      DecomposeKeepsLauncherOk(assignments, l, row, reply);
    } else {
      LoadKeepsLauncherOk(assignments, l, row, reply);
    }
  }

  /** An operation's effect is what it adds to the request's lists. */
  predicate ListsFollow(l: Launcher, m: Move) {
    && m.next.created == (if m.effect.Received? then l.created + [m.effect.workspace] else l.created)
    && m.next.aborted == (if m.effect.AbortRequest? then l.aborted + [m.effect.workspace] else l.aborted)
  }

  lemma CreateLists(assignments: seq<Id>, l: Launcher, row: Row, reply: Reply)
    requires l.at.CallSubmitGoal? ==> l.created == []
    ensures ListsFollow(l, CreateMove(assignments, l, row, reply))
  {
  }

  lemma PrepareLists(assignments: seq<Id>, l: Launcher, row: Row, reply: Reply)
    ensures ListsFollow(l, PrepareMove(assignments, l, row, reply))
  {
  }

  lemma RouteLists(l: Launcher, row: Row, reply: Reply)
    ensures ListsFollow(l, RouteMove(l, row, reply))
  {
  }

  lemma EndLists(l: Launcher, reply: Reply)
    ensures ListsFollow(l, EndMove(l, reply))
  {
  }

  lemma AdvanceLists(assignments: seq<Id>, l: Launcher, row: Row, reply: Reply)
    requires LauncherOk(assignments, l)
    ensures ListsFollow(l, Advance(assignments, l, row, reply))
  {
    CreateLists(assignments, l, row, reply);
    PrepareLists(assignments, l, row, reply);
    RouteLists(l, row, reply);
    EndLists(l, reply);
  }

  // The saga as the console runs it

  /** The row and the reply that one awaited operation meets. */
  datatype Await = Await(row: Row, reply: Reply)

  /** Operation `k` did what the automaton does, to the request and outside it. */
  predicate StepAt(assignments: seq<Id>, env: nat -> Await, effects: seq<Effect>, trace: seq<Launcher>, k: nat)
    requires k < |effects| && |trace| == |effects| + 1
  {
    Advance(assignments, trace[k], env(k).row, env(k).reply) == Move(trace[k + 1], effects[k])
  }

  /** These are the effects of the automaton's first operations, which lead it through `trace`. */
  predicate Performed(assignments: seq<Id>, env: nat -> Await, effects: seq<Effect>, trace: seq<Launcher>) {
    && |trace| == |effects| + 1 && trace[0] == REQUESTED.(at := LoadRow)
    && forall k :: 0 <= k < |effects| ==> StepAt(assignments, env, effects, trace, k)
  }

  function Last(trace: seq<Launcher>): Launcher
    requires trace != []
  {
    trace[|trace| - 1]
  }

  /** An operation of the procedure that does what the automaton does next. */
  lemma Act(assignments: seq<Id>, env: nat -> Await, effects: seq<Effect>, trace: seq<Launcher>, e: Effect)
    returns (longer: seq<Launcher>)
    requires Performed(assignments, env, effects, trace)
    requires e == Advance(assignments, Last(trace), env(|effects|).row, env(|effects|).reply).effect
    ensures Performed(assignments, env, effects + [e], longer)
    ensures Last(longer) == Advance(assignments, Last(trace), env(|effects|).row, env(|effects|).reply).next
  {
    var n := |effects|;
    longer := trace + [Advance(assignments, Last(trace), env(n).row, env(n).reply).next];
    forall k | 0 <= k <= n
      ensures StepAt(assignments, env, effects + [e], longer, k)
    {
      assert k < n ==> StepAt(assignments, env, effects, trace, k);
    }
  }

  /** The workspaces received, in order. */
  function ReceivedIn(effects: seq<Effect>): seq<Id> {
    if effects == [] then []
    else
      var e, before := effects[|effects| - 1], ReceivedIn(effects[..|effects| - 1]);
      if e.Received? then before + [e.workspace] else before
  }

  /** The aborts requested, in order. */
  function AbortsIn(effects: seq<Effect>): seq<Id> {
    if effects == [] then []
    else
      var e, before := effects[|effects| - 1], AbortsIn(effects[..|effects| - 1]);
      if e.AbortRequest? then before + [e.workspace] else before
  }

  /** The update that `mark_failed` makes, if the database lets it. */
  function Marking(reply: Reply): Effect {
    if reply.DbFails? then Silent else Cas(Launching, Failed)
  }

  function AbortRequests(workspaces: seq<Id>): seq<Effect> {
    seq(|workspaces|, i requires 0 <= i < |workspaces| => AbortRequest(workspaces[i]))
  }

  /** The last operation was `mark_failed`. */
  predicate EndsMarking(env: nat -> Await, effects: seq<Effect>) {
    effects != [] && effects[|effects| - 1] == Marking(env(|effects| - 1).reply)
  }

  /** `rollback`: abort every workspace, unless no channel is available; then `mark_failed`. */
  method Fail(assignments: seq<Id>, env: nat -> Await, done: seq<Effect>, workspaces: seq<Id>, step: LaunchStep,
              ghost past: seq<Launcher>)
    returns (effects: seq<Effect>, ghost trace: seq<Launcher>)
    requires workspaces != []
    requires Performed(assignments, env, done, past)
    requires var l := Last(past);
      l.at == RollbackConnect(StepError(step)) && l.created == workspaces && Untouched(l)
    ensures Performed(assignments, env, effects, trace)
    ensures var skipped := env(|done|).reply.NoChannel?;
      Last(trace) == Last(past).(at := Returned(StepError(step)), aborted := if skipped then [] else workspaces,
                                 rollbackSkipped := skipped, marked := Last(trace).marked)
    ensures var aborts := if env(|done|).reply.NoChannel? then [] else AbortRequests(workspaces);
      effects == done + [Silent] + aborts + [Marking(env(|done| + 1 + |aborts|).reply)]
  {
    var reply := env(|done|).reply;
    trace := Act(assignments, env, done, past, Silent);
    effects := done + [Silent];
    if !reply.NoChannel? {
      effects, trace := AbortAll(assignments, env, effects, workspaces, step, trace);
    }
    effects, trace := MarkSessionFailed(assignments, env, effects, trace);
  }

  /** The loop of `rollback`. */
  method AbortAll(assignments: seq<Id>, env: nat -> Await, done: seq<Effect>, workspaces: seq<Id>, step: LaunchStep,
                  ghost past: seq<Launcher>)
    returns (effects: seq<Effect>, ghost trace: seq<Launcher>)
    requires workspaces != []
    requires Performed(assignments, env, done, past)
    requires var l := Last(past);
      l.at == RollbackAbort(StepError(step)) && l.created == workspaces && l.aborted == []
    ensures Performed(assignments, env, effects, trace)
    ensures Last(trace) == Last(past).(at := MarkFailed(StepError(step)), aborted := workspaces)
    ensures effects == done + AbortRequests(workspaces)
  {
    effects, trace := done, past;
    var i := 0;
    while i < |workspaces|
      invariant 0 <= i <= |workspaces|
      invariant Performed(assignments, env, effects, trace)
      invariant var p := if i < |workspaces| then RollbackAbort(StepError(step)) else MarkFailed(StepError(step));
        Last(trace) == Last(past).(at := p, aborted := workspaces[..i])
      invariant effects == done + AbortRequests(workspaces[..i])
    {
      var abort := AbortRequest(workspaces[i]);
      assert workspaces[..i + 1] == workspaces[..i] + [workspaces[i]];
      trace := Act(assignments, env, effects, trace, abort);
      effects := effects + [abort];
      i := i + 1;
    }
    assert workspaces[..i] == workspaces;
  }

  /** `mark_failed`. */
  method MarkSessionFailed(assignments: seq<Id>, env: nat -> Await, done: seq<Effect>, ghost past: seq<Launcher>)
    returns (effects: seq<Effect>, ghost trace: seq<Launcher>)
    requires Performed(assignments, env, done, past) && Last(past).at.MarkFailed?
    ensures Performed(assignments, env, effects, trace)
    ensures Last(trace) == Last(past).(at := Returned(Last(past).at.error), marked := Last(trace).marked)
    ensures effects == done + [Marking(env(|done|).reply)]
  {
    var update := Marking(env(|done|).reply);
    trace := Act(assignments, env, done, past, update);
    effects := done + [update];
  }

  /** How a launch that returned has left the automaton. */
  predicate Ends(last: Launcher, outcome: Outcome) {
    if outcome.LaunchedActive? then
      last.at.SpawnMonitor? && last.created != [] && outcome == LaunchedActive(last.created[0], last.launched)
    else last.at == Returned(outcome)
  }

  /** What a launch that returned did last: commit what it returns, or mark the session it failed. */
  predicate DidLast(env: nat -> Await, effects: seq<Effect>, outcome: Outcome) {
    && (outcome.LaunchedActive? ==>
          effects != [] && effects[|effects| - 1] == Commit(outcome.root, outcome.launched))
    && (outcome.StepError? || outcome.NoAssignments? ==> EndsMarking(env, effects))
  }

  /** `launch` from Decompose on, with the root workspace created. */
  method LaunchTasks(assignments: seq<Id>, env: nat -> Await, done: seq<Effect>, root: Id, ghost past: seq<Launcher>)
    returns (outcome: Outcome, effects: seq<Effect>, ghost trace: seq<Launcher>)
    requires Performed(assignments, env, done, past)
    requires Last(past) == Launcher(true, CallDecompose, [root], [], [], false, false)
    requires assignments != []
    ensures Performed(assignments, env, effects, trace) && Ends(Last(trace), outcome)
    ensures done <= effects && DidLast(env, effects, outcome)
  {
    var decomposed := env(|done|).reply;
    trace := Act(assignments, env, done, past, Silent);
    effects := done + [Silent];
    if decomposed != Tasks(|assignments|) {
      effects, trace := Fail(assignments, env, effects, [root], Decompose, trace);
      return StepError(Decompose), effects, trace;
    }
    outcome, effects, trace := DispatchAll(assignments, env, effects, root, trace);
  }

  /** The dispatch loop, then the finalize transaction. */
  method DispatchAll(assignments: seq<Id>, env: nat -> Await, done: seq<Effect>, root: Id, ghost past: seq<Launcher>)
    returns (outcome: Outcome, effects: seq<Effect>, ghost trace: seq<Launcher>)
    requires Performed(assignments, env, done, past)
    requires Last(past) == Launcher(true, CallDispatch, [root], [], [], false, false)
    requires assignments != []
    ensures Performed(assignments, env, effects, trace) && Ends(Last(trace), outcome)
    ensures done <= effects && DidLast(env, effects, outcome)
  {
    effects, trace := done, past;
    var created, launched: seq<Placement> := [root], [];
    while |launched| < |assignments|
      invariant |launched| <= |assignments| && created != [] && done <= effects
      invariant Performed(assignments, env, effects, trace)
      invariant var p := if |launched| < |assignments| then CallDispatch else CallFinalize;
        Last(trace) == Launcher(true, p, created, launched, [], false, false)
    {
      var dispatched := env(|effects|).reply;
      if !dispatched.Workspace? {
        trace := Act(assignments, env, effects, trace, Silent);
        effects := effects + [Silent];
        effects, trace := Fail(assignments, env, effects, created, Dispatch, trace);
        return StepError(Dispatch), effects, trace;
      }
      trace := Act(assignments, env, effects, trace, Received(dispatched.id));
      effects := effects + [Received(dispatched.id)];
      launched := launched + [Placement(assignments[|launched|], dispatched.id)];
      created := created + [dispatched.id];
    }
    outcome, effects, trace := FinalizeLaunch(assignments, env, effects, created, launched, trace);
  }

  method FinalizeLaunch(assignments: seq<Id>, env: nat -> Await, done: seq<Effect>, created: seq<Id>,
                        launched: seq<Placement>, ghost past: seq<Launcher>)
    returns (outcome: Outcome, effects: seq<Effect>, ghost trace: seq<Launcher>)
    requires Performed(assignments, env, done, past) && created != []
    requires Last(past) == Launcher(true, CallFinalize, created, launched, [], false, false)
    ensures Performed(assignments, env, effects, trace) && Ends(Last(trace), outcome)
    ensures done <= effects && DidLast(env, effects, outcome)
  {
    var finalized := env(|done|);
    if finalized.reply.DbFails? || finalized.row.state != Launching {
      trace := Act(assignments, env, done, past, Silent);
      effects := done + [Silent];
      effects, trace := Fail(assignments, env, effects, created, Finalize, trace);
      return StepError(Finalize), effects, trace;
    }
    var commit := Commit(created[0], launched);
    trace := Act(assignments, env, done, past, commit);
    effects := done + [commit];
    outcome := LaunchedActive(created[0], launched);
  }

  /** `launch` from SubmitGoal on, with the coordinator client at hand. */
  method LaunchGoal(assignments: seq<Id>, env: nat -> Await, done: seq<Effect>, ghost past: seq<Launcher>)
    returns (outcome: Outcome, effects: seq<Effect>, ghost trace: seq<Launcher>)
    requires Performed(assignments, env, done, past) && Last(past) == REQUESTED.(at := CallSubmitGoal)
    requires assignments != []
    ensures Performed(assignments, env, effects, trace) && Ends(Last(trace), outcome)
    ensures done <= effects && DidLast(env, effects, outcome)
  {
    var submitted := env(|done|).reply;
    if !submitted.Workspace? {
      trace := Act(assignments, env, done, past, Silent);
      effects := done + [Silent];
      effects, trace := MarkSessionFailed(assignments, env, effects, trace);
      return StepError(SubmitGoal), effects, trace;
    }
    trace := Act(assignments, env, done, past, Received(submitted.id));
    effects := done + [Received(submitted.id)];

    var built := env(|effects|).reply;
    trace := Act(assignments, env, effects, trace, Silent);
    effects := effects + [Silent];
    if built.DbFails? {
      return DbError, effects, trace;
    }
    outcome, effects, trace := LaunchTasks(assignments, env, effects, submitted.id, trace);
  }

  /** `launch` once the session row has been read as LAUNCHING. */
  method LaunchListed(assignments: seq<Id>, env: nat -> Await, done: seq<Effect>, ghost past: seq<Launcher>)
    returns (outcome: Outcome, effects: seq<Effect>, ghost trace: seq<Launcher>)
    requires Performed(assignments, env, done, past) && Last(past) == REQUESTED.(at := ListAssignments)
    ensures Performed(assignments, env, effects, trace) && Ends(Last(trace), outcome)
    ensures done <= effects && DidLast(env, effects, outcome)
  {
    var listed := env(|done|).reply;
    trace := Act(assignments, env, done, past, Silent);
    effects := done + [Silent];
    if listed.DbFails? {
      return DbError, effects, trace;
    }
    if assignments == [] {
      effects, trace := MarkSessionFailed(assignments, env, effects, trace);
      return NoAssignments, effects, trace;
    }

    var channel := env(|effects|).reply;
    trace := Act(assignments, env, effects, trace, Silent);
    effects := effects + [Silent];
    if channel.NoChannel? {
      return PoolUnavailable, effects, trace;
    }
    outcome, effects, trace := LaunchGoal(assignments, env, effects, trace);
  }

  /** What `launch` promises of its outcome, the ids it received and the aborts it requested. */
  predicate LaunchResult(assignments: seq<Id>, effects: seq<Effect>, skipped: bool, outcome: Outcome) {
    var received, aborted := ReceivedIn(effects), AbortsIn(effects);
    if outcome.LaunchedActive? then
      && |received| == |assignments| + 1 && aborted == []
      && outcome.root == received[0]
      && |outcome.launched| == |assignments|
      && (forall k :: 0 <= k < |assignments| ==> outcome.launched[k] == Placement(assignments[k], received[k + 1]))
    else aborted == (if outcome.StepError? && !skipped then received else [])
  }

  /** The procedure did exactly the automaton's operations and stopped where the automaton does. */
  predicate Follows(assignments: seq<Id>, env: nat -> Await, effects: seq<Effect>, trace: seq<Launcher>,
                    outcome: Outcome) {
    && Performed(assignments, env, effects, trace)
    && Last(trace).at == (if outcome.LaunchedActive? then SpawnMonitor else Returned(outcome))
    && LaunchResult(assignments, effects, Last(trace).rollbackSkipped, outcome) && DidLast(env, effects, outcome)
  }

  /**
   * `launch`: whatever the environment answers, the effects of its own statements are those of the
   * automaton, operation by operation, and its outcome says which ids were received, committed and aborted.
   */
  method Launch(assignments: seq<Id>, env: nat -> Await) returns (outcome: Outcome, effects: seq<Effect>)
    ensures exists trace :: Follows(assignments, env, effects, trace, outcome)
  {
    ghost var trace;
    outcome, effects, trace := LaunchLoaded(assignments, env);
    FollowsFrom(assignments, env, effects, trace, outcome);
  }

  lemma FollowsFrom(assignments: seq<Id>, env: nat -> Await, effects: seq<Effect>, trace: seq<Launcher>,
                    outcome: Outcome)
    requires Performed(assignments, env, effects, trace) && Ends(Last(trace), outcome)
    requires DidLast(env, effects, outcome)
    ensures Follows(assignments, env, effects, trace, outcome)
  {
    LedgerOf(assignments, env, effects, trace, |effects|);
    ResultOf(assignments, effects, Last(trace), outcome);
  }

  /** The body of `launch`. */
  method LaunchLoaded(assignments: seq<Id>, env: nat -> Await)
    returns (outcome: Outcome, effects: seq<Effect>, ghost trace: seq<Launcher>)
    ensures Performed(assignments, env, effects, trace) && Ends(Last(trace), outcome)
    ensures effects != [] && effects[0] == Silent && DidLast(env, effects, outcome)
  {
    trace := [REQUESTED.(at := LoadRow)];
    var loaded := env(0);
    trace := Act(assignments, env, [], trace, Silent);
    effects := [] + [Silent];
    if loaded.reply.DbFails? {
      outcome := DbError;
    } else if loaded.row.state == Launching {
      outcome, effects, trace := LaunchListed(assignments, env, effects, trace);
    } else if loaded.row.state == Active || IsTerminal(loaded.row.state) {
      outcome := AlreadyActive(loaded.row.state);
    } else {
      outcome := UnexpectedState(loaded.row.state);
    }
  }

  lemma LedgerStep(assignments: seq<Id>, before: seq<Effect>, l: Launcher, row: Row, reply: Reply)
    requires LauncherOk(assignments, l) && ReceivedIn(before) == l.created && AbortsIn(before) == l.aborted
    ensures var m := Advance(assignments, l, row, reply);
      && LauncherOk(assignments, m.next)
      && ReceivedIn(before + [m.effect]) == m.next.created && AbortsIn(before + [m.effect]) == m.next.aborted
  {
    var m := Advance(assignments, l, row, reply);
    AdvanceKeepsLauncherOk(assignments, l, row, reply);
    AdvanceLists(assignments, l, row, reply);
    EffectsAppend(before, m.effect);
  }

  lemma EffectsAppend(before: seq<Effect>, e: Effect)
    ensures ReceivedIn(before + [e]) == if e.Received? then ReceivedIn(before) + [e.workspace] else ReceivedIn(before)
    ensures AbortsIn(before + [e]) == if e.AbortRequest? then AbortsIn(before) + [e.workspace] else AbortsIn(before)
  {
    assert (before + [e])[..|before|] == before;
  }

  /** The effects account for the automaton's lists, and the automaton keeps its own invariant. */
  lemma {:induction false} LedgerOf(assignments: seq<Id>, env: nat -> Await, effects: seq<Effect>, trace: seq<Launcher>,
                                    n: nat)
    requires Performed(assignments, env, effects, trace) && n <= |effects|
    ensures ReceivedIn(effects[..n]) == trace[n].created && AbortsIn(effects[..n]) == trace[n].aborted
    ensures LauncherOk(assignments, trace[n])
    ensures effects[..|effects|] == effects
  {
    if n > 0 {
      LedgerOf(assignments, env, effects, trace, n - 1);
      assert StepAt(assignments, env, effects, trace, n - 1);
      LedgerStep(assignments, effects[..n - 1], trace[n - 1], env(n - 1).row, env(n - 1).reply);
      assert effects[..n] == effects[..n - 1] + [effects[n - 1]];
    }
  }

  lemma ResultOf(assignments: seq<Id>, effects: seq<Effect>, last: Launcher, outcome: Outcome)
    requires LauncherOk(assignments, last) && Ends(last, outcome)
    requires ReceivedIn(effects) == last.created && AbortsIn(effects) == last.aborted
    ensures LaunchResult(assignments, effects, last.rollbackSkipped, outcome)
  {
  }
}
