/**
 * Everything that acts on one session, as a state machine over atomic steps:
 * any number of launch requests and cancel requests, the session's monitors,
 * startup recoveries, workspaces that end on the runtime, and console crashes.
 */
module SessionWorld {
  import opened Options
  import opened SessionState
  import opened SessionStore
  import opened LaunchSaga

  // Cancel requests (routes/sessions.rs `cancel_session`, queries/sessions.rs `cancel`)

  datatype CancelPoint =
    | CancelRead
    | CancelAbort
    | CancelReread
    | CancelWrite
    | CancelCleanup
    | CancelReturned(ok: bool)

  /**
   * `seen` and `seenCoordinator` are the first read of the row; `requested` the aborts asked for;
   * `connected` that it found a channel to ask through.
   */
  datatype Cancel = Cancel(
    alive: bool,
    at: CancelPoint,
    seen: State,
    seenCoordinator: Option<Id>,
    requested: seq<Id>,
    connected: bool)

  const CANCEL_START := Cancel(true, CancelRead, Configuring, None, [], false)

  // Monitors (session_monitor.rs) and recoveries (recovery.rs), seen from the row

  /** How a workspace ended on the runtime. */
  datatype Ending = EndedClosed | EndedFailed

  function StateFor(e: Ending): State {
    if e.EndedFailed? then Failed else Completed
  }

  datatype Monitor =
    | Watching(root: Id)
    | Recording(mark: Mark)
    | Stopped

  datatype Recovery =
    | Listing
    | Probing(probed: Id)
    | Marking(mark: Mark)
    | Respawning(live: Id)
    | Finished

  /** Who changed the row, and why. */
  datatype Cause =
    | Route(request: nat)
    | LaunchFailed(request: nat)
    | Committed(request: nat)
    | CancelledBy(cancel: nat)
    | MonitorSaw(root: Id)
    | MonitorFatal(root: Id)
    | RecoverySaw(root: Id)
    | RecoveryMissing(root: Id)
    | RecoveryRpc(root: Id)
    | RecoveryStuck

  /** An update that matched the row. */
  datatype Write = Write(from: State, to: State, cause: Cause)

  datatype Requester = ByLaunch(request: nat) | ByCancel(cancel: nat)

  datatype Abort = Abort(who: Requester, workspace: Id)

  /** The `place`-th workspace the runtime returned to launch request `request`. */
  datatype Slot = Slot(request: nat, place: nat)

  /**
   * `issued`, `lost`, `ended` belong to the runtime: the workspaces returned to
   * requests, those it created for a call whose reply was lost, and those that
   * ended. `winner`, `writes` and `aborts` are the history: whose finalize committed, which updates matched, which
   * aborts were requested.
   */
  datatype World = World(
    row: Row,
    launchers: seq<Launcher>,
    cancels: seq<Cancel>,
    monitors: seq<Monitor>,
    recoveries: seq<Recovery>,
    issued: map<Id, Slot>,
    lost: set<Id>,
    ended: map<Id, Ending>,
    winner: Option<nat>,
    writes: seq<Write>,
    aborts: seq<Abort>)

  /** A configured session with NULL workspace ids. */
  function Init(assignments: seq<Id>): World {
    var column := map a | a in assignments :: None;
    World(Row(Configuring, None, column), [], [], [], [], map[], {}, map[], None, [], [])
  }

  // Effects on the shared state

  function Update(w: World, from: State, to: State, cause: Cause): World {
    if w.row.state == from then
      w.(row := w.row.(state := to), writes := w.writes + [Write(from, to, cause)])
    else w
  }

  function RequestAbort(w: World, who: Requester, workspace: Id): World {
    w.(aborts := w.aborts + [Abort(who, workspace)])
  }

  function LaunchEffect(w: World, i: nat, place: nat, e: Effect): World {
    match e
    case Silent => w
    case Cas(from, to) => Update(w, from, to, if to.Failed? then LaunchFailed(i) else Route(i))
    case Commit(root, launched) =>
      if w.row.state == Launching then
        w.(row := Finalized(w.row, root, launched),
           winner := Some(i),
           writes := w.writes + [Write(Launching, Active, Committed(i))])
      else w
    case AbortRequest(workspace) => RequestAbort(w, ByLaunch(i), workspace)
    case Received(workspace) => w.(issued := w.issued[workspace := Slot(i, place)])
    case Spawn(root) => w.(monitors := w.monitors + [Watching(root)])
  }

  function LaunchStepOf(assignments: seq<Id>, w: World, i: nat, reply: Reply): World
    requires i < |w.launchers|
  {
    var m := Advance(assignments, w.launchers[i], w.row, reply);
    LaunchEffect(w.(launchers := w.launchers[i := m.next]), i, |w.launchers[i].created|, m.effect)
  }

  /** One operation of a cancel: the abort it requests and whether it writes CANCELLED. */
  datatype CancelMove = CancelMove(next: Cancel, abort: Option<Id>, writes: bool)

  function CancelGoto(c: Cancel, p: CancelPoint): CancelMove {
    CancelMove(c.(at := p), None, false)
  }

  function CancelAdvance(c: Cancel, row: Row, reply: Reply): CancelMove {
    match c.at
    case CancelRead =>
      if reply.DbFails? then CancelGoto(c, CancelReturned(false))
      else
        var read := c.(seen := row.state, seenCoordinator := row.coordinator);
        (match CancelActionFor(row.state)
         case None => CancelGoto(read, CancelReturned(false))
         case Some(AbortWorkspace) =>
           CancelGoto(read, if row.coordinator.None? then CancelReturned(false) else CancelAbort)
         case Some(_) => CancelGoto(read, CancelReread))
    case CancelAbort =>
      if reply.NoChannel? || c.seenCoordinator.None? then CancelGoto(c, CancelReturned(false))
      else
        var p := if reply.RpcFails? then CancelReturned(false) else CancelReread;
        CancelMove(c.(at := p, requested := c.requested + [c.seenCoordinator.value], connected := true),
                   c.seenCoordinator, false)
    case CancelReread =>
      CancelGoto(c, if reply.DbFails? || IsTerminal(row.state) then CancelReturned(false) else CancelWrite)
    case CancelWrite =>
      if reply.DbFails? || IsTerminal(row.state) then CancelGoto(c, CancelReturned(false))
      else CancelMove(c.(at := CancelCleanup), None, true)
    case CancelCleanup =>
      if CancelActionFor(c.seen) == Some(BestEffortAbort) && c.seenCoordinator.Some? && !reply.NoChannel? then
        var asked := c.requested + [c.seenCoordinator.value];
        CancelMove(c.(at := CancelReturned(true), requested := asked, connected := true), c.seenCoordinator, false)
      else CancelGoto(c, CancelReturned(true))
    case CancelReturned(_) => CancelMove(c, None, false)
  }

  function CancelStepOf(w: World, j: nat, reply: Reply): World
    requires j < |w.cancels|
  {
    var m := CancelAdvance(w.cancels[j], w.row, reply);
    var w1 := w.(cancels := w.cancels[j := m.next]);
    var w2 := if m.abort.Some? then RequestAbort(w1, ByCancel(j), m.abort.value) else w1;
    if m.writes then Update(w2, w.row.state, Cancelled, CancelledBy(j)) else w2
  }

  /** The update ACTIVE to `to` that a watcher attempts. */
  datatype Mark = Mark(to: State, cause: Cause)

  function Attempt(w: World, mark: Option<Mark>): World {
    if mark.Some? then Update(w, Active, mark.value.to, mark.value.cause) else w
  }

  /** What a monitor meets: its root's end, a stream giving up, the database, or an exit. */
  datatype News = RootEnded | StreamFatal | DbDone | DbDown | Exit

  datatype MonitorMove = MonitorMove(next: Monitor, mark: Option<Mark>)

  function MonitorAdvance(m: Monitor, ended: map<Id, Ending>, news: News): MonitorMove {
    match m
    case Watching(root) =>
      if news.RootEnded? && root in ended then
        MonitorMove(Recording(Mark(StateFor(ended[root]), MonitorSaw(root))), None)
      else if news.StreamFatal? then MonitorMove(Recording(Mark(Failed, MonitorFatal(root))), None)
      else if news.Exit? then MonitorMove(Stopped, None)
      else MonitorMove(m, None)
    case Recording(mark) => MonitorMove(Stopped, if news.DbDown? then None else Some(mark))
    case Stopped => MonitorMove(Stopped, None)
  }

  function MonitorStepOf(w: World, k: nat, news: News): World
    requires k < |w.monitors|
  {
    var m := MonitorAdvance(w.monitors[k], w.ended, news);
    Attempt(w.(monitors := w.monitors[k := m.next]), m.mark)
  }

  /** What a recovery meets when it lists the session, probes its root or uses the database. */
  datatype Probe = ViewLive | ViewEnded | Unavailable | NotFound | OtherCode | ProbeDbDown

  datatype RecoveryMove = RecoveryMove(next: Recovery, mark: Option<Mark>, spawn: Option<Id>)

  function RecoveryGoto(x: Recovery): RecoveryMove {
    RecoveryMove(x, None, None)
  }

  function RecoveryAdvance(x: Recovery, row: Row, ended: map<Id, Ending>, probe: Probe): RecoveryMove {
    match x
    case Listing =>
      if probe.ProbeDbDown? || row.state != Active then RecoveryGoto(Finished)
      else if row.coordinator.None? then RecoveryGoto(Marking(Mark(Failed, RecoveryStuck)))
      else RecoveryGoto(Probing(row.coordinator.value))
    case Probing(root) =>
      (match probe
       case ViewLive => RecoveryGoto(Respawning(root))
       case ViewEnded =>
         RecoveryGoto(if root in ended then Marking(Mark(StateFor(ended[root]), RecoverySaw(root))) else x)
       case NotFound => RecoveryGoto(Marking(Mark(Failed, RecoveryMissing(root))))
       case OtherCode => RecoveryGoto(Marking(Mark(Failed, RecoveryRpc(root))))
       case _ => RecoveryGoto(Finished))
    case Marking(mark) => RecoveryMove(Finished, if probe.ProbeDbDown? then None else Some(mark), None)
    case Respawning(root) => RecoveryMove(Finished, None, if probe.ProbeDbDown? then None else Some(root))
    case Finished => RecoveryGoto(Finished)
  }

  function RecoveryStepOf(w: World, r: nat, probe: Probe): World
    requires r < |w.recoveries|
  {
    var m := RecoveryAdvance(w.recoveries[r], w.row, w.ended, probe);
    var w1 := w.(recoveries := w.recoveries[r := m.next]);
    var w2 := if m.spawn.Some? then w1.(monitors := w.monitors + [Watching(m.spawn.value)]) else w1;
    Attempt(w2, m.mark)
  }

  /** Every task of the console dies; a new console starts with a recovery. */
  function CrashAndRestart(w: World): World {
    w.(launchers := seq(|w.launchers|, i requires 0 <= i < |w.launchers| => w.launchers[i].(alive := false)),
       cancels := seq(|w.cancels|, j requires 0 <= j < |w.cancels| => w.cancels[j].(alive := false)),
       monitors := seq(|w.monitors|, _ => Stopped),
       recoveries := seq(|w.recoveries|, _ => Finished) + [Listing])
  }

  datatype Step =
    | StartLaunch
    | LaunchOp(i: nat, reply: Reply)
    | StartCancel
    | CancelOp(j: nat, answer: Reply)
    | MonitorOp(k: nat, news: News)
    | RecoveryOp(r: nat, probe: Probe)
    | LoseReply(unheard: Id)
    | EndWorkspace(workspace: Id, ending: Ending)
    | CrashRestart

  /** The runtime never reuses a workspace id, and an ended workspace stays ended. */
  predicate Enabled(w: World, s: Step) {
    match s
    case LaunchOp(i, reply) =>
      && i < |w.launchers| && w.launchers[i].alive
      && (reply.Workspace? ==> reply.id !in w.issued && reply.id !in w.lost)
    case CancelOp(j, _) => j < |w.cancels| && w.cancels[j].alive
    case MonitorOp(k, _) => k < |w.monitors|
    case RecoveryOp(r, _) => r < |w.recoveries|
    case LoseReply(unheard) => unheard !in w.issued && unheard !in w.lost
    case EndWorkspace(workspace, _) => workspace !in w.ended
    case _ => true
  }

  function Apply(assignments: seq<Id>, w: World, s: Step): World
    requires Enabled(w, s)
  {
    match s
    case StartLaunch => w.(launchers := w.launchers + [REQUESTED])
    case LaunchOp(i, reply) => LaunchStepOf(assignments, w, i, reply)
    case StartCancel => w.(cancels := w.cancels + [CANCEL_START])
    case CancelOp(j, reply) => CancelStepOf(w, j, reply)
    case MonitorOp(k, news) => MonitorStepOf(w, k, news)
    case RecoveryOp(r, probe) => RecoveryStepOf(w, r, probe)
    case LoseReply(unheard) => w.(lost := w.lost + {unheard})
    case EndWorkspace(workspace, ending) => w.(ended := w.ended[workspace := ending])
    case CrashRestart => CrashAndRestart(w)
  }

  /** Every step of the run is enabled when it is taken. */
  predicate Legal(assignments: seq<Id>, w: World, run: seq<Step>)
    decreases run
  {
    run == [] || (Enabled(w, run[0]) && Legal(assignments, Apply(assignments, w, run[0]), run[1..]))
  }

  function Exec(assignments: seq<Id>, w: World, run: seq<Step>): World
    requires Legal(assignments, w, run)
    decreases run
  {
    if run == [] then w else Exec(assignments, Apply(assignments, w, run[0]), run[1..])
  }
}
