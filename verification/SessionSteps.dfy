/**
 * Each kind of step preserves the session protocol's invariant.
 */
module SessionSteps {
  import opened Options
  import opened SessionState
  import opened SessionStore
  import opened LaunchSaga
  import opened SessionWorld
  import opened SessionInvariant

  /** All that the rest of the world learns of one operation of a launch request. */
  predicate Shape(l: Launcher, row: Row, m: Move) {
    && ListsFollow(l, m)
    && (Won(m.next) <==> Won(l) || m.effect.Commit?)
    && match m.effect
       case Silent => true
       case Cas(from, to) =>
         || (from == Configuring && to == Validating)
         || (from == Validating && (to == Configuring || to == Launching))
         || (from == Launching && to == Failed)
       case Commit(root, launched) =>
         && row.state == Launching && l.at == CallFinalize
         && l.created != [] && root == l.created[0] && launched == l.launched
       case AbortRequest(_) => true
       case Received(_) => !Won(l)
       case Spawn(root) => Won(l) && l.created != [] && root == l.created[0]
  }

  lemma CreateShape(assignments: seq<Id>, l: Launcher, row: Row, reply: Reply)
    requires LauncherOk(assignments, l) && InCreate(l.at)
    ensures var m := CreateMove(assignments, l, row, reply);
      Shape(l, row, m) && (m.effect.Received? ==> reply == Workspace(m.effect.workspace))
  {
  }

  lemma PrepareShape(assignments: seq<Id>, l: Launcher, row: Row, reply: Reply)
    requires !InEnd(l.at)
    ensures Shape(l, row, PrepareMove(assignments, l, row, reply))
    ensures !PrepareMove(assignments, l, row, reply).effect.Received?
  {
  }

  lemma RouteShape(l: Launcher, row: Row, reply: Reply)
    requires InRoute(l.at)
    ensures Shape(l, row, RouteMove(l, row, reply)) && !RouteMove(l, row, reply).effect.Received?
  {
  }

  lemma EndShape(assignments: seq<Id>, l: Launcher, row: Row, reply: Reply)
    requires LauncherOk(assignments, l) && InEnd(l.at)
    ensures var m := EndMove(l, reply);
      Shape(l, row, m) && !m.effect.Received?
  {
  }

  lemma AdvanceShape(assignments: seq<Id>, l: Launcher, row: Row, reply: Reply)
    requires LauncherOk(assignments, l)
    ensures var m := Advance(assignments, l, row, reply);
      Shape(l, row, m) && (m.effect.Received? ==> reply == Workspace(m.effect.workspace))
  {
    if InRoute(l.at) {
      RouteShape(l, row, reply);
    } else if InEnd(l.at) {
      EndShape(assignments, l, row, reply);
    } else if InCreate(l.at) {
      CreateShape(assignments, l, row, reply);
    } else {
      PrepareShape(assignments, l, row, reply);
    }
  }

  /** A request that receives a fresh id owns it; all else stays owned as it was. */
  lemma OwnedKept(w: World, i: nat, m: Move, w': World)
    requires Owned(w) && i < |w.launchers| && Shape(w.launchers[i], w.row, m)
    requires w'.launchers == w.launchers[i := m.next]
    requires if m.effect.Received?
             then m.effect.workspace !in w.issued
               && w'.issued == w.issued[m.effect.workspace := Slot(i, |w.launchers[i].created|)]
             else w'.issued == w.issued
    ensures Owned(w')
  {
    forall j, k | 0 <= j < |w'.launchers| && 0 <= k < |w'.launchers[j].created|
      ensures w'.launchers[j].created[k] in w'.issued && w'.issued[w'.launchers[j].created[k]] == Slot(j, k)
    {
      if j != i || k < |w.launchers[j].created| {
        assert w'.launchers[j].created[k] == w.launchers[j].created[k];
      }
    }
  }

  lemma WinnerKept(w: World, i: nat, m: Move, w': World)
    requires WinnerOk(w) && i < |w.launchers| && Shape(w.launchers[i], w.row, m)
    requires w'.launchers == w.launchers[i := m.next]
    requires w'.winner == if m.effect.Commit? then Some(i) else w.winner
    requires m.effect.Commit? ==> w.winner.None?
    ensures WinnerOk(w')
  {
    forall j | 0 <= j < |w'.launchers|
      ensures Won(w'.launchers[j]) <==> w'.winner == Some(j)
    {
      assert Won(w.launchers[j]) <==> w.winner == Some(j);
    }
  }

  /** The hypotheses of the lemmas about one operation of request `i`. */
  predicate LaunchHyp(assignments: seq<Id>, w: World, i: nat, m: Move, w': World) {
    && Distinct(assignments) && Inv(assignments, w) && i < |w.launchers|
    && LauncherOk(assignments, m.next) && Shape(w.launchers[i], w.row, m)
    && (m.effect.Received? ==> m.effect.workspace !in w.issued)
    && w' == LaunchEffect(w.(launchers := w.launchers[i := m.next]), i, |w.launchers[i].created|, m.effect)
  }

  /** A commit puts exactly the request's ids into the row. */
  lemma CommitSetsRow(assignments: seq<Id>, w: World, i: nat, m: Move, w': World)
    requires LaunchHyp(assignments, w, i, m, w') && m.effect.Commit?
    ensures RowOk(assignments, w')
  {
    var l := w.launchers[i];
    assert LauncherOk(assignments, l);
    PlaceSetsExactly(w.row.workspaces, l.launched);
    assert forall k :: 0 <= k < |assignments| ==> l.launched[k] == Placement(assignments[k], l.created[k + 1]);
  }

  lemma LaunchKeepsRow(assignments: seq<Id>, w: World, i: nat, m: Move, w': World)
    requires RowOk(assignments, w) && WinnerOk(w) && i < |w.launchers| && Shape(w.launchers[i], w.row, m)
    requires !m.effect.Commit?
    requires w' == LaunchEffect(w.(launchers := w.launchers[i := m.next]), i, |w.launchers[i].created|, m.effect)
    ensures RowOk(assignments, w')
  {
    if w.winner == Some(i) {
      assert Won(w.launchers[i]);
      assert w'.launchers[i].created == w.launchers[i].created;
    }
  }

  lemma LaunchKeepsAborts(w: World, i: nat, m: Move, w': World)
    requires AbortLogOk(w) && i < |w.launchers| && Shape(w.launchers[i], w.row, m)
    requires m.effect.Commit? ==> w.row.coordinator.None?
    requires w' == LaunchEffect(w.(launchers := w.launchers[i := m.next]), i, |w.launchers[i].created|, m.effect)
    ensures AbortLogOk(w')
  {
    if m.effect.AbortRequest? {
      AbortLogGrows(w, w', Abort(ByLaunch(i), m.effect.workspace));
    } else {
      AbortLogKept(w, w');
    }
  }

  /** What a request's operation leaves alone, and what its commit needs. */
  lemma LaunchExtends(w: World, i: nat, m: Move, w': World)
    requires i < |w.launchers| && Shape(w.launchers[i], w.row, m)
    requires m.effect.Commit? ==> w.winner.None? && w.row.coordinator.None?
    requires w' == LaunchEffect(w.(launchers := w.launchers[i := m.next]), i, |w.launchers[i].created|, m.effect)
    ensures Extends(w, w')
    ensures w'.cancels == w.cancels && w'.recoveries == w.recoveries
    ensures w'.monitors == if m.effect.Spawn? then w.monitors + [Watching(m.effect.root)] else w.monitors
    ensures w'.writes == w.writes ==> w'.row.state == w.row.state
    ensures w'.writes != w.writes ==>
      exists x :: w'.writes == w.writes + [x] && x.from == w.row.state && x.to == w'.row.state && CauseOk(w', x)
  {
    if m.effect.Cas? && w.row.state == m.effect.from {
      var x := w'.writes[|w.writes|];
      assert w'.writes == w.writes + [x];
    } else if m.effect.Commit? {
      var x := Write(Launching, Active, Committed(i));
      assert w'.writes == w.writes + [x];
    }
  }

  lemma LaunchKeepsWatchers(w: World, i: nat, m: Move, w': World)
    requires Extends(w, w') && WatchersOk(w) && w'.recoveries == w.recoveries
    requires w'.monitors == if m.effect.Spawn? then w.monitors + [Watching(m.effect.root)] else w.monitors
    requires m.effect.Spawn? ==> w'.row.coordinator == Some(m.effect.root)
    ensures WatchersOk(w')
  {
    if m.effect.Spawn? {
      WatchersKept(w, w'.(monitors := w.monitors));
      SpawnKeepsWatchers(w'.(monitors := w.monitors), m.effect.root);
      assert w' == w'.(monitors := w.monitors + [Watching(m.effect.root)]);
    } else {
      WatchersKept(w, w');
    }
  }

  lemma SpawnKeepsWatchers(w: World, root: Id)
    requires WatchersOk(w) && w.row.coordinator == Some(root)
    ensures WatchersOk(w.(monitors := w.monitors + [Watching(root)]))
  {
    var w' := w.(monitors := w.monitors + [Watching(root)]);
    WatchersPut(w, w', |w.monitors|, |w.recoveries|);
  }

  lemma LaunchOpKeepsInv(assignments: seq<Id>, w: World, i: nat, reply: Reply)
    requires Distinct(assignments) && Inv(assignments, w) && Enabled(w, LaunchOp(i, reply))
    ensures Inv(assignments, LaunchStepOf(assignments, w, i, reply))
  {
    var m := Advance(assignments, w.launchers[i], w.row, reply);
    var w' := LaunchStepOf(assignments, w, i, reply);
    AdvanceKeepsLauncherOk(assignments, w.launchers[i], w.row, reply);
    AdvanceShape(assignments, w.launchers[i], w.row, reply);
    MoveKeepsInv(assignments, w, i, m, w');
  }

  /** What the row tells about a request that commits or spawns its monitor. */
  lemma RowTells(assignments: seq<Id>, w: World, i: nat, m: Move)
    requires RowOk(assignments, w) && WinnerOk(w) && i < |w.launchers| && Shape(w.launchers[i], w.row, m)
    ensures m.effect.Commit? ==> w.winner.None? && w.row.coordinator.None?
    ensures m.effect.Spawn? ==> w.row.coordinator == Some(m.effect.root)
  {
    assert Won(w.launchers[i]) <==> w.winner == Some(i);
  }

  lemma MoveKeepsHistory(w: World, i: nat, m: Move, w': World)
    requires AbortLogOk(w) && CancelsOk(w) && WatchersOk(w) && WritesOk(w)
    requires i < |w.launchers| && Shape(w.launchers[i], w.row, m)
    requires m.effect.Commit? ==> w.winner.None? && w.row.coordinator.None?
    requires m.effect.Spawn? ==> w.row.coordinator == Some(m.effect.root)
    requires w' == LaunchEffect(w.(launchers := w.launchers[i := m.next]), i, |w.launchers[i].created|, m.effect)
    ensures AbortLogOk(w') && CancelsOk(w') && WatchersOk(w') && WritesOk(w')
  {
    LaunchKeepsAborts(w, i, m, w');
    LaunchExtends(w, i, m, w');
    CancelsKept(w, w');
    LaunchKeepsWatchers(w, i, m, w');
    if w'.writes == w.writes {
      WritesKept(w, w');
    } else {
      var x :| w'.writes == w.writes + [x] && x.from == w.row.state && x.to == w'.row.state && CauseOk(w', x);
      WritesGrow(w, w', x);
    }
  }

  lemma MoveKeepsInv(assignments: seq<Id>, w: World, i: nat, m: Move, w': World)
    requires LaunchHyp(assignments, w, i, m, w')
    ensures Inv(assignments, w')
  {
    RowTells(assignments, w, i, m);
    MoveKeepsHistory(w, i, m, w');
    OwnedKept(w, i, m, w');
    WinnerKept(w, i, m, w');
    LaunchersKept(assignments, w, i, m.next, w');
    if m.effect.Commit? {
      CommitSetsRow(assignments, w, i, m, w');
    } else {
      LaunchKeepsRow(assignments, w, i, m, w');
    }
  }

  lemma LaunchersKept(assignments: seq<Id>, w: World, i: nat, next: Launcher, w': World)
    requires LaunchersOk(assignments, w) && i < |w.launchers| && LauncherOk(assignments, next)
    requires w'.launchers == w.launchers[i := next]
    ensures LaunchersOk(assignments, w')
  {
  }

  // Cancel requests

  /** A cancel's operation, and the abort and the write it makes. */
  lemma CancelAdvanceShape(w: World, c: Cancel, reply: Reply)
    requires CancelOk(w, c)
    requires w.row.state == Active ==> w.row.coordinator.Some?
    requires w.row.state == Configuring || w.row.state == Validating || w.row.state == Launching ==>
      w.row.coordinator.None?
    ensures var m := CancelAdvance(c, w.row, reply);
      && CancelOk(w, m.next)
      && m.next.requested == (if m.abort.Some? then c.requested + [m.abort.value] else c.requested)
      && (m.abort.Some? ==> w.row.coordinator == m.abort)
      && (m.writes ==> !IsTerminal(w.row.state) && CancelWrote(m.next))
      && (CancelWrote(c) ==> CancelWrote(m.next))
  {
  }

  lemma CancelOpKeepsCancels(w: World, j: nat, m: CancelMove, w': World)
    requires CancelsOk(w) && j < |w.cancels| && CancelOk(w, m.next)
    requires w'.cancels == w.cancels[j := m.next] && w'.row.coordinator == w.row.coordinator
    ensures CancelsOk(w')
  {
    forall n | 0 <= n < |w'.cancels|
      ensures CancelOk(w', w'.cancels[n])
    {
      assert CancelOk(w, w.cancels[n]);
    }
  }

  lemma CancelOpKeepsAborts(w: World, j: nat, m: CancelMove, w': World)
    requires AbortLogOk(w) && j < |w.cancels|
    requires w'.launchers == w.launchers && w'.cancels == w.cancels[j := m.next]
    requires w'.row.coordinator == w.row.coordinator
    requires m.next.requested
          == if m.abort.Some? then w.cancels[j].requested + [m.abort.value] else w.cancels[j].requested
    requires m.abort.Some? ==> w.row.coordinator == m.abort
    requires w'.aborts == if m.abort.Some? then w.aborts + [Abort(ByCancel(j), m.abort.value)] else w.aborts
    ensures AbortLogOk(w')
  {
    if m.abort.Some? {
      AbortLogGrows(w, w', Abort(ByCancel(j), m.abort.value));
    } else {
      AbortLogKept(w, w');
    }
  }

  lemma CancelOpKeepsInv(assignments: seq<Id>, w: World, j: nat, reply: Reply)
    requires Inv(assignments, w) && Enabled(w, CancelOp(j, reply))
    ensures Inv(assignments, CancelStepOf(w, j, reply))
  {
    assert CancelOk(w, w.cancels[j]);
    CancelAdvanceShape(w, w.cancels[j], reply);
    CancelMoveKeepsInv(assignments, w, j, CancelAdvance(w.cancels[j], w.row, reply), CancelStepOf(w, j, reply));
  }

  lemma CancelMoveKeepsInv(assignments: seq<Id>, w: World, j: nat, m: CancelMove, w': World)
    requires Inv(assignments, w) && j < |w.cancels| && CancelOk(w, m.next)
    requires m.next.requested
          == if m.abort.Some? then w.cancels[j].requested + [m.abort.value] else w.cancels[j].requested
    requires m.abort.Some? ==> w.row.coordinator == m.abort
    requires m.writes ==> !IsTerminal(w.row.state) && CancelWrote(m.next)
    requires CancelWrote(w.cancels[j]) ==> CancelWrote(m.next)
    requires w' == w.(
      cancels := w.cancels[j := m.next],
      aborts := if m.abort.Some? then w.aborts + [Abort(ByCancel(j), m.abort.value)] else w.aborts,
      row := if m.writes then w.row.(state := Cancelled) else w.row,
      writes := if m.writes then w.writes + [Write(w.row.state, Cancelled, CancelledBy(j))] else w.writes)
    ensures Inv(assignments, w')
  {
    CancelOpKeepsCancels(w, j, m, w');
    CancelOpKeepsAborts(w, j, m, w');
    WatchersKept(w, w');
    if m.writes {
      WritesGrow(w, w', Write(w.row.state, Cancelled, CancelledBy(j)));
    } else {
      WritesKept(w, w');
    }
  }

  // Monitors and recoveries

  /** A watcher's update out of ACTIVE, if it matches, has a true cause. */
  lemma AttemptKeepsInv(assignments: seq<Id>, w: World, mark: Option<Mark>)
    requires Inv(assignments, w) && (mark.Some? ==> MarkOk(w, mark.value))
    ensures Inv(assignments, Attempt(w, mark))
  {
    var w' := Attempt(w, mark);
    CancelsKept(w, w');
    WatchersKept(w, w');
    if w'.writes == w.writes {
      WritesKept(w, w');
    } else {
      var x := Write(Active, mark.value.to, mark.value.cause);
      CauseKept(w, w', x);
      WritesGrow(w, w', x);
    }
  }

  lemma WatchersReplaced(assignments: seq<Id>, w: World, w': World)
    requires Inv(assignments, w) && WatchersOk(w')
    requires w' == w.(monitors := w'.monitors, recoveries := w'.recoveries)
    ensures Inv(assignments, w')
  {
    CancelsKept(w, w');
    WritesKept(w, w');
  }

  lemma WatchersPut(w: World, w': World, k: nat, r: nat)
    requires WatchersOk(w) && w' == w.(monitors := w'.monitors, recoveries := w'.recoveries)
    requires |w.monitors| <= |w'.monitors| && |w'.recoveries| == |w.recoveries|
    requires forall n :: 0 <= n < |w.monitors| && n != k ==> w'.monitors[n] == w.monitors[n]
    requires forall n :: |w.monitors| <= n < |w'.monitors| || n == k < |w.monitors| ==> MonitorOk(w, w'.monitors[n])
    requires forall n :: 0 <= n < |w.recoveries| && n != r ==> w'.recoveries[n] == w.recoveries[n]
    requires r < |w.recoveries| ==> RecoveryOk(w, w'.recoveries[r])
    ensures WatchersOk(w')
  {
    forall n | 0 <= n < |w'.monitors|
      ensures MonitorOk(w', w'.monitors[n])
    {
      assert MonitorOk(w, w'.monitors[n]);
    }
    forall n | 0 <= n < |w'.recoveries|
      ensures RecoveryOk(w', w'.recoveries[n])
    {
      assert RecoveryOk(w, w'.recoveries[n]);
    }
  }

  lemma MonitorOpKeepsInv(assignments: seq<Id>, w: World, k: nat, news: News)
    requires Inv(assignments, w) && Enabled(w, MonitorOp(k, news))
    ensures Inv(assignments, MonitorStepOf(w, k, news))
  {
    assert MonitorOk(w, w.monitors[k]);
    var m := MonitorAdvance(w.monitors[k], w.ended, news);
    var w1 := w.(monitors := w.monitors[k := m.next]);
    WatchersPut(w, w1, k, |w.recoveries|);
    WatchersReplaced(assignments, w, w1);
    AttemptKeepsInv(assignments, w1, m.mark);
  }

  lemma RecoveryOpKeepsInv(assignments: seq<Id>, w: World, r: nat, probe: Probe)
    requires Inv(assignments, w) && Enabled(w, RecoveryOp(r, probe))
    ensures Inv(assignments, RecoveryStepOf(w, r, probe))
  {
    assert RecoveryOk(w, w.recoveries[r]);
    var m := RecoveryAdvance(w.recoveries[r], w.row, w.ended, probe);
    var spawned := if m.spawn.Some? then w.monitors + [Watching(m.spawn.value)] else w.monitors;
    var w1 := w.(recoveries := w.recoveries[r := m.next], monitors := spawned);
    WatchersPut(w, w1, |w.monitors|, r);
    WatchersReplaced(assignments, w, w1);
    AttemptKeepsInv(assignments, w1, m.mark);
  }

  // Arrivals, the runtime and crashes

  lemma LaunchArrives(assignments: seq<Id>, w: World, w': World)
    requires Inv(assignments, w) && w' == w.(launchers := w.launchers + [REQUESTED])
    ensures LaunchersOk(assignments, w') && Owned(w') && WinnerOk(w') && RowOk(assignments, w')
  {
    assert forall i :: 0 <= i < |w.launchers| ==> w'.launchers[i] == w.launchers[i];
  }

  lemma StartLaunchKeepsInv(assignments: seq<Id>, w: World)
    requires Inv(assignments, w)
    ensures Inv(assignments, w.(launchers := w.launchers + [REQUESTED]))
  {
    var w' := w.(launchers := w.launchers + [REQUESTED]);
    LaunchArrives(assignments, w, w');
    AbortLogArrival(w, w');
    CancelsKept(w, w');
    WatchersKept(w, w');
    WritesKept(w, w');
  }

  lemma StartCancelKeepsInv(assignments: seq<Id>, w: World)
    requires Inv(assignments, w)
    ensures Inv(assignments, w.(cancels := w.cancels + [CANCEL_START]))
  {
    var w' := w.(cancels := w.cancels + [CANCEL_START]);
    AbortLogArrival(w, w');
    forall n | 0 <= n < |w'.cancels|
      ensures CancelOk(w', w'.cancels[n])
    {
      assert n < |w.cancels| ==> CancelOk(w, w.cancels[n]);
    }
    WatchersKept(w, w');
    WritesKept(w, w');
  }

  lemma LoseReplyKeepsInv(assignments: seq<Id>, w: World, unheard: Id)
    requires Inv(assignments, w)
    ensures Inv(assignments, w.(lost := w.lost + {unheard}))
  {
    var w' := w.(lost := w.lost + {unheard});
    CancelsKept(w, w');
    WatchersKept(w, w');
    WritesKept(w, w');
  }

  lemma EndWorkspaceKeepsInv(assignments: seq<Id>, w: World, workspace: Id, ending: Ending)
    requires Inv(assignments, w) && workspace !in w.ended
    ensures Inv(assignments, w.(ended := w.ended[workspace := ending]))
  {
    var w' := w.(ended := w.ended[workspace := ending]);
    CancelsKept(w, w');
    WatchersKept(w, w');
    WritesKept(w, w');
  }

  lemma CrashKeepsInv(assignments: seq<Id>, w: World)
    requires Inv(assignments, w)
    ensures Inv(assignments, CrashAndRestart(w))
  {
    var w' := CrashAndRestart(w);
    forall i | 0 <= i < |w'.launchers|
      ensures LauncherOk(assignments, w'.launchers[i])
    {
      assert LauncherOk(assignments, w.launchers[i]);
    }
    assert RowOk(assignments, w');
    CancelsKept(w, w');
    WritesKept(w, w');
  }

  /** Every step keeps the invariant. */
  lemma StepKeepsInv(assignments: seq<Id>, w: World, s: Step)
    requires Distinct(assignments) && Inv(assignments, w) && Enabled(w, s)
    ensures Inv(assignments, Apply(assignments, w, s))
  {
    match s
    case StartLaunch => StartLaunchKeepsInv(assignments, w);
    case LaunchOp(i, reply) => LaunchOpKeepsInv(assignments, w, i, reply);
    case StartCancel => StartCancelKeepsInv(assignments, w);
    case CancelOp(j, reply) => CancelOpKeepsInv(assignments, w, j, reply);
    case MonitorOp(k, news) => MonitorOpKeepsInv(assignments, w, k, news);
    case RecoveryOp(r, probe) => RecoveryOpKeepsInv(assignments, w, r, probe);
    case LoseReply(unheard) => LoseReplyKeepsInv(assignments, w, unheard);
    case EndWorkspace(workspace, ending) => EndWorkspaceKeepsInv(assignments, w, workspace, ending);
    case CrashRestart => CrashKeepsInv(assignments, w);
  }

  /** Every state of every run satisfies the invariant. */
  lemma {:induction false} RunKeepsInv(assignments: seq<Id>, w: World, run: seq<Step>)
    requires Distinct(assignments) && Inv(assignments, w) && Legal(assignments, w, run)
    ensures Inv(assignments, Exec(assignments, w, run))
    decreases run
  {
    if run != [] {
      StepKeepsInv(assignments, w, run[0]);
      RunKeepsInv(assignments, Apply(assignments, w, run[0]), run[1..]);
    }
  }
}
