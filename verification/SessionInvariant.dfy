/**
 * What every step of the session protocol keeps.
 */
module SessionInvariant {
  import opened Options
  import opened SessionState
  import opened SessionStore
  import opened LaunchSaga
  import opened SessionWorld

  /** The aborts one task requested, in order. */
  function AbortsBy(aborts: seq<Abort>, who: Requester): seq<Id> {
    if aborts == [] then []
    else
      var a := aborts[|aborts| - 1];
      AbortsBy(aborts[..|aborts| - 1], who) + (if a.who == who then [a.workspace] else [])
  }

  predicate Distinct(assignments: seq<Id>) {
    forall i, j :: 0 <= i < j < |assignments| ==> assignments[i] != assignments[j]
  }

  predicate LaunchersOk(assignments: seq<Id>, w: World) {
    forall i :: 0 <= i < |w.launchers| ==> LauncherOk(assignments, w.launchers[i])
  }

  /** Each workspace id a request holds was issued to it, at that place, and to nobody else. */
  predicate Owned(w: World) {
    forall i, k :: 0 <= i < |w.launchers| && 0 <= k < |w.launchers[i].created| ==>
      && w.launchers[i].created[k] in w.issued
      && w.issued[w.launchers[i].created[k]] == Slot(i, k)
  }

  predicate WinnerOk(w: World) {
    forall i :: 0 <= i < |w.launchers| ==> (Won(w.launchers[i]) <==> w.winner == Some(i))
  }

  /** The row carries the ids of the winner, if there is one, and no ids otherwise. */
  predicate RowOk(assignments: seq<Id>, w: World) {
    && (w.row.state == Configuring || w.row.state == Validating || w.row.state == Launching ==> w.winner.None?)
    && (w.row.state == Active || w.row.state == Completed ==> w.winner.Some?)
    && w.row.workspaces.Keys == (set a | a in assignments)
    && (w.winner.None? ==>
          w.row.coordinator.None? && forall a :: a in w.row.workspaces ==> w.row.workspaces[a] == None)
    && (w.winner.Some? ==>
          && w.winner.value < |w.launchers|
          && var l := w.launchers[w.winner.value];
             && |l.created| == |assignments| + 1
             && w.row.coordinator == Some(l.created[0])
             && forall k :: 0 <= k < |assignments| ==> w.row.workspaces[assignments[k]] == Some(l.created[k + 1]))
  }

  predicate AbortLogOk(w: World) {
    && (forall i :: 0 <= i < |w.launchers| ==> AbortsBy(w.aborts, ByLaunch(i)) == w.launchers[i].aborted)
    && (forall j :: 0 <= j < |w.cancels| ==> AbortsBy(w.aborts, ByCancel(j)) == w.cancels[j].requested)
    && (forall n :: 0 <= n < |w.aborts| ==>
          match w.aborts[n].who
          case ByLaunch(i) => i < |w.launchers|
          case ByCancel(j) => j < |w.cancels| && w.row.coordinator == Some(w.aborts[n].workspace))
  }

  /** A cancel aborts the session's root once, if it read ACTIVE and found a channel, and nothing otherwise. */
  predicate CancelOk(w: World, c: Cancel) {
    && c.requested == (if c.connected && c.seenCoordinator.Some? then [c.seenCoordinator.value] else [])
    && if c.at.CancelRead? then !c.connected && c.seen == Configuring && c.seenCoordinator.None?
       else if c.seen == Active then
         && (c.seenCoordinator.Some? ==> w.row.coordinator == c.seenCoordinator)
         && (c.at == CancelReturned(false) || c.seenCoordinator.Some?)
         && (c.seenCoordinator.None? || c.at == CancelAbort ==> !c.connected)
         && (c.at != CancelAbort && c.at != CancelReturned(false) ==> c.connected)
       else
         c.at != CancelAbort && !c.connected && (IsTerminal(c.seen) || c.seenCoordinator.None?)
  }

  predicate CancelsOk(w: World) {
    forall j :: 0 <= j < |w.cancels| ==> CancelOk(w, w.cancels[j])
  }

  predicate CancelWrote(c: Cancel) {
    c.at == CancelCleanup || c.at == CancelReturned(true)
  }

  /** The update is one its cause makes, and the cause is true of the world. */
  predicate CauseOk(w: World, x: Write) {
    match x.cause
    case Route(_) =>
      || (x.from == Configuring && x.to == Validating)
      || (x.from == Validating && (x.to == Configuring || x.to == Launching))
    case LaunchFailed(_) => x.from == Launching && x.to == Failed
    case Committed(i) => x.from == Launching && x.to == Active && w.winner == Some(i)
    case CancelledBy(j) =>
      !IsTerminal(x.from) && x.to == Cancelled && j < |w.cancels| && CancelWrote(w.cancels[j])
    case MonitorSaw(root) => SawEnd(w, x, root)
    case RecoverySaw(root) => SawEnd(w, x, root)
    case MonitorFatal(root) => GaveUp(w, x, root)
    case RecoveryMissing(root) => GaveUp(w, x, root)
    case RecoveryRpc(root) => GaveUp(w, x, root)
    case RecoveryStuck => false
  }

  /** The session takes the state its root workspace ended in. */
  predicate SawEnd(w: World, x: Write, root: Id) {
    x.from == Active && w.row.coordinator == Some(root) && root in w.ended && x.to == StateFor(w.ended[root])
  }

  predicate GaveUp(w: World, x: Write, root: Id) {
    x.from == Active && w.row.coordinator == Some(root) && x.to == Failed
  }

  predicate MarkOk(w: World, mark: Mark) {
    CauseOk(w, Write(Active, mark.to, mark.cause)) && !mark.cause.CancelledBy?
  }

  predicate MonitorOk(w: World, m: Monitor) {
    match m
    case Watching(root) => w.row.coordinator == Some(root)
    case Recording(mark) => MarkOk(w, mark)
    case Stopped => true
  }

  predicate RecoveryOk(w: World, x: Recovery) {
    match x
    case Probing(root) => w.row.coordinator == Some(root)
    case Respawning(root) => w.row.coordinator == Some(root)
    case Marking(mark) => MarkOk(w, mark)
    case _ => true
  }

  predicate WatchersOk(w: World) {
    && (forall k :: 0 <= k < |w.monitors| ==> MonitorOk(w, w.monitors[k]))
    && (forall r :: 0 <= r < |w.recoveries| ==> RecoveryOk(w, w.recoveries[r]))
  }

  function StateBefore(writes: seq<Write>, n: nat): State
    requires n <= |writes|
  {
    if n == 0 then Configuring else writes[n - 1].to
  }

  predicate Linked(writes: seq<Write>, n: nat)
    requires n < |writes|
  {
    writes[n].from == StateBefore(writes, n)
  }

  /** The history is a path from CONFIGURING to the row's state. */
  predicate WritesOk(w: World) {
    && (forall n :: 0 <= n < |w.writes| ==> CauseOk(w, w.writes[n]))
    && (forall n :: 0 <= n < |w.writes| ==> Linked(w.writes, n))
    && w.row.state == StateBefore(w.writes, |w.writes|)
  }

  predicate Inv(assignments: seq<Id>, w: World) {
    && LaunchersOk(assignments, w)
    && Owned(w)
    && WinnerOk(w)
    && RowOk(assignments, w)
    && AbortLogOk(w)
    && CancelsOk(w)
    && WatchersOk(w)
    && WritesOk(w)
  }

  lemma InitInv(assignments: seq<Id>)
    ensures Inv(assignments, Init(assignments))
  {
  }

  // Growth: what later worlds keep of earlier ones

  /** Ids once in the row, ended workspaces and finished cancels stay as they are. */
  predicate Extends(w: World, w': World) {
    && (w.winner.Some? ==> w'.winner == w.winner)
    && (w.row.coordinator.Some? ==> w'.row.coordinator == w.row.coordinator)
    && (forall x :: x in w.ended ==> x in w'.ended && w'.ended[x] == w.ended[x])
    && |w.cancels| <= |w'.cancels|
    && (forall j :: 0 <= j < |w.cancels| && CancelWrote(w.cancels[j]) ==> CancelWrote(w'.cancels[j]))
  }

  lemma CauseKept(w: World, w': World, x: Write)
    requires Extends(w, w') && CauseOk(w, x)
    ensures CauseOk(w', x)
  {
  }

  /** Watchers and history that did not change stay right in an extended world. */
  lemma WatchersKept(w: World, w': World)
    requires Extends(w, w') && WatchersOk(w)
    requires |w'.monitors| == |w.monitors| && |w'.recoveries| == |w.recoveries|
    requires forall k :: 0 <= k < |w.monitors| ==> w'.monitors[k] == w.monitors[k]
    requires forall r :: 0 <= r < |w.recoveries| ==> w'.recoveries[r] == w.recoveries[r]
    ensures WatchersOk(w')
  {
    forall k | 0 <= k < |w.monitors|
      ensures MonitorOk(w', w'.monitors[k])
    {
      assert MonitorOk(w, w.monitors[k]);
      if w.monitors[k].Recording? {
        CauseKept(w, w', Write(Active, w.monitors[k].mark.to, w.monitors[k].mark.cause));
      }
    }
    forall r | 0 <= r < |w.recoveries|
      ensures RecoveryOk(w', w'.recoveries[r])
    {
      assert RecoveryOk(w, w.recoveries[r]);
      if w.recoveries[r].Marking? {
        CauseKept(w, w', Write(Active, w.recoveries[r].mark.to, w.recoveries[r].mark.cause));
      }
    }
  }

  lemma WritesKept(w: World, w': World)
    requires Extends(w, w') && WritesOk(w)
    requires w'.writes == w.writes && w'.row.state == w.row.state
    ensures WritesOk(w')
  {
    forall n | 0 <= n < |w.writes|
      ensures CauseOk(w', w'.writes[n])
    {
      CauseKept(w, w', w.writes[n]);
    }
  }

  /** One more matching update extends the path. */
  lemma WritesGrow(w: World, w': World, x: Write)
    requires Extends(w, w') && WritesOk(w)
    requires w'.writes == w.writes + [x] && x.from == w.row.state && w'.row.state == x.to
    requires CauseOk(w', x)
    ensures WritesOk(w')
  {
    forall n | 0 <= n < |w.writes|
      ensures CauseOk(w', w.writes[n])
    {
      CauseKept(w, w', w.writes[n]);
    }
    forall n | 0 <= n < |w'.writes|
      ensures Linked(w'.writes, n)
    {
      if n < |w.writes| {
        assert Linked(w.writes, n);
      }
    }
  }

  lemma AbortsByGrow(aborts: seq<Abort>, a: Abort)
    ensures AbortsBy(aborts + [a], a.who) == AbortsBy(aborts, a.who) + [a.workspace]
    ensures forall who :: who != a.who ==> AbortsBy(aborts + [a], who) == AbortsBy(aborts, who)
  {
    assert (aborts + [a])[..|aborts|] == aborts;
  }

  lemma AbortLogKept(w: World, w': World)
    requires AbortLogOk(w) && w'.aborts == w.aborts
    requires |w'.launchers| == |w.launchers| && |w'.cancels| == |w.cancels|
    requires w.row.coordinator.Some? ==> w'.row.coordinator == w.row.coordinator
    requires forall i :: 0 <= i < |w.launchers| ==> w'.launchers[i].aborted == w.launchers[i].aborted
    requires forall j :: 0 <= j < |w.cancels| ==> w'.cancels[j].requested == w.cancels[j].requested
    ensures AbortLogOk(w')
  {
  }

  lemma CancelsKept(w: World, w': World)
    requires CancelsOk(w) && |w'.cancels| == |w.cancels|
    requires w.row.coordinator.Some? ==> w'.row.coordinator == w.row.coordinator
    requires forall j :: 0 <= j < |w.cancels| ==> w'.cancels[j] == w.cancels[j].(alive := w'.cancels[j].alive)
    ensures CancelsOk(w')
  {
    forall j | 0 <= j < |w'.cancels|
      ensures CancelOk(w', w'.cancels[j])
    {
      assert CancelOk(w, w.cancels[j]);
    }
  }

  /** A task's request for one more abort keeps the log in step with the tasks. */
  lemma AbortLogGrows(w: World, w': World, a: Abort)
    requires AbortLogOk(w) && w'.aborts == w.aborts + [a]
    requires |w'.launchers| == |w.launchers| && |w'.cancels| == |w.cancels|
    requires w.row.coordinator.Some? ==> w'.row.coordinator == w.row.coordinator
    requires forall i :: 0 <= i < |w.launchers| ==>
      w'.launchers[i].aborted
        == if a.who == ByLaunch(i) then w.launchers[i].aborted + [a.workspace] else w.launchers[i].aborted
    requires forall j :: 0 <= j < |w.cancels| ==>
      w'.cancels[j].requested
        == if a.who == ByCancel(j) then w.cancels[j].requested + [a.workspace] else w.cancels[j].requested
    requires match a.who
             case ByLaunch(i) => i < |w.launchers|
             case ByCancel(j) => j < |w.cancels| && w.row.coordinator == Some(a.workspace)
    ensures AbortLogOk(w')
  {
    AbortsByGrow(w.aborts, a);
    forall n | 0 <= n < |w'.aborts|
      ensures match w'.aborts[n].who
              case ByLaunch(i) => i < |w'.launchers|
              case ByCancel(j) => j < |w'.cancels| && w'.row.coordinator == Some(w'.aborts[n].workspace)
    {
      if n < |w.aborts| {
        assert w'.aborts[n] == w.aborts[n];
      }
    }
  }

  lemma {:induction false} AbortsByStranger(aborts: seq<Abort>, who: Requester)
    requires forall n :: 0 <= n < |aborts| ==> aborts[n].who != who
    ensures AbortsBy(aborts, who) == []
  {
    if aborts != [] {
      AbortsByStranger(aborts[..|aborts| - 1], who);
    }
  }

  /** A task that has just arrived has requested nothing. */
  lemma AbortLogArrival(w: World, w': World)
    requires AbortLogOk(w) && w'.aborts == w.aborts && w'.row == w.row
    requires w'.launchers == w.launchers || w'.launchers == w.launchers + [REQUESTED]
    requires w'.cancels == w.cancels || w'.cancels == w.cancels + [CANCEL_START]
    ensures AbortLogOk(w')
  {
    AbortsByStranger(w.aborts, ByLaunch(|w.launchers|));
    AbortsByStranger(w.aborts, ByCancel(|w.cancels|));
  }
}
