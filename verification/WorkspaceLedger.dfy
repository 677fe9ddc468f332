/**
 * Where every workspace that the runtime returned to a launch of the session ends up, and where those go
 * whose reply was lost
 * (wacp-console/crates/console-core/src/session_launcher.rs).
 */
module WorkspaceLedger {
  import opened Options
  import opened SessionStore
  import opened LaunchSaga
  import opened SessionWorld
  import opened SessionInvariant
  import opened SessionSteps
  import opened SessionTheorems
  import opened LaunchFailure
  import opened CancelledLaunch

  /** The launch request the workspace was returned to still has it on its list. */
  predicate OnList(launchers: seq<Launcher>, slot: Slot, id: Id) {
    && slot.request < |launchers| && slot.place < |launchers[slot.request].created|
    && launchers[slot.request].created[slot.place] == id
  }

  /** No workspace is forgotten by the request it was returned to. */
  predicate Recorded(w: World) {
    forall id :: id in w.issued ==> OnList(w.launchers, w.issued[id], id)
  }

  lemma EffectRecords(w: World, i: nat, place: nat, e: Effect)
    ensures var v := LaunchEffect(w, i, place, e);
      && v.launchers == w.launchers
      && v.issued == if e.Received? then w.issued[e.workspace := Slot(i, place)] else w.issued
  {
  }

  /** Replacing one list by a grown one keeps everything recorded. */
  lemma GrownListRecords(launchers: seq<Launcher>, issued: map<Id, Slot>, i: nat, m: Move)
    requires i < |launchers| && ListsFollow(launchers[i], m)
    requires forall id :: id in issued ==> OnList(launchers, issued[id], id)
    ensures forall id :: id in issued ==> OnList(launchers[i := m.next], issued[id], id)
    ensures m.effect.Received? ==> OnList(launchers[i := m.next], Slot(i, |launchers[i].created|), m.effect.workspace)
  {
  }

  lemma LaunchOpKeepsRecorded(assignments: seq<Id>, w: World, i: nat, reply: Reply)
    requires LaunchersOk(assignments, w) && Recorded(w) && i < |w.launchers|
    ensures Recorded(LaunchStepOf(assignments, w, i, reply))
  {
    var l := w.launchers[i];
    assert LauncherOk(assignments, l);
    AdvanceLists(assignments, l, w.row, reply);
    var m := Advance(assignments, l, w.row, reply);
    EffectRecords(w.(launchers := w.launchers[i := m.next]), i, |l.created|, m.effect);
    GrownListRecords(w.launchers, w.issued, i, m);
  }

  /** Nothing else touches the lists. */
  lemma OtherStepsKeepLists(assignments: seq<Id>, w: World, s: Step)
    requires Enabled(w, s) && !s.LaunchOp?
    ensures var v := Apply(assignments, w, s);
      && v.issued == w.issued && |v.launchers| >= |w.launchers|
      && forall i :: 0 <= i < |w.launchers| ==> v.launchers[i].created == w.launchers[i].created
  {
  }

  lemma StepKeepsRecorded(assignments: seq<Id>, w: World, s: Step)
    requires LaunchersOk(assignments, w) && Recorded(w) && Enabled(w, s)
    ensures Recorded(Apply(assignments, w, s))
  {
    if s.LaunchOp? {
      LaunchOpKeepsRecorded(assignments, w, s.i, s.reply);
    } else {
      OtherStepsKeepLists(assignments, w, s);
    }
  }

  lemma {:induction false} RunKeepsRecorded(assignments: seq<Id>, w: World, run: seq<Step>)
    requires Distinct(assignments) && Inv(assignments, w) && Recorded(w) && Legal(assignments, w, run)
    ensures Recorded(Exec(assignments, w, run))
    decreases run
  {
    if run != [] {
      StepKeepsInv(assignments, w, run[0]);
      StepKeepsRecorded(assignments, w, run[0]);
      RunKeepsRecorded(assignments, Apply(assignments, w, run[0]), run[1..]);
    }
  }

  /** The cell of the row that holds the `place`-th workspace of a launch. */
  function Cell(row: Row, assignments: seq<Id>, place: nat): Option<Id> {
    if place == 0 then row.coordinator
    else if place <= |assignments| && assignments[place - 1] in row.workspaces then
      row.workspaces[assignments[place - 1]]
    else None
  }

  /**
   * If its request won, the row holds the workspace, at its place, and no rollback aborts it; otherwise
   * its request aborted it exactly if its rollback got that far, whether or not a crash then killed it.
   * If its request lost and returned, its abort was requested exactly when the request returned a step
   * error and had a channel to roll back with. The two losses left are a rollback without a channel and
   * the root of a launch whose directive lookup failed.
   */
  ghost predicate Accounted(assignments: seq<Id>, w: World, id: Id) {
    && id in w.issued && OnList(w.launchers, w.issued[id], id)
    && var slot := w.issued[id];
       var l := w.launchers[slot.request];
       && (Won(l) <==> Cell(w.row, assignments, slot.place) == Some(id))
       && (id in AbortsBy(w.aborts, ByLaunch(slot.request)) <==> slot.place < |l.aborted|)
       && (Won(l) ==> l.aborted == [])
       && (!Won(l) && l.at.Returned? ==>
             && (slot.place < |l.aborted| <==> l.at.outcome.StepError? && !l.rollbackSkipped)
             && (l.at.outcome.StepError? || (l.at.outcome.DbError? && l.created == [id])))
  }

  /** Every workspace ever returned to a launch of the session is accounted for, in every run. */
  lemma EveryWorkspaceIsAccountedFor(assignments: seq<Id>, run: seq<Step>, id: Id)
    requires IsRun(assignments, run) && id in Reached(assignments, run).issued
    ensures Accounted(assignments, Reached(assignments, run), id)
  {
    ReachedInv(assignments, run);
    InitInv(assignments);
    RunKeepsRecorded(assignments, Init(assignments), run);
    InvAccounts(assignments, Reached(assignments, run), id);
  }

  lemma InvAccounts(assignments: seq<Id>, w: World, id: Id)
    requires Distinct(assignments) && Inv(assignments, w) && Recorded(w) && id in w.issued
    ensures Accounted(assignments, w, id)
  {
    var slot := w.issued[id];
    assert OnList(w.launchers, slot, id);
    assert LauncherOk(assignments, w.launchers[slot.request]);
    CellIsTheWinners(assignments, w, slot, id);
    RollbackIsPrefix(assignments, w, slot, id);
    LoserReturned(assignments, w.launchers[slot.request], slot.place, id);
  }

  lemma LoserReturned(assignments: seq<Id>, l: Launcher, place: nat, id: Id)
    requires LauncherOk(assignments, l) && place < |l.created| && l.created[place] == id
    ensures Won(l) ==> l.aborted == []
    ensures !Won(l) && l.at.Returned? ==>
      && (place < |l.aborted| <==> l.at.outcome.StepError? && !l.rollbackSkipped)
      && (l.at.outcome.StepError? || (l.at.outcome.DbError? && l.created == [id]))
  {
  }

  /** A rollback aborts a prefix of the request's list. */
  lemma RollbackIsPrefix(assignments: seq<Id>, w: World, slot: Slot, id: Id)
    requires Owned(w) && AbortLogOk(w) && LaunchersOk(assignments, w) && OnList(w.launchers, slot, id)
    ensures id in AbortsBy(w.aborts, ByLaunch(slot.request)) <==> slot.place < |w.launchers[slot.request].aborted|
  {
    var l := w.launchers[slot.request];
    assert LauncherOk(assignments, l) && l.aborted <= l.created;
    assert AbortsBy(w.aborts, ByLaunch(slot.request)) == l.aborted;
    if slot.place < |l.aborted| {
      assert l.aborted[slot.place] == id;
    }
    forall k | 0 <= k < |l.aborted| && l.aborted[k] == id
      ensures k == slot.place
    {
      assert l.created[k] == id && w.issued[l.created[k]] == Slot(slot.request, k);
    }
  }

  /** What a crash leaves of a request is all there will ever be: it never moves or aborts again. */
  lemma {:induction false} DeadRequestIsFinal(assignments: seq<Id>, w: World, run: seq<Step>, i: nat)
    requires Distinct(assignments) && Inv(assignments, w) && Legal(assignments, w, run)
    requires i < |w.launchers| && !w.launchers[i].alive
    ensures var v := Exec(assignments, w, run);
      && i < |v.launchers| && v.launchers[i] == w.launchers[i]
      && AbortsBy(v.aborts, ByLaunch(i)) == AbortsBy(w.aborts, ByLaunch(i))
    decreases run
  {
    RunKeepsInv(assignments, w, run);
    if run != [] {
      StepKeepsInv(assignments, w, run[0]);
      DeadStep(assignments, w, run[0], i);
      DeadRequestIsFinal(assignments, Apply(assignments, w, run[0]), run[1..], i);
    }
  }

  lemma DeadStep(assignments: seq<Id>, w: World, s: Step, i: nat)
    requires Enabled(w, s) && i < |w.launchers| && !w.launchers[i].alive
    ensures var v := Apply(assignments, w, s); i < |v.launchers| && v.launchers[i] == w.launchers[i]
  {
    if s.LaunchOp? {
      LaunchersAfter(assignments, w, s.i, s.reply);
    }
  }

  lemma CellIsTheWinners(assignments: seq<Id>, w: World, slot: Slot, id: Id)
    requires Distinct(assignments) && Owned(w) && WinnerOk(w) && RowOk(assignments, w) && LaunchersOk(assignments, w)
    requires OnList(w.launchers, slot, id)
    ensures Won(w.launchers[slot.request]) <==> Cell(w.row, assignments, slot.place) == Some(id)
  {
    if w.winner.Some? {
      var l := w.launchers[w.winner.value];
      assert forall k :: 0 <= k < |l.created| && l.created[k] == id ==> w.issued[id] == Slot(w.winner.value, k);
    }
  }

  // Lost replies

  /** A workspace created for a call whose reply was lost is not among those returned to requests. */
  predicate Unheard(w: World) {
    forall id :: id in w.lost ==> id !in w.issued
  }

  lemma StepKeepsUnheard(assignments: seq<Id>, w: World, s: Step)
    requires LaunchersOk(assignments, w) && Unheard(w) && Enabled(w, s)
    ensures Unheard(Apply(assignments, w, s))
  {
    if s.LaunchOp? {
      var l := w.launchers[s.i];
      assert LauncherOk(assignments, l);
      AdvanceShape(assignments, l, w.row, s.reply);
      var m := Advance(assignments, l, w.row, s.reply);
      EffectRecords(w.(launchers := w.launchers[s.i := m.next]), s.i, |l.created|, m.effect);
    } else {
      OtherStepsKeepLists(assignments, w, s);
    }
  }

  lemma {:induction false} RunKeepsUnheard(assignments: seq<Id>, w: World, run: seq<Step>)
    requires Distinct(assignments) && Inv(assignments, w) && Unheard(w) && Legal(assignments, w, run)
    ensures Unheard(Exec(assignments, w, run))
    decreases run
  {
    if run != [] {
      StepKeepsInv(assignments, w, run[0]);
      StepKeepsUnheard(assignments, w, run[0]);
      RunKeepsUnheard(assignments, Apply(assignments, w, run[0]), run[1..]);
    }
  }

  /** Every abort names a workspace that was returned to some request. */
  lemma AbortsNameIssued(assignments: seq<Id>, w: World, n: nat)
    requires Inv(assignments, w) && n < |w.aborts|
    ensures w.aborts[n].workspace in w.issued
  {
    var a := w.aborts[n];
    match a.who {
      case ByLaunch(j) =>
        AbortsByContains(w.aborts, n);
        AbortedWereCreated(assignments, w.launchers[j]);
        var m :| 0 <= m < |w.launchers[j].created| && w.launchers[j].created[m] == a.workspace;
      case ByCancel(_) =>
        assert w.launchers[w.winner.value].created[0] == a.workspace;
    }
  }

  /** A workspace whose reply was lost is in no row and on no list, and nobody ever asks to abort it. */
  lemma LostWorkspaceIsNobodys(assignments: seq<Id>, run: seq<Step>, id: Id)
    requires IsRun(assignments, run) && id in Reached(assignments, run).lost
    ensures var w := Reached(assignments, run);
      && id !in w.issued && !AbortAsked(w, id)
      && (forall i :: 0 <= i < |w.launchers| ==> id !in w.launchers[i].created)
      && w.row.coordinator != Some(id) && forall a :: a in w.row.workspaces ==> w.row.workspaces[a] != Some(id)
  {
    InitInv(assignments);
    ReachedInv(assignments, run);
    RunKeepsUnheard(assignments, Init(assignments), run);
    NobodysInInv(assignments, Reached(assignments, run), id);
  }

  lemma NobodysInInv(assignments: seq<Id>, w: World, id: Id)
    requires Inv(assignments, w) && id !in w.issued
    ensures !AbortAsked(w, id)
    ensures forall i :: 0 <= i < |w.launchers| ==> id !in w.launchers[i].created
    ensures w.row.coordinator != Some(id) && forall a :: a in w.row.workspaces ==> w.row.workspaces[a] != Some(id)
  {
    forall n | 0 <= n < |w.aborts|
      ensures w.aborts[n].workspace != id
    {
      AbortsNameIssued(assignments, w, n);
    }
    forall i | 0 <= i < |w.launchers|
      ensures id !in w.launchers[i].created
    {
      assert forall k :: 0 <= k < |w.launchers[i].created| ==> w.launchers[i].created[k] in w.issued;
    }
    forall a | a in w.row.workspaces
      ensures w.row.workspaces[a] != Some(id)
    {
      assert a in assignments;
    }
  }
}
