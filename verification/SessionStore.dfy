/**
 * One row of the `sessions` table with its assignment rows, and the guarded
 * updates the console applies to it
 * (wacp-console/crates/console-db/src/queries/sessions.rs and the finalize
 * transaction of session_launcher.rs).
 */
module SessionStore {
  import opened Options
  import opened SessionState

  /** Opaque identifiers: workspaces, assignments. */
  type Id = nat

  datatype Placement = Placement(assignment: Id, workspace: Id)

  /** `workspaces` is the `workspace_id` column of the session's assignment rows. */
  datatype Row = Row(state: State, coordinator: Option<Id>, workspaces: map<Id, Option<Id>>)

  /** `UPDATE sessions SET state = to WHERE state = from`. */
  function Transition(row: Row, from: State, to: State): Row {
    if row.state == from then row.(state := to) else row
  }

  /** `UPDATE session_assignments SET workspace_id = ? WHERE id = ?` for each placement in turn. */
  function Place(column: map<Id, Option<Id>>, launched: seq<Placement>): map<Id, Option<Id>> {
    if launched == [] then column
    else
      var before := Place(column, launched[..|launched| - 1]);
      var p := launched[|launched| - 1];
      if p.assignment in before then before[p.assignment := Some(p.workspace)] else before
  }

  /** The committed effect of the finalize transaction on a LAUNCHING row. */
  function Finalized(row: Row, root: Id, launched: seq<Placement>): Row {
    Row(Active, Some(root), Place(row.workspaces, launched))
  }

  predicate DistinctAssignments(launched: seq<Placement>) {
    forall i, j :: 0 <= i < j < |launched| ==> launched[i].assignment != launched[j].assignment
  }

  /** Placing distinct existing assignments sets exactly their cells. */
  lemma {:induction false} PlaceSetsExactly(column: map<Id, Option<Id>>, launched: seq<Placement>)
    requires DistinctAssignments(launched)
    requires forall i :: 0 <= i < |launched| ==> launched[i].assignment in column
    ensures Place(column, launched).Keys == column.Keys
    ensures forall i :: 0 <= i < |launched| ==>
      Place(column, launched)[launched[i].assignment] == Some(launched[i].workspace)
    ensures forall a :: a in column && (forall i :: 0 <= i < |launched| ==> launched[i].assignment != a) ==>
      Place(column, launched)[a] == column[a]
  {
    if launched != [] {
      var front := launched[..|launched| - 1];
      assert forall i :: 0 <= i < |front| ==> front[i] == launched[i];
      PlaceSetsExactly(column, front);
    }
  }

  /** The session table as the console's tasks share it. */
  class Store {
    var state: State
    var coordinator: Option<Id>
    var workspaces: map<Id, Option<Id>>

    function Snapshot(): Row
      reads this
    {
      Row(state, coordinator, workspaces)
    }

    /** `transition_state`: a compare-and-set on the state column. */
    method TransitionState(from: State, to: State) returns (changed: bool)
      modifies this
      ensures Snapshot() == Transition(old(Snapshot()), from, to)
      ensures changed <==> old(state) == from
    {
      changed := state == from;
      if changed {
        state := to;
      }
    }

    /** The guarded update at the end of `sessions::cancel`. */
    method CancelOpen() returns (changed: bool)
      modifies this
      ensures changed <==> !IsTerminal(old(state))
      ensures Snapshot() == if changed then old(Snapshot()).(state := Cancelled) else old(Snapshot())
    {
      changed := !IsTerminal(state);
      if changed {
        state := Cancelled;
      }
    }

    /**
     * The finalize transaction. Statement `failAt` errs, if any: 0 is begin,
     * 1 the session update, 2 + i the update for `launched[i]`, the last the
     * commit. Writes are staged and become visible only at the commit.
     */
    method Finalize(root: Id, launched: seq<Placement>, failAt: Option<nat>) returns (ok: bool)
      modifies this
      ensures ok <==> old(state) == Launching && (failAt.Some? ==> |launched| + 2 < failAt.value)
      ensures Snapshot() == if ok then Finalized(old(Snapshot()), root, launched) else old(Snapshot())
    {
      if failAt == Some(0) || failAt == Some(1) || state != Launching {
        return false;
      }
      var staged := workspaces;
      var i := 0;
      while i < |launched|
        invariant 0 <= i <= |launched|
        invariant staged == Place(workspaces, launched[..i])
        invariant failAt.Some? ==> i + 1 < failAt.value
      {
        if failAt == Some(i + 2) {
          return false;
        }
        var p := launched[i];
        if p.assignment in staged {
          staged := staged[p.assignment := Some(p.workspace)];
        }
        assert launched[..i + 1][..i] == launched[..i];
        i := i + 1;
      }
      if failAt == Some(|launched| + 2) {
        return false;
      }
      assert launched[..i] == launched;
      state, coordinator, workspaces := Active, Some(root), staged;
      ok := true;
    }
  }
}
