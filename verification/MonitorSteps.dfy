/**
 * The event loop of the session monitor does what the monitor steps of the session state machine do
 * (wacp-console/crates/console-core/src/session_monitor.rs).
 */
module MonitorSteps {
  import opened SessionStore
  import opened MonitorEvents
  import World = SessionWorld

  /** How a workspace in a final state ended. */
  function EndingOf(s: WorkspaceState): World.Ending {
    if s == Broken then World.EndedFailed else World.EndedClosed
  }

  /** What an input of the loop is to the state machine; `DbDone` is no news to a watching monitor. */
  function NewsOf(scope: Scope, input: Input): World.News {
    match input
    case Event(e) =>
      if Terminal(scope, e).None? then World.DbDone
      else if e.Changed? then World.RootEnded
      else World.StreamFatal
    case TakeSnapshot => World.DbDone
    case _ => World.Exit
  }

  /** The state machine's monitor after the first `i` inputs; it hears nothing once it stops watching. */
  function Watched(scope: Scope, inputs: seq<Input>, i: nat, root: Id, ended: map<Id, World.Ending>): World.Monitor
    requires i <= |inputs|
  {
    if i == 0 then World.Watching(root)
    else
      var m := Watched(scope, inputs, i - 1, root, ended);
      if m.Watching? then World.MonitorAdvance(m, ended, NewsOf(scope, inputs[i - 1])).next else m
  }

  /** The runtime reports the root's end as it happened. */
  predicate Truthful(scope: Scope, inputs: seq<Input>, root: Id, ended: map<Id, World.Ending>) {
    forall k :: 0 <= k < |inputs| ==> TruthfulInput(scope, inputs[k], root, ended)
  }

  predicate TruthfulInput(scope: Scope, input: Input, root: Id, ended: map<Id, World.Ending>) {
    input.Event? && input.event.Changed? && Terminal(scope, input.event).Some? ==>
      root in ended && ended[root] == EndingOf(input.event.change.current)
  }

  /** The monitor of the state machine that stands where the loop does. */
  predicate Matches(p: Play, m: World.Monitor, root: Id) {
    if p.ended.Some? then
      && m.Recording? && m.mark.to == p.ended.value
      && (m.mark.cause == World.MonitorSaw(root) || m.mark.cause == World.MonitorFatal(root))
    else if p.stopped then m == World.Stopped
    else m == World.Watching(root)
  }

  /**
   * For all inputs of a truthful runtime: the loop is still watching, has stopped, or is about to record
   * exactly when the state machine's monitor is, and then both are about to write the same state.
   */
  lemma {:induction false} MonitorRefinesItsSteps(
      scope: Scope, inputs: seq<Input>, i: nat, root: Id, ended: map<Id, World.Ending>)
    requires i <= |inputs| && Truthful(scope, inputs, root, ended)
    ensures Matches(MonitorEvents.Played(scope, inputs, i), Watched(scope, inputs, i, root, ended), root)
    ensures MonitorEvents.Played(scope, inputs, i).ended.Some? ==> MonitorEvents.Played(scope, inputs, i).stopped
  {
    if i > 0 {
      MonitorRefinesItsSteps(scope, inputs, i - 1, root, ended);
      assert TruthfulInput(scope, inputs[i - 1], root, ended);
    }
  }

  /** What the loop returns to be recorded is what the state machine's monitor then writes over ACTIVE. */
  lemma RecordedIsWritten(scope: Scope, inputs: seq<Input>, root: Id, ended: map<Id, World.Ending>)
    requires Truthful(scope, inputs, root, ended)
    ensures var recorded := MonitorEvents.Played(scope, inputs, |inputs|).ended;
      var m := World.MonitorAdvance(Watched(scope, inputs, |inputs|, root, ended), ended, World.DbDone);
      && (m.mark.Some? <==> recorded.Some?)
      && (recorded.Some? ==> m.mark.value.to == recorded.value && m.next == World.Stopped)
  {
    MonitorRefinesItsSteps(scope, inputs, |inputs|, root, ended);
  }
}
