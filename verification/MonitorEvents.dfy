/**
 * The session monitor's event handling: pending lists, workspace states and
 * broadcast frames (wacp-console/crates/console-core/src/session_monitor.rs).
 * Bodies are taken as already parsed: `gateId` is what `parse_gate_id` finds,
 * and `payload` stands for everything a frame merely copies.
 */
module MonitorEvents {
  import opened Options
  import opened SessionState

  datatype WorkspaceState =
    | Unspecified | Idle | Working | Blocked | Suspended | Migrating | Integrating | Conflicted | Closed | Broken

  datatype TrailEntry = TrailEntry(workspace: string, eventType: string, gateId: Option<string>, payload: nat)
  datatype GateEvent = GateEvent(workspace: string, gateId: string, payload: nat)
  datatype Escalation = Escalation(workspace: string, payload: nat)
  datatype Change = Change(workspace: string, previous: WorkspaceState, current: WorkspaceState, trigger: string)

  datatype StreamEvent =
    | Trail(entry: TrailEntry)
    | Gate(gate: GateEvent)
    | Escalated(escalation: Escalation)
    | Changed(change: Change)
    | Lagged(stream: string, attempt: nat, reason: string)
    | GaveUp(stream: string, reason: string)

  /** What the enricher adds: the workspace's label. */
  datatype Labelled<T> = Labelled(name: string, raw: T)

  datatype Layer = ToolLayer | AgentLayer | CoordinatorLayer
  datatype Refusal = Refusal(layer: Layer, entry: TrailEntry)

  datatype Frame =
    | TrailFrame(trail: Labelled<TrailEntry>)
    | GateFrame(gate: Labelled<GateEvent>)
    | EscalationFrame(escalation: Labelled<Escalation>)
    | ChangeFrame(change: Change)
    | RefusalFrame(refusal: Refusal)
    | LifecycleFrame(state: State, reason: string)
    | LagFrame(hint: seq<string>, stream: string, attempt: nat, reason: string)
    | ErrorFrame(stream: string, message: string)

  /** The monitored workspaces and the labels seeded for them. */
  datatype Scope = Scope(root: string, members: set<string>, labels: map<string, string>)

  /** `RefusalSynthesizer::detect`. */
  function Detect(e: TrailEntry): Option<Refusal> {
    if e.eventType == "tool_call_refused" then Some(Refusal(ToolLayer, e))
    else if e.eventType == "agent_refused" then Some(Refusal(AgentLayer, e))
    else if e.eventType == "coordinator_refused" then Some(Refusal(CoordinatorLayer, e))
    else None
  }

  function Enrich<T>(scope: Scope, workspace: string, raw: T): Labelled<T> {
    Labelled(if workspace in scope.labels then scope.labels[workspace] else workspace, raw)
  }

  function RefreshHint(stream: string): seq<string> {
    if stream == "gates" then ["gates"]
    else if stream == "escalations" then ["escalations"]
    else if stream == "workspace_changes" then ["workspaces"]
    else []
  }

  // The specification, over the whole history of events

  predicate IsGate(scope: Scope, e: StreamEvent) {
    e.Gate? && e.gate.workspace in scope.members
  }

  /** A member's trail entry that says gate `id` was resolved. */
  predicate Resolves(scope: Scope, e: StreamEvent, id: string) {
    e.Trail? && e.entry.workspace in scope.members && e.entry.eventType == "gate_resolved" && e.entry.gateId == Some(id)
  }

  predicate ResolvedIn(scope: Scope, h: seq<StreamEvent>, id: string) {
    exists k :: 0 <= k < |h| && Resolves(scope, h[k], id)
  }

  /** The members' gates, in order, that no later event of the history resolves. */
  function PendingGates(scope: Scope, h: seq<StreamEvent>): seq<Labelled<GateEvent>> {
    if h == [] then []
    else if IsGate(scope, h[0]) && !ResolvedIn(scope, h[1..], h[0].gate.gateId) then
      [Enrich(scope, h[0].gate.workspace, h[0].gate)] + PendingGates(scope, h[1..])
    else PendingGates(scope, h[1..])
  }

  function PendingEscalations(scope: Scope, h: seq<StreamEvent>): seq<Labelled<Escalation>> {
    if h == [] then []
    else if h[0].Escalated? && h[0].escalation.workspace in scope.members then
      [Enrich(scope, h[0].escalation.workspace, h[0].escalation)] + PendingEscalations(scope, h[1..])
    else PendingEscalations(scope, h[1..])
  }

  function PendingRefusals(scope: Scope, h: seq<StreamEvent>): seq<Refusal> {
    if h == [] then []
    else if h[0].Trail? && h[0].entry.workspace in scope.members && Detect(h[0].entry).Some? then
      [Detect(h[0].entry).value] + PendingRefusals(scope, h[1..])
    else PendingRefusals(scope, h[1..])
  }

  /** The current state of the latest change of `workspace`, if it is a member and changed at all. */
  function LatestChange(scope: Scope, h: seq<StreamEvent>, workspace: string): Option<WorkspaceState> {
    if h == [] then None
    else
      var e := h[|h| - 1];
      if e.Changed? && e.change.workspace == workspace && workspace in scope.members then Some(e.change.current)
      else LatestChange(scope, h[..|h| - 1], workspace)
  }

  /** The frames one event is broadcast as. */
  function FramesOf(scope: Scope, e: StreamEvent): seq<Frame> {
    match e
    case Trail(t) =>
      if t.workspace !in scope.members then []
      else
        var frame := TrailFrame(Enrich(scope, t.workspace, t));
        if Detect(t).Some? then [RefusalFrame(Detect(t).value), frame] else [frame]
    case Gate(g) =>
      if g.workspace !in scope.members then [] else [GateFrame(Enrich(scope, g.workspace, g))]
    case Escalated(x) =>
      if x.workspace !in scope.members then [] else [EscalationFrame(Enrich(scope, x.workspace, x))]
    case Changed(c) =>
      if c.workspace !in scope.members then []
      else if Terminal(scope, e).Some? then [ChangeFrame(c), LifecycleFrame(Terminal(scope, e).value, c.trigger)]
      else [ChangeFrame(c)]
    case Lagged(stream, attempt, reason) => [LagFrame(RefreshHint(stream), stream, attempt, reason)]
    case GaveUp(stream, reason) => [ErrorFrame(stream, reason)]
  }

  /** The session state an event ends the monitor with. */
  function Terminal(scope: Scope, e: StreamEvent): Option<State> {
    match e
    case Changed(c) =>
      if c.workspace in scope.members && c.workspace == scope.root && (c.current == Closed || c.current == Broken) then
        Some(if c.current == Broken then Failed else Completed)
      else None
    case GaveUp(_, _) => Some(Failed)
    case _ => None
  }

  function Frames(scope: Scope, h: seq<StreamEvent>): seq<Frame> {
    if h == [] then [] else Frames(scope, h[..|h| - 1]) + FramesOf(scope, h[|h| - 1])
  }

  // How the specification grows by one event

  function Retain(gates: seq<Labelled<GateEvent>>, id: string): seq<Labelled<GateEvent>> {
    if gates == [] then []
    else if gates[0].raw.gateId != id then [gates[0]] + Retain(gates[1..], id)
    else Retain(gates[1..], id)
  }

  lemma {:induction false} RetainKeepsOthers(gates: seq<Labelled<GateEvent>>, g: Labelled<GateEvent>, id: string)
    ensures Retain([g] + gates, id) == if g.raw.gateId != id then [g] + Retain(gates, id) else Retain(gates, id)
  {
    assert ([g] + gates)[1..] == gates;
  }

  lemma ResolvedInGrows(scope: Scope, h: seq<StreamEvent>, e: StreamEvent, id: string)
    ensures ResolvedIn(scope, h + [e], id) <==> ResolvedIn(scope, h, id) || Resolves(scope, e, id)
  {
    assert (h + [e])[|h|] == e;
    assert forall k :: 0 <= k < |h| ==> (h + [e])[k] == h[k];
  }

  /** A resolving entry prunes the pending gates; a gate joins them; nothing else touches them. */
  lemma {:induction false} PendingGatesGrow(scope: Scope, h: seq<StreamEvent>, e: StreamEvent)
    ensures PendingGates(scope, h + [e]) ==
      if IsGate(scope, e) then PendingGates(scope, h) + [Enrich(scope, e.gate.workspace, e.gate)]
      else if e.Trail? && e.entry.gateId.Some? && Resolves(scope, e, e.entry.gateId.value) then
        Retain(PendingGates(scope, h), e.entry.gateId.value)
      else PendingGates(scope, h)
  {
    if h == [] {
      assert h + [e] == [e];
    } else {
      assert (h + [e])[1..] == h[1..] + [e] && (h + [e])[0] == h[0];
      PendingGatesGrow(scope, h[1..], e);
      if IsGate(scope, h[0]) {
        ResolvedInGrows(scope, h[1..], e, h[0].gate.gateId);
        if e.Trail? && e.entry.gateId.Some? {
          RetainKeepsOthers(PendingGates(scope, h[1..]), Enrich(scope, h[0].gate.workspace, h[0].gate),
                            e.entry.gateId.value);
        }
      }
    }
  }

  lemma {:induction false} PendingEscalationsGrow(scope: Scope, h: seq<StreamEvent>, e: StreamEvent)
    ensures PendingEscalations(scope, h + [e]) == PendingEscalations(scope, h) + PendingEscalations(scope, [e])
  {
    if h == [] {
      assert h + [e] == [e];
    } else {
      assert (h + [e])[1..] == h[1..] + [e];
      PendingEscalationsGrow(scope, h[1..], e);
    }
  }

  lemma {:induction false} PendingRefusalsGrow(scope: Scope, h: seq<StreamEvent>, e: StreamEvent)
    ensures PendingRefusals(scope, h + [e]) == PendingRefusals(scope, h) + PendingRefusals(scope, [e])
  {
    if h == [] {
      assert h + [e] == [e];
    } else {
      assert (h + [e])[1..] == h[1..] + [e];
      PendingRefusalsGrow(scope, h[1..], e);
    }
  }

  lemma FramesGrow(scope: Scope, h: seq<StreamEvent>, e: StreamEvent)
    ensures Frames(scope, h + [e]) == Frames(scope, h) + FramesOf(scope, e)
  {
    assert (h + [e])[..|h|] == h;
  }

  lemma LatestChangeGrows(scope: Scope, h: seq<StreamEvent>, e: StreamEvent, w: string)
    ensures LatestChange(scope, h + [e], w) ==
      if e.Changed? && e.change.workspace == w && w in scope.members then Some(e.change.current)
      else LatestChange(scope, h, w)
  {
    assert (h + [e])[..|h|] == h;
  }

  predicate StateOf(scope: Scope, seeded: map<string, WorkspaceState>, states: map<string, WorkspaceState>,
                    h: seq<StreamEvent>, w: string) {
    var latest := LatestChange(scope, h, w);
    if latest.Some? then w in states && states[w] == latest.value
    else (w in states <==> w in seeded) && (w in seeded ==> states[w] == seeded[w])
  }

  function StatesAfter(scope: Scope, states: map<string, WorkspaceState>, e: StreamEvent): map<string, WorkspaceState> {
    if e.Changed? && e.change.workspace in scope.members then states[e.change.workspace := e.change.current] else states
  }

  lemma StateGrows(scope: Scope, seeded: map<string, WorkspaceState>, states: map<string, WorkspaceState>,
                   h: seq<StreamEvent>, e: StreamEvent, w: string)
    requires StateOf(scope, seeded, states, h, w)
    ensures StateOf(scope, seeded, StatesAfter(scope, states, e), h + [e], w)
  {
    LatestChangeGrows(scope, h, e, w);
  }

  // The monitor

  datatype Snapshot = Snapshot(workspaces: map<string, WorkspaceState>, gates: nat, escalations: nat, refusals: nat)

  datatype Input = Shutdown | TakeSnapshot | CommandsClosed | Event(event: StreamEvent) | StreamsClosed

  class Monitor {
    const scope: Scope
    const seeded: map<string, WorkspaceState>
    var gates: seq<Labelled<GateEvent>>
    var escalations: seq<Labelled<Escalation>>
    var refusals: seq<Refusal>
    var states: map<string, WorkspaceState>
    var frames: seq<Frame>
    ghost var history: seq<StreamEvent>

    /** Every list and map is what the history says. */
    ghost predicate Valid()
      reads this
    {
      && gates == PendingGates(scope, history)
      && escalations == PendingEscalations(scope, history)
      && refusals == PendingRefusals(scope, history)
      && frames == Frames(scope, history)
      && StatesOf(states, history)
    }

    /** Each workspace has the state of its latest change, or its seeded one if it never changed. */
    ghost predicate StatesOf(states: map<string, WorkspaceState>, h: seq<StreamEvent>) {
      forall w :: StateOf(scope, seeded, states, h, w)
    }

    /** The snapshot is the one of history `h`. */
    ghost predicate Shows(s: Snapshot, h: seq<StreamEvent>) {
      && StatesOf(s.workspaces, h)
      && s.gates == |PendingGates(scope, h)|
      && s.escalations == |PendingEscalations(scope, h)|
      && s.refusals == |PendingRefusals(scope, h)|
    }

    /** `WorkspaceSet::new` with the labels and states that `seed_workspace_labels` found. */
    constructor (root: string, assignments: seq<string>, labels: map<string, string>,
                 seeded: map<string, WorkspaceState>)
      ensures Valid() && history == []
      ensures this.seeded == seeded
      ensures scope == Scope(root, (set a | a in assignments) + {root}, labels)
    {
      scope := Scope(root, (set a | a in assignments) + {root}, labels);
      this.seeded := seeded;
      gates, escalations, refusals, states, frames, history := [], [], [], seeded, [], [];
    }

    method Broadcast(f: Frame)
      modifies this`frames
      ensures frames == old(frames) + [f]
    {
      frames := frames + [f];
    }

    /** `Vec::retain` on the pending gates. */
    method Prune(id: string)
      modifies this`gates
      ensures gates == Retain(old(gates), id)
    {
      var kept: seq<Labelled<GateEvent>> := [];
      var i := |gates|;
      while i > 0
        invariant 0 <= i <= |gates|
        invariant gates == old(gates)
        invariant kept == Retain(gates[i..], id)
      {
        i := i - 1;
        assert gates[i..][1..] == gates[i + 1..];
        if gates[i].raw.gateId != id {
          kept := [gates[i]] + kept;
        }
      }
      assert gates[0..] == gates;
      gates := kept;
    }

    /** A trail entry of a member: refusal, gate pruning, trail frame. */
    method HandleTrail(t: TrailEntry)
      requires t.workspace in scope.members
      modifies this`frames, this`gates, this`refusals
      ensures frames == old(frames) + FramesOf(scope, Trail(t))
      ensures refusals == old(refusals) + PendingRefusals(scope, [Trail(t)])
      ensures gates == if t.eventType == "gate_resolved" && t.gateId.Some? then Retain(old(gates), t.gateId.value)
                       else old(gates)
    {
      var refusal := Detect(t);
      if refusal.Some? {
        refusals := refusals + [refusal.value];
        Broadcast(RefusalFrame(refusal.value));
      }
      if t.eventType == "gate_resolved" && t.gateId.Some? {
        Prune(t.gateId.value);
      }
      Broadcast(TrailFrame(Enrich(scope, t.workspace, t)));
    }

    /** A change of a member: state map, change frame, and the lifecycle frame of a root that ended. */
    method HandleChange(c: Change) returns (terminal: Option<State>)
      requires c.workspace in scope.members
      modifies this`frames, this`states
      ensures terminal == Terminal(scope, Changed(c))
      ensures frames == old(frames) + FramesOf(scope, Changed(c))
      ensures states == old(states)[c.workspace := c.current]
    {
      states := states[c.workspace := c.current];
      Broadcast(ChangeFrame(c));
      if c.workspace == scope.root && (c.current == Closed || c.current == Broken) {
        var to := if c.current == Broken then Failed else Completed;
        Broadcast(LifecycleFrame(to, c.trigger));
        return Some(to);
      }
      terminal := None;
    }

    /** The effect of one event on each list, map and the broadcast. */
    method Dispatch(e: StreamEvent) returns (terminal: Option<State>)
      modifies this`gates, this`escalations, this`refusals, this`states, this`frames
      ensures terminal == Terminal(scope, e)
      ensures frames == old(frames) + FramesOf(scope, e)
      ensures refusals == old(refusals) + PendingRefusals(scope, [e])
      ensures escalations == old(escalations) + PendingEscalations(scope, [e])
      ensures gates ==
        if IsGate(scope, e) then old(gates) + [Enrich(scope, e.gate.workspace, e.gate)]
        else if e.Trail? && e.entry.gateId.Some? && Resolves(scope, e, e.entry.gateId.value) then
          Retain(old(gates), e.entry.gateId.value)
        else old(gates)
      ensures states == StatesAfter(scope, old(states), e)
    {
      terminal := None;
      match e {
        case Trail(t) =>
          if t.workspace in scope.members {
            HandleTrail(t);
          }
        case Gate(g) =>
          if g.workspace in scope.members {
            gates := gates + [Enrich(scope, g.workspace, g)];
            Broadcast(GateFrame(Enrich(scope, g.workspace, g)));
          }
        case Escalated(x) =>
          if x.workspace in scope.members {
            escalations := escalations + [Enrich(scope, x.workspace, x)];
            Broadcast(EscalationFrame(Enrich(scope, x.workspace, x)));
          }
        case Changed(c) =>
          if c.workspace in scope.members {
            terminal := HandleChange(c);
          }
        case Lagged(stream, attempt, reason) =>
          Broadcast(LagFrame(RefreshHint(stream), stream, attempt, reason));
        case GaveUp(stream, reason) =>
          Broadcast(ErrorFrame(stream, reason));
          terminal := Some(Failed);
      }
    }

    /** `handle_event`. */
    method HandleEvent(e: StreamEvent) returns (terminal: Option<State>)
      requires Valid()
      modifies this
      ensures Valid() && history == old(history) + [e]
      ensures terminal == Terminal(scope, e)
    {
      ghost var h := history;
      forall w
        ensures StateOf(scope, seeded, StatesAfter(scope, states, e), h + [e], w)
      {
        assert StateOf(scope, seeded, states, h, w);
        StateGrows(scope, seeded, states, h, e, w);
      }
      PendingGatesGrow(scope, h, e);
      PendingEscalationsGrow(scope, h, e);
      PendingRefusalsGrow(scope, h, e);
      FramesGrow(scope, h, e);
      terminal := Dispatch(e);
      history := h + [e];
    }

    /** The reply to a snapshot command. */
    method Take() returns (s: Snapshot)
      requires Valid()
      ensures Shows(s, history)
    {
      s := Snapshot(states, |gates|, |escalations|, |refusals|);
    }

    /**
     * `run`: the events up to the first one that ends the session are handled;
     * `recorded` is the terminal state then written.
     */
    method Run(inputs: seq<Input>) returns (recorded: Option<State>, snapshots: seq<Snapshot>)
      requires Valid() && history == []
      modifies this
      ensures Valid() && history == Played(scope, inputs, |inputs|).history
      ensures recorded == Played(scope, inputs, |inputs|).ended
      ensures AllShown(snapshots, Played(scope, inputs, |inputs|).taken)
    {
      recorded, snapshots := None, [];
      var i := 0;
      while i < |inputs|
        invariant 0 <= i <= |inputs|
        invariant Valid() && recorded.None?
        invariant Played(scope, inputs, i).history == history
        invariant !Played(scope, inputs, i).stopped && Played(scope, inputs, i).ended.None?
        invariant AllShown(snapshots, Played(scope, inputs, i).taken)
      {
        var input := inputs[i];
        i := i + 1;
        match input {
          case TakeSnapshot =>
            var s := Take();
            snapshots := snapshots + [s];
          case Event(e) =>
            recorded := HandleEvent(e);
            if recorded.Some? {
              StoppedStays(scope, inputs, i, |inputs|);
              return;
            }
          case _ =>
            StoppedStays(scope, inputs, i, |inputs|);
            return;
        }
      }
    }

    ghost predicate AllShown(snapshots: seq<Snapshot>, taken: seq<seq<StreamEvent>>) {
      |snapshots| == |taken| && forall k :: 0 <= k < |taken| ==> Shows(snapshots[k], taken[k])
    }
  }

  /** A run so far: the events handled, the history at each snapshot, whether and how it ended. */
  datatype Play = Play(history: seq<StreamEvent>, taken: seq<seq<StreamEvent>>, stopped: bool, ended: Option<State>)

  /** The first `i` inputs of a run: nothing is read after a shutdown, a closed channel or a terminal event. */
  function Played(scope: Scope, inputs: seq<Input>, i: nat): Play
    requires i <= |inputs|
  {
    if i == 0 then Play([], [], false, None)
    else
      var p := Played(scope, inputs, i - 1);
      if p.stopped then p
      else
        match inputs[i - 1]
        case TakeSnapshot => p.(taken := p.taken + [p.history])
        case Event(e) =>
          p.(history := p.history + [e], stopped := Terminal(scope, e).Some?, ended := Terminal(scope, e))
        case _ => p.(stopped := true)
  }

  lemma {:induction false} StoppedStays(scope: Scope, inputs: seq<Input>, i: nat, n: nat)
    requires i <= n <= |inputs| && Played(scope, inputs, i).stopped
    ensures Played(scope, inputs, n) == Played(scope, inputs, i)
    decreases n
  {
    if i < n {
      StoppedStays(scope, inputs, i, n - 1);
    }
  }
}
