/**
 * The shape of what a monitor broadcasts, over every run.
 */
module MonitorShape {
  import opened Options
  import opened MonitorEvents

  /** The frames that say the session is over. */
  predicate IsFinal(f: Frame) {
    f.LifecycleFrame? || f.ErrorFrame?
  }

  /** The events a whole run handles. */
  function Handled(scope: Scope, inputs: seq<Input>): seq<StreamEvent> {
    Played(scope, inputs, |inputs|).history
  }

  /** Only the last event of a run can be terminal, and it ends the run. */
  lemma {:induction false} TerminalComesLast(scope: Scope, inputs: seq<Input>, i: nat, n: nat)
    requires i <= |inputs| && n < |Played(scope, inputs, i).history|
    requires Terminal(scope, Played(scope, inputs, i).history[n]).Some?
    ensures n == |Played(scope, inputs, i).history| - 1 && Played(scope, inputs, i).stopped
  {
    if i > 0 && n < |Played(scope, inputs, i - 1).history| {
      TerminalComesLast(scope, inputs, i - 1, n);
    }
  }

  lemma OrdinaryEventsSendNoFinal(scope: Scope, e: StreamEvent)
    requires Terminal(scope, e).None?
    ensures forall f :: f in FramesOf(scope, e) ==> !IsFinal(f)
  {
  }

  lemma {:induction false} OrdinaryHistoriesSendNoFinal(scope: Scope, h: seq<StreamEvent>)
    requires forall n :: 0 <= n < |h| ==> Terminal(scope, h[n]).None?
    ensures forall f :: f in Frames(scope, h) ==> !IsFinal(f)
  {
    if h != [] {
      OrdinaryHistoriesSendNoFinal(scope, h[..|h| - 1]);
      OrdinaryEventsSendNoFinal(scope, h[|h| - 1]);
    }
  }

  /** At most one final frame is ever broadcast, and it is the last frame of the run. */
  lemma FinalFrameIsLast(scope: Scope, inputs: seq<Input>, k: nat)
    requires k < |Frames(scope, Handled(scope, inputs))|
    requires IsFinal(Frames(scope, Handled(scope, inputs))[k])
    ensures k == |Frames(scope, Handled(scope, inputs))| - 1
    ensures var h := Handled(scope, inputs); h != [] && Terminal(scope, h[|h| - 1]).Some?
  {
    var h := Handled(scope, inputs);
    var n := |h| - 1;
    var before := h[..n];
    forall m | 0 <= m < |before|
      ensures Terminal(scope, before[m]).None?
    {
      if Terminal(scope, h[m]).Some? {
        TerminalComesLast(scope, inputs, |inputs|, m);
      }
    }
    OrdinaryHistoriesSendNoFinal(scope, before);
    assert Frames(scope, h) == Frames(scope, before) + FramesOf(scope, h[n]);
    assert forall m :: 0 <= m < |Frames(scope, before)| ==> !IsFinal(Frames(scope, before)[m]);
    if Terminal(scope, h[n]).None? {
      OrdinaryEventsSendNoFinal(scope, h[n]);
    }
  }

  // Trail entries and refusals

  /** The trail frames among `frames`, in order. */
  function TrailsIn(frames: seq<Frame>): seq<TrailEntry> {
    if frames == [] then []
    else
      var f := frames[|frames| - 1];
      TrailsIn(frames[..|frames| - 1]) + (if f.TrailFrame? then [f.trail.raw] else [])
  }

  /** The members' trail entries of a history, in order. */
  function MemberTrails(scope: Scope, h: seq<StreamEvent>): seq<TrailEntry> {
    if h == [] then []
    else
      var e := h[|h| - 1];
      MemberTrails(scope, h[..|h| - 1])
        + (if e.Trail? && e.entry.workspace in scope.members then [e.entry] else [])
  }

  lemma {:induction false} TrailsInConcat(a: seq<Frame>, b: seq<Frame>)
    ensures TrailsIn(a + b) == TrailsIn(a) + TrailsIn(b)
  {
    if b == [] {
      assert a + b == a;
    } else {
      TrailsInConcat(a, b[..|b| - 1]);
      assert (a + b)[..|a + b| - 1] == a + b[..|b| - 1];
    }
  }

  lemma TrailsOfOne(f: Frame)
    ensures TrailsIn([f]) == if f.TrailFrame? then [f.trail.raw] else []
  {
    assert [f][..0] == [];
  }

  lemma TrailsOfEvent(scope: Scope, e: StreamEvent)
    ensures TrailsIn(FramesOf(scope, e)) == if e.Trail? && e.entry.workspace in scope.members then [e.entry] else []
  {
    var frames := FramesOf(scope, e);
    if |frames| == 2 {
      TrailsInConcat([frames[0]], [frames[1]]);
      TrailsOfOne(frames[0]);
      TrailsOfOne(frames[1]);
    } else if |frames| == 1 {
      TrailsOfOne(frames[0]);
    }
  }

  /** Every member trail entry is broadcast as exactly one trail frame, in event order, and nothing else is. */
  lemma {:induction false} EveryTrailIsBroadcastOnce(scope: Scope, h: seq<StreamEvent>)
    ensures TrailsIn(Frames(scope, h)) == MemberTrails(scope, h)
  {
    if h != [] {
      var n := |h| - 1;
      EveryTrailIsBroadcastOnce(scope, h[..n]);
      TrailsInConcat(Frames(scope, h[..n]), FramesOf(scope, h[n]));
      TrailsOfEvent(scope, h[n]);
    }
  }

  /** Frame `k` is a refusal frame exactly when the frame after it is the trail frame of the same refused entry. */
  predicate RefusalPaired(frames: seq<Frame>, k: nat)
    requires k < |frames|
  {
    && (frames[k].RefusalFrame? ==>
          && k + 1 < |frames| && frames[k + 1].TrailFrame?
          && Detect(frames[k + 1].trail.raw) == Some(frames[k].refusal))
    && (frames[k].TrailFrame? && Detect(frames[k].trail.raw).Some? ==>
          k > 0 && frames[k - 1] == RefusalFrame(Detect(frames[k].trail.raw).value))
  }

  /** A trail frame directly follows a refusal frame if and only if its entry is a refusal. */
  lemma {:induction false} RefusalsPrecedeTheirTrail(scope: Scope, h: seq<StreamEvent>, k: nat)
    requires k < |Frames(scope, h)|
    ensures RefusalPaired(Frames(scope, h), k)
  {
    if h != [] {
      var n := |h| - 1;
      var before, last := Frames(scope, h[..n]), FramesOf(scope, h[n]);
      assert Frames(scope, h) == before + last;
      if k < |before| {
        RefusalsPrecedeTheirTrail(scope, h[..n], k);
        assert k + 1 < |before| ==> (before + last)[k + 1] == before[k + 1];
      } else {
        assert Frames(scope, h)[k] == last[k - |before|];
        assert k > |before| ==> Frames(scope, h)[k - 1] == last[k - 1 - |before|];
        assert k + 1 < |Frames(scope, h)| ==> Frames(scope, h)[k + 1] == last[k + 1 - |before|];
      }
    }
  }

  // Other sessions' workspaces

  predicate Concerns(scope: Scope, e: StreamEvent) {
    match e
    case Trail(t) => t.workspace in scope.members
    case Gate(g) => g.workspace in scope.members
    case Escalated(x) => x.workspace in scope.members
    case Changed(c) => c.workspace in scope.members
    case _ => true
  }

  /** The history without the events of workspaces outside the session. */
  function Own(scope: Scope, h: seq<StreamEvent>): seq<StreamEvent> {
    if h == [] then []
    else if Concerns(scope, h[0]) then [h[0]] + Own(scope, h[1..])
    else Own(scope, h[1..])
  }

  lemma {:induction false} OwnKeepsResolutions(scope: Scope, h: seq<StreamEvent>, id: string)
    ensures ResolvedIn(scope, Own(scope, h), id) <==> ResolvedIn(scope, h, id)
  {
    if h != [] {
      OwnKeepsResolutions(scope, h[1..], id);
      assert h == [h[0]] + h[1..];
      ResolvedInCons(scope, h[0], h[1..], id);
      ResolvedInCons(scope, h[0], Own(scope, h[1..]), id);
    }
  }

  lemma ResolvedInCons(scope: Scope, e: StreamEvent, h: seq<StreamEvent>, id: string)
    ensures ResolvedIn(scope, [e] + h, id) <==> Resolves(scope, e, id) || ResolvedIn(scope, h, id)
  {
    assert ([e] + h)[0] == e;
    assert forall k :: 0 <= k < |h| ==> ([e] + h)[k + 1] == h[k];
  }

  /** What other sessions' workspaces do changes no pending list. */
  lemma {:induction false} OthersChangeNoPendingList(scope: Scope, h: seq<StreamEvent>)
    ensures PendingGates(scope, Own(scope, h)) == PendingGates(scope, h)
    ensures PendingEscalations(scope, Own(scope, h)) == PendingEscalations(scope, h)
    ensures PendingRefusals(scope, Own(scope, h)) == PendingRefusals(scope, h)
  {
    if h != [] {
      OthersChangeNoPendingList(scope, h[1..]);
      if Concerns(scope, h[0]) {
        assert Own(scope, h)[1..] == Own(scope, h[1..]);
        if IsGate(scope, h[0]) {
          OwnKeepsResolutions(scope, h[1..], h[0].gate.gateId);
        }
      }
    }
  }

  lemma {:induction false} FramesCons(scope: Scope, e: StreamEvent, h: seq<StreamEvent>)
    ensures Frames(scope, [e] + h) == FramesOf(scope, e) + Frames(scope, h)
  {
    if h == [] {
      assert [e] + h == [e];
      assert [e][..0] == [];
    } else {
      var n := |h| - 1;
      FramesCons(scope, e, h[..n]);
      assert ([e] + h)[..n + 1] == [e] + h[..n];
    }
  }

  /** Nor do they send a frame. */
  lemma {:induction false} OthersSendNoFrame(scope: Scope, h: seq<StreamEvent>)
    ensures Frames(scope, Own(scope, h)) == Frames(scope, h)
  {
    if h != [] {
      OthersSendNoFrame(scope, h[1..]);
      assert h == [h[0]] + h[1..];
      FramesCons(scope, h[0], h[1..]);
      if Concerns(scope, h[0]) {
        FramesCons(scope, h[0], Own(scope, h[1..]));
      }
    }
  }
}
