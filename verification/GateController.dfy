/**
 * Approval gates: two maps of pending gates and one id counter
 * (wacp/crates/wacp-coordinator/src/gate.rs), proved against a specification
 * that only looks at the calls made so far.
 */
module GateController {
  import opened Options

  datatype Fallback = AutoApprove | Cancel

  datatype Decision = Approve | Reject | Modify

  datatype Resolution = Approved(source: string) | Rejected

  datatype GateType = TaskApproval | CheckpointApproval

  datatype TaskGate = TaskGate(gateId: string, taskId: string, taskName: string,
                               timeoutMs: nat, fallback: Fallback, createdAt: nat)

  datatype CheckpointGate = CheckpointGate(gateId: string, workspaceId: string, checkpointId: string,
                                           checkpointType: string, timeoutMs: nat, fallback: Fallback, createdAt: nat)

  datatype GateEvent = GateEvent(gateId: string, gateType: GateType, subject: string, workspaceId: string,
                                 taskId: Option<string>, timeoutMs: nat, fallbackAction: string, createdAt: nat)

  datatype Defaults = Defaults(timeoutMs: nat, fallback: Fallback)

  /** The calls that change the controller. */
  datatype Call =
    | Open(taskId: string, taskName: string, description: string, timeout: Option<nat>, fallback: Option<Fallback>)
    | OpenCheckpoint(workspaceId: string, checkpointId: string, checkpointType: string,
                     timeout: Option<nat>, fallback: Option<Fallback>)
    | Respond(gateId: string, decision: Decision)
    | Expire(gateId: string)
    | TakeCheckpoint(gateId: string)

  datatype Reply =
    | Issued(event: GateEvent)
    | Settled(resolution: Option<Resolution>)
    | Taken(gate: Option<CheckpointGate>)

  // Gate names

  function Digit(n: nat): char
    requires n < 10
  {
    '0' + n as char
  }

  function Decimal(n: nat): (s: string)
    ensures s != []
  {
    if n < 10 then [Digit(n)] else Decimal(n / 10) + [Digit(n % 10)]
  }

  function Name(n: nat): string {
    "gate-" + Decimal(n)
  }

  lemma {:induction false} DecimalInjective(m: nat, n: nat)
    requires Decimal(m) == Decimal(n)
    ensures m == n
  {
    var s, t := Decimal(m), Decimal(n);
    assert s[|s| - 1] == Digit(m % 10) && t[|t| - 1] == Digit(n % 10);
    if m >= 10 && n >= 10 {
      assert s[..|s| - 1] == Decimal(m / 10) && t[..|t| - 1] == Decimal(n / 10);
      DecimalInjective(m / 10, n / 10);
    }
  }

  lemma NameInjective(m: nat, n: nat)
    requires Name(m) == Name(n)
    ensures m == n
  {
    assert Name(m)[5..] == Decimal(m) && Name(n)[5..] == Decimal(n);
    DecimalInjective(m, n);
  }

  // The specification: what the calls so far say

  predicate Opens(c: Call) {
    c.Open? || c.OpenCheckpoint?
  }

  /** How many gates, of both kinds, the first `n` calls opened. */
  function Before(calls: seq<Call>, n: nat): nat
    requires n <= |calls|
  {
    if n == 0 then 0 else Before(calls, n - 1) + if Opens(calls[n - 1]) then 1 else 0
  }

  function Opened(calls: seq<Call>): nat {
    Before(calls, |calls|)
  }

  /** Call `j` opened the gate of this name. */
  predicate Opener(calls: seq<Call>, j: int, id: string) {
    0 <= j < |calls| && Opens(calls[j]) && id == Name(Before(calls, j) + 1)
  }

  /** The call would settle a waiting task gate, or checkpoint gate, of this name. */
  predicate Ends(c: Call, id: string, task: bool) {
    if task then c == Expire(id) || (c.Respond? && c.gateId == id) else c == TakeCheckpoint(id)
  }

  /** The call would settle a waiting gate of this name, if it is of the kind the opening call made. */
  predicate Closes(opening: Call, c: Call, id: string) {
    Ends(c, id, opening.Open?)
  }

  /** Call `j` opened the gate and nothing since then settled it. */
  predicate WaitsSince(calls: seq<Call>, j: int, id: string) {
    Opener(calls, j, id) && forall i :: j < i < |calls| ==> !Closes(calls[j], calls[i], id)
  }

  ghost predicate Waiting(calls: seq<Call>, id: string, task: bool) {
    exists j :: WaitsSince(calls, j, id) && calls[j].Open? == task
  }

  function Timeout(c: Call, d: Defaults): nat
    requires Opens(c)
  {
    if c.timeout.Some? then c.timeout.value else d.timeoutMs
  }

  function FallbackOf(c: Call, d: Defaults): Fallback
    requires Opens(c)
  {
    if c.fallback.Some? then c.fallback.value else d.fallback
  }

  function TaskGateOf(c: Call, id: string, d: Defaults): TaskGate
    requires c.Open?
  {
    TaskGate(id, c.taskId, c.taskName, Timeout(c, d), FallbackOf(c, d), 0)
  }

  function CheckpointGateOf(c: Call, id: string, d: Defaults): CheckpointGate
    requires c.OpenCheckpoint?
  {
    CheckpointGate(id, c.workspaceId, c.checkpointId, c.checkpointType, Timeout(c, d), FallbackOf(c, d), 0)
  }

  function EventOf(c: Call, id: string, d: Defaults): GateEvent
    requires Opens(c)
  {
    var action := if FallbackOf(c, d) == AutoApprove then "auto_approve" else "cancel";
    if c.Open? then GateEvent(id, TaskApproval, c.description, "", Some(c.taskId), Timeout(c, d), action, 0)
    else GateEvent(id, CheckpointApproval, c.checkpointId, c.workspaceId, None, Timeout(c, d), action, 0)
  }

  function Decided(d: Decision): Resolution {
    if d == Reject then Rejected else Approved("human")
  }

  function TimedOut(f: Fallback): Resolution {
    if f == AutoApprove then Approved("timeout_auto_approve") else Rejected
  }

  /** The reply to a call, as a matter of the calls made before it. */
  ghost predicate Answers(calls: seq<Call>, c: Call, d: Defaults, r: Reply) {
    match c
    case Open(_, _, _, _, _) => r == Issued(EventOf(c, Name(Opened(calls) + 1), d))
    case OpenCheckpoint(_, _, _, _, _) => r == Issued(EventOf(c, Name(Opened(calls) + 1), d))
    case Respond(id, decision) => r == Settled(if Waiting(calls, id, true) then Some(Decided(decision)) else None)
    case Expire(id) =>
      && r.Settled? && (r.resolution.Some? <==> Waiting(calls, id, true))
      && forall j :: Opener(calls, j, id) && r.resolution.Some? ==>
           r.resolution.value == TimedOut(FallbackOf(calls[j], d))
    case TakeCheckpoint(id) =>
      && r.Taken? && (r.gate.Some? <==> Waiting(calls, id, false))
      && forall j :: Opener(calls, j, id) && calls[j].OpenCheckpoint? && r.gate.Some? ==>
           r.gate.value == CheckpointGateOf(calls[j], id, d)
  }

  // One call at a time

  lemma {:induction false} BeforeDependsOnPrefix(a: seq<Call>, b: seq<Call>, n: nat)
    requires n <= |a| && n <= |b| && forall k :: 0 <= k < n ==> a[k] == b[k]
    ensures Before(a, n) == Before(b, n)
  {
    if n > 0 {
      BeforeDependsOnPrefix(a, b, n - 1);
    }
  }

  lemma {:induction false} BeforeGrows(calls: seq<Call>, i: nat, j: nat)
    requires i < j <= |calls| && Opens(calls[i])
    ensures Before(calls, i) < Before(calls, j)
  {
    if i < j - 1 {
      BeforeGrows(calls, i, j - 1);
    }
  }

  /** A name is given out once. */
  lemma OpenerIsUnique(calls: seq<Call>, i: int, j: int, id: string)
    requires Opener(calls, i, id) && Opener(calls, j, id)
    ensures i == j
  {
    NameInjective(Before(calls, i) + 1, Before(calls, j) + 1);
    if i < j {
      BeforeGrows(calls, i, j);
    } else if j < i {
      BeforeGrows(calls, j, i);
    }
  }

  lemma OpenerAfter(calls: seq<Call>, c: Call, j: int, id: string)
    ensures Opener(calls + [c], j, id) <==>
      Opener(calls, j, id) || (j == |calls| && Opens(c) && id == Name(Opened(calls) + 1))
  {
    if 0 <= j <= |calls| {
      BeforeDependsOnPrefix(calls, calls + [c], j);
    }
  }

  lemma OpenedAfter(calls: seq<Call>, c: Call)
    ensures Opened(calls + [c]) == Opened(calls) + if Opens(c) then 1 else 0
  {
    BeforeDependsOnPrefix(calls, calls + [c], |calls|);
  }

  /** Opening makes exactly the new name wait, a settling call ends one wait, and nothing else changes. */
  lemma WaitingAfter(calls: seq<Call>, c: Call, id: string, task: bool)
    ensures Waiting(calls + [c], id, task) <==>
      || (Opens(c) && c.Open? == task && id == Name(Opened(calls) + 1))
      || (Waiting(calls, id, task) && !Ends(c, id, task))
  {
    var after := calls + [c];
    if Waiting(after, id, task) {
      var j :| WaitsSince(after, j, id) && after[j].Open? == task;
      OpenerAfter(calls, c, j, id);
      if j < |calls| {
        forall i | j < i < |calls|
          ensures !Closes(calls[j], calls[i], id)
        {
          assert after[i] == calls[i];
        }
        assert WaitsSince(calls, j, id);
        assert !Closes(after[j], after[|calls|], id);
      }
    }
    if Opens(c) && c.Open? == task && id == Name(Opened(calls) + 1) {
      OpenerAfter(calls, c, |calls|, id);
      assert WaitsSince(after, |calls|, id);
    }
    if Waiting(calls, id, task) && !Ends(c, id, task) {
      var j :| WaitsSince(calls, j, id) && calls[j].Open? == task;
      OpenerAfter(calls, c, j, id);
      assert WaitsSince(after, j, id);
    }
  }

  lemma NewNameIsUnused(calls: seq<Call>, j: int)
    ensures !Opener(calls, j, Name(Opened(calls) + 1))
  {
    if Opener(calls, j, Name(Opened(calls) + 1)) {
      NameInjective(Before(calls, j) + 1, Opened(calls) + 1);
      BeforeGrows(calls, j, |calls|);
      assert false;
    }
  }

  // The controller

  /** The task map holds the waiting task gates, as their opening calls described them. */
  ghost predicate TasksMatch(calls: seq<Call>, d: Defaults, pending: map<string, TaskGate>) {
    && (forall id :: id in pending <==> Waiting(calls, id, true))
    && (forall id :: id in pending ==> DescribesTask(calls, d, id, pending[id]))
  }

  ghost predicate DescribesTask(calls: seq<Call>, d: Defaults, id: string, gate: TaskGate) {
    forall j :: Opener(calls, j, id) ==> calls[j].Open? && gate == TaskGateOf(calls[j], id, d)
  }

  ghost predicate CheckpointsMatch(calls: seq<Call>, d: Defaults, pending: map<string, CheckpointGate>) {
    && (forall id :: id in pending <==> Waiting(calls, id, false))
    && (forall id :: id in pending ==> DescribesCheckpoint(calls, d, id, pending[id]))
  }

  ghost predicate DescribesCheckpoint(calls: seq<Call>, d: Defaults, id: string, gate: CheckpointGate) {
    forall j :: Opener(calls, j, id) ==> calls[j].OpenCheckpoint? && gate == CheckpointGateOf(calls[j], id, d)
  }

  /** An opener stays the opener while other names are given out. */
  lemma DescribedAfter(calls: seq<Call>, c: Call, d: Defaults, id: string)
    requires Opens(c) ==> id != Name(Opened(calls) + 1)
    ensures forall g :: DescribesTask(calls, d, id, g) ==> DescribesTask(calls + [c], d, id, g)
    ensures forall g :: DescribesCheckpoint(calls, d, id, g) ==> DescribesCheckpoint(calls + [c], d, id, g)
  {
    forall j
      ensures Opener(calls + [c], j, id) <==> Opener(calls, j, id)
    {
      OpenerAfter(calls, c, j, id);
    }
  }

  lemma NewIsDescribed(calls: seq<Call>, c: Call, d: Defaults)
    requires Opens(c)
    ensures var id := Name(Opened(calls) + 1);
      && (c.Open? ==> DescribesTask(calls + [c], d, id, TaskGateOf(c, id, d)))
      && (c.OpenCheckpoint? ==> DescribesCheckpoint(calls + [c], d, id, CheckpointGateOf(c, id, d)))
  {
    var id := Name(Opened(calls) + 1);
    forall j
      ensures Opener(calls + [c], j, id) ==> j == |calls|
    {
      OpenerAfter(calls, c, j, id);
      NewNameIsUnused(calls, j);
    }
  }

  function NextTasks(pending: map<string, TaskGate>, c: Call, newId: string, d: Defaults): map<string, TaskGate> {
    if c.Open? then pending[newId := TaskGateOf(c, newId, d)]
    else if c.Respond? || c.Expire? then pending - {c.gateId}
    else pending
  }

  function NextCheckpoints(pending: map<string, CheckpointGate>, c: Call, newId: string, d: Defaults)
    : map<string, CheckpointGate>
  {
    if c.OpenCheckpoint? then pending[newId := CheckpointGateOf(c, newId, d)]
    else if c.TakeCheckpoint? then pending - {c.gateId}
    else pending
  }

  lemma TasksAfter(calls: seq<Call>, d: Defaults, pending: map<string, TaskGate>, c: Call, newId: string)
    requires TasksMatch(calls, d, pending) && newId == Name(Opened(calls) + 1)
    ensures TasksMatch(calls + [c], d, NextTasks(pending, c, newId, d))
  {
    var after := calls + [c];
    var now := NextTasks(pending, c, newId, d);
    forall id
      ensures id in now <==> Waiting(after, id, true)
      ensures id in now ==> DescribesTask(after, d, id, now[id])
    {
      WaitingAfter(calls, c, id, true);
      if Opens(c) && id == newId {
        NewIsDescribed(calls, c, d);
        NewIsNotWaiting(calls, newId);
      } else {
        DescribedAfter(calls, c, d, id);
      }
    }
  }

  lemma NewIsNotWaiting(calls: seq<Call>, newId: string)
    requires newId == Name(Opened(calls) + 1)
    ensures !Waiting(calls, newId, true) && !Waiting(calls, newId, false)
  {
    forall j
      ensures !Opener(calls, j, newId)
    {
      NewNameIsUnused(calls, j);
    }
  }

  lemma CheckpointsAfter(calls: seq<Call>, d: Defaults, pending: map<string, CheckpointGate>, c: Call, newId: string)
    requires CheckpointsMatch(calls, d, pending) && newId == Name(Opened(calls) + 1)
    ensures CheckpointsMatch(calls + [c], d, NextCheckpoints(pending, c, newId, d))
  {
    var after := calls + [c];
    var now := NextCheckpoints(pending, c, newId, d);
    forall id
      ensures id in now <==> Waiting(after, id, false)
      ensures id in now ==> DescribesCheckpoint(after, d, id, now[id])
    {
      WaitingAfter(calls, c, id, false);
      if Opens(c) && id == newId {
        NewIsDescribed(calls, c, d);
        NewIsNotWaiting(calls, newId);
      } else {
        DescribedAfter(calls, c, d, id);
      }
    }
  }

  // Settling

  /** The call settles a gate that was waiting. */
  ghost predicate Settles(calls: seq<Call>, c: Call) {
    if c.Respond? || c.Expire? then Waiting(calls, c.gateId, true)
    else c.TakeCheckpoint? && Waiting(calls, c.gateId, false)
  }

  ghost function Settlements(calls: seq<Call>): nat {
    if calls == [] then 0
    else
      var before := calls[..|calls| - 1];
      Settlements(before) + if Settles(before, calls[|calls| - 1]) then 1 else 0
  }

  // The state after some calls

  datatype State = State(tasks: map<string, TaskGate>, checkpoints: map<string, CheckpointGate>, nextId: nat)

  function Next(s: State, c: Call, d: Defaults): State {
    State(NextTasks(s.tasks, c, Name(s.nextId), d),
          NextCheckpoints(s.checkpoints, c, Name(s.nextId), d),
          if Opens(c) then s.nextId + 1 else s.nextId)
  }

  function StateAfter(calls: seq<Call>, d: Defaults): State {
    if calls == [] then State(map[], map[], 1)
    else Next(StateAfter(calls[..|calls| - 1], d), calls[|calls| - 1], d)
  }

  function ReplyIn(s: State, c: Call, d: Defaults): Reply {
    match c
    case Open(_, _, _, _, _) => Issued(EventOf(c, Name(s.nextId), d))
    case OpenCheckpoint(_, _, _, _, _) => Issued(EventOf(c, Name(s.nextId), d))
    case Respond(id, decision) => Settled(if id in s.tasks then Some(Decided(decision)) else None)
    case Expire(id) => Settled(if id in s.tasks then Some(TimedOut(s.tasks[id].fallback)) else None)
    case TakeCheckpoint(id) => Taken(if id in s.checkpoints then Some(s.checkpoints[id]) else None)
  }

  /** The two maps hold exactly what is waiting, described as its opening call did. */
  lemma {:induction false} StateMatchesCalls(calls: seq<Call>, d: Defaults)
    ensures StateAfter(calls, d).nextId == Opened(calls) + 1
    ensures TasksMatch(calls, d, StateAfter(calls, d).tasks)
    ensures CheckpointsMatch(calls, d, StateAfter(calls, d).checkpoints)
  {
    if calls == [] {
      assert forall id, task :: !Waiting(calls, id, task);
    } else {
      var before, c := calls[..|calls| - 1], calls[|calls| - 1];
      StateMatchesCalls(before, d);
      var s := StateAfter(before, d);
      assert calls == before + [c];
      OpenedAfter(before, c);
      TasksAfter(before, d, s.tasks, c, Name(s.nextId));
      CheckpointsAfter(before, d, s.checkpoints, c, Name(s.nextId));
    }
  }

  /** The call takes a gate out of one of the maps. */
  predicate Takes(s: State, c: Call) {
    if c.Respond? || c.Expire? then c.gateId in s.tasks else c.TakeCheckpoint? && c.gateId in s.checkpoints
  }

  predicate UnusedName(s: State) {
    Name(s.nextId) !in s.tasks && Name(s.nextId) !in s.checkpoints
  }

  lemma SettlingTakes(calls: seq<Call>, d: Defaults, c: Call)
    ensures Settles(calls, c) <==> Takes(StateAfter(calls, d), c)
    ensures UnusedName(StateAfter(calls, d))
  {
    StateMatchesCalls(calls, d);
    NewIsNotWaiting(calls, Name(Opened(calls) + 1));
  }

  lemma SizesAfter(s: State, c: Call, d: Defaults)
    requires UnusedName(s)
    ensures |Next(s, c, d).tasks| + |Next(s, c, d).checkpoints| + (if Takes(s, c) then 1 else 0)
         == |s.tasks| + |s.checkpoints| + if Opens(c) then 1 else 0
  {
    if !Opens(c) {
      RemoveKey(s.tasks, c.gateId);
      RemoveKey(s.checkpoints, c.gateId);
    }
  }

  lemma Unfolded(before: seq<Call>, c: Call, d: Defaults)
    ensures StateAfter(before + [c], d) == Next(StateAfter(before, d), c, d)
    ensures Settlements(before + [c]) == Settlements(before) + if Settles(before, c) then 1 else 0
  {
    assert (before + [c])[..|before|] == before;
  }

  ghost function Balance(calls: seq<Call>, s: State): int {
    Opened(calls) - |s.tasks| - |s.checkpoints| - Settlements(calls)
  }

  lemma BalanceKept(before: seq<Call>, c: Call, d: Defaults)
    ensures Balance(before + [c], StateAfter(before + [c], d)) == Balance(before, StateAfter(before, d))
  {
    Unfolded(before, c, d);
    OpenedAfter(before, c);
    SettlingTakes(before, d, c);
    SizesAfter(StateAfter(before, d), c, d);
  }

  /** What holds of no calls and is kept by every call holds of all calls. */
  lemma {:induction false} CallByCall(p: seq<Call> -> bool, calls: seq<Call>)
    requires p([]) && forall before, c :: p(before) ==> p(before + [c])
    ensures p(calls)
  {
    if calls != [] {
      var before, c := calls[..|calls| - 1], calls[|calls| - 1];
      CallByCall(p, before);
      assert calls == before + [c];
    }
  }

  /** No gate is lost and none appears from nowhere. */
  lemma GatesAreConserved(calls: seq<Call>, d: Defaults)
    ensures Opened(calls) == |StateAfter(calls, d).tasks| + |StateAfter(calls, d).checkpoints| + Settlements(calls)
  {
    ghost var balanced := (cs: seq<Call>) => Balance(cs, StateAfter(cs, d)) == 0;
    forall before, c | balanced(before)
      ensures balanced(before + [c])
    {
      BalanceKept(before, c, d);
    }
    CallByCall(balanced, calls);
  }

  lemma ReplyAnswers(calls: seq<Call>, c: Call, d: Defaults)
    ensures Answers(calls, c, d, ReplyIn(StateAfter(calls, d), c, d))
  {
    StateMatchesCalls(calls, d);
  }

  class Controller {
    const defaults: Defaults
    var pending: map<string, TaskGate>
    var pendingCheckpoints: map<string, CheckpointGate>
    var nextId: nat

    function View(): State
      reads this
    {
      State(pending, pendingCheckpoints, nextId)
    }

    constructor (d: Defaults)
      ensures View() == StateAfter([], d) && defaults == d
    {
      defaults := d;
      pending := map[];
      pendingCheckpoints := map[];
      nextId := 1;
    }

    method OpenGate(taskId: string, taskName: string, description: string, timeout: Option<nat>,
                    fallback: Option<Fallback>)
      returns (event: GateEvent)
      modifies this
      ensures var c := Open(taskId, taskName, description, timeout, fallback);
        View() == Next(old(View()), c, defaults) && Issued(event) == ReplyIn(old(View()), c, defaults)
    {
      var gateId := Name(nextId);
      nextId := nextId + 1;
      var timeoutMs := if timeout.Some? then timeout.value else defaults.timeoutMs;
      var onTimeout := if fallback.Some? then fallback.value else defaults.fallback;
      pending := pending[gateId := TaskGate(gateId, taskId, taskName, timeoutMs, onTimeout, 0)];
      var action := match onTimeout { case AutoApprove => "auto_approve" case Cancel => "cancel" };
      event := GateEvent(gateId, TaskApproval, description, "", Some(taskId), timeoutMs, action, 0);
    }

    method OpenCheckpointGate(workspaceId: string, checkpointId: string, checkpointType: string,
                              timeout: Option<nat>, fallback: Option<Fallback>)
      returns (event: GateEvent)
      modifies this
      ensures var c := OpenCheckpoint(workspaceId, checkpointId, checkpointType, timeout, fallback);
        View() == Next(old(View()), c, defaults) && Issued(event) == ReplyIn(old(View()), c, defaults)
    {
      var gateId := Name(nextId);
      nextId := nextId + 1;
      var timeoutMs := if timeout.Some? then timeout.value else defaults.timeoutMs;
      var onTimeout := if fallback.Some? then fallback.value else defaults.fallback;
      pendingCheckpoints := pendingCheckpoints[
        gateId := CheckpointGate(gateId, workspaceId, checkpointId, checkpointType, timeoutMs, onTimeout, 0)];
      var action := match onTimeout { case AutoApprove => "auto_approve" case Cancel => "cancel" };
      event := GateEvent(gateId, CheckpointApproval, checkpointId, workspaceId, None, timeoutMs, action, 0);
    }

    method Resolve(gateId: string, decision: Decision) returns (resolution: Option<Resolution>)
      modifies this`pending
      ensures View() == Next(old(View()), Respond(gateId, decision), defaults)
      ensures Settled(resolution) == ReplyIn(old(View()), Respond(gateId, decision), defaults)
    {
      if gateId !in pending {
        NothingToRemove(pending, gateId);
        return None;
      }
      pending := pending - {gateId};
      match decision
      case Approve => return Some(Approved("human"));
      case Modify => return Some(Approved("human"));
      case Reject => return Some(Rejected);
    }

    method TimeOut(gateId: string) returns (resolution: Option<Resolution>)
      modifies this`pending
      ensures View() == Next(old(View()), Expire(gateId), defaults)
      ensures Settled(resolution) == ReplyIn(old(View()), Expire(gateId), defaults)
    {
      if gateId !in pending {
        NothingToRemove(pending, gateId);
        return None;
      }
      var gate := pending[gateId];
      pending := pending - {gateId};
      match gate.fallback
      case AutoApprove => return Some(Approved("timeout_auto_approve"));
      case Cancel => return Some(Rejected);
    }

    method ResolveCheckpoint(gateId: string) returns (gate: Option<CheckpointGate>)
      modifies this`pendingCheckpoints
      ensures View() == Next(old(View()), TakeCheckpoint(gateId), defaults)
      ensures Taken(gate) == ReplyIn(old(View()), TakeCheckpoint(gateId), defaults)
    {
      if gateId !in pendingCheckpoints {
        NothingToRemove(pendingCheckpoints, gateId);
        return None;
      }
      gate := Some(pendingCheckpoints[gateId]);
      pendingCheckpoints := pendingCheckpoints - {gateId};
    }

    method Perform(c: Call) returns (reply: Reply)
      modifies this
      ensures View() == Next(old(View()), c, defaults) && reply == ReplyIn(old(View()), c, defaults)
    {
      match c
      case Open(taskId, name, description, timeout, fallback) =>
        var event := OpenGate(taskId, name, description, timeout, fallback);
        reply := Issued(event);
      case OpenCheckpoint(workspaceId, checkpointId, checkpointType, timeout, fallback) =>
        var event := OpenCheckpointGate(workspaceId, checkpointId, checkpointType, timeout, fallback);
        reply := Issued(event);
      case Respond(gateId, decision) =>
        var resolution := Resolve(gateId, decision);
        reply := Settled(resolution);
      case Expire(gateId) =>
        var resolution := TimeOut(gateId);
        reply := Settled(resolution);
      case TakeCheckpoint(gateId) =>
        var gate := ResolveCheckpoint(gateId);
        reply := Taken(gate);
    }
  }

  lemma NothingToRemove<V>(m: map<string, V>, k: string)
    requires k !in m
    ensures m - {k} == m
  {
  }

  lemma RemoveKey<V>(m: map<string, V>, k: string)
    ensures |m - {k}| == |m| - if k in m then 1 else 0
  {
    assert (m - {k}).Keys == m.Keys - {k};
    assert |m.Keys| == |m| && |(m - {k}).Keys| == |m - {k}|;
  }

  ghost predicate AnsweredAt(all: seq<Call>, d: Defaults, replies: seq<Reply>, k: int) {
    0 <= k < |all| && k < |replies| && Answers(all[..k], all[k], d, replies[k])
  }

  /** Any calls in any order: each reply is what the calls before it say, and no gate is lost. */
  method Run(all: seq<Call>, d: Defaults) returns (replies: seq<Reply>, waiting: nat)
    ensures |replies| == |all|
    ensures forall k :: 0 <= k < |all| ==> AnsweredAt(all, d, replies, k)
    ensures Opened(all) == waiting + Settlements(all)
  {
    var controller := new Controller(d);
    replies := [];
    var i := 0;
    assert all[..0] == [];
    while i < |all|
      invariant 0 <= i <= |all| && |replies| == i
      invariant controller.View() == StateAfter(all[..i], d) && controller.defaults == d
      invariant forall k :: 0 <= k < i ==> AnsweredAt(all, d, replies, k)
    {
      var reply := controller.Perform(all[i]);
      ReplyAnswers(all[..i], all[i], d);
      KeepAnswers(all, d, replies, reply);
      replies := replies + [reply];
      assert all[..i + 1][..i] == all[..i];
      i := i + 1;
    }
    assert all[..i] == all;
    GatesAreConserved(all, d);
    waiting := |controller.pending| + |controller.pendingCheckpoints|;
  }

  lemma KeepAnswers(all: seq<Call>, d: Defaults, replies: seq<Reply>, reply: Reply)
    requires forall k :: 0 <= k < |replies| ==> AnsweredAt(all, d, replies, k)
    requires |replies| < |all| && Answers(all[..|replies|], all[|replies|], d, reply)
    ensures forall k :: 0 <= k <= |replies| ==> AnsweredAt(all, d, replies + [reply], k)
  {
    forall k | 0 <= k <= |replies|
      ensures AnsweredAt(all, d, replies + [reply], k)
    {
      assert k < |replies| ==> AnsweredAt(all, d, replies, k);
    }
  }

  // Over whole runs

  /** No two openings, of either kind, give out the same id. */
  lemma IssuedIdsDiffer(all: seq<Call>, i: nat, j: nat)
    requires i < j < |all| && Opens(all[i]) && Opens(all[j])
    ensures Name(Opened(all[..i]) + 1) != Name(Opened(all[..j]) + 1)
  {
    BeforeDependsOnPrefix(all[..i], all, i);
    BeforeDependsOnPrefix(all[..j], all, j);
    if Name(Opened(all[..i]) + 1) == Name(Opened(all[..j]) + 1) {
      OpenerIsUnique(all, i, j, Name(Opened(all[..i]) + 1));
    }
  }

  /** No id waits in both maps. */
  lemma KindsAreDisjoint(calls: seq<Call>, id: string)
    ensures !(Waiting(calls, id, true) && Waiting(calls, id, false))
  {
    forall i, j | WaitsSince(calls, i, id) && WaitsSince(calls, j, id)
      ensures i == j
    {
      OpenerIsUnique(calls, i, j, id);
    }
  }

  lemma OpenerInPrefix(all: seq<Call>, n: nat, j: int, id: string)
    requires n <= |all|
    ensures Opener(all[..n], j, id) <==> Opener(all, j, id) && j < n
  {
    if 0 <= j < n {
      BeforeDependsOnPrefix(all[..n], all, j);
    }
  }

  lemma ClosedStaysClosed(all: seq<Call>, b: nat, i: nat, j: nat, id: string)
    requires b < i < j <= |all| && Closes(all[b], all[i], id)
    ensures !WaitsSince(all[..j], b, id)
  {
    assert all[..j][i] == all[i];
  }

  /** A gate is settled at most once, whatever is asked and in whatever order. */
  lemma SettledAtMostOnce(all: seq<Call>, i: nat, j: nat, id: string)
    requires i <= j < |all| && !Opens(all[i]) && !Opens(all[j])
    requires all[i].gateId == id && all[j].gateId == id
    requires Settles(all[..i], all[i]) && Settles(all[..j], all[j])
    ensures i == j
  {
    var a :| WaitsSince(all[..i], a, id) && all[..i][a].Open? == !all[i].TakeCheckpoint?;
    var b :| WaitsSince(all[..j], b, id);
    OpenerInPrefix(all, i, a, id);
    OpenerInPrefix(all, j, b, id);
    OpenerIsUnique(all, a, b, id);
    if i < j {
      ClosedStaysClosed(all, a, i, j, id);
    }
  }
}
