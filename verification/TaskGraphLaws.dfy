/**
 * What holds of the task graph over whole histories: edges follow the order of addition,
 * when the snapshot is complete, and when the readiness counters can be trusted
 * (wacp/crates/wacp-coordinator/src/task_graph.rs, handler.rs).
 */
module TaskGraphLaws {
  import opened Options
  import opened TaskGraph

  const EMPTY := Graph(map[], map[], map[])

  datatype Op = Add(task: Task) | Move(id: Id, trigger: Trigger) | Mark(id: Id)

  ghost predicate Does(g: Graph, op: Op, h: Graph) {
    match op
    case Add(task) => Adds(g, task, h)
    case Move(id, trigger) => h == Moved(g, id, trigger)
    case Mark(id) => h == Released(g, id)
  }

  /** Any calls in any order, from the empty graph. */
  ghost predicate IsHistory(gs: seq<Graph>, ops: seq<Op>) {
    && |gs| == |ops| + 1 && gs[0] == EMPTY
    && forall k :: 0 <= k < |ops| ==> DoesAt(gs, ops, k)
  }

  ghost predicate DoesAt(gs: seq<Graph>, ops: seq<Op>, k: nat)
    requires k < |ops| && |gs| == |ops| + 1
  {
    Does(gs[k], ops[k], gs[k + 1])
  }

  // Edges follow the order of addition

  predicate Keyed(g: Graph) {
    g.remaining.Keys == g.tasks.Keys && forall t :: t in g.tasks ==> g.tasks[t].id == t
  }

  /** Dependencies are present and know who waits for them. */
  predicate Closed(g: Graph) {
    forall t, d :: t in g.tasks && d in g.tasks[t].dependsOn ==> d in g.tasks && t in Edges(g, d)
  }

  predicate Up(rank: map<Id, nat>, a: Id, b: Id) {
    a in rank && (b in rank ==> rank[a] < rank[b])
  }

  /** Edges start at present tasks and lead to tasks added later, or never added. */
  ghost predicate Ranked(g: Graph, rank: map<Id, nat>, bound: nat) {
    && (forall t :: t in g.tasks <==> t in rank)
    && (forall t :: t in rank ==> rank[t] < bound)
    && forall a, b :: b in Edges(g, a) ==> Up(rank, a, b)
  }

  lemma EdgesGrow(g: Graph, task: Task, h: Graph, d: Id, x: Id)
    requires Adds(g, task, h) && task.id !in g.tasks
    ensures x in Edges(g, d) ==> x in Edges(h, d)
    ensures x in Edges(h, d) ==> x in Edges(g, d) || (x == task.id && d in g.tasks)
    ensures Accepts(g, task) && x == task.id && d in task.dependsOn ==> x in Edges(h, d)
  {
    var n := Known(g.tasks, task.dependsOn);
    OccIsIn(Edges(g, d), x);
    OccIsIn(Edges(h, d), x);
    OccIsIn(task.dependsOn[..n], d);
    assert Occ(Out(h.forward, d), x)
        == Occ(Out(g.forward, d), x) + if x == task.id then Occ(task.dependsOn[..n], d) else 0;
    if Accepts(g, task) {
      assert n == |task.dependsOn|;
      assert task.dependsOn[..n] == task.dependsOn;
    }
  }

  lemma AddKeepsRank(g: Graph, task: Task, h: Graph, rank: map<Id, nat>, bound: nat)
    requires Adds(g, task, h) && task.id !in g.tasks && Ranked(g, rank, bound)
    ensures Ranked(h, if Accepts(g, task) then rank[task.id := bound] else rank, bound + 1)
  {
    forall a, b | b in Edges(h, a)
      ensures Up(if Accepts(g, task) then rank[task.id := bound] else rank, a, b)
    {
      EdgesGrow(g, task, h, a, b);
    }
  }

  lemma AddKeepsClosed(g: Graph, task: Task, h: Graph)
    requires Adds(g, task, h) && Closed(g)
    ensures Closed(h)
  {
    if task.id !in g.tasks {
      forall t, d | t in h.tasks && d in h.tasks[t].dependsOn
        ensures d in h.tasks && t in Edges(h, d)
      {
        EdgesGrow(g, task, h, d, t);
      }
    }
  }

  lemma {:induction false} HistoryIsOrdered(gs: seq<Graph>, ops: seq<Op>, k: nat) returns (rank: map<Id, nat>)
    requires IsHistory(gs, ops) && k < |gs|
    ensures Ranked(gs[k], rank, k)
  {
    if k == 0 {
      rank := map[];
    } else {
      rank := HistoryIsOrdered(gs, ops, k - 1);
      assert DoesAt(gs, ops, k - 1);
      rank := StepIsOrdered(gs[k - 1], ops[k - 1], gs[k], rank, k - 1);
    }
  }

  lemma StepIsOrdered(g: Graph, op: Op, h: Graph, was: map<Id, nat>, bound: nat) returns (rank: map<Id, nat>)
    requires Does(g, op, h) && Ranked(g, was, bound)
    ensures Ranked(h, rank, bound + 1)
  {
    rank := was;
    if op.Add? && op.task.id !in g.tasks {
      AddKeepsRank(g, op.task, h, was, bound);
      rank := if Accepts(g, op.task) then was[op.task.id := bound] else was;
    } else {
      assert h.tasks.Keys == g.tasks.Keys;
      assert h.forward == g.forward;
      forall a, b | b in Edges(h, a)
        ensures Up(rank, a, b)
      {
        assert b in Edges(g, a);
      }
    }
  }

  /** Keys are ids, every task has a counter, and dependencies are present and know who waits for them. */
  lemma {:induction false} HistoryIsClosed(gs: seq<Graph>, ops: seq<Op>, k: nat)
    requires IsHistory(gs, ops) && k < |gs|
    ensures Keyed(gs[k]) && Closed(gs[k])
  {
    if k > 0 {
      HistoryIsClosed(gs, ops, k - 1);
      assert DoesAt(gs, ops, k - 1);
      StepIsClosed(gs[k - 1], ops[k - 1], gs[k]);
    }
  }

  lemma StepIsClosed(g: Graph, op: Op, h: Graph)
    requires Does(g, op, h) && Keyed(g) && Closed(g)
    ensures Keyed(h) && Closed(h)
  {
    if op.Add? {
      AddKeepsClosed(g, op.task, h);
    } else {
      SameShape(g, h);
    }
  }

  lemma SameShape(g: Graph, h: Graph)
    requires h.tasks.Keys == g.tasks.Keys && h.forward == g.forward
    requires forall t :: t in g.tasks ==> h.tasks[t].dependsOn == g.tasks[t].dependsOn
    requires Closed(g)
    ensures Closed(h)
  {
    forall t, d | t in h.tasks && d in h.tasks[t].dependsOn
      ensures d in h.tasks && t in Edges(h, d)
    {
      assert d in g.tasks[t].dependsOn;
    }
  }

  // When the snapshot is complete

  ghost predicate Sourceless(g: Graph, t: Id) {
    forall a :: t !in Edges(g, a)
  }

  lemma {:induction false} ReachedFromSource(g: Graph, rank: map<Id, nat>, bound: nat, t: Id)
    requires Ranked(g, rank, bound) && t in g.tasks
    requires forall s :: s in g.tasks && Sourceless(g, s) ==> IsRoot(g, s)
    ensures Reachable(g, t)
    decreases rank[t]
  {
    if Sourceless(g, t) {
      RootsAreReachable(g);
    } else {
      var a :| t in Edges(g, a);
      ReachedFromSource(g, rank, bound, a);
      EdgesAreReachable(g, a);
    }
  }

  lemma ReachedAsRootOrByEdge(g: Graph, t: Id)
    requires Reachable(g, t)
    ensures IsRoot(g, t) || !Sourceless(g, t)
  {
    var p :| IsPath(g, p, t);
    assert |p| > 1 ==> Hop(g, p, |p| - 2);
  }

  /** After any calls, the snapshot lists every task iff every task that no edge leads to has no parent. */
  lemma SnapshotIsComplete(gs: seq<Graph>, ops: seq<Op>, k: nat)
    requires IsHistory(gs, ops) && k < |gs|
    ensures (forall t :: t in gs[k].tasks ==> Reachable(gs[k], t)) <==>
            (forall t :: t in gs[k].tasks && Sourceless(gs[k], t) ==> IsRoot(gs[k], t))
  {
    var rank := HistoryIsOrdered(gs, ops, k);
    OrderedIsComplete(gs[k], rank, k);
  }

  lemma OrderedIsComplete(g: Graph, rank: map<Id, nat>, bound: nat)
    requires Ranked(g, rank, bound)
    ensures (forall t :: t in g.tasks ==> Reachable(g, t)) <==>
            (forall t :: t in g.tasks && Sourceless(g, t) ==> IsRoot(g, t))
  {
    if forall t :: t in g.tasks && Sourceless(g, t) ==> IsRoot(g, t) {
      forall t | t in g.tasks
        ensures Reachable(g, t)
      {
        ReachedFromSource(g, rank, bound, t);
      }
    }
    forall t | Reachable(g, t)
      ensures IsRoot(g, t) || !Sourceless(g, t)
    {
      ReachedAsRootOrByEdge(g, t);
    }
  }

  // Exact edges

  /** Every edge stands for one listed dependency of a present task, and conversely. */
  ghost predicate Exact(g: Graph) {
    forall d, t :: Occ(Edges(g, d), t) == Asks(g, d, t)
  }

  /** How often `t` lists `d` as a dependency. */
  function Asks(g: Graph, d: Id, t: Id): nat {
    if t in g.tasks then Occ(g.tasks[t].dependsOn, d) else 0
  }

  /** On exact edges the sourceless tasks are those without dependencies. */
  lemma SourcelessIsDependencyFree(g: Graph, t: Id)
    requires Exact(g) && t in g.tasks
    ensures Sourceless(g, t) <==> g.tasks[t].dependsOn == []
  {
    var deps := g.tasks[t].dependsOn;
    forall d
      ensures t in Edges(g, d) <==> d in deps
    {
      OccIsIn(Edges(g, d), t);
      OccIsIn(deps, d);
    }
    if deps != [] {
      assert deps[0] in deps;
    }
  }

  /** Adding keeps the edges exact unless it fails after its first dependency was found. */
  lemma AddKeepsExact(g: Graph, task: Task, h: Graph)
    requires Adds(g, task, h) && Exact(g)
    ensures Exact(h) <==> task.id in g.tasks || Accepts(g, task) || task.dependsOn[0] !in g.tasks
  {
    if task.id !in g.tasks {
      var deps := task.dependsOn;
      var n := Known(g.tasks, deps);
      if Accepts(g, task) || n == 0 {
        assert Accepts(g, task) ==> deps[..n] == deps;
        forall d, t
          ensures Occ(Edges(h, d), t) == Asks(h, d, t)
        {
          assert Occ(Edges(g, d), t) == Asks(g, d, t);
        }
      } else {
        OccIsIn(deps[..n], deps[0]);
        assert deps[..n][0] == deps[0];
        assert Occ(Edges(g, deps[0]), task.id) == Asks(g, deps[0], task.id) == 0;
        assert Occ(Edges(h, deps[0]), task.id) > 0 == Asks(h, deps[0], task.id);
      }
    }
  }

  // Readiness

  /** Every counter is the number of dependencies that are not yet terminal. */
  ghost predicate Counted(g: Graph) {
    g.remaining.Keys == g.tasks.Keys &&
    forall t :: t in g.tasks ==> g.remaining[t] == Open(g.tasks, g.tasks[t].dependsOn)
  }

  lemma {:induction false} OpenDependsOnStatus(a: map<Id, Task>, b: map<Id, Task>, deps: seq<Id>)
    requires forall d :: d in deps ==> (IsOpen(a, d) <==> IsOpen(b, d))
    ensures Open(a, deps) == Open(b, deps)
  {
    if deps != [] {
      OpenDependsOnStatus(a, b, deps[..|deps| - 1]);
    }
  }

  lemma AddKeepsCounted(g: Graph, task: Task, h: Graph)
    requires Adds(g, task, h) && Counted(g) && Closed(g)
    ensures Counted(h)
  {
    if task.id !in g.tasks && Accepts(g, task) {
      forall t | t in h.tasks
        ensures h.remaining[t] == Open(h.tasks, h.tasks[t].dependsOn)
      {
        OpenDependsOnStatus(g.tasks, h.tasks, h.tasks[t].dependsOn);
      }
    }
  }

  predicate Finishes(g: Graph, id: Id, trigger: Trigger) {
    id in g.tasks && Next(g.tasks[id].status, trigger).Some? && IsTerminal(Next(g.tasks[id].status, trigger).value)
  }

  lemma AdvanceKeepsCounted(g: Graph, id: Id, trigger: Trigger)
    requires Counted(g) && !Finishes(g, id, trigger)
    ensures Counted(Moved(g, id, trigger))
  {
    var h := Moved(g, id, trigger);
    assert forall d :: IsOpen(g.tasks, d) <==> IsOpen(h.tasks, d);
    forall t | t in g.tasks
      ensures Open(h.tasks, g.tasks[t].dependsOn) == g.remaining[t]
    {
      OpenDependsOnStatus(g.tasks, h.tasks, g.tasks[t].dependsOn);
    }
  }

  lemma {:induction false} FinishingClosesOccurrences(g: Graph, id: Id, trigger: Trigger, deps: seq<Id>)
    requires Finishes(g, id, trigger)
    ensures Open(g.tasks, deps) == Open(Moved(g, id, trigger).tasks, deps) + Occ(deps, id)
  {
    if deps != [] {
      FinishingClosesOccurrences(g, id, trigger, deps[..|deps| - 1]);
    }
  }

  /** The edges from `id` to `t` are those its dependencies ask for, or the surplus finds the counter at zero. */
  predicate Harmless(g: Graph, id: Id, t: Id)
    requires t in g.tasks && t in g.remaining
  {
    || Occ(Edges(g, id), t) == Asks(g, id, t)
    || (Occ(Edges(g, id), t) > Asks(g, id, t) && g.remaining[t] == Asks(g, id, t))
  }

  /**
   * A task that ends and is then reported leaves every counter right exactly when no
   * dependent has surplus edges that still find something to take away.
   */
  lemma FinishKeepsCounted(g: Graph, id: Id, trigger: Trigger)
    requires Counted(g) && Finishes(g, id, trigger)
    ensures Counted(Released(Moved(g, id, trigger), id)) <==> forall t :: t in g.tasks ==> Harmless(g, id, t)
  {
    var m := Moved(g, id, trigger);
    var h := Released(m, id);
    forall t | t in g.tasks
      ensures h.remaining[t] == Open(h.tasks, h.tasks[t].dependsOn) <==> Harmless(g, id, t)
    {
      FinishingClosesOccurrences(g, id, trigger, g.tasks[t].dependsOn);
      assert h.tasks == m.tasks && h.tasks[t].dependsOn == g.tasks[t].dependsOn;
      assert g.remaining[t] == Open(m.tasks, g.tasks[t].dependsOn) + Asks(g, id, t);
      assert h.remaining[t] == Minus(g.remaining[t], Occ(Edges(g, id), t));
    }
    assert h.remaining.Keys == h.tasks.Keys;
  }

  /** The report then names, each once, exactly the waiting tasks whose dependencies are now all terminal. */
  lemma NewlyReadyIsRight(g: Graph, id: Id, trigger: Trigger, t: Id)
    requires Counted(g) && Exact(g) && Finishes(g, id, trigger)
    ensures var m := Moved(g, id, trigger);
      Hits(m.remaining, Edges(m, id), t) ==
      if t in g.tasks && id in g.tasks[t].dependsOn && Open(m.tasks, g.tasks[t].dependsOn) == 0 then 1 else 0
  {
    var m := Moved(g, id, trigger);
    assert Occ(Edges(m, id), t) == Occ(Edges(g, id), t) == Asks(g, id, t);
    if t in g.tasks {
      var deps := g.tasks[t].dependsOn;
      FinishingClosesOccurrences(g, id, trigger, deps);
      OccIsIn(deps, id);
      assert m.remaining[t] == Open(m.tasks, deps) + Occ(deps, id);
    }
  }

  // Counters after any calls

  /** The edges to `t` from the tasks reported by the calls from `k` to `n`. */
  function Taken(g: Graph, ops: seq<Op>, t: Id, k: nat, n: nat): nat
    requires k <= n <= |ops|
  {
    if n == k then 0
    else Taken(g, ops, t, k, n - 1) + if ops[n - 1].Mark? then Occ(Edges(g, ops[n - 1].id), t) else 0
  }

  /** Once a task is in the graph, no call adds or removes an edge to it, or resets its counter. */
  lemma StepKeepsTask(g: Graph, op: Op, h: Graph, t: Id, d: Id)
    requires Does(g, op, h) && t in g.tasks && t in g.remaining
    ensures t in h.tasks && t in h.remaining
    ensures Occ(Edges(h, d), t) == Occ(Edges(g, d), t)
    ensures h.remaining[t] == Minus(g.remaining[t], if op.Mark? then Occ(Edges(g, op.id), t) else 0)
  {
    if op.Add? && op.task.id !in g.tasks {
      assert Occ(Out(h.forward, d), t) == Occ(Out(g.forward, d), t);
    }
  }

  lemma AddedTask(g: Graph, task: Task, h: Graph)
    requires Adds(g, task, h) && Accepts(g, task)
    ensures task.id in h.tasks && task.id in h.remaining && h.remaining[task.id] == Open(g.tasks, task.dependsOn)
  {
  }

  /** Once it is in, a task stays, with the edges to it that its addition left. */
  lemma {:induction false} EdgesAreFixed(gs: seq<Graph>, ops: seq<Op>, k: nat, n: nat, task: Task, d: Id)
    requires IsHistory(gs, ops) && k < n <= |ops| && ops[k] == Add(task) && Accepts(gs[k], task)
    ensures task.id in gs[n].tasks && task.id in gs[n].remaining
    ensures Occ(Edges(gs[n], d), task.id) == Occ(Edges(gs[k + 1], d), task.id)
  {
    assert DoesAt(gs, ops, n - 1);
    if n > k + 1 {
      EdgesAreFixed(gs, ops, k, n - 1, task, d);
      StepKeepsTask(gs[n - 1], ops[n - 1], gs[n], task.id, d);
    } else {
      AddedTask(gs[k], task, gs[n]);
    }
  }

  lemma MinusTwice(a: nat, b: nat, c: nat)
    ensures Minus(Minus(a, b), c) == Minus(a, b + c)
  {
  }

  /**
   * After any calls whatever, a task's counter is the number of its dependencies that were open when it
   * was added, less the edges to it from every task reported since, and not below zero.
   */
  lemma {:induction false} CounterAfterAnyCalls(gs: seq<Graph>, ops: seq<Op>, k: nat, n: nat, task: Task)
    requires IsHistory(gs, ops) && k < n <= |ops| && ops[k] == Add(task) && Accepts(gs[k], task)
    ensures task.id in gs[n].tasks && task.id in gs[n].remaining
    ensures gs[n].remaining[task.id]
         == Minus(Open(gs[k].tasks, task.dependsOn), Taken(gs[k + 1], ops, task.id, k + 1, n))
  {
    assert DoesAt(gs, ops, n - 1);
    if n > k + 1 {
      CounterAfterAnyCalls(gs, ops, k, n - 1, task);
      var op := ops[n - 1];
      EdgesAreFixed(gs, ops, k, n - 1, task, if op.Mark? then op.id else task.id);
      CounterStep(gs[n - 1], op, gs[n], task.id, Open(gs[k].tasks, task.dependsOn),
                  Taken(gs[k + 1], ops, task.id, k + 1, n - 1), gs[k + 1]);
    } else {
      AddedTask(gs[k], task, gs[n]);
    }
  }

  lemma CounterStep(g: Graph, op: Op, h: Graph, t: Id, start: nat, taken: nat, first: Graph)
    requires Does(g, op, h) && t in g.tasks && t in g.remaining && g.remaining[t] == Minus(start, taken)
    requires op.Mark? ==> Occ(Edges(g, op.id), t) == Occ(Edges(first, op.id), t)
    ensures t in h.tasks && t in h.remaining
    ensures h.remaining[t] == Minus(start, taken + if op.Mark? then Occ(Edges(first, op.id), t) else 0)
  {
    StepKeepsTask(g, op, h, t, t);
    MinusTwice(start, taken, if op.Mark? then Occ(Edges(first, op.id), t) else 0);
  }

  lemma {:induction false} NothingTaken(g: Graph, ops: seq<Op>, t: Id, k: nat, n: nat)
    requires k <= n <= |ops| && forall m :: 0 <= m < |ops| ==> !ops[m].Mark?
    ensures Taken(g, ops, t, k, n) == 0
  {
    if n > k {
      NothingTaken(g, ops, t, k, n - 1);
    }
  }

  /** After any calls a task is dispatchable exactly when it is pending and the reports outweigh what was open. */
  lemma DispatchableAfterAnyCalls(gs: seq<Graph>, ops: seq<Op>, k: nat, n: nat, task: Task)
    requires IsHistory(gs, ops) && k < n <= |ops| && ops[k] == Add(task) && Accepts(gs[k], task)
    ensures task.id in gs[n].tasks
    ensures Dispatchable(gs[n], task.id) <==>
            && gs[n].tasks[task.id].status == Pending
            && Open(gs[k].tasks, task.dependsOn) <= Taken(gs[k + 1], ops, task.id, k + 1, n)
  {
    CounterAfterAnyCalls(gs, ops, k, n, task);
  }

  /** Where no ending is reported, a task added with an open dependency is never dispatchable. */
  lemma UnreportedEndingsStall(gs: seq<Graph>, ops: seq<Op>, k: nat, n: nat, task: Task)
    requires IsHistory(gs, ops) && k < n <= |ops| && ops[k] == Add(task) && Accepts(gs[k], task)
    requires forall m :: 0 <= m < |ops| ==> !ops[m].Mark?
    ensures Dispatchable(gs[n], task.id) ==> Open(gs[k].tasks, task.dependsOn) == 0
  {
    DispatchableAfterAnyCalls(gs, ops, k, n, task);
    NothingTaken(gs[k + 1], ops, task.id, k + 1, n);
  }

  // Careful clients

  /** A client that adds cleanly and reports each task once, as it ends. */
  datatype Act = Submit(task: Task) | Advance(id: Id, trigger: Trigger) | Finish(id: Id, trigger: Trigger)

  ghost predicate Careful(g: Graph, act: Act, h: Graph) {
    match act
    case Submit(task) =>
      Adds(g, task, h) && (task.id in g.tasks || Accepts(g, task) || task.dependsOn[0] !in g.tasks)
    case Advance(id, trigger) => !Finishes(g, id, trigger) && h == Moved(g, id, trigger)
    case Finish(id, trigger) => Finishes(g, id, trigger) && h == Released(Moved(g, id, trigger), id)
  }

  ghost predicate IsCareful(gs: seq<Graph>, acts: seq<Act>) {
    && |gs| == |acts| + 1 && gs[0] == EMPTY
    && forall k :: 0 <= k < |acts| ==> CarefulAt(gs, acts, k)
  }

  ghost predicate CarefulAt(gs: seq<Graph>, acts: seq<Act>, k: nat)
    requires k < |acts| && |gs| == |acts| + 1
  {
    Careful(gs[k], acts[k], gs[k + 1])
  }

  lemma MovedKeepsShape(g: Graph, id: Id, trigger: Trigger)
    requires Exact(g) && Closed(g)
    ensures Exact(Moved(g, id, trigger)) && Closed(Moved(g, id, trigger))
    ensures Exact(Released(Moved(g, id, trigger), id)) && Closed(Released(Moved(g, id, trigger), id))
  {
    var m := Moved(g, id, trigger);
    var h := Released(m, id);
    SameShape(g, m);
    SameShape(g, h);
    forall d, t
      ensures Occ(Edges(m, d), t) == Asks(m, d, t) && Occ(Edges(h, d), t) == Asks(h, d, t)
    {
      assert Occ(Edges(g, d), t) == Asks(g, d, t);
    }
  }

  lemma {:induction false} CarefulRunsCountRight(gs: seq<Graph>, acts: seq<Act>, k: nat)
    requires IsCareful(gs, acts) && k < |gs|
    ensures Counted(gs[k]) && Exact(gs[k]) && Closed(gs[k])
  {
    if k > 0 {
      CarefulRunsCountRight(gs, acts, k - 1);
      var g, act, h := gs[k - 1], acts[k - 1], gs[k];
      assert CarefulAt(gs, acts, k - 1);
      match act
      case Submit(task) =>
        AddKeepsCounted(g, task, h);
        AddKeepsExact(g, task, h);
        AddKeepsClosed(g, task, h);
      case Advance(id, trigger) =>
        AdvanceKeepsCounted(g, id, trigger);
        MovedKeepsShape(g, id, trigger);
      case Finish(id, trigger) =>
        FinishKeepsCounted(g, id, trigger);
        MovedKeepsShape(g, id, trigger);
    }
  }

  lemma {:induction false} NothingOpen(tasks: map<Id, Task>, deps: seq<Id>)
    ensures Open(tasks, deps) == 0 <==> forall d :: d in deps ==> !IsOpen(tasks, d)
  {
    if deps != [] {
      NothingOpen(tasks, deps[..|deps| - 1]);
      assert deps == deps[..|deps| - 1] + [deps[|deps| - 1]];
    }
  }

  predicate Dispatchable(g: Graph, t: Id) {
    t in g.tasks && g.tasks[t].status == Pending && (if t in g.remaining then g.remaining[t] else 0) == 0
  }

  /** For a careful client a task is dispatchable exactly when it is pending and all it depends on has ended. */
  lemma DispatchableIffDepsEnded(gs: seq<Graph>, acts: seq<Act>, k: nat, t: Id)
    requires IsCareful(gs, acts) && k < |gs| && t in gs[k].tasks
    ensures Dispatchable(gs[k], t) <==>
            && gs[k].tasks[t].status == Pending
            && forall d :: d in gs[k].tasks[t].dependsOn ==> d in gs[k].tasks && IsTerminal(gs[k].tasks[d].status)
  {
    CarefulRunsCountRight(gs, acts, k);
    NothingOpen(gs[k].tasks, gs[k].tasks[t].dependsOn);
  }

  // What the code does not give

  const A: Id := "a"
  const B: Id := "b"
  const T: Id := "t"

  const FREE_A := Task(A, Pending, [], None)
  const FREE_B := Task(B, Pending, [], None)
  const BROKEN := Task(T, Pending, [A, "x"], None)
  const WAITING := Task(T, Pending, [A, B], None)

  const ONE := Graph(map[A := FREE_A], map[A := 0], map[])
  const TWO := Graph(map[A := FREE_A, B := FREE_B], map[A := 0, B := 0], map[])
  const LEFTOVER := TWO.(forward := map[A := [T]])
  const THREE :=
    Graph(map[A := FREE_A, B := FREE_B, T := WAITING], map[A := 0, B := 0, T := 2], map[A := [T, T], B := [T]])

  lemma OccOfPair(x: Id, y: Id, z: Id)
    ensures Occ([x], z) == if x == z then 1 else 0
    ensures Occ([x, y], z) == (if x == z then 1 else 0) + if y == z then 1 else 0
  {
    OccAppend([], x, z);
    OccAppend([x], y, z);
    assert [] + [x] == [x] && [x] + [y] == [x, y];
  }

  lemma FreeAdd(g: Graph, task: Task, h: Graph)
    requires task.dependsOn == [] && task.id !in g.tasks
    requires h == Graph(g.tasks[task.id := task], g.remaining[task.id := 0], g.forward)
    ensures Adds(g, task, h)
  {
    assert task.dependsOn[..0] == [];
    assert forall d :: Occ([], d) == 0;
  }

  lemma FailedAddLeavesAnEdge()
    ensures Adds(TWO, BROKEN, LEFTOVER) && !Accepts(TWO, BROKEN) && TWO != LEFTOVER
  {
    assert BROKEN.dependsOn[1] == "x" && "x"[0] == 'x';
    assert T !in TWO.forward && A in LEFTOVER.forward;
    KnownIs(TWO.tasks, BROKEN.dependsOn, 1);
    assert BROKEN.dependsOn[..1] == [A];
    forall d, x
      ensures Occ(Out(LEFTOVER.forward, d), x) == Occ(Out(TWO.forward, d), x) + if x == T then Occ([A], d) else 0
    {
      OccOfPair(A, A, d);
      OccOfPair(T, T, x);
    }
  }

  lemma SecondAddCounts()
    ensures Adds(LEFTOVER, WAITING, THREE)
  {
    var deps := WAITING.dependsOn;
    KnownIs(LEFTOVER.tasks, deps, 2);
    assert deps[..2] == deps && deps[..1] == [A] && [A][..0] == [];
    assert Open(LEFTOVER.tasks, [A]) == 1;
    assert Open(LEFTOVER.tasks, deps) == 2;
    forall d, x
      ensures Occ(Out(THREE.forward, d), x) == Occ(Out(LEFTOVER.forward, d), x) + if x == T then Occ(deps, d) else 0
    {
      OccOfPair(A, B, d);
      OccOfPair(T, T, x);
    }
  }

  ghost predicate ReadyTooEarly(g: Graph) {
    Dispatchable(g, T) && B in g.tasks[T].dependsOn && IsOpen(g.tasks, B)
  }

  lemma ReleasedTwice()
    ensures ReadyTooEarly(Released(Moved(THREE, A, Cancel), A))
  {
    var told := Released(Moved(THREE, A, Cancel), A);
    OccOfPair(T, T, T);
    assert told.remaining[T] == 0;
    assert WAITING.dependsOn[1] == B;
  }

  /**
   * A refused task leaves edges behind, so a later task of the same id is released twice by one
   * dependency: it is dispatchable while another dependency has not ended.
   */
  lemma LeftoverEdgesReleaseEarly() returns (gs: seq<Graph>, ops: seq<Op>)
    ensures IsHistory(gs, ops)
    ensures ReadyTooEarly(gs[|gs| - 1])
  {
    gs, ops := [EMPTY], [];
    FreeAdd(EMPTY, FREE_A, ONE);
    gs, ops := Then(gs, ops, Add(FREE_A), ONE);
    FreeAdd(ONE, FREE_B, TWO);
    gs, ops := Then(gs, ops, Add(FREE_B), TWO);
    FailedAddLeavesAnEdge();
    gs, ops := Then(gs, ops, Add(BROKEN), LEFTOVER);
    SecondAddCounts();
    gs, ops := Then(gs, ops, Add(WAITING), THREE);
    var ended := Moved(THREE, A, Cancel);
    gs, ops := Then(gs, ops, Move(A, Cancel), ended);
    gs, ops := Then(gs, ops, Mark(A), Released(ended, A));
    ReleasedTwice();
  }

  /** One more call of a history. */
  lemma Then(gs: seq<Graph>, ops: seq<Op>, op: Op, h: Graph) returns (gs': seq<Graph>, ops': seq<Op>)
    requires IsHistory(gs, ops) && Does(gs[|ops|], op, h)
    ensures IsHistory(gs', ops') && gs' == gs + [h] && ops' == ops + [op]
  {
    gs', ops' := gs + [h], ops + [op];
    forall k | 0 <= k < |ops'|
      ensures DoesAt(gs', ops', k)
    {
      assert k < |ops| ==> DoesAt(gs, ops, k);
    }
  }

  /** A subtask without dependencies is in the graph, with its parent, but not in the snapshot. */
  lemma SubtaskIsNotListed() returns (gs: seq<Graph>, ops: seq<Op>)
    ensures IsHistory(gs, ops)
    ensures var g := gs[|gs| - 1];
      A in g.tasks && B in g.tasks && g.tasks[B].parent == Some(A) && !Reachable(g, B)
  {
    var child := Task(B, Pending, [], Some(A));
    var g := Graph(map[A := FREE_A, B := child], map[A := 0, B := 0], map[]);
    FreeAdd(EMPTY, FREE_A, ONE);
    FreeAdd(ONE, child, g);
    gs, ops := Then([EMPTY], [], Add(FREE_A), ONE);
    gs, ops := Then(gs, ops, Add(child), g);
    if Reachable(g, B) {
      ReachedAsRootOrByEdge(g, B);
      assert false;
    }
  }
}
