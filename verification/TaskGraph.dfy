/**
 * The coordinator's dependency graph: tasks, readiness counters and forward edges
 * (wacp/crates/wacp-coordinator/src/task_graph.rs), the task lifecycle
 * (wacp/crates/wacp-fsm/src/task.rs) and the breadth-first snapshot
 * (wacp/crates/wacp-coordinator/src/handler.rs).
 */
module TaskGraph {
  import opened Options

  type Id = string

  datatype Status = Draft | Pending | Assigned | InProgress | Completed | Failed | Integrated | Cancelled

  datatype Trigger = Approve | Assign | Start | Complete | Fail | Integrate | Cancel

  datatype Task = Task(id: Id, status: Status, dependsOn: seq<Id>, parent: Option<Id>)

  datatype GraphError = DuplicateTask(id: Id) | DependencyNotFound(dep: Id)

  datatype Graph = Graph(tasks: map<Id, Task>, remaining: map<Id, nat>, forward: map<Id, seq<Id>>)

  predicate IsTerminal(s: Status) {
    s == Integrated || s == Cancelled
  }

  /** The task lifecycle; `None` is a refused trigger. */
  function Next(s: Status, t: Trigger): Option<Status> {
    match (s, t)
    case (Draft, Approve) => Some(Pending)
    case (Pending, Assign) => Some(Assigned)
    case (Failed, Assign) => Some(Assigned)
    case (Assigned, Start) => Some(InProgress)
    case (InProgress, Complete) => Some(Completed)
    case (InProgress, Fail) => Some(Failed)
    case (Completed, Fail) => Some(Failed)
    case (Completed, Integrate) => Some(Integrated)
    case (_, Cancel) => if s in {Draft, Pending, Assigned, InProgress} then Some(Cancelled) else None
    case _ => None
  }

  // Counting

  function Occ(s: seq<Id>, x: Id): nat {
    if s == [] then 0 else Occ(s[..|s| - 1], x) + if s[|s| - 1] == x then 1 else 0
  }

  lemma OccAppend(s: seq<Id>, y: Id, x: Id)
    ensures Occ(s + [y], x) == Occ(s, x) + if x == y then 1 else 0
  {
    assert (s + [y])[..|s|] == s;
  }

  lemma {:induction false} OccIsIn(s: seq<Id>, x: Id)
    ensures x in s <==> Occ(s, x) > 0
  {
    if s != [] {
      OccIsIn(s[..|s| - 1], x);
      assert s == s[..|s| - 1] + [s[|s| - 1]];
    }
  }

  function Out(forward: map<Id, seq<Id>>, d: Id): seq<Id> {
    if d in forward then forward[d] else []
  }

  /** Who waits for `d`, once per recorded edge. */
  function Edges(g: Graph, d: Id): seq<Id> {
    Out(g.forward, d)
  }

  predicate IsOpen(tasks: map<Id, Task>, d: Id) {
    d in tasks && !IsTerminal(tasks[d].status)
  }

  /** How many of the listed dependencies, with multiplicity, are not yet terminal. */
  function Open(tasks: map<Id, Task>, deps: seq<Id>): nat {
    if deps == [] then 0
    else Open(tasks, deps[..|deps| - 1]) + if IsOpen(tasks, deps[|deps| - 1]) then 1 else 0
  }

  /** The length of the longest prefix of dependencies that are present. */
  function Known(tasks: map<Id, Task>, deps: seq<Id>): (n: nat)
    ensures n <= |deps|
    ensures forall k :: 0 <= k < n ==> deps[k] in tasks
    ensures n < |deps| ==> deps[n] !in tasks
  {
    if deps == [] || deps[0] !in tasks then 0
    else
      var rest := Known(tasks, deps[1..]);
      assert forall k :: 1 <= k <= rest ==> deps[k] == deps[1..][k - 1];
      1 + rest
  }

  predicate Accepts(g: Graph, task: Task) {
    task.id !in g.tasks && forall d :: d in task.dependsOn ==> d in g.tasks
  }

  // What each operation does to the graph

  /** One more edge to `t` for every one of `deps`, nothing else. */
  ghost predicate EdgesAdded(from: map<Id, seq<Id>>, t: Id, deps: seq<Id>, to: map<Id, seq<Id>>) {
    forall d, x :: Occ(Out(to, d), x) == Occ(Out(from, d), x) + if x == t then Occ(deps, d) else 0
  }

  /** Adding a task; a missing dependency stops it after the edges of the ones before. */
  ghost predicate Adds(g: Graph, task: Task, h: Graph) {
    if task.id in g.tasks then h == g
    else
      && EdgesAdded(g.forward, task.id, task.dependsOn[..Known(g.tasks, task.dependsOn)], h.forward)
      && if Accepts(g, task) then
           && h.tasks == g.tasks[task.id := task]
           && h.remaining == g.remaining[task.id := Open(g.tasks, task.dependsOn)]
         else
           h.tasks == g.tasks && h.remaining == g.remaining
  }

  function Moved(g: Graph, id: Id, trigger: Trigger): Graph {
    if id in g.tasks && Next(g.tasks[id].status, trigger).Some? then
      g.(tasks := g.tasks[id := g.tasks[id].(status := Next(g.tasks[id].status, trigger).value)])
    else g
  }

  function Minus(a: nat, b: nat): nat {
    if a < b then 0 else a - b
  }

  /** Every recorded edge from `id` takes one off its target's counter, not below zero. */
  function Released(g: Graph, id: Id): Graph {
    g.(remaining := map t | t in g.remaining :: Minus(g.remaining[t], Occ(Edges(g, id), t)))
  }

  /** How often a counter at `c` is seen at zero while it is decremented `k` times. */
  function ZeroHits(c: nat, k: nat): nat {
    if c == 0 then k else Minus(k + 1, c)
  }

  /** How often `t` is reported when `dependents` are decremented in turn. */
  function Hits(remaining: map<Id, nat>, dependents: seq<Id>, t: Id): nat {
    if t in remaining then ZeroHits(remaining[t], Occ(dependents, t)) else 0
  }

  // The structure itself

  class Tasks {
    var tasks: map<Id, Task>
    var remaining: map<Id, nat>
    var forward: map<Id, seq<Id>>

    function View(): Graph
      reads this
    {
      Graph(tasks, remaining, forward)
    }

    constructor ()
      ensures View() == Graph(map[], map[], map[])
    {
      tasks := map[];
      remaining := map[];
      forward := map[];
    }

    method AddTask(task: Task) returns (error: Option<GraphError>)
      modifies this
      ensures Adds(old(View()), task, View())
      ensures error.None? <==> Accepts(old(View()), task)
      ensures error == Some(DuplicateTask(task.id)) <==> task.id in old(tasks)
      ensures error.Some? && task.id !in old(tasks) ==>
        var n := Known(old(tasks), task.dependsOn);
        n < |task.dependsOn| && error == Some(DependencyNotFound(task.dependsOn[n]))
    {
      if task.id in tasks {
        return Some(DuplicateTask(task.id));
      }
      ghost var before := View();
      var count, i := 0, 0;
      while i < |task.dependsOn|
        invariant 0 <= i <= |task.dependsOn|
        invariant tasks == before.tasks && remaining == before.remaining
        invariant forall k :: 0 <= k < i ==> task.dependsOn[k] in tasks
        invariant count == Open(tasks, task.dependsOn[..i])
        invariant EdgesAdded(before.forward, task.id, task.dependsOn[..i], forward)
      {
        var dep := task.dependsOn[i];
        if dep !in tasks {
          KnownIs(tasks, task.dependsOn, i);
          return Some(DependencyNotFound(dep));
        }
        EdgeAdded(before.forward, task.id, task.dependsOn, i, forward);
        forward := forward[dep := Out(forward, dep) + [task.id]];
        assert task.dependsOn[..i + 1][..i] == task.dependsOn[..i];
        if !IsTerminal(tasks[dep].status) {
          count := count + 1;
        }
        i := i + 1;
      }
      KnownIs(tasks, task.dependsOn, i);
      assert task.dependsOn[..i] == task.dependsOn;
      remaining := remaining[task.id := count];
      tasks := tasks[task.id := task];
      return None;
    }

    method Transition(id: Id, trigger: Trigger) returns (status: Option<Status>)
      modifies this`tasks
      ensures View() == Moved(old(View()), id, trigger)
      ensures status == if id in old(tasks) then Next(old(tasks)[id].status, trigger) else None
    {
      if id !in tasks {
        return None;
      }
      status := Next(tasks[id].status, trigger);
      if status.Some? {
        tasks := tasks[id := tasks[id].(status := status.value)];
      }
    }

    method MarkCompleted(id: Id) returns (newlyReady: seq<Id>)
      modifies this`remaining
      ensures View() == Released(old(View()), id)
      ensures forall t :: Occ(newlyReady, t) == Hits(old(remaining), Edges(old(View()), id), t)
    {
      var dependents := Out(forward, id);
      newlyReady := [];
      var i := 0;
      while i < |dependents|
        invariant 0 <= i <= |dependents|
        invariant PartlyReleased(old(remaining), dependents[..i], remaining, newlyReady)
      {
        var t := dependents[i];
        assert dependents[..i + 1] == dependents[..i] + [t];
        ReleaseStep(old(remaining), dependents[..i], remaining, newlyReady, t);
        if t in remaining {
          remaining := remaining[t := Minus(remaining[t], 1)];
          if remaining[t] == 0 {
            newlyReady := newlyReady + [t];
          }
        }
        i := i + 1;
      }
      assert dependents[..i] == dependents;
    }

    /** The parentless tasks, in whatever order the map yields them. */
    method Roots() returns (roots: seq<Id>)
      ensures forall t :: t in roots <==> IsRoot(View(), t)
    {
      var left := tasks.Keys;
      roots := [];
      while left != {}
        invariant left <= tasks.Keys
        invariant forall t :: t in roots <==> IsRoot(View(), t) && t !in left
        decreases |left|
      {
        var t :| t in left;
        if tasks[t].parent.None? {
          roots := roots + [t];
        }
        left := left - {t};
      }
    }

    /** The breadth-first walk from the roots along the forward edges. */
    method Snapshot() returns (seen: seq<Id>, views: seq<Task>)
      ensures |views| == |seen| && forall k :: 0 <= k < |seen| ==> seen[k] in tasks && views[k] == tasks[seen[k]]
      ensures forall i, j :: 0 <= i < j < |seen| ==> seen[i] != seen[j]
      ensures forall t :: t in seen <==> t in tasks && Reachable(View(), t)
    {
      ghost var g := View();
      var queue := Roots();
      RootsAreReachable(g);
      var visited: set<Id> := {};
      seen, views := [], [];
      while queue != []
        invariant Covered(g, queue, visited) && Bounded(g, queue)
        invariant Listed(g, visited, seen, views)
        decreases |Universe(g) - visited|, |queue|
      {
        var t := queue[0];
        if t in visited {
          SkipKeeps(g, queue, visited);
          queue := queue[1..];
        } else {
          VisitKeeps(g, queue, visited);
          VisitShrinks(g, queue, visited);
          ListKeeps(g, visited, seen, views, t);
          queue := queue[1..];
          visited := visited + {t};
          if t in tasks {
            seen, views := seen + [t], views + [tasks[t]];
            queue := queue + Out(forward, t);
          }
        }
      }
      WalkEnds(g, visited, seen, views);
    }
  }

  ghost predicate PartlyReleased(was: map<Id, nat>, done: seq<Id>, now: map<Id, nat>, ready: seq<Id>) {
    && now.Keys == was.Keys
    && (forall t :: t in was ==> now[t] == Minus(was[t], Occ(done, t)))
    && (forall t :: Occ(ready, t) == Hits(was, done, t))
  }

  lemma ReleaseStep(was: map<Id, nat>, done: seq<Id>, now: map<Id, nat>, ready: seq<Id>, t: Id)
    requires PartlyReleased(was, done, now, ready)
    ensures t !in now ==> PartlyReleased(was, done + [t], now, ready)
    ensures t in now ==>
      PartlyReleased(was, done + [t], now[t := Minus(now[t], 1)], if now[t] <= 1 then ready + [t] else ready)
  {
    var ready' := if t in now && now[t] <= 1 then ready + [t] else ready;
    forall x
      ensures Occ(done + [t], x) == Occ(done, x) + if x == t then 1 else 0
      ensures Occ(ready', x) == Hits(was, done + [t], x)
    {
      OccAppend(done, t, x);
      OccAppend(ready, t, x);
      assert x in was ==> now[x] == Minus(was[x], Occ(done, x));
    }
  }

  lemma {:induction false} KnownIs(tasks: map<Id, Task>, deps: seq<Id>, n: nat)
    requires n <= |deps| && (forall k :: 0 <= k < n ==> deps[k] in tasks) && (n < |deps| ==> deps[n] !in tasks)
    ensures Known(tasks, deps) == n
  {
  }

  lemma EdgeAdded(from: map<Id, seq<Id>>, t: Id, deps: seq<Id>, i: nat, to: map<Id, seq<Id>>)
    requires i < |deps| && EdgesAdded(from, t, deps[..i], to)
    ensures EdgesAdded(from, t, deps[..i + 1], to[deps[i] := Out(to, deps[i]) + [t]])
  {
    var next := to[deps[i] := Out(to, deps[i]) + [t]];
    assert deps[..i + 1] == deps[..i] + [deps[i]];
    forall d, x
      ensures Occ(Out(next, d), x) == Occ(Out(from, d), x) + if x == t then Occ(deps[..i + 1], d) else 0
    {
      OccAppend(deps[..i], deps[i], d);
      OccAppend(Out(to, deps[i]), t, x);
    }
  }

  // Reachability

  predicate IsRoot(g: Graph, t: Id) {
    t in g.tasks && g.tasks[t].parent.None?
  }

  predicate Hop(g: Graph, p: seq<Id>, k: nat)
    requires k + 1 < |p|
  {
    p[k] in g.tasks && p[k + 1] in Edges(g, p[k])
  }

  /** A path along forward edges of present tasks, from a root to `t`. */
  ghost predicate IsPath(g: Graph, p: seq<Id>, t: Id) {
    && p != [] && IsRoot(g, p[0]) && p[|p| - 1] == t
    && forall k :: 0 <= k < |p| - 1 ==> Hop(g, p, k)
  }

  ghost predicate Reachable(g: Graph, t: Id) {
    exists p :: IsPath(g, p, t)
  }

  ghost function Universe(g: Graph): set<Id> {
    g.tasks.Keys + set d, t | d in g.forward && t in g.forward[d] :: t
  }

  lemma RootsAreReachable(g: Graph)
    ensures forall t :: IsRoot(g, t) ==> Reachable(g, t)
  {
    forall t | IsRoot(g, t)
      ensures Reachable(g, t)
    {
      assert IsPath(g, [t], t);
    }
  }

  lemma EdgesAreReachable(g: Graph, t: Id)
    requires Reachable(g, t) && t in g.tasks
    ensures forall b :: b in Edges(g, t) ==> Reachable(g, b)
  {
    var p :| IsPath(g, p, t);
    forall b | b in Edges(g, t)
      ensures Reachable(g, b)
    {
      var q := p + [b];
      forall k | 0 <= k < |q| - 1
        ensures Hop(g, q, k)
      {
        assert k < |p| - 1 ==> Hop(g, p, k);
      }
      assert IsPath(g, q, b);
    }
  }

  // The walk

  predicate Met(queue: seq<Id>, visited: set<Id>, t: Id) {
    t in queue || t in visited
  }

  predicate AllMet(queue: seq<Id>, visited: set<Id>, ts: seq<Id>) {
    forall t :: t in ts ==> Met(queue, visited, t)
  }

  /** Everything met is reachable; the roots and the successors of what was visited are met. */
  ghost predicate Covered(g: Graph, queue: seq<Id>, visited: set<Id>) {
    && (forall t :: Met(queue, visited, t) ==> Reachable(g, t))
    && (forall t :: IsRoot(g, t) ==> Met(queue, visited, t))
    && (forall a :: a in visited && a in g.tasks ==> AllMet(queue, visited, Edges(g, a)))
  }

  ghost predicate Bounded(g: Graph, queue: seq<Id>) {
    forall t :: t in queue ==> t in Universe(g)
  }

  ghost predicate Listed(g: Graph, visited: set<Id>, seen: seq<Id>, views: seq<Task>) {
    && (forall t :: t in seen <==> t in visited && t in g.tasks)
    && |views| == |seen| && (forall k :: 0 <= k < |seen| ==> seen[k] in g.tasks && views[k] == g.tasks[seen[k]])
    && (forall i, j :: 0 <= i < j < |seen| ==> seen[i] != seen[j])
  }

  lemma SkipKeeps(g: Graph, queue: seq<Id>, visited: set<Id>)
    requires Covered(g, queue, visited) && queue != [] && queue[0] in visited
    ensures Covered(g, queue[1..], visited)
  {
    assert queue == [queue[0]] + queue[1..];
    assert forall x :: Met(queue, visited, x) <==> Met(queue[1..], visited, x);
  }

  lemma VisitKeeps(g: Graph, queue: seq<Id>, visited: set<Id>)
    requires Covered(g, queue, visited) && queue != []
    ensures var t := queue[0];
      Covered(g, if t in g.tasks then queue[1..] + Edges(g, t) else queue[1..], visited + {t})
  {
    var t := queue[0];
    assert queue == [t] + queue[1..];
    if t in g.tasks {
      EdgesAreReachable(g, t);
    }
    assert Met(queue, visited, t);
    assert forall x :: Met(queue, visited, x) <==> Met(queue[1..], visited + {t}, x);
  }

  /** Each first visit uses up one of finitely many ids. */
  lemma VisitShrinks(g: Graph, queue: seq<Id>, visited: set<Id>)
    requires Bounded(g, queue) && queue != [] && queue[0] !in visited
    ensures |Universe(g) - (visited + {queue[0]})| < |Universe(g) - visited|
    ensures Bounded(g, queue[1..]) && Bounded(g, queue[1..] + Edges(g, queue[0]))
  {
    var t := queue[0];
    assert t in Universe(g) - visited;
    assert Universe(g) - (visited + {t}) == Universe(g) - visited - {t};
  }

  lemma ListKeeps(g: Graph, visited: set<Id>, seen: seq<Id>, views: seq<Task>, t: Id)
    requires Listed(g, visited, seen, views) && t !in visited
    ensures t in g.tasks ==> Listed(g, visited + {t}, seen + [t], views + [g.tasks[t]])
    ensures t !in g.tasks ==> Listed(g, visited + {t}, seen, views)
  {
  }

  lemma {:induction false} PathStaysInside(g: Graph, visited: set<Id>, p: seq<Id>, k: nat)
    requires forall t :: IsRoot(g, t) ==> t in visited
    requires forall a :: a in visited && a in g.tasks ==> AllMet([], visited, Edges(g, a))
    requires k < |p| && IsPath(g, p, p[|p| - 1])
    ensures p[k] in visited
  {
    if k > 0 {
      PathStaysInside(g, visited, p, k - 1);
      assert Hop(g, p, k - 1);
    }
  }

  lemma ClosedHasAllReachable(g: Graph, visited: set<Id>)
    requires forall t :: IsRoot(g, t) ==> t in visited
    requires forall a :: a in visited && a in g.tasks ==> AllMet([], visited, Edges(g, a))
    ensures forall t :: Reachable(g, t) ==> t in visited
  {
    forall t | Reachable(g, t)
      ensures t in visited
    {
      var p :| IsPath(g, p, t);
      PathStaysInside(g, visited, p, |p| - 1);
    }
  }

  lemma WalkEnds(g: Graph, visited: set<Id>, seen: seq<Id>, views: seq<Task>)
    requires Covered(g, [], visited) && Listed(g, visited, seen, views)
    ensures forall t :: t in seen <==> t in g.tasks && Reachable(g, t)
  {
    ClosedHasAllReachable(g, visited);
  }
}
