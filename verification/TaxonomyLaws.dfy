/**
 * What holds of every index the builder returns: no dangling references, every
 * checkpoint policy accounted for once, and no trace of hash order
 * (wacp-console/crates/console-core/src/taxonomy_builder.rs).
 */
module TaxonomyLaws {
  import opened Options
  import opened NameOrder
  import opened TaxonomyIndex

  datatype Input = Input(derived: Option<map<string, DerivedRole>>, manifests: seq<Manifest>,
                         failed: seq<(string, string)>)

  function TaxonomyRoles(derived: Option<map<string, DerivedRole>>): map<string, RoleEntry> {
    if derived.None? then map[] else DerivedEntries(derived.value, {})
  }

  function Start(input: Input): View {
    View(BASE_ROLES + TaxonomyRoles(input.derived), map[], map[])
  }

  function WithStubs(v: View, failed: seq<(string, string)>): View {
    if failed == [] then v
    else
      var last := failed[|failed| - 1];
      var before := WithStubs(v, failed[..|failed| - 1]);
      before.(verticals := before.verticals[last.0 := FailedEntry(last.0, last.1)])
  }

  /** The index before and after each manifest. */
  ghost predicate Stages(input: Input, views: seq<View>) {
    && |views| == |input.manifests| + 1 && views[0] == Start(input)
    && forall k :: 0 <= k < |input.manifests| ==> StageAt(input.manifests, views, k)
  }

  ghost predicate StageAt(manifests: seq<Manifest>, views: seq<View>, k: nat)
    requires k < |manifests| && k + 1 < |views|
  {
    InsertsVertical(views[k], manifests[k], views[k + 1])
  }

  ghost predicate Builds(input: Input, views: seq<View>, index: View) {
    Stages(input, views) && index == WithStubs(views[|views| - 1], input.failed)
  }

  /** `orders` lists the dangling tools of each manifest, in some order. */
  ghost predicate Orders(manifests: seq<Manifest>, orders: seq<seq<string>>) {
    |orders| == |manifests| && forall k :: 0 <= k < |manifests| ==> ListsDangling(manifests[k], orders[k])
  }

  ghost function AllWarnings(manifests: seq<Manifest>, orders: seq<seq<string>>): seq<string>
    requires Orders(manifests, orders)
  {
    if manifests == [] then []
    else
      var n := |manifests| - 1;
      AllWarnings(manifests[..n], orders[..n]) + Warnings(manifests[n], orders[n])
  }

  /** The warnings are those of the manifests in turn, each manifest's in some order. */
  ghost predicate Warns(manifests: seq<Manifest>, orders: seq<seq<string>>, warnings: seq<string>) {
    Orders(manifests, orders) && warnings == AllWarnings(manifests, orders)
  }

  method BuildIndex(input: Input) returns (index: View, warnings: seq<string>)
    ensures Linked(index)
    ensures exists views :: Builds(input, views, index)
    ensures exists orders :: Warns(input.manifests, orders, warnings)
  {
    var builder := new Builder();
    if input.derived.Some? {
      builder.InsertTaxonomy(input.derived.value);
    }
    assert builder.Index() == Start(input);
    ghost var views, orders := InsertManifests(builder, input);
    InsertStubs(builder, input.failed);
    index, warnings := builder.Index(), builder.warnings;
    assert Builds(input, views, index);
    BuiltIndexIsLinked(input, views, index);
    assert Warns(input.manifests, orders, warnings);
  }

  method InsertManifests(builder: Builder, input: Input)
    returns (ghost views: seq<View>, ghost orders: seq<seq<string>>)
    requires builder.Index() == Start(input) && builder.warnings == []
    modifies builder
    ensures Stages(input, views) && builder.Index() == views[|views| - 1]
    ensures Orders(input.manifests, orders) && builder.warnings == AllWarnings(input.manifests, orders)
  {
    views, orders := [builder.Index()], [];
    var i := 0;
    while i < |input.manifests|
      invariant 0 <= i <= |input.manifests|
      invariant Stages(input.(manifests := input.manifests[..i]), views) && builder.Index() == views[i]
      invariant Orders(input.manifests[..i], orders) && builder.warnings == AllWarnings(input.manifests[..i], orders)
    {
      ghost var order := builder.InsertVertical(input.manifests[i]);
      StageAdded(input, i, views, builder.Index());
      OrderAdded(input.manifests, i, orders, order);
      views, orders := views + [builder.Index()], orders + [order];
      i := i + 1;
    }
    assert input.manifests[..i] == input.manifests;
  }

  method InsertStubs(builder: Builder, failed: seq<(string, string)>)
    modifies builder`verticals
    ensures builder.Index() == WithStubs(old(builder.Index()), failed)
  {
    var j := 0;
    while j < |failed|
      invariant 0 <= j <= |failed|
      invariant builder.Index() == WithStubs(old(builder.Index()), failed[..j])
    {
      builder.InsertFailed(failed[j].0, failed[j].1);
      assert failed[..j + 1][..j] == failed[..j];
      j := j + 1;
    }
    assert failed[..j] == failed;
  }

  lemma StageAdded(input: Input, i: nat, views: seq<View>, next: View)
    requires i < |input.manifests| && Stages(input.(manifests := input.manifests[..i]), views)
    requires InsertsVertical(views[i], input.manifests[i], next)
    ensures Stages(input.(manifests := input.manifests[..i + 1]), views + [next])
  {
    var manifests, longer := input.manifests[..i + 1], views + [next];
    forall k | 0 <= k <= i
      ensures StageAt(manifests, longer, k)
    {
      assert k < i ==> StageAt(input.manifests[..i], views, k);
    }
  }

  lemma OrderAdded(manifests: seq<Manifest>, i: nat, orders: seq<seq<string>>, order: seq<string>)
    requires i < |manifests| && Orders(manifests[..i], orders) && ListsDangling(manifests[i], order)
    ensures Orders(manifests[..i + 1], orders + [order])
    ensures AllWarnings(manifests[..i + 1], orders + [order])
         == AllWarnings(manifests[..i], orders) + Warnings(manifests[i], order)
  {
    assert manifests[..i + 1][..i] == manifests[..i];
    assert (orders + [order])[..i] == orders;
  }

  // No dangling references

  predicate AllIn(names: seq<string>, known: set<string>) {
    forall n :: n in names ==> n in known
  }

  /** Roles named by tools and verticals, and tools named by roles, are in the index. */
  predicate Linked(v: View) {
    && (forall t :: t in v.tools ==> AllIn(v.tools[t].roles, v.roles.Keys))
    && (forall x :: x in v.verticals ==> AllIn(v.verticals[x].roles, v.roles.Keys))
    && (forall r :: r in v.roles ==> AllIn(v.roles[r].tools, v.tools.Keys))
  }

  lemma VerticalKeepsLinked(g: View, m: Manifest, h: View)
    requires Linked(g) && InsertsVertical(g, m, h)
    ensures Linked(h)
  {
    assert g.roles.Keys <= h.roles.Keys && g.tools.Keys <= h.tools.Keys;
    assert AllIn(h.verticals[m.id].roles, h.roles.Keys);
    assert AllIn(ToolNames(m.tools), h.tools.Keys);
  }

  lemma {:induction false} StagesAreLinked(input: Input, views: seq<View>, k: nat)
    requires Stages(input, views) && k < |views|
    ensures Linked(views[k])
  {
    if k > 0 {
      StagesAreLinked(input, views, k - 1);
      assert StageAt(input.manifests, views, k - 1);
      VerticalKeepsLinked(views[k - 1], input.manifests[k - 1], views[k]);
    }
  }

  lemma {:induction false} StubsKeepLinked(v: View, failed: seq<(string, string)>)
    requires Linked(v)
    ensures Linked(WithStubs(v, failed))
    ensures WithStubs(v, failed).roles == v.roles && WithStubs(v, failed).tools == v.tools
  {
    if failed != [] {
      StubsKeepLinked(v, failed[..|failed| - 1]);
    }
  }

  /** Whatever the inputs, the built index has no dangling role or tool name. */
  lemma BuiltIndexIsLinked(input: Input, views: seq<View>, index: View)
    requires Builds(input, views, index)
    ensures Linked(index)
  {
    StagesAreLinked(input, views, |views| - 1);
    StubsKeepLinked(views[|views| - 1], input.failed);
  }

  // Both directions of the cross references

  /** The role lists the tool. */
  predicate Names(v: View, r: string, t: string) {
    r in v.roles && t in v.roles[r].tools
  }

  /** The tool lists the role. */
  predicate NamedBy(v: View, r: string, t: string) {
    t in v.tools && r in v.tools[t].roles
  }

  predicate Mutual(v: View, r: string, t: string) {
    Names(v, r, t) <==> NamedBy(v, r, t)
  }

  /** A role lists a tool exactly when the tool lists the role. */
  ghost predicate Symmetric(v: View) {
    forall r, t :: Mutual(v, r, t)
  }

  /**
   * Inserting a vertical keeps the cross references symmetric exactly when no role it leaves in
   * place lists one of its tools and no tool it leaves in place lists one of its roles.
   */
  lemma VerticalKeepsSymmetric(g: View, m: Manifest, h: View)
    requires Symmetric(g) && InsertsVertical(g, m, h)
    ensures var roles, tools := h.verticals[m.id].roles, ToolNames(m.tools);
      Symmetric(h) <==> forall r, t :: Crosses(roles, tools, r, t) ==> !Names(g, r, t)
  {
    var roles, tools := h.verticals[m.id].roles, ToolNames(m.tools);
    forall r, t
      ensures Mutual(h, r, t) <==> (Crosses(roles, tools, r, t) ==> !Names(g, r, t))
    {
      assert Mutual(g, r, t);
    }
  }

  /** One of the two is new and the other is not. */
  predicate Crosses(roles: seq<string>, tools: seq<string>, r: string, t: string) {
    (r in roles) != (t in tools)
  }

  // The same over a whole list of manifests

  predicate HasRole(m: Manifest, r: string) {
    exists id :: id in m.profiles && r == Qualified(m.id, id)
  }

  predicate HasTool(m: Manifest, t: string) {
    t in ToolNames(m.tools)
  }

  /** The last of the first `n` manifests that has the role. */
  function LastWithRole(ms: seq<Manifest>, n: nat, r: string): (k: Option<nat>)
    requires n <= |ms|
    ensures k.Some? ==> k.value < n && HasRole(ms[k.value], r)
    ensures forall j :: 0 <= j < n && HasRole(ms[j], r) ==> k.Some? && j <= k.value
  {
    if n == 0 then None else if HasRole(ms[n - 1], r) then Some(n - 1) else LastWithRole(ms, n - 1, r)
  }

  /** The last of the first `n` manifests that has the tool. */
  function LastWithTool(ms: seq<Manifest>, n: nat, t: string): (k: Option<nat>)
    requires n <= |ms|
    ensures k.Some? ==> k.value < n && HasTool(ms[k.value], t)
    ensures forall j :: 0 <= j < n && HasTool(ms[j], t) ==> k.Some? && j <= k.value
  {
    if n == 0 then None else if HasTool(ms[n - 1], t) then Some(n - 1) else LastWithTool(ms, n - 1, t)
  }

  /** The roles a vertical registers are those of its manifest. */
  lemma EntryRoles(g: View, m: Manifest, h: View, r: string)
    requires InsertsVertical(g, m, h)
    ensures r in h.verticals[m.id].roles <==> HasRole(m, r)
  {
    var roles := h.verticals[m.id].roles;
    var ids :| RoleIds(m, ids) && roles == QualifiedAll(m.id, ids);
    if r in roles {
      var k :| 0 <= k < |roles| && roles[k] == r;
      assert ids[k] in ids && r == Qualified(m.id, ids[k]);
    }
    if HasRole(m, r) {
      var id :| id in m.profiles && r == Qualified(m.id, id);
      var k :| 0 <= k < |ids| && ids[k] == id;
      assert roles[k] == r;
    }
  }

  lemma VerticalNames(g: View, m: Manifest, h: View, r: string, t: string)
    requires InsertsVertical(g, m, h)
    ensures Names(h, r, t) <==> if HasRole(m, r) then HasTool(m, t) else Names(g, r, t)
    ensures NamedBy(h, r, t) <==> if HasTool(m, t) then HasRole(m, r) else NamedBy(g, r, t)
  {
    EntryRoles(g, m, h, r);
  }

  lemma NextStageNames(input: Input, views: seq<View>, n: nat, r: string, t: string)
    requires Stages(input, views) && 0 < n < |views|
    ensures var m := input.manifests[n - 1];
      && (Names(views[n], r, t) <==> if HasRole(m, r) then HasTool(m, t) else Names(views[n - 1], r, t))
      && (NamedBy(views[n], r, t) <==> if HasTool(m, t) then HasRole(m, r) else NamedBy(views[n - 1], r, t))
  {
    assert StageAt(input.manifests, views, n - 1);
    VerticalNames(views[n - 1], input.manifests[n - 1], views[n], r, t);
  }

  /** A role lists the tools of the last manifest that has it. */
  lemma {:induction false} StageNames(input: Input, views: seq<View>, n: nat, r: string, t: string)
    requires Stages(input, views) && n < |views|
    ensures Names(views[n], r, t) <==>
      var k := LastWithRole(input.manifests, n, r); k.Some? && HasTool(input.manifests[k.value], t)
  {
    if n > 0 {
      StageNames(input, views, n - 1, r, t);
      NextStageNames(input, views, n, r, t);
    }
  }

  /** A tool lists the roles of the last manifest that has it. */
  lemma {:induction false} StageNamedBy(input: Input, views: seq<View>, n: nat, r: string, t: string)
    requires Stages(input, views) && n < |views|
    ensures NamedBy(views[n], r, t) <==>
      var k := LastWithTool(input.manifests, n, t); k.Some? && HasRole(input.manifests[k.value], r)
  {
    if n > 0 {
      StageNamedBy(input, views, n - 1, r, t);
      NextStageNames(input, views, n, r, t);
    }
  }

  /** Manifest `k` has the last word on a role of its own exactly when it has it on each tool of its own. */
  predicate SameLastWord(ms: seq<Manifest>, k: nat, r: string, t: string)
    requires k < |ms|
  {
    HasRole(ms[k], r) && HasTool(ms[k], t) ==>
      (LastWithRole(ms, |ms|, r) == Some(k) <==> LastWithTool(ms, |ms|, t) == Some(k))
  }

  predicate LastWordsAgree(ms: seq<Manifest>, r: string, t: string) {
    forall k :: 0 <= k < |ms| ==> SameLastWord(ms, k, r, t)
  }

  /**
   * The built index is symmetric if and only if no manifest is overridden in part: whenever it has a role and
   * a tool, it is the last with that role exactly when it is the last with that tool.
   */
  lemma BuiltIndexIsSymmetricIff(input: Input, views: seq<View>, index: View)
    requires Builds(input, views, index)
    ensures Symmetric(index) <==> forall r, t :: LastWordsAgree(input.manifests, r, t)
  {
    var ms := input.manifests;
    StagesAreLinked(input, views, |ms|);
    StubsKeepLinked(views[|ms|], input.failed);
    forall r, t
      ensures Mutual(index, r, t) <==> LastWordsAgree(ms, r, t)
    {
      StageNames(input, views, |ms|, r, t);
      StageNamedBy(input, views, |ms|, r, t);
      MutualIff(ms, r, t);
      assert Mutual(index, r, t) <==> (Names(views[|ms|], r, t) <==> NamedBy(views[|ms|], r, t));
    }
  }

  lemma MutualIff(ms: seq<Manifest>, r: string, t: string)
    ensures
      var a, b := LastWithRole(ms, |ms|, r), LastWithTool(ms, |ms|, t);
      ((a.Some? && HasTool(ms[a.value], t)) <==> (b.Some? && HasRole(ms[b.value], r)))
      <==> LastWordsAgree(ms, r, t)
  {
    var a, b := LastWithRole(ms, |ms|, r), LastWithTool(ms, |ms|, t);
    if LastWordsAgree(ms, r, t) {
      assert a.Some? ==> SameLastWord(ms, a.value, r, t);
      assert b.Some? ==> SameLastWord(ms, b.value, r, t);
    }
  }

  // Every policy is accounted for once

  /** The tool is listed once by the type it needs and by no other, or it is the subject of one warning. */
  lemma PolicyLandsOnce(m: Manifest, checkpoints: map<string, CheckpointType>, order: seq<string>, t: string, c: string)
    requires CrossLinked(m, checkpoints) && ListsDangling(m, order) && Needs(m, t, c)
    ensures multiset(order)[t] == if c in m.checkpoints then 0 else 1
    ensures forall x :: x in checkpoints ==> multiset(checkpoints[x].requiredBy)[t] == if x == c then 1 else 0
  {
    DistinctIffSingle(order);
    assert t in order <==> t in multiset(order);
    forall x | x in checkpoints
      ensures multiset(checkpoints[x].requiredBy)[t] == if x == c then 1 else 0
    {
      var list := checkpoints[x].requiredBy;
      AscendingIsDistinct(list);
      DistinctIffSingle(list);
      assert t in list <==> t in multiset(list);
    }
  }

  /** A tool whose policy needs no checkpoint is neither listed nor warned about. */
  lemma OthersDoNotLand(m: Manifest, checkpoints: map<string, CheckpointType>, order: seq<string>, t: string)
    requires CrossLinked(m, checkpoints) && ListsDangling(m, order) && forall c :: !Needs(m, t, c)
    ensures t !in order && forall x :: x in checkpoints ==> t !in checkpoints[x].requiredBy
  {
    if t in order {
      assert Needs(m, t, m.policies[t].checkpointType.value);
    }
  }

  lemma AscendingIsDistinct(s: seq<string>)
    requires Ascending(s)
    ensures Distinct(s)
  {
    forall i, j | 0 <= i < j < |s|
      ensures s[i] != s[j]
    {
      LessIsStrictOrder(s[i], s[i], s[i]);
    }
  }

  // No trace of hash order

  lemma VerticalIsDetermined(g: View, m: Manifest, a: View, b: View)
    requires InsertsVertical(g, m, a) && InsertsVertical(g, m, b)
    ensures a == b
  {
    var ea, eb := a.verticals[m.id], b.verticals[m.id];
    var ia :| RoleIds(m, ia) && ea.roles == QualifiedAll(m.id, ia);
    var ib :| RoleIds(m, ib) && eb.roles == QualifiedAll(m.id, ib);
    AscendingIsUnique(ia, ib);
    LinksAreDetermined(m, ea.checkpoints, eb.checkpoints);
  }

  lemma LinksAreDetermined(m: Manifest, a: map<string, CheckpointType>, b: map<string, CheckpointType>)
    requires CrossLinked(m, a) && CrossLinked(m, b)
    ensures a == b
  {
    forall c | c in a
      ensures a[c] == b[c]
    {
      AscendingIsUnique(a[c].requiredBy, b[c].requiredBy);
    }
  }

  lemma {:induction false} StagesAreDetermined(input: Input, a: seq<View>, b: seq<View>, k: nat)
    requires Stages(input, a) && Stages(input, b) && k < |a|
    ensures a[k] == b[k]
  {
    if k > 0 {
      StagesAreDetermined(input, a, b, k - 1);
      assert StageAt(input.manifests, a, k - 1) && StageAt(input.manifests, b, k - 1);
      VerticalIsDetermined(a[k - 1], input.manifests[k - 1], a[k], b[k]);
    }
  }

  /** Two builds from the same inputs return the same index, whatever order the maps were read in. */
  lemma IndexIsDetermined(input: Input, va: seq<View>, a: View, vb: seq<View>, b: View)
    requires Builds(input, va, a) && Builds(input, vb, b)
    ensures a == b
  {
    StagesAreDetermined(input, va, vb, |va| - 1);
  }

  lemma {:induction false} WarningsAreMapped(m: Manifest, order: seq<string>, f: string -> string)
    requires forall t :: f(t) == WarningOf(m, t)
    ensures Warnings(m, order) == Mapped(f, order)
  {
    if order != [] {
      var n := |order| - 1;
      WarningsAreMapped(m, order[..n], f);
      assert order == order[..n] + [order[n]];
      MappedLast(f, order[..n], order[n]);
    }
  }

  lemma SameWarnings(m: Manifest, a: seq<string>, b: seq<string>)
    requires ListsDangling(m, a) && ListsDangling(m, b)
    ensures multiset(Warnings(m, a)) == multiset(Warnings(m, b))
  {
    var f := (t: string) => WarningOf(m, t);
    WarningsAreMapped(m, a, f);
    WarningsAreMapped(m, b, f);
    SameSetDistinct(a, b);
    MappedPermutation(f, a, b);
  }

  /** Two builds also give the same warnings, up to their order. */
  lemma {:induction false} WarningsAreDetermined(manifests: seq<Manifest>, a: seq<seq<string>>, b: seq<seq<string>>)
    requires Orders(manifests, a) && Orders(manifests, b)
    ensures multiset(AllWarnings(manifests, a)) == multiset(AllWarnings(manifests, b))
  {
    if manifests != [] {
      var n := |manifests| - 1;
      WarningsAreDetermined(manifests[..n], a[..n], b[..n]);
      SameWarnings(manifests[n], a[n], b[n]);
    }
  }
}
