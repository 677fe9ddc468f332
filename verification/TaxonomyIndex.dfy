/**
 * The taxonomy index of the console, built from base roles, an optional protocol taxonomy and
 * vertical manifests (wacp-console/crates/console-core/src/taxonomy_builder.rs, taxonomy.rs).
 * Hash maps are iterated in an arbitrary order.
 */
module TaxonomyIndex {
  import opened Options
  import opened NameOrder

  datatype BaseRole = Coordinator | Worker | Observer

  datatype PolicyKind = RequiresCheckpoint | RequiresGate | BudgetLimited | ClassificationGated

  datatype Policy = Policy(kind: PolicyKind, checkpointType: Option<string>)

  datatype Tool = Tool(name: string, description: string)

  /** A vertical manifest; `profiles` holds the role id of each profile, `checkpoints` the described types. */
  datatype Manifest = Manifest(id: string, name: string, profiles: seq<string>, tools: seq<Tool>,
                               policies: map<string, Policy>, checkpoints: map<string, string>)

  datatype DerivedRole = DerivedRole(base: BaseRole, capabilities: set<string>)

  datatype RoleEntry = RoleEntry(name: string, baseRole: string, extending: Option<string>, capabilities: set<string>,
                                 tools: seq<string>, vertical: Option<string>)

  datatype ToolEntry = ToolEntry(name: string, description: string, vertical: Option<string>,
                                 roles: seq<string>, policy: Option<Policy>)

  datatype CheckpointType = CheckpointType(description: string, requiredBy: seq<string>)

  datatype VerticalEntry = VerticalEntry(id: string, name: string, loadError: Option<string>, roles: seq<string>,
                                         policies: map<string, Policy>, checkpoints: map<string, CheckpointType>,
                                         profiles: seq<string>, tools: seq<Tool>)

  datatype View = View(roles: map<string, RoleEntry>, tools: map<string, ToolEntry>,
                       verticals: map<string, VerticalEntry>)

  // What a manifest asks for

  function Qualified(vertical: string, role: string): string {
    vertical + ":" + role
  }

  function QualifiedAll(vertical: string, roles: seq<string>): seq<string> {
    seq(|roles|, i requires 0 <= i < |roles| => Qualified(vertical, roles[i]))
  }

  function ToolNames(tools: seq<Tool>): seq<string> {
    seq(|tools|, i requires 0 <= i < |tools| => tools[i].name)
  }

  /** The tool needs a checkpoint of this type before it may run. */
  predicate Needs(m: Manifest, tool: string, checkpoint: string) {
    && tool in m.policies && m.policies[tool].kind.RequiresCheckpoint?
    && m.policies[tool].checkpointType == Some(checkpoint)
  }

  /** The tool needs a checkpoint of a type the manifest does not declare. */
  predicate Dangling(m: Manifest, tool: string) {
    && tool in m.policies && m.policies[tool].kind.RequiresCheckpoint? && m.policies[tool].checkpointType.Some?
    && m.policies[tool].checkpointType.value !in m.checkpoints
  }

  function Warning(vertical: string, tool: string, checkpoint: string): string {
    "vertical '" + vertical + "': tool '" + tool + "' references checkpoint type '" + checkpoint
    + "' not declared in this vertical's checkpoint_types"
  }

  function WarningOf(m: Manifest, tool: string): string {
    var needed := if tool in m.policies then m.policies[tool].checkpointType else None;
    Warning(m.id, tool, if needed.Some? then needed.value else "")
  }

  function Warnings(m: Manifest, order: seq<string>): seq<string> {
    if order == [] then [] else Warnings(m, order[..|order| - 1]) + [WarningOf(m, order[|order| - 1])]
  }

  /** A list with each dangling tool once, in some order. */
  predicate ListsDangling(m: Manifest, order: seq<string>) {
    && Distinct(order) && (forall t :: t in order ==> Dangling(m, t))
    && forall t :: t in m.policies && Dangling(m, t) ==> t in order
  }

  /** The description of the last listed tool of that name. */
  function LastDescription(tools: seq<Tool>, name: string): string
    requires name in ToolNames(tools)
  {
    var last := tools[|tools| - 1];
    if last.name == name then last.description
    else
      assert ToolNames(tools) == ToolNames(tools[..|tools| - 1]) + [last.name];
      LastDescription(tools[..|tools| - 1], name)
  }

  // What one vertical does to the index

  function VerticalRole(m: Manifest, role: string): RoleEntry {
    RoleEntry(role, "worker", Some("worker"), {}, ToolNames(m.tools), Some(m.id))
  }

  function VerticalTool(m: Manifest, tool: string, roles: seq<string>): ToolEntry
    requires tool in ToolNames(m.tools)
  {
    ToolEntry(tool, LastDescription(m.tools, tool), Some(m.id), roles,
              if tool in m.policies then Some(m.policies[tool]) else None)
  }

  function RolesFor(m: Manifest, roles: seq<string>): map<string, RoleEntry> {
    map r | r in roles :: VerticalRole(m, r)
  }

  function ToolsFor(m: Manifest, roles: seq<string>): map<string, ToolEntry> {
    map t | t in ToolNames(m.tools) :: VerticalTool(m, t, roles)
  }

  /** The checkpoint types as declared, each with the tools that need it in ascending order. */
  ghost predicate CrossLinked(m: Manifest, checkpoints: map<string, CheckpointType>) {
    && checkpoints.Keys == m.checkpoints.Keys
    && forall c :: c in checkpoints ==> EntryLinked(m, c, checkpoints[c])
  }

  ghost predicate EntryLinked(m: Manifest, c: string, entry: CheckpointType) {
    && c in m.checkpoints && entry.description == m.checkpoints[c]
    && Ascending(entry.requiredBy)
    && forall t :: t in entry.requiredBy <==> Needs(m, t, c)
  }

  ghost predicate RoleIds(m: Manifest, ids: seq<string>) {
    Ascending(ids) && forall r :: r in ids <==> r in m.profiles
  }

  ghost predicate InsertsVertical(g: View, m: Manifest, h: View) {
    m.id in h.verticals &&
    var e := h.verticals[m.id];
    && h.roles == g.roles + RolesFor(m, e.roles)
    && h.tools == g.tools + ToolsFor(m, e.roles)
    && h.verticals == g.verticals[m.id := e]
    && (exists ids :: RoleIds(m, ids) && e.roles == QualifiedAll(m.id, ids))
    && CrossLinked(m, e.checkpoints)
    && e == VerticalEntry(m.id, m.name, None, e.roles, m.policies, e.checkpoints, m.profiles, m.tools)
  }

  function FailedEntry(id: string, error: string): VerticalEntry {
    VerticalEntry(id, id, Some(error), [], map[], map[], [], [])
  }

  function BaseName(b: BaseRole): string {
    match b case Coordinator => "coordinator" case Worker => "worker" case Observer => "observer"
  }

  function DerivedEntry(name: string, r: DerivedRole): RoleEntry {
    RoleEntry(name, BaseName(r.base), Some(BaseName(r.base)), r.capabilities, [], None)
  }

  const BASE_ROLES: map<string, RoleEntry> := map[
    "coordinator" := RoleEntry("coordinator", "coordinator", None, {}, [], None),
    "worker" := RoleEntry("worker", "worker", None, {"send: query → coordinator", "create: artifact"}, [], None),
    "observer" := RoleEntry("observer", "observer", None, {"create: observation"}, [], None)]

  // The builder

  class Builder {
    var roles: map<string, RoleEntry>
    var tools: map<string, ToolEntry>
    var verticals: map<string, VerticalEntry>
    var warnings: seq<string>

    function Index(): View
      reads this
    {
      View(roles, tools, verticals)
    }

    constructor ()
      ensures Index() == View(BASE_ROLES, map[], map[]) && warnings == []
    {
      roles := BASE_ROLES;
      tools := map[];
      verticals := map[];
      warnings := [];
    }

    method InsertTaxonomy(derived: map<string, DerivedRole>)
      modifies this`roles
      ensures roles == old(roles) + DerivedEntries(derived, {})
    {
      var left := derived.Keys;
      while left != {}
        invariant left <= derived.Keys
        invariant roles == old(roles) + DerivedEntries(derived, left)
        decreases |left|
      {
        var n :| n in left;
        DerivedStep(derived, left, n);
        MergeThenUpdate(old(roles), DerivedEntries(derived, left), n, DerivedEntry(n, derived[n]));
        roles := roles[n := DerivedEntry(n, derived[n])];
        left := left - {n};
      }
    }

    method InsertRoles(m: Manifest, qualified: seq<string>)
      modifies this`roles
      ensures roles == old(roles) + RolesFor(m, qualified)
    {
      var i := 0;
      while i < |qualified|
        invariant 0 <= i <= |qualified|
        invariant roles == old(roles) + RolesFor(m, qualified[..i])
      {
        assert qualified[..i + 1] == qualified[..i] + [qualified[i]];
        roles := roles[qualified[i] := VerticalRole(m, qualified[i])];
        i := i + 1;
      }
      assert qualified[..i] == qualified;
    }

    method InsertTools(m: Manifest, qualified: seq<string>)
      modifies this`tools
      ensures tools == old(tools) + ToolsFor(m, qualified)
    {
      var i := 0;
      while i < |m.tools|
        invariant 0 <= i <= |m.tools|
        invariant tools == old(tools) + ToolsFor(m.(tools := m.tools[..i]), qualified)
      {
        var tool := m.tools[i];
        var policy := if tool.name in m.policies then Some(m.policies[tool.name]) else None;
        var entry := ToolEntry(tool.name, tool.description, Some(m.id), qualified, policy);
        ToolsGrow(m, qualified, i);
        MergeThenUpdate(old(tools), ToolsFor(m.(tools := m.tools[..i]), qualified), tool.name, entry);
        tools := tools[tool.name := entry];
        i := i + 1;
      }
      assert m.tools[..i] == m.tools;
    }

    /** One tool policy: link it to its checkpoint type, or warn. */
    method LinkPolicy(m: Manifest, t: string, linked: map<string, CheckpointType>, ghost left: set<string>,
                      ghost before: seq<string>)
      returns (checkpoints: map<string, CheckpointType>, ghost order: seq<string>)
      requires t in left && t in m.policies
      requires PartlyLinked(m, left, linked) && PartlyWarned(m, left, before)
      modifies this`warnings
      ensures PartlyLinked(m, left - {t}, checkpoints) && PartlyWarned(m, left - {t}, order)
      ensures if Dangling(m, t) then order == before + [t] && warnings == old(warnings) + [WarningOf(m, t)]
              else order == before && warnings == old(warnings)
    {
      checkpoints, order := linked, before;
      WarnStep(m, left, order, t);
      var policy := m.policies[t];
      if policy.kind.RequiresCheckpoint? && policy.checkpointType.Some? {
        var c := policy.checkpointType.value;
        if c in checkpoints {
          LinkStep(m, left, linked, t, Some(c));
          checkpoints := checkpoints[c := checkpoints[c].(requiredBy := checkpoints[c].requiredBy + [t])];
        } else {
          LinkStep(m, left, linked, t, None);
          warnings := warnings + [Warning(m.id, t, c)];
          order := order + [t];
        }
      } else {
        LinkStep(m, left, linked, t, None);
      }
    }

    /** The tool policies, in hash order. */
    method CrossLink(m: Manifest) returns (checkpoints: map<string, CheckpointType>, ghost order: seq<string>)
      modifies this`warnings
      ensures CrossLinked(m, checkpoints) && ListsDangling(m, order)
      ensures warnings == old(warnings) + Warnings(m, order)
    {
      checkpoints, order := Unlinked(m), [];
      NothingDone(m);
      var left := m.policies.Keys;
      while left != {}
        invariant left <= m.policies.Keys
        invariant PartlyLinked(m, left, checkpoints) && PartlyWarned(m, left, order)
        invariant warnings == old(warnings) + Warnings(m, order)
        decreases |left|
      {
        var t :| t in left;
        OneMoreWarning(old(warnings), m, order, t);
        checkpoints, order := LinkPolicy(m, t, checkpoints, left, order);
        left := left - {t};
      }
      AllDone(m, order);
      checkpoints := SortAll(m, checkpoints);
    }

    method InsertVertical(m: Manifest) returns (ghost order: seq<string>)
      modifies this
      ensures InsertsVertical(old(Index()), m, Index())
      ensures ListsDangling(m, order) && warnings == old(warnings) + Warnings(m, order)
    {
      var sorted := Sort(m.profiles);
      var ids := Dedup(sorted);
      SameElements(sorted, m.profiles);
      var qualified := QualifiedAll(m.id, ids);
      InsertRoles(m, qualified);
      InsertTools(m, qualified);
      var checkpoints;
      checkpoints, order := CrossLink(m);
      var entry := VerticalEntry(m.id, m.name, None, qualified, m.policies, checkpoints, m.profiles, m.tools);
      verticals := verticals[m.id := entry];
      assert RoleIds(m, ids);
    }

    method InsertFailed(id: string, error: string)
      modifies this`verticals
      ensures Index() == old(Index()).(verticals := old(verticals)[id := FailedEntry(id, error)])
    {
      verticals := verticals[id := VerticalEntry(id, id, Some(error), [], map[], map[], [], [])];
    }
  }

  // Derived roles

  /** The entries of all derived roles but those still left. */
  function DerivedEntries(derived: map<string, DerivedRole>, left: set<string>): map<string, RoleEntry> {
    map n | n in derived && n !in left :: DerivedEntry(n, derived[n])
  }

  lemma DerivedStep(derived: map<string, DerivedRole>, left: set<string>, n: string)
    requires n in derived && n in left
    ensures DerivedEntries(derived, left - {n}) == DerivedEntries(derived, left)[n := DerivedEntry(n, derived[n])]
  {
  }

  // Tools

  lemma ToolsGrow(m: Manifest, qualified: seq<string>, i: nat)
    requires i < |m.tools|
    ensures var n := m.tools[i].name;
      ToolsFor(m.(tools := m.tools[..i + 1]), qualified) == ToolsFor(m.(tools := m.tools[..i]), qualified)[n :=
        ToolEntry(n, m.tools[i].description, Some(m.id), qualified,
                  if n in m.policies then Some(m.policies[n]) else None)]
  {
    assert m.tools[..i + 1][..i] == m.tools[..i];
    assert ToolNames(m.tools[..i + 1]) == ToolNames(m.tools[..i]) + [m.tools[i].name];
  }

  lemma MergeThenUpdate<V>(a: map<string, V>, b: map<string, V>, k: string, v: V)
    ensures (a + b)[k := v] == a + b[k := v]
  {
  }

  // Linking

  /** All policies but those still left are reflected. */
  ghost predicate PartlyLinked(m: Manifest, left: set<string>, checkpoints: map<string, CheckpointType>) {
    && checkpoints.Keys == m.checkpoints.Keys
    && forall c :: c in checkpoints ==> LinkedFor(m, left, c, checkpoints[c])
  }

  ghost predicate LinkedFor(m: Manifest, left: set<string>, c: string, entry: CheckpointType) {
    && c in m.checkpoints && entry.description == m.checkpoints[c]
    && Distinct(entry.requiredBy)
    && forall t :: t in entry.requiredBy <==> Needs(m, t, c) && t !in left
  }

  function WithTool(entry: CheckpointType, t: string): CheckpointType {
    entry.(requiredBy := entry.requiredBy + [t])
  }

  lemma LinkOne(m: Manifest, left: set<string>, c: string, entry: CheckpointType, t: string)
    requires LinkedFor(m, left, c, entry) && t in left
    ensures LinkedFor(m, left - {t}, c, if Needs(m, t, c) then WithTool(entry, t) else entry)
  {
  }

  /** The policy of `t` needs type `c`, or no declared type. */
  lemma LinkStep(m: Manifest, left: set<string>, checkpoints: map<string, CheckpointType>, t: string, c: Option<string>)
    requires PartlyLinked(m, left, checkpoints) && t in left
    requires forall x :: x in checkpoints ==> (Needs(m, t, x) <==> c == Some(x))
    requires c.Some? ==> c.value in checkpoints
    ensures PartlyLinked(m, left - {t},
      if c.Some? then checkpoints[c.value := WithTool(checkpoints[c.value], t)] else checkpoints)
  {
    forall x | x in checkpoints
      ensures LinkedFor(m, left - {t}, x, if c == Some(x) then WithTool(checkpoints[x], t) else checkpoints[x])
    {
      LinkOne(m, left, x, checkpoints[x], t);
    }
  }

  ghost predicate PartlyWarned(m: Manifest, left: set<string>, order: seq<string>) {
    && Distinct(order)
    && (forall t :: t in order ==> Dangling(m, t) && t !in left)
    && forall t :: t in m.policies && Dangling(m, t) && t !in left ==> t in order
  }

  lemma WarnStep(m: Manifest, left: set<string>, order: seq<string>, t: string)
    requires PartlyWarned(m, left, order) && t in left
    ensures PartlyWarned(m, left - {t}, if Dangling(m, t) then order + [t] else order)
  {
  }

  lemma OneMoreWarning(before: seq<string>, m: Manifest, order: seq<string>, t: string)
    ensures before + Warnings(m, order + [t]) == before + Warnings(m, order) + [WarningOf(m, t)]
  {
    assert (order + [t])[..|order|] == order;
  }

  lemma AllDone(m: Manifest, order: seq<string>)
    requires PartlyWarned(m, {}, order)
    ensures ListsDangling(m, order)
  {
  }

  lemma NothingDone(m: Manifest)
    ensures PartlyLinked(m, m.policies.Keys, Unlinked(m)) && PartlyWarned(m, m.policies.Keys, [])
  {
  }

  function Unlinked(m: Manifest): map<string, CheckpointType> {
    map c | c in m.checkpoints :: CheckpointType(m.checkpoints[c], [])
  }

  method SortEntry(m: Manifest, c: string, entry: CheckpointType) returns (sorted: CheckpointType)
    requires LinkedFor(m, {}, c, entry)
    ensures EntryLinked(m, c, sorted)
  {
    var list := Sort(entry.requiredBy);
    SameElements(list, entry.requiredBy);
    SameDistinctness(list, entry.requiredBy);
    SortedDistinctAscends(list);
    sorted := entry.(requiredBy := list);
  }

  /** Sorts every list of requiring tools. */
  method SortAll(m: Manifest, linked: map<string, CheckpointType>) returns (checkpoints: map<string, CheckpointType>)
    requires PartlyLinked(m, {}, linked)
    ensures CrossLinked(m, checkpoints)
  {
    checkpoints := linked;
    var left := linked.Keys;
    while left != {}
      invariant left <= linked.Keys == checkpoints.Keys
      invariant forall c :: c in checkpoints && c in left ==> LinkedFor(m, {}, c, checkpoints[c])
      invariant forall c :: c in checkpoints && c !in left ==> EntryLinked(m, c, checkpoints[c])
      decreases |left|
    {
      var c :| c in left;
      var sorted := SortEntry(m, c, checkpoints[c]);
      checkpoints := checkpoints[c := sorted];
      left := left - {c};
    }
  }
}
