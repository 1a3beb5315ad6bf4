/**
 * What the walker's identifiers look like, and how many nodes and edges a
 * walk adds: one node per module and per resource, one edge per resource
 * and per non-root module.
 */
module WalkerCounts {
  import opened TfJson
  import opened Gographviz
  import opened Walker

  /**
   * The root module (empty address) is named by the namespace alone; any
   * other module by the namespace, a colon and a space, then its address.
   */
  lemma ModuleIdShape(ns: string, address: string)
    ensures ModuleId(ns, address) == ns <==> address == ""
    ensures ns <= ModuleId(ns, address)
    ensures address != "" ==>
      |ModuleId(ns, address)| == |ns| + 2 + |address| &&
      ModuleId(ns, address)[|ns|..|ns| + 2] == ": " &&
      ModuleId(ns, address)[|ns| + 2..] == address
  {
  }

  /** Within one namespace, distinct module addresses get distinct identifiers. */
  lemma ModuleIdInjective(ns: string, a: string, b: string)
    requires ModuleId(ns, a) == ModuleId(ns, b)
    ensures a == b
  {
    ModuleIdShape(ns, a);
    ModuleIdShape(ns, b);
  }

  /**
   * A resource's identifier starts with its module's identifier and a dot
   * and ends with its spec, so it differs from the module's identifier.
   */
  lemma ResourceIdShape(moduleId: string, spec: string)
    ensures moduleId <= ResourceId(moduleId, spec)
    ensures |ResourceId(moduleId, spec)| == |moduleId| + 1 + |spec|
    ensures ResourceId(moduleId, spec)[|moduleId|] == '.'
    ensures ResourceId(moduleId, spec)[|moduleId| + 1..] == spec
    ensures ResourceId(moduleId, spec) != moduleId
  {
  }

  /** Within one module, distinct specs get distinct resource identifiers. */
  lemma ResourceIdInjective(moduleId: string, s: string, t: string)
    requires ResourceId(moduleId, s) == ResourceId(moduleId, t)
    ensures s == t
  {
    ResourceIdShape(moduleId, s);
    ResourceIdShape(moduleId, t);
  }

  /**
   * A resource node is labelled with its spec, drawn as a box, and coloured
   * green exactly when the resource is a data source and blue otherwise.
   */
  lemma ResourceAttrsShape(r: Resource)
    ensures ResourceAttrs(r).Keys == {"label", "shape", "color"}
    ensures ResourceAttrs(r)["label"] == r.spec
    ensures ResourceAttrs(r)["shape"] == "box"
    ensures ResourceAttrs(r)["color"] == "green" <==> r.mode == Data
    ensures ResourceAttrs(r)["color"] == "blue" <==> r.mode != Data
  {
  }

  /** The first k resources of a module add k nodes and k edges. */
  lemma {:induction false} ResourcesCounts(log: seq<Call>, ns: string, id: string, rs: seq<Resource>, k: nat)
    requires k <= |rs|
    ensures NodeCount(ResourcesLog(log, ns, id, rs, k)) == NodeCount(log) + k
    ensures EdgeCount(ResourcesLog(log, ns, id, rs, k)) == EdgeCount(log) + k
  {
    if k > 0 {
      var before := ResourcesLog(log, ns, id, rs, k - 1);
      var rid := ResourceId(id, rs[k - 1].spec);
      ResourcesCounts(log, ns, id, rs, k - 1);
      CountsSnoc(before, AddNode(ns, rid, ResourceAttrs(rs[k - 1])));
      CountsSnoc(before + [AddNode(ns, rid, ResourceAttrs(rs[k - 1]))], AddEdge(id, rid, true));
    }
  }

  /**
   * Walking a module tree adds one node per module and per resource, and
   * one edge per resource and per module other than the tree's root.
   */
  lemma {:induction false} WalkCounts(log: seq<Call>, ns: string, m: StateModule)
    decreases m, 1, 0
    ensures NodeCount(WalkLog(log, ns, m)) == NodeCount(log) + TreeModules(m) + TreeResources(m)
    ensures EdgeCount(WalkLog(log, ns, m)) == EdgeCount(log) + (TreeModules(m) - 1) + TreeResources(m)
  {
    var id := ModuleId(ns, m.address);
    var start := log + [AddNode(ns, id, map[])];
    CountsSnoc(log, AddNode(ns, id, map[]));
    ResourcesCounts(start, ns, id, m.resources, |m.resources|);
    ChildrenCounts(ResourcesLog(start, ns, id, m.resources, |m.resources|), ns, m, |m.childModules|);
  }

  /** Walking the first k children of m, each followed by its edge, adds their nodes and edges. */
  lemma {:induction false} ChildrenCounts(base: seq<Call>, ns: string, m: StateModule, k: nat)
    requires k <= |m.childModules|
    decreases m, 0, k
    ensures NodeCount(ChildrenLog(base, ns, m, k)) == NodeCount(base) + ChildrenModules(m, k) + ChildrenResources(m, k)
    ensures EdgeCount(ChildrenLog(base, ns, m, k)) == EdgeCount(base) + ChildrenModules(m, k) + ChildrenResources(m, k)
  {
    if k > 0 {
      var c := m.childModules[k - 1];
      var before := ChildrenLog(base, ns, m, k - 1);
      ChildrenCounts(base, ns, m, k - 1);
      WalkCounts(before, ns, c);
      CountsSnoc(WalkLog(before, ns, c), AddEdge(ModuleId(ns, m.address), ModuleId(ns, c.address), true));
    }
  }

  /** Graph.State adds (modules + resources) nodes and (modules + resources - 1) edges. */
  lemma StateCounts(log: seq<Call>, root: StateModule)
    ensures NodeCount(StateLog(log, root)) == NodeCount(log) + TreeModules(root) + TreeResources(root)
    ensures EdgeCount(StateLog(log, root)) == EdgeCount(log) + (TreeModules(root) - 1) + TreeResources(root)
  {
    CountsSnoc(log, AddSubGraph("G", "state"));
    WalkCounts(log + [AddSubGraph("G", "state")], "state", root);
  }

  /** Graph.Plan adds the nodes and edges of both trees. */
  lemma PlanCounts(log: seq<Call>, planned: StateModule, prior: StateModule)
    ensures NodeCount(PlanLog(log, planned, prior)) == NodeCount(log)
      + TreeModules(planned) + TreeResources(planned) + TreeModules(prior) + TreeResources(prior)
    ensures EdgeCount(PlanLog(log, planned, prior)) == EdgeCount(log)
      + (TreeModules(planned) - 1) + TreeResources(planned) + (TreeModules(prior) - 1) + TreeResources(prior)
  {
    var setup := log + [AddSubGraph("G", "planned")] + [AddSubGraph("G", "prior")];
    CountsSnoc(log, AddSubGraph("G", "planned"));
    CountsSnoc(log + [AddSubGraph("G", "planned")], AddSubGraph("G", "prior"));
    WalkCounts(setup, "planned", planned);
    WalkCounts(WalkLog(setup, "planned", planned), "prior", prior);
  }
}
