/**
 * The module-tree walker: the graph identifiers it assigns, the calls it makes
 * on the graph, and the Graph object whose Walk, State and Plan make them.
 */
module Walker {
  import opened TfJson
  import opened Gographviz

  /** Identifier of a module's node: the namespace alone for the root module. */
  function ModuleId(ns: string, address: string): string
  {
    if address == "" then ns else ns + ": " + address
  }

  /** Identifier of a resource's node: the owning module's identifier, a dot, the spec. */
  function ResourceId(moduleId: string, spec: string): string
  {
    moduleId + "." + spec
  }

  /** Colour of a resource node: green for a data source, blue for anything else. */
  function Color(mode: Mode): string
  {
    if mode == Data then "green" else "blue"
  }

  /** Display attributes of a resource node. */
  function ResourceAttrs(r: Resource): map<string, string>
  {
    map["label" := r.spec, "shape" := "box", "color" := Color(r.mode)]
  }

  /** The node and the containment edge that resource r of module moduleId adds after log. */
  function ResourceStep(log: seq<Call>, ns: string, moduleId: string, r: Resource): seq<Call>
  {
    log + [AddNode(ns, ResourceId(moduleId, r.spec), ResourceAttrs(r))]
        + [AddEdge(moduleId, ResourceId(moduleId, r.spec), true)]
  }

  /** The log after the first k resources of a module were added to log. */
  function ResourcesLog(log: seq<Call>, ns: string, moduleId: string, rs: seq<Resource>, k: nat): seq<Call>
    requires k <= |rs|
  {
    if k == 0 then log else ResourceStep(ResourcesLog(log, ns, moduleId, rs, k - 1), ns, moduleId, rs[k - 1])
  }

  /**
   * The log after module m was walked in namespace ns starting from log:
   * the module's node, then its resources, then its children in order.
   */
  function WalkLog(log: seq<Call>, ns: string, m: StateModule): seq<Call>
    decreases m, 1, 0
  {
    var id := ModuleId(ns, m.address);
    ChildrenLog(ResourcesLog(log + [AddNode(ns, id, map[])], ns, id, m.resources, |m.resources|),
                ns, m, |m.childModules|)
  }

  /** The log after the first k children of m were walked from base, each followed by the edge to it. */
  function ChildrenLog(base: seq<Call>, ns: string, m: StateModule, k: nat): seq<Call>
    requires k <= |m.childModules|
    decreases m, 0, k
  {
    if k == 0 then base
    else
      var c := m.childModules[k - 1];
      WalkLog(ChildrenLog(base, ns, m, k - 1), ns, c)
        + [AddEdge(ModuleId(ns, m.address), ModuleId(ns, c.address), true)]
  }

  /** The log after Graph.State ran on a state whose root module is root, starting from log. */
  function StateLog(log: seq<Call>, root: StateModule): seq<Call>
  {
    WalkLog(log + [AddSubGraph("G", "state")], "state", root)
  }

  /** The log after Graph.Plan ran on a plan with the given planned and prior roots, starting from log. */
  function PlanLog(log: seq<Call>, planned: StateModule, prior: StateModule): seq<Call>
  {
    WalkLog(WalkLog(log + [AddSubGraph("G", "planned")] + [AddSubGraph("G", "prior")], "planned", planned),
            "prior", prior)
  }

  /** Graph.State dereferences these pointers; a nil one makes it crash. */
  predicate StateWalkable(s: State)
  {
    s.values.Some? && s.values.value.rootModule.Some?
  }

  /** Graph.Plan dereferences these pointers; a nil one makes it crash. */
  predicate PlanWalkable(p: Plan)
  {
    p.plannedValues.Some? && p.plannedValues.value.rootModule.Some? &&
    p.priorState.Some? && p.priorState.value.values.Some? &&
    p.priorState.value.values.value.rootModule.Some?
  }

  /** The converter's wrapper around the graph library. */
  class Graph {
    const gv: Recorder

    constructor (gv: Recorder)
      ensures this.gv == gv
    {
      this.gv := gv;
    }

    /** Adds module m and everything below it to subgraph graphName; returns m's node identifier. */
    method Walk(graphName: string, m: StateModule) returns (maddr: string)
      modifies gv
      decreases m
      ensures maddr == ModuleId(graphName, m.address)
      ensures gv.calls == WalkLog(old(gv.calls), graphName, m)
    {
      if m.address == "" {
        maddr := graphName;
      } else {
        maddr := graphName + ": " + m.address;
      }
      gv.AddNode(graphName, maddr, map[]);
      ghost var afterModule := gv.calls;
      for i := 0 to |m.resources|
        invariant gv.calls == ResourcesLog(afterModule, graphName, maddr, m.resources, i)
      {
        var r := m.resources[i];
        var attrs := map["label" := r.spec, "shape" := "box"];
        var rName := maddr + "." + r.spec;
        if r.mode == Data {
          attrs := attrs["color" := "green"];
        } else {
          attrs := attrs["color" := "blue"];
        }
        gv.AddNode(graphName, rName, attrs);
        gv.AddEdge(maddr, rName, true);
      }
      ghost var afterResources := gv.calls;
      for i := 0 to |m.childModules|
        invariant gv.calls == ChildrenLog(afterResources, graphName, m, i)
      {
        var p := Walk(graphName, m.childModules[i]);
        gv.AddEdge(maddr, p, true);
      }
    }

    /** Walks the root module of a state in namespace "state". */
    method State(state: State)
      requires StateWalkable(state)
      modifies gv
      ensures gv.calls == StateLog(old(gv.calls), state.values.value.rootModule.value)
    {
      gv.AddSubGraph("G", "state");
      var _ := Walk("state", state.values.value.rootModule.value);
    }

    /** Walks the planned root in namespace "planned", then the prior root in namespace "prior". */
    method Plan(plan: Plan)
      requires PlanWalkable(plan)
      modifies gv
      ensures gv.calls == PlanLog(old(gv.calls), plan.plannedValues.value.rootModule.value,
                                  plan.priorState.value.values.value.rootModule.value)
    {
      gv.AddSubGraph("G", "planned");
      gv.AddSubGraph("G", "prior");
      var _ := Walk("planned", plan.plannedValues.value.rootModule.value);
      var _ := Walk("prior", plan.priorState.value.values.value.rootModule.value);
    }
  }
}
