/**
 * Where in the log a walk puts each call: the module's node first, then a
 * node and an edge per resource, then each child's walk followed by the edge
 * to that child; and that every edge joins nodes declared before it.
 */
module WalkerLayout {
  import opened TfJson
  import opened Gographviz
  import opened Walker

  /** Prefix order on logs is transitive. */
  lemma PrefixTrans<T>(a: seq<T>, b: seq<T>, c: seq<T>)
    requires a <= b && b <= c
    ensures a <= c
  {
  }

  /**
   * The first k resources add, in order, the resource's node and then the
   * edge from the module to it, two calls per resource.
   */
  lemma {:induction false} ResourcesLogShape(log: seq<Call>, ns: string, id: string, rs: seq<Resource>, k: nat)
    requires k <= |rs|
    ensures |ResourcesLog(log, ns, id, rs, k)| == |log| + 2 * k
    ensures log <= ResourcesLog(log, ns, id, rs, k)
    ensures forall j :: 0 <= j < k ==>
      ResourcesLog(log, ns, id, rs, k)[|log| + 2 * j] == AddNode(ns, ResourceId(id, rs[j].spec), ResourceAttrs(rs[j])) &&
      ResourcesLog(log, ns, id, rs, k)[|log| + 2 * j + 1] == AddEdge(id, ResourceId(id, rs[j].spec), true)
  {
    if k > 0 {
      ResourcesLogShape(log, ns, id, rs, k - 1);
      var before := ResourcesLog(log, ns, id, rs, k - 1);
      var after := ResourcesLog(log, ns, id, rs, k);
      assert after[..|before|] == before;
      forall j | 0 <= j < k
        ensures after[|log| + 2 * j] == AddNode(ns, ResourceId(id, rs[j].spec), ResourceAttrs(rs[j]))
        ensures after[|log| + 2 * j + 1] == AddEdge(id, ResourceId(id, rs[j].spec), true)
      {
        if j < k - 1 {
          assert after[|log| + 2 * j] == before[|log| + 2 * j];
          assert after[|log| + 2 * j + 1] == before[|log| + 2 * j + 1];
        }
      }
      PrefixTrans(log, before, after);
    }
  }

  /** A walk only appends: it starts with the module's node right after log. */
  lemma {:induction false} WalkLogExtends(log: seq<Call>, ns: string, m: StateModule)
    decreases m, 1, 0
    ensures log + [AddNode(ns, ModuleId(ns, m.address), map[])] <= WalkLog(log, ns, m)
  {
    var id := ModuleId(ns, m.address);
    var start := log + [AddNode(ns, id, map[])];
    var rlog := ResourcesLog(start, ns, id, m.resources, |m.resources|);
    ResourcesLogShape(start, ns, id, m.resources, |m.resources|);
    ChildrenLogExtends(rlog, ns, m, 0, |m.childModules|);
    PrefixTrans(start, rlog, WalkLog(log, ns, m));
  }

  /** Walking more children only appends to the log. */
  lemma {:induction false} ChildrenLogExtends(base: seq<Call>, ns: string, m: StateModule, j: nat, k: nat)
    requires j <= k <= |m.childModules|
    decreases m, 0, k
    ensures ChildrenLog(base, ns, m, j) <= ChildrenLog(base, ns, m, k)
  {
    if j < k {
      var before := ChildrenLog(base, ns, m, k - 1);
      var c := m.childModules[k - 1];
      ChildrenLogExtends(base, ns, m, j, k - 1);
      WalkLogExtends(before, ns, c);
      var walked := WalkLog(before, ns, c);
      assert before <= walked;
      assert walked <= ChildrenLog(base, ns, m, k);
      PrefixTrans(before, walked, ChildrenLog(base, ns, m, k));
      PrefixTrans(ChildrenLog(base, ns, m, j), before, ChildrenLog(base, ns, m, k));
    }
  }

  /**
   * A walk of m after log puts m's node at position |log|, then for the j-th
   * resource its node (label, box, colour by mode) at |log| + 1 + 2j and the
   * edge from m's identifier to it right after.
   */
  lemma WalkEmitsModule(log: seq<Call>, ns: string, m: StateModule)
    ensures |log| + 1 + 2 * |m.resources| <= |WalkLog(log, ns, m)|
    ensures log <= WalkLog(log, ns, m)
    ensures WalkLog(log, ns, m)[|log|] == AddNode(ns, ModuleId(ns, m.address), map[])
    ensures forall j :: 0 <= j < |m.resources| ==>
      WalkLog(log, ns, m)[|log| + 1 + 2 * j]
        == AddNode(ns, ResourceId(ModuleId(ns, m.address), m.resources[j].spec), ResourceAttrs(m.resources[j])) &&
      WalkLog(log, ns, m)[|log| + 2 + 2 * j]
        == AddEdge(ModuleId(ns, m.address), ResourceId(ModuleId(ns, m.address), m.resources[j].spec), true)
  {
    var id := ModuleId(ns, m.address);
    var start := log + [AddNode(ns, id, map[])];
    var rlog := ResourcesLog(start, ns, id, m.resources, |m.resources|);
    var w := WalkLog(log, ns, m);
    ResourcesLogShape(start, ns, id, m.resources, |m.resources|);
    ChildrenLogExtends(rlog, ns, m, 0, |m.childModules|);
    assert w[..|rlog|] == rlog;
    PrefixTrans(start, rlog, w);
    assert w[..|start|] == start;
    assert w[..|log|] == start[..|log|];
    forall j | 0 <= j < |m.resources|
      ensures w[|log| + 1 + 2 * j] == AddNode(ns, ResourceId(id, m.resources[j].spec), ResourceAttrs(m.resources[j]))
      ensures w[|log| + 2 + 2 * j] == AddEdge(id, ResourceId(id, m.resources[j].spec), true)
    {
      assert w[|log| + 1 + 2 * j] == rlog[|start| + 2 * j];
      assert w[|log| + 2 + 2 * j] == rlog[|start| + 2 * j + 1];
    }
  }

  /** A root module with one managed resource gives its node, the resource's blue box and the edge to it. */
  lemma SingleResourceWalk(log: seq<Call>, ns: string, spec: string)
    ensures WalkLog(log, ns, StateModule("", [Resource(Managed, spec)], [])) == log + [
      AddNode(ns, ns, map[]),
      AddNode(ns, ns + "." + spec, map["label" := spec, "shape" := "box", "color" := "blue"]),
      AddEdge(ns, ns + "." + spec, true)]
  {
    var root := StateModule("", [Resource(Managed, spec)], []);
    var start := log + [AddNode(ns, ns, map[])];
    assert ResourcesLog(start, ns, ns, root.resources, 1) == ResourceStep(start, ns, ns, root.resources[0]);
  }

  /** The log of a walk of m just before its first child is walked. */
  function BeforeChildren(log: seq<Call>, ns: string, m: StateModule): seq<Call>
  {
    ResourcesLog(log + [AddNode(ns, ModuleId(ns, m.address), map[])], ns, ModuleId(ns, m.address),
                 m.resources, |m.resources|)
  }

  /** Position of the j-th child's module node in the walk of m. */
  function ChildStart(log: seq<Call>, ns: string, m: StateModule, j: nat): nat
    requires j < |m.childModules|
  {
    |ChildrenLog(BeforeChildren(log, ns, m), ns, m, j)|
  }

  /** Position of the edge from m to its j-th child in the walk of m. */
  function ChildEdgeAt(log: seq<Call>, ns: string, m: StateModule, j: nat): int
    requires j < |m.childModules|
  {
    |ChildrenLog(BeforeChildren(log, ns, m), ns, m, j + 1)| - 1
  }

  /**
   * The j-th child's walk starts with its node and is followed at once by
   * the edge from m to the identifier that walk returned.
   */
  lemma ChildAt(log: seq<Call>, ns: string, m: StateModule, j: nat)
    requires j < |m.childModules|
    ensures |log| + 1 + 2 * |m.resources| <= ChildStart(log, ns, m, j) < ChildEdgeAt(log, ns, m, j) < |WalkLog(log, ns, m)|
    ensures WalkLog(log, ns, m)[ChildStart(log, ns, m, j)] == AddNode(ns, ModuleId(ns, m.childModules[j].address), map[])
    ensures WalkLog(log, ns, m)[ChildEdgeAt(log, ns, m, j)]
      == AddEdge(ModuleId(ns, m.address), ModuleId(ns, m.childModules[j].address), true)
    ensures j + 1 < |m.childModules| ==> ChildStart(log, ns, m, j + 1) == ChildEdgeAt(log, ns, m, j) + 1
  {
    var id := ModuleId(ns, m.address);
    var b := BeforeChildren(log, ns, m);
    var w := WalkLog(log, ns, m);
    var c := m.childModules[j];
    var cj := ChildrenLog(b, ns, m, j);
    var walked := WalkLog(cj, ns, c);
    var cj1 := ChildrenLog(b, ns, m, j + 1);
    ResourcesLogShape(log + [AddNode(ns, id, map[])], ns, id, m.resources, |m.resources|);
    ChildrenLogExtends(b, ns, m, 0, j);
    ChildrenLogExtends(b, ns, m, j + 1, |m.childModules|);
    WalkLogExtends(cj, ns, c);
    assert cj1 == walked + [AddEdge(id, ModuleId(ns, c.address), true)];
    assert walked[|cj|] == AddNode(ns, ModuleId(ns, c.address), map[]);
    assert w[..|cj1|] == cj1;
    assert w[|cj|] == cj1[|cj|];
    assert w[|cj1| - 1] == cj1[|cj1| - 1];
  }

  /**
   * Children are walked in order, after all resources: each child's walk is
   * followed by the edge to it, and the next child's walk starts right after.
   */
  lemma WalkEmitsChildren(log: seq<Call>, ns: string, m: StateModule)
    ensures forall j :: 0 <= j < |m.childModules| ==>
      |log| + 1 + 2 * |m.resources| <= ChildStart(log, ns, m, j) < ChildEdgeAt(log, ns, m, j) < |WalkLog(log, ns, m)| &&
      WalkLog(log, ns, m)[ChildStart(log, ns, m, j)] == AddNode(ns, ModuleId(ns, m.childModules[j].address), map[]) &&
      WalkLog(log, ns, m)[ChildEdgeAt(log, ns, m, j)]
        == AddEdge(ModuleId(ns, m.address), ModuleId(ns, m.childModules[j].address), true) &&
      (j + 1 < |m.childModules| ==> ChildStart(log, ns, m, j + 1) == ChildEdgeAt(log, ns, m, j) + 1)
  {
    forall j | 0 <= j < |m.childModules|
      ensures |log| + 1 + 2 * |m.resources| <= ChildStart(log, ns, m, j) < ChildEdgeAt(log, ns, m, j) < |WalkLog(log, ns, m)|
      ensures WalkLog(log, ns, m)[ChildStart(log, ns, m, j)] == AddNode(ns, ModuleId(ns, m.childModules[j].address), map[])
      ensures WalkLog(log, ns, m)[ChildEdgeAt(log, ns, m, j)]
        == AddEdge(ModuleId(ns, m.address), ModuleId(ns, m.childModules[j].address), true)
      ensures j + 1 < |m.childModules| ==> ChildStart(log, ns, m, j + 1) == ChildEdgeAt(log, ns, m, j) + 1
    {
      ChildAt(log, ns, m, j);
    }
  }

  /** A name declared in a log stays declared when the log is extended. */
  lemma DeclaredExtends(a: seq<Call>, b: seq<Call>, id: string)
    requires a <= b && Declared(a, |a|, id)
    ensures Declared(b, |b|, id)
  {
  }

  /** Appending a call keeps every edge declared, provided the call is a directed edge between declared names or not an edge. */
  lemma EdgesDeclaredSnoc(s: seq<Call>, x: Call)
    requires EdgesDeclared(s)
    requires x.AddEdge? ==> x.directed && Declared(s, |s|, x.src) && Declared(s, |s|, x.dst)
    ensures EdgesDeclared(s + [x])
    ensures x.AddNode? ==> Declared(s + [x], |s| + 1, x.name)
  {
    var t := s + [x];
    forall p | 0 <= p < |t| && t[p].AddEdge?
      ensures t[p].directed && Declared(t, p, t[p].src) && Declared(t, p, t[p].dst)
    {
      var e := t[p];
      var q1 :| 0 <= q1 < p && q1 < |s| && s[q1].AddNode? && s[q1].name == e.src;
      var q2 :| 0 <= q2 < p && q2 < |s| && s[q2].AddNode? && s[q2].name == e.dst;
      assert t[q1] == s[q1] && t[q2] == s[q2];
    }
    if x.AddNode? {
      assert t[|s|] == x;
    }
  }

  /** A name declared in a log is declared at every position from its end on, in any extension of it. */
  lemma DeclaredBefore(a: seq<Call>, b: seq<Call>, p: int, id: string)
    requires a <= b && |a| <= p && Declared(a, |a|, id)
    ensures Declared(b, p, id)
  {
    var q :| 0 <= q < |a| && a[q].AddNode? && a[q].name == id;
    assert b[q] == a[q];
  }

  /**
   * In log r, resource step j after position start is a node followed by
   * the directed edge to it from the node id, which was declared earlier.
   */
  ghost predicate ResourcePlaced(r: seq<Call>, start: nat, id: string, j: nat)
  {
    start + 2 * j + 1 < |r| &&
    r[start + 2 * j].AddNode? &&
    r[start + 2 * j + 1] == AddEdge(id, r[start + 2 * j].name, true) &&
    Declared(r, start + 2 * j + 1, id)
  }

  /**
   * The resources of a module add, two calls per resource, a node and then
   * the directed edge from the (declared) module to it.
   */
  lemma {:induction false} ResourcesDeclared(log: seq<Call>, ns: string, id: string, rs: seq<Resource>, k: nat)
    requires k <= |rs|
    requires EdgesDeclared(log) && Declared(log, |log|, id)
    ensures EdgesDeclared(ResourcesLog(log, ns, id, rs, k))
    ensures Declared(ResourcesLog(log, ns, id, rs, k), |ResourcesLog(log, ns, id, rs, k)|, id)
    ensures |ResourcesLog(log, ns, id, rs, k)| == |log| + 2 * k
    ensures forall j :: 0 <= j < k ==> ResourcePlaced(ResourcesLog(log, ns, id, rs, k), |log|, id, j)
  {
    ResourcesLogShape(log, ns, id, rs, k);
    forall j | 0 <= j < k
      ensures ResourcePlaced(ResourcesLog(log, ns, id, rs, k), |log|, id, j)
    {
      var r := ResourcesLog(log, ns, id, rs, k);
      assert r[|log| + 2 * j] == AddNode(ns, ResourceId(id, rs[j].spec), ResourceAttrs(rs[j]));
      assert r[|log| + 2 * j + 1] == AddEdge(id, ResourceId(id, rs[j].spec), true);
      DeclaredBefore(log, r, |log| + 2 * j + 1, id);
    }
    if k > 0 {
      ResourcesDeclared(log, ns, id, rs, k - 1);
      var before := ResourcesLog(log, ns, id, rs, k - 1);
      var rid := ResourceId(id, rs[k - 1].spec);
      var node := AddNode(ns, rid, ResourceAttrs(rs[k - 1]));
      EdgesDeclaredSnoc(before, node);
      DeclaredExtends(before, before + [node], id);
      EdgesDeclaredSnoc(before + [node], AddEdge(id, rid, true));
      DeclaredExtends(before + [node], before + [node] + [AddEdge(id, rid, true)], id);
    }
  }

  /**
   * A walk keeps every edge of the log directed and between declared nodes,
   * and leaves the walked module's own identifier declared.
   */
  lemma {:induction false} WalkDeclared(log: seq<Call>, ns: string, m: StateModule)
    requires EdgesDeclared(log)
    decreases m, 1, 0
    ensures EdgesDeclared(WalkLog(log, ns, m))
    ensures Declared(WalkLog(log, ns, m), |WalkLog(log, ns, m)|, ModuleId(ns, m.address))
  {
    var id := ModuleId(ns, m.address);
    EdgesDeclaredSnoc(log, AddNode(ns, id, map[]));
    var start := log + [AddNode(ns, id, map[])];
    ResourcesDeclared(start, ns, id, m.resources, |m.resources|);
    ChildrenDeclared(ResourcesLog(start, ns, id, m.resources, |m.resources|), ns, m, |m.childModules|);
  }

  /**
   * In log c, the turn of m's j-th child (children walked after base) starts
   * with the child's node and ends with the directed edge to it from m's
   * node, which was declared earlier.
   */
  ghost predicate ChildPlaced(c: seq<Call>, base: seq<Call>, ns: string, m: StateModule, j: nat)
    requires j < |m.childModules|
  {
    |ChildrenLog(base, ns, m, j)| < |ChildrenLog(base, ns, m, j + 1)| <= |c| &&
    c[|ChildrenLog(base, ns, m, j)|] == AddNode(ns, ModuleId(ns, m.childModules[j].address), map[]) &&
    c[|ChildrenLog(base, ns, m, j + 1)| - 1]
      == AddEdge(ModuleId(ns, m.address), ModuleId(ns, m.childModules[j].address), true) &&
    Declared(c, |ChildrenLog(base, ns, m, j + 1)| - 1, ModuleId(ns, m.address))
  }

  /** Child j's turn keeps its place once later children are walked. */
  lemma ChildEdgeDeclared(base: seq<Call>, ns: string, m: StateModule, k: nat, j: nat)
    requires j < k <= |m.childModules|
    requires Declared(base, |base|, ModuleId(ns, m.address))
    ensures ChildPlaced(ChildrenLog(base, ns, m, k), base, ns, m, j)
  {
    var c := m.childModules[j];
    var cj := ChildrenLog(base, ns, m, j);
    var cj1 := ChildrenLog(base, ns, m, j + 1);
    var ck := ChildrenLog(base, ns, m, k);
    var walked := WalkLog(cj, ns, c);
    ChildrenLogExtends(base, ns, m, 0, j);
    ChildrenLogExtends(base, ns, m, j + 1, k);
    WalkLogExtends(cj, ns, c);
    assert cj1 == walked + [AddEdge(ModuleId(ns, m.address), ModuleId(ns, c.address), true)];
    assert ck[..|cj1|] == cj1;
    assert ck[|cj|] == cj1[|cj|] == walked[|cj|];
    assert ck[|cj1| - 1] == cj1[|cj1| - 1];
    PrefixTrans(base, cj, walked);
    PrefixTrans(base, walked, cj1);
    PrefixTrans(base, cj1, ck);
    DeclaredBefore(base, ck, |cj1| - 1, ModuleId(ns, m.address));
  }

  /**
   * Walking children keeps every edge declared. The turn of each child
   * starts with its node and ends with the edge to it from the module's
   * node, declared before.
   */
  lemma {:induction false} ChildrenDeclared(base: seq<Call>, ns: string, m: StateModule, k: nat)
    requires k <= |m.childModules|
    requires EdgesDeclared(base) && Declared(base, |base|, ModuleId(ns, m.address))
    decreases m, 0, k
    ensures EdgesDeclared(ChildrenLog(base, ns, m, k))
    ensures Declared(ChildrenLog(base, ns, m, k), |ChildrenLog(base, ns, m, k)|, ModuleId(ns, m.address))
    ensures forall j :: 0 <= j < k ==> ChildPlaced(ChildrenLog(base, ns, m, k), base, ns, m, j)
  {
    forall j | 0 <= j < k
      ensures ChildPlaced(ChildrenLog(base, ns, m, k), base, ns, m, j)
    {
      ChildEdgeDeclared(base, ns, m, k, j);
    }
    if k > 0 {
      var id := ModuleId(ns, m.address);
      var c := m.childModules[k - 1];
      var before := ChildrenLog(base, ns, m, k - 1);
      ChildrenDeclared(base, ns, m, k - 1);
      var walked := WalkLog(before, ns, c);
      WalkDeclared(before, ns, c);
      WalkLogExtends(before, ns, c);
      PrefixTrans(before, before + [AddNode(ns, ModuleId(ns, c.address), map[])], walked);
      DeclaredExtends(before, walked, id);
      var edge := AddEdge(id, ModuleId(ns, c.address), true);
      EdgesDeclaredSnoc(walked, edge);
      DeclaredExtends(walked, walked + [edge], id);
    }
  }

  /** A module's resource identifiers start with the namespace, as its own identifier does. */
  lemma NamesInNamespace(ns: string, address: string, spec: string)
    ensures ns <= ModuleId(ns, address)
    ensures ns <= ResourceId(ModuleId(ns, address), spec)
  {
  }

  /** Appending a suitable call keeps a log confined from start on. */
  lemma ConfinedSnoc(s: seq<Call>, start: nat, ns: string, x: Call)
    requires start <= |s| && Confined(s, start, ns)
    requires x.AddNode? || x.AddEdge?
    requires x.AddNode? ==> x.parentGraph == ns && ns <= x.name
    ensures Confined(s + [x], start, ns)
  {
  }

  /** Confinement from start up to |a| and from |a| on makes confinement from start on. */
  lemma ConfinedJoin(a: seq<Call>, b: seq<Call>, start: nat, ns: string)
    requires a <= b && start <= |a|
    requires Confined(a, start, ns) && Confined(b, |a|, ns)
    ensures Confined(b, start, ns)
  {
  }

  /** The resources of a module in namespace ns add only nodes of subgraph ns named under ns, and edges. */
  lemma {:induction false} ResourcesConfined(log: seq<Call>, ns: string, address: string, rs: seq<Resource>, k: nat)
    requires k <= |rs|
    ensures Confined(ResourcesLog(log, ns, ModuleId(ns, address), rs, k), |log|, ns)
  {
    var id := ModuleId(ns, address);
    if k > 0 {
      ResourcesConfined(log, ns, address, rs, k - 1);
      ResourcesLogShape(log, ns, id, rs, k - 1);
      var before := ResourcesLog(log, ns, id, rs, k - 1);
      var rid := ResourceId(id, rs[k - 1].spec);
      NamesInNamespace(ns, address, rs[k - 1].spec);
      ConfinedSnoc(before, |log|, ns, AddNode(ns, rid, ResourceAttrs(rs[k - 1])));
      ConfinedSnoc(before + [AddNode(ns, rid, ResourceAttrs(rs[k - 1]))], |log|, ns, AddEdge(id, rid, true));
    }
  }

  /**
   * Everything a walk in namespace ns adds is a node of subgraph ns whose
   * name starts with ns, or an edge.
   */
  lemma {:induction false} WalkConfined(log: seq<Call>, ns: string, m: StateModule)
    decreases m, 1, 0
    ensures Confined(WalkLog(log, ns, m), |log|, ns)
  {
    var id := ModuleId(ns, m.address);
    var start := log + [AddNode(ns, id, map[])];
    NamesInNamespace(ns, m.address, "");
    ConfinedSnoc(log, |log|, ns, AddNode(ns, id, map[]));
    var rlog := ResourcesLog(start, ns, id, m.resources, |m.resources|);
    ResourcesConfined(start, ns, m.address, m.resources, |m.resources|);
    ResourcesLogShape(start, ns, id, m.resources, |m.resources|);
    ConfinedJoin(start, rlog, |log|, ns);
    ChildrenConfined(rlog, ns, m, |m.childModules|);
    ChildrenLogExtends(rlog, ns, m, 0, |m.childModules|);
    ConfinedJoin(rlog, WalkLog(log, ns, m), |log|, ns);
  }

  /** Walking children in namespace ns adds only what WalkConfined allows. */
  lemma {:induction false} ChildrenConfined(base: seq<Call>, ns: string, m: StateModule, k: nat)
    requires k <= |m.childModules|
    decreases m, 0, k
    ensures Confined(ChildrenLog(base, ns, m, k), |base|, ns)
  {
    if k > 0 {
      var c := m.childModules[k - 1];
      var before := ChildrenLog(base, ns, m, k - 1);
      var walked := WalkLog(before, ns, c);
      ChildrenConfined(base, ns, m, k - 1);
      ChildrenLogExtends(base, ns, m, 0, k - 1);
      WalkConfined(before, ns, c);
      WalkLogExtends(before, ns, c);
      PrefixTrans(before, before + [AddNode(ns, ModuleId(ns, c.address), map[])], walked);
      ConfinedJoin(before, walked, |base|, ns);
      ConfinedSnoc(walked, |base|, ns, AddEdge(ModuleId(ns, m.address), ModuleId(ns, c.address), true));
    }
  }

  /**
   * Graph.State keeps every edge directed and between declared nodes, and
   * everything after its subgraph call lies in subgraph "state".
   */
  lemma StateWellFormed(log: seq<Call>, root: StateModule)
    requires EdgesDeclared(log)
    ensures EdgesDeclared(StateLog(log, root))
    ensures Confined(StateLog(log, root), |log| + 1, "state")
  {
    EdgesDeclaredSnoc(log, AddSubGraph("G", "state"));
    WalkDeclared(log + [AddSubGraph("G", "state")], "state", root);
    WalkConfined(log + [AddSubGraph("G", "state")], "state", root);
  }

  /**
   * Graph.Plan keeps every edge directed and between declared nodes; the
   * planned walk lies in subgraph "planned" and the prior walk, after it,
   * in subgraph "prior".
   */
  lemma PlanWellFormed(log: seq<Call>, planned: StateModule, prior: StateModule)
    requires EdgesDeclared(log)
    ensures EdgesDeclared(PlanLog(log, planned, prior))
    ensures var setup := log + [AddSubGraph("G", "planned")] + [AddSubGraph("G", "prior")];
      WalkLog(setup, "planned", planned) <= PlanLog(log, planned, prior) &&
      Confined(WalkLog(setup, "planned", planned), |log| + 2, "planned") &&
      Confined(PlanLog(log, planned, prior), |WalkLog(setup, "planned", planned)|, "prior")
  {
    var setup := log + [AddSubGraph("G", "planned")] + [AddSubGraph("G", "prior")];
    var first := WalkLog(setup, "planned", planned);
    EdgesDeclaredSnoc(log, AddSubGraph("G", "planned"));
    EdgesDeclaredSnoc(log + [AddSubGraph("G", "planned")], AddSubGraph("G", "prior"));
    WalkDeclared(setup, "planned", planned);
    WalkDeclared(first, "prior", prior);
    WalkConfined(setup, "planned", planned);
    WalkConfined(first, "prior", prior);
    WalkLogExtends(first, "prior", prior);
    PrefixTrans(first, first + [AddNode("prior", ModuleId("prior", prior.address), map[])], PlanLog(log, planned, prior));
  }
}
