# dot-terraform-json, modelled in Dafny

dot-terraform-json reads a Terraform plan or state (JSON) and prints a
Graphviz DOT graph of module and resource containment. This project models
its core, `main.go`:

- `Graph.Walk` is the recursive module-tree walker. It names a module
  `"<ns>"` (root) or `"<ns>: <address>"`, adds a node for it, then for each
  resource a box node `"<moduleId>.<spec>"` (green for a data source, blue
  otherwise) and an edge to it, then walks each child and adds an edge to the
  identifier the child's walk returned. It returns the module's identifier.
- `Graph.State` walks the state's root module in subgraph `state`.
  `Graph.Plan` walks the planned root in `planned`, then the prior root in
  `prior`.
- `openPlanOrState` picks a plan when its planned values, prior state and
  configuration are all present. Otherwise it picks a state when its values
  are present. Otherwise it yields nothing.
- `realMain` sets up a strict directed graph `G` and dispatches on that
  choice. It turns "nothing" into the error "couldn't detect file type".

Files:

- `wrappers.dfy`: Option and Result.
- `tfjson.dfy`: the decoded documents. Every pointer field that the code
  tests for nil, or follows to reach a root module, is an `Option`. The
  elements of the resource and child-module lists are plain values. It also defines the module and resource counts
  of a tree.
- `gographviz.dfy`: the graph library seen as a `Recorder` class. The class
  appends every call made on it to its `calls` log. The file also holds
  counting and well-formedness predicates on logs.
- `walker.dfy`: the identifier functions, and the log a walk leaves behind as
  a function of the log before it (`WalkLog`, `ResourcesLog`, `ChildrenLog`,
  `StateLog`, `PlanLog`). It also holds the `Graph` class, whose imperative
  `Walk`, `State` and `Plan` are proved to leave exactly those logs.
- `walker_counts.dfy`: identifier shapes, and node and edge counts.
- `walker_layout.dfy`: where each call lands in the log, the order of the
  calls, and the proof that every edge joins nodes declared before it.
- `converter.dfy`: `OpenPlanOrState`, `RealMain` and their properties.

The code adds N + M − 1 edges for N resources and M modules: one per resource
and one per non-root module. `WalkCounts` proves this count.

## Model

| member | source | states |
|---|---|---|
| Walker.Graph.Walk | main.go:142-178 | returns the module's identifier (namespace alone for the empty address, else "ns: address") and appends exactly `WalkLog`: the module node, then node and edge per resource, then each child's walk followed by the edge to it |
| Walker.Graph.State | main.go:122-127 | appends the `state` subgraph and then the walk of the state's root module in namespace `state` |
| Walker.Graph.Plan | main.go:129-136 | appends the `planned` and `prior` subgraphs, then the walk of the planned root and then the walk of the prior root, each in its own namespace |
| WalkerCounts.ModuleIdShape | main.go:143-148 | a module's identifier equals the namespace exactly when the address is empty; otherwise it is the namespace, ": ", then the address |
| WalkerCounts.ModuleIdInjective | main.go:143-148 | within one namespace, distinct addresses give distinct module identifiers |
| WalkerCounts.ResourceIdShape | main.go:162 | a resource identifier is the module identifier, a dot, then the spec, and it differs from the module identifier |
| WalkerCounts.ResourceIdInjective | main.go:162 | within one module, distinct specs give distinct resource identifiers |
| WalkerCounts.ResourceAttrsShape | main.go:157-168 | a resource node has exactly the attributes label = spec, shape = box, and color green exactly for a data source and blue for any other mode |
| WalkerCounts.ResourcesCounts | main.go:151-172 | the resource loop adds one node and one edge per resource |
| WalkerCounts.WalkCounts | main.go:150-176 | a walk adds (modules + resources) nodes and (modules − 1 + resources) edges over the whole tree |
| WalkerCounts.ChildrenCounts | main.go:173-176 | the child loop adds the nodes and edges of every child's tree plus one edge per child |
| WalkerCounts.StateCounts | main.go:122-124 | Graph.State adds (modules + resources) nodes and (modules − 1 + resources) edges |
| WalkerCounts.PlanCounts | main.go:129-133 | Graph.Plan adds the nodes and edges of the planned tree and of the prior tree |
| WalkerLayout.ResourcesLogShape | main.go:151-172 | resource j adds its node (spec label, box, colour by mode) and then the edge from the module to it, at offsets 2j and 2j + 1, and nothing else |
| WalkerLayout.WalkLogExtends | main.go:150 | a walk only appends, and its first call is the module's own node |
| WalkerLayout.ChildrenLogExtends | main.go:173-176 | walking more children only appends to the log |
| WalkerLayout.WalkEmitsModule | main.go:143-172 | the module node comes first, in subgraph ns, before every resource node; resource j's node and its edge from the module follow at fixed positions |
| WalkerLayout.ChildAt | main.go:173-176 | child j's walk starts with the child's node after all resources, and is followed at once by the edge from the module to the child's returned identifier |
| WalkerLayout.WalkEmitsChildren | main.go:173-177 | children are handled in order: each child's edge lies after its walk, and the next child's walk starts right after that edge |
| WalkerLayout.ResourcesDeclared | main.go:151-172 | the resource loop adds two calls per resource, a node and then the directed edge from the module's node, declared before it, to that node; every edge stays declared and the module's node stays declared |
| WalkerLayout.WalkDeclared | main.go:150-176 | after a walk every edge is directed and joins nodes declared earlier, and the module's identifier is declared |
| WalkerLayout.ChildrenDeclared | main.go:173-176 | each child's turn starts with the child's node and ends with the directed edge to it from the module's node, declared before it; every edge stays declared |
| WalkerLayout.ResourcesConfined | main.go:157-171 | resource calls are nodes in subgraph ns named under ns, or edges |
| WalkerLayout.WalkConfined | main.go:142-177 | everything a walk adds is a node in subgraph ns whose name starts with ns, or an edge |
| WalkerLayout.ChildrenConfined | main.go:173-176 | child walks and child edges stay in namespace ns |
| WalkerLayout.StateWellFormed | main.go:122-124 | Graph.State keeps every edge declared and directed, and puts every node in subgraph `state` |
| WalkerLayout.PlanWellFormed | main.go:129-133 | Graph.Plan keeps every edge declared and directed, puts the planned tree in `planned` and then the prior tree in `prior` |
| Converter.OpenPlanOrState | main.go:43-72 | runs the checks in source order: open error, plan decode, the three plan sections, seek, state decode, state values, else Neither. A success needs the file opened and decoded as a plan; a result other than a plan needs the plan test to have failed and the state to have been rewound and decoded. ClassifiedPlan, ClassifiedState, ClassifiedNeither and ClassifyErrors characterise each outcome and message |
| Converter.ClassifiedPlan | main.go:49-56 | the input is a plan exactly when it opened, decoded as a plan and has all three plan sections; the result is that plan |
| Converter.ClassifiedState | main.go:54-69 | the input is a state exactly when it is not a plan, the rewind and state decoding succeeded and the values section is present; the result is that state |
| Converter.ClassifiedNeither | main.go:54-71 | nothing is detected exactly when everything was read but neither test passed |
| Converter.ClassifyErrors | main.go:44-66 | open, plan-decode, seek and state-decode failures each give their own message in that order; once the plan test passes, the state is not looked at |
| Converter.RealMain | main.go:88-120 | returns the classifier's error, "couldn't detect file type", a panic for a nil root module or prior values, or the printed call log of the set-up graph after Plan or State |
| Converter.Outcomes | main.go:104-115 | a graph is printed exactly for a classified document whose roots are present; a panic happens exactly when one is nil; a classifier error or "couldn't detect file type" otherwise |
| Converter.PrintedState | main.go:109-119 | a printed state graph has (modules + resources) nodes, (modules − 1 + resources) edges, and only declared, directed edges |
| Converter.PrintedPlan | main.go:105-119 | a printed plan graph has the nodes and edges of both trees and only declared, directed edges |
| WalkerLayout.SingleResourceWalk | main.go:142-178 | a root module with one managed resource gives exactly its node, a blue box node and one edge |
| Converter.MinimalPlan | main.go:94-133 | a one-resource plan prints the set-up calls, both subgraphs, and two nodes and one edge in each of `planned` and `prior` |

## Left out

- JSON decoding in `newPlan` and `newState`, and the file open and seek in `openPlanOrState`. Their outcomes are the fields of `Converter.Reads`, so every success or error they can produce is an input.
- Resource-address parsing (`address.NewAddress`, `ResourceSpec.String()`) belongs to a library outside this model. Resources arrive already parsed as (mode, spec). The `panic` on a malformed address therefore has no counterpart: every resource in the model parses.
- The graph library's behaviour: strict-graph deduplication, escaping, and DOT text from `graph.String()`. The `Recorder` logs calls instead, and `Printed` carries the log that the DOT text is rendered from. Counts are counts of `AddNode` and `AddEdge` calls. A strict graph may merge duplicate calls.
- Error results of every graph call: `SetDir`, `SetName`, `SetStrict`, the three `AddAttr` calls (one of them sets the misspelt attribute "compoun", which the library may reject), `AddSubGraph`, `AddNode` and `AddEdge`. The source ignores them, and the model's calls cannot fail, so every call is logged. When the library rejects a call, the printed DOT text need not reflect every logged call.
- `Graph.State` and `Graph.Plan` always return a nil error. The model's methods return nothing.
- `main` and `usage`: argument counting, the usage text, printing to standard error, and exit codes are process I/O.
- A JSON `null` inside a module's `resources` or `child_modules` array would be a nil pointer that `Walk` dereferences. The model's sequences hold values, so it has no such element.
