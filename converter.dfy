/**
 * The converter's entry: openPlanOrState, which decides whether the input is
 * a plan or a state, and realMain, which sets the graph up and walks what was
 * found. File access and JSON decoding are not modelled: their outcomes are
 * given as a Reads value.
 */
module Converter {
  import opened Wrappers
  import opened TfJson
  import opened Gographviz
  import opened Walker
  import WalkerCounts
  import WalkerLayout

  /** What the file system and the strict JSON decoder yield, in the order openPlanOrState asks them. */
  datatype Reads = Reads(
    openError: Option<string>,
    planDecoded: Result<Plan, string>,
    seekError: Option<string>,
    stateDecoded: Result<State, string>)

  /** What openPlanOrState hands to realMain: a plan, a state, or the nil interface. */
  datatype Document = PlanDoc(plan: Plan) | StateDoc(state: State) | Neither

  /** How realMain ends: DOT text of the recorded calls printed, an error returned, or a nil-pointer panic. */
  datatype Outcome = Printed(calls: seq<Call>) | Failed(message: string) | Crashed

  /** A decoded plan is taken as a plan only when all three plan sections are present. */
  predicate HasPlanSections(p: Plan)
  {
    p.plannedValues.Some? && p.priorState.Some? && p.config.Some?
  }

  /**
   * Opens the file and decodes it as a plan; keeps the plan when its three
   * sections are present, otherwise rewinds and decodes it as a state, kept
   * when its values section is present; otherwise yields Neither.
   */
  function OpenPlanOrState(io: Reads): (r: Result<Document, string>)
    ensures r.Success? ==> PlanRead(io)
    ensures r.Success? && !r.value.PlanDoc? ==> StateRead(io) && !HasPlanSections(io.planDecoded.value)
  {
    if io.openError.Some? then Failure("could not file file: " + io.openError.value)
    else if io.planDecoded.Failure? then Failure("error making plan: " + io.planDecoded.error)
    else if HasPlanSections(io.planDecoded.value) then Success(PlanDoc(io.planDecoded.value))
    else if io.seekError.Some? then Failure(io.seekError.value)
    else if io.stateDecoded.Failure? then Failure("error making state: " + io.stateDecoded.error)
    else if io.stateDecoded.value.values.Some? then Success(StateDoc(io.stateDecoded.value))
    else Success(Neither)
  }

  /** The file opened and decoded as a plan. */
  predicate PlanRead(io: Reads)
  {
    io.openError.None? && io.planDecoded.Success?
  }

  /** The file opened, decoded as a plan, was rewound and decoded as a state. */
  predicate StateRead(io: Reads)
  {
    PlanRead(io) && io.seekError.None? && io.stateDecoded.Success?
  }

  /** The input is a plan exactly when the plan decoded and has its three sections; it is then that plan. */
  lemma ClassifiedPlan(io: Reads)
    ensures OpenPlanOrState(io).Success? && OpenPlanOrState(io).value.PlanDoc?
        <==> PlanRead(io) && HasPlanSections(io.planDecoded.value)
    ensures OpenPlanOrState(io).Success? && OpenPlanOrState(io).value.PlanDoc?
        ==> OpenPlanOrState(io).value.plan == io.planDecoded.value
  {
  }

  /**
   * The input is a state exactly when it is not a plan, everything read and
   * the decoded state has its values section; it is then that state.
   */
  lemma ClassifiedState(io: Reads)
    ensures OpenPlanOrState(io).Success? && OpenPlanOrState(io).value.StateDoc?
        <==> StateRead(io) && !HasPlanSections(io.planDecoded.value) && io.stateDecoded.value.values.Some?
    ensures OpenPlanOrState(io).Success? && OpenPlanOrState(io).value.StateDoc?
        ==> OpenPlanOrState(io).value.state == io.stateDecoded.value
  {
  }

  /** Nothing is detected exactly when everything read but neither the plan nor the state test passed. */
  lemma ClassifiedNeither(io: Reads)
    ensures OpenPlanOrState(io) == Success(Neither)
        <==> StateRead(io) && !HasPlanSections(io.planDecoded.value) && io.stateDecoded.value.values.None?
  {
  }

  /**
   * Each failing read is reported with its own message, in the order the
   * reads happen; the state is not read at all when the plan test passes.
   */
  lemma ClassifyErrors(io: Reads)
    ensures io.openError.Some? ==> OpenPlanOrState(io) == Failure("could not file file: " + io.openError.value)
    ensures io.openError.None? && io.planDecoded.Failure? ==>
      OpenPlanOrState(io) == Failure("error making plan: " + io.planDecoded.error)
    ensures PlanRead(io) && HasPlanSections(io.planDecoded.value) ==>
      forall seek, state :: OpenPlanOrState(io.(seekError := seek, stateDecoded := state)) == OpenPlanOrState(io)
    ensures PlanRead(io) && !HasPlanSections(io.planDecoded.value) && io.seekError.Some? ==>
      OpenPlanOrState(io) == Failure(io.seekError.value)
    ensures (PlanRead(io) && !HasPlanSections(io.planDecoded.value) && io.seekError.None? &&
             io.stateDecoded.Failure?) ==>
      OpenPlanOrState(io) == Failure("error making state: " + io.stateDecoded.error)
  {
  }

  /** The calls realMain makes on a new graph before it walks anything. */
  function SetupCalls(): seq<Call>
  {
    [SetDir(true), SetName("G"), SetStrict(true),
     AddAttr("G", "rankdir", "LR"), AddAttr("G", "newrank", "true"), AddAttr("G", "compoun", "true")]
  }

  /** The outcome realMain produces from the given reads. */
  function RealMainOutcome(io: Reads): Outcome
  {
    match OpenPlanOrState(io)
    case Failure(e) => Failed(e)
    case Success(PlanDoc(p)) =>
      if PlanWalkable(p)
      then Printed(PlanLog(SetupCalls(), p.plannedValues.value.rootModule.value,
                           p.priorState.value.values.value.rootModule.value))
      else Crashed
    case Success(StateDoc(s)) =>
      if StateWalkable(s) then Printed(StateLog(SetupCalls(), s.values.value.rootModule.value)) else Crashed
    case Success(Neither) => Failed("couldn't detect file type")
  }

  /**
   * Classifies the input, sets up a strict directed graph "G", and walks the
   * plan or the state into it; the printed DOT text is that of the calls.
   */
  method RealMain(io: Reads) returns (out: Outcome)
    ensures out == RealMainOutcome(io)
  {
    var i := OpenPlanOrState(io);
    if i.Failure? {
      return Failed(i.error);
    }
    var graph := new Recorder();
    graph.SetDir(true);
    graph.SetName("G");
    graph.SetStrict(true);
    graph.AddAttr("G", "rankdir", "LR");
    graph.AddAttr("G", "newrank", "true");
    graph.AddAttr("G", "compoun", "true");
    assert graph.calls == SetupCalls();
    var gv := new Graph(graph);
    match i.value {
      case PlanDoc(p) =>
        if !PlanWalkable(p) {
          return Crashed;
        }
        gv.Plan(p);
      case StateDoc(s) =>
        if !StateWalkable(s) {
          return Crashed;
        }
        gv.State(s);
      case Neither =>
        return Failed("couldn't detect file type");
    }
    return Printed(graph.calls);
  }

  /**
   * realMain prints a graph exactly when the input is a plan or a state whose
   * root modules are all present; it panics when one of them is nil; it
   * returns the classifier's error, or "couldn't detect file type" when the
   * input is neither a plan nor a state.
   */
  lemma Outcomes(io: Reads)
    ensures RealMainOutcome(io).Printed? <==>
      OpenPlanOrState(io).Success? &&
      ((OpenPlanOrState(io).value.PlanDoc? && PlanWalkable(OpenPlanOrState(io).value.plan)) ||
       (OpenPlanOrState(io).value.StateDoc? && StateWalkable(OpenPlanOrState(io).value.state)))
    ensures RealMainOutcome(io).Crashed? <==>
      OpenPlanOrState(io).Success? &&
      ((OpenPlanOrState(io).value.PlanDoc? && !PlanWalkable(OpenPlanOrState(io).value.plan)) ||
       (OpenPlanOrState(io).value.StateDoc? && !StateWalkable(OpenPlanOrState(io).value.state)))
    ensures OpenPlanOrState(io).Failure? ==> RealMainOutcome(io) == Failed(OpenPlanOrState(io).error)
    ensures OpenPlanOrState(io) == Success(Neither) ==> RealMainOutcome(io) == Failed("couldn't detect file type")
  {
  }

  /**
   * The DOT text printed for a state has one node per module and per
   * resource, one edge per resource and per non-root module, and every edge
   * runs between nodes declared before it.
   */
  lemma PrintedState(io: Reads)
    requires OpenPlanOrState(io).Success? && OpenPlanOrState(io).value.StateDoc?
    requires RealMainOutcome(io).Printed?
    ensures var root := io.stateDecoded.value.values.value.rootModule.value;
      NodeCount(RealMainOutcome(io).calls) == TreeModules(root) + TreeResources(root) &&
      EdgeCount(RealMainOutcome(io).calls) == (TreeModules(root) - 1) + TreeResources(root)
    ensures EdgesDeclared(RealMainOutcome(io).calls)
  {
    var root := io.stateDecoded.value.values.value.rootModule.value;
    ClassifiedState(io);
    NoGraphElements(SetupCalls());
    WalkerCounts.StateCounts(SetupCalls(), root);
    WalkerLayout.StateWellFormed(SetupCalls(), root);
  }

  /**
   * The DOT text printed for a plan has the nodes and edges of the planned
   * tree and of the prior tree, and every edge runs between declared nodes.
   */
  lemma PrintedPlan(io: Reads)
    requires OpenPlanOrState(io).Success? && OpenPlanOrState(io).value.PlanDoc?
    requires RealMainOutcome(io).Printed?
    ensures var p := io.planDecoded.value;
      var planned := p.plannedValues.value.rootModule.value;
      var prior := p.priorState.value.values.value.rootModule.value;
      NodeCount(RealMainOutcome(io).calls)
        == TreeModules(planned) + TreeResources(planned) + TreeModules(prior) + TreeResources(prior) &&
      EdgeCount(RealMainOutcome(io).calls)
        == (TreeModules(planned) - 1) + TreeResources(planned) + (TreeModules(prior) - 1) + TreeResources(prior)
    ensures EdgesDeclared(RealMainOutcome(io).calls)
  {
    var p := io.planDecoded.value;
    var planned := p.plannedValues.value.rootModule.value;
    var prior := p.priorState.value.values.value.rootModule.value;
    ClassifiedPlan(io);
    NoGraphElements(SetupCalls());
    WalkerCounts.PlanCounts(SetupCalls(), planned, prior);
    WalkerLayout.PlanWellFormed(SetupCalls(), planned, prior);
  }

  /**
   * A minimal plan, one root module with one managed resource in both the
   * planned and the prior values, gives two nodes and one edge in each of
   * the subgraphs "planned" and "prior".
   */
  lemma MinimalPlan(cfg: Config)
    ensures var root := StateModule("", [Resource(Managed, "aws_instance.web")], []);
      var plan := Plan(Some(StateValues(Some(root))), Some(State(Some(StateValues(Some(root))))), Some(cfg));
      var box := map["label" := "aws_instance.web", "shape" := "box", "color" := "blue"];
      RealMainOutcome(Reads(None, Success(plan), None, Failure("unread"))) == Printed(SetupCalls()
        + [AddSubGraph("G", "planned")] + [AddSubGraph("G", "prior")]
        + [AddNode("planned", "planned", map[]),
           AddNode("planned", "planned.aws_instance.web", box),
           AddEdge("planned", "planned.aws_instance.web", true)]
        + [AddNode("prior", "prior", map[]),
           AddNode("prior", "prior.aws_instance.web", box),
           AddEdge("prior", "prior.aws_instance.web", true)])
  {
    var root := StateModule("", [Resource(Managed, "aws_instance.web")], []);
    var plan := Plan(Some(StateValues(Some(root))), Some(State(Some(StateValues(Some(root))))), Some(cfg));
    var io := Reads(None, Success(plan), None, Failure("unread"));
    assert OpenPlanOrState(io) == Success(PlanDoc(plan));
    assert RealMainOutcome(io) == Printed(PlanLog(SetupCalls(), root, root));
    var setup := SetupCalls() + [AddSubGraph("G", "planned")] + [AddSubGraph("G", "prior")];
    assert "planned" + "." + "aws_instance.web" == "planned.aws_instance.web";
    assert "prior" + "." + "aws_instance.web" == "prior.aws_instance.web";
    WalkerLayout.SingleResourceWalk(setup, "planned", "aws_instance.web");
    WalkerLayout.SingleResourceWalk(WalkLog(setup, "planned", root), "prior", "aws_instance.web");
  }
}
