/**
 * The decoded Terraform JSON documents, as far as the converter looks at them.
 * Every pointer field that the converter tests for nil, or follows to reach
 * a root module, is an Option. The elements of the resource and child-module
 * lists are plain values, and resource addresses arrive already split into
 * their mode and their spec.
 */
module TfJson {
  import opened Wrappers

  /** The mode of a resource address: a managed resource or a data source. */
  datatype Mode = Managed | Data

  /** A resource of a module, its address parsed into mode and display spec. */
  datatype Resource = Resource(mode: Mode, spec: string)

  /** A module of a state or plan: the root module has the empty address. */
  datatype StateModule = StateModule(address: string, resources: seq<Resource>, childModules: seq<StateModule>)

  /** The values section of a state; its root module may be absent. */
  datatype StateValues = StateValues(rootModule: Option<StateModule>)

  /** A state document; its values section may be absent. */
  datatype State = State(values: Option<StateValues>)

  /** The configuration section of a plan: only its presence matters here. */
  datatype Config = Config

  /** A plan document with the three sections the classifier tests. */
  datatype Plan = Plan(plannedValues: Option<StateValues>, priorState: Option<State>, config: Option<Config>)

  /** Number of modules in the tree rooted at m, m included. */
  function TreeModules(m: StateModule): nat
    decreases m, 1, 0
  {
    1 + ChildrenModules(m, |m.childModules|)
  }

  /** Number of modules in the trees of the first k children of m. */
  function ChildrenModules(m: StateModule, k: nat): nat
    requires k <= |m.childModules|
    decreases m, 0, k
  {
    if k == 0 then 0 else ChildrenModules(m, k - 1) + TreeModules(m.childModules[k - 1])
  }

  /** Number of resources in the tree rooted at m. */
  function TreeResources(m: StateModule): nat
    decreases m, 1, 0
  {
    |m.resources| + ChildrenResources(m, |m.childModules|)
  }

  /** Number of resources in the trees of the first k children of m. */
  function ChildrenResources(m: StateModule, k: nat): nat
    requires k <= |m.childModules|
    decreases m, 0, k
  {
    if k == 0 then 0 else ChildrenResources(m, k - 1) + TreeResources(m.childModules[k - 1])
  }
}
