/**
 * The graph library, seen only through the calls the converter makes on it.
 * A Recorder appends every call to its log; deduplication, escaping and DOT
 * output are the library's business and are not modelled.
 */
module Gographviz {

  /** One call on the graph interface. A nil attribute map is the empty map. */
  datatype Call =
    | SetDir(directed: bool)
    | SetName(name: string)
    | SetStrict(strict: bool)
    | AddAttr(parentGraph: string, field: string, value: string)
    | AddSubGraph(parentGraph: string, name: string)
    | AddNode(parentGraph: string, name: string, attrs: map<string, string>)
    | AddEdge(src: string, dst: string, directed: bool)

  /** The graph under construction, as the append-only log of calls made on it. */
  class Recorder {
    var calls: seq<Call>

    constructor ()
      ensures calls == []
    {
      calls := [];
    }

    method SetDir(directed: bool)
      modifies this
      ensures calls == old(calls) + [Call.SetDir(directed)]
    {
      calls := calls + [Call.SetDir(directed)];
    }

    method SetName(name: string)
      modifies this
      ensures calls == old(calls) + [Call.SetName(name)]
    {
      calls := calls + [Call.SetName(name)];
    }

    method SetStrict(strict: bool)
      modifies this
      ensures calls == old(calls) + [Call.SetStrict(strict)]
    {
      calls := calls + [Call.SetStrict(strict)];
    }

    method AddAttr(parentGraph: string, field: string, value: string)
      modifies this
      ensures calls == old(calls) + [Call.AddAttr(parentGraph, field, value)]
    {
      calls := calls + [Call.AddAttr(parentGraph, field, value)];
    }

    method AddSubGraph(parentGraph: string, name: string)
      modifies this
      ensures calls == old(calls) + [Call.AddSubGraph(parentGraph, name)]
    {
      calls := calls + [Call.AddSubGraph(parentGraph, name)];
    }

    method AddNode(parentGraph: string, name: string, attrs: map<string, string>)
      modifies this
      ensures calls == old(calls) + [Call.AddNode(parentGraph, name, attrs)]
    {
      calls := calls + [Call.AddNode(parentGraph, name, attrs)];
    }

    method AddEdge(src: string, dst: string, directed: bool)
      modifies this
      ensures calls == old(calls) + [Call.AddEdge(src, dst, directed)]
    {
      calls := calls + [Call.AddEdge(src, dst, directed)];
    }
  }

  /** Number of AddNode calls in a log. */
  function NodeCount(log: seq<Call>): nat
  {
    if log == [] then 0 else NodeCount(log[..|log| - 1]) + (if log[|log| - 1].AddNode? then 1 else 0)
  }

  /** Number of AddEdge calls in a log. */
  function EdgeCount(log: seq<Call>): nat
  {
    if log == [] then 0 else EdgeCount(log[..|log| - 1]) + (if log[|log| - 1].AddEdge? then 1 else 0)
  }

  /** Appending one call adds one to the count of its kind. */
  lemma CountsSnoc(log: seq<Call>, c: Call)
    ensures NodeCount(log + [c]) == NodeCount(log) + (if c.AddNode? then 1 else 0)
    ensures EdgeCount(log + [c]) == EdgeCount(log) + (if c.AddEdge? then 1 else 0)
  {
  }

  /** A log without AddNode and AddEdge calls counts no node and no edge, and has no undeclared edge. */
  lemma {:induction false} NoGraphElements(log: seq<Call>)
    requires forall p :: 0 <= p < |log| ==> !log[p].AddNode? && !log[p].AddEdge?
    ensures NodeCount(log) == 0 && EdgeCount(log) == 0
    ensures EdgesDeclared(log)
  {
    if log != [] {
      NoGraphElements(log[..|log| - 1]);
    }
  }

  /** Some AddNode call before position p of the log declares the name id. */
  predicate Declared(log: seq<Call>, p: int, id: string)
  {
    exists q :: 0 <= q < p && q < |log| && log[q].AddNode? && log[q].name == id
  }

  /**
   * Every edge of the log is directed and runs between names that AddNode
   * calls earlier in the log declared.
   */
  predicate EdgesDeclared(log: seq<Call>)
  {
    forall p :: 0 <= p < |log| && log[p].AddEdge? ==>
      log[p].directed && Declared(log, p, log[p].src) && Declared(log, p, log[p].dst)
  }

  /**
   * From position start on, the log holds only AddNode and AddEdge calls,
   * and every node goes into subgraph ns and has a name that starts with ns.
   */
  predicate Confined(log: seq<Call>, start: nat, ns: string)
  {
    forall p :: start <= p < |log| ==>
      (log[p].AddNode? || log[p].AddEdge?) &&
      (log[p].AddNode? ==> log[p].parentGraph == ns && ns <= log[p].name)
  }
}
