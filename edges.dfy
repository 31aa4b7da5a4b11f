/** The edge registry: edges stored under the expanded keys of their
    registration patterns, with builder-style registration. The order of a
    lookup's result is the order in which the edges run. */
module EdgeRegistry {
  import opened Transitions
  import opened PartialTransitions
  import opened Registry

  /** Edges are identified by values of `E`; running an edge is modelled by
      the state machine, which records it. */
  class Edges<S(==), E> {
    var edges: Table<S, E>
    /** Every registration so far, in order. */
    ghost var history: seq<Registration<S, E>>

    ghost predicate Valid()
      reads this
    {
      edges == Build(history)
    }

    /** A registry without any edge. */
    constructor Empty()
      ensures Valid() && history == [] && edges == map[]
    {
      edges := map[];
      history := [];
    }

    /** Runs on a transition from one state to one other state. */
    method StateToState(previousState: S, nextState: S, edge: E) returns (self: Edges<S, E>)
      requires Valid()
      modifies this
      ensures self == this && Valid()
      ensures history == old(history) + [(PartialTransition({previousState}, {nextState}), edge)]
    {
      AddAllPartialTransitions({previousState}, {nextState}, edge);
      self := this;
    }

    /** Runs on every pairing of a state of `previousStates` with a state of `nextStates`. */
    method MultipleStatesToMultipleStates(previousStates: set<S>, nextStates: set<S>, edge: E) returns (self: Edges<S, E>)
      requires Valid()
      modifies this
      ensures self == this && Valid()
      ensures history == old(history) + [(PartialTransition(previousStates, nextStates), edge)]
    {
      AddAllPartialTransitions(previousStates, nextStates, edge);
      self := this;
    }

    /** Runs on leaving one state, whatever state is entered. */
    method StateToAny(previousState: S, edge: E) returns (self: Edges<S, E>)
      requires Valid()
      modifies this
      ensures self == this && Valid()
      ensures history == old(history) + [(PartialTransition({previousState}, {}), edge)]
    {
      AddAllPartialTransitions({previousState}, {}, edge);
      self := this;
    }

    /** Runs on entering one state, whatever state is left. */
    method AnyToState(nextState: S, edge: E) returns (self: Edges<S, E>)
      requires Valid()
      modifies this
      ensures self == this && Valid()
      ensures history == old(history) + [(PartialTransition({}, {nextState}), edge)]
    {
      AddAllPartialTransitions({}, {nextState}, edge);
      self := this;
    }

    /** Runs on leaving one state for any of `nextStates`. */
    method StateToMultipleStates(previousState: S, nextStates: set<S>, edge: E) returns (self: Edges<S, E>)
      requires Valid()
      modifies this
      ensures self == this && Valid()
      ensures history == old(history) + [(PartialTransition({previousState}, nextStates), edge)]
    {
      AddAllPartialTransitions({previousState}, nextStates, edge);
      self := this;
    }

    /** Runs on entering one state from any of `previousStates`. */
    method MultipleStatesToState(previousStates: set<S>, nextState: S, edge: E) returns (self: Edges<S, E>)
      requires Valid()
      modifies this
      ensures self == this && Valid()
      ensures history == old(history) + [(PartialTransition(previousStates, {nextState}), edge)]
    {
      AddAllPartialTransitions(previousStates, {nextState}, edge);
      self := this;
    }

    /** Runs on every transition. */
    method AnyToAny(edge: E) returns (self: Edges<S, E>)
      requires Valid()
      modifies this
      ensures self == this && Valid()
      ensures history == old(history) + [(PartialTransition({}, {}), edge)]
    {
      AddAllPartialTransitions({}, {}, edge);
      self := this;
    }

    /** The edges that apply to `transition`: exact key, then (from, any),
        then (any, to), then (any, any); a missing key contributes nothing. */
    method GetEdges(transition: Transition<S>) returns (result: seq<E>)
      ensures result == Gather(edges, transition)
      ensures Valid() ==> result == Expected(history, transition)
      ensures Valid() ==> multiset(result) == multiset(Matching(history, transition))
    {
      result := [];
      var tier := GetEdgeFromKey(Transition(Is(transition.previousState), Is(transition.nextState)));
      result := result + tier;
      tier := GetEdgeFromKey(Transition(Is(transition.previousState), Any));
      result := result + tier;
      tier := GetEdgeFromKey(Transition(Any, Is(transition.nextState)));
      result := result + tier;
      tier := GetEdgeFromKey(Transition(Any, Any));
      result := result + tier;
      assert result == Gather(edges, transition);
      if Valid() {
        GatherBuild(history, transition);
        GatherIsMatching(history, transition);
      }
    }

    /** The list stored under `key`, or the empty list when nothing is registered there. */
    method GetEdgeFromKey(key: Key<S>) returns (result: seq<E>)
      ensures key in edges ==> result == edges[key]
      ensures key !in edges ==> result == []
    {
      result := if key in edges then edges[key] else [];
    }

    /** Adds `edge` at the end of the list of every key the pattern expands to. */
    method AddAllPartialTransitions(previousStates: set<S>, nextStates: set<S>, edge: E)
      requires Valid()
      modifies this
      ensures edges == Append(old(edges), ExpandedKeys(PartialTransition(previousStates, nextStates)), edge)
      ensures history == old(history) + [(PartialTransition(previousStates, nextStates), edge)]
      ensures Valid()
    {
      var partialPart := PartialTransition(previousStates, nextStates);
      var keys := ExpandToTransitions(partialPart);
      ghost var done: set<Key<S>> := {};
      for i := 0 to |keys|
        invariant done == set j | 0 <= j < i :: keys[j]
        invariant edges == Append(old(edges), done, edge)
        invariant history == old(history)
      {
        AppendStep(old(edges), done, edge, keys[i]);
        edges := edges[keys[i] := Lookup(edges, keys[i]) + [edge]];
        done := done + {keys[i]};
      }
      assert done == ExpandedKeys(partialPart);
      history := history + [(partialPart, edge)];
      assert history[..|history| - 1] == old(history);
    }
  }
}
