/** The guard registry: guards stored under the expanded keys of their
    registration patterns, with builder-style registration. */
module GuardRegistry {
  import opened Transitions
  import opened PartialTransitions
  import opened Registry

  /** Guards are identified by values of `G`; what a guard answers for a
      transition is supplied to the state machine, not stored here. */
  class Guards<S(==), G> {
    var guards: Table<S, G>
    /** Every registration so far, in order. */
    ghost var history: seq<Registration<S, G>>

    ghost predicate Valid()
      reads this
    {
      guards == Build(history)
    }

    /** A registry without any guard. */
    constructor Empty()
      ensures Valid() && history == [] && guards == map[]
    {
      guards := map[];
      history := [];
    }

    /** Guards a transition from one state to one other state. */
    method LeavingStateAndEnteringState(previousState: S, nextState: S, guard: G) returns (self: Guards<S, G>)
      requires Valid()
      modifies this
      ensures self == this && Valid()
      ensures history == old(history) + [(PartialTransition({previousState}, {nextState}), guard)]
    {
      AddAllPartialTransitions({previousState}, {nextState}, guard);
      self := this;
    }

    /** Guards every pairing of a state of `previousStates` with a state of `nextStates`. */
    method LeavingStatesAndEnteringStates(previousStates: set<S>, nextStates: set<S>, guard: G) returns (self: Guards<S, G>)
      requires Valid()
      modifies this
      ensures self == this && Valid()
      ensures history == old(history) + [(PartialTransition(previousStates, nextStates), guard)]
    {
      AddAllPartialTransitions(previousStates, nextStates, guard);
      self := this;
    }

    /** Guards leaving one state, whatever state is entered. */
    method LeavingToAnyState(previousState: S, guard: G) returns (self: Guards<S, G>)
      requires Valid()
      modifies this
      ensures self == this && Valid()
      ensures history == old(history) + [(PartialTransition({previousState}, {}), guard)]
    {
      AddAllPartialTransitions({previousState}, {}, guard);
      self := this;
    }

    /** Guards entering one state, whatever state is left. */
    method EnteringFromAnyState(nextState: S, guard: G) returns (self: Guards<S, G>)
      requires Valid()
      modifies this
      ensures self == this && Valid()
      ensures history == old(history) + [(PartialTransition({}, {nextState}), guard)]
    {
      AddAllPartialTransitions({}, {nextState}, guard);
      self := this;
    }

    /** Guards leaving one state for any of `nextStates`. */
    method LeavingToState(previousState: S, nextStates: set<S>, guard: G) returns (self: Guards<S, G>)
      requires Valid()
      modifies this
      ensures self == this && Valid()
      ensures history == old(history) + [(PartialTransition({previousState}, nextStates), guard)]
    {
      AddAllPartialTransitions({previousState}, nextStates, guard);
      self := this;
    }

    /** Guards entering one state from any of `previousStates`. */
    method EnteringFromState(previousStates: set<S>, nextState: S, guard: G) returns (self: Guards<S, G>)
      requires Valid()
      modifies this
      ensures self == this && Valid()
      ensures history == old(history) + [(PartialTransition(previousStates, {nextState}), guard)]
    {
      AddAllPartialTransitions(previousStates, {nextState}, guard);
      self := this;
    }

    /** Guards every transition. */
    method LeavingAndEnteringAnyState(guard: G) returns (self: Guards<S, G>)
      requires Valid()
      modifies this
      ensures self == this && Valid()
      ensures history == old(history) + [(PartialTransition({}, {}), guard)]
    {
      AddAllPartialTransitions({}, {}, guard);
      self := this;
    }

    /** The guards that apply to `transition`: exact key, then (from, any),
        then (any, to), then (any, any); a missing key contributes nothing. */
    method GetGuards(transition: Transition<S>) returns (result: seq<G>)
      ensures result == Gather(guards, transition)
      ensures Valid() ==> result == Expected(history, transition)
      ensures Valid() ==> multiset(result) == multiset(Matching(history, transition))
    {
      result := [];
      var tier := GetGuardFromKey(Transition(Is(transition.previousState), Is(transition.nextState)));
      result := result + tier;
      tier := GetGuardFromKey(Transition(Is(transition.previousState), Any));
      result := result + tier;
      tier := GetGuardFromKey(Transition(Any, Is(transition.nextState)));
      result := result + tier;
      tier := GetGuardFromKey(Transition(Any, Any));
      result := result + tier;
      assert result == Gather(guards, transition);
      if Valid() {
        GatherBuild(history, transition);
        GatherIsMatching(history, transition);
      }
    }

    /** The list stored under `key`, or the empty list when nothing is registered there. */
    method GetGuardFromKey(key: Key<S>) returns (result: seq<G>)
      ensures key in guards ==> result == guards[key]
      ensures key !in guards ==> result == []
    {
      result := if key in guards then guards[key] else [];
    }

    /** Adds `guard` at the end of the list of every key the pattern expands to. */
    method AddAllPartialTransitions(previousStates: set<S>, nextStates: set<S>, guard: G)
      requires Valid()
      modifies this
      ensures guards == Append(old(guards), ExpandedKeys(PartialTransition(previousStates, nextStates)), guard)
      ensures history == old(history) + [(PartialTransition(previousStates, nextStates), guard)]
      ensures Valid()
    {
      var partialPart := PartialTransition(previousStates, nextStates);
      var keys := ExpandToTransitions(partialPart);
      ghost var done: set<Key<S>> := {};
      for i := 0 to |keys|
        invariant done == set j | 0 <= j < i :: keys[j]
        invariant guards == Append(old(guards), done, guard)
        invariant history == old(history)
      {
        AppendStep(old(guards), done, guard, keys[i]);
        guards := guards[keys[i] := Lookup(guards, keys[i]) + [guard]];
        done := done + {keys[i]};
      }
      assert done == ExpandedKeys(partialPart);
      history := history + [(partialPart, guard)];
      assert history[..|history| - 1] == old(history);
    }
  }
}
