/** Concrete transitions between two states, and the wildcard slot that
    registry keys use where the source stores `null`. */
module Transitions {

  /** A point between two states: the state being left and the state being entered.
      A record, so two transitions are equal exactly when both components are. */
  datatype Transition<S(==)> = Transition(previousState: S, nextState: S)
  {
    /** A transition is valid unless it goes from a state to itself. */
    predicate IsValid() {
      previousState != nextState
    }
  }

  /** One side of a registry key: a specific state, or the wildcard "any state". */
  datatype Slot<S(==)> = Any | Is(state: S)

  /** Registries key their lists by transitions between slots. */
  type Key<S(==)> = Transition<Slot<S>>

  function Swap<S(==)>(t: Transition<S>): (r: Transition<S>)
    ensures r.previousState == t.nextState && r.nextState == t.previousState
  {
    Transition(t.nextState, t.previousState)
  }

  /** A transition from a state to itself is never valid. */
  lemma SelfTransitionInvalid<S>(s: S)
    ensures !Transition(s, s).IsValid()
  {
  }

  /** Validity is exactly "the two components differ". */
  lemma IsValidIffDistinct<S>(t: Transition<S>)
    ensures t.IsValid() <==> t.previousState != t.nextState
  {
  }

  /** Swapping the two components does not change validity. */
  lemma IsValidSymmetric<S>(t: Transition<S>)
    ensures Swap(t).IsValid() == t.IsValid()
  {
  }

  /** Transitions compare by value on both components, so a key rebuilt at
      lookup time is the same key that was stored at registration. */
  lemma EqualByValue<S>(a: Transition<S>, b: Transition<S>)
    ensures a == b <==> (a.previousState == b.previousState && a.nextState == b.nextState)
  {
  }
}
