/** Registration patterns over sets of states, and their expansion into the
    concrete registry keys under which a guard or an edge is stored. */
module PartialTransitions {
  import opened Transitions

  /** A registration pattern: the states being left and the states being
      entered. An empty set means "any state" on that side. Sets are values,
      so a pattern cannot change when the sets it was built from later do. */
  datatype PartialTransition<S(==)> = PartialTransition(currentStates: set<S>, nextStates: set<S>)

  /** The matching rule: on each side the set is empty or holds the transition's state. */
  predicate Matches<S(==)>(p: PartialTransition<S>, t: Transition<S>) {
    && (p.currentStates == {} || t.previousState in p.currentStates)
    && (p.nextStates == {} || t.nextState in p.nextStates)
  }

  /** The slots one side of a pattern expands to: the wildcard for an empty
      set, otherwise one specific slot per state. */
  ghost function Slots<S>(states: set<S>): set<Slot<S>> {
    if states == {} then {Any} else set s | s in states :: Is(s)
  }

  /** The keys a pattern is stored under: every pairing of a from-slot with a to-slot. */
  ghost function ExpandedKeys<S>(p: PartialTransition<S>): set<Key<S>> {
    set a, b | a in Slots(p.currentStates) && b in Slots(p.nextStates) :: Transition(a, b)
  }

  /** How many keys the expansion produces, case by case. */
  function ExpansionSize<S(==)>(p: PartialTransition<S>): nat {
    if p.currentStates == {} && p.nextStates == {} then 1
    else if p.currentStates == {} then |p.nextStates|
    else if p.nextStates == {} then |p.currentStates|
    else |p.currentStates| * |p.nextStates|
  }

  predicate NoDuplicates<T(==)>(s: seq<T>) {
    forall i, j :: 0 <= i < j < |s| ==> s[i] != s[j]
  }

  /** A key is in the expansion exactly when each of its slots is the
      wildcard for an empty side or a state of a non-empty side. */
  lemma ExpandedKeysMembership<S>(p: PartialTransition<S>, k: Key<S>)
    ensures k in ExpandedKeys(p) <==>
      && (if p.currentStates == {} then k.previousState == Any
          else k.previousState.Is? && k.previousState.state in p.currentStates)
      && (if p.nextStates == {} then k.nextState == Any
          else k.nextState.Is? && k.nextState.state in p.nextStates)
  {
    if k.previousState in Slots(p.currentStates) && k.nextState in Slots(p.nextStates) {
      assert k == Transition(k.previousState, k.nextState);
    }
  }

  /** With both sides non-empty the expansion is the full cross product and
      holds no wildcard slot. */
  lemma CrossProductHasNoWildcard<S>(p: PartialTransition<S>, k: Key<S>)
    requires p.currentStates != {} && p.nextStates != {}
    requires k in ExpandedKeys(p)
    ensures k.previousState != Any && k.nextState != Any
  {
    ExpandedKeysMembership(p, k);
  }

  lemma CrossProductIsComplete<S>(p: PartialTransition<S>, c: S, n: S)
    requires c in p.currentStates && n in p.nextStates
    ensures Transition(Is(c), Is(n)) in ExpandedKeys(p)
  {
    ExpandedKeysMembership(p, Transition(Is(c), Is(n)));
  }

  lemma AppendFresh<T>(s: seq<T>, x: T)
    requires NoDuplicates(s) && x !in s
    ensures NoDuplicates(s + [x])
  {
  }

  lemma MulSucc(a: nat, b: nat)
    ensures (a + 1) * b == a * b + b
  {
  }

  lemma AppendDisjoint<T>(a: seq<T>, b: seq<T>)
    requires NoDuplicates(a) && NoDuplicates(b)
    requires forall x :: x in a ==> x !in b
    ensures NoDuplicates(a + b)
  {
    forall i, j | 0 <= i < j < |a + b| ensures (a + b)[i] != (a + b)[j] {
      if i < |a| && |a| <= j {
        assert (a + b)[i] in a && (a + b)[j] in b;
      }
    }
  }

  /** `k` pairs a state of `from` with a state of `to`, with no wildcard. */
  predicate InPairs<S(==)>(k: Key<S>, from: set<S>, to: set<S>) {
    k.previousState.Is? && k.previousState.state in from && k.nextState.Is? && k.nextState.state in to
  }

  /** Lists the keys of a pattern: one fully wildcard key when both sides are
      empty, one key per state of the non-empty side when one side is empty,
      and the cross product otherwise. Iteration order over a set is
      unspecified, so the result is characterised by membership and length. */
  method ExpandToTransitions<S(==)>(p: PartialTransition<S>) returns (transitions: seq<Key<S>>)
    ensures forall k :: k in transitions <==> k in ExpandedKeys(p)
    ensures NoDuplicates(transitions)
    ensures |transitions| == ExpansionSize(p)
    ensures |transitions| > 0
  {
    if p.currentStates == {} && p.nextStates == {} {
      transitions := [Transition(Any, Any)];
    } else if p.currentStates == {} {
      transitions := PairsFrom(Any, p.nextStates);
    } else if p.nextStates == {} {
      transitions := PairsTo(p.currentStates, Any);
    } else {
      transitions := [];
      var rest := p.currentStates;
      ghost var done: set<S> := {};
      while rest != {}
        invariant rest !! done && rest + done == p.currentStates
        invariant |transitions| == |done| * |p.nextStates|
        invariant NoDuplicates(transitions)
        invariant forall k :: k in transitions <==> InPairs(k, done, p.nextStates)
        decreases rest
      {
        var currentState :| currentState in rest;
        var row := PairsFrom(Is(currentState), p.nextStates);
        AppendDisjoint(transitions, row);
        transitions := transitions + row;
        MulSucc(|done|, |p.nextStates|);
        rest := rest - {currentState};
        done := done + {currentState};
      }
    }
    forall k ensures k in transitions <==> k in ExpandedKeys(p) {
      ExpandedKeysMembership(p, k);
    }
  }

  /** A loop over the to-states: pairs the slot `from` with each of them, once each. */
  method PairsFrom<S(==)>(from: Slot<S>, nextStates: set<S>) returns (row: seq<Key<S>>)
    ensures forall k :: k in row <==> k.previousState == from && k.nextState.Is? && k.nextState.state in nextStates
    ensures NoDuplicates(row)
    ensures |row| == |nextStates|
  {
    row := [];
    var rest := nextStates;
    ghost var done: set<S> := {};
    while rest != {}
      invariant rest !! done && rest + done == nextStates
      invariant |row| == |done|
      invariant NoDuplicates(row)
      invariant forall k :: k in row <==> k.previousState == from && k.nextState.Is? && k.nextState.state in done
      decreases rest
    {
      var nextState :| nextState in rest;
      AppendFresh(row, Transition(from, Is(nextState)));
      row := row + [Transition(from, Is(nextState))];
      rest := rest - {nextState};
      done := done + {nextState};
    }
  }

  /** A loop over the from-states: pairs each of them with the slot `to`, once each. */
  method PairsTo<S(==)>(currentStates: set<S>, to: Slot<S>) returns (column: seq<Key<S>>)
    ensures forall k :: k in column <==> k.nextState == to && k.previousState.Is? && k.previousState.state in currentStates
    ensures NoDuplicates(column)
    ensures |column| == |currentStates|
  {
    column := [];
    var rest := currentStates;
    ghost var done: set<S> := {};
    while rest != {}
      invariant rest !! done && rest + done == currentStates
      invariant |column| == |done|
      invariant NoDuplicates(column)
      invariant forall k :: k in column <==> k.nextState == to && k.previousState.Is? && k.previousState.state in done
      decreases rest
    {
      var currentState :| currentState in rest;
      AppendFresh(column, Transition(Is(currentState), to));
      column := column + [Transition(Is(currentState), to)];
      rest := rest - {currentState};
      done := done + {currentState};
    }
  }
}
