/** The state machine: one current state, a guard registry deciding whether a
    change is permitted, and an edge registry whose edges run, in order, when
    a change is committed. */
module Machine {
  import opened Transitions
  import opened PartialTransitions
  import opened Registry
  import opened GuardRegistry
  import opened EdgeRegistry

  /** How an attempted change ended: `Done(changed)` when it returned normally,
      `Threw(edge)` when that edge raised and the error reached the caller. */
  datatype TryResult<E> = Done(changed: bool) | Threw(edge: E)

  /** Every guard of `gs` holds for `t`. */
  predicate AllHold<S(==), G>(gs: seq<G>, holds: (G, Transition<S>) -> bool, t: Transition<S>) {
    forall i :: 0 <= i < |gs| ==> holds(gs[i], t)
  }

  /** The rule for a change: it is not a self-transition, and every guard the
      registry gathers for it holds. */
  predicate Permitted<S(==), G>(guards: Table<S, G>, holds: (G, Transition<S>) -> bool, t: Transition<S>) {
    t.IsValid() && AllHold(Gather(guards, t), holds, t)
  }

  /** The record left by running the edges `es`, in order, each with `t`. */
  function Fired<S(==), E>(es: seq<E>, t: Transition<S>): (r: seq<(E, Transition<S>)>)
    ensures |r| == |es|
    ensures forall i :: 0 <= i < |es| ==> r[i] == (es[i], t)
  {
    if es == [] then [] else Fired(es[..|es| - 1], t) + [(es[|es| - 1], t)]
  }

  /** The edges of `es` ran in order on `t` until one raised, or all completed:
      those that ran form a prefix, each recorded once, none of them raised;
      the attempt completes when all ran and otherwise reports the next edge,
      which raised. */
  ghost predicate RanInOrder<S, E>(es: seq<E>, t: Transition<S>, fails: (E, Transition<S>) -> bool,
                                   ran: seq<(E, Transition<S>)>, result: TryResult<E>)
  {
    && |ran| <= |es|
    && ran == Fired(es[..|ran|], t)
    && (forall j :: 0 <= j < |ran| ==> !fails(es[j], t))
    && (if |ran| == |es| then result.Done? && result.changed
        else result.Threw? && result.edge == es[|ran|] && fails(es[|ran|], t))
  }

  class StateMachine<S(==), G, E> {
    const stateEdges: Edges<S, E>
    const stateGuards: Guards<S, G>
    var currentState: S

    /** A machine in `initialState` using the given registries; nothing is
        checked against them. */
    constructor (initialState: S, stateEdges: Edges<S, E>, stateGuards: Guards<S, G>)
      ensures currentState == initialState
      ensures this.stateEdges == stateEdges && this.stateGuards == stateGuards
    {
      currentState := initialState;
      this.stateEdges := stateEdges;
      this.stateGuards := stateGuards;
    }

    /** As the three-argument constructor, with an empty guard registry. */
    constructor WithEdges(initialState: S, stateEdges: Edges<S, E>)
      ensures currentState == initialState && this.stateEdges == stateEdges
      ensures fresh(stateGuards) && stateGuards.Valid() && stateGuards.history == []
    {
      currentState := initialState;
      this.stateEdges := stateEdges;
      stateGuards := new Guards.Empty();
    }

    /** As the three-argument constructor, with an empty edge registry. */
    constructor WithGuards(initialState: S, stateGuards: Guards<S, G>)
      ensures currentState == initialState && this.stateGuards == stateGuards
      ensures fresh(stateEdges) && stateEdges.Valid() && stateEdges.history == []
    {
      currentState := initialState;
      stateEdges := new Edges.Empty();
      this.stateGuards := stateGuards;
    }

    method GetCurrentState() returns (state: S)
      ensures state == currentState
    {
      state := currentState;
    }

    /** Whether the machine may move to `nextState` now: never to the current
        state, otherwise exactly when every gathered guard holds. `holds` is
        what each guard answers for a transition at this moment. */
    method CanChangeState(nextState: S, holds: (G, Transition<S>) -> bool) returns (can: bool)
      ensures can == Permitted(stateGuards.guards, holds, Transition(currentState, nextState))
      ensures nextState == currentState ==> !can
    {
      var transition := Transition(currentState, nextState);
      if !transition.IsValid() {
        return false;
      }
      var guards := stateGuards.GetGuards(transition);
      can := true;
      var i := 0;
      while i < |guards| && can
        invariant 0 <= i <= |guards|
        invariant can == AllHold(guards[..i], holds, transition)
      {
        can := holds(guards[i], transition);
        i := i + 1;
      }
      if !can {
        var j :| 0 <= j < i && !holds(guards[..i][j], transition);
        assert !holds(guards[j], transition);
      } else {
        assert guards[..i] == guards;
      }
    }

    /** Attempts the move to `nextState`. A refused move returns false and
        does nothing else. A permitted one runs the gathered edges in order,
        each with the transition from the old state, and only then commits the
        new state; an edge that raises stops the run, the error reaches the
        caller, and the state stays as it was. `fails` says which edge raises
        on which transition. */
    method TryChangeState(nextState: S, holds: (G, Transition<S>) -> bool, fails: (E, Transition<S>) -> bool)
      returns (result: TryResult<E>, ran: seq<(E, Transition<S>)>)
      modifies this
      ensures !Permitted(stateGuards.guards, holds, Transition(old(currentState), nextState)) ==>
        result.Done? && !result.changed && ran == [] && currentState == old(currentState)
      ensures Permitted(stateGuards.guards, holds, Transition(old(currentState), nextState)) ==>
        && RanInOrder(Gather(stateEdges.edges, Transition(old(currentState), nextState)),
                      Transition(old(currentState), nextState), fails, ran, result)
        && currentState == if result.Done? then nextState else old(currentState)
    {
      var can := CanChangeState(nextState, holds);
      if !can {
        return Done(false), [];
      }
      var transition := Transition(currentState, nextState);
      var edges := stateEdges.GetEdges(transition);
      ran := [];
      for i := 0 to |edges|
        invariant ran == Fired(edges[..i], transition)
        invariant forall j :: 0 <= j < i ==> !fails(edges[j], transition)
      {
        if fails(edges[i], transition) {
          return Threw(edges[i]), ran;
        }
        assert edges[..i + 1][..i] == edges[..i];
        ran := ran + [(edges[i], transition)];
      }
      assert edges[..|edges|] == edges;
      currentState := nextState;
      result := Done(true);
    }

    /** Overwrites the current state, consulting no guard and running no edge. */
    method SetStateWithoutGuardsOrEdges(nextState: S)
      modifies this
      ensures currentState == nextState
    {
      currentState := nextState;
    }
  }

  /** The registrations whose pattern matches `t` are exactly those the
      registry gathers for it. */
  lemma {:induction false} MatchingMembers<S, X>(h: seq<Registration<S, X>>, t: Transition<S>, x: X)
    ensures x in Matching(h, t) <==> exists j :: 0 <= j < |h| && Matches(h[j].0, t) && h[j].1 == x
    decreases |h|
  {
    if h != [] {
      var front := h[..|h| - 1];
      MatchingMembers(front, t, x);
      if x in Matching(front, t) {
        var j :| 0 <= j < |front| && Matches(front[j].0, t) && front[j].1 == x;
        assert h[j] == front[j];
      }
      if exists j :: 0 <= j < |h| && Matches(h[j].0, t) && h[j].1 == x {
        var j :| 0 <= j < |h| && Matches(h[j].0, t) && h[j].1 == x;
        if j < |front| {
          assert front[j] == h[j];
        }
      }
    }
  }

  /** A change is permitted exactly when it is not a self-transition and every
      guard registered with a pattern matching it holds. */
  lemma PermittedIffMatchingGuardsHold<S, G>(h: seq<Registration<S, G>>, holds: (G, Transition<S>) -> bool, t: Transition<S>)
    ensures Permitted(Build(h), holds, t) <==>
      t.IsValid() && forall j :: 0 <= j < |h| && Matches(h[j].0, t) ==> holds(h[j].1, t)
  {
    var gs := Gather(Build(h), t);
    GatherIsMatching(h, t);
    if forall j :: 0 <= j < |h| && Matches(h[j].0, t) ==> holds(h[j].1, t) {
      forall i | 0 <= i < |gs| ensures holds(gs[i], t) {
        assert gs[i] in multiset(Matching(h, t));
        MatchingMembers(h, t, gs[i]);
      }
    }
    if AllHold(gs, holds, t) {
      forall j | 0 <= j < |h| && Matches(h[j].0, t) ensures holds(h[j].1, t) {
        MatchingMembers(h, t, h[j].1);
        assert h[j].1 in multiset(gs);
        var i :| 0 <= i < |gs| && gs[i] == h[j].1;
      }
    }
  }

  /** A state whose leaving guard refuses every transition cannot be left:
      no move out of it is permitted, whatever else is registered. */
  lemma LeavingGuardMakesAbsorbing<S, G>(h: seq<Registration<S, G>>, holds: (G, Transition<S>) -> bool, j: nat, s: S, nextState: S)
    requires j < |h| && h[j].0 == PartialTransition({s}, {})
    requires forall t :: !holds(h[j].1, t)
    ensures !Permitted(Build(h), holds, Transition(s, nextState))
  {
    PermittedIffMatchingGuardsHold(h, holds, Transition(s, nextState));
  }

  /** A move that no registered pattern matches is permitted unless it is a self-transition. */
  lemma UnguardedMovePermitted<S, G>(h: seq<Registration<S, G>>, holds: (G, Transition<S>) -> bool, t: Transition<S>)
    requires forall j :: 0 <= j < |h| ==> !Matches(h[j].0, t)
    ensures Permitted(Build(h), holds, t) <==> t.previousState != t.nextState
  {
    PermittedIffMatchingGuardsHold(h, holds, t);
  }
}
