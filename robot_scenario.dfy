/** The robot-mode machine used by the library's own state machine tests:
    an emergency stop that cannot be left, an autonomous stop that cannot go
    straight to autonomous, and edges that record what they saw. */
module RobotScenario {
  import opened Transitions
  import opened PartialTransitions
  import opened Registry
  import opened GuardRegistry
  import opened EdgeRegistry
  import opened Machine

  datatype RobotState = Disabled | EStop | AStop | Autonomous | Teleop | Test

  /** The two guards of the test set-up; both refuse every transition. */
  datatype RobotGuard = CannotLeaveEStop | NoAStopToAutonomous

  /** The four edges of the test set-up, named after the test variable each one sets. */
  datatype RobotEdge = RecordEnabledTo | SetEStopped | SetAStopped | RecordDisabledFrom

  function Refuse(g: RobotGuard, t: Transition<RobotState>): bool {
    false
  }

  function NeverFails(e: RobotEdge, t: Transition<RobotState>): bool {
    false
  }

  function GuardRegistrations(): seq<Registration<RobotState, RobotGuard>> {
    [ (PartialTransition({EStop}, {}), CannotLeaveEStop),
      (PartialTransition({AStop}, {Autonomous}), NoAStopToAutonomous) ]
  }

  function EdgeRegistrations(): seq<Registration<RobotState, RobotEdge>> {
    [ (PartialTransition({Disabled}, {Autonomous, Teleop, Test}), RecordEnabledTo),
      (PartialTransition({}, {EStop}), SetEStopped),
      (PartialTransition({}, {AStop}), SetAStopped),
      (PartialTransition({}, {Disabled}), RecordDisabledFrom) ]
  }

  /** The test fixture: both registries built with the builders, and a machine starting in `Disabled`. */
  method Setup() returns (m: StateMachine<RobotState, RobotGuard, RobotEdge>)
    ensures fresh(m) && fresh(m.stateGuards) && fresh(m.stateEdges)
    ensures m.currentState == Disabled
    ensures m.stateGuards.Valid() && m.stateGuards.history == GuardRegistrations()
    ensures m.stateEdges.Valid() && m.stateEdges.history == EdgeRegistrations()
  {
    var edges := new Edges.Empty();
    var _ := edges.StateToMultipleStates(Disabled, {Autonomous, Teleop, Test}, RecordEnabledTo);
    var _ := edges.AnyToState(EStop, SetEStopped);
    var _ := edges.AnyToState(AStop, SetAStopped);
    var _ := edges.AnyToState(Disabled, RecordDisabledFrom);
    var guards := new Guards.Empty();
    var _ := guards.LeavingToAnyState(EStop, CannotLeaveEStop);
    var _ := guards.LeavingStateAndEnteringState(AStop, Autonomous, NoAStopToAutonomous);
    m := new StateMachine(Disabled, edges, guards);
  }

  /** Tier `i` of `t` in the fixture's edge registry. */
  function EdgeTier(t: Transition<RobotState>, i: nat): seq<RobotEdge>
    requires i < 4
  {
    var h := EdgeRegistrations();
    Pick(h[0], t, i) + Pick(h[1], t, i) + Pick(h[2], t, i) + Pick(h[3], t, i)
  }

  /** The fixture's edges for `t`, tier by tier in registration order. */
  lemma EdgesOf(t: Transition<RobotState>)
    ensures Gather(Build(EdgeRegistrations()), t)
         == EdgeTier(t, 0) + EdgeTier(t, 1) + EdgeTier(t, 2) + EdgeTier(t, 3)
  {
    var h := EdgeRegistrations();
    GatherBuild(h, t);
    FilterOfFour(h, t, 0);
    FilterOfFour(h, t, 1);
    FilterOfFour(h, t, 2);
    FilterOfFour(h, t, 3);
  }

  /** Entering the emergency stop from `Disabled` runs only the edge setting the emergency-stop flag. */
  lemma EdgesDisabledToEStop()
    ensures Gather(Build(EdgeRegistrations()), Transition(Disabled, EStop)) == [SetEStopped]
  {
    EdgesOf(Transition(Disabled, EStop));
  }

  /** Entering the autonomous stop from `Disabled` runs only the edge setting the autonomous-stop flag. */
  lemma EdgesDisabledToAStop()
    ensures Gather(Build(EdgeRegistrations()), Transition(Disabled, AStop)) == [SetAStopped]
  {
    EdgesOf(Transition(Disabled, AStop));
  }

  /** No edge is registered for the move from the autonomous stop to test mode. */
  lemma EdgesAStopToTest()
    ensures Gather(Build(EdgeRegistrations()), Transition(AStop, Test)) == []
  {
    EdgesOf(Transition(AStop, Test));
  }

  /** Entering `Disabled` from autonomous mode runs only the edge recording the state left. */
  lemma EdgesAutonomousToDisabled()
    ensures Gather(Build(EdgeRegistrations()), Transition(Autonomous, Disabled)) == [RecordDisabledFrom]
  {
    EdgesOf(Transition(Autonomous, Disabled));
  }

  /** Entering test mode from `Disabled` runs only the edge recording the state entered. */
  lemma EdgesDisabledToTest()
    ensures Gather(Build(EdgeRegistrations()), Transition(Disabled, Test)) == [RecordEnabledTo]
  {
    EdgesOf(Transition(Disabled, Test));
  }

  /** A move that neither guard's pattern matches is permitted. */
  lemma Unguarded(t: Transition<RobotState>)
    requires t.previousState != t.nextState
    requires t.previousState != EStop && (t.previousState != AStop || t.nextState != Autonomous)
    ensures Permitted(Build(GuardRegistrations()), Refuse, t)
  {
    UnguardedMovePermitted(GuardRegistrations(), Refuse, t);
  }

  /** The guard against going straight from the autonomous stop to autonomous mode. */
  lemma AStopToAutonomousRefused()
    ensures !Permitted(Build(GuardRegistrations()), Refuse, Transition(AStop, Autonomous))
  {
    var h := GuardRegistrations();
    PermittedIffMatchingGuardsHold(h, Refuse, Transition(AStop, Autonomous));
    assert Matches(h[1].0, Transition(AStop, Autonomous));
  }

  /** The fixture's registries, as `Setup` leaves them. */
  ghost predicate Fixture(m: StateMachine<RobotState, RobotGuard, RobotEdge>)
    reads m, m.stateGuards, m.stateEdges
  {
    && m.stateGuards.Valid() && m.stateGuards.history == GuardRegistrations()
    && m.stateEdges.Valid() && m.stateEdges.history == EdgeRegistrations()
  }

  /** A permitted move of the fixture: its edges all run, in order, and the state changes. */
  method PermittedMove(m: StateMachine<RobotState, RobotGuard, RobotEdge>, nextState: RobotState, edges: seq<RobotEdge>)
    returns (result: TryResult<RobotEdge>, ran: seq<(RobotEdge, Transition<RobotState>)>)
    requires Fixture(m)
    requires Permitted(Build(GuardRegistrations()), Refuse, Transition(m.currentState, nextState))
    requires Gather(Build(EdgeRegistrations()), Transition(m.currentState, nextState)) == edges
    modifies m
    ensures Fixture(m) && m.currentState == nextState
    ensures result == Done(true) && ran == Fired(edges, Transition(old(m.currentState), nextState))
  {
    result, ran := m.TryChangeState(nextState, Refuse, NeverFails);
    assert |ran| == |edges|;
    assert edges[..|ran|] == edges;
  }

  /** A move of the fixture that a guard refuses. */
  method RefusedMove(m: StateMachine<RobotState, RobotGuard, RobotEdge>, nextState: RobotState)
    returns (result: TryResult<RobotEdge>)
    requires Fixture(m)
    requires !Permitted(Build(GuardRegistrations()), Refuse, Transition(m.currentState, nextState))
    modifies m
    ensures Fixture(m) && m.currentState == old(m.currentState)
    ensures result == Done(false)
  {
    var ran;
    result, ran := m.TryChangeState(nextState, Refuse, NeverFails);
  }

  /** Entering the emergency stop from `Disabled` succeeds and runs the
      edge that sets the emergency-stop flag; after that, neither autonomous
      nor test mode can be entered and the machine stays in `EStop`. */
  method EStopScenario()
    returns (toEStop: TryResult<RobotEdge>, ranToEStop: seq<(RobotEdge, Transition<RobotState>)>,
             toAutonomous: TryResult<RobotEdge>, toTest: TryResult<RobotEdge>, last: RobotState)
    ensures toEStop == Done(true) && ranToEStop == [(SetEStopped, Transition(Disabled, EStop))]
    ensures toAutonomous == Done(false) && toTest == Done(false)
    ensures last == EStop
  {
    var m := Setup();
    Unguarded(Transition(Disabled, EStop));
    EdgesDisabledToEStop();
    toEStop, ranToEStop := PermittedMove(m, EStop, [SetEStopped]);
    LeavingGuardMakesAbsorbing(GuardRegistrations(), Refuse, 0, EStop, Autonomous);
    toAutonomous := RefusedMove(m, Autonomous);
    LeavingGuardMakesAbsorbing(GuardRegistrations(), Refuse, 0, EStop, Test);
    toTest := RefusedMove(m, Test);
    last := m.GetCurrentState();
  }

  /** From the autonomous stop, autonomous mode is refused and the state is
      kept, while test mode is entered. */
  method AStopScenario()
    returns (toAStop: TryResult<RobotEdge>, ranToAStop: seq<(RobotEdge, Transition<RobotState>)>,
             toAutonomous: TryResult<RobotEdge>, afterRefusal: RobotState,
             toTest: TryResult<RobotEdge>, last: RobotState)
    ensures toAStop == Done(true) && ranToAStop == [(SetAStopped, Transition(Disabled, AStop))]
    ensures toAutonomous == Done(false) && afterRefusal == AStop
    ensures toTest == Done(true) && last == Test
  {
    var m := Setup();
    Unguarded(Transition(Disabled, AStop));
    EdgesDisabledToAStop();
    toAStop, ranToAStop := PermittedMove(m, AStop, [SetAStopped]);
    AStopToAutonomousRefused();
    toAutonomous := RefusedMove(m, Autonomous);
    afterRefusal := m.GetCurrentState();
    Unguarded(Transition(AStop, Test));
    EdgesAStopToTest();
    var ranTest;
    toTest, ranTest := PermittedMove(m, Test, []);
    last := m.GetCurrentState();
  }

  /** After the state is forced to autonomous, moving to `Disabled` runs the
      edge that records the state being left, which sees `Autonomous`. */
  method DisabledFromScenario() returns (result: TryResult<RobotEdge>, ran: seq<(RobotEdge, Transition<RobotState>)>)
    ensures result == Done(true)
    ensures ran == [(RecordDisabledFrom, Transition(Autonomous, Disabled))]
    ensures ran[0].1.previousState == Autonomous
  {
    var m := Setup();
    m.SetStateWithoutGuardsOrEdges(Autonomous);
    Unguarded(Transition(Autonomous, Disabled));
    EdgesAutonomousToDisabled();
    result, ran := PermittedMove(m, Disabled, [RecordDisabledFrom]);
  }

  /** Moving from `Disabled` to test mode runs the edge that records the
      state being entered, which sees `Test`. */
  method EnabledToScenario() returns (result: TryResult<RobotEdge>, ran: seq<(RobotEdge, Transition<RobotState>)>)
    ensures result == Done(true)
    ensures ran == [(RecordEnabledTo, Transition(Disabled, Test))]
    ensures ran[0].1.nextState == Test
  {
    var m := Setup();
    Unguarded(Transition(Disabled, Test));
    EdgesDisabledToTest();
    result, ran := PermittedMove(m, Test, [RecordEnabledTo]);
  }
}
