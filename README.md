# badger-utils state machine, in Dafny

This project models the generic finite-state transition engine of badger-utils, a
robotics utility library. Its parts are:

- **Transitions.** A `Transition` goes from a previous state to a next state. It is
  valid unless both states are the same.
- **Registration patterns.** A `PartialTransition` has a from-set and a to-set, and an
  empty set means "any state". `ExpandToTransitions` expands a pattern into the
  concrete registry keys. A key side is either a specific state or the wildcard slot
  `Any`; the Java code uses `null` for the wildcard.
- **Guard and edge registries.** `Guards` and `Edges` each map a key to a list. Seven
  builder methods register a guard or an edge: each appends it to the list of every
  key its pattern expands to, and returns the same registry. A lookup concatenates
  four tiers in a fixed order: the exact key, then (from, any), then (any, to), then
  (any, any).
- **The state machine.** `StateMachine` holds one mutable current state.
  - `CanChangeState` refuses a self-transition and otherwise requires every gathered
    guard to hold.
  - `TryChangeState` runs the gathered edges in order, each with the transition from
    the old state, and only then commits the new state.
  - `SetStateWithoutGuardsOrEdges` overwrites the state and does nothing else.

States are any type with equality. Guards and edges are identifiers:

- What a guard answers for a transition is a parameter `holds`.
- Whether an edge raises is a parameter `fails`.
- The edges that ran are returned as a trace `ran` of `(edge, transition)` pairs.

Each registry keeps a ghost `history` of its registrations. Its invariant `Valid()`
says the map equals `Build(history)`, the map that replaying the history produces.

The lookups are tied to two independent reference definitions:

- `Expected(history, t)`: each tier's registrations in registration order.
- `Matching(history, t)`: every registration whose pattern matches `t`.

`RobotScenario` replays the library's robot-mode test fixture, with its emergency
stop, autonomous stop, and recording edges, through the model.

Files:

- `transition.dfy` (module `Transitions`)
- `partial_transition.dfy` (module `PartialTransitions`)
- `registry.dfy` (module `Registry`): the map-of-lists shared by both registries, and
  its reference definitions
- `guards.dfy` (module `GuardRegistry`)
- `edges.dfy` (module `EdgeRegistry`)
- `machine.dfy` (module `Machine`)
- `robot_scenario.dfy` (module `RobotScenario`)

## Model

| member | source | states |
|---|---|---|
| Transitions.SelfTransitionInvalid | lib/src/main/java/badgerutils/subsystem/Transition.java:17-19 | a transition from a state to itself is never valid |
| Transitions.IsValidIffDistinct | lib/src/main/java/badgerutils/subsystem/Transition.java:17-19 | a transition is valid exactly when its two states differ |
| Transitions.IsValidSymmetric | lib/src/main/java/badgerutils/subsystem/Transition.java:17-19 | swapping the two states does not change validity |
| Transitions.EqualByValue | lib/src/main/java/badgerutils/subsystem/Transition.java:12 | two transitions (and so two registry keys) are equal exactly when both components are, so a key rebuilt at lookup time finds the list stored at registration |
| PartialTransitions.ExpandedKeysMembership | lib/src/main/java/badgerutils/subsystem/PartialTransition.java:16-39 | a key is in a pattern's expansion exactly when each side is the wildcard for an empty set, or a state of a non-empty set |
| PartialTransitions.CrossProductHasNoWildcard | lib/src/main/java/badgerutils/subsystem/PartialTransition.java:31-36 | with both sets non-empty, no expanded key holds a wildcard slot |
| PartialTransitions.CrossProductIsComplete | lib/src/main/java/badgerutils/subsystem/PartialTransition.java:31-36 | with both sets non-empty, every pairing of a from-state with a to-state is an expanded key |
| PartialTransitions.ExpandToTransitions | lib/src/main/java/badgerutils/subsystem/PartialTransition.java:16-39 | the list holds exactly the expanded keys, with no duplicates. It is never empty. Its length is 1 when both sets are empty, the size of the non-empty set when one is empty, and the product of the sizes otherwise |
| PartialTransitions.PairsFrom | lib/src/main/java/badgerutils/subsystem/PartialTransition.java:22-25 | the inner loop: one key (from, n) for each state n of the set, each once |
| PartialTransitions.PairsTo | lib/src/main/java/badgerutils/subsystem/PartialTransition.java:27-30 | one key (c, any) for each state c of the set, each once |
| Registry.AppendLookup | lib/src/main/java/badgerutils/statemachine/Guards.java:137-141 | after a registration, each expanded key's list ends with the new entry, and every other key's list is unchanged |
| Registry.AppendStep | lib/src/main/java/badgerutils/statemachine/Guards.java:139-141 | one pass of the registration loop adds the entry to one more key, and to nothing else |
| Registry.TierKeyInExpansion | lib/src/main/java/badgerutils/statemachine/Guards.java:124-131 | the key a lookup consults in tier i is one of a pattern's expanded keys exactly when the pattern matches the transition in that tier |
| Registry.MatchesExactlyOneTier | lib/src/main/java/badgerutils/statemachine/Guards.java:124-131 | a pattern that matches a transition does so in exactly one of the four tiers; a pattern that does not match is in none |
| Registry.RegisterExtendsTier | lib/src/main/java/badgerutils/statemachine/Guards.java:124-141 | a registration extends a tier's list for a transition by the new entry exactly when the pattern matches in that tier, and keeps the order already there |
| Registry.RegisterCount | lib/src/main/java/badgerutils/statemachine/Guards.java:124-141 | a registration adds its entry to the gathered list of a transition once if its pattern matches the transition, and adds nothing otherwise |
| Registry.RegisteredOnceOccursOnce | lib/src/main/java/badgerutils/statemachine/Edges.java:124-141 | an entry not already gathered for a transition occurs in its gathered list exactly once after it is registered with a matching pattern, and not at all otherwise |
| Registry.TierLookup | lib/src/main/java/badgerutils/statemachine/Edges.java:133-141 | in a registry built from a history, each tier's list holds that tier's registrations in registration order |
| Registry.GatherBuild | lib/src/main/java/badgerutils/statemachine/Edges.java:124-131 | the four-tier lookup equals the reference: tier order first, then registration order within a tier |
| Registry.GatherIsMatching | lib/src/main/java/badgerutils/statemachine/Guards.java:124-141 | the lookup returns exactly the registrations whose pattern matches, each as often as it was registered |
| Registry.MatchingRegistrationFound | lib/src/main/java/badgerutils/statemachine/Guards.java:124-141 | a registration whose pattern matches a transition is found by that transition's lookup |
| Registry.NoMatchGathersNothing | lib/src/main/java/badgerutils/statemachine/Guards.java:124-135 | with no matching registration, the lookup is empty; a missing key contributes nothing |
| Registry.EmptyGathersNothing | lib/src/main/java/badgerutils/statemachine/Guards.java:35-37 | an empty registry gathers nothing for any transition |
| Registry.ExactBeforeWildcard | lib/src/main/java/badgerutils/statemachine/Edges.java:124-131 | an exact registration is gathered before a (from, any) one for the same transition, even when the wildcard one was registered first |
| GuardRegistry.Guards.Empty | lib/src/main/java/badgerutils/statemachine/Guards.java:35-37 | a new registry with an empty map and no registrations |
| GuardRegistry.Guards.LeavingStateAndEnteringState | lib/src/main/java/badgerutils/statemachine/Guards.java:46-49 | registers the pattern ({a}, {b}) and returns the same registry |
| GuardRegistry.Guards.LeavingStatesAndEnteringStates | lib/src/main/java/badgerutils/statemachine/Guards.java:58-61 | registers the pattern (from-set, to-set) and returns the same registry |
| GuardRegistry.Guards.LeavingToAnyState | lib/src/main/java/badgerutils/statemachine/Guards.java:69-72 | registers the pattern ({s}, any) and returns the same registry |
| GuardRegistry.Guards.EnteringFromAnyState | lib/src/main/java/badgerutils/statemachine/Guards.java:80-83 | registers the pattern (any, {s}) and returns the same registry |
| GuardRegistry.Guards.LeavingToState | lib/src/main/java/badgerutils/statemachine/Guards.java:92-95 | registers the pattern ({s}, to-set) and returns the same registry |
| GuardRegistry.Guards.EnteringFromState | lib/src/main/java/badgerutils/statemachine/Guards.java:104-107 | registers the pattern (from-set, {s}) and returns the same registry |
| GuardRegistry.Guards.LeavingAndEnteringAnyState | lib/src/main/java/badgerutils/statemachine/Guards.java:114-117 | registers the pattern (any, any) and returns the same registry |
| GuardRegistry.Guards.GetGuards | lib/src/main/java/badgerutils/statemachine/Guards.java:124-131 | the lists at (f, t), (f, any), (any, t) and (any, any), concatenated in that order, changing nothing. For a valid registry this is the tier-ordered reference list, and as a multiset it is exactly the matching registrations |
| GuardRegistry.Guards.GetGuardFromKey | lib/src/main/java/badgerutils/statemachine/Guards.java:133-135 | the list stored under the key, or the empty list when the key is absent |
| GuardRegistry.Guards.AddAllPartialTransitions | lib/src/main/java/badgerutils/statemachine/Guards.java:137-141 | appends the guard to the list of every expanded key and to no other key; the registry stays valid with the registration recorded |
| EdgeRegistry.Edges.Empty | lib/src/main/java/badgerutils/statemachine/Edges.java:35-37 | a new registry with an empty map and no registrations |
| EdgeRegistry.Edges.StateToState | lib/src/main/java/badgerutils/statemachine/Edges.java:46-49 | registers the pattern ({a}, {b}) and returns the same registry |
| EdgeRegistry.Edges.MultipleStatesToMultipleStates | lib/src/main/java/badgerutils/statemachine/Edges.java:58-61 | registers the pattern (from-set, to-set) and returns the same registry |
| EdgeRegistry.Edges.StateToAny | lib/src/main/java/badgerutils/statemachine/Edges.java:69-72 | registers the pattern ({s}, any) and returns the same registry |
| EdgeRegistry.Edges.AnyToState | lib/src/main/java/badgerutils/statemachine/Edges.java:80-83 | registers the pattern (any, {s}) and returns the same registry |
| EdgeRegistry.Edges.StateToMultipleStates | lib/src/main/java/badgerutils/statemachine/Edges.java:92-95 | registers the pattern ({s}, to-set) and returns the same registry |
| EdgeRegistry.Edges.MultipleStatesToState | lib/src/main/java/badgerutils/statemachine/Edges.java:104-107 | registers the pattern (from-set, {s}) and returns the same registry |
| EdgeRegistry.Edges.AnyToAny | lib/src/main/java/badgerutils/statemachine/Edges.java:114-117 | registers the pattern (any, any) and returns the same registry |
| EdgeRegistry.Edges.GetEdges | lib/src/main/java/badgerutils/statemachine/Edges.java:124-131 | the four tiers concatenated in order, changing nothing. For a valid registry this is the tier-ordered reference list (the order in which edges run), and as a multiset it is exactly the matching registrations |
| EdgeRegistry.Edges.GetEdgeFromKey | lib/src/main/java/badgerutils/statemachine/Edges.java:133-135 | the list stored under the key, or the empty list when the key is absent |
| EdgeRegistry.Edges.AddAllPartialTransitions | lib/src/main/java/badgerutils/statemachine/Edges.java:137-141 | appends the edge to the list of every expanded key and to no other key; the registry stays valid with the registration recorded |
| Machine.Fired | lib/src/main/java/badgerutils/statemachine/StateMachine.java:80-82 | the trace of running a list of edges: one entry per edge, in order, each carrying the same transition |
| Machine.StateMachine.constructor | lib/src/main/java/badgerutils/statemachine/StateMachine.java:34-38 | the current state is the initial state, and the machine uses the given registries |
| Machine.StateMachine.WithEdges | lib/src/main/java/badgerutils/statemachine/StateMachine.java:43-45 | as the constructor, with a fresh empty guard registry |
| Machine.StateMachine.WithGuards | lib/src/main/java/badgerutils/statemachine/StateMachine.java:50-52 | as the constructor, with a fresh empty edge registry |
| Machine.StateMachine.GetCurrentState | lib/src/main/java/badgerutils/statemachine/StateMachine.java:23-24 | returns the current state |
| Machine.StateMachine.CanChangeState | lib/src/main/java/badgerutils/statemachine/StateMachine.java:60-66 | false for a self-transition whatever is registered; otherwise true exactly when every gathered guard holds, which is vacuously true when none is gathered; changes nothing |
| Machine.StateMachine.TryChangeState | lib/src/main/java/badgerutils/statemachine/StateMachine.java:74-86 | a refused move returns false, runs no edge and keeps the state. A permitted move runs the gathered edges in order, each once with the old-to-new transition. If none raises, it commits the new state and returns true. If one raises, the run stops there, the error is reported and the state is kept |
| Machine.StateMachine.SetStateWithoutGuardsOrEdges | lib/src/main/java/badgerutils/statemachine/StateMachine.java:93-95 | sets the state unconditionally, including to itself or to a guarded target, and runs no edge |
| Machine.MatchingMembers | lib/src/main/java/badgerutils/statemachine/Guards.java:124-141 | an entry is among the matching registrations exactly when some registration with a matching pattern carries it |
| Machine.PermittedIffMatchingGuardsHold | lib/src/main/java/badgerutils/statemachine/StateMachine.java:60-66 | a move is permitted exactly when it is not a self-transition and every guard registered with a pattern matching it holds |
| Machine.LeavingGuardMakesAbsorbing | lib/src/main/java/badgerutils/statemachine/StateMachine.java:60-66 | a state whose (state, any) guard refuses every transition cannot be left, whatever else is registered |
| Machine.UnguardedMovePermitted | lib/src/main/java/badgerutils/statemachine/StateMachine.java:60-66 | a move that no registered pattern matches is permitted exactly when it is not a self-transition |
| RobotScenario.Setup | lib/src/test/java/badgerutils/subsystem/StateMachineTest.java:19-37 | builds the fixture's edge and guard registries with the builders, and a machine starting in `Disabled` |
| RobotScenario.EdgesOf | lib/src/test/java/badgerutils/subsystem/StateMachineTest.java:26-30 | the fixture's edges for a transition, tier by tier in registration order |
| RobotScenario.EdgesDisabledToEStop | lib/src/test/java/badgerutils/subsystem/StateMachineTest.java:28 | entering the emergency stop from `Disabled` gathers only the edge that sets the emergency-stop flag |
| RobotScenario.EdgesDisabledToAStop | lib/src/test/java/badgerutils/subsystem/StateMachineTest.java:29 | entering the autonomous stop from `Disabled` gathers only the edge that sets the autonomous-stop flag |
| RobotScenario.EdgesAStopToTest | lib/src/test/java/badgerutils/subsystem/StateMachineTest.java:26-30 | no edge is registered for the autonomous stop to test mode |
| RobotScenario.EdgesAutonomousToDisabled | lib/src/test/java/badgerutils/subsystem/StateMachineTest.java:30 | entering `Disabled` from autonomous mode gathers only the edge that records the state being left |
| RobotScenario.EdgesDisabledToTest | lib/src/test/java/badgerutils/subsystem/StateMachineTest.java:27 | entering test mode from `Disabled` gathers only the edge that records the state being entered |
| RobotScenario.Unguarded | lib/src/test/java/badgerutils/subsystem/StateMachineTest.java:32-34 | any move other than a self-transition, a move out of the emergency stop, or the autonomous stop to autonomous mode is permitted |
| RobotScenario.AStopToAutonomousRefused | lib/src/test/java/badgerutils/subsystem/StateMachineTest.java:34 | the exact guard refuses the autonomous stop to autonomous mode |
| RobotScenario.PermittedMove | lib/src/main/java/badgerutils/statemachine/StateMachine.java:74-86 | in the fixture, a permitted move runs all its gathered edges in order and commits the new state |
| RobotScenario.RefusedMove | lib/src/main/java/badgerutils/statemachine/StateMachine.java:74-77 | in the fixture, a refused move returns false and keeps the state |
| RobotScenario.EStopScenario | lib/src/test/java/badgerutils/subsystem/StateMachineTest.java:74-84 | entering the emergency stop succeeds and runs the edge setting its flag; after it, autonomous and test mode are both refused and the state stays `EStop` |
| RobotScenario.AStopScenario | lib/src/test/java/badgerutils/subsystem/StateMachineTest.java:86-98 | entering the autonomous stop succeeds; autonomous mode is then refused and the state kept; test mode is then entered |
| RobotScenario.DisabledFromScenario | lib/src/test/java/badgerutils/subsystem/StateMachineTest.java:55-63 | after the state is forced to autonomous, moving to `Disabled` runs the recording edge, which sees `Autonomous` as the previous state |
| RobotScenario.EnabledToScenario | lib/src/test/java/badgerutils/subsystem/StateMachineTest.java:65-71 | moving from `Disabled` to test mode runs the recording edge, which sees `Test` as the next state |

## Left out

- Guard and edge bodies (`StateGuardCondition`, `StateEdge`) are not modelled. A guard's answer is the parameter `holds`, and an edge's only observable effects are its trace entry and whether it raises (`fails`).
- Machine.StateMachine.CanChangeState: a guard that raises is not modelled; `holds` always answers. In Java such an exception leaves `canChangeState` at once, and through it `tryChangeState` before any edge runs and before the commit (lib/src/main/java/badgerutils/statemachine/StateMachine.java:65, 75).
- Machine.StateMachine.TryChangeState: a guard that raises is not modelled, as for `CanChangeState` above.
- Machine.StateMachine.TryChangeState: an edge that raises is modelled as a `Threw` result. Whatever that edge or earlier edges did to the outside world is not modelled; only the trace of edges that completed is.
- The `null` states the Java code would accept are not modelled; neither are the null-pointer errors they would cause. States are values of a type with equality.
- `HashMap` hashing and `Set` iteration order are not modelled. `ExpandToTransitions` picks states from a set in an unspecified order, so its contract states membership, no duplicates and length, not order. The order within one key's list is registration order, and it is modelled exactly.
- PartialTransitions.PartialTransition: the defensive `Set.copyOf` in the constructor has no counterpart, because Dafny sets are immutable values. A pattern therefore cannot change when the caller's sets later do.
- Concurrency is not modelled. The Java code has no locking and is driven from one control loop.
- `StatefulSubsystem` (both packages) only delegates to the state machine inside a WPILib subsystem, and is not part of this model.
- The older `badgerutils.subsystem` design (`StateMachine`, `Guards`, `Edges`, `StateBoundary`, `StateEdge`, `StateGuardCondition`) is not part of this model. Its `StateMachine` calls a `Transition.matches` method that the `Transition` record does not define.
- The robot test fixture calls `leavingToState` and `enteringFromAnyState` on `Edges`. These are builder names of `Guards` (lib/src/main/java/badgerutils/statemachine/Guards.java:80, 92), and no `Edges` class defines them. The scenario uses the `Edges` builders with the same pattern shapes: `StateToMultipleStates` and `AnyToState`.
- The motor, swerve, network-tables, trigger and command utilities, and the demo robot project, are not part of this model. They are hardware, floating-point or I/O code.
