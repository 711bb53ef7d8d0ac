/**
 * The scripted demonstration of `_behavioral_logic`, shared by both
 * navigator variants: seven phases, each entered with a fixed behavioural
 * state, advanced at most one phase per call and only when the current
 * phase's guard holds. The clock is compared exactly; the proximity tests
 * (distance below 3) come from the kinematics and are given as booleans.
 */
module PhaseMachine {
  import opened Wrappers
  import opened Vectors

  /** The values the navigators give their `state` attribute. */
  datatype BehaviouralState = Exploration | Homing | MemoryReturn | Shortcut | RouteOptimization

  const FirstPhase: int := 1
  const LastPhase: int := 7

  /** Simulated seconds before the first and second food discoveries. */
  const FirstDiscoveryTime: real := 30.0
  const SecondDiscoveryTime: real := 60.0

  /**
   * What one call looks at: the clock, and whether the agent is within 3
   * units of the nest, of the first recorded food and of the second.
   */
  datatype Guards = Guards(time: real, nearNest: bool, nearFirstFood: bool, nearSecondFood: bool)

  /** The navigator attributes the script updates. */
  datatype Progress = Progress(
    phase: int,
    state: BehaviouralState,
    currentTarget: Option<int>,
    foodLocations: seq<Vec2>)

  /** The state at construction: phase 1, exploring, no target, no food. */
  const Initial: Progress := Progress(FirstPhase, Exploration, None, [])

  /** Whether the guard of `phase` holds; phase 7 has none. */
  predicate Fires(phase: int, g: Guards)
  {
    match phase
    case 1 => g.time > FirstDiscoveryTime
    case 2 => g.nearNest
    case 3 => g.nearFirstFood
    case 4 => g.time > SecondDiscoveryTime
    case 5 => g.nearNest
    case 6 => g.nearSecondFood
    case _ => false
  }

  /** The two discovery transitions, 1 to 2 and 4 to 5. */
  predicate Discovers(phase: int, g: Guards)
  {
    (phase == 1 || phase == 4) && Fires(phase, g)
  }

  /** The behavioural state that goes with each phase. */
  function PhaseState(phase: int): BehaviouralState
  {
    match phase
    case 2 => Homing
    case 3 => MemoryReturn
    case 5 => Homing
    case 6 => Shortcut
    case 7 => RouteOptimization
    case _ => Exploration
  }

  /** `current_target` in each phase: none before the first homing ends. */
  function PhaseTarget(phase: int): Option<int>
  {
    if phase <= 2 then None else if phase <= 5 then Some(0) else Some(1)
  }

  /** How many food locations have been recorded by the time `phase` is reached. */
  function FoodCount(phase: int): nat
  {
    if phase <= 1 then 0 else if phase <= 4 then 1 else 2
  }

  /** The invariant the script keeps from construction on. */
  predicate Consistent(p: Progress)
  {
    && FirstPhase <= p.phase <= LastPhase
    && p.state == PhaseState(p.phase)
    && p.currentTarget == PhaseTarget(p.phase)
    && |p.foodLocations| == FoodCount(p.phase)
  }

  /**
   * One call of `_behavioral_logic` at the given position. The memory store
   * that goes with each discovery is done by the navigator classes.
   */
  function Advance(p: Progress, g: Guards, position: Vec2): (r: Progress)
    ensures r.phase == p.phase || r.phase == p.phase + 1
    ensures r.phase == p.phase + 1 <==> Fires(p.phase, g)
    ensures r.phase == p.phase ==> r == p
    ensures p.phase == LastPhase ==> r == p
    ensures Discovers(p.phase, g) ==> r.foodLocations == p.foodLocations + [position] && r.state == Homing
    ensures !Discovers(p.phase, g) ==> r.foodLocations == p.foodLocations
    ensures p.phase == 2 && Fires(2, g) ==> r.currentTarget == Some(0) && r.state == MemoryReturn
    ensures p.phase == 5 && Fires(5, g) ==> r.currentTarget == Some(1) && r.state == Shortcut
    ensures r.phase != 3 && r.phase != 6 ==> r.currentTarget == p.currentTarget
    ensures Consistent(p) ==> Consistent(r)
  {
    if p.phase == 1 && g.time > FirstDiscoveryTime then
      p.(phase := 2, foodLocations := p.foodLocations + [position], state := Homing)
    else if p.phase == 2 && g.nearNest then
      p.(phase := 3, state := MemoryReturn, currentTarget := Some(0))
    else if p.phase == 3 && g.nearFirstFood then
      p.(phase := 4, state := Exploration)
    else if p.phase == 4 && g.time > SecondDiscoveryTime then
      p.(phase := 5, foodLocations := p.foodLocations + [position], state := Homing)
    else if p.phase == 5 && g.nearNest then
      p.(phase := 6, state := Shortcut, currentTarget := Some(1))
    else if p.phase == 6 && g.nearSecondFood then
      p.(phase := 7, state := RouteOptimization)
    else
      p
  }

  /** One step's observation: the guards and the agent's position. */
  datatype Observation = Observation(guards: Guards, position: Vec2)

  /** The script after a run of calls, one per observation. */
  function Run(p: Progress, obs: seq<Observation>): Progress
    decreases |obs|
  {
    if obs == [] then p else Run(Advance(p, obs[0].guards, obs[0].position), obs[1..])
  }

  /**
   * Over any run the invariant holds, the phase never goes back and grows by
   * at most one per call, and food locations are only ever appended, at most
   * two of them.
   */
  lemma {:induction false} RunKeepsScript(p: Progress, obs: seq<Observation>)
    requires Consistent(p)
    ensures Consistent(Run(p, obs))
    ensures p.phase <= Run(p, obs).phase <= p.phase + |obs|
    ensures p.foodLocations <= Run(p, obs).foodLocations
    ensures |Run(p, obs).foodLocations| <= 2
    decreases |obs|
  {
    if obs != [] {
      var next := Advance(p, obs[0].guards, obs[0].position);
      RunKeepsScript(next, obs[1..]);
    }
  }

  /** At least six calls are needed to get from the start to the last phase. */
  lemma {:induction false} LastPhaseNeedsSixCalls(obs: seq<Observation>)
    requires Run(Initial, obs).phase == LastPhase
    ensures |obs| >= 6
  {
    RunKeepsScript(Initial, obs);
  }

}
