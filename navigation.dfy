/**
 * The discrete part of `CentralComplexNavigator` in the base navigation
 * script: its CPU1 memory and the phase script of `_behavioral_logic`.
 * Kinematics, the compass and the path integrator (trigonometry and noise)
 * are outside the model: the current CPU4 pattern, the position, the clock
 * and the proximity tests are inputs.
 */
module CentralComplexNavigation {
  import opened Wrappers
  import opened Vectors
  import opened VectorMemory
  import opened PhaseMachine

  class CentralComplexNavigator {
    var phase: int
    var state: BehaviouralState
    var currentTarget: Option<int>
    var foodLocations: seq<Vec2>
    /** `cpu1`, constructed with the default capacity of 4 */
    const cpu1: CPU1Memory

    function Snapshot(): Progress
      reads this
    {
      Progress(phase, state, currentTarget, foodLocations)
    }

    /** The script's invariant, and one stored memory per recorded food location. */
    ghost predicate Valid()
      reads this, cpu1
    {
      && Consistent(Snapshot())
      && cpu1.Valid()
      && cpu1.capacity == DefaultCapacity
      && |cpu1.memories| == |foodLocations|
    }

    constructor ()
      ensures Valid() && fresh(cpu1)
      ensures Snapshot() == Initial && cpu1.memories == []
    {
      phase := FirstPhase;
      state := Exploration;
      currentTarget := None;
      foodLocations := [];
      cpu1 := new CPU1Memory(DefaultCapacity);
    }

    /**
     * `_behavioral_logic`: advances the script by at most one phase; each of
     * the two discoveries records the position and stores the current CPU4
     * pattern with strength 1.0.
     */
    method BehavioralLogic(g: Guards, position: Vec2, cpu4Activity: seq<real>)
      requires Valid() && |cpu4Activity| == Neurons
      modifies this, cpu1
      ensures Valid()
      ensures Snapshot() == Advance(old(Snapshot()), g, position)
      ensures cpu1.memories == old(cpu1.memories) +
                (if Discovers(old(phase), g) then [Memory(cpu4Activity, RewardStrength)] else [])
    {
      if phase == 1 && g.time > FirstDiscoveryTime {
        phase := 2;
        foodLocations := foodLocations + [position];
        var _ := cpu1.Store(cpu4Activity, RewardStrength);
        state := Homing;
      } else if phase == 2 && g.nearNest {
        phase := 3;
        state := MemoryReturn;
        currentTarget := Some(0);
      } else if phase == 3 && g.nearFirstFood {
        phase := 4;
        state := Exploration;
      } else if phase == 4 && g.time > SecondDiscoveryTime {
        phase := 5;
        foodLocations := foodLocations + [position];
        var _ := cpu1.Store(cpu4Activity, RewardStrength);
        state := Homing;
      } else if phase == 5 && g.nearNest {
        phase := 6;
        state := Shortcut;
        currentTarget := Some(1);
      } else if phase == 6 && g.nearSecondFood {
        phase := 7;
        state := RouteOptimization;
      }
    }
  }

}
