/**
 * The discrete part of the exploration-enhanced `CentralComplexNavigator`:
 * its CPU1 memory with interference and consolidation, the phase script,
 * the coverage map of visit counts and the look-ahead that steers
 * exploration towards the least-visited cell. The nine look-ahead probe
 * positions are computed by trigonometry outside the model and are inputs;
 * the cells they fall in are computed exactly as `int(coord // resolution)`.
 */
module CentralComplexExploration {
  import opened Wrappers
  import opened Vectors
  import opened Selection
  import opened VectorMemory
  import opened PhaseMachine

  /** `np.linspace(-np.pi/2, np.pi/2, 9)`: the candidate turns of the look-ahead. */
  const LookDirections: nat := 9
  const HalfPi: real := 1.5707963267948966
  const LookAngles: seq<real> :=
    seq(LookDirections, k => -HalfPi + (k as real) * (HalfPi / 4.0))

  /** The score of a probe that leaves the coverage map. */
  const OutOfBoundsScore: int := -1000

  /** A coverage-map cell `(x_idx, y_idx)`. */
  datatype Cell = Cell(x: int, y: int)

  /** `int(coord // resolution)` for a positive resolution: Python floor division. */
  function CellIndex(coord: real, resolution: int): (i: int)
    requires resolution > 0
    ensures (i as real) * (resolution as real) <= coord < ((i + 1) as real) * (resolution as real)
  {
    var r := resolution as real;
    var i := (coord / r).Floor;
    assert coord / r < (i as real) + 1.0 == (i + 1) as real;
    ScaleBelow(i as real, coord / r, r);
    ScaleStrictlyBelow(coord / r, (i + 1) as real, r);
    DivTimes(coord, r);
    assert (coord / r) * r == coord;
    assert (coord / r) * r < ((i + 1) as real) * r;
    assert coord < ((i + 1) as real) * r;
    i
  }

  lemma DivTimes(a: real, r: real)
    requires r != 0.0
    ensures (a / r) * r == a
  {
  }

  /** Multiplying by a positive factor preserves `<=`. */
  lemma ScaleBelow(a: real, b: real, r: real)
    requires a <= b && r > 0.0
    ensures a * r <= b * r
  {
  }

  /** Multiplying by a positive factor preserves `<`. */
  lemma ScaleStrictlyBelow(a: real, b: real, r: real)
    requires a < b && r > 0.0
    ensures a * r < b * r
  {
  }

  class CentralComplexNavigator {
    var phase: int
    var state: BehaviouralState
    var currentTarget: Option<int>
    var foodLocations: seq<Vec2>
    /** `cpu1`, constructed with the default capacity of 4 */
    const cpu1: CPU1Memory
    /** `coverage_resolution` */
    const coverageResolution: int
    /** `coverage_map`, of shape `coverage_shape` */
    const coverageMap: array2<int>

    function Snapshot(): Progress
      reads this
    {
      Progress(phase, state, currentTarget, foodLocations)
    }

    ghost predicate Valid()
      reads this, cpu1
    {
      && Consistent(Snapshot())
      && cpu1.Valid()
      && cpu1.capacity == DefaultCapacity
      && |cpu1.memories| == |foodLocations|
      && coverageResolution > 0
    }

    /**
     * The coverage map has `env_size // coverage_resolution` cells along each
     * axis, all zero. A resolution of 0 makes that division raise, a
     * negative size makes `np.zeros` raise.
     */
    constructor (envSize: nat, resolution: int)
      requires resolution > 0
      ensures Valid() && fresh(cpu1) && fresh(coverageMap)
      ensures Snapshot() == Initial && cpu1.memories == []
      ensures coverageResolution == resolution
      ensures coverageMap.Length0 == envSize / resolution && coverageMap.Length1 == envSize / resolution
      ensures forall i, j :: 0 <= i < coverageMap.Length0 && 0 <= j < coverageMap.Length1 ==> coverageMap[i, j] == 0
    {
      phase := FirstPhase;
      state := Exploration;
      currentTarget := None;
      foodLocations := [];
      cpu1 := new CPU1Memory(DefaultCapacity);
      coverageResolution := resolution;
      coverageMap := new int[envSize / resolution, envSize / resolution]((i, j) => 0);
    }

    /** The cell a position falls in. */
    function CellOf(p: Vec2): Cell
      requires coverageResolution > 0
    {
      Cell(CellIndex(p.x, coverageResolution), CellIndex(p.y, coverageResolution))
    }

    predicate InGrid(c: Cell)
    {
      0 <= c.x < coverageMap.Length0 && 0 <= c.y < coverageMap.Length1
    }

    /** Every visit count is below `bound`. */
    predicate CountsBelow(bound: int)
      reads coverageMap
    {
      forall i, j :: 0 <= i < coverageMap.Length0 && 0 <= j < coverageMap.Length1 ==> coverageMap[i, j] < bound
    }

    /**
     * `_update_coverage`: one more visit to the cell the position falls in,
     * if that cell is on the map; nothing changes otherwise.
     */
    method UpdateCoverage(position: Vec2)
      requires Valid()
      modifies coverageMap
      ensures forall i, j :: 0 <= i < coverageMap.Length0 && 0 <= j < coverageMap.Length1 ==>
                coverageMap[i, j] == old(coverageMap[i, j]) +
                  (if InGrid(CellOf(position)) && Cell(i, j) == CellOf(position) then 1 else 0)
    {
      var c := CellOf(position);
      if 0 <= c.x < coverageMap.Length0 && 0 <= c.y < coverageMap.Length1 {
        coverageMap[c.x, c.y] := coverageMap[c.x, c.y] + 1;
      }
    }

    /** The score of one probe: minus its cell's visit count, or -1000 off the map. */
    function ProbeScore(p: Vec2): int
      requires coverageResolution > 0
      reads coverageMap
    {
      var c := CellOf(p);
      if InGrid(c) then -coverageMap[c.x, c.y] else OutOfBoundsScore
    }

    /** The `scores` list the look-ahead builds, one entry per probe. */
    function Scores(probes: seq<Vec2>): (s: seq<int>)
      requires coverageResolution > 0
      reads coverageMap
      ensures |s| == |probes|
      decreases |probes|
    {
      if probes == [] then [] else Scores(probes[..|probes| - 1]) + [ProbeScore(probes[|probes| - 1])]
    }

    lemma {:induction false} ScoresAt(probes: seq<Vec2>, k: nat)
      requires coverageResolution > 0 && k < |probes|
      ensures Scores(probes)[k] == ProbeScore(probes[k])
      decreases |probes|
    {
      if k < |probes| - 1 {
        ScoresAt(probes[..|probes| - 1], k);
      }
    }

    /**
     * The look-ahead of `generate_steering_command`: scores every probe and
     * picks the first of the best. While every count is below 1000, a probe
     * on the map beats every probe off it.
     */
    method LookAhead(probes: seq<Vec2>) returns (best: nat, scores: seq<int>)
      requires coverageResolution > 0 && |probes| == LookDirections
      ensures scores == Scores(probes)
      ensures best == FirstArgMax(scores)
      ensures forall k :: 0 <= k < |probes| ==> scores[k] == ProbeScore(probes[k])
      ensures CountsBelow(1000) && (exists k :: 0 <= k < |probes| && InGrid(CellOf(probes[k]))) ==>
                InGrid(CellOf(probes[best]))
    {
      scores := [];
      var k := 0;
      while k < |probes|
        invariant 0 <= k <= |probes|
        invariant scores == Scores(probes[..k])
      {
        var c := CellOf(probes[k]);
        var score;
        if 0 <= c.x < coverageMap.Length0 && 0 <= c.y < coverageMap.Length1 {
          score := -coverageMap[c.x, c.y];
        } else {
          score := OutOfBoundsScore;
        }
        assert probes[..k + 1][..k] == probes[..k];
        scores := scores + [score];
        k := k + 1;
      }
      assert probes[..k] == probes;
      best := FirstArgMax(scores);
      forall j | 0 <= j < |probes|
        ensures scores[j] == ProbeScore(probes[j])
      {
        ScoresAt(probes, j);
      }
    }

    /**
     * `generate_steering_command`: when exploring, the best look-ahead angle
     * plus the random term `noise`; in every other state the turn the
     * trigonometric controllers propose (`rawTurn`). Either is clipped.
     */
    method GenerateSteeringCommand(probes: seq<Vec2>, noise: real, rawTurn: real) returns (turn: real)
      requires coverageResolution > 0 && |probes| == LookDirections
      ensures -MaxTurn <= turn <= MaxTurn
      ensures state == Exploration ==> turn == ClipTurn(LookAngles[FirstArgMax(Scores(probes))] + noise)
      ensures state != Exploration ==> turn == ClipTurn(rawTurn)
    {
      if state == Exploration {
        var best, _ := LookAhead(probes);
        turn := ClipTurn(LookAngles[best] + noise);
        return;
      }
      turn := ClipTurn(rawTurn);
    }

    /**
     * `_behavioral_logic` of this variant: as in the base script, except that
     * the stored pattern carries the interference noise.
     */
    method BehavioralLogic(g: Guards, position: Vec2, cpu4Activity: seq<real>, noise: seq<real>)
      requires Valid() && |cpu4Activity| == Neurons && |noise| == Neurons
      modifies this, cpu1
      ensures Valid()
      ensures Snapshot() == Advance(old(Snapshot()), g, position)
      ensures cpu1.memories == old(cpu1.memories) +
                (if Discovers(old(phase), g) then [Memory(Add(cpu4Activity, noise), RewardStrength)] else [])
    {
      if phase == 1 && g.time > FirstDiscoveryTime {
        phase := 2;
        foodLocations := foodLocations + [position];
        var _ := cpu1.StoreWithInterference(cpu4Activity, noise, RewardStrength);
        state := Homing;
      } else if phase == 2 && g.nearNest {
        phase := 3;
        state := MemoryReturn;
        currentTarget := Some(0);
      } else if phase == 3 && g.nearFirstFood {
        phase := 4;
        state := Exploration;
      } else if phase == 4 && g.time > SecondDiscoveryTime {
        phase := 5;
        foodLocations := foodLocations + [position];
        var _ := cpu1.StoreWithInterference(cpu4Activity, noise, RewardStrength);
        state := Homing;
      } else if phase == 5 && g.nearNest {
        phase := 6;
        state := Shortcut;
        currentTarget := Some(1);
      } else if phase == 6 && g.nearSecondFood {
        phase := 7;
        state := RouteOptimization;
      }
    }
  }

}
