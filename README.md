# Vector-based navigation: the discrete core

This project models the discrete layer of an insect-inspired navigation
simulation (a central-complex model of path integration and vector memory)
and proves properties of it in Dafny. The simulation has three scripts:

- `central_complex_navigation.py`: a navigator that works through a scripted
  demonstration in seven phases. It discovers food, stores a CPU1 memory of
  its CPU4 path-integration pattern, homes, returns to the food, then enters
  its shortcut and route-optimisation phases. This script steers by random
  walk in those two phases. The exploration variant steers by the food
  locations in them.
- `central_complex_navigation_exploration.py`: the same script, plus
  interference noise on stored memories, memory consolidation, a coverage
  map of visit counts, and steering by the recorded food locations in the
  shortcut and route-optimisation phases. When exploring, the agent looks ahead nine
  directions and steers toward the least-visited cell.
- `central_complex_navigation_sim.py`: a live agent (`CXAgent`) that finds
  two food sources and stores a memory bank of CPU4 snapshots. At the nest
  it resets its home vector and chooses the nearest remembered food. At
  food it clears its target and switches to its home-vector steering.

The neural encodings are floating-point trigonometry plus random noise.
They stay outside the model and appear as inputs. Everything else is
modelled exactly on unbounded integers and exact reals: the bounded memory,
the phase script, the coverage map, the look-ahead choice, the turn clamp,
and the agent's memory bank and targets.

Modules:

- `Wrappers` is `Option`, for Python's `None`.
- `Vectors` holds planar vectors and element-wise pattern arithmetic.
- `Selection` holds the turn clamp and numpy's first-index `argmax`/`argmin`.
- `VectorMemory` is the `CPU1Memory` class of both navigator scripts. One
  class serves both. `StoreWithInterference` and `Consolidate` model the
  exploration variant's `store` and `consolidate`.
- `PhaseMachine` is the `_behavioral_logic` script as a pure transition
  function, `Advance`. It comes with the invariant the script keeps and a
  lemma covering any run of calls.
- `CentralComplexNavigation` and `CentralComplexExploration` hold the two
  `CentralComplexNavigator` classes. Their `BehavioralLogic` methods are
  proved to update their fields exactly as `Advance` says. The exploration
  class also holds the coverage map (an `array2<int>` updated in place) and
  the look-ahead.
- `CentralComplexSim` holds `CXAgent` and the discrete part of its `step`.

The code makes these choices, and the model follows them:

- A stored memory is a copy of the CPU4 pattern (plus noise in the
  exploration variant, scaled by `MEM_REWARD` in the sim).
- The navigators keep memories in a FIFO list with room for `n_memories`
  (4) entries. The sim's `mem_bank` is an append-only list, kept to at most
  two entries by its store rule alone.
- Returning to the nest resets the sim's home vector and decays it; no
  weights are recalibrated.
- The behavioural states are the ones the code assigns: exploration,
  homing, memory_return, shortcut and route_optimization. There is no
  manual state.

Modelling choices:

- `int(coord // resolution)` is `Floor(coord / resolution)`. The
  coverage-map shape `env_size // coverage_resolution` uses Dafny's `/`,
  which agrees with Python's floor division for a non-negative size and a
  positive resolution.
- In the sim, `norm(p - q) < STORE_RANGE` is decided on squared distances.
  `argmin` over norms is taken over squared norms. The square root is
  monotone, so both choose the same index.
- The look-ahead angles use a 17-digit decimal value for pi/2.
- Constants are written as the code has them: capacity 4, reward 1.0, the
  0.1 increment and 2.0 cap, the -1000 off-map score, the [-0.5, 0.5]
  clamp, and the phase times 30 and 60. From the sim: `STORE_RANGE` 4.0,
  `PATH_DECAY` 0.9998, `RECALIB_RATE` 0.001, 10 recalibration iterations,
  and the food and nest positions.

The sim's store rule, `at_food >= len(mem_bank)`, compares a food index with
the bank length. So food 0 is stored only into an empty bank
(`FoodZeroOnlyIntoEmptyBank`). If food 1 is found first, food 0 is never
stored in the rest of the run (`FoodOneFirstExcludesFoodZero`). Moreover, on
any later step within range of food 1 while the bank holds one memory
(often the very next step), the rule fires again (1 >= 1), so food 1 is
stored a second time, whatever steps away from food or at food 0 come in
between (`FoodOneStoredTwiceAcrossAnyGap`).
Another consequence: the default target that `store_memory` sets is always
cleared in the same `step`. The agent is at food whenever a memory is
stored, and `TargetAfterStep` states that being at food clears the target.

## Model

| member | source | states |
|---|---|---|
| `VectorMemory.Stored` | central_complex_navigation.py:80-84 | storing fails exactly when `pop(0)` meets an empty list (capacity 0); otherwise the new entry is last. Below capacity the list grows by one and keeps its prefix. At or over capacity the length is kept and the old entries shift down by one (index 0 dropped), in order. The capacity bound is preserved |
| `VectorMemory.StoredAllKeepsNewest` | central_complex_navigation.py:82-84 | after any run of stores the list is exactly the newest min(n, capacity) entries of everything stored, in storage order (FIFO eviction) |
| `VectorMemory.Strengthened` | central_complex_navigation_exploration.py:75 | the consolidated strength is min(s + 0.1, 2.0): it never exceeds 2.0 or s + 0.1, never decreases from a strength at or below 2.0, and is either s + 0.1 or 2.0 |
| `VectorMemory.CPU1Memory.constructor` | central_complex_navigation.py:75-78 | an empty memory with capacity `n_memories` |
| `VectorMemory.CPU1Memory.Store` | central_complex_navigation.py:80-84 | the new list is `Stored` of the old one and (activity copy, reward strength); it fails only for capacity 0, leaving the list unchanged; capacity bound kept |
| `VectorMemory.CPU1Memory.StoreWithInterference` | central_complex_navigation_exploration.py:60-64 | the same FIFO store, of the activity plus the given interference noise |
| `VectorMemory.CPU1Memory.Recall` | central_complex_navigation.py:86-91 | for 0 <= id < len, the stored pattern; otherwise a 16-element all-zero pattern; always 16 elements; a function, so the store is unchanged |
| `VectorMemory.CPU1Memory.MemoryStrengths` | central_complex_navigation.py:93-94 | same length and order as the memories, entry k being memory k's strength |
| `VectorMemory.CPU1Memory.Consolidate` | central_complex_navigation_exploration.py:72-75 | for a valid id, only that entry's strength changes, to min(s + 0.1, 2.0); its activity and all other entries stay; an invalid id changes nothing |
| `Selection.ClipTurn` | central_complex_navigation.py:152 | the turn lies in [-0.5, 0.5], equals the request when the request is in range, and is the closest point of the range to it |
| `Selection.FirstArgMax` | central_complex_navigation_exploration.py:134 | a valid index whose score is maximal and strictly greater than every earlier score (numpy's first argmax) |
| `Selection.FirstArgMin` | central_complex_navigation_sim.py:115 | a valid index whose value is minimal and strictly below every earlier value (numpy's first argmin) |
| `PhaseMachine.Advance` | central_complex_navigation.py:184-217 | the phase stays or moves from p to p+1, and moves exactly when phase p's guard holds; if it stays, nothing changes; phase 7 is never left. The 1→2 and 4→5 transitions append the position to the food locations and enter homing, and no other transition touches the food locations. 2→3 sets target 0 and memory_return. 5→6 sets target 1 and shortcut. The invariant (phase in 1..7, its state, its target, its food count) is preserved |
| `PhaseMachine.RunKeepsScript` | central_complex_navigation.py:184-217 | over any run of calls the invariant holds; the phase is non-decreasing and grows by at most one per call; food locations are only appended, at most 2 |
| `PhaseMachine.LastPhaseNeedsSixCalls` | central_complex_navigation.py:186-217 | reaching phase 7 from the start takes at least six calls |
| `CentralComplexNavigation.CentralComplexNavigator.constructor` | central_complex_navigation.py:112-122 | phase 1, exploration, no target, no food, an empty memory of capacity 4 |
| `CentralComplexNavigation.CentralComplexNavigator.BehavioralLogic` | central_complex_navigation.py:184-217 | the fields become `Advance` of the old ones; exactly the two discovery transitions store one memory (the CPU4 pattern, strength 1.0), so memories and food locations stay equal in number |
| `CentralComplexExploration.CellIndex` | central_complex_navigation_exploration.py:113-114 | the cell index is the floor of coord / resolution: i·res <= coord < (i+1)·res |
| `CentralComplexExploration.CentralComplexNavigator.constructor` | central_complex_navigation_exploration.py:82-105 | the script's initial state and a zero coverage map of `env_size // coverage_resolution` cells per axis |
| `CentralComplexExploration.CentralComplexNavigator.UpdateCoverage` | central_complex_navigation_exploration.py:112-116 | exactly the position's cell gains one visit when it is on the map; no other cell changes; nothing changes off the map |
| `CentralComplexExploration.CentralComplexNavigator.Scores` | central_complex_navigation_exploration.py:122-133 | one score per probe |
| `CentralComplexExploration.CentralComplexNavigator.ScoresAt` | central_complex_navigation_exploration.py:129-133 | score k is minus the visit count of probe k's cell, or -1000 when that cell is off the map |
| `CentralComplexExploration.CentralComplexNavigator.LookAhead` | central_complex_navigation_exploration.py:121-135 | the scores are built probe by probe; the choice is the first maximal score; while all counts are below 1000, an on-map probe beats every off-map one |
| `CentralComplexExploration.CentralComplexNavigator.GenerateSteeringCommand` | central_complex_navigation_exploration.py:118-163 | the turn is within [-0.5, 0.5]; when exploring it is the clipped best look-ahead angle plus noise; in any other state it is the clipped proposed turn |
| `CentralComplexExploration.CentralComplexNavigator.BehavioralLogic` | central_complex_navigation_exploration.py:192-218 | as in the base script, with each stored pattern being activity plus interference noise |
| `CentralComplexSim.FirstFoodFrom` | central_complex_navigation_sim.py:121-125 | the lowest index from i on whose food is within `STORE_RANGE`, or none when no source from i on is |
| `CentralComplexSim.DetectFood` | central_complex_navigation_sim.py:121-125 | the search loop returns `at_food`: the lowest food index within range, or None if there is none |
| `CentralComplexSim.Comparison` | central_complex_navigation_sim.py:85-90 | with no target, all zeros; otherwise entry i is mem[i] − cpu4[i] |
| `CentralComplexSim.Norms` | central_complex_navigation_sim.py:114 | one squared norm per memory, in bank order |
| `CentralComplexSim.NearestMemory` | central_complex_navigation_sim.py:110-115 | a valid bank index of least norm that is the first such index |
| `CentralComplexSim.TargetAfterStep` | central_complex_navigation_sim.py:128-150 | the target after a step is always a valid index. Being at food clears it (go home). Otherwise, at the nest with memories, it is the nearest memory, and elsewhere it is unchanged |
| `CentralComplexSim.BankLengthBounded` | central_complex_navigation_sim.py:139-140 | over any run the bank grows by at most one per step and never exceeds the number of food sources |
| `CentralComplexSim.StoredFoods` | central_complex_navigation_sim.py:139-140 | the food indices stored over a run, at most one per step |
| `CentralComplexSim.FoodZeroOnlyIntoEmptyBank` | central_complex_navigation_sim.py:139-140 | the rule stores food 0 exactly when the bank is empty |
| `CentralComplexSim.FoodZeroNeverStoredIntoNonEmptyBank` | central_complex_navigation_sim.py:139-140 | from a non-empty bank, no run of visits ever stores food 0 |
| `CentralComplexSim.FoodOneFirstExcludesFoodZero` | central_complex_navigation_sim.py:121-140 | a run that first meets food 1 stores food 1 first and never stores food 0, whatever follows |
| `CentralComplexSim.GapStoresNothing` | central_complex_navigation_sim.py:139-140 | with one memory in the bank, any run of steps away from food or at food 0 stores nothing |
| `CentralComplexSim.FoodOneStoredTwiceAcrossAnyGap` | central_complex_navigation_sim.py:139-140 | from an empty bank, a visit to food 1, any such gap, then another visit to food 1 store food 1 twice |
| `CentralComplexSim.CXAgent.constructor` | central_complex_navigation_sim.py:63-72 | at the nest, zero home vector, zero patterns, empty bank, no target |
| `CentralComplexSim.CXAgent.UpdateCpu4` | central_complex_navigation_sim.py:79-83 | the CPU4 pattern is the encoding of the home vector, all zeros for the zero vector |
| `CentralComplexSim.CXAgent.RecallMemory` | central_complex_navigation_sim.py:85-90 | `cpu1` becomes the comparison signal; nothing else changes |
| `CentralComplexSim.CXAgent.StoreMemory` | central_complex_navigation_sim.py:105-108 | appends the CPU4 pattern scaled by `MEM_REWARD`; the target becomes 0 only if it was None, otherwise it is unchanged |
| `CentralComplexSim.CXAgent.SelectNearestFood` | central_complex_navigation_sim.py:110-115 | no-op on an empty bank; otherwise the target is the first memory of least norm |
| `CentralComplexSim.CXAgent.ResetAtNest` | central_complex_navigation_sim.py:128-136 | the home vector and the CPU4 pattern are zero after the 10 decay iterations; the comparison is refreshed for the old target; then the nearest memory is chosen |
| `CentralComplexSim.CXAgent.Step` | central_complex_navigation_sim.py:118-176 | the whole new state: position, decayed home vector (reset first at the nest), bank grown when `at_food >= len(mem_bank)`, target, CPU4 encoding and comparison signal; the bank grows by at most one and stays within the number of food sources |

## Left out

- The TB1 compass and CPU4 integrator updates (`update`, `integrate`,
  `get_vector`, `update_tb1`): floating-point trigonometry with random
  noise.
- The arctan2 steering of the homing, memory-return, shortcut and
  route-optimisation states, `_angle_diff`, `wrap_angle`, `steer_to_vector`
  and `explore_turn`: trigonometry and a random walk. The turn they propose
  is an input to `GenerateSteeringCommand`, and the sim's step displacement
  is an input to `Step`. In the sim, the home-vector steering used at food
  and with no target aims along `-pi_vector`. `pi_vector` accumulates minus
  each displacement from zero at the nest, so that direction is roughly
  position minus nest: as written, it points away from the nest.
- The kinematics of both navigators' `step`: heading update, boundary
  bounce, trajectory and the `time += dt` clock. The clock, the position and
  the proximity tests (`norm(...) < 3`) are inputs to `BehavioralLogic`.
- `_update_performance_metrics`: a list of float distances kept only for
  plotting.
- All plotting: `run_simulation`, `_update_plot` and the sim's module-level
  figure and animation.
- The look-ahead probe geometry of the exploration variant's
  `generate_steering_command`: each probe heading `(heading + da) % 2π` and
  its point `position + (cos, sin) · speed · dt · 5` are trigonometry. The
  nine probe points are the `probes` input of `LookAhead` and
  `GenerateSteeringCommand`. Only their cells, scores and the choice among
  them are modelled.
- The random interference and the random look-ahead term: they are input
  vectors and numbers, not samples.
- `store_vector_memory` and `recall_vector_memory`: one-line delegates. The
  first is inlined where `BehavioralLogic` stores. The second is
  `CPU1Memory.Recall`.
- Reassigning `n_memories` after construction: the capacity is a constant,
  so the capacity bound holds throughout. A negative `n_memories` is outside
  the `nat` capacity.
- CentralComplexSim.CXAgent.UpdateCpu4: does not model the cosine profile
  `dist * cos(angles - phi)` of a non-zero home vector, which is
  trigonometry; that encoding is an input, and only the zero vector's
  all-zero encoding is modelled.
- Floating-point rounding: 0.1 and 2.0 strengths, decay factors and the
  pi/2 look angles are exact reals here. numpy's 64-bit visit counts are
  unbounded integers.
