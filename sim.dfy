/**
 * The discrete part of `CXAgent` in the live simulation: detecting the nest
 * and the food sources, the memory bank of CPU4 snapshots, the choice of
 * the target memory and the CPU1 comparison signal. Positions and the home
 * vector are computed exactly; the heading, and with it the step `delta`,
 * and the trigonometric CPU4 encoding of a non-zero home vector are inputs.
 */
module CentralComplexSim {
  import opened Wrappers
  import opened Vectors
  import opened Selection

  /** `N_COLS`: columns of the CX, and so entries of every pattern. */
  const NCols: nat := 16
  const StoreRange: real := 4.0
  const PathDecay: real := 0.9998
  const RecalibRate: real := 0.001
  const MemReward: real := 1.0
  /** Iterations of the recalibration loop run at the nest. */
  const RecalibIterations: nat := 10
  const FoodLocs: seq<Vec2> := [Vec2(150.0, 50.0), Vec2(50.0, 150.0)]
  const Nest: Vec2 := Vec2(100.0, 100.0)

  /**
   * `np.linalg.norm(p - q) < STORE_RANGE`, on the two-element array `p - q`;
   * both sides are non-negative, so comparing their squares decides the same.
   */
  predicate Within(p: Vec2, q: Vec2)
  {
    SqNorm([p.x - q.x, p.y - q.y]) < StoreRange * StoreRange
  }

  /** The lowest food index from `i` on whose source is within range of `pos`. */
  function FirstFoodFrom(pos: Vec2, i: nat): (r: Option<nat>)
    requires i <= |FoodLocs|
    ensures r.Some? ==> i <= r.value < |FoodLocs| && Within(pos, FoodLocs[r.value])
    ensures r.Some? ==> forall j :: i <= j < r.value ==> !Within(pos, FoodLocs[j])
    ensures r.None? ==> forall j :: i <= j < |FoodLocs| ==> !Within(pos, FoodLocs[j])
    decreases |FoodLocs| - i
  {
    if i == |FoodLocs| then None
    else if Within(pos, FoodLocs[i]) then Some(i)
    else FirstFoodFrom(pos, i + 1)
  }

  /** `at_food`: the lowest index of a food source within range, if any. */
  function FoodAt(pos: Vec2): Option<nat>
  {
    FirstFoodFrom(pos, 0)
  }

  /** The search loop of `step` that computes `at_food`. */
  method DetectFood(pos: Vec2) returns (atFood: Option<nat>)
    ensures atFood == FoodAt(pos)
    ensures atFood.Some? ==> atFood.value < |FoodLocs| && Within(pos, FoodLocs[atFood.value])
    ensures atFood.None? ==> forall j :: 0 <= j < |FoodLocs| ==> !Within(pos, FoodLocs[j])
  {
    var i := 0;
    while i < |FoodLocs|
      invariant 0 <= i <= |FoodLocs|
      invariant FoodAt(pos) == FirstFoodFrom(pos, i)
    {
      if Within(pos, FoodLocs[i]) {
        return Some(i);
      }
      i := i + 1;
    }
    atFood := None;
  }

  /**
   * `update_cpu4`: the encoding of the home vector. Its amplitude is the
   * vector's length, so the zero vector encodes as all zeros; any other
   * vector's encoding (a cosine profile) is given.
   */
  function Encoding(piVector: Vec2, encoding: seq<real>): seq<real>
  {
    if piVector == Origin then Zeros(NCols) else encoding
  }

  /**
   * `recall_memory`: the target memory minus the current CPU4 pattern, or all
   * zeros when there is no target.
   */
  function Comparison(bank: seq<seq<real>>, target: Option<nat>, cpu4: seq<real>): (c: seq<real>)
    requires target.Some? ==> target.value < |bank| && |bank[target.value]| == |cpu4|
    ensures target.None? ==> c == Zeros(NCols)
    ensures target.Some? ==>
              |c| == |cpu4| && forall i :: 0 <= i < |c| ==> c[i] == bank[target.value][i] - cpu4[i]
  {
    if target.None? then Zeros(NCols) else Sub(bank[target.value], cpu4)
  }

  /** The (squared) norms of the stored memories, in storage order. */
  function Norms(bank: seq<seq<real>>): (n: seq<real>)
    ensures |n| == |bank| && forall k :: 0 <= k < |bank| ==> n[k] == SqNorm(bank[k])
  {
    seq(|bank|, k requires 0 <= k < |bank| => SqNorm(bank[k]))
  }

  /**
   * The winner of `select_nearest_food`: the first memory of least norm.
   * The square root is monotone, so the least norm and the least squared
   * norm are taken at the same indices.
   */
  function NearestMemory(bank: seq<seq<real>>): (k: nat)
    requires |bank| > 0
    ensures k < |bank|
    ensures forall j :: 0 <= j < |bank| ==> SqNorm(bank[k]) <= SqNorm(bank[j])
    ensures forall j :: 0 <= j < k ==> SqNorm(bank[k]) < SqNorm(bank[j])
  {
    FirstArgMin(Norms(bank))
  }

  /** The rule of `step` for storing a memory: `at_food >= len(mem_bank)`. */
  predicate StoresMemory(atFood: Option<nat>, bankLen: nat)
  {
    atFood.Some? && atFood.value >= bankLen
  }

  /**
   * `target_id` at the end of `step`: at the nest the nearest memory is
   * chosen, a stored first memory becomes the default target, and standing
   * at food clears the target, switching to the home-vector steering.
   */
  function TargetAfterStep(target: Option<nat>, bank: seq<seq<real>>, atNest: bool, atFood: Option<nat>)
    : (r: Option<nat>)
    requires target.Some? ==> target.value < |bank|
    ensures r.Some? ==> r.value < |bank|
    ensures atFood.Some? ==> r.None?
    ensures atFood.None? && atNest && bank != [] ==> r == Some(NearestMemory(bank))
    ensures atFood.None? && !(atNest && bank != []) ==> r == target
  {
    var chosen := if atNest && bank != [] then Some(NearestMemory(bank)) else target;
    var stores := StoresMemory(atFood, |bank|);
    var defaulted := if stores && chosen.None? then Some(0) else chosen;
    var grown := |bank| + if stores then 1 else 0;
    if grown > 0 && atFood.Some? then None else defaulted
  }

  /** The bank length after a run of steps that see these `at_food` values. */
  function BankLength(len: nat, visits: seq<Option<nat>>): nat
    decreases |visits|
  {
    if visits == [] then len
    else BankLength(len + (if StoresMemory(visits[0], len) then 1 else 0), visits[1..])
  }

  /**
   * Over any run the bank grows by at most one per step and never holds more
   * memories than there are food sources.
   */
  lemma {:induction false} BankLengthBounded(len: nat, visits: seq<Option<nat>>)
    requires len <= |FoodLocs|
    requires forall k :: 0 <= k < |visits| && visits[k].Some? ==> visits[k].value < |FoodLocs|
    ensures len <= BankLength(len, visits) <= len + |visits|
    ensures BankLength(len, visits) <= |FoodLocs|
    decreases |visits|
  {
    if visits != [] {
      BankLengthBounded(len + (if StoresMemory(visits[0], len) then 1 else 0), visits[1..]);
    }
  }

  /** The food index stored by each step of a run, in order. */
  function StoredFoods(len: nat, visits: seq<Option<nat>>): (f: seq<nat>)
    ensures |f| <= |visits|
    decreases |visits|
  {
    if visits == [] then []
    else
      var stores := StoresMemory(visits[0], len);
      (if stores then [visits[0].value] else []) +
        StoredFoods(len + (if stores then 1 else 0), visits[1..])
  }

  /** Food 0 is stored only into an empty bank. */
  lemma FoodZeroOnlyIntoEmptyBank(len: nat)
    ensures StoresMemory(Some(0), len) <==> len == 0
  {
  }

  /**
   * Once the bank holds a memory, food 0 is never stored again, however
   * often it is visited: the bank never shrinks and 0 >= len fails.
   */
  lemma {:induction false} FoodZeroNeverStoredIntoNonEmptyBank(len: nat, visits: seq<Option<nat>>)
    requires len >= 1
    ensures 0 !in StoredFoods(len, visits)
    decreases |visits|
  {
    if visits != [] {
      FoodZeroOnlyIntoEmptyBank(len);
      var stores := StoresMemory(visits[0], len);
      FoodZeroNeverStoredIntoNonEmptyBank(len + (if stores then 1 else 0), visits[1..]);
    }
  }

  /**
   * The store rule compares a food index with the bank length, so finding
   * food 1 first means food 0 is never stored in the whole run.
   */
  lemma {:induction false} FoodOneFirstExcludesFoodZero(visits: seq<Option<nat>>)
    requires visits != [] && visits[0] == Some(1)
    ensures StoredFoods(0, visits) != [] && StoredFoods(0, visits)[0] == 1
    ensures 0 !in StoredFoods(0, visits)
  {
    assert StoresMemory(Some(1), 0);
    assert StoredFoods(0, visits) == [1] + StoredFoods(1, visits[1..]);
    FoodZeroNeverStoredIntoNonEmptyBank(1, visits[1..]);
  }

  /**
   * Steps that are away from food or at food 0 store nothing into a bank
   * of one memory.
   */
  lemma {:induction false} GapStoresNothing(gap: seq<Option<nat>>, rest: seq<Option<nat>>)
    requires forall k :: 0 <= k < |gap| ==> gap[k] == None || gap[k] == Some(0)
    ensures StoredFoods(1, gap + rest) == StoredFoods(1, rest)
    decreases |gap|
  {
    if gap == [] {
      assert gap + rest == rest;
    } else {
      assert !StoresMemory(gap[0], 1);
      assert (gap + rest)[0] == gap[0];
      assert (gap + rest)[1..] == gap[1..] + rest;
      assert StoredFoods(1, gap + rest) == StoredFoods(1, gap[1..] + rest);
      GapStoresNothing(gap[1..], rest);
    }
  }

  /**
   * From an empty bank, a later step within range of food 1 while the bank
   * holds that one memory stores food 1 again (1 >= 1), however many steps
   * away from food or at food 0 come between: the bank then holds two
   * memories of the same source.
   */
  lemma {:induction false} FoodOneStoredTwiceAcrossAnyGap(gap: seq<Option<nat>>)
    requires forall k :: 0 <= k < |gap| ==> gap[k] == None || gap[k] == Some(0)
    ensures StoredFoods(0, [Some(1)] + gap + [Some(1)]) == [1, 1]
  {
    var run := [Some(1)] + gap + [Some(1)];
    assert StoresMemory(run[0], 0);
    assert run[1..] == gap + [Some(1)];
    GapStoresNothing(gap, [Some(1)]);
    assert StoredFoods(1, [Some(1)]) == [1];
  }

  class CXAgent {
    var pos: Vec2
    /** `pi_vector`: the accumulated home vector */
    var piVector: Vec2
    var cpu4: seq<real>
    /** `mem_bank`: stored CPU4 snapshots, oldest first */
    var memBank: seq<seq<real>>
    /** `target_id`: the active memory, `None` meaning steer by the home vector */
    var targetId: Option<nat>
    /** the memory comparison signal */
    var cpu1: seq<real>

    ghost predicate Valid()
      reads this
    {
      && |cpu4| == NCols
      && |cpu1| == NCols
      && (forall k :: 0 <= k < |memBank| ==> |memBank[k]| == NCols)
      && (targetId.Some? ==> targetId.value < |memBank|)
    }

    constructor ()
      ensures Valid()
      ensures pos == Nest && piVector == Origin && cpu4 == Zeros(NCols) && cpu1 == Zeros(NCols)
      ensures memBank == [] && targetId == None
    {
      pos := Nest;
      piVector := Origin;
      cpu4 := Zeros(NCols);
      memBank := [];
      targetId := None;
      cpu1 := Zeros(NCols);
    }

    /** `update_cpu4`, with the encoding of the current home vector given. */
    method UpdateCpu4(encoding: seq<real>)
      requires Valid() && |encoding| == NCols
      modifies this
      ensures Valid()
      ensures cpu4 == Encoding(piVector, encoding)
      ensures pos == old(pos) && piVector == old(piVector) && memBank == old(memBank)
      ensures targetId == old(targetId) && cpu1 == old(cpu1)
    {
      cpu4 := Encoding(piVector, encoding);
    }

    /** `recall_memory` */
    method RecallMemory()
      requires Valid()
      modifies this
      ensures Valid()
      ensures cpu1 == Comparison(memBank, targetId, cpu4)
      ensures pos == old(pos) && piVector == old(piVector) && cpu4 == old(cpu4)
      ensures memBank == old(memBank) && targetId == old(targetId)
    {
      if targetId.None? {
        cpu1 := Zeros(|cpu1|);
        return;
      }
      cpu1 := Sub(memBank[targetId.value], cpu4);
    }

    /**
     * `store_memory`: appends the current CPU4 pattern scaled by `MEM_REWARD`;
     * the first memory becomes the target if there is none.
     */
    method StoreMemory()
      requires Valid()
      modifies this
      ensures Valid()
      ensures memBank == old(memBank) + [Scale(old(cpu4), MemReward)]
      ensures targetId == if old(targetId).None? then Some(0) else old(targetId)
      ensures pos == old(pos) && piVector == old(piVector) && cpu4 == old(cpu4) && cpu1 == old(cpu1)
    {
      memBank := memBank + [Scale(cpu4, MemReward)];
      if targetId.None? {
        targetId := Some(0);
      }
    }

    /** `select_nearest_food`: no-op on an empty bank. */
    method SelectNearestFood()
      requires Valid()
      modifies this
      ensures Valid()
      ensures memBank == [] ==> targetId == old(targetId)
      ensures memBank != [] ==> targetId == Some(NearestMemory(memBank))
      ensures pos == old(pos) && piVector == old(piVector) && cpu4 == old(cpu4)
      ensures memBank == old(memBank) && cpu1 == old(cpu1)
    {
      if memBank == [] {
        return;
      }
      targetId := Some(NearestMemory(memBank));
    }

    /**
     * The reset of `step` at the nest: the home vector is zeroed and stays
     * zero through the ten recalibration iterations, the comparison signal
     * is refreshed for the old target, then the nearest memory is chosen.
     */
    method ResetAtNest()
      requires Valid()
      modifies this
      ensures Valid()
      ensures pos == old(pos) && memBank == old(memBank)
      ensures piVector == Origin && cpu4 == Zeros(NCols)
      ensures cpu1 == Comparison(memBank, old(targetId), Zeros(NCols))
      ensures memBank == [] ==> targetId == old(targetId)
      ensures memBank != [] ==> targetId == Some(NearestMemory(memBank))
    {
      piVector := Origin;
      UpdateCpu4(Zeros(NCols));
      RecallMemory();
      for i := 0 to RecalibIterations
        invariant Valid()
        invariant pos == old(pos) && memBank == old(memBank) && targetId == old(targetId)
        invariant piVector == Origin && cpu4 == Zeros(NCols)
        invariant cpu1 == Comparison(memBank, old(targetId), Zeros(NCols))
      {
        piVector := Times(piVector, 1.0 - RecalibRate);
        UpdateCpu4(Zeros(NCols));
      }
      SelectNearestFood();
    }

    /**
     * The discrete part of `step`. `delta` is the displacement the steering
     * and the heading produce; `encoding` is the CPU4 encoding of the home
     * vector after the move.
     */
    method Step(delta: Vec2, encoding: seq<real>)
      requires Valid() && |encoding| == NCols
      modifies this
      ensures Valid()
      ensures pos == Plus(old(pos), delta)
      ensures piVector ==
                Times(Minus(if Within(old(pos), Nest) then Origin else old(piVector), delta), PathDecay)
      ensures memBank == old(memBank) +
                (if StoresMemory(FoodAt(old(pos)), |old(memBank)|)
                 then [Scale(if Within(old(pos), Nest) then Zeros(NCols) else old(cpu4), MemReward)]
                 else [])
      ensures targetId == TargetAfterStep(old(targetId), old(memBank), Within(old(pos), Nest), FoodAt(old(pos)))
      ensures cpu4 == Encoding(piVector, encoding)
      ensures cpu1 == Comparison(memBank, targetId, cpu4)
      ensures |memBank| <= |old(memBank)| + 1
      ensures |old(memBank)| <= |FoodLocs| ==> |memBank| <= |FoodLocs|
    {
      var atNest := Within(pos, Nest);
      var atFood := DetectFood(pos);

      if atNest {
        ResetAtNest();
      }

      if atFood.Some? && atFood.value >= |memBank| {
        StoreMemory();
      }

      if memBank != [] && atFood.Some? {
        targetId := None;
      }

      pos := Plus(pos, delta);
      piVector := Times(Minus(piVector, delta), PathDecay);
      UpdateCpu4(encoding);
      RecallMemory();
    }
  }

}
