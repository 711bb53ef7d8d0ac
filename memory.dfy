/**
 * CPU1 vector memory: a bounded list of (activity pattern, strength) pairs.
 * Storing into a full list evicts the oldest entry first; recall is
 * bounds-checked; consolidation raises one strength up to a cap. The class
 * covers both navigator variants; `StoreWithInterference` and `Consolidate`
 * are the exploration variant's.
 */
module VectorMemory {
  import opened Wrappers
  import opened Vectors

  /** Number of CPU1 neurons (`self.n`): every pattern has one value per neuron. */
  const Neurons: nat := 16

  /** The default `n_memories` the navigators construct their memory with. */
  const DefaultCapacity: nat := 4

  /** The strength a navigator stores a discovery with (`reward_strength=1.0`). */
  const RewardStrength: real := 1.0

  const StrengthIncrement: real := 0.1
  const MaxStrength: real := 2.0

  datatype Memory = Memory(activity: seq<real>, strength: real)

  /**
   * The list after storing `m` into `ms` with room for `capacity` entries:
   * at or over capacity the oldest entry (index 0) is dropped first. `None`
   * stands for the IndexError `pop(0)` raises on an empty list, which happens
   * exactly when the capacity is 0.
   */
  function Stored(ms: seq<Memory>, capacity: nat, m: Memory): (r: Option<seq<Memory>>)
    ensures r.None? <==> ms == [] && capacity == 0
    ensures r.Some? ==> |r.value| > 0 && r.value[|r.value| - 1] == m
    ensures |ms| < capacity ==> r.Some? && |r.value| == |ms| + 1 && r.value[..|ms|] == ms
    ensures |ms| >= capacity && ms != [] ==>
              r.Some? && |r.value| == |ms| && r.value[..|ms| - 1] == ms[1..]
    ensures |ms| <= capacity && r.Some? ==> |r.value| <= capacity
  {
    if |ms| >= capacity then
      if ms == [] then None else Some(ms[1..] + [m])
    else
      Some(ms + [m])
  }

  /** The list after storing each of `items` in turn, as successive `store` calls do. */
  function StoredAll(ms: seq<Memory>, capacity: nat, items: seq<Memory>): seq<Memory>
    requires capacity > 0
    decreases |items|
  {
    if items == [] then ms
    else StoredAll(Stored(ms, capacity, items[0]).value, capacity, items[1..])
  }

  /**
   * First-in-first-out: after any run of stores the list holds exactly the
   * newest `capacity` entries (or all of them, if fewer) in storage order.
   */
  lemma {:induction false} StoredAllKeepsNewest(ms: seq<Memory>, capacity: nat, items: seq<Memory>)
    requires capacity > 0 && |ms| <= capacity
    ensures var all := ms + items;
            var r := StoredAll(ms, capacity, items);
            |r| == (if |all| < capacity then |all| else capacity) && r == all[|all| - |r|..]
    decreases |items|
  {
    if items == [] {
      assert ms + items == ms;
    } else {
      var all := ms + items;
      var grown := ms + [items[0]];
      var next := Stored(ms, capacity, items[0]).value;
      var k := if |ms| < capacity then 0 else 1;
      assert next == grown[k..];
      var rest := items[1..];
      var all' := next + rest;
      var r := StoredAll(next, capacity, rest);
      assert r == StoredAll(ms, capacity, items);
      assert all == grown + rest;
      SuffixAppend(grown, rest, k);
      assert all' == all[k..];
      StoredAllKeepsNewest(next, capacity, rest);
      assert |r| == (if |all'| < capacity then |all'| else capacity);
      assert |r| == (if |all| < capacity then |all| else capacity);
      assert r == all'[|all'| - |r|..];
      SuffixOfSuffix(all', all, |r|);
      assert r == all[|all| - |r|..];
    }
  }

  /** Dropping a prefix commutes with appending. */
  lemma SuffixAppend<T>(a: seq<T>, b: seq<T>, k: nat)
    requires k <= |a|
    ensures a[k..] + b == (a + b)[k..]
  {
  }

  /** A suffix of a suffix of `b` is a suffix of `b`. */
  lemma SuffixOfSuffix<T>(a: seq<T>, b: seq<T>, n: nat)
    requires |a| <= |b| && a == b[|b| - |a|..] && n <= |a|
    ensures a[|a| - n..] == b[|b| - n..]
  {
  }

  /** `min(strength + 0.1, 2.0)` */
  function Strengthened(strength: real): (r: real)
    ensures r <= MaxStrength
    ensures strength <= MaxStrength ==> strength <= r
    ensures r == strength + StrengthIncrement || r == MaxStrength
    ensures r <= strength + StrengthIncrement
  {
    if strength + StrengthIncrement < MaxStrength then strength + StrengthIncrement else MaxStrength
  }

  class CPU1Memory {
    /** `n_memories` */
    const capacity: nat
    /** `memories`, oldest first */
    var memories: seq<Memory>

    ghost predicate Valid()
      reads this
    {
      && |memories| <= capacity
      && forall k :: 0 <= k < |memories| ==> |memories[k].activity| == Neurons
    }

    constructor (nMemories: nat)
      ensures Valid()
      ensures capacity == nMemories && memories == []
    {
      capacity := nMemories;
      memories := [];
    }

    /**
     * `store`: appends a copy of the activity with the given strength,
     * evicting the oldest entry when full. `ok` is false when `pop(0)` would
     * raise (capacity 0); the list is then unchanged.
     */
    method Store(activity: seq<real>, rewardStrength: real) returns (ok: bool)
      requires Valid() && |activity| == Neurons
      modifies this
      ensures Valid()
      ensures ok <==> capacity > 0
      ensures ok ==> memories == Stored(old(memories), capacity, Memory(activity, rewardStrength)).value
      ensures !ok ==> memories == old(memories)
    {
      if |memories| >= capacity {
        if memories == [] {
          return false;
        }
        memories := memories[1..];
      }
      memories := memories + [Memory(activity, rewardStrength)];
      ok := true;
    }

    /**
     * The exploration variant's `store`: what is kept is the activity plus
     * the interference noise, given here as an input vector.
     */
    method StoreWithInterference(activity: seq<real>, noise: seq<real>, rewardStrength: real)
      returns (ok: bool)
      requires Valid() && |activity| == Neurons && |noise| == Neurons
      modifies this
      ensures Valid()
      ensures ok <==> capacity > 0
      ensures ok ==> memories == Stored(old(memories), capacity, Memory(Add(activity, noise), rewardStrength)).value
      ensures !ok ==> memories == old(memories)
    {
      if |memories| >= capacity {
        if memories == [] {
          return false;
        }
        memories := memories[1..];
      }
      memories := memories + [Memory(Add(activity, noise), rewardStrength)];
      ok := true;
    }

    /** `recall`: the stored pattern, or a zero pattern for an index out of range. */
    function Recall(memoryId: int): (p: seq<real>)
      requires Valid()
      reads this
      ensures |p| == Neurons
      ensures 0 <= memoryId < |memories| ==> p == memories[memoryId].activity
      ensures !(0 <= memoryId < |memories|) ==> forall i :: 0 <= i < |p| ==> p[i] == 0.0
    {
      if 0 <= memoryId < |memories| then memories[memoryId].activity else Zeros(Neurons)
    }

    /** `get_memory_strengths`: the strengths, in storage order. */
    function MemoryStrengths(): (s: seq<real>)
      reads this
      ensures |s| == |memories|
      ensures forall k :: 0 <= k < |s| ==> s[k] == memories[k].strength
    {
      seq(|memories|, k requires 0 <= k < |memories| reads this => memories[k].strength)
    }

    /**
     * `consolidate`: raises the strength of one entry by 0.1, capped at 2.0;
     * an index out of range changes nothing.
     */
    method Consolidate(memoryId: int)
      requires Valid()
      modifies this
      ensures Valid()
      ensures 0 <= memoryId < |old(memories)| ==>
                memories == old(memories)[memoryId := Memory(old(memories)[memoryId].activity,
                                                             Strengthened(old(memories)[memoryId].strength))]
      ensures !(0 <= memoryId < |old(memories)|) ==> memories == old(memories)
    {
      if 0 <= memoryId < |memories| {
        var entry := memories[memoryId];
        memories := memories[memoryId := Memory(entry.activity, Strengthened(entry.strength))];
      }
    }
  }

}
