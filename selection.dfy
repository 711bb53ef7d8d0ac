/**
 * The discrete choices the navigators make on numbers: `np.clip` of a turn
 * command to the steering range, and numpy's `argmax`/`argmin`, which
 * return the FIRST index of an extreme value.
 */
module Selection {

  /** The steering range of `generate_steering_command`: [-MaxTurn, MaxTurn]. */
  const MaxTurn: real := 0.5

  function Dist(a: real, b: real): real { if a < b then b - a else a - b }

  /**
   * `np.clip(turn, -0.5, 0.5)`: the point of the steering range closest to
   * the requested turn.
   */
  function ClipTurn(turn: real): (r: real)
    ensures -MaxTurn <= r <= MaxTurn
    ensures -MaxTurn <= turn <= MaxTurn ==> r == turn
    ensures forall q :: -MaxTurn <= q <= MaxTurn ==> Dist(r, turn) <= Dist(q, turn)
  {
    if turn < -MaxTurn then -MaxTurn else if turn > MaxTurn then MaxTurn else turn
  }

  /** `np.argmax(s)`: the first index at which `s` takes its maximum. */
  function FirstArgMax(s: seq<int>): (k: nat)
    requires |s| > 0
    ensures k < |s|
    ensures forall j :: 0 <= j < |s| ==> s[j] <= s[k]
    ensures forall j :: 0 <= j < k ==> s[j] < s[k]
    decreases |s|
  {
    if |s| == 1 then 0
    else
      var k := FirstArgMax(s[..|s| - 1]);
      if s[|s| - 1] > s[k] then |s| - 1 else k
  }

  /** `np.argmin(s)`: the first index at which `s` takes its minimum. */
  function FirstArgMin(s: seq<real>): (k: nat)
    requires |s| > 0
    ensures k < |s|
    ensures forall j :: 0 <= j < |s| ==> s[k] <= s[j]
    ensures forall j :: 0 <= j < k ==> s[k] < s[j]
    decreases |s|
  {
    if |s| == 1 then 0
    else
      var k := FirstArgMin(s[..|s| - 1]);
      if s[|s| - 1] < s[k] then |s| - 1 else k
  }

}
