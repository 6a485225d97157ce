/** The nearest-player scan shared by ball ownership (src/inference.py) and track
    re-attachment (src/tracker.py): players are visited in order and a later player
    replaces the current best only when it is strictly closer, so the first of several
    equally close players wins. Distances are compared squared; the square root the
    source takes first is strictly monotone on non-negative reals and does not change
    which player is chosen. */
module Nearest {
  import opened Common
  import opened Models

  function SqDist(ax: real, ay: real, qx: real, qy: real): real
  {
    (ax - qx) * (ax - qx) + (ay - qy) * (ay - qy)
  }

  /** Squared distance from the point (x, y) to the centre of player p. */
  function SqDistTo(x: real, y: real, p: PlayerDetection): real
  {
    SqDist(x, y, p.x, p.y)
  }

  /** k is the first index of a player at minimal distance from (x, y). */
  ghost predicate IsFirstNearest(x: real, y: real, ps: seq<PlayerDetection>, k: int)
  {
    && 0 <= k < |ps|
    && (forall j :: 0 <= j < |ps| ==> SqDistTo(x, y, ps[k]) <= SqDistTo(x, y, ps[j]))
    && (forall j :: 0 <= j < k ==> SqDistTo(x, y, ps[k]) < SqDistTo(x, y, ps[j]))
  }

  /** The index the scan ends on, defined the way the scan runs: over the prefix without
      the last player, which replaces that prefix's winner only when strictly closer. */
  function NearestIndex(x: real, y: real, ps: seq<PlayerDetection>): (k: nat)
    requires ps != []
    ensures IsFirstNearest(x, y, ps, k)
    decreases |ps|
  {
    if |ps| == 1 then 0
    else
      var k := NearestIndex(x, y, ps[..|ps| - 1]);
      if SqDistTo(x, y, ps[|ps| - 1]) < SqDistTo(x, y, ps[k]) then |ps| - 1 else k
  }

  /** At most one index is the first nearest one. */
  lemma FirstNearestUnique(x: real, y: real, ps: seq<PlayerDetection>, k1: int, k2: int)
    requires IsFirstNearest(x, y, ps, k1) && IsFirstNearest(x, y, ps, k2)
    ensures k1 == k2
  {
    assert SqDistTo(x, y, ps[k1]) == SqDistTo(x, y, ps[k2]);
  }

  /** The scan of src/inference.py:255-264 and src/tracker.py:105-112. `best == None`
      stands for the source's starting `min_distance = inf` with no player chosen yet. */
  method ScanNearest(x: real, y: real, ps: seq<PlayerDetection>) returns (best: Option<nat>, bestSq: real)
    ensures best.None? <==> ps == []
    ensures best.Some? ==> IsFirstNearest(x, y, ps, best.value)
    ensures best.Some? ==> bestSq == SqDistTo(x, y, ps[best.value])
  {
    best, bestSq := None, 0.0;
    var i := 0;
    while i < |ps|
      invariant 0 <= i <= |ps|
      invariant best.None? <==> i == 0
      invariant best.Some? ==> IsFirstNearest(x, y, ps[..i], best.value)
      invariant best.Some? ==> bestSq == SqDistTo(x, y, ps[best.value])
    {
      var d := SqDistTo(x, y, ps[i]);
      if best.None? || d < bestSq {
        best, bestSq := Some(i), d;
      }
      i := i + 1;
    }
    assert ps[..i] == ps;
  }
}
