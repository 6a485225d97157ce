/** Detection post-processing of src/inference.py: splitting the detector's boxes into
    the ball and the players, sampling each player's uniform colour, labelling teams and
    deciding who owns the ball. The detector, KMeans, image decoding, the pixel mean and
    the square root are outside the model and come in as parameters. */
module Inference {
  import opened Common
  import opened Config
  import opened Models
  import opened Nearest

  /** An axis-aligned box in pixels, `[x1, y1, x2, y2]`. */
  datatype Box = Box(x1: real, y1: real, x2: real, y2: real)

  /** One detector box: class id, box and confidence. */
  datatype Detection = Detection(classId: int, box: Box, confidence: real)

  /** A rectangle of image rows `rowStart..rowEnd` and columns `colStart..colEnd`. */
  datatype Region = Region(rowStart: int, rowEnd: int, colStart: int, colEnd: int)

  /** Mean channel values in OpenCV's order. */
  datatype Bgr = Bgr(b: real, g: real, r: real)

  /** A decoded image: its size and the mean colour of each of its regions. */
  datatype Frame = Frame(rows: nat, cols: nat, meanBgr: Region -> Bgr)

  const NEUTRAL_GREY: Rgb := Rgb(128, 128, 128)

  /** Python's `int(v)` and numpy's `astype(int)`: truncation toward zero. */
  function Trunc(v: real): (n: int)
    ensures 0.0 <= v ==> 0 <= n && n as real <= v < n as real + 1.0
    ensures v < 0.0 ==> n <= 0 && n as real - 1.0 < v <= n as real
  {
    if v >= 0.0 then v.Floor else -((-v).Floor)
  }

  // ---------------------------------------------------------------------------
  // Ball and player records from boxes
  // ---------------------------------------------------------------------------

  /** The ball record built from a box (src/inference.py:130-137). */
  function BallOf(d: Detection): (b: BallDetection)
    ensures b.x - b.width / 2.0 == d.box.x1 && b.x + b.width / 2.0 == d.box.x2
    ensures b.y - b.height / 2.0 == d.box.y1 && b.y + b.height / 2.0 == d.box.y2
    ensures b.confidence == d.confidence
  {
    BallDetection(
      (d.box.x1 + d.box.x2) / 2.0, (d.box.y1 + d.box.y2) / 2.0,
      d.box.x2 - d.box.x1, d.box.y2 - d.box.y1, d.confidence)
  }

  /** `_extract_ball`: the FIRST ball-class box in detector order, not the most confident. */
  method ExtractBall(ds: seq<Detection>) returns (ball: Option<BallDetection>)
    ensures ball.None? <==> forall i :: 0 <= i < |ds| ==> ds[i].classId != BALL_CLASS_ID
    ensures ball.Some? ==>
      exists k :: && 0 <= k < |ds| && ds[k].classId == BALL_CLASS_ID
                  && (forall j :: 0 <= j < k ==> ds[j].classId != BALL_CLASS_ID)
                  && ball.value == BallOf(ds[k])
  {
    var i := 0;
    while i < |ds|
      invariant 0 <= i <= |ds|
      invariant forall j :: 0 <= j < i ==> ds[j].classId != BALL_CLASS_ID
    {
      if ds[i].classId == BALL_CLASS_ID {
        return Some(BallOf(ds[i]));
      }
      i := i + 1;
    }
    return None;
  }

  /** Indices of the person-class boxes, in detector order. */
  function PersonIndices(ds: seq<Detection>): (idx: seq<nat>)
    ensures forall k :: 0 <= k < |idx| ==> idx[k] < |ds| && ds[idx[k]].classId == PERSON_CLASS_ID
    ensures forall i :: 0 <= i < |ds| && ds[i].classId == PERSON_CLASS_ID ==> i in idx
    ensures forall k1, k2 :: 0 <= k1 < k2 < |idx| ==> idx[k1] < idx[k2]
  {
    if ds == [] then []
    else
      PersonIndices(ds[..|ds| - 1])
      + (if ds[|ds| - 1].classId == PERSON_CLASS_ID then [|ds| - 1] else [])
  }

  /** Label 0 is "home"; every other label is "away" (src/inference.py:175). */
  function TeamOf(cluster: int): (t: Team)
    ensures t == Home <==> cluster == 0
  {
    if cluster == 0 then Home else Away
  }

  /** The player record built from box number i (src/inference.py:170-188): the id is the
      index among ALL boxes, and no roster attribute is set yet. */
  function PlayerOf(i: nat, d: Detection, color: Rgb, cluster: int): (p: PlayerDetection)
    ensures p.id == i && p.color == color && p.confidence == d.confidence
    ensures p.team == Home <==> cluster == 0
    ensures p.x - p.width / 2.0 == d.box.x1 && p.x + p.width / 2.0 == d.box.x2
    ensures p.y - p.height / 2.0 == d.box.y1 && p.y + p.height / 2.0 == d.box.y2
    ensures p.number.None? && p.name.None? && p.position.None?
  {
    PlayerDetection(
      i, (d.box.x1 + d.box.x2) / 2.0, (d.box.y1 + d.box.y2) / 2.0,
      d.box.x2 - d.box.x1, d.box.y2 - d.box.y1,
      TeamOf(cluster), color, d.confidence, None, None, None)
  }

  // ---------------------------------------------------------------------------
  // Uniform colour
  // ---------------------------------------------------------------------------

  /** The torso band: rows from 30% to 60% of the box height, the box's columns, all
      after truncating the box to integers (src/inference.py:199-204). */
  function UniformRegion(box: Box): (r: Region)
    ensures r.colStart == Trunc(box.x1) && r.colEnd == Trunc(box.x2)
    ensures 0 <= Trunc(box.y1) <= Trunc(box.y2) ==>
              Trunc(box.y1) <= r.rowStart <= r.rowEnd <= Trunc(box.y2)
    ensures Trunc(box.y1) == Trunc(box.y2) ==> r.rowStart == r.rowEnd
  {
    var y1, y2 := Trunc(box.y1), Trunc(box.y2);
    var h := y2 - y1;
    var r := Region(Trunc(y1 as real + h as real * 0.3), Trunc(y1 as real + h as real * 0.6),
                    Trunc(box.x1), Trunc(box.x2));
    assert 0 <= y1 <= y2 ==> y1 <= r.rowStart <= r.rowEnd <= y2 by {
      if 0 <= y1 <= y2 { BandBounds(y1, h); }
    }
    r
  }

  lemma BandBounds(y1: int, h: int)
    requires 0 <= y1 && 0 <= h
    ensures y1 <= Trunc(y1 as real + h as real * 0.3)
    ensures Trunc(y1 as real + h as real * 0.3) <= Trunc(y1 as real + h as real * 0.6)
    ensures Trunc(y1 as real + h as real * 0.6) <= y1 + h
  {
    var a, b := y1 as real + h as real * 0.3, y1 as real + h as real * 0.6;
    assert y1 as real <= a <= b <= (y1 + h) as real;
    FloorMonotone(y1 as real, a);
    FloorMonotone(a, b);
    FloorMonotone(b, (y1 + h) as real);
  }

  lemma FloorMonotone(u: real, v: real)
    requires 0.0 <= u <= v
    ensures Trunc(u) <= Trunc(v)
  {
  }

  /** Python slice bound normalisation for a dimension of length n: a negative bound
      counts from the end, and the result is clamped to 0..n. */
  function SliceBound(a: int, n: nat): (r: int)
    ensures 0 <= r <= n
    ensures 0 <= a <= n ==> r == a
    ensures -(n as int) <= a < 0 ==> r == a + n
    ensures a < -(n as int) ==> r == 0
    ensures a > n ==> r == n
  {
    if a < 0 then (if a + n < 0 then 0 else a + n)
    else if a > n then n else a
  }

  /** The region `frame[rowStart:rowEnd, colStart:colEnd]` actually selects. */
  function Clip(region: Region, frame: Frame): (c: Region)
    ensures 0 <= c.rowStart <= frame.rows && 0 <= c.rowEnd <= frame.rows
    ensures 0 <= c.colStart <= frame.cols && 0 <= c.colEnd <= frame.cols
    ensures && 0 <= region.rowStart <= frame.rows && 0 <= region.rowEnd <= frame.rows
            && 0 <= region.colStart <= frame.cols && 0 <= region.colEnd <= frame.cols
            ==> c == region
  {
    Region(SliceBound(region.rowStart, frame.rows), SliceBound(region.rowEnd, frame.rows),
           SliceBound(region.colStart, frame.cols), SliceBound(region.colEnd, frame.cols))
  }

  /** The selected region holds no pixel: `uniform_region.size == 0`. */
  predicate RegionIsEmpty(region: Region, frame: Frame)
    ensures frame.rows == 0 || frame.cols == 0 ==> RegionIsEmpty(region, frame)
    ensures 0 <= region.rowEnd <= region.rowStart ==> RegionIsEmpty(region, frame)
  {
    var c := Clip(region, frame);
    c.rowEnd <= c.rowStart || c.colEnd <= c.colStart
  }

  /** `_extract_uniform_color`: the mean colour of the torso band, channels reordered
      from BGR to RGB and truncated, or neutral grey when the band holds no pixel. */
  function ExtractUniformColor(box: Box, frame: Frame): (c: Rgb)
    ensures RegionIsEmpty(UniformRegion(box), frame) ==> c == NEUTRAL_GREY
    ensures !RegionIsEmpty(UniformRegion(box), frame) ==>
              var m := frame.meanBgr(Clip(UniformRegion(box), frame));
              c.r == Trunc(m.r) && c.g == Trunc(m.g) && c.b == Trunc(m.b)
  {
    var region := UniformRegion(box);
    if RegionIsEmpty(region, frame) then NEUTRAL_GREY
    else
      var m := frame.meanBgr(Clip(region, frame));
      Rgb(Trunc(m.r), Trunc(m.g), Trunc(m.b))
  }

  /** A box whose truncated height is zero samples no pixel, so its colour is grey
      whatever the image holds. */
  lemma ZeroHeightBoxIsGrey(box: Box, frame: Frame)
    requires Trunc(box.y1) == Trunc(box.y2)
    ensures ExtractUniformColor(box, frame) == NEUTRAL_GREY
  {
  }

  // ---------------------------------------------------------------------------
  // Teams
  // ---------------------------------------------------------------------------

  /** What KMeans promises: one label per colour. */
  ghost predicate LabelsEachColor(kmeans: seq<Rgb> -> seq<int>)
  {
    forall cs :: |kmeans(cs)| == |cs|
  }

  /** `_cluster_teams`: with fewer colours than teams every player gets label 0;
      otherwise the labels are whatever KMeans returns for this frame alone. */
  function ClusterTeams(colors: seq<Rgb>, kmeans: seq<Rgb> -> seq<int>): (labels: seq<int>)
    requires LabelsEachColor(kmeans)
    ensures |labels| == |colors|
    ensures |colors| < N_TEAMS ==> forall k :: 0 <= k < |labels| ==> labels[k] == 0
    ensures |colors| < N_TEAMS ==> forall k :: 0 <= k < |labels| ==> TeamOf(labels[k]) == Home
  {
    if |colors| < N_TEAMS then seq(|colors|, _ => 0) else kmeans(colors)
  }

  /** The colour sampled for each person box, in order. */
  function UniformColors(ds: seq<Detection>, idx: seq<nat>, frame: Frame): (cs: seq<Rgb>)
    requires forall k :: 0 <= k < |idx| ==> idx[k] < |ds|
    ensures |cs| == |idx|
    ensures forall k :: 0 <= k < |idx| ==> cs[k] == ExtractUniformColor(ds[idx[k]].box, frame)
  {
    seq(|idx|, k requires 0 <= k < |idx| => ExtractUniformColor(ds[idx[k]].box, frame))
  }

  /** The first loop of `_extract_players` (src/inference.py:149-153). */
  method CollectPersonIndices(ds: seq<Detection>) returns (personIndices: seq<nat>)
    ensures personIndices == PersonIndices(ds)
  {
    personIndices := [];
    var i := 0;
    while i < |ds|
      invariant 0 <= i <= |ds|
      invariant personIndices == PersonIndices(ds[..i])
    {
      assert ds[..i + 1][..i] == ds[..i];
      if ds[i].classId == PERSON_CLASS_ID {
        personIndices := personIndices + [i];
      }
      i := i + 1;
    }
    assert ds[..i] == ds;
  }

  /** The second loop of `_extract_players` (src/inference.py:159-163). */
  method SampleUniformColors(ds: seq<Detection>, personIndices: seq<nat>, frame: Frame)
    returns (uniformColors: seq<Rgb>)
    requires forall k :: 0 <= k < |personIndices| ==> personIndices[k] < |ds|
    ensures uniformColors == UniformColors(ds, personIndices, frame)
  {
    uniformColors := [];
    var k := 0;
    while k < |personIndices|
      invariant 0 <= k <= |personIndices|
      invariant |uniformColors| == k
      invariant forall m :: 0 <= m < k ==>
                  uniformColors[m] == ExtractUniformColor(ds[personIndices[m]].box, frame)
    {
      uniformColors := uniformColors + [ExtractUniformColor(ds[personIndices[k]].box, frame)];
      k := k + 1;
    }
  }

  /** The third loop of `_extract_players` (src/inference.py:169-188). */
  method BuildPlayers(ds: seq<Detection>, personIndices: seq<nat>, uniformColors: seq<Rgb>, teamLabels: seq<int>)
    returns (players: seq<PlayerDetection>)
    requires forall k :: 0 <= k < |personIndices| ==> personIndices[k] < |ds|
    requires |uniformColors| == |personIndices| == |teamLabels|
    ensures |players| == |personIndices|
    ensures forall j :: 0 <= j < |players| ==>
              players[j] == PlayerOf(personIndices[j], ds[personIndices[j]], uniformColors[j], teamLabels[j])
  {
    players := [];
    var k := 0;
    while k < |personIndices|
      invariant 0 <= k <= |personIndices|
      invariant |players| == k
      invariant forall j :: 0 <= j < k ==>
                  players[j] == PlayerOf(personIndices[j], ds[personIndices[j]], uniformColors[j], teamLabels[j])
    {
      var i := personIndices[k];
      players := players + [PlayerOf(i, ds[i], uniformColors[k], teamLabels[k])];
      k := k + 1;
    }
  }

  /** `_extract_players`: one player per person box, in detector order; the id of each
      is the index of its box among all boxes. */
  method ExtractPlayers(ds: seq<Detection>, frame: Frame, kmeans: seq<Rgb> -> seq<int>)
    returns (players: seq<PlayerDetection>)
    requires LabelsEachColor(kmeans)
    ensures |players| == |PersonIndices(ds)|
    ensures
      var idx := PersonIndices(ds);
      var colors := UniformColors(ds, idx, frame);
      var labels := ClusterTeams(colors, kmeans);
      forall j :: 0 <= j < |players| ==> players[j] == PlayerOf(idx[j], ds[idx[j]], colors[j], labels[j])
  {
    var personIndices := CollectPersonIndices(ds);
    if personIndices == [] {
      return [];
    }
    var uniformColors := SampleUniformColors(ds, personIndices, frame);
    var teamLabels := ClusterTeams(uniformColors, kmeans);
    players := BuildPlayers(ds, personIndices, uniformColors, teamLabels);
  }

  // ---------------------------------------------------------------------------
  // Ball ownership
  // ---------------------------------------------------------------------------

  function Square(r: real): real
  {
    r * r
  }

  /** What the square root the source calls (`np.sqrt`) is taken to satisfy: it is
      strictly increasing on the non-negative reals and undoes squaring there. */
  ghost predicate IsSqrt(sqrt: real -> real)
  {
    && (forall u, v :: 0.0 <= u < v ==> sqrt(u) < sqrt(v))
    && (forall r :: 0.0 <= r ==> sqrt(Square(r)) == r)
  }

  /** `clamp(1 - d / max, 0.5, 1.0)` (src/inference.py:271-272). The clamp makes the
      confidence 0.5 for every distance between half the maximum and the maximum. */
  function OwnerConfidence(d: real): (c: real)
    ensures 0.5 <= c <= 1.0
    ensures d == 0.0 ==> c == 1.0
    ensures 0.0 <= d <= BALL_OWNER_MAX_DISTANCE / 2.0 ==> c == 1.0 - d / BALL_OWNER_MAX_DISTANCE
    ensures BALL_OWNER_MAX_DISTANCE / 2.0 <= d ==> c == 0.5
  {
    MaxReal(0.5, MinReal(1.0, 1.0 - d / BALL_OWNER_MAX_DISTANCE))
  }

  /** The possession claim of `_calculate_ball_owner`, as a function of its inputs. */
  function BallOwnerOf(ball: Option<BallDetection>, players: seq<PlayerDetection>, sqrt: real -> real)
    : (r: Option<BallOwner>)
    ensures r.Some? ==> ball.Some? && players != []
    ensures r.Some? ==> exists i :: 0 <= i < |players| && players[i].id == r.value.playerId
    ensures r.Some? ==> r.value.distance <= BALL_OWNER_MAX_DISTANCE
    ensures r.Some? ==> 0.5 <= r.value.confidence <= 1.0
    ensures r.Some? ==> r.value.confidence == OwnerConfidence(r.value.distance)
  {
    if ball.None? || players == [] then None
    else
      var k := NearestIndex(ball.value.x, ball.value.y, players);
      var d := sqrt(SqDistTo(ball.value.x, ball.value.y, players[k]));
      if d > BALL_OWNER_MAX_DISTANCE then None
      else Some(BallOwner(players[k].id, d, OwnerConfidence(d)))
  }

  /** `_calculate_ball_owner` (src/inference.py:251-278). */
  method CalculateBallOwner(ball: Option<BallDetection>, players: seq<PlayerDetection>, sqrt: real -> real)
    returns (owner: Option<BallOwner>)
    ensures owner == BallOwnerOf(ball, players, sqrt)
  {
    if ball.None? || |players| == 0 {
      return None;
    }
    var closest, minSq := ScanNearest(ball.value.x, ball.value.y, players);
    FirstNearestUnique(ball.value.x, ball.value.y, players, closest.value,
                       NearestIndex(ball.value.x, ball.value.y, players));
    var minDistance := sqrt(minSq);
    if minDistance > BALL_OWNER_MAX_DISTANCE {
      return None;
    }
    var confidence := OwnerConfidence(minDistance);
    owner := Some(BallOwner(players[closest.value].id, minDistance, confidence));
  }

  /** On a non-negative argument the square root exceeds the maximum distance exactly
      when its argument exceeds the maximum squared, and equals it exactly when the
      argument equals the maximum squared. */
  lemma SqrtAgainstMax(sqrt: real -> real, v: real)
    requires IsSqrt(sqrt) && 0.0 <= v
    ensures sqrt(v) > BALL_OWNER_MAX_DISTANCE <==> v > Square(BALL_OWNER_MAX_DISTANCE)
    ensures sqrt(v) == BALL_OWNER_MAX_DISTANCE <==> v == Square(BALL_OWNER_MAX_DISTANCE)
  {
    var m2 := Square(BALL_OWNER_MAX_DISTANCE);
    assert sqrt(m2) == BALL_OWNER_MAX_DISTANCE;
    if v > m2 {
      assert sqrt(m2) < sqrt(v);
    } else if v < m2 {
      assert sqrt(v) < sqrt(m2);
    }
  }

  /** The square root is non-negative, and zero exactly at zero. */
  lemma SqrtZero(sqrt: real -> real, v: real)
    requires IsSqrt(sqrt) && 0.0 <= v
    ensures 0.0 <= sqrt(v)
    ensures sqrt(v) == 0.0 <==> v == 0.0
  {
    assert sqrt(Square(0.0)) == 0.0;
    if v > 0.0 {
      assert sqrt(0.0) < sqrt(v);
    }
  }

  /** No claim without a ball or without players (src/inference.py:251-252). */
  lemma NoOwnerWithoutBallOrPlayers(ball: Option<BallDetection>, players: seq<PlayerDetection>, sqrt: real -> real)
    requires ball.None? || players == []
    ensures BallOwnerOf(ball, players, sqrt).None?
  {
  }

  /** A claim names the first nearest player and reports its true distance with a
      confidence in [0.5, 1.0] (src/inference.py:255-278). */
  lemma OwnerIsFirstNearest(ball: Option<BallDetection>, players: seq<PlayerDetection>, sqrt: real -> real)
    requires IsSqrt(sqrt)
    ensures
      var owner := BallOwnerOf(ball, players, sqrt);
      owner.Some? ==>
        && ball.Some? && players != []
        && exists k :: && IsFirstNearest(ball.value.x, ball.value.y, players, k)
                       && owner.value.playerId == players[k].id
                       && 0.0 <= owner.value.distance
                       && owner.value.distance == sqrt(SqDistTo(ball.value.x, ball.value.y, players[k]))
                       && 0.5 <= owner.value.confidence <= 1.0
                       && owner.value.confidence == OwnerConfidence(owner.value.distance)
  {
    if ball.Some? && players != [] {
      var k := NearestIndex(ball.value.x, ball.value.y, players);
      SqrtZero(sqrt, SqDistTo(ball.value.x, ball.value.y, players[k]));
    }
  }

  /** With a ball and players, a claim exists exactly when some player's centre lies
      within the maximum distance, the boundary included (src/inference.py:267-268). */
  lemma OwnerIffPlayerWithinRange(ball: Option<BallDetection>, players: seq<PlayerDetection>, sqrt: real -> real)
    requires IsSqrt(sqrt) && ball.Some? && players != []
    ensures BallOwnerOf(ball, players, sqrt).Some? <==>
      exists j :: 0 <= j < |players| &&
        SqDistTo(ball.value.x, ball.value.y, players[j]) <= Square(BALL_OWNER_MAX_DISTANCE)
  {
    var x, y := ball.value.x, ball.value.y;
    var k := NearestIndex(x, y, players);
    SqrtAgainstMax(sqrt, SqDistTo(x, y, players[k]));
  }

  /** When exactly one player is within range, the claim names that player. */
  lemma SoleNearbyPlayerOwns(ball: Option<BallDetection>, players: seq<PlayerDetection>, sqrt: real -> real, k: nat)
    requires IsSqrt(sqrt) && ball.Some? && k < |players|
    requires SqDistTo(ball.value.x, ball.value.y, players[k]) <= Square(BALL_OWNER_MAX_DISTANCE)
    requires forall j :: 0 <= j < |players| && j != k ==>
      SqDistTo(ball.value.x, ball.value.y, players[j]) > Square(BALL_OWNER_MAX_DISTANCE)
    ensures BallOwnerOf(ball, players, sqrt).Some?
    ensures BallOwnerOf(ball, players, sqrt).value.playerId == players[k].id
  {
    var x, y := ball.value.x, ball.value.y;
    var n := NearestIndex(x, y, players);
    assert SqDistTo(x, y, players[n]) <= SqDistTo(x, y, players[k]);
    assert n == k;
    SqrtAgainstMax(sqrt, SqDistTo(x, y, players[k]));
  }

  /** Ball on a player's centre: distance 0, confidence 1.0; a player exactly the maximum
      away: a claim with confidence 0.5; a player slightly farther: no claim. */
  lemma OwnershipExamples(sqrt: real -> real, p: PlayerDetection)
    requires IsSqrt(sqrt)
    ensures
      var ball := Some(BallDetection(0.0, 0.0, 10.0, 10.0, 0.9));
      BallOwnerOf(ball, [p.(x := 0.0, y := 0.0)], sqrt) == Some(BallOwner(p.id, 0.0, 1.0))
    ensures
      var ball := Some(BallDetection(0.0, 0.0, 10.0, 10.0, 0.9));
      BallOwnerOf(ball, [p.(x := 50.0, y := 0.0)], sqrt) == Some(BallOwner(p.id, 50.0, 0.5))
    ensures
      var ball := Some(BallDetection(0.0, 0.0, 10.0, 10.0, 0.9));
      BallOwnerOf(ball, [p.(x := 50.01, y := 0.0)], sqrt).None?
  {
    SqrtZero(sqrt, 0.0);
    SqrtAgainstMax(sqrt, 2500.0);
    SqrtAgainstMax(sqrt, Square(50.01));
  }

  // ---------------------------------------------------------------------------
  // One frame
  // ---------------------------------------------------------------------------

  /** Steps 3 and 4 of `InferencePipeline.process` (src/inference.py:81-85): the ball,
      the players and the possession claim. This pipeline runs no tracker and no roster
      binder; those are separate components. */
  method Process(ds: seq<Detection>, frame: Frame, kmeans: seq<Rgb> -> seq<int>, sqrt: real -> real)
    returns (result: DetectionResult)
    requires LabelsEachColor(kmeans)
    ensures result.ball.None? <==> forall i :: 0 <= i < |ds| ==> ds[i].classId != BALL_CLASS_ID
    ensures result.ball.Some? ==>
      exists k :: && 0 <= k < |ds| && ds[k].classId == BALL_CLASS_ID
                  && (forall j :: 0 <= j < k ==> ds[j].classId != BALL_CLASS_ID)
                  && result.ball.value == BallOf(ds[k])
    ensures |result.players| == |PersonIndices(ds)|
    ensures
      var idx := PersonIndices(ds);
      var colors := UniformColors(ds, idx, frame);
      var labels := ClusterTeams(colors, kmeans);
      forall j :: 0 <= j < |result.players| ==>
        result.players[j] == PlayerOf(idx[j], ds[idx[j]], colors[j], labels[j])
    ensures result.ballOwner == BallOwnerOf(result.ball, result.players, sqrt)
  {
    var ball := ExtractBall(ds);
    var players := ExtractPlayers(ds, frame, kmeans);
    var ballOwner := CalculateBallOwner(ball, players, sqrt);
    result := DetectionResult(ball, players, ballOwner);
  }
}
