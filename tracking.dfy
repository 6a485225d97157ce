/** The tracking adapter of src/tracker.py. The DeepSORT associator is outside the model:
    `Associator` keeps the track list it shows and the history of every call made on it
    since it was created, each frame's image included. Its transition function, fixed at
    creation, computes the next track list from that history, this frame's detections and
    this frame's image. Whatever hidden state a deterministic associator keeps (Kalman
    filters, appearance features of the image crops, hit and age counters for `n_init`
    and `max_age`, the next track id) is a function of those inputs. The image is of an
    arbitrary type `Image` that the adapter only passes on. `DeleteAllTracks` empties the
    visible list and is recorded in the history. */
module Tracking {
  import opened Common
  import opened Models
  import opened Nearest

  /** Track lifecycle of the associator. */
  datatype TrackState = Tentative | Confirmed | Deleted

  /** A box as left, top, width, height. */
  datatype Ltwh = Ltwh(left: real, top: real, width: real, height: real)

  /** A track as the adapter sees it: id, state and corrected box. */
  datatype Track = Track(trackId: int, state: TrackState, box: Ltwh)

  /** One associator input: `([left, top, width, height], confidence, class_id)`. */
  datatype AssocDetection = AssocDetection(box: Ltwh, confidence: real, classId: int)

  /** One call made on the associator: a frame's detections and image, or `delete_all_tracks`. */
  datatype AssocEvent<Image> = Observe(detections: seq<AssocDetection>, frame: Image) | Clear

  /** Relative change of the person count above which a camera cut is declared. */
  const CAMERA_SWITCH_THRESHOLD: real := 0.5

  class Associator<Image> {
    var tracks: seq<Track>
    var history: seq<AssocEvent<Image>>
    const step: (seq<AssocEvent<Image>>, seq<AssocDetection>, Image) -> seq<Track>

    constructor (step: (seq<AssocEvent<Image>>, seq<AssocDetection>, Image) -> seq<Track>)
      ensures tracks == [] && history == [] && this.step == step
    {
      this.tracks := [];
      this.history := [];
      this.step := step;
    }

    /** `update_tracks`: the tracks after this frame's detections, returned; the call is
        recorded. */
    method UpdateTracks(detections: seq<AssocDetection>, frame: Image) returns (out: seq<Track>)
      modifies this
      ensures tracks == step(old(history), detections, frame)
      ensures history == old(history) + [Observe(detections, frame)]
      ensures out == tracks
    {
      tracks := step(history, detections, frame);
      history := history + [Observe(detections, frame)];
      out := tracks;
    }

    /** `delete_all_tracks`: no visible track; the call is recorded. */
    method DeleteAllTracks()
      modifies this
      ensures tracks == []
      ensures history == old(history) + [Clear]
    {
      tracks := [];
      history := history + [Clear];
    }
  }

  /** Consecutive frames with at least one detection at the end of a history, counted
      back to the last frame without one or the last `delete_all_tracks`. */
  function HitStreak<Image>(history: seq<AssocEvent<Image>>): (n: nat)
    ensures n <= |history|
  {
    if history == [] then 0
    else
      var last := history[|history| - 1];
      if last.Observe? && last.detections != [] then HitStreak(history[..|history| - 1]) + 1 else 0
  }

  /** A one-track associator with DeepSORT's `n_init` rule: the track is tentative until
      it has been detected on `nInit` consecutive frames. It ignores the image. */
  function SingleTrackStep<Image>(nInit: nat): (seq<AssocEvent<Image>>, seq<AssocDetection>, Image) -> seq<Track>
  {
    (history: seq<AssocEvent<Image>>, detections: seq<AssocDetection>, frame: Image) =>
      if detections == [] then []
      else [Track(1, if HitStreak(history) + 1 >= nInit then Confirmed else Tentative, detections[0].box)]
  }

  /** With `n_init = 3` (src/tracker.py:30) one steady detection gives a tentative track
      on the first two frames and a confirmed one on the third, although the visible list
      is the same before the second and third frames. */
  lemma ThirdHitConfirms<Image>(d: AssocDetection, img: Image)
    ensures var step := SingleTrackStep<Image>(3);
      && step([], [d], img) == [Track(1, Tentative, d.box)]
      && step([Observe([d], img)], [d], img) == [Track(1, Tentative, d.box)]
      && step([Observe([d], img), Observe([d], img)], [d], img) == [Track(1, Confirmed, d.box)]
      && step([Observe([d], img), Observe([d], img), Clear], [d], img) == [Track(1, Tentative, d.box)]
  {
    assert [Observe([d], img), Observe([d], img)][..1] == [Observe([d], img)];
    assert [Observe([d], img), Observe([d], img), Clear][..2] == [Observe([d], img), Observe([d], img)];
  }

  /** The associator input for one player: its box turned back from centre form into
      left/top form, its confidence, and the person class 0 (src/tracker.py:79-85). */
  function ToAssocDetection(p: PlayerDetection): (d: AssocDetection)
    ensures d.box.left + d.box.width / 2.0 == p.x && d.box.top + d.box.height / 2.0 == p.y
    ensures d.box.width == p.width && d.box.height == p.height
    ensures d.confidence == p.confidence && d.classId == 0
  {
    AssocDetection(Ltwh(p.x - p.width / 2.0, p.y - p.height / 2.0, p.width, p.height), p.confidence, 0)
  }

  /** The associator input for a player list, one entry per player in order. */
  function AssocInput(players: seq<PlayerDetection>): (ds: seq<AssocDetection>)
    ensures |ds| == |players|
    ensures forall i :: 0 <= i < |players| ==> ds[i] == ToAssocDetection(players[i])
  {
    seq(|players|, i requires 0 <= i < |players| => ToAssocDetection(players[i]))
  }

  /** Centre of a left/top/width/height box. */
  function CentreX(b: Ltwh): real { b.left + b.width / 2.0 }
  function CentreY(b: Ltwh): real { b.top + b.height / 2.0 }

  /** A surfaced track takes the attributes (team, colour, confidence, roster fields) of
      the original player nearest to its centre, and its own id and box
      (src/tracker.py:100-128). */
  function ReattachTrack(t: Track, players: seq<PlayerDetection>): (p: PlayerDetection)
    requires players != []
    ensures
      var k := NearestIndex(CentreX(t.box), CentreY(t.box), players);
      && IsFirstNearest(CentreX(t.box), CentreY(t.box), players, k)
      && p == players[k].(id := t.trackId, x := CentreX(t.box), y := CentreY(t.box),
                          width := t.box.width, height := t.box.height)
  {
    var cx, cy := CentreX(t.box), CentreY(t.box);
    var k := NearestIndex(cx, cy, players);
    players[k].(id := t.trackId, x := cx, y := cy, width := t.box.width, height := t.box.height)
  }

  /** Only tentative and confirmed tracks reach the output. */
  predicate Surfaced(t: Track)
  {
    t.state == Confirmed || t.state == Tentative
  }

  /** The positions of the surfaced tracks, in increasing order. */
  function SurfacedIndices(tracks: seq<Track>): (idx: seq<nat>)
    ensures forall k :: 0 <= k < |idx| ==> idx[k] < |tracks| && Surfaced(tracks[idx[k]])
    ensures forall i :: 0 <= i < |tracks| && Surfaced(tracks[i]) ==> i in idx
    ensures forall k1, k2 :: 0 <= k1 < k2 < |idx| ==> idx[k1] < idx[k2]
  {
    if tracks == [] then []
    else
      SurfacedIndices(tracks[..|tracks| - 1])
      + (if Surfaced(tracks[|tracks| - 1]) then [|tracks| - 1] else [])
  }

  /** The surfaced tracks, in associator order: the tracks at the surfaced positions,
      and no other. */
  function SurfacedTracks(tracks: seq<Track>): (r: seq<Track>)
    ensures |r| == |SurfacedIndices(tracks)| <= |tracks|
    ensures forall k :: 0 <= k < |r| ==> r[k] == tracks[SurfacedIndices(tracks)[k]]
    ensures forall i :: 0 <= i < |r| ==> Surfaced(r[i]) && r[i] in tracks
    ensures forall t :: t in tracks && Surfaced(t) ==> t in r
  {
    if tracks == [] then []
    else
      var prefix := tracks[..|tracks| - 1];
      var r := SurfacedTracks(prefix) + (if Surfaced(tracks[|tracks| - 1]) then [tracks[|tracks| - 1]] else []);
      assert forall k :: 0 <= k < |SurfacedIndices(prefix)| ==> prefix[SurfacedIndices(prefix)[k]] == tracks[SurfacedIndices(prefix)[k]];
      assert |SurfacedIndices(tracks)| <= |tracks| by {
        var idx := SurfacedIndices(tracks);
        IncreasingBelowIsShort(idx, |tracks|);
      }
      r
  }

  /** A strictly increasing sequence of numbers below n has at most n elements. */
  lemma {:induction false} IncreasingBelowIsShort(idx: seq<nat>, n: nat)
    requires forall k :: 0 <= k < |idx| ==> idx[k] < n
    requires forall k1, k2 :: 0 <= k1 < k2 < |idx| ==> idx[k1] < idx[k2]
    ensures |idx| <= n
  {
    if idx != [] {
      assert forall k :: 0 <= k < |idx| - 1 ==> idx[k] < idx[|idx| - 1];
      IncreasingBelowIsShort(idx[..|idx| - 1], idx[|idx| - 1]);
    }
  }

  /** The output of `update` for the associator's tracks and the input players: each
      surfaced track re-attached to its nearest player; nothing when there is no player. */
  function Reattach(tracks: seq<Track>, players: seq<PlayerDetection>): (r: seq<PlayerDetection>)
    ensures |r| <= |tracks|
    ensures players == [] ==> r == []
  {
    if tracks == [] || players == [] then []
    else
      Reattach(tracks[..|tracks| - 1], players)
      + (if Surfaced(tracks[|tracks| - 1]) then [ReattachTrack(tracks[|tracks| - 1], players)] else [])
  }

  /** With players present, the output is exactly the surfaced tracks, in order, each
      re-attached to its nearest player; without players the output is empty
      (src/tracker.py:95-130). */
  lemma {:induction false} ReattachIsSurfacedMap(tracks: seq<Track>, players: seq<PlayerDetection>)
    ensures players == [] ==> Reattach(tracks, players) == []
    ensures players != [] ==>
      && |Reattach(tracks, players)| == |SurfacedTracks(tracks)|
      && forall i :: 0 <= i < |SurfacedTracks(tracks)| ==>
           Reattach(tracks, players)[i] == ReattachTrack(SurfacedTracks(tracks)[i], players)
  {
    if tracks != [] && players != [] {
      ReattachIsSurfacedMap(tracks[..|tracks| - 1], players);
    }
  }

  /** Each output player carries the id of a surfaced track and the team, colour and
      confidence of the first input player nearest to that track's centre. */
  lemma OutputCopiesNearestPlayer(tracks: seq<Track>, players: seq<PlayerDetection>, i: nat)
    requires i < |Reattach(tracks, players)|
    ensures players != []
    ensures
      var out := Reattach(tracks, players)[i];
      exists t, k :: && t in tracks && Surfaced(t) && out.id == t.trackId
                     && IsFirstNearest(CentreX(t.box), CentreY(t.box), players, k)
                     && out.team == players[k].team && out.color == players[k].color
                     && out.confidence == players[k].confidence
                     && out.x == CentreX(t.box) && out.y == CentreY(t.box)
                     && out.width == t.box.width && out.height == t.box.height
  {
    ReattachIsSurfacedMap(tracks, players);
    var t := SurfacedTracks(tracks)[i];
    var k := NearestIndex(CentreX(t.box), CentreY(t.box), players);
    assert IsFirstNearest(CentreX(t.box), CentreY(t.box), players, k);
  }

  /** The positions of the confirmed tracks. */
  ghost function ConfirmedPositions(tracks: seq<Track>): set<nat>
  {
    set i: nat | i < |tracks| && tracks[i].state == Confirmed
  }

  /** Number of confirmed tracks. */
  function CountConfirmed(tracks: seq<Track>): (n: nat)
    ensures n == |ConfirmedPositions(tracks)|
    ensures n <= |tracks|
    ensures n == 0 <==> forall i :: 0 <= i < |tracks| ==> tracks[i].state != Confirmed
    ensures n == |tracks| <==> forall i :: 0 <= i < |tracks| ==> tracks[i].state == Confirmed
  {
    if tracks == [] then 0
    else
      var prefix := tracks[..|tracks| - 1];
      var last := |tracks| - 1;
      assert ConfirmedPositions(tracks)
          == ConfirmedPositions(prefix) + (if tracks[last].state == Confirmed then {last} else {});
      assert last !in ConfirmedPositions(prefix);
      CountConfirmed(prefix) + (if tracks[last].state == Confirmed then 1 else 0)
  }

  /** A camera cut in integers: the count moved by more than half the previous count,
      and a previous count of 0 never signals a cut (src/tracker.py:141-145). */
  function CameraSwitch(prevCount: nat, currentCount: nat): (switched: bool)
    ensures switched <==> prevCount > 0 && 2 * Abs(currentCount - prevCount) > prevCount
  {
    if prevCount == 0 then false
    else
      var ratio := Abs(currentCount - prevCount) as real / prevCount as real;
      RatioAboveHalf(Abs(currentCount - prevCount), prevCount);
      ratio > CAMERA_SWITCH_THRESHOLD
  }

  lemma RatioAboveHalf(change: nat, prev: nat)
    requires prev > 0
    ensures change as real / prev as real > 0.5 <==> 2 * change > prev
  {
    var q, c, p := change as real / prev as real, change as real, prev as real;
    assert q * p == c;
    if q > 0.5 {
      ProductNonNegative(q - 0.5, p);
      assert (q - 0.5) * p == c - 0.5 * p;
    } else {
      ProductNonNegative(0.5 - q, p);
      assert (0.5 - q) * p == 0.5 * p - c;
    }
  }

  lemma ProductNonNegative(a: real, b: real)
    requires 0.0 <= a && 0.0 < b
    ensures 0.0 <= a * b
    ensures 0.0 < a ==> 0.0 < a * b
  {
  }

  /** 10 -> 4 is a cut, 10 -> 6 is not, and the first frame never is. */
  lemma CameraSwitchExamples(n: nat)
    ensures CameraSwitch(10, 4) && !CameraSwitch(10, 6) && !CameraSwitch(0, n)
  {
  }

  class PlayerTracker<Image> {
    const assoc: Associator<Image>
    var prevDetectionCount: nat

    /** `__init__`: a fresh associator with no tracks and no previous count. */
    constructor (step: (seq<AssocEvent<Image>>, seq<AssocDetection>, Image) -> seq<Track>)
      ensures fresh(assoc) && assoc.tracks == [] && assoc.history == [] && assoc.step == step
      ensures prevDetectionCount == 0
    {
      assoc := new Associator(step);
      prevDetectionCount := 0;
    }

    /** `_detect_camera_switch`. */
    function DetectCameraSwitch(currentCount: nat): (switched: bool)
      reads this
      ensures switched <==> prevDetectionCount > 0 && 2 * Abs(currentCount - prevDetectionCount) > prevDetectionCount
    {
      CameraSwitch(prevDetectionCount, currentCount)
    }

    /** `reset`: no track and no previous count. */
    method Reset()
      modifies this, assoc
      ensures assoc.tracks == [] && prevDetectionCount == 0
      ensures assoc.history == old(assoc.history) + [Clear]
    {
      assoc.DeleteAllTracks();
      prevDetectionCount := 0;
    }

    /** `get_track_count`: how many of the associator's tracks are confirmed. */
    function GetTrackCount(): (n: nat)
      reads this, assoc
      ensures n == |ConfirmedPositions(assoc.tracks)|
      ensures n <= |assoc.tracks|
      ensures n == 0 <==> forall i :: 0 <= i < |assoc.tracks| ==> assoc.tracks[i].state != Confirmed
    {
      CountConfirmed(assoc.tracks)
    }

    /** `update` (src/tracker.py:70-133): on a camera cut the associator is cleared before
      it sees this frame; the output is the associator's surfaced tracks re-attached to
      the input players; the previous count becomes this frame's player count. */
    method Update(players: seq<PlayerDetection>, frame: Image) returns (tracked: seq<PlayerDetection>)
      modifies this, assoc
      ensures prevDetectionCount == |players|
      ensures
        var before := if old(DetectCameraSwitch(|players|)) then old(assoc.history) + [Clear] else old(assoc.history);
        && assoc.tracks == assoc.step(before, AssocInput(players), frame)
        && assoc.history == before + [Observe(AssocInput(players), frame)]
      ensures tracked == Reattach(assoc.tracks, players)
    {
      ghost var before := if DetectCameraSwitch(|players|) then assoc.history + [Clear] else assoc.history;
      if DetectCameraSwitch(|players|) {
        Reset();
      }
      assert assoc.history == before;

      var detections: seq<AssocDetection> := [];
      var i := 0;
      while i < |players|
        invariant 0 <= i <= |players|
        invariant |detections| == i
        invariant forall j :: 0 <= j < i ==> detections[j] == ToAssocDetection(players[j])
      {
        detections := detections + [ToAssocDetection(players[i])];
        i := i + 1;
      }
      assert detections == AssocInput(players);

      var tracks := assoc.UpdateTracks(detections, frame);
      ghost var after := assoc.history;

      tracked := [];
      var n := 0;
      while n < |tracks|
        invariant 0 <= n <= |tracks|
        invariant tracked == Reattach(tracks[..n], players)
        invariant assoc.tracks == tracks && assoc.history == after
      {
        assert tracks[..n + 1][..n] == tracks[..n];
        var track := tracks[n];
        if Surfaced(track) {
          var trackX, trackY := CentreX(track.box), CentreY(track.box);
          var matched, _ := ScanNearest(trackX, trackY, players);
          if matched.Some? {
            FirstNearestUnique(trackX, trackY, players, matched.value, NearestIndex(trackX, trackY, players));
            var trackedPlayer := players[matched.value].(
              id := track.trackId, x := trackX, y := trackY,
              width := track.box.width, height := track.box.height);
            tracked := tracked + [trackedPlayer];
          }
        }
        n := n + 1;
      }
      assert tracks[..n] == tracks;

      prevDetectionCount := |players|;
    }
  }
}
