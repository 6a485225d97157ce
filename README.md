# soccerHUD core, modelled in Dafny

soccerHUD overlays live match information on a football broadcast. A browser extension
samples video frames and sends them to a Python server. The server detects people and
the ball, and it sorts the players into two teams by the colour of their uniform. It
decides which player owns the ball, keeps player identities stable across frames with a
tracker, and binds tracked players to a roster typed in by the user. This project models
that server core and three helpers of the extension, and proves their properties:

- **Detection post-processing** (`Inference`, with `Nearest` and `Models`).
  - The first ball-class box becomes the ball.
  - Every person-class box becomes a player whose id is the box's index.
  - A player's uniform colour is the mean of the torso band: 30% to 60% of the
    truncated box height, with Python's slice bounds and a grey fallback.
  - Team labels come from KMeans, or are all 0 when there are fewer than two players.
  - The ball owner is the first nearest player within 50 pixels. Its confidence is
    `clamp(1 - d/50, 0.5, 1.0)`.
  - The three loops of `_extract_players`, the ball scan and the nearest-player scan are
    methods with loop invariants. The ball scan's contract states its result outright
    (the first ball-class box). Each of the other loops is proved to compute a
    specification function, and the properties are proved as lemmas about that function.
- **Tracking adapter** (`Tracking`). `PlayerTracker` is a class.
  - It detects a camera cut: the person count changes by more than half the previous
    count.
  - On a cut it resets the associator, then feeds the associator left/top/width/height
    boxes.
  - It re-attaches every tentative or confirmed track to the input player nearest its
    centre. The player takes the track's id and box.
  - It counts confirmed tracks.
  - The DeepSORT associator is an `Associator` object. It records every call made on it,
    each frame's image included. A transition function fixed when it is created
    computes the next track list from that history, the frame's detections and the
    frame's image. The image has an arbitrary type `Image` that the adapter only passes
    on, as `update` passes `frame` to `update_tracks`. Hidden state such as appearance
    features of the crops and the hit and age counters behind `n_init` and `max_age` is
    a function of those inputs, so a deterministic associator that reads the pixels
    fits this shape. `ThirdHitConfirms` shows the `n_init` rule expressed in it.
- **Roster binding** (`Roster`). `PlayerMatcher` is a class that holds two rosters, a map
  from track id to bound entry, and a reverse index from (team, jersey number) to track id.
  - The reverse index is only ever added to. It is therefore not the exact inverse of the
    forward map: after track 1 is bound to #7 and then to #3, `get_track_id('home', 7)`
    still answers 1 (`RebindKeepsOldKey`, `RebindScenario`).
  - `Valid()` says that every bound entry is in its team's roster with a non-zero number,
    and that every key names a number in that roster and a track id that has some binding.
    `MatchPlayer` preserves it, and `SetRoster` re-establishes it.
  - The no-op cases of `match_player` are proved alongside its binding case.
- **Extension helpers** (`Js`, `Fps`, `Hud`, `Messages`):
  - `fpsToInterval`: clamping and rounding on JavaScript numbers, NaN and the
    infinities included;
  - `formatBallCarrierLabel`: with ECMAScript's `trim`;
  - the `isFrameSampleEvent` guard: over a small JavaScript value type, with the event
    the page script posts and the typed event the guard's narrowing promises.

All numbers are Dafny reals; the source's float64 arithmetic is not modelled bit for bit.
`np.sqrt` is a parameter whose only assumed properties are strict monotonicity and
undoing squares (`IsSqrt`). Under those properties, comparing squared distances picks
the same player as the source's comparison of square roots.

Where the code and the project's documentation disagree, the model follows the code:
- `_extract_ball` returns the FIRST ball-class box in detector order, not the most
  confident one.
- `process` runs the detector once, and that single pass feeds both the ball and the
  players.
- `enrich_players` returns an unbound player unchanged. It does not clear that player's
  roster fields.
- Jersey number 0 is falsy in Python, so `match_player` treats it like a missing number.

## Model

| member | source | states |
|---|---|---|
| Nearest.NearestIndex | src/inference.py:255-265 | the index of the first player at the least (squared) distance: no player is closer, and every earlier player is strictly farther |
| Nearest.FirstNearestUnique | src/inference.py:262-265 | with the strict `<` update there is only one first-nearest index |
| Nearest.ScanNearest | src/inference.py:255-265 | the strict-`<` loop from "no best yet" finds nothing exactly on an empty list, and otherwise finds the first nearest player and its squared distance |
| Inference.Trunc | src/inference.py:199 | `int()`/`astype(int)` truncate toward zero: the result is the integer part, for negative values too |
| Inference.BallOf | src/inference.py:130-137 | the ball's centre and size reproduce the box corners exactly (centre ± half size), and the confidence is copied |
| Inference.ExtractBall | src/inference.py:118-139 | no ball exactly when no box has the ball class; otherwise the ball is built from the first ball-class box, with no ball-class box before it |
| Inference.PersonIndices | src/inference.py:148-153 | exactly the person-class box indices: all of them, only them, strictly increasing |
| Inference.TeamOf | src/inference.py:174-175 | label 0 is home, and every other label is away |
| Inference.PlayerOf | src/inference.py:165-188 | the id is the box's index among all boxes; colour and confidence are copied; centre and size reproduce the box; home iff label 0; no roster field is set |
| Inference.UniformRegion | src/inference.py:196-204 | the columns are the truncated box columns; for a box with truncated 0 <= y1 <= y2 the band lies inside the box's rows, start before end; a zero truncated height gives an empty band |
| Inference.SliceBound | src/inference.py:207 | a slice bound lands in 0..n: kept when already in range, counted from the end when in -n..-1, 0 below -n, and n above n |
| Inference.Clip | src/inference.py:207 | the selected region lies inside the frame, and a region already inside it is unchanged |
| Inference.RegionIsEmpty | src/inference.py:209 | a frame with no rows or no columns selects no pixel, nor does a band whose in-range end is not after its start |
| Inference.ExtractUniformColor | src/inference.py:192-216 | grey (128,128,128) when the selected band holds no pixel; otherwise each RGB channel is the truncated mean of the matching BGR channel of the selected band |
| Inference.ZeroHeightBoxIsGrey | src/inference.py:203-210 | a box whose truncated height is 0 samples no pixel and is grey whatever the image |
| Inference.ClusterTeams | src/inference.py:218-236 | one label per colour; with fewer than two colours every label is 0, so every player is home |
| Inference.UniformColors | src/inference.py:158-163 | one colour per person box, in order, each the box's uniform colour |
| Inference.CollectPersonIndices | src/inference.py:148-153 | the filtering loop computes `PersonIndices` |
| Inference.SampleUniformColors | src/inference.py:158-163 | the colour loop computes `UniformColors` |
| Inference.BuildPlayers | src/inference.py:165-190 | the build loop produces, for each person box in order, the player built from that box, its colour and its label |
| Inference.ExtractPlayers | src/inference.py:141-190 | one player per person box, in detector order, built from the box, its sampled colour and its KMeans (or all-zero) label; the early return for no person gives none |
| Inference.OwnerConfidence | src/inference.py:270-272 | the confidence lies in [0.5, 1.0]; it is 1 at distance 0, `1 - d/50` up to 25 pixels, and 0.5 from 25 pixels on |
| Inference.BallOwnerOf | src/inference.py:251-278 | a claim needs a ball and a player; it names one of the players, at no more than 50 pixels, with a confidence in [0.5, 1.0] that is `clamp(1 - d/50, 0.5, 1.0)` of the reported distance |
| Inference.CalculateBallOwner | src/inference.py:238-278 | the loop's claim is `BallOwnerOf` of its inputs |
| Inference.SqrtAgainstMax | src/inference.py:267-268 | the root distance exceeds (equals) 50 exactly when the squared distance exceeds (equals) 2500 |
| Inference.NoOwnerWithoutBallOrPlayers | src/inference.py:251-252 | no claim without a ball or without players |
| Inference.OwnerIsFirstNearest | src/inference.py:255-278 | a claim names the first nearest player, reports its root distance (non-negative) and the confidence `clamp(1 - d/50, 0.5, 1.0)` of that distance, in [0.5, 1.0] |
| Inference.OwnerIffPlayerWithinRange | src/inference.py:267-268 | with a ball and players there is a claim exactly when some player lies within 50 pixels, the boundary included |
| Inference.SoleNearbyPlayerOwns | src/inference.py:255-268 | when exactly one player is within range, the claim names that player |
| Inference.OwnershipExamples | src/inference.py:267-278 | distance 0 gives confidence 1.0; exactly 50 pixels is still a claim with confidence 0.5; 50.01 pixels is no claim |
| Inference.Process | src/inference.py:74-99 | the result has a ball exactly when some box has the ball class, and then it is the first ball-class box; one player per person box, in order, built from the box, its uniform colour and its team label; and the possession claim of that ball and those players |
| Tracking.Associator.constructor | src/tracker.py:41-47 | a new associator holds no track and has seen no call |
| Tracking.Associator.UpdateTracks | src/tracker.py:88 | the tracks are the transition of the call history, this frame's detections and this frame's image, and are returned; the call, image included, is recorded |
| Tracking.Associator.DeleteAllTracks | src/tracker.py:149 | no track is left, and the clear is recorded |
| Tracking.ThirdHitConfirms | src/tracker.py:30 | with `n_init = 3`, one steady detection is tentative on frames one and two and confirmed on frame three, even though the visible list is the same before frames two and three; a clear starts over |
| Tracking.ToAssocDetection | src/tracker.py:78-85 | the left/top box has the player's centre and size, the confidence is copied, the class is 0 |
| Tracking.AssocInput | src/tracker.py:77-85 | one associator input per player, in order |
| Tracking.ReattachTrack | src/tracker.py:99-128 | the output is a copy of the first input player nearest the track's centre, with the track's id, centre and size |
| Tracking.SurfacedIndices | src/tracker.py:95-97 | exactly the positions of the tentative and confirmed tracks: all of them, only them, strictly increasing |
| Tracking.SurfacedTracks | src/tracker.py:95-97 | the tracks at exactly those positions, in associator order: the tentative and confirmed tracks, each as often as it occurs |
| Tracking.Reattach | src/tracker.py:91-130 | at most one output player per track, and none when there is no input player |
| Tracking.ReattachIsSurfacedMap | src/tracker.py:91-130 | without players the output is empty; otherwise it has one entry per surfaced track, in order, each that track re-attached |
| Tracking.OutputCopiesNearestPlayer | src/tracker.py:104-128 | every output player carries a surfaced track's id and box and the team, colour and confidence of the first input player nearest that track |
| Tracking.CountConfirmed | src/tracker.py:153-155 | the number of positions holding a confirmed track; at most the number of tracks; 0 exactly when none is confirmed; all of them exactly when all are |
| Tracking.CameraSwitch | src/tracker.py:135-145 | a cut exactly when the previous count is positive and the count moved by more than half of it; never after a count of 0 |
| Tracking.CameraSwitchExamples | src/tracker.py:141-145 | 10 to 4 players is a cut, 10 to 6 is not, and a first frame never is |
| Tracking.PlayerTracker.constructor | src/tracker.py:27-53 | a fresh associator with no track and no history, previous count 0 |
| Tracking.PlayerTracker.DetectCameraSwitch | src/tracker.py:135-145 | the camera-cut rule on the stored previous count |
| Tracking.PlayerTracker.Reset | src/tracker.py:147-151 | no track, a clear recorded in the associator's history, and previous count 0 |
| Tracking.PlayerTracker.GetTrackCount | src/tracker.py:153-155 | the number of positions of the associator's track list holding a confirmed track: at most the number of tracks, and 0 exactly when none is confirmed |
| Tracking.PlayerTracker.Update | src/tracker.py:55-133 | on a cut the associator is cleared before this frame; it sees one left/top box per player and the frame's image; the output is its surfaced tracks re-attached to the input players; the previous count becomes this frame's player count |
| Roster.FindByNumber | src/player_matcher.py:72-75 | nothing exactly when no entry has the number; otherwise the first entry with it |
| Roster.BindKeepsConsistent | src/player_matcher.py:80-85 | binding a track to a roster entry with a non-zero number keeps both maps consistent with the rosters |
| Roster.RebindKeepsOldKey | src/player_matcher.py:80-85 | re-binding a track to an entry with another number leaves the old (team, number) key pointing at the track, beside the new one |
| Roster.Truthy | src/player_matcher.py:70 | a missing number and jersey 0 are falsy; every other number is truthy |
| Roster.PlayerMatcher.constructor | src/player_matcher.py:20-37 | empty rosters, no bindings, consistent |
| Roster.PlayerMatcher.SetRoster | src/player_matcher.py:39-55 | both rosters replaced, every binding in both maps dropped, consistent |
| Roster.PlayerMatcher.MatchPlayer | src/player_matcher.py:57-88 | with an empty team roster, a missing or zero number, or no entry with that number, nothing changes; otherwise the track is bound to the first entry with that number in both maps; rosters unchanged, consistency kept |
| Roster.PlayerMatcher.GetPlayerInfo | src/player_matcher.py:90-92 | a binding exactly when the track id is bound, and under consistency it is an entry of its team's roster |
| Roster.PlayerMatcher.GetTrackId | src/player_matcher.py:94-96 | a track id exactly when the (team, number) key is bound, and under consistency that id is bound and the number is in the roster |
| Roster.PlayerMatcher.EnrichPlayers | src/player_matcher.py:98-126 | same length and order; a bound player gets the entry's name, number and position, every other player is returned unchanged |
| Roster.PlayerMatcher.GetRosterSummary | src/player_matcher.py:148-154 | the two roster sizes and the number of bound track ids; under consistency no bound id means no bound key |
| Roster.RosterScenario | tests/test_phase3.py:47-69 | after `set_roster` with 3 home and 2 away entries the summary is (3, 2, 0); after binding track 1 to home #7 and track 2 to away #10 it is (3, 2, 2), and the two lookups give those entries |
| Roster.RebindScenario | src/player_matcher.py:57-88 | after binding track 1 to #7 and then to #3, the track's binding is #3 while both the #3 and the #7 keys answer track 1 |
| Roster.NoOpScenario | src/player_matcher.py:39-88 | a number missing from the roster, a missing number, jersey 0 and a team with an empty roster bind nothing; replacing the roster drops every binding |
| Fps.Round | src/shared/fps.ts:6 | `Math.round`: the nearest integer, halves upward |
| Fps.ClampedFps | src/shared/fps.ts:2-5 | within the bounds when they are ordered; an in-range request is kept; a non-finite or non-positive one becomes the minimum |
| Fps.FpsToInterval | src/shared/fps.ts:1-7 | for positive ordered bounds the interval is finite and lies between the rounded intervals of the maximum and the minimum |
| Fps.InvalidFpsUsesMinimum | src/shared/fps.ts:2-4 | NaN, the infinities and non-positive requests get the minimum rate's interval |
| Fps.OutOfRangeFpsIsClamped | src/shared/fps.ts:5-6 | below the minimum gives the minimum's interval, above the maximum the maximum's, in range the request's own |
| Fps.DefaultBoundsExample | src/shared/fps.test.ts:7 | 10 fps with the default bounds is 100 ms |
| Fps.ClampExamples | src/shared/fps.test.ts:11-15 | 0.5 fps in [5, 60] is 200 ms; 240 fps in [5, 60] is `Math.round(1000/60)` ms |
| Fps.NaNExample | src/shared/fps.test.ts:19 | NaN with the default bounds is 1000 ms |
| Hud.TrimStart | src/utils/hud.ts:2 | leading trimmable characters dropped: a suffix of the input, only trimmable characters cut, none left at the front |
| Hud.TrimEnd | src/utils/hud.ts:2 | trailing trimmable characters dropped: a prefix of the input, only trimmable characters cut, none left at the back |
| Hud.TrimCutsOnlyTrimmable | src/utils/hud.ts:2 | `trim` returns a contiguous part of the input with only trimmable characters around it |
| Hud.Trim | src/utils/hud.ts:2 | `trim` is no longer than its input and starts and ends with a non-trimmable character, or is empty |
| Hud.TrimEmptyIffBlank | src/utils/hud.ts:2-4 | trimming gives the empty string exactly when every character is trimmable |
| Hud.TrimIdempotent | src/utils/hud.ts:2 | trimming twice is trimming once |
| Hud.NothingToTrim | src/utils/hud.ts:2 | a string with non-trimmable ends is its own trim |
| Hud.FormatBallCarrierLabel | src/utils/hud.ts:1-8 | the caption always starts with "Ball Carrier: ", and a missing name gives "Ball Carrier: Unknown" |
| Hud.FormatNamedCarrier | src/utils/hud.ts:2-7 | a name that is not blank is shown trimmed after the prefix; a blank name gives "Ball Carrier: Unknown" |
| Hud.FormatIgnoresSurroundingWhitespace | src/utils/hud.ts:2-7 | a name and its trimmed form give the same caption |
| Hud.FormatTrimmedName | src/utils/hud.ts:2-7 | a name with non-trimmable ends is shown as it is |
| Hud.FormatUnknownExamples | src/utils/hud.test.ts:6-8 | no name and "   " give "Ball Carrier: Unknown" |
| Hud.FormatPlainNameExample | src/utils/hud.test.ts:12 | "Alex Morgan" gives "Ball Carrier: Alex Morgan" |
| Hud.FormatPaddedNameExample | src/utils/hud.test.ts:16 | "  Sam Kerr  " gives "Ball Carrier: Sam Kerr" |
| Messages.ToValue | src/page-script/index.ts:91-112 | the posted object has the six required properties, plus `errorMessage` exactly when the event carries one |
| Messages.IsFrameSampleEvent | src/shared/messages.ts:13-26 | only a plain object holding all six required properties is accepted |
| Messages.ReadEvent | src/shared/messages.ts:13 | the narrowed event carries the object's timestamp, size and status; its message is present exactly when the property is a string |
| Messages.PostedEventRoundTrip | src/shared/messages.ts:13-26 | every posted event passes the guard, and reading it back yields the posted event |
| Messages.RejectsNonObjects | src/shared/messages.ts:14-16 | non-objects, null and arrays are rejected |
| Messages.AcceptanceConditions | src/shared/messages.ts:17-25 | an object is accepted exactly when source is 'soccerhud', type is 'frame-sample', timestamp, width and height are numbers, and status is 'ok' or 'error' |
| Messages.OnlyRequiredKeysMatter | src/shared/messages.ts:18-25 | two objects that agree on the six required properties get the same verdict, whatever `errorMessage` and any other property hold |
| Messages.ExtraPropertiesAccepted | src/shared/messages.ts:18-25 | a posted event stays accepted when the object gains any non-required properties |
| Messages.GuardExamples | src/shared/messages.ts:18-25 | a numeric `errorMessage` and NaN/infinite numbers pass; a string timestamp, the status "OK", null and an array do not |

## Left out

- Model loading and the detector (`_run_yolo`, the CoreML/PyTorch choice): the model starts from the detector's boxes. JPEG decoding (`_decode_frame`) becomes the `Frame` value.
- The pixel mean (`cv2.mean`) is the frame's `meanBgr` function. The image's pixels are not modelled.
- KMeans is a parameter that returns one label per colour. `team_colors` is written after clustering; no code in the core reads it, so it is not modelled.
- DeepSORT's internals (Kalman prediction, the mobilenet appearance embedding, IoU matching, the `max_age` and `n_init` counters): the associator's transition from its call history, detections and image to the next track list is a parameter. The image's pixels are not modelled; the adapter only passes the image on. A non-deterministic associator cannot be expressed.
- The timing, frame counter and average FPS of `process`, and its `timestamp` and `fps` fields: these depend on the clock.
- The WebSocket server, `main.py`, logging, and the extension's UI and messaging plumbing: content script, page script, overlay, popup.
- `auto_match_by_position`: the source leaves it unimplemented (it only logs).
- Floating point: coordinates, confidences and the 0.3/0.6 band factors are exact reals. float64 rounding, NaN or infinite coordinates and signed zero are not modelled. In `Fps` the bounds are finite reals; the requested rate may be any JavaScript number.
- "unknown" is a team string the data model allows but the core never produces, so `Team` has only home and away.
- Roster entries always have a name. A roster dict without `name` would make the source's log line raise `KeyError`; that failure is not modelled.
- The roster's jersey number is an integer. The source compares with `==` whatever type the user supplied.
- The messages are the value shapes a listener can receive: no functions, symbols or prototype chains. Arrays carry no named properties.
- Hud.FormatBallCarrierLabel: its own contract keeps only the prefix and the missing-name case. The name cases are stated by `Hud.FormatNamedCarrier`.
- Messages.ReadEvent: a non-string `errorMessage`, which the guard lets through, reads as absent, because the typed event allows only a string there. A listener at run time receives the raw value instead; `GuardExamples` shows such a value passing the guard.
- Inference.CalculateBallOwner: the nearest player is chosen on squared distances. That agrees with the source's square-root comparison only under `IsSqrt`.
- Tracking.PlayerTracker.Update: the nearest player is chosen on squared distances. Since the square root is strictly increasing, this is the player the source's root comparison picks.
