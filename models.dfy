/** The records of src/models.py that travel from the detector side to the HUD. */
module Models {
  import opened Common

  /** A player's team label; the source stores the strings "home" and "away". */
  datatype Team = Home | Away

  /** An RGB colour, the `[r, g, b]` list of the source. */
  datatype Rgb = Rgb(r: int, g: int, b: int)

  /** The ball: centre, size and detector confidence. */
  datatype BallDetection = BallDetection(x: real, y: real, width: real, height: real, confidence: real)

  /** A player: identity (a detector index, or a track id once tracked), centre, size, team,
      sampled uniform colour, detector confidence and the optional roster attributes. */
  datatype PlayerDetection = PlayerDetection(
    id: int,
    x: real,
    y: real,
    width: real,
    height: real,
    team: Team,
    color: Rgb,
    confidence: real,
    number: Option<int>,
    name: Option<string>,
    position: Option<string>)

  /** A possession claim. */
  datatype BallOwner = BallOwner(playerId: int, distance: real, confidence: real)

  /** The per-frame result without its timestamp and frame rate. */
  datatype DetectionResult = DetectionResult(
    ball: Option<BallDetection>,
    players: seq<PlayerDetection>,
    ballOwner: Option<BallOwner>)
}
