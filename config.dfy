/** The constants of src/config.py that the modelled core reads. */
module Config {

  /** Pixels; a nearest player farther than this does not own the ball. */
  const BALL_OWNER_MAX_DISTANCE: real := 50.0

  /** Number of uniform-colour clusters (home and away). */
  const N_TEAMS: nat := 2

  /** COCO class ids used by the detector. */
  const BALL_CLASS_ID: int := 32
  const PERSON_CLASS_ID: int := 0
}
