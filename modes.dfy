/**
 * Detection modes of the controller. A mode is a product of the primes
 * 2 (face), 3 (smile) and 5 (eye); a detector runs on a frame exactly when
 * the current mode is divisible by its prime.
 */
module Modes {

  datatype Option<T> = None | Some(value: T)

  const ModeFaceDetection: int := 2
  const ModeSmilingDetection: int := 3
  const ModeEyeDetection: int := 5

  /** The four modes the camera can be started in. */
  const FaceMode: int := ModeFaceDetection
  const SmileMode: int := ModeSmilingDetection
  const EyeMode: int := ModeEyeDetection * ModeFaceDetection
  const BothMode: int := ModeFaceDetection * ModeSmilingDetection

  /** The value `currentMode` holds before the camera has ever started. */
  const UnsetMode: int := 0

  predicate IsMode(mode: int) {
    mode == FaceMode || mode == SmileMode || mode == EyeMode || mode == BothMode
  }

  // Divisibility is the same under Java's truncating `%` and Dafny's
  // Euclidean `%`: the remainder is zero in one exactly when it is in the other.

  predicate RunsFaceDetector(mode: int): (r: bool)
    ensures IsMode(mode) ==> (r <==> mode != SmileMode)
  {
    mode % ModeFaceDetection == 0
  }

  predicate RunsSmileDetector(mode: int): (r: bool)
    ensures IsMode(mode) ==> (r <==> mode == SmileMode || mode == BothMode)
  {
    mode % ModeSmilingDetection == 0
  }

  predicate RunsEyeDetector(mode: int): (r: bool)
    ensures IsMode(mode) ==> (r <==> mode == EyeMode)
  {
    mode % ModeEyeDetection == 0
  }

  /**
   * The mode `startCamera` assigns from the four checkboxes, by a fixed
   * priority: smile, then face, then eye, then both. With no checkbox
   * selected there is no mode (the call is rejected before this point).
   */
  function ModeOf(smile: bool, face: bool, eye: bool, both: bool): (m: Option<int>)
    ensures m.Some? <==> smile || face || eye || both
    ensures m.Some? ==> IsMode(m.value)
  {
    if smile then Some(SmileMode)
    else if face then Some(FaceMode)
    else if eye then Some(EyeMode)
    else if both then Some(BothMode)
    else None
  }

  /** No mode runs all three detectors (each predicate says which modes run it). */
  lemma NoModeRunsEveryDetector(mode: int)
    requires IsMode(mode)
    ensures !(RunsFaceDetector(mode) && RunsSmileDetector(mode) && RunsEyeDetector(mode))
  {
  }

  /**
   * Which detectors run, in terms of the checkboxes: face detection runs
   * unless smile is selected (so the eye and both modes also find faces),
   * smile detection runs for smile or for both alone, eye detection only for
   * eye without smile or face.
   */
  lemma DetectorsOfSelection(smile: bool, face: bool, eye: bool, both: bool)
    requires smile || face || eye || both
    ensures var mode := ModeOf(smile, face, eye, both).value;
      && (RunsFaceDetector(mode) <==> !smile)
      && (RunsSmileDetector(mode) <==> smile || (!face && !eye))
      && (RunsEyeDetector(mode) <==> !smile && !face && eye)
  {
  }

  /** Before any mode is set, the default 0 is divisible by every prime. */
  lemma UnsetModeRunsEveryDetector()
    ensures RunsFaceDetector(UnsetMode) && RunsSmileDetector(UnsetMode) && RunsEyeDetector(UnsetMode)
    ensures !IsMode(UnsetMode)
  {
  }
}
