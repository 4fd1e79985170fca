/**
 * What one camera frame gets annotated with. The three cascade detectors
 * are abstracted as the sequences of rectangles they return (in their
 * order); drawing a rectangle on the frame is appending a `Drawing`, and
 * the console log is a sequence of lines.
 */
module Frame {
  import opened Geometry
  import opened Modes

  /** Slack, in pixels, the smile check allows around the face box. */
  const Tolerance: int := 10

  /** The line logged for a blink. */
  const Blink: string := "blink"

  /** The face corners `latestTlFace` and `latestBrFace` that smiles and eyes are checked against. */
  datatype FaceBox = FaceBox(tl: Point, br: Point)

  /** Both corners at the default point: the reference when no face was found. */
  const NoFace: FaceBox := FaceBox(Origin, Origin)

  /** The last face the detector returned, or `NoFace` when it found none. */
  function LatestFace(faces: seq<Rect>): FaceBox {
    if faces == [] then NoFace
    else FaceBox(faces[|faces| - 1].Tl(), faces[|faces| - 1].Br())
  }

  /** The reference face of a frame: only a mode that runs face detection has one. */
  function ReferenceFace(mode: int, faces: seq<Rect>): FaceBox {
    if RunsFaceDetector(mode) then LatestFace(faces) else NoFace
  }

  /**
   * A smile belongs to the face when both its corners lie within the face's
   * horizontal span widened by the tolerance, its top edge is at or below
   * the face's vertical midpoint, and its bottom edge is at most the
   * tolerance below the face's bottom edge. The midpoint test
   * `y >= (top + bottom) / 2.0` is written exactly as `2 * y >= top + bottom`.
   */
  predicate SmileInFace(face: FaceBox, smile: Rect): (r: bool)
    // an accepted smile is at most the face's width plus twice the tolerance
    // wide, and at most half the face's height plus the tolerance tall
    ensures r ==> smile.width <= (face.br.x - face.tl.x) + 2 * Tolerance
    ensures r ==> 2 * smile.height <= (face.br.y - face.tl.y) + 2 * Tolerance
  {
    && smile.Tl().x <= face.br.x + Tolerance
    && smile.Tl().x >= face.tl.x - Tolerance
    && 2 * smile.Tl().y >= face.tl.y + face.br.y
    && smile.Br().y <= face.br.y + Tolerance
    && smile.Br().x <= face.br.x + Tolerance
    && smile.Br().x >= face.tl.x - Tolerance
  }

  /**
   * An eye belongs to the face when both its corners lie within the face's
   * horizontal span (no tolerance) and its top edge is at or above the
   * face's vertical midpoint. Its bottom edge is not checked.
   */
  predicate EyeInFace(face: FaceBox, eye: Rect): (r: bool)
    // an accepted eye is no wider than the face, so the reference face
    // (the default one included) must have a non-negative width
    ensures r ==> eye.width <= face.br.x - face.tl.x
    ensures r ==> face.tl.x <= face.br.x
  {
    && eye.Tl().x <= face.br.x
    && eye.Tl().x >= face.tl.x
    && 2 * eye.Tl().y <= face.tl.y + face.br.y
    && eye.Br().x <= face.br.x
    && eye.Br().x >= face.tl.x
  }

  datatype Feature = FaceFeature | SmileFeature | EyeFeature

  /** A rectangle drawn on the frame, tagged with the detector that found it. */
  datatype Drawing = Drawing(feature: Feature, box: Rect)

  /**
   * Whether a detected box of the given feature is drawn, once its detector
   * has run: faces always; smiles always, except that the face-and-smile
   * mode keeps only smiles inside the reference face; eyes only in the eye
   * mode, and only inside the reference face.
   */
  predicate Accepts(feature: Feature, mode: int, face: FaceBox, box: Rect) {
    match feature
    case FaceFeature => true
    case SmileFeature => mode != BothMode || SmileInFace(face, box)
    case EyeFeature => mode == EyeMode && EyeInFace(face, box)
  }

  /** The drawings one detector's boxes produce, in the detector's order. */
  function Drawn(feature: Feature, mode: int, face: FaceBox, boxes: seq<Rect>): (r: seq<Drawing>)
    ensures |r| <= |boxes|
    ensures forall d :: d in r ==> d.feature == feature && d.box in boxes && Accepts(feature, mode, face, d.box)
    ensures forall b :: b in boxes && Accepts(feature, mode, face, b) ==> Drawing(feature, b) in r
    decreases |boxes|
  {
    if boxes == [] then []
    else
      var last := boxes[|boxes| - 1];
      var prior := Drawn(feature, mode, face, boxes[..|boxes| - 1]);
      assert boxes == boxes[..|boxes| - 1] + [last];
      if Accepts(feature, mode, face, last) then prior + [Drawing(feature, last)] else prior
  }

  /**
   * Everything drawn on a frame: faces first, then smiles, then eyes. Faces
   * are accepted whatever the mode and reference, so their drawings are
   * written with the face mode and `NoFace`.
   */
  function FrameDrawings(mode: int, faces: seq<Rect>, smiles: seq<Rect>, eyes: seq<Rect>): seq<Drawing> {
    var face := ReferenceFace(mode, faces);
    (if RunsFaceDetector(mode) then Drawn(FaceFeature, FaceMode, NoFace, faces) else [])
    + (if RunsSmileDetector(mode) then Drawn(SmileFeature, mode, face, smiles) else [])
    + (if RunsEyeDetector(mode) then Drawn(EyeFeature, mode, face, eyes) else [])
  }

  /** Every box drawn, in order: what a detector whose boxes are all accepted produces. */
  function AsDrawings(feature: Feature, boxes: seq<Rect>): seq<Drawing> {
    seq(|boxes|, i requires 0 <= i < |boxes| => Drawing(feature, boxes[i]))
  }

  /** `n` blink lines. */
  function BlinkLines(n: nat): (r: seq<string>)
    ensures |r| == n
    ensures forall i :: 0 <= i < n ==> r[i] == Blink
  {
    if n == 0 then [] else BlinkLines(n - 1) + [Blink]
  }

  /** What a frame logs: one blink per drawn eye, when the detector found exactly two eyes. */
  function BlinkLog(mode: int, faces: seq<Rect>, eyes: seq<Rect>): seq<string> {
    if RunsEyeDetector(mode) && |eyes| == 2
    then BlinkLines(|Drawn(EyeFeature, mode, ReferenceFace(mode, faces), eyes)|)
    else []
  }

  /**
   * Annotates one frame: runs the face, smile and eye loops of the
   * controller for the detectors the mode selects. The face loop leaves
   * behind the reference corners the other two check against.
   */
  method Annotate(mode: int, faces: seq<Rect>, smiles: seq<Rect>, eyes: seq<Rect>)
    returns (drawn: seq<Drawing>, log: seq<string>)
    ensures drawn == FrameDrawings(mode, faces, smiles, eyes)
    ensures log == BlinkLog(mode, faces, eyes)
  {
    drawn, log := [], [];
    var latestTlFace, latestBrFace := Origin, Origin;
    if mode % ModeFaceDetection == 0 {
      drawn, latestTlFace, latestBrFace := DrawFaces(faces);
    }
    if mode % ModeSmilingDetection == 0 {
      var smileDrawn := DrawSmiles(mode, latestTlFace, latestBrFace, smiles);
      drawn := drawn + smileDrawn;
    }
    if mode % ModeEyeDetection == 0 {
      var eyeDrawn, eyeLog := DrawEyes(mode, latestTlFace, latestBrFace, eyes);
      drawn, log := drawn + eyeDrawn, eyeLog;
    }
  }

  /** The face loop: draws every face and keeps the corners of the last one. */
  method DrawFaces(faces: seq<Rect>) returns (drawn: seq<Drawing>, latestTlFace: Point, latestBrFace: Point)
    ensures drawn == Drawn(FaceFeature, FaceMode, NoFace, faces)
    ensures FaceBox(latestTlFace, latestBrFace) == LatestFace(faces)
  {
    drawn, latestTlFace, latestBrFace := [], Origin, Origin;
    var i := 0;
    while i < |faces|
      invariant 0 <= i <= |faces|
      invariant drawn == Drawn(FaceFeature, FaceMode, NoFace, faces[..i])
      invariant FaceBox(latestTlFace, latestBrFace) == LatestFace(faces[..i])
    {
      assert faces[..i + 1] == faces[..i] + [faces[i]];
      DrawnSnoc(FaceFeature, FaceMode, NoFace, faces[..i], faces[i]);
      drawn := drawn + [Drawing(FaceFeature, faces[i])];
      latestBrFace := faces[i].Br();
      latestTlFace := faces[i].Tl();
      i := i + 1;
    }
    assert faces[..i] == faces;
  }

  /** The smile loop: in face-and-smile mode only smiles inside the face are drawn, otherwise all. */
  method DrawSmiles(mode: int, latestTlFace: Point, latestBrFace: Point, smiles: seq<Rect>) returns (drawn: seq<Drawing>)
    ensures drawn == Drawn(SmileFeature, mode, FaceBox(latestTlFace, latestBrFace), smiles)
  {
    ghost var face := FaceBox(latestTlFace, latestBrFace);
    drawn := [];
    var i := 0;
    while i < |smiles|
      invariant 0 <= i <= |smiles|
      invariant drawn == Drawn(SmileFeature, mode, face, smiles[..i])
    {
      assert smiles[..i + 1] == smiles[..i] + [smiles[i]];
      DrawnSnoc(SmileFeature, mode, face, smiles[..i], smiles[i]);
      if mode == ModeFaceDetection * ModeSmilingDetection {
        if smiles[i].Tl().x <= latestBrFace.x + 10
          && smiles[i].Tl().x >= latestTlFace.x - 10
          && 2 * smiles[i].Tl().y >= latestTlFace.y + latestBrFace.y
          && smiles[i].Br().y <= latestBrFace.y + 10
          && smiles[i].Br().x <= latestBrFace.x + 10
          && smiles[i].Br().x >= latestTlFace.x - 10
        {
          drawn := drawn + [Drawing(SmileFeature, smiles[i])];
        }
      } else {
        drawn := drawn + [Drawing(SmileFeature, smiles[i])];
      }
      i := i + 1;
    }
    assert smiles[..i] == smiles;
  }

  /**
   * The eye loop: only in eye mode, only eyes inside the face are drawn,
   * and each drawn eye logs a blink when exactly two eyes were found.
   */
  method DrawEyes(mode: int, latestTlFace: Point, latestBrFace: Point, eyes: seq<Rect>)
    returns (drawn: seq<Drawing>, log: seq<string>)
    ensures drawn == Drawn(EyeFeature, mode, FaceBox(latestTlFace, latestBrFace), eyes)
    ensures log == if |eyes| == 2 then BlinkLines(|drawn|) else []
  {
    ghost var face := FaceBox(latestTlFace, latestBrFace);
    drawn, log := [], [];
    var i := 0;
    while i < |eyes|
      invariant 0 <= i <= |eyes|
      invariant drawn == Drawn(EyeFeature, mode, face, eyes[..i])
      invariant log == if |eyes| == 2 then BlinkLines(|drawn|) else []
    {
      assert eyes[..i + 1] == eyes[..i] + [eyes[i]];
      DrawnSnoc(EyeFeature, mode, face, eyes[..i], eyes[i]);
      if mode == ModeEyeDetection * ModeFaceDetection {
        if eyes[i].Tl().x <= latestBrFace.x
          && eyes[i].Tl().x >= latestTlFace.x
          && 2 * eyes[i].Tl().y <= latestTlFace.y + latestBrFace.y
          && eyes[i].Br().x <= latestBrFace.x
          && eyes[i].Br().x >= latestTlFace.x
        {
          drawn := drawn + [Drawing(EyeFeature, eyes[i])];
          if |eyes| == 2 {
            log := log + [Blink];
          }
        }
      }
      i := i + 1;
    }
    assert eyes[..i] == eyes;
  }

  /** Drawing one more box extends the drawings by that box when it is accepted. */
  lemma DrawnSnoc(feature: Feature, mode: int, face: FaceBox, boxes: seq<Rect>, b: Rect)
    ensures Drawn(feature, mode, face, boxes + [b]) ==
      Drawn(feature, mode, face, boxes) + if Accepts(feature, mode, face, b) then [Drawing(feature, b)] else []
  {
  }

  /** When every box is accepted, the drawings are exactly the boxes, in order. */
  lemma {:induction false} DrawnAll(feature: Feature, mode: int, face: FaceBox, boxes: seq<Rect>)
    requires forall b :: b in boxes ==> Accepts(feature, mode, face, b)
    ensures Drawn(feature, mode, face, boxes) == AsDrawings(feature, boxes)
  {
    if boxes != [] {
      var prefix, last := boxes[..|boxes| - 1], boxes[|boxes| - 1];
      assert boxes == prefix + [last];
      assert forall b :: b in prefix ==> b in boxes;
      DrawnAll(feature, mode, face, prefix);
      DrawnSnoc(feature, mode, face, prefix, last);
    }
  }

  /** A mode that runs face detection draws every face first, in detector order. */
  lemma {:induction false} FacesDrawnFirst(mode: int, faces: seq<Rect>, smiles: seq<Rect>, eyes: seq<Rect>)
    requires RunsFaceDetector(mode)
    ensures var r := FrameDrawings(mode, faces, smiles, eyes);
      && |r| >= |faces|
      && r[..|faces|] == AsDrawings(FaceFeature, faces)
  {
    DrawnAll(FaceFeature, FaceMode, NoFace, faces);
    var r := FrameDrawings(mode, faces, smiles, eyes);
    assert r[..|faces|] == Drawn(FaceFeature, FaceMode, NoFace, faces);
  }

  /** The reference face smiles and eyes are checked against is the last face drawn. */
  lemma {:induction false} ReferenceIsLastDrawnFace(mode: int, faces: seq<Rect>, smiles: seq<Rect>, eyes: seq<Rect>)
    requires RunsFaceDetector(mode) && faces != []
    ensures |FrameDrawings(mode, faces, smiles, eyes)| >= |faces|
    ensures var last := FrameDrawings(mode, faces, smiles, eyes)[|faces| - 1];
      && last.feature == FaceFeature
      && ReferenceFace(mode, faces) == FaceBox(last.box.Tl(), last.box.Br())
  {
    DrawnAll(FaceFeature, FaceMode, NoFace, faces);
  }

  /** Face mode draws every face, in order, and nothing else. */
  lemma {:induction false} FaceModeFrame(faces: seq<Rect>, smiles: seq<Rect>, eyes: seq<Rect>)
    ensures FrameDrawings(FaceMode, faces, smiles, eyes) == AsDrawings(FaceFeature, faces)
  {
    DrawnAll(FaceFeature, FaceMode, NoFace, faces);
  }

  /** Smile mode draws every smile, in order, whatever the faces are. */
  lemma {:induction false} SmileModeFrame(faces: seq<Rect>, smiles: seq<Rect>, eyes: seq<Rect>)
    ensures FrameDrawings(SmileMode, faces, smiles, eyes) == AsDrawings(SmileFeature, smiles)
  {
    assert ReferenceFace(SmileMode, faces) == NoFace;
    assert FrameDrawings(SmileMode, faces, smiles, eyes) == Drawn(SmileFeature, SmileMode, NoFace, smiles);
    DrawnAll(SmileFeature, SmileMode, NoFace, smiles);
  }

  /**
   * Face-and-smile mode draws exactly the detected smiles that lie inside
   * the last face, with the tolerance spelled out; it draws no eye.
   */
  lemma {:induction false} BothModeFrame(faces: seq<Rect>, smiles: seq<Rect>, eyes: seq<Rect>, s: Rect)
    ensures var f := LatestFace(faces);
      Drawing(SmileFeature, s) in FrameDrawings(BothMode, faces, smiles, eyes) <==>
        && s in smiles
        && f.tl.x - 10 <= s.x <= f.br.x + 10
        && f.tl.x - 10 <= s.x + s.width <= f.br.x + 10
        && 2 * s.y >= f.tl.y + f.br.y
        && s.y + s.height <= f.br.y + 10
    ensures forall d :: d in FrameDrawings(BothMode, faces, smiles, eyes) ==> d.feature != EyeFeature
  {
  }

  /**
   * Eye mode draws exactly the detected eyes that lie inside the last face,
   * with no tolerance and no bottom-edge check; it draws no smile.
   */
  lemma {:induction false} EyeModeFrame(faces: seq<Rect>, smiles: seq<Rect>, eyes: seq<Rect>, e: Rect)
    ensures var f := LatestFace(faces);
      Drawing(EyeFeature, e) in FrameDrawings(EyeMode, faces, smiles, eyes) <==>
        && e in eyes
        && f.tl.x <= e.x <= f.br.x
        && f.tl.x <= e.x + e.width <= f.br.x
        && 2 * e.y <= f.tl.y + f.br.y
    ensures forall d :: d in FrameDrawings(EyeMode, faces, smiles, eyes) ==> d.feature != SmileFeature
  {
  }

  /**
   * Blinks: every logged line is "blink"; there is one per eye drawn, and
   * only when the detector found exactly two eyes, so never more than two.
   */
  lemma BlinkLogShape(mode: int, faces: seq<Rect>, smiles: seq<Rect>, eyes: seq<Rect>)
    ensures var log := BlinkLog(mode, faces, eyes);
      && (forall i :: 0 <= i < |log| ==> log[i] == Blink)
      && |log| <= 2
      && (log != [] ==> mode == EyeMode && |eyes| == 2)
      && (mode == EyeMode && |eyes| == 2 ==>
            |log| == |FrameDrawings(mode, faces, smiles, eyes)| - |faces|)
  {
    if mode == EyeMode {
      DrawnAll(FaceFeature, FaceMode, NoFace, faces);
    } else {
      NoEyesOutsideEyeMode(mode, ReferenceFace(mode, faces), eyes);
    }
  }

  /** Eyes are drawn only in the eye mode: in any other mode no eye box is accepted. */
  lemma {:induction false} NoEyesOutsideEyeMode(mode: int, face: FaceBox, eyes: seq<Rect>)
    requires mode != EyeMode
    ensures Drawn(EyeFeature, mode, face, eyes) == []
    decreases |eyes|
  {
    if eyes != [] {
      NoEyesOutsideEyeMode(mode, face, eyes[..|eyes| - 1]);
    }
  }

  /** The containment examples: face (10,10)-(110,110), smile (30,70)-(90,100) inside, (200,200)-(220,220) not. */
  lemma SmileContainmentExamples()
    ensures SmileInFace(FaceBox(Point(10, 10), Point(110, 110)), Rect(30, 70, 60, 30))
    ensures !SmileInFace(FaceBox(Point(10, 10), Point(110, 110)), Rect(200, 200, 20, 20))
  {
  }
}
