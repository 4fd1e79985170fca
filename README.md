# Smile and Blink controller — a Dafny model

This project models the decision logic of the "Smile and Blink" desktop demo. The demo shows a webcam feed and draws boxes around faces, smiles and eyes found by Haar-cascade classifiers. All of that logic is in `Controller.java`:

- **Mode encoding and dispatch.** A mode is a product of the primes 2 (face), 3 (smile) and 5 (eye). A detector runs on a frame exactly when the mode is divisible by its prime. So eye mode (10) also finds faces, and face-and-smile mode (6) runs the face and smile detectors.
- **Face association.** A smile is drawn in face-and-smile mode only when it lies in the lower half of the most recent face box, within ±10 px. An eye is drawn in eye mode only when it lies between the face's left and right edges with no tolerance, and in the upper half. Its bottom edge is not checked.
- **Per-frame annotation.** The detectors are inputs: the sequences of rectangles they return. Drawing is appending a tagged `Drawing`. The console log is a sequence of lines, with one "blink" per drawn eye when exactly two eyes were found.
- **The controller state.** A click on an enabled checkbox flips it and runs its handler, and the four handlers are mutually exclusive, so at most one box is ever selected. The camera button is rejected when no checkbox is selected, and otherwise toggles the camera. The minimum face size is set once.

Files:
- `geometry.dfy` holds `Point` and `Rect` as OpenCV defines them. `tl()` is `(x, y)` and `br()` is `(x + width, y + height)`.
- `modes.dfy` holds the mode constants, the divisibility dispatch and the checkbox priority.
- `frame.dfy` holds the association predicates and the specification of a frame's drawings and log. It also has `Annotate`, the three detector loops, proved against that specification.
- `controller.dfy` holds the `Controller` class: checkbox clicks and handlers, camera toggle, the detection step and the face-size rule. It also has one start-to-stop session in eye mode.

Coordinates are integers. OpenCV's `Point` holds doubles, but every point the controller compares is a corner of an integer rectangle or the default `(0,0)`. So the midpoint test `y >= (top + bottom) / 2.0` is written exactly as `2 * y >= top + bottom`.

## Model

| member | source | states |
|---|---|---|
| `Modes.ModeOf` | src/smileblink/controller/Controller.java:98-106 | a mode exists exactly when some checkbox is selected, and it is one of 2, 3, 6, 10 |
| `Modes.DetectorsOfSelection` | src/smileblink/controller/Controller.java:98-106 | with priority smile > face > eye > both: face detection runs unless smile is selected; smile detection runs for smile, or for both alone; eye detection runs only for eye without smile or face |
| `Modes.RunsFaceDetector` | src/smileblink/controller/Controller.java:184 | the face detector runs when the mode is even; among the four modes, in every one except smile mode (3) |
| `Modes.RunsSmileDetector` | src/smileblink/controller/Controller.java:202 | the smile detector runs when the mode is divisible by 3; among the four modes, exactly in smile (3) and face-and-smile (6) |
| `Modes.RunsEyeDetector` | src/smileblink/controller/Controller.java:230 | the eye detector runs when the mode is divisible by 5; among the four modes, only in eye mode (10) |
| `Modes.NoModeRunsEveryDetector` | src/smileblink/controller/Controller.java:184-230 | none of the four modes runs all three detectors (which modes run each one is stated by the three dispatch predicates) |
| `Modes.UnsetModeRunsEveryDetector` | src/smileblink/controller/Controller.java:48 | the default mode 0 is not a mode, and it would run all three detectors |
| `Frame.LatestFace` | src/smileblink/controller/Controller.java:196-200 | the reference corners are those of the last face the detector returned, or both (0,0) when it returned none (the property is stated by `Frame.ReferenceIsLastDrawnFace`) |
| `Frame.SmileInFace` | src/smileblink/controller/Controller.java:216-221 | the face-and-smile containment test, with its ±10 px tolerance; an accepted smile is at most the face width plus 20 px wide and at most half the face height plus 10 px tall |
| `Frame.EyeInFace` | src/smileblink/controller/Controller.java:244-248 | the eye containment test, with no tolerance and no bottom check; an accepted eye is no wider than the face, so no eye is accepted against a face of negative width |
| `Frame.Drawn` | src/smileblink/controller/Controller.java:214-228 | a detector's drawings are at most its boxes; each drawing is one of its boxes and accepted; every accepted box is drawn |
| `Frame.DrawFaces` | src/smileblink/controller/Controller.java:196-200 | the face loop draws every face and leaves the reference corners at the last face, or at (0,0) when there are none |
| `Frame.DrawSmiles` | src/smileblink/controller/Controller.java:214-228 | the smile loop, with its inlined conditions, draws exactly the accepted smiles, in detector order |
| `Frame.DrawEyes` | src/smileblink/controller/Controller.java:242-256 | the eye loop draws exactly the accepted eyes, and logs one blink per drawn eye when two eyes were found |
| `Frame.Annotate` | src/smileblink/controller/Controller.java:181-256 | one frame's drawings and log equal the frame specification for any mode |
| `Frame.ReferenceIsLastDrawnFace` | src/smileblink/controller/Controller.java:196-200 | the face smiles and eyes are checked against is the last face drawn |
| `Frame.FacesDrawnFirst` | src/smileblink/controller/Controller.java:184-200 | every mode that runs face detection draws all faces first, in detector order |
| `Frame.FaceModeFrame` | src/smileblink/controller/Controller.java:184-200 | mode 2 draws exactly the faces, in order, and nothing else |
| `Frame.SmileModeFrame` | src/smileblink/controller/Controller.java:225-227 | mode 3 draws exactly the smiles, in order, whatever the face input |
| `Frame.BothModeFrame` | src/smileblink/controller/Controller.java:215-224 | mode 6 draws a smile exactly when both its x-coordinates are in [faceTl.x-10, faceBr.x+10], its top is at or below the midpoint and its bottom is at most faceBr.y+10; it draws no eye |
| `Frame.EyeModeFrame` | src/smileblink/controller/Controller.java:243-249 | mode 10 draws an eye exactly when both its x-coordinates are in [faceTl.x, faceBr.x] and its top is at or above the midpoint; it draws no smile |
| `Frame.BlinkLogShape` | src/smileblink/controller/Controller.java:250-253 | for any mode value: each log line is "blink"; there is one per drawn eye, only in mode 10 with exactly two eyes, so never more than two |
| `Frame.NoEyesOutsideEyeMode` | src/smileblink/controller/Controller.java:241-256 | in any mode other than 10, no eye is drawn, even when the mode lets the eye detector run |
| `Frame.SmileContainmentExamples` | src/smileblink/controller/Controller.java:216-221 | face (10,10)-(110,110) contains smile (30,70)-(90,100) and not (200,200)-(220,220) |
| `Control.NextFaceSize` | src/smileblink/controller/Controller.java:174-179 | one frame's rule: a non-zero size never changes; when it changes, it was 0 and becomes the frame's positive rounded height |
| `Control.FaceSizeSettles` | src/smileblink/controller/Controller.java:174-179 | once the minimum face size is non-zero, no later frame changes it |
| `Control.FaceSizeIsFirstPositive` | src/smileblink/controller/Controller.java:174-179 | starting from 0, the size is the first positive rounded height of the frames seen, and stays 0 exactly when there is none |
| `Control.Controller.constructor` | src/smileblink/controller/Controller.java:55-69 | after `init`: camera off, device closed, no cascade loaded, face size 0, mode unset |
| `Control.Controller.SelectFace` | src/smileblink/controller/Controller.java:261-273 | runs only while its checkbox is enabled, after the click has flipped it; clears smile, both and eye, leaves face as it was, loads the face cascade and enables the camera button; nothing else changes, and afterwards at most one checkbox is selected |
| `Control.Controller.SelectSmile` | src/smileblink/controller/Controller.java:276-288 | runs only while its checkbox is enabled, after the click has flipped it; clears face, both and eye, loads the smile cascade and enables the camera button; nothing else changes, and afterwards at most one checkbox is selected |
| `Control.Controller.SelectBoth` | src/smileblink/controller/Controller.java:291-304 | runs only while its checkbox is enabled, after the click has flipped it; clears face, smile and eye, loads the smile and face cascades and enables the camera button; nothing else changes, and afterwards at most one checkbox is selected |
| `Control.Controller.SelectEye` | src/smileblink/controller/Controller.java:307-320 | runs only while its checkbox is enabled, after the click has flipped it; clears face, smile and both, loads the eye and face cascades and enables the camera button; nothing else changes, and afterwards at most one checkbox is selected |
| `Control.Controller.ClickFace` | src/smileblink/controller/Controller.java:261-273 | a click on the enabled face checkbox flips it and runs its handler: afterwards it is the only box that can be selected, the handler has loads the face cascade, the invariant holds and the camera button is enabled |
| `Control.Controller.ClickSmile` | src/smileblink/controller/Controller.java:276-288 | a click on the enabled smile checkbox flips it and runs its handler: afterwards it is the only box that can be selected, the handler has loads the smile cascade, the invariant holds and the camera button is enabled |
| `Control.Controller.ClickBoth` | src/smileblink/controller/Controller.java:291-304 | a click on the enabled face-and-smile checkbox flips it and runs its handler: afterwards it is the only box that can be selected, the handler has loads the smile and face cascades, the invariant holds and the camera button is enabled |
| `Control.Controller.ClickEye` | src/smileblink/controller/Controller.java:307-320 | a click on the enabled eye checkbox flips it and runs its handler: afterwards it is the only box that can be selected, the handler has loads the eye and face cascades, the invariant holds and the camera button is enabled |
| `Control.Controller.StartCamera` | src/smileblink/controller/Controller.java:72-144 | pressable only while the button is enabled; rejected, with nothing changed, exactly when no checkbox is selected. From inactive it locks the checkboxes. If the device opens, the camera becomes active with the priority mode and the label "Stop Camera". If it fails, the camera stays inactive and the checkboxes stay locked. From active it becomes inactive, releases the device, unlocks the checkboxes and shows "Start Camera". The invariant is kept: at most one checkbox is selected, active iff the device is open, and while active the mode is that of the selection and the checkboxes are locked |
| `Control.Controller.DetectAndDisplay` | src/smileblink/controller/Controller.java:164-258 | sets the face size only while it is 0, and only to a positive value; the frame's drawings and log are those of the current mode |
| `Control.Controller.GrabFrame` | src/smileblink/controller/Controller.java:146-162 | a frame is processed exactly when the device is open and the frame is not empty, and it then always sees one of the four modes; otherwise nothing changes |
| `Control.EyeSession` | src/smileblink/controller/Controller.java:72-144 | from start-up, a click on the eye checkbox and a press with a device that opens start mode 10; the next non-empty frame shows that mode's drawings; a second press stops the camera and unlocks the checkboxes |

## Left out

- Detection itself (`cvtColor`, `equalizeHist`, `detectMultiScale` and its scale, neighbour and size arguments): the detectors' results are inputs.
- Drawing and encoding (`Imgproc.rectangle`, its colours and thickness, `matToImage`): a drawing is a tagged rectangle appended to a sequence. Faces are drawn in one colour, and smiles and eyes in another.
- `Math.round(height * 0.2f)` is floating point. It is the input `rounded`, given per frame.
- `VideoCapture.open(1)`, `isOpened`, `read` and `release` are device I/O. Whether the device opened is the input `deviceOpened`. Whether a read frame is empty is the input `frameEmpty`. Exceptions from reading are not modelled.
- The `ScheduledExecutorService` timer, the 33 ms period, `shutdown` and `awaitTermination` are scheduling and threading. The model has one `GrabFrame` call per tick and no concurrency.
- JavaFX widgets: checkboxes and the button are reduced to selected/disabled flags and a label. The error `Alert` is the returned `rejected` flag. The image view's size settings and `setImage` are left out. A click on a checkbox is modelled by the `Click` methods: the toolkit flips the box, then calls its handler. The FXML wiring of handlers to checkboxes is assumed to be that pairing.
- The initial state of the widgets comes from the FXML view, which is not part of this model. The checkboxes start unselected and enabled, and the camera button's state and label are constructor parameters.
- Console output (`log`, `System.err`) is a returned sequence of lines. Only "blink" is modelled. The error messages are not.
- `CascadeClassifier.load` is modelled as recording the file loaded. Whether loading succeeds is not modelled, and the source ignores it too.
- `timeSmile` is set to 0 in `init` and never read, so it is not modelled.
- Integer width: rectangle corners are unbounded integers. Java's 32-bit `x + width` in `Rect.br()` cannot overflow for boxes inside a camera frame.
- `src/smileblink/Main.java` holds application start-up and native library loading, and no logic.
