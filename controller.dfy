/**
 * The controller behind the window: four mutually exclusive mode
 * checkboxes, a camera button that starts and stops capture, and the
 * per-frame detection step. Widgets are reduced to their selected and
 * disabled flags (and the button's label); the camera device to whether it
 * is open; a cascade classifier to the model file last loaded into it.
 */
module Control {
  import opened Geometry
  import opened Modes
  import opened Frame

  const CascadeDirectory: string := "resources/haarcascades/"
  const FaceCascadePath: string := CascadeDirectory + "haarcascade_frontalface_alt2.xml"
  const SmileCascadePath: string := CascadeDirectory + "haarcascade_smile.xml"
  const EyeCascadePath: string := CascadeDirectory + "haarcascade_eye.xml"

  const StartLabel: string := "Start Camera"
  const StopLabel: string := "Stop Camera"

  /**
   * The minimum detection size after one frame: it is taken from the
   * frame (`rounded` stands for `Math.round(height * 0.2f)`) only while it
   * is still 0, and only when that value is positive.
   */
  function NextFaceSize(current: int, rounded: int): (size: int)
    ensures current != 0 ==> size == current
    ensures size != current ==> current == 0 && size == rounded && size > 0
  {
    if current == 0 && rounded > 0 then rounded else current
  }

  /** The minimum detection size after a run of frames, one `rounded` value per frame. */
  function FaceSizeAfter(start: int, rounded: seq<int>): int
    decreases |rounded|
  {
    if rounded == [] then start
    else FaceSizeAfter(NextFaceSize(start, rounded[0]), rounded[1..])
  }

  /** Once the size is non-zero, no later frame changes it. */
  lemma {:induction false} FaceSizeSettles(start: int, rounded: seq<int>)
    requires start != 0
    ensures FaceSizeAfter(start, rounded) == start
  {
    if rounded != [] {
      FaceSizeSettles(NextFaceSize(start, rounded[0]), rounded[1..]);
    }
  }

  /**
   * Starting from 0, the size is the first positive value the frames give,
   * and stays 0 exactly when no frame gives a positive value.
   */
  lemma {:induction false} FaceSizeIsFirstPositive(rounded: seq<int>)
    ensures var size := FaceSizeAfter(0, rounded);
      && (size == 0 <==> forall i :: 0 <= i < |rounded| ==> rounded[i] <= 0)
      && (size != 0 ==> exists k :: 0 <= k < |rounded| && rounded[k] == size && size > 0
                             && forall j :: 0 <= j < k ==> rounded[j] <= 0)
  {
    if rounded != [] {
      if rounded[0] > 0 {
        FaceSizeSettles(rounded[0], rounded[1..]);
        assert rounded[0] == FaceSizeAfter(0, rounded);
      } else {
        FaceSizeIsFirstPositive(rounded[1..]);
        var size := FaceSizeAfter(0, rounded);
        assert size == FaceSizeAfter(0, rounded[1..]);
        if size != 0 {
          var k :| 0 <= k < |rounded[1..]| && rounded[1..][k] == size && size > 0
                   && forall j :: 0 <= j < k ==> rounded[1..][j] <= 0;
          assert rounded[k + 1] == size;
          assert forall j :: 0 <= j < k + 1 ==> rounded[j] <= 0 by {
            forall j | 0 <= j < k + 1 ensures rounded[j] <= 0 {
              if j > 0 { assert rounded[j] == rounded[1..][j - 1]; }
            }
          }
        } else {
          assert forall i :: 0 <= i < |rounded| ==> rounded[i] <= 0 by {
            forall i | 0 <= i < |rounded| ensures rounded[i] <= 0 {
              if i > 0 { assert rounded[i] == rounded[1..][i - 1]; }
            }
          }
        }
      }
    }
  }

  class Controller {
    // The four mode checkboxes.
    var faceSelected: bool
    var smileSelected: bool
    var bothSelected: bool
    var eyeSelected: bool
    var faceDisabled: bool
    var smileDisabled: bool
    var bothDisabled: bool
    var eyeDisabled: bool

    // The camera button.
    var cameraButtonDisabled: bool
    var cameraButtonText: string

    // The model file last loaded into each cascade classifier.
    var faceCascade: Option<string>
    var smileCascade: Option<string>
    var eyeCascade: Option<string>

    var captureOpened: bool
    var cameraActive: bool
    var currentMode: int
    var absoluteFaceSize: int

    predicate AnySelected()
      reads this
    {
      faceSelected || smileSelected || bothSelected || eyeSelected
    }

    predicate CheckboxesDisabled()
      reads this
    {
      faceDisabled && smileDisabled && bothDisabled && eyeDisabled
    }

    predicate CheckboxesEnabled()
      reads this
    {
      !faceDisabled && !smileDisabled && !bothDisabled && !eyeDisabled
    }

    /** The checkboxes are mutually exclusive: at most one is selected. */
    predicate AtMostOneSelected()
      reads this
    {
      && (faceSelected ==> !smileSelected && !bothSelected && !eyeSelected)
      && (smileSelected ==> !faceSelected && !bothSelected && !eyeSelected)
      && (bothSelected ==> !faceSelected && !smileSelected && !eyeSelected)
      && (eyeSelected ==> !faceSelected && !smileSelected && !bothSelected)
    }

    /**
     * The controller's invariant: at most one checkbox is selected, and the
     * rest of the state is consistent.
     */
    ghost predicate Valid()
      reads this
    {
      AtMostOneSelected() && Consistent()
    }

    /**
     * The mode is unset or one of the four; the camera is active exactly
     * when the capture device is open; and while it is active the
     * checkboxes are locked and the mode is the one the selected checkbox
     * gives. This part also holds between a click's flip and its handler.
     */
    ghost predicate Consistent()
      reads this
    {
      && (currentMode == UnsetMode || IsMode(currentMode))
      && absoluteFaceSize >= 0
      && captureOpened == cameraActive
      && (cameraActive ==> CheckboxesDisabled() && ModeOf(smileSelected, faceSelected, eyeSelected, bothSelected) == Some(currentMode))
    }

    /**
     * The state after `init`: camera off, nothing loaded, no face size, no
     * mode. The checkboxes start unselected and enabled; the camera button's
     * initial state comes from the view, which is not part of this model.
     */
    constructor (buttonDisabled: bool, buttonText: string)
      ensures Valid()
      ensures !AnySelected() && CheckboxesEnabled()
      ensures cameraButtonDisabled == buttonDisabled && cameraButtonText == buttonText
      ensures faceCascade == None && smileCascade == None && eyeCascade == None
      ensures !cameraActive && !captureOpened && currentMode == UnsetMode && absoluteFaceSize == 0
    {
      faceSelected, smileSelected, bothSelected, eyeSelected := false, false, false, false;
      faceDisabled, smileDisabled, bothDisabled, eyeDisabled := false, false, false, false;
      cameraButtonDisabled, cameraButtonText := buttonDisabled, buttonText;
      faceCascade, smileCascade, eyeCascade := None, None, None;
      captureOpened, cameraActive := false, false;
      currentMode, absoluteFaceSize := UnsetMode, 0;
    }

    // The handlers run only when their checkbox is clicked, and a disabled
    // checkbox cannot be clicked; hence each requires its own box enabled.
    // They run after the click has flipped the box, so they need only the
    // consistent part of the invariant, and they restore all of it.

    /** Face checkbox handler: clears the other three, loads the face cascade, enables the camera button. */
    method SelectFace()
      requires Consistent()
      requires !faceDisabled
      modifies this`smileSelected, this`bothSelected, this`eyeSelected, this`faceCascade, this`cameraButtonDisabled
      ensures Valid()
      ensures faceSelected == old(faceSelected) && !smileSelected && !bothSelected && !eyeSelected
      ensures faceCascade == Some(FaceCascadePath)
      ensures !cameraButtonDisabled
    {
      if smileSelected {
        smileSelected := false;
      }
      if bothSelected {
        bothSelected := false;
      }
      if eyeSelected {
        eyeSelected := false;
      }
      faceCascade := Some(FaceCascadePath);
      cameraButtonDisabled := false;
    }

    /** Smile checkbox handler: clears the other three, loads the smile cascade, enables the camera button. */
    method SelectSmile()
      requires Consistent()
      requires !smileDisabled
      modifies this`faceSelected, this`bothSelected, this`eyeSelected, this`smileCascade, this`cameraButtonDisabled
      ensures Valid()
      ensures smileSelected == old(smileSelected) && !faceSelected && !bothSelected && !eyeSelected
      ensures smileCascade == Some(SmileCascadePath)
      ensures !cameraButtonDisabled
    {
      if faceSelected {
        faceSelected := false;
      }
      if bothSelected {
        bothSelected := false;
      }
      if eyeSelected {
        eyeSelected := false;
      }
      smileCascade := Some(SmileCascadePath);
      cameraButtonDisabled := false;
    }

    /** Face-and-smile checkbox handler: clears the other three, loads the smile and face cascades. */
    method SelectBoth()
      requires Consistent()
      requires !bothDisabled
      modifies this`faceSelected, this`smileSelected, this`eyeSelected
      modifies this`smileCascade, this`faceCascade, this`cameraButtonDisabled
      ensures Valid()
      ensures bothSelected == old(bothSelected) && !faceSelected && !smileSelected && !eyeSelected
      ensures smileCascade == Some(SmileCascadePath) && faceCascade == Some(FaceCascadePath)
      ensures !cameraButtonDisabled
    {
      if faceSelected {
        faceSelected := false;
      }
      if smileSelected {
        smileSelected := false;
      }
      if eyeSelected {
        eyeSelected := false;
      }
      smileCascade := Some(SmileCascadePath);
      faceCascade := Some(FaceCascadePath);
      cameraButtonDisabled := false;
    }

    /** Eye checkbox handler: clears the other three, loads the eye and face cascades. */
    method SelectEye()
      requires Consistent()
      requires !eyeDisabled
      modifies this`faceSelected, this`smileSelected, this`bothSelected
      modifies this`eyeCascade, this`faceCascade, this`cameraButtonDisabled
      ensures Valid()
      ensures eyeSelected == old(eyeSelected) && !faceSelected && !smileSelected && !bothSelected
      ensures eyeCascade == Some(EyeCascadePath) && faceCascade == Some(FaceCascadePath)
      ensures !cameraButtonDisabled
    {
      if faceSelected {
        faceSelected := false;
      }
      if smileSelected {
        smileSelected := false;
      }
      if bothSelected {
        bothSelected := false;
      }
      eyeCascade := Some(EyeCascadePath);
      faceCascade := Some(FaceCascadePath);
      cameraButtonDisabled := false;
    }

    /**
     * A click on the enabled face checkbox: the toolkit flips its
     * selection, then runs its handler. The result is that the face box
     * is the only one that can be selected.
     */
    method ClickFace()
      requires Valid()
      requires !faceDisabled
      modifies this`faceSelected, this`smileSelected, this`bothSelected, this`eyeSelected
      modifies this`faceCascade, this`cameraButtonDisabled
      ensures Valid()
      ensures faceSelected == !old(faceSelected)
      ensures !smileSelected && !bothSelected && !eyeSelected
      ensures faceCascade == Some(FaceCascadePath)
      ensures !cameraButtonDisabled
    {
      faceSelected := !faceSelected;
      SelectFace();
    }

    /**
     * A click on the enabled smile checkbox: the toolkit flips its
     * selection, then runs its handler. The result is that the smile box
     * is the only one that can be selected.
     */
    method ClickSmile()
      requires Valid()
      requires !smileDisabled
      modifies this`faceSelected, this`smileSelected, this`bothSelected, this`eyeSelected
      modifies this`smileCascade, this`cameraButtonDisabled
      ensures Valid()
      ensures smileSelected == !old(smileSelected)
      ensures !faceSelected && !bothSelected && !eyeSelected
      ensures smileCascade == Some(SmileCascadePath)
      ensures !cameraButtonDisabled
    {
      smileSelected := !smileSelected;
      SelectSmile();
    }

    /**
     * A click on the enabled face-and-smile checkbox: the toolkit flips its
     * selection, then runs its handler. The result is that the face-and-smile box
     * is the only one that can be selected.
     */
    method ClickBoth()
      requires Valid()
      requires !bothDisabled
      modifies this`faceSelected, this`smileSelected, this`bothSelected, this`eyeSelected
      modifies this`smileCascade, this`faceCascade, this`cameraButtonDisabled
      ensures Valid()
      ensures bothSelected == !old(bothSelected)
      ensures !faceSelected && !smileSelected && !eyeSelected
      ensures smileCascade == Some(SmileCascadePath) && faceCascade == Some(FaceCascadePath)
      ensures !cameraButtonDisabled
    {
      bothSelected := !bothSelected;
      SelectBoth();
    }

    /**
     * A click on the enabled eye checkbox: the toolkit flips its
     * selection, then runs its handler. The result is that the eye box
     * is the only one that can be selected.
     */
    method ClickEye()
      requires Valid()
      requires !eyeDisabled
      modifies this`faceSelected, this`smileSelected, this`bothSelected, this`eyeSelected
      modifies this`eyeCascade, this`faceCascade, this`cameraButtonDisabled
      ensures Valid()
      ensures eyeSelected == !old(eyeSelected)
      ensures !faceSelected && !smileSelected && !bothSelected
      ensures eyeCascade == Some(EyeCascadePath) && faceCascade == Some(FaceCascadePath)
      ensures !cameraButtonDisabled
    {
      eyeSelected := !eyeSelected;
      SelectEye();
    }

    /**
     * The camera button. With no checkbox selected the call is rejected (an
     * alert) and nothing changes. Otherwise it toggles: starting locks the
     * checkboxes and asks the device to open (`deviceOpened` is whether it did);
     * only if it opened does the camera become active, with the mode taken
     * from the checkboxes. A failed open leaves the checkboxes locked.
     * Stopping releases the device and unlocks the checkboxes. Like a
     * checkbox, the button can only be pressed while it is enabled.
     */
    method StartCamera(deviceOpened: bool) returns (rejected: bool)
      requires Valid()
      requires !cameraButtonDisabled
      modifies this`faceDisabled, this`smileDisabled, this`bothDisabled, this`eyeDisabled
      modifies this`cameraButtonText, this`captureOpened, this`cameraActive, this`currentMode
      ensures Valid()
      ensures rejected <==> !AnySelected()
      ensures rejected ==> unchanged(this)
      ensures !rejected && !old(cameraActive) ==> CheckboxesDisabled()
      ensures !rejected && !old(cameraActive) && deviceOpened ==>
        && cameraActive
        && currentMode == ModeOf(smileSelected, faceSelected, eyeSelected, bothSelected).value
        && cameraButtonText == StopLabel
      ensures !rejected && !old(cameraActive) && !deviceOpened ==>
        !cameraActive && currentMode == old(currentMode) && cameraButtonText == old(cameraButtonText)
      ensures !rejected && old(cameraActive) ==>
        !cameraActive && CheckboxesEnabled() && currentMode == old(currentMode) && cameraButtonText == StartLabel
    {
      if !eyeSelected && !bothSelected && !faceSelected && !smileSelected {
        return true;
      }
      rejected := false;

      if !cameraActive {
        smileDisabled, faceDisabled, bothDisabled, eyeDisabled := true, true, true, true;
        captureOpened := deviceOpened;
        if captureOpened {
          cameraActive := true;
          if smileSelected {
            currentMode := ModeSmilingDetection;
          } else if faceSelected {
            currentMode := ModeFaceDetection;
          } else if eyeSelected {
            currentMode := ModeEyeDetection * ModeFaceDetection;
          } else if bothSelected {
            currentMode := ModeFaceDetection * ModeSmilingDetection;
          }
          cameraButtonText := StopLabel;
        }
      } else {
        cameraActive := false;
        cameraButtonText := StartLabel;
        faceDisabled, smileDisabled, bothDisabled, eyeDisabled := false, false, false, false;
        captureOpened := false;
      }
    }

    /**
     * One detection step on a captured frame: fixes the minimum face size
     * if it is still unset, then annotates the frame for the current mode.
     */
    method DetectAndDisplay(rounded: int, faces: seq<Rect>, smiles: seq<Rect>, eyes: seq<Rect>)
      returns (drawn: seq<Drawing>, log: seq<string>)
      requires Valid()
      modifies this`absoluteFaceSize
      ensures Valid()
      ensures absoluteFaceSize == NextFaceSize(old(absoluteFaceSize), rounded)
      // the set-once promise, written out
      ensures old(absoluteFaceSize) != 0 ==> absoluteFaceSize == old(absoluteFaceSize)
      ensures drawn == FrameDrawings(currentMode, faces, smiles, eyes)
      ensures log == BlinkLog(currentMode, faces, eyes)
    {
      if absoluteFaceSize == 0 {
        if rounded > 0 {
          absoluteFaceSize := rounded;
        }
      }
      drawn, log := Annotate(currentMode, faces, smiles, eyes);
    }

    /**
     * One timer tick: a frame is processed and shown only when the device is
     * open and the frame read from it is not empty; otherwise nothing is
     * shown and nothing changes. A processed frame always sees a set mode.
     */
    method GrabFrame(frameEmpty: bool, rounded: int, faces: seq<Rect>, smiles: seq<Rect>, eyes: seq<Rect>)
      returns (image: Option<seq<Drawing>>, log: seq<string>)
      requires Valid()
      modifies this`absoluteFaceSize
      ensures Valid()
      ensures image.Some? <==> captureOpened && !frameEmpty
      ensures image.Some? ==>
        && IsMode(currentMode)
        && image.value == FrameDrawings(currentMode, faces, smiles, eyes)
        && log == BlinkLog(currentMode, faces, eyes)
        && absoluteFaceSize == NextFaceSize(old(absoluteFaceSize), rounded)
      ensures image.None? ==> log == [] && absoluteFaceSize == old(absoluteFaceSize)
    {
      image, log := None, [];
      if captureOpened {
        if !frameEmpty {
          var drawn;
          drawn, log := DetectAndDisplay(rounded, faces, smiles, eyes);
          image := Some(drawn);
        }
      }
    }
  }

  /**
   * A session from start-up: clicking the eye checkbox and pressing the
   * camera button with a device that opens starts the eye mode; the next
   * non-empty frame is annotated for that mode; a second press stops the
   * camera and unlocks the checkboxes.
   */
  method EyeSession(rounded: int, faces: seq<Rect>, smiles: seq<Rect>, eyes: seq<Rect>)
    returns (mode: int, shown: Option<seq<Drawing>>, unlocked: bool)
    ensures mode == EyeMode
    ensures shown == Some(FrameDrawings(EyeMode, faces, smiles, eyes))
    ensures unlocked
  {
    var c := new Controller(true, StartLabel);
    c.ClickEye();
    var rejected := c.StartCamera(true);
    mode := c.currentMode;
    var log;
    shown, log := c.GrabFrame(false, rounded, faces, smiles, eyes);
    rejected := c.StartCamera(true);
    unlocked := !c.cameraActive && c.CheckboxesEnabled();
  }
}
