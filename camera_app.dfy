/** The screen component itself: eight pieces of state updated in place by
    the toggle handlers and by the pick-image handler.

    Each method is specified by the pure transition it performs on the
    state's snapshot: the toggles by `Modes.Toggle`, the pick-image handler
    by `Recognition.Pipeline` and `Recognition.AfterPick`. */
module CameraApp {
  import opened Modes
  import opened Recognition

  class ARCameraApp {
    var isAREnabled: bool
    var isVREnabled: bool
    var isObjectRecognitionEnabled: bool
    var objectRecognitionResult: Option<seq<Detection>>
    var isFilterEnabled: bool
    var isNavigationEnabled: bool
    var destination: Option<Position>
    var currentLocation: Option<Position>

    /** The current values of all eight fields. */
    function Snapshot(): ScreenState
      reads this
    {
      ScreenState(isAREnabled, isVREnabled, isObjectRecognitionEnabled, objectRecognitionResult,
                  isFilterEnabled, isNavigationEnabled, destination, currentLocation)
    }

    /** Mounting: every flag off, no result; the positions come from outside. */
    constructor (destination: Option<Position>, currentLocation: Option<Position>)
      ensures Snapshot() == Initial(destination, currentLocation)
    {
      isAREnabled := false;
      isVREnabled := false;
      isObjectRecognitionEnabled := false;
      objectRecognitionResult := None;
      isFilterEnabled := false;
      isNavigationEnabled := false;
      this.destination := destination;
      this.currentLocation := currentLocation;
    }

    method ToggleAR()
      modifies this
      ensures Snapshot() == Toggle(old(Snapshot()), AR)
    {
      isAREnabled := !isAREnabled;
    }

    method ToggleVR()
      modifies this
      ensures Snapshot() == Toggle(old(Snapshot()), VR)
    {
      isVREnabled := !isVREnabled;
    }

    method ToggleObjectRecognition()
      modifies this
      ensures Snapshot() == Toggle(old(Snapshot()), ObjectRecognition)
    {
      isObjectRecognitionEnabled := !isObjectRecognitionEnabled;
    }

    method ToggleFilter()
      modifies this
      ensures Snapshot() == Toggle(old(Snapshot()), Filter)
    {
      isFilterEnabled := !isFilterEnabled;
    }

    method ToggleNavigation()
      modifies this
      ensures Snapshot() == Toggle(old(Snapshot()), Navigation)
    {
      isNavigationEnabled := !isNavigationEnabled;
    }

    /** One run of the pick-image handler, given what the permission service,
        the image library and the detector answer.  Returns the calls made
        and how the run ended; only the recognition result may change, and
        only when all three steps succeed. */
    method PickImage(status: string, picked: PickerResult, detected: DetectorResult)
      returns (outcome: Outcome, calls: seq<Call>)
      modifies this
      ensures calls == Pipeline(status, picked, detected).calls
      ensures outcome == Pipeline(status, picked, detected).outcome
      ensures Snapshot() == AfterPick(old(Snapshot()), status, picked, detected)
    {
      calls := [AskPermission];
      if status != Granted {
        outcome := PermissionNotGranted;
        return;
      }
      calls := calls + [LaunchImageLibrary];
      if picked.Cancelled? {
        outcome := PickCancelled;
        return;
      }
      calls := calls + [DetectObjects(picked.uri)];
      if detected.DetectorFailed? {
        // the awaited detector call rejects: the setter below is never reached
        outcome := DetectionRejected;
        return;
      }
      objectRecognitionResult := Some(detected.objects);
      outcome := ResultStored;
    }
  }
}
