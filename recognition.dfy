/** The pick-and-recognize pipeline behind the "Pick image for object
    recognition" button.

    It asks for photo-library permission, then launches the image library,
    then runs the object detector on the picked image, and stores the
    detector's output as the new recognition result.  Each step is reached
    only when the one before it succeeded.  The three external services are
    represented by what they answer: the permission status string, the
    picker's selection (an image or a cancellation) and the detector's
    output (a list of detections or a rejected call). */
module Recognition {
  import opened Modes

  /** The only permission status that lets the pipeline go on. */
  const Granted: string := "granted"

  /** What the image library returns. */
  datatype PickerResult = Picked(uri: string) | Cancelled

  /** What the object detector does: resolve with its detections, or reject. */
  datatype DetectorResult = Detected(objects: seq<Detection>) | DetectorFailed

  /** A call into an external service, in the order the pipeline makes them. */
  datatype Call = AskPermission | LaunchImageLibrary | DetectObjects(uri: string)

  /** How a run ends.  The first three end normally; `DetectionRejected` is
      the rejected detector call propagating out of the pipeline. */
  datatype Outcome = PermissionNotGranted | PickCancelled | ResultStored | DetectionRejected

  /** A run: the calls made, the value handed to the result setter (if the
      setter was reached) and how the run ended. */
  datatype Run = Run(calls: seq<Call>, stored: Option<seq<Detection>>, outcome: Outcome)

  /** The position of a call in the pipeline. */
  function Stage(c: Call): nat
  {
    match c
    case AskPermission => 0
    case LaunchImageLibrary => 1
    case DetectObjects(_) => 2
  }

  /** One sequential run of the pipeline for the given service answers. */
  function Pipeline(status: string, picked: PickerResult, detected: DetectorResult): (r: Run)
    // permission is always asked first, and the calls keep pipeline order
    ensures |r.calls| >= 1 && r.calls[0] == AskPermission
    ensures forall i, j :: 0 <= i < j < |r.calls| ==> Stage(r.calls[i]) < Stage(r.calls[j])
    // the picker is launched exactly when permission was granted
    ensures LaunchImageLibrary in r.calls <==> status == Granted
    // the detector runs exactly when an image was picked after a grant, and on that image
    ensures (exists c :: c in r.calls && c.DetectObjects?) <==> status == Granted && picked.Picked?
    ensures forall c :: c in r.calls && c.DetectObjects? ==> picked == Picked(c.uri)
    // the setter is reached only on full success, with the detector's output unchanged
    ensures r.stored.Some? <==> status == Granted && picked.Picked? && detected.Detected?
    ensures r.stored.Some? ==> r.stored.value == detected.objects
    // the outcome names the step that stopped the run
    ensures r.outcome == PermissionNotGranted <==> status != Granted
    ensures r.outcome == PickCancelled <==> status == Granted && picked.Cancelled?
    ensures r.outcome == DetectionRejected <==> status == Granted && picked.Picked? && detected.DetectorFailed?
    ensures r.outcome == ResultStored <==> r.stored.Some?
  {
    if status != Granted then
      Run([AskPermission], None, PermissionNotGranted)
    else
      match picked
      case Cancelled => Run([AskPermission, LaunchImageLibrary], None, PickCancelled)
      case Picked(uri) =>
        var calls := [AskPermission, LaunchImageLibrary, DetectObjects(uri)];
        assert calls[2] in calls;
        match detected
        case DetectorFailed => Run(calls, None, DetectionRejected)
        case Detected(objects) => Run(calls, Some(objects), ResultStored)
  }

  /** The screen state after one run: the recognition result is replaced
      wholesale on full success and nothing else ever changes. */
  function AfterPick(s: ScreenState, status: string, picked: PickerResult, detected: DetectorResult): (t: ScreenState)
    ensures t == s.(objectRecognitionResult := t.objectRecognitionResult)
    ensures status != Granted ==> t == s
    ensures picked.Cancelled? ==> t == s
    ensures detected.DetectorFailed? ==> t == s
    ensures status == Granted && picked.Picked? && detected.Detected? ==>
              t.objectRecognitionResult == Some(detected.objects)
  {
    var run := Pipeline(status, picked, detected);
    if run.stored.Some? then s.(objectRecognitionResult := run.stored) else s
  }

  /** A second successful run after a first one keeps only the second
      detector's output: results are replaced, never merged. */
  lemma SuccessReplacesPrevious(s: ScreenState, picked1: PickerResult, found1: seq<Detection>,
                                picked2: PickerResult, found2: seq<Detection>)
    requires picked1.Picked? && picked2.Picked?
    ensures AfterPick(AfterPick(s, Granted, picked1, Detected(found1)), Granted, picked2, Detected(found2))
         == s.(objectRecognitionResult := Some(found2))
  {
  }

  /** A failed detection after a successful one keeps the earlier result. */
  lemma FailureKeepsPrevious(s: ScreenState, picked1: PickerResult, found1: seq<Detection>,
                             status2: string, picked2: PickerResult)
    requires picked1.Picked?
    ensures AfterPick(AfterPick(s, Granted, picked1, Detected(found1)), status2, picked2, DetectorFailed)
         .objectRecognitionResult == Some(found1)
  {
  }
}
