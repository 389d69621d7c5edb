# AR/VR camera screen: mode state, pick-and-recognize pipeline, render decision

This project is a Dafny model of `ARCameraApp`, the one screen of a React
Native camera app. The screen has five mode flags: AR, VR, object
recognition, filter and navigation. It also holds an optional
object-recognition result and two optional positions, a destination and a
current location. The model covers three parts of the screen:

- **Mode state and toggles** (`Modes`, `CameraApp`). The component's state
  hooks are the fields of the class `CameraApp.ARCameraApp`. Each toggle
  handler is a method that flips one field. The method is specified by the
  pure transition `Modes.Toggle` on the datatype `Modes.ScreenState`.
- **Pick-and-recognize pipeline** (`Recognition`, `CameraApp`). The handler
  asks for photo-library permission, then opens the image library, then runs
  the object detector, then stores the detector's output. It is the method
  `ARCameraApp.PickImage`, specified by the pure function
  `Recognition.Pipeline` and by `Recognition.AfterPick`. The three external
  services are parameters that give their answers: the permission status
  string, the picker's selection or cancellation, and the detector's
  detections or rejection. The method also returns the list of service calls
  it made, so "the picker is never invoked" can be stated as a property.
- **Render decision** (`Render`, `LabelText`). The returned element tree is
  modelled as a pure function `Render.Render` from the state to a `Frame`. A
  frame has four parts: the mounted view (AR, VR or camera), the AR scene's
  overlays in order (label text, arrow model, flag model), whether the filter
  image is shown, and the control buttons with their texts and handlers. The
  label's text is the detected labels joined with `", "`
  (`LabelText.JoinLabels`). Its partner is `LabelText.Split`, which undoes
  the join when at least one label is present and no label contains `", "`.

Behaviour worth noting:

- Nothing in the state keeps AR and VR exclusive: neither toggle touches the
  other's flag, so calling both handlers turns both flags on
  (`Modes.ARAndVRCanBothBeOn`). Exclusivity exists only in rendering: AR
  wins over VR, and VR wins over the camera.
- The toggle buttons exist only inside the camera view (App.js:118-137).
  The AR scene and the VR view hold no controls. So through the rendered
  screen no tap can reach a state with both AR and VR on
  (`Render.OfferedRunKeepsOneView`). Also, once AR or VR is on, nothing on
  the screen can switch it off again (`Render.OfferedIffCameraView`).
- The label overlay is shown whenever the recognition result is non-null.
  The object recognition flag is not consulted. A non-null empty list is
  truthy in JavaScript, so it still gives a label, with empty text
  (`Render.EmptyResultGivesEmptyLabel`).
- A detector failure is not turned into a reported outcome. The awaited
  call rejects, the rejection leaves the handler, and the setter is never
  reached. The model names this ending `DetectionRejected` and keeps the
  previous result.

Assumptions:

- App.js line 79 reads `isNavigation enabled && destination && (...)`,
  which does not parse. The model follows line 70 and reads it as
  `isNavigationEnabled && destination && (...)`. The flag model is
  therefore present exactly when navigation is on and a destination is set.
- `VRView` is used at App.js:90 but never imported. The model treats the
  VR branch as mounting a VR view with no content.
- App.js:16-17 initialise `destination` and `currentLocation` to null, and
  their setters are never called. The model takes both as optional inputs
  supplied from outside, through the constructor, and never changes them.

## Model

| member | source | states |
|---|---|---|
| Modes.Initial | App.js:10-17 | At mount every flag is off and there is no recognition result; the two positions are the supplied ones |
| Modes.StateExtensionality | App.js:10-17 | A screen state is fully determined by its five flags, its recognition result and its two positions |
| Modes.Toggle | App.js:19-37 | A toggle flips exactly its own flag, leaves the other four flags unchanged, and leaves the result and both positions unchanged |
| Modes.ToggleTwice | App.js:19-37 | Applying the same toggle twice returns the state to its original value |
| Modes.TogglesCommute | App.js:19-37 | Any two toggles give the same state in either order |
| Modes.ApplyAll | App.js:19-37 | Calling a sequence of toggle handlers leaves every mode whose handler is not called unchanged. Its full behaviour is stated by ApplyAllParity and ApplyAllKeepsData |
| Modes.ApplyAllParity | App.js:19-37 | After any sequence of handler calls, a flag differs from its start value exactly when its own handler was called an odd number of times; calls of other handlers do not affect it |
| Modes.ApplyAllKeepsData | App.js:19-37 | No sequence of toggle handler calls changes the recognition result or either position |
| Modes.ARAndVRCanBothBeOn | App.js:10-25 | Nothing in the state keeps AR and VR exclusive: calling the AR handler and then the VR handler from the initial state leaves both flags on |
| LabelText.Labels | App.js:66 | The `map(obj => obj.label)` step keeps the length and gives the label of each detection at the same index |
| LabelText.Join | App.js:66 | `join(sep)`: the empty list gives "", and otherwise the text starts with the first part. SplitJoin, JoinSnoc and EmptyListAndBlankLabelAgree state the rest |
| LabelText.JoinLabels | App.js:66 | `map(obj => obj.label).join(', ')`: no detections give "", and otherwise the text starts with the first label. LabelsRoundTrip and JoinLabelsSnoc state that it lists all labels in detection order |
| LabelText.Split | App.js:66 | Cutting a text at ", " always gives at least one part, and a text that is not cut comes back whole |
| LabelText.SplitPlain | App.js:66 | A label without ", " is not cut by Split |
| LabelText.SplitAfterPart | App.js:66 | Split of part + ", " + rest gives that part followed by the split of the rest, when the part has no ", " |
| LabelText.SplitJoin | App.js:66 | Split undoes `join(', ')` for any non-empty list of parts without ", ": the parts come back in order |
| LabelText.LabelsRoundTrip | App.js:66 | The label text lists the detected labels in detection order: Split recovers exactly the labels when there is at least one and none contains ", " |
| LabelText.EmptyListAndBlankLabelAgree | App.js:64-66 | An empty detection list and a single detection with an empty label both give the empty label text |
| LabelText.JoinSnoc | App.js:66 | Joining one more part appends the separator and the part |
| LabelText.JoinLabelsSnoc | App.js:66 | One more detection appends ", " and its label to a non-empty label text |
| Recognition.Pipeline | App.js:39-52 | Permission is asked first and calls keep pipeline order. The picker runs iff status is "granted". The detector runs iff an image was picked after a grant, and on that image's uri. The setter is reached iff all three steps succeed, and then gets the detector output unchanged. The outcome names the step that stopped the run |
| Recognition.AfterPick | App.js:39-52 | A run changes at most the recognition result. A non-granted status, a cancelled pick or a detector failure leaves the state unchanged. Full success replaces the result wholesale with the detections |
| Recognition.SuccessReplacesPrevious | App.js:48-49 | Two successful runs leave only the second detector output: results are replaced, not merged |
| Recognition.FailureKeepsPrevious | App.js:40-50 | A detector failure after a successful run keeps the earlier result |
| Render.Overlays | App.js:63-88 | The AR scene's children are in the order label, arrow, flag, each at most once. The label is present iff the result is non-null, whatever the object recognition flag, with the joined labels at (0, 0, -0.5). The arrow is present iff navigation is on and a current location is set, placed there. The flag is present iff navigation is on and a destination is set, placed there |
| Render.HeadNotInTail | App.js:63-88 | In an overlay list in scene order, the first overlay does not occur again |
| Render.SameHead | App.js:63-88 | Two overlay lists in scene order with the same members have the same first overlay |
| Render.RankSortedUnique | App.js:63-88 | Two overlay lists in scene order with the same members are equal |
| Render.OverlaysCharacterized | App.js:63-88 | The AR overlay list is the only list in scene order that holds exactly the expected overlays |
| Render.Controls | App.js:118-137 | The camera view has six buttons, top to bottom: AR, VR, object recognition, filter, navigation, each calling its own toggle handler and labelled with that mode's control text, then "Pick image for object recognition", which calls the pick handler |
| Render.ControlText | App.js:119-135 | The text of each mode's button. SwitchTexts and ToggleUpdatesOwnButton state its behaviour |
| Render.Render | App.js:54-141 | The view is AR iff AR is on, VR iff AR is off and VR is on, and camera otherwise. Overlays appear only in the AR view. The filter image and the buttons appear only in the camera view, and the filter image shows iff the filter flag is on |
| Render.SwitchTexts | App.js:119-135 | The object recognition, filter and navigation buttons read "Disable X" when the flag is on and "Enable X" when it is off. "Toggle AR" and "Toggle VR" are constant |
| Render.ToggleUpdatesOwnButton | App.js:119-135 | A toggle changes a button's text iff it is that button's own switch (object recognition, filter or navigation); the AR and VR toggles change no text |
| Render.OfferedIffCameraView | App.js:56-137 | A toggle button for a mode is on screen exactly when neither AR nor VR is on; the AR and VR views offer no controls |
| Render.OfferedToggleKeepsOneView | App.js:118-137 | Calling a toggle handler that the screen offers never leaves AR and VR both on |
| Render.OfferedRunKeepsOneView | App.js:19-37 | Any sequence of taps on buttons the screen shows, starting where AR and VR are not both on, ends where they are not both on |
| Render.ARMasksVR | App.js:56-93 | While AR is on, toggling VR changes nothing that is rendered |
| Render.ObjectRecognitionFlagOnlyRelabels | App.js:64-68 | Toggling object recognition changes neither the view, the overlays nor the filter image |
| Render.LabelOverlay | App.js:64-68 | In the AR view a label overlay exists iff there is a recognition result; it is then the first overlay and carries the joined labels at the fixed offset |
| Render.EmptyResultGivesEmptyLabel | App.js:64-66 | In AR, an empty detection list still gives a label overlay, with empty text |
| Render.NavigationOverlays | App.js:70-87 | In AR with navigation on, both positions set and no result, the overlays are exactly the arrow at the current location and then the flag at the destination |
| Render.CupAndPhoneLabel | App.js:64-68 | The detections "cup" and "phone" give the label text "cup, phone" |
| Render.PickImageRendering | App.js:39-68 | A pick run that stores nothing leaves the rendering unchanged. A successful run, with AR on, shows the new joined labels as the first overlay |
| CameraApp.ARCameraApp.constructor | App.js:10-17 | The fields start as the initial state |
| CameraApp.ARCameraApp.ToggleAR | App.js:19-21 | The new state is the old state with AR flipped |
| CameraApp.ARCameraApp.ToggleVR | App.js:23-25 | The new state is the old state with VR flipped |
| CameraApp.ARCameraApp.ToggleObjectRecognition | App.js:27-29 | The new state is the old state with object recognition flipped |
| CameraApp.ARCameraApp.ToggleFilter | App.js:31-33 | The new state is the old state with the filter flipped |
| CameraApp.ARCameraApp.ToggleNavigation | App.js:35-37 | The new state is the old state with navigation flipped |
| CameraApp.ARCameraApp.PickImage | App.js:39-52 | The handler exits early on a non-granted status or a cancelled pick, and stops at a rejected detection. The calls it makes and its outcome are those of `Pipeline`. The new state is `AfterPick` of the old one |

## Left out

- Mounting, re-rendering and the `useState` machinery: state is plain fields, and a setter is a direct assignment.
- React's batching of state updates: every tap is modelled as seeing the state left by the previous tap. Two taps handled against the same stale closure would flip a flag only once; this is not modelled.
- Asynchrony: a run of the pick-image handler is modelled as one sequential run. Toggles arriving while it is suspended, and overlapping runs, are not modelled, because the code has no policy for them.
- The internals of the permission service, the image library and the object detector: only their answers are inputs. A rejection of the permission request or of the picker is not modelled. Only the detector's rejection is.
- The picker options (`allowsEditing`, aspect 4:3), camera type, flash mode and Android permission dialog texts: these are static properties of the rendered elements.
- ARKit scene properties (`debug`, `planeDetection`, `lightEstimation`, `onARKitError`), the model scale and model file paths, and the content of the VR view: these are rendering-engine details.
- Position arithmetic: positions are passed through unchanged, and the label's offset is a constant.
- The detection records' confidence and bounding box: the screen never reads them.
- `setDestination` and `setCurrentLocation`: they are never called. Both positions are inputs to the constructor.
