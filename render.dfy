/** What the screen shows for a given state.

    Exactly one primary view is mounted: the AR scene when AR is on, else the
    VR view when VR is on, else the camera.  Overlays (the label text, the
    navigation arrow and the destination flag) exist only inside the AR
    scene; the filter image and the control buttons exist only inside the
    camera view. */
module Render {
  import opened Modes
  import opened LabelText
  import Recognition

  datatype View = ARView | VRView | CameraView

  /** An element placed in the AR scene. */
  datatype Overlay =
    | TextLabel(text: string, at: Position)
    | ArrowModel(at: Position)
    | FlagModel(at: Position)

  /** What a control button calls when pressed. */
  datatype Handler = ToggleHandler(flag: Flag) | PickImageHandler

  datatype Button = Button(text: string, onPress: Handler)

  /** The rendering decision: the mounted view, the AR overlays in scene
      order, whether the filter image is shown, and the control buttons. */
  datatype Frame = Frame(view: View, overlays: seq<Overlay>, filterImage: bool, buttons: seq<Button>)

  /** The fixed position of the label text, half a unit in front of the camera. */
  const LabelOffset: Position := Position(0.0, 0.0, -0.5)

  /** The order in which the AR scene lists its children. */
  function Rank(o: Overlay): nat
  {
    match o
    case TextLabel(_, _) => 0
    case ArrowModel(_) => 1
    case FlagModel(_) => 2
  }

  /** Label before arrow before flag, each at most once. */
  predicate RankSorted(ov: seq<Overlay>)
  {
    forall i, j :: 0 <= i < j < |ov| ==> Rank(ov[i]) < Rank(ov[j])
  }

  /** When the AR scene holds overlay `o`.  The label follows the recognition
      result alone (a non-null result, even an empty list, is truthy) and does
      not look at the object recognition flag; arrow and flag need navigation
      on and their position present. */
  predicate Expected(s: ScreenState, o: Overlay)
  {
    match o
    case TextLabel(text, at) =>
      s.objectRecognitionResult.Some? && text == JoinLabels(s.objectRecognitionResult.value) && at == LabelOffset
    case ArrowModel(at) => s.isNavigationEnabled && s.currentLocation == Some(at)
    case FlagModel(at) => s.isNavigationEnabled && s.destination == Some(at)
  }

  /** The children of the AR scene. */
  function Overlays(s: ScreenState): (ov: seq<Overlay>)
    ensures RankSorted(ov)
    ensures forall o :: o in ov <==> Expected(s, o)
  {
    (if s.objectRecognitionResult.Some?
     then [TextLabel(JoinLabels(s.objectRecognitionResult.value), LabelOffset)] else [])
    + (if s.isNavigationEnabled && s.currentLocation.Some? then [ArrowModel(s.currentLocation.value)] else [])
    + (if s.isNavigationEnabled && s.destination.Some? then [FlagModel(s.destination.value)] else [])
  }

  /** In a rank-sorted list the first overlay does not occur again. */
  lemma HeadNotInTail(a: seq<Overlay>)
    requires RankSorted(a) && a != []
    ensures a[0] !in a[1..]
  {
  }

  /** Two non-empty rank-sorted lists with the same members start alike:
      both start with the member of least rank. */
  lemma SameHead(a: seq<Overlay>, b: seq<Overlay>)
    requires RankSorted(a) && RankSorted(b) && a != [] && b != []
    requires forall o :: o in a <==> o in b
    ensures a[0] == b[0]
  {
    assert a[0] in b;
    var j :| 0 <= j < |b| && b[j] == a[0];
    assert b[0] in a;
    var i :| 0 <= i < |a| && a[i] == b[0];
    if i != 0 || j != 0 {
      assert Rank(a[0]) <= Rank(a[i]) && Rank(b[0]) <= Rank(b[j]);
    }
  }

  /** Two rank-sorted overlay lists with the same members are equal. */
  lemma {:induction false} RankSortedUnique(a: seq<Overlay>, b: seq<Overlay>)
    requires RankSorted(a) && RankSorted(b)
    requires forall o :: o in a <==> o in b
    ensures a == b
    decreases |a|
  {
    if a != [] { assert a[0] in b; }
    if b != [] { assert b[0] in a; }
    if a != [] && b != [] {
      SameHead(a, b);
      HeadNotInTail(a);
      HeadNotInTail(b);
      assert a == [a[0]] + a[1..] && b == [b[0]] + b[1..];
      forall o ensures o in a[1..] <==> o in b[1..] {
        assert o in a <==> o == a[0] || o in a[1..];
        assert o in b <==> o == b[0] || o in b[1..];
      }
      assert RankSorted(a[1..]) by {
        forall i, j | 0 <= i < j < |a[1..]| ensures Rank(a[1..][i]) < Rank(a[1..][j]) {
          assert a[1..][i] == a[i + 1] && a[1..][j] == a[j + 1];
        }
      }
      assert RankSorted(b[1..]) by {
        forall i, j | 0 <= i < j < |b[1..]| ensures Rank(b[1..][i]) < Rank(b[1..][j]) {
          assert b[1..][i] == b[i + 1] && b[1..][j] == b[j + 1];
        }
      }
      RankSortedUnique(a[1..], b[1..]);
    }
  }

  /** The overlay list is the only rank-sorted list holding exactly the
      expected overlays. */
  lemma OverlaysCharacterized(s: ScreenState, ov: seq<Overlay>)
    requires RankSorted(ov)
    requires forall o :: o in ov <==> Expected(s, o)
    ensures ov == Overlays(s)
  {
    RankSortedUnique(ov, Overlays(s));
  }

  /** The text of the control button for a mode. */
  function ControlText(s: ScreenState, f: Flag): string
  {
    match f
    case AR => "Toggle AR"
    case VR => "Toggle VR"
    case ObjectRecognition =>
      if s.isObjectRecognitionEnabled then "Disable Object Recognition" else "Enable Object Recognition"
    case Filter => if s.isFilterEnabled then "Disable Filter" else "Enable Filter"
    case Navigation => if s.isNavigationEnabled then "Disable Navigation" else "Enable Navigation"
  }

  /** The name a switch button uses for its mode. */
  function ModeName(f: Flag): string
  {
    match f
    case AR => "AR"
    case VR => "VR"
    case ObjectRecognition => "Object Recognition"
    case Filter => "Filter"
    case Navigation => "Navigation"
  }

  const PickImageText: string := "Pick image for object recognition"

  /** The column of control buttons inside the camera view, top to bottom:
      AR, VR, object recognition, filter, navigation, then the pick button. */
  function Controls(s: ScreenState): (bs: seq<Button>)
    ensures |bs| == 6
    ensures bs[5] == Button(PickImageText, PickImageHandler)
    ensures forall f :: bs[FlagIndex(f)] == Button(ControlText(s, f), ToggleHandler(f))
  {
    [Button(ControlText(s, AR), ToggleHandler(AR)),
     Button(ControlText(s, VR), ToggleHandler(VR)),
     Button(ControlText(s, ObjectRecognition), ToggleHandler(ObjectRecognition)),
     Button(ControlText(s, Filter), ToggleHandler(Filter)),
     Button(ControlText(s, Navigation), ToggleHandler(Navigation)),
     Button(PickImageText, PickImageHandler)]
  }

  /** Where the button for a mode sits in the column, above the pick button. */
  function FlagIndex(f: Flag): (i: nat)
    ensures i < 5
  {
    match f
    case AR => 0
    case VR => 1
    case ObjectRecognition => 2
    case Filter => 3
    case Navigation => 4
  }

  /** The rendering decision for one state. */
  function Render(s: ScreenState): (fr: Frame)
    ensures fr.view == ARView <==> s.isAREnabled
    ensures fr.view == VRView <==> !s.isAREnabled && s.isVREnabled
    ensures fr.view == CameraView <==> !s.isAREnabled && !s.isVREnabled
    ensures fr.view == ARView ==> fr.overlays == Overlays(s)
    ensures fr.view != ARView ==> fr.overlays == []
    ensures fr.filterImage <==> fr.view == CameraView && s.isFilterEnabled
    ensures fr.view == CameraView ==> fr.buttons == Controls(s)
    ensures fr.view != CameraView ==> fr.buttons == []
  {
    if s.isAREnabled then Frame(ARView, Overlays(s), false, [])
    else if s.isVREnabled then Frame(VRView, [], false, [])
    else Frame(CameraView, [], s.isFilterEnabled, Controls(s))
  }

  /** The three switch buttons read "Disable X" while X is on and "Enable X"
      while it is off; the AR and VR buttons never change their text. */
  lemma SwitchTexts(s: ScreenState, f: Flag)
    ensures f == AR || f == VR ==> ControlText(s, f) == "Toggle " + ModeName(f)
    ensures f != AR && f != VR ==>
      ControlText(s, f) == (if IsOn(s, f) then "Disable " else "Enable ") + ModeName(f)
  {
    match f
    case AR => assert "Toggle " + "AR" == "Toggle AR";
    case VR => assert "Toggle " + "VR" == "Toggle VR";
    case ObjectRecognition =>
      assert "Disable " + "Object Recognition" == "Disable Object Recognition";
      assert "Enable " + "Object Recognition" == "Enable Object Recognition";
    case Filter =>
      assert "Disable " + "Filter" == "Disable Filter";
      assert "Enable " + "Filter" == "Enable Filter";
    case Navigation =>
      assert "Disable " + "Navigation" == "Disable Navigation";
      assert "Enable " + "Navigation" == "Enable Navigation";
  }

  /** Calling a switch handler changes its own button's text and no other. */
  lemma ToggleUpdatesOwnButton(s: ScreenState, f: Flag, g: Flag)
    ensures ControlText(Toggle(s, f), g) != ControlText(s, g) <==> g == f && f != AR && f != VR
  {
  }

  /** While AR is on, the VR flag has no visible effect. */
  lemma ARMasksVR(s: ScreenState)
    requires s.isAREnabled
    ensures Render(Toggle(s, VR)) == Render(s)
  {
  }

  /** The object recognition flag only changes its own button text: the label
      overlay does not depend on it. */
  lemma ObjectRecognitionFlagOnlyRelabels(s: ScreenState)
    ensures var t := Toggle(s, ObjectRecognition);
      Render(t).view == Render(s).view &&
      Render(t).overlays == Render(s).overlays &&
      Render(t).filterImage == Render(s).filterImage
  {
  }

  /** In the AR view the label is present exactly when there is a
      recognition result, comes first, and carries the joined labels. */
  lemma LabelOverlay(s: ScreenState)
    requires s.isAREnabled
    ensures (exists o :: o in Render(s).overlays && o.TextLabel?) <==> s.objectRecognitionResult.Some?
    ensures s.objectRecognitionResult.Some? ==>
      Render(s).overlays[0] == TextLabel(JoinLabels(s.objectRecognitionResult.value), LabelOffset)
  {
    var ov := Render(s).overlays;
    if s.objectRecognitionResult.Some? {
      var shown := TextLabel(JoinLabels(s.objectRecognitionResult.value), LabelOffset);
      assert Expected(s, shown);
      assert ov[0] == shown by {
        var k :| 0 <= k < |ov| && ov[k] == shown;
        if k != 0 { assert Rank(ov[0]) < Rank(ov[k]); }
      }
    } else {
      forall o | o in ov ensures !o.TextLabel? { assert Expected(s, o); }
    }
  }

  /** An empty detection list still yields a label, with empty text. */
  lemma EmptyResultGivesEmptyLabel(s: ScreenState)
    requires s.isAREnabled && s.objectRecognitionResult == Some([])
    ensures Render(s).overlays[0] == TextLabel("", LabelOffset)
  {
  }

  /** Navigation on in AR with both positions and no result: the arrow at the
      current location, then the flag at the destination. */
  lemma NavigationOverlays(s: ScreenState, here: Position, there: Position)
    requires s.isAREnabled && s.isNavigationEnabled && s.objectRecognitionResult == None
    requires s.currentLocation == Some(here) && s.destination == Some(there)
    ensures Render(s).overlays == [ArrowModel(here), FlagModel(there)]
  {
  }

  /** Two detections "cup" and "phone" in AR give the label "cup, phone". */
  lemma CupAndPhoneLabel(s: ScreenState)
    requires s.isAREnabled && s.objectRecognitionResult == Some([Detection("cup"), Detection("phone")])
    ensures Render(s).overlays[0] == TextLabel("cup, phone", LabelOffset)
  {
  }

  /** A run of the pipeline that does not store anything leaves the whole
      rendering unchanged; a successful one shows the new labels in AR. */
  lemma PickImageRendering(s: ScreenState, status: string, picked: Recognition.PickerResult,
                           detected: Recognition.DetectorResult)
    ensures !(status == Recognition.Granted && picked.Picked? && detected.Detected?) ==>
      Render(Recognition.AfterPick(s, status, picked, detected)) == Render(s)
    ensures status == Recognition.Granted && picked.Picked? && detected.Detected? && s.isAREnabled ==>
      Render(Recognition.AfterPick(s, status, picked, detected)).overlays[0]
        == TextLabel(JoinLabels(detected.objects), LabelOffset)
  {
  }

  /** The rendered screen offers a button that calls the handler for `f`. */
  predicate Offered(s: ScreenState, f: Flag)
  {
    exists b :: b in Render(s).buttons && b.onPress == ToggleHandler(f)
  }

  /** Every toggle is offered exactly while the camera view is mounted: the AR
      and VR views hold no controls at all, so once either is on, nothing on
      the screen can switch it off again. */
  lemma OfferedIffCameraView(s: ScreenState, f: Flag)
    ensures Offered(s, f) <==> !s.isAREnabled && !s.isVREnabled
  {
    if !s.isAREnabled && !s.isVREnabled {
      assert Render(s).buttons[FlagIndex(f)] in Render(s).buttons;
    }
  }

  /** A toggle that the screen offers never leaves AR and VR both on. */
  lemma OfferedToggleKeepsOneView(s: ScreenState, f: Flag)
    requires Offered(s, f)
    ensures !(Toggle(s, f).isAREnabled && Toggle(s, f).isVREnabled)
  {
  }

  /** Each tap of `taps` hits a button that the screen shows at that moment. */
  predicate OfferedRun(s: ScreenState, taps: seq<Flag>)
    decreases |taps|
  {
    taps == [] || (Offered(s, taps[0]) && OfferedRun(Toggle(s, taps[0]), taps[1..]))
  }

  /** Through the rendered buttons alone, AR and VR are never both on: any
      run of taps on offered buttons, from a state where they are not both
      on, ends in such a state again. */
  lemma {:induction false} OfferedRunKeepsOneView(s: ScreenState, taps: seq<Flag>)
    requires !(s.isAREnabled && s.isVREnabled)
    requires OfferedRun(s, taps)
    ensures !(ApplyAll(s, taps).isAREnabled && ApplyAll(s, taps).isVREnabled)
    decreases |taps|
  {
    if taps != [] {
      OfferedToggleKeepsOneView(s, taps[0]);
      OfferedRunKeepsOneView(Toggle(s, taps[0]), taps[1..]);
    }
  }
}
