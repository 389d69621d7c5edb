/** The state of the AR camera screen and its five mode toggles.

    The screen keeps five independent boolean flags, an optional object
    recognition result and two optional positions.  Each toggle flips its own
    flag and nothing else: in particular nothing in the state keeps AR and
    VR exclusive, and calling both handlers turns both flags on (only the
    rendering decides that AR wins). */
module Modes {

  datatype Option<T> = None | Some(value: T)

  /** A position in the AR scene.  It is passed through verbatim: nothing in
      the model computes with its coordinates. */
  datatype Position = Position(x: real, y: real, z: real)

  /** One record of the object detector's output.  Only its `label` field is
      ever read by the screen (here `objectLabel`, since `label` is a Dafny
      keyword), so confidence and bounding box are not kept. */
  datatype Detection = Detection(objectLabel: string)

  /** The five togglable modes. */
  datatype Flag = AR | VR | ObjectRecognition | Filter | Navigation

  /** The screen's component state, one field per state hook. */
  datatype ScreenState = ScreenState(
    isAREnabled: bool,
    isVREnabled: bool,
    isObjectRecognitionEnabled: bool,
    objectRecognitionResult: Option<seq<Detection>>,
    isFilterEnabled: bool,
    isNavigationEnabled: bool,
    destination: Option<Position>,
    currentLocation: Option<Position>)

  /** The value of one mode flag. */
  function IsOn(s: ScreenState, f: Flag): bool
  {
    match f
    case AR => s.isAREnabled
    case VR => s.isVREnabled
    case ObjectRecognition => s.isObjectRecognitionEnabled
    case Filter => s.isFilterEnabled
    case Navigation => s.isNavigationEnabled
  }

  /** The non-flag part of the state: recognition result and both positions. */
  predicate SameData(s: ScreenState, t: ScreenState)
  {
    s.objectRecognitionResult == t.objectRecognitionResult &&
    s.destination == t.destination &&
    s.currentLocation == t.currentLocation
  }

  /** The state when the screen is mounted: every flag off and no recognition
      result.  The two positions are supplied from outside. */
  function Initial(destination: Option<Position>, currentLocation: Option<Position>): (s: ScreenState)
    ensures forall f :: !IsOn(s, f)
    ensures s.objectRecognitionResult == None
    ensures s.destination == destination && s.currentLocation == currentLocation
  {
    ScreenState(false, false, false, None, false, false, destination, currentLocation)
  }

  /** A state is determined by its five flags and its data. */
  lemma StateExtensionality(s: ScreenState, t: ScreenState)
    requires forall f :: IsOn(s, f) == IsOn(t, f)
    requires SameData(s, t)
    ensures s == t
  {
    assert IsOn(s, AR) == IsOn(t, AR);
    assert IsOn(s, VR) == IsOn(t, VR);
    assert IsOn(s, ObjectRecognition) == IsOn(t, ObjectRecognition);
    assert IsOn(s, Filter) == IsOn(t, Filter);
    assert IsOn(s, Navigation) == IsOn(t, Navigation);
  }

  /** The effect of one toggle handler: flip exactly flag `f`. */
  function Toggle(s: ScreenState, f: Flag): (t: ScreenState)
    ensures IsOn(t, f) == !IsOn(s, f)
    ensures forall g :: g != f ==> IsOn(t, g) == IsOn(s, g)
    ensures SameData(s, t)
  {
    match f
    case AR => s.(isAREnabled := !s.isAREnabled)
    case VR => s.(isVREnabled := !s.isVREnabled)
    case ObjectRecognition => s.(isObjectRecognitionEnabled := !s.isObjectRecognitionEnabled)
    case Filter => s.(isFilterEnabled := !s.isFilterEnabled)
    case Navigation => s.(isNavigationEnabled := !s.isNavigationEnabled)
  }

  /** Toggling the same mode twice restores the state. */
  lemma ToggleTwice(s: ScreenState, f: Flag)
    ensures Toggle(Toggle(s, f), f) == s
  {
  }

  /** Toggles of different (or equal) modes commute. */
  lemma TogglesCommute(s: ScreenState, f: Flag, g: Flag)
    ensures Toggle(Toggle(s, f), g) == Toggle(Toggle(s, g), f)
  {
  }

  /** The state after calling the given toggle handlers, in order.  A mode
      whose handler is not called keeps its flag. */
  function ApplyAll(s: ScreenState, taps: seq<Flag>): (t: ScreenState)
    ensures forall f :: f !in taps ==> IsOn(t, f) == IsOn(s, f)
    decreases |taps|
  {
    if taps == [] then s else ApplyAll(Toggle(s, taps[0]), taps[1..])
  }

  /** After any sequence of handler calls, a flag is flipped exactly when its
      own handler was called an odd number of times; calls of the other
      handlers do not matter. */
  lemma {:induction false} ApplyAllParity(s: ScreenState, taps: seq<Flag>, f: Flag)
    ensures IsOn(ApplyAll(s, taps), f) == (IsOn(s, f) != (multiset(taps)[f] % 2 == 1))
    decreases |taps|
  {
    if taps != [] {
      assert taps == [taps[0]] + taps[1..];
      assert multiset(taps) == multiset{taps[0]} + multiset(taps[1..]);
      ApplyAllParity(Toggle(s, taps[0]), taps[1..], f);
    }
  }

  /** No sequence of toggle handler calls changes the recognition result or
      the positions. */
  lemma {:induction false} ApplyAllKeepsData(s: ScreenState, taps: seq<Flag>)
    ensures SameData(s, ApplyAll(s, taps))
    decreases |taps|
  {
    if taps != [] {
      ApplyAllKeepsData(Toggle(s, taps[0]), taps[1..]);
    }
  }

  /** AR and VR are independent flags: from the initial state, calling the AR
      handler and then the VR handler leaves both on.  (The rendered screen
      offers no VR button once AR is on; see `Render.OfferedRunKeepsOneView`.) */
  lemma ARAndVRCanBothBeOn(destination: Option<Position>, currentLocation: Option<Position>)
    ensures var s := ApplyAll(Initial(destination, currentLocation), [AR, VR]);
      s.isAREnabled && s.isVREnabled
  {
  }
}
