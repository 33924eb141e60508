/**
 * The event reader of src/xreaderwriter.rs: `XReadHelper` reads the body of
 * an event or an error from the server's byte stream, after the caller has
 * consumed the code byte (and, for events, the detail byte and the sequence
 * number). Each reader is specified by a function over the input bytes and
 * the cursor, written as the same chain of fixed-width reads the source
 * makes; the layout lemmas then state each event's fields at their offsets
 * in the 32-byte event encoding of the X Window System Protocol (X11R7.7),
 * Appendix B, counting from the byte after the sequence number.
 */
module XReaderWriter {
  import opened Wire
  import Valued
  import opened Models

  /** The eleven values read_pointer_event returns. */
  datatype PointerFields = PointerFields(
    time: U32, root: U32, event: U32, child: U32,
    rootX: I16, rootY: I16, eventX: I16, eventY: I16,
    state: U16, sameScreen: bool, extra: U8)

  /** The eleven values read_pointer_event_with_mode returns. */
  datatype PointerModeFields = PointerModeFields(
    time: U32, root: U32, event: U32, child: U32,
    rootX: I16, rootY: I16, eventX: I16, eventY: I16,
    state: U16, mode: U8, extra: U8)

  /** The two values read_focus_event returns. */
  datatype FocusFields = FocusFields(event: U32, mode: U8)

  // ---------------------------------------------------------------------------
  // What each reader reads, as a function of the input and the cursor

  /** The body shared by key and button events and MotionNotify: time, root, event, child, the root and event coordinates, the state, same-screen and a last byte. */
  function PointerEventAt(s: Bytes, p: nat): Outcome<(PointerFields, nat)> {
    var time :- U32Step(s, p);
    var root :- U32Step(s, time.1);
    var event :- U32Step(s, root.1);
    var child :- U32Step(s, event.1);
    var rootX :- I16Step(s, child.1);
    var rootY :- I16Step(s, rootX.1);
    var eventX :- I16Step(s, rootY.1);
    var eventY :- I16Step(s, eventX.1);
    var state :- U16Step(s, eventY.1);
    var sameScreen :- BoolStep(s, state.1);
    var extra :- U8Step(s, sameScreen.1);
    Ok((PointerFields(time.0, root.0, event.0, child.0, rootX.0, rootY.0, eventX.0, eventY.0, state.0, sameScreen.0, extra.0), extra.1))
  }

  /** The body of EnterNotify and LeaveNotify: as a pointer event, with the mode byte where same-screen was and the same-screen and focus flags in the last byte. */
  function PointerEventWithModeAt(s: Bytes, p: nat): Outcome<(PointerModeFields, nat)> {
    var time :- U32Step(s, p);
    var root :- U32Step(s, time.1);
    var event :- U32Step(s, root.1);
    var child :- U32Step(s, event.1);
    var rootX :- I16Step(s, child.1);
    var rootY :- I16Step(s, rootX.1);
    var eventX :- I16Step(s, rootY.1);
    var eventY :- I16Step(s, eventX.1);
    var state :- U16Step(s, eventY.1);
    var mode :- U8Step(s, state.1);
    var extra :- U8Step(s, mode.1);
    Ok((PointerModeFields(time.0, root.0, event.0, child.0, rootX.0, rootY.0, eventX.0, eventY.0, state.0, mode.0, extra.0), extra.1))
  }

  /** The body of FocusIn and FocusOut: the event window, the mode byte, 23 unused bytes. */
  function FocusEventAt(s: Bytes, p: nat): Outcome<(FocusFields, nat)> {
    var event :- U32Step(s, p);
    var mode :- U8Step(s, event.1);
    Ok((FocusFields(event.0, mode.0), Skip(|s|, mode.1, 23)))
  }

  /** `read_key_press` (src/xreaderwriter.rs:134). */
  function KeyPressAt(s: Bytes, p: nat, keyCode: U8): Outcome<(Option<ServerEvent>, nat)> {
    var e :- PointerEventAt(s, p);
    Ok((Some(ServerEvent.KeyPress(keyCode, e.0.time, e.0.root, e.0.event, e.0.child, e.0.rootX, e.0.rootY, e.0.eventX, e.0.eventY, Valued.KeyButton.Decoded(e.0.state), e.0.sameScreen)), e.1))
  }

  /** `read_key_release` (src/xreaderwriter.rs:142). */
  function KeyReleaseAt(s: Bytes, p: nat, keyCode: U8): Outcome<(Option<ServerEvent>, nat)> {
    var e :- PointerEventAt(s, p);
    Ok((Some(ServerEvent.KeyRelease(keyCode, e.0.time, e.0.root, e.0.event, e.0.child, e.0.rootX, e.0.rootY, e.0.eventX, e.0.eventY, Valued.KeyButton.Decoded(e.0.state), e.0.sameScreen)), e.1))
  }

  /** `read_button_press` (src/xreaderwriter.rs:150). */
  function ButtonPressAt(s: Bytes, p: nat, button: U8): Outcome<(Option<ServerEvent>, nat)> {
    var e :- PointerEventAt(s, p);
    Ok((Some(ServerEvent.ButtonPress(button, e.0.time, e.0.root, e.0.event, e.0.child, e.0.rootX, e.0.rootY, e.0.eventX, e.0.eventY, Valued.KeyButton.Decoded(e.0.state), e.0.sameScreen)), e.1))
  }

  /** `read_button_release` (src/xreaderwriter.rs:158). */
  function ButtonReleaseAt(s: Bytes, p: nat, button: U8): Outcome<(Option<ServerEvent>, nat)> {
    var e :- PointerEventAt(s, p);
    Ok((Some(ServerEvent.ButtonRelease(button, e.0.time, e.0.root, e.0.event, e.0.child, e.0.rootX, e.0.rootY, e.0.eventX, e.0.eventY, Valued.KeyButton.Decoded(e.0.state), e.0.sameScreen)), e.1))
  }

  /** `read_motion_notify` (src/xreaderwriter.rs:166). */
  function MotionNotifyAt(s: Bytes, p: nat, detailPre: U8): Outcome<(Option<ServerEvent>, nat)> {
    var e :- PointerEventAt(s, p);
    match Valued.MotionNotifyType.Get(detailPre)
    case None => Ok((Option.None, e.1))
    case Some(detail) =>
      Ok((Some(ServerEvent.MotionNotify(detail, e.0.time, e.0.root, e.0.event, e.0.child, e.0.rootX, e.0.rootY, e.0.eventX, e.0.eventY, Valued.KeyButton.Decoded(e.0.state), e.0.sameScreen)), e.1))
  }

  /** `read_enter_notify` (src/xreaderwriter.rs:178). */
  function EnterNotifyAt(s: Bytes, p: nat, detailPre: U8): Outcome<(Option<ServerEvent>, nat)> {
    var e :- PointerEventWithModeAt(s, p);
    match Valued.NotifyType.Get(detailPre)
    case None => Ok((Option.None, e.1))
    case Some(detail) =>
      match Valued.NotifyMode.Get(e.0.mode)
      case None => Ok((Option.None, e.1))
      case Some(mode) =>
        Ok((Some(ServerEvent.EnterNotify(detail, e.0.time, e.0.root, e.0.event, e.0.child, e.0.rootX, e.0.rootY, e.0.eventX, e.0.eventY, Valued.KeyButton.Decoded(e.0.state), mode, SameScreenFocus(e.0.extra).0, SameScreenFocus(e.0.extra).1)), e.1))
  }

  /** `read_leave_notify` (src/xreaderwriter.rs:200). */
  function LeaveNotifyAt(s: Bytes, p: nat, detailPre: U8): Outcome<(Option<ServerEvent>, nat)> {
    var e :- PointerEventWithModeAt(s, p);
    match Valued.NotifyType.Get(detailPre)
    case None => Ok((Option.None, e.1))
    case Some(detail) =>
      match Valued.NotifyMode.Get(e.0.mode)
      case None => Ok((Option.None, e.1))
      case Some(mode) =>
        Ok((Some(ServerEvent.LeaveNotify(detail, e.0.time, e.0.root, e.0.event, e.0.child, e.0.rootX, e.0.rootY, e.0.eventX, e.0.eventY, Valued.KeyButton.Decoded(e.0.state), mode, SameScreenFocus(e.0.extra).0, SameScreenFocus(e.0.extra).1)), e.1))
  }

  /** `read_focus_in` (src/xreaderwriter.rs:222). */
  function FocusInAt(s: Bytes, p: nat, detailPre: U8): Outcome<(Option<ServerEvent>, nat)> {
    var e :- FocusEventAt(s, p);
    match Valued.FocusType.Get(detailPre)
    case None => Ok((Option.None, e.1))
    case Some(detail) =>
      match Valued.FocusMode.Get(e.0.mode)
      case None => Ok((Option.None, e.1))
      case Some(mode) =>
        Ok((Some(ServerEvent.FocusIn(detail, e.0.event, mode)), e.1))
  }

  /** `read_focus_out` (src/xreaderwriter.rs:236). */
  function FocusOutAt(s: Bytes, p: nat, detailPre: U8): Outcome<(Option<ServerEvent>, nat)> {
    var e :- FocusEventAt(s, p);
    match Valued.FocusType.Get(detailPre)
    case None => Ok((Option.None, e.1))
    case Some(detail) =>
      match Valued.FocusMode.Get(e.0.mode)
      case None => Ok((Option.None, e.1))
      case Some(mode) =>
        Ok((Some(ServerEvent.FocusIn(detail, e.0.event, mode)), e.1))
  }

  /** `read_expose` (src/xreaderwriter.rs:256). */
  function ExposeAt(s: Bytes, p: nat): Outcome<(Option<ServerEvent>, nat)> {
    var window :- U32Step(s, p);
    var x :- U16Step(s, window.1);
    var y :- U16Step(s, x.1);
    var width :- U16Step(s, y.1);
    var height :- U16Step(s, width.1);
    var count :- U16Step(s, height.1);
    Ok((Some(ServerEvent.Expose(window.0, x.0, y.0, width.0, height.0, count.0)), Skip(|s|, count.1, 14)))
  }

  /** `read_graphics_exposure` (src/xreaderwriter.rs:268). */
  function GraphicsExposureAt(s: Bytes, p: nat): Outcome<(Option<ServerEvent>, nat)> {
    var drawable :- U32Step(s, p);
    var x :- U16Step(s, drawable.1);
    var y :- U16Step(s, x.1);
    var width :- U16Step(s, y.1);
    var height :- U16Step(s, width.1);
    var minorOpcode :- U16Step(s, height.1);
    var count :- U16Step(s, minorOpcode.1);
    var majorOpcode :- U8Step(s, count.1);
    Ok((Some(ServerEvent.GraphicsExposure(drawable.0, x.0, y.0, width.0, height.0, minorOpcode.0, count.0, majorOpcode.0)), Skip(|s|, majorOpcode.1, 11)))
  }

  /** `read_no_exposure` (src/xreaderwriter.rs:282). */
  function NoExposureAt(s: Bytes, p: nat): Outcome<(Option<ServerEvent>, nat)> {
    var drawable :- U32Step(s, p);
    var minorOpcode :- U16Step(s, drawable.1);
    var majorOpcode :- U8Step(s, minorOpcode.1);
    Ok((Some(ServerEvent.NoExposure(drawable.0, minorOpcode.0, majorOpcode.0)), Skip(|s|, majorOpcode.1, 21)))
  }

  /** `read_visibility_notify` (src/xreaderwriter.rs:291). */
  function VisibilityNotifyAt(s: Bytes, p: nat): Outcome<(Option<ServerEvent>, nat)> {
    var window :- U32Step(s, p);
    var stateCode :- U8Step(s, window.1);
    match Valued.VisibilityState.Get(stateCode.0)
    case None => Ok((Option.None, stateCode.1))
    case Some(state) =>
      Ok((Some(ServerEvent.VisibilityNotify(window.0, state)), Skip(|s|, stateCode.1, 23)))
  }

  /** `read_create_notify` (src/xreaderwriter.rs:302). */
  function CreateNotifyAt(s: Bytes, p: nat): Outcome<(Option<ServerEvent>, nat)> {
    var parent :- U32Step(s, p);
    var window :- U32Step(s, parent.1);
    var x :- I16Step(s, window.1);
    var y :- I16Step(s, x.1);
    var width :- U16Step(s, y.1);
    var height :- U16Step(s, width.1);
    var borderWidth :- U16Step(s, height.1);
    var overrideRedirect :- BoolStep(s, borderWidth.1);
    Ok((Some(ServerEvent.CreateNotify(parent.0, window.0, x.0, y.0, width.0, height.0, borderWidth.0, overrideRedirect.0)), Skip(|s|, overrideRedirect.1, 9)))
  }

  /** `read_destroy_notify` (src/xreaderwriter.rs:316). */
  function DestroyNotifyAt(s: Bytes, p: nat): Outcome<(Option<ServerEvent>, nat)> {
    var event :- U32Step(s, p);
    var window :- U32Step(s, event.1);
    Ok((Some(ServerEvent.DestroyNotify(event.0, window.0)), Skip(|s|, window.1, 20)))
  }

  /** `read_unmap_notify` (src/xreaderwriter.rs:324). */
  function UnmapNotifyAt(s: Bytes, p: nat): Outcome<(Option<ServerEvent>, nat)> {
    var event :- U32Step(s, p);
    var window :- U32Step(s, event.1);
    var fromConfigure :- BoolStep(s, window.1);
    Ok((Some(ServerEvent.UnmapNotify(event.0, window.0, fromConfigure.0)), Skip(|s|, fromConfigure.1, 19)))
  }

  /** `read_map_notify` (src/xreaderwriter.rs:333). */
  function MapNotifyAt(s: Bytes, p: nat): Outcome<(Option<ServerEvent>, nat)> {
    var event :- U32Step(s, p);
    var window :- U32Step(s, event.1);
    var overrideRedirect :- BoolStep(s, window.1);
    Ok((Some(ServerEvent.MapNotify(event.0, window.0, overrideRedirect.0)), Skip(|s|, overrideRedirect.1, 19)))
  }

  /** `read_map_request` (src/xreaderwriter.rs:342). */
  function MapRequestAt(s: Bytes, p: nat): Outcome<(Option<ServerEvent>, nat)> {
    var parent :- U32Step(s, p);
    var window :- U32Step(s, parent.1);
    Ok((Some(ServerEvent.MapRequest(parent.0, window.0)), Skip(|s|, window.1, 20)))
  }

  /** `read_reparent_notify` (src/xreaderwriter.rs:349). */
  function ReparentNotifyAt(s: Bytes, p: nat): Outcome<(Option<ServerEvent>, nat)> {
    var event :- U32Step(s, p);
    var window :- U32Step(s, event.1);
    var parent :- U32Step(s, window.1);
    var x :- I16Step(s, parent.1);
    var y :- I16Step(s, x.1);
    var overrideRedirect :- BoolStep(s, y.1);
    Ok((Some(ServerEvent.ReparentNotify(event.0, window.0, parent.0, x.0, y.0, overrideRedirect.0)), Skip(|s|, overrideRedirect.1, 11)))
  }

  /** `read_configure_notify` (src/xreaderwriter.rs:361). */
  function ConfigureNotifyAt(s: Bytes, p: nat): Outcome<(Option<ServerEvent>, nat)> {
    var event :- U32Step(s, p);
    var window :- U32Step(s, event.1);
    var aboveSibling :- U32Step(s, window.1);
    var x :- I16Step(s, aboveSibling.1);
    var y :- I16Step(s, x.1);
    var width :- U16Step(s, y.1);
    var height :- U16Step(s, width.1);
    var borderWidth :- U16Step(s, height.1);
    var overrideRedirect :- BoolStep(s, borderWidth.1);
    Ok((Some(ServerEvent.ConfigureNotify(event.0, window.0, aboveSibling.0, x.0, y.0, width.0, height.0, borderWidth.0, overrideRedirect.0)), Skip(|s|, overrideRedirect.1, 5)))
  }

  /** `read_configure_request` (src/xreaderwriter.rs:376). */
  function ConfigureRequestAt(s: Bytes, p: nat, stackModePre: U8): Outcome<(Option<ServerEvent>, nat)> {
    match Valued.StackMode.Get(stackModePre)
    case None => Ok((Option.None, p))
    case Some(stackMode) =>
      var parent :- U32Step(s, p);
      var window :- U32Step(s, parent.1);
      var sibling :- U32Step(s, window.1);
      var x :- I16Step(s, sibling.1);
      var y :- I16Step(s, x.1);
      var width :- U16Step(s, y.1);
      var height :- U16Step(s, width.1);
      var borderWidth :- U16Step(s, height.1);
      var valueMask :- U16Step(s, borderWidth.1);
      Ok((Some(ServerEvent.ConfigureRequest(stackMode, parent.0, window.0, sibling.0, x.0, y.0, width.0, height.0, borderWidth.0, Valued.ConfigureRequestValues.Decoded(valueMask.0))), Skip(|s|, valueMask.1, 4)))
  }

  /** `read_gravity_notify` (src/xreaderwriter.rs:395). */
  function GravityNotifyAt(s: Bytes, p: nat): Outcome<(Option<ServerEvent>, nat)> {
    var event :- U32Step(s, p);
    var window :- U32Step(s, event.1);
    var x :- I16Step(s, window.1);
    var y :- I16Step(s, x.1);
    Ok((Some(ServerEvent.GravityNotify(event.0, window.0, x.0, y.0)), Skip(|s|, y.1, 16)))
  }

  /** `read_resize_request` (src/xreaderwriter.rs:405). */
  function ResizeRequestAt(s: Bytes, p: nat): Outcome<(Option<ServerEvent>, nat)> {
    var window :- U32Step(s, p);
    var width :- U16Step(s, window.1);
    var height :- U16Step(s, width.1);
    Ok((Some(ServerEvent.ResizeRequest(window.0, width.0, height.0)), Skip(|s|, height.1, 20)))
  }

  /** `read_circulate_notify` (src/xreaderwriter.rs:414). */
  function CirculateNotifyAt(s: Bytes, p: nat): Outcome<(Option<ServerEvent>, nat)> {
    var event :- U32Step(s, p);
    var window :- U32Step(s, event.1);
    var placeCode :- U8Step(s, Skip(|s|, window.1, 4));
    match Valued.CirculatePlace.Get(placeCode.0)
    case None => Ok((Option.None, placeCode.1))
    case Some(place) =>
      Ok((Some(ServerEvent.CirculateNotify(event.0, window.0, place)), Skip(|s|, placeCode.1, 15)))
  }

  /** `read_circulate_request` (src/xreaderwriter.rs:427). */
  function CirculateRequestAt(s: Bytes, p: nat): Outcome<(Option<ServerEvent>, nat)> {
    var parent :- U32Step(s, p);
    var window :- U32Step(s, parent.1);
    var placeCode :- U8Step(s, Skip(|s|, window.1, 4));
    match Valued.CirculatePlace.Get(placeCode.0)
    case None => Ok((Option.None, placeCode.1))
    case Some(place) =>
      Ok((Some(ServerEvent.CirculateRequest(parent.0, window.0, place)), Skip(|s|, placeCode.1, 15)))
  }

  /** `read_property_notify` (src/xreaderwriter.rs:440). */
  function PropertyNotifyAt(s: Bytes, p: nat): Outcome<(Option<ServerEvent>, nat)> {
    var window :- U32Step(s, p);
    var atom :- U32Step(s, window.1);
    var time :- U32Step(s, atom.1);
    var stateCode :- U8Step(s, time.1);
    match Valued.PropertyState.Get(stateCode.0)
    case None => Ok((Option.None, stateCode.1))
    case Some(state) =>
      Ok((Some(ServerEvent.PropertyNotify(window.0, atom.0, time.0, state)), Skip(|s|, stateCode.1, 15)))
  }

  /** `read_selection_clear` (src/xreaderwriter.rs:453). */
  function SelectionClearAt(s: Bytes, p: nat): Outcome<(Option<ServerEvent>, nat)> {
    var time :- U32Step(s, p);
    var owner :- U32Step(s, time.1);
    var selection :- U32Step(s, owner.1);
    Ok((Some(ServerEvent.SelectionClear(time.0, owner.0, selection.0)), Skip(|s|, selection.1, 16)))
  }

  /** `read_selection_request` (src/xreaderwriter.rs:462). */
  function SelectionRequestAt(s: Bytes, p: nat): Outcome<(Option<ServerEvent>, nat)> {
    var time :- U32Step(s, p);
    var owner :- U32Step(s, time.1);
    var requestor :- U32Step(s, owner.1);
    var selection :- U32Step(s, requestor.1);
    var target :- U32Step(s, selection.1);
    var property :- U32Step(s, target.1);
    Ok((Some(ServerEvent.SelectionRequest(time.0, owner.0, requestor.0, selection.0, target.0, property.0)), Skip(|s|, property.1, 4)))
  }

  /** `read_selection_notify` (src/xreaderwriter.rs:474). */
  function SelectionNotifyAt(s: Bytes, p: nat): Outcome<(Option<ServerEvent>, nat)> {
    var time :- U32Step(s, p);
    var requestor :- U32Step(s, time.1);
    var selection :- U32Step(s, requestor.1);
    var target :- U32Step(s, selection.1);
    var property :- U32Step(s, target.1);
    Ok((Some(ServerEvent.SelectionNotify(time.0, requestor.0, selection.0, target.0, property.0)), Skip(|s|, property.1, 8)))
  }

  /** `read_colormap_notify` (src/xreaderwriter.rs:485). */
  function ColormapNotifyAt(s: Bytes, p: nat): Outcome<(Option<ServerEvent>, nat)> {
    var window :- U32Step(s, p);
    var colormap :- U32Step(s, window.1);
    var isNew :- BoolStep(s, colormap.1);
    var stateCode :- U8Step(s, isNew.1);
    match Valued.ColormapState.Get(stateCode.0)
    case None => Ok((Option.None, stateCode.1))
    case Some(state) =>
      Ok((Some(ServerEvent.ColormapNotify(window.0, colormap.0, isNew.0, state)), Skip(|s|, stateCode.1, 18)))
  }

  /** `read_client_message` (src/xreaderwriter.rs:498). */
  function ClientMessageAt(s: Bytes, p: nat, format: U8): Outcome<(Option<ServerEvent>, nat)> {
    var window :- U32Step(s, p);
    var mtype :- U32Step(s, window.1);
    Ok((Some(ServerEvent.ClientMessage(format, window.0, mtype.0)), Skip(|s|, mtype.1, 20)))
  }

  /** `read_mapping_notify` (src/xreaderwriter.rs:506). */
  function MappingNotifyAt(s: Bytes, p: nat): Outcome<(Option<ServerEvent>, nat)> {
    var requestCode :- U8Step(s, p);
    match Valued.MappingType.Get(requestCode.0)
    case None => Ok((Option.None, requestCode.1))
    case Some(request) =>
      var firstKeycode :- U8Step(s, requestCode.1);
      var count :- U8Step(s, firstKeycode.1);
      Ok((Some(ServerEvent.MappingNotify(request, firstKeycode.0, count.0)), Skip(|s|, count.1, 25)))
  }


  // ---------------------------------------------------------------------------
  // The reader

  /**
   * `XReadHelper`: the server's bytes `input`, read from `pos` on, and the
   * one-, two- and four-byte scratch buffers the fixed-width reads go
   * through.
   */
  class XReadHelper {
    const input: Bytes
    var pos: nat
    const buf1: array<U8>
    const buf2: array<U8>
    const buf4: array<U8>

    ghost predicate Valid()
      reads this
    {
      buf1.Length == 1 && buf2.Length == 2 && buf4.Length == 4 &&
      buf1 != buf2 && buf1 != buf4 && buf2 != buf4 &&
      pos <= |input|
    }

    /** `XReadHelper::new` over a stream that yields `input`. */
    constructor (input: Bytes)
      ensures Valid() && this.input == input && pos == 0
      ensures fresh(buf1) && fresh(buf2) && fresh(buf4)
      ensures buf1[..] == [0] && buf2[..] == [0, 0] && buf4[..] == [0, 0, 0, 0]
    {
      this.input := input;
      pos := 0;
      buf1 := new U8[1](_ => 0);
      buf2 := new U8[2](_ => 0);
      buf4 := new U8[4](_ => 0);
    }

    /** The two scratch bytes are those of `s` at offset k. */
    ghost predicate Holds2At(s: Bytes, k: nat)
      reads this, buf2
      requires Valid() && k + 2 <= |s|
    {
      buf2[0] == s[k] && buf2[1] == s[k + 1]
    }

    /** The four scratch bytes are those of `s` at offset k. */
    ghost predicate Holds4At(s: Bytes, k: nat)
      reads this, buf4
      requires Valid() && k + 4 <= |s|
    {
      buf4[0] == s[k] && buf4[1] == s[k + 1] && buf4[2] == s[k + 2] && buf4[3] == s[k + 3]
    }

    // -------------------------------------------------------------------------
    // XBufferedReader

    /**
     * `read_pad`: `BufRead::consume`, which never fails. The whole input is taken
     * to be buffered already, so the cursor moves on by `len` or to the end.
     */
    method ReadPad(len: nat)
      requires Valid()
      modifies this`pos
      ensures Valid() && pos == Skip(|input|, old(pos), len)
    {
      pos := Skip(|input|, pos, len);
    }

    /** `read_u8`, through the one-byte scratch buffer. */
    method ReadU8() returns (r: Outcome<U8>)
      requires Valid()
      modifies this`pos, buf1
      ensures Valid() && WithPos(r, pos) == U8Step(input, old(pos))
      ensures old(pos) + 1 <= |input| ==> buf1[0] == input[old(pos)]
    {
      if pos + 1 > |input| {
        return Panic(UnexpectedEof);
      }
      buf1[0] := input[pos];
      pos := pos + 1;
      r := Ok(buf1[0]);
    }

    /** `read_bool`: 0 is false, 1 is true, any other byte panics. */
    method ReadBool() returns (r: Outcome<bool>)
      requires Valid()
      modifies this`pos, buf1
      ensures Valid() && WithPos(r, pos) == BoolStep(input, old(pos))
    {
      var b :- ReadU8();
      r := BoolOf(b);
    }

    /** `read_char`: the byte as a code point, kept as the byte. */
    method ReadChar() returns (r: Outcome<U8>)
      requires Valid()
      modifies this`pos, buf1
      ensures Valid() && WithPos(r, pos) == U8Step(input, old(pos))
    {
      r := ReadU8();
    }

    /** `read_u16`: two bytes, least significant first. */
    method ReadU16() returns (r: Outcome<U16>)
      requires Valid()
      modifies this`pos, buf2
      ensures Valid() && WithPos(r, pos) == U16Step(input, old(pos))
      ensures old(pos) + 2 <= |input| ==> Holds2At(input, old(pos))
    {
      if pos + 2 > |input| {
        return Panic(UnexpectedEof);
      }
      buf2[0] := input[pos];
      buf2[1] := input[pos + 1];
      pos := pos + 2;
      r := Ok(buf2[0] as int + buf2[1] as int * 0x100);
    }

    /** `read_i16`: the two's-complement view of read_u16. */
    method ReadI16() returns (r: Outcome<I16>)
      requires Valid()
      modifies this`pos, buf2
      ensures Valid() && WithPos(r, pos) == I16Step(input, old(pos))
    {
      var x :- ReadU16();
      r := Ok(U16AsI16(x));
    }

    /** `read_u32`: four bytes, least significant first. */
    method ReadU32() returns (r: Outcome<U32>)
      requires Valid()
      modifies this`pos, buf4
      ensures Valid() && WithPos(r, pos) == U32Step(input, old(pos))
      ensures old(pos) + 4 <= |input| ==> Holds4At(input, old(pos))
    {
      if pos + 4 > |input| {
        return Panic(UnexpectedEof);
      }
      buf4[0] := input[pos];
      buf4[1] := input[pos + 1];
      buf4[2] := input[pos + 2];
      buf4[3] := input[pos + 3];
      pos := pos + 4;
      r := Ok(buf4[0] as int + buf4[1] as int * 0x100 + buf4[2] as int * 0x1_0000 + buf4[3] as int * 0x100_0000);
    }

    /** `read_str`: `len` bytes, kept as bytes. */
    method ReadStr(len: nat) returns (r: Outcome<Bytes>)
      requires Valid()
      modifies this`pos
      ensures Valid() && WithPos(r, pos) == BytesStep(input, old(pos), len)
    {
      if pos + len > |input| {
        return Panic(UnexpectedEof);
      }
      r := Ok(input[pos..pos + len]);
      pos := pos + len;
    }

    // -------------------------------------------------------------------------
    // Errors and events

    /** `read_error`: the body of an error after its code byte, against ErrorAt. */
    method ReadError(code: U8) returns (r: Outcome<Option<ServerError>>)
      requires Valid()
      modifies this`pos, buf1, buf2, buf4
      ensures Valid() && WithPos(r, pos) == ErrorAt(input, old(pos), code)
    {
      var info :- ReadU32();
      var minorOpcode :- ReadU16();
      var majorOpcode :- ReadU8();
      ReadPad(21);
      r := Ok(ErrorOf(code, info, minorOpcode, majorOpcode));
    }

    /** `read_pointer_event`, against PointerEventAt. */
    method ReadPointerEvent() returns (r: Outcome<PointerFields>)
      requires Valid()
      modifies this`pos, buf1, buf2, buf4
      ensures Valid() && WithPos(r, pos) == PointerEventAt(input, old(pos))
    {
      var time :- ReadU32();
      var root :- ReadU32();
      var event :- ReadU32();
      var child :- ReadU32();
      var rootX :- ReadI16();
      var rootY :- ReadI16();
      var eventX :- ReadI16();
      var eventY :- ReadI16();
      var state :- ReadU16();
      var sameScreen :- ReadBool();
      var extra :- ReadU8();
      r := Ok(PointerFields(time, root, event, child, rootX, rootY, eventX, eventY, state, sameScreen, extra));
    }

    /** `read_pointer_event_with_mode`, against PointerEventWithModeAt. */
    method ReadPointerEventWithMode() returns (r: Outcome<PointerModeFields>)
      requires Valid()
      modifies this`pos, buf1, buf2, buf4
      ensures Valid() && WithPos(r, pos) == PointerEventWithModeAt(input, old(pos))
    {
      var time :- ReadU32();
      var root :- ReadU32();
      var event :- ReadU32();
      var child :- ReadU32();
      var rootX :- ReadI16();
      var rootY :- ReadI16();
      var eventX :- ReadI16();
      var eventY :- ReadI16();
      var state :- ReadU16();
      var mode :- ReadU8();
      var extra :- ReadU8();
      r := Ok(PointerModeFields(time, root, event, child, rootX, rootY, eventX, eventY, state, mode, extra));
    }

    /** `read_focus_event`, against FocusEventAt. */
    method ReadFocusEvent() returns (r: Outcome<FocusFields>)
      requires Valid()
      modifies this`pos, buf1, buf2, buf4
      ensures Valid() && WithPos(r, pos) == FocusEventAt(input, old(pos))
    {
      var event :- ReadU32();
      var mode :- ReadU8();
      ReadPad(23);
      r := Ok(FocusFields(event, mode));
    }

    /** `read_key_press`. */
    method ReadKeyPress(keyCode: U8) returns (r: Outcome<Option<ServerEvent>>)
      requires Valid()
      modifies this`pos, buf1, buf2, buf4
      ensures Valid() && WithPos(r, pos) == KeyPressAt(input, old(pos), keyCode)
    {
      var e :- ReadPointerEvent();
      var state := Valued.KeyButton.Get(e.state);
      r := Ok(Some(ServerEvent.KeyPress(keyCode, e.time, e.root, e.event, e.child, e.rootX, e.rootY, e.eventX, e.eventY, state, e.sameScreen)));
    }

    /** `read_key_release`. */
    method ReadKeyRelease(keyCode: U8) returns (r: Outcome<Option<ServerEvent>>)
      requires Valid()
      modifies this`pos, buf1, buf2, buf4
      ensures Valid() && WithPos(r, pos) == KeyReleaseAt(input, old(pos), keyCode)
    {
      var e :- ReadPointerEvent();
      var state := Valued.KeyButton.Get(e.state);
      r := Ok(Some(ServerEvent.KeyRelease(keyCode, e.time, e.root, e.event, e.child, e.rootX, e.rootY, e.eventX, e.eventY, state, e.sameScreen)));
    }

    /** `read_button_press`. */
    method ReadButtonPress(button: U8) returns (r: Outcome<Option<ServerEvent>>)
      requires Valid()
      modifies this`pos, buf1, buf2, buf4
      ensures Valid() && WithPos(r, pos) == ButtonPressAt(input, old(pos), button)
    {
      var e :- ReadPointerEvent();
      var state := Valued.KeyButton.Get(e.state);
      r := Ok(Some(ServerEvent.ButtonPress(button, e.time, e.root, e.event, e.child, e.rootX, e.rootY, e.eventX, e.eventY, state, e.sameScreen)));
    }

    /** `read_button_release`. */
    method ReadButtonRelease(button: U8) returns (r: Outcome<Option<ServerEvent>>)
      requires Valid()
      modifies this`pos, buf1, buf2, buf4
      ensures Valid() && WithPos(r, pos) == ButtonReleaseAt(input, old(pos), button)
    {
      var e :- ReadPointerEvent();
      var state := Valued.KeyButton.Get(e.state);
      r := Ok(Some(ServerEvent.ButtonRelease(button, e.time, e.root, e.event, e.child, e.rootX, e.rootY, e.eventX, e.eventY, state, e.sameScreen)));
    }

    /** `read_motion_notify`. */
    method ReadMotionNotify(detailPre: U8) returns (r: Outcome<Option<ServerEvent>>)
      requires Valid()
      modifies this`pos, buf1, buf2, buf4
      ensures Valid() && WithPos(r, pos) == MotionNotifyAt(input, old(pos), detailPre)
    {
      var e :- ReadPointerEvent();
      var detail := Valued.MotionNotifyType.Get(detailPre);
      if detail.None? {
        return Ok(Option.None);
      }
      var state := Valued.KeyButton.Get(e.state);
      r := Ok(Some(ServerEvent.MotionNotify(detail.value, e.time, e.root, e.event, e.child, e.rootX, e.rootY, e.eventX, e.eventY, state, e.sameScreen)));
    }

    /** `read_enter_notify`. */
    method ReadEnterNotify(detailPre: U8) returns (r: Outcome<Option<ServerEvent>>)
      requires Valid()
      modifies this`pos, buf1, buf2, buf4
      ensures Valid() && WithPos(r, pos) == EnterNotifyAt(input, old(pos), detailPre)
    {
      var e :- ReadPointerEventWithMode();
      var detail := Valued.NotifyType.Get(detailPre);
      if detail.None? {
        return Ok(Option.None);
      }
      var state := Valued.KeyButton.Get(e.state);
      var mode := Valued.NotifyMode.Get(e.mode);
      if mode.None? {
        return Ok(Option.None);
      }
      var flags := SameScreenFocus(e.extra);
      r := Ok(Some(ServerEvent.EnterNotify(detail.value, e.time, e.root, e.event, e.child, e.rootX, e.rootY, e.eventX, e.eventY, state, mode.value, flags.0, flags.1)));
    }

    /** `read_leave_notify`. */
    method ReadLeaveNotify(detailPre: U8) returns (r: Outcome<Option<ServerEvent>>)
      requires Valid()
      modifies this`pos, buf1, buf2, buf4
      ensures Valid() && WithPos(r, pos) == LeaveNotifyAt(input, old(pos), detailPre)
    {
      var e :- ReadPointerEventWithMode();
      var detail := Valued.NotifyType.Get(detailPre);
      if detail.None? {
        return Ok(Option.None);
      }
      var state := Valued.KeyButton.Get(e.state);
      var mode := Valued.NotifyMode.Get(e.mode);
      if mode.None? {
        return Ok(Option.None);
      }
      var flags := SameScreenFocus(e.extra);
      r := Ok(Some(ServerEvent.LeaveNotify(detail.value, e.time, e.root, e.event, e.child, e.rootX, e.rootY, e.eventX, e.eventY, state, mode.value, flags.0, flags.1)));
    }

    /** `read_focus_in`. */
    method ReadFocusIn(detailPre: U8) returns (r: Outcome<Option<ServerEvent>>)
      requires Valid()
      modifies this`pos, buf1, buf2, buf4
      ensures Valid() && WithPos(r, pos) == FocusInAt(input, old(pos), detailPre)
    {
      var e :- ReadFocusEvent();
      var detail := Valued.FocusType.Get(detailPre);
      if detail.None? {
        return Ok(Option.None);
      }
      var mode := Valued.FocusMode.Get(e.mode);
      if mode.None? {
        return Ok(Option.None);
      }
      r := Ok(Some(ServerEvent.FocusIn(detail.value, e.event, mode.value)));
    }

    /** `read_focus_out`. */
    method ReadFocusOut(detailPre: U8) returns (r: Outcome<Option<ServerEvent>>)
      requires Valid()
      modifies this`pos, buf1, buf2, buf4
      ensures Valid() && WithPos(r, pos) == FocusOutAt(input, old(pos), detailPre)
    {
      var e :- ReadFocusEvent();
      var detail := Valued.FocusType.Get(detailPre);
      if detail.None? {
        return Ok(Option.None);
      }
      var mode := Valued.FocusMode.Get(e.mode);
      if mode.None? {
        return Ok(Option.None);
      }
      r := Ok(Some(ServerEvent.FocusIn(detail.value, e.event, mode.value)));
    }

    /** `read_keymap_notify`: not implemented; it panics before reading anything. */
    method ReadKeymapNotify(detail: U8) returns (r: Outcome<Option<ServerEvent>>)
      requires Valid()
      ensures r == Panic(NotImplemented)
    {
      r := Panic(NotImplemented);
    }

    /** `read_expose`. */
    method ReadExpose() returns (r: Outcome<Option<ServerEvent>>)
      requires Valid()
      modifies this`pos, buf1, buf2, buf4
      ensures Valid() && WithPos(r, pos) == ExposeAt(input, old(pos))
    {
      var window :- ReadU32();
      var x :- ReadU16();
      var y :- ReadU16();
      var width :- ReadU16();
      var height :- ReadU16();
      var count :- ReadU16();
      ReadPad(14);
      r := Ok(Some(ServerEvent.Expose(window, x, y, width, height, count)));
    }

    /** `read_graphics_exposure`. */
    method ReadGraphicsExposure() returns (r: Outcome<Option<ServerEvent>>)
      requires Valid()
      modifies this`pos, buf1, buf2, buf4
      ensures Valid() && WithPos(r, pos) == GraphicsExposureAt(input, old(pos))
    {
      var drawable :- ReadU32();
      var x :- ReadU16();
      var y :- ReadU16();
      var width :- ReadU16();
      var height :- ReadU16();
      var minorOpcode :- ReadU16();
      var count :- ReadU16();
      var majorOpcode :- ReadU8();
      ReadPad(11);
      r := Ok(Some(ServerEvent.GraphicsExposure(drawable, x, y, width, height, minorOpcode, count, majorOpcode)));
    }

    /** `read_no_exposure`. */
    method ReadNoExposure() returns (r: Outcome<Option<ServerEvent>>)
      requires Valid()
      modifies this`pos, buf1, buf2, buf4
      ensures Valid() && WithPos(r, pos) == NoExposureAt(input, old(pos))
    {
      var drawable :- ReadU32();
      var minorOpcode :- ReadU16();
      var majorOpcode :- ReadU8();
      ReadPad(21);
      r := Ok(Some(ServerEvent.NoExposure(drawable, minorOpcode, majorOpcode)));
    }

    /** `read_visibility_notify`. */
    method ReadVisibilityNotify() returns (r: Outcome<Option<ServerEvent>>)
      requires Valid()
      modifies this`pos, buf1, buf2, buf4
      ensures Valid() && WithPos(r, pos) == VisibilityNotifyAt(input, old(pos))
    {
      var window :- ReadU32();
      var stateCode :- ReadU8();
      var state := Valued.VisibilityState.Get(stateCode);
      if state.None? {
        return Ok(Option.None);
      }
      ReadPad(23);
      r := Ok(Some(ServerEvent.VisibilityNotify(window, state.value)));
    }

    /** `read_create_notify`. */
    method ReadCreateNotify() returns (r: Outcome<Option<ServerEvent>>)
      requires Valid()
      modifies this`pos, buf1, buf2, buf4
      ensures Valid() && WithPos(r, pos) == CreateNotifyAt(input, old(pos))
    {
      var parent :- ReadU32();
      var window :- ReadU32();
      var x :- ReadI16();
      var y :- ReadI16();
      var width :- ReadU16();
      var height :- ReadU16();
      var borderWidth :- ReadU16();
      var overrideRedirect :- ReadBool();
      ReadPad(9);
      r := Ok(Some(ServerEvent.CreateNotify(parent, window, x, y, width, height, borderWidth, overrideRedirect)));
    }

    /** `read_destroy_notify`. */
    method ReadDestroyNotify() returns (r: Outcome<Option<ServerEvent>>)
      requires Valid()
      modifies this`pos, buf1, buf2, buf4
      ensures Valid() && WithPos(r, pos) == DestroyNotifyAt(input, old(pos))
    {
      var event :- ReadU32();
      var window :- ReadU32();
      ReadPad(20);
      r := Ok(Some(ServerEvent.DestroyNotify(event, window)));
    }

    /** `read_unmap_notify`. */
    method ReadUnmapNotify() returns (r: Outcome<Option<ServerEvent>>)
      requires Valid()
      modifies this`pos, buf1, buf2, buf4
      ensures Valid() && WithPos(r, pos) == UnmapNotifyAt(input, old(pos))
    {
      var event :- ReadU32();
      var window :- ReadU32();
      var fromConfigure :- ReadBool();
      ReadPad(19);
      r := Ok(Some(ServerEvent.UnmapNotify(event, window, fromConfigure)));
    }

    /** `read_map_notify`. */
    method ReadMapNotify() returns (r: Outcome<Option<ServerEvent>>)
      requires Valid()
      modifies this`pos, buf1, buf2, buf4
      ensures Valid() && WithPos(r, pos) == MapNotifyAt(input, old(pos))
    {
      var event :- ReadU32();
      var window :- ReadU32();
      var overrideRedirect :- ReadBool();
      ReadPad(19);
      r := Ok(Some(ServerEvent.MapNotify(event, window, overrideRedirect)));
    }

    /** `read_map_request`. */
    method ReadMapRequest() returns (r: Outcome<Option<ServerEvent>>)
      requires Valid()
      modifies this`pos, buf1, buf2, buf4
      ensures Valid() && WithPos(r, pos) == MapRequestAt(input, old(pos))
    {
      var parent :- ReadU32();
      var window :- ReadU32();
      ReadPad(20);
      r := Ok(Some(ServerEvent.MapRequest(parent, window)));
    }

    /** `read_reparent_notify`. */
    method ReadReparentNotify() returns (r: Outcome<Option<ServerEvent>>)
      requires Valid()
      modifies this`pos, buf1, buf2, buf4
      ensures Valid() && WithPos(r, pos) == ReparentNotifyAt(input, old(pos))
    {
      var event :- ReadU32();
      var window :- ReadU32();
      var parent :- ReadU32();
      var x :- ReadI16();
      var y :- ReadI16();
      var overrideRedirect :- ReadBool();
      ReadPad(11);
      r := Ok(Some(ServerEvent.ReparentNotify(event, window, parent, x, y, overrideRedirect)));
    }

    /** `read_configure_notify`. */
    method ReadConfigureNotify() returns (r: Outcome<Option<ServerEvent>>)
      requires Valid()
      modifies this`pos, buf1, buf2, buf4
      ensures Valid() && WithPos(r, pos) == ConfigureNotifyAt(input, old(pos))
    {
      var event :- ReadU32();
      var window :- ReadU32();
      var aboveSibling :- ReadU32();
      var x :- ReadI16();
      var y :- ReadI16();
      var width :- ReadU16();
      var height :- ReadU16();
      var borderWidth :- ReadU16();
      var overrideRedirect :- ReadBool();
      ReadPad(5);
      r := Ok(Some(ServerEvent.ConfigureNotify(event, window, aboveSibling, x, y, width, height, borderWidth, overrideRedirect)));
    }

    /** `read_configure_request`. */
    method ReadConfigureRequest(stackModePre: U8) returns (r: Outcome<Option<ServerEvent>>)
      requires Valid()
      modifies this`pos, buf1, buf2, buf4
      ensures Valid() && WithPos(r, pos) == ConfigureRequestAt(input, old(pos), stackModePre)
    {
      var stackMode := Valued.StackMode.Get(stackModePre);
      if stackMode.None? {
        return Ok(Option.None);
      }
      var parent :- ReadU32();
      var window :- ReadU32();
      var sibling :- ReadU32();
      var x :- ReadI16();
      var y :- ReadI16();
      var width :- ReadU16();
      var height :- ReadU16();
      var borderWidth :- ReadU16();
      var valueMask :- ReadU16();
      var values := Valued.ConfigureRequestValues.Get(valueMask);
      ReadPad(4);
      r := Ok(Some(ServerEvent.ConfigureRequest(stackMode.value, parent, window, sibling, x, y, width, height, borderWidth, values)));
    }

    /** `read_gravity_notify`. */
    method ReadGravityNotify() returns (r: Outcome<Option<ServerEvent>>)
      requires Valid()
      modifies this`pos, buf1, buf2, buf4
      ensures Valid() && WithPos(r, pos) == GravityNotifyAt(input, old(pos))
    {
      var event :- ReadU32();
      var window :- ReadU32();
      var x :- ReadI16();
      var y :- ReadI16();
      ReadPad(16);
      r := Ok(Some(ServerEvent.GravityNotify(event, window, x, y)));
    }

    /** `read_resize_request`. */
    method ReadResizeRequest() returns (r: Outcome<Option<ServerEvent>>)
      requires Valid()
      modifies this`pos, buf1, buf2, buf4
      ensures Valid() && WithPos(r, pos) == ResizeRequestAt(input, old(pos))
    {
      var window :- ReadU32();
      var width :- ReadU16();
      var height :- ReadU16();
      ReadPad(20);
      r := Ok(Some(ServerEvent.ResizeRequest(window, width, height)));
    }

    /** `read_circulate_notify`. */
    method ReadCirculateNotify() returns (r: Outcome<Option<ServerEvent>>)
      requires Valid()
      modifies this`pos, buf1, buf2, buf4
      ensures Valid() && WithPos(r, pos) == CirculateNotifyAt(input, old(pos))
    {
      var event :- ReadU32();
      var window :- ReadU32();
      ReadPad(4);
      var placeCode :- ReadU8();
      var place := Valued.CirculatePlace.Get(placeCode);
      if place.None? {
        return Ok(Option.None);
      }
      ReadPad(15);
      r := Ok(Some(ServerEvent.CirculateNotify(event, window, place.value)));
    }

    /** `read_circulate_request`. */
    method ReadCirculateRequest() returns (r: Outcome<Option<ServerEvent>>)
      requires Valid()
      modifies this`pos, buf1, buf2, buf4
      ensures Valid() && WithPos(r, pos) == CirculateRequestAt(input, old(pos))
    {
      var parent :- ReadU32();
      var window :- ReadU32();
      ReadPad(4);
      var placeCode :- ReadU8();
      var place := Valued.CirculatePlace.Get(placeCode);
      if place.None? {
        return Ok(Option.None);
      }
      ReadPad(15);
      r := Ok(Some(ServerEvent.CirculateRequest(parent, window, place.value)));
    }

    /** `read_property_notify`. */
    method ReadPropertyNotify() returns (r: Outcome<Option<ServerEvent>>)
      requires Valid()
      modifies this`pos, buf1, buf2, buf4
      ensures Valid() && WithPos(r, pos) == PropertyNotifyAt(input, old(pos))
    {
      var window :- ReadU32();
      var atom :- ReadU32();
      var time :- ReadU32();
      var stateCode :- ReadU8();
      var state := Valued.PropertyState.Get(stateCode);
      if state.None? {
        return Ok(Option.None);
      }
      ReadPad(15);
      r := Ok(Some(ServerEvent.PropertyNotify(window, atom, time, state.value)));
    }

    /** `read_selection_clear`. */
    method ReadSelectionClear() returns (r: Outcome<Option<ServerEvent>>)
      requires Valid()
      modifies this`pos, buf1, buf2, buf4
      ensures Valid() && WithPos(r, pos) == SelectionClearAt(input, old(pos))
    {
      var time :- ReadU32();
      var owner :- ReadU32();
      var selection :- ReadU32();
      ReadPad(16);
      r := Ok(Some(ServerEvent.SelectionClear(time, owner, selection)));
    }

    /** `read_selection_request`. */
    method ReadSelectionRequest() returns (r: Outcome<Option<ServerEvent>>)
      requires Valid()
      modifies this`pos, buf1, buf2, buf4
      ensures Valid() && WithPos(r, pos) == SelectionRequestAt(input, old(pos))
    {
      var time :- ReadU32();
      var owner :- ReadU32();
      var requestor :- ReadU32();
      var selection :- ReadU32();
      var target :- ReadU32();
      var property :- ReadU32();
      ReadPad(4);
      r := Ok(Some(ServerEvent.SelectionRequest(time, owner, requestor, selection, target, property)));
    }

    /** `read_selection_notify`. */
    method ReadSelectionNotify() returns (r: Outcome<Option<ServerEvent>>)
      requires Valid()
      modifies this`pos, buf1, buf2, buf4
      ensures Valid() && WithPos(r, pos) == SelectionNotifyAt(input, old(pos))
    {
      var time :- ReadU32();
      var requestor :- ReadU32();
      var selection :- ReadU32();
      var target :- ReadU32();
      var property :- ReadU32();
      ReadPad(8);
      r := Ok(Some(ServerEvent.SelectionNotify(time, requestor, selection, target, property)));
    }

    /** `read_colormap_notify`. */
    method ReadColormapNotify() returns (r: Outcome<Option<ServerEvent>>)
      requires Valid()
      modifies this`pos, buf1, buf2, buf4
      ensures Valid() && WithPos(r, pos) == ColormapNotifyAt(input, old(pos))
    {
      var window :- ReadU32();
      var colormap :- ReadU32();
      var isNew :- ReadBool();
      var stateCode :- ReadU8();
      var state := Valued.ColormapState.Get(stateCode);
      if state.None? {
        return Ok(Option.None);
      }
      ReadPad(18);
      r := Ok(Some(ServerEvent.ColormapNotify(window, colormap, isNew, state.value)));
    }

    /** `read_client_message`. */
    method ReadClientMessage(format: U8) returns (r: Outcome<Option<ServerEvent>>)
      requires Valid()
      modifies this`pos, buf1, buf2, buf4
      ensures Valid() && WithPos(r, pos) == ClientMessageAt(input, old(pos), format)
    {
      var window :- ReadU32();
      var mtype :- ReadU32();
      ReadPad(20);
      r := Ok(Some(ServerEvent.ClientMessage(format, window, mtype)));
    }

    /** `read_mapping_notify`. */
    method ReadMappingNotify() returns (r: Outcome<Option<ServerEvent>>)
      requires Valid()
      modifies this`pos, buf1, buf2, buf4
      ensures Valid() && WithPos(r, pos) == MappingNotifyAt(input, old(pos))
    {
      var requestCode :- ReadU8();
      var request := Valued.MappingType.Get(requestCode);
      if request.None? {
        return Ok(Option.None);
      }
      var firstKeycode :- ReadChar();
      var count :- ReadU8();
      ReadPad(25);
      r := Ok(Some(ServerEvent.MappingNotify(request.value, firstKeycode, count)));
    }

  }

  // ---------------------------------------------------------------------------
  // Layouts: each complete event's fields at their offsets

  lemma KeyPressLayout(s: Bytes, p: nat, keyCode: U8)
    requires p + 28 <= |s|
    ensures KeyPressAt(s, p, keyCode) ==
      if s[p + 26] > 1 then Panic(InvalidBool(s[p + 26]))
      else Ok((Some(ServerEvent.KeyPress(keyCode, U32At(s, p), U32At(s, p + 4), U32At(s, p + 8), U32At(s, p + 12), I16At(s, p + 16), I16At(s, p + 18), I16At(s, p + 20), I16At(s, p + 22), Valued.KeyButton.Decoded(U16At(s, p + 24)), (s[p + 26] == 1))), p + 28))
  {
  }

  lemma KeyReleaseLayout(s: Bytes, p: nat, keyCode: U8)
    requires p + 28 <= |s|
    ensures KeyReleaseAt(s, p, keyCode) ==
      if s[p + 26] > 1 then Panic(InvalidBool(s[p + 26]))
      else Ok((Some(ServerEvent.KeyRelease(keyCode, U32At(s, p), U32At(s, p + 4), U32At(s, p + 8), U32At(s, p + 12), I16At(s, p + 16), I16At(s, p + 18), I16At(s, p + 20), I16At(s, p + 22), Valued.KeyButton.Decoded(U16At(s, p + 24)), (s[p + 26] == 1))), p + 28))
  {
  }

  lemma ButtonPressLayout(s: Bytes, p: nat, button: U8)
    requires p + 28 <= |s|
    ensures ButtonPressAt(s, p, button) ==
      if s[p + 26] > 1 then Panic(InvalidBool(s[p + 26]))
      else Ok((Some(ServerEvent.ButtonPress(button, U32At(s, p), U32At(s, p + 4), U32At(s, p + 8), U32At(s, p + 12), I16At(s, p + 16), I16At(s, p + 18), I16At(s, p + 20), I16At(s, p + 22), Valued.KeyButton.Decoded(U16At(s, p + 24)), (s[p + 26] == 1))), p + 28))
  {
  }

  lemma ButtonReleaseLayout(s: Bytes, p: nat, button: U8)
    requires p + 28 <= |s|
    ensures ButtonReleaseAt(s, p, button) ==
      if s[p + 26] > 1 then Panic(InvalidBool(s[p + 26]))
      else Ok((Some(ServerEvent.ButtonRelease(button, U32At(s, p), U32At(s, p + 4), U32At(s, p + 8), U32At(s, p + 12), I16At(s, p + 16), I16At(s, p + 18), I16At(s, p + 20), I16At(s, p + 22), Valued.KeyButton.Decoded(U16At(s, p + 24)), (s[p + 26] == 1))), p + 28))
  {
  }

  lemma MotionNotifyLayout(s: Bytes, p: nat, detailPre: U8)
    requires p + 28 <= |s|
    ensures MotionNotifyAt(s, p, detailPre) ==
      if s[p + 26] > 1 then Panic(InvalidBool(s[p + 26]))
      else if Valued.MotionNotifyType.Get(detailPre).None? then Ok((Option.None, p + 28))
      else Ok((Some(ServerEvent.MotionNotify(Valued.MotionNotifyType.Get(detailPre).value, U32At(s, p), U32At(s, p + 4), U32At(s, p + 8), U32At(s, p + 12), I16At(s, p + 16), I16At(s, p + 18), I16At(s, p + 20), I16At(s, p + 22), Valued.KeyButton.Decoded(U16At(s, p + 24)), (s[p + 26] == 1))), p + 28))
  {
  }

  lemma EnterNotifyLayout(s: Bytes, p: nat, detailPre: U8)
    requires p + 28 <= |s|
    ensures EnterNotifyAt(s, p, detailPre) ==
      if Valued.NotifyType.Get(detailPre).None? then Ok((Option.None, p + 28))
      else if Valued.NotifyMode.Get(s[p + 26]).None? then Ok((Option.None, p + 28))
      else Ok((Some(ServerEvent.EnterNotify(Valued.NotifyType.Get(detailPre).value, U32At(s, p), U32At(s, p + 4), U32At(s, p + 8), U32At(s, p + 12), I16At(s, p + 16), I16At(s, p + 18), I16At(s, p + 20), I16At(s, p + 22), Valued.KeyButton.Decoded(U16At(s, p + 24)), Valued.NotifyMode.Get(s[p + 26]).value, SameScreenFocus(s[p + 27]).0, SameScreenFocus(s[p + 27]).1)), p + 28))
  {
  }

  lemma LeaveNotifyLayout(s: Bytes, p: nat, detailPre: U8)
    requires p + 28 <= |s|
    ensures LeaveNotifyAt(s, p, detailPre) ==
      if Valued.NotifyType.Get(detailPre).None? then Ok((Option.None, p + 28))
      else if Valued.NotifyMode.Get(s[p + 26]).None? then Ok((Option.None, p + 28))
      else Ok((Some(ServerEvent.LeaveNotify(Valued.NotifyType.Get(detailPre).value, U32At(s, p), U32At(s, p + 4), U32At(s, p + 8), U32At(s, p + 12), I16At(s, p + 16), I16At(s, p + 18), I16At(s, p + 20), I16At(s, p + 22), Valued.KeyButton.Decoded(U16At(s, p + 24)), Valued.NotifyMode.Get(s[p + 26]).value, SameScreenFocus(s[p + 27]).0, SameScreenFocus(s[p + 27]).1)), p + 28))
  {
  }

  lemma FocusInLayout(s: Bytes, p: nat, detailPre: U8)
    requires p + 28 <= |s|
    ensures FocusInAt(s, p, detailPre) ==
      if Valued.FocusType.Get(detailPre).None? then Ok((Option.None, p + 28))
      else if Valued.FocusMode.Get(s[p + 4]).None? then Ok((Option.None, p + 28))
      else Ok((Some(ServerEvent.FocusIn(Valued.FocusType.Get(detailPre).value, U32At(s, p), Valued.FocusMode.Get(s[p + 4]).value)), p + 28))
  {
  }

  lemma FocusOutLayout(s: Bytes, p: nat, detailPre: U8)
    requires p + 28 <= |s|
    ensures FocusOutAt(s, p, detailPre) ==
      if Valued.FocusType.Get(detailPre).None? then Ok((Option.None, p + 28))
      else if Valued.FocusMode.Get(s[p + 4]).None? then Ok((Option.None, p + 28))
      else Ok((Some(ServerEvent.FocusIn(Valued.FocusType.Get(detailPre).value, U32At(s, p), Valued.FocusMode.Get(s[p + 4]).value)), p + 28))
  {
  }

  lemma ExposeLayout(s: Bytes, p: nat)
    requires p + 28 <= |s|
    ensures ExposeAt(s, p) ==
      Ok((Some(ServerEvent.Expose(U32At(s, p), U16At(s, p + 4), U16At(s, p + 6), U16At(s, p + 8), U16At(s, p + 10), U16At(s, p + 12))), p + 28))
  {
  }

  lemma GraphicsExposureLayout(s: Bytes, p: nat)
    requires p + 28 <= |s|
    ensures GraphicsExposureAt(s, p) ==
      Ok((Some(ServerEvent.GraphicsExposure(U32At(s, p), U16At(s, p + 4), U16At(s, p + 6), U16At(s, p + 8), U16At(s, p + 10), U16At(s, p + 12), U16At(s, p + 14), s[p + 16])), p + 28))
  {
  }

  lemma NoExposureLayout(s: Bytes, p: nat)
    requires p + 28 <= |s|
    ensures NoExposureAt(s, p) ==
      Ok((Some(ServerEvent.NoExposure(U32At(s, p), U16At(s, p + 4), s[p + 6])), p + 28))
  {
  }

  lemma VisibilityNotifyLayout(s: Bytes, p: nat)
    requires p + 28 <= |s|
    ensures VisibilityNotifyAt(s, p) ==
      if Valued.VisibilityState.Get(s[p + 4]).None? then Ok((Option.None, p + 5))
      else Ok((Some(ServerEvent.VisibilityNotify(U32At(s, p), Valued.VisibilityState.Get(s[p + 4]).value)), p + 28))
  {
  }

  lemma CreateNotifyLayout(s: Bytes, p: nat)
    requires p + 28 <= |s|
    ensures CreateNotifyAt(s, p) ==
      if s[p + 18] > 1 then Panic(InvalidBool(s[p + 18]))
      else Ok((Some(ServerEvent.CreateNotify(U32At(s, p), U32At(s, p + 4), I16At(s, p + 8), I16At(s, p + 10), U16At(s, p + 12), U16At(s, p + 14), U16At(s, p + 16), (s[p + 18] == 1))), p + 28))
  {
  }

  lemma DestroyNotifyLayout(s: Bytes, p: nat)
    requires p + 28 <= |s|
    ensures DestroyNotifyAt(s, p) ==
      Ok((Some(ServerEvent.DestroyNotify(U32At(s, p), U32At(s, p + 4))), p + 28))
  {
  }

  lemma UnmapNotifyLayout(s: Bytes, p: nat)
    requires p + 28 <= |s|
    ensures UnmapNotifyAt(s, p) ==
      if s[p + 8] > 1 then Panic(InvalidBool(s[p + 8]))
      else Ok((Some(ServerEvent.UnmapNotify(U32At(s, p), U32At(s, p + 4), (s[p + 8] == 1))), p + 28))
  {
  }

  lemma MapNotifyLayout(s: Bytes, p: nat)
    requires p + 28 <= |s|
    ensures MapNotifyAt(s, p) ==
      if s[p + 8] > 1 then Panic(InvalidBool(s[p + 8]))
      else Ok((Some(ServerEvent.MapNotify(U32At(s, p), U32At(s, p + 4), (s[p + 8] == 1))), p + 28))
  {
  }

  lemma MapRequestLayout(s: Bytes, p: nat)
    requires p + 28 <= |s|
    ensures MapRequestAt(s, p) ==
      Ok((Some(ServerEvent.MapRequest(U32At(s, p), U32At(s, p + 4))), p + 28))
  {
  }

  lemma ReparentNotifyLayout(s: Bytes, p: nat)
    requires p + 28 <= |s|
    ensures ReparentNotifyAt(s, p) ==
      if s[p + 16] > 1 then Panic(InvalidBool(s[p + 16]))
      else Ok((Some(ServerEvent.ReparentNotify(U32At(s, p), U32At(s, p + 4), U32At(s, p + 8), I16At(s, p + 12), I16At(s, p + 14), (s[p + 16] == 1))), p + 28))
  {
  }

  lemma ConfigureNotifyLayout(s: Bytes, p: nat)
    requires p + 28 <= |s|
    ensures ConfigureNotifyAt(s, p) ==
      if s[p + 22] > 1 then Panic(InvalidBool(s[p + 22]))
      else Ok((Some(ServerEvent.ConfigureNotify(U32At(s, p), U32At(s, p + 4), U32At(s, p + 8), I16At(s, p + 12), I16At(s, p + 14), U16At(s, p + 16), U16At(s, p + 18), U16At(s, p + 20), (s[p + 22] == 1))), p + 28))
  {
  }

  lemma ConfigureRequestLayout(s: Bytes, p: nat, stackModePre: U8)
    requires p + 28 <= |s|
    ensures ConfigureRequestAt(s, p, stackModePre) ==
      if Valued.StackMode.Get(stackModePre).None? then Ok((Option.None, p))
      else Ok((Some(ServerEvent.ConfigureRequest(Valued.StackMode.Get(stackModePre).value, U32At(s, p), U32At(s, p + 4), U32At(s, p + 8), I16At(s, p + 12), I16At(s, p + 14), U16At(s, p + 16), U16At(s, p + 18), U16At(s, p + 20), Valued.ConfigureRequestValues.Decoded(U16At(s, p + 22)))), p + 28))
  {
  }

  lemma GravityNotifyLayout(s: Bytes, p: nat)
    requires p + 28 <= |s|
    ensures GravityNotifyAt(s, p) ==
      Ok((Some(ServerEvent.GravityNotify(U32At(s, p), U32At(s, p + 4), I16At(s, p + 8), I16At(s, p + 10))), p + 28))
  {
  }

  lemma ResizeRequestLayout(s: Bytes, p: nat)
    requires p + 28 <= |s|
    ensures ResizeRequestAt(s, p) ==
      Ok((Some(ServerEvent.ResizeRequest(U32At(s, p), U16At(s, p + 4), U16At(s, p + 6))), p + 28))
  {
  }

  lemma CirculateNotifyLayout(s: Bytes, p: nat)
    requires p + 28 <= |s|
    ensures CirculateNotifyAt(s, p) ==
      if Valued.CirculatePlace.Get(s[p + 12]).None? then Ok((Option.None, p + 13))
      else Ok((Some(ServerEvent.CirculateNotify(U32At(s, p), U32At(s, p + 4), Valued.CirculatePlace.Get(s[p + 12]).value)), p + 28))
  {
  }

  lemma CirculateRequestLayout(s: Bytes, p: nat)
    requires p + 28 <= |s|
    ensures CirculateRequestAt(s, p) ==
      if Valued.CirculatePlace.Get(s[p + 12]).None? then Ok((Option.None, p + 13))
      else Ok((Some(ServerEvent.CirculateRequest(U32At(s, p), U32At(s, p + 4), Valued.CirculatePlace.Get(s[p + 12]).value)), p + 28))
  {
  }

  lemma PropertyNotifyLayout(s: Bytes, p: nat)
    requires p + 28 <= |s|
    ensures PropertyNotifyAt(s, p) ==
      if Valued.PropertyState.Get(s[p + 12]).None? then Ok((Option.None, p + 13))
      else Ok((Some(ServerEvent.PropertyNotify(U32At(s, p), U32At(s, p + 4), U32At(s, p + 8), Valued.PropertyState.Get(s[p + 12]).value)), p + 28))
  {
  }

  lemma SelectionClearLayout(s: Bytes, p: nat)
    requires p + 28 <= |s|
    ensures SelectionClearAt(s, p) ==
      Ok((Some(ServerEvent.SelectionClear(U32At(s, p), U32At(s, p + 4), U32At(s, p + 8))), p + 28))
  {
  }

  lemma SelectionRequestLayout(s: Bytes, p: nat)
    requires p + 28 <= |s|
    ensures SelectionRequestAt(s, p) ==
      Ok((Some(ServerEvent.SelectionRequest(U32At(s, p), U32At(s, p + 4), U32At(s, p + 8), U32At(s, p + 12), U32At(s, p + 16), U32At(s, p + 20))), p + 28))
  {
  }

  lemma SelectionNotifyLayout(s: Bytes, p: nat)
    requires p + 28 <= |s|
    ensures SelectionNotifyAt(s, p) ==
      Ok((Some(ServerEvent.SelectionNotify(U32At(s, p), U32At(s, p + 4), U32At(s, p + 8), U32At(s, p + 12), U32At(s, p + 16))), p + 28))
  {
  }

  lemma ColormapNotifyLayout(s: Bytes, p: nat)
    requires p + 28 <= |s|
    ensures ColormapNotifyAt(s, p) ==
      if s[p + 8] > 1 then Panic(InvalidBool(s[p + 8]))
      else if Valued.ColormapState.Get(s[p + 9]).None? then Ok((Option.None, p + 10))
      else Ok((Some(ServerEvent.ColormapNotify(U32At(s, p), U32At(s, p + 4), (s[p + 8] == 1), Valued.ColormapState.Get(s[p + 9]).value)), p + 28))
  {
  }

  lemma ClientMessageLayout(s: Bytes, p: nat, format: U8)
    requires p + 28 <= |s|
    ensures ClientMessageAt(s, p, format) ==
      Ok((Some(ServerEvent.ClientMessage(format, U32At(s, p), U32At(s, p + 4))), p + 28))
  {
  }

  lemma MappingNotifyLayout(s: Bytes, p: nat)
    requires p + 28 <= |s|
    ensures MappingNotifyAt(s, p) ==
      if Valued.MappingType.Get(s[p]).None? then Ok((Option.None, p + 1))
      else Ok((Some(ServerEvent.MappingNotify(Valued.MappingType.Get(s[p]).value, s[p + 1], s[p + 2])), p + 28))
  {
  }
}
