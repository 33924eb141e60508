/**
 * The records and values of the Rust client's models (src/models.rs): what
 * the server sends (the connection setup, errors, events), the attribute
 * values a window or a graphics context is created or changed with, the
 * byte images of the small structures requests carry, and the window and
 * graphics-context objects that keep their current attribute lists.
 */
module Models {
  import opened Wire
  import Valued

  // ---------------------------------------------------------------------------
  // The connection setup

  /** One pixmap format of the setup reply. */
  datatype Format = Format(depth: U8, bitsPerPixel: U8, scanlinePad: U8)

  /** One visual type of a depth. */
  datatype Visual = Visual(
    id: U32,
    visualClass: Valued.VisualType,
    bitsPerRgbValue: U8,
    colormapEntries: U16,
    redMask: U32,
    greenMask: U32,
    blueMask: U32)

  /** One depth of a screen with its visuals. */
  datatype Depth = Depth(depth: U8, numVisuals: U16, visuals: seq<Visual>)

  /** One screen of the setup reply. */
  datatype Screen = Screen(
    root: U32,
    defaultColormap: U32,
    whitePixel: U32,
    blackPixel: U32,
    currentInputMasks: U32,
    widthInPixels: U16,
    heightInPixels: U16,
    widthInMillimeters: U16,
    heightInMillimeters: U16,
    minInstalledMaps: U16,
    maxInstalledMaps: U16,
    rootVisual: U32,
    backingStores: Valued.ScreenBackingStores,
    saveUnders: bool,
    rootDepth: U8,
    numDepths: U8,
    depths: seq<Depth>)

  /**
   * What the client learned from the setup reply. The key codes are the
   * bytes read with read_char, whose code point is the byte itself; the
   * vendor string is kept as its bytes.
   */
  datatype ConnectInfo = ConnectInfo(
    statusCode: U8,
    protocolMajorVersion: U16,
    protocolMinorVersion: U16,
    additionalDataLen: U16,
    releaseNumber: U32,
    resourceIdBase: U32,
    resourceIdMask: U32,
    motionBufferSize: U32,
    maxRequestLength: U16,
    numScreens: U8,
    numFormats: U8,
    imageByteOrder: Valued.ByteOrder,
    bitmapFormatBitOrder: Valued.BitOrder,
    bitmapFormatScanlineUnit: U8,
    bitmapFormatScanlinePad: U8,
    minKeycode: U8,
    maxKeycode: U8,
    vendor: Bytes,
    formats: seq<Format>,
    screens: seq<Screen>)

  /** `Format::empty`. */
  const EmptyFormat := Format(0, 0, 0)

  /** `Visual::empty`. */
  const EmptyVisual := Visual(0, Valued.VisualType.StaticGray, 0, 0, 0, 0, 0)

  /** `Depth::empty`. */
  const EmptyDepth := Depth(0, 0, [])

  /** `Screen::empty`. */
  const EmptyScreen := Screen(0, 0, 0, 0, 0, 0, 0, 0, 0, 0, 0, 0, Valued.ScreenBackingStores.Never, false, 0, 0, [])

  /** `ConnectInfo::empty`. */
  const EmptyConnectInfo := ConnectInfo(
    0, 0, 0, 0, 0, 0, 0, 0, 0, 0, 0,
    Valued.ByteOrder.LSBFirst, Valued.BitOrder.LeastSignificant,
    0, 0, 0, 0, [], [], [])

  // ---------------------------------------------------------------------------
  // What the server sends

  /** An error report; the leading u32 of its body is kept where the error has one. */
  datatype ServerError =
    | Request(minorOpcode: U16, majorOpcode: U8)
    | Value(minorOpcode: U16, majorOpcode: U8, badValue: U32)
    | Window(minorOpcode: U16, majorOpcode: U8, badResourceId: U32)
    | Pixmap(minorOpcode: U16, majorOpcode: U8, badResourceId: U32)
    | Atom(minorOpcode: U16, majorOpcode: U8, badAtomId: U32)
    | Cursor(minorOpcode: U16, majorOpcode: U8, badResourceId: U32)
    | Font(minorOpcode: U16, majorOpcode: U8, badResourceId: U32)
    | Match(minorOpcode: U16, majorOpcode: U8)
    | Drawable(minorOpcode: U16, majorOpcode: U8, badResourceId: U32)
    | Access(minorOpcode: U16, majorOpcode: U8)
    | Alloc(minorOpcode: U16, majorOpcode: U8)
    | Colormap(minorOpcode: U16, majorOpcode: U8, badResourceId: U32)
    | GContext(minorOpcode: U16, majorOpcode: U8, badResourceId: U32)
    | IDChoice(minorOpcode: U16, majorOpcode: U8, badResourceId: U32)
    | Name(minorOpcode: U16, majorOpcode: U8)
    | Length(minorOpcode: U16, majorOpcode: U8)
    | Implementation(minorOpcode: U16, majorOpcode: U8)

  /**
   * The X11 error codes 1 to 17 (X Window System Protocol, X11R7.7,
   * Appendix B, "Errors"), each with the error the client builds for it
   * from the three fields it reads; None for any other code.
   */
  function ErrorOf(code: U8, info: U32, minorOpcode: U16, majorOpcode: U8): (r: Option<ServerError>)
    ensures r.Some? <==> 1 <= code <= 17
    ensures r.Some? ==> r.value.minorOpcode == minorOpcode && r.value.majorOpcode == majorOpcode
    ensures r.Some? ==> ErrorCode(r.value) == code
    ensures r.Some? && HasInfo(r.value) ==> ErrorInfo(r.value) == info
  {
    match code
    case 1 => Some(ServerError.Request(minorOpcode, majorOpcode))
    case 2 => Some(ServerError.Value(minorOpcode, majorOpcode, info))
    case 3 => Some(ServerError.Window(minorOpcode, majorOpcode, info))
    case 4 => Some(ServerError.Pixmap(minorOpcode, majorOpcode, info))
    case 5 => Some(ServerError.Atom(minorOpcode, majorOpcode, info))
    case 6 => Some(ServerError.Cursor(minorOpcode, majorOpcode, info))
    case 7 => Some(ServerError.Font(minorOpcode, majorOpcode, info))
    case 8 => Some(ServerError.Match(minorOpcode, majorOpcode))
    case 9 => Some(ServerError.Drawable(minorOpcode, majorOpcode, info))
    case 10 => Some(ServerError.Access(minorOpcode, majorOpcode))
    case 11 => Some(ServerError.Alloc(minorOpcode, majorOpcode))
    case 12 => Some(ServerError.Colormap(minorOpcode, majorOpcode, info))
    case 13 => Some(ServerError.GContext(minorOpcode, majorOpcode, info))
    case 14 => Some(ServerError.IDChoice(minorOpcode, majorOpcode, info))
    case 15 => Some(ServerError.Name(minorOpcode, majorOpcode))
    case 16 => Some(ServerError.Length(minorOpcode, majorOpcode))
    case 17 => Some(ServerError.Implementation(minorOpcode, majorOpcode))
    case _ => None
  }

  /** The protocol's code for each error, independently of how it is decoded. */
  function ErrorCode(e: ServerError): U8 {
    match e
    case Request(_, _) => 1
    case Value(_, _, _) => 2
    case Window(_, _, _) => 3
    case Pixmap(_, _, _) => 4
    case Atom(_, _, _) => 5
    case Cursor(_, _, _) => 6
    case Font(_, _, _) => 7
    case Match(_, _) => 8
    case Drawable(_, _, _) => 9
    case Access(_, _) => 10
    case Alloc(_, _) => 11
    case Colormap(_, _, _) => 12
    case GContext(_, _, _) => 13
    case IDChoice(_, _, _) => 14
    case Name(_, _) => 15
    case Length(_, _) => 16
    case Implementation(_, _) => 17
  }

  /** The errors whose body carries a value, an atom or a resource id. */
  predicate HasInfo(e: ServerError) {
    e.Value? || e.Window? || e.Pixmap? || e.Atom? || e.Cursor? || e.Font? ||
    e.Drawable? || e.Colormap? || e.GContext? || e.IDChoice?
  }

  function ErrorInfo(e: ServerError): U32
    requires HasInfo(e)
  {
    match e
    case Value(_, _, v) => v
    case Atom(_, _, a) => a
    case Window(_, _, id) => id
    case Pixmap(_, _, id) => id
    case Cursor(_, _, id) => id
    case Font(_, _, id) => id
    case Drawable(_, _, id) => id
    case Colormap(_, _, id) => id
    case GContext(_, _, id) => id
    case IDChoice(_, _, id) => id
  }

  /** Decoding recovers every error from its code and fields. */
  lemma ErrorRoundTrip(e: ServerError, info: U32)
    requires HasInfo(e) ==> info == ErrorInfo(e)
    ensures ErrorOf(ErrorCode(e), info, e.minorOpcode, e.majorOpcode) == Some(e)
  {
  }

  /**
   * The body of an error after its code byte, sequence number included:
   * the leading u32, the minor opcode, the major opcode, then 21 unused
   * bytes.
   */
  function ErrorAt(s: Bytes, p: nat, code: U8): Outcome<(Option<ServerError>, nat)> {
    var info :- U32Step(s, p);
    var minorOpcode :- U16Step(s, info.1);
    var majorOpcode :- U8Step(s, minorOpcode.1);
    Ok((ErrorOf(code, info.0, minorOpcode.0, majorOpcode.0), Skip(|s|, majorOpcode.1, 21)))
  }

  /**
   * An error body is 28 bytes: the u32 at offset 0, the minor opcode at 4
   * and the major opcode at 6; only a stream that ends before offset 7
   * makes it fail.
   */
  lemma ErrorLayout(s: Bytes, p: nat, code: U8)
    ensures ErrorAt(s, p, code).Ok? <==> p + 7 <= |s|
    ensures ErrorAt(s, p, code).Panic? ==> ErrorAt(s, p, code).reason == UnexpectedEof
    ensures ErrorAt(s, p, code).Ok? ==> (ErrorAt(s, p, code).value ==
      (ErrorOf(code, U32At(s, p), U16At(s, p + 4), s[p + 6]), Skip(|s|, p, 28)))
  {
  }

  /** The 28 bytes a server sends for `e` after its code and sequence number. */
  function ErrorBody(e: ServerError): (r: Bytes)
    ensures |r| == 28
  {
    Le32(if HasInfo(e) then ErrorInfo(e) else 0) + Le16(e.minorOpcode) + [e.majorOpcode] + Zeros(21)
  }

  /** Reading an error body back gives the error, and all 28 bytes are consumed. */
  lemma ErrorBodyRoundTrip(e: ServerError, rest: Bytes)
    ensures ErrorAt(ErrorBody(e) + rest, 0, ErrorCode(e)) == Ok((Some(e), 28))
  {
    var info := if HasInfo(e) then ErrorInfo(e) else 0;
    var s := ErrorBody(e) + rest;
    assert s[..4] == Le32(info);
    assert s[4..6] == Le16(e.minorOpcode);
    Le32RoundTrip(info);
    Le16RoundTrip(e.minorOpcode);
    assert U32At(s, 0) == U32At(s[..4], 0);
    assert U16At(s, 4) == U16At(s[4..6], 0);
    ErrorRoundTrip(e, info);
    ErrorLayout(s, 0, ErrorCode(e));
  }

  /**
   * An event. Where two kinds of event have a field of the same name but of
   * different types, the second is renamed after what it holds (a destructor
   * name has one type across a datatype): the detail and mode of a focus
   * event, the momentary state of a visibility, property or colormap event,
   * the area of an exposure, the key count of a mapping change.
   */
  datatype ServerEvent =
    | KeyPress(keyCode: U8, time: U32, root: U32, event: U32, child: U32,
        rootX: I16, rootY: I16, eventX: I16, eventY: I16, state: seq<Valued.KeyButton>, sameScreen: bool)
    | KeyRelease(keyCode: U8, time: U32, root: U32, event: U32, child: U32,
        rootX: I16, rootY: I16, eventX: I16, eventY: I16, state: seq<Valued.KeyButton>, sameScreen: bool)
    | ButtonPress(button: U8, time: U32, root: U32, event: U32, child: U32,
        rootX: I16, rootY: I16, eventX: I16, eventY: I16, state: seq<Valued.KeyButton>, sameScreen: bool)
    | ButtonRelease(button: U8, time: U32, root: U32, event: U32, child: U32,
        rootX: I16, rootY: I16, eventX: I16, eventY: I16, state: seq<Valued.KeyButton>, sameScreen: bool)
    | MotionNotify(motionDetail: Valued.MotionNotifyType, time: U32, root: U32, event: U32, child: U32,
        rootX: I16, rootY: I16, eventX: I16, eventY: I16, state: seq<Valued.KeyButton>, sameScreen: bool)
    | EnterNotify(detail: Valued.NotifyType, time: U32, root: U32, event: U32, child: U32,
        rootX: I16, rootY: I16, eventX: I16, eventY: I16, state: seq<Valued.KeyButton>,
        mode: Valued.NotifyMode, sameScreen: bool, focus: bool)
    | LeaveNotify(detail: Valued.NotifyType, time: U32, root: U32, event: U32, child: U32,
        rootX: I16, rootY: I16, eventX: I16, eventY: I16, state: seq<Valued.KeyButton>,
        mode: Valued.NotifyMode, sameScreen: bool, focus: bool)
    | FocusIn(focusDetail: Valued.FocusType, event: U32, focusMode: Valued.FocusMode)
    | FocusOut(focusDetail: Valued.FocusType, event: U32, focusMode: Valued.FocusMode)
    | KeymapNotify
    | Expose(window: U32, areaX: U16, areaY: U16, width: U16, height: U16, count: U16)
    | GraphicsExposure(drawable: U32, areaX: U16, areaY: U16, width: U16, height: U16,
        minorOpcode: U16, count: U16, majorOpcode: U8)
    | NoExposure(drawable: U32, minorOpcode: U16, majorOpcode: U8)
    | VisibilityNotify(window: U32, visibility: Valued.VisibilityState)
    | CreateNotify(parent: U32, window: U32, x: I16, y: I16, width: U16, height: U16,
        borderWidth: U16, overrideRedirect: bool)
    | DestroyNotify(event: U32, window: U32)
    | UnmapNotify(event: U32, window: U32, fromConfigure: bool)
    | MapNotify(event: U32, window: U32, overrideRedirect: bool)
    | MapRequest(parent: U32, window: U32)
    | ReparentNotify(event: U32, window: U32, parent: U32, x: I16, y: I16, overrideRedirect: bool)
    | ConfigureNotify(event: U32, window: U32, aboveSibling: U32, x: I16, y: I16, width: U16, height: U16,
        borderWidth: U16, overrideRedirect: bool)
    | ConfigureRequest(stackMode: Valued.StackMode, parent: U32, window: U32, sibling: U32, x: I16, y: I16,
        width: U16, height: U16, borderWidth: U16, values: seq<Valued.ConfigureRequestValues>)
    | GravityNotify(event: U32, window: U32, x: I16, y: I16)
    | ResizeRequest(window: U32, width: U16, height: U16)
    | CirculateNotify(event: U32, window: U32, place: Valued.CirculatePlace)
    | CirculateRequest(parent: U32, window: U32, place: Valued.CirculatePlace)
    | PropertyNotify(window: U32, atom: U32, time: U32, propertyState: Valued.PropertyState)
    | SelectionClear(time: U32, owner: U32, selection: U32)
    | SelectionRequest(time: U32, owner: U32, requestor: U32, selection: U32, target: U32, property: U32)
    | SelectionNotify(time: U32, requestor: U32, selection: U32, target: U32, property: U32)
    | ColormapNotify(window: U32, colormap: U32, isNew: bool, colormapState: Valued.ColormapState)
    | ClientMessage(format: U8, window: U32, mtype: U32)
    | MappingNotify(request: Valued.MappingType, firstKeycode: U8, keyCount: U8)

  /**
   * The same-screen and focus flags packed into the last byte of an enter or
   * leave event: bit 1 same-screen, bit 2 focus; any byte other than 1, 2
   * or 3 reads as neither.
   */
  function SameScreenFocus(extra: U8): (r: (bool, bool))
    ensures 1 <= extra <= 3 ==> r == (extra % 2 == 1, extra / 2 == 1)
    ensures !(1 <= extra <= 3) ==> r == (false, false)
  {
    match extra
    case 1 => (true, false)
    case 2 => (false, true)
    case 3 => (true, true)
    case _ => (false, false)
  }

  // ---------------------------------------------------------------------------
  // Attribute values (LISTofVALUE) and their masks

  /** A window attribute of CreateWindow and ChangeWindowAttributes. */
  datatype WindowValue =
    | BackgroundPixmap(U32)
    | BackgroundPixel(U32)
    | BorderPixmap(U32)
    | BorderPixel(U32)
    | BitGravity(Valued.BitGravity)
    | WinGravity(Valued.WindowGravity)
    | BackingStore(Valued.WindowBackingStore)
    | BackingPlanes(U32)
    | BackingPixel(U32)
    | OverrideRedirect(bool)
    | SaveUnder(bool)
    | EventMask(U32)
    | DoNotPropagateMask(U32)
    | Colormap(U32)
    | Cursor(U32)
  {
    /** `get_mask`: the bit this attribute sets in the value mask. */
    function GetMask(): U32
    {
      match this
      case BackgroundPixmap(_) => 0x0000_0001
      case BackgroundPixel(_) => 0x0000_0002
      case BorderPixmap(_) => 0x0000_0004
      case BorderPixel(_) => 0x0000_0008
      case BitGravity(_) => 0x0000_0010
      case WinGravity(_) => 0x0000_0020
      case BackingStore(_) => 0x0000_0040
      case BackingPlanes(_) => 0x0000_0080
      case BackingPixel(_) => 0x0000_0100
      case OverrideRedirect(_) => 0x0000_0200
      case SaveUnder(_) => 0x0000_0400
      case EventMask(_) => 0x0000_0800
      case DoNotPropagateMask(_) => 0x0000_1000
      case Colormap(_) => 0x0000_2000
      case Cursor(_) => 0x0000_4000
    }

    /** The variant, as Rust's `discriminant` compares it: its place in the declaration. */
    function Kind(): nat {
      match this
      case BackgroundPixmap(_) => 0
      case BackgroundPixel(_) => 1
      case BorderPixmap(_) => 2
      case BorderPixel(_) => 3
      case BitGravity(_) => 4
      case WinGravity(_) => 5
      case BackingStore(_) => 6
      case BackingPlanes(_) => 7
      case BackingPixel(_) => 8
      case OverrideRedirect(_) => 9
      case SaveUnder(_) => 10
      case EventMask(_) => 11
      case DoNotPropagateMask(_) => 12
      case Colormap(_) => 13
      case Cursor(_) => 14
    }

    /** The u32 that `write` sends through write_val: the number, the code of an enumeration, 0 or 1. */
    function Word(): U32 {
      match this
      case BackgroundPixmap(v) => v
      case BackgroundPixel(v) => v
      case BorderPixmap(v) => v
      case BorderPixel(v) => v
      case BitGravity(g) => g.Val()
      case WinGravity(g) => g.Val()
      case BackingStore(s) => s.Val()
      case BackingPlanes(v) => v
      case BackingPixel(v) => v
      case OverrideRedirect(b) => BoolByte(b)
      case SaveUnder(b) => BoolByte(b)
      case EventMask(v) => v
      case DoNotPropagateMask(v) => v
      case Colormap(v) => v
      case Cursor(v) => v
    }
  }

  /** Two window attributes have the same mask exactly when they are the same variant. */
  lemma WindowMaskIsKind(a: WindowValue, b: WindowValue)
    ensures a.GetMask() == b.GetMask() <==> a.Kind() == b.Kind()
  {
  }

  /** A graphics-context component of CreateGC and ChangeGC. */
  datatype GraphicsContextValue =
    | Function(Valued.GCFunction)
    | PlaneMask(U32)
    | Foreground(U32)
    | Background(U32)
    | LineWidth(U16)
    | LineStyle(Valued.GCLineStyle)
    | CapStyle(Valued.GCCapStyle)
    | JoinStyle(Valued.GCJoinStyle)
    | FillStyle(Valued.GCFillStyle)
    | FillRule(Valued.GCFillRule)
    | Tile(U32)
    | Stipple(U32)
    | TileStippleXOrigin(U16)
    | TileStippleYOrigin(U16)
    | Font(U32)
    | SubWindowMode(Valued.GCSubWindowMode)
    | GraphicsExposures(bool)
    | ClipXOrigin(U16)
    | ClipYOrigin(U16)
    | ClipMask(U32)
    | DashOffset(U16)
    | Dashes(U8)
    | ArcMode(Valued.GCArcMode)
  {
    /** `get_mask`: the bit this component sets in the value mask. */
    function GetMask(): U32
    {
      match this
      case Function(_) => 0x0000_0001
      case PlaneMask(_) => 0x0000_0002
      case Foreground(_) => 0x0000_0004
      case Background(_) => 0x0000_0008
      case LineWidth(_) => 0x0000_0010
      case LineStyle(_) => 0x0000_0020
      case CapStyle(_) => 0x0000_0040
      case JoinStyle(_) => 0x0000_0080
      case FillStyle(_) => 0x0000_0100
      case FillRule(_) => 0x0000_0200
      case Tile(_) => 0x0000_0400
      case Stipple(_) => 0x0000_0800
      case TileStippleXOrigin(_) => 0x0000_1000
      case TileStippleYOrigin(_) => 0x0000_2000
      case Font(_) => 0x0000_4000
      case SubWindowMode(_) => 0x0000_8000
      case GraphicsExposures(_) => 0x0001_0000
      case ClipXOrigin(_) => 0x0002_0000
      case ClipYOrigin(_) => 0x0004_0000
      case ClipMask(_) => 0x0008_0000
      case DashOffset(_) => 0x0010_0000
      case Dashes(_) => 0x0020_0000
      case ArcMode(_) => 0x0040_0000
    }

    /** The variant, as Rust's `discriminant` compares it: its place in the declaration. */
    function Kind(): nat {
      match this
      case Function(_) => 0
      case PlaneMask(_) => 1
      case Foreground(_) => 2
      case Background(_) => 3
      case LineWidth(_) => 4
      case LineStyle(_) => 5
      case CapStyle(_) => 6
      case JoinStyle(_) => 7
      case FillStyle(_) => 8
      case FillRule(_) => 9
      case Tile(_) => 10
      case Stipple(_) => 11
      case TileStippleXOrigin(_) => 12
      case TileStippleYOrigin(_) => 13
      case Font(_) => 14
      case SubWindowMode(_) => 15
      case GraphicsExposures(_) => 16
      case ClipXOrigin(_) => 17
      case ClipYOrigin(_) => 18
      case ClipMask(_) => 19
      case DashOffset(_) => 20
      case Dashes(_) => 21
      case ArcMode(_) => 22
    }

    /** The u32 that `write` sends through write_val. */
    function Word(): U32 {
      match this
      case Function(f) => f.Val()
      case PlaneMask(v) => v
      case Foreground(v) => v
      case Background(v) => v
      case LineWidth(v) => v
      case LineStyle(s) => s.Val()
      case CapStyle(s) => s.Val()
      case JoinStyle(s) => s.Val()
      case FillStyle(s) => s.Val()
      case FillRule(s) => s.Val()
      case Tile(v) => v
      case Stipple(v) => v
      case TileStippleXOrigin(v) => v
      case TileStippleYOrigin(v) => v
      case Font(v) => v
      case SubWindowMode(m) => m.Val()
      case GraphicsExposures(b) => BoolByte(b)
      case ClipXOrigin(v) => v
      case ClipYOrigin(v) => v
      case ClipMask(v) => v
      case DashOffset(v) => v
      case Dashes(v) => v
      case ArcMode(m) => m.Val()
    }
  }

  /** Two graphics-context components have the same mask exactly when they are the same variant. */
  lemma GraphicsContextMaskIsKind(a: GraphicsContextValue, b: GraphicsContextValue)
    ensures a.GetMask() == b.GetMask() <==> a.Kind() == b.Kind()
  {
  }

  /**
   * A keyboard-control value of ChangeKeyboardControl. The key of `Key` is a
   * Rust char; it is modelled by the one byte that stands for it.
   */
  datatype KeyboardControlValue =
    | KeyClickPercent(U8)
    | BellPercent(U8)
    | BellPitch(I16)
    | BellDuration(I16)
    | Led(U8)
    | LedMode(Valued.KeyboardControlLedMode)
    | Key(U8)
    | AutoRepeatMode(Valued.KeyboardControlAutoRepeatMode)
  {
    /** `get_mask`; `Key` and `AutoRepeatMode` both give 0x0040. */
    function GetMask(): U32
    {
      match this
      case KeyClickPercent(_) => 0x0001
      case BellPercent(_) => 0x0002
      case BellPitch(_) => 0x0004
      case BellDuration(_) => 0x0008
      case Led(_) => 0x0010
      case LedMode(_) => 0x0020
      case Key(_) => 0x0040
      case AutoRepeatMode(_) => 0x0040
    }

    /** The bytes `write` sends: one byte, or two for the bell pitch and duration. */
    function Bytes(): (r: Bytes)
      ensures |r| == (if BellPitch? || BellDuration? then 2 else 1)
    {
      match this
      case KeyClickPercent(v) => [v]
      case BellPercent(v) => [v]
      case BellPitch(v) => Le16(TruncU16(v))
      case BellDuration(v) => Le16(TruncU16(v))
      case Led(v) => [v]
      case LedMode(m) => [m.Val()]
      case Key(c) => [c]
      case AutoRepeatMode(m) => [m.Val()]
    }
  }

  /** As written, two different keyboard-control variants share one mask bit. */
  lemma KeyboardControlMaskClash(c: U8, m: Valued.KeyboardControlAutoRepeatMode)
    ensures KeyboardControlValue.Key(c).GetMask() == KeyboardControlValue.AutoRepeatMode(m).GetMask()
    ensures KeyboardControlValue.Key(c) != KeyboardControlValue.AutoRepeatMode(m)
  {
  }

  /** The three implementations of the `Value` trait that `write_values` accepts. */
  datatype Value =
    | OfWindow(w: WindowValue)
    | OfGraphicsContext(g: GraphicsContextValue)
    | OfKeyboardControl(k: KeyboardControlValue)
  {
    function GetMask(): U32
    {
      match this
      case OfWindow(w) => w.GetMask()
      case OfGraphicsContext(g) => g.GetMask()
      case OfKeyboardControl(k) => k.GetMask()
    }

    /** The bytes the value's `write` appends. */
    function Bytes(): (r: Bytes)
      ensures !OfKeyboardControl? ==> |r| == 4
    {
      match this
      case OfWindow(w) => Le32(w.Word())
      case OfGraphicsContext(g) => Le32(g.Word())
      case OfKeyboardControl(k) => k.Bytes()
    }
  }

  /** Every window attribute sets exactly one bit of the value mask. */
  lemma WindowMaskSingleBit(v: WindowValue)
    ensures IsSingleBit(v.GetMask())
  {
  }

  /** Every graphics-context component sets exactly one bit of the value mask. */
  lemma GraphicsContextMaskSingleBit(v: GraphicsContextValue)
    ensures IsSingleBit(v.GetMask())
  {
  }

  /** Every keyboard-control value sets exactly one bit of the value mask. */
  lemma KeyboardControlMaskSingleBit(v: KeyboardControlValue)
    ensures IsSingleBit(v.GetMask())
  {
  }

  /** Every value `write_values` accepts sets exactly one bit of the value mask. */
  lemma ValueMaskSingleBit(v: Value)
    ensures IsSingleBit(v.GetMask())
  {
    match v
    case OfWindow(w) => WindowMaskSingleBit(w);
    case OfGraphicsContext(g) => GraphicsContextMaskSingleBit(g);
    case OfKeyboardControl(k) => KeyboardControlMaskSingleBit(k);
  }

  /** `values` as the window attributes `write_values` is given. */
  function WindowValues(values: seq<WindowValue>): (r: seq<Value>)
    ensures |r| == |values| && forall i :: 0 <= i < |r| ==> r[i] == OfWindow(values[i])
  {
    if values == [] then [] else WindowValues(values[..|values| - 1]) + [OfWindow(values[|values| - 1])]
  }

  /** `values` as the graphics-context components `write_values` is given. */
  function GraphicsContextValues(values: seq<GraphicsContextValue>): (r: seq<Value>)
    ensures |r| == |values| && forall i :: 0 <= i < |r| ==> r[i] == OfGraphicsContext(values[i])
  {
    if values == [] then [] else GraphicsContextValues(values[..|values| - 1]) + [OfGraphicsContext(values[|values| - 1])]
  }

  // ---------------------------------------------------------------------------
  // Colors

  datatype Color = Color(red: U16, green: U16, blue: U16)

  /** `Color::from_num`: bits 16-23 red, 8-15 green, 0-7 blue (`(n & 0xFF0000) >> 16` and so on). */
  function ColorFromNum(n: U32): (c: Color)
    ensures c.red <= 0xFF && c.green <= 0xFF && c.blue <= 0xFF
  {
    Color((n / 0x1_0000) % 0x100, (n / 0x100) % 0x100, n % 0x100)
  }

  /**
   * `Color::num`: `(red << 16) + (green << 8) + blue` on u32. The shifts
   * cannot lose bits of a u16 shifted by 16 or less. When the components are
   * wider than eight bits the sum can pass 2^32 - 1; the model then keeps the
   * low 32 bits, as a release build does.
   */
  function ColorNum(c: Color): (n: U32)
    ensures c.red <= 0xFF && c.green <= 0xFF && c.blue <= 0xFF ==> n == c.red * 0x1_0000 + c.green * 0x100 + c.blue
  {
    TruncU32(c.red * 0x1_0000 + c.green * 0x100 + c.blue)
  }

  /** Packing the unpacked color keeps the low 24 bits (`n & 0xFFFFFF`). */
  lemma {:induction false} ColorNumFromNum(n: U32)
    ensures ColorNum(ColorFromNum(n)) == n % 0x100_0000
  {
    var r, g, b := (n / 0x1_0000) % 0x100, (n / 0x100) % 0x100, n % 0x100;
    assert n / 0x1_0000 == n / 0x100 / 0x100 by { DivTwice(n, 0x100); }
    var q := n / 0x100;
    assert n == q * 0x100 + b;
    assert q == (q / 0x100) * 0x100 + g;
    assert n % 0x100_0000 == (q % 0x1_0000) * 0x100 + b by {
      assert n == (q / 0x1_0000) * 0x100_0000 + ((q % 0x1_0000) * 0x100 + b);
    }
    assert q % 0x1_0000 == r * 0x100 + g by {
      assert q == (q / 0x1_0000) * 0x1_0000 + q % 0x1_0000;
      assert q / 0x1_0000 == q / 0x100 / 0x100 by { DivTwice(q, 0x100); }
    }
  }

  /** Unpacking the packed color gives it back when every component fits in eight bits. */
  lemma ColorFromNumNum(c: Color)
    requires c.red <= 0xFF && c.green <= 0xFF && c.blue <= 0xFF
    ensures ColorFromNum(ColorNum(c)) == c
  {
    var n := ColorNum(c);
    assert n == c.blue + (c.green + c.red * 0x100) * 0x100;
    DigitSplit(c.blue, c.green + c.red * 0x100);
    DigitSplit(c.green, c.red);
    DivTwice(n, 0x100);
  }

  // ---------------------------------------------------------------------------
  // Structures sent inside requests

  datatype Point = Point(x: I16, y: I16)
  {
    /** The bytes `Point::write` sends. */
    function Bytes(): (r: Bytes)
      ensures |r| == 4 && I16At(r, 0) == x && I16At(r, 2) == y
    {
      I16Bytes(x) + I16Bytes(y)
    }
  }

  datatype Rectangle = Rectangle(x: I16, y: I16, width: U16, height: U16)
  {
    /** The bytes `Rectangle::write` sends. */
    function Bytes(): (r: Bytes)
      ensures |r| == 8
      ensures I16At(r, 0) == x && I16At(r, 2) == y && U16At(r, 4) == width && U16At(r, 6) == height
    {
      I16Bytes(x) + I16Bytes(y) + U16Bytes(width) + U16Bytes(height)
    }
  }

  datatype Arc = Arc(x: I16, y: I16, width: U16, height: U16, angle1: I16, angle2: I16)
  {
    /** The bytes `Arc::write` sends. */
    function Bytes(): (r: Bytes)
      ensures |r| == 12
      ensures I16At(r, 0) == x && I16At(r, 2) == y && U16At(r, 4) == width && U16At(r, 6) == height
      ensures I16At(r, 8) == angle1 && I16At(r, 10) == angle2
    {
      I16Bytes(x) + I16Bytes(y) + U16Bytes(width) + U16Bytes(height) + I16Bytes(angle1) + I16Bytes(angle2)
    }
  }

  datatype Segment = Segment(x1: I16, y1: I16, x2: I16, y2: I16)
  {
    /** The bytes `Segment::write` sends. */
    function Bytes(): (r: Bytes)
      ensures |r| == 8
      ensures I16At(r, 0) == x1 && I16At(r, 2) == y1 && I16At(r, 4) == x2 && I16At(r, 6) == y2
    {
      I16Bytes(x1) + I16Bytes(y1) + I16Bytes(x2) + I16Bytes(y2)
    }
  }

  /** The two bytes write_i16 sends for `v`: those of `v as u16`. */
  function I16Bytes(v: I16): (r: Bytes)
    ensures r == Le16(TruncU16(v)) && I16At(r, 0) == v
  {
    Le16RoundTrip(TruncU16(v));
    SignedRoundTrip16(v);
    Le16(TruncU16(v))
  }

  /** The two bytes write_u16 sends for `v`. */
  function U16Bytes(v: U16): (r: Bytes)
    ensures r == Le16(v) && U16At(r, 0) == v
  {
    Le16RoundTrip(v);
    Le16(v)
  }

  /** A read-back of a u16 or an i16 only looks at its own two bytes. */
  lemma At16Frame(s: Bytes, t: Bytes, k: nat)
    requires k + 2 <= |s|
    ensures U16At(s + t, k) == U16At(s, k) && I16At(s + t, k) == I16At(s, k)
  {
  }

  /** The four bytes of a font in a text item. */
  type FontBytes = s: Bytes | |s| == 4 witness [0, 0, 0, 0]

  /** The two `TextItem8` implementations of PolyText8. */
  datatype TextItem8 =
    | Text8(delta: I8, text: Bytes)
    | Font8(font: FontBytes)
  {
    /** The bytes `write` sends: the text length as u8, the delta, the text; or the font as is. */
    function Bytes(): Bytes {
      match this
      case Text8(delta, text) => [TruncU8(|text|)] + [TruncU8(delta)] + text
      case Font8(font) => font
    }

    /** `len`: the size of the item, which is what `write` sends. */
    function Len(): (r: nat)
      ensures r == |Bytes()|
    {
      match this
      case Text8(_, text) => 2 + |text|
      case Font8(_) => 4
    }
  }

  /** The two `TextItem16` implementations of PolyText16. */
  datatype TextItem16 =
    | Text16(delta: I8, text: seq<U16>)
    | Font16(font: FontBytes)
  {
    /** The bytes `write` sends: the text length as u8, the delta, a u16 per character; or 255 and the font. */
    function Bytes(): Bytes {
      match this
      case Text16(delta, text) => [TruncU8(|text|)] + [TruncU8(delta)] + Chars16(text)
      case Font16(font) => [255] + font
    }

    /** `len`: the size of the item, which is what `write` sends. */
    function Len(): (r: nat)
      ensures r == |Bytes()|
    {
      match this
      case Text16(_, text) => 2 + |text| * 2
      case Font16(_) => 5
    }
  }

  /** The characters of a 16-bit text, each as write_u16 sends it. */
  function Chars16(text: seq<U16>): (r: Bytes)
    ensures |r| == 2 * |text|
    ensures forall i :: 0 <= i < |text| ==> U16At(r, 2 * i) == text[i]
  {
    if text == [] then []
    else
      var init := Chars16(text[..|text| - 1]);
      var last := text[|text| - 1];
      Le16RoundTrip(last);
      forall i | 0 <= i < |text| - 1 ensures U16At(init + Le16(last), 2 * i) == text[i] {
        At16Frame(init, Le16(last), 2 * i);
      }
      init + Le16(last)
  }

  /** One character more. */
  lemma Chars16Snoc(text: seq<U16>, k: nat)
    requires k < |text|
    ensures Chars16(text[..k + 1]) == Chars16(text[..k]) + Le16(text[k])
  {
    assert text[..k + 1][..k] == text[..k];
  }

  /** One entry of StoreColors. */
  datatype ColorItem = ColorItem(pixel: U32, red: U16, green: U16, blue: U16, doRed: bool, doGreen: bool, doBlue: bool)
  {
    /** The flag byte: 0x01 for red, 0x02 for green, 0x04 for blue (an OR of distinct bits, so a sum). */
    function Flags(): (r: U8)
      ensures r < 8
      ensures (r % 2 == 1 <==> doRed) && ((r / 2) % 2 == 1 <==> doGreen) && (r / 4 == 1 <==> doBlue)
    {
      (if doRed then 0x01 else 0) + (if doGreen then 0x02 else 0) + (if doBlue then 0x04 else 0)
    }

    /**
     * The bytes `write` sends. The closing write_pad(1) sends the byte
     * write_u8 has just left in the one-byte scratch buffer, so the flag
     * byte goes out twice.
     */
    function Bytes(): (r: Bytes)
      ensures |r| == 12 && r[10] == Flags() && r[11] == Flags()
      ensures U32At(r, 0) == pixel && U16At(r, 4) == red && U16At(r, 6) == green && U16At(r, 8) == blue
    {
      Le32RoundTrip(pixel);
      Le16RoundTrip(red);
      Le16RoundTrip(green);
      Le16RoundTrip(blue);
      Le32(pixel) + Le16(red) + Le16(green) + Le16(blue) + [Flags()] + [Flags()]
    }
  }

  /** A pixmap: what CreatePixmap sends. */
  datatype Pixmap = Pixmap(depth: U8, pid: U32, drawable: U32, width: U16, height: U16)

  // ---------------------------------------------------------------------------
  // Replace-by-variant updates of an attribute list

  /** The index of the first element of `vs` of kind `k`, or `|vs|` when there is none. */
  function FirstOfKind<T>(vs: seq<T>, kind: T -> nat, k: nat): (r: nat)
    ensures r <= |vs|
    ensures r < |vs| ==> kind(vs[r]) == k
    ensures forall i :: 0 <= i < r ==> kind(vs[i]) != k
  {
    if vs == [] then 0
    else if kind(vs[0]) == k then 0
    else 1 + FirstOfKind(vs[1..], kind, k)
  }

  /**
   * The list `set` leaves: `v` replaces the first element of its own
   * variant, or is appended when there is none.
   */
  function Updated<T>(vs: seq<T>, v: T, kind: T -> nat): seq<T> {
    var p := FirstOfKind(vs, kind, kind(v));
    if p == |vs| then vs + [v] else vs[p := v]
  }

  /** What `set` promises about the list it leaves. */
  lemma UpdatedSpec<T>(vs: seq<T>, v: T, kind: T -> nat)
    ensures var r := Updated(vs, v, kind);
      v in r &&
      ((exists i :: 0 <= i < |vs| && kind(vs[i]) == kind(v)) <==> |r| == |vs|) &&
      (|r| == |vs| || |r| == |vs| + 1) &&
      (forall i :: 0 <= i < |vs| && kind(vs[i]) != kind(v) ==> r[i] == vs[i])
  {
    var p := FirstOfKind(vs, kind, kind(v));
    if p == |vs| {
      assert (vs + [v])[|vs|] == v;
    } else {
      assert vs[p := v][p] == v;
    }
  }

  /** Setting the same value twice is setting it once. */
  lemma UpdatedIdempotent<T>(vs: seq<T>, v: T, kind: T -> nat)
    ensures Updated(Updated(vs, v, kind), v, kind) == Updated(vs, v, kind)
  {
    var p := FirstOfKind(vs, kind, kind(v));
    var r := Updated(vs, v, kind);
    if p == |vs| {
      FirstOfKindAt(r, kind, kind(v), |vs|);
    } else {
      FirstOfKindAt(r, kind, kind(v), p);
    }
  }

  /** The first element of a kind is found where the kind first occurs. */
  lemma {:induction false} FirstOfKindAt<T>(vs: seq<T>, kind: T -> nat, k: nat, p: nat)
    requires p < |vs| && kind(vs[p]) == k
    requires forall i :: 0 <= i < p ==> kind(vs[i]) != k
    ensures FirstOfKind(vs, kind, k) == p
  {
    if p > 0 {
      FirstOfKindAt(vs[1..], kind, k, p - 1);
    }
  }

  /**
   * The search loop of `Window::set` and `GraphicsContext::set`: the index of
   * the first element with the same discriminant as `v`, else the length.
   */
  method FindSameVariant<T>(vs: seq<T>, v: T, kind: T -> nat) returns (newPos: nat)
    ensures newPos == FirstOfKind(vs, kind, kind(v))
  {
    newPos := |vs|;
    var i := 0;
    while i < |vs|
      invariant 0 <= i <= |vs|
      invariant forall j :: 0 <= j < i ==> kind(vs[j]) != kind(v)
    {
      if kind(vs[i]) == kind(v) {
        newPos := i;
        FirstOfKindAt(vs, kind, kind(v), i);
        return;
      }
      i := i + 1;
    }
    NoneOfKind(vs, kind, kind(v));
  }

  lemma {:induction false} NoneOfKind<T>(vs: seq<T>, kind: T -> nat, k: nat)
    requires forall j :: 0 <= j < |vs| ==> kind(vs[j]) != k
    ensures FirstOfKind(vs, kind, k) == |vs|
  {
    if vs != [] {
      NoneOfKind(vs[1..], kind, k);
    }
  }

  /** remove(p) then insert(p, v) leaves `v` at index p and everything else in place. */
  lemma RemoveInsert<T>(vs: seq<T>, p: nat, v: T)
    requires p < |vs|
    ensures var removed := vs[..p] + vs[p + 1..]; removed[..p] + [v] + removed[p..] == vs[p := v]
  {
    var removed := vs[..p] + vs[p + 1..];
    assert removed[..p] == vs[..p] && removed[p..] == vs[p + 1..];
  }

  function WindowKind(v: WindowValue): nat {
    v.Kind()
  }

  function GraphicsContextKind(v: GraphicsContextValue): nat {
    v.Kind()
  }

  /** A window as the client keeps it. */
  class Window {
    var depth: U8
    var wid: U32
    var parent: U32
    var x: I16
    var y: I16
    var width: U16
    var height: U16
    var borderWidth: U16
    var windowClass: Valued.WindowInputType
    var visualId: U32
    var values: seq<WindowValue>

    /** The struct literal a window is made with. */
    constructor (depth: U8, wid: U32, parent: U32, x: I16, y: I16, width: U16, height: U16,
                 borderWidth: U16, windowClass: Valued.WindowInputType, visualId: U32, values: seq<WindowValue>)
      ensures this.depth == depth && this.wid == wid && this.parent == parent
      ensures this.x == x && this.y == y && this.width == width && this.height == height
      ensures this.borderWidth == borderWidth && this.windowClass == windowClass && this.visualId == visualId
      ensures this.values == values
    {
      this.depth, this.wid, this.parent := depth, wid, parent;
      this.x, this.y, this.width, this.height := x, y, width, height;
      this.borderWidth, this.windowClass, this.visualId := borderWidth, windowClass, visualId;
      this.values := values;
    }

    /** `Window::change`: the attribute list is replaced as a whole. */
    method Change(values: seq<WindowValue>)
      modifies this
      ensures this.values == values
      ensures depth == old(depth) && wid == old(wid) && parent == old(parent) && x == old(x) && y == old(y)
      ensures width == old(width) && height == old(height) && borderWidth == old(borderWidth)
      ensures windowClass == old(windowClass) && visualId == old(visualId)
    {
      this.values := values;
    }

    /** `Window::set`: replace the attribute of the same variant in place, or append it. */
    method Set(value: WindowValue)
      modifies this
      ensures values == Updated(old(values), value, WindowKind)
      ensures depth == old(depth) && wid == old(wid) && parent == old(parent) && x == old(x) && y == old(y)
      ensures width == old(width) && height == old(height) && borderWidth == old(borderWidth)
      ensures windowClass == old(windowClass) && visualId == old(visualId)
    {
      var newPos := FindSameVariant(values, value, WindowKind);
      if newPos == |values| {
        values := values + [value];
      } else {
        RemoveInsert(values, newPos, value);
        values := values[..newPos] + values[newPos + 1..];
        values := values[..newPos] + [value] + values[newPos..];
      }
    }
  }

  /** A graphics context as the client keeps it. */
  class GraphicsContext {
    var gcid: U32
    var drawable: U32
    var values: seq<GraphicsContextValue>

    /** The struct literal a graphics context is made with. */
    constructor (gcid: U32, drawable: U32, values: seq<GraphicsContextValue>)
      ensures this.gcid == gcid && this.drawable == drawable && this.values == values
    {
      this.gcid, this.drawable, this.values := gcid, drawable, values;
    }

    /** `GraphicsContext::change`: the component list is replaced as a whole. */
    method Change(values: seq<GraphicsContextValue>)
      modifies this
      ensures this.values == values && gcid == old(gcid) && drawable == old(drawable)
    {
      this.values := values;
    }

    /** `GraphicsContext::set`: replace the component of the same variant in place, or append it. */
    method Set(value: GraphicsContextValue)
      modifies this
      ensures values == Updated(old(values), value, GraphicsContextKind)
      ensures gcid == old(gcid) && drawable == old(drawable)
    {
      var newPos := FindSameVariant(values, value, GraphicsContextKind);
      if newPos == |values| {
        values := values + [value];
      } else {
        RemoveInsert(values, newPos, value);
        values := values[..newPos] + values[newPos + 1..];
        values := values[..newPos] + [value] + values[newPos..];
      }
    }

    /** `set_bg_raw`: the background becomes the given pixel value. */
    method SetBackgroundRaw(color: U32)
      modifies this
      ensures values == Updated(old(values), Background(color), GraphicsContextKind)
      ensures gcid == old(gcid) && drawable == old(drawable)
    {
      Set(Background(color));
    }

    /** `set_bg`: the background becomes the packed color. */
    method SetBackground(color: Color)
      modifies this
      ensures values == Updated(old(values), Background(ColorNum(color)), GraphicsContextKind)
      ensures gcid == old(gcid) && drawable == old(drawable)
    {
      SetBackgroundRaw(ColorNum(color));
    }

    /** `set_fg_raw`: the foreground becomes the given pixel value. */
    method SetForegroundRaw(color: U32)
      modifies this
      ensures values == Updated(old(values), Foreground(color), GraphicsContextKind)
      ensures gcid == old(gcid) && drawable == old(drawable)
    {
      Set(Foreground(color));
    }

    /** `set_fg`: the foreground becomes the packed color. */
    method SetForeground(color: Color)
      modifies this
      ensures values == Updated(old(values), Foreground(ColorNum(color)), GraphicsContextKind)
      ensures gcid == old(gcid) && drawable == old(drawable)
    {
      SetForegroundRaw(ColorNum(color));
    }
  }
}
