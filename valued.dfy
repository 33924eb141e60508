/**
 * The enumerations of the Rust client's models (src/models.rs) that stand for
 * protocol codes: `val` gives the code a variant is sent as, `get` the variant
 * a received code stands for. Codes and bits are those of the X Window System
 * Protocol (X11R7.7), Appendix B "Protocol Encoding".
 */
module Valued {
  import opened Wire

  // ---------------------------------------------------------------------------
  // Decoding a mask into the variants whose bits it sets

  /** Whether `mask` has every bit of `b` set: the test `mask & b == b` of the decoders. */
  predicate HasBits(mask: U16, b: U16) {
    And16(mask, b) == b
  }

  /** The entries of `table` whose bit is set in `mask`, in their order in `table`. */
  function Selected<T>(table: seq<T>, mask: U16, bit: T -> U16): (r: seq<T>)
    ensures |r| <= |table|
  {
    if table == [] then []
    else
      var last := table[|table| - 1];
      Selected(table[..|table| - 1], mask, bit) + (if HasBits(mask, bit(last)) then [last] else [])
  }

  lemma {:induction false} SelectedMembers<T>(table: seq<T>, mask: U16, bit: T -> U16)
    ensures forall x :: x in Selected(table, mask, bit) <==> x in table && HasBits(mask, bit(x))
  {
    if table != [] {
      SelectedMembers(table[..|table| - 1], mask, bit);
      assert table == table[..|table| - 1] + [table[|table| - 1]];
    }
  }

  lemma {:induction false} SelectedMember<T>(table: seq<T>, mask: U16, bit: T -> U16, x: T)
    ensures x in Selected(table, mask, bit) <==> x in table && HasBits(mask, bit(x))
  {
    SelectedMembers(table, mask, bit);
  }

  lemma SelectedSnoc<T>(table: seq<T>, x: T, mask: U16, bit: T -> U16)
    ensures Selected(table + [x], mask, bit) == Selected(table, mask, bit) + (if HasBits(mask, bit(x)) then [x] else [])
  {
    assert (table + [x])[..|table|] == table;
  }

  /** `s` is strictly increasing in `key`. */
  ghost predicate Increasing<T>(s: seq<T>, key: T -> U16) {
    forall i, j :: 0 <= i < j < |s| ==> key(s[i]) < key(s[j])
  }

  lemma IncreasingAt<T>(s: seq<T>, key: T -> U16, i: int, j: int)
    requires Increasing(s, key) && 0 <= i < j < |s|
    ensures key(s[i]) < key(s[j])
  {
  }

  /** A sequence increasing from each element to the next is increasing. */
  lemma {:induction false} AdjacentIncreasing<T>(s: seq<T>, key: T -> U16)
    requires forall i :: 0 <= i < |s| - 1 ==> key(s[i]) < key(s[i + 1])
    ensures Increasing(s, key)
  {
    if |s| > 1 {
      AdjacentIncreasing(s[1..], key);
      forall i, j | 0 <= i < j < |s| ensures key(s[i]) < key(s[j]) {
        if i > 0 {
          assert s[i] == s[1..][i - 1] && s[j] == s[1..][j - 1];
        } else if j > 1 {
          assert s[j] == s[1..][j - 1] && s[1] == s[1..][0];
        }
      }
    }
  }

  /** Selecting entries keeps a strictly increasing order. */
  lemma {:induction false} SelectedIncreasing<T>(table: seq<T>, mask: U16, bit: T -> U16)
    requires Increasing(table, bit)
    ensures Increasing(Selected(table, mask, bit), bit)
  {
    if table != [] {
      var init := table[..|table| - 1];
      var last := table[|table| - 1];
      var f := Selected(init, mask, bit);
      SelectedIncreasing(init, mask, bit);
      forall i | 0 <= i < |f| ensures bit(f[i]) < bit(last) {
        var x := f[i];
        assert x in f;
        SelectedMember(init, mask, bit, x);
        var k :| 0 <= k < |init| && init[k] == x;
        assert table[k] == x;
      }
      if HasBits(mask, bit(last)) {
        var r := f + [last];
        forall i, j | 0 <= i < j < |r| ensures bit(r[i]) < bit(r[j]) {
          if j < |f| {
            assert r[i] == f[i] && r[j] == f[j];
          } else {
            assert r[i] == f[i] && r[j] == last;
          }
        }
      }
    }
  }

  /** Selecting from a table of every value in increasing order characterises the result. */
  lemma SelectedFromAll<T>(table: seq<T>, mask: U16, bit: T -> U16)
    requires forall x: T :: x in table
    requires Increasing(table, bit)
    ensures forall x: T :: x in Selected(table, mask, bit) <==> HasBits(mask, bit(x))
    ensures Increasing(Selected(table, mask, bit), bit)
  {
    SelectedMembers(table, mask, bit);
    SelectedIncreasing(table, mask, bit);
  }

  /** The OR of the bit patterns of the entries of `s`. */
  function OrOf<T>(s: seq<T>, pat: T -> bv16): bv16 {
    if s == [] then 0 else OrOf(s[..|s| - 1], pat) | pat(s[|s| - 1])
  }

  lemma OrOfSnoc<T>(s: seq<T>, x: T, pat: T -> bv16)
    ensures OrOf(s + [x], pat) == OrOf(s, pat) | pat(x)
  {
    assert (s + [x])[..|s|] == s;
  }

  /** The sixteen single bits of a 16-bit mask, lowest first. */
  const SingleBits: seq<bv16> := [0x1, 0x2, 0x4, 0x8, 0x10, 0x20, 0x40, 0x80, 0x100, 0x200, 0x400, 0x800, 0x1000, 0x2000, 0x4000, 0x8000]

  /** `LowBits[k]` has the lowest k bits set. */
  const LowBits: seq<bv16> := [0x0, 0x1, 0x3, 0x7, 0xF, 0x1F, 0x3F, 0x7F, 0xFF, 0x1FF, 0x3FF, 0x7FF, 0xFFF, 0x1FFF, 0x3FFF, 0x7FFF, 0xFFFF]

  /** Adding bit k to the lowest k bits gives the lowest k + 1 bits. */
  lemma LowBitsStep(k: nat)
    requires k < 16
    ensures LowBits[k] | SingleBits[k] == LowBits[k + 1]
  {
    assert k == 0 || k == 1 || k == 2 || k == 3 || k == 4 || k == 5 || k == 6 || k == 7 || k == 8 || k == 9 || k == 10 || k == 11 || k == 12 || k == 13 || k == 14 || k == 15;
  }

  /** A table whose k-th entry has bit k ORs together to its lowest bits. */
  lemma {:induction false} OrOfLowBits<T>(table: seq<T>, pat: T -> bv16)
    requires |table| <= 16
    requires forall k :: 0 <= k < |table| ==> pat(table[k]) == SingleBits[k]
    ensures OrOf(table, pat) == LowBits[|table|]
  {
    if table != [] {
      var n := |table| - 1;
      OrOfLowBits(table[..n], pat);
      LowBitsStep(n);
    }
  }

  /** Selecting one more entry ORs in its bit when the mask has it, and nothing otherwise. */
  lemma SelectedOrStep<T>(table: seq<T>, x: T, mask: U16, bit: T -> U16, pat: T -> bv16)
    requires IsSinglePattern(pat(x)) && bit(x) == pat(x) as int
    ensures OrOf(Selected(table + [x], mask, bit), pat) == OrOf(Selected(table, mask, bit), pat) | ((mask as bv16) & pat(x))
  {
    var sel := Selected(table, mask, bit);
    SelectedSnoc(table, x, mask, bit);
    HasBitsPattern(mask, bit(x), pat(x));
    if HasBits(mask, bit(x)) {
      OrOfSnoc(sel, x, pat);
    } else {
      assert sel + [] == sel;
    }
  }

  /** One induction step of `OrOfSelected`: appending an entry keeps the equation. */
  lemma OrOfSelectedSnoc<T>(init: seq<T>, last: T, mask: U16, bit: T -> U16, pat: T -> bv16)
    requires IsSinglePattern(pat(last)) && bit(last) == pat(last) as int
    requires OrOf(Selected(init, mask, bit), pat) == (mask as bv16) & OrOf(init, pat)
    ensures OrOf(Selected(init + [last], mask, bit), pat) == (mask as bv16) & OrOf(init + [last], pat)
  {
    var m, t, p := mask as bv16, OrOf(init, pat), pat(last);
    SelectedOrStep(init, last, mask, bit, pat);
    OrOfSnoc(init, last, pat);
    Bv16AndOverOr(m, t, p);
  }

  /** Every entry of `table` has a single bit, given both as a `U16` and as a 16-bit pattern. */
  predicate SinglePatterns<T>(table: seq<T>, bit: T -> U16, pat: T -> bv16)
  {
    table == [] ||
    (SinglePatterns(table[..|table| - 1], bit, pat) &&
     IsSinglePattern(pat(table[|table| - 1])) && bit(table[|table| - 1]) == pat(table[|table| - 1]) as int)
  }

  lemma {:induction false} SinglePatternsFromAll<T>(table: seq<T>, bit: T -> U16, pat: T -> bv16)
    requires forall x :: x in table ==> IsSinglePattern(pat(x)) && bit(x) == pat(x) as int
    ensures SinglePatterns(table, bit, pat)
  {
    if table != [] {
      var init := table[..|table| - 1];
      assert forall x :: x in init ==> x in table;
      SinglePatternsFromAll(init, bit, pat);
    }
  }

  /**
   * When every entry of `table` has a single bit, the bits of the entries
   * selected by `mask` OR together to `mask` restricted to the table's bits.
   */
  lemma {:induction false} OrOfSelected<T>(table: seq<T>, mask: U16, bit: T -> U16, pat: T -> bv16)
    requires SinglePatterns(table, bit, pat)
    ensures OrOf(Selected(table, mask, bit), pat) == (mask as bv16) & OrOf(table, pat)
  {
    if table != [] {
      var init := table[..|table| - 1];
      var last := table[|table| - 1];
      assert table == init + [last];
      OrOfSelected(init, mask, bit, pat);
      OrOfSelectedSnoc(init, last, mask, bit, pat);
    }
  }

  /** The mask test of the decoders, on a single bit given also as a 16-bit pattern. */
  lemma HasBitsPattern(mask: U16, b: U16, p: bv16)
    requires IsSinglePattern(p) && b == p as int
    ensures HasBits(mask, b) <==> (mask as bv16) & p == p
    ensures !HasBits(mask, b) <==> (mask as bv16) & p == 0
  {
    And16Pattern(mask, p);
  }

  /**
   * The body shared by the `get(mask)` decoders: test the bit of each entry of
   * `table` in turn (`mask & bit == bit`) and push the entries whose bit is set.
   */
  method DecodeMask<T>(table: seq<T>, mask: U16, bit: T -> U16) returns (v: seq<T>)
    ensures v == Selected(table, mask, bit)
    ensures forall x :: x in v <==> x in table && HasBits(mask, bit(x))
    ensures Increasing(table, bit) ==> Increasing(v, bit)
  {
    v := [];
    for i := 0 to |table|
      invariant v == Selected(table[..i], mask, bit)
    {
      assert table[..i + 1] == table[..i] + [table[i]];
      SelectedSnoc(table[..i], table[i], mask, bit);
      if And16(mask, bit(table[i])) == bit(table[i]) {
        v := v + [table[i]];
      }
    }
    assert table[..|table|] == table;
    SelectedMembers(table, mask, bit);
    if Increasing(table, bit) {
      SelectedIncreasing(table, mask, bit);
    }
  }

  // ---------------------------------------------------------------------------
  // The enumerations, in the order of src/models.rs

  /** BitOrder: bitmap-format-bit-order of the setup reply. */
  datatype BitOrder =
    | LeastSignificant
    | MostSignificant
  {
    /** The code `BitOrder::val` sends. */
    function Val(): U32
    {
      match this
      case LeastSignificant => 0
      case MostSignificant => 1
    }
  }

  lemma BitOrderValInjective(a: BitOrder, b: BitOrder)
    ensures a.Val() == b.Val() ==> a == b
  {
  }

  /** ByteOrder: image-byte-order of the setup reply. */
  datatype ByteOrder =
    | LSBFirst
    | MSBFirst
  {
    /** The code `ByteOrder::val` sends. */
    function Val(): U32
    {
      match this
      case LSBFirst => 0
      case MSBFirst => 1
    }
  }

  lemma ByteOrderValInjective(a: ByteOrder, b: ByteOrder)
    ensures a.Val() == b.Val() ==> a == b
  {
  }

  /** Event: the SETofEVENT bits of an event mask. */
  datatype Event =
    | KeyPress
    | KeyRelease
    | ButtonPress
    | ButtonRelease
    | EnterWindow
    | LeaveWindow
    | PointerMotion
    | PointerMotionHint
    | Button1Motion
    | Button2Motion
    | Button3Motion
    | Button4Motion
    | Button5Motion
    | ButtonMotion
    | KeymapState
    | Exposure
    | VisibilityChange
    | StructureNotify
    | ResizeRedirect
    | SubstructureNotify
    | SubstructureRedirect
    | FocusChange
    | PropertyChange
    | ColormapChange
    | OwnerGrabButton
  {
    /** The code `Event::val` sends. */
    function Val(): (r: U32)
      ensures IsSingleBit(r)
    {
      match this
      case KeyPress => 0x0001
      case KeyRelease => 0x0002
      case ButtonPress => 0x0004
      case ButtonRelease => 0x0008
      case EnterWindow => 0x0010
      case LeaveWindow => 0x0020
      case PointerMotion => 0x0040
      case PointerMotionHint => 0x0080
      case Button1Motion => 0x0100
      case Button2Motion => 0x0200
      case Button3Motion => 0x0400
      case Button4Motion => 0x0800
      case Button5Motion => 0x1000
      case ButtonMotion => 0x2000
      case KeymapState => 0x4000
      case Exposure => 0x8000
      case VisibilityChange => 0x00010000
      case StructureNotify => 0x00020000
      case ResizeRedirect => 0x00040000
      case SubstructureNotify => 0x00080000
      case SubstructureRedirect => 0x00100000
      case FocusChange => 0x00200000
      case PropertyChange => 0x00400000
      case ColormapChange => 0x00800000
      case OwnerGrabButton => 0x01000000
    }
  }

  lemma EventValInjective(a: Event, b: Event)
    ensures a.Val() == b.Val() ==> a == b
  {
  }

  /** PointerEvent: the SETofPOINTEREVENT bits. */
  datatype PointerEvent =
    | ButtonPress
    | ButtonRelease
    | EnterWindow
    | LeaveWindow
    | PointerMotion
    | PointerMotionHint
    | Button1Motion
    | Button2Motion
    | Button3Motion
    | Button4Motion
    | Button5Motion
    | ButtonMotion
    | KeymapState
  {
    /** The code `PointerEvent::val` sends. */
    function Val(): (r: U16)
      ensures IsSingleBit(r)
    {
      match this
      case ButtonPress => 0x0004
      case ButtonRelease => 0x0008
      case EnterWindow => 0x0010
      case LeaveWindow => 0x0020
      case PointerMotion => 0x0040
      case PointerMotionHint => 0x0080
      case Button1Motion => 0x0100
      case Button2Motion => 0x0200
      case Button3Motion => 0x0400
      case Button4Motion => 0x0800
      case Button5Motion => 0x1000
      case ButtonMotion => 0x2000
      case KeymapState => 0x4000
    }
  }

  lemma PointerEventValInjective(a: PointerEvent, b: PointerEvent)
    ensures a.Val() == b.Val() ==> a == b
  {
  }

  /** DeviceEvent: the SETofDEVICEEVENT bits. */
  datatype DeviceEvent =
    | KeyPress
    | KeyRelease
    | ButtonPress
    | ButtonRelease
    | PointerMotion
    | Button1Motion
    | Button2Motion
    | Button3Motion
    | Button4Motion
    | Button5Motion
    | ButtonMotion
  {
    /** The code `DeviceEvent::val` sends. */
    function Val(): (r: U16)
      ensures IsSingleBit(r)
    {
      match this
      case KeyPress => 0x0001
      case KeyRelease => 0x0002
      case ButtonPress => 0x0004
      case ButtonRelease => 0x0008
      case PointerMotion => 0x0040
      case Button1Motion => 0x0100
      case Button2Motion => 0x0200
      case Button3Motion => 0x0400
      case Button4Motion => 0x0800
      case Button5Motion => 0x1000
      case ButtonMotion => 0x2000
    }
  }

  lemma DeviceEventValInjective(a: DeviceEvent, b: DeviceEvent)
    ensures a.Val() == b.Val() ==> a == b
  {
  }

  /** KeyButton: the SETofKEYBUTMASK bits of a pointer or key event state. */
  datatype KeyButton =
    | Shift
    | Lock
    | Control
    | Mod1
    | Mod2
    | Mod3
    | Mod4
    | Mod5
    | Button1
    | Button2
    | Button3
    | Button4
    | Button5
  {
    /** The code `KeyButton::val` sends. */
    function Val(): (r: U16)
      ensures IsSingleBit(r)
    {
      match this
      case Shift => 0x0001
      case Lock => 0x0002
      case Control => 0x0004
      case Mod1 => 0x0008
      case Mod2 => 0x0010
      case Mod3 => 0x0020
      case Mod4 => 0x0040
      case Mod5 => 0x0080
      case Button1 => 0x0100
      case Button2 => 0x0200
      case Button3 => 0x0400
      case Button4 => 0x0800
      case Button5 => 0x1000
    }

    /** Every variant, in the order `get` tests their bits. */
    static const All: seq<KeyButton> := [KeyButton.Shift, KeyButton.Lock, KeyButton.Control, KeyButton.Mod1, KeyButton.Mod2, KeyButton.Mod3, KeyButton.Mod4, KeyButton.Mod5, KeyButton.Button1, KeyButton.Button2, KeyButton.Button3, KeyButton.Button4, KeyButton.Button5]

    /** `Val` as a function value. */
    static function Bit(k: KeyButton): U16 {
      k.Val()
    }

    static lemma AllMembers()
      ensures forall k: KeyButton :: k in All
    {
      forall k: KeyButton ensures k in All {
        match k
        case Shift => assert All[0] == k;
        case Lock => assert All[1] == k;
        case Control => assert All[2] == k;
        case Mod1 => assert All[3] == k;
        case Mod2 => assert All[4] == k;
        case Mod3 => assert All[5] == k;
        case Mod4 => assert All[6] == k;
        case Mod5 => assert All[7] == k;
        case Button1 => assert All[8] == k;
        case Button2 => assert All[9] == k;
        case Button3 => assert All[10] == k;
        case Button4 => assert All[11] == k;
        case Button5 => assert All[12] == k;
      }
    }

    static lemma AllIncreasing()
      ensures Increasing(All, Bit)
    {
      forall i | 0 <= i < |All| - 1 ensures Bit(All[i]) < Bit(All[i + 1]) {
        assert i == 0 || i == 1 || i == 2 || i == 3 || i == 4 || i == 5 || i == 6 || i == 7 || i == 8 || i == 9 || i == 10 || i == 11;
      }
      AdjacentIncreasing(All, Bit);
    }

    /** What `KeyButton::get` returns for `mask`: the variants whose bit is set, in the order of their bits. */
    static function Decoded(mask: U16): seq<KeyButton> {
      Selected(All, mask, Bit)
    }

    static lemma DecodedSpec(mask: U16)
      ensures forall k: KeyButton :: k in Decoded(mask) <==> And16(mask, k.Val()) == k.Val()
      ensures forall i, j :: 0 <= i < j < |Decoded(mask)| ==> Decoded(mask)[i].Val() < Decoded(mask)[j].Val()
    {
      AllMembers();
      AllIncreasing();
      SelectedFromAll(All, mask, Bit);
      var v := Decoded(mask);
      forall i, j | 0 <= i < j < |v| ensures v[i].Val() < v[j].Val() {
        IncreasingAt(v, Bit, i, j);
      }
    }

    /** The bit `val` sends, as a 16-bit pattern. */
    static function Pattern(k: KeyButton): (p: bv16)
      ensures IsSinglePattern(p) && p as int == k.Val()
    {
      match k
      case Shift => 0x0001
      case Lock => 0x0002
      case Control => 0x0004
      case Mod1 => 0x0008
      case Mod2 => 0x0010
      case Mod3 => 0x0020
      case Mod4 => 0x0040
      case Mod5 => 0x0080
      case Button1 => 0x0100
      case Button2 => 0x0200
      case Button3 => 0x0400
      case Button4 => 0x0800
      case Button5 => 0x1000
    }

    /** The bits of all the variants OR together to 0x1FFF. */
    static lemma AllBits()
      ensures OrOf(All, Pattern) == 0x1FFF
    {
      assert Pattern(All[0]) == SingleBits[0];
      assert Pattern(All[1]) == SingleBits[1];
      assert Pattern(All[2]) == SingleBits[2];
      assert Pattern(All[3]) == SingleBits[3];
      assert Pattern(All[4]) == SingleBits[4];
      assert Pattern(All[5]) == SingleBits[5];
      assert Pattern(All[6]) == SingleBits[6];
      assert Pattern(All[7]) == SingleBits[7];
      assert Pattern(All[8]) == SingleBits[8];
      assert Pattern(All[9]) == SingleBits[9];
      assert Pattern(All[10]) == SingleBits[10];
      assert Pattern(All[11]) == SingleBits[11];
      assert Pattern(All[12]) == SingleBits[12];
      forall k | 0 <= k < |All| ensures Pattern(All[k]) == SingleBits[k] {
        assert k == 0 || k == 1 || k == 2 || k == 3 || k == 4 || k == 5 || k == 6 || k == 7 || k == 8 || k == 9 || k == 10 || k == 11 || k == 12;
      }
      OrOfLowBits(All, Pattern);
    }

    /** The bits of the variants `get` returns OR together to `mask & 0x1FFF`. */
    static lemma DecodedBits(mask: U16)
      ensures OrOf(Decoded(mask), Pattern) == (mask as bv16) & 0x1FFF
    {
      AllBits();
      SinglePatternsFromAll(All, Bit, Pattern);
      OrOfSelected(All, mask, Bit, Pattern);
    }

    /** `KeyButton::get`: tests each bit in turn and pushes the variants whose bit is set. */
    static method Get(mask: U16) returns (v: seq<KeyButton>)
      ensures v == Decoded(mask)
      ensures forall k: KeyButton :: k in v <==> And16(mask, k.Val()) == k.Val()
      ensures forall i, j :: 0 <= i < j < |v| ==> v[i].Val() < v[j].Val()
      ensures OrOf(v, Pattern) == (mask as bv16) & 0x1FFF
    {
      v := DecodeMask(All, mask, Bit);
      DecodedSpec(mask);
      DecodedBits(mask);
    }
  }

  lemma KeyButtonValInjective(a: KeyButton, b: KeyButton)
    ensures a.Val() == b.Val() ==> a == b
  {
  }

  /** Key: the SETofKEYMASK bits. */
  datatype Key =
    | Shift
    | Lock
    | Control
    | Mod1
    | Mod2
    | Mod3
    | Mod4
    | Mod5
  {
    /** The code `Key::val` sends. */
    function Val(): (r: U16)
      ensures IsSingleBit(r)
    {
      match this
      case Shift => 0x0001
      case Lock => 0x0002
      case Control => 0x0004
      case Mod1 => 0x0008
      case Mod2 => 0x0010
      case Mod3 => 0x0020
      case Mod4 => 0x0040
      case Mod5 => 0x0080
    }

    /** Every variant, in the order `get` tests their bits. */
    static const All: seq<Key> := [Key.Shift, Key.Lock, Key.Control, Key.Mod1, Key.Mod2, Key.Mod3, Key.Mod4, Key.Mod5]

    /** `Val` as a function value. */
    static function Bit(k: Key): U16 {
      k.Val()
    }

    static lemma AllMembers()
      ensures forall k: Key :: k in All
    {
      forall k: Key ensures k in All {
        match k
        case Shift => assert All[0] == k;
        case Lock => assert All[1] == k;
        case Control => assert All[2] == k;
        case Mod1 => assert All[3] == k;
        case Mod2 => assert All[4] == k;
        case Mod3 => assert All[5] == k;
        case Mod4 => assert All[6] == k;
        case Mod5 => assert All[7] == k;
      }
    }

    static lemma AllIncreasing()
      ensures Increasing(All, Bit)
    {
      forall i | 0 <= i < |All| - 1 ensures Bit(All[i]) < Bit(All[i + 1]) {
        assert i == 0 || i == 1 || i == 2 || i == 3 || i == 4 || i == 5 || i == 6;
      }
      AdjacentIncreasing(All, Bit);
    }

    /** What `Key::get` returns for `mask`: the variants whose bit is set, in the order of their bits. */
    static function Decoded(mask: U16): seq<Key> {
      Selected(All, mask, Bit)
    }

    static lemma DecodedSpec(mask: U16)
      ensures forall k: Key :: k in Decoded(mask) <==> And16(mask, k.Val()) == k.Val()
      ensures forall i, j :: 0 <= i < j < |Decoded(mask)| ==> Decoded(mask)[i].Val() < Decoded(mask)[j].Val()
    {
      AllMembers();
      AllIncreasing();
      SelectedFromAll(All, mask, Bit);
      var v := Decoded(mask);
      forall i, j | 0 <= i < j < |v| ensures v[i].Val() < v[j].Val() {
        IncreasingAt(v, Bit, i, j);
      }
    }

    /** The bit `val` sends, as a 16-bit pattern. */
    static function Pattern(k: Key): (p: bv16)
      ensures IsSinglePattern(p) && p as int == k.Val()
    {
      match k
      case Shift => 0x0001
      case Lock => 0x0002
      case Control => 0x0004
      case Mod1 => 0x0008
      case Mod2 => 0x0010
      case Mod3 => 0x0020
      case Mod4 => 0x0040
      case Mod5 => 0x0080
    }

    /** The bits of all the variants OR together to 0xFF. */
    static lemma AllBits()
      ensures OrOf(All, Pattern) == 0xFF
    {
      assert Pattern(All[0]) == SingleBits[0];
      assert Pattern(All[1]) == SingleBits[1];
      assert Pattern(All[2]) == SingleBits[2];
      assert Pattern(All[3]) == SingleBits[3];
      assert Pattern(All[4]) == SingleBits[4];
      assert Pattern(All[5]) == SingleBits[5];
      assert Pattern(All[6]) == SingleBits[6];
      assert Pattern(All[7]) == SingleBits[7];
      forall k | 0 <= k < |All| ensures Pattern(All[k]) == SingleBits[k] {
        assert k == 0 || k == 1 || k == 2 || k == 3 || k == 4 || k == 5 || k == 6 || k == 7;
      }
      OrOfLowBits(All, Pattern);
    }

    /** The bits of the variants `get` returns OR together to `mask & 0xFF`. */
    static lemma DecodedBits(mask: U16)
      ensures OrOf(Decoded(mask), Pattern) == (mask as bv16) & 0xFF
    {
      AllBits();
      SinglePatternsFromAll(All, Bit, Pattern);
      OrOfSelected(All, mask, Bit, Pattern);
    }

    /** `Key::get`: tests each bit in turn and pushes the variants whose bit is set. */
    static method Get(mask: U16) returns (v: seq<Key>)
      ensures v == Decoded(mask)
      ensures forall k: Key :: k in v <==> And16(mask, k.Val()) == k.Val()
      ensures forall i, j :: 0 <= i < j < |v| ==> v[i].Val() < v[j].Val()
      ensures OrOf(v, Pattern) == (mask as bv16) & 0xFF
    {
      v := DecodeMask(All, mask, Bit);
      DecodedSpec(mask);
      DecodedBits(mask);
    }
  }

  lemma KeyValInjective(a: Key, b: Key)
    ensures a.Val() == b.Val() ==> a == b
  {
  }

  /** ScreenBackingStores: the backing-stores field of a SCREEN. */
  datatype ScreenBackingStores =
    | Never
    | WhenMapped
    | Always
  {
    /** The code `ScreenBackingStores::val` sends. */
    function Val(): U32
    {
      match this
      case Never => 0
      case WhenMapped => 1
      case Always => 2
    }
  }

  lemma ScreenBackingStoresValInjective(a: ScreenBackingStores, b: ScreenBackingStores)
    ensures a.Val() == b.Val() ==> a == b
  {
  }

  /** VisualType: the class of a VISUALTYPE. */
  datatype VisualType =
    | StaticGray
    | GrayScale
    | StaticColor
    | PseudoColor
    | TrueColor
    | DirectColor
  {
    /** The code `VisualType::val` sends. */
    function Val(): U32
    {
      match this
      case StaticGray => 0
      case GrayScale => 1
      case StaticColor => 2
      case PseudoColor => 3
      case TrueColor => 4
      case DirectColor => 5
    }
  }

  lemma VisualTypeValInjective(a: VisualType, b: VisualType)
    ensures a.Val() == b.Val() ==> a == b
  {
  }

  /** WindowInputType: the class of a window (CreateWindow). */
  datatype WindowInputType =
    | CopyFromParent
    | InputOutput
    | InputOnly
  {
    /** The code `WindowInputType::val` sends. */
    function Val(): U32
    {
      match this
      case CopyFromParent => 0
      case InputOutput => 1
      case InputOnly => 2
    }

    /** `WindowInputType::get`: the value a code stands for; None for a code outside the table. */
    static function Get(id: U16): (r: Option<WindowInputType>)
      ensures r.Some? <==> id <= 2
      ensures r.Some? ==> r.value.Val() == id
    {
      match id
      case 0 => Some(WindowInputType.CopyFromParent)
      case 1 => Some(WindowInputType.InputOutput)
      case 2 => Some(WindowInputType.InputOnly)
      case _ => Option.None
    }
  }

  lemma WindowInputTypeRoundTrip(x: WindowInputType)
    ensures WindowInputType.Get(x.Val()) == Some(x)
  {
  }

  /** WindowBackingStore: the backing-store window attribute. */
  datatype WindowBackingStore =
    | NotUseful
    | WhenMapped
    | Always
  {
    /** The code `WindowBackingStore::val` sends. */
    function Val(): U32
    {
      match this
      case NotUseful => 0
      case WhenMapped => 1
      case Always => 2
    }

    /** `WindowBackingStore::get`: the value a code stands for; None for a code outside the table. */
    static function Get(id: U8): (r: Option<WindowBackingStore>)
      ensures r.Some? <==> id <= 2
      ensures r.Some? ==> r.value.Val() == id
    {
      match id
      case 0 => Some(WindowBackingStore.NotUseful)
      case 1 => Some(WindowBackingStore.WhenMapped)
      case 2 => Some(WindowBackingStore.Always)
      case _ => Option.None
    }
  }

  lemma WindowBackingStoreRoundTrip(x: WindowBackingStore)
    ensures WindowBackingStore.Get(x.Val()) == Some(x)
  {
  }

  /** BitGravity: the BITGRAVITY codes. */
  datatype BitGravity =
    | Forget
    | Static
    | NorthWest
    | North
    | NorthEast
    | West
    | Center
    | East
    | SouthWest
    | South
    | SouthEast
  {
    /** The code `BitGravity::val` sends. */
    function Val(): U32
    {
      match this
      case Forget => 0
      case Static => 1
      case NorthWest => 2
      case North => 3
      case NorthEast => 4
      case West => 5
      case Center => 6
      case East => 7
      case SouthWest => 8
      case South => 9
      case SouthEast => 10
    }

    /** `BitGravity::get`: the value a code stands for; None for a code outside the table. */
    static function Get(id: U8): (r: Option<BitGravity>)
      ensures r.Some? <==> id <= 10
      ensures r.Some? ==> r.value.Val() == id
    {
      match id
      case 0 => Some(BitGravity.Forget)
      case 1 => Some(BitGravity.Static)
      case 2 => Some(BitGravity.NorthWest)
      case 3 => Some(BitGravity.North)
      case 4 => Some(BitGravity.NorthEast)
      case 5 => Some(BitGravity.West)
      case 6 => Some(BitGravity.Center)
      case 7 => Some(BitGravity.East)
      case 8 => Some(BitGravity.SouthWest)
      case 9 => Some(BitGravity.South)
      case 10 => Some(BitGravity.SouthEast)
      case _ => Option.None
    }
  }

  lemma BitGravityRoundTrip(x: BitGravity)
    ensures BitGravity.Get(x.Val()) == Some(x)
  {
  }

  /** WindowGravity: the WINGRAVITY codes. */
  datatype WindowGravity =
    | Unmap
    | Static
    | NorthWest
    | North
    | NorthEast
    | West
    | Center
    | East
    | SouthWest
    | South
    | SouthEast
  {
    /** The code `WindowGravity::val` sends. */
    function Val(): U32
    {
      match this
      case Unmap => 0
      case Static => 1
      case NorthWest => 2
      case North => 3
      case NorthEast => 4
      case West => 5
      case Center => 6
      case East => 7
      case SouthWest => 8
      case South => 9
      case SouthEast => 10
    }

    /** `WindowGravity::get`: the value a code stands for; None for a code outside the table. */
    static function Get(id: U8): (r: Option<WindowGravity>)
      ensures r.Some? <==> id <= 10
      ensures r.Some? ==> r.value.Val() == id
    {
      match id
      case 0 => Some(WindowGravity.Unmap)
      case 1 => Some(WindowGravity.Static)
      case 2 => Some(WindowGravity.NorthWest)
      case 3 => Some(WindowGravity.North)
      case 4 => Some(WindowGravity.NorthEast)
      case 5 => Some(WindowGravity.West)
      case 6 => Some(WindowGravity.Center)
      case 7 => Some(WindowGravity.East)
      case 8 => Some(WindowGravity.SouthWest)
      case 9 => Some(WindowGravity.South)
      case 10 => Some(WindowGravity.SouthEast)
      case _ => Option.None
    }
  }

  lemma WindowGravityRoundTrip(x: WindowGravity)
    ensures WindowGravity.Get(x.Val()) == Some(x)
  {
  }

  /** MapState: the map-state of a GetWindowAttributes reply. */
  datatype MapState =
    | Unmapped
    | Unviewable
    | Viewable
  {
    /** `MapState::get`: the value a code stands for; None for a code outside the table. */
    static function Get(id: U8): (r: Option<MapState>)
      ensures r.Some? <==> id <= 2
    {
      match id
      case 0 => Some(MapState.Unmapped)
      case 1 => Some(MapState.Unviewable)
      case 2 => Some(MapState.Viewable)
      case _ => Option.None
    }
  }

  lemma MapStateGetInjective(m: U8, n: U8)
    ensures MapState.Get(m).Some? && MapState.Get(m) == MapState.Get(n) ==> m == n
  {
  }

  /** FontDrawDirection: the draw-direction of a font. */
  datatype FontDrawDirection =
    | LeftToRight
    | RightToLeft
  {
    /** `FontDrawDirection::get`: the value a code stands for; None for a code outside the table. */
    static function Get(id: U8): (r: Option<FontDrawDirection>)
      ensures r.Some? <==> id <= 1
    {
      match id
      case 0 => Some(FontDrawDirection.LeftToRight)
      case 1 => Some(FontDrawDirection.RightToLeft)
      case _ => Option.None
    }
  }

  lemma FontDrawDirectionGetInjective(m: U8, n: U8)
    ensures FontDrawDirection.Get(m).Some? && FontDrawDirection.Get(m) == FontDrawDirection.Get(n) ==> m == n
  {
  }

  /** GCFunction: the function component of a graphics context. */
  datatype GCFunction =
    | Clear
    | And
    | AndReverse
    | Copy
    | AndInverted
    | NoOp
    | Xor
    | Or
    | Nor
    | Equiv
    | Invert
    | OrReverse
    | CopyInverted
    | OrInverted
    | Nand
    | Set
  {
    /** The code `GCFunction::val` sends. */
    function Val(): U32
    {
      match this
      case Clear => 0
      case And => 1
      case AndReverse => 2
      case Copy => 3
      case AndInverted => 4
      case NoOp => 5
      case Xor => 6
      case Or => 7
      case Nor => 8
      case Equiv => 9
      case Invert => 10
      case OrReverse => 11
      case CopyInverted => 12
      case OrInverted => 13
      case Nand => 14
      case Set => 15
    }
  }

  lemma GCFunctionValInjective(a: GCFunction, b: GCFunction)
    ensures a.Val() == b.Val() ==> a == b
  {
  }

  /** GCLineStyle: the line-style component of a graphics context. */
  datatype GCLineStyle =
    | Solid
    | OnOffDash
    | DoubleDash
  {
    /** The code `GCLineStyle::val` sends. */
    function Val(): U32
    {
      match this
      case Solid => 0
      case OnOffDash => 1
      case DoubleDash => 2
    }
  }

  lemma GCLineStyleValInjective(a: GCLineStyle, b: GCLineStyle)
    ensures a.Val() == b.Val() ==> a == b
  {
  }

  /** GCCapStyle: the cap-style component of a graphics context. */
  datatype GCCapStyle =
    | NotLast
    | Butt
    | Round
    | Projecting
  {
    /** The code `GCCapStyle::val` sends. */
    function Val(): U32
    {
      match this
      case NotLast => 0
      case Butt => 1
      case Round => 2
      case Projecting => 3
    }
  }

  lemma GCCapStyleValInjective(a: GCCapStyle, b: GCCapStyle)
    ensures a.Val() == b.Val() ==> a == b
  {
  }

  /** GCJoinStyle: the join-style component of a graphics context. */
  datatype GCJoinStyle =
    | Miter
    | Round
    | Bevel
  {
    /** The code `GCJoinStyle::val` sends. */
    function Val(): U32
    {
      match this
      case Miter => 0
      case Round => 1
      case Bevel => 2
    }
  }

  lemma GCJoinStyleValInjective(a: GCJoinStyle, b: GCJoinStyle)
    ensures a.Val() == b.Val() ==> a == b
  {
  }

  /** GCFillStyle: the fill-style component of a graphics context. */
  datatype GCFillStyle =
    | Solid
    | Tiled
    | Stippled
    | OpaqueStippled
  {
    /** The code `GCFillStyle::val` sends. */
    function Val(): U32
    {
      match this
      case Solid => 0
      case Tiled => 1
      case Stippled => 2
      case OpaqueStippled => 3
    }
  }

  lemma GCFillStyleValInjective(a: GCFillStyle, b: GCFillStyle)
    ensures a.Val() == b.Val() ==> a == b
  {
  }

  /** GCFillRule: the fill-rule component of a graphics context. */
  datatype GCFillRule =
    | EvenOdd
    | Winding
  {
    /** The code `GCFillRule::val` sends. */
    function Val(): U32
    {
      match this
      case EvenOdd => 0
      case Winding => 1
    }
  }

  lemma GCFillRuleValInjective(a: GCFillRule, b: GCFillRule)
    ensures a.Val() == b.Val() ==> a == b
  {
  }

  /** GCSubWindowMode: the subwindow-mode component of a graphics context. */
  datatype GCSubWindowMode =
    | ClipByChildren
    | IncludeInferiors
  {
    /** The code `GCSubWindowMode::val` sends. */
    function Val(): U32
    {
      match this
      case ClipByChildren => 0
      case IncludeInferiors => 1
    }
  }

  lemma GCSubWindowModeValInjective(a: GCSubWindowMode, b: GCSubWindowMode)
    ensures a.Val() == b.Val() ==> a == b
  {
  }

  /** GCArcMode: the arc-mode component of a graphics context. */
  datatype GCArcMode =
    | Chord
    | PieSlice
  {
    /** The code `GCArcMode::val` sends. */
    function Val(): U32
    {
      match this
      case Chord => 0
      case PieSlice => 1
    }
  }

  lemma GCArcModeValInjective(a: GCArcMode, b: GCArcMode)
    ensures a.Val() == b.Val() ==> a == b
  {
  }

  /** MotionNotifyType: the detail byte of a MotionNotify event. */
  datatype MotionNotifyType =
    | Normal
    | Hint
  {
    /** The code `MotionNotifyType::val` sends. */
    function Val(): U8
    {
      match this
      case Normal => 0
      case Hint => 1
    }

    /** `MotionNotifyType::get`: the value a code stands for; None for a code outside the table. */
    static function Get(id: U8): (r: Option<MotionNotifyType>)
      ensures r.Some? <==> id <= 1
      ensures r.Some? ==> r.value.Val() == id
    {
      match id
      case 0 => Some(MotionNotifyType.Normal)
      case 1 => Some(MotionNotifyType.Hint)
      case _ => Option.None
    }
  }

  lemma MotionNotifyTypeRoundTrip(x: MotionNotifyType)
    ensures MotionNotifyType.Get(x.Val()) == Some(x)
  {
  }

  /** NotifyType: the detail byte of EnterNotify and LeaveNotify. */
  datatype NotifyType =
    | Ancestor
    | Virtual
    | Inferior
    | Nonlinear
    | NonlinearVirtual
  {
    /** The code `NotifyType::val` sends. */
    function Val(): U8
    {
      match this
      case Ancestor => 0
      case Virtual => 1
      case Inferior => 2
      case Nonlinear => 3
      case NonlinearVirtual => 4
    }

    /** `NotifyType::get`: the value a code stands for; None for a code outside the table. */
    static function Get(id: U8): (r: Option<NotifyType>)
      ensures r.Some? <==> id <= 4
      ensures r.Some? ==> r.value.Val() == id
    {
      match id
      case 0 => Some(NotifyType.Ancestor)
      case 1 => Some(NotifyType.Virtual)
      case 2 => Some(NotifyType.Inferior)
      case 3 => Some(NotifyType.Nonlinear)
      case 4 => Some(NotifyType.NonlinearVirtual)
      case _ => Option.None
    }
  }

  lemma NotifyTypeRoundTrip(x: NotifyType)
    ensures NotifyType.Get(x.Val()) == Some(x)
  {
  }

  /** FocusType: the detail byte of FocusIn and FocusOut. */
  datatype FocusType =
    | Ancestor
    | Virtual
    | Inferior
    | Nonlinear
    | NonlinearVirtual
    | Pointer
    | PointerRoot
    | None
  {
    /** The code `FocusType::val` sends. */
    function Val(): U8
    {
      match this
      case Ancestor => 0
      case Virtual => 1
      case Inferior => 2
      case Nonlinear => 3
      case NonlinearVirtual => 4
      case Pointer => 5
      case PointerRoot => 6
      case None => 7
    }

    /** `FocusType::get`: the value a code stands for; None for a code outside the table. */
    static function Get(id: U8): (r: Option<FocusType>)
      ensures r.Some? <==> id <= 7
      ensures r.Some? ==> r.value.Val() == id
    {
      match id
      case 0 => Some(FocusType.Ancestor)
      case 1 => Some(FocusType.Virtual)
      case 2 => Some(FocusType.Inferior)
      case 3 => Some(FocusType.Nonlinear)
      case 4 => Some(FocusType.NonlinearVirtual)
      case 5 => Some(FocusType.Pointer)
      case 6 => Some(FocusType.PointerRoot)
      case 7 => Some(FocusType.None)
      case _ => Option.None
    }
  }

  lemma FocusTypeRoundTrip(x: FocusType)
    ensures FocusType.Get(x.Val()) == Some(x)
  {
  }

  /** FocusMode: the mode byte of FocusIn and FocusOut. */
  datatype FocusMode =
    | Normal
    | Grab
    | Ungrab
    | WhileGrabbed
  {
    /** The code `FocusMode::val` sends. */
    function Val(): U8
    {
      match this
      case Normal => 0
      case Grab => 1
      case Ungrab => 2
      case WhileGrabbed => 3
    }

    /** `FocusMode::get`: the value a code stands for; None for a code outside the table. */
    static function Get(id: U8): (r: Option<FocusMode>)
      ensures r.Some? <==> id <= 3
      ensures r.Some? ==> r.value.Val() == id
    {
      match id
      case 0 => Some(FocusMode.Normal)
      case 1 => Some(FocusMode.Grab)
      case 2 => Some(FocusMode.Ungrab)
      case 3 => Some(FocusMode.WhileGrabbed)
      case _ => Option.None
    }
  }

  lemma FocusModeRoundTrip(x: FocusMode)
    ensures FocusMode.Get(x.Val()) == Some(x)
  {
  }

  /** InputFocusRevert: the revert-to field of the input focus. */
  datatype InputFocusRevert =
    | None
    | PointerRoot
    | Parent
  {
    /** The code `InputFocusRevert::val` sends. */
    function Val(): U8
    {
      match this
      case None => 0
      case PointerRoot => 1
      case Parent => 2
    }

    /** `InputFocusRevert::get`: the value a code stands for; None for a code outside the table. */
    static function Get(id: U8): (r: Option<InputFocusRevert>)
      ensures r.Some? <==> id <= 2
      ensures r.Some? ==> r.value.Val() == id
    {
      match id
      case 0 => Some(InputFocusRevert.None)
      case 1 => Some(InputFocusRevert.PointerRoot)
      case 2 => Some(InputFocusRevert.Parent)
      case _ => Option.None
    }
  }

  lemma InputFocusRevertRoundTrip(x: InputFocusRevert)
    ensures InputFocusRevert.Get(x.Val()) == Some(x)
  {
  }

  /** NotifyMode: the mode byte of EnterNotify and LeaveNotify. */
  datatype NotifyMode =
    | Normal
    | Grab
    | Ungrab
  {
    /** The code `NotifyMode::val` sends. */
    function Val(): U8
    {
      match this
      case Normal => 0
      case Grab => 1
      case Ungrab => 2
    }

    /** `NotifyMode::get`: the value a code stands for; None for a code outside the table. */
    static function Get(id: U8): (r: Option<NotifyMode>)
      ensures r.Some? <==> id <= 2
      ensures r.Some? ==> r.value.Val() == id
    {
      match id
      case 0 => Some(NotifyMode.Normal)
      case 1 => Some(NotifyMode.Grab)
      case 2 => Some(NotifyMode.Ungrab)
      case _ => Option.None
    }
  }

  lemma NotifyModeRoundTrip(x: NotifyMode)
    ensures NotifyMode.Get(x.Val()) == Some(x)
  {
  }

  /** VisibilityState: the state byte of VisibilityNotify. */
  datatype VisibilityState =
    | Unobscured
    | PartiallyObscured
    | FullyObscured
  {
    /** The code `VisibilityState::val` sends. */
    function Val(): U8
    {
      match this
      case Unobscured => 0
      case PartiallyObscured => 1
      case FullyObscured => 2
    }

    /** `VisibilityState::get`: the value a code stands for; None for a code outside the table. */
    static function Get(id: U8): (r: Option<VisibilityState>)
      ensures r.Some? <==> id <= 2
      ensures r.Some? ==> r.value.Val() == id
    {
      match id
      case 0 => Some(VisibilityState.Unobscured)
      case 1 => Some(VisibilityState.PartiallyObscured)
      case 2 => Some(VisibilityState.FullyObscured)
      case _ => Option.None
    }
  }

  lemma VisibilityStateRoundTrip(x: VisibilityState)
    ensures VisibilityState.Get(x.Val()) == Some(x)
  {
  }

  /** StackMode: the stack-mode of ConfigureRequest and ConfigureWindow. */
  datatype StackMode =
    | Above
    | Below
    | TopIf
    | BottomIf
    | Opposite
  {
    /** The code `StackMode::val` sends. */
    function Val(): U8
    {
      match this
      case Above => 0
      case Below => 1
      case TopIf => 2
      case BottomIf => 3
      case Opposite => 4
    }

    /** `StackMode::get`: the value a code stands for; None for a code outside the table. */
    static function Get(id: U8): (r: Option<StackMode>)
      ensures r.Some? <==> id <= 4
      ensures r.Some? ==> r.value.Val() == id
    {
      match id
      case 0 => Some(StackMode.Above)
      case 1 => Some(StackMode.Below)
      case 2 => Some(StackMode.TopIf)
      case 3 => Some(StackMode.BottomIf)
      case 4 => Some(StackMode.Opposite)
      case _ => Option.None
    }
  }

  lemma StackModeRoundTrip(x: StackMode)
    ensures StackMode.Get(x.Val()) == Some(x)
  {
  }

  /** ConfigureRequestValues: the value-mask bits of ConfigureRequest. */
  datatype ConfigureRequestValues =
    | X
    | Y
    | Width
    | Height
    | BorderWidth
    | Sibling
    | StackMode
  {
    /** The code `ConfigureRequestValues::val` sends. */
    function Val(): (r: U16)
      ensures IsSingleBit(r)
    {
      match this
      case X => 0x0001
      case Y => 0x0002
      case Width => 0x0004
      case Height => 0x0008
      case BorderWidth => 0x0010
      case Sibling => 0x0020
      case StackMode => 0x0040
    }

    /** Every variant, in the order `get` tests their bits. */
    static const All: seq<ConfigureRequestValues> := [ConfigureRequestValues.X, ConfigureRequestValues.Y, ConfigureRequestValues.Width, ConfigureRequestValues.Height, ConfigureRequestValues.BorderWidth, ConfigureRequestValues.Sibling, ConfigureRequestValues.StackMode]

    /** `Val` as a function value. */
    static function Bit(k: ConfigureRequestValues): U16 {
      k.Val()
    }

    static lemma AllMembers()
      ensures forall k: ConfigureRequestValues :: k in All
    {
      forall k: ConfigureRequestValues ensures k in All {
        match k
        case X => assert All[0] == k;
        case Y => assert All[1] == k;
        case Width => assert All[2] == k;
        case Height => assert All[3] == k;
        case BorderWidth => assert All[4] == k;
        case Sibling => assert All[5] == k;
        case StackMode => assert All[6] == k;
      }
    }

    static lemma AllIncreasing()
      ensures Increasing(All, Bit)
    {
      forall i | 0 <= i < |All| - 1 ensures Bit(All[i]) < Bit(All[i + 1]) {
        assert i == 0 || i == 1 || i == 2 || i == 3 || i == 4 || i == 5;
      }
      AdjacentIncreasing(All, Bit);
    }

    /** What `ConfigureRequestValues::get` returns for `mask`: the variants whose bit is set, in the order of their bits. */
    static function Decoded(mask: U16): seq<ConfigureRequestValues> {
      Selected(All, mask, Bit)
    }

    static lemma DecodedSpec(mask: U16)
      ensures forall k: ConfigureRequestValues :: k in Decoded(mask) <==> And16(mask, k.Val()) == k.Val()
      ensures forall i, j :: 0 <= i < j < |Decoded(mask)| ==> Decoded(mask)[i].Val() < Decoded(mask)[j].Val()
    {
      AllMembers();
      AllIncreasing();
      SelectedFromAll(All, mask, Bit);
      var v := Decoded(mask);
      forall i, j | 0 <= i < j < |v| ensures v[i].Val() < v[j].Val() {
        IncreasingAt(v, Bit, i, j);
      }
    }

    /** The bit `val` sends, as a 16-bit pattern. */
    static function Pattern(k: ConfigureRequestValues): (p: bv16)
      ensures IsSinglePattern(p) && p as int == k.Val()
    {
      match k
      case X => 0x0001
      case Y => 0x0002
      case Width => 0x0004
      case Height => 0x0008
      case BorderWidth => 0x0010
      case Sibling => 0x0020
      case StackMode => 0x0040
    }

    /** The bits of all the variants OR together to 0x7F. */
    static lemma AllBits()
      ensures OrOf(All, Pattern) == 0x7F
    {
      assert Pattern(All[0]) == SingleBits[0];
      assert Pattern(All[1]) == SingleBits[1];
      assert Pattern(All[2]) == SingleBits[2];
      assert Pattern(All[3]) == SingleBits[3];
      assert Pattern(All[4]) == SingleBits[4];
      assert Pattern(All[5]) == SingleBits[5];
      assert Pattern(All[6]) == SingleBits[6];
      forall k | 0 <= k < |All| ensures Pattern(All[k]) == SingleBits[k] {
        assert k == 0 || k == 1 || k == 2 || k == 3 || k == 4 || k == 5 || k == 6;
      }
      OrOfLowBits(All, Pattern);
    }

    /** The bits of the variants `get` returns OR together to `mask & 0x7F`. */
    static lemma DecodedBits(mask: U16)
      ensures OrOf(Decoded(mask), Pattern) == (mask as bv16) & 0x7F
    {
      AllBits();
      SinglePatternsFromAll(All, Bit, Pattern);
      OrOfSelected(All, mask, Bit, Pattern);
    }

    /** `ConfigureRequestValues::get`: tests each bit in turn and pushes the variants whose bit is set. */
    static method Get(mask: U16) returns (v: seq<ConfigureRequestValues>)
      ensures v == Decoded(mask)
      ensures forall k: ConfigureRequestValues :: k in v <==> And16(mask, k.Val()) == k.Val()
      ensures forall i, j :: 0 <= i < j < |v| ==> v[i].Val() < v[j].Val()
      ensures OrOf(v, Pattern) == (mask as bv16) & 0x7F
    {
      v := DecodeMask(All, mask, Bit);
      DecodedSpec(mask);
      DecodedBits(mask);
    }
  }

  lemma ConfigureRequestValuesValInjective(a: ConfigureRequestValues, b: ConfigureRequestValues)
    ensures a.Val() == b.Val() ==> a == b
  {
  }

  /** CirculatePlace: the place byte of CirculateNotify and CirculateRequest. */
  datatype CirculatePlace =
    | Top
    | Bottom
  {
    /** The code `CirculatePlace::val` sends. */
    function Val(): U8
    {
      match this
      case Top => 0
      case Bottom => 1
    }

    /** `CirculatePlace::get`: the value a code stands for; None for a code outside the table. */
    static function Get(id: U8): (r: Option<CirculatePlace>)
      ensures r.Some? <==> id <= 1
      ensures r.Some? ==> r.value.Val() == id
    {
      match id
      case 0 => Some(CirculatePlace.Top)
      case 1 => Some(CirculatePlace.Bottom)
      case _ => Option.None
    }
  }

  lemma CirculatePlaceRoundTrip(x: CirculatePlace)
    ensures CirculatePlace.Get(x.Val()) == Some(x)
  {
  }

  /** PropertyState: the state byte of PropertyNotify. */
  datatype PropertyState =
    | NewValue
    | Deleted
  {
    /** The code `PropertyState::val` sends. */
    function Val(): U8
    {
      match this
      case NewValue => 0
      case Deleted => 1
    }

    /** `PropertyState::get`: the value a code stands for; None for a code outside the table. */
    static function Get(id: U8): (r: Option<PropertyState>)
      ensures r.Some? <==> id <= 1
      ensures r.Some? ==> r.value.Val() == id
    {
      match id
      case 0 => Some(PropertyState.NewValue)
      case 1 => Some(PropertyState.Deleted)
      case _ => Option.None
    }
  }

  lemma PropertyStateRoundTrip(x: PropertyState)
    ensures PropertyState.Get(x.Val()) == Some(x)
  {
  }

  /** ColormapState: the state byte of ColormapNotify. */
  datatype ColormapState =
    | Uninstalled
    | Installed
  {
    /** The code `ColormapState::val` sends. */
    function Val(): U8
    {
      match this
      case Uninstalled => 0
      case Installed => 1
    }

    /** `ColormapState::get`: the value a code stands for; None for a code outside the table. */
    static function Get(id: U8): (r: Option<ColormapState>)
      ensures r.Some? <==> id <= 1
      ensures r.Some? ==> r.value.Val() == id
    {
      match id
      case 0 => Some(ColormapState.Uninstalled)
      case 1 => Some(ColormapState.Installed)
      case _ => Option.None
    }
  }

  lemma ColormapStateRoundTrip(x: ColormapState)
    ensures ColormapState.Get(x.Val()) == Some(x)
  {
  }

  /** MappingType: the request byte of MappingNotify. */
  datatype MappingType =
    | Modifier
    | Keyboard
    | Pointer
  {
    /** The code `MappingType::val` sends. */
    function Val(): U8
    {
      match this
      case Modifier => 0
      case Keyboard => 1
      case Pointer => 2
    }

    /** `MappingType::get`: the value a code stands for; None for a code outside the table. */
    static function Get(id: U8): (r: Option<MappingType>)
      ensures r.Some? <==> id <= 2
      ensures r.Some? ==> r.value.Val() == id
    {
      match id
      case 0 => Some(MappingType.Modifier)
      case 1 => Some(MappingType.Keyboard)
      case 2 => Some(MappingType.Pointer)
      case _ => Option.None
    }
  }

  lemma MappingTypeRoundTrip(x: MappingType)
    ensures MappingType.Get(x.Val()) == Some(x)
  {
  }

  /** SaveSetMode: the mode of ChangeSaveSet. */
  datatype SaveSetMode =
    | Insert
    | Delete
  {
    /** The code `SaveSetMode::val` sends. */
    function Val(): U8
    {
      match this
      case Insert => 0
      case Delete => 1
    }
  }

  lemma SaveSetModeValInjective(a: SaveSetMode, b: SaveSetMode)
    ensures a.Val() == b.Val() ==> a == b
  {
  }

  /** CirculateDirection: the direction of CirculateWindow. */
  datatype CirculateDirection =
    | RaiseLowest
    | LowerHighest
  {
    /** The code `CirculateDirection::val` sends. */
    function Val(): U8
    {
      match this
      case RaiseLowest => 0
      case LowerHighest => 1
    }
  }

  lemma CirculateDirectionValInjective(a: CirculateDirection, b: CirculateDirection)
    ensures a.Val() == b.Val() ==> a == b
  {
  }

  /** PropertyChangeMode: the mode of ChangeProperty. */
  datatype PropertyChangeMode =
    | Replace
    | Prepend
    | Append
  {
    /** The code `PropertyChangeMode::val` sends. */
    function Val(): U8
    {
      match this
      case Replace => 0
      case Prepend => 1
      case Append => 2
    }
  }

  lemma PropertyChangeModeValInjective(a: PropertyChangeMode, b: PropertyChangeMode)
    ensures a.Val() == b.Val() ==> a == b
  {
  }

  /** PointerMode: the pointer-mode of the grab requests. */
  datatype PointerMode =
    | Synchronous
    | Asynchronous
  {
    /** The code `PointerMode::val` sends. */
    function Val(): U8
    {
      match this
      case Synchronous => 0
      case Asynchronous => 1
    }
  }

  lemma PointerModeValInjective(a: PointerMode, b: PointerMode)
    ensures a.Val() == b.Val() ==> a == b
  {
  }

  /** KeyboardMode: the keyboard-mode of the grab requests. */
  datatype KeyboardMode =
    | Synchronous
    | Asynchronous
  {
    /** The code `KeyboardMode::val` sends. */
    function Val(): U8
    {
      match this
      case Synchronous => 0
      case Asynchronous => 1
    }
  }

  lemma KeyboardModeValInjective(a: KeyboardMode, b: KeyboardMode)
    ensures a.Val() == b.Val() ==> a == b
  {
  }

  /** GraphicsContextMask: the value-mask bits of CreateGC and ChangeGC. */
  datatype GraphicsContextMask =
    | Function
    | PlaneMask
    | Foreground
    | Background
    | LineWidth
    | LineStyle
    | CapStyle
    | JoinStyle
    | FillStyle
    | FillRule
    | Tile
    | Stipple
    | TileStippleXOrigin
    | TileStippleYOrigin
    | Font
    | SubWindowMode
    | GraphicsExposures
    | ClipXOrigin
    | ClipYOrigin
    | ClipMask
    | DashOffset
    | Dashes
    | ArcMode
  {
    /** The code `GraphicsContextMask::val` sends. */
    function Val(): (r: U32)
      ensures IsSingleBit(r)
    {
      match this
      case Function => 0x0001
      case PlaneMask => 0x0002
      case Foreground => 0x0004
      case Background => 0x0008
      case LineWidth => 0x0010
      case LineStyle => 0x0020
      case CapStyle => 0x0040
      case JoinStyle => 0x0080
      case FillStyle => 0x0100
      case FillRule => 0x0200
      case Tile => 0x0400
      case Stipple => 0x0800
      case TileStippleXOrigin => 0x1000
      case TileStippleYOrigin => 0x2000
      case Font => 0x4000
      case SubWindowMode => 0x8000
      case GraphicsExposures => 0x00010000
      case ClipXOrigin => 0x00020000
      case ClipYOrigin => 0x00040000
      case ClipMask => 0x00080000
      case DashOffset => 0x00100000
      case Dashes => 0x00200000
      case ArcMode => 0x00400000
    }
  }

  lemma GraphicsContextMaskValInjective(a: GraphicsContextMask, b: GraphicsContextMask)
    ensures a.Val() == b.Val() ==> a == b
  {
  }

  /** RectangleOrdering: the ordering of SetClipRectangles. */
  datatype RectangleOrdering =
    | UnSorted
    | YSorted
    | YXSorted
    | YXBanded
  {
    /** The code `RectangleOrdering::val` sends. */
    function Val(): U8
    {
      match this
      case UnSorted => 0
      case YSorted => 1
      case YXSorted => 2
      case YXBanded => 3
    }
  }

  lemma RectangleOrderingValInjective(a: RectangleOrdering, b: RectangleOrdering)
    ensures a.Val() == b.Val() ==> a == b
  {
  }

  /** CoordinateMode: the coordinate-mode of the poly requests. */
  datatype CoordinateMode =
    | Origin
    | Previous
  {
    /** The code `CoordinateMode::val` sends. */
    function Val(): U8
    {
      match this
      case Origin => 0
      case Previous => 1
    }
  }

  lemma CoordinateModeValInjective(a: CoordinateMode, b: CoordinateMode)
    ensures a.Val() == b.Val() ==> a == b
  {
  }

  /** PolyShape: the shape of FillPoly. */
  datatype PolyShape =
    | Complex
    | Nonconvex
    | Convex
  {
    /** The code `PolyShape::val` sends. */
    function Val(): U8
    {
      match this
      case Complex => 0
      case Nonconvex => 1
      case Convex => 2
    }
  }

  lemma PolyShapeValInjective(a: PolyShape, b: PolyShape)
    ensures a.Val() == b.Val() ==> a == b
  {
  }

  /** ImageFormat: the format of PutImage and GetImage. */
  datatype ImageFormat =
    | Bitmap
    | XYPixmap
    | ZPixmap
  {
    /** The code `ImageFormat::val` sends. */
    function Val(): U8
    {
      match this
      case Bitmap => 0
      case XYPixmap => 1
      case ZPixmap => 2
    }
  }

  lemma ImageFormatValInjective(a: ImageFormat, b: ImageFormat)
    ensures a.Val() == b.Val() ==> a == b
  {
  }

  /** AllocMode: the alloc of CreateColormap. */
  datatype AllocMode =
    | None
    | All
  {
    /** The code `AllocMode::val` sends. */
    function Val(): U8
    {
      match this
      case None => 0
      case All => 1
    }
  }

  lemma AllocModeValInjective(a: AllocMode, b: AllocMode)
    ensures a.Val() == b.Val() ==> a == b
  {
  }

  /** SizeClass: the class of QueryBestSize. */
  datatype SizeClass =
    | Cursor
    | Tile
    | Stipple
  {
    /** The code `SizeClass::val` sends. */
    function Val(): U8
    {
      match this
      case Cursor => 0
      case Tile => 1
      case Stipple => 2
    }
  }

  lemma SizeClassValInjective(a: SizeClass, b: SizeClass)
    ensures a.Val() == b.Val() ==> a == b
  {
  }

  /** KeyboardControlLedMode: the led-mode of ChangeKeyboardControl. */
  datatype KeyboardControlLedMode =
    | Off
    | On
  {
    /** The code `KeyboardControlLedMode::val` sends. */
    function Val(): U8
    {
      match this
      case Off => 0
      case On => 1
    }
  }

  lemma KeyboardControlLedModeValInjective(a: KeyboardControlLedMode, b: KeyboardControlLedMode)
    ensures a.Val() == b.Val() ==> a == b
  {
  }

  /** KeyboardControlAutoRepeatMode: the auto-repeat-mode of ChangeKeyboardControl. */
  datatype KeyboardControlAutoRepeatMode =
    | Off
    | On
    | Default
  {
    /** The code `KeyboardControlAutoRepeatMode::val` sends. */
    function Val(): U8
    {
      match this
      case Off => 0
      case On => 1
      case Default => 2
    }

    /** `KeyboardControlAutoRepeatMode::get`: the value a code stands for; None for a code outside the table. */
    static function Get(id: U8): (r: Option<KeyboardControlAutoRepeatMode>)
      ensures r.Some? <==> id <= 2
      ensures r.Some? ==> r.value.Val() == id
    {
      match id
      case 0 => Some(KeyboardControlAutoRepeatMode.Off)
      case 1 => Some(KeyboardControlAutoRepeatMode.On)
      case 2 => Some(KeyboardControlAutoRepeatMode.Default)
      case _ => Option.None
    }
  }

  lemma KeyboardControlAutoRepeatModeRoundTrip(x: KeyboardControlAutoRepeatMode)
    ensures KeyboardControlAutoRepeatMode.Get(x.Val()) == Some(x)
  {
  }

  /** YesNoDefault: the prefer-blanking and allow-exposures of SetScreenSaver. */
  datatype YesNoDefault =
    | No
    | Yes
    | Default
  {
    /** The code `YesNoDefault::val` sends. */
    function Val(): U8
    {
      match this
      case No => 0
      case Yes => 1
      case Default => 2
    }
  }

  lemma YesNoDefaultValInjective(a: YesNoDefault, b: YesNoDefault)
    ensures a.Val() == b.Val() ==> a == b
  {
  }

  /** HostFamily: the family of a HOST. */
  datatype HostFamily =
    | Internet
    | DECnet
    | Chaos
    | ServerInterpreted
    | InternetV6
  {
    /** The code `HostFamily::val` sends. */
    function Val(): U8
    {
      match this
      case Internet => 0
      case DECnet => 1
      case Chaos => 2
      case ServerInterpreted => 5
      case InternetV6 => 6
    }

    /** `HostFamily::get`: the value a code stands for; None for a code outside the table. */
    static function Get(id: U8): (r: Option<HostFamily>)
      ensures r.Some? <==> id in {0, 1, 2, 5, 6}
      ensures r.Some? ==> r.value.Val() == id
    {
      match id
      case 0 => Some(HostFamily.Internet)
      case 1 => Some(HostFamily.DECnet)
      case 2 => Some(HostFamily.Chaos)
      case 5 => Some(HostFamily.ServerInterpreted)
      case 6 => Some(HostFamily.InternetV6)
      case _ => Option.None
    }
  }

  lemma HostFamilyRoundTrip(x: HostFamily)
    ensures HostFamily.Get(x.Val()) == Some(x)
  {
  }

  /** ChangeHostMode: the mode of ChangeHosts. */
  datatype ChangeHostMode =
    | Insert
    | Delete
  {
    /** The code `ChangeHostMode::val` sends. */
    function Val(): U8
    {
      match this
      case Insert => 0
      case Delete => 1
    }
  }

  lemma ChangeHostModeValInjective(a: ChangeHostMode, b: ChangeHostMode)
    ensures a.Val() == b.Val() ==> a == b
  {
  }

  /** CloseDownMode: the mode of SetCloseDownMode. */
  datatype CloseDownMode =
    | Destroy
    | RetainPermanent
    | RetainTemporary
  {
    /** The code `CloseDownMode::val` sends. */
    function Val(): U8
    {
      match this
      case Destroy => 0
      case RetainPermanent => 1
      case RetainTemporary => 2
    }
  }

  lemma CloseDownModeValInjective(a: CloseDownMode, b: CloseDownMode)
    ensures a.Val() == b.Val() ==> a == b
  {
  }

  /** GrabStatus: the status of a grab reply. */
  datatype GrabStatus =
    | Success
    | AlreadyGrabbed
    | InvalidTime
    | NotViewable
    | Frozen
  {
    /** `GrabStatus::get`: the value a code stands for; None for a code outside the table. */
    static function Get(id: U8): (r: Option<GrabStatus>)
      ensures r.Some? <==> id <= 4
    {
      match id
      case 0 => Some(GrabStatus.Success)
      case 1 => Some(GrabStatus.AlreadyGrabbed)
      case 2 => Some(GrabStatus.InvalidTime)
      case 3 => Some(GrabStatus.NotViewable)
      case 4 => Some(GrabStatus.Frozen)
      case _ => Option.None
    }
  }

  lemma GrabStatusGetInjective(m: U8, n: U8)
    ensures GrabStatus.Get(m).Some? && GrabStatus.Get(m) == GrabStatus.Get(n) ==> m == n
  {
  }

  /** SetModifierMappingStatus: the status of a SetModifierMapping reply. */
  datatype SetModifierMappingStatus =
    | Success
    | Busy
    | Failed
  {
    /** `SetModifierMappingStatus::get`: the value a code stands for; None for a code outside the table. */
    static function Get(id: U8): (r: Option<SetModifierMappingStatus>)
      ensures r.Some? <==> id <= 2
    {
      match id
      case 0 => Some(SetModifierMappingStatus.Success)
      case 1 => Some(SetModifierMappingStatus.Busy)
      case 2 => Some(SetModifierMappingStatus.Failed)
      case _ => Option.None
    }
  }

  lemma SetModifierMappingStatusGetInjective(m: U8, n: U8)
    ensures SetModifierMappingStatus.Get(m).Some? && SetModifierMappingStatus.Get(m) == SetModifierMappingStatus.Get(n) ==> m == n
  {
  }
}
