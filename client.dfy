/**
 * The client connection of src/lib.rs: the fixed-width writers and readers
 * over the socket, the LISTofVALUE writer, the request encoders, the
 * resource-id counter, error decoding and the connection setup. The socket
 * is an output byte sequence that writes append to and an input byte
 * sequence with a cursor that reads advance.
 */
module Client {
  import opened Wire
  import Valued
  import opened Models

  // ---------------------------------------------------------------------------
  // Protocol constants (X Window System Protocol, X11R7.7, Appendix B)

  const OpCreateWindow: U8 := 1
  const OpChangeWindowAttributes: U8 := 2
  const OpGetWindowAttributes: U8 := 3
  const OpMapWindow: U8 := 8
  const OpCreatePixmap: U8 := 53
  const OpCreateGc: U8 := 55

  /** Byte order 'l': least significant byte first. */
  const ConnectLsb: U8 := 0x6C
  const ConnectMajor: U16 := 11
  const ConnectMinor: U16 := 0

  const StatusFailed: U8 := 0
  const StatusSuccess: U8 := 1
  const StatusAuthenticate: U8 := 2

  // ---------------------------------------------------------------------------
  // LISTofVALUE: the value mask, then the values in mask-bit order

  function Masks(values: seq<Value>): (r: seq<U32>)
    ensures |r| == |values| && forall i :: 0 <= i < |values| ==> r[i] == values[i].GetMask()
  {
    if values == [] then [] else Masks(values[..|values| - 1]) + [values[|values| - 1].GetMask()]
  }

  /** The OR of the first n masks, accumulated from the first to the last. */
  function MaskOr(masks: seq<U32>, n: nat): U32
    requires n <= |masks|
  {
    if n == 0 then 0 else Or32(MaskOr(masks, n - 1), masks[n - 1])
  }

  /** Every entry of `order` indexes a sequence of length `n`. */
  ghost predicate Indexes(order: seq<nat>, n: nat) {
    forall j :: 0 <= j < |order| ==> order[j] < n
  }

  /** Where `m` goes in `order`: before the first entry whose mask is above `m`, else at the end. */
  function FirstAbove(order: seq<nat>, masks: seq<U32>, m: U32): (r: nat)
    requires Indexes(order, |masks|)
    ensures r <= |order|
    ensures forall j :: 0 <= j < r ==> masks[order[j]] <= m
    ensures r < |order| ==> m < masks[order[r]]
  {
    if order == [] then 0
    else if m < masks[order[0]] then 0
    else 1 + FirstAbove(order[1..], masks, m)
  }

  /** The position the search finds is the only one with the two properties of `FirstAbove`. */
  lemma {:induction false} FirstAboveAt(order: seq<nat>, masks: seq<U32>, m: U32, p: nat)
    requires Indexes(order, |masks|) && p <= |order|
    requires forall j :: 0 <= j < p ==> masks[order[j]] <= m
    requires p < |order| ==> m < masks[order[p]]
    ensures FirstAbove(order, masks, m) == p
  {
    if p > 0 {
      FirstAboveAt(order[1..], masks, m, p - 1);
    }
  }

  /** `Vec::insert(p, n)` on `o`. */
  function Inserted(o: seq<nat>, p: nat, n: nat): (r: seq<nat>)
    requires p <= |o|
    ensures |r| == |o| + 1 && r[p] == n
    ensures forall k :: 0 <= k < p ==> r[k] == o[k]
    ensures forall k :: p < k < |r| ==> r[k] == o[k - 1]
  {
    o[..p] + [n] + o[p..]
  }

  /**
   * The order in which `write_values` sends the first n values: each index
   * in turn is inserted before the first entry with a larger mask.
   */
  function InsertionOrder(masks: seq<U32>, n: nat): (order: seq<nat>)
    requires n <= |masks|
    ensures |order| == n && Indexes(order, n)
  {
    if n == 0 then []
    else
      var o := InsertionOrder(masks, n - 1);
      Inserted(o, FirstAbove(o, masks, masks[n - 1]), n - 1)
  }

  /** A position with the two properties of `FirstAbove` is where the next index is inserted. */
  lemma InsertionOrderSnoc(masks: seq<U32>, i: nat, p: nat)
    requires i < |masks|
    requires var o := InsertionOrder(masks, i);
      p <= |o| && (forall k :: 0 <= k < p ==> masks[o[k]] <= masks[i]) && (p < |o| ==> masks[i] < masks[o[p]])
    ensures InsertionOrder(masks, i + 1) == Inserted(InsertionOrder(masks, i), p, i)
  {
    FirstAboveAt(InsertionOrder(masks, i), masks, masks[i], p);
  }

  /** `order` lists each of the indexes below `n` exactly once. */
  ghost predicate IsPermutation(order: seq<nat>, n: nat) {
    (forall k :: k in order <==> 0 <= k < n) &&
    (forall i, j :: 0 <= i < j < |order| ==> order[i] != order[j])
  }

  /** Inserting a new index anywhere keeps a permutation a permutation. */
  lemma InsertPermutation(o: seq<nat>, n: nat, p: nat)
    requires IsPermutation(o, n) && p <= |o|
    ensures IsPermutation(Inserted(o, p, n), n + 1)
  {
    var r := Inserted(o, p, n);
    assert r[p] == n;
    forall k | 0 <= k < n ensures k in r {
      assert k in o;
      var i :| 0 <= i < |o| && o[i] == k;
      if i < p { assert r[i] == k; } else { assert r[i + 1] == k; }
    }
    forall k | k in r ensures k < n + 1 {
      var i :| 0 <= i < |r| && r[i] == k;
      if i < p {
        assert o[i] == k && o[i] in o;
      } else if i > p {
        assert o[i - 1] == k && o[i - 1] in o;
      }
    }
    forall i, j | 0 <= i < j < |r| ensures r[i] != r[j] {
      if i < p && j < p {
        assert r[i] == o[i] && r[j] == o[j];
      } else if i < p && j > p {
        assert r[i] == o[i] && r[j] == o[j - 1];
      } else if i > p {
        assert r[i] == o[i - 1] && r[j] == o[j - 1];
      } else if i == p {
        assert r[j] == o[j - 1] && r[j] in o;
      } else {
        assert r[i] == o[i] && r[i] in o;
      }
    }
  }

  /** The order holds every index exactly once. */
  lemma {:induction false} InsertionOrderPermutation(masks: seq<U32>, n: nat)
    requires n <= |masks|
    ensures IsPermutation(InsertionOrder(masks, n), n)
  {
    if n > 0 {
      var o := InsertionOrder(masks, n - 1);
      InsertionOrderPermutation(masks, n - 1);
      InsertPermutation(o, n - 1, FirstAbove(o, masks, masks[n - 1]));
    }
  }

  /** Masks ascend along `order`, and equal masks keep the order of their indexes. */
  ghost predicate StableSorted(order: seq<nat>, masks: seq<U32>)
    requires Indexes(order, |masks|)
  {
    forall i, j :: 0 <= i < j < |order| ==>
      masks[order[i]] < masks[order[j]] || (masks[order[i]] == masks[order[j]] && order[i] < order[j])
  }

  lemma StableSortedAt(order: seq<nat>, masks: seq<U32>, i: nat, j: nat)
    requires Indexes(order, |masks|) && StableSorted(order, masks) && i < j < |order|
    ensures masks[order[i]] < masks[order[j]] || (masks[order[i]] == masks[order[j]] && order[i] < order[j])
  {
  }

  /** One pair of positions of `InsertSorted`. */
  lemma InsertSortedAt(o: seq<nat>, masks: seq<U32>, n: nat, p: nat, i: nat, j: nat)
    requires n < |masks| && Indexes(o, n) && StableSorted(o, masks)
    requires p == FirstAbove(o, masks, masks[n]) && i < j < |o| + 1
    ensures var r := Inserted(o, p, n);
      masks[r[i]] < masks[r[j]] || (masks[r[i]] == masks[r[j]] && r[i] < r[j])
  {
    var r := Inserted(o, p, n);
    if j < p {
      StableSortedAt(o, masks, i, j);
      assert r[i] == o[i] && r[j] == o[j];
    } else if i < p && j == p {
      assert r[i] == o[i] && r[j] == n;
    } else if i < p {
      StableSortedAt(o, masks, i, j - 1);
      assert r[i] == o[i] && r[j] == o[j - 1];
    } else if i == p {
      assert r[i] == n && r[j] == o[j - 1];
      if j - 1 > p {
        StableSortedAt(o, masks, p, j - 1);
      }
    } else {
      StableSortedAt(o, masks, i - 1, j - 1);
      assert r[i] == o[i - 1] && r[j] == o[j - 1];
    }
  }

  /** Inserting the index n at the place `FirstAbove` finds keeps the order stably sorted. */
  lemma InsertSorted(o: seq<nat>, masks: seq<U32>, n: nat, p: nat)
    requires n < |masks| && Indexes(o, n) && StableSorted(o, masks)
    requires p == FirstAbove(o, masks, masks[n])
    ensures Indexes(Inserted(o, p, n), |masks|) && StableSorted(Inserted(o, p, n), masks)
  {
    var r := Inserted(o, p, n);
    forall i, j | 0 <= i < j < |r|
      ensures masks[r[i]] < masks[r[j]] || (masks[r[i]] == masks[r[j]] && r[i] < r[j])
    {
      InsertSortedAt(o, masks, n, p, i, j);
    }
  }

  /**
   * The order sends the masks in ascending order, and values with equal
   * masks in the order they were given (a stable sort).
   */
  lemma {:induction false} InsertionOrderSorted(masks: seq<U32>, n: nat)
    requires n <= |masks|
    ensures StableSorted(InsertionOrder(masks, n), masks)
  {
    if n > 0 {
      var o := InsertionOrder(masks, n - 1);
      InsertionOrderSorted(masks, n - 1);
      InsertSorted(o, masks, n - 1, FirstAbove(o, masks, masks[n - 1]));
    }
  }

  /** No value is a keyboard-control value, so every value is one 4-byte word. */
  predicate AllWords(values: seq<Value>) {
    forall i :: 0 <= i < |values| ==> !values[i].OfKeyboardControl?
  }

  /** The bytes of the values at the first k indexes of `order`, one value after the other. */
  function Sent(values: seq<Value>, order: seq<nat>, k: nat): Bytes
    requires k <= |order| && Indexes(order, |values|)
  {
    if k == 0 then [] else Sent(values, order, k - 1) + values[order[k - 1]].Bytes()
  }

  /** Without keyboard-control values, every value sent is one 4-byte word. */
  lemma {:induction false} SentSize(values: seq<Value>, order: seq<nat>, k: nat)
    requires k <= |order| && Indexes(order, |values|) && AllWords(values)
    ensures |Sent(values, order, k)| == 4 * k
  {
    if k > 0 {
      SentSize(values, order, k - 1);
    }
  }

  /** The bytes `write_values` sends for `values`: the value mask, then the values in mask order. */
  function ValueList(values: seq<Value>): Bytes {
    var masks := Masks(values);
    Le32(MaskOr(masks, |values|)) + Sent(values, InsertionOrder(masks, |values|), |values|)
  }

  /** A LISTofVALUE opens with the OR of the masks and, without keyboard-control values, has a word per value. */
  lemma ValueListLayout(values: seq<Value>)
    ensures var r := ValueList(values);
      |r| >= 4 && U32At(r, 0) == MaskOr(Masks(values), |values|) && (AllWords(values) ==> |r| == 4 + 4 * |values|)
  {
    Le32RoundTrip(MaskOr(Masks(values), |values|));
    if AllWords(values) {
      SentSize(values, InsertionOrder(Masks(values), |values|), |values|);
    }
  }

  /** The values go out once each, in ascending mask order, equal masks in the order given. */
  lemma ValueListOrder(values: seq<Value>)
    ensures var order := InsertionOrder(Masks(values), |values|);
      IsPermutation(order, |values|) && StableSorted(order, Masks(values))
  {
    InsertionOrderPermutation(Masks(values), |values|);
    InsertionOrderSorted(Masks(values), |values|);
  }

  /** A LISTofVALUE of window attributes: one word per attribute after the mask. */
  lemma WindowValueListSize(values: seq<WindowValue>)
    ensures |ValueList(WindowValues(values))| == 4 + 4 * |values|
  {
    assert AllWords(WindowValues(values));
    ValueListLayout(WindowValues(values));
  }

  /** A LISTofVALUE of graphics-context components. */
  lemma GraphicsContextValueListSize(values: seq<GraphicsContextValue>)
    ensures |ValueList(GraphicsContextValues(values))| == 4 + 4 * |values|
  {
    assert AllWords(GraphicsContextValues(values));
    ValueListLayout(GraphicsContextValues(values));
  }

  /** The first four bytes of a request: the opcode, a data byte and the length field. */
  lemma HeaderAt(op: U8, data: U8, length: U16, body: Bytes)
    ensures var r := [op] + [data] + Le16(length) + body;
      |r| == 4 + |body| && r[0] == op && r[1] == data && U16At(r, 2) == length
  {
    Le16RoundTrip(length);
  }

  // ---------------------------------------------------------------------------
  // Requests

  /** The class code create_window sends (its own match, not `WindowInputType::val`). */
  function InputClassCode(c: Valued.WindowInputType): (r: U16)
    ensures r == c.Val()
  {
    match c
    case CopyFromParent => 0
    case InputOutput => 1
    case InputOnly => 2
  }

  /** CreateWindow: the header, the fixed fields, then the LISTofVALUE. */
  function CreateWindowRequest(depth: U8, wid: U32, parent: U32, x: I16, y: I16, width: U16, height: U16,
                               borderWidth: U16, windowClass: Valued.WindowInputType, visualId: U32,
                               values: seq<WindowValue>): Bytes
  {
    [OpCreateWindow] + [depth] + Le16(TruncU16(8 + TruncU16(|values|))) +
      (WindowFields(wid, parent, x, y, width, height, borderWidth, windowClass, visualId) +
       ValueList(WindowValues(values)))
  }

  /** The fixed part of CreateWindow after its header. */
  function WindowFields(wid: U32, parent: U32, x: I16, y: I16, width: U16, height: U16, borderWidth: U16,
                        windowClass: Valued.WindowInputType, visualId: U32): Bytes
  {
    Le32(wid) + Le32(parent) + Le16(TruncU16(x)) + Le16(TruncU16(y)) + Le16(width) + Le16(height) +
      Le16(borderWidth) + Le16(InputClassCode(windowClass)) + Le32(visualId)
  }

  /**
   * The length field of CreateWindow is `8 + values.len() as u16` in u16
   * arithmetic, so it is the request's size in 4-byte units as long as the
   * value count keeps it below 2^16.
   */
  lemma CreateWindowHeader(depth: U8, wid: U32, parent: U32, x: I16, y: I16, width: U16, height: U16,
                           borderWidth: U16, windowClass: Valued.WindowInputType, visualId: U32,
                           values: seq<WindowValue>)
    ensures var r := CreateWindowRequest(depth, wid, parent, x, y, width, height, borderWidth, windowClass,
                                         visualId, values);
      |r| >= 4 && r[0] == OpCreateWindow && r[1] == depth &&
      U16At(r, 2) == TruncU16(8 + TruncU16(|values|)) &&
      (8 + |values| < 0x1_0000 ==> 4 * U16At(r, 2) == |r|)
  {
    var body := WindowFields(wid, parent, x, y, width, height, borderWidth, windowClass, visualId) +
      ValueList(WindowValues(values));
    HeaderAt(OpCreateWindow, depth, TruncU16(8 + TruncU16(|values|)), body);
    WindowValueListSize(values);
  }

  /** The server reads back every field of CreateWindow from its fixed offset. */
  lemma WindowFieldsAt(wid: U32, parent: U32, x: I16, y: I16, width: U16, height: U16, borderWidth: U16,
                       windowClass: Valued.WindowInputType, visualId: U32)
    ensures var r := WindowFields(wid, parent, x, y, width, height, borderWidth, windowClass, visualId);
      |r| == 24 && U32At(r, 0) == wid && U32At(r, 4) == parent && I16At(r, 8) == x && I16At(r, 10) == y &&
      U16At(r, 12) == width && U16At(r, 14) == height && U16At(r, 16) == borderWidth &&
      U16At(r, 18) == windowClass.Val() && U32At(r, 20) == visualId
  {
    var r := WindowFields(wid, parent, x, y, width, height, borderWidth, windowClass, visualId);
    Le32RoundTrip(wid);
    Le32RoundTrip(parent);
    Le16RoundTrip(TruncU16(x));
    SignedRoundTrip16(x);
    Le16RoundTrip(TruncU16(y));
    SignedRoundTrip16(y);
    Le16RoundTrip(width);
    Le16RoundTrip(height);
    Le16RoundTrip(borderWidth);
    Le16RoundTrip(InputClassCode(windowClass));
    Le32RoundTrip(visualId);
    assert r[0..4] == Le32(wid) && r[4..8] == Le32(parent) && r[8..10] == Le16(TruncU16(x));
    assert r[10..12] == Le16(TruncU16(y)) && r[12..14] == Le16(width) && r[14..16] == Le16(height);
    assert r[16..18] == Le16(borderWidth) && r[18..20] == Le16(InputClassCode(windowClass));
    assert r[20..24] == Le32(visualId);
  }

  /**
   * ChangeWindowAttributes. The unused byte is write_pad(1) right after
   * write_u8 of the opcode, so it repeats the opcode.
   */
  function ChangeWindowAttributesRequest(wid: U32, values: seq<WindowValue>): Bytes
  {
    [OpChangeWindowAttributes] + [OpChangeWindowAttributes] + Le16(TruncU16(3 + TruncU16(|values|))) +
      (Le32(wid) + ValueList(WindowValues(values)))
  }

  /** The length field of ChangeWindowAttributes counts the window word and the values. */
  lemma ChangeWindowAttributesHeader(wid: U32, values: seq<WindowValue>)
    ensures var r := ChangeWindowAttributesRequest(wid, values);
      |r| >= 8 && r[0] == OpChangeWindowAttributes && r[1] == OpChangeWindowAttributes &&
      U16At(r, 2) == TruncU16(3 + TruncU16(|values|)) && U32At(r, 4) == wid &&
      (3 + |values| < 0x1_0000 ==> 4 * U16At(r, 2) == |r|)
  {
    var body := Le32(wid) + ValueList(WindowValues(values));
    HeaderAt(OpChangeWindowAttributes, OpChangeWindowAttributes, TruncU16(3 + TruncU16(|values|)), body);
    WindowValueListSize(values);
    Le32RoundTrip(wid);
    assert body[0..4] == Le32(wid);
  }

  /** GetWindowAttributes; the unused byte repeats the opcode. */
  function GetWindowAttributesRequest(wid: U32): Bytes {
    [OpGetWindowAttributes] + [OpGetWindowAttributes] + Le16(2) + Le32(wid)
  }

  /** GetWindowAttributes is two units long and carries the window. */
  lemma GetWindowAttributesFields(wid: U32)
    ensures var r := GetWindowAttributesRequest(wid);
      |r| == 8 && r[0] == OpGetWindowAttributes && 4 * U16At(r, 2) == |r| && U32At(r, 4) == wid
  {
    Le16RoundTrip(2);
    Le32RoundTrip(wid);
  }

  /** MapWindow; the unused byte repeats the opcode. */
  function MapWindowRequest(window: U32): Bytes {
    [OpMapWindow] + [OpMapWindow] + Le16(2) + Le32(window)
  }

  /** MapWindow is two units long and carries the window. */
  lemma MapWindowFields(window: U32)
    ensures var r := MapWindowRequest(window);
      |r| == 8 && r[0] == OpMapWindow && 4 * U16At(r, 2) == |r| && U32At(r, 4) == window
  {
    Le16RoundTrip(2);
    Le32RoundTrip(window);
  }

  /** CreatePixmap. */
  function CreatePixmapRequest(p: Pixmap): Bytes {
    [OpCreatePixmap] + [p.depth] + Le16(4) + Le32(p.pid) + Le32(p.drawable) + Le16(p.width) + Le16(p.height)
  }

  /** CreatePixmap is four units long and carries every field of the pixmap. */
  lemma CreatePixmapFields(p: Pixmap)
    ensures var r := CreatePixmapRequest(p);
      |r| == 16 && r[0] == OpCreatePixmap && r[1] == p.depth && 4 * U16At(r, 2) == |r| &&
      U32At(r, 4) == p.pid && U32At(r, 8) == p.drawable && U16At(r, 12) == p.width && U16At(r, 14) == p.height
  {
    Le16RoundTrip(4);
    Le32RoundTrip(p.pid);
    Le32RoundTrip(p.drawable);
    Le16RoundTrip(p.width);
    Le16RoundTrip(p.height);
  }

  /** CreateGC; the unused byte repeats the opcode. */
  function CreateGcRequest(gcid: U32, drawable: U32, values: seq<GraphicsContextValue>): Bytes
  {
    [OpCreateGc] + [OpCreateGc] + Le16(TruncU16(4 + TruncU16(|values|))) +
      (Le32(gcid) + Le32(drawable) + ValueList(GraphicsContextValues(values)))
  }

  /** The length field of CreateGC counts the two ids and the values. */
  lemma CreateGcHeader(gcid: U32, drawable: U32, values: seq<GraphicsContextValue>)
    ensures var r := CreateGcRequest(gcid, drawable, values);
      |r| >= 12 && r[0] == OpCreateGc && r[1] == OpCreateGc &&
      U16At(r, 2) == TruncU16(4 + TruncU16(|values|)) && U32At(r, 4) == gcid && U32At(r, 8) == drawable &&
      (4 + |values| < 0x1_0000 ==> 4 * U16At(r, 2) == |r|)
  {
    var body := Le32(gcid) + Le32(drawable) + ValueList(GraphicsContextValues(values));
    HeaderAt(OpCreateGc, OpCreateGc, TruncU16(4 + TruncU16(|values|)), body);
    GraphicsContextValueListSize(values);
    Le32RoundTrip(gcid);
    Le32RoundTrip(drawable);
    assert body[0..4] == Le32(gcid) && body[4..8] == Le32(drawable);
  }

  /**
   * The connection request `connect` sends: byte order, an unused byte,
   * the protocol version, two empty authorization strings' lengths and two
   * unused bytes. Every write_pad(1) repeats the byte order, which is what
   * the one-byte scratch buffer holds at that point.
   */
  function ConnectRequest(): Bytes {
    [ConnectLsb] + [ConnectLsb] + Le16(ConnectMajor) + Le16(ConnectMinor) + Le16(0) + Le16(0) + [ConnectLsb] + [ConnectLsb]
  }

  /** The connection request asks for protocol 11.0 with empty authorization, least significant byte first. */
  lemma ConnectRequestFields()
    ensures var r := ConnectRequest();
      |r| == 12 && r[0] == ConnectLsb && U16At(r, 2) == ConnectMajor && U16At(r, 4) == ConnectMinor &&
      U16At(r, 6) == 0 && U16At(r, 8) == 0
  {
  }

  // ---------------------------------------------------------------------------
  // The setup reply, read from offset p of the server's bytes `s`

  /** `count` records read one after the other with `step`, from offset p. */
  function Repeat<T>(s: Bytes, p: nat, count: nat, step: (Bytes, nat) -> Outcome<(T, nat)>): Outcome<(seq<T>, nat)> {
    if count == 0 then Ok(([], p))
    else
      var done :- Repeat(s, p, count - 1, step);
      var next :- step(s, done.1);
      Ok((done.0 + [next.0], next.1))
  }

  /** Once a record fails, so does every longer run of records. */
  lemma {:induction false} RepeatFails<T>(s: Bytes, p: nat, k: nat, count: nat, step: (Bytes, nat) -> Outcome<(T, nat)>)
    requires k <= count && Repeat(s, p, k, step).Panic?
    ensures Repeat(s, p, count, step) == Repeat(s, p, k, step)
  {
    if k < count {
      RepeatFails(s, p, k, count - 1, step);
    }
  }

  /** Records of a fixed size w take `count * w` bytes while the stream holds them. */
  lemma {:induction false} RepeatSize<T>(s: Bytes, p: nat, count: nat, w: nat, step: (Bytes, nat) -> Outcome<(T, nat)>)
    requires forall q: nat :: step(s, q).Ok? && q + w <= |s| ==> step(s, q).value.1 == q + w
    requires p + count * w <= |s|
    ensures Repeat(s, p, count, step).Ok? ==> Repeat(s, p, count, step).value.1 == p + count * w
    ensures Repeat(s, p, count, step).Ok? ==> |Repeat(s, p, count, step).value.0| == count
  {
    if count > 0 {
      assert p + (count - 1) * w + w == p + count * w;
      RepeatSize(s, p, count - 1, w, step);
    }
  }

  /** The image byte order codes of the setup. */
  function ByteOrderOf(b: U8): (r: Option<Valued.ByteOrder>)
    ensures r.Some? <==> b <= 1
    ensures r.Some? ==> r.value.Val() == b
  {
    match b
    case 0 => Some(Valued.ByteOrder.LSBFirst)
    case 1 => Some(Valued.ByteOrder.MSBFirst)
    case _ => None
  }

  /** The bitmap bit order codes of the setup. */
  function BitOrderOf(b: U8): (r: Option<Valued.BitOrder>)
    ensures r.Some? <==> b <= 1
    ensures r.Some? ==> r.value.Val() == b
  {
    match b
    case 0 => Some(Valued.BitOrder.LeastSignificant)
    case 1 => Some(Valued.BitOrder.MostSignificant)
    case _ => None
  }

  /** The backing-stores codes of a screen. */
  function BackingStoresOf(b: U8): (r: Option<Valued.ScreenBackingStores>)
    ensures r.Some? <==> b <= 2
    ensures r.Some? ==> r.value.Val() == b
  {
    match b
    case 0 => Some(Valued.ScreenBackingStores.Never)
    case 1 => Some(Valued.ScreenBackingStores.WhenMapped)
    case 2 => Some(Valued.ScreenBackingStores.Always)
    case _ => None
  }

  /** The visual class codes. */
  function VisualClassOf(b: U8): (r: Option<Valued.VisualType>)
    ensures r.Some? <==> b <= 5
    ensures r.Some? ==> r.value.Val() == b
  {
    match b
    case 0 => Some(Valued.VisualType.StaticGray)
    case 1 => Some(Valued.VisualType.GrayScale)
    case 2 => Some(Valued.VisualType.StaticColor)
    case 3 => Some(Valued.VisualType.PseudoColor)
    case 4 => Some(Valued.VisualType.TrueColor)
    case 5 => Some(Valued.VisualType.DirectColor)
    case _ => None
  }

  /** A FORMAT: depth, bits per pixel, scanline pad, five unused bytes. */
  function FormatAt(s: Bytes, p: nat): Outcome<(Format, nat)> {
    var depth :- U8Step(s, p);
    var bitsPerPixel :- U8Step(s, depth.1);
    var scanlinePad :- U8Step(s, bitsPerPixel.1);
    Ok((Format(depth.0, bitsPerPixel.0, scanlinePad.0), Skip(|s|, scanlinePad.1, 5)))
  }

  /** A format is the three bytes at p and takes 8 bytes; it fails only when the stream ends before its third byte. */
  lemma FormatLayout(s: Bytes, p: nat)
    ensures FormatAt(s, p).Ok? <==> p + 3 <= |s|
    ensures FormatAt(s, p).Ok? ==> FormatAt(s, p).value == (Format(s[p], s[p + 1], s[p + 2]), Skip(|s|, p, 8))
    ensures FormatAt(s, p).Panic? ==> FormatAt(s, p).reason == UnexpectedEof
  {
  }

  /** Formats never fail while the stream holds them: `count` of them take `8 * count` bytes. */
  lemma {:induction false} FormatsFit(s: Bytes, p: nat, count: nat)
    requires p + 8 * count <= |s|
    ensures Repeat(s, p, count, FormatAt).Ok?
    ensures Repeat(s, p, count, FormatAt).value.1 == p + 8 * count
  {
    if count > 0 {
      FormatsFit(s, p, count - 1);
      FormatLayout(s, p + 8 * (count - 1));
    }
  }

  /** A VISUALTYPE: id, class, bits per RGB value, colormap entries, the three masks, four unused bytes. */
  function VisualAt(s: Bytes, p: nat): Outcome<(Visual, nat)> {
    var id :- U32Step(s, p);
    var code :- U8Step(s, id.1);
    match VisualClassOf(code.0)
    case None => Panic(UnknownVisualClass(code.0))
    case Some(visualClass) =>
      var bitsPerRgbValue :- U8Step(s, code.1);
      var colormapEntries :- U16Step(s, bitsPerRgbValue.1);
      var redMask :- U32Step(s, colormapEntries.1);
      var greenMask :- U32Step(s, redMask.1);
      var blueMask :- U32Step(s, greenMask.1);
      Ok((Visual(id.0, visualClass, bitsPerRgbValue.0, colormapEntries.0, redMask.0, greenMask.0, blueMask.0),
          Skip(|s|, blueMask.1, 4)))
  }

  /** A visual takes 24 bytes; its class code is at offset 4 and an unknown one panics. */
  lemma VisualLayout(s: Bytes, p: nat)
    ensures VisualAt(s, p).Ok? <==> p + 20 <= |s| && s[p + 4] <= 5
    ensures p + 5 <= |s| && s[p + 4] > 5 ==> VisualAt(s, p) == Panic(UnknownVisualClass(s[p + 4]))
    ensures VisualAt(s, p).Ok? ==> (VisualAt(s, p).value ==
      (Visual(U32At(s, p), VisualClassOf(s[p + 4]).value, s[p + 5], U16At(s, p + 6),
              U32At(s, p + 8), U32At(s, p + 12), U32At(s, p + 16)),
       Skip(|s|, p, 24)))
  {
  }

  /** A DEPTH: depth, unused, the visual count, four unused bytes, then the visuals. */
  function DepthAt(s: Bytes, p: nat): Outcome<(Depth, nat)> {
    var depth :- U8Step(s, p);
    var numVisuals :- U16Step(s, Skip(|s|, depth.1, 1));
    var visuals :- Repeat(s, Skip(|s|, numVisuals.1, 4), numVisuals.0, VisualAt);
    Ok((Depth(depth.0, numVisuals.0, visuals.0), visuals.1))
  }

  /** A depth has the count of visuals it announces; its header takes 8 bytes and each visual 24. */
  lemma DepthLayout(s: Bytes, p: nat)
    ensures DepthAt(s, p).Ok? ==> (p + 4 <= |s| && DepthAt(s, p).value.0.depth == s[p] &&
      DepthAt(s, p).value.0.numVisuals == U16At(s, p + 2) &&
      |DepthAt(s, p).value.0.visuals| == DepthAt(s, p).value.0.numVisuals)
    ensures DepthAt(s, p).Ok? && p + 8 + 24 * U16At(s, p + 2) <= |s| ==>
      DepthAt(s, p).value.1 == p + 8 + 24 * U16At(s, p + 2)
  {
    if p + 4 <= |s| {
      var nv: nat := U16At(s, p + 2);
      RepeatCount(s, Skip(|s|, p + 4, 4), nv, VisualAt);
      if p + 8 + 24 * nv <= |s| {
        forall q: nat | VisualAt(s, q).Ok? && q + 24 <= |s| ensures VisualAt(s, q).value.1 == q + 24 {
          VisualLayout(s, q);
        }
        RepeatSize(s, p + 8, nv, 24, VisualAt);
      }
    }
  }

  lemma {:induction false} RepeatCount<T>(s: Bytes, p: nat, count: nat, step: (Bytes, nat) -> Outcome<(T, nat)>)
    ensures Repeat(s, p, count, step).Ok? ==> |Repeat(s, p, count, step).value.0| == count
  {
    if count > 0 {
      RepeatCount(s, p, count - 1, step);
    }
  }

  /** A SCREEN: a 40-byte fixed part, then its depths. */
  function ScreenAt(s: Bytes, p: nat): Outcome<(Screen, nat)> {
    var root :- U32Step(s, p);
    var defaultColormap :- U32Step(s, root.1);
    var whitePixel :- U32Step(s, defaultColormap.1);
    var blackPixel :- U32Step(s, whitePixel.1);
    var currentInputMasks :- U32Step(s, blackPixel.1);
    var widthInPixels :- U16Step(s, currentInputMasks.1);
    var heightInPixels :- U16Step(s, widthInPixels.1);
    var widthInMillimeters :- U16Step(s, heightInPixels.1);
    var heightInMillimeters :- U16Step(s, widthInMillimeters.1);
    var minInstalledMaps :- U16Step(s, heightInMillimeters.1);
    var maxInstalledMaps :- U16Step(s, minInstalledMaps.1);
    var rootVisual :- U32Step(s, maxInstalledMaps.1);
    var code :- U8Step(s, rootVisual.1);
    match BackingStoresOf(code.0)
    case None => Panic(UnknownBackingStore(code.0))
    case Some(backingStores) =>
      var saveUnders :- BoolStep(s, code.1);
      var rootDepth :- U8Step(s, saveUnders.1);
      var numDepths :- U8Step(s, rootDepth.1);
      var depths :- Repeat(s, numDepths.1, numDepths.0, DepthAt);
      Ok((Screen(root.0, defaultColormap.0, whitePixel.0, blackPixel.0, currentInputMasks.0,
                 widthInPixels.0, heightInPixels.0, widthInMillimeters.0, heightInMillimeters.0,
                 minInstalledMaps.0, maxInstalledMaps.0, rootVisual.0, backingStores, saveUnders.0,
                 rootDepth.0, numDepths.0, depths.0),
          depths.1))
  }

  /**
   * The fixed part of a screen is 40 bytes at the offsets of the X11
   * encoding; an unknown backing-stores code or a save-unders byte other
   * than 0 or 1 panics, and the screen has the depths it announces.
   */
  lemma ScreenLayout(s: Bytes, p: nat)
    ensures ScreenAt(s, p).Ok? ==> (p + 40 <= |s| && s[p + 36] <= 2 && s[p + 37] <= 1 &&
      ScreenAt(s, p).value.0 ==
        Screen(U32At(s, p), U32At(s, p + 4), U32At(s, p + 8), U32At(s, p + 12), U32At(s, p + 16),
               U16At(s, p + 20), U16At(s, p + 22), U16At(s, p + 24), U16At(s, p + 26),
               U16At(s, p + 28), U16At(s, p + 30), U32At(s, p + 32), BackingStoresOf(s[p + 36]).value,
               s[p + 37] == 1, s[p + 38], s[p + 39], ScreenAt(s, p).value.0.depths) &&
      |ScreenAt(s, p).value.0.depths| == s[p + 39])
    ensures p + 37 <= |s| && s[p + 36] > 2 ==> ScreenAt(s, p) == Panic(UnknownBackingStore(s[p + 36]))
    ensures p + 38 <= |s| && s[p + 36] <= 2 && s[p + 37] > 1 ==> ScreenAt(s, p) == Panic(InvalidBool(s[p + 37]))
    ensures ScreenAt(s, p).Ok? && s[p + 39] == 0 ==> ScreenAt(s, p).value.1 == p + 40
  {
    if p + 40 <= |s| {
      RepeatCount(s, p + 40, s[p + 39], DepthAt);
    }
  }

  /** The 8-byte header of the setup reply: status, unused, protocol version, length of what follows. */
  function SetupHeadAt(s: Bytes, p: nat, info: ConnectInfo): Outcome<(ConnectInfo, nat)> {
    var statusCode :- U8Step(s, p);
    var major :- U16Step(s, Skip(|s|, statusCode.1, 1));
    var minor :- U16Step(s, major.1);
    var additional :- U16Step(s, minor.1);
    var _ :- SetupStatus(statusCode.0);
    Ok((info.(statusCode := statusCode.0, protocolMajorVersion := major.0,
              protocolMinorVersion := minor.0, additionalDataLen := additional.0),
        additional.1))
  }

  /** Only a header with status Success lets the parse go on; Failed and Authenticate panic. */
  lemma SetupHeadLayout(s: Bytes, p: nat, info: ConnectInfo)
    ensures SetupHeadAt(s, p, info).Ok? <==> p + 8 <= |s| && s[p] == StatusSuccess
    ensures SetupHeadAt(s, p, info).Ok? ==> (SetupHeadAt(s, p, info).value ==
      (info.(statusCode := StatusSuccess, protocolMajorVersion := U16At(s, p + 2),
             protocolMinorVersion := U16At(s, p + 4), additionalDataLen := U16At(s, p + 6)), p + 8))
    ensures p + 8 <= |s| && s[p] == StatusFailed ==> SetupHeadAt(s, p, info) == Panic(ConnectFailed)
    ensures p + 8 <= |s| && s[p] == StatusAuthenticate ==> SetupHeadAt(s, p, info) == Panic(ConnectAuthenticate)
    ensures p + 8 <= |s| && s[p] > 2 ==> SetupHeadAt(s, p, info) == Panic(UnexpectedStatus(s[p]))
  {
  }

  /**
   * The fixed part of a successful setup reply from offset 8 on (32 bytes),
   * the vendor string and what follows it up to the formats. As written the
   * vendor is followed by `vendor_length % 4` skipped bytes.
   */
  function SetupFixedAt(s: Bytes, p: nat, info: ConnectInfo): Outcome<(ConnectInfo, nat)> {
    var counts :- SetupCountsAt(s, p, info);
    SetupImageAt(s, counts.2, counts.0, counts.1)
  }

  /**
   * The first 22 bytes of the fixed part: release, resource-id base and
   * mask, motion buffer size, the vendor length (returned, not kept), the
   * maximum request length and the screen and format counts.
   */
  function SetupCountsAt(s: Bytes, p: nat, info: ConnectInfo): Outcome<(ConnectInfo, U16, nat)> {
    var releaseNumber :- U32Step(s, p);
    var resourceIdBase :- U32Step(s, releaseNumber.1);
    var resourceIdMask :- U32Step(s, resourceIdBase.1);
    var motionBufferSize :- U32Step(s, resourceIdMask.1);
    var vendorLength :- U16Step(s, motionBufferSize.1);
    var maxRequestLength :- U16Step(s, vendorLength.1);
    var numScreens :- U8Step(s, maxRequestLength.1);
    var numFormats :- U8Step(s, numScreens.1);
    Ok((info.(releaseNumber := releaseNumber.0, resourceIdBase := resourceIdBase.0,
              resourceIdMask := resourceIdMask.0, motionBufferSize := motionBufferSize.0,
              maxRequestLength := maxRequestLength.0, numScreens := numScreens.0, numFormats := numFormats.0),
        vendorLength.0, numFormats.1))
  }

  /**
   * The rest of the fixed part, eight bytes from the image byte order on
   * (an unknown byte order or bit order panics), four unused bytes, then
   * the vendor and the skip after it.
   */
  function SetupImageAt(s: Bytes, p: nat, info: ConnectInfo, vendorLength: U16): Outcome<(ConnectInfo, nat)> {
    var byteOrderCode :- U8Step(s, p);
    match ByteOrderOf(byteOrderCode.0)
    case None => Panic(UnknownByteOrder(byteOrderCode.0))
    case Some(imageByteOrder) =>
      var bitOrderCode :- U8Step(s, byteOrderCode.1);
      match BitOrderOf(bitOrderCode.0)
      case None => Panic(UnknownBitOrder(bitOrderCode.0))
      case Some(bitOrder) =>
        var scanlineUnit :- U8Step(s, bitOrderCode.1);
        var scanlinePad :- U8Step(s, scanlineUnit.1);
        var minKeycode :- U8Step(s, scanlinePad.1);
        var maxKeycode :- U8Step(s, minKeycode.1);
        var vendor :- BytesStep(s, Skip(|s|, maxKeycode.1, 4), vendorLength);
        Ok((info.(imageByteOrder := imageByteOrder, bitmapFormatBitOrder := bitOrder,
                  bitmapFormatScanlineUnit := scanlineUnit.0, bitmapFormatScanlinePad := scanlinePad.0,
                  minKeycode := minKeycode.0, maxKeycode := maxKeycode.0, vendor := vendor.0),
            Skip(|s|, vendor.1, vendorLength % 4)))
  }

  /**
   * The fields of the fixed part are at the offsets of the X11 encoding;
   * unknown byte-order and bit-order codes panic; formats and screens are
   * left as they were.
   */
  lemma SetupFixedLayout(s: Bytes, p: nat, info: ConnectInfo)
    ensures SetupFixedAt(s, p, info).Ok? ==> (p + 28 <= |s| &&
      SetupFixedAt(s, p, info).value.0 ==
        info.(releaseNumber := U32At(s, p), resourceIdBase := U32At(s, p + 4),
              resourceIdMask := U32At(s, p + 8), motionBufferSize := U32At(s, p + 12),
              maxRequestLength := U16At(s, p + 18), numScreens := s[p + 20], numFormats := s[p + 21],
              imageByteOrder := ByteOrderOf(s[p + 22]).value, bitmapFormatBitOrder := BitOrderOf(s[p + 23]).value,
              bitmapFormatScanlineUnit := s[p + 24], bitmapFormatScanlinePad := s[p + 25],
              minKeycode := s[p + 26], maxKeycode := s[p + 27],
              vendor := SetupFixedAt(s, p, info).value.0.vendor) &&
      |SetupFixedAt(s, p, info).value.0.vendor| == U16At(s, p + 16))
    ensures p + 23 <= |s| && s[p + 22] > 1 ==> SetupFixedAt(s, p, info) == Panic(UnknownByteOrder(s[p + 22]))
    ensures p + 24 <= |s| && s[p + 22] <= 1 && s[p + 23] > 1 ==>
      SetupFixedAt(s, p, info) == Panic(UnknownBitOrder(s[p + 23]))
  {
  }

  /**
   * Where the fixed part ends when the stream holds it all: 32 bytes, the
   * vendor, and `vendor_length % 4` more (the X11 encoding pads the vendor
   * to a multiple of four instead; the two agree only when the length is
   * even).
   */
  lemma SetupFixedEnd(s: Bytes, p: nat, info: ConnectInfo)
    requires p + 32 <= |s|
    requires p + 32 + U16At(s, p + 16) + U16At(s, p + 16) % 4 <= |s|
    requires SetupFixedAt(s, p, info).Ok?
    ensures SetupFixedAt(s, p, info).value.1 == p + 32 + U16At(s, p + 16) + U16At(s, p + 16) % 4
    ensures SetupFixedAt(s, p, info).value.0.vendor == s[p + 32..p + 32 + U16At(s, p + 16)]
  {
  }

  /** The status of the setup reply: only Success lets the client go on. */
  function SetupStatus(code: U8): (r: Outcome<()>)
    ensures r.Ok? <==> code == StatusSuccess
  {
    match code
    case 1 => Ok(())
    case 0 => Panic(ConnectFailed)
    case 2 => Panic(ConnectAuthenticate)
    case _ => Panic(UnexpectedStatus(code))
  }

  /** The formats of the setup, appended to those `info` holds. */
  function FormatsAt(s: Bytes, p: nat, info: ConnectInfo): Outcome<(ConnectInfo, nat)> {
    var formats :- Repeat(s, p, info.numFormats, FormatAt);
    Ok((info.(formats := info.formats + formats.0), formats.1))
  }

  /** The screens of the setup, appended to those `info` holds. */
  function ScreensAt(s: Bytes, p: nat, info: ConnectInfo): Outcome<(ConnectInfo, nat)> {
    var screens :- Repeat(s, p, info.numScreens, ScreenAt);
    Ok((info.(screens := info.screens + screens.0), screens.1))
  }

  /**
   * The whole setup reply at offset p, on top of the connection information
   * `info` the client held before: the 8-byte header, the fixed part, the
   * formats and the screens. Formats and screens are appended to those
   * already held.
   */
  function SetupReplyAt(s: Bytes, p: nat, info: ConnectInfo): Outcome<(ConnectInfo, nat)> {
    var head :- SetupHeadAt(s, p, info);
    var fixed :- SetupFixedAt(s, head.1, head.0);
    var formats :- FormatsAt(s, fixed.1, fixed.0);
    ScreensAt(s, formats.1, formats.0)
  }

  /**
   * A successful setup keeps what was held before and adds exactly the
   * announced number of formats and screens, with status Success.
   */
  lemma SetupReplyCounts(s: Bytes, p: nat, info: ConnectInfo)
    requires SetupReplyAt(s, p, info).Ok?
    ensures var r := SetupReplyAt(s, p, info).value.0;
      r.statusCode == StatusSuccess &&
      |r.formats| == |info.formats| + r.numFormats && r.formats[..|info.formats|] == info.formats &&
      |r.screens| == |info.screens| + r.numScreens && r.screens[..|info.screens|] == info.screens
  {
    var head := SetupHeadAt(s, p, info).value;
    SetupHeadLayout(s, p, info);
    var fixed := SetupFixedAt(s, head.1, head.0).value;
    var formats := Repeat(s, fixed.1, fixed.0.numFormats, FormatAt).value;
    RepeatCount(s, fixed.1, fixed.0.numFormats, FormatAt);
    var info2 := fixed.0.(formats := fixed.0.formats + formats.0);
    RepeatCount(s, formats.1, info2.numScreens, ScreenAt);
    assert (info.formats + formats.0)[..|info.formats|] == info.formats;
  }

  /** A setup reply whose status is not Success panics. */
  lemma SetupReplyStatus(s: Bytes, p: nat, info: ConnectInfo)
    requires p + 8 <= |s| && s[p] != StatusSuccess
    ensures SetupReplyAt(s, p, info).Panic?
  {
    SetupHeadLayout(s, p, info);
  }

  /** Pushing onto a list that already had `read` appended. */
  lemma SnocAssoc<T>(a: seq<T>, read: seq<T>, x: T)
    ensures a + read + [x] == a + (read + [x])
  {
  }

  /** OR-ing a higher flag bit into a mask of lower bits adds it. */
  lemma FlagBit(a: U8, b: U8)
    requires (b == 1 || b == 2 || b == 4) && a < b
    ensures Or8(a, b) == a + b
  {
    if a == 0 {
    } else if a == 1 {
    } else if a == 2 {
    } else {
      assert a == 3;
    }
  }

  // ---------------------------------------------------------------------------
  // The client

  /**
   * `XClient`. The socket is `out`, the bytes written so far, and `input`,
   * the bytes the server sends, read from `pos` on. The three scratch
   * buffers are the one-, two- and four-byte vectors that the fixed-width
   * writers and readers go through; write_pad of one, two or four bytes
   * sends whatever they hold.
   */
  class XClient {
    var connected: bool
    var connectInfo: ConnectInfo
    var out: Bytes
    const input: Bytes
    var pos: nat
    const buf1: array<U8>
    const buf2: array<U8>
    const buf4: array<U8>
    var nextResourceId: U32

    ghost predicate Valid()
      reads this
    {
      buf1.Length == 1 && buf2.Length == 2 && buf4.Length == 4 &&
      buf1 != buf2 && buf1 != buf4 && buf2 != buf4 &&
      pos <= |input|
    }

    /** `XClient::new` on a connection whose server sends `input`. */
    constructor (input: Bytes)
      ensures Valid() && fresh(buf1) && fresh(buf2) && fresh(buf4)
      ensures !connected && connectInfo == EmptyConnectInfo && nextResourceId == 0
      ensures out == [] && this.input == input && pos == 0
      ensures Holds1(0) && Holds2([0, 0]) && Holds4([0, 0, 0, 0])
    {
      connected := false;
      connectInfo := EmptyConnectInfo;
      out := [];
      this.input := input;
      pos := 0;
      buf1 := new U8[1](_ => 0);
      buf2 := new U8[2](_ => 0);
      buf4 := new U8[4](_ => 0);
      nextResourceId := 0;
    }

    /** The one-byte scratch buffer holds `b`. */
    ghost predicate Holds1(b: U8)
      reads this, buf1
      requires Valid()
    {
      buf1[0] == b
    }

    /** The two-byte scratch buffer holds `w`. */
    ghost predicate Holds2(w: Bytes)
      reads this, buf2
      requires Valid() && |w| == 2
    {
      buf2[0] == w[0] && buf2[1] == w[1]
    }

    /** The four-byte scratch buffer holds `w`. */
    ghost predicate Holds4(w: Bytes)
      reads this, buf4
      requires Valid() && |w| == 4
    {
      buf4[0] == w[0] && buf4[1] == w[1] && buf4[2] == w[2] && buf4[3] == w[3]
    }

    /** The two-byte scratch buffer holds the two bytes of `s` at offset k. */
    ghost predicate Holds2At(s: Bytes, k: nat)
      reads this, buf2
      requires Valid() && k + 2 <= |s|
    {
      buf2[0] == s[k] && buf2[1] == s[k + 1]
    }

    /** The four-byte scratch buffer holds the four bytes of `s` at offset k. */
    ghost predicate Holds4At(s: Bytes, k: nat)
      reads this, buf4
      requires Valid() && k + 4 <= |s|
    {
      buf4[0] == s[k] && buf4[1] == s[k + 1] && buf4[2] == s[k + 2] && buf4[3] == s[k + 3]
    }

    /** What write_pad(len) sends: a scratch buffer for 1, 2 and 4, zeros otherwise. */
    function PadBytes(len: nat): (r: Bytes)
      reads this, buf1, buf2, buf4
      requires Valid()
      ensures |r| == len
    {
      if len == 1 then [buf1[0]]
      else if len == 2 then [buf2[0], buf2[1]]
      else if len == 4 then [buf4[0], buf4[1], buf4[2], buf4[3]]
      else Zeros(len)
    }

    // -------------------------------------------------------------------------
    // Writers

    /** `write_pad`: a zero length panics. */
    method WritePad(len: nat) returns (r: Outcome<()>)
      requires Valid()
      modifies this`out
      ensures Valid()
      ensures r.Ok? <==> len != 0
      ensures r.Panic? ==> r.reason == ZeroLengthPad && out == old(out)
      ensures r.Ok? ==> out == old(out) + PadBytes(len)
    {
      if len == 0 {
        return Panic(ZeroLengthPad);
      }
      out := out + PadBytes(len);
      return Ok(());
    }

    method WriteU8(x: U8)
      requires Valid()
      modifies this`out, buf1
      ensures Valid() && out == old(out) + [x] && Holds1(x)
    {
      buf1[0] := x;
      out := out + [buf1[0]];
    }

    method WriteBool(b: bool)
      requires Valid()
      modifies this`out, buf1
      ensures Valid() && out == old(out) + [BoolByte(b)] && Holds1(BoolByte(b))
    {
      buf1[0] := if b then 1 else 0;
      out := out + [buf1[0]];
    }

    method WriteU16(x: U16)
      requires Valid()
      modifies this`out, buf2
      ensures Valid() && out == old(out) + Le16(x) && Holds2(Le16(x))
    {
      buf2[0] := TruncU8(x);
      buf2[1] := TruncU8(x / 0x100);
      out := out + [buf2[0], buf2[1]];
    }

    method WriteI16(x: I16)
      requires Valid()
      modifies this`out, buf2
      ensures Valid() && out == old(out) + Le16(TruncU16(x)) && Holds2(Le16(TruncU16(x)))
    {
      WriteU16(TruncU16(x));
    }

    method WriteU32(x: U32)
      requires Valid()
      modifies this`out, buf4
      ensures Valid() && out == old(out) + Le32(x) && Holds4(Le32(x))
    {
      buf4[0] := TruncU8(x);
      buf4[1] := TruncU8(x / 0x100);
      buf4[2] := TruncU8(x / 0x1_0000);
      buf4[3] := TruncU8(x / 0x100_0000);
      out := out + [buf4[0], buf4[1], buf4[2], buf4[3]];
    }

    method WriteI32(x: I32)
      requires Valid()
      modifies this`out, buf4
      ensures Valid() && out == old(out) + Le32(TruncU32(x)) && Holds4(Le32(TruncU32(x)))
    {
      WriteU32(TruncU32(x));
    }

    /** `write_val`: every value of a LISTofVALUE takes one 4-byte word. */
    method WriteVal(x: U32)
      requires Valid()
      modifies this`out, buf4
      ensures Valid() && out == old(out) + Le32(x) && Holds4(Le32(x))
    {
      WriteU32(x);
    }

    method WriteValBool(b: bool)
      requires Valid()
      modifies this`out, buf4
      ensures Valid() && out == old(out) + Le32(BoolByte(b)) && Holds4(Le32(BoolByte(b)))
    {
      if b {
        WriteVal(1);
      } else {
        WriteVal(0);
      }
    }

    method WriteValU8(x: U8)
      requires Valid()
      modifies this`out, buf4
      ensures Valid() && out == old(out) + Le32(x) && Holds4(Le32(x))
    {
      WriteVal(x);
    }

    /** `write_val_i16` goes through u16, so a negative value is sign-extended only to 16 bits. */
    method WriteValI16(x: I16)
      requires Valid()
      modifies this`out, buf4
      ensures Valid() && out == old(out) + Le32(TruncU16(x)) && Holds4(Le32(TruncU16(x)))
    {
      WriteValU16(TruncU16(x));
    }

    method WriteValU16(x: U16)
      requires Valid()
      modifies this`out, buf4
      ensures Valid() && out == old(out) + Le32(x) && Holds4(Le32(x))
    {
      WriteVal(x);
    }

    method WriteValI32(x: I32)
      requires Valid()
      modifies this`out, buf4
      ensures Valid() && out == old(out) + Le32(TruncU32(x)) && Holds4(Le32(TruncU32(x)))
    {
      WriteVal(TruncU32(x));
    }

    method WriteValU32(x: U32)
      requires Valid()
      modifies this`out, buf4
      ensures Valid() && out == old(out) + Le32(x) && Holds4(Le32(x))
    {
      WriteVal(x);
    }

    /** `write_char` on the byte that stands for the character. */
    method WriteChar(c: U8)
      requires Valid()
      modifies this`out, buf1
      ensures Valid() && out == old(out) + [c] && Holds1(c)
    {
      WriteU8(c);
    }

    /** `write_i8`: the byte of `x as u8`. */
    method WriteI8(x: I8)
      requires Valid()
      modifies this`out, buf1
      ensures Valid() && out == old(out) + [TruncU8(x)] && Holds1(TruncU8(x))
    {
      WriteU8(TruncU8(x));
    }

    /** `write_str` and `write_raw`: the bytes as they are, past the scratch buffers. */
    method WriteRaw(bytes: Bytes)
      requires Valid()
      modifies this`out
      ensures Valid() && out == old(out) + bytes
    {
      out := out + bytes;
    }

    /** The `write` of one value of a LISTofVALUE. */
    method WriteValue(v: Value)
      requires Valid()
      modifies this`out, buf1, buf2, buf4
      ensures Valid() && out == old(out) + v.Bytes()
    {
      match v
      case OfWindow(w) => WriteVal(w.Word());
      case OfGraphicsContext(g) => WriteVal(g.Word());
      case OfKeyboardControl(k) =>
        match k
        case KeyClickPercent(x) => WriteU8(x);
        case BellPercent(x) => WriteU8(x);
        case BellPitch(x) => WriteI16(x);
        case BellDuration(x) => WriteI16(x);
        case Led(x) => WriteU8(x);
        case LedMode(m) => WriteU8(m.Val());
        case Key(c) => WriteChar(c);
        case AutoRepeatMode(m) => WriteU8(m.Val());
    }

    /**
     * The first loop of `write_values`: the OR of the masks, and the order
     * built by inserting each index before the first entry with a larger mask.
     */
    static method OrderValues(values: seq<Value>) returns (mask: U32, order: seq<nat>)
      ensures mask == MaskOr(Masks(values), |values|) && order == InsertionOrder(Masks(values), |values|)
    {
      ghost var masks := Masks(values);
      mask := 0;
      order := [];
      for i := 0 to |values|
        invariant mask == MaskOr(masks, i)
        invariant order == InsertionOrder(masks, i) && Indexes(order, |values|)
      {
        var ordered := values[i].GetMask();
        mask := Or32(mask, ordered);
        var pos := InsertPosition(values, order, ordered);
        InsertionOrderSnoc(masks, i, pos);
        var entry: seq<nat> := [i];
        if pos < |order| {
          order := order[..pos] + entry + order[pos..];
        } else {
          entry := [pos];
          order := order + entry;
        }
      }
    }

    /** The inner loop of the first loop of `write_values`: the first entry of `order` with a larger mask than `m`. */
    static method InsertPosition(values: seq<Value>, order: seq<nat>, m: U32) returns (pos: nat)
      requires Indexes(order, |values|)
      ensures pos == FirstAbove(order, Masks(values), m)
    {
      ghost var masks := Masks(values);
      pos := |order|;
      var j := 0;
      while j < |order|
        invariant j <= |order| && pos == |order|
        invariant forall k :: 0 <= k < j ==> masks[order[k]] <= m
      {
        if m < values[order[j]].GetMask() {
          pos := j;
          break;
        }
        j := j + 1;
      }
      FirstAboveAt(order, masks, m, pos);
    }

    /** `write_values`: the OR of the masks, then each value once, in ascending mask order. */
    method WriteValues(values: seq<Value>)
      requires Valid()
      modifies this`out, buf1, buf2, buf4
      ensures Valid() && out == old(out) + ValueList(values)
    {
      var mask, order := OrderValues(values);
      WriteU32(mask);
      WriteInOrder(values, order);
      AppendAssoc(old(out), Le32(mask), Sent(values, order, |order|));
    }

    /** The second loop of `write_values`: each value's `write`, in the order found. */
    method WriteInOrder(values: seq<Value>, order: seq<nat>)
      requires Valid() && Indexes(order, |values|)
      modifies this`out, buf1, buf2, buf4
      ensures Valid() && out == old(out) + Sent(values, order, |order|)
    {
      for k := 0 to |order|
        invariant Valid()
        invariant out == old(out) + Sent(values, order, k)
      {
        WriteValue(values[order[k]]);
        AppendAssoc(old(out), Sent(values, order, k), values[order[k]].Bytes());
      }
    }

    // -------------------------------------------------------------------------
    // Requests

    method CreateWindow(window: Window)
      requires Valid()
      modifies this`out, buf1, buf2, buf4
      ensures Valid()
      ensures out == old(out) + old(CreateWindowRequest(window.depth, window.wid, window.parent, window.x, window.y,
        window.width, window.height, window.borderWidth, window.windowClass, window.visualId, window.values))
    {
      var depth, wid, parent, x, y := window.depth, window.wid, window.parent, window.x, window.y;
      var width, height, borderWidth := window.width, window.height, window.borderWidth;
      var windowClass, visualId, values := window.windowClass, window.visualId, window.values;
      WriteU8(OpCreateWindow);
      ghost var head: Bytes := [OpCreateWindow];
      WriteU8(depth);
      AppendAssoc(old(out), head, [depth]);
      head := head + [depth];
      WriteU16(TruncU16(8 + TruncU16(|values|)));
      AppendAssoc(old(out), head, Le16(TruncU16(8 + TruncU16(|values|))));
      head := head + Le16(TruncU16(8 + TruncU16(|values|)));
      ghost var start := out;
      WriteWindowFields(wid, parent, x, y, width, height, borderWidth, windowClass, visualId);
      ghost var body := WindowFields(wid, parent, x, y, width, height, borderWidth, windowClass, visualId);
      WriteValues(WindowValues(values));
      AppendAssoc(start, body, ValueList(WindowValues(values)));
      body := body + ValueList(WindowValues(values));
      AppendAssoc(old(out), head, body);
    }

    /** The field writes of `create_window` between the length and the values. */
    method WriteWindowFields(wid: U32, parent: U32, x: I16, y: I16, width: U16, height: U16, borderWidth: U16,
                             windowClass: Valued.WindowInputType, visualId: U32)
      requires Valid()
      modifies this`out, buf2, buf4
      ensures Valid()
      ensures out == old(out) + WindowFields(wid, parent, x, y, width, height, borderWidth, windowClass, visualId)
      ensures Holds2(Le16(InputClassCode(windowClass))) && Holds4(Le32(visualId))
    {
      WriteU32(wid);
      ghost var body: Bytes := Le32(wid);
      WriteU32(parent);
      AppendAssoc(old(out), body, Le32(parent));
      body := body + Le32(parent);
      WriteI16(x);
      AppendAssoc(old(out), body, Le16(TruncU16(x)));
      body := body + Le16(TruncU16(x));
      WriteI16(y);
      AppendAssoc(old(out), body, Le16(TruncU16(y)));
      body := body + Le16(TruncU16(y));
      WriteU16(width);
      AppendAssoc(old(out), body, Le16(width));
      body := body + Le16(width);
      WriteU16(height);
      AppendAssoc(old(out), body, Le16(height));
      body := body + Le16(height);
      WriteU16(borderWidth);
      AppendAssoc(old(out), body, Le16(borderWidth));
      body := body + Le16(borderWidth);
      WriteU16(InputClassCode(windowClass));
      AppendAssoc(old(out), body, Le16(InputClassCode(windowClass)));
      body := body + Le16(InputClassCode(windowClass));
      WriteU32(visualId);
      AppendAssoc(old(out), body, Le32(visualId));
      body := body + Le32(visualId);
    }

    method ChangeWindowAttributes(wid: U32, values: seq<WindowValue>)
      requires Valid()
      modifies this`out, buf1, buf2, buf4
      ensures Valid() && out == old(out) + ChangeWindowAttributesRequest(wid, values)
    {
      WriteU8(OpChangeWindowAttributes);
      ghost var head: Bytes := [OpChangeWindowAttributes];
      var _ := WritePad(1);
      AppendAssoc(old(out), head, [OpChangeWindowAttributes]);
      head := head + [OpChangeWindowAttributes];
      WriteU16(TruncU16(3 + TruncU16(|values|)));
      AppendAssoc(old(out), head, Le16(TruncU16(3 + TruncU16(|values|))));
      head := head + Le16(TruncU16(3 + TruncU16(|values|)));
      ghost var start := out;
      WriteU32(wid);
      ghost var body: Bytes := Le32(wid);
      WriteValues(WindowValues(values));
      AppendAssoc(start, body, ValueList(WindowValues(values)));
      body := body + ValueList(WindowValues(values));
      AppendAssoc(old(out), head, body);
    }

    /** `Window::change`: the window's attribute list is replaced, then sent with change_window_attributes. */
    method ChangeWindow(w: Window, values: seq<WindowValue>)
      requires Valid()
      modifies w, this`out, buf1, buf2, buf4
      ensures Valid() && w.values == values
      ensures out == old(out) + ChangeWindowAttributesRequest(w.wid, values)
      ensures w.wid == old(w.wid)
    {
      w.Change(values);
      ChangeWindowAttributes(w.wid, w.values);
    }

    /** `Window::set`: one attribute is replaced in place or appended, then the whole list is sent. */
    method SetWindow(w: Window, value: WindowValue)
      requires Valid()
      modifies w, this`out, buf1, buf2, buf4
      ensures Valid() && w.values == Updated(old(w.values), value, WindowKind)
      ensures out == old(out) + ChangeWindowAttributesRequest(w.wid, w.values)
      ensures w.wid == old(w.wid)
    {
      w.Set(value);
      ChangeWindowAttributes(w.wid, w.values);
    }

    method GetWindowAttributes(wid: U32)
      requires Valid()
      modifies this`out, buf1, buf2, buf4
      ensures Valid() && out == old(out) + GetWindowAttributesRequest(wid)
    {
      WriteU8(OpGetWindowAttributes);
      ghost var sent: Bytes := [OpGetWindowAttributes];
      var _ := WritePad(1);
      AppendAssoc(old(out), sent, [OpGetWindowAttributes]);
      sent := sent + [OpGetWindowAttributes];
      WriteU16(2);
      AppendAssoc(old(out), sent, Le16(2));
      sent := sent + Le16(2);
      WriteU32(wid);
      AppendAssoc(old(out), sent, Le32(wid));
      sent := sent + Le32(wid);
    }

    method MapWindow(window: U32)
      requires Valid()
      modifies this`out, buf1, buf2, buf4
      ensures Valid() && out == old(out) + MapWindowRequest(window)
    {
      WriteU8(OpMapWindow);
      ghost var sent: Bytes := [OpMapWindow];
      var _ := WritePad(1);
      AppendAssoc(old(out), sent, [OpMapWindow]);
      sent := sent + [OpMapWindow];
      WriteU16(2);
      AppendAssoc(old(out), sent, Le16(2));
      sent := sent + Le16(2);
      WriteU32(window);
      AppendAssoc(old(out), sent, Le32(window));
      sent := sent + Le32(window);
    }

    method CreatePixmap(pixmap: Pixmap)
      requires Valid()
      modifies this`out, buf1, buf2, buf4
      ensures Valid() && out == old(out) + CreatePixmapRequest(pixmap)
    {
      WriteU8(OpCreatePixmap);
      ghost var sent: Bytes := [OpCreatePixmap];
      WriteU8(pixmap.depth);
      AppendAssoc(old(out), sent, [pixmap.depth]);
      sent := sent + [pixmap.depth];
      WriteU16(4);
      AppendAssoc(old(out), sent, Le16(4));
      sent := sent + Le16(4);
      WriteU32(pixmap.pid);
      AppendAssoc(old(out), sent, Le32(pixmap.pid));
      sent := sent + Le32(pixmap.pid);
      WriteU32(pixmap.drawable);
      AppendAssoc(old(out), sent, Le32(pixmap.drawable));
      sent := sent + Le32(pixmap.drawable);
      WriteU16(pixmap.width);
      AppendAssoc(old(out), sent, Le16(pixmap.width));
      sent := sent + Le16(pixmap.width);
      WriteU16(pixmap.height);
      AppendAssoc(old(out), sent, Le16(pixmap.height));
      sent := sent + Le16(pixmap.height);
    }

    method CreateGc(gc: GraphicsContext)
      requires Valid()
      modifies this`out, buf1, buf2, buf4
      ensures Valid() && out == old(out) + CreateGcRequest(gc.gcid, gc.drawable, gc.values)
    {
      var gcid, drawable, values := gc.gcid, gc.drawable, gc.values;
      WriteU8(OpCreateGc);
      ghost var head: Bytes := [OpCreateGc];
      var _ := WritePad(1);
      AppendAssoc(old(out), head, [OpCreateGc]);
      head := head + [OpCreateGc];
      WriteU16(TruncU16(4 + TruncU16(|values|)));
      AppendAssoc(old(out), head, Le16(TruncU16(4 + TruncU16(|values|))));
      head := head + Le16(TruncU16(4 + TruncU16(|values|)));
      ghost var start := out;
      WriteU32(gcid);
      ghost var body: Bytes := Le32(gcid);
      WriteU32(drawable);
      AppendAssoc(start, body, Le32(drawable));
      body := body + Le32(drawable);
      WriteValues(GraphicsContextValues(values));
      AppendAssoc(start, body, ValueList(GraphicsContextValues(values)));
      body := body + ValueList(GraphicsContextValues(values));
      AppendAssoc(old(out), head, body);
    }

    /** The connection request: the first half of `connect`. */
    method SendConnect()
      requires Valid()
      modifies this`out, buf1, buf2, buf4
      ensures Valid() && out == old(out) + ConnectRequest()
    {
      WriteU8(ConnectLsb);
      ghost var sent: Bytes := [ConnectLsb];
      var _ := WritePad(1);
      AppendAssoc(old(out), sent, [ConnectLsb]);
      sent := sent + [ConnectLsb];
      WriteU16(ConnectMajor);
      AppendAssoc(old(out), sent, Le16(ConnectMajor));
      sent := sent + Le16(ConnectMajor);
      WriteU16(ConnectMinor);
      AppendAssoc(old(out), sent, Le16(ConnectMinor));
      sent := sent + Le16(ConnectMinor);
      WriteU16(0);
      AppendAssoc(old(out), sent, Le16(0));
      sent := sent + Le16(0);
      WriteU16(0);
      AppendAssoc(old(out), sent, Le16(0));
      sent := sent + Le16(0);
      var _ := WritePad(1);
      AppendAssoc(old(out), sent, [ConnectLsb]);
      sent := sent + [ConnectLsb];
      var _ := WritePad(1);
      AppendAssoc(old(out), sent, [ConnectLsb]);
      sent := sent + [ConnectLsb];
    }

    /**
     * `new_resource_id`: the base OR'd with the counter, and the counter
     * moves on by one; a counter past the resource-id mask panics.
     */
    method NewResourceId() returns (r: Outcome<U32>)
      requires Valid()
      modifies this`nextResourceId
      ensures Valid()
      ensures r.Panic? <==> old(nextResourceId) > connectInfo.resourceIdMask
      ensures r.Panic? ==> r.reason == OutOfResourceIds && nextResourceId == old(nextResourceId)
      ensures r.Ok? ==> r.value == Or32(connectInfo.resourceIdBase, old(nextResourceId))
      ensures r.Ok? ==> nextResourceId == TruncU32(old(nextResourceId) + 1)
    {
      var id := nextResourceId;
      if id > connectInfo.resourceIdMask {
        return Panic(OutOfResourceIds);
      }
      nextResourceId := TruncU32(nextResourceId + 1);
      return Ok(Or32(connectInfo.resourceIdBase, id));
    }

    // -------------------------------------------------------------------------
    // Readers

    /**
     * `read_pad`: `BufRead::consume`, which never fails. The whole input is taken
     * to be buffered already, so the cursor moves on by `len` or to the end.
     */
    method ReadPad(len: nat)
      requires Valid()
      modifies this`pos
      ensures Valid() && pos == Skip(|input|, old(pos), len)
    {
      pos := Skip(|input|, pos, len);
    }

    /** `read_u8`, through the one-byte scratch buffer. */
    method ReadU8() returns (r: Outcome<U8>)
      requires Valid()
      modifies this`pos, buf1
      ensures Valid() && WithPos(r, pos) == U8Step(input, old(pos))
      ensures old(pos) + 1 <= |input| ==> Holds1(input[old(pos)])
    {
      if pos + 1 > |input| {
        return Panic(UnexpectedEof);
      }
      buf1[0] := input[pos];
      pos := pos + 1;
      r := Ok(buf1[0]);
    }

    /** `read_bool`: 0 is false, 1 is true, any other byte panics. */
    method ReadBool() returns (r: Outcome<bool>)
      requires Valid()
      modifies this`pos, buf1
      ensures Valid() && WithPos(r, pos) == BoolStep(input, old(pos))
      ensures old(pos) + 1 <= |input| ==> Holds1(input[old(pos)])
    {
      var b :- ReadU8();
      r := BoolOf(b);
    }

    /** `read_char`: the byte as a code point, kept as the byte. */
    method ReadChar() returns (r: Outcome<U8>)
      requires Valid()
      modifies this`pos, buf1
      ensures Valid() && WithPos(r, pos) == U8Step(input, old(pos))
      ensures old(pos) + 1 <= |input| ==> Holds1(input[old(pos)])
    {
      r := ReadU8();
    }

    /** `read_u16`: two bytes, least significant first. */
    method ReadU16() returns (r: Outcome<U16>)
      requires Valid()
      modifies this`pos, buf2
      ensures Valid() && WithPos(r, pos) == U16Step(input, old(pos))
      ensures old(pos) + 2 <= |input| ==> Holds2At(input, old(pos))
    {
      if pos + 2 > |input| {
        return Panic(UnexpectedEof);
      }
      buf2[0] := input[pos];
      buf2[1] := input[pos + 1];
      pos := pos + 2;
      r := Ok(buf2[0] as int + buf2[1] as int * 0x100);
    }

    /** `read_i16`: the two's-complement view of read_u16. */
    method ReadI16() returns (r: Outcome<I16>)
      requires Valid()
      modifies this`pos, buf2
      ensures Valid() && WithPos(r, pos) == I16Step(input, old(pos))
      ensures old(pos) + 2 <= |input| ==> Holds2At(input, old(pos))
    {
      var x :- ReadU16();
      r := Ok(U16AsI16(x));
    }

    /** `read_u32`: four bytes, least significant first. */
    method ReadU32() returns (r: Outcome<U32>)
      requires Valid()
      modifies this`pos, buf4
      ensures Valid() && WithPos(r, pos) == U32Step(input, old(pos))
      ensures old(pos) + 4 <= |input| ==> Holds4At(input, old(pos))
    {
      if pos + 4 > |input| {
        return Panic(UnexpectedEof);
      }
      buf4[0] := input[pos];
      buf4[1] := input[pos + 1];
      buf4[2] := input[pos + 2];
      buf4[3] := input[pos + 3];
      pos := pos + 4;
      r := Ok(buf4[0] as int + buf4[1] as int * 0x100 + buf4[2] as int * 0x1_0000 + buf4[3] as int * 0x100_0000);
    }

    /** `read_str`: `len` bytes, kept as bytes. */
    method ReadStr(len: nat) returns (r: Outcome<Bytes>)
      requires Valid()
      modifies this`pos
      ensures Valid() && WithPos(r, pos) == BytesStep(input, old(pos), len)
    {
      if pos + len > |input| {
        return Panic(UnexpectedEof);
      }
      r := Ok(input[pos..pos + len]);
      pos := pos + len;
    }

    /** `read_error`: the body of an error after its code byte, against ErrorAt. */
    method ReadError(code: U8) returns (r: Outcome<Option<ServerError>>)
      requires Valid()
      modifies this`pos, buf1, buf2, buf4
      ensures Valid() && WithPos(r, pos) == ErrorAt(input, old(pos), code)
    {
      var info :- ReadU32();
      var minorOpcode :- ReadU16();
      var majorOpcode :- ReadU8();
      ReadPad(21);
      r := Ok(ErrorOf(code, info, minorOpcode, majorOpcode));
    }

    // -------------------------------------------------------------------------
    // The parse half of `connect`

    method ReadFormat() returns (r: Outcome<Format>)
      requires Valid()
      modifies this`pos, buf1
      ensures Valid() && WithPos(r, pos) == FormatAt(input, old(pos))
    {
      var depth :- ReadU8();
      var bitsPerPixel :- ReadU8();
      var scanlinePad :- ReadU8();
      ReadPad(5);
      r := Ok(Format(depth, bitsPerPixel, scanlinePad));
    }

    method ReadVisual() returns (r: Outcome<Visual>)
      requires Valid()
      modifies this`pos, buf1, buf2, buf4
      ensures Valid() && WithPos(r, pos) == VisualAt(input, old(pos))
    {
      var id :- ReadU32();
      var code :- ReadU8();
      var visualClass := VisualClassOf(code);
      if visualClass.None? {
        return Panic(UnknownVisualClass(code));
      }
      var bitsPerRgbValue :- ReadU8();
      var colormapEntries :- ReadU16();
      var redMask :- ReadU32();
      var greenMask :- ReadU32();
      var blueMask :- ReadU32();
      ReadPad(4);
      r := Ok(Visual(id, visualClass.value, bitsPerRgbValue, colormapEntries, redMask, greenMask, blueMask));
    }

    /** The visuals of a depth, one after the other. */
    method ReadVisuals(count: nat) returns (r: Outcome<seq<Visual>>)
      requires Valid()
      modifies this`pos, buf1, buf2, buf4
      ensures Valid() && WithPos(r, pos) == Repeat(input, old(pos), count, VisualAt)
    {
      var visuals: seq<Visual> := [];
      for i := 0 to count
        invariant Valid()
        invariant Repeat(input, old(pos), i, VisualAt) == Ok((visuals, pos))
      {
        var visual := ReadVisual();
        if visual.Panic? {
          RepeatFails(input, old(pos), i + 1, count, VisualAt);
          return Panic(visual.reason);
        }
        visuals := visuals + [visual.value];
      }
      r := Ok(visuals);
    }

    method ReadDepth() returns (r: Outcome<Depth>)
      requires Valid()
      modifies this`pos, buf1, buf2, buf4
      ensures Valid() && WithPos(r, pos) == DepthAt(input, old(pos))
    {
      var depth :- ReadU8();
      ReadPad(1);
      var numVisuals :- ReadU16();
      ReadPad(4);
      var visuals :- ReadVisuals(numVisuals);
      r := Ok(Depth(depth, numVisuals, visuals));
    }

    /** The depths of a screen, one after the other. */
    method ReadDepths(count: nat) returns (r: Outcome<seq<Depth>>)
      requires Valid()
      modifies this`pos, buf1, buf2, buf4
      ensures Valid() && WithPos(r, pos) == Repeat(input, old(pos), count, DepthAt)
    {
      var depths: seq<Depth> := [];
      for i := 0 to count
        invariant Valid()
        invariant Repeat(input, old(pos), i, DepthAt) == Ok((depths, pos))
      {
        var depth := ReadDepth();
        if depth.Panic? {
          RepeatFails(input, old(pos), i + 1, count, DepthAt);
          return Panic(depth.reason);
        }
        depths := depths + [depth.value];
      }
      r := Ok(depths);
    }

    method ReadScreen() returns (r: Outcome<Screen>)
      requires Valid()
      modifies this`pos, buf1, buf2, buf4
      ensures Valid() && WithPos(r, pos) == ScreenAt(input, old(pos))
    {
      var root :- ReadU32();
      var defaultColormap :- ReadU32();
      var whitePixel :- ReadU32();
      var blackPixel :- ReadU32();
      var currentInputMasks :- ReadU32();
      var widthInPixels :- ReadU16();
      var heightInPixels :- ReadU16();
      var widthInMillimeters :- ReadU16();
      var heightInMillimeters :- ReadU16();
      var minInstalledMaps :- ReadU16();
      var maxInstalledMaps :- ReadU16();
      var rootVisual :- ReadU32();
      var code :- ReadU8();
      var backingStores := BackingStoresOf(code);
      if backingStores.None? {
        return Panic(UnknownBackingStore(code));
      }
      var saveUnders :- ReadBool();
      var rootDepth :- ReadU8();
      var numDepths :- ReadU8();
      var depths :- ReadDepths(numDepths);
      r := Ok(Screen(root, defaultColormap, whitePixel, blackPixel, currentInputMasks,
                     widthInPixels, heightInPixels, widthInMillimeters, heightInMillimeters,
                     minInstalledMaps, maxInstalledMaps, rootVisual, backingStores.value, saveUnders,
                     rootDepth, numDepths, depths));
    }

    /** The fixed part of the setup reply, stored into `connectInfo` field by field. */
    method ReadSetupFixed() returns (r: Outcome<()>)
      requires Valid()
      modifies this`pos, this`connectInfo, buf1, buf2, buf4
      ensures Valid() && Then(r, (connectInfo, pos)) == SetupFixedAt(input, old(pos), old(connectInfo))
    {
      var vendorLength := ReadSetupCounts();
      if vendorLength.Panic? {
        return Panic(vendorLength.reason);
      }
      r := ReadSetupImage(vendorLength.value);
    }

    /** The first 22 bytes of the fixed part; the vendor length is handed back. */
    method ReadSetupCounts() returns (vendorLength: Outcome<U16>)
      requires Valid()
      modifies this`pos, this`connectInfo, buf1, buf2, buf4
      ensures Valid()
      ensures (match vendorLength case Ok(v) => Ok((connectInfo, v, pos)) case Panic(why) => Panic(why)) ==
        SetupCountsAt(input, old(pos), old(connectInfo))
    {
      var releaseNumber :- ReadU32();
      var resourceIdBase :- ReadU32();
      var resourceIdMask :- ReadU32();
      var motionBufferSize :- ReadU32();
      var length :- ReadU16();
      var maxRequestLength :- ReadU16();
      var numScreens :- ReadU8();
      var numFormats :- ReadU8();
      connectInfo := connectInfo.(
        releaseNumber := releaseNumber,
        resourceIdBase := resourceIdBase,
        resourceIdMask := resourceIdMask,
        motionBufferSize := motionBufferSize,
        maxRequestLength := maxRequestLength,
        numScreens := numScreens,
        numFormats := numFormats);
      vendorLength := Ok(length);
    }

    /** The image formats, key codes and vendor of the fixed part. */
    method ReadSetupImage(vendorLength: U16) returns (r: Outcome<()>)
      requires Valid()
      modifies this`pos, this`connectInfo, buf1
      ensures Valid() && Then(r, (connectInfo, pos)) == SetupImageAt(input, old(pos), old(connectInfo), vendorLength)
    {
      var byteOrderCode :- ReadU8();
      var imageByteOrder := ByteOrderOf(byteOrderCode);
      if imageByteOrder.None? {
        return Panic(UnknownByteOrder(byteOrderCode));
      }
      var bitOrderCode :- ReadU8();
      var bitOrder := BitOrderOf(bitOrderCode);
      if bitOrder.None? {
        return Panic(UnknownBitOrder(bitOrderCode));
      }
      var scanlineUnit :- ReadU8();
      var scanlinePad :- ReadU8();
      var minKeycode :- ReadChar();
      var maxKeycode :- ReadChar();
      ReadPad(4);
      var vendor :- ReadStr(vendorLength);
      ReadPad(vendorLength % 4);
      connectInfo := connectInfo.(
        imageByteOrder := imageByteOrder.value,
        bitmapFormatBitOrder := bitOrder.value,
        bitmapFormatScanlineUnit := scanlineUnit,
        bitmapFormatScanlinePad := scanlinePad,
        minKeycode := minKeycode,
        maxKeycode := maxKeycode,
        vendor := vendor);
      r := Ok(());
    }

    /** The formats loop of `connect`: each format is pushed onto `connectInfo.formats`. */
    method ReadFormats() returns (r: Outcome<()>)
      requires Valid()
      modifies this`pos, this`connectInfo, buf1
      ensures Valid() && Then(r, (connectInfo, pos)) == FormatsAt(input, old(pos), old(connectInfo))
    {
      ghost var read: seq<Format> := [];
      for i := 0 to connectInfo.numFormats
        invariant Valid() && connectInfo == old(connectInfo).(formats := old(connectInfo).formats + read)
        invariant Repeat(input, old(pos), i, FormatAt) == Ok((read, pos))
      {
        var format := ReadFormat();
        if format.Panic? {
          RepeatFails(input, old(pos), i + 1, old(connectInfo).numFormats, FormatAt);
          return Panic(format.reason);
        }
        SnocAssoc(old(connectInfo).formats, read, format.value);
        connectInfo := connectInfo.(formats := connectInfo.formats + [format.value]);
        read := read + [format.value];
      }
      r := Ok(());
    }

    /** The screens loop of `connect`: each screen is pushed onto `connectInfo.screens`. */
    method ReadScreens() returns (r: Outcome<()>)
      requires Valid()
      modifies this`pos, this`connectInfo, buf1, buf2, buf4
      ensures Valid() && Then(r, (connectInfo, pos)) == ScreensAt(input, old(pos), old(connectInfo))
    {
      ghost var read: seq<Screen> := [];
      for i := 0 to connectInfo.numScreens
        invariant Valid() && connectInfo == old(connectInfo).(screens := old(connectInfo).screens + read)
        invariant Repeat(input, old(pos), i, ScreenAt) == Ok((read, pos))
      {
        var screen := ReadScreen();
        if screen.Panic? {
          RepeatFails(input, old(pos), i + 1, old(connectInfo).numScreens, ScreenAt);
          return Panic(screen.reason);
        }
        SnocAssoc(old(connectInfo).screens, read, screen.value);
        connectInfo := connectInfo.(screens := connectInfo.screens + [screen.value]);
        read := read + [screen.value];
      }
      r := Ok(());
    }

    /** The parse half of `connect`: the reply header, the status check, the fixed part, formats, screens. */
    method ReadSetup() returns (r: Outcome<()>)
      requires Valid()
      modifies this`pos, this`connectInfo, buf1, buf2, buf4
      ensures Valid() && Then(r, (connectInfo, pos)) == SetupReplyAt(input, old(pos), old(connectInfo))
    {
      var statusCode :- ReadU8();
      connectInfo := connectInfo.(statusCode := statusCode);
      ReadPad(1);
      var major :- ReadU16();
      connectInfo := connectInfo.(protocolMajorVersion := major);
      var minor :- ReadU16();
      connectInfo := connectInfo.(protocolMinorVersion := minor);
      var additional :- ReadU16();
      connectInfo := connectInfo.(additionalDataLen := additional);
      var status := SetupStatus(statusCode);
      if status.Panic? {
        return Panic(status.reason);
      }
      r := ReadSetupFixed();
      if r.Panic? {
        return;
      }
      r := ReadFormats();
      if r.Panic? {
        return;
      }
      r := ReadScreens();
    }

    /**
     * `connect`: sends the connection request, then parses the setup reply
     * into `connectInfo`. As written it never sets `connected`.
     */
    method Connect() returns (r: Outcome<()>)
      requires Valid()
      modifies this`out, this`pos, this`connectInfo, buf1, buf2, buf4
      ensures Valid() && out == old(out) + ConnectRequest() && connected == old(connected)
      ensures Then(r, (connectInfo, pos)) == SetupReplyAt(input, old(pos), old(connectInfo))
    {
      SendConnect();
      r := ReadSetup();
    }

    // -------------------------------------------------------------------------
    // The `write` methods of the request structures

    method WritePoint(p: Point)
      requires Valid()
      modifies this`out, buf2
      ensures Valid() && out == old(out) + p.Bytes()
    {
      WriteI16(p.x);
      WriteI16(p.y);
    }

    method WriteRectangle(r: Rectangle)
      requires Valid()
      modifies this`out, buf2
      ensures Valid() && out == old(out) + r.Bytes()
    {
      var x, y, width, height := r.x, r.y, r.width, r.height;
      WriteI16(x);
      ghost var sent := I16Bytes(x);
      WriteI16(y);
      AppendAssoc(old(out), sent, I16Bytes(y));
      sent := sent + I16Bytes(y);
      WriteU16(width);
      AppendAssoc(old(out), sent, U16Bytes(width));
      sent := sent + U16Bytes(width);
      WriteU16(height);
      AppendAssoc(old(out), sent, U16Bytes(height));
      sent := sent + U16Bytes(height);
    }

    method WriteArc(a: Arc)
      requires Valid()
      modifies this`out, buf2
      ensures Valid() && out == old(out) + a.Bytes()
    {
      var x, y, width, height, angle1, angle2 := a.x, a.y, a.width, a.height, a.angle1, a.angle2;
      WriteI16(x);
      ghost var sent := I16Bytes(x);
      WriteI16(y);
      AppendAssoc(old(out), sent, I16Bytes(y));
      sent := sent + I16Bytes(y);
      WriteU16(width);
      AppendAssoc(old(out), sent, U16Bytes(width));
      sent := sent + U16Bytes(width);
      WriteU16(height);
      AppendAssoc(old(out), sent, U16Bytes(height));
      sent := sent + U16Bytes(height);
      WriteI16(angle1);
      AppendAssoc(old(out), sent, I16Bytes(angle1));
      sent := sent + I16Bytes(angle1);
      WriteI16(angle2);
      AppendAssoc(old(out), sent, I16Bytes(angle2));
      sent := sent + I16Bytes(angle2);
    }

    method WriteSegment(s: Segment)
      requires Valid()
      modifies this`out, buf2
      ensures Valid() && out == old(out) + s.Bytes()
    {
      var x1, y1, x2, y2 := s.x1, s.y1, s.x2, s.y2;
      WriteI16(x1);
      ghost var sent := I16Bytes(x1);
      WriteI16(y1);
      AppendAssoc(old(out), sent, I16Bytes(y1));
      sent := sent + I16Bytes(y1);
      WriteI16(x2);
      AppendAssoc(old(out), sent, I16Bytes(x2));
      sent := sent + I16Bytes(x2);
      WriteI16(y2);
      AppendAssoc(old(out), sent, I16Bytes(y2));
      sent := sent + I16Bytes(y2);
    }

    /** `TextItem8::write`; it appends `item.Len()` bytes. */
    method WriteTextItem8(item: TextItem8)
      requires Valid()
      modifies this`out, buf1
      ensures Valid() && out == old(out) + item.Bytes()
      ensures |out| == |old(out)| + item.Len()
    {
      match item
      case Text8(delta, text) =>
        WriteU8(TruncU8(|text|));
        WriteI8(delta);
        WriteRaw(text);
      case Font8(font) =>
        WriteRaw(font);
    }

    /** `TextItem16::write`, one write_u16 per character; it appends `item.Len()` bytes. */
    method WriteTextItem16(item: TextItem16)
      requires Valid()
      modifies this`out, buf1, buf2
      ensures Valid() && out == old(out) + item.Bytes()
      ensures |out| == |old(out)| + item.Len()
    {
      match item
      case Text16(delta, text) =>
        WriteU8(TruncU8(|text|));
        WriteI8(delta);
        ghost var head := out;
        for k := 0 to |text|
          invariant Valid() && out == head + Chars16(text[..k])
        {
          WriteU16(text[k]);
          Chars16Snoc(text, k);
          AppendAssoc(head, Chars16(text[..k]), Le16(text[k]));
        }
        assert text[..|text|] == text;
      case Font16(font) =>
        WriteU8(255);
        WriteRaw(font);
    }

    /** `ColorItem::write`: the flag mask is built by OR-ing 1, 2 and 4 into zero. */
    method WriteColorItem(item: ColorItem)
      requires Valid()
      modifies this`out, buf1, buf2, buf4
      ensures Valid() && out == old(out) + item.Bytes()
    {
      var mask: U8 := 0x00;
      if item.doRed {
        FlagBit(mask, 0x01);
        mask := Or8(mask, 0x01);
      }
      if item.doGreen {
        FlagBit(mask, 0x02);
        mask := Or8(mask, 0x02);
      }
      if item.doBlue {
        FlagBit(mask, 0x04);
        mask := Or8(mask, 0x04);
      }
      assert mask == item.Flags();
      var pixel, red, green, blue := item.pixel, item.red, item.green, item.blue;
      WriteU32(pixel);
      ghost var sent := Le32(pixel);
      WriteU16(red);
      AppendAssoc(old(out), sent, Le16(red));
      sent := sent + Le16(red);
      WriteU16(green);
      AppendAssoc(old(out), sent, Le16(green));
      sent := sent + Le16(green);
      WriteU16(blue);
      AppendAssoc(old(out), sent, Le16(blue));
      sent := sent + Le16(blue);
      WriteU8(mask);
      AppendAssoc(old(out), sent, [mask]);
      sent := sent + [mask];
      var _ := WritePad(1);
      AppendAssoc(old(out), sent, [mask]);
      sent := sent + [mask];
    }
  }
}
