/**
 * The fixed-width integers of the Rust client and their little-endian wire
 * form, as the X Window System Protocol (X11R7.7, "Encoding", section
 * "Syntactic Conventions" of Appendix B) fixes it for a client that opened the
 * connection with byte order 'l'.
 *
 * A Rust panic is modelled as a failure value that callers propagate with `:-`,
 * which is how an unwinding panic ends every enclosing call.
 */
module Wire {

  type U8 = x: int | 0 <= x < 0x100
  type U16 = x: int | 0 <= x < 0x1_0000
  type U32 = x: int | 0 <= x < 0x1_0000_0000
  type I8 = x: int | -0x80 <= x < 0x80
  type I16 = x: int | -0x8000 <= x < 0x8000
  type I32 = x: int | -0x8000_0000 <= x < 0x8000_0000

  type Bytes = seq<U8>

  datatype Option<+T> = None | Some(value: T)

  // ---------------------------------------------------------------------------
  // Panics

  /** Why a call panicked; one constructor per panic! or unwrap in the core. */
  datatype PanicReason =
    | UnexpectedEof                 // read_exact(..).unwrap() on a closed stream
    | ZeroLengthPad                 // write_pad(0)
    | InvalidBool(value: U8)        // read_bool on a byte other than 0 or 1
    | ConnectFailed                 // setup reply status Failed
    | ConnectAuthenticate           // setup reply status Authenticate
    | UnexpectedStatus(code: U8)    // any other setup reply status
    | UnknownByteOrder(order: U8)
    | UnknownBitOrder(order: U8)
    | UnknownBackingStore(store: U8)
    | UnknownVisualClass(code: U8)
    | OutOfResourceIds              // new_resource_id past the resource-id mask
    | NotImplemented                // read_keymap_notify, which panics unconditionally

  datatype Outcome<+T> = Ok(value: T) | Panic(reason: PanicReason)
  {
    predicate IsFailure() { Panic? }

    function PropagateFailure<U>(): Outcome<U>
      requires Panic?
    {
      Panic(reason)
    }

    function Extract(): T
      requires Ok?
    {
      value
    }
  }

  /** A reader's result paired with where the cursor stopped, as the parse functions return it. */
  function WithPos<T>(r: Outcome<T>, p: nat): (o: Outcome<(T, nat)>)
    ensures o.Ok? <==> r.Ok?
  {
    match r
    case Ok(v) => Ok((v, p))
    case Panic(why) => Panic(why)
  }

  /** The state `v` reached by an operation that returned `r`, or its panic. */
  function Then<T>(r: Outcome<()>, v: T): (o: Outcome<T>)
    ensures o.Ok? <==> r.Ok?
  {
    match r
    case Ok(_) => Ok(v)
    case Panic(why) => Panic(why)
  }

  // ---------------------------------------------------------------------------
  // Casts between widths (Rust `as`)

  /** `x as u8`: keeps the low eight bits of any integer. */
  function TruncU8(x: int): (r: U8)
    ensures 0 <= x < 0x100 ==> r == x
  {
    x % 0x100
  }

  /** `x as u16` */
  function TruncU16(x: int): (r: U16)
    ensures 0 <= x < 0x1_0000 ==> r == x
  {
    x % 0x1_0000
  }

  /** `x as u32` */
  function TruncU32(x: int): (r: U32)
    ensures 0 <= x < 0x1_0000_0000 ==> r == x
  {
    x % 0x1_0000_0000
  }

  /** `x as i16` on a u16: the two's-complement reading of sixteen bits. */
  function U16AsI16(x: U16): (r: I16)
    ensures TruncU16(r) == x
  {
    if x < 0x8000 then x else x - 0x1_0000
  }

  /** `x as i32` on a u32. */
  function U32AsI32(x: U32): (r: I32)
    ensures TruncU32(r) == x
  {
    if x < 0x8000_0000 then x else x - 0x1_0000_0000
  }

  lemma SignedRoundTrip16(x: I16)
    ensures U16AsI16(TruncU16(x)) == x
  {
  }

  lemma SignedRoundTrip32(x: I32)
    ensures U32AsI32(TruncU32(x)) == x
  {
  }

  // ---------------------------------------------------------------------------
  // Little-endian encodings

  /** The byte write_bool sends. */
  function BoolByte(b: bool): (r: U8)
    ensures r <= 1 && (r == 1 <==> b)
  {
    if b then 1 else 0
  }

  /** What read_bool makes of a byte: only 0 and 1 are booleans. */
  function BoolOf(b: U8): (r: Outcome<bool>)
    ensures r.Ok? <==> b <= 1
    ensures r.Ok? ==> BoolByte(r.value) == b
    ensures r.Panic? ==> r.reason == InvalidBool(b)
  {
    match b
    case 1 => Ok(true)
    case 0 => Ok(false)
    case _ => Panic(InvalidBool(b))
  }

  /** The two bytes write_u16 sends: `x as u8`, then `(x >> 8) as u8`. */
  function Le16(x: U16): (r: Bytes)
    ensures |r| == 2
  {
    [TruncU8(x), TruncU8(x / 0x100)]
  }

  /** The four bytes write_u32 sends, least significant first. */
  function Le32(x: U32): (r: Bytes)
    ensures |r| == 4
  {
    [TruncU8(x), TruncU8(x / 0x100), TruncU8(x / 0x1_0000), TruncU8(x / 0x100_0000)]
  }

  /** read_u16: `b0 as u16 + (b1 as u16) << 8`. */
  function U16Of(b0: U8, b1: U8): U16 {
    b0 + b1 * 0x100
  }

  /** read_u32: the four bytes, least significant first. */
  function U32Of(b0: U8, b1: U8, b2: U8, b3: U8): U32 {
    b0 + b1 * 0x100 + b2 * 0x1_0000 + b3 * 0x100_0000
  }

  /** The u16 stored at offset k of a byte stream. */
  function U16At(s: Bytes, k: nat): U16
    requires k + 2 <= |s|
  {
    s[k] as int + s[k + 1] as int * 0x100
  }

  /** The u32 stored at offset k of a byte stream. */
  function U32At(s: Bytes, k: nat): U32
    requires k + 4 <= |s|
  {
    s[k] as int + s[k + 1] as int * 0x100 + s[k + 2] as int * 0x1_0000 + s[k + 3] as int * 0x100_0000
  }

  /** The i16 stored at offset k of a byte stream. */
  function I16At(s: Bytes, k: nat): I16
    requires k + 2 <= |s|
  {
    U16AsI16(U16At(s, k))
  }

  lemma Le16RoundTrip(x: U16)
    ensures U16At(Le16(x), 0) == x
  {
  }

  lemma Le32RoundTrip(x: U32)
    ensures U32At(Le32(x), 0) == x
  {
    var q1 := x / 0x100;
    var q2 := q1 / 0x100;
    var q3 := q2 / 0x100;
    assert x / 0x1_0000 == q2 by { DivTwice(x, 0x100); }
    assert x / 0x100_0000 == q3 by { DivTwice(x, 0x1_0000); }
    assert x == x % 0x100 + 0x100 * q1;
    assert q1 == q1 % 0x100 + 0x100 * q2;
    assert q2 == q2 % 0x100 + 0x100 * q3;
    assert Le32(x) == [x % 0x100, q1 % 0x100, q2 % 0x100, q3 % 0x100];
  }

  /** Reading two bytes as a u16 and writing it back gives the same bytes. */
  lemma Le16OfBytes(b0: U8, b1: U8)
    ensures Le16(U16Of(b0, b1)) == [b0, b1]
  {
  }

  lemma Le32OfBytes(b0: U8, b1: U8, b2: U8, b3: U8)
    ensures Le32(U32Of(b0, b1, b2, b3)) == [b0, b1, b2, b3]
  {
    var x := U32Of(b0, b1, b2, b3);
    var q2 := b2 + b3 * 0x100;
    var q1 := b1 + q2 * 0x100;
    assert x == b0 + q1 * 0x100;
    assert x % 0x100 == b0 && x / 0x100 == q1 by { DigitSplit(b0, q1); }
    assert q1 % 0x100 == b1 && q1 / 0x100 == q2 by { DigitSplit(b1, q2); }
    assert q2 % 0x100 == b2 && q2 / 0x100 == b3 by { DigitSplit(b2, b3); }
    assert x / 0x1_0000 == q2 by { DivTwice(x, 0x100); }
    assert x / 0x100_0000 == b3 by { DivTwice(x, 0x1_0000); }
  }

  /** Base-256 digits: the low digit and the rest of a number split apart. */
  lemma DigitSplit(d: U8, q: nat)
    ensures (d + q * 0x100) % 0x100 == d && (d + q * 0x100) / 0x100 == q
  {
  }

  lemma DivTwice(x: nat, a: nat)
    requires a == 0x100 || a == 0x1_0000
    ensures x / (a * 0x100) == x / a / 0x100
  {
    var q := x / a;
    assert x == q * a + x % a;
    assert q == (q / 0x100) * 0x100 + q % 0x100;
    assert x == (q / 0x100) * (a * 0x100) + ((q % 0x100) * a + x % a);
    assert (q % 0x100) * a + x % a < a * 0x100;
  }

  // ---------------------------------------------------------------------------
  // Bit operations on masks

  function Or32(a: U32, b: U32): U32 {
    ((a as bv32) | (b as bv32)) as int
  }

  function And32(a: U32, b: U32): U32 {
    ((a as bv32) & (b as bv32)) as int
  }

  function Or8(a: U8, b: U8): U8 {
    ((a as bv8) | (b as bv8)) as int
  }

  function And16(a: U16, b: U16): U16 {
    ((a as bv16) & (b as bv16)) as int
  }

  function Or16(a: U16, b: U16): U16 {
    ((a as bv16) | (b as bv16)) as int
  }

  /** A 16-bit pattern survives the trip through `int`. */
  lemma Bv16RoundTrip(a: bv16)
    ensures (a as int) as bv16 == a
  {
  }

  /** A 16-bit pattern with exactly one bit set. */
  predicate IsSinglePattern(p: bv16) {
    p != 0 && p & (p - 1) == 0
  }

  lemma Bv16SingleAnd(x: bv16, p: bv16)
    requires IsSinglePattern(p)
    ensures x & p == 0 || x & p == p
  {
  }

  lemma Bv16AndOverOr(m: bv16, x: bv16, y: bv16)
    ensures (m & x) | (m & y) == m & (x | y)
  {
  }

  /**
   * Masking with a single bit keeps that bit or nothing, and the mask test
   * `m & b == b` on integers is the same test on bit patterns.
   */
  lemma And16Pattern(m: U16, p: bv16)
    requires IsSinglePattern(p)
    ensures And16(m, p as int) == p as int <==> (m as bv16) & p == p
    ensures And16(m, p as int) != p as int <==> (m as bv16) & p == 0
  {
    var y := (m as bv16) & p;
    Bv16SingleAnd(m as bv16, p);
    Bv16RoundTrip(p);
    Bv16RoundTrip(y);
    assert And16(m, p as int) == y as int;
    assert p as int != 0 by { Bv16RoundTrip(0); }
  }

  /** A mask with exactly one bit set. */
  predicate IsSingleBit(m: int) {
    m == 0x1 || m == 0x2 || m == 0x4 || m == 0x8 || m == 0x10 || m == 0x20 || m == 0x40 || m == 0x80 ||
    m == 0x100 || m == 0x200 || m == 0x400 || m == 0x800 || m == 0x1000 || m == 0x2000 || m == 0x4000 ||
    m == 0x8000 || m == 0x1_0000 || m == 0x2_0000 || m == 0x4_0000 || m == 0x8_0000 || m == 0x10_0000 ||
    m == 0x20_0000 || m == 0x40_0000 || m == 0x80_0000 || m == 0x100_0000 || m == 0x200_0000 ||
    m == 0x400_0000 || m == 0x800_0000 || m == 0x1000_0000 || m == 0x2000_0000 || m == 0x4000_0000 ||
    m == 0x8000_0000
  }

  /**
   * Where the cursor ends after `BufRead::consume(len)` from `p`, when all `n`
   * bytes of the input are already in the reader's buffer.
   */
  function Skip(n: nat, p: nat, len: nat): nat {
    if p + len <= n then p + len else n
  }

  // ---------------------------------------------------------------------------
  // Reading a byte stream: each step reads from cursor p and gives the value and the cursor after it

  /** `read_u8` (and `read_char`) at p. */
  function U8Step(s: Bytes, p: nat): Outcome<(U8, nat)> {
    if p + 1 <= |s| then Ok((s[p], p + 1)) else Panic(UnexpectedEof)
  }

  /** `read_bool` at p: the byte is read, then anything but 0 or 1 panics. */
  function BoolStep(s: Bytes, p: nat): Outcome<(bool, nat)> {
    var b :- U8Step(s, p);
    var v :- BoolOf(b.0);
    Ok((v, b.1))
  }

  /** `read_u16` at p. */
  function U16Step(s: Bytes, p: nat): Outcome<(U16, nat)> {
    if p + 2 <= |s| then Ok((U16At(s, p), p + 2)) else Panic(UnexpectedEof)
  }

  /** `read_i16` at p. */
  function I16Step(s: Bytes, p: nat): Outcome<(I16, nat)> {
    var x :- U16Step(s, p);
    Ok((U16AsI16(x.0), x.1))
  }

  /** `read_u32` at p. */
  function U32Step(s: Bytes, p: nat): Outcome<(U32, nat)> {
    if p + 4 <= |s| then Ok((U32At(s, p), p + 4)) else Panic(UnexpectedEof)
  }

  /** `read_str(len)` at p, the string kept as its bytes. */
  function BytesStep(s: Bytes, p: nat, len: nat): Outcome<(Bytes, nat)> {
    if p + len <= |s| then Ok((s[p..p + len], p + len)) else Panic(UnexpectedEof)
  }

  /** Appending in two steps is appending once. */
  lemma AppendAssoc(a: Bytes, b: Bytes, c: Bytes)
    ensures a + b + c == a + (b + c)
  {
  }

  /** `n` zero bytes, as `vec![0u8; n]`. */
  function Zeros(n: nat): (r: Bytes)
    ensures |r| == n && forall i :: 0 <= i < n ==> r[i] == 0
  {
    seq(n, _ => 0)
  }
}
