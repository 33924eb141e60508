# xrb, modelled in Dafny

xrb is a small X11 client library written in Rust, together with a Python
helper that generates Rust reader and writer statements from the encoding
tables of the X Window System Protocol (X11R7.7), Appendix B. This project
models the byte-level core of both and proves properties of the models:

- `Wire` (wire.dfy): the fixed-width integers of the Rust code, the
  truncating `as` casts, the little-endian byte images, and a Rust panic as
  the `Outcome.Panic` value that every caller passes on.
- `Valued` (valued.dfy): the enumerations of src/models.rs that stand for
  protocol codes. For each one the model gives the code a variant is sent as
  (`val`) and the variant a received code stands for (`get`). For the mask
  types it also gives the decoder that lists the variants whose bits are set.
- `Models` (models.rs): the records the server sends, the attribute values
  windows and graphics contexts are created and changed with, their masks
  and wire images, the text items, and the `Window` and `GraphicsContext`
  objects that keep their current attribute lists.
- `Client` (client.dfy): `XClient` of src/lib.rs. This covers the connection
  setup (`connect`), the resource-id counter, the request encoders
  (`create_window`, `change_window_attributes`, `get_window_attributes`,
  `map_window`, `create_pixmap`, `create_gc`), the LISTofVALUE writer, the
  fixed-width writers and readers, and error decoding.
- `XReaderWriter` (reader.dfy): `XReadHelper` of src/xreaderwriter.rs, with
  its primitive reads, the error reader and one reader per event. Beside
  each reader, a layout lemma states where every field of that event sits
  in its 32-byte encoding.
- `SpecParse` and `SpecParseProps` (specparse.dfy, specparse_props.dfy): the
  line classifier and the read and write generators of tools/specparse.py.
  They are written as loops proved against folds over the input lines, and
  lemmas then state what the generated output consists of.

The socket is replaced by values:

- what the client sends goes to an output byte sequence (`XClient.out`);
- what it receives is an input byte sequence with a cursor (`input`, `pos`),
  and a read past the end of the input is a panic with
  `UnexpectedEof`, as `read_exact` would give;
- what specparse.py prints is a sequence of `Emit` values, one per printed
  statement.

src/lib.rs needs some constants from src/protocol.rs, which is not part of
this model. Their values here come from the X11 encoding:

- request opcodes 1, 2, 3, 8, 53 and 55;
- error codes 1 to 17;
- connection byte order 'l' (0x6C) with protocol version 11.0;
- setup status 0 (failed), 1 (success) and 2 (authenticate).

## Model

| member | source | states |
|---|---|---|
| `Wire.WithPos` | src/xreaderwriter.rs:541-544 | the representation of `.unwrap()` on a read: a panic is passed on unchanged, and a success carries the cursor after it; the step succeeds exactly when the read does |
| `Wire.Then` | src/lib.rs:56-174 | the representation of `.unwrap()` propagation through a step of the setup parse that fills `connect_info`: the step succeeds exactly when its outcome does, and a panic keeps its reason |
| `Wire.TruncU8` | src/lib.rs:853-854 | `as u8` leaves a value already in 0..255 unchanged |
| `Wire.TruncU16` | src/lib.rs:263 | `as u16` leaves a value already in 0..65535 unchanged and keeps the low 16 bits of any other |
| `Wire.TruncU32` | src/lib.rs:189 | a value already in 0..2^32-1 is unchanged and any other keeps its low 32 bits, the result of the u32 add in a release build |
| `Wire.U16AsI16` | src/xreaderwriter.rs:550-552 | reading two bytes as i16 gives the signed value whose 16-bit pattern is the unsigned one |
| `Wire.U32AsI32` | src/lib.rs:862-864 | the signed value of a 32-bit pattern has that pattern back |
| `Wire.SignedRoundTrip16` | src/lib.rs:844-846 | writing an i16 as its u16 pattern and reading it back as i16 gives the same value |
| `Wire.SignedRoundTrip32` | src/lib.rs:862-864 | writing an i32 as its u32 pattern and reading it back as i32 gives the same value |
| `Wire.BoolByte` | src/lib.rs:824-830 | a bool is written as 1 for true and 0 for false |
| `Wire.BoolOf` | src/xreaderwriter.rs:529-536 | a byte reads as a bool exactly when it is 0 or 1, the bool written back gives that byte, and any other byte panics with the byte as reason |
| `Wire.Le16` | src/lib.rs:852-856 | a u16 is written as exactly two bytes |
| `Wire.Le32` | src/lib.rs:870-876 | a u32 is written as exactly four bytes |
| `Wire.Le16RoundTrip` | src/xreaderwriter.rs:558-561 | reading back the two little-endian bytes written for a u16 gives the same value |
| `Wire.Le32RoundTrip` | src/xreaderwriter.rs:567-570 | reading back the four little-endian bytes written for a u32 gives the same value |
| `Wire.Le16OfBytes` | src/lib.rs:1008-1011 | writing the u16 read from two bytes gives those two bytes again |
| `Wire.Le32OfBytes` | src/lib.rs:1017-1020 | writing the u32 read from four bytes gives those four bytes again |
| `Wire.Zeros` | src/lib.rs:817 | a pad of any other length writes that many zero bytes |
| `Models.ErrorOf` | src/lib.rs:342-368 | codes 1 to 17 and only those give an error; the error carries the code it was read for, both opcodes and, for the kinds that have one, the info word as bad value or resource id |
| `Models.ErrorRoundTrip` | src/models.rs:92-110 | every error is recovered from its code, its opcodes and its info word |
| `Models.ErrorAt` | src/xreaderwriter.rs:58-84 | definition: read_error as a function of the input and the cursor: the u32, the minor opcode and the major opcode read in that order, 21 bytes skipped, and the error ErrorOf builds from them |
| `Models.ErrorLayout` | src/xreaderwriter.rs:58-84 | reading an error body succeeds exactly when 7 bytes are left, panics at end of input otherwise, reads info at 0, minor opcode at 4, major opcode at 6 and then consumes 28 bytes in all |
| `Models.ErrorBody` | src/models.rs:92-110 | the body the server sends for an error is 28 bytes |
| `Models.ErrorBodyRoundTrip` | src/xreaderwriter.rs:58-84 | reading the body encoding an error, after its code byte, gives back that error and ends 28 bytes on |
| `Models.SameScreenFocus` | src/xreaderwriter.rs:178-197 | the last byte of an enter or leave event gives same-screen from bit 1 and focus from bit 2, and any byte other than 1, 2 or 3 gives neither |
| `Models.WindowValue.GetMask` | src/models.rs:2797-2816 | definition: the mask bit get_mask gives each of the fifteen window attributes, 0x1 to 0x4000 in declaration order |
| `Models.WindowValue.Kind` | src/models.rs:937 | definition: the variant of a window attribute, what `discriminant` compares in set |
| `Models.WindowValue.Word` | src/models.rs:2818-2837 | definition: the u32 each window attribute passes to write_val_u32, write_val or write_val_bool |
| `Models.WindowMaskIsKind` | src/models.rs:2797-2816 | two window values have the same mask bit exactly when they are the same kind of value |
| `Models.GraphicsContextValue.GetMask` | src/models.rs:2839-2866 | definition: the mask bit get_mask gives each of the 23 graphics-context components, 0x1 to 0x400000 in declaration order |
| `Models.GraphicsContextValue.Kind` | src/models.rs:1050 | definition: the variant of a graphics-context component, what `discriminant` compares in set |
| `Models.GraphicsContextValue.Word` | src/models.rs:2868-2895 | definition: the u32 each graphics-context component passes to write_val_u32, write_val_u16, write_val_u8, write_val or write_val_bool |
| `Models.GraphicsContextMaskIsKind` | src/models.rs:2839-2866 | two graphics-context values have the same mask bit exactly when they are the same kind of value |
| `Models.KeyboardControlValue.GetMask` | src/models.rs:2897-2909 | definition: the mask bit get_mask gives each keyboard-control value, with 0x40 for both Key and AutoRepeatMode |
| `Models.KeyboardControlMaskClash` | src/models.rs:2897-2909 | Key and AutoRepeatMode are different values with the same mask bit 0x40 |
| `Models.KeyboardControlValue.Bytes` | src/models.rs:2911-2922 | bell pitch and bell duration are written as two bytes, every other keyboard-control value as one |
| `Models.Value.Bytes` | src/models.rs:2818-2837 | every window and graphics-context value is written as one four-byte word |
| `Models.WindowMaskSingleBit` | src/models.rs:2797-2816 | every window value's mask has exactly one bit set |
| `Models.GraphicsContextMaskSingleBit` | src/models.rs:2839-2866 | every graphics-context value's mask has exactly one bit set |
| `Models.KeyboardControlMaskSingleBit` | src/models.rs:2897-2909 | every keyboard-control value's mask has exactly one bit set |
| `Models.ValueMaskSingleBit` | src/models.rs:2797-2909 | every value passed to write_values has a one-bit mask |
| `Models.WindowValues` | src/lib.rs:939-967 | window values are passed to write_values one for one, in order |
| `Models.GraphicsContextValues` | src/lib.rs:939-967 | graphics-context values are passed to write_values one for one, in order |
| `Models.ColorFromNum` | src/models.rs:1278-1284 | each component taken from a 24-bit colour number is at most 0xFF |
| `Models.ColorNum` | src/models.rs:1286-1288 | a colour whose components fit in a byte gives red*65536 + green*256 + blue |
| `Models.ColorNumFromNum` | src/models.rs:1278-1288 | the number of the colour made from a number is that number with its top byte cleared |
| `Models.ColorFromNumNum` | src/models.rs:1278-1288 | a colour whose components fit in a byte is recovered from its number |
| `Models.Point.Bytes` | src/models.rs:1093-1096 | a point is 4 bytes, x at 0 and y at 2 |
| `Models.Rectangle.Bytes` | src/models.rs:1107-1112 | a rectangle is 8 bytes: x, y, width, height at 0, 2, 4, 6 |
| `Models.Arc.Bytes` | src/models.rs:1125-1132 | an arc is 12 bytes: x, y, width, height, angle1, angle2 at 0 to 10 |
| `Models.Segment.Bytes` | src/models.rs:1143-1148 | a segment is 8 bytes: x1, y1, x2, y2 at 0, 2, 4, 6 |
| `Models.I16Bytes` | src/lib.rs:844-846 | an i16 is written as the two bytes of its u16 pattern and reads back as itself |
| `Models.U16Bytes` | src/lib.rs:852-856 | a u16 is written as its two little-endian bytes and reads back as itself |
| `Models.At16Frame` | src/lib.rs:852-856 | appending more bytes does not change a 16-bit field already written |
| `Models.TextItem8.Len` | src/models.rs:1161-1186 | the declared length of an 8-bit text item is the number of bytes it writes |
| `Models.TextItem16.Len` | src/models.rs:1197-1225 | the declared length of a 16-bit text item is the number of bytes it writes (5 for a font item) |
| `Models.Chars16` | src/models.rs:1205-1207 | 16-bit text is two bytes per character, character i at offset 2i |
| `Models.Chars16Snoc` | src/models.rs:1205-1207 | writing one more character appends its two bytes |
| `Models.ColorItem.Flags` | src/models.rs:1239-1248 | the flags byte has bit 1, 2 and 4 set exactly when red, green and blue are to be changed |
| `Models.ColorItem.Bytes` | src/models.rs:1238-1256 | a colour item is 12 bytes: pixel at 0, red, green, blue at 4, 6, 8, the flags at 10 and, as the one-byte pad repeats the last byte written, again at 11 |
| `Models.FirstOfKind` | src/models.rs:933-941 | the position found is the first value of the same kind, or the length when there is none |
| `Models.Updated` | src/models.rs:933-951 | definition: the list set leaves: the value replaces the first one of its variant, or is pushed when there is none |
| `Models.UpdatedSpec` | src/models.rs:933-951 | after set the new value is present, the length grows by one exactly when no value of its kind was there, and values of other kinds keep their places |
| `Models.UpdatedIdempotent` | src/models.rs:933-951 | setting the same value twice is the same as setting it once |
| `Models.FirstOfKindAt` | src/models.rs:936-941 | a position holding the kind with none of it before is the position found |
| `Models.FindSameVariant` | src/models.rs:934-941 | the loop that looks for a value of the same kind stops at the first one, or at the length |
| `Models.NoneOfKind` | src/models.rs:943-944 | when no value has the kind the position found is the length, so the value is pushed |
| `Models.RemoveInsert` | src/models.rs:946-947 | removing the value at a position and inserting another there replaces it in place |
| `Models.Window.constructor` | src/models.rs:857-869 | a window holds the fields it was made with |
| `Models.Window.Change` | src/models.rs:928-931 | change replaces the value list and leaves every other field as it was |
| `Models.Window.Set` | src/models.rs:933-951 | set replaces the value of the same kind in place or appends the value, and leaves every other field as it was |
| `Models.GraphicsContext.constructor` | src/models.rs:1034-1038 | a graphics context holds the fields it was made with |
| `Models.GraphicsContext.Change` | src/models.rs:1041-1044 | change replaces the value list and leaves the ids as they were |
| `Models.GraphicsContext.Set` | src/models.rs:1046-1064 | set replaces the value of the same kind in place or appends the value, and leaves the ids as they were |
| `Models.GraphicsContext.SetBackgroundRaw` | src/models.rs:1074-1076 | set_bg_raw sets the Background value to the given pixel, replacing an existing Background in place or appending one; id and drawable unchanged |
| `Models.GraphicsContext.SetBackground` | src/models.rs:1070-1072 | set_bg sets the Background value to the colour's packed number |
| `Models.GraphicsContext.SetForegroundRaw` | src/models.rs:1082-1084 | set_fg_raw sets the Foreground value to the given pixel, replacing an existing Foreground in place or appending one; id and drawable unchanged |
| `Models.GraphicsContext.SetForeground` | src/models.rs:1078-1080 | set_fg sets the Foreground value to the colour's packed number |
| `Valued.DecodeMask` | src/models.rs:1482-1526 | the loop shared by the `get(mask)` decoders keeps exactly the table entries whose bit is set in the mask, as often and in the order they appear in the table; an entry is kept if and only if its bit is set, and an increasing table gives an increasing result |
| `Valued.OrOfSelected` | src/models.rs:1482-1526 | when every table entry has a single bit, the bits of the entries a mask selects OR together to the mask restricted to the table's bits |
| `Valued.BitOrderValInjective` | src/models.rs:1315-1320 | no two variants send the same code |
| `Valued.ByteOrderValInjective` | src/models.rs:1329-1334 | no two variants send the same code |
| `Valued.EventValInjective` | src/models.rs:1366-1394 | no two variants send the same bit |
| `Valued.Event.Val` | src/models.rs:1366-1394 | every variant sends a mask of exactly one bit |
| `Valued.PointerEventValInjective` | src/models.rs:1414-1430 | no two variants send the same bit |
| `Valued.PointerEvent.Val` | src/models.rs:1414-1430 | every variant sends a mask of exactly one bit |
| `Valued.DeviceEventValInjective` | src/models.rs:1448-1462 | no two variants send the same bit |
| `Valued.DeviceEvent.Val` | src/models.rs:1448-1462 | every variant sends a mask of exactly one bit |
| `Valued.KeyButton.DecodedSpec` | src/models.rs:1482-1526 | a variant is in the decoded list exactly when its bit is set in the mask, and the list is in strictly increasing bit order, so without duplicates |
| `Valued.KeyButton.AllBits` | src/models.rs:1482-1544 | the bits of all the variants OR together to 0x1FFF |
| `Valued.KeyButton.DecodedBits` | src/models.rs:1482-1544 | the bits of the decoded variants OR together to `mask & 0x1FFF`: every bit of the mask that names a variant is reported, and no other |
| `Valued.KeyButton.Get` | src/models.rs:1482-1526 | the pushes build exactly the decoded list: the variants whose bit is set, once each, in increasing bit order, whose bits OR together to `mask & 0x1FFF` |
| `Valued.KeyButtonValInjective` | src/models.rs:1528-1544 | no two variants send the same bit |
| `Valued.KeyButton.Val` | src/models.rs:1528-1544 | every variant sends a mask of exactly one bit |
| `Valued.Key.DecodedSpec` | src/models.rs:1559-1588 | a variant is in the decoded list exactly when its bit is set in the mask, and the list is in strictly increasing bit order, so without duplicates |
| `Valued.Key.AllBits` | src/models.rs:1559-1601 | the bits of all the variants OR together to 0xFF |
| `Valued.Key.DecodedBits` | src/models.rs:1559-1601 | the bits of the decoded variants OR together to `mask & 0xFF`: every bit of the mask that names a variant is reported, and no other |
| `Valued.Key.Get` | src/models.rs:1559-1588 | the pushes build exactly the decoded list: the variants whose bit is set, once each, in increasing bit order, whose bits OR together to `mask & 0xFF` |
| `Valued.KeyValInjective` | src/models.rs:1590-1601 | no two variants send the same bit |
| `Valued.Key.Val` | src/models.rs:1590-1601 | every variant sends a mask of exactly one bit |
| `Valued.ScreenBackingStoresValInjective` | src/models.rs:1611-1617 | no two variants send the same code |
| `Valued.VisualTypeValInjective` | src/models.rs:1630-1639 | no two variants send the same code |
| `Valued.WindowInputType.Get` | src/models.rs:1649-1656 | a code inside the table gives Some, any other code None, and the variant returned sends that code back |
| `Valued.WindowInputTypeRoundTrip` | src/models.rs:1648-1665 | get inverts val: every variant is recovered from the code it sends |
| `Valued.WindowBackingStore.Get` | src/models.rs:1674-1681 | a code inside the table gives Some, any other code None, and the variant returned sends that code back |
| `Valued.WindowBackingStoreRoundTrip` | src/models.rs:1673-1690 | get inverts val: every variant is recovered from the code it sends |
| `Valued.BitGravity.Get` | src/models.rs:1707-1722 | a code inside the table gives Some, any other code None, and the variant returned sends that code back |
| `Valued.BitGravityRoundTrip` | src/models.rs:1706-1739 | get inverts val: every variant is recovered from the code it sends |
| `Valued.WindowGravity.Get` | src/models.rs:1756-1771 | a code inside the table gives Some, any other code None, and the variant returned sends that code back |
| `Valued.WindowGravityRoundTrip` | src/models.rs:1755-1788 | get inverts val: every variant is recovered from the code it sends |
| `Valued.MapState.Get` | src/models.rs:1797-1804 | a code inside the table gives Some, any other code None |
| `Valued.MapStateGetInjective` | src/models.rs:1797-1804 | no two codes decode to the same variant |
| `Valued.FontDrawDirection.Get` | src/models.rs:1813-1819 | a code inside the table gives Some, any other code None |
| `Valued.FontDrawDirectionGetInjective` | src/models.rs:1813-1819 | no two codes decode to the same variant |
| `Valued.GCFunctionValInjective` | src/models.rs:1842-1861 | no two variants send the same code |
| `Valued.GCLineStyleValInjective` | src/models.rs:1871-1877 | no two variants send the same code |
| `Valued.GCCapStyleValInjective` | src/models.rs:1888-1895 | no two variants send the same code |
| `Valued.GCJoinStyleValInjective` | src/models.rs:1905-1911 | no two variants send the same code |
| `Valued.GCFillStyleValInjective` | src/models.rs:1922-1929 | no two variants send the same code |
| `Valued.GCFillRuleValInjective` | src/models.rs:1938-1943 | no two variants send the same code |
| `Valued.GCSubWindowModeValInjective` | src/models.rs:1952-1957 | no two variants send the same code |
| `Valued.GCArcModeValInjective` | src/models.rs:1966-1971 | no two variants send the same code |
| `Valued.MotionNotifyType.Get` | src/models.rs:1980-1986 | a code inside the table gives Some, any other code None, and the variant returned sends that code back |
| `Valued.MotionNotifyTypeRoundTrip` | src/models.rs:1979-1994 | get inverts val: every variant is recovered from the code it sends |
| `Valued.NotifyType.Get` | src/models.rs:2005-2014 | a code inside the table gives Some, any other code None, and the variant returned sends that code back |
| `Valued.NotifyTypeRoundTrip` | src/models.rs:2004-2025 | get inverts val: every variant is recovered from the code it sends |
| `Valued.FocusType.Get` | src/models.rs:2039-2051 | a code inside the table gives Some, any other code None, and the variant returned sends that code back |
| `Valued.FocusTypeRoundTrip` | src/models.rs:2038-2065 | get inverts val: every variant is recovered from the code it sends |
| `Valued.FocusMode.Get` | src/models.rs:2075-2083 | a code inside the table gives Some, any other code None, and the variant returned sends that code back |
| `Valued.FocusModeRoundTrip` | src/models.rs:2074-2093 | get inverts val: every variant is recovered from the code it sends |
| `Valued.InputFocusRevert.Get` | src/models.rs:2102-2109 | a code inside the table gives Some, any other code None, and the variant returned sends that code back |
| `Valued.InputFocusRevertRoundTrip` | src/models.rs:2101-2118 | get inverts val: every variant is recovered from the code it sends |
| `Valued.NotifyMode.Get` | src/models.rs:2127-2134 | a code inside the table gives Some, any other code None, and the variant returned sends that code back |
| `Valued.NotifyModeRoundTrip` | src/models.rs:2126-2143 | get inverts val: every variant is recovered from the code it sends |
| `Valued.VisibilityState.Get` | src/models.rs:2152-2159 | a code inside the table gives Some, any other code None, and the variant returned sends that code back |
| `Valued.VisibilityStateRoundTrip` | src/models.rs:2151-2168 | get inverts val: every variant is recovered from the code it sends |
| `Valued.StackMode.Get` | src/models.rs:2179-2188 | a code inside the table gives Some, any other code None, and the variant returned sends that code back |
| `Valued.StackModeRoundTrip` | src/models.rs:2178-2199 | get inverts val: every variant is recovered from the code it sends |
| `Valued.ConfigureRequestValues.DecodedSpec` | src/models.rs:2212-2238 | a variant is in the decoded list exactly when its bit is set in the mask, and the list is in strictly increasing bit order, so without duplicates |
| `Valued.ConfigureRequestValues.AllBits` | src/models.rs:2212-2250 | the bits of all the variants OR together to 0x7F |
| `Valued.ConfigureRequestValues.DecodedBits` | src/models.rs:2212-2250 | the bits of the decoded variants OR together to `mask & 0x7F`: every bit of the mask that names a variant is reported, and no other |
| `Valued.ConfigureRequestValues.Get` | src/models.rs:2212-2238 | the pushes build exactly the decoded list: the variants whose bit is set, once each, in increasing bit order, whose bits OR together to `mask & 0x7F` |
| `Valued.ConfigureRequestValuesValInjective` | src/models.rs:2240-2250 | no two variants send the same bit |
| `Valued.ConfigureRequestValues.Val` | src/models.rs:2240-2250 | every variant sends a mask of exactly one bit |
| `Valued.CirculatePlace.Get` | src/models.rs:2259-2265 | a code inside the table gives Some, any other code None, and the variant returned sends that code back |
| `Valued.CirculatePlaceRoundTrip` | src/models.rs:2258-2273 | get inverts val: every variant is recovered from the code it sends |
| `Valued.PropertyState.Get` | src/models.rs:2281-2287 | a code inside the table gives Some, any other code None, and the variant returned sends that code back |
| `Valued.PropertyStateRoundTrip` | src/models.rs:2280-2295 | get inverts val: every variant is recovered from the code it sends |
| `Valued.ColormapState.Get` | src/models.rs:2303-2309 | a code inside the table gives Some, any other code None, and the variant returned sends that code back |
| `Valued.ColormapStateRoundTrip` | src/models.rs:2302-2317 | get inverts val: every variant is recovered from the code it sends |
| `Valued.MappingType.Get` | src/models.rs:2326-2333 | a code inside the table gives Some, any other code None, and the variant returned sends that code back |
| `Valued.MappingTypeRoundTrip` | src/models.rs:2325-2342 | get inverts val: every variant is recovered from the code it sends |
| `Valued.SaveSetModeValInjective` | src/models.rs:2349-2354 | no two variants send the same code |
| `Valued.CirculateDirectionValInjective` | src/models.rs:2362-2367 | no two variants send the same code |
| `Valued.PropertyChangeModeValInjective` | src/models.rs:2376-2382 | no two variants send the same code |
| `Valued.PointerModeValInjective` | src/models.rs:2390-2395 | no two variants send the same code |
| `Valued.KeyboardModeValInjective` | src/models.rs:2403-2408 | no two variants send the same code |
| `Valued.GraphicsContextMaskValInjective` | src/models.rs:2438-2464 | no two variants send the same bit |
| `Valued.GraphicsContextMask.Val` | src/models.rs:2438-2464 | every variant sends a mask of exactly one bit |
| `Valued.RectangleOrderingValInjective` | src/models.rs:2475-2482 | no two variants send the same code |
| `Valued.CoordinateModeValInjective` | src/models.rs:2491-2496 | no two variants send the same code |
| `Valued.PolyShapeValInjective` | src/models.rs:2506-2512 | no two variants send the same code |
| `Valued.ImageFormatValInjective` | src/models.rs:2522-2528 | no two variants send the same code |
| `Valued.AllocModeValInjective` | src/models.rs:2537-2542 | no two variants send the same code |
| `Valued.SizeClassValInjective` | src/models.rs:2552-2558 | no two variants send the same code |
| `Valued.KeyboardControlLedModeValInjective` | src/models.rs:2567-2572 | no two variants send the same code |
| `Valued.KeyboardControlAutoRepeatMode.Get` | src/models.rs:2590-2597 | a code inside the table gives Some, any other code None, and the variant returned sends that code back |
| `Valued.KeyboardControlAutoRepeatModeRoundTrip` | src/models.rs:2581-2598 | get inverts val: every variant is recovered from the code it sends |
| `Valued.YesNoDefaultValInjective` | src/models.rs:2607-2613 | no two variants send the same code |
| `Valued.HostFamily.Get` | src/models.rs:2635-2644 | a code inside the table gives Some, any other code None, and the variant returned sends that code back |
| `Valued.HostFamilyRoundTrip` | src/models.rs:2624-2645 | get inverts val: every variant is recovered from the code it sends |
| `Valued.ChangeHostModeValInjective` | src/models.rs:2653-2658 | no two variants send the same code |
| `Valued.CloseDownModeValInjective` | src/models.rs:2668-2674 | no two variants send the same code |
| `Valued.GrabStatus.Get` | src/models.rs:2686-2695 | a code inside the table gives Some, any other code None |
| `Valued.GrabStatusGetInjective` | src/models.rs:2686-2695 | no two codes decode to the same variant |
| `Valued.SetModifierMappingStatus.Get` | src/models.rs:2705-2712 | a code inside the table gives Some, any other code None |
| `Valued.SetModifierMappingStatusGetInjective` | src/models.rs:2705-2712 | no two codes decode to the same variant |
| `Client.Masks` | src/lib.rs:942-945 | the masks write_values works with are the values' own masks, one for one |
| `Client.FirstAbove` | src/lib.rs:948-953 | the insertion point found is after every entry whose mask is not above the new one and at the first entry whose mask is above it |
| `Client.FirstAboveAt` | src/lib.rs:948-953 | any position with that property is the insertion point found |
| `Client.Inserted` | src/lib.rs:955-959 | inserting an index grows the order by one, puts the index at the position and shifts the later entries up by one |
| `Client.InsertionOrder` | src/lib.rs:939-960 | the order built holds one position per value, each a valid index |
| `Client.InsertionOrderSnoc` | src/lib.rs:955-959 | each step of the loop inserts the new index at the insertion point, and pushing `pos` at the end is pushing the index itself |
| `Client.InsertPermutation` | src/lib.rs:955-959 | inserting index n into a permutation of 0..n gives a permutation of 0..n+1 |
| `Client.InsertionOrderPermutation` | src/lib.rs:939-960 | the order is a permutation of the value indexes, so every value is written exactly once |
| `Client.StableSortedAt` | src/lib.rs:939-960 | in a stably sorted order an earlier entry has a smaller mask, or the same mask and a smaller index |
| `Client.InsertSortedAt` | src/lib.rs:948-959 | inserting at the insertion point keeps any pair of entries in stable order |
| `Client.InsertSorted` | src/lib.rs:948-959 | inserting at the insertion point keeps the order stably sorted by mask |
| `Client.InsertionOrderSorted` | src/lib.rs:939-960 | the values are written in increasing mask order, values with equal masks in the order given |
| `Client.SentSize` | src/lib.rs:964-966 | writing k one-word values sends 4k bytes |
| `Client.ValueList` | src/lib.rs:939-967 | definition: the bytes write_values sends: the OR of the masks as a u32, then each value written in the order the insertion loop builds |
| `Client.ValueListLayout` | src/lib.rs:939-967 | a value list starts with the OR of all the masks, followed by one word per value when all values are words |
| `Client.ValueListOrder` | src/lib.rs:939-967 | the order the values are written in is a permutation of the values, stably sorted by mask |
| `Client.WindowValueListSize` | src/lib.rs:939-967 | the value list of n window values is 4 + 4n bytes |
| `Client.GraphicsContextValueListSize` | src/lib.rs:939-967 | the value list of n graphics-context values is 4 + 4n bytes |
| `Client.HeaderAt` | src/lib.rs:261-263 | a request header is opcode, data byte and 16-bit length, read back at 0, 1 and 2 |
| `Client.InputClassCode` | src/lib.rs:270-274 | the window class is sent as the code its val gives |
| `Client.CreateWindowRequest` | src/lib.rs:259-280 | definition: the bytes create_window sends: opcode 1, depth, the length `8 + values.len() as u16`, the fixed fields, then the value list |
| `Client.WindowFields` | src/lib.rs:264-275 | definition: the 24 bytes after the CreateWindow header: window id, parent, x, y, width, height, border width, class, visual |
| `Client.CreateWindowHeader` | src/lib.rs:259-280 | CreateWindow sends opcode 1, the depth, the length 8 + n truncated to 16 bits, and without overflow that length times 4 is the request size |
| `Client.WindowFieldsAt` | src/lib.rs:264-275 | the fixed part of CreateWindow is 24 bytes with wid, parent, x, y, width, height, border width, class and visual at their offsets |
| `Client.ChangeWindowAttributesRequest` | src/lib.rs:283-292 | definition: the bytes change_window_attributes sends: opcode 2 twice (the pad repeats the scratch byte), the length `3 + values.len() as u16`, the window id, then the value list |
| `Client.ChangeWindowAttributesHeader` | src/lib.rs:283-292 | ChangeWindowAttributes sends opcode 2, a pad byte that repeats it, the length 3 + n truncated to 16 bits and the window id, and without overflow the length times 4 is the request size |
| `Client.GetWindowAttributesRequest` | src/lib.rs:295-302 | definition: the bytes get_window_attributes sends: opcode 3 twice, length 2, window id |
| `Client.GetWindowAttributesFields` | src/lib.rs:295-302 | GetWindowAttributes is 8 bytes: opcode 3, length 2 and the window id |
| `Client.MapWindowRequest` | src/lib.rs:305-312 | definition: the bytes map_window sends: opcode 8 twice, length 2, window id |
| `Client.MapWindowFields` | src/lib.rs:305-312 | MapWindow is 8 bytes: opcode 8, length 2 and the window id |
| `Client.CreatePixmapRequest` | src/lib.rs:315-326 | definition: the bytes create_pixmap sends: opcode 53, depth, length 4, pixmap id, drawable, width, height |
| `Client.CreatePixmapFields` | src/lib.rs:315-326 | CreatePixmap is 16 bytes: opcode 53, depth, length 4, pixmap id, drawable, width and height |
| `Client.CreateGcRequest` | src/lib.rs:328-340 | definition: the bytes create_gc sends: opcode 55 twice, the length `4 + values.len() as u16`, context id, drawable, then the value list |
| `Client.CreateGcHeader` | src/lib.rs:328-340 | CreateGC sends opcode 55, a pad byte that repeats it, the length 4 + n truncated to 16 bits, the context id and the drawable, and without overflow the length times 4 is the request size |
| `Client.ConnectRequest` | src/lib.rs:41-52 | definition: the 12 bytes connect sends: 'l', the repeated scratch byte, major 11, minor 0, two zero lengths, two repeated scratch bytes |
| `Client.ConnectRequestFields` | src/lib.rs:41-52 | the connection request is 12 bytes: byte-order byte 'l', protocol 11.0 and two empty authorisation lengths |
| `Client.RepeatFails` | src/lib.rs:106-172 | once one of the repeated reads panics the whole repetition gives that panic |
| `Client.RepeatSize` | src/lib.rs:106-172 | count reads of fixed width w starting at p end at p + count*w and give count items |
| `Client.ByteOrderOf` | src/lib.rs:86-90 | image byte order 0 and 1 are known and decode to the variant that sends them; anything else is unknown |
| `Client.BitOrderOf` | src/lib.rs:91-95 | bitmap bit order 0 and 1 are known and decode to the variant that sends them; anything else is unknown |
| `Client.BackingStoresOf` | src/lib.rs:131-136 | backing stores 0, 1 and 2 are known and decode to the variant that sends them; anything else is unknown |
| `Client.VisualClassOf` | src/lib.rs:152-160 | visual classes 0 to 5 are known and decode to the variant that sends them; anything else is unknown |
| `Client.FormatAt` | src/lib.rs:106-114 | definition: one FORMAT of the setup reply as a function of the input and the cursor: depth, bits per pixel, scanline pad, then 5 bytes skipped |
| `Client.FormatLayout` | src/lib.rs:106-114 | a format is depth, bits per pixel and scanline pad at 0, 1, 2, then 5 pad bytes, 8 in all; it panics at end of input |
| `Client.FormatsFit` | src/lib.rs:106-114 | when 8 bytes per format are left, reading the formats succeeds and ends 8 bytes per format on |
| `Client.VisualAt` | src/lib.rs:150-167 | definition: one VISUALTYPE: id, class (an unknown class panics), bits per rgb value, colormap entries, the three masks, then 4 bytes skipped |
| `Client.VisualLayout` | src/lib.rs:150-167 | a visual is id, class, bits per rgb, colormap entries and the three masks at 0, 4, 5, 6, 8, 12, 16, then 4 pad bytes, 24 in all; an unknown class panics |
| `Client.DepthAt` | src/lib.rs:142-170 | definition: one DEPTH: depth byte, 1 byte skipped, the visual count, 4 bytes skipped, then that many visuals |
| `Client.DepthLayout` | src/lib.rs:142-171 | a depth holds its depth byte, its visual count and exactly that many visuals, and ends 8 + 24 per visual bytes on |
| `Client.RepeatCount` | src/lib.rs:106-172 | a repetition that succeeds gives exactly count items |
| `Client.ScreenAt` | src/lib.rs:117-172 | definition: one SCREEN: the 40-byte fixed part read field by field (an unknown backing-stores code or a bad save-unders bool panics), then as many depths as announced |
| `Client.ScreenLayout` | src/lib.rs:117-172 | a screen has its sixteen fixed fields at offsets 0 to 39 and exactly as many depths as its count says; an unknown backing-store byte or a bad save-unders bool panics |
| `Client.SetupHeadAt` | src/lib.rs:56-71 | definition: the 8-byte head of the setup reply: status, 1 byte skipped, both protocol versions and the additional length, then the status test |
| `Client.SetupHeadLayout` | src/lib.rs:56-70 | the reply head reads successfully exactly when its status is success, records status and both versions and the extra length; statuses failed, authenticate and any other panic with their own reason |
| `Client.SetupFixedAt` | src/lib.rs:75-100 | definition: the fixed part of the setup reply: SetupCountsAt, then SetupImageAt with the vendor length it returns |
| `Client.SetupCountsAt` | src/lib.rs:75-82 | definition: the first 22 bytes of the fixed part: release, resource-id base and mask, motion buffer size, vendor length, maximum request length, screen and format counts |
| `Client.SetupImageAt` | src/lib.rs:83-100 | definition: the image byte order and bit order (an unknown code panics), scanline unit and pad, keycodes, 4 bytes skipped, the vendor, then `vendor_length % 4` bytes skipped |
| `Client.SetupFixedLayout` | src/lib.rs:74-101 | the fixed part of the setup reply has release, resource base and mask, motion buffer size, maximum request length, counts, orders, scanline unit and pad and keycodes at their offsets, and a vendor string of the stated length; unknown orders panic |
| `Client.SetupFixedEnd` | src/lib.rs:99-100 | after the vendor string the reader skips vendor length mod 4 bytes, as written (the protocol pads to a multiple of four) |
| `Client.SetupStatus` | src/lib.rs:63-69 | only the success status lets the connection go on |
| `Client.FormatsAt` | src/lib.rs:103-114 | definition: the announced number of formats read one after another and appended to the record |
| `Client.ScreensAt` | src/lib.rs:116-172 | definition: the announced number of screens read one after another and appended to the record |
| `Client.SetupReplyAt` | src/lib.rs:55-172 | definition: the whole setup reply: head, fixed part, formats, screens, each step passing its panic on |
| `Client.SetupReplyCounts` | src/lib.rs:103-172 | a successful setup reply appends exactly the announced number of formats and of screens to what was there |
| `Client.SetupReplyStatus` | src/lib.rs:63-69 | a reply whose status is not success always panics |
| `Client.FlagBit` | src/models.rs:1239-1248 | or-ing a new flag bit into a smaller mask adds it |
| `Client.XClient.constructor` | src/lib.rs:25-36 | a new client has written and read nothing, is not connected, has an empty connection record, starts resource ids at 0 and has zeroed scratch buffers |
| `Client.XClient.WritePad` | src/lib.rs:811-819 | a pad of length 0 panics and writes nothing; a pad of 1, 2 or 4 bytes writes what the scratch buffer of that size holds, any other length that many zeros |
| `Client.XClient.WriteU8` | src/lib.rs:835-838 | appends the byte and keeps it in the one-byte buffer |
| `Client.XClient.WriteBool` | src/lib.rs:824-830 | appends 1 or 0 and keeps it in the one-byte buffer |
| `Client.XClient.WriteU16` | src/lib.rs:852-856 | appends the two little-endian bytes and keeps them in the two-byte buffer |
| `Client.XClient.WriteI16` | src/lib.rs:844-846 | appends the two bytes of the u16 pattern |
| `Client.XClient.WriteU32` | src/lib.rs:870-876 | appends the four little-endian bytes and keeps them in the four-byte buffer |
| `Client.XClient.WriteI32` | src/lib.rs:862-864 | appends the four bytes of the u32 pattern |
| `Client.XClient.WriteVal` | src/lib.rs:932-934 | a value word is written as a u32 |
| `Client.XClient.WriteValBool` | src/lib.rs:881-886 | a bool value word is 1 or 0 as a u32 |
| `Client.XClient.WriteValU8` | src/lib.rs:892-894 | a byte value word is the byte widened to a u32 |
| `Client.XClient.WriteValI16` | src/lib.rs:900-902 | an i16 value word is its u16 pattern widened to a u32, not sign-extended |
| `Client.XClient.WriteValU16` | src/lib.rs:908-910 | a u16 value word is the value widened to a u32 |
| `Client.XClient.WriteValI32` | src/lib.rs:916-918 | an i32 value word is its u32 pattern |
| `Client.XClient.WriteValU32` | src/lib.rs:924-926 | a u32 value word is the value |
| `Client.XClient.WriteChar` | src/models.rs:2919 | a key code is written as one byte |
| `Client.XClient.WriteI8` | src/models.rs:1168 | an i8 is written as the one byte of its pattern |
| `Client.XClient.WriteRaw` | src/models.rs:1183 | raw bytes are appended unchanged |
| `Client.XClient.WriteValue` | src/models.rs:2818-2922 | writing a value appends exactly the bytes its kind is encoded as |
| `Client.XClient.InsertPosition` | src/lib.rs:946-953 | the inner loop finds the first entry of the order whose value has a mask strictly larger than the new mask, or the order's length when there is none |
| `Client.XClient.OrderValues` | src/lib.rs:940-960 | the first loop of write_values yields the OR of all the masks and the insertion order of the indexes, in which each index is inserted before the first entry with a larger mask |
| `Client.XClient.WriteValues` | src/lib.rs:939-967 | write_values appends the value list: the OR of the masks, then each value in stable mask order |
| `Client.XClient.WriteInOrder` | src/lib.rs:964-966 | the values are written in the order given, one after another |
| `Client.XClient.CreateWindow` | src/lib.rs:259-280 | appends the CreateWindow request for the window's fields as they were on entry |
| `Client.XClient.WriteWindowFields` | src/lib.rs:264-275 | appends the 24-byte fixed part of CreateWindow |
| `Client.XClient.ChangeWindowAttributes` | src/lib.rs:283-292 | appends the ChangeWindowAttributes request |
| `Client.XClient.ChangeWindow` | src/models.rs:928-931 | Window::change replaces the window's attribute list with the given one and appends the ChangeWindowAttributes request for that list; the window id is unchanged |
| `Client.XClient.SetWindow` | src/models.rs:933-952 | Window::set updates one attribute (replaced at the position of the same variant, or appended) and appends the ChangeWindowAttributes request carrying the whole updated list |
| `Client.XClient.GetWindowAttributes` | src/lib.rs:295-302 | appends the GetWindowAttributes request |
| `Client.XClient.MapWindow` | src/lib.rs:305-312 | appends the MapWindow request |
| `Client.XClient.CreatePixmap` | src/lib.rs:315-326 | appends the CreatePixmap request |
| `Client.XClient.CreateGc` | src/lib.rs:328-340 | appends the CreateGC request |
| `Client.XClient.SendConnect` | src/lib.rs:41-52 | appends the 12-byte connection request |
| `Client.XClient.NewResourceId` | src/lib.rs:179-191 | panics exactly when the counter is above the resource mask, leaving it; otherwise returns base OR counter and advances the counter by one (kept to 32 bits as in a release build) |
| `Client.XClient.ReadPad` | src/lib.rs:972-974 | skips the bytes, stopping at the end of the input, with the whole input taken as already buffered |
| `Client.XClient.ReadU8` | src/lib.rs:991-994 | reads one byte, or panics at end of input |
| `Client.XClient.ReadBool` | src/lib.rs:979-986 | reads one byte as a bool, panicking on a byte above 1 or at end of input |
| `Client.XClient.ReadChar` | src/lib.rs:1025-1027 | reads one byte as a key code |
| `Client.XClient.ReadU16` | src/lib.rs:1008-1011 | reads a little-endian u16, or panics at end of input |
| `Client.XClient.ReadI16` | src/lib.rs:1000-1002 | reads a u16 and takes its signed value |
| `Client.XClient.ReadU32` | src/lib.rs:1017-1020 | reads a little-endian u32, or panics at end of input |
| `Client.XClient.ReadStr` | src/lib.rs:1032-1036 | reads exactly len bytes, or panics at end of input |
| `Client.XClient.ReadError` | src/lib.rs:342-368 | reads an error body: the result and the cursor after it are what ErrorAt gives |
| `Client.XClient.ReadFormat` | src/lib.rs:106-114 | reads one pixmap format as FormatAt gives it |
| `Client.XClient.ReadVisual` | src/lib.rs:150-167 | reads one visual as VisualAt gives it |
| `Client.XClient.ReadVisuals` | src/lib.rs:149-168 | reads count visuals, stopping at the first panic |
| `Client.XClient.ReadDepth` | src/lib.rs:142-170 | reads one depth and its visuals as DepthAt gives it |
| `Client.XClient.ReadDepths` | src/lib.rs:141-171 | reads count depths, stopping at the first panic |
| `Client.XClient.ReadScreen` | src/lib.rs:117-172 | reads one screen and its depths as ScreenAt gives it |
| `Client.XClient.ReadSetupFixed` | src/lib.rs:74-100 | reads the fixed part of the setup reply and the vendor into the connection record as SetupFixedAt gives it |
| `Client.XClient.ReadSetupCounts` | src/lib.rs:74-84 | reads release number to format count into the connection record and returns the vendor length |
| `Client.XClient.ReadSetupImage` | src/lib.rs:85-98 | reads the image orders, scanline fields and keycodes, then the vendor and its pad |
| `Client.XClient.ReadFormats` | src/lib.rs:103-114 | appends the announced number of formats to the connection record |
| `Client.XClient.ReadScreens` | src/lib.rs:116-172 | appends the announced number of screens to the connection record |
| `Client.XClient.ReadSetup` | src/lib.rs:55-172 | reads the whole setup reply into the connection record as SetupReplyAt gives it |
| `Client.XClient.Connect` | src/lib.rs:39-174 | sends the connection request, then reads the setup reply into the connection record, leaving the connected flag as it was |
| `Client.XClient.WritePoint` | src/models.rs:1093-1096 | appends the point's bytes |
| `Client.XClient.WriteRectangle` | src/models.rs:1107-1112 | appends the rectangle's bytes |
| `Client.XClient.WriteArc` | src/models.rs:1125-1132 | appends the arc's bytes |
| `Client.XClient.WriteSegment` | src/models.rs:1143-1148 | appends the segment's bytes |
| `Client.XClient.WriteTextItem8` | src/models.rs:1161-1186 | appends the item's bytes, as many as its declared length |
| `Client.XClient.WriteTextItem16` | src/models.rs:1197-1225 | appends the item's bytes, as many as its declared length |
| `Client.XClient.WriteColorItem` | src/models.rs:1238-1256 | appends the colour item's 12 bytes |
| `XReaderWriter.XReadHelper.constructor` | src/xreaderwriter.rs:45-53 | a new reader is at the start of its input with zeroed scratch buffers |
| `XReaderWriter.XReadHelper.ReadPad` | src/xreaderwriter.rs:522-524 | skips the bytes, stopping at the end of the input, with the whole input taken as already buffered |
| `XReaderWriter.XReadHelper.ReadU8` | src/xreaderwriter.rs:541-544 | reads one byte, or panics at end of input, and keeps it in the one-byte buffer |
| `XReaderWriter.XReadHelper.ReadBool` | src/xreaderwriter.rs:529-536 | reads one byte as a bool, panicking on a byte above 1 or at end of input |
| `XReaderWriter.XReadHelper.ReadChar` | src/xreaderwriter.rs:575-577 | reads one byte as a key code |
| `XReaderWriter.XReadHelper.ReadU16` | src/xreaderwriter.rs:558-561 | reads a little-endian u16, or panics at end of input |
| `XReaderWriter.XReadHelper.ReadI16` | src/xreaderwriter.rs:550-552 | reads a u16 and takes its signed value |
| `XReaderWriter.XReadHelper.ReadU32` | src/xreaderwriter.rs:567-570 | reads a little-endian u32, or panics at end of input |
| `XReaderWriter.XReadHelper.ReadStr` | src/xreaderwriter.rs:582-586 | reads exactly len bytes, or panics at end of input |
| `XReaderWriter.XReadHelper.ReadError` | src/xreaderwriter.rs:58-84 | reads an error body: the result and the cursor after it are what ErrorAt gives |
| `XReaderWriter.PointerEventAt` | src/xreaderwriter.rs:89-103 | definition: read_pointer_event as a function of the input and the cursor: time, root, event, child, four i16 coordinates, state, same-screen bool and one byte |
| `XReaderWriter.XReadHelper.ReadPointerEvent` | src/xreaderwriter.rs:89-103 | reads the shared pointer-event body as PointerEventAt gives it: the eleven fields in order |
| `XReaderWriter.PointerEventWithModeAt` | src/xreaderwriter.rs:108-122 | definition: read_pointer_event_with_mode: as read_pointer_event, with the mode byte in place of the same-screen bool |
| `XReaderWriter.XReadHelper.ReadPointerEventWithMode` | src/xreaderwriter.rs:108-122 | reads the enter/leave body as PointerEventWithModeAt gives it: the mode byte in place of same-screen |
| `XReaderWriter.FocusEventAt` | src/xreaderwriter.rs:125-131 | definition: read_focus_event: the event window and the mode byte, then 23 bytes skipped |
| `XReaderWriter.XReadHelper.ReadFocusEvent` | src/xreaderwriter.rs:125-131 | reads the focus-event body as FocusEventAt gives it: event window and mode, then 23 pad bytes |
| `XReaderWriter.XReadHelper.ReadKeymapNotify` | src/xreaderwriter.rs:250-253 | read_keymap_notify always panics (not implemented) and reads nothing |
| `XReaderWriter.KeyPressAt` | src/xreaderwriter.rs:134-139 | definition: read_key_press as a function of the input and the cursor: the same reads in the same order, giving the event or None and the cursor after it |
| `XReaderWriter.KeyPressLayout` | src/xreaderwriter.rs:134-139 | a complete KeyPress body reads as: time, root, event, child at 0, 4, 8, 12, root and event x, y at 16 to 22, the key-button state decoded from 24, same-screen at 26; a same-screen byte above 1 panics; 28 bytes |
| `XReaderWriter.XReadHelper.ReadKeyPress` | src/xreaderwriter.rs:134-139 | the result and the cursor after it are what KeyPressAt gives at the old cursor, so an input that ends early panics |
| `XReaderWriter.KeyReleaseAt` | src/xreaderwriter.rs:142-147 | definition: read_key_release as a function of the input and the cursor: the same reads in the same order, giving the event or None and the cursor after it |
| `XReaderWriter.KeyReleaseLayout` | src/xreaderwriter.rs:142-147 | a complete KeyRelease body reads as: time, root, event, child at 0, 4, 8, 12, root and event x, y at 16 to 22, the key-button state decoded from 24, same-screen at 26; a same-screen byte above 1 panics; 28 bytes |
| `XReaderWriter.XReadHelper.ReadKeyRelease` | src/xreaderwriter.rs:142-147 | the result and the cursor after it are what KeyReleaseAt gives at the old cursor, so an input that ends early panics |
| `XReaderWriter.ButtonPressAt` | src/xreaderwriter.rs:150-155 | definition: read_button_press as a function of the input and the cursor: the same reads in the same order, giving the event or None and the cursor after it |
| `XReaderWriter.ButtonPressLayout` | src/xreaderwriter.rs:150-155 | a complete ButtonPress body reads as: time, root, event, child at 0, 4, 8, 12, root and event x, y at 16 to 22, the key-button state decoded from 24, same-screen at 26; a same-screen byte above 1 panics; 28 bytes |
| `XReaderWriter.XReadHelper.ReadButtonPress` | src/xreaderwriter.rs:150-155 | the result and the cursor after it are what ButtonPressAt gives at the old cursor, so an input that ends early panics |
| `XReaderWriter.ButtonReleaseAt` | src/xreaderwriter.rs:158-163 | definition: read_button_release as a function of the input and the cursor: the same reads in the same order, giving the event or None and the cursor after it |
| `XReaderWriter.ButtonReleaseLayout` | src/xreaderwriter.rs:158-163 | a complete ButtonRelease body reads as: time, root, event, child at 0, 4, 8, 12, root and event x, y at 16 to 22, the key-button state decoded from 24, same-screen at 26; a same-screen byte above 1 panics; 28 bytes |
| `XReaderWriter.XReadHelper.ReadButtonRelease` | src/xreaderwriter.rs:158-163 | the result and the cursor after it are what ButtonReleaseAt gives at the old cursor, so an input that ends early panics |
| `XReaderWriter.MotionNotifyAt` | src/xreaderwriter.rs:166-175 | definition: read_motion_notify as a function of the input and the cursor: the same reads in the same order, giving the event or None and the cursor after it |
| `XReaderWriter.MotionNotifyLayout` | src/xreaderwriter.rs:166-175 | a complete MotionNotify body reads as: time, root, event, child at 0, 4, 8, 12, root and event x, y at 16 to 22, the key-button state decoded from 24, same-screen at 26; the whole body is read before the detail is looked up, so a bad same-screen byte panics first and an unknown detail then gives None after 28 bytes |
| `XReaderWriter.XReadHelper.ReadMotionNotify` | src/xreaderwriter.rs:166-175 | the result and the cursor after it are what MotionNotifyAt gives at the old cursor, so an input that ends early panics |
| `XReaderWriter.EnterNotifyAt` | src/xreaderwriter.rs:178-197 | definition: read_enter_notify as a function of the input and the cursor: the same reads in the same order, giving the event or None and the cursor after it |
| `XReaderWriter.EnterNotifyLayout` | src/xreaderwriter.rs:178-197 | a complete EnterNotify body reads as: time, root, event, child at 0, 4, 8, 12, root and event x, y at 16 to 22, the key-button state decoded from 24, mode at 26, same-screen and focus from bit 1 and 2 of byte 27; an unknown detail or mode gives None, still after all 28 bytes |
| `XReaderWriter.XReadHelper.ReadEnterNotify` | src/xreaderwriter.rs:178-197 | the result and the cursor after it are what EnterNotifyAt gives at the old cursor, so an input that ends early panics |
| `XReaderWriter.LeaveNotifyAt` | src/xreaderwriter.rs:200-219 | definition: read_leave_notify as a function of the input and the cursor: the same reads in the same order, giving the event or None and the cursor after it |
| `XReaderWriter.LeaveNotifyLayout` | src/xreaderwriter.rs:200-219 | a complete LeaveNotify body reads as: time, root, event, child at 0, 4, 8, 12, root and event x, y at 16 to 22, the key-button state decoded from 24, mode at 26, same-screen and focus from bit 1 and 2 of byte 27; an unknown detail or mode gives None, still after all 28 bytes |
| `XReaderWriter.XReadHelper.ReadLeaveNotify` | src/xreaderwriter.rs:200-219 | the result and the cursor after it are what LeaveNotifyAt gives at the old cursor, so an input that ends early panics |
| `XReaderWriter.FocusInAt` | src/xreaderwriter.rs:222-233 | definition: read_focus_in as a function of the input and the cursor: the same reads in the same order, giving the event or None and the cursor after it |
| `XReaderWriter.FocusInLayout` | src/xreaderwriter.rs:222-233 | a complete FocusIn body reads as: event window at 0 and mode at 4; an unknown detail or mode gives None after 28 bytes |
| `XReaderWriter.XReadHelper.ReadFocusIn` | src/xreaderwriter.rs:222-233 | the result and the cursor after it are what FocusInAt gives at the old cursor, so an input that ends early panics |
| `XReaderWriter.FocusOutAt` | src/xreaderwriter.rs:236-247 | definition: read_focus_out as a function of the input and the cursor: the same reads in the same order, giving the event or None and the cursor after it |
| `XReaderWriter.FocusOutLayout` | src/xreaderwriter.rs:236-247 | a complete FocusOut body reads as: event window at 0 and mode at 4, built as a FocusIn event as written; an unknown detail or mode gives None after 28 bytes |
| `XReaderWriter.XReadHelper.ReadFocusOut` | src/xreaderwriter.rs:236-247 | the result and the cursor after it are what FocusOutAt gives at the old cursor, so an input that ends early panics |
| `XReaderWriter.ExposeAt` | src/xreaderwriter.rs:256-265 | definition: read_expose as a function of the input and the cursor: the same reads in the same order, giving the event or None and the cursor after it |
| `XReaderWriter.ExposeLayout` | src/xreaderwriter.rs:256-265 | a complete Expose body reads as: window at 0, x, y, width, height, count at 4 to 12; 28 bytes |
| `XReaderWriter.XReadHelper.ReadExpose` | src/xreaderwriter.rs:256-265 | the result and the cursor after it are what ExposeAt gives at the old cursor, so an input that ends early panics |
| `XReaderWriter.GraphicsExposureAt` | src/xreaderwriter.rs:268-279 | definition: read_graphics_exposure as a function of the input and the cursor: the same reads in the same order, giving the event or None and the cursor after it |
| `XReaderWriter.GraphicsExposureLayout` | src/xreaderwriter.rs:268-279 | a complete GraphicsExposure body reads as: drawable at 0, x, y, width, height at 4 to 10, minor opcode at 12, count at 14, major opcode at 16; 28 bytes |
| `XReaderWriter.XReadHelper.ReadGraphicsExposure` | src/xreaderwriter.rs:268-279 | the result and the cursor after it are what GraphicsExposureAt gives at the old cursor, so an input that ends early panics |
| `XReaderWriter.NoExposureAt` | src/xreaderwriter.rs:282-288 | definition: read_no_exposure as a function of the input and the cursor: the same reads in the same order, giving the event or None and the cursor after it |
| `XReaderWriter.NoExposureLayout` | src/xreaderwriter.rs:282-288 | a complete NoExposure body reads as: drawable at 0, minor opcode at 4, major opcode at 6; 28 bytes |
| `XReaderWriter.XReadHelper.ReadNoExposure` | src/xreaderwriter.rs:282-288 | the result and the cursor after it are what NoExposureAt gives at the old cursor, so an input that ends early panics |
| `XReaderWriter.VisibilityNotifyAt` | src/xreaderwriter.rs:291-299 | definition: read_visibility_notify as a function of the input and the cursor: the same reads in the same order, giving the event or None and the cursor after it |
| `XReaderWriter.VisibilityNotifyLayout` | src/xreaderwriter.rs:291-299 | a complete VisibilityNotify body reads as: window at 0, state at 4; an unknown state gives None after only 5 bytes |
| `XReaderWriter.XReadHelper.ReadVisibilityNotify` | src/xreaderwriter.rs:291-299 | the result and the cursor after it are what VisibilityNotifyAt gives at the old cursor, so an input that ends early panics |
| `XReaderWriter.CreateNotifyAt` | src/xreaderwriter.rs:302-313 | definition: read_create_notify as a function of the input and the cursor: the same reads in the same order, giving the event or None and the cursor after it |
| `XReaderWriter.CreateNotifyLayout` | src/xreaderwriter.rs:302-313 | a complete CreateNotify body reads as: parent, window at 0, 4, x, y at 8, 10, width, height, border width at 12 to 16, override-redirect at 18; a bad bool panics; 28 bytes |
| `XReaderWriter.XReadHelper.ReadCreateNotify` | src/xreaderwriter.rs:302-313 | the result and the cursor after it are what CreateNotifyAt gives at the old cursor, so an input that ends early panics |
| `XReaderWriter.DestroyNotifyAt` | src/xreaderwriter.rs:316-321 | definition: read_destroy_notify as a function of the input and the cursor: the same reads in the same order, giving the event or None and the cursor after it |
| `XReaderWriter.DestroyNotifyLayout` | src/xreaderwriter.rs:316-321 | a complete DestroyNotify body reads as: event and window at 0 and 4; 28 bytes |
| `XReaderWriter.XReadHelper.ReadDestroyNotify` | src/xreaderwriter.rs:316-321 | the result and the cursor after it are what DestroyNotifyAt gives at the old cursor, so an input that ends early panics |
| `XReaderWriter.UnmapNotifyAt` | src/xreaderwriter.rs:324-330 | definition: read_unmap_notify as a function of the input and the cursor: the same reads in the same order, giving the event or None and the cursor after it |
| `XReaderWriter.UnmapNotifyLayout` | src/xreaderwriter.rs:324-330 | a complete UnmapNotify body reads as: event and window at 0 and 4, from-configure at 8; a bad bool panics; 28 bytes |
| `XReaderWriter.XReadHelper.ReadUnmapNotify` | src/xreaderwriter.rs:324-330 | the result and the cursor after it are what UnmapNotifyAt gives at the old cursor, so an input that ends early panics |
| `XReaderWriter.MapNotifyAt` | src/xreaderwriter.rs:333-339 | definition: read_map_notify as a function of the input and the cursor: the same reads in the same order, giving the event or None and the cursor after it |
| `XReaderWriter.MapNotifyLayout` | src/xreaderwriter.rs:333-339 | a complete MapNotify body reads as: event and window at 0 and 4, override-redirect at 8; a bad bool panics; 28 bytes |
| `XReaderWriter.XReadHelper.ReadMapNotify` | src/xreaderwriter.rs:333-339 | the result and the cursor after it are what MapNotifyAt gives at the old cursor, so an input that ends early panics |
| `XReaderWriter.MapRequestAt` | src/xreaderwriter.rs:342-347 | definition: read_map_request as a function of the input and the cursor: the same reads in the same order, giving the event or None and the cursor after it |
| `XReaderWriter.MapRequestLayout` | src/xreaderwriter.rs:342-347 | a complete MapRequest body reads as: parent and window at 0 and 4; 28 bytes |
| `XReaderWriter.XReadHelper.ReadMapRequest` | src/xreaderwriter.rs:342-347 | the result and the cursor after it are what MapRequestAt gives at the old cursor, so an input that ends early panics |
| `XReaderWriter.ReparentNotifyAt` | src/xreaderwriter.rs:349-358 | definition: read_reparent_notify as a function of the input and the cursor: the same reads in the same order, giving the event or None and the cursor after it |
| `XReaderWriter.ReparentNotifyLayout` | src/xreaderwriter.rs:349-358 | a complete ReparentNotify body reads as: event, window, parent at 0, 4, 8, x, y at 12, 14, override-redirect at 16; a bad bool panics; 28 bytes |
| `XReaderWriter.XReadHelper.ReadReparentNotify` | src/xreaderwriter.rs:349-358 | the result and the cursor after it are what ReparentNotifyAt gives at the old cursor, so an input that ends early panics |
| `XReaderWriter.ConfigureNotifyAt` | src/xreaderwriter.rs:361-373 | definition: read_configure_notify as a function of the input and the cursor: the same reads in the same order, giving the event or None and the cursor after it |
| `XReaderWriter.ConfigureNotifyLayout` | src/xreaderwriter.rs:361-373 | a complete ConfigureNotify body reads as: event, window, above-sibling at 0, 4, 8, x, y at 12, 14, width, height, border width at 16 to 20, override-redirect at 22; a bad bool panics; 28 bytes |
| `XReaderWriter.XReadHelper.ReadConfigureNotify` | src/xreaderwriter.rs:361-373 | the result and the cursor after it are what ConfigureNotifyAt gives at the old cursor, so an input that ends early panics |
| `XReaderWriter.ConfigureRequestAt` | src/xreaderwriter.rs:376-392 | definition: read_configure_request as a function of the input and the cursor: the same reads in the same order, giving the event or None and the cursor after it |
| `XReaderWriter.ConfigureRequestLayout` | src/xreaderwriter.rs:376-392 | a complete ConfigureRequest body reads as: parent, window, sibling at 0, 4, 8, x, y at 12, 14, width, height, border width at 16 to 20, the value list decoded from 22; an unknown stack mode gives None before anything is read |
| `XReaderWriter.XReadHelper.ReadConfigureRequest` | src/xreaderwriter.rs:376-392 | the result and the cursor after it are what ConfigureRequestAt gives at the old cursor, so an input that ends early panics |
| `XReaderWriter.GravityNotifyAt` | src/xreaderwriter.rs:395-402 | definition: read_gravity_notify as a function of the input and the cursor: the same reads in the same order, giving the event or None and the cursor after it |
| `XReaderWriter.GravityNotifyLayout` | src/xreaderwriter.rs:395-402 | a complete GravityNotify body reads as: event and window at 0 and 4, x, y at 8 and 10; 28 bytes |
| `XReaderWriter.XReadHelper.ReadGravityNotify` | src/xreaderwriter.rs:395-402 | the result and the cursor after it are what GravityNotifyAt gives at the old cursor, so an input that ends early panics |
| `XReaderWriter.ResizeRequestAt` | src/xreaderwriter.rs:405-411 | definition: read_resize_request as a function of the input and the cursor: the same reads in the same order, giving the event or None and the cursor after it |
| `XReaderWriter.ResizeRequestLayout` | src/xreaderwriter.rs:405-411 | a complete ResizeRequest body reads as: window at 0, width and height at 4 and 6; 28 bytes |
| `XReaderWriter.XReadHelper.ReadResizeRequest` | src/xreaderwriter.rs:405-411 | the result and the cursor after it are what ResizeRequestAt gives at the old cursor, so an input that ends early panics |
| `XReaderWriter.CirculateNotifyAt` | src/xreaderwriter.rs:414-424 | definition: read_circulate_notify as a function of the input and the cursor: the same reads in the same order, giving the event or None and the cursor after it |
| `XReaderWriter.CirculateNotifyLayout` | src/xreaderwriter.rs:414-424 | a complete CirculateNotify body reads as: event and window at 0 and 4, place at 12; an unknown place gives None after 13 bytes |
| `XReaderWriter.XReadHelper.ReadCirculateNotify` | src/xreaderwriter.rs:414-424 | the result and the cursor after it are what CirculateNotifyAt gives at the old cursor, so an input that ends early panics |
| `XReaderWriter.CirculateRequestAt` | src/xreaderwriter.rs:427-437 | definition: read_circulate_request as a function of the input and the cursor: the same reads in the same order, giving the event or None and the cursor after it |
| `XReaderWriter.CirculateRequestLayout` | src/xreaderwriter.rs:427-437 | a complete CirculateRequest body reads as: parent and window at 0 and 4, place at 12; an unknown place gives None after 13 bytes |
| `XReaderWriter.XReadHelper.ReadCirculateRequest` | src/xreaderwriter.rs:427-437 | the result and the cursor after it are what CirculateRequestAt gives at the old cursor, so an input that ends early panics |
| `XReaderWriter.PropertyNotifyAt` | src/xreaderwriter.rs:440-450 | definition: read_property_notify as a function of the input and the cursor: the same reads in the same order, giving the event or None and the cursor after it |
| `XReaderWriter.PropertyNotifyLayout` | src/xreaderwriter.rs:440-450 | a complete PropertyNotify body reads as: window, atom, time at 0, 4, 8, state at 12; an unknown state gives None after 13 bytes |
| `XReaderWriter.XReadHelper.ReadPropertyNotify` | src/xreaderwriter.rs:440-450 | the result and the cursor after it are what PropertyNotifyAt gives at the old cursor, so an input that ends early panics |
| `XReaderWriter.SelectionClearAt` | src/xreaderwriter.rs:453-459 | definition: read_selection_clear as a function of the input and the cursor: the same reads in the same order, giving the event or None and the cursor after it |
| `XReaderWriter.SelectionClearLayout` | src/xreaderwriter.rs:453-459 | a complete SelectionClear body reads as: time, owner, selection at 0, 4, 8; 28 bytes |
| `XReaderWriter.XReadHelper.ReadSelectionClear` | src/xreaderwriter.rs:453-459 | the result and the cursor after it are what SelectionClearAt gives at the old cursor, so an input that ends early panics |
| `XReaderWriter.SelectionRequestAt` | src/xreaderwriter.rs:462-471 | definition: read_selection_request as a function of the input and the cursor: the same reads in the same order, giving the event or None and the cursor after it |
| `XReaderWriter.SelectionRequestLayout` | src/xreaderwriter.rs:462-471 | a complete SelectionRequest body reads as: time, owner, requestor, selection, target, property at 0 to 20; 28 bytes |
| `XReaderWriter.XReadHelper.ReadSelectionRequest` | src/xreaderwriter.rs:462-471 | the result and the cursor after it are what SelectionRequestAt gives at the old cursor, so an input that ends early panics |
| `XReaderWriter.SelectionNotifyAt` | src/xreaderwriter.rs:474-482 | definition: read_selection_notify as a function of the input and the cursor: the same reads in the same order, giving the event or None and the cursor after it |
| `XReaderWriter.SelectionNotifyLayout` | src/xreaderwriter.rs:474-482 | a complete SelectionNotify body reads as: time, requestor, selection, target, property at 0 to 16; 28 bytes |
| `XReaderWriter.XReadHelper.ReadSelectionNotify` | src/xreaderwriter.rs:474-482 | the result and the cursor after it are what SelectionNotifyAt gives at the old cursor, so an input that ends early panics |
| `XReaderWriter.ColormapNotifyAt` | src/xreaderwriter.rs:485-495 | definition: read_colormap_notify as a function of the input and the cursor: the same reads in the same order, giving the event or None and the cursor after it |
| `XReaderWriter.ColormapNotifyLayout` | src/xreaderwriter.rs:485-495 | a complete ColormapNotify body reads as: window and colormap at 0 and 4, new at 8, state at 9; a bad bool panics, an unknown state gives None after 10 bytes |
| `XReaderWriter.XReadHelper.ReadColormapNotify` | src/xreaderwriter.rs:485-495 | the result and the cursor after it are what ColormapNotifyAt gives at the old cursor, so an input that ends early panics |
| `XReaderWriter.ClientMessageAt` | src/xreaderwriter.rs:498-503 | definition: read_client_message as a function of the input and the cursor: the same reads in the same order, giving the event or None and the cursor after it |
| `XReaderWriter.ClientMessageLayout` | src/xreaderwriter.rs:498-503 | a complete ClientMessage body reads as: window and type at 0 and 4 with the format given; 28 bytes |
| `XReaderWriter.XReadHelper.ReadClientMessage` | src/xreaderwriter.rs:498-503 | the result and the cursor after it are what ClientMessageAt gives at the old cursor, so an input that ends early panics |
| `XReaderWriter.MappingNotifyAt` | src/xreaderwriter.rs:506-515 | definition: read_mapping_notify as a function of the input and the cursor: the same reads in the same order, giving the event or None and the cursor after it |
| `XReaderWriter.MappingNotifyLayout` | src/xreaderwriter.rs:506-515 | a complete MappingNotify body reads as: request at 0, first keycode and count at 1 and 2; an unknown request gives None after 1 byte |
| `XReaderWriter.XReadHelper.ReadMappingNotify` | src/xreaderwriter.rs:506-515 | the result and the cursor after it are what MappingNotifyAt gives at the old cursor, so an input that ends early panics |
| `SpecParse.IsMainLine` | tools/specparse.py:12 | definition: `reg_main_line`: one or more ASCII letters and digits and nothing else |
| `SpecParse.MatchRequestLen` | tools/specparse.py:13 | definition: `reg_request_len`: five spaces, the number 2, spaces, a token, spaces, "request length"; gives the token |
| `SpecParse.MatchReplyLen` | tools/specparse.py:14 | definition: `reg_reply_len`: five spaces, a number, spaces, a token, spaces, "reply length"; gives the number and the token |
| `SpecParse.MatchStandard` | tools/specparse.py:15 | definition: `reg_standard`: five spaces, a number, spaces, a word, spaces, a name up to the end; gives all three |
| `SpecParse.MatchUnused` | tools/specparse.py:16 | definition: `reg_unused`: five spaces, a number, spaces, "unused"; gives the number |
| `SpecParse.MatchData` | tools/specparse.py:17 | definition: `reg_data`: five spaces, a number, spaces, "data"; gives the number |
| `SpecParse.MatchEnumerable` | tools/specparse.py:18 | definition: `reg_enumerable`: five spaces, a number, spaces, a name up to the end; gives the number and the name |
| `SpecParse.MatchEnum` | tools/specparse.py:19 | definition: `reg_enum`: ten spaces, a number, spaces, then word characters and `#` up to the end |
| `SpecParse.Run` | tools/specparse.py:15 | a run of one character class from i stops inside the line |
| `SpecParse.RunFacts` | tools/specparse.py:15 | every character of the run is in the class and the character it stops at is not, as a greedy `\s+`, `\S+`, `\d+` or `\w+` does |
| `SpecParse.HeadOf` | tools/specparse.py:14-19 | a row head is the indentation, digits and at least one space, all inside the line |
| `SpecParse.Chomp` | tools/specparse.py:30-31 | stripping newlines removes exactly the trailing newlines and leaves a line that does not end in one |
| `SpecParse.Normalize` | tools/specparse.py:103 | replacing '-' and ' ' by '_' keeps the length of the name |
| `SpecParse.StandardPrim` | tools/specparse.py:84-98 | a width of 1, 2 or 4 and only those gives a primitive of that width; it is bool exactly for a 1-byte BOOL row and signed exactly for an INT8, INT16 or INT32 row that is not a 1-byte BOOL row |
| `SpecParse.FieldKind` | tools/specparse.py:194-242 | definition: the row tests both passes share after their length test, in their order: standard, unused, data, enumerable, enum value, otherwise unparsed |
| `SpecParse.ReadKind` | tools/specparse.py:60-143 | definition: the kind read gives a row: the reply-length test first, then the shared tests |
| `SpecParse.WriteKind` | tools/specparse.py:184-242 | definition: the kind write gives a row: the request-length test first, then the shared tests |
| `SpecParse.Classify` | tools/specparse.py:29-57 | definition: the tests each pass makes on a line, in order: newlines stripped, blank, header, marker, otherwise a field row with the kind read and write each give it |
| `SpecParse.ClassifyAll` | tools/specparse.py:29-31 | every line of the file is classified, one for one |
| `SpecParse.ReadRow` | tools/specparse.py:60-148 | definition: one field row of a reply in read: the byte count, the names recorded and the statement printed for each row kind, or the diagnostic |
| `SpecParse.ReadLine` | tools/specparse.py:29-148 | definition: one line in read: blank lines skipped, a header sets head, a marker closes the previous message and opens this one or raises without a head, rows outside a reply skipped |
| `SpecParse.ReadLines` | tools/specparse.py:21-148 | definition: the state and the printed output of read after the first k lines, nothing changing after a raise |
| `SpecParse.ReadFieldRow` | tools/specparse.py:60-148 | the reading of one field row inside a reply is what ReadRow gives, and leaves head, old head and the in-response flag as they were |
| `SpecParse.WriteRow` | tools/specparse.py:184-247 | definition: one field row of a request or event in write: the written count, the pad flag and the statement printed for each row kind, or the diagnostic |
| `SpecParse.WriteHeader` | tools/specparse.py:163-171 | definition: what a header prints in write: the deferred pad call, the not-32-bytes warning for events, a blank line and the header |
| `SpecParse.WriteLine` | tools/specparse.py:156-247 | definition: one line in write: blank lines skipped, a header prints and resets the state, a marker starts the skipped reply, other rows go to WriteRow |
| `SpecParse.WriteLines` | tools/specparse.py:150-247 | definition: the state and the printed output of write after the first k lines |
| `SpecParse.WriteFieldRow` | tools/specparse.py:184-247 | the writing of one field row of a request is what WriteRow gives, and leaves the in-response flag as it was |
| `SpecParse.ClassifyLine` | tools/specparse.py:29-55 | the loop that strips newlines and the tests that follow classify the line as Classify says |
| `SpecParse.ReadStep` | tools/specparse.py:33-148 | one pass of the read loop changes the state and prints what ReadLine gives, and stops exactly when ReadLine raises |
| `SpecParse.Read` | tools/specparse.py:21-148 | read prints what the fold of ReadLine over the lines prints, and raises exactly when that fold raises |
| `SpecParse.WriteStep` | tools/specparse.py:160-247 | one pass of the write loop changes the state and prints what WriteLine gives |
| `SpecParse.Write` | tools/specparse.py:150-247 | write prints what the fold of WriteLine over the lines prints |
| `SpecParse.RaisedStays` | tools/specparse.py:43-44 | once read has raised, no later line changes its result |
| `SpecParseProps.RunUpTo` | tools/specparse.py:15 | a run that is all in the class and stops at a character outside it ends exactly there |
| `SpecParseProps.NoNewlineFrom` | tools/specparse.py:15 | a tail without newlines satisfies the `.*` of a pattern |
| `SpecParseProps.LowerTail` | tools/specparse.py:16-17 | a lower-case word at the end of a row is all word characters and no further token follows it |
| `SpecParseProps.UnusedBeforeEnumerable` | tools/specparse.py:16-18 | an unused row also matches the enumerable pattern with the name 'unused', matches none of the length or standard patterns, and is read and written as unused because unused is tried first |
| `SpecParseProps.DataBeforeEnumerable` | tools/specparse.py:17-18 | a data row also matches the enumerable pattern with the name 'data', matches no earlier pattern and is read and written as data because data is tried first |
| `SpecParseProps.LengthRowIsStandard` | tools/specparse.py:15 | a row whose second token is a word and whose rest is a single token matches the standard pattern with that token as the field |
| `SpecParseProps.ReplyLengthByMode` | tools/specparse.py:60-80 | a reply-length row is read as a reply length, but written as a standard row named 'reply length' since write has no reply-length case |
| `SpecParseProps.RequestLengthByMode` | tools/specparse.py:184-193 | a request-length row is written as a request length, but read as a standard 2-byte row named 'request length' since read has no request-length case |
| `SpecParseProps.EnumValueRow` | tools/specparse.py:19 | a row of an enumeration is indented ten spaces, is no field row, and is skipped by both read and write |
| `SpecParseProps.IndentedIsField` | tools/specparse.py:36-57 | a line with a row head is neither a header nor a marker, so it reaches the field patterns |
| `SpecParseProps.NormalizeAt` | tools/specparse.py:103 | each character of a normalized name is the original character normalized |
| `SpecParseProps.NormalizeSpec` | tools/specparse.py:103 | a normalized name has the same length, has '_' exactly where '-' or ' ' was and the same character elsewhere, contains neither, and normalizing it again changes nothing |
| `SpecParseProps.ReadFixedRow` | tools/specparse.py:81-107 | a standard or enumerable row of width 1, 2 or 4 advances the byte count by its width; it prints its read, and records its name, exactly when the count after it is above 8 (the header bytes are skipped) |
| `SpecParseProps.ReadSkippedRow` | tools/specparse.py:108-120 | an unused or data row advances the count by its length and prints a skip or a raw read exactly when the count before it is above 8; only data records a name |
| `SpecParseProps.ReadReplyLengthRow` | tools/specparse.py:60-80 | a reply-length row advances the count by its width plus 2 and prints the extension read exactly when the count after the width is above 8 |
| `SpecParseProps.ReadBadWidth` | tools/specparse.py:73-75 | a length, standard or enumerable row of any other width prints the could-not-parse comment and changes nothing |
| `SpecParseProps.ReadRowOutput` | tools/specparse.py:60-148 | a row prints at most one line, never a heading or a constructor, and records exactly the name of what it printed |
| `SpecParseProps.AppendOne` | tools/specparse.py:46-53 | printing one more item moves the names since the last heading, the last heading and the heading and constructor counts as expected |
| `SpecParseProps.ReadMarkerAgrees` | tools/specparse.py:42-55 | a reply marker keeps the read invariant: recorded names are the names printed since the last heading and the previous head is that heading |
| `SpecParseProps.ReadRowAgrees` | tools/specparse.py:60-148 | a field row keeps the read invariant |
| `SpecParseProps.ReadInvariant` | tools/specparse.py:21-148 | until read raises, its recorded names are the names printed since the last heading, its previous head is the last heading printed, and every heading but the last is closed by a constructor |
| `SpecParseProps.ReadMarkerPrintsConstructor` | tools/specparse.py:42-55 | a reply marker prints the constructor of the previous reply with the names printed since its heading when there was one, then a blank line and the current head, and resets the count, the names and the previous head |
| `SpecParseProps.ReadLastMessageOpen` | tools/specparse.py:46-47 | at the end of the file every reply heading but the last has its constructor, so the last reply's constructor is never printed |
| `SpecParseProps.ReadRaisesIff` | tools/specparse.py:36-44 | read raises exactly when a reply marker comes before any header line, and a head is known exactly when a header line has been seen |
| `SpecParseProps.ReadQuietBeforeMarker` | tools/specparse.py:57-58 | before the first reply marker read prints nothing and counts nothing |
| `SpecParseProps.ReadSkipsRequest` | tools/specparse.py:36-40 | after a header line and until the next marker read prints nothing and its state changes only in its head |
| `SpecParseProps.WriteStandardRow` | tools/specparse.py:194-214 | a standard row of width 1, 2 or 4 prints one write of that width named after the field, bool exactly for a 1-byte BOOL row and signed exactly for an INT row, and counts its width; any other width prints the could-not-parse comment and changes nothing |
| `SpecParseProps.WriteEnumerableRow` | tools/specparse.py:225-241 | an enumerable row of width 1, 2 or 4 prints a write of the value's code and counts its width; any other width prints the comment and changes nothing |
| `SpecParseProps.WriteCountedRow` | tools/specparse.py:215-224 | an unused row prints a pad and a data row a raw write, each counting its length |
| `SpecParseProps.WriteRequestLengthRow` | tools/specparse.py:184-193 | a request-length row counts 2 bytes; a length Python's int accepts prints a fixed write of it, any other prints the dynamic-length call and sets the pad flag |
| `SpecParseProps.AllDigitsUnderscored` | tools/specparse.py:187 | a string of digits is accepted by int's underscore rules and keeps all its digits |
| `SpecParse.PyInt` | tools/specparse.py:187 | definition: Python's `int()` on a token: an optional sign, digits with single underscores between them, or None where `int` raises |
| `SpecParseProps.PyIntOfDigits` | tools/specparse.py:187 | int of a non-empty string of digits is its decimal value |
| `SpecParseProps.PyIntExamples` | tools/specparse.py:186-191 | int accepts "3", "-12" and "1_0", and rejects "1__0", "2+n" and the empty string |
| `SpecParseProps.WriteHeaderLine` | tools/specparse.py:163-175 | a header line resets the write state and prints the pad call exactly once when the pad flag was set, then a blank line and the header |
| `SpecParseProps.WriteHeaderWarns` | tools/specparse.py:167-168 | a header line prints the not-32-bytes warning with the previous count exactly once when writing events and the count is not 32, and no other warning |
| `SpecParseProps.WriteNothingYet` | tools/specparse.py:160-179 | empty lines and markers alone print nothing and count nothing |
| `SpecParseProps.FirstHeaderWarns` | tools/specparse.py:167-171 | when writing events the first header of a file prints a warning for 0 bytes before its heading, as written |
| `SpecParseProps.WriteSkipsResponse` | tools/specparse.py:177-182 | after a reply marker write ignores every line until the next header |

## Left out

- The socket, its `BufReader`/`BufWriter` and `write_flush` (src/lib.rs:804-806) are not modelled. Sent bytes are appended to `out`. A short read is the `UnexpectedEof` panic that `read_exact(..).unwrap()` gives.
- `read_pad` (src/lib.rs:971-974, src/xreaderwriter.rs:521-524) calls `BufReader::consume`, which discards only bytes already in the reader's buffer and never reads from the socket. The model assumes that the whole input is buffered, so it skips `len` bytes or up to the end of the input. When an event body is split across socket reads, the source can skip fewer bytes than asked, and every later field is then read from the wrong offset. That case is not modelled.
- Overflow: the model assumes the wrapping arithmetic of a release build. In a debug build, Rust's `+` on u16 and u32 panics on overflow instead. This affects `Color::num` (src/models.rs:1286-1288) for components wider than a byte, `next_resource_id += 1` (src/lib.rs:189) when the resource mask is 0xFFFFFFFF, and the request lengths `8/3/4 + values.len() as u16` (src/lib.rs:263, 287, 331) for more than about 65527 values.
- `read_str` (src/lib.rs:1032-1036, src/xreaderwriter.rs:582-586) returns the bytes read, because the model has no UTF-8 decoding. The panic of `String::from_utf8(..).unwrap()` on invalid UTF-8 is therefore not modelled.
- `wait_for_message` (src/lib.rs:194-254) dispatches on messages to readers that lie outside this model, so it is not modelled.
- The event readers of src/lib.rs (src/lib.rs:370-800) are an older copy of those in src/xreaderwriter.rs, which are the ones modelled.
- `XClient::read_error` (src/lib.rs:342-368) builds errors with a `sequence_number` field, but the `ServerError` variants of src/models.rs:92-110 have no such field. The model follows src/models.rs and drops the sequence number.
- `create_gc` (src/lib.rs:327-337) reads `gc.cid`, a field that `GraphicsContext` (src/models.rs:1034-1038) does not have. The model reads the graphics-context id `gcid`.
- `Window::get_sync` (src/models.rs:876-926) waits for replies through `wait_for_message`, so it is not modelled.
- The `Drawable` trait's drawing forwards (src/models.rs:697-854) call `poly_point`, `poly_line` and other requests that src/lib.rs does not define, so they are not modelled. `get_drawable` is the window or pixmap id.
- `GraphicsContext::free`, `change` and `set` call `free_gc` and `change_gc`, which src/lib.rs does not define. The model covers their effect on the graphics context's own fields, not the requests they send.
- `write_char`, `write_i8`, `write_str` and `write_raw` are called by src/models.rs but defined in no file of this model. They are modelled by their evident byte effect: the character's byte, the two's-complement byte, and the bytes as given.
- The trait declarations of src/xreaderwriter.rs:8-36 and src/xwriter.rs are interfaces with no behaviour. They are replaced by the methods of the two classes.
- SpecParse: `\d` and `\w` are taken as their ASCII classes, although Python's `re` also matches Unicode digits and letters with them, and `int()` accepts non-ASCII digits. `\s` does follow Python's whitespace set.
- SpecParse: the command line (tools/specparse.py:250-264), opening the file and `print` are replaced by a sequence of lines in and a sequence of `Emit` values out. Each value says what the printed statement is, not its exact characters. The doubled `;` and the unbalanced `)` in some printed templates are therefore not represented.
- SpecParse: the guard `written != -1` (tools/specparse.py:167) always holds, because `written` starts at 0 and only grows. The model compares with 32 only.
- The tests in tests/main.rs need a running X server and are not modelled.
- The layout lemmas of XReaderWriter state complete event bodies, with 28 bytes available. A truncated body is covered by the readers' own contracts, which give `UnexpectedEof`.
