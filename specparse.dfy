/**
 * The code generator of tools/specparse.py. It reads the text of one part of
 * the encoding section of the X Window System Protocol (X11R7.7),
 * Appendix B, line by line, and prints Rust statements that read (a reply)
 * or write (a request or an event) the fields listed there. Here the printed
 * text is a sequence of `Emit` values, one per printed statement, and the
 * regular expressions of tools/specparse.py:12-19 are scanners over maximal
 * runs of character classes after the fixed five- or ten-space indent.
 */
module SpecParse {
  import opened Wire

  // ---------------------------------------------------------------------------
  // Characters

  /** The whitespace that Python's `\s` matches in a str pattern. */
  predicate IsSpace(c: char) {
    ('\t' <= c <= '\r') || ('\U{1C}' <= c <= ' ') || c == '\U{85}' || c == '\U{A0}' ||
    c == '\U{1680}' || ('\U{2000}' <= c <= '\U{200A}') || c == '\U{2028}' || c == '\U{2029}' ||
    c == '\U{202F}' || c == '\U{205F}' || c == '\U{3000}'
  }

  predicate IsDigit(c: char) { '0' <= c <= '9' }

  predicate IsAlnum(c: char) { ('a' <= c <= 'z') || ('A' <= c <= 'Z') || IsDigit(c) }

  predicate IsWord(c: char) { IsAlnum(c) || c == '_' }

  /** The character classes the line patterns use. */
  datatype CharClass = Space | NonSpace | Digit | Word | WordOrHash | Alnum

  predicate In(cls: CharClass, c: char) {
    match cls
    case Space => IsSpace(c)
    case NonSpace => !IsSpace(c)
    case Digit => IsDigit(c)
    case Word => IsWord(c)
    case WordOrHash => IsWord(c) || c == '#'
    case Alnum => IsAlnum(c)
  }

  /** The end of the longest run of `cls` characters of `s` starting at i. */
  function Run(s: string, i: nat, cls: CharClass): (j: nat)
    requires i <= |s|
    ensures i <= j <= |s|
    decreases |s| - i
  {
    if i < |s| && In(cls, s[i]) then Run(s, i + 1, cls) else i
  }

  /** The run is made of `cls` characters and cannot be extended. */
  lemma {:induction false} RunFacts(s: string, i: nat, cls: CharClass)
    requires i <= |s|
    ensures forall k :: i <= k < Run(s, i, cls) ==> In(cls, s[k])
    ensures Run(s, i, cls) == |s| || !In(cls, s[Run(s, i, cls)])
    decreases |s| - i
  {
    if i < |s| && In(cls, s[i]) {
      RunFacts(s, i + 1, cls);
    }
  }

  /** No newline in s[c..]. */
  predicate NoNewline(s: string, c: nat)
    requires c <= |s|
    decreases |s| - c
  {
    c == |s| || (s[c] != '\n' && NoNewline(s, c + 1))
  }

  /** The decimal value of the digits s[i..j]. */
  function DigitsValue(s: string, i: nat, j: nat): nat
    requires i <= j <= |s|
    decreases j
  {
    if j == i then 0
    else DigitsValue(s, i, j - 1) * 10 + (if IsDigit(s[j - 1]) then s[j - 1] as int - '0' as int else 0)
  }

  // ---------------------------------------------------------------------------
  // The line patterns (tools/specparse.py:12-19)

  const Indent5: string := "     "
  const Indent10: string := "          "
  const Marker: char := '\U{25B6}'

  /** `reg_main_line`: a message name, one or more ASCII letters and digits. */
  predicate IsMainLine(s: string) {
    |s| > 0 && Run(s, 0, Alnum) == |s|
  }

  predicate StartsWithMarker(s: string) {
    |s| > 0 && s[0] == Marker
  }

  /** An indent, a number, then space: the head every row pattern shares. */
  datatype NumHead = NumHead(num: nat, digitsEnd: nat, rest: nat)

  function HeadOf(s: string, indent: string): (r: Option<NumHead>)
    ensures r.Some? ==> |indent| < r.value.digitsEnd < r.value.rest <= |s|
  {
    if |s| < |indent| || s[..|indent|] != indent then None
    else
      var d := Run(s, |indent|, Digit);
      if d == |indent| then None
      else
        var a := Run(s, d, Space);
        if a == d then None
        else Some(NumHead(DigitsValue(s, |indent|, d), d, a))
  }

  /** A token, space, then exactly `tail`, from position a to the end. */
  function TokenThen(s: string, a: nat, tail: string): (r: Option<string>)
    requires a <= |s|
  {
    var b := Run(s, a, NonSpace);
    if b == a then None
    else
      var c := Run(s, b, Space);
      if c == b || s[c..] != tail then None
      else Some(s[a..b])
  }

  /** `reg_request_len`: the token in place of the request length. */
  function MatchRequestLen(s: string): Option<string> {
    match HeadOf(s, Indent5)
    case None => None
    case Some(h) =>
      if h.digitsEnd != 6 || s[5] != '2' then None
      else TokenThen(s, h.rest, "request length")
  }

  /** `reg_reply_len`: the width and the token in place of the reply length. */
  function MatchReplyLen(s: string): Option<(nat, string)> {
    match HeadOf(s, Indent5)
    case None => None
    case Some(h) =>
      match TokenThen(s, h.rest, "reply length")
      case None => None
      case Some(t) => Some((h.num, t))
  }

  /** `reg_standard`: the width, the type tag and the field name. */
  function MatchStandard(s: string): Option<(nat, string, string)> {
    match HeadOf(s, Indent5)
    case None => None
    case Some(h) =>
      var b := Run(s, h.rest, Word);
      if b == h.rest then None
      else
        var c := Run(s, b, Space);
        if c == b || c == |s| || !NoNewline(s, c) then None
        else Some((h.num, s[h.rest..b], s[c..]))
  }

  /** `reg_unused`: the number of unused bytes. */
  function MatchUnused(s: string): Option<nat> {
    match HeadOf(s, Indent5)
    case None => None
    case Some(h) => if s[h.rest..] == "unused" then Some(h.num) else None
  }

  /** `reg_data`: the number of data bytes. */
  function MatchData(s: string): Option<nat> {
    match HeadOf(s, Indent5)
    case None => None
    case Some(h) => if s[h.rest..] == "data" then Some(h.num) else None
  }

  /** `reg_enumerable`: the width and the enumeration's name. */
  function MatchEnumerable(s: string): Option<(nat, string)> {
    match HeadOf(s, Indent5)
    case None => None
    case Some(h) =>
      if h.rest == |s| || !NoNewline(s, h.rest) then None
      else Some((h.num, s[h.rest..]))
  }

  /** `reg_enum`: a value of an enumeration, indented by ten spaces. */
  predicate MatchEnum(s: string) {
    match HeadOf(s, Indent10)
    case None => false
    case Some(h) => h.rest < |s| && Run(s, h.rest, WordOrHash) == |s|
  }

  // ---------------------------------------------------------------------------
  // Tokens

  /** The line with every trailing newline removed. */
  function Chomp(s: string): (r: string)
    ensures |r| <= |s| && r == s[..|r|]
    ensures forall k :: |r| <= k < |s| ==> s[k] == '\n'
    ensures |r| == 0 || r[|r| - 1] != '\n'
  {
    if |s| > 0 && s[|s| - 1] == '\n' then Chomp(s[..|s| - 1]) else s
  }

  function NormalizeChar(c: char): char {
    if c == '-' || c == ' ' then '_' else c
  }

  /** `.replace("-", "_").replace(" ", "_")`: every dash and space becomes an underscore. */
  function Normalize(s: string): (r: string)
    ensures |r| == |s|
  {
    if s == [] then [] else [NormalizeChar(s[0])] + Normalize(s[1..])
  }

  /** Digits, with single underscores allowed between two digits. */
  predicate Underscored(b: string) {
    |b| > 0 && IsDigit(b[0]) && IsDigit(b[|b| - 1]) && DigitsOrUnderscores(b) && NoDoubleUnderscore(b)
  }

  predicate DigitsOrUnderscores(b: string) {
    b == [] || ((IsDigit(b[0]) || b[0] == '_') && DigitsOrUnderscores(b[1..]))
  }

  predicate NoDoubleUnderscore(b: string) {
    |b| < 2 || (!(b[0] == '_' && b[1] == '_') && NoDoubleUnderscore(b[1..]))
  }

  /** The digits of `b`, without the underscores. */
  function DigitsOf(b: string): string {
    if b == [] then [] else (if b[0] == '_' then [] else [b[0]]) + DigitsOf(b[1..])
  }

  /** Python's `int(t)` on a token without whitespace: None where it raises. */
  function PyInt(t: string): Option<int> {
    var negative := |t| > 0 && t[0] == '-';
    var body := if |t| > 0 && (t[0] == '+' || t[0] == '-') then t[1..] else t;
    if !Underscored(body) then None
    else
      var d := DigitsOf(body);
      var v: int := DigitsValue(d, 0, |d|);
      Some(if negative then -v else v)
  }

  // ---------------------------------------------------------------------------
  // What is printed

  /** The primitive a fixed-width field is read or written with. */
  datatype Prim = BoolPrim | UInt(bits: nat) | SInt(bits: nat)

  function PrimWidth(p: Prim): nat {
    match p
    case BoolPrim => 1
    case UInt(bits) => bits / 8
    case SInt(bits) => bits / 8
  }

  predicate IsWidth(num: nat) { num == 1 || num == 2 || num == 4 }

  predicate IsSignedTag(tag: string) { tag == "INT8" || tag == "INT16" || tag == "INT32" }

  /** The primitive for a standard row of width `num` and type `tag`. */
  function StandardPrim(num: nat, tag: string): (r: Option<Prim>)
    ensures r.Some? <==> IsWidth(num)
    ensures r.Some? ==> PrimWidth(r.value) == num
    ensures r == Some(BoolPrim) <==> num == 1 && tag == "BOOL"
    ensures r.Some? && r.value.SInt? <==> IsWidth(num) && IsSignedTag(tag) && !(num == 1 && tag == "BOOL")
  {
    if num == 1 then (if tag == "BOOL" then Some(BoolPrim) else if IsSignedTag(tag) then Some(SInt(8)) else Some(UInt(8)))
    else if num == 2 then (if IsSignedTag(tag) then Some(SInt(16)) else Some(UInt(16)))
    else if num == 4 then (if IsSignedTag(tag) then Some(SInt(32)) else Some(UInt(32)))
    else None
  }

  /** One printed statement (or blank line, heading or diagnostic). */
  datatype Emit =
    | Blank
    | Heading(name: string)
    // read mode
    | Constructor(message: string, params: seq<string>)
    | PrepReadExtend(width: nat)
    | LetRead(name: string, prim: Prim)
    | SkipBytes(count: nat)
    | ReadRaw(count: nat)
    | LetEnum(name: string, width: nat)
    // write mode
    | WritePadOp
    | Warning(written: nat)
    | WriteLength(length: int)
    | DynamicLength(token: string)
    | WriteField(prim: Prim, name: string)
    | WritePad(count: nat)
    | WriteRaw(count: nat)
    | WriteEnum(name: string, width: nat)
    // both
    | CouldNotParseLength(num: nat, line: string)
    | CouldNotParseLine(line: string)

  // ---------------------------------------------------------------------------
  // Classifying a field row: the first pattern that matches, in the source's order

  datatype RowKind =
    | ReplyLength(num: nat)
    | RequestLength(token: string)
    | Standard(num: nat, tag: string, name: string)
    | Unused(count: nat)
    | Data(count: nat)
    | Enumerable(num: nat, name: string)
    | EnumValue
    | Unparsed

  /** What follows the length row: standard, unused, data, enumerable, enum value. */
  function FieldKind(line: string): RowKind {
    match MatchStandard(line)
    case Some(m) => Standard(m.0, m.1, m.2)
    case None =>
    match MatchUnused(line)
    case Some(n) => Unused(n)
    case None =>
    match MatchData(line)
    case Some(n) => Data(n)
    case None =>
    match MatchEnumerable(line)
    case Some(m) => Enumerable(m.0, m.1)
    case None =>
      if MatchEnum(line) then EnumValue else Unparsed
  }

  /** Read mode tests the reply length first (tools/specparse.py:60-148). */
  function ReadKind(line: string): RowKind {
    match MatchReplyLen(line)
    case Some(m) => ReplyLength(m.0)
    case None => FieldKind(line)
  }

  /** Write mode tests the request length first (tools/specparse.py:184-247). */
  function WriteKind(line: string): RowKind {
    match MatchRequestLen(line)
    case Some(t) => RequestLength(t)
    case None => FieldKind(line)
  }

  /**
   * A line of input once its trailing newlines are gone: blank, a message
   * header, a reply marker, or a field row with the kind each mode gives it.
   */
  datatype Line =
    | EmptyLine
    | HeaderLine(name: string)
    | MarkerLine
    | FieldLine(text: string, readKind: RowKind, writeKind: RowKind)

  /** The tests both passes make on every line, in their order (tools/specparse.py:30-42, 157-177). */
  function Classify(raw: string): Line {
    var line := Chomp(raw);
    if line == [] then EmptyLine
    else if IsMainLine(line) then HeaderLine(line)
    else if StartsWithMarker(line) then MarkerLine
    else FieldLine(line, ReadKind(line), WriteKind(line))
  }

  function ClassifyAll(lines: seq<string>): (ls: seq<Line>)
    ensures |ls| == |lines|
  {
    seq(|lines|, i requires 0 <= i < |lines| => Classify(lines[i]))
  }

  // ---------------------------------------------------------------------------
  // Read mode, one line at a time (tools/specparse.py:21-148)

  datatype ReadState = ReadState(read: nat, head: Option<string>, oldHead: Option<string>,
                                 inResponse: bool, paramNames: seq<string>)

  const ReadStart := ReadState(0, None, None, false, [])

  /** A field row of a reply section, after the header and marker tests. */
  function ReadRow(st: ReadState, kind: RowKind, line: string): (ReadState, seq<Emit>) {
    match kind
    case ReplyLength(num) =>
      if !IsWidth(num) then (st, [CouldNotParseLength(num, line)])
      else
        var read := st.read + num;
        (st.(read := read + 2), if read > 8 then [PrepReadExtend(num)] else [])
    case Standard(num, tag, field) =>
      (match StandardPrim(num, tag)
       case None => (st, [CouldNotParseLength(num, line)])
       case Some(prim) =>
         var read := st.read + num;
         var name := Normalize(field);
         if read > 8 then (st.(read := read, paramNames := st.paramNames + [name]), [LetRead(name, prim)])
         else (st.(read := read), []))
    case Unused(n) => (st.(read := st.read + n), if st.read > 8 then [SkipBytes(n)] else [])
    case Data(n) =>
      if st.read > 8 then (st.(read := st.read + n, paramNames := st.paramNames + ["data"]), [ReadRaw(n)])
      else (st.(read := st.read + n), [])
    case Enumerable(num, enum) =>
      if !IsWidth(num) then (st, [CouldNotParseLength(num, line)])
      else
        var read := st.read + num;
        var name := Normalize(enum);
        if read > 8 then (st.(read := read, paramNames := st.paramNames + [name]), [LetEnum(name, num)])
        else (st.(read := read), [])
    case EnumValue => (st, [])
    case RequestLength(_) => (st, [CouldNotParseLine(line)])
    case Unparsed => (st, [CouldNotParseLine(line)])
  }

  /** One line in read mode; None where the source raises RuntimeError. */
  function ReadLine(st: ReadState, l: Line): Option<(ReadState, seq<Emit>)> {
    match l
    case EmptyLine => Some((st, []))
    case HeaderLine(name) => Some((st.(head := Some(name), inResponse := false), []))
    case MarkerLine =>
      if st.head.None? then None
      else
        var done := if st.oldHead.Some? then [Constructor(st.oldHead.value, st.paramNames)] else [];
        Some((st.(paramNames := [], oldHead := st.head, read := 0, inResponse := true),
              done + [Blank, Heading(st.head.value)]))
    case FieldLine(text, kind, _) =>
      if !st.inResponse then Some((st, [])) else Some(ReadRow(st, kind, text))
  }

  datatype ReadRun = ReadRun(state: ReadState, out: seq<Emit>, raised: bool)

  /** The state and output after the first k lines; a raise stops everything. */
  function ReadLines(lines: seq<Line>, k: nat): ReadRun
    requires k <= |lines|
  {
    if k == 0 then ReadRun(ReadStart, [], false)
    else
      var prev := ReadLines(lines, k - 1);
      if prev.raised then prev
      else
        match ReadLine(prev.state, lines[k - 1])
        case None => prev.(raised := true)
        case Some(r) => ReadRun(r.0, prev.out + r.1, false)
  }

  // ---------------------------------------------------------------------------
  // Write mode, one line at a time (tools/specparse.py:150-247)

  datatype WriteState = WriteState(written: nat, pad: bool, inResponse: bool)

  const WriteStart := WriteState(0, false, false)

  /** A field row of a request or event section, after the header and marker tests. */
  function WriteRow(st: WriteState, kind: RowKind, line: string): (WriteState, seq<Emit>) {
    match kind
    case RequestLength(t) =>
      (match PyInt(t)
       case Some(l) => (st.(written := st.written + 2), [WriteLength(l)])
       case None => (st.(written := st.written + 2, pad := true), [DynamicLength(t)]))
    case Standard(num, tag, field) =>
      (match StandardPrim(num, tag)
       case None => (st, [CouldNotParseLength(num, line)])
       case Some(prim) => (st.(written := st.written + num), [WriteField(prim, Normalize(field))]))
    case Unused(n) => (st.(written := st.written + n), [WritePad(n)])
    case Data(n) => (st.(written := st.written + n), [WriteRaw(n)])
    case Enumerable(num, enum) =>
      if !IsWidth(num) then (st, [CouldNotParseLength(num, line)])
      else (st.(written := st.written + num), [WriteEnum(Normalize(enum), num)])
    case EnumValue => (st, [])
    case ReplyLength(_) => (st, [CouldNotParseLine(line)])
    case Unparsed => (st, [CouldNotParseLine(line)])
  }

  /**
   * What a message header prints in write mode: the deferred pad statement,
   * then, for events, the warning that the section did not add up to 32
   * bytes. The source also tests `written != -1`, which always holds.
   */
  function WriteHeader(st: WriteState, line: string, isEvent: bool): seq<Emit> {
    (if st.pad then [WritePadOp] else []) +
    (if isEvent && st.written != 32 then [Warning(st.written)] else []) +
    [Blank, Heading(line)]
  }

  /** One line in write mode. */
  function WriteLine(st: WriteState, l: Line, isEvent: bool): (WriteState, seq<Emit>) {
    match l
    case EmptyLine => (st, [])
    case HeaderLine(name) => (WriteStart, WriteHeader(st, name, isEvent))
    case MarkerLine => (st.(inResponse := true), [])
    case FieldLine(text, _, kind) => if st.inResponse then (st, []) else WriteRow(st, kind, text)
  }

  /** The state and output after the first k lines. */
  function WriteLines(lines: seq<Line>, k: nat, isEvent: bool): (WriteState, seq<Emit>)
    requires k <= |lines|
  {
    if k == 0 then (WriteStart, [])
    else
      var prev := WriteLines(lines, k - 1, isEvent);
      var r := WriteLine(prev.0, lines[k - 1], isEvent);
      (r.0, prev.1 + r.1)
  }

  // ---------------------------------------------------------------------------
  // The two passes

  /** The body of read's loop for a field row of kind `kind`: it updates `read` and `param_names`. */
  method ReadFieldRow(read: nat, head: Option<string>, oldHead: Option<string>, paramNames: seq<string>,
                   kind: RowKind, line: string)
    returns (read': nat, paramNames': seq<string>, printed: seq<Emit>)
    ensures ReadRow(ReadState(read, head, oldHead, true, paramNames), kind, line)
            == (ReadState(read', head, oldHead, true, paramNames'), printed)
  {
    read', paramNames', printed := read, paramNames, [];
    match kind
    case ReplyLength(num) =>
      if !IsWidth(num) {
        printed := [CouldNotParseLength(num, line)];
        return;
      }
      read' := read' + num;
      if read' > 8 {
        printed := [PrepReadExtend(num)];
      }
      read' := read' + 2;
    case Standard(num, tag, field) =>
      var prim := StandardPrim(num, tag);
      if prim.None? {
        printed := [CouldNotParseLength(num, line)];
        return;
      }
      read' := read' + num;
      var name := Normalize(field);
      if read' > 8 {
        printed := [LetRead(name, prim.value)];
        paramNames' := paramNames' + [name];
      }
    case Unused(n) =>
      if read' > 8 {
        printed := [SkipBytes(n)];
      }
      read' := read' + n;
    case Data(n) =>
      if read' > 8 {
        printed := [ReadRaw(n)];
        paramNames' := paramNames' + ["data"];
      }
      read' := read' + n;
    case Enumerable(num, enum) =>
      if !IsWidth(num) {
        printed := [CouldNotParseLength(num, line)];
        return;
      }
      read' := read' + num;
      var name := Normalize(enum);
      if read' > 8 {
        printed := [LetEnum(name, num)];
        paramNames' := paramNames' + [name];
      }
    case EnumValue =>
    case RequestLength(_) =>
      printed := [CouldNotParseLine(line)];
    case Unparsed =>
      printed := [CouldNotParseLine(line)];
  }

  /** The body of write's loop for a field row of kind `kind`: it updates `written` and `pad`. */
  method WriteFieldRow(written: nat, pad: bool, kind: RowKind, line: string)
    returns (written': nat, pad': bool, printed: seq<Emit>)
    ensures WriteRow(WriteState(written, pad, false), kind, line) == (WriteState(written', pad', false), printed)
  {
    written', pad', printed := written, pad, [];
    match kind
    case RequestLength(t) =>
      var l := PyInt(t);
      if l.Some? {
        printed := [WriteLength(l.value)];
      } else {
        printed := [DynamicLength(t)];
        pad' := true;
      }
      written' := written' + 2;
    case Standard(num, tag, field) =>
      var prim := StandardPrim(num, tag);
      if prim.Some? {
        printed := [WriteField(prim.value, Normalize(field))];
        written' := written' + num;
      } else {
        printed := [CouldNotParseLength(num, line)];
      }
    case Unused(n) =>
      printed := [WritePad(n)];
      written' := written' + n;
    case Data(n) =>
      printed := [WriteRaw(n)];
      written' := written' + n;
    case Enumerable(num, enum) =>
      if IsWidth(num) {
        printed := [WriteEnum(Normalize(enum), num)];
        written' := written' + num;
      } else {
        printed := [CouldNotParseLength(num, line)];
      }
    case EnumValue =>
    case ReplyLength(_) =>
      printed := [CouldNotParseLine(line)];
    case Unparsed =>
      printed := [CouldNotParseLine(line)];
  }

  /** The per-line tests of both passes: strip the newlines, then header, marker, field row. */
  method ClassifyLine(raw: string) returns (l: Line)
    ensures l == Classify(raw)
  {
    var line := raw;
    while |line| > 0 && line[|line| - 1] == '\n'
      invariant Chomp(line) == Chomp(raw)
    {
      line := line[..|line| - 1];
    }
    if line == [] {
      return EmptyLine;
    }
    if IsMainLine(line) {
      return HeaderLine(line);
    }
    if StartsWithMarker(line) {
      return MarkerLine;
    }
    return FieldLine(line, ReadKind(line), WriteKind(line));
  }

  /** One line of read's loop; `stop` is the RuntimeError of a marker before any header. */
  method ReadStep(read: nat, head: Option<string>, oldHead: Option<string>, inResponse: bool,
                  paramNames: seq<string>, l: Line)
    returns (read': nat, head': Option<string>, oldHead': Option<string>, inResponse': bool,
             paramNames': seq<string>, printed: seq<Emit>, stop: bool)
    ensures ReadLine(ReadState(read, head, oldHead, inResponse, paramNames), l)
            == if stop then None else Some((ReadState(read', head', oldHead', inResponse', paramNames'), printed))
  {
    read', head', oldHead', inResponse', paramNames', printed, stop := read, head, oldHead, inResponse, paramNames, [], false;
    match l
    case EmptyLine =>
    case HeaderLine(name) =>
      head' := Some(name);
      inResponse' := false;
    case MarkerLine =>
      if head.None? {
        stop := true;
        return;
      }
      if oldHead.Some? {
        printed := [Constructor(oldHead.value, paramNames)];
      }
      paramNames' := [];
      oldHead' := head;
      read' := 0;
      printed := printed + [Blank, Heading(head.value)];
      inResponse' := true;
    case FieldLine(line, kind, _) =>
      if inResponse {
        read', paramNames', printed := ReadFieldRow(read, head, oldHead, paramNames, kind, line);
      }
  }

  /** `read`: the statements printed, and whether it stopped with RuntimeError. */
  method Read(lines: seq<string>) returns (out: seq<Emit>, raised: bool)
    ensures out == ReadLines(ClassifyAll(lines), |lines|).out
    ensures raised == ReadLines(ClassifyAll(lines), |lines|).raised
  {
    ghost var ls := ClassifyAll(lines);
    var read: nat := 0;
    var head: Option<string> := None;
    var oldHead: Option<string> := None;
    var inResponse := false;
    var paramNames: seq<string> := [];
    out := [];
    for i := 0 to |lines|
      invariant ReadLines(ls, i) == ReadRun(ReadState(read, head, oldHead, inResponse, paramNames), out, false)
    {
      var l := ClassifyLine(lines[i]);
      assert l == ls[i];
      var printed, stop;
      read, head, oldHead, inResponse, paramNames, printed, stop := ReadStep(read, head, oldHead, inResponse, paramNames, l);
      if stop {
        RaisedStays(ls, i + 1);
        return out, true;
      }
      out := out + printed;
    }
    raised := false;
  }

  /** One line of write's loop. */
  method WriteStep(written: nat, pad: bool, inResponse: bool, l: Line, isEvent: bool)
    returns (written': nat, pad': bool, inResponse': bool, printed: seq<Emit>)
    ensures WriteLine(WriteState(written, pad, inResponse), l, isEvent) == (WriteState(written', pad', inResponse'), printed)
  {
    written', pad', inResponse', printed := written, pad, inResponse, [];
    match l
    case EmptyLine =>
    case HeaderLine(name) =>
      if pad {
        printed := printed + [WritePadOp];
      }
      ghost var padded := printed;
      if isEvent && written != 32 {
        printed := printed + [Warning(written)];
      }
      assert printed == padded + (if isEvent && written != 32 then [Warning(written)] else []);
      printed := printed + [Blank, Heading(name)];
      assert printed == WriteHeader(WriteState(written, pad, inResponse), name, isEvent);
      written' := 0;
      pad' := false;
      inResponse' := false;
    case MarkerLine =>
      inResponse' := true;
    case FieldLine(line, _, kind) =>
      if !inResponse {
        written', pad', printed := WriteFieldRow(written, pad, kind, line);
      }
  }

  /** `write`: the statements printed; `isEvent` is the `--event` flag. */
  method Write(lines: seq<string>, isEvent: bool) returns (out: seq<Emit>)
    ensures out == WriteLines(ClassifyAll(lines), |lines|, isEvent).1
  {
    ghost var ls := ClassifyAll(lines);
    var written: nat := 0;
    var pad := false;
    var inResponse := false;
    out := [];
    for i := 0 to |lines|
      invariant WriteLines(ls, i, isEvent) == (WriteState(written, pad, inResponse), out)
    {
      var l := ClassifyLine(lines[i]);
      assert l == ls[i];
      var printed;
      written, pad, inResponse, printed := WriteStep(written, pad, inResponse, l, isEvent);
      out := out + printed;
    }
  }

  /** Once read mode has raised, later lines change nothing. */
  lemma {:induction false} RaisedStays(lines: seq<Line>, k: nat)
    requires k <= |lines| && ReadLines(lines, k).raised
    ensures ReadLines(lines, |lines|) == ReadLines(lines, k)
    decreases |lines| - k
  {
    if k < |lines| {
      RaisedStays(lines, k + 1);
    }
  }
}
