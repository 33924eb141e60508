/**
 * Properties of the two passes of tools/specparse.py: which pattern wins on
 * a line, what one field row does to the offset and the printed statements,
 * and what a whole reply or request section produces.
 */
module SpecParseProps {
  import opened Wire
  import opened SpecParse

  // ---------------------------------------------------------------------------
  // Scanning

  /** A run that reaches j through `cls` characters and stops there ends at j. */
  lemma {:induction false} RunUpTo(s: string, i: nat, j: nat, cls: CharClass)
    requires i <= j <= |s|
    requires forall k :: i <= k < j ==> In(cls, s[k])
    requires j == |s| || !In(cls, s[j])
    ensures Run(s, i, cls) == j
    decreases j - i
  {
    if i < j {
      RunUpTo(s, i + 1, j, cls);
    }
  }

  lemma {:induction false} NoNewlineFrom(s: string, c: nat)
    requires c <= |s|
    requires forall k :: c <= k < |s| ==> s[k] != '\n'
    ensures NoNewline(s, c)
    decreases |s| - c
  {
    if c < |s| {
      NoNewlineFrom(s, c + 1);
    }
  }

  /** A line that ends in a single lower-case word: no word-and-space pair follows its head. */
  lemma LowerTail(s: string, a: nat, tail: string)
    requires a <= |s| && s[a..] == tail && |tail| > 0
    requires forall k :: 0 <= k < |tail| ==> 'a' <= tail[k] <= 'z'
    ensures Run(s, a, Word) == |s| && Run(s, a, NonSpace) == |s|
    ensures forall t :: TokenThen(s, a, t) == None || t == []
  {
    forall k | a <= k < |s|
      ensures 'a' <= s[k] <= 'z'
    {
      assert s[k] == tail[k - a];
    }
    RunUpTo(s, a, |s|, Word);
    RunUpTo(s, a, |s|, NonSpace);
  }

  // ---------------------------------------------------------------------------
  // Precedence of the row patterns

  /**
   * An `unused` row also matches the enumerable pattern, with "unused" as
   * the enumeration's name; because the unused test comes first, both
   * modes classify it as padding.
   */
  lemma UnusedBeforeEnumerable(s: string)
    requires MatchUnused(s).Some?
    ensures MatchEnumerable(s) == Some((MatchUnused(s).value, "unused"))
    ensures MatchReplyLen(s).None? && MatchRequestLen(s).None? && MatchStandard(s).None?
    ensures ReadKind(s) == Unused(MatchUnused(s).value) && WriteKind(s) == Unused(MatchUnused(s).value)
  {
    var h := HeadOf(s, Indent5).value;
    LowerTail(s, h.rest, "unused");
    NoNewlineFrom(s, h.rest);
  }

  /** The same for a `data` row. */
  lemma DataBeforeEnumerable(s: string)
    requires MatchData(s).Some?
    ensures MatchEnumerable(s) == Some((MatchData(s).value, "data"))
    ensures MatchReplyLen(s).None? && MatchRequestLen(s).None? && MatchStandard(s).None?
    ensures MatchUnused(s).None?
    ensures ReadKind(s) == Data(MatchData(s).value) && WriteKind(s) == Data(MatchData(s).value)
  {
    var h := HeadOf(s, Indent5).value;
    LowerTail(s, h.rest, "data");
    NoNewlineFrom(s, h.rest);
  }

  predicate AllWord(t: string) {
    forall k :: 0 <= k < |t| ==> IsWord(t[k])
  }

  /** When a length row's token is a word, the standard pattern matches it too. */
  lemma LengthRowIsStandard(s: string, h: NumHead, tail: string)
    requires HeadOf(s, Indent5) == Some(h)
    requires TokenThen(s, h.rest, tail).Some? && AllWord(TokenThen(s, h.rest, tail).value)
    requires forall k :: 0 <= k < |tail| ==> tail[k] != '\n'
    requires |tail| > 0 && !IsSpace(tail[0])
    ensures MatchStandard(s) == Some((h.num, TokenThen(s, h.rest, tail).value, tail))
  {
    var b := Run(s, h.rest, NonSpace);
    var c := Run(s, b, Space);
    RunFacts(s, b, Space);
    forall k | h.rest <= k < b
      ensures IsWord(s[k])
    {
      assert s[k] == s[h.rest..b][k - h.rest];
    }
    RunUpTo(s, h.rest, b, Word);
    forall k | c <= k < |s|
      ensures s[k] != '\n'
    {
      assert s[k] == tail[k - c];
    }
    NoNewlineFrom(s, c);
    assert s[c] == tail[0];
  }

  /**
   * A reply-length row with a word token: read mode takes it as the reply
   * length, but write mode, which tests the request length instead, prints
   * it as a standard field named "reply length".
   */
  lemma ReplyLengthByMode(s: string)
    requires MatchReplyLen(s).Some? && AllWord(MatchReplyLen(s).value.1)
    ensures ReadKind(s) == ReplyLength(MatchReplyLen(s).value.0)
    ensures WriteKind(s) == Standard(MatchReplyLen(s).value.0, MatchReplyLen(s).value.1, "reply length")
  {
    var h := HeadOf(s, Indent5).value;
    LengthRowIsStandard(s, h, "reply length");
  }

  /** A request-length row with a word token: write mode takes it as the length, read mode as a standard field. */
  lemma RequestLengthByMode(s: string)
    requires MatchRequestLen(s).Some? && AllWord(MatchRequestLen(s).value)
    ensures WriteKind(s) == RequestLength(MatchRequestLen(s).value)
    ensures ReadKind(s) == Standard(2, MatchRequestLen(s).value, "request length")
  {
    var h := HeadOf(s, Indent5).value;
    LengthRowIsStandard(s, h, "request length");
    assert DigitsValue(s, 5, 6) == 2;
  }

  /** An enumeration value, indented by ten spaces, matches none of the five-space patterns. */
  lemma EnumValueRow(s: string)
    requires MatchEnum(s)
    ensures HeadOf(s, Indent5).None?
    ensures ReadKind(s) == EnumValue && WriteKind(s) == EnumValue
  {
    assert s[5] == Indent10[5];
  }

  /** An indented row is never taken for a message header or a reply marker. */
  lemma IndentedIsField(raw: string)
    requires HeadOf(Chomp(raw), Indent5).Some? || HeadOf(Chomp(raw), Indent10).Some?
    ensures Classify(raw) == FieldLine(Chomp(raw), ReadKind(Chomp(raw)), WriteKind(Chomp(raw)))
  {
    var line := Chomp(raw);
    assert line[0] == ' ' by {
      if HeadOf(line, Indent5).Some? {
        assert line[0] == Indent5[0];
      } else {
        assert line[0] == Indent10[0];
      }
    }
  }

  // ---------------------------------------------------------------------------
  // Field names

  lemma {:induction false} NormalizeAt(s: string)
    ensures forall k :: 0 <= k < |s| ==> Normalize(s)[k] == NormalizeChar(s[k])
    decreases |s|
  {
    if s != [] {
      NormalizeAt(s[1..]);
      forall k | 0 < k < |s|
        ensures Normalize(s)[k] == NormalizeChar(s[k])
      {
        assert Normalize(s)[k] == Normalize(s[1..])[k - 1];
      }
    }
  }

  /** Every dash and space is gone, every other character kept, and a second pass changes nothing. */
  lemma NormalizeSpec(s: string)
    ensures |Normalize(s)| == |s|
    ensures forall k :: 0 <= k < |s| ==> Normalize(s)[k] == (if s[k] == '-' || s[k] == ' ' then '_' else s[k])
    ensures forall k :: 0 <= k < |s| ==> Normalize(s)[k] != '-' && Normalize(s)[k] != ' '
    ensures Normalize(Normalize(s)) == Normalize(s)
  {
    NormalizeAt(s);
    NormalizeAt(Normalize(s));
  }

  // ---------------------------------------------------------------------------
  // Read mode: one field row

  /** Standard and enumerable rows add their width first, so they print iff the field ends past byte 8. */
  lemma ReadFixedRow(st: ReadState, kind: RowKind, line: string)
    requires (kind.Standard? && StandardPrim(kind.num, kind.tag).Some?) || (kind.Enumerable? && IsWidth(kind.num))
    ensures var (st', out) := ReadRow(st, kind, line);
      var name := Normalize(kind.name);
      && st'.read == st.read + kind.num
      && (|out| == 1 <==> st.read + kind.num > 8) && (|out| == 0 <==> st.read + kind.num <= 8)
      && (out != [] ==> out[0] == (if kind.Standard? then LetRead(name, StandardPrim(kind.num, kind.tag).value)
                                   else LetEnum(name, kind.num)))
      && st'.paramNames == st.paramNames + (if st.read + kind.num > 8 then [name] else [])
      && st'.head == st.head && st'.oldHead == st.oldHead && st'.inResponse == st.inResponse
  {
  }

  /** Unused and data rows test before adding, so they print iff the field starts past byte 8. */
  lemma ReadSkippedRow(st: ReadState, kind: RowKind, line: string)
    requires kind.Unused? || kind.Data?
    ensures var (st', out) := ReadRow(st, kind, line);
      && st'.read == st.read + kind.count
      && (|out| == 1 <==> st.read > 8) && (|out| == 0 <==> st.read <= 8)
      && (out != [] ==> out[0] == (if kind.Unused? then SkipBytes(kind.count) else ReadRaw(kind.count)))
      && st'.paramNames == st.paramNames + (if kind.Data? && st.read > 8 then ["data"] else [])
      && st'.head == st.head && st'.oldHead == st.oldHead && st'.inResponse == st.inResponse
  {
  }

  /** The reply length: its width counts towards the test, then 2 more bytes are skipped. */
  lemma ReadReplyLengthRow(st: ReadState, num: nat, line: string)
    requires IsWidth(num)
    ensures var (st', out) := ReadRow(st, ReplyLength(num), line);
      && st'.read == st.read + num + 2
      && (out == [PrepReadExtend(num)] <==> st.read + num > 8) && (out == [] <==> st.read + num <= 8)
      && st'.paramNames == st.paramNames
  {
  }

  /** A width other than 1, 2 or 4 prints one diagnostic and leaves the state alone. */
  lemma ReadBadWidth(st: ReadState, kind: RowKind, line: string)
    requires kind.ReplyLength? || kind.Standard? || kind.Enumerable?
    requires !IsWidth(kind.num)
    ensures ReadRow(st, kind, line) == (st, [CouldNotParseLength(kind.num, line)])
  {
  }

  // ---------------------------------------------------------------------------
  // Read mode: what the printed statements say

  /** The parameter name a printed statement binds, if any. */
  function NameOf(e: Emit): seq<string> {
    match e
    case LetRead(name, _) => [name]
    case LetEnum(name, _) => [name]
    case ReadRaw(_) => ["data"]
    case _ => []
  }

  /** The names bound since the last heading printed. */
  function NamesSince(out: seq<Emit>): seq<string>
    decreases |out|
  {
    if out == [] then []
    else if out[|out| - 1].Heading? then []
    else NamesSince(out[..|out| - 1]) + NameOf(out[|out| - 1])
  }

  /** The last heading printed. */
  function LastHeading(out: seq<Emit>): Option<string>
    decreases |out|
  {
    if out == [] then None
    else if out[|out| - 1].Heading? then Some(out[|out| - 1].name)
    else LastHeading(out[..|out| - 1])
  }

  function Headings(out: seq<Emit>): nat
    decreases |out|
  {
    if out == [] then 0 else Headings(out[..|out| - 1]) + (if out[|out| - 1].Heading? then 1 else 0)
  }

  function Constructors(out: seq<Emit>): nat
    decreases |out|
  {
    if out == [] then 0 else Constructors(out[..|out| - 1]) + (if out[|out| - 1].Constructor? then 1 else 0)
  }

  /** A field row prints at most one statement, never a heading or a constructor, and records the name it binds. */
  lemma ReadRowOutput(st: ReadState, kind: RowKind, line: string)
    ensures var (st', out) := ReadRow(st, kind, line);
      && |out| <= 1
      && (out != [] ==> !out[0].Heading? && !out[0].Constructor?)
      && st'.paramNames == st.paramNames + (if out == [] then [] else NameOf(out[0]))
      && st'.head == st.head && st'.oldHead == st.oldHead && st'.inResponse == st.inResponse
  {
  }

  lemma AppendOne(out: seq<Emit>, e: Emit)
    ensures NamesSince(out + [e]) == (if e.Heading? then [] else NamesSince(out) + NameOf(e))
    ensures LastHeading(out + [e]) == (if e.Heading? then Some(e.name) else LastHeading(out))
    ensures Headings(out + [e]) == Headings(out) + (if e.Heading? then 1 else 0)
    ensures Constructors(out + [e]) == Constructors(out) + (if e.Constructor? then 1 else 0)
  {
    assert (out + [e])[..|out|] == out;
  }

  /** What the run keeps in its state agrees with what it has printed. */
  ghost predicate ReadAgrees(r: ReadRun) {
    && r.state.paramNames == NamesSince(r.out)
    && r.state.oldHead == LastHeading(r.out)
    && Headings(r.out) == Constructors(r.out) + (if r.state.oldHead.Some? then 1 else 0)
    && (r.state.oldHead.None? ==> Headings(r.out) == 0)
  }

  /** A marker after a header keeps the state in agreement with the output. */
  lemma ReadMarkerAgrees(r: ReadRun)
    requires ReadAgrees(r) && r.state.head.Some?
    ensures var (st', out) := ReadLine(r.state, MarkerLine).value;
      ReadAgrees(ReadRun(st', r.out + out, false))
  {
    var st := r.state;
    var done: seq<Emit> := if st.oldHead.Some? then [Constructor(st.oldHead.value, st.paramNames)] else [];
    var mid := r.out + done;
    if st.oldHead.Some? {
      AppendOne(r.out, Constructor(st.oldHead.value, st.paramNames));
    } else {
      assert mid == r.out;
    }
    AppendOne(mid, Blank);
    AppendOne(mid + [Blank], Heading(st.head.value));
    assert r.out + (done + [Blank, Heading(st.head.value)]) == mid + [Blank] + [Heading(st.head.value)];
  }

  /** A field row of a reply keeps the state in agreement with the output. */
  lemma ReadRowAgrees(r: ReadRun, kind: RowKind, text: string)
    requires ReadAgrees(r)
    ensures var (st', out) := ReadRow(r.state, kind, text);
      ReadAgrees(ReadRun(st', r.out + out, false))
  {
    ReadRowOutput(r.state, kind, text);
    var out := ReadRow(r.state, kind, text).1;
    if out == [] {
      assert r.out + out == r.out;
    } else {
      assert out == [out[0]];
      AppendOne(r.out, out[0]);
    }
  }

  /**
   * `param_names` holds exactly the names bound by the statements printed
   * since the last heading, `old_head` is that heading, and every heading
   * but the last has had its constructor printed.
   */
  lemma {:induction false} ReadInvariant(lines: seq<Line>, k: nat)
    requires k <= |lines|
    ensures !ReadLines(lines, k).raised ==> ReadAgrees(ReadLines(lines, k))
  {
    if k > 0 {
      ReadInvariant(lines, k - 1);
      var prev := ReadLines(lines, k - 1);
      if !prev.raised {
        match lines[k - 1]
        case EmptyLine =>
          assert prev.out + [] == prev.out;
        case HeaderLine(_) =>
          assert prev.out + [] == prev.out;
        case MarkerLine =>
          if prev.state.head.Some? {
            ReadMarkerAgrees(prev);
          }
        case FieldLine(text, kind, _) =>
          if prev.state.inResponse {
            ReadRowAgrees(prev, kind, text);
          } else {
            assert prev.out + [] == prev.out;
          }
      }
    }
  }

  /**
   * At a marker after the first, the constructor of the previous message is
   * printed with exactly the names bound since its heading.
   */
  lemma ReadMarkerPrintsConstructor(lines: seq<Line>, k: nat)
    requires k < |lines| && lines[k] == MarkerLine
    requires !ReadLines(lines, k + 1).raised
    ensures var before := ReadLines(lines, k).out;
      && ReadLines(lines, k).state.head.Some?
      && ReadLines(lines, k + 1).out
         == before + (if LastHeading(before).Some? then [Constructor(LastHeading(before).value, NamesSince(before))] else [])
            + [Blank, Heading(ReadLines(lines, k).state.head.value)]
      && ReadLines(lines, k + 1).state.read == 0
      && ReadLines(lines, k + 1).state.paramNames == []
      && ReadLines(lines, k + 1).state.oldHead == ReadLines(lines, k).state.head
      && ReadLines(lines, k + 1).state.inResponse
  {
    ReadInvariant(lines, k);
  }

  /** No constructor is printed for the last message: one fewer constructor than headings. */
  lemma ReadLastMessageOpen(lines: seq<Line>)
    requires !ReadLines(lines, |lines|).raised
    ensures var out := ReadLines(lines, |lines|).out;
      Headings(out) == 0 || Constructors(out) == Headings(out) - 1
  {
    ReadInvariant(lines, |lines|);
  }

  ghost predicate HeaderBefore(lines: seq<Line>, k: nat)
    requires k <= |lines|
  {
    exists j :: 0 <= j < k && lines[j].HeaderLine?
  }

  ghost predicate MarkerFirst(lines: seq<Line>, k: nat)
    requires k <= |lines|
  {
    exists i :: 0 <= i < k && lines[i] == MarkerLine && !HeaderBefore(lines, i)
  }

  /** Read mode raises exactly when a marker comes before every message header. */
  lemma {:induction false} ReadRaisesIff(lines: seq<Line>, k: nat)
    requires k <= |lines|
    ensures ReadLines(lines, k).raised <==> MarkerFirst(lines, k)
    ensures !ReadLines(lines, k).raised ==> (ReadLines(lines, k).state.head.Some? <==> HeaderBefore(lines, k))
  {
    if k > 0 {
      ReadRaisesIff(lines, k - 1);
      var prev := ReadLines(lines, k - 1);
      if MarkerFirst(lines, k - 1) {
        var i :| 0 <= i < k - 1 && lines[i] == MarkerLine && !HeaderBefore(lines, i);
        assert 0 <= i < k && lines[i] == MarkerLine && !HeaderBefore(lines, i);
      } else {
        if MarkerFirst(lines, k) {
          var i :| 0 <= i < k && lines[i] == MarkerLine && !HeaderBefore(lines, i);
          assert i == k - 1;
        }
        if HeaderBefore(lines, k - 1) {
          var j :| 0 <= j < k - 1 && lines[j].HeaderLine?;
          assert 0 <= j < k && lines[j].HeaderLine?;
        }
        if lines[k - 1].HeaderLine? {
          assert HeaderBefore(lines, k);
        }
        if HeaderBefore(lines, k) && !lines[k - 1].HeaderLine? {
          var j :| 0 <= j < k && lines[j].HeaderLine?;
          assert j < k - 1;
          assert HeaderBefore(lines, k - 1);
        }
        if lines[k - 1] == MarkerLine && !HeaderBefore(lines, k - 1) {
          assert MarkerFirst(lines, k);
        }
      }
    }
  }

  /** Before the first marker nothing is printed and rows are not yet part of a reply. */
  lemma {:induction false} ReadQuietBeforeMarker(lines: seq<Line>, k: nat)
    requires k <= |lines|
    requires forall j :: 0 <= j < k ==> lines[j] != MarkerLine
    ensures ReadLines(lines, k).out == [] && !ReadLines(lines, k).raised
    ensures !ReadLines(lines, k).state.inResponse && ReadLines(lines, k).state.read == 0
  {
    if k > 0 {
      ReadQuietBeforeMarker(lines, k - 1);
    }
  }

  /** After a header and until the next marker, field rows change nothing but the header name. */
  lemma {:induction false} ReadSkipsRequest(lines: seq<Line>, i: nat, k: nat)
    requires i < k <= |lines| && lines[i].HeaderLine?
    requires forall j :: i < j < k ==> lines[j] != MarkerLine
    ensures ReadLines(lines, k).out == ReadLines(lines, i + 1).out
    ensures ReadLines(lines, k).raised == ReadLines(lines, i + 1).raised
    ensures !ReadLines(lines, k).raised ==>
      && !ReadLines(lines, k).state.inResponse
      && ReadLines(lines, k).state.(head := None) == ReadLines(lines, i + 1).state.(head := None)
  {
    if k > i + 1 {
      ReadSkipsRequest(lines, i, k - 1);
      assert ReadLines(lines, k - 1).out + [] == ReadLines(lines, k - 1).out;
    }
  }

  // ---------------------------------------------------------------------------
  // Write mode: one field row

  /**
   * A standard row of width 1, 2 or 4 prints one write of exactly that
   * width: `write_bool` only for BOOL at width 1, a signed write for the
   * INT types, otherwise unsigned; any other width prints a diagnostic.
   */
  lemma WriteStandardRow(st: WriteState, num: nat, tag: string, field: string, line: string)
    ensures var (st', out) := WriteRow(st, Standard(num, tag, field), line);
      if IsWidth(num) then
        && |out| == 1 && out[0].WriteField? && out[0].name == Normalize(field)
        && PrimWidth(out[0].prim) == num
        && (out[0].prim == BoolPrim <==> num == 1 && tag == "BOOL")
        && (out[0].prim.SInt? <==> IsSignedTag(tag) && !(num == 1 && tag == "BOOL"))
        && st' == st.(written := st.written + num)
      else
        st' == st && out == [CouldNotParseLength(num, line)]
  {
  }

  /** Enumerable rows: one write of the width, or a diagnostic. */
  lemma WriteEnumerableRow(st: WriteState, num: nat, name: string, line: string)
    ensures WriteRow(st, Enumerable(num, name), line)
            == if IsWidth(num) then (st.(written := st.written + num), [WriteEnum(Normalize(name), num)])
               else (st, [CouldNotParseLength(num, line)])
  {
  }

  /** Unused and data rows add their declared count and print one pad or raw write. */
  lemma WriteCountedRow(st: WriteState, kind: RowKind, line: string)
    requires kind.Unused? || kind.Data?
    ensures var (st', out) := WriteRow(st, kind, line);
      && st' == st.(written := st.written + kind.count)
      && out == [if kind.Unused? then WritePad(kind.count) else WriteRaw(kind.count)]
  {
  }

  /**
   * The request length: a literal integer is written as it stands and
   * leaves `pad` alone; any other token prints the dynamic-length
   * placeholder and sets `pad`. Either way two bytes are counted.
   */
  lemma WriteRequestLengthRow(st: WriteState, t: string, line: string)
    ensures var (st', out) := WriteRow(st, RequestLength(t), line);
      && st'.written == st.written + 2 && st'.inResponse == st.inResponse
      && (PyInt(t).Some? ==> out == [WriteLength(PyInt(t).value)] && st'.pad == st.pad)
      && (PyInt(t).None? ==> out == [DynamicLength(t)] && st'.pad)
  {
  }

  lemma {:induction false} AllDigitsUnderscored(b: string)
    requires forall k :: 0 <= k < |b| ==> IsDigit(b[k])
    ensures DigitsOrUnderscores(b) && NoDoubleUnderscore(b) && DigitsOf(b) == b
    decreases |b|
  {
    if b != [] {
      AllDigitsUnderscored(b[1..]);
    }
  }

  /** A token of decimal digits is a literal length with its decimal value. */
  lemma PyIntOfDigits(t: string)
    requires |t| > 0 && forall k :: 0 <= k < |t| ==> IsDigit(t[k])
    ensures PyInt(t) == Some(DigitsValue(t, 0, |t|) as int)
  {
    AllDigitsUnderscored(t);
  }

  /** Tokens seen in request tables: a sum is not a literal; separators and signs are as in Python. */
  lemma PyIntExamples()
    ensures PyInt("3") == Some(3)
    ensures PyInt("-12") == Some(-12)
    ensures PyInt("1_0") == Some(10)
    ensures PyInt("1__0") == None
    ensures PyInt("2+n") == None
    ensures PyInt("") == None
  {
    assert "-12"[1..] == "12";
    assert DigitsOf("12") == "12" by {
      assert "12"[1..] == "2";
    }
    assert DigitsValue("12", 0, 1) == 1;
    assert DigitsValue("12", 0, 2) == 12;
    assert DigitsValue("10", 0, 1) == 1;
    assert DigitsValue("10", 0, 2) == 10;
    assert Underscored("1_0") by {
      assert "1_0"[1..] == "_0" && "_0"[1..] == "0";
    }
    assert DigitsOf("1_0") == "10" by {
      assert "1_0"[1..] == "_0" && "_0"[1..] == "0";
    }
    assert !Underscored("1__0") by {
      assert "1__0"[1..] == "__0";
    }
  }

  // ---------------------------------------------------------------------------
  // Write mode: headers and sections

  /**
   * A header prints one `write_pad_op` exactly when `pad` is set, then the
   * heading, and starts the count again.
   */
  lemma WriteHeaderLine(st: WriteState, name: string, isEvent: bool)
    ensures WriteLine(st, HeaderLine(name), isEvent).0 == WriteStart
    ensures var out := WriteLine(st, HeaderLine(name), isEvent).1;
      && multiset(out)[WritePadOp] == (if st.pad then 1 else 0)
      && |out| >= 2 && out[|out| - 2..] == [Blank, Heading(name)]
  {
    var p: seq<Emit> := if st.pad then [WritePadOp] else [];
    var w: seq<Emit> := if isEvent && st.written != 32 then [Warning(st.written)] else [];
    var out := p + w + [Blank, Heading(name)];
    assert multiset(out) == multiset(p) + multiset(w) + multiset([Blank, Heading(name)]);
    assert out[|out| - 2..] == [Blank, Heading(name)];
  }

  /** Under the event flag a header warns, once, exactly when the section was not 32 bytes. */
  lemma WriteHeaderWarns(st: WriteState, name: string, isEvent: bool)
    ensures var out := WriteLine(st, HeaderLine(name), isEvent).1;
      && multiset(out)[Warning(st.written)] == (if isEvent && st.written != 32 then 1 else 0)
      && forall e :: e in out && e.Warning? ==> e == Warning(st.written)
  {
    var p: seq<Emit> := if st.pad then [WritePadOp] else [];
    var w: seq<Emit> := if isEvent && st.written != 32 then [Warning(st.written)] else [];
    var out := p + w + [Blank, Heading(name)];
    assert multiset(out) == multiset(p) + multiset(w) + multiset([Blank, Heading(name)]);
    forall e | e in out && e.Warning?
      ensures e == Warning(st.written)
    {
      assert e in p || e in w || e in [Blank, Heading(name)];
    }
  }

  /** Nothing has been written when the input has had only blank lines and markers. */
  lemma {:induction false} WriteNothingYet(lines: seq<Line>, k: nat, isEvent: bool)
    requires k <= |lines|
    requires forall j :: 0 <= j < k ==> lines[j] == EmptyLine || lines[j] == MarkerLine
    ensures WriteLines(lines, k, isEvent).1 == []
    ensures WriteLines(lines, k, isEvent).0.written == 0 && !WriteLines(lines, k, isEvent).0.pad
  {
    if k > 0 {
      WriteNothingYet(lines, k - 1, isEvent);
    }
  }

  /** Because `written` starts at 0, the first header of an event section always warns. */
  lemma FirstHeaderWarns(lines: seq<Line>, k: nat)
    requires k < |lines| && lines[k].HeaderLine?
    requires forall j :: 0 <= j < k ==> lines[j] == EmptyLine || lines[j] == MarkerLine
    ensures WriteLines(lines, k + 1, true).1 == [Warning(0), Blank, Heading(lines[k].name)]
  {
    WriteNothingYet(lines, k, true);
  }

  /** After a marker and until the next header, write mode neither prints nor counts. */
  lemma {:induction false} WriteSkipsResponse(lines: seq<Line>, i: nat, k: nat, isEvent: bool)
    requires i < k <= |lines| && lines[i] == MarkerLine
    requires forall j :: i < j < k ==> !lines[j].HeaderLine?
    ensures WriteLines(lines, k, isEvent) == WriteLines(lines, i + 1, isEvent)
  {
    if k > i + 1 {
      WriteSkipsResponse(lines, i, k - 1, isEvent);
      assert WriteLines(lines, k - 1, isEvent).1 + [] == WriteLines(lines, k - 1, isEvent).1;
    }
  }
}
