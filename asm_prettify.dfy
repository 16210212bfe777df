/**
 * The disassembly-listing prettifier: split a listing into header,
 * instructions and trailer, resolve branch targets, give every
 * instruction-aligned target a `loc_XXXXXXXX` label and re-emit the listing
 * with label lines and rewritten operands.
 */
module AsmPrettify {
  import opened Wrappers
  import opened Text
  import opened HexFormat

  /** One recognised listing line. */
  datatype Instruction = Instruction(
    address: nat,
    rawBytes: string,
    mnemonic: string,
    opStr: string,
    original: string)

  /** The RV32I jumps and branches and their compressed forms. */
  const ControlFlowMnemonics: set<string> := {
    "j", "jal", "jalr", "beq", "bne", "blt", "bge", "bltu", "bgeu",
    "c.j", "c.jal", "c.jr", "c.jalr", "c.beqz", "c.bnez"
  }

  // ---------------------------------------------------------------------
  // The instruction-line pattern
  //   ^(0x[0-9a-fA-F]+):\s+([0-9a-fA-F]+)\s+([^\s]+)(?:\s+(.*))?$
  // written out as maximal runs of character classes.
  // ---------------------------------------------------------------------

  datatype CharClass = HexClass | SpaceClass | NonSpaceClass

  predicate InClass(c: char, k: CharClass) {
    match k
    case HexClass => IsHexDigit(c)
    case SpaceClass => IsSpace(c)
    case NonSpaceClass => !IsSpace(c)
  }

  /** The end of the maximal run of class `k` that starts at `i`. */
  function Span(s: string, i: nat, k: CharClass): (j: nat)
    requires i <= |s|
    ensures i <= j <= |s|
    decreases |s| - i
  {
    if i < |s| && InClass(s[i], k) then Span(s, i + 1, k) else i
  }

  /** A span holds only characters of its class and stops at the end or at a character outside it. */
  lemma {:induction false} SpanClass(s: string, i: nat, k: CharClass)
    requires i <= |s|
    ensures var j := Span(s, i, k);
      && (forall m :: i <= m < j ==> InClass(s[m], k))
      && (j == |s| || !InClass(s[j], k))
    decreases |s| - i
  {
    if i < |s| && InClass(s[i], k) {
      SpanClass(s, i + 1, k);
    }
  }

  lemma {:induction false} SpanStops(s: string, i: nat, j: nat, k: CharClass)
    requires i <= j <= |s|
    requires forall m :: i <= m < j ==> InClass(s[m], k)
    requires j == |s| || !InClass(s[j], k)
    ensures Span(s, i, k) == j
    decreases j - i
  {
    if i < j {
      SpanStops(s, i + 1, j, k);
    }
  }

  /** The groups of a matching line: address digits, raw bytes, mnemonic, operand text. */
  datatype LineMatch = LineMatch(addressDigits: string, rawBytes: string, mnemonic: string, operand: string)

  /**
   * Matches a line that carries no trailing newline against the instruction
   * pattern. `$` can then only match at the end, and `.` stops at `\n`.
   */
  function MatchLine(s: string): (r: Option<LineMatch>)
    ensures r.Some? ==> |s| >= 3 && s[..2] == "0x" && |r.value.addressDigits| >= 1 && |r.value.mnemonic| >= 1
    ensures r.Some? ==> '\n' !in r.value.operand
  {
    if |s| < 2 || s[..2] != "0x" then None
    else
      var a := Span(s, 2, HexClass);
      if a == 2 || a == |s| || s[a] != ':' then None
      else
        var w1 := Span(s, a + 1, SpaceClass);
        if w1 == a + 1 then None
        else
          var b := Span(s, w1, HexClass);
          if b == w1 then None
          else
            var w2 := Span(s, b, SpaceClass);
            if w2 == b then None
            else
              var m := Span(s, w2, NonSpaceClass);
              if m == w2 then None
              else if m == |s| then Some(LineMatch(s[2..a], s[w1..b], s[w2..m], ""))
              else
                var w3 := Span(s, m, SpaceClass);
                if '\n' in s[w3..] then None
                else Some(LineMatch(s[2..a], s[w1..b], s[w2..m], s[w3..]))
  }

  /**
   * The groups of a match: the address and the raw bytes are runs of
   * hexadecimal digits, the mnemonic a run of non-space characters, and the
   * operand text stays on one line.
   */
  lemma MatchLineGroups(s: string)
    ensures var r := MatchLine(s);
      r.Some? ==>
        && |r.value.addressDigits| >= 1 && AllHex(r.value.addressDigits)
        && |r.value.rawBytes| >= 1 && AllHex(r.value.rawBytes)
        && |r.value.mnemonic| >= 1 && NoSpace(r.value.mnemonic)
        && '\n' !in r.value.operand
        && |s| >= 3 && s[..2] == "0x"
  {
    if |s| >= 2 && s[..2] == "0x" {
      var a := Span(s, 2, HexClass);
      RunSlice(s, 2, HexClass);
      if a != 2 && a < |s| && s[a] == ':' {
        var w1 := Span(s, a + 1, SpaceClass);
        if w1 != a + 1 {
          var b := Span(s, w1, HexClass);
          RunSlice(s, w1, HexClass);
          if b != w1 {
            var w2 := Span(s, b, SpaceClass);
            if w2 != b {
              RunSlice(s, w2, NonSpaceClass);
            }
          }
        }
      }
    }
  }

  /** The text of a hexadecimal run is all digits; that of a non-space run holds no whitespace. */
  lemma RunSlice(s: string, i: nat, k: CharClass)
    requires i <= |s|
    ensures var j := Span(s, i, k);
      && (k == HexClass ==> AllHex(s[i..j]))
      && (k == NonSpaceClass ==> NoSpace(s[i..j]))
  {
    SpanClass(s, i, k);
  }

  /**
   * One line of `parse_asm_lines`: the line without trailing newlines, parsed
   * when it matches. The address is `0x` followed by hexadecimal digits, so
   * reading it as an integer cannot fail.
   */
  function ParseLine(line: string): (r: Option<Instruction>)
    ensures r.Some? ==> r.value.original == RStripNewlines(line)
    ensures r.Some? ==> |r.value.rawBytes| >= 1 && AllHex(r.value.rawBytes)
    ensures r.Some? ==> |r.value.mnemonic| >= 1 && NoSpace(r.value.mnemonic)
    ensures r.Some? ==> '\n' !in r.value.opStr && Stripped(r.value.opStr)
  {
    var s := RStripNewlines(line);
    MatchLineGroups(s);
    match MatchLine(s)
    case None => None
    case Some(g) =>
      var op := Strip(g.operand);
      assert forall c :: c in op ==> c in g.operand;
      Some(Instruction(HexValue(g.addressDigits), g.rawBytes, g.mnemonic, op, s))
  }

  predicate Stripped(s: string) {
    s == [] || (!IsSpace(s[0]) && !IsSpace(s[|s| - 1]))
  }


  // ---------------------------------------------------------------------
  // Splitting the listing
  // ---------------------------------------------------------------------

  /** The parse of every line, in order. */
  function Classify(lines: seq<string>): (cls: seq<Option<Instruction>>)
    ensures |cls| == |lines|
  {
    if lines == [] then [] else Classify(lines[..|lines| - 1]) + [ParseLine(lines[|lines| - 1])]
  }

  lemma {:induction false} ClassifyAt(lines: seq<string>, i: nat)
    requires i < |lines|
    ensures Classify(lines)[i] == ParseLine(lines[i])
  {
    if i < |lines| - 1 {
      ClassifyAt(lines[..|lines| - 1], i);
    }
  }

  /** The index of the first recognised line, or the number of lines. */
  function FirstMatch(cls: seq<Option<Instruction>>): (k: nat)
    ensures k <= |cls|
    ensures k < |cls| ==> cls[k].Some?
  {
    if cls == [] then 0 else if cls[0].Some? then 0 else 1 + FirstMatch(cls[1..])
  }

  /** No line before the first match is recognised. */
  lemma {:induction false} FirstMatchFirst(cls: seq<Option<Instruction>>, j: nat)
    requires j < FirstMatch(cls)
    ensures cls[j].None?
  {
    if j > 0 {
      FirstMatchFirst(cls[1..], j - 1);
    }
  }

  /** Every line with its trailing newlines removed. */
  function StripAll(lines: seq<string>): (r: seq<string>)
    ensures |r| == |lines|
    ensures forall i :: 0 <= i < |lines| ==> r[i] == RStripNewlines(lines[i])
  {
    seq(|lines|, i requires 0 <= i < |lines| => RStripNewlines(lines[i]))
  }

  /** The recognised lines' instructions, in order. */
  function Parsed(cls: seq<Option<Instruction>>): seq<Instruction>
  {
    if cls == [] then []
    else
      var p := Parsed(cls[..|cls| - 1]);
      match cls[|cls| - 1]
      case Some(inst) => p + [inst]
      case None => p
  }

  /** The unrecognised lines, without trailing newlines, in order. */
  function Unparsed(lines: seq<string>, cls: seq<Option<Instruction>>): seq<string>
    requires |lines| == |cls|
  {
    if lines == [] then []
    else
      var u := Unparsed(lines[..|lines| - 1], cls[..|cls| - 1]);
      if cls[|cls| - 1].Some? then u else u + [RStripNewlines(lines[|lines| - 1])]
  }

  /** The three parts of a listing, and whether an instruction line has been seen. */
  datatype Sections = Sections(header: seq<string>, instructions: seq<Instruction>, trailer: seq<string>, seen: bool)

  /** One line of the split: an instruction, a header line or a trailer line. */
  function AddLine(sec: Sections, line: string, parsed: Option<Instruction>): Sections {
    match parsed
    case Some(inst) => sec.(instructions := sec.instructions + [inst], seen := true)
    case None =>
      if !sec.seen then sec.(header := sec.header + [RStripNewlines(line)])
      else sec.(trailer := sec.trailer + [RStripNewlines(line)])
  }

  /** The split of `lines`, whose parses are `cls`, line after line. */
  function SplitLines(lines: seq<string>, cls: seq<Option<Instruction>>): Sections
    requires |lines| == |cls|
  {
    if lines == [] then Sections([], [], [], false)
    else AddLine(SplitLines(lines[..|lines| - 1], cls[..|cls| - 1]), lines[|lines| - 1], cls[|cls| - 1])
  }

  lemma SplitLinesSnoc(lines: seq<string>, cls: seq<Option<Instruction>>, i: nat)
    requires |lines| == |cls| && i < |lines|
    ensures SplitLines(lines[..i + 1], cls[..i + 1]) == AddLine(SplitLines(lines[..i], cls[..i]), lines[i], cls[i])
  {
    assert lines[..i + 1][..i] == lines[..i];
    assert cls[..i + 1][..i] == cls[..i];
  }

  /**
   * The split, described part by part: the header is every line before the
   * first instruction line, the instructions are those of every recognised
   * line, and the trailer is every unrecognised line after the first
   * instruction line.
   */
  lemma {:induction false} SplitLinesSections(lines: seq<string>, cls: seq<Option<Instruction>>, i: nat)
    requires |lines| == |cls| && i <= |lines|
    ensures var k := FirstMatch(cls);
      SplitLines(lines[..i], cls[..i]) == Sections(
        StripAll(lines[..if i < k then i else k]),
        Parsed(cls[..i]),
        if k < i then Unparsed(lines[k..i], cls[k..i]) else [],
        k < i)
  {
    if i == 0 {
      assert lines[..0] == [] && cls[..0] == [];
    } else {
      var j := i - 1;
      SplitLinesSections(lines, cls, j);
      SplitLinesSnoc(lines, cls, j);
      SplitStep(lines, cls, j);
      var prev := SplitLines(lines[..j], cls[..j]);
      var next := AddLine(prev, lines[j], cls[j]);
      assert next.seen == (FirstMatch(cls) < i);
      assert next.header == StripAll(lines[..if i < FirstMatch(cls) then i else FirstMatch(cls)]);
      assert next.instructions == Parsed(cls[..i]);
    }
  }

  /**
   * `parse_asm_lines`: the lines before the first instruction line form the
   * header, every instruction line is parsed, and once an instruction has been
   * seen every other line goes to the trailer.
   */
  method ParseAsmLines(lines: seq<string>) returns (header: seq<string>, instructions: seq<Instruction>, trailer: seq<string>)
    ensures var cls := Classify(lines); var k := FirstMatch(cls);
      && header == StripAll(lines[..k])
      && instructions == Parsed(cls)
      && trailer == Unparsed(lines[k..], cls[k..])
  {
    ghost var cls := Classify(lines);
    header, instructions, trailer := [], [], [];
    var seenInstruction := false;
    var i := 0;
    while i < |lines|
      invariant 0 <= i <= |lines|
      invariant Sections(header, instructions, trailer, seenInstruction) == SplitLines(lines[..i], cls[..i])
    {
      var line := lines[i];
      var parsed := ParseLine(line);
      ClassifyAt(lines, i);
      SplitLinesSnoc(lines, cls, i);
      if parsed.Some? {
        seenInstruction := true;
        instructions := instructions + [parsed.value];
      } else if !seenInstruction {
        header := header + [RStripNewlines(line)];
      } else {
        trailer := trailer + [RStripNewlines(line)];
      }
      i := i + 1;
    }
    SplitLinesSections(lines, cls, |lines|);
    assert lines[..|lines|] == lines;
    assert cls[..|lines|] == cls;
  }

  /** How one more line extends the header, the instructions and the trailer. */
  lemma SplitStep(lines: seq<string>, cls: seq<Option<Instruction>>, i: nat)
    requires |lines| == |cls| && i < |lines|
    ensures var k := FirstMatch(cls);
      && (k < i + 1) == (k < i || cls[i].Some?)
      && StripAll(lines[..if i + 1 < k then i + 1 else k])
         == StripAll(lines[..if i < k then i else k]) + (if k <= i then [] else [RStripNewlines(lines[i])])
      && Parsed(cls[..i + 1]) == Parsed(cls[..i]) + (if cls[i].Some? then [cls[i].value] else [])
      && (if k < i + 1 then Unparsed(lines[k..i + 1], cls[k..i + 1]) else [])
         == (if k < i then Unparsed(lines[k..i], cls[k..i]) else [])
            + (if k < i && cls[i].None? then [RStripNewlines(lines[i])] else [])
  {
    ParsedSnoc(cls, i);
    HeaderSnoc(lines, cls, i);
    TrailerSnoc(lines, cls, i);
  }

  lemma HeaderSnoc(lines: seq<string>, cls: seq<Option<Instruction>>, i: nat)
    requires |lines| == |cls| && i < |lines|
    ensures var k := FirstMatch(cls);
      && (k < i + 1) == (k < i || cls[i].Some?)
      && StripAll(lines[..if i + 1 < k then i + 1 else k])
         == StripAll(lines[..if i < k then i else k]) + (if k <= i then [] else [RStripNewlines(lines[i])])
  {
    var k := FirstMatch(cls);
    if i < k {
      FirstMatchFirst(cls, i);
      assert lines[..i + 1] == lines[..i] + [lines[i]];
    }
  }

  lemma TrailerSnoc(lines: seq<string>, cls: seq<Option<Instruction>>, i: nat)
    requires |lines| == |cls| && i < |lines|
    ensures var k := FirstMatch(cls);
      (if k < i + 1 then Unparsed(lines[k..i + 1], cls[k..i + 1]) else [])
      == (if k < i then Unparsed(lines[k..i], cls[k..i]) else [])
         + (if k < i && cls[i].None? then [RStripNewlines(lines[i])] else [])
  {
    var k := FirstMatch(cls);
    if k < i {
      UnparsedSnoc(lines, cls, k, i);
    } else if k == i {
      assert lines[k..i + 1] == [lines[i]];
      assert cls[k..i + 1] == [cls[i]];
    }
  }

  lemma ParsedSnoc(cls: seq<Option<Instruction>>, i: nat)
    requires i < |cls|
    ensures Parsed(cls[..i + 1]) == Parsed(cls[..i]) + (if cls[i].Some? then [cls[i].value] else [])
  {
    assert cls[..i + 1][..i] == cls[..i];
  }

  lemma UnparsedSnoc(lines: seq<string>, cls: seq<Option<Instruction>>, k: nat, i: nat)
    requires |lines| == |cls| && k <= i < |lines|
    ensures Unparsed(lines[k..i + 1], cls[k..i + 1])
         == Unparsed(lines[k..i], cls[k..i]) + (if cls[i].Some? then [] else [RStripNewlines(lines[i])])
  {
    assert lines[k..i + 1][..i - k] == lines[k..i];
    assert cls[k..i + 1][..i - k] == cls[k..i];
  }

  lemma {:induction false} ParsedUnparsedCount(lines: seq<string>, cls: seq<Option<Instruction>>)
    requires |lines| == |cls|
    ensures |Parsed(cls)| + |Unparsed(lines, cls)| == |lines|
  {
    if lines != [] {
      ParsedUnparsedCount(lines[..|lines| - 1], cls[..|cls| - 1]);
    }
  }

  lemma {:induction false} ParsedNone(cls: seq<Option<Instruction>>)
    requires forall j :: 0 <= j < |cls| ==> cls[j].None?
    ensures Parsed(cls) == []
  {
    if cls != [] {
      ParsedNone(cls[..|cls| - 1]);
    }
  }

  lemma {:induction false} ParsedAppend(a: seq<Option<Instruction>>, b: seq<Option<Instruction>>)
    ensures Parsed(a + b) == Parsed(a) + Parsed(b)
  {
    if b == [] {
      assert a + b == a;
    } else {
      assert (a + b)[..|a + b| - 1] == a + b[..|b| - 1];
      ParsedAppend(a, b[..|b| - 1]);
    }
  }

  /**
   * Every input line lands in exactly one of header, instructions and
   * trailer.
   */
  lemma ParseAccountsForEveryLine(lines: seq<string>)
    ensures var cls := Classify(lines); var k := FirstMatch(cls);
      |StripAll(lines[..k])| + |Parsed(cls)| + |Unparsed(lines[k..], cls[k..])| == |lines|
  {
    var cls := Classify(lines);
    var k := FirstMatch(cls);
    assert cls == cls[..k] + cls[k..];
    ParsedAppend(cls[..k], cls[k..]);
    forall j | 0 <= j < k
      ensures cls[..k][j].None?
    {
      FirstMatchFirst(cls, j);
    }
    ParsedNone(cls[..k]);
    ParsedUnparsedCount(lines[k..], cls[k..]);
  }

  // ---------------------------------------------------------------------
  // Target resolution
  // ---------------------------------------------------------------------

  /** The comma-separated operand tokens, each stripped. */
  function Tokens(opStr: string): (ts: seq<string>)
    ensures |ts| >= 1
  {
    var parts := Split(opStr, ',');
    seq(|parts|, k requires 0 <= k < |parts| => Strip(parts[k]))
  }

  /** Every token is free of commas and of surrounding whitespace. */
  lemma TokensAreWords(opStr: string)
    ensures var ts := Tokens(opStr);
      forall k :: 0 <= k < |ts| ==> ',' !in ts[k] && Stripped(ts[k])
  {
    var parts := Split(opStr, ',');
    var ts := Tokens(opStr);
    forall k | 0 <= k < |ts|
      ensures ',' !in ts[k] && Stripped(ts[k])
    {
      assert ts[k] == Strip(parts[k]);
      assert forall c :: c in ts[k] ==> c in parts[k];
    }
  }

  function LastToken(opStr: string): string {
    var ts := Tokens(opStr);
    ts[|ts| - 1]
  }

  /** `0x` followed by at least one hexadecimal digit. */
  predicate IsAbsHex(t: string) {
    |t| >= 3 && t[..2] == "0x" && AllHex(t[2..])
  }

  /** An optional `-` followed by `0x`-hex or by decimal digits. */
  predicate IsRelLiteral(t: string) {
    var u := if |t| >= 1 && t[0] == '-' then t[1..] else t;
    IsAbsHex(u) || (|u| >= 1 && AllDigits(u))
  }

  /**
   * Python's `int(t, 0)` on a token of the relative form: a decimal literal
   * with a leading zero is refused unless every digit is zero.
   */
  function RelValue(t: string): (r: Option<int>)
    requires IsRelLiteral(t)
    ensures IsAbsHex(t) ==> r == Some(HexValue(t[2..]))
    ensures r.Some? ==> (t[0] == '-' ==> r.value <= 0) && (t[0] != '-' ==> r.value >= 0)
    ensures r.None? ==> !IsAbsHex(t) && (t[0] == '0' || (|t| >= 2 && t[0] == '-' && t[1] == '0'))
  {
    var neg := |t| >= 1 && t[0] == '-';
    var u := if neg then t[1..] else t;
    var magnitude :=
      if IsAbsHex(u) then Some(HexValue(u[2..]))
      else if u[0] == '0' && DecimalValue(u) != 0 then None
      else Some(DecimalValue(u));
    match magnitude
    case None => None
    case Some(v) => var value: int := v; Some(if neg then -value else value)
  }

  /** What `infer_target` gives: no target, a target, or the literal error it raises. */
  datatype Resolution = NoTarget | Target(addr: int) | Malformed(token: string)

  /**
   * `infer_target`: only control-flow mnemonics with operand text have a
   * target; the last token decides whether it is absolute or relative.
   */
  function Resolve(inst: Instruction): (r: Resolution)
    ensures r != NoTarget ==>
      && inst.mnemonic in ControlFlowMnemonics
      && inst.opStr != ""
      && (IsAbsHex(LastToken(inst.opStr)) || IsRelLiteral(LastToken(inst.opStr)))
    ensures r.Malformed? ==> r.token == LastToken(inst.opStr) && IsRelLiteral(r.token) && RelValue(r.token).None?
  {
    if inst.mnemonic !in ControlFlowMnemonics then NoTarget
    else if inst.opStr == "" then NoTarget
    else
      var last := LastToken(inst.opStr);
      if IsAbsHex(last) then Target(HexValue(last[2..]))
      else if IsRelLiteral(last) then
        match RelValue(last)
        case Some(offset) => Target(inst.address + offset)
        case None => Malformed(last)
      else NoTarget
  }

  /** A last token that is neither an absolute nor a relative literal gives no target. */
  lemma NoTargetOtherToken(inst: Instruction)
    requires !IsAbsHex(LastToken(inst.opStr)) && !IsRelLiteral(LastToken(inst.opStr))
    ensures Resolve(inst) == NoTarget
  {
  }

  /** An absolute last token `0x…`, in either case of hexadecimal digit, names its own value as the target. */
  lemma ResolveAbsolute(inst: Instruction, h: string)
    requires inst.mnemonic in ControlFlowMnemonics && inst.opStr != ""
    requires LastToken(inst.opStr) == "0x" + h && |h| >= 1 && AllHex(h)
    ensures Resolve(inst) == Target(HexValue(h))
  {
    assert LastToken(inst.opStr)[2..] == h;
  }

  /** A last token written as `0x` plus a formatted address targets that address. */
  lemma ResolveFormatted(inst: Instruction, a: nat, width: nat)
    requires inst.mnemonic in ControlFlowMnemonics && inst.opStr != ""
    requires LastToken(inst.opStr) == "0x" + FormatHex(a, width)
    ensures Resolve(inst) == Target(a)
  {
    assert |Digits(a)| >= 1;
    FormatHexRoundTrip(a, width);
    ResolveAbsolute(inst, FormatHex(a, width));
  }

  /** A readable relative last token moves the target away from the instruction's address by its value. */
  lemma ResolveOffset(inst: Instruction, v: int)
    requires inst.mnemonic in ControlFlowMnemonics && inst.opStr != ""
    requires !IsAbsHex(LastToken(inst.opStr)) && IsRelLiteral(LastToken(inst.opStr))
    requires RelValue(LastToken(inst.opStr)) == Some(v)
    ensures Resolve(inst) == Target(inst.address + v)
  {
  }

  /** `str(n)`, with or without a minus sign, is a relative literal worth plus or minus n. */
  lemma DecimalToken(t: string, n: nat, neg: bool)
    requires t == (if neg then "-" else "") + Decimal(n)
    ensures !IsAbsHex(t) && IsRelLiteral(t) && RelValue(t) == Some(if neg then -(n as int) else n as int)
  {
    var u := Decimal(n);
    assert u[0] != '-';
    assert (if neg then t[1..] else t) == u;
    assert !IsAbsHex(u) by {
      if |u| >= 3 {
        assert u[1] != 'x';
      }
    }
    if neg {
      assert t[0] == '-';
    }
    DecimalLeadingDigit(n);
    DecimalRoundTrip(n);
  }

  /**
   * A decimal last token with a leading zero, like `010`, is refused by
   * `int(token, 0)`: the instruction has no target and the run fails.
   */
  lemma ResolveLeadingZero(inst: Instruction, n: nat)
    requires inst.mnemonic in ControlFlowMnemonics && inst.opStr != ""
    requires n > 0 && LastToken(inst.opStr) == "0" + Decimal(n)
    ensures Resolve(inst) == Malformed(LastToken(inst.opStr))
  {
    LeadingZeroToken(LastToken(inst.opStr), n);
  }

  /** A zero in front of `str(n)`, n positive, makes a relative literal that cannot be read. */
  lemma LeadingZeroToken(t: string, n: nat)
    requires n > 0 && t == "0" + Decimal(n)
    ensures !IsAbsHex(t) && IsRelLiteral(t) && RelValue(t) == None
  {
    DecimalValueLeadingZero(Decimal(n));
    DecimalRoundTrip(n);
    assert t[1] == Decimal(n)[0];
  }

  // ---------------------------------------------------------------------
  // Operand rewriting
  // ---------------------------------------------------------------------

  /** Splitting a `", "`-join after a comma-free prefix `p` gives back the parts, each after its space. */
  lemma {:induction false} SplitJoinSpaced(p: string, ts: seq<string>)
    requires |ts| >= 1 && ',' !in p
    requires forall k :: 0 <= k < |ts| ==> ',' !in ts[k]
    ensures var parts := Split(p + Join(", ", ts), ',');
      && |parts| == |ts|
      && parts[0] == p + ts[0]
      && forall k :: 1 <= k < |ts| ==> parts[k] == " " + ts[k]
    decreases |ts|
  {
    if |ts| == 1 {
      SplitNoSep(p + ts[0], ',');
    } else {
      var rest := Join(", ", ts[1..]);
      assert p + Join(", ", ts) == (p + ts[0]) + [','] + (" " + rest);
      SplitPrefix(p + ts[0], " " + rest, ',');
      SplitJoinSpaced(" ", ts[1..]);
      var parts := Split(p + Join(", ", ts), ',');
      var tail := Split(" " + rest, ',');
      assert parts == [p + ts[0]] + tail;
      forall k | 1 <= k < |ts|
        ensures parts[k] == " " + ts[k]
      {
        assert parts[k] == tail[k - 1];
        assert ts[1..][k - 1] == ts[k];
      }
    }
  }

  /** The tokens of a `", "`-join of stripped, comma-free tokens are those tokens. */
  lemma TokensJoin(ts: seq<string>)
    requires |ts| >= 1
    requires forall k :: 0 <= k < |ts| ==> ',' !in ts[k] && Stripped(ts[k])
    ensures Tokens(Join(", ", ts)) == ts
  {
    JoinedParts(ts);
    TokensOfParts(Join(", ", ts), ts);
  }

  /** Text whose comma-separated parts are the tokens, each but the first after one space, has those tokens. */
  lemma TokensOfParts(s: string, ts: seq<string>)
    requires forall k :: 0 <= k < |ts| ==> Stripped(ts[k])
    requires var parts := Split(s, ',');
      |parts| == |ts| && forall k :: 0 <= k < |ts| ==> parts[k] == (if k == 0 then "" else " ") + ts[k]
    ensures Tokens(s) == ts
  {
    var parts := Split(s, ',');
    var toks := Tokens(s);
    forall k | 0 <= k < |ts|
      ensures toks[k] == ts[k]
    {
      assert toks[k] == Strip(parts[k]);
      if k == 0 {
        assert parts[0] == ts[0];
        StripStripped(ts[0]);
      } else {
        StripSpaced(ts[k]);
      }
    }
  }

  /** The parts of a `", "`-join split at its commas. */
  lemma JoinedParts(ts: seq<string>)
    requires |ts| >= 1
    requires forall k :: 0 <= k < |ts| ==> ',' !in ts[k]
    ensures var parts := Split(Join(", ", ts), ',');
      |parts| == |ts| && forall k :: 0 <= k < |ts| ==> parts[k] == (if k == 0 then "" else " ") + ts[k]
  {
    SplitJoinSpaced("", ts);
    assert "" + Join(", ", ts) == Join(", ", ts);
  }

  /** A stripped token behind the space that `", "` puts before it. */
  lemma StripSpaced(t: string)
    requires Stripped(t)
    ensures Strip(" " + t) == t
  {
    assert " " + t == [' '] + t;
    StripLeadingSpace(' ', t);
    StripStripped(t);
  }

  /**
   * `rewrite_op_str`: when the instruction's target carries a label, the last
   * operand token becomes that label and the tokens are joined with `", "`;
   * otherwise the operand text stays as it is. (A malformed relative literal
   * raises in the source; the target-collection pass has already stopped the
   * run on it, so here it simply has no label.)
   */
  function Rewrite(inst: Instruction, labels: map<int, string>): (r: string)
    ensures var res := Resolve(inst);
      !(res.Target? && res.addr in labels && labels[res.addr] != "") ==> r == inst.opStr
  {
    if inst.opStr == "" then inst.opStr
    else
      match Resolve(inst)
      case Target(t) =>
        if t in labels && labels[t] != "" then
          var ts := Tokens(inst.opStr);
          Join(", ", ts[..|ts| - 1] + [labels[t]])
        else inst.opStr
      case _ => inst.opStr
  }

  /**
   * A rewritten operand keeps every token but the last and ends with the
   * label, provided the label is itself a single stripped token.
   */
  lemma RewriteTokens(inst: Instruction, labels: map<int, string>)
    requires forall t :: t in labels ==> ',' !in labels[t] && Stripped(labels[t])
    ensures var res := Resolve(inst); var ts := Tokens(inst.opStr);
      res.Target? && res.addr in labels && labels[res.addr] != "" ==>
        Tokens(Rewrite(inst, labels)) == ts[..|ts| - 1] + [labels[res.addr]]
  {
    var res := Resolve(inst);
    if res.Target? && res.addr in labels && labels[res.addr] != "" {
      var ts := Tokens(inst.opStr);
      TokensAreWords(inst.opStr);
      TokensJoin(ts[..|ts| - 1] + [labels[res.addr]]);
    }
  }

  // ---------------------------------------------------------------------
  // Labels
  // ---------------------------------------------------------------------

  /** `f"loc_{address:08x}"` */
  function LabelName(address: nat): (r: string)
    ensures |r| >= 12 && r[..4] == "loc_"
  {
    "loc_" + FormatHex(address, 8)
  }

  lemma LabelNameInjective(a: nat, b: nat)
    requires LabelName(a) == LabelName(b)
    ensures a == b
  {
    assert LabelName(a)[4..] == FormatHex(a, 8);
    assert LabelName(b)[4..] == FormatHex(b, 8);
    FormatHexInjective(a, b, 8);
  }

  /** Addresses below 2^32 give twelve-character labels. */
  lemma LabelNameLength(a: nat)
    requires a < 0x1_0000_0000
    ensures |LabelName(a)| == 12
  {
    assert Pow16(8) == 0x1_0000_0000 by {
      assert Pow16(2) == 256;
      assert Pow16(4) == 65536 by { assert Pow16(4) == 256 * Pow16(2); }
      assert Pow16(8) == 65536 * Pow16(4) by {
        assert Pow16(8) == 16 * 16 * 16 * 16 * Pow16(4);
      }
    }
    FormatHexWidth(a, 8);
  }

  /** A label is one stripped token that is neither an address nor an offset. */
  lemma LabelNameIsWord(a: nat)
    ensures ',' !in LabelName(a) && Stripped(LabelName(a))
    ensures !IsAbsHex(LabelName(a)) && !IsRelLiteral(LabelName(a))
  {
    LabelNoComma(a);
    LabelEndsInDigit(a);
    LabelNotLiteral(a);
  }

  lemma LabelNoComma(a: nat)
    ensures ',' !in LabelName(a)
  {
    var l, d := LabelName(a), FormatHex(a, 8);
    assert l == "loc_" + d;
    forall i | 4 <= i < |l|
      ensures l[i] != ','
    {
      assert l[i] == d[i - 4] && IsHexDigit(d[i - 4]);
    }
  }

  lemma LabelEndsInDigit(a: nat)
    ensures Stripped(LabelName(a))
  {
    var l, d := LabelName(a), FormatHex(a, 8);
    assert l == "loc_" + d;
    assert l[|l| - 1] == d[|d| - 1] && IsHexDigit(d[|d| - 1]);
  }

  lemma LabelNotLiteral(a: nat)
    ensures !IsAbsHex(LabelName(a)) && !IsRelLiteral(LabelName(a))
  {
    var l := LabelName(a);
    assert l[0] == 'l' && l[..2] != "0x";
    assert !IsAsciiDigit(l[0]);
  }

  /** The instructions' addresses. */
  function Addresses(insts: seq<Instruction>): set<int> {
    set i | 0 <= i < |insts| :: insts[i].address as int
  }

  /** `max(addresses) if addresses else 0` */
  function MaxAddress(insts: seq<Instruction>): (m: nat)
    ensures forall i :: 0 <= i < |insts| ==> insts[i].address <= m
    ensures insts != [] ==> m in Addresses(insts)
  {
    if insts == [] then 0
    else
      var rest := MaxAddress(insts[1..]);
      assert forall i :: 1 <= i < |insts| ==> insts[i] == insts[1..][i - 1];
      assert insts[1..] != [] ==> rest in Addresses(insts);
      if insts[0].address >= rest then insts[0].address else rest
  }

  /** What `infer_target` gives for each instruction, in order. */
  function Resolutions(insts: seq<Instruction>): (rs: seq<Resolution>)
    ensures |rs| == |insts|
  {
    if insts == [] then [] else Resolutions(insts[..|insts| - 1]) + [Resolve(insts[|insts| - 1])]
  }

  lemma {:induction false} ResolutionsAt(insts: seq<Instruction>, i: nat)
    requires i < |insts|
    ensures Resolutions(insts)[i] == Resolve(insts[i])
  {
    if i < |insts| - 1 {
      ResolutionsAt(insts[..|insts| - 1], i);
    }
  }

  /** `t` is the address of an instruction and the target of some instruction. */
  ghost predicate IsLabelTarget(insts: seq<Instruction>, t: int) {
    var rs := Resolutions(insts);
    t in Addresses(insts) && exists i :: 0 <= i < |rs| && rs[i] == Target(t)
  }

  /** `i` is the first instruction whose relative literal cannot be read. */
  ghost predicate FirstMalformed(insts: seq<Instruction>, i: int) {
    var rs := Resolutions(insts);
    0 <= i < |rs| && rs[i].Malformed? && forall j :: 0 <= j < i ==> !rs[j].Malformed?
  }

  /**
   * The target-collection loop of the prettifier: every inferred target that
   * lies in `[0, max_address]` and is the address of an instruction. The
   * first malformed relative literal stops the run with its text.
   */
  method CollectTargets(insts: seq<Instruction>) returns (r: Result<set<int>, string>)
    ensures var rs := Resolutions(insts);
      r.Failure? <==> exists i :: 0 <= i < |rs| && rs[i].Malformed?
    ensures r.Failure? ==> exists i :: FirstMalformed(insts, i) && Resolutions(insts)[i].token == r.error
    ensures r.Success? ==> forall t :: t in r.value <==> IsLabelTarget(insts, t)
  {
    ghost var rs := Resolutions(insts);
    var addresses := Addresses(insts);
    var maxAddress := MaxAddress(insts);
    var targets: set<int> := {};
    var i := 0;
    while i < |insts|
      invariant 0 <= i <= |insts|
      invariant forall j :: 0 <= j < i ==> !rs[j].Malformed?
      invariant forall t :: t in targets <==> t in addresses && exists j :: 0 <= j < i && rs[j] == Target(t)
    {
      var res := Resolve(insts[i]);
      ResolutionsAt(insts, i);
      match res {
        case Malformed(token) =>
          assert FirstMalformed(insts, i);
          return Failure(token);
        case NoTarget =>
        case Target(t) =>
          if 0 <= t <= maxAddress && t in addresses {
            targets := targets + {t};
          } else {
            assert t !in addresses;
          }
      }
      i := i + 1;
    }
    return Success(targets);
  }

  /** `{address: f"loc_{address:08x}" for address in sorted(targets)}` */
  function Labels(targets: set<int>): (labels: map<int, string>)
    requires forall t :: t in targets ==> t >= 0
    ensures forall t :: t in labels <==> t in targets
  {
    map t | t in targets :: LabelName(t)
  }

  /**
   * A rewritten operand names its label in place of the target, so the
   * rewritten instruction has no target left and rewriting it again changes
   * nothing.
   */
  lemma RewriteSettles(inst: Instruction, targets: set<int>)
    requires forall t :: t in targets ==> t >= 0
    ensures var labels := Labels(targets); var done := inst.(opStr := Rewrite(inst, labels));
      && (Rewrite(inst, labels) != inst.opStr ==> Resolve(done) == NoTarget)
      && Rewrite(done, labels) == done.opStr
  {
    var labels := Labels(targets);
    var done := inst.(opStr := Rewrite(inst, labels));
    if Rewrite(inst, labels) != inst.opStr {
      var a := RewrittenLast(inst, targets);
      LabelNameIsWord(a);
      NoTargetOtherToken(done);
    }
  }

  /** A rewritten operand ends with the label of the target. */
  lemma RewrittenLast(inst: Instruction, targets: set<int>) returns (a: nat)
    requires forall t :: t in targets ==> t >= 0
    requires Rewrite(inst, Labels(targets)) != inst.opStr
    ensures Resolve(inst) == Target(a) && a in targets
    ensures LastToken(Rewrite(inst, Labels(targets))) == LabelName(a)
    ensures Rewrite(inst, Labels(targets)) != ""
  {
    var labels := Labels(targets);
    forall t | t in labels
      ensures ',' !in labels[t] && Stripped(labels[t])
    {
      LabelNameIsWord(t);
    }
    RewriteEndsWithLabel(inst, labels);
    a := Resolve(inst).addr;
  }

  /** With word-like labels, a rewritten operand ends with its target's label. */
  lemma RewriteEndsWithLabel(inst: Instruction, labels: map<int, string>)
    requires forall t :: t in labels ==> ',' !in labels[t] && Stripped(labels[t])
    requires Rewrite(inst, labels) != inst.opStr
    ensures var res := Resolve(inst);
      && res.Target? && res.addr in labels && labels[res.addr] != ""
      && LastToken(Rewrite(inst, labels)) == labels[res.addr]
      && Rewrite(inst, labels) != ""
  {
    var res := Resolve(inst);
    RewriteTokens(inst, labels);
    LastOfTokens(Rewrite(inst, labels), Tokens(inst.opStr), labels[res.addr]);
  }

  /** A text whose tokens end with a non-empty word ends with that word, and is not empty. */
  lemma LastOfTokens(s: string, ts: seq<string>, word: string)
    requires |ts| >= 1 && Tokens(s) == ts[..|ts| - 1] + [word] && word != ""
    ensures LastToken(s) == word && s != ""
  {
    assert Split("", ',') == [""];
  }

  // ---------------------------------------------------------------------
  // The pretty view
  // ---------------------------------------------------------------------

  /** `f"{s:<width}"`: `s` padded with spaces on the right to at least `width`. */
  function LJust(s: string, width: nat): (r: string)
    ensures |r| == if |s| >= width then |s| else width
    ensures r[..|s|] == s && AllSpace(r[|s|..])
  {
    if |s| >= width then s else s + seq(width - |s|, _ => ' ')
  }

  /** `f"0x{address:08x}:\t{raw_bytes:<12}\t{mnemonic}\t{op_str}"` */
  function FormatLine(inst: Instruction, opStr: string): string {
    "0x" + FormatHex(inst.address, 8) + ":\t" + LJust(inst.rawBytes, 12) + "\t" + inst.mnemonic + "\t" + opStr
  }

  /** The match of a line whose runs end at the given offsets. */
  lemma MatchAt(s: string, a: nat, w1: nat, b: nat, w2: nat, m: nat, g: LineMatch)
    requires |s| >= 2 && s[..2] == "0x" && 2 < a && w1 == a + 2 && w1 < b < w2 < m < |s| && s[a] == ':'
    requires RunsEnd(s, a, w1, b, w2, m) && '\n' !in g.operand
    requires s[2..a] == g.addressDigits && s[w1..b] == g.rawBytes
    requires s[w2..m] == g.mnemonic && s[m + 1..] == g.operand
    ensures MatchLine(s) == Some(g)
  {
  }

  /** The runs of the instruction pattern, read from the start of `s`, end at the given offsets. */
  predicate RunsEnd(s: string, a: nat, w1: nat, b: nat, w2: nat, m: nat)
    requires 2 <= a < w1 <= b <= w2 <= m < |s|
  {
    && Span(s, 2, HexClass) == a && Span(s, a + 1, SpaceClass) == w1
    && Span(s, w1, HexClass) == b && Span(s, b, SpaceClass) == w2
    && Span(s, w2, NonSpaceClass) == m && Span(s, m, SpaceClass) == m + 1
  }

  /** A run of hexadecimal digits laid down at `i` and followed by a non-digit is one whole span. */
  lemma HexRun(s: string, i: nat, u: string)
    requires i + |u| < |s| && forall j {:trigger u[j]} :: 0 <= j < |u| ==> s[i + j] == u[j]
    requires AllHex(u) && !IsHexDigit(s[i + |u|])
    ensures Span(s, i, HexClass) == i + |u|
  {
    forall m | i <= m < i + |u|
      ensures InClass(s[m], HexClass)
    {
      assert s[i + (m - i)] == u[m - i];
    }
    SpanStops(s, i, i + |u|, HexClass);
  }

  /** Padding and a tab, followed by a non-space, make one whole whitespace span. */
  lemma PaddingRun(s: string, i: nat, pad: string)
    requires i + |pad| + 1 < |s| && forall j {:trigger pad[j]} :: 0 <= j < |pad| ==> s[i + j] == pad[j]
    requires AllSpace(pad) && s[i + |pad|] == '\t' && !IsSpace(s[i + |pad| + 1])
    ensures Span(s, i, SpaceClass) == i + |pad| + 1
  {
    var e := i + |pad| + 1;
    forall m | i <= m < e
      ensures InClass(s[m], SpaceClass)
    {
      if m < e - 1 {
        assert s[i + (m - i)] == pad[m - i];
      }
    }
    SpanStops(s, i, e, SpaceClass);
  }

  /** A word laid down at `i` and followed by a tab is one whole non-space span. */
  lemma WordRun(s: string, i: nat, u: string)
    requires i + |u| < |s| && forall j {:trigger u[j]} :: 0 <= j < |u| ==> s[i + j] == u[j]
    requires NoSpace(u) && s[i + |u|] == '\t'
    ensures Span(s, i, NonSpaceClass) == i + |u|
  {
    forall m | i <= m < i + |u|
      ensures InClass(s[m], NonSpaceClass)
    {
      assert s[i + (m - i)] == u[m - i];
    }
    SpanStops(s, i, i + |u|, NonSpaceClass);
  }

  /** A text laid down at `i` is the slice of `s` there. */
  lemma SliceAt(s: string, i: nat, u: string)
    requires i + |u| <= |s| && forall j {:trigger u[j]} :: 0 <= j < |u| ==> s[i + j] == u[j]
    ensures s[i..i + |u|] == u
  {
    forall j | 0 <= j < |u|
      ensures s[i..i + |u|][j] == u[j]
    {
      assert s[i..i + |u|][j] == s[i + j];
    }
  }

  /**
   * `s` holds `0x`, the address digits, `:` and a tab, the raw bytes and
   * their padding, a tab, the mnemonic, a tab and the operand text.
   */
  predicate LaidOut(s: string, d: string, bytes: string, pad: string, mnemonic: string, op: string) {
    var a := 2 + |d|;
    var w1 := a + 2;
    var b := w1 + |bytes|;
    var w2 := b + |pad| + 1;
    var m := w2 + |mnemonic|;
    && |s| == m + 1 + |op|
    && s[0] == '0' && s[1] == 'x'
    && (forall j {:trigger d[j]} :: 0 <= j < |d| ==> s[2 + j] == d[j])
    && s[a] == ':' && s[a + 1] == '\t'
    && (forall j {:trigger bytes[j]} :: 0 <= j < |bytes| ==> s[w1 + j] == bytes[j])
    && (forall j {:trigger pad[j]} :: 0 <= j < |pad| ==> s[b + j] == pad[j])
    && s[b + |pad|] == '\t'
    && (forall j {:trigger mnemonic[j]} :: 0 <= j < |mnemonic| ==> s[w2 + j] == mnemonic[j])
    && s[m] == '\t'
    && (forall j {:trigger op[j]} :: 0 <= j < |op| ==> s[m + 1 + j] == op[j])
  }

  /** Where each field of a written instruction line lies. */
  lemma WrittenLayout(d: string, bytes: string, pad: string, mnemonic: string, op: string)
    ensures LaidOut("0x" + d + ":\t" + (bytes + pad) + "\t" + mnemonic + "\t" + op, d, bytes, pad, mnemonic, op)
  {
  }

  /** The groups of a written instruction line are the fields that were written. */
  lemma MatchWritten(d: string, bytes: string, pad: string, mnemonic: string, op: string)
    requires |d| >= 1 && AllHex(d)
    requires |bytes| >= 1 && AllHex(bytes) && AllSpace(pad)
    requires |mnemonic| >= 1 && NoSpace(mnemonic)
    requires '\n' !in op && Stripped(op)
    ensures MatchLine("0x" + d + ":\t" + (bytes + pad) + "\t" + mnemonic + "\t" + op)
         == Some(LineMatch(d, bytes, mnemonic, op))
  {
    WrittenLayout(d, bytes, pad, mnemonic, op);
    MatchLaidOut("0x" + d + ":\t" + (bytes + pad) + "\t" + mnemonic + "\t" + op, d, bytes, pad, mnemonic, op);
  }

  /** The match of any line with the layout of a written instruction line. */
  lemma MatchLaidOut(s: string, d: string, bytes: string, pad: string, mnemonic: string, op: string)
    requires |d| >= 1 && AllHex(d)
    requires |bytes| >= 1 && AllHex(bytes) && AllSpace(pad)
    requires |mnemonic| >= 1 && NoSpace(mnemonic)
    requires '\n' !in op && Stripped(op)
    requires LaidOut(s, d, bytes, pad, mnemonic, op)
    ensures MatchLine(s) == Some(LineMatch(d, bytes, mnemonic, op))
  {
    LaidOutSpans(s, d, bytes, pad, mnemonic, op);
    LaidOutGroups(s, d, bytes, pad, mnemonic, op);
    var a := 2 + |d|;
    var w2 := a + 2 + |bytes| + |pad| + 1;
    MatchAt(s, a, a + 2, a + 2 + |bytes|, w2, w2 + |mnemonic|, LineMatch(d, bytes, mnemonic, op));
  }

  /** Where the runs of any line with that layout end. */
  lemma LaidOutSpans(s: string, d: string, bytes: string, pad: string, mnemonic: string, op: string)
    requires |d| >= 1 && AllHex(d)
    requires |bytes| >= 1 && AllHex(bytes) && AllSpace(pad)
    requires |mnemonic| >= 1 && NoSpace(mnemonic)
    requires Stripped(op)
    requires LaidOut(s, d, bytes, pad, mnemonic, op)
    ensures var w1 := 2 + |d| + 2;
      var w2 := w1 + |bytes| + |pad| + 1;
      RunsEnd(s, 2 + |d|, w1, w1 + |bytes|, w2, w2 + |mnemonic|)
  {
    var w1 := 2 + |d| + 2;
    var w2 := w1 + |bytes| + |pad| + 1;
    assert s[w1 + 0] == bytes[0];
    AddressRuns(s, d);
    assert s[w2 + 0] == mnemonic[0];
    BytesRuns(s, w1, bytes, pad);
    OperandRuns(s, w2, mnemonic, op);
  }

  /** The address digits end at the colon, and one tab follows it. */
  lemma AddressRuns(s: string, d: string)
    requires |d| >= 1 && AllHex(d) && 2 + |d| + 2 < |s|
    requires forall j {:trigger d[j]} :: 0 <= j < |d| ==> s[2 + j] == d[j]
    requires s[2 + |d|] == ':' && s[2 + |d| + 1] == '\t' && IsHexDigit(s[2 + |d| + 2])
    ensures Span(s, 2, HexClass) == 2 + |d| && Span(s, 2 + |d| + 1, SpaceClass) == 2 + |d| + 2
  {
    var a := 2 + |d|;
    HexRun(s, 2, d);
    assert InClass(s[a + 1], SpaceClass) && !InClass(s[a + 2], SpaceClass);
    SpanStops(s, a + 1, a + 2, SpaceClass);
  }

  /** The raw bytes end at their padding, which runs through the tab. */
  lemma BytesRuns(s: string, w1: nat, bytes: string, pad: string)
    requires |bytes| >= 1 && AllHex(bytes) && AllSpace(pad)
    requires w1 + |bytes| + |pad| + 1 < |s|
    requires forall j {:trigger bytes[j]} :: 0 <= j < |bytes| ==> s[w1 + j] == bytes[j]
    requires forall j {:trigger pad[j]} :: 0 <= j < |pad| ==> s[w1 + |bytes| + j] == pad[j]
    requires s[w1 + |bytes| + |pad|] == '\t' && !IsSpace(s[w1 + |bytes| + |pad| + 1])
    ensures Span(s, w1, HexClass) == w1 + |bytes|
    ensures Span(s, w1 + |bytes|, SpaceClass) == w1 + |bytes| + |pad| + 1
  {
    var b := w1 + |bytes|;
    if pad != [] {
      assert s[b + 0] == pad[0] && IsSpace(pad[0]);
    }
    assert IsSpace(s[b]);
    HexRun(s, w1, bytes);
    PaddingRun(s, b, pad);
  }

  /** The mnemonic ends at the tab, and the operand text starts right after it. */
  lemma OperandRuns(s: string, w2: nat, mnemonic: string, op: string)
    requires |mnemonic| >= 1 && NoSpace(mnemonic) && Stripped(op)
    requires |s| == w2 + |mnemonic| + 1 + |op|
    requires forall j {:trigger mnemonic[j]} :: 0 <= j < |mnemonic| ==> s[w2 + j] == mnemonic[j]
    requires s[w2 + |mnemonic|] == '\t'
    requires forall j {:trigger op[j]} :: 0 <= j < |op| ==> s[w2 + |mnemonic| + 1 + j] == op[j]
    ensures Span(s, w2, NonSpaceClass) == w2 + |mnemonic|
    ensures Span(s, w2 + |mnemonic|, SpaceClass) == w2 + |mnemonic| + 1
  {
    var m := w2 + |mnemonic|;
    WordRun(s, w2, mnemonic);
    if op != [] {
      assert s[m + 1 + 0] == op[0] && !IsSpace(op[0]);
      assert !InClass(s[m + 1], SpaceClass);
    }
    assert InClass(s[m], SpaceClass);
    SpanStops(s, m, m + 1, SpaceClass);
  }

  /** What the groups of any line with that layout hold. */
  lemma LaidOutGroups(s: string, d: string, bytes: string, pad: string, mnemonic: string, op: string)
    requires LaidOut(s, d, bytes, pad, mnemonic, op)
    ensures var a := 2 + |d|;
      var w1 := a + 2;
      var b := w1 + |bytes|;
      var w2 := b + |pad| + 1;
      var m := w2 + |mnemonic|;
      && s[..2] == "0x" && s[2..a] == d && s[w1..b] == bytes && s[w2..m] == mnemonic && s[m + 1..] == op
  {
    var a := 2 + |d|;
    var w1 := a + 2;
    var b := w1 + |bytes|;
    var w2 := b + |pad| + 1;
    var m := w2 + |mnemonic|;
    SliceAt(s, 0, "0x");
    SliceAt(s, 2, d);
    SliceAt(s, w1, bytes);
    SliceAt(s, w2, mnemonic);
    SliceAt(s, m + 1, op);
  }

  /**
   * Every line the pretty view writes for an instruction is itself an
   * instruction line: reading it back gives the address, the raw bytes, the
   * mnemonic and the operand text that were written.
   */
  lemma FormatLineParses(inst: Instruction, op: string)
    requires |inst.rawBytes| >= 1 && AllHex(inst.rawBytes)
    requires |inst.mnemonic| >= 1 && NoSpace(inst.mnemonic)
    requires '\n' !in op && Stripped(op)
    ensures ParseLine(FormatLine(inst, op)) == Some(inst.(opStr := op, original := FormatLine(inst, op)))
  {
    var d := FormatHex(inst.address, 8);
    var raw := LJust(inst.rawBytes, 12);
    var pad := raw[|inst.rawBytes|..];
    assert raw == inst.rawBytes + pad;
    var s := FormatLine(inst, op);
    assert s == "0x" + d + ":\t" + (inst.rawBytes + pad) + "\t" + inst.mnemonic + "\t" + op;
    MatchWritten(d, inst.rawBytes, pad, inst.mnemonic, op);
    var head := "0x" + d + ":\t" + (inst.rawBytes + pad) + "\t" + inst.mnemonic + "\t";
    assert s == head + op;
    assert s[|s| - |op|..] == op && s[|s| - |op| - 1] == head[|head| - 1] == '\t';
    NoTrailingNewline(s, op);
    StripStripped(op);
    FormatHexRoundTrip(inst.address, 8);
  }

  /** A line that ends with a tab and a text free of newlines keeps all of its text. */
  lemma NoTrailingNewline(s: string, op: string)
    requires |s| > |op| && s[|s| - |op| - 1] == '\t' && s[|s| - |op|..] == op
    requires '\n' !in op
    ensures RStripNewlines(s) == s
  {
    if op == [] {
      assert s[|s| - 1] == '\t';
    } else {
      assert s[|s| - 1] == op[|op| - 1];
    }
  }

  /** The label line block before an instruction whose address carries a label. */
  function LabelBlock(inst: Instruction, labels: map<int, string>): seq<string> {
    if inst.address in labels && labels[inst.address] != "" then ["", labels[inst.address] + ":"] else []
  }

  /** The lines written for the instructions, each after its label block. */
  function InstructionLines(insts: seq<Instruction>, labels: map<int, string>): seq<string>
  {
    if insts == [] then []
    else
      InstructionLines(insts[..|insts| - 1], labels) + InstructionBlock(insts[|insts| - 1], labels)
  }

  /** What the pretty view writes for one instruction. */
  function InstructionBlock(inst: Instruction, labels: map<int, string>): seq<string> {
    LabelBlock(inst, labels) + [FormatLine(inst, Rewrite(inst, labels))]
  }

  lemma InstructionLinesSnoc(insts: seq<Instruction>, labels: map<int, string>, i: nat)
    requires i < |insts|
    ensures InstructionLines(insts[..i + 1], labels)
         == InstructionLines(insts[..i], labels) + InstructionBlock(insts[i], labels)
  {
    assert insts[..i + 1][..i] == insts[..i];
  }

  /** The banner between the header and the instructions. */
  function Banner(labelCount: nat): seq<string> {
    ["", "; ===== Pretty View =====", "; labels=" + Decimal(labelCount), ""]
  }

  /** Writing `lines` one after the other after what `out` already holds. */
  method WriteLines(out: seq<string>, lines: seq<string>) returns (r: seq<string>)
    ensures r == out + lines
  {
    r := out;
    for i := 0 to |lines|
      invariant r == out + lines[..i]
    {
      r := r + [lines[i]];
      assert lines[..i + 1] == lines[..i] + [lines[i]];
    }
    assert lines[..|lines|] == lines;
  }

  /** Appending the next instruction's block extends the lines written so far by one instruction. */
  lemma AppendBlock(out: seq<string>, insts: seq<Instruction>, labels: map<int, string>, i: nat,
                    r: seq<string>, next: seq<string>)
    requires i < |insts|
    requires r == out + InstructionLines(insts[..i], labels)
    requires next == r + InstructionBlock(insts[i], labels)
    ensures next == out + InstructionLines(insts[..i + 1], labels)
  {
    InstructionLinesSnoc(insts, labels, i);
  }

  /** The instruction loop of the pretty view: label lines, then the rewritten line. */
  method WriteInstructions(out: seq<string>, insts: seq<Instruction>, labels: map<int, string>) returns (r: seq<string>)
    ensures r == out + InstructionLines(insts, labels)
  {
    r := out;
    for i := 0 to |insts|
      invariant r == out + InstructionLines(insts[..i], labels)
    {
      var next := WriteInstruction(r, insts[i], labels);
      AppendBlock(out, insts, labels, i, r, next);
      r := next;
    }
    assert insts[..|insts|] == insts;
  }

  /** One instruction of the pretty view: its label lines when labelled, then the rewritten line. */
  method WriteInstruction(out: seq<string>, inst: Instruction, labels: map<int, string>) returns (r: seq<string>)
    ensures r == out + InstructionBlock(inst, labels)
  {
    r := out;
    if inst.address in labels && labels[inst.address] != "" {
      r := r + ["", labels[inst.address] + ":"];
    }
    var opStr := Rewrite(inst, labels);
    r := r + [FormatLine(inst, opStr)];
  }

  /**
   * The output file of the prettifier, one entry per written line (each is
   * written followed by `\n`): the header, the banner, the instructions with
   * their label lines and rewritten operands, and the trailer.
   */
  method EmitPrettyView(header: seq<string>, insts: seq<Instruction>, trailer: seq<string>, labels: map<int, string>)
    returns (out: seq<string>)
    ensures out == header + Banner(|labels|) + InstructionLines(insts, labels) + trailer
  {
    var banner := Banner(|labels|);
    var withHeader := WriteLines([], header);
    var withBanner := WriteLines(withHeader, banner);
    assert withBanner == header + banner;
    var withBody := WriteInstructions(withBanner, insts, labels);
    out := WriteLines(withBody, trailer);
  }

  /** The addresses that get a label: those of instructions that some instruction targets. */
  ghost function LabelTargets(insts: seq<Instruction>): (targets: set<int>)
    ensures forall t :: t in targets ==> t >= 0
  {
    set t | t in Addresses(insts) && IsLabelTarget(insts, t)
  }

  /**
   * The prettifier from the listing's lines to the lines of the pretty view:
   * the split, the label targets, the labels and the output. It fails, with
   * the offending token, exactly when some instruction's relative literal
   * cannot be read; otherwise the output is the header, the banner, the
   * labelled and rewritten instructions and the trailer.
   */
  method Prettify(lines: seq<string>) returns (r: Result<seq<string>, string>)
    ensures var insts := Parsed(Classify(lines)); var rs := Resolutions(insts);
      r.Failure? <==> exists i :: 0 <= i < |rs| && rs[i].Malformed?
    ensures var cls := Classify(lines); var k := FirstMatch(cls); var insts := Parsed(cls);
      var labels := Labels(LabelTargets(insts));
      r.Success? ==>
        r.value == StripAll(lines[..k]) + Banner(|labels|) + InstructionLines(insts, labels) + Unparsed(lines[k..], cls[k..])
  {
    var header, insts, trailer := ParseAsmLines(lines);
    var targets := CollectTargets(insts);
    if targets.Failure? {
      return Failure(targets.error);
    }
    SameTargets(insts, targets.value);
    var out := EmitPrettyView(header, insts, trailer, Labels(targets.value));
    r := Success(out);
  }

  /** The targets the collection loop finds are the label targets. */
  lemma SameTargets(insts: seq<Instruction>, targets: set<int>)
    requires forall t :: t in targets <==> IsLabelTarget(insts, t)
    ensures targets == LabelTargets(insts)
  {
    forall t | t in targets
      ensures t in Addresses(insts)
    {
      assert IsLabelTarget(insts, t);
    }
  }
}
