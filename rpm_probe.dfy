/**
 * The RPM/status probe script (rpm_rgb_probe.py): the light commands it
 * sends, the 0xEF status reports it reads back, the per-setpoint summary,
 * the byte positions that change between setpoints, and the parsing of
 * its comma-separated RPM list.
 */
module RpmProbe {
  import opened Wrappers
  import opened Text
  import opened HexFormat
  import opened FanTypes
  import LightRgb

  // ---------------------------------------------------------------------
  // Light commands
  // ---------------------------------------------------------------------

  /** Python's `sum`, adding from the front. */
  function PySum(s: seq<Byte>): nat
  {
    if s == [] then 0 else s[0] + PySum(s[1..])
  }

  lemma {:induction false} PySumAppend(a: seq<Byte>, b: seq<Byte>)
    ensures PySum(a + b) == PySum(a) + PySum(b)
  {
    if a == [] {
      assert a + b == b;
    } else {
      assert (a + b)[0] == a[0];
      assert (a + b)[1..] == a[1..] + b;
      PySumAppend(a[1..], b);
    }
  }

  /** Adding from the front, as the script does, and from the back, as the device code does, agree. */
  lemma {:induction false} PySumIsSum(s: seq<Byte>)
    ensures PySum(s) == LightRgb.Sum(s)
  {
    if s != [] {
      var init := s[..|s| - 1];
      assert s == init + [s[|s| - 1]];
      PySumAppend(init, [s[|s| - 1]]);
      PySumIsSum(init);
    }
  }

  /**
   * `light_checksum`: the sum of everything after the two header bytes,
   * masked to its low byte (on a non-negative sum `& 0xFF` is the remainder
   * mod 256); a payload of at most two bytes sums to nothing.  It is the
   * rule of the device code's `lightChecksum`.
   */
  function ProbeChecksum(payload: seq<Byte>): (c: Byte)
    ensures |payload| >= 2 ==> c == LightRgb.Sum(payload[2..]) % 256
    ensures |payload| <= 2 ==> c == 0
  {
    PySumIsSum(if |payload| <= 2 then [] else payload[2..]);
    if |payload| <= 2 then 0 else PySum(payload[2..]) % 256
  }

  /** The payload `send_light_command` builds: header, fields, checksum. */
  function ProbeCommand(fields: seq<Byte>): seq<Byte>
  {
    var payload := [0x5A, 0xA5] + fields;
    payload + [ProbeChecksum(payload)]
  }

  /** The script and the device code send the same bytes for the same fields. */
  lemma ProbeCommandMatchesDevice(fields: seq<Byte>)
    ensures ProbeCommand(fields) == LightRgb.LightCommand(fields)
    ensures LightRgb.ChecksumValid(ProbeCommand(fields))
  {
    var payload: seq<Byte> := [0x5A, 0xA5] + fields;
    assert payload[2..] == fields;
    LightRgb.LightCommandValid(fields);
  }

  /** The hex text handed to `send_hex_command`: two lower-case digits per byte. */
  function HexCommand(fields: seq<Byte>): string
  {
    HexEncode(ProbeCommand(fields))
  }

  /** The hex text is lower case, two digits a byte, and reads back as the command. */
  lemma HexCommandRoundTrip(fields: seq<Byte>)
    ensures |HexCommand(fields)| == 2 * (|fields| + 3)
    ensures LowerHex(HexCommand(fields))
    ensures HexDecode(HexCommand(fields)) == ProbeCommand(fields)
  {
    HexDecodeEncode(ProbeCommand(fields));
  }

  // ---------------------------------------------------------------------
  // Status reports
  // ---------------------------------------------------------------------

  /** What `parse_ef_report` reads from a report: its type, three status bytes and two speeds. */
  datatype EfStatus = EfStatus(reportType: Byte, status: Byte, gearMode: Byte, workMode: Byte, realtimeRpm: int, targetRpm: int)

  /**
   * `lo | (hi << 8)`: a little-endian 16-bit value.  The shifted byte and
   * the low byte share no bit, so the `|` is an addition.
   */
  function LittleEndian16(lo: Byte, hi: Byte): (v: int)
    ensures 0 <= v <= 65535
    ensures v % 256 == lo && v / 256 == hi
  {
    lo + 256 * hi
  }

  /** A report the script accepts: at least 12 bytes, header `01 5A A5`, type 0xEF. */
  predicate IsEfReport(report: seq<Byte>)
  {
    |report| >= 12 && report[0] == 0x01 && report[1] == 0x5A && report[2] == 0xA5 && report[3] == 0xEF
  }

  /** `parse_ef_report` */
  function ParseEfReport(report: seq<Byte>): (r: Option<EfStatus>)
    ensures r.Some? <==> IsEfReport(report)
    ensures r.Some? ==>
      && r.value.reportType == 0xEF
      && r.value.status == report[4] && r.value.gearMode == report[5] && r.value.workMode == report[6]
      && r.value.realtimeRpm == report[8] as int + 256 * report[9] as int
      && r.value.targetRpm == report[10] as int + 256 * report[11] as int
      && 0 <= r.value.realtimeRpm <= 65535 && 0 <= r.value.targetRpm <= 65535
  {
    if |report| < 12 then None
    else if !(report[0] == 0x01 && report[1] == 0x5A && report[2] == 0xA5) then None
    else if report[3] != 0xEF then None
    else
      Some(EfStatus(report[3], report[4], report[5], report[6],
                    LittleEndian16(report[8], report[9]), LittleEndian16(report[10], report[11])))
  }

  /** A status the device can report: type 0xEF and both speeds in 16 bits. */
  predicate Reportable(s: EfStatus)
  {
    s.reportType == 0xEF && 0 <= s.realtimeRpm <= 65535 && 0 <= s.targetRpm <= 65535
  }

  /** The 12-byte report carrying a status; byte 7 is not read and is given as `spare`. */
  function EncodeEfReport(s: EfStatus, spare: Byte): (report: seq<Byte>)
    requires Reportable(s)
    ensures |report| == 12
  {
    [0x01, 0x5A, 0xA5, 0xEF, s.status, s.gearMode, s.workMode, spare,
     s.realtimeRpm % 256, s.realtimeRpm / 256, s.targetRpm % 256, s.targetRpm / 256]
  }

  /**
   * Parsing inverts encoding, whatever follows the first 12 bytes; and every
   * report that parses is the encoding of what it parses to.
   */
  lemma EfReportRoundTrip(s: EfStatus, spare: Byte, tail: seq<Byte>)
    requires Reportable(s)
    ensures ParseEfReport(EncodeEfReport(s, spare) + tail) == Some(s)
  {
  }

  lemma EfReportDecoded(report: seq<Byte>)
    requires ParseEfReport(report).Some?
    ensures Reportable(ParseEfReport(report).value)
    ensures report[..12] == EncodeEfReport(ParseEfReport(report).value, report[7])
  {
  }

  // ---------------------------------------------------------------------
  // Summary of one setpoint
  // ---------------------------------------------------------------------

  /** `ef_reports`: the reports that parse, in the order read. */
  function EfReports(reports: seq<seq<Byte>>): (ef: seq<seq<Byte>>)
    ensures |ef| <= |reports|
    ensures forall k :: 0 <= k < |ef| ==> IsEfReport(ef[k])
  {
    if reports == [] then []
    else
      var last := reports[|reports| - 1];
      EfReports(reports[..|reports| - 1]) + (if IsEfReport(last) then [last] else [])
  }

  lemma {:induction false} EfReportsAppend(a: seq<seq<Byte>>, b: seq<seq<Byte>>)
    ensures EfReports(a + b) == EfReports(a) + EfReports(b)
    decreases |b|
  {
    if b == [] {
      assert a + b == a;
    } else {
      var init := b[..|b| - 1];
      assert (a + b)[..|a + b| - 1] == a + init;
      EfReportsAppend(a, init);
    }
  }

  /** No report is accepted exactly when none of them is an 0xEF report. */
  lemma {:induction false} EfReportsEmpty(reports: seq<seq<Byte>>)
    ensures EfReports(reports) == [] <==> forall k :: 0 <= k < |reports| ==> !IsEfReport(reports[k])
  {
    if reports != [] {
      var init := reports[..|reports| - 1];
      var last := reports[|reports| - 1];
      EfReportsEmpty(init);
      assert forall k :: 0 <= k < |init| ==> init[k] == reports[k];
      assert EfReports(reports) == [] <==> EfReports(init) == [] && !IsEfReport(last);
      assert (forall k :: 0 <= k < |reports| ==> !IsEfReport(reports[k]))
         <==> (forall k :: 0 <= k < |init| ==> !IsEfReport(init[k])) && !IsEfReport(last);
    }
  }

  /** The integer part of a row; the averages and medians are floats and are not modelled. */
  datatype ProbeSummary = ProbeSummary(setRpm: int, samples: nat, gearMode: Option<Byte>, workMode: Option<Byte>, rawHex: string)

  /**
   * `summarize_probe_result`: the number of 0xEF reports, and the modes and
   * raw bytes of the last one; the row of `None`s and an empty hex string
   * when there is none.
   */
  function SummarizeProbeResult(setRpm: int, reports: seq<seq<Byte>>): (row: ProbeSummary)
    ensures row.setRpm == setRpm && row.samples <= |reports|
    ensures row.samples == 0 <==> forall k :: 0 <= k < |reports| ==> !IsEfReport(reports[k])
    ensures row.samples == 0 ==> row == ProbeSummary(setRpm, 0, None, None, "")
    ensures row.samples > 0 ==> row.gearMode.Some? && row.workMode.Some? && |row.rawHex| >= 24
    ensures |row.rawHex| % 2 == 0 && LowerHex(row.rawHex)
  {
    var ef := EfReports(reports);
    EfReportsEmpty(reports);
    if ef == [] then ProbeSummary(setRpm, 0, None, None, "")
    else
      var rep := ef[|ef| - 1];
      var last := ParseEfReport(rep).value;
      ProbeSummary(setRpm, |ef|, Some(last.gearMode), Some(last.workMode), HexEncode(rep))
  }

  /**
   * Reading one more report adds a sample exactly when it is an 0xEF
   * report, and then that report decides the modes and the raw bytes.
   */
  lemma SummaryStep(setRpm: int, reports: seq<seq<Byte>>, report: seq<Byte>)
    ensures var before := SummarizeProbeResult(setRpm, reports);
      var after := SummarizeProbeResult(setRpm, reports + [report]);
      && after.samples == before.samples + (if IsEfReport(report) then 1 else 0)
      && (IsEfReport(report) ==> after.gearMode == Some(report[5]) && after.workMode == Some(report[6])
                                 && after.rawHex == HexEncode(report))
      && (!IsEfReport(report) ==> after == before)
  {
    EfReportsAppend(reports, [report]);
    assert EfReports([report]) == EfReports([]) + (if IsEfReport(report) then [report] else []);
  }

  // ---------------------------------------------------------------------
  // Changed byte positions
  // ---------------------------------------------------------------------

  /** Rows whose raw hex `bytes.fromhex` reads as written: an even run of digits. */
  predicate HexRows(rows: seq<ProbeSummary>)
  {
    forall k :: 0 <= k < |rows| ==> |rows[k].rawHex| % 2 == 0 && AllHex(rows[k].rawHex)
  }

  /** Summaries always satisfy it. */
  lemma SummariesAreHexRows(setRpms: seq<int>, reports: seq<seq<seq<Byte>>>)
    requires |setRpms| == |reports|
    ensures HexRows(seq(|setRpms|, i requires 0 <= i < |setRpms| => SummarizeProbeResult(setRpms[i], reports[i])))
  {
  }

  /** `valid_hex`: the raw bytes of every row that has any, in row order. */
  function ValidPackets(rows: seq<ProbeSummary>): (packets: seq<seq<nat>>)
    requires HexRows(rows)
    ensures |packets| <= |rows|
  {
    if rows == [] then []
    else
      var last := rows[|rows| - 1];
      ValidPackets(rows[..|rows| - 1]) + (if |last.rawHex| > 0 then [HexDecode(last.rawHex)] else [])
  }

  /** `min(len(b) for b in valid_hex)` */
  function MinLen(packets: seq<seq<nat>>): (m: nat)
    requires |packets| > 0
    ensures forall k :: 0 <= k < |packets| ==> m <= |packets[k]|
    ensures exists k :: 0 <= k < |packets| && m == |packets[k]|
  {
    if |packets| == 1 then |packets[0]|
    else
      var rest := MinLen(packets[1..]);
      assert forall k :: 1 <= k < |packets| ==> packets[1..][k - 1] == packets[k];
      if |packets[0]| <= rest then |packets[0]| else rest
  }

  /** `{b[idx] for b in valid_hex}` */
  function ValuesAt(packets: seq<seq<nat>>, idx: nat): set<nat>
    requires forall k :: 0 <= k < |packets| ==> idx < |packets[k]|
  {
    set k | 0 <= k < |packets| :: packets[k][idx]
  }

  /** Two packets disagree at `idx`. */
  predicate Differs(packets: seq<seq<nat>>, idx: nat)
    requires forall k :: 0 <= k < |packets| ==> idx < |packets[k]|
  {
    exists j, k :: 0 <= j < |packets| && 0 <= k < |packets| && packets[j][idx] != packets[k][idx]
  }

  /** The set of values at a position has more than one element exactly when two packets disagree there. */
  lemma ManyValuesIffDiffers(packets: seq<seq<nat>>, idx: nat)
    requires forall k :: 0 <= k < |packets| ==> idx < |packets[k]|
    ensures |ValuesAt(packets, idx)| > 1 <==> Differs(packets, idx)
  {
    var vals := ValuesAt(packets, idx);
    if Differs(packets, idx) {
      var j, k :| 0 <= j < |packets| && 0 <= k < |packets| && packets[j][idx] != packets[k][idx];
      var rest := vals - {packets[j][idx]};
      assert packets[k][idx] in rest;
      assert |rest| == |vals| - 1;
    } else if |packets| > 0 {
      var v := packets[0][idx];
      assert vals == {v} by {
        forall x | x in vals ensures x == v {
          var k :| 0 <= k < |packets| && x == packets[k][idx];
          assert packets[k][idx] == packets[0][idx];
        }
      }
    } else {
      assert vals == {};
    }
  }

  /**
   * The changed-index loop of `write_outputs`: every position below the
   * shortest packet where the rows' packets do not all agree, ascending;
   * none when no row has raw bytes.
   */
  method ChangedIndices(rows: seq<ProbeSummary>) returns (changed: seq<nat>)
    requires HexRows(rows)
    ensures ValidPackets(rows) == [] ==> changed == []
    ensures forall j, k :: 0 <= j < k < |changed| ==> changed[j] < changed[k]
    ensures ValidPackets(rows) != [] ==>
      var packets := ValidPackets(rows);
      && (forall j :: 0 <= j < |changed| ==> changed[j] < MinLen(packets))
      && (forall idx :: 0 <= idx < MinLen(packets) ==> (idx in changed <==> Differs(packets, idx)))
  {
    var validHex := ValidPackets(rows);
    changed := [];
    if validHex != [] {
      var minLen := MinLen(validHex);
      for idx := 0 to minLen
        invariant forall j :: 0 <= j < |changed| ==> changed[j] < idx
        invariant forall j, k :: 0 <= j < k < |changed| ==> changed[j] < changed[k]
        invariant forall i :: 0 <= i < idx ==> (i in changed <==> Differs(validHex, i))
      {
        var vals := ValuesAt(validHex, idx);
        ManyValuesIffDiffers(validHex, idx);
        if |vals| > 1 {
          changed := changed + [idx];
        }
      }
    }
  }

  // ---------------------------------------------------------------------
  // RPM list
  // ---------------------------------------------------------------------

  /** What `int()` accepts after stripping: an optional sign and at least one ASCII digit. */
  predicate IntLiteral(s: string)
  {
    if |s| >= 1 && (s[0] == '-' || s[0] == '+') then |s| >= 2 && AllDigits(s[1..])
    else |s| >= 1 && AllDigits(s)
  }

  function IntValue(s: string): int
    requires IntLiteral(s)
  {
    if s[0] == '-' then -(DecimalValue(s[1..]) as int)
    else if s[0] == '+' then DecimalValue(s[1..])
    else DecimalValue(s)
  }

  /** Every part stripped. */
  function StripEach(parts: seq<string>): (stripped: seq<string>)
    ensures |stripped| == |parts|
  {
    seq(|parts|, i requires 0 <= i < |parts| => Strip(parts[i]))
  }

  /** The non-empty strings, in order. */
  function NonEmpty(parts: seq<string>): (kept: seq<string>)
    ensures |kept| <= |parts|
  {
    if parts == [] then []
    else
      var p := parts[|parts| - 1];
      NonEmpty(parts[..|parts| - 1]) + (if |p| == 0 then [] else [p])
  }

  lemma {:induction false} NonEmptyAppend(a: seq<string>, b: seq<string>)
    ensures NonEmpty(a + b) == NonEmpty(a) + NonEmpty(b)
    decreases |b|
  {
    if b == [] {
      assert a + b == a;
    } else {
      var init := b[..|b| - 1];
      assert (a + b)[..|a + b| - 1] == a + init;
      NonEmptyAppend(a, init);
    }
  }

  /** The parts of a comma split, stripped, the empty ones dropped, in order. */
  function PointTokens(parts: seq<string>): seq<string>
  {
    NonEmpty(StripEach(parts))
  }

  /**
   * `int()` applied to each token in turn: the values in order, or the
   * first token it raises on.
   */
  function ParseTokens(tokens: seq<string>): Result<seq<int>, string>
  {
    if tokens == [] then Success([])
    else if !IntLiteral(tokens[0]) then Failure(tokens[0])
    else
      match ParseTokens(tokens[1..])
      case Success(rest) => Success([IntValue(tokens[0])] + rest)
      case Failure(bad) => Failure(bad)
  }

  /**
   * The tokens convert exactly when every one is an integer literal, and
   * then to their values in order; otherwise the error is the first token
   * that is not.
   */
  lemma {:induction false} ParseTokensMeaning(tokens: seq<string>)
    ensures ParseTokens(tokens).Success? <==> forall i :: 0 <= i < |tokens| ==> IntLiteral(tokens[i])
    ensures ParseTokens(tokens).Success? ==>
      && |ParseTokens(tokens).value| == |tokens|
      && forall i :: 0 <= i < |tokens| ==> ParseTokens(tokens).value[i] == IntValue(tokens[i])
    ensures ParseTokens(tokens).Failure? ==>
      exists k :: 0 <= k < |tokens| && ParseTokens(tokens).error == tokens[k]
        && !IntLiteral(tokens[k]) && (forall j :: 0 <= j < k ==> IntLiteral(tokens[j]))
  {
    if tokens != [] {
      var rest := tokens[1..];
      ParseTokensMeaning(rest);
      assert forall i :: 1 <= i < |tokens| ==> tokens[i] == rest[i - 1];
      if IntLiteral(tokens[0]) && ParseTokens(rest).Failure? {
        var k :| 0 <= k < |rest| && ParseTokens(rest).error == rest[k]
          && !IntLiteral(rest[k]) && forall j :: 0 <= j < k ==> IntLiteral(rest[j]);
        assert tokens[k + 1] == rest[k];
        assert forall j :: 0 <= j < k + 1 ==> IntLiteral(tokens[j]) by {
          forall j | 0 <= j < k + 1 ensures IntLiteral(tokens[j]) {
            if j > 0 { assert tokens[j] == rest[j - 1]; }
          }
        }
      }
    }
  }

  /** Tokens that all convert can be put in front of any others. */
  lemma {:induction false} ParseTokensAppend(a: seq<string>, b: seq<string>)
    requires ParseTokens(a).Success?
    ensures ParseTokens(a + b) ==
      if ParseTokens(b).Success? then Success(ParseTokens(a).value + ParseTokens(b).value) else ParseTokens(b)
  {
    if a == [] {
      assert a + b == b;
      if ParseTokens(b).Success? {
        assert ParseTokens(a).value + ParseTokens(b).value == ParseTokens(b).value;
      }
    } else {
      var rest := a[1..];
      assert (a + b)[0] == a[0] && (a + b)[1..] == rest + b;
      ParseTokensAppend(rest, b);
      if ParseTokens(b).Success? {
        var x, u, v := IntValue(a[0]), ParseTokens(rest).value, ParseTokens(b).value;
        assert ParseTokens(a + b) == Success([x] + (u + v));
        assert [x] + (u + v) == ([x] + u) + v;
      }
    }
  }

  /** The first token decides a failure; a single token converts to its value. */
  lemma ParseFront(t: string, rest: seq<string>)
    ensures !IntLiteral(t) ==> ParseTokens([t] + rest) == Failure(t)
    ensures IntLiteral(t) && rest == [] ==> ParseTokens([t] + rest) == Success([IntValue(t)])
  {
    assert ([t] + rest)[0] == t;
    assert ([t] + rest)[1..] == rest;
    if IntLiteral(t) && rest == [] {
      assert [IntValue(t)] + [] == [IntValue(t)];
    }
  }

  /** What `parse_rpm_points` gives for a text. */
  function RpmPoints(text: string): Result<seq<int>, string>
  {
    ParseTokens(PointTokens(Split(text, ',')))
  }

  /** `parse_rpm_points`: split on commas, strip, skip the empty parts, convert the rest. */
  method ParseRpmPoints(text: string) returns (r: Result<seq<int>, string>)
    ensures r == RpmPoints(text)
  {
    var parts := Split(text, ',');
    ghost var stripped := StripEach(parts);
    var values: seq<int> := [];
    for i := 0 to |parts|
      invariant ParseTokens(NonEmpty(stripped[..i])) == Success(values)
    {
      var part := Strip(parts[i]);
      assert part == stripped[i];
      ParseStep(stripped, i, values);
      if |part| == 0 {
        continue;
      }
      if !IntLiteral(part) {
        return Failure(part);
      }
      values := values + [IntValue(part)];
    }
    assert stripped[..|parts|] == stripped;
    r := Success(values);
  }

  /**
   * One more stripped part: an empty one changes nothing, a literal adds its
   * value, anything else is the error of the whole list.
   */
  lemma ParseStep(stripped: seq<string>, i: nat, values: seq<int>)
    requires i < |stripped| && ParseTokens(NonEmpty(stripped[..i])) == Success(values)
    ensures |stripped[i]| == 0 ==> ParseTokens(NonEmpty(stripped[..i + 1])) == Success(values)
    ensures |stripped[i]| > 0 && IntLiteral(stripped[i]) ==>
      ParseTokens(NonEmpty(stripped[..i + 1])) == Success(values + [IntValue(stripped[i])])
    ensures |stripped[i]| > 0 && !IntLiteral(stripped[i]) ==> ParseTokens(NonEmpty(stripped)) == Failure(stripped[i])
  {
    var part := stripped[i];
    var before := NonEmpty(stripped[..i]);
    TokensStep(stripped, i);
    if |part| > 0 {
      ParseFront(part, []);
      ParseTokensAppend(before, [part]);
      if !IntLiteral(part) {
        var after := NonEmpty(stripped[i + 1..]);
        TokensRest(stripped, i);
        ParseFront(part, after);
        ParseTokensAppend(before, [part] + after);
      }
    } else {
      assert before + [] == before;
    }
  }

  /** One more part adds its stripped text to the tokens, unless that is empty. */
  lemma TokensStep(stripped: seq<string>, i: nat)
    requires i < |stripped|
    ensures NonEmpty(stripped[..i + 1]) == NonEmpty(stripped[..i]) + (if |stripped[i]| == 0 then [] else [stripped[i]])
  {
    assert stripped[..i + 1][..i] == stripped[..i];
  }

  /** The tokens split around a non-empty part. */
  lemma TokensRest(stripped: seq<string>, i: nat)
    requires i < |stripped| && |stripped[i]| > 0
    ensures NonEmpty(stripped) == NonEmpty(stripped[..i]) + ([stripped[i]] + NonEmpty(stripped[i + 1..]))
  {
    var pre, post := stripped[..i + 1], stripped[i + 1..];
    NonEmptyAppend(pre, post);
    assert NonEmpty(stripped) == NonEmpty(pre) + NonEmpty(post) by {
      assert pre + post == stripped;
    }
    TokensStep(stripped, i);
  }

  /** An empty or blank list parses to no points. */
  lemma BlankRpmPoints(text: string)
    requires AllSpace(text)
    ensures RpmPoints(text) == Success([])
  {
    forall i | 0 <= i < |text| ensures text[i] != ',' {
      assert IsSpace(text[i]);
    }
    SplitNoSep(text, ',');
    var s := Strip(text);
    StripAllSpace(text);
    assert StripEach([text]) == [s];
    var none: seq<string> := [];
    assert [s][..0] == none;
    assert NonEmpty([s]) == none;
  }

  /** `str(p)` for every point. */
  function DecimalStrings(points: seq<nat>): (parts: seq<string>)
    ensures |parts| == |points|
    ensures forall k :: 0 <= k < |parts| ==> |parts[k]| >= 1 && AllDigits(parts[k])
  {
    seq(|points|, i requires 0 <= i < |points| => Decimal(points[i]))
  }

  /** Writing non-negative points as `str(p)` joined by commas and parsing them back gives the points. */
  lemma RpmPointsRoundTrip(points: seq<nat>)
    requires |points| >= 1
    ensures RpmPoints(Join([','], DecimalStrings(points))) == Success(points)
  {
    var parts := DecimalStrings(points);
    NoCommaInDigits(parts);
    SplitJoin(parts, ',');
    DigitTokens(parts);
    DecimalTokensParse(points);
  }

  lemma NoCommaInDigits(parts: seq<string>)
    requires forall k :: 0 <= k < |parts| ==> AllDigits(parts[k])
    ensures forall k :: 0 <= k < |parts| ==> ',' !in parts[k]
  {
    forall k, i | 0 <= k < |parts| && 0 <= i < |parts[k]|
      ensures parts[k][i] != ','
    {
      assert IsAsciiDigit(parts[k][i]);
    }
  }

  /** Each `str(p)` converts back to p. */
  lemma DecimalTokensParse(points: seq<nat>)
    ensures ParseTokens(DecimalStrings(points)) == Success(points)
  {
    var parts := DecimalStrings(points);
    forall k | 0 <= k < |parts|
      ensures IntLiteral(parts[k]) && IntValue(parts[k]) == points[k]
    {
      DecimalRoundTrip(points[k]);
    }
    ParseTokensMeaning(parts);
    var r := ParseTokens(parts);
    assert r.value == points;
  }

  /** Non-empty digit strings survive stripping and the dropping of empty parts. */
  lemma DigitTokens(parts: seq<string>)
    requires forall k :: 0 <= k < |parts| ==> |parts[k]| >= 1 && AllDigits(parts[k])
    ensures PointTokens(parts) == parts
  {
    forall k | 0 <= k < |parts| ensures Strip(parts[k]) == parts[k] {
      StripStripped(parts[k]);
    }
    assert StripEach(parts) == parts;
    NonEmptyKeeps(parts);
  }

  lemma {:induction false} NonEmptyKeeps(parts: seq<string>)
    requires forall k :: 0 <= k < |parts| ==> |parts[k]| > 0
    ensures NonEmpty(parts) == parts
  {
    if parts != [] {
      NonEmptyKeeps(parts[..|parts| - 1]);
    }
  }
}
