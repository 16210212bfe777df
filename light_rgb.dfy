/**
 * The light-strip helpers of the device manager (rgb.go): brightness and
 * speed settings, colour defaults and padding, the byte checksum of a light
 * command and the 65-byte output report that carries it, and the first
 * frame (F0) of an animation upload.
 */
module LightRgb {
  import opened FanTypes

  // ---------------------------------------------------------------------
  // Settings
  // ---------------------------------------------------------------------

  const LightSpeedFast: Byte := 0x05
  const LightSpeedMedium: Byte := 0x0A
  const LightSpeedSlow: Byte := 0x0F

  /** `clampLightBrightness`: a percentage, negative values to 0 and values above 100 to 100. */
  function ClampLightBrightness(value: int): (b: Byte)
    ensures 0 <= b <= 100
    ensures 0 <= value <= 100 ==> b == value
    ensures value < 0 ==> b == 0
    ensures value > 100 ==> b == 100
  {
    if value < 0 then 0 else if value > 100 then 100 else value
  }

  /** Clamping is idempotent and never reverses the order of two settings. */
  lemma ClampLightBrightnessMonotone(x: int, y: int)
    ensures ClampLightBrightness(ClampLightBrightness(x)) == ClampLightBrightness(x)
    ensures x <= y ==> ClampLightBrightness(x) <= ClampLightBrightness(y)
  {
  }

  /** `parseLightSpeed`: "fast" and "slow" have their own codes, every other name is medium. */
  function ParseLightSpeed(speed: string): (code: Byte)
    ensures code == LightSpeedFast <==> speed == "fast"
    ensures code == LightSpeedSlow <==> speed == "slow"
    ensures code == LightSpeedMedium <==> speed != "fast" && speed != "slow"
  {
    if speed == "fast" then LightSpeedFast
    else if speed == "slow" then LightSpeedSlow
    else LightSpeedMedium
  }

  // ---------------------------------------------------------------------
  // Colours
  // ---------------------------------------------------------------------

  const White := RGBColor(255, 255, 255)

  /** `firstOrDefaultColor`: the first colour given, white when none is. */
  function FirstOrDefaultColor(colors: seq<RGBColor>): (c: RGBColor)
    ensures |colors| > 0 ==> c == colors[0]
    ensures |colors| == 0 ==> c == White
  {
    if |colors| == 0 then White else colors[0]
  }

  /** Three colours: those given, as far as they go, then the default palette. */
  function ThreeColors(colors: seq<RGBColor>): seq<RGBColor>
  {
    seq(3, i requires 0 <= i < 3 => if i < |colors| then colors[i] else DefaultPalette[i])
  }

  /** `toThreeColors`: the default palette overwritten in place by the colours given. */
  method ToThreeColors(colors: seq<RGBColor>) returns (three: seq<RGBColor>)
    ensures |three| == 3
    ensures forall i :: 0 <= i < 3 && i < |colors| ==> three[i] == colors[i]
    ensures forall i :: |colors| <= i < 3 ==> three[i] == DefaultPalette[i]
    ensures three == ThreeColors(colors)
  {
    var base := new RGBColor[3](i requires 0 <= i < 3 => DefaultPalette[i]);
    var i := 0;
    while i < base.Length && i < |colors|
      invariant 0 <= i <= 3 && i <= |colors|
      invariant forall k :: 0 <= k < i ==> base[k] == colors[k]
      invariant forall k :: i <= k < 3 ==> base[k] == DefaultPalette[k]
    {
      base[i] := colors[i];
      i := i + 1;
    }
    three := base[..];
  }

  /** The colours padded to at least `min` entries, padding entry `i` with palette colour `i mod 3`. */
  function MinColors(colors: seq<RGBColor>, min: int): seq<RGBColor>
  {
    if |colors| >= min then colors
    else seq(min, i requires 0 <= i < min => if i < |colors| then colors[i] else DefaultPalette[i % 3])
  }

  /**
   * `ensureMinColors`: the colours as they are when there are enough,
   * otherwise appended to, one palette colour at a time, until there are
   * `min`.
   */
  method EnsureMinColors(colors: seq<RGBColor>, min: int) returns (result: seq<RGBColor>)
    ensures |colors| >= min ==> result == colors
    ensures |colors| < min ==> |result| == min && result[..|colors|] == colors
    ensures forall i :: |colors| <= i < |result| ==> result[i] == DefaultPalette[i % 3]
    ensures result == MinColors(colors, min)
  {
    if |colors| >= min {
      return colors;
    }
    result := colors;
    while |result| < min
      invariant |colors| <= |result| <= min
      invariant result[..|colors|] == colors
      invariant forall i :: |colors| <= i < |result| ==> result[i] == DefaultPalette[i % 3]
      decreases min - |result|
    {
      result := result + [DefaultPalette[|result| % 3]];
    }
  }

  /**
   * The two ways of filling a palette agree: the three colours are the
   * first three of the list padded to three.  So a static multi-colour
   * setting and a rotation with three colours start from the same colours.
   */
  lemma ThreeColorsArePadded(colors: seq<RGBColor>)
    ensures ThreeColors(colors) == MinColors(colors, 3)[..3]
    ensures |colors| <= 3 ==> ThreeColors(colors) == MinColors(colors, 3)
  {
    var t := ThreeColors(colors);
    var m := MinColors(colors, 3);
    assert |m| >= 3;
    forall i | 0 <= i < 3
      ensures t[i] == m[i]
    {
      if i >= |colors| {
        assert i % 3 == i;
      }
    }
  }

  /** Padding never drops or changes a colour given, and padding twice changes nothing more. */
  lemma MinColorsIdempotent(colors: seq<RGBColor>, min: int)
    ensures |MinColors(colors, min)| >= |colors| && MinColors(colors, min)[..|colors|] == colors
    ensures |MinColors(colors, min)| >= min
    ensures MinColors(MinColors(colors, min), min) == MinColors(colors, min)
  {
  }

  /**
   * The default light strip needs no correction: its brightness is already
   * in range, its speed is the medium code and its palette is already three
   * colours, so clamping and padding leave it as it is.
   */
  lemma DefaultLightStripSettled()
    ensures var c := DefaultLightStripConfig();
      && ClampLightBrightness(c.brightness) == c.brightness
      && ParseLightSpeed(c.speed) == LightSpeedMedium
      && ThreeColors(c.colors) == c.colors == DefaultPalette
      && MinColors(c.colors, 3) == c.colors
  {
    var c := DefaultLightStripConfig();
    assert ThreeColors(c.colors) == c.colors;
  }

  // ---------------------------------------------------------------------
  // Commands
  // ---------------------------------------------------------------------

  /** The sum of a byte string. */
  function Sum(s: seq<Byte>): nat
  {
    if s == [] then 0 else Sum(s[..|s| - 1]) + s[|s| - 1]
  }

  /** Going through a 16-bit accumulator does not change the low byte of a sum. */
  lemma LowByteOfWrapped(acc: nat, b: Byte)
    ensures (acc % 65536 + b) % 65536 == (acc + b) % 65536
    ensures (acc % 65536) % 256 == acc % 256
  {
    var q, r := acc / 65536, acc % 65536;
    assert acc == 65536 * q + r;
    ModMultiple(65536, q, r + b);
    ModMultiple(256, 256 * q, r);
  }

  lemma ModMultiple(m: nat, k: nat, r: nat)
    requires m == 256 || m == 65536
    ensures (m * k + r) % m == r % m
  {
    if m == 256 {
      assert (256 * k + r) % 256 == r % 256;
    } else {
      assert (65536 * k + r) % 65536 == r % 65536;
    }
  }

  /**
   * `lightChecksum`: the low byte of the sum of the payload after its
   * two-byte header, accumulated in a 16-bit counter.  Go panics on a
   * payload shorter than the header.
   */
  method LightChecksum(payload: seq<Byte>) returns (check: Byte)
    requires |payload| >= 2
    ensures check == Sum(payload[2..]) % 256
  {
    var sum: int := 0;
    for i := 2 to |payload|
      invariant 0 <= sum < 65536
      invariant sum == Sum(payload[2..i]) % 65536
    {
      assert payload[2..i + 1][..i - 2] == payload[2..i];
      LowByteOfWrapped(Sum(payload[2..i]), payload[i]);
      sum := (sum + payload[i]) % 65536;
    }
    assert payload[2..] == payload[2..|payload|];
    LowByteOfWrapped(Sum(payload[2..]), 0);
    check := sum % 256;
  }

  /** The light-command header. */
  const LightHeader: seq<Byte> := [0x5A, 0xA5]

  /** The command `sendLightCommandLocked` builds: header, fields and checksum. */
  function LightCommand(fields: seq<Byte>): seq<Byte>
  {
    LightHeader + fields + [Sum(fields) % 256]
  }

  /** A light command whose last byte is the checksum of what lies between the header and it. */
  predicate ChecksumValid(cmd: seq<Byte>)
  {
    |cmd| >= 3 && cmd[..2] == LightHeader && cmd[|cmd| - 1] == Sum(cmd[2..|cmd| - 1]) % 256
  }

  /** A built command always passes its own checksum test, and its fields can be read back. */
  lemma LightCommandValid(fields: seq<Byte>)
    ensures ChecksumValid(LightCommand(fields))
    ensures LightCommand(fields)[2..|fields| + 2] == fields
  {
    var cmd := LightCommand(fields);
    assert cmd[2..|cmd| - 1] == fields;
  }

  /** The report size the HID device takes: a report-id byte and 64 data bytes. */
  const ReportSize: nat := 65

  /** The output report for a command: id 0x02, then the command, cut at 64 bytes, zeros after. */
  function LightReport(cmd: seq<Byte>): seq<Byte>
  {
    seq(ReportSize, i requires 0 <= i < ReportSize => if i == 0 then 2 else if i - 1 < |cmd| then cmd[i - 1] else 0)
  }

  /**
   * The frame building of `sendLightCommandLocked`: the command with its
   * checksum (computed over the header and fields as `lightChecksum`
   * sees them) copied into a zeroed 65-byte report after the report id;
   * `copy` stops at the end of the report.
   */
  method BuildLightReport(fields: seq<Byte>) returns (report: seq<Byte>)
    ensures report == LightReport(LightCommand(fields))
    ensures |report| == ReportSize && report[0] == 0x02 && report[1] == 0x5A && report[2] == 0xA5
  {
    var cmd := LightHeader + fields;
    var check := LightChecksum(cmd);
    assert cmd[2..] == fields;
    cmd := cmd + [check];
    var buf := new Byte[ReportSize](_ => 0);
    buf[0] := 0x02;
    var n := if |cmd| < ReportSize - 1 then |cmd| else ReportSize - 1;
    for i := 1 to ReportSize
      invariant buf[0] == 0x02
      invariant forall k :: 1 <= k < i ==> buf[k] == if k - 1 < |cmd| then cmd[k - 1] else 0
      invariant forall k :: i <= k < ReportSize ==> buf[k] == 0
    {
      if i - 1 < n {
        buf[i] := cmd[i - 1];
      }
    }
    report := buf[..];
  }

  /**
   * A report carrying at most 61 field bytes holds the whole command: the
   * fields can be read back from bytes 3.., the checksum follows them, and
   * the rest is zero.
   */
  lemma LightReportRoundTrip(fields: seq<Byte>)
    requires |fields| <= ReportSize - 4
    ensures var report := LightReport(LightCommand(fields));
      && report[3..3 + |fields|] == fields
      && report[1..4 + |fields|] == LightCommand(fields)
      && ChecksumValid(report[1..4 + |fields|])
      && (forall i :: 4 + |fields| <= i < ReportSize ==> report[i] == 0)
  {
    LightCommandValid(fields);
    var report := LightReport(LightCommand(fields));
    assert report[1..4 + |fields|] == LightCommand(fields);
  }

  /** The command that switches the light off: fields 46 03 00. */
  const LightOffFields: seq<Byte> := [0x46, 0x03, 0x00]

  // ---------------------------------------------------------------------
  // Animation frames
  // ---------------------------------------------------------------------

  /** `makeLightF0`: the first frame of an upload, carrying mode, speed, brightness and base colour. */
  function MakeLightF0(mode: Byte, speed: Byte, brightness: Byte, baseColor: RGBColor): (f: seq<Byte>)
    ensures |f| == 10
  {
    [0x00, 0x02, 0x00, mode, speed, brightness, baseColor.r, baseColor.g, baseColor.b, 0x00]
  }

  /** The settings an F0 frame carries, read back from their positions. */
  function F0Settings(f: seq<Byte>): (Byte, Byte, Byte, RGBColor)
    requires |f| == 10
  {
    (f[3], f[4], f[5], RGBColor(f[6], f[7], f[8]))
  }

  /** The F0 frame keeps every setting at its own position, around a fixed `00 02 00 .. 00` frame. */
  lemma MakeLightF0RoundTrip(mode: Byte, speed: Byte, brightness: Byte, baseColor: RGBColor)
    ensures F0Settings(MakeLightF0(mode, speed, brightness, baseColor)) == (mode, speed, brightness, baseColor)
    ensures var f := MakeLightF0(mode, speed, brightness, baseColor); f[..3] == [0, 2, 0] && f[9] == 0
  {
  }
}
