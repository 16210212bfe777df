/**
 * The shared configuration records of the controller and their defaults:
 * fan-curve points, the learning smart-control settings, the light-strip
 * settings, the application configuration, and the preset gear commands
 * sent to the BS2PRO fan.
 */
module FanTypes {

  /** A value that fits in one byte. */
  type Byte = b: int | 0 <= b < 256

  /** One point of a fan curve: at `temperature` (°C) run at `rpm`. */
  datatype FanCurvePoint = FanCurvePoint(temperature: int, rpm: int)

  datatype RGBColor = RGBColor(r: Byte, g: Byte, b: Byte)

  /** Light-strip settings: mode, speed name, brightness (0..100) and colours. */
  datatype LightStripConfig = LightStripConfig(mode: string, speed: string, brightness: int, colors: seq<RGBColor>)

  /** The learning smart-control settings; the slices are per curve point or per rate bucket. */
  datatype SmartControlConfig = SmartControlConfig(
    enabled: bool,
    learning: bool,
    targetTemp: int,
    aggressiveness: int,
    hysteresis: int,
    minRPMChange: int,
    rampUpLimit: int,
    rampDownLimit: int,
    learnRate: int,
    learnWindow: int,
    learnDelay: int,
    overheatWeight: int,
    rpmDeltaWeight: int,
    noiseWeight: int,
    trendGain: int,
    maxLearnOffset: int,
    learnedOffsets: seq<int>,
    learnedOffsetsHeat: seq<int>,
    learnedOffsetsCool: seq<int>,
    learnedRateHeat: seq<int>,
    learnedRateCool: seq<int>)

  /** A preset gear: its name, the command frame that selects it, and its nominal speed. */
  datatype GearCommand = GearCommand(name: string, command: seq<Byte>, rpm: int)

  datatype AppConfig = AppConfig(
    autoControl: bool,
    fanCurve: seq<FanCurvePoint>,
    gearLight: bool,
    powerOnStart: bool,
    windowsAutoStart: bool,
    smartStartStop: string,
    brightness: int,
    tempUpdateRate: int,
    tempSampleCount: int,
    configPath: string,
    manualGear: string,
    manualLevel: string,
    debugMode: bool,
    guiMonitoring: bool,
    customSpeedEnabled: bool,
    customSpeedRPM: int,
    ignoreDeviceOnReconnect: bool,
    smartControl: SmartControlConfig,
    lightStrip: LightStripConfig)

  /** The three colours the light strip starts with: red, green and azure. */
  const DefaultPalette: seq<RGBColor> := [RGBColor(255, 0, 0), RGBColor(0, 255, 0), RGBColor(0, 128, 255)]

  /** The number of rate-bias buckets the defaults allocate. */
  const DefaultRateBuckets: nat := 7

  function ZeroSlice(n: nat): (z: seq<int>)
    ensures |z| == n && forall i :: 0 <= i < n ==> z[i] == 0
  {
    seq(n, _ => 0)
  }

  /** `GetDefaultLightStripConfig`: smart-temperature mode, medium speed, full brightness, the default palette. */
  function DefaultLightStripConfig(): (c: LightStripConfig)
    ensures c.mode == "smart_temp" && c.speed == "medium" && c.brightness == 100
    ensures c.colors == [RGBColor(255, 0, 0), RGBColor(0, 255, 0), RGBColor(0, 128, 255)]
  {
    LightStripConfig("smart_temp", "medium", 100, DefaultPalette)
  }

  /** `GetDefaultSmartControlConfig`: the default tuning, with zeroed per-point and per-bucket slices. */
  function DefaultSmartControlConfig(curve: seq<FanCurvePoint>): (c: SmartControlConfig)
    ensures c.enabled && c.learning
    ensures |c.learnedOffsets| == |c.learnedOffsetsHeat| == |c.learnedOffsetsCool| == |curve|
    ensures |c.learnedRateHeat| == |c.learnedRateCool| == DefaultRateBuckets
    ensures forall i :: 0 <= i < |curve| ==>
      c.learnedOffsets[i] == 0 && c.learnedOffsetsHeat[i] == 0 && c.learnedOffsetsCool[i] == 0
    ensures forall i :: 0 <= i < DefaultRateBuckets ==> c.learnedRateHeat[i] == 0 && c.learnedRateCool[i] == 0
    ensures c.rampDownLimit <= c.rampUpLimit + 300
  {
    SmartControlConfig(
      enabled := true,
      learning := true,
      targetTemp := 68,
      aggressiveness := 5,
      hysteresis := 2,
      minRPMChange := 50,
      rampUpLimit := 220,
      rampDownLimit := 160,
      learnRate := 4,
      learnWindow := 6,
      learnDelay := 2,
      overheatWeight := 8,
      rpmDeltaWeight := 5,
      noiseWeight := 4,
      trendGain := 5,
      maxLearnOffset := 600,
      learnedOffsets := ZeroSlice(|curve|),
      learnedOffsetsHeat := ZeroSlice(|curve|),
      learnedOffsetsCool := ZeroSlice(|curve|),
      learnedRateHeat := ZeroSlice(DefaultRateBuckets),
      learnedRateCool := ZeroSlice(DefaultRateBuckets))
  }

  /** `GetDefaultFanCurve`: fourteen points from 30 °C to 95 °C. */
  function DefaultFanCurve(): seq<FanCurvePoint>
  {
    [ FanCurvePoint(30, 1000), FanCurvePoint(35, 1200), FanCurvePoint(40, 1400),
      FanCurvePoint(45, 1600), FanCurvePoint(50, 1800), FanCurvePoint(55, 2000),
      FanCurvePoint(60, 2300), FanCurvePoint(65, 2600), FanCurvePoint(70, 2900),
      FanCurvePoint(75, 3200), FanCurvePoint(80, 3500), FanCurvePoint(85, 3800),
      FanCurvePoint(90, 4000), FanCurvePoint(95, 4000) ]
  }

  /**
   * The default curve has fourteen points every 5 °C from 30 °C, so its
   * temperatures strictly increase, and its speeds never decrease and stay
   * within the fan's 1000..4000 RPM range.
   */
  lemma DefaultFanCurveShape()
    ensures var c := DefaultFanCurve();
      && |c| == 14
      && (forall i :: 0 <= i < |c| ==> c[i].temperature == 30 + 5 * i)
      && (forall i, j :: 0 <= i < j < |c| ==> c[i].temperature < c[j].temperature && c[i].rpm <= c[j].rpm)
      && (forall i :: 0 <= i < |c| ==> 1000 <= c[i].rpm <= 4000)
  {
    var c := DefaultFanCurve();
    forall i, j | 0 <= i < j < |c|
      ensures c[i].rpm <= c[j].rpm
    {
      assert forall k :: 0 <= k < |c| - 1 ==> c[k].rpm <= c[k + 1].rpm;
      SortedByStep(c, i, j);
    }
  }

  /** Speeds that never decrease between neighbours never decrease at all. */
  lemma {:induction false} SortedByStep(c: seq<FanCurvePoint>, i: nat, j: nat)
    requires i <= j < |c|
    requires forall k :: 0 <= k < |c| - 1 ==> c[k].rpm <= c[k + 1].rpm
    ensures c[i].rpm <= c[j].rpm
    decreases j - i
  {
    if i < j {
      SortedByStep(c, i + 1, j);
    }
  }

  /** `GetDefaultConfig`: the stored fan curve is the one the smart-control defaults are sized for. */
  function DefaultConfig(isAutoStart: bool): (c: AppConfig)
    ensures c.fanCurve == DefaultFanCurve()
    ensures |c.smartControl.learnedOffsets| == |c.smartControl.learnedOffsetsHeat| == |c.fanCurve|
    ensures |c.smartControl.learnedOffsetsCool| == |c.fanCurve|
    ensures c.lightStrip == DefaultLightStripConfig()
  {
    var defaultCurve := DefaultFanCurve();
    AppConfig(
      autoControl := false,
      fanCurve := defaultCurve,
      gearLight := true,
      powerOnStart := false,
      windowsAutoStart := false,
      smartStartStop := "off",
      brightness := 100,
      tempUpdateRate := 2,
      tempSampleCount := 1,
      configPath := "",
      manualGear := "标准",
      manualLevel := "中",
      debugMode := false,
      guiMonitoring := true,
      customSpeedEnabled := false,
      customSpeedRPM := 2000,
      ignoreDeviceOnReconnect := true,
      smartControl := DefaultSmartControlConfig(defaultCurve),
      lightStrip := DefaultLightStripConfig())
  }

  // ---------------------------------------------------------------------
  // Preset gear commands
  // ---------------------------------------------------------------------

  /** A 23-byte gear frame: the `5A A5 26 05` header, four payload bytes, then zeros. */
  function GearFrame(level: Byte, lo: Byte, hi: Byte, check: Byte): (f: seq<Byte>)
    ensures |f| == 23
  {
    [0x5a, 0xa5, 0x26, 0x05, level, lo, hi, check] + seq(15, _ => 0)
  }

  /** The four modes, in the order of the level byte they send. */
  const GearModes: seq<string> := ["静音", "标准", "强劲", "超频"]

  /** The preset gears of each mode, indexed like `GearModes`, quietest first. */
  const GearsByLevel: seq<seq<GearCommand>> := [
    [ GearCommand("1挡低", GearFrame(0x00, 0x14, 0x05, 0x44), 1300),
      GearCommand("1挡中", GearFrame(0x00, 0xa4, 0x06, 0xd5), 1700),
      GearCommand("1挡高", GearFrame(0x00, 0x6c, 0x07, 0x9e), 1900)],
    [ GearCommand("2挡低", GearFrame(0x01, 0x34, 0x08, 0x68), 2100),
      GearCommand("2挡中", GearFrame(0x01, 0x60, 0x09, 0x95), 2310),
      GearCommand("2挡高", GearFrame(0x01, 0x8c, 0x0a, 0xc2), 2760)],
    [ GearCommand("3挡低", GearFrame(0x02, 0xf0, 0x0a, 0x27), 2800),
      GearCommand("3挡中", GearFrame(0x02, 0xb8, 0x0b, 0xf0), 3000),
      GearCommand("3挡高", GearFrame(0x02, 0xe4, 0x0c, 0x1d), 3300)],
    [ GearCommand("4挡低", GearFrame(0x03, 0xac, 0x0d, 0xe7), 3500),
      GearCommand("4挡中", GearFrame(0x03, 0x74, 0x0e, 0xb0), 3700),
      GearCommand("4挡高", GearFrame(0x03, 0xa0, 0x0f, 0xdd), 4000)]
  ]

  /** `GearCommands`: the preset gears by mode name. */
  const GearCommands: map<string, seq<GearCommand>> := map[
    "静音" := GearsByLevel[0],
    "标准" := GearsByLevel[1],
    "强劲" := GearsByLevel[2],
    "超频" := GearsByLevel[3]
  ]

  /** The table has exactly the four modes, each mapped to its level's gears. */
  lemma GearCommandsByMode()
    ensures GearCommands.Keys == set m | m in GearModes
    ensures forall k :: 0 <= k < |GearModes| ==> GearModes[k] in GearCommands && GearCommands[GearModes[k]] == GearsByLevel[k]
  {
    assert "静音"[0] != "标准"[0] && "静音"[0] != "强劲"[0] && "静音"[0] != "超频"[0];
    assert "标准"[0] != "强劲"[0] && "标准"[0] != "超频"[0] && "强劲"[0] != "超频"[0];
  }

  /** The sum of `f[i..j]`. */
  function SumRange(f: seq<Byte>, i: nat, j: nat): nat
    requires i <= j <= |f|
    decreases j - i
  {
    if i == j then 0 else f[i] + SumRange(f, i + 1, j)
  }

  /** The speed a gear frame asks for: bytes 5 and 6, little-endian. */
  function FrameSpeed(f: seq<Byte>): nat
    requires |f| >= 7
  {
    f[5] as nat + 256 * f[6] as nat
  }

  /**
   * A well-formed gear frame: 23 bytes, the `5A A5 26 05` header, the
   * level byte, byte 7 the low byte of the sum of bytes 2..6, zeros after.
   */
  predicate WellFormedGearFrame(f: seq<Byte>, level: nat)
  {
    && |f| == 23
    && f[..4] == [0x5a, 0xa5, 0x26, 0x05]
    && f[4] == level
    && f[7] == SumRange(f, 2, 7) % 256
    && forall i :: 8 <= i < 23 ==> f[i] == 0
  }

  lemma GearFrameShape(level: Byte, lo: Byte, hi: Byte, check: Byte)
    requires check == (0x26 + 0x05 + level + lo + hi) % 256
    ensures WellFormedGearFrame(GearFrame(level, lo, hi, check), level)
    ensures FrameSpeed(GearFrame(level, lo, hi, check)) == lo + 256 * hi
  {
    var f := GearFrame(level, lo, hi, check);
    assert SumRange(f, 6, 7) == hi;
    assert SumRange(f, 2, 7) == 0x26 + 0x05 + level + lo + hi;
  }

  /** The gears of mode `k`: three well-formed frames with level byte `k`. */
  predicate LevelWellFormed(gears: seq<GearCommand>, k: nat)
  {
    |gears| == 3 && forall g :: 0 <= g < 3 ==> WellFormedGearFrame(gears[g].command, k)
  }

  /**
   * Every preset is a well-formed frame whose level byte is the index of its
   * mode and whose checksum byte is right; each mode holds three gears.
   */
  lemma GearCommandsWellFormed()
    ensures forall k :: 0 <= k < |GearModes| ==> LevelWellFormed(GearCommands[GearModes[k]], k)
  {
    GearCommandsByMode();
    forall k | 0 <= k < |GearModes|
      ensures LevelWellFormed(GearsByLevel[k], k)
    {
      LevelFramesWellFormed(k);
    }
  }

  lemma LevelFramesWellFormed(k: nat)
    requires k < |GearsByLevel|
    ensures LevelWellFormed(GearsByLevel[k], k)
  {
    forall g | 0 <= g < 3
      ensures WellFormedGearFrame(GearsByLevel[k][g].command, k)
    {
      var f := GearsByLevel[k][g].command;
      assert f == GearFrame(k, f[5], f[6], f[7]);
      GearFrameShape(k, f[5], f[6], f[7]);
    }
  }

  /**
   * Within each mode the frames ask for strictly rising speeds, and for ten
   * of the twelve presets the speed in the frame is the nominal `rpm`; the
   * middle and high gears of "标准" name 2310 and 2760 RPM while their frames
   * ask for 2400 and 2700.
   */
  lemma GearCommandSpeeds()
    ensures forall k :: 0 <= k < |GearModes| ==>
      var gears := GearCommands[GearModes[k]];
      |gears| == 3 && FrameSpeed(gears[0].command) < FrameSpeed(gears[1].command) < FrameSpeed(gears[2].command)
    ensures forall k, g :: 0 <= k < |GearModes| && 0 <= g < 3 && !(k == 1 && g >= 1) ==>
      FrameSpeed(GearCommands[GearModes[k]][g].command) == GearCommands[GearModes[k]][g].rpm
    ensures FrameSpeed(GearCommands["标准"][1].command) == 2400 && GearCommands["标准"][1].rpm == 2310
    ensures FrameSpeed(GearCommands["标准"][2].command) == 2700 && GearCommands["标准"][2].rpm == 2760
  {
    GearCommandsByMode();
    assert GearModes[1] == "标准";
  }
}
