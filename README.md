# BS2PRO-Controller core, modelled in Dafny

BS2PRO-Controller is a desktop controller for the BS2PRO cooling fan.
It reads temperatures and sets the fan's speed from a user fan curve.
Its learning "smart control" mode adjusts that curve with learned
per-point offsets and per-trend rate biases. It also drives the fan's
RGB light strip and keeps preset gear commands. Two helper scripts ship with it:

- a prettifier that labels branch targets in a RISC-V disassembly listing of the firmware;
- a probe that sends light commands and decodes the fan's `0xEF` status reports.

This project models that integer, byte and string logic in Dafny and
proves what the code promises about it. The modules follow the source files:

- `Wrappers`: `Option` and `Result`
- `Text`: Python string helpers (`strip`, `rstrip`, `split`, `join`, `str(n)`)
- `HexFormat`: hexadecimal formatting and parsing (`f"{n:08x}"`, `bytes.hex()`, `bytes.fromhex`)
- `AsmPrettify`: `scripts/prettify_asm.py`
- `FanTypes`: `internal/types/types.go`
- `CurveHelpers`: `internal/smartcontrol/helpers.go`
- `SmartConfig`: `internal/smartcontrol/config.go`
- `SmartLearning`: `internal/smartcontrol/learning.go`
- `SmartTarget`: `internal/smartcontrol/target.go`
- `SmartLegacy`: `internal/smartcontrol/smartcontrol.go`, the older single-file variant
- `LightRgb`: `internal/device/rgb.go`
- `RpmProbe`: `scripts/rpm_rgb_probe.py`

Where the Go code loops or writes slices in place, the model does the same:

- `enforceNonDecreasingRPM`, `applyDeltaAtIndex`, `smoothAndClampOffsets` and `smoothRateBiases` work on `array`s;
- `nearestCurveIndex`, `constrainOffsetsToCurveBounds`, `BlendOffsets`, `ensureMinColors`, `lightChecksum` and the like are methods with loops.

Each such method is proved equal to a specification function, and the properties are proved about that function.

Pure helpers are functions.

Some modelling conventions:

- Go's `/` truncates toward zero and is written `TruncDiv`.
- A nil slice is the empty sequence.
- A Go panic that the callers must avoid becomes a `requires`.
- The `uint16` checksum accumulator wraps modulo 65536.

## Model

| member | source | states |
|---|---|---|
| `Text.RStripNewlines` | scripts/prettify_asm.py:53 | the result is a prefix of the line, only `\n` was removed, and it does not end in `\n` |
| `Text.Strip` | scripts/prettify_asm.py:63 | no leading or trailing whitespace is left, and every character comes from the input |
| `Text.LStrip` | scripts/prettify_asm.py:63 | the result is a suffix of the text, what was dropped is whitespace, and it does not start with whitespace |
| `Text.RStrip` | scripts/prettify_asm.py:63 | the result is a prefix of the text, what was dropped is whitespace, and it does not end with whitespace |
| `Text.StripStripped` | scripts/prettify_asm.py:63 | a text without whitespace at either end is its own strip |
| `Text.StripLeadingSpace` | scripts/rpm_rgb_probe.py:182 | leading whitespace does not survive the strip |
| `Text.StripSlice` | scripts/prettify_asm.py:63 | the strip is a slice of the text with whitespace only on either side |
| `Text.StripAllSpace` | scripts/rpm_rgb_probe.py:182-184 | a blank part strips to the empty string, so it is skipped |
| `Text.Split` | scripts/prettify_asm.py:83 | `split(",")` yields at least one part, and no part contains the separator |
| `Text.JoinSplit` | scripts/prettify_asm.py:111 | joining the parts of a split with the same separator gives the text back |
| `Text.SplitJoin` | scripts/rpm_rgb_probe.py:181 | splitting a join of separator-free parts gives the parts back |
| `Text.SplitNoSep` | scripts/rpm_rgb_probe.py:181 | a text without the separator splits into itself alone |
| `Text.SplitPrefix` | scripts/rpm_rgb_probe.py:181 | splitting `a + sep + b`, with no separator in `a`, gives `a` followed by the parts of `b` |
| `Text.Decimal` | scripts/rpm_rgb_probe.py:185 | `str(n)` is a non-empty run of ASCII digits |
| `Text.DecimalRoundTrip` | scripts/rpm_rgb_probe.py:185 | reading back the decimal spelling of n gives n |
| `Text.DecimalLeadingDigit` | scripts/prettify_asm.py:42-43 | the decimal spelling starts with `0` only for zero |
| `Text.DecimalValueLeadingZero` | scripts/prettify_asm.py:42-43 | a leading zero digit does not change a decimal value |
| `HexFormat.FormatHex` | scripts/prettify_asm.py:145 | `{n:0Wx}` gives lower-case hex digits, at least W of them |
| `HexFormat.DigitChar` | scripts/prettify_asm.py:145 | one lower-case hex digit per value below 16 |
| `HexFormat.DigitRoundTrip` | scripts/prettify_asm.py:145 | reading a written digit gives its value back |
| `HexFormat.Digits` | scripts/prettify_asm.py:145 | `{n:x}` is a non-empty run of lower-case hex digits |
| `HexFormat.HexValueDigits` | scripts/prettify_asm.py:42-43 | reading back the digits of n gives n |
| `HexFormat.DigitsLength` | scripts/prettify_asm.py:162 | a number below 16^k has at most k digits |
| `HexFormat.FormatHexRoundTrip` | scripts/prettify_asm.py:145 | reading back a formatted number gives the number |
| `HexFormat.FormatHexInjective` | scripts/prettify_asm.py:145 | distinct numbers format differently |
| `HexFormat.FormatHexWidth` | scripts/prettify_asm.py:162 | a number below 16^W formats to exactly W digits |
| `HexFormat.HexEncode` | scripts/rpm_rgb_probe.py:20 | two lower-case hex digits per byte |
| `HexFormat.HexDecode` | scripts/rpm_rgb_probe.py:138 | `bytes.fromhex` of an even run of hex digits gives half as many bytes, each below 256 |
| `HexFormat.ByteDigits` | scripts/rpm_rgb_probe.py:20 | a byte is written as two digits whose values make up the byte |
| `HexFormat.HexDecodeEncode` | scripts/rpm_rgb_probe.py:138 | `bytes.fromhex` undoes the hex encoding |
| `AsmPrettify.MatchLine` | scripts/prettify_asm.py:9 | a matching line starts with `0x` and at least one address digit, has a non-empty mnemonic, and its operand text holds no newline |
| `AsmPrettify.MatchLineGroups` | scripts/prettify_asm.py:9 | the address and raw bytes of a match are hex runs, the mnemonic has no whitespace, and the operand text stays on one line |
| `AsmPrettify.ParseLine` | scripts/prettify_asm.py:53-66 | a parsed line keeps the rstripped line as `original`, hex raw bytes, a space-free mnemonic and stripped operand text |
| `AsmPrettify.ClassifyAt` | scripts/prettify_asm.py:52-54 | each line is matched on its own: the classification of line i is the parse of line i |
| `AsmPrettify.FirstMatch` | scripts/prettify_asm.py:51-56 | the position of the first matching line (or the end), which does match |
| `AsmPrettify.FirstMatchFirst` | scripts/prettify_asm.py:69-70 | no line before the first match matches, so all of them are header |
| `AsmPrettify.StripAll` | scripts/prettify_asm.py:53 | each kept line is its `rstrip("\n")` |
| `AsmPrettify.ParseAsmLines` | scripts/prettify_asm.py:46-74 | header = the lines before the first match; instructions = every match in order; trailer = the non-matching lines after it |
| `AsmPrettify.SplitLinesSections` | scripts/prettify_asm.py:51-72 | after any prefix of lines, the three lists and the seen flag are exactly those sections of the prefix |
| `AsmPrettify.ParseAccountsForEveryLine` | scripts/prettify_asm.py:46-74 | the header, instruction and trailer counts sum to the number of lines |
| `AsmPrettify.ParsedUnparsedCount` | scripts/prettify_asm.py:55-72 | every line is either an instruction or a non-matching line |
| `AsmPrettify.ParsedAppend` | scripts/prettify_asm.py:52-58 | instructions are collected in line order: parsing a concatenation concatenates the results |
| `AsmPrettify.TokensAreWords` | scripts/prettify_asm.py:83 | every operand token is comma-free and stripped |
| `AsmPrettify.SplitJoinSpaced` | scripts/prettify_asm.py:111 | splitting a `", "`-join on commas gives the tokens, each but the first behind one space |
| `AsmPrettify.RelValue` | scripts/prettify_asm.py:42-43 | `int(t, 0)` on a relative literal: a `0x` literal always reads as its hex value; a minus sign gives a value ≤ 0, no sign a value ≥ 0; it fails only on a decimal with a leading zero |
| `AsmPrettify.Resolve` | scripts/prettify_asm.py:77-93 | only a control-flow mnemonic with operand text whose last token is a literal yields a target or an error; an error names that last token, a relative literal `int` cannot read |
| `AsmPrettify.NoTargetOtherToken` | scripts/prettify_asm.py:86-93 | a last token that is neither `0x`-hex nor a relative literal (a register, `0(a0)`) gives no target |
| `AsmPrettify.ResolveAbsolute` | scripts/prettify_asm.py:86-87 | a last token `0x` + h, for any non-empty run h of hex digits in either case, targets the value of h |
| `AsmPrettify.ResolveFormatted` | scripts/prettify_asm.py:86-87 | a last token `0x` + the formatted hex of `a` targets `a` |
| `AsmPrettify.ResolveOffset` | scripts/prettify_asm.py:89-91 | a readable relative literal of value v targets address + v |
| `AsmPrettify.DecimalToken` | scripts/prettify_asm.py:12 | `str(n)` or `-str(n)` is a relative literal, not an absolute one, read as n or -n |
| `AsmPrettify.ResolveLeadingZero` | scripts/prettify_asm.py:42-43 | a decimal token with a leading zero, like `010`, makes `int(token, 0)` raise |
| `AsmPrettify.ResolutionsAt` | scripts/prettify_asm.py:135-136 | each instruction's resolution is `infer_target` of that instruction |
| `AsmPrettify.LeadingZeroToken` | scripts/prettify_asm.py:12 | `0` + `str(n)` with n > 0 matches the relative pattern but cannot be read |
| `AsmPrettify.Rewrite` | scripts/prettify_asm.py:96-111 | the operand is unchanged unless its target carries a non-empty label |
| `AsmPrettify.RewriteTokens` | scripts/prettify_asm.py:100-111 | a rewrite keeps every token but the last, in order, and replaces the last with the label |
| `AsmPrettify.TokensJoin` | scripts/prettify_asm.py:111 | the `", "`-join of stripped comma-free tokens splits back into those tokens |
| `AsmPrettify.RewriteEndsWithLabel` | scripts/prettify_asm.py:110-111 | a rewritten operand ends with the label of its target |
| `AsmPrettify.RewriteSettles` | scripts/prettify_asm.py:96-111 | a rewritten instruction has no target left, and rewriting it again changes nothing |
| `AsmPrettify.RewrittenLast` | scripts/prettify_asm.py:106-111 | a changed operand came from a labelled target and ends with that target's `loc_` name |
| `AsmPrettify.LabelName` | scripts/prettify_asm.py:145 | labels start with `loc_` and have at least twelve characters |
| `AsmPrettify.LabelNameInjective` | scripts/prettify_asm.py:145 | distinct addresses never share a label |
| `AsmPrettify.LabelNameLength` | scripts/prettify_asm.py:145 | addresses below 2^32 give exactly `loc_` + eight digits |
| `AsmPrettify.LabelNameIsWord` | scripts/prettify_asm.py:145 | a label is one stripped token that reads as neither an address nor an offset |
| `AsmPrettify.MaxAddress` | scripts/prettify_asm.py:131-132 | every address is at most the maximum, which is one of them (0 with no instructions) |
| `AsmPrettify.CollectTargets` | scripts/prettify_asm.py:134-143 | fails with the first unreadable literal exactly when there is one; otherwise it returns exactly the targets that are addresses of instructions |
| `AsmPrettify.Labels` | scripts/prettify_asm.py:145 | exactly the targets are labelled |
| `AsmPrettify.LJust` | scripts/prettify_asm.py:162 | `{s:<12}` keeps s and pads it with spaces to the width |
| `AsmPrettify.WrittenLayout` | scripts/prettify_asm.py:162 | a written line is laid out as `0x`, the address, `:\t`, the padded bytes, a tab, the mnemonic, a tab and the operands |
| `AsmPrettify.MatchWritten` | scripts/prettify_asm.py:162 | a written instruction line matches the instruction pattern with the written fields as groups |
| `AsmPrettify.FormatLineParses` | scripts/prettify_asm.py:162 | parsing a written instruction line gives back the instruction with the rewritten operand |
| `AsmPrettify.WriteLines` | scripts/prettify_asm.py:149-150 | the lines are appended in order |
| `AsmPrettify.WriteInstruction` | scripts/prettify_asm.py:156-163 | a blank line and the label line when the address is labelled, then the formatted line |
| `AsmPrettify.WriteInstructions` | scripts/prettify_asm.py:155-163 | one block per instruction, in input order |
| `AsmPrettify.EmitPrettyView` | scripts/prettify_asm.py:149-166 | output = header, banner with the label count, instruction blocks, trailer |
| `AsmPrettify.Prettify` | scripts/prettify_asm.py:129-166 | the run fails exactly when a relative literal is unreadable; otherwise it writes the whole pretty view with labels for exactly the targeted instruction addresses |
| `AsmPrettify.LabelTargets` | scripts/prettify_asm.py:134-143 | the label targets are the targeted instruction addresses, none negative |
| `AsmPrettify.SameTargets` | scripts/prettify_asm.py:134-145 | any set holding exactly the label targets is `LabelTargets` |
| `FanTypes.DefaultLightStripConfig` | internal/types/types.go:130-141 | mode `smart_temp`, speed `medium`, brightness 100, and the colours red, green and azure (0, 128, 255) |
| `FanTypes.ZeroSlice` | internal/types/types.go:145-149 | `make([]int, n)`: n zeros |
| `FanTypes.DefaultSmartControlConfig` | internal/types/types.go:144-174 | enabled and learning on; three zero offset slices with one entry per curve point; two zero rate slices of the default bucket count (7); ramp-down ≤ ramp-up + 300 |
| `SmartConfig.DefaultsAccepted` | internal/types/types.go:152-167 | every default scalar lies in the range `NormalizeConfig` accepts |
| `FanTypes.DefaultFanCurveShape` | internal/types/types.go:213-230 | 14 points at 30, 35, …, 95 °C; temperatures strictly increase; speeds never decrease and stay within 1000..4000 |
| `FanTypes.SortedByStep` | internal/types/types.go:213-230 | speeds that never fall between neighbours never fall between any two points |
| `FanTypes.DefaultConfig` | internal/types/types.go:233-257 | the stored fan curve is the default curve; the smart-control offset slices are sized for that very curve; the light strip has its defaults |
| `FanTypes.GearCommandsByMode` | internal/types/types.go:189-210 | the table has exactly the four modes |
| `FanTypes.GearFrameShape` | internal/types/types.go:189-210 | a frame built from a level, a speed and the checksum of bytes 2..6 is 23 bytes, `5A A5 26 05`, the level, the speed, the checksum and zeros, and its speed reads back little-endian |
| `FanTypes.GearFrame` | internal/types/types.go:189-210 | a gear frame has 23 bytes |
| `FanTypes.LevelFramesWellFormed` | internal/types/types.go:189-210 | the three frames of gear level k are well formed with level byte k |
| `FanTypes.GearCommandsWellFormed` | internal/types/types.go:189-210 | every preset is such a frame, with the level byte equal to its mode's index |
| `FanTypes.GearCommandSpeeds` | internal/types/types.go:189-210 | within a mode the frames ask for rising speeds; the frame speed equals the nominal RPM except for 2挡中 and 2挡高, whose frames ask for 2400 and 2700 but are named 2310 and 2760 (types.go:197-198) |
| `CurveHelpers.CurveEdgeRPMBounds` | internal/smartcontrol/helpers.go:5-15 | (0, 4000) for an empty curve; otherwise the first and last speeds, smaller first |
| `CurveHelpers.ClampOffsetForPoint` | internal/smartcontrol/helpers.go:17-26 | the result is within the point's interval, or 0 when the interval is empty; an offset already inside is kept |
| `CurveHelpers.OffsetKeepsPointInRange` | internal/smartcontrol/helpers.go:17-26 | for a point between the edges, base + offset stays between them and the offset within the cap |
| `CurveHelpers.ConstrainOffsetsToCurveBounds` | internal/smartcontrol/helpers.go:28-49 | the input with no update when either side is empty; otherwise a copy of the same length, zero past the curve and clamped elsewhere, updated exactly when it differs or runs past the curve |
| `CurveHelpers.ConstrainedInBounds` | internal/smartcontrol/helpers.go:28-49 | the constrained offsets respect the bounds, and constraining again changes nothing |
| `CurveHelpers.IntSlicesEqual` | internal/smartcontrol/helpers.go:51-61 | true exactly when the slices are equal |
| `CurveHelpers.NearestCurveIndex` | internal/smartcontrol/helpers.go:63-79 | 0 for an empty curve; otherwise an in-range index of minimal distance, the first such on ties |
| `CurveHelpers.NearestIndexUnique` | internal/smartcontrol/helpers.go:63-79 | the nearest index with first-on-ties is unique (smartcontrol.go:352-368 holds the same function) |
| `CurveHelpers.ClampInt` | internal/smartcontrol/helpers.go:81-89 | within [min, max] when min ≤ max, and values inside are kept |
| `CurveHelpers.ClampIntNearest` | internal/smartcontrol/helpers.go:81-89 | clamping moves a value only toward the range and is idempotent |
| `CurveHelpers.AbsInt` | internal/smartcontrol/helpers.go:91-96 | non-negative, and ± the value |
| `CurveHelpers.TruncDiv` | internal/smartcontrol/config.go:153 | Go's truncating division: floor division for non-negative operands, and the quotient is non-negative exactly when the dividend is above −divisor |
| `CurveHelpers.TruncDivBounds` | internal/smartcontrol/config.go:153 | the quotient rounds the magnitude down, and negating the dividend negates it |
| `CurveHelpers.EnforceNonDecreasingRPM` | internal/smartcontrol/helpers.go:98-104 | in place, every speed becomes the prefix maximum |
| `CurveHelpers.NonDecreasingCurveShape` | internal/smartcontrol/helpers.go:98-104 | the result keeps length and temperatures, never lowers a speed, and never decreases |
| `CurveHelpers.NonDecreasingCurveFixed` | internal/smartcontrol/helpers.go:98-104 | an already non-decreasing curve is left as it is |
| `CurveHelpers.PrefixMaxWitness` | internal/smartcontrol/helpers.go:99-103 | each raised speed is one of the original speeds at or before it |
| `CurveHelpers.PrefixMaxBound` | internal/smartcontrol/helpers.go:99-103 | the raised speed at i is at least every original speed up to i |
| `CurveHelpers.PrefixMaxMonotone` | internal/smartcontrol/helpers.go:99-103 | raised speeds never decrease along the curve |
| `SmartConfig.BlendOffsets` | internal/smartcontrol/config.go:137-157 | empty when both sides are; otherwise one entry per point of the longer side, the truncated average with a missing side read as 0 |
| `SmartConfig.BlendSelfAndSymmetric` | internal/smartcontrol/config.go:137-157 | blending a side with itself gives it back, and the order of the sides does not matter |
| `SmartConfig.BlendInBounds` | internal/smartcontrol/config.go:123-127 | the blend of two in-bounds sides is in bounds |
| `SmartConfig.AverageInInterval` | internal/smartcontrol/config.go:153 | the truncated average of two values in an interval stays in it |
| `SmartConfig.OffsetsSettled` | internal/smartcontrol/config.go:89-107 | whichever of the stored or the constrained slice the code keeps is in bounds |
| `SmartConfig.ScalarsNormalizedTransfer` | internal/smartcontrol/config.go:15-70 | later steps that keep the scalars keep them normalized |
| `SmartConfig.ConstrainFixesInBounds` | internal/smartcontrol/config.go:124-127 | constraining in-bounds offsets returns them unchanged |
| `SmartConfig.ConstrainedRespectsBounds` | internal/smartcontrol/config.go:89-92 | whatever the constrain step returns for a slice no longer than the curve is in bounds |
| `SmartConfig.NormalizeScalar` | internal/smartcontrol/config.go:15-18 | an out-of-range value becomes the default and an in-range one is kept; changed exactly when replaced |
| `SmartConfig.NormalizeScalars` | internal/smartcontrol/config.go:10-70 | Learning set, every scalar in range (kept or defaulted), nothing else touched; changed exactly when something differs |
| `SmartConfig.CopyResized` | internal/smartcontrol/config.go:73-74 | `make` then `copy`: length n, the source as far as it reaches, zeros after |
| `SmartConfig.NormalizeSide` | internal/smartcontrol/config.go:79-107 | a side ends with one in-bounds entry per curve point; a side already that is kept; changed exactly when replaced |
| `SmartConfig.NormalizeStoredRates` | internal/smartcontrol/config.go:109-116 | rate biases end normalized and within the cap; normal ones are kept |
| `SmartConfig.RebuildLegacyOffsets` | internal/smartcontrol/config.go:123-131 | the legacy offsets become the blend of two in-bounds sides, in bounds themselves; changed exactly when they differ from the stored ones |
| `SmartConfig.NormalizeConfig` | internal/smartcontrol/config.go:6-134 | Learning on; scalars in range; ramp-down ≤ ramp-up + 300; sides one in-bounds entry per point; rates one capped entry per bucket; legacy = blend. Unchanged when not `changed`, and `changed` exactly when the input was not already normal (idempotent) |
| `SmartLearning.RateBucketCount` | internal/smartcontrol/learning.go:172-174 | max − min + 1 buckets |
| `SmartLearning.RateBucketIndex` | internal/smartcontrol/learning.go:176-179 | always a valid bucket |
| `SmartLearning.RateBucketIndexOrder` | internal/smartcontrol/learning.go:176-179 | changes inside the range get their own bucket, changes outside share the end buckets, and the index is monotone |
| `SmartLearning.RateBiasCap` | internal/smartcontrol/learning.go:182 | the cap lies in 80..600 |
| `SmartLearning.ClampRateBias` | internal/smartcontrol/learning.go:181-184 | within ±cap, and values inside are kept |
| `SmartLearning.NormalizeRateBiases` | internal/smartcontrol/learning.go:186-205 | one clamped entry per bucket, copied from the input; changed exactly when the result differs in length or an element |
| `SmartLearning.NormalizedRatesWithinCap` | internal/smartcontrol/learning.go:186-205 | normalized biases are within the cap, and already normal input is returned unchanged |
| `SmartLearning.ApplyDeltaAtIndex` | internal/smartcontrol/learning.go:207-221 | in place: entry idx moved and clamped to its point; true exactly when the slice changed |
| `SmartLearning.DeltaAppliedFrame` | internal/smartcontrol/learning.go:207-221 | a zero step or out-of-range index changes nothing; only entry idx can change, and it ends in bounds |
| `SmartLearning.ApplyRateBiasDeltaAtIndex` | internal/smartcontrol/learning.go:223-233 | in place: entry idx moved and clamped to the cap; true exactly when changed |
| `SmartLearning.RateDeltaAppliedFrame` | internal/smartcontrol/learning.go:223-233 | only entry idx can change, and it ends within the cap |
| `SmartLearning.ScaledDeltaShape` | internal/smartcontrol/learning.go:235-248 | for 2/3, 1/3 and 1/8: zero only for a zero step, same sign, magnitude between 1 and the step's |
| `SmartLearning.SignInt` | internal/smartcontrol/learning.go:250-258 | −1, 0 or 1 with the sign of the value |
| `SmartLearning.StepsNonZero` | internal/smartcontrol/learning.go:96-141 | a non-zero score gives a non-zero curve step in −4..6 and a non-zero rate step in −3..4, both of the score's sign |
| `SmartLearning.CompressStepNonZero` | internal/smartcontrol/learning.go:96-101 | dividing, falling back to the sign, then clamping gives a non-zero step of the score's sign |
| `SmartLearning.SmoothAndClampOffsets` | internal/smartcontrol/learning.go:260-297 | in place: equals the specified smoothing, where each entry reads the already-updated previous one; true exactly when changed |
| `SmartLearning.WeightedAverages` | internal/smartcontrol/learning.go:267-280 | a new slice holding, for each entry, the truncated weighted average of it (weight 5) and its neighbours (weight 1) |
| `SmartLearning.SmoothedOffsetsInBounds` | internal/smartcontrol/learning.go:260-297 | smoothing keeps the length and leaves every offset within its point's bounds |
| `SmartLearning.SmoothedOffsetPrefixInBounds` | internal/smartcontrol/learning.go:260-297 | every prefix of the smoothing pass leaves offsets in bounds |
| `SmartLearning.OffsetSmoothStep` | internal/smartcontrol/learning.go:284-294 | one loop iteration extends the smoothed prefix by one entry and leaves the rest untouched; the change flag tracks any difference |
| `SmartLearning.SmoothRateBiases` | internal/smartcontrol/learning.go:299-333 | in place: equals the specified smoothing; true exactly when changed |
| `SmartLearning.SmoothedRatesSmooth` | internal/smartcontrol/learning.go:299-333 | smoothing keeps the length, every bias within ±cap, and neighbours within the jump limit |
| `SmartLearning.SmoothedRatePrefixSmooth` | internal/smartcontrol/learning.go:299-333 | every prefix of the rate smoothing pass is smooth |
| `SmartLearning.NextSmoothedRateBounds` | internal/smartcontrol/learning.go:320-325 | each smoothed bias is within the cap and within the jump limit of the one before it |
| `SmartLearning.SmoothSnoc` | internal/smartcontrol/learning.go:320-329 | appending such a bias keeps the sequence smooth |
| `SmartLearning.RateSmoothStep` | internal/smartcontrol/learning.go:321-330 | one loop iteration extends the smoothed prefix by one bias and leaves the rest untouched; the change flag tracks any difference |
| `SmartLearning.MaxRateJump` | internal/smartcontrol/learning.go:320 | the jump limit lies in 12..45 |
| `SmartLearning.IsStableLearningWindow` | internal/smartcontrol/learning.go:335-351 | stable exactly when the window is non-empty and max − min ≤ max(2, range) |
| `SmartLearning.StableWindowPairwise` | internal/smartcontrol/learning.go:335-351 | stable exactly when the window is non-empty and no two temperatures differ by more than the allowed range |
| `SmartLearning.SeqMaxMinBound` | internal/smartcontrol/learning.go:339-348 | the running maximum and minimum bound every element |
| `SmartLearning.SeqMaxWitness` | internal/smartcontrol/learning.go:339-348 | the running maximum is one of the temperatures |
| `SmartLearning.SeqMinWitness` | internal/smartcontrol/learning.go:339-348 | the running minimum is one of the temperatures |
| `SmartLearning.ApplyOffsetSteps` | internal/smartcontrol/learning.go:115-134 | in place: the active side takes the spread step at idx (full, two thirds beside it, one third two away), the passive side an eighth at idx; unchanged unless reported |
| `SmartLearning.ApplyRateSteps` | internal/smartcontrol/learning.go:136-154 | in place: the active rates take the spread rate step in the bucket, the passive rates an eighth of it; unchanged unless reported |
| `SmartLearning.SmoothAll` | internal/smartcontrol/learning.go:156-167 | after smoothing, all offsets are in bounds and the biases smooth |
| `SmartLearning.ApplyLearningStep` | internal/smartcontrol/learning.go:96-167 | the active side takes the curve step at idx (and its two- and one-third shares beside it) and the rate step in its bucket; the passive side takes an eighth of each; then all four are smoothed (`SidesStep`); afterwards offsets are in bounds and biases smooth; unchanged unless reported |
| `SmartLearning.LearnStepSettled` | internal/smartcontrol/learning.go:96-167 | whatever the slices held, after a learning step the lengths are kept, every offset lies within its point's bounds and the biases are smooth |
| `SmartLearning.LearnFromScore` | internal/smartcontrol/learning.go:96-169 | the result is `LearnStep`: a rising or steady trend (`tempDelta >= 0`) makes the heating side active, a falling one the cooling side, in the rate bucket of `tempDelta`; nothing changes unless reported |
| `SmartLearning.LearnNear` | internal/smartcontrol/learning.go:47-51 | the learning step is taken at the curve point nearest to the delayed temperature, the only index `IsNearestIndex` admits; the result is in bounds and smooth |
| `SmartLearning.LearnCurveOffsets` | internal/smartcontrol/learning.go:6-170 | stored offsets with no curve; resized and normalized copies, unchanged, when learning is skipped (short history, unstable window below the margin, \|score\| < 4); otherwise exactly `LearnStep` at the nearest index to the delayed temperature, with the learning score, on the side the trend `avgTemp - lastAvgTemp` selects; in bounds and smooth |
| `SmartTarget.SelectOffsetsForTrend` | internal/smartcontrol/target.go:62-73 | equals `TrendOffsets`: heat when warming, cool when cooling (each when learned), else their blend when both exist, else the legacy offsets (bounded by `TrendOffsetsInBounds`) |
| `SmartTarget.TrendOffsetsInBounds` | internal/smartcontrol/target.go:62-73 | on a normalized configuration the chosen offsets are in bounds with one entry per point |
| `SmartTarget.SelectRateBiasesForTrend` | internal/smartcontrol/target.go:75-90 | equals `TrendRates`: the matching side when learned, else the per-bucket truncated average, else none (bounded by `TrendRatesWithinCap`) |
| `SmartTarget.TrendRatesWithinCap` | internal/smartcontrol/target.go:75-90 | the chosen biases stay within the cap, and the steady blend equals `Blend` on full slices |
| `SmartTarget.SampleRateBias` | internal/smartcontrol/target.go:92-98 | equals `SampledRateBias`, the entry of the trend bucket of the selected biases (bounded by `SampledRateBiasBounded`) |
| `SmartTarget.SampledRateBiasBounded` | internal/smartcontrol/target.go:92-98 | within the cap when both sides are; 0 when nothing is learned |
| `SmartTarget.EffectiveCurveShape` | internal/smartcontrol/target.go:10-26 | the effective curve keeps the temperatures, stays between the edge speeds and never decreases |
| `SmartTarget.EffectiveCurveWithoutOffsets` | internal/smartcontrol/target.go:10-26 | with zero offsets, a non-decreasing curve is used as it is |
| `SmartTarget.CalculateTargetRPM` | internal/smartcontrol/target.go:9-60 | 0 when the lookup gives ≤ 0; otherwise the curve speed plus the corrections, clamped to 0..4000 |
| `SmartTarget.SteadyTargetFollowsCurve` | internal/smartcontrol/target.go:33-57 | steady and inside the hysteresis band, with no rate bias, the corrections cancel |
| `SmartTarget.AdjustmentPushesTowardTarget` | internal/smartcontrol/target.go:33-57 | above the band and not cooling, the corrections add at least 12 rpm per degree plus the bias; below it and not warming, they subtract at least that |
| `SmartTarget.ApplyRampLimit` | internal/smartcontrol/target.go:101-109 | a rise is limited to upLimit and a fall to downLimit; an equal target is returned |
| `SmartTarget.RampLimitBetween` | internal/smartcontrol/target.go:101-109 | with non-negative limits the result lies between last and target, equals the target exactly when it is within reach, and otherwise moves strictly closer (the older copy at smartcontrol.go:342-350 is the same code) |
| `SmartLegacy.ResizeSide` | internal/smartcontrol/smartcontrol.go:78-98 | a side of the wrong length is rebuilt at the curve length from itself or the legacy offsets; changed exactly when the length differed; kept otherwise |
| `SmartLegacy.NormalizeOffsets` | internal/smartcontrol/smartcontrol.go:71-109 | sides resized, legacy = blend; changed exactly when not already so; unchanged otherwise |
| `SmartLegacy.NormalizeConfig` | internal/smartcontrol/smartcontrol.go:10-112 | Learning untouched; scalars in range; ramp-down capped; sides resized; legacy = blend; rates untouched. `changed` exactly when the input was not already normal |
| `SmartLegacy.LegacyEffectiveCurveShape` | internal/smartcontrol/smartcontrol.go:116-130 | the older effective curve keeps temperatures, stays within 1000..4000 and never decreases |
| `SmartLegacy.CalculateTargetRPM` | internal/smartcontrol/smartcontrol.go:115-156 | 0 exactly when the lookup gives ≤ 0; otherwise the corrected speed clamped to 1000..4000 |
| `SmartLegacy.ApplyDeltaAtIndex` | internal/smartcontrol/smartcontrol.go:299-309 | in place: entry idx moved and clamped to ±cap; true exactly when changed |
| `SmartLegacy.CapDeltaAppliedFrame` | internal/smartcontrol/smartcontrol.go:299-309 | a zero step or out-of-range index changes nothing; only entry idx changes, ending within the cap |
| `SmartLegacy.ActiveStepPointwise` | internal/smartcontrol/smartcontrol.go:240-254 | each entry moves by its share for its distance from idx (all, a half, a quarter, none) |
| `SmartLegacy.FractionBetween` | internal/smartcontrol/smartcontrol.go:243-256 | a truncated half, quarter or fifth lies between 0 and the step |
| `SmartLegacy.PointMoveBounded` | internal/smartcontrol/smartcontrol.go:303 | an in-cap entry moved by a bounded share stays in the cap and moves no more than that |
| `SmartLegacy.LegacyStepBounded` | internal/smartcontrol/smartcontrol.go:230-258 | one step keeps offsets in the cap, moves each by at most the step in its direction, passive at idx only, active within two points |
| `SmartLegacy.ApplyLegacySteps` | internal/smartcontrol/smartcontrol.go:239-258 | active and passive updates as specified; changed exactly when either slice changed |
| `SmartLegacy.ActiveStepChange` | internal/smartcontrol/smartcontrol.go:240-254 | the active step changes the slice exactly when one of its five updates does |
| `SmartLegacy.LearnAt` | internal/smartcontrol/smartcontrol.go:232-260 | the result is one legacy step at idx (`LegacyStepBounded` says what it moves); lengths kept; changed exactly when a slice changed |
| `SmartLegacy.LearnNear` | internal/smartcontrol/smartcontrol.go:199-260 | the step is taken at the nearest curve point |
| `SmartLegacy.LearnCurveOffsets` | internal/smartcontrol/smartcontrol.go:159-261 | stored offsets with no curve; resized and unchanged when skipped (short history, unstable window below the margin, \|score\| < 4); otherwise the step with the score clamped to −35..60; changed exactly when an offset moved |
| `LightRgb.ClampLightBrightness` | internal/device/rgb.go:69-77 | 0..100, the identity inside, 0 below and 100 above |
| `LightRgb.ClampLightBrightnessMonotone` | internal/device/rgb.go:69-77 | clamping is idempotent and monotone |
| `LightRgb.ParseLightSpeed` | internal/device/rgb.go:79-88 | fast gives 0x05, slow 0x0F, anything else 0x0A, each as an iff |
| `LightRgb.FirstOrDefaultColor` | internal/device/rgb.go:90-95 | white for no colours, else the first |
| `LightRgb.ToThreeColors` | internal/device/rgb.go:97-107 | three colours: the input's first ones, then the default palette |
| `LightRgb.EnsureMinColors` | internal/device/rgb.go:109-120 | unchanged when long enough; otherwise exactly `min` colours with the input as prefix and palette entry i mod 3 at position i |
| `LightRgb.ThreeColorsArePadded` | internal/device/rgb.go:97-120 | the three colours are the first three of the padding to three, and equal it for up to three inputs |
| `LightRgb.MinColorsIdempotent` | internal/device/rgb.go:109-120 | padding twice pads once |
| `LightRgb.DefaultLightStripSettled` | internal/device/rgb.go:69-107 | the default strip needs no correction: clamping keeps its brightness, its speed is the medium code 0x0A, and padding to three colours keeps its palette |
| `LightRgb.LightChecksum` | internal/device/rgb.go:122-128 | the low byte of the sum of the payload after the header, despite the 16-bit wrap of the accumulator |
| `LightRgb.LowByteOfWrapped` | internal/device/rgb.go:125-127 | wrapping the accumulator at 2^16 does not change its low byte |
| `LightRgb.LightCommandValid` | internal/device/rgb.go:130-132 | a light command carries the fields from offset 2 and its checksum byte validates |
| `LightRgb.BuildLightReport` | internal/device/rgb.go:130-136 | 65 bytes starting `02 5A A5`: report id 2, then the command, then zeros |
| `LightRgb.LightReportRoundTrip` | internal/device/rgb.go:130-136 | for up to 61 fields, the fields sit at offset 3, the command checks, and the rest is zero |
| `LightRgb.MakeLightF0` | internal/device/rgb.go:144-146 | ten bytes |
| `LightRgb.MakeLightF0RoundTrip` | internal/device/rgb.go:144-146 | the mode, speed, brightness and colour read back from their offsets; the frame starts `00 02 00` and ends in 0 |
| `RpmProbe.PySumIsSum` | scripts/rpm_rgb_probe.py:13 | Python's `sum` from the front equals the sum from the back |
| `RpmProbe.PySumAppend` | scripts/rpm_rgb_probe.py:13 | the sum of a concatenation is the sum of the sums |
| `RpmProbe.ProbeChecksum` | scripts/rpm_rgb_probe.py:12-14 | the low byte of the sum after the two header bytes; 0 for a payload of two bytes or fewer |
| `RpmProbe.ProbeCommandMatchesDevice` | scripts/rpm_rgb_probe.py:17-19 | the probe's command is the device code's command and its checksum validates |
| `RpmProbe.HexCommandRoundTrip` | scripts/rpm_rgb_probe.py:17-20 | two lower-case digits per byte, decoding back to the command |
| `RpmProbe.LittleEndian16` | scripts/rpm_rgb_probe.py:66-67 | a value in 0..65535 whose low and high bytes are the inputs |
| `RpmProbe.ParseEfReport` | scripts/rpm_rgb_probe.py:58-76 | a result exactly for reports of ≥ 12 bytes with header `01 5A A5 EF`, with bytes 3..6 copied and both speeds little-endian |
| `RpmProbe.EfReportRoundTrip` | scripts/rpm_rgb_probe.py:58-76 | an encoded status decodes back to itself, whatever follows |
| `RpmProbe.EfReportDecoded` | scripts/rpm_rgb_probe.py:58-76 | a decoded report re-encodes to its first 12 bytes |
| `RpmProbe.EncodeEfReport` | scripts/rpm_rgb_probe.py:58-76 | the inverse of the decoder lays out a 12-byte report |
| `RpmProbe.SummarizeProbeResult` | scripts/rpm_rgb_probe.py:79-113 | at most one sample per report, none exactly when no report is a 0xEF report (then the empty row); otherwise both modes are set and the raw hex has at least 24 lower-case digits |
| `RpmProbe.SummaryStep` | scripts/rpm_rgb_probe.py:80-82 | one more report adds a sample exactly when it is a 0xEF report, and then it decides the modes and the hex |
| `RpmProbe.EfReportsEmpty` | scripts/rpm_rgb_probe.py:84-95 | no report is accepted exactly when none is a 0xEF report |
| `RpmProbe.EfReportsAppend` | scripts/rpm_rgb_probe.py:80-82 | the 0xEF reports of a concatenation are those of each part, in order |
| `RpmProbe.SummariesAreHexRows` | scripts/rpm_rgb_probe.py:112 | every summary row holds a decodable raw hex string |
| `RpmProbe.MinLen` | scripts/rpm_rgb_probe.py:141 | the minimum packet length: at most every length, and attained |
| `RpmProbe.ManyValuesIffDiffers` | scripts/rpm_rgb_probe.py:143-144 | more than one value at an index exactly when two packets differ there |
| `RpmProbe.ChangedIndices` | scripts/rpm_rgb_probe.py:138-145 | none without packets; strictly ascending; below the minimum length; an index is listed exactly when the packets differ there |
| `RpmProbe.ParseTokensMeaning` | scripts/rpm_rgb_probe.py:185 | success exactly when every token is an integer literal, with their values in order; otherwise the first bad token |
| `RpmProbe.ParseRpmPoints` | scripts/rpm_rgb_probe.py:179-186 | equals `RpmPoints`: split on commas, strip, skip blanks, `int()` each in order, failing on the first part that is not an integer (see `ParseTokensMeaning`, `RpmPointsRoundTrip`) |
| `RpmProbe.BlankRpmPoints` | scripts/rpm_rgb_probe.py:181-184 | a blank text gives no points |
| `RpmProbe.RpmPointsRoundTrip` | scripts/rpm_rgb_probe.py:179-186 | reading a comma-joined list of decimal speeds gives the speeds back |
| `RpmProbe.ParseStep` | scripts/rpm_rgb_probe.py:182-186 | one loop step skips a blank part, appends the value of an integer part, or fails on any other part |
| `RpmProbe.ParseFront` | scripts/rpm_rgb_probe.py:185 | a bad first part fails with that part; a single good part gives its value |
| `RpmProbe.DecimalTokensParse` | scripts/rpm_rgb_probe.py:185 | decimal spellings read back as the speeds |
| `RpmProbe.NoCommaInDigits` | scripts/rpm_rgb_probe.py:181 | digit runs hold no comma, so they survive the split |
| `RpmProbe.DigitTokens` | scripts/rpm_rgb_probe.py:182-184 | non-empty digit runs are unchanged by the strip |
| `RpmProbe.NonEmptyKeeps` | scripts/rpm_rgb_probe.py:183-184 | with no blank part nothing is skipped |

## Left out

- Device and file I/O are not modelled: HID reads and writes, `device.Write`, `time.Sleep`, CSV and Markdown output, and the prettifier's argument parsing and file handling. The prettifier's output is a sequence of lines.
- `temperature.CalculateTargetRPM` (the plain curve lookup) is not part of this model. Both `CalculateTargetRPM` methods take it as the function parameter `lookup`.
- `rateBucketMin` and `rateBucketMax` are not part of this model. They are the constants −3 and 3, giving the seven buckets the defaults allocate; the proofs use only min ≤ max.
- `SetLightStrip`, the light handshakes and the float-scaled static, rotation, flowing and breathing frame builders (internal/device/rgb.go:16-50, 148-343) are left out. They are dispatch, device I/O and `float64` arithmetic.
- The probe's float averages and medians (`round`, `statistics.median`) are left out. `RpmProbe.SummarizeProbeResult` keeps the sample count, the modes and the raw hex only.
- `enter_smart_temp_mode` and the probe's `main` are left out. They are I/O sequences over `send_light_command`, which is modelled.
- `RpmProbe.ParseRpmPoints` accepts an optional sign followed by ASCII digits. Python's `int()` also accepts surrounding underscores between digits and non-ASCII digits; those spellings are not modelled.
- `RpmProbe` models the probe's command fields and reports as bytes (0..255). Python lists could hold larger integers, which `bytes`/`f"{b:02x}"` would reject or widen.
- Go `int` overflow is not modelled: integers are unbounded. All clamps keep the values the code produces small.
- `SmartTarget.SelectRateBiasesForTrend`, `SmartTarget.SampleRateBias` and `SmartTarget.CalculateTargetRPM` require `RatesSelectable`: Go panics with an index out of range when the temperature is steady, both rate slices are non-empty, and one is shorter than the bucket count. The model makes that case a precondition instead of modelling the panic.
- `SmartLearning.LearnCurveOffsets` and `SmartLegacy.LearnCurveOffsets` model the `len(heatOffsets) != len(curve)` re-seed from the legacy offsets (learning.go:18-25, smartcontrol.go:169-176) as written: it never fires, because the slices were just made with `len(curve)`. A missing side therefore starts at zeros, not at the legacy offsets.
- The prettifier reads `\d` and `\s` as ASCII digits and Python's whitespace set. The code writes the label line before every instruction at a labelled address (prettify_asm.py:156-163) and re-joins the tokens of a rewritten operand with `", "` (prettify_asm.py:111); the model does the same.
- `AsmPrettify` instruction addresses are unbounded naturals. Labels of addresses of 2^32 or more have more than eight digits, as in Python.
