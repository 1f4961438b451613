/**
 * Outbound haptic reports: the buzz output report and the sensitivity
 * feature report, in the layout of the surface-dial-linux haptics driver.
 */
module Haptics {
  import opened Wrappers
  import opened DialReport

  /** The device's haptic waveform selector, with its wire values. */
  datatype HapticsMode = HapticsNone | HapticsBuzz | HapticsContinuous
  {
    function RawValue(): (b: Byte)
      ensures 0x02 <= b <= 0x04
    {
      match this
      case HapticsNone => 0x02
      case HapticsBuzz => 0x03
      case HapticsContinuous => 0x04
    }
  }

  /** Distinct modes have distinct wire values. */
  lemma RawValueInjective(a: HapticsMode, b: HapticsMode)
    ensures a.RawValue() == b.RawValue() ==> a == b
  {
  }

  /** Rotation steps per revolution that the sensitivity report configures. */
  const SensitivitySteps: bv16 := 360

  /**
   * The 5-byte buzz output report for a repeat count of at least one: the
   * device plays the buzz `repeatCount` times, so the wire carries one less.
   */
  function BuzzReport(repeatCount: Byte): (r: seq<Byte>)
    requires repeatCount > 0
    ensures |r| == 5 && r[0] == DialReportId
    ensures r[1] as int == repeatCount as int - 1
    ensures r[2] == HapticsBuzz.RawValue()
    ensures r[3] == 0x00 && r[4] == 0x00
  {
    [DialReportId, repeatCount - 1, HapticsBuzz.RawValue(), 0x00, 0x00]
  }

  /**
   * The 8-byte sensitivity feature report: 360 steps split little-endian
   * over bytes 1 and 2, and a haptic style of Buzz when the device should
   * tick by itself on every step, None otherwise.
   */
  function SensitivityReport(autoTriggers: bool): (r: seq<Byte>)
    ensures |r| == 8 && r[0] == DialReportId
    ensures r[1] as int + 256 * r[2] as int == SensitivitySteps as int
    ensures r[3] == 0x00
    ensures r[4] == (if autoTriggers then HapticsBuzz.RawValue() else HapticsNone.RawValue())
    ensures r[5] == 0x00 && r[6] == 0x00 && r[7] == 0x00
  {
    var stepsLo := (SensitivitySteps & 0xFF) as Byte;
    var stepsHi := ((SensitivitySteps >> 8) & 0xFF) as Byte;
    [DialReportId, stepsLo, stepsHi, 0x00, if autoTriggers then 0x03 else 0x02, 0x00, 0x00, 0x00]
  }

  /** Reads a buzz report back: the number of buzzes it asks for. */
  function BuzzRepeatCount(report: seq<Byte>): Option<nat>
  {
    if |report| == 5 && report[0] == DialReportId && report[2] == HapticsBuzz.RawValue()
       && report[3] == 0x00 && report[4] == 0x00
    then Some(report[1] as nat + 1)
    else None
  }

  lemma BuzzReportRoundTrip(repeatCount: Byte)
    requires repeatCount > 0
    ensures BuzzRepeatCount(BuzzReport(repeatCount)) == Some(repeatCount as nat)
  {
  }

  /** The settings a sensitivity report carries: steps per revolution and auto-triggering. */
  datatype Sensitivity = Sensitivity(steps: nat, autoTriggers: bool)

  /** Reads a sensitivity report back; a style byte other than None or Buzz is rejected. */
  function SensitivitySetting(report: seq<Byte>): Option<Sensitivity>
  {
    if |report| == 8 && report[0] == DialReportId && report[3] == 0x00
       && (report[4] == HapticsNone.RawValue() || report[4] == HapticsBuzz.RawValue())
       && report[5] == 0x00 && report[6] == 0x00 && report[7] == 0x00
    then Some(Sensitivity(report[1] as nat + 256 * report[2] as nat, report[4] == HapticsBuzz.RawValue()))
    else None
  }

  lemma SensitivityReportRoundTrip(autoTriggers: bool)
    ensures SensitivitySetting(SensitivityReport(autoTriggers)) == Some(Sensitivity(360, autoTriggers))
  {
  }
}
