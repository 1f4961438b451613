/**
 * The Surface Dial's input report and its decoder (`Hardware.parse`).
 *
 * A type-0x01 input report is laid out as
 *   byte 0: report id 0x01
 *   byte 1: bit 0 set while the button is held down
 *   byte 2: non-zero when the dial turned since the last report
 *   byte 3: 0x00 for a clockwise step, 0xFF for a counter-clockwise one
 */
module DialReport {
  import opened Wrappers

  /** One byte of a HID report (Swift's `UInt8`). */
  type Byte = bv8

  /** USB identifiers of the Surface Dial, the only device the session opens. */
  const VendorId: bv16 := 0x045E
  const ProductId: bv16 := 0x091B

  /** Report id shared by the dial's input report and the outbound haptic reports. */
  const DialReportId: Byte := 0x01

  datatype ButtonState = Pressed | Released

  /** The rotation sense of one dial step. */
  datatype Direction = Clockwise | Counterclockwise

  datatype InputReport = Dial(button: ButtonState, direction: Option<Direction>) | Unknown
  {
    /** The text logged beside a report: only unknown reports have one. */
    function DebugMessage(): (m: Option<string>)
      ensures m.Some? <==> Unknown?
      ensures m.Some? ==> m.value == "(unknown)"
    {
      match this
      case Unknown => Some("(unknown)")
      case Dial(_, _) => None
    }
  }

  function DecodeButton(b: Byte): ButtonState
  {
    if b & 0x01 == 0x01 then Pressed else Released
  }

  /** The direction byte of a report that signals a rotation; other values decode to nothing. */
  function DecodeDirection(b: Byte): Option<Direction>
  {
    if b == 0x00 then Some(Clockwise)
    else if b == 0xFF then Some(Counterclockwise)
    else None
  }

  /**
   * The user's configured rotation polarity, as the map it induces on
   * directions (`d.multiply(globalDirection)`): any map of the two
   * directions can be written this way.
   */
  datatype Polarity = Polarity(ofClockwise: Direction, ofCounterclockwise: Direction)
  {
    function Apply(d: Direction): Direction
    {
      match d
      case Clockwise => ofClockwise
      case Counterclockwise => ofCounterclockwise
    }
  }

  /**
   * `direction?.multiply(polarity)`: a present direction goes through the
   * user's configured polarity, an absent one stays absent.
   */
  function ApplyPolarity(d: Option<Direction>, polarity: Polarity): (r: Option<Direction>)
    ensures r.None? <==> d.None?
    ensures d.Some? ==> r.value == polarity.Apply(d.value)
  {
    match d
    case None => None
    case Some(x) => Some(polarity.Apply(x))
  }

  /**
   * Decodes one input report. The caller passes at least one byte: `read`
   * only parses a buffer after the device delivered a positive byte count.
   */
  function Parse(bytes: seq<Byte>, polarity: Polarity): (r: InputReport)
    requires |bytes| >= 1
    ensures r.Unknown? <==> bytes[0] != DialReportId || |bytes| < 4
    ensures r.Dial? ==> (r.button == Pressed <==> bytes[1] & 0x01 == 0x01)
    ensures r.Dial? ==> (r.direction.None? <==> bytes[2] == 0x00 || (bytes[3] != 0x00 && bytes[3] != 0xFF))
    ensures r.Dial? && bytes[2] != 0x00 && bytes[3] == 0x00 ==> r.direction == Some(polarity.Apply(Clockwise))
    ensures r.Dial? && bytes[2] != 0x00 && bytes[3] == 0xFF ==> r.direction == Some(polarity.Apply(Counterclockwise))
  {
    if bytes[0] == DialReportId && |bytes| >= 4 then
      var button := DecodeButton(bytes[1]);
      var direction := if bytes[2] != 0x00 then DecodeDirection(bytes[3]) else None;
      Dial(button, ApplyPolarity(direction, polarity))
    else
      Unknown
  }

  /** Only the first four bytes of a report matter: whatever follows is ignored. */
  lemma ParseIgnoresTrailingBytes(bytes: seq<Byte>, polarity: Polarity)
    requires |bytes| >= 4
    ensures Parse(bytes, polarity) == Parse(bytes[..4], polarity)
  {
  }

  /** The canonical 4-byte report the dial sends for a button state and a rotation step. */
  function EncodeDial(button: ButtonState, direction: Option<Direction>): (bytes: seq<Byte>)
    ensures |bytes| == 4 && bytes[0] == DialReportId
  {
    [ DialReportId,
      if button == Pressed then 0x01 else 0x00,
      if direction.Some? then 0x01 else 0x00,
      if direction == Some(Counterclockwise) then 0xFF else 0x00 ]
  }

  /** Decoding the canonical report gives back its contents, with the polarity applied. */
  lemma ParseEncodeDial(button: ButtonState, direction: Option<Direction>, polarity: Polarity)
    ensures Parse(EncodeDial(button, direction), polarity) == Dial(button, ApplyPolarity(direction, polarity))
  {
    var bytes := EncodeDial(button, direction);
    assert DecodeButton(bytes[1]) == button;
    match direction
    case None =>
    case Some(Clockwise) =>
      assert bytes[3] == 0x00;
    case Some(Counterclockwise) =>
      assert bytes[3] == 0xFF;
  }

  /** Every report that decodes as a dial report decodes as some canonical report does. */
  lemma DialReportsAreCanonical(bytes: seq<Byte>, polarity: Polarity)
    requires |bytes| >= 1 && Parse(bytes, polarity).Dial?
    ensures exists d :: Parse(bytes, polarity) == Parse(EncodeDial(Parse(bytes, polarity).button, d), polarity)
  {
    var raw := if bytes[2] != 0x00 then DecodeDirection(bytes[3]) else None;
    ParseEncodeDial(Parse(bytes, polarity).button, raw, polarity);
  }

  /** Decoding examples: a press with a clockwise step, a counter-clockwise step, no rotation, bad inputs. */
  lemma ParseExamples(polarity: Polarity)
    ensures Parse([0x01, 0x01, 0x01, 0x00], polarity) == Dial(Pressed, Some(polarity.Apply(Clockwise)))
    ensures Parse([0x01, 0x00, 0x01, 0xFF], polarity) == Dial(Released, Some(polarity.Apply(Counterclockwise)))
    ensures forall b: Byte :: Parse([0x01, 0x00, 0x00, b], polarity) == Dial(Released, None)
    ensures Parse([0x01, 0x01, 0x01, 0x7F], polarity) == Dial(Pressed, None)
    ensures Parse([0x01, 0x01, 0x01], polarity) == Unknown
    ensures Parse([0x02, 0x01, 0x01, 0x00], polarity) == Unknown
  {
  }
}
