/** The position query `isLineDetectedOn`: analog mode first, then digital mode,
    otherwise a silent `false`. */
module Classifier {
  import opened LinePositions
  import opened Configuration

  /** The host's acquisition capability: one analog conversion or one binary read of a pin.
      A query reads afresh through it every time it is asked. */
  datatype Hardware = Hardware(analogReadPin: AnalogPin -> int, digitalReadPin: DigitalPin -> int)

  /** The analog rule table: the band of readings that answers `position`. */
  predicate AnalogRule(position: LinePosition, analogValue: int) {
    match position
    case None => analogValue < 81
    case FarLeft => analogValue >= 81 && analogValue < 266
    case Left => analogValue >= 266 && analogValue < 430
    case Center => analogValue >= 430 && analogValue <= 593
    case Right => analogValue > 593 && analogValue <= 757
    case FarRight => analogValue > 757 && analogValue <= 941
    case All => analogValue > 941
  }

  /** The digital rule table over the five readings, listed in stored pin order:
      L is the first pin's reading and R the fifth's. */
  predicate DigitalRule(position: LinePosition, bits: seq<int>)
    requires |bits| == 5
  {
    var L, CL, C, CR, R := bits[0], bits[1], bits[2], bits[3], bits[4];
    match position
    case None => L == 0 && CL == 0 && C == 0 && CR == 0 && R == 0
    case FarLeft => L == 1
    case Left => CL == 1
    case Center => C == 1
    case Right => CR == 1
    case FarRight => R == 1
    case All => L == 1 && CL == 1 && C == 1 && CR == 1 && R == 1
  }

  /** One binary read of each stored pin. */
  function DigitalSample(pins: seq<DigitalPin>, hw: Hardware): (bits: seq<int>)
    requires |pins| == 5
    ensures |bits| == 5
    ensures forall i :: 0 <= i < 5 ==> bits[i] == hw.digitalReadPin(pins[i])
  {
    [hw.digitalReadPin(pins[0]), hw.digitalReadPin(pins[1]), hw.digitalReadPin(pins[2]),
     hw.digitalReadPin(pins[3]), hw.digitalReadPin(pins[4])]
  }

  /** Whether the line is at `position` now. The answer is a value: the configuration
      is read, never written. */
  function IsLineDetectedOn(s: State, position: LinePosition, hw: Hardware): (r: bool)
    requires Valid(s)
    ensures !s.isAnalogInitialized && !s.isDigitalInitialized ==> !r
  {
    if s.isAnalogInitialized then
      AnalogRule(position, hw.analogReadPin(s.analogSensorPin.value))
    else if s.isDigitalInitialized then
      DigitalRule(position, DigitalSample(s.digitalSensorPins, hw))
    else
      false
  }
}
