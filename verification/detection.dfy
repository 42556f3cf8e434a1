/** Properties of the position query over a whole configuration: which mode decides,
    and what each mode's answer depends on. */
module Detection {
  import opened LinePositions
  import opened Configuration
  import opened Classifier
  import AnalogBands
  import DigitalPatterns

  /** Before any initialiser has run, every query answers false. */
  lemma InitialAnswersFalse(p: LinePosition, hw: Hardware)
    ensures !IsLineDetectedOn(Initial(), p, hw)
  {
  }

  /** With the analog flag set, the answer is whether the analog reading of the analog
      pin lies in the band of `p`; the digital flag, pins and readings play no part. */
  lemma AnalogModeAnswersBand(s: State, p: LinePosition, hw: Hardware)
    requires Valid(s) && s.isAnalogInitialized
    ensures IsLineDetectedOn(s, p, hw) <==>
              AnalogBands.Band(hw.analogReadPin(s.analogSensorPin.value)) == p
  {
    AnalogBands.AnalogRuleIsBand(p, hw.analogReadPin(s.analogSensorPin.value));
  }

  /** Analog precedence: two analog-initialised configurations on the same analog pin,
      read through hardware that agrees on that pin, answer every query alike, whatever
      their digital halves and digital readings are. */
  lemma AnalogPrecedence(s1: State, s2: State, p: LinePosition, hw1: Hardware, hw2: Hardware)
    requires Valid(s1) && Valid(s2)
    requires s1.isAnalogInitialized && s2.isAnalogInitialized
    requires s1.analogSensorPin == s2.analogSensorPin
    requires hw1.analogReadPin(s1.analogSensorPin.value) == hw2.analogReadPin(s2.analogSensorPin.value)
    ensures IsLineDetectedOn(s1, p, hw1) == IsLineDetectedOn(s2, p, hw2)
  {
    AnalogModeAnswersBand(s1, p, hw1);
    AnalogModeAnswersBand(s2, p, hw2);
  }

  /** In analog mode exactly one of the seven queries answers true. */
  lemma AnalogModeExactlyOne(s: State, hw: Hardware)
    requires Valid(s) && s.isAnalogInitialized
    ensures |set p | p in AllPositions && IsLineDetectedOn(s, p, hw)| == 1
  {
    var v := hw.analogReadPin(s.analogSensorPin.value);
    AnalogBands.AnalogPartition(v);
    assert (set p | p in AllPositions && IsLineDetectedOn(s, p, hw)) == AnalogBands.AnalogMatches(v);
  }

  /** In digital mode a single position is answered by one binary read of its own pin:
      far left reads the first stored pin (d1) and far right the fifth (d5). */
  lemma DigitalModeReadsOwnPin(s: State, p: LinePosition, hw: Hardware)
    requires Valid(s) && !s.isAnalogInitialized && s.isDigitalInitialized
    requires IsSingle(p)
    ensures IsLineDetectedOn(s, p, hw) <==>
              hw.digitalReadPin(s.digitalSensorPins[SensorIndex(p)]) == 1
  {
    DigitalPatterns.SingleReadsOwnPin(p, DigitalSample(s.digitalSensorPins, hw));
  }

  /** In digital mode None answers true iff every pin reads 0, and All iff every pin reads 1. */
  lemma DigitalModeWholePattern(s: State, hw: Hardware)
    requires Valid(s) && !s.isAnalogInitialized && s.isDigitalInitialized
    ensures IsLineDetectedOn(s, None, hw) <==>
              forall i :: 0 <= i < 5 ==> hw.digitalReadPin(s.digitalSensorPins[i]) == 0
    ensures IsLineDetectedOn(s, All, hw) <==>
              forall i :: 0 <= i < 5 ==> hw.digitalReadPin(s.digitalSensorPins[i]) == 1
  {
    var bits := DigitalSample(s.digitalSensorPins, hw);
    DigitalPatterns.NoneIffAllZero(bits);
    DigitalPatterns.AllIffAllOne(bits);
  }

  /** Initialising both modes, in either order, leaves analog mode in charge: every query
      answers by the analog rule on the analog pin's reading. */
  lemma AnalogWinsEitherOrder(s: State, a: AnalogPin, d1: DigitalPin, d2: DigitalPin,
                              d3: DigitalPin, d4: DigitalPin, d5: DigitalPin,
                              p: LinePosition, hw: Hardware)
    requires Valid(s)
    ensures IsLineDetectedOn(InitializeDigital(InitializeAnalog(s, a), d1, d2, d3, d4, d5), p, hw)
              == AnalogRule(p, hw.analogReadPin(a))
    ensures IsLineDetectedOn(InitializeAnalog(InitializeDigital(s, d1, d2, d3, d4, d5), a), p, hw)
              == AnalogRule(p, hw.analogReadPin(a))
  {
  }

  /** An analog reading of 500 is Center and not Left. */
  lemma AnalogReading500(s: State, hw: Hardware)
    requires Valid(s) && s.isAnalogInitialized
    requires hw.analogReadPin(s.analogSensorPin.value) == 500
    ensures IsLineDetectedOn(s, Center, hw)
    ensures !IsLineDetectedOn(s, Left, hw)
  {
  }

  /** Digital readings (0, 0, 1, 0, 0) are Center, and neither All nor None. */
  lemma DigitalCenterOnly(s: State, hw: Hardware)
    requires Valid(s) && !s.isAnalogInitialized && s.isDigitalInitialized
    requires DigitalSample(s.digitalSensorPins, hw) == [0, 0, 1, 0, 0]
    ensures IsLineDetectedOn(s, Center, hw)
    ensures !IsLineDetectedOn(s, All, hw) && !IsLineDetectedOn(s, None, hw)
  {
  }
}
