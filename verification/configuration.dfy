/** The module-level configuration of the Maker Line extension: one flag and one pin
    slot per acquisition mode. The two halves are independent, so both modes may be
    initialised at the same time. */
module Configuration {

  /** A variable declared without an initial value (`undefined` until assigned). */
  datatype Option<T> = Unassigned | Assigned(value: T)

  /** Pin identities; no logic of the extension inspects them. */
  datatype AnalogPin = AnalogPin(id: int)
  datatype DigitalPin = DigitalPin(id: int)

  datatype State = State(
    isAnalogInitialized: bool,
    analogSensorPin: Option<AnalogPin>,
    isDigitalInitialized: bool,
    digitalSensorPins: seq<DigitalPin>)

  /** What the classifier relies on: a set flag comes with the pins it needs. */
  predicate Valid(s: State) {
    && (s.isAnalogInitialized ==> s.analogSensorPin.Assigned?)
    && (s.isDigitalInitialized ==> |s.digitalSensorPins| == 5)
  }

  /** The state before any initialiser has run. */
  function Initial(): (s: State)
    ensures Valid(s)
    ensures !s.isAnalogInitialized && !s.isDigitalInitialized
    ensures s.analogSensorPin.Unassigned? && s.digitalSensorPins == []
  {
    State(false, Unassigned, false, [])
  }

  /** Analog mode: remember the pin and raise the analog flag; the digital half is untouched. */
  function InitializeAnalog(s: State, pin: AnalogPin): (r: State)
    ensures r.isAnalogInitialized && r.analogSensorPin == Assigned(pin)
    ensures r.isDigitalInitialized == s.isDigitalInitialized
    ensures r.digitalSensorPins == s.digitalSensorPins
    ensures Valid(s) ==> Valid(r)
  {
    s.(analogSensorPin := Assigned(pin), isAnalogInitialized := true)
  }

  /** Digital mode: store the five pins in argument order and raise the digital flag;
      the analog half is untouched. */
  function InitializeDigital(s: State, d1: DigitalPin, d2: DigitalPin, d3: DigitalPin,
                             d4: DigitalPin, d5: DigitalPin): (r: State)
    ensures r.isDigitalInitialized
    ensures |r.digitalSensorPins| == 5
    ensures r.digitalSensorPins[0] == d1 && r.digitalSensorPins[1] == d2
    ensures r.digitalSensorPins[2] == d3 && r.digitalSensorPins[3] == d4
    ensures r.digitalSensorPins[4] == d5
    ensures r.isAnalogInitialized == s.isAnalogInitialized
    ensures r.analogSensorPin == s.analogSensorPin
    ensures Valid(s) ==> Valid(r)
  {
    s.(digitalSensorPins := [d1, d2, d3, d4, d5], isDigitalInitialized := true)
  }
}
