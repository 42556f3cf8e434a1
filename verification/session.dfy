/** A program's use of the extension as a sequence of calls to its three exported
    functions, run against the module-level configuration. */
module Session {
  import opened LinePositions
  import opened Configuration
  import opened Classifier

  datatype Call =
    | InitAnalog(pin: AnalogPin)
    | InitDigital(d1: DigitalPin, d2: DigitalPin, d3: DigitalPin, d4: DigitalPin, d5: DigitalPin)
    | Query(position: LinePosition, hw: Hardware)

  /** Number of queries among the calls. */
  function QueryCount(calls: seq<Call>): nat {
    if calls == [] then 0 else (if calls[0].Query? then 1 else 0) + QueryCount(calls[1..])
  }

  /** Whether some call in the sequence initialises analog mode. */
  predicate SomeInitAnalog(calls: seq<Call>) {
    exists i :: 0 <= i < |calls| && calls[i].InitAnalog?
  }

  /** Whether some call in the sequence initialises digital mode. */
  predicate SomeInitDigital(calls: seq<Call>) {
    exists i :: 0 <= i < |calls| && calls[i].InitDigital?
  }

  /** One call: an initialiser yields the new configuration and no answer; a query
      yields one answer and leaves the configuration as it was. */
  function Step(s: State, c: Call): (r: (State, seq<bool>))
    requires Valid(s)
    ensures Valid(r.0)
    ensures c.Query? ==> r.0 == s && |r.1| == 1
    ensures !c.Query? ==> r.1 == []
  {
    match c
    case InitAnalog(pin) => (InitializeAnalog(s, pin), [])
    case InitDigital(d1, d2, d3, d4, d5) => (InitializeDigital(s, d1, d2, d3, d4, d5), [])
    case Query(position, hw) => (s, [IsLineDetectedOn(s, position, hw)])
  }

  /** Runs the calls in order, returning the final configuration and the answers of
      the queries in order. A flag ends up set iff it was set before or some call
      initialised its mode; nothing ever clears it. */
  function Run(s: State, calls: seq<Call>): (r: (State, seq<bool>))
    requires Valid(s)
    ensures Valid(r.0)
    ensures |r.1| == QueryCount(calls)
    ensures r.0.isAnalogInitialized <==> s.isAnalogInitialized || SomeInitAnalog(calls)
    ensures r.0.isDigitalInitialized <==> s.isDigitalInitialized || SomeInitDigital(calls)
    decreases |calls|
  {
    if calls == [] then (s, [])
    else
      var (s', out) := Step(s, calls[0]);
      var (final, rest) := Run(s', calls[1..]);
      assert SomeInitAnalog(calls) <==> calls[0].InitAnalog? || SomeInitAnalog(calls[1..]) by {
        if SomeInitAnalog(calls[1..]) {
          var i :| 0 <= i < |calls[1..]| && calls[1..][i].InitAnalog?;
          assert calls[i + 1].InitAnalog?;
        }
      }
      assert SomeInitDigital(calls) <==> calls[0].InitDigital? || SomeInitDigital(calls[1..]) by {
        if SomeInitDigital(calls[1..]) {
          var i :| 0 <= i < |calls[1..]| && calls[1..][i].InitDigital?;
          assert calls[i + 1].InitDigital?;
        }
      }
      (final, out + rest)
  }

  /** Classification never changes the configuration: a run of queries only ends in the
      configuration it started from, and its i-th answer is the query evaluated on that
      configuration with the i-th hardware sample. */
  lemma {:induction false} QueriesLeaveStateUnchanged(s: State, calls: seq<Call>)
    requires Valid(s)
    requires forall i :: 0 <= i < |calls| ==> calls[i].Query?
    ensures Run(s, calls).0 == s
    ensures |Run(s, calls).1| == |calls|
    ensures forall i :: 0 <= i < |calls| ==>
              Run(s, calls).1[i] == IsLineDetectedOn(s, calls[i].position, calls[i].hw)
  {
    if calls != [] {
      QueriesLeaveStateUnchanged(s, calls[1..]);
      var rest := Run(s, calls[1..]).1;
      assert Run(s, calls).1 == [IsLineDetectedOn(s, calls[0].position, calls[0].hw)] + rest;
    }
  }

  /** Running a non-empty sequence is running its first call and then the rest from the
      state that call leaves; the answers are the first call's followed by the rest's. */
  lemma RunCons(s: State, c: Call, rest: seq<Call>)
    requires Valid(s)
    ensures Run(s, [c] + rest) ==
              (Run(Step(s, c).0, rest).0, Step(s, c).1 + Run(Step(s, c).0, rest).1)
  {
    assert ([c] + rest)[0] == c;
    assert ([c] + rest)[1..] == rest;
  }

  /** A program that initialises both modes, in either order, and then asks about
      position `p` gets the analog rule's answer on the analog pin's reading. */
  lemma AnalogWinsInSession(s: State, a: AnalogPin, d1: DigitalPin, d2: DigitalPin,
                            d3: DigitalPin, d4: DigitalPin, d5: DigitalPin,
                            p: LinePosition, hw: Hardware)
    requires Valid(s)
    ensures Run(s, [InitDigital(d1, d2, d3, d4, d5), InitAnalog(a), Query(p, hw)]).1
              == [AnalogRule(p, hw.analogReadPin(a))]
    ensures Run(s, [InitAnalog(a), InitDigital(d1, d2, d3, d4, d5), Query(p, hw)]).1
              == [AnalogRule(p, hw.analogReadPin(a))]
  {
    var q := Query(p, hw);
    var di := InitDigital(d1, d2, d3, d4, d5);
    var ai := InitAnalog(a);

    var sd := Step(s, di).0;
    var sda := Step(sd, ai).0;
    RunCons(s, di, [ai, q]);
    RunCons(sd, ai, [q]);
    RunCons(sda, q, []);
    assert [di] + [ai, q] == [di, ai, q] && [ai] + [q] == [ai, q] && [q] + [] == [q];

    var sa := Step(s, ai).0;
    var sad := Step(sa, di).0;
    RunCons(s, ai, [di, q]);
    RunCons(sa, di, [q]);
    RunCons(sad, q, []);
    assert [ai] + [di, q] == [ai, di, q] && [di] + [q] == [di, q];
  }
}
