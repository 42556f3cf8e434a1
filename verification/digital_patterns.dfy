/** What the digital rule table answers for each pattern of five readings. Single
    positions test their own sensor only; None and All test the whole pattern. */
module DigitalPatterns {
  import opened LinePositions
  import opened Classifier

  /** Every reading of the pattern equals `b`. */
  predicate Uniform(bits: seq<int>, b: int) {
    forall i :: 0 <= i < |bits| ==> bits[i] == b
  }

  /** The positions whose digital rule holds for the pattern. */
  function DigitalMatches(bits: seq<int>): set<LinePosition>
    requires |bits| == 5
  {
    set p | p in AllPositions && DigitalRule(p, bits)
  }

  /** The single positions whose sensor reads 1. */
  function SetBitPositions(bits: seq<int>): set<LinePosition>
    requires |bits| == 5
  {
    set i: nat | i < 5 && bits[i] == 1 :: SensorAt(i)
  }

  lemma NoneIffAllZero(bits: seq<int>)
    requires |bits| == 5
    ensures DigitalRule(None, bits) <==> Uniform(bits, 0)
  {
  }

  lemma AllIffAllOne(bits: seq<int>)
    requires |bits| == 5
    ensures DigitalRule(All, bits) <==> Uniform(bits, 1)
  {
  }

  lemma NoneAndAllExclusive(bits: seq<int>)
    requires |bits| == 5
    ensures !(DigitalRule(None, bits) && DigitalRule(All, bits))
  {
  }

  /** A single position is answered by its own sensor reading 1. */
  lemma SingleReadsOwnPin(p: LinePosition, bits: seq<int>)
    requires |bits| == 5
    requires IsSingle(p)
    ensures DigitalRule(p, bits) <==> bits[SensorIndex(p)] == 1
  {
  }

  /** Changing the other four readings does not change a single position's answer. */
  lemma SingleIgnoresOtherPins(p: LinePosition, bits: seq<int>, bits': seq<int>)
    requires |bits| == 5 && |bits'| == 5
    requires IsSingle(p)
    requires bits[SensorIndex(p)] == bits'[SensorIndex(p)]
    ensures DigitalRule(p, bits) == DigitalRule(p, bits')
  {
  }

  lemma AllImpliesEverySingle(p: LinePosition, bits: seq<int>)
    requires |bits| == 5
    requires IsSingle(p)
    requires DigitalRule(All, bits)
    ensures DigitalRule(p, bits)
  {
  }

  lemma NoneExcludesEverySingle(p: LinePosition, bits: seq<int>)
    requires |bits| == 5
    requires IsSingle(p)
    requires DigitalRule(None, bits)
    ensures !DigitalRule(p, bits)
  {
  }

  /** The full answer to all seven queries: the positions of the sensors reading 1,
      plus None for an all-zero and All for an all-one pattern. Two to four readings
      of 1 therefore make that many single-position queries true. */
  lemma DigitalMatchesCharacterised(bits: seq<int>)
    requires |bits| == 5
    ensures DigitalMatches(bits) ==
              SetBitPositions(bits)
              + (if Uniform(bits, 0) then {None} else {})
              + (if Uniform(bits, 1) then {All} else {})
  {
    var extra := (if Uniform(bits, 0) then {None} else {}) + (if Uniform(bits, 1) then {All} else {});
    forall p | p in AllPositions
      ensures p in DigitalMatches(bits) <==> p in SetBitPositions(bits) + extra
    {
      if IsSingle(p) {
        SensorAtIndex(p);
        assert p in SetBitPositions(bits) <==> bits[SensorIndex(p)] == 1;
      }
    }
    forall p | p in SetBitPositions(bits) + extra
      ensures p in AllPositions
    {
      AllPositionsComplete(p);
    }
  }

  /** A pattern with one sensor reading 1 and the other four reading 0 answers exactly one query:
      the single position of that sensor. */
  lemma OneHotSelectsOne(bits: seq<int>, k: nat)
    requires |bits| == 5
    requires k < 5 && bits[k] == 1
    requires forall i :: 0 <= i < 5 && i != k ==> bits[i] == 0
    ensures DigitalMatches(bits) == {SensorAt(k)}
    ensures |DigitalMatches(bits)| == 1
  {
    DigitalMatchesCharacterised(bits);
    assert !Uniform(bits, 0) by { assert bits[k] != 0; }
    assert !Uniform(bits, 1) by {
      var j := if k == 0 then 1 else 0;
      assert bits[j] != 1;
    }
    forall p | p in SetBitPositions(bits)
      ensures p == SensorAt(k)
    {
      var i: nat :| i < 5 && bits[i] == 1 && p == SensorAt(i);
      assert i == k;
    }
    assert SensorAt(k) in SetBitPositions(bits);
  }

  /** Readings (L, CL, C, CR, R) = (1, 1, 0, 0, 0): both FarLeft and Left answer true,
      nothing else does. */
  lemma TwoBitExample()
    ensures DigitalMatches([1, 1, 0, 0, 0]) == {FarLeft, Left}
  {
    var bits := [1, 1, 0, 0, 0];
    DigitalMatchesCharacterised(bits);
    assert !Uniform(bits, 0) by { assert bits[0] != 0; }
    assert !Uniform(bits, 1) by { assert bits[2] != 1; }
    assert SensorAt(0) == FarLeft && SensorAt(1) == Left;
    assert SetBitPositions(bits) == {FarLeft, Left} by {
      forall p | p in SetBitPositions(bits)
        ensures p == FarLeft || p == Left
      {
        var i: nat :| i < 5 && bits[i] == 1 && p == SensorAt(i);
        assert i < 2;
      }
      assert SensorAt(0) in SetBitPositions(bits);
      assert SensorAt(1) in SetBitPositions(bits);
    }
  }
}
