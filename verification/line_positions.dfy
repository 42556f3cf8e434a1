/** The seven line positions a caller can ask about, and where the single positions
    sit in the five-sensor array of the Maker Line module. */
module LinePositions {

  /** The positions in the declaration order of the source enumeration (FarLeft = 0 .. None = 6). */
  datatype LinePosition = FarLeft | Left | Center | Right | FarRight | All | None

  /** Every position; used to collect the answers of all seven queries as a set. */
  const AllPositions: set<LinePosition> := {FarLeft, Left, Center, Right, FarRight, All, None}

  lemma AllPositionsComplete(p: LinePosition)
    ensures p in AllPositions
  {
  }

  /** A position that names one sensor rather than a whole-array pattern. */
  predicate IsSingle(p: LinePosition) {
    p != All && p != None
  }

  /** Index, in the stored digital pin list, of the sensor a single position reads:
      far left is the first pin (d1) and far right the fifth (d5). */
  function SensorIndex(p: LinePosition): (i: nat)
    requires IsSingle(p)
    ensures i < 5
  {
    if p == FarLeft then 0
    else if p == Left then 1
    else if p == Center then 2
    else if p == Right then 3
    else 4
  }

  /** The single position whose sensor is the pin at index `i`. */
  function SensorAt(i: nat): (p: LinePosition)
    requires i < 5
    ensures IsSingle(p)
    ensures SensorIndex(p) == i
  {
    [FarLeft, Left, Center, Right, FarRight][i]
  }

  /** Sensor indices and single positions are in one-to-one correspondence. */
  lemma SensorAtIndex(p: LinePosition)
    requires IsSingle(p)
    ensures SensorAt(SensorIndex(p)) == p
  {
  }
}
