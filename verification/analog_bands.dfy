/** An independent, table-driven description of the analog bands: the seven positions
    in ascending order of reading, separated by six lower edges. A reading belongs to
    the band whose index is the number of edges at or below it. */
module AnalogBands {
  import opened LinePositions
  import opened Classifier

  /** Lowest reading of every band above None, in ascending order. Center ends at 593
      inclusive, so Right starts at 594; likewise FarRight starts at 758. */
  const LowerEdges: seq<int> := [81, 266, 430, 594, 758, 942]

  /** The bands from lowest to highest reading. */
  const BandOrder: seq<LinePosition> := [None, FarLeft, Left, Center, Right, FarRight, All]

  predicate Ascending(edges: seq<int>) {
    forall i, j :: 0 <= i < j < |edges| ==> edges[i] < edges[j]
  }

  /** Number of edges at or below `v`. */
  function EdgesBelow(edges: seq<int>, v: int): (n: nat)
    ensures n <= |edges|
  {
    if edges == [] then 0
    else (if edges[0] <= v then 1 else 0) + EdgesBelow(edges[1..], v)
  }

  /** For ascending edges, exactly `k` edges lie at or below `v` iff `v` lies in the
      k-th gap: at or above edge k-1 and below edge k. */
  lemma {:induction false} EdgesBelowExact(edges: seq<int>, v: int, k: nat)
    requires Ascending(edges)
    requires k <= |edges|
    ensures EdgesBelow(edges, v) == k <==>
              (k == 0 || edges[k - 1] <= v) && (k == |edges| || v < edges[k])
  {
    if edges != [] {
      assert Ascending(edges[1..]);
      if k == 0 {
        EdgesBelowExact(edges[1..], v, 0);
        if v < edges[0] {
          EdgesBelowZero(edges, v);
        }
      } else {
        EdgesBelowExact(edges[1..], v, k - 1);
        if v < edges[0] {
          EdgesBelowZero(edges, v);
        }
      }
    }
  }

  /** Below the lowest edge of an ascending table no edge counts. */
  lemma {:induction false} EdgesBelowZero(edges: seq<int>, v: int)
    requires Ascending(edges)
    requires edges != [] && v < edges[0]
    ensures EdgesBelow(edges, v) == 0
  {
    if |edges| > 1 {
      assert Ascending(edges[1..]);
      EdgesBelowZero(edges[1..], v);
    }
  }

  /** The band a reading falls in, read off the table. */
  function Band(v: int): (p: LinePosition)
  {
    BandOrder[EdgesBelow(LowerEdges, v)]
  }

  /** The positions whose analog rule holds for reading `v`. */
  function AnalogMatches(v: int): set<LinePosition> {
    set p | p in AllPositions && AnalogRule(p, v)
  }

  /** The rule table of the query and the edge table agree: a position's rule holds
      exactly for the readings in that position's band. */
  lemma {:induction false} AnalogRuleIsBand(p: LinePosition, v: int)
    ensures AnalogRule(p, v) <==> Band(v) == p
  {
    assert Ascending(LowerEdges);
    var k := EdgesBelow(LowerEdges, v);
    EdgesBelowExact(LowerEdges, v, k);
  }

  /** Every reading answers exactly one of the seven analog queries. */
  lemma AnalogPartition(v: int)
    ensures AnalogMatches(v) == {Band(v)}
    ensures |AnalogMatches(v)| == 1
  {
    forall p | p in AllPositions
      ensures p in AnalogMatches(v) <==> p == Band(v)
    {
      AnalogRuleIsBand(p, v);
    }
    AllPositionsComplete(Band(v));
  }

  /** The band edges, reading by reading. */
  lemma AnalogBoundaries()
    ensures Band(80) == None && Band(81) == FarLeft
    ensures Band(265) == FarLeft && Band(266) == Left
    ensures Band(429) == Left && Band(430) == Center
    ensures Band(593) == Center && Band(594) == Right
    ensures Band(757) == Right && Band(758) == FarRight
    ensures Band(941) == FarRight && Band(942) == All
  {
    AnalogRuleIsBand(None, 80);
    AnalogRuleIsBand(FarLeft, 81);
    AnalogRuleIsBand(FarLeft, 265);
    AnalogRuleIsBand(Left, 266);
    AnalogRuleIsBand(Left, 429);
    AnalogRuleIsBand(Center, 430);
    AnalogRuleIsBand(Center, 593);
    AnalogRuleIsBand(Right, 594);
    AnalogRuleIsBand(Right, 757);
    AnalogRuleIsBand(FarRight, 758);
    AnalogRuleIsBand(FarRight, 941);
    AnalogRuleIsBand(All, 942);
  }
}
