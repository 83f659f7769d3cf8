/**
  `TumourGrowth_BM::Run`: a cell grows while its diameter is at most 12 and
  divides once it is larger; any other agent is left alone.
*/
module TumourGrowth {
  import opened Effects
  import opened Population

  /** Largest diameter at which a cell still grows instead of dividing. */
  const DivisionDiameter: real := 12.0
  /** Volume change speed passed to `ChangeVolume`. */
  const GrowthSpeed: real := 200.0

  /** One run: the calls made on the agent. */
  function Run(a: Agent): (r: seq<Effect>)
    ensures |r| <= 1
    ensures r == [] <==> !a.CellAgent?
    ensures a.CellAgent? ==> (r == [ChangeVolume(GrowthSpeed)] <==> a.cell.diameter <= DivisionDiameter)
    ensures a.CellAgent? ==> (r == [Divide] <==> a.cell.diameter > DivisionDiameter)
  {
    if a.CellAgent? then
      if a.cell.diameter <= DivisionDiameter then [ChangeVolume(GrowthSpeed)] else [Divide]
    else []
  }

  /** The rule is a threshold: a cell that divides would also divide at any larger diameter, and one that grows at any smaller. */
  lemma ThresholdMonotone(c: Cell, d: Cell)
    requires c.diameter <= d.diameter
    ensures Run(CellAgent(c)) == [Divide] ==> Run(CellAgent(d)) == [Divide]
    ensures Run(CellAgent(d)) == [ChangeVolume(GrowthSpeed)] ==> Run(CellAgent(c)) == [ChangeVolume(GrowthSpeed)]
  {
  }

  /** The rule reads only the diameter: position plays no part. */
  lemma OnlyDiameterMatters(c: Cell, d: Cell)
    requires c.diameter == d.diameter
    ensures Run(CellAgent(c)) == Run(CellAgent(d))
  {
  }

  /** The comparison is not strict: a cell of diameter exactly 12 still grows. */
  lemma BoundaryGrows(c: Cell)
    requires c.diameter == DivisionDiameter
    ensures Run(CellAgent(c)) == [ChangeVolume(GrowthSpeed)]
  {
  }
}
