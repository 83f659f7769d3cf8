/**
  `VegfSecretion_BM::Run`: a cell secretes one unit of VEGF at its own
  position unless some vessel lies strictly closer than squared distance 16.
*/
module VegfSecretion {
  import opened Wrappers
  import opened Geometry
  import opened Vessels
  import opened Effects
  import opened Population

  /** Squared radius of the vicinity that suppresses secretion (distance 4). */
  const VicinitySquared: real := 16.0
  /** Amount added to the grid at the cell's position per run. */
  const SecretedAmount: real := 1.0

  /** The behaviour ran on an agent that is not a `Cell`: the source dereferences a null `dynamic_cast`. */
  datatype SecretionError = NotACell

  /** Agent `a` is a vessel strictly inside the vicinity of `position`. */
  predicate VesselNear(position: Vec3, a: Agent)
  {
    a.VesselAgent? && SquaredDistance(position, a.vessel.neurite.position) < VicinitySquared
  }

  /** Some agent of the population is a vessel inside the vicinity. */
  predicate VesselNearby(position: Vec3, agents: seq<Agent>)
  {
    exists i :: 0 <= i < |agents| && VesselNear(position, agents[i])
  }

  /** The scan over every agent of the population, as the source's `ForEachAgent` loop. */
  method ScanVicinity(position: Vec3, agents: seq<Agent>) returns (found: bool)
    ensures found <==> VesselNearby(position, agents)
  {
    found := false;
    var i := 0;
    while i < |agents|
      invariant 0 <= i <= |agents|
      invariant found <==> exists j :: 0 <= j < i && VesselNear(position, agents[j])
    {
      if agents[i].VesselAgent? {
        var vesselPosition := agents[i].vessel.neurite.position;
        if SquaredDistance(position, vesselPosition) < VicinitySquared {
          found := true;
        }
      }
      i := i + 1;
    }
  }

  /** One run: the calls the behaviour makes on the diffusion grid. */
  function Run(self: Agent, agents: seq<Agent>): (r: Result<seq<Effect>, SecretionError>)
    ensures r.Failure? <==> !self.CellAgent?
    ensures r.Success? ==> |r.value| <= 1
    ensures r.Success? ==> (r.value == [Inject(self.cell.position, SecretedAmount)] <==> !VesselNearby(self.cell.position, agents))
    ensures r.Success? ==> (r.value == [] <==> VesselNearby(self.cell.position, agents))
  {
    if !self.CellAgent? then Failure(NotACell)
    else if VesselNearby(self.cell.position, agents) then Success([])
    else Success([Inject(self.cell.position, SecretedAmount)])
  }

  /** The run as the source computes it: scan, then inject only if nothing was found. */
  method Secrete(self: Agent, agents: seq<Agent>) returns (r: Result<seq<Effect>, SecretionError>)
    ensures r == Run(self, agents)
  {
    if !self.CellAgent? {
      return Failure(NotACell);
    }
    var position := self.cell.position;
    var nearby := ScanVicinity(position, agents);
    if !nearby {
      r := Success([Inject(position, SecretedAmount)]);
    } else {
      r := Success([]);
    }
  }

  /** Whether a vessel is nearby depends only on which agents the population holds. */
  lemma NearbyIsMembership(position: Vec3, agents: seq<Agent>)
    ensures VesselNearby(position, agents) <==> exists a :: a in multiset(agents) && VesselNear(position, a)
  {
    if exists a :: a in multiset(agents) && VesselNear(position, a) {
      var a :| a in multiset(agents) && VesselNear(position, a);
      assert a in agents;
      var i :| 0 <= i < |agents| && agents[i] == a;
    }
  }

  /** The scan order of the population does not matter: any permutation gives the same run. */
  lemma ScanOrderIrrelevant(self: Agent, agents: seq<Agent>, reordered: seq<Agent>)
    requires multiset(agents) == multiset(reordered)
    ensures Run(self, agents) == Run(self, reordered)
  {
    if self.CellAgent? {
      NearbyIsMembership(self.cell.position, agents);
      NearbyIsMembership(self.cell.position, reordered);
    }
  }

  /** Agents that are not vessels never suppress secretion. */
  lemma NonVesselsIgnored(self: Agent, before: seq<Agent>, a: Agent, after: seq<Agent>)
    requires !a.VesselAgent?
    ensures Run(self, before + [a] + after) == Run(self, before + after)
  {
    if self.CellAgent? {
      var p := self.cell.position;
      NearbyIsMembership(p, before + [a] + after);
      NearbyIsMembership(p, before + after);
      assert multiset(before + [a] + after) == multiset(before + after) + multiset{a};
    }
  }

  /** One vessel in the vicinity suppresses secretion however many other agents there are. */
  lemma OneNearVesselSuppresses(self: Agent, before: seq<Agent>, v: Vessel, after: seq<Agent>)
    requires self.CellAgent?
    requires SquaredDistance(self.cell.position, v.neurite.position) < VicinitySquared
    ensures Run(self, before + [VesselAgent(v)] + after) == Success([])
  {
    var agents := before + [VesselAgent(v)] + after;
    assert agents[|before|] == VesselAgent(v);
  }

  /** A cell secretes exactly one unit at its own position when no agent is a vessel. */
  lemma NoVesselsMeansSecretion(self: Agent, agents: seq<Agent>)
    requires self.CellAgent?
    requires forall i :: 0 <= i < |agents| ==> !agents[i].VesselAgent?
    ensures Run(self, agents) == Success([Inject(self.cell.position, SecretedAmount)])
  {
  }

  /**
    The vicinity is open: a vessel at squared distance exactly 16 does not
    suppress secretion, wherever it sits around the cell.
  */
  lemma VicinityBoundaryExcluded(self: Agent, before: seq<Agent>, v: Vessel, after: seq<Agent>)
    requires self.CellAgent?
    requires SquaredDistance(self.cell.position, v.neurite.position) == VicinitySquared
    requires !VesselNearby(self.cell.position, before) && !VesselNearby(self.cell.position, after)
    ensures Run(self, before + [VesselAgent(v)] + after) == Success([Inject(self.cell.position, SecretedAmount)])
  {
    var p := self.cell.position;
    var agents := before + [VesselAgent(v)] + after;
    forall i | 0 <= i < |agents|
      ensures !VesselNear(p, agents[i])
    {
      if i < |before| {
        assert agents[i] == before[i];
      } else if i > |before| {
        assert agents[i] == after[i - |before| - 1];
      }
    }
  }
}
