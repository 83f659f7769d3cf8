/**
  The agents a behaviour can meet when it scans the simulation: vessels, cells
  (the tumour cell and the neuron soma the vessel grows from are both cells)
  and anything else the framework holds.
*/
module Population {
  import opened Geometry
  import opened Vessels

  /** The state of a framework `Cell` that the behaviours read. */
  datatype Cell = Cell(position: Vec3, diameter: real)

  /** An agent as seen through `dynamic_cast`: a `Vessel`, a `Cell`, or neither. */
  datatype Agent =
    | VesselAgent(vessel: Vessel)
    | CellAgent(cell: Cell)
    | OtherAgent(position: Vec3)
}
