/**
  The `Vessel` agent: a neurite element extended with one flag, `can_branch_`.
  The member has no initialiser and the default constructor does not set it,
  so the model keeps it as `Option<bool>`: `None` until the first `SetCanBranch`.
*/
module Vessels {
  import opened Wrappers
  import opened Geometry

  /** The part of a vessel that the framework's neurite element owns and updates. */
  datatype Neurite = Neurite(position: Vec3, diameter: real, terminal: bool)

  datatype Vessel = Vessel(canBranch: Option<bool>, neurite: Neurite)

  /** `CanBranch()`; `None` stands for a read of the uninitialised member. */
  function CanBranch(v: Vessel): Option<bool>
  {
    v.canBranch
  }

  /** `IsTerminal()` of the underlying neurite element. */
  function IsTerminal(v: Vessel): bool
  {
    v.neurite.terminal
  }

  /** The default constructor: the base part is whatever the framework gives, the flag is left unset. */
  function Construct(n: Neurite): (v: Vessel)
    ensures CanBranch(v).None?
    ensures v.neurite == n
  {
    Vessel(None, n)
  }

  /** `Initialize` only forwards to the base class, which replaces the neurite part. */
  function Initialize(v: Vessel, n: Neurite): (r: Vessel)
    ensures CanBranch(r) == CanBranch(v)
    ensures r.neurite == n
  {
    v.(neurite := n)
  }

  /** `SetCanBranch(b)`: the flag reads `b` afterwards and nothing else about the vessel moves. */
  function SetCanBranch(v: Vessel, b: bool): (r: Vessel)
    ensures CanBranch(r) == Some(b)
    ensures r.neurite == v.neurite
    ensures IsTerminal(r) == IsTerminal(v)
  {
    v.(canBranch := Some(b))
  }

  /** A vessel the framework creates (constructed, then initialised) has no flag until a caller sets one. */
  lemma FrameworkCreatedVesselUnset(n: Neurite, n': Neurite)
    ensures CanBranch(Initialize(Construct(n), n')).None?
  {
  }

  /** The second of two writes decides the flag. */
  lemma LastSetWins(v: Vessel, a: bool, b: bool)
    ensures SetCanBranch(SetCanBranch(v, a), b) == SetCanBranch(v, b)
  {
  }

  /** Writing back the value just read changes nothing. */
  lemma SetWhatIsRead(v: Vessel)
    requires CanBranch(v).Some?
    ensures SetCanBranch(v, CanBranch(v).value) == v
  {
  }

  /** Two vessels end equal after the same write exactly when they agreed on everything but the flag. */
  lemma SetForgetsOnlyTheFlag(v: Vessel, w: Vessel, b: bool)
    ensures SetCanBranch(v, b) == SetCanBranch(w, b) <==> v.neurite == w.neurite
  {
  }
}
