/**
  Calls a behaviour makes into the framework, recorded as a trace instead of
  being executed, and a replay of that trace into the agents it creates.
*/
module Effects {
  import opened Wrappers
  import opened Geometry
  import opened Vessels

  /** Which vessel a call is made on: the one running the behaviour or one it just created. */
  datatype Target = Self | NewBranch | LeftDaughter | RightDaughter

  datatype Effect =
    | RemoveBehavior                                      // `RemoveBehavior(this)`
    | Branch(direction: Vec3)                             // `Branch(gradient)` on the running vessel
    | Bifurcate                                           // `Bifurcate()` on the running vessel
    | SetDiameter(target: Target, diameter: real)
    | SetFlag(target: Target, flag: bool)                 // `SetCanBranch(flag)`
    | Elongate(target: Target, speed: real, direction: Vec3)  // `ElongateTerminalEnd(speed, direction)`
    | Inject(position: Vec3, amount: real)                // `ChangeConcentrationBy(position, amount)`
    | ChangeVolume(speed: real)
    | Divide

  /**
    The effect of one call on the running vessel's own state. A flag write on
    the vessel sets its flag; a bifurcation gives it two daughters, so it is no
    longer terminal. Elongation moves the vessel's end, which is geometry the
    model does not track.
  */
  function ApplyToSelf(v: Vessel, e: Effect): (r: Vessel)
    ensures CanBranch(r) == if e.SetFlag? && e.target == Self then Some(e.flag) else CanBranch(v)
    ensures IsTerminal(r) <==> IsTerminal(v) && e != Bifurcate
  {
    match e
    case SetFlag(Self, b) => SetCanBranch(v, b)
    case Bifurcate => v.(neurite := v.neurite.(terminal := false))
    case _ => v
  }

  /** A vessel created during the run, with what the trace set on it (`None`: never set). */
  datatype Spawn = Spawn(role: Target, diameter: Option<real>, canBranch: Option<bool>)

  /** Applies `f` to every spawned vessel that has role `t`. */
  function Update(spawns: seq<Spawn>, t: Target, f: Spawn -> Spawn): seq<Spawn>
  {
    seq(|spawns|, i requires 0 <= i < |spawns| => if spawns[i].role == t then f(spawns[i]) else spawns[i])
  }

  /** Adds the vessels one call creates, or records what it sets on an existing one. */
  function Record(spawns: seq<Spawn>, e: Effect): seq<Spawn>
  {
    match e
    case Branch(_) => spawns + [Spawn(NewBranch, None, None)]
    case Bifurcate => spawns + [Spawn(LeftDaughter, None, None), Spawn(RightDaughter, None, None)]
    case SetDiameter(t, d) => Update(spawns, t, (s: Spawn) => s.(diameter := Some(d)))
    case SetFlag(t, b) => Update(spawns, t, (s: Spawn) => s.(canBranch := Some(b)))
    case _ => spawns
  }

  /** Replays a trace, oldest call first, on top of the vessels already spawned. */
  function Replay(spawns: seq<Spawn>, effects: seq<Effect>): seq<Spawn>
    decreases |effects|
  {
    if |effects| == 0 then spawns else Replay(Record(spawns, effects[0]), effects[1..])
  }

  /** The vessels a trace creates, each with the diameter and flag the trace gave it. */
  function Spawned(effects: seq<Effect>): seq<Spawn>
  {
    Replay([], effects)
  }

  /** Replaying a trace in two pieces is replaying it whole. */
  lemma {:induction false} ReplayConcat(spawns: seq<Spawn>, a: seq<Effect>, b: seq<Effect>)
    ensures Replay(spawns, a + b) == Replay(Replay(spawns, a), b)
    decreases |a|
  {
    if |a| == 0 {
      assert a + b == b;
    } else {
      assert (a + b)[0] == a[0];
      assert (a + b)[1..] == a[1..] + b;
      ReplayConcat(Record(spawns, a[0]), a[1..], b);
    }
  }

  /** Calls that neither create a vessel nor set anything on one leave the spawned vessels alone. */
  lemma {:induction false} ReplayInert(spawns: seq<Spawn>, effects: seq<Effect>)
    requires forall i :: 0 <= i < |effects| ==> !effects[i].Branch? && !effects[i].Bifurcate?
    requires forall i :: 0 <= i < |effects| ==> !effects[i].SetDiameter? && !effects[i].SetFlag?
    ensures Replay(spawns, effects) == spawns
    decreases |effects|
  {
    if |effects| > 0 {
      ReplayInert(Record(spawns, effects[0]), effects[1..]);
    }
  }

  /** Number of times a trace detaches the running behaviour. */
  function Removals(effects: seq<Effect>): nat
  {
    multiset(effects)[RemoveBehavior]
  }
}
