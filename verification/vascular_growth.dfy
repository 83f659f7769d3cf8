/**
  `VascularGrowth_BM::Run`: one step of a vessel's growth behaviour.

  The run is modelled phase by phase, in source order: the trunk-tip check,
  the trunk's single branching chance, then the extension's elongation and
  bifurcation chance. Each phase re-reads the flag from the vessel state the
  previous phases left, as the source calls `CanBranch()` three times.
  Framework answers the behaviour consults are inputs (`Sense`), uniform
  draws are an explicit sequence, and every framework call is a trace entry.
*/
module VascularGrowth {
  import opened Wrappers
  import opened Geometry
  import opened Vessels
  import opened Effects

  /** A trunk point may branch only above this concentration (`1e-6`). */
  const BranchThreshold: real := 0.000001
  /** Branch probability per unit concentration (`1e5`). */
  const BranchSensitivity: real := 100000.0
  /** An extension tip may bifurcate only above this concentration (`1e-2`). */
  const BifurcationThreshold: real := 0.01
  /** Bifurcation probability per unit concentration (`1e-2`). */
  const BifurcationSensitivity: real := 0.01
  /** Above this concentration a bifurcating tip has reached the tumour and stops. */
  const TumourReached: real := 0.8
  /** Speed passed to every `ElongateTerminalEnd`. */
  const ElongationSpeed: real := 50.0
  /** Diameter given to a new side branch. */
  const BranchDiameter: real := 1.0
  /** The most uniform draws one run can consume. */
  const MaxDraws: nat := 4

  /**
    What the framework answers during the run: the concentration at the vessel,
    the gradient at the vessel, the gradient at a newly created branch, and
    `IsTerminal()` as read after the vessel's own elongation.
  */
  datatype Sense = Sense(concentration: real, gradient: Vec3, branchGradient: Vec3, terminalAfterElongation: bool)

  /** `CanBranch()` was read while `can_branch_` had never been set. */
  datatype GrowthError = FlagUnset

  /** The state a run threads: the running vessel, whether the behaviour is still attached, the calls made, the draws consumed. */
  datatype Step = Step(vessel: Vessel, attached: bool, effects: seq<Effect>, used: nat)

  /** Makes one framework call. */
  function Emit(s: Step, e: Effect): Step
  {
    Step(ApplyToSelf(s.vessel, e), s.attached && e != RemoveBehavior, s.effects + [e], s.used)
  }

  /** The calls made on a side branch right after it is created. */
  function BranchCalls(sense: Sense): seq<Effect>
  {
    [ Branch(sense.gradient),
      SetDiameter(NewBranch, BranchDiameter),
      SetFlag(NewBranch, false),
      Elongate(NewBranch, ElongationSpeed, sense.branchGradient) ]
  }

  /** The calls made when an extension tip bifurcates. */
  function BifurcationCalls(): seq<Effect>
  {
    [Bifurcate, SetFlag(LeftDaughter, false)]
  }

  /** The direction an extension grows in: three draws as a random vector, plus the gradient. */
  function GrowthDirection(sense: Sense, draws: seq<real>, k: nat): Vec3
    requires k + 3 <= |draws|
  {
    Add(Vec3(draws[k], draws[k + 1], draws[k + 2]), sense.gradient)
  }

  /**
    The vessel as the framework leaves it after `ElongateTerminalEnd`: its
    terminal status is what `IsTerminal()` reports at line 83, and nothing else
    the model tracks moves.
  */
  function AfterElongation(v: Vessel, sense: Sense): (r: Vessel)
    ensures CanBranch(r) == CanBranch(v)
    ensures IsTerminal(r) == sense.terminalAfterElongation
  {
    v.(neurite := v.neurite.(terminal := sense.terminalAfterElongation))
  }

  /** Lines 50-53: the tip of the trunk detaches its behaviour; no draw is taken and the vessel is not touched. */
  function DetachTrunkTip(s: Step): (r: Step)
    requires CanBranch(s.vessel).Some?
    ensures r.vessel == s.vessel && r.used == s.used
    ensures r.attached ==> s.attached
  {
    if CanBranch(s.vessel).value && IsTerminal(s.vessel) then Emit(s, RemoveBehavior) else s
  }

  /**
    Lines 55-71: a trunk point above threshold gets one draw to branch, then
    detaches. Its calls never touch the running vessel, so the flag read at
    line 74 sees what line 56 saw.
  */
  function TryBranch(s: Step, sense: Sense, draws: seq<real>): (r: Step)
    requires CanBranch(s.vessel).Some?
    requires s.used < |draws|
    ensures r.vessel == s.vessel
    ensures r.used == s.used + (if CanBranch(s.vessel).value && sense.concentration > BranchThreshold then 1 else 0)
    ensures CanBranch(s.vessel).value && sense.concentration > BranchThreshold ==> !r.attached
  {
    if CanBranch(s.vessel).value && sense.concentration > BranchThreshold then
      var drawn := s.(used := s.used + 1);
      var grown :=
        if draws[s.used] < BranchSensitivity * sense.concentration then
          var branch := Emit(drawn, Branch(sense.gradient));
          var sized := Emit(branch, SetDiameter(NewBranch, BranchDiameter));
          var marked := Emit(sized, SetFlag(NewBranch, false));
          Emit(marked, Elongate(NewBranch, ElongationSpeed, sense.branchGradient))
        else drawn;
      Emit(grown, RemoveBehavior)
    else s
  }

  /** Lines 73-92: an extension elongates, then a terminal tip above threshold may bifurcate; a trunk vessel passes through untouched. */
  function Extend(s: Step, sense: Sense, draws: seq<real>): (r: Step)
    requires CanBranch(s.vessel).Some?
    requires !CanBranch(s.vessel).value ==> s.used + MaxDraws <= |draws|
    ensures CanBranch(s.vessel).value ==> r == s
    ensures !CanBranch(s.vessel).value ==> s.used + 3 <= r.used <= s.used + MaxDraws
    ensures CanBranch(r.vessel) == CanBranch(s.vessel)
  {
    if !CanBranch(s.vessel).value then
      var k := s.used;
      var elongated := Emit(s.(used := k + 3), Elongate(Self, ElongationSpeed, GrowthDirection(sense, draws, k)));
      var grown := elongated.(vessel := AfterElongation(elongated.vessel, sense));
      if IsTerminal(grown.vessel) && sense.concentration > BifurcationThreshold then
        var drawn := grown.(used := k + 4);
        if draws[k + 3] < BifurcationSensitivity * sense.concentration then
          var stopped := if sense.concentration > TumourReached then Emit(drawn, RemoveBehavior) else drawn;
          Emit(Emit(stopped, Bifurcate), SetFlag(LeftDaughter, false))
        else drawn
      else grown
    else s
  }

  /**
    One run of the behaviour on vessel `v`. The source demands nothing of the
    random stream; the model needs as many draws as a run can consume.
  */
  function Run(v: Vessel, sense: Sense, draws: seq<real>): (r: Result<Step, GrowthError>)
    requires |draws| >= MaxDraws
    ensures r.Failure? <==> CanBranch(v).None?
    ensures r.Success? ==> CanBranch(r.value.vessel) == CanBranch(v)
    ensures r.Success? ==>
              (IsTerminal(r.value.vessel) <==>
                 (if CanBranch(v).value then IsTerminal(v) else sense.terminalAfterElongation)
                 && Bifurcate !in r.value.effects)
    ensures r.Success? ==> r.value.used <= MaxDraws
    ensures r.Success? ==> (r.value.attached <==> RemoveBehavior !in r.value.effects)
  {
    if CanBranch(v).None? then Failure(FlagUnset)
    else
      var tip := DetachTrunkTip(Step(v, true, [], 0));
      var branched := TryBranch(tip, sense, draws);
      Success(Extend(branched, sense, draws))
  }

  /** What a run decides, independent of how the state is threaded: the calls and the draws consumed. */
  datatype Decision = Decision(effects: seq<Effect>, used: nat)

  /**
    The behaviour as a flat decision table over the vessel's flag, its
    terminal status at the start of the run, the sensed values and the draws.
  */
  function Table(trunk: bool, tip: bool, sense: Sense, draws: seq<real>): (r: Decision)
    requires |draws| >= MaxDraws
    ensures trunk ==> r.used <= 1
    ensures !trunk ==> 3 <= r.used <= MaxDraws
    ensures trunk ==> forall e :: e in r.effects ==> !(e.Elongate? && e.target == Self) && e != Bifurcate
    ensures !trunk ==> forall e :: e in r.effects ==> !e.Branch?
  {
    var c := sense.concentration;
    if trunk then
      var tipCalls := if tip then [RemoveBehavior] else [];
      if c <= BranchThreshold then Decision(tipCalls, 0)
      else if draws[0] < BranchSensitivity * c then Decision(tipCalls + BranchCalls(sense) + [RemoveBehavior], 1)
      else Decision(tipCalls + [RemoveBehavior], 1)
    else
      var grow := Elongate(Self, ElongationSpeed, GrowthDirection(sense, draws, 0));
      if !sense.terminalAfterElongation || c <= BifurcationThreshold then Decision([grow], 3)
      else if draws[3] >= BifurcationSensitivity * c then Decision([grow], 4)
      else if c > TumourReached then Decision([grow, RemoveBehavior] + BifurcationCalls(), 4)
      else Decision([grow] + BifurcationCalls(), 4)
  }

  /** The branching phase on a trunk state: idle below threshold, otherwise one draw, maybe a branch, then a removal. */
  lemma BranchPhase(s: Step, sense: Sense, draws: seq<real>)
    requires |draws| >= MaxDraws
    requires CanBranch(s.vessel) == Some(true) && s.used == 0
    ensures var c := sense.concentration;
            TryBranch(s, sense, draws) ==
              if c <= BranchThreshold then s
              else if draws[0] < BranchSensitivity * c then
                Step(s.vessel, false, s.effects + BranchCalls(sense) + [RemoveBehavior], 1)
              else Step(s.vessel, false, s.effects + [RemoveBehavior], 1)
  {
    var c := sense.concentration;
    if c > BranchThreshold && draws[0] < BranchSensitivity * c {
      var drawn := s.(used := 1);
      var branch := Emit(drawn, Branch(sense.gradient));
      var sized := Emit(branch, SetDiameter(NewBranch, BranchDiameter));
      var marked := Emit(sized, SetFlag(NewBranch, false));
      var grown := Emit(marked, Elongate(NewBranch, ElongationSpeed, sense.branchGradient));
      assert grown.vessel == s.vessel;
      assert grown.effects == s.effects + BranchCalls(sense);
    }
  }

  /** On a trunk vessel the first two phases produce the table's trunk rows. */
  lemma TrunkMatchesTable(v: Vessel, sense: Sense, draws: seq<real>)
    requires |draws| >= MaxDraws
    requires CanBranch(v) == Some(true)
    ensures var d := Table(true, IsTerminal(v), sense, draws);
            TryBranch(DetachTrunkTip(Step(v, true, [], 0)), sense, draws)
              == Step(v, RemoveBehavior !in d.effects, d.effects, d.used)
  {
    var tipCalls := if IsTerminal(v) then [RemoveBehavior] else [];
    var tip := DetachTrunkTip(Step(v, true, [], 0));
    assert tip == Step(v, !IsTerminal(v), tipCalls, 0);
    BranchPhase(tip, sense, draws);
    assert RemoveBehavior in tipCalls <==> IsTerminal(v);
  }

  /** On an extension vessel the first two phases do nothing and the third produces the table's extension rows. */
  lemma ExtensionMatchesTable(v: Vessel, sense: Sense, draws: seq<real>)
    requires |draws| >= MaxDraws
    requires CanBranch(v) == Some(false)
    ensures var d := Table(false, IsTerminal(v), sense, draws);
            Extend(Step(v, true, [], 0), sense, draws) == TableStep(v, sense, d)
  {
    var c := sense.concentration;
    var grow := Elongate(Self, ElongationSpeed, GrowthDirection(sense, draws, 0));
    var elongated := Emit(Step(v, true, [], 3), grow);
    assert elongated == Step(v, true, [grow], 3);
    var w := AfterElongation(v, sense);
    var grown := Step(w, true, [grow], 3);
    assert grown == elongated.(vessel := AfterElongation(elongated.vessel, sense));
    var d := Table(false, IsTerminal(v), sense, draws);
    if sense.terminalAfterElongation && c > BifurcationThreshold && draws[3] < BifurcationSensitivity * c {
      var drawn := grown.(used := 4);
      var stopped := if c > TumourReached then Emit(drawn, RemoveBehavior) else drawn;
      assert stopped.vessel == w;
      var split := Emit(Emit(stopped, Bifurcate), SetFlag(LeftDaughter, false));
      assert split.effects == stopped.effects + BifurcationCalls() == d.effects;
      assert split.vessel == ApplyToSelf(w, Bifurcate);
    } else {
      assert Bifurcate !in d.effects;
    }
  }

  /** The step a table row describes: its calls and draws, the vessel they leave, whether the behaviour stays attached. */
  function TableStep(v: Vessel, sense: Sense, d: Decision): Step
    requires CanBranch(v).Some?
  {
    var elongated := if CanBranch(v).value then v else AfterElongation(v, sense);
    Step(if Bifurcate in d.effects then ApplyToSelf(elongated, Bifurcate) else elongated,
         RemoveBehavior !in d.effects, d.effects, d.used)
  }

  /** The phased run and the flat table agree on every input. */
  lemma RunMatchesTable(v: Vessel, sense: Sense, draws: seq<real>)
    requires |draws| >= MaxDraws
    requires CanBranch(v).Some?
    ensures var d := Table(CanBranch(v).value, IsTerminal(v), sense, draws);
            Run(v, sense, draws) == Success(TableStep(v, sense, d))
  {
    if CanBranch(v).value {
      TrunkMatchesTable(v, sense, draws);
    } else {
      ExtensionMatchesTable(v, sense, draws);
    }
  }
}
