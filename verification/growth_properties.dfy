/**
  Properties of one run of the vessel growth behaviour, each stated over all
  inputs and proved through the flat decision table.
*/
module GrowthProperties {
  import opened Wrappers
  import opened Geometry
  import opened Vessels
  import opened Effects
  import opened VascularGrowth

  /** The run created a side branch. */
  predicate Branched(effects: seq<Effect>)
  {
    exists i :: 0 <= i < |effects| && effects[i].Branch?
  }

  /** The run elongated the vessel it runs on. */
  predicate ElongatedSelf(effects: seq<Effect>)
  {
    exists i :: 0 <= i < |effects| && effects[i].Elongate? && effects[i].target == Self
  }

  /** Number of `ElongateTerminalEnd` calls made on vessel `t`. */
  function ElongationsOf(effects: seq<Effect>, t: Target): nat
  {
    if |effects| == 0 then 0
    else (if effects[0].Elongate? && effects[0].target == t then 1 else 0) + ElongationsOf(effects[1..], t)
  }

  /** The bifurcation guard of line 83, short of the draw. */
  predicate BifurcationEligible(sense: Sense)
  {
    sense.terminalAfterElongation && sense.concentration > BifurcationThreshold
  }

  /** Replaying the calls that follow a successful branch draw yields the new branch, diameter and flag set. */
  lemma SpawnedByBranchCalls(sense: Sense)
    ensures Replay([], BranchCalls(sense)) == [Spawn(NewBranch, Some(BranchDiameter), Some(false))]
  {
    var calls := BranchCalls(sense);
    var one := Record([], calls[0]);
    assert one == [Spawn(NewBranch, None, None)];
    var two := Record(one, calls[1]);
    assert two[0] == Spawn(NewBranch, Some(BranchDiameter), None);
    var three := Record(two, calls[2]);
    assert three[0] == Spawn(NewBranch, Some(BranchDiameter), Some(false));
    var four := Record(three, calls[3]);
    assert four == three;
    var rest := calls[1..];
    assert Replay([], calls) == Replay(one, rest);
    assert Replay(one, rest) == Replay(two, rest[1..]);
    assert Replay(two, rest[1..]) == Replay(three, rest[1..][1..]);
    assert Replay(three, rest[1..][1..]) == Replay(four, rest[1..][1..][1..]);
    assert rest[1..][1..][1..] == [];
  }

  /** Replaying a bifurcation yields two daughters of which only the left has its flag set. */
  lemma SpawnedByBifurcationCalls()
    ensures Replay([], BifurcationCalls()) == [Spawn(LeftDaughter, None, Some(false)), Spawn(RightDaughter, None, None)]
  {
    var calls := BifurcationCalls();
    var one := Record([], calls[0]);
    assert one == [Spawn(LeftDaughter, None, None), Spawn(RightDaughter, None, None)];
    var two := Record(one, calls[1]);
    assert two == [Spawn(LeftDaughter, None, Some(false)), Spawn(RightDaughter, None, None)];
    assert calls[1..][1..] == [];
  }

  /** A prefix that creates nothing, followed by creating calls, followed by calls that set nothing. */
  lemma SpawnedSandwich(pre: seq<Effect>, mid: seq<Effect>, post: seq<Effect>)
    requires forall i :: 0 <= i < |pre| ==> pre[i] == RemoveBehavior || (pre[i].Elongate? && pre[i].target == Self)
    requires forall i :: 0 <= i < |post| ==> post[i] == RemoveBehavior
    ensures Spawned(pre + mid + post) == Replay([], mid)
  {
    ReplayConcat([], pre + mid, post);
    ReplayConcat([], pre, mid);
    ReplayInert([], pre);
    ReplayInert(Replay([], mid), post);
  }

  /** The vessels a run creates, row by row of the decision table. */
  lemma SpawnedOfTable(trunk: bool, tip: bool, sense: Sense, draws: seq<real>)
    requires |draws| >= MaxDraws
    ensures var d := Table(trunk, tip, sense, draws);
            Spawned(d.effects) ==
              if Branched(d.effects) then [Spawn(NewBranch, Some(BranchDiameter), Some(false))]
              else if Bifurcate in d.effects then [Spawn(LeftDaughter, None, Some(false)), Spawn(RightDaughter, None, None)]
              else []
  {
    var d := Table(trunk, tip, sense, draws);
    var c := sense.concentration;
    if trunk {
      var tipCalls := if tip then [RemoveBehavior] else [];
      if c > BranchThreshold && draws[0] < BranchSensitivity * c {
        SpawnedSandwich(tipCalls, BranchCalls(sense), [RemoveBehavior]);
        SpawnedByBranchCalls(sense);
        assert d.effects[|tipCalls|].Branch?;
      } else {
        SpawnedSandwich(d.effects, [], []);
        assert d.effects + [] + [] == d.effects;
      }
    } else {
      var grow := Elongate(Self, ElongationSpeed, GrowthDirection(sense, draws, 0));
      if BifurcationEligible(sense) && draws[3] < BifurcationSensitivity * c {
        var pre := if c > TumourReached then [grow, RemoveBehavior] else [grow];
        assert d.effects == pre + BifurcationCalls() + [];
        SpawnedSandwich(pre, BifurcationCalls(), []);
        SpawnedByBifurcationCalls();
        assert d.effects[|pre|] == Bifurcate;
      } else {
        assert d.effects + [] + [] == d.effects;
        SpawnedSandwich(d.effects, [], []);
      }
    }
  }

  /** The tip of the trunk detaches its behaviour whatever the concentration. */
  lemma TrunkTipAlwaysDetaches(v: Vessel, sense: Sense, draws: seq<real>)
    requires |draws| >= MaxDraws
    requires CanBranch(v) == Some(true) && IsTerminal(v)
    ensures Run(v, sense, draws).Success?
    ensures RemoveBehavior in Run(v, sense, draws).value.effects
    ensures !Run(v, sense, draws).value.attached
  {
    RunMatchesTable(v, sense, draws);
    var d := Table(true, true, sense, draws);
    assert d.effects[0] == RemoveBehavior;
  }

  /** A trunk point above the branching threshold gets exactly one draw and then detaches, branch or not. */
  lemma TrunkPointHasOneChance(v: Vessel, sense: Sense, draws: seq<real>)
    requires |draws| >= MaxDraws
    requires CanBranch(v) == Some(true) && sense.concentration > BranchThreshold
    ensures Run(v, sense, draws).Success?
    ensures !Run(v, sense, draws).value.attached
    ensures Run(v, sense, draws).value.used == 1
  {
    RunMatchesTable(v, sense, draws);
    var d := Table(true, IsTerminal(v), sense, draws);
    assert d.effects[|d.effects| - 1] == RemoveBehavior;
  }

  /** A trunk point that is not the tip and senses too little does nothing, draws nothing and stays attached. */
  lemma TrunkPointWaitsBelowThreshold(v: Vessel, sense: Sense, draws: seq<real>)
    requires |draws| >= MaxDraws
    requires CanBranch(v) == Some(true) && !IsTerminal(v) && sense.concentration <= BranchThreshold
    ensures Run(v, sense, draws) == Success(Step(v, true, [], 0))
  {
    RunMatchesTable(v, sense, draws);
  }

  /** A branch is created exactly when the vessel is on the trunk, the concentration exceeds 1e-6 and the draw falls below 1e5 times it. */
  lemma BranchExactlyWhenDrawSucceeds(v: Vessel, sense: Sense, draws: seq<real>)
    requires |draws| >= MaxDraws
    requires CanBranch(v).Some?
    ensures Branched(Run(v, sense, draws).value.effects) <==>
              CanBranch(v) == Some(true) && sense.concentration > BranchThreshold
              && draws[0] < BranchSensitivity * sense.concentration
  {
    RunMatchesTable(v, sense, draws);
    var d := Table(CanBranch(v).value, IsTerminal(v), sense, draws);
    if CanBranch(v) == Some(true) && sense.concentration > BranchThreshold
       && draws[0] < BranchSensitivity * sense.concentration {
      var tipCalls := if IsTerminal(v) then [RemoveBehavior] else [];
      assert d.effects[|tipCalls|].Branch?;
    }
  }

  /** A new branch gets diameter 1, a cleared flag and exactly one elongation along the gradient at its own position. */
  lemma NewBranchSetUp(v: Vessel, sense: Sense, draws: seq<real>)
    requires |draws| >= MaxDraws
    requires CanBranch(v).Some?
    requires Branched(Run(v, sense, draws).value.effects)
    ensures Spawned(Run(v, sense, draws).value.effects) == [Spawn(NewBranch, Some(BranchDiameter), Some(false))]
    ensures ElongationsOf(Run(v, sense, draws).value.effects, NewBranch) == 1
    ensures Elongate(NewBranch, ElongationSpeed, sense.branchGradient) in Run(v, sense, draws).value.effects
  {
    RunMatchesTable(v, sense, draws);
    BranchExactlyWhenDrawSucceeds(v, sense, draws);
    SpawnedOfTable(true, IsTerminal(v), sense, draws);
    BranchRowElongations(IsTerminal(v), sense, draws);
  }

  /** The branching row of the table elongates the new branch exactly once, along the gradient at its position. */
  lemma BranchRowElongations(tip: bool, sense: Sense, draws: seq<real>)
    requires |draws| >= MaxDraws
    requires sense.concentration > BranchThreshold && draws[0] < BranchSensitivity * sense.concentration
    ensures ElongationsOf(Table(true, tip, sense, draws).effects, NewBranch) == 1
    ensures Elongate(NewBranch, ElongationSpeed, sense.branchGradient) in Table(true, tip, sense, draws).effects
  {
    var tipCalls := if tip then [RemoveBehavior] else [];
    var calls := BranchCalls(sense);
    var effects := Table(true, tip, sense, draws).effects;
    assert effects == tipCalls + calls + [RemoveBehavior];
    ElongationsSplit(tipCalls + calls, [RemoveBehavior], NewBranch);
    ElongationsSplit(tipCalls, calls, NewBranch);
    NoElongations(tipCalls, NewBranch);
    NoElongations([RemoveBehavior], NewBranch);
    assert calls == calls[..3] + calls[3..];
    ElongationsSplit(calls[..3], calls[3..], NewBranch);
    NoElongations(calls[..3], NewBranch);
    assert calls[3..][1..] == [];
    assert effects[|tipCalls| + 3] == calls[3];
  }

  /** Counting elongations distributes over concatenation. */
  lemma {:induction false} ElongationsSplit(a: seq<Effect>, b: seq<Effect>, t: Target)
    ensures ElongationsOf(a + b, t) == ElongationsOf(a, t) + ElongationsOf(b, t)
    decreases |a|
  {
    if |a| == 0 {
      assert a + b == b;
    } else {
      assert (a + b)[0] == a[0];
      assert (a + b)[1..] == a[1..] + b;
      ElongationsSplit(a[1..], b, t);
    }
  }

  /** No call of a run sets the flag of the vessel it runs on, so its three flag reads agree. */
  lemma ParentFlagUntouched(v: Vessel, sense: Sense, draws: seq<real>)
    requires |draws| >= MaxDraws
    requires CanBranch(v).Some?
    ensures forall e :: e in Run(v, sense, draws).value.effects && e.SetFlag? ==> e.target != Self
  {
    RunMatchesTable(v, sense, draws);
    TableNeverFlagsSelf(CanBranch(v).value, IsTerminal(v), sense, draws);
  }

  /** Every flag write in the decision table targets a vessel the run created. */
  lemma TableNeverFlagsSelf(trunk: bool, tip: bool, sense: Sense, draws: seq<real>)
    requires |draws| >= MaxDraws
    ensures forall e :: e in Table(trunk, tip, sense, draws).effects && e.SetFlag? ==> e.target != Self
  {
  }

  /** A run that branches stays on the trunk path: it neither elongates the vessel itself nor bifurcates. */
  lemma BranchingRunStaysOnTrunk(v: Vessel, sense: Sense, draws: seq<real>)
    requires |draws| >= MaxDraws
    requires CanBranch(v).Some?
    requires Branched(Run(v, sense, draws).value.effects)
    ensures CanBranch(v) == Some(true)
    ensures !ElongatedSelf(Run(v, sense, draws).value.effects)
    ensures Bifurcate !in Run(v, sense, draws).value.effects
  {
    BranchExactlyWhenDrawSucceeds(v, sense, draws);
    RunMatchesTable(v, sense, draws);
  }

  /** Exactly the vessels with a cleared flag elongate themselves. */
  lemma OnlyExtensionsElongate(v: Vessel, sense: Sense, draws: seq<real>)
    requires |draws| >= MaxDraws
    requires CanBranch(v).Some?
    ensures ElongatedSelf(Run(v, sense, draws).value.effects) <==> CanBranch(v) == Some(false)
  {
    RunMatchesTable(v, sense, draws);
    var d := Table(CanBranch(v).value, IsTerminal(v), sense, draws);
    if CanBranch(v) == Some(false) {
      assert d.effects[0].Elongate? && d.effects[0].target == Self;
    }
  }

  /** Every run on an extension first consumes three draws and elongates once, by 50, along the random vector plus the gradient. */
  lemma ExtensionAlwaysElongates(v: Vessel, sense: Sense, draws: seq<real>)
    requires |draws| >= MaxDraws
    requires CanBranch(v) == Some(false)
    ensures Run(v, sense, draws).value.effects[0]
              == Elongate(Self, ElongationSpeed, Add(Vec3(draws[0], draws[1], draws[2]), sense.gradient))
    ensures ElongationsOf(Run(v, sense, draws).value.effects, Self) == 1
    ensures Run(v, sense, draws).value.used >= 3
  {
    RunMatchesTable(v, sense, draws);
    ExtensionRowElongations(IsTerminal(v), sense, draws);
  }

  /** Every extension row of the table starts with the one self-elongation and contains no other. */
  lemma ExtensionRowElongations(tip: bool, sense: Sense, draws: seq<real>)
    requires |draws| >= MaxDraws
    ensures Table(false, tip, sense, draws).effects[0] == Elongate(Self, ElongationSpeed, GrowthDirection(sense, draws, 0))
    ensures ElongationsOf(Table(false, tip, sense, draws).effects, Self) == 1
  {
    var effects := Table(false, tip, sense, draws).effects;
    var rest := effects[1..];
    assert forall i :: 0 <= i < |rest| ==> !rest[i].Elongate?;
    NoElongations(rest, Self);
  }

  /** A trace without elongation calls counts none. */
  lemma {:induction false} NoElongations(effects: seq<Effect>, t: Target)
    requires forall i :: 0 <= i < |effects| ==> !effects[i].Elongate?
    ensures ElongationsOf(effects, t) == 0
    decreases |effects|
  {
    if |effects| > 0 {
      NoElongations(effects[1..], t);
    }
  }

  /**
    The bifurcation draw is consumed only when the tip is terminal after
    elongating and the concentration exceeds 1e-2; the bifurcation happens
    exactly when that draw also falls below 1e-2 times the concentration.
  */
  lemma BifurcationConditions(v: Vessel, sense: Sense, draws: seq<real>)
    requires |draws| >= MaxDraws
    requires CanBranch(v) == Some(false)
    ensures Run(v, sense, draws).value.used == (if BifurcationEligible(sense) then 4 else 3)
    ensures Bifurcate in Run(v, sense, draws).value.effects <==>
              BifurcationEligible(sense) && draws[3] < BifurcationSensitivity * sense.concentration
  {
    RunMatchesTable(v, sense, draws);
  }

  /** Of the two daughters of a bifurcation only the left has its flag set; the right one's stays unset. */
  lemma OnlyLeftDaughterMarked(v: Vessel, sense: Sense, draws: seq<real>)
    requires |draws| >= MaxDraws
    requires CanBranch(v).Some?
    requires Bifurcate in Run(v, sense, draws).value.effects
    ensures Spawned(Run(v, sense, draws).value.effects)
              == [Spawn(LeftDaughter, None, Some(false)), Spawn(RightDaughter, None, None)]
  {
    RunMatchesTable(v, sense, draws);
    BranchExactlyWhenDrawSucceeds(v, sense, draws);
    SpawnedOfTable(CanBranch(v).value, IsTerminal(v), sense, draws);
  }

  /** The right daughter cannot run the growth behaviour meaningfully: its first flag read finds nothing. */
  lemma RightDaughterRunIsUndefined(v: Vessel, sense: Sense, draws: seq<real>,
                                    n: Neurite, sense': Sense, draws': seq<real>)
    requires |draws| >= MaxDraws && |draws'| >= MaxDraws
    requires CanBranch(v).Some?
    requires Bifurcate in Run(v, sense, draws).value.effects
    ensures |Spawned(Run(v, sense, draws).value.effects)| == 2
    ensures Spawned(Run(v, sense, draws).value.effects)[1].role == RightDaughter
    ensures Run(Vessel(Spawned(Run(v, sense, draws).value.effects)[1].canBranch, n), sense', draws')
              == Failure(FlagUnset)
  {
    OnlyLeftDaughterMarked(v, sense, draws);
  }

  /** An extension detaches exactly when it bifurcates with the concentration above 0.8. */
  lemma ExtensionDetachesOnlyAtTumour(v: Vessel, sense: Sense, draws: seq<real>)
    requires |draws| >= MaxDraws
    requires CanBranch(v) == Some(false)
    ensures !Run(v, sense, draws).value.attached <==>
              BifurcationEligible(sense) && draws[3] < BifurcationSensitivity * sense.concentration
              && sense.concentration > TumourReached
  {
    RunMatchesTable(v, sense, draws);
  }

  /** On the trunk, the tip's removal and the removal after the branching chance are the only ones. */
  lemma TrunkRemovals(tip: bool, sense: Sense, draws: seq<real>)
    requires |draws| >= MaxDraws
    ensures Removals(Table(true, tip, sense, draws).effects)
              == (if tip then 1 else 0) + (if sense.concentration > BranchThreshold then 1 else 0)
  {
    var c := sense.concentration;
    var tipCalls := if tip then [RemoveBehavior] else [];
    assert multiset(tipCalls)[RemoveBehavior] == if tip then 1 else 0;
    if c > BranchThreshold && draws[0] < BranchSensitivity * c {
      assert multiset(BranchCalls(sense))[RemoveBehavior] == 0;
      assert multiset(tipCalls + BranchCalls(sense) + [RemoveBehavior])
               == multiset(tipCalls) + multiset(BranchCalls(sense)) + multiset([RemoveBehavior]);
    } else if c > BranchThreshold {
      assert multiset(tipCalls + [RemoveBehavior]) == multiset(tipCalls) + multiset([RemoveBehavior]);
    }
  }

  /** On an extension, the only removal is the one at the tumour. */
  lemma ExtensionRemovals(tip: bool, sense: Sense, draws: seq<real>)
    requires |draws| >= MaxDraws
    ensures Removals(Table(false, tip, sense, draws).effects) <= 1
  {
    var d := Table(false, tip, sense, draws);
    var grow := Elongate(Self, ElongationSpeed, GrowthDirection(sense, draws, 0));
    assert multiset([grow])[RemoveBehavior] == 0;
    assert multiset(BifurcationCalls())[RemoveBehavior] == 0;
    if BifurcationEligible(sense) && draws[3] < BifurcationSensitivity * sense.concentration {
      if sense.concentration > TumourReached {
        assert multiset(d.effects) == multiset([grow]) + multiset([RemoveBehavior]) + multiset(BifurcationCalls());
      } else {
        assert multiset(d.effects) == multiset([grow]) + multiset(BifurcationCalls());
      }
    }
  }

  /**
    `RemoveBehavior(this)` is called at most twice, and twice exactly on the
    trunk tip when the concentration also exceeds the branching threshold.
  */
  lemma RemovalCount(v: Vessel, sense: Sense, draws: seq<real>)
    requires |draws| >= MaxDraws
    requires CanBranch(v).Some?
    ensures Removals(Run(v, sense, draws).value.effects) <= 2
    ensures Removals(Run(v, sense, draws).value.effects) == 2 <==>
              CanBranch(v) == Some(true) && IsTerminal(v) && sense.concentration > BranchThreshold
  {
    RunMatchesTable(v, sense, draws);
    if CanBranch(v).value {
      TrunkRemovals(IsTerminal(v), sense, draws);
    } else {
      ExtensionRemovals(IsTerminal(v), sense, draws);
    }
  }

  /** A run depends on no draw beyond the ones it consumes. */
  lemma DrawsBeyondUsedIrrelevant(v: Vessel, sense: Sense, draws: seq<real>, other: seq<real>)
    requires |draws| >= MaxDraws && |other| >= MaxDraws
    requires CanBranch(v).Some?
    requires draws[..Run(v, sense, draws).value.used] == other[..Run(v, sense, draws).value.used]
    ensures Run(v, sense, other) == Run(v, sense, draws)
  {
    RunMatchesTable(v, sense, draws);
    RunMatchesTable(v, sense, other);
    var k := Run(v, sense, draws).value.used;
    assert forall i :: 0 <= i < k ==> draws[i] == draws[..k][i] == other[..k][i] == other[i];
  }
}
