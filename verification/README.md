# Angiogenesis behaviours — a Dafny model

This project models the per-step decision rules of the angiogenesis simulation:
the three behaviours of `src/biology_modules.h` and the `can_branch_` flag that
`src/extended_objects.h` adds to the framework's neurite element to make a `Vessel`.

- **Vessel growth** (`VascularGrowth_BM::Run`). A vessel on the main trunk
  (`CanBranch()` true) gets one chance to sprout a side branch when the VEGF
  concentration exceeds 1e-6, and then detaches its behaviour; the trunk's own
  tip detaches at once. A vessel off the trunk (`CanBranch()` false) elongates
  by 50 along a random vector plus the gradient on every step, may bifurcate
  when terminal and the concentration exceeds 1e-2, marks the left daughter
  non-branchable, and stops once it bifurcates above concentration 0.8.
- **VEGF secretion** (`VegfSecretion_BM::Run`). A cell injects one unit at its
  position unless a vessel lies at squared distance strictly below 16.
- **Tumour growth** (`TumourGrowth_BM::Run`). A cell grows with volume speed 200
  while its diameter is at most 12, and divides otherwise.

Each behaviour is a pure function. It takes the abstract agent state, what the
framework would answer during the run (concentration, gradients, terminal
status), and the uniform draws as an explicit sequence. It returns the new state
plus a trace of the framework calls it makes (`RemoveBehavior`, `Branch`,
`SetDiameter`, `SetFlag`, `Elongate`, `Bifurcate`, `Inject`, `ChangeVolume`,
`Divide`). Replaying a trace (`Effects.Spawned`) gives the vessels a run creates,
each with the diameter and flag the run set on it.

The vessel growth run is written phase by phase in source order. Each of the
three `CanBranch()` reads (lines 51, 56 and 74) reads the vessel state that the
earlier phases left. The same behaviour is also written as a flat decision
table (`VascularGrowth.Table`), and the two are proved equal on every input. The
properties below are proved through that table.

Modules: `Wrappers` (Option/Result), `Geometry` (exact-real vectors and squared
distance), `Vessels` (the `Vessel` flag), `Effects` (the trace and its replay),
`VascularGrowth` with `GrowthProperties`, `Population` (agents seen through
`dynamic_cast`), `VegfSecretion`, `TumourGrowth`.

Things the model makes visible:
- `can_branch_` has no initialiser and neither the constructor nor `Initialize`
  sets it, so it is `Option<bool>`. A growth run that reads an unset flag ends in
  `Failure(FlagUnset)`, because the source reads an indeterminate value there.
- After `Bifurcate()`, the run sets only the left daughter's flag (line 90).
  The right daughter's flag stays unset, so a growth run on it reads an
  indeterminate flag
  (`GrowthProperties.RightDaughterRunIsUndefined`).
- On the trunk tip with concentration above 1e-6, `RemoveBehavior(this)` is
  issued twice in one run (`GrowthProperties.RemovalCount`).

## Model

| member | source | states |
|---|---|---|
| `Vessels.SetCanBranch` | src/extended_objects.h:34-35 | after `SetCanBranch(b)`, `CanBranch()` reads `b`; the neurite state, terminal status included, is unchanged |
| `Vessels.Construct` | src/extended_objects.h:27-38 | the default constructor leaves the flag unset and keeps the base part it is given |
| `Vessels.Initialize` | src/extended_objects.h:30-32 | `Initialize` replaces only the base part; the flag, set or unset, is what it was |
| `Vessels.FrameworkCreatedVesselUnset` | src/extended_objects.h:27-38 | a vessel the framework constructs and initialises has no flag until a caller sets one |
| `Vessels.LastSetWins` | src/extended_objects.h:34 | of two writes to the flag, the second decides |
| `Vessels.SetWhatIsRead` | src/extended_objects.h:34-35 | writing back the value `CanBranch()` returned leaves the vessel as it was |
| `Vessels.SetForgetsOnlyTheFlag` | src/extended_objects.h:34-38 | two vessels end equal after the same write exactly when they agreed on everything except the flag |
| `VascularGrowth.Run` | src/biology_modules.h:35-94 | the run fails exactly when the flag was never set; it never changes the running vessel's flag; the vessel is terminal afterwards if and only if it did not bifurcate and was terminal, as read at line 51 on the trunk or as reported after the elongation at line 80 off the trunk; it consumes at most 4 draws; the behaviour stays attached exactly when no `RemoveBehavior` was issued |
| `VascularGrowth.DetachTrunkTip` | src/biology_modules.h:50-53 | the first phase of `Run`: it takes no draw, leaves the vessel as it was, and can only detach the behaviour |
| `VascularGrowth.TryBranch` | src/biology_modules.h:55-71 | the second phase of `Run`: it takes exactly one draw when the vessel is branchable and the concentration exceeds 1e-6, none otherwise, and then always detaches; it never touches the running vessel, so the flag read at line 74 sees what line 56 saw |
| `VascularGrowth.Extend` | src/biology_modules.h:73-92 | the third phase of `Run`: a branchable vessel passes through it unchanged; otherwise it takes three or four draws; it never changes the vessel's flag |
| `VascularGrowth.Table` | src/biology_modules.h:50-92 | the reference decision table: a trunk row takes at most one draw and never elongates the vessel itself or bifurcates; an extension row takes three or four draws and never branches |
| `VascularGrowth.TrunkMatchesTable` | src/biology_modules.h:50-71 | on a trunk vessel, the tip check and the branching chance produce exactly the trunk rows of the decision table |
| `VascularGrowth.ExtensionMatchesTable` | src/biology_modules.h:73-92 | on a non-trunk vessel, the elongation and bifurcation chance produce exactly the extension rows of the decision table |
| `VascularGrowth.RunMatchesTable` | src/biology_modules.h:35-94 | for every vessel with a set flag, every sensed value and every draw sequence, the phased run equals the flat decision table |
| `GrowthProperties.TrunkTipAlwaysDetaches` | src/biology_modules.h:51-53 | a branchable terminal vessel issues `RemoveBehavior` and ends detached, whatever the concentration |
| `GrowthProperties.TrunkPointHasOneChance` | src/biology_modules.h:56-71 | a branchable vessel with concentration above 1e-6 consumes exactly one draw and ends detached, whether or not it branched |
| `GrowthProperties.TrunkPointWaitsBelowThreshold` | src/biology_modules.h:51-71 | a branchable non-terminal vessel with concentration at most 1e-6 makes no call, consumes no draw and stays attached |
| `GrowthProperties.BranchExactlyWhenDrawSucceeds` | src/biology_modules.h:56-62 | a branch is created if and only if the vessel is branchable, the concentration exceeds 1e-6 and the first draw is below 1e5 times the concentration |
| `GrowthProperties.NewBranchSetUp` | src/biology_modules.h:62-67 | a new branch gets diameter 1 and a cleared flag, and exactly one elongation by 50 along the gradient at its own position |
| `GrowthProperties.SpawnedOfTable` | src/biology_modules.h:62-90 | a run creates nothing, or one branch with diameter 1 and flag false, or two daughters of which only the left has a flag (false) |
| `GrowthProperties.ParentFlagUntouched` | src/biology_modules.h:56-90 | no call of a run sets the running vessel's own flag, so its three reads of `CanBranch()` agree |
| `GrowthProperties.BranchingRunStaysOnTrunk` | src/biology_modules.h:56-74 | a run that branches is on a branchable vessel and neither elongates that vessel nor bifurcates |
| `GrowthProperties.OnlyExtensionsElongate` | src/biology_modules.h:74-80 | a run elongates the running vessel if and only if its flag is false |
| `GrowthProperties.ExtensionAlwaysElongates` | src/biology_modules.h:74-80 | on a non-branchable vessel the first call is the one elongation by 50 along (draw0, draw1, draw2) plus the gradient, after at least three draws |
| `GrowthProperties.BifurcationConditions` | src/biology_modules.h:83 | the fourth draw is consumed if and only if the vessel is terminal after elongating and the concentration exceeds 1e-2; bifurcation happens if and only if, in addition, that draw is below 1e-2 times the concentration |
| `GrowthProperties.OnlyLeftDaughterMarked` | src/biology_modules.h:89-90 | after a bifurcation the left daughter's flag is false and the right daughter's is unset |
| `GrowthProperties.RightDaughterRunIsUndefined` | src/biology_modules.h:89-90 | a growth run on a vessel carrying the right daughter's flag reads an unset flag |
| `GrowthProperties.ExtensionDetachesOnlyAtTumour` | src/biology_modules.h:83-87 | a non-branchable vessel ends detached if and only if it bifurcates with concentration above 0.8 |
| `GrowthProperties.RemovalCount` | src/biology_modules.h:51-70 | at most two `RemoveBehavior` calls per run, and two exactly on the branchable tip with concentration above 1e-6 |
| `GrowthProperties.DrawsBeyondUsedIrrelevant` | src/biology_modules.h:59-83 | two draw sequences that agree on the draws a run consumes give the same run |
| `VegfSecretion.ScanVicinity` | src/biology_modules.h:121-133 | the scan over all agents finds a vessel if and only if some vessel-typed agent is at squared distance strictly below 16 |
| `VegfSecretion.Run` | src/biology_modules.h:109-139 | a non-cell agent is an error; a cell injects exactly one unit at its own position if and only if no vessel is in the vicinity, and makes no call otherwise |
| `VegfSecretion.Secrete` | src/biology_modules.h:118-138 | scanning and then injecting only when nothing was found computes the same as `Run` |
| `VegfSecretion.ScanOrderIrrelevant` | src/biology_modules.h:123-133 | any reordering of the population gives the same run |
| `VegfSecretion.NonVesselsIgnored` | src/biology_modules.h:124 | inserting an agent that is not a vessel anywhere in the population changes nothing |
| `VegfSecretion.OneNearVesselSuppresses` | src/biology_modules.h:127-138 | one vessel in the vicinity suppresses injection, whatever the rest of the population |
| `VegfSecretion.NoVesselsMeansSecretion` | src/biology_modules.h:136-138 | with no vessel in the population a cell always injects one unit at its position |
| `VegfSecretion.VicinityBoundaryExcluded` | src/biology_modules.h:127-138 | a vessel at squared distance exactly 16 from the cell, anywhere around it, does not suppress injection when no other vessel is in the vicinity |
| `TumourGrowth.Run` | src/biology_modules.h:153-161 | a non-cell gets no call; a cell gets exactly one call, `ChangeVolume(200)` if and only if its diameter is at most 12, `Divide` if and only if it is above 12 |
| `TumourGrowth.ThresholdMonotone` | src/biology_modules.h:155-159 | a cell that divides would also divide at any larger diameter, and one that grows would also grow at any smaller one |
| `TumourGrowth.OnlyDiameterMatters` | src/biology_modules.h:155 | two cells with the same diameter get the same call |
| `TumourGrowth.BoundaryGrows` | src/biology_modules.h:155 | a cell of diameter exactly 12 grows rather than divides |

## Left out

- Diffusion grid: `GetConcentration`, `GetGradient` and `ChangeConcentrationBy` are framework code outside this repository. Concentration and gradients are inputs, and injection is a trace entry. No diffusion or decay solver is modelled.
- Random generator: `Uniform(0,1)` is an explicit sequence of reals. The source's generator never runs dry, so a growth run asks for at least 4 draws, the most one run consumes. The model does not restrict draws to [0, 1).
- Neurite geometry: `Branch`, `Bifurcate`, `ElongateTerminalEnd`, `ChangeVolume` and `Divide` are framework calls, recorded as trace entries. Their geometry is not modelled, nor the diameters the framework gives bifurcation daughters.
- VascularGrowth.Run: the position and length of the returned vessel do not reflect the elongation at line 80, because they are framework geometry. The elongation and the bifurcation at line 89 are reflected only in the vessel's terminal status.
- Terminal status after elongation: `ElongateTerminalEnd` is not part of this model, so the terminal status it leaves is an input (`Sense.terminalAfterElongation`). The run writes that status into the vessel it threads, reads it from there at line 83, and a bifurcation then clears it.
- Removing a behaviour twice: the model records both `RemoveBehavior(this)` calls. What the framework does with the second call on an already removed behaviour is framework code and is not modelled.
- Copying behaviours to new agents (`AlwaysCopyToNew`), the lazy `init_` grid lookup and the `bdm_static_cast` of the running agent are framework plumbing and are not modelled. The growth run assumes the agent is a vessel, as the static cast does.
- Floating point: all values are exact reals. pow(x, 2) is modelled as x * x.
- Scheduler and set-up: the step loop, agent commit and `src/angiogenesis.h` (parameters, the initial 300-step elongation with its `RunDiscretization` calls, `Simulate(1000)`, console output) are set-up and I/O, not modelled.
- A new branch gets the absolute diameter 1 (line 65), whatever its parent's diameter.
- Branching from a non-branchable vessel and bifurcating a non-terminal one are not errors: the guards at lines 56 and 83 skip those calls.
