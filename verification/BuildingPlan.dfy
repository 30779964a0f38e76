/** Planning a whole colour group at once against building one house at a time. */
module BuildingPlan {
  import opened Arithmetic
  import opened Results
  import opened Property

  // ----- Heights: levels counted in the direction of the plan -----

  // Building raises levels from 0 to 5; selling is building seen upside down.
  function Height(level: int, direction: Direction): int { if direction == Build then level else MAX_BUILDINGS - level }
  function Heights(levels: seq<int>, direction: Direction): (h: seq<int>)
    ensures |h| == |levels|
  {
    seq(|levels|, i requires 0 <= i < |levels| => Height(levels[i], direction))
  }

  ghost predicate InRange(h: seq<int>) { forall i :: 0 <= i < |h| ==> 0 <= h[i] <= MAX_BUILDINGS }
  ghost predicate Even(h: seq<int>) { forall i, j :: 0 <= i < |h| && 0 <= j < |h| ==> h[i] <= h[j] + 1 }
  ghost predicate Below(h: seq<int>, f: seq<int>) { |h| == |f| && forall i :: 0 <= i < |h| ==> h[i] <= f[i] }
  ghost predicate MayRise(h: seq<int>, i: nat) {
    i < |h| && h[i] < MAX_BUILDINGS && forall j :: 0 <= j < |h| ==> h[i] <= h[j]
  }
  function Raise(h: seq<int>, i: nat): (r: seq<int>)
    requires i < |h|
    ensures |r| == |h|
  {
    h[i := h[i] + 1]
  }

  ghost predicate MayClimb(h: seq<int>, steps: seq<nat>)
    decreases |steps|
  {
    steps == [] || (MayRise(h, steps[0]) && MayClimb(Raise(h, steps[0]), steps[1..]))
  }
  ghost function Climb(h: seq<int>, steps: seq<nat>): (r: seq<int>)
    requires MayClimb(h, steps)
    ensures |r| == |h|
    decreases |steps|
  {
    if steps == [] then h else Climb(Raise(h, steps[0]), steps[1..])
  }

  lemma {:induction false} ClimbKeepsEven(h: seq<int>, steps: seq<nat>)
    requires InRange(h) && Even(h) && MayClimb(h, steps)
    ensures InRange(Climb(h, steps)) && Even(Climb(h, steps)) && Below(h, Climb(h, steps))
    decreases |steps|
  {
    if steps != [] { ClimbKeepsEven(Raise(h, steps[0]), steps[1..]); }
  }
  // Every height that changed was raised by some step.
  lemma {:induction false} ChangedWasRaised(h: seq<int>, steps: seq<nat>, i: nat)
    requires MayClimb(h, steps) && i < |h| && Climb(h, steps)[i] != h[i]
    ensures i in steps
    decreases |steps|
  {
    if steps != [] && steps[0] != i { ChangedWasRaised(Raise(h, steps[0]), steps[1..], i); }
  }

  ghost function Gap(h: seq<int>, f: seq<int>): int
    requires |h| == |f|
  {
    if h == [] then 0 else f[0] - h[0] + Gap(h[1..], f[1..])
  }
  lemma {:induction false} GapAfterRaise(h: seq<int>, f: seq<int>, i: nat)
    requires |h| == |f| && i < |h|
    ensures Gap(Raise(h, i), f) == Gap(h, f) - 1
  {
    if i == 0 { assert Raise(h, 0)[1..] == h[1..]; } else {
      assert Raise(h, i)[1..] == Raise(h[1..], i - 1);
      GapAfterRaise(h[1..], f[1..], i - 1);
    }
  }
  lemma {:induction false} GapNonNegative(h: seq<int>, f: seq<int>)
    requires Below(h, f)
    ensures Gap(h, f) >= 0 && (Gap(h, f) == 0 ==> h == f)
  {
    if h != [] {
      GapNonNegative(h[1..], f[1..]);
      if Gap(h, f) == 0 { assert h == [h[0]] + h[1..] && f == [f[0]] + f[1..]; }
    }
  }

  // The lowest place still to rise is lowest of all: were a lower place already at its final
  // height, the final heights would be two apart.
  lemma {:induction false} LowestBelow(h: seq<int>, f: seq<int>, n: nat) returns (i: nat)
    requires Below(h, f) && n <= |h| && exists j :: 0 <= j < n && h[j] < f[j]
    ensures i < n && h[i] < f[i] && forall j :: 0 <= j < n && h[j] < f[j] ==> h[i] <= h[j]
    decreases n
  {
    if exists j :: 0 <= j < n - 1 && h[j] < f[j] {
      i := LowestBelow(h, f, n - 1);
      if h[n - 1] < f[n - 1] && h[n - 1] < h[i] { i := n - 1; }
    } else {
      i := n - 1;
    }
  }
  lemma LowestMayRise(h: seq<int>, f: seq<int>) returns (i: nat)
    requires InRange(f) && Even(f) && Below(h, f) && h != f
    ensures MayRise(h, i) && h[i] < f[i]
  {
    var j :| 0 <= j < |h| && h[j] != f[j];
    i := LowestBelow(h, f, |h|);
    forall j | 0 <= j < |h| ensures h[i] <= h[j] {
      if h[j] == f[j] { assert f[i] <= f[j] + 1; }
    }
  }
  lemma RaiseKeeps(h: seq<int>, f: seq<int>, i: nat)
    requires InRange(f) && Below(h, f) && InRange(h) && Even(h) && MayRise(h, i) && h[i] < f[i]
    ensures InRange(Raise(h, i)) && Even(Raise(h, i)) && Below(Raise(h, i), f)
  {}
  // Every even final state is reached by single steps at places that change.
  lemma {:induction false} Reach(h: seq<int>, f: seq<int>) returns (steps: seq<nat>)
    requires InRange(f) && Even(f) && InRange(h) && Even(h) && Below(h, f)
    ensures MayClimb(h, steps) && Climb(h, steps) == f
    ensures Within(steps, |h|) && forall k :: 0 <= k < |steps| ==> h[steps[k]] < f[steps[k]]
    decreases Gap(h, f)
  {
    hide InRange, Even, MayRise, Gap, Below;
    GapNonNegative(h, f);
    if h == f { return []; }
    var i := LowestMayRise(h, f);
    assert i < |h| by { RaiseIndex(h, i); }
    RaiseKeeps(h, f, i);
    GapAfterRaise(h, f, i);
    GapNonNegative(Raise(h, i), f);
    var rest := Reach(Raise(h, i), f);
    steps := [i] + rest;
    assert steps[1..] == rest;
  }
  lemma RaiseIndex(h: seq<int>, i: nat) requires MayRise(h, i) ensures i < |h| {}

  // The weighted distance of a climb is the sum of the weights of its steps.
  function Weighted(weights: seq<int>, h: seq<int>, f: seq<int>): int
    requires |weights| == |h| == |f|
  {
    if h == [] then 0 else weights[0] * (f[0] - h[0]) + Weighted(weights[1..], h[1..], f[1..])
  }
  predicate Within(steps: seq<nat>, n: nat) { forall k :: 0 <= k < |steps| ==> steps[k] < n }
  function StepWeights(weights: seq<int>, steps: seq<nat>): int
    requires Within(steps, |weights|)
  {
    if steps == [] then 0 else weights[steps[0]] + StepWeights(weights, steps[1..])
  }
  lemma {:induction false} WeightedAfterRaise(weights: seq<int>, h: seq<int>, f: seq<int>, i: nat)
    requires |weights| == |h| == |f| && i < |h|
    ensures Weighted(weights, Raise(h, i), f) == Weighted(weights, h, f) - weights[i]
  {
    if i == 0 { assert Raise(h, 0)[1..] == h[1..]; Distribute(weights[0], f[0] - h[0] - 1); } else {
      assert Raise(h, i)[1..] == Raise(h[1..], i - 1);
      WeightedAfterRaise(weights[1..], h[1..], f[1..], i - 1);
    }
  }
  lemma {:induction false} WeightedSame(weights: seq<int>, h: seq<int>)
    requires |weights| == |h|
    ensures Weighted(weights, h, h) == 0
  {
    if h != [] { WeightedSame(weights[1..], h[1..]); }
  }
  lemma {:induction false} ClimbWeight(weights: seq<int>, h: seq<int>, steps: seq<nat>)
    requires |weights| == |h| && MayClimb(h, steps) && Within(steps, |weights|)
    ensures Weighted(weights, h, Climb(h, steps)) == StepWeights(weights, steps)
    decreases |steps|
  {
    if steps == [] { WeightedSame(weights, h); } else {
      WeightedAfterRaise(weights, h, Climb(h, steps), steps[0]);
      ClimbWeight(weights, Raise(h, steps[0]), steps[1..]);
    }
  }

  // ----- Single steps on the registry -----

  function Blocker(board: Board, registry: Registry, tileId: TileId, player: PlayerId,
          direction: Direction): Option<BankError> {
    if direction == Build then BuildBlocker(board, registry, tileId, player)
    else SellBlocker(board, registry, tileId, player)
  }
  function StepOn(registry: Registry, tileId: TileId, direction: Direction): Registry {
    var state := StateOf(registry, tileId);
    ApplyChanges(registry, [BuildingChange(tileId, state, state.houses + if direction == Build then 1 else -1)])
  }
  ghost predicate StepsAllowed(board: Board, registry: Registry, player: PlayerId, group: seq<Tile>, steps: seq<nat>,
          direction: Direction)
    decreases |steps|
  {
    steps == [] ||
    (steps[0] < |group| && Blocker(board, registry, group[steps[0]].id, player, direction).None? &&
     StepsAllowed(board, StepOn(registry, group[steps[0]].id, direction), player, group, steps[1..], direction))
  }
  function AfterSteps(registry: Registry, group: seq<Tile>, steps: seq<nat>, direction: Direction): Registry
    requires Within(steps, |group|)
    decreases |steps|
  {
    if steps == [] then registry
    else AfterSteps(StepOn(registry, group[steps[0]].id, direction), group, steps[1..], direction)
  }

  // The whole group belongs to the player, none of it mortgaged, on an even-building board.
  ghost predicate Holding(board: Board, registry: Registry, group: seq<Tile>, player: PlayerId) {
    board.rules.buildEvenly && DistinctTiles(board.tiles) &&
    (exists g :: group == GroupOf(board.tiles, g)) && group != [] &&
    HoldsFullGroup(group, registry, player) && !GroupHasMortgage(group, registry)
  }
  function GroupHeights(group: seq<Tile>, registry: Registry, direction: Direction): (h: seq<int>)
    ensures |h| == |group|
  {
    Heights(Levels(group, registry), direction)
  }
  ghost predicate Ready(board: Board, registry: Registry, group: seq<Tile>, player: PlayerId) {
    Holding(board, registry, group, player) && InRange(Levels(group, registry)) && Even(Levels(group, registry))
  }

  lemma HeightsKeep(levels: seq<int>, direction: Direction)
    ensures InRange(Heights(levels, direction)) <==> InRange(levels)
    ensures Even(Heights(levels, direction)) <==> Even(levels)
  {
    var h := Heights(levels, direction);
    assert forall i :: 0 <= i < |h| ==> h[i] == Height(levels[i], direction);
    assert forall i :: 0 <= i < |levels| ==> levels[i] == Height(h[i], direction);
  }

  lemma OwnerHasRow(registry: Registry, tileId: TileId)
    requires StateOf(registry, tileId).owner.Some?
    ensures HasRow(registry, tileId)
  {
    if !HasRow(registry, tileId) { StateOfMissing(registry, tileId); }
  }
  lemma GroupIds(board: Board, group: seq<Tile>, registry: Registry, player: PlayerId)
    requires Holding(board, registry, group, player)
    ensures DistinctTiles(group)
    ensures forall t :: t in group ==> t in board.tiles && t.group == group[0].group
    ensures group == GroupOf(board.tiles, group[0].group)
    ensures forall t :: t in group ==>
            StateOf(registry, t.id).owner == Some(player) && !StateOf(registry, t.id).mortgaged
  {
    var g :| group == GroupOf(board.tiles, g);
    GroupDistinct(board.tiles, g);
    FullGroupMeansEveryTile(group, registry, player);
    assert group[0] in group;
  }
  lemma TileIsFound(board: Board, tile: Tile)
    requires DistinctTiles(board.tiles) && tile in board.tiles
    ensures FindTile(board.tiles, tile.id) == Some(tile)
  {
    var k :| 0 <= k < |board.tiles| && board.tiles[k] == tile;
    FindTileAt(board.tiles, k);
  }

  lemma StepState(registry: Registry, tileId: TileId, direction: Direction, other: TileId)
    requires HasRow(registry, tileId)
    ensures var before, after := StateOf(registry, other), StateOf(StepOn(registry, tileId, direction), other);
            after.owner == before.owner && after.mortgaged == before.mortgaged &&
            Height(after.houses, direction) == Height(before.houses, direction) + if other == tileId then 1 else 0
  {
    var state := StateOf(registry, tileId);
    var changes := [BuildingChange(tileId, state, state.houses + if direction == Build then 1 else -1)];
    StateAfterChanges(registry, changes, other);
    assert FindChange(changes, other) == if other == tileId then Some(changes[0]) else None;
  }

  lemma StepKeepsHolding(board: Board, registry: Registry, group: seq<Tile>, player: PlayerId, i: nat,
          direction: Direction)
    requires Holding(board, registry, group, player) && i < |group|
    ensures var next := StepOn(registry, group[i].id, direction);
            Holding(board, next, group, player) &&
                GroupHeights(group, next, direction) == Raise(GroupHeights(group, registry, direction), i)
  {
    hide StepOn, HoldsFullGroup, StateOf, GroupOf;
    var next := StepOn(registry, group[i].id, direction);
    GroupIds(board, group, registry, player);
    assert group[i] in group;
    OwnerHasRow(registry, group[i].id);
    forall k | 0 <= k < |group|
      ensures StateOf(next, group[k].id).owner == Some(player) && !StateOf(next, group[k].id).mortgaged
      ensures GroupHeights(group, next, direction)[k] == Raise(GroupHeights(group, registry, direction), i)[k]
    {
      assert group[k] in group;
      StepState(registry, group[i].id, direction, group[k].id);
    }
    FullGroupMeansEveryTile(group, next, player);
  }

  lemma BlockerConditions(board: Board, registry: Registry, group: seq<Tile>, player: PlayerId, i: nat,
          direction: Direction)
    requires Holding(board, registry, group, player) && i < |group|
    ensures var levels := Levels(group, registry);
            Blocker(board, registry, group[i].id, player, direction).None? <==>
            Buildable(group[i]) && if direction == Build then levels[i] < MAX_BUILDINGS && levels[i] <= Lowest(levels)
                                   else levels[i] != 0 && levels[i] >= Highest(levels)
  {
    GroupIds(board, group, registry, player);
    assert group[i] in group;
    TileIsFound(board, group[i]);
    hide HoldsFullGroup, StateOf, GroupOf, FindTile, Buildable, Lowest, Highest, GroupHasMortgage;
    assert HoldsFullGroup(group, registry, player) && !GroupHasMortgage(group, registry);
  }
  lemma BlockerMeansMayRise(board: Board, registry: Registry, group: seq<Tile>, player: PlayerId, i: nat,
          direction: Direction)
    requires Holding(board, registry, group, player) && InRange(Levels(group, registry)) && i < |group|
    ensures Blocker(board, registry, group[i].id, player, direction).None? <==>
            Buildable(group[i]) && MayRise(GroupHeights(group, registry, direction), i)
  {
    hide Blocker, Levels, Buildable, Holding;
    BlockerConditions(board, registry, group, player, i, direction);
    RiseConditions(Levels(group, registry), i, direction);
  }
  lemma RiseConditions(levels: seq<int>, i: nat, direction: Direction)
    requires InRange(levels) && i < |levels|
    ensures MayRise(Heights(levels, direction), i) <==>
            if direction == Build then levels[i] < MAX_BUILDINGS && levels[i] <= Lowest(levels)
            else levels[i] != 0 && levels[i] >= Highest(levels)
  {
    hide Lowest, Highest;
    var h := Heights(levels, direction);
    assert forall j :: 0 <= j < |h| ==> h[j] == Height(levels[j], direction);
    ExtremesBound(levels, i);
  }
  lemma ExtremesBound(levels: seq<int>, i: nat)
    requires i < |levels|
    ensures levels[i] <= Lowest(levels) <==> forall j :: 0 <= j < |levels| ==> levels[i] <= levels[j]
    ensures levels[i] >= Highest(levels) <==> forall j :: 0 <= j < |levels| ==> levels[i] >= levels[j]
  {
    hide Lowest, Highest;
    var low, high := Lowest(levels), Highest(levels);
    var a :| 0 <= a < |levels| && levels[a] == low;
    var b :| 0 <= b < |levels| && levels[b] == high;
    forall j | 0 <= j < |levels| ensures low <= levels[j] <= high { assert levels[j] in levels; }
  }

  lemma {:induction false} StepsAreClimbs(board: Board, registry: Registry, group: seq<Tile>, player: PlayerId,
          steps: seq<nat>, direction: Direction)
    requires Holding(board, registry, group, player)
    requires InRange(GroupHeights(group, registry, direction)) && Even(GroupHeights(group, registry, direction))
    ensures var h := GroupHeights(group, registry, direction);
            StepsAllowed(board, registry, player, group, steps, direction) <==>
            MayClimb(h, steps) && AllBuildable(group, steps)
    ensures StepsAllowed(board, registry, player, group, steps, direction) ==>
            (Within(steps, |group|) &&
             GroupHeights(group, AfterSteps(registry, group, steps, direction), direction) ==
                 Climb(GroupHeights(group, registry, direction), steps))
    decreases |steps|
  {
    hide Blocker, StepOn, Holding, InRange, Even, GroupHeights, MayRise, Buildable, AllBuildable;
    var h := GroupHeights(group, registry, direction);
    if steps == [] {
      assert AllBuildable(group, steps) by { NoneBuildable(group); }
    } else if steps[0] >= |group| {
      FirstBuildable(group, steps);
    } else {
      var i := steps[0];
      HeightsInRange(group, registry, direction);
      BlockerMeansMayRise(board, registry, group, player, i, direction);
      if Blocker(board, registry, group[i].id, player, direction).None? {
        var next := StepOn(registry, group[i].id, direction);
        StepKeepsHolding(board, registry, group, player, i, direction);
        RaiseKeepsEven(h, i);
        StepsAreClimbs(board, next, group, player, steps[1..], direction);
        TailBuildable(group, steps);
        if StepsAllowed(board, registry, player, group, steps, direction) { BuildableWithin(group, steps); }
      } else {
        FirstBuildable(group, steps);
      }
    }
  }
  lemma NoneBuildable(group: seq<Tile>) ensures AllBuildable(group, []) {}
  lemma FirstBuildable(group: seq<Tile>, steps: seq<nat>)
    requires steps != []
    ensures AllBuildable(group, steps) ==> steps[0] < |group| && Buildable(group[steps[0]])
  {}
  lemma BuildableWithin(group: seq<Tile>, steps: seq<nat>)
    requires AllBuildable(group, steps)
    ensures Within(steps, |group|)
  {}
  lemma TailWithin(steps: seq<nat>, n: nat)
    requires steps != [] && steps[0] < n
    ensures Within(steps, n) <==> Within(steps[1..], n)
  {
    if Within(steps[1..], n) {
      forall k | 0 <= k < |steps| ensures steps[k] < n { if k > 0 { assert steps[k] == steps[1..][k - 1]; } }
    }
  }
  ghost predicate AllBuildable(group: seq<Tile>, steps: seq<nat>) {
    Within(steps, |group|) && forall k :: 0 <= k < |steps| ==> Buildable(group[steps[k]])
  }
  lemma TailBuildable(group: seq<Tile>, steps: seq<nat>)
    requires steps != [] && steps[0] < |group| && Buildable(group[steps[0]])
    ensures AllBuildable(group, steps) <==> AllBuildable(group, steps[1..])
  {
    TailWithin(steps, |group|);
    if AllBuildable(group, steps[1..]) {
      forall k | 0 <= k < |steps|
        ensures Buildable(group[steps[k]])
      {
        if k > 0 { assert steps[k] == steps[1..][k - 1]; }
      }
    }
  }
  lemma RaiseKeepsEven(h: seq<int>, i: nat)
    requires InRange(h) && Even(h) && MayRise(h, i)
    ensures InRange(Raise(h, i)) && Even(Raise(h, i))
  {}
  lemma HeightsInRange(group: seq<Tile>, registry: Registry, direction: Direction)
    requires InRange(GroupHeights(group, registry, direction))
    ensures InRange(Levels(group, registry))
  {
    HeightsKeep(Levels(group, registry), direction);
  }

  // ----- The plan for a whole group -----

  lemma {:induction false} TargetFound(targets: Targets, tileId: TileId, current: int)
    ensures (exists k ::
               0 <= k < |targets| && targets[k].0 == tileId && TargetLevel(targets, tileId, current) == targets[k].1)
         || TargetLevel(targets, tileId, current) == current
  {
    if targets != [] {
      TargetFound(targets[1..], tileId, current);
      if targets[0].0 != tileId && exists k ::
          0 <= k < |targets[1..]| && targets[1..][k].0 == tileId &&
          TargetLevel(targets[1..], tileId, current) == targets[1..][k].1 {
        var k :| 0 <= k < |targets[1..]| && targets[1..][k].0 == tileId &&
            TargetLevel(targets[1..], tileId, current) == targets[1..][k].1;
        assert targets[k + 1] == targets[1..][k];
      }
    }
  }
  ghost predicate DistinctTargets(targets: Targets) {
    forall i, j :: 0 <= i < j < |targets| ==> targets[i].0 != targets[j].0
  }
  lemma {:induction false} TargetAt(targets: Targets, k: nat, current: int)
    requires DistinctTargets(targets) && k < |targets|
    ensures TargetLevel(targets, targets[k].0, current) == targets[k].1
  {
    if k > 0 { TargetAt(targets[1..], k - 1, current); }
  }
  lemma {:induction false} EveryTargetChecked(board: Board, registry: Registry, player: PlayerId, group: nat,
          targets: Targets)
    ensures CheckTargets(board, registry, player, group, targets).Ok? <==>
            forall k :: 0 <= k < |targets| ==> CheckTarget(board, registry, player, group, targets[k]).Ok?
  {
    hide CheckTarget;
    if targets != [] {
      EveryTargetChecked(board, registry, player, group, targets[1..]);
      assert forall k :: 0 <= k < |targets[1..]| ==> targets[1..][k] == targets[k + 1];
    }
  }

  function Weights(board: Board, group: seq<Tile>, direction: Direction): (w: seq<int>)
    ensures |w| == |group|
  {
    seq(|group|, i requires 0 <= i < |group| => UnitPrice(board, group[i].id, direction))
  }
  function FinalHeights(group: seq<Tile>, registry: Registry, targets: Targets, direction: Direction): (h: seq<int>)
    ensures |h| == |group|
  {
    Heights(FinalLevels(group, registry, targets), direction)
  }

  lemma FirstOfGroup(group: seq<Tile>, registry: Registry, targets: Targets, direction: Direction)
    requires group != []
    ensures GroupHeights(group, registry, direction)[1..] == GroupHeights(group[1..], registry, direction)
    ensures FinalHeights(group, registry, targets, direction)[1..] ==
            FinalHeights(group[1..], registry, targets, direction)
    ensures GroupHeights(group, registry, direction)[0] == Height(StateOf(registry, group[0].id).houses, direction)
    ensures FinalHeights(group, registry, targets, direction)[0] ==
            Height(TargetLevel(targets, group[0].id, StateOf(registry, group[0].id).houses), direction)
  {
    hide StateOf, TargetLevel;
  }
  lemma BelowFirst(h: seq<int>, f: seq<int>)
    requires |h| == |f| > 0
    ensures Below(h, f) <==> h[0] <= f[0] && Below(h[1..], f[1..])
  {
    if Below(h[1..], f[1..]) {
      forall i | 1 <= i < |h| ensures h[i] <= f[i] ==> h[i] <= f[i] && h[1..][i - 1] <= f[1..][i - 1] {}
      assert forall i :: 1 <= i < |h| ==> h[i] == h[1..][i - 1] && f[i] == f[1..][i - 1];
    }
  }
  lemma EqualFirst(h: seq<int>, f: seq<int>)
    requires |h| == |f| > 0
    ensures h == f <==> h[0] == f[0] && h[1..] == f[1..]
  {
    if h[0] == f[0] && h[1..] == f[1..] { assert h == [h[0]] + h[1..] && f == [f[0]] + f[1..]; }
  }

  // The changes exist when no street moves against the direction, and they cost the weighted climb.
  lemma {:induction false} ChangesFollowHeights(board: Board, group: seq<Tile>, registry: Registry, targets: Targets,
          direction: Direction)
    ensures var changes, h, f := GroupChanges(group, registry, targets, direction),
            GroupHeights(group, registry, direction), FinalHeights(group, registry, targets, direction);
            && (changes.Ok? <==> Below(h, f))
            && (changes.Ok? ==> (changes.value == [] <==> h == f))
            && (changes.Ok? ==>
                PlanPrice(board, changes.value, direction) == Weighted(Weights(board, group, direction), h, f))
            && (changes.Ok? ==> BuildingCount(changes.value) == Gap(h, f))
  {
    hide StateOf, TargetLevel, UnitPrice, GroupHeights, FinalHeights, Below;
    var h, f := GroupHeights(group, registry, direction), FinalHeights(group, registry, targets, direction);
    if group == [] {
      assert Below(h, f) by { NothingBelow(h, f); }
    } else {
      FirstOfGroup(group, registry, targets, direction);
      BelowFirst(h, f);
      EqualFirst(h, f);
      ChangesFollowHeights(board, group[1..], registry, targets, direction);
      assert Weights(board, group, direction)[1..] == Weights(board, group[1..], direction);
      var changes := GroupChanges(group, registry, targets, direction);
      if changes.Ok? && h[0] != f[0] {
        assert changes.value[1..] == GroupChanges(group[1..], registry, targets, direction).value;
        Commutes(Weights(board, group, direction)[0], f[0] - h[0]);
      }
    }
  }
  lemma NothingBelow(h: seq<int>, f: seq<int>) requires h == [] && f == [] ensures Below(h, f) {}

  // ----- A plan is a sequence of single steps -----

  // Changed final levels for streets of the group, each named once.
  ghost predicate Names(group: seq<Tile>, registry: Registry, targets: Targets) {
    targets != [] && DistinctTargets(targets) &&
    forall k :: 0 <= k < |targets| ==> NamesChange(group, registry, targets[k])
  }
  ghost predicate NamesChange(group: seq<Tile>, registry: Registry, target: (TileId, int)) {
    exists i :: 0 <= i < |group| && group[i].id == target.0 && target.1 != StateOf(registry, target.0).houses
  }
  ghost predicate StepsReach(board: Board, registry: Registry, player: PlayerId, group: seq<Tile>, steps: seq<nat>,
          direction: Direction, finals: seq<int>) {
    StepsAllowed(board, registry, player, group, steps, direction) && Within(steps, |group|) &&
    Levels(group, AfterSteps(registry, group, steps, direction)) == finals
  }

  lemma SameHeights(a: seq<int>, b: seq<int>, direction: Direction)
    ensures Heights(a, direction) == Heights(b, direction) <==> a == b
  {
    if Heights(a, direction) == Heights(b, direction) {
      assert |a| == |Heights(a, direction)| == |b|;
      forall i | 0 <= i < |a| ensures a[i] == b[i] { HeightAt(a, i, direction); HeightAt(b, i, direction); }
    }
  }

  lemma CheckedTarget(board: Board, registry: Registry, player: PlayerId, group: seq<Tile>,
          target: (TileId, int)) returns (i: nat)
    requires Holding(board, registry, group, player) && NamesChange(group, registry, target)
    ensures i < |group| && group[i].id == target.0 && target.1 != StateOf(registry, target.0).houses
    ensures CheckTarget(board, registry, player, group[0].group, target).Ok? <==>
            Buildable(group[i]) && 0 <= target.1 <= MAX_BUILDINGS
  {
    i :| 0 <= i < |group| && group[i].id == target.0 && target.1 != StateOf(registry, target.0).houses;
    GroupIds(board, group, registry, player);
    assert group[i] in group;
    TileIsFound(board, group[i]);
    hide StateOf, FindTile, Buildable;
  }

  // What acceptance means for a ready group, before any steps are counted.
  lemma AcceptedPlan(board: Board, registry: Registry, player: PlayerId, group: seq<Tile>, targets: Targets,
          direction: Direction)
    requires Ready(board, registry, group, player) && Names(group, registry, targets)
    ensures PlanBuildings(board, registry, player, targets, direction).Ok? <==>
            CheckTargets(board, registry, player, group[0].group, targets).Ok? &&
            Below(GroupHeights(group, registry, direction), FinalHeights(group, registry, targets, direction)) &&
            Even(FinalLevels(group, registry, targets))
    ensures PlanBuildings(board, registry, player, targets, direction).Ok? ==>
            GroupChanges(group, registry, targets, direction).Ok? &&
            PlanBuildings(board, registry, player, targets, direction).value.changes ==
                GroupChanges(group, registry, targets, direction).value &&
            PlanBuildings(board, registry, player, targets, direction).value.buildings ==
                BuildingCount(GroupChanges(group, registry, targets, direction).value)
  {
    GroupIds(board, group, registry, player);
    var i := CheckedTarget(board, registry, player, group, targets[0]);
    assert group[i] in group;
    TileIsFound(board, group[i]);
    ChangesFollowHeights(board, group, registry, targets, direction);
    var finals := FinalLevels(group, registry, targets);
    SpreadIsEven(finals);
    LevelChanges(group, registry, targets, 0, i);
    SameHeights(Levels(group, registry), finals, direction);
    assert HoldsFullGroup(group, registry, player) && !GroupHasMortgage(group, registry);
    hide StateOf, FindTile, GroupOf, CheckTargets, GroupChanges, Lowest, Highest, Heights, Levels, FinalLevels, Even,
      Below, NamesChange, HoldsFullGroup, GroupHasMortgage, PlanBuildings;
    PlanConditions(board, registry, player, group, targets, direction);
  }
  lemma PlanConditions(board: Board, registry: Registry, player: PlayerId, group: seq<Tile>, targets: Targets,
          direction: Direction)
    requires targets != [] && group != [] && FindTile(board.tiles, targets[0].0).Some?
    requires group == GroupOf(board.tiles, group[0].group) &&
             FindTile(board.tiles, targets[0].0).value.group == group[0].group
    requires HoldsFullGroup(group, registry, player) && !GroupHasMortgage(group, registry) && board.rules.buildEvenly
    ensures var plan, changes, finals := PlanBuildings(board, registry, player, targets, direction),
            GroupChanges(group, registry, targets, direction), FinalLevels(group, registry, targets);
            && (plan.Ok? <==>
                CheckTargets(board, registry, player, group[0].group, targets).Ok? && changes.Ok? &&
                changes.value != [] && Highest(finals) - Lowest(finals) <= 1)
            && (plan.Ok? ==> plan.value == Plan(changes.value, BuildingCount(changes.value)))
  {
    hide StateOf, FindTile, GroupOf, CheckTargets, GroupChanges, Lowest, Highest, FinalLevels, BuildingCount,
      HoldsFullGroup, GroupHasMortgage;
  }
  lemma LevelChanges(group: seq<Tile>, registry: Registry, targets: Targets, k: nat, i: nat)
    requires DistinctTargets(targets) && k < |targets| && i < |group|
    requires group[i].id == targets[k].0
    ensures FinalLevels(group, registry, targets)[i] == targets[k].1
    ensures Levels(group, registry)[i] == StateOf(registry, targets[k].0).houses
    ensures targets[k].1 != StateOf(registry, targets[k].0).houses ==>
            Levels(group, registry) != FinalLevels(group, registry, targets)
  {
    TargetAt(targets, k, StateOf(registry, group[i].id).houses);
    hide StateOf, TargetLevel;
  }
  lemma SpreadIsEven(levels: seq<int>)
    requires levels != []
    ensures Highest(levels) - Lowest(levels) > 1 <==> !Even(levels)
  {
    hide Lowest, Highest;
    var low, high := Lowest(levels), Highest(levels);
    var a :| 0 <= a < |levels| && levels[a] == low;
    var b :| 0 <= b < |levels| && levels[b] == high;
    forall j | 0 <= j < |levels| ensures low <= levels[j] <= high { assert levels[j] in levels; }
  }

  lemma PlanHasSteps(board: Board, registry: Registry, player: PlayerId, group: seq<Tile>, targets: Targets,
          direction: Direction) returns (steps: seq<nat>)
    requires Ready(board, registry, group, player) && Names(group, registry, targets)
    requires PlanBuildings(board, registry, player, targets, direction).Ok?
    ensures StepsReach(board, registry, player, group, steps, direction, FinalLevels(group, registry, targets))
  {
    hide PlanBuildings, StepsAllowed, CheckTarget, Even, Below, InRange, Buildable, StateOf, Heights, Levels,
      FinalLevels, AfterSteps, MayClimb;
    AcceptedPlan(board, registry, player, group, targets, direction);
    EveryTargetChecked(board, registry, player, group[0].group, targets);
    var levels, finals := Levels(group, registry), FinalLevels(group, registry, targets);
    forall i | 0 <= i < |group|
      ensures 0 <= finals[i] <= MAX_BUILDINGS && (finals[i] != levels[i] ==> Buildable(group[i]))
    {
      FinalLevelIs(board, registry, player, group, targets, i);
    }
    assert InRange(finals) by { RangeOf(finals); }
    HeightsKeep(levels, direction);
    HeightsKeep(finals, direction);
    steps := Reach(Heights(levels, direction), Heights(finals, direction));
    forall k | 0 <= k < |steps|
      ensures Buildable(group[steps[k]])
    {
      HeightAt(levels, steps[k], direction);
      HeightAt(finals, steps[k], direction);
    }
    assert AllBuildable(group, steps);
    StepsAreClimbs(board, registry, group, player, steps, direction);
    SameHeights(Levels(group, AfterSteps(registry, group, steps, direction)), finals, direction);
  }
  lemma HeightAt(levels: seq<int>, i: nat, direction: Direction)
    requires i < |levels|
    ensures Heights(levels, direction)[i] == Height(levels[i], direction)
  {}
  lemma RangeOf(levels: seq<int>)
    requires forall i :: 0 <= i < |levels| ==> 0 <= levels[i] <= MAX_BUILDINGS
    ensures InRange(levels)
  {}
  lemma FinalLevelIs(board: Board, registry: Registry, player: PlayerId, group: seq<Tile>, targets: Targets, i: nat)
    requires Ready(board, registry, group, player) && Names(group, registry, targets) && i < |group|
    requires forall k :: 0 <= k < |targets| ==> CheckTarget(board, registry, player, group[0].group, targets[k]).Ok?
    ensures var level := FinalLevels(group, registry, targets)[i];
            0 <= level <= MAX_BUILDINGS && (level != Levels(group, registry)[i] ==> Buildable(group[i]))
  {
    var current := StateOf(registry, group[i].id).houses;
    assert 0 <= Levels(group, registry)[i] <= MAX_BUILDINGS;
    TargetFound(targets, group[i].id, current);
    hide CheckTarget, StateOf, TargetLevel, Buildable, HoldsFullGroup, GroupOf;
    if k :|
         0 <= k < |targets| && targets[k].0 == group[i].id &&
         TargetLevel(targets, group[i].id, current) == targets[k].1
    {
      var j := CheckedTarget(board, registry, player, group, targets[k]);
      GroupIds(board, group, registry, player);
    }
  }

  lemma StepsMakePlan(board: Board, registry: Registry, player: PlayerId, group: seq<Tile>, targets: Targets,
          direction: Direction, steps: seq<nat>)
    requires Ready(board, registry, group, player) && Names(group, registry, targets)
    requires StepsReach(board, registry, player, group, steps, direction, FinalLevels(group, registry, targets))
    ensures PlanBuildings(board, registry, player, targets, direction).Ok?
    ensures var plan := PlanBuildings(board, registry, player, targets, direction).value;
            PlanPrice(board, plan.changes, direction) == StepWeights(Weights(board, group, direction), steps) &&
            plan.buildings == |steps|
  {
    hide PlanBuildings, StepsAllowed, CheckTarget, Even, Below, InRange, Buildable, StateOf, Heights, Levels,
      FinalLevels, AfterSteps, MayClimb, Climb;
    var levels, finals := Levels(group, registry), FinalLevels(group, registry, targets);
    var h, f := Heights(levels, direction), Heights(finals, direction);
    HeightsKeep(levels, direction);
    HeightsKeep(finals, direction);
    StepsAreClimbs(board, registry, group, player, steps, direction);
    ClimbKeepsEven(h, steps);
    assert f == Climb(h, steps);
    forall k | 0 <= k < |targets| ensures CheckTarget(board, registry, player, group[0].group, targets[k]).Ok? {
      var i := CheckedTarget(board, registry, player, group, targets[k]);
      LevelChanges(group, registry, targets, k, i);
      HeightAt(levels, i, direction);
      HeightAt(finals, i, direction);
      ChangedWasRaised(h, steps, i);
      InRangeAt(finals, i);
    }
    EveryTargetChecked(board, registry, player, group[0].group, targets);
    AcceptedPlan(board, registry, player, group, targets, direction);
    ChangesFollowHeights(board, group, registry, targets, direction);
    ClimbWeight(Weights(board, group, direction), h, steps);
    GapCountsSteps(h, steps);
  }
  lemma InRangeAt(levels: seq<int>, i: nat)
    requires InRange(levels) && i < |levels|
    ensures 0 <= levels[i] <= MAX_BUILDINGS
  {}
  lemma {:induction false} GapCountsSteps(h: seq<int>, steps: seq<nat>)
    requires MayClimb(h, steps)
    ensures Gap(h, Climb(h, steps)) == |steps|
    decreases |steps|
  {
    if steps == [] { GapToItself(h); } else {
      GapAfterRaise(h, Climb(h, steps), steps[0]);
      GapCountsSteps(Raise(h, steps[0]), steps[1..]);
    }
  }
  lemma {:induction false} GapToItself(h: seq<int>)
    ensures Gap(h, h) == 0
  {
    if h != [] { GapToItself(h[1..]); }
  }

  // On a ready group a plan for changed levels is accepted exactly when single steps, each allowed
  // where it is taken, lead to those levels; every such sequence costs what the plan costs.
  lemma PlanIsStepByStep(board: Board, registry: Registry, player: PlayerId, group: seq<Tile>, targets: Targets,
          direction: Direction)
    requires Ready(board, registry, group, player) && Names(group, registry, targets)
    ensures PlanBuildings(board, registry, player, targets, direction).Ok? <==>
            exists steps :: StepsReach(board, registry, player, group, steps, direction,
                FinalLevels(group, registry, targets))
    ensures forall steps :: StepsReach(board, registry, player, group, steps, direction,
            FinalLevels(group, registry, targets)) ==>
              (var plan := PlanBuildings(board, registry, player, targets, direction).value;
               PlanPrice(board, plan.changes, direction) == StepWeights(Weights(board, group, direction), steps) &&
                   plan.buildings == |steps|)
  {
    hide PlanBuildings, StepsAllowed, AfterSteps, Levels, Ready, Names, FinalLevels, StepWeights, PlanPrice, Weights;
    if PlanBuildings(board, registry, player, targets, direction).Ok? {
      var steps := PlanHasSteps(board, registry, player, group, targets, direction);
    }
    forall steps | StepsReach(board, registry, player, group, steps, direction, FinalLevels(group, registry, targets))
      ensures PlanBuildings(board, registry, player, targets, direction).Ok?
      ensures var plan := PlanBuildings(board, registry, player, targets, direction).value;
              PlanPrice(board, plan.changes, direction) == StepWeights(Weights(board, group, direction), steps) &&
                  plan.buildings == |steps|
    {
      StepsMakePlan(board, registry, player, group, targets, direction, steps);
    }
  }

  // ----- The planning loops -----

  lemma {:induction false} CountAppend(changes: seq<PropertyChange>, change: PropertyChange)
    ensures BuildingCount(changes + [change]) ==
            BuildingCount(changes) + Magnitude(change.after.houses - change.before.houses)
  {
    if changes == [] { assert changes + [change] == [change]; } else {
      CountAppend(changes[1..], change);
      assert (changes + [change])[1..] == changes[1..] + [change];
    }
  }

  method PlanGroup(board: Board, registry: Registry, player: PlayerId, targets: Targets,
          direction: Direction) returns (r: Result<Plan, BankError>)
    ensures r == PlanBuildings(board, registry, player, targets, direction)
  {
    hide StateOf, FindTile, GroupOf, HoldsFullGroup, GroupHasMortgage, CheckTarget, CheckTargets, GroupChanges,
      BuildingCount, FinalLevels, Highest, Lowest;
    if targets == [] { return Err(InvalidBuildTarget); }
    var first :- RequireTile(board, targets[0].0);
    var group := GroupOf(board.tiles, first.group);
    var checked := CheckEach(board, registry, player, first.group, targets);
    if checked.Err? { return Err(checked.error); }
    if !HoldsFullGroup(group, registry, player) { return Err(BuildRequiresFullGroup); }
    if GroupHasMortgage(group, registry) { return Err(BuildMortgagedGroup); }
    var planned := CollectChanges(group, registry, targets, direction);
    if planned.Err? { return Err(planned.error); }
    var (changes, buildings, finals) := planned.value;
    if changes == [] { return Err(InvalidBuildTarget); }
    if board.rules.buildEvenly && finals != [] && Highest(finals) - Lowest(finals) > 1 { return Err(BuildUneven); }
    r := Ok(Plan(changes, buildings));
  }

  method CheckEach(board: Board, registry: Registry, player: PlayerId, group: nat,
          targets: Targets) returns (r: Result<(), BankError>)
    ensures r == CheckTargets(board, registry, player, group, targets)
  {
    hide CheckTarget;
    for k := 0 to |targets|
      invariant CheckTargets(board, registry, player, group, targets) ==
                CheckTargets(board, registry, player, group, targets[k..])
    {
      assert targets[k..][1..] == targets[k + 1..];
      var checked := CheckTarget(board, registry, player, group, targets[k]);
      if checked.Err? { return Err(checked.error); }
    }
    r := Ok(());
  }

  method CollectChanges(group: seq<Tile>, registry: Registry, targets: Targets, direction: Direction)
    returns (r: Result<(seq<PropertyChange>, int, seq<int>), BankError>)
    ensures var changes := GroupChanges(group, registry, targets, direction);
            if changes.Ok? then r == Ok((changes.value, BuildingCount(changes.value),
                FinalLevels(group, registry, targets)))
            else r == Err(changes.error)
  {
    hide StateOf, TargetLevel;
    var changes, buildings, finals := [], 0, [];
    PrependNothing(GroupChanges(group, registry, targets, direction));
    assert group[0..] == group;
    for k := 0 to |group|
      invariant finals == FinalLevels(group, registry, targets)[..k]
      invariant buildings == BuildingCount(changes)
      invariant GroupChanges(group, registry, targets, direction) ==
                Prepend(changes, GroupChanges(group[k..], registry, targets, direction))
    {
      assert group[k..][1..] == group[k + 1..];
      var state := StateOf(registry, group[k].id);
      var level := TargetLevel(targets, group[k].id, state.houses);
      finals := finals + [level];
      if level == state.houses { continue; }
      if Against(direction, state.houses, level) { return Err(InvalidBuildTarget); }
      var change := BuildingChange(group[k].id, state, level);
      CountAppend(changes, change);
      PrependTwice(changes, change, GroupChanges(group[k + 1..], registry, targets, direction));
      buildings := buildings + Magnitude(level - state.houses);
      changes := changes + [change];
    }
    assert changes + [] == changes;
    assert FinalLevels(group, registry, targets)[..|group|] == FinalLevels(group, registry, targets);
    r := Ok((changes, buildings, finals));
  }
  lemma PrependNothing(rest: Result<seq<PropertyChange>, BankError>)
    ensures Prepend([], rest) == rest
  {
    if rest.Ok? { assert [] + rest.value == rest.value; }
  }
  function Prepend(changes: seq<PropertyChange>, rest: Result<seq<PropertyChange>,
          BankError>): Result<seq<PropertyChange>, BankError> {
    if rest.Ok? then Ok(changes + rest.value) else rest
  }
  lemma PrependTwice(changes: seq<PropertyChange>, change: PropertyChange, rest: Result<seq<PropertyChange>, BankError>)
    ensures Prepend(changes, Prepend([change], rest)) == Prepend(changes + [change], rest)
  {
    if rest.Ok? { assert changes + ([change] + rest.value) == changes + [change] + rest.value; }
  }
}
