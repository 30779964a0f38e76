/** No money from nothing: cash, plus what the buildings resell for, minus what redeeming the
    mortgages costs before interest, never rises by trading with the bank or among the players. */
module Arbitrage {
  import opened Arithmetic
  import opened Results
  import opened Property
  import opened Banking
  import opened BankState
  import opened BankRuns
  import opened RegistryOrder
  import opened MortgageRecords
  import BuildingPlan

  // Prices are not negative, and a building never sells for more than it costs.
  ghost predicate SoundPrices(board: Board) {
    board.rules.refundPart <= board.rules.refundWhole &&
    forall t :: t in board.tiles ==> t.mortgage >= 0 && (t.houseCost.Some? ==> t.houseCost.value >= 0)
  }

  function MortgageValue(board: Board, tileId: TileId): int {
    match FindTile(board.tiles, tileId)
    case Some(tile) => tile.mortgage
    case None => 0
  }
  function Worth(board: Board, tileId: TileId, state: PropertyState): int {
    state.houses * SellRefund(board, tileId) - if state.mortgaged then MortgageValue(board, tileId) else 0
  }
  function Assets(board: Board, registry: Registry): int {
    if registry == [] then 0 else Worth(board, registry[0].tileId, registry[0].state) + Assets(board, registry[1..])
  }
  function Potential(s: State): int { Wallets(s.players) + Assets(s.board, s.registry) }

  // ----- What changes do to the assets -----

  function WorthGain(board: Board, c: PropertyChange): int {
    Worth(board, c.tileId, c.after) - Worth(board, c.tileId, c.before)
  }
  function WorthGains(board: Board, changes: seq<PropertyChange>): int {
    if changes == [] then 0 else WorthGain(board, changes[0]) + WorthGains(board, changes[1..])
  }
  function RowGains(board: Board, registry: Registry, changes: seq<PropertyChange>): int {
    if registry == [] then 0
    else
      (match FindChange(changes, registry[0].tileId) case Some(c) => WorthGain(board, c) case None => 0) +
          RowGains(board, registry[1..], changes)
  }
  function RowsOf(registry: Registry, id: TileId): nat {
    if registry == [] then 0 else (if registry[0].tileId == id then 1 else 0) + RowsOf(registry[1..], id)
  }
  ghost predicate RowsStand(registry: Registry, changes: seq<PropertyChange>) {
    forall i :: 0 <= i < |registry| && FindChange(changes, registry[i].tileId).Some? ==>
        FindChange(changes, registry[i].tileId).value.before == registry[i].state
  }

  lemma {:induction false} AppliedAssets(board: Board, registry: Registry, changes: seq<PropertyChange>)
    requires RowsStand(registry, changes)
    ensures Assets(board, ApplyChanges(registry, changes)) ==
            Assets(board, registry) + RowGains(board, registry, changes)
  {
    hide FindChange, Worth;
    if registry != [] {
      assert ApplyChanges(registry, changes)[1..] == ApplyChanges(registry[1..], changes);
      forall i | 0 <= i < |registry[1..]| && FindChange(changes, registry[1..][i].tileId).Some?
        ensures FindChange(changes, registry[1..][i].tileId).value.before ==
                registry[1..][i].state { assert registry[1..][i] == registry[i + 1]; }
      AppliedAssets(board, registry[1..], changes);
      FoundChange(changes, registry[0].tileId);
    }
  }
  lemma {:induction false} RowGainsOfOneMore(board: Board, registry: Registry, c: PropertyChange,
          changes: seq<PropertyChange>)
    requires forall d :: d in changes ==> d.tileId != c.tileId
    ensures RowGains(board, registry, [c] + changes) ==
            RowGains(board, registry, changes) + WorthGain(board, c) * RowsOf(registry, c.tileId)
  {
    hide FindChange, WorthGain;
    if registry != [] {
      RowGainsOfOneMore(board, registry[1..], c, changes);
      FirstOf(c, changes, registry[0].tileId);
      FoundChange(changes, c.tileId);
      Distribute(WorthGain(board, c), RowsOf(registry[1..], c.tileId));
    }
  }
  lemma FirstOf(c: PropertyChange, changes: seq<PropertyChange>, id: TileId)
    ensures FindChange([c] + changes, id) == if c.tileId == id then Some(c) else FindChange(changes, id)
  {
    assert ([c] + changes)[1..] == changes;
  }
  lemma {:induction false} OneRowOf(registry: Registry, id: TileId)
    requires DistinctRows(registry)
    ensures RowsOf(registry, id) == if HasRow(registry, id) then 1 else 0
  {
    if registry != [] {
      OneRowOf(registry[1..], id);
      RowOrRest(registry, id);
      if HasRow(registry[1..], id) { var j :| 0 <= j < |registry[1..]| && registry[1..][j].tileId == id; }
    }
  }
  lemma {:induction false} RowGainsOfNothing(board: Board, registry: Registry)
    ensures RowGains(board, registry, []) == 0
  {
    if registry != [] { RowGainsOfNothing(board, registry[1..]); }
  }
  lemma {:induction false} RowGainsAreWorthGains(board: Board, registry: Registry, changes: seq<PropertyChange>)
    requires DistinctRows(registry) && DistinctChanges(changes) && forall c :: c in changes ==>
             HasRow(registry, c.tileId)
    ensures RowGains(board, registry, changes) == WorthGains(board, changes)
  {
    hide WorthGain, HasRow;
    if changes == [] { RowGainsOfNothing(board, registry); } else {
      assert changes == [changes[0]] + changes[1..];
      RowGainsAreWorthGains(board, registry, changes[1..]);
      forall d | d in changes[1..]
        ensures d.tileId != changes[0].tileId
      {
        var j :| 0 <= j < |changes[1..]| && changes[1..][j] == d;
      }
      RowGainsOfOneMore(board, registry, changes[0], changes[1..]);
      OneRowOf(registry, changes[0].tileId);
    }
  }
  lemma AssetsAfter(board: Board, registry: Registry, changes: seq<PropertyChange>)
    requires DistinctRows(registry) && DistinctChanges(changes) && Matches(registry, changes)
    ensures Assets(board, ApplyChanges(registry, changes)) == Assets(board, registry) + WorthGains(board, changes)
  {
    hide FindChange, StateOf, HasRow, Worth;
    forall i | 0 <= i < |registry| && FindChange(changes, registry[i].tileId).Some?
      ensures FindChange(changes, registry[i].tileId).value.before == registry[i].state
    {
      FoundChange(changes, registry[i].tileId);
      StateOfRow(registry, i);
    }
    AppliedAssets(board, registry, changes);
    RowGainsAreWorthGains(board, registry, changes);
  }

  // ----- The price of a plan against its worth -----

  lemma RefundIsAtMostCost(board: Board, tileId: TileId)
    requires SoundPrices(board)
    ensures 0 <= SellRefund(board, tileId) <= BuildCost(board, tileId)
  {
    hide FindTile;
    var cost := BuildCost(board, tileId);
    assert cost >= 0;
    PartOfWhole(cost, board.rules.refundPart, board.rules.refundWhole);
  }
  lemma PartOfWhole(cost: int, part: nat, whole: Positive)
    requires cost >= 0 && part <= whole
    ensures 0 <= cost * part / whole <= cost
  {
    Monotone(cost, part, whole);
    Monotone(cost, 0, part);
    QuotientBound(cost * part, whole, cost);
  }
  lemma QuotientBound(a: int, d: Positive, top: int)
    requires 0 <= a <= top * d
    ensures 0 <= a / d <= top
  {
    var q := a / d;
    Division(a, d);
    if q > top { Monotone(d, top + 1, q); Commutes(d, top + 1); Commutes(d, q); Difference(top + 1, top, d); }
    if q < 0 { Monotone(d, q, -1); Commutes(d, q); }
  }
  lemma {:induction false} PlanWorth(board: Board, group: seq<Tile>, registry: Registry, targets: Targets,
          direction: Direction)
    requires SoundPrices(board) && GroupChanges(group, registry, targets, direction).Ok?
    ensures var changes := GroupChanges(group, registry, targets, direction).value;
            if direction == Build then WorthGains(board, changes) <= PlanPrice(board, changes, Build)
            else WorthGains(board, changes) == -PlanPrice(board, changes, Sell)
  {
    hide StateOf, TargetLevel, SellRefund, BuildCost, MortgageValue, SoundPrices;
    if group != [] {
      PlanWorth(board, group[1..], registry, targets, direction);
      var changes := GroupChanges(group, registry, targets, direction).value;
      var rest := GroupChanges(group[1..], registry, targets, direction).value;
      if changes != rest {
        assert changes[1..] == rest;
        RefundIsAtMostCost(board, group[0].id);
        LevelWorth(board, changes[0], direction);
      }
    }
  }
  lemma LevelWorth(board: Board, c: PropertyChange, direction: Direction)
    requires c.after == c.before.(houses := c.after.houses) && Climbed(direction, c) >= 0
    requires 0 <= SellRefund(board, c.tileId) <= BuildCost(board, c.tileId)
    ensures if direction == Build then WorthGain(board, c) <= Climbed(Build, c) * UnitPrice(board, c.tileId, Build)
            else WorthGain(board, c) == -(Climbed(Sell, c) * UnitPrice(board, c.tileId, Sell))
  {
    hide SellRefund, BuildCost, MortgageValue;
    Difference(c.after.houses, c.before.houses, SellRefund(board, c.tileId));
    if direction == Build {
      Monotone(c.after.houses - c.before.houses, SellRefund(board, c.tileId), BuildCost(board, c.tileId));
    }
    else { Negated(c.after.houses - c.before.houses, SellRefund(board, c.tileId)); }
  }

  // ----- Steps and runs -----

  // Building, selling buildings, mortgaging and redeeming board tiles, and trading.
  predicate Trading(s: State, op: Operation) {
    op.BuildOn? || op.SellFrom? || op.MortgageBoard? || op.Exchange? ||
    (op.Redeem? && (op.mortgageId < |s.mortgages| ==> s.mortgages[op.mortgageId].tile.Some?))
  }

  lemma FeesNotNegative(board: Board, registry: Registry, tileIds: seq<TileId>, from: PlayerId, to: PlayerId)
    requires SoundPrices(board) && MoveTiles(board, registry, tileIds, from, to).Ok?
    ensures MoveTiles(board, registry, tileIds, from, to).value.1 >= 0
  {
    hide StateOf, FindTile, GroupHasBuildings, GroupOf;
    if tileIds != [] { FeesNotNegative(board, registry, tileIds[1..], from, to); }
  }
  lemma {:induction false} MovesKeepWorth(board: Board, changes: seq<PropertyChange>)
    requires forall c :: c in changes ==> c.after.houses == c.before.houses && c.after.mortgaged == c.before.mortgaged
    ensures WorthGains(board, changes) == 0
  {
    hide SellRefund, MortgageValue;
    if changes != [] { MovesKeepWorth(board, changes[1..]); }
  }
  lemma OneWorth(board: Board, c: PropertyChange)
    ensures WorthGains(board, [c]) == WorthGain(board, c)
  {
    assert [c][1..] == [];
  }

  // The bank's gain covers whatever worth a trading operation adds.
  lemma GainCoversWorth(s: State, op: Operation)
    requires TableInOrder(s.board, s.registry) && InStep(s) && SoundPrices(s.board) && Trading(s, op) &&
             Perform(s, op).Ok?
    ensures WorthGains(s.board, Perform(s, op).value.registryChanges) <= BankGain(s, op)
  {
    hide Perform, Settles, PlanBuildings, PlanPrice, BuildingTargets, TradeMoves, CheckCanMortgage, FindTile, StateOf,
      RedemptionCost, BankLoanInterest, IsActive, MortgageChange, Repeats, TableInOrder, InStep, WorthGains,
      SoundPrices, Worth, RecordsMortgage;
    PerformSettles(s, op);
    match op
    case BuildOn(p, works) => PlanCovered(s, p, BuildingTargets(s.registry, works, Build).value, Build);
    case SellFrom(p, works) => PlanCovered(s, p, BuildingTargets(s.registry, works, Sell).value, Sell);
    case MortgageBoard(p, tile) =>
      OneWorth(s.board, MortgageChange(tile, StateOf(s.registry, tile), true));
      Unflagged(s.board, s.registry, tile, p);
      FlagWorth(s.board, tile, StateOf(s.registry, tile), true);
    case Redeem(p, m) =>
      var id := s.mortgages[m].tile.value;
      OneWorth(s.board, MortgageChange(id, StateOf(s.registry, id), false));
      RecordValue(s, m);
      FlagWorth(s.board, id, StateOf(s.registry, id), false);
    case Exchange(trade) => TradeCovered(s, trade);
  }
  lemma FlagWorth(board: Board, tileId: TileId, state: PropertyState, mortgaged: bool)
    requires state.mortgaged != mortgaged
    ensures WorthGain(board, MortgageChange(tileId, state, mortgaged)) == if mortgaged
            then -MortgageValue(board, tileId) else MortgageValue(board, tileId)
    ensures FindTile(board.tiles, tileId).Some? ==>
            MortgageValue(board, tileId) == FindTile(board.tiles, tileId).value.mortgage
  {
    hide SellRefund, FindTile;
  }
  lemma RecordValue(s: State, m: nat)
    requires TableInOrder(s.board, s.registry) && InStep(s) && SoundPrices(s.board)
    requires m < |s.mortgages| && s.mortgages[m].state.InForce? && s.mortgages[m].tile.Some?
    ensures MortgageValue(s.board, s.mortgages[m].tile.value) <= RedemptionCost(s.mortgages[m].value)
  {
    hide StateOf, HasRow, FindTile, OneRecordEach, Records;
    assert RecordInStep(s, s.mortgages[m]);
    var t :| t in s.board.tiles && t.id == s.mortgages[m].tile.value && t.mortgage == s.mortgages[m].value;
    BuildingPlan.TileIsFound(s.board, t);
  }
  lemma PlanCovered(s: State, p: PlayerId, targets: Targets, direction: Direction)
    requires TableInOrder(s.board, s.registry) && SoundPrices(s.board) &&
             PlanBuildings(s.board, s.registry, p, targets, direction).Ok?
    ensures var changes := PlanBuildings(s.board, s.registry, p, targets, direction).value.changes;
            if direction == Build then WorthGains(s.board, changes) <= PlanPrice(s.board, changes, Build)
            else WorthGains(s.board, changes) == -PlanPrice(s.board, changes, Sell)
  {
    hide PlanBuildings, StateOf, GroupOf, HoldsFullGroup, GroupHasMortgage, FinalLevels, GroupChanges,
      BuildingPlan.Even, WorthGains, PlanPrice;
    var group := PlanFacts(s.board, s.registry, p, targets, direction);
    PlanWorth(s.board, group, s.registry, targets, direction);
  }
  lemma TradeCovered(s: State, trade: Trade)
    requires SoundPrices(s.board) && TradeMoves(s.board, s.registry, trade).Ok?
    ensures WorthGains(s.board, TradeMoves(s.board, s.registry, trade).value.changes) <=
            TradeMoves(s.board, s.registry, trade).value.proposerFee +
                TradeMoves(s.board, s.registry, trade).value.counterpartyFee
  {
    hide MoveTiles, StateOf, FindTile, SoundPrices;
    var changes := TradeMoves(s.board, s.registry, trade).value.changes;
    FeesNotNegative(s.board, s.registry, trade.give, trade.proposer, trade.counterparty);
    FeesNotNegative(s.board, s.registry, trade.take, trade.counterparty, trade.proposer);
    forall c | c in changes ensures c.after.houses == c.before.houses && c.after.mortgaged == c.before.mortgaged {
      var to := MovedTile(s.board, s.registry, trade, c);
    }
    MovesKeepWorth(s.board, changes);
  }

  lemma ChangesDiffer(s: State, op: Operation)
    requires TableInOrder(s.board, s.registry) && Trading(s, op) && Perform(s, op).Ok?
    ensures DistinctChanges(Perform(s, op).value.registryChanges)
  {
    hide Perform, BankGain, Settles, PlanBuildings, BuildingTargets, TradeMoves, CheckCanMortgage, FindTile, StateOf,
      IsActive, MortgageChange, Repeats, TableInOrder, RecordsMortgage;
    PerformSettles(s, op);
    match op
    case BuildOn(p, works) => PlanDiffers(s, p, BuildingTargets(s.registry, works, Build).value, Build);
    case SellFrom(p, works) => PlanDiffers(s, p, BuildingTargets(s.registry, works, Sell).value, Sell);
    case Exchange(trade) => TradedTilesDiffer(s.board, s.registry, trade);
    case _ =>
  }
  lemma PlanDiffers(s: State, p: PlayerId, targets: Targets, direction: Direction)
    requires TableInOrder(s.board, s.registry) && PlanBuildings(s.board, s.registry, p, targets, direction).Ok?
    ensures DistinctChanges(PlanBuildings(s.board, s.registry, p, targets, direction).value.changes)
  {
    hide PlanBuildings, StateOf, GroupOf, HoldsFullGroup, GroupHasMortgage, FinalLevels, GroupChanges,
      BuildingPlan.Even;
    var group := PlanFacts(s.board, s.registry, p, targets, direction);
    GroupDistinct(s.board.tiles, group[0].group);
    PlannedTilesDiffer(group, s.registry, targets, direction);
  }
  lemma TradingNeverGains(s: State, op: Operation)
    requires TableInOrder(s.board, s.registry) && InStep(s) && SoundPrices(s.board) && DistinctPlayers(s.players) &&
             Trading(s, op)
    ensures Potential(Step(s, op)) <= Potential(s)
  {
    hide InStep, SoundPrices, Perform, BankGain, WalletsStand, ApplyChanges, Bankrupted, UpdatedPlayers,
      MovedMortgages, Matches, DistinctChanges, Settles, Wallets, Assets, ChangesTiles, RecordsMortgage, StateOf,
      HasRow;
    if Takes(s, s, op) {
      var pending := Perform(s, op).value;
      PerformSettles(s, op);
      CommitConserves(s.players, s, pending, BankGain(s, op));
      FreshReadClearsNothing(s, op);
      ForgottenIs(s, s, op);
      GainCoversWorth(s, op);
      ChangesDiffer(s, op);
      AssetsAfter(s.board, s.registry, pending.registryChanges);
    }
  }

  ghost predicate OnlyTrading(s: State, ops: seq<Operation>)
    decreases |ops|
  {
    ops == [] || (Trading(s, ops[0]) && OnlyTrading(Step(s, ops[0]), ops[1..]))
  }
  lemma {:induction false} RunNeverGains(s: State, ops: seq<Operation>)
    requires TableInOrder(s.board, s.registry) && InStep(s) && SoundPrices(s.board) && DistinctPlayers(s.players) &&
             OnlyTrading(s, ops)
    ensures Potential(Run(s, ops)) <= Potential(s) && Run(s, ops).board == s.board
    decreases |ops|
  {
    hide TableInOrder, InStep, SoundPrices, Step, Takes, Potential;
    if ops != [] {
      TradingNeverGains(s, ops[0]);
      StepKeepsTable(s, ops[0]);
      StepKeepsRecords(s, ops[0]);
      CommitKeepsPlayers(s, ops[0]);
      RunNeverGains(Step(s, ops[0]), ops[1..]);
    }
  }

  // A run of trading that ends with the registry it started from leaves no more cash in the game.
  lemma NoArbitrage(s: State, ops: seq<Operation>)
    requires TableInOrder(s.board, s.registry) && InStep(s) && SoundPrices(s.board) && DistinctPlayers(s.players) &&
             OnlyTrading(s, ops)
    requires Run(s, ops).registry == s.registry
    ensures Wallets(Run(s, ops).players) <= Wallets(s.players)
  {
    hide Run, TableInOrder, InStep, SoundPrices, OnlyTrading, Wallets, Assets;
    RunNeverGains(s, ops);
  }
}
