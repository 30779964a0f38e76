/** What every run of operations other than reversals keeps of the registry: who may own what, and
    where buildings may stand. */
module RegistryOrder {
  import opened Results
  import opened Property
  import opened Banking
  import opened BankState
  import opened BankRuns
  import BuildingPlan

  // Every tile has its row, within bounds; an unowned tile is bare; an owner is still in the game.
  ghost predicate TileInOrder(registry: Registry, players: seq<Player>, t: Tile) {
    var state := StateOf(registry, t.id);
    HasRow(registry, t.id) && 0 <= state.houses <= MAX_BUILDINGS &&
    if state.owner.None? then state == UNOWNED else IsActive(players, state.owner.value)
  }
  // A building stands only in a group held by one player, free of mortgages and, where the board
  // asks for it, evenly built.
  predicate GroupInOrder(board: Board, registry: Registry, t: Tile, u: Tile) {
    var state, mate := StateOf(registry, t.id), StateOf(registry, u.id);
    t.group == u.group && state.houses > 0 ==>
      mate.owner == state.owner && !mate.mortgaged &&
      (board.rules.buildEvenly ==> state.houses - 1 <= mate.houses <= state.houses + 1)
  }
  ghost predicate InOrder(board: Board, registry: Registry, players: seq<Player>) {
    && DistinctTiles(board.tiles) && DistinctRows(registry)
    && (forall r :: r in registry ==> exists t :: t in board.tiles && t.id == r.tileId)
    && (forall t :: t in board.tiles ==> TileInOrder(registry, players, t))
    && (forall t, u :: t in board.tiles && u in board.tiles ==> GroupInOrder(board, registry, t, u))
  }

  // A group with a building is wholly held by one player who is still in the game, unmortgaged,
  // with levels at most one apart where the board builds evenly.
  lemma BuiltGroups(board: Board, registry: Registry, players: seq<Player>, t: Tile)
    requires InOrder(board, registry, players) && t in board.tiles && StateOf(registry, t.id).houses > 0
    ensures var group := GroupOf(board.tiles, t.group);
            StateOf(registry, t.id).owner.Some? &&
            IsActive(players, StateOf(registry, t.id).owner.value) &&
            HoldsFullGroup(group, registry, StateOf(registry, t.id).owner.value) &&
                !GroupHasMortgage(group, registry) &&
            (board.rules.buildEvenly ==> Highest(Levels(group, registry)) - Lowest(Levels(group, registry)) <= 1)
  {
    hide StateOf, Lowest, Highest, HoldsFullGroup, GroupOf;
    var group := GroupOf(board.tiles, t.group);
    var owner := StateOf(registry, t.id).owner.value;
    assert TileInOrder(registry, players, t);
    forall u | u in group
      ensures StateOf(registry, u.id).owner == Some(owner)
    {
      assert GroupInOrder(board, registry, t, u);
    }
    FullGroupMeansEveryTile(group, registry, owner);
    forall i | 0 <= i < |group|
      ensures !StateOf(registry, group[i].id).mortgaged
    {
      assert GroupInOrder(board, registry, t, group[i]);
    }
    var levels := Levels(group, registry);
    forall i, j | 0 <= i < |levels| && 0 <= j < |levels| && board.rules.buildEvenly ensures levels[i] <= levels[j] + 1 {
      assert group[i] in group && group[j] in group;
      assert GroupInOrder(board, registry, group[i], group[j]) && TileInOrder(registry, players, group[j]);
    }
    var k :| 0 <= k < |group| && group[k] == t;
    BuildingPlan.SpreadIsEven(levels);
  }

  // ----- How each operation's changes look, tile by tile -----

  function After(registry: Registry, changes: seq<PropertyChange>, id: TileId): PropertyState {
    StateOf(ApplyChanges(registry, changes), id)
  }
  lemma AfterOne(registry: Registry, change: PropertyChange, id: TileId)
    requires HasRow(registry, change.tileId)
    ensures After(registry, [change], id) == if id == change.tileId then change.after else StateOf(registry, id)
  {
    StateAfterChanges(registry, [change], id);
    assert FindChange([change], id) == if id == change.tileId then Some(change) else None;
  }

  lemma {:induction false} PlannedChange(group: seq<Tile>, registry: Registry, targets: Targets, direction: Direction,
          id: TileId)
    requires DistinctTiles(group) && GroupChanges(group, registry, targets, direction).Ok?
    ensures var found := FindChange(GroupChanges(group, registry, targets, direction).value, id);
            if (exists t :: t in group && t.id == id) &&
                TargetLevel(targets, id, StateOf(registry, id).houses) != StateOf(registry, id).houses
            then found == Some(BuildingChange(id, StateOf(registry, id),
                TargetLevel(targets, id, StateOf(registry, id).houses)))
            else found == None
  {
    hide StateOf, TargetLevel;
    if group != [] {
      PlannedChange(group[1..], registry, targets, direction, id);
      assert forall t :: t in group <==> t == group[0] || t in group[1..];
      var changes := GroupChanges(group, registry, targets, direction).value;
      var rest := GroupChanges(group[1..], registry, targets, direction).value;
      assert changes == rest || changes[1..] == rest;
      forall t | t in group[1..] ensures t.id != group[0].id { var j :| 0 <= j < |group[1..]| && group[1..][j] == t; }
    }
  }

  lemma {:induction false} HandedOver(registry: Registry, player: PlayerId, creditor: Option<PlayerId>, id: TileId)
    requires DistinctRows(registry)
    ensures var found := FindChange(HandOvers(registry, player, creditor), id);
            if HasRow(registry, id) && StateOf(registry, id).owner == Some(player)
            then found == Some(HandOver(Row(id, StateOf(registry, id)), creditor)) else found == None
  {
    if registry != [] {
      HandedOver(registry[1..], player, creditor, id);
      RowOrRest(registry, id);
      if HasRow(registry[1..], id) { var j :| 0 <= j < |registry[1..]| && registry[1..][j].tileId == id; }
      var all, rest := HandOvers(registry, player, creditor), HandOvers(registry[1..], player, creditor);
      assert all == rest || all[1..] == rest;
    }
  }

  // ----- The registry after each kind of change -----

  lemma ShapeKept(board: Board, registry: Registry, changes: seq<PropertyChange>)
    requires DistinctRows(registry) && forall r :: r in registry ==> exists t :: t in board.tiles && t.id == r.tileId
    ensures DistinctRows(ApplyChanges(registry, changes))
    ensures forall r :: r in ApplyChanges(registry, changes) ==> exists t :: t in board.tiles && t.id == r.tileId
  {
    hide FindChange;
    var after := ApplyChanges(registry, changes);
    assert forall i :: 0 <= i < |registry| ==> after[i].tileId == registry[i].tileId;
    forall r | r in after ensures exists t :: t in board.tiles && t.id == r.tileId {
      var i :| 0 <= i < |after| && after[i] == r;
      assert registry[i] in registry;
    }
  }

  // The order holds again if it holds of every tile and every pair of group mates.
  lemma OrderFrom(board: Board, registry: Registry, players: seq<Player>, changes: seq<PropertyChange>,
          remaining: seq<Player>)
    requires InOrder(board, registry, players)
    requires forall t :: t in board.tiles ==> TileInOrder(ApplyChanges(registry, changes), remaining, t)
    requires forall t, u :: t in board.tiles && u in board.tiles ==>
             GroupInOrder(board, ApplyChanges(registry, changes), t, u)
    ensures InOrder(board, ApplyChanges(registry, changes), remaining)
  {
    hide StateOf, FindChange, ApplyChanges;
    ShapeKept(board, registry, changes);
  }

  lemma AcquiredKeepsOrder(board: Board, registry: Registry, players: seq<Player>, tile: Tile, player: PlayerId)
    requires InOrder(board, registry, players) && tile in board.tiles && StateOf(registry, tile.id).owner.None? &&
             IsActive(players, player)
    ensures InOrder(board, ApplyChanges(registry, [OwnerChange(tile.id, StateOf(registry, tile.id), Some(player))]),
            players)
  {
    hide StateOf, ApplyChanges, IsActive;
    var change := OwnerChange(tile.id, StateOf(registry, tile.id), Some(player));
    var next := ApplyChanges(registry, [change]);
    assert TileInOrder(registry, players, tile);
    forall t | t in board.tiles ensures TileInOrder(next, players, t) {
      assert TileInOrder(registry, players, t);
      AfterOne(registry, change, t.id);
      StateAfterChanges(registry, [change], t.id);
    }
    forall t, u | t in board.tiles && u in board.tiles ensures GroupInOrder(board, next, t, u) {
      assert GroupInOrder(board, registry, t, u) && TileInOrder(registry, players, t);
      AfterOne(registry, change, t.id);
      AfterOne(registry, change, u.id);
    }
    OrderFrom(board, registry, players, [change], players);
  }

  lemma MortgagedKeepsOrder(board: Board, registry: Registry, players: seq<Player>, tile: Tile, mortgaged: bool)
    requires InOrder(board, registry, players) && tile in board.tiles && StateOf(registry, tile.id).owner.Some?
    requires mortgaged ==> !GroupHasBuildings(GroupOf(board.tiles, tile.group), registry)
    ensures InOrder(board, ApplyChanges(registry, [MortgageChange(tile.id, StateOf(registry, tile.id), mortgaged)]),
            players)
  {
    hide StateOf, ApplyChanges, IsActive, GroupOf;
    var change := MortgageChange(tile.id, StateOf(registry, tile.id), mortgaged);
    var next := ApplyChanges(registry, [change]);
    assert TileInOrder(registry, players, tile);
    forall t | t in board.tiles ensures TileInOrder(next, players, t) {
      assert TileInOrder(registry, players, t);
      AfterOne(registry, change, t.id);
      StateAfterChanges(registry, [change], t.id);
    }
    forall t, u | t in board.tiles && u in board.tiles ensures GroupInOrder(board, next, t, u) {
      assert GroupInOrder(board, registry, t, u) && TileInOrder(registry, players, t);
      AfterOne(registry, change, t.id);
      AfterOne(registry, change, u.id);
      if mortgaged && t.group == u.group && u.id == tile.id {
        BareGroup(board, registry, tile, t);
        SameTile(board, tile, u);
      }
    }
    OrderFrom(board, registry, players, [change], players);
  }
  lemma BareGroup(board: Board, registry: Registry, tile: Tile, t: Tile)
    requires t in board.tiles && t.group == tile.group && !GroupHasBuildings(GroupOf(board.tiles, tile.group), registry)
    ensures StateOf(registry, t.id).houses <= 0
  {
    hide StateOf, GroupOf;
    var group := GroupOf(board.tiles, tile.group);
    var i :| 0 <= i < |group| && group[i] == t;
  }
  lemma SameTile(board: Board, t: Tile, u: Tile)
    requires DistinctTiles(board.tiles) && t in board.tiles && u in board.tiles && t.id == u.id
    ensures t == u
  {}

  // ----- Buildings -----

  lemma PlanFacts(board: Board, registry: Registry, player: PlayerId, targets: Targets,
          direction: Direction) returns (group: seq<Tile>)
    requires PlanBuildings(board, registry, player, targets, direction).Ok?
    ensures group != [] && group == GroupOf(board.tiles, group[0].group)
    ensures HoldsFullGroup(group, registry, player) && !GroupHasMortgage(group, registry)
    ensures GroupChanges(group, registry, targets, direction) ==
            Ok(PlanBuildings(board, registry, player, targets, direction).value.changes)
    ensures board.rules.buildEvenly ==> BuildingPlan.Even(FinalLevels(group, registry, targets))
    ensures forall k :: 0 <= k < |targets| ==> 0 <= targets[k].1 <= MAX_BUILDINGS
    ensures PlanBuildings(board, registry, player, targets, direction).value.changes != []
  {
    hide StateOf, FindTile, CheckTarget, GroupChanges, Lowest, Highest, BuildingPlan.Even, HoldsFullGroup,
      GroupHasMortgage, FinalLevels, BuildingCount;
    var first := FindTile(board.tiles, targets[0].0).value;
    group := GroupOf(board.tiles, first.group);
    assert first in group;
    BuildingPlan.EveryTargetChecked(board, registry, player, first.group, targets);
    BuildingPlan.SpreadIsEven(FinalLevels(group, registry, targets));
    forall k | 0 <= k < |targets| ensures 0 <= targets[k].1 <= MAX_BUILDINGS {
      CheckedRange(board, registry, player, first.group, targets[k]);
    }
  }
  lemma CheckedRange(board: Board, registry: Registry, player: PlayerId, group: nat, target: (TileId, int))
    requires CheckTarget(board, registry, player, group, target).Ok?
    ensures 0 <= target.1 <= MAX_BUILDINGS
  {
    hide StateOf, FindTile;
  }
  lemma FinalInRange(targets: Targets, id: TileId, current: int)
    requires 0 <= current <= MAX_BUILDINGS && forall k :: 0 <= k < |targets| ==> 0 <= targets[k].1 <= MAX_BUILDINGS
    ensures 0 <= TargetLevel(targets, id, current) <= MAX_BUILDINGS
  {
    hide TargetLevel;
    BuildingPlan.TargetFound(targets, id, current);
  }

  lemma {:induction false} PlannedTilesDiffer(group: seq<Tile>, registry: Registry, targets: Targets,
          direction: Direction)
    requires DistinctTiles(group) && GroupChanges(group, registry, targets, direction).Ok?
    ensures DistinctChanges(GroupChanges(group, registry, targets, direction).value)
    ensures forall c :: c in GroupChanges(group, registry, targets, direction).value ==>
            exists t :: t in group && t.id == c.tileId
  {
    hide StateOf, TargetLevel;
    if group != [] {
      PlannedTilesDiffer(group[1..], registry, targets, direction);
      assert forall t :: t in group <==> t == group[0] || t in group[1..];
      var changes := GroupChanges(group, registry, targets, direction).value;
      var rest := GroupChanges(group[1..], registry, targets, direction).value;
      forall t | t in group[1..] ensures t.id != group[0].id { var j :| 0 <= j < |group[1..]| && group[1..][j] == t; }
      assert changes == rest || changes == [changes[0]] + rest;
    }
  }
  // A tile after the plan: the same but for its level, if it is of the group.
  lemma AfterPlan(board: Board, registry: Registry, group: seq<Tile>, targets: Targets, direction: Direction, t: Tile)
    requires DistinctTiles(board.tiles) && group != [] && group == GroupOf(board.tiles, group[0].group)
    requires GroupChanges(group, registry, targets, direction).Ok? && t in board.tiles && HasRow(registry, t.id)
    ensures var state := StateOf(registry, t.id);
            After(registry, GroupChanges(group, registry, targets, direction).value, t.id) ==
            if t.group == group[0].group then state.(houses := TargetLevel(targets, t.id, state.houses)) else state
  {
    hide StateOf, FindChange, GroupChanges, TargetLevel, ApplyChanges;
    GroupDistinct(board.tiles, group[0].group);
    PlannedChange(group, registry, targets, direction, t.id);
    StateAfterChanges(registry, GroupChanges(group, registry, targets, direction).value, t.id);
    if t.group == group[0].group { assert t in group; }
    else if exists u :: u in group && u.id == t.id {
      var u :| u in group && u.id == t.id;
      SameTile(board, t, u);
    }
  }

  lemma PlannedKeepsOrder(board: Board, registry: Registry, players: seq<Player>, player: PlayerId, targets: Targets,
          direction: Direction)
    requires InOrder(board, registry, players) && IsActive(players, player)
    requires PlanBuildings(board, registry, player, targets, direction).Ok?
    ensures InOrder(board, ApplyChanges(registry,
            PlanBuildings(board, registry, player, targets, direction).value.changes), players)
  {
    hide StateOf, ApplyChanges, IsActive, GroupOf, GroupChanges, HoldsFullGroup, GroupHasMortgage, FinalLevels,
      BuildingPlan.Even, TargetLevel, PlanBuildings;
    var group := PlanFacts(board, registry, player, targets, direction);
    var changes := GroupChanges(group, registry, targets, direction).value;
    var next := ApplyChanges(registry, changes);
    forall t | t in board.tiles ensures TileInOrder(next, players, t) {
      assert TileInOrder(registry, players, t);
      AfterPlan(board, registry, group, targets, direction, t);
      StateAfterChanges(registry, changes, t.id);
      FinalInRange(targets, t.id, StateOf(registry, t.id).houses);
      if t.group == group[0].group { HeldTile(group, registry, player, t); }
    }
    forall t, u | t in board.tiles && u in board.tiles ensures GroupInOrder(board, next, t, u) {
      assert GroupInOrder(board, registry, t, u) && TileInOrder(registry, players, t) &&
          TileInOrder(registry, players, u);
      AfterPlan(board, registry, group, targets, direction, t);
      AfterPlan(board, registry, group, targets, direction, u);
      if t.group == u.group == group[0].group {
        HeldTile(group, registry, player, t);
        HeldTile(group, registry, player, u);
        if board.rules.buildEvenly { FinalsWithin(group, registry, targets, t, u); }
      }
    }
    OrderFrom(board, registry, players, changes, players);
  }
  lemma HeldTile(group: seq<Tile>, registry: Registry, player: PlayerId, t: Tile)
    requires t in group && HoldsFullGroup(group, registry, player) && !GroupHasMortgage(group, registry)
    ensures StateOf(registry, t.id).owner == Some(player) && !StateOf(registry, t.id).mortgaged
  {
    hide StateOf;
    FullGroupMeansEveryTile(group, registry, player);
    var i :| 0 <= i < |group| && group[i] == t;
  }
  lemma FinalsWithin(group: seq<Tile>, registry: Registry, targets: Targets, t: Tile, u: Tile)
    requires t in group && u in group && BuildingPlan.Even(FinalLevels(group, registry, targets))
    ensures var a, b := TargetLevel(targets, t.id, StateOf(registry, t.id).houses),
            TargetLevel(targets, u.id, StateOf(registry, u.id).houses);
            a - 1 <= b <= a + 1
  {
    hide StateOf, TargetLevel;
    var i :| 0 <= i < |group| && group[i] == t;
    var j :| 0 <= j < |group| && group[j] == u;
    var f := FinalLevels(group, registry, targets);
    assert f[i] <= f[j] + 1 && f[j] <= f[i] + 1;
  }

  // ----- Trades -----

  lemma MovedTile(board: Board, registry: Registry, trade: Trade, c: PropertyChange) returns (to: PlayerId)
    requires TradeMoves(board, registry, trade).Ok? && c in TradeMoves(board, registry, trade).value.changes
    ensures to == trade.proposer || to == trade.counterparty
    ensures c == OwnerChange(c.tileId, StateOf(registry, c.tileId), Some(to))
    ensures StateOf(registry, c.tileId).owner in {Some(trade.proposer), Some(trade.counterparty)}
    ensures FindTile(board.tiles, c.tileId).Some? &&
            !GroupHasBuildings(GroupOf(board.tiles, FindTile(board.tiles, c.tileId).value.group), registry)
  {
    hide StateOf, FindTile, GroupOf, GroupHasBuildings, MoveTiles;
    var given := MoveTiles(board, registry, trade.give, trade.proposer, trade.counterparty).value;
    var taken := MoveTiles(board, registry, trade.take, trade.counterparty, trade.proposer).value;
    if c in given.0 {
      var i :| 0 <= i < |given.0| && given.0[i] == c;
      assert MoveTile(board, registry, trade.give[i], trade.proposer, trade.counterparty).Ok?;
      to := trade.counterparty;
    } else {
      var i :| 0 <= i < |taken.0| && taken.0[i] == c;
      assert MoveTile(board, registry, trade.take[i], trade.counterparty, trade.proposer).Ok?;
      to := trade.proposer;
    }
  }
  // A tile after a trade: as it was, or with a new active owner if its group is bare.
  lemma AfterTrade(board: Board, registry: Registry, players: seq<Player>, trade: Trade, t: Tile)
    requires TradeMoves(board, registry, trade).Ok? && DistinctTiles(board.tiles) && t in board.tiles &&
             HasRow(registry, t.id)
    requires IsActive(players, trade.proposer) && IsActive(players, trade.counterparty)
    ensures var state, after := StateOf(registry, t.id),
            After(registry, TradeMoves(board, registry, trade).value.changes, t.id);
            after == state || (after == state.(owner := after.owner) && after.owner.Some? &&
                IsActive(players, after.owner.value) && state.owner.Some? &&
                               !GroupHasBuildings(GroupOf(board.tiles, t.group), registry))
  {
    hide StateOf, FindTile, GroupOf, GroupHasBuildings, TradeMoves, IsActive, FindChange, ApplyChanges;
    var changes := TradeMoves(board, registry, trade).value.changes;
    StateAfterChanges(registry, changes, t.id);
    FoundChange(changes, t.id);
    if FindChange(changes, t.id).Some? {
      var to := MovedTile(board, registry, trade, FindChange(changes, t.id).value);
      BuildingPlan.TileIsFound(board, t);
    }
  }
  lemma TradeChanges(board: Board, registry: Registry, trade: Trade)
    requires TradeMoves(board, registry, trade).Ok?
    ensures var changes, ids := TradeMoves(board, registry, trade).value.changes, trade.give + trade.take;
            |changes| == |ids| && forall i :: 0 <= i < |ids| ==>
              changes[i] == OwnerChange(ids[i], StateOf(registry, ids[i]),
                  Some(if i < |trade.give| then trade.counterparty else trade.proposer)) &&
              StateOf(registry, ids[i]).owner.Some?
  {
    hide StateOf, FindTile, GroupOf, GroupHasBuildings, MoveTiles, OwnerChange;
    var changes, ids := TradeMoves(board, registry, trade).value.changes, trade.give + trade.take;
    var given := MoveTiles(board, registry, trade.give, trade.proposer, trade.counterparty).value.0;
    var taken := MoveTiles(board, registry, trade.take, trade.counterparty, trade.proposer).value.0;
    forall i | 0 <= i < |ids|
      ensures changes[i] == OwnerChange(ids[i], StateOf(registry, ids[i]),
              Some(if i < |trade.give| then trade.counterparty else trade.proposer))
      ensures StateOf(registry, ids[i]).owner.Some?
    {
      if i < |given| {
        assert changes[i] == given[i] && MoveTile(board, registry, trade.give[i], trade.proposer,
            trade.counterparty).Ok?;
      } else {
        assert changes[i] == taken[i - |given|] &&
            MoveTile(board, registry, trade.take[i - |given|], trade.counterparty, trade.proposer).Ok?;
      }
    }
  }
  lemma TradedTilesDiffer(board: Board, registry: Registry, trade: Trade)
    requires TradeMoves(board, registry, trade).Ok? && !Repeats(trade.give + trade.take)
    ensures DistinctChanges(TradeMoves(board, registry, trade).value.changes)
  {
    hide StateOf, TradeMoves;
    TradeChanges(board, registry, trade);
  }
  // Every tile given ends with the counterparty, every tile taken with the proposer, mortgage and
  // all; nothing else moves.
  lemma TradeSwapsTiles(board: Board, registry: Registry, trade: Trade, id: TileId)
    requires TradeMoves(board, registry, trade).Ok? && !Repeats(trade.give + trade.take)
    ensures var after := After(registry, TradeMoves(board, registry, trade).value.changes, id);
            after == if id in trade.give then StateOf(registry, id).(owner := Some(trade.counterparty))
                     else if id in trade.take then StateOf(registry, id).(owner := Some(trade.proposer))
                          else StateOf(registry, id)
  {
    hide StateOf, TradeMoves, FindChange, ApplyChanges;
    var changes, ids := TradeMoves(board, registry, trade).value.changes, trade.give + trade.take;
    TradeChanges(board, registry, trade);
    StateAfterChanges(registry, changes, id);
    FoundChange(changes, id);
    assert DistinctChanges(changes);
    if id in ids {
      var i :| 0 <= i < |ids| && ids[i] == id;
      FindChangeAt(changes, i);
      BuildingPlan.OwnerHasRow(registry, id);
      OnWhichSide(trade, i);
    } else {
      forall c | c in changes ensures c.tileId != id {
        var k :| 0 <= k < |changes| && changes[k] == c;
        assert ids[k] in ids;
      }
    }
  }
  lemma OnWhichSide(trade: Trade, i: nat)
    requires !Repeats(trade.give + trade.take) && i < |trade.give + trade.take|
    ensures (trade.give + trade.take)[i] in trade.give <==> i < |trade.give|
  {
    var ids := trade.give + trade.take;
    forall j | 0 <= j < |trade.give| && j != i ensures trade.give[j] != ids[i] { assert trade.give[j] == ids[j]; }
  }
  lemma TradedKeepsOrder(board: Board, registry: Registry, players: seq<Player>, trade: Trade)
    requires InOrder(board, registry, players) && TradeMoves(board, registry, trade).Ok?
    requires IsActive(players, trade.proposer) && IsActive(players, trade.counterparty)
    ensures InOrder(board, ApplyChanges(registry, TradeMoves(board, registry, trade).value.changes), players)
  {
    hide StateOf, ApplyChanges, IsActive, GroupOf, GroupHasBuildings, TradeMoves;
    var changes := TradeMoves(board, registry, trade).value.changes;
    var next := ApplyChanges(registry, changes);
    forall t | t in board.tiles ensures TileInOrder(next, players, t) {
      assert TileInOrder(registry, players, t);
      AfterTrade(board, registry, players, trade, t);
      StateAfterChanges(registry, changes, t.id);
    }
    forall t, u | t in board.tiles && u in board.tiles ensures GroupInOrder(board, next, t, u) {
      assert GroupInOrder(board, registry, t, u) && TileInOrder(registry, players, t) &&
          TileInOrder(registry, players, u);
      AfterTrade(board, registry, players, trade, t);
      AfterTrade(board, registry, players, trade, u);
      if t.group == u.group && !GroupHasBuildings(GroupOf(board.tiles, t.group), registry) {
        BareGroup(board, registry, t, t);
      }
    }
    OrderFrom(board, registry, players, changes, players);
  }

  // ----- Bankruptcy -----

  lemma HandedOverKeepsOrder(board: Board, registry: Registry, players: seq<Player>, remaining: seq<Player>,
          id: PlayerId, creditor: Option<PlayerId>)
    requires InOrder(board, registry, players) && creditor != Some(id) &&
             (creditor.Some? ==> IsActive(players, creditor.value))
    requires forall p :: p != id && IsActive(players, p) ==> IsActive(remaining, p)
    ensures InOrder(board, ApplyChanges(registry, HandOvers(registry, id, creditor)), remaining)
  {
    hide StateOf, ApplyChanges, IsActive, HandOvers, FindChange;
    var changes := HandOvers(registry, id, creditor);
    var next := ApplyChanges(registry, changes);
    forall t | t in board.tiles ensures TileInOrder(next, remaining, t) {
      assert TileInOrder(registry, players, t);
      HandedOver(registry, id, creditor, t.id);
      StateAfterChanges(registry, changes, t.id);
    }
    forall t, u | t in board.tiles && u in board.tiles ensures GroupInOrder(board, next, t, u) {
      assert GroupInOrder(board, registry, t, u) && TileInOrder(registry, players, t) &&
          TileInOrder(registry, players, u);
      HandedOver(registry, id, creditor, t.id);
      HandedOver(registry, id, creditor, u.id);
      StateAfterChanges(registry, changes, t.id);
      StateAfterChanges(registry, changes, u.id);
    }
    OrderFrom(board, registry, players, changes, remaining);
  }

  // ----- Every operation -----

  lemma NothingApplied(registry: Registry)
    ensures ApplyChanges(registry, []) == registry
  {}
  lemma OrderForPlayers(board: Board, registry: Registry, players: seq<Player>, later: seq<Player>)
    requires InOrder(board, registry, players) && forall p :: IsActive(players, p) ==> IsActive(later, p)
    ensures InOrder(board, registry, later)
  {
    hide StateOf, IsActive, HasRow, GroupInOrder;
    forall t | t in board.tiles ensures TileInOrder(registry, later, t) { assert TileInOrder(registry, players, t); }
  }
  lemma OwnedOnBoard(board: Board, registry: Registry, players: seq<Player>, tileId: TileId) returns (tile: Tile)
    requires InOrder(board, registry, players) && StateOf(registry, tileId).owner.Some?
    ensures tile in board.tiles && tile.id == tileId
  {
    hide StateOf, TileInOrder, GroupInOrder;
    BuildingPlan.OwnerHasRow(registry, tileId);
    var i :| 0 <= i < |registry| && registry[i].tileId == tileId;
    assert registry[i] in registry;
    tile :| tile in board.tiles && tile.id == tileId;
  }

  lemma ChangesKeepOrder(s: State, op: Operation)
    requires InOrder(s.board, s.registry, s.players) && Perform(s, op).Ok? && !op.GoBankrupt?
    ensures InOrder(s.board, ApplyChanges(s.registry, Perform(s, op).value.registryChanges), s.players)
  {
    hide InOrder, Perform, BankGain, Settles, StateOf, FindTile, ApplyChanges, IsActive, PlanBuildings,
      BuildingTargets, TradeMoves, Repeats, CheckCanMortgage, OwnerChange, MortgageChange, RecordsMortgage;
    PerformSettles(s, op);
    match op
    case Buy(p, tile, _) => AcquiredKeepsOrder(s.board, s.registry, s.players, FindTile(s.board.tiles, tile).value, p);
    case WinAuction(p, amount, lot) =>
      if lot.Some? { AcquiredKeepsOrder(s.board, s.registry, s.players, FindTile(s.board.tiles, lot.value).value, p); }
      else { NothingApplied(s.registry); }
    case MortgageBoard(p, tile) =>
      MayBeMortgaged(s.board, s.registry, tile, p);
      MortgagedKeepsOrder(s.board, s.registry, s.players, FindTile(s.board.tiles, tile).value, true);
    case Redeem(p, m) =>
      if s.mortgages[m].tile.Some? {
        var tile := OwnedOnBoard(s.board, s.registry, s.players, s.mortgages[m].tile.value);
        MortgagedKeepsOrder(s.board, s.registry, s.players, tile, false);
      } else { NothingApplied(s.registry); }
    case BuildOn(p, works) => PlannedKeepsOrder(s.board, s.registry, s.players, p,
        BuildingTargets(s.registry, works, Build).value, Build);
    case SellFrom(p, works) => PlannedKeepsOrder(s.board, s.registry, s.players, p,
        BuildingTargets(s.registry, works, Sell).value, Sell);
    case Exchange(trade) => TradedKeepsOrder(s.board, s.registry, s.players, trade);
    case _ => NothingApplied(s.registry);
  }
  lemma MayBeMortgaged(board: Board, registry: Registry, tileId: TileId, player: PlayerId)
    requires CheckCanMortgage(board, registry, tileId, player).Ok?
    ensures FindTile(board.tiles, tileId).Some? && StateOf(registry, tileId).owner.Some?
    ensures !GroupHasBuildings(GroupOf(board.tiles, FindTile(board.tiles, tileId).value.group), registry)
  {
    hide StateOf, FindTile, GroupOf;
  }

  lemma StillActive(players: seq<Player>, changes: seq<BalanceChange>, bankrupt: Option<PlayerId>, p: PlayerId)
    requires IsActive(players, p) && bankrupt != Some(p)
    ensures IsActive(Bankrupted(UpdatedPlayers(players, changes), bankrupt), p)
  {
    hide FindBalance;
    var q :| q in players && q.id == p && !q.bankrupt;
    var i :| 0 <= i < |players| && players[i] == q;
    var next := Bankrupted(UpdatedPlayers(players, changes), bankrupt);
    assert next[i] in next && next[i].id == p && !next[i].bankrupt;
  }

  lemma StepKeepsOrder(s: State, op: Operation)
    requires InOrder(s.board, s.registry, s.players)
    ensures InOrder(s.board, Step(s, op).registry, Step(s, op).players) && Step(s, op).board == s.board
  {
    hide InOrder, Perform, BankGain, Settles, WalletsStand, Matches, ApplyChanges, Bankrupted, UpdatedPlayers,
      IsActive, RecordsMortgage;
    if Takes(s, s, op) {
      PerformSettles(s, op);
      var pending, next := Perform(s, op).value, Step(s, op);
      if op.GoBankrupt? {
        forall p | p != op.player && IsActive(s.players, p)
          ensures IsActive(next.players, p)
        {
          StillActive(s.players, pending.changes, pending.bankrupt, p);
        }
        HandedOverKeepsOrder(s.board, s.registry, s.players, next.players, op.player, op.creditor);
      } else {
        ChangesKeepOrder(s, op);
        forall p | IsActive(s.players, p)
          ensures IsActive(next.players, p)
        {
          StillActive(s.players, pending.changes, pending.bankrupt, p);
        }
        OrderForPlayers(s.board, next.registry, s.players, next.players);
      }
    }
  }

  // A new game starts in order: every tile has a row and nobody owns one.
  function NewRegistry(board: Board): (r: Registry)
    ensures |r| == |board.tiles|
  {
    seq(|board.tiles|, i requires 0 <= i < |board.tiles| => Row(board.tiles[i].id, UNOWNED))
  }
  lemma NewGameInOrder(board: Board, players: seq<Player>)
    requires DistinctTiles(board.tiles)
    ensures InOrder(board, NewRegistry(board), players)
  {
    hide StateOf;
    var registry := NewRegistry(board);
    forall t | t in board.tiles ensures HasRow(registry, t.id) && StateOf(registry, t.id) == UNOWNED {
      var i :| 0 <= i < |board.tiles| && board.tiles[i] == t;
      assert registry[i].tileId == t.id;
      StateOfRow(registry, i);
    }
    forall r | r in registry ensures exists t :: t in board.tiles && t.id == r.tileId {
      var i :| 0 <= i < |registry| && registry[i] == r;
      assert board.tiles[i] in board.tiles;
    }
  }
}
