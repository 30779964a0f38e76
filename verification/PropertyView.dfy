/** What the client shows of the board, against what the server decides. */
module PropertyView {
  import opened Results
  import opened Property
  import opened Banking
  import BuildingPlan

  // A tile with its registry row; a missing row counts as a free tile.
  datatype TileView = TileView(tile: Tile, owner: Option<PlayerId>, mortgaged: bool, houses: int)

  // The lookup table keeps the last row given for a tile.
  function RowFor(registry: Registry, tileId: TileId): PropertyState {
    if registry == [] then UNOWNED
    else if registry[|registry| - 1].tileId == tileId then registry[|registry| - 1].state
    else RowFor(registry[..|registry| - 1], tileId)
  }
  function ViewOf(registry: Registry, tile: Tile): TileView {
    var state := RowFor(registry, tile.id);
    TileView(tile, state.owner, state.mortgaged, state.houses)
  }
  function TileViews(tiles: seq<Tile>, registry: Registry): (views: seq<TileView>)
    ensures |views| == |tiles|
  {
    seq(|tiles|, i requires 0 <= i < |tiles| => ViewOf(registry, tiles[i]))
  }

  function OwnedIn(views: seq<TileView>, group: nat, owner: PlayerId): nat {
    if views == [] then 0
    else
      (if views[0].tile.group == group && views[0].owner == Some(owner) then 1 else 0) +
          OwnedIn(views[1..], group, owner)
  }
  function SizeOf(views: seq<TileView>, group: nat): nat {
    if views == [] then 0 else (if views[0].tile.group == group then 1 else 0) + SizeOf(views[1..], group)
  }
  predicate Monopoly(views: seq<TileView>, group: nat, owner: PlayerId) {
    SizeOf(views, group) > 0 && OwnedIn(views, group, owner) == SizeOf(views, group)
  }
  predicate BuiltIn(views: seq<TileView>, group: nat) {
    exists i :: 0 <= i < |views| && views[i].tile.group == group && views[i].houses > 0
  }

  datatype TileRent = Amount(amount: int) | Dice(multiplier: int) | Nothing

  function RentOf(board: Board, views: seq<TileView>, view: TileView): TileRent {
    if view.owner.None? || view.mortgaged then Nothing
    else
      var owned := OwnedIn(views, view.tile.group, view.owner.value);
      match view.tile.kind
      case Railway => if owned in board.rules.railwayRent then Amount(board.rules.railwayRent[owned]) else Nothing
      case Utility => if owned in board.rules.utilityMultiplier then Dice(board.rules.utilityMultiplier[owned])
                      else Nothing
      case Street =>
        if view.tile.rent.None? || |view.tile.rent.value| != 6 then Nothing
        else if view.houses > 0 then Amount(view.tile.rent.value[if view.houses < 5 then view.houses else 5])
        else
          var base := view.tile.rent.value[0];
          Amount(if Monopoly(views, view.tile.group, view.owner.value) && !BuiltIn(views, view.tile.group)
                 then base * board.rules.monopolyMultiplier else base)
  }
  predicate IsDiceSum(n: int) { 2 <= n <= 12 }

  function RentDue(board: Board, views: seq<TileView>, view: TileView, diceSum: Option<int>): Option<int> {
    match RentOf(board, views, view)
    case Amount(amount) => Some(amount)
    case Dice(multiplier) => if diceSum.Some? &&
        IsDiceSum(diceSum.value) then Some(diceSum.value * multiplier * UTILITY_RENT_UNIT) else None
    case Nothing => None
  }
  predicate Mortgageable(views: seq<TileView>, view: TileView, player: PlayerId) {
    view.owner == Some(player) && !view.mortgaged && !BuiltIn(views, view.tile.group)
  }

  // ----- The views show the registry -----

  // One row per tile and no negative level: constraints of the registry table.
  ghost predicate Table(board: Board, registry: Registry) {
    DistinctTiles(board.tiles) && DistinctRows(registry) && forall t :: t in board.tiles ==>
        StateOf(registry, t.id).houses >= 0
  }

  lemma {:induction false} LastRowIsTheRow(registry: Registry, tileId: TileId)
    requires DistinctRows(registry)
    ensures RowFor(registry, tileId) == StateOf(registry, tileId)
    decreases |registry|
  {
    if registry != [] {
      var n := |registry| - 1;
      if registry[n].tileId == tileId { StateOfRow(registry, n); } else {
        LastRowIsTheRow(registry[..n], tileId);
        DropOther(registry, tileId);
      }
    }
  }
  lemma {:induction false} DropOther(registry: Registry, tileId: TileId)
    requires registry != [] && registry[|registry| - 1].tileId != tileId
    ensures StateOf(registry[..|registry| - 1], tileId) == StateOf(registry, tileId)
    decreases |registry|
  {
    var n := |registry| - 1;
    if n > 0 && registry[0].tileId != tileId {
      DropOther(registry[1..], tileId);
      assert registry[1..][..n - 1] == registry[..n][1..];
    }
  }
  lemma ViewShows(board: Board, registry: Registry, i: nat)
    requires Table(board, registry) && i < |board.tiles|
    ensures var state := StateOf(registry, board.tiles[i].id);
            TileViews(board.tiles, registry)[i] == TileView(board.tiles[i], state.owner, state.mortgaged, state.houses)
  {
    hide RowFor, StateOf;
    LastRowIsTheRow(registry, board.tiles[i].id);
  }
  lemma {:induction false} CountsAgree(tiles: seq<Tile>, registry: Registry, group: nat, owner: PlayerId)
    requires DistinctRows(registry)
    ensures OwnedIn(TileViews(tiles, registry), group, owner) == OwnedCount(GroupOf(tiles, group), registry, owner)
    ensures SizeOf(TileViews(tiles, registry), group) == |GroupOf(tiles, group)|
  {
    hide RowFor, StateOf;
    if tiles != [] {
      var views := TileViews(tiles, registry);
      assert views[1..] == TileViews(tiles[1..], registry);
      CountsAgree(tiles[1..], registry, group, owner);
      LastRowIsTheRow(registry, tiles[0].id);
      var rest := GroupOf(tiles[1..], group);
      if tiles[0].group == group { assert ([tiles[0]] + rest)[1..] == rest; } else { assert [] + rest == rest; }
    }
  }
  lemma BuildingsAgree(board: Board, registry: Registry, group: nat)
    requires Table(board, registry)
    ensures BuiltIn(TileViews(board.tiles, registry), group) <==>
            GroupHasBuildings(GroupOf(board.tiles, group), registry)
  {
    hide RowFor, StateOf;
    var views, tiles := TileViews(board.tiles, registry), GroupOf(board.tiles, group);
    if i :| 0 <= i < |views| && views[i].tile.group == group && views[i].houses > 0 {
      ViewShows(board, registry, i);
      assert board.tiles[i] in tiles;
      var k :| 0 <= k < |tiles| && tiles[k] == board.tiles[i];
    }
    if k :| 0 <= k < |tiles| && StateOf(registry, tiles[k].id).houses > 0 {
      assert tiles[k] in board.tiles;
      var i :| 0 <= i < |board.tiles| && board.tiles[i] == tiles[k];
      ViewShows(board, registry, i);
      assert views[i].houses > 0;
    }
  }

  function Known(rent: Outcomes<int>): Option<int> { if rent.Ok? then Some(rent.value) else None }

  // An owned, unmortgaged tile whose rent the board lists.
  predicate OwesRent(board: Board, registry: Registry, tile: Tile) {
    var state := StateOf(registry, tile.id);
    state.owner.Some? && !state.mortgaged &&
    match tile.kind
    case Street => tile.rent.Some? && |tile.rent.value| == 6
    case Railway => OwnedCount(GroupOf(board.tiles, tile.group), registry, state.owner.value) in board.rules.railwayRent
    case Utility => OwnedCount(GroupOf(board.tiles, tile.group), registry,
        state.owner.value) in board.rules.utilityMultiplier
  }
  // The client's rent is the server's exactly when the dice total is given for a utility and only
  // there, between 2 and 12 - or when the tile owes no rent at all.
  lemma RentDueIsTheRent(board: Board, registry: Registry, i: nat, diceSum: Option<int>)
    requires Table(board, registry) && i < |board.tiles|
    ensures var views := TileViews(board.tiles, registry);
            var tile := board.tiles[i];
            RentDue(board, views, views[i], diceSum) == Known(RentFor(board, registry, tile.id, diceSum)) <==>
            diceSum.None? || !OwesRent(board, registry, tile) || (tile.kind == Utility && IsDiceSum(diceSum.value))
  {
    hide RowFor, StateOf, OwnedIn, SizeOf, OwnedCount, GroupOf, BuiltIn, GroupHasBuildings, FindTile, TileViews;
    var tile := board.tiles[i];
    var state := StateOf(registry, tile.id);
    ViewShows(board, registry, i);
    assert tile in board.tiles;
    FindTileAt(board.tiles, i);
    if state.owner.Some? { CountsAgree(board.tiles, registry, tile.group, state.owner.value); }
    BuildingsAgree(board, registry, tile.group);
    assert tile in GroupOf(board.tiles, tile.group);
  }

  // A dice total given for a built street: the client shows its rent, the server refuses.
  lemma StrayDiceAreShownARent()
    ensures var street := Tile(1, Some(1), Street, 0, 600_000, 300_000,
            Some([20_000, 100_000, 300_000, 900_000, 1_600_000, 2_500_000]), Some(500_000));
            var board := Board([street], Rules(2, true, 1, 2, map[], map[]));
            var registry := [Row(1, PropertyState(Some(7), false, 1))];
            var views := TileViews(board.tiles, registry);
            Table(board, registry) && RentDue(board, views, views[0], Some(6)) == Some(100_000) &&
            RentFor(board, registry, 1, Some(6)) == Err(DiceSum) && RentFor(board, registry, 1, None) == Ok(100_000)
  {
    var street := Tile(1, Some(1), Street, 0, 600_000, 300_000,
        Some([20_000, 100_000, 300_000, 900_000, 1_600_000, 2_500_000]), Some(500_000));
    var registry := [Row(1, PropertyState(Some(7), false, 1))];
    assert RowFor(registry, 1) == registry[0].state && StateOf(registry, 1) == registry[0].state;
    assert FindTile([street], 1) == Some(street);
  }

  lemma MortgageableIsMortgageable(board: Board, registry: Registry, i: nat, player: PlayerId)
    requires Table(board, registry) && i < |board.tiles|
    ensures var views := TileViews(board.tiles, registry);
            Mortgageable(views, views[i], player) <==> CanMortgage(board, registry, board.tiles[i].id, player)
  {
    hide RowFor, StateOf, GroupOf, FindTile, TileViews, BuiltIn;
    var tile := board.tiles[i];
    ViewShows(board, registry, i);
    assert tile in board.tiles;
    FindTileAt(board.tiles, i);
    BuildingsAgree(board, registry, tile.group);
    var group := GroupOf(board.tiles, tile.group);
    var k :| 0 <= k < |group| && group[k] == tile;
  }

  // ----- Buildings -----

  // The rows behind the views, for the shared building rules.
  function RegistryOf(views: seq<TileView>): (r: Registry)
    ensures |r| == |views|
  {
    seq(|views|, i requires 0 <= i < |views| =>
        Row(views[i].tile.id, PropertyState(views[i].owner, views[i].mortgaged, views[i].houses)))
  }
  function HousesShown(views: seq<TileView>, tileId: TileId): int {
    if views == [] then 0 else if views[0].tile.id == tileId then views[0].houses else HousesShown(views[1..], tileId)
  }
  // Only the streets whose level changes.
  function ChangedTargets(views: seq<TileView>, levels: Targets): Targets {
    if levels == [] then []
    else
      (if levels[0].1 != HousesShown(views, levels[0].0) then [levels[0]] else []) + ChangedTargets(views, levels[1..])
  }
  function PreviewAmount(board: Board, changes: seq<PropertyChange>, direction: Direction): int {
    if changes == [] then 0
    else
      Magnitude(changes[0].after.houses - changes[0].before.houses) * UnitPrice(board, changes[0].tileId, direction) +
          PreviewAmount(board, changes[1..], direction)
  }
  datatype Preview = Possible(targets: Targets, buildings: int, amount: int) | NothingChanges |
          Refused(reason: BankError)

  function PreviewBuildings(board: Board, views: seq<TileView>, player: PlayerId, levels: Targets,
          direction: Direction): Preview {
    var targets := ChangedTargets(views, levels);
    if targets == [] then NothingChanges
    else match PlanBuildings(board, RegistryOf(views), player, targets, direction)
      case Ok(plan) => Possible(targets, plan.buildings, PreviewAmount(board, plan.changes, direction))
      case Err(error) => Refused(error)
  }

  // The same plan on two registries that agree on every tile of the board.
  ghost predicate SameOn(tiles: seq<Tile>, a: Registry, b: Registry) {
    forall t :: t in tiles ==> StateOf(a, t.id) == StateOf(b, t.id)
  }

  lemma {:induction false} SameCount(group: seq<Tile>, a: Registry, b: Registry, player: PlayerId)
    requires SameOn(group, a, b)
    ensures OwnedCount(group, a, player) == OwnedCount(group, b, player)
  {
    hide StateOf;
    if group != [] { assert group[0] in group; SameCount(group[1..], a, b, player); }
  }
  lemma {:induction false} SameChanges(group: seq<Tile>, a: Registry, b: Registry, targets: Targets,
          direction: Direction)
    requires SameOn(group, a, b)
    ensures GroupChanges(group, a, targets, direction) == GroupChanges(group, b, targets, direction)
  {
    hide StateOf, TargetLevel;
    if group != [] { assert group[0] in group; SameChanges(group[1..], a, b, targets, direction); }
  }
  lemma {:induction false} SameChecks(board: Board, a: Registry, b: Registry, player: PlayerId, group: nat,
          targets: Targets)
    requires SameOn(board.tiles, a, b)
    ensures CheckTargets(board, a, player, group, targets) == CheckTargets(board, b, player, group, targets)
  {
    hide StateOf, FindTile;
    if targets != [] { SameChecks(board, a, b, player, group, targets[1..]); }
  }
  lemma SamePlan(board: Board, a: Registry, b: Registry, player: PlayerId, targets: Targets, direction: Direction)
    requires SameOn(board.tiles, a, b)
    ensures PlanBuildings(board, a, player, targets, direction) == PlanBuildings(board, b, player, targets, direction)
  {
    hide StateOf, FindTile, CheckTargets, GroupChanges, TargetLevel, Lowest, Highest, BuildingCount, OwnedCount;
    if targets != [] && FindTile(board.tiles, targets[0].0).Some? {
      var first := FindTile(board.tiles, targets[0].0).value;
      var group := GroupOf(board.tiles, first.group);
      SameCount(group, a, b, player);
      SameChanges(group, a, b, targets, direction);
      SameChecks(board, a, b, player, first.group, targets);
      assert forall i :: 0 <= i < |group| ==> group[i] in group;
      assert FinalLevels(group, a, targets) == FinalLevels(group, b, targets);
    }
  }
  lemma RowsShown(board: Board, registry: Registry)
    requires Table(board, registry)
    ensures SameOn(board.tiles, RegistryOf(TileViews(board.tiles, registry)), registry)
  {
    hide RowFor, StateOf;
    var rows := RegistryOf(TileViews(board.tiles, registry));
    assert forall i :: 0 <= i < |rows| ==> rows[i].tileId == board.tiles[i].id;
    forall t | t in board.tiles ensures StateOf(rows, t.id) == StateOf(registry, t.id) {
      var i :| 0 <= i < |board.tiles| && board.tiles[i] == t;
      StateOfRow(rows, i);
      ViewShows(board, registry, i);
    }
  }
  lemma {:induction false} PreviewedPrice(board: Board, group: seq<Tile>, registry: Registry, targets: Targets,
          direction: Direction)
    requires GroupChanges(group, registry, targets, direction).Ok?
    ensures PreviewAmount(board, GroupChanges(group, registry, targets, direction).value, direction) ==
            PlanPrice(board, GroupChanges(group, registry, targets, direction).value, direction)
  {
    hide StateOf, TargetLevel, UnitPrice;
    if group != [] {
      PreviewedPrice(board, group[1..], registry, targets, direction);
      var changes := GroupChanges(group, registry, targets, direction).value;
      var rest := GroupChanges(group[1..], registry, targets, direction).value;
      if changes != rest { assert changes[1..] == rest; }
    }
  }
  lemma PlanIsPriced(board: Board, registry: Registry, player: PlayerId, targets: Targets, direction: Direction)
    requires PlanBuildings(board, registry, player, targets, direction).Ok?
    ensures var changes := PlanBuildings(board, registry, player, targets, direction).value.changes;
            PreviewAmount(board, changes, direction) == PlanPrice(board, changes, direction)
  {
    hide StateOf, FindTile, CheckTargets, GroupChanges, FinalLevels, Lowest, Highest, BuildingCount, HoldsFullGroup,
      GroupHasMortgage, UnitPrice, PlanPrice, PreviewAmount;
    var first := FindTile(board.tiles, targets[0].0).value;
    PreviewedPrice(board, GroupOf(board.tiles, first.group), registry, targets, direction);
  }

  // A preview is what the server will do: the same plan, the same refusal, and the price a build is
  // charged or a sale is refunded.
  lemma PreviewIsThePlan(board: Board, registry: Registry, player: PlayerId, levels: Targets, direction: Direction)
    requires Table(board, registry)
    ensures var views := TileViews(board.tiles, registry);
            var targets := ChangedTargets(views, levels);
            match PreviewBuildings(board, views, player, levels, direction)
            case NothingChanges => targets == []
            case Refused(reason) => targets != [] &&
                PlanBuildings(board, registry, player, targets, direction) == Err(reason)
            case Possible(shown, buildings, amount) =>
              shown == targets && PlanBuildings(board, registry, player, targets, direction).Ok? &&
              var plan := PlanBuildings(board, registry, player, targets, direction).value;
              plan.buildings == buildings && PlanPrice(board, plan.changes, direction) == amount
  {
    hide StateOf, PlanBuildings, PlanPrice, PreviewAmount, TileViews, ChangedTargets, RegistryOf, SameOn;
    var views := TileViews(board.tiles, registry);
    var targets := ChangedTargets(views, levels);
    RowsShown(board, registry);
    SamePlan(board, RegistryOf(views), registry, player, targets, direction);
    if PlanBuildings(board, registry, player, targets, direction).Ok? {
      PlanIsPriced(board, registry, player, targets, direction);
    }
  }
  lemma BuildIsChargedAsPreviewed(game: Game, players: seq<Player>, board: Board, registry: Registry, player: PlayerId,
          levels: Targets)
    requires Table(board, registry)
    requires PreviewBuildings(board, TileViews(board.tiles, registry), player, levels, Build).Possible?
    requires BuildProperty(game, players, board, registry, player,
             Streets(ChangedTargets(TileViews(board.tiles, registry), levels))).Ok?
    ensures var pending := BuildProperty(game, players, board, registry, player,
            Streets(ChangedTargets(TileViews(board.tiles, registry), levels))).value;
            var amount := PreviewBuildings(board, TileViews(board.tiles, registry), player, levels, Build).amount;
            Settles(players, pending, amount) && Transfers(pending.changes, Some(player), None, amount)
  {
    hide PlanBuildings, PlanPrice, PreviewBuildings, TileViews, ChangedTargets, Settles, Transfers, BuildProperty,
      Table;
    PreviewIsThePlan(board, registry, player, levels, Build);
  }
  lemma SaleIsRefundedAsPreviewed(game: Game, players: seq<Player>, board: Board, registry: Registry, player: PlayerId,
          levels: Targets)
    requires Table(board, registry)
    requires PreviewBuildings(board, TileViews(board.tiles, registry), player, levels, Sell).Possible?
    requires SellBuilding(game, players, board, registry, player,
             Streets(ChangedTargets(TileViews(board.tiles, registry), levels))).Ok?
    ensures var pending := SellBuilding(game, players, board, registry, player,
            Streets(ChangedTargets(TileViews(board.tiles, registry), levels))).value;
            var amount := PreviewBuildings(board, TileViews(board.tiles, registry), player, levels, Sell).amount;
            Settles(players, pending, -amount) && Transfers(pending.changes, None, Some(player), amount)
  {
    hide PlanBuildings, PlanPrice, PreviewBuildings, TileViews, ChangedTargets, Settles, Transfers, SellBuilding, Table;
    PreviewIsThePlan(board, registry, player, levels, Sell);
  }

  // The loop that keeps the streets whose level changes.
  method CollectTargets(views: seq<TileView>, levels: Targets) returns (targets: Targets)
    ensures targets == ChangedTargets(views, levels)
  {
    hide HousesShown;
    targets := [];
    assert levels[0..] == levels;
    for k := 0 to |levels|
      invariant targets + ChangedTargets(views, levels[k..]) == ChangedTargets(views, levels)
    {
      assert levels[k..][1..] == levels[k + 1..];
      if levels[k].1 != HousesShown(views, levels[k].0) { targets := targets + [levels[k]]; }
    }
  }

  // ----- Trades -----

  datatype TradeOutcome = TradeOutcome(proposerFee: int, counterpartyFee: int, proposerDelta: int,
          counterpartyDelta: int)

  function Fees(board: Board, views: seq<TileView>): int {
    if views == [] then 0
    else
      var found := FindTile(board.tiles, views[0].tile.id);
      (if views[0].mortgaged && found.Some? then TransferFee(found.value) else 0) + Fees(board, views[1..])
  }
  function OutcomeOf(board: Board, give: seq<TileView>, take: seq<TileView>, cashGive: int,
          cashTake: int): TradeOutcome {
    TradeOutcome(Fees(board, take), Fees(board, give), cashTake - cashGive - Fees(board, take),
        cashGive - cashTake - Fees(board, give))
  }
  // The views picked for a list of tiles.
  ghost predicate Shows(board: Board, registry: Registry, views: seq<TileView>, tileIds: seq<TileId>) {
    |views| == |tileIds| && forall i :: 0 <= i < |views| ==>
        views[i].tile.id == tileIds[i] && views[i].mortgaged == StateOf(registry, tileIds[i]).mortgaged
  }
  lemma {:induction false} FeesAreTheMoves(board: Board, registry: Registry, views: seq<TileView>,
          tileIds: seq<TileId>, from: PlayerId, to: PlayerId)
    requires Shows(board, registry, views, tileIds) && MoveTiles(board, registry, tileIds, from, to).Ok?
    ensures Fees(board, views) == MoveTiles(board, registry, tileIds, from, to).value.1
  {
    hide StateOf, FindTile, GroupOf, GroupHasBuildings;
    if tileIds != [] { FeesAreTheMoves(board, registry, views[1..], tileIds[1..], from, to); }
  }
  // An accepted trade moves exactly what its preview says.
  lemma OutcomeIsTheTrade(game: Game, players: seq<Player>, board: Board, registry: Registry, trade: Trade,
          give: seq<TileView>, take: seq<TileView>)
    requires Shows(board, registry, give, trade.give) && Shows(board, registry, take, trade.take)
    requires TransferProperties(game, players, board, registry, trade).Ok?
    ensures var outcome := OutcomeOf(board, give, take, trade.cashGive, trade.cashTake);
            var changes := TransferProperties(game, players, board, registry, trade).value.changes;
            |changes| == 2 && changes[0].player == trade.proposer && changes[0].delta == outcome.proposerDelta &&
            changes[1].player == trade.counterparty && changes[1].delta == outcome.counterpartyDelta
  {
    hide MoveTiles, Fees, ValidateGame, FindBothActive, EnsureFunds, Settles, Repeats, IsActive, CreateBalanceChange,
      Shows;
    assert MoveTiles(board, registry, trade.give, trade.proposer, trade.counterparty).Ok?;
    assert MoveTiles(board, registry, trade.take, trade.counterparty, trade.proposer).Ok?;
    FeesAreTheMoves(board, registry, give, trade.give, trade.proposer, trade.counterparty);
    FeesAreTheMoves(board, registry, take, trade.take, trade.counterparty, trade.proposer);
  }
}
