/** The board, the property registry, and the rules for owning, mortgaging, building and rent. */
module Property {
  import opened Results

  type PlayerId = nat
  type TileId = nat

  type Positive = n: nat | 0 < n witness 1

  datatype TileKind = Street | Railway | Utility
  // A tile's name is the key it is compared by, absent if nothing usable is left of the name.
  datatype Tile = Tile(id: TileId, name: Option<nat>, kind: TileKind, group: nat, price: int, mortgage: int,
                       rent: Option<seq<int>>, houseCost: Option<int>)
  // A building sells for the fraction refundPart / refundWhole of its cost.
  datatype Rules = Rules(monopolyMultiplier: int, buildEvenly: bool, refundPart: nat, refundWhole: Positive,
                         railwayRent: map<nat, int>, utilityMultiplier: map<nat, int>)
  datatype Board = Board(tiles: seq<Tile>, rules: Rules)
  datatype PropertyState = PropertyState(owner: Option<PlayerId>, mortgaged: bool, houses: int)
  datatype Row = Row(tileId: TileId, state: PropertyState)
  datatype PropertyChange = PropertyChange(tileId: TileId, before: PropertyState, after: PropertyState)

  type Registry = seq<Row>

  datatype BankError =
    | TileNotFound | TileNotBuildable | PropertyNotOwned | PropertyMortgaged | PropertyHasBuildings
    | PropertyAlreadyOwned | BuildRequiresFullGroup | BuildMortgagedGroup | MaxBuildings | NoBuildings
    | BuildUneven | InvalidBuildTarget | DiceSum
    | InvalidGameState | InvalidAmount | PlayerNotFound | PlayerBankrupt | SameSourceAndDestination
    | InsufficientFunds | NoOtherActivePlayers | JackpotEmpty | JackpotChanged | InvalidPropertyName
    | InvalidTrade | MortgageNotFound | LoanNotFound | LoanAmountExceedsDebt | BankLoanLimitExceeded
    | BankLoanAlreadyActive | BankLoanCooldown | BankLoanFullRepaymentRequired | BankToPlayerLimitExceeded
    | CreditorShort | TransactionNotFound | TransactionNotReversible | TransactionAlreadyReversed
    | ReversalBlocked | PrincipalOutOfRange | TileRequired

  const UNOWNED: PropertyState := PropertyState(None, false, 0)
  const MAX_BUILDINGS: int := 5
  const UTILITY_RENT_UNIT: int := 1000

  // ----- Looking things up -----

  ghost predicate DistinctTiles(tiles: seq<Tile>) {
    forall i, j :: 0 <= i < j < |tiles| ==> tiles[i].id != tiles[j].id
  }
  ghost predicate DistinctRows(registry: Registry) {
    forall i, j :: 0 <= i < j < |registry| ==> registry[i].tileId != registry[j].tileId
  }
  ghost predicate DistinctChanges(changes: seq<PropertyChange>) {
    forall i, j :: 0 <= i < j < |changes| ==> changes[i].tileId != changes[j].tileId
  }

  function FindTile(tiles: seq<Tile>, tileId: TileId): (r: Option<Tile>)
    ensures r.Some? ==> r.value in tiles && r.value.id == tileId
    ensures r.None? <==> forall t :: t in tiles ==> t.id != tileId
  {
    if tiles == [] then None else if tiles[0].id == tileId then Some(tiles[0]) else FindTile(tiles[1..], tileId)
  }
  lemma {:induction false} FindTileAt(tiles: seq<Tile>, i: nat)
    requires DistinctTiles(tiles) && i < |tiles|
    ensures FindTile(tiles, tiles[i].id) == Some(tiles[i])
  {
    if i > 0 { FindTileAt(tiles[1..], i - 1); }
  }

  function RequireTile(board: Board, tileId: TileId): Result<Tile, BankError> {
    match FindTile(board.tiles, tileId)
    case Some(tile) => Ok(tile)
    case None => Err(TileNotFound)
  }

  predicate HasRow(registry: Registry, tileId: TileId) {
    exists i :: 0 <= i < |registry| && registry[i].tileId == tileId
  }

  // A tile with no row counts as unowned.
  function StateOf(registry: Registry, tileId: TileId): PropertyState {
    if registry == [] then UNOWNED
    else if registry[0].tileId == tileId then registry[0].state
    else StateOf(registry[1..], tileId)
  }
  lemma {:induction false} StateOfRow(registry: Registry, i: nat)
    requires DistinctRows(registry) && i < |registry|
    ensures StateOf(registry, registry[i].tileId) == registry[i].state
  {
    if i > 0 { StateOfRow(registry[1..], i - 1); }
  }
  lemma {:induction false} StateOfMissing(registry: Registry, tileId: TileId)
    requires !HasRow(registry, tileId)
    ensures StateOf(registry, tileId) == UNOWNED
  {
    if registry != [] {
      assert registry[0].tileId != tileId;
      forall i | 0 <= i < |registry[1..]| ensures registry[1..][i].tileId != tileId {
        assert registry[1..][i] == registry[i + 1];
      }
      StateOfMissing(registry[1..], tileId);
    }
  }

  // ----- Colour groups -----

  function GroupOf(tiles: seq<Tile>, group: nat): (r: seq<Tile>)
    ensures forall t :: t in r <==> t in tiles && t.group == group
  {
    if tiles == [] then [] else (if tiles[0].group == group then [tiles[0]] else []) + GroupOf(tiles[1..], group)
  }
  lemma {:induction false} GroupDistinct(tiles: seq<Tile>, group: nat)
    requires DistinctTiles(tiles)
    ensures DistinctTiles(GroupOf(tiles, group))
  {
    if tiles != [] {
      GroupDistinct(tiles[1..], group);
      var rest := GroupOf(tiles[1..], group);
      forall j | 0 <= j < |rest| ensures tiles[0].id != rest[j].id {
        assert rest[j] in tiles[1..];
      }
    }
  }

  function OwnedCount(group: seq<Tile>, registry: Registry, owner: PlayerId): (n: nat)
    ensures n <= |group|
  {
    if group == [] then 0
    else
      (if StateOf(registry, group[0].id).owner == Some(owner) then 1 else 0) + OwnedCount(group[1..], registry, owner)
  }
  predicate HoldsFullGroup(group: seq<Tile>, registry: Registry, owner: PlayerId) {
    OwnedCount(group, registry, owner) == |group|
  }
  lemma {:induction false} FullGroupMeansEveryTile(group: seq<Tile>, registry: Registry, owner: PlayerId)
    ensures HoldsFullGroup(group, registry, owner) <==>
            forall t :: t in group ==> StateOf(registry, t.id).owner == Some(owner)
  {
    if group != [] {
      FullGroupMeansEveryTile(group[1..], registry, owner);
      assert group[0] in group;
      assert forall t :: t in group <==> t == group[0] || t in group[1..];
    }
  }

  predicate GroupHasBuildings(group: seq<Tile>, registry: Registry) {
    exists i :: 0 <= i < |group| && StateOf(registry, group[i].id).houses > 0
  }
  predicate GroupHasMortgage(group: seq<Tile>, registry: Registry) {
    exists i :: 0 <= i < |group| && StateOf(registry, group[i].id).mortgaged
  }
  function Levels(group: seq<Tile>, registry: Registry): (levels: seq<int>)
    ensures |levels| == |group|
  {
    seq(|group|, i requires 0 <= i < |group| => StateOf(registry, group[i].id).houses)
  }
  function Lowest(levels: seq<int>): (low: int)
    requires levels != []
    ensures low in levels && forall l :: l in levels ==> low <= l
  {
    assert forall l :: l in levels <==> l == levels[0] || l in levels[1..];
    if |levels| == 1 then levels[0]
    else var rest := Lowest(levels[1..]); if levels[0] < rest then levels[0] else rest
  }
  function Highest(levels: seq<int>): (high: int)
    requires levels != []
    ensures high in levels && forall l :: l in levels ==> l <= high
  {
    assert forall l :: l in levels <==> l == levels[0] || l in levels[1..];
    if |levels| == 1 then levels[0]
    else var rest := Highest(levels[1..]); if levels[0] > rest then levels[0] else rest
  }

  // ----- Mortgages -----

  predicate CanMortgage(board: Board, registry: Registry, tileId: TileId, player: PlayerId) {
    match FindTile(board.tiles, tileId)
    case None => false
    case Some(tile) =>
      var state := StateOf(registry, tileId);
      state.owner == Some(player) && !state.mortgaged && state.houses == 0 &&
      !GroupHasBuildings(GroupOf(board.tiles, tile.group), registry)
  }

  // The precise reason a tile cannot be mortgaged.
  function CheckCanMortgage(board: Board, registry: Registry, tileId: TileId, player: PlayerId): Result<(), BankError> {
    var tile :- RequireTile(board, tileId);
    var state := StateOf(registry, tileId);
    if state.owner != Some(player) then Err(PropertyNotOwned)
    else if state.mortgaged then Err(PropertyMortgaged)
    else if state.houses > 0 || GroupHasBuildings(GroupOf(board.tiles, tile.group), registry)
        then Err(PropertyHasBuildings)
    else Ok(())
  }

  // The check names a reason exactly when the tile cannot be mortgaged.
  lemma MortgageChecksAgree(board: Board, registry: Registry, tileId: TileId, player: PlayerId)
    requires StateOf(registry, tileId).houses >= 0
    ensures CheckCanMortgage(board, registry, tileId, player).Ok? <==> CanMortgage(board, registry, tileId, player)
  {
    hide FindTile, StateOf, GroupOf, GroupHasBuildings;
  }

  function RedemptionCost(value: int): int { value + (value + 5) / 10 }
  function TransferFee(tile: Tile): int { RedemptionCost(tile.mortgage) - tile.mortgage }

  // ----- Buildings, one at a time -----

  predicate Buildable(tile: Tile) { tile.kind == Street && tile.houseCost.Some? }

  function BuildBlocker(board: Board, registry: Registry, tileId: TileId, player: PlayerId): Option<BankError> {
    match FindTile(board.tiles, tileId)
    case None => Some(TileNotFound)
    case Some(tile) =>
      var state := StateOf(registry, tileId);
      var group := GroupOf(board.tiles, tile.group);
      if !Buildable(tile) then Some(TileNotBuildable)
      else if state.owner != Some(player) then Some(PropertyNotOwned)
      else if !HoldsFullGroup(group, registry, player) then Some(BuildRequiresFullGroup)
      else if GroupHasMortgage(group, registry) then Some(BuildMortgagedGroup)
      else if state.houses >= MAX_BUILDINGS then Some(MaxBuildings)
      else if board.rules.buildEvenly && group != [] &&
          state.houses > Lowest(Levels(group, registry)) then Some(BuildUneven)
      else None
  }

  function SellBlocker(board: Board, registry: Registry, tileId: TileId, player: PlayerId): Option<BankError> {
    match FindTile(board.tiles, tileId)
    case None => Some(TileNotFound)
    case Some(tile) =>
      var state := StateOf(registry, tileId);
      var group := GroupOf(board.tiles, tile.group);
      if !Buildable(tile) then Some(TileNotBuildable)
      else if state.owner != Some(player) then Some(PropertyNotOwned)
      else if state.houses == 0 then Some(NoBuildings)
      else if board.rules.buildEvenly && group != [] &&
          state.houses < Highest(Levels(group, registry)) then Some(BuildUneven)
      else None
  }

  function BuildCost(board: Board, tileId: TileId): int {
    match FindTile(board.tiles, tileId)
    case Some(tile) => if tile.houseCost.Some? then tile.houseCost.value else 0
    case None => 0
  }
  function SellRefund(board: Board, tileId: TileId): int
  {
    BuildCost(board, tileId) * board.rules.refundPart / board.rules.refundWhole
  }

  // ----- A whole group at once -----

  datatype Direction = Build | Sell
  datatype Plan = Plan(changes: seq<PropertyChange>, buildings: int)
  // Final level per named street, each street named once.
  type Targets = seq<(TileId, int)>

  function TargetLevel(targets: Targets, tileId: TileId, current: int): int {
    if targets == [] then current
    else if targets[0].0 == tileId then targets[0].1
    else TargetLevel(targets[1..], tileId, current)
  }

  function CheckTarget(board: Board, registry: Registry, player: PlayerId, group: nat,
          target: (TileId, int)): Result<(), BankError> {
    var tile :- RequireTile(board, target.0);
    if !Buildable(tile) then Err(TileNotBuildable)
    else if tile.group != group then Err(InvalidBuildTarget)
    else if target.1 < 0 || target.1 > MAX_BUILDINGS then Err(InvalidBuildTarget)
    else if StateOf(registry, target.0).owner != Some(player) then Err(PropertyNotOwned)
    else Ok(())
  }
  function CheckTargets(board: Board, registry: Registry, player: PlayerId, group: nat, targets: Targets): Result<(),
          BankError> {
    if targets == [] then Ok(())
    else
      var _ :- CheckTarget(board, registry, player, group, targets[0]);
      CheckTargets(board, registry, player, group, targets[1..])
  }

  function BuildingChange(tileId: TileId, before: PropertyState, houses: int): PropertyChange {
    PropertyChange(tileId, before, before.(houses := houses))
  }
  predicate Against(direction: Direction, from: int, to: int) { if direction == Build then to < from else to > from }

  // The changes of a group, in board order; a level against the direction refuses the plan.
  function GroupChanges(group: seq<Tile>, registry: Registry, targets: Targets,
          direction: Direction): Result<seq<PropertyChange>, BankError> {
    if group == [] then Ok([])
    else
      var id := group[0].id;
      var state := StateOf(registry, id);
      var level := TargetLevel(targets, id, state.houses);
      if level == state.houses then GroupChanges(group[1..], registry, targets, direction)
      else if Against(direction, state.houses, level) then Err(InvalidBuildTarget)
      else
        var rest :- GroupChanges(group[1..], registry, targets, direction);
        Ok([BuildingChange(id, state, level)] + rest)
  }
  function Magnitude(n: int): nat { if n < 0 then -n else n }
  function BuildingCount(changes: seq<PropertyChange>): int {
    if changes == [] then 0
    else Magnitude(changes[0].after.houses - changes[0].before.houses) + BuildingCount(changes[1..])
  }
  function FinalLevels(group: seq<Tile>, registry: Registry, targets: Targets): (levels: seq<int>)
    ensures |levels| == |group|
  {
    seq(|group|, i requires 0 <= i < |group| =>
        TargetLevel(targets, group[i].id, StateOf(registry, group[i].id).houses))
  }

  function PlanBuildings(board: Board, registry: Registry, player: PlayerId, targets: Targets,
          direction: Direction): Result<Plan, BankError> {
    if targets == [] then Err(InvalidBuildTarget)
    else
      var first :- RequireTile(board, targets[0].0);
      var group := GroupOf(board.tiles, first.group);
      var _ :- CheckTargets(board, registry, player, first.group, targets);
      if !HoldsFullGroup(group, registry, player) then Err(BuildRequiresFullGroup)
      else if GroupHasMortgage(group, registry) then Err(BuildMortgagedGroup)
      else
        var changes :- GroupChanges(group, registry, targets, direction);
        var finals := FinalLevels(group, registry, targets);
        if changes == [] then Err(InvalidBuildTarget)
        else if board.rules.buildEvenly && finals != [] && Highest(finals) - Lowest(finals) > 1 then Err(BuildUneven)
        else Ok(Plan(changes, BuildingCount(changes)))
  }

  // What one building costs, or what the bank pays back for it.
  function UnitPrice(board: Board, tileId: TileId, direction: Direction): int
  {
    if direction == Build then BuildCost(board, tileId) else SellRefund(board, tileId)
  }
  function Climbed(direction: Direction, change: PropertyChange): int {
    if direction == Build then change.after.houses - change.before.houses
    else change.before.houses - change.after.houses
  }
  function PlanPrice(board: Board, changes: seq<PropertyChange>, direction: Direction): int
  {
    if changes == [] then 0
    else
      Climbed(direction, changes[0]) * UnitPrice(board, changes[0].tileId, direction) +
          PlanPrice(board, changes[1..], direction)
  }

  // ----- Rent -----

  function RentFor(board: Board, registry: Registry, tileId: TileId, diceSum: Option<int>): Result<int, BankError> {
    var tile :- RequireTile(board, tileId);
    var state := StateOf(registry, tileId);
    var group := GroupOf(board.tiles, tile.group);
    if state.owner.None? then Err(PropertyNotOwned)
    else if state.mortgaged then Err(PropertyMortgaged)
    else
      var owner := state.owner.value;
      match tile.kind
      case Street =>
        if diceSum.Some? then Err(DiceSum)
        else if tile.rent.None? || |tile.rent.value| != 6 then Err(TileNotFound)
        else if state.houses < 0 then Err(InvalidAmount)
        else if state.houses == 0 then
          var base := tile.rent.value[0];
          Ok(if HoldsFullGroup(group, registry, owner) && !GroupHasBuildings(group, registry)
             then base * board.rules.monopolyMultiplier else base)
        else Ok(tile.rent.value[if state.houses < 5 then state.houses else 5])
      case Railway =>
        var count := OwnedCount(group, registry, owner);
        if diceSum.Some? then Err(DiceSum)
        else if count !in board.rules.railwayRent then Err(TileNotFound)
        else Ok(board.rules.railwayRent[count])
      case Utility =>
        var count := OwnedCount(group, registry, owner);
        if diceSum.None? then Err(DiceSum)
        else if count !in board.rules.utilityMultiplier then Err(TileNotFound)
        else Ok(board.rules.utilityMultiplier[count] * diceSum.value * UTILITY_RENT_UNIT)
  }

  // ----- Changes to the registry -----

  function OwnerChange(tileId: TileId, before: PropertyState, owner: Option<PlayerId>): PropertyChange {
    PropertyChange(tileId, before,
      PropertyState(owner, if owner.None? then false else before.mortgaged, if owner.None? then 0 else before.houses))
  }
  function MortgageChange(tileId: TileId, before: PropertyState, mortgaged: bool): PropertyChange {
    PropertyChange(tileId, before, before.(mortgaged := mortgaged))
  }
  function InvertChanges(changes: seq<PropertyChange>): (r: seq<PropertyChange>)
    ensures |r| == |changes|
  {
    seq(|changes|, i requires 0 <= i < |changes| =>
        PropertyChange(changes[i].tileId, changes[i].after, changes[i].before))
  }
  function FindChange(changes: seq<PropertyChange>, tileId: TileId): Option<PropertyChange> {
    if changes == [] then None
    else if changes[0].tileId == tileId then Some(changes[0])
    else FindChange(changes[1..], tileId)
  }
  function ApplyToRow(row: Row, changes: seq<PropertyChange>): Row {
    match FindChange(changes, row.tileId)
    case Some(change) => row.(state := change.after)
    case None => row
  }
  function ApplyChanges(registry: Registry, changes: seq<PropertyChange>): (r: Registry)
    ensures |r| == |registry|
  {
    seq(|registry|, i requires 0 <= i < |registry| => ApplyToRow(registry[i], changes))
  }

  // What a guarded write requires of the registry: every changed tile stands as it was read.
  predicate Matches(registry: Registry, changes: seq<PropertyChange>) {
    forall c :: c in changes ==> HasRow(registry, c.tileId) && StateOf(registry, c.tileId) == c.before
  }

  lemma {:induction false} StateAfterChanges(registry: Registry, changes: seq<PropertyChange>, tileId: TileId)
    ensures HasRow(ApplyChanges(registry, changes), tileId) == HasRow(registry, tileId)
    ensures StateOf(ApplyChanges(registry, changes), tileId) ==
            if HasRow(registry, tileId) && FindChange(changes, tileId).Some?
                then FindChange(changes, tileId).value.after
            else StateOf(registry, tileId)
  {
    hide FindChange;
    if registry != [] {
      var applied := ApplyChanges(registry, changes);
      assert applied[1..] == ApplyChanges(registry[1..], changes);
      StateAfterChanges(registry[1..], changes, tileId);
      RowOrRest(registry, tileId);
      RowOrRest(applied, tileId);
    }
  }
  lemma RowOrRest(registry: Registry, tileId: TileId)
    requires registry != []
    ensures HasRow(registry, tileId) <==> registry[0].tileId == tileId || HasRow(registry[1..], tileId)
  {
    if HasRow(registry, tileId) && registry[0].tileId != tileId {
      var i :| 0 <= i < |registry| && registry[i].tileId == tileId;
      assert registry[1..][i - 1].tileId == tileId;
    }
    if HasRow(registry[1..], tileId) {
      var i :| 0 <= i < |registry[1..]| && registry[1..][i].tileId == tileId;
      assert registry[i + 1].tileId == tileId;
    }
  }
  lemma {:induction false} FindChangeAt(changes: seq<PropertyChange>, i: nat)
    requires DistinctChanges(changes) && i < |changes|
    ensures FindChange(changes, changes[i].tileId) == Some(changes[i])
  {
    if i > 0 { FindChangeAt(changes[1..], i - 1); }
  }
  lemma {:induction false} FoundChange(changes: seq<PropertyChange>, tileId: TileId)
    ensures var found := FindChange(changes, tileId);
            if found.Some? then found.value in changes && found.value.tileId == tileId
            else forall c :: c in changes ==> c.tileId != tileId
  {
    if changes != [] { FoundChange(changes[1..], tileId); }
  }

  // Undoing a guarded write gives back exactly the registry it was made on, and is itself guarded
  // by what the write left.
  lemma InvertUndoesApply(registry: Registry, changes: seq<PropertyChange>)
    requires DistinctRows(registry) && DistinctChanges(changes) && Matches(registry, changes)
    ensures Matches(ApplyChanges(registry, changes), InvertChanges(changes))
    ensures ApplyChanges(ApplyChanges(registry, changes), InvertChanges(changes)) == registry
  {
    hide FindChange;
    var after, back := ApplyChanges(registry, changes), InvertChanges(changes);
    forall c | c in back ensures HasRow(after, c.tileId) && StateOf(after, c.tileId) == c.before {
      var i :| 0 <= i < |back| && back[i] == c;
      FindChangeAt(changes, i);
      StateAfterChanges(registry, changes, c.tileId);
      assert changes[i] in changes;
    }
    forall i | 0 <= i < |registry| ensures ApplyChanges(after, back)[i] == registry[i] {
      InvertedRow(registry, changes, i);
    }
  }
  lemma InvertedRow(registry: Registry, changes: seq<PropertyChange>, i: nat)
    requires DistinctRows(registry) && DistinctChanges(changes) && Matches(registry, changes) && i < |registry|
    ensures ApplyToRow(ApplyToRow(registry[i], changes), InvertChanges(changes)) == registry[i]
  {
    hide FindChange;
    var id, back := registry[i].tileId, InvertChanges(changes);
    FoundChange(changes, id);
    FoundChange(back, id);
    StateOfRow(registry, i);
    assert DistinctChanges(back);
    if FindChange(changes, id).Some? {
      var k :| 0 <= k < |changes| && changes[k] == FindChange(changes, id).value;
      FindChangeAt(back, k);
    } else {
      forall c | c in back ensures c.tileId != id {
        var k :| 0 <= k < |back| && back[k] == c;
        assert changes[k] in changes;
      }
    }
  }
}
