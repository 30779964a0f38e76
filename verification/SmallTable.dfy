/** A game of two players and a colour group of two streets of one name, worked out operation by
    operation. */
module SmallTable {
  import opened Results
  import opened Property
  import opened Banking
  import opened BankState
  import opened BankRuns
  import opened Reversal
  import opened ReversalRuns
  import MortgageRecords
  import Order = RegistryOrder

  const BOARD: Board := Board(
    [Tile(1, Some(7), Street, 0, 10, 5, None, Some(100)), Tile(2, Some(7), Street, 0, 10, 5, None, Some(100))],
    Rules(2, true, 1, 2, map[], map[]))
  const GAME: Game := Game(0, true, 200, 0)

  datatype Table = Table(cash: seq<int>, tiles: seq<PropertyState>, records: seq<Mortgage>, bank: int)
  // Two wallets within a million, two streets.
  ghost predicate Small(t: Table) {
    |t.cash| == 2 && |t.tiles| == 2 && forall k :: 0 <= k < 2 ==> 0 <= t.cash[k] <= 1_000_000
  }
  function PlayersOf(t: Table): seq<Player>
    requires |t.cash| == 2
  {
    [Player(1, 0, t.cash[0], false), Player(2, 0, t.cash[1], false)]
  }
  function RegistryOf(t: Table): Registry
    requires |t.tiles| == 2
  {
    [Row(1, t.tiles[0]), Row(2, t.tiles[1])]
  }
  ghost function Bank(t: Table): State
    requires Small(t)
  {
    State(GAME, PlayersOf(t), 0, BOARD, RegistryOf(t), t.records, t.bank)
  }
  const OPENING: Table := Table([1000, 1000], [UNOWNED, UNOWNED], [], 0)
  function Held(owner: PlayerId): PropertyState { PropertyState(Some(owner), false, 0) }

  lemma OpeningIsNew()
    ensures DistinctTiles(BOARD.tiles) && DistinctPlayers(PlayersOf(OPENING)) &&
            RegistryOf(OPENING) == Order.NewRegistry(BOARD)
  {}

  // ----- Looking things up -----

  lemma KnownPlayers(t: Table)
    requires Small(t)
    ensures ValidateGame(GAME, PlayersOf(t)).Ok?
    ensures forall k :: 0 <= k < 2 ==> FindPlayer(PlayersOf(t), k + 1) == Ok(PlayersOf(t)[k])
  {
    hide ValidateGame, FindPlayer;
    assert SoundGame(GAME, PlayersOf(t));
    ValidGameIsSound(GAME, PlayersOf(t));
    FindPlayerAt(PlayersOf(t), 0);
    FindPlayerAt(PlayersOf(t), 1);
  }
  lemma KnownTiles(t: Table)
    requires Small(t)
    ensures forall k :: 0 <= k < 2 ==> FindTile(BOARD.tiles, k + 1) == Some(BOARD.tiles[k])
    ensures forall k :: 0 <= k < 2 ==> StateOf(RegistryOf(t), k + 1) == t.tiles[k] && HasRow(RegistryOf(t), k + 1)
    ensures GroupOf(BOARD.tiles, 0) == BOARD.tiles
  {
    hide FindTile, StateOf;
    FindTileAt(BOARD.tiles, 0);
    FindTileAt(BOARD.tiles, 1);
    StateOfRow(RegistryOf(t), 0);
    StateOfRow(RegistryOf(t), 1);
    assert RegistryOf(t)[0].tileId == 1 && RegistryOf(t)[1].tileId == 2;
    WholeGroup();
  }
  lemma WholeGroup()
    ensures GroupOf(BOARD.tiles, 0) == BOARD.tiles
  {
    var rest: seq<Tile> := BOARD.tiles[1..];
    assert rest == [BOARD.tiles[1]] && rest[1..] == [];
    assert GroupOf(rest, 0) == [BOARD.tiles[1]];
  }

  // ----- Committing -----

  // A wallet moves, or none does.
  ghost predicate OneMoves(t: Table, changes: seq<BalanceChange>, k: nat, delta: int) {
    |t.cash| == 2 && k < 2 && t.cash[k] + delta >= 0 && changes == [BalanceChange(k + 1, t.cash[k], delta)]
  }
  ghost predicate Idle(t: Table, changes: seq<BalanceChange>) {
    |t.cash| == 2 && forall c :: c in changes ==>
      (c == BalanceChange(1, t.cash[0], 0) || c == BalanceChange(2, t.cash[1], 0))
  }
  lemma WalletMoves(t: Table, changes: seq<BalanceChange>, k: nat, delta: int)
    requires Small(t) && OneMoves(t, changes, k, delta)
    ensures WalletsStand(PlayersOf(t), changes)
    ensures Bankrupted(UpdatedPlayers(PlayersOf(t), changes), None) ==
            PlayersOf(t.(cash := t.cash[k := t.cash[k] + delta]))
  {
    assert forall id :: FindBalance(changes, id) == if id == k + 1 then Some(changes[0]) else None;
  }
  lemma WalletsIdle(t: Table, changes: seq<BalanceChange>)
    requires Small(t) && Idle(t, changes)
    ensures WalletsStand(PlayersOf(t), changes)
    ensures Bankrupted(UpdatedPlayers(PlayersOf(t), changes), None) == PlayersOf(t)
  {
    hide FindBalance;
    forall i | 0 <= i < 2
      ensures WalletStands(PlayersOf(t)[i], changes) && UpdatedPlayer(PlayersOf(t)[i], changes) == PlayersOf(t)[i]
    {
      NoChangeFor(changes, i + 1);
    }
  }
  ghost predicate Turns(t: Table, changes: seq<PropertyChange>, k: nat, state: PropertyState) {
    |t.tiles| == 2 && k < 2 && !(t.tiles[k].mortgaged && state.mortgaged) &&
    changes == [PropertyChange(k + 1, t.tiles[k], state)]
  }
  lemma TileTurns(t: Table, pending: Pending, k: nat, state: PropertyState)
    requires Small(t) && Turns(t, pending.registryChanges, k, state)
    requires pending.redeemed.None? && pending.bankrupt.None?
    ensures Matches(RegistryOf(t), pending.registryChanges)
    ensures ApplyChanges(RegistryOf(t), pending.registryChanges) == RegistryOf(t.(tiles := t.tiles[k := state]))
    ensures MovedMortgages(t.records, pending) == t.records
  {
    hide StateOf, HasRow, MovedMortgage;
    KnownTiles(t);
    var change := PropertyChange(k + 1, t.tiles[k], state);
    assert forall id :: FindChange([change], id) == if id == k + 1 then Some(change) else None;
    forall i | 0 <= i < |t.records|
      ensures MovedMortgage(t.records, i, pending) == t.records[i]
    {
      MortgageRecords.UnmovedByOne(t.records, i, pending, change);
    }
  }
  // What one step does: `k`'s wallet moves, tile `j` turns, records are added.
  ghost function Stepped(t: Table, k: nat, delta: int, j: nat, state: PropertyState, records: seq<Mortgage>): Table
    requires |t.cash| == 2 && |t.tiles| == 2 && k < 2 && j < 2
  {
    Table(t.cash[k := t.cash[k] + delta], t.tiles[j := state], t.records + records, t.bank - delta)
  }
  lemma Committed(t: Table, pending: Pending, k: nat, delta: int, j: nat, state: PropertyState)
    requires Small(t) && pending.jackpot == Unmoved && pending.redeemed.None? && pending.bankrupt.None?
    requires OneMoves(t, pending.changes, k, delta) && Turns(t, pending.registryChanges, j, state)
    requires Small(Stepped(t, k, delta, j, state, []))
    ensures Commit(Bank(t), pending, -delta) ==
            Some(Bank(Stepped(t, k, delta, j, state, NewRecord(GAME, pending))))
  {
    hide WalletsStand, Matches, UpdatedPlayers, Bankrupted, ApplyChanges, MovedMortgages;
    WalletMoves(t, pending.changes, k, delta);
    TileTurns(t, pending, j, state);
  }

  // ----- The operations -----

  lemma ChangeOfOne(t: Table, k: nat, delta: int)
    requires Small(t) && k < 2 && 0 <= t.cash[k] + delta <= MAX_SAFE
    ensures ApplyDeltas(PlayersOf(t), [(k + 1, delta)]) == Ok([BalanceChange(k + 1, t.cash[k], delta)])
  {
    hide FindPlayer, ReadFrom;
    KnownPlayers(t);
    assert PlayersOf(t)[k].id == k + 1 && FindPlayer(PlayersOf(t), k + 1) == Ok(PlayersOf(t)[k]);
    var rest: seq<Delta> := [(k + 1, delta)][1..];
    var none: seq<BalanceChange> := [];
    assert rest == [] && [BalanceChange(k + 1, t.cash[k], delta)] + none == [BalanceChange(k + 1, t.cash[k], delta)];
  }
  lemma Paid(t: Table, k: nat, amount: int)
    requires Small(t) && k < 2 && 0 <= amount <= 1_000_000
    ensures amount <= t.cash[k] ==>
              Transfer(PlayersOf(t), Some(k + 1), None, amount) == Ok([BalanceChange(k + 1, t.cash[k], -amount)])
    ensures Transfer(PlayersOf(t), None, Some(k + 1), amount) == Ok([BalanceChange(k + 1, t.cash[k], amount)])
  {
    hide ApplyDeltas;
    if amount <= t.cash[k] { ChangeOfOne(t, k, -amount); }
    ChangeOfOne(t, k, amount);
    assert TransferDeltas(Some(k + 1), None, amount) == [(k + 1, -amount)];
    assert TransferDeltas(None, Some(k + 1), amount) == [(k + 1, amount)];
  }
  // The transaction of a step, over what it found.
  function Written(t: Table, kind: Kind, participants: seq<Delta>, amount: int, j: nat, state: PropertyState,
          record: Option<nat>): Entry
    requires |t.tiles| == 2 && j < 2
  {
    Entry(kind, if kind == PROPERTY_TRANSFER then None else Some(j + 1), participants, amount, amount,
          [PropertyChange(j + 1, t.tiles[j], state)], None, None, record, RegistryOf(t))
  }
  lemma Done(t: Table, log: seq<Entry>, op: Operation, k: nat, delta: int, j: nat, state: PropertyState)
    requires Small(t) && k < 2 && j < 2 && Small(Stepped(t, k, delta, j, state, []))
    requires !op.GoBankrupt? && !op.FeedPot? && !op.CollectPot? && !op.Redeem?
    requires Perform(Bank(t), op).Ok? && OneMoves(t, Perform(Bank(t), op).value.changes, k, delta)
    requires Turns(t, Perform(Bank(t), op).value.registryChanges, j, state)
    ensures var pending := Perform(Bank(t), op).value;
            Next(Ledger(Bank(t), log), Do(op)) ==
            Ledger(Bank(Stepped(t, k, delta, j, state, NewRecord(GAME, pending))),
                   log + [EntryOf(Bank(t), pending)])
  {
    hide Perform, BankGain, Commit, Stepped, NewRecord, ChangesTiles, RecordsMortgage, ReadFrom, SumDeltas;
    PerformSettles(Bank(t), op);
    SumOfOne(Perform(Bank(t), op).value.changes);
    Committed(t, Perform(Bank(t), op).value, k, delta, j, state);
  }

  lemma SumOfOne(changes: seq<BalanceChange>)
    requires |changes| == 1
    ensures SumDeltas(changes) == changes[0].delta
  {
    var rest: seq<BalanceChange> := changes[1..];
    assert rest == [];
  }
  lemma WrittenIs(t: Table, pending: Pending, k: nat, delta: int)
    requires Small(t) && OneMoves(t, pending.changes, k, delta)
    ensures Deltas(pending.changes) == [(k + 1, delta)]
  {}

  lemma Purchase(t: Table, k: nat, j: nat)
    requires Small(t) && k < 2 && j < 2 && t.tiles[j] == UNOWNED && t.cash[k] >= 10
    ensures PropertyPurchase(GAME, PlayersOf(t), BOARD, RegistryOf(t), k + 1, j + 1, None) ==
            Ok(WithProperty(Simple(PROPERTY_PURCHASE, 10, 10, [BalanceChange(k + 1, t.cash[k], -10)]), j + 1,
                            [PropertyChange(j + 1, UNOWNED, Held(k + 1))]))
  {
    hide ValidateGame, FindPlayer, FindTile, StateOf, Transfer, Settles, Transfers, Writes;
    KnownPlayers(t);
    KnownTiles(t);
    assert PlayersOf(t)[k].id == k + 1 && BOARD.tiles[j].id == j + 1;
    Paid(t, k, 10);
  }
  lemma Bought(t: Table, log: seq<Entry>, k: nat, j: nat)
    requires Small(t) && k < 2 && j < 2 && t.tiles[j] == UNOWNED && t.cash[k] >= 10
    ensures Next(Ledger(Bank(t), log), Do(Buy(k + 1, j + 1, None))) ==
            Ledger(Bank(Stepped(t, k, -10, j, Held(k + 1), [])),
                   log + [Written(t, PROPERTY_PURCHASE, [(k + 1, -10)], 10, j, Held(k + 1), None)])
  {
    hide Next, PropertyPurchase, Stepped, PlayersOf, RegistryOf, SumDeltas;
    Purchase(t, k, j);
    var pending := Perform(Bank(t), Buy(k + 1, j + 1, None)).value;
    assert OneMoves(t, pending.changes, k, -10);
    assert Turns(t, pending.registryChanges, j, Held(k + 1));
    assert Small(Stepped(t, k, -10, j, Held(k + 1), [])) by { StaysSound(t, k, -10, j, Held(k + 1)); }
    Done(t, log, Buy(k + 1, j + 1, None), k, -10, j, Held(k + 1));
    WrittenIs(t, pending, k, -10);
  }
  lemma StaysSound(t: Table, k: nat, delta: int, j: nat, state: PropertyState)
    requires Small(t) && k < 2 && j < 2 && 0 <= t.cash[k] + delta <= 1_000_000
    ensures Small(Stepped(t, k, delta, j, state, []))
  {}

  // Player 1 owns both streets; the house on street 1 is built, or sold again.
  const BUILT: PropertyState := PropertyState(Some(1), false, 1)
  function Level(direction: Direction): PropertyState { if direction == Build then BUILT else Held(1) }
  ghost predicate Ready(t: Table, direction: Direction) {
    Small(t) && t.tiles == [if direction == Build then Held(1) else BUILT, Held(1)] && 100 <= t.cash[0] <= 900_000
  }
  function WorksOf(direction: Direction): Operation {
    if direction == Build then BuildOn(1, OneStreet(1)) else SellFrom(1, OneStreet(1))
  }
  lemma LevelsAsked(t: Table, direction: Direction)
    requires Ready(t, direction)
    ensures BuildingTargets(RegistryOf(t), OneStreet(1), direction) == Ok([(1, Level(direction).houses)])
  {
    hide StateOf;
    KnownTiles(t);
    assert BOARD.tiles[0].id == 1;
  }
  lemma Targeted(t: Table, direction: Direction)
    requires Ready(t, direction)
    ensures var targets := [(1, Level(direction).houses)];
            TargetLevel(targets, 1, t.tiles[0].houses) == Level(direction).houses && TargetLevel(targets, 2, 0) == 0
    ensures FinalLevels(BOARD.tiles, RegistryOf(t), [(1, Level(direction).houses)]) == [Level(direction).houses, 0]
  {
    hide StateOf;
    KnownTiles(t);
    var targets: Targets := [(1, Level(direction).houses)];
    var none: Targets := targets[1..];
    assert none == [];
    assert BOARD.tiles[0].id == 1 && BOARD.tiles[1].id == 2;
  }
  lemma GroupPlanned(t: Table, direction: Direction)
    requires Ready(t, direction)
    ensures GroupChanges(BOARD.tiles, RegistryOf(t), [(1, Level(direction).houses)], direction) ==
            Ok([PropertyChange(1, t.tiles[0], Level(direction))])
  {
    hide StateOf, TargetLevel;
    KnownTiles(t);
    Targeted(t, direction);
    var targets: Targets := [(1, Level(direction).houses)];
    assert BOARD.tiles[0].id == 1 && BOARD.tiles[1].id == 2;
    var rest: seq<Tile> := BOARD.tiles[1..];
    assert rest == [BOARD.tiles[1]];
    var none: seq<Tile> := rest[1..];
    assert none == [] && GroupChanges(none, RegistryOf(t), targets, direction) == Ok([]);
    assert StateOf(RegistryOf(t), 2) == t.tiles[1];
    assert GroupChanges(rest, RegistryOf(t), targets, direction) == Ok([]);
    var change := PropertyChange(1, t.tiles[0], Level(direction));
    assert [change] + [] == [change];
  }
  lemma Priced(t: Table, direction: Direction)
    requires Ready(t, direction)
    ensures PlanPrice(BOARD, [PropertyChange(1, t.tiles[0], Level(direction))], direction) ==
            if direction == Build then 100 else 50
    ensures BuildingCount([PropertyChange(1, t.tiles[0], Level(direction))]) == 1
  {
    hide FindTile;
    FindTileAt(BOARD.tiles, 0);
    assert BOARD.tiles[0].id == 1 && BuildCost(BOARD, 1) == 100 && SellRefund(BOARD, 1) == 50;
    var changes: seq<PropertyChange> := [PropertyChange(1, t.tiles[0], Level(direction))];
    assert changes[1..] == [];
  }
  lemma Planned(t: Table, direction: Direction)
    requires Ready(t, direction)
    ensures PlanBuildings(BOARD, RegistryOf(t), 1, [(1, Level(direction).houses)], direction) ==
            Ok(Plan([PropertyChange(1, t.tiles[0], Level(direction))], 1))
  {
    hide StateOf, FindTile, GroupOf, HoldsFullGroup, GroupChanges, FinalLevels, TargetLevel, BuildingCount,
      Highest, Lowest;
    KnownTiles(t);
    Targeted(t, direction);
    GroupPlanned(t, direction);
    Priced(t, direction);
    FullGroupMeansEveryTile(BOARD.tiles, RegistryOf(t), 1);
    assert BOARD.tiles[0].id == 1 && BOARD.tiles[1].id == 2;
    assert StateOf(RegistryOf(t), 1) == t.tiles[0] && StateOf(RegistryOf(t), 2) == t.tiles[1];
    var targets: Targets := [(1, Level(direction).houses)];
    var none: Targets := targets[1..];
    assert none == [];
    assert CheckTargets(BOARD, RegistryOf(t), 1, 0, targets).Ok?;
    var finals: seq<int> := [Level(direction).houses, 0];
    assert forall l :: l in finals ==> l == finals[0] || l == finals[1];
    assert Highest(finals) <= 1 && Lowest(finals) >= 0;
  }
  function WorkKind(direction: Direction): Kind {
    if direction == Build then PROPERTY_BUILD else PROPERTY_SELL_BUILDING
  }
  function WorkPay(direction: Direction): int { if direction == Build then -100 else 50 }
  lemma Work(t: Table, direction: Direction)
    requires Ready(t, direction)
    ensures Perform(Bank(t), WorksOf(direction)) ==
            Ok(Simple(WorkKind(direction), Magnitude(WorkPay(direction)), Magnitude(WorkPay(direction)),
                      [BalanceChange(1, t.cash[0], WorkPay(direction))])
               .(registryChanges := [PropertyChange(1, t.tiles[0], Level(direction))], tileId := Some(1)))
  {
    hide ValidateGame, FindPlayer, PlanBuildings, PlanPrice, BuildingTargets, Transfer, Settles, Transfers, Writes,
      PlayersOf, RegistryOf;
    KnownPlayers(t);
    LevelsAsked(t, direction);
    Planned(t, direction);
    Priced(t, direction);
    assert PlayersOf(t)[0] == Player(1, 0, t.cash[0], false) by { FirstWallet(t); }
    assert FindPlayer(PlayersOf(t), 0 + 1) == Ok(PlayersOf(t)[0]);
    Paid(t, 0, Magnitude(WorkPay(direction)));
  }
  lemma FirstWallet(t: Table)
    requires Small(t)
    ensures PlayersOf(t)[0] == Player(1, 0, t.cash[0], false)
  {}
  lemma Worked(t: Table, log: seq<Entry>, direction: Direction)
    requires Ready(t, direction)
    ensures Next(Ledger(Bank(t), log), Do(WorksOf(direction))) ==
            Ledger(Bank(Stepped(t, 0, WorkPay(direction), 0, Level(direction), [])),
                   log + [Written(t, WorkKind(direction), [(1, WorkPay(direction))], Magnitude(WorkPay(direction)), 0,
                                  Level(direction), None)])
  {
    hide Next, Perform, Stepped, PlayersOf, RegistryOf, SumDeltas;
    Work(t, direction);
    var pending := Perform(Bank(t), WorksOf(direction)).value;
    StaysSound(t, 0, WorkPay(direction), 0, Level(direction));
    Done(t, log, WorksOf(direction), 0, WorkPay(direction), 0, Level(direction));
    WrittenIs(t, pending, 0, WorkPay(direction));
  }

  // A player mortgages their own bare street.
  ghost predicate MayMortgage(t: Table, k: nat) {
    Small(t) && k < 2 && t.tiles[k] == Held(k + 1) && t.cash[k] <= 900_000 &&
    t.tiles[0].houses == 0 && t.tiles[1].houses == 0
  }
  lemma MortgageChecked(t: Table, k: nat)
    requires MayMortgage(t, k)
    ensures FindTile(BOARD.tiles, k + 1) == Some(BOARD.tiles[k]) && StateOf(RegistryOf(t), k + 1) == t.tiles[k]
    ensures CheckCanMortgage(BOARD, RegistryOf(t), k + 1, k + 1).Ok?
  {
    hide FindTile, StateOf, GroupOf;
    KnownTiles(t);
    assert BOARD.tiles[0].id == 1 && BOARD.tiles[1].id == 2;
    assert StateOf(RegistryOf(t), 1) == t.tiles[0] && StateOf(RegistryOf(t), 2) == t.tiles[1];
  }
  lemma MortgagePaid(t: Table, k: nat)
    requires MayMortgage(t, k)
    ensures MortgageProperty(GAME, PlayersOf(t), k + 1, Some(7), 5) ==
            Ok(Simple(MORTGAGE, 5, 5, [BalanceChange(k + 1, t.cash[k], 5)])
               .(newMortgage := Some(NewMortgage(k + 1, 7, 5, None))))
  {
    hide ValidateGame, FindPlayer, Transfer, Settles, Transfers, Writes;
    KnownPlayers(t);
    assert PlayersOf(t)[k].id == k + 1 && FindPlayer(PlayersOf(t), k + 1) == Ok(PlayersOf(t)[k]);
    Paid(t, k, 5);
  }
  lemma MortgageAllowed(t: Table, k: nat)
    requires MayMortgage(t, k)
    ensures Perform(Bank(t), MortgageBoard(k + 1, k + 1)) ==
            Ok(WithProperty(Simple(MORTGAGE, 5, 5, [BalanceChange(k + 1, t.cash[k], 5)]), k + 1,
                            [PropertyChange(k + 1, t.tiles[k], Held(k + 1).(mortgaged := true))])
               .(newMortgage := Some(NewMortgage(k + 1, 7, 5, Some(k + 1)))))
  {
    hide CheckCanMortgage, MortgageProperty, FindTile, StateOf, Settles, Transfers, Writes, PlayersOf, RegistryOf;
    MortgageChecked(t, k);
    MortgagePaid(t, k);
  }
  lemma Mortgaged(t: Table, log: seq<Entry>, k: nat)
    requires MayMortgage(t, k)
    ensures var flagged := Held(k + 1).(mortgaged := true);
            Next(Ledger(Bank(t), log), Do(MortgageBoard(k + 1, k + 1))) ==
            Ledger(Bank(Stepped(t, k, 5, k, flagged, [Mortgage(0, k + 1, 7, 5, Some(k + 1), InForce)])),
                   log + [Written(t, MORTGAGE, [(k + 1, 5)], 5, k, flagged, Some(|t.records|))])
  {
    hide Next, Perform, Stepped, PlayersOf, RegistryOf, SumDeltas;
    MortgageAllowed(t, k);
    var op := MortgageBoard(k + 1, k + 1);
    var pending, flagged := Perform(Bank(t), op).value, Held(k + 1).(mortgaged := true);
    StaysSound(t, k, 5, k, flagged);
    Done(t, log, op, k, 5, k, flagged);
    WrittenIs(t, pending, k, 5);
  }

  // Street 2 changes hands for nothing.
  function Gift(from: PlayerId): Trade
    requires 1 <= from <= 2
  {
    Trade(from, 3 - from, [2], [], 0, 0)
  }
  ghost predicate MayGive(t: Table, k: nat) {
    Small(t) && k < 2 && t.tiles[1] == Held(k + 1) && t.tiles[0].houses == 0
  }
  lemma GiftMoves(t: Table, k: nat)
    requires MayGive(t, k)
    ensures TradeMoves(BOARD, RegistryOf(t), Gift(k + 1)) ==
            Ok(Moves([PropertyChange(2, t.tiles[1], Held(2 - k))], 0, 0))
  {
    hide FindTile, StateOf, GroupOf;
    KnownTiles(t);
    assert BOARD.tiles[0].id == 1 && BOARD.tiles[1].id == 2;
    assert FindTile(BOARD.tiles, 1 + 1) == Some(BOARD.tiles[1]);
    assert StateOf(RegistryOf(t), 1) == t.tiles[0] && StateOf(RegistryOf(t), 2) == t.tiles[1];
    var one: seq<TileId> := [2];
    var none: seq<TileId> := one[1..];
    assert none == [] && MoveTiles(BOARD, RegistryOf(t), none, k + 1, 2 - k) == Ok(([], 0));
    var change := PropertyChange(2, t.tiles[1], Held(2 - k));
    assert [change] + [] == [change];
  }
  lemma Given(t: Table, k: nat)
    requires MayGive(t, k)
    ensures Perform(Bank(t), Exchange(Gift(k + 1))) ==
            Ok(Simple(PROPERTY_TRANSFER, 0, 0,
                      [BalanceChange(k + 1, t.cash[k], 0), BalanceChange(2 - k, t.cash[1 - k], 0)])
               .(registryChanges := [PropertyChange(2, t.tiles[1], Held(2 - k))]))
  {
    hide ValidateGame, FindPlayer, TradeMoves, Settles, PaysTrade, RegistryOf;
    KnownPlayers(t);
    GiftMoves(t, k);
    assert PlayersOf(t)[k].id == k + 1 && FindPlayer(PlayersOf(t), k + 1) == Ok(PlayersOf(t)[k]);
    assert PlayersOf(t)[1 - k].id == 2 - k && FindPlayer(PlayersOf(t), (1 - k) + 1) == Ok(PlayersOf(t)[1 - k]);
    var tiles: seq<TileId> := Gift(k + 1).give + Gift(k + 1).take;
    assert tiles == [2] && !Repeats(tiles);
  }
  lemma CommittedGift(t: Table, pending: Pending, state: PropertyState)
    requires Small(t) && pending.jackpot == Unmoved && pending.redeemed.None? && pending.bankrupt.None? &&
             pending.newMortgage.None?
    requires Idle(t, pending.changes) && Turns(t, pending.registryChanges, 1, state)
    ensures Commit(Bank(t), pending, 0) == Some(Bank(t.(tiles := t.tiles[1 := state])))
  {
    hide WalletsStand, Matches, UpdatedPlayers, Bankrupted, ApplyChanges, MovedMortgages;
    WalletsIdle(t, pending.changes);
    TileTurns(t, pending, 1, state);
    assert t.records + [] == t.records;
  }
  lemma Gave(t: Table, log: seq<Entry>, k: nat)
    requires MayGive(t, k)
    ensures Next(Ledger(Bank(t), log), Do(Exchange(Gift(k + 1)))) ==
            Ledger(Bank(t.(tiles := t.tiles[1 := Held(2 - k)])),
                   log + [Written(t, PROPERTY_TRANSFER, [(k + 1, 0), (2 - k, 0)], 0, 1, Held(2 - k), None)])
  {
    hide Perform, BankGain, Commit, PlayersOf, RegistryOf, SumDeltas, ChangesTiles, RecordsMortgage, ReadFrom;
    var op := Exchange(Gift(k + 1));
    Given(t, k);
    PerformSettles(Bank(t), op);
    var pending := Perform(Bank(t), op).value;
    PairSum(pending.changes[0], pending.changes[1]);
    assert Deltas(pending.changes) == [(k + 1, 0), (2 - k, 0)];
    CommittedGift(t, pending, Held(2 - k));
  }

  // A player pays the bank.
  ghost function Spent(t: Table, k: nat, amount: int): Table
    requires |t.cash| == 2 && k < 2
  {
    Table(t.cash[k := t.cash[k] - amount], t.tiles, t.records, t.bank + amount)
  }
  lemma Payment(t: Table, k: nat, amount: int)
    requires Small(t) && k < 2 && 0 < amount <= t.cash[k]
    ensures Perform(Bank(t), PayBank(k + 1, amount)) ==
            Ok(Simple(PLAYER_TO_BANK, amount, amount, [BalanceChange(k + 1, t.cash[k], -amount)]))
  {
    hide ValidateGame, FindPlayer, Transfer, Settles, Transfers, Writes, RegistryOf;
    KnownPlayers(t);
    assert PlayersOf(t)[k].id == k + 1 && FindPlayer(PlayersOf(t), k + 1) == Ok(PlayersOf(t)[k]);
    Paid(t, k, amount);
  }
  lemma UntouchedRecords(t: Table, pending: Pending)
    requires Small(t) && pending.registryChanges == [] && pending.redeemed.None? && pending.bankrupt.None?
    ensures MovedMortgages(t.records, pending) == t.records
  {}
  lemma PaidIn(t: Table, log: seq<Entry>, k: nat, amount: int)
    requires Small(t) && k < 2 && 0 < amount <= t.cash[k]
    ensures Next(Ledger(Bank(t), log), Do(PayBank(k + 1, amount))) ==
            Ledger(Bank(Spent(t, k, amount)),
                   log + [Entry(PLAYER_TO_BANK, None, [(k + 1, -amount)], amount, amount, [], None, None, None,
                                RegistryOf(t))])
  {
    hide Perform, UpdatedPlayers, WalletsStand, Bankrupted, MovedMortgages, ApplyChanges;
    var op := PayBank(k + 1, amount);
    Payment(t, k, amount);
    var pending := Perform(Bank(t), op).value;
    WalletMoves(t, pending.changes, k, -amount);
    WrittenIs(t, pending, k, -amount);
    Order.NothingApplied(RegistryOf(t));
    UntouchedRecords(t, pending);
    assert t.records + [] == t.records;
  }
  // Player 2 pays player 1.
  ghost function Shifted(t: Table, amount: int): Table
    requires |t.cash| == 2
  {
    t.(cash := [t.cash[0] + amount, t.cash[1] - amount])
  }
  lemma PaymentAcross(t: Table, amount: int)
    requires Small(t) && 0 < amount <= t.cash[1] && Small(Shifted(t, amount))
    ensures Perform(Bank(t), Pay(2, 1, amount)) ==
            Ok(Simple(PLAYER_TO_PLAYER, amount, amount,
                      [BalanceChange(2, t.cash[1], -amount), BalanceChange(1, t.cash[0], amount)]))
  {
    hide ValidateGame, FindPlayer, Settles, Transfers, Writes, RegistryOf, ReadFrom;
    KnownPlayers(t);
    assert FindPlayer(PlayersOf(t), 0 + 1) == Ok(PlayersOf(t)[0]);
    assert FindPlayer(PlayersOf(t), 1 + 1) == Ok(PlayersOf(t)[1]);
    ChangeOfOne(t, 0, amount);
    var both: seq<Delta> := [(2, -amount), (1, amount)];
    assert TransferDeltas(Some(2), Some(1), amount) == both && both[1..] == [(0 + 1, amount)];
    var from, to := BalanceChange(2, t.cash[1], -amount), BalanceChange(1, t.cash[0], amount);
    assert [from] + [to] == [from, to];
  }
  lemma PaidOver(t: Table, log: seq<Entry>, amount: int)
    requires Small(t) && 0 < amount <= t.cash[1] && Small(Shifted(t, amount))
    ensures Next(Ledger(Bank(t), log), Do(Pay(2, 1, amount))).bank == Bank(Shifted(t, amount))
  {
    hide Perform, WalletsStand, MovedMortgages, ApplyChanges, UpdatedPlayers, Bankrupted;
    PaymentAcross(t, amount);
    var pending := Perform(Bank(t), Pay(2, 1, amount)).value;
    BothMove(t, pending.changes, amount);
    Order.NothingApplied(RegistryOf(t));
    UntouchedRecords(t, pending);
    assert t.records + [] == t.records;
  }
  lemma {:induction false} BothMove(t: Table, changes: seq<BalanceChange>, amount: int)
    requires Small(t) && Small(Shifted(t, amount))
    requires changes == [BalanceChange(2, t.cash[1], -amount), BalanceChange(1, t.cash[0], amount)]
    ensures WalletsStand(PlayersOf(t), changes)
    ensures Bankrupted(UpdatedPlayers(PlayersOf(t), changes), None) == PlayersOf(Shifted(t, amount))
  {
    var rest: seq<BalanceChange> := changes[1..];
    assert rest == [changes[1]];
    assert FindBalance(rest, 1) == Some(changes[1]);
    assert FindBalance(changes, 2) == Some(changes[0]) && FindBalance(changes, 1) == Some(changes[1]);
    var updated := UpdatedPlayers(PlayersOf(t), changes);
    assert updated == PlayersOf(Shifted(t, amount)) by { BothUpdated(t, changes, amount); }
    assert Bankrupted(updated, None) == updated;
  }
  lemma {:induction false} BothUpdated(t: Table, changes: seq<BalanceChange>, amount: int)
    requires Small(t) && Small(Shifted(t, amount)) && |changes| == 2 && changes[1].delta == amount == -changes[0].delta
    requires FindBalance(changes, 2) == Some(changes[0]) && FindBalance(changes, 1) == Some(changes[1])
    ensures UpdatedPlayers(PlayersOf(t), changes) == PlayersOf(Shifted(t, amount))
  {
    hide FindBalance;
  }

  // ----- Reversing -----

  lemma MovedBackOne(t: Table, k: nat, delta: int)
    requires Small(t) && k < 2 && 0 <= t.cash[k] - delta <= MAX_SAFE
    ensures MoveBack(PlayersOf(t), [(k + 1, delta)]) == Ok([BalanceChange(k + 1, t.cash[k], -delta)])
  {
    hide FindPlayer;
    KnownPlayers(t);
    assert PlayersOf(t)[k].id == k + 1 && FindPlayer(PlayersOf(t), k + 1) == Ok(PlayersOf(t)[k]);
    var rest: seq<Delta> := [(k + 1, delta)][1..];
    var none: seq<BalanceChange> := [];
    assert rest == [] && [BalanceChange(k + 1, t.cash[k], -delta)] + none == [BalanceChange(k + 1, t.cash[k], -delta)];
  }
  lemma MovedBackNothing(t: Table, k: nat)
    requires Small(t) && k < 2
    ensures MoveBack(PlayersOf(t), [(k + 1, 0), (2 - k, 0)]) ==
            Ok([BalanceChange(k + 1, t.cash[k], 0), BalanceChange(2 - k, t.cash[1 - k], 0)])
  {
    hide FindPlayer;
    KnownPlayers(t);
    assert PlayersOf(t)[k].id == k + 1 && FindPlayer(PlayersOf(t), k + 1) == Ok(PlayersOf(t)[k]);
    var both: seq<Delta> := [(k + 1, 0), (2 - k, 0)];
    MovedBackOne(t, 1 - k, 0);
    assert both[1..] == [((1 - k) + 1, 0)];
    var one, other := BalanceChange(k + 1, t.cash[k], 0), BalanceChange(2 - k, t.cash[1 - k], 0);
    assert [one] + [other] == [one, other];
  }
  // The reversal of an entry that nothing later blocks.
  ghost predicate Unblocked(e: Entry, later: seq<Entry>) {
    Reversible(e) && e.reversedBy.None? && e.kind != MORTGAGE && e.kind != MORTGAGE_REDEMPTION && e.changes != [] &&
    FindReversalDependency(e, later, GroupTileIds(BOARD, TilesOf(e))).None?
  }
  lemma Undoing(t: Table, log: seq<Entry>, i: nat)
    requires Small(t) && i < |log| && Unblocked(log[i], log[i + 1..])
    requires MoveBack(PlayersOf(t), log[i].participants).Ok?
    ensures UndoOf(Ledger(Bank(t), log), i) ==
            Ok(Undo(Simple(REVERSAL, log[i].amount, log[i].total, MoveBack(PlayersOf(t), log[i].participants).value)
                    .(registryChanges := InvertChanges(log[i].changes), tileId := log[i].tile), Untouched))
  {
    hide ValidateGame, MoveBack, FindReversalDependency, GroupTileIds, InvertChanges, PlayersOf, RegistryOf;
    KnownPlayers(t);
    assert |InvertChanges(log[i].changes)| == |log[i].changes|;
    assert RecordFixOf(log[i]) == Ok(Untouched);
  }

  // A sale on street 1 with nothing but gifts of street 2 after it is undone.
  ghost predicate SaleOnTop(t: Table, log: seq<Entry>, i: nat) {
    Small(t) && i < |log| && t.tiles[0] == Held(1) && t.cash[0] >= 50 &&
    log[i].kind == PROPERTY_SELL_BUILDING && log[i].participants == [(1, 50)] && log[i].reversedBy.None? &&
    log[i].changes == [PropertyChange(1, BUILT, Held(1))] &&
    forall j :: i < j < |log| ==> log[j].kind == PROPERTY_TRANSFER && TilesOf(log[j]) == [2]
  }
  lemma SaleUnblocked(t: Table, log: seq<Entry>, i: nat)
    requires SaleOnTop(t, log, i)
    ensures Unblocked(log[i], log[i + 1..])
  {
    hide GroupTileIds;
    var group, later := GroupTileIds(BOARD, TilesOf(log[i])), log[i + 1..];
    assert TilesOf(log[i]) == [1];
    forall e | e in later
      ensures !Blocks(log[i], e, group)
    {
      var j :| 0 <= j < |later| && later[j] == e;
      assert log[i + 1 + j] == e;
    }
  }
  ghost predicate SaleReversed(t: Table, log: seq<Entry>, i: nat, next: Ledger) {
    SaleOnTop(t, log, i) && next.bank == Bank(Stepped(t, 0, -50, 0, BUILT, [])) && |next.log| == |log| + 1 &&
    next.log[|log|].kind == REVERSAL && next.log[..|log|] == log[i := log[i].(reversedBy := Some(|log|))]
  }
  lemma SaleUndone(t: Table, log: seq<Entry>, i: nat)
    requires SaleOnTop(t, log, i)
    ensures var l := Ledger(Bank(t), log);
            CanUndo(l, i) && SaleReversed(t, log, i, Next(l, Reverse(i)))
  {
    hide UndoOf, Commit, MoveBack, Unblocked, PlayersOf, RegistryOf, Stepped;
    var l := Ledger(Bank(t), log);
    SaleUnblocked(t, log, i);
    MovedBackOne(t, 0, 50);
    Undoing(t, log, i);
    var pending := UndoOf(l, i).value.pending;
    assert pending.registryChanges == [PropertyChange(1, Held(1), BUILT)];
    StaysSound(t, 0, -50, 0, BUILT);
    Committed(t, pending, 0, -50, 0, BUILT);
    SumOfSingle((1, 50));
  }
  lemma SumOfSingle(d: Delta)
    ensures SumOf([d]) == d.1
  {
    var none: seq<Delta> := [d][1..];
    assert none == [];
  }
  // A gift of street 2 with nothing but reversals after it can be undone.
  lemma GiftUndoable(t: Table, log: seq<Entry>, i: nat, before: PropertyState)
    requires Small(t) && i < |log| && t.tiles[1] == Held(1) && before == Held(2)
    requires log[i].kind == PROPERTY_TRANSFER && log[i].participants == [(2, 0), (1, 0)] && log[i].reversedBy.None?
    requires log[i].changes == [PropertyChange(2, before, t.tiles[1])] && log[i].tile.None?
    requires forall j :: i < j < |log| ==> log[j].kind == REVERSAL
    ensures CanUndo(Ledger(Bank(t), log), i)
  {
    hide UndoOf, Commit, MoveBack, Unblocked, PlayersOf, RegistryOf, GroupTileIds;
    var l := Ledger(Bank(t), log);
    assert Unblocked(log[i], log[i + 1..]) by { GiftUnblocked(log, i); }
    MovedBackNothing(t, 1);
    Undoing(t, log, i);
    var pending := UndoOf(l, i).value.pending;
    assert pending.registryChanges == [PropertyChange(2, Held(1), Held(2))];
    CommittedGift(t, pending, Held(2));
    SumOfNothing();
  }
  lemma SumOfNothing()
    ensures SumOf([(2, 0), (1, 0)]) == 0
  {
    var both: seq<Delta> := [(2, 0), (1, 0)];
    SumOfSingle((1, 0));
    assert both[1..] == [(1, 0)];
  }
  lemma ReversalBlocksNothing(original: Entry, e: Entry, group: seq<TileId>)
    requires e.kind == REVERSAL
    ensures !Blocks(original, e, group)
  {
    hide Share, TilesOf;
  }
  lemma GiftUnblocked(log: seq<Entry>, i: nat)
    requires i < |log| && log[i].kind == PROPERTY_TRANSFER && log[i].reversedBy.None? && log[i].changes != []
    requires forall j :: i < j < |log| ==> log[j].kind == REVERSAL
    ensures Unblocked(log[i], log[i + 1..])
  {
    hide GroupTileIds, TilesOf, Blocks, FindReversalDependency;
    var group, later := GroupTileIds(BOARD, TilesOf(log[i])), log[i + 1..];
    forall e | e in later
      ensures !Blocks(log[i], e, group)
    {
      var j :| 0 <= j < |later| && later[j] == e;
      assert log[i + 1 + j] == e;
      ReversalBlocksNothing(log[i], e, group);
    }
  }
}
