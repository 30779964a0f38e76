/** When a reversal keeps the order of the registry, exactly, and the runs that therefore keep it. */
module OrderRuns {
  import opened Results
  import opened Property
  import opened Banking
  import opened BankState
  import opened BankRuns
  import opened Reversal
  import opened ReversalRuns
  import opened HouseLevels
  import opened HouseRuns
  import Order = RegistryOrder

  // ----- What an entry gives back -----

  // Levels within bounds, and an unowned tile bare.
  predicate SoundState(state: PropertyState) {
    0 <= state.houses <= MAX_BUILDINGS && (state.owner.None? ==> state == UNOWNED)
  }
  ghost predicate SoundRegistry(registry: Registry) { forall id: TileId :: SoundState(StateOf(registry, id)) }

  predicate LevelOnly(c: PropertyChange) { c.after == c.before.(houses := c.after.houses) }

  // Changes of levels alone, or changes that leave every level alone; each tile once.
  ghost predicate Undoable(changes: seq<PropertyChange>) {
    && DistinctChanges(changes) && (forall c :: c in changes ==> SoundState(c.before))
    && ((forall c :: c in changes ==> LevelOnly(c)) || (forall c :: c in changes ==> KeepsLevel(c)))
  }
  ghost predicate ActiveAgain(players: seq<Player>, changes: seq<PropertyChange>) {
    forall c :: c in changes && c.before.owner.Some? ==> IsActive(players, c.before.owner.value)
  }

  // ----- What can be checked before a reversal -----

  // A tile that changes hands again, or is flagged again, has no house in its group; a level that
  // comes back finds the group held by the tile's owner and free of mortgages.
  predicate MateAllows(registry: Registry, c: PropertyChange, mate: Tile) {
    var state := StateOf(registry, mate.id);
    (c.before.owner != c.after.owner || (c.before.mortgaged && !c.after.mortgaged) ==> state.houses == 0) &&
    (c.before.houses > 0 ==> state.owner == c.before.owner && !state.mortgaged)
  }
  predicate Permits(board: Board, registry: Registry, changes: seq<PropertyChange>) {
    forall c, t, u :: c in changes && t in board.tiles && u in board.tiles && t.id == c.tileId && u.group == t.group ==>
      MateAllows(registry, c, u)
  }
  // The levels as they will be, and whether they pass the even-building rule.
  function LevelAgain(registry: Registry, changes: seq<PropertyChange>, t: Tile): int {
    match FindChange(changes, t.id)
    case Some(c) => c.before.houses
    case None => StateOf(registry, t.id).houses
  }
  predicate EvenAgain(board: Board, registry: Registry, changes: seq<PropertyChange>) {
    board.rules.buildEvenly ==>
      forall t, u :: t in board.tiles && u in board.tiles && t.group == u.group ==>
        LevelAgain(registry, changes, t) <= LevelAgain(registry, changes, u) + 1
  }

  // ----- The order after a reversal -----

  ghost predicate Backs(registry: Registry, changes: seq<PropertyChange>, next: Registry) {
    Matches(registry, InvertChanges(changes)) && next == ApplyChanges(registry, InvertChanges(changes))
  }
  // A tile after the reversal: as its change found it, or as it is.
  lemma TileAgain(registry: Registry, changes: seq<PropertyChange>, next: Registry, id: TileId)
    requires Backs(registry, changes, next)
    ensures match FindChange(changes, id)
            case Some(c) => c in changes && c.tileId == id && StateOf(registry, id) == c.after &&
                StateOf(next, id) == c.before
            case None => StateOf(next, id) == StateOf(registry, id)
    ensures HasRow(next, id) == HasRow(registry, id)
  {
    hide StateOf, FindChange, ApplyChanges, HasRow, Matches, InvertChanges;
    TileReturns(registry, changes, id);
    FoundChange(changes, id);
    StateAfterChanges(registry, InvertChanges(changes), id);
  }
  lemma ChangeIsFound(changes: seq<PropertyChange>, c: PropertyChange)
    requires DistinctChanges(changes) && c in changes
    ensures FindChange(changes, c.tileId) == Some(c)
  {
    hide FindChange;
    var i :| 0 <= i < |changes| && changes[i] == c;
    FindChangeAt(changes, i);
  }
  lemma TilesAgain(board: Board, registry: Registry, players: seq<Player>, changes: seq<PropertyChange>,
          next: Registry, t: Tile)
    requires Order.InOrder(board, registry, players) && Undoable(changes) && ActiveAgain(players, changes)
    requires Backs(registry, changes, next) && t in board.tiles
    ensures Order.TileInOrder(next, players, t)
  {
    hide StateOf, FindChange, HasRow, IsActive, Backs, LevelOnly, KeepsLevel, Order.GroupInOrder;
    assert Order.TileInOrder(registry, players, t);
    TileAgain(registry, changes, next, t.id);
  }
  // Two mates after the reversal of a change of levels.
  lemma LevelMates(board: Board, registry: Registry, players: seq<Player>, changes: seq<PropertyChange>,
          next: Registry, t: Tile, u: Tile)
    requires Order.InOrder(board, registry, players) && Undoable(changes) && Backs(registry, changes, next)
    requires (forall c :: c in changes ==> LevelOnly(c)) && t in board.tiles && u in board.tiles
    requires Permits(board, registry, changes) && EvenAgain(board, registry, changes)
    ensures Order.GroupInOrder(board, next, t, u)
  {
    hide StateOf, FindChange, HasRow, IsActive, Backs, SoundState, Order.TileInOrder;
    TileAgain(registry, changes, next, t.id);
    TileAgain(registry, changes, next, u.id);
    assert Order.GroupInOrder(board, registry, t, u);
    if t.group == u.group {
      assert EvenAgain(board, registry, changes);
      if FindChange(changes, t.id).Some? { assert MateAllows(registry, FindChange(changes, t.id).value, u); }
    }
  }
  // Two mates after the reversal of a change of hands or flags.
  lemma PlainMates(board: Board, registry: Registry, players: seq<Player>, changes: seq<PropertyChange>,
          next: Registry, t: Tile, u: Tile)
    requires Order.InOrder(board, registry, players) && Undoable(changes) && Backs(registry, changes, next)
    requires (forall c :: c in changes ==> KeepsLevel(c)) && t in board.tiles && u in board.tiles
    requires Permits(board, registry, changes)
    ensures Order.GroupInOrder(board, next, t, u)
  {
    hide StateOf, FindChange, HasRow, IsActive, Backs, SoundState, Order.TileInOrder;
    TileAgain(registry, changes, next, t.id);
    TileAgain(registry, changes, next, u.id);
    assert Order.GroupInOrder(board, registry, t, u);
    if t.group == u.group {
      if FindChange(changes, t.id).Some? { assert MateAllows(registry, FindChange(changes, t.id).value, u); }
      if FindChange(changes, u.id).Some? { assert MateAllows(registry, FindChange(changes, u.id).value, t); }
    }
  }
  lemma PermittedKeepsOrder(board: Board, registry: Registry, players: seq<Player>, changes: seq<PropertyChange>,
          next: Registry)
    requires Order.InOrder(board, registry, players) && Undoable(changes) && ActiveAgain(players, changes)
    requires Backs(registry, changes, next) && Permits(board, registry, changes) && EvenAgain(board, registry, changes)
    ensures Order.InOrder(board, next, players)
  {
    hide Permits, EvenAgain, ActiveAgain, Order.TileInOrder, Order.GroupInOrder, LevelOnly, KeepsLevel, SoundState,
      ApplyChanges, Matches, DistinctChanges;
    Order.ShapeKept(board, registry, InvertChanges(changes));
    forall t | t in board.tiles
      ensures Order.TileInOrder(next, players, t)
    {
      TilesAgain(board, registry, players, changes, next, t);
    }
    forall t, u | t in board.tiles && u in board.tiles
      ensures Order.GroupInOrder(board, next, t, u)
    {
      if forall c :: c in changes ==> LevelOnly(c) { LevelMates(board, registry, players, changes, next, t, u); }
      else { PlainMates(board, registry, players, changes, next, t, u); }
    }
  }
  // What one change and one mate need, from the states before and after.
  predicate Related(c: PropertyChange, now: PropertyState, next: PropertyState) {
    (LevelOnly(c) && next == now.(houses := next.houses)) ||
    (KeepsLevel(c) && next.houses == now.houses && (next.owner != now.owner ==> now.houses == 0))
  }
  lemma MateNeeds(board: Board, registry: Registry, next: Registry, c: PropertyChange, t: Tile, u: Tile)
    requires t.id == c.tileId && u.group == t.group
    requires StateOf(registry, t.id) == c.after && StateOf(next, t.id) == c.before
    requires Related(c, StateOf(registry, u.id), StateOf(next, u.id))
    requires SoundState(c.before) && StateOf(registry, u.id).houses >= 0
    requires Order.GroupInOrder(board, registry, u, t) && Order.GroupInOrder(board, registry, t, u)
    requires Order.GroupInOrder(board, next, t, u) && Order.GroupInOrder(board, next, u, t)
    ensures MateAllows(registry, c, u)
  {
    hide StateOf;
  }
  lemma MateRelated(registry: Registry, changes: seq<PropertyChange>, next: Registry, c: PropertyChange, u: TileId)
    requires Undoable(changes) && Backs(registry, changes, next) && c in changes
    ensures Related(c, StateOf(registry, u), StateOf(next, u)) && SoundState(c.before)
  {
    hide StateOf, FindChange, Backs, SoundState;
    TileAgain(registry, changes, next, u);
  }
  lemma OrderNeedsPermit(board: Board, registry: Registry, players: seq<Player>, changes: seq<PropertyChange>,
          next: Registry)
    requires Order.InOrder(board, registry, players) && Undoable(changes) && Backs(registry, changes, next)
    requires Order.InOrder(board, next, players)
    ensures Permits(board, registry, changes)
  {
    hide StateOf, FindChange, HasRow, IsActive, Backs, SoundState, MateAllows, Related, LevelOnly, KeepsLevel,
      Order.GroupInOrder;
    forall c, t, u | c in changes && t in board.tiles && u in board.tiles && t.id == c.tileId && u.group == t.group
      ensures MateAllows(registry, c, u)
    {
      ChangeIsFound(changes, c);
      TileAgain(registry, changes, next, t.id);
      MateRelated(registry, changes, next, c, u.id);
      assert Order.TileInOrder(registry, players, u);
      MateNeeds(board, registry, next, c, t, u);
    }
  }
  lemma OrderNeedsEven(board: Board, registry: Registry, players: seq<Player>, changes: seq<PropertyChange>,
          next: Registry)
    requires Order.InOrder(board, next, players) && Backs(registry, changes, next)
    ensures EvenAgain(board, registry, changes)
  {
    hide StateOf, FindChange, HasRow, IsActive, Backs;
    forall t, u | t in board.tiles && u in board.tiles && t.group == u.group && board.rules.buildEvenly
      ensures LevelAgain(registry, changes, t) <= LevelAgain(registry, changes, u) + 1
    {
      TileAgain(registry, changes, next, t.id);
      TileAgain(registry, changes, next, u.id);
      assert Order.TileInOrder(next, players, t) && Order.TileInOrder(next, players, u);
      assert Order.GroupInOrder(board, next, t, u) && Order.GroupInOrder(board, next, u, t);
    }
  }
  // On a registry in order, giving changes back keeps the order exactly when every group allows it
  // and the levels pass the even-building rule.
  lemma OrderExactlyIfPermitted(board: Board, registry: Registry, players: seq<Player>, changes: seq<PropertyChange>,
          next: Registry)
    requires Order.InOrder(board, registry, players) && Undoable(changes) && ActiveAgain(players, changes)
    requires Backs(registry, changes, next)
    ensures Order.InOrder(board, next, players) <==>
            Permits(board, registry, changes) && EvenAgain(board, registry, changes)
  {
    hide *;
    if Order.InOrder(board, next, players) {
      OrderNeedsPermit(board, registry, players, changes, next);
      OrderNeedsEven(board, registry, players, changes, next);
    }
    if Permits(board, registry, changes) && EvenAgain(board, registry, changes) {
      PermittedKeepsOrder(board, registry, players, changes, next);
    }
  }

  // ----- What every run remembers of its entries -----

  // Whoever owns a tile again took part, or owns it still.
  ghost predicate OwnersTookPart(e: Entry) {
    forall c :: c in e.changes ==> OwnerTookPart(e, c)
  }
  ghost predicate OwnerTookPart(e: Entry, c: PropertyChange) {
    c.before.owner.None? || c.before.owner == c.after.owner ||
    exists d :: d in e.participants && c.before.owner == Some(d.0)
  }
  ghost predicate EntryRestorable(e: Entry) {
    Reversible(e) && e.reversedBy.None? ==> Undoable(e.changes) && OwnersTookPart(e)
  }
  ghost predicate Restorable(l: Ledger) {
    SoundRegistry(l.bank.registry) && forall i :: 0 <= i < |l.log| ==> EntryRestorable(l.log[i])
  }
  ghost predicate Sound(l: Ledger) { TableSound(l) && AllLive(l) && Restorable(l) }

  lemma SoundAfter(registry: Registry, changes: seq<PropertyChange>)
    requires SoundRegistry(registry) && forall c :: c in changes ==> SoundState(c.after)
    ensures SoundRegistry(ApplyChanges(registry, changes))
  {
    hide StateOf, FindChange, ApplyChanges, HasRow, SoundState;
    forall id: TileId
      ensures SoundState(StateOf(ApplyChanges(registry, changes), id))
    {
      StateAfterChanges(registry, changes, id);
      FoundChange(changes, id);
    }
  }
  lemma {:induction false} PlannedSound(group: seq<Tile>, registry: Registry, targets: Targets, direction: Direction,
          player: PlayerId, c: PropertyChange)
    requires GroupChanges(group, registry, targets, direction).Ok? &&
             c in GroupChanges(group, registry, targets, direction).value
    requires SoundRegistry(registry) && HoldsFullGroup(group, registry, player)
    requires forall k :: 0 <= k < |targets| ==> 0 <= targets[k].1 <= MAX_BUILDINGS
    ensures SoundState(c.after)
  {
    hide StateOf, TargetLevel, HoldsFullGroup;
    FullGroupMeansEveryTile(group, registry, player);
    FullGroupMeansEveryTile(group[1..], registry, player);
    assert SoundState(StateOf(registry, group[0].id));
    Order.FinalInRange(targets, group[0].id, StateOf(registry, group[0].id).houses);
    var rest := GroupChanges(group[1..], registry, targets, direction).value;
    if c in rest { PlannedSound(group[1..], registry, targets, direction, player, c); }
  }
  lemma PlanSound(s: State, p: PlayerId, targets: Targets, direction: Direction, c: PropertyChange)
    requires SoundRegistry(s.registry) && PlanBuildings(s.board, s.registry, p, targets, direction).Ok?
    requires c in PlanBuildings(s.board, s.registry, p, targets, direction).value.changes
    ensures SoundState(c.after)
  {
    hide PlanBuildings, StateOf, TargetLevel, GroupOf, HoldsFullGroup, GroupHasMortgage, FinalLevels, GroupChanges,
      SoundState;
    var group := Order.PlanFacts(s.board, s.registry, p, targets, direction);
    PlannedSound(group, s.registry, targets, direction, p, c);
  }
  lemma {:induction false} HandOverSound(registry: Registry, p: PlayerId, creditor: Option<PlayerId>, c: PropertyChange)
    requires c in HandOvers(registry, p, creditor)
    ensures SoundState(c.after)
  {
    if c in HandOvers(registry[1..], p, creditor) { HandOverSound(registry[1..], p, creditor, c); }
  }
  lemma WritesSound(s: State, op: Operation, c: PropertyChange)
    requires SoundRegistry(s.registry) && Perform(s, op).Ok? && c in Perform(s, op).value.registryChanges
    ensures SoundState(c.after)
  {
    hide Perform, BankGain, Settles, StateOf, FindTile, IsActive, PlanBuildings, BuildingTargets, TradeMoves,
      Repeats, CheckCanMortgage, RecordsMortgage, HandOvers, SoundRegistry, SoundState;
    PerformSettles(s, op);
    match op
    case Buy(p, tile, _) => BoughtSound(s.registry, tile, p);
    case WinAuction(p, _, lot) => BoughtSound(s.registry, lot.value, p);
    case MortgageBoard(p, tile) => FlaggedSound(s, p, tile);
    case Redeem(p, m) => UnflaggedSound(s.registry, s.mortgages[m].tile.value, p);
    case BuildOn(p, works) => PlanSound(s, p, BuildingTargets(s.registry, works, Build).value, Build, c);
    case SellFrom(p, works) => PlanSound(s, p, BuildingTargets(s.registry, works, Sell).value, Sell, c);
    case Exchange(trade) => TradedSound(s, trade, c);
    case GoBankrupt(p, creditor, _) => HandOverSound(s.registry, p, creditor, c);
  }
  lemma BoughtSound(registry: Registry, tile: TileId, p: PlayerId)
    requires SoundRegistry(registry)
    ensures SoundState(OwnerChange(tile, StateOf(registry, tile), Some(p)).after)
  {
    hide StateOf;
    assert SoundState(StateOf(registry, tile));
  }
  lemma UnflaggedSound(registry: Registry, tile: TileId, p: PlayerId)
    requires SoundRegistry(registry) && StateOf(registry, tile).owner == Some(p)
    ensures SoundState(MortgageChange(tile, StateOf(registry, tile), false).after)
  {
    hide StateOf;
    assert SoundState(StateOf(registry, tile));
  }
  lemma FlaggedSound(s: State, p: PlayerId, tile: TileId)
    requires SoundRegistry(s.registry) && CheckCanMortgage(s.board, s.registry, tile, p).Ok?
    ensures SoundState(MortgageChange(tile, StateOf(s.registry, tile), true).after)
  {
    hide StateOf, FindTile, GroupOf;
    assert SoundState(StateOf(s.registry, tile));
  }
  lemma TradedSound(s: State, trade: Trade, c: PropertyChange)
    requires SoundRegistry(s.registry) && TradeMoves(s.board, s.registry, trade).Ok?
    requires c in TradeMoves(s.board, s.registry, trade).value.changes
    ensures SoundState(c.after)
  {
    hide StateOf, TradeMoves, SoundRegistry;
    var to := Order.MovedTile(s.board, s.registry, trade, c);
    BoughtSound(s.registry, c.tileId, to);
  }

  // ----- The entry an operation writes -----

  lemma OthersDistinct(s: State, op: Operation)
    requires Perform(s, op).Ok? && !op.BuildOn? && !op.SellFrom? && !op.GoBankrupt?
    ensures DistinctChanges(Perform(s, op).value.registryChanges)
  {
    hide Perform, BankGain, Settles, StateOf, FindTile, IsActive, TradeMoves, Repeats, CheckCanMortgage,
      RecordsMortgage, OwnerChange, MortgageChange;
    PerformSettles(s, op);
    if op.Exchange? { Order.TradedTilesDiffer(s.board, s.registry, op.trade); }
  }
  lemma OthersOwners(s: State, op: Operation)
    requires Perform(s, op).Ok? && !op.BuildOn? && !op.SellFrom? && !op.GoBankrupt?
    ensures OwnersTookPart(EntryOf(s, Perform(s, op).value))
  {
    hide Perform, BankGain, Settles, StateOf, FindTile, IsActive, TradeMoves, Repeats, CheckCanMortgage,
      RecordsMortgage;
    PerformSettles(s, op);
    var e := EntryOf(s, Perform(s, op).value);
    forall c | c in e.changes
      ensures OwnerTookPart(e, c)
    {
      if op.Exchange? { TradersTookPart(s, op, c); }
    }
  }
  lemma TradersTookPart(s: State, op: Operation, c: PropertyChange)
    requires op.Exchange? && Perform(s, op).Ok? && c in TradeMoves(s.board, s.registry, op.trade).value.changes
    ensures OwnerTookPart(EntryOf(s, Perform(s, op).value), c)
  {
    hide Settles, StateOf, TradeMoves, TransferProperties, IsActive, Repeats;
    var to := Order.MovedTile(s.board, s.registry, op.trade, c);
    var participants := EntryOf(s, Perform(s, op).value).participants;
    assert participants[0] in participants && participants[1] in participants;
  }
  lemma WrittenRestorable(l: Ledger, op: Operation)
    requires TableSound(l) && SoundRegistry(l.bank.registry) && Takes(l.bank, l.bank, op)
    ensures EntryRestorable(EntryOf(l.bank, Perform(l.bank, op).value))
  {
    hide TableSound, Perform, BankGain, Commit, Settles, ChangesTiles, RecordsMortgage, SoundState, SoundRegistry,
      KeepsLevel, OwnerTookPart;
    PerformSettles(l.bank, op);
    FoundSound(l.bank, op);
    if op.BuildOn? || op.SellFrom? { WorkRestorable(l, op); }
    else if !op.GoBankrupt? {
      OthersDistinct(l.bank, op);
      OthersKeepLevels(l, op);
      OthersOwners(l.bank, op);
    }
  }
  lemma FoundSound(s: State, op: Operation)
    requires SoundRegistry(s.registry) && Takes(s, s, op)
    ensures forall c :: c in Perform(s, op).value.registryChanges ==> SoundState(c.before)
  {
    hide Perform, BankGain, WalletsStand, ApplyChanges, MovedMortgages, UpdatedPlayers, Bankrupted, SoundState,
      StateOf, HasRow;
  }
  lemma WorkRestorable(l: Ledger, op: Operation)
    requires TableSound(l) && Takes(l.bank, l.bank, op) && (op.BuildOn? || op.SellFrom?)
    requires forall c :: c in Perform(l.bank, op).value.registryChanges ==> SoundState(c.before)
    ensures EntryRestorable(EntryOf(l.bank, Perform(l.bank, op).value))
  {
    hide TableSound, Perform, BankGain, Commit, Settles, SoundState, PlannedWork, Standing, Reversible;
    var e := EntryOf(l.bank, Perform(l.bank, op).value);
    var targets, direction := WorkEntry(l, op);
    var g := WorkIsSound(l, e, op.player, targets, direction);
  }

  // ----- Every action -----

  lemma OperationKeepsSound(l: Ledger, op: Operation)
    requires Sound(l)
    ensures Sound(Next(l, Do(op))) && Next(l, Do(op)).bank.board == l.bank.board
  {
    hide TableSound, AllLive, Perform, BankGain, Commit, SoundRegistry, EntryRestorable, EntryOf, SoundState;
    OperationKeepsStacks(l, op);
    if Takes(l.bank, l.bank, op) {
      WrittenRestorable(l, op);
      StepSound(l.bank, op);
    }
  }
  lemma StepSound(s: State, op: Operation)
    requires SoundRegistry(s.registry) && Takes(s, s, op)
    ensures SoundRegistry(Step(s, op).registry) && Step(s, op).board == s.board
  {
    hide Perform, BankGain, WalletsStand, Matches, ApplyChanges, MovedMortgages, UpdatedPlayers, Bankrupted,
      SoundRegistry, SoundState;
    forall c | c in Perform(s, op).value.registryChanges
      ensures SoundState(c.after)
    {
      WritesSound(s, op, c);
    }
    SoundAfter(s.registry, Perform(s, op).value.registryChanges);
  }
  lemma ReversalKeepsSound(l: Ledger, i: nat)
    requires Sound(l) && CanUndo(l, i)
    ensures Sound(Next(l, Reverse(i))) && Next(l, Reverse(i)).bank.board == l.bank.board
  {
    hide TableSound, AllLive, Next, UndoneBank, SoundRegistry, EntryRestorable, SoundState, ApplyChanges, Matches,
      InvertChanges, Gone, Blocks, GroupTileIds, Reversible;
    ReversalKeepsStacks(l, i);
    DistinctTable(l);
    Undone(l, i);
    var e, next := l.log[i], Next(l, Reverse(i));
    assert EntryRestorable(e);
    BackSound(e);
    SoundAfter(l.bank.registry, InvertChanges(e.changes));
    forall k | 0 <= k < |next.log|
      ensures EntryRestorable(next.log[k])
    {
      if k < |l.log| && k != i { assert EntryRestorable(l.log[k]); } else { Settled(next.log[k]); }
    }
  }
  lemma DistinctTable(l: Ledger)
    requires TableSound(l)
    ensures DistinctPlayers(l.bank.players)
  {}
  lemma Settled(e: Entry)
    requires e.reversedBy.Some? || e.kind == REVERSAL
    ensures EntryRestorable(e)
  {
    hide Undoable, OwnersTookPart;
  }
  lemma BackSound(e: Entry)
    requires EntryRestorable(e) && Reversible(e) && e.reversedBy.None?
    ensures forall c :: c in InvertChanges(e.changes) ==> SoundState(c.after)
  {
    hide Reversible, SoundState, LevelOnly, KeepsLevel;
    forall c | c in InvertChanges(e.changes)
      ensures SoundState(c.after)
    {
      InvertedChange(e.changes, c);
    }
  }
  lemma NextKeepsSound(l: Ledger, a: Action)
    requires Sound(l)
    ensures Sound(Next(l, a)) && Next(l, a).bank.board == l.bank.board
  {
    hide Sound, Takes, UndoneBank;
    match a
    case Do(op) => OperationKeepsSound(l, op);
    case Reverse(i) => if CanUndo(l, i) { ReversalKeepsSound(l, i); }
  }

  // ----- One reversal, exactly -----

  ghost predicate InOrder(l: Ledger) { Order.InOrder(l.bank.board, l.bank.registry, l.bank.players) }

  lemma SameActivity(l: Ledger, i: nat)
    requires CanUndo(l, i)
    ensures forall p :: IsActive(Next(l, Reverse(i)).bank.players, p) <==> IsActive(l.bank.players, p)
  {
    hide Next, UndoneBank, DeltaOf, TileMovedBack;
    ReversalIsExact(l, i);
    var now, next := l.bank.players, Next(l, Reverse(i)).bank.players;
    forall p
      ensures IsActive(next, p) <==> IsActive(now, p)
    {
      if q :| q in now && q.id == p && !q.bankrupt {
        var k :| 0 <= k < |now| && now[k] == q;
        assert next[k] in next && next[k].id == p && !next[k].bankrupt;
      }
      if q :| q in next && q.id == p && !q.bankrupt {
        var k :| 0 <= k < |next| && next[k] == q;
        assert now[k] in now && now[k].id == p && !now[k].bankrupt;
      }
    }
  }
  lemma ParticipantsActive(l: Ledger, i: nat)
    requires CanUndo(l, i)
    ensures forall d :: d in l.log[i].participants ==> IsActive(l.bank.players, d.0)
  {
    hide ReverseTransaction, Commit, FixedRecords, GroupTileIds, FindActive;
    forall d | d in l.log[i].participants
      ensures IsActive(l.bank.players, d.0)
    {
      var k :| 0 <= k < |l.log[i].participants| && l.log[i].participants[k] == d;
      assert FindActive(l.bank.players, d.0).value in l.bank.players;
    }
  }
  lemma OwnersActiveAgain(l: Ledger, i: nat)
    requires Sound(l) && InOrder(l) && CanUndo(l, i)
    ensures Undoable(l.log[i].changes) && ActiveAgain(l.bank.players, l.log[i].changes)
    ensures Backs(l.bank.registry, l.log[i].changes, Next(l, Reverse(i)).bank.registry)
    ensures Next(l, Reverse(i)).bank.board == l.bank.board
  {
    hide TableSound, AllLive, Next, UndoneBank, SoundRegistry, ApplyChanges, Gone, Blocks, GroupTileIds,
      Reversible, IsActive, Undoable, StateOf, Order.InOrder;
    DistinctTable(l);
    Undone(l, i);
    ParticipantsActive(l, i);
    var e := l.log[i];
    assert EntryRestorable(e);
    forall c | c in e.changes && c.before.owner.Some?
      ensures IsActive(l.bank.players, c.before.owner.value)
    {
      assert OwnerTookPart(e, c);
      if c.before.owner == c.after.owner { StillOwned(l, e.changes, c); }
    }
  }
  lemma StillOwned(l: Ledger, changes: seq<PropertyChange>, c: PropertyChange)
    requires InOrder(l) && Matches(l.bank.registry, InvertChanges(changes)) && c in changes && c.after.owner.Some?
    ensures IsActive(l.bank.players, c.after.owner.value)
  {
    hide StateOf, IsActive, Order.GroupInOrder;
    var registry := l.bank.registry;
    var k :| 0 <= k < |changes| && changes[k] == c;
    assert InvertChanges(changes)[k] in InvertChanges(changes);
    var r :| 0 <= r < |registry| && registry[r].tileId == c.tileId;
    assert registry[r] in registry;
    var t :| t in l.bank.board.tiles && t.id == c.tileId;
    assert Order.TileInOrder(registry, l.bank.players, t);
  }
  // Whatever was reversed before: on a ledger in order an accepted reversal keeps the order exactly
  // when every group allows it and the levels it gives back pass the even-building rule.
  lemma ReversalKeepsOrderExactly(l: Ledger, i: nat)
    requires Sound(l) && InOrder(l) && CanUndo(l, i)
    ensures InOrder(Next(l, Reverse(i))) <==>
            Permits(l.bank.board, l.bank.registry, l.log[i].changes) &&
                EvenAgain(l.bank.board, l.bank.registry, l.log[i].changes)
  {
    hide Sound, Next, UndoneBank, Order.InOrder, Permits, EvenAgain, Undoable, ActiveAgain, Backs, IsActive;
    OwnersActiveAgain(l, i);
    SameActivity(l, i);
    var board, next := l.bank.board, Next(l, Reverse(i)).bank;
    OrderExactlyIfPermitted(board, l.bank.registry, l.bank.players, l.log[i].changes, next.registry);
    if Order.InOrder(board, next.registry, next.players) {
      Order.OrderForPlayers(board, next.registry, next.players, l.bank.players);
    }
    if Order.InOrder(board, next.registry, l.bank.players) {
      Order.OrderForPlayers(board, next.registry, l.bank.players, next.players);
    }
  }

  // ----- Runs that stay in order -----

  // Every work that can still be reversed was done on even levels.
  ghost predicate EvenLevels(board: Board, registry: Registry) {
    board.rules.buildEvenly ==>
      forall t, u :: t in board.tiles && u in board.tiles && t.group == u.group ==>
          Houses(registry, t) <= Houses(registry, u) + 1
  }
  ghost predicate Ordered(l: Ledger) {
    Sound(l) && InOrder(l) && forall i :: 0 <= i < |l.log| ==> EvenLevels(l.bank.board, l.log[i].was)
  }
  lemma OrderIsEven(l: Ledger)
    requires InOrder(l)
    ensures EvenLevels(l.bank.board, l.bank.registry)
  {
    hide StateOf, IsActive, HasRow;
    var board, registry := l.bank.board, l.bank.registry;
    forall t, u | t in board.tiles && u in board.tiles && t.group == u.group && board.rules.buildEvenly
      ensures Houses(registry, t) <= Houses(registry, u) + 1
    {
      assert Order.TileInOrder(registry, l.bank.players, t) && Order.TileInOrder(registry, l.bank.players, u);
      assert Order.GroupInOrder(board, registry, t, u) && Order.GroupInOrder(board, registry, u, t);
    }
  }
  // The levels a reversal of a work gives back are those it was done on.
  lemma WorkEvenAgain(l: Ledger, i: nat, g: nat)
    requires Ordered(l) && CanUndo(l, i) && IsWork(l.bank.board, l.log[i], g)
    ensures EvenAgain(l.bank.board, l.bank.registry, l.log[i].changes)
  {
    hide TableSound, AllLive, Next, UndoneBank, Restorable, Backs, IsWork, StateOf, FindChange, Order.InOrder;
    OwnersActiveAgain(l, i);
    assert HasStack(l, g) by { StackOf(l, g); }
    WorkComesBack(l, i, g);
    EntryWork(l, i, g);
    TableParts(l);
    OrderIsEven(l);
    var board, registry, changes := l.bank.board, l.bank.registry, l.log[i].changes;
    assert EvenLevels(board, l.log[i].was);
    var next := Next(l, Reverse(i)).bank.registry;
    forall t | t in board.tiles
      ensures LevelAgain(registry, changes, t) == if t.group == g then Houses(l.log[i].was, t) else Houses(registry, t)
    {
      TileAgain(registry, changes, next, t.id);
      if t.group == g { assert InGroup(board, t, g) && Houses(next, t) == LevelBefore(l.log[i], t); }
      else { OutsideGroup(l, i, g, t); }
    }
  }
  lemma StackOf(l: Ledger, g: nat)
    requires AllLive(l)
    ensures HasStack(l, g)
  {
    hide HasStack;
  }
  lemma OutsideGroup(l: Ledger, i: nat, g: nat, t: Tile)
    requires i < |l.log| && WorkSound(l.bank.board, l.log[i], g) && DistinctTiles(l.bank.board.tiles)
    requires t in l.bank.board.tiles && t.group != g
    ensures FindChange(l.log[i].changes, t.id).None?
  {
    hide FindChange, Matches;
    FoundChange(l.log[i].changes, t.id);
    if FindChange(l.log[i].changes, t.id).Some? {
      var u :| InGroup(l.bank.board, u, g) && u.id == t.id;
      Order.SameTile(l.bank.board, t, u);
    }
  }
  lemma PlainEvenAgain(l: Ledger, i: nat)
    requires Ordered(l) && CanUndo(l, i) && forall g :: !IsWork(l.bank.board, l.log[i], g)
    ensures EvenAgain(l.bank.board, l.bank.registry, l.log[i].changes)
  {
    hide TableSound, AllLive, Next, UndoneBank, Restorable, Backs, IsWork, StateOf, FindChange, Order.InOrder,
      Gone, Blocks, GroupTileIds, Reversible, Matches, ApplyChanges;
    OwnersActiveAgain(l, i);
    OrderIsEven(l);
    DistinctTable(l);
    Undone(l, i);
    NotWork(l, i);
    var board, registry, changes := l.bank.board, l.bank.registry, l.log[i].changes;
    forall t | t in board.tiles
      ensures LevelAgain(registry, changes, t) == Houses(registry, t)
    {
      TileAgain(registry, changes, Next(l, Reverse(i)).bank.registry, t.id);
    }
  }
  // Where every step so far kept the order, the groups alone decide.
  lemma OrderedReversalExactly(l: Ledger, i: nat)
    requires Ordered(l) && CanUndo(l, i)
    ensures InOrder(Next(l, Reverse(i))) <==> Permits(l.bank.board, l.bank.registry, l.log[i].changes)
  {
    hide Sound, Next, UndoneBank, InOrder, Permits, EvenAgain, EvenLevels;
    ReversalKeepsOrderExactly(l, i);
    if g :| IsWork(l.bank.board, l.log[i], g) { WorkEvenAgain(l, i, g); } else { PlainEvenAgain(l, i); }
  }

  predicate Guarded(l: Ledger, a: Action) {
    a.Reverse? && CanUndo(l, a.original) ==> Permits(l.bank.board, l.bank.registry, l.log[a.original].changes)
  }
  ghost predicate AllGuarded(l: Ledger, actions: seq<Action>)
    decreases |actions|
  {
    actions == [] || (Guarded(l, actions[0]) && AllGuarded(Next(l, actions[0]), actions[1..]))
  }
  ghost predicate InOrderThroughout(l: Ledger, actions: seq<Action>)
    decreases |actions|
  {
    InOrder(l) && (actions == [] || InOrderThroughout(Next(l, actions[0]), actions[1..]))
  }
  lemma OperationKeepsOrdered(l: Ledger, op: Operation)
    requires Ordered(l)
    ensures Ordered(Next(l, Do(op)))
  {
    hide Sound, Perform, BankGain, Commit, Order.InOrder, EvenLevels;
    NextKeepsSound(l, Do(op));
    OrderIsEven(l);
    Order.StepKeepsOrder(l.bank, op);
  }
  lemma NextOrderedExactly(l: Ledger, a: Action)
    requires Ordered(l)
    ensures Ordered(Next(l, a)) <==> Guarded(l, a)
    ensures InOrder(Next(l, a)) <==> Guarded(l, a)
  {
    hide Sound, Takes, UndoneBank, InOrder, EvenLevels, Permits, ReverseTransaction;
    if a.Do? { OperationKeepsOrdered(l, a.op); }
    else if CanUndo(l, a.original) {
      OrderedReversalExactly(l, a.original);
      ReversedWas(l, a.original);
      NextKeepsSound(l, a);
    }
  }
  lemma ReversedWas(l: Ledger, i: nat)
    requires Ordered(l) && CanUndo(l, i)
    ensures Next(l, Reverse(i)).bank.board == l.bank.board
    ensures forall k :: 0 <= k < |Next(l, Reverse(i)).log| ==>
              EvenLevels(l.bank.board, Next(l, Reverse(i)).log[k].was)
  {
    hide TableSound, AllLive, Restorable, UndoneBank, Order.InOrder, EvenLevels, ReverseTransaction;
    OrderIsEven(l);
    NextKeepsSound(l, Reverse(i));
  }
  // A run stays in order throughout exactly if each of its reversals is allowed by the groups it
  // touches, as they stand when it is made.
  lemma {:induction false} RunStaysInOrderExactly(l: Ledger, actions: seq<Action>)
    requires Ordered(l)
    ensures InOrderThroughout(l, actions) <==> AllGuarded(l, actions)
    ensures AllGuarded(l, actions) ==> Ordered(After(l, actions))
    decreases |actions|
  {
    hide Sound, Next, InOrder, EvenLevels, Guarded, Ordered;
    assert InOrder(l) by { OrderedIs(l); }
    if actions != [] {
      var next := Next(l, actions[0]);
      NextOrderedExactly(l, actions[0]);
      if Guarded(l, actions[0]) { RunStaysInOrderExactly(next, actions[1..]); }
      else { assert !InOrderThroughout(next, actions[1..]); }
    }
  }
  // Operations and bankruptcies alone always stay in order.
  lemma {:induction false} OperationsAreGuarded(l: Ledger, actions: seq<Action>)
    requires forall a :: a in actions ==> a.Do?
    ensures AllGuarded(l, actions)
    decreases |actions|
  {
    hide Next, Guarded;
    if actions != [] {
      assert actions[0] in actions;
      assert Guarded(l, actions[0]) by { OperationIsGuarded(l, actions[0]); }
      OperationsAreGuarded(Next(l, actions[0]), actions[1..]);
    }
  }
  lemma OperationIsGuarded(l: Ledger, a: Action)
    requires a.Do?
    ensures Guarded(l, a)
  {
    hide CanUndo, Permits;
  }
  lemma OrderedIs(l: Ledger)
    requires Ordered(l)
    ensures InOrder(l)
  {}

  // ----- From a new game -----

  lemma NewGameOrdered(s: State)
    requires DistinctTiles(s.board.tiles) && DistinctPlayers(s.players) && s.registry == Order.NewRegistry(s.board)
    ensures Ordered(Ledger(s, []))
  {
    hide StateOf, TableSound, AllLive, Order.InOrder;
    NewGameHasStacks(s);
    Order.NewGameInOrder(s.board, s.players);
    forall id: TileId
      ensures StateOf(s.registry, id) == UNOWNED
    {
      NewTile(s, id);
    }
  }
  // A game stays in order throughout exactly if each of its reversals is allowed when it is made;
  // operations and bankruptcies alone always keep it so.
  lemma GameStaysInOrderExactly(s: State, actions: seq<Action>)
    requires DistinctTiles(s.board.tiles) && DistinctPlayers(s.players) && s.registry == Order.NewRegistry(s.board)
    ensures InOrderThroughout(Ledger(s, []), actions) <==> AllGuarded(Ledger(s, []), actions)
    ensures (forall a :: a in actions ==> a.Do?) ==> InOrderThroughout(Ledger(s, []), actions)
  {
    hide Ordered, AllGuarded, InOrderThroughout, After;
    NewGameOrdered(s);
    RunStaysInOrderExactly(Ledger(s, []), actions);
    if forall a :: a in actions ==> a.Do? { OperationsAreGuarded(Ledger(s, []), actions); }
  }
  lemma NewTile(s: State, id: TileId)
    requires DistinctTiles(s.board.tiles) && s.registry == Order.NewRegistry(s.board)
    ensures StateOf(s.registry, id) == UNOWNED
  {
    hide StateOf;
    if HasRow(s.registry, id) {
      var i :| 0 <= i < |s.registry| && s.registry[i].tileId == id;
      StateOfRow(s.registry, i);
    } else {
      StateOfMissing(s.registry, id);
    }
  }
  lemma {:induction false} EveryRunIsSound(l: Ledger, actions: seq<Action>)
    requires Sound(l)
    ensures Sound(After(l, actions))
    decreases |actions|
  {
    hide Sound, Next;
    if actions != [] {
      NextKeepsSound(l, actions[0]);
      EveryRunIsSound(Next(l, actions[0]), actions[1..]);
    }
  }
  // From a new game, after any run: if the registry is in order, an accepted reversal leaves it so
  // exactly when every group allows it and the levels come back even.
  lemma ReversalInAnyGame(s: State, actions: seq<Action>, i: nat)
    requires DistinctTiles(s.board.tiles) && DistinctPlayers(s.players) && s.registry == Order.NewRegistry(s.board)
    requires var l := After(Ledger(s, []), actions); InOrder(l) && CanUndo(l, i)
    ensures var l := After(Ledger(s, []), actions);
            InOrder(Next(l, Reverse(i))) <==>
            Permits(l.bank.board, l.bank.registry, l.log[i].changes) &&
                EvenAgain(l.bank.board, l.bank.registry, l.log[i].changes)
  {
    hide Sound, After, Next, UndoneBank, InOrder, Permits, EvenAgain;
    NewGameOrdered(s);
    EveryRunIsSound(Ledger(s, []), actions);
    ReversalKeepsOrderExactly(After(Ledger(s, []), actions), i);
  }
}
