/** Every run of operations, bankruptcies and reversals keeps the stacks, so every accepted reversal
    of a build or a sale restores its colour group's house levels. */
module HouseRuns {
  import opened Results
  import opened Property
  import opened Banking
  import opened BankState
  import opened BankRuns
  import opened Reversal
  import opened ReversalRuns
  import opened HouseLevels
  import Order = RegistryOrder
  import BuildingPlan

  // ----- Operations that are neither works nor bankruptcies -----

  lemma BareOwnerChange(l: Ledger, t: Tile, p: PlayerId)
    requires TableSound(l) && t in l.bank.board.tiles && StateOf(l.bank.registry, t.id).owner.None?
    ensures KeepsLevel(OwnerChange(t.id, StateOf(l.bank.registry, t.id), Some(p)))
  {
    hide EntrySound, StateOf;
    assert Bare(l.bank.registry, t);
  }
  lemma TradedKeepsLevel(l: Ledger, trade: Trade, c: PropertyChange)
    requires TableSound(l) && TradeMoves(l.bank.board, l.bank.registry, trade).Ok? &&
             c in TradeMoves(l.bank.board, l.bank.registry, trade).value.changes
    ensures KeepsLevel(c)
  {
    hide EntrySound, StateOf, TradeMoves, FindTile, GroupOf, GroupHasBuildings;
    var to := Order.MovedTile(l.bank.board, l.bank.registry, trade, c);
    var t := FindTile(l.bank.board.tiles, c.tileId).value;
    Order.BareGroup(l.bank.board, l.bank.registry, t, t);
    assert Bare(l.bank.registry, t);
  }
  lemma OthersKeepLevels(l: Ledger, op: Operation)
    requires TableSound(l) && Perform(l.bank, op).Ok? && !op.BuildOn? && !op.SellFrom? && !op.GoBankrupt?
    ensures forall c :: c in Perform(l.bank, op).value.registryChanges ==> KeepsLevel(c)
  {
    hide TableSound, Perform, BankGain, Settles, StateOf, FindTile, IsActive, TradeMoves, Repeats, OwnerChange,
      CheckCanMortgage, RecordsMortgage;
    var s := l.bank;
    PerformSettles(s, op);
    forall c | c in Perform(s, op).value.registryChanges ensures KeepsLevel(c) {
      match op
      case Buy(p, tile, _) => BareOwnerChange(l, FindTile(s.board.tiles, tile).value, p);
      case WinAuction(p, _, lot) => BareOwnerChange(l, FindTile(s.board.tiles, lot.value).value, p);
      case Exchange(trade) => TradedKeepsLevel(l, trade, c);
      case _ =>
    }
  }

  // ----- Works -----

  lemma {:induction false} WorkChange(group: seq<Tile>, registry: Registry, targets: Targets, direction: Direction,
          c: PropertyChange)
    requires GroupChanges(group, registry, targets, direction).Ok? &&
             c in GroupChanges(group, registry, targets, direction).value
    requires forall t :: t in group ==> StateOf(registry, t.id).houses >= 0
    requires forall k :: 0 <= k < |targets| ==> 0 <= targets[k].1
    ensures c.after == c.before.(houses := c.after.houses) && c.after.houses >= 0 && exists t ::
            t in group && t.id == c.tileId
  {
    hide StateOf, TargetLevel;
    assert group[0] in group;
    assert forall t :: t in group <==> t == group[0] || t in group[1..];
    BuildingPlan.TargetFound(targets, group[0].id, StateOf(registry, group[0].id).houses);
    var rest := GroupChanges(group[1..], registry, targets, direction).value;
    if c in rest {
      WorkChange(group[1..], registry, targets, direction, c);
      var t :| t in group[1..] && t.id == c.tileId;
      assert t in group;
    }
  }

  ghost predicate PlannedWork(l: Ledger, e: Entry, player: PlayerId, targets: Targets, direction: Direction) {
    PlanBuildings(l.bank.board, l.bank.registry, player, targets, direction).Ok? &&
    e.changes == PlanBuildings(l.bank.board, l.bank.registry, player, targets, direction).value.changes &&
    e.was == l.bank.registry && Matches(e.was, e.changes) && |e.participants| == 1 && e.participants[0].0 == player &&
    (e.kind == PROPERTY_BUILD || e.kind == PROPERTY_SELL_BUILDING) && e.reversedBy.None?
  }
  lemma WorkIsSound(l: Ledger, e: Entry, player: PlayerId, targets: Targets, direction: Direction) returns (g: nat)
    requires TableSound(l) && PlannedWork(l, e, player, targets, direction)
    ensures Standing(l.bank.board, e, g) && WorkSound(l.bank.board, e, g)
    ensures forall h :: IsWork(l.bank.board, e, h) ==> h == g
  {
    hide StateOf, GroupOf, HoldsFullGroup, GroupHasMortgage, FinalLevels, GroupChanges, BuildingPlan.Even,
      PlanBuildings, EntrySound, Matches;
    var board, registry := l.bank.board, l.bank.registry;
    var group := Order.PlanFacts(board, registry, player, targets, direction);
    g := group[0].group;
    GroupDistinct(board.tiles, g);
    Order.PlannedTilesDiffer(group, registry, targets, direction);
    FullGroupMeansEveryTile(group, registry, player);
    forall t | InGroup(board, t, g) ensures Owner(e.was, t) == Worker(e) && LevelBefore(e, t) >= 0 && t in group {
      assert Bare(registry, t);
    }
    forall c | c in e.changes
      ensures c.after == c.before.(houses := c.after.houses) && c.after.houses >= 0 && exists t ::
              InGroup(board, t, g) && t.id == c.tileId
    {
      WorkChange(group, registry, targets, direction, c);
      var t :| t in group && t.id == c.tileId;
      assert InGroup(board, t, g);
    }
    assert e.changes[0] in e.changes;
    forall h | IsWork(board, e, h) ensures h == g {
      var t :| InGroup(board, t, g) && t.id == e.changes[0].tileId;
      var u :| InGroup(board, u, h) && u.id == e.changes[0].tileId;
      Order.SameTile(board, t, u);
    }
  }

  lemma WorkEntry(l: Ledger, op: Operation) returns (targets: Targets, direction: Direction)
    requires (op.BuildOn? || op.SellFrom?) && Takes(l.bank, l.bank, op)
    ensures PlannedWork(l, EntryOf(l.bank, Perform(l.bank, op).value), op.player, targets, direction)
  {
    hide Perform, BankGain, Settles, BuildingTargets, PlanBuildings, PlanPrice, IsActive, WalletsStand, Matches,
      ApplyChanges, MovedMortgages, UpdatedPlayers, Bankrupted, RecordsMortgage;
    PerformSettles(l.bank, op);
    OneWorker(l.bank, op);
    match op
    case BuildOn(p, works) => targets, direction := BuildingTargets(l.bank.registry, works, Build).value, Build;
    case SellFrom(p, works) => targets, direction := BuildingTargets(l.bank.registry, works, Sell).value, Sell;
  }
  lemma OneWorker(s: State, op: Operation)
    requires (op.BuildOn? || op.SellFrom?) && Perform(s, op).Ok?
    ensures |Perform(s, op).value.changes| == 1 && Perform(s, op).value.changes[0].player == op.player
  {
    hide Settles, BuildProperty, SellBuilding, BuildingTargets, PlanBuildings, PlanPrice, IsActive, Transfers;
  }

  // ----- The table stays sound -----

  lemma GoneForGood(players: seq<Player>, changes: seq<BalanceChange>, bankrupt: Option<PlayerId>, e: Entry)
    requires DistinctPlayers(players) && Gone(players, e)
    ensures Gone(Bankrupted(UpdatedPlayers(players, changes), bankrupt), e)
  {
    hide FindBalance, Worker;
    var next, id := Bankrupted(UpdatedPlayers(players, changes), bankrupt), Worker(e).value;
    if FindActive(next, id).Ok? {
      var p := FindActive(next, id).value;
      var i :| 0 <= i < |next| && next[i] == p;
      UpdatedRow(players, changes, i);
      FindPlayerAt(players, i);
    }
  }
  lemma GoneNow(players: seq<Player>, changes: seq<BalanceChange>, q: PlayerId, e: Entry)
    requires Worker(e) == Some(q)
    ensures Gone(Bankrupted(UpdatedPlayers(players, changes), Some(q)), e)
  {
    hide FindBalance, Worker;
    var next := Bankrupted(UpdatedPlayers(players, changes), Some(q));
    forall i | 0 <= i < |next| && next[i].id == q ensures next[i].bankrupt { UpdatedRow(players, changes, i); }
  }

  // After changes that keep levels, or works, or a bankruptcy, an unowned tile is still bare.
  lemma BareAfter(board: Board, registry: Registry, changes: seq<PropertyChange>)
    requires Matches(registry, changes) && (forall t :: t in board.tiles ==> Bare(registry, t))
    requires forall c :: c in changes ==> BareChange(c)
    ensures forall t :: t in board.tiles ==> Bare(ApplyChanges(registry, changes), t)
  {
    hide StateOf, FindChange, ApplyChanges, Matches;
    forall t | t in board.tiles ensures Bare(ApplyChanges(registry, changes), t) {
      ChangedOrNot(registry, changes, t);
      assert Bare(registry, t);
    }
  }
  predicate BareChange(c: PropertyChange) {
    (c.before.houses >= 0 && (c.before.owner.None? ==> c.before.houses == 0)) ==>
        c.after.houses >= 0 && (c.after.owner.None? ==> c.after.houses == 0)
  }
  lemma KeptIsBare(c: PropertyChange)
    requires KeepsLevel(c)
    ensures BareChange(c) && BareChange(PropertyChange(c.tileId, c.after, c.before)) &&
            (KeepsLevel(PropertyChange(c.tileId, c.after, c.before)))
  {}
  lemma DistinctAfter(registry: Registry, changes: seq<PropertyChange>)
    requires DistinctRows(registry)
    ensures DistinctRows(ApplyChanges(registry, changes))
  {
    hide FindChange;
    var after := ApplyChanges(registry, changes);
    assert forall i :: 0 <= i < |registry| ==> after[i].tileId == registry[i].tileId;
  }
  lemma {:induction false} HandOverIsBare(registry: Registry, q: PlayerId, creditor: Option<PlayerId>,
          c: PropertyChange)
    requires c in HandOvers(registry, q, creditor)
    ensures c.after.houses == 0
  {
    if c in HandOvers(registry[1..], q, creditor) { HandOverIsBare(registry[1..], q, creditor, c); }
  }

  // ----- One operation -----

  lemma Written(l: Ledger, op: Operation)
    requires DistinctPlayers(l.bank.players) && Takes(l.bank, l.bank, op)
    ensures var next, pending := Next(l, Do(op)), Perform(l.bank, op).value;
            Perform(l.bank, op).Ok? && Appended(l, next) && next.log[|l.log|] == EntryOf(l.bank, pending) &&
                DistinctPlayers(next.bank.players) &&
            next.bank.registry == ApplyChanges(l.bank.registry, pending.registryChanges) &&
                Matches(l.bank.registry, pending.registryChanges) &&
            next.bank.players == Bankrupted(UpdatedPlayers(l.bank.players, pending.changes), pending.bankrupt)
  {
    hide Perform, BankGain, ApplyChanges, WalletsStand, Matches, MovedMortgages, EntryOf, UpdatedPlayers,
      Bankrupted, Gone;
    CommitKeepsPlayers(l.bank, op);
    var pending := Perform(l.bank, op).value;
    forall e | Gone(l.bank.players, e)
      ensures Gone(Next(l, Do(op)).bank.players, e)
    {
      GoneForGood(l.bank.players, pending.changes, pending.bankrupt, e);
    }
  }

  ghost predicate AllLive(l: Ledger) { forall g :: HasStack(l, g) }
  ghost predicate HasStack(l: Ledger, g: nat) { exists d :: Live(l, g, d) }

  lemma TableAfter(l: Ledger, next: Ledger, changes: seq<PropertyChange>)
    requires TableSound(l) && next.bank.board == l.bank.board && DistinctPlayers(next.bank.players)
    requires Matches(l.bank.registry, changes) && next.bank.registry == ApplyChanges(l.bank.registry, changes)
    requires forall c :: c in changes ==> BareChange(c)
    requires forall i :: 0 <= i < |next.log| ==> EntrySound(l.bank.board, next.log[i])
    ensures TableSound(next)
  {
    hide EntrySound, Matches, ApplyChanges, BareChange, Bare;
    BareAfter(l.bank.board, l.bank.registry, changes);
    DistinctAfter(l.bank.registry, changes);
  }

  lemma WorkKeeps(l: Ledger, op: Operation, g: nat)
    requires TableSound(l) && Takes(l.bank, l.bank, op) && (op.BuildOn? || op.SellFrom?)
    ensures TableSound(Next(l, Do(op)))
    ensures HasStack(l, g) ==> HasStack(Next(l, Do(op)), g)
  {
    hide TableSound, Live, Perform, Takes, Next, Standing, WorkSound, EntrySound, ApplyChanges, Matches, Gone,
      SameLevels;
    TableParts(l);
    Written(l, op);
    var next := Next(l, Do(op));
    var e := next.log[|l.log|];
    var targets, direction := WorkEntry(l, op);
    var h := WorkIsSound(l, e, op.player, targets, direction);
    WorkEntrySound(l, next, e, h);
    if d :| Live(l, g, d) {
      if g == h { PushedStack(l, next, g, d); } else { OtherGroupWork(l, next, e, h, g, d); }
    }
  }
  lemma TableParts(l: Ledger)
    requires TableSound(l)
    ensures DistinctPlayers(l.bank.players) && DistinctTiles(l.bank.board.tiles) && DistinctRows(l.bank.registry)
  {}
  lemma PushedStack(l: Ledger, next: Ledger, g: nat, d: seq<nat>)
    requires Live(l, g, d) && Appended(l, next)
    requires var e := next.log[|l.log|];
             e.was == l.bank.registry && next.bank.registry == ApplyChanges(e.was, e.changes) &&
                 Standing(l.bank.board, e, g) && WorkSound(l.bank.board, e, g)
    ensures HasStack(next, g)
  {
    hide Live, Standing, WorkSound, ApplyChanges, Appended;
    Pushed(l, next, g, d);
  }
  lemma WorkEntrySound(l: Ledger, next: Ledger, e: Entry, h: nat)
    requires TableSound(l) && Appended(l, next) && next.log[|l.log|] == e && DistinctPlayers(next.bank.players)
    requires Standing(l.bank.board, e, h) && WorkSound(l.bank.board, e, h) && forall g ::
             IsWork(l.bank.board, e, g) ==> g == h
    requires e.was == l.bank.registry && next.bank.registry == ApplyChanges(e.was, e.changes)
    ensures TableSound(next)
  {
    hide Gone, ApplyChanges, Matches, InGroup, DistinctTiles, DistinctRows, DistinctChanges, LevelBefore, Owner,
      Worker, Bare, StateOf;
    assert EntrySound(l.bank.board, e);
    forall c | c in e.changes ensures BareChange(c) { WorkIsBare(l.bank.board, e, h, c); }
    hide EntrySound, BareChange, WorkSound;
    TableAfter(l, next, e.changes);
  }
  lemma WorkIsBare(board: Board, e: Entry, g: nat, c: PropertyChange)
    requires WorkSound(board, e, g) && c in e.changes
    ensures BareChange(c) && BareChange(PropertyChange(c.tileId, c.after, c.before)) && c.before.houses >= 0 &&
            c.before.owner == Worker(e) && Worker(e).Some?
  {
    hide StateOf;
    var t :| InGroup(board, t, g) && t.id == c.tileId;
    assert Owner(e.was, t) == Worker(e) && LevelBefore(e, t) >= 0;
  }
  lemma OtherGroupWork(l: Ledger, next: Ledger, e: Entry, h: nat, g: nat, d: seq<nat>)
    requires Live(l, g, d) && Appended(l, next) && next.log[|l.log|] == e && g != h && DistinctTiles(l.bank.board.tiles)
    requires WorkSound(l.bank.board, e, h) && e.was == l.bank.registry &&
             next.bank.registry == ApplyChanges(e.was, e.changes)
    requires forall k :: IsWork(l.bank.board, e, k) ==> k == h
    ensures HasStack(next, g)
  {
    hide Live, Gone, ApplyChanges, Matches, LevelBefore, Owner, Worker, StateOf;
    forall c | c in e.changes ensures !(exists t :: InGroup(l.bank.board, t, g) && t.id == c.tileId) {
      var u :| InGroup(l.bank.board, u, h) && u.id == c.tileId;
      forall t | InGroup(l.bank.board, t, g)
        ensures t.id != c.tileId
      {
        if t.id == c.tileId { Order.SameTile(l.bank.board, t, u); }
      }
    }
    KeptByChanges(l.bank.board, l.bank.registry, e.changes, g);
    hide SameLevels, WorkSound, IsWork;
    AppendedKeeps(l, next, g, d);
  }
  // An appended entry that is no standing work of the group, over unchanged levels.
  lemma AppendedKeeps(l: Ledger, next: Ledger, g: nat, d: seq<nat>)
    requires Live(l, g, d) && Appended(l, next) && !Standing(l.bank.board, next.log[|l.log|], g)
    requires SameLevels(l.bank.registry, next.bank.registry, l.bank.board, g)
    ensures HasStack(next, g)
  {
    hide Live, Standing, SameLevels, Gone;
    LiveKept(l, next, g, d);
  }

  lemma OtherKeeps(l: Ledger, op: Operation, g: nat)
    requires TableSound(l) && Takes(l.bank, l.bank, op) && !op.BuildOn? && !op.SellFrom? && !op.GoBankrupt?
    ensures TableSound(Next(l, Do(op)))
    ensures HasStack(l, g) ==> HasStack(Next(l, Do(op)), g)
  {
    hide TableSound, Live, Perform, Takes, Next, EntrySound, ApplyChanges, Matches, Gone, KeepsLevel, SameLevels;
    TableParts(l);
    Written(l, op);
    PerformSettles(l.bank, op);
    OthersKeepLevels(l, op);
    var next := Next(l, Do(op));
    var e := next.log[|l.log|];
    OtherEntrySound(l, next, e);
    KeptByChanges(l.bank.board, l.bank.registry, e.changes, g);
    if d :| Live(l, g, d) { AppendedKeeps(l, next, g, d); }
  }
  lemma OtherEntrySound(l: Ledger, next: Ledger, e: Entry)
    requires TableSound(l) && Appended(l, next) && next.log[|l.log|] == e && DistinctPlayers(next.bank.players)
    requires Matches(l.bank.registry, e.changes) && next.bank.registry == ApplyChanges(l.bank.registry, e.changes)
    requires e.kind != PROPERTY_BUILD && e.kind != PROPERTY_SELL_BUILDING && forall c :: c in e.changes ==>
             KeepsLevel(c)
    ensures TableSound(next)
  {
    hide Gone, ApplyChanges, Matches, DistinctTiles, DistinctRows, Bare, KeepsLevel, BareChange, WorkSound;
    assert EntrySound(l.bank.board, e);
    hide EntrySound;
    forall c | c in e.changes ensures BareChange(c) { KeptIsBare(c); }
    TableAfter(l, next, e.changes);
  }

  lemma BankruptcyKeeps(l: Ledger, op: Operation, g: nat)
    requires TableSound(l) && Takes(l.bank, l.bank, op) && op.GoBankrupt?
    ensures TableSound(Next(l, Do(op)))
    ensures HasStack(l, g) ==> HasStack(Next(l, Do(op)), g)
  {
    hide TableSound, Live, Perform, Takes, Next, EntrySound, ApplyChanges, Matches, Gone, HandOvers, Standing,
      Worker, Bankrupted, UpdatedPlayers, BareChange;
    TableParts(l);
    Written(l, op);
    PerformSettles(l.bank, op);
    var next, pending := Next(l, Do(op)), Perform(l.bank, op).value;
    var e := next.log[|l.log|];
    forall c | c in e.changes
      ensures BareChange(c)
    {
      HandOverIsBare(l.bank.registry, op.player, op.creditor, c);
      ZeroIsBare(c);
    }
    BankruptEntrySound(l, next, e);
    forall w | Worker(w) == Some(op.player)
      ensures Gone(next.bank.players, w)
    {
      GoneNow(l.bank.players, pending.changes, op.player, w);
    }
    NoWork(l.bank.board, e, g);
    if d :| Live(l, g, d) { var rest := Barred(l, next, g, d, op.player, op.creditor); }
  }
  lemma ZeroIsBare(c: PropertyChange) requires c.after.houses == 0 ensures BareChange(c) {}
  lemma NoWork(board: Board, e: Entry, g: nat)
    requires e.kind != PROPERTY_BUILD && e.kind != PROPERTY_SELL_BUILDING
    ensures !Standing(board, e, g)
  {}
  lemma BankruptEntrySound(l: Ledger, next: Ledger, e: Entry)
    requires TableSound(l) && Appended(l, next) && next.log[|l.log|] == e && DistinctPlayers(next.bank.players)
    requires Matches(l.bank.registry, e.changes) && next.bank.registry == ApplyChanges(l.bank.registry, e.changes)
    requires (e.kind == BANKRUPTCY_TRANSFER || e.kind == REVERSAL) && forall c :: c in e.changes ==> BareChange(c)
    ensures TableSound(next)
  {
    hide Gone, ApplyChanges, Matches, DistinctTiles, DistinctRows, Bare, BareChange, WorkSound;
    assert EntrySound(l.bank.board, e);
    hide EntrySound;
    TableAfter(l, next, e.changes);
  }

  lemma OperationKeepsStacks(l: Ledger, op: Operation)
    requires TableSound(l) && AllLive(l)
    ensures TableSound(Next(l, Do(op))) && AllLive(Next(l, Do(op)))
  {
    hide TableSound, HasStack, Perform, Takes, Step, EntryOf;
    if Takes(l.bank, l.bank, op) {
      forall g: nat ensures HasStack(Next(l, Do(op)), g) && TableSound(Next(l, Do(op))) {
        assert HasStack(l, g);
        if op.BuildOn? || op.SellFrom? { WorkKeeps(l, op, g); }
        else if op.GoBankrupt? { BankruptcyKeeps(l, op, g); }
        else { OtherKeeps(l, op, g); }
      }
      assert HasStack(Next(l, Do(op)), 0);
    }
  }

  // ----- One reversal -----

  lemma InGroupTileIds(board: Board, original: Entry, g: nat, u: Tile)
    requires DistinctTiles(board.tiles) && IsWork(board, original, g) && InGroup(board, u, g)
    ensures u.id in GroupTileIds(board, TilesOf(original))
  {
    hide FindTile, GroupOf;
    var t :| InGroup(board, t, g) && t.id == original.changes[0].tileId;
    BuildingPlan.TileIsFound(board, t);
    var tiles := TilesOf(original);
    assert tiles[0] == t.id;
    var group := GroupOf(board.tiles, g);
    assert u in group;
    var i :| 0 <= i < |group| && group[i] == u;
    assert GroupIds(board, t.id)[i] == u.id;
    assert u.id in GroupIds(board, tiles[0]);
  }
  // A later standing work of the group refuses the reversal.
  lemma LaterWorkBlocks(board: Board, original: Entry, candidate: Entry, g: nat)
    requires DistinctTiles(board.tiles) && IsWork(board, original, g) && Standing(board, candidate, g)
    ensures Blocks(original, candidate, GroupTileIds(board, TilesOf(original)))
  {
    hide FindTile, GroupOf, GroupTileIds;
    var u :| InGroup(board, u, g) && u.id == candidate.changes[0].tileId;
    InGroupTileIds(board, original, g, u);
    assert TilesOf(candidate)[0] == u.id;
  }

  lemma Undone(l: Ledger, i: nat)
    requires DistinctPlayers(l.bank.players) && CanUndo(l, i)
    ensures i < |l.log|
    ensures var e, next := l.log[i], Next(l, Reverse(i));
            && next.bank.board == l.bank.board && |next.log| == |l.log| + 1 && DistinctPlayers(next.bank.players)
            && (forall k :: 0 <= k < |l.log| && k != i ==> next.log[k] == l.log[k])
            && next.log[i] == e.(reversedBy := Some(|l.log|)) && next.log[|l.log|].kind == REVERSAL &&
                next.log[|l.log|].reversedBy.None?
            && Matches(l.bank.registry, InvertChanges(e.changes)) &&
                next.bank.registry == ApplyChanges(l.bank.registry, InvertChanges(e.changes))
            && (forall w :: Gone(l.bank.players, w) ==> Gone(next.bank.players, w)) && !Gone(l.bank.players, e)
            && Reversible(e) && e.reversedBy.None?
            && forall k :: i < k < |l.log| ==> !Blocks(e, l.log[k], GroupTileIds(l.bank.board, TilesOf(e)))
  {
    hide ReverseTransaction, ApplyChanges, WalletsStand, Matches, MovedMortgages, UpdatedPlayers, Bankrupted, Gone,
      GroupTileIds, FindReversalDependency, MoveBack, Blocks, FixedRecords, InvertChanges, Reversible, FindActive;
    var e, pending := l.log[i], UndoOf(l, i).value.pending;
    forall w | Gone(l.bank.players, w)
      ensures Gone(Next(l, Reverse(i)).bank.players, w)
    {
      GoneForGood(l.bank.players, pending.changes, pending.bankrupt, w);
    }
    assert !Gone(l.bank.players, e) by { StillHere(l.bank.players, e); }
    PlayersAfterCommit(l.bank, pending, SumOf(e.participants));
    forall k | i < k < |l.log|
      ensures !Blocks(e, l.log[k], GroupTileIds(l.bank.board, TilesOf(e)))
    {
      assert l.log[k] == l.log[i + 1..][k - i - 1];
    }
  }
  lemma StillHere(players: seq<Player>, e: Entry)
    requires MoveBack(players, e.participants).Ok?
    ensures !Gone(players, e)
  {}
  lemma PlayersAfterCommit(s: State, pending: Pending, gain: int)
    requires DistinctPlayers(s.players) && Commit(s, pending, gain).Some?
    ensures DistinctPlayers(Commit(s, pending, gain).value.players)
  {
    hide FindBalance, Matches, WalletsStand, ApplyChanges, MovedMortgages;
    var updated := UpdatedPlayers(s.players, pending.changes);
    forall i | 0 <= i < |s.players|
      ensures Bankrupted(updated, pending.bankrupt)[i].id == s.players[i].id
    {
      UpdatedRow(s.players, pending.changes, i);
    }
  }

  lemma InvertedChange(changes: seq<PropertyChange>, c: PropertyChange)
    requires c in InvertChanges(changes)
    ensures PropertyChange(c.tileId, c.after, c.before) in changes
  {
    var k :| 0 <= k < |changes| && InvertChanges(changes)[k] == c;
    assert changes[k] in changes;
  }
  ghost predicate UndoneLog(l: Ledger, next: Ledger, i: nat) {
    i < |l.log| && next.bank.board == l.bank.board && |next.log| == |l.log| + 1 && DistinctPlayers(next.bank.players) &&
    (forall k :: 0 <= k < |l.log| && k != i ==> next.log[k] == l.log[k]) &&
    next.log[i] == l.log[i].(reversedBy := Some(|l.log|)) && next.log[|l.log|].kind == REVERSAL
  }
  lemma EntryStaysSound(board: Board, e: Entry, k: nat)
    requires EntrySound(board, e)
    ensures EntrySound(board, e.(reversedBy := Some(k)))
  {
    hide WorkSound;
    var f := e.(reversedBy := Some(k));
    forall g ensures IsWork(board, f, g) <==> IsWork(board, e, g) {}
    forall g | IsWork(board, e, g) ensures WorkSound(board, f, g) { SameWork(board, e, f, g); }
  }
  lemma SameWork(board: Board, e: Entry, f: Entry, g: nat)
    requires WorkSound(board, e, g) && f == e.(reversedBy := f.reversedBy)
    ensures WorkSound(board, f, g)
  {
    hide Houses, Owner, StateOf, Matches;
  }
  lemma UndoneTable(l: Ledger, next: Ledger, i: nat)
    requires TableSound(l) && UndoneLog(l, next, i) && Matches(l.bank.registry, InvertChanges(l.log[i].changes))
    requires next.bank.registry == ApplyChanges(l.bank.registry, InvertChanges(l.log[i].changes))
    requires forall c :: c in l.log[i].changes ==> BareChange(PropertyChange(c.tileId, c.after, c.before))
    ensures TableSound(next)
  {
    hide ApplyChanges, Matches, Bare, BareChange, InvertChanges, EntrySound;
    var e := l.log[i];
    forall c | c in InvertChanges(e.changes) ensures BareChange(c) { InvertedChange(e.changes, c); }
    EntryStaysSound(l.bank.board, e, |l.log|);
    assert EntrySound(l.bank.board, next.log[|l.log|]) by { ReversalIsSound(l.bank.board, next.log[|l.log|]); }
    TableAfter(l, next, InvertChanges(e.changes));
  }
  lemma ReversalIsSound(board: Board, e: Entry)
    requires e.kind == REVERSAL
    ensures EntrySound(board, e)
  {
    hide WorkSound, KeepsLevel;
  }

  // The group of a reversed work comes back whole.
  lemma WorkComesBack(l: Ledger, i: nat, g: nat)
    requires TableSound(l) && HasStack(l, g) && CanUndo(l, i) && IsWork(l.bank.board, l.log[i], g)
    ensures forall t :: InGroup(l.bank.board, t, g) ==>
            Houses(Next(l, Reverse(i)).bank.registry, t) == LevelBefore(l.log[i], t)
    ensures HasStack(Next(l, Reverse(i)), g)
  {
    hide Live, Next, CanUndo, EntrySound, ApplyChanges, Matches, Gone, Blocks, GroupTileIds, InvertChanges,
      Reversible, WorkSound, InGroup, Houses, LevelBefore, Bare, IsWork;
    Undone(l, i);
    var e, next := l.log[i], Next(l, Reverse(i));
    assert WorkSound(l.bank.board, e, g) by { EntryWork(l, i, g); }
    forall k | i < k < |l.log| ensures !Standing(l.bank.board, l.log[k], g) {
      if Standing(l.bank.board, l.log[k], g) { LaterWorkBlocks(l.bank.board, e, l.log[k], g); }
    }
    NoWork(l.bank.board, next.log[|l.log|], g);
    var d :| Live(l, g, d);
    TopOfStack(l, g, d, i);
    Popped(l, next, g, d, i);
  }
  lemma EntryWork(l: Ledger, i: nat, g: nat)
    requires TableSound(l) && i < |l.log| && IsWork(l.bank.board, l.log[i], g)
    ensures WorkSound(l.bank.board, l.log[i], g)
  {
    hide WorkSound, IsWork, Bare;
    assert EntrySound(l.bank.board, l.log[i]);
  }
  lemma OtherGroupComesBack(l: Ledger, i: nat, h: nat, g: nat)
    requires TableSound(l) && HasStack(l, g) && CanUndo(l, i) && IsWork(l.bank.board, l.log[i], h) && g != h
    ensures HasStack(Next(l, Reverse(i)), g)
  {
    hide Live, Next, CanUndo, EntrySound, ApplyChanges, Matches, Gone, Blocks, GroupTileIds, InvertChanges,
      Reversible, Houses, LevelBefore, Bare, SameLevels, StateOf;
    Undone(l, i);
    EntryWork(l, i, h);
    var e, next := l.log[i], Next(l, Reverse(i));
    forall c | c in InvertChanges(e.changes) ensures !(exists t :: InGroup(l.bank.board, t, g) && t.id == c.tileId) {
      InvertedChange(e.changes, c);
      var u :| InGroup(l.bank.board, u, h) && u.id == c.tileId;
      forall t | InGroup(l.bank.board, t, g)
        ensures t.id != c.tileId
      {
        if t.id == c.tileId { Order.SameTile(l.bank.board, t, u); }
      }
    }
    KeptByChanges(l.bank.board, l.bank.registry, InvertChanges(e.changes), g);
    OnlyOneGroup(l.bank.board, e, h, g);
    hide WorkSound, IsWork;
    var d :| Live(l, g, d);
    UndoneKeeps(l, next, i, g, d);
  }
  lemma OnlyOneGroup(board: Board, e: Entry, h: nat, g: nat)
    requires DistinctTiles(board.tiles) && IsWork(board, e, h) && g != h
    ensures !IsWork(board, e, g)
  {
    var t :| InGroup(board, t, h) && t.id == e.changes[0].tileId;
    if u :| InGroup(board, u, g) && u.id == e.changes[0].tileId { Order.SameTile(board, t, u); }
  }
  lemma UndoneKeeps(l: Ledger, next: Ledger, i: nat, g: nat, d: seq<nat>)
    requires Live(l, g, d) && UndoneLog(l, next, i) && !IsWork(l.bank.board, l.log[i], g)
    requires forall w :: Gone(l.bank.players, w) ==> Gone(next.bank.players, w)
    requires SameLevels(l.bank.registry, next.bank.registry, l.bank.board, g)
    ensures HasStack(next, g)
  {
    hide Live, SameLevels, Gone, InGroup;
    LiveKept(l, next, g, d);
  }

  lemma ReversalKeepsStacks(l: Ledger, i: nat)
    requires TableSound(l) && AllLive(l) && CanUndo(l, i)
    ensures TableSound(Next(l, Reverse(i))) && AllLive(Next(l, Reverse(i)))
  {
    hide Next, CanUndo, EntrySound, ApplyChanges, Matches, Gone, Blocks, GroupTileIds, InvertChanges, Bare,
      HasStack, IsWork, BareChange, KeepsLevel;
    Undone(l, i);
    var e, next := l.log[i], Next(l, Reverse(i));
    if h :| IsWork(l.bank.board, e, h) {
      EntryWork(l, i, h);
      forall c | c in e.changes
        ensures BareChange(PropertyChange(c.tileId, c.after, c.before))
      {
        WorkIsBare(l.bank.board, e, h, c);
      }
      forall g: nat ensures HasStack(next, g) {
        assert HasStack(l, g);
        if g == h { WorkComesBack(l, i, g); } else { OtherGroupComesBack(l, i, h, g); }
      }
    } else {
      NotWork(l, i);
      forall c | c in e.changes ensures BareChange(PropertyChange(c.tileId, c.after, c.before)) { KeptIsBare(c); }
      forall g: nat ensures HasStack(next, g) {
        assert HasStack(l, g);
        PlainComesBack(l, i, g);
      }
    }
    UndoneTable(l, next, i);
  }
  lemma NotWork(l: Ledger, i: nat)
    requires TableSound(l) && i < |l.log| && Reversible(l.log[i]) && forall h :: !IsWork(l.bank.board, l.log[i], h)
    ensures forall c :: c in l.log[i].changes ==> KeepsLevel(c)
  {
    hide WorkSound, IsWork, Bare, KeepsLevel;
    assert EntrySound(l.bank.board, l.log[i]);
  }
  lemma PlainComesBack(l: Ledger, i: nat, g: nat)
    requires TableSound(l) && HasStack(l, g) && CanUndo(l, i) && !IsWork(l.bank.board, l.log[i], g)
    requires forall c :: c in l.log[i].changes ==> KeepsLevel(c)
    ensures HasStack(Next(l, Reverse(i)), g)
  {
    hide Live, Next, CanUndo, EntrySound, ApplyChanges, Matches, Gone, Blocks, GroupTileIds, InvertChanges,
      Reversible, Bare, SameLevels, StateOf, IsWork, KeepsLevel;
    Undone(l, i);
    var e, next := l.log[i], Next(l, Reverse(i));
    forall c | c in InvertChanges(e.changes) ensures KeepsLevel(c) {
      InvertedChange(e.changes, c);
      KeptIsBare(PropertyChange(c.tileId, c.after, c.before));
    }
    KeptByChanges(l.bank.board, l.bank.registry, InvertChanges(e.changes), g);
    var d :| Live(l, g, d);
    UndoneKeeps(l, next, i, g, d);
  }

  // ----- Every run -----

  lemma {:induction false} RunKeepsStacks(l: Ledger, actions: seq<Action>)
    requires TableSound(l) && AllLive(l)
    ensures TableSound(After(l, actions)) && AllLive(After(l, actions))
    decreases |actions|
  {
    hide TableSound, AllLive, CanUndo, Takes;
    if actions != [] {
      match actions[0]
      case Do(op) => {
        OperationKeepsStacks(l, op);
        RunKeepsStacks(Next(l, Do(op)), actions[1..]);
      }
      case Reverse(i) => {
        if CanUndo(l, i) { ReversalKeepsStacks(l, i); }
        RunKeepsStacks(Next(l, Reverse(i)), actions[1..]);
      }
    }
  }

  // A new game has nothing to reverse and nothing built.
  lemma NewGameHasStacks(s: State)
    requires DistinctTiles(s.board.tiles) && DistinctPlayers(s.players) && s.registry == Order.NewRegistry(s.board)
    ensures TableSound(Ledger(s, [])) && AllLive(Ledger(s, []))
  {
    hide StateOf;
    var l := Ledger(s, []);
    forall t | t in s.board.tiles ensures StateOf(s.registry, t.id) == UNOWNED {
      var i :| 0 <= i < |s.board.tiles| && s.board.tiles[i] == t;
      StateOfRow(s.registry, i);
    }
    forall g: nat ensures HasStack(l, g) { assert Live(l, g, []); }
  }

  // From a new game, over any operations, bankruptcies and reversals: an accepted reversal of a
  // build or a sale gives every tile of the colour group the level it had just before.
  lemma ReversalRestoresGroup(s: State, actions: seq<Action>, i: nat, g: nat, t: Tile)
    requires DistinctTiles(s.board.tiles) && DistinctPlayers(s.players) && s.registry == Order.NewRegistry(s.board)
    requires var l := After(Ledger(s, []), actions);
             CanUndo(l, i) && IsWork(l.bank.board, l.log[i], g) && InGroup(l.bank.board, t, g)
    ensures var l := After(Ledger(s, []), actions);
            Houses(Next(l, Reverse(i)).bank.registry, t) == Houses(l.log[i].was, t)
  {
    hide TableSound, HasStack, CanUndo, IsWork, InGroup, After, Next, Houses;
    NewGameHasStacks(s);
    RunKeepsStacks(Ledger(s, []), actions);
    var l := After(Ledger(s, []), actions);
    assert HasStack(l, g);
    WorkComesBack(l, i, g);
  }
}
