/** The mortgage records beside the registry: a tile is flagged as mortgaged exactly when one record
    in force says so, held by the tile's owner under the tile's own name and value. */
module MortgageRecords {
  import opened Results
  import opened Property
  import opened Banking
  import opened BankState
  import opened BankRuns
  import opened RegistryOrder
  import BuildingPlan

  ghost predicate OfTile(board: Board, m: Mortgage) {
    m.tile.Some? && exists t ::
        t in board.tiles && t.id == m.tile.value && t.mortgage == m.value && t.name == Some(m.name)
  }
  ghost predicate RecordInStep(s: State, m: Mortgage) {
    m.state.InForce? ==>
      if m.tile.None? then s.board.tiles == []
      else OfTile(s.board, m) && m.gameId == s.game.id &&
           StateOf(s.registry, m.tile.value).mortgaged && StateOf(s.registry, m.tile.value).owner == Some(m.player)
  }
  predicate Records(mortgages: seq<Mortgage>, id: TileId) {
    exists i :: 0 <= i < |mortgages| && mortgages[i].state.InForce? && mortgages[i].tile == Some(id)
  }
  ghost predicate OneRecordEach(mortgages: seq<Mortgage>) {
    forall i, j ::
      (0 <= i < j < |mortgages| && mortgages[i].state.InForce? && mortgages[j].state.InForce? &&
       mortgages[i].tile.Some?) ==>
      mortgages[i].tile != mortgages[j].tile
  }
  ghost predicate InStep(s: State) {
    && (forall i :: 0 <= i < |s.mortgages| ==> RecordInStep(s, s.mortgages[i]))
    && OneRecordEach(s.mortgages)
    && (forall t :: t in s.board.tiles && StateOf(s.registry, t.id).mortgaged ==> Records(s.mortgages, t.id))
  }

  // Every tile has its one row, and no unowned tile is flagged.
  ghost predicate Flaggable(state: PropertyState) { state.owner.None? ==> !state.mortgaged }
  ghost predicate TableInOrder(board: Board, registry: Registry) {
    && DistinctTiles(board.tiles) && DistinctRows(registry)
    && (forall r :: r in registry ==> exists t :: t in board.tiles && t.id == r.tileId)
    && (forall t :: t in board.tiles ==> HasRow(registry, t.id) && Flaggable(StateOf(registry, t.id)))
  }
  // The registry's order includes the table's.
  lemma OrderedTable(board: Board, registry: Registry, players: seq<Player>)
    requires InOrder(board, registry, players)
    ensures TableInOrder(board, registry)
  {
    hide GroupInOrder, StateOf, HasRow, IsActive;
    forall t | t in board.tiles
      ensures HasRow(registry, t.id) && Flaggable(StateOf(registry, t.id))
    {
      assert TileInOrder(registry, players, t);
    }
  }
  lemma ChangesKeepTable(board: Board, registry: Registry, changes: seq<PropertyChange>)
    requires TableInOrder(board, registry) && forall c :: c in changes ==> Flaggable(c.after)
    ensures TableInOrder(board, ApplyChanges(registry, changes))
  {
    hide StateOf, FindChange, ApplyChanges, HasRow, Flaggable;
    ShapeKept(board, registry, changes);
    forall t | t in board.tiles
      ensures HasRow(ApplyChanges(registry, changes), t.id) && Flaggable(StateOf(ApplyChanges(registry, changes), t.id))
    {
      StateAfterChanges(registry, changes, t.id);
      FoundChange(changes, t.id);
    }
  }

  // ----- Changes that keep every flag -----

  // Flags stay, and a flagged tile keeps an owner.
  ghost predicate KeepsFlag(c: PropertyChange) {
    c.after.mortgaged == c.before.mortgaged && (c.before.mortgaged ==> c.after.owner.Some?)
  }

  // The state after an operation that changes the registry and hands records on, but makes and
  // redeems none.
  ghost predicate OnlyHandsOn(s: State, next: State, pending: Pending) {
    && next.board == s.board && next.game == s.game &&
        next.registry == ApplyChanges(s.registry, pending.registryChanges)
    && next.mortgages == MovedMortgages(s.mortgages, pending)
    && Matches(s.registry, pending.registryChanges)
  }

  lemma SameFlag(s: State, pending: Pending, t: TileId)
    requires Matches(s.registry, pending.registryChanges) && forall c :: c in pending.registryChanges ==> KeepsFlag(c)
    ensures var before, after := StateOf(s.registry, t), After(s.registry, pending.registryChanges, t);
            after.mortgaged == before.mortgaged && (before.mortgaged ==> (before.owner.Some? ==> after.owner.Some?)) &&
            var change := FindChange(pending.registryChanges, t);
            if change.Some? then change.value.before == before && change.value.after == after else after == before
  {
    hide StateOf, FindChange, ApplyChanges;
    StateAfterChanges(s.registry, pending.registryChanges, t);
    FoundChange(pending.registryChanges, t);
  }

  lemma HandingOnKeepsStep(s: State, next: State, pending: Pending)
    requires InStep(s) && OnlyHandsOn(s, next, pending) && pending.bankrupt.None? && pending.redeemed.None?
    requires forall c :: c in pending.registryChanges ==> KeepsFlag(c)
    ensures InStep(next)
  {
    hide StateOf, FindChange, ApplyChanges, Matches, KeepsFlag, Records;
    forall i | 0 <= i < |next.mortgages|
      ensures RecordInStep(next, next.mortgages[i])
      ensures next.mortgages[i].state == s.mortgages[i].state && next.mortgages[i].tile == s.mortgages[i].tile
    {
      var m := s.mortgages[i];
      assert RecordInStep(s, m);
      if m.tile.Some? { SameFlag(s, pending, m.tile.value); }
    }
    forall t | t in next.board.tiles && StateOf(next.registry, t.id).mortgaged ensures Records(next.mortgages, t.id) {
      SameFlag(s, pending, t.id);
      SameRecords(s.mortgages, next.mortgages, t.id);
    }
  }
  lemma SameRecords(before: seq<Mortgage>, after: seq<Mortgage>, id: TileId)
    requires |before| == |after| && Records(before, id)
    requires forall i :: 0 <= i < |before| ==> after[i].state == before[i].state && after[i].tile == before[i].tile
    ensures Records(after, id)
  {
    var i :| 0 <= i < |before| && before[i].state.InForce? && before[i].tile == Some(id);
    assert after[i].state.InForce? && after[i].tile == Some(id);
  }

  // ----- Mortgaging and redeeming -----

  lemma UnmovedByOne(mortgages: seq<Mortgage>, i: nat, pending: Pending, change: PropertyChange)
    requires i < |mortgages|
    requires pending.registryChanges == [change] && pending.bankrupt.None? &&
             !(change.before.mortgaged && change.after.mortgaged)
    ensures MovedMortgage(mortgages, i, pending) == if pending.redeemed == Some(i)
            then mortgages[i].(state := Redeemed) else mortgages[i]
  {
    assert forall id :: FindChange([change], id) == if id == change.tileId then Some(change) else None;
  }

  lemma MortgagingKeepsStep(s: State, next: State, pending: Pending, t: Tile, player: PlayerId)
    requires InStep(s) && t in s.board.tiles && HasRow(s.registry, t.id) && t.name.Some?
    requires !StateOf(s.registry, t.id).mortgaged && StateOf(s.registry, t.id).owner == Some(player)
    requires pending.registryChanges == [MortgageChange(t.id, StateOf(s.registry, t.id), true)] &&
             pending.bankrupt.None? && pending.redeemed.None?
    requires next.board == s.board && next.game == s.game &&
             next.registry == ApplyChanges(s.registry, pending.registryChanges)
    requires next.mortgages == MovedMortgages(s.mortgages, pending) +
             [Mortgage(s.game.id, player, t.name.value, t.mortgage, Some(t.id), InForce)]
    ensures InStep(next)
  {
    hide StateOf, FindChange, ApplyChanges, MovedMortgage;
    var change := MortgageChange(t.id, StateOf(s.registry, t.id), true);
    var n := |s.mortgages|;
    forall i | 0 <= i < n
      ensures next.mortgages[i] == s.mortgages[i] && RecordInStep(next, next.mortgages[i]) &&
              (s.mortgages[i].state.InForce? ==> s.mortgages[i].tile != Some(t.id))
    {
      UnmovedByOne(s.mortgages, i, pending, change);
      assert RecordInStep(s, s.mortgages[i]);
      if s.mortgages[i].tile.Some? { AfterOne(s.registry, change, s.mortgages[i].tile.value); }
    }
    AfterOne(s.registry, change, t.id);
    assert RecordInStep(next, next.mortgages[n]);
    forall u | u in next.board.tiles && StateOf(next.registry, u.id).mortgaged ensures Records(next.mortgages, u.id) {
      AfterOne(s.registry, change, u.id);
      if u.id == t.id { assert next.mortgages[n].state.InForce? && next.mortgages[n].tile == Some(u.id); } else {
        var i :| 0 <= i < n && s.mortgages[i].state.InForce? && s.mortgages[i].tile == Some(u.id);
        assert next.mortgages[i].state.InForce?;
      }
    }
  }

  lemma RedeemingKeepsStep(s: State, next: State, pending: Pending, k: nat, id: TileId)
    requires InStep(s) && k < |s.mortgages| && s.mortgages[k].state.InForce? && s.mortgages[k].tile == Some(id) &&
             HasRow(s.registry, id)
    requires pending.registryChanges == [MortgageChange(id, StateOf(s.registry, id), false)] &&
             pending.bankrupt.None? && pending.redeemed == Some(k)
    requires next.board == s.board && next.game == s.game &&
             next.registry == ApplyChanges(s.registry, pending.registryChanges)
    requires next.mortgages == MovedMortgages(s.mortgages, pending)
    ensures InStep(next)
  {
    hide StateOf, FindChange, ApplyChanges, MovedMortgage;
    var change := MortgageChange(id, StateOf(s.registry, id), false);
    forall i | 0 <= i < |s.mortgages|
      ensures next.mortgages[i] == if i == k then s.mortgages[i].(state := Redeemed) else s.mortgages[i]
      ensures RecordInStep(next, next.mortgages[i])
    {
      UnmovedByOne(s.mortgages, i, pending, change);
      assert RecordInStep(s, s.mortgages[i]);
      if s.mortgages[i].tile.Some? { AfterOne(s.registry, change, s.mortgages[i].tile.value); }
    }
    forall u | u in next.board.tiles && StateOf(next.registry, u.id).mortgaged ensures Records(next.mortgages, u.id) {
      AfterOne(s.registry, change, u.id);
      var i :| 0 <= i < |s.mortgages| && s.mortgages[i].state.InForce? && s.mortgages[i].tile == Some(u.id);
      assert next.mortgages[i].state.InForce? && next.mortgages[i].tile == Some(u.id);
    }
  }
  // A free-text mortgage touches no tile.
  lemma NamedKeepsStep(s: State, next: State, pending: Pending, added: seq<Mortgage>)
    requires InStep(s) && pending.registryChanges == [] && pending.bankrupt.None?
    requires pending.redeemed.Some? ==>
             pending.redeemed.value < |s.mortgages| && s.mortgages[pending.redeemed.value].tile.None?
    requires |added| <= 1 && forall m :: m in added ==> m.tile.None? && s.board.tiles == []
    requires next.board == s.board && next.game == s.game && next.registry == s.registry
    requires next.mortgages == MovedMortgages(s.mortgages, pending) + added
    ensures InStep(next)
  {
    hide StateOf;
    forall i | 0 <= i < |s.mortgages|
      ensures next.mortgages[i] == if pending.redeemed == Some(i) then s.mortgages[i].(state := Redeemed)
                                   else s.mortgages[i]
      ensures RecordInStep(next, next.mortgages[i])
    {
      assert RecordInStep(s, s.mortgages[i]);
    }
    assert added != [] ==> next.mortgages[|s.mortgages|] == added[0];
    forall u | u in next.board.tiles && StateOf(next.registry, u.id).mortgaged ensures Records(next.mortgages, u.id) {
      var i :| 0 <= i < |s.mortgages| && s.mortgages[i].state.InForce? && s.mortgages[i].tile == Some(u.id);
      assert next.mortgages[i].state.InForce? && next.mortgages[i].tile == Some(u.id);
    }
  }

  // ----- Bankruptcy -----

  // A mortgaged tile of the bankrupt player carries the name of a mortgage the creditor has.
  ghost predicate ClashesAt(mortgages: seq<Mortgage>, player: PlayerId, creditor: PlayerId, i: nat)
    requires i < |mortgages|
  {
    mortgages[i].state.InForce? && mortgages[i].player == player && mortgages[i].tile.Some? &&
        HoldsName(mortgages, creditor, mortgages[i].name)
  }
  ghost predicate NamesClash(mortgages: seq<Mortgage>, player: PlayerId, creditor: Option<PlayerId>) {
    creditor.Some? && exists i :: 0 <= i < |mortgages| && ClashesAt(mortgages, player, creditor.value, i)
  }
  ghost predicate HandsOver(s: State, next: State, pending: Pending, player: PlayerId, creditor: Option<PlayerId>) {
    && pending.registryChanges == HandOvers(s.registry, player, creditor)
    && pending.bankrupt == Some(player) && pending.heir == creditor && creditor != Some(player) &&
        pending.redeemed.None?
    && next.board == s.board && next.game == s.game &&
        next.registry == ApplyChanges(s.registry, pending.registryChanges)
    && next.mortgages == MovedMortgages(s.mortgages, pending)
  }
  lemma HandedTile(s: State, pending: Pending, player: PlayerId, creditor: Option<PlayerId>, id: TileId)
    requires DistinctRows(s.registry) && HasRow(s.registry, id) &&
             pending.registryChanges == HandOvers(s.registry, player, creditor)
    ensures var before, after := StateOf(s.registry, id), After(s.registry, pending.registryChanges, id);
            after == if before.owner == Some(player)
                then PropertyState(creditor, creditor.Some? && before.mortgaged, 0) else before
  {
    hide StateOf, FindChange, ApplyChanges, HandOvers;
    HandedOver(s.registry, player, creditor, id);
    StateAfterChanges(s.registry, pending.registryChanges, id);
  }
  lemma NoClashKeepsStep(s: State, next: State, pending: Pending, player: PlayerId, creditor: Option<PlayerId>)
    requires InStep(s) && TableInOrder(s.board, s.registry) && HandsOver(s, next, pending, player, creditor)
    requires !NamesClash(s.mortgages, player, creditor)
    ensures InStep(next)
  {
    hide StateOf, FindChange, ApplyChanges, HandOvers, HoldsName, Records, HasRow;
    forall i | 0 <= i < |s.mortgages|
      ensures RecordInStep(next, next.mortgages[i])
      ensures next.mortgages[i].tile == s.mortgages[i].tile &&
              (next.mortgages[i].state.InForce? ==> s.mortgages[i].state.InForce?)
    {
      var m := s.mortgages[i];
      assert RecordInStep(s, m);
      if m.state.InForce? && m.tile.Some? {
        HandedTile(s, pending, player, creditor, m.tile.value);
        assert !(creditor.Some? && ClashesAt(s.mortgages, player, creditor.value, i));
      }
    }
    forall t | t in next.board.tiles && StateOf(next.registry, t.id).mortgaged ensures Records(next.mortgages, t.id) {
      HandedTile(s, pending, player, creditor, t.id);
      var i := RecordOf(s, t.id);
      assert RecordInStep(s, s.mortgages[i]) && !(creditor.Some? && ClashesAt(s.mortgages, player, creditor.value, i));
      Recorded(next.mortgages, i, t.id);
    }
  }
  lemma RecordOf(s: State, id: TileId) returns (i: nat)
    requires Records(s.mortgages, id)
    ensures i < |s.mortgages| && s.mortgages[i].state.InForce? && s.mortgages[i].tile == Some(id)
  {
    i :| 0 <= i < |s.mortgages| && s.mortgages[i].state.InForce? && s.mortgages[i].tile == Some(id);
  }
  lemma Recorded(mortgages: seq<Mortgage>, i: nat, id: TileId)
    requires i < |mortgages| && mortgages[i].state.InForce? && mortgages[i].tile == Some(id)
    ensures Records(mortgages, id)
  {}
  // A clash releases a record and leaves its tile flagged.
  lemma ClashBreaksStep(s: State, next: State, pending: Pending, player: PlayerId, creditor: PlayerId, i: nat)
    requires InStep(s) && TableInOrder(s.board, s.registry) && HandsOver(s, next, pending, player, Some(creditor))
    requires i < |s.mortgages| && ClashesAt(s.mortgages, player, creditor, i)
    ensures !InStep(next)
  {
    hide StateOf, FindChange, ApplyChanges, HandOvers, HoldsName, HasRow;
    var m := s.mortgages[i];
    assert RecordInStep(s, m);
    var t :| t in s.board.tiles && t.id == m.tile.value;
    HandedTile(s, pending, player, Some(creditor), t.id);
    assert StateOf(next.registry, t.id).mortgaged;
    assert next.mortgages[i].state.Released?;
    forall j | 0 <= j < |s.mortgages| && j != i
      ensures !(next.mortgages[j].state.InForce? && next.mortgages[j].tile == Some(t.id))
    {
      assert s.mortgages[j].state.InForce? ==> s.mortgages[j].tile != m.tile;
    }
  }
  // A bankruptcy moves or releases the records with the tiles exactly when no name clashes.
  lemma BankruptcyKeepsStep(s: State, next: State, pending: Pending, player: PlayerId, creditor: Option<PlayerId>)
    requires InStep(s) && TableInOrder(s.board, s.registry) && HandsOver(s, next, pending, player, creditor)
    ensures InStep(next) <==> !NamesClash(s.mortgages, player, creditor)
  {
    hide InStep, TableInOrder, HandsOver, ClashesAt;
    if NamesClash(s.mortgages, player, creditor) {
      var i :| 0 <= i < |s.mortgages| && ClashesAt(s.mortgages, player, creditor.value, i);
      ClashBreaksStep(s, next, pending, player, creditor.value, i);
    } else {
      NoClashKeepsStep(s, next, pending, player, creditor);
    }
  }
  // On a board whose tiles all bear different names nothing ever clashes.
  ghost predicate DistinctNames(tiles: seq<Tile>) {
    forall t, u :: t in tiles && u in tiles && t.name.Some? && t.name == u.name ==> t == u
  }
  lemma SameNameSameRecord(s: State, i: nat, j: nat)
    requires InStep(s) && DistinctNames(s.board.tiles) && i < |s.mortgages| && j < |s.mortgages|
    requires s.mortgages[i].state.InForce? && s.mortgages[j].state.InForce? && s.mortgages[i].tile.Some?
    requires s.mortgages[i].name == s.mortgages[j].name
    ensures i == j
  {
    hide StateOf, Records;
    assert RecordInStep(s, s.mortgages[i]) && RecordInStep(s, s.mortgages[j]);
    var t :| t in s.board.tiles && t.id == s.mortgages[i].tile.value && t.name == Some(s.mortgages[i].name);
    var u :| u in s.board.tiles && u.id == s.mortgages[j].tile.value && u.name == Some(s.mortgages[j].name);
    assert t == u;
  }
  lemma DistinctNamesNeverClash(s: State, player: PlayerId, creditor: Option<PlayerId>)
    requires InStep(s) && DistinctNames(s.board.tiles) && creditor != Some(player)
    ensures !NamesClash(s.mortgages, player, creditor)
  {
    hide InStep, DistinctNames;
    if creditor.Some? {
      forall i | 0 <= i < |s.mortgages| ensures !ClashesAt(s.mortgages, player, creditor.value, i) {
        var m := s.mortgages[i];
        if m.state.InForce? && m.tile.Some? && HoldsName(s.mortgages, creditor.value, m.name) {
          var j :| 0 <= j < |s.mortgages| && s.mortgages[j].state.InForce? &&
              s.mortgages[j].player == creditor.value && s.mortgages[j].name == m.name;
          SameNameSameRecord(s, i, j);
        }
      }
    }
  }

  // ----- Every operation -----

  lemma TradeKeepsFlags(s: State, trade: Trade, c: PropertyChange)
    requires TradeMoves(s.board, s.registry, trade).Ok? && c in TradeMoves(s.board, s.registry, trade).value.changes
    ensures KeepsFlag(c) && c.before.owner.Some? && c.after.owner.Some?
  {
    hide TradeMoves, FindTile, GroupOf, GroupHasBuildings, StateOf;
    var to := MovedTile(s.board, s.registry, trade, c);
  }
  lemma PlanKeepsFlags(s: State, p: PlayerId, targets: Targets, direction: Direction, c: PropertyChange)
    requires PlanBuildings(s.board, s.registry, p, targets, direction).Ok?
    requires c in PlanBuildings(s.board, s.registry, p, targets, direction).value.changes
    ensures KeepsFlag(c) && c.before.owner.Some? && c.after.owner.Some?
  {
    hide PlanBuildings, StateOf, TargetLevel, GroupOf, HoldsFullGroup, GroupHasMortgage, FinalLevels, GroupChanges,
      FindChange, BuildingPlan.Even;
    var group := PlanFacts(s.board, s.registry, p, targets, direction);
    PlannedFlag(group, s.registry, targets, direction, p, c);
  }
  lemma {:induction false} PlannedFlag(group: seq<Tile>, registry: Registry, targets: Targets, direction: Direction,
          p: PlayerId, c: PropertyChange)
    requires GroupChanges(group, registry, targets, direction).Ok? &&
             c in GroupChanges(group, registry, targets, direction).value
    requires HoldsFullGroup(group, registry, p)
    ensures KeepsFlag(c) && c.before.owner.Some? && c.after.owner.Some?
  {
    hide StateOf, TargetLevel, HoldsFullGroup;
    FullGroupMeansEveryTile(group, registry, p);
    FullGroupMeansEveryTile(group[1..], registry, p);
    var rest := GroupChanges(group[1..], registry, targets, direction).value;
    if c in rest { PlannedFlag(group[1..], registry, targets, direction, p, c); }
  }

  // Operations that neither make nor redeem a board mortgage, nor bankrupt anybody.
  predicate LeavesFlags(s: State, op: Operation) {
    !op.GoBankrupt? && !op.MortgageBoard? &&
        (op.Redeem? ==> op.mortgageId < |s.mortgages| && s.mortgages[op.mortgageId].tile.None?)
  }
  lemma FlagsKept(s: State, op: Operation, c: PropertyChange)
    requires TableInOrder(s.board, s.registry) && Perform(s, op).Ok? && LeavesFlags(s, op)
    requires c in Perform(s, op).value.registryChanges
    ensures KeepsFlag(c) && Flaggable(c.before) && Flaggable(c.after) && (c.before.mortgaged ==> c.before.owner.Some?)
  {
    hide Perform, BankGain, Settles, StateOf, FindTile, IsActive, PlanBuildings, BuildingTargets, TradeMoves,
      Repeats, CheckCanMortgage, MortgageChange, RecordsMortgage, HasRow;
    PerformSettles(s, op);
    match op
    case BuildOn(p, works) => PlanKeepsFlags(s, p, BuildingTargets(s.registry, works, Build).value, Build, c);
    case SellFrom(p, works) => PlanKeepsFlags(s, p, BuildingTargets(s.registry, works, Sell).value, Sell, c);
    case Exchange(trade) => TradeKeepsFlags(s, trade, c);
    case _ =>
  }

  // One operation keeps records and flags in step, unless a bankruptcy meets a name clash: exactly
  // then they part.
  lemma StepKeepsRecords(s: State, op: Operation)
    requires TableInOrder(s.board, s.registry) && InStep(s)
    ensures InStep(Step(s, op)) <==>
            !(Takes(s, s, op) && op.GoBankrupt? && NamesClash(s.mortgages, op.player, op.creditor))
  {
    hide TableInOrder, InStep, Perform, BankGain, Settles, WalletsStand, Matches, ApplyChanges, Bankrupted,
      UpdatedPlayers, MovedMortgages, KeepsFlag, NamesClash, ChangesTiles;
    if Takes(s, s, op) {
      PerformSettles(s, op);
      var pending, next := Perform(s, op).value, Step(s, op);
      NothingAppended(s, op);
      if op.GoBankrupt? {
        HandsOverAll(s, op);
        BankruptcyKeepsStep(s, next, pending, op.player, op.creditor);
      } else if op.MortgageBoard? {
        BoardMortgage(s, op);
      } else if LeavesFlags(s, op) {
        if op.MortgageNamed? || op.Redeem? { NamedOnly(s, op); }
        else {
          forall c | c in pending.registryChanges ensures KeepsFlag(c) { FlagsKept(s, op, c); }
          HandingOnKeepsStep(s, next, pending);
        }
      } else {
        BoardRedemption(s, op);
      }
    }
  }
  lemma NothingAppended(s: State, op: Operation)
    requires Takes(s, s, op)
    ensures Perform(s, op).value.newMortgage.None? ==>
            Step(s, op).mortgages == MovedMortgages(s.mortgages, Perform(s, op).value)
  {
    hide Perform, BankGain, WalletsStand, Matches, ApplyChanges, Bankrupted, UpdatedPlayers, MovedMortgages;
    assert MovedMortgages(s.mortgages, Perform(s, op).value) + [] == MovedMortgages(s.mortgages, Perform(s, op).value);
  }
  lemma HandsOverAll(s: State, op: Operation)
    requires Takes(s, s, op) && op.GoBankrupt?
    ensures HandsOver(s, Step(s, op), Perform(s, op).value, op.player, op.creditor)
  {
    hide Perform, BankGain, Settles, WalletsStand, Matches, ApplyChanges, Bankrupted, UpdatedPlayers,
      MovedMortgages, HandOvers, IsActive;
    PerformSettles(s, op);
    NothingAppended(s, op);
  }
  lemma NamedOnly(s: State, op: Operation)
    requires InStep(s) && Takes(s, s, op) && LeavesFlags(s, op) && (op.MortgageNamed? || op.Redeem?)
    ensures InStep(Step(s, op))
  {
    hide InStep, Perform, BankGain, Settles, WalletsStand, ApplyChanges, Bankrupted, UpdatedPlayers, MovedMortgages;
    PerformSettles(s, op);
    NothingApplied(s.registry);
    NamedKeepsStep(s, Step(s, op), Perform(s, op).value, NewRecord(s.game, Perform(s, op).value));
  }
  lemma BoardMortgage(s: State, op: Operation)
    requires TableInOrder(s.board, s.registry) && InStep(s) && op.MortgageBoard? && Takes(s, s, op)
    ensures InStep(Step(s, op))
  {
    hide InStep, Perform, Settles, BankGain, WalletsStand, ApplyChanges, Bankrupted, UpdatedPlayers,
      MovedMortgages, FindTile, StateOf, CheckCanMortgage, MortgageChange, HasRow, Flaggable;
    PerformSettles(s, op);
    var tile := FindTile(s.board.tiles, op.tile).value;
    Unflagged(s.board, s.registry, op.tile, op.player);
    MortgagingKeepsStep(s, Step(s, op), Perform(s, op).value, tile, op.player);
  }
  lemma Unflagged(board: Board, registry: Registry, tileId: TileId, player: PlayerId)
    requires CheckCanMortgage(board, registry, tileId, player).Ok?
    ensures StateOf(registry, tileId).owner == Some(player) && !StateOf(registry, tileId).mortgaged
  {
    hide StateOf, FindTile, GroupOf;
  }
  lemma BoardRedemption(s: State, op: Operation)
    requires InStep(s) && op.Redeem? && Takes(s, s, op) && !LeavesFlags(s, op)
    ensures InStep(Step(s, op))
  {
    hide InStep, Perform, Settles, BankGain, WalletsStand, ApplyChanges, Bankrupted, UpdatedPlayers,
      MovedMortgages, StateOf, MortgageChange;
    PerformSettles(s, op);
    NothingAppended(s, op);
    var id := s.mortgages[op.mortgageId].tile.value;
    BuildingPlan.OwnerHasRow(s.registry, id);
    RedeemingKeepsStep(s, Step(s, op), Perform(s, op).value, op.mortgageId, id);
  }

  lemma {:induction false} HandOverFlags(registry: Registry, player: PlayerId, creditor: Option<PlayerId>,
          c: PropertyChange)
    requires c in HandOvers(registry, player, creditor)
    ensures Flaggable(c.after)
  {
    if c in HandOvers(registry[1..], player, creditor) { HandOverFlags(registry[1..], player, creditor, c); }
  }
  // No operation leaves an unowned tile flagged.
  lemma WritesFlaggable(s: State, op: Operation, c: PropertyChange)
    requires TableInOrder(s.board, s.registry) && Perform(s, op).Ok? && c in Perform(s, op).value.registryChanges
    ensures Flaggable(c.after)
  {
    hide TableInOrder, Perform, BankGain, Settles, StateOf, FindTile, IsActive, PlanBuildings, BuildingTargets,
      TradeMoves, Repeats, CheckCanMortgage, RecordsMortgage, HasRow, HandOvers;
    PerformSettles(s, op);
    if op.GoBankrupt? { HandOverFlags(s.registry, op.player, op.creditor, c); }
    else if op.MortgageBoard? { Unflagged(s.board, s.registry, op.tile, op.player); }
    else if LeavesFlags(s, op) { FlagsKept(s, op, c); }
  }
  lemma StepKeepsTable(s: State, op: Operation)
    requires TableInOrder(s.board, s.registry)
    ensures TableInOrder(s.board, Step(s, op).registry) && Step(s, op).board == s.board
  {
    hide TableInOrder, Perform, BankGain, Settles, WalletsStand, Matches, ApplyChanges, Bankrupted, UpdatedPlayers,
      MovedMortgages, Flaggable;
    if Takes(s, s, op) {
      var pending := Perform(s, op).value;
      forall c | c in pending.registryChanges ensures Flaggable(c.after) { WritesFlaggable(s, op, c); }
      ChangesKeepTable(s.board, s.registry, pending.registryChanges);
    }
  }

  // A new game has no mortgages.
  lemma NewGameInStep(s: State)
    requires DistinctTiles(s.board.tiles) && s.registry == NewRegistry(s.board) && s.mortgages == []
    ensures InStep(s) && TableInOrder(s.board, s.registry)
  {
    hide StateOf;
    NewGameInOrder(s.board, s.players);
    OrderedTable(s.board, s.registry, s.players);
    forall t | t in s.board.tiles ensures !StateOf(s.registry, t.id).mortgaged {
      var i :| 0 <= i < |s.board.tiles| && s.board.tiles[i] == t;
      StateOfRow(s.registry, i);
    }
  }
}
