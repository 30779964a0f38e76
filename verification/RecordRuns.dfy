/** The mortgage records over runs of operations, bankruptcies and reversals: cancelling a mortgage
    and restoring a redeemed one keep records and flags in step. */
module RecordRuns {
  import opened Results
  import opened Property
  import opened Banking
  import opened BankState
  import opened BankRuns
  import opened MortgageRecords
  import opened Reversal
  import opened ReversalRuns
  import Order = RegistryOrder

  // ----- What the log remembers of the records -----

  // The entry of a board mortgage names its record, wherever that record is now.
  ghost predicate MadeRecord(s: State, e: Entry) {
    e.tile.Some? && e.mortgage.Some? && e.mortgage.value < |s.mortgages| &&
        s.mortgages[e.mortgage.value].tile == e.tile &&
    exists before :: e.changes == [MortgageChange(e.tile.value, before, true)] && !before.mortgaged &&
        before.owner.Some?
  }
  // The entry of a redemption names a record that is still redeemed.
  ghost predicate RedeemedRecord(s: State, e: Entry) {
    e.tile.Some? && e.mortgage.Some? && e.mortgage.value < |s.mortgages| &&
    var m := s.mortgages[e.mortgage.value];
    m.tile == e.tile && m.state.Redeemed? && OfTile(s.board, m) && m.gameId == s.game.id &&
    exists before :: e.changes == [MortgageChange(e.tile.value, before, false)] && before.mortgaged &&
        before.owner == Some(m.player)
  }
  ghost predicate PlainChange(c: PropertyChange) { KeepsFlag(c) && Flaggable(c.before) }
  ghost predicate EntryInStep(s: State, e: Entry) {
    Reversible(e) && e.reversedBy.None? ==>
      if e.kind == MORTGAGE then MadeRecord(s, e)
      else if e.kind == MORTGAGE_REDEMPTION then RedeemedRecord(s, e)
      else forall c :: c in e.changes ==> PlainChange(c)
  }
  predicate Redeems(e: Entry) { e.kind == MORTGAGE_REDEMPTION && e.tile.Some? && e.reversedBy.None? }
  ghost predicate LogInStep(l: Ledger) {
    (forall i :: 0 <= i < |l.log| ==> EntryInStep(l.bank, l.log[i])) &&
    (forall i, j :: 0 <= i < j < |l.log| && Redeems(l.log[i]) && Redeems(l.log[j]) ==>
        l.log[i].mortgage != l.log[j].mortgage)
  }
  // A bankruptcy that meets a name the creditor already has.
  ghost predicate Clashes(l: Ledger, a: Action) {
    a.Do? && Takes(l.bank, l.bank, a.op) && a.op.GoBankrupt? && NamesClash(l.bank.mortgages, a.op.player, a.op.creditor)
  }
  ghost predicate Kept(l: Ledger) { TableInOrder(l.bank.board, l.bank.registry) && InStep(l.bank) && LogInStep(l) }

  // Records keep their tile, and a redeemed one stays as it is.
  ghost predicate RecordsPersist(before: State, after: State) {
    before.board == after.board && before.game == after.game && |before.mortgages| <= |after.mortgages| &&
    forall k :: 0 <= k < |before.mortgages| ==> RecordPersists(before.mortgages[k], after.mortgages[k])
  }
  predicate RecordPersists(before: Mortgage, after: Mortgage) {
    after.tile == before.tile && (before.state.Redeemed? ==> after == before)
  }
  lemma EntryStaysInStep(before: State, after: State, e: Entry)
    requires EntryInStep(before, e) && RecordsPersist(before, after)
    ensures EntryInStep(after, e)
  {
    hide OfTile, PlainChange;
    if e.mortgage.Some? && e.mortgage.value < |before.mortgages| {
      assert RecordPersists(before.mortgages[e.mortgage.value], after.mortgages[e.mortgage.value]);
    }
  }
  lemma MovedPersist(s: State, pending: Pending, gain: int)
    requires Commit(s, pending, gain).Some?
    ensures RecordsPersist(s, Commit(s, pending, gain).value)
  {
    hide WalletsStand, Matches, ApplyChanges, Bankrupted, UpdatedPlayers, FindChange, HoldsName;
    var next := Commit(s, pending, gain).value;
    forall k | 0 <= k < |s.mortgages| ensures RecordPersists(s.mortgages[k], next.mortgages[k]) {
      assert next.mortgages[k] == MovedMortgages(s.mortgages, pending)[k];
    }
  }

  // ----- One operation -----

  lemma WrittenInStep(s: State, op: Operation)
    requires TableInOrder(s.board, s.registry) && InStep(s) && Takes(s, s, op)
    ensures EntryInStep(Step(s, op), EntryOf(s, Perform(s, op).value))
  {
    hide TableInOrder, InStep, Perform, BankGain, Commit, Settles, ChangesTiles, RecordsMortgage, PlainChange,
      MadeRecord, RedeemedRecord;
    PerformSettles(s, op);
    if op.MortgageBoard? { WrittenMortgage(s, op); }
    else if op.Redeem? && !LeavesFlags(s, op) { WrittenRedemption(s, op); }
    else if LeavesFlags(s, op) { WrittenPlain(s, op); }
  }
  lemma WrittenPlain(s: State, op: Operation)
    requires TableInOrder(s.board, s.registry) && Perform(s, op).Ok? && LeavesFlags(s, op)
    ensures forall c :: c in Perform(s, op).value.registryChanges ==> PlainChange(c)
  {
    hide TableInOrder, Perform, KeepsFlag, Flaggable;
    forall c | c in Perform(s, op).value.registryChanges ensures PlainChange(c) { FlagsKept(s, op, c); }
  }
  lemma WrittenMortgage(s: State, op: Operation)
    requires op.MortgageBoard? && Takes(s, s, op)
    ensures MadeRecord(Step(s, op), EntryOf(s, Perform(s, op).value))
  {
    hide Perform, BankGain, Settles, WalletsStand, Matches, ApplyChanges, Bankrupted, UpdatedPlayers,
      MovedMortgages, StateOf, CheckCanMortgage, MortgageChange;
    PerformSettles(s, op);
    Unflagged(s.board, s.registry, op.tile, op.player);
    var e := EntryOf(s, Perform(s, op).value);
    assert e.changes == [MortgageChange(e.tile.value, StateOf(s.registry, op.tile), true)];
  }
  lemma WrittenRedemption(s: State, op: Operation)
    requires InStep(s) && op.Redeem? && Takes(s, s, op) && !LeavesFlags(s, op)
    ensures RedeemedRecord(Step(s, op), EntryOf(s, Perform(s, op).value))
  {
    hide Perform, BankGain, Settles, WalletsStand, Matches, ApplyChanges, Bankrupted, UpdatedPlayers, StateOf,
      MortgageChange, Records, FindChange;
    PerformSettles(s, op);
    NothingAppended(s, op);
    var k, e := op.mortgageId, EntryOf(s, Perform(s, op).value);
    assert RecordInStep(s, s.mortgages[k]);
    assert Step(s, op).mortgages[k] == s.mortgages[k].(state := Redeemed);
    assert e.changes == [MortgageChange(e.tile.value, StateOf(s.registry, e.tile.value), false)];
  }
  // A redemption names a record no earlier redemption that still stands names.
  lemma RedeemsAnother(l: Ledger, op: Operation, i: nat)
    requires LogInStep(l) && Takes(l.bank, l.bank, op) && i < |l.log| && Redeems(l.log[i])
    ensures var e := EntryOf(l.bank, Perform(l.bank, op).value); Redeems(e) ==> e.mortgage != l.log[i].mortgage
  {
    hide Perform, BankGain, Settles, Commit, StateOf, MadeRecord, OfTile;
    PerformSettles(l.bank, op);
    assert EntryInStep(l.bank, l.log[i]);
  }
  lemma OperationKeeps(l: Ledger, op: Operation)
    requires Kept(l) && !Clashes(l, Do(op))
    ensures Kept(Next(l, Do(op))) && Next(l, Do(op)).bank.board == l.bank.board
  {
    hide TableInOrder, InStep, Perform, BankGain, Settles, Commit, EntryInStep, NamesClash, RecordsPersist,
      EntryOf, Redeems;
    if Takes(l.bank, l.bank, op) {
      var next, e := Next(l, Do(op)), EntryOf(l.bank, Perform(l.bank, op).value);
      StepKeepsTable(l.bank, op);
      StepKeepsRecords(l.bank, op);
      WrittenInStep(l.bank, op);
      StepPersists(l.bank, op);
      forall i | 0 <= i < |l.log|
        ensures EntryInStep(next.bank, next.log[i]) &&
                (Redeems(e) && Redeems(l.log[i]) ==> e.mortgage != l.log[i].mortgage)
      {
        EntryStaysInStep(l.bank, next.bank, l.log[i]);
        if Redeems(l.log[i]) { RedeemsAnother(l, op, i); }
      }
    }
  }
  lemma StepPersists(s: State, op: Operation)
    requires Takes(s, s, op)
    ensures RecordsPersist(s, Step(s, op))
  {
    hide Perform, BankGain, Commit, RecordsPersist;
    MovedPersist(s, Perform(s, op).value, BankGain(s, op));
  }
  // ----- One reversal -----

  lemma InvertedOne(change: PropertyChange)
    ensures InvertChanges([change]) == [PropertyChange(change.tileId, change.after, change.before)]
  {}
  // The bank after a reversal, before its record is fixed.
  ghost predicate MovesBack(s: State, next: State, pending: Pending, e: Entry) {
    && pending.registryChanges == InvertChanges(e.changes) && pending.bankrupt.None? && pending.redeemed.None? &&
        pending.newMortgage.None?
    && next.board == s.board && next.game == s.game &&
        next.registry == ApplyChanges(s.registry, pending.registryChanges)
    && Matches(s.registry, pending.registryChanges) && next.mortgages == MovedMortgages(s.mortgages, pending)
  }
  lemma UndoMovesBack(l: Ledger, i: nat) returns (moved: State)
    requires CanUndo(l, i)
    ensures UndoOf(l, i).Ok? && Reversible(l.log[i]) && l.log[i].reversedBy.None?
    ensures MovesBack(l.bank, moved, UndoOf(l, i).value.pending, l.log[i])
    ensures RecordFixOf(l.log[i]) == Ok(UndoOf(l, i).value.fix)
    ensures FixedRecords(moved.mortgages, UndoOf(l, i).value.fix).Some?
    ensures Next(l, Reverse(i)).bank == moved.(mortgages := FixedRecords(moved.mortgages, UndoOf(l, i).value.fix).value)
  {
    hide WalletsStand, Matches, ApplyChanges, Bankrupted, UpdatedPlayers, MovedMortgages, FindReversalDependency,
      MoveBack, InvertChanges, Reversible, FixedRecords, GroupTileIds, ValidateGame, NeedsChanges, RecordFixOf;
    var pending := UndoOf(l, i).value.pending;
    moved := Commit(l.bank, pending, SumOf(l.log[i].participants)).value;
    assert MovedMortgages(l.bank.mortgages, pending) + [] == MovedMortgages(l.bank.mortgages, pending);
  }
  lemma PlainComesBack(s: State, next: State, pending: Pending, e: Entry)
    requires TableInOrder(s.board, s.registry) && InStep(s) && MovesBack(s, next, pending, e)
    requires forall c :: c in e.changes ==> PlainChange(c)
    ensures InStep(next)
  {
    hide InStep, TableInOrder, MovedMortgages, ApplyChanges, Matches;
    forall c | c in pending.registryChanges ensures KeepsFlag(c) {
      var k :| 0 <= k < |pending.registryChanges| && pending.registryChanges[k] == c;
      assert PlainChange(e.changes[k]);
    }
    HandingOnKeepsStep(s, next, pending);
  }
  // Cancelling a mortgage releases its record as the flag goes off.
  lemma MortgageComesBack(s: State, moved: State, pending: Pending, e: Entry)
    requires TableInOrder(s.board, s.registry) && InStep(s) && MovesBack(s, moved, pending, e)
    requires MadeRecord(s, e) && FixedRecords(moved.mortgages, Cancel(e.mortgage.value)).Some?
    ensures InStep(moved.(mortgages := FixedRecords(moved.mortgages, Cancel(e.mortgage.value)).value))
  {
    hide StateOf, FindChange, ApplyChanges, MovedMortgage, Flaggable, DistinctTiles, DistinctRows;
    var id, k := e.tile.value, e.mortgage.value;
    var before :| e.changes == [MortgageChange(id, before, true)] && !before.mortgaged && before.owner.Some?;
    var change := PropertyChange(id, before.(mortgaged := true), before);
    InvertedOne(e.changes[0]);
    assert pending.registryChanges == [change];
    var next := moved.(mortgages := FixedRecords(moved.mortgages, Cancel(k)).value);
    assert change in pending.registryChanges;
    UnmovedByOne(s.mortgages, k, pending, change);
    forall i | 0 <= i < |s.mortgages|
      ensures next.mortgages[i] == if i == k then s.mortgages[i].(state := Released) else s.mortgages[i]
      ensures i != k && s.mortgages[i].state.InForce? ==> s.mortgages[i].tile != Some(id)
      ensures RecordInStep(next, next.mortgages[i])
    {
      UnmovedByOne(s.mortgages, i, pending, change);
      assert RecordInStep(s, s.mortgages[i]);
      if s.mortgages[i].tile.Some? { Order.AfterOne(s.registry, change, s.mortgages[i].tile.value); }
    }
    forall u | u in next.board.tiles && StateOf(next.registry, u.id).mortgaged ensures Records(next.mortgages, u.id) {
      Order.AfterOne(s.registry, change, u.id);
      var i := RecordOf(s, u.id);
      Recorded(next.mortgages, i, u.id);
    }
  }
  // Restoring a redeemed mortgage puts its record in force as the flag comes back on.
  lemma RedemptionComesBack(s: State, moved: State, pending: Pending, e: Entry)
    requires TableInOrder(s.board, s.registry) && InStep(s) && MovesBack(s, moved, pending, e)
    requires RedeemedRecord(s, e) && FixedRecords(moved.mortgages, Restore(e.mortgage.value)).Some?
    ensures InStep(moved.(mortgages := FixedRecords(moved.mortgages, Restore(e.mortgage.value)).value))
  {
    hide StateOf, FindChange, ApplyChanges, MovedMortgage, Flaggable, DistinctTiles, DistinctRows;
    var id, k := e.tile.value, e.mortgage.value;
    var before :| e.changes == [MortgageChange(id, before, false)] && before.mortgaged &&
        before.owner == Some(s.mortgages[k].player);
    var change := PropertyChange(id, before.(mortgaged := false), before);
    InvertedOne(e.changes[0]);
    assert pending.registryChanges == [change];
    var next := moved.(mortgages := FixedRecords(moved.mortgages, Restore(k)).value);
    assert change in pending.registryChanges;
    Order.AfterOne(s.registry, change, id);
    forall i | 0 <= i < |s.mortgages|
      ensures next.mortgages[i] == if i == k then s.mortgages[i].(state := InForce) else s.mortgages[i]
      ensures RecordInStep(next, next.mortgages[i])
      ensures i != k && s.mortgages[i].state.InForce? ==> s.mortgages[i].tile != Some(id)
    {
      UnmovedByOne(s.mortgages, i, pending, change);
      assert RecordInStep(s, s.mortgages[i]);
      if s.mortgages[i].tile.Some? { Order.AfterOne(s.registry, change, s.mortgages[i].tile.value); }
    }
    forall u | u in next.board.tiles && StateOf(next.registry, u.id).mortgaged ensures Records(next.mortgages, u.id) {
      Order.AfterOne(s.registry, change, u.id);
      if u.id == id { Recorded(next.mortgages, k, id); } else {
        var i := RecordOf(s, u.id);
        Recorded(next.mortgages, i, u.id);
      }
    }
  }
  lemma ReversalKeepsStep(l: Ledger, i: nat)
    requires Kept(l) && CanUndo(l, i)
    ensures InStep(Next(l, Reverse(i)).bank)
  {
    hide TableInOrder, InStep, Next, UndoneBank, MovesBack, MadeRecord, RedeemedRecord, PlainChange, FixedRecords,
      UndoOf;
    var moved := UndoMovesBack(l, i);
    var e, pending := l.log[i], UndoOf(l, i).value.pending;
    assert EntryInStep(l.bank, e);
    if e.kind == MORTGAGE { MortgageComesBack(l.bank, moved, pending, e); }
    else if e.kind == MORTGAGE_REDEMPTION { RedemptionComesBack(l.bank, moved, pending, e); }
    else {
      PlainComesBack(l.bank, moved, pending, e);
      NothingFixed(moved);
    }
  }
  lemma NothingFixed(s: State)
    ensures FixedRecords(s.mortgages, Untouched) == Some(s.mortgages) && s.(mortgages := s.mortgages) == s
  {}
  lemma ReversedFlaggable(s: State, e: Entry, c: PropertyChange)
    requires EntryInStep(s, e) && Reversible(e) && e.reversedBy.None? && c in e.changes
    ensures Flaggable(c.before)
  {
    hide OfTile, KeepsFlag;
  }
  lemma ReversalKeepsTable(l: Ledger, i: nat)
    requires Kept(l) && CanUndo(l, i)
    ensures TableInOrder(l.bank.board, Next(l, Reverse(i)).bank.registry) &&
            Next(l, Reverse(i)).bank.board == l.bank.board
  {
    hide TableInOrder, InStep, Next, UndoneBank, FixedRecords, UndoOf, ApplyChanges, Matches, MovedMortgages,
      Flaggable, EntryInStep;
    var moved := UndoMovesBack(l, i);
    var e, pending := l.log[i], UndoOf(l, i).value.pending;
    assert EntryInStep(l.bank, e);
    forall c | c in pending.registryChanges ensures Flaggable(c.after) {
      var k :| 0 <= k < |pending.registryChanges| && pending.registryChanges[k] == c;
      ReversedFlaggable(l.bank, e, e.changes[k]);
    }
    ChangesKeepTable(l.bank.board, l.bank.registry, pending.registryChanges);
  }
  // The records after a reversal, but for the one a redemption named.
  lemma ReversalPersists(l: Ledger, i: nat, k: nat)
    requires CanUndo(l, i) && k < |l.bank.mortgages| &&
             !(l.log[i].kind == MORTGAGE_REDEMPTION && l.log[i].tile.Some? && l.log[i].mortgage == Some(k))
    ensures var next := Next(l, Reverse(i)).bank;
            |next.mortgages| == |l.bank.mortgages| && RecordPersists(l.bank.mortgages[k], next.mortgages[k])
  {
    hide Next, UndoneBank, UndoOf, ApplyChanges, Matches, FindChange, InvertChanges;
    var moved := UndoMovesBack(l, i);
    assert RecordPersists(l.bank.mortgages[k], moved.mortgages[k]);
  }
  lemma OtherEntryStays(l: Ledger, i: nat, j: nat)
    requires Kept(l) && CanUndo(l, i) && j < |l.log| && j != i
    ensures EntryInStep(Next(l, Reverse(i)).bank, l.log[j])
  {
    hide TableInOrder, InStep, Next, UndoneBank, OfTile, PlainChange, Reversible;
    var e := l.log[j];
    var moved := UndoMovesBack(l, i);
    assert EntryInStep(l.bank, e);
    if Reversible(e) && e.reversedBy.None? && (e.kind == MORTGAGE || e.kind == MORTGAGE_REDEMPTION) {
      var k := e.mortgage.value;
      if e.kind == MORTGAGE_REDEMPTION { assert Redeems(e) && (Redeems(l.log[i]) ==> l.log[i].mortgage != Some(k)); }
      if l.log[i].kind == MORTGAGE_REDEMPTION && l.log[i].tile.Some? && l.log[i].mortgage == Some(k) {
        RestoredTile(l, i, k);
      }
      else { ReversalPersists(l, i, k); }
    }
  }
  lemma RestoredTile(l: Ledger, i: nat, k: nat)
    requires CanUndo(l, i) && k < |l.bank.mortgages|
    ensures var next := Next(l, Reverse(i)).bank;
            |next.mortgages| == |l.bank.mortgages| && next.mortgages[k].tile == l.bank.mortgages[k].tile
  {
    hide Next, UndoneBank, UndoOf, ApplyChanges, Matches, FindChange, InvertChanges;
    var moved := UndoMovesBack(l, i);
  }
  lemma ReversalKeeps(l: Ledger, i: nat)
    requires Kept(l) && CanUndo(l, i)
    ensures Kept(Next(l, Reverse(i))) && Next(l, Reverse(i)).bank.board == l.bank.board
  {
    hide TableInOrder, InStep, Next, UndoneBank, EntryInStep;
    ReversalKeepsStep(l, i);
    ReversalKeepsTable(l, i);
    var next := Next(l, Reverse(i));
    var entry := ReversedLog(l, i);
    forall j | 0 <= j < |next.log| ensures EntryInStep(next.bank, next.log[j]) {
      if j < |l.log| && j != i { OtherEntryStays(l, i, j); } else { Unreversible(next.bank, next.log[j]); }
    }
  }
  lemma Unreversible(s: State, e: Entry)
    requires e.reversedBy.Some? || e.kind == REVERSAL
    ensures EntryInStep(s, e)
  {
    hide MadeRecord, RedeemedRecord, PlainChange;
  }
  lemma ReversedLog(l: Ledger, i: nat) returns (entry: Entry)
    requires CanUndo(l, i)
    ensures entry.kind == REVERSAL && Next(l, Reverse(i)).log ==
            l.log[i := l.log[i].(reversedBy := Some(|l.log|))] + [entry]
  {
    hide ReverseTransaction, Commit, FixedRecords, GroupTileIds;
    entry := Next(l, Reverse(i)).log[|l.log|];
  }

  // ----- Every run -----

  ghost predicate ClashFree(l: Ledger, actions: seq<Action>)
    decreases |actions|
  {
    actions == [] || (!Clashes(l, actions[0]) && ClashFree(Next(l, actions[0]), actions[1..]))
  }
  ghost predicate InStepThroughout(l: Ledger, actions: seq<Action>)
    decreases |actions|
  {
    InStep(l.bank) && (actions == [] || InStepThroughout(Next(l, actions[0]), actions[1..]))
  }

  lemma NextKeepsExactly(l: Ledger, a: Action)
    requires Kept(l)
    ensures Next(l, a).bank.board == l.bank.board
    ensures Kept(Next(l, a)) <==> !Clashes(l, a)
    ensures InStep(Next(l, a).bank) <==> !Clashes(l, a)
  {
    hide TableInOrder, InStep, LogInStep, Takes, Perform, BankGain, Commit, UndoneBank, UndoOf, EntryOf, NamesClash;
    match a
    case Do(op) =>
      StepKeepsRecords(l.bank, op);
      StepKeepsTable(l.bank, op);
      if !Clashes(l, a) { OperationKeeps(l, op); }
    case Reverse(i) => if CanUndo(l, i) { ReversalKeeps(l, i); }
  }
  // Throughout a run of operations, bankruptcies and reversals a tile is flagged exactly when one
  // record in force says so, held by its owner under the tile's name and value: exactly if no
  // bankruptcy of the run meets a name the creditor already has.
  lemma {:induction false} RunKeepsRecordsExactly(l: Ledger, actions: seq<Action>)
    requires Kept(l)
    ensures InStepThroughout(l, actions) <==> ClashFree(l, actions)
    ensures ClashFree(l, actions) ==> Kept(After(l, actions))
    decreases |actions|
  {
    hide InStep, TableInOrder, LogInStep, Next, Clashes;
    if actions != [] {
      NextKeepsExactly(l, actions[0]);
      if Clashes(l, actions[0]) { assert !InStepThroughout(Next(l, actions[0]), actions[1..]); }
      else { RunKeepsRecordsExactly(Next(l, actions[0]), actions[1..]); }
    }
  }
  // From a new game on any board.
  lemma FlagsAreRecorded(s: State, actions: seq<Action>)
    requires DistinctTiles(s.board.tiles) && s.registry == Order.NewRegistry(s.board) && s.mortgages == []
    ensures InStepThroughout(Ledger(s, []), actions) <==> ClashFree(Ledger(s, []), actions)
    ensures ClashFree(Ledger(s, []), actions) ==> InStep(After(Ledger(s, []), actions).bank)
  {
    hide After, TableInOrder, InStep, InStepThroughout, ClashFree;
    NewGameInStep(s);
    RunKeepsRecordsExactly(Ledger(s, []), actions);
  }
  // Where the tiles bear different names, no run meets such a name.
  lemma {:induction false} DistinctNamesAreClashFree(l: Ledger, actions: seq<Action>)
    requires Kept(l) && DistinctNames(l.bank.board.tiles)
    ensures ClashFree(l, actions)
    decreases |actions|
  {
    hide Kept, DistinctNames, Next, Clashes;
    if actions != [] {
      NeverClashes(l, actions[0]);
      NextKeepsExactly(l, actions[0]);
      DistinctNamesAreClashFree(Next(l, actions[0]), actions[1..]);
    }
  }
  lemma NeverClashes(l: Ledger, a: Action)
    requires Kept(l) && DistinctNames(l.bank.board.tiles)
    ensures !Clashes(l, a)
  {
    hide InStep, TableInOrder, LogInStep, Perform, BankGain, Settles, Commit, DistinctNames, NamesClash, HandOvers,
      IsActive;
    if a.Do? && Takes(l.bank, l.bank, a.op) && a.op.GoBankrupt? {
      PerformSettles(l.bank, a.op);
      DistinctNamesNeverClash(l.bank, a.op.player, a.op.creditor);
    }
  }
}
