/** Where the program's own rules part: each time a run from a new game that leads there. */
module Counterexamples {
  import opened Results
  import opened Property
  import opened Banking
  import opened BankState
  import opened BankRuns
  import opened Reversal
  import opened ReversalRuns
  import opened SmallTable
  import opened OrderRuns
  import MortgageRecords
  import RecordRuns
  import Curves = BalanceSeries

  ghost function NewGame(): Ledger { Ledger(Bank(OPENING), []) }

  lemma {:induction false} OneMore(l: Ledger, actions: seq<Action>, k: nat)
    requires k < |actions|
    ensures After(l, actions[..k + 1]) == Next(After(l, actions[..k]), actions[k])
    decreases |actions|
  {
    hide Next;
    var next := Next(l, actions[0]);
    assert actions[..k + 1][1..] == actions[1..][..k];
    if k == 0 { assert After(next, []) == next; } else {
      OneMore(next, actions[1..], k - 1);
      assert actions[..k][1..] == actions[1..][..k - 1];
      assert actions[1..][..k - 1 + 1] == actions[1..][..k];
    }
  }

  // ----- The order of the registry -----

  // Player 1 buys both streets, builds on the first and sells the house again. Then the second
  // street goes to player 2 and comes back, and the sale is reversed.
  const RUN: seq<Action> :=
    [Do(Buy(1, 1, None)), Do(Buy(1, 2, None)), Do(WorksOf(Build)), Do(WorksOf(Sell)), Do(Exchange(Gift(1))),
     Do(Exchange(Gift(2))), Reverse(3)]
  const TABLES: seq<Table> :=
    [OPENING,
     Table([990, 1000], [Held(1), UNOWNED], [], 10), Table([980, 1000], [Held(1), Held(1)], [], 20),
     Table([880, 1000], [BUILT, Held(1)], [], 120), Table([930, 1000], [Held(1), Held(1)], [], 70),
     Table([930, 1000], [Held(1), Held(2)], [], 70), Table([930, 1000], [Held(1), Held(1)], [], 70)]
  const LOG: seq<Entry> :=
    [Written(TABLES[0], PROPERTY_PURCHASE, [(1, -10)], 10, 0, Held(1), None),
     Written(TABLES[1], PROPERTY_PURCHASE, [(1, -10)], 10, 1, Held(1), None),
     Written(TABLES[2], PROPERTY_BUILD, [(1, -100)], 100, 0, BUILT, None),
     Written(TABLES[3], PROPERTY_SELL_BUILDING, [(1, 50)], 50, 0, Held(1), None),
     Written(TABLES[4], PROPERTY_TRANSFER, [(1, 0), (2, 0)], 0, 1, Held(2), None),
     Written(TABLES[5], PROPERTY_TRANSFER, [(2, 0), (1, 0)], 0, 1, Held(1), None)]
  ghost function Stage(k: nat): Ledger
    requires k <= 6
  {
    TablesSound(k);
    Ledger(Bank(TABLES[k]), LOG[..k])
  }
  lemma TablesSound(k: nat)
    requires k <= 6
    ensures Small(TABLES[k])
  {}
  lemma BothBought(k: nat)
    requires k < 2
    ensures Next(Stage(k), RUN[k]) == Stage(k + 1)
  {
    hide Next, Written;
    Bought(TABLES[k], LOG[..k], 0, k);
    assert Stepped(TABLES[k], 0, -10, k, Held(1), []) == TABLES[k + 1];
    assert LOG[..k] + [LOG[k]] == LOG[..k + 1];
  }
  lemma StreetWorked(k: nat)
    requires 2 <= k < 4
    ensures Next(Stage(k), RUN[k]) == Stage(k + 1)
  {
    hide Next, Written;
    var direction := if k == 2 then Build else Sell;
    Worked(TABLES[k], LOG[..k], direction);
    assert Stepped(TABLES[k], 0, WorkPay(direction), 0, Level(direction), []) == TABLES[k + 1];
    assert LOG[..k] + [LOG[k]] == LOG[..k + 1];
  }
  lemma StreetGiven(k: nat)
    requires 4 <= k < 6
    ensures Next(Stage(k), RUN[k]) == Stage(k + 1)
  {
    hide Next, Written;
    Gave(TABLES[k], LOG[..k], k - 4);
    var given := TABLES[k].(tiles := TABLES[k].tiles[1 := Held(6 - k)]);
    assert given == TABLES[k + 1];
    assert LOG[..k] + [LOG[k]] == LOG[..k + 1];
  }
  lemma {:induction false} Reached(k: nat)
    requires k <= 6
    ensures After(NewGame(), RUN[..k]) == Stage(k) && Ordered(Stage(k))
  {
    hide Next, Written, Ordered, Stage;
    if k == 0 { NewGameReached(); } else {
      Reached(k - 1);
      OneMore(NewGame(), RUN, k - 1);
      if k <= 2 { BothBought(k - 1); } else if k <= 4 { StreetWorked(k - 1); } else { StreetGiven(k - 1); }
      StaysOrdered(Stage(k - 1), RUN[k - 1]);
    }
  }
  lemma NewGameReached()
    ensures After(NewGame(), RUN[..0]) == Stage(0) && Ordered(Stage(0))
  {
    hide Ordered;
    OpeningIsNew();
    NewGameOrdered(Bank(OPENING));
  }
  lemma StaysOrdered(l: Ledger, a: Action)
    requires Ordered(l) && a.Do?
    ensures Ordered(Next(l, a))
  {
    hide Ordered, Next;
    OperationIsGuarded(l, a);
    NextOrderedExactly(l, a);
  }
  // An accepted reversal takes the registry out of its order.
  ghost predicate BreaksOrder(l: Ledger, i: nat) { InOrder(l) && CanUndo(l, i) && !InOrder(Next(l, Reverse(i))) }

  lemma SaleStands(k: nat)
    requires 5 <= k <= 6
    ensures SaleOnTop(TABLES[k], LOG[..k], 3) && TABLES[k].cash[0] == 930
  {}
  // Reversing a sale while a mate is somebody else's: nothing blocks it, since a gift of the mate is
  // no operation on the group, and the house comes back in a group of two owners.
  lemma SaleReversalBreaksOrder()
    ensures BreaksOrder(After(NewGame(), RUN[..5]), 3)
  {
    hide Next, Written, Ordered, InOrder, Permits, CanUndo;
    var l := Stage(5);
    Reached(5);
    OrderedIs(l);
    SaleStands(5);
    SaleUndone(TABLES[5], LOG[..5], 3);
    OrderedReversalExactly(l, 3);
    MateIsTheirs();
  }
  lemma MateIsTheirs()
    ensures !Permits(BOARD, RegistryOf(TABLES[5]), LOG[3].changes)
  {
    hide StateOf;
    KnownTiles(TABLES[5]);
    var c, t, u := LOG[3].changes[0], BOARD.tiles[0], BOARD.tiles[1];
    assert c in LOG[3].changes && t in BOARD.tiles && u in BOARD.tiles;
    assert StateOf(RegistryOf(TABLES[5]), 1 + 1) == Held(2);
    assert !MateAllows(RegistryOf(TABLES[5]), c, u);
  }
  lemma MateIsTheirsAgain()
    ensures Permits(BOARD, RegistryOf(TABLES[6]), LOG[3].changes)
  {
    hide StateOf;
    KnownTiles(TABLES[6]);
    assert StateOf(RegistryOf(TABLES[6]), 0 + 1) == Held(1) && StateOf(RegistryOf(TABLES[6]), 1 + 1) == Held(1);
    assert BOARD.tiles[0].id == 1 && BOARD.tiles[1].id == 2;
  }
  // The whole group is held again when the sale is reversed: the order stays. Then the gift that
  // brought the second street back is reversed, and takes it from beside the house.
  lemma SaleReversalMayKeepOrder()
    ensures After(NewGame(), RUN) == Next(Stage(6), Reverse(3)) && Ordered(After(NewGame(), RUN))
    ensures SaleReversed(TABLES[6], LOG, 3, After(NewGame(), RUN))
  {
    hide Next, Written, Ordered, InOrder, Permits, CanUndo;
    Reached(6);
    OneMore(NewGame(), RUN, 6);
    assert RUN[..6 + 1] == RUN && LOG[..6] == LOG;
    SaleStands(6);
    SaleUndone(TABLES[6], LOG, 3);
    MateIsTheirsAgain();
    NextOrderedExactly(Stage(6), Reverse(3));
  }
  lemma LastGift(log: seq<Entry>)
    requires |log| == 7 && log[..6] == LOG[3 := LOG[3].(reversedBy := Some(6))] && log[6].kind == REVERSAL
    ensures log[5] == LOG[5] && LOG[5].reversedBy.None? && LOG[5].tile.None? && LOG[5].kind == PROPERTY_TRANSFER
    ensures LOG[5].participants == [(2, 0), (1, 0)] && LOG[5].changes == [PropertyChange(2, Held(2), Held(1))]
  {
    assert log[5] == log[..6][5];
  }
  lemma GiftCanBeUndone()
    ensures var l := After(NewGame(), RUN);
            CanUndo(l, 5) && |l.log| == 7 && l.log[5] == LOG[5] && l.bank == Stage(3).bank
  {
    hide Next, Written, Ordered, CanUndo;
    var l := After(NewGame(), RUN);
    SaleReversalMayKeepOrder();
    assert Stepped(TABLES[6], 0, -50, 0, BUILT, []) == TABLES[3];
    LastGift(l.log);
    GiftUndoable(TABLES[3], l.log, 5, Held(2));
    assert l == Ledger(Bank(TABLES[3]), l.log);
  }
  lemma TradeReversalBreaksOrder()
    ensures BreaksOrder(After(NewGame(), RUN), 5)
  {
    hide Next, Written, Ordered, InOrder, Permits, CanUndo, Bank, After;
    var l := After(NewGame(), RUN);
    SaleReversalMayKeepOrder();
    GiftCanBeUndone();
    OrderedIs(l);
    OrderedReversalExactly(l, 5);
    HouseBeside(TABLES[3]);
    BankTable(TABLES[3]);
  }
  lemma BankTable(t: Table)
    requires Small(t)
    ensures Bank(t).board == BOARD && Bank(t).registry == RegistryOf(t)
  {}
  lemma HouseBeside(t: Table)
    requires t == TABLES[3]
    ensures !Permits(BOARD, RegistryOf(t), LOG[5].changes)
  {
    hide StateOf;
    KnownTiles(t);
    var c, u := LOG[5].changes[0], BOARD.tiles[0];
    assert c in LOG[5].changes && u in BOARD.tiles && BOARD.tiles[1] in BOARD.tiles;
    assert StateOf(RegistryOf(t), 0 + 1) == BUILT;
    assert !MateAllows(RegistryOf(t), c, u);
  }

  // ----- The records of the mortgages -----

  // Each player buys a street and mortgages it, under the one name both bear; player 1 spends the
  // rest of their money.
  const PAWNED: seq<Action> :=
    [Do(Buy(1, 1, None)), Do(Buy(2, 2, None)), Do(MortgageBoard(1, 1)), Do(MortgageBoard(2, 2)), Do(PayBank(1, 995))]
  function Flagged(owner: PlayerId): PropertyState { PropertyState(Some(owner), true, 0) }
  function Pledge(owner: PlayerId): Mortgage { Mortgage(0, owner, 7, 5, Some(owner), InForce) }
  const PAWN_TABLES: seq<Table> :=
    [OPENING,
     Table([990, 1000], [Held(1), UNOWNED], [], 10), Table([990, 990], [Held(1), Held(2)], [], 20),
     Table([995, 990], [Flagged(1), Held(2)], [Pledge(1)], 15),
     Table([995, 995], [Flagged(1), Flagged(2)], [Pledge(1), Pledge(2)], 10),
     Table([0, 995], [Flagged(1), Flagged(2)], [Pledge(1), Pledge(2)], 1005)]
  const PAWN_LOG: seq<Entry> :=
    [Written(PAWN_TABLES[0], PROPERTY_PURCHASE, [(1, -10)], 10, 0, Held(1), None),
     Written(PAWN_TABLES[1], PROPERTY_PURCHASE, [(2, -10)], 10, 1, Held(2), None),
     Written(PAWN_TABLES[2], MORTGAGE, [(1, 5)], 5, 0, Flagged(1), Some(0)),
     Written(PAWN_TABLES[3], MORTGAGE, [(2, 5)], 5, 1, Flagged(2), Some(1)),
     Entry(PLAYER_TO_BANK, None, [(1, -995)], 995, 995, [], None, None, None, RegistryOf(PAWN_TABLES[4]))]
  ghost function PawnStage(k: nat): Ledger
    requires k <= 5
  {
    PawnTablesSmall(k);
    Ledger(Bank(PAWN_TABLES[k]), PAWN_LOG[..k])
  }
  lemma PawnTablesSmall(k: nat)
    requires k <= 5
    ensures Small(PAWN_TABLES[k])
  {}
  lemma EachBought(k: nat)
    requires k < 2
    ensures Next(PawnStage(k), PAWNED[k]) == PawnStage(k + 1)
  {
    hide Next, Written;
    Bought(PAWN_TABLES[k], PAWN_LOG[..k], k, k);
    assert Stepped(PAWN_TABLES[k], k, -10, k, Held(k + 1), []) == PAWN_TABLES[k + 1];
    assert PAWN_LOG[..k] + [PAWN_LOG[k]] == PAWN_LOG[..k + 1];
  }
  lemma EachMortgaged(k: nat)
    requires k < 2
    ensures Next(PawnStage(k + 2), PAWNED[k + 2]) == PawnStage(k + 3)
  {
    hide Next, Written;
    Mortgaged(PAWN_TABLES[k + 2], PAWN_LOG[..k + 2], k);
    assert Stepped(PAWN_TABLES[k + 2], k, 5, k, Flagged(k + 1), [Pledge(k + 1)]) == PAWN_TABLES[k + 3];
    assert PAWN_LOG[..k + 2] + [PAWN_LOG[k + 2]] == PAWN_LOG[..k + 3];
  }
  lemma AllSpent()
    ensures Next(PawnStage(4), PAWNED[4]) == PawnStage(5)
  {
    hide Next, Written;
    PaidIn(PAWN_TABLES[4], PAWN_LOG[..4], 0, 995);
    assert Spent(PAWN_TABLES[4], 0, 995) == PAWN_TABLES[5];
    assert PAWN_LOG[..4] + [PAWN_LOG[4]] == PAWN_LOG[..5];
  }
  lemma {:induction false} PawnReached(k: nat)
    requires k <= 5
    ensures After(NewGame(), PAWNED[..k]) == PawnStage(k) && RecordRuns.Kept(PawnStage(k))
  {
    hide Next, Written, RecordRuns.Kept, PawnStage;
    if k == 0 { NewGamePawned(); } else {
      PawnReached(k - 1);
      OneMore(NewGame(), PAWNED, k - 1);
      if k <= 2 { EachBought(k - 1); } else if k <= 4 { EachMortgaged(k - 3); } else { AllSpent(); }
      StaysKept(PawnStage(k - 1), PAWNED[k - 1]);
    }
  }
  lemma NewGamePawned()
    ensures After(NewGame(), PAWNED[..0]) == PawnStage(0) && RecordRuns.Kept(PawnStage(0))
  {
    hide MortgageRecords.InStep, MortgageRecords.TableInOrder;
    OpeningIsNew();
    MortgageRecords.NewGameInStep(Bank(OPENING));
  }
  lemma StaysKept(l: Ledger, a: Action)
    requires RecordRuns.Kept(l) && a.Do? && !a.op.GoBankrupt?
    ensures RecordRuns.Kept(Next(l, a))
  {
    hide RecordRuns.Kept, Next, Takes, MortgageRecords.NamesClash;
    RecordRuns.NextKeepsExactly(l, a);
  }

  // Player 1, with nothing left, is declared bankrupt in favour of player 2.
  const FALL: Operation := GoBankrupt(1, Some(2), None)
  const PASSED: PropertyChange := PropertyChange(1, Flagged(1), Flagged(2))
  ghost predicate Pawned(t: Table) { t == PAWN_TABLES[5] }

  lemma StreetPassed(t: Table)
    requires Pawned(t)
    ensures BankruptcyPreview(BOARD, RegistryOf(t), 1, true) == Preview(1, 0, 0, 1)
    ensures HandOvers(RegistryOf(t), 1, Some(2)) == [PASSED]
    ensures RowsOnBoard(BOARD, RegistryOf(t), 1)
  {
    hide PreviewRow, FindTile;
    KnownTiles(t);
    var registry := RegistryOf(t);
    var rest: Registry := registry[1..];
    assert rest == [registry[1]];
    NothingOwned(BOARD, rest, 1, Some(2));
    FirstPreviewed(t);
    assert [PASSED] + [] == [PASSED];
    assert FindTile(BOARD.tiles, 0 + 1) == Some(BOARD.tiles[0]);
    assert forall r :: r in registry && r.state.owner == Some(1) ==> r == registry[0];
  }
  lemma FirstPreviewed(t: Table)
    requires Pawned(t)
    ensures PreviewRow(BOARD, RegistryOf(t)[0], 1, true) == Preview(1, 0, 0, 1)
  {
    hide SellRefund, FindTile;
    FindTileAt(BOARD.tiles, 0);
    assert 0 * SellRefund(BOARD, 1) == 0;
  }
  lemma FeePaid(t: Table)
    requires Pawned(t)
    ensures PlayersOf(t)[0] in PlayersOf(t) && PlayersOf(t)[1] in PlayersOf(t)
    ensures BankruptcyChanges(PlayersOf(t), PlayersOf(t)[0], Some(PlayersOf(t)[1]), -1) ==
            Ok([BalanceChange(2, 995, -1)])
  {
    hide ReadFrom;
    var own: seq<BalanceChange> := [];
    assert WalletChange(Some(PlayersOf(t)[0]), 0) == Ok(own);
    assert own + [BalanceChange(2, 995, -1)] == [BalanceChange(2, 995, -1)];
  }
  lemma Declared(t: Table)
    requires Pawned(t)
    ensures DeclareBankruptcy(GAME, PlayersOf(t), BOARD, RegistryOf(t), 1, Some(2), None) ==
            Ok(Simple(BANKRUPTCY_TRANSFER, 1, 1, [BalanceChange(2, 995, -1)])
               .(registryChanges := [PASSED], bankrupt := Some(1), heir := Some(2)))
  {
    hide ValidateGame, FindPlayer, BankruptcyPreview, HandOvers, RowsOnBoard, BankruptcyChanges, RegistryOf;
    KnownPlayers(t);
    StreetPassed(t);
    FeePaid(t);
    assert FindPlayer(PlayersOf(t), 0 + 1) == Ok(PlayersOf(t)[0]);
    assert FindPlayer(PlayersOf(t), 1 + 1) == Ok(PlayersOf(t)[1]);
  }
  lemma Fallen(t: Table)
    requires Pawned(t)
    ensures Perform(Bank(t), FALL) ==
            Ok(Simple(BANKRUPTCY_TRANSFER, 1, 1, [BalanceChange(2, 995, -1)])
               .(registryChanges := [PASSED], bankrupt := Some(1), heir := Some(2)))
  {
    hide DeclareBankruptcy, RegistryOf, PlayersOf;
    Declared(t);
  }
  lemma FallCommits(t: Table)
    requires Pawned(t)
    ensures Takes(Bank(t), Bank(t), FALL)
  {
    hide Perform, BankGain, StateOf, HasRow, ApplyChanges, MovedMortgages, UpdatedPlayers, Bankrupted, RegistryOf;
    Fallen(t);
    KnownTiles(t);
    assert t.tiles[0] == Flagged(1);
    var pending := Perform(Bank(t), FALL).value;
    assert OneMoves(t, pending.changes, 1, -1);
    WalletMoves(t, pending.changes, 1, -1);
    assert StateOf(RegistryOf(t), 0 + 1) == Flagged(1) && HasRow(RegistryOf(t), 0 + 1);
  }
  lemma NamesMeet(t: Table)
    requires Pawned(t)
    ensures MortgageRecords.NamesClash(t.records, 1, Some(2))
  {
    assert t.records[1].state.InForce? && t.records[1].player == 2 && t.records[1].name == 7;
    assert MortgageRecords.ClashesAt(t.records, 1, 2, 0);
  }
  // The creditor's own mortgage of the same name keeps the heir from the record: the tile they take
  // over stays flagged with no record to redeem.
  lemma NamesakeLosesItsRecord()
    ensures var l := After(NewGame(), PAWNED);
            MortgageRecords.InStep(l.bank) && Takes(l.bank, l.bank, FALL) &&
            !MortgageRecords.InStep(Next(l, Do(FALL)).bank)
  {
    hide Next, Written, MortgageRecords.InStep, MortgageRecords.TableInOrder, MortgageRecords.NamesClash,
      RecordRuns.LogInStep, Takes;
    PawnReached(5);
    assert PAWNED[..5] == PAWNED;
    FallCommits(PAWN_TABLES[5]);
    NamesMeet(PAWN_TABLES[5]);
    RecordRuns.NextKeepsExactly(PawnStage(5), Do(FALL));
  }
  // The same run: the creditor pays the fee of the flagged tile and player 1 has nothing, so the
  // curve that ends is the creditor's alone.
  lemma CreditorsCurveEnds()
    ensures var groups := Curves.EntryGroups(Next(After(NewGame(), PAWNED), Do(FALL)).log);
            Curves.EndsAt(groups, 2).Some? && Curves.EndsAt(groups, 1).None?
  {
    hide Written, Curves.EntryGroups, Curves.EndsAt, Next, PawnStage, After;
    PawnReached(5);
    assert PAWNED[..5] == PAWNED;
    var log := Next(PawnStage(5), Do(FALL)).log;
    var last := FallWritten();
    assert last.participants[0] in last.participants;
    assert last in log by { assert log[5] == last; }
    forall e | e in log && e != last
      ensures e.kind != BANKRUPTCY_TRANSFER
    {
      assert e in PAWN_LOG;
      PawnKinds();
    }
    Curves.CurveEnds(log, 1);
    Curves.CurveEnds(log, 2);
  }
  lemma FallWritten() returns (last: Entry)
    ensures Next(PawnStage(5), Do(FALL)).log == PAWN_LOG + [last]
    ensures last.kind == BANKRUPTCY_TRANSFER && last.reversedBy.None? && last.participants == [(2, -1)]
  {
    hide Written, Perform, Takes, Step;
    var t := PAWN_TABLES[5];
    FallCommits(t);
    Fallen(t);
    last := EntryOf(Bank(t), Perform(Bank(t), FALL).value);
    assert PAWN_LOG[..5] == PAWN_LOG;
  }
  lemma PawnKinds()
    ensures forall e :: e in PAWN_LOG ==> e.kind != BANKRUPTCY_TRANSFER
  {}

  // ----- Money that arrives meanwhile -----

  // Player 1 spends everything; a bankruptcy is worked out; player 2 pays them fifty before it commits.
  const SPENT: seq<Action> := [Do(PayBank(1, 1000)), Do(Pay(2, 1, 50))]
  const EMPTY: Table := Table([0, 1000], [UNOWNED, UNOWNED], [], 1000)
  const REFILLED: Table := Table([50, 950], [UNOWNED, UNOWNED], [], 1000)

  lemma NothingLeft()
    ensures After(NewGame(), SPENT[..1]).bank == Bank(EMPTY)
  {
    hide Next;
    OneMore(NewGame(), SPENT, 0);
    PaidIn(OPENING, [], 0, 1000);
    assert Spent(OPENING, 0, 1000) == EMPTY;
    assert After(NewGame(), SPENT[..0]) == NewGame();
  }
  lemma FiftyArrived()
    ensures After(NewGame(), SPENT).bank == Bank(REFILLED)
  {
    hide Next;
    OneMore(NewGame(), SPENT, 1);
    assert SPENT[..1 + 1] == SPENT;
    NothingLeft();
    var l := After(NewGame(), SPENT[..1]);
    PaidOver(EMPTY, l.log, 50);
  }
  lemma WorkedOutOnEmpty()
    ensures Perform(Bank(EMPTY), GoBankrupt(1, None, None)) ==
            Ok(Simple(BANKRUPTCY_TRANSFER, 1, 1, []).(bankrupt := Some(1)))
  {
    hide FindPlayer, BankruptcyPreview, HandOvers, ValidateGame, BankruptcyChanges;
    KnownPlayers(EMPTY);
    assert FindPlayer(PlayersOf(EMPTY), 0 + 1) == Ok(PlayersOf(EMPTY)[0]);
    NothingOwned(BOARD, RegistryOf(EMPTY), 1, None);
    NothingChanges(PlayersOf(EMPTY), PlayersOf(EMPTY)[0]);
  }
  lemma NothingChanges(players: seq<Player>, player: Player)
    requires player in players && player.balance == 0
    ensures BankruptcyChanges(players, player, None, 0) == Ok([])
  {}
  // The batch commits over the newer state, and the fifty are gone.
  lemma MoneyThatArrivedSinceIsLost()
    ensures var read, now, op := After(NewGame(), SPENT[..1]).bank, After(NewGame(), SPENT).bank,
                                 GoBankrupt(1, None, None);
            Takes(read, now, op) && ClearsUnreadMoney(read, now, op) && Total(StepFrom(read, now, op)) < Total(now)
  {
    hide Perform, BankGain, Total, FindPlayer, Settles, After;
    var op := GoBankrupt(1, None, None);
    NothingLeft();
    FiftyArrived();
    WorkedOutOnEmpty();
    KnownPlayers(EMPTY);
    KnownPlayers(REFILLED);
    assert FindPlayer(PlayersOf(EMPTY), 0 + 1) == Ok(PlayersOf(EMPTY)[0]);
    assert FindPlayer(PlayersOf(REFILLED), 0 + 1) == Ok(PlayersOf(REFILLED)[0]);
    MoneyIsConserved(Bank(EMPTY), Bank(REFILLED), op);
  }
}
