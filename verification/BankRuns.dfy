/** Runs of the bank: every operation performed on what was read and committed under its guards. */
module BankRuns {
  import opened Results
  import opened Property
  import opened Banking
  import opened BankState

  type TableLoan = l: Loan | SoundLoan(l) witness Loan(0, 0, None, 0, 0, 0, false)

  datatype Operation =
    | Pay(source: PlayerId, destination: PlayerId, amount: int)
    | PayAll(player: PlayerId, each: int)
    | CollectFromAll(player: PlayerId, each: int)
    | PayBank(player: PlayerId, amount: int)
    | TakeFromBank(player: PlayerId, amount: int)
    | Go(player: PlayerId, exact: bool)
    | FeedPot(player: PlayerId, amount: int)
    | CollectPot(player: PlayerId, expected: int)
    | Lend(lender: PlayerId, borrower: PlayerId, amount: int)
    | Repay(player: PlayerId, loan: TableLoan, amount: int)
    | Borrow(player: PlayerId, amount: int, hasBankLoan: bool, cooling: bool, acknowledged: bool)
    | RepayBank(player: PlayerId, loan: TableLoan, amount: int, rate: nat)
    | Buy(player: PlayerId, tile: TileId, override: Option<int>)
    | WinAuction(player: PlayerId, amount: int, lot: Option<TileId>)
    | MortgageNamed(player: PlayerId, name: Option<nat>, amount: int)
    | MortgageBoard(player: PlayerId, tile: TileId)
    | Redeem(player: PlayerId, mortgageId: nat)
    | Rent(payer: PlayerId, tile: TileId, diceSum: Option<int>)
    | BuildOn(player: PlayerId, works: Works)
    | SellFrom(player: PlayerId, works: Works)
    | Exchange(trade: Trade)
    | GoBankrupt(player: PlayerId, creditor: Option<PlayerId>, bankLoan: Option<(TableLoan, nat)>)

  function LoanOf(bankLoan: Option<(TableLoan, nat)>): Option<(Loan, nat)> {
    if bankLoan.None? then None else Some((bankLoan.value.0, bankLoan.value.1))
  }

  function Perform(s: State, op: Operation): Outcomes<Pending> {
    match op
    case Pay(a, b, amount) => PlayerToPlayer(s.game, s.players, a, b, amount)
    case PayAll(p, each) => PlayerToAll(s.game, s.players, p, each)
    case CollectFromAll(p, each) => AllToPlayer(s.game, s.players, p, each)
    case PayBank(p, amount) => PlayerToBank(s.game, s.players, p, amount)
    case TakeFromBank(p, amount) => BankToPlayer(s.game, s.players, p, amount)
    case Go(p, exact) => PassGo(s.game, s.players, p, exact)
    case FeedPot(p, amount) => ToJackpot(s.game, s.players, p, amount)
    case CollectPot(p, expected) => JackpotPayout(s.game, s.players, p, s.jackpot, expected)
    case Lend(a, b, amount) => IssueLoan(s.game, s.players, a, b, amount)
    case Repay(p, loan, amount) => RepayLoan(s.game, s.players, p, loan, amount)
    case Borrow(p, amount, has, cooling, ack) => IssueBankLoan(s.game, s.players, p, amount, has, cooling, ack)
    case RepayBank(p, loan, amount, rate) => RepayBankLoan(s.game, s.players, p, loan, amount, rate)
    case Buy(p, tile, override) => PropertyPurchase(s.game, s.players, s.board, s.registry, p, tile, override)
    case WinAuction(p, amount, lot) => AuctionPayment(s.game, s.players, s.board, s.registry, p, amount, lot)
    case MortgageNamed(p, name, amount) =>
      // A game with a board names a tile instead.
      if s.board.tiles != [] then Err(TileRequired) else MortgageProperty(s.game, s.players, p, name, amount)
    case MortgageBoard(p, tile) => MortgageTile(s.game, s.players, s.board, s.registry, p, tile)
    case Redeem(p, m) =>
      if m >= |s.mortgages| || !s.mortgages[m].state.InForce? then Err(MortgageNotFound)
      else RedeemMortgage(s.game, s.players, s.registry, p, m, s.mortgages[m])
    case Rent(p, tile, dice) => PayRent(s.game, s.players, s.board, s.registry, p, tile, dice)
    case BuildOn(p, works) => BuildProperty(s.game, s.players, s.board, s.registry, p, works)
    case SellFrom(p, works) => SellBuilding(s.game, s.players, s.board, s.registry, p, works)
    case Exchange(trade) => TransferProperties(s.game, s.players, s.board, s.registry, trade)
    case GoBankrupt(p, creditor, loan) => DeclareBankruptcy(s.game, s.players, s.board, s.registry, p, creditor,
        LoanOf(loan))
  }

  // The price of the buildings a command adds or removes.
  function WorksPrice(s: State, player: PlayerId, works: Works, direction: Direction): int {
    var targets := BuildingTargets(s.registry, works, direction);
    if targets.Err? then 0
    else
      var plan := PlanBuildings(s.board, s.registry, player, targets.value, direction);
      if plan.Err? then 0 else PlanPrice(s.board, plan.value.changes, direction)
  }

  // What the bank gains, by each operation's own formula.
  function BankGain(s: State, op: Operation): int {
    match op
    case PayBank(_, amount) => amount
    case TakeFromBank(_, amount) => -amount
    case Go(_, exact) => -GoReward(s.game, exact)
    case Borrow(_, amount, _, _, _) => -amount
    case RepayBank(_, loan, amount, rate) =>
      var interest := BankLoanInterest(amount, rate);
      amount + if interest.Ok? then interest.value else 0
    case Buy(_, tile, override) =>
      var found := FindTile(s.board.tiles, tile);
      if override.Some? then override.value else if found.Some? then found.value.price else 0
    case WinAuction(_, amount, _) => amount
    case MortgageNamed(_, _, amount) => -amount
    case MortgageBoard(_, tile) =>
      var found := FindTile(s.board.tiles, tile);
      if found.Some? then -found.value.mortgage else 0
    case Redeem(_, m) => if m < |s.mortgages| then RedemptionCost(s.mortgages[m].value) else 0
    case BuildOn(p, works) => WorksPrice(s, p, works, Build)
    case SellFrom(p, works) => -WorksPrice(s, p, works, Sell)
    case Exchange(trade) =>
      var moves := TradeMoves(s.board, s.registry, trade);
      if moves.Ok? then moves.value.proposerFee + moves.value.counterpartyFee else 0
    case GoBankrupt(p, creditor, loan) =>
      var player := FindActive(s.players, p);
      if player.Err? then 0
      else
        var preview := BankruptcyPreview(s.board, s.registry, p, creditor.Some?);
        var wallet := player.value.balance + preview.proceeds;
        var settlement := OptionalSettlement(s.game, p, LoanOf(loan), wallet);
        if settlement.Err? then 0 else BankruptcyGain(wallet, preview, BankTake(settlement.value), creditor.Some?)
    case _ => 0
  }

  // ----- What an operation writes beside the wallets -----

  function KindOf(op: Operation): Kind {
    match op
    case Pay(_, _, _) => PLAYER_TO_PLAYER
    case PayAll(_, _) => PLAYER_TO_ALL
    case CollectFromAll(_, _) => ALL_TO_PLAYER
    case PayBank(_, _) => PLAYER_TO_BANK
    case TakeFromBank(_, _) => BANK_TO_PLAYER
    case Go(_, _) => PASS_GO
    case FeedPot(_, _) => TO_JACKPOT
    case CollectPot(_, _) => JACKPOT_PAYOUT
    case Lend(_, _, _) => LOAN_ISSUE
    case Repay(_, _, _) => LOAN_REPAYMENT
    case Borrow(_, _, _, _, _) => LOAN_ISSUE
    case RepayBank(_, _, _, _) => LOAN_REPAYMENT
    case Buy(_, _, _) => PROPERTY_PURCHASE
    case WinAuction(_, _, lot) => if lot.None? then AUCTION_PAYMENT else PROPERTY_PURCHASE
    case MortgageNamed(_, _, _) => MORTGAGE
    case MortgageBoard(_, _) => MORTGAGE
    case Redeem(_, _) => MORTGAGE_REDEMPTION
    case Rent(_, _, _) => PAY_RENT
    case BuildOn(_, _) => PROPERTY_BUILD
    case SellFrom(_, _) => PROPERTY_SELL_BUILDING
    case Exchange(_) => PROPERTY_TRANSFER
    case GoBankrupt(_, _, _) => BANKRUPTCY_TRANSFER
  }
  // An unowned tile of the board passes to a player in the game.
  ghost predicate Acquires(s: State, player: PlayerId, tile: TileId, changes: seq<PropertyChange>) {
    FindTile(s.board.tiles, tile).Some? && StateOf(s.registry, tile).owner.None? && IsActive(s.players, player) &&
    changes == [OwnerChange(tile, StateOf(s.registry, tile), Some(player))]
  }
  ghost predicate Plans(s: State, player: PlayerId, works: Works, direction: Direction, changes: seq<PropertyChange>) {
    BuildingTargets(s.registry, works, direction).Ok? && IsActive(s.players, player) &&
    var plan := PlanBuildings(s.board, s.registry, player, BuildingTargets(s.registry, works, direction).value,
        direction);
    plan.Ok? && changes == plan.value.changes
  }
  ghost predicate ChangesTiles(s: State, op: Operation, changes: seq<PropertyChange>) {
    match op
    case Buy(p, tile, _) => Acquires(s, p, tile, changes)
    case WinAuction(p, _, lot) => if lot.None? then changes == [] else Acquires(s, p, lot.value, changes)
    case MortgageBoard(p, tile) =>
      FindTile(s.board.tiles, tile).Some? && CheckCanMortgage(s.board, s.registry, tile, p).Ok? &&
      changes == [MortgageChange(tile, StateOf(s.registry, tile), true)]
    case Redeem(p, m) =>
      m < |s.mortgages| && s.mortgages[m].state.InForce? && s.mortgages[m].player == p &&
          s.mortgages[m].gameId == s.game.id &&
      (match s.mortgages[m].tile
       case None => changes == []
       case Some(id) =>
         StateOf(s.registry, id).owner == Some(p) && StateOf(s.registry, id).mortgaged &&
         changes == [MortgageChange(id, StateOf(s.registry, id), false)])
    case BuildOn(p, works) => Plans(s, p, works, Build, changes)
    case SellFrom(p, works) => Plans(s, p, works, Sell, changes)
    case Exchange(trade) =>
      TradeMoves(s.board, s.registry, trade).Ok? && !Repeats(trade.give + trade.take) &&
      IsActive(s.players, trade.proposer) && IsActive(s.players, trade.counterparty) &&
      changes == TradeMoves(s.board, s.registry, trade).value.changes
    case GoBankrupt(p, creditor, _) =>
      creditor != Some(p) && (creditor.Some? ==> IsActive(s.players, creditor.value)) &&
          changes == HandOvers(s.registry, p, creditor)
    case _ => changes == []
  }
  ghost predicate RecordsMortgage(s: State, op: Operation, made: Option<NewMortgage>) {
    match op
    case MortgageNamed(p, name, amount) => s.board.tiles == [] && name.Some? &&
        made == Some(NewMortgage(p, name.value, amount, None))
    case MortgageBoard(p, tile) =>
      var found := FindTile(s.board.tiles, tile);
      found.Some? && found.value.name.Some? &&
          made == Some(NewMortgage(p, found.value.name.value, found.value.mortgage, Some(tile)))
    case _ => made.None?
  }
  ghost predicate Effect(s: State, op: Operation, pending: Pending) {
    && pending.kind == KindOf(op)
    && pending.bankrupt == (if op.GoBankrupt? then Some(op.player) else None)
    && (op.GoBankrupt? ==> pending.heir == op.creditor)
    && (pending.jackpot == Unmoved || op.FeedPot? || op.CollectPot?)
    && pending.redeemed == (if op.Redeem? then Some(op.mortgageId) else None)
    && RecordsMortgage(s, op, pending.newMortgage)
    && ChangesTiles(s, op, pending.registryChanges)
    && (op.MortgageBoard? ==> pending.tileId == Some(op.tile))
    && (op.MortgageNamed? ==> pending.tileId == None)
    && (op.Redeem? ==> pending.tileId == s.mortgages[op.mortgageId].tile)
  }

  lemma PerformBalances(s: State, op: Operation)
    requires Perform(s, op).Ok?
    ensures Settles(s.players, Perform(s, op).value, BankGain(s, op))
  {
    hide Settles, Transfers, FansOut, PaysTrade, Writes, GoReward, BankruptcyGain, PlayerToPlayer, PlayerToAll,
      AllToPlayer, PlayerToBank, BankToPlayer, PassGo, ToJackpot, JackpotPayout, IssueLoan, RepayLoan,
      IssueBankLoan, RepayBankLoan, PropertyPurchase, AuctionPayment, MortgageProperty, MortgageTile,
      RedeemMortgage, PayRent, BuildProperty, SellBuilding, TransferProperties, DeclareBankruptcy, PlanBuildings,
      PlanPrice, BuildingTargets, TradeMoves, BankruptcyPreview, OptionalSettlement, BankTake, FindActive,
      FindTile, StateOf, BankLoanInterest, RedemptionCost, Repeats, IsActive, OwnerChange, MortgageChange,
      CheckCanMortgage, HandOvers, RentFor;
    if op.GoBankrupt? {
      BankruptcyAccount(s.game, s.players, s.board, s.registry, op.player, op.creditor, LoanOf(op.bankLoan));
    }
  }
  lemma PerformWrites(s: State, op: Operation)
    requires Perform(s, op).Ok?
    ensures Effect(s, op, Perform(s, op).value)
  {
    hide Settles, PlayerToPlayer, PlayerToAll, AllToPlayer, PlayerToBank, BankToPlayer, PassGo, ToJackpot,
      JackpotPayout, IssueLoan, RepayLoan, IssueBankLoan, RepayBankLoan, PropertyPurchase, AuctionPayment,
      MortgageProperty, MortgageTile, RedeemMortgage, PayRent, BuildProperty, SellBuilding, TransferProperties,
      DeclareBankruptcy, Transfers, PlanBuildings, PlanPrice, BuildingTargets, TradeMoves, BankruptcyPreview,
      OptionalSettlement, BankTake, FindActive, FindTile, StateOf, BankLoanInterest, RedemptionCost, Repeats,
      IsActive, OwnerChange, MortgageChange, CheckCanMortgage, HandOvers, RentFor;
    if op.GoBankrupt? {
      BankruptcyAccount(s.game, s.players, s.board, s.registry, op.player, op.creditor, LoanOf(op.bankLoan));
    }
  }
  // Every accepted operation balances against the bank by its own formula and writes what it says.
  lemma PerformSettles(s: State, op: Operation)
    requires Perform(s, op).Ok?
    ensures Settles(s.players, Perform(s, op).value, BankGain(s, op)) && Effect(s, op, Perform(s, op).value)
  {
    hide *;
    PerformBalances(s, op);
    PerformWrites(s, op);
  }

  // ----- One operation, from what it read to what it wrote -----

  // The operation is worked out on `read` and committed on `now`; a refusal or a failed guard
  // leaves everything as it was.
  function StepFrom(read: State, now: State, op: Operation): State {
    var pending := Perform(read, op);
    if pending.Err? then now
    else
      var next := Commit(now, pending.value, BankGain(read, op));
      if next.Some? then next.value else now
  }
  predicate Takes(read: State, now: State, op: Operation) {
    Perform(read, op).Ok? && Commit(now, Perform(read, op).value, BankGain(read, op)).Some?
  }

  ghost predicate SameTable(read: State, now: State) { SamePlayers(read.players, now.players) }

  // Clearing a bankrupt wallet loses money in one case only: the operation read an empty wallet,
  // so it guards nothing, and money has arrived since.
  predicate ClearsUnreadMoney(read: State, now: State, op: Operation) {
    op.GoBankrupt? && FindActive(read.players, op.player).Ok? &&
        FindActive(read.players, op.player).value.balance == 0 &&
    FindPlayer(now.players, op.player).Ok? && FindPlayer(now.players, op.player).value.balance != 0
  }

  lemma {:induction false} FindPlayerAt(players: seq<Player>, i: nat)
    requires DistinctPlayers(players) && i < |players|
    ensures FindPlayer(players, players[i].id) == Ok(players[i])
  {
    if i > 0 { FindPlayerAt(players[1..], i - 1); }
  }
  lemma {:induction false} ClearedNobody(players: seq<Player>, id: PlayerId)
    requires forall p :: p in players ==> p.id != id
    ensures Cleared(players, Some(id)) == 0 && Cleared(players, None) == 0
  {
    if players != [] { ClearedNobody(players[1..], id); }
  }
  lemma {:induction false} ClearedNone(players: seq<Player>)
    ensures Cleared(players, None) == 0
  {
    if players != [] { ClearedNone(players[1..]); }
  }
  lemma {:induction false} ClearedRow(players: seq<Player>, i: nat)
    requires DistinctPlayers(players) && i < |players|
    ensures Cleared(players, Some(players[i].id)) == players[i].balance
  {
    if i > 0 { ClearedRow(players[1..], i - 1); } else {
      forall p | p in players[1..]
        ensures p.id != players[0].id
      {
        var j :| 0 <= j < |players[1..]| && players[1..][j] == p;
      }
      ClearedNobody(players[1..], players[0].id);
    }
  }

  lemma RowAfterEmptying(changes: seq<BalanceChange>, read: Player, row: Player)
    requires Empties(changes, read) && row.id == read.id && WalletStands(row, changes)
    ensures UpdatedPlayer(row, changes).balance == if read.balance == 0 then row.balance else 0
  {
    hide FindBalance;
    NoChangeFor(changes, row.id);
  }

  lemma ForgottenIs(read: State, now: State, op: Operation)
    requires DistinctPlayers(now.players) && SameTable(read, now) && Takes(read, now, op)
    ensures Forgotten(now, Perform(read, op).value) ==
            if ClearsUnreadMoney(read, now, op) then FindPlayer(now.players, op.player).value.balance else 0
  {
    hide Perform, BankGain, UpdatedPlayers, FindBalance, Settles, HandOvers, BankruptcyPreview, OptionalSettlement,
      BankTake, DeclareBankruptcy, ValidateGame, Matches, ApplyChanges, Bankrupted, FindPlayer;
    PerformSettles(read, op);
    var pending := Perform(read, op).value;
    var updated := UpdatedPlayers(now.players, pending.changes);
    if op.GoBankrupt? {
      BankruptcyRead(read, op);
      var player := FindActive(read.players, op.player).value;
      var i :| 0 <= i < |read.players| && read.players[i] == player;
      UpdatedRow(now.players, pending.changes, i);
      RowAfterEmptying(pending.changes, player, now.players[i]);
      ClearedRow(updated, i);
      FindPlayerAt(now.players, i);
    } else {
      ClearedNone(updated);
    }
  }
  lemma UpdatedRow(players: seq<Player>, changes: seq<BalanceChange>, i: nat)
    requires i < |players|
    ensures UpdatedPlayers(players, changes)[i] == UpdatedPlayer(players[i], changes)
    ensures UpdatedPlayers(players, changes)[i].id == players[i].id
    ensures DistinctPlayers(players) ==> DistinctPlayers(UpdatedPlayers(players, changes))
  {
    hide FindBalance;
    var updated := UpdatedPlayers(players, changes);
    assert forall k :: 0 <= k < |players| ==> updated[k] == UpdatedPlayer(players[k], changes);
  }
  lemma BankruptcyRead(read: State, op: Operation)
    requires op.GoBankrupt? && Perform(read, op).Ok?
    ensures FindActive(read.players, op.player).Ok?
    ensures Empties(Perform(read, op).value.changes, FindActive(read.players, op.player).value)
  {
    hide Settles, Empties, HandOvers, BankruptcyPreview, OptionalSettlement, BankTake, DeclareBankruptcy,
      ValidateGame, FindActive;
    BankruptcyAccount(read.game, read.players, read.board, read.registry, op.player, op.creditor, LoanOf(op.bankLoan));
  }

  // A committed operation keeps the money of the game constant, whatever state it was worked out
  // on, except in the one case above: exactly then the total falls.
  lemma MoneyIsConserved(read: State, now: State, op: Operation)
    requires DistinctPlayers(now.players) && SameTable(read, now) && SafeWallets(now.players)
    ensures Total(StepFrom(read, now, op)) <= Total(now)
    ensures Total(StepFrom(read, now, op)) < Total(now) <==> Takes(read, now, op) && ClearsUnreadMoney(read, now, op)
    ensures SafeWallets(StepFrom(read, now, op).players)
  {
    hide Perform, BankGain, Total, Commit, SumDeltas, ReadFrom, FindPlayer;
    if Takes(read, now, op) {
      PerformSettles(read, op);
      CommitConserves(read.players, now, Perform(read, op).value, BankGain(read, op));
      CommitKeepsWalletsSafe(read.players, now, Perform(read, op).value, BankGain(read, op));
      ForgottenIs(read, now, op);
      assert ClearsUnreadMoney(read, now, op) ==> FindPlayer(now.players, op.player).value in now.players;
    }
  }

  lemma {:induction false} NothingOwned(board: Board, registry: Registry, player: PlayerId, creditor: Option<PlayerId>)
    requires forall r :: r in registry ==> r.state.owner != Some(player)
    ensures BankruptcyPreview(board, registry, player, creditor.Some?) == Preview(0, 0, 0, 0)
    ensures HandOvers(registry, player, creditor) == []
  {
    hide HandOver, SellRefund, TransferFee, FindTile;
    if registry != [] {
      assert registry[0] in registry;
      NothingOwned(board, registry[1..], player, creditor);
    }
  }

  // ----- Runs -----

  function Step(s: State, op: Operation): State { StepFrom(s, s, op) }
  function Run(s: State, ops: seq<Operation>): State
    decreases |ops|
  {
    if ops == [] then s else Run(Step(s, ops[0]), ops[1..])
  }

  lemma FreshReadClearsNothing(s: State, op: Operation)
    ensures !ClearsUnreadMoney(s, s, op)
  {}
  lemma CommitKeepsPlayers(s: State, op: Operation)
    requires DistinctPlayers(s.players)
    ensures DistinctPlayers(Step(s, op).players) && SamePlayers(s.players, Step(s, op).players)
  {
    hide Perform, BankGain, Settles, FindBalance, Matches, WalletsStand;
    var pending := Perform(s, op);
    if pending.Ok? && Commit(s, pending.value, BankGain(s, op)).Some? {
      var updated := UpdatedPlayers(s.players, pending.value.changes);
      forall i | 0 <= i < |s.players| ensures Bankrupted(updated, pending.value.bankrupt)[i].id == s.players[i].id {
        UpdatedRow(s.players, pending.value.changes, i);
      }
    }
  }
}
