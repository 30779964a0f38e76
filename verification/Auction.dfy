/** A live auction beside the bank: bids are compare-and-set on the stored row, the leading bid is
    reserved on the leader's wallet against operations and reversals alike, and a due auction is
    settled. Times are milliseconds. */
module Auction {
  import opened Results
  import opened Property
  import opened Banking
  import opened BankState
  import opened BankRuns
  import opened Reversal
  import Runs = ReversalRuns

  const BID_EXTENSION_MS: int := 10_000

  datatype AuctionState = Active | Sold | NoSale
  datatype Lot = Lot(state: AuctionState, currentBid: int, bidder: Option<PlayerId>, version: nat, endsAt: int,
          tile: Option<TileId>)
  datatype Settings = Settings(bidSteps: seq<int>, minBid: int)
  datatype BidError = InvalidBidStep | AuctionClosed | AuctionBidStale | BidderBankrupt | AlreadyLeading | InvalidBid |
          InsufficientAvailableFunds

  // ----- The rules -----

  function AuctionReserve(lot: Lot, player: PlayerId): int {
    if lot.state != Active then 0 else if lot.bidder == Some(player) then lot.currentBid else 0
  }
  predicate IsOpen(lot: Lot, now: int) { lot.state == Active && now < lot.endsAt }
  predicate IsDue(lot: Lot, now: int) { lot.state == Active && now >= lot.endsAt }
  function NextBid(lot: Lot, step: int, settings: Settings): int {
    if lot.currentBid + step > settings.minBid then lot.currentBid + step else settings.minBid
  }

  // A closed or changed auction is reported before anything about the bidder.
  function ValidateBid(lot: Lot, settings: Settings, bidder: Player, expectedVersion: nat, step: int, reserved: int,
          now: int): (r: Result<int, BidError>)
    ensures r.Ok? ==>
            Safe(r.value) && bidder.balance - reserved >= r.value && IsOpen(lot, now) && expectedVersion == lot.version
    ensures r.Ok? && step > 0 ==> r.value > lot.currentBid
  {
    if step !in settings.bidSteps then Err(InvalidBidStep)
    else if !IsOpen(lot, now) then Err(AuctionClosed)
    else if expectedVersion != lot.version then Err(AuctionBidStale)
    else if bidder.bankrupt then Err(BidderBankrupt)
    else if lot.bidder == Some(bidder.id) then Err(AlreadyLeading)
    else
      var bid := NextBid(lot, step, settings);
      if !Safe(bid) then Err(InvalidBid)
      else if bidder.balance - reserved < bid then Err(InsufficientAvailableFunds)
      else Ok(bid)
  }

  predicate RespectsReserve(change: BalanceChange, lot: Lot) {
    var reserve := AuctionReserve(lot, change.player);
    change.delta >= 0 || reserve <= 0 || change.before + change.delta >= reserve
  }
  predicate ReserveRespected(changes: seq<BalanceChange>, lot: Lot) {
    forall c :: c in changes ==> RespectsReserve(c, lot)
  }

  datatype SettlementPlan = Sale(payment: Pending) | NoSalePlan

  function FindLeader(players: seq<Player>, lot: Lot): Option<Player> {
    if lot.bidder.None? then None
    else
      var found := FindPlayer(players, lot.bidder.value);
      if found.Ok? then Some(found.value) else None
  }
  // A sale when the leader is still in the game and holds the bid, and the tile is still unowned.
  function PlanSettlement(game: Game, players: seq<Player>, board: Board, registry: Registry,
          lot: Lot): Outcomes<SettlementPlan> {
    var leader := FindLeader(players, lot);
    if !game.active || leader.None? || leader.value.bankrupt || lot.currentBid <= 0 ||
        leader.value.balance < lot.currentBid then Ok(NoSalePlan)
    else if lot.tile.Some? && StateOf(registry, lot.tile.value).owner.Some? then Ok(NoSalePlan)
    else
      var payment :- AuctionPayment(game, players, board, registry, leader.value.id, lot.currentBid, lot.tile);
      Ok(Sale(payment))
  }

  // ----- The stored row -----

  // The wallet a bid is checked against when it is written: only a player still in the game has one.
  function Available(players: seq<Player>, id: PlayerId, reserved: nat): Option<int> {
    var found := FindPlayer(players, id);
    if found.Err? || found.value.bankrupt then None else Some(found.value.balance - reserved)
  }
  predicate BidStands(lot: Lot, bid: int, bidder: PlayerId, expectedVersion: nat, now: int, available: Option<int>) {
    lot.state == Active && lot.version == expectedVersion && lot.endsAt > now && lot.currentBid < bid &&
    lot.bidder != Some(bidder) && available.Some? && available.value >= bid
  }
  function WithBid(lot: Lot, bid: int, bidder: PlayerId, now: int): Lot {
    var least := now + BID_EXTENSION_MS;
    lot.(currentBid := bid, bidder := Some(bidder), version := lot.version + 1, endsAt := if lot.endsAt < least
        then least else lot.endsAt)
  }
  function WithoutLeader(lot: Lot, bankrupt: PlayerId): Lot {
    if lot.state == Active && lot.bidder == Some(bankrupt) then lot.(bidder := None, version := lot.version + 1)
    else lot
  }

  class AuctionRow {
    var state: AuctionState
    var currentBid: int
    var bidder: Option<PlayerId>
    var version: nat
    var endsAt: int
    const tile: Option<TileId>

    constructor (lot: Option<TileId>, startedAt: int)
      ensures View() == Lot(Active, 0, None, 0, startedAt + 30_000, lot)
    {
      state, currentBid, bidder, version, endsAt, tile := Active, 0, None, 0, startedAt + 30_000, lot;
    }
    function View(): Lot
      reads this
    {
      Lot(state, currentBid, bidder, version, endsAt, tile)
    }

    // The row takes a bid only if it is still the row that was read; otherwise nothing changes.
    method PlaceBid(bid: int, player: PlayerId, expectedVersion: nat, now: int,
            available: Option<int>) returns (placed: bool)
      modifies this
      ensures placed <==> BidStands(old(View()), bid, player, expectedVersion, now, available)
      ensures View() == if placed then WithBid(old(View()), bid, player, now) else old(View())
      ensures placed ==>
              currentBid > old(currentBid) && version > old(version) && endsAt >= old(endsAt) &&
              endsAt >= now + BID_EXTENSION_MS
    {
      placed := false;
      if state == Active && version == expectedVersion && endsAt > now && currentBid < bid && bidder != Some(player) {
        if available.Some? && available.value >= bid {
          currentBid, bidder, version := bid, Some(player), version + 1;
          if endsAt < now + BID_EXTENSION_MS { endsAt := now + BID_EXTENSION_MS; }
          placed := true;
        }
      }
    }

    method CloseWithoutSale(expectedVersion: nat) returns (closed: bool)
      modifies this
      ensures closed <==> old(state) == Active && old(version) == expectedVersion
      ensures View() == if closed then old(View()).(state := NoSale, version := old(version) + 1) else old(View())
    {
      closed := state == Active && version == expectedVersion;
      if closed { state, version := NoSale, version + 1; }
    }

    // Written in the batch of a bankruptcy: the floor stays, the leader goes.
    method WithdrawBid(bankrupt: PlayerId)
      modifies this
      ensures View() == WithoutLeader(old(View()), bankrupt)
    {
      if state == Active && bidder == Some(bankrupt) { bidder, version := None, version + 1; }
    }
  }

  // ----- The auction and the bank together -----

  datatype BidRecord = BidRecord(bid: int, version: nat, at: int)
  datatype House = House(ledger: Runs.Ledger, lot: Lot, log: seq<BidRecord>)

  datatype Action =
    // A bid worked out on what was seen and written against what is stored.
    | Bid(bidder: Player, step: int, expectedVersion: nat, seen: Lot, seenReserve: int, reserved: nat, now: int)
    | Bank(op: Operation)
    | Undo(original: nat)
    | Settle(now: int)

  function TakeBid(h: House, settings: Settings, a: Action): House
    requires a.Bid?
  {
    var bid := ValidateBid(a.seen, settings, a.bidder, a.expectedVersion, a.step, a.seenReserve, a.now);
    if bid.Err? || !BidStands(h.lot, bid.value, a.bidder.id, a.seen.version, a.now,
        Available(h.ledger.bank.players, a.bidder.id, a.reserved)) then h
    else
      h.(lot := WithBid(h.lot, bid.value, a.bidder.id, a.now),
          log := h.log + [BidRecord(bid.value, h.lot.version + 1, a.now)])
  }

  // Every debit but a bankrupt player's own must leave the leader their bid.
  function CheckedChanges(pending: Pending): seq<BalanceChange> {
    if pending.bankrupt.None? then pending.changes else ChangesOfOthers(pending.changes, pending.bankrupt.value)
  }
  function ChangesOfOthers(changes: seq<BalanceChange>, id: PlayerId): (r: seq<BalanceChange>)
    ensures forall c :: c in r <==> c in changes && c.player != id
  {
    if changes == [] then []
    else (if changes[0].player != id then [changes[0]] else []) + ChangesOfOthers(changes[1..], id)
  }
  function TakeOperation(h: House, op: Operation): House {
    var bank := h.ledger.bank;
    var pending := Perform(bank, op);
    if pending.Err? || !ReserveRespected(CheckedChanges(pending.value), h.lot) || !Takes(bank, bank, op) then h
    else
      h.(ledger := Runs.Next(h.ledger, Runs.Do(op)), lot := if op.GoBankrupt? then WithoutLeader(h.lot, op.player)
                                                            else h.lot)
  }
  // A reversal moves money back through the same check.
  function TakeUndo(h: House, original: nat): House {
    if !Runs.CanUndo(h.ledger, original) ||
        !ReserveRespected(Runs.UndoOf(h.ledger, original).value.pending.changes, h.lot) then h
    else h.(ledger := Runs.Next(h.ledger, Runs.Reverse(original)))
  }

  function SettleLot(h: House, now: int): House {
    var bank := h.ledger.bank;
    if !IsDue(h.lot, now) then h
    else
      var plan := PlanSettlement(bank.game, bank.players, bank.board, bank.registry, h.lot);
      if plan.Err? then h
      else match plan.value
        case NoSalePlan => h.(lot := h.lot.(state := NoSale, version := h.lot.version + 1))
        case Sale(payment) =>
          var next := Commit(bank, payment, h.lot.currentBid);
          if next.None? then h
          else
            h.(ledger := Runs.Ledger(next.value, h.ledger.log + [Runs.EntryOf(bank, payment)]),
                lot := h.lot.(state := Sold, version := h.lot.version + 1))
  }
  function Next(h: House, settings: Settings, a: Action): House {
    match a
    case Bid(_, _, _, _, _, _, _) => TakeBid(h, settings, a)
    case Bank(op) => TakeOperation(h, op)
    case Undo(original) => TakeUndo(h, original)
    case Settle(now) => SettleLot(h, now)
  }
  function After(h: House, settings: Settings, actions: seq<Action>): House
    decreases |actions|
  {
    if actions == [] then h else After(Next(h, settings, actions[0]), settings, actions[1..])
  }

  // ----- What every reachable state keeps -----

  ghost predicate LeaderHoldsBid(players: seq<Player>, lot: Lot) {
    lot.state == Active && lot.bidder.Some? ==>
      0 < lot.currentBid <= MAX_SAFE &&
      exists i :: 0 <= i < |players| && players[i].id == lot.bidder.value && !players[i].bankrupt &&
          players[i].balance >= lot.currentBid
  }
  // Bids and versions strictly rise, and each bid left at least ten seconds.
  ghost predicate LogRises(h: House) {
    && h.lot.currentBid >= 0
    && (forall i, j :: 0 <= i < j < |h.log| ==> h.log[i].bid < h.log[j].bid && h.log[i].version < h.log[j].version)
    && (forall i :: 0 <= i < |h.log| ==>
        h.log[i].bid <= h.lot.currentBid && h.log[i].version <= h.lot.version &&
        h.lot.endsAt >= h.log[i].at + BID_EXTENSION_MS)
    && (h.log == [] ==> h.lot.currentBid == 0 && h.lot.bidder.None?)
    && (h.log != [] ==> h.log[|h.log| - 1].bid == h.lot.currentBid)
  }
  ghost predicate Sound(h: House) {
    SoundTable(h.ledger.bank) && LeaderHoldsBid(h.ledger.bank.players, h.lot) && LogRises(h)
  }
  ghost predicate SoundTable(s: State) {
    2 <= |s.players| <= 6 && DistinctPlayers(s.players) && forall p :: p in s.players ==> SoundPlayer(s.game, p)
  }

  lemma StepKeepsTable(s: State, op: Operation)
    requires SoundTable(s)
    ensures SoundTable(Step(s, op)) && Step(s, op).game == s.game
  {
    hide Perform, BankGain, Settles, FindBalance, Matches, WalletsStand, Total, ClearsUnreadMoney, ApplyChanges,
      MovedMortgages;
    assert SafeWallets(s.players);
    assert SameTable(s, s);
    MoneyIsConserved(s, s, op);
    CommitKeepsPlayers(s, op);
    var next := Step(s, op);
    forall p | p in next.players ensures SoundPlayer(next.game, p) {
      var i :| 0 <= i < |next.players| && next.players[i] == p;
      assert s.players[i] in s.players;
    }
  }

  // A leader the operation did not bankrupt still holds the bid: their wallet rose, or the reserve
  // was checked.
  lemma LeaderKeepsBid(players: seq<Player>, lot: Lot, pending: Pending, i: nat)
    requires lot.state == Active && lot.bidder.Some? && lot.currentBid > 0
    requires i < |players| && players[i].id == lot.bidder.value && !players[i].bankrupt &&
             players[i].balance >= lot.currentBid
    requires pending.bankrupt != lot.bidder && ReserveRespected(CheckedChanges(pending), lot) &&
             WalletsStand(players, pending.changes)
    ensures var next := Bankrupted(UpdatedPlayers(players, pending.changes), pending.bankrupt);
            next[i].id == lot.bidder.value && !next[i].bankrupt && next[i].balance >= lot.currentBid
  {
    hide FindBalance;
    var row := players[i];
    NoChangeFor(pending.changes, row.id);
    UpdatedRow(players, pending.changes, i);
    assert WalletStands(row, pending.changes);
    if FindBalance(pending.changes, row.id).Some? {
      var c := FindBalance(pending.changes, row.id).value;
      assert c in CheckedChanges(pending);
      assert RespectsReserve(c, lot);
    }
  }

  lemma OperationKeepsLeader(h: House, op: Operation)
    requires Sound(h)
    ensures LeaderHoldsBid(TakeOperation(h, op).ledger.bank.players, TakeOperation(h, op).lot)
  {
    hide Perform, BankGain, Settles, Matches, WalletsStand, ReserveRespected, CheckedChanges, UpdatedPlayers,
      Bankrupted, ApplyChanges, MovedMortgages, SoundTable, LogRises, ChangesTiles, RecordsMortgage, Runs.EntryOf;
    var next, bank := TakeOperation(h, op), h.ledger.bank;
    if next != h && next.lot.state == Active && next.lot.bidder.Some? {
      PerformSettles(bank, op);
      var i := LeaderAt(bank.players, h.lot);
      LeaderKeepsBid(bank.players, h.lot, Perform(bank, op).value, i);
    }
  }
  lemma LeaderAt(players: seq<Player>, lot: Lot) returns (i: nat)
    requires LeaderHoldsBid(players, lot) && lot.state == Active && lot.bidder.Some?
    ensures i < |players| && players[i].id == lot.bidder.value && !players[i].bankrupt &&
            players[i].balance >= lot.currentBid
  {
    i :| 0 <= i < |players| && players[i].id == lot.bidder.value && !players[i].bankrupt &&
        players[i].balance >= lot.currentBid;
  }

  // A reversal is a debit like any other: it leaves the leader the bid.
  lemma UndoKeepsLeader(h: House, original: nat)
    requires Sound(h)
    ensures LeaderHoldsBid(TakeUndo(h, original).ledger.bank.players, TakeUndo(h, original).lot)
  {
    hide ReverseTransaction, Runs.FixedRecords, Runs.GroupTileIds, Matches, WalletsStand, RespectsReserve,
      UpdatedPlayers, Bankrupted, ApplyChanges, MovedMortgages, SoundTable, LogRises, Runs.EntryOf;
    var next, bank := TakeUndo(h, original), h.ledger.bank;
    if next != h && next.lot.state == Active && next.lot.bidder.Some? {
      var i := LeaderAt(bank.players, h.lot);
      LeaderKeepsBid(bank.players, h.lot, Runs.UndoOf(h.ledger, original).value.pending, i);
    }
  }
  lemma UndoKeepsTable(l: Runs.Ledger, original: nat)
    requires SoundTable(l.bank) && Runs.CanUndo(l, original)
    ensures SoundTable(Runs.Next(l, Runs.Reverse(original)).bank)
  {
    hide Runs.UndoneBank, Runs.TileMovedBack, Runs.DeltaOf;
    assert SafeWallets(l.bank.players);
    Runs.ReversalIsExact(l, original);
    Runs.ReversalKeepsWalletsSafe(l, original);
    SameGame(l, original);
    var next := Runs.Next(l, Runs.Reverse(original)).bank;
    forall p | p in next.players ensures SoundPlayer(next.game, p) {
      var i :| 0 <= i < |next.players| && next.players[i] == p;
      assert l.bank.players[i] in l.bank.players;
    }
  }
  lemma SameGame(l: Runs.Ledger, original: nat)
    requires Runs.CanUndo(l, original)
    ensures Runs.Next(l, Runs.Reverse(original)).bank.game == l.bank.game
  {
    hide ReverseTransaction, WalletsStand, Matches, UpdatedPlayers, Bankrupted, ApplyChanges, MovedMortgages,
      Runs.FixedRecords, Runs.GroupTileIds;
  }
  lemma BidKeepsLeader(h: House, settings: Settings, a: Action)
    requires Sound(h) && a.Bid?
    ensures LeaderHoldsBid(TakeBid(h, settings, a).ledger.bank.players, TakeBid(h, settings, a).lot)
    ensures LogRises(TakeBid(h, settings, a))
    ensures TakeBid(h, settings, a).lot.endsAt >= h.lot.endsAt && TakeBid(h, settings, a).lot.version >= h.lot.version
  {
    hide ValidateBid, FindPlayer, SoundTable;
    var found := FindPlayer(h.ledger.bank.players, a.bidder.id);
    if found.Ok? { var i :| 0 <= i < |h.ledger.bank.players| && h.ledger.bank.players[i] == found.value; }
  }

  // In a game still being played a due free-text lot with a leader is sold at the leading bid, and
  // the sale commits.
  lemma DueLotIsSold(h: House, now: int)
    requires Sound(h) && h.ledger.bank.game.active && IsDue(h.lot, now) && h.lot.bidder.Some? && h.lot.tile.None?
    ensures SettleLot(h, now).lot.state == Sold && SettleLot(h, now).lot.currentBid == h.lot.currentBid
    ensures Wallets(SettleLot(h, now).ledger.bank.players) == Wallets(h.ledger.bank.players) - h.lot.currentBid
    ensures h.log != [] ==> h.log[|h.log| - 1].bid == h.lot.currentBid
  {
    hide ApplyChanges, StateOf, RequireTile, Settles, ValidateGame, ApplyDeltas, AuctionPayment, Wallets, Commit,
      BankState.Total, Forgotten, LogRises;
    var s, lot := h.ledger.bank, h.lot;
    var i :| 0 <= i < |s.players| && s.players[i].id == lot.bidder.value && !s.players[i].bankrupt &&
        s.players[i].balance >= lot.currentBid;
    FindPlayerAt(s.players, i);
    LastBid(h);
    SaleIsAccepted(s, lot.bidder.value, lot.currentBid, i);
    var payment := AuctionPayment(s.game, s.players, s.board, s.registry, lot.bidder.value, lot.currentBid, None).value;
    SaleCommits(s, payment, lot.bidder.value, lot.currentBid, i);
  }
  lemma LastBid(h: House)
    requires LogRises(h)
    ensures h.log != [] ==> h.log[|h.log| - 1].bid == h.lot.currentBid
  {}
  lemma SaleIsAccepted(s: State, id: PlayerId, bid: int, i: nat)
    requires SoundTable(s) && s.game.active && i < |s.players| && s.players[i].id == id && !s.players[i].bankrupt &&
             0 < bid <= s.players[i].balance
    ensures AuctionPayment(s.game, s.players, s.board, s.registry, id, bid, None).Ok?
    ensures AuctionPayment(s.game, s.players, s.board, s.registry, id, bid, None).value ==
            Simple(AUCTION_PAYMENT, bid, bid, [BalanceChange(id, s.players[i].balance, -bid)])
  {
    hide Settles, RequireTile, StateOf, ValidateGame, FindPlayer;
    ValidGameIsSound(s.game, s.players);
    FindPlayerAt(s.players, i);
    assert s.players[i] in s.players && SoundPlayer(s.game, s.players[i]);
    OneDelta(s.players, id, -bid, i);
  }
  lemma OneDelta(players: seq<Player>, id: PlayerId, delta: int, i: nat)
    requires i < |players| && FindPlayer(players, id) == Ok(players[i]) &&
             0 <= players[i].balance + delta <= MAX_SAFE && players[i].id == id
    ensures ApplyDeltas(players, [(id, delta)]) == Ok([BalanceChange(id, players[i].balance, delta)])
  {
    hide FindPlayer;
    var deltas: seq<Delta> := [(id, delta)];
    assert deltas[1..] == [];
    assert ApplyDeltas(players, deltas[1..]) == Ok([]);
    var change := BalanceChange(id, players[i].balance, delta);
    assert CreateBalanceChange(players[i], deltas[0].1) == Ok(change);
    assert [change] + [] == [change];
  }
  lemma SaleCommits(s: State, payment: Pending, id: PlayerId, bid: int, i: nat)
    requires SoundTable(s) && i < |s.players| && s.players[i].id == id && 0 < bid <= s.players[i].balance
    requires payment == Simple(AUCTION_PAYMENT, bid, bid, [BalanceChange(id, s.players[i].balance, -bid)])
    ensures Commit(s, payment, bid).Some?
    ensures Wallets(Commit(s, payment, bid).value.players) == Wallets(s.players) - bid
  {
    hide ApplyChanges, MovedMortgages, UpdatedPlayers, Bankrupted, Wallets;
    var changes := payment.changes;
    assert forall p :: FindBalance(changes, p) == if p == id then Some(changes[0]) else None;
    UpdatedWallets(s.players, changes);
    assert IdIn(s.players, id);
    GainIsSum(s.players, changes);
    BankruptedWallets(UpdatedPlayers(s.players, changes), None);
    ClearedNone(UpdatedPlayers(s.players, changes));
    assert SumDeltas(changes) == -bid by { assert changes[1..] == []; }
  }

  lemma SettlementIsStep(h: House, now: int)
    ensures var next := SettleLot(h, now);
            next.ledger == h.ledger || exists op :: next.ledger == Runs.Next(h.ledger, Runs.Do(op))
    ensures SettleLot(h, now).lot.state != Active || SettleLot(h, now) == h
    ensures SettleLot(h, now).log == h.log && SettleLot(h, now).lot.currentBid == h.lot.currentBid &&
            SettleLot(h, now).lot.bidder == h.lot.bidder &&
            SettleLot(h, now).lot.endsAt == h.lot.endsAt && SettleLot(h, now).lot.version >= h.lot.version
  {
    hide AuctionPayment, Commit, FindLeader, StateOf, Settles, Runs.EntryOf;
    if SettleLot(h, now).ledger != h.ledger {
      var op := WinAuction(FindLeader(h.ledger.bank.players, h.lot).value.id, h.lot.currentBid, h.lot.tile);
      assert SettleLot(h, now).ledger == Runs.Next(h.ledger, Runs.Do(op));
    }
  }

  lemma RunKeepsTable(l: Runs.Ledger, op: Operation)
    requires SoundTable(l.bank)
    ensures SoundTable(Runs.Next(l, Runs.Do(op)).bank)
  {
    hide SoundTable, Perform, Step, Takes, Runs.EntryOf;
    StepKeepsTable(l.bank, op);
  }
  // Every action keeps the leader's money in place and the log rising; the end never moves back.
  lemma NextIsSound(h: House, settings: Settings, a: Action)
    requires Sound(h)
    ensures Sound(Next(h, settings, a))
    ensures Next(h, settings, a).lot.endsAt >= h.lot.endsAt && Next(h, settings, a).lot.version >= h.lot.version &&
            Next(h, settings, a).lot.currentBid >= h.lot.currentBid
  {
    hide Perform, BankGain, Step, PlanSettlement, ReserveRespected, CheckedChanges, SettleLot, SoundTable, TakeBid,
      Runs.Next, Runs.CanUndo, Runs.UndoOf;
    match a
    case Bid(_, _, _, _, _, _, _) => {
      BidKeepsLeader(h, settings, a);
      BidKeepsBank(h, settings, a);
    }
    case Bank(op) => {
      RunKeepsTable(h.ledger, op);
      OperationKeepsLeader(h, op);
    }
    case Undo(original) => {
      UndoKeepsLeader(h, original);
      if Runs.CanUndo(h.ledger, original) { UndoKeepsTable(h.ledger, original); }
    }
    case Settle(now) => {
      SettlementIsStep(h, now);
      if SettleLot(h, now).ledger != h.ledger {
        var op :| SettleLot(h, now).ledger == Runs.Next(h.ledger, Runs.Do(op));
        RunKeepsTable(h.ledger, op);
      }
    }
  }
  lemma BidKeepsBank(h: House, settings: Settings, a: Action)
    requires a.Bid?
    ensures TakeBid(h, settings, a).ledger == h.ledger && TakeBid(h, settings, a).lot.currentBid >= h.lot.currentBid
  {
    hide ValidateBid, Available;
  }

  lemma {:induction false} EveryRunIsSound(h: House, settings: Settings, actions: seq<Action>)
    requires Sound(h)
    ensures Sound(After(h, settings, actions))
    ensures After(h, settings, actions).lot.endsAt >= h.lot.endsAt
    decreases |actions|
  {
    hide Sound, Next;
    if actions != [] {
      NextIsSound(h, settings, actions[0]);
      EveryRunIsSound(Next(h, settings, actions[0]), settings, actions[1..]);
    }
  }

  // An auction that has just started is sound.
  lemma StartIsSound(ledger: Runs.Ledger, lot: Option<TileId>, startedAt: int)
    requires SoundTable(ledger.bank)
    ensures Sound(House(ledger, Lot(Active, 0, None, 0, startedAt + 30_000, lot), []))
  {}

  // Over any run of bids, operations, bankruptcies, reversals and settlements, whatever was in the
  // ledger before: whenever a free-text lot falls due in a game still being played and it has a
  // leader, it is sold at the last accepted bid.
  lemma EveryLedLotIsSold(ledger: Runs.Ledger, startedAt: int, settings: Settings, actions: seq<Action>, now: int)
    requires SoundTable(ledger.bank)
    ensures var h := After(House(ledger, Lot(Active, 0, None, 0, startedAt + 30_000, None), []), settings, actions);
            h.ledger.bank.game.active && IsDue(h.lot, now) && h.lot.bidder.Some? && h.lot.tile.None? ==>
              (h.log != [] && SettleLot(h, now).lot.state == Sold &&
               SettleLot(h, now).lot.currentBid == h.log[|h.log| - 1].bid &&
               Wallets(SettleLot(h, now).ledger.bank.players) ==
                   Wallets(h.ledger.bank.players) - h.log[|h.log| - 1].bid)
  {
    hide After, SettleLot, SoundTable, IsDue, Wallets;
    var start := House(ledger, Lot(Active, 0, None, 0, startedAt + 30_000, None), []);
    StartIsSound(ledger, None, startedAt);
    EveryRunIsSound(start, settings, actions);
    var h := After(start, settings, actions);
    if h.ledger.bank.game.active && IsDue(h.lot, now) && h.lot.bidder.Some? && h.lot.tile.None? {
      DueLotIsSold(h, now);
    }
  }
}
