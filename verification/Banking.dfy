/** The bank's operations: each checks the game it was given and returns the change to be written,
    or the reason it is refused. */
module Banking {
  import opened Arithmetic
  import opened Results
  import opened Property

  const MAX_SAFE: int := 9_007_199_254_740_991
  const BANK_TO_PLAYER_MAX: int := 4_000_000

  datatype Player = Player(id: PlayerId, gameId: nat, balance: int, bankrupt: bool)
  datatype Game = Game(id: nat, active: bool, passGoReward: int, bankLoanMax: int)
  // A loan without a lender is the bank's.
  datatype Loan = Loan(id: nat, gameId: nat, lender: Option<PlayerId>, borrower: PlayerId, principal: int, repaid: int,
          active: bool)
  // A stored mortgage is known by its place in the list of all mortgages of the game; its name is
  // the key names are compared by.
  datatype MortgageState = InForce | Redeemed | Released
  datatype Mortgage = Mortgage(gameId: nat, player: PlayerId, name: nat, value: int, tile: Option<TileId>,
          state: MortgageState)

  datatype Kind =
    | PLAYER_TO_PLAYER | PLAYER_TO_BANK | BANK_TO_PLAYER | PLAYER_TO_ALL | ALL_TO_PLAYER | PASS_GO
    | TO_JACKPOT | JACKPOT_PAYOUT | AUCTION_PAYMENT | PROPERTY_PURCHASE | PROPERTY_BUILD
    | PROPERTY_SELL_BUILDING | PROPERTY_TRANSFER | PAY_RENT | MORTGAGE | MORTGAGE_REDEMPTION
    | LOAN_ISSUE | LOAN_REPAYMENT | BANKRUPTCY_TRANSFER | REVERSAL

  datatype BalanceChange = BalanceChange(player: PlayerId, before: int, delta: int)
  datatype JackpotMove = Unmoved | Deposit(amount: int) | Collect(expected: int)
  datatype Outcome = Repaid | WrittenOff
  datatype Settlement = Settlement(loanId: nat, outcome: Outcome, paidPrincipal: int, paidInterest: int)
  datatype NewMortgage = NewMortgage(player: PlayerId, name: nat, value: int, tile: Option<TileId>)

  datatype Pending = Pending(
    kind: Kind, amount: int, total: int, changes: seq<BalanceChange>, jackpot: JackpotMove,
    tileId: Option<TileId>, registryChanges: seq<PropertyChange>, newMortgage: Option<NewMortgage>,
    redeemed: Option<nat>, settlement: Option<Settlement>, bankrupt: Option<PlayerId>, heir: Option<PlayerId>)

  type Outcomes<T> = Result<T, BankError>

  // ----- The checks shared by the operations -----

  predicate Safe(n: int) { -MAX_SAFE <= n <= MAX_SAFE }

  predicate SoundPlayer(game: Game, player: Player) { player.gameId == game.id && 0 <= player.balance <= MAX_SAFE }
  ghost predicate DistinctPlayers(players: seq<Player>) {
    forall i, j :: 0 <= i < j < |players| ==> players[i].id != players[j].id
  }
  predicate IdIn(players: seq<Player>, id: PlayerId) { exists i :: 0 <= i < |players| && players[i].id == id }

  // Reads the players in order; a repeated identifier is caught at its second appearance.
  function ValidatePlayers(game: Game, seen: seq<Player>, rest: seq<Player>): Outcomes<()>
    decreases |rest|
  {
    if rest == [] then Ok(())
    else if !SoundPlayer(game, rest[0]) || IdIn(seen, rest[0].id) then Err(InvalidGameState)
    else ValidatePlayers(game, seen + [rest[0]], rest[1..])
  }
  function ValidateGame(game: Game, players: seq<Player>): Outcomes<()> {
    if !game.active || |players| < 2 || |players| > 6 then Err(InvalidGameState)
    else ValidatePlayers(game, [], players)
  }
  ghost predicate SoundGame(game: Game, players: seq<Player>) {
    game.active && 2 <= |players| <= 6 && DistinctPlayers(players) && forall p :: p in players ==> SoundPlayer(game, p)
  }

  lemma {:induction false} ValidPlayersAreSound(game: Game, seen: seq<Player>, rest: seq<Player>)
    requires DistinctPlayers(seen) && forall p :: p in seen ==> SoundPlayer(game, p)
    ensures ValidatePlayers(game, seen, rest).Ok? <==>
            DistinctPlayers(seen + rest) && forall p :: p in seen + rest ==> SoundPlayer(game, p)
    decreases |rest|
  {
    hide SoundPlayer;
    if rest == [] { assert seen + rest == seen; } else {
      assert seen + rest == seen + [rest[0]] + rest[1..];
      assert (seen + rest)[|seen|] == rest[0];
      if SoundPlayer(game, rest[0]) && !IdIn(seen, rest[0].id) {
        ValidPlayersAreSound(game, seen + [rest[0]], rest[1..]);
      } else if IdIn(seen, rest[0].id) {
        var i :| 0 <= i < |seen| && seen[i].id == rest[0].id;
        assert (seen + rest)[i].id == (seen + rest)[|seen|].id;
      } else {
        assert rest[0] in seen + rest;
      }
    }
  }
  lemma ValidGameIsSound(game: Game, players: seq<Player>)
    ensures ValidateGame(game, players).Ok? <==> SoundGame(game, players)
  {
    ValidPlayersAreSound(game, [], players);
    assert [] + players == players;
  }

  function ValidateAmount(amount: int): Outcomes<()> {
    if amount <= 0 || amount > MAX_SAFE then Err(InvalidAmount) else Ok(())
  }
  function FindPlayer(players: seq<Player>, id: PlayerId): (r: Outcomes<Player>)
    ensures r.Ok? ==> r.value in players && r.value.id == id
  {
    if players == [] then Err(PlayerNotFound)
    else if players[0].id == id then Ok(players[0]) else FindPlayer(players[1..], id)
  }
  function FindActive(players: seq<Player>, id: PlayerId): (r: Outcomes<Player>)
    ensures r.Ok? ==> r.value in players && r.value.id == id && !r.value.bankrupt
  {
    var player :- FindPlayer(players, id);
    if player.bankrupt then Err(PlayerBankrupt) else Ok(player)
  }
  // Both are looked up before either is checked.
  function FindBothActive(players: seq<Player>, id: PlayerId, otherId: PlayerId): (r: Outcomes<(Player, Player)>)
    ensures r.Ok? ==>
            r.value.0 in players && r.value.0.id == id && r.value.1 in players && r.value.1.id == otherId &&
            id != otherId
  {
    var one :- FindPlayer(players, id);
    var other :- FindPlayer(players, otherId);
    if one.bankrupt || other.bankrupt then Err(PlayerBankrupt)
    else if id == otherId then Err(SameSourceAndDestination)
    else Ok((one, other))
  }
  predicate IsActive(players: seq<Player>, id: PlayerId) { exists p :: p in players && p.id == id && !p.bankrupt }
  function EnsureFunds(player: Player, required: int): Outcomes<()> {
    if player.balance < required then Err(InsufficientFunds) else Ok(())
  }
  function Multiply(amount: int, count: int): Outcomes<int> {
    if Safe(amount * count) then Ok(amount * count) else Err(InvalidAmount)
  }

  // ----- Balance changes -----

  function CreateBalanceChange(player: Player, delta: int): (r: Outcomes<BalanceChange>)
    ensures r.Ok? ==>
            r.value == BalanceChange(player.id, player.balance, delta) && 0 <= player.balance + delta <= MAX_SAFE
  {
    if player.balance + delta < 0 || player.balance + delta > MAX_SAFE then Err(InvalidGameState)
    else Ok(BalanceChange(player.id, player.balance, delta))
  }

  type Delta = (PlayerId, int)

  function TransferDeltas(from: Option<PlayerId>, to: Option<PlayerId>, amount: int): seq<Delta> {
    (if from.Some? then [(from.value, -amount)] else []) + (if to.Some? then [(to.value, amount)] else [])
  }
  function FanOutDeltas(payer: PlayerId, recipients: seq<Player>, each: int): seq<Delta> {
    [(payer, -each * |recipients|)] + seq(|recipients|, i requires 0 <= i < |recipients| => (recipients[i].id, each))
  }
  function FanInDeltas(recipient: PlayerId, payers: seq<Player>, each: int): seq<Delta> {
    seq(|payers|, i requires 0 <= i < |payers| => (payers[i].id, -each)) + [(recipient, each * |payers|)]
  }

  function SumOf(deltas: seq<Delta>): int {
    if deltas == [] then 0 else deltas[0].1 + SumOf(deltas[1..])
  }
  function SumDeltas(changes: seq<BalanceChange>): int {
    if changes == [] then 0 else changes[0].delta + SumDeltas(changes[1..])
  }
  // A change read from one of the players, leaving a wallet that is a non-negative safe integer.
  ghost predicate ReadFrom(players: seq<Player>, change: BalanceChange) {
    (exists p :: p in players && p.id == change.player && p.balance == change.before) &&
    0 <= change.before + change.delta <= MAX_SAFE
  }

  function ApplyDeltas(players: seq<Player>, deltas: seq<Delta>): (r: Outcomes<seq<BalanceChange>>)
    ensures r.Ok? ==> |r.value| == |deltas| && SumDeltas(r.value) == SumOf(deltas)
    ensures r.Ok? ==>
            forall i :: 0 <= i < |deltas| ==> r.value[i].player == deltas[i].0 && r.value[i].delta == deltas[i].1
    ensures r.Ok? ==> forall c :: c in r.value ==> ReadFrom(players, c)
  {
    if deltas == [] then Ok([])
    else
      var player :- FindPlayer(players, deltas[0].0);
      var change :- CreateBalanceChange(player, deltas[0].1);
      var rest :- ApplyDeltas(players, deltas[1..]);
      Ok([change] + rest)
  }

  function Simple(kind: Kind, amount: int, total: int, changes: seq<BalanceChange>): Pending {
    Pending(kind, amount, total, changes, Unmoved, None, [], None, None, None, None, None)
  }
  function JackpotDelta(move: JackpotMove): int {
    match move
    case Unmoved => 0
    case Deposit(amount) => amount
    case Collect(expected) => -expected
  }

  // The account of one operation: what the wallets and the pot gain, the bank loses.
  ghost predicate Settles(players: seq<Player>, pending: Pending, bankGain: int) {
    && SumDeltas(pending.changes) + JackpotDelta(pending.jackpot) + bankGain == 0
    && (forall i, j :: 0 <= i < j < |pending.changes| ==> pending.changes[i].player != pending.changes[j].player)
    && (forall c :: c in pending.changes ==> ReadFrom(players, c))
  }

  // What an operation writes beside the wallets.
  predicate Writes(pending: Pending, kind: Kind, pot: JackpotMove, tiles: bool, redeemed: Option<nat>) {
    pending.kind == kind && pending.jackpot == pot && pending.bankrupt.None? && pending.redeemed == redeemed &&
    (!tiles ==> pending.registryChanges == []) && (kind != MORTGAGE ==> pending.newMortgage.None?)
  }

  lemma TransferSum(from: Option<PlayerId>, to: Option<PlayerId>, amount: int)
    ensures SumOf(TransferDeltas(from, to, amount)) ==
            (if to.Some? then amount else 0) - (if from.Some? then amount else 0)
  {
    var deltas := TransferDeltas(from, to, amount);
    if from.Some? && to.Some? {
      assert deltas[1..] == [(to.value, amount)];
      assert SumOf(deltas) == -amount + SumOf(deltas[1..]);
    }
  }
  lemma {:induction false} SumOfAppend(deltas: seq<Delta>, d: Delta)
    ensures SumOf(deltas + [d]) == SumOf(deltas) + d.1
  {
    if deltas == [] { assert deltas + [d] == [d]; } else {
      assert (deltas + [d])[1..] == deltas[1..] + [d];
      SumOfAppend(deltas[1..], d);
    }
  }
  lemma {:induction false} EqualShares(deltas: seq<Delta>, each: int)
    requires forall i :: 0 <= i < |deltas| ==> deltas[i].1 == each
    ensures SumOf(deltas) == each * |deltas|
  {
    if deltas != [] {
      EqualShares(deltas[1..], each);
      Distribute(each, |deltas| - 1);
    }
  }
  // Whatever one player pays to everyone, everyone receives, and the other way round.
  lemma FansBalance(player: PlayerId, others: seq<Player>, each: int)
    ensures SumOf(FanOutDeltas(player, others, each)) == 0
    ensures SumOf(FanInDeltas(player, others, each)) == 0
  {
    var out := seq(|others|, i requires 0 <= i < |others| => (others[i].id, each));
    var back := seq(|others|, i requires 0 <= i < |others| => (others[i].id, -each));
    EqualShares(out, each);
    EqualShares(back, -each);
    assert FanOutDeltas(player, others, each)[1..] == out;
    SumOfAppend(back, (player, each * |others|));
    Negated(each, |others|);
  }

  function DeltaFor(changes: seq<BalanceChange>, id: PlayerId): int {
    if changes == [] then 0 else (if changes[0].player == id then changes[0].delta else 0) + DeltaFor(changes[1..], id)
  }
  // Who pays, who is paid, and nobody else.
  ghost predicate Transfers(changes: seq<BalanceChange>, from: Option<PlayerId>, to: Option<PlayerId>, amount: int) {
    forall id: PlayerId :: DeltaFor(changes, id) ==
        (if to == Some(id) then amount else 0) - (if from == Some(id) then amount else 0)
  }
  ghost predicate FansOut(changes: seq<BalanceChange>, payer: PlayerId, others: seq<Player>, each: int) {
    forall id: PlayerId :: DeltaFor(changes, id) ==
        (if id == payer then -each * |others| else if IdIn(others, id) then each else 0)
  }
  lemma DeltaForTwo(changes: seq<BalanceChange>, id: PlayerId)
    requires |changes| <= 2
    ensures DeltaFor(changes, id) == (if |changes| > 0 && changes[0].player == id then changes[0].delta else 0) +
            (if |changes| > 1 && changes[1].player == id then changes[1].delta else 0)
  {
    if |changes| > 0 {
      assert DeltaFor(changes[1..], id) == if |changes| > 1 && changes[1].player == id then changes[1].delta else 0;
    }
  }
  lemma TransfersFrom(changes: seq<BalanceChange>, from: Option<PlayerId>, to: Option<PlayerId>, amount: int)
    requires |changes| == |TransferDeltas(from, to, amount)|
    requires forall i :: 0 <= i < |changes| ==>
             changes[i].player == TransferDeltas(from, to, amount)[i].0 &&
             changes[i].delta == TransferDeltas(from, to, amount)[i].1
    ensures Transfers(changes, from, to, amount)
  {
    forall id: PlayerId
      ensures DeltaFor(changes, id) == (if to == Some(id) then amount else 0) - (if from == Some(id) then amount else 0)
    {
      DeltaForTwo(changes, id);
    }
  }
  lemma {:induction false} DeltaForDistinct(changes: seq<BalanceChange>, id: PlayerId)
    requires forall i, j :: 0 <= i < j < |changes| ==> changes[i].player != changes[j].player
    ensures (forall c :: c in changes ==> c.player != id) ==> DeltaFor(changes, id) == 0
    ensures forall c :: c in changes && c.player == id ==> DeltaFor(changes, id) == c.delta
  {
    if changes != [] {
      DeltaForDistinct(changes[1..], id);
      if changes[0].player == id {
        forall c | c in changes[1..]
          ensures c.player != id
        {
          var j :| 0 <= j < |changes[1..]| && changes[1..][j] == c;
        }
      }
    }
  }
  lemma Fanned(changes: seq<BalanceChange>, player: PlayerId, others: seq<Player>, each: int, total: int)
    requires forall i, j :: 0 <= i < j < |changes| ==> changes[i].player != changes[j].player
    requires exists c :: c in changes && c.player == player && c.delta == total
    requires forall p :: p in others ==> exists c :: c in changes && c.player == p.id && c.delta == each
    requires forall c :: c in changes ==> c.player == player || IdIn(others, c.player)
    requires forall p :: p in others ==> p.id != player
    ensures forall id: PlayerId ::
              DeltaFor(changes, id) == (if id == player then total else if IdIn(others, id) then each else 0)
  {
    forall id: PlayerId
      ensures DeltaFor(changes, id) == (if id == player then total else if IdIn(others, id) then each else 0)
    {
      DeltaForDistinct(changes, id);
      if id != player && IdIn(others, id) {
        var i :| 0 <= i < |others| && others[i].id == id;
        var c :| c in changes && c.player == others[i].id && c.delta == each;
      }
    }
  }
  lemma FanOutAt(payer: PlayerId, others: seq<Player>, each: int, i: nat)
    requires i <= |others|
    ensures |FanOutDeltas(payer, others, each)| == |others| + 1
    ensures FanOutDeltas(payer, others, each)[i] == if i == 0 then (payer, -each * |others|)
                                                    else (others[i - 1].id, each)
  {}
  ghost predicate Follows(changes: seq<BalanceChange>, deltas: seq<Delta>) {
    |changes| == |deltas| && forall i :: 0 <= i < |changes| ==>
        changes[i].player == deltas[i].0 && changes[i].delta == deltas[i].1
  }
  lemma FannedOut(changes: seq<BalanceChange>, payer: PlayerId, others: seq<Player>, each: int)
    requires DistinctPlayers(others) && (forall p :: p in others ==> p.id != payer) &&
             Follows(changes, FanOutDeltas(payer, others, each))
    ensures FansOut(changes, payer, others, each)
  {
    hide FanOutDeltas, DeltaFor;
    var total := -each * |others|;
    FanOutAt(payer, others, each, 0);
    assert changes[0] in changes;
    forall i: nat | i < |others|
      ensures changes[i + 1] in changes && changes[i + 1].player == others[i].id && changes[i + 1].delta == each
    {
      FanOutAt(payer, others, each, i + 1);
    }
    forall p | p in others ensures exists c :: c in changes && c.player == p.id && c.delta == each {
      var i :| 0 <= i < |others| && others[i] == p;
      assert changes[i + 1] in changes;
    }
    forall c | c in changes ensures c.player == payer || IdIn(others, c.player) {
      var i :| 0 <= i < |changes| && changes[i] == c;
      if i > 0 { assert others[i - 1].id == changes[i - 1 + 1].player; }
    }
    ChangesDistinct(changes, payer, others);
    Fanned(changes, payer, others, each, total);
  }
  // The fan's players are distinct whichever end the single player stands at.
  lemma ChangesDistinct(changes: seq<BalanceChange>, player: PlayerId, others: seq<Player>)
    requires DistinctPlayers(others) && (forall p :: p in others ==> p.id != player) && |changes| == |others| + 1
    requires changes[0].player == player && forall i: nat :: i < |others| ==> changes[i + 1].player == others[i].id
    ensures forall i, j :: 0 <= i < j < |changes| ==> changes[i].player != changes[j].player
  {
    forall i, j | 0 <= i < j < |changes| ensures changes[i].player != changes[j].player {
      assert changes[j - 1 + 1].player == others[j - 1].id && others[j - 1] in others;
      if i > 0 { assert changes[i - 1 + 1].player == others[i - 1].id; }
    }
  }
  lemma FannedIn(changes: seq<BalanceChange>, recipient: PlayerId, others: seq<Player>, each: int)
    requires DistinctPlayers(others) && forall p :: p in others ==> p.id != recipient
    requires |changes| == |others| + 1
    requires forall i :: 0 <= i < |changes| ==>
             changes[i].player == FanInDeltas(recipient, others, each)[i].0 &&
             changes[i].delta == FanInDeltas(recipient, others, each)[i].1
    ensures FansOut(changes, recipient, others, -each)
  {
    assert changes[|others|] in changes;
    forall p | p in others ensures exists c :: c in changes && c.player == p.id && c.delta == -each {
      var i :| 0 <= i < |others| && others[i] == p;
      assert changes[i] in changes;
    }
    forall c | c in changes ensures c.player == recipient || IdIn(others, c.player) {
      var i :| 0 <= i < |changes| && changes[i] == c;
      if i < |others| { assert others[i].id == c.player; }
    }
    Fanned(changes, recipient, others, -each, each * |others|);
    assert -(-each) * |others| == each * |others|;
  }
  // A wallet that can take the change and stay a non-negative safe integer.
  predicate Bears(players: seq<Player>, id: Option<PlayerId>, delta: int) {
    id.Some? ==>
        FindPlayer(players, id.value).Ok? && 0 <= FindPlayer(players, id.value).value.balance + delta <= MAX_SAFE
  }
  function Transfer(players: seq<Player>, from: Option<PlayerId>, to: Option<PlayerId>,
          amount: int): (r: Outcomes<seq<BalanceChange>>)
    ensures r.Ok? <==> Bears(players, from, -amount) && Bears(players, to, amount)
    ensures r.Ok? ==> SumDeltas(r.value) == (if to.Some? then amount else 0) - (if from.Some? then amount else 0)
    ensures r.Ok? ==> forall c :: c in r.value ==> ReadFrom(players, c)
    ensures r.Ok? && from != to ==> forall i, j :: 0 <= i < j < |r.value| ==> r.value[i].player != r.value[j].player
    ensures r.Ok? ==> Transfers(r.value, from, to, amount)
    ensures r.Ok? ==> |r.value| == (if from.Some? then 1 else 0) + (if to.Some? then 1 else 0)
    ensures r.Ok? && from.Some? ==> r.value[0].player == from.value
    ensures r.Ok? && from.None? && to.Some? ==> r.value[0].player == to.value
  {
    TransferSum(from, to, amount);
    TransferBorne(players, from, to, amount);
    var changes :- ApplyDeltas(players, TransferDeltas(from, to, amount));
    TransfersFrom(changes, from, to, amount);
    Ok(changes)
  }
  lemma TransferBorne(players: seq<Player>, from: Option<PlayerId>, to: Option<PlayerId>, amount: int)
    ensures ApplyDeltas(players, TransferDeltas(from, to, amount)).Ok? <==>
            Bears(players, from, -amount) && Bears(players, to, amount)
  {
    hide FindPlayer;
    var deltas := TransferDeltas(from, to, amount);
    if deltas != [] {
      BorneOne(players, deltas);
      var rest: seq<Delta> := deltas[1..];
      if rest != [] {
        BorneOne(players, rest);
        var none: seq<Delta> := rest[1..];
        assert none == [];
      }
    }
  }
  lemma BorneOne(players: seq<Player>, deltas: seq<Delta>)
    requires deltas != []
    ensures ApplyDeltas(players, deltas).Ok? <==>
            Bears(players, Some(deltas[0].0), deltas[0].1) && ApplyDeltas(players, deltas[1..]).Ok?
    ensures ApplyDeltas(players, []).Ok?
  {
    hide FindPlayer;
  }

  function Others(players: seq<Player>, id: PlayerId): (r: seq<Player>)
    ensures forall p :: p in r ==> p in players && p.id != id
  {
    if players == [] then []
    else (if players[0].id != id && !players[0].bankrupt then [players[0]] else []) + Others(players[1..], id)
  }
  lemma {:induction false} OthersDistinct(players: seq<Player>, id: PlayerId)
    requires DistinctPlayers(players)
    ensures DistinctPlayers(Others(players, id))
  {
    if players != [] {
      OthersDistinct(players[1..], id);
      var rest := Others(players[1..], id);
      forall j | 0 <= j < |rest| ensures players[0].id != rest[j].id { assert rest[j] in players[1..]; }
    }
  }
  predicate CanAllPay(payers: seq<Player>, each: int) { forall p :: p in payers ==> p.balance >= each }

  // ----- Between players -----

  function PlayerToPlayer(game: Game, players: seq<Player>, source: PlayerId, destination: PlayerId,
          amount: int): (r: Outcomes<Pending>)
    ensures r.Ok? ==> Settles(players, r.value, 0)
    ensures r.Ok? ==> Transfers(r.value.changes, Some(source), Some(destination), amount)
    ensures r.Ok? ==> Writes(r.value, PLAYER_TO_PLAYER, Unmoved, false, None)
  {
    var _ :- ValidateGame(game, players);
    var _ :- ValidateAmount(amount);
    var pair :- FindBothActive(players, source, destination);
    var _ :- EnsureFunds(pair.0, amount);
    var changes :- Transfer(players, Some(source), Some(destination), amount);
    Ok(Simple(PLAYER_TO_PLAYER, amount, amount, changes))
  }

  function PlayerToAll(game: Game, players: seq<Player>, payer: PlayerId, each: int): (r: Outcomes<Pending>)
    ensures r.Ok? ==> Settles(players, r.value, 0)
    ensures r.Ok? ==> FansOut(r.value.changes, payer, Others(players, payer), each)
    ensures r.Ok? ==> Writes(r.value, PLAYER_TO_ALL, Unmoved, false, None)
  {
    var _ :- ValidateGame(game, players);
    var _ :- ValidateAmount(each);
    var from :- FindActive(players, payer);
    var recipients := Others(players, payer);
    if recipients == [] then Err(NoOtherActivePlayers)
    else
      var total :- Multiply(each, |recipients|);
      var _ :- EnsureFunds(from, total);
      ValidGameIsSound(game, players);
      OthersDistinct(players, payer);
      FansBalance(payer, recipients, each);
      var changes :- ApplyDeltas(players, FanOutDeltas(payer, recipients, each));
      FannedOut(changes, payer, recipients, each);
      Ok(Simple(PLAYER_TO_ALL, each, total, changes))
  }

  function AllToPlayer(game: Game, players: seq<Player>, recipient: PlayerId, each: int): (r: Outcomes<Pending>)
    ensures r.Ok? ==> Settles(players, r.value, 0)
    ensures r.Ok? ==> FansOut(r.value.changes, recipient, Others(players, recipient), -each)
    ensures r.Ok? ==> Writes(r.value, ALL_TO_PLAYER, Unmoved, false, None)
  {
    var _ :- ValidateGame(game, players);
    var _ :- ValidateAmount(each);
    var to :- FindActive(players, recipient);
    var payers := Others(players, recipient);
    if payers == [] then Err(NoOtherActivePlayers)
    else if !CanAllPay(payers, each) then Err(InsufficientFunds)
    else
      var total :- Multiply(each, |payers|);
      ValidGameIsSound(game, players);
      OthersDistinct(players, recipient);
      FansBalance(recipient, payers, each);
      var changes :- ApplyDeltas(players, FanInDeltas(recipient, payers, each));
      FannedIn(changes, recipient, payers, each);
      Ok(Simple(ALL_TO_PLAYER, each, total, changes))
  }

  // ----- Between a player and the bank -----

  function PlayerToBank(game: Game, players: seq<Player>, id: PlayerId, amount: int): (r: Outcomes<Pending>)
    ensures r.Ok? ==> Settles(players, r.value, amount)
    ensures r.Ok? ==> Transfers(r.value.changes, Some(id), None, amount)
    ensures r.Ok? ==> Writes(r.value, PLAYER_TO_BANK, Unmoved, false, None)
  {
    var _ :- ValidateGame(game, players);
    var _ :- ValidateAmount(amount);
    var player :- FindActive(players, id);
    var _ :- EnsureFunds(player, amount);
    var changes :- Transfer(players, Some(id), None, amount);
    Ok(Simple(PLAYER_TO_BANK, amount, amount, changes))
  }

  function BankToPlayer(game: Game, players: seq<Player>, id: PlayerId, amount: int): (r: Outcomes<Pending>)
    ensures r.Ok? ==> Settles(players, r.value, -amount)
    ensures r.Ok? ==> Transfers(r.value.changes, None, Some(id), amount)
    ensures r.Ok? ==> Writes(r.value, BANK_TO_PLAYER, Unmoved, false, None)
  {
    var _ :- ValidateGame(game, players);
    var _ :- ValidateAmount(amount);
    if amount > BANK_TO_PLAYER_MAX then Err(BankToPlayerLimitExceeded)
    else
      var player :- FindActive(players, id);
      var changes :- Transfer(players, None, Some(id), amount);
      Ok(Simple(BANK_TO_PLAYER, amount, amount, changes))
  }

  function GoReward(game: Game, exact: bool): int { game.passGoReward * if exact then 2 else 1 }

  function PassGo(game: Game, players: seq<Player>, id: PlayerId, exact: bool): (r: Outcomes<Pending>)
    ensures r.Ok? ==> Settles(players, r.value, -GoReward(game, exact))
    ensures r.Ok? ==> Transfers(r.value.changes, None, Some(id), GoReward(game, exact))
    ensures r.Ok? ==> Writes(r.value, PASS_GO, Unmoved, false, None)
  {
    var _ :- ValidateGame(game, players);
    var _ :- ValidateAmount(game.passGoReward);
    var player :- FindActive(players, id);
    var reward :- Multiply(game.passGoReward, if exact then 2 else 1);
    var changes :- Transfer(players, None, Some(id), reward);
    Ok(Simple(PASS_GO, reward, reward, changes))
  }

  function ToJackpot(game: Game, players: seq<Player>, id: PlayerId, amount: int): (r: Outcomes<Pending>)
    ensures r.Ok? ==> Settles(players, r.value, 0)
    ensures r.Ok? ==> Transfers(r.value.changes, Some(id), None, amount)
    ensures r.Ok? ==> Writes(r.value, TO_JACKPOT, Deposit(amount), false, None)
  {
    var _ :- ValidateGame(game, players);
    var _ :- ValidateAmount(amount);
    var player :- FindActive(players, id);
    var _ :- EnsureFunds(player, amount);
    var changes :- Transfer(players, Some(id), None, amount);
    Ok(Simple(TO_JACKPOT, amount, amount, changes).(jackpot := Deposit(amount)))
  }

  function JackpotPayout(game: Game, players: seq<Player>, id: PlayerId, jackpot: int,
          expected: int): (r: Outcomes<Pending>)
    ensures r.Ok? ==> Settles(players, r.value, 0)
    ensures r.Ok? ==> Transfers(r.value.changes, None, Some(id), jackpot)
    ensures r.Ok? ==> Writes(r.value, JACKPOT_PAYOUT, Collect(jackpot), false, None)
  {
    var _ :- ValidateGame(game, players);
    var player :- FindActive(players, id);
    if jackpot == 0 then Err(JackpotEmpty)
    else
      var _ :- ValidateAmount(jackpot);
      if jackpot != expected then Err(JackpotChanged)
      else
        var changes :- Transfer(players, None, Some(id), jackpot);
        Ok(Simple(JACKPOT_PAYOUT, jackpot, jackpot, changes).(jackpot := Collect(jackpot)))
  }

  // ----- Loans -----

  function IssueLoan(game: Game, players: seq<Player>, lender: PlayerId, borrower: PlayerId,
          amount: int): (r: Outcomes<Pending>)
    ensures r.Ok? ==> Settles(players, r.value, 0)
    ensures r.Ok? ==> Transfers(r.value.changes, Some(lender), Some(borrower), amount)
    ensures r.Ok? ==> Writes(r.value, LOAN_ISSUE, Unmoved, false, None)
  {
    var _ :- ValidateGame(game, players);
    var _ :- ValidateAmount(amount);
    var pair :- FindBothActive(players, lender, borrower);
    var _ :- EnsureFunds(pair.0, amount);
    var changes :- Transfer(players, Some(lender), Some(borrower), amount);
    Ok(Simple(LOAN_ISSUE, amount, amount, changes))
  }

  function Outstanding(loan: Loan): int { loan.principal - loan.repaid }

  // Nobody lends to themselves: a constraint of the loans table.
  predicate SoundLoan(loan: Loan) { loan.lender != Some(loan.borrower) }

  function RepayLoan(game: Game, players: seq<Player>, id: PlayerId, loan: Loan, amount: int): (r: Outcomes<Pending>)
    requires SoundLoan(loan)
    ensures r.Ok? ==> Settles(players, r.value, 0) && amount <= Outstanding(loan)
    ensures r.Ok? ==> Transfers(r.value.changes, Some(id), loan.lender, amount)
    ensures r.Ok? ==> Writes(r.value, LOAN_REPAYMENT, Unmoved, false, None)
  {
    var _ :- ValidateGame(game, players);
    if loan.gameId != game.id || loan.borrower != id || !loan.active || loan.lender.None? then Err(LoanNotFound)
    else
      var _ :- ValidateAmount(amount);
      if amount > Outstanding(loan) then Err(LoanAmountExceedsDebt)
      else
        var borrower :- FindPlayer(players, id);
        var lender :- FindPlayer(players, loan.lender.value);
        if borrower.bankrupt || lender.bankrupt then Err(PlayerBankrupt)
        else
          var _ :- EnsureFunds(borrower, amount);
          var changes :- Transfer(players, Some(id), loan.lender, amount);
          Ok(Simple(LOAN_REPAYMENT, amount, amount, changes))
  }

  // The principal times the rate, rounded half up.
  function BankLoanInterest(principal: int, rate: nat): Outcomes<int> {
    if principal <= 0 || principal > MAX_SAFE || !Safe(principal * rate + 50) then Err(PrincipalOutOfRange)
    else Ok((principal * rate + 50) / 100)
  }

  function IssueBankLoan(game: Game, players: seq<Player>, id: PlayerId, amount: int, hasBankLoan: bool, cooling: bool,
          acknowledged: bool): (r: Outcomes<Pending>)
    ensures r.Ok? ==> Settles(players, r.value, -amount)
    ensures r.Ok? ==> Transfers(r.value.changes, None, Some(id), amount)
    ensures r.Ok? ==> Writes(r.value, LOAN_ISSUE, Unmoved, false, None)
  {
    var _ :- ValidateGame(game, players);
    var _ :- ValidateAmount(amount);
    if amount > game.bankLoanMax then Err(BankLoanLimitExceeded)
    else
      var borrower :- FindActive(players, id);
      if hasBankLoan then Err(BankLoanAlreadyActive)
      else if cooling && !acknowledged then Err(BankLoanCooldown)
      else
        var changes :- Transfer(players, None, Some(id), amount);
        Ok(Simple(LOAN_ISSUE, amount, amount, changes))
  }

  function RepayBankLoan(game: Game, players: seq<Player>, id: PlayerId, loan: Loan, amount: int,
          rate: nat): (r: Outcomes<Pending>)
    ensures r.Ok? ==> amount == Outstanding(loan) && BankLoanInterest(amount, rate).Ok?
    ensures r.Ok? ==> Settles(players, r.value, amount + BankLoanInterest(amount, rate).value)
    ensures r.Ok? ==> Transfers(r.value.changes, Some(id), None, amount + BankLoanInterest(amount, rate).value)
    ensures r.Ok? ==> Writes(r.value, LOAN_REPAYMENT, Unmoved, false, None)
  {
    var _ :- ValidateGame(game, players);
    if loan.gameId != game.id || loan.borrower != id || !loan.active || loan.lender.Some? then Err(LoanNotFound)
    else
      var _ :- ValidateAmount(amount);
      if amount != Outstanding(loan) then Err(BankLoanFullRepaymentRequired)
      else
        var interest :- BankLoanInterest(Outstanding(loan), rate);
        var total := Outstanding(loan) + interest;
        var _ :- ValidateAmount(total);
        var borrower :- FindActive(players, id);
        var _ :- EnsureFunds(borrower, total);
        var changes :- Transfer(players, Some(id), None, total);
        Ok(Simple(LOAN_REPAYMENT, total, total, changes))
  }

  // ----- Tiles -----

  function WithProperty(pending: Pending, tileId: TileId, changes: seq<PropertyChange>): Pending {
    pending.(tileId := Some(tileId), registryChanges := changes)
  }

  function PropertyPurchase(game: Game, players: seq<Player>, board: Board, registry: Registry, id: PlayerId,
          tileId: TileId, override: Option<int>): (r: Outcomes<Pending>)
    ensures r.Ok? ==> FindTile(board.tiles, tileId).Some? && StateOf(registry, tileId).owner.None?
    ensures r.Ok? ==>
            Settles(players, r.value, if override.Some? then override.value
                                      else FindTile(board.tiles, tileId).value.price)
    ensures r.Ok? ==>
            r.value.registryChanges == [OwnerChange(tileId, StateOf(registry, tileId), Some(id))] &&
            IsActive(players, id)
    ensures r.Ok? ==>
            Transfers(r.value.changes, Some(id), None, if override.Some? then override.value
                                                       else FindTile(board.tiles, tileId).value.price)
    ensures r.Ok? ==> Writes(r.value, PROPERTY_PURCHASE, Unmoved, true, None)
  {
    var _ :- ValidateGame(game, players);
    var tile :- RequireTile(board, tileId);
    var _ :- ValidateAmount(tile.price);
    var _ :- if override.Some? then ValidateAmount(override.value) else Ok(());
    var price := if override.Some? then override.value else tile.price;
    var state := StateOf(registry, tileId);
    if state.owner.Some? then Err(PropertyAlreadyOwned)
    else
      var player :- FindActive(players, id);
      var _ :- EnsureFunds(player, price);
      var changes :- Transfer(players, Some(id), None, price);
      Ok(WithProperty(Simple(PROPERTY_PURCHASE, price, price, changes), tileId, [OwnerChange(tileId, state, Some(id))]))
  }

  // The winner pays the winning bid; a tile passes to them if it is still unowned.
  function AuctionPayment(game: Game, players: seq<Player>, board: Board, registry: Registry, id: PlayerId,
          amount: int, lot: Option<TileId>): (r: Outcomes<Pending>)
    ensures r.Ok? ==> Settles(players, r.value, amount)
    ensures r.Ok? && lot.Some? ==> FindTile(board.tiles, lot.value).Some? && StateOf(registry, lot.value).owner.None?
    ensures r.Ok? && lot.Some? ==>
            r.value.registryChanges == [OwnerChange(lot.value, StateOf(registry, lot.value), Some(id))]
    ensures r.Ok? && lot.None? ==> r.value.registryChanges == []
    ensures r.Ok? ==> IsActive(players, id)
    ensures r.Ok? ==> Transfers(r.value.changes, Some(id), None, amount)
    ensures r.Ok? ==> Writes(r.value, if lot.None? then AUCTION_PAYMENT else PROPERTY_PURCHASE, Unmoved, true, None)
  {
    var _ :- ValidateGame(game, players);
    var _ :- ValidateAmount(amount);
    var player :- FindActive(players, id);
    var _ :- EnsureFunds(player, amount);
    var changes :- Transfer(players, Some(id), None, amount);
    if lot.None? then Ok(Simple(AUCTION_PAYMENT, amount, amount, changes))
    else
      var _ :- RequireTile(board, lot.value);
      var state := StateOf(registry, lot.value);
      if state.owner.Some? then Err(PropertyAlreadyOwned)
      else
        Ok(WithProperty(Simple(PROPERTY_PURCHASE, amount, amount, changes), lot.value,
            [OwnerChange(lot.value, state, Some(id))]))
  }

  // `name` is the key of the property name, if anything usable is left of it once normalized.
  function MortgageProperty(game: Game, players: seq<Player>, id: PlayerId, name: Option<nat>,
          amount: int): (r: Outcomes<Pending>)
    ensures r.Ok? ==> Settles(players, r.value, -amount) && name.Some?
    ensures r.Ok? ==> r.value.newMortgage == Some(NewMortgage(id, name.value, amount, None)) && r.value.tileId.None?
    ensures r.Ok? ==> Transfers(r.value.changes, None, Some(id), amount)
    ensures r.Ok? ==> Writes(r.value, MORTGAGE, Unmoved, false, None)
  {
    var _ :- ValidateGame(game, players);
    var _ :- ValidateAmount(amount);
    var _ :- ValidateAmount(RedemptionCost(amount));
    if name.None? then Err(InvalidPropertyName)
    else
      var player :- FindActive(players, id);
      var changes :- Transfer(players, None, Some(id), amount);
      Ok(Simple(MORTGAGE, amount, amount, changes).(newMortgage := Some(NewMortgage(id, name.value, amount, None))))
  }

  function MortgageTile(game: Game, players: seq<Player>, board: Board, registry: Registry, id: PlayerId,
          tileId: TileId): (r: Outcomes<Pending>)
    ensures r.Ok? ==>
            CheckCanMortgage(board, registry, tileId, id).Ok? && FindTile(board.tiles, tileId).Some? &&
            FindTile(board.tiles, tileId).value.name.Some?
    ensures r.Ok? ==> Settles(players, r.value, -FindTile(board.tiles, tileId).value.mortgage)
    ensures r.Ok? ==> r.value.registryChanges == [MortgageChange(tileId, StateOf(registry, tileId), true)]
    ensures r.Ok? ==>
            var t := FindTile(board.tiles, tileId).value;
            r.value.newMortgage == Some(NewMortgage(id, t.name.value, t.mortgage, Some(tileId)))
    ensures r.Ok? ==> r.value.tileId == Some(tileId)
    ensures r.Ok? ==> Transfers(r.value.changes, None, Some(id), FindTile(board.tiles, tileId).value.mortgage)
    ensures r.Ok? ==> Writes(r.value, MORTGAGE, Unmoved, true, None)
  {
    var tile :- RequireTile(board, tileId);
    if !game.active then Err(InvalidGameState)
    else
      var _ :- CheckCanMortgage(board, registry, tileId, id);
      var pending :- MortgageProperty(game, players, id, tile.name, tile.mortgage);
      Ok(WithProperty(pending, tileId, [MortgageChange(tileId, StateOf(registry, tileId), true)])
         .(newMortgage := Some(NewMortgage(id, tile.name.value, tile.mortgage, Some(tileId)))))
  }

  function RedeemMortgage(game: Game, players: seq<Player>, registry: Registry, id: PlayerId, mortgageId: nat,
          mortgage: Mortgage): (r: Outcomes<Pending>)
    ensures r.Ok? ==> Settles(players, r.value, RedemptionCost(mortgage.value))
    ensures r.Ok? && mortgage.tile.Some? ==>
            var state := StateOf(registry, mortgage.tile.value);
            state.owner == Some(id) && state.mortgaged &&
                r.value.registryChanges == [MortgageChange(mortgage.tile.value, state, false)]
    ensures r.Ok? && mortgage.tile.None? ==> r.value.registryChanges == []
    ensures r.Ok? ==> Transfers(r.value.changes, Some(id), None, RedemptionCost(mortgage.value))
    ensures r.Ok? ==>
            Writes(r.value, MORTGAGE_REDEMPTION, Unmoved, true, Some(mortgageId)) && r.value.tileId == mortgage.tile
    ensures r.Ok? ==> mortgage.gameId == game.id && mortgage.player == id
  {
    var _ :- ValidateGame(game, players);
    if mortgage.gameId != game.id || mortgage.player != id then Err(MortgageNotFound)
    else
      var cost := RedemptionCost(mortgage.value);
      var _ :- ValidateAmount(cost);
      var player :- FindActive(players, id);
      var _ :- EnsureFunds(player, cost);
      var changes :- Transfer(players, Some(id), None, cost);
      var redeemed := Simple(MORTGAGE_REDEMPTION, cost, cost, changes).(redeemed := Some(mortgageId));
      if mortgage.tile.None? then Ok(redeemed)
      else
        var state := StateOf(registry, mortgage.tile.value);
        if state.owner != Some(id) || !state.mortgaged then Err(PropertyNotOwned)
        else Ok(WithProperty(redeemed, mortgage.tile.value, [MortgageChange(mortgage.tile.value, state, false)]))
  }

  function PayRent(game: Game, players: seq<Player>, board: Board, registry: Registry, payer: PlayerId, tileId: TileId,
          diceSum: Option<int>): (r: Outcomes<Pending>)
    ensures r.Ok? ==> Settles(players, r.value, 0)
    ensures r.Ok? ==> RentFor(board, registry, tileId, diceSum) == Ok(r.value.amount)
    ensures r.Ok? ==> Transfers(r.value.changes, Some(payer), StateOf(registry, tileId).owner, r.value.amount)
    ensures r.Ok? ==> Writes(r.value, PAY_RENT, Unmoved, false, None)
  {
    var _ :- ValidateGame(game, players);
    var tile :- RequireTile(board, tileId);
    var state := StateOf(registry, tileId);
    if tile.kind != Utility && diceSum.Some? then Err(DiceSum)
    else if state.owner.None? then Err(PropertyNotOwned)
    else if state.mortgaged then Err(PropertyMortgaged)
    else
      var pair :- FindBothActive(players, payer, state.owner.value);
      var _ :- if diceSum.Some? then ValidateAmount(diceSum.value) else Ok(());
      var rent :- RentFor(board, registry, tileId, diceSum);
      var _ :- ValidateAmount(rent);
      var _ :- EnsureFunds(pair.0, rent);
      var changes :- Transfer(players, Some(payer), state.owner, rent);
      Ok(Simple(PAY_RENT, rent, rent, changes).(tileId := Some(tileId)))
  }

  // ----- Buildings -----

  // A command names one street, for a single step, or the final levels of several.
  datatype Works = OneStreet(tileId: TileId) | Streets(targets: Targets)

  function BuildingTargets(registry: Registry, works: Works, direction: Direction): Outcomes<Targets> {
    match works
    case Streets(targets) => Ok(targets)
    case OneStreet(tileId) =>
      var houses := StateOf(registry, tileId).houses;
      if direction == Build && houses >= MAX_BUILDINGS then Err(MaxBuildings)
      else if direction == Sell && houses == 0 then Err(NoBuildings)
      else Ok([(tileId, if direction == Build then houses + 1 else houses - 1)])
  }

  function BuildProperty(game: Game, players: seq<Player>, board: Board, registry: Registry, id: PlayerId,
          works: Works): (r: Outcomes<Pending>)
    ensures r.Ok? ==> BuildingTargets(registry, works, Build).Ok?
    ensures r.Ok? ==> PlanBuildings(board, registry, id, BuildingTargets(registry, works, Build).value, Build).Ok?
    ensures r.Ok? ==>
            r.value.registryChanges == PlanBuildings(board, registry, id,
            BuildingTargets(registry, works, Build).value, Build).value.changes
    ensures r.Ok? ==>
            Settles(players, r.value, PlanPrice(board, r.value.registryChanges, Build)) && IsActive(players, id)
    ensures r.Ok? ==> |r.value.changes| == 1 && r.value.changes[0].player == id
    ensures r.Ok? ==> Transfers(r.value.changes, Some(id), None, PlanPrice(board, r.value.registryChanges, Build))
    ensures r.Ok? ==> Writes(r.value, PROPERTY_BUILD, Unmoved, true, None)
  {
    var _ :- ValidateGame(game, players);
    var targets :- BuildingTargets(registry, works, Build);
    var plan :- PlanBuildings(board, registry, id, targets, Build);
    var cost := PlanPrice(board, plan.changes, Build);
    var _ :- ValidateAmount(cost);
    var player :- FindActive(players, id);
    var _ :- EnsureFunds(player, cost);
    var changes :- Transfer(players, Some(id), None, cost);
    Ok(WithBuildings(Simple(PROPERTY_BUILD, cost, cost, changes), plan))
  }
  function WithBuildings(pending: Pending, plan: Plan): Pending {
    pending.(registryChanges := plan.changes, tileId := if plan.changes == [] then None
                                                        else Some(plan.changes[0].tileId))
  }

  function SellBuilding(game: Game, players: seq<Player>, board: Board, registry: Registry, id: PlayerId,
          works: Works): (r: Outcomes<Pending>)
    ensures r.Ok? ==> BuildingTargets(registry, works, Sell).Ok?
    ensures r.Ok? ==> PlanBuildings(board, registry, id, BuildingTargets(registry, works, Sell).value, Sell).Ok?
    ensures r.Ok? ==>
            r.value.registryChanges == PlanBuildings(board, registry, id, BuildingTargets(registry, works, Sell).value,
            Sell).value.changes
    ensures r.Ok? ==>
            Settles(players, r.value, -PlanPrice(board, r.value.registryChanges, Sell)) && IsActive(players, id)
    ensures r.Ok? ==> |r.value.changes| == 1 && r.value.changes[0].player == id
    ensures r.Ok? ==> Transfers(r.value.changes, None, Some(id), PlanPrice(board, r.value.registryChanges, Sell))
    ensures r.Ok? ==> Writes(r.value, PROPERTY_SELL_BUILDING, Unmoved, true, None)
  {
    var _ :- ValidateGame(game, players);
    var targets :- BuildingTargets(registry, works, Sell);
    var plan :- PlanBuildings(board, registry, id, targets, Sell);
    var refund := PlanPrice(board, plan.changes, Sell);
    var _ :- ValidateAmount(refund);
    var player :- FindActive(players, id);
    var changes :- Transfer(players, None, Some(id), refund);
    Ok(WithBuildings(Simple(PROPERTY_SELL_BUILDING, refund, refund, changes), plan))
  }

  // ----- Trades -----

  // One side of a trade: every tile must belong to the giver, its group bare of buildings; the
  // receiver owes the bank a fee for each mortgaged one.
  function MoveTile(board: Board, registry: Registry, tileId: TileId, from: PlayerId,
          to: PlayerId): Outcomes<(PropertyChange, int)> {
    var tile :- RequireTile(board, tileId);
    var state := StateOf(registry, tileId);
    if state.owner != Some(from) then Err(PropertyNotOwned)
    else if GroupHasBuildings(GroupOf(board.tiles, tile.group), registry) then Err(PropertyHasBuildings)
    else Ok((OwnerChange(tileId, state, Some(to)), if state.mortgaged then TransferFee(tile) else 0))
  }
  function MoveTiles(board: Board, registry: Registry, tileIds: seq<TileId>, from: PlayerId,
          to: PlayerId): (r: Outcomes<(seq<PropertyChange>, int)>)
    ensures r.Ok? ==> |r.value.0| == |tileIds|
    ensures r.Ok? ==> forall i :: 0 <= i < |tileIds| ==>
              MoveTile(board, registry, tileIds[i], from, to).Ok? &&
                  r.value.0[i] == MoveTile(board, registry, tileIds[i], from, to).value.0
  {
    if tileIds == [] then Ok(([], 0))
    else
      var first :- MoveTile(board, registry, tileIds[0], from, to);
      var rest :- MoveTiles(board, registry, tileIds[1..], from, to);
      Ok(([first.0] + rest.0, first.1 + rest.1))
  }
  predicate Repeats(tileIds: seq<TileId>) { exists i, j :: 0 <= i < j < |tileIds| && tileIds[i] == tileIds[j] }
  predicate ValidCash(cash: int) { 0 <= cash <= MAX_SAFE }

  datatype Trade = Trade(proposer: PlayerId, counterparty: PlayerId, give: seq<TileId>, take: seq<TileId>,
          cashGive: int, cashTake: int)
  datatype Moves = Moves(changes: seq<PropertyChange>, proposerFee: int, counterpartyFee: int)

  function TradeMoves(board: Board, registry: Registry, trade: Trade): (r: Outcomes<Moves>) {
    var given :- MoveTiles(board, registry, trade.give, trade.proposer, trade.counterparty);
    var taken :- MoveTiles(board, registry, trade.take, trade.counterparty, trade.proposer);
    Ok(Moves(given.0 + taken.0, taken.1, given.1))
  }
  // Each side gets the other's cash, less its own and the fee for what it receives; nobody else pays.
  ghost predicate PaysTrade(changes: seq<BalanceChange>, trade: Trade, moves: Moves) {
    forall id: PlayerId :: DeltaFor(changes, id) ==
      (if id == trade.proposer then trade.cashTake - trade.cashGive - moves.proposerFee
       else if id == trade.counterparty then trade.cashGive - trade.cashTake - moves.counterpartyFee else 0)
  }
  function EnsureNet(player: Player, delta: int): Outcomes<()> {
    if delta < 0 then EnsureFunds(player, -delta) else Ok(())
  }

  function TransferProperties(game: Game, players: seq<Player>, board: Board, registry: Registry,
          trade: Trade): (r: Outcomes<Pending>)
    ensures r.Ok? ==> TradeMoves(board, registry, trade).Ok?
    ensures r.Ok? ==> var moves := TradeMoves(board, registry, trade).value;
              r.value.registryChanges == moves.changes &&
                  Settles(players, r.value, moves.proposerFee + moves.counterpartyFee)
    ensures r.Ok? ==>
            !Repeats(trade.give + trade.take) && IsActive(players, trade.proposer) &&
            IsActive(players, trade.counterparty)
    ensures r.Ok? ==> PaysTrade(r.value.changes, trade, TradeMoves(board, registry, trade).value)
    ensures r.Ok? ==>
              |r.value.changes| == 2 && r.value.changes[0].player == trade.proposer &&
              r.value.changes[1].player == trade.counterparty
    ensures r.Ok? ==> Writes(r.value, PROPERTY_TRANSFER, Unmoved, true, None)
  {
    var _ :- ValidateGame(game, players);
    var pair :- FindBothActive(players, trade.proposer, trade.counterparty);
    if !ValidCash(trade.cashGive) || !ValidCash(trade.cashTake) then Err(InvalidAmount)
    else if trade.give + trade.take == [] || Repeats(trade.give + trade.take) then Err(InvalidTrade)
    else
      var moves :- TradeMoves(board, registry, trade);
      var proposerDelta := trade.cashTake - trade.cashGive - moves.proposerFee;
      var counterpartyDelta := trade.cashGive - trade.cashTake - moves.counterpartyFee;
      var _ :- EnsureNet(pair.0, proposerDelta);
      var _ :- EnsureNet(pair.1, counterpartyDelta);
      var net := Magnitude(trade.cashGive - trade.cashTake);
      var one :- CreateBalanceChange(pair.0, proposerDelta);
      var other :- CreateBalanceChange(pair.1, counterpartyDelta);
      PairSum(one, other);
      PairShares(one, other, trade, moves);
      Ok(Simple(PROPERTY_TRANSFER, net, net, [one, other]).(registryChanges := moves.changes))
  }
  lemma PairSum(one: BalanceChange, other: BalanceChange)
    ensures SumDeltas([one, other]) == one.delta + other.delta
  {
    assert [one, other][1..] == [other];
    assert SumDeltas([one, other]) == one.delta + SumDeltas([other]);
  }

  lemma PairShares(one: BalanceChange, other: BalanceChange, trade: Trade, moves: Moves)
    requires one.player == trade.proposer != trade.counterparty == other.player
    requires one.delta == trade.cashTake - trade.cashGive - moves.proposerFee
    requires other.delta == trade.cashGive - trade.cashTake - moves.counterpartyFee
    ensures PaysTrade([one, other], trade, moves)
  {
    forall id: PlayerId
      ensures DeltaFor([one, other], id) == (if id == one.player then one.delta
              else if id == other.player then other.delta else 0)
    {
      DeltaForTwo([one, other], id);
    }
  }

  // ----- Bankruptcy -----

  datatype Preview = Preview(tileCount: nat, buildings: int, proceeds: int, creditorFee: int)

  function PreviewRow(board: Board, row: Row, id: PlayerId, hasCreditor: bool): Preview
  {
    if row.state.owner != Some(id) then Preview(0, 0, 0, 0)
    else Preview(1, row.state.houses, row.state.houses * SellRefund(board, row.tileId),
                 if hasCreditor && row.state.mortgaged && FindTile(board.tiles, row.tileId).Some?
                 then TransferFee(FindTile(board.tiles, row.tileId).value) else 0)
  }
  function AddPreview(a: Preview, b: Preview): Preview {
    Preview(a.tileCount + b.tileCount, a.buildings + b.buildings, a.proceeds + b.proceeds,
        a.creditorFee + b.creditorFee)
  }
  function BankruptcyPreview(board: Board, registry: Registry, id: PlayerId, hasCreditor: bool): Preview
  {
    if registry == [] then Preview(0, 0, 0, 0)
    else
      AddPreview(PreviewRow(board, registry[0], id, hasCreditor),
          BankruptcyPreview(board, registry[1..], id, hasCreditor))
  }
  function HandOver(row: Row, creditor: Option<PlayerId>): PropertyChange {
    PropertyChange(row.tileId, row.state, PropertyState(creditor, creditor.Some? && row.state.mortgaged, 0))
  }
  function HandOvers(registry: Registry, id: PlayerId, creditor: Option<PlayerId>): seq<PropertyChange> {
    if registry == [] then []
    else
      (if registry[0].state.owner == Some(id) then [HandOver(registry[0], creditor)] else []) +
          HandOvers(registry[1..], id, creditor)
  }

  function Least(a: int, b: int): int { if a < b then a else b }

  // The bank takes what the wallet covers of the debt, principal first.
  function SettleBankLoan(game: Game, id: PlayerId, loan: Loan, rate: nat, wallet: int): (r: Outcomes<Settlement>)
    ensures r.Ok? && 0 <= wallet && 0 <= loan.repaid <= loan.principal ==>
              var taken := r.value.paidPrincipal + r.value.paidInterest;
              0 <= r.value.paidPrincipal && 0 <= r.value.paidInterest && taken <= wallet &&
              (r.value.paidInterest > 0 ==> r.value.paidPrincipal == Outstanding(loan)) &&
              (r.value.outcome == Repaid <==> wallet >= Outstanding(loan))
  {
    if loan.gameId != game.id || loan.borrower != id || !loan.active || loan.lender.Some? then Err(LoanNotFound)
    else
      var interest :- BankLoanInterest(loan.principal, rate);
      var outstanding := Outstanding(loan);
      var taken := Least(wallet, outstanding + interest);
      var paid := Least(taken, outstanding);
      Ok(Settlement(loan.id, if paid == outstanding then Repaid else WrittenOff, paid, taken - paid))
  }

  function FindCreditor(players: seq<Player>, id: PlayerId, creditor: Option<PlayerId>): (r: Outcomes<Option<Player>>)
    ensures r.Ok? ==> (r.value.Some? <==> creditor.Some?)
    ensures r.Ok? && creditor.Some? ==>
            r.value.value in players && r.value.value.id == creditor.value != id && !r.value.value.bankrupt
  {
    if creditor.None? then Ok(None)
    else
      var player :- FindActive(players, creditor.value);
      if creditor.value == id then Err(SameSourceAndDestination) else Ok(Some(player))
  }

  function WalletChange(player: Option<Player>, delta: int): (r: Outcomes<seq<BalanceChange>>)
    ensures r.Ok? ==> |r.value| <= 1 && SumDeltas(r.value) == if player.Some? then delta else 0
    ensures r.Ok? ==>
            forall c :: c in r.value ==>
              player.Some? && c == BalanceChange(player.value.id, player.value.balance, delta) &&
              0 <= c.before + c.delta <= MAX_SAFE
  {
    if player.None? || delta == 0 then Ok([])
    else
      var change :- CreateBalanceChange(player.value, delta);
      Ok([change])
  }
  // A wallet read as empty is not named at all.
  ghost predicate Empties(changes: seq<BalanceChange>, player: Player) {
    (forall c :: c in changes && c.player == player.id ==>
        player.balance != 0 && c.delta == -player.balance && c.before == player.balance) &&
    (player.balance != 0 ==> exists c :: c in changes && c.player == player.id)
  }
  // The wallet is emptied and the creditor, if any, gets the net; nothing is written for a zero.
  function BankruptcyChanges(players: seq<Player>, player: Player, heir: Option<Player>,
          net: int): (r: Outcomes<seq<BalanceChange>>)
    requires player in players && (heir.Some? ==> heir.value in players && heir.value.id != player.id)
    ensures r.Ok? ==> SumDeltas(r.value) == -player.balance + if heir.Some? then net else 0
    ensures r.Ok? ==> forall c :: c in r.value ==> ReadFrom(players, c)
    ensures r.Ok? ==> forall i, j :: 0 <= i < j < |r.value| ==> r.value[i].player != r.value[j].player
    ensures r.Ok? ==> Empties(r.value, player)
  {
    var own :- WalletChange(Some(player), -player.balance);
    var others :- WalletChange(heir, net);
    BankruptcySum(own, others);
    Ok(own + others)
  }
  lemma BankruptcySum(own: seq<BalanceChange>, others: seq<BalanceChange>)
    requires |own| <= 1 && |others| <= 1
    ensures SumDeltas(own + others) == SumDeltas(own) + SumDeltas(others)
  {
    if own == [] { assert own + others == others; }
    else if others != [] { PairSum(own[0], others[0]); assert own + others == [own[0], others[0]]; }
    else { assert own + others == own; }
  }

  // What the bank gains from a bankruptcy: its loan first, then the fee of a creditor or, without
  // one, the rest of the wallet; the buildings it buys back cost it.
  function BankruptcyGain(wallet: int, preview: Preview, bankTake: int, hasCreditor: bool): int {
    bankTake - preview.proceeds + if hasCreditor then preview.creditorFee else wallet - bankTake
  }

  predicate RowsOnBoard(board: Board, registry: Registry, id: PlayerId) {
    forall row :: row in registry && row.state.owner == Some(id) ==> FindTile(board.tiles, row.tileId).Some?
  }
  function OptionalSettlement(game: Game, id: PlayerId, loan: Option<(Loan, nat)>,
          wallet: int): Outcomes<Option<Settlement>> {
    if loan.None? then Ok(None)
    else
      var settlement :- SettleBankLoan(game, id, loan.value.0, loan.value.1, wallet);
      Ok(Some(settlement))
  }
  function BankTake(settlement: Option<Settlement>): int {
    if settlement.None? then 0 else settlement.value.paidPrincipal + settlement.value.paidInterest
  }

  function DeclareBankruptcy(game: Game, players: seq<Player>, board: Board, registry: Registry, id: PlayerId,
          creditor: Option<PlayerId>, loan: Option<(Loan, nat)>): Outcomes<Pending>
  {
    var _ :- ValidateGame(game, players);
    var player :- FindActive(players, id);
    var heir :- FindCreditor(players, id, creditor);
    if !RowsOnBoard(board, registry, id) then Err(TileNotFound)
    else
      var preview := BankruptcyPreview(board, registry, id, creditor.Some?);
      var wallet := player.balance + preview.proceeds;
      var settlement :- OptionalSettlement(game, id, loan, wallet);
      var net := wallet - BankTake(settlement) - preview.creditorFee;
      if heir.Some? && heir.value.balance + net < 0 then Err(CreditorShort)
      else
        var changes :- BankruptcyChanges(players, player, heir, net);
        var amount := if wallet == 0 then 1 else wallet;
        Ok(Simple(BANKRUPTCY_TRANSFER, amount, amount, changes)
           .(registryChanges := HandOvers(registry, id, creditor), settlement := settlement, bankrupt := Some(id),
               heir := creditor))
  }

  lemma BankruptcyAccount(game: Game, players: seq<Player>, board: Board, registry: Registry, id: PlayerId,
          creditor: Option<PlayerId>, loan: Option<(Loan, nat)>)
    requires DeclareBankruptcy(game, players, board, registry, id, creditor, loan).Ok?
    ensures FindActive(players, id).Ok? && creditor != Some(id) &&
            (creditor.Some? ==> IsActive(players, creditor.value))
    ensures var pending := DeclareBankruptcy(game, players, board, registry, id, creditor, loan).value;
            var preview := BankruptcyPreview(board, registry, id, creditor.Some?);
            var wallet := FindActive(players, id).value.balance + preview.proceeds;
            && pending.kind == BANKRUPTCY_TRANSFER && pending.bankrupt == Some(id) && pending.heir == creditor &&
                pending.redeemed.None? && pending.newMortgage.None? && pending.jackpot == Unmoved
            && pending.registryChanges == HandOvers(registry, id, creditor)
            && OptionalSettlement(game, id, loan, wallet) == Ok(pending.settlement)
            && Empties(pending.changes, FindActive(players, id).value)
            && Settles(players, pending, BankruptcyGain(wallet, preview, BankTake(pending.settlement), creditor.Some?))
  {
    hide BankruptcyPreview, OptionalSettlement, BankTake, ValidateGame, FindActive, BankruptcyChanges, HandOvers,
      RowsOnBoard;
  }

  // ----- The loops -----

  lemma {:induction false} PreviewAppend(board: Board, registry: Registry, row: Row, id: PlayerId, hasCreditor: bool)
    ensures BankruptcyPreview(board, registry + [row], id, hasCreditor) ==
            AddPreview(BankruptcyPreview(board, registry, id, hasCreditor), PreviewRow(board, row, id, hasCreditor))
  {
    hide PreviewRow;
    if registry == [] { assert registry + [row] == [row]; } else {
      assert (registry + [row])[1..] == registry[1..] + [row];
      PreviewAppend(board, registry[1..], row, id, hasCreditor);
    }
  }

  method PreviewBankruptcy(board: Board, registry: Registry, id: PlayerId, hasCreditor: bool) returns (preview: Preview)
    requires RowsOnBoard(board, registry, id)
    ensures preview == BankruptcyPreview(board, registry, id, hasCreditor)
  {
    hide PreviewRow, RowsOnBoard;
    preview := Preview(0, 0, 0, 0);
    for k := 0 to |registry|
      invariant preview == BankruptcyPreview(board, registry[..k], id, hasCreditor)
    {
      assert registry[..k + 1] == registry[..k] + [registry[k]];
      PreviewAppend(board, registry[..k], registry[k], id, hasCreditor);
      preview := AddRow(preview, board, registry, k, id, hasCreditor);
    }
    assert registry[..|registry|] == registry;
  }
  method AddRow(start: Preview, board: Board, registry: Registry, k: nat, id: PlayerId,
          hasCreditor: bool) returns (preview: Preview)
    requires RowsOnBoard(board, registry, id) && k < |registry|
    ensures preview == AddPreview(start, PreviewRow(board, registry[k], id, hasCreditor))
  {
    hide SellRefund, TransferFee, FindTile;
    preview := start;
    var row := registry[k];
    if row.state.owner != Some(id) { return; }
    assert row in registry;
    preview := preview.(tileCount := preview.tileCount + 1, buildings := preview.buildings + row.state.houses,
                        proceeds := preview.proceeds + row.state.houses * SellRefund(board, row.tileId));
    if hasCreditor && row.state.mortgaged {
      preview := preview.(creditorFee := preview.creditorFee + TransferFee(FindTile(board.tiles, row.tileId).value));
    }
  }

  method CheckGame(game: Game, players: seq<Player>) returns (r: Outcomes<()>)
    ensures r == ValidateGame(game, players)
    ensures r.Ok? <==> SoundGame(game, players)
  {
    ValidGameIsSound(game, players);
    if !game.active { return Err(InvalidGameState); }
    if |players| < 2 || |players| > 6 { return Err(InvalidGameState); }
    var ids: set<PlayerId> := {};
    hide SoundPlayer;
    for k := 0 to |players|
      invariant forall id :: id in ids <==> IdIn(players[..k], id)
      invariant ValidatePlayers(game, [], players) == ValidatePlayers(game, players[..k], players[k..])
    {
      if !SoundPlayer(game, players[k]) { return Err(InvalidGameState); }
      if players[k].id in ids { return Err(InvalidGameState); }
      assert players[..k + 1] == players[..k] + [players[k]];
      assert players[k..][1..] == players[k + 1..];
      IdInAppend(players[..k], players[k]);
      ids := ids + {players[k].id};
    }
    r := Ok(());
  }
  lemma IdInAppend(players: seq<Player>, p: Player)
    ensures forall id :: IdIn(players + [p], id) <==> IdIn(players, id) || id == p.id
  {
    forall id ensures IdIn(players + [p], id) <==> IdIn(players, id) || id == p.id {
      if IdIn(players, id) {
        var i :| 0 <= i < |players| && players[i].id == id;
        assert (players + [p])[i].id == id;
      }
      assert (players + [p])[|players|] == p;
    }
  }

  // The accumulating loops of a trade: one pass over the tiles given, one over the tiles taken.
  method CollectMoves(board: Board, registry: Registry, trade: Trade) returns (r: Outcomes<Moves>)
    ensures r == TradeMoves(board, registry, trade)
  {
    hide MoveTile, MoveTiles;
    var changes := [];
    var given := CollectSide(board, registry, trade.give, trade.proposer, trade.counterparty, changes);
    if given.Err? { return Err(given.error); }
    changes := given.value.0;
    var taken := CollectSide(board, registry, trade.take, trade.counterparty, trade.proposer, changes);
    if taken.Err? { return Err(taken.error); }
    assert [] + MoveTiles(board, registry, trade.give, trade.proposer, trade.counterparty).value.0 ==
        MoveTiles(board, registry, trade.give, trade.proposer, trade.counterparty).value.0;
    r := Ok(Moves(taken.value.0, taken.value.1, given.value.1));
  }
  method CollectSide(board: Board, registry: Registry, tileIds: seq<TileId>, from: PlayerId, to: PlayerId,
          start: seq<PropertyChange>)
    returns (r: Outcomes<(seq<PropertyChange>, int)>)
    ensures r == PrependMoves(start, 0, MoveTiles(board, registry, tileIds, from, to))
  {
    hide MoveTile;
    var changes, fee := start, 0;
    assert tileIds[0..] == tileIds;
    for k := 0 to |tileIds|
      invariant PrependMoves(start, 0, MoveTiles(board, registry, tileIds, from, to)) ==
                PrependMoves(changes, fee, MoveTiles(board, registry, tileIds[k..], from, to))
    {
      assert tileIds[k..][1..] == tileIds[k + 1..];
      var moved := MoveTile(board, registry, tileIds[k], from, to);
      if moved.Err? { return Err(moved.error); }
      PrependMove(changes, fee, moved.value, MoveTiles(board, registry, tileIds[k + 1..], from, to));
      changes, fee := changes + [moved.value.0], fee + moved.value.1;
    }
    assert changes + [] == changes;
    r := Ok((changes, fee));
  }
  function PrependMoves(changes: seq<PropertyChange>, fee: int,
          rest: Outcomes<(seq<PropertyChange>, int)>): Outcomes<(seq<PropertyChange>, int)> {
    if rest.Ok? then Ok((changes + rest.value.0, fee + rest.value.1)) else rest
  }
  lemma PrependMove(changes: seq<PropertyChange>, fee: int, move: (PropertyChange, int),
          rest: Outcomes<(seq<PropertyChange>, int)>)
    ensures rest.Ok? ==> changes + ([move.0] + rest.value.0) == changes + [move.0] + rest.value.0
  {}

  // ----- Exactly when an operation is accepted -----

  predicate Active(players: seq<Player>, id: PlayerId) { FindActive(players, id).Ok? }
  function Cash(players: seq<Player>, id: PlayerId): int {
    if Active(players, id) then FindActive(players, id).value.balance else 0
  }
  predicate ValidAmount(amount: int) { 0 < amount <= MAX_SAFE }

  lemma {:induction false} FoundSound(game: Game, players: seq<Player>, id: PlayerId)
    requires SoundGame(game, players) && FindPlayer(players, id).Ok?
    ensures 0 <= FindPlayer(players, id).value.balance <= MAX_SAFE
  {
    assert SoundPlayer(game, FindPlayer(players, id).value);
  }

  lemma PlayerToPlayerIsAccepted(game: Game, players: seq<Player>, source: PlayerId, destination: PlayerId, amount: int)
    ensures PlayerToPlayer(game, players, source, destination, amount).Ok? <==>
            SoundGame(game, players) && ValidAmount(amount) && source != destination && Active(players, source) &&
                Active(players, destination) &&
            Cash(players, source) >= amount && Cash(players, destination) + amount <= MAX_SAFE
  {
    hide ValidateGame, FindPlayer, Settles, Transfers, Transfer, SoundGame;
    ValidGameIsSound(game, players);
    if SoundGame(game, players) {
      if FindPlayer(players, source).Ok? { FoundSound(game, players, source); }
      if FindPlayer(players, destination).Ok? { FoundSound(game, players, destination); }
    }
  }
  lemma PlayerToBankIsAccepted(game: Game, players: seq<Player>, id: PlayerId, amount: int)
    ensures PlayerToBank(game, players, id, amount).Ok? <==>
            SoundGame(game, players) && ValidAmount(amount) && Active(players, id) && Cash(players, id) >= amount
    ensures ToJackpot(game, players, id, amount).Ok? <==> PlayerToBank(game, players, id, amount).Ok?
  {
    hide ValidateGame, FindPlayer, Settles, Transfers, Transfer, SoundGame;
    ValidGameIsSound(game, players);
    if SoundGame(game, players) && FindPlayer(players, id).Ok? { FoundSound(game, players, id); }
  }
  lemma JackpotPayoutIsAccepted(game: Game, players: seq<Player>, id: PlayerId, jackpot: int, expected: int)
    ensures JackpotPayout(game, players, id, jackpot, expected).Ok? <==>
            SoundGame(game, players) && ValidAmount(jackpot) && jackpot == expected && Active(players, id) &&
                Cash(players, id) + jackpot <= MAX_SAFE
  {
    hide ValidateGame, FindPlayer, Settles, Transfers, Transfer, SoundGame;
    ValidGameIsSound(game, players);
    if SoundGame(game, players) && FindPlayer(players, id).Ok? { FoundSound(game, players, id); }
  }
  lemma PropertyPurchaseIsAccepted(game: Game, players: seq<Player>, board: Board, registry: Registry, id: PlayerId,
          tileId: TileId, override: Option<int>)
    ensures PropertyPurchase(game, players, board, registry, id, tileId, override).Ok? <==>
            SoundGame(game, players) && FindTile(board.tiles, tileId).Some? && StateOf(registry, tileId).owner.None? &&
                Active(players, id) &&
            (var tile := FindTile(board.tiles, tileId).value;
             var price := if override.Some? then override.value else tile.price;
             ValidAmount(tile.price) && ValidAmount(price) && Cash(players, id) >= price)
  {
    hide ValidateGame, FindPlayer, Settles, Transfers, Transfer, SoundGame, FindTile, StateOf;
    ValidGameIsSound(game, players);
    if SoundGame(game, players) && FindPlayer(players, id).Ok? { FoundSound(game, players, id); }
  }
  lemma RepayBankLoanIsAccepted(game: Game, players: seq<Player>, id: PlayerId, loan: Loan, amount: int, rate: nat)
    ensures RepayBankLoan(game, players, id, loan, amount, rate).Ok? <==>
            SoundGame(game, players) && loan.gameId == game.id && loan.borrower == id && loan.active &&
                loan.lender.None? &&
            ValidAmount(amount) && amount == Outstanding(loan) && BankLoanInterest(amount, rate).Ok? &&
                Active(players, id) &&
            (var total := amount + BankLoanInterest(amount, rate).value;
                ValidAmount(total) && Cash(players, id) >= total)
  {
    hide ValidateGame, FindPlayer, Settles, Transfers, Transfer, SoundGame, BankLoanInterest;
    ValidGameIsSound(game, players);
    if SoundGame(game, players) && FindPlayer(players, id).Ok? { FoundSound(game, players, id); }
  }
}
