/** Reversing a stored transaction: what blocks it, and what exactly it moves back. */
module Reversal {
  import opened Results
  import opened Property
  import opened Banking
  import opened BankState
  import opened BankRuns

  // A stored transaction. Its place in the log is its identifier; `was` remembers the registry it
  // was written over, which the program does not store.
  datatype Entry = Entry(
    kind: Kind, tile: Option<TileId>, participants: seq<Delta>, amount: int, total: int, changes: seq<PropertyChange>,
    reversedBy: Option<nat>, reverses: Option<nat>, mortgage: Option<nat>, was: Registry)

  predicate ReversibleKind(kind: Kind) {
    kind != REVERSAL && kind != BANKRUPTCY_TRANSFER && kind != LOAN_ISSUE && kind != LOAN_REPAYMENT &&
        kind != TO_JACKPOT && kind != JACKPOT_PAYOUT
  }
  // A mortgage is reversible only when it concerned a tile of the board.
  predicate Reversible(e: Entry) {
    if e.kind == MORTGAGE || e.kind == MORTGAGE_REDEMPTION then e.tile.Some? else ReversibleKind(e.kind)
  }

  predicate Dependent(kind: Kind) {
    kind == MORTGAGE || kind == MORTGAGE_REDEMPTION || kind == LOAN_ISSUE || kind == LOAN_REPAYMENT ||
        kind == AUCTION_PAYMENT ||
    kind == TO_JACKPOT || kind == JACKPOT_PAYOUT || kind == BANKRUPTCY_TRANSFER
  }
  predicate ChangesRegistry(kind: Kind) {
    kind == PROPERTY_PURCHASE || kind == MORTGAGE || kind == MORTGAGE_REDEMPTION || kind == AUCTION_PAYMENT ||
        kind == PAY_RENT ||
    kind == PROPERTY_BUILD || kind == PROPERTY_SELL_BUILDING || kind == PROPERTY_TRANSFER
  }
  // Later operations on the colour group that invalidate an original's effect on it.
  predicate BlocksGroup(original: Kind, candidate: Kind) {
    var works := candidate == PROPERTY_BUILD || candidate == PROPERTY_SELL_BUILDING;
    if original == PROPERTY_PURCHASE || original == AUCTION_PAYMENT ||
        original == PROPERTY_TRANSFER then candidate == PAY_RENT || works
    else if original == PROPERTY_BUILD || original == PROPERTY_SELL_BUILDING then candidate == PAY_RENT || works ||
        candidate == MORTGAGE
    else original == MORTGAGE_REDEMPTION && works
  }

  function ChangedTiles(changes: seq<PropertyChange>): (r: seq<TileId>)
    ensures |r| == |changes|
  {
    seq(|changes|, i requires 0 <= i < |changes| => changes[i].tileId)
  }
  // A trade or a building operation lists every tile it changed; anything else names one at most.
  function TilesOf(e: Entry): seq<TileId> {
    if (e.kind == PROPERTY_TRANSFER || e.kind == PROPERTY_BUILD || e.kind == PROPERTY_SELL_BUILDING) &&
        e.changes != [] then ChangedTiles(e.changes)
    else if e.tile.Some? then [e.tile.value] else []
  }
  predicate Share<T(==)>(a: seq<T>, b: seq<T>) { exists x :: x in a && x in b }
  function Players(participants: seq<Delta>): (r: seq<PlayerId>)
    ensures |r| == |participants|
  {
    seq(|participants|, i requires 0 <= i < |participants| => participants[i].0)
  }
  predicate Blocks(original: Entry, candidate: Entry, groupTiles: seq<TileId>) {
    candidate.reversedBy.None? &&
    ((Dependent(candidate.kind) && Share(Players(candidate.participants), Players(original.participants))) ||
     (ChangesRegistry(candidate.kind) && Share(TilesOf(candidate), TilesOf(original))) ||
     (Share(TilesOf(candidate), groupTiles) && BlocksGroup(original.kind, candidate.kind)))
  }
  function FindReversalDependency(original: Entry, later: seq<Entry>, groupTiles: seq<TileId>): (r: Option<Entry>)
    ensures r.None? <==> forall e :: e in later ==> !Blocks(original, e, groupTiles)
    ensures r.Some? ==> r.value in later && Blocks(original, r.value, groupTiles)
  {
    if later == [] then None
    else if Blocks(original, later[0], groupTiles) then Some(later[0])
    else FindReversalDependency(original, later[1..], groupTiles)
  }

  // Every participant still in the game, and able to give back what they were paid.
  function MoveBack(players: seq<Player>, participants: seq<Delta>): (r: Outcomes<seq<BalanceChange>>)
    ensures r.Ok? ==> |r.value| == |participants|
    ensures r.Ok? ==> forall i :: 0 <= i < |participants| ==>
              FindActive(players, participants[i].0).Ok? &&
              r.value[i] == BalanceChange(participants[i].0, FindActive(players, participants[i].0).value.balance,
                  -participants[i].1) &&
              0 <= r.value[i].before + r.value[i].delta <= MAX_SAFE
    ensures r.Ok? ==> SumDeltas(r.value) == -SumOf(participants)
  {
    if participants == [] then Ok([])
    else
      var player :- FindActive(players, participants[0].0);
      var _ :- if participants[0].1 > 0 then EnsureFunds(player, participants[0].1) else Ok(());
      var change :- CreateBalanceChange(player, -participants[0].1);
      var rest :- MoveBack(players, participants[1..]);
      Ok([change] + rest)
  }

  // An operation that wrote tiles cannot be undone once its changes are lost.
  predicate NeedsChanges(e: Entry) {
    e.kind == PROPERTY_PURCHASE || e.kind == PROPERTY_TRANSFER ||
    (e.tile.Some? && (e.kind == AUCTION_PAYMENT || e.kind == PROPERTY_BUILD || e.kind == PROPERTY_SELL_BUILDING ||
        e.kind == MORTGAGE || e.kind == MORTGAGE_REDEMPTION))
  }
  // Which mortgage record follows: a reversed mortgage is released, a reversed redemption restored.
  datatype RecordFix = Untouched | Cancel(record: nat) | Restore(record: nat)
  function RecordFixOf(e: Entry): Outcomes<RecordFix> {
    if e.tile.None? then Ok(Untouched)
    else if e.kind == MORTGAGE then if e.mortgage.Some? then Ok(Cancel(e.mortgage.value))
         else Err(TransactionNotReversible)
    else if e.kind == MORTGAGE_REDEMPTION then if e.mortgage.Some? then Ok(Restore(e.mortgage.value))
         else Err(TransactionNotReversible)
    else Ok(Untouched)
  }

  datatype Undo = Undo(pending: Pending, fix: RecordFix)

  function ReverseTransaction(game: Game, players: seq<Player>, original: Entry, later: seq<Entry>,
          groupTiles: seq<TileId>): (r: Outcomes<Undo>)
    ensures r.Ok? ==>
            Reversible(original) && original.reversedBy.None? &&
            FindReversalDependency(original, later, groupTiles).None?
    ensures r.Ok? ==> MoveBack(players, original.participants) == Ok(r.value.pending.changes)
    ensures r.Ok? ==>
            r.value.pending.registryChanges == InvertChanges(original.changes) &&
            (NeedsChanges(original) ==> original.changes != [])
    ensures r.Ok? ==>
            r.value.pending.bankrupt.None? && r.value.pending.redeemed.None? && r.value.pending.newMortgage.None? &&
            r.value.pending.jackpot == Unmoved && r.value.pending.kind == REVERSAL
    ensures r.Ok? ==> ValidateGame(game, players).Ok?
  {
    var _ :- ValidateGame(game, players);
    if !Reversible(original) then Err(TransactionNotReversible)
    else if original.reversedBy.Some? then Err(TransactionAlreadyReversed)
    else if FindReversalDependency(original, later, groupTiles).Some? then Err(ReversalBlocked)
    else
      var inverted := InvertChanges(original.changes);
      if inverted == [] && NeedsChanges(original) then Err(TransactionNotReversible)
      else
        var fix :- RecordFixOf(original);
        var changes :- MoveBack(players, original.participants);
        Ok(Undo(Simple(REVERSAL, original.amount, original.total, changes)
                .(registryChanges := inverted, tileId := if inverted == [] then None else original.tile), fix))
  }
}
