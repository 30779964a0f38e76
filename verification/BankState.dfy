/** The stored game: the guarded write that applies an operation, and what no run of operations
    changes, the money. */
module BankState {
  import opened Arithmetic
  import opened Results
  import opened Property
  import opened Banking

  // `bank` is the bank's own account, which the program does not store: every operation credits it
  // by its own formula.
  datatype State = State(game: Game, players: seq<Player>, jackpot: int, board: Board, registry: Registry,
          mortgages: seq<Mortgage>, bank: int)

  // ----- The guarded wallet update -----

  function FindBalance(changes: seq<BalanceChange>, id: PlayerId): Option<BalanceChange> {
    if changes == [] then None else if changes[0].player == id then Some(changes[0]) else FindBalance(changes[1..], id)
  }
  function UpdatedPlayer(player: Player, changes: seq<BalanceChange>): Player {
    match FindBalance(changes, player.id)
    case Some(change) => player.(balance := player.balance + change.delta)
    case None => player
  }
  function UpdatedPlayers(players: seq<Player>, changes: seq<BalanceChange>): (r: seq<Player>)
    ensures |r| == |players|
  {
    seq(|players|, i requires 0 <= i < |players| => UpdatedPlayer(players[i], changes))
  }
  // A wallet that changed since it was read refuses the whole update.
  predicate WalletStands(player: Player, changes: seq<BalanceChange>) {
    match FindBalance(changes, player.id)
    case Some(change) => player.balance == change.before && change.before + change.delta >= 0
    case None => true
  }
  predicate WalletsStand(players: seq<Player>, changes: seq<BalanceChange>) {
    forall i :: 0 <= i < |players| ==> WalletStands(players[i], changes)
  }

  class WalletTable {
    var players: seq<Player>

    constructor (rows: seq<Player>)
      ensures players == rows
    {
      players := rows;
    }

    // All wallets change, or none does.
    method GuardedBalanceUpdate(changes: seq<BalanceChange>) returns (ok: bool)
      modifies this
      ensures ok <==> WalletsStand(old(players), changes)
      ensures players == if ok then UpdatedPlayers(old(players), changes) else old(players)
    {
      var rows := players;
      for k := 0 to |rows|
        invariant players == old(players) && |rows| == |players|
        invariant forall i :: 0 <= i < k ==>
                  WalletStands(old(players)[i], changes) && rows[i] == UpdatedPlayer(old(players)[i], changes)
        invariant forall i :: k <= i < |rows| ==> rows[i] == old(players)[i]
      {
        if !WalletStands(rows[k], changes) { return false; }
        rows := rows[k := UpdatedPlayer(rows[k], changes)];
      }
      players := rows;
      ok := true;
    }
  }

  // ----- The commit -----

  predicate PotStands(jackpot: int, move: JackpotMove) { move.Collect? ==> jackpot == move.expected }

  function Bankrupted(players: seq<Player>, id: Option<PlayerId>): (r: seq<Player>)
    ensures |r| == |players|
  {
    seq(|players|, i requires 0 <= i < |players| =>
      if id == Some(players[i].id) then players[i].(balance := 0, bankrupt := true) else players[i])
  }

  // Redeeming a mortgage that is no longer active breaks the batch.
  predicate RedeemedStands(mortgages: seq<Mortgage>, redeemed: Option<nat>) {
    redeemed.Some? ==> redeemed.value < |mortgages| && mortgages[redeemed.value].state.InForce?
  }
  // A mortgaged tile that changes hands takes its mortgage along.
  predicate Carries(change: PropertyChange) {
    change.before.mortgaged && change.after.mortgaged && change.after.owner.Some? &&
        change.after.owner != change.before.owner
  }
  // A player has an active mortgage of this name.
  predicate HoldsName(mortgages: seq<Mortgage>, player: PlayerId, name: nat) {
    exists i :: 0 <= i < |mortgages| && mortgages[i].state.InForce? && mortgages[i].player == player &&
        mortgages[i].name == name
  }
  // A bankrupt player's mortgage goes to the heir, unless they have one of the same name; every
  // other one is released.
  function BequeathedMortgage(mortgages: seq<Mortgage>, m: Mortgage, bankrupt: PlayerId,
          heir: Option<PlayerId>): Mortgage {
    if m.player != bankrupt then m
    else if heir.Some? && !HoldsName(mortgages, heir.value, m.name) then m.(player := heir.value)
    else m.(state := Released)
  }
  function MovedMortgage(mortgages: seq<Mortgage>, index: nat, pending: Pending): Mortgage
    requires index < |mortgages|
  {
    var m := if pending.redeemed == Some(index) then mortgages[index].(state := Redeemed) else mortgages[index];
    if !m.state.InForce? then m
    else if pending.bankrupt.Some? then BequeathedMortgage(mortgages, m, pending.bankrupt.value, pending.heir)
    else if m.tile.None? then m
    else
      var change := FindChange(pending.registryChanges, m.tile.value);
      if change.Some? && Carries(change.value) then m.(player := change.value.after.owner.value) else m
  }
  function MovedMortgages(mortgages: seq<Mortgage>, pending: Pending): (r: seq<Mortgage>)
    ensures |r| == |mortgages|
  {
    seq(|mortgages|, i requires 0 <= i < |mortgages| => MovedMortgage(mortgages, i, pending))
  }
  function NewRecord(game: Game, pending: Pending): seq<Mortgage> {
    if pending.newMortgage.None? then []
    else var n := pending.newMortgage.value; [Mortgage(game.id, n.player, n.name, n.value, n.tile, InForce)]
  }

  // One atomic batch: every guard holds, or nothing is written.
  function Commit(state: State, pending: Pending, bankGain: int): Option<State> {
    if !WalletsStand(state.players, pending.changes) || !PotStands(state.jackpot, pending.jackpot) ||
       !Matches(state.registry, pending.registryChanges) || !RedeemedStands(state.mortgages, pending.redeemed) then None
    else Some(state.(
      players := Bankrupted(UpdatedPlayers(state.players, pending.changes), pending.bankrupt),
      jackpot := state.jackpot + JackpotDelta(pending.jackpot),
      registry := ApplyChanges(state.registry, pending.registryChanges),
      mortgages := MovedMortgages(state.mortgages, pending) + NewRecord(state.game, pending),
      bank := state.bank + bankGain))
  }

  // ----- Conservation -----

  function Wallets(players: seq<Player>): int {
    if players == [] then 0 else players[0].balance + Wallets(players[1..])
  }
  function Total(state: State): int { Wallets(state.players) + state.jackpot + state.bank }

  // What one row gains, and what all rows of one player gain.
  function Gain(players: seq<Player>, changes: seq<BalanceChange>): int {
    if players == [] then 0
    else
      (match FindBalance(changes, players[0].id) case Some(c) => c.delta case None => 0) + Gain(players[1..], changes)
  }
  function Rows(players: seq<Player>, id: PlayerId): nat {
    if players == [] then 0 else (if players[0].id == id then 1 else 0) + Rows(players[1..], id)
  }

  lemma {:induction false} UpdatedWallets(players: seq<Player>, changes: seq<BalanceChange>)
    ensures Wallets(UpdatedPlayers(players, changes)) == Wallets(players) + Gain(players, changes)
  {
    hide FindBalance;
    if players != [] {
      assert UpdatedPlayers(players, changes)[1..] == UpdatedPlayers(players[1..], changes);
      UpdatedWallets(players[1..], changes);
    }
  }
  lemma {:induction false} NoChangeFor(changes: seq<BalanceChange>, id: PlayerId)
    ensures FindBalance(changes, id).None? <==> forall c :: c in changes ==> c.player != id
    ensures FindBalance(changes, id).Some? ==>
            FindBalance(changes, id).value in changes && FindBalance(changes, id).value.player == id
  {
    if changes != [] { NoChangeFor(changes[1..], id); }
  }
  // Adding a change for a player not yet named adds its delta once per row of that player.
  lemma {:induction false} GainOfOneMore(players: seq<Player>, change: BalanceChange, changes: seq<BalanceChange>)
    requires forall c :: c in changes ==> c.player != change.player
    ensures Gain(players, [change] + changes) == Gain(players, changes) + change.delta * Rows(players, change.player)
  {
    hide FindBalance;
    if players != [] {
      GainOfOneMore(players[1..], change, changes);
      FirstChange(change, changes, players[0].id);
      NoChangeFor(changes, change.player);
      Distribute(change.delta, Rows(players[1..], change.player));
    }
  }
  lemma FirstChange(change: BalanceChange, changes: seq<BalanceChange>, id: PlayerId)
    ensures FindBalance([change] + changes, id) == if change.player == id then Some(change)
                                                   else FindBalance(changes, id)
  {
    assert ([change] + changes)[1..] == changes;
  }
  lemma {:induction false} OneRow(players: seq<Player>, id: PlayerId)
    requires DistinctPlayers(players)
    ensures Rows(players, id) == if IdIn(players, id) then 1 else 0
  {
    if players != [] {
      OneRow(players[1..], id);
      if IdIn(players, id) && players[0].id != id {
        var i :| 0 <= i < |players| && players[i].id == id;
        assert players[1..][i - 1].id == id;
      }
      if IdIn(players[1..], id) {
        var i :| 0 <= i < |players[1..]| && players[1..][i].id == id;
        assert players[i + 1].id == id;
      }
    }
  }
  ghost predicate DistinctBalances(changes: seq<BalanceChange>) {
    forall i, j :: 0 <= i < j < |changes| ==> changes[i].player != changes[j].player
  }
  ghost predicate AllKnown(players: seq<Player>, changes: seq<BalanceChange>) {
    forall c :: c in changes ==> IdIn(players, c.player)
  }

  lemma {:induction false} GainIsSum(players: seq<Player>, changes: seq<BalanceChange>)
    requires DistinctPlayers(players) && DistinctBalances(changes) && AllKnown(players, changes)
    ensures Gain(players, changes) == SumDeltas(changes)
  {
    if changes == [] { GainOfNothing(players); } else {
      assert changes == [changes[0]] + changes[1..];
      GainIsSum(players, changes[1..]);
      GainOfOneMore(players, changes[0], changes[1..]);
      OneRow(players, changes[0].player);
    }
  }
  lemma {:induction false} GainOfNothing(players: seq<Player>)
    ensures Gain(players, []) == 0
  {
    if players != [] { GainOfNothing(players[1..]); }
  }

  // The money in a bankrupt player's wallet when the batch clears it.
  function Cleared(players: seq<Player>, id: Option<PlayerId>): int {
    if players == [] then 0
    else (if id == Some(players[0].id) then players[0].balance else 0) + Cleared(players[1..], id)
  }
  lemma {:induction false} BankruptedWallets(players: seq<Player>, id: Option<PlayerId>)
    ensures Wallets(Bankrupted(players, id)) == Wallets(players) - Cleared(players, id)
  {
    if players != [] {
      assert Bankrupted(players, id)[1..] == Bankrupted(players[1..], id);
      BankruptedWallets(players[1..], id);
    }
  }
  function Forgotten(state: State, pending: Pending): int {
    Cleared(UpdatedPlayers(state.players, pending.changes), pending.bankrupt)
  }

  // The players named by the operation's read are those of the stored game.
  ghost predicate SamePlayers(read: seq<Player>, now: seq<Player>) {
    |read| == |now| && forall i :: 0 <= i < |read| ==> read[i].id == now[i].id
  }

  // However stale the read: a committed operation moves money, and creates or destroys none beyond
  // what a bankruptcy clears.
  lemma CommitConserves(read: seq<Player>, state: State, pending: Pending, bankGain: int)
    requires DistinctPlayers(state.players) && SamePlayers(read, state.players)
    requires Settles(read, pending, bankGain) && Commit(state, pending, bankGain).Some?
    ensures Total(Commit(state, pending, bankGain).value) == Total(state) - Forgotten(state, pending)
  {
    hide UpdatedPlayers, Bankrupted, Gain, WalletsStand, Matches;
    var changes := pending.changes;
    forall c | c in changes ensures IdIn(state.players, c.player) {
      var p :| p in read && p.id == c.player;
      var i :| 0 <= i < |read| && read[i] == p;
      assert state.players[i].id == c.player;
    }
    UpdatedWallets(state.players, changes);
    GainIsSum(state.players, changes);
    BankruptedWallets(UpdatedPlayers(state.players, changes), pending.bankrupt);
  }

  ghost predicate SafeWallets(players: seq<Player>) { forall p :: p in players ==> 0 <= p.balance <= MAX_SAFE }

  lemma CommitKeepsWalletsSafe(read: seq<Player>, state: State, pending: Pending, bankGain: int)
    requires SafeWallets(state.players) && Commit(state, pending, bankGain).Some? && forall c ::
             c in pending.changes ==> ReadFrom(read, c)
    ensures SafeWallets(Commit(state, pending, bankGain).value.players)
  {
    hide FindBalance, Matches, SumDeltas;
    var next := Commit(state, pending, bankGain).value.players;
    forall i | 0 <= i < |next| ensures 0 <= next[i].balance <= MAX_SAFE {
      assert state.players[i] in state.players && WalletStands(state.players[i], pending.changes);
      NoChangeFor(pending.changes, state.players[i].id);
    }
  }
}
