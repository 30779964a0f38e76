/** Runs of operations and reversals: what every reversal gives back, and that no run makes or loses
    money. */
module ReversalRuns {
  import opened Results
  import opened Property
  import opened Banking
  import opened BankState
  import opened BankRuns
  import opened Reversal

  datatype Ledger = Ledger(bank: State, log: seq<Entry>)
  datatype Action = Do(op: Operation) | Reverse(original: nat)

  function Deltas(changes: seq<BalanceChange>): (r: seq<Delta>)
    ensures |r| == |changes|
  {
    seq(|changes|, i requires 0 <= i < |changes| => (changes[i].player, changes[i].delta))
  }
  function EntryOf(s: State, pending: Pending): Entry {
    Entry(pending.kind, pending.tileId, Deltas(pending.changes), pending.amount, pending.total,
        pending.registryChanges, None, None,
          if pending.redeemed.Some? then pending.redeemed
          else if pending.newMortgage.Some? then Some(|s.mortgages|) else None, s.registry)
  }

  function GroupIds(board: Board, id: TileId): (r: seq<TileId>) {
    match FindTile(board.tiles, id)
    case None => []
    case Some(tile) => var group := GroupOf(board.tiles, tile.group);
        seq(|group|, i requires 0 <= i < |group| => group[i].id)
  }
  function GroupTileIds(board: Board, tiles: seq<TileId>): seq<TileId> {
    if tiles == [] then [] else GroupIds(board, tiles[0]) + GroupTileIds(board, tiles[1..])
  }

  function UndoOf(l: Ledger, i: nat): Outcomes<Undo>
    requires i < |l.log|
  {
    ReverseTransaction(l.bank.game, l.bank.players, l.log[i], l.log[i + 1..],
        GroupTileIds(l.bank.board, TilesOf(l.log[i])))
  }
  // A mortgage record that is no longer as the original left it breaks the batch.
  function FixedRecords(mortgages: seq<Mortgage>, fix: RecordFix): Option<seq<Mortgage>> {
    match fix
    case Untouched => Some(mortgages)
    case Cancel(k) =>
      if k < |mortgages| && mortgages[k].state.InForce? then Some(mortgages[k := mortgages[k].(state := Released)])
      else None
    case Restore(k) =>
      if k < |mortgages| && mortgages[k].state.Redeemed? then Some(mortgages[k := mortgages[k].(state := InForce)])
      else None
  }
  function UndoneBank(l: Ledger, i: nat): Option<State>
    requires i < |l.log|
  {
    var undo := UndoOf(l, i);
    if undo.Err? then None
    else
      var next := Commit(l.bank, undo.value.pending, SumOf(l.log[i].participants));
      if next.None? then None
      else
        var records := FixedRecords(next.value.mortgages, undo.value.fix);
        if records.None? then None else Some(next.value.(mortgages := records.value))
  }
  predicate CanUndo(l: Ledger, i: nat) { i < |l.log| && UndoneBank(l, i).Some? }

  function Next(l: Ledger, a: Action): Ledger {
    match a
    case Do(op) => if Takes(l.bank, l.bank, op)
        then Ledger(Step(l.bank, op), l.log + [EntryOf(l.bank, Perform(l.bank, op).value)]) else l
    case Reverse(i) =>
      if !CanUndo(l, i) then l
      else
        var reversal := EntryOf(l.bank, UndoOf(l, i).value.pending).(reverses := Some(i));
        Ledger(UndoneBank(l, i).value, l.log[i := l.log[i].(reversedBy := Some(|l.log|))] + [reversal])
  }
  function After(l: Ledger, actions: seq<Action>): Ledger
    decreases |actions|
  {
    if actions == [] then l else After(Next(l, actions[0]), actions[1..])
  }

  // ----- No transaction is reversed twice -----

  ghost predicate LinksMatch(log: seq<Entry>) {
    forall k :: 0 <= k < |log| ==> LinkMatches(log, k)
  }
  // A transaction points to the reversal that points to it.
  ghost predicate LinkMatches(log: seq<Entry>, k: nat)
    requires k < |log|
  {
    (log[k].reverses.Some? ==> log[k].reverses.value < k && log[log[k].reverses.value].reversedBy == Some(k)) &&
    (log[k].reversedBy.Some? ==> log[k].reversedBy.value < |log| && log[log[k].reversedBy.value].reverses == Some(k))
  }
  lemma NextKeepsLinks(l: Ledger, a: Action)
    requires LinksMatch(l.log)
    ensures LinksMatch(Next(l, a).log)
  {
    hide Perform, Takes, UndoneBank, Step, ReverseTransaction, EntryOf;
    var next := Next(l, a).log;
    if next != l.log {
      NewEntryLinks(l, a);
      forall k | 0 <= k < |next| ensures LinkMatches(next, k) {
        if k < |l.log| { assert LinkMatches(l.log, k); }
      }
    }
  }
  lemma NewEntryLinks(l: Ledger, a: Action)
    ensures a.Do? ==>
            Next(l, a) == l || (Next(l, a).log[..|l.log|] == l.log && |Next(l, a).log| == |l.log| + 1 &&
            Next(l, a).log[|l.log|].reverses.None? && Next(l, a).log[|l.log|].reversedBy.None?)
    ensures a.Reverse? && Next(l, a) != l ==>
            (a.original < |l.log| && l.log[a.original].reversedBy.None? && |Next(l, a).log| == |l.log| + 1 &&
             Next(l, a).log[..|l.log|] == l.log[a.original := l.log[a.original].(reversedBy := Some(|l.log|))] &&
             Next(l, a).log[|l.log|].reverses == Some(a.original) && Next(l, a).log[|l.log|].reversedBy.None?)
  {
    hide Perform, Takes, Step, Commit, Settles, MoveBack, FindReversalDependency, ReverseTransaction;
    if a.Reverse? && CanUndo(l, a.original) { assert UndoOf(l, a.original).Ok?; }
  }
  lemma {:induction false} ReversedAtMostOnce(l: Ledger, actions: seq<Action>, i: nat, j: nat)
    requires LinksMatch(l.log)
    requires i < |After(l, actions).log| && j < |After(l, actions).log|
    requires After(l, actions).log[i].reverses.Some? &&
             After(l, actions).log[i].reverses == After(l, actions).log[j].reverses
    ensures i == j
    decreases |actions|
  {
    hide Next;
    if actions == [] { assert LinkMatches(l.log, i) && LinkMatches(l.log, j); } else {
      NextKeepsLinks(l, actions[0]);
      ReversedAtMostOnce(Next(l, actions[0]), actions[1..], i, j);
    }
  }

  // ----- What a reversal moves back -----

  function FindDelta(participants: seq<Delta>, id: PlayerId): Option<int> {
    if participants == [] then None
    else if participants[0].0 == id then Some(participants[0].1) else FindDelta(participants[1..], id)
  }
  function DeltaOf(participants: seq<Delta>, id: PlayerId): int {
    match FindDelta(participants, id) case Some(d) => d case None => 0
  }
  lemma {:induction false} MovedBackChange(players: seq<Player>, participants: seq<Delta>, id: PlayerId)
    requires MoveBack(players, participants).Ok?
    ensures var found := FindBalance(MoveBack(players, participants).value, id);
            if FindDelta(participants, id).None? then found.None?
            else found.Some? && found.value.delta == -FindDelta(participants, id).value
  {
    hide FindActive;
    if participants != [] {
      var changes := MoveBack(players, participants).value;
      assert MoveBack(players, participants[1..]).Ok?;
      assert changes[1..] == MoveBack(players, participants[1..]).value;
      MovedBackChange(players, participants[1..], id);
    }
  }
  lemma {:induction false} InvertedFind(changes: seq<PropertyChange>, id: TileId)
    ensures FindChange(InvertChanges(changes), id) ==
            match FindChange(changes, id) case Some(c) => Some(PropertyChange(id, c.after, c.before)) case None => None
  {
    if changes != [] {
      assert InvertChanges(changes)[1..] == InvertChanges(changes[1..]);
      InvertedFind(changes[1..], id);
    }
  }

  // Every wallet moves back by exactly what the original moved it, every changed tile returns from
  // exactly the state the original left to the state it found, and nothing else changes.
  lemma ReversalIsExact(l: Ledger, i: nat)
    requires CanUndo(l, i)
    ensures var e, next := l.log[i], Next(l, Reverse(i)).bank;
            && |next.players| == |l.bank.players|
            && (forall k :: 0 <= k < |next.players| ==>
                next.players[k] == l.bank.players[k].(balance :=
                l.bank.players[k].balance - DeltaOf(e.participants, l.bank.players[k].id)))
            && (forall id :: TileMovedBack(l.bank.registry, next.registry, e.changes, id))
            && next.jackpot == l.bank.jackpot
  {
    hide ReverseTransaction, WalletsStand, MovedMortgages, FindBalance, FindDelta, FindReversalDependency,
      MoveBack, FixedRecords, InvertChanges, Reversible, GroupTileIds, ApplyChanges, Matches, TileMovedBack;
    var e, pending := l.log[i], UndoOf(l, i).value.pending;
    forall k | 0 <= k < |l.bank.players|
      ensures UpdatedPlayer(l.bank.players[k], pending.changes) ==
              l.bank.players[k].(balance := l.bank.players[k].balance - DeltaOf(e.participants, l.bank.players[k].id))
    {
      MovedBackChange(l.bank.players, e.participants, l.bank.players[k].id);
    }
    NobodyBankrupted(UpdatedPlayers(l.bank.players, pending.changes));
    forall id
      ensures TileMovedBack(l.bank.registry, ApplyChanges(l.bank.registry, pending.registryChanges), e.changes, id)
    {
      TileReturns(l.bank.registry, e.changes, id);
    }
  }
  lemma NobodyBankrupted(players: seq<Player>)
    ensures Bankrupted(players, None) == players
  {}
  predicate TileMovedBack(before: Registry, after: Registry, changes: seq<PropertyChange>, id: TileId) {
    match FindChange(changes, id)
    case Some(c) => StateOf(before, id) == c.after && StateOf(after, id) == c.before
    case None => StateOf(after, id) == StateOf(before, id)
  }
  lemma TileReturns(registry: Registry, changes: seq<PropertyChange>, id: TileId)
    requires Matches(registry, InvertChanges(changes))
    ensures TileMovedBack(registry, ApplyChanges(registry, InvertChanges(changes)), changes, id)
  {
    hide FindChange, StateOf, HasRow, ApplyChanges;
    var back := InvertChanges(changes);
    InvertedFind(changes, id);
    StateAfterChanges(registry, back, id);
    FoundChange(back, id);
  }

  // ----- The money over every run -----

  ghost predicate DistinctDeltas(participants: seq<Delta>) {
    forall i, j :: 0 <= i < j < |participants| ==> participants[i].0 != participants[j].0
  }
  ghost predicate EachNamedOnce(log: seq<Entry>) { forall e :: e in log ==> DistinctDeltas(e.participants) }

  lemma ReversalReads(l: Ledger, i: nat)
    requires CanUndo(l, i)
    ensures UndoOf(l, i).Ok? && forall c :: c in UndoOf(l, i).value.pending.changes ==> ReadFrom(l.bank.players, c)
  {
    hide ReverseTransaction, Commit, FixedRecords, GroupTileIds, FindActive, SumDeltas, SumOf;
    var changes := UndoOf(l, i).value.pending.changes;
    forall c | c in changes ensures ReadFrom(l.bank.players, c) {
      var k :| 0 <= k < |changes| && changes[k] == c;
      assert FindActive(l.bank.players, l.log[i].participants[k].0).value in l.bank.players;
    }
  }
  lemma ReversalSettles(l: Ledger, i: nat)
    requires CanUndo(l, i) && DistinctDeltas(l.log[i].participants)
    ensures Settles(l.bank.players, UndoOf(l, i).value.pending, SumOf(l.log[i].participants))
    ensures DistinctDeltas(Deltas(UndoOf(l, i).value.pending.changes))
  {
    hide ReverseTransaction, Commit, FixedRecords, GroupTileIds, FindActive, SumDeltas, SumOf, ReadFrom;
    ReversalReads(l, i);
  }
  lemma ReversalKeepsWalletsSafe(l: Ledger, i: nat)
    requires SafeWallets(l.bank.players) && CanUndo(l, i)
    ensures SafeWallets(Next(l, Reverse(i)).bank.players)
  {
    hide ReverseTransaction, Commit, FixedRecords, GroupTileIds, SumOf, SafeWallets, ReadFrom;
    ReversalReads(l, i);
    CommitKeepsWalletsSafe(l.bank.players, l.bank, UndoOf(l, i).value.pending, SumOf(l.log[i].participants));
  }
  lemma ReversalConserves(l: Ledger, i: nat)
    requires DistinctPlayers(l.bank.players) && SafeWallets(l.bank.players) && CanUndo(l, i) &&
             DistinctDeltas(l.log[i].participants)
    ensures Total(Next(l, Reverse(i)).bank) == Total(l.bank) && SafeWallets(Next(l, Reverse(i)).bank.players)
    ensures DistinctPlayers(Next(l, Reverse(i)).bank.players)
  {
    hide ReverseTransaction, Commit, FixedRecords, GroupTileIds, Settles, SumOf, UpdatedPlayers, DistinctDeltas,
      TileMovedBack, DeltaOf;
    var pending := UndoOf(l, i).value.pending;
    ReversalSettles(l, i);
    CommitConserves(l.bank.players, l.bank, pending, SumOf(l.log[i].participants));
    ReversalKeepsWalletsSafe(l, i);
    ClearedNone(UpdatedPlayers(l.bank.players, pending.changes));
    ReversalIsExact(l, i);
  }
  lemma NextNamesOnce(l: Ledger, a: Action)
    requires EachNamedOnce(l.log)
    ensures EachNamedOnce(Next(l, a).log)
  {
    hide Perform, BankGain, Takes, UndoneBank, Step, ReverseTransaction, DistinctDeltas;
    var next := Next(l, a).log;
    if next != l.log {
      NewEntryNamesOnce(l, a);
      forall k | 0 <= k < |next| ensures DistinctDeltas(next[k].participants) {
        if k < |l.log| { assert l.log[k] in l.log; }
      }
    }
  }
  lemma NewEntryNamesOnce(l: Ledger, a: Action)
    requires EachNamedOnce(l.log) && Next(l, a).log != l.log
    ensures |Next(l, a).log| == |l.log| + 1 && DistinctDeltas(Next(l, a).log[|l.log|].participants)
  {
    hide Perform, BankGain, Takes, UndoneBank, Step, ReverseTransaction, DistinctDeltas, Deltas;
    match a
    case Do(op) => PerformSettlesTaken(l.bank, op);
    case Reverse(i) =>
      assert l.log[i] in l.log;
      ReversalSettles(l, i);
  }
  lemma PerformSettlesTaken(s: State, op: Operation)
    requires Takes(s, s, op)
    ensures Perform(s, op).Ok? && DistinctDeltas(Deltas(Perform(s, op).value.changes))
  {
    hide Perform, BankGain, SumDeltas, ReadFrom, Commit, Effect;
    PerformSettles(s, op);
  }

  lemma NextConserves(l: Ledger, a: Action)
    requires DistinctPlayers(l.bank.players) && SafeWallets(l.bank.players) && EachNamedOnce(l.log)
    ensures Total(Next(l, a).bank) == Total(l.bank) && SafeWallets(Next(l, a).bank.players) &&
            DistinctPlayers(Next(l, a).bank.players)
  {
    hide Perform, Commit, BankGain, Total, SafeWallets, DistinctPlayers, DistinctDeltas, ClearsUnreadMoney,
      UndoneBank, EntryOf, UndoOf;
    match a
    case Do(op) =>
      assert SameTable(l.bank, l.bank);
      MoneyIsConserved(l.bank, l.bank, op);
      FreshReadClearsNothing(l.bank, op);
      CommitKeepsPlayers(l.bank, op);
    case Reverse(i) =>
      if CanUndo(l, i) {
        assert l.log[i] in l.log;
        ReversalConserves(l, i);
      }
  }

  // Over every run of operations, bankruptcies and reversals, wallets, pot and bank account together
  // never change, and wallets stay non-negative safe integers.
  lemma {:induction false} RunConservesMoney(l: Ledger, actions: seq<Action>)
    requires DistinctPlayers(l.bank.players) && SafeWallets(l.bank.players) && EachNamedOnce(l.log)
    ensures Total(After(l, actions).bank) == Total(l.bank) && SafeWallets(After(l, actions).bank.players)
    decreases |actions|
  {
    hide Next, Total, SafeWallets, DistinctPlayers, EachNamedOnce;
    if actions != [] {
      NextConserves(l, actions[0]);
      NextNamesOnce(l, actions[0]);
      RunConservesMoney(Next(l, actions[0]), actions[1..]);
    }
  }
}
