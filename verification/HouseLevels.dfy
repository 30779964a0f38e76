/** Unreversed builds and sales of a colour group form a stack: reversing one gives the whole group
    the house levels it had just before that operation. */
module HouseLevels {
  import opened Results
  import opened Property
  import opened Banking
  import opened BankState
  import opened BankRuns
  import opened Reversal
  import opened ReversalRuns
  import Order = RegistryOrder
  import BuildingPlan

  function Houses(registry: Registry, t: Tile): int { StateOf(registry, t.id).houses }
  function Owner(registry: Registry, t: Tile): Option<PlayerId> { StateOf(registry, t.id).owner }

  predicate InGroup(board: Board, t: Tile, g: nat) { t in board.tiles && t.group == g }

  // A build or a sale in the colour group.
  ghost predicate IsWork(board: Board, e: Entry, g: nat) {
    (e.kind == PROPERTY_BUILD || e.kind == PROPERTY_SELL_BUILDING) && e.changes != [] &&
    exists t :: InGroup(board, t, g) && t.id == e.changes[0].tileId
  }
  ghost predicate Standing(board: Board, e: Entry, g: nat) { IsWork(board, e, g) && e.reversedBy.None? }

  function Worker(e: Entry): Option<PlayerId> { if e.participants == [] then None else Some(e.participants[0].0) }
  function LevelBefore(e: Entry, t: Tile): int { Houses(e.was, t) }
  function LevelAfter(e: Entry, t: Tile): int { Order.After(e.was, e.changes, t.id).houses }

  predicate Bare(registry: Registry, t: Tile) {
    Houses(registry, t) >= 0 && (Owner(registry, t).None? ==> Houses(registry, t) == 0)
  }

  // ----- What is remembered with each entry -----

  // A change that leaves the level alone, and moves the tile only when it is bare.
  predicate KeepsLevel(c: PropertyChange) {
    c.after.houses == c.before.houses && (c.after.owner != c.before.owner ==> c.after.houses == 0)
  }
  ghost predicate WorkSound(board: Board, e: Entry, g: nat) {
    && |e.participants| == 1 && DistinctChanges(e.changes) && Matches(e.was, e.changes)
    && (forall t :: InGroup(board, t, g) ==> Owner(e.was, t) == Worker(e) && LevelBefore(e, t) >= 0)
    && (forall c :: c in e.changes ==>
        c.after == c.before.(houses := c.after.houses) && c.after.houses >= 0 && exists t ::
          InGroup(board, t, g) && t.id == c.tileId)
  }
  ghost predicate EntrySound(board: Board, e: Entry) {
    && (forall g :: IsWork(board, e, g) ==> WorkSound(board, e, g))
    && (e.kind != PROPERTY_BUILD && e.kind != PROPERTY_SELL_BUILDING && e.kind != BANKRUPTCY_TRANSFER &&
        e.kind != REVERSAL ==>
          forall c :: c in e.changes ==> KeepsLevel(c))
    && (e.kind == PROPERTY_BUILD || e.kind == PROPERTY_SELL_BUILDING ==> exists g :: IsWork(board, e, g))
  }
  ghost predicate TableSound(l: Ledger) {
    && DistinctTiles(l.bank.board.tiles) && DistinctRows(l.bank.registry) && DistinctPlayers(l.bank.players)
    && (forall t :: t in l.bank.board.tiles ==> Bare(l.bank.registry, t))
    && (forall i :: 0 <= i < |l.log| ==> EntrySound(l.bank.board, l.log[i]))
  }

  // ----- The stack of a group -----

  ghost predicate Live(l: Ledger, g: nat, d: seq<nat>) {
    && (forall k :: 0 <= k < |d| ==> d[k] < |l.log| && Standing(l.bank.board, l.log[d[k]], g))
    && (forall j, k :: 0 <= j < k < |d| ==> d[j] < d[k])
    && (forall i :: 0 <= i < |l.log| && Standing(l.bank.board, l.log[i], g) && i !in d ==> IsDead(l, g, i))
    && Linked(l.bank.board, l.log, g, d)
    && OnTop(l, g, d)
  }
  // A standing work at or after it was done by a player who is out of the game: it can never be
  // reversed, and it blocks everything before it.
  ghost predicate IsDead(l: Ledger, g: nat, i: nat) {
    exists j :: i <= j < |l.log| && Standing(l.bank.board, l.log[j], g) && Gone(l.bank.players, l.log[j])
  }
  predicate Gone(players: seq<Player>, e: Entry) { Worker(e).Some? && FindActive(players, Worker(e).value).Err? }

  ghost predicate InLog(d: seq<nat>, log: seq<Entry>) { forall k :: 0 <= k < |d| ==> d[k] < |log| }

  // Each live work starts where the one below it ended, by the same player while buildings stand.
  ghost predicate Linked(board: Board, log: seq<Entry>, g: nat, d: seq<nat>)
    requires InLog(d, log)
  {
    forall k :: 0 <= k < |d| ==> LinkedAt(board, log, g, d, k)
  }
  ghost predicate LinkedAt(board: Board, log: seq<Entry>, g: nat, d: seq<nat>, k: nat)
    requires k < |d| && InLog(d, log)
  {
    forall t :: InGroup(board, t, g) ==>
      LevelBefore(log[d[k]], t) == (if k == 0 then 0 else LevelAfter(log[d[k - 1]], t)) &&
      (k > 0 && LevelAfter(log[d[k - 1]], t) > 0 ==> Worker(log[d[k - 1]]) == Worker(log[d[k]]))
  }
  // The registry shows what the topmost live work left, and buildings stand on its player's tiles.
  ghost predicate OnTop(l: Ledger, g: nat, d: seq<nat>)
    requires InLog(d, l.log)
  {
    forall t :: InGroup(l.bank.board, t, g) ==> TopAt(l, d, t)
  }
  predicate TopAt(l: Ledger, d: seq<nat>, t: Tile)
    requires InLog(d, l.log)
  {
    if d == [] then Houses(l.bank.registry, t) == 0
    else
      var top := l.log[d[|d| - 1]];
      Houses(l.bank.registry, t) == LevelAfter(top, t) &&
          (Houses(l.bank.registry, t) > 0 ==> Owner(l.bank.registry, t) == Worker(top))
  }

  // ----- Actions that leave a group's levels alone -----

  ghost predicate SameLevels(before: Registry, after: Registry, board: Board, g: nat) {
    forall t :: InGroup(board, t, g) ==> LevelKept(before, after, t)
  }
  predicate LevelKept(before: Registry, after: Registry, t: Tile) {
    Houses(after, t) == Houses(before, t) && (Houses(before, t) > 0 ==> Owner(after, t) == Owner(before, t))
  }

  lemma ChangedOrNot(registry: Registry, changes: seq<PropertyChange>, t: Tile)
    requires Matches(registry, changes)
    ensures var after := Order.After(registry, changes, t.id);
            (after == StateOf(registry, t.id) && FindChange(changes, t.id).None?) ||
            (exists c :: c in changes && c.tileId == t.id && c.before == StateOf(registry, t.id) && c.after == after &&
                FindChange(changes, t.id) == Some(c))
  {
    hide StateOf, FindChange, ApplyChanges;
    StateAfterChanges(registry, changes, t.id);
    FoundChange(changes, t.id);
  }
  lemma KeptByChanges(board: Board, registry: Registry, changes: seq<PropertyChange>, g: nat)
    requires Matches(registry, changes)
    requires forall c :: c in changes ==> KeepsLevel(c) || !(exists t :: InGroup(board, t, g) && t.id == c.tileId)
    ensures SameLevels(registry, ApplyChanges(registry, changes), board, g)
  {
    hide StateOf, FindChange, ApplyChanges, Matches;
    forall t | InGroup(board, t, g) ensures LevelKept(registry, ApplyChanges(registry, changes), t) {
      ChangedOrNot(registry, changes, t);
    }
  }

  // The same stack, when the log only grows by an entry that is no standing work of the group.
  lemma LiveKept(l: Ledger, next: Ledger, g: nat, d: seq<nat>)
    requires Live(l, g, d) && next.bank.board == l.bank.board
    requires |next.log| >= |l.log|
    requires forall i :: 0 <= i < |l.log| && Standing(l.bank.board, l.log[i], g) ==> next.log[i] == l.log[i]
    requires forall i :: 0 <= i < |next.log| && Standing(l.bank.board, next.log[i], g) ==>
             i < |l.log| && Standing(l.bank.board, l.log[i], g)
    requires forall e :: Gone(l.bank.players, e) ==> Gone(next.bank.players, e)
    requires SameLevels(l.bank.registry, next.bank.registry, l.bank.board, g)
    ensures Live(next, g, d)
  {
    hide StateOf, Standing, Gone, LevelBefore, LevelAfter, Worker, Houses, Owner, InGroup;
    forall i | 0 <= i < |next.log| && Standing(next.bank.board, next.log[i], g) && i !in d ensures IsDead(next, g, i) {
      assert IsDead(l, g, i);
      var j :| i <= j < |l.log| && Standing(l.bank.board, l.log[j], g) && Gone(l.bank.players, l.log[j]);
      assert next.log[j] == l.log[j];
    }
    forall k | 0 <= k < |d| ensures LinkedAt(next.bank.board, next.log, g, d, k) {
      assert LinkedAt(l.bank.board, l.log, g, d, k);
    }
    forall t | InGroup(next.bank.board, t, g) ensures TopAt(next, d, t) {
      assert TopAt(l, d, t) && LevelKept(l.bank.registry, next.bank.registry, t);
    }
  }

  // ----- A new work goes on top -----

  lemma WorkChanges(board: Board, e: Entry, g: nat, t: Tile)
    requires WorkSound(board, e, g) && InGroup(board, t, g)
    ensures var after := Order.After(e.was, e.changes, t.id);
            after == StateOf(e.was, t.id).(houses := LevelAfter(e, t)) && LevelAfter(e, t) >= 0 &&
                LevelBefore(e, t) >= 0 && Owner(e.was, t) == Worker(e)
    ensures FindChange(e.changes, t.id).None? ==> LevelAfter(e, t) == LevelBefore(e, t)
  {
    hide StateOf, FindChange, ApplyChanges, Matches, InGroup;
    ChangedOrNot(e.was, e.changes, t);
  }

  // The dead stay dead.
  lemma DeadKept(l: Ledger, next: Ledger, g: nat, i: nat)
    requires IsDead(l, g, i) && next.bank.board == l.bank.board && |next.log| >= |l.log|
    requires forall j :: 0 <= j < |l.log| && Standing(l.bank.board, l.log[j], g) && Gone(l.bank.players, l.log[j]) ==>
             next.log[j] == l.log[j]
    requires forall e :: Gone(l.bank.players, e) ==> Gone(next.bank.players, e)
    ensures IsDead(next, g, i)
  {
    hide Standing, Gone;
    var j :| i <= j < |l.log| && Standing(l.bank.board, l.log[j], g) && Gone(l.bank.players, l.log[j]);
    assert next.log[j] == l.log[j];
  }
  ghost predicate Appended(l: Ledger, next: Ledger) {
    next.bank.board == l.bank.board && |next.log| == |l.log| + 1 &&
        (forall i :: 0 <= i < |l.log| ==> next.log[i] == l.log[i]) &&
    forall e :: Gone(l.bank.players, e) ==> Gone(next.bank.players, e)
  }

  lemma Pushed(l: Ledger, next: Ledger, g: nat, d: seq<nat>)
    requires Live(l, g, d) && Appended(l, next)
    requires var e := next.log[|l.log|];
             e.was == l.bank.registry && next.bank.registry == ApplyChanges(e.was, e.changes) &&
                 Standing(l.bank.board, e, g) && WorkSound(l.bank.board, e, g)
    ensures Live(next, g, d + [|l.log|])
  {
    hide StateOf, Standing, Gone, Worker, InGroup, WorkSound, ApplyChanges, Houses, Owner, LinkedAt, TopAt, IsDead,
      LevelAfter;
    var n, top := |l.log|, d + [|l.log|];
    var e := next.log[n];
    forall i | 0 <= i < |next.log| && Standing(next.bank.board, next.log[i], g) && i !in top
      ensures IsDead(next, g, i)
    {
      InLonger(d, n, i);
      DeadKept(l, next, g, i);
    }
    forall k | 0 <= k < |top| ensures LinkedAt(next.bank.board, next.log, g, top, k) { PushedLink(l, next, g, d, k); }
    forall t | InGroup(next.bank.board, t, g) ensures TopAt(next, top, t) { PushedTop(l, next, g, d, t); }
  }
  lemma InLonger(d: seq<nat>, n: nat, i: nat)
    ensures i in d + [n] <==> i in d || i == n
  {}
  lemma PushedLink(l: Ledger, next: Ledger, g: nat, d: seq<nat>, k: nat)
    requires Live(l, g, d) && Appended(l, next) && k <= |d|
    requires var e := next.log[|l.log|]; e.was == l.bank.registry && WorkSound(l.bank.board, e, g)
    ensures LinkedAt(next.bank.board, next.log, g, d + [|l.log|], k)
  {
    hide StateOf, Standing, Gone, Worker, InGroup, WorkSound, IsDead, LevelBefore, LevelAfter, OnTop;
    var e := next.log[|l.log|];
    if k < |d| { assert LinkedAt(l.bank.board, l.log, g, d, k); }
    else { forall t | InGroup(l.bank.board, t, g) ensures LinkHolds(l, d, e, t) { NewLink(l, g, d, e, t); } }
  }
  lemma PushedTop(l: Ledger, next: Ledger, g: nat, d: seq<nat>, t: Tile)
    requires Live(l, g, d) && Appended(l, next) && InGroup(l.bank.board, t, g)
    requires var e := next.log[|l.log|];
             next.bank.registry == ApplyChanges(e.was, e.changes) && WorkSound(l.bank.board, e, g)
    ensures TopAt(next, d + [|l.log|], t)
  {
    hide StateOf, Standing, Gone, Worker, InGroup, WorkSound, ApplyChanges, Houses, Owner, IsDead, LevelAfter, OnTop,
      Linked;
    var e := next.log[|l.log|];
    WorkChanges(l.bank.board, e, g, t);
    AfterIs(e, next.bank.registry, t);
  }
  lemma AfterIs(e: Entry, registry: Registry, t: Tile)
    requires registry == ApplyChanges(e.was, e.changes)
    ensures Houses(registry, t) == LevelAfter(e, t) && StateOf(registry, t.id) == Order.After(e.was, e.changes, t.id)
    ensures Owner(registry, t) == Order.After(e.was, e.changes, t.id).owner &&
            Owner(e.was, t) == StateOf(e.was, t.id).owner
  {}
  predicate LinkHolds(l: Ledger, d: seq<nat>, e: Entry, t: Tile)
    requires InLog(d, l.log)
  {
    LevelBefore(e, t) == (if d == [] then 0 else LevelAfter(l.log[d[|d| - 1]], t)) &&
    (d != [] && LevelAfter(l.log[d[|d| - 1]], t) > 0 ==> Worker(l.log[d[|d| - 1]]) == Worker(e))
  }
  lemma NewLink(l: Ledger, g: nat, d: seq<nat>, e: Entry, t: Tile)
    requires Live(l, g, d) && e.was == l.bank.registry && WorkSound(l.bank.board, e, g) && InGroup(l.bank.board, t, g)
    ensures LinkHolds(l, d, e, t)
  {
    hide StateOf, Worker, Order.After;
    assert TopAt(l, d, t);
  }

  // ----- Reversing a work takes it off -----

  lemma TopOfStack(l: Ledger, g: nat, d: seq<nat>, i: nat)
    requires Live(l, g, d) && i < |l.log| && Standing(l.bank.board, l.log[i], g) && !Gone(l.bank.players, l.log[i])
    requires forall k :: i < k < |l.log| ==> !Standing(l.bank.board, l.log[k], g)
    ensures d != [] && d[|d| - 1] == i
  {
    hide Standing, Gone, Linked, OnTop;
    NotDead(l, g, i);
    var k :| 0 <= k < |d| && d[k] == i;
    assert d[|d| - 1] <= i;
  }
  lemma NotDead(l: Ledger, g: nat, i: nat)
    requires i < |l.log| && !Gone(l.bank.players, l.log[i]) && forall k :: i < k < |l.log| ==>
             !Standing(l.bank.board, l.log[k], g)
    ensures !IsDead(l, g, i)
  {
    hide Standing, Gone;
  }

  ghost predicate TakenOff(l: Ledger, next: Ledger, g: nat, i: nat) {
    i < |l.log| && next.bank.board == l.bank.board && |next.log| == |l.log| + 1 &&
    (forall k :: 0 <= k < |l.log| && k != i ==> next.log[k] == l.log[k]) &&
    !Standing(l.bank.board, next.log[i], g) && !Standing(l.bank.board, next.log[|l.log|], g) &&
    Matches(l.bank.registry, InvertChanges(l.log[i].changes)) &&
    next.bank.registry == ApplyChanges(l.bank.registry, InvertChanges(l.log[i].changes)) &&
    (forall e :: Gone(l.bank.players, e) ==> Gone(next.bank.players, e)) && !Gone(l.bank.players, l.log[i])
  }
  ghost predicate IsTop(l: Ledger, g: nat, d: seq<nat>, i: nat) {
    Live(l, g, d) && d != [] && d[|d| - 1] == i && i < |l.log| && WorkSound(l.bank.board, l.log[i], g)
  }
  lemma Popped(l: Ledger, next: Ledger, g: nat, d: seq<nat>, i: nat)
    requires IsTop(l, g, d, i) && TakenOff(l, next, g, i)
    ensures forall t :: InGroup(l.bank.board, t, g) ==> Houses(next.bank.registry, t) == LevelBefore(l.log[i], t)
    ensures Live(next, g, d[..|d| - 1])
  {
    hide StateOf, Standing, Gone, Worker, InGroup, WorkSound, ApplyChanges, Matches, Houses, Owner, LevelBefore,
      LevelAfter, InvertChanges, LinkedAt, TopAt, IsDead;
    var rest := d[..|d| - 1];
    forall t | InGroup(l.bank.board, t, g)
      ensures Houses(next.bank.registry, t) == LevelBefore(l.log[i], t) && TopAt(next, rest, t)
    {
      PoppedTop(l, next, g, d, i, t);
    }
    assert forall k :: 0 <= k < |rest| ==> rest[k] == d[k] && rest[k] < i;
    forall k | 0 <= k < |next.log| && Standing(next.bank.board, next.log[k], g) && k !in rest
      ensures IsDead(next, g, k)
    {
      PoppedDead(l, next, g, d, i, k);
    }
    forall k | 0 <= k < |rest|
      ensures LinkedAt(next.bank.board, next.log, g, rest, k)
    {
      PoppedLink(l, next, g, d, i, k);
    }
  }
  lemma PoppedDead(l: Ledger, next: Ledger, g: nat, d: seq<nat>, i: nat, k: nat)
    requires IsTop(l, g, d, i) && TakenOff(l, next, g, i)
    requires k < |next.log| && Standing(next.bank.board, next.log[k], g) && k !in d[..|d| - 1]
    ensures IsDead(next, g, k)
  {
    hide Standing, Gone, WorkSound, Linked, OnTop, IsDead, Matches, ApplyChanges;
    assert k != i && k < |l.log|;
    InLonger(d[..|d| - 1], i, k);
    assert d == d[..|d| - 1] + [i];
    DeadKept(l, next, g, k);
  }
  lemma PoppedLink(l: Ledger, next: Ledger, g: nat, d: seq<nat>, i: nat, k: nat)
    requires IsTop(l, g, d, i) && TakenOff(l, next, g, i) && k < |d| - 1
    requires InLog(d[..|d| - 1], next.log)
    ensures LinkedAt(next.bank.board, next.log, g, d[..|d| - 1], k)
  {
    hide Standing, Gone, WorkSound, OnTop, IsDead, Matches, ApplyChanges, LevelBefore, LevelAfter, InGroup, Worker;
    assert LinkedAt(l.bank.board, l.log, g, d, k);
    assert d[k] < i && (k > 0 ==> d[k - 1] < i);
  }
  lemma PoppedTop(l: Ledger, next: Ledger, g: nat, d: seq<nat>, i: nat, t: Tile)
    requires IsTop(l, g, d, i) && TakenOff(l, next, g, i) && InGroup(l.bank.board, t, g)
    requires InLog(d[..|d| - 1], next.log)
    ensures Houses(next.bank.registry, t) == LevelBefore(l.log[i], t) && TopAt(next, d[..|d| - 1], t)
  {
    hide Standing, Gone, WorkSound, IsDead, Matches, ApplyChanges, LevelBefore, LevelAfter, InGroup, Worker, Houses,
      Owner, OwnerBack;
    var rest, e := d[..|d| - 1], l.log[i];
    assert TopAt(l, d, t);
    RestoredTile(l, e, g, t);
    assert LinkedAt(l.bank.board, l.log, g, d, |d| - 1);
    if rest != [] { assert rest[|rest| - 1] == d[|d| - 2] < i; }
    if LevelBefore(e, t) > 0 { OwnerWhenBuilt(l, e, g, d, t); }
  }
  function OwnerBack(l: Ledger, e: Entry, t: Tile): Option<PlayerId> {
    if FindChange(e.changes, t.id).Some? then Worker(e) else Owner(l.bank.registry, t)
  }
  lemma OwnerWhenBuilt(l: Ledger, e: Entry, g: nat, d: seq<nat>, t: Tile)
    requires WorkSound(l.bank.board, e, g) && InGroup(l.bank.board, t, g) && LevelBefore(e, t) > 0
    requires Houses(l.bank.registry, t) == LevelAfter(e, t) &&
             (Houses(l.bank.registry, t) > 0 ==> Owner(l.bank.registry, t) == Worker(e))
    ensures OwnerBack(l, e, t) == Worker(e)
  {
    hide StateOf, FindChange, ApplyChanges, Matches, Worker, Houses, Owner, LevelBefore, LevelAfter, WorkSound;
    WorkChanges(l.bank.board, e, g, t);
  }
  lemma RestoredTile(l: Ledger, e: Entry, g: nat, t: Tile)
    requires WorkSound(l.bank.board, e, g) && InGroup(l.bank.board, t, g) &&
             Houses(l.bank.registry, t) == LevelAfter(e, t)
    requires Matches(l.bank.registry, InvertChanges(e.changes))
    ensures var after := ApplyChanges(l.bank.registry, InvertChanges(e.changes));
            Houses(after, t) == LevelBefore(e, t) && Owner(after, t) == OwnerBack(l, e, t)
  {
    hide StateOf, FindChange, ApplyChanges;
    var back := InvertChanges(e.changes);
    WorkChanges(l.bank.board, e, g, t);
    StateAfterChanges(l.bank.registry, back, t.id);
    FoundChange(e.changes, t.id);
    FoundChange(back, t.id);
    if FindChange(e.changes, t.id).Some? {
      var k :| 0 <= k < |e.changes| && e.changes[k] == FindChange(e.changes, t.id).value;
      assert DistinctChanges(back);
      FindChangeAt(back, k);
      assert back[k] in back && e.changes[k] in e.changes;
    } else {
      forall c | c in back ensures c.tileId != t.id {
        var k :| 0 <= k < |back| && back[k] == c;
        assert e.changes[k] in e.changes;
      }
    }
  }

  // ----- A bankruptcy that clears buildings ends the stack -----

  lemma Barred(l: Ledger, next: Ledger, g: nat, d: seq<nat>, q: PlayerId,
          creditor: Option<PlayerId>) returns (rest: seq<nat>)
    requires Live(l, g, d) && TableSound(l) && Appended(l, next) && !Standing(l.bank.board, next.log[|l.log|], g)
    requires next.bank.registry == ApplyChanges(l.bank.registry, HandOvers(l.bank.registry, q, creditor))
    requires forall e :: Worker(e) == Some(q) ==> Gone(next.bank.players, e)
    ensures Live(next, g, rest)
  {
    hide StateOf, Standing, Gone, Worker, InGroup, ApplyChanges, HandOvers, Houses, Owner, Live, Linked, LevelKept,
      EntrySound;
    forall t | InGroup(l.bank.board, t, g) ensures ClearedTile(l, next, q, t) {
      HandedTile(l.bank.registry, q, creditor, t);
      TileIsBare(l, g, t);
    }
    if t :| InGroup(l.bank.board, t, g) && Houses(l.bank.registry, t) > 0 && Owner(l.bank.registry, t) == Some(q) {
      rest := [];
      StackEnds(l, next, g, d, q, t);
    } else {
      rest := d;
      forall t | InGroup(l.bank.board, t, g)
        ensures LevelKept(l.bank.registry, next.bank.registry, t)
      {
        UnclearedTile(l, next, q, t);
      }
      LiveKept(l, next, g, d);
    }
  }
  predicate ClearedTile(l: Ledger, next: Ledger, q: PlayerId, t: Tile) {
    Houses(next.bank.registry, t) == (if Owner(l.bank.registry, t) == Some(q) then 0 else Houses(l.bank.registry, t)) &&
    (Owner(l.bank.registry, t) != Some(q) ==> Owner(next.bank.registry, t) == Owner(l.bank.registry, t)) &&
        Houses(l.bank.registry, t) >= 0
  }
  lemma UnclearedTile(l: Ledger, next: Ledger, q: PlayerId, t: Tile)
    requires ClearedTile(l, next, q, t) && !(Houses(l.bank.registry, t) > 0 && Owner(l.bank.registry, t) == Some(q))
    ensures LevelKept(l.bank.registry, next.bank.registry, t)
  {
    hide Houses, Owner;
  }
  lemma StackEnds(l: Ledger, next: Ledger, g: nat, d: seq<nat>, q: PlayerId, t: Tile)
    requires Live(l, g, d) && Appended(l, next) && !Standing(l.bank.board, next.log[|l.log|], g)
    requires forall u :: InGroup(l.bank.board, u, g) ==> ClearedTile(l, next, q, u)
    requires InGroup(l.bank.board, t, g) && Houses(l.bank.registry, t) > 0 && Owner(l.bank.registry, t) == Some(q)
    requires forall e :: Worker(e) == Some(q) ==> Gone(next.bank.players, e)
    ensures Live(next, g, [])
  {
    hide StateOf, Standing, Gone, Worker, InGroup, Houses, Owner, Linked, LevelAfter;
    assert TopAt(l, d, t);
    var last := d[|d| - 1];
    forall i | 0 <= i < |next.log| && Standing(next.bank.board, next.log[i], g) ensures IsDead(next, g, i) {
      if i in d {
        var k :| 0 <= k < |d| && d[k] == i;
        assert i <= last && next.log[last] == l.log[last];
      } else {
        assert IsDead(l, g, i);
        DeadKept(l, next, g, i);
      }
    }
    forall u | InGroup(next.bank.board, u, g)
      ensures TopAt(next, [], u)
    {
      assert TopAt(l, d, u) && ClearedTile(l, next, q, u);
    }
    NothingLinked(next.bank.board, next.log, g);
  }
  lemma NothingLinked(board: Board, log: seq<Entry>, g: nat) ensures Linked(board, log, g, []) {}
  lemma TileIsBare(l: Ledger, g: nat, t: Tile)
    requires TableSound(l) && InGroup(l.bank.board, t, g)
    ensures Houses(l.bank.registry, t) >= 0
  {
    hide EntrySound, StateOf;
    assert Bare(l.bank.registry, t);
  }
  lemma HandedTile(registry: Registry, q: PlayerId, creditor: Option<PlayerId>, t: Tile)
    requires DistinctRows(registry)
    ensures var after := ApplyChanges(registry, HandOvers(registry, q, creditor));
            Houses(after, t) == (if Owner(registry, t) == Some(q) then 0 else Houses(registry, t)) &&
            (Owner(registry, t) != Some(q) ==> Owner(after, t) == Owner(registry, t)) &&
            (Owner(registry, t) == Some(q) ==> Owner(after, t) == creditor)
  {
    hide StateOf, FindChange, ApplyChanges, HandOvers;
    Order.HandedOver(registry, q, creditor, t.id);
    StateAfterChanges(registry, HandOvers(registry, q, creditor), t.id);
    if Owner(registry, t) == Some(q) { BuildingPlan.OwnerHasRow(registry, t.id); }
  }
}
