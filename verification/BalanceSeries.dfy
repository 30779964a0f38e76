/** The balance curves rebuilt from the ledger after a game, against the wallets themselves. */
module BalanceSeries {
  import opened Results
  import opened Property
  import opened Banking
  import opened BankState
  import opened BankRuns
  import opened Reversal
  import opened ReversalRuns
  import opened Search

  // One participant of a counted transaction.
  datatype LedgerRow = LedgerRow(id: nat, kind: Kind, player: PlayerId, delta: int)
  datatype Grouped = Grouped(id: nat, kind: Kind, deltas: seq<Delta>)

  const MAX_POINTS: nat := 61

  // ----- Grouping rows into transactions -----

  function GroupId(group: Grouped): nat { group.id }
  function AddRow(groups: seq<Grouped>, row: LedgerRow): seq<Grouped> {
    var i := PlaceOf(groups, GroupId, row.id);
    if i < |groups| then groups[i := groups[i].(deltas := groups[i].deltas + [(row.player, row.delta)])]
    else groups + [Grouped(row.id, row.kind, [(row.player, row.delta)])]
  }
  function Group(rows: seq<LedgerRow>): seq<Grouped> {
    if rows == [] then [] else AddRow(Group(rows[..|rows| - 1]), rows[|rows| - 1])
  }
  method GroupRows(rows: seq<LedgerRow>) returns (groups: seq<Grouped>)
    ensures groups == Group(rows)
  {
    hide AddRow;
    groups := [];
    for k := 0 to |rows|
      invariant groups == Group(rows[..k])
    {
      assert rows[..k + 1][..k] == rows[..k];
      groups := AddRow(groups, rows[k]);
    }
    assert rows[..|rows|] == rows;
  }

  function Share(deltas: seq<Delta>, player: PlayerId): int {
    if deltas == [] then 0 else (if deltas[0].0 == player then deltas[0].1 else 0) + Share(deltas[1..], player)
  }
  function TotalFor(groups: seq<Grouped>, player: PlayerId): int {
    if groups == [] then 0 else TotalFor(groups[..|groups| - 1], player) + Share(groups[|groups| - 1].deltas, player)
  }
  function RowsFor(rows: seq<LedgerRow>, player: PlayerId): int {
    if rows == [] then 0
    else RowsFor(rows[..|rows| - 1], player) + if rows[|rows| - 1].player == player then rows[|rows| - 1].delta else 0
  }
  lemma {:induction false} ShareAppend(deltas: seq<Delta>, d: Delta, player: PlayerId)
    ensures Share(deltas + [d], player) == Share(deltas, player) + if d.0 == player then d.1 else 0
  {
    if deltas == [] { assert deltas + [d] == [d]; } else {
      assert (deltas + [d])[1..] == deltas[1..] + [d];
      ShareAppend(deltas[1..], d, player);
    }
  }
  lemma {:induction false} TotalAfterUpdate(groups: seq<Grouped>, i: nat, g: Grouped, player: PlayerId)
    requires i < |groups|
    ensures TotalFor(groups[i := g], player) ==
            TotalFor(groups, player) - Share(groups[i].deltas, player) + Share(g.deltas, player)
    decreases |groups|
  {
    hide Share;
    var n := |groups| - 1;
    if i < n {
      TotalAfterUpdate(groups[..n], i, g, player);
      assert groups[i := g][..n] == groups[..n][i := g];
    } else {
      assert groups[i := g][..n] == groups[..n];
    }
  }
  // Grouping loses nothing.
  lemma {:induction false} GroupingKeepsTotals(rows: seq<LedgerRow>, player: PlayerId)
    ensures TotalFor(Group(rows), player) == RowsFor(rows, player)
    decreases |rows|
  {
    hide TotalFor, Share;
    if rows == [] { NoGroups(player); } else {
      var before, row := Group(rows[..|rows| - 1]), rows[|rows| - 1];
      GroupingKeepsTotals(rows[..|rows| - 1], player);
      AddedRow(before, row, player);
    }
  }
  lemma NoGroups(player: PlayerId) ensures TotalFor([], player) == 0 {}
  lemma AddedRow(groups: seq<Grouped>, row: LedgerRow, player: PlayerId)
    ensures TotalFor(AddRow(groups, row), player) == TotalFor(groups, player) + if row.player == player then row.delta
                                                                                else 0
  {
    hide Share, PlaceOf;
    var i := PlaceOf(groups, GroupId, row.id);
    if i < |groups| {
      TotalAfterUpdate(groups, i, groups[i].(deltas := groups[i].deltas + [(row.player, row.delta)]), player);
      ShareAppend(groups[i].deltas, (row.player, row.delta), player);
    } else {
      var added := groups + [Grouped(row.id, row.kind, [(row.player, row.delta)])];
      assert added[..|groups|] == groups;
      ShareAppend([], (row.player, row.delta), player);
      assert [] + [(row.player, row.delta)] == [(row.player, row.delta)];
      NoShare(player);
    }
  }
  lemma NoShare(player: PlayerId) ensures Share([], player) == 0 {}

  // ----- The thinned indices -----

  // Half up, as sixtieths of the way.
  function Rounded(index: nat, steps: nat): nat { (index * steps + 30) / 60 }
  function Keep(steps: nat): (keep: seq<nat>) {
    if steps + 1 <= MAX_POINTS then seq(steps + 1, i requires 0 <= i => i)
    else seq(MAX_POINTS, i requires 0 <= i => Rounded(i, steps))
  }
  lemma RoundedRises(index: nat, steps: nat)
    requires steps >= 60
    ensures Rounded(index, steps) < Rounded(index + 1, steps)
  {
    assert (index + 1) * steps == index * steps + steps;
  }
  lemma {:induction false} RoundedRisesFrom(i: nat, j: nat, steps: nat)
    requires steps >= 60 && i < j
    ensures Rounded(i, steps) < Rounded(j, steps)
    decreases j - i
  {
    hide Rounded;
    if i + 1 < j { RoundedRisesFrom(i, j - 1, steps); }
    RoundedRises(j - 1, steps);
  }
  lemma RoundedEnds(steps: nat)
    ensures Rounded(0, steps) == 0 && Rounded(60, steps) == steps
  {}
  // At most 61 points, strictly increasing from the start to the last transaction.
  lemma KeptIndicesRise(steps: nat)
    ensures var keep := Keep(steps);
            0 < |keep| <= MAX_POINTS && keep[0] == 0 && keep[|keep| - 1] == steps &&
            (forall i, j :: 0 <= i < j < |keep| ==> keep[i] < keep[j])
  {
    hide Rounded;
    RoundedEnds(steps);
    if steps + 1 > MAX_POINTS {
      forall i: nat, j: nat | i < j < MAX_POINTS
        ensures Rounded(i, steps) < Rounded(j, steps)
      {
        RoundedRisesFrom(i, j, steps);
      }
    }
  }

  // ----- The series -----

  ghost predicate Curve(points: seq<int>, groups: seq<Grouped>, start: int, player: PlayerId) {
    |points| == |groups| + 1 && forall k :: 0 <= k <= |groups| ==> points[k] == start + TotalFor(groups[..k], player)
  }
  // A bankruptcy that takes money from a player ends their curve.
  predicate Pays(deltas: seq<Delta>, player: PlayerId) { exists d :: d in deltas && d.0 == player && d.1 < 0 }
  predicate Ends(group: Grouped, player: PlayerId) { group.kind == BANKRUPTCY_TRANSFER && Pays(group.deltas, player) }
  // The number of transactions up to the first one that ends the player's curve.
  function EndsAt(groups: seq<Grouped>, player: PlayerId): Option<nat> {
    if groups == [] then None
    else
      var before := EndsAt(groups[..|groups| - 1], player);
      if before.Some? then before else if Ends(groups[|groups| - 1], player) then Some(|groups|) else None
  }
  datatype PlayerCurve = PlayerCurve(balances: seq<int>, endIndex: Option<nat>)

  // The end is marked at the first point kept at or after it.
  ghost predicate MarksEnd(endIndex: Option<nat>, groups: seq<Grouped>, player: PlayerId) {
    var keep := Keep(|groups|);
    match EndsAt(groups, player)
    case None => endIndex.None?
    case Some(step) =>
      endIndex.Some? && endIndex.value < |keep| && keep[endIndex.value] >= step &&
      forall k :: 0 <= k < endIndex.value ==> keep[k] < step
  }
  // One curve per player: the balance after each transaction, thinned, with its end.
  method CalculateBalanceSeries(rows: seq<LedgerRow>, players: seq<PlayerId>, start: int)
    returns (steps: nat, series: map<PlayerId, PlayerCurve>)
    ensures steps == |Group(rows)| && series.Keys == set p | p in players
    ensures forall p :: p in series ==> Thinned(series[p].balances, Group(rows), start, p)
    ensures forall p :: p in series ==> MarksEnd(series[p].endIndex, Group(rows), p)
  {
    hide TotalFor, Group, Keep, Curve, Thinned, EndsAt, MarksEnd;
    var groups := GroupRows(rows);
    steps := |groups|;
    var full, bankruptAt := FullCurves(groups, players, start);
    var keep := Keep(steps);
    forall p | p in full
      ensures Thinned(ThinTo(full[p], keep, start), groups, start, p)
      ensures MarksEnd(EndIndex(keep, bankruptAt, p), groups, p)
    {
      ThinnedCurve(full[p], groups, start, p);
      EndIsMarked(groups, bankruptAt, p);
    }
    series := map p | p in full :: PlayerCurve(ThinTo(full[p], keep, start), EndIndex(keep, bankruptAt, p));
  }
  // The first index that is not below the step, or past the end.
  function FirstFrom(keep: seq<nat>, step: nat): (i: nat)
    ensures i <= |keep| && (i < |keep| ==> keep[i] >= step) && forall k :: 0 <= k < i ==> keep[k] < step
  {
    if keep == [] then 0 else if keep[0] >= step then 0 else 1 + FirstFrom(keep[1..], step)
  }
  function EndIndex(keep: seq<nat>, bankruptAt: map<PlayerId, nat>, player: PlayerId): Option<nat> {
    if player !in bankruptAt then None
    else
      var i := FirstFrom(keep, bankruptAt[player]);
      if i < |keep| then Some(i) else None
  }
  ghost predicate MarkedAt(bankruptAt: map<PlayerId, nat>, groups: seq<Grouped>, player: PlayerId) {
    EndsAt(groups, player) == if player in bankruptAt then Some(bankruptAt[player]) else None
  }
  ghost predicate AllMarked(bankruptAt: map<PlayerId, nat>, groups: seq<Grouped>) {
    forall p :: MarkedAt(bankruptAt, groups, p)
  }
  lemma {:induction false} EndsWithin(groups: seq<Grouped>, player: PlayerId)
    ensures EndsAt(groups, player).Some? ==> 0 < EndsAt(groups, player).value <= |groups|
    decreases |groups|
  {
    hide Ends;
    if groups != [] { EndsWithin(groups[..|groups| - 1], player); }
  }
  lemma EndIsMarked(groups: seq<Grouped>, bankruptAt: map<PlayerId, nat>, player: PlayerId)
    requires MarkedAt(bankruptAt, groups, player)
    ensures MarksEnd(EndIndex(Keep(|groups|), bankruptAt, player), groups, player)
  {
    hide Keep, EndsAt, FirstFrom;
    EndsWithin(groups, player);
    KeptIndicesRise(|groups|);
  }
  function ThinTo(points: seq<int>, keep: seq<nat>, start: int): (r: seq<int>)
    ensures |r| == |keep|
  {
    seq(|keep|, k requires 0 <= k < |keep| => if keep[k] < |points| then points[keep[k]] else start)
  }
  // Every kept point is the sum of the deltas before it; the last one is the sum of them all.
  ghost predicate Thinned(points: seq<int>, groups: seq<Grouped>, start: int, player: PlayerId) {
    var keep := Keep(|groups|);
    |points| == |keep| > 0 && (forall k :: 0 <= k < |keep| ==>
        keep[k] <= |groups| && points[k] == start + TotalFor(groups[..keep[k]], player)) &&
    points[|points| - 1] == start + TotalFor(groups, player)
  }
  lemma ThinnedCurve(points: seq<int>, groups: seq<Grouped>, start: int, player: PlayerId)
    requires Curve(points, groups, start, player)
    ensures Thinned(ThinTo(points, Keep(|groups|), start), groups, start, player)
  {
    hide TotalFor, Keep;
    KeptIndicesRise(|groups|);
    var keep := Keep(|groups|);
    forall k | 0 <= k < |keep| ensures keep[k] <= |groups| { if k < |keep| - 1 { assert keep[k] < keep[|keep| - 1]; } }
    assert groups[..|groups|] == groups;
  }
  method FullCurves(groups: seq<Grouped>, players: seq<PlayerId>, start: int)
    returns (full: map<PlayerId, seq<int>>, bankruptAt: map<PlayerId, nat>)
    ensures full.Keys == set p | p in players
    ensures forall p :: p in full ==> Curve(full[p], groups, start, p)
    ensures AllMarked(bankruptAt, groups)
  {
    hide Curve, TotalFor, EndsAt, Ends;
    var running: map<PlayerId, int> := map p | p in players :: start;
    full, bankruptAt := map p | p in players :: [start], map[];
    forall p
      ensures TotalFor(groups[..0], p) == 0 && Curve([start], groups[..0], start, p) && EndsAt(groups[..0], p) == None
    {
      NoGroups(p);
      NoEnd(p);
      assert groups[..0] == [];
      FirstPoint(start, p);
    }
    for n := 0 to |groups|
      invariant running.Keys == full.Keys == set p | p in players
      invariant forall p :: p in running ==> running[p] == start + TotalFor(groups[..n], p)
      invariant forall p :: p in full ==> Curve(full[p], groups[..n], start, p)
      invariant AllMarked(bankruptAt, groups[..n])
    {
      ghost var marked := bankruptAt;
      running, bankruptAt := MoveRunning(running, bankruptAt, groups[n], n + 1);
      forall p
        ensures TotalFor(groups[..n + 1], p) == TotalFor(groups[..n], p) + Share(groups[n].deltas, p)
      {
        NextTotal(groups, n, p);
      }
      MarkedNext(marked, bankruptAt, groups, n);
      forall p | p in full
        ensures Curve(full[p] + [running[p]], groups[..n + 1], start, p)
      {
        NextPoint(full[p], running[p], groups, n, start, p);
      }
      full := map p | p in full :: full[p] + [running[p]];
    }
    assert groups[..|groups|] == groups;
  }
  ghost predicate MarkedFurther(marked: map<PlayerId, nat>, bankruptAt: map<PlayerId, nat>, group: Grouped, step: nat) {
    (forall p :: p in bankruptAt <==> p in marked || Ends(group, p)) &&
    (forall p :: p in bankruptAt ==> bankruptAt[p] == if p in marked then marked[p] else step)
  }
  lemma MarkedNext(marked: map<PlayerId, nat>, bankruptAt: map<PlayerId, nat>, groups: seq<Grouped>, n: nat)
    requires n < |groups| && AllMarked(marked, groups[..n]) && MarkedFurther(marked, bankruptAt, groups[n], n + 1)
    ensures AllMarked(bankruptAt, groups[..n + 1])
  {
    hide EndsAt, Ends;
    var after := groups[..n + 1];
    forall p
      ensures MarkedAt(bankruptAt, after, p)
    {
      NextEnd(groups, n, p);
      assert MarkedAt(marked, groups[..n], p);
    }
  }
  lemma NoEnd(player: PlayerId)
    ensures EndsAt([], player) == None
  {}
  lemma NextEnd(groups: seq<Grouped>, n: nat, player: PlayerId)
    requires n < |groups|
    ensures EndsAt(groups[..n + 1], player) ==
            if EndsAt(groups[..n], player).Some? then EndsAt(groups[..n], player)
            else if Ends(groups[n], player) then Some(n + 1) else None
  {
    hide Ends;
    assert groups[..n + 1][..n] == groups[..n];
  }
  lemma FirstPoint(start: int, player: PlayerId)
    ensures Curve([start], [], start, player)
  {
    NoGroups(player);
  }
  lemma NextPoint(points: seq<int>, value: int, groups: seq<Grouped>, n: nat, start: int, player: PlayerId)
    requires n < |groups| && Curve(points, groups[..n], start, player) &&
             value == start + TotalFor(groups[..n + 1], player)
    ensures Curve(points + [value], groups[..n + 1], start, player)
  {
    hide TotalFor;
    forall k | 0 <= k <= n + 1 ensures (points + [value])[k] == start + TotalFor(groups[..n + 1][..k], player) {
      if k <= n {
        assert groups[..n + 1][..k] == groups[..n][..k];
      } else {
        assert groups[..n + 1][..k] == groups[..n + 1];
      }
    }
  }
  lemma NextTotal(groups: seq<Grouped>, n: nat, player: PlayerId)
    requires n < |groups|
    ensures TotalFor(groups[..n + 1], player) == TotalFor(groups[..n], player) + Share(groups[n].deltas, player)
  {
    hide Share;
    assert groups[..n + 1][..n] == groups[..n];
  }
  method MoveRunning(start: map<PlayerId, int>, marked: map<PlayerId, nat>, group: Grouped, step: nat)
    returns (running: map<PlayerId, int>, bankruptAt: map<PlayerId, nat>)
    ensures running.Keys == start.Keys
    ensures forall p :: p in running ==> running[p] == start[p] + Share(group.deltas, p)
    ensures MarkedFurther(marked, bankruptAt, group, step)
  {
    var deltas := group.deltas;
    running, bankruptAt := start, marked;
    forall p ensures Share(deltas[..0], p) == 0 {}
    for k := 0 to |deltas|
      invariant running.Keys == start.Keys
      invariant forall p :: p in running ==> running[p] == start[p] + Share(deltas[..k], p)
      invariant forall p ::
                  p in bankruptAt <==> p in marked || (group.kind == BANKRUPTCY_TRANSFER && Pays(deltas[..k], p))
      invariant forall p :: p in bankruptAt ==> bankruptAt[p] == if p in marked then marked[p] else step
    {
      var (player, delta) := deltas[k];
      assert deltas[..k + 1] == deltas[..k] + [deltas[k]];
      forall p
        ensures Share(deltas[..k + 1], p) == Share(deltas[..k], p) + if player == p then delta else 0
        ensures Pays(deltas[..k + 1], p) <==> Pays(deltas[..k], p) || (p == player && delta < 0)
      {
        ShareAppend(deltas[..k], deltas[k], p);
        PaysAppend(deltas[..k], deltas[k], p);
      }
      if player in running { running := running[player := running[player] + delta]; }
      if group.kind == BANKRUPTCY_TRANSFER && delta < 0 && player !in bankruptAt {
        bankruptAt := bankruptAt[player := step];
      }
    }
    assert deltas[..|deltas|] == deltas;
  }
  lemma PaysAppend(deltas: seq<Delta>, d: Delta, player: PlayerId)
    ensures Pays(deltas + [d], player) <==> Pays(deltas, player) || (d.0 == player && d.1 < 0)
  {
    assert forall x :: x in deltas + [d] <==> x in deltas || x == d;
  }

  // ----- The counted ledger of a run -----

  // A reversed transaction and its reversal are left out.
  predicate Counted(e: Entry) { e.kind != REVERSAL && e.reversedBy.None? }

  function RowsOfEntry(e: Entry, id: nat): (rows: seq<LedgerRow>)
    ensures |rows| == |e.participants|
  {
    seq(|e.participants|, i requires 0 <= i < |e.participants| =>
        LedgerRow(id, e.kind, e.participants[i].0, e.participants[i].1))
  }
  function LedgerRows(log: seq<Entry>): seq<LedgerRow> {
    if log == [] then []
    else LedgerRows(log[..|log| - 1]) + if Counted(log[|log| - 1]) then RowsOfEntry(log[|log| - 1], |log| - 1) else []
  }
  // What the counted transactions moved for a player.
  function Moved(log: seq<Entry>, player: PlayerId): int {
    if log == [] then 0
    else
      Moved(log[..|log| - 1], player) + if Counted(log[|log| - 1]) then Share(log[|log| - 1].participants, player)
                                        else 0
  }
  lemma {:induction false} RowsForConcat(a: seq<LedgerRow>, b: seq<LedgerRow>, player: PlayerId)
    ensures RowsFor(a + b, player) == RowsFor(a, player) + RowsFor(b, player)
    decreases |b|
  {
    if b == [] { assert a + b == a; } else {
      assert (a + b)[..|a + b| - 1] == a + b[..|b| - 1];
      RowsForConcat(a, b[..|b| - 1], player);
    }
  }
  lemma {:induction false} EntryRows(e: Entry, n: nat, id: nat, player: PlayerId)
    requires n <= |e.participants|
    ensures RowsFor(RowsOfEntry(e, id)[..n], player) == Share(e.participants[..n], player)
    decreases n
  {
    var rows := RowsOfEntry(e, id);
    if n > 0 {
      EntryRows(e, n - 1, id, player);
      assert rows[..n][..n - 1] == rows[..n - 1];
      assert e.participants[..n] == e.participants[..n - 1] + [e.participants[n - 1]];
      ShareAppend(e.participants[..n - 1], e.participants[n - 1], player);
    }
  }
  lemma {:induction false} RowsAreMoved(log: seq<Entry>, player: PlayerId)
    ensures RowsFor(LedgerRows(log), player) == Moved(log, player)
    decreases |log|
  {
    hide RowsFor, Share;
    if log == [] { NoRows(player); } else {
      var e, before := log[|log| - 1], log[..|log| - 1];
      RowsAreMoved(before, player);
      if Counted(e) {
        var rows := RowsOfEntry(e, |log| - 1);
        RowsForConcat(LedgerRows(before), rows, player);
        EntryRows(e, |e.participants|, |log| - 1, player);
        assert rows[..|rows|] == rows && e.participants[..|e.participants|] == e.participants;
      } else {
        assert LedgerRows(before) + [] == LedgerRows(before);
      }
    }
  }
  lemma NoRows(player: PlayerId) ensures RowsFor([], player) == 0 {}

  // ----- Whose curve ends -----

  // The counted transactions of a ledger with somebody in them.
  function EntryGroups(log: seq<Entry>): seq<Grouped> {
    if log == [] then []
    else
      var n := |log| - 1;
      EntryGroups(log[..n]) +
      if Counted(log[n]) && log[n].participants != [] then [Grouped(n, log[n].kind, log[n].participants)] else []
  }
  lemma {:induction false} GroupOfEntry(rows: seq<LedgerRow>, e: Entry, id: nat, n: nat)
    requires 0 < n <= |e.participants| && forall g :: g in Group(rows) ==> g.id != id
    ensures Group(rows + RowsOfEntry(e, id)[..n]) == Group(rows) + [Grouped(id, e.kind, e.participants[..n])]
    decreases n
  {
    hide PlaceOf;
    var added := RowsOfEntry(e, id);
    var longer := rows + added[..n];
    assert longer[..|longer| - 1] == rows + added[..n - 1];
    if n == 1 {
      assert rows + added[..0] == rows;
      assert e.participants[..1] == [e.participants[0]];
    } else {
      GroupOfEntry(rows, e, id, n - 1);
      LastPlace(Group(rows), Grouped(id, e.kind, e.participants[..n - 1]));
      assert e.participants[..n] == e.participants[..n - 1] + [e.participants[n - 1]];
    }
  }
  lemma LastPlace(groups: seq<Grouped>, group: Grouped)
    requires forall g :: g in groups ==> g.id != group.id
    ensures PlaceOf(groups + [group], GroupId, group.id) == |groups|
  {
    hide PlaceOf;
    var all := groups + [group];
    assert GroupId(all[|groups|]) == group.id;
    forall k | 0 <= k < |groups|
      ensures GroupId(all[k]) != group.id
    {
      assert groups[k] in groups;
    }
  }
  // Grouping the rows of a ledger gives its transactions back, one group each.
  lemma {:induction false} GroupsAreEntries(log: seq<Entry>)
    ensures Group(LedgerRows(log)) == EntryGroups(log) && forall g :: g in EntryGroups(log) ==> g.id < |log|
    decreases |log|
  {
    hide Group, Counted;
    if log == [] { assert Group([]) == [] by { NoRowsNoGroups(); } } else {
      var n := |log| - 1;
      GroupsAreEntries(log[..n]);
      var before, e := LedgerRows(log[..n]), log[n];
      if Counted(e) && e.participants != [] {
        GroupOfEntry(before, e, n, |e.participants|);
        assert RowsOfEntry(e, n)[..|e.participants|] == RowsOfEntry(e, n);
        assert e.participants[..|e.participants|] == e.participants;
      } else {
        assert before + [] == before;
      }
    }
  }
  lemma NoRowsNoGroups()
    ensures Group([]) == []
  {}
  // A curve ends exactly if a counted bankruptcy took money from the player.
  lemma {:induction false} CurveEnds(log: seq<Entry>, player: PlayerId)
    ensures EndsAt(EntryGroups(log), player).Some? <==>
            exists e :: e in log && Counted(e) && e.kind == BANKRUPTCY_TRANSFER && Pays(e.participants, player)
    decreases |log|
  {
    hide Counted, Pays;
    if log != [] {
      var n := |log| - 1;
      CurveEnds(log[..n], player);
      assert forall e :: e in log <==> e in log[..n] || e == log[n];
      if Counted(log[n]) && log[n].participants != [] {
        var groups := EntryGroups(log);
        assert groups[..|groups| - 1] == EntryGroups(log[..n]);
      } else {
        assert EntryGroups(log[..n]) + [] == EntryGroups(log[..n]);
        PaysSomebody(log[n].participants, player);
      }
    }
  }
  lemma PaysSomebody(deltas: seq<Delta>, player: PlayerId)
    ensures Pays(deltas, player) ==> deltas != []
  {}
  // What is left for the creditor after the bank's share and the fees.
  function CreditorNet(s: State, op: Operation): int
    requires op.GoBankrupt? && FindActive(s.players, op.player).Ok?
  {
    var preview := BankruptcyPreview(s.board, s.registry, op.player, op.creditor.Some?);
    var wallet := FindActive(s.players, op.player).value.balance + preview.proceeds;
    var settlement := OptionalSettlement(s.game, op.player, LoanOf(op.bankLoan), wallet);
    wallet - (if settlement.Ok? then BankTake(settlement.value) else 0) - preview.creditorFee
  }
  // A bankruptcy ends the curve of the bankrupt player exactly if they had money, and that of a
  // creditor exactly if the fees outweigh what they get.
  lemma WhoseCurveEnds(s: State, op: Operation, player: PlayerId)
    requires op.GoBankrupt? && Perform(s, op).Ok?
    ensures FindActive(s.players, op.player).Ok?
    ensures Pays(EntryOf(s, Perform(s, op).value).participants, player) <==>
            (player == op.player && FindActive(s.players, op.player).value.balance > 0) ||
            (op.creditor == Some(player) && CreditorNet(s, op) < 0)
  {
    hide BankruptcyPreview, OptionalSettlement, BankTake, ValidateGame, FindActive, HandOvers, RowsOnBoard,
      FindCreditor, BankruptcyChanges, Pays;
    ValidGameIsSound(s.game, s.players);
    var read := FindActive(s.players, op.player).value;
    var heir := FindCreditor(s.players, op.player, op.creditor).value;
    assert SoundPlayer(s.game, read);
    ChangesPay(s.players, read, heir, CreditorNet(s, op), player);
  }
  lemma ChangesPay(players: seq<Player>, read: Player, heir: Option<Player>, net: int, player: PlayerId)
    requires read in players && read.balance >= 0 && (heir.Some? ==> heir.value in players && heir.value.id != read.id)
    requires BankruptcyChanges(players, read, heir, net).Ok?
    ensures Pays(Deltas(BankruptcyChanges(players, read, heir, net).value), player) <==>
            (player == read.id && read.balance > 0) || (heir.Some? && player == heir.value.id && net < 0)
  {
    hide ReadFrom, SumDeltas;
    var own, others := WalletChange(Some(read), -read.balance).value, WalletChange(heir, net).value;
    var deltas := Deltas(own + others);
    assert forall d :: d in deltas <==> d in Deltas(own) || d in Deltas(others) by { DeltasOfBoth(own, others); }
    if read.balance > 0 { assert Deltas(own)[0] == (read.id, -read.balance); }
    if heir.Some? && net < 0 { assert Deltas(others)[0] == (heir.value.id, net); }
  }
  lemma DeltasOfBoth(a: seq<BalanceChange>, b: seq<BalanceChange>)
    ensures Deltas(a + b) == Deltas(a) + Deltas(b)
  {}

  // ----- Wallets over runs of operations and reversals -----

  lemma {:induction false} ShareOfAbsent(participants: seq<Delta>, player: PlayerId)
    requires forall d :: d in participants ==> d.0 != player
    ensures Share(participants, player) == 0
  {
    if participants != [] { ShareOfAbsent(participants[1..], player); }
  }
  lemma {:induction false} FirstIsAll(participants: seq<Delta>, player: PlayerId)
    requires DistinctDeltas(participants)
    ensures DeltaOf(participants, player) == Share(participants, player)
  {
    if participants != [] {
      FirstIsAll(participants[1..], player);
      if participants[0].0 == player {
        forall d | d in participants[1..]
          ensures d.0 != player
        {
          var k :| 0 <= k < |participants[1..]| && participants[1..][k] == d;
        }
        ShareOfAbsent(participants[1..], player);
      }
    }
  }
  lemma {:induction false} WrittenDelta(changes: seq<BalanceChange>, player: PlayerId)
    ensures DeltaOf(Deltas(changes), player) ==
            match FindBalance(changes, player) case Some(c) => c.delta case None => 0
  {
    if changes != [] {
      assert Deltas(changes)[1..] == Deltas(changes[1..]);
      WrittenDelta(changes[1..], player);
    }
  }

  // Every wallet is the starting balance and what the counted transactions moved.
  ghost predicate WalletsAddUp(l: Ledger, start: int) {
    DistinctPlayers(l.bank.players) &&
    (forall k :: 0 <= k < |l.bank.players| ==> WalletAddsUp(l, start, k)) &&
    (forall i :: 0 <= i < |l.log| ==> Counted(l.log[i]) ==> DistinctDeltas(l.log[i].participants))
  }
  predicate WalletAddsUp(l: Ledger, start: int, k: nat)
    requires k < |l.bank.players|
  {
    l.bank.players[k].balance == start + Moved(l.log, l.bank.players[k].id)
  }

  lemma WalletAfterOperation(s: State, op: Operation, k: nat)
    requires DistinctPlayers(s.players) && Takes(s, s, op) && k < |s.players|
    ensures var next, pending := Step(s, op), Perform(s, op).value;
            |next.players| == |s.players| && next.players[k].id == s.players[k].id &&
            next.players[k].balance == s.players[k].balance + DeltaOf(Deltas(pending.changes), s.players[k].id)
  {
    hide Perform, BankGain, WalletsStand, Matches, ApplyChanges, MovedMortgages, FindBalance, DeltaOf;
    var pending, row := Perform(s, op).value, s.players[k];
    WrittenDelta(pending.changes, row.id);
    PerformSettles(s, op);
    UpdatedRow(s.players, pending.changes, k);
    if op.GoBankrupt? && row.id == op.player {
      BankruptcyRead(s, op);
      FindPlayerAt(s.players, k);
      WalletStood(s.players, pending.changes, k);
      FoundActive(s.players, row.id);
      RowAfterEmptying(pending.changes, row, row);
    }
  }
  lemma WalletStood(players: seq<Player>, changes: seq<BalanceChange>, k: nat)
    requires WalletsStand(players, changes) && k < |players|
    ensures WalletStands(players[k], changes)
  {}
  lemma FoundActive(players: seq<Player>, id: PlayerId)
    requires FindActive(players, id).Ok?
    ensures FindActive(players, id) == FindPlayer(players, id)
  {}
  lemma DistinctWritten(s: State, op: Operation)
    requires Perform(s, op).Ok?
    ensures DistinctDeltas(Deltas(Perform(s, op).value.changes))
  {
    hide Perform, BankGain, SumDeltas, ReadFrom;
    PerformSettles(s, op);
  }

  lemma OperationAddsUp(l: Ledger, op: Operation, start: int)
    requires WalletsAddUp(l, start) && Takes(l.bank, l.bank, op)
    ensures WalletsAddUp(Next(l, Do(op)), start)
  {
    hide Perform, BankGain, Takes, Step, DistinctDeltas, DeltaOf, Moved, Share, Deltas;
    var next := Next(l, Do(op));
    var e := next.log[|l.log|];
    CommitKeepsPlayers(l.bank, op);
    TakenIsPerformed(l.bank, op);
    DistinctWritten(l.bank, op);
    forall k | 0 <= k < |next.bank.players| ensures WalletAddsUp(next, start, k) {
      WalletAfterOperation(l.bank, op, k);
      assert WalletAddsUp(l, start, k);
      FirstIsAll(e.participants, l.bank.players[k].id);
      MovedByOneMore(l.log, e, l.bank.players[k].id);
      OperationCounts(l.bank, op);
    }
  }
  lemma TakenIsPerformed(s: State, op: Operation)
    requires Takes(s, s, op)
    ensures Perform(s, op).Ok?
  {
    hide Perform, Commit, BankGain;
  }
  lemma OperationCounts(s: State, op: Operation)
    requires Perform(s, op).Ok?
    ensures Counted(EntryOf(s, Perform(s, op).value))
  {
    hide Perform, BankGain, Settles, ChangesTiles, RecordsMortgage;
    PerformSettles(s, op);
  }
  lemma MovedByOneMore(log: seq<Entry>, e: Entry, player: PlayerId)
    ensures Moved(log + [e], player) == Moved(log, player) + if Counted(e) then Share(e.participants, player) else 0
  {
    hide Share;
    assert (log + [e])[..|log|] == log;
  }
  lemma {:induction false} MovedWithout(log: seq<Entry>, i: nat, k: nat, player: PlayerId)
    requires i < |log| && Counted(log[i])
    ensures Moved(log[i := log[i].(reversedBy := Some(k))], player) ==
            Moved(log, player) - Share(log[i].participants, player)
    decreases |log|
  {
    hide Share;
    var n, e := |log| - 1, log[i].(reversedBy := Some(k));
    if i < n {
      MovedWithout(log[..n], i, k, player);
      assert log[i := e][..n] == log[..n][i := e];
    } else {
      assert log[i := e][..n] == log[..n];
    }
  }
  lemma ReversalAddsUp(l: Ledger, i: nat, start: int)
    requires WalletsAddUp(l, start) && CanUndo(l, i)
    ensures WalletsAddUp(Next(l, Reverse(i)), start)
  {
    hide CanUndo, UndoneBank, DistinctDeltas, DeltaOf, Moved, Share, ReverseTransaction, TileMovedBack;
    ReversalIsExact(l, i);
    NewEntryLinks(l, Reverse(i));
    UndoneShape(l, i);
    var next, e := Next(l, Reverse(i)), l.log[i];
    forall k | 0 <= k < |next.bank.players| ensures WalletAddsUp(next, start, k) {
      assert WalletAddsUp(l, start, k);
      var id := l.bank.players[k].id;
      FirstIsAll(e.participants, id);
      MovedWithout(l.log, i, |l.log|, id);
      MovedByOneMore(l.log[i := e.(reversedBy := Some(|l.log|))], next.log[|l.log|], id);
    }
  }
  lemma UndoneShape(l: Ledger, i: nat)
    requires CanUndo(l, i)
    ensures var next := Next(l, Reverse(i));
            i < |l.log| && Counted(l.log[i]) && !Counted(next.log[|l.log|]) && |next.log| == |l.log| + 1 &&
            next.log == l.log[i := l.log[i].(reversedBy := Some(|l.log|))] + [next.log[|l.log|]]
  {
    hide ReverseTransaction, Commit, FixedRecords, GroupTileIds;
  }

  lemma {:induction false} RunAddsUp(l: Ledger, actions: seq<Action>, start: int)
    requires WalletsAddUp(l, start)
    ensures WalletsAddUp(After(l, actions), start)
    decreases |actions|
  {
    hide WalletsAddUp, CanUndo, Takes;
    if actions != [] {
      match actions[0]
      case Do(op) => {
        if Takes(l.bank, l.bank, op) { OperationAddsUp(l, op, start); }
        RunAddsUp(Next(l, Do(op)), actions[1..], start);
      }
      case Reverse(i) => {
        if CanUndo(l, i) { ReversalAddsUp(l, i, start); }
        RunAddsUp(Next(l, Reverse(i)), actions[1..], start);
      }
    }
  }

  // After any run of operations and reversals the series rebuilt from the counted ledger ends at
  // every wallet.
  lemma SeriesEndsAtTheWallets(s: State, start: int, actions: seq<Action>, k: nat)
    requires DistinctPlayers(s.players) && forall p :: p in s.players ==> p.balance == start
    requires k < |After(Ledger(s, []), actions).bank.players|
    ensures var l := After(Ledger(s, []), actions);
            var player := l.bank.players[k];
            start + TotalFor(Group(LedgerRows(l.log)), player.id) == player.balance
    ensures var l := After(Ledger(s, []), actions);
            var player := l.bank.players[k];
            forall points :: Thinned(points, Group(LedgerRows(l.log)), start, player.id) ==>
                points[|points| - 1] == player.balance
  {
    hide After, TotalFor, Group, LedgerRows, Moved, Keep;
    var l := After(Ledger(s, []), actions);
    StartAddsUp(s, start);
    RunAddsUp(Ledger(s, []), actions, start);
    assert WalletAddsUp(l, start, k);
    RowsAreMoved(l.log, l.bank.players[k].id);
    GroupingKeepsTotals(LedgerRows(l.log), l.bank.players[k].id);
  }
  lemma StartAddsUp(s: State, start: int)
    requires DistinctPlayers(s.players) && forall p :: p in s.players ==> p.balance == start
    ensures WalletsAddUp(Ledger(s, []), start)
  {}

  // ----- The final summary -----

  predicate IsLoan(e: Entry) { e.kind == LOAN_ISSUE || e.kind == LOAN_REPAYMENT }
  // Money sent and received, each counted up from zero.
  datatype Metric = Metric(sent: int, received: int)

  function Add(m: Metric, delta: int): Metric {
    if delta < 0 then m.(sent := m.sent - delta) else m.(received := m.received + delta)
  }
  function AddAll(m: Metric, deltas: seq<Delta>, player: PlayerId): Metric
    decreases |deltas|
  {
    if deltas == [] then m
    else AddAll(if deltas[0].0 == player then Add(m, deltas[0].1) else m, deltas[1..], player)
  }
  function MetricOf(log: seq<Entry>, player: PlayerId): Metric {
    if log == [] then Metric(0, 0)
    else
      var before, e := MetricOf(log[..|log| - 1], player), log[|log| - 1];
      if Counted(e) && !IsLoan(e) then AddAll(before, e.participants, player) else before
  }
  // What borrowing and repaying moved, which the summary does not count.
  function Lent(log: seq<Entry>, player: PlayerId): int {
    if log == [] then 0
    else
      Lent(log[..|log| - 1], player) + if Counted(log[|log| - 1]) &&
          IsLoan(log[|log| - 1]) then Share(log[|log| - 1].participants, player) else 0
  }
  lemma {:induction false} AddedShare(m: Metric, deltas: seq<Delta>, player: PlayerId)
    ensures var n := AddAll(m, deltas, player);
            n.received - n.sent == m.received - m.sent + Share(deltas, player) && n.sent >= m.sent &&
                n.received >= m.received
    decreases |deltas|
  {
    if deltas != [] { AddedShare(if deltas[0].0 == player then Add(m, deltas[0].1) else m, deltas[1..], player); }
  }
  lemma {:induction false} SummaryAddsUp(log: seq<Entry>, player: PlayerId)
    ensures var m := MetricOf(log, player);
            m.received - m.sent + Lent(log, player) == Moved(log, player) && m.sent >= 0 && m.received >= 0
    decreases |log|
  {
    hide Share, AddAll;
    if log != [] {
      SummaryAddsUp(log[..|log| - 1], player);
      AddedShare(MetricOf(log[..|log| - 1], player), log[|log| - 1].participants, player);
    }
  }
  // After any run, what a player received less what they sent, with their loans, is what they have.
  lemma SummaryExplainsTheWallets(s: State, start: int, actions: seq<Action>, k: nat)
    requires DistinctPlayers(s.players) && forall p :: p in s.players ==> p.balance == start
    requires k < |After(Ledger(s, []), actions).bank.players|
    ensures var l := After(Ledger(s, []), actions);
            var player := l.bank.players[k];
            var m := MetricOf(l.log, player.id);
            player.balance == start + m.received - m.sent + Lent(l.log, player.id)
  {
    hide After, Moved, MetricOf, Lent;
    var l := After(Ledger(s, []), actions);
    StartAddsUp(s, start);
    RunAddsUp(Ledger(s, []), actions, start);
    assert WalletAddsUp(l, start, k);
    SummaryAddsUp(l.log, l.bank.players[k].id);
  }

  lemma {:induction false} AddAllAppend(m: Metric, deltas: seq<Delta>, d: Delta, player: PlayerId)
    ensures AddAll(m, deltas + [d], player) == if d.0 == player then Add(AddAll(m, deltas, player), d.1)
                                               else AddAll(m, deltas, player)
    decreases |deltas|
  {
    hide Add;
    if deltas == [] {
      assert (deltas + [d])[1..] == [];
    } else {
      assert (deltas + [d])[1..] == deltas[1..] + [d];
      AddAllAppend(if deltas[0].0 == player then Add(m, deltas[0].1) else m, deltas[1..], d, player);
    }
  }
  method Summarize(log: seq<Entry>, players: seq<PlayerId>) returns (metrics: map<PlayerId, Metric>)
    ensures metrics.Keys == set p | p in players
    ensures forall p :: p in metrics ==> metrics[p] == MetricOf(log, p)
  {
    hide AddAll, Counted, IsLoan;
    metrics := map p | p in players :: Metric(0, 0);
    for n := 0 to |log|
      invariant metrics.Keys == set p | p in players
      invariant forall p :: p in metrics ==> metrics[p] == MetricOf(log[..n], p)
    {
      assert log[..n + 1][..n] == log[..n];
      if Counted(log[n]) && !IsLoan(log[n]) { metrics := AddParticipants(metrics, log[n].participants); }
    }
    assert log[..|log|] == log;
  }
  method AddParticipants(start: map<PlayerId, Metric>, deltas: seq<Delta>) returns (metrics: map<PlayerId, Metric>)
    ensures metrics.Keys == start.Keys
    ensures forall p :: p in metrics ==> metrics[p] == AddAll(start[p], deltas, p)
  {
    hide Add;
    metrics := start;
    for k := 0 to |deltas|
      invariant metrics.Keys == start.Keys
      invariant forall p :: p in metrics ==> metrics[p] == AddAll(start[p], deltas[..k], p)
    {
      assert deltas[..k + 1] == deltas[..k] + [deltas[k]];
      forall p | p in start
        ensures AddAll(start[p], deltas[..k + 1], p) == if deltas[k].0 == p
                then Add(AddAll(start[p], deltas[..k], p), deltas[k].1) else AddAll(start[p], deltas[..k], p)
      {
        AddAllAppend(start[p], deltas[..k], deltas[k], p);
      }
      var (player, delta) := deltas[k];
      if player in metrics { metrics := metrics[player := Add(metrics[player], delta)]; }
    }
    assert deltas[..|deltas|] == deltas;
  }
}
