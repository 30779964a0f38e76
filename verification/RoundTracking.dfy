/** Rounds of a bank loan, inferred from whose operations follow one another in the log. */
module RoundTracking {
  import opened Search
  import opened Results
  import opened Property
  import opened Banking

  const OVERDUE_ROUND: int := 4
  const COOLDOWN_ROUNDS: int := 2

  datatype Logged = Logged(id: nat, kind: Kind, participants: seq<Delta>, reversed: bool)
  datatype Side = Debit | Credit

  predicate OnSide(d: Delta, side: Side) { if side == Debit then d.1 < 0 else d.1 > 0 }
  function Matching(participants: seq<Delta>, side: Side): seq<Delta> {
    if participants == [] then []
    else (if OnSide(participants[0], side) then [participants[0]] else []) + Matching(participants[1..], side)
  }
  function SoleParticipant(participants: seq<Delta>, side: Side): Option<PlayerId> {
    var matching := Matching(participants, side);
    if |matching| == 1 then Some(matching[0].0) else None
  }
  function ActorSide(kind: Kind): Option<Side> {
    match kind
    case PLAYER_TO_PLAYER => Some(Debit)
    case PAY_RENT => Some(Debit)
    case PLAYER_TO_BANK => Some(Debit)
    case PLAYER_TO_ALL => Some(Debit)
    case TO_JACKPOT => Some(Debit)
    case BANK_TO_PLAYER => Some(Credit)
    case PASS_GO => Some(Credit)
    case ALL_TO_PLAYER => Some(Credit)
    case JACKPOT_PAYOUT => Some(Credit)
    case _ => None
  }
  function TransactionActor(t: Logged): Option<PlayerId> {
    if t.reversed || ActorSide(t.kind).None? then None else SoleParticipant(t.participants, ActorSide(t.kind).value)
  }

  // ----- Turns -----

  function Extend(runs: seq<PlayerId>, actor: Option<PlayerId>): seq<PlayerId> {
    if actor.None? || (runs != [] && runs[|runs| - 1] == actor.value) then runs else runs + [actor.value]
  }
  // The actors one after another, a player acting repeatedly taking one place.
  function Runs(log: seq<Logged>): seq<PlayerId> {
    if log == [] then [] else Extend(Runs(log[..|log| - 1]), TransactionActor(log[|log| - 1]))
  }
  function Turns(runs: seq<PlayerId>, player: PlayerId): nat {
    if |runs| <= 1 then 0 else Turns(runs[..|runs| - 1], player) + if runs[|runs| - 1] == player then 1 else 0
  }
  function IdOf(t: Logged): nat { t.id }
  function TurnsStartedSince(log: seq<Logged>, anchor: nat, player: PlayerId): nat {
    var i := PlaceOf(log, IdOf, anchor);
    if i == |log| then 0 else Turns(Runs(log[i + 1..]), player)
  }

  method CountTurns(log: seq<Logged>, anchor: nat, player: PlayerId) returns (turns: nat)
    ensures turns == TurnsStartedSince(log, anchor, player)
  {
    hide TransactionActor;
    var anchorIndex := PlaceOf(log, IdOf, anchor);
    if anchorIndex == |log| { return 0; }
    var rest := log[anchorIndex + 1..];
    var runs := [];
    for k := 0 to |rest|
      invariant runs == Runs(rest[..k])
    {
      assert rest[..k + 1][..k] == rest[..k];
      var actor := TransactionActor(rest[k]);
      if actor.Some? && (runs == [] || runs[|runs| - 1] != actor.value) { runs := runs + [actor.value]; }
    }
    assert rest[..|rest|] == rest;
    turns := 0;
    for k := 0 to |runs|
      invariant turns == Turns(runs[..k], player)
    {
      assert runs[..k + 1][..k] == runs[..k];
      if runs[k] == player && k > 0 { turns := turns + 1; }
    }
    assert runs[..|runs|] == runs;
  }

  // ----- The same count in one pass -----

  datatype Pass = Pass(last: Option<PlayerId>, count: nat)

  // Counts each change of actor into the player.
  function OnePass(log: seq<Logged>, player: PlayerId): Pass {
    if log == [] then Pass(None, 0)
    else
      var before := OnePass(log[..|log| - 1], player);
      match TransactionActor(log[|log| - 1])
      case None => before
      case Some(actor) =>
        Pass(Some(actor), before.count + if before.last.Some? && before.last.value != actor && actor == player then 1
                                         else 0)
  }
  function LastOf(runs: seq<PlayerId>): Option<PlayerId> { if runs == [] then None else Some(runs[|runs| - 1]) }

  lemma {:induction false} OnePassCountsTurns(log: seq<Logged>, player: PlayerId)
    ensures OnePass(log, player) == Pass(LastOf(Runs(log)), Turns(Runs(log), player))
    decreases |log|
  {
    hide TransactionActor, Turns;
    if log == [] { TurnsOfFew([], player); } else {
      OnePassCountsTurns(log[..|log| - 1], player);
      TurnsAfterExtend(Runs(log[..|log| - 1]), TransactionActor(log[|log| - 1]), player);
    }
  }
  lemma TurnsOfFew(runs: seq<PlayerId>, player: PlayerId)
    requires |runs| <= 1
    ensures Turns(runs, player) == 0
  {}
  lemma TurnsAfterExtend(runs: seq<PlayerId>, actor: Option<PlayerId>, player: PlayerId)
    ensures Turns(Extend(runs, actor), player) ==
            Turns(runs, player) + if actor.Some? && runs != [] && runs[|runs| - 1] != actor.value &&
                actor.value == player then 1 else 0
  {
    var longer := Extend(runs, actor);
    if longer != runs {
      assert longer[..|runs|] == runs;
      if runs == [] { TurnsOfFew(longer, player); }
    }
  }
  lemma TurnsAreActorChanges(log: seq<Logged>, anchor: nat, player: PlayerId)
    ensures var i := PlaceOf(log, IdOf, anchor);
            TurnsStartedSince(log, anchor, player) == if i == |log| then 0 else OnePass(log[i + 1..], player).count
  {
    hide Turns, Runs, OnePass, PlaceOf;
    var i := PlaceOf(log, IdOf, anchor);
    if i < |log| { OnePassCountsTurns(log[i + 1..], player); }
  }

  // ----- All players together -----

  function SumTurns(players: seq<PlayerId>, runs: seq<PlayerId>): nat {
    if players == [] then 0 else Turns(runs, players[0]) + SumTurns(players[1..], runs)
  }
  function Occurrences(players: seq<PlayerId>, p: PlayerId): nat {
    if players == [] then 0 else (if players[0] == p then 1 else 0) + Occurrences(players[1..], p)
  }
  lemma {:induction false} OneMoreRun(players: seq<PlayerId>, runs: seq<PlayerId>)
    requires |runs| >= 2
    ensures SumTurns(players, runs) == SumTurns(players, runs[..|runs| - 1]) + Occurrences(players, runs[|runs| - 1])
  {
    if players != [] { OneMoreRun(players[1..], runs); }
  }
  lemma {:induction false} NoTurnsYet(players: seq<PlayerId>, runs: seq<PlayerId>)
    requires |runs| <= 1
    ensures SumTurns(players, runs) == 0
  {
    if players != [] { NoTurnsYet(players[1..], runs); }
  }
  lemma {:induction false} OccursOnce(players: seq<PlayerId>, p: PlayerId)
    requires forall i, j :: 0 <= i < j < |players| ==> players[i] != players[j]
    ensures Occurrences(players, p) == if p in players then 1 else 0
  {
    if players != [] { OccursOnce(players[1..], p); }
  }
  // Every turn but the anchor's own belongs to exactly one player.
  lemma {:induction false} TurnsAddUp(players: seq<PlayerId>, runs: seq<PlayerId>)
    requires forall i, j :: 0 <= i < j < |players| ==> players[i] != players[j]
    requires forall r :: r in runs ==> r in players
    ensures SumTurns(players, runs) == if runs == [] then 0 else |runs| - 1
    decreases |runs|
  {
    if |runs| <= 1 { NoTurnsYet(players, runs); } else {
      TurnsAddUp(players, runs[..|runs| - 1]);
      OneMoreRun(players, runs);
      OccursOnce(players, runs[|runs| - 1]);
    }
  }

  // ----- Loans -----

  function SuggestedRate(round: int): int { if round <= 1 then 0 else if round == 2 then 10 else 20 }
  datatype RoundStatus = RoundStatus(round: int, rate: int, overdue: bool)
  function LoanRoundStatus(log: seq<Logged>, loanId: nat, borrower: PlayerId): RoundStatus {
    var round := 1 + TurnsStartedSince(log, loanId, borrower);
    RoundStatus(round, SuggestedRate(round), round >= OVERDUE_ROUND)
  }

  // One more transaction moves a loan's round on by at most one and never back, and so its rate.
  lemma AppendingNeverLowersARound(log: seq<Logged>, t: Logged, loanId: nat, borrower: PlayerId)
    ensures var before, after := LoanRoundStatus(log, loanId, borrower), LoanRoundStatus(log + [t], loanId, borrower);
            before.round <= after.round <= before.round + 1 && before.rate <= after.rate &&
                (before.overdue ==> after.overdue)
  {
    hide Turns, Runs, PlaceOf, TransactionActor;
    PlaceAfterAppend(log, t, IdOf, loanId);
    var i := PlaceOf(log, IdOf, loanId);
    if i < |log| {
      var rest := log[i + 1..];
      assert (log + [t])[i + 1..] == rest + [t];
      RunsAfterAppend(rest, t);
      TurnsAfterExtend(Runs(rest), TransactionActor(t), borrower);
    } else if t.id == loanId {
      assert (log + [t])[|log| + 1..] == [];
      NoRuns();
      TurnsOfFew([], borrower);
    }
  }
  lemma RunsAfterAppend(log: seq<Logged>, t: Logged)
    ensures Runs(log + [t]) == Extend(Runs(log), TransactionActor(t))
  {
    hide TransactionActor;
    assert (log + [t])[..|log|] == log;
  }
  lemma NoRuns() ensures Runs([]) == [] {}

  // ----- Cooldowns -----

  datatype Repayment = Repayment(player: PlayerId, transaction: nat)

  function Latest(repayments: seq<Repayment>, player: PlayerId): Option<nat> {
    if repayments == [] then None
    else if repayments[|repayments| - 1].player == player then Some(repayments[|repayments| - 1].transaction)
    else Latest(repayments[..|repayments| - 1], player)
  }
  function RoundsLeft(repayments: seq<Repayment>, log: seq<Logged>, player: PlayerId): int {
    match Latest(repayments, player)
    case None => 0
    case Some(id) => COOLDOWN_ROUNDS - TurnsStartedSince(log, id, player)
  }
  function PlayerOf(repayment: Repayment): nat { repayment.player }
  function FirstRepaid(repayments: seq<Repayment>, player: PlayerId): nat { PlaceOf(repayments, PlayerOf, player) }

  datatype Cooldown = Cooldown(player: PlayerId, roundsLeft: int)
  predicate Waits(repayments: seq<Repayment>, log: seq<Logged>, bankrupt: set<PlayerId>, player: PlayerId) {
    player !in bankrupt && RoundsLeft(repayments, log, player) > 0
  }

  // Exactly the players still in the game whose latest repayment is fewer than two turns back, each
  // with the rounds left, in the order of their first repayments.
  method BankLoanCooldowns(repayments: seq<Repayment>, log: seq<Logged>,
          bankrupt: set<PlayerId>) returns (cooldowns: seq<Cooldown>)
    ensures forall p :: Waits(repayments, log, bankrupt, p) ==> Cooldown(p, RoundsLeft(repayments, log, p)) in cooldowns
    ensures forall c :: c in cooldowns ==>
            Waits(repayments, log, bankrupt, c.player) && c.roundsLeft == RoundsLeft(repayments, log, c.player)
    ensures forall i, j :: 0 <= i < j < |cooldowns| ==>
              FirstRepaid(repayments, cooldowns[i].player) < FirstRepaid(repayments, cooldowns[j].player)
  {
    hide TurnsStartedSince, FirstRepaid;
    var latest, players := LatestByPlayer(repayments);
    cooldowns := [];
    for n := 0 to |players|
      invariant forall c :: c in cooldowns ==>
                Waits(repayments, log, bankrupt, c.player) && c.roundsLeft == RoundsLeft(repayments, log, c.player)
      invariant forall m :: 0 <= m < n && Waits(repayments, log, bankrupt, players[m]) ==>
                  Cooldown(players[m], RoundsLeft(repayments, log, players[m])) in cooldowns
      invariant forall i, m :: 0 <= i < |cooldowns| && n <= m < |players| ==>
                  FirstRepaid(repayments, cooldowns[i].player) < FirstRepaid(repayments, players[m])
      invariant forall i, j :: 0 <= i < j < |cooldowns| ==>
                  FirstRepaid(repayments, cooldowns[i].player) < FirstRepaid(repayments, cooldowns[j].player)
    {
      var player := players[n];
      if player !in bankrupt {
        var roundsLeft := COOLDOWN_ROUNDS - TurnsStartedSince(log, latest[player], player);
        if roundsLeft > 0 { cooldowns := cooldowns + [Cooldown(player, roundsLeft)]; }
      }
    }
  }
  // The latest repayment of each player, and the players in the order they first appear.
  method LatestByPlayer(repayments: seq<Repayment>) returns (latest: map<PlayerId, nat>, players: seq<PlayerId>)
    ensures forall p :: p in latest <==> Latest(repayments, p).Some?
    ensures forall p :: p in latest ==> latest[p] == Latest(repayments, p).value
    ensures forall p :: p in latest <==> p in players
    ensures forall i, j :: 0 <= i < j < |players| ==>
            FirstRepaid(repayments, players[i]) < FirstRepaid(repayments, players[j])
  {
    hide FirstRepaid;
    latest, players := map[], [];
    for k := 0 to |repayments|
      invariant forall p :: p in latest <==> Latest(repayments[..k], p).Some?
      invariant forall p :: p in latest ==> latest[p] == Latest(repayments[..k], p).value
      invariant forall p :: p in latest <==> p in players
      invariant forall p :: p in latest <==> FirstRepaid(repayments, p) < k
      invariant forall i, j :: 0 <= i < j < |players| ==>
                FirstRepaid(repayments, players[i]) < FirstRepaid(repayments, players[j])
    {
      assert repayments[..k + 1][..k] == repayments[..k];
      var player := repayments[k].player;
      forall p
        ensures FirstRepaid(repayments, p) < k + 1 <==> FirstRepaid(repayments, p) < k || p == player
      {
        FirstBefore(repayments, k, p);
      }
      if player !in latest { players := players + [player]; }
      latest := latest[player := repayments[k].transaction];
    }
    assert repayments[..|repayments|] == repayments;
  }
  lemma FirstBefore(repayments: seq<Repayment>, k: nat, p: PlayerId)
    requires k < |repayments|
    ensures FirstRepaid(repayments, p) < k + 1 <==> FirstRepaid(repayments, p) < k || p == repayments[k].player
  {
    assert PlayerOf(repayments[k]) == repayments[k].player;
  }
}
