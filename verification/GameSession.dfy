/** The coordinator of one game: requests share the command in flight, slots run one at a time, and
    the ledger row is written only when a command has ended. Every await is a place where another
    event may happen, and a crash may happen after any of them. */
module GameSession {
  import opened Results
  import opened CommandLedger

  datatype Slot = Slot(task: nat, claim: Claim)
  datatype Outcome = Success(result: nat) | Failure
  datatype Answer = Answer(claim: Claim, result: nat)
  datatype Execution = Execution(id: CommandId, version: nat)

  // How far the slot that holds the queue has come.
  datatype Stage =
    | Idle
    | Started(slot: Slot)
    | Claimed(slot: Slot)
    | Executed(slot: Slot, result: nat)
    | Bumped(slot: Slot, result: nat)
    | Stored(slot: Slot, result: nat)

  datatype Session = Session(
    // Durable: the ledger, the version, and what has been written under each identifier: a command's
    // transaction, which bears the command's identifier, or the closing of the auction that a
    // settlement's identifier names.
    rows: Rows, version: nat, effects: set<CommandId>,
    // Lost in a crash.
    queue: seq<Slot>, stage: Stage, inFlight: map<CommandId, Slot>, outcomes: map<nat, Outcome>, waiting: seq<Slot>,
    // What has happened so far.
    nextTask: nat, answers: seq<Answer>, executions: seq<Execution>, applied: seq<CommandId>, completions: seq<Claim>)

  datatype Event =
    | Arrive(claim: Claim)                          // a request for a command
    | Trigger(claim: Claim)                         // a settlement, from the alarm or a lazy trigger
    | Prelude(claim: Claim)                         // the settlement run first in a command's slot
    | Begin
    | DoClaim
    | Refuse                                        // not authorized
    | Execute(ok: bool, result: nat, writes: bool)
    | Bump
    | Complete(written: bool, acknowledged: bool)   // the write may land without its answer
    | Publish(delivered: bool)
    | Respond(k: nat)                               // a waiting request reads the outcome
    | Tidy(id: CommandId)                           // the settled command leaves the in-flight map
    | Crash

  predicate SameCommand(a: Claim, b: Claim) { a.actor == b.actor && a.payload == b.payload }

  function NewSlot(s: Session, claim: Claim): Slot { Slot(s.nextTask, claim) }

  function OnArrive(s: Session, claim: Claim): Session {
    if claim.id in s.inFlight then
      if SameCommand(s.inFlight[claim.id].claim, claim) then s.(waiting := s.waiting + [s.inFlight[claim.id]]) else s
    else
      var slot := NewSlot(s, claim);
      s.(queue := s.queue + [slot], inFlight := s.inFlight[claim.id := slot], waiting := s.waiting + [slot],
          nextTask := s.nextTask + 1)
  }
  function End(s: Session, slot: Slot, outcome: Outcome): Session {
    s.(stage := Idle, outcomes := s.outcomes[slot.task := outcome])
  }
  function OnClaim(s: Session, slot: Slot): Session {
    match Found(s.rows, slot.claim)
    case Err(_) => End(s, slot, Failure)
    case Ok(row) => if row.result.Some? then End(s, slot, Success(row.result.value)) else s.(stage := Claimed(slot))
  }
  // A transaction already stored under the identifier is returned, never written again; a settlement
  // writes its payment in one batch with the auction it closes, which fails if that is closed already.
  function OnExecute(s: Session, slot: Slot, ok: bool, result: nat, writes: bool): Session {
    var id := slot.claim.id;
    var t := if writes && id !in s.effects then s.(effects := s.effects + {id}, applied := s.applied + [id]) else s;
    if ok then t.(stage := Executed(slot, result)) else End(t, slot, Failure)
  }
  function OnBump(s: Session, slot: Slot, result: nat): Session {
    s.(version := s.version + 1, executions := s.executions + [Execution(slot.claim.id, s.version + 1)],
        stage := Bumped(slot, result))
  }
  function OnComplete(s: Session, slot: Slot, result: nat, written: bool, acknowledged: bool): Session {
    var t := if written then s.(rows := CommandLedger.Completed(s.rows, Some(slot.claim), slot.claim.id, result),
        completions := s.completions + [slot.claim]) else s;
    if written && acknowledged then t.(stage := Stored(slot, result)) else End(t, slot, Failure)
  }
  function OnRespond(s: Session, k: nat): Session
    requires k < |s.waiting|
  {
    var slot := s.waiting[k];
    if slot.task !in s.outcomes then s
    else
      var t := s.(waiting := s.waiting[..k] + s.waiting[k + 1..]);
      match s.outcomes[slot.task]
      case Success(result) => t.(answers := s.answers + [Answer(slot.claim, result)])
      case Failure => t
  }

  // An event that cannot happen now changes nothing.
  function Next(s: Session, e: Event): Session {
    match e
    case Arrive(claim) => OnArrive(s, claim)
    case Trigger(claim) => s.(queue := s.queue + [NewSlot(s, claim)], nextTask := s.nextTask + 1)
    case Prelude(claim) => if s.stage.Idle? then s.(queue := [NewSlot(s, claim)] + s.queue, nextTask := s.nextTask + 1)
                           else s
    case Begin => if s.stage.Idle? && s.queue != [] then s.(stage := Started(s.queue[0]), queue := s.queue[1..]) else s
    case DoClaim => if s.stage.Started? then OnClaim(s, s.stage.slot) else s
    case Refuse => if s.stage.Claimed? then End(s, s.stage.slot, Failure) else s
    case Execute(ok, result, writes) => if s.stage.Claimed? then OnExecute(s, s.stage.slot, ok, result, writes) else s
    case Bump => if s.stage.Executed? then OnBump(s, s.stage.slot, s.stage.result) else s
    case Complete(written, acknowledged) => if s.stage.Bumped?
        then OnComplete(s, s.stage.slot, s.stage.result, written, acknowledged) else s
    case Publish(delivered) =>
      if s.stage.Stored? then End(s, s.stage.slot, if delivered then Success(s.stage.result) else Failure) else s
    case Respond(k) => if k < |s.waiting| then OnRespond(s, k) else s
    case Tidy(id) => if id in s.inFlight && s.inFlight[id].task in s.outcomes then s.(inFlight := s.inFlight - {id})
                     else s
    case Crash => s.(queue := [], stage := Idle, inFlight := map[], outcomes := map[], waiting := [])
  }
  function After(s: Session, events: seq<Event>): Session
    decreases |events|
  {
    if events == [] then s else After(Next(s, events[0]), events[1..])
  }

  // ----- What every run keeps -----

  ghost predicate IsStored(rows: Rows, claim: Claim, result: nat) {
    claim.id in rows && rows[claim.id] == Row(claim, Some(result))
  }

  // Nothing but the slot that holds the queue completes a row, so its claim stays good.
  ghost predicate StageSound(s: Session) {
    match s.stage
    case Idle => true
    case Started(_) => true
    case Stored(slot, result) => IsStored(s.rows, slot.claim, result)
    case _ => Found(s.rows, s.stage.slot.claim).Ok? && Found(s.rows, s.stage.slot.claim).value.result.None?
  }
  ghost predicate SlotsKnown(s: Session) {
    && (forall id :: id in s.inFlight ==> s.inFlight[id].claim.id == id)
    && (forall t :: t in s.outcomes ==> t < s.nextTask)
    && (forall id :: id in s.inFlight ==> s.inFlight[id].task < s.nextTask)
    && (forall k :: 0 <= k < |s.waiting| ==> s.waiting[k].task < s.nextTask)
    && (forall k :: 0 <= k < |s.queue| ==> s.queue[k].task < s.nextTask)
    && (!s.stage.Idle? ==> s.stage.slot.task < s.nextTask)
  }
  // One slot per task number.
  ghost predicate OneSlot(a: Slot, b: Slot) { a.task == b.task ==> a == b }
  ghost predicate SlotsAgree(s: Session) {
    && (forall j, k :: 0 <= j < |s.waiting| && 0 <= k < |s.waiting| ==> OneSlot(s.waiting[j], s.waiting[k]))
    && (forall j, k :: 0 <= j < |s.waiting| && 0 <= k < |s.queue| ==> OneSlot(s.waiting[j], s.queue[k]))
    && (forall j, id :: 0 <= j < |s.waiting| && id in s.inFlight ==> OneSlot(s.waiting[j], s.inFlight[id]))
    && (forall j, id :: 0 <= j < |s.queue| && id in s.inFlight ==> OneSlot(s.queue[j], s.inFlight[id]))
    && (forall id, other :: id in s.inFlight && other in s.inFlight ==> OneSlot(s.inFlight[id], s.inFlight[other]))
    && (!s.stage.Idle? ==> forall j :: 0 <= j < |s.waiting| ==> OneSlot(s.waiting[j], s.stage.slot))
    && (!s.stage.Idle? ==> forall id :: id in s.inFlight ==> OneSlot(s.inFlight[id], s.stage.slot))
  }
  // A successful outcome is the stored result of whoever waits for it.
  ghost predicate OutcomesStored(s: Session) {
    && (forall k :: 0 <= k < |s.waiting| ==> OutcomeStored(s, s.waiting[k]))
    && (forall id :: id in s.inFlight ==> OutcomeStored(s, s.inFlight[id]))
  }
  ghost predicate OutcomeStored(s: Session, slot: Slot) {
    slot.task in s.outcomes && s.outcomes[slot.task].Success? ==>
        IsStored(s.rows, slot.claim, s.outcomes[slot.task].result)
  }
  ghost predicate HistorySound(s: Session) {
    && (forall i :: 0 <= i < |s.answers| ==> IsStored(s.rows, s.answers[i].claim, s.answers[i].result))
    && (forall i, j :: 0 <= i < j < |s.executions| ==> s.executions[i].version < s.executions[j].version)
    && (forall i :: 0 <= i < |s.executions| ==> s.executions[i].version <= s.version)
    && (forall i, j :: 0 <= i < j < |s.applied| ==> s.applied[i] != s.applied[j])
    && (forall i :: 0 <= i < |s.applied| ==> s.applied[i] in s.effects)
    && (forall i, j :: 0 <= i < j < |s.completions| ==> s.completions[i].id != s.completions[j].id)
    && (forall i :: 0 <= i < |s.completions| ==>
        IsCompleted(s.rows, s.completions[i].id) && s.rows[s.completions[i].id].claim == s.completions[i])
  }
  ghost predicate Sound(s: Session) {
    StageSound(s) && SlotsKnown(s) && SlotsAgree(s) && OutcomesStored(s) && HistorySound(s)
  }

  lemma RowsKept(s: Session, e: Event, id: CommandId)
    requires IsCompleted(s.rows, id)
    ensures IsCompleted(Next(s, e).rows, id) && Next(s, e).rows[id] == s.rows[id]
  {
    hide Found;
    if e.Complete? && s.stage.Bumped? && e.written {
      CompletedIsFinal(s.rows, Some(s.stage.slot.claim), s.stage.slot.claim.id, s.stage.result, id);
    }
  }

  lemma ArriveKeeps(s: Session, claim: Claim)
    requires Sound(s)
    ensures Sound(OnArrive(s, claim))
  {
    hide OnArrive, Sound;
    if claim.id in s.inFlight { AttachKeeps(s, claim); } else { EnqueueKeeps(s, claim); }
  }
  lemma AttachKeeps(s: Session, claim: Claim)
    requires Sound(s) && claim.id in s.inFlight
    ensures Sound(OnArrive(s, claim))
  {
    hide Found, IsStored, StageSound, HistorySound;
    var next := OnArrive(s, claim);
    assert HistorySound(next) && StageSound(next) by { SameDurable(s, next); }
  }
  lemma EnqueueKeeps(s: Session, claim: Claim)
    requires Sound(s) && claim.id !in s.inFlight
    ensures Sound(OnArrive(s, claim))
  {
    hide Found, IsStored, StageSound, HistorySound, SlotsKnown, SlotsAgree, OutcomesStored;
    var next := OnArrive(s, claim);
    assert HistorySound(next) && StageSound(next) by { SameDurable(s, next); }
    EnqueueKnown(s, claim);
    EnqueueAgrees(s, claim);
    EnqueueOutcomes(s, claim);
  }
  lemma EnqueueKnown(s: Session, claim: Claim)
    requires SlotsKnown(s) && claim.id !in s.inFlight
    ensures SlotsKnown(OnArrive(s, claim))
  {}
  lemma EnqueueAgrees(s: Session, claim: Claim)
    requires SlotsKnown(s) && SlotsAgree(s) && claim.id !in s.inFlight
    ensures SlotsAgree(OnArrive(s, claim))
  {}
  lemma EnqueueOutcomes(s: Session, claim: Claim)
    requires SlotsKnown(s) && OutcomesStored(s) && claim.id !in s.inFlight
    ensures OutcomesStored(OnArrive(s, claim))
  {
    hide IsStored;
  }
  lemma SameDurable(s: Session, next: Session)
    requires next.rows == s.rows && next.stage == s.stage && next.answers == s.answers &&
             next.executions == s.executions && next.version == s.version
    requires next.applied == s.applied && next.effects == s.effects && next.completions == s.completions
    ensures StageSound(s) ==> StageSound(next)
    ensures HistorySound(s) ==> HistorySound(next)
  {}
  lemma QueueKeeps(s: Session, e: Event)
    requires Sound(s) && (e.Trigger? || e.Prelude?)
    ensures Sound(Next(s, e))
  {
    hide Found, IsStored, StageSound, HistorySound, SlotsKnown, SlotsAgree, OutcomesStored;
    assert HistorySound(Next(s, e)) && StageSound(Next(s, e)) by { SameDurable(s, Next(s, e)); }
    QueueAgrees(s, e);
    assert OutcomesStored(Next(s, e)) by { SameWaiting(s, Next(s, e)); }
  }
  lemma QueueAgrees(s: Session, e: Event)
    requires SlotsKnown(s) && SlotsAgree(s) && (e.Trigger? || e.Prelude?)
    ensures SlotsKnown(Next(s, e)) && SlotsAgree(Next(s, e))
  {}
  lemma SameWaiting(s: Session, next: Session)
    requires OutcomesStored(s) && next.waiting == s.waiting && next.inFlight == s.inFlight &&
             next.outcomes == s.outcomes && next.rows == s.rows
    ensures OutcomesStored(next)
  {
    hide IsStored;
  }
  lemma BeginKeeps(s: Session)
    requires Sound(s)
    ensures Sound(Next(s, Begin))
  {
    hide Found, IsStored, HistorySound;
    assert HistorySound(Next(s, Begin)) by { SameHistory(s, Next(s, Begin)); }
  }
  lemma SameHistory(s: Session, next: Session)
    requires next.rows == s.rows && next.answers == s.answers && next.executions == s.executions &&
             next.version == s.version
    requires next.applied == s.applied && next.effects == s.effects && next.completions == s.completions
    ensures HistorySound(s) ==> HistorySound(next)
  {}

  // A slot that ends tells its waiters what is stored.
  lemma EndKeeps(s: Session, outcome: Outcome)
    requires SlotsKnown(s) && SlotsAgree(s) && OutcomesStored(s) && HistorySound(s) && !s.stage.Idle?
    requires outcome.Success? ==> IsStored(s.rows, s.stage.slot.claim, outcome.result)
    ensures Sound(End(s, s.stage.slot, outcome))
  {
    hide Found, IsStored, HistorySound;
    assert HistorySound(End(s, s.stage.slot, outcome)) by { SameHistory(s, End(s, s.stage.slot, outcome)); }
  }
  lemma ClaimKeeps(s: Session)
    requires Sound(s) && s.stage.Started?
    ensures Sound(OnClaim(s, s.stage.slot))
  {
    hide SlotsKnown, SlotsAgree, OutcomesStored, HistorySound;
    var slot := s.stage.slot;
    match Found(s.rows, slot.claim)
    case Err(_) => EndKeeps(s, Failure);
    case Ok(row) =>
      if row.result.Some? { EndKeeps(s, Success(row.result.value)); }
      else { StageMoves(s, Claimed(slot)); }
  }
  lemma StageMoves(s: Session, stage: Stage)
    requires SlotsKnown(s) && SlotsAgree(s) && OutcomesStored(s) && HistorySound(s) && !s.stage.Idle? &&
             !stage.Idle? && stage.slot == s.stage.slot
    ensures var next := s.(stage := stage);
            SlotsKnown(next) && SlotsAgree(next) && OutcomesStored(next) && HistorySound(next)
  {
    hide IsStored, HistorySound;
    SameHistory(s, s.(stage := stage));
  }
  lemma ExecuteKeeps(s: Session, ok: bool, result: nat, writes: bool)
    requires Sound(s) && s.stage.Claimed?
    ensures Sound(OnExecute(s, s.stage.slot, ok, result, writes))
  {
    hide SlotsKnown, SlotsAgree, OutcomesStored, HistorySound, Found;
    var slot := s.stage.slot;
    var id := slot.claim.id;
    var t := if writes && id !in s.effects then s.(effects := s.effects + {id}, applied := s.applied + [id]) else s;
    EffectOnce(s, id);
    if ok { StageMoves(t, Executed(slot, result)); } else { EndKeeps(t, Failure); }
  }
  lemma EffectOnce(s: Session, id: CommandId)
    requires Sound(s)
    ensures var t := s.(effects := s.effects + {id}, applied := s.applied + [id]);
            id !in s.effects ==> SlotsKnown(t) && SlotsAgree(t) && OutcomesStored(t) && HistorySound(t)
  {
    hide Found, IsStored;
  }
  lemma BumpKeeps(s: Session)
    requires Sound(s) && s.stage.Executed?
    ensures Sound(OnBump(s, s.stage.slot, s.stage.result))
  {
    hide Found, IsStored;
  }
  lemma CompleteKeeps(s: Session, written: bool, acknowledged: bool)
    requires Sound(s) && s.stage.Bumped?
    ensures Sound(OnComplete(s, s.stage.slot, s.stage.result, written, acknowledged))
  {
    hide SlotsKnown, SlotsAgree, OutcomesStored, HistorySound;
    var slot, result := s.stage.slot, s.stage.result;
    if written {
      WriteKeeps(s);
      var t := WrittenBy(s);
      if acknowledged { StageMoves(t, Stored(slot, result)); } else { EndKeeps(t, Failure); }
    } else {
      EndKeeps(s, Failure);
    }
  }
  function WrittenBy(s: Session): Session
    requires s.stage.Bumped?
  {
    var slot := s.stage.slot;
    s.(rows := CommandLedger.Completed(s.rows, Some(slot.claim), slot.claim.id, s.stage.result),
        completions := s.completions + [slot.claim])
  }
  lemma WriteKeeps(s: Session)
    requires Sound(s) && s.stage.Bumped?
    ensures var t := WrittenBy(s);
            SlotsKnown(t) && SlotsAgree(t) && OutcomesStored(t) && HistorySound(t) &&
                IsStored(t.rows, s.stage.slot.claim, s.stage.result)
  {
    hide StageSound, HistorySound, IsStored, Found;
    assert HistorySound(WrittenBy(s)) by { HistoryWritten(s); }
    RowWritten(s);
    forall claim: Claim, result: nat | IsStored(s.rows, claim, result)
      ensures IsStored(WrittenBy(s).rows, claim, result)
    {
      StoredStays(s, claim, result);
    }
  }
  lemma RowWritten(s: Session)
    requires StageSound(s) && s.stage.Bumped?
    ensures IsStored(WrittenBy(s).rows, s.stage.slot.claim, s.stage.result)
  {}
  lemma StoredStays(s: Session, claim: Claim, result: nat)
    requires IsStored(s.rows, claim, result) && s.stage.Bumped?
    ensures IsStored(WrittenBy(s).rows, claim, result)
  {}
  lemma HistoryWritten(s: Session)
    requires StageSound(s) && HistorySound(s) && s.stage.Bumped?
    ensures HistorySound(WrittenBy(s))
  {}
  lemma PublishKeeps(s: Session, delivered: bool)
    requires Sound(s) && s.stage.Stored?
    ensures Sound(End(s, s.stage.slot, if delivered then Success(s.stage.result) else Failure))
  {
    hide SlotsKnown, SlotsAgree, OutcomesStored, HistorySound;
    EndKeeps(s, if delivered then Success(s.stage.result) else Failure);
  }
  lemma RespondKeeps(s: Session, k: nat)
    requires Sound(s) && k < |s.waiting|
    ensures Sound(OnRespond(s, k))
  {
    hide Found, IsStored, SlotsKnown, SlotsAgree, OutcomesStored;
    assert OutcomeStored(s, s.waiting[k]) by { WaitsForStored(s, k); }
    ShorterQueue(s, k);
  }
  lemma WaitsForStored(s: Session, k: nat)
    requires OutcomesStored(s) && k < |s.waiting|
    ensures OutcomeStored(s, s.waiting[k])
  {}
  lemma ShorterQueue(s: Session, k: nat)
    requires SlotsKnown(s) && SlotsAgree(s) && OutcomesStored(s) && k < |s.waiting|
    ensures SlotsKnown(OnRespond(s, k)) && SlotsAgree(OnRespond(s, k)) && OutcomesStored(OnRespond(s, k))
  {
    hide OutcomesStored, SlotsKnown, SlotsAgree;
    FewerWaiting(s, OnRespond(s, k));
  }
  ghost predicate FewerWait(s: Session, next: Session) {
    next == s.(waiting := next.waiting, answers := next.answers) && forall j :: 0 <= j < |next.waiting| ==>
        next.waiting[j] in s.waiting
  }
  lemma FewerWaiting(s: Session, next: Session)
    requires SlotsKnown(s) && SlotsAgree(s) && OutcomesStored(s) && FewerWait(s, next)
    ensures SlotsKnown(next) && SlotsAgree(next) && OutcomesStored(next)
  {
    hide OutcomesStored, SlotsAgree;
    FewerAgree(s, next);
    FewerOutcomes(s, next);
  }
  lemma FewerAgree(s: Session, next: Session)
    requires SlotsAgree(s) && FewerWait(s, next)
    ensures SlotsAgree(next)
  {
    hide OneSlot;
  }
  lemma FewerOutcomes(s: Session, next: Session)
    requires OutcomesStored(s) && FewerWait(s, next)
    ensures OutcomesStored(next)
  {
    hide OutcomeStored;
    forall j | 0 <= j < |next.waiting| ensures OutcomeStored(next, next.waiting[j]) {
      var i :| 0 <= i < |s.waiting| && s.waiting[i] == next.waiting[j];
      SameOutcome(s, next, s.waiting[i]);
    }
    forall id | id in next.inFlight
      ensures OutcomeStored(next, next.inFlight[id])
    {
      SameOutcome(s, next, s.inFlight[id]);
    }
  }
  lemma SameOutcome(s: Session, next: Session, slot: Slot)
    requires OutcomeStored(s, slot) && next.outcomes == s.outcomes && next.rows == s.rows
    ensures OutcomeStored(next, slot)
  {}
  lemma TidyKeeps(s: Session, id: CommandId)
    requires Sound(s)
    ensures Sound(Next(s, Tidy(id)))
  {
    hide Found, IsStored, StageSound, HistorySound;
    assert HistorySound(Next(s, Tidy(id))) && StageSound(Next(s, Tidy(id))) by { SameDurable(s, Next(s, Tidy(id))); }
  }
  lemma CrashKeeps(s: Session)
    requires Sound(s)
    ensures Sound(Next(s, Crash))
  {
    hide Found, IsStored, HistorySound;
    assert HistorySound(Next(s, Crash)) by { SameHistory(s, Next(s, Crash)); }
  }

  lemma NextIsSound(s: Session, e: Event)
    requires Sound(s)
    ensures Sound(Next(s, e))
  {
    hide OnArrive, OnClaim, OnExecute, OnBump, OnComplete, OnRespond, End, StageSound, SlotsKnown, SlotsAgree,
      OutcomesStored, HistorySound;
    match e
    case Arrive(claim) => ArriveKeeps(s, claim);
    case Trigger(_) => QueueKeeps(s, e);
    case Prelude(_) => QueueKeeps(s, e);
    case Begin => BeginKeeps(s);
    case DoClaim => if s.stage.Started? { ClaimKeeps(s); }
    case Refuse => if s.stage.Claimed? { EndKeeps(s, Failure); }
    case Execute(ok, result, writes) => if s.stage.Claimed? { ExecuteKeeps(s, ok, result, writes); }
    case Bump => if s.stage.Executed? { BumpKeeps(s); }
    case Complete(written, acknowledged) => if s.stage.Bumped? { CompleteKeeps(s, written, acknowledged); }
    case Publish(delivered) => if s.stage.Stored? { PublishKeeps(s, delivered); }
    case Respond(k) => if k < |s.waiting| { RespondKeeps(s, k); }
    case Tidy(id) => TidyKeeps(s, id);
    case Crash => CrashKeeps(s);
  }
  lemma {:induction false} EveryRunIsSound(s: Session, events: seq<Event>)
    requires Sound(s)
    ensures Sound(After(s, events))
    decreases |events|
  {
    hide Sound, Next;
    if events != [] {
      NextIsSound(s, events[0]);
      EveryRunIsSound(Next(s, events[0]), events[1..]);
    }
  }

  // A session woken over any stored ledger and transactions.
  function Woken(rows: Rows, version: nat, effects: set<CommandId>): Session {
    Session(rows, version, effects, [], Idle, map[], map[], [], 0, [], [], [], [])
  }

  // Over every run, with duplicate requests, retries and a crash anywhere: two successful answers
  // under one identifier answer the same command with the same stored result; a command ends under
  // an identifier at most once; each execution has a version of its own, larger than any before it;
  // and a command's transaction, like an auction's settlement, is written at most once.
  lemma AnswersAgree(rows: Rows, version: nat, effects: set<CommandId>, events: seq<Event>)
    ensures var s := After(Woken(rows, version, effects), events);
            && (forall i, j ::
                  0 <= i < |s.answers| && 0 <= j < |s.answers| && s.answers[i].claim.id == s.answers[j].claim.id ==>
                  s.answers[i] == s.answers[j])
            && (forall i :: 0 <= i < |s.answers| ==> IsStored(s.rows, s.answers[i].claim, s.answers[i].result))
            && (forall i, j :: 0 <= i < j < |s.completions| ==> s.completions[i].id != s.completions[j].id)
            && (forall i, j :: 0 <= i < j < |s.executions| ==> s.executions[i].version < s.executions[j].version)
            && (forall i, j :: 0 <= i < j < |s.applied| ==> s.applied[i] != s.applied[j])
  {
    hide After, Next, StageSound, SlotsKnown, SlotsAgree, OutcomesStored;
    WokenIsSound(rows, version, effects);
    EveryRunIsSound(Woken(rows, version, effects), events);
    var s := After(Woken(rows, version, effects), events);
    assert HistorySound(s);
  }
  lemma WokenIsSound(rows: Rows, version: nat, effects: set<CommandId>)
    ensures Sound(Woken(rows, version, effects))
  {
    hide Found;
  }

  // What was completed before a run is still stored, unchanged, after it.
  lemma {:induction false} CompletedStays(s: Session, events: seq<Event>, id: CommandId)
    requires IsCompleted(s.rows, id)
    ensures IsCompleted(After(s, events).rows, id) && After(s, events).rows[id] == s.rows[id]
    decreases |events|
  {
    hide Next;
    if events != [] {
      RowsKept(s, events[0], id);
      CompletedStays(Next(s, events[0]), events[1..], id);
    }
  }
}
