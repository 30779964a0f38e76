/** The ledger of commands: one row per command identifier, written once, when the command ends. */
module CommandLedger {
  import opened Results

  type CommandId = nat
  // The hash of a payload covers its type and is taken to be injective, so the payload stands for it.
  datatype Payload = Payload(kind: nat, body: nat)
  datatype Claim = Claim(id: CommandId, actor: nat, payload: Payload)
  datatype Row = Row(claim: Claim, result: Option<nat>)
  datatype LedgerError = CommandIdReused

  type Rows = map<CommandId, Row>

  predicate IsCompleted(rows: Rows, id: CommandId) { id in rows && rows[id].result.Some? }

  // What a claim finds: no row counts as a pending one of the claimant's own.
  function Found(rows: Rows, claim: Claim): Result<Row, LedgerError> {
    var row := if claim.id in rows then rows[claim.id] else Row(claim, None);
    if row.claim != claim then Err(CommandIdReused) else Ok(row)
  }
  // The row of a claimed command is inserted or completed; a completed row is never touched, and
  // without a claim only a pending row can be completed.
  function Completed(rows: Rows, claim: Option<Claim>, id: CommandId, result: nat): Rows {
    if id in rows then
      if rows[id].result.None? then rows[id := rows[id].(result := Some(result))] else rows
    else if claim.Some? then rows[id := Row(claim.value, Some(result))]
    else rows
  }

  class LedgerRepository {
    var rows: Rows
    var claims: map<CommandId, Claim>

    ghost predicate Valid()
      reads this
    {
      (forall id :: id in claims ==> claims[id].id == id) && (forall id :: id in rows ==> rows[id].claim.id == id)
    }

    constructor (stored: Rows)
      requires forall id :: id in stored ==> stored[id].claim.id == id
      ensures Valid() && rows == stored && claims == map[]
    {
      rows, claims := stored, map[];
    }

    method ClaimCommand(input: Claim) returns (r: Result<Row, LedgerError>)
      requires Valid()
      modifies this
      ensures Valid() && rows == old(rows) && r == Found(rows, input)
      ensures claims == if r.Ok? && r.value.result.None? then old(claims)[input.id := input] else old(claims)
    {
      var row := Row(input, None);
      if input.id in rows { row := rows[input.id]; }
      if row.claim.actor != input.actor || row.claim.payload.kind != input.payload.kind ||
          row.claim.payload != input.payload {
        return Err(CommandIdReused);
      }
      if row.result.None? { claims := claims[input.id := input]; }
      r := Ok(row);
    }

    method CompleteCommand(id: CommandId, result: nat)
      requires Valid()
      modifies this
      ensures Valid()
      ensures rows == Completed(old(rows), if id in old(claims) then Some(old(claims)[id]) else None, id, result)
      ensures claims == old(claims) - {id}
    {
      if id !in claims {
        if id in rows && rows[id].result.None? { rows := rows[id := rows[id].(result := Some(result))]; }
        assert claims - {id} == claims;
        return;
      }
      if id !in rows { rows := rows[id := Row(claims[id], Some(result))]; }
      else if rows[id].result.None? { rows := rows[id := rows[id].(result := Some(result))]; }
      claims := claims - {id};
    }
  }

  // A completed row is written once: neither its command nor its result ever changes.
  lemma CompletedIsFinal(rows: Rows, claim: Option<Claim>, id: CommandId, result: nat, other: CommandId)
    requires IsCompleted(rows, other)
    ensures IsCompleted(Completed(rows, claim, id, result), other) &&
            Completed(rows, claim, id, result)[other] == rows[other]
  {}
}
