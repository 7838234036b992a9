/** The approval table: four-eyes requests, claimed by a compare-and-swap, with write-once evidence of when.
    Each method is one SQL statement, so one atomic step; instants are integer milliseconds. */
module Approvals {
  import opened Collections

  datatype State = Pending | Approved | Rejected | TimedOut

  datatype Row = Row(
    state: State, initiator: string, approver: Option<string>, expiresAt: int, approvedAt: Option<int>,
    rejectReason: Option<string>, executionResult: Option<string>)

  type Rows = map<string, Row>

  /** The table's constraints: nobody approves their own request, and no approval is dated after the deadline. */
  predicate Admissible(row: Row) {
    && (row.approver.Some? ==> row.approver.value != row.initiator)
    && (row.approvedAt.Some? ==> row.approvedAt.value <= row.expiresAt)
  }

  datatype Op =
    | Create(id: string, row: Row)
    | Claim(id: string, who: string, at: int)
    | Update(id: string, state: State, approver: Option<string>, rejectReason: Option<string>,
        executionResult: Option<string>, approvedAt: Option<int>)

  /** A statement matches a row or not; one that would break a constraint raises and changes nothing. */
  datatype Outcome = Matched | Unmatched | Raised

  /** `COALESCE(kept, offered)`. */
  function Coalesce(kept: Option<int>, offered: Option<int>): Option<int> {
    if kept.Some? then kept else offered
  }

  /** What a statement would write, if it matches a row. */
  function Written(rows: Rows, op: Op): Option<Row> {
    match op
    case Create(_, row) => Some(row.(approvedAt := None))
    case Claim(id, who, at) =>
      if id in rows && rows[id].state.Pending?
      then Some(rows[id].(state := Approved, approver := Some(who),
          approvedAt := Coalesce(rows[id].approvedAt, Some(at))))
      else None
    case Update(id, state, approver, reason, result, at) =>
      if id in rows
      then Some(rows[id].(state := state, approver := approver, rejectReason := reason, executionResult := result,
                          approvedAt := Coalesce(rows[id].approvedAt, at)))
      else None
  }

  function OutcomeOf(rows: Rows, op: Op): Outcome {
    if op.Create? && op.id in rows then Raised
    else if Written(rows, op).None? then Unmatched
    else if !Admissible(Written(rows, op).value) then Raised
    else Matched
  }

  function Effect(rows: Rows, op: Op): Rows {
    if OutcomeOf(rows, op).Matched? then rows[op.id := Written(rows, op).value] else rows
  }

  class ApprovalTable {
    var rows: Rows

    constructor ()
      ensures rows == map[]
    {
      rows := map[];
    }

    /** The approval's time is not among the columns a new row is given. */
    method Create(id: string, row: Row) returns (outcome: Outcome)
      modifies this
      ensures outcome == OutcomeOf(old(rows), Op.Create(id, row))
      ensures rows == Effect(old(rows), Op.Create(id, row))
    {
      if id in rows { return Raised; }
      var inserted := row.(approvedAt := None);
      if !Admissible(inserted) { return Raised; }
      rows := rows[id := inserted];
      outcome := Matched;
    }

    /** True exactly when this claim took the request from pending to approved. */
    method ClaimForApproval(id: string, approver: string, at: int) returns (outcome: Outcome)
      modifies this
      ensures outcome == OutcomeOf(old(rows), Claim(id, approver, at))
      ensures rows == Effect(old(rows), Claim(id, approver, at))
    {
      if id !in rows || !rows[id].state.Pending? { return Unmatched; }
      var claimed := rows[id].(state := Approved, approver := Some(approver));
      if claimed.approvedAt.None? {
        claimed := claimed.(approvedAt := Some(at));
      }
      if !Admissible(claimed) { return Raised; }
      rows := rows[id := claimed];
      outcome := Matched;
    }

    method Update(id: string, state: State, approver: Option<string>, rejectReason: Option<string>,
                  executionResult: Option<string>, approvedAt: Option<int>)
      returns (outcome: Outcome)
      modifies this
      ensures outcome == OutcomeOf(old(rows), Op.Update(id, state, approver, rejectReason, executionResult, approvedAt))
      ensures rows == Effect(old(rows), Op.Update(id, state, approver, rejectReason, executionResult, approvedAt))
    {
      if id !in rows { return Unmatched; }
      var row := rows[id].(state := state, approver := approver, rejectReason := rejectReason,
          executionResult := executionResult);
      if row.approvedAt.None? {
        row := row.(approvedAt := approvedAt);
      }
      if !Admissible(row) { return Raised; }
      rows := rows[id := row];
      outcome := Matched;
    }
  }

  // ---------------------------------------------------------------- every interleaving

  /** The table after a sequence of statements, whoever issued them and in whatever order. */
  function Run(ops: seq<Op>): Rows {
    if ops == [] then map[] else Effect(Run(ops[..|ops| - 1]), ops[|ops| - 1])
  }

  /** Whether the last statement of the sequence claimed request `id`. */
  predicate EndsInClaim(ops: seq<Op>, id: string)
    requires ops != []
  {
    var last := ops[|ops| - 1];
    last.Claim? && last.id == id && OutcomeOf(Run(ops[..|ops| - 1]), last).Matched?
  }

  /** Whether the last statement wrote `pending` over request `id` after it had been decided. */
  predicate EndsInReopening(ops: seq<Op>, id: string)
    requires ops != []
  {
    var before, last := Run(ops[..|ops| - 1]), ops[|ops| - 1];
    last.Update? && last.id == id && last.state.Pending? && OutcomeOf(before, last).Matched?
        && !before[id].state.Pending?
  }

  /** How many claims on a request have succeeded. */
  function Claims(ops: seq<Op>, id: string): nat {
    if ops == [] then 0 else Claims(ops[..|ops| - 1], id) + if EndsInClaim(ops, id) then 1 else 0
  }

  /** How many times a decided request was set back to pending. */
  function Reopenings(ops: seq<Op>, id: string): nat {
    if ops == [] then 0 else Reopenings(ops[..|ops| - 1], id) + if EndsInReopening(ops, id) then 1 else 0
  }

  predicate Open(rows: Rows, id: string) {
    id !in rows || rows[id].state.Pending?
  }

  lemma {:induction false} ClaimsAreBounded(ops: seq<Op>, id: string)
    ensures Claims(ops, id) + (if Open(Run(ops), id) then 1 else 0) <= 1 + Reopenings(ops, id)
  {
    if ops != [] {
      ClaimsAreBounded(ops[..|ops| - 1], id);
    }
  }

  /** Over every interleaving, a request that is never reopened after a decision is claimed at most once. */
  lemma AtMostOneClaim(ops: seq<Op>, id: string)
    requires Reopenings(ops, id) == 0
    ensures Claims(ops, id) <= 1
  {
    ClaimsAreBounded(ops, id);
  }

  /** Once the time of an approval is recorded no later statement changes it; nor does any statement delete a request
      or change who asked for it and until when. */
  lemma {:induction false} EvidenceIsWriteOnce(ops: seq<Op>, more: seq<Op>, id: string)
    requires id in Run(ops)
    ensures id in Run(ops + more)
    ensures var before, after := Run(ops)[id], Run(ops + more)[id];
      && (before.approvedAt.Some? ==> after.approvedAt == before.approvedAt)
      && after.initiator == before.initiator && after.expiresAt == before.expiresAt
  {
    if more == [] {
      assert ops + more == ops;
    } else {
      var init := more[..|more| - 1];
      assert (ops + more)[..|ops + more| - 1] == ops + init;
      EvidenceIsWriteOnce(ops, init, id);
    }
  }

  /** Every stored request is approved by somebody else if at all, and never after its deadline. */
  lemma {:induction false} EveryRowIsAdmissible(ops: seq<Op>)
    ensures forall id :: id in Run(ops) ==> Admissible(Run(ops)[id])
  {
    if ops != [] {
      EveryRowIsAdmissible(ops[..|ops| - 1]);
    }
  }

  /** A request approved through a claim carries the time of its approval. */
  lemma ClaimLeavesEvidence(ops: seq<Op>, id: string)
    requires ops != [] && EndsInClaim(ops, id)
    ensures Run(ops)[id].state.Approved? && Run(ops)[id].approvedAt.Some?
    ensures Run(ops)[id].approver == Some(ops[|ops| - 1].who)
  {
  }

  // ---------------------------------------------------------------- reopening lets a second claim through

  function Asked(id: string, initiator: string, until: int): Op {
    Create(id, Row(Pending, initiator, None, until, None, None, None))
  }

  function Reopen(id: string): Op {
    Update(id, Pending, None, None, None, None)
  }

  /** A request that is reopened can be claimed again, and then names the second approver beside the first's time. */
  lemma ReopenedIsClaimedTwice(id: string, initiator: string, first: string, second: string, t: int, u: int, until: int)
    requires first != initiator && second != initiator && t <= until
    ensures var ops := [Asked(id, initiator, until), Claim(id, first, t), Reopen(id), Claim(id, second, u)];
      && Claims(ops, id) == 2 && Reopenings(ops, id) == 1
      && id in Run(ops) && Run(ops)[id].approver == Some(second) && Run(ops)[id].approvedAt == Some(t)
  {
    var ops := [Asked(id, initiator, until), Claim(id, first, t), Reopen(id), Claim(id, second, u)];
    assert ops[..3][..2] == ops[..2] && ops[..2][..1] == ops[..1] && ops[..1][..0] == [];
    assert Run(ops[..0]) == map[] && Claims(ops[..0], id) == 0 && Reopenings(ops[..0], id) == 0;
    assert Run(ops[..1]) == map[id := Row(Pending, initiator, None, until, None, None, None)];
    assert Claims(ops[..1], id) == 0 && Reopenings(ops[..1], id) == 0;
    assert Run(ops[..2]) == map[id := Row(Approved, initiator, Some(first), until, Some(t), None, None)];
    assert Claims(ops[..2], id) == 1 && Reopenings(ops[..2], id) == 0;
    assert Run(ops[..3]) == map[id := Row(Pending, initiator, None, until, Some(t), None, None)];
    assert Claims(ops[..3], id) == 1 && Reopenings(ops[..3], id) == 1;
    assert Run(ops) == map[id := Row(Approved, initiator, Some(second), until, Some(t), None, None)];
  }
}
