/** Whether an approval lasts. Only the claim compares before it swaps: a rejection and an expiry decided on an earlier
    snapshot are written whatever the table says by then. */
module ApprovalOutcomes {
  import opened Collections
  import opened Approvals
  import opened ApprovalService

  predicate IsApproved(rows: Rows, id: string) {
    id in rows && rows[id].state.Approved?
  }

  /** The task can still write another decision over the request: it is timing out a snapshot, or it rejects, or is
      about to reject, a request that it read as pending; and the table accepts the rejection. */
  predicate MayOverwrite(t: Task, id: string, initiator: string) {
    && t.request.id == id
    && match t.phase
       case Expiring(_) => true
       case Deciding(row) => row.state.Pending? && t.request.Reject? && t.request.who != initiator
       case Recording(row) => row.state.Rejected? && row.approver != Some(initiator)
       case _ => false
  }

  // ---------------------------------------------------------------- what tasks have read

  predicate AsAsked(row: Row) {
    row.state.Pending? && row.approver.None? && row.approvedAt.None?
  }

  /** A pending row is as it was asked for, and an approved one says since when. */
  predicate Coherent(rows: Rows, id: string) {
    id in rows ==>
      && (rows[id].state.Pending? ==> AsAsked(rows[id]))
      && (rows[id].state.Approved? ==> rows[id].approvedAt.Some?)
      && Admissible(rows[id])
  }

  predicate FromTable(row: Row, rows: Rows, id: string) {
    id in rows && row.initiator == rows[id].initiator
  }

  /** A task's copy of the row stems from the table, whatever its own decision has made of it. */
  predicate Informed(t: Task, rows: Rows, id: string) {
    t.request.id == id ==>
      match t.phase
      case Expiring(row) => FromTable(row, rows, id) && AsAsked(row)
      case Deciding(row) => FromTable(row, rows, id) && (row.state.Pending? ==> AsAsked(row))
      case Claiming(row) => id in rows && row.state.Approved? && row.approvedAt.Some?
      case Executing(row) => id in rows && row.state.Approved? && row.approvedAt.Some?
      case Recording(row) => id in rows && if row.state.Approved? then row.approvedAt.Some? else row.state.Rejected?
      case _ => true
  }

  ghost predicate AllInformed(s: System, id: string) {
    Coherent(s.rows, id) && forall t :: t in s.tasks ==> Informed(t, s.rows, id)
  }

  /** The statements that tasks issue: none writes `pending`, and none approves without a time. */
  predicate Proper(op: Op) {
    match op
    case Create(_, row) => AsAsked(row)
    case Claim(_, _, _) => true
    case Update(_, state, _, _, _, at) => !state.Pending? && (state.Approved? ==> at.Some?)
  }

  lemma EffectKeeps(rows: Rows, op: Op, id: string)
    requires Coherent(rows, id) && (op.id == id ==> Proper(op))
    ensures Coherent(Effect(rows, op), id)
    ensures id in rows ==> id in Effect(rows, op) && Effect(rows, op)[id].initiator == rows[id].initiator
  {
  }

  lemma StaysInformed(t: Task, rows: Rows, after: Rows, id: string)
    requires Informed(t, rows, id)
    requires id in rows ==> id in after && after[id].initiator == rows[id].initiator
    ensures Informed(t, after, id)
  {
  }

  lemma NextIsInformed(t: Task, rows: Rows, now: int, result: string, id: string)
    requires Coherent(rows, id) && Informed(t, rows, id)
    ensures Informed(t.(phase := Next(rows, t, now, result)), rows, id)
    ensures Statement(t).Some? ==>
      Statement(t).value.id == t.request.id && (t.request.id == id ==> Proper(Statement(t).value))
  {
  }

  lemma IssueKeepsInformed(s: System, op: Op, id: string)
    requires AllInformed(s, id) && (op.id == id ==> Proper(op))
    ensures AllInformed(Issue(s, op), id)
    ensures id in s.rows ==> FromTable(s.rows[id], Issue(s, op).rows, id)
  {
    EffectKeeps(s.rows, op, id);
    forall t | t in s.tasks ensures Informed(t, Effect(s.rows, op), id) {
      StaysInformed(t, s.rows, Effect(s.rows, op), id);
    }
  }

  lemma StepKeepsInformed(s: System, e: Event, id: string)
    requires AllInformed(s, id)
    ensures AllInformed(Step(s, e), id)
    ensures id in s.rows ==> FromTable(s.rows[id], Step(s, e).rows, id)
  {
    match e
    case Ask(other, initiator, until) => IssueKeepsInformed(s,
        Create(other, Row(Pending, initiator, None, until, None, None, None)), id);
    case Arrive(_) =>
    case Abandon(_) =>
    case Advance(i, now, result) =>
      if i < |s.tasks| {
        var task := s.tasks[i];
        assert task in s.tasks;
        NextIsInformed(task, s.rows, now, result, id);
        if Statement(task).Some? {
          IssueKeepsInformed(s.(tasks := s.tasks[i := task.(phase := Next(s.rows, task, now, result))]),
              Statement(task).value, id);
        }
      }
  }

  lemma {:induction false} TasksAreInformed(events: seq<Event>, id: string)
    ensures AllInformed(Reached(events), id)
  {
    if events != [] {
      TasksAreInformed(events[..|events| - 1], id);
      StepKeepsInformed(Reached(events[..|events| - 1]), events[|events| - 1], id);
    }
  }

  // ---------------------------------------------------------------- exactly when an approval lasts

  /** Approved, and nobody is left who could write anything else. */
  ghost predicate Settled(s: System, id: string) {
    && AllInformed(s, id) && IsApproved(s.rows, id)
    && forall t :: t in s.tasks ==> !MayOverwrite(t, id, s.rows[id].initiator)
  }

  lemma HarmlessStatement(s: System, op: Op, id: string)
    requires IsApproved(s.rows, id)
    requires op.id == id && op.Update? ==>
      op.state.Approved? || (op.state.Rejected? && op.approver == Some(s.rows[id].initiator))
    ensures IsApproved(Issue(s, op).rows, id)
  {
  }

  lemma HarmlessStep(t: Task, rows: Rows, now: int, result: string, id: string)
    requires IsApproved(rows, id) && Informed(t, rows, id) && !MayOverwrite(t, id, rows[id].initiator)
    ensures !MayOverwrite(t.(phase := Next(rows, t, now, result)), id, rows[id].initiator)
    ensures Statement(t).Some? && Statement(t).value.id == id && Statement(t).value.Update? ==>
      var op := Statement(t).value;
          op.state.Approved? || (op.state.Rejected? && op.approver == Some(rows[id].initiator))
  {
  }

  lemma SettledStays(s: System, e: Event, id: string)
    requires Settled(s, id)
    ensures Settled(Step(s, e), id)
  {
    StepKeepsInformed(s, e, id);
    match e
    case Ask(other, initiator, until) => HarmlessStatement(s,
        Create(other, Row(Pending, initiator, None, until, None, None, None)), id);
    case Arrive(_) =>
    case Abandon(_) =>
    case Advance(i, now, result) =>
      if i < |s.tasks| {
        var task := s.tasks[i];
        assert task in s.tasks;
        HarmlessStep(task, s.rows, now, result, id);
        if Statement(task).Some? {
          HarmlessStatement(s, Statement(task).value, id);
        }
      }
  }

  lemma ReachedSnoc(events: seq<Event>, e: Event)
    ensures Reached(events + [e]) == Step(Reached(events), e)
  {
    assert (events + [e])[..|events|] == events;
  }

  lemma {:induction false} SettledLasts(events: seq<Event>, more: seq<Event>, id: string)
    requires Settled(Reached(events), id)
    ensures Settled(Reached(events + more), id)
  {
    if more == [] {
      assert events + more == events;
    } else {
      var init, last := more[..|more| - 1], more[|more| - 1];
      SettledLasts(events, init, id);
      SettledStays(Reached(events + init), last, id);
      ReachedSnoc(events + init, last);
      assert events + init + [last] == events + more;
    }
  }

  /** A task that may overwrite needs one step, or two, to do so. */
  lemma Overwrites(events: seq<Event>, i: nat, id: string) returns (more: seq<Event>)
    requires var s := Reached(events);
      i < |s.tasks| && IsApproved(s.rows, id) && MayOverwrite(s.tasks[i], id, s.rows[id].initiator)
    ensures !IsApproved(Reached(events + more).rows, id)
  {
    var s, step := Reached(events), Advance(i, 0, "");
    TasksAreInformed(events, id);
    assert s.tasks[i] in s.tasks;
    more := [step];
    ReachedSnoc(events, step);
    if s.tasks[i].phase.Deciding? {
      ReachedSnoc(events + more, step);
      more := [step] + [step];
      assert events + [step] + [step] == events + more;
    }
  }

  /** An approved request stays approved, however the tasks go on, exactly when none of them may overwrite it. */
  lemma {:induction false} ApprovalLastsExactly(events: seq<Event>, id: string)
    requires IsApproved(Reached(events).rows, id)
    ensures (forall more :: IsApproved(Reached(events + more).rows, id)) <==>
      (forall t :: t in Reached(events).tasks ==> !MayOverwrite(t, id, Reached(events).rows[id].initiator))
  {
    var s := Reached(events);
    if forall t :: t in s.tasks ==> !MayOverwrite(t, id, s.rows[id].initiator) {
      TasksAreInformed(events, id);
      forall more ensures IsApproved(Reached(events + more).rows, id) {
        SettledLasts(events, more, id);
      }
    } else {
      var i :| 0 <= i < |s.tasks| && MayOverwrite(s.tasks[i], id, s.rows[id].initiator);
      var more := Overwrites(events, i, id);
    }
  }

  // ---------------------------------------------------------------- an approval that does not last

  function Asked(initiator: string, until: int): Row {
    Row(Pending, initiator, None, until, None, None, None)
  }

  /** Both tasks have read the request as pending. */
  function BothHaveRead(id: string, initiator: string, first: string, second: string, reason: string, at: int,
      until: int): seq<Event> {
    [Ask(id, initiator, until)] + [Arrive(Approve(id, first))] + [Arrive(Reject(id, second, reason))]
    + [Advance(0, at, "")] + [Advance(1, at, "")]
  }

  lemma BothRead(id: string, initiator: string, first: string, second: string, reason: string, at: int, until: int)
    requires at <= until
    ensures var s, row := Reached(BothHaveRead(id, initiator, first, second, reason, at, until)),
      Asked(initiator, until);
      && s.rows == map[id := row] && s.executed == []
      && s.tasks == [Task(Approve(id, first), Deciding(row)), Task(Reject(id, second, reason), Deciding(row))]
  {
    var e1 := [Ask(id, initiator, until)];
    var e2 := e1 + [Arrive(Approve(id, first))];
    var e3 := e2 + [Arrive(Reject(id, second, reason))];
    ReachedSnoc([], Ask(id, initiator, until));
    assert [] + e1 == e1;
    ReachedSnoc(e1, Arrive(Approve(id, first)));
    ReachedSnoc(e2, Arrive(Reject(id, second, reason)));
    ReachedSnoc(e3, Advance(0, at, ""));
    ReachedSnoc(e3 + [Advance(0, at, "")], Advance(1, at, ""));
  }

  /** The table holds the one row, and the two tasks stand where they are said to. */
  ghost predicate Stands(events: seq<Event>, id: string, row: Row, first: Task, second: Task, executed: seq<string>) {
    var s := Reached(events);
    s.rows == map[id := row] && s.tasks == [first, second] && s.executed == executed
  }

  /** The request after a task's statement about it, if the task issues one. */
  function RowAfter(id: string, row: Row, t: Task): Row {
    if Statement(t).Some? && OutcomeOf(map[id := row], Statement(t).value).Matched?
    then Written(map[id := row], Statement(t).value).value else row
  }

  lemma Moves(events: seq<Event>, i: nat, now: int, result: string, id: string, row: Row, first: Task, second: Task,
      executed: seq<string>)
    requires i < 2 && Stands(events, id, row, first, second, executed) && [first, second][i].request.id == id
    ensures var t := [first, second][i];
      var moved := t.(phase := Next(map[id := row], t, now, result));
      Stands(events + [Advance(i, now, result)], id, RowAfter(id, row, t),
             if i == 0 then moved else first, if i == 1 then moved else second,
             if t.phase.Executing? then executed + [id] else executed)
  {
    ReachedSnoc(events, Advance(i, now, result));
    var t := [first, second][i];
    if Statement(t).Some? {
      assert Statement(t).value.id == id;
    }
  }

  function ApprovedRow(row: Row, who: string, at: int): Row {
    row.(state := Approved, approver := Some(who), approvedAt := Some(at))
  }

  lemma DecidesAndClaims(events: seq<Event>, id: string, row: Row, who: string, at: int, other: Task)
    requires Stands(events, id, row, Task(Approve(id, who), Deciding(row)), other, [])
    requires AsAsked(row) && who != row.initiator && at <= row.expiresAt
    ensures Stands(events + [Advance(0, at, "")] + [Advance(0, at, "")], id, ApprovedRow(row, who, at),
      Task(Approve(id, who), Executing(ApprovedRow(row, who, at))), other, [])
  {
    var task, approved := Task(Approve(id, who), Claiming(ApprovedRow(row, who, at))), ApprovedRow(row, who, at);
    Moves(events, 0, at, "", id, row, task.(phase := Deciding(row)), other, []);
    Moves(events + [Advance(0, at, "")], 0, at, "", id, row, task, other, []);
    assert RowAfter(id, row, task) == approved;
  }

  lemma RecordsItsResult(id: string, row: Row, t: Task, result: string)
    requires t.request.id == id && t.phase == Recording(row.(executionResult := Some(result)))
    requires row.approvedAt.Some? && Admissible(row)
    ensures RowAfter(id, row, t) == row.(executionResult := Some(result))
  {
  }

  lemma ExecutesAndRecords(events: seq<Event>, id: string, row: Row, who: string, at: int, result: string, other: Task)
    requires Stands(events, id, row, Task(Approve(id, who), Executing(row)), other, [])
    requires row.approvedAt.Some? && Admissible(row)
    ensures Stands(events + [Advance(0, at, result)] + [Advance(0, at, "")], id, row.(executionResult := Some(result)),
      Task(Approve(id, who), Stopped), other, [id])
  {
    var task, recording := Task(Approve(id, who), Executing(row)),
        Task(Approve(id, who), Recording(row.(executionResult := Some(result))));
    Moves(events, 0, at, result, id, row, task, other, []);
    assert [] + [id] == [id];
    assert Stands(events + [Advance(0, at, result)], id, row, recording, other, [id]);
    RecordsItsResult(id, row, recording, result);
    Moves(events + [Advance(0, at, result)], 0, at, "", id, row, recording, other, [id]);
  }

  /** The first task decides, claims, executes and records. */
  function FirstFinishes(events: seq<Event>, at: int, result: string): seq<Event> {
    events + [Advance(0, at, "")] + [Advance(0, at, "")] + [Advance(0, at, result)] + [Advance(0, at, "")]
  }

  /** The second task decides on what it read and records its rejection. */
  lemma RejectedRegardless(
    events: seq<Event>, id: string, read: Row, row: Row, first: Task, second: string, reason: string, at: int,
    executed: seq<string>)
    requires Stands(events, id, row, first, Task(Reject(id, second, reason), Deciding(read)), executed)
    requires AsAsked(read) && read.executionResult.None? && Admissible(row) && row.approvedAt.Some?
      && second != row.initiator
    ensures Stands(events + [Advance(1, at, "")] + [Advance(1, at, "")], id,
      row.(state := Rejected, approver := Some(second), rejectReason := Some(reason), executionResult := None),
      first, Task(Reject(id, second, reason), Stopped), executed)
  {
    var task := Task(Reject(id, second, reason), Start);
    var rejected := read.(state := Rejected, approver := Some(second), rejectReason := Some(reason));
    Moves(events, 1, at, "", id, row, first, task.(phase := Deciding(read)), executed);
    Moves(events + [Advance(1, at, "")], 1, at, "", id, row, first, task.(phase := Recording(rejected)), executed);
  }

  /** A request approved in time and executed can end up rejected, its result erased, and naming the rejecter beside the
      approver's time. */
  lemma ExecutedThenRejected(id: string, initiator: string, first: string, second: string, reason: string, at: int,
      until: int, result: string)
    requires first != initiator && second != initiator && at <= until
    ensures var events := FirstFinishes(BothHaveRead(id, initiator, first, second, reason, at, until), at, result);
      Stands(events + [Advance(1, at, "")] + [Advance(1, at, "")], id,
        Row(Rejected, initiator, Some(second), until, Some(at), Some(reason), None),
        Task(Approve(id, first), Stopped), Task(Reject(id, second, reason), Stopped), [id])
  {
    var read, asked := BothHaveRead(id, initiator, first, second, reason, at, until), Asked(initiator, until);
    BothRead(id, initiator, first, second, reason, at, until);
    var other, approved := Task(Reject(id, second, reason), Deciding(asked)), ApprovedRow(asked, first, at);
    DecidesAndClaims(read, id, asked, first, at, other);
    ExecutesAndRecords(read + [Advance(0, at, "")] + [Advance(0, at, "")], id, approved, first, at, result, other);
    RejectedRegardless(FirstFinishes(read, at, result), id, asked, approved.(executionResult := Some(result)),
        Task(Approve(id, first), Stopped), second, reason, at, [id]);
  }
}
