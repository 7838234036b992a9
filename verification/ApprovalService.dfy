/** Concurrent users of the approval table: each task reads a snapshot, decides on it, and writes in later steps, while
    any other task may move in between. The gated operation runs between the claim and the final update. */
module ApprovalService {
  import opened Collections
  import opened Approvals

  datatype Request = Approve(id: string, who: string) | Reject(id: string, who: string,
      reason: string) | View(id: string)

  /** Where a task stands; the row is its own copy of what it read, with its decision written into it. */
  datatype Phase =
    | Start
    | Expiring(row: Row)
    | Deciding(row: Row)
    | Claiming(row: Row)
    | Executing(row: Row)
    | Recording(row: Row)
    | Stopped

  datatype Task = Task(request: Request, phase: Phase)

  datatype Event =
    | Ask(id: string, initiator: string, until: int)
    | Arrive(request: Request)
    | Advance(task: nat, now: int, result: string)
    | Abandon(task: nat)

  /** The table, the tasks, every statement issued so far and every operation executed so far, by request. */
  datatype System = System(rows: Rows, tasks: seq<Task>, issued: seq<Op>, executed: seq<string>)

  function Save(id: string, row: Row): Op {
    Update(id, row.state, row.approver, row.rejectReason, row.executionResult, row.approvedAt)
  }

  /** What the task does to the table next, if its next step is a statement. */
  function Statement(task: Task): Option<Op> {
    match task.phase
    case Expiring(row) => Some(Save(task.request.id, row.(state := TimedOut)))
    case Claiming(row) =>
      if row.approver.Some? && row.approvedAt.Some? then Some(Claim(task.request.id, row.approver.value,
          row.approvedAt.value)) else None
    case Recording(row) => Some(Save(task.request.id, row))
    case _ => None
  }

  /** Where the task stands after its next step. */
  function Next(rows: Rows, task: Task, now: int, result: string): Phase {
    match task.phase
    case Start =>
      if task.request.id !in rows then Stopped
      else if rows[task.request.id].state.Pending? && now > rows[task.request.id].expiresAt
          then Expiring(rows[task.request.id])
      else Deciding(rows[task.request.id])
    case Deciding(row) => Decide(task.request, row, now)
    case Claiming(row) =>
      if Statement(task).Some? && OutcomeOf(rows, Statement(task).value).Matched? then Executing(row) else Stopped
    case Executing(row) => Recording(row.(executionResult := Some(result)))
    case _ => Stopped
  }

  /** The checks on the snapshot: it must be pending, not one's own, and still within its window. */
  function Decide(request: Request, row: Row, now: int): Phase {
    if !row.state.Pending? then Stopped
    else
      match request
      case View(_) => Stopped
      case Reject(_, who, reason) => Recording(row.(state := Rejected, approver := Some(who),
          rejectReason := Some(reason)))
      case Approve(_, who) =>
        if row.initiator == who || now > row.expiresAt then Stopped
        else Claiming(row.(state := Approved, approver := Some(who), approvedAt := Some(now)))
  }

  function Issue(s: System, op: Op): System {
    s.(rows := Effect(s.rows, op), issued := s.issued + [op])
  }

  function Step(s: System, e: Event): System {
    match e
    case Ask(id, initiator, until) => Issue(s, Create(id, Row(Pending, initiator, None, until, None, None, None)))
    case Arrive(request) => s.(tasks := s.tasks + [Task(request, Start)])
    case Abandon(i) => if i < |s.tasks| then s.(tasks := s.tasks[i := s.tasks[i].(phase := Stopped)]) else s
    case Advance(i, now, result) => if i < |s.tasks| then Move(s, i, now, result) else s
  }

  function Move(s: System, i: nat, now: int, result: string): System
    requires i < |s.tasks|
  {
    var task := s.tasks[i];
    var after := s.(tasks := s.tasks[i := task.(phase := Next(s.rows, task, now, result))]);
    if Statement(task).Some? then Issue(after, Statement(task).value)
    else if task.phase.Executing? then after.(executed := after.executed + [task.request.id])
    else after
  }

  function Reached(events: seq<Event>): System {
    if events == [] then System(map[], [], [], []) else Step(Reached(events[..|events| - 1]), events[|events| - 1])
  }

  // ---------------------------------------------------------------- what every interleaving keeps

  function Is(id: string): string -> int {
    (other: string) => if other == id then 1 else 0
  }

  function Executions(s: System, id: string): int {
    SumBy(s.executed, Is(id))
  }

  /** A task that has claimed the request and not yet executed it. */
  function HoldsClaim(id: string): Task -> int {
    (t: Task) => if t.phase.Executing? && t.request.id == id then 1 else 0
  }

  /** Only decisions are recorded, and only approvals claim. */
  predicate Sound(t: Task) {
    && (t.phase.Recording? ==> !t.phase.row.state.Pending?)
    && (t.phase.Claiming? || t.phase.Executing? ==> t.phase.row.state.Approved?)
  }

  /** The table is what the issued statements made of it, no statement reopened the request, and every execution of
      it, done or about to be done, is owed to a successful claim of its own. */
  ghost predicate Kept(s: System, id: string) {
    && s.rows == Run(s.issued)
    && Reopenings(s.issued, id) == 0
    && (forall t :: t in s.tasks ==> Sound(t))
    && Executions(s, id) + SumBy(s.tasks, HoldsClaim(id)) <= Claims(s.issued, id)
  }

  lemma IssueCounts(s: System, op: Op, id: string)
    requires s.rows == Run(s.issued)
    ensures var after := Issue(s, op);
      && after.rows == Run(after.issued)
      && Claims(after.issued, id) == Claims(s.issued, id)
        + (if op.Claim? && op.id == id && OutcomeOf(s.rows, op).Matched? then 1 else 0)
      && (!(op.Update? && op.state.Pending?) ==> Reopenings(after.issued, id) == Reopenings(s.issued, id))
  {
    assert (s.issued + [op])[..|s.issued|] == s.issued;
  }

  lemma MoveKeeps(s: System, i: nat, now: int, result: string, id: string)
    requires i < |s.tasks| && Kept(s, id)
    ensures Kept(Move(s, i, now, result), id)
  {
    var task := s.tasks[i];
    var moved := task.(phase := Next(s.rows, task, now, result));
    assert task in s.tasks && Sound(task);
    SumUpdate(s.tasks, i, moved, HoldsClaim(id));
    SoundNext(s.rows, task, now, result);
    if Statement(task).Some? {
      IssueCounts(s.(tasks := s.tasks[i := moved]), Statement(task).value, id);
    } else if task.phase.Executing? {
      SumSnoc(s.executed, task.request.id, Is(id));
    }
  }

  lemma SoundNext(rows: Rows, task: Task, now: int, result: string)
    requires Sound(task)
    ensures Sound(task.(phase := Next(rows, task, now, result)))
    ensures Statement(task).Some? ==> !(Statement(task).value.Update? && Statement(task).value.state.Pending?)
    ensures Next(rows, task, now, result).Executing? <==>
      Statement(task).Some? && Statement(task).value.Claim? && OutcomeOf(rows, Statement(task).value).Matched?
    ensures Statement(task).Some? ==> Statement(task).value.id == task.request.id && !task.phase.Executing?
  {
  }

  lemma AskKeeps(s: System, other: string, initiator: string, until: int, id: string)
    requires Kept(s, id)
    ensures Kept(Step(s, Ask(other, initiator, until)), id)
  {
    IssueCounts(s, Create(other, Row(Pending, initiator, None, until, None, None, None)), id);
  }

  lemma ArriveKeeps(s: System, request: Request, id: string)
    requires Kept(s, id)
    ensures Kept(Step(s, Arrive(request)), id)
  {
    SumSnoc(s.tasks, Task(request, Start), HoldsClaim(id));
  }

  lemma AbandonKeeps(s: System, i: nat, id: string)
    requires Kept(s, id)
    ensures Kept(Step(s, Abandon(i)), id)
  {
    if i < |s.tasks| {
      SumUpdate(s.tasks, i, s.tasks[i].(phase := Stopped), HoldsClaim(id));
    }
  }

  lemma {:induction false} EveryInterleavingKeeps(events: seq<Event>, id: string)
    ensures Kept(Reached(events), id)
  {
    if events == [] {
    } else {
      var before := Reached(events[..|events| - 1]);
      EveryInterleavingKeeps(events[..|events| - 1], id);
      match events[|events| - 1]
      case Ask(other, initiator, until) => AskKeeps(before, other, initiator, until, id);
      case Arrive(request) => ArriveKeeps(before, request, id);
      case Abandon(i) => AbandonKeeps(before, i, id);
      case Advance(i, now, result) =>
        if i < |before.tasks| {
          MoveKeeps(before, i, now, result, id);
        }
    }
  }

  lemma {:induction false} HoldersAreCounted(tasks: seq<Task>, id: string)
    ensures SumBy(tasks, HoldsClaim(id)) >= 0
  {
    if tasks != [] {
      HoldersAreCounted(tasks[..|tasks| - 1], id);
    }
  }

  /** However the tasks interleave, wherever they stop, and whatever the clock reads, a request's operation is executed
      at most once. */
  lemma AtMostOneExecution(events: seq<Event>, id: string)
    ensures Executions(Reached(events), id) <= 1
  {
    EveryInterleavingKeeps(events, id);
    HoldersAreCounted(Reached(events).tasks, id);
    AtMostOneClaim(Reached(events).issued, id);
  }

  lemma {:induction false} ClaimedHasEvidence(ops: seq<Op>, id: string)
    requires Claims(ops, id) > 0
    ensures id in Run(ops) && Run(ops)[id].approvedAt.Some?
  {
    if EndsInClaim(ops, id) {
      ClaimLeavesEvidence(ops, id);
    } else {
      ClaimedHasEvidence(ops[..|ops| - 1], id);
      EvidenceIsWriteOnce(ops[..|ops| - 1], [ops[|ops| - 1]], id);
      assert ops == ops[..|ops| - 1] + [ops[|ops| - 1]];
    }
  }

  /** Whatever has been executed was asked for, and the table shows that it was approved within its window and when. */
  lemma ExecutedWasApprovedInTime(events: seq<Event>, id: string)
    requires Executions(Reached(events), id) > 0
    ensures var rows := Reached(events).rows;
      && id in rows && rows[id].approvedAt.Some? && rows[id].approvedAt.value <= rows[id].expiresAt
  {
    var s := Reached(events);
    EveryInterleavingKeeps(events, id);
    HoldersAreCounted(s.tasks, id);
    ClaimedHasEvidence(s.issued, id);
    EveryRowIsAdmissible(s.issued);
  }
}
