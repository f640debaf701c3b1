/** The three stores: approvals, tasks and graph checkpoints. Each SQL statement of the SQLite
    stores is a function on a table; the classes hold a table and perform the statements. */
module Stores {
  import opened JsonValues
  import opened ToolGateways
  import opened MultiTool

  // ---------- Approvals ----------

  datatype ApprovalStatus = Pending | Approved | Rejected

  /** What an approval's payload asks to be done, by its mode. */
  datatype Work =
    | KeywordCall(tool: string, args: Args)
    | PlanStep(snapshot: Snapshot)
    | GraphCall(graphTool: string, graphArgs: Args, checkpoint: Option<nat>)
    | OtherMode(otherTool: string)

  function ToolOf(work: Work): string {
    match work
    case KeywordCall(tool, _) => tool
    case PlanStep(snapshot) => snapshot.tool
    case GraphCall(tool, _, _) => tool
    case OtherMode(tool) => tool
  }

  datatype ResumeStatus = ResumeCompleted | ResumeFailed | ResumeWaiting | DownstreamFailed

  /** The dict a resume attempt answers with. */
  datatype ResumeResult = ResumeResult(success: bool, executed: bool, consumed: bool, status: ResumeStatus, data: Json,
                                       error: Json, calls: seq<CallData>, newApproval: Option<nat>)

  datatype Payload = Payload(work: Work, resumed: bool, result: Option<ResumeResult>,
                             lastFailure: Option<ResumeResult>, attempts: nat)

  datatype Approval = Approval(task: nat, tool: string, status: ApprovalStatus, payload: Payload)

  /** `next` stands for the supply of fresh ids. */
  datatype ApprovalTable = ApprovalTable(rows: map<nat, Approval>, next: nat)

  function NewApproval(task: nat, work: Work): Approval {
    Approval(task, ToolOf(work), Pending, Payload(work, false, None, None, 0))
  }

  function Insert(t: ApprovalTable, a: Approval): ApprovalTable {
    ApprovalTable(t.rows[t.next := a], t.next + 1)
  }

  /** UPDATE ... SET status = ? WHERE approval_id = ? AND status = 'pending'. */
  function DecidePending(t: ApprovalTable, id: nat, status: ApprovalStatus): ApprovalTable {
    if id in t.rows && t.rows[id].status == Pending then t.(rows := t.rows[id := t.rows[id].(status := status)]) else t
  }

  /** UPDATE approvals SET payload_json = ? WHERE approval_id = ?. */
  function WritePayload(t: ApprovalTable, id: nat, p: Payload): ApprovalTable {
    if id in t.rows then t.(rows := t.rows[id := t.rows[id].(payload := p)]) else t
  }

  datatype PayloadUpdate = Consumed(outcome: ResumeResult) | NotConsumed(failure: ResumeResult)

  /** What `update_payload` merges into the payload it read. */
  function Merge(p: Payload, u: PayloadUpdate): Payload {
    match u
    case Consumed(r) => p.(resumed := true, result := Some(r))
    case NotConsumed(r) => p.(lastFailure := Some(r), attempts := p.attempts + 1)
  }

  function UpdatePayload(t: ApprovalTable, id: nat, u: PayloadUpdate): ApprovalTable {
    if id in t.rows then WritePayload(t, id, Merge(t.rows[id].payload, u)) else t
  }

  class SQLiteApprovalStore {
    var table: ApprovalTable

    constructor (table: ApprovalTable)
      ensures this.table == table
    {
      this.table := table;
    }

    method GetApproval(id: nat) returns (a: Option<Approval>)
      ensures a == if id in table.rows then Some(table.rows[id]) else None
    {
      a := if id in table.rows then Some(table.rows[id]) else None;
    }

    method CreateApproval(task: nat, work: Work) returns (id: nat)
      modifies this
      ensures id == old(table.next) && table == Insert(old(table), NewApproval(task, work))
    {
      id := table.next;
      table := ApprovalTable(table.rows[id := NewApproval(task, work)], id + 1);
    }

    /** The row after the decision, and whether the first read already found it decided. */
    method DecideApproval(id: nat, approved: bool) returns (a: Option<Approval>, alreadyDecided: bool)
      modifies this
      ensures table == DecidePending(old(table), id, if approved then Approved else Rejected)
      ensures a == if id in table.rows then Some(table.rows[id]) else None
      ensures alreadyDecided <==> id in old(table).rows && old(table).rows[id].status != Pending
    {
      var current := GetApproval(id);
      alreadyDecided := current.Some? && current.value.status != Pending;
      if current.None? || alreadyDecided {
        return current, alreadyDecided;
      }
      var row := current.value.(status := if approved then Approved else Rejected);
      table := table.(rows := table.rows[id := row]);
      a := GetApproval(id);
    }

    method Update(id: nat, u: PayloadUpdate)
      modifies this
      ensures table == UpdatePayload(old(table), id, u)
    {
      var current := GetApproval(id);
      if current.Some? {
        var merged := Merge(current.value.payload, u);
        table := table.(rows := table.rows[id := current.value.(payload := merged)]);
      }
    }
  }

  // ---------- Tasks ----------

  datatype TaskStatus = Created | Running | WaitingApproval | Completed | Failed | Cancelled

  /** `plan` is the multi-tool plan the planner answers the task's query with, if it is one. */
  datatype Task = Task(status: TaskStatus, plan: Option<Plan>)

  datatype TaskTable = TaskTable(rows: map<nat, Task>, next: nat)

  /** An update of a task that is not stored changes nothing. */
  function SetStatus(t: TaskTable, id: nat, status: TaskStatus): TaskTable {
    if id in t.rows then t.(rows := t.rows[id := t.rows[id].(status := status)]) else t
  }

  class SQLiteTaskStore {
    var table: TaskTable

    constructor (table: TaskTable)
      ensures this.table == table
    {
      this.table := table;
    }

    method NewTaskId() returns (id: nat)
      modifies this
      ensures id == old(table.next) && table == old(table).(next := id + 1)
    {
      id := table.next;
      table := table.(next := id + 1);
    }

    method SaveTask(id: nat, task: Task)
      modifies this
      ensures table == old(table).(rows := old(table).rows[id := task])
    {
      table := table.(rows := table.rows[id := task]);
    }

    method UpdateTaskStatus(id: nat, status: TaskStatus)
      modifies this
      ensures table == SetStatus(old(table), id, status)
    {
      if id in table.rows {
        table := table.(rows := table.rows[id := table.rows[id].(status := status)]);
      }
    }
  }

  // ---------- Graph checkpoints ----------

  datatype CheckpointStatus =
    | StageRunning | StageCompleted | StageFailed | Interrupted | Resuming | CheckpointResumed | CheckpointCancelled | Expired

  datatype Checkpoint = Checkpoint(task: nat, stage: string, status: CheckpointStatus, approval: Option<nat>, consumed: bool,
                                   expiresAt: Option<int>, attempts: nat, snapshot: Option<ResumeResult>)

  datatype CheckpointTable = CheckpointTable(rows: map<nat, Checkpoint>, next: nat)

  function NewCheckpoint(task: nat, stage: string, status: CheckpointStatus, expiresAt: Option<int>): Checkpoint {
    Checkpoint(task, stage, status, None, false, expiresAt, 0, None)
  }

  function AddCheckpoint(t: CheckpointTable, c: Checkpoint): CheckpointTable {
    CheckpointTable(t.rows[t.next := c], t.next + 1)
  }

  function MarkPendingInterrupt(t: CheckpointTable, id: nat, approval: nat): CheckpointTable {
    if id in t.rows then t.(rows := t.rows[id := t.rows[id].(approval := Some(approval), status := Interrupted)]) else t
  }

  /** The WHERE clause of `claim_for_resume`. */
  predicate Claimable(t: CheckpointTable, id: nat, approval: nat, now: int) {
    && id in t.rows
    && t.rows[id].approval == Some(approval)
    && !t.rows[id].consumed
    && t.rows[id].status == Interrupted
    && (t.rows[id].expiresAt.None? || t.rows[id].expiresAt.value > now)
  }

  function Claim(t: CheckpointTable, id: nat, approval: nat, now: int): CheckpointTable {
    if Claimable(t, id, approval, now)
    then t.(rows := t.rows[id := t.rows[id].(status := Resuming, attempts := t.rows[id].attempts + 1)])
    else t
  }

  function MarkResumed(t: CheckpointTable, id: nat, r: ResumeResult): CheckpointTable {
    if id in t.rows
    then t.(rows := t.rows[id := t.rows[id].(status := CheckpointResumed, consumed := true, snapshot := Some(r))])
    else t
  }

  function MarkCancelled(t: CheckpointTable, id: nat): CheckpointTable {
    if id in t.rows then t.(rows := t.rows[id := t.rows[id].(status := CheckpointCancelled, consumed := true)]) else t
  }

  predicate Outdated(c: Checkpoint, now: int) {
    !c.consumed && c.expiresAt.Some? && c.expiresAt.value <= now
  }

  function ExpireOld(t: CheckpointTable, now: int): CheckpointTable {
    t.(rows := map id | id in t.rows ::
         if Outdated(t.rows[id], now) then t.rows[id].(status := Expired, consumed := true) else t.rows[id])
  }

  class SQLiteGraphCheckpointStore {
    var table: CheckpointTable

    constructor (table: CheckpointTable)
      ensures this.table == table
    {
      this.table := table;
    }

    method CreateCheckpoint(task: nat, stage: string, status: CheckpointStatus) returns (id: nat)
      modifies this
      ensures id == old(table.next) && table == AddCheckpoint(old(table), NewCheckpoint(task, stage, status, None))
    {
      id := table.next;
      table := CheckpointTable(table.rows[id := NewCheckpoint(task, stage, status, None)], id + 1);
    }

    method GetCheckpoint(id: nat) returns (c: Option<Checkpoint>)
      ensures c == if id in table.rows then Some(table.rows[id]) else None
    {
      c := if id in table.rows then Some(table.rows[id]) else None;
    }

    method MarkPending(id: nat, approval: nat)
      modifies this
      ensures table == MarkPendingInterrupt(old(table), id, approval)
    {
      if id in table.rows {
        table := table.(rows := table.rows[id := table.rows[id].(approval := Some(approval), status := Interrupted)]);
      }
    }

    method ClaimForResume(id: nat, approval: nat, now: int) returns (claimed: bool)
      modifies this
      ensures table == Claim(old(table), id, approval, now)
      ensures claimed <==> Claimable(old(table), id, approval, now)
    {
      claimed := false;
      if id in table.rows {
        var row := table.rows[id];
        var live := row.expiresAt.None? || row.expiresAt.value > now;
        if row.approval == Some(approval) && !row.consumed && row.status == Interrupted && live {
          table := table.(rows := table.rows[id := row.(status := Resuming, attempts := row.attempts + 1)]);
          claimed := true;
        }
      }
    }

    method MarkResumedRow(id: nat, r: ResumeResult)
      modifies this
      ensures table == MarkResumed(old(table), id, r)
    {
      if id in table.rows {
        var row := table.rows[id].(status := CheckpointResumed, consumed := true, snapshot := Some(r));
        table := table.(rows := table.rows[id := row]);
      }
    }

    method MarkCancelledRow(id: nat)
      modifies this
      ensures table == MarkCancelled(old(table), id)
    {
      if id in table.rows {
        table := table.(rows := table.rows[id := table.rows[id].(status := CheckpointCancelled, consumed := true)]);
      }
    }

    /** One UPDATE over all outdated rows. */
    method ExpireOutdated(now: int)
      modifies this
      ensures table == ExpireOld(old(table), now)
    {
      var outdated := set id | id in table.rows && Outdated(table.rows[id], now);
      table := table.(rows := table.rows + map id | id in outdated :: table.rows[id].(status := Expired, consumed := true));
      assert table.rows == ExpireOld(old(table), now).rows;
    }
  }
}
