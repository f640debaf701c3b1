/** What holds in every reachable state of the system, and what each status means for good. */
module Safety {
  import opened JsonValues
  import opened ToolGateways
  import opened MultiTool
  import opened PlanProgress
  import opened Stores
  import opened Machine

  // ---------- One live approval per task ----------

  /** An approval on which a task can still move. */
  predicate Live(a: Approval) {
    a.status == Pending || (a.status == Approved && !a.payload.resumed)
  }

  ghost predicate KeysOk(at: ApprovalTable, tt: TaskTable) {
    && (forall a | a in at.rows :: a < at.next && at.rows[a].task in tt.rows)
    && (forall t | t in tt.rows :: t < tt.next)
  }

  ghost predicate AtMostOneLive(at: ApprovalTable) {
    forall a, b | a in at.rows && b in at.rows && Live(at.rows[a]) && Live(at.rows[b]) && at.rows[a].task == at.rows[b].task ::
      a == b
  }

  predicate Awaited(at: ApprovalTable, t: nat) {
    exists a | a in at.rows :: at.rows[a].task == t && Live(at.rows[a])
  }

  ghost predicate StatusesOk(at: ApprovalTable, tt: TaskTable)
    requires KeysOk(at, tt)
  {
    && (forall t | t in tt.rows && tt.rows[t].status == WaitingApproval :: Awaited(at, t))
    && (forall a | a in at.rows && Live(at.rows[a]) :: tt.rows[at.rows[a].task].status in {WaitingApproval, Failed})
    && (forall a | a in at.rows && at.rows[a].status == Pending :: tt.rows[at.rows[a].task].status == WaitingApproval)
    && (forall a | a in at.rows && at.rows[a].payload.resumed :: at.rows[a].status == Approved)
  }

  ghost predicate LiveOk(at: ApprovalTable, tt: TaskTable) {
    KeysOk(at, tt) && AtMostOneLive(at) && StatusesOk(at, tt)
  }

  lemma NewTaskKeepsLive(at: ApprovalTable, tt: TaskTable, task: Task)
    requires LiveOk(at, tt) && task.status != WaitingApproval
    ensures LiveOk(at, TaskTable(tt.rows[tt.next := task], tt.next + 1))
  {
  }

  lemma NewWaitingTaskKeepsLive(at: ApprovalTable, tt: TaskTable, work: Work, plan: Option<Plan>)
    requires LiveOk(at, tt)
    ensures LiveOk(Insert(at, NewApproval(tt.next, work)), TaskTable(tt.rows[tt.next := Task(WaitingApproval, plan)], tt.next + 1))
  {
    var at' := Insert(at, NewApproval(tt.next, work));
    var tt' := TaskTable(tt.rows[tt.next := Task(WaitingApproval, plan)], tt.next + 1);
    assert at.next in at'.rows;
    forall t | t in tt'.rows && tt'.rows[t].status == WaitingApproval ensures Awaited(at', t) {
      if t != tt.next {
        KeepsAwaited(at, at', t);
      }
    }
  }

  /** `after` keeps every live approval of task `t` alive. */
  lemma KeepsAwaited(at: ApprovalTable, after: ApprovalTable, t: nat)
    requires Awaited(at, t)
    requires forall a | a in at.rows && at.rows[a].task == t && Live(at.rows[a]) ::
               a in after.rows && after.rows[a].task == t && Live(after.rows[a])
    ensures Awaited(after, t)
  {
  }

  lemma ApprovalKeepsLive(at: ApprovalTable, tt: TaskTable, id: nat)
    requires LiveOk(at, tt)
    ensures LiveOk(DecidePending(at, id, Approved), tt)
  {
    var at' := DecidePending(at, id, Approved);
    forall t | t in tt.rows && tt.rows[t].status == WaitingApproval ensures Awaited(at', t) {
      KeepsAwaited(at, at', t);
    }
  }

  lemma RejectionKeepsLive(at: ApprovalTable, tt: TaskTable, id: nat)
    requires LiveOk(at, tt) && id in at.rows && at.rows[id].status == Pending
    ensures LiveOk(DecidePending(at, id, Rejected), SetStatus(tt, at.rows[id].task, Cancelled))
  {
    var at' := DecidePending(at, id, Rejected);
    var tt' := SetStatus(tt, at.rows[id].task, Cancelled);
    forall t | t in tt'.rows && tt'.rows[t].status == WaitingApproval ensures Awaited(at', t) {
      KeepsAwaited(at, at', t);
    }
  }

  ghost predicate Resumable(at: ApprovalTable, id: nat) {
    id in at.rows && at.rows[id].status == Approved && !at.rows[id].payload.resumed
  }

  /** A resume attempt that consumes the approval and settles its task. */
  lemma SettlingKeepsLive(at: ApprovalTable, tt: TaskTable, id: nat, p: Payload, status: TaskStatus)
    requires LiveOk(at, tt) && Resumable(at, id) && p.resumed && status in {Completed, Failed}
    ensures LiveOk(WritePayload(at, id, p), SetStatus(tt, at.rows[id].task, status))
  {
    var at' := WritePayload(at, id, p);
    var tt' := SetStatus(tt, at.rows[id].task, status);
    forall t | t in tt'.rows && tt'.rows[t].status == WaitingApproval ensures Awaited(at', t) {
      KeepsAwaited(at, at', t);
    }
  }

  /** A task without a live approval may ask for one. */
  lemma RequestKeepsLive(at: ApprovalTable, tt: TaskTable, task: nat, work: Work)
    requires LiveOk(at, tt) && task in tt.rows && !Awaited(at, task)
    ensures LiveOk(Insert(at, NewApproval(task, work)), SetStatus(tt, task, WaitingApproval))
  {
    var at' := Insert(at, NewApproval(task, work));
    assert at.next in at'.rows && at'.rows[at.next] == NewApproval(task, work);
    forall t | t in tt.rows && t != task && tt.rows[t].status == WaitingApproval ensures Awaited(at', t) {
      KeepsAwaited(at, at', t);
    }
  }

  lemma InsertCommutes(at: ApprovalTable, id: nat, p: Payload, a: Approval)
    requires id in at.rows && id != at.next
    ensures WritePayload(Insert(at, a), id, p) == Insert(WritePayload(at, id, p), a)
  {
    assert WritePayload(Insert(at, a), id, p).rows == Insert(WritePayload(at, id, p), a).rows;
  }

  lemma SetStatusTwice(tt: TaskTable, task: nat, first: TaskStatus, second: TaskStatus)
    ensures SetStatus(SetStatus(tt, task, first), task, second) == SetStatus(tt, task, second)
  {
    assert SetStatus(SetStatus(tt, task, first), task, second).rows == SetStatus(tt, task, second).rows;
  }

  lemma NothingElseAwaited(at: ApprovalTable, id: nat, p: Payload)
    requires AtMostOneLive(at) && Resumable(at, id) && p.resumed
    ensures !Awaited(WritePayload(at, id, p), at.rows[id].task)
  {
    assert Live(at.rows[id]);
  }

  /** A resume attempt that consumes the approval and asks for the next one. */
  lemma ChainingKeepsLive(at: ApprovalTable, tt: TaskTable, id: nat, p: Payload, next: Work)
    requires LiveOk(at, tt) && Resumable(at, id) && p.resumed
    ensures LiveOk(WritePayload(Insert(at, NewApproval(at.rows[id].task, next)), id, p),
                   SetStatus(tt, at.rows[id].task, WaitingApproval))
  {
    var task := at.rows[id].task;
    SettlingKeepsLive(at, tt, id, p, Failed);
    var at1 := WritePayload(at, id, p);
    var tt1 := SetStatus(tt, task, Failed);
    NothingElseAwaited(at, id, p);
    RequestKeepsLive(at1, tt1, task, next);
    InsertCommutes(at, id, p, NewApproval(task, next));
    SetStatusTwice(tt, task, Failed, WaitingApproval);
  }

  /** A resume attempt that leaves the approval live, to be resumed again. */
  lemma RetryKeepsLive(at: ApprovalTable, tt: TaskTable, id: nat, p: Payload)
    requires LiveOk(at, tt) && Resumable(at, id) && !p.resumed
    ensures LiveOk(WritePayload(at, id, p), tt)
  {
    var at' := WritePayload(at, id, p);
    forall t | t in tt.rows && tt.rows[t].status == WaitingApproval ensures Awaited(at', t) {
      KeepsAwaited(at, at', t);
    }
  }

  /** A failed attempt fails the task, whose approval stays live. */
  lemma FailureKeepsLive(at: ApprovalTable, tt: TaskTable, id: nat)
    requires LiveOk(at, tt) && Resumable(at, id)
    ensures LiveOk(at, SetStatus(tt, at.rows[id].task, Failed))
  {
    assert Live(at.rows[id]);
  }

  // ---------- No ungated high-risk call ----------

  function StepOf(work: Work): string {
    if work.PlanStep? then work.snapshot.step else ""
  }

  /** `a` is an approved approval of exactly this call: its task, its tool and its step, and outside
      plans its very arguments. */
  predicate Grants(a: Approval, c: Call) {
    && a.status == Approved
    && a.task == c.owner.task && a.tool == c.record.tool && StepOf(a.payload.work) == c.owner.step
    && (a.payload.work.KeywordCall? ==> a.payload.work.args == c.record.args)
    && (a.payload.work.GraphCall? ==> a.payload.work.graphArgs == c.record.args)
  }

  predicate Granted(at: ApprovalTable, c: Call) {
    exists a | a in at.rows :: Grants(at.rows[a], c)
  }

  ghost predicate Gated(tools: Tools, at: ApprovalTable, calls: seq<Call>) {
    forall i | 0 <= i < |calls| && HighRisk(tools, calls[i].record.tool) :: Granted(at, calls[i])
  }

  /** Approvals never lose their task, tool or work, nor an approved status. */
  predicate Carries(at: ApprovalTable, after: ApprovalTable) {
    forall a | a in at.rows ::
      && a in after.rows && after.rows[a].task == at.rows[a].task && after.rows[a].tool == at.rows[a].tool
      && after.rows[a].payload.work == at.rows[a].payload.work
      && (at.rows[a].status == Approved ==> after.rows[a].status == Approved)
  }

  /** The calls added by one operation: low-risk ones, or granted ones. */
  lemma GatedExtends(tools: Tools, at: ApprovalTable, after: ApprovalTable, calls: seq<Call>, calls': seq<Call>)
    requires Gated(tools, at, calls) && Carries(at, after) && calls <= calls'
    requires forall i | |calls| <= i < |calls'| && HighRisk(tools, calls'[i].record.tool) :: Granted(after, calls'[i])
    ensures Gated(tools, after, calls')
  {
    forall i | 0 <= i < |calls'| && HighRisk(tools, calls'[i].record.tool) ensures Granted(after, calls'[i]) {
      if i < |calls| {
        assert calls'[i] == calls[i];
        var a :| a in at.rows && Grants(at.rows[a], calls[i]);
        assert Grants(after.rows[a], calls'[i]);
      }
    }
  }

  // ---------- What is stored of a plan ----------

  /** An approval asks for its own tool; in plan mode its payload is the state of its task's plan
      before the step it asks for, up to date for as long as the approval is live. */
  ghost predicate WorkOk(a: Approval, tt: TaskTable, calls: seq<Call>)
    requires a.task in tt.rows
  {
    && a.tool == ToolOf(a.payload.work)
    && match a.payload.work
       case PlanStep(snap) =>
         && tt.rows[a.task].plan == Some(snap.plan)
         && SnapshotAt(snap, snap.plan, |snap.calls|)
         && |snap.calls| <= |Successes(calls, a.task)|
         && (Live(a) ==> |snap.calls| == |Successes(calls, a.task)|)
       case OtherMode(_) => false
       case _ => tt.rows[a.task].plan == None
  }

  ghost predicate PlanTaskOk(t: nat, task: Task, calls: seq<Call>) {
    task.plan.Some? ==> DistinctIds(task.plan.value) && Progressed(calls, t, task.plan.value, |Successes(calls, t)|)
  }

  ghost predicate WorksOk(at: ApprovalTable, tt: TaskTable, calls: seq<Call>) {
    forall a | a in at.rows :: at.rows[a].task in tt.rows && WorkOk(at.rows[a], tt, calls)
  }

  ghost predicate PlanTasksOk(tt: TaskTable, calls: seq<Call>) {
    && (forall t | t in tt.rows :: PlanTaskOk(t, tt.rows[t], calls))
    && (forall i | 0 <= i < |calls| :: calls[i].owner.task < tt.next)
  }

  ghost predicate PlansOk(at: ApprovalTable, tt: TaskTable, calls: seq<Call>) {
    WorksOk(at, tt, calls) && PlanTasksOk(tt, calls)
  }

  /** The invariant of the whole system. */
  ghost predicate Inv(env: Env, s: Sys) {
    && LiveOk(s.approvals, s.tasks)
    && Gated(env.tools, s.approvals, s.world.calls)
    && PlansOk(s.approvals, s.tasks, s.world.calls)
  }
}
