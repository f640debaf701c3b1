/** Every operation keeps the invariant of the system; what follows for whole runs. */
module Reachability {
  import opened JsonValues
  import opened ToolGateways
  import opened MultiTool
  import opened PlanProgress
  import opened Stores
  import opened Machine
  import opened Safety

  // ---------- Frames ----------

  ghost predicate AddsFor(task: nat, before: seq<Call>, after: seq<Call>) {
    && before <= after
    && forall i | |before| <= i < |after| :: after[i].owner.task == task
  }

  ghost predicate SamePlans(tt: TaskTable, after: TaskTable, except: nat) {
    forall u | u in tt.rows && u != except :: u in after.rows && after.rows[u].plan == tt.rows[u].plan
  }

  /** Calls for task `t` leave what is stored of the other tasks correct. */
  lemma OthersKept(at: ApprovalTable, tt: TaskTable, calls: seq<Call>, tt': TaskTable, calls': seq<Call>, t: nat)
    requires KeysOk(at, tt) && PlansOk(at, tt, calls) && AddsFor(t, calls, calls') && SamePlans(tt, tt', t)
    ensures forall a | a in at.rows && at.rows[a].task != t :: WorkOk(at.rows[a], tt', calls')
    ensures forall u | u in tt.rows && u != t :: PlanTaskOk(u, tt'.rows[u], calls')
  {
    forall u | u in tt.rows && u != t ensures Successes(calls', u) == Successes(calls, u) {
      SuccessesFrame(calls, calls', u);
    }
  }

  // ---------- Submitting ----------

  /** A submission that asks for no approval. */
  lemma QuietSubmission(env: Env, s: Sys, task: Task, calls: seq<Call>, s': Sys)
    requires Inv(env, s) && task.status != WaitingApproval
    requires AddsNoHighRisk(env.tools, s.tasks.next, s.world.calls, calls)
    requires PlanTaskOk(s.tasks.next, task, calls)
    requires s'.approvals == s.approvals && s'.world.calls == calls
    requires s'.tasks == TaskTable(s.tasks.rows[s.tasks.next := task], s.tasks.next + 1)
    ensures Inv(env, s')
  {
    NewTaskKeepsLive(s.approvals, s.tasks, task);
    GatedExtends(env.tools, s.approvals, s.approvals, s.world.calls, calls);
    OthersKept(s.approvals, s.tasks, s.world.calls, s'.tasks, calls, s.tasks.next);
  }

  /** A submission that asks for an approval. */
  lemma WaitingSubmission(env: Env, s: Sys, work: Work, plan: Option<Plan>, calls: seq<Call>, s': Sys)
    requires Inv(env, s)
    requires AddsNoHighRisk(env.tools, s.tasks.next, s.world.calls, calls)
    requires s'.approvals == Insert(s.approvals, NewApproval(s.tasks.next, work)) && s'.world.calls == calls
    requires s'.tasks == TaskTable(s.tasks.rows[s.tasks.next := Task(WaitingApproval, plan)], s.tasks.next + 1)
    requires PlanTaskOk(s.tasks.next, Task(WaitingApproval, plan), calls)
    requires WorkOk(NewApproval(s.tasks.next, work), s'.tasks, calls)
    ensures Inv(env, s')
  {
    NewWaitingTaskKeepsLive(s.approvals, s.tasks, work, plan);
    GatedExtends(env.tools, s.approvals, s'.approvals, s.world.calls, calls);
    WaitingPlans(s.approvals, s.tasks, s.world.calls, work, plan, calls, s'.approvals, s'.tasks);
  }

  lemma WaitingPlans(at: ApprovalTable, tt: TaskTable, before: seq<Call>, work: Work, plan: Option<Plan>, calls: seq<Call>,
                     at': ApprovalTable, tt': TaskTable)
    requires KeysOk(at, tt) && PlansOk(at, tt, before) && AddsFor(tt.next, before, calls)
    requires at' == Insert(at, NewApproval(tt.next, work))
    requires tt' == TaskTable(tt.rows[tt.next := Task(WaitingApproval, plan)], tt.next + 1)
    requires PlanTaskOk(tt.next, Task(WaitingApproval, plan), calls) && WorkOk(NewApproval(tt.next, work), tt', calls)
    ensures PlansOk(at', tt', calls)
  {
    OthersKept(at, tt, before, tt', calls, tt.next);
  }

  lemma KeywordKeepsInv(env: Env, s: Sys, planned: Option<(string, Args)>)
    requires Inv(env, s)
    ensures Inv(env, SubmitKeyword(env, s, planned))
  {
    var t := s.tasks.next;
    var s' := SubmitKeyword(env, s, planned);
    if planned.Some? && GateOf(env.tools, Cfg(env), planned.value.0) == Ask {
      WaitingSubmission(env, s, KeywordCall(planned.value.0, planned.value.1), None, s.world.calls, s');
    } else {
      QuietSubmission(env, s, Task(Completed, None), s'.world.calls, s');
    }
  }

  lemma GraphKeepsInv(env: Env, s: Sys, planned: Option<string>)
    requires Inv(env, s)
    ensures Inv(env, SubmitGraph(env, s, planned))
  {
    var t := s.tasks.next;
    var s' := SubmitGraph(env, s, planned);
    if planned.Some? && HighRisk(env.tools, planned.value) {
      WaitingSubmission(env, s, s'.approvals.rows[s.approvals.next].payload.work, None, s.world.calls, s');
    } else {
      QuietSubmission(env, s, s'.tasks.rows[t], s'.world.calls, s');
    }
  }

  lemma PlanKeepsInv(env: Env, s: Sys, plan: Plan)
    requires Inv(env, s) && DistinctIds(plan)
    ensures Inv(env, SubmitPlan(env, s, plan))
  {
    var t := s.tasks.next;
    var start := Exec(s.world, {}, map[], []);
    var run := Run(env.tools, Cfg(env), t, plan, s.world);
    RunCallsNoHighRisk(env.tools, Cfg(env), FirstRun, t, plan, 0, start, run);
    NoSuccesses(s.world.calls, t);
    var m := RunProgresses(env.tools, Cfg(env), FirstRun, t, plan, 0, start, run);
    var s' := SubmitPlan(env, s, plan);
    if run.1.Stopped? && run.1.why.NeedsApproval? {
      WaitingSubmission(env, s, PlanStep(run.1.why.snapshot), Some(plan), run.0.world.calls, s');
    } else {
      QuietSubmission(env, s, Task(Completed, Some(plan)), run.0.world.calls, s');
    }
  }

  // ---------- Deciding ----------

  /** Approving an approval, or writing its payload without losing its work or reviving it, keeps
      what is stored of its plan correct. */
  lemma SameWorkKeepsWorks(at: ApprovalTable, at': ApprovalTable, tt: TaskTable, tt': TaskTable, calls: seq<Call>)
    requires WorksOk(at, tt, calls) && at'.rows.Keys == at.rows.Keys
    requires forall a | a in at.rows ::
               && at'.rows[a].task == at.rows[a].task && at'.rows[a].tool == at.rows[a].tool
               && at'.rows[a].payload.work == at.rows[a].payload.work && (Live(at'.rows[a]) ==> Live(at.rows[a]))
    requires forall t | t in tt.rows :: t in tt'.rows && tt'.rows[t].plan == tt.rows[t].plan
    ensures WorksOk(at', tt', calls)
  {
    forall a | a in at'.rows ensures at'.rows[a].task in tt'.rows && WorkOk(at'.rows[a], tt', calls) {
      assert WorkOk(at.rows[a], tt, calls);
    }
  }

  lemma ApprovalKeepsPlans(at: ApprovalTable, tt: TaskTable, calls: seq<Call>, id: nat)
    requires PlansOk(at, tt, calls)
    ensures PlansOk(DecidePending(at, id, Approved), tt, calls)
  {
    SameWorkKeepsWorks(at, DecidePending(at, id, Approved), tt, tt, calls);
  }

  lemma ApprovalKeepsInv(env: Env, s: Sys, id: nat)
    requires Inv(env, s)
    ensures Inv(env, s.(approvals := DecidePending(s.approvals, id, Approved)))
  {
    ApprovalKeepsLive(s.approvals, s.tasks, id);
    ApprovalKeepsPlans(s.approvals, s.tasks, s.world.calls, id);
    GatedExtends(env.tools, s.approvals, DecidePending(s.approvals, id, Approved), s.world.calls, s.world.calls);
  }

  lemma RejectionKeepsPlans(at: ApprovalTable, tt: TaskTable, calls: seq<Call>, id: nat)
    requires PlansOk(at, tt, calls) && id in at.rows
    ensures PlansOk(DecidePending(at, id, Rejected), SetStatus(tt, at.rows[id].task, Cancelled), calls)
  {
    var tt' := SetStatus(tt, at.rows[id].task, Cancelled);
    SameWorkKeepsWorks(at, DecidePending(at, id, Rejected), tt, tt', calls);
    forall t | t in tt'.rows ensures PlanTaskOk(t, tt'.rows[t], calls) {
      assert PlanTaskOk(t, tt.rows[t], calls);
    }
  }

  lemma RejectKeepsInv(env: Env, s: Sys, id: nat)
    requires Inv(env, s)
    ensures Inv(env, Reject(s, id))
  {
    if id in s.approvals.rows && s.approvals.rows[id].status == Pending {
      RejectionKeepsLive(s.approvals, s.tasks, id);
      RejectionKeepsPlans(s.approvals, s.tasks, s.world.calls, id);
      GatedExtends(env.tools, s.approvals, DecidePending(s.approvals, id, Rejected), s.world.calls, s.world.calls);
      RejectParts(env, s, id);
    }
  }

  lemma RejectParts(env: Env, s: Sys, id: nat)
    requires id in s.approvals.rows && s.approvals.rows[id].status == Pending
    ensures Reject(s, id).approvals == DecidePending(s.approvals, id, Rejected)
    ensures Reject(s, id).tasks == SetStatus(s.tasks, s.approvals.rows[id].task, Cancelled)
    ensures Reject(s, id).world == s.world
  {
  }

  // ---------- Resuming ----------

  /** The state after a resume attempt on `id`: what it called was granted by `id`, and the payload
      of `id` keeps its work. */
  ghost predicate Attempt(env: Env, s: Sys, id: nat, s': Sys) {
    && Resumable(s.approvals, id)
    && AddsOnlyGranted(env.tools, s.approvals.rows[id], s.world.calls, s'.world.calls)
    && Carries(s.approvals, s'.approvals)
    && s'.tasks.next == s.tasks.next && SamePlans(s.tasks, s'.tasks, s.tasks.next)
    && s'.tasks.rows.Keys == s.tasks.rows.Keys
  }

  ghost predicate AddsOnlyGranted(tools: Tools, a: Approval, before: seq<Call>, after: seq<Call>) {
    && AddsFor(a.task, before, after)
    && forall i | |before| <= i < |after| && HighRisk(tools, after[i].record.tool) :: Grants(a, after[i])
  }

  lemma AttemptKeepsGated(env: Env, s: Sys, id: nat, s': Sys)
    requires Inv(env, s) && Attempt(env, s, id, s')
    ensures Gated(env.tools, s'.approvals, s'.world.calls)
  {
    var calls := s'.world.calls;
    forall i | |s.world.calls| <= i < |calls| && HighRisk(env.tools, calls[i].record.tool)
      ensures Granted(s'.approvals, calls[i])
    {
      assert Grants(s'.approvals.rows[id], calls[i]);
    }
    GatedExtends(env.tools, s.approvals, s'.approvals, s.world.calls, calls);
  }

  /** An attempt outside plan mode touches no plan. */
  lemma CallAttemptKeepsPlans(env: Env, s: Sys, id: nat, s': Sys)
    requires Inv(env, s) && Attempt(env, s, id, s')
    requires !s.approvals.rows[id].payload.work.PlanStep?
    requires s'.approvals.rows.Keys == s.approvals.rows.Keys
    requires forall a | a in s.approvals.rows && a != id :: s'.approvals.rows[a] == s.approvals.rows[a]
    ensures PlansOk(s'.approvals, s'.tasks, s'.world.calls)
  {
    var t := s.approvals.rows[id].task;
    assert WorkOk(s.approvals.rows[id], s.tasks, s.world.calls);
    assert s.tasks.rows[t].plan == None && s'.tasks.rows[t].plan == None;
    OthersKept(s.approvals, s.tasks, s.world.calls, s'.tasks, s'.world.calls, t);
    forall a | a in s'.approvals.rows
      ensures s'.approvals.rows[a].task in s'.tasks.rows && WorkOk(s'.approvals.rows[a], s'.tasks, s'.world.calls)
    {
      assert WorkOk(s.approvals.rows[a], s.tasks, s.world.calls);
    }
  }

  lemma KeywordAttempt(env: Env, s: Sys, id: nat, s': Sys)
    requires Inv(env, s) && Resumable(s.approvals, id) && s.approvals.rows[id].payload.work.KeywordCall?
    requires s' == ResumeKeyword(env, s, id, s.approvals.rows[id]).0
    ensures Attempt(env, s, id, s')
    ensures id in s'.approvals.rows && s'.approvals == WritePayload(s.approvals, id, s'.approvals.rows[id].payload)
    ensures s'.tasks == SetStatus(s.tasks, s.approvals.rows[id].task,
                                  if s'.approvals.rows[id].payload.resumed then Completed else Failed)
  {
    assert WorkOk(s.approvals.rows[id], s.tasks, s.world.calls);
  }

  /** An attempt outside plan mode that consumes the approval and settles the task. */
  lemma SettledAttemptKeepsInv(env: Env, s: Sys, id: nat, p: Payload, status: TaskStatus, s': Sys)
    requires Inv(env, s) && Attempt(env, s, id, s') && !s.approvals.rows[id].payload.work.PlanStep?
    requires p.resumed && p.work == s.approvals.rows[id].payload.work && status in {Completed, Failed}
    requires s'.approvals == WritePayload(s.approvals, id, p)
    requires s'.tasks == SetStatus(s.tasks, s.approvals.rows[id].task, status)
    ensures Inv(env, s')
  {
    SettlingKeepsLive(s.approvals, s.tasks, id, p, status);
    CallAttemptKeepsPlans(env, s, id, s');
    AttemptKeepsGated(env, s, id, s');
  }

  /** One that fails and leaves the approval live. */
  lemma FailedAttemptKeepsInv(env: Env, s: Sys, id: nat, p: Payload, s': Sys)
    requires Inv(env, s) && Attempt(env, s, id, s') && !s.approvals.rows[id].payload.work.PlanStep?
    requires !p.resumed && p.work == s.approvals.rows[id].payload.work
    requires s'.approvals == WritePayload(s.approvals, id, p)
    requires s'.tasks == SetStatus(s.tasks, s.approvals.rows[id].task, Failed)
    ensures Inv(env, s')
  {
    RetryKeepsLive(s.approvals, s.tasks, id, p);
    FailureKeepsLive(s'.approvals, s.tasks, id);
    CallAttemptKeepsPlans(env, s, id, s');
    AttemptKeepsGated(env, s, id, s');
  }

  lemma KeywordResumeKeepsInv(env: Env, s: Sys, id: nat)
    requires Inv(env, s) && Resumable(s.approvals, id) && s.approvals.rows[id].payload.work.KeywordCall?
    ensures Inv(env, ResumeKeyword(env, s, id, s.approvals.rows[id]).0)
  {
    var s' := ResumeKeyword(env, s, id, s.approvals.rows[id]).0;
    KeywordAttempt(env, s, id, s');
    var p := s'.approvals.rows[id].payload;
    if p.resumed {
      SettledAttemptKeepsInv(env, s, id, p, Completed, s');
    } else {
      FailedAttemptKeepsInv(env, s, id, p, s');
    }
  }

  lemma GraphAttempt(env: Env, s: Sys, id: nat, now: int, s': Sys) returns (status: TaskStatus)
    requires Inv(env, s) && Resumable(s.approvals, id) && s.approvals.rows[id].payload.work.GraphCall?
    requires s.approvals.rows[id].payload.work.checkpoint.Some?
    requires Claimable(s.checkpoints, s.approvals.rows[id].payload.work.checkpoint.value, id, now)
    requires s' == ResumeGraph(env, s, id, s.approvals.rows[id], now).0
    ensures Attempt(env, s, id, s') && status in {Completed, Failed}
    ensures id in s'.approvals.rows && s'.approvals.rows[id].payload.resumed
    ensures s'.approvals == WritePayload(s.approvals, id, s'.approvals.rows[id].payload)
    ensures s'.tasks == SetStatus(s.tasks, s.approvals.rows[id].task, status)
  {
    var a := s.approvals.rows[id];
    assert WorkOk(a, s.tasks, s.world.calls);
    status := s'.tasks.rows[a.task].status;
  }

  lemma ClaimedResumeKeepsInv(env: Env, s: Sys, id: nat, now: int, s': Sys)
    requires Inv(env, s) && Resumable(s.approvals, id) && s.approvals.rows[id].payload.work.GraphCall?
    requires s.approvals.rows[id].payload.work.checkpoint.Some?
    requires Claimable(s.checkpoints, s.approvals.rows[id].payload.work.checkpoint.value, id, now)
    requires s' == ResumeGraph(env, s, id, s.approvals.rows[id], now).0
    ensures Inv(env, s')
  {
    var status := GraphAttempt(env, s, id, now, s');
    SettledAttemptKeepsInv(env, s, id, s'.approvals.rows[id].payload, status, s');
  }

  lemma GraphResumeKeepsInv(env: Env, s: Sys, id: nat, now: int)
    requires Inv(env, s) && Resumable(s.approvals, id) && s.approvals.rows[id].payload.work.GraphCall?
    requires s.approvals.rows[id].payload.work.checkpoint.Some?
    ensures Inv(env, ResumeGraph(env, s, id, s.approvals.rows[id], now).0)
  {
    var s' := ResumeGraph(env, s, id, s.approvals.rows[id], now).0;
    if Claimable(s.checkpoints, s.approvals.rows[id].payload.work.checkpoint.value, id, now) {
      ClaimedResumeKeepsInv(env, s, id, now, s');
    } else {
      assert s' == s;
    }
  }

  /** What an attempt in plan mode does to the stores. `m` steps of the plan are done after it. */
  ghost predicate PlanEffect(s: Sys, id: nat, s': Sys, m: nat, p: Payload, next: Option<Work>, status: Option<TaskStatus>) {
    && Resumable(s.approvals, id) && s.approvals.rows[id].payload.work.PlanStep?
    && p.work == s.approvals.rows[id].payload.work
    && (next.Some? ==> && next.value.PlanStep? && next.value.snapshot.plan == p.work.snapshot.plan
                       && SnapshotAt(next.value.snapshot, next.value.snapshot.plan, m))
    && (next.Some? <==> status == Some(WaitingApproval))
    && (p.resumed ==> |p.work.snapshot.calls| <= m && status in {Some(Completed), Some(Failed), Some(WaitingApproval)})
    && (!p.resumed ==> |p.work.snapshot.calls| == m && status in {None, Some(Failed)})
    && Progressed(s'.world.calls, s.approvals.rows[id].task, p.work.snapshot.plan, m)
    && s'.approvals == WritePayload(if next.Some? then Insert(s.approvals, NewApproval(s.approvals.rows[id].task, next.value))
                                    else s.approvals, id, p)
    && s'.tasks == if status.Some? then SetStatus(s.tasks, s.approvals.rows[id].task, status.value) else s.tasks
  }

  lemma PlanEffectKeepsLive(s: Sys, id: nat, s': Sys, m: nat, p: Payload, next: Option<Work>, status: Option<TaskStatus>)
    requires LiveOk(s.approvals, s.tasks) && PlanEffect(s, id, s', m, p, next, status)
    ensures LiveOk(s'.approvals, s'.tasks)
  {
    if next.Some? {
      ChainingKeepsLive(s.approvals, s.tasks, id, p, next.value);
    } else if p.resumed {
      SettlingKeepsLive(s.approvals, s.tasks, id, p, status.value);
    } else {
      RetryKeepsLive(s.approvals, s.tasks, id, p);
      if status.Some? {
        FailureKeepsLive(WritePayload(s.approvals, id, p), s.tasks, id);
      }
    }
  }

  lemma PlanEffectKeepsTasks(s: Sys, id: nat, s': Sys, m: nat, p: Payload, next: Option<Work>,
                             status: Option<TaskStatus>)
    requires LiveOk(s.approvals, s.tasks) && PlansOk(s.approvals, s.tasks, s.world.calls) && PlanEffect(s, id, s', m, p, next, status)
    requires AddsFor(s.approvals.rows[id].task, s.world.calls, s'.world.calls)
    ensures PlanTasksOk(s'.tasks, s'.world.calls)
  {
    var t := s.approvals.rows[id].task;
    OthersKept(s.approvals, s.tasks, s.world.calls, s'.tasks, s'.world.calls, t);
    assert WorkOk(s.approvals.rows[id], s.tasks, s.world.calls);
    assert PlanTaskOk(t, s.tasks.rows[t], s.world.calls);
    assert |Successes(s'.world.calls, t)| == m;
  }

  lemma PlanEffectKeepsWorks(s: Sys, id: nat, s': Sys, m: nat, p: Payload, next: Option<Work>, status: Option<TaskStatus>)
    requires LiveOk(s.approvals, s.tasks) && PlansOk(s.approvals, s.tasks, s.world.calls)
    requires PlanEffect(s, id, s', m, p, next, status)
    requires AddsFor(s.approvals.rows[id].task, s.world.calls, s'.world.calls)
    ensures WorksOk(s'.approvals, s'.tasks, s'.world.calls)
  {
    forall a | a in s'.approvals.rows
      ensures s'.approvals.rows[a].task in s'.tasks.rows && WorkOk(s'.approvals.rows[a], s'.tasks, s'.world.calls)
    {
      PlanEffectKeepsWork(s, id, s', m, p, next, status, a);
    }
  }

  lemma PlanEffectKeepsWork(s: Sys, id: nat, s': Sys, m: nat, p: Payload, next: Option<Work>, status: Option<TaskStatus>, a: nat)
    requires LiveOk(s.approvals, s.tasks) && PlansOk(s.approvals, s.tasks, s.world.calls)
    requires PlanEffect(s, id, s', m, p, next, status) && a in s'.approvals.rows
    requires AddsFor(s.approvals.rows[id].task, s.world.calls, s'.world.calls)
    ensures s'.approvals.rows[a].task in s'.tasks.rows && WorkOk(s'.approvals.rows[a], s'.tasks, s'.world.calls)
  {
    if a !in s.approvals.rows {
      NextWorkOk(s, id, s', m, p, next, status);
    } else if s.approvals.rows[a].task == s.approvals.rows[id].task {
      SiblingKept(s, id, s', m, p, next, status, a);
    } else {
      StrangerKept(s, id, s', m, p, next, status, a);
    }
  }

  /** The stored approvals of other tasks stay correct. */
  lemma StrangerKept(s: Sys, id: nat, s': Sys, m: nat, p: Payload, next: Option<Work>, status: Option<TaskStatus>,
                     a: nat)
    requires LiveOk(s.approvals, s.tasks) && PlansOk(s.approvals, s.tasks, s.world.calls) && PlanEffect(s, id, s', m, p, next, status)
    requires AddsFor(s.approvals.rows[id].task, s.world.calls, s'.world.calls)
    requires a in s.approvals.rows && s.approvals.rows[a].task != s.approvals.rows[id].task
    ensures s.approvals.rows[a].task in s'.tasks.rows && a in s'.approvals.rows
    ensures s'.approvals.rows[a] == s.approvals.rows[a] && WorkOk(s'.approvals.rows[a], s'.tasks, s'.world.calls)
  {
    var row := s.approvals.rows[a];
    assert WorkOk(row, s.tasks, s.world.calls);
    SuccessesFrame(s.world.calls, s'.world.calls, row.task);
    assert s'.approvals.rows[a] == row && s'.tasks.rows[row.task].plan == s.tasks.rows[row.task].plan;
  }

  lemma NextWorkOk(s: Sys, id: nat, s': Sys, m: nat, p: Payload, next: Option<Work>, status: Option<TaskStatus>)
    requires LiveOk(s.approvals, s.tasks) && PlansOk(s.approvals, s.tasks, s.world.calls) && PlanEffect(s, id, s', m, p, next, status) && next.Some?
    ensures var t := s.approvals.rows[id].task;
            t in s'.tasks.rows && WorkOk(NewApproval(t, next.value), s'.tasks, s'.world.calls)
  {
    assert WorkOk(s.approvals.rows[id], s.tasks, s.world.calls);
    assert |Successes(s'.world.calls, s.approvals.rows[id].task)| == m;
  }

  /** The stored approvals of the attempt's own task stay correct. */
  lemma SiblingKept(s: Sys, id: nat, s': Sys, m: nat, p: Payload, next: Option<Work>, status: Option<TaskStatus>,
                    a: nat)
    requires LiveOk(s.approvals, s.tasks) && PlansOk(s.approvals, s.tasks, s.world.calls) && PlanEffect(s, id, s', m, p, next, status)
    requires a in s.approvals.rows && s.approvals.rows[a].task == s.approvals.rows[id].task
    ensures s.approvals.rows[a].task in s'.tasks.rows && a in s'.approvals.rows
    ensures WorkOk(s'.approvals.rows[a], s'.tasks, s'.world.calls)
  {
    var t := s.approvals.rows[id].task;
    assert WorkOk(s.approvals.rows[id], s.tasks, s.world.calls);
    assert WorkOk(s.approvals.rows[a], s.tasks, s.world.calls);
    assert |Successes(s'.world.calls, t)| == m;
    assert Live(s.approvals.rows[id]);
    if a != id {
      assert !Live(s.approvals.rows[a]);
      assert s'.approvals.rows[a] == s.approvals.rows[a];
    }
  }

  /** The store updates of `ResumePlan`, whatever the executor answered. */
  lemma PlanStores(env: Env, s: Sys, id: nat, s': Sys, st: Exec, v: Verdict)
    requires Resumable(s.approvals, id) && s.approvals.rows[id].payload.work.PlanStep? && id < s.approvals.next
    requires s' == ResumePlan(env, s, id, s.approvals.rows[id]).0
    requires st == Resume(env.tools, Cfg(env), s.approvals.rows[id].task, s.approvals.rows[id].payload.work.snapshot, s.world).0
    requires v == Resume(env.tools, Cfg(env), s.approvals.rows[id].task, s.approvals.rows[id].payload.work.snapshot, s.world).1
    ensures s'.world == st.world && id in s'.approvals.rows
    ensures var a := s.approvals.rows[id];
            var p := s'.approvals.rows[id].payload;
            var next := NextWork(v);
            var status := PlanResult(st, v, s.approvals.next).1;
            && p.work == a.payload.work && (p.resumed <==> v.Continued?)
            && s'.approvals == WritePayload(if next.Some? then Insert(s.approvals, NewApproval(a.task, next.value))
                                            else s.approvals, id, p)
            && s'.tasks == (if status.Some? then SetStatus(s.tasks, a.task, status.value) else s.tasks)
            && (next.Some? <==> status == Some(WaitingApproval))
            && (p.resumed ==> status in {Some(Completed), Some(Failed), Some(WaitingApproval)})
            && (!p.resumed ==> status in {None, Some(Failed)})
  {
  }

  lemma PlanCallsGranted(env: Env, s: Sys, id: nat, st: Exec)
    requires Inv(env, s) && Resumable(s.approvals, id) && s.approvals.rows[id].payload.work.PlanStep?
    requires st == Resume(env.tools, Cfg(env), s.approvals.rows[id].task, s.approvals.rows[id].payload.work.snapshot, s.world).0
    ensures AddsOnlyGranted(env.tools, s.approvals.rows[id], s.world.calls, st.world.calls)
  {
    var a := s.approvals.rows[id];
    assert WorkOk(a, s.tasks, s.world.calls);
    ResumeCallsOnlyApproved(env.tools, Cfg(env), a.task, a.payload.work.snapshot, s.world);
  }

  lemma PlanMoves(env: Env, s: Sys, id: nat, r: (Exec, Verdict)) returns (m: nat)
    requires Inv(env, s) && Resumable(s.approvals, id) && s.approvals.rows[id].payload.work.PlanStep?
    requires r == Resume(env.tools, Cfg(env), s.approvals.rows[id].task, s.approvals.rows[id].payload.work.snapshot, s.world)
    ensures var snap := s.approvals.rows[id].payload.work.snapshot;
            ReachedBy(s.approvals.rows[id].task, snap.plan, |snap.calls|, m, r)
  {
    var a := s.approvals.rows[id];
    var snap := a.payload.work.snapshot;
    assert WorkOk(a, s.tasks, s.world.calls) && PlanTaskOk(a.task, s.tasks.rows[a.task], s.world.calls);
    m := ResumeProgresses(env.tools, Cfg(env), a.task, snap.plan, |snap.calls|, snap, s.world);
  }

  lemma PlanAttempt(env: Env, s: Sys, id: nat, s': Sys) returns (m: nat, next: Option<Work>, status: Option<TaskStatus>)
    requires Inv(env, s) && Resumable(s.approvals, id) && s.approvals.rows[id].payload.work.PlanStep?
    requires s' == ResumePlan(env, s, id, s.approvals.rows[id]).0
    ensures id in s'.approvals.rows && PlanEffect(s, id, s', m, s'.approvals.rows[id].payload, next, status)
    ensures AddsOnlyGranted(env.tools, s.approvals.rows[id], s.world.calls, s'.world.calls)
  {
    var a := s.approvals.rows[id];
    var r := Resume(env.tools, Cfg(env), a.task, a.payload.work.snapshot, s.world);
    m := PlanMoves(env, s, id, r);
    PlanCallsGranted(env, s, id, r.0);
    PlanStores(env, s, id, s', r.0, r.1);
    next := NextWork(r.1);
    status := PlanResult(r.0, r.1, s.approvals.next).1;
  }

  lemma PlanEffectIsAttempt(env: Env, s: Sys, id: nat, s': Sys, m: nat, p: Payload, next: Option<Work>,
                            status: Option<TaskStatus>)
    requires KeysOk(s.approvals, s.tasks) && PlanEffect(s, id, s', m, p, next, status)
    requires AddsOnlyGranted(env.tools, s.approvals.rows[id], s.world.calls, s'.world.calls)
    ensures Attempt(env, s, id, s')
  {
  }

  lemma PlanResumeKeepsInv(env: Env, s: Sys, id: nat)
    requires Inv(env, s) && Resumable(s.approvals, id) && s.approvals.rows[id].payload.work.PlanStep?
    ensures Inv(env, ResumePlan(env, s, id, s.approvals.rows[id]).0)
  {
    var s' := ResumePlan(env, s, id, s.approvals.rows[id]).0;
    var m, next, status := PlanAttempt(env, s, id, s');
    var p := s'.approvals.rows[id].payload;
    PlanEffectIsAttempt(env, s, id, s', m, p, next, status);
    PlanEffectKeepsLive(s, id, s', m, p, next, status);
    PlanEffectKeepsTasks(s, id, s', m, p, next, status);
    PlanEffectKeepsWorks(s, id, s', m, p, next, status);
    AttemptKeepsGated(env, s, id, s');
  }
}
