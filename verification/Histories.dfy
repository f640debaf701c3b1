/** In every reachable state the approvals, the tasks and the gateway's log tell the same story. */
module Histories {
  import opened JsonValues
  import opened ToolGateways
  import opened MultiTool
  import opened PlanProgress
  import opened Stores
  import opened Machine
  import opened Safety
  import opened Reachability
  import opened Runs
  import opened Outcomes

  function ArgsOf(work: Work): Args {
    match work
    case KeywordCall(_, args) => args
    case GraphCall(_, args, _) => args
    case _ => []
  }

  /** The status of a task that asked for the single call `made` was made for, if it was. */
  function StatusOf(a: ApprovalStatus, made: seq<Record>): TaskStatus {
    match a
    case Pending => WaitingApproval
    case Rejected => Cancelled
    case Approved =>
      if made == [] then WaitingApproval else if made[|made| - 1].success then Completed else Failed
  }

  /** An approval of a single call, with the calls of its task. They are its attempts: none before it is
      approved, failures that it counts, and the one that consumed it. */
  ghost predicate CallTold(a: Approval, status: TaskStatus, made: seq<Record>) {
    var p := a.payload;
    && |made| == p.attempts + (if p.resumed then 1 else 0)
    && (a.status != Approved ==> made == []) && status == StatusOf(a.status, made)
    && (forall i | 0 <= i < |made| :: made[i].tool == a.tool && made[i].args == ArgsOf(p.work))
    && (forall i | 0 <= i < p.attempts :: !made[i].success)
    && (if p.resumed then p.result.Some? && Reports(p.result.value, made[p.attempts]) else p.result == None)
    && (if p.attempts > 0 then p.lastFailure.Some? && Reports(p.lastFailure.value, made[p.attempts - 1])
        else p.lastFailure == None)
    && (p.work.GraphCall? ==> p.attempts == 0)
    && (p.work.KeywordCall? && p.resumed ==> made[p.attempts].success)
  }

  /** An approval of a plan step, with the number of steps that the log shows done. */
  ghost predicate StepTold(at: ApprovalTable, a: Approval, status: TaskStatus, done: nat)
    requires a.payload.work.PlanStep?
  {
    var p := a.payload;
    match a.status
    case Pending => Unused(p) && status == WaitingApproval
    case Rejected => Unused(p) && status == Cancelled && !Awaited(at, a.task)
    case Approved =>
      if p.resumed then p.result.Some? && ResultTold(at, a, p.result.value, status, done)
      else
        && p.result == None && status in {WaitingApproval, Failed}
        && (if p.attempts == 0 then p.lastFailure == None && status == WaitingApproval
            else p.lastFailure.Some? && !p.lastFailure.value.success && (p.lastFailure.value.executed ==> status == Failed))
  }

  /** The result of a consumed step: the plan is finished, asks for a later step, or has failed. */
  ghost predicate ResultTold(at: ApprovalTable, a: Approval, r: ResumeResult, status: TaskStatus, done: nat)
    requires a.payload.work.PlanStep?
  {
    var snap := a.payload.work.snapshot;
    && r.executed
    && match r.status
       case ResumeCompleted => r.success && status == Completed && done == |snap.plan|
       case ResumeWaiting => !r.success && r.newApproval.Some? && Follows(at, a, r.newApproval.value)
       case DownstreamFailed => !r.success && status == Failed && done < |snap.plan| && !Awaited(at, a.task)
       case ResumeFailed => false
  }

  /** `b` asks for a later step of the plan of `a`. */
  ghost predicate Follows(at: ApprovalTable, a: Approval, b: nat)
    requires a.payload.work.PlanStep?
  {
    && b in at.rows && at.rows[b].task == a.task && at.rows[b].payload.work.PlanStep?
    && |a.payload.work.snapshot.calls| < |at.rows[b].payload.work.snapshot.calls|
  }

  ghost predicate RowTold(s: Sys, id: nat)
    requires id in s.approvals.rows && s.approvals.rows[id].task in s.tasks.rows
  {
    var a := s.approvals.rows[id];
    var status := s.tasks.rows[a.task].status;
    if a.payload.work.PlanStep? then StepTold(s.approvals, a, status, |Successes(s.world.calls, a.task)|)
    else CallTold(a, status, CallsOf(s.world.calls, a.task))
  }

  /** A task that asks for a single call asks once. */
  ghost predicate OneEach(at: ApprovalTable) {
    forall a, b | a in at.rows && b in at.rows && at.rows[a].task == at.rows[b].task && !at.rows[a].payload.work.PlanStep? ::
      a == b
  }

  ghost predicate Told(s: Sys) {
    && KeysOk(s.approvals, s.tasks) && OneEach(s.approvals)
    && forall id | id in s.approvals.rows :: RowTold(s, id)
  }

  // ---------- Frames ----------

  lemma {:induction false} CallsFrame(calls: seq<Call>, after: seq<Call>, task: nat)
    requires calls <= after && forall i | |calls| <= i < |after| :: after[i].owner.task != task
    ensures CallsOf(after, task) == CallsOf(calls, task)
    decreases |after|
  {
    if |after| > |calls| {
      CallsFrame(calls, after[..|after| - 1], task);
    } else {
      assert after == calls;
    }
  }

  lemma CallsStep(calls: seq<Call>, c: Call, task: nat)
    ensures CallsOf(calls + [c], task) == CallsOf(calls, task) + if c.owner.task == task then [c.record] else []
  {
    assert (calls + [c])[..|calls|] == calls;
  }

  /** Nothing changes but the approvals, the status and the calls of one task. */
  ghost predicate Moves(s: Sys, s': Sys, t: nat) {
    && (forall a | a in s'.approvals.rows && s'.approvals.rows[a].task != t :: a in s.approvals.rows)
    && (forall a | a in s.approvals.rows ::
          && a in s'.approvals.rows && s'.approvals.rows[a].task == s.approvals.rows[a].task
          && s'.approvals.rows[a].payload.work == s.approvals.rows[a].payload.work
          && (s.approvals.rows[a].task != t ==> s'.approvals.rows[a] == s.approvals.rows[a]))
    && (forall u | u in s.tasks.rows :: u in s'.tasks.rows && (u != t ==> s'.tasks.rows[u] == s.tasks.rows[u]))
    && AddsFor(t, s.world.calls, s'.world.calls)
  }

  lemma AwaitedStays(s: Sys, s': Sys, t: nat, u: nat)
    requires Moves(s, s', t) && u != t
    ensures Awaited(s'.approvals, u) <==> Awaited(s.approvals, u)
  {
  }

  lemma StrangerTold(s: Sys, s': Sys, t: nat, a: nat)
    requires Moves(s, s', t) && Told(s) && a in s.approvals.rows && s.approvals.rows[a].task != t
    ensures a in s'.approvals.rows && s'.approvals.rows[a].task in s'.tasks.rows && RowTold(s', a)
  {
    var task := s.approvals.rows[a].task;
    AwaitedStays(s, s', t, task);
    CallsFrame(s.world.calls, s'.world.calls, task);
    SuccessesFrame(s.world.calls, s'.world.calls, task);
    assert RowTold(s, a);
  }

  /** Another approval of a task that has a live one is a consumed step that asked for a later one. */
  lemma SiblingWaits(env: Env, s: Sys, id: nat, b: nat)
    requires Inv(env, s) && Told(s) && id in s.approvals.rows && Live(s.approvals.rows[id])
    requires b in s.approvals.rows && b != id && s.approvals.rows[b].task == s.approvals.rows[id].task
    ensures var p := s.approvals.rows[b].payload;
            && s.approvals.rows[b].status == Approved && p.work.PlanStep? && p.resumed && p.result.Some?
            && p.result.value.executed && p.result.value.status == ResumeWaiting
            && !p.result.value.success && p.result.value.newApproval.Some?
            && Follows(s.approvals, s.approvals.rows[b], p.result.value.newApproval.value)
  {
    assert Awaited(s.approvals, s.approvals.rows[b].task);
    assert RowTold(s, b);
    assert !Live(s.approvals.rows[b]);
  }

  lemma SiblingTold(env: Env, s: Sys, s': Sys, id: nat, b: nat)
    requires Inv(env, s) && Told(s) && id in s.approvals.rows && Live(s.approvals.rows[id])
    requires b in s.approvals.rows && b != id && s.approvals.rows[b].task == s.approvals.rows[id].task
    requires Moves(s, s', s.approvals.rows[id].task) && s'.approvals.rows[b] == s.approvals.rows[b]
    ensures s'.approvals.rows[b].task in s'.tasks.rows && RowTold(s', b)
  {
    SiblingWaits(env, s, id, b);
    var n := s.approvals.rows[b].payload.result.value.newApproval.value;
    assert Follows(s'.approvals, s'.approvals.rows[b], n);
  }

  lemma RowToldAgain(env: Env, s: Sys, s': Sys, id: nat, a: nat)
    requires Inv(env, s) && Told(s) && id in s.approvals.rows && Live(s.approvals.rows[id])
    requires Moves(s, s', s.approvals.rows[id].task)
    requires a in s.approvals.rows && a != id && s'.approvals.rows[a] == s.approvals.rows[a]
    ensures s'.approvals.rows[a].task in s'.tasks.rows && RowTold(s', a)
  {
    if s.approvals.rows[a].task == s.approvals.rows[id].task {
      SiblingTold(env, s, s', id, a);
    } else {
      StrangerTold(s, s', s.approvals.rows[id].task, a);
    }
  }

  lemma OneEachAgain(at: ApprovalTable, after: ApprovalTable, id: nat)
    requires OneEach(at) && id in at.rows && Carries(at, after)
    requires forall a | a in after.rows && a !in at.rows ::
               at.rows[id].payload.work.PlanStep? && after.rows[a].payload.work.PlanStep? && after.rows[a].task == at.rows[id].task
    ensures OneEach(after)
  {
  }

  /** An operation on the live approval `id`: only its own row and a new one are left to look at. */
  lemma ToldAgain(env: Env, s: Sys, s': Sys, id: nat)
    requires Inv(env, s) && Told(s) && id in s.approvals.rows && Live(s.approvals.rows[id])
    requires Moves(s, s', s.approvals.rows[id].task) && KeysOk(s'.approvals, s'.tasks) && OneEach(s'.approvals)
    requires forall a | a in s.approvals.rows && a != id :: s'.approvals.rows[a] == s.approvals.rows[a]
    requires RowTold(s', id) && forall a | a in s'.approvals.rows && a !in s.approvals.rows :: RowTold(s', a)
    ensures Told(s')
  {
    forall a | a in s'.approvals.rows ensures RowTold(s', a) {
      if a in s.approvals.rows && a != id {
        RowToldAgain(env, s, s', id, a);
      }
    }
  }

  /** Only the row of `id`, its task's status and its task's calls change. */
  ghost predicate Updates(s: Sys, s': Sys, id: nat, a: Approval, status: TaskStatus) {
    && id in s.approvals.rows && a.task == s.approvals.rows[id].task && a.payload.work == s.approvals.rows[id].payload.work
    && s'.approvals == s.approvals.(rows := s.approvals.rows[id := a])
    && s'.tasks == SetStatus(s.tasks, a.task, status)
    && AddsFor(a.task, s.world.calls, s'.world.calls)
  }

  lemma UpdateMoves(s: Sys, s': Sys, id: nat, a: Approval, status: TaskStatus)
    requires KeysOk(s.approvals, s.tasks) && OneEach(s.approvals) && Updates(s, s', id, a, status)
    ensures Moves(s, s', a.task) && KeysOk(s'.approvals, s'.tasks) && OneEach(s'.approvals)
    ensures s'.approvals.rows[id] == a && s'.tasks.rows[a.task].status == status
    ensures s'.approvals.rows.Keys == s.approvals.rows.Keys
    ensures forall b | b in s.approvals.rows && b != id :: s'.approvals.rows[b] == s.approvals.rows[b]
  {
  }

  lemma UpdateTold(env: Env, s: Sys, s': Sys, id: nat, a: Approval, status: TaskStatus)
    requires Inv(env, s) && Told(s) && Updates(s, s', id, a, status) && Live(s.approvals.rows[id])
    requires a.payload.work.PlanStep? ==> StepTold(s'.approvals, a, status, |Successes(s'.world.calls, a.task)|)
    requires !a.payload.work.PlanStep? ==> CallTold(a, status, CallsOf(s'.world.calls, a.task))
    ensures Told(s')
  {
    UpdateMoves(s, s', id, a, status);
    assert RowTold(s', id);
    ToldAgain(env, s, s', id);
  }

  // ---------- Decisions ----------

  lemma SameStatus(tt: TaskTable, task: nat)
    requires task in tt.rows
    ensures SetStatus(tt, task, tt.rows[task].status) == tt
  {
    assert SetStatus(tt, task, tt.rows[task].status).rows == tt.rows;
  }

  lemma ApprovedUpdates(s: Sys, id: nat, s': Sys)
    requires KeysOk(s.approvals, s.tasks) && id in s.approvals.rows && s.approvals.rows[id].status == Pending
    requires s.tasks.rows[s.approvals.rows[id].task].status == WaitingApproval
    requires s' == s.(approvals := DecidePending(s.approvals, id, Approved))
    ensures Updates(s, s', id, s.approvals.rows[id].(status := Approved), WaitingApproval)
  {
    SameStatus(s.tasks, s.approvals.rows[id].task);
  }

  lemma ApprovedTold(env: Env, s: Sys, id: nat, s': Sys)
    requires Inv(env, s) && Told(s) && s' == s.(approvals := DecidePending(s.approvals, id, Approved))
    ensures Told(s')
  {
    if id in s.approvals.rows && s.approvals.rows[id].status == Pending {
      assert RowTold(s, id);
      ApprovedUpdates(s, id, s');
      UpdateTold(env, s, s', id, s.approvals.rows[id].(status := Approved), WaitingApproval);
    }
  }

  lemma RejectedIsNotAwaited(at: ApprovalTable, id: nat)
    requires AtMostOneLive(at) && id in at.rows && Live(at.rows[id])
    ensures !Awaited(at.(rows := at.rows[id := at.rows[id].(status := Rejected)]), at.rows[id].task)
  {
  }

  lemma RejectedUpdates(s: Sys, id: nat, s': Sys)
    requires id in s.approvals.rows && s.approvals.rows[id].status == Pending && s' == Reject(s, id)
    ensures Updates(s, s', id, s.approvals.rows[id].(status := Rejected), Cancelled)
  {
  }

  lemma RejectedTold(env: Env, s: Sys, id: nat, s': Sys)
    requires Inv(env, s) && Told(s) && s' == Reject(s, id)
    ensures Told(s')
  {
    if id in s.approvals.rows && s.approvals.rows[id].status == Pending {
      assert RowTold(s, id);
      RejectedUpdates(s, id, s');
      RejectedIsNotAwaited(s.approvals, id);
      UpdateTold(env, s, s', id, s.approvals.rows[id].(status := Rejected), Cancelled);
    }
  }

  // ---------- Attempts ----------

  /** One more call of a task. */
  lemma OneMore(s: Sys, id: nat, s': Sys, c: Record)
    requires id in s.approvals.rows && s'.world.calls == s.world.calls + [Logged(Owner(s.approvals.rows[id].task, ""), c)]
    ensures var t := s.approvals.rows[id].task;
            CallsOf(s'.world.calls, t) == CallsOf(s.world.calls, t) + [c] && AddsFor(t, s.world.calls, s'.world.calls)
  {
    CallsStep(s.world.calls, Logged(Owner(s.approvals.rows[id].task, ""), c), s.approvals.rows[id].task);
  }

  /** An approved call that was made once more, with what the attempt recorded. */
  lemma CallMade(a: Approval, status: TaskStatus, made: seq<Record>, c: Record, p: Payload)
    requires CallTold(a, status, made) && a.status == Approved && !a.payload.resumed
    requires c.tool == a.tool && c.args == ArgsOf(a.payload.work) && p.work == a.payload.work
    requires if p.resumed
             then p.result.Some? && Reports(p.result.value, c) && p.attempts == a.payload.attempts && p.lastFailure == a.payload.lastFailure
             else p.lastFailure.Some? && Reports(p.lastFailure.value, c) && p.attempts == a.payload.attempts + 1 && p.result == a.payload.result
    requires (!p.resumed ==> !c.success && p.work.KeywordCall?) && (p.work.KeywordCall? && p.resumed ==> c.success)
    ensures CallTold(a.(payload := p), if c.success then Completed else Failed, made + [c])
  {
  }

  lemma KeywordTold(env: Env, s: Sys, id: nat, s': Sys)
    requires Inv(env, s) && Told(s) && Resumable(s.approvals, id) && s.approvals.rows[id].payload.work.KeywordCall?
    requires s' == ResumeKeyword(env, s, id, s.approvals.rows[id]).0
    ensures Told(s')
  {
    var a, c := s.approvals.rows[id], Last(s'.world);
    KeywordResumed(env, s, id, s');
    OneMore(s, id, s', c);
    assert RowTold(s, id) && WorkOk(a, s.tasks, s.world.calls);
    var p := s'.approvals.rows[id].payload;
    CallMade(a, s.tasks.rows[a.task].status, CallsOf(s.world.calls, a.task), c, p);
    UpdateTold(env, s, s', id, a.(payload := p), if c.success then Completed else Failed);
  }

  lemma GraphTold(env: Env, s: Sys, id: nat, now: int, s': Sys)
    requires Inv(env, s) && Told(s) && Resumable(s.approvals, id) && s.approvals.rows[id].payload.work.GraphCall?
    requires s.approvals.rows[id].payload.work.checkpoint.Some?
    requires s' == ResumeGraph(env, s, id, s.approvals.rows[id], now).0
    ensures Told(s')
  {
    if s' != s {
      var a, c := s.approvals.rows[id], Last(s'.world);
      GraphResumed(env, s, id, now, s');
      OneMore(s, id, s', c);
      assert RowTold(s, id) && WorkOk(a, s.tasks, s.world.calls);
      var p := s'.approvals.rows[id].payload;
      CallMade(a, s.tasks.rows[a.task].status, CallsOf(s.world.calls, a.task), c, p);
      UpdateTold(env, s, s', id, a.(payload := p), if c.success then Completed else Failed);
    }
  }

  /** What an attempt in plan mode leaves in the log. */
  lemma PlanReaches(env: Env, s: Sys, id: nat, r: (Exec, Verdict)) returns (m: nat)
    requires Inv(env, s) && Resumable(s.approvals, id) && s.approvals.rows[id].payload.work.PlanStep?
    requires r == Resume(env.tools, Cfg(env), s.approvals.rows[id].task, s.approvals.rows[id].payload.work.snapshot, s.world)
    ensures var a := s.approvals.rows[id];
            var snap := a.payload.work.snapshot;
            && AddsFor(a.task, s.world.calls, r.0.world.calls) && |Successes(r.0.world.calls, a.task)| == m
            && (r.1.Continued? ==>
                  && |snap.calls| < m && (r.1.stop.Finished? <==> m == |snap.plan|) && m <= |snap.plan|
                  && (r.1.stop.Stopped? && r.1.stop.why.NeedsApproval? ==> |r.1.stop.why.snapshot.calls| == m))
  {
    var a := s.approvals.rows[id];
    m := PlanMoves(env, s, id, r);
    ResumeCallsOnlyApproved(env.tools, Cfg(env), a.task, a.payload.work.snapshot, s.world);
  }

  lemma FailedStepTold(env: Env, s: Sys, id: nat, s': Sys, st: Exec, v: Verdict)
    requires Inv(env, s) && Told(s) && Resumable(s.approvals, id) && s.approvals.rows[id].payload.work.PlanStep?
    requires (st, v) == Resume(env.tools, Cfg(env), s.approvals.rows[id].task, s.approvals.rows[id].payload.work.snapshot, s.world)
    requires s' == ResumePlan(env, s, id, s.approvals.rows[id]).0 && !v.Continued?
    ensures Told(s')
  {
    var a := s.approvals.rows[id];
    PlanResumed(env, s, id, s', st, v);
    var m := PlanReaches(env, s, id, (st, v));
    assert RowTold(s, id);
    var status := if v.ArgsUnresolved? then s.tasks.rows[a.task].status else Failed;
    SameStatus(s.tasks, a.task);
    UpdateTold(env, s, s', id, a.(payload := s'.approvals.rows[id].payload), status);
  }

  lemma LastStepTold(env: Env, s: Sys, id: nat, s': Sys, st: Exec, v: Verdict)
    requires Inv(env, s) && Told(s) && Resumable(s.approvals, id) && s.approvals.rows[id].payload.work.PlanStep?
    requires (st, v) == Resume(env.tools, Cfg(env), s.approvals.rows[id].task, s.approvals.rows[id].payload.work.snapshot, s.world)
    requires s' == ResumePlan(env, s, id, s.approvals.rows[id]).0
    requires v.Continued? && (v.stop.Stopped? ==> !v.stop.why.NeedsApproval?)
    ensures Told(s')
  {
    var a := s.approvals.rows[id];
    PlanResumed(env, s, id, s', st, v);
    var m := PlanReaches(env, s, id, (st, v));
    var p := s'.approvals.rows[id].payload;
    NothingElseAwaited(s.approvals, id, p);
    assert s'.approvals == WritePayload(s.approvals, id, p);
    UpdateTold(env, s, s', id, a.(payload := p), if v.stop.Finished? then Completed else Failed);
  }

  /** A consumed step and the approval of the next one. */
  ghost predicate Chains(s: Sys, s': Sys, id: nat, p: Payload, b: Approval) {
    && id in s.approvals.rows && p.work == s.approvals.rows[id].payload.work
    && b.task == s.approvals.rows[id].task && b.payload.work.PlanStep? && s.approvals.next !in s.approvals.rows
    && s'.approvals.rows == s.approvals.rows[id := s.approvals.rows[id].(payload := p)][s.approvals.next := b]
    && s'.tasks == SetStatus(s.tasks, b.task, WaitingApproval)
    && AddsFor(b.task, s.world.calls, s'.world.calls)
  }

  lemma ChainMoves(s: Sys, s': Sys, id: nat, p: Payload, b: Approval)
    requires KeysOk(s.approvals, s.tasks) && OneEach(s.approvals) && p.work.PlanStep? && Chains(s, s', id, p, b)
    ensures Moves(s, s', b.task) && OneEach(s'.approvals)
    ensures s'.approvals.rows[id] == s.approvals.rows[id].(payload := p) && s'.tasks.rows[b.task].status == WaitingApproval
    ensures s'.approvals.rows[s.approvals.next] == b
    ensures forall a | a in s.approvals.rows && a != id :: s'.approvals.rows[a] == s.approvals.rows[a]
    ensures forall a | a in s'.approvals.rows && a !in s.approvals.rows :: a == s.approvals.next
  {
  }

  /** A consumed step that asked for a later one. */
  lemma AskedAgain(at: ApprovalTable, a: Approval, status: TaskStatus, done: nat, b: nat)
    requires a.payload.work.PlanStep? && a.status == Approved && a.payload.resumed && a.payload.result.Some?
    requires var r := a.payload.result.value; r.executed && !r.success && r.status == ResumeWaiting && r.newApproval == Some(b)
    requires Follows(at, a, b)
    ensures StepTold(at, a, status, done)
  {
  }

  lemma ChainTold(env: Env, s: Sys, s': Sys, id: nat, p: Payload, b: Approval)
    requires Inv(env, s) && Told(s) && Resumable(s.approvals, id) && s.approvals.rows[id].payload.work.PlanStep?
    requires Chains(s, s', id, p, b) && KeysOk(s'.approvals, s'.tasks) && b.status == Pending && Unused(b.payload)
    requires |p.work.snapshot.calls| < |b.payload.work.snapshot.calls| && p.resumed && p.result.Some?
    requires var r := p.result.value;
             r.executed && !r.success && r.status == ResumeWaiting && r.newApproval == Some(s.approvals.next)
    ensures Told(s')
  {
    ChainMoves(s, s', id, p, b);
    AskedAgain(s'.approvals, s'.approvals.rows[id], WaitingApproval, |Successes(s'.world.calls, b.task)|, s.approvals.next);
    assert RowTold(s', id);
    assert RowTold(s', s.approvals.next);
    ToldAgain(env, s, s', id);
  }

  lemma ChainedTold(env: Env, s: Sys, id: nat, s': Sys, st: Exec, v: Verdict)
    requires Inv(env, s) && Told(s) && Resumable(s.approvals, id) && s.approvals.rows[id].payload.work.PlanStep?
    requires (st, v) == Resume(env.tools, Cfg(env), s.approvals.rows[id].task, s.approvals.rows[id].payload.work.snapshot, s.world)
    requires s' == ResumePlan(env, s, id, s.approvals.rows[id]).0 && KeysOk(s'.approvals, s'.tasks)
    requires v.Continued? && v.stop.Stopped? && v.stop.why.NeedsApproval?
    ensures Told(s')
  {
    PlanResumed(env, s, id, s', st, v);
    var m := PlanReaches(env, s, id, (st, v));
    ChainTold(env, s, s', id, s'.approvals.rows[id].payload, s'.approvals.rows[s.approvals.next]);
  }

  lemma PlanTold(env: Env, s: Sys, id: nat, s': Sys)
    requires Inv(env, s) && Told(s) && Resumable(s.approvals, id) && s.approvals.rows[id].payload.work.PlanStep?
    requires s' == ResumePlan(env, s, id, s.approvals.rows[id]).0
    ensures Told(s')
  {
    var a := s.approvals.rows[id];
    var (st, v) := Resume(env.tools, Cfg(env), a.task, a.payload.work.snapshot, s.world);
    if !v.Continued? {
      FailedStepTold(env, s, id, s', st, v);
    } else if v.stop.Stopped? && v.stop.why.NeedsApproval? {
      PlanResumeKeepsInv(env, s, id);
      ChainedTold(env, s, id, s', st, v);
    } else {
      LastStepTold(env, s, id, s', st, v);
    }
  }

  // ---------- Submissions ----------

  /** A new task, and its first approval if it waits. */
  ghost predicate Submits(s: Sys, s': Sys) {
    var t := s.tasks.next;
    && AddsFor(t, s.world.calls, s'.world.calls)
    && s'.tasks.rows.Keys == s.tasks.rows.Keys + {t} && (forall u | u in s.tasks.rows :: s'.tasks.rows[u] == s.tasks.rows[u])
    && (forall a | a in s.approvals.rows :: a in s'.approvals.rows && s'.approvals.rows[a] == s.approvals.rows[a])
    && (s'.approvals != s.approvals ==>
          && s.approvals.next in s'.approvals.rows
          && var work := s'.approvals.rows[s.approvals.next].payload.work;
             && s.approvals.next !in s.approvals.rows && AsksFor(s, s', work) && !work.OtherMode?
             && (work.PlanStep? || s'.world == s.world))
  }

  lemma FirstRowTold(s: Sys, s': Sys)
    requires Told(s) && PlanTasksOk(s.tasks, s.world.calls) && Submits(s, s') && s'.approvals != s.approvals
    ensures RowTold(s', s.approvals.next)
  {
    CallsFrame([], s.world.calls, s.tasks.next);
  }

  lemma SubmittedTold(env: Env, s: Sys, s': Sys)
    requires Inv(env, s) && Told(s) && Submits(s, s') && KeysOk(s'.approvals, s'.tasks)
    ensures Told(s')
  {
    var t := s.tasks.next;
    assert Moves(s, s', t);
    if s'.approvals != s.approvals {
      FirstRowTold(s, s');
    }
    forall a | a in s.approvals.rows ensures RowTold(s', a) {
      StrangerTold(s, s', t, a);
    }
  }

  lemma KeywordSubmits(env: Env, s: Sys, planned: Option<(string, Args)>, s': Sys)
    requires KeysOk(s.approvals, s.tasks) && s' == SubmitKeyword(env, s, planned)
    ensures Submits(s, s')
  {
    if planned.Some? {
      KeywordSubmitted(env, s, planned.value.0, planned.value.1, s');
    }
  }

  lemma GraphSubmits(env: Env, s: Sys, tool: Option<string>, s': Sys)
    requires KeysOk(s.approvals, s.tasks) && s' == SubmitGraph(env, s, tool)
    ensures Submits(s, s')
  {
    if tool.Some? {
      GraphSubmitted(env, s, tool.value, s');
    }
  }

  lemma PlanSubmits(env: Env, s: Sys, plan: Plan, s': Sys)
    requires KeysOk(s.approvals, s.tasks) && s' == SubmitPlan(env, s, plan)
    ensures Submits(s, s')
  {
    var run := Run(env.tools, Cfg(env), s.tasks.next, plan, s.world);
    PlanSubmitted(env, s, plan, s', run);
    RunCallsNoHighRisk(env.tools, Cfg(env), FirstRun, s.tasks.next, plan, 0, Exec(s.world, {}, map[], []), run);
  }

  lemma SubmissionTold(env: Env, s: Sys, req: Request, s': Sys)
    requires Inv(env, s) && Told(s) && s' == Handle(env, s, req) && KeysOk(s'.approvals, s'.tasks)
    requires req.PostKeyword? || req.PostPlan? || req.PostGraph?
    ensures Told(s')
  {
    match req
    case PostKeyword(planned) => KeywordSubmits(env, s, planned, s'); SubmittedTold(env, s, s');
    case PostGraph(tool) => GraphSubmits(env, s, tool, s'); SubmittedTold(env, s, s');
    case PostPlan(plan) => PlanSubmits(env, s, plan, s'); SubmittedTold(env, s, s');
    case _ =>
  }

  // ---------- Whole runs ----------

  /** What the service does with an approval that it resumes. */
  lemma ResumeIs(env: Env, s: Sys, id: nat, now: int, s': Sys)
    requires s' == ServiceResume(env, s, id, now).0 && s' != s
    ensures Resumable(s.approvals, id)
    ensures var work := s.approvals.rows[id].payload.work;
            && (work.KeywordCall? ==> s' == ResumeKeyword(env, s, id, s.approvals.rows[id]).0)
            && (work.PlanStep? ==> s' == ResumePlan(env, s, id, s.approvals.rows[id]).0)
            && (work.GraphCall? ==> work.checkpoint.Some? && s' == ResumeGraph(env, s, id, s.approvals.rows[id], now).0)
  {
  }

  lemma ResumeTold(env: Env, s: Sys, id: nat, now: int, s': Sys)
    requires Inv(env, s) && Told(s) && s' == ServiceResume(env, s, id, now).0
    ensures Told(s')
  {
    if s' != s {
      ResumeIs(env, s, id, now, s');
      assert WorkOk(s.approvals.rows[id], s.tasks, s.world.calls);
      match s.approvals.rows[id].payload.work
      case KeywordCall(_, _) => KeywordTold(env, s, id, s');
      case PlanStep(_) => PlanTold(env, s, id, s');
      case GraphCall(_, _, _) => GraphTold(env, s, id, now, s');
      case OtherMode(_) =>
    }
  }

  lemma ApproveTold(env: Env, s: Sys, id: nat, autoResume: bool, now: int, s': Sys)
    requires Inv(env, s) && Told(s) && s' == Approve(env, s, id, autoResume, now)
    ensures Told(s')
  {
    var s1 := s.(approvals := DecidePending(s.approvals, id, Approved));
    ApprovedTold(env, s, id, s1);
    if s' != s && s' != s1 {
      ApprovalKeepsInv(env, s, id);
      ResumeTold(env, s1, id, now, s');
    }
  }

  lemma ManualTold(env: Env, s: Sys, id: nat, now: int, s': Sys)
    requires Inv(env, s) && Told(s) && s' == HandleResume(env, s, id, now).0
    ensures Told(s')
  {
    if s' != s {
      ResumeTold(env, s, id, now, s');
    }
  }

  lemma ExpiryTold(s: Sys, now: int, s': Sys)
    requires Told(s) && s' == s.(checkpoints := ExpireOld(s.checkpoints, now))
    ensures Told(s')
  {
    forall id | id in s'.approvals.rows ensures RowTold(s', id) {
      assert RowTold(s, id);
    }
  }

  lemma HandleTold(env: Env, s: Sys, req: Request, s': Sys)
    requires Inv(env, s) && Told(s) && s' == Handle(env, s, req) && KeysOk(s'.approvals, s'.tasks)
    ensures Told(s')
  {
    match req
    case PostApprove(id, autoResume, now) => ApproveTold(env, s, id, autoResume, now, s');
    case PostReject(id) => RejectedTold(env, s, id, s');
    case PostResume(id, now) => ManualTold(env, s, id, now, s');
    case ExpireCheckpoints(now) => ExpiryTold(s, now, s');
    case _ => SubmissionTold(env, s, req, s');
  }

  /** In every reachable state each approval, with its task's status and calls, tells one of these
      stories. */
  lemma {:induction false} EveryRunIsTold(env: Env, world: World, reqs: seq<Request>)
    requires world.calls == [] && PlansDistinct(reqs)
    ensures Told(Serve(env, Empty(world), reqs))
  {
    if reqs != [] {
      var before := reqs[..|reqs| - 1];
      EveryRunIsTold(env, world, before);
      EveryRunIsSafe(env, world, before);
      EveryRunIsSafe(env, world, reqs);
      HandleTold(env, Serve(env, Empty(world), before), reqs[|reqs| - 1], Serve(env, Empty(world), reqs));
    }
  }
}
