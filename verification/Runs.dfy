/** Whole runs: the invariant in every reachable state, and what it means for tasks and approvals. */
module Runs {
  import opened JsonValues
  import opened ToolGateways
  import opened MultiTool
  import opened PlanProgress
  import opened Stores
  import opened Machine
  import opened Safety
  import opened Reachability

  lemma ServiceResumeKeepsInv(env: Env, s: Sys, id: nat, now: int)
    requires Inv(env, s)
    ensures Inv(env, ServiceResume(env, s, id, now).0)
  {
    if Resumable(s.approvals, id) {
      var work := s.approvals.rows[id].payload.work;
      assert !work.OtherMode? by {
        assert WorkOk(s.approvals.rows[id], s.tasks, s.world.calls);
      }
      if work.KeywordCall? {
        KeywordResumeKeepsInv(env, s, id);
      } else if work.PlanStep? {
        PlanResumeKeepsInv(env, s, id);
      } else if work.checkpoint.Some? {
        GraphResumeKeepsInv(env, s, id, now);
      }
    }
  }

  lemma ApproveKeepsInv(env: Env, s: Sys, id: nat, autoResume: bool, now: int)
    requires Inv(env, s)
    ensures Inv(env, Approve(env, s, id, autoResume, now))
  {
    var s1 := s.(approvals := DecidePending(s.approvals, id, Approved));
    var s2 := Approve(env, s, id, autoResume, now);
    ApprovalKeepsInv(env, s, id);
    if s2 != s && s2 != s1 {
      ServiceResumeKeepsInv(env, s1, id, now);
    }
  }

  lemma HandleKeepsInv(env: Env, s: Sys, req: Request)
    requires Inv(env, s) && (req.PostPlan? ==> DistinctIds(req.plan))
    ensures Inv(env, Handle(env, s, req))
  {
    match req
    case PostKeyword(planned) => KeywordKeepsInv(env, s, planned);
    case PostPlan(plan) => PlanKeepsInv(env, s, plan);
    case PostGraph(tool) => GraphKeepsInv(env, s, tool);
    case PostApprove(id, autoResume, now) => ApproveKeepsInv(env, s, id, autoResume, now);
    case PostReject(id) => RejectKeepsInv(env, s, id);
    case PostResume(id, now) => ServiceResumeKeepsInv(env, s, id, now);
    case ExpireCheckpoints(now) =>
  }

  ghost predicate PlansDistinct(reqs: seq<Request>) {
    forall i | 0 <= i < |reqs| && reqs[i].PostPlan? :: DistinctIds(reqs[i].plan)
  }

  /** Whatever is submitted, decided, resumed and expired, in whatever order. */
  lemma {:induction false} EveryRunIsSafe(env: Env, world: World, reqs: seq<Request>)
    requires world.calls == [] && PlansDistinct(reqs)
    ensures Inv(env, Serve(env, Empty(world), reqs))
  {
    if reqs != [] {
      EveryRunIsSafe(env, world, reqs[..|reqs| - 1]);
      HandleKeepsInv(env, Serve(env, Empty(world), reqs[..|reqs| - 1]), reqs[|reqs| - 1]);
    }
  }

  // ---------- Live approvals ----------

  function LiveApprovals(at: ApprovalTable, task: nat): set<nat> {
    set a | a in at.rows && at.rows[a].task == task && Live(at.rows[a])
  }

  /** In every reachable state a task has at most one live approval; a waiting task has exactly one,
      and a completed or cancelled one has none. */
  lemma OneLiveApproval(env: Env, world: World, reqs: seq<Request>, task: nat)
    requires world.calls == [] && PlansDistinct(reqs)
    ensures var s := Serve(env, Empty(world), reqs);
            var live := LiveApprovals(s.approvals, task);
            && |live| <= 1
            && (task in s.tasks.rows ==>
                  && (s.tasks.rows[task].status == WaitingApproval ==> |live| == 1)
                  && (s.tasks.rows[task].status in {Completed, Cancelled} ==> live == {}))
  {
    EveryRunIsSafe(env, world, reqs);
    var s := Serve(env, Empty(world), reqs);
    LiveCount(s.approvals, s.tasks, task);
  }

  lemma LiveCount(at: ApprovalTable, tt: TaskTable, task: nat)
    requires LiveOk(at, tt)
    ensures |LiveApprovals(at, task)| <= 1
    ensures task in tt.rows && tt.rows[task].status == WaitingApproval ==> |LiveApprovals(at, task)| == 1
    ensures task in tt.rows && tt.rows[task].status in {Completed, Cancelled} ==> LiveApprovals(at, task) == {}
  {
    var live := LiveApprovals(at, task);
    if a :| a in live {
      assert live == {a};
    } else {
      assert live == {};
      forall a | a in at.rows && at.rows[a].task == task ensures !Live(at.rows[a]) {
        assert a !in live;
      }
      assert !Awaited(at, task);
    }
  }

  // ---------- What one operation may change ----------

  /** A task's status after one operation: submissions leave stored tasks alone, a rejection cancels
      the task of a pending approval, and a resume moves the task of the approval it resumed. */
  ghost predicate Moved(s: Sys, req: Request, s': Sys, task: nat)
    requires task in s.tasks.rows
  {
    && task in s'.tasks.rows
    && (s'.tasks.rows[task].status != s.tasks.rows[task].status ==>
          || (req.PostReject? && req.id in s.approvals.rows && s.approvals.rows[req.id].task == task
              && s.approvals.rows[req.id].status == Pending && s'.tasks.rows[task].status == Cancelled)
          || (exists id {:trigger Resumed(s, req, id)} :: Resumed(s, req, id) && s.approvals.rows[id].task == task))
  }

  /** The request resumes the live approval `id`, approving it first if it is pending. */
  predicate Resumed(s: Sys, req: Request, id: nat) {
    && id in s.approvals.rows && Live(s.approvals.rows[id])
    && match req
       case PostApprove(i, autoResume, _) => i == id && autoResume
       case PostResume(i, _) => i == id && s.approvals.rows[id].status == Approved
       case _ => false
  }

  lemma ServiceResumeMoves(env: Env, s: Sys, id: nat, now: int)
    requires KeysOk(s.approvals, s.tasks)
    ensures var s' := ServiceResume(env, s, id, now).0;
            && s.tasks.rows.Keys <= s'.tasks.rows.Keys
            && (forall t | t in s.tasks.rows && s'.tasks.rows[t] != s.tasks.rows[t] ::
                  Resumable(s.approvals, id) && s.approvals.rows[id].task == t)
  {
  }

  lemma HandleMoves(env: Env, s: Sys, req: Request, task: nat)
    requires KeysOk(s.approvals, s.tasks) && task in s.tasks.rows
    ensures Moved(s, req, Handle(env, s, req), task)
  {
    match req
    case PostApprove(id, autoResume, now) =>
      ServiceResumeMoves(env, s.(approvals := DecidePending(s.approvals, id, Approved)), id, now);
      assert Resumed(s, req, id) || !autoResume || !Resumable(DecidePending(s.approvals, id, Approved), id);
    case PostResume(id, now) =>
      ServiceResumeMoves(env, s, id, now);
      assert Resumed(s, req, id) || !Resumable(s.approvals, id);
    case _ =>
  }

  /** `completed` and `cancelled` are final in every reachable state, and `failed` is left only by
      resuming a live approval of the task. */
  lemma FinalStatuses(env: Env, s: Sys, req: Request, task: nat)
    requires Inv(env, s) && task in s.tasks.rows
    ensures var s' := Handle(env, s, req);
            && task in s'.tasks.rows
            && (s.tasks.rows[task].status in {Completed, Cancelled} ==> s'.tasks.rows[task].status == s.tasks.rows[task].status)
            && (s.tasks.rows[task].status == Failed && s'.tasks.rows[task].status != Failed ==>
                  exists id :: Resumed(s, req, id) && s.approvals.rows[id].task == task)
  {
    HandleMoves(env, s, req, task);
  }

  /** A task that once completed or was cancelled stays so over every longer run. */
  lemma {:induction false} FinalForGood(env: Env, world: World, reqs: seq<Request>, n: nat, task: nat)
    requires world.calls == [] && PlansDistinct(reqs) && n <= |reqs|
    requires var s := Serve(env, Empty(world), reqs[..n]);
             task in s.tasks.rows && s.tasks.rows[task].status in {Completed, Cancelled}
    ensures task in Serve(env, Empty(world), reqs).tasks.rows
    ensures Serve(env, Empty(world), reqs).tasks.rows[task].status == Serve(env, Empty(world), reqs[..n]).tasks.rows[task].status
    decreases |reqs|
  {
    if n == |reqs| {
      assert reqs[..n] == reqs;
    } else {
      var before := reqs[..|reqs| - 1];
      assert before[..n] == reqs[..n];
      FinalForGood(env, world, before, n, task);
      EveryRunIsSafe(env, world, before);
      FinalStatuses(env, Serve(env, Empty(world), before), reqs[|reqs| - 1], task);
    }
  }

  // ---------- What is never rewritten ----------

  /** No operation changes what an approval asks for; a decision is final; so is the result of a
      consumed approval. */
  ghost predicate Lasting(at: ApprovalTable, after: ApprovalTable) {
    && Carries(at, after)
    && forall a | a in at.rows ::
         && (at.rows[a].status == Rejected ==> after.rows[a] == at.rows[a])
         && (at.rows[a].payload.resumed ==> after.rows[a].payload == at.rows[a].payload)
  }

  lemma ClosingLasts(at: ApprovalTable, id: nat, u: PayloadUpdate)
    requires Resumable(at, id)
    ensures Lasting(at, UpdatePayload(at, id, u))
  {
  }

  lemma ChainingLasts(at: ApprovalTable, id: nat, a: Approval, u: PayloadUpdate)
    requires Resumable(at, id) && forall b | b in at.rows :: b < at.next
    ensures Lasting(at, UpdatePayload(Insert(at, a), id, u))
  {
    ClosingLasts(Insert(at, a), id, u);
  }

  lemma KeywordLasts(env: Env, s: Sys, id: nat)
    requires Resumable(s.approvals, id) && s.approvals.rows[id].payload.work.KeywordCall?
    ensures Lasting(s.approvals, ResumeKeyword(env, s, id, s.approvals.rows[id]).0.approvals)
  {
    var s1 := Called(env, s, Owner(s.approvals.rows[id].task, ""), s.approvals.rows[id].payload.work.tool,
                     s.approvals.rows[id].payload.work.args);
    var r := CallResult(Last(s1.world), false);
    ClosingLasts(s.approvals, id, if r.consumed then Consumed(r) else NotConsumed(r));
  }

  lemma GraphLasts(env: Env, s: Sys, id: nat, now: int)
    requires Resumable(s.approvals, id) && s.approvals.rows[id].payload.work.GraphCall?
    requires s.approvals.rows[id].payload.work.checkpoint.Some?
    ensures Lasting(s.approvals, ResumeGraph(env, s, id, s.approvals.rows[id], now).0.approvals)
  {
    var s2 := Called(env, s, Owner(s.approvals.rows[id].task, ""), s.approvals.rows[id].payload.work.graphTool,
                     s.approvals.rows[id].payload.work.graphArgs);
    ClosingLasts(s.approvals, id, Consumed(CallResult(Last(s2.world), true)));
  }

  lemma PlanLasts(env: Env, s: Sys, id: nat)
    requires KeysOk(s.approvals, s.tasks) && Resumable(s.approvals, id) && s.approvals.rows[id].payload.work.PlanStep?
    ensures Lasting(s.approvals, ResumePlan(env, s, id, s.approvals.rows[id]).0.approvals)
  {
    var a := s.approvals.rows[id];
    var (st, v) := Resume(env.tools, Cfg(env), a.task, a.payload.work.snapshot, s.world);
    var r := PlanResult(st, v, s.approvals.next).0;
    var u := if r.consumed then Consumed(r) else NotConsumed(r);
    ClosingLasts(s.approvals, id, u);
    if NextWork(v).Some? {
      ChainingLasts(s.approvals, id, NewApproval(a.task, NextWork(v).value), u);
    }
  }

  lemma ServiceResumeLasts(env: Env, s: Sys, id: nat, now: int)
    requires KeysOk(s.approvals, s.tasks)
    ensures Lasting(s.approvals, ServiceResume(env, s, id, now).0.approvals)
  {
    if Resumable(s.approvals, id) {
      match s.approvals.rows[id].payload.work
      case KeywordCall(_, _) => KeywordLasts(env, s, id);
      case PlanStep(_) => PlanLasts(env, s, id);
      case GraphCall(_, _, checkpoint) =>
        if checkpoint.Some? {
          GraphLasts(env, s, id, now);
        }
      case OtherMode(_) =>
        var r := ResumeResult(false, false, false, ResumeFailed, Null, Str("unsupported resume mode"), [], None);
        ClosingLasts(s.approvals, id, NotConsumed(r));
    }
  }

  lemma DecisionLasts(at: ApprovalTable, id: nat, status: ApprovalStatus)
    requires forall a | a in at.rows && at.rows[a].payload.resumed :: at.rows[a].status == Approved
    ensures Lasting(at, DecidePending(at, id, status))
  {
  }

  lemma LastingTransitive(a: ApprovalTable, b: ApprovalTable, c: ApprovalTable)
    requires Lasting(a, b) && Lasting(b, c)
    ensures Lasting(a, c)
  {
  }

  lemma SubmissionLasts(env: Env, s: Sys, req: Request)
    requires KeysOk(s.approvals, s.tasks) && (req.PostKeyword? || req.PostPlan? || req.PostGraph?)
    ensures Lasting(s.approvals, Handle(env, s, req).approvals)
  {
    var at' := Handle(env, s, req).approvals;
    assert at' == s.approvals || at' == Insert(s.approvals, at'.rows[s.approvals.next]);
  }

  lemma ApproveLasts(env: Env, s: Sys, id: nat, autoResume: bool, now: int)
    requires LiveOk(s.approvals, s.tasks)
    ensures Lasting(s.approvals, Approve(env, s, id, autoResume, now).approvals)
  {
    var s1 := s.(approvals := DecidePending(s.approvals, id, Approved));
    var s2 := Approve(env, s, id, autoResume, now);
    DecisionLasts(s.approvals, id, Approved);
    if s2 != s && s2 != s1 {
      assert s2 == ServiceResume(env, s1, id, now).0;
      ServiceResumeLasts(env, s1, id, now);
      LastingTransitive(s.approvals, s1.approvals, s2.approvals);
    }
  }

  lemma RejectLasts(env: Env, s: Sys, id: nat)
    requires LiveOk(s.approvals, s.tasks)
    ensures Lasting(s.approvals, Reject(s, id).approvals)
  {
    DecisionLasts(s.approvals, id, Rejected);
    if Reject(s, id) != s {
      RejectParts(env, s, id);
    }
  }

  lemma HandleLasts(env: Env, s: Sys, req: Request)
    requires LiveOk(s.approvals, s.tasks)
    ensures Lasting(s.approvals, Handle(env, s, req).approvals)
  {
    match req
    case PostApprove(id, autoResume, now) => ApproveLasts(env, s, id, autoResume, now);
    case PostReject(id) => RejectLasts(env, s, id);
    case PostResume(id, now) =>
      if Handle(env, s, req) != s {
        ServiceResumeLasts(env, s, id, now);
      }
    case ExpireCheckpoints(now) =>
    case _ => SubmissionLasts(env, s, req);
  }

  /** Over every longer run a decided approval stays decided as it was, and a consumed one keeps its
      result: resuming it once more calls nothing and answers that result. */
  lemma {:induction false} ConsumedForGood(env: Env, world: World, reqs: seq<Request>, n: nat)
    requires world.calls == [] && PlansDistinct(reqs) && n <= |reqs|
    ensures Lasting(Serve(env, Empty(world), reqs[..n]).approvals, Serve(env, Empty(world), reqs).approvals)
    decreases |reqs|
  {
    if n == |reqs| {
      assert reqs[..n] == reqs;
    } else {
      var before := reqs[..|reqs| - 1];
      assert before[..n] == reqs[..n];
      ConsumedForGood(env, world, before, n);
      EveryRunIsSafe(env, world, before);
      var s := Serve(env, Empty(world), before);
      HandleLasts(env, s, reqs[|reqs| - 1]);
      LastingTransitive(Serve(env, Empty(world), reqs[..n]).approvals, s.approvals, Serve(env, Empty(world), reqs).approvals);
    }
  }

  lemma ResumedAnswersItsResult(env: Env, world: World, reqs: seq<Request>, n: nat, id: nat, now: int)
    requires world.calls == [] && PlansDistinct(reqs) && n <= |reqs|
    requires var at := Serve(env, Empty(world), reqs[..n]).approvals; id in at.rows && at.rows[id].payload.resumed
    ensures var s := Serve(env, Empty(world), reqs);
            ServiceResume(env, s, id, now) ==
            (s, AlreadyResumed(Serve(env, Empty(world), reqs[..n]).approvals.rows[id].payload.result))
  {
    ConsumedForGood(env, world, reqs, n);
    EveryRunIsSafe(env, world, reqs);
  }

  // ---------- High-risk calls ----------

  /** In every reachable state, every call of a high-risk tool is the approved call of an approval
      whose stored status is `approved` and whose tool is the called one. */
  lemma NoUngatedCall(env: Env, world: World, reqs: seq<Request>, i: nat) returns (id: nat)
    requires world.calls == [] && PlansDistinct(reqs)
    requires i < |Serve(env, Empty(world), reqs).world.calls|
    requires HighRisk(env.tools, Serve(env, Empty(world), reqs).world.calls[i].record.tool)
    ensures var s := Serve(env, Empty(world), reqs);
            && id in s.approvals.rows && Grants(s.approvals.rows[id], s.world.calls[i])
            && s.approvals.rows[id].tool == ToolOf(s.approvals.rows[id].payload.work)
  {
    EveryRunIsSafe(env, world, reqs);
    var s := Serve(env, Empty(world), reqs);
    assert Granted(s.approvals, s.world.calls[i]);
    id :| id in s.approvals.rows && Grants(s.approvals.rows[id], s.world.calls[i]);
    assert WorkOk(s.approvals.rows[id], s.tasks, s.world.calls);
  }

  /** Graph mode looks only at the risk: it calls every registered tool that is not high-risk. */
  predicate IgnoredByGraph(env: Env, tool: string)
    requires tool in env.tools.registry
  {
    env.whitelist && env.tools.registry[tool].risk != High && env.tools.registry[tool].scope in {"write", "admin", "schema"}
  }

  /** Graph mode calls a tool that the policy refuses exactly if the whitelist is on and the tool has
      a writing scope without being high-risk. For all other tools it does in the world what keyword
      mode does. */
  lemma GraphIgnoresTheWhitelist(env: Env, s: Sys, tool: string)
    requires tool in env.tools.registry
    ensures SubmitGraph(env, s, Some(tool)).world != s.world && GateOf(env.tools, Cfg(env), tool) == Refuse
            <==> IgnoredByGraph(env, tool)
    ensures SubmitGraph(env, s, Some(tool)).world == SubmitKeyword(env, s, Some((tool, []))).world
            <==> !IgnoredByGraph(env, tool)
    ensures IgnoredByGraph(env, tool) ==>
              && |SubmitGraph(env, s, Some(tool)).world.calls| == |s.world.calls| + 1
              && SubmitKeyword(env, s, Some((tool, []))).world == s.world
  {
    var called := CallTool(env.tools, s.world, Owner(s.tasks.next, ""), tool, []);
    assert |called.calls| == |s.world.calls| + 1;
    assert SubmitGraph(env, s, Some(tool)).world == if env.tools.registry[tool].risk == High then s.world else called;
  }

  // ---------- Steps of a plan ----------

  predicate Succeeds(c: Call, task: nat, step: string) {
    c.owner == Owner(task, step) && c.record.success
  }

  /** The `j`-th success in the log is the `j`-th entry of `Successes`. */
  lemma {:induction false} SuccessAt(calls: seq<Call>, task: nat, i: nat)
    requires i < |calls| && calls[i].owner.task == task && calls[i].record.success
    ensures |Successes(calls[..i], task)| < |Successes(calls, task)|
    ensures Successes(calls, task)[|Successes(calls[..i], task)|] == calls[i].owner.step
    decreases |calls|
  {
    var before := calls[..|calls| - 1];
    if i < |before| {
      assert before[..i] == calls[..i];
      SuccessAt(before, task, i);
    }
  }

  lemma {:induction false} SuccessIndex(calls: seq<Call>, task: nat, j: nat) returns (i: nat)
    requires j < |Successes(calls, task)|
    ensures i < |calls| && Succeeds(calls[i], task, Successes(calls, task)[j]) && |Successes(calls[..i], task)| == j
  {
    var before := calls[..|calls| - 1];
    if j < |Successes(before, task)| {
      i := SuccessIndex(before, task, j);
      assert before[..i] == calls[..i];
    } else {
      i := |calls| - 1;
    }
  }

  /** A success adds to every longer log. */
  lemma {:induction false} SuccessesGrow(calls: seq<Call>, task: nat, i: nat, j: nat)
    requires i < j <= |calls| && calls[i].owner.task == task && calls[i].record.success
    ensures |Successes(calls[..i], task)| < |Successes(calls[..j], task)|
    decreases j
  {
    assert calls[..j][..j - 1] == calls[..j - 1];
    if i < j - 1 {
      SuccessesGrow(calls, task, i, j - 1);
    }
  }

  /** Over all resumes, retries and chained approvals, each step of a task's plan succeeds at most
      once, and only after each of its dependencies did. */
  lemma EachStepOnceInOrder(env: Env, world: World, reqs: seq<Request>, task: nat, i: nat)
    requires world.calls == [] && PlansDistinct(reqs)
    requires var s := Serve(env, Empty(world), reqs);
             && task in s.tasks.rows && s.tasks.rows[task].plan.Some?
             && i < |s.world.calls| && s.world.calls[i].owner.task == task && s.world.calls[i].record.success
    ensures var s := Serve(env, Empty(world), reqs);
            var c := s.world.calls[i];
            && (forall j | 0 <= j < |s.world.calls| && Succeeds(s.world.calls[j], task, c.owner.step) :: j == i)
            && exists p | 0 <= p < |s.tasks.rows[task].plan.value| ::
                 && s.tasks.rows[task].plan.value[p].id == c.owner.step
                 && forall d | d in s.tasks.rows[task].plan.value[p].deps :: EarlierSuccess(s.world.calls, task, d, i)
  {
    EveryRunIsSafe(env, world, reqs);
    var s := Serve(env, Empty(world), reqs);
    OnceInOrder(s.world.calls, task, s.tasks.rows[task].plan.value, |Successes(s.world.calls, task)|, i);
  }

  predicate EarlierSuccess(calls: seq<Call>, task: nat, step: string, i: nat)
    requires i <= |calls|
  {
    exists j | 0 <= j < i :: Succeeds(calls[j], task, step)
  }

  lemma OnceInOrder(calls: seq<Call>, task: nat, plan: Plan, k: nat, i: nat)
    requires DistinctIds(plan) && Progressed(calls, task, plan, k)
    requires i < |calls| && calls[i].owner.task == task && calls[i].record.success
    ensures forall j | 0 <= j < |calls| && Succeeds(calls[j], task, calls[i].owner.step) :: j == i
    ensures exists p | 0 <= p < |plan| ::
              && plan[p].id == calls[i].owner.step
              && forall d | d in plan[p].deps :: EarlierSuccess(calls, task, d, i)
  {
    SuccessAt(calls, task, i);
    var p := |Successes(calls[..i], task)|;
    forall j | 0 <= j < |calls| && Succeeds(calls[j], task, calls[i].owner.step) ensures j == i {
      SameStepSameCall(calls, task, plan, k, i, j);
    }
    forall d | d in plan[p].deps ensures EarlierSuccess(calls, task, d, i) {
      DependencyBefore(calls, task, plan, k, i, d);
    }
  }

  lemma SameStepSameCall(calls: seq<Call>, task: nat, plan: Plan, k: nat, i: nat, j: nat)
    requires DistinctIds(plan) && Progressed(calls, task, plan, k)
    requires i < |calls| && calls[i].owner.task == task && calls[i].record.success
    requires j < |calls| && Succeeds(calls[j], task, calls[i].owner.step)
    ensures j == i
  {
    SuccessAt(calls, task, i);
    SuccessAt(calls, task, j);
    if i < j {
      SuccessesGrow(calls, task, i, j);
    } else if j < i {
      SuccessesGrow(calls, task, j, i);
    }
  }

  lemma DependencyBefore(calls: seq<Call>, task: nat, plan: Plan, k: nat, i: nat, d: string)
    requires Progressed(calls, task, plan, k)
    requires i < |calls| && calls[i].owner.task == task && calls[i].record.success
    requires |Successes(calls[..i], task)| < k && d in plan[|Successes(calls[..i], task)|].deps
    ensures EarlierSuccess(calls, task, d, i)
  {
    var p := |Successes(calls[..i], task)|;
    IdsAre(plan, p, d);
    var q :| 0 <= q < p && plan[q].id == d;
    var j := SuccessIndex(calls, task, q);
    if i < j {
      SuccessesGrow(calls, task, i, j);
    }
    assert Succeeds(calls[j], task, d);
  }

  /** In every reachable state, the payload of every plan approval is the state of its task's plan
      before one of its steps; that of a live one is up to date with the log. */
  lemma SnapshotsDescribePlans(env: Env, world: World, reqs: seq<Request>, id: nat)
    requires world.calls == [] && PlansDistinct(reqs)
    requires var s := Serve(env, Empty(world), reqs);
             id in s.approvals.rows && s.approvals.rows[id].payload.work.PlanStep?
    ensures var s := Serve(env, Empty(world), reqs);
            var a := s.approvals.rows[id];
            var snap := a.payload.work.snapshot;
            && a.task in s.tasks.rows && s.tasks.rows[a.task].plan == Some(snap.plan)
            && SnapshotAt(snap, snap.plan, |snap.calls|)
            && (Live(a) ==> Progressed(s.world.calls, a.task, snap.plan, |snap.calls|))
  {
    EveryRunIsSafe(env, world, reqs);
    var s := Serve(env, Empty(world), reqs);
    assert WorkOk(s.approvals.rows[id], s.tasks, s.world.calls);
  }
}
