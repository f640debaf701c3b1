/** The services and request handlers over the stores and the gateway. Each one is proved to do to
    the stores exactly what its function in `Machine` says. */
module Services {
  import opened JsonValues
  import opened ToolGateways
  import opened Policies
  import opened MultiTool
  import opened Stores
  import opened Machine
  import opened PlanExecution

  /** The checkpoints that a graph run adds after its call. */
  function AfterCall(t: CheckpointTable, task: nat, success: bool): CheckpointTable {
    var t1 := AddCheckpoint(t, NewCheckpoint(task, "execute", StageRunning, None));
    var t2 := AddCheckpoint(t1, NewCheckpoint(task, "verify", StageRunning, None));
    AddCheckpoint(t2, NewCheckpoint(task, "respond", if success then StageCompleted else StageFailed, None))
  }

  class ApprovalSystem {
    const env: Env
    const gateway: ToolGateway
    const approvals: SQLiteApprovalStore
    const tasks: SQLiteTaskStore
    const checkpoints: SQLiteGraphCheckpointStore
    const executor: PlanExecutor

    ghost predicate Valid() {
      && gateway.tools == env.tools
      && executor.gateway == gateway && executor.approvals == approvals && executor.cfg == Cfg(env)
    }

    ghost function State(): Sys
      reads gateway, approvals, tasks, checkpoints
    {
      Sys(approvals.table, tasks.table, checkpoints.table, gateway.world)
    }

    constructor (env: Env, world: World)
      ensures Valid() && this.env == env && State() == Empty(world)
      ensures fresh(gateway) && fresh(approvals) && fresh(tasks) && fresh(checkpoints)
    {
      this.env := env;
      var calls := new ToolGateway(env.tools, world);
      var requests := new SQLiteApprovalStore(ApprovalTable(map[], 0));
      gateway, approvals := calls, requests;
      tasks := new SQLiteTaskStore(TaskTable(map[], 0));
      checkpoints := new SQLiteGraphCheckpointStore(CheckpointTable(map[], 0));
      executor := new PlanExecutor(calls, requests, Cfg(env));
    }

    // ---------- Submitting ----------

    /** `AgentKernel.run` up to the answer: plan, gate, call, save. */
    method SubmitKeywordTask(planned: Option<(string, Args)>) returns (task: nat)
      requires Valid()
      modifies gateway`world, approvals, tasks
      ensures State() == SubmitKeyword(env, old(State()), planned)
    {
      task := tasks.NewTaskId();
      var status := Completed;
      if planned.Some? {
        var (tool, args) := planned.value;
        if tool in env.tools.registry {
          var decision := Evaluate(env.tools, Policy(env.whitelist, false), tool, env.tools.registry[tool].risk);
          if decision.requiresApproval {
            var _ := approvals.CreateApproval(task, KeywordCall(tool, args));
            status := WaitingApproval;
          } else if decision.allowed {
            var _ := gateway.Call(Owner(task, ""), tool, args);
          }
        } else {
          var _ := gateway.Call(Owner(task, ""), tool, args);
        }
      }
      tasks.SaveTask(task, Task(status, None));
    }

    /** `AgentKernel._run_multitool`. */
    method SubmitPlanTask(plan: Plan) returns (task: nat)
      requires Valid()
      modifies gateway`world, approvals, tasks
      ensures State() == SubmitPlan(env, old(State()), plan)
    {
      task := tasks.NewTaskId();
      var _, stop := executor.RunPlan(task, plan);
      var waiting := stop.Stopped? && stop.why.NeedsApproval?;
      tasks.SaveTask(task, Task(if waiting then WaitingApproval else Completed, Some(plan)));
    }

    /** `GraphRuntimeAdapter.run_keyword` and the graph branch of `run_with_options`. */
    method SubmitGraphTask(planned: Option<string>) returns (task: nat)
      requires Valid()
      modifies gateway`world, approvals, tasks, checkpoints
      ensures State() == SubmitGraph(env, old(State()), planned)
    {
      task := tasks.NewTaskId();
      var status := Failed;
      var _ := checkpoints.CreateCheckpoint(task, "assemble_context", StageRunning);
      var _ := checkpoints.CreateCheckpoint(task, "plan", StageRunning);
      if planned.None? {
        var _ := checkpoints.CreateCheckpoint(task, "respond", StageCompleted);
      } else if planned.value !in env.tools.registry {
        var _ := checkpoints.CreateCheckpoint(task, "respond", StageFailed);
      } else {
        status := RunGraphTool(task, planned.value);
      }
      tasks.SaveTask(task, Task(status, None));
    }

    /** `run_keyword` from the policy decision on: pause before a high-risk tool, call any other. */
    method RunGraphTool(task: nat, tool: string) returns (status: TaskStatus)
      requires Valid() && tool in env.tools.registry
      modifies gateway`world, approvals, checkpoints
      ensures tasks.table == old(tasks.table)
      ensures env.tools.registry[tool].risk == High ==>
                && status == WaitingApproval && gateway.world == old(gateway.world)
                && approvals.table == Insert(old(approvals.table),
                                             NewApproval(task, GraphCall(tool, [], Some(old(checkpoints.table.next)))))
                && checkpoints.table ==
                   MarkPendingInterrupt(AddCheckpoint(old(checkpoints.table), NewCheckpoint(task, "execute", Interrupted, None)),
                                        old(checkpoints.table.next), old(approvals.table.next))
      ensures env.tools.registry[tool].risk != High ==>
                && gateway.world == CallTool(env.tools, old(gateway.world), Owner(task, ""), tool, [])
                && approvals.table == old(approvals.table)
                && status == (if Last(gateway.world).success then Completed else Failed)
                && checkpoints.table == AfterCall(old(checkpoints.table), task, Last(gateway.world).success)
    {
      var decision := Evaluate(env.tools, Policy(env.whitelist, false), tool, env.tools.registry[tool].risk);
      if env.tools.registry[tool].risk == High || decision.requiresApproval {
        var c := checkpoints.CreateCheckpoint(task, "execute", Interrupted);
        var a := approvals.CreateApproval(task, GraphCall(tool, [], Some(c)));
        checkpoints.MarkPending(c, a);
        return WaitingApproval;
      }
      var record := gateway.Call(Owner(task, ""), tool, []);
      var _ := checkpoints.CreateCheckpoint(task, "execute", StageRunning);
      var _ := checkpoints.CreateCheckpoint(task, "verify", StageRunning);
      var _ := checkpoints.CreateCheckpoint(task, "respond", if record.success then StageCompleted else StageFailed);
      status := if record.success then Completed else Failed;
    }

    // ---------- Resuming ----------

    /** `_resume_keyword`. */
    method ResumeKeywordCall(id: nat, a: Approval) returns (r: ResumeResult)
      requires Valid() && a.payload.work.KeywordCall?
      modifies gateway`world, tasks
      ensures gateway.world == CallTool(env.tools, old(gateway.world), Owner(a.task, ""), a.payload.work.tool, a.payload.work.args)
      ensures r == CallResult(Last(gateway.world), false)
      ensures tasks.table == SetStatus(old(tasks.table), a.task, if r.success then Completed else Failed)
    {
      var record := gateway.Call(Owner(a.task, ""), a.payload.work.tool, a.payload.work.args);
      r := CallResult(record, false);
      tasks.UpdateTaskStatus(a.task, if record.success then Completed else Failed);
    }

    /** `_resume_multitool`. */
    method ResumeMultitool(id: nat, a: Approval) returns (r: ResumeResult)
      requires Valid() && a.payload.work.PlanStep?
      modifies gateway`world, approvals, tasks
      ensures var (st, v) := Resume(env.tools, Cfg(env), a.task, a.payload.work.snapshot, old(gateway.world));
              var (result, status) := PlanResult(st, v, old(approvals.table.next));
              && gateway.world == st.world && r == result
              && approvals.table == (if NextWork(v).Some? then Insert(old(approvals.table), NewApproval(a.task, NextWork(v).value))
                                     else old(approvals.table))
              && tasks.table == (if status.Some? then SetStatus(old(tasks.table), a.task, status.value) else old(tasks.table))
    {
      var asked := approvals.table.next;
      var calls, verdict := executor.ResumeSnapshot(a.task, a.payload.work.snapshot);
      match verdict {
        case ArgsUnresolved =>
          r := ResumeResult(false, false, false, ResumeFailed, Null, Null, [], None);
        case ApprovedStepFailed(error) =>
          r := ResumeResult(false, true, false, ResumeFailed, Null, error, calls, None);
          tasks.UpdateTaskStatus(a.task, Failed);
        case Continued(stop) =>
          if stop.Stopped? && stop.why.NeedsApproval? {
            r := ResumeResult(false, true, true, ResumeWaiting, Null, Null, calls, Some(asked));
            tasks.UpdateTaskStatus(a.task, WaitingApproval);
          } else {
            var success := stop.Finished?;
            var error := if stop.Stopped? && stop.why.ToolFailed? then stop.why.error else Null;
            r := ResumeResult(success, true, true, if success then ResumeCompleted else DownstreamFailed, Null, error, calls, None);
            tasks.UpdateTaskStatus(a.task, if success then Completed else Failed);
          }
      }
    }

    /** `GraphResumeAdapter.resume`: claim, call, then task, checkpoint and approval, in this order. */
    method ResumeGraphCall(id: nat, a: Approval, now: int) returns (answer: Answer)
      requires Valid() && a.payload.work.GraphCall? && a.payload.work.checkpoint.Some?
      modifies gateway`world, approvals, tasks, checkpoints
      ensures (State(), answer) == ResumeGraph(env, old(State()), id, a, now)
    {
      var c := a.payload.work.checkpoint.value;
      var claimed := checkpoints.ClaimForResume(c, id, now);
      if !claimed {
        answer := HandleClaimFailed(c);
        return;
      }
      var record := gateway.Call(Owner(a.task, ""), a.payload.work.graphTool, a.payload.work.graphArgs);
      var r := CallResult(record, true);
      tasks.UpdateTaskStatus(a.task, if r.success then Completed else Failed);
      checkpoints.MarkResumedRow(c, r);
      approvals.Update(id, Consumed(r));
      answer := Attempted(r);
    }

    /** `_handle_claim_failed`. */
    method HandleClaimFailed(c: nat) returns (answer: Answer)
      ensures answer == ClaimLost(checkpoints.table, c)
    {
      var checkpoint := checkpoints.GetCheckpoint(c);
      if checkpoint.Some? {
        var row := checkpoint.value;
        if row.consumed && (row.status == CheckpointResumed || row.status == StageCompleted) {
          return AlreadyResumed(row.snapshot);
        }
        if row.status == CheckpointCancelled || row.status == Expired {
          return CheckpointGone(row.status);
        }
      }
      answer := ClaimFailed;
    }

    /** `ApprovalResumeService.resume`. */
    method ResumeApproval(id: nat, now: int) returns (answer: Answer)
      requires Valid()
      modifies gateway`world, approvals, tasks, checkpoints
      ensures (State(), answer) == ServiceResume(env, old(State()), id, now)
    {
      var approval := approvals.GetApproval(id);
      if approval.None? {
        return NoSuchApproval;
      }
      var a := approval.value;
      if a.status != Approved {
        return NotApproved(a.status);
      }
      if a.payload.resumed {
        return AlreadyResumed(a.payload.result);
      }
      if a.payload.work.GraphCall? {
        if a.payload.work.checkpoint.None? {
          return MissingCheckpoint;
        }
        answer := ResumeGraphCall(id, a, now);
        return;
      }
      var intact := CheckIntegrity(a);
      if !intact {
        return Tampered;
      }
      var r := ResumeResult(false, false, false, ResumeFailed, Null, Str("unsupported resume mode"), [], None);
      match a.payload.work {
        case KeywordCall(_, _) => r := ResumeKeywordCall(id, a);
        case PlanStep(_) => r := ResumeMultitool(id, a);
        case OtherMode(_) =>
      }
      approvals.Update(id, if r.consumed then Consumed(r) else NotConsumed(r));
      answer := Attempted(r);
    }

    /** `check_payload_integrity`, with its search for the approved step in the stored plan. */
    method CheckIntegrity(a: Approval) returns (intact: bool)
      ensures intact <==> Intact(a)
    {
      var tool := ToolOf(a.payload.work);
      if tool != "" && tool != a.tool {
        return false;
      }
      if a.payload.work.PlanStep? && a.payload.work.snapshot.step != "" {
        var snap := a.payload.work.snapshot;
        for i := 0 to |snap.plan|
          invariant forall j | 0 <= j < i :: snap.plan[j].id != snap.step
        {
          if snap.plan[i].id == snap.step {
            return true;
          }
        }
        return false;
      }
      intact := true;
    }

    // ---------- Handlers ----------

    /** `_do_resume`. */
    method GuardedResume(id: nat, now: int) returns (answer: Answer)
      requires Valid()
      modifies gateway`world, approvals, tasks, checkpoints
      ensures (State(), answer) == DoResume(env, old(State()), id, now)
    {
      var approval := approvals.GetApproval(id);
      if approval.Some? && env.injected(approval.value.payload) {
        return InjectionBlocked;
      }
      answer := ResumeApproval(id, now);
    }

    /** `approve_approval`. */
    method ApproveApproval(id: nat, autoResume: bool, now: int)
      requires Valid()
      modifies gateway`world, approvals, tasks, checkpoints
      ensures State() == Approve(env, old(State()), id, autoResume, now)
    {
      var previous := approvals.GetApproval(id);
      if previous.None? || previous.value.payload.resumed {
        return;
      }
      if previous.value.status == Approved {
        if autoResume {
          var _ := GuardedResume(id, now);
        }
        return;
      }
      var _, alreadyDecided := approvals.DecideApproval(id, true);
      if alreadyDecided {
        return;
      }
      if autoResume {
        var _ := GuardedResume(id, now);
      }
    }

    /** `reject_approval`, with `_cancel_task` and `_cancel_graph_checkpoint_if_needed`. */
    method RejectApproval(id: nat)
      requires Valid()
      modifies approvals, tasks, checkpoints
      ensures State() == Reject(old(State()), id)
    {
      var previous := approvals.GetApproval(id);
      if previous.None? {
        return;
      }
      var result, alreadyDecided := approvals.DecideApproval(id, false);
      if alreadyDecided {
        return;
      }
      var a := result.value;
      tasks.UpdateTaskStatus(a.task, Cancelled);
      if a.payload.work.GraphCall? && a.payload.work.checkpoint.Some? {
        checkpoints.MarkCancelledRow(a.payload.work.checkpoint.value);
      }
    }

    /** `manual_resume_approval`: it answers for an approval that is not approved, or is consumed,
        before the guard is asked. */
    method ManualResume(id: nat, now: int) returns (answer: Answer)
      requires Valid()
      modifies gateway`world, approvals, tasks, checkpoints
      ensures (State(), answer) == HandleResume(env, old(State()), id, now)
    {
      var approval := approvals.GetApproval(id);
      if approval.None? {
        return NoSuchApproval;
      }
      if approval.value.status != Approved {
        return NotApproved(approval.value.status);
      }
      if approval.value.payload.resumed {
        return AlreadyResumed(approval.value.payload.result);
      }
      answer := GuardedResume(id, now);
    }

    /** Any request, in any state: the services do what the state machine says. */
    method Serve(req: Request)
      requires Valid()
      modifies gateway`world, approvals, tasks, checkpoints
      ensures State() == Handle(env, old(State()), req)
    {
      match req {
        case PostKeyword(planned) => var _ := SubmitKeywordTask(planned);
        case PostPlan(plan) => var _ := SubmitPlanTask(plan);
        case PostGraph(tool) => var _ := SubmitGraphTask(tool);
        case PostApprove(id, autoResume, now) => ApproveApproval(id, autoResume, now);
        case PostReject(id) => RejectApproval(id);
        case PostResume(id, now) => var _ := ManualResume(id, now);
        case ExpireCheckpoints(now) => checkpoints.ExpireOutdated(now);
      }
    }
  }
}
