/** The two plan executors as the services run them: loops over the plan that update the saved
    variables, the completed steps and the recorded calls. */
module PlanExecution {
  import opened JsonValues
  import opened ToolGateways
  import opened Policies
  import opened MultiTool
  import opened PlanProgress
  import opened Stores

  /** The approvals after an executor stopped: one more, if it asked for one. */
  function AskedFor(at: ApprovalTable, task: nat, stop: Stop): ApprovalTable {
    if stop.Stopped? && stop.why.NeedsApproval? then Insert(at, NewApproval(task, PlanStep(stop.why.snapshot))) else at
  }

  class PlanExecutor {
    const gateway: ToolGateway
    const approvals: SQLiteApprovalStore
    const cfg: Config

    constructor (gateway: ToolGateway, approvals: SQLiteApprovalStore, cfg: Config)
      ensures this.gateway == gateway && this.approvals == approvals && this.cfg == cfg
    {
      this.gateway := gateway;
      this.approvals := approvals;
      this.cfg := cfg;
    }

    /** The checks in front of a step's call, in the order of the source. */
    method CheckStep(step: Step, done: set<string>) returns (missing: seq<string>, gate: Gate)
      ensures missing == Missing(step.deps, done)
      ensures missing == [] ==> gate == GateOf(gateway.tools, cfg, step.tool)
    {
      missing, gate := Missing(step.deps, done), Go;
      if missing != [] {
        return;
      }
      if step.tool !in gateway.tools.registry {
        gate := Unknown;
      } else if cfg.policy.Some? {
        var decision := Evaluate(gateway.tools, cfg.policy.value, step.tool, gateway.tools.registry[step.tool].risk);
        if !decision.allowed {
          gate := if decision.requiresApproval && cfg.hasStore then Ask else Refuse;
        }
      }
    }

    /** `MultiToolPipeline.run` on a matched plan. */
    method RunPlan(task: nat, plan: Plan) returns (calls: seq<CallData>, stop: Stop)
      modifies gateway`world, approvals
      ensures var run := Run(gateway.tools, cfg, task, plan, old(gateway.world));
              && gateway.world == run.0.world && calls == run.0.calls && stop == run.1
              && approvals.table == AskedFor(old(approvals.table), task, run.1)
    {
      var saved: Saved, done: set<string> := map[], {};
      calls := [];
      ghost var run := Run(gateway.tools, cfg, task, plan, gateway.world);
      var k: nat := 0;
      while k < |plan|
        invariant k <= |plan|
        invariant run == RunFrom(gateway.tools, cfg, FirstRun, task, plan, k, Exec(gateway.world, done, saved, calls))
        invariant approvals.table == old(approvals.table)
      {
        var step := plan[k];
        ghost var p := Advance(gateway.tools, cfg, FirstRun, task, plan, step, Exec(gateway.world, done, saved, calls));
        RunStep(gateway.tools, cfg, FirstRun, task, plan, k, Exec(gateway.world, done, saved, calls), p, run);
        var missing, gate := CheckStep(step, done);
        if missing != [] {
          return calls, Stopped(step.id, MissingDeps(missing));
        }
        if gate == Ask {
          var snapshot := Snapshot(step.id, step.tool, step.args, plan, done, calls);
          var _ := approvals.CreateApproval(task, PlanStep(snapshot));
          return Reported(FirstRun, calls, step), Stopped(step.id, NeedsApproval(snapshot));
        }
        if gate != Go {
          return Reported(FirstRun, calls, step), Stopped(step.id, if gate == Unknown then NotRegistered else PolicyBlocked);
        }
        var args := ResolveArgs(gateway.tools, saved, step.args, false);
        if args.None? {
          return calls, Stopped(step.id, Unresolved);
        }
        var record := gateway.Call(Owner(task, step.id), step.tool, args.value);
        calls := calls + [Made(FirstRun, step.id, step.saveAs, record)];
        if !record.success {
          return calls, Stopped(step.id, ToolFailed(record.error));
        }
        if step.saveAs.Some? && step.saveAs.value != "" {
          saved := saved[step.saveAs.value := InMemory(record)];
        }
        done := done + {step.id};
        k := k + 1;
      }
      stop := Finished;
    }

    /** `_execute_subsequent_steps`. */
    method ExecuteSubsequentSteps(task: nat, plan: Plan, done0: set<string>, saved0: Saved, calls0: seq<CallData>)
      returns (calls: seq<CallData>, stop: Stop)
      modifies gateway`world, approvals
      ensures var run := RunFrom(gateway.tools, cfg, Resumed, task, plan, 0, Exec(old(gateway.world), done0, saved0, calls0));
              && gateway.world == run.0.world && calls == run.0.calls && stop == run.1
              && approvals.table == AskedFor(old(approvals.table), task, run.1)
    {
      var done, saved := done0, saved0;
      calls := calls0;
      ghost var run := RunFrom(gateway.tools, cfg, Resumed, task, plan, 0, Exec(gateway.world, done0, saved0, calls0));
      var k: nat := 0;
      while k < |plan|
        invariant k <= |plan|
        invariant run == RunFrom(gateway.tools, cfg, Resumed, task, plan, k, Exec(gateway.world, done, saved, calls))
        invariant approvals.table == old(approvals.table)
      {
        var step := plan[k];
        k := k + 1;
        if step.id in done {
          continue;
        }
        ghost var p := Advance(gateway.tools, cfg, Resumed, task, plan, step, Exec(gateway.world, done, saved, calls));
        RunStep(gateway.tools, cfg, Resumed, task, plan, k - 1, Exec(gateway.world, done, saved, calls), p, run);
        var missing, gate := CheckStep(step, done);
        if missing != [] {
          return calls, Stopped(step.id, MissingDeps(missing));
        }
        if gate == Ask {
          var snapshot := Snapshot(step.id, step.tool, step.args, plan, done, calls);
          var _ := approvals.CreateApproval(task, PlanStep(snapshot));
          return calls, Stopped(step.id, NeedsApproval(snapshot));
        }
        if gate != Go {
          return calls, Stopped(step.id, if gate == Unknown then NotRegistered else PolicyBlocked);
        }
        var args := ResolveArgs(gateway.tools, saved, step.args, true);
        if args.None? {
          return calls, Stopped(step.id, Unresolved);
        }
        var record := gateway.Call(Owner(task, step.id), step.tool, args.value);
        calls := calls + [Made(Resumed, step.id, step.saveAs, record)];
        if !record.success {
          return calls, Stopped(step.id, ToolFailed(record.error));
        }
        if step.saveAs.Some? && step.saveAs.value != "" {
          saved := saved[step.saveAs.value := InMemory(record)];
        }
        done := done + {step.id};
      }
      stop := Finished;
    }

    /** `_rebuild_saved`. */
    method RebuildSaved(calls: seq<CallData>) returns (saved: Saved)
      ensures saved == Rebuild(calls)
    {
      saved := map[];
      for i := 0 to |calls|
        invariant saved == Rebuild(calls[..i])
      {
        var c := calls[i];
        var key := if c.saveAs.Some? && c.saveAs.value != "" then c.saveAs.value else c.step;
        if key != "" && c.success && c.result != Null {
          saved := saved[key := FromPayload(c)];
        }
        assert calls[..i + 1][..i] == calls[..i];
      }
      assert calls[..|calls|] == calls;
    }

    /** `_find_save_as`. */
    method SaveAsOf(plan: Plan, step: string) returns (saveAs: Option<string>)
      ensures saveAs == FindSaveAs(plan, step)
    {
      for i := 0 to |plan|
        invariant FindSaveAs(plan, step) == FindSaveAs(plan[i..], step)
      {
        if plan[i].id == step {
          return plan[i].saveAs;
        }
      }
      saveAs := None;
    }

    /** The executor part of `_resume_multitool`. */
    method ResumeSnapshot(task: nat, snap: Snapshot) returns (calls: seq<CallData>, verdict: Verdict)
      modifies gateway`world, approvals
      ensures var r := Resume(gateway.tools, cfg, task, snap, old(gateway.world));
              && gateway.world == r.0.world && calls == r.0.calls && verdict == r.1
              && approvals.table == (if r.1.Continued? then AskedFor(old(approvals.table), task, r.1.stop)
                                     else old(approvals.table))
    {
      calls := snap.calls;
      var saved := RebuildSaved(snap.calls);
      var args := ResolveArgs(gateway.tools, saved, snap.args, true);
      if args.None? {
        return calls, ArgsUnresolved;
      }
      var record := gateway.Call(Owner(task, snap.step), snap.tool, args.value);
      var saveAs := SaveAsOf(snap.plan, snap.step);
      calls := calls + [Made(Resumed, snap.step, saveAs, record)];
      if !record.success {
        return calls, ApprovedStepFailed(record.error);
      }
      var done := snap.done + {snap.step};
      if saveAs.Some? && saveAs.value != "" {
        saved := saved[saveAs.value := InMemory(record)];
      }
      var stop;
      calls, stop := ExecuteSubsequentSteps(task, snap.plan, done, saved, calls);
      verdict := Continued(stop);
    }
  }
}
