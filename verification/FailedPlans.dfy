/** Plans that fail: where a first run stops, and what becomes of its task. */
module FailedPlans {
  import opened JsonValues
  import opened ToolGateways
  import opened MultiTool
  import opened PlanProgress
  import opened Stores
  import opened Machine

  /** The call of a step whose arguments resolve fails. */
  predicate CallFails(tools: Tools, task: nat, s: Step, st: Exec) {
    var args := ResolveArgs(tools, st.saved, s.args, false);
    args.Some? && !Last(CallTool(tools, st.world, Owner(task, s.id), s.tool, args.value)).success
  }

  /** The guards that make a step fail: a dependency, the registry, the policy, a reference, the call. */
  predicate Fails(tools: Tools, cfg: Config, task: nat, s: Step, st: Exec) {
    || Missing(s.deps, st.done) != []
    || s.tool !in tools.registry
    || GateOf(tools, cfg, s.tool) == Refuse
    || (GateOf(tools, cfg, s.tool) == Go && (ResolveArgs(tools, st.saved, s.args, false).None? || CallFails(tools, task, s, st)))
  }

  /** The guard that makes a step wait. */
  predicate Waits(tools: Tools, cfg: Config, s: Step, st: Exec) {
    Missing(s.deps, st.done) == [] && GateOf(tools, cfg, s.tool) == Ask
  }

  lemma AdvanceByGuards(tools: Tools, cfg: Config, task: nat, plan: Plan, s: Step, st: Exec, p: Progress)
    requires p == Advance(tools, cfg, FirstRun, task, plan, s, st)
    ensures p.Halt? && !p.why.NeedsApproval? <==> Fails(tools, cfg, task, s, st)
    ensures p.Halt? && p.why.NeedsApproval? <==> Waits(tools, cfg, s, st)
  {
  }

  /** A first run does the steps before `j`, in order, and stops at step `j` by one of its guards; or
      it does all steps. */
  lemma {:induction false} StopsByAGuard(tools: Tools, cfg: Config, task: nat, plan: Plan, k: nat, st: Exec, run: (Exec, Stop))
    returns (j: nat, at: Exec)
    requires k <= |plan| && AtStep(plan, k, st.done, st.calls) && run == RunFrom(tools, cfg, FirstRun, task, plan, k, st)
    ensures k <= j <= |plan| && AtStep(plan, j, at.done, at.calls) && run == RunFrom(tools, cfg, FirstRun, task, plan, j, at)
    ensures run.1.Finished? <==> j == |plan|
    ensures run.1.Stopped? ==> run.1.step == plan[j].id
    ensures run.1.Stopped? && !run.1.why.NeedsApproval? <==> j < |plan| && Fails(tools, cfg, task, plan[j], at)
    ensures run.1.Stopped? && run.1.why.NeedsApproval? <==> j < |plan| && Waits(tools, cfg, plan[j], at)
    decreases |plan| - k
  {
    j, at := k, st;
    if k < |plan| {
      var p := Advance(tools, cfg, FirstRun, task, plan, plan[k], st);
      AdvanceByGuards(tools, cfg, task, plan, plan[k], st, p);
      RunStep(tools, cfg, FirstRun, task, plan, k, st, p, run);
      if p.Next? {
        AdvanceDoesStep(tools, cfg, task, plan, k, st, p);
        j, at := StopsByAGuard(tools, cfg, task, plan, k + 1, p.st, run);
      }
    }
  }

  lemma AdvanceDoesStep(tools: Tools, cfg: Config, task: nat, plan: Plan, k: nat, st: Exec, p: Progress)
    requires k < |plan| && AtStep(plan, k, st.done, st.calls)
    requires p == Advance(tools, cfg, FirstRun, task, plan, plan[k], st) && p.Next?
    ensures AtStep(plan, k + 1, p.st.done, p.st.calls)
  {
    AtNextStep(plan, k, st.done, st.calls, Made(FirstRun, plan[k].id, plan[k].saveAs, Last(p.st.world)));
  }

  /** A submitted plan's task is `completed` although the plan did not finish, exactly if the plan
      stops at a step that fails by one of its guards; it waits exactly if it stops at a step that
      needs an approval. */
  lemma FailedPlanIsCompleted(env: Env, s: Sys, plan: Plan) returns (j: nat, at: Exec)
    ensures var t, s' := s.tasks.next, SubmitPlan(env, s, plan);
            var run := Run(env.tools, Cfg(env), t, plan, s.world);
            && j <= |plan| && AtStep(plan, j, at.done, at.calls)
            && run == RunFrom(env.tools, Cfg(env), FirstRun, t, plan, j, at)
            && (s'.tasks.rows[t].status == Completed && !run.1.Finished?
                <==> j < |plan| && Fails(env.tools, Cfg(env), t, plan[j], at))
            && (s'.tasks.rows[t].status == WaitingApproval <==> j < |plan| && Waits(env.tools, Cfg(env), plan[j], at))
            && (run.1.Finished? <==> j == |plan|)
  {
    var t := s.tasks.next;
    j, at := StopsByAGuard(env.tools, Cfg(env), t, plan, 0, Exec(s.world, {}, map[], []),
                           Run(env.tools, Cfg(env), t, plan, s.world));
  }

  /** The same stop after an approval makes the task `failed`. */
  lemma ResumedPlanIsFailed(st: Exec, stop: Stop, newApproval: nat)
    ensures PlanResult(st, Continued(stop), newApproval).1
            == Some(match stop
                    case Finished => Completed
                    case Stopped(_, why) => if why.NeedsApproval? then WaitingApproval else Failed)
  {
  }

  /** A plan of one step whose tool is not registered: nothing is called, and the task is completed. */
  lemma UnregisteredPlanIsCompleted(env: Env, s: Sys, step: Step)
    requires step.deps == [] && step.tool !in env.tools.registry
    ensures var t, s' := s.tasks.next, SubmitPlan(env, s, [step]);
            && s'.world == s.world && s'.tasks.rows[t].status == Completed
            && Run(env.tools, Cfg(env), t, [step], s.world).1 == Stopped(step.id, NotRegistered)
  {
    var start := Exec(s.world, {}, map[], []);
    var p := Advance(env.tools, Cfg(env), FirstRun, s.tasks.next, [step], step, start);
    RunStep(env.tools, Cfg(env), FirstRun, s.tasks.next, [step], 0, start, p,
            Run(env.tools, Cfg(env), s.tasks.next, [step], s.world));
  }
}
