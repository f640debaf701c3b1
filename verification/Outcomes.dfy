/** What a request leaves in the stores, read off the gateway's log: one request at a time, and for the
    approvals of every reachable state. */
module Outcomes {
  import opened JsonValues
  import opened ToolGateways
  import opened Policies
  import opened MultiTool
  import opened PlanProgress
  import opened Stores
  import opened Machine
  import opened Safety
  import opened Reachability
  import opened Runs

  // ---------- Single requests ----------

  /** An approval is asked for exactly for high-risk tools; the whitelist refuses exactly the other
      tools that write. */
  lemma GateIs(env: Env, tool: string)
    ensures GateOf(env.tools, Cfg(env), tool) == Unknown <==> tool !in env.tools.registry
    ensures tool in env.tools.registry ==>
      var spec := env.tools.registry[tool];
      var writes := spec.scope == "write" || spec.scope == "admin" || spec.scope == "schema";
      && (GateOf(env.tools, Cfg(env), tool) == Ask <==> spec.risk == High)
      && (GateOf(env.tools, Cfg(env), tool) == Refuse <==> spec.risk != High && env.whitelist && writes)
      && (GateOf(env.tools, Cfg(env), tool) == Go <==> spec.risk != High && !(env.whitelist && writes))
  {
  }

  /** The calls of a task, in the order of the log. */
  function CallsOf(calls: seq<Call>, task: nat): seq<Record> {
    if calls == [] then []
    else
      var c := calls[|calls| - 1];
      CallsOf(calls[..|calls| - 1], task) + if c.owner.task == task then [c.record] else []
  }

  /** The result of a resume attempt says what the record of its call says. */
  predicate Reports(r: ResumeResult, c: Record) {
    && r.executed && r.success == c.success && r.data == c.result && r.error == c.error
    && r.status == (if c.success then ResumeCompleted else ResumeFailed) && r.calls == [] && r.newApproval == None
  }

  predicate Unused(p: Payload) {
    !p.resumed && p.attempts == 0 && p.result == None && p.lastFailure == None
  }

  /** A new task asks for a call or a plan step, and has just been told so. */
  ghost predicate AsksFor(s: Sys, s': Sys, work: Work) {
    && s.tasks.next in s'.tasks.rows && s'.tasks.rows[s.tasks.next].status == WaitingApproval
    && s'.approvals.rows.Keys == s.approvals.rows.Keys + {s.approvals.next}
    && s.approvals.next in s'.approvals.rows
    && var a := s'.approvals.rows[s.approvals.next];
       && a.status == Pending && a.task == s.tasks.next && a.tool == ToolOf(work) && a.payload.work == work && Unused(a.payload)
  }

  /** A keyword task waits exactly for a high-risk tool, and calls nothing then. Any other ends
      completed, whatever its call brings; the call is left out if the whitelist refuses the tool. */
  lemma KeywordSubmitted(env: Env, s: Sys, tool: string, args: Args, s': Sys)
    requires KeysOk(s.approvals, s.tasks) && s' == Handle(env, s, PostKeyword(Some((tool, args))))
    ensures HighRisk(env.tools, tool) ==>
      s'.world == s.world && s.approvals.next !in s.approvals.rows && AsksFor(s, s', KeywordCall(tool, args))
    ensures !HighRisk(env.tools, tool) ==>
      && s.tasks.next in s'.tasks.rows && s'.tasks.rows[s.tasks.next].status == Completed && s'.approvals == s.approvals
      && if GateOf(env.tools, Cfg(env), tool) == Refuse then s'.world == s.world
         else |s'.world.calls| == |s.world.calls| + 1 && Last(s'.world).tool == tool && Last(s'.world).args == args
  {
    GateIs(env, tool);
  }

  /** A graph task waits for a high-risk tool behind an interrupted checkpoint that its approval
      names; any other ends completed exactly if its call succeeds. */
  lemma GraphSubmitted(env: Env, s: Sys, tool: string, s': Sys)
    requires KeysOk(s.approvals, s.tasks) && s' == Handle(env, s, PostGraph(Some(tool)))
    ensures HighRisk(env.tools, tool) ==>
      && s'.world == s.world && s.approvals.next !in s.approvals.rows
      && exists c | c in s'.checkpoints.rows ::
           && AsksFor(s, s', GraphCall(tool, [], Some(c)))
           && s'.checkpoints.rows[c] ==
              Checkpoint(s.tasks.next, "execute", Interrupted, Some(s.approvals.next), false, None, 0, None)
    ensures !HighRisk(env.tools, tool) ==>
      && s.tasks.next in s'.tasks.rows && s'.approvals == s.approvals
      && (s'.world == s.world <==> tool !in env.tools.registry)
      && (s'.tasks.rows[s.tasks.next].status == Completed <==> s'.world != s.world && Last(s'.world).success)
      && s'.tasks.rows[s.tasks.next].status in {Completed, Failed}
  {
    var c := s.checkpoints.next + 2;
    assert HighRisk(env.tools, tool) ==> c in s'.checkpoints.rows;
  }

  /** A plan's task waits exactly if the run pauses, for an approval of the step it pauses at; it is
      completed otherwise, whether or not the plan finished. */
  lemma PlanSubmitted(env: Env, s: Sys, plan: Plan, s': Sys, run: (Exec, Stop))
    requires KeysOk(s.approvals, s.tasks) && s' == Handle(env, s, PostPlan(plan))
    requires run == Run(env.tools, Cfg(env), s.tasks.next, plan, s.world)
    ensures s'.world == run.0.world && s.tasks.next in s'.tasks.rows && s'.tasks.rows[s.tasks.next].plan == Some(plan)
    ensures if run.1.Stopped? && run.1.why.NeedsApproval?
            then s.approvals.next !in s.approvals.rows && AsksFor(s, s', PlanStep(run.1.why.snapshot))
            else s'.tasks.rows[s.tasks.next].status == Completed && s'.approvals == s.approvals
  {
  }

  /** A resumed keyword call: exactly the approved call is made. If it succeeds, the approval is
      consumed and the task completed; otherwise the attempt is counted and the task failed. */
  lemma KeywordResumed(env: Env, s: Sys, id: nat, s': Sys)
    requires Resumable(s.approvals, id) && s.approvals.rows[id].payload.work.KeywordCall?
    requires s' == ResumeKeyword(env, s, id, s.approvals.rows[id]).0
    ensures var a := s.approvals.rows[id];
            var c := Last(s'.world);
            && s'.world.calls == s.world.calls + [Logged(Owner(a.task, ""), c)]
            && c.tool == a.payload.work.tool && c.args == a.payload.work.args
            && s'.checkpoints == s.checkpoints
            && s'.tasks == SetStatus(s.tasks, a.task, if c.success then Completed else Failed)
            && s'.approvals == s.approvals.(rows := s.approvals.rows[id := a.(payload := s'.approvals.rows[id].payload)])
    ensures var p := s.approvals.rows[id].payload;
            var p' := s'.approvals.rows[id].payload;
            var c := Last(s'.world);
            && p'.work == p.work && p'.resumed == c.success
            && (if c.success
                then p'.result.Some? && Reports(p'.result.value, c) && p'.attempts == p.attempts && p'.lastFailure == p.lastFailure
                else p'.lastFailure.Some? && Reports(p'.lastFailure.value, c) && p'.attempts == p.attempts + 1 && p'.result == p.result)
  {
  }

  /** A graph approval is resumed exactly while its checkpoint is interrupted for it, unconsumed and
      not past its expiry. */
  lemma GraphResumesIff(env: Env, s: Sys, id: nat, now: int)
    requires Resumable(s.approvals, id) && s.approvals.rows[id].payload.work.GraphCall?
    requires s.approvals.rows[id].payload.work.checkpoint.Some?
    ensures var c := s.approvals.rows[id].payload.work.checkpoint.value;
            ResumeGraph(env, s, id, s.approvals.rows[id], now).0 != s <==>
              && c in s.checkpoints.rows && s.checkpoints.rows[c].approval == Some(id)
              && s.checkpoints.rows[c].status == Interrupted && !s.checkpoints.rows[c].consumed
              && (s.checkpoints.rows[c].expiresAt == None || now < s.checkpoints.rows[c].expiresAt.value)
  {
    var a := s.approvals.rows[id];
    var called := CallTool(env.tools, s.world, Owner(a.task, ""), a.payload.work.graphTool, a.payload.work.graphArgs);
    assert |called.calls| == |s.world.calls| + 1;
  }

  /** A resumed graph call: exactly the approved call is made, and its approval and checkpoint are
      consumed with its result, whatever it is. */
  lemma GraphResumed(env: Env, s: Sys, id: nat, now: int, s': Sys)
    requires Resumable(s.approvals, id) && s.approvals.rows[id].payload.work.GraphCall?
    requires s.approvals.rows[id].payload.work.checkpoint.Some?
    requires s' == ResumeGraph(env, s, id, s.approvals.rows[id], now).0 && s' != s
    ensures var a := s.approvals.rows[id];
            var c := Last(s'.world);
            && s'.world.calls == s.world.calls + [Logged(Owner(a.task, ""), c)]
            && c.tool == a.payload.work.graphTool && c.args == a.payload.work.graphArgs
            && s'.tasks == SetStatus(s.tasks, a.task, if c.success then Completed else Failed)
            && s'.approvals == s.approvals.(rows := s.approvals.rows[id := a.(payload := s'.approvals.rows[id].payload)])
    ensures var p := s.approvals.rows[id].payload;
            var p' := s'.approvals.rows[id].payload;
            var row := p.work.checkpoint.value;
            && p'.work == p.work && p'.resumed && p'.result.Some? && Reports(p'.result.value, Last(s'.world))
            && p'.attempts == p.attempts && p'.lastFailure == p.lastFailure
            && row in s'.checkpoints.rows && s'.checkpoints.rows[row].consumed
            && s'.checkpoints.rows[row].status == CheckpointResumed && s'.checkpoints.rows[row].snapshot == p'.result
  {
  }

  /** A resumed plan. Only an attempt that gets past the approved step consumes the approval. The task
      is completed if the plan then finishes, waits for a new approval of the step it pauses at, and is
      failed by everything else but unresolved arguments, which leave it as it was. */
  lemma PlanResumed(env: Env, s: Sys, id: nat, s': Sys, st: Exec, v: Verdict)
    requires KeysOk(s.approvals, s.tasks) && Resumable(s.approvals, id) && s.approvals.rows[id].payload.work.PlanStep?
    requires (st, v) == Resume(env.tools, Cfg(env), s.approvals.rows[id].task, s.approvals.rows[id].payload.work.snapshot, s.world)
    requires s' == ResumePlan(env, s, id, s.approvals.rows[id]).0
    ensures s'.world == st.world && s'.checkpoints == s.checkpoints && id in s'.approvals.rows
    ensures var a := s.approvals.rows[id];
            var p := s'.approvals.rows[id].payload;
            var row := s.approvals.rows[id := a.(payload := p)];
            && p.work == a.payload.work && (p.resumed <==> v.Continued?)
            && (if v.Continued?
                then p.result.Some? && p.result.value.executed && p.attempts == a.payload.attempts && p.lastFailure == a.payload.lastFailure
                else p.lastFailure.Some? && !p.lastFailure.value.success && p.result == a.payload.result
                     && p.attempts == a.payload.attempts + 1 && (p.lastFailure.value.executed <==> v.ApprovedStepFailed?))
            && match v
               case ArgsUnresolved => s'.tasks == s.tasks && s'.approvals == s.approvals.(rows := row)
               case ApprovedStepFailed(_) =>
                 s'.tasks == SetStatus(s.tasks, a.task, Failed) && s'.approvals == s.approvals.(rows := row)
               case Continued(stop) =>
                 var r := p.result.value;
                 if stop.Finished? then
                   && s'.tasks == SetStatus(s.tasks, a.task, Completed) && s'.approvals == s.approvals.(rows := row)
                   && r.success && r.status == ResumeCompleted && r.newApproval == None
                 else if stop.why.NeedsApproval? then
                   && s'.tasks == SetStatus(s.tasks, a.task, WaitingApproval)
                   && s.approvals.next in s'.approvals.rows
                   && s'.approvals.rows == row[s.approvals.next := s'.approvals.rows[s.approvals.next]]
                   && var b := s'.approvals.rows[s.approvals.next];
                      && b.task == a.task && b.status == Pending && b.tool == stop.why.snapshot.tool
                      && b.payload.work == PlanStep(stop.why.snapshot) && Unused(b.payload)
                      && !r.success && r.status == ResumeWaiting && r.newApproval == Some(s.approvals.next)
                 else
                   && s'.tasks == SetStatus(s.tasks, a.task, Failed) && s'.approvals == s.approvals.(rows := row)
                   && !r.success && r.status == DownstreamFailed && r.newApproval == None
  {
  }
}
