/** The whole system as a state machine over its API operations: task submission in keyword,
    multi-tool and graph mode, the approve, reject and resume handlers, and checkpoint expiry.
    Each handler runs without suspension, so each operation is one step. */
module Machine {
  import opened JsonValues
  import opened ToolGateways
  import opened Policies
  import opened MultiTool
  import opened Stores

  datatype Sys = Sys(approvals: ApprovalTable, tasks: TaskTable, checkpoints: CheckpointTable, world: World)

  /** `injected` is the prompt-injection guard's verdict on a stored payload. */
  datatype Env = Env(tools: Tools, whitelist: bool, injected: Payload -> bool)

  function Cfg(env: Env): Config {
    Config(Some(Policy(env.whitelist, false)), true)
  }

  function Empty(world: World): Sys {
    Sys(ApprovalTable(map[], 0), TaskTable(map[], 0), CheckpointTable(map[], 0), world)
  }

  // ---------- Submitting a task ----------

  /** `save_task` under the next task id. */
  function Saved(s: Sys, status: TaskStatus, plan: Option<Plan>): Sys {
    s.(tasks := TaskTable(s.tasks.rows[s.tasks.next := Task(status, plan)], s.tasks.next + 1))
  }

  function Requested(s: Sys, task: nat, work: Work): Sys {
    s.(approvals := Insert(s.approvals, NewApproval(task, work)))
  }

  function Called(env: Env, s: Sys, owner: Owner, tool: string, args: Args): Sys {
    s.(world := CallTool(env.tools, s.world, owner, tool, args))
  }

  /** `AgentKernel.run` on the planned call; a tool that is not registered is passed to the gateway. */
  function SubmitKeyword(env: Env, s: Sys, planned: Option<(string, Args)>): Sys {
    var t := s.tasks.next;
    if planned.None? then Saved(s, Completed, None)
    else
      var (tool, args) := planned.value;
      match GateOf(env.tools, Cfg(env), tool)
      case Ask => Saved(Requested(s, t, KeywordCall(tool, args)), WaitingApproval, None)
      case Refuse => Saved(s, Completed, None)
      case _ => Saved(Called(env, s, Owner(t, ""), tool, args), Completed, None)
  }

  /** `AgentKernel._run_multitool`: a plan that fails leaves its task completed. */
  function SubmitPlan(env: Env, s: Sys, plan: Plan): Sys {
    var t := s.tasks.next;
    var run := Run(env.tools, Cfg(env), t, plan, s.world);
    var s' := s.(world := run.0.world);
    if run.1.Stopped? && run.1.why.NeedsApproval?
    then Saved(Requested(s', t, PlanStep(run.1.why.snapshot)), WaitingApproval, Some(plan))
    else Saved(s', Completed, Some(plan))
  }

  function Staged(s: Sys, stage: string, status: CheckpointStatus): Sys {
    s.(checkpoints := AddCheckpoint(s.checkpoints, NewCheckpoint(s.tasks.next, stage, status, None)))
  }

  /** `GraphRuntimeAdapter.run_keyword`. It asks for an approval exactly for high-risk tools; the
      policy's refusal of any other tool is not looked at. */
  function SubmitGraph(env: Env, s: Sys, planned: Option<string>): Sys {
    var t := s.tasks.next;
    var s1 := Staged(Staged(s, "assemble_context", StageRunning), "plan", StageRunning);
    if planned.None? then Saved(Staged(s1, "respond", StageCompleted), Failed, None)
    else
      var tool := planned.value;
      if tool !in env.tools.registry then Saved(Staged(s1, "respond", StageFailed), Failed, None)
      else if env.tools.registry[tool].risk == High then
        var c := s1.checkpoints.next;
        var a := s1.approvals.next;
        var s2 := Requested(Staged(s1, "execute", Interrupted), t, GraphCall(tool, [], Some(c)));
        Saved(s2.(checkpoints := MarkPendingInterrupt(s2.checkpoints, c, a)), WaitingApproval, None)
      else
        var s2 := Called(env, s1, Owner(t, ""), tool, []);
        var ok := Last(s2.world).success;
        var s3 := Staged(Staged(s2, "execute", StageRunning), "verify", StageRunning);
        Saved(Staged(s3, "respond", if ok then StageCompleted else StageFailed), if ok then Completed else Failed, None)
  }

  // ---------- Resuming ----------

  datatype Answer =
    | NoSuchApproval
    | NotApproved(status: ApprovalStatus)
    | AlreadyResumed(result: Option<ResumeResult>)
    | InjectionBlocked
    | Tampered
    | MissingCheckpoint
    | CheckpointGone(state: CheckpointStatus)
    | ClaimFailed
    | Attempted(outcome: ResumeResult)

  /** `check_payload_integrity`. */
  predicate Intact(a: Approval) {
    && (ToolOf(a.payload.work) != "" ==> ToolOf(a.payload.work) == a.tool)
    && (a.payload.work.PlanStep? && a.payload.work.snapshot.step != "" ==>
          exists i | 0 <= i < |a.payload.work.snapshot.plan| ::
            a.payload.work.snapshot.plan[i].id == a.payload.work.snapshot.step)
  }

  /** The answer for a checkpoint that could not be claimed. */
  function ClaimLost(t: CheckpointTable, c: nat): Answer {
    if c in t.rows && t.rows[c].consumed && t.rows[c].status in {CheckpointResumed, StageCompleted}
    then AlreadyResumed(t.rows[c].snapshot)
    else if c in t.rows && t.rows[c].status in {CheckpointCancelled, Expired} then CheckpointGone(t.rows[c].status)
    else ClaimFailed
  }

  /** The result of a single resumed call in keyword and in graph mode. */
  function CallResult(r: Record, graph: bool): ResumeResult {
    ResumeResult(r.success, true, graph || r.success, if r.success then ResumeCompleted else ResumeFailed,
                 r.result, r.error, [], None)
  }

  /** The result of `_resume_multitool`, and the task status it sets, if any. */
  function PlanResult(st: Exec, v: Verdict, newApproval: nat): (r: (ResumeResult, Option<TaskStatus>)) {
    match v
    case ArgsUnresolved => (ResumeResult(false, false, false, ResumeFailed, Null, Null, [], None), None)
    case ApprovedStepFailed(error) => (ResumeResult(false, true, false, ResumeFailed, Null, error, st.calls, None), Some(Failed))
    case Continued(Finished) => (ResumeResult(true, true, true, ResumeCompleted, Null, Null, st.calls, None), Some(Completed))
    case Continued(Stopped(_, NeedsApproval(_))) =>
      (ResumeResult(false, true, true, ResumeWaiting, Null, Null, st.calls, Some(newApproval)), Some(WaitingApproval))
    case Continued(Stopped(_, why)) =>
      (ResumeResult(false, true, true, DownstreamFailed, Null, if why.ToolFailed? then why.error else Null, st.calls, None),
       Some(Failed))
  }

  /** The approval that a resumed plan asks for next. */
  function NextWork(v: Verdict): Option<Work> {
    if v.Continued? && v.stop.Stopped? && v.stop.why.NeedsApproval? then Some(PlanStep(v.stop.why.snapshot)) else None
  }

  function WithStatus(s: Sys, task: nat, status: Option<TaskStatus>): Sys {
    if status.Some? then s.(tasks := SetStatus(s.tasks, task, status.value)) else s
  }

  /** The payload update that closes every attempt outside graph mode. */
  function Recorded(s: Sys, id: nat, r: ResumeResult): Sys {
    s.(approvals := UpdatePayload(s.approvals, id, if r.consumed then Consumed(r) else NotConsumed(r)))
  }

  function ResumeKeyword(env: Env, s: Sys, id: nat, a: Approval): (Sys, Answer)
    requires a.payload.work.KeywordCall?
  {
    var s1 := Called(env, s, Owner(a.task, ""), a.payload.work.tool, a.payload.work.args);
    var r := CallResult(Last(s1.world), false);
    (Recorded(WithStatus(s1, a.task, Some(if r.success then Completed else Failed)), id, r), Attempted(r))
  }

  function ResumePlan(env: Env, s: Sys, id: nat, a: Approval): (Sys, Answer)
    requires a.payload.work.PlanStep?
  {
    var (st, v) := Resume(env.tools, Cfg(env), a.task, a.payload.work.snapshot, s.world);
    var s1 := s.(world := st.world);
    var next := NextWork(v);
    var s2 := if next.Some? then Requested(s1, a.task, next.value) else s1;
    var (r, status) := PlanResult(st, v, s.approvals.next);
    (Recorded(WithStatus(s2, a.task, status), id, r), Attempted(r))
  }

  function ResumeGraph(env: Env, s: Sys, id: nat, a: Approval, now: int): (Sys, Answer)
    requires a.payload.work.GraphCall? && a.payload.work.checkpoint.Some?
  {
    var c := a.payload.work.checkpoint.value;
    if !Claimable(s.checkpoints, c, id, now) then (s, ClaimLost(s.checkpoints, c))
    else
      var s1 := s.(checkpoints := Claim(s.checkpoints, c, id, now));
      var s2 := Called(env, s1, Owner(a.task, ""), a.payload.work.graphTool, a.payload.work.graphArgs);
      var r := CallResult(Last(s2.world), true);
      var s3 := WithStatus(s2, a.task, Some(if r.success then Completed else Failed));
      var s4 := s3.(checkpoints := MarkResumed(s3.checkpoints, c, r));
      (s4.(approvals := UpdatePayload(s4.approvals, id, Consumed(r))), Attempted(r))
  }

  /** `ApprovalResumeService.resume`. */
  function ServiceResume(env: Env, s: Sys, id: nat, now: int): (Sys, Answer) {
    if id !in s.approvals.rows then (s, NoSuchApproval)
    else
      var a := s.approvals.rows[id];
      if a.status != Approved then (s, NotApproved(a.status))
      else if a.payload.resumed then (s, AlreadyResumed(a.payload.result))
      else if a.payload.work.GraphCall? then
        if a.payload.work.checkpoint.None? then (s, MissingCheckpoint) else ResumeGraph(env, s, id, a, now)
      else if !Intact(a) then (s, Tampered)
      else match a.payload.work
        case KeywordCall(_, _) => ResumeKeyword(env, s, id, a)
        case PlanStep(_) => ResumePlan(env, s, id, a)
        case _ =>
          var r := ResumeResult(false, false, false, ResumeFailed, Null, Str("unsupported resume mode"), [], None);
          (Recorded(s, id, r), Attempted(r))
  }

  /** `_do_resume`: the injection guard in front of the service. */
  function DoResume(env: Env, s: Sys, id: nat, now: int): (Sys, Answer) {
    if id in s.approvals.rows && env.injected(s.approvals.rows[id].payload) then (s, InjectionBlocked)
    else ServiceResume(env, s, id, now)
  }

  /** The resume handler answers for an approval that is not approved, or is consumed, before the
      guard is asked. */
  function HandleResume(env: Env, s: Sys, id: nat, now: int): (Sys, Answer) {
    if id !in s.approvals.rows then (s, NoSuchApproval)
    else if s.approvals.rows[id].status != Approved then (s, NotApproved(s.approvals.rows[id].status))
    else if s.approvals.rows[id].payload.resumed then (s, AlreadyResumed(s.approvals.rows[id].payload.result))
    else DoResume(env, s, id, now)
  }

  // ---------- The operations ----------

  datatype Request =
    | PostKeyword(planned: Option<(string, Args)>)
    | PostPlan(plan: Plan)
    | PostGraph(tool: Option<string>)
    | PostApprove(id: nat, autoResume: bool, now: int)
    | PostReject(id: nat)
    | PostResume(id: nat, now: int)
    | ExpireCheckpoints(now: int)

  function Approve(env: Env, s: Sys, id: nat, autoResume: bool, now: int): Sys {
    if id !in s.approvals.rows || s.approvals.rows[id].payload.resumed || s.approvals.rows[id].status == Rejected then s
    else
      var s1 := s.(approvals := DecidePending(s.approvals, id, Approved));
      if autoResume then DoResume(env, s1, id, now).0 else s1
  }

  function Reject(s: Sys, id: nat): Sys {
    if id !in s.approvals.rows || s.approvals.rows[id].status != Pending then s
    else
      var a := s.approvals.rows[id];
      var s1 := s.(approvals := DecidePending(s.approvals, id, Rejected));
      var s2 := WithStatus(s1, a.task, Some(Cancelled));
      if a.payload.work.GraphCall? && a.payload.work.checkpoint.Some?
      then s2.(checkpoints := MarkCancelled(s2.checkpoints, a.payload.work.checkpoint.value))
      else s2
  }

  function Handle(env: Env, s: Sys, req: Request): Sys {
    match req
    case PostKeyword(planned) => SubmitKeyword(env, s, planned)
    case PostPlan(plan) => SubmitPlan(env, s, plan)
    case PostGraph(tool) => SubmitGraph(env, s, tool)
    case PostApprove(id, autoResume, now) => Approve(env, s, id, autoResume, now)
    case PostReject(id) => Reject(s, id)
    case PostResume(id, now) => HandleResume(env, s, id, now).0
    case ExpireCheckpoints(now) => s.(checkpoints := ExpireOld(s.checkpoints, now))
  }

  function Serve(env: Env, s: Sys, reqs: seq<Request>): Sys {
    if reqs == [] then s else Handle(env, Serve(env, s, reqs[..|reqs| - 1]), reqs[|reqs| - 1])
  }
}
