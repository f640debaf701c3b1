/** From the API to the law: a plan that is submitted, and whose approvals are all granted with
    automatic resume, makes the calls of the run that never pauses. */
module EndToEnd {
  import opened JsonValues
  import opened ToolGateways
  import opened MultiTool
  import opened PlanProgress
  import opened Transparency
  import opened Stores
  import opened Machine
  import opened Safety
  import opened Reachability

  /** The newest approval, if it is pending and asks for task `t`. */
  predicate Asks(at: ApprovalTable, t: nat) {
    && at.next > 0 && at.next - 1 in at.rows
    && at.rows[at.next - 1].status == Pending && at.rows[at.next - 1].task == t
  }

  /** `s'` is the state after the request that grants, at time `now` and with automatic resume, the
      approval that task `t` asks for. */
  ghost predicate Grants(env: Env, s: Sys, t: nat, now: int, s': Sys) {
    Asks(s.approvals, t) && s' == Handle(env, s, PostApprove(s.approvals.next - 1, true, now))
  }

  /** A run that grants task `t`, one after the other, every approval it asks for. */
  ghost predicate GrantsAll(env: Env, t: nat, states: seq<Sys>, times: seq<int>) {
    && |states| == |times| + 1
    && (forall i | 0 <= i < |times| :: Grants(env, states[i], t, times[i], states[i + 1]))
    && !Asks(states[|times|].approvals, t)
  }

  /** Task `t` waits for the approval of `snap`, which is the newest one. */
  ghost predicate WaitsFor(env: Env, s: Sys, t: nat, plan: Plan, snap: Snapshot, a: nat) {
    && Inv(env, s) && s.approvals.next == a + 1 && snap.plan == plan
    && a in s.approvals.rows && s.approvals.rows[a] == NewApproval(t, PlanStep(snap))
  }

  /** The guard blocks no payload of the plan. */
  ghost predicate NothingInjected(env: Env, plan: Plan) {
    forall p: Payload | p.work.PlanStep? && p.work.snapshot.plan == plan :: !env.injected(p)
  }

  /** The approved row can be resumed: its payload passes the integrity check. */
  lemma ApprovedIsIntact(env: Env, s: Sys, t: nat, plan: Plan, snap: Snapshot, a: nat, row: Approval)
    requires WaitsFor(env, s, t, plan, snap, a) && row == NewApproval(t, PlanStep(snap)).(status := Approved)
    ensures Intact(row)
  {
    assert WorkOk(s.approvals.rows[a], s.tasks, s.world.calls);
    assert snap.plan[|snap.calls|].id == snap.step;
  }

  /** Granting the approval is resuming it. */
  lemma GrantResumes(env: Env, s: Sys, a: nat, now: int, s1: Sys, row: Approval)
    requires a in s.approvals.rows && s.approvals.rows[a].status == Pending && !s.approvals.rows[a].payload.resumed
    requires s1 == s.(approvals := DecidePending(s.approvals, a, Approved)) && row == s.approvals.rows[a].(status := Approved)
    requires row.payload.work.PlanStep? && Intact(row) && NothingInjected(env, row.payload.work.snapshot.plan)
    ensures Handle(env, s, PostApprove(a, true, now)) == ResumePlan(env, s1, a, row).0
  {
    assert s1.approvals.rows[a] == row;
    assert Handle(env, s, PostApprove(a, true, now)) == ServiceResume(env, s1, a, now).0;
  }

  /** What the API and the executor have in common after an attempt that ended with `stop`. */
  ghost predicate Together(env: Env, s: Sys, t: nat, plan: Plan, stop: Stop, a: nat) {
    if Paused(stop) then WaitsFor(env, s, t, plan, stop.why.snapshot, a) else !Asks(s.approvals, t)
  }

  /** Two payloads of a task whose plan did not change in between. */
  lemma SamePlan(env: Env, s: Sys, a: nat, s': Sys, b: nat)
    requires Inv(env, s) && Inv(env, s') && a in s.approvals.rows && b in s'.approvals.rows
    requires s.approvals.rows[a].payload.work.PlanStep? && s'.approvals.rows[b].payload.work.PlanStep?
    requires var t := s.approvals.rows[a].task;
             && s'.approvals.rows[b].task == t && t in s.tasks.rows && t in s'.tasks.rows
             && s'.tasks.rows[t].plan == s.tasks.rows[t].plan
    ensures s'.approvals.rows[b].payload.work.snapshot.plan == s.approvals.rows[a].payload.work.snapshot.plan
  {
    assert WorkOk(s.approvals.rows[a], s.tasks, s.world.calls);
    assert WorkOk(s'.approvals.rows[b], s'.tasks, s'.world.calls);
  }

  lemma AskedAgain(env: Env, s: Sys, t: nat, plan: Plan, stop: Stop, a: nat)
    requires Paused(stop) && Inv(env, s) && s.approvals.next == a + 1 && stop.why.snapshot.plan == plan
    requires a in s.approvals.rows && s.approvals.rows[a] == NewApproval(t, PlanStep(stop.why.snapshot))
    ensures Together(env, s, t, plan, stop, a)
  {
  }

  /** What a resumed plan leaves as the newest approval. */
  lemma NewestAfterResume(env: Env, s1: Sys, a: nat, row: Approval, r: (Exec, Verdict), s2: Sys)
    requires Resumable(s1.approvals, a) && s1.approvals.rows[a] == row && row.payload.work.PlanStep?
    requires s1.approvals.next == a + 1
    requires r == Resume(env.tools, Cfg(env), row.task, row.payload.work.snapshot, s1.world)
    requires s2 == ResumePlan(env, s1, a, row).0
    ensures s2.world == r.0.world
    ensures forall t | t in s1.tasks.rows :: t in s2.tasks.rows && s2.tasks.rows[t].plan == s1.tasks.rows[t].plan
    ensures var stop := StopOf(row.payload.work.snapshot, r.1);
            if Paused(stop) then && s2.approvals.next == a + 2 && a + 1 in s2.approvals.rows
                                 && s2.approvals.rows[a + 1] == NewApproval(row.task, PlanStep(stop.why.snapshot))
            else !Asks(s2.approvals, row.task)
  {
    PlanStores(env, s1, a, s2, r.0, r.1);
  }

  lemma ResumeAsksAgain(env: Env, s1: Sys, a: nat, row: Approval, r: (Exec, Verdict), s2: Sys)
    requires Inv(env, s1) && Resumable(s1.approvals, a) && s1.approvals.rows[a] == row && row.payload.work.PlanStep?
    requires s1.approvals.next == a + 1
    requires r == Resume(env.tools, Cfg(env), row.task, row.payload.work.snapshot, s1.world)
    requires s2 == ResumePlan(env, s1, a, row).0
    ensures s2.world == r.0.world
    ensures Together(env, s2, row.task, row.payload.work.snapshot.plan, StopOf(row.payload.work.snapshot, r.1), a + 1)
  {
    NewestAfterResume(env, s1, a, row, r, s2);
    PlanResumeKeepsInv(env, s1, a);
    var stop := StopOf(row.payload.work.snapshot, r.1);
    if Paused(stop) {
      SamePlan(env, s1, a, s2, a + 1);
      AskedAgain(env, s2, row.task, row.payload.work.snapshot.plan, stop, a + 1);
    }
  }

  /** One granted approval. */
  lemma GrantOne(env: Env, s: Sys, t: nat, plan: Plan, snap: Snapshot, a: nat, r: (Exec, Verdict), now: int, s2: Sys)
    requires WaitsFor(env, s, t, plan, snap, a) && NothingInjected(env, plan) && Grants(env, s, t, now, s2)
    requires r == Resume(env.tools, Cfg(env), t, snap, s.world)
    ensures s2.world == r.0.world && Together(env, s2, t, plan, StopOf(snap, r.1), a + 1)
  {
    var s1 := s.(approvals := DecidePending(s.approvals, a, Approved));
    var row := s.approvals.rows[a].(status := Approved);
    ApprovedIsIntact(env, s, t, plan, snap, a, row);
    GrantResumes(env, s, a, now, s1, row);
    ApprovalKeepsInv(env, s, a);
    ResumeAsksAgain(env, s1, a, row, r, s2);
  }

  /** From a common point on, granting approvals is the chain of resumes, which then waits no more. */
  lemma {:induction false} GrantsAreChain(env: Env, t: nat, plan: Plan, states: seq<Sys>, times: seq<int>, stop: Stop, a: nat,
                                          chain: (World, Stop))
    requires GrantsAll(env, t, states, times) && Together(env, states[0], t, plan, stop, a) && NothingInjected(env, plan)
    requires chain == Chain(env.tools, Cfg(env), t, states[0].world, stop, |times|)
    ensures states[|times|].world == chain.0 && !Paused(chain.1)
    decreases |times|
  {
    if times == [] {
      assert !Paused(stop);
    } else {
      var m: nat := |times| - 1;
      var s, s2, snap := states[0], states[1], stop.why.snapshot;
      assert Grants(env, s, t, times[0], s2) && Paused(stop);
      var r := Resume(env.tools, Cfg(env), t, snap, s.world);
      GrantOne(env, s, t, plan, snap, a, r, times[0], s2);
      var rest := ChainStep(env.tools, Cfg(env), t, stop.step, snap, s.world, |times|, m, chain);
      GrantsLater(env, t, states, times);
      GrantsAreChain(env, t, plan, states[1..], times[1..], rest.1, a + 1, chain);
    }
  }

  lemma GrantsLater(env: Env, t: nat, states: seq<Sys>, times: seq<int>)
    requires GrantsAll(env, t, states, times) && times != []
    ensures GrantsAll(env, t, states[1..], times[1..])
  {
    var later, laterTimes := states[1..], times[1..];
    forall i | 0 <= i < |laterTimes| ensures Grants(env, later[i], t, laterTimes[i], later[i + 1]) {
      assert Grants(env, states[i + 1], t, times[i + 1], states[i + 2]);
    }
  }

  /** The next pause of a plan, if there is one, is before a later step. */
  lemma PausesLater(env: Env, s: Sys, t: nat, plan: Plan, snap: Snapshot, a: nat, r: (Exec, Verdict))
    requires WaitsFor(env, s, t, plan, snap, a) && r == Resume(env.tools, Cfg(env), t, snap, s.world)
    requires Paused(StopOf(snap, r.1))
    ensures |snap.calls| < |StopOf(snap, r.1).why.snapshot.calls| <= |plan|
  {
    assert WorkOk(s.approvals.rows[a], s.tasks, s.world.calls) && PlanTaskOk(t, s.tasks.rows[t], s.world.calls);
    var m := ResumeProgresses(env.tools, Cfg(env), t, plan, |snap.calls|, snap, s.world);
    assert r.1.Continued? && SnapshotAt(r.1.stop.why.snapshot, plan, m);
  }

  /** The approvals of a plan can all be granted, at any times: there are finitely many. */
  lemma {:induction false} GrantsExist(env: Env, s: Sys, t: nat, plan: Plan, stop: Stop, a: nat)
    returns (states: seq<Sys>, times: seq<int>)
    requires Together(env, s, t, plan, stop, a) && NothingInjected(env, plan)
    ensures GrantsAll(env, t, states, times) && states[0] == s
    decreases if Paused(stop) then |plan| + 1 - |stop.why.snapshot.calls| else 0
  {
    states, times := [s], [];
    if Paused(stop) {
      var snap := stop.why.snapshot;
      var r := Resume(env.tools, Cfg(env), t, snap, s.world);
      var s2 := Handle(env, s, PostApprove(a, true, 0));
      GrantOne(env, s, t, plan, snap, a, r, 0, s2);
      var next := StopOf(snap, r.1);
      if Paused(next) {
        PausesLater(env, s, t, plan, snap, a, r);
      }
      assert WorkOk(s.approvals.rows[a], s.tasks, s.world.calls);
      var later, laterTimes := GrantsExist(env, s2, t, plan, next, a + 1);
      states, times := [s] + later, [0] + laterTimes;
      GrantsFirst(env, s, t, 0, later, laterTimes);
    }
  }

  lemma GrantsFirst(env: Env, s: Sys, t: nat, now: int, later: seq<Sys>, times: seq<int>)
    requires GrantsAll(env, t, later, times) && Grants(env, s, t, now, later[0])
    ensures GrantsAll(env, t, [s] + later, [now] + times)
  {
    var states, all := [s] + later, [now] + times;
    forall i | 0 <= i < |all| ensures Grants(env, states[i], t, all[i], states[i + 1]) {
      if i > 0 {
        assert Grants(env, later[i - 1], t, times[i - 1], later[i]);
      }
    }
  }

  /** Submitting a plan and granting its approvals is the interrupted run. */
  lemma GrantsAreInterrupted(env: Env, s: Sys, plan: Plan, states: seq<Sys>, times: seq<int>)
    requires Inv(env, s) && DistinctIds(plan) && NothingInjected(env, plan)
    requires GrantsAll(env, s.tasks.next, states, times) && states[0] == Handle(env, s, PostPlan(plan))
    ensures var (after, stop) := RunWithPauses(env.tools, Cfg(env), s.tasks.next, plan, s.world, |times|);
            states[|times|].world == after && !Paused(stop)
  {
    var t, s' := s.tasks.next, states[0];
    var run := Run(env.tools, Cfg(env), t, plan, s.world);
    PlanKeepsInv(env, s, plan);
    if Paused(run.1) {
      assert WorkOk(s'.approvals.rows[s.approvals.next], s'.tasks, s'.world.calls);
    }
    assert Together(env, s', t, plan, run.1, s.approvals.next);
    GrantsAreChain(env, t, plan, states, times, run.1, s.approvals.next,
                   RunWithPauses(env.tools, Cfg(env), t, plan, s.world, |times|));
  }

  lemma {:induction false} ChainStays(tools: Tools, cfg: Config, task: nat, world: World, stop: Stop, n: nat, m: nat)
    requires n <= m && !Paused(Chain(tools, cfg, task, world, stop, n).1)
    ensures Chain(tools, cfg, task, world, stop, m) == Chain(tools, cfg, task, world, stop, n)
    decreases n
  {
    if !Paused(stop) {
      ChainEnds(tools, cfg, task, world, stop, m);
    } else {
      var n': nat, m': nat := n - 1, m - 1;
      var r := Resume(tools, cfg, task, stop.why.snapshot, world);
      ChainStays(tools, cfg, task, r.0.world, StopOf(stop.why.snapshot, r.1), n', m');
    }
  }

  /** In any reachable state: submit a plan, grant every approval it asks for, and the calls made are
      those of the uninterrupted run under a policy that permits high-risk tools - exactly if the
      payloads remember what the steps read. */
  lemma GrantedPlanIsTransparent(env: Env, s: Sys, plan: Plan, states: seq<Sys>, times: seq<int>)
    requires Inv(env, s) && DistinctIds(plan) && NothingInjected(env, plan)
    requires forall i | 0 <= i < |plan| :: ReadsResults(plan[i].args)
    requires GrantsAll(env, s.tasks.next, states, times) && states[0] == Handle(env, s, PostPlan(plan))
    ensures states[|times|].world == Run(env.tools, Permitting(Cfg(env)), s.tasks.next, plan, s.world).0.world
            <==> Remembers(env.tools, Cfg(env), s.tasks.next, plan, 0, Exec(s.world, {}, map[], []), None)
  {
    var t, n := s.tasks.next, if |times| < |plan| then |plan| else |times|;
    var run := Run(env.tools, Cfg(env), t, plan, s.world);
    GrantsAreInterrupted(env, s, plan, states, times);
    ChainStays(env.tools, Cfg(env), t, run.0.world, run.1, |times|, n);
    TransparentIff(env.tools, Cfg(env), t, plan, s.world, n);
  }

  /** The same in terms of nulls, for a plan whose names do not clash. */
  lemma GrantedPlanIffNoNull(env: Env, s: Sys, plan: Plan, states: seq<Sys>, times: seq<int>)
    requires Inv(env, s) && PlanOk(plan) && NothingInjected(env, plan)
    requires GrantsAll(env, s.tasks.next, states, times) && states[0] == Handle(env, s, PostPlan(plan))
    ensures states[|times|].world == Run(env.tools, Permitting(Cfg(env)), s.tasks.next, plan, s.world).0.world
            <==> NoNullFromFirstPause(env.tools, Cfg(env), s.tasks.next, plan, 0, Exec(s.world, {}, map[], []), false)
  {
    GrantedPlanIsTransparent(env, s, plan, states, times);
    RemembersIffNoNull(env.tools, Cfg(env), s.tasks.next, plan, 0, Exec(s.world, {}, map[], []), None);
  }
}
