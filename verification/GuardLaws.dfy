/** What stops a resume: the injection guard, the integrity check and the approval's own status; and
    that nothing is called past them. */
module GuardLaws {
  import opened JsonValues
  import opened ToolGateways
  import opened MultiTool
  import opened PlanProgress
  import opened Stores
  import opened Machine
  import opened Safety

  // ---------- Requests that are stopped ----------

  /** The guard blocks the stored payload of `id`. */
  predicate Blocked(env: Env, s: Sys, id: nat) {
    id in s.approvals.rows && env.injected(s.approvals.rows[id].payload)
  }

  /** In every state and mode: resuming a blocked payload does nothing. */
  lemma BlockedResumeDoesNothing(env: Env, s: Sys, id: nat, now: int)
    requires Blocked(env, s, id)
    ensures Handle(env, s, PostResume(id, now)) == s
    ensures Resumable(s.approvals, id) ==> HandleResume(env, s, id, now).1 == InjectionBlocked
  {
  }

  /** Approving one does at most the decision. */
  lemma BlockedApprovalOnlyDecides(env: Env, s: Sys, id: nat, autoResume: bool, now: int)
    requires Blocked(env, s, id)
    ensures var s' := Handle(env, s, PostApprove(id, autoResume, now));
            && s'.world == s.world && s'.tasks == s.tasks && s'.checkpoints == s.checkpoints
            && s'.approvals.next == s.approvals.next && s'.approvals.rows.Keys == s.approvals.rows.Keys
            && forall a | a in s.approvals.rows ::
                 || s'.approvals.rows[a] == s.approvals.rows[a]
                 || (a == id && s.approvals.rows[a].status == Pending
                     && s'.approvals.rows[a] == s.approvals.rows[a].(status := Approved))
  {
  }

  /** So does resuming an approval that is not approved. */
  lemma UnapprovedResumeDoesNothing(env: Env, s: Sys, id: nat, now: int)
    requires id in s.approvals.rows ==> s.approvals.rows[id].status != Approved
    ensures Handle(env, s, PostResume(id, now)) == s
  {
  }

  /** The payload names another tool than the approval, or a step that its plan does not have. */
  ghost predicate TamperedWith(a: Approval) {
    match a.payload.work
    case KeywordCall(tool, _) => tool != "" && tool != a.tool
    case PlanStep(snap) =>
      || (snap.tool != "" && snap.tool != a.tool)
      || (snap.step != "" && forall k | 0 <= k < |snap.plan| :: snap.plan[k].id != snap.step)
    case GraphCall(_, _, _) => false
    case OtherMode(tool) => tool != "" && tool != a.tool
  }

  /** And resuming a payload that was tampered with. */
  lemma TamperedResumeDoesNothing(env: Env, s: Sys, id: nat, now: int)
    requires id in s.approvals.rows && TamperedWith(s.approvals.rows[id])
    ensures Handle(env, s, PostResume(id, now)) == s
    ensures Resumable(s.approvals, id) && !Blocked(env, s, id) ==> HandleResume(env, s, id, now).1 == Tampered
  {
  }

  // ---------- Requests that call ----------

  predicate Resumes(req: Request, id: nat) {
    (req.PostApprove? && req.id == id && req.autoResume) || (req.PostResume? && req.id == id)
  }

  /** The request may resume `id`: it is live - approved if nobody approves it now -, not blocked, and
      not tampered with. */
  ghost predicate Passes(env: Env, s: Sys, req: Request, id: nat) {
    && Resumes(req, id) && id in s.approvals.rows && Live(s.approvals.rows[id]) && !Blocked(env, s, id)
    && (req.PostResume? ==> s.approvals.rows[id].status == Approved) && !TamperedWith(s.approvals.rows[id])
  }

  ghost predicate AddsCallsOf(task: nat, before: seq<Call>, after: seq<Call>) {
    before <= after && forall i | |before| <= i < |after| :: after[i].owner.task == task
  }

  lemma ServiceResumeCalls(env: Env, s: Sys, id: nat, now: int)
    ensures var s' := ServiceResume(env, s, id, now).0;
            && s.world.calls <= s'.world.calls
            && (s'.world.calls != s.world.calls ==>
                  && Resumable(s.approvals, id) && !TamperedWith(s.approvals.rows[id])
                  && AddsCallsOf(s.approvals.rows[id].task, s.world.calls, s'.world.calls))
  {
    if Resumable(s.approvals, id) && s.approvals.rows[id].payload.work.PlanStep? {
      var a := s.approvals.rows[id];
      ResumeCallsOnlyApproved(env.tools, Cfg(env), a.task, a.payload.work.snapshot, s.world);
    }
  }

  lemma ResumeRequestCalls(env: Env, s: Sys, req: Request)
    requires req.PostApprove? || req.PostResume?
    ensures var s' := Handle(env, s, req);
            && s.world.calls <= s'.world.calls
            && (s'.world.calls != s.world.calls ==>
                  && Passes(env, s, req, req.id)
                  && AddsCallsOf(s.approvals.rows[req.id].task, s.world.calls, s'.world.calls))
  {
    var s1 := if req.PostApprove? then s.(approvals := DecidePending(s.approvals, req.id, Approved)) else s;
    ServiceResumeCalls(env, s1, req.id, req.now);
    var s' := Handle(env, s, req);
    if s'.world.calls != s.world.calls {
      assert s' == ServiceResume(env, s1, req.id, req.now).0;
    }
  }

  lemma SubmissionCalls(env: Env, s: Sys, req: Request)
    requires !req.PostApprove? && !req.PostResume?
    ensures s.world.calls <= Handle(env, s, req).world.calls
  {
    if req.PostPlan? {
      var run := Run(env.tools, Cfg(env), s.tasks.next, req.plan, s.world);
      RunCallsNoHighRisk(env.tools, Cfg(env), FirstRun, s.tasks.next, req.plan, 0, Exec(s.world, {}, map[], []), run);
    }
  }

  /** Over whole runs: each call was made by one of the requests; and if that one approves or resumes,
      for the task of an approval that was live, and whose payload was neither blocked by the guard nor
      tampered with, when the request arrived. */
  lemma {:induction false} EveryCallPassedTheGuard(env: Env, world: World, reqs: seq<Request>, i: nat) returns (m: nat)
    requires world.calls == [] && i < |Serve(env, Empty(world), reqs).world.calls|
    ensures m < |reqs|
    ensures |Serve(env, Empty(world), reqs[..m]).world.calls| <= i < |Serve(env, Empty(world), reqs[..m + 1]).world.calls|
    ensures reqs[m].PostApprove? || reqs[m].PostResume? ==>
              var s := Serve(env, Empty(world), reqs[..m]);
              && Passes(env, s, reqs[m], reqs[m].id)
              && Serve(env, Empty(world), reqs).world.calls[i].owner.task == s.approvals.rows[reqs[m].id].task
    ensures Serve(env, Empty(world), reqs[..m + 1]).world.calls <= Serve(env, Empty(world), reqs).world.calls
    decreases |reqs|
  {
    var before, req := reqs[..|reqs| - 1], reqs[|reqs| - 1];
    var s, s' := Serve(env, Empty(world), before), Serve(env, Empty(world), reqs);
    if req.PostApprove? || req.PostResume? {
      ResumeRequestCalls(env, s, req);
    } else {
      SubmissionCalls(env, s, req);
    }
    if i < |s.world.calls| {
      m := EveryCallPassedTheGuard(env, world, before, i);
      assert before[..m] == reqs[..m] && before[..m + 1] == reqs[..m + 1] && before[m] == reqs[m];
    } else {
      m := |reqs| - 1;
      assert reqs[..m + 1] == reqs;
    }
  }
}
