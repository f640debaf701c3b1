/** How far a plan has come: in the executor's variables, in a stored payload and in the call log. */
module PlanProgress {
  import opened ToolGateways
  import opened MultiTool

  ghost predicate DistinctIds(plan: Plan) {
    forall i, j | 0 <= i < j < |plan| :: plan[i].id != plan[j].id
  }

  /** The ids of the first `k` steps. */
  function Ids(plan: Plan, k: nat): set<string>
    requires k <= |plan|
  {
    if k == 0 then {} else Ids(plan, k - 1) + {plan[k - 1].id}
  }

  ghost predicate CallMatches(c: CallData, s: Step) {
    c.step == s.id && c.tool == s.tool && c.success && c.saveAs == s.saveAs
  }

  /** Exactly the first `k` steps are done, and `calls` is their successful entries in order. */
  ghost predicate AtStep(plan: Plan, k: nat, done: set<string>, calls: seq<CallData>) {
    && k <= |plan| && |calls| == k
    && done == Ids(plan, k)
    && forall i | 0 <= i < k :: CallMatches(calls[i], plan[i])
  }

  lemma {:induction false} IdsAre(plan: Plan, k: nat, id: string)
    requires k <= |plan|
    ensures id in Ids(plan, k) <==> exists i | 0 <= i < k :: plan[i].id == id
  {
    if k > 0 {
      IdsAre(plan, k - 1, id);
    }
  }

  lemma AtNextStep(plan: Plan, k: nat, done: set<string>, calls: seq<CallData>, made: CallData)
    requires k < |plan| && AtStep(plan, k, done, calls) && CallMatches(made, plan[k])
    ensures AtStep(plan, k + 1, done + {plan[k].id}, calls + [made])
  {
  }

  /** After an approval the loop starts over and skips the completed steps. */
  lemma {:induction false} SkipDone(tools: Tools, cfg: Config, task: nat, plan: Plan, k: nat, from: nat, st: Exec)
    requires from <= k <= |plan| && Ids(plan, k) <= st.done
    ensures RunFrom(tools, cfg, Resumed, task, plan, from, st) == RunFrom(tools, cfg, Resumed, task, plan, k, st)
    decreases k - from
  {
    if from < k {
      IdsAre(plan, k, plan[from].id);
      SkipDone(tools, cfg, task, plan, k, from + 1, st);
    }
  }

  lemma {:induction false} FindSaveAsAt(plan: Plan, k: nat)
    requires k < |plan| && DistinctIds(plan)
    ensures FindSaveAs(plan, plan[k].id) == plan[k].saveAs
  {
    if k > 0 {
      assert plan[0].id != plan[k].id;
      FindSaveAsAt(plan[1..], k - 1);
    }
  }

  // ---------- What the log says of a plan's progress ----------

  /** The steps of `task` whose calls succeeded, in the order of the calls. */
  function Successes(calls: seq<Call>, task: nat): seq<string> {
    if calls == [] then []
    else
      var c := calls[|calls| - 1];
      Successes(calls[..|calls| - 1], task) + if c.owner.task == task && c.record.success then [c.owner.step] else []
  }

  function IdSeq(plan: Plan, k: nat): (ids: seq<string>)
    requires k <= |plan|
    ensures |ids| == k
    ensures forall i | 0 <= i < k :: ids[i] == plan[i].id
  {
    if k == 0 then [] else IdSeq(plan, k - 1) + [plan[k - 1].id]
  }

  /** The dependencies of each of the first `k` steps precede it. */
  ghost predicate DepsPrecede(plan: Plan, k: nat)
    requires k <= |plan|
  {
    forall i, d | 0 <= i < k && d in plan[i].deps :: d in Ids(plan, i)
  }

  /** The log shows exactly the first `k` steps of the plan done, in order. */
  ghost predicate Progressed(calls: seq<Call>, task: nat, plan: Plan, k: nat) {
    k <= |plan| && Successes(calls, task) == IdSeq(plan, k) && DepsPrecede(plan, k)
  }

  /** The payload stored when the plan pauses before step `k`. */
  ghost predicate SnapshotAt(snap: Snapshot, plan: Plan, k: nat) {
    && k < |plan|
    && snap.plan == plan && AtStep(plan, k, snap.done, snap.calls)
    && snap.step == plan[k].id && snap.tool == plan[k].tool && snap.args == plan[k].args
    && forall d | d in plan[k].deps :: d in snap.done
  }

  lemma SuccessesStep(calls: seq<Call>, c: Call, task: nat)
    ensures Successes(calls + [c], task)
            == Successes(calls, task) + if c.owner.task == task && c.record.success then [c.owner.step] else []
  {
    assert (calls + [c])[..|calls|] == calls;
  }

  /** Calls made for other tasks leave a task's progress alone. */
  lemma {:induction false} SuccessesFrame(calls: seq<Call>, after: seq<Call>, task: nat)
    requires calls <= after
    requires forall i | |calls| <= i < |after| :: after[i].owner.task != task
    ensures Successes(after, task) == Successes(calls, task)
    decreases |after|
  {
    if |after| > |calls| {
      SuccessesFrame(calls, after[..|after| - 1], task);
    } else {
      assert after == calls;
    }
  }

  lemma {:induction false} NoSuccesses(calls: seq<Call>, task: nat)
    requires forall i | 0 <= i < |calls| :: calls[i].owner.task != task
    ensures Successes(calls, task) == []
  {
    SuccessesFrame([], calls, task);
  }

  // ---------- What one run adds ----------

  predicate HighRisk(tools: Tools, tool: string) {
    tool in tools.registry && tools.registry[tool].risk == High
  }

  /** A performed step moves the plan on by one exactly if its call succeeds. */
  lemma PerformProgresses(tools: Tools, phase: Phase, task: nat, plan: Plan, k: nat, args: Args, st: Exec, p: Progress)
    requires k < |plan| && AtStep(plan, k, st.done, st.calls) && Progressed(st.world.calls, task, plan, k)
    requires forall d | d in plan[k].deps :: d in st.done
    requires p == Perform(tools, phase, task, plan[k].id, plan[k].tool, plan[k].saveAs, args, st)
    ensures p.Next? ==> AtStep(plan, k + 1, p.st.done, p.st.calls) && Progressed(p.st.world.calls, task, plan, k + 1)
    ensures p.Halt? ==> Progressed(p.st.world.calls, task, plan, k)
  {
    var r := Last(p.st.world);
    SuccessesStep(st.world.calls, Logged(Owner(task, plan[k].id), r), task);
    if p.Next? {
      AtNextStep(plan, k, st.done, st.calls, Made(phase, plan[k].id, plan[k].saveAs, r));
    }
  }

  lemma RunStep(tools: Tools, cfg: Config, phase: Phase, task: nat, plan: Plan, k: nat, st: Exec, p: Progress,
                run: (Exec, Stop))
    requires k < |plan| && p == Advance(tools, cfg, phase, task, plan, plan[k], st)
    requires phase == Resumed ==> plan[k].id !in st.done
    requires run == RunFrom(tools, cfg, phase, task, plan, k, st)
    ensures p.Next? ==> run == RunFrom(tools, cfg, phase, task, plan, k + 1, p.st)
    ensures p.Halt? ==> run == (p.st, Stopped(plan[k].id, p.why))
  {
  }

  /** `after` extends `before` by calls of low- or medium-risk tools made for `task`. */
  ghost predicate AddsNoHighRisk(tools: Tools, task: nat, before: seq<Call>, after: seq<Call>) {
    && before <= after
    && forall i | |before| <= i < |after| :: !HighRisk(tools, after[i].record.tool) && after[i].owner.task == task
  }

  lemma AddsTransitive(tools: Tools, task: nat, a: seq<Call>, b: seq<Call>, c: seq<Call>)
    requires AddsNoHighRisk(tools, task, a, b) && AddsNoHighRisk(tools, task, b, c)
    ensures AddsNoHighRisk(tools, task, a, c)
  {
    forall i | |a| <= i < |c| ensures !HighRisk(tools, c[i].record.tool) && c[i].owner.task == task {
      assert i < |b| ==> c[i] == b[i];
    }
  }

  lemma AdvanceCallsNoHighRisk(tools: Tools, cfg: Config, phase: Phase, task: nat, plan: Plan, s: Step, st: Exec, p: Progress)
    requires cfg.policy.Some? && !cfg.policy.value.permitHigh && p == Advance(tools, cfg, phase, task, plan, s, st)
    ensures AddsNoHighRisk(tools, task, st.world.calls, p.st.world.calls)
  {
  }

  /** A run under the engine's policy never calls a high-risk tool, and calls only for its task. */
  lemma {:induction false} RunCallsNoHighRisk(tools: Tools, cfg: Config, phase: Phase, task: nat, plan: Plan, k: nat, st: Exec,
                                              run: (Exec, Stop))
    requires k <= |plan| && cfg.policy.Some? && !cfg.policy.value.permitHigh
    requires run == RunFrom(tools, cfg, phase, task, plan, k, st)
    ensures AddsNoHighRisk(tools, task, st.world.calls, run.0.world.calls)
    decreases |plan| - k
  {
    if k < |plan| {
      if phase == Resumed && plan[k].id in st.done {
        RunCallsNoHighRisk(tools, cfg, phase, task, plan, k + 1, st, run);
      } else {
        var p := Advance(tools, cfg, phase, task, plan, plan[k], st);
        AdvanceCallsNoHighRisk(tools, cfg, phase, task, plan, plan[k], st, p);
        RunStep(tools, cfg, phase, task, plan, k, st, p, run);
        if p.Next? {
          RunCallsNoHighRisk(tools, cfg, phase, task, plan, k + 1, p.st, run);
          AddsTransitive(tools, task, st.world.calls, p.st.world.calls, run.0.world.calls);
        } else {
          assert run.0 == p.st;
        }
      }
    }
  }

  /** One iteration of the loop: a completed step moves the log on, a pause stores what it shows. */
  lemma AdvanceProgresses(tools: Tools, cfg: Config, phase: Phase, task: nat, plan: Plan, k: nat, st: Exec, p: Progress)
    requires k < |plan| && AtStep(plan, k, st.done, st.calls) && Progressed(st.world.calls, task, plan, k)
    requires p == Advance(tools, cfg, phase, task, plan, plan[k], st)
    ensures p.Next? ==> AtStep(plan, k + 1, p.st.done, p.st.calls) && Progressed(p.st.world.calls, task, plan, k + 1)
    ensures p.Halt? ==> Progressed(p.st.world.calls, task, plan, k)
    ensures p.Halt? && p.why.NeedsApproval? ==> SnapshotAt(p.why.snapshot, plan, k)
  {
    var s := plan[k];
    MissingIs(s.deps, st.done);
    if Missing(s.deps, st.done) == [] && GateOf(tools, cfg, s.tool) == Go {
      var args := ResolveArgs(tools, st.saved, s.args, phase == Resumed);
      if args.Some? {
        PerformProgresses(tools, phase, task, plan, k, args.value, st, p);
      }
    }
  }

  /** What the log and the verdict of a run say, when `m` steps are done. */
  ghost predicate Reached(task: nat, plan: Plan, m: nat, run: (Exec, Stop)) {
    && Progressed(run.0.world.calls, task, plan, m)
    && (run.1.Stopped? && run.1.why.NeedsApproval? ==> SnapshotAt(run.1.why.snapshot, plan, m))
    && (run.1.Finished? <==> m == |plan|)
  }

  lemma {:induction false} MissingIs(deps: seq<string>, done: set<string>)
    ensures Missing(deps, done) == [] <==> forall d | d in deps :: d in done
    ensures forall d :: d in Missing(deps, done) <==> d in deps && d !in done
  {
    if deps != [] {
      MissingIs(deps[1..], done);
    }
  }

  lemma HaltReaches(task: nat, plan: Plan, k: nat, p: Progress, run: (Exec, Stop))
    requires k < |plan| && p.Halt? && run == (p.st, Stopped(plan[k].id, p.why))
    requires Progressed(p.st.world.calls, task, plan, k)
    requires p.why.NeedsApproval? ==> SnapshotAt(p.why.snapshot, plan, k)
    ensures Reached(task, plan, k, run)
  {
  }

  lemma EndReaches(tools: Tools, cfg: Config, phase: Phase, task: nat, plan: Plan, st: Exec, run: (Exec, Stop))
    requires Progressed(st.world.calls, task, plan, |plan|) && run == RunFrom(tools, cfg, phase, task, plan, |plan|, st)
    ensures Reached(task, plan, |plan|, run)
  {
  }

  /** A run keeps the log in plan order; where it pauses, the stored payload describes the log. */
  lemma {:induction false} RunProgresses(tools: Tools, cfg: Config, phase: Phase, task: nat, plan: Plan, k: nat, st: Exec,
                                         run: (Exec, Stop)) returns (m: nat)
    requires k <= |plan| && DistinctIds(plan) && AtStep(plan, k, st.done, st.calls)
    requires Progressed(st.world.calls, task, plan, k)
    requires run == RunFrom(tools, cfg, phase, task, plan, k, st)
    ensures k <= m && Reached(task, plan, m, run)
    decreases |plan| - k
  {
    m := k;
    if k == |plan| {
      EndReaches(tools, cfg, phase, task, plan, st, run);
    } else {
      IdsAre(plan, k, plan[k].id);
      var p := Advance(tools, cfg, phase, task, plan, plan[k], st);
      AdvanceProgresses(tools, cfg, phase, task, plan, k, st, p);
      RunStep(tools, cfg, phase, task, plan, k, st, p, run);
      if p.Next? {
        m := RunProgresses(tools, cfg, phase, task, plan, k + 1, p.st, run);
      } else {
        HaltReaches(task, plan, k, p, run);
      }
    }
  }

  // ---------- What one resume attempt adds ----------

  /** `after` extends `before` by calls made for `task`; the only high-risk one is the first, the
      approved step with the approved tool. */
  ghost predicate AddsOnlyApproved(tools: Tools, owner: Owner, tool: string, before: seq<Call>, after: seq<Call>) {
    && before <= after
    && forall i | |before| <= i < |after| ::
         && after[i].owner.task == owner.task
         && (HighRisk(tools, after[i].record.tool) ==> after[i].owner == owner && after[i].record.tool == tool)
  }

  lemma ResumeCallsOnlyApproved(tools: Tools, cfg: Config, task: nat, snap: Snapshot, world: World)
    requires cfg.policy.Some? && !cfg.policy.value.permitHigh
    ensures AddsOnlyApproved(tools, Owner(task, snap.step), snap.tool, world.calls,
                             Resume(tools, cfg, task, snap, world).0.world.calls)
  {
    var st := Exec(world, snap.done, Rebuild(snap.calls), snap.calls);
    var args := ResolveArgs(tools, st.saved, snap.args, true);
    if args.Some? {
      var p := Perform(tools, Resumed, task, snap.step, snap.tool, FindSaveAs(snap.plan, snap.step), args.value, st);
      if p.Next? {
        var run := RunFrom(tools, cfg, Resumed, task, snap.plan, 0, p.st);
        RunCallsNoHighRisk(tools, cfg, Resumed, task, snap.plan, 0, p.st, run);
        ApprovedThenNone(tools, Owner(task, snap.step), snap.tool, world.calls, p.st.world.calls, run.0.world.calls);
      }
    }
  }

  lemma ApprovedThenNone(tools: Tools, owner: Owner, tool: string, a: seq<Call>, b: seq<Call>, c: seq<Call>)
    requires AddsOnlyApproved(tools, owner, tool, a, b) && AddsNoHighRisk(tools, owner.task, b, c)
    ensures AddsOnlyApproved(tools, owner, tool, a, c)
  {
    forall i | |a| <= i < |c|
      ensures && c[i].owner.task == owner.task
              && (HighRisk(tools, c[i].record.tool) ==> c[i].owner == owner && c[i].record.tool == tool)
    {
      assert i < |b| ==> c[i] == b[i];
    }
  }

  /** What the log says after a resume attempt with outcome `r` of a plan that had `k` steps done. */
  ghost predicate ReachedBy(task: nat, plan: Plan, k: nat, m: nat, r: (Exec, Verdict)) {
    && Progressed(r.0.world.calls, task, plan, m)
    && (if r.1.Continued? then k < m && Reached(task, plan, m, (r.0, r.1.stop)) else m == k)
  }

  /** A resume attempt that fails at the approved step leaves the plan where it was; one that
      continues has done the approved step and stores the next pause, if there is one. */
  lemma ResumeProgresses(tools: Tools, cfg: Config, task: nat, plan: Plan, k: nat, snap: Snapshot, world: World)
    returns (m: nat)
    requires DistinctIds(plan) && SnapshotAt(snap, plan, k) && Progressed(world.calls, task, plan, k)
    ensures ReachedBy(task, plan, k, m, Resume(tools, cfg, task, snap, world))
  {
    m := k;
    var st := Exec(world, snap.done, Rebuild(snap.calls), snap.calls);
    var args := ResolveArgs(tools, st.saved, snap.args, true);
    if args.Some? {
      FindSaveAsAt(plan, k);
      var p := Perform(tools, Resumed, task, snap.step, snap.tool, plan[k].saveAs, args.value, st);
      PerformProgresses(tools, Resumed, task, plan, k, args.value, st, p);
      if p.Next? {
        SkipDone(tools, cfg, task, plan, k + 1, 0, p.st);
        m := RunProgresses(tools, cfg, Resumed, task, plan, k + 1, p.st, RunFrom(tools, cfg, Resumed, task, plan, 0, p.st));
      }
    }
  }
}
