/** Pausing is transparent: a plan that is interrupted at every high-risk step and resumed from
    the stored payload makes the same gateway calls as one run that never pauses - exactly if what
    its steps read from the first pause on is remembered by the payload. */
module Transparency {
  import opened JsonValues
  import opened ToolGateways
  import opened Policies
  import opened MultiTool
  import opened PlanProgress

  // ---------- References ----------

  /** The paths of the references inside `v`. */
  function References(v: Json): set<string>
    decreases v
  {
    match v
    case Str(s) => if IsReference(s) then {s[1..]} else {}
    case Obj(fields) => FieldReferences(fields)
    case List(items) => ItemReferences(items)
    case _ => {}
  }

  function FieldReferences(fields: seq<Field>): set<string>
    decreases fields
  {
    if fields == [] then {} else References(fields[0].value) + FieldReferences(fields[1..])
  }

  function ItemReferences(items: seq<Json>): set<string>
    decreases items
  {
    if items == [] then {} else References(items[0]) + ItemReferences(items[1..])
  }

  /** A path that a copy of the resolver accepts. */
  predicate Readable(tools: Tools, saved: Saved, path: string, strict: bool) {
    var found := Lookup(tools, saved, path);
    found.Some? && (strict ==> found != Some(Null))
  }

  /** A value resolves exactly if each of its references does. */
  lemma {:induction false} ResolvesIff(tools: Tools, saved: Saved, v: Json, strict: bool)
    ensures Resolve(tools, saved, v, strict).Some? <==> forall path | path in References(v) :: Readable(tools, saved, path, strict)
    decreases v
  {
    match v
    case Str(s) =>
      if IsReference(s) {
        assert References(v) == {s[1..]};
        assert Resolve(tools, saved, v, strict).Some? <==> Readable(tools, saved, s[1..], strict);
      }
    case Obj(fields) => FieldsResolveIff(tools, saved, fields, strict);
    case List(items) => ItemsResolveIff(tools, saved, items, strict);
    case _ =>
  }

  lemma {:induction false} FieldsResolveIff(tools: Tools, saved: Saved, fields: seq<Field>, strict: bool)
    ensures ResolveFields(tools, saved, fields, strict).Some?
            <==> forall path | path in FieldReferences(fields) :: Readable(tools, saved, path, strict)
    decreases fields
  {
    if fields != [] {
      ResolvesIff(tools, saved, fields[0].value, strict);
      FieldsResolveIff(tools, saved, fields[1..], strict);
    }
  }

  lemma {:induction false} ItemsResolveIff(tools: Tools, saved: Saved, items: seq<Json>, strict: bool)
    ensures ResolveItems(tools, saved, items, strict).Some?
            <==> forall path | path in ItemReferences(items) :: Readable(tools, saved, path, strict)
    decreases items
  {
    if items != [] {
      ResolvesIff(tools, saved, items[0], strict);
      ItemsResolveIff(tools, saved, items[1..], strict);
    }
  }

  ghost predicate ReadAlike(tools: Tools, a: Saved, b: Saved, paths: set<string>) {
    forall path | path in paths :: Lookup(tools, a, path) == Lookup(tools, b, path)
  }

  /** Two resolved values are equal exactly if each reference has the same value in both. */
  lemma {:induction false} ResolvesAlike(tools: Tools, a: Saved, b: Saved, v: Json)
    requires Resolve(tools, a, v, false).Some? && Resolve(tools, b, v, true).Some?
    ensures Resolve(tools, a, v, false) == Resolve(tools, b, v, true) <==> ReadAlike(tools, a, b, References(v))
    decreases v
  {
    match v
    case Str(s) =>
      if IsReference(s) {
        assert s[1..] in References(v);
      }
    case Obj(fields) => FieldsResolveAlike(tools, a, b, fields);
    case List(items) => ItemsResolveAlike(tools, a, b, items);
    case _ =>
  }

  lemma {:induction false} FieldsResolveAlike(tools: Tools, a: Saved, b: Saved, fields: seq<Field>)
    requires ResolveFields(tools, a, fields, false).Some? && ResolveFields(tools, b, fields, true).Some?
    ensures ResolveFields(tools, a, fields, false) == ResolveFields(tools, b, fields, true)
            <==> ReadAlike(tools, a, b, FieldReferences(fields))
    decreases fields
  {
    if fields != [] {
      ResolvesAlike(tools, a, b, fields[0].value);
      FieldsResolveAlike(tools, a, b, fields[1..]);
      var x, y := ResolveFields(tools, a, fields, false).value, ResolveFields(tools, b, fields, true).value;
      assert x == y <==> x[0] == y[0] && x[1..] == y[1..];
    }
  }

  lemma {:induction false} ItemsResolveAlike(tools: Tools, a: Saved, b: Saved, items: seq<Json>)
    requires ResolveItems(tools, a, items, false).Some? && ResolveItems(tools, b, items, true).Some?
    ensures ResolveItems(tools, a, items, false) == ResolveItems(tools, b, items, true)
            <==> ReadAlike(tools, a, b, ItemReferences(items))
    decreases items
  {
    if items != [] {
      ResolvesAlike(tools, a, b, items[0]);
      ItemsResolveAlike(tools, a, b, items[1..]);
      var x, y := ResolveItems(tools, a, items, false).value, ResolveItems(tools, b, items, true).value;
      assert x == y <==> x[0] == y[0] && x[1..] == y[1..];
    }
  }

  // ---------- What a payload remembers ----------

  /** Variables with the same names and the same results. */
  ghost predicate Same(a: Saved, b: Saved) {
    a.Keys == b.Keys && forall name | name in a :: ResultOf(a[name]) == ResultOf(b[name])
  }

  /** Every reference of `args` reads below a variable's result: `$name.result...`. */
  ghost predicate ReadsResults(args: Args) {
    forall path | path in FieldReferences(args) :: var parts := Split(path, '.'); |parts| >= 2 ==> parts[1] == "result"
  }

  lemma SameReads(tools: Tools, a: Saved, b: Saved, args: Args)
    requires Same(a, b) && ReadsResults(args)
    ensures ReadAlike(tools, a, b, FieldReferences(args))
  {
  }

  /** Each reference has the same value in the remembered variables `mem` as in the live ones, and
      that is not null. */
  ghost predicate Kept(tools: Tools, live: Saved, mem: Saved, args: Args) {
    forall path | path in FieldReferences(args) ::
      Lookup(tools, mem, path) == Lookup(tools, live, path) && Lookup(tools, mem, path) != Some(Null)
  }

  /** Some reference has no value in `mem`, or the value null. */
  ghost predicate Lost(tools: Tools, mem: Saved, args: Args) {
    exists path | path in FieldReferences(args) :: !Readable(tools, mem, path, true)
  }

  /** A step whose arguments the live variables resolve keeps its references; one that they do not
      resolve stays unresolved. Before the first pause there is nothing to remember. */
  ghost predicate AgreesAt(tools: Tools, live: Saved, mem: Option<Saved>, args: Args) {
    mem.Some? ==>
      if ResolveArgs(tools, live, args, false).Some? then Kept(tools, live, mem.value, args) else Lost(tools, mem.value, args)
  }

  /** What step `s` reads after a pause: the first pause, and every later one, rebuilds the variables
      from the recorded calls. */
  function MemoryAt(tools: Tools, cfg: Config, s: Step, calls: seq<CallData>, mem: Option<Saved>): Option<Saved> {
    if GateOf(tools, cfg, s.tool) == Ask then Some(Rebuild(calls)) else mem
  }

  function MemoryAfter(mem: Option<Saved>, s: Step, r: Record): Option<Saved> {
    if mem.Some? then Some(Save(mem.value, s.saveAs, r)) else None
  }

  /** Along the run that never pauses, from step `k` on: what the steps read is remembered. */
  ghost predicate Remembers(tools: Tools, cfg: Config, task: nat, plan: Plan, k: nat, u: Exec, mem: Option<Saved>)
    requires k <= |plan|
    decreases |plan| - k
  {
    k < |plan| && Missing(plan[k].deps, u.done) == [] && GateOf(tools, cfg, plan[k].tool) in {Go, Ask} ==>
      var s := plan[k];
      var read := MemoryAt(tools, cfg, s, u.calls, mem);
      var args := ResolveArgs(tools, u.saved, s.args, false);
      && AgreesAt(tools, u.saved, read, s.args)
      && (args.Some? ==>
            var p := Perform(tools, FirstRun, task, s.id, s.tool, s.saveAs, args.value, u);
            p.Next? ==> Remembers(tools, cfg, task, plan, k + 1, p.st, MemoryAfter(read, s, Last(p.st.world))))
  }

  /** Resolving strictly from remembered variables gives what the live ones resolve to leniently,
      exactly if the step agrees. */
  lemma AgreesIff(tools: Tools, live: Saved, mem: Saved, read: Saved, args: Args)
    requires Same(mem, read) && ReadsResults(args)
    ensures ResolveArgs(tools, read, args, true) == ResolveArgs(tools, live, args, false)
            <==> AgreesAt(tools, live, Some(mem), args)
  {
    SameReads(tools, mem, read, args);
    FieldsResolveIff(tools, live, args, false);
    FieldsResolveIff(tools, read, args, true);
    if ResolveArgs(tools, live, args, false).Some? && ResolveArgs(tools, read, args, true).Some? {
      FieldsResolveAlike(tools, live, read, args);
    }
  }

  // ---------- The interrupted run ----------

  /** The configuration whose policy lets high-risk tools through. */
  function Permitting(cfg: Config): Config {
    cfg.(policy := if cfg.policy.Some? then Some(cfg.policy.value.(permitHigh := true)) else None)
  }

  predicate Enforces(cfg: Config) {
    cfg.policy.Some? && !cfg.policy.value.permitHigh && cfg.hasStore
  }

  predicate Paused(stop: Stop) {
    stop.Stopped? && stop.why.NeedsApproval?
  }

  /** How a resumed plan stands for the caller that counts calls. */
  function StopOf(snap: Snapshot, v: Verdict): Stop {
    match v
    case ArgsUnresolved => Stopped(snap.step, Unresolved)
    case ApprovedStepFailed(error) => Stopped(snap.step, ToolFailed(error))
    case Continued(stop) => stop
  }

  /** The world and the verdict after the first `n` approvals were granted and resumed once each. */
  function Chain(tools: Tools, cfg: Config, task: nat, world: World, stop: Stop, n: nat): (World, Stop)
    decreases n
  {
    if n == 0 || !Paused(stop) then (world, stop)
    else
      var (st, verdict) := Resume(tools, cfg, task, stop.why.snapshot, world);
      Chain(tools, cfg, task, st.world, StopOf(stop.why.snapshot, verdict), n - 1)
  }

  function RunWithPauses(tools: Tools, cfg: Config, task: nat, plan: Plan, world: World, n: nat): (World, Stop) {
    var (st, stop) := Run(tools, cfg, task, plan, world);
    Chain(tools, cfg, task, st.world, stop, n)
  }

  /** Runs only append to the log. */
  lemma {:induction false} RunExtends(tools: Tools, cfg: Config, phase: Phase, task: nat, plan: Plan, k: nat, st: Exec,
                                      run: (Exec, Stop))
    requires k <= |plan| && run == RunFrom(tools, cfg, phase, task, plan, k, st)
    ensures st.world.calls <= run.0.world.calls
    decreases |plan| - k
  {
    if k < |plan| {
      if phase == Resumed && plan[k].id in st.done {
        RunExtends(tools, cfg, phase, task, plan, k + 1, st, run);
      } else {
        var p := Advance(tools, cfg, phase, task, plan, plan[k], st);
        RunStep(tools, cfg, phase, task, plan, k, st, p, run);
        if p.Next? {
          RunExtends(tools, cfg, phase, task, plan, k + 1, p.st, run);
        }
      }
    }
  }

  lemma ResumeExtends(tools: Tools, cfg: Config, task: nat, snap: Snapshot, world: World)
    ensures world.calls <= Resume(tools, cfg, task, snap, world).0.world.calls
  {
    var st := Exec(world, snap.done, Rebuild(snap.calls), snap.calls);
    var args := ResolveArgs(tools, st.saved, snap.args, true);
    if args.Some? {
      var p := Perform(tools, Resumed, task, snap.step, snap.tool, FindSaveAs(snap.plan, snap.step), args.value, st);
      if p.Next? {
        RunExtends(tools, cfg, Resumed, task, snap.plan, 0, p.st, RunFrom(tools, cfg, Resumed, task, snap.plan, 0, p.st));
      }
    }
  }

  lemma {:induction false} ChainExtends(tools: Tools, cfg: Config, task: nat, world: World, stop: Stop, n: nat)
    ensures world.calls <= Chain(tools, cfg, task, world, stop, n).0.calls
    decreases n
  {
    if n > 0 && Paused(stop) {
      var m: nat := n - 1;
      var r := Resume(tools, cfg, task, stop.why.snapshot, world);
      ResumeExtends(tools, cfg, task, stop.why.snapshot, world);
      ChainExtends(tools, cfg, task, r.0.world, StopOf(stop.why.snapshot, r.1), m);
    }
  }

  // ---------- Simulation ----------

  /** The recorded calls of two runs, apart from what only one copy of the executor writes. */
  ghost predicate SameCalls(a: seq<CallData>, b: seq<CallData>) {
    && |a| == |b|
    && forall i | 0 <= i < |a| ::
         a[i].step == b[i].step && a[i].success == b[i].success && a[i].saveAs == b[i].saveAs && a[i].result == b[i].result
  }

  lemma {:induction false} SameRebuild(a: seq<CallData>, b: seq<CallData>)
    requires SameCalls(a, b)
    ensures Same(Rebuild(a), Rebuild(b))
  {
    if a != [] {
      SameRebuild(a[..|a| - 1], b[..|b| - 1]);
    }
  }

  /** What the interrupted run `c` reads: before the first pause it is the uninterrupted one. */
  ghost predicate ReadsFrom(phase: Phase, u: Exec, c: Exec, mem: Option<Saved>) {
    if mem.None? then phase == FirstRun && c == u else phase == Resumed && Same(mem.value, c.saved)
  }

  /** `u` is the uninterrupted run and `c` the interrupted one, both before step `k`. */
  ghost predicate InStep(cfg: Config, plan: Plan, k: nat, phase: Phase, u: Exec, c: Exec, mem: Option<Saved>) {
    && DistinctIds(plan) && Enforces(cfg)
    && (forall i | 0 <= i < |plan| :: ReadsResults(plan[i].args))
    && k <= |plan| && AtStep(plan, k, u.done, u.calls) && AtStep(plan, k, c.done, c.calls)
    && c.world == u.world && SameCalls(u.calls, c.calls)
    && ReadsFrom(phase, u, c, mem)
  }

  /** `run` is the interrupted plan up to its next pause, `chain` its state after `n` more approvals
      and `whole` the uninterrupted run, all from step `k`. */
  ghost predicate Runs(tools: Tools, cfg: Config, phase: Phase, task: nat, plan: Plan, k: nat, u: Exec, c: Exec, n: nat,
                       run: (Exec, Stop), chain: (World, Stop), whole: (Exec, Stop))
    requires k <= |plan|
  {
    && run == RunFrom(tools, cfg, phase, task, plan, k, c)
    && chain == Chain(tools, cfg, task, run.0.world, run.1, n)
    && whole == RunFrom(tools, Permitting(cfg), FirstRun, task, plan, k, u)
  }

  /** With `left` steps left: remembering runs agree, for any number `n` of granted approvals; others
      make different calls once all approvals are granted. */
  ghost predicate Verdict(n: nat, left: nat, remembers: bool, chain: (World, Stop), whole: (Exec, Stop)) {
    && (remembers && !Paused(chain.1) ==> chain.0 == whole.0.world && chain.1 == whole.1)
    && (remembers && Paused(chain.1) ==> n < left && chain.0.calls <= whole.0.world.calls)
    && (!remembers && n >= left ==> chain.0.calls != whole.0.world.calls)
  }

  /** `log` goes on from `base` with a call with arguments `args`, or not at all. */
  ghost predicate GoesOn(base: seq<Call>, args: Option<Args>, log: seq<Call>) {
    && base <= log
    && (if args.None? then log == base else |log| > |base| && log[|base|].record.args == args.value)
  }

  lemma DifferentArgsDiffer(base: seq<Call>, x: Option<Args>, y: Option<Args>, a: seq<Call>, b: seq<Call>)
    requires GoesOn(base, x, a) && GoesOn(base, y, b) && x != y
    ensures a != b
  {
  }

  lemma CallGoesOn(tools: Tools, phase: Phase, task: nat, s: Step, args: Args, st: Exec, p: Progress, log: seq<Call>)
    requires p == Perform(tools, phase, task, s.id, s.tool, s.saveAs, args, st) && p.st.world.calls <= log
    ensures GoesOn(st.world.calls, Some(args), log)
  {
    assert p.st.world.calls[|st.world.calls|] == log[|st.world.calls|];
  }

  lemma SaveKeepsSame(a: Saved, b: Saved, saveAs: Option<string>, r: Record)
    requires Same(a, b)
    ensures Same(Save(a, saveAs, r), Save(b, saveAs, r))
  {
  }

  /** Both runs perform step `k` with the same arguments and stay in step. */
  lemma PerformInStep(tools: Tools, cfg: Config, phase: Phase, task: nat, plan: Plan, k: nat, u: Exec, c: Exec,
                      mem: Option<Saved>, args: Args, p: Progress, q: Progress)
    requires k < |plan| && InStep(cfg, plan, k, phase, u, c, mem)
    requires p == Perform(tools, FirstRun, task, plan[k].id, plan[k].tool, plan[k].saveAs, args, u)
    requires q == Perform(tools, phase, task, plan[k].id, plan[k].tool, plan[k].saveAs, args, c)
    ensures q.st.world == p.st.world && (p.Next? <==> q.Next?)
    ensures p.Halt? ==> p.why == q.why && p.why.ToolFailed?
    ensures p.Next? ==> InStep(cfg, plan, k + 1, phase, p.st, q.st, MemoryAfter(mem, plan[k], Last(p.st.world)))
  {
    var s, r := plan[k], Last(p.st.world);
    if p.Next? {
      AtNextStep(plan, k, u.done, u.calls, Made(FirstRun, s.id, s.saveAs, r));
      AtNextStep(plan, k, c.done, c.calls, Made(phase, s.id, s.saveAs, r));
      if mem.Some? {
        SaveKeepsSame(mem.value, c.saved, s.saveAs, r);
      }
    }
  }

  /** The guards in front of step `k`'s call. */
  predicate Open(tools: Tools, cfg: Config, plan: Plan, k: nat, u: Exec) {
    k < |plan| && Missing(plan[k].deps, u.done) == [] && GateOf(tools, cfg, plan[k].tool) in {Go, Ask}
  }

  lemma RemembersStep(tools: Tools, cfg: Config, task: nat, plan: Plan, k: nat, u: Exec, mem: Option<Saved>, read: Option<Saved>,
                      args: Args, p: Progress)
    requires Open(tools, cfg, plan, k, u) && read == MemoryAt(tools, cfg, plan[k], u.calls, mem)
    requires ResolveArgs(tools, u.saved, plan[k].args, false) == Some(args)
    requires p == Perform(tools, FirstRun, task, plan[k].id, plan[k].tool, plan[k].saveAs, args, u)
    ensures Remembers(tools, cfg, task, plan, k, u, mem)
            <==> && AgreesAt(tools, u.saved, read, plan[k].args)
                 && (p.Next? ==> Remembers(tools, cfg, task, plan, k + 1, p.st, MemoryAfter(read, plan[k], Last(p.st.world))))
  {
  }

  lemma AdvancePerforms(tools: Tools, cfg: Config, phase: Phase, task: nat, plan: Plan, s: Step, st: Exec, args: Option<Args>)
    requires Missing(s.deps, st.done) == [] && GateOf(tools, cfg, s.tool) == Go
    requires args == ResolveArgs(tools, st.saved, s.args, phase == Resumed)
    ensures Advance(tools, cfg, phase, task, plan, s, st)
            == if args.Some? then Perform(tools, phase, task, s.id, s.tool, s.saveAs, args.value, st) else Halt(st, Unresolved)
  {
  }

  lemma PausesAt(tools: Tools, cfg: Config, phase: Phase, task: nat, plan: Plan, k: nat, c: Exec, snap: Snapshot)
    requires k < |plan| && plan[k].id !in c.done && Missing(plan[k].deps, c.done) == []
    requires GateOf(tools, cfg, plan[k].tool) == Ask
    requires snap == Snapshot(plan[k].id, plan[k].tool, plan[k].args, plan, c.done, c.calls)
    ensures var (st, stop) := RunFrom(tools, cfg, phase, task, plan, k, c);
            st.world == c.world && stop == Stopped(plan[k].id, NeedsApproval(snap))
  {
  }

  /** Granting the approval `chain` waits for. */
  lemma ChainStep(tools: Tools, cfg: Config, task: nat, step: string, snap: Snapshot, world: World, n: nat, m: nat,
                  chain: (World, Stop)) returns (rest: (Exec, Stop))
    requires n == m + 1 && chain == Chain(tools, cfg, task, world, Stopped(step, NeedsApproval(snap)), n)
    ensures rest.0 == Resume(tools, cfg, task, snap, world).0
    ensures rest.1 == StopOf(snap, Resume(tools, cfg, task, snap, world).1)
    ensures chain == Chain(tools, cfg, task, rest.0.world, rest.1, m)
  {
    var (st, verdict) := Resume(tools, cfg, task, snap, world);
    rest := (st, StopOf(snap, verdict));
  }

  lemma ChainEnds(tools: Tools, cfg: Config, task: nat, world: World, stop: Stop, n: nat)
    requires !Paused(stop)
    ensures Chain(tools, cfg, task, world, stop, n) == (world, stop)
  {
  }

  /** What a run from step `k` makes of that step's arguments. */
  lemma RunGoesOn(tools: Tools, cfg: Config, phase: Phase, task: nat, plan: Plan, k: nat, st: Exec, args: Option<Args>,
                  p: Progress, run: (Exec, Stop))
    requires k < |plan| && (phase == Resumed ==> plan[k].id !in st.done)
    requires Missing(plan[k].deps, st.done) == [] && GateOf(tools, cfg, plan[k].tool) == Go
    requires args == ResolveArgs(tools, st.saved, plan[k].args, phase == Resumed)
    requires p == Advance(tools, cfg, phase, task, plan, plan[k], st) && run == RunFrom(tools, cfg, phase, task, plan, k, st)
    ensures GoesOn(st.world.calls, args, run.0.world.calls)
    ensures args.None? ==> run.0 == st && run.1 == Stopped(plan[k].id, Unresolved)
  {
    AdvancePerforms(tools, cfg, phase, task, plan, plan[k], st, args);
    RunStep(tools, cfg, phase, task, plan, k, st, p, run);
    if args.Some? {
      if p.Next? {
        RunExtends(tools, cfg, phase, task, plan, k + 1, p.st, run);
      }
      CallGoesOn(tools, phase, task, plan[k], args.value, st, p, run.0.world.calls);
    }
  }

  lemma ChainGoesOn(tools: Tools, cfg: Config, task: nat, base: seq<Call>, args: Option<Args>, world: World, stop: Stop, n: nat)
    requires GoesOn(base, args, world.calls) && (args.None? ==> !Paused(stop))
    ensures GoesOn(base, args, Chain(tools, cfg, task, world, stop, n).0.calls)
  {
    ChainExtends(tools, cfg, task, world, stop, n);
    if args.None? {
      ChainEnds(tools, cfg, task, world, stop, n);
    }
  }

  /** Before step `k`, the two runs with what is to be shown of them. */
  ghost predicate Premises(tools: Tools, cfg: Config, phase: Phase, task: nat, plan: Plan, k: nat, u: Exec, c: Exec,
                           mem: Option<Saved>, n: nat, run: (Exec, Stop), chain: (World, Stop), whole: (Exec, Stop)) {
    InStep(cfg, plan, k, phase, u, c, mem) && Runs(tools, cfg, phase, task, plan, k, u, c, n, run, chain, whole)
  }

  /** From every common point on. */
  lemma {:induction false} RunInStep(tools: Tools, cfg: Config, phase: Phase, task: nat, plan: Plan, k: nat, u: Exec, c: Exec,
                                     mem: Option<Saved>, n: nat, run: (Exec, Stop), chain: (World, Stop), whole: (Exec, Stop))
    requires Premises(tools, cfg, phase, task, plan, k, u, c, mem, n, run, chain, whole)
    ensures Verdict(n, |plan| - k, Remembers(tools, cfg, task, plan, k, u, mem), chain, whole)
    decreases |plan| - k, 3
  {
    if k < |plan| {
      IdsAre(plan, k, plan[k].id);
      if !Open(tools, cfg, plan, k, u) {
        HaltInStep(tools, cfg, phase, task, plan, k, u, c, mem, n, run, chain, whole);
      } else if GateOf(tools, cfg, plan[k].tool) == Go {
        StepInStep(tools, cfg, phase, task, plan, k, u, c, mem, n, run, chain, whole);
      } else {
        PauseInStep(tools, cfg, phase, task, plan, k, u, c, mem, n, run, chain, whole);
      }
    }
  }

  /** Neither run calls the tool of step `k`: both stop for the same reason. */
  lemma HaltInStep(tools: Tools, cfg: Config, phase: Phase, task: nat, plan: Plan, k: nat, u: Exec, c: Exec,
                   mem: Option<Saved>, n: nat, run: (Exec, Stop), chain: (World, Stop), whole: (Exec, Stop))
    requires Premises(tools, cfg, phase, task, plan, k, u, c, mem, n, run, chain, whole)
    requires k < |plan| && plan[k].id !in c.done && !Open(tools, cfg, plan, k, u)
    ensures Verdict(n, |plan| - k, Remembers(tools, cfg, task, plan, k, u, mem), chain, whole)
  {
    var p := Advance(tools, Permitting(cfg), FirstRun, task, plan, plan[k], u);
    var q := Advance(tools, cfg, phase, task, plan, plan[k], c);
    assert p.Halt? && q.Halt? && p.why == q.why && !p.why.NeedsApproval?;
  }

  /** The step that both runs perform with the same arguments. */
  lemma {:induction false} PerformedInStep(tools: Tools, cfg: Config, phase: Phase, task: nat, plan: Plan, k: nat,
                                           u: Exec, c: Exec, mem: Option<Saved>, read: Option<Saved>, args: Args,
                                           p: Progress, q: Progress, n: nat, run: (Exec, Stop), chain: (World, Stop),
                                           whole: (Exec, Stop))
    requires Open(tools, cfg, plan, k, u) && InStep(cfg, plan, k, phase, u, c, read)
    requires read == MemoryAt(tools, cfg, plan[k], u.calls, mem) && AgreesAt(tools, u.saved, read, plan[k].args)
    requires ResolveArgs(tools, u.saved, plan[k].args, false) == Some(args)
    requires p == Perform(tools, FirstRun, task, plan[k].id, plan[k].tool, plan[k].saveAs, args, u)
    requires q == Perform(tools, phase, task, plan[k].id, plan[k].tool, plan[k].saveAs, args, c)
    requires chain == Chain(tools, cfg, task, run.0.world, run.1, n)
    requires p.Halt? ==> && run.0.world == q.st.world && run.1 == Stopped(plan[k].id, q.why)
                         && whole == (p.st, Stopped(plan[k].id, p.why))
    requires q.Next? ==> run.0 == RunFrom(tools, cfg, phase, task, plan, k + 1, q.st).0
                         && run.1 == RunFrom(tools, cfg, phase, task, plan, k + 1, q.st).1
    requires p.Next? ==> whole == RunFrom(tools, Permitting(cfg), FirstRun, task, plan, k + 1, p.st)
    ensures Verdict(n, |plan| - k - 1, Remembers(tools, cfg, task, plan, k, u, mem), chain, whole)
    decreases |plan| - k, 0
  {
    PerformInStep(tools, cfg, phase, task, plan, k, u, c, read, args, p, q);
    RemembersStep(tools, cfg, task, plan, k, u, mem, read, args, p);
    if p.Next? {
      var mem' := MemoryAfter(read, plan[k], Last(p.st.world));
      RunInStep(tools, cfg, phase, task, plan, k + 1, p.st, q.st, mem', n, run, chain, whole);
    } else {
      ChainEnds(tools, cfg, task, run.0.world, run.1, n);
    }
  }

  /** The case of a step that needs no approval. */
  lemma {:induction false} StepInStep(tools: Tools, cfg: Config, phase: Phase, task: nat, plan: Plan, k: nat, u: Exec, c: Exec,
                                      mem: Option<Saved>, n: nat, run: (Exec, Stop), chain: (World, Stop), whole: (Exec, Stop))
    requires Premises(tools, cfg, phase, task, plan, k, u, c, mem, n, run, chain, whole)
    requires Open(tools, cfg, plan, k, u) && plan[k].id !in c.done && GateOf(tools, cfg, plan[k].tool) == Go
    ensures Verdict(n, |plan| - k, Remembers(tools, cfg, task, plan, k, u, mem), chain, whole)
    decreases |plan| - k, 2
  {
    var x := ResolveArgs(tools, u.saved, plan[k].args, false);
    var y := ResolveArgs(tools, c.saved, plan[k].args, phase == Resumed);
    var p := Advance(tools, Permitting(cfg), FirstRun, task, plan, plan[k], u);
    var q := Advance(tools, cfg, phase, task, plan, plan[k], c);
    RunGoesOn(tools, Permitting(cfg), FirstRun, task, plan, k, u, x, p, whole);
    RunGoesOn(tools, cfg, phase, task, plan, k, c, y, q, run);
    ChainGoesOn(tools, cfg, task, c.world.calls, y, run.0.world, run.1, n);
    if mem.Some? {
      AgreesIff(tools, u.saved, mem.value, c.saved, plan[k].args);
    }
    if x != y {
      DifferentArgsDiffer(u.world.calls, x, y, whole.0.world.calls, chain.0.calls);
    } else if x.None? {
      ChainEnds(tools, cfg, task, run.0.world, run.1, n);
    } else {
      AdvancePerforms(tools, Permitting(cfg), FirstRun, task, plan, plan[k], u, x);
      AdvancePerforms(tools, cfg, phase, task, plan, plan[k], c, y);
      RunStep(tools, Permitting(cfg), FirstRun, task, plan, k, u, p, whole);
      RunStep(tools, cfg, phase, task, plan, k, c, q, run);
      PerformedInStep(tools, cfg, phase, task, plan, k, u, c, mem, mem, x.value, p, q, n, run, chain, whole);
    }
  }

  /** The paused step, resumed. */
  lemma ResumeGoesOn(tools: Tools, cfg: Config, task: nat, plan: Plan, k: nat, c: Exec, snap: Snapshot, y: Option<Args>,
                     rest: (Exec, Stop)) returns (q: Progress)
    requires k < |plan| && DistinctIds(plan) && AtStep(plan, k, c.done, c.calls)
    requires snap == Snapshot(plan[k].id, plan[k].tool, plan[k].args, plan, c.done, c.calls)
    requires y == ResolveArgs(tools, Rebuild(c.calls), plan[k].args, true)
    requires rest.0 == Resume(tools, cfg, task, snap, c.world).0
    requires rest.1 == StopOf(snap, Resume(tools, cfg, task, snap, c.world).1)
    ensures GoesOn(c.world.calls, y, rest.0.world.calls)
    ensures y.None? ==> rest.1 == Stopped(plan[k].id, Unresolved) && rest.0.world == c.world
    ensures y.Some? ==> q == Perform(tools, Resumed, task, plan[k].id, plan[k].tool, plan[k].saveAs, y.value,
                                     c.(saved := Rebuild(c.calls)))
    ensures y.Some? && q.Halt? ==> rest.0.world == q.st.world && rest.1 == Stopped(plan[k].id, q.why)
    ensures y.Some? && q.Next? ==> rest.0 == RunFrom(tools, cfg, Resumed, task, plan, k + 1, q.st).0
                                   && rest.1 == RunFrom(tools, cfg, Resumed, task, plan, k + 1, q.st).1
  {
    var st := c.(saved := Rebuild(c.calls));
    FindSaveAsAt(plan, k);
    q := Halt(st, Unresolved);
    if y.Some? {
      q := Perform(tools, Resumed, task, plan[k].id, plan[k].tool, plan[k].saveAs, y.value, st);
      if q.Next? {
        AtNextStep(plan, k, c.done, c.calls, Made(Resumed, plan[k].id, plan[k].saveAs, Last(q.st.world)));
        SkipDone(tools, cfg, task, plan, k + 1, 0, q.st);
        RunExtends(tools, cfg, Resumed, task, plan, k + 1, q.st, RunFrom(tools, cfg, Resumed, task, plan, k + 1, q.st));
      }
      CallGoesOn(tools, Resumed, task, plan[k], y.value, st, q, rest.0.world.calls);
    }
  }

  /** The case of a step that pauses the interrupted run. */
  lemma {:induction false} PauseInStep(tools: Tools, cfg: Config, phase: Phase, task: nat, plan: Plan, k: nat, u: Exec, c: Exec,
                                       mem: Option<Saved>, n: nat, run: (Exec, Stop), chain: (World, Stop), whole: (Exec, Stop))
    requires Premises(tools, cfg, phase, task, plan, k, u, c, mem, n, run, chain, whole)
    requires Open(tools, cfg, plan, k, u) && plan[k].id !in c.done && GateOf(tools, cfg, plan[k].tool) == Ask
    ensures Verdict(n, |plan| - k, Remembers(tools, cfg, task, plan, k, u, mem), chain, whole)
    decreases |plan| - k, 2
  {
    var snap := Snapshot(plan[k].id, plan[k].tool, plan[k].args, plan, c.done, c.calls);
    PausesAt(tools, cfg, phase, task, plan, k, c, snap);
    if n == 0 {
      RunExtends(tools, Permitting(cfg), FirstRun, task, plan, k, u, whole);
    } else {
      var m: nat := n - 1;
      var rest := ChainStep(tools, cfg, task, plan[k].id, snap, c.world, n, m, chain);
      GrantInStep(tools, cfg, phase, task, plan, k, u, c, mem, m, snap, rest, chain, whole);
    }
  }

  /** The paused step was resumed, with the outcome `rest`. */
  lemma {:induction false} GrantInStep(tools: Tools, cfg: Config, phase: Phase, task: nat, plan: Plan, k: nat, u: Exec, c: Exec,
                                       mem: Option<Saved>, m: nat, snap: Snapshot, rest: (Exec, Stop), chain: (World, Stop),
                                       whole: (Exec, Stop))
    requires Open(tools, cfg, plan, k, u) && InStep(cfg, plan, k, phase, u, c, mem) && GateOf(tools, cfg, plan[k].tool) == Ask
    requires whole == RunFrom(tools, Permitting(cfg), FirstRun, task, plan, k, u)
    requires snap == Snapshot(plan[k].id, plan[k].tool, plan[k].args, plan, c.done, c.calls)
    requires rest.0 == Resume(tools, cfg, task, snap, c.world).0
    requires rest.1 == StopOf(snap, Resume(tools, cfg, task, snap, c.world).1)
    requires chain == Chain(tools, cfg, task, rest.0.world, rest.1, m)
    ensures Verdict(m, |plan| - k - 1, Remembers(tools, cfg, task, plan, k, u, mem), chain, whole)
    decreases |plan| - k, 1
  {
    var read, c' := Rebuild(u.calls), c.(saved := Rebuild(c.calls));
    SameRebuild(u.calls, c.calls);
    var x := ResolveArgs(tools, u.saved, plan[k].args, false);
    var y := ResolveArgs(tools, c'.saved, plan[k].args, true);
    var p := Advance(tools, Permitting(cfg), FirstRun, task, plan, plan[k], u);
    RunGoesOn(tools, Permitting(cfg), FirstRun, task, plan, k, u, x, p, whole);
    var q := ResumeGoesOn(tools, cfg, task, plan, k, c, snap, y, rest);
    ChainGoesOn(tools, cfg, task, c.world.calls, y, rest.0.world, rest.1, m);
    AgreesIff(tools, u.saved, read, c'.saved, plan[k].args);
    if x != y {
      DifferentArgsDiffer(u.world.calls, x, y, whole.0.world.calls, chain.0.calls);
    } else if x.None? {
      ChainEnds(tools, cfg, task, rest.0.world, rest.1, m);
    } else {
      AdvancePerforms(tools, Permitting(cfg), FirstRun, task, plan, plan[k], u, x);
      RunStep(tools, Permitting(cfg), FirstRun, task, plan, k, u, p, whole);
      PerformedInStep(tools, cfg, Resumed, task, plan, k, u, c', mem, Some(read), x.value, p, q, m, rest, chain, whole);
    }
  }

  /** The law, for any number `n` of granted approvals. If the payload remembers what the steps read,
      then a plan that is not waiting has made the calls of the uninterrupted run - the same tools
      with the same resolved arguments and records, in order - and ends with its verdict; a waiting
      one has made a prefix of them. */
  lemma PauseResumeIsTransparent(tools: Tools, cfg: Config, task: nat, plan: Plan, world: World, n: nat)
    requires DistinctIds(plan) && Enforces(cfg) && forall i | 0 <= i < |plan| :: ReadsResults(plan[i].args)
    ensures var (after, stop) := RunWithPauses(tools, cfg, task, plan, world, n);
            var (st, end) := Run(tools, Permitting(cfg), task, plan, world);
            Verdict(n, |plan|, Remembers(tools, cfg, task, plan, 0, Exec(world, {}, map[], []), None), (after, stop), (st, end))
  {
    var start := Exec(world, {}, map[], []);
    RunInStep(tools, cfg, FirstRun, task, plan, 0, start, start, None, n, Run(tools, cfg, task, plan, world),
              RunWithPauses(tools, cfg, task, plan, world, n), Run(tools, Permitting(cfg), task, plan, world));
  }

  /** Once every approval is granted: the same world and the same verdict, exactly if the payload
      remembers what the steps read. */
  lemma TransparentIff(tools: Tools, cfg: Config, task: nat, plan: Plan, world: World, n: nat)
    requires DistinctIds(plan) && Enforces(cfg) && forall i | 0 <= i < |plan| :: ReadsResults(plan[i].args)
    requires n >= |plan|
    ensures var (after, stop) := RunWithPauses(tools, cfg, task, plan, world, n);
            var (st, end) := Run(tools, Permitting(cfg), task, plan, world);
            var remembers := Remembers(tools, cfg, task, plan, 0, Exec(world, {}, map[], []), None);
            (after == st.world && stop == end <==> remembers) && (after == st.world <==> remembers)
  {
    PauseResumeIsTransparent(tools, cfg, task, plan, world, n);
  }

  // ---------- In terms of nulls ----------

  function UnnamedIds(plan: Plan): set<string> {
    set i | 0 <= i < |plan| && VariableName(plan[i].saveAs).None? :: plan[i].id
  }

  /** The variables saved by the first `k` steps. */
  function SavedBefore(plan: Plan, k: nat): set<string>
    requires k <= |plan|
  {
    if k == 0 then {}
    else SavedBefore(plan, k - 1) + if VariableName(plan[k - 1].saveAs).Some? then {plan[k - 1].saveAs.value} else {}
  }

  /** Step ids are distinct; a step saved under no name is rebuilt under its id, which is neither a
      variable nor referenced; no variable is saved twice. */
  ghost predicate PlanOk(plan: Plan) {
    && DistinctIds(plan)
    && (forall i | 0 <= i < |plan| :: ReadsResults(plan[i].args))
    && (forall i, path | 0 <= i < |plan| && path in FieldReferences(plan[i].args) :: Split(path, '.')[0] !in UnnamedIds(plan))
    && (forall k | 0 <= k < |plan| && VariableName(plan[k].saveAs).Some? ::
          plan[k].saveAs.value !in SavedBefore(plan, k) && plan[k].saveAs.value !in UnnamedIds(plan))
  }

  ghost predicate NoNull(tools: Tools, live: Saved, args: Args) {
    forall path | path in FieldReferences(args) :: Lookup(tools, live, path) != Some(Null)
  }

  /** Along the run that never pauses: from the first step on that needs an approval, no reference of
      a called step has the value null. */
  ghost predicate NoNullFromFirstPause(tools: Tools, cfg: Config, task: nat, plan: Plan, k: nat, u: Exec, paused: bool)
    requires k <= |plan|
    decreases |plan| - k
  {
    k < |plan| && Missing(plan[k].deps, u.done) == [] && GateOf(tools, cfg, plan[k].tool) in {Go, Ask} ==>
      var s := plan[k];
      var now := paused || GateOf(tools, cfg, s.tool) == Ask;
      var args := ResolveArgs(tools, u.saved, s.args, false);
      args.Some? ==>
        && (now ==> NoNull(tools, u.saved, s.args))
        && var p := Perform(tools, FirstRun, task, s.id, s.tool, s.saveAs, args.value, u);
           p.Next? ==> NoNullFromFirstPause(tools, cfg, task, plan, k + 1, p.st, now)
  }

  /** `mem` knows the live variables whose result is not null, and besides them only ids of steps
      saved under no name, and nulls. */
  ghost predicate Mirrors(plan: Plan, live: Saved, mem: Saved) {
    && Covers(live, mem)
    && (forall name | name in mem && name !in UnnamedIds(plan) ::
          name in live && (ResultOf(live[name]) == Null ==> ResultOf(mem[name]) == Null))
  }

  lemma WalkFromNull(tools: Tools, parts: seq<string>)
    ensures Walk(tools, Null, parts) in {None, Some(Null)}
  {
  }

  lemma MirrorsReads(tools: Tools, plan: Plan, live: Saved, mem: Saved, path: string)
    requires Mirrors(plan, live, mem) && Split(path, '.')[0] !in UnnamedIds(plan)
    requires var parts := Split(path, '.'); |parts| >= 2 ==> parts[1] == "result"
    ensures Readable(tools, live, path, true) ==> Lookup(tools, mem, path) == Lookup(tools, live, path)
    ensures !Readable(tools, live, path, true) ==> !Readable(tools, mem, path, true)
  {
    var parts := Split(path, '.');
    if |parts| >= 2 {
      WalkFromNull(tools, parts[2..]);
    }
  }

  lemma AgreesIffNoNull(tools: Tools, plan: Plan, live: Saved, mem: Saved, args: Args)
    requires Mirrors(plan, live, mem) && ReadsResults(args)
    requires forall path | path in FieldReferences(args) :: Split(path, '.')[0] !in UnnamedIds(plan)
    ensures AgreesAt(tools, live, Some(mem), args) <==> (ResolveArgs(tools, live, args, false).Some? ==> NoNull(tools, live, args))
  {
    FieldsResolveIff(tools, live, args, false);
    forall path | path in FieldReferences(args)
      ensures Readable(tools, live, path, true) ==> Lookup(tools, mem, path) == Lookup(tools, live, path)
      ensures !Readable(tools, live, path, true) ==> !Readable(tools, mem, path, true)
    {
      MirrorsReads(tools, plan, live, mem, path);
    }
  }

  lemma SaveKeepsMirror(plan: Plan, live: Saved, mem: Saved, saveAs: Option<string>, r: Record)
    requires Mirrors(plan, live, mem)
    ensures Mirrors(plan, Save(live, saveAs, r), Save(mem, saveAs, r))
  {
  }

  lemma RebuildAppend(calls: seq<CallData>, made: CallData)
    requires made.success
    ensures var key := if VariableName(made.saveAs).Some? then made.saveAs.value else made.step;
            Rebuild(calls + [made])
            == if key != "" && made.result != Null then Rebuild(calls)[key := FromPayload(made)] else Rebuild(calls)
  {
    assert (calls + [made])[..|calls|] == calls;
  }

  lemma RebuildMirrors(plan: Plan, k: nat, live: Saved, calls: seq<CallData>, made: CallData, r: Record)
    requires PlanOk(plan) && k < |plan| && CallMatches(made, plan[k]) && made.result == r.result
    requires live.Keys <= SavedBefore(plan, k) && live.Keys !! UnnamedIds(plan) && Mirrors(plan, live, Rebuild(calls))
    ensures var after := Save(live, plan[k].saveAs, r);
            && after.Keys <= SavedBefore(plan, k + 1) && after.Keys !! UnnamedIds(plan)
            && Mirrors(plan, after, Rebuild(calls + [made]))
  {
    RebuildAppend(calls, made);
    if VariableName(plan[k].saveAs).Some? {
      assert plan[k].saveAs.value !in live;
    } else {
      assert plan[k].id in UnnamedIds(plan);
    }
  }

  lemma NoNullStep(tools: Tools, cfg: Config, task: nat, plan: Plan, k: nat, u: Exec, paused: bool, args: Args, p: Progress)
    requires Open(tools, cfg, plan, k, u) && ResolveArgs(tools, u.saved, plan[k].args, false) == Some(args)
    requires p == Perform(tools, FirstRun, task, plan[k].id, plan[k].tool, plan[k].saveAs, args, u)
    ensures var now := paused || GateOf(tools, cfg, plan[k].tool) == Ask;
            NoNullFromFirstPause(tools, cfg, task, plan, k, u, paused)
            <==> && (now ==> NoNull(tools, u.saved, plan[k].args))
                 && (p.Next? ==> NoNullFromFirstPause(tools, cfg, task, plan, k + 1, p.st, now))
  {
  }

  lemma {:induction false} RemembersIffNoNull(tools: Tools, cfg: Config, task: nat, plan: Plan, k: nat, u: Exec, mem: Option<Saved>)
    requires PlanOk(plan) && k <= |plan|
    requires u.saved.Keys <= SavedBefore(plan, k) && u.saved.Keys !! UnnamedIds(plan)
    requires Mirrors(plan, u.saved, Rebuild(u.calls)) && (mem.Some? ==> Mirrors(plan, u.saved, mem.value))
    ensures Remembers(tools, cfg, task, plan, k, u, mem) <==> NoNullFromFirstPause(tools, cfg, task, plan, k, u, mem.Some?)
    decreases |plan| - k
  {
    if Open(tools, cfg, plan, k, u) {
      var s := plan[k];
      var read := MemoryAt(tools, cfg, s, u.calls, mem);
      var args := ResolveArgs(tools, u.saved, s.args, false);
      if read.Some? {
        AgreesIffNoNull(tools, plan, u.saved, read.value, s.args);
      }
      if args.Some? {
        var p := Perform(tools, FirstRun, task, s.id, s.tool, s.saveAs, args.value, u);
        RemembersStep(tools, cfg, task, plan, k, u, mem, read, args.value, p);
        NoNullStep(tools, cfg, task, plan, k, u, mem.Some?, args.value, p);
        if p.Next? {
          var r := Last(p.st.world);
          RebuildMirrors(plan, k, u.saved, u.calls, Made(FirstRun, s.id, s.saveAs, r), r);
          if read.Some? {
            SaveKeepsMirror(plan, u.saved, read.value, s.saveAs, r);
          }
          RemembersIffNoNull(tools, cfg, task, plan, k + 1, p.st, MemoryAfter(read, s, r));
        }
      }
    }
  }

  /** The law in terms of nulls: for a plan whose names do not clash, the interrupted plan ends in the
      world and with the verdict of the uninterrupted one exactly if, from the first pause on, no
      called step reads a null. */
  lemma TransparentIffNoNull(tools: Tools, cfg: Config, task: nat, plan: Plan, world: World, n: nat)
    requires PlanOk(plan) && Enforces(cfg) && n >= |plan|
    ensures var (after, stop) := RunWithPauses(tools, cfg, task, plan, world, n);
            var (st, end) := Run(tools, Permitting(cfg), task, plan, world);
            after == st.world && stop == end
            <==> NoNullFromFirstPause(tools, cfg, task, plan, 0, Exec(world, {}, map[], []), false)
  {
    TransparentIff(tools, cfg, task, plan, world, n);
    RemembersIffNoNull(tools, cfg, task, plan, 0, Exec(world, {}, map[], []), None);
  }

  // ---------- When every reference has a value ----------

  /** No step saved under no name has a variable's name for its id. */
  ghost predicate IdsAreNotVariables(plan: Plan) {
    SavedBefore(plan, |plan|) !! UnnamedIds(plan)
  }

  /** From the first step on that needs an approval, every reference of a step that is reached has a
      value other than null. */
  ghost predicate ReadsValues(tools: Tools, cfg: Config, task: nat, plan: Plan, k: nat, u: Exec, paused: bool)
    requires k <= |plan|
    decreases |plan| - k
  {
    Open(tools, cfg, plan, k, u) ==>
      var s := plan[k];
      var now := paused || GateOf(tools, cfg, s.tool) == Ask;
      var args := ResolveArgs(tools, u.saved, s.args, false);
      && (now ==> forall path | path in FieldReferences(s.args) :: Readable(tools, u.saved, path, true))
      && (args.Some? ==>
            var p := Perform(tools, FirstRun, task, s.id, s.tool, s.saveAs, args.value, u);
            p.Next? ==> ReadsValues(tools, cfg, task, plan, k + 1, p.st, now))
  }

  /** `mem` knows every live variable whose result is not null, with that result. */
  ghost predicate Covers(live: Saved, mem: Saved) {
    forall name | name in live && ResultOf(live[name]) != Null :: name in mem && ResultOf(mem[name]) == ResultOf(live[name])
  }

  lemma CoveredReads(tools: Tools, live: Saved, mem: Saved, args: Args)
    requires Covers(live, mem) && ReadsResults(args)
    requires forall path | path in FieldReferences(args) :: Readable(tools, live, path, true)
    ensures AgreesAt(tools, live, Some(mem), args)
  {
    FieldsResolveIff(tools, live, args, false);
    forall path | path in FieldReferences(args) ensures Lookup(tools, mem, path) == Lookup(tools, live, path) {
      assert Readable(tools, live, path, true);
      var parts := Split(path, '.');
      WalkFromNull(tools, parts[2..]);
    }
  }

  lemma {:induction false} SavedGrows(plan: Plan, k: nat)
    requires k < |plan| && VariableName(plan[k].saveAs).Some?
    ensures plan[k].saveAs.value in SavedBefore(plan, |plan|)
  {
    SavedBetween(plan, k, |plan|);
  }

  lemma {:induction false} SavedBetween(plan: Plan, k: nat, n: nat)
    requires k < n <= |plan| && VariableName(plan[k].saveAs).Some?
    ensures plan[k].saveAs.value in SavedBefore(plan, n)
  {
    if k < n - 1 {
      SavedBetween(plan, k, n - 1);
    }
  }

  lemma RebuildCovers(plan: Plan, k: nat, live: Saved, calls: seq<CallData>, made: CallData, r: Record)
    requires IdsAreNotVariables(plan) && k < |plan| && CallMatches(made, plan[k]) && made.result == r.result
    requires live.Keys <= SavedBefore(plan, |plan|) && Covers(live, Rebuild(calls))
    ensures var after := Save(live, plan[k].saveAs, r);
            after.Keys <= SavedBefore(plan, |plan|) && Covers(after, Rebuild(calls + [made]))
  {
    RebuildAppend(calls, made);
    if VariableName(plan[k].saveAs).Some? {
      SavedGrows(plan, k);
    } else {
      assert plan[k].id in UnnamedIds(plan);
    }
  }

  /** One step of the proof: what it reads agrees, and what it saves is covered. */
  lemma ValuesStep(tools: Tools, cfg: Config, task: nat, plan: Plan, k: nat, u: Exec, mem: Option<Saved>, read: Option<Saved>,
                   args: Option<Args>) returns (p: Progress)
    requires IdsAreNotVariables(plan) && Open(tools, cfg, plan, k, u) && ReadsResults(plan[k].args)
    requires u.saved.Keys <= SavedBefore(plan, |plan|) && Covers(u.saved, Rebuild(u.calls))
    requires mem.Some? ==> Covers(u.saved, mem.value)
    requires read == MemoryAt(tools, cfg, plan[k], u.calls, mem)
    requires args == ResolveArgs(tools, u.saved, plan[k].args, false)
    requires ReadsValues(tools, cfg, task, plan, k, u, mem.Some?)
    ensures AgreesAt(tools, u.saved, read, plan[k].args)
    ensures args.Some? ==> p == Perform(tools, FirstRun, task, plan[k].id, plan[k].tool, plan[k].saveAs, args.value, u)
    ensures args.Some? && p.Next? ==>
              && ReadsValues(tools, cfg, task, plan, k + 1, p.st, read.Some?)
              && p.st.saved.Keys <= SavedBefore(plan, |plan|) && Covers(p.st.saved, Rebuild(p.st.calls))
              && (read.Some? ==> Covers(p.st.saved, MemoryAfter(read, plan[k], Last(p.st.world)).value))
  {
    if read.Some? {
      CoveredReads(tools, u.saved, read.value, plan[k].args);
    }
    p := Halt(u, Unresolved);
    if args.Some? {
      p := Perform(tools, FirstRun, task, plan[k].id, plan[k].tool, plan[k].saveAs, args.value, u);
      var r := Last(p.st.world);
      if p.Next? {
        RebuildCovers(plan, k, u.saved, u.calls, Made(FirstRun, plan[k].id, plan[k].saveAs, r), r);
      }
    }
  }

  lemma RemembersUnresolved(tools: Tools, cfg: Config, task: nat, plan: Plan, k: nat, u: Exec, mem: Option<Saved>)
    requires Open(tools, cfg, plan, k, u) && ResolveArgs(tools, u.saved, plan[k].args, false).None?
    requires AgreesAt(tools, u.saved, MemoryAt(tools, cfg, plan[k], u.calls, mem), plan[k].args)
    ensures Remembers(tools, cfg, task, plan, k, u, mem)
  {
  }

  lemma {:induction false} ValuesAreRemembered(tools: Tools, cfg: Config, task: nat, plan: Plan, k: nat, u: Exec, mem: Option<Saved>)
    requires IdsAreNotVariables(plan) && k <= |plan| && forall i | 0 <= i < |plan| :: ReadsResults(plan[i].args)
    requires u.saved.Keys <= SavedBefore(plan, |plan|) && Covers(u.saved, Rebuild(u.calls))
    requires mem.Some? ==> Covers(u.saved, mem.value)
    requires ReadsValues(tools, cfg, task, plan, k, u, mem.Some?)
    ensures Remembers(tools, cfg, task, plan, k, u, mem)
    decreases |plan| - k, 1
  {
    if Open(tools, cfg, plan, k, u) {
      var read := MemoryAt(tools, cfg, plan[k], u.calls, mem);
      var args := ResolveArgs(tools, u.saved, plan[k].args, false);
      var p := ValuesStep(tools, cfg, task, plan, k, u, mem, read, args);
      if args.None? {
        RemembersUnresolved(tools, cfg, task, plan, k, u, mem);
      } else {
        CallIsRemembered(tools, cfg, task, plan, k, u, mem, read, args.value, p);
      }
    }
  }

  lemma {:induction false} CallIsRemembered(tools: Tools, cfg: Config, task: nat, plan: Plan, k: nat, u: Exec, mem: Option<Saved>,
                                            read: Option<Saved>, args: Args, p: Progress)
    requires IdsAreNotVariables(plan) && forall i | 0 <= i < |plan| :: ReadsResults(plan[i].args)
    requires Open(tools, cfg, plan, k, u) && read == MemoryAt(tools, cfg, plan[k], u.calls, mem)
    requires ResolveArgs(tools, u.saved, plan[k].args, false) == Some(args) && AgreesAt(tools, u.saved, read, plan[k].args)
    requires p == Perform(tools, FirstRun, task, plan[k].id, plan[k].tool, plan[k].saveAs, args, u)
    requires p.Next? ==>
               && ReadsValues(tools, cfg, task, plan, k + 1, p.st, read.Some?)
               && p.st.saved.Keys <= SavedBefore(plan, |plan|) && Covers(p.st.saved, Rebuild(p.st.calls))
               && (read.Some? ==> Covers(p.st.saved, MemoryAfter(read, plan[k], Last(p.st.world)).value))
    ensures Remembers(tools, cfg, task, plan, k, u, mem)
    decreases |plan| - k, 0
  {
    RemembersStep(tools, cfg, task, plan, k, u, mem, read, args, p);
    if p.Next? {
      ValuesAreRemembered(tools, cfg, task, plan, k + 1, p.st, MemoryAfter(read, plan[k], Last(p.st.world)));
    }
  }

  /** The law as it is promised, with variables that may be saved again: if every reference from the
      first pause on has a value, the interrupted plan is the uninterrupted one. */
  lemma TransparentWithValues(tools: Tools, cfg: Config, task: nat, plan: Plan, world: World, n: nat)
    requires DistinctIds(plan) && IdsAreNotVariables(plan) && Enforces(cfg) && n >= |plan|
    requires forall i | 0 <= i < |plan| :: ReadsResults(plan[i].args)
    requires ReadsValues(tools, cfg, task, plan, 0, Exec(world, {}, map[], []), false)
    ensures var (after, stop) := RunWithPauses(tools, cfg, task, plan, world, n);
            var (st, end) := Run(tools, Permitting(cfg), task, plan, world);
            after == st.world && stop == end
  {
    ValuesAreRemembered(tools, cfg, task, plan, 0, Exec(world, {}, map[], []), None);
    TransparentIff(tools, cfg, task, plan, world, n);
  }

  // ---------- A null that is read ----------

  function NullReference(): string {
    ['$'] + ("v" + ['.'] + "result")
  }

  /** Two steps; the high-risk second one reads the first one's result. */
  function NullPlan(ref: string): Plan {
    [Step("a", "read", [], [], Some("v")), Step("b", "write", [Field("x", Str(ref))], ["a"], None)]
  }

  function Enforcing(): Config {
    Config(Some(Policy(true, false)), true)
  }

  predicate ReadsV(ref: string) {
    IsReference(ref) && Split(ref[1..], '.') == ["v", "result"]
  }

  lemma NullReferenceReadsV()
    ensures ReadsV(NullReference())
  {
    SplitFirst("v", "result", '.');
    assert NullReference()[1..] == "v" + ['.'] + "result";
  }

  /** A tool that succeeds with a null result, referenced by a high-risk step: the uninterrupted run
      calls both tools, the interrupted one is refused at the approved step for an unresolved
      variable. */
  lemma NullResultIsNotTransparent(tools: Tools, task: nat, world: World) returns (ref: string)
    requires "read" in tools.registry && tools.registry["read"] == ToolSpec(Low, "read", 0)
    requires "write" in tools.registry && tools.registry["write"].risk == High
    requires tools.answer(world.attempts, "read", []) == Returned(Null)
    ensures PlanOk(NullPlan(ref))
    ensures var (after, stop) := RunWithPauses(tools, Enforcing(), task, NullPlan(ref), world, 1);
            stop == Stopped("b", Unresolved) && |after.calls| == |world.calls| + 1
    ensures |Run(tools, Permitting(Enforcing()), task, NullPlan(ref), world).0.world.calls| == |world.calls| + 2
  {
    ref := NullReference();
    NullReferenceReadsV();
    NullPlanOk(ref);
    NullPlanRuns(tools, task, world, ref);
  }

  lemma NullPlanRuns(tools: Tools, task: nat, world: World, ref: string)
    requires "read" in tools.registry && tools.registry["read"] == ToolSpec(Low, "read", 0)
    requires "write" in tools.registry && tools.registry["write"].risk == High
    requires tools.answer(world.attempts, "read", []) == Returned(Null) && ReadsV(ref)
    ensures var (after, stop) := RunWithPauses(tools, Enforcing(), task, NullPlan(ref), world, 1);
            stop == Stopped("b", Unresolved) && |after.calls| == |world.calls| + 1
    ensures |Run(tools, Permitting(Enforcing()), task, NullPlan(ref), world).0.world.calls| == |world.calls| + 2
  {
    var cfg := Enforcing();
    var p := Perform(tools, FirstRun, task, "a", "read", Some("v"), [], Exec(world, {}, map[], []));
    NullStart(tools, cfg, task, ref, world, p);
    NullStart(tools, Permitting(cfg), task, ref, world, p);
    NullInterrupted(tools, task, ref, p.st);
    NullUninterrupted(tools, task, ref, p.st);
  }

  lemma NullPlanReferences(ref: string)
    requires ReadsV(ref)
    ensures FieldReferences(NullPlan(ref)[0].args) == {}
    ensures FieldReferences(NullPlan(ref)[1].args) == {ref[1..]}
  {
    var args := NullPlan(ref)[1].args;
    assert args[1..] == [] && References(args[0].value) == {ref[1..]};
  }

  lemma NullPlanNames(ref: string)
    ensures UnnamedIds(NullPlan(ref)) <= {"b"} && SavedBefore(NullPlan(ref), 0) == {} && DistinctIds(NullPlan(ref))
  {
  }

  lemma NullPlanOk(ref: string)
    requires ReadsV(ref)
    ensures PlanOk(NullPlan(ref))
  {
    NullPlanReferences(ref);
    NullPlanNames(ref);
    var plan := NullPlan(ref);
    forall i, path | 0 <= i < |plan| && path in FieldReferences(plan[i].args)
      ensures Split(path, '.') == ["v", "result"] && Split(path, '.')[0] !in UnnamedIds(plan)
    {
      assert path == ref[1..];
    }
  }

  lemma {:induction false} SplitFirst(a: string, b: string, sep: char)
    requires sep !in a
    ensures Split(a + [sep] + b, sep) == [a] + Split(b, sep)
  {
    var s := a + [sep] + b;
    if a != "" {
      SplitFirst(a[1..], b, sep);
      assert s[1..] == a[1..] + [sep] + b;
      assert [a[0]] + a[1..] == a;
      assert s[0] == a[0];
    } else {
      assert s[1..] == b;
    }
  }

  lemma NullStart(tools: Tools, cfg: Config, task: nat, ref: string, world: World, p: Progress)
    requires "read" in tools.registry && tools.registry["read"] == ToolSpec(Low, "read", 0)
    requires tools.answer(world.attempts, "read", []) == Returned(Null)
    requires cfg in {Enforcing(), Permitting(Enforcing())}
    requires p == Perform(tools, FirstRun, task, "a", "read", Some("v"), [], Exec(world, {}, map[], []))
    ensures Run(tools, cfg, task, NullPlan(ref), world) == RunFrom(tools, cfg, FirstRun, task, NullPlan(ref), 1, p.st)
    ensures p.Next? && |p.st.world.calls| == |world.calls| + 1
    ensures "v" in p.st.saved && ResultOf(p.st.saved["v"]) == Null && p.st.done == {"a"}
    ensures |p.st.calls| == 1 && p.st.calls[0].result == Null
  {
    var plan := NullPlan(ref);
    var start := Exec(world, {}, map[], []);
    assert plan[0].args == [];
    var attempts := Attempts(tools, world.attempts, "read", [], 0);
    assert attempts[|attempts| - 1].reply == Returned(Null);
    AdvancePerforms(tools, cfg, FirstRun, task, plan, plan[0], start, Some([]));
    RunStep(tools, cfg, FirstRun, task, plan, 0, start, p, Run(tools, cfg, task, plan, world));
  }

  lemma NullInterrupted(tools: Tools, task: nat, ref: string, st: Exec)
    requires "write" in tools.registry && tools.registry["write"].risk == High && ReadsV(ref)
    requires st.done == {"a"} && |st.calls| == 1 && st.calls[0].result == Null
    ensures var r := RunFrom(tools, Enforcing(), FirstRun, task, NullPlan(ref), 1, st);
            Chain(tools, Enforcing(), task, r.0.world, r.1, 1) == (st.world, Stopped("b", Unresolved))
  {
    var plan := NullPlan(ref);
    var s := plan[1];
    var snap := Snapshot("b", "write", s.args, plan, st.done, st.calls);
    PausesAt(tools, Enforcing(), FirstRun, task, plan, 1, st, snap);
    assert st.calls[..|st.calls| - 1] == [];
    assert Rebuild(st.calls) == map[];
    assert Resolve(tools, map[], s.args[0].value, true).None?;
    assert Resume(tools, Enforcing(), task, snap, st.world).1 == ArgsUnresolved;
    var stop := Stopped("b", NeedsApproval(snap));
    var rest := ChainStep(tools, Enforcing(), task, "b", snap, st.world, 1, 0,
                          Chain(tools, Enforcing(), task, st.world, stop, 1));
  }

  lemma NullUninterrupted(tools: Tools, task: nat, ref: string, st: Exec)
    requires "write" in tools.registry && tools.registry["write"].risk == High && ReadsV(ref)
    requires st.done == {"a"} && "v" in st.saved && ResultOf(st.saved["v"]) == Null
    ensures var cfg := Permitting(Enforcing());
            |RunFrom(tools, cfg, FirstRun, task, NullPlan(ref), 1, st).0.world.calls| == |st.world.calls| + 1
  {
    var cfg := Permitting(Enforcing());
    var plan := NullPlan(ref);
    var s := plan[1];
    assert Resolve(tools, st.saved, s.args[0].value, false) == Some(Null);
    assert s.args[1..] == [] && ResolveFields(tools, st.saved, [], false) == Some([]);
    var args := ResolveArgs(tools, st.saved, s.args, false);
    AdvancePerforms(tools, cfg, FirstRun, task, plan, s, st, args);
    var p := Perform(tools, FirstRun, task, s.id, s.tool, s.saveAs, args.value, st);
    RunStep(tools, cfg, FirstRun, task, plan, 1, st, p, RunFrom(tools, cfg, FirstRun, task, plan, 1, st));
  }
}
