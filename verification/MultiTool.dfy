/** The multi-tool executor: `MultiToolPipeline.run` and its second copy inside
    `ApprovalResumeService` (`_resume_multitool`, `_execute_subsequent_steps`), as functions. */
module MultiTool {
  import opened JsonValues
  import opened ToolGateways
  import opened Policies

  datatype Step = Step(id: string, tool: string, args: Args, deps: seq<string>, saveAs: Option<string>)

  type Plan = seq<Step>

  /** One entry of `tool_calls`; `extra` holds the entries that only one of the two copies writes. */
  datatype CallData = CallData(step: string, tool: string, success: bool, result: Json,
                               saveAs: Option<string>, extra: map<string, Json>)

  /** A saved variable: the record itself, or its `tool_calls` dict read back from a payload. */
  datatype Entry = InMemory(record: Record) | FromPayload(call: CallData)

  type Saved = map<string, Entry>

  /** The payload of a multi-tool approval. */
  datatype Snapshot = Snapshot(step: string, tool: string, args: Args, plan: Plan, done: set<string>,
                               calls: seq<CallData>)

  datatype Exec = Exec(world: World, done: set<string>, saved: Saved, calls: seq<CallData>)

  datatype Why =
    | MissingDeps(missing: seq<string>)
    | NotRegistered
    | NeedsApproval(snapshot: Snapshot)
    | PolicyBlocked
    | Unresolved
    | ToolFailed(error: Json)

  datatype Stop = Finished | Stopped(step: string, why: Why)

  /** The first run, or the steps after an approved one. */
  datatype Phase = FirstRun | Resumed

  datatype Config = Config(policy: Option<Policy>, hasStore: bool)

  // ---------- Saved variables and references ----------

  /** A missing and an empty `save_as` are both falsy. */
  function VariableName(saveAs: Option<string>): Option<string> {
    if saveAs.Some? && saveAs.value != "" then saveAs else None
  }

  function OptionalText(o: Option<string>): Json {
    if o.Some? then Str(o.value) else Null
  }

  function EntryField(entry: Entry, part: string): (v: Option<Json>)
    ensures part == "result" ==> v == Some(ResultOf(entry))
  {
    var fields := match entry
      case InMemory(r) => r.volatile + map["tool_name" := Str(r.tool), "arguments" := Obj(r.args), "result" := r.result,
                                       "success" := Bool(r.success), "error" := r.error,
                                       "retry_count" := Num(r.retries as real)]
      case FromPayload(c) => c.extra + map["step_id" := Str(c.step), "tool_name" := Str(c.tool), "result" := c.result,
                                      "success" := Bool(c.success), "save_as" := OptionalText(c.saveAs)];
    if part in fields then Some(fields[part]) else None
  }

  function ResultOf(entry: Entry): Json {
    match entry
    case InMemory(r) => r.result
    case FromPayload(c) => c.result
  }

  function Walk(tools: Tools, current: Json, parts: seq<string>): Option<Json>
    decreases |parts|
  {
    if parts == [] then Some(current)
    else match current
      case Obj(fields) =>
        var next := Get(fields, parts[0]);
        if next.None? then None else Walk(tools, next.value, parts[1..])
      case Null => None
      case _ =>
        var next := tools.attribute(current, parts[0]);
        if next.None? then None else Walk(tools, next.value, parts[1..])
  }

  /** `_resolve_variable`: None where the pipeline answers `_UNRESOLVED`. */
  function Lookup(tools: Tools, saved: Saved, path: string): Option<Json> {
    var parts := Split(path, '.');
    if |parts| < 2 || parts[0] !in saved then None
    else
      var first := EntryField(saved[parts[0]], parts[1]);
      if first.None? then None else Walk(tools, first.value, parts[2..])
  }

  predicate IsReference(s: string) {
    s != "" && s[0] == '$'
  }

  /** `_resolve_value`. The copy used after an approval also rejects a reference whose value is
      null; `strict` selects that copy. None stands for the exception. */
  function Resolve(tools: Tools, saved: Saved, v: Json, strict: bool): Option<Json>
    decreases v
  {
    match v
    case Str(s) =>
      if !IsReference(s) then Some(v)
      else
        var found := Lookup(tools, saved, s[1..]);
        if strict && found == Some(Null) then None else found
    case Obj(fields) =>
      var r := ResolveFields(tools, saved, fields, strict);
      if r.Some? then Some(Obj(r.value)) else None
    case List(items) =>
      var r := ResolveItems(tools, saved, items, strict);
      if r.Some? then Some(List(r.value)) else None
    case _ => Some(v)
  }

  function ResolveFields(tools: Tools, saved: Saved, fields: seq<Field>, strict: bool): Option<seq<Field>>
    decreases fields
  {
    if fields == [] then Some([])
    else
      var first := Resolve(tools, saved, fields[0].value, strict);
      var rest := ResolveFields(tools, saved, fields[1..], strict);
      if first.Some? && rest.Some? then Some([Field(fields[0].key, first.value)] + rest.value) else None
  }

  function ResolveItems(tools: Tools, saved: Saved, items: seq<Json>, strict: bool): Option<seq<Json>>
    decreases items
  {
    if items == [] then Some([])
    else
      var first := Resolve(tools, saved, items[0], strict);
      var rest := ResolveItems(tools, saved, items[1..], strict);
      if first.Some? && rest.Some? then Some([first.value] + rest.value) else None
  }

  function ResolveArgs(tools: Tools, saved: Saved, args: Args, strict: bool): Option<Args> {
    ResolveFields(tools, saved, args, strict)
  }

  /** `_rebuild_saved`: later entries overwrite earlier ones. */
  function Rebuild(calls: seq<CallData>): Saved {
    if calls == [] then map[]
    else
      var before := Rebuild(calls[..|calls| - 1]);
      var c := calls[|calls| - 1];
      var key := if VariableName(c.saveAs).Some? then c.saveAs.value else c.step;
      if key != "" && c.success && c.result != Null then before[key := FromPayload(c)] else before
  }

  function Save(saved: Saved, saveAs: Option<string>, record: Record): Saved {
    if VariableName(saveAs).Some? then saved[saveAs.value := InMemory(record)] else saved
  }

  // ---------- One step, and the loop over the plan ----------

  function Missing(deps: seq<string>, done: set<string>): seq<string> {
    if deps == [] then []
    else if deps[0] in done then Missing(deps[1..], done) else [deps[0]] + Missing(deps[1..], done)
  }

  datatype Gate = Unknown | Go | Ask | Refuse

  function GateOf(tools: Tools, cfg: Config, tool: string): Gate {
    if tool !in tools.registry then Unknown
    else if cfg.policy.None? then Go
    else
      var d := Evaluate(tools, cfg.policy.value, tool, tools.registry[tool].risk);
      if d.allowed then Go else if d.requiresApproval && cfg.hasStore then Ask else Refuse
  }

  /** The `tool_calls` entry of a made call, as each copy writes it. */
  function Made(phase: Phase, step: string, saveAs: Option<string>, r: Record): CallData {
    CallData(step, r.tool, r.success, r.result, saveAs,
             match phase
             case FirstRun => (if "latency_ms" in r.volatile then map["latency_ms" := r.volatile["latency_ms"]] else map[]) +
                              map["arguments" := Obj(r.args), "error" := r.error, "retry_count" := Num(r.retries as real)]
             case Resumed => if Truthy(r.error) then map["error" := r.error] else map[])
  }

  /** Only the first run reports a step that it did not make. */
  function Reported(phase: Phase, calls: seq<CallData>, s: Step): seq<CallData> {
    if phase == FirstRun
    then calls + [CallData(s.id, s.tool, false, Null, None, map["arguments" := Obj(s.args), "policy_blocked" := Bool(true)])]
    else calls
  }

  datatype Progress = Next(st: Exec) | Halt(st: Exec, why: Why)

  /** One iteration of either loop on a step that is not skipped. */
  function Advance(tools: Tools, cfg: Config, phase: Phase, task: nat, plan: Plan, s: Step, st: Exec): (p: Progress)
    ensures st.world.calls <= p.st.world.calls
    ensures p.Next? ==> p.st.done == st.done + {s.id} && |p.st.calls| == |st.calls| + 1
    ensures p.Halt? ==> p.st.done == st.done && p.st.saved == st.saved
    ensures p.Halt? && !p.why.ToolFailed? ==> p.st.world == st.world
  {
    var missing := Missing(s.deps, st.done);
    if missing != [] then Halt(st, MissingDeps(missing))
    else match GateOf(tools, cfg, s.tool)
      case Unknown => Halt(st.(calls := Reported(phase, st.calls, s)), NotRegistered)
      case Ask => Halt(st.(calls := Reported(phase, st.calls, s)),
                       NeedsApproval(Snapshot(s.id, s.tool, s.args, plan, st.done, st.calls)))
      case Refuse => Halt(st.(calls := Reported(phase, st.calls, s)), PolicyBlocked)
      case Go =>
        var args := ResolveArgs(tools, st.saved, s.args, phase == Resumed);
        if args.None? then Halt(st, Unresolved)
        else Perform(tools, phase, task, s.id, s.tool, s.saveAs, args.value, st)
  }

  /** The gateway call of a step and what is recorded of it. */
  function Perform(tools: Tools, phase: Phase, task: nat, step: string, tool: string, saveAs: Option<string>,
                   args: Args, st: Exec): (p: Progress)
    ensures p.st.world == CallTool(tools, st.world, Owner(task, step), tool, args)
    ensures p.st.calls == st.calls + [Made(phase, step, saveAs, Last(p.st.world))]
    ensures p.Next? <==> Last(p.st.world).success
    ensures p.Next? ==> p.st.done == st.done + {step} && p.st.saved == Save(st.saved, saveAs, Last(p.st.world))
    ensures p.Halt? ==> p.why == ToolFailed(Last(p.st.world).error) && p.st.done == st.done && p.st.saved == st.saved
  {
    var world := CallTool(tools, st.world, Owner(task, step), tool, args);
    var r := Last(world);
    var called := st.(world := world, calls := st.calls + [Made(phase, step, saveAs, r)]);
    if !r.success then Halt(called, ToolFailed(r.error))
    else Next(called.(saved := Save(st.saved, saveAs, r), done := st.done + {step}))
  }

  /** The loop over the plan from step `k`. After an approval, completed steps are skipped. */
  function RunFrom(tools: Tools, cfg: Config, phase: Phase, task: nat, plan: Plan, k: nat, st: Exec): (r: (Exec, Stop))
    requires k <= |plan|
    decreases |plan| - k
  {
    if k == |plan| then (st, Finished)
    else if phase == Resumed && plan[k].id in st.done then RunFrom(tools, cfg, phase, task, plan, k + 1, st)
    else match Advance(tools, cfg, phase, task, plan, plan[k], st)
      case Next(st') => RunFrom(tools, cfg, phase, task, plan, k + 1, st')
      case Halt(st', why) => (st', Stopped(plan[k].id, why))
  }

  /** `MultiToolPipeline.run` on a matched plan. */
  function Run(tools: Tools, cfg: Config, task: nat, plan: Plan, world: World): (Exec, Stop) {
    RunFrom(tools, cfg, FirstRun, task, plan, 0, Exec(world, {}, map[], []))
  }

  // ---------- Resuming an approved step ----------

  datatype Verdict = ArgsUnresolved | ApprovedStepFailed(error: Json) | Continued(stop: Stop)

  function FindSaveAs(plan: Plan, step: string): Option<string> {
    if plan == [] then None
    else if plan[0].id == step then plan[0].saveAs else FindSaveAs(plan[1..], step)
  }

  /** `_resume_multitool` up to the store updates: the approved step without any further check,
      then the rest of the plan. */
  function Resume(tools: Tools, cfg: Config, task: nat, snap: Snapshot, world: World): (Exec, Verdict) {
    var st := Exec(world, snap.done, Rebuild(snap.calls), snap.calls);
    var args := ResolveArgs(tools, st.saved, snap.args, true);
    if args.None? then (st, ArgsUnresolved)
    else match Perform(tools, Resumed, task, snap.step, snap.tool, FindSaveAs(snap.plan, snap.step), args.value, st)
      case Halt(st', why) => (st', ApprovedStepFailed(why.error))
      case Next(st') =>
        var (st'', stop) := RunFrom(tools, cfg, Resumed, task, snap.plan, 0, st');
        (st'', Continued(stop))
  }
}
