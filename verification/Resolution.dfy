/** What a step's arguments become: every reference is replaced by the value it leads to, and nothing
    else changes. */
module Resolution {
  import opened JsonValues
  import opened ToolGateways
  import opened MultiTool
  import opened PlanProgress

  // ---------- Where a reference leads ----------

  /** `w` is what `v` holds under `part`: the dict's first entry with that key, or the attribute of a
      value that is neither a dict nor null. */
  ghost predicate Holds(tools: Tools, v: Json, part: string, w: Json) {
    match v
    case Obj(fields) => FirstEntry(fields, part, w)
    case Null => false
    case _ => tools.attribute(v, part) == Some(w)
  }

  /** Each value is held by the one before it, under the next part. */
  ghost predicate Chained(tools: Tools, values: seq<Json>, parts: seq<string>) {
    |values| == |parts| + 1 && forall i | 0 <= i < |parts| :: Holds(tools, values[i], parts[i], values[i + 1])
  }

  /** The chain of values that starts with `start` and follows `parts` ends with `end`. */
  ghost predicate Leads(tools: Tools, start: Json, parts: seq<string>, end: Json) {
    exists values: seq<Json> :: Chained(tools, values, parts) && values[0] == start && values[|parts|] == end
  }

  lemma {:induction false} WalkLeads(tools: Tools, start: Json, parts: seq<string>, end: Json) returns (values: seq<Json>)
    requires Walk(tools, start, parts) == Some(end)
    ensures Chained(tools, values, parts) && values[0] == start && values[|parts|] == end
    decreases |parts|
  {
    values := [start];
    if parts != [] {
      var next := if start.Obj? then Get(start.fields, parts[0]) else tools.attribute(start, parts[0]);
      if start.Obj? {
        GetIs(start.fields, parts[0]);
      }
      var rest := WalkLeads(tools, next.value, parts[1..], end);
      values := [start] + rest;
      forall i | 0 <= i < |parts| ensures Holds(tools, values[i], parts[i], values[i + 1]) {
        if i > 0 {
          assert Holds(tools, rest[i - 1], parts[1..][i - 1], rest[i]);
        }
      }
    }
  }

  lemma {:induction false} LeadsWalk(tools: Tools, values: seq<Json>, parts: seq<string>)
    requires Chained(tools, values, parts)
    ensures Walk(tools, values[0], parts) == Some(values[|parts|])
    decreases |parts|
  {
    if parts != [] {
      assert Holds(tools, values[0], parts[0], values[1]);
      if values[0].Obj? {
        GetIs(values[0].fields, parts[0]);
      }
      forall i | 0 <= i < |parts[1..]| ensures Holds(tools, values[1..][i], parts[1..][i], values[1..][i + 1]) {
        assert Holds(tools, values[i + 1], parts[i + 1], values[i + 2]);
      }
      LeadsWalk(tools, values[1..], parts[1..]);
    }
  }

  lemma WalkIs(tools: Tools, start: Json, parts: seq<string>, end: Json)
    ensures Walk(tools, start, parts) == Some(end) <==> Leads(tools, start, parts, end)
  {
    if Walk(tools, start, parts) == Some(end) {
      var values := WalkLeads(tools, start, parts, end);
    }
    if Leads(tools, start, parts, end) {
      var values: seq<Json> :| Chained(tools, values, parts) && values[0] == start && values[|parts|] == end;
      LeadsWalk(tools, values, parts);
    }
  }

  /** The attributes of a saved record, and the entries of one read back from a payload. */
  ghost predicate HasAttribute(entry: Entry, part: string, v: Json) {
    match entry
    case InMemory(r) =>
      if part == "result" then v == r.result
      else if part == "tool_name" then v == Str(r.tool)
      else if part == "arguments" then v == Obj(r.args)
      else if part == "success" then v == Bool(r.success)
      else if part == "error" then v == r.error
      else if part == "retry_count" then v == Num(r.retries as real)
      else part in r.volatile && v == r.volatile[part]
    case FromPayload(c) =>
      if part == "result" then v == c.result
      else if part == "step_id" then v == Str(c.step)
      else if part == "tool_name" then v == Str(c.tool)
      else if part == "success" then v == Bool(c.success)
      else if part == "save_as" then v == (if c.saveAs.Some? then Str(c.saveAs.value) else Null)
      else part in c.extra && v == c.extra[part]
  }

  lemma AttributeIs(entry: Entry, part: string, v: Json)
    ensures EntryField(entry, part) == Some(v) <==> HasAttribute(entry, part, v)
  {
  }

  /** The path names a saved variable, one of its attributes, and a chain from there to `w`. */
  ghost predicate PathLeads(tools: Tools, saved: Saved, path: string, name: string, attribute: string, rest: seq<string>,
                            first: Json, w: Json) {
    && Dotless([name, attribute] + rest) && path == Dotted([name, attribute] + rest)
    && name in saved && HasAttribute(saved[name], attribute, first) && Leads(tools, first, rest, w)
  }

  ghost predicate RefersTo(tools: Tools, saved: Saved, path: string, w: Json) {
    exists name, attribute, rest, first :: PathLeads(tools, saved, path, name, attribute, rest, first, w)
  }

  lemma LookupRefers(tools: Tools, saved: Saved, path: string, w: Json)
    requires Lookup(tools, saved, path) == Some(w)
    ensures RefersTo(tools, saved, path, w)
  {
    SplitIs(path);
    var parts := Split(path, '.');
    var first := EntryField(saved[parts[0]], parts[1]).value;
    AttributeIs(saved[parts[0]], parts[1], first);
    WalkIs(tools, first, parts[2..], w);
    assert [parts[0], parts[1]] + parts[2..] == parts;
    assert PathLeads(tools, saved, path, parts[0], parts[1], parts[2..], first, w);
  }

  lemma RefersLooksUp(tools: Tools, saved: Saved, path: string, w: Json)
    requires RefersTo(tools, saved, path, w)
    ensures Lookup(tools, saved, path) == Some(w)
  {
    var name, attribute, rest, first :| PathLeads(tools, saved, path, name, attribute, rest, first, w);
    var parts := [name, attribute] + rest;
    SplitOf(parts);
    assert Split(path, '.') == parts && parts[2..] == rest;
    AttributeIs(saved[name], attribute, first);
    WalkIs(tools, first, rest, w);
  }

  // ---------- Substitution ----------

  /** `w` is `v` with each reference replaced by what it refers to, by a value other than null if
      `strict`. Everything else stays: values, keys and order. */
  ghost predicate Substituted(tools: Tools, saved: Saved, strict: bool, v: Json, w: Json)
    decreases v
  {
    match v
    case Str(s) => if |s| > 0 && s[0] == '$' then RefersTo(tools, saved, s[1..], w) && !(strict && w == Null) else w == v
    case Obj(fields) => w.Obj? && FieldsSubstituted(tools, saved, strict, fields, w.fields)
    case List(items) => w.List? && ItemsSubstituted(tools, saved, strict, items, w.items)
    case _ => w == v
  }

  ghost predicate FieldsSubstituted(tools: Tools, saved: Saved, strict: bool, fields: seq<Field>, out: seq<Field>)
    decreases fields
  {
    && |out| == |fields|
    && forall i | 0 <= i < |fields| ::
         out[i].key == fields[i].key && Substituted(tools, saved, strict, fields[i].value, out[i].value)
  }

  ghost predicate ItemsSubstituted(tools: Tools, saved: Saved, strict: bool, items: seq<Json>, out: seq<Json>)
    decreases items
  {
    |out| == |items| && forall i | 0 <= i < |items| :: Substituted(tools, saved, strict, items[i], out[i])
  }

  /** Resolving is substituting; a value does not resolve exactly if nothing can be substituted. */
  lemma {:induction false} ResolveIs(tools: Tools, saved: Saved, strict: bool, v: Json, w: Json)
    ensures Resolve(tools, saved, v, strict) == Some(w) <==> Substituted(tools, saved, strict, v, w)
    decreases v
  {
    match v
    case Str(s) =>
      if IsReference(s) {
        if Lookup(tools, saved, s[1..]) == Some(w) {
          LookupRefers(tools, saved, s[1..], w);
        }
        if RefersTo(tools, saved, s[1..], w) {
          RefersLooksUp(tools, saved, s[1..], w);
        }
      }
    case Obj(fields) =>
      if w.Obj? {
        FieldsAre(tools, saved, strict, fields, w.fields);
      }
    case List(items) =>
      if w.List? {
        ItemsAre(tools, saved, strict, items, w.items);
      }
    case _ =>
  }

  lemma {:induction false} FieldsAre(tools: Tools, saved: Saved, strict: bool, fields: seq<Field>, out: seq<Field>)
    ensures ResolveFields(tools, saved, fields, strict) == Some(out) <==> FieldsSubstituted(tools, saved, strict, fields, out)
    decreases fields
  {
    if fields != [] && out != [] {
      ResolveIs(tools, saved, strict, fields[0].value, out[0].value);
      FieldsAre(tools, saved, strict, fields[1..], out[1..]);
      FieldsSplit(tools, saved, strict, fields, out);
      assert out == [out[0]] + out[1..];
    }
  }

  lemma FieldsSplit(tools: Tools, saved: Saved, strict: bool, fields: seq<Field>, out: seq<Field>)
    requires fields != [] && out != []
    ensures FieldsSubstituted(tools, saved, strict, fields, out)
            <==> && out[0].key == fields[0].key && Substituted(tools, saved, strict, fields[0].value, out[0].value)
                 && FieldsSubstituted(tools, saved, strict, fields[1..], out[1..])
  {
    var fs, os := fields[1..], out[1..];
    assert forall i | 0 <= i < |fs| :: fs[i] == fields[i + 1];
    assert forall i | 0 <= i < |os| :: os[i] == out[i + 1];
    if FieldsSubstituted(tools, saved, strict, fs, os) {
      assert forall i | 0 < i < |fields| && |fields| == |out| :: fields[i] == fs[i - 1] && out[i] == os[i - 1];
    }
  }

  lemma {:induction false} ItemsAre(tools: Tools, saved: Saved, strict: bool, items: seq<Json>, out: seq<Json>)
    ensures ResolveItems(tools, saved, items, strict) == Some(out) <==> ItemsSubstituted(tools, saved, strict, items, out)
    decreases items
  {
    if items != [] && out != [] {
      ResolveIs(tools, saved, strict, items[0], out[0]);
      ItemsAre(tools, saved, strict, items[1..], out[1..]);
      ItemsSplit(tools, saved, strict, items, out);
      assert out == [out[0]] + out[1..];
    }
  }

  lemma ItemsSplit(tools: Tools, saved: Saved, strict: bool, items: seq<Json>, out: seq<Json>)
    requires items != [] && out != []
    ensures ItemsSubstituted(tools, saved, strict, items, out)
            <==> && Substituted(tools, saved, strict, items[0], out[0])
                 && ItemsSubstituted(tools, saved, strict, items[1..], out[1..])
  {
    var xs, os := items[1..], out[1..];
    assert forall i | 0 <= i < |xs| :: xs[i] == items[i + 1];
    assert forall i | 0 <= i < |os| :: os[i] == out[i + 1];
    if ItemsSubstituted(tools, saved, strict, xs, os) {
      assert forall i | 0 < i < |items| && |items| == |out| :: items[i] == xs[i - 1] && out[i] == os[i - 1];
    }
  }

  // ---------- The variables ----------

  /** The call is of a step that saves its record as `x`. */
  ghost predicate Saves(plan: Plan, c: Call, x: string) {
    exists k | 0 <= k < |plan| :: plan[k].id == c.owner.step && plan[k].saveAs == Some(x) && x != ""
  }

  /** The variables after some calls of a plan's steps. */
  function SavedAfter(plan: Plan, saved: Saved, calls: seq<Call>): Saved {
    if calls == [] then saved
    else
      var last := calls[|calls| - 1];
      Save(SavedAfter(plan, saved, calls[..|calls| - 1]), FindSaveAs(plan, last.owner.step), last.record)
  }

  lemma {:induction false} SavesIs(plan: Plan, c: Call, x: string)
    requires DistinctIds(plan)
    ensures Saves(plan, c, x) <==> VariableName(FindSaveAs(plan, c.owner.step)) == Some(x)
  {
    if k :| 0 <= k < |plan| && plan[k].id == c.owner.step {
      FindSaveAsAt(plan, k);
    } else {
      NotFound(plan, c.owner.step);
    }
  }

  lemma {:induction false} NotFound(plan: Plan, step: string)
    requires forall k | 0 <= k < |plan| :: plan[k].id != step
    ensures FindSaveAs(plan, step) == None
  {
    if plan != [] {
      NotFound(plan[1..], step);
    }
  }

  /** A variable holds the record of the latest call that saves it, or else what it held before. */
  lemma {:induction false} SavedAfterIs(plan: Plan, saved: Saved, calls: seq<Call>, x: string) returns (m: Option<nat>)
    requires DistinctIds(plan)
    ensures m.Some? ==>
              && m.value < |calls| && Saves(plan, calls[m.value], x)
              && (forall j | m.value < j < |calls| :: !Saves(plan, calls[j], x))
              && x in SavedAfter(plan, saved, calls) && SavedAfter(plan, saved, calls)[x] == InMemory(calls[m.value].record)
    ensures m.None? ==>
              && (forall j | 0 <= j < |calls| :: !Saves(plan, calls[j], x))
              && (x in SavedAfter(plan, saved, calls) <==> x in saved)
              && (x in saved ==> SavedAfter(plan, saved, calls)[x] == saved[x])
  {
    m := None;
    if calls != [] {
      var before, last := calls[..|calls| - 1], calls[|calls| - 1];
      SavesIs(plan, last, x);
      m := SavedAfterIs(plan, saved, before, x);
      if Saves(plan, last, x) {
        m := Some(|calls| - 1);
      }
      assert forall j | 0 <= j < |before| :: before[j] == calls[j];
    }
  }

  /** The recorded call is rebuilt as the variable `x`. */
  predicate RebuiltAs(c: CallData, x: string) {
    && c.success && c.result != Null && x != ""
    && x == (if c.saveAs.Some? && c.saveAs.value != "" then c.saveAs.value else c.step)
  }

  /** `_rebuild_saved` knows exactly the variables of successful calls with a result, each with the
      latest such call. */
  lemma {:induction false} RebuildIs(calls: seq<CallData>, x: string) returns (m: Option<nat>)
    ensures m.Some? ==>
              && m.value < |calls| && RebuiltAs(calls[m.value], x)
              && (forall j | m.value < j < |calls| :: !RebuiltAs(calls[j], x))
              && x in Rebuild(calls) && Rebuild(calls)[x] == FromPayload(calls[m.value])
    ensures m.None? ==> x !in Rebuild(calls) && forall j | 0 <= j < |calls| :: !RebuiltAs(calls[j], x)
  {
    m := None;
    if calls != [] {
      var before, last := calls[..|calls| - 1], calls[|calls| - 1];
      m := RebuildIs(before, x);
      if RebuiltAs(last, x) {
        m := Some(|calls| - 1);
      }
      assert forall j | 0 <= j < |before| :: before[j] == calls[j];
    }
  }

  // ---------- The calls of a run ----------

  /** `c` is the call of step `s`: its tool, its arguments with the references of `saved` substituted. */
  ghost predicate CallOf(tools: Tools, task: nat, s: Step, strict: bool, saved: Saved, c: Call) {
    && c.owner == Owner(task, s.id) && c.record.tool == s.tool
    && Substituted(tools, saved, strict, Obj(s.args), Obj(c.record.args))
  }

  ghost predicate CallOfPlan(tools: Tools, task: nat, plan: Plan, strict: bool, saved: Saved, c: Call) {
    exists k | 0 <= k < |plan| :: CallOf(tools, task, plan[k], strict, saved, c)
  }

  /** From `before` on, `log` goes on with calls of the plan's steps, each with the variables that the
      calls since `before` have saved over `saved`. */
  ghost predicate CallsOfPlan(tools: Tools, task: nat, plan: Plan, strict: bool, saved: Saved, before: seq<Call>, log: seq<Call>) {
    && before <= log
    && forall i | |before| <= i < |log| :: CallOfPlan(tools, task, plan, strict, SavedAfter(plan, saved, log[|before|..i]), log[i])
  }

  /** What one step of either executor calls. */
  lemma AdvanceCallsStep(tools: Tools, cfg: Config, phase: Phase, task: nat, plan: Plan, s: Step, st: Exec, p: Progress)
    returns (made: seq<Call>)
    requires p == Advance(tools, cfg, phase, task, plan, s, st)
    ensures p.st.world.calls == st.world.calls + made && |made| <= 1 && (made == [] ==> p.Halt?)
    ensures made != [] ==> CallOf(tools, task, s, phase == Resumed, st.saved, made[0])
    ensures p.Next? ==> p.st.saved == Save(st.saved, s.saveAs, made[0].record)
  {
    var args := ResolveArgs(tools, st.saved, s.args, phase == Resumed);
    made := [];
    if Missing(s.deps, st.done) == [] && GateOf(tools, cfg, s.tool) == Go && args.Some? {
      FieldsAre(tools, st.saved, phase == Resumed, s.args, args.value);
      made := [Logged(Owner(task, s.id), Last(p.st.world))];
    }
  }

  lemma {:induction false} SavedAfterConcat(plan: Plan, saved: Saved, a: seq<Call>, b: seq<Call>)
    ensures SavedAfter(plan, saved, a + b) == SavedAfter(plan, SavedAfter(plan, saved, a), b)
    decreases |b|
  {
    if b == [] {
      assert a + b == a;
    } else {
      assert (a + b)[..|a + b| - 1] == a + b[..|b| - 1];
      SavedAfterConcat(plan, saved, a, b[..|b| - 1]);
    }
  }

  /** One call, and what follows it. */
  lemma CallsCompose(tools: Tools, task: nat, plan: Plan, strict: bool, saved: Saved, k: nat, base: seq<Call>, made: seq<Call>,
                     log: seq<Call>)
    requires |made| <= 1 && (made == [] ==> log == base)
    requires made != [] ==> k < |plan| && CallOf(tools, task, plan[k], strict, saved, made[0])
    requires made != [] ==> CallsOfPlan(tools, task, plan, strict, SavedAfter(plan, saved, made), base + made, log)
    ensures CallsOfPlan(tools, task, plan, strict, saved, base, log)
  {
    var n := |base|;
    forall i | n <= i < |log| ensures CallOfPlan(tools, task, plan, strict, SavedAfter(plan, saved, log[n..i]), log[i]) {
      SavedMeanwhile(plan, saved, base, made, log, i);
    }
  }

  /** The variables before call `i` of `log`, counted from `base` and from the first call on. */
  lemma SavedMeanwhile(plan: Plan, saved: Saved, base: seq<Call>, made: seq<Call>, log: seq<Call>, i: nat)
    requires |made| == 1 && base + made <= log && |base| <= i < |log|
    ensures i == |base| ==> log[i] == made[0] && SavedAfter(plan, saved, log[|base|..i]) == saved
    ensures i > |base| ==>
              SavedAfter(plan, saved, log[|base|..i]) == SavedAfter(plan, SavedAfter(plan, saved, made), log[|base + made|..i])
  {
    var n := |base|;
    assert log[n] == (base + made)[n] == made[0];
    if i == n {
      assert log[n..i] == [];
    } else {
      assert log[n..i] == made + log[n + 1..i];
      SavedAfterConcat(plan, saved, made, log[n + 1..i]);
    }
  }

  lemma SavedAfterOne(plan: Plan, saved: Saved, k: nat, c: Call)
    requires DistinctIds(plan) && k < |plan| && c.owner.step == plan[k].id
    ensures SavedAfter(plan, saved, [c]) == Save(saved, plan[k].saveAs, c.record)
  {
    FindSaveAsAt(plan, k);
    assert [c][..0] == [];
    assert SavedAfter(plan, saved, []) == saved;
  }

  /** Every call of a run, first or resumed, is the call of a step of the plan: with the step's tool,
      and with its arguments in which each reference stands for the value it leads to from the record
      of the latest call that saved its variable. */
  lemma {:induction false} RunCallsSteps(tools: Tools, cfg: Config, phase: Phase, task: nat, plan: Plan, k: nat, st: Exec,
                                         run: (Exec, Stop))
    requires k <= |plan| && DistinctIds(plan) && run == RunFrom(tools, cfg, phase, task, plan, k, st)
    ensures CallsOfPlan(tools, task, plan, phase == Resumed, st.saved, st.world.calls, run.0.world.calls)
    decreases |plan| - k, 1
  {
    if k < |plan| {
      if phase == Resumed && plan[k].id in st.done {
        RunCallsSteps(tools, cfg, phase, task, plan, k + 1, st, run);
      } else {
        var p := Advance(tools, cfg, phase, task, plan, plan[k], st);
        RunStep(tools, cfg, phase, task, plan, k, st, p, run);
        var made := AdvanceCallsStep(tools, cfg, phase, task, plan, plan[k], st, p);
        RestCallsSteps(tools, cfg, phase, task, plan, k, st, p, made, run);
        CallsCompose(tools, task, plan, phase == Resumed, st.saved, k, st.world.calls, made, run.0.world.calls);
      }
    }
  }

  /** What follows the call of step `k`. */
  lemma {:induction false} RestCallsSteps(tools: Tools, cfg: Config, phase: Phase, task: nat, plan: Plan, k: nat, st: Exec,
                                          p: Progress, made: seq<Call>, run: (Exec, Stop))
    requires k < |plan| && DistinctIds(plan) && p.st.world.calls == st.world.calls + made && |made| <= 1
    requires made != [] ==> made[0].owner.step == plan[k].id
    requires p.Next? ==> made != [] && p.st.saved == Save(st.saved, plan[k].saveAs, made[0].record)
    requires p.Next? ==> run == RunFrom(tools, cfg, phase, task, plan, k + 1, p.st)
    requires p.Halt? ==> run.0 == p.st
    ensures made == [] ==> run.0.world.calls == st.world.calls
    ensures CallsOfPlan(tools, task, plan, phase == Resumed, SavedAfter(plan, st.saved, made), st.world.calls + made,
                        run.0.world.calls)
    decreases |plan| - k, 0
  {
    if p.Next? {
      assert made == [made[0]];
      SavedAfterOne(plan, st.saved, k, made[0]);
      RunCallsSteps(tools, cfg, phase, task, plan, k + 1, p.st, run);
    }
  }

  /** A first run starts without variables. */
  lemma FirstRunCallsSteps(tools: Tools, cfg: Config, task: nat, plan: Plan, world: World)
    requires DistinctIds(plan)
    ensures CallsOfPlan(tools, task, plan, false, map[], world.calls, Run(tools, cfg, task, plan, world).0.world.calls)
  {
    RunCallsSteps(tools, cfg, FirstRun, task, plan, 0, Exec(world, {}, map[], []), Run(tools, cfg, task, plan, world));
  }

  /** The approved step as a resume attempt calls it. */
  function ApprovedStep(snap: Snapshot): Step {
    Step(snap.step, snap.tool, snap.args, [], None)
  }

  /** A resume attempt calls nothing, or the approved step with the variables rebuilt from the payload
      and then steps of the plan. */
  lemma ResumeCallsSteps(tools: Tools, cfg: Config, task: nat, snap: Snapshot, world: World)
    requires DistinctIds(snap.plan)
    ensures var log, n := Resume(tools, cfg, task, snap, world).0.world.calls, |world.calls|;
            && world.calls <= log
            && (|log| > n ==>
                  && CallOf(tools, task, ApprovedStep(snap), true, Rebuild(snap.calls), log[n])
                  && CallsOfPlan(tools, task, snap.plan, true, SavedAfter(snap.plan, Rebuild(snap.calls), [log[n]]),
                                 world.calls + [log[n]], log))
  {
    var st := Exec(world, snap.done, Rebuild(snap.calls), snap.calls);
    var args := ResolveArgs(tools, st.saved, snap.args, true);
    if args.Some? {
      FieldsAre(tools, st.saved, true, snap.args, args.value);
      var saveAs := FindSaveAs(snap.plan, snap.step);
      var p := Perform(tools, Resumed, task, snap.step, snap.tool, saveAs, args.value, st);
      var first := p.st.world.calls[|world.calls|];
      assert p.st.world.calls == world.calls + [first];
      assert [first][..0] == [] && SavedAfter(snap.plan, st.saved, []) == st.saved;
      assert SavedAfter(snap.plan, st.saved, [first]) == Save(st.saved, saveAs, first.record);
      if p.Next? {
        RunCallsSteps(tools, cfg, Resumed, task, snap.plan, 0, p.st, RunFrom(tools, cfg, Resumed, task, snap.plan, 0, p.st));
      }
    }
  }

  // ---------- What is recorded of the calls ----------

  /** The entry of `tool_calls` says of the call what the copy that made it writes. */
  ghost predicate Recorded(phase: Phase, c: CallData, call: Call) {
    var r := call.record;
    && c.step == call.owner.step && c.tool == r.tool && c.success == r.success && c.result == r.result
    && match phase
       case FirstRun =>
         && (c.extra.Keys == {"arguments", "error", "retry_count"} + if "latency_ms" in r.volatile then {"latency_ms"} else {})
         && c.extra["arguments"] == Obj(r.args) && c.extra["error"] == r.error && c.extra["retry_count"] == Num(r.retries as real)
         && ("latency_ms" in r.volatile ==> c.extra["latency_ms"] == r.volatile["latency_ms"])
       case Resumed => c.extra == if Falsy(r.error) then map[] else map["error" := r.error]
  }

  /** The entry of a step that the first run does not call: not registered, refused, or waiting. */
  ghost predicate NotCalled(plan: Plan, c: CallData, stop: Stop) {
    && stop.Stopped? && (stop.why.NotRegistered? || stop.why.PolicyBlocked? || stop.why.NeedsApproval?)
    && exists k | 0 <= k < |plan| ::
         && plan[k].id == stop.step
         && c == CallData(plan[k].id, plan[k].tool, false, Null, None,
                          map["arguments" := Obj(plan[k].args), "policy_blocked" := Bool(true)])
  }

  /** The calls since `log` are recorded in order; a first run may add the step it stops at; a pause
      stores what is recorded of the calls. */
  ghost predicate RecordsCalls(phase: Phase, plan: Plan, log: seq<Call>, calls: seq<CallData>, run: (Exec, Stop)) {
    && log <= run.0.world.calls && calls <= run.0.calls
    && var made := |run.0.world.calls| - |log|;
       var kept := |calls| + made;
       && kept <= |run.0.calls| <= kept + 1
       && (forall i | |calls| <= i < kept :: Recorded(phase, run.0.calls[i], run.0.world.calls[i - |calls| + |log|]))
       && (|run.0.calls| > kept ==> phase.FirstRun? && NotCalled(plan, run.0.calls[kept], run.1))
       && (run.1.Stopped? && run.1.why.NeedsApproval? ==> run.1.why.snapshot.calls == run.0.calls[..kept])
  }

  lemma MadeIsRecorded(phase: Phase, step: string, saveAs: Option<string>, call: Call)
    requires call.owner.step == step
    ensures Recorded(phase, Made(phase, step, saveAs, call.record), call)
  {
    TruthyIs(call.record.error);
  }

  lemma NextRecords(tools: Tools, cfg: Config, phase: Phase, task: nat, plan: Plan, s: Step, st: Exec, p: Progress)
    requires p == Advance(tools, cfg, phase, task, plan, s, st) && p.Next?
    ensures st.world.calls <= p.st.world.calls && |p.st.world.calls| == |st.world.calls| + 1
    ensures st.calls <= p.st.calls && |p.st.calls| == |st.calls| + 1
    ensures Recorded(phase, p.st.calls[|st.calls|], p.st.world.calls[|st.world.calls|])
  {
    MadeIsRecorded(phase, s.id, s.saveAs, Logged(Owner(task, s.id), Last(p.st.world)));
  }

  lemma HaltRecords(tools: Tools, cfg: Config, phase: Phase, task: nat, plan: Plan, k: nat, st: Exec, p: Progress)
    requires k < |plan| && p == Advance(tools, cfg, phase, task, plan, plan[k], st) && p.Halt?
    ensures RecordsCalls(phase, plan, st.world.calls, st.calls, (p.st, Stopped(plan[k].id, p.why)))
  {
    var s := plan[k];
    if p.why.ToolFailed? {
      MadeIsRecorded(phase, s.id, s.saveAs, p.st.world.calls[|st.world.calls|]);
    } else {
      assert p.st.calls == st.calls || p.st.calls == Reported(phase, st.calls, s);
      assert st.calls == st.calls[..|st.calls|];
    }
  }

  lemma {:induction false} RunRecords(tools: Tools, cfg: Config, phase: Phase, task: nat, plan: Plan, k: nat, st: Exec,
                                      run: (Exec, Stop))
    requires k <= |plan| && run == RunFrom(tools, cfg, phase, task, plan, k, st)
    ensures RecordsCalls(phase, plan, st.world.calls, st.calls, run)
    decreases |plan| - k
  {
    if k < |plan| {
      if phase == Resumed && plan[k].id in st.done {
        RunRecords(tools, cfg, phase, task, plan, k + 1, st, run);
      } else {
        var p := Advance(tools, cfg, phase, task, plan, plan[k], st);
        RunStep(tools, cfg, phase, task, plan, k, st, p, run);
        if p.Next? {
          RunRecords(tools, cfg, phase, task, plan, k + 1, p.st, run);
          NextRecords(tools, cfg, phase, task, plan, plan[k], st, p);
          RecordsCompose(phase, plan, st, p.st, run);
        } else {
          HaltRecords(tools, cfg, phase, task, plan, k, st, p);
        }
      }
    }
  }

  lemma RecordsCompose(phase: Phase, plan: Plan, st: Exec, next: Exec, run: (Exec, Stop))
    requires st.world.calls <= next.world.calls && |next.world.calls| == |st.world.calls| + 1
    requires st.calls <= next.calls && |next.calls| == |st.calls| + 1
    requires Recorded(phase, next.calls[|st.calls|], next.world.calls[|st.world.calls|])
    requires RecordsCalls(phase, plan, next.world.calls, next.calls, run)
    ensures RecordsCalls(phase, plan, st.world.calls, st.calls, run)
  {
    var h, n := |st.calls|, |st.world.calls|;
    assert run.0.calls[h] == next.calls[h] && run.0.world.calls[n] == next.world.calls[n];
  }
}
