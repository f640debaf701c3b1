/** The tool gateway (`ToolGateway.call` and its retry loops) and the policy engine.

    Tools are deterministic: a tool's reply is a function of every attempt made so far, the
    tool's name and its arguments. `World` is therefore all the outside state a call can
    depend on, and its `calls` field is the log of gateway calls. */
module ToolGateways {
  import opened JsonValues

  datatype Risk = Low | Medium | High

  datatype ToolSpec = ToolSpec(risk: Risk, scope: string, maxRetries: nat)

  type Args = seq<Field>

  /** What a local callable or an MCP client does with one attempt. */
  datatype Reply = Returned(value: Json) | Raised(message: string)

  datatype Attempt = Attempt(tool: string, args: Args, reply: Reply)

  /** `volatile` holds the attributes that differ from call to call: call_id, status,
      latency_ms and called_at. */
  datatype Record = Record(tool: string, args: Args, result: Json, success: bool, error: Json,
                           retries: nat, volatile: map<string, Json>)

  /** The task and plan step a call is made for; the log is annotated with it. */
  datatype Owner = Owner(task: nat, step: string)

  datatype Call = Logged(owner: Owner, record: Record)

  datatype World = World(attempts: seq<Attempt>, calls: seq<Call>)

  /** The registry and everything outside the system: the tools themselves, the volatile
      record attributes, and Python's attribute lookup on values that are not dicts. */
  datatype Tools = Tools(
    registry: map<string, ToolSpec>,
    answer: (seq<Attempt>, string, Args) -> Reply,
    volatile: (seq<Attempt>, string) -> map<string, Json>,
    attribute: (Json, string) -> Option<Json>)

  /** A returned dict with a truthy "error" entry counts as a failed call. */
  predicate Succeeded(reply: Reply) {
    && reply.Returned?
    && !(reply.value.Obj? && var e := Get(reply.value.fields, "error"); e.Some? && Truthy(e.value))
  }

  function RecordOf(tools: Tools, attempts: seq<Attempt>, tool: string, args: Args, reply: Reply, retries: nat): Record {
    var result := if reply.Returned? then reply.value else Null;
    var error := if Succeeded(reply) then Null
                 else if reply.Returned? then Get(reply.value.fields, "error").value else Str(reply.message);
    Record(tool, args, result, Succeeded(reply), error, retries, tools.volatile(attempts, tool))
  }

  /** The attempts of one call: the first, then one more for each failure while retries are left. */
  function Attempts(tools: Tools, history: seq<Attempt>, tool: string, args: Args, left: nat): (after: seq<Attempt>)
    decreases left
  {
    var reply := tools.answer(history, tool, args);
    var history' := history + [Attempt(tool, args, reply)];
    if Succeeded(reply) || left == 0 then history' else Attempts(tools, history', tool, args, left - 1)
  }

  lemma {:induction false} AttemptsGrow(tools: Tools, history: seq<Attempt>, tool: string, args: Args, left: nat)
    ensures |history| < |Attempts(tools, history, tool, args, left)|
    decreases left
  {
    var history' := history + [Attempt(tool, args, tools.answer(history, tool, args))];
    if left > 0 {
      AttemptsGrow(tools, history', tool, args, left - 1);
    }
  }

  /** `ToolGateway.call`: the world after the call. An unregistered tool is logged as a failed
      record and attempted zero times. */
  function CallTool(tools: Tools, world: World, owner: Owner, tool: string, args: Args): (after: World)
    ensures |after.calls| == |world.calls| + 1
    ensures after.calls == world.calls + [Logged(owner, Last(after))]
    ensures Last(after).tool == tool && Last(after).args == args
  {
    if tool !in tools.registry then
      World(world.attempts, world.calls + [Logged(owner, Unregistered(tools, world.attempts, tool, args))])
    else
      AttemptsGrow(tools, world.attempts, tool, args, tools.registry[tool].maxRetries);
      var attempts := Attempts(tools, world.attempts, tool, args, tools.registry[tool].maxRetries);
      var record := RecordOf(tools, attempts, tool, args, attempts[|attempts| - 1].reply,
                             |attempts| - |world.attempts| - 1);
      World(attempts, world.calls + [Logged(owner, record)])
  }

  function Unregistered(tools: Tools, attempts: seq<Attempt>, tool: string, args: Args): Record {
    Record(tool, args, Null, false, Str("not registered"), 0, tools.volatile(attempts, tool))
  }

  function Last(world: World): Record
    requires world.calls != []
  {
    world.calls[|world.calls| - 1].record
  }

  // ---------- What is recorded of an attempt ----------

  /** `e` is the error that a returned value carries: the first "error" entry of a dict, if it counts
      as true. */
  ghost predicate CarriesError(v: Json, e: Json) {
    v.Obj? && FirstEntry(v.fields, "error", e) && !Falsy(e)
  }

  /** An attempt fails by raising, or by returning a dict that carries an error. */
  ghost predicate Fails(reply: Reply) {
    match reply
    case Raised(_) => true
    case Returned(v) => exists e :: CarriesError(v, e)
  }

  /** What a record says of the reply it was made from. */
  ghost predicate Records(r: Record, reply: Reply) {
    match reply
    case Raised(message) => !r.success && r.result == Null && r.error == Str(message)
    case Returned(v) =>
      && r.result == v
      && (r.success <==> forall e :: !CarriesError(v, e))
      && (if r.success then r.error == Null else CarriesError(v, r.error))
  }

  lemma CarriedIs(v: Json)
    requires v.Obj?
    ensures forall e :: CarriesError(v, e) <==> Get(v.fields, "error") == Some(e) && Truthy(e)
  {
    GetIs(v.fields, "error");
    forall e ensures CarriesError(v, e) <==> Get(v.fields, "error") == Some(e) && Truthy(e) {
      TruthyIs(e);
    }
  }

  lemma SucceededIs(reply: Reply)
    ensures Succeeded(reply) <==> !Fails(reply)
  {
    if reply.Returned? && reply.value.Obj? {
      CarriedIs(reply.value);
      if !Succeeded(reply) {
        assert CarriesError(reply.value, Get(reply.value.fields, "error").value);
      }
    }
  }

  lemma RecordOfRecords(tools: Tools, attempts: seq<Attempt>, tool: string, args: Args, reply: Reply, retries: nat)
    ensures Records(RecordOf(tools, attempts, tool, args, reply, retries), reply)
  {
    if reply.Returned? && reply.value.Obj? {
      CarriedIs(reply.value);
    }
  }

  /** Every call makes at least one and at most 1 + max_retries attempts; all but the last fail, and a
      failing last attempt means that no retry was left. */
  lemma {:induction false} RetryBounds(tools: Tools, history: seq<Attempt>, tool: string, args: Args, left: nat)
    ensures var after := Attempts(tools, history, tool, args, left);
            && |history| < |after| <= |history| + 1 + left
            && history == after[..|history|]
            && (forall i | |history| <= i < |after| :: after[i].tool == tool && after[i].args == args)
            && (forall i | |history| <= i < |after| - 1 :: Fails(after[i].reply))
            && (Fails(after[|after| - 1].reply) ==> |after| == |history| + 1 + left)
    decreases left
  {
    var reply := tools.answer(history, tool, args);
    var history' := history + [Attempt(tool, args, reply)];
    SucceededIs(reply);
    if !Succeeded(reply) && left > 0 {
      RetryBounds(tools, history', tool, args, left - 1);
      var after := Attempts(tools, history', tool, args, left - 1);
      assert history' == after[..|history'|];
      assert after[|history|] == history'[|history|];
      assert history == history'[..|history|] == after[..|history|];
    }
  }

  /** The record of a call: of a registered tool it says what the last attempt replied, and counts the
      attempts before it; of an unregistered one it says that nothing was attempted and nothing came
      of it. */
  lemma CallRecords(tools: Tools, world: World, owner: Owner, tool: string, args: Args)
    ensures var after := CallTool(tools, world, owner, tool, args);
            var r, n := Last(after), |after.attempts|;
            && (tool in tools.registry ==>
                  && |world.attempts| < n && Records(r, after.attempts[n - 1].reply) && r.retries == n - |world.attempts| - 1)
            && (tool !in tools.registry ==> after.attempts == world.attempts && !r.success && r.result == Null && r.retries == 0)
  {
    if tool in tools.registry {
      AttemptsGrow(tools, world.attempts, tool, args, tools.registry[tool].maxRetries);
      var attempts := Attempts(tools, world.attempts, tool, args, tools.registry[tool].maxRetries);
      RecordOfRecords(tools, attempts, tool, args, attempts[|attempts| - 1].reply, |attempts| - |world.attempts| - 1);
    }
  }

  class ToolGateway {
    const tools: Tools
    var world: World

    constructor (tools: Tools, world: World)
      ensures this.tools == tools && this.world == world
    {
      this.tools := tools;
      this.world := world;
    }

    /** The retry loop shared by `_call_local_with_retry` and `_call_mcp_with_retry`. */
    method CallWithRetry(tool: string, args: Args, maxRetries: nat) returns (reply: Reply, retryCount: nat)
      modifies this`world
      ensures world.calls == old(world.calls)
      ensures world.attempts == Attempts(tools, old(world.attempts), tool, args, maxRetries)
      ensures world.attempts != [] && reply == world.attempts[|world.attempts| - 1].reply
      ensures |world.attempts| == |old(world.attempts)| + retryCount + 1
    {
      reply := tools.answer(world.attempts, tool, args);
      world := world.(attempts := world.attempts + [Attempt(tool, args, reply)]);
      retryCount := 0;
      while !Succeeded(reply) && retryCount < maxRetries
        invariant retryCount <= maxRetries
        invariant world.calls == old(world.calls)
        invariant world.attempts != [] && reply == world.attempts[|world.attempts| - 1].reply
        invariant |world.attempts| == |old(world.attempts)| + retryCount + 1
        invariant Attempts(tools, old(world.attempts), tool, args, maxRetries) ==
                  if Succeeded(reply) || retryCount == maxRetries then world.attempts
                  else Attempts(tools, world.attempts, tool, args, maxRetries - retryCount - 1)
      {
        retryCount := retryCount + 1;
        reply := tools.answer(world.attempts, tool, args);
        world := world.(attempts := world.attempts + [Attempt(tool, args, reply)]);
      }
    }

    method Call(owner: Owner, tool: string, args: Args) returns (record: Record)
      modifies this`world
      ensures world == CallTool(tools, old(world), owner, tool, args)
      ensures record == Last(world)
      ensures tool in tools.registry ==>
                && |old(world).attempts| < |world.attempts| && Records(record, world.attempts[|world.attempts| - 1].reply)
                && record.retries == |world.attempts| - |old(world).attempts| - 1
      ensures tool !in tools.registry ==>
                world.attempts == old(world).attempts && !record.success && record.result == Null
    {
      CallRecords(tools, world, owner, tool, args);
      if tool !in tools.registry {
        record := Unregistered(tools, world.attempts, tool, args);
      } else {
        var reply, retryCount := CallWithRetry(tool, args, tools.registry[tool].maxRetries);
        record := RecordOf(tools, world.attempts, tool, args, reply, retryCount);
      }
      world := world.(calls := world.calls + [Logged(owner, record)]);
    }
  }
}

/** `PolicyEngine.evaluate` over `OperationWhitelist._check_tool_registered`. */
module Policies {
  import opened ToolGateways

  /** `permitHigh` is false for the engine of the source; a policy with `permitHigh` is the one
      under which a plan runs without pausing. */
  datatype Policy = Policy(whitelist: bool, permitHigh: bool)

  datatype Decision = Decision(allowed: bool, requiresApproval: bool)

  predicate Whitelisted(tools: Tools, tool: string, risk: Risk) {
    && tool in tools.registry
    && !(tools.registry[tool].scope in {"write", "admin", "schema"} && risk != High)
  }

  function Evaluate(tools: Tools, policy: Policy, tool: string, risk: Risk): (d: Decision)
    ensures d.requiresApproval ==> risk == High && !d.allowed
    ensures d.allowed && !policy.permitHigh ==> risk != High
  {
    if policy.whitelist && !Whitelisted(tools, tool, risk) then Decision(false, false)
    else if risk == High && !policy.permitHigh then Decision(false, true)
    else Decision(true, false)
  }
}
