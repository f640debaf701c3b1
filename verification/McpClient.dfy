/** The stdio MCP client: which lines it writes to which server process, for any behaviour of the
    servers and any sequence of operations. */
module McpClient {
  import opened JsonValues

  /** A tool call is `encodable` if its name and arguments can be written as UTF-8; a lone surrogate in
      a string argument cannot. */
  datatype Method = Initialize | Initialized | ListTools | CallTool(name: string, encodable: bool)

  /** What the client does to its server processes, in order. A line counts as written even if the
      write fails half-way. */
  datatype Event =
    | Started(p: nat)
    | Wrote(p: nat, what: Method, id: Option<nat>)
    | Accepted(p: nat, answered: nat, replyId: Json)
    | Discarded(p: nat)

  /** What becomes of a request. A message's `error` is its entry unless that is null. */
  datatype Reply =
    | Exited
    | WriteFails
    | TimesOut
    | Unreadable
    | EmptyLine
    | NotJson
    | NotAnObject
    | Message(version: Option<Json>, id: Option<Json>, error: Option<Json>, result: Option<Json>)

  /** The behaviour of the operating system and of the servers: arbitrary functions of what was done
      so far. */
  datatype Servers = Servers(configured: bool, alive: seq<Event> -> bool, spawns: seq<Event> -> bool,
                             reply: seq<Event> -> Reply, notified: seq<Event> -> bool)

  datatype Client = Client(process: Option<nat>, initialized: bool, requestId: nat, spawned: nat, log: seq<Event>)

  /** `Escaped` is an exception that neither operation catches. */
  datatype Outcome = Done(result: Json) | Failed | Misconfigured | Escaped

  const FRESH := Client(None, false, 0, 0, [])

  function Logged(c: Client, e: Event): Client {
    c.(log := c.log + [e])
  }

  /** Python's `reply_id == request_id`: true equals one. */
  predicate EqualsId(reply: Json, id: nat) {
    reply == Num(id as real) || (id == 1 && reply == Bool(true))
  }

  /** The checks of `_request` on a parsed object. */
  predicate Answers(r: Reply, id: nat) {
    && r.Message? && r.version == Some(Str("2.0")) && r.id.Some? && EqualsId(r.id.value, id)
    && r.error.None? && r.result.Some?
  }

  predicate Encodable(m: Method) {
    m.CallTool? ==> m.encodable
  }

  /** `_request` on the running process. */
  function Request(srv: Servers, c: Client, m: Method): (Client, Outcome)
    requires c.process.Some?
  {
    var reply := srv.reply(c.log);
    if reply.Exited? then (c, Failed)
    else
      var id := c.requestId + 1;
      var sent := Logged(c.(requestId := id), Wrote(c.process.value, m, Some(id)));
      if !Encodable(m) then (c.(requestId := id), Escaped)
      else if reply.NotAnObject? then (sent, Escaped)
      else if Answers(reply, id) then (Logged(sent, Accepted(c.process.value, id, reply.id.value)), Done(reply.result.value))
      else (sent, Failed)
  }

  const SUPPORTED_VERSIONS: seq<string> := ["2024-11-05", "2025-03-26", "2025-06-18"]

  predicate Negotiated(result: Json) {
    && result.Obj?
    && var v := Get(result.fields, "protocolVersion"); v.Some? && v.value.Str? && v.value.s in SUPPORTED_VERSIONS
  }

  /** `_initialize`. */
  function Handshake(srv: Servers, c: Client): (Client, Outcome)
    requires c.process.Some?
  {
    var (c1, o) := Request(srv, c, Initialize);
    if !o.Done? then (c1, o)
    else if !Negotiated(o.result) then (c1, Failed)
    else
      var c2 := Logged(c1, Wrote(c.process.value, Initialized, None));
      if srv.notified(c1.log) then (c2.(initialized := true), Done(Null)) else (c2, Failed)
  }

  function Spawn(c: Client): Client {
    Logged(c.(process := Some(c.spawned), spawned := c.spawned + 1, initialized := false), Started(c.spawned))
  }

  /** `_ensure_started`. */
  function EnsureStarted(srv: Servers, c: Client): (r: (Client, Outcome))
    ensures r.1.Done? ==> r.0.process.Some?
  {
    if !srv.configured then (c, Misconfigured)
    else
      var needed := c.process.None? || !srv.alive(c.log);
      if needed && !srv.spawns(c.log) then (c, Escaped)
      else
        var c1 := if needed then Spawn(c) else c;
        if c1.initialized then (c1, Done(Null)) else Handshake(srv, c1)
  }

  /** `_cleanup_process`. */
  function Discard(c: Client): Client {
    (if c.process.Some? then Logged(c, Discarded(c.process.value)) else c).(process := None, initialized := false)
  }

  /** One attempt at a request, with `_record_failure` on the failures that are caught. */
  function Attempt(srv: Servers, c: Client, m: Method): (Client, Outcome) {
    var (c1, o1) := EnsureStarted(srv, c);
    var (c2, o2) := if o1.Done? then Request(srv, c1, m) else (c1, o1);
    (if o2.Failed? then Discard(c2) else c2, o2)
  }

  /** `list_tools` tries a second time after a failure, `call_tool` does not. */
  function ListWithRetry(srv: Servers, c: Client): (Client, Outcome) {
    var (c1, o) := Attempt(srv, c, ListTools);
    if o.Failed? then Attempt(srv, c1, ListTools) else (c1, o)
  }

  datatype Operation = ListOp | CallOp(name: string, encodable: bool) | CloseOp

  function Operate(srv: Servers, c: Client, op: Operation): (Client, Outcome) {
    match op
    case ListOp => ListWithRetry(srv, c)
    case CallOp(name, encodable) => Attempt(srv, c, CallTool(name, encodable))
    case CloseOp => (Discard(c), Done(Null))
  }

  function Run(srv: Servers, ops: seq<Operation>): Client {
    if ops == [] then FRESH else Operate(srv, Run(srv, ops[..|ops| - 1]), ops[|ops| - 1]).0
  }

  /** `log` stands for the pipes and the process table. */
  class StdioMCPClient {
    const servers: Servers
    var process: Option<nat>
    var initialized: bool
    var requestId: nat
    var spawned: nat
    var log: seq<Event>

    ghost function Now(): Client
      reads this
    {
      Client(process, initialized, requestId, spawned, log)
    }

    constructor (servers: Servers)
      ensures this.servers == servers && Now() == FRESH
    {
      this.servers := servers;
      process, initialized, requestId, spawned, log := None, false, 0, 0, [];
    }

    method SendRequest(m: Method) returns (o: Outcome)
      requires process.Some?
      modifies this
      ensures (Now(), o) == Request(servers, old(Now()), m)
    {
      var reply := servers.reply(log);
      if reply.Exited? {
        return Failed;
      }
      requestId := requestId + 1;
      if m.CallTool? && !m.encodable {
        return Escaped;
      }
      log := log + [Wrote(process.value, m, Some(requestId))];
      if reply.NotAnObject? {
        return Escaped;
      }
      if !reply.Message? || reply.version != Some(Str("2.0")) || reply.id.None? || !EqualsId(reply.id.value, requestId) {
        return Failed;
      }
      if reply.error.Some? || reply.result.None? {
        return Failed;
      }
      log := log + [Accepted(process.value, requestId, reply.id.value)];
      o := Done(reply.result.value);
    }

    method SendInitialize() returns (o: Outcome)
      requires process.Some?
      modifies this
      ensures (Now(), o) == Handshake(servers, old(Now()))
    {
      o := SendRequest(Initialize);
      if !o.Done? {
        return;
      }
      if !Negotiated(o.result) {
        return Failed;
      }
      var accepted := servers.notified(log);
      log := log + [Wrote(process.value, Initialized, None)];
      if !accepted {
        return Failed;
      }
      initialized := true;
      o := Done(Null);
    }

    method EnsureProcess() returns (o: Outcome)
      modifies this
      ensures (Now(), o) == EnsureStarted(servers, old(Now()))
    {
      if !servers.configured {
        return Misconfigured;
      }
      if process.None? || !servers.alive(log) {
        if !servers.spawns(log) {
          return Escaped;
        }
        process, initialized := Some(spawned), false;
        log := log + [Started(spawned)];
        spawned := spawned + 1;
      }
      if initialized {
        return Done(Null);
      }
      o := SendInitialize();
    }

    method CleanupProcess()
      modifies this
      ensures Now() == Discard(old(Now()))
    {
      if process.Some? {
        log := log + [Discarded(process.value)];
      }
      process, initialized := None, false;
    }

    method TryRequest(m: Method) returns (o: Outcome)
      modifies this
      ensures (Now(), o) == Attempt(servers, old(Now()), m)
    {
      o := EnsureProcess();
      if o.Done? {
        o := SendRequest(m);
      }
      if o.Failed? {
        CleanupProcess();
      }
    }

    method RequestToolList() returns (o: Outcome)
      modifies this
      ensures (Now(), o) == ListWithRetry(servers, old(Now()))
    {
      var attempt := 0;
      ghost var start := Now();
      ghost var first := Attempt(servers, start, ListTools);
      o := Failed;
      while attempt < 2 && o.Failed?
        invariant 0 <= attempt <= 2
        invariant attempt == 0 ==> Now() == start && o.Failed?
        invariant attempt == 1 ==> (Now(), o) == first
        invariant attempt == 2 ==> first.1.Failed? && (Now(), o) == Attempt(servers, first.0, ListTools)
      {
        o := TryRequest(ListTools);
        attempt := attempt + 1;
      }
    }

    method RequestToolCall(name: string, encodable: bool) returns (o: Outcome)
      modifies this
      ensures (Now(), o) == Operate(servers, old(Now()), CallOp(name, encodable))
    {
      o := TryRequest(CallTool(name, encodable));
    }

    method Close()
      modifies this
      ensures Now() == Operate(servers, old(Now()), CloseOp).0
    {
      CleanupProcess();
    }
  }

  // ---------- The protocol ----------

  /** The number of processes started, the process in use, and the last request id. */
  function StartedCount(log: seq<Event>): nat {
    if log == [] then 0 else StartedCount(log[..|log| - 1]) + if log[|log| - 1].Started? then 1 else 0
  }

  function InUse(log: seq<Event>): Option<nat> {
    if log == [] then None
    else match log[|log| - 1]
      case Started(p) => Some(p)
      case Discarded(_) => None
      case _ => InUse(log[..|log| - 1])
  }

  function LastId(log: seq<Event>): nat {
    if log == [] then 0
    else match log[|log| - 1]
      case Wrote(_, _, Some(id)) => id
      case _ => LastId(log[..|log| - 1])
  }

  /** How far the handshake of a process has come. */
  datatype Phase = New | Asked(id: nat) | Agreed | Ready

  function PhaseOf(log: seq<Event>, p: nat): Phase {
    if log == [] then New
    else
      var before := PhaseOf(log[..|log| - 1], p);
      match log[|log| - 1]
      case Wrote(q, Initialize, Some(id)) => if q == p then Asked(id) else before
      case Wrote(q, Initialized, _) => if q == p && before.Agreed? then Ready else before
      case Accepted(q, id, _) => if q == p && before == Asked(id) then Agreed else before
      case _ => before
  }

  /** What the protocol lets a client do next. */
  predicate Allowed(log: seq<Event>, e: Event) {
    match e
    case Started(p) => p == StartedCount(log)
    case Discarded(p) => InUse(log) == Some(p)
    case Accepted(p, id, replyId) =>
      && log != [] && log[|log| - 1].Wrote? && log[|log| - 1].p == p && log[|log| - 1].id == Some(id)
      && InUse(log) == Some(p) && EqualsId(replyId, id)
    case Wrote(p, what, id) =>
      && InUse(log) == Some(p)
      && match what
         case Initialize => PhaseOf(log, p) != Ready && id.Some? && id.value > LastId(log)
         case Initialized => PhaseOf(log, p) == Agreed && id.None?
         case _ => PhaseOf(log, p) == Ready && id.Some? && id.value > LastId(log)
  }

  ghost predicate Proper(log: seq<Event>) {
    forall k | 0 <= k < |log| :: Allowed(log[..k], log[k])
  }

  /** The fields say what the log says. */
  ghost predicate Consistent(c: Client) {
    && Proper(c.log) && InUse(c.log) == c.process && c.spawned == StartedCount(c.log) && LastId(c.log) <= c.requestId
    && (forall p | p >= c.spawned :: PhaseOf(c.log, p) == New)
    && (c.process.Some? ==> c.process.value < c.spawned)
  }

  ghost predicate Valid(c: Client) {
    && Consistent(c)
    && (c.process.Some? ==> (PhaseOf(c.log, c.process.value) == Ready <==> c.initialized))
    && (c.process.None? ==> !c.initialized)
  }

  lemma Extend(log: seq<Event>, e: Event, p: nat)
    requires Proper(log) && Allowed(log, e)
    ensures Proper(log + [e])
    ensures StartedCount(log + [e]) == StartedCount(log) + if e.Started? then 1 else 0
    ensures InUse(log + [e]) == if e.Started? then Some(e.p) else if e.Discarded? then None else InUse(log)
    ensures LastId(log + [e]) == if e.Wrote? && e.id.Some? then e.id.value else LastId(log)
    ensures PhaseOf(log + [e], p) ==
            if e.Wrote? && e.p == p && e.what.Initialize? && e.id.Some? then Asked(e.id.value)
            else if e.Wrote? && e.p == p && e.what.Initialized? && PhaseOf(log, p).Agreed? then Ready
            else if e.Accepted? && e.p == p && PhaseOf(log, p) == Asked(e.answered) then Agreed
            else PhaseOf(log, p)
  {
    var after := log + [e];
    assert after[..|log|] == log;
    forall k | 0 <= k < |after| ensures Allowed(after[..k], after[k]) {
      assert after[..k] == log[..k];
    }
  }

  lemma LoggedIsConsistent(c: Client, e: Event)
    requires Consistent(c) && Allowed(c.log, e) && !e.Started? && !e.Discarded?
    requires e.Wrote? && e.id.Some? ==> e.id.value <= c.requestId
    ensures Consistent(Logged(c, e))
  {
    assert e.p < c.spawned;
    forall p | p >= c.spawned ensures PhaseOf(c.log + [e], p) == New {
      Extend(c.log, e, p);
    }
    Extend(c.log, e, e.p);
  }

  lemma DiscardIsValid(c: Client)
    requires Consistent(c)
    ensures Valid(Discard(c))
  {
    if c.process.Some? {
      var e := Discarded(c.process.value);
      forall p: nat ensures PhaseOf(c.log + [e], p) == PhaseOf(c.log, p) {
        Extend(c.log, e, p);
      }
      Extend(c.log, e, 0);
    }
  }

  lemma SpawnIsValid(c: Client)
    requires Valid(c)
    ensures Valid(Spawn(c))
  {
    var e := Started(c.spawned);
    forall p: nat ensures PhaseOf(c.log + [e], p) == PhaseOf(c.log, p) {
      Extend(c.log, e, p);
    }
    Extend(c.log, e, 0);
  }

  /** A request that its process is ready for. */
  ghost predicate May(c: Client, m: Method)
    requires c.process.Some?
  {
    match m
    case Initialize => PhaseOf(c.log, c.process.value) != Ready
    case Initialized => false
    case _ => PhaseOf(c.log, c.process.value) == Ready
  }

  lemma SentIsConsistent(c: Client, m: Method, sent: Client, p: nat, id: nat)
    requires Consistent(c) && c.process == Some(p) && May(c, m) && id == c.requestId + 1
    requires sent == Logged(c.(requestId := id), Wrote(p, m, Some(id)))
    ensures Consistent(sent) && sent.log != [] && sent.log[|sent.log| - 1] == Wrote(p, m, Some(id))
    ensures PhaseOf(sent.log, p) == if m.Initialize? then Asked(id) else Ready
  {
    Extend(c.log, Wrote(p, m, Some(id)), p);
    LoggedIsConsistent(c.(requestId := id), Wrote(p, m, Some(id)));
  }

  lemma AcceptedIsConsistent(sent: Client, m: Method, p: nat, id: nat, replyId: Json)
    requires Consistent(sent) && sent.process == Some(p) && sent.log != []
    requires sent.log[|sent.log| - 1] == Wrote(p, m, Some(id)) && EqualsId(replyId, id)
    ensures Consistent(Logged(sent, Accepted(p, id, replyId)))
    ensures PhaseOf(sent.log + [Accepted(p, id, replyId)], p)
            == if PhaseOf(sent.log, p) == Asked(id) then Agreed else PhaseOf(sent.log, p)
  {
    Extend(sent.log, Accepted(p, id, replyId), p);
    LoggedIsConsistent(sent, Accepted(p, id, replyId));
  }

  /** The ways a request can go. */
  ghost predicate Goes(c: Client, m: Method, c': Client, o: Outcome)
    requires c.process.Some?
  {
    var p, id := c.process.value, c.requestId + 1;
    var sent := Logged(c.(requestId := id), Wrote(p, m, Some(id)));
    || (c' == c && o.Failed?)
    || (c' == c.(requestId := id) && o.Escaped?)
    || (c' == sent && !o.Done? && !o.Misconfigured?)
    || (o.Done? && c'.log != [] && c'.log[|c'.log| - 1].Accepted? && EqualsId(c'.log[|c'.log| - 1].replyId, id)
        && c' == Logged(sent, Accepted(p, id, c'.log[|c'.log| - 1].replyId)))
  }

  lemma RequestGoes(srv: Servers, c: Client, m: Method)
    requires c.process.Some?
    ensures Goes(c, m, Request(srv, c, m).0, Request(srv, c, m).1)
  {
  }

  lemma RequestIsConsistent(c: Client, m: Method, c': Client, o: Outcome)
    requires Consistent(c) && c.process.Some? && May(c, m) && Goes(c, m, c', o)
    ensures Consistent(c') && c'.process == c.process && c'.initialized == c.initialized
    ensures m.Initialize? && o.Done? ==> PhaseOf(c'.log, c.process.value) == Agreed
    ensures m.Initialize? && !o.Done? ==> PhaseOf(c'.log, c.process.value) != Ready
    ensures !m.Initialize? ==> PhaseOf(c'.log, c.process.value) == Ready
  {
    var p, id := c.process.value, c.requestId + 1;
    var sent := Logged(c.(requestId := id), Wrote(p, m, Some(id)));
    if c'.log != c.log {
      SentIsConsistent(c, m, sent, p, id);
      if c' != sent {
        AcceptedIsConsistent(sent, m, p, id, c'.log[|c'.log| - 1].replyId);
      }
    }
  }

  lemma NotifiedIsConsistent(c: Client, p: nat, c': Client)
    requires Consistent(c) && c.process == Some(p) && PhaseOf(c.log, p) == Agreed
    requires c' == Logged(c, Wrote(p, Initialized, None))
    ensures Consistent(c') && PhaseOf(c'.log, p) == Ready
  {
    Extend(c.log, Wrote(p, Initialized, None), p);
    LoggedIsConsistent(c, Wrote(p, Initialized, None));
  }

  /** What `c1`, the client after the initialize request, becomes. */
  ghost predicate Concludes(p: nat, c1: Client, o1: Outcome, c': Client, o: Outcome) {
    var notified := Logged(c1, Wrote(p, Initialized, None));
    || (c' == c1 && !o.Done? && (o == o1 || o.Failed?))
    || (o1.Done? && c' == notified && o.Failed?)
    || (o1.Done? && c' == notified.(initialized := true) && o.Done?)
  }

  lemma HandshakeConcludes(srv: Servers, c: Client)
    requires c.process.Some?
    ensures var (c1, o1), (c', o) := Request(srv, c, Initialize), Handshake(srv, c);
            Concludes(c.process.value, c1, o1, c', o) && (!o.Failed? ==> !o.Misconfigured?)
  {
  }

  lemma ConcludedIsValid(p: nat, c1: Client, o1: Outcome, c': Client, o: Outcome)
    requires Consistent(c1) && c1.process == Some(p) && !c1.initialized && Concludes(p, c1, o1, c', o)
    requires if o1.Done? then PhaseOf(c1.log, p) == Agreed else PhaseOf(c1.log, p) != Ready
    ensures Consistent(c') && (!o.Failed? ==> Valid(c')) && (o.Done? ==> c'.process.Some? && c'.initialized)
  {
    if o1.Done? {
      NotifiedIsConsistent(c1, p, Logged(c1, Wrote(p, Initialized, None)));
    }
  }

  lemma HandshakeIsValid(srv: Servers, c: Client)
    requires Valid(c) && c.process.Some? && !c.initialized
    ensures var (c', o) := Handshake(srv, c);
            Consistent(c') && (!o.Failed? ==> Valid(c')) && (o.Done? ==> c'.process.Some? && c'.initialized)
  {
    RequestGoes(srv, c, Initialize);
    var (c1, o1) := Request(srv, c, Initialize);
    RequestIsConsistent(c, Initialize, c1, o1);
    HandshakeConcludes(srv, c);
    var (c', o) := Handshake(srv, c);
    ConcludedIsValid(c.process.value, c1, o1, c', o);
  }

  lemma EnsureStartedIsValid(srv: Servers, c: Client)
    requires Valid(c)
    ensures var (c', o) := EnsureStarted(srv, c);
            Consistent(c') && (!o.Failed? ==> Valid(c')) && (o.Done? ==> c'.process.Some? && c'.initialized)
  {
    SpawnIsValid(c);
    if srv.configured {
      var needed := c.process.None? || !srv.alive(c.log);
      var c1 := if needed then Spawn(c) else c;
      if (!needed || srv.spawns(c.log)) && !c1.initialized {
        HandshakeIsValid(srv, c1);
      }
    }
  }

  lemma AttemptIsValid(srv: Servers, c: Client, m: Method)
    requires Valid(c) && (m.ListTools? || m.CallTool?)
    ensures Valid(Attempt(srv, c, m).0)
  {
    EnsureStartedIsValid(srv, c);
    var (c1, o1) := EnsureStarted(srv, c);
    if o1.Done? {
      RequestGoes(srv, c1, m);
      var (c2, o2) := Request(srv, c1, m);
      RequestIsConsistent(c1, m, c2, o2);
      DiscardIsValid(c2);
    } else {
      DiscardIsValid(c1);
    }
  }

  /** Over every run, whatever the servers do, the log is a proper one and the fields agree with it. */
  lemma {:induction false} EveryRunIsProper(srv: Servers, ops: seq<Operation>)
    ensures Valid(Run(srv, ops))
  {
    if ops != [] {
      var c := Run(srv, ops[..|ops| - 1]);
      EveryRunIsProper(srv, ops[..|ops| - 1]);
      match ops[|ops| - 1]
      case ListOp =>
        AttemptIsValid(srv, c, ListTools);
        AttemptIsValid(srv, Attempt(srv, c, ListTools).0, ListTools);
      case CallOp(name, encodable) => AttemptIsValid(srv, c, CallTool(name, encodable));
      case CloseOp => DiscardIsValid(c);
    }
  }

  // ---------- What a proper log says ----------

  lemma {:induction false} ReadyMeans(log: seq<Event>, p: nat) returns (i: nat, j: nat, k: nat)
    requires Proper(log) && PhaseOf(log, p) == Ready
    ensures i < j < k < |log| && log[i].Wrote? && log[i].p == p && log[i].what.Initialize? && log[i].id.Some?
    ensures log[j].Accepted? && log[j].p == p && log[j].answered == log[i].id.value && log[k] == Wrote(p, Initialized, None)
    decreases |log|
  {
    var before, e := log[..|log| - 1], log[|log| - 1];
    assert Proper(before) by {
      ProperPrefix(log, |log| - 1);
    }
    if PhaseOf(before, p) == Ready {
      i, j, k := ReadyMeans(before, p);
    } else {
      i, j := AgreedMeans(before, p);
      k := |log| - 1;
      assert Allowed(log[..k], log[k]);
    }
  }

  lemma ProperPrefix(log: seq<Event>, n: nat)
    requires Proper(log) && n <= |log|
    ensures Proper(log[..n])
  {
    forall k | 0 <= k < n ensures Allowed(log[..n][..k], log[..n][k]) {
      assert log[..n][..k] == log[..k];
    }
  }

  lemma {:induction false} AgreedMeans(log: seq<Event>, p: nat) returns (i: nat, j: nat)
    requires PhaseOf(log, p) == Agreed
    ensures i < j < |log| && log[i].Wrote? && log[i].p == p && log[i].what.Initialize? && log[i].id.Some?
    ensures log[j].Accepted? && log[j].p == p && log[j].answered == log[i].id.value
    decreases |log|
  {
    var before := log[..|log| - 1];
    if PhaseOf(before, p) == Agreed {
      i, j := AgreedMeans(before, p);
    } else {
      i := AskedMeans(before, p);
      j := |log| - 1;
    }
  }

  lemma {:induction false} AskedMeans(log: seq<Event>, p: nat) returns (i: nat)
    requires PhaseOf(log, p).Asked?
    ensures i < |log| && log[i] == Wrote(p, Initialize, Some(PhaseOf(log, p).id))
    decreases |log|
  {
    var before := log[..|log| - 1];
    if PhaseOf(before, p) == PhaseOf(log, p) {
      i := AskedMeans(before, p);
    } else {
      i := |log| - 1;
    }
  }

  /** No tool request is written to a process before an accepted initialize response of that process
      and the initialized notification to it. */
  lemma ToolsAfterHandshake(srv: Servers, ops: seq<Operation>, n: nat) returns (i: nat, j: nat, k: nat)
    requires var log := Run(srv, ops).log; n < |log| && log[n].Wrote? && (log[n].what.ListTools? || log[n].what.CallTool?)
    ensures var log := Run(srv, ops).log;
            && i < j < k < n && log[i].Wrote? && log[i].p == log[n].p && log[i].what.Initialize? && log[i].id.Some?
            && log[j].Accepted? && log[j].p == log[n].p && log[j].answered == log[i].id.value
            && log[k] == Wrote(log[n].p, Initialized, None)
  {
    EveryRunIsProper(srv, ops);
    var log := Run(srv, ops).log;
    assert Allowed(log[..n], log[n]);
    ProperPrefix(log, n);
    i, j, k := ReadyMeans(log[..n], log[n].p);
  }

  /** Every accepted response answers the last written request, on its process, which is the one in
      use: its id equals the request's, as Python compares them. */
  lemma AcceptsItsOwn(srv: Servers, ops: seq<Operation>, n: nat)
    requires n < |Run(srv, ops).log| && Run(srv, ops).log[n].Accepted?
    ensures var log := Run(srv, ops).log;
            && n > 0 && log[n - 1].Wrote? && log[n - 1].p == log[n].p && log[n - 1].id == Some(log[n].answered)
            && InUse(log[..n]) == Some(log[n].p) && EqualsId(log[n].replyId, log[n].answered)
  {
    EveryRunIsProper(srv, ops);
    var log := Run(srv, ops).log;
    assert Allowed(log[..n], log[n]);
  }

  lemma {:induction false} LastIdBounds(log: seq<Event>, m: nat)
    requires Proper(log) && m < |log| && log[m].Wrote? && log[m].id.Some?
    ensures log[m].id.value <= LastId(log)
    decreases |log|
  {
    var before, e := log[..|log| - 1], log[|log| - 1];
    if m < |before| {
      ProperPrefix(log, |log| - 1);
      LastIdBounds(before, m);
      assert Allowed(log[..|log| - 1], e);
    }
  }

  /** Request ids strictly increase, across restarts. */
  lemma IdsIncrease(srv: Servers, ops: seq<Operation>, m: nat, n: nat)
    requires var log := Run(srv, ops).log;
             m < n < |log| && log[m].Wrote? && log[n].Wrote? && log[m].id.Some? && log[n].id.Some?
    ensures Run(srv, ops).log[m].id.value < Run(srv, ops).log[n].id.value
  {
    EveryRunIsProper(srv, ops);
    var log := Run(srv, ops).log;
    assert Allowed(log[..n], log[n]);
    ProperPrefix(log, n);
    LastIdBounds(log[..n], m);
  }

  /** The tool calls written. */
  function CallCount(log: seq<Event>): nat {
    if log == [] then 0
    else CallCount(log[..|log| - 1]) + if log[|log| - 1].Wrote? && log[|log| - 1].what.CallTool? then 1 else 0
  }

  lemma CallCountAppend(log: seq<Event>, e: Event)
    ensures CallCount(log + [e]) == CallCount(log) + if e.Wrote? && e.what.CallTool? then 1 else 0
  {
    assert (log + [e])[..|log|] == log;
  }

  lemma RequestCalls(c: Client, m: Method, c': Client, o: Outcome)
    requires c.process.Some? && Goes(c, m, c', o)
    ensures CallCount(c'.log) <= CallCount(c.log) + if m.CallTool? then 1 else 0
  {
    var p, id := c.process.value, c.requestId + 1;
    CallCountAppend(c.log, Wrote(p, m, Some(id)));
    if o.Done? {
      CallCountAppend(c.log + [Wrote(p, m, Some(id))], c'.log[|c'.log| - 1]);
    }
  }

  lemma HandshakeCalls(srv: Servers, c: Client)
    requires c.process.Some?
    ensures CallCount(Handshake(srv, c).0.log) <= CallCount(c.log)
  {
    RequestGoes(srv, c, Initialize);
    var (c1, o) := Request(srv, c, Initialize);
    RequestCalls(c, Initialize, c1, o);
    CallCountAppend(c1.log, Wrote(c.process.value, Initialized, None));
  }

  lemma EnsureStartedCalls(srv: Servers, c: Client)
    ensures CallCount(EnsureStarted(srv, c).0.log) <= CallCount(c.log)
  {
    CallCountAppend(c.log, Started(c.spawned));
    var needed := c.process.None? || !srv.alive(c.log);
    var c1 := if needed then Spawn(c) else c;
    if c1.process.Some? {
      HandshakeCalls(srv, c1);
    }
  }

  /** A tool call is written at most once per operation: it is never replayed. */
  lemma OneCallPerOperation(srv: Servers, c: Client, name: string, encodable: bool)
    ensures CallCount(Operate(srv, c, CallOp(name, encodable)).0.log) <= CallCount(c.log) + 1
  {
    EnsureStartedCalls(srv, c);
    var (c1, o1) := EnsureStarted(srv, c);
    if o1.Done? {
      RequestGoes(srv, c1, CallTool(name, encodable));
      var (c2, o2) := Request(srv, c1, CallTool(name, encodable));
      RequestCalls(c1, CallTool(name, encodable), c2, o2);
      DiscardCalls(c2);
    } else {
      DiscardCalls(c1);
    }
  }

  lemma DiscardCalls(c: Client)
    ensures CallCount(Discard(c).log) == CallCount(c.log)
  {
    if c.process.Some? {
      CallCountAppend(c.log, Discarded(c.process.value));
    }
  }

  // ---------- What escapes ----------

  function Running(srv: Servers, c: Client): Client {
    if c.process.None? || !srv.alive(c.log) then Spawn(c) else c
  }

  predicate SpawnFails(srv: Servers, c: Client) {
    (c.process.None? || !srv.alive(c.log)) && !srv.spawns(c.log)
  }

  /** A request whose line cannot be encoded, or that is answered by JSON which is no object. */
  predicate Confuses(srv: Servers, c: Client, m: Method) {
    !srv.reply(c.log).Exited? && (!Encodable(m) || srv.reply(c.log).NotAnObject?)
  }

  /** The guards of the exceptions that no operation catches: the process cannot be started, the reply
      to `initialize` is no object, or the request itself confuses the client. */
  predicate Escapes(srv: Servers, c: Client, m: Method) {
    && srv.configured
    && (|| SpawnFails(srv, c)
        || (!Running(srv, c).initialized && Confuses(srv, Running(srv, c), Initialize))
        || (EnsureStarted(srv, c).1.Done? && Confuses(srv, EnsureStarted(srv, c).0, m)))
  }

  lemma EscapesIff(srv: Servers, c: Client, m: Method)
    ensures Attempt(srv, c, m).1.Escaped? <==> Escapes(srv, c, m)
    ensures Attempt(srv, c, m).1.Misconfigured? <==> !srv.configured
  {
  }

  function MethodOf(op: Operation): Method
    requires !op.CloseOp?
  {
    if op.ListOp? then ListTools else CallTool(op.name, op.encodable)
  }

  /** The client before the last attempt of an operation: `list_tools` makes a second one after a
      failure that was caught. */
  function BeforeLastAttempt(srv: Servers, c: Client, op: Operation): Client {
    if op.ListOp? && Attempt(srv, c, ListTools).1.Failed? then Attempt(srv, c, ListTools).0 else c
  }

  /** After an operation the client has a process exactly if the last attempt succeeded, or escaped
      with a process at hand, or found the client misconfigured with one. Every failure that is caught
      discards the process. */
  lemma KeptIff(srv: Servers, c: Client, op: Operation)
    requires !op.CloseOp?
    ensures var (c', o), last := Operate(srv, c, op), BeforeLastAttempt(srv, c, op);
            c'.process.Some?
            <==> || o.Done?
                 || (Escapes(srv, last, MethodOf(op)) && !(SpawnFails(srv, last) && last.process.None?))
                 || (!srv.configured && last.process.Some?)
    ensures Operate(srv, c, op).1.Failed? ==> Operate(srv, c, op).0.process.None?
  {
    var last, m := BeforeLastAttempt(srv, c, op), MethodOf(op);
    assert Operate(srv, c, op) == Attempt(srv, last, m);
    EscapesIff(srv, last, m);
    AttemptKeeps(srv, last, m);
  }

  lemma AttemptKeeps(srv: Servers, c: Client, m: Method)
    ensures var (c', o) := Attempt(srv, c, m);
            && (o.Done? ==> c'.process.Some?) && (o.Failed? ==> c'.process.None?)
            && (o.Misconfigured? ==> c' == c)
            && (o.Escaped? ==> (c'.process.Some? <==> !(SpawnFails(srv, c) && c.process.None?)))
  {
  }

  // ---------- What is accepted ----------

  /** The reply to `initialize` is a dict that names one of the three protocol versions. */
  lemma NegotiatedIs(result: Json)
    ensures Negotiated(result) <==>
      && result.Obj?
      && (|| FirstEntry(result.fields, "protocolVersion", Str("2024-11-05"))
          || FirstEntry(result.fields, "protocolVersion", Str("2025-03-26"))
          || FirstEntry(result.fields, "protocolVersion", Str("2025-06-18")))
  {
    if result.Obj? {
      GetIs(result.fields, "protocolVersion");
    }
  }

  /** A request has the result `v` exactly if the process runs, the line can be written and answered
      with an object of version 2.0 that has the request's id, no error and the result `v`. */
  lemma RequestDoneIff(srv: Servers, c: Client, m: Method, v: Json)
    requires c.process.Some?
    ensures Request(srv, c, m).1 == Done(v) <==>
      && (m.CallTool? ==> m.encodable)
      && exists replyId ::
        && srv.reply(c.log) == Message(Some(Str("2.0")), Some(replyId), None, Some(v))
        && (replyId == Num((c.requestId + 1) as real) || (c.requestId == 0 && replyId == Bool(true)))
  {
    var reply := srv.reply(c.log);
    if reply.Message? && reply.id.Some? {
      assert EqualsId(reply.id.value, c.requestId + 1)
        <==> reply.id.value == Num((c.requestId + 1) as real) || (c.requestId == 0 && reply.id.value == Bool(true));
    }
  }

  /** The handshake succeeds exactly if the server accepts it with a known version and takes the
      notification, which is written after the accepted reply. */
  lemma HandshakeDoneIff(srv: Servers, c: Client)
    requires c.process.Some?
    ensures Handshake(srv, c).1.Done? <==>
      exists v :: Request(srv, c, Initialize).1 == Done(v) && Negotiated(v) && srv.notified(Request(srv, c, Initialize).0.log)
    ensures Handshake(srv, c).1.Done? ==>
      Handshake(srv, c).0 == Request(srv, c, Initialize).0.(initialized := true, log := Request(srv, c, Initialize).0.log + [Wrote(c.process.value, Initialized, None)])
  {
  }
}
