/** Graph mode under concurrency: submitters, deciders and resumers run side by side, one SQL
    statement at a time, and any of them may stop for good between two statements. */
module GraphProtocol {
  import opened JsonValues
  import opened ToolGateways
  import opened Stores
  import opened Machine

  /** A gateway call made for a checkpoint. */
  datatype Performed = Performed(checkpoint: nat, approval: nat, outcome: ResumeResult)

  datatype Shared = Shared(approvals: ApprovalTable, tasks: TaskTable, checkpoints: CheckpointTable, world: World,
                           performed: seq<Performed>)

  /** What a resumer past its claim does next. */
  datatype Stage =
    | ToCall
    | ToTask(r: ResumeResult)
    | ToMark(r: ResumeResult)
    | ToRead(r: ResumeResult)
    | ToWrite(r: ResumeResult, read: Payload)
    | Won(r: ResumeResult)

  /** A process by its next statement. */
  datatype Proc =
    | Creating(task: nat, tool: string, args: Args, expiresAt: Option<int>)
    | Requesting(task: nat, tool: string, args: Args, checkpoint: nat)
    | Marking(task: nat, approval: nat, checkpoint: nat)
    | Saving(task: nat)
    | Deciding(approval: nat, approve: bool, autoResume: bool)
    | Checking(approval: nat, approve: bool, autoResume: bool)
    | Updating(approval: nat, approve: bool, autoResume: bool)
    | Rereading(approval: nat, approve: bool, autoResume: bool)
    | CancellingTask(row: Approval)
    | CancellingCheckpoint(checkpoint: nat)
    | Asking(approval: nat)
    | Guarding(approval: nat)
    | Reading(approval: nat)
    | Claiming(approval: nat, row: Approval, checkpoint: nat)
    | Losing(approval: nat, checkpoint: nat)
    | Winning(approval: nat, row: Approval, checkpoint: nat, stage: Stage)
    | Answered(approval: nat, answer: Answer)
    | Idle

  /** One statement of process `p`. */
  function Step(env: Env, g: Shared, p: Proc, now: int): (Shared, Proc) {
    match p
    case Creating(t, tool, args, expiresAt) =>
      (g.(checkpoints := AddCheckpoint(g.checkpoints, NewCheckpoint(t, "execute", Interrupted, expiresAt))),
       Requesting(t, tool, args, g.checkpoints.next))
    case Requesting(t, tool, args, c) =>
      (g.(approvals := Insert(g.approvals, NewApproval(t, GraphCall(tool, args, Some(c))))), Marking(t, g.approvals.next, c))
    case Marking(t, a, c) => (g.(checkpoints := MarkPendingInterrupt(g.checkpoints, c, a)), Saving(t))
    case Saving(t) => (g.(tasks := g.tasks.(rows := g.tasks.rows[t := Task(WaitingApproval, None)])), Idle)
    case Updating(a, approve, autoResume) =>
      (g.(approvals := DecidePending(g.approvals, a, if approve then Approved else Rejected)), Rereading(a, approve, autoResume))
    case CancellingTask(row) =>
      (g.(tasks := SetStatus(g.tasks, row.task, Cancelled)),
       if row.payload.work.GraphCall? && row.payload.work.checkpoint.Some?
       then CancellingCheckpoint(row.payload.work.checkpoint.value) else Idle)
    case CancellingCheckpoint(c) => (g.(checkpoints := MarkCancelled(g.checkpoints, c)), Idle)
    case Claiming(a, row, c) =>
      if Claimable(g.checkpoints, c, a, now)
      then (g.(checkpoints := Claim(g.checkpoints, c, a, now)), Winning(a, row, c, ToCall)) else (g, Losing(a, c))
    case Winning(a, row, c, stage) => StepWinner(env, g, a, row, c, stage)
    case _ => (g, Read(env, g, p))
  }

  /** The statements that only read. */
  function Read(env: Env, g: Shared, p: Proc): Proc {
    match p
    case Deciding(a, approve, autoResume) =>
      if a !in g.approvals.rows then Idle
      else
        var row := g.approvals.rows[a];
        if approve && row.payload.resumed then Answered(a, AlreadyResumed(row.payload.result))
        else if approve && row.status == Approved then if autoResume then Guarding(a) else Idle
        else Checking(a, approve, autoResume)
    case Checking(a, approve, autoResume) =>
      if a !in g.approvals.rows || g.approvals.rows[a].status != Pending then Idle else Updating(a, approve, autoResume)
    case Rereading(a, approve, autoResume) =>
      if a !in g.approvals.rows then Idle
      else if !approve then CancellingTask(g.approvals.rows[a])
      else if autoResume then Guarding(a) else Idle
    case Asking(a) =>
      if a !in g.approvals.rows then Answered(a, NoSuchApproval)
      else
        var row := g.approvals.rows[a];
        if row.status != Approved then Answered(a, NotApproved(row.status))
        else if row.payload.resumed then Answered(a, AlreadyResumed(row.payload.result))
        else Guarding(a)
    case Guarding(a) =>
      if a in g.approvals.rows && env.injected(g.approvals.rows[a].payload) then Answered(a, InjectionBlocked) else Reading(a)
    case Reading(a) =>
      if a !in g.approvals.rows then Answered(a, NoSuchApproval)
      else
        var row := g.approvals.rows[a];
        if row.status != Approved then Answered(a, NotApproved(row.status))
        else if row.payload.resumed then Answered(a, AlreadyResumed(row.payload.result))
        else if !row.payload.work.GraphCall? then Idle
        else if row.payload.work.checkpoint.None? then Answered(a, MissingCheckpoint)
        else Claiming(a, row, row.payload.work.checkpoint.value)
    case Losing(a, c) => Answered(a, ClaimLost(g.checkpoints, c))
    case _ => p
  }

  /** `GraphResumeAdapter.resume` after the claim. */
  function StepWinner(env: Env, g: Shared, a: nat, row: Approval, c: nat, stage: Stage): (Shared, Proc)
  {
    match stage
    case ToCall =>
      if !row.payload.work.GraphCall? then (g, Idle)
      else
        var world := CallTool(env.tools, g.world, Owner(row.task, ""), row.payload.work.graphTool, row.payload.work.graphArgs);
        var r := CallResult(Last(world), true);
        (g.(world := world, performed := g.performed + [Performed(c, a, r)]), Winning(a, row, c, ToTask(r)))
    case ToTask(r) =>
      (g.(tasks := SetStatus(g.tasks, row.task, if r.success then Completed else Failed)), Winning(a, row, c, ToMark(r)))
    case ToMark(r) => (g.(checkpoints := MarkResumed(g.checkpoints, c, r)), Winning(a, row, c, ToRead(r)))
    case ToRead(r) =>
      (g, if a in g.approvals.rows then Winning(a, row, c, ToWrite(r, g.approvals.rows[a].payload)) else Winning(a, row, c, Won(r)))
    case ToWrite(r, read) =>
      (g.(approvals := WritePayload(g.approvals, a, Merge(read, Consumed(r)))), Winning(a, row, c, Won(r)))
    case Won(r) => (g, Winning(a, row, c, Won(r)))
  }

  datatype Conf = Conf(g: Shared, procs: seq<Proc>)

  /** Requests arrive and start processes; `Tick` lets process `i` do its next statement; the expiry
      job is one statement; whatever else uses the tools may change the world. */
  datatype Event =
    | Submit(task: nat, tool: string, args: Args, expiresAt: Option<int>)
    | Decide(approval: nat, approve: bool, autoResume: bool)
    | ResumeRequest(approval: nat)
    | Tick(i: nat, now: int)
    | Expire(now: int)
    | Outside(world: World)

  function Apply(env: Env, s: Conf, e: Event): Conf {
    match e
    case Submit(t, tool, args, expiresAt) => s.(procs := s.procs + [Creating(t, tool, args, expiresAt)])
    case Decide(a, approve, autoResume) => s.(procs := s.procs + [Deciding(a, approve, autoResume)])
    case ResumeRequest(a) => s.(procs := s.procs + [Asking(a)])
    case Tick(i, now) =>
      if i < |s.procs| then
        var (g, p) := Step(env, s.g, s.procs[i], now);
        Conf(g, s.procs[i := p])
      else s
    case Expire(now) => s.(g := s.g.(checkpoints := ExpireOld(s.g.checkpoints, now)))
    case Outside(world) => s.(g := s.g.(world := world))
  }

  function Start(world: World): Conf {
    Conf(Shared(ApprovalTable(map[], 0), TaskTable(map[], 0), CheckpointTable(map[], 0), world, []), [])
  }

  function Execute(env: Env, world: World, events: seq<Event>): Conf {
    if events == [] then Start(world)
    else Apply(env, Execute(env, world, events[..|events| - 1]), events[|events| - 1])
  }

  // ---------- The invariant ----------

  /** The results of the calls made for checkpoint `c`. */
  function Results(performed: seq<Performed>, c: nat): seq<ResumeResult> {
    if performed == [] then []
    else
      var last := performed[|performed| - 1];
      Results(performed[..|performed| - 1], c) + if last.checkpoint == c then [last.outcome] else []
  }

  lemma ResultsAppend(performed: seq<Performed>, x: Performed, c: nat)
    ensures Results(performed + [x], c) == Results(performed, c) + if x.checkpoint == c then [x.outcome] else []
  {
    assert (performed + [x])[..|performed|] == performed;
  }

  /** `a` is a stored approval that asks for checkpoint `c`. */
  predicate For(at: ApprovalTable, a: nat, c: nat) {
    a in at.rows && at.rows[a].payload.work.GraphCall? && at.rows[a].payload.work.checkpoint == Some(c)
  }

  function Fresh(work: Work): Payload {
    Payload(work, false, None, None, 0)
  }

  /** An approval asks for a stored checkpoint; its payload is as it was created, or carries the one
      result of the one call made for that checkpoint. */
  predicate ApprovalOk(g: Shared, a: Approval) {
    var p := a.payload;
    && p.work.GraphCall? && p.work.checkpoint.Some? && p.work.checkpoint.value in g.checkpoints.rows
    && (p != Fresh(p.work) ==>
          && p.result.Some? && p == Merge(Fresh(p.work), Consumed(p.result.value))
          && Results(g.performed, p.work.checkpoint.value) == [p.result.value])
  }

  ghost predicate ApprovalsOk(g: Shared) {
    && (forall a | a in g.approvals.rows :: a < g.approvals.next && ApprovalOk(g, g.approvals.rows[a]))
    && TargetsDiffer(g.approvals)
  }

  /** No two approvals ask for the same checkpoint. */
  ghost predicate TargetsDiffer(at: ApprovalTable) {
    forall a, b, c | For(at, a, c) && For(at, b, c) :: a == b
  }

  predicate RowOk(g: Shared, c: nat)
    requires c in g.checkpoints.rows
  {
    var row := g.checkpoints.rows[c];
    && c < g.checkpoints.next
    && (row.approval.Some? ==> For(g.approvals, row.approval.value, c))
    && (row.attempts == 0 || (row.attempts == 1 && row.approval.Some? && (row.consumed || row.status != Interrupted)))
    && |Results(g.performed, c)| <= 1 && (row.attempts == 0 ==> Results(g.performed, c) == [])
    && (row.status == CheckpointResumed ==> row.snapshot.Some? && row.consumed)
    && (row.snapshot.Some? ==> Results(g.performed, c) == [row.snapshot.value])
    && row.status in {Interrupted, Resuming, CheckpointResumed, CheckpointCancelled, Expired}
  }

  ghost predicate RowsOk(g: Shared) {
    && (forall c | c in g.checkpoints.rows :: RowOk(g, c))
    && (forall k | 0 <= k < |g.performed| ::
          && g.performed[k].checkpoint in g.checkpoints.rows
          && For(g.approvals, g.performed[k].approval, g.performed[k].checkpoint)
          && g.approvals.rows[g.performed[k].approval].status == Approved)
  }

  /** What process `p` may rely on. */
  ghost predicate ProcOk(g: Shared, p: Proc) {
    match p
    case Requesting(_, _, _, c) =>
      && c in g.checkpoints.rows && g.checkpoints.rows[c].approval.None?
      && forall a :: !For(g.approvals, a, c)
    case Marking(_, a, c) =>
      c in g.checkpoints.rows && g.checkpoints.rows[c].approval.None? && For(g.approvals, a, c)
    case Claiming(a, row, c) => CanClaim(g, a, row, c)
    case Losing(a, c) => For(g.approvals, a, c)
    case Updating(a, _, _) => a in g.approvals.rows
    case Rereading(a, _, _) => a in g.approvals.rows
    case Winning(a, row, c, stage) =>
      && CanClaim(g, a, row, c)
      && c in g.checkpoints.rows && g.checkpoints.rows[c].attempts == 1
      && WinnerOk(g, a, c, stage)
    case Answered(a, AlreadyResumed(result)) =>
      && a in g.approvals.rows && g.approvals.rows[a].payload.work.GraphCall?
      && g.approvals.rows[a].payload.work.checkpoint.Some? && result.Some?
      && Results(g.performed, g.approvals.rows[a].payload.work.checkpoint.value) == [result.value]
    case _ => true
  }

  predicate CanClaim(g: Shared, a: nat, row: Approval, c: nat) {
    && For(g.approvals, a, c) && g.approvals.rows[a].status == Approved
    && row.payload.work == g.approvals.rows[a].payload.work && row.task == g.approvals.rows[a].task
  }

  predicate WinnerOk(g: Shared, a: nat, c: nat, stage: Stage)
    requires a in g.approvals.rows
  {
    var p := g.approvals.rows[a].payload;
    && Results(g.performed, c) == (if stage.ToCall? then [] else [stage.r])
    && p == (if stage.Won? then Merge(Fresh(p.work), Consumed(stage.r)) else Fresh(p.work))
    && (stage.ToWrite? ==> stage.read == p)
  }

  /** The checkpoint whose claim `p` has won, and the one that `p` is setting up. */
  function Claimed(p: Proc): Option<nat> {
    if p.Winning? then Some(p.checkpoint) else None
  }

  function Owned(p: Proc): Option<nat> {
    if p.Requesting? || p.Marking? then Some(p.checkpoint) else None
  }

  ghost predicate Unique(procs: seq<Proc>) {
    && (forall i, j | 0 <= i < j < |procs| && Claimed(procs[i]).Some? :: Claimed(procs[i]) != Claimed(procs[j]))
    && (forall i, j | 0 <= i < j < |procs| && Owned(procs[i]).Some? :: Owned(procs[i]) != Owned(procs[j]))
  }

  ghost predicate Inv(s: Conf) {
    && ApprovalsOk(s.g) && RowsOk(s.g)
    && (forall i | 0 <= i < |s.procs| :: ProcOk(s.g, s.procs[i]))
    && Unique(s.procs)
  }

  // ---------- Every statement keeps the invariant ----------

  /** Process `i` did one statement, which changed the shared state to `g'`. */
  lemma Assemble(s: Conf, i: nat, g': Shared, p': Proc)
    requires Inv(s) && i < |s.procs| && ApprovalsOk(g') && RowsOk(g') && ProcOk(g', p')
    requires forall j | 0 <= j < |s.procs| && j != i :: ProcOk(g', s.procs[j])
    requires Claimed(p').Some? && Claimed(p') != Claimed(s.procs[i]) ==>
               forall j | 0 <= j < |s.procs| :: Claimed(s.procs[j]) != Claimed(p')
    requires Owned(p').Some? && Owned(p') != Owned(s.procs[i]) ==>
               forall j | 0 <= j < |s.procs| :: Owned(s.procs[j]) != Owned(p')
    ensures Inv(Conf(g', s.procs[i := p']))
  {
    StaysUnique(s.procs, i, p');
    var procs := s.procs[i := p'];
    forall j | 0 <= j < |procs| ensures ProcOk(g', procs[j]) {
      if j != i {
        assert procs[j] == s.procs[j];
      }
    }
  }

  lemma StaysUnique(procs: seq<Proc>, i: nat, p': Proc)
    requires i < |procs| && Unique(procs)
    requires Claimed(p').Some? && Claimed(p') != Claimed(procs[i]) ==> forall j | 0 <= j < |procs| :: Claimed(procs[j]) != Claimed(p')
    requires Owned(p').Some? && Owned(p') != Owned(procs[i]) ==> forall j | 0 <= j < |procs| :: Owned(procs[j]) != Owned(p')
    ensures Unique(procs[i := p'])
  {
  }

  /** A statement that leaves approvals, checkpoints and calls alone. */
  lemma ReadKeepsInv(env: Env, s: Conf, i: nat)
    requires Inv(s) && i < |s.procs|
    ensures Inv(Conf(s.g, s.procs[i := Read(env, s.g, s.procs[i])]))
  {
    var p' := Read(env, s.g, s.procs[i]);
    ReadIsOk(env, s.g, s.procs[i], p');
    Assemble(s, i, s.g, p');
  }

  lemma ReadIsOk(env: Env, g: Shared, p: Proc, p': Proc)
    requires ApprovalsOk(g) && RowsOk(g) && ProcOk(g, p) && p' == Read(env, g, p)
    ensures ProcOk(g, p') && (p' == p || (Claimed(p').None? && Owned(p').None?))
  {
    match p
    case Losing(a, c) => LostIsOk(g, a, c);
    case Deciding(a, _, _) => AskerIsOk(env, g, p, a);
    case Asking(a) => AskerIsOk(env, g, p, a);
    case Reading(a) => ReaderIsOk(env, g, a);
    case Checking(_, _, _) => QuietReaderIsOk(env, g, p);
    case Rereading(_, _, _) => QuietReaderIsOk(env, g, p);
    case Guarding(_) => QuietReaderIsOk(env, g, p);
    case _ =>
  }

  lemma LostIsOk(g: Shared, a: nat, c: nat)
    requires ApprovalsOk(g) && RowsOk(g) && For(g.approvals, a, c)
    ensures ProcOk(g, Answered(a, ClaimLost(g.checkpoints, c)))
  {
    assert RowOk(g, c) && ApprovalOk(g, g.approvals.rows[a]);
  }

  lemma AskerIsOk(env: Env, g: Shared, p: Proc, a: nat)
    requires a in g.approvals.rows ==> ApprovalOk(g, g.approvals.rows[a])
    requires (p.Deciding? || p.Asking?) && p.approval == a
    ensures ProcOk(g, Read(env, g, p)) && Claimed(Read(env, g, p)).None? && Owned(Read(env, g, p)).None?
  {
  }

  lemma ReaderIsOk(env: Env, g: Shared, a: nat)
    requires a in g.approvals.rows ==> ApprovalOk(g, g.approvals.rows[a])
    ensures ProcOk(g, Read(env, g, Reading(a)))
    ensures Claimed(Read(env, g, Reading(a))).None? && Owned(Read(env, g, Reading(a))).None?
  {
  }

  lemma QuietReaderIsOk(env: Env, g: Shared, p: Proc)
    requires p.Checking? || p.Rereading? || p.Guarding?
    ensures ProcOk(g, Read(env, g, p)) && Claimed(Read(env, g, p)).None? && Owned(Read(env, g, p)).None?
  {
  }

  lemma TasksAndWorldAreFree(g: Shared, tt: TaskTable, world: World, p: Proc)
    requires ApprovalsOk(g) && RowsOk(g) && ProcOk(g, p)
    ensures ApprovalsOk(g.(tasks := tt, world := world)) && RowsOk(g.(tasks := tt, world := world))
    ensures ProcOk(g.(tasks := tt, world := world), p)
  {
  }

  lemma TaskStepKeepsInv(s: Conf, i: nat, tt: TaskTable, p': Proc)
    requires Inv(s) && i < |s.procs| && ProcOk(s.g, p') && Owned(p').None? && Claimed(p') == Claimed(s.procs[i])
    ensures Inv(Conf(s.g.(tasks := tt), s.procs[i := p']))
  {
    var g' := s.g.(tasks := tt);
    forall j | 0 <= j < |s.procs| ensures ProcOk(g', s.procs[j]) {
      TasksAndWorldAreFree(s.g, tt, s.g.world, s.procs[j]);
    }
    TasksAndWorldAreFree(s.g, tt, s.g.world, p');
    Assemble(s, i, g', p');
  }

  lemma {:induction false} NoResults(performed: seq<Performed>, c: nat)
    requires forall k | 0 <= k < |performed| :: performed[k].checkpoint != c
    ensures Results(performed, c) == []
  {
    if performed != [] {
      NoResults(performed[..|performed| - 1], c);
    }
  }

  /** Statements that leave the approvals and the calls alone. */
  lemma ApprovalsFrame(g: Shared, g': Shared)
    requires ApprovalsOk(g) && g'.approvals == g.approvals && g'.performed == g.performed
    requires g.checkpoints.rows.Keys <= g'.checkpoints.rows.Keys
    ensures ApprovalsOk(g')
  {
  }

  /** The same for the rows, which are checked one by one. */
  lemma RowsFrame(g: Shared, g': Shared)
    requires RowsOk(g) && g'.approvals == g.approvals && g'.performed == g.performed
    requires g.checkpoints.rows.Keys <= g'.checkpoints.rows.Keys
    requires forall c | c in g'.checkpoints.rows :: RowOk(g', c)
    ensures RowsOk(g')
  {
  }

  lemma CreateKeepsTables(g: Shared, row: Checkpoint, g': Shared)
    requires ApprovalsOk(g) && RowsOk(g)
    requires row.approval.None? && row.attempts == 0 && row.snapshot.None? && row.status == Interrupted
    requires g' == g.(checkpoints := AddCheckpoint(g.checkpoints, row))
    ensures ApprovalsOk(g') && RowsOk(g')
  {
    ApprovalsFrame(g, g');
    NoResults(g.performed, g.checkpoints.next);
    forall c | c in g'.checkpoints.rows ensures RowOk(g', c) {
      assert c in g.checkpoints.rows ==> RowOk(g, c);
    }
    RowsFrame(g, g');
  }

  lemma CreateIsSafe(g: Shared, row: Checkpoint, g': Shared, p: Proc)
    requires ProcOk(g, p) && g.checkpoints.next !in g.checkpoints.rows
    requires g' == g.(checkpoints := AddCheckpoint(g.checkpoints, row))
    ensures ProcOk(g', p) && Owned(p) != Some(g.checkpoints.next)
  {
  }

  lemma CreateKeepsInv(s: Conf, i: nat, p: Proc, g': Shared)
    requires Inv(s) && i < |s.procs| && p == s.procs[i] && p.Creating?
    requires g' == s.g.(checkpoints := AddCheckpoint(s.g.checkpoints, NewCheckpoint(p.task, "execute", Interrupted, p.expiresAt)))
    ensures Inv(Conf(g', s.procs[i := Requesting(p.task, p.tool, p.args, s.g.checkpoints.next)]))
  {
    var c := s.g.checkpoints.next;
    assert c !in s.g.checkpoints.rows by {
      assert c in s.g.checkpoints.rows ==> RowOk(s.g, c);
    }
    forall j | 0 <= j < |s.procs| ensures ProcOk(g', s.procs[j]) && Owned(s.procs[j]) != Some(c) {
      CreateIsSafe(s.g, g'.checkpoints.rows[c], g', s.procs[j]);
    }
    CreateKeepsTables(s.g, g'.checkpoints.rows[c], g');
    Assemble(s, i, g', Requesting(p.task, p.tool, p.args, c));
  }

  lemma RequestKeepsApprovals(g: Shared, t: nat, work: Work, c: nat, g': Shared)
    requires ApprovalsOk(g)
    requires work.GraphCall? && work.checkpoint == Some(c) && c in g.checkpoints.rows
    requires forall a :: !For(g.approvals, a, c)
    requires g' == g.(approvals := Insert(g.approvals, NewApproval(t, work)))
    ensures ApprovalsOk(g')
  {
    forall a, b, k | For(g'.approvals, a, k) && For(g'.approvals, b, k) ensures a == b {
      assert a != g.approvals.next ==> For(g.approvals, a, k);
      assert b != g.approvals.next ==> For(g.approvals, b, k);
    }
  }

  lemma RequestKeepsRows(g: Shared, t: nat, work: Work, g': Shared)
    requires ApprovalsOk(g) && RowsOk(g)
    requires g' == g.(approvals := Insert(g.approvals, NewApproval(t, work)))
    ensures RowsOk(g')
  {
    assert g.approvals.next !in g.approvals.rows;
    forall c | c in g.checkpoints.rows ensures RowOk(g', c) {
      RequestKeepsRow(g, t, work, g', c);
    }
  }

  lemma RequestKeepsRow(g: Shared, t: nat, work: Work, g': Shared, c: nat)
    requires g.approvals.next !in g.approvals.rows && c in g.checkpoints.rows && RowOk(g, c)
    requires g' == g.(approvals := Insert(g.approvals, NewApproval(t, work)))
    ensures RowOk(g', c)
  {
  }

  lemma RequestIsSafe(g: Shared, t: nat, work: Work, c: nat, g': Shared, p: Proc)
    requires ApprovalsOk(g) && ProcOk(g, p)
    requires work.GraphCall? && work.checkpoint == Some(c) && Owned(p) != Some(c)
    requires g' == g.(approvals := Insert(g.approvals, NewApproval(t, work)))
    ensures ProcOk(g', p)
  {
    assert g.approvals.next !in g.approvals.rows;
    if p.Requesting? {
      forall a ensures !For(g'.approvals, a, p.checkpoint) {
        assert a != g.approvals.next ==> !For(g.approvals, a, p.checkpoint);
      }
    }
  }

  lemma RequestKeepsInv(s: Conf, i: nat, p: Proc, work: Work, g': Shared)
    requires Inv(s) && i < |s.procs| && p == s.procs[i] && p.Requesting?
    requires work == GraphCall(p.tool, p.args, Some(p.checkpoint))
    requires g' == s.g.(approvals := Insert(s.g.approvals, NewApproval(p.task, work)))
    ensures Inv(Conf(g', s.procs[i := Marking(p.task, s.g.approvals.next, p.checkpoint)]))
  {
    assert ProcOk(s.g, p);
    forall j | 0 <= j < |s.procs| && j != i ensures ProcOk(g', s.procs[j]) {
      assert Owned(s.procs[j]) != Some(p.checkpoint);
      RequestIsSafe(s.g, p.task, work, p.checkpoint, g', s.procs[j]);
    }
    RequestKeepsApprovals(s.g, p.task, work, p.checkpoint, g');
    RequestKeepsRows(s.g, p.task, work, g');
    Assemble(s, i, g', Marking(p.task, s.g.approvals.next, p.checkpoint));
  }

  lemma MarkKeepsTables(g: Shared, a: nat, c: nat, g': Shared)
    requires ApprovalsOk(g) && RowsOk(g) && For(g.approvals, a, c) && c in g.checkpoints.rows
    requires g.checkpoints.rows[c].approval.None? && g' == g.(checkpoints := MarkPendingInterrupt(g.checkpoints, c, a))
    ensures ApprovalsOk(g') && RowsOk(g')
  {
    ApprovalsFrame(g, g');
    forall k | k in g'.checkpoints.rows ensures RowOk(g', k) {
      assert RowOk(g, k);
    }
    RowsFrame(g, g');
  }

  lemma MarkIsSafe(g: Shared, a: nat, c: nat, g': Shared, p: Proc)
    requires ProcOk(g, p) && Owned(p) != Some(c)
    requires g' == g.(checkpoints := MarkPendingInterrupt(g.checkpoints, c, a))
    ensures ProcOk(g', p)
  {
  }

  lemma MarkKeepsInv(s: Conf, i: nat, p: Proc, g': Shared)
    requires Inv(s) && i < |s.procs| && p == s.procs[i] && p.Marking?
    requires g' == s.g.(checkpoints := MarkPendingInterrupt(s.g.checkpoints, p.checkpoint, p.approval))
    ensures Inv(Conf(g', s.procs[i := Saving(p.task)]))
  {
    assert ProcOk(s.g, p);
    forall j | 0 <= j < |s.procs| && j != i ensures ProcOk(g', s.procs[j]) {
      assert Owned(s.procs[j]) != Some(p.checkpoint);
      MarkIsSafe(s.g, p.approval, p.checkpoint, g', s.procs[j]);
    }
    MarkKeepsTables(s.g, p.approval, p.checkpoint, g');
    Assemble(s, i, g', Saving(p.task));
  }

  lemma DecisionKeepsTables(g: Shared, a: nat, status: ApprovalStatus, g': Shared)
    requires ApprovalsOk(g) && RowsOk(g)
    requires g' == g.(approvals := DecidePending(g.approvals, a, status))
    ensures ApprovalsOk(g') && RowsOk(g')
  {
    SameWorkKeepsRows(g, g');
    DecisionKeepsApprovals(g, a, status, g');
  }

  lemma DecisionKeepsApprovals(g: Shared, a: nat, status: ApprovalStatus, g': Shared)
    requires ApprovalsOk(g) && g' == g.(approvals := DecidePending(g.approvals, a, status))
    ensures ApprovalsOk(g')
  {
    SameWorkKeepsTargets(g.approvals, g'.approvals);
    forall b | b in g'.approvals.rows ensures b < g'.approvals.next && ApprovalOk(g', g'.approvals.rows[b]) {
      assert ApprovalOk(g, g.approvals.rows[b]);
    }
  }

  lemma DecisionIsSafe(g: Shared, a: nat, status: ApprovalStatus, g': Shared, p: Proc)
    requires ProcOk(g, p) && g' == g.(approvals := DecidePending(g.approvals, a, status))
    ensures ProcOk(g', p)
  {
    if p.Requesting? {
      forall b ensures !For(g'.approvals, b, p.checkpoint) {
        assert !For(g.approvals, b, p.checkpoint);
      }
    }
  }

  lemma DecisionKeepsInv(s: Conf, i: nat, a: nat, status: ApprovalStatus, g': Shared, p': Proc)
    requires Inv(s) && i < |s.procs| && p'.Rereading? && p'.approval == a && a in s.g.approvals.rows
    requires g' == s.g.(approvals := DecidePending(s.g.approvals, a, status))
    ensures Inv(Conf(g', s.procs[i := p']))
  {
    forall j | 0 <= j < |s.procs| ensures ProcOk(g', s.procs[j]) {
      DecisionIsSafe(s.g, a, status, g', s.procs[j]);
    }
    DecisionKeepsTables(s.g, a, status, g');
    Assemble(s, i, g', p');
  }

  /** Cancelling and expiring: rows only become consumed. */
  ghost predicate Retired(t: CheckpointTable, t': CheckpointTable) {
    && t'.rows.Keys == t.rows.Keys && t'.next == t.next
    && forall c | c in t.rows ::
         || t'.rows[c] == t.rows[c]
         || t'.rows[c] == t.rows[c].(status := CheckpointCancelled, consumed := true)
         || t'.rows[c] == t.rows[c].(status := Expired, consumed := true)
  }

  lemma RetirementKeepsTables(g: Shared, g': Shared)
    requires ApprovalsOk(g) && RowsOk(g)
    requires g' == g.(checkpoints := g'.checkpoints) && Retired(g.checkpoints, g'.checkpoints)
    ensures ApprovalsOk(g') && RowsOk(g')
  {
    ApprovalsFrame(g, g');
    forall c | c in g'.checkpoints.rows ensures RowOk(g', c) {
      assert RowOk(g, c);
    }
    RowsFrame(g, g');
  }

  lemma RetirementIsSafe(g: Shared, g': Shared, p: Proc)
    requires ProcOk(g, p)
    requires g' == g.(checkpoints := g'.checkpoints) && Retired(g.checkpoints, g'.checkpoints)
    ensures ProcOk(g', p)
  {
  }

  lemma RetirementKeepsInv(s: Conf, g': Shared)
    requires Inv(s) && g' == s.g.(checkpoints := g'.checkpoints) && Retired(s.g.checkpoints, g'.checkpoints)
    ensures Inv(s.(g := g'))
  {
    forall j | 0 <= j < |s.procs| ensures ProcOk(g', s.procs[j]) {
      RetirementIsSafe(s.g, g', s.procs[j]);
    }
    RetirementKeepsTables(s.g, g');
  }

  lemma CancelKeepsInv(s: Conf, i: nat, c: nat, g': Shared)
    requires Inv(s) && i < |s.procs| && g' == s.g.(checkpoints := MarkCancelled(s.g.checkpoints, c))
    ensures Inv(Conf(g', s.procs[i := Idle]))
  {
    RetirementKeepsInv(s, g');
    Assemble(s.(g := g'), i, g', Idle);
  }

  lemma ClaimKeepsTables(g: Shared, a: nat, c: nat, now: int, g': Shared)
    requires ApprovalsOk(g) && RowsOk(g)
    requires Claimable(g.checkpoints, c, a, now) && g' == g.(checkpoints := Claim(g.checkpoints, c, a, now))
    ensures ApprovalsOk(g') && RowsOk(g') && g.checkpoints.rows[c].attempts == 0
  {
    assert RowOk(g, c);
    ApprovalsFrame(g, g');
    forall k | k in g'.checkpoints.rows ensures RowOk(g', k) {
      assert RowOk(g, k);
    }
    RowsFrame(g, g');
  }

  lemma ClaimIsSafe(g: Shared, a: nat, c: nat, now: int, g': Shared, p: Proc)
    requires ProcOk(g, p) && Claimable(g.checkpoints, c, a, now) && g.checkpoints.rows[c].attempts == 0
    requires g' == g.(checkpoints := Claim(g.checkpoints, c, a, now))
    ensures ProcOk(g', p) && Claimed(p) != Some(c)
  {
  }

  lemma ClaimKeepsInv(s: Conf, i: nat, p: Proc, now: int, g': Shared)
    requires Inv(s) && i < |s.procs| && p == s.procs[i] && p.Claiming?
    requires Claimable(s.g.checkpoints, p.checkpoint, p.approval, now)
    requires g' == s.g.(checkpoints := Claim(s.g.checkpoints, p.checkpoint, p.approval, now))
    ensures Inv(Conf(g', s.procs[i := Winning(p.approval, p.row, p.checkpoint, ToCall)]))
  {
    assert ProcOk(s.g, p);
    ClaimKeepsTables(s.g, p.approval, p.checkpoint, now, g');
    forall j | 0 <= j < |s.procs| ensures ProcOk(g', s.procs[j]) && Claimed(s.procs[j]) != Some(p.checkpoint) {
      ClaimIsSafe(s.g, p.approval, p.checkpoint, now, g', s.procs[j]);
    }
    ClaimedIsOk(s.g, p, now, g');
    Assemble(s, i, g', Winning(p.approval, p.row, p.checkpoint, ToCall));
  }

  lemma ClaimedIsOk(g: Shared, p: Proc, now: int, g': Shared)
    requires ApprovalsOk(g) && RowsOk(g) && ProcOk(g, p) && p.Claiming?
    requires Claimable(g.checkpoints, p.checkpoint, p.approval, now)
    requires g' == g.(checkpoints := Claim(g.checkpoints, p.checkpoint, p.approval, now))
    ensures ProcOk(g', Winning(p.approval, p.row, p.checkpoint, ToCall))
  {
    assert RowOk(g, p.checkpoint);
    assert ApprovalOk(g, g.approvals.rows[p.approval]);
  }

  lemma CallKeepsTables(g: Shared, x: Performed, world: World, g': Shared)
    requires ApprovalsOk(g) && RowsOk(g)
    requires For(g.approvals, x.approval, x.checkpoint) && g.approvals.rows[x.approval].status == Approved
    requires x.checkpoint in g.checkpoints.rows && g.checkpoints.rows[x.checkpoint].attempts == 1
    requires Results(g.performed, x.checkpoint) == []
    requires g' == g.(world := world, performed := g.performed + [x])
    ensures ApprovalsOk(g') && RowsOk(g')
  {
    forall c | c in g.checkpoints.rows ensures RowOk(g', c) {
      assert RowOk(g, c);
      ResultsAppend(g.performed, x, c);
    }
    forall a | a in g.approvals.rows ensures ApprovalOk(g', g.approvals.rows[a]) {
      assert ApprovalOk(g, g.approvals.rows[a]);
      ResultsAppend(g.performed, x, g.approvals.rows[a].payload.work.checkpoint.value);
    }
  }

  lemma CallIsSafe(g: Shared, x: Performed, world: World, g': Shared, p: Proc)
    requires ProcOk(g, p) && Results(g.performed, x.checkpoint) == [] && Claimed(p) != Some(x.checkpoint)
    requires g' == g.(world := world, performed := g.performed + [x])
    ensures ProcOk(g', p)
  {
    forall c ensures Results(g'.performed, c) == Results(g.performed, c) + if x.checkpoint == c then [x.outcome] else [] {
      ResultsAppend(g.performed, x, c);
    }
  }

  /** What a resumer past its claim may rely on before the call, and what it is after it. */
  lemma CallerIsOk(g: Shared, p: Proc, x: Performed, world: World, g': Shared)
    requires ProcOk(g, p) && p.Winning? && p.stage.ToCall? && x.checkpoint == p.checkpoint && x.approval == p.approval
    requires g' == g.(world := world, performed := g.performed + [x])
    ensures For(g.approvals, x.approval, x.checkpoint) && g.approvals.rows[x.approval].status == Approved
    ensures x.checkpoint in g.checkpoints.rows && g.checkpoints.rows[x.checkpoint].attempts == 1
    ensures Results(g.performed, x.checkpoint) == []
    ensures ProcOk(g', p.(stage := ToTask(x.outcome)))
  {
    ResultsAppend(g.performed, x, p.checkpoint);
  }

  lemma CallKeepsInv(s: Conf, i: nat, p: Proc, x: Performed, world: World, g': Shared)
    requires Inv(s) && i < |s.procs| && p == s.procs[i] && p.Winning? && p.stage.ToCall?
    requires x.checkpoint == p.checkpoint && x.approval == p.approval
    requires g' == s.g.(world := world, performed := s.g.performed + [x])
    ensures Inv(Conf(g', s.procs[i := p.(stage := ToTask(x.outcome))]))
  {
    CallerIsOk(s.g, p, x, world, g');
    forall j | 0 <= j < |s.procs| && j != i ensures ProcOk(g', s.procs[j]) {
      assert Claimed(s.procs[j]) != Some(p.checkpoint);
      CallIsSafe(s.g, x, world, g', s.procs[j]);
    }
    CallKeepsTables(s.g, x, world, g');
    Assemble(s, i, g', p.(stage := ToTask(x.outcome)));
  }

  lemma FinishKeepsTables(g: Shared, c: nat, r: ResumeResult, g': Shared)
    requires ApprovalsOk(g) && RowsOk(g)
    requires c in g.checkpoints.rows && g.checkpoints.rows[c].attempts == 1 && Results(g.performed, c) == [r]
    requires g' == g.(checkpoints := MarkResumed(g.checkpoints, c, r))
    ensures ApprovalsOk(g') && RowsOk(g')
  {
    ApprovalsFrame(g, g');
    forall k | k in g'.checkpoints.rows ensures RowOk(g', k) {
      assert RowOk(g, k);
    }
    RowsFrame(g, g');
  }

  lemma FinishIsSafe(g: Shared, c: nat, r: ResumeResult, g': Shared, p: Proc)
    requires ProcOk(g, p) && g' == g.(checkpoints := MarkResumed(g.checkpoints, c, r))
    ensures ProcOk(g', p)
  {
  }

  lemma FinishKeepsInv(s: Conf, i: nat, p: Proc, g': Shared)
    requires Inv(s) && i < |s.procs| && p == s.procs[i] && p.Winning? && p.stage.ToMark?
    requires g' == s.g.(checkpoints := MarkResumed(s.g.checkpoints, p.checkpoint, p.stage.r))
    ensures Inv(Conf(g', s.procs[i := p.(stage := ToRead(p.stage.r))]))
  {
    assert ProcOk(s.g, p);
    forall j | 0 <= j < |s.procs| ensures ProcOk(g', s.procs[j]) {
      FinishIsSafe(s.g, p.checkpoint, p.stage.r, g', s.procs[j]);
    }
    FinishKeepsTables(s.g, p.checkpoint, p.stage.r, g');
    Assemble(s, i, g', p.(stage := ToRead(p.stage.r)));
  }

  lemma WriteKeepsTables(g: Shared, a: nat, c: nat, r: ResumeResult, read: Payload, g': Shared)
    requires ApprovalsOk(g) && RowsOk(g)
    requires For(g.approvals, a, c) && g.approvals.rows[a].payload == read == Fresh(read.work) && Results(g.performed, c) == [r]
    requires g' == g.(approvals := WritePayload(g.approvals, a, Merge(read, Consumed(r))))
    ensures ApprovalsOk(g') && RowsOk(g')
  {
    SameWorkKeepsRows(g, g');
    WriteKeepsApprovals(g, a, c, r, read, g');
  }

  lemma WriteKeepsApprovals(g: Shared, a: nat, c: nat, r: ResumeResult, read: Payload, g': Shared)
    requires ApprovalsOk(g) && For(g.approvals, a, c) && Results(g.performed, c) == [r]
    requires g.approvals.rows[a].payload == read == Fresh(read.work)
    requires g' == g.(approvals := WritePayload(g.approvals, a, Merge(read, Consumed(r))))
    ensures ApprovalsOk(g')
  {
    SameWorkKeepsTargets(g.approvals, g'.approvals);
    forall b | b in g'.approvals.rows ensures b < g'.approvals.next && ApprovalOk(g', g'.approvals.rows[b]) {
      assert ApprovalOk(g, g.approvals.rows[b]);
    }
  }

  /** Approvals that keep their work and do not lose an approved status. */
  lemma SameWorkKeepsRows(g: Shared, g': Shared)
    requires RowsOk(g) && g' == g.(approvals := g'.approvals) && g'.approvals.rows.Keys == g.approvals.rows.Keys
    requires SameWork(g.approvals, g'.approvals)
    ensures RowsOk(g')
  {
    forall c | c in g.checkpoints.rows ensures RowOk(g', c) {
      assert RowOk(g, c);
    }
  }

  ghost predicate SameWork(at: ApprovalTable, at': ApprovalTable) {
    forall a | a in at.rows ::
      && a in at'.rows && at'.rows[a].payload.work == at.rows[a].payload.work
      && (at.rows[a].status == Approved ==> at'.rows[a].status == Approved)
  }

  lemma SameWorkKeepsTargets(at: ApprovalTable, at': ApprovalTable)
    requires TargetsDiffer(at) && at'.rows.Keys == at.rows.Keys && SameWork(at, at')
    ensures TargetsDiffer(at')
  {
    forall a, b, c | For(at', a, c) && For(at', b, c) ensures a == b {
      assert For(at, a, c) && For(at, b, c);
    }
  }

  lemma WriteIsSafe(g: Shared, a: nat, c: nat, r: ResumeResult, read: Payload, g': Shared, p: Proc)
    requires ApprovalsOk(g) && ProcOk(g, p) && For(g.approvals, a, c) && Claimed(p) != Some(c)
    requires g.approvals.rows[a].payload == read
    requires g' == g.(approvals := WritePayload(g.approvals, a, Merge(read, Consumed(r))))
    ensures ProcOk(g', p)
  {
    if p.Requesting? {
      forall b ensures !For(g'.approvals, b, p.checkpoint) {
        assert !For(g.approvals, b, p.checkpoint);
      }
    }
  }

  lemma WriteKeepsInv(s: Conf, i: nat, p: Proc, g': Shared)
    requires Inv(s) && i < |s.procs| && p == s.procs[i] && p.Winning? && p.stage.ToWrite?
    requires g' == s.g.(approvals := WritePayload(s.g.approvals, p.approval, Merge(p.stage.read, Consumed(p.stage.r))))
    ensures Inv(Conf(g', s.procs[i := p.(stage := Won(p.stage.r))]))
  {
    assert ProcOk(s.g, p);
    forall j | 0 <= j < |s.procs| && j != i ensures ProcOk(g', s.procs[j]) {
      assert Claimed(s.procs[j]) != Some(p.checkpoint);
      WriteIsSafe(s.g, p.approval, p.checkpoint, p.stage.r, p.stage.read, g', s.procs[j]);
    }
    WriteKeepsTables(s.g, p.approval, p.checkpoint, p.stage.r, p.stage.read, g');
    Assemble(s, i, g', p.(stage := Won(p.stage.r)));
  }

  lemma WinnerKeepsInv(env: Env, s: Conf, i: nat, p: Proc)
    requires Inv(s) && i < |s.procs| && p == s.procs[i] && p.Winning?
    ensures var (g', p') := StepWinner(env, s.g, p.approval, p.row, p.checkpoint, p.stage); Inv(Conf(g', s.procs[i := p']))
  {
    assert ProcOk(s.g, p);
    var (g', p') := StepWinner(env, s.g, p.approval, p.row, p.checkpoint, p.stage);
    match p.stage
    case ToCall => CallKeepsInv(s, i, p, Performed(p.checkpoint, p.approval, p'.stage.r), g'.world, g');
    case ToTask(r) => TaskStepKeepsInv(s, i, g'.tasks, p');
    case ToMark(r) => FinishKeepsInv(s, i, p, g');
    case ToRead(r) => Assemble(s, i, s.g, p');
    case ToWrite(r, read) => WriteKeepsInv(s, i, p, g');
    case Won(r) => Assemble(s, i, s.g, p');
  }

  lemma TickKeepsInv(env: Env, s: Conf, i: nat, now: int)
    requires Inv(s) && i < |s.procs|
    ensures var (g', p') := Step(env, s.g, s.procs[i], now); Inv(Conf(g', s.procs[i := p']))
  {
    var p := s.procs[i];
    var (g', p') := Step(env, s.g, p, now);
    match p
    case Creating(_, _, _, _) => CreateKeepsInv(s, i, p, g');
    case Requesting(t, tool, args, c) => RequestKeepsInv(s, i, p, GraphCall(tool, args, Some(c)), g');
    case Marking(_, _, _) => MarkKeepsInv(s, i, p, g');
    case Saving(_) => TaskStepKeepsInv(s, i, g'.tasks, p');
    case Updating(a, approve, _) =>
      assert ProcOk(s.g, p);
      DecisionKeepsInv(s, i, a, if approve then Approved else Rejected, g', p');
    case CancellingTask(_) => TaskStepKeepsInv(s, i, g'.tasks, p');
    case CancellingCheckpoint(c) => CancelKeepsInv(s, i, c, g');
    case Claiming(a, _, c) =>
      if Claimable(s.g.checkpoints, c, a, now) {
        ClaimKeepsInv(s, i, p, now, g');
      } else {
        assert ProcOk(s.g, p);
        Assemble(s, i, s.g, p');
      }
    case Winning(_, _, _, _) => WinnerKeepsInv(env, s, i, p);
    case _ => ReadKeepsInv(env, s, i);
  }

  lemma OutsideKeepsInv(s: Conf, world: World)
    requires Inv(s)
    ensures Inv(s.(g := s.g.(world := world)))
  {
    forall j | 0 <= j < |s.procs| ensures ProcOk(s.g.(world := world), s.procs[j]) {
      TasksAndWorldAreFree(s.g, s.g.tasks, world, s.procs[j]);
    }
    TasksAndWorldAreFree(s.g, s.g.tasks, world, Idle);
  }

  lemma ArrivalKeepsInv(s: Conf, p: Proc)
    requires Inv(s) && (p.Creating? || p.Deciding? || p.Asking?)
    ensures Inv(s.(procs := s.procs + [p]))
  {
    var procs := s.procs + [p];
    forall j | 0 <= j < |procs| ensures ProcOk(s.g, procs[j]) {
      assert j < |s.procs| ==> ProcOk(s.g, s.procs[j]);
    }
  }

  lemma ApplyKeepsInv(env: Env, s: Conf, e: Event)
    requires Inv(s)
    ensures Inv(Apply(env, s, e))
  {
    match e
    case Submit(t, tool, args, expiresAt) => ArrivalKeepsInv(s, Creating(t, tool, args, expiresAt));
    case Decide(a, approve, autoResume) => ArrivalKeepsInv(s, Deciding(a, approve, autoResume));
    case ResumeRequest(a) => ArrivalKeepsInv(s, Asking(a));
    case Tick(i, now) =>
      if i < |s.procs| {
        TickKeepsInv(env, s, i, now);
      }
    case Expire(now) => RetirementKeepsInv(s, s.g.(checkpoints := ExpireOld(s.g.checkpoints, now)));
    case Outside(world) => OutsideKeepsInv(s, world);
  }

  lemma {:induction false} EveryRunKeepsInv(env: Env, world: World, events: seq<Event>)
    ensures Inv(Execute(env, world, events))
  {
    if events != [] {
      EveryRunKeepsInv(env, world, events[..|events| - 1]);
      ApplyKeepsInv(env, Execute(env, world, events[..|events| - 1]), events[|events| - 1]);
    }
  }

  // ---------- What it means ----------

  lemma {:induction false} ResultFound(performed: seq<Performed>, c: nat, k: nat)
    requires k < |performed| && performed[k].checkpoint == c
    ensures performed[k].outcome in Results(performed, c)
  {
    if k < |performed| - 1 {
      ResultFound(performed[..|performed| - 1], c, k);
    }
  }

  lemma {:induction false} TwoResults(performed: seq<Performed>, c: nat, k: nat, l: nat)
    requires k < l < |performed| && performed[k].checkpoint == performed[l].checkpoint == c
    ensures |Results(performed, c)| >= 2
  {
    var before := performed[..|performed| - 1];
    if l < |before| {
      TwoResults(before, c, k, l);
    } else {
      ResultFound(before, c, k);
    }
  }

  lemma {:induction false} ResultAt(performed: seq<Performed>, c: nat, r: ResumeResult) returns (k: nat)
    requires r in Results(performed, c)
    ensures k < |performed| && performed[k].checkpoint == c && performed[k].outcome == r
  {
    var before := performed[..|performed| - 1];
    if r in Results(before, c) {
      k := ResultAt(before, c, r);
    } else {
      k := |performed| - 1;
    }
  }

  /** Whatever is interleaved and whoever stops for good: at most one resumer of a checkpoint is ever
      past the claim, its tool is called at most once, and only if the approval that asks for it is
      stored as approved. */
  lemma AtMostOnce(env: Env, world: World, events: seq<Event>)
    ensures var s := Execute(env, world, events);
            && (forall i, j | 0 <= i < j < |s.procs| && s.procs[i].Winning? && s.procs[j].Winning? ::
                  s.procs[i].checkpoint != s.procs[j].checkpoint)
            && (forall k, l | 0 <= k < l < |s.g.performed| :: s.g.performed[k].checkpoint != s.g.performed[l].checkpoint)
            && (forall k | 0 <= k < |s.g.performed| ::
                  && For(s.g.approvals, s.g.performed[k].approval, s.g.performed[k].checkpoint)
                  && s.g.approvals.rows[s.g.performed[k].approval].status == Approved)
  {
    EveryRunKeepsInv(env, world, events);
    var s := Execute(env, world, events);
    assert forall i | 0 <= i < |s.procs| && s.procs[i].Winning? :: Claimed(s.procs[i]).Some?;
    forall k, l | 0 <= k < l < |s.g.performed| ensures s.g.performed[k].checkpoint != s.g.performed[l].checkpoint {
      var c := s.g.performed[l].checkpoint;
      assert RowOk(s.g, c);
      if s.g.performed[k].checkpoint == c {
        TwoResults(s.g.performed, c, k, l);
      }
    }
  }

  /** The call whose result `a` was consumed with. */
  predicate PerformedFor(g: Shared, a: nat, r: ResumeResult) {
    exists k | 0 <= k < |g.performed| :: g.performed[k].approval == a && g.performed[k].outcome == r
  }

  /** Every request that answers `already_resumed`, having read the approval or the checkpoint,
      answers the result of the one call that was made for the approval. */
  lemma AlreadyResumedAgrees(env: Env, world: World, events: seq<Event>, i: nat, a: nat, result: Option<ResumeResult>)
    requires var s := Execute(env, world, events); i < |s.procs| && s.procs[i] == Answered(a, AlreadyResumed(result))
    ensures var s := Execute(env, world, events);
            && result.Some? && PerformedFor(s.g, a, result.value)
            && forall r | PerformedFor(s.g, a, r) :: r == result.value
  {
    EveryRunKeepsInv(env, world, events);
    var s := Execute(env, world, events);
    assert ProcOk(s.g, s.procs[i]);
    OneOutcome(s.g, a, s.g.approvals.rows[a].payload.work.checkpoint.value, result.value);
  }

  lemma OneOutcome(g: Shared, a: nat, c: nat, r: ResumeResult)
    requires ApprovalsOk(g) && RowsOk(g) && For(g.approvals, a, c) && Results(g.performed, c) == [r]
    ensures PerformedFor(g, a, r) && forall q | PerformedFor(g, a, q) :: q == r
  {
    var k := ResultAt(g.performed, c, r);
    assert For(g.approvals, g.performed[k].approval, c);
    forall q | PerformedFor(g, a, q) ensures q == r {
      SameOutcome(g, a, c, r, q);
    }
  }

  lemma SameOutcome(g: Shared, a: nat, c: nat, r: ResumeResult, q: ResumeResult)
    requires RowsOk(g) && For(g.approvals, a, c) && Results(g.performed, c) == [r] && PerformedFor(g, a, q)
    ensures q == r
  {
    var l :| 0 <= l < |g.performed| && g.performed[l].approval == a && g.performed[l].outcome == q;
    ResultFound(g.performed, g.performed[l].checkpoint, l);
  }

  /** No payload update is lost: what a winner wrote stays, and nothing else was written. */
  lemma NoUpdateIsLost(env: Env, world: World, events: seq<Event>, i: nat)
    requires var s := Execute(env, world, events); i < |s.procs| && s.procs[i].Winning? && s.procs[i].stage.Won?
    ensures var s := Execute(env, world, events);
            var p := s.procs[i];
            && p.approval in s.g.approvals.rows && PerformedFor(s.g, p.approval, p.stage.r)
            && s.g.approvals.rows[p.approval].payload == Merge(Fresh(p.row.payload.work), Consumed(p.stage.r))
  {
    EveryRunKeepsInv(env, world, events);
    var s := Execute(env, world, events);
    assert ProcOk(s.g, s.procs[i]);
    OneOutcome(s.g, s.procs[i].approval, s.procs[i].checkpoint, s.procs[i].stage.r);
  }

  /** A resumer whose claim failed answers `already_resumed` exactly if its checkpoint is resumed, and
      then with the result of the one call made for it - never without one. */
  lemma LostClaimAnswers(env: Env, world: World, events: seq<Event>, i: nat, a: nat, c: nat)
    requires var s := Execute(env, world, events); i < |s.procs| && s.procs[i] == Losing(a, c)
    ensures var s := Execute(env, world, events);
            var answer := ClaimLost(s.g.checkpoints, c);
            && c in s.g.checkpoints.rows
            && (answer.AlreadyResumed? <==> s.g.checkpoints.rows[c].status == CheckpointResumed)
            && (answer.AlreadyResumed? ==> answer.result.Some? && PerformedFor(s.g, a, answer.result.value))
            && (answer.ClaimFailed? ==> s.g.checkpoints.rows[c].status in {Interrupted, Resuming})
  {
    EveryRunKeepsInv(env, world, events);
    var g := Execute(env, world, events).g;
    assert ProcOk(g, Losing(a, c));
    LostClaim(g, a, c);
  }

  lemma LostClaim(g: Shared, a: nat, c: nat)
    requires ApprovalsOk(g) && RowsOk(g) && For(g.approvals, a, c)
    ensures var answer := ClaimLost(g.checkpoints, c);
            && c in g.checkpoints.rows
            && (answer.AlreadyResumed? <==> g.checkpoints.rows[c].status == CheckpointResumed)
            && (answer.AlreadyResumed? ==> answer.result.Some? && PerformedFor(g, a, answer.result.value))
            && (answer.ClaimFailed? ==> g.checkpoints.rows[c].status in {Interrupted, Resuming})
  {
    assert ApprovalOk(g, g.approvals.rows[a]) && RowOk(g, c);
    if g.checkpoints.rows[c].status == CheckpointResumed {
      OneOutcome(g, a, c, g.checkpoints.rows[c].snapshot.value);
    }
  }

  // ---------- Against the atomic operations ----------

  function Alone(env: Env, g: Shared, p: Proc, now: int, n: nat): (Shared, Proc)
    decreases n
  {
    if n == 0 then (g, p)
    else
      var (g', p') := Step(env, g, p, now);
      Alone(env, g', p', now, n - 1)
  }

  lemma {:induction false} AloneNext(env: Env, g: Shared, p: Proc, now: int, n: nat)
    ensures var (g', p') := Alone(env, g, p, now, n); Alone(env, g, p, now, n + 1) == Step(env, g', p', now)
    decreases n
  {
    var (g1, p1) := Step(env, g, p, now);
    if n == 0 {
      assert Alone(env, g1, p1, now, 0) == (g1, p1);
    } else {
      var m: nat := n - 1;
      AloneNext(env, g1, p1, now, m);
    }
  }

  lemma {:induction false} AloneTwice(env: Env, g: Shared, p: Proc, now: int, m: nat, n: nat)
    ensures var (g', p') := Alone(env, g, p, now, m); Alone(env, g, p, now, m + n) == Alone(env, g', p', now, n)
    decreases m
  {
    if m > 0 {
      var k: nat := m - 1;
      var (g1, p1) := Step(env, g, p, now);
      AloneTwice(env, g1, p1, now, k, n);
    }
  }

  function SysOf(g: Shared): Sys {
    Sys(g.approvals, g.tasks, g.checkpoints, g.world)
  }

  function AnswerOf(p: Proc): Option<Answer> {
    if p.Answered? then Some(p.answer)
    else if p.Winning? && p.stage.Won? then Some(Attempted(p.stage.r)) else None
  }

  /** A resumer that nobody interrupts does what the atomic resume operation does. */
  lemma ResumerAlone(env: Env, g: Shared, a: nat, now: int)
    requires a in g.approvals.rows ==> g.approvals.rows[a].payload.work.GraphCall?
    ensures var (g', p') := Alone(env, g, Asking(a), now, 9);
            var (s', answer) := HandleResume(env, SysOf(g), a, now);
            SysOf(g') == s' && AnswerOf(p') == Some(answer)
  {
    var p1, n: nat := Read(env, g, Asking(a)), 8;
    assert Alone(env, g, Asking(a), now, 9) == Alone(env, g, p1, now, n);
    if p1.Guarding? {
      GuardAlone(env, g, a, now);
    } else {
      StaysAnswered(env, g, a, p1.answer, now, n);
    }
  }

  /** The same behind the injection guard. */
  lemma GuardAlone(env: Env, g: Shared, a: nat, now: int)
    requires a in g.approvals.rows ==> g.approvals.rows[a].payload.work.GraphCall?
    ensures var (g', p') := Alone(env, g, Guarding(a), now, 8);
            var (s', answer) := DoResume(env, SysOf(g), a, now);
            SysOf(g') == s' && AnswerOf(p') == Some(answer)
  {
    var p1, n: nat := Read(env, g, Guarding(a)), 7;
    assert Alone(env, g, Guarding(a), now, 8) == Alone(env, g, p1, now, n);
    if p1.Reading? {
      ReaderAlone(env, g, a, now);
    } else {
      StaysAnswered(env, g, a, p1.answer, now, n);
    }
  }

  lemma ReaderAlone(env: Env, g: Shared, a: nat, now: int)
    requires a in g.approvals.rows ==> g.approvals.rows[a].payload.work.GraphCall?
    ensures var (g', p') := Alone(env, g, Reading(a), now, 7);
            var (s', answer) := ServiceResume(env, SysOf(g), a, now);
            SysOf(g') == s' && AnswerOf(p') == Some(answer)
  {
    var p1, n: nat := Read(env, g, Reading(a)), 6;
    assert Alone(env, g, Reading(a), now, 7) == Alone(env, g, p1, now, n);
    if p1.Claiming? {
      ClaimerAlone(env, g, a, p1.row, p1.checkpoint, now);
    } else {
      StaysAnswered(env, g, a, p1.answer, now, n);
    }
  }

  lemma ClaimerAlone(env: Env, g: Shared, a: nat, row: Approval, c: nat, now: int)
    requires For(g.approvals, a, c) && g.approvals.rows[a] == row
    ensures var (g', p') := Alone(env, g, Claiming(a, row, c), now, 6);
            var (s', answer) := ResumeGraph(env, SysOf(g), a, row, now);
            SysOf(g') == s' && AnswerOf(p') == Some(answer)
  {
    if Claimable(g.checkpoints, c, a, now) {
      ClaimantAlone(env, g, a, row, c, now);
    } else {
      LoserAlone(env, g, a, row, c, now);
    }
  }

  lemma ClaimantAlone(env: Env, g: Shared, a: nat, row: Approval, c: nat, now: int)
    requires For(g.approvals, a, c) && g.approvals.rows[a] == row && Claimable(g.checkpoints, c, a, now)
    ensures var (g', p') := Alone(env, g, Claiming(a, row, c), now, 6);
            var (s', answer) := ResumeGraph(env, SysOf(g), a, row, now);
            SysOf(g') == s' && AnswerOf(p') == Some(answer)
  {
    var n: nat := 5;
    var g1 := g.(checkpoints := Claim(g.checkpoints, c, a, now));
    assert Alone(env, g, Claiming(a, row, c), now, 6) == Alone(env, g1, Winning(a, row, c, ToCall), now, n);
    WinnerAlone(env, g1, a, row, c, now);
  }

  lemma LoserAlone(env: Env, g: Shared, a: nat, row: Approval, c: nat, now: int)
    requires !Claimable(g.checkpoints, c, a, now)
    ensures Alone(env, g, Claiming(a, row, c), now, 6) == (g, Answered(a, ClaimLost(g.checkpoints, c)))
  {
    AloneTwice(env, g, Claiming(a, row, c), now, 2, 4);
    StaysAnswered(env, g, a, ClaimLost(g.checkpoints, c), now, 4);
  }

  lemma {:induction false} StaysAnswered(env: Env, g: Shared, a: nat, answer: Answer, now: int, n: nat)
    ensures Alone(env, g, Answered(a, answer), now, n) == (g, Answered(a, answer))
  {
    if n > 0 {
      StaysAnswered(env, g, a, answer, now, n - 1);
    }
  }

  lemma WinnerAlone(env: Env, g: Shared, a: nat, row: Approval, c: nat, now: int)
    requires row.payload.work.GraphCall? && a in g.approvals.rows && g.approvals.rows[a] == row
    ensures var (g', p') := Alone(env, g, Winning(a, row, c, ToCall), now, 5);
            var world := CallTool(env.tools, g.world, Owner(row.task, ""), row.payload.work.graphTool, row.payload.work.graphArgs);
            var r := CallResult(Last(world), true);
            && p' == Winning(a, row, c, Won(r))
            && SysOf(g') == Sys(UpdatePayload(g.approvals, a, Consumed(r)),
                                SetStatus(g.tasks, row.task, if r.success then Completed else Failed),
                                MarkResumed(g.checkpoints, c, r), world)
  {
    var (g1, p1) := StepWinner(env, g, a, row, c, ToCall);
    var n: nat := 4;
    assert Alone(env, g, Winning(a, row, c, ToCall), now, 5) == Alone(env, g1, p1, now, n);
    CalledAlone(env, g1, a, row, c, p1.stage.r, now);
  }

  /** The statements after the call. */
  lemma CalledAlone(env: Env, g: Shared, a: nat, row: Approval, c: nat, r: ResumeResult, now: int)
    requires a in g.approvals.rows && g.approvals.rows[a] == row
    ensures var (g', p') := Alone(env, g, Winning(a, row, c, ToTask(r)), now, 4);
            && p' == Winning(a, row, c, Won(r))
            && SysOf(g') == Sys(UpdatePayload(g.approvals, a, Consumed(r)),
                                SetStatus(g.tasks, row.task, if r.success then Completed else Failed),
                                MarkResumed(g.checkpoints, c, r), g.world)
  {
  }

  /** So does a rejecter. */
  lemma RejecterAlone(env: Env, g: Shared, a: nat, now: int)
    ensures SysOf(Alone(env, g, Deciding(a, false, false), now, 6).0) == Reject(SysOf(g), a)
  {
    AloneTwice(env, g, Deciding(a, false, false), now, 2, 4);
    ChecksAlone(env, g, a, now);
    if a in g.approvals.rows && g.approvals.rows[a].status == Pending {
      RejectsAlone(env, g, a, false, now);
    } else {
      IdlesAlone(env, g, now, 4);
    }
  }

  lemma ChecksAlone(env: Env, g: Shared, a: nat, now: int)
    ensures Alone(env, g, Deciding(a, false, false), now, 2)
            == (g, if a in g.approvals.rows && g.approvals.rows[a].status == Pending then Updating(a, false, false) else Idle)
  {
  }

  lemma {:induction false} IdlesAlone(env: Env, g: Shared, now: int, n: nat)
    ensures Alone(env, g, Idle, now, n) == (g, Idle)
  {
    if n > 0 {
      var m: nat := n - 1;
      IdlesAlone(env, g, now, m);
    }
  }

  /** What a rejecter does after its check found the approval pending. */
  lemma RejectsAlone(env: Env, g: Shared, a: nat, autoResume: bool, now: int)
    requires a in g.approvals.rows
    ensures var g' := Alone(env, g, Updating(a, false, autoResume), now, 4).0;
            var work := g.approvals.rows[a].payload.work;
            && g'.approvals == DecidePending(g.approvals, a, Rejected)
            && g'.tasks == SetStatus(g.tasks, g.approvals.rows[a].task, TaskStatus.Cancelled)
            && g'.checkpoints == (if work.GraphCall? && work.checkpoint.Some?
                                  then MarkCancelled(g.checkpoints, work.checkpoint.value) else g.checkpoints)
            && g'.performed == g.performed && g'.world == g.world
  {
  }
}
