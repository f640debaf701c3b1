/** Races over a task in graph mode, as runs of the interleaved protocol: a rejecter that loses
    against an approver, and a submitter that saves its task late. */
module TaskRaces {
  import opened JsonValues
  import opened ToolGateways
  import opened Stores
  import opened Machine
  import opened GraphProtocol

  // ---------- Uninterrupted stretches of a run ----------

  /** Process `i` does its next `n` statements. */
  function Ticks(i: nat, now: int, n: nat): seq<Event> {
    if n == 0 then [] else Ticks(i, now, n - 1) + [Tick(i, now)]
  }

  lemma ExecuteNext(env: Env, world: World, events: seq<Event>, e: Event)
    ensures Execute(env, world, events + [e]) == Apply(env, Execute(env, world, events), e)
  {
    assert (events + [e])[..|events|] == events;
  }

  /** In a run, too, a process that nobody interrupts does what it does alone. */
  lemma {:induction false} TicksAreAlone(env: Env, world: World, events: seq<Event>, s: Conf, i: nat, now: int, n: nat)
    requires s == Execute(env, world, events) && i < |s.procs|
    ensures var (g', p') := Alone(env, s.g, s.procs[i], now, n);
            Execute(env, world, events + Ticks(i, now, n)) == Conf(g', s.procs[i := p'])
  {
    if n == 0 {
      assert events + [] == events;
      assert s.procs[i := s.procs[i]] == s.procs;
    } else {
      var m: nat := n - 1;
      var before := events + Ticks(i, now, m);
      var (g1, p1) := Alone(env, s.g, s.procs[i], now, m);
      TicksAreAlone(env, world, events, s, i, now, m);
      ExecuteNext(env, world, before, Tick(i, now));
      assert events + Ticks(i, now, n) == before + [Tick(i, now)];
      OneTick(env, g1, s.procs[i := p1], i, now);
      AloneNext(env, s.g, s.procs[i], now, m);
    }
  }

  lemma OneTick(env: Env, g: Shared, procs: seq<Proc>, i: nat, now: int)
    requires i < |procs|
    ensures var (g', p') := Step(env, g, procs[i], now); Apply(env, Conf(g, procs), Tick(i, now)) == Conf(g', procs[i := p'])
  {
  }

  // ---------- A rejecter that loses ----------

  /** In every reachable state: a rejecter past its check cancels the checkpoint, and the task if it is
      stored, whatever its UPDATE does; the approval ends up rejected exactly if nobody had approved
      it before that UPDATE. */
  lemma RejecterCancelsRegardless(env: Env, world: World, events: seq<Event>, i: nat, a: nat, autoResume: bool, now: int)
    requires var s := Execute(env, world, events); i < |s.procs| && s.procs[i] == Updating(a, false, autoResume)
    ensures var s, s' := Execute(env, world, events), Execute(env, world, events + Ticks(i, now, 4));
            && a in s.g.approvals.rows && a in s'.g.approvals.rows
            && (s'.g.approvals.rows[a].status == Rejected <==> s.g.approvals.rows[a].status != Approved)
            && var work, t := s.g.approvals.rows[a].payload.work, s.g.approvals.rows[a].task;
               && work.GraphCall? && work.checkpoint.Some? && work.checkpoint.value in s'.g.checkpoints.rows
               && s'.g.checkpoints.rows[work.checkpoint.value].status == CheckpointCancelled
               && (t in s.g.tasks.rows ==> t in s'.g.tasks.rows && s'.g.tasks.rows[t].status == TaskStatus.Cancelled)
  {
    EveryRunKeepsInv(env, world, events);
    var s := Execute(env, world, events);
    assert ProcOk(s.g, s.procs[i]) && ApprovalOk(s.g, s.g.approvals.rows[a]);
    TicksAreAlone(env, world, events, s, i, now, 4);
    RejectsAlone(env, s.g, a, autoResume, now);
  }

  /** A submitter alone, up to its last statement. */
  lemma SubmitterAlone(env: Env, g: Shared, t: nat, tool: string, args: Args, now: int)
    ensures var (g', p') := Alone(env, g, Creating(t, tool, args, None), now, 3);
            var c, a := g.checkpoints.next, g.approvals.next;
            && p' == Saving(t) && g'.tasks == g.tasks && g'.performed == g.performed && g'.world == g.world
            && g'.approvals == Insert(g.approvals, NewApproval(t, GraphCall(tool, args, Some(c))))
            && g'.checkpoints == MarkPendingInterrupt(
                                   AddCheckpoint(g.checkpoints, NewCheckpoint(t, "execute", Interrupted, None)), c, a)
  {
  }

  /** The run of a submitter, up to its save. */
  function SubmitEvents(t: nat, tool: string, args: Args, now: int): seq<Event> {
    [Submit(t, tool, args, None)] + Ticks(0, now, 3)
  }

  lemma AfterSubmit(env: Env, world: World, t: nat, tool: string, args: Args, now: int) returns (s: Conf)
    ensures s == Execute(env, world, SubmitEvents(t, tool, args, now)) && s.procs == [Saving(t)]
    ensures s.g.approvals.rows == map[0 := NewApproval(t, GraphCall(tool, args, Some(0)))] && s.g.tasks.rows == map[]
    ensures s.g.checkpoints.rows == map[0 := NewCheckpoint(t, "execute", Interrupted, None).(approval := Some(0))]
    ensures s.g.performed == []
  {
    var start := Execute(env, world, []);
    assert [] + [Submit(t, tool, args, None)] == [Submit(t, tool, args, None)];
    ExecuteNext(env, world, [], Submit(t, tool, args, None));
    var s1 := Execute(env, world, [Submit(t, tool, args, None)]);
    TicksAreAlone(env, world, [Submit(t, tool, args, None)], s1, 0, now, 3);
    SubmitterAlone(env, s1.g, t, tool, args, now);
    s := Execute(env, world, SubmitEvents(t, tool, args, now));
  }

  lemma SaverTicks(env: Env, world: World, events: seq<Event>, s: Conf, i: nat, t: nat, now: int)
    requires s == Execute(env, world, events) && i < |s.procs| && s.procs[i] == Saving(t)
    ensures var s' := Execute(env, world, events + [Tick(i, now)]);
            && s'.procs == s.procs[i := Idle] && s'.g.approvals == s.g.approvals && s'.g.performed == s.g.performed
            && s'.g.checkpoints == s.g.checkpoints && s'.g.tasks.rows == s.g.tasks.rows[t := Task(WaitingApproval, None)]
  {
    ExecuteNext(env, world, events, Tick(i, now));
  }

  /** A decider up to its UPDATE. */
  lemma DeciderTicks(env: Env, world: World, events: seq<Event>, s: Conf, i: nat, a: nat, approve: bool, now: int)
    requires s == Execute(env, world, events) && i < |s.procs| && s.procs[i] == Deciding(a, approve, false)
    requires a in s.g.approvals.rows && s.g.approvals.rows[a].status == Pending && !s.g.approvals.rows[a].payload.resumed
    ensures Execute(env, world, events + Ticks(i, now, 2)) == s.(procs := s.procs[i := Updating(a, approve, false)])
  {
    TicksAreAlone(env, world, events, s, i, now, 2);
  }

  /** A run in which two deciders both find the approval pending and the approver's UPDATE comes first:
      the approval is approved, its task and its checkpoint are cancelled, and its tool is not called. */
  lemma LosingRejecterCancels(env: Env, world: World, t: nat, tool: string, args: Args, now: int) returns (events: seq<Event>)
    ensures var s := Execute(env, world, events);
            && 0 in s.g.approvals.rows && s.g.approvals.rows[0].status == Approved
            && t in s.g.tasks.rows && s.g.tasks.rows[t].status == TaskStatus.Cancelled
            && 0 in s.g.checkpoints.rows && s.g.checkpoints.rows[0].status == CheckpointCancelled
            && s.g.performed == []
  {
    var s1 := AfterSubmit(env, world, t, tool, args, now);
    events := SubmitEvents(t, tool, args, now);
    SaverTicks(env, world, events, s1, 0, t, now);
    events := events + [Tick(0, now)];
    ExecuteNext(env, world, events, Decide(0, true, false));
    ExecuteNext(env, world, events + [Decide(0, true, false)], Decide(0, false, false));
    events := events + [Decide(0, true, false)] + [Decide(0, false, false)];
    var s2 := Execute(env, world, events);
    assert s2.procs == [Idle, Deciding(0, true, false), Deciding(0, false, false)];
    events := BothCheck(env, world, events, s2, t, now);
    events := BothUpdate(env, world, events, Execute(env, world, events), t, now);
  }

  /** The state in which both deciders have found the approval of task `t` pending. */
  predicate BothChecked(s: Conf, t: nat) {
    && s.procs == [Idle, Updating(0, true, false), Updating(0, false, false)]
    && 0 in s.g.approvals.rows && s.g.approvals.rows[0].status == Pending && s.g.approvals.rows[0].task == t
    && s.g.approvals.rows[0].payload.work.GraphCall? && s.g.approvals.rows[0].payload.work.checkpoint == Some(0)
    && t in s.g.tasks.rows && 0 in s.g.checkpoints.rows && s.g.performed == []
  }

  lemma BothCheck(env: Env, world: World, before: seq<Event>, s: Conf, t: nat, now: int) returns (events: seq<Event>)
    requires s == Execute(env, world, before)
    requires s.procs == [Idle, Deciding(0, true, false), Deciding(0, false, false)]
    requires BothChecked(s.(procs := [Idle, Updating(0, true, false), Updating(0, false, false)]), t)
    requires !s.g.approvals.rows[0].payload.resumed
    ensures BothChecked(Execute(env, world, events), t)
  {
    DeciderTicks(env, world, before, s, 1, 0, true, now);
    events := before + Ticks(1, now, 2);
    var s1 := Execute(env, world, events);
    DeciderTicks(env, world, events, s1, 2, 0, false, now);
    events := events + Ticks(2, now, 2);
    assert Execute(env, world, events).procs == [Idle, Updating(0, true, false), Updating(0, false, false)];
  }

  /** The approver's UPDATE, then the rejecter. */
  lemma BothUpdate(env: Env, world: World, before: seq<Event>, s: Conf, t: nat, now: int) returns (events: seq<Event>)
    requires s == Execute(env, world, before) && BothChecked(s, t)
    ensures var s' := Execute(env, world, events);
            && 0 in s'.g.approvals.rows && s'.g.approvals.rows[0].status == Approved
            && t in s'.g.tasks.rows && s'.g.tasks.rows[t].status == TaskStatus.Cancelled
            && 0 in s'.g.checkpoints.rows && s'.g.checkpoints.rows[0].status == CheckpointCancelled
            && s'.g.performed == []
  {
    ExecuteNext(env, world, before, Tick(1, now));
    OneTick(env, s.g, s.procs, 1, now);
    events := before + [Tick(1, now)];
    var s1 := Execute(env, world, events);
    assert s1.g == s.g.(approvals := DecidePending(s.g.approvals, 0, Approved)) && s1.procs[2] == Updating(0, false, false);
    TicksAreAlone(env, world, events, s1, 2, now, 4);
    RejectsAlone(env, s1.g, 0, false, now);
    events := events + Ticks(2, now, 4);
  }

  // ---------- A submitter that saves late ----------

  /** An approver with automatic resume, up to the resume. */
  lemma ApprovesAlone(env: Env, g: Shared, a: nat, now: int)
    requires a in g.approvals.rows && g.approvals.rows[a].status == Pending && !g.approvals.rows[a].payload.resumed
    ensures Alone(env, g, Deciding(a, true, true), now, 4) == (g.(approvals := DecidePending(g.approvals, a, Approved)), Guarding(a))
  {
  }

  /** The resume up to its claim. */
  lemma ClaimsAlone(env: Env, g: Shared, a: nat, row: Approval, c: nat, now: int)
    requires a in g.approvals.rows && g.approvals.rows[a] == row && row.status == Approved && !row.payload.resumed
    requires row.payload.work.GraphCall? && row.payload.work.checkpoint == Some(c)
    requires !env.injected(row.payload) && Claimable(g.checkpoints, c, a, now)
    ensures Alone(env, g, Guarding(a), now, 3)
            == (g.(checkpoints := Claim(g.checkpoints, c, a, now)), Winning(a, row, c, ToCall))
  {
  }

  /** The approver's request, alone: the claim succeeds, and the approval is consumed. */
  lemma ApproverAlone(env: Env, g: Shared, a: nat, c: nat, now: int) returns (r: ResumeResult)
    requires a in g.approvals.rows && g.approvals.rows[a].status == Pending && !g.approvals.rows[a].payload.resumed
    requires g.approvals.rows[a].payload.work.GraphCall? && g.approvals.rows[a].payload.work.checkpoint == Some(c)
    requires !env.injected(g.approvals.rows[a].payload) && Claimable(g.checkpoints, c, a, now)
    ensures var (g', p') := Alone(env, g, Deciding(a, true, true), now, 12);
            && p'.Winning? && p'.stage == Won(r) && a in g'.approvals.rows && g'.approvals.rows[a].payload.resumed
            && g'.tasks == SetStatus(g.tasks, g.approvals.rows[a].task, if r.success then TaskStatus.Completed else TaskStatus.Failed)
  {
    var row := g.approvals.rows[a].(status := Approved);
    var g1 := g.(approvals := DecidePending(g.approvals, a, Approved));
    var g2 := g1.(checkpoints := Claim(g.checkpoints, c, a, now));
    ApprovesAlone(env, g, a, now);
    AloneTwice(env, g, Deciding(a, true, true), now, 4, 8);
    ClaimsAlone(env, g1, a, row, c, now);
    AloneTwice(env, g1, Guarding(a), now, 3, 5);
    r := WonAlone(env, g2, a, row, c, now);
  }

  lemma WonAlone(env: Env, g: Shared, a: nat, row: Approval, c: nat, now: int) returns (r: ResumeResult)
    requires row.payload.work.GraphCall? && a in g.approvals.rows && g.approvals.rows[a] == row
    ensures var (g', p') := Alone(env, g, Winning(a, row, c, ToCall), now, 5);
            && p'.Winning? && p'.stage == Won(r) && a in g'.approvals.rows && g'.approvals.rows[a].payload.resumed
            && g'.tasks == SetStatus(g.tasks, row.task, if r.success then TaskStatus.Completed else TaskStatus.Failed)
  {
    WinnerAlone(env, g, a, row, c, now);
    r := Alone(env, g, Winning(a, row, c, ToCall), now, 5).1.stage.r;
  }

  /** A run in which the resumer settles the task before the submitter has saved it: in the end the
      task waits for an approval that is consumed. */
  lemma LateSaveWaits(env: Env, world: World, t: nat, tool: string, args: Args, now: int) returns (events: seq<Event>)
    requires !env.injected(Fresh(GraphCall(tool, args, Some(0))))
    ensures var s := Execute(env, world, events);
            && |s.procs| == 2 && s.procs[0].Idle? && s.procs[1].Winning? && s.procs[1].stage.Won?
            && 0 in s.g.approvals.rows && s.g.approvals.rows[0].payload.resumed
            && t in s.g.tasks.rows && s.g.tasks.rows[t].status == WaitingApproval
  {
    var s1 := AfterSubmit(env, world, t, tool, args, now);
    events := SubmitEvents(t, tool, args, now);
    ExecuteNext(env, world, events, Decide(0, true, true));
    events := events + [Decide(0, true, true)];
    var s2 := Execute(env, world, events);
    assert s2.g == s1.g && s2.procs == [Saving(t), Deciding(0, true, true)];
    TicksAreAlone(env, world, events, s2, 1, now, 12);
    var r := ApproverAlone(env, s2.g, 0, 0, now);
    events := events + Ticks(1, now, 12);
    var s3 := Execute(env, world, events);
    SaverTicks(env, world, events, s3, 0, t, now);
    events := events + [Tick(0, now)];
  }

  // ---------- All runs of one submitter and one resumer ----------

  /** A submission, and an approval with automatic resume of what it asks for; from then on the two
      processes run in any order, and no others arrive. */
  function PairEvents(t: nat, tool: string, args: Args, expiresAt: Option<int>, rest: seq<Event>): seq<Event> {
    [Submit(t, tool, args, expiresAt), Decide(0, true, true)] + rest
  }

  ghost predicate NoArrivals(rest: seq<Event>) {
    forall k | 0 <= k < |rest| :: rest[k].Tick? || rest[k].Expire? || rest[k].Outside?
  }

  predicate Submits(p: Proc, t: nat) {
    match p
    case Creating(task, _, _, _) => task == t
    case Requesting(task, _, _, _) => task == t
    case Marking(task, _, _) => task == t
    case Saving(task) => task == t
    case _ => p.Idle?
  }

  predicate Resumes(p: Proc, t: nat) {
    match p
    case Deciding(_, approve, _) => approve
    case Checking(_, approve, _) => approve
    case Updating(_, approve, _) => approve
    case Rereading(_, approve, _) => approve
    case Claiming(_, row, _) => row.task == t
    case Winning(_, row, _, _) => row.task == t
    case _ => p.Guarding? || p.Reading? || p.Losing? || p.Answered? || p.Idle?
  }

  /** The resumer has settled the task. */
  predicate Settled(p: Proc) {
    p.Winning? && !p.stage.ToCall? && !p.stage.ToTask?
  }

  function SettledStatus(p: Proc): TaskStatus
    requires Settled(p)
  {
    if p.stage.r.success then TaskStatus.Completed else TaskStatus.Failed
  }

  /** The submitter has saved the task, and the resumer has yet to settle it. */
  predicate SavedOnly(s: Conf) {
    |s.procs| == 2 && s.procs[0].Idle? && !Settled(s.procs[1])
  }

  /** At some point of the run the task was saved and not yet settled. */
  ghost predicate SavedFirst(env: Env, world: World, events: seq<Event>) {
    exists m | 0 <= m <= |events| :: SavedOnly(Execute(env, world, events[..m]))
  }

  ghost predicate PairOk(s: Conf, t: nat, savedFirst: bool) {
    && |s.procs| == 2 && Submits(s.procs[0], t) && Resumes(s.procs[1], t)
    && (forall a | a in s.g.approvals.rows :: s.g.approvals.rows[a].task == t)
    && (t in s.g.tasks.rows <==> s.procs[0].Idle?)
    && (savedFirst ==> s.procs[0].Idle?) && (SavedOnly(s) ==> savedFirst)
    && (s.procs[0].Idle? ==>
          s.g.tasks.rows[t].status
          == if Settled(s.procs[1]) && savedFirst then SettledStatus(s.procs[1]) else WaitingApproval)
  }

  lemma SubmitterStep(env: Env, s: Conf, t: nat, now: int, savedFirst: bool, s': Conf)
    requires PairOk(s, t, savedFirst) && s' == Apply(env, s, Tick(0, now))
    ensures PairOk(s', t, savedFirst || SavedOnly(s'))
  {
  }

  lemma ResumerStep(env: Env, s: Conf, t: nat, now: int, savedFirst: bool, s': Conf)
    requires PairOk(s, t, savedFirst) && s' == Apply(env, s, Tick(1, now))
    ensures PairOk(s', t, savedFirst || SavedOnly(s'))
  {
    var (g', p') := Step(env, s.g, s.procs[1], now);
    OneTick(env, s.g, s.procs, 1, now);
    if s.procs[1].Winning? {
      WinnerSettles(env, s.g, s.procs[1], t, now, g', p');
    } else {
      ReaderKeepsTasks(env, s.g, s.procs[1], t, now, g', p');
    }
  }

  /** A resumer's statement either leaves the tasks alone or settles the task. */
  lemma WinnerSettles(env: Env, g: Shared, p: Proc, t: nat, now: int, g': Shared, p': Proc)
    requires p.Winning? && Resumes(p, t) && (g', p') == Step(env, g, p, now)
    requires forall a | a in g.approvals.rows :: g.approvals.rows[a].task == t
    ensures Resumes(p', t) && forall a | a in g'.approvals.rows :: g'.approvals.rows[a].task == t
    ensures Settled(p) ==> Settled(p') && SettledStatus(p') == SettledStatus(p) && g'.tasks == g.tasks
    ensures !Settled(p) && Settled(p') ==> g'.tasks == SetStatus(g.tasks, t, SettledStatus(p'))
    ensures !Settled(p) && !Settled(p') ==> g'.tasks == g.tasks
  {
  }

  lemma ReaderKeepsTasks(env: Env, g: Shared, p: Proc, t: nat, now: int, g': Shared, p': Proc)
    requires !p.Winning? && Resumes(p, t) && (g', p') == Step(env, g, p, now)
    requires forall a | a in g.approvals.rows :: g.approvals.rows[a].task == t
    ensures Resumes(p', t) && !Settled(p') && g'.tasks == g.tasks
    ensures forall a | a in g'.approvals.rows :: g'.approvals.rows[a].task == t
  {
  }

  lemma PairStep(env: Env, s: Conf, t: nat, e: Event, savedFirst: bool, s': Conf)
    requires PairOk(s, t, savedFirst) && s' == Apply(env, s, e) && NoArrivals([e])
    ensures PairOk(s', t, savedFirst || SavedOnly(s'))
  {
    assert [e][0] == e;
    match e
    case Tick(i, now) =>
      if i == 0 {
        SubmitterStep(env, s, t, now, savedFirst, s');
      } else if i == 1 {
        ResumerStep(env, s, t, now, savedFirst, s');
      }
    case _ =>
  }

  lemma SavedFirstNext(env: Env, world: World, events: seq<Event>, e: Event)
    ensures SavedFirst(env, world, events + [e])
            <==> SavedFirst(env, world, events) || SavedOnly(Execute(env, world, events + [e]))
  {
    var after := events + [e];
    assert after[..|after|] == after;
    assert forall m | 0 <= m <= |events| :: after[..m] == events[..m];
  }

  lemma PairStart(env: Env, world: World, t: nat, tool: string, args: Args, expiresAt: Option<int>)
    ensures PairOk(Execute(env, world, PairEvents(t, tool, args, expiresAt, [])), t, false)
    ensures !SavedFirst(env, world, PairEvents(t, tool, args, expiresAt, []))
  {
    var e1, e2 := Submit(t, tool, args, expiresAt), Decide(0, true, true);
    assert PairEvents(t, tool, args, expiresAt, []) == [] + [e1] + [e2] && [] + [e1] == [e1];
    ExecuteNext(env, world, [], e1);
    ExecuteNext(env, world, [e1], e2);
    SavedFirstNext(env, world, [], e1);
    SavedFirstNext(env, world, [e1], e2);
    var none: seq<Event> := [];
    assert none[..0] == none && !SavedFirst(env, world, none);
  }

  lemma {:induction false} PairRuns(env: Env, world: World, t: nat, tool: string, args: Args, expiresAt: Option<int>,
                                    rest: seq<Event>)
    requires NoArrivals(rest)
    ensures var events := PairEvents(t, tool, args, expiresAt, rest);
            PairOk(Execute(env, world, events), t, SavedFirst(env, world, events))
  {
    if rest == [] {
      PairStart(env, world, t, tool, args, expiresAt);
    } else {
      var before, e := rest[..|rest| - 1], rest[|rest| - 1];
      var events := PairEvents(t, tool, args, expiresAt, before);
      PairRuns(env, world, t, tool, args, expiresAt, before);
      assert PairEvents(t, tool, args, expiresAt, rest) == events + [e];
      ExecuteNext(env, world, events, e);
      SavedFirstNext(env, world, events, e);
      PairStep(env, Execute(env, world, events), t, e, SavedFirst(env, world, events), Execute(env, world, events + [e]));
    }
  }

  /** Over all runs of one submitter and one resumer that both finish, the approval is consumed and the
      task ends with the resumer's status exactly if it was saved before it was settled; otherwise it
      waits. */
  lemma SettledIffSavedFirst(env: Env, world: World, t: nat, tool: string, args: Args, expiresAt: Option<int>,
                             rest: seq<Event>)
    requires NoArrivals(rest)
    requires var s := Execute(env, world, PairEvents(t, tool, args, expiresAt, rest));
             |s.procs| == 2 && s.procs[0].Idle? && s.procs[1].Winning? && s.procs[1].stage.Won?
    ensures var events := PairEvents(t, tool, args, expiresAt, rest);
            var s := Execute(env, world, events);
            && s.procs[1].approval in s.g.approvals.rows && s.g.approvals.rows[s.procs[1].approval].payload.resumed
            && t in s.g.tasks.rows
            && (s.g.tasks.rows[t].status == SettledStatus(s.procs[1]) <==> SavedFirst(env, world, events))
            && (s.g.tasks.rows[t].status == WaitingApproval <==> !SavedFirst(env, world, events))
  {
    var events := PairEvents(t, tool, args, expiresAt, rest);
    var s := Execute(env, world, events);
    PairRuns(env, world, t, tool, args, expiresAt, rest);
    EveryRunKeepsInv(env, world, events);
    assert ProcOk(s.g, s.procs[1]);
  }
}
