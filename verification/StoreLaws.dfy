/** What the statements of the three stores keep, over any sequence of them. */
module StoreLaws {
  import opened JsonValues
  import opened MultiTool
  import opened Stores

  // ---------- Approvals ----------

  datatype ApprovalStatement =
    | Requested(task: nat, work: Work)
    | Decided(id: nat, approved: bool)
    | Written(id: nat, update: PayloadUpdate)

  function AfterApprovals(ss: seq<ApprovalStatement>): ApprovalTable {
    if ss == [] then ApprovalTable(map[], 0)
    else
      var t := AfterApprovals(ss[..|ss| - 1]);
      match ss[|ss| - 1]
      case Requested(task, work) => Insert(t, NewApproval(task, work))
      case Decided(id, approved) => DecidePending(t, id, if approved then Approved else Rejected)
      case Written(id, update) => UpdatePayload(t, id, update)
  }

  /** A new approval's id was never used before. */
  lemma {:induction false} RequestedIsFresh(ss: seq<ApprovalStatement>)
    ensures forall id: nat :: id in AfterApprovals(ss).rows <==> id < AfterApprovals(ss).next
  {
    if ss != [] {
      RequestedIsFresh(ss[..|ss| - 1]);
    }
  }

  /** The first decision on a stored approval, if there is one. */
  function FirstDecision(ss: seq<ApprovalStatement>, id: nat): Option<bool> {
    if ss == [] then None
    else
      var before := FirstDecision(ss[..|ss| - 1], id);
      var last := ss[|ss| - 1];
      if before.None? && last.Decided? && last.id == id && id in AfterApprovals(ss[..|ss| - 1]).rows then Some(last.approved)
      else before
  }

  /** The first decision is the one that counts. */
  lemma {:induction false} FirstDecisionWins(ss: seq<ApprovalStatement>, id: nat)
    ensures id !in AfterApprovals(ss).rows ==> FirstDecision(ss, id).None?
    ensures id in AfterApprovals(ss).rows ==>
              AfterApprovals(ss).rows[id].status
              == match FirstDecision(ss, id) case None => Pending case Some(approved) => if approved then Approved else Rejected
  {
    RequestedIsFresh(ss);
    if ss != [] {
      RequestedIsFresh(ss[..|ss| - 1]);
      FirstDecisionWins(ss[..|ss| - 1], id);
    }
  }

  /** The payload updates of `id` since it was stored. */
  function Updates(ss: seq<ApprovalStatement>, id: nat): seq<PayloadUpdate> {
    if ss == [] then []
    else
      var before := Updates(ss[..|ss| - 1], id);
      var last := ss[|ss| - 1];
      if last.Written? && last.id == id && id in AfterApprovals(ss[..|ss| - 1]).rows then before + [last.update] else before
  }

  function Failures(us: seq<PayloadUpdate>): nat {
    if us == [] then 0 else Failures(us[..|us| - 1]) + if us[|us| - 1].NotConsumed? then 1 else 0
  }

  predicate EverConsumed(us: seq<PayloadUpdate>) {
    exists i | 0 <= i < |us| :: us[i].Consumed?
  }

  /** A payload counts the failed attempts, and is consumed for good by the first consuming update. */
  lemma {:induction false} UpdatesAreCounted(ss: seq<ApprovalStatement>, id: nat)
    ensures id !in AfterApprovals(ss).rows ==> Updates(ss, id) == []
    ensures id in AfterApprovals(ss).rows ==>
              && AfterApprovals(ss).rows[id].payload.attempts == Failures(Updates(ss, id))
              && (AfterApprovals(ss).rows[id].payload.resumed <==> EverConsumed(Updates(ss, id)))
  {
    RequestedIsFresh(ss);
    if ss != [] {
      var before, last := ss[..|ss| - 1], ss[|ss| - 1];
      RequestedIsFresh(before);
      UpdatesAreCounted(before, id);
      var us := Updates(before, id);
      if Updates(ss, id) != us {
        assert (us + [last.update])[..|us|] == us;
        assert EverConsumed(us + [last.update]) <==> EverConsumed(us) || last.update.Consumed? by {
          assert last.update.Consumed? ==> (us + [last.update])[|us|].Consumed?;
          assert forall i | 0 <= i < |us| :: (us + [last.update])[i] == us[i];
        }
      }
    }
  }

  // ---------- Tasks ----------

  datatype TaskStatement = TaskSaved(id: nat, task: Task) | StatusSet(id: nat, status: TaskStatus)

  function AfterTasks(ss: seq<TaskStatement>): TaskTable {
    if ss == [] then TaskTable(map[], 0)
    else
      var t := AfterTasks(ss[..|ss| - 1]);
      match ss[|ss| - 1]
      case TaskSaved(id, task) => t.(rows := t.rows[id := task])
      case StatusSet(id, status) => SetStatus(t, id, status)
  }

  /** The last status written to `id` since it was first saved. */
  function LastStatus(ss: seq<TaskStatement>, id: nat): Option<TaskStatus> {
    if ss == [] then None
    else
      var before := LastStatus(ss[..|ss| - 1], id);
      match ss[|ss| - 1]
      case TaskSaved(i, task) => if i == id then Some(task.status) else before
      case StatusSet(i, status) => if i == id && before.Some? then Some(status) else before
  }

  /** The last write wins; a status set before the task was saved is lost. */
  lemma {:induction false} LastWriteWins(ss: seq<TaskStatement>, id: nat)
    ensures id in AfterTasks(ss).rows <==> LastStatus(ss, id).Some?
    ensures id in AfterTasks(ss).rows ==> AfterTasks(ss).rows[id].status == LastStatus(ss, id).value
  {
    if ss != [] {
      LastWriteWins(ss[..|ss| - 1], id);
    }
  }

  // ---------- Checkpoints ----------

  datatype CheckpointStatement =
    | Created(task: nat, stage: string, status: CheckpointStatus, expiresAt: Option<int>)
    | Marked(id: nat, approval: nat)
    | Claimed(id: nat, approval: nat, now: int)
    | Finished(id: nat, r: ResumeResult)
    | Cancelled(id: nat)
    | ExpiredAt(now: int)

  function Next(t: CheckpointTable, s: CheckpointStatement): CheckpointTable {
    match s
    case Created(task, stage, status, expiresAt) => AddCheckpoint(t, NewCheckpoint(task, stage, status, expiresAt))
    case Marked(id, approval) => MarkPendingInterrupt(t, id, approval)
    case Claimed(id, approval, now) => Claim(t, id, approval, now)
    case Finished(id, r) => MarkResumed(t, id, r)
    case Cancelled(id) => MarkCancelled(t, id)
    case ExpiredAt(now) => ExpireOld(t, now)
  }

  function AfterCheckpoints(t: CheckpointTable, ss: seq<CheckpointStatement>): CheckpointTable {
    if ss == [] then t else Next(AfterCheckpoints(t, ss[..|ss| - 1]), ss[|ss| - 1])
  }

  /** Ids are handed out once. */
  ghost predicate IdsBelow(t: CheckpointTable) {
    forall c | c in t.rows :: c < t.next
  }

  lemma {:induction false} CreatedIsFresh(t: CheckpointTable, ss: seq<CheckpointStatement>)
    requires IdsBelow(t)
    ensures IdsBelow(AfterCheckpoints(t, ss)) && t.rows.Keys <= AfterCheckpoints(t, ss).rows.Keys
  {
    if ss != [] {
      CreatedIsFresh(t, ss[..|ss| - 1]);
    }
  }

  /** `mark_pending_interrupt` is the only statement that makes a stored row interrupted, or that
      writes its approval. */
  lemma OnlyMarkInterrupts(t: CheckpointTable, s: CheckpointStatement, c: nat)
    requires IdsBelow(t) && c in t.rows
    ensures c in Next(t, s).rows
    ensures Next(t, s).rows[c].status == Interrupted && t.rows[c].status != Interrupted ==> s.Marked? && s.id == c
    ensures Next(t, s).rows[c].approval != t.rows[c].approval ==> s.Marked? && s.id == c
  {
  }

  /** Once consumed - by a resume, a rejection or the expiry job - a row stays consumed over every
      sequence of statements, a later mark included, and can never be claimed again. */
  lemma {:induction false} ConsumedIsNeverClaimed(t: CheckpointTable, ss: seq<CheckpointStatement>, c: nat, approval: nat, now: int)
    requires IdsBelow(t) && c in t.rows && t.rows[c].consumed
    ensures c in AfterCheckpoints(t, ss).rows && AfterCheckpoints(t, ss).rows[c].consumed
    ensures !Claimable(AfterCheckpoints(t, ss), c, approval, now)
  {
    if ss != [] {
      CreatedIsFresh(t, ss[..|ss| - 1]);
      ConsumedIsNeverClaimed(t, ss[..|ss| - 1], c, approval, now);
    }
  }

  /** The result last recorded for row `c`. */
  function LastResult(ss: seq<CheckpointStatement>, c: nat): Option<ResumeResult> {
    if ss == [] then None
    else if ss[|ss| - 1].Finished? && ss[|ss| - 1].id == c then Some(ss[|ss| - 1].r) else LastResult(ss[..|ss| - 1], c)
  }

  /** A recorded result consumes its row and stays until another is recorded; nothing else writes one. */
  lemma {:induction false} ResultsStay(t: CheckpointTable, ss: seq<CheckpointStatement>, c: nat)
    requires IdsBelow(t) && c in t.rows
    ensures var after := AfterCheckpoints(t, ss);
            && c in after.rows
            && after.rows[c].snapshot == (if LastResult(ss, c).Some? then LastResult(ss, c) else t.rows[c].snapshot)
            && (LastResult(ss, c).Some? ==> after.rows[c].consumed)
  {
    if ss != [] {
      CreatedIsFresh(t, ss[..|ss| - 1]);
      ResultsStay(t, ss[..|ss| - 1], c);
    }
  }

  /** The claims of row `c` that succeeded. */
  function Claims(t: CheckpointTable, ss: seq<CheckpointStatement>, c: nat): nat {
    if ss == [] then 0
    else
      var before, s := AfterCheckpoints(t, ss[..|ss| - 1]), ss[|ss| - 1];
      Claims(t, ss[..|ss| - 1], c) + if s.Claimed? && s.id == c && Claimable(before, c, s.approval, s.now) then 1 else 0
  }

  /** The marks of row `c`. */
  function Marks(ss: seq<CheckpointStatement>, c: nat): nat {
    if ss == [] then 0 else Marks(ss[..|ss| - 1], c) + if ss[|ss| - 1].Marked? && ss[|ss| - 1].id == c then 1 else 0
  }

  /** A row's attempts count its successful claims. Each claim uses up one interruption: there are at
      most as many claims as there were marks, and one more if the row was stored interrupted. */
  lemma {:induction false} ClaimsAreCounted(t: CheckpointTable, ss: seq<CheckpointStatement>, c: nat)
    requires IdsBelow(t) && c in t.rows
    ensures var after := AfterCheckpoints(t, ss);
            && c in after.rows && after.rows[c].attempts == t.rows[c].attempts + Claims(t, ss, c)
            && Claims(t, ss, c) + (if after.rows[c].status == Interrupted then 1 else 0)
               <= Marks(ss, c) + (if t.rows[c].status == Interrupted then 1 else 0)
  {
    if ss != [] {
      CreatedIsFresh(t, ss[..|ss| - 1]);
      ClaimsAreCounted(t, ss[..|ss| - 1], c);
    }
  }

  /** The expiry job expires and consumes exactly the unconsumed rows whose time has come, and changes
      nothing else. */
  lemma ExpiresExactly(t: CheckpointTable, now: int, c: nat)
    requires c in t.rows
    ensures var row := t.rows[c];
            var due := !row.consumed && row.expiresAt != None && row.expiresAt.value <= now;
            && c in ExpireOld(t, now).rows && ExpireOld(t, now).rows.Keys == t.rows.Keys && ExpireOld(t, now).next == t.next
            && ExpireOld(t, now).rows[c] == if due then row.(status := Expired, consumed := true) else row
  {
  }
}
