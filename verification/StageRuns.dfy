/** One run of a stage by a worker: which statements it commits for which replies, and how many fault-free runs finish a
    job. */
module StageRuns {
  import opened Options
  import Backoff
  import Engine
  import EngineInvariant
  import Guarantees
  import opened ResultPlan
  import opened Tables

  // ----- the next part -----

  lemma {:induction false} SomePartIsNext(box: Box, k: nat)
    requires k in box && !box[k].delivered
    ensures exists n | n in box :: IsNextPart(box, n)
    decreases k
  {
    if i :| i in box && i < k && !box[i].delivered {
      SomePartIsNext(box, i);
    } else {
      assert IsNextPart(box, k);
    }
  }

  // delivery_next.sql: ORDER BY part LIMIT 1.
  function NextUndelivered(box: Box): (k: Option<nat>)
    ensures k.Some? ==> IsNextPart(box, k.value)
    ensures k.None? ==> AllDelivered(box)
  {
    if AllDelivered(box) then None
    else
      assert exists k | k in box :: IsNextPart(box, k) by {
        var k :| k in box && !box[k].delivered;
        SomePartIsNext(box, k);
      }
      var k: nat :| k in box && IsNextPart(box, k);
      Some(k)
  }

  // ----- one run of the deliver stage -----

  // The statements of deliver, in order: sent is the Telegram message id when the part, if any, went out.
  function DeliverStatements(row: Job, box: Box, ackOk: bool, sent: Option<int>): seq<Statement> {
    var ack := if !row.acknowledged && ackOk then [SetAcknowledged] else [];
    var part := NextUndelivered(box);
    if part.Some? && sent.None? then ack
    else
      var receipt := if part.Some? then [SetDelivered(part.value, sent.value)] else [];
      ack + receipt + (if row.acknowledged || ackOk then [Complete] else [])
  }

  // ----- one run of any stage -----

  datatype UploadReply = Uploaded(jobId: string) | Rejected | NotUploaded

  // What the outside answers to the calls of a stage, in case it makes them.
  datatype Replies = Replies(
    message: Option<int>, upload: UploadReply, cancelled: bool, status: Engine.StatusReply, shown: bool, acked: bool, sent: Option<int>)

  function SaveOf(row: Job, r: JobResult): Statement {
    SaveResult(r, ResultParts(row.media.preset, r))
  }

  function PollStatements(row: Job, r: Replies): seq<Statement> {
    if row.cancelRequested && !r.cancelled then []
    else match r.status
         case NoReply => []
         case Missing => [SaveOf(row, JOB_MISSING)]
         case Terminal(result) => [SaveOf(row, result)]
         case Running(text) =>
           (if text != row.progressText && r.shown then [SetProgress(text)] else []) + [Schedule(Engine.POLL_INTERVAL, "")]
  }

  function StageStatements(row: Job, box: Box, r: Replies): seq<Statement> {
    match row.stage
    case Status => if r.message.Some? then [SetStatus(r.message.value)] else []
    case Upload =>
      (match r.upload
       case Uploaded(b) => [SetSubmitted(b)]
       case Rejected => [SaveOf(row, UPLOAD_INVALID)]
       case NotUploaded => [])
    case Poll => PollStatements(row, r)
    case Deliver => DeliverStatements(row, box, r.acked, r.sent)
    case Done => []
  }

  // With these replies and a healthy database the stage returns no error.
  predicate Succeeds(row: Job, box: Box, r: Replies) {
    match row.stage
    case Status => r.message.Some?
    case Upload => !r.upload.NotUploaded?
    case Poll => (row.cancelRequested ==> r.cancelled) && !r.status.NoReply?
    case Deliver => (row.acknowledged || r.acked) && (NextUndelivered(box).Some? ==> r.sent.Some?)
    case Done => false
  }

  function Retry(row: Job, hint: Option<int>): Statement {
    Schedule(Backoff.RetryAfter(hint, row.attempts), "stage_failed")
  }

  /** What a worker may commit in one run: the stage's statements up to where one fails, and then, if anything failed, the
      schedule of a retry; nothing more once the session is dead. */
  ghost predicate IsRunOf(row: Job, box: Box, r: Replies, hint: Option<int>, statements: seq<Statement>) {
    var all := StageStatements(row, box, r);
    || statements <= all
    || exists n :: 0 <= n <= |all| && (n < |all| || !Succeeds(row, box, r)) && statements == all[..n] + [Retry(row, hint)]
  }

  // What a run commits when no statement fails.
  ghost predicate IsWholeRunOf(row: Job, box: Box, r: Replies, quit: bool, hint: Option<int>, statements: seq<Statement>) {
    statements == StageStatements(row, box, r) + if Succeeds(row, box, r) || quit then [] else [Retry(row, hint)]
  }

  // Where the engine stands when it commits this statement.
  function WriteAt(s: Statement): Engine.At {
    match s
    case SetStatus(m) => Engine.StatusWrite(m)
    case SetSubmitted(b) => Engine.SubmittedWrite(b)
    case Schedule(delay, code) => Engine.ScheduleWrite(delay, code)
    case SetProgress(text) => Engine.ProgressWrite(text)
    case SetAcknowledged => Engine.AckWrite
    case SaveResult(r, _) => Engine.ResultWrite(r)
    case SetDelivered(k, m) => Engine.PartWrite(k, m, false)
    case Complete => Engine.CompleteWrite
  }

  // What one row and its parts become.
  datatype Delivering = Delivering(row: Job, box: Box)

  function After(d: Delivering, s: Statement, now: int): Delivering {
    Delivering(RowAfter(d.row, d.box, s, now), BoxAfter(d.box, s))
  }

  function AfterAll(d: Delivering, statements: seq<Statement>, now: int): Delivering {
    if statements == [] then d else After(AfterAll(d, statements[..|statements| - 1], now), statements[|statements| - 1], now)
  }

  /** Running statements on the tables is running them on the row and its parts. */
  lemma {:induction false} TablesFollowTheRow(db: Db, id: int, statements: seq<Statement>, now: int)
    requires id in db.jobs
    ensures var d := ExecuteAll(db, id, statements, now);
            && id in d.jobs && Delivering(d.jobs[id], d.BoxOf(id)) == AfterAll(Delivering(db.jobs[id], db.BoxOf(id)), statements, now)
  {
    if statements != [] {
      TablesFollowTheRow(db, id, statements[..|statements| - 1], now);
      hide RowAfter, BoxAfter;
    }
  }

  // Exactly parts 0 .. n - 1, the first k of them delivered.
  ghost predicate DeliveredUpTo(box: Box, n: nat, k: nat) {
    k <= n && (forall i: nat :: i in box <==> i < n) && (forall i | i in box :: box[i].delivered <==> i < k)
  }

  function Round(d: Delivering, message: int, now: int): Delivering {
    AfterAll(d, DeliverStatements(d.row, d.box, true, Some(message)), now)
  }

  lemma AfterOne(d: Delivering, s: Statement, now: int)
    ensures AfterAll(d, [s], now) == After(d, s, now)
  {
    assert [s][..0] == [];
  }

  lemma AfterLast(d: Delivering, statements: seq<Statement>, s: Statement, now: int)
    ensures AfterAll(d, statements + [s], now) == After(AfterAll(d, statements, now), s, now)
  {
    assert (statements + [s])[..|statements|] == statements;
  }

  // The row and parts when a fault-free run comes to Complete.
  function BeforeComplete(d: Delivering, message: int, now: int): Delivering {
    var a := if d.row.acknowledged then d else After(d, SetAcknowledged, now);
    if NextUndelivered(d.box).Some? then After(a, SetDelivered(NextUndelivered(d.box).value, message), now) else a
  }

  lemma RoundSteps(d: Delivering, message: int, now: int)
    ensures Round(d, message, now) == After(BeforeComplete(d, message, now), Complete, now)
  {
    var part := NextUndelivered(d.box);
    var ack := if d.row.acknowledged then [] else [SetAcknowledged];
    var receipt := if part.Some? then [SetDelivered(part.value, message)] else [];
    assert DeliverStatements(d.row, d.box, true, Some(message)) == ack + receipt + [Complete];
    hide After, NextUndelivered, DeliverStatements;
    AfterOne(d, SetAcknowledged, now);
    if part.Some? {
      AfterLast(d, ack, SetDelivered(part.value, message), now);
    } else {
      assert ack + receipt == ack;
    }
    AfterLast(d, ack + receipt, Complete, now);
  }

  /** A fault-free run acknowledges, delivers the next part, and finishes the job when that was the last. */
  lemma RoundDelivers(d: Delivering, n: nat, k: nat, message: int, now: int)
    requires d.row.stage == Deliver && DeliveredUpTo(d.box, n, k)
    ensures var e := Round(d, message, now);
            var k' := if k < n then k + 1 else n;
            && e.row.acknowledged && DeliveredUpTo(e.box, n, k')
            && e.row.stage == (if k' == n then Stage.Done else Deliver)
  {
    RoundSteps(d, message, now);
    hide Round, AfterAll, DeliverStatements;
    if k < n {
      assert k in d.box && !d.box[k].delivered;
      assert NextUndelivered(d.box) == Some(k);
    }
    var b := BeforeComplete(d, message, now);
    assert DeliveredUpTo(b.box, n, if k < n then k + 1 else n);
    assert k + 1 < n ==> k + 1 in b.box && !b.box[k + 1].delivered;
  }

  /** Delivery goes on while the backend cannot be reached: a run whose Ack fails stores the receipt of the next part, and
      leaves the job as it was, unacknowledged and in deliver. */
  lemma DeliveryOutlivesTheBackend(db: Db, id: int, n: nat, k: nat, message: int, now: int)
    requires id in db.jobs && db.jobs[id].stage == Deliver && !db.jobs[id].acknowledged && DeliveredUpTo(db.BoxOf(id), n, k)
    ensures var d := ExecuteAll(db, id, DeliverStatements(db.jobs[id], db.BoxOf(id), false, Some(message)), now);
            && id in d.jobs && d.jobs[id] == db.jobs[id]
            && DeliveredUpTo(d.BoxOf(id), n, if k < n then k + 1 else n)
  {
    hide DeliverStatements, DeliveredUpTo, ExecuteAll, AfterAll;
    TablesFollowTheRow(db, id, DeliverStatements(db.jobs[id], db.BoxOf(id), false, Some(message)), now);
    RunWithoutAck(Delivering(db.jobs[id], db.BoxOf(id)), n, k, message, now);
  }

  lemma RunWithoutAck(d: Delivering, n: nat, k: nat, message: int, now: int)
    requires d.row.stage == Deliver && !d.row.acknowledged && DeliveredUpTo(d.box, n, k)
    ensures var e := AfterAll(d, DeliverStatements(d.row, d.box, false, Some(message)), now);
            e.row == d.row && DeliveredUpTo(e.box, n, if k < n then k + 1 else n)
  {
    var part := NextUndelivered(d.box);
    if k < n {
      assert k in d.box && !d.box[k].delivered;
      assert part == Some(k);
      assert DeliverStatements(d.row, d.box, false, Some(message)) == [SetDelivered(k, message)];
      AfterOne(d, SetDelivered(k, message), now);
    }
  }

  // ----- a whole life -----

  // Every call succeeds and the backend has the result ready.
  function Prompt(jobId: string, r: JobResult, message: int): Replies {
    Replies(Some(message), Uploaded(jobId), true, Engine.Terminal(r), true, true, Some(message))
  }

  function StageRun(d: Delivering, jobId: string, r: JobResult, message: int, now: int): Delivering {
    AfterAll(d, StageStatements(d.row, d.box, Prompt(jobId, r, message)), now)
  }

  lemma RunOfEach(d: Delivering, jobId: string, r: JobResult, message: int, now: int)
    ensures StageRun(d, jobId, r, message, now) ==
            match d.row.stage
            case Status => After(d, SetStatus(message), now)
            case Upload => After(d, SetSubmitted(jobId), now)
            case Poll => After(d, SaveOf(d.row, r), now)
            case Deliver => Round(d, message, now)
            case Done => d
  {
    hide After, ResultParts;
    match d.row.stage
    case Status => AfterOne(d, SetStatus(message), now);
    case Upload => AfterOne(d, SetSubmitted(jobId), now);
    case Poll => AfterOne(d, SaveOf(d.row, r), now);
    case _ =>
  }

  function StageRuns(d: Delivering, jobId: string, r: JobResult, messages: seq<int>, now: int): Delivering {
    if messages == [] then d
    else StageRun(StageRuns(d, jobId, r, messages[..|messages| - 1], now), jobId, r, messages[|messages| - 1], now)
  }

  // Runs of deliver for this many undelivered parts: the last of them, or a run of its own, completes the job.
  function RoundsNeeded(undelivered: nat): nat {
    if undelivered == 0 then 1 else undelivered
  }

  function WaitingParts(box: Box): set<nat> {
    set k | k in box && !box[k].delivered
  }

  function Waiting(box: Box): nat {
    |WaitingParts(box)|
  }

  lemma {:induction false} WaitingIsRest(box: Box, n: nat, k: nat)
    requires DeliveredUpTo(box, n, k)
    ensures k <= n && Waiting(box) == n - k
    decreases n - k
  {
    if k < n {
      var box' := box[k := box[k].(delivered := true)];
      WaitingIsRest(box', n, k + 1);
      assert k !in WaitingParts(box') && WaitingParts(box) == WaitingParts(box') + {k};
    } else {
      assert WaitingParts(box) == {};
    }
  }

  function RunsNeeded(d: Delivering, r: JobResult): nat {
    match d.row.stage
    case Status => 3 + |ResultParts(d.row.media.preset, r)|
    case Upload => 2 + |ResultParts(d.row.media.preset, r)|
    case Poll => 1 + |ResultParts(d.row.media.preset, r)|
    case Deliver => RoundsNeeded(Waiting(d.box))
    case Done => 0
  }

  // No parts before the result, and then a numbered outbox delivered from the front.
  ghost predicate WellStored(d: Delivering) {
    && (d.row.stage.Rank() <= 2 ==> d.box == map[])
    && (d.row.stage == Deliver ==> exists n: nat, k: nat :: DeliveredUpTo(d.box, n, k))
  }

  lemma DeliverRunCounts(d: Delivering, message: int, now: int, r: JobResult)
    requires d.row.stage == Deliver && WellStored(d)
    ensures var e := Round(d, message, now);
            WellStored(e) && RunsNeeded(e, r) == RunsNeeded(d, r) - 1
  {
    var n: nat, k: nat :| DeliveredUpTo(d.box, n, k);
    RoundDelivers(d, n, k, message, now);
    hide Round, DeliveredUpTo, ResultParts;
    WaitingIsRest(d.box, n, k);
    WaitingIsRest(Round(d, message, now).box, n, if k < n then k + 1 else n);
    hide Waiting;
  }

  lemma SavedPlan(parts: seq<Delivery>)
    ensures DeliveredUpTo(InsertParts(map[], parts, |parts|), |parts|, 0)
  {
  }

  /** Every fault-free run brings a job one run nearer to its end, whatever stage it is in. */
  lemma RunCounts(d: Delivering, jobId: string, r: JobResult, message: int, now: int)
    requires WellStored(d)
    ensures var e := StageRun(d, jobId, r, message, now);
            WellStored(e) && RunsNeeded(e, r) == if RunsNeeded(d, r) == 0 then 0 else RunsNeeded(d, r) - 1
  {
    RunOfEach(d, jobId, r, message, now);
    PlanStartsWithTheOnlyEdit(d.row.media.preset, r);
    hide StageRun, ResultParts, InsertParts, Round;
    if d.row.stage == Deliver {
      DeliverRunCounts(d, message, now, r);
    } else if d.row.stage == Poll {
      var parts := ResultParts(d.row.media.preset, r);
      SavedPlan(parts);
      WaitingIsRest(InsertParts(map[], parts, |parts|), |parts|, 0);
    }
    hide Waiting, DeliveredUpTo;
  }

  lemma {:induction false} RunsCount(d: Delivering, jobId: string, r: JobResult, messages: seq<int>, now: int)
    requires WellStored(d)
    ensures var e, needed := StageRuns(d, jobId, r, messages, now), RunsNeeded(d, r);
            WellStored(e) && RunsNeeded(e, r) == if |messages| < needed then needed - |messages| else 0
    decreases |messages|
  {
    hide StageRun, RunsNeeded, WellStored;
    if messages != [] {
      var init := messages[..|messages| - 1];
      RunsCount(d, jobId, r, init, now);
      RunCounts(StageRuns(d, jobId, r, init, now), jobId, r, messages[|messages| - 1], now);
    }
  }

  lemma DoneNeedsNone(d: Delivering, r: JobResult)
    ensures d.row.stage == Stage.Done <==> RunsNeeded(d, r) == 0
  {
    hide ResultParts, Waiting;
  }

  // ----- on the tables -----

  function JobIn(db: Db, id: int): Delivering
    requires id in db.jobs
  {
    Delivering(db.jobs[id], db.BoxOf(id))
  }

  // One fault-free run of the stage that job id is in.
  function TableRun(db: Db, id: int, jobId: string, r: JobResult, message: int, now: int): Db {
    if id !in db.jobs then db
    else ExecuteAll(db, id, StageStatements(db.jobs[id], db.BoxOf(id), Prompt(jobId, r, message)), now)
  }

  function TableRuns(db: Db, id: int, jobId: string, r: JobResult, messages: seq<int>, now: int): Db {
    if messages == [] then db
    else TableRun(TableRuns(db, id, jobId, r, messages[..|messages| - 1], now), id, jobId, r, messages[|messages| - 1], now)
  }

  lemma {:induction false} RunsOnTables(db: Db, id: int, jobId: string, r: JobResult, messages: seq<int>, now: int)
    requires id in db.jobs
    ensures var d := TableRuns(db, id, jobId, r, messages, now);
            id in d.jobs && JobIn(d, id) == StageRuns(JobIn(db, id), jobId, r, messages, now)
    decreases |messages|
  {
    hide StageStatements, Prompt, ExecuteAll, AfterAll;
    if messages != [] {
      var init := messages[..|messages| - 1];
      RunsOnTables(db, id, jobId, r, init, now);
      var d := TableRuns(db, id, jobId, r, init, now);
      TablesFollowTheRow(d, id, StageStatements(d.jobs[id], d.BoxOf(id), Prompt(jobId, r, messages[|messages| - 1])), now);
    }
  }

  /** Without faults a job, from whatever stage, is done after exactly the runs it needs: three and one per part of its
      result when fresh, and not before. */
  lemma JobTerminates(db: Db, id: int, jobId: string, r: JobResult, messages: seq<int>, now: int)
    requires id in db.jobs && WellStored(JobIn(db, id))
    ensures var d := TableRuns(db, id, jobId, r, messages, now);
            id in d.jobs && (d.jobs[id].stage == Stage.Done <==> |messages| >= RunsNeeded(JobIn(db, id), r))
  {
    hide StageRuns, TableRuns, RunsNeeded, WellStored;
    RunsOnTables(db, id, jobId, r, messages, now);
    RunsCount(JobIn(db, id), jobId, r, messages, now);
    DoneNeedsNone(StageRuns(JobIn(db, id), jobId, r, messages, now), r);
  }

  /** A job in deliver with m undelivered parts is done after exactly max(1, m) fault-free runs and not before, and each run
      delivers the next part. */
  lemma {:induction false} DeliverTerminates(db: Db, id: int, jobId: string, r: JobResult, messages: seq<int>, now: int, n: nat, k: nat)
    requires id in db.jobs && db.jobs[id].stage == Deliver && DeliveredUpTo(db.BoxOf(id), n, k)
    requires |messages| <= RoundsNeeded(n - k)
    ensures var d := TableRuns(db, id, jobId, r, messages, now);
            && id in d.jobs && DeliveredUpTo(d.BoxOf(id), n, if k + |messages| < n then k + |messages| else n)
            && d.jobs[id].stage == (if |messages| == RoundsNeeded(n - k) then Stage.Done else Deliver)
            && (messages != [] ==> d.jobs[id].acknowledged)
  {
    hide StageRuns, TableRuns, DeliveredUpTo;
    RunsOnTables(db, id, jobId, r, messages, now);
    DeliversInOrder(JobIn(db, id), jobId, r, messages, now, n, k);
  }

  lemma {:induction false} DeliversInOrder(d: Delivering, jobId: string, r: JobResult, messages: seq<int>, now: int, n: nat, k: nat)
    requires d.row.stage == Deliver && DeliveredUpTo(d.box, n, k) && |messages| <= RoundsNeeded(n - k)
    ensures var e := StageRuns(d, jobId, r, messages, now);
            && DeliveredUpTo(e.box, n, if k + |messages| < n then k + |messages| else n)
            && e.row.stage == (if |messages| == RoundsNeeded(n - k) then Stage.Done else Deliver)
            && (messages != [] ==> e.row.acknowledged)
    decreases |messages|
  {
    WaitingIsRest(d.box, n, k);
    if messages != [] {
      var init := messages[..|messages| - 1];
      DeliversInOrder(d, jobId, r, init, now, n, k);
      NextRun(d, jobId, r, messages, now);
      hide *;
      var e := StageRuns(d, jobId, r, init, now);
      RunOfEach(e, jobId, r, messages[|messages| - 1], now);
      assert k + |init| < n || n - k <= 1;
      RoundDelivers(e, n, if k + |init| < n then k + |init| else n, messages[|messages| - 1], now);
    }
  }

  lemma NextRun(d: Delivering, jobId: string, r: JobResult, messages: seq<int>, now: int)
    requires messages != []
    ensures StageRuns(d, jobId, r, messages, now)
         == StageRun(StageRuns(d, jobId, r, messages[..|messages| - 1], now), jobId, r, messages[|messages| - 1], now)
  {
  }

  lemma {:induction false} FirstWaiting(box: Box, n: nat, k: nat)
    requires (forall i: nat :: i in box <==> i < n) && EngineInvariant.Prefix(box)
    requires k <= n && forall i | i in box && i < k :: box[i].delivered
    ensures exists m :: DeliveredUpTo(box, n, m)
    decreases n - k
  {
    if k < n && box[k].delivered {
      FirstWaiting(box, n, k + 1);
    } else {
      assert DeliveredUpTo(box, n, k);
    }
  }

  lemma PlanIsNumbered(box: Box, parts: seq<Delivery>)
    requires EngineInvariant.BoxMatches(box, parts)
    ensures exists m :: DeliveredUpTo(box, |parts|, m)
  {
    FirstWaiting(box, |parts|, 0);
  }

  /** The engine never stores a job otherwise, so every job of every reachable state can be brought to its end. */
  lemma EngineStoresWell(k: Engine.Backend, id: int, row: Job, box: Box)
    requires EngineInvariant.JobOk(k, id, row, box)
    ensures WellStored(Delivering(row, box))
  {
    if row.stage == Deliver {
      PlanIsNumbered(box, ResultParts(row.media.preset, row.result.value));
    }
    hide DeliveredUpTo, EngineInvariant.BoxMatches, ResultParts;
  }

  /** From any state of any run, with whatever crashes behind it, a job is done after exactly the fault-free runs it needs. */
  lemma ReachableJobsTerminate(e: Engine.Env, states: seq<Engine.State>, actions: seq<Engine.Action>, k: nat, id: int,
                               jobId: string, r: JobResult, messages: seq<int>)
    requires Engine.IsRun(e, states, actions) && k < |states| && id in states[k].db.jobs
    ensures var db, d := states[k].db, TableRuns(states[k].db, id, jobId, r, messages, states[k].now);
            id in d.jobs && (d.jobs[id].stage == Stage.Done <==> |messages| >= RunsNeeded(JobIn(db, id), r))
  {
    hide Engine.IsRun, EngineInvariant.JobOk, WellStored, TableRuns, RunsNeeded;
    var s := states[k];
    Guarantees.StoredJob(e, states, actions, k, id);
    EngineStoresWell(s.backend, id, s.db.jobs[id], s.db.BoxOf(id));
    JobTerminates(s.db, id, jobId, r, messages, s.now);
  }
}
