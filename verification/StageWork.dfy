/** A stage worker as the program runs it: a claimed job, the statements it sends on the connection that owns the job's
    lock, and what is left when that connection dies at any point. */
module StageWork {
  import opened Options
  import opened ResultPlan
  import opened Tables
  import opened Locks
  import opened StageRuns
  import opened DurableStore
  import Engine

  lemma AckKeepsParts(db: Db, id: int, now: int)
    ensures Execute(db, id, SetAcknowledged, now).BoxOf(id) == db.BoxOf(id)
  {
  }

  lemma ExecuteKeepsInbox(db: Db, id: int, s: Statement, now: int)
    ensures Execute(db, id, s, now).inbox == db.inbox
  {
  }

  // The statements of deliver, one by one.
  lemma DeliverShape(row: Job, box: Box, r: Replies)
    requires row.stage == Deliver
    ensures var all, part := StageStatements(row, box, r), NextUndelivered(box);
            var a := if !row.acknowledged && r.acked then 1 else 0;
            var p := if part.Some? then 1 else 0;
            && (a == 1 ==> |all| >= 1 && all[0] == SetAcknowledged)
            && if part.Some? && r.sent.None? then |all| == a && !Succeeds(row, box, r)
               else
                 && (part.Some? ==> |all| >= a + 1 && all[a] == SetDelivered(part.value, r.sent.value))
                 && (Succeeds(row, box, r) <==> row.acknowledged || r.acked)
                 && if row.acknowledged || r.acked then |all| == a + p + 1 && all[a + p] == Complete else |all| == p
  {
    hide NextUndelivered;
  }

  // What follows the acknowledgement: the receipt of a part that was sent, and completion once acknowledged.
  lemma AfterAcks(row: Job, box: Box, r: Replies, all: seq<Statement>, part: Option<nat>, acks: nat)
    requires row.stage == Deliver && all == StageStatements(row, box, r) && part == NextUndelivered(box)
    requires acks == if !row.acknowledged && r.acked then 1 else 0
    ensures part.Some? && r.sent.None? ==> |all| == acks && !Succeeds(row, box, r)
    ensures part.Some? && r.sent.Some? ==> |all| > acks && all[acks] == SetDelivered(part.value, r.sent.value)
    ensures part.Some? && r.sent.Some? && (row.acknowledged || r.acked) ==>
              |all| == acks + 2 && all[acks + 1] == Complete && Succeeds(row, box, r)
    ensures part.None? && (row.acknowledged || r.acked) ==> |all| == acks + 1 && all[acks] == Complete && Succeeds(row, box, r)
    ensures part.Some? && r.sent.Some? && !row.acknowledged && !r.acked ==> |all| == 1 && !Succeeds(row, box, r)
    ensures part.None? && !row.acknowledged && !r.acked ==> |all| == 0 && !Succeeds(row, box, r)
  {
    DeliverShape(row, box, r);
    hide NextUndelivered, StageStatements, Succeeds;
  }

  lemma RunNone(db: Db, id: int, all: seq<Statement>, now: int)
    ensures ExecuteAll(db, id, all[..0], now) == db
  {
  }

  lemma RunNext(db: Db, id: int, all: seq<Statement>, n: nat, now: int)
    requires n < |all|
    ensures ExecuteAll(db, id, all[..n + 1], now) == Execute(ExecuteAll(db, id, all[..n], now), id, all[n], now)
  {
    assert all[..n + 1][..n] == all[..n];
  }

  lemma RunWhole(db: Db, id: int, all: seq<Statement>, now: int)
    ensures ExecuteAll(db, id, all[..|all|], now) == ExecuteAll(db, id, all, now)
  {
    assert all[..|all|] == all;
  }

  // These tables are what the first n statements of the stage make of the earlier ones.
  predicate HaveRun(db: Db, before: Db, id: int, row: Job, r: Replies, n: nat, now: int) {
    n <= |StageStatements(row, before.BoxOf(id), r)|
    && db == ExecuteAll(before, id, StageStatements(row, before.BoxOf(id), r)[..n], now)
  }

  lemma NoneYet(before: Db, id: int, row: Job, r: Replies, now: int)
    ensures HaveRun(before, before, id, row, r, 0, now)
  {
    RunNone(before, id, StageStatements(row, before.BoxOf(id), r), now);
  }

  lemma OneMore(db: Db, before: Db, id: int, row: Job, r: Replies, n: nat, now: int)
    requires HaveRun(db, before, id, row, r, n, now) && n < |StageStatements(row, before.BoxOf(id), r)|
    ensures HaveRun(Execute(db, id, StageStatements(row, before.BoxOf(id), r)[n], now), before, id, row, r, n + 1, now)
  {
    hide StageStatements, Execute;
    RunNext(before, id, StageStatements(row, before.BoxOf(id), r), n, now);
  }

  // The connection, the job's id and its snapshot, as a stage gets them.
  class Work {
    const store: Store
    const session: nat
    const id: int
    const job: Job

    constructor (store: Store, session: nat, id: int, job: Job)
      ensures this.store == store && this.session == session && this.id == id && this.job == job
    {
      this.store, this.session, this.id, this.job := store, session, id, job;
    }

    ghost function Lock(): int {
      store.hash(Engine.JobKey(id))
    }

    // The connection still owns the job's lock, or is dead and has freed it.
    ghost predicate Mine()
      reads store
    {
      && store.Valid() && store.Owns(session, Lock()) && session !in store.pool.tuned
      && (session in store.pool.live || Lock() !in store.pool.locks)
    }

    // The locks of everybody else, and the connections in the pool.
    ghost function Others(): (map<int, Hold>, set<nat>)
      reads store
    {
      (store.pool.locks - {Lock()}, store.pool.idle)
    }

    // Every failed statement counts.
    ghost predicate Answered(ok: bool, failed: nat)
      reads store
    {
      if ok then store.net.failed == failed else store.net.failed > failed
    }

    method Ask() returns (ok: bool)
      requires Mine()
      modifies store`pool, store`net
      ensures Mine() && Others() == old(Others()) && Answered(ok, old(store.net.failed))
    {
      ok := store.OwnAnswer(session, Engine.JobKey(id));
    }

    method Exec(s: Statement) returns (ok: bool)
      requires Mine() && !s.SaveResult?
      modifies store`tables, store`pool, store`net
      ensures Mine() && Others() == old(Others()) && Answered(ok, old(store.net.failed))
      ensures store.tables == if ok then Execute(old(store.tables), id, s, store.now) else old(store.tables)
    {
      ok := Ask();
      if ok {
        ExecuteKeepsInbox(store.tables, id, s, store.now);
        store.tables := Execute(store.tables, id, s, store.now);
      }
    }

    /** The terminal result and its whole delivery plan commit together or not at all. */
    method Result(result: JobResult, parts: seq<Delivery>) returns (ok: bool)
      requires Mine()
      modifies store`tables, store`pool, store`net
      ensures Mine() && Others() == old(Others())
      ensures ok <==> parts != [] && id in old(store.tables).jobs && store.net.failed == old(store.net.failed)
      ensures store.net.failed >= old(store.net.failed)
      ensures store.tables == if ok then Execute(old(store.tables), id, SaveResult(result, parts), store.now) else old(store.tables)
    {
      if parts == [] {
        return false;
      }
      ok := Ask();
      if !ok {
        return;
      }
      var tx := store.tables;
      ok := Ask();
      if !ok {
        return;
      }
      tx := JobResultOnly(tx, id, result, store.now);
      for part := 0 to |parts|
        invariant Mine() && Others() == old(Others()) && store.tables == old(store.tables)
        invariant (part > 0 ==> id in tx.jobs) && store.net.failed == old(store.net.failed)
        invariant id in tx.jobs <==> id in store.tables.jobs
        invariant tx == DeliveryInserts(JobResultOnly(store.tables, id, result, store.now), id, parts, part)
      {
        ok := Ask();
        if !ok || id !in tx.jobs { // a part must belong to a job
          return false;
        }
        tx := DeliveryInsert(tx, id, part, parts[part]);
      }
      ResultTransaction(store.tables, id, result, parts, store.now);
      ok := Ask();
      if ok {
        ExecuteKeepsInbox(store.tables, id, SaveResult(result, parts), store.now);
        store.tables := tx;
      }
    }

    method NextDelivery() returns (part: Option<nat>, ok: bool)
      requires Mine()
      modifies store`pool, store`net
      ensures Mine() && Others() == old(Others()) && Answered(ok, old(store.net.failed))
      ensures ok ==> part == NextUndelivered(store.tables.BoxOf(id))
    {
      ok := Ask();
      part := if ok then NextUndelivered(store.tables.BoxOf(id)) else None;
    }

    // ----- the stages -----

    // The first n statements of the stage have committed: all of them unless a statement failed. The stage succeeds when
    // they all have and the replies allow it.
    ghost predicate Ran(before: Db, failed: nat, r: Replies, ok: bool, n: nat)
      reads store
    {
      var box := before.BoxOf(id);
      var all := StageStatements(job, box, r);
      && n <= |all| && store.tables == ExecuteAll(before, id, all[..n], store.now)
      && (ok <==> n == |all| && Succeeds(job, box, r))
      && failed <= store.net.failed && (store.net.failed == failed ==> n == |all|)
    }

    method StatusStage(r: Replies) returns (ok: bool, ghost n: nat)
      requires Mine() && job.stage == Status
      modifies store`tables, store`pool, store`net
      ensures Mine() && Others() == old(Others()) && Ran(old(store.tables), old(store.net.failed), r, ok, n)
    {
      n := 0;
      RunNone(store.tables, id, StageStatements(job, store.tables.BoxOf(id), r), store.now);
      if r.message.None? {
        return false, n;
      }
      ok := Exec(SetStatus(r.message.value));
      if ok {
        n := 1;
      }
    }

    method UploadStage(r: Replies) returns (ok: bool, ghost n: nat)
      requires Mine() && id in store.tables.jobs && job.stage == Upload
      modifies store`tables, store`pool, store`net
      ensures Mine() && Others() == old(Others()) && Ran(old(store.tables), old(store.net.failed), r, ok, n)
    {
      n := 0;
      RunNone(store.tables, id, StageStatements(job, store.tables.BoxOf(id), r), store.now);
      match r.upload {
        case Uploaded(b) => ok := Exec(SetSubmitted(b));
        case Rejected => ok := Save(UPLOAD_INVALID);
        case NotUploaded => return false, n;
      }
      if ok {
        n := 1;
      }
    }

    // saveResult
    method Save(result: JobResult) returns (ok: bool)
      requires Mine() && id in store.tables.jobs
      modifies store`tables, store`pool, store`net
      ensures Mine() && Others() == old(Others()) && Answered(ok, old(store.net.failed))
      ensures store.tables == if ok then Execute(old(store.tables), id, SaveOf(job, result), store.now) else old(store.tables)
    {
      PlanStartsWithTheOnlyEdit(job.media.preset, result);
      var parts := BuildParts(job.media.preset, result);
      ok := Result(result, parts);
    }

    method PollStage(r: Replies) returns (ok: bool, ghost n: nat)
      requires Mine() && id in store.tables.jobs && job.stage == Poll
      modifies store`tables, store`pool, store`net
      ensures Mine() && Others() == old(Others()) && Ran(old(store.tables), old(store.net.failed), r, ok, n)
    {
      n := 0;
      ghost var before := store.tables;
      ghost var all := StageStatements(job, before.BoxOf(id), r);
      RunNone(before, id, all, store.now);
      hide Mine, Others;
      if job.cancelRequested && !r.cancelled {
        return false, n;
      }
      hide Execute, ExecuteAll, ResultParts;
      match r.status {
        case NoReply => return false, n;
        case Missing => ok := Save(JOB_MISSING);
        case Terminal(result) => ok := Save(result);
        case Running(text) =>
          if text != job.progressText && r.shown {
            ok := Exec(SetProgress(text));
            if !ok {
              return;
            }
            RunNext(before, id, all, n, store.now);
            n := 1;
          }
          ok := Exec(Schedule(Engine.POLL_INTERVAL, ""));
      }
      if ok {
        RunNext(before, id, all, n, store.now);
        n := n + 1;
      }
    }

    // The middle of deliver: the next part, if there is one, goes out and its receipt is stored.
    method DeliverPart(reply: Option<int>) returns (ok: bool, ghost sent: bool)
      requires Mine()
      modifies store`tables, store`pool, store`net
      ensures Mine() && Others() == old(Others()) && store.net.failed >= old(store.net.failed)
      ensures var part := NextUndelivered(old(store.tables).BoxOf(id));
              && (sent ==> ok && part.Some? && reply.Some?)
              && (ok ==> sent == part.Some? && store.net.failed == old(store.net.failed))
              && (!ok ==> store.net.failed > old(store.net.failed) || (part.Some? && reply.None?))
              && store.tables == if sent then Execute(old(store.tables), id, SetDelivered(part.value, reply.value), store.now)
                                 else old(store.tables)
    {
      sent := false;
      var part;
      part, ok := NextDelivery();
      if !ok {
        return;
      }
      if part.Some? {
        if reply.None? {
          return false, false;
        }
        ok := Exec(SetDelivered(part.value, reply.value));
        sent := ok;
      }
    }

    lemma HasRun(before: Db, failed: nat, r: Replies, ok: bool, n: nat)
      requires HaveRun(store.tables, before, id, job, r, n, store.now)
      requires var all := StageStatements(job, before.BoxOf(id), r);
               && (ok <==> n == |all| && Succeeds(job, before.BoxOf(id), r))
               && failed <= store.net.failed && (store.net.failed == failed ==> n == |all|)
      ensures Ran(before, failed, r, ok, n)
    {
    }

    // deliver after its acknowledgement: the next part, then completion.
    method DeliverRest(r: Replies, ghost before: Db, ghost acks: nat) returns (ok: bool, ghost n: nat)
      requires Mine() && job.stage == Stage.Deliver && acks == (if !job.acknowledged && r.acked then 1 else 0)
      requires HaveRun(store.tables, before, id, job, r, acks, store.now) && store.tables.BoxOf(id) == before.BoxOf(id)
      modifies store`tables, store`pool, store`net
      ensures Mine() && Others() == old(Others()) && Ran(before, old(store.net.failed), r, ok, n)
    {
      ghost var box := before.BoxOf(id);
      ghost var all, part := StageStatements(job, box, r), NextUndelivered(box);
      AfterAcks(job, box, r, all, part, acks);
      hide *;
      n := acks;
      ghost var sent;
      ok, sent := DeliverPart(r.sent);
      if sent {
        OneMore(old(store.tables), before, id, job, r, n, store.now);
        n := n + 1;
      }
      if ok {
        ok, n := Finish(r, before, n);
      } else {
        HasRun(before, old(store.net.failed), r, ok, n);
      }
    }

    // The end of deliver: complete, or report the failed Ack.
    method Finish(r: Replies, ghost before: Db, ghost done: nat) returns (ok: bool, ghost n: nat)
      requires Mine() && HaveRun(store.tables, before, id, job, r, done, store.now)
      requires var all, healthy := StageStatements(job, before.BoxOf(id), r), job.acknowledged || r.acked;
               && Succeeds(job, before.BoxOf(id), r) == healthy
               && if healthy then |all| == done + 1 && all[done] == Complete else |all| == done
      modifies store`tables, store`pool, store`net
      ensures Mine() && Others() == old(Others()) && Ran(before, old(store.net.failed), r, ok, n)
    {
      ghost var tables := store.tables;
      hide *;
      n := done;
      ok := false;
      if job.acknowledged || r.acked {
        ok := Exec(Complete);
        if ok {
          OneMore(tables, before, id, job, r, n, store.now);
          n := n + 1;
        }
      }
      HasRun(before, old(store.net.failed), r, ok, n);
    }

    /** deliver: whatever fails, the statements committed are a prefix of the stage's, and all of them when it succeeds. */
    method Deliver(r: Replies) returns (ok: bool, ghost n: nat)
      requires Mine() && id in store.tables.jobs && job.stage == Stage.Deliver
      modifies store`tables, store`pool, store`net
      ensures Mine() && Others() == old(Others()) && Ran(old(store.tables), old(store.net.failed), r, ok, n)
    {
      ghost var before := store.tables;
      NoneYet(before, id, job, r, store.now);
      AckKeepsParts(before, id, store.now);
      DeliverShape(job, before.BoxOf(id), r);
      hide *;
      if !job.acknowledged && r.acked {
        ok := Exec(SetAcknowledged);
        if !ok {
          n := 0;
          HasRun(before, old(store.net.failed), r, ok, n);
          return;
        }
        OneMore(before, before, id, job, r, 0, store.now);
        ok, n := DeliverRest(r, before, 1);
      } else {
        ok, n := DeliverRest(r, before, 0);
      }
    }

    /** step: the stage the snapshot is in. */
    method Step(r: Replies) returns (ok: bool, ghost n: nat)
      requires Mine() && id in store.tables.jobs
      modifies store`tables, store`pool, store`net
      ensures Mine() && Others() == old(Others()) && Ran(old(store.tables), old(store.net.failed), r, ok, n)
    {
      match job.stage
      case Status => ok, n := StatusStage(r);
      case Upload => ok, n := UploadStage(r);
      case Poll => ok, n := PollStage(r);
      case Deliver => ok, n := Deliver(r);
      case Done =>
        RunNone(store.tables, id, [], store.now);
        return false, 0;
    }

    /** The body of workLoop: a failed stage is scheduled again with backoff, whether a call or a statement failed, unless
        the process is shutting down. */
    method Run(r: Replies, quit: bool, hint: Option<int>) returns (ok: bool, ghost statements: seq<Statement>)
      requires Mine() && id in store.tables.jobs
      modifies store`tables, store`pool, store`net
      ensures Mine() && Others() == old(Others())
      ensures IsRunOf(job, old(store.tables).BoxOf(id), r, hint, statements)
      ensures old(store.net.failed) <= store.net.failed
      ensures store.net.failed == old(store.net.failed) ==>
                IsWholeRunOf(job, old(store.tables).BoxOf(id), r, quit, hint, statements)
      ensures quit ==> statements <= StageStatements(job, old(store.tables).BoxOf(id), r)
      ensures ok <==> Settles(job, old(store.tables).BoxOf(id), r, hint, statements)
      ensures store.tables == ExecuteAll(old(store.tables), id, statements, store.now)
    {
      ghost var before, box := store.tables, store.tables.BoxOf(id);
      ghost var all := StageStatements(job, box, r);
      ghost var n;
      ok, n := Step(r);
      statements := all[..n];
      CutShort(job, box, r, hint, n);
      CutAndRetried(job, box, r, hint, n);
      CutShortSettles(job, box, r, hint, n);
      if !ok && !quit {
        hide Execute, StageStatements, Succeeds, IsRunOf, Settles;
        ok := Exec(Retry(job, hint));
        if ok {
          statements := all[..n] + [Retry(job, hint)];
          RunNext(before, id, statements, n, store.now);
          assert statements[..n] == all[..n];
          RunWhole(before, id, statements, store.now);
        }
      }
    }
  }

  /** WithWork: one listed job at most is claimed and its stage run, on rows read again under the lock; on every path the
      lock is free afterwards and no connection in the pool holds one. */
  method WithWork(store: Store, stage: Stage, ids: seq<int>, r: Replies, quit: bool, hint: Option<int>)
    returns (worked: bool, ok: bool, ghost id: int, ghost statements: seq<Statement>)
    requires store.Valid()
    modifies store`tables, store`pool, store`net
    ensures store.Valid() && store.pool.locks == old(store.pool.locks)
    ensures store.net.failed == old(store.net.failed) ==> old(store.pool.idle) <= store.pool.idle
    ensures !worked ==> store.tables == old(store.tables)
    ensures worked ==> id in old(store.tables).jobs
    ensures worked ==> (ok <==> Settles(old(store.tables).jobs[id], old(store.tables).BoxOf(id), r, hint, statements))
    ensures !worked && !ok ==> store.net.failed > old(store.net.failed) || exists i :: i in ids && i !in old(store.tables).jobs
    ensures (forall i | i in ids :: i in old(store.tables).jobs) && store.net.failed == old(store.net.failed)
            && (exists m :: 0 <= m < |ids| && store.hash(Engine.JobKey(ids[m])) !in old(store.pool.locks) && old(store.Takes(ids[m], stage)))
            ==> worked
    ensures !worked && ok ==>
              forall m | 0 <= m < |ids| :: store.hash(Engine.JobKey(ids[m])) in old(store.pool.locks) || !old(store.Takes(ids[m], stage))
    ensures worked ==>
              && id in ids && old(store.Takes(id, stage))
              && (exists n :: 0 <= n < |ids| && ids[n] == id
                    && forall m | 0 <= m < n :: store.hash(Engine.JobKey(ids[m])) in old(store.pool.locks) || !old(store.Takes(ids[m], stage)))
              && IsRunOf(old(store.tables).jobs[id], old(store.tables).BoxOf(id), r, hint, statements)
              && store.tables == ExecuteAll(old(store.tables), id, statements, store.now)
              && (quit ==> statements <= StageStatements(old(store.tables).jobs[id], old(store.tables).BoxOf(id), r))
              && (store.net.failed == old(store.net.failed) ==>
                    IsWholeRunOf(old(store.tables).jobs[id], old(store.tables).BoxOf(id), r, quit, hint, statements))
  {
    hide IsRunOf, IsWholeRunOf, Settles, ExecuteAll, StageStatements;
    worked, id, statements := false, 0, [];
    ok := store.PoolAnswer(); // job_candidates.sql
    if !ok {
      return;
    }
    var claim, err := store.Claim(stage, ids);
    if claim.None? {
      ok := !err;
      return;
    }
    var (session, claimed, job) := claim.value;
    id := claimed;
    ghost var h := store.hash(Engine.JobKey(claimed));
    assert store.pool.locks - {h} == old(store.pool.locks);
    assert h !in old(store.pool.locks);
    var work := new Work(store, session, claimed, job);
    ok, statements := work.Run(r, quit, hint);
    worked := true;
    assert store.pool.locks - {h} == old(store.pool.locks);
    assert session !in store.pool.live ==> store.pool.locks == store.pool.locks - {h};
    store.Unlock(session, Engine.JobKey(claimed));
  }

  // The run reports no error: the stage has succeeded, or its retry is on record.
  ghost predicate Settles(row: Job, box: Box, r: Replies, hint: Option<int>, statements: seq<Statement>) {
    var all := StageStatements(row, box, r);
    || (Succeeds(row, box, r) && statements == all)
    || exists n :: 0 <= n <= |all| && statements == all[..n] + [Retry(row, hint)]
  }

  // No stage schedules its own retry, so a prefix of its statements is not a retried run.
  lemma PrefixIsNotRetried(row: Job, box: Box, r: Replies, hint: Option<int>, n: nat, m: nat)
    requires n <= |StageStatements(row, box, r)| && m <= |StageStatements(row, box, r)|
    ensures StageStatements(row, box, r)[..n] != StageStatements(row, box, r)[..m] + [Retry(row, hint)]
  {
    var all := StageStatements(row, box, r);
    NoRetryInside(row, box, r);
    assert n > 0 ==> all[..n][n - 1] == all[n - 1];
    assert (all[..m] + [Retry(row, hint)])[m] == Retry(row, hint);
    hide StageStatements;
  }

  lemma NoRetryInside(row: Job, box: Box, r: Replies)
    ensures forall st | st in StageStatements(row, box, r) :: st.Schedule? ==> st.code == ""
  {
    if row.stage == Deliver {
      DeliverShape(row, box, r);
      hide NextUndelivered;
    }
    hide ResultParts;
  }

  lemma CutShortSettles(row: Job, box: Box, r: Replies, hint: Option<int>, n: nat)
    requires n <= |StageStatements(row, box, r)|
    ensures Settles(row, box, r, hint, StageStatements(row, box, r)[..n]) <==> Succeeds(row, box, r) && n == |StageStatements(row, box, r)|
    ensures Settles(row, box, r, hint, StageStatements(row, box, r)[..n] + [Retry(row, hint)])
  {
    hide StageStatements, Succeeds, Retry;
    forall m: nat | m <= |StageStatements(row, box, r)|
      ensures StageStatements(row, box, r)[..n] != StageStatements(row, box, r)[..m] + [Retry(row, hint)]
    {
      PrefixIsNotRetried(row, box, r, hint, n, m);
    }
    assert n == |StageStatements(row, box, r)| ==> StageStatements(row, box, r)[..n] == StageStatements(row, box, r);
  }

  lemma CutShort(row: Job, box: Box, r: Replies, hint: Option<int>, n: nat)
    requires n <= |StageStatements(row, box, r)|
    ensures IsRunOf(row, box, r, hint, StageStatements(row, box, r)[..n])
    ensures n == |StageStatements(row, box, r)| ==> StageStatements(row, box, r)[..n] == StageStatements(row, box, r)
  {
    hide StageStatements;
  }

  lemma CutAndRetried(row: Job, box: Box, r: Replies, hint: Option<int>, n: nat)
    requires n <= |StageStatements(row, box, r)|
    ensures n < |StageStatements(row, box, r)| || !Succeeds(row, box, r) ==>
              IsRunOf(row, box, r, hint, StageStatements(row, box, r)[..n] + [Retry(row, hint)])
  {
    hide StageStatements, Succeeds, Retry;
  }
}
