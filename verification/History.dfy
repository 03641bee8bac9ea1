/** What single steps of a run do to the row and the parts of one job. */
module History {
  import opened Options
  import opened Updates
  import opened Tables
  import opened Locks
  import opened Engine
  import Identity

  // The action commits a statement on job id.
  predicate CommitsOn(s: State, act: Action, id: int) {
    && act.JobStep? && act.job.Write? && !act.job.commit.Refused?
    && act.actor in s.actors && s.actors[act.actor].Holding? && s.actors[act.actor].key == JobKey(id)
    && s.actors[act.actor].pc.Working? && IsWrite(s.actors[act.actor].pc.at)
  }

  function CommittedOn(s: State, act: Action, id: int): Statement
    requires CommitsOn(s, act, id)
  {
    StatementOf(s.actors[act.actor].pc.job, s.actors[act.actor].pc.at)
  }

  // The action is a cancel request that finds job id in poll.
  predicate CancelHits(s: State, act: Action, id: int) {
    && act.RequestCancel? && id in s.db.jobs
    && s.db.jobs[id].stage == Poll && s.db.jobs[id].jobId == act.jobId && s.db.jobs[id].media.chat == act.chat
  }

  ghost predicate SameJob(s: State, t: State, id: int) {
    id in s.db.jobs && id in t.db.jobs && t.db.jobs[id] == s.db.jobs[id] && t.db.BoxOf(id) == s.db.BoxOf(id)
  }

  lemma ExecuteElsewhere(db: Db, id: int, s: Statement, now: int, i: int)
    requires i in db.jobs
    ensures var d := Execute(db, id, s, now);
            i in d.jobs && if i == id then d.jobs[i] == RowAfter(db.jobs[i], db.BoxOf(i), s, now) && d.BoxOf(i) == BoxAfter(db.BoxOf(i), s)
                           else d.jobs[i] == db.jobs[i] && d.BoxOf(i) == db.BoxOf(i)
  {
    hide RowAfter, BoxAfter;
  }

  lemma WriteShows(s: State, a: nat, key: int, j: Job, at: At, commit: Commit, t: State, id: int)
    requires a in s.actors && s.actors[a].Holding? && WriteStep(s, a, key, j, at, commit, t) && id in s.db.jobs
    ensures IsWrite(at)
    ensures commit.Refused? || key != id ==> SameJob(s, t, id)
    ensures !commit.Refused? ==> HasLive(s, a)
    ensures !commit.Refused? && key == id ==>
              && id in t.db.jobs && t.db.BoxOf(id) == BoxAfter(s.db.BoxOf(id), StatementOf(j, at))
              && t.db.jobs[id] == RowAfter(s.db.jobs[id], s.db.BoxOf(id), StatementOf(j, at), s.now)
  {
    if !commit.Refused? {
      ExecuteElsewhere(s.db, key, StatementOf(j, at), s.now, id);
    }
    hide Execute, RowAfter, BoxAfter, StatementOf, Receipted, AfterWrite, AfterError;
  }

  lemma CallsChangeNoRow(s: State, a: nat, key: int, j: Job, at: At, ev: JobEvent, t: State)
    requires a in s.actors && s.actors[a].Holding? && CallStep(s, a, key, j, at, ev, t)
    ensures t.db == s.db
  {
    hide Attempted, Show, Submitted, SubmittedId, CanSubmit, WithAck, WithCancel, Absent, AfterError;
  }

  lemma WorkersChange(s: State, a: nat, ev: JobEvent, t: State, id: int)
    requires WorkerStep(s, a, ev, t) && id in s.db.jobs
    ensures !CommitsOn(s, JobStep(a, ev), id) ==> SameJob(s, t, id)
    ensures CommitsOn(s, JobStep(a, ev), id) ==>
              var st := CommittedOn(s, JobStep(a, ev), id);
              && HasLive(s, a) && id in t.db.jobs && t.db.BoxOf(id) == BoxAfter(s.db.BoxOf(id), st)
              && t.db.jobs[id] == RowAfter(s.db.jobs[id], s.db.BoxOf(id), st, s.now)
  {
    hide CallStep, WriteStep, RowAfter, BoxAfter, StatementOf;
    if s.actors[a].pc.Working? {
      var key, j, at := s.actors[a].key.id, s.actors[a].pc.job, s.actors[a].pc.at;
      if ev.Write? {
        WriteShows(s, a, key, j, at, ev.commit, t, id);
      } else if !ev.ReadPart? {
        CallsChangeNoRow(s, a, key, j, at, ev, t);
      }
    }
  }

  lemma AdmissionChangesNoRow(e: Env, s: State, a: nat, ev: InboxEvent, t: State, id: int)
    requires ProcessorStep(e, s, a, ev, t) && id in s.db.jobs
    ensures SameJob(s, t, id)
  {
    if ev.Admit? {
      AdmissionKeepsRows(e.bot, s.db, s.actors[a].pc.id, s.actors[a].pc.media, s.now, id);
    }
    hide AdmitTx, IsInboxNext, InboxDrained;
  }

  lemma AdmissionKeepsRows(bot: int, db: Db, u: int, media: Option<Media>, now: int, id: int)
    requires id in db.jobs
    ensures var d := AdmitTx(bot, db, u, media, now);
            id in d.jobs && d.jobs[id] == db.jobs[id] && d.BoxOf(id) == db.BoxOf(id)
  {
  }

  lemma InsertsChangeNoRow(db: Db, records: seq<Record>)
    ensures InsertAll(db, records).jobs == db.jobs && InsertAll(db, records).outbox == db.outbox
  {
    InsertAllEffect(db, records);
  }

  lemma IntakeChangesNoRow(s: State, a: nat, ev: PollerEvent, t: State, id: int)
    requires IntakeStep(s, a, ev, t) && id in s.db.jobs
    ensures SameJob(s, t, id)
  {
    hide InsertAll, AtLeast, NextOffset, IsPendingPrefix;
    if ev.Accept? {
      var records := AtLeast(s.actors[a].pc.batch, s.actors[a].pc.offset);
      InsertsChangeNoRow(s.db, records);
      var d := PersistBatch(s.db, s.actors[a].pc.offset, s.actors[a].pc.batch);
      assert d.jobs == s.db.jobs && d.outbox == s.db.outbox;
      assert t.db == s.db || t.db == d;
    } else {
      assert t.db == s.db;
    }
  }

  lemma LocksChangeNoRow(e: Env, s: State, act: Action, t: State, id: int)
    requires LockStep(e, s, act, t) && id in s.db.jobs
    ensures SameJob(s, t, id)
  {
    hide IsCandidateList, Lock, Unlock, Take, GiveBack, Grants;
  }

  lemma EnvironmentChanges(s: State, act: Action, t: State, id: int)
    requires EnvironmentStep(s, act, t) && id in s.db.jobs
    ensures !CancelHits(s, act, id) ==> SameJob(s, t, id)
    ensures CancelHits(s, act, id) ==>
              && id in t.db.jobs && t.db.jobs[id] == s.db.jobs[id].(cancelRequested := true, nextAttempt := s.now)
              && t.db.BoxOf(id) == s.db.BoxOf(id)
  {
    hide Kill;
  }

  /** A job's row and parts change only by a statement committed by the live holder of its lock, or by a cancel request that
      finds it in poll. */
  lemma RowsChange(e: Env, s: State, act: Action, t: State, id: int)
    requires Next(e, s, act, t) && id in s.db.jobs
    ensures !CommitsOn(s, act, id) && !CancelHits(s, act, id) ==> SameJob(s, t, id)
    ensures CancelHits(s, act, id) ==>
              && id in t.db.jobs && t.db.jobs[id] == s.db.jobs[id].(cancelRequested := true, nextAttempt := s.now)
              && t.db.BoxOf(id) == s.db.BoxOf(id)
    ensures CommitsOn(s, act, id) ==>
              && HasLive(s, act.actor) && id in t.db.jobs && t.db.BoxOf(id) == BoxAfter(s.db.BoxOf(id), CommittedOn(s, act, id))
              && t.db.jobs[id] == RowAfter(s.db.jobs[id], s.db.BoxOf(id), CommittedOn(s, act, id), s.now)
  {
    hide WorkerStep, ProcessorStep, IntakeStep, LockStep, EnvironmentStep, SameJob, RowAfter, BoxAfter, StatementOf;
    match act
    case JobStep(a, ev) => WorkersChange(s, a, ev, t, id);
    case InboxStep(a, ev) => AdmissionChangesNoRow(e, s, a, ev, t, id);
    case PollerStep(a, ev) => IntakeChangesNoRow(s, a, ev, t, id);
    case Scan(_, _, _) => LocksChangeNoRow(e, s, act, t, id);
    case TryLock(_, _, _, _) => LocksChangeNoRow(e, s, act, t, id);
    case Release(_, _) => LocksChangeNoRow(e, s, act, t, id);
    case _ => EnvironmentChanges(s, act, t, id);
  }

  lemma AdmitMakes(e: Env, s: State, a: nat, ev: InboxEvent, t: State, id: int)
    requires ProcessorStep(e, s, a, ev, t) && id in t.db.jobs && id !in s.db.jobs
    ensures ev.Admit? && s.actors[a].pc.InboxCommit? && s.actors[a].pc.id == id && s.actors[a].pc.media.Some?
    ensures t.db.jobs[id] == Job(s.actors[a].pc.media.value, Identity.RequestId(e.bot, id), "", 0, Status, None, false, false, "",
                                 0, s.now, "")
  {
    hide InsertConflicts, IsInboxNext, InboxDrained;
  }

  lemma NoOtherMakes(e: Env, s: State, act: Action, t: State)
    requires Next(e, s, act, t) && !act.InboxStep?
    ensures forall i | i in t.db.jobs :: i in s.db.jobs
  {
    hide WorkerStep, LockStep, EnvironmentStep, IntakeStep;
    match act
    case JobStep(a, ev) => WorkersMakeNone(s, a, ev, t);
    case PollerStep(a, ev) => IntakeMakesNone(s, a, ev, t);
    case Scan(_, _, _) => LocksMakeNone(e, s, act, t);
    case TryLock(_, _, _, _) => LocksMakeNone(e, s, act, t);
    case Release(_, _) => LocksMakeNone(e, s, act, t);
    case _ => EnvironmentMakesNone(s, act, t);
  }

  lemma WorkersMakeNone(s: State, a: nat, ev: JobEvent, t: State)
    requires WorkerStep(s, a, ev, t)
    ensures forall i | i in t.db.jobs :: i in s.db.jobs
  {
    hide CallStep, StatementOf, RowAfter, BoxAfter, Receipted, AfterWrite, AfterError;
    if s.actors[a].pc.Working? && !ev.Write? && !ev.ReadPart? {
      CallsChangeNoRow(s, a, s.actors[a].key.id, s.actors[a].pc.job, s.actors[a].pc.at, ev, t);
    }
  }

  lemma IntakeMakesNone(s: State, a: nat, ev: PollerEvent, t: State)
    requires IntakeStep(s, a, ev, t)
    ensures forall i | i in t.db.jobs :: i in s.db.jobs
  {
    hide InsertAll, AtLeast, NextOffset, IsPendingPrefix;
    if ev.Accept? {
      InsertsChangeNoRow(s.db, AtLeast(s.actors[a].pc.batch, s.actors[a].pc.offset));
    }
  }

  lemma LocksMakeNone(e: Env, s: State, act: Action, t: State)
    requires LockStep(e, s, act, t)
    ensures t.db == s.db
  {
    hide IsCandidateList, Lock, Unlock, Take, GiveBack, Grants;
  }

  lemma EnvironmentMakesNone(s: State, act: Action, t: State)
    requires EnvironmentStep(s, act, t)
    ensures forall i | i in t.db.jobs :: i in s.db.jobs
  {
    hide Kill, Cancelled;
  }

  /** A job appears only when the processor's transaction for its own update commits: with the decided media, the identity of
      the update, due at once, and with nothing else set. */
  lemma JobsAppear(e: Env, s: State, act: Action, t: State, id: int)
    requires Next(e, s, act, t) && id in t.db.jobs && id !in s.db.jobs
    ensures act.InboxStep? && act.inbox.Admit? && act.actor in s.actors && s.actors[act.actor].Holding?
    ensures var pc := s.actors[act.actor].pc;
            && pc.InboxCommit? && pc.id == id && pc.media.Some?
            && t.db.jobs[id] == Job(pc.media.value, Identity.RequestId(e.bot, id), "", 0, Status, None, false, false, "", 0, s.now, "")
  {
    hide ProcessorStep;
    if act.InboxStep? {
      AdmitMakes(e, s, act.actor, act.inbox, t, id);
      StepsHold(e, s, act.actor, act.inbox, t);
    } else {
      NoOtherMakes(e, s, act, t);
    }
  }

  lemma StepsHold(e: Env, s: State, a: nat, ev: InboxEvent, t: State)
    requires ProcessorStep(e, s, a, ev, t)
    ensures a in s.actors && s.actors[a].Holding?
  {
  }

  /** Whoever changes a job's state before it is done makes it due at once, with a clean record. */
  lemma ChangedStateIsDue(e: Env, s: State, act: Action, t: State, id: int)
    requires Next(e, s, act, t) && id in s.db.jobs && id in t.db.jobs
    requires t.db.jobs[id].stage != s.db.jobs[id].stage && t.db.jobs[id].stage != Stage.Done
    ensures t.db.jobs[id].nextAttempt == s.now && t.db.jobs[id].attempts == 0 && t.db.jobs[id].lastError == ""
  {
    RowsChange(e, s, act, t, id);
    hide Next, BoxAfter, AllDelivered;
  }
}
