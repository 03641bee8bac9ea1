/** The environment's steps: time, connections, session death, crashes, Telegram, the cancel button and the backend. */
module EngineEnvironment {
  import opened Updates
  import opened ResultPlan
  import opened Tables
  import opened Locks
  import opened Engine
  import opened EngineInvariant
  import opened EngineStability

  ghost predicate EdgesOnly(s: State, t: State) {
    forall id | id in s.db.jobs && id in t.db.jobs :: Edge(s.db.jobs[id].stage, t.db.jobs[id].stage)
  }

  lemma TickStep(e: Env, s: State, d: nat, t: State)
    requires Inv(e, s) && EnvironmentStep(s, Tick(d), t)
    ensures Inv(e, t) && Evolves(s, t) && EdgesOnly(s, t)
  {
    hide DataOk;
    PoolSame(e, s, t);
    QuietEvolves(s, t);
    QuietData(e, s, t);
    StepByNobody(e, s, t);
  }

  lemma PoolSame(e: Env, s: State, t: State)
    requires PoolOk(e, s) && t.pool == s.pool && t.actors == s.actors
    ensures PoolOk(e, t)
  {
    assert ClaimsOf(e, t) == ClaimsOf(e, s);
  }

  lemma ConnectStep(e: Env, s: State, t: State)
    requires Inv(e, s) && EnvironmentStep(s, Action.Connect, t)
    ensures Inv(e, t) && Evolves(s, t) && EdgesOnly(s, t)
  {
    hide DataOk;
    assert ClaimsOf(e, t) == ClaimsOf(e, s);
    ConnectSound(s.pool, ClaimsOf(e, s));
    assert PoolOk(e, t);
    QuietEvolves(s, t);
    QuietData(e, s, t);
    StepByNobody(e, s, t);
  }

  lemma DieStep(e: Env, s: State, session: nat, t: State)
    requires Inv(e, s) && EnvironmentStep(s, Die(session), t)
    ensures Inv(e, t) && Evolves(s, t) && EdgesOnly(s, t)
  {
    hide DataOk;
    assert ClaimsOf(e, t) == ClaimsOf(e, s);
    KillSound(s.pool, ClaimsOf(e, s), session);
    assert PoolOk(e, t);
    QuietEvolves(s, t);
    QuietData(e, s, t);
    StepByNobody(e, s, t);
  }

  lemma DropPool(e: Env, s: State, t: State, a: nat)
    requires PoolOk(e, s) && t.pool == s.pool && t.actors == s.actors - {a}
    ensures PoolOk(e, t)
  {
    assert ClaimsOf(e, t) == ClaimsOf(e, s) - {a};
    DropSound(s.pool, ClaimsOf(e, s), a);
  }

  lemma CrashStep(e: Env, s: State, a: nat, t: State)
    requires Inv(e, s) && EnvironmentStep(s, Crash(a), t)
    ensures Inv(e, t) && Evolves(s, t) && EdgesOnly(s, t)
  {
    DropPool(e, s, t, a);
    hide DataOk, PoolOk;
    QuietStep(e, s, t, a);
  }

  lemma ProduceKeepsIntake(s: State, id: int, u: Update, t: State)
    requires InboxOk(s.db) && TelegramOk(s) && EnvironmentStep(s, Produce(id, u), t)
    ensures TelegramOk(t) && TelegramEvolves(s.telegram, t.telegram) && t == s.(telegram := t.telegram)
  {
    assert id >= s.db.cursor;
  }

  lemma ProduceGlue(e: Env, s: State, t: State)
    requires DataOk(e, s) && TelegramOk(t) && TelegramEvolves(s.telegram, t.telegram) && t == s.(telegram := t.telegram)
    ensures DataOk(e, t) && Evolves(s, t) && EdgesOnly(s, t) && forall key :: Untouched(s, t, key)
  {
    hide TelegramOk, TelegramEvolves, Fifo, InboxOk, JobOk, LedgerRowOk;
    BackendFollowsRows(s, t);
    hide BackendOk;
  }

  lemma ProduceStep(e: Env, s: State, id: int, u: Update, t: State)
    requires Inv(e, s) && EnvironmentStep(s, Produce(id, u), t)
    ensures Inv(e, t) && Evolves(s, t) && EdgesOnly(s, t)
  {
    hide *;
    InvParts(e, s);
    ProduceKeepsIntake(s, id, u, t);
    PoolSame(e, s, t);
    ProduceGlue(e, s, t);
    StepByNobody(e, s, t);
  }

  lemma CancelledRow(k: Backend, l: Ledger, id: int, row: Job, box: Box, b: string, chat: int, now: int)
    requires JobOk(k, id, row, box) && LedgerRowOk(l, id, row, box)
    ensures var row' := Cancelled(row, b, chat, now);
            && JobOk(k, id, row', box) && LedgerRowOk(l, id, row', box)
            && RowEvolves(row, row') && row'.stage == row.stage
  {
    hide BoxMatches;
  }

  lemma CancelRows(e: Env, s: State, b: string, chat: int, t: State)
    requires DataOk(e, s) && EnvironmentStep(s, RequestCancel(b, chat), t)
    ensures JobsOk(e, t) && LedgerOk(t) && JobsEvolve(s.db, t.db)
  {
    hide JobOk, LedgerRowOk, RowEvolves, BackendOk, Fifo, InboxOk, TelegramOk;
    forall id | id in s.db.jobs
      ensures JobOk(t.backend, id, t.db.jobs[id], t.db.BoxOf(id)) && LedgerRowOk(t.ledger, id, t.db.jobs[id], t.db.BoxOf(id))
      ensures RowEvolves(s.db.jobs[id], t.db.jobs[id]) && BoxEvolves(s.db.BoxOf(id), t.db.BoxOf(id))
    {
      CancelledRow(s.backend, s.ledger, id, s.db.jobs[id], s.db.BoxOf(id), b, chat, s.now);
    }
  }

  lemma CancelGlue(e: Env, s: State, b: string, chat: int, t: State)
    requires EnvironmentStep(s, RequestCancel(b, chat), t) && JobsEvolve(s.db, t.db)
    ensures Evolves(s, t) && EdgesOnly(s, t) && forall key :: Untouched(s, t, key)
  {
    hide JobsEvolve;
  }

  lemma CancelKeepsFifo(s: State, b: string, chat: int, t: State)
    requires Fifo(s.db) && EnvironmentStep(s, RequestCancel(b, chat), t)
    ensures Fifo(t.db)
  {
    forall i, j | i in t.db.jobs && j in t.db.jobs && i < j
      ensures FifoPair(t.db.jobs[i], t.db.jobs[j])
    {
      assert FifoPair(s.db.jobs[i], s.db.jobs[j]);
    }
  }

  lemma CancelKeepsIntake(s: State, b: string, chat: int, t: State)
    requires InboxOk(s.db) && TelegramOk(s) && EnvironmentStep(s, RequestCancel(b, chat), t)
    ensures InboxOk(t.db) && TelegramOk(t) && t.pool == s.pool && t.actors == s.actors && t.backend == s.backend
  {
  }

  lemma RequestCancelStep(e: Env, s: State, b: string, chat: int, t: State)
    requires Inv(e, s) && EnvironmentStep(s, RequestCancel(b, chat), t)
    ensures Inv(e, t) && Evolves(s, t) && EdgesOnly(s, t)
  {
    hide *;
    InvParts(e, s);
    CancelKeepsIntake(s, b, chat, t);
    PoolSame(e, s, t);
    CancelRows(e, s, b, chat, t);
    BackendFollowsRows(s, t);
    CancelKeepsFifo(s, b, chat, t);
    CancelGlue(e, s, b, chat, t);
    DataParts(e, t);
    StepByNobody(e, s, t);
  }

  // The backend marks one of its jobs.
  ghost predicate Marks(s: State, b: string, t: State) {
    && b in s.backend.jobs && t.backend.jobs.Keys == s.backend.jobs.Keys
    && BackendJobEvolves(s.backend.jobs[b], t.backend.jobs[b])
    && t == s.(backend := s.backend.(jobs := s.backend.jobs[b := t.backend.jobs[b]]))
    && (t.backend.jobs[b].acked ==> s.backend.jobs[b].acked)
    && (t.backend.jobs[b].purged ==> t.backend.jobs[b].acked)
  }

  lemma MarkedJob(s: State, b: string, t: State, w: string)
    requires Marks(s, b, t) && BackendJobOk(s, w)
    ensures BackendJobOk(t, w)
  {
  }

  lemma MarkData(e: Env, s: State, b: string, t: State)
    requires BackendOk(s) && Marks(s, b, t)
    ensures BackendOk(t) && BackendEvolves(s.backend, t.backend)
  {
    forall w | w in t.backend.jobs
      ensures BackendJobOk(t, w)
    {
      MarkedJob(s, b, t, w);
    }
  }

  lemma MarkStep(e: Env, s: State, b: string, t: State)
    requires Inv(e, s) && Marks(s, b, t)
    requires t == s.(backend := t.backend)
    ensures Inv(e, t) && Evolves(s, t) && EdgesOnly(s, t)
  {
    hide *;
    InvParts(e, s);
    PoolSame(e, s, t);
    MarkData(e, s, b, t);
    JobsFollowBackend(e, s, t);
    SameRowsUntouched(s, t);
    FinishBackendStep(e, s, t);
    StepByNobody(e, s, t);
  }

  lemma FinishBackendStep(e: Env, s: State, t: State)
    requires JobsOk(e, t) && LedgerOk(s) && BackendOk(t) && Fifo(s.db) && InboxOk(s.db) && TelegramOk(s)
    requires t == s.(backend := t.backend) && JobsEvolve(s.db, t.db) && InboxEvolves(s.db, t.db) && BackendEvolves(s.backend, t.backend)
    ensures DataOk(e, t) && Evolves(s, t) && EdgesOnly(s, t)
  {
    hide JobsOk, BackendOk, JobsEvolve, BackendEvolves, Fifo;
  }

  lemma FinishStep(e: Env, s: State, b: string, r: JobResult, t: State)
    requires BackendOk(s) && EnvironmentStep(s, Finish(b, r), t)
    ensures Marks(s, b, t) && t == s.(backend := t.backend)
  {
    assert BackendJobOk(s, b);
  }

  lemma PurgeStep(s: State, b: string, t: State)
    requires EnvironmentStep(s, Purge(b), t)
    ensures Marks(s, b, t) && t == s.(backend := t.backend)
  {
  }

  lemma NotEnvironment(s: State, act: Action, t: State)
    requires EnvironmentStep(s, act, t)
    ensures act.Tick? || act.Connect? || act.Die? || act.Crash? || act.Produce? || act.RequestCancel? || act.Finish? || act.Purge?
  {
  }

  /** Time, faults, Telegram, the cancel button and the backend keep the invariant. */
  lemma EnvironmentKeeps(e: Env, s: State, act: Action, t: State)
    requires Inv(e, s) && EnvironmentStep(s, act, t)
    ensures Inv(e, t) && Evolves(s, t) && EdgesOnly(s, t)
  {
    hide Inv, Evolves, EdgesOnly, Marks, EnvironmentStep;
    match act
    case Tick(d) => TickStep(e, s, d, t);
    case Connect => ConnectStep(e, s, t);
    case Die(session) => DieStep(e, s, session, t);
    case Crash(a) => CrashStep(e, s, a, t);
    case Produce(id, u) => ProduceStep(e, s, id, u, t);
    case RequestCancel(b, chat) => RequestCancelStep(e, s, b, chat, t);
    case Finish(b, r) =>
      InvParts(e, s);
      FinishStep(e, s, b, r, t);
      MarkStep(e, s, b, t);
    case Purge(b) =>
      PurgeStep(s, b, t);
      MarkStep(e, s, b, t);
    case _ => NotEnvironment(s, act, t);
  }
}
