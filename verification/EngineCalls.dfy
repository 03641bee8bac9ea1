/** Reading a job under its lock, the external calls of a stage, and the stage worker's steps put together. */
module EngineCalls {
  import opened Options
  import opened ResultPlan
  import opened Tables
  import opened Engine
  import opened EngineInvariant
  import opened EngineStability
  import opened EngineEnvironment
  import opened EngineClaims
  import opened EngineWrites
  import Identity
  import Backoff

  // ----- reading under the lock -----

  lemma SnapshotLasts(s: State, id: int, stage: Stage)
    requires CandidateOk(s.db, stage, id) && s.db.jobs[id].stage == stage && stage != Stage.Done
    requires s.db.jobs[id].nextAttempt <= s.now
    requires JobOk(s.backend, id, s.db.jobs[id], s.db.BoxOf(id))
    ensures var j := s.db.jobs[id]; Lasting(s, id, j, FirstAt(j))
  {
    hide BoxMatches, Unblocked;
  }

  lemma SnapshotIsOk(e: Env, s: State, id: int, stage: Stage)
    requires JobsOk(e, s) && LedgerOk(s) && CandidateOk(s.db, stage, id) && s.db.jobs[id].stage == stage && stage != Stage.Done
    requires s.db.jobs[id].nextAttempt <= s.now
    ensures var j := s.db.jobs[id];
            Lasting(s, id, j, FirstAt(j)) && Fenced(s, id, j, FirstAt(j))
  {
    hide JobOk, BoxMatches, IdentitiesMatch, Lasting;
    assert JobOk(s.backend, id, s.db.jobs[id], s.db.BoxOf(id)) && LedgerRowOk(s.ledger, id, s.db.jobs[id], s.db.BoxOf(id));
    SnapshotLasts(s, id, stage);
  }

  lemma ReadIsOk(e: Env, s: State, a: nat, id: int, stage: Stage, rest: seq<int>, ok: bool, t: State)
    requires JobsOk(e, s) && LedgerOk(s) && a in s.actors && s.actors[a].Holding? && s.actors[a].key == JobKey(id)
    requires s.actors[a].pc == Reading(stage, rest) && ActorOk(s, a) && ReadStep(s, a, id, stage, rest, ok, t)
    ensures exists pc :: t == Move(s, a, pc) && PcOk(s, JobKey(id), pc, HasLive(s, a))
  {
    hide JobsOk, LedgerOk, Lasting, Fenced, CandidateOk;
    assert ([id] + rest)[0] == id && ([id] + rest)[1..] == rest;
    assert CandidatesOk(s.db, stage, [id] + rest);
    assert CandidateOk(s.db, stage, id);
    if !ok {
      assert t == Move(s, a, Leaving(None));
    } else {
      var j := s.db.jobs[id];
      if j.stage != stage || j.nextAttempt > s.now || stage == Stage.Done {
        TailIsOk(s.db, stage, [id] + rest);
        assert t == Move(s, a, Leaving(Some((stage, rest))));
      } else {
        SnapshotIsOk(e, s, id, stage);
        assert t == Move(s, a, Working(j, FirstAt(j)));
      }
    }
  }

  lemma ReadingStep(e: Env, s: State, a: nat, id: int, stage: Stage, rest: seq<int>, ok: bool, t: State)
    requires Inv(e, s) && a in s.actors && s.actors[a].Holding? && s.actors[a].key == JobKey(id)
    requires s.actors[a].pc == Reading(stage, rest) && ReadStep(s, a, id, stage, rest, ok, t)
    ensures Inv(e, t) && Evolves(s, t) && EdgesOnly(s, t)
  {
    assert ActorOk(s, a);
    InvParts(e, s);
    hide *;
    ReadIsOk(e, s, a, id, stage, rest, ok, t);
    var pc :| t == Move(s, a, pc) && PcOk(s, JobKey(id), pc, HasLive(s, a));
    MoveStep(e, s, a, pc);
  }

  // ----- positions after a call -----

  // Moving within a stage to a point that asks nothing more, from one where the snapshot still is the row.
  lemma PlainMove(s: State, id: int, j: Job, at: At, at': At, live: bool)
    requires Lasting(s, id, j, at) && (live ==> Fenced(s, id, j, at)) && AtFits(j, at')
    requires PastCancel(j, at') ==> PastCancel(j, at)
    requires !at'.SubmittedWrite? && !at'.AckWrite? && !at'.PartSend? && !at'.PartWrite? && !at'.ResultWrite?
    requires !Settled(at) && (Uploading(j, at') ==> Uploading(j, at))
    requires OwnAckPossible(j, at) ==> OwnAckPossible(j, at')
    requires at.ScheduleWrite? || at.Failing? ==> at'.ScheduleWrite? || at'.Failing?
    ensures PcOk(s, JobKey(id), Working(j, at'), live)
  {
    LastingMoves(s, id, j, at, at');
    hide Lasting;
  }

  lemma ErrorIsOk(s: State, id: int, j: Job, at: At, live: bool)
    requires Lasting(s, id, j, at) && (live ==> Fenced(s, id, j, at)) && !at.Failing? && !at.Stopping?
    ensures PcOk(s, JobKey(id), AfterError(j, at), live)
  {
    hide Lasting, Fenced;
    LastingFits(s, id, j, at);
    if !at.ScheduleWrite? || at.code == "" {
      PlainMove(s, id, j, at, if j.stage == Upload then Stopping(Fail) else Failing, live);
    }
  }

  lemma LastingFits(s: State, id: int, j: Job, at: At)
    requires Lasting(s, id, j, at)
    ensures AtFits(j, at) && id in s.db.jobs
  {
  }

  // ----- the data a call changes -----

  /** A step that changes data and then moves the actor that made it. */
  lemma DataThenMove(e: Env, s: State, a: nat, u: State, pc: PC)
    requires Inv(e, s) && DataOk(e, u) && Evolves(s, u) && EdgesOnly(s, u) && Disturbs(s, u, a)
    requires u.pool == s.pool && u.actors == s.actors && a in s.actors && s.actors[a].Holding?
    requires PcOk(u, s.actors[a].key, pc, HasLive(s, a))
    ensures var t := Move(u, a, pc); Inv(e, t) && Evolves(s, t) && EdgesOnly(s, t)
  {
    var t := Move(u, a, pc);
    hide *;
    InvParts(e, s);
    PoolSame(e, s, u);
    MovePool(e, u, a, pc, u.pool);
    SameLive(s, u, a);
    MovedIsOk(u, a, pc);
    QuietData(e, u, t);
    SameDataLater(s, u, t);
    DisturbsSame(s, u, t, a);
    StepByOneActor(e, s, t, a);
  }

  lemma SameLive(s: State, u: State, a: nat)
    requires u.pool == s.pool && u.actors == s.actors
    ensures HasLive(u, a) == HasLive(s, a)
  {
  }

  lemma DisturbsSame(s: State, u: State, t: State, a: nat)
    requires Disturbs(s, u, a) && SameData(u, t) && u.now <= t.now
    ensures Disturbs(s, t, a)
  {
    forall key
      ensures Untouched(s, t, key) || (HasLive(s, a) && s.actors[a].key == key)
    {
      if Untouched(s, u, key) {
        UntouchedSame(s, u, t, key);
      }
    }
  }

  // A new history that keeps the receipts; shown may change for job id.
  ghost predicate LedgerMoves(s: State, id: int, l: Ledger) {
    && l.receipts == s.ledger.receipts
    && (forall slot :: Count(l.effects, slot) <= Count(l.attempts, slot))
    && (forall i | i != id :: ShownStage(l, i) == ShownStage(s.ledger, i) && (i in l.shown ==> i in s.ledger.shown))
    && id in s.db.jobs && ShownStage(l, id).Rank() <= s.db.jobs[id].stage.Rank()
  }

  lemma LedgerRows(s: State, id: int, l: Ledger)
    requires LedgerOk(s) && LedgerMoves(s, id, l)
    ensures LedgerOk(s.(ledger := l))
    ensures forall key | key != JobKey(id) :: Untouched(s, s.(ledger := l), key)
  {
    forall i | i in s.db.jobs
      ensures LedgerRowOk(l, i, s.db.jobs[i], s.db.BoxOf(i))
    {
      assert LedgerRowOk(s.ledger, i, s.db.jobs[i], s.db.BoxOf(i));
    }
  }

  lemma SameRows(s: State, u: State)
    requires u == s.(ledger := u.ledger)
    ensures JobsEvolve(s.db, u.db) && InboxEvolves(s.db, u.db) && BackendEvolves(s.backend, u.backend) && EdgesOnly(s, u)
    ensures TelegramOk(s) ==> TelegramOk(u)
  {
  }

  lemma LedgerData(e: Env, s: State, id: int, l: Ledger)
    requires DataOk(e, s) && LedgerMoves(s, id, l)
    ensures var u := s.(ledger := l);
            && DataOk(e, u) && Evolves(s, u) && EdgesOnly(s, u)
            && forall key | key != JobKey(id) :: Untouched(s, u, key)
  {
    var u := s.(ledger := l);
    assert JobsOk(e, s) && LedgerOk(s) && BackendOk(s) && TelegramOk(s) && InboxOk(s.db) && Fifo(s.db);
    hide *;
    SameRows(s, u);
    LedgerRows(s, id, l);
    BackendFollowsRows(s, u);
    JobsFollowBackend(e, s, u);
    DataParts(e, u);
    TablesEvolve(s, u);
  }

  lemma AttemptedMoves(s: State, id: int, slot: Slot, effect: bool)
    requires LedgerOk(s) && id in s.db.jobs
    ensures LedgerMoves(s, id, Attempted(s.ledger, slot, effect))
    ensures Attempted(s.ledger, slot, effect).shown == s.ledger.shown
  {
    assert LedgerRowOk(s.ledger, id, s.db.jobs[id], s.db.BoxOf(id));
    hide LedgerRowOk;
    forall x: Slot
      ensures Count(Attempted(s.ledger, slot, effect).effects, x) <= Count(Attempted(s.ledger, slot, effect).attempts, x)
    {
      assert Count(s.ledger.effects, x) <= Count(s.ledger.attempts, x);
    }
  }

  lemma ShowMoves(s: State, a: nat, id: int, stage: Stage)
    requires LedgerOk(s) && id in s.db.jobs && stage.Rank() <= s.db.jobs[id].stage.Rank()
    ensures LedgerMoves(s, id, Show(s, a, id, stage))
  {
    assert LedgerRowOk(s.ledger, id, s.db.jobs[id], s.db.BoxOf(id));
    hide LedgerRowOk;
  }

  /** A Telegram call: only the history changes, and only the caller's job can show something new. */
  lemma LedgerStep(e: Env, s: State, a: nat, id: int, l: Ledger, pc: PC)
    requires Inv(e, s) && a in s.actors && s.actors[a].Holding? && s.actors[a].key == JobKey(id) && LedgerMoves(s, id, l)
    requires HasLive(s, a) || ShownStage(l, id) == ShownStage(s.ledger, id)
    requires PcOk(s.(ledger := l), JobKey(id), pc, HasLive(s, a))
    ensures var t := Move(s.(ledger := l), a, pc); Inv(e, t) && Evolves(s, t) && EdgesOnly(s, t)
  {
    var u := s.(ledger := l);
    assert Untouched(s, u, JobKey(id)) || HasLive(s, a);
    hide LedgerMoves, Inv, HasLive, PcOk, Untouched, DataOk, Evolves, EdgesOnly;
    InvParts(e, s);
    LedgerData(e, s, id, l);
    assert Disturbs(s, u, a);
    DataThenMove(e, s, a, u, pc);
  }

  lemma BackendStep(e: Env, s: State, a: nat, k: Backend, pc: PC)
    requires Inv(e, s) && a in s.actors && s.actors[a].Holding?
    requires BackendEvolves(s.backend, k) && BackendOk(s.(backend := k))
    requires PcOk(s.(backend := k), s.actors[a].key, pc, HasLive(s, a))
    ensures var t := Move(s.(backend := k), a, pc); Inv(e, t) && Evolves(s, t) && EdgesOnly(s, t)
  {
    var u := s.(backend := k);
    hide Inv, HasLive, PcOk, Untouched, DataOk, Evolves, EdgesOnly, BackendEvolves, BackendOk, JobsOk, LedgerOk, Fifo, InboxOk, TelegramOk;
    InvParts(e, s);
    JobsFollowBackend(e, s, u);
    SameRowsUntouched(s, u);
    FinishBackendStep(e, s, u);
    assert Disturbs(s, u, a);
    DataThenMove(e, s, a, u, pc);
  }

  // ----- Submit, Cancel and Ack at the backend -----

  /** One backend job per durable job: a request id already seen gives back the job made for the same update. */
  lemma KnownRequest(e: Env, s: State, id: int, j: Job, at: At)
    requires JobsOk(e, s) && BackendOk(s) && Lasting(s, id, j, at) && j.requestId in s.backend.requests
    ensures var b := s.backend.requests[j.requestId];
            && b != "" && OwnBackendJob(s.backend, id, b)
            && var w := s.backend.jobs[b];
            w.file == j.media.file && w.format == j.media.format && w.preset == j.media.preset
  {
    hide JobOk, Unblocked, LowerDelivered;
    var b := s.backend.requests[j.requestId];
    assert BackendJobOk(s, b);
    Identity.RequestIdIsInjective(e.bot, s.backend.jobs[b].origin, e.bot, id);
  }

  lemma NewBackendJob(s: State, id: int, j: Job, newId: string, b: string)
    requires b in s.backend.jobs ==> BackendJobOk(s, b)
    requires id in s.db.jobs && s.db.jobs[id].media == j.media && s.db.jobs[id].requestId == j.requestId
    requires CanSubmit(s.backend, j, newId) && j.requestId !in s.backend.requests
    ensures BackendJobOk(s.(backend := Submitted(s.backend, j, id, newId)), b)
  {
  }

  lemma NewRequestEvolves(k: Backend, j: Job, id: int, newId: string)
    requires CanSubmit(k, j, newId) && j.requestId !in k.requests
    ensures var k' := Submitted(k, j, id, newId);
            && BackendEvolves(k, k') && OwnBackendJob(k', id, newId) && k'.jobs[newId].requestId == j.requestId
            && k'.jobs.Keys == k.jobs.Keys + {newId} && k'.requests == k.requests[j.requestId := newId]
  {
  }

  lemma NewRequest(s: State, id: int, j: Job, newId: string)
    requires BackendOk(s) && CanSubmit(s.backend, j, newId) && j.requestId !in s.backend.requests
    requires id in s.db.jobs && s.db.jobs[id].media == j.media && s.db.jobs[id].requestId == j.requestId
    ensures var k := Submitted(s.backend, j, id, newId);
            BackendEvolves(s.backend, k) && BackendOk(s.(backend := k)) && OwnBackendJob(k, id, newId)
  {
    var u := s.(backend := Submitted(s.backend, j, id, newId));
    hide Submitted, CanSubmit, BackendJobOk;
    NewRequestEvolves(s.backend, j, id, newId);
    forall b | b in u.backend.jobs
      ensures BackendJobOk(u, b)
    {
      NewBackendJob(s, id, j, newId, b);
    }
    forall r | r in u.backend.requests
      ensures u.backend.requests[r] in u.backend.jobs && u.backend.jobs[u.backend.requests[r]].requestId == r
    {
      if r != j.requestId {
        assert BackendJobEvolves(s.backend.jobs[s.backend.requests[r]], u.backend.jobs[s.backend.requests[r]]);
      }
    }
  }

  /** Submitting, once or again, leaves the backend with exactly the job this durable job names. */
  lemma SubmitIsOk(e: Env, s: State, id: int, j: Job, at: At, newId: string)
    requires JobsOk(e, s) && BackendOk(s) && Lasting(s, id, j, at) && CanSubmit(s.backend, j, newId)
    ensures var k, b := Submitted(s.backend, j, id, newId), SubmittedId(s.backend, j, newId);
            BackendEvolves(s.backend, k) && BackendOk(s.(backend := k)) && b != "" && OwnBackendJob(k, id, b)
  {
    if j.requestId in s.backend.requests {
      hide JobsOk, BackendOk, Lasting, OwnBackendJob;
      KnownRequest(e, s, id, j, at);
      assert s.(backend := s.backend) == s;
    } else {
      hide JobsOk, BackendOk, OwnBackendJob, Unblocked;
      NewRequest(s, id, j, newId);
    }
  }

  lemma CancelMark(s: State, b: string)
    requires b in s.backend.jobs && BackendJobOk(s, b)
    ensures var k := WithCancel(s.backend, b);
            Marks(s, b, s.(backend := k)) && b in k.jobs && k.jobs[b].cancelled
  {
  }

  lemma PollTarget(e: Env, s: State, id: int, j: Job, at: At)
    requires JobsOk(e, s) && BackendOk(s) && Lasting(s, id, j, at) && j.stage == Poll
    ensures OwnBackendJob(s.backend, id, j.jobId) && BackendJobOk(s, j.jobId)
  {
    hide Unblocked, BoxMatches, IdentitiesMatch, BackendJobOk;
    assert JobOk(s.backend, id, s.db.jobs[id], s.db.BoxOf(id));
  }

  lemma CancelIsOk(e: Env, s: State, id: int, j: Job, at: At)
    requires JobsOk(e, s) && BackendOk(s) && Lasting(s, id, j, at) && at.PollCancel?
    ensures var k := WithCancel(s.backend, j.jobId);
            BackendEvolves(s.backend, k) && BackendOk(s.(backend := k)) && j.jobId in k.jobs && k.jobs[j.jobId].cancelled
  {
    LastingFits(s, id, j, at);
    PollTarget(e, s, id, j, at);
    hide JobsOk, BackendOk, Lasting, BackendJobOk, Marks, WithCancel, BackendEvolves;
    CancelMark(s, j.jobId);
    MarkData(e, s, j.jobId, s.(backend := WithCancel(s.backend, j.jobId)));
  }

  // A worker past its snapshot in deliver acknowledges a backend job whose result is stored.
  lemma AckTarget(e: Env, s: State, id: int, j: Job, at: At)
    requires JobsOk(e, s) && Lasting(s, id, j, at) && at.AckCall?
    ensures j.jobId != "" && OwnBackendJob(s.backend, id, j.jobId)
    ensures s.db.jobs[id].jobId == j.jobId && s.db.jobs[id].stage.Rank() >= 3
  {
    hide Unblocked, BoxMatches, IdentitiesMatch;
    assert JobOk(s.backend, id, s.db.jobs[id], s.db.BoxOf(id));
  }

  lemma AckedJob(s: State, id: int, acked: string, b: string)
    requires BackendJobOk(s, b) && OwnBackendJob(s.backend, id, acked) && id in s.db.jobs
    requires s.db.jobs[id].jobId == acked && s.db.jobs[id].stage.Rank() >= 3
    ensures BackendJobOk(s.(backend := WithAck(s.backend, acked)), b)
  {
  }

  lemma AckMark(s: State, id: int, b: string)
    requires BackendOk(s) && OwnBackendJob(s.backend, id, b) && id in s.db.jobs
    requires s.db.jobs[id].jobId == b && s.db.jobs[id].stage.Rank() >= 3
    ensures var k := WithAck(s.backend, b);
            BackendEvolves(s.backend, k) && BackendOk(s.(backend := k)) && b in k.jobs && k.jobs[b].acked
    ensures Absent(s.backend, b) ==> s.backend.jobs[b].acked
  {
    var u := s.(backend := WithAck(s.backend, b));
    assert BackendJobOk(s, b);
    assert BackendEvolves(s.backend, u.backend);
    forall w | w in u.backend.jobs
      ensures BackendJobOk(u, w)
    {
      assert BackendJobOk(s, w);
      AckedJob(s, id, b, w);
    }
    hide BackendJobOk, BackendEvolves;
  }

  lemma AckIsOk(e: Env, s: State, id: int, j: Job, at: At)
    requires JobsOk(e, s) && BackendOk(s) && Lasting(s, id, j, at) && at.AckCall?
    ensures var k := WithAck(s.backend, j.jobId);
            BackendEvolves(s.backend, k) && BackendOk(s.(backend := k)) && j.jobId in k.jobs && k.jobs[j.jobId].acked
    ensures OwnBackendJob(s.backend, id, j.jobId) && (Absent(s.backend, j.jobId) ==> s.backend.jobs[j.jobId].acked)
  {
    AckTarget(e, s, id, j, at);
    LastingFits(s, id, j, at);
    hide JobsOk, BackendOk, Lasting, WithAck, BackendEvolves, Absent;
    AckMark(s, id, j.jobId);
  }

  // ----- the caller's new position, call by call -----

  ghost predicate AtWork(e: Env, s: State, a: nat, id: int, j: Job, at: At) {
    && a in s.actors && s.actors[a].Holding? && s.actors[a].key == JobKey(id) && s.actors[a].pc == Working(j, at)
    && JobsOk(e, s) && LedgerOk(s) && BackendOk(s)
    && Lasting(s, id, j, at) && (HasLive(s, a) ==> Fenced(s, id, j, at))
  }

  lemma WorkerFacts(e: Env, s: State, a: nat, id: int, j: Job, at: At)
    requires Inv(e, s)
    requires a in s.actors && s.actors[a].Holding? && s.actors[a].key == JobKey(id) && s.actors[a].pc == Working(j, at)
    ensures AtWork(e, s, a, id, j, at)
  {
    assert ActorOk(s, a);
    InvParts(e, s);
    hide DataOk, PoolOk, JobsOk, LedgerOk, BackendOk, Lasting, Fenced;
  }

  // The position depends on the history only through what an upload may still show.
  lemma PcFollowsLedger(s: State, l: Ledger, id: int, pc: PC, live: bool)
    requires PcOk(s, JobKey(id), pc, live)
    requires live && pc.Working? && Uploading(pc.job, pc.at) ==> ShownStage(l, id).Rank() <= 1
    ensures PcOk(s.(ledger := l), JobKey(id), pc, live)
  {
  }

  lemma StatusCall(e: Env, s: State, a: nat, id: int, j: Job, at: At, effect: bool, reply: Option<int>, t: State)
    returns (l: Ledger, pc: PC)
    requires AtWork(e, s, a, id, j, at) && CallStep(s, a, id, j, at, SendStatus(effect, reply), t)
    ensures t == Move(s.(ledger := l), a, pc) && LedgerMoves(s, id, l) && ShownStage(l, id) == ShownStage(s.ledger, id)
    ensures PcOk(s.(ledger := l), JobKey(id), pc, HasLive(s, a))
  {
    hide JobsOk, BackendOk, LedgerOk, Lasting, Fenced, CallStep, LedgerMoves, Attempted;
    StatusShape(s, a, id, j, at, effect, reply, t);
    l := Attempted(s.ledger, StatusSlot(id), effect);
    LastingFits(s, id, j, at);
    AttemptedMoves(s, id, StatusSlot(id), effect);
    pc := StatusPc(s, id, j, at, reply, HasLive(s, a));
    SameShown(s.ledger, l, id);
    PcFollowsLedger(s, l, id, pc, HasLive(s, a));
  }

  lemma SameShown(l: Ledger, l': Ledger, id: int)
    requires l'.shown == l.shown
    ensures ShownStage(l', id) == ShownStage(l, id)
  {
  }

  lemma StatusShape(s: State, a: nat, id: int, j: Job, at: At, effect: bool, reply: Option<int>, t: State)
    requires a in s.actors && s.actors[a].Holding? && CallStep(s, a, id, j, at, SendStatus(effect, reply), t)
    ensures at.StatusSend?
    ensures var pc := if reply.Some? then Working(j, StatusWrite(reply.value)) else AfterError(j, at);
            t == Move(s.(ledger := Attempted(s.ledger, StatusSlot(id), effect)), a, pc)
  {
    hide Attempted, AfterError;
  }

  lemma StatusPc(s: State, id: int, j: Job, at: At, reply: Option<int>, live: bool) returns (pc: PC)
    requires Lasting(s, id, j, at) && (live ==> Fenced(s, id, j, at)) && at.StatusSend?
    ensures pc == if reply.Some? then Working(j, StatusWrite(reply.value)) else AfterError(j, at)
    ensures PcOk(s, JobKey(id), pc, live) && (pc.Working? ==> !Uploading(pc.job, pc.at))
  {
    LastingFits(s, id, j, at);
    hide Lasting, Fenced, PcOk;
    pc := if reply.Some? then Working(j, StatusWrite(reply.value)) else AfterError(j, at);
    if reply.Some? {
      PlainMove(s, id, j, at, StatusWrite(reply.value), live);
    } else {
      ErrorIsOk(s, id, j, at, live);
    }
  }

  lemma PartPc(s: State, id: int, j: Job, at: At, reply: Option<int>, live: bool) returns (pc: PC)
    requires Lasting(s, id, j, at) && (live ==> Fenced(s, id, j, at)) && at.PartSend?
    ensures pc == if reply.Some? then Working(j, PartWrite(at.part, reply.value, at.ackFailed)) else AfterError(j, at)
    ensures PcOk(s, JobKey(id), pc, live) && (pc.Working? ==> !Uploading(pc.job, pc.at))
  {
    LastingFits(s, id, j, at);
    hide Lasting, Fenced;
    pc := if reply.Some? then Working(j, PartWrite(at.part, reply.value, at.ackFailed)) else AfterError(j, at);
    if reply.Some? {
      SentIsOk(s, id, j, at, reply.value, live);
    } else {
      ErrorIsOk(s, id, j, at, live);
    }
  }

  lemma PartShape(s: State, a: nat, id: int, j: Job, at: At, effect: bool, reply: Option<int>, t: State)
    requires a in s.actors && s.actors[a].Holding? && CallStep(s, a, id, j, at, SendPart(effect, reply), t)
    ensures at.PartSend?
    ensures var pc := if reply.Some? then Working(j, PartWrite(at.part, reply.value, at.ackFailed)) else AfterError(j, at);
            t == Move(s.(ledger := Attempted(Show(s, a, id, Deliver), PartSlot(id, at.part), effect)), a, pc)
  {
    hide Attempted, Show, AfterError;
  }

  lemma PartCall(e: Env, s: State, a: nat, id: int, j: Job, at: At, effect: bool, reply: Option<int>, t: State)
    returns (l: Ledger, pc: PC)
    requires AtWork(e, s, a, id, j, at) && CallStep(s, a, id, j, at, SendPart(effect, reply), t)
    ensures t == Move(s.(ledger := l), a, pc) && LedgerMoves(s, id, l)
    ensures HasLive(s, a) || ShownStage(l, id) == ShownStage(s.ledger, id)
    ensures PcOk(s.(ledger := l), JobKey(id), pc, HasLive(s, a))
  {
    hide JobsOk, BackendOk, LedgerOk, Lasting, Fenced, CallStep, LedgerMoves, Attempted, Show;
    PartShape(s, a, id, j, at, effect, reply, t);
    LastingStage(s, id, j, at);
    l := Attempted(Show(s, a, id, Deliver), PartSlot(id, at.part), effect);
    ShowThenAttempt(s, a, id, at.part, effect);
    pc := PartPc(s, id, j, at, reply, HasLive(s, a));
    PcFollowsLedger(s, l, id, pc, HasLive(s, a));
  }

  lemma LastingStage(s: State, id: int, j: Job, at: At)
    requires Lasting(s, id, j, at)
    ensures AtFits(j, at) && id in s.db.jobs && j.stage.Rank() <= s.db.jobs[id].stage.Rank()
  {
  }

  lemma ShowThenAttempt(s: State, a: nat, id: int, part: nat, effect: bool)
    requires LedgerOk(s) && id in s.db.jobs && s.db.jobs[id].stage.Rank() >= 3
    ensures var l := Attempted(Show(s, a, id, Deliver), PartSlot(id, part), effect);
            LedgerMoves(s, id, l) && (HasLive(s, a) || ShownStage(l, id) == ShownStage(s.ledger, id))
  {
    AttemptedMoves(s, id, PartSlot(id, part), effect);
  }

  lemma SentIsOk(s: State, id: int, j: Job, at: At, message: int, live: bool)
    requires Lasting(s, id, j, at) && (live ==> Fenced(s, id, j, at)) && at.PartSend?
    ensures PcOk(s, JobKey(id), Working(j, PartWrite(at.part, message, at.ackFailed)), live)
  {
    hide Unblocked, LowerDelivered;
  }

  lemma ShowUploadCall(e: Env, s: State, a: nat, id: int, j: Job, at: At, t: State)
    returns (l: Ledger, pc: PC)
    requires AtWork(e, s, a, id, j, at) && CallStep(s, a, id, j, at, ShowUpload, t)
    ensures t == Move(s.(ledger := l), a, pc) && LedgerMoves(s, id, l)
    ensures HasLive(s, a) || ShownStage(l, id) == ShownStage(s.ledger, id)
    ensures PcOk(s.(ledger := l), JobKey(id), pc, HasLive(s, a))
  {
    l, pc := Show(s, a, id, Upload), Working(j, at);
    LastingFits(s, id, j, at);
    assert s.db.jobs[id].stage.Rank() >= 1;
    hide JobsOk, LedgerOk, BackendOk, Lasting, Fenced;
    ShowMoves(s, a, id, Upload);
    hide LedgerMoves;
    PcFollowsLedger(s, l, id, pc, HasLive(s, a));
    assert t.actors == s.actors[a := s.actors[a].(pc := pc)];
  }

  lemma ShowPollShape(s: State, a: nat, id: int, j: Job, at: At, ok: bool, t: State)
    requires a in s.actors && s.actors[a].Holding? && CallStep(s, a, id, j, at, ShowPoll(ok), t)
    ensures at.PollShow?
    ensures var at' := if ok then ProgressWrite(at.text) else ScheduleWrite(POLL_INTERVAL, "");
            t == Move(s.(ledger := Show(s, a, id, Poll)), a, Working(j, at'))
  {
    hide Show;
  }

  lemma ShowPollCall(e: Env, s: State, a: nat, id: int, j: Job, at: At, ok: bool, t: State)
    returns (l: Ledger, pc: PC)
    requires AtWork(e, s, a, id, j, at) && CallStep(s, a, id, j, at, ShowPoll(ok), t)
    ensures t == Move(s.(ledger := l), a, pc) && LedgerMoves(s, id, l)
    ensures HasLive(s, a) || ShownStage(l, id) == ShownStage(s.ledger, id)
    ensures PcOk(s.(ledger := l), JobKey(id), pc, HasLive(s, a))
  {
    hide JobsOk, BackendOk, LedgerOk, Lasting, Fenced, CallStep, LedgerMoves;
    ShowPollShape(s, a, id, j, at, ok, t);
    LastingStage(s, id, j, at);
    var at' := if ok then ProgressWrite(at.text) else ScheduleWrite(POLL_INTERVAL, "");
    l, pc := Show(s, a, id, Poll), Working(j, at');
    ShowMoves(s, a, id, Poll);
    PlainMove(s, id, j, at, at', HasLive(s, a));
    PcFollowsLedger(s, l, id, pc, HasLive(s, a));
  }

  // Calls that change nothing but the caller's position, and where they take it.
  ghost predicate Quiet(at: At, ev: JobEvent) {
    || (at.PollGet? && ev.GetStatus?)
    || (at.Failing? && ev.Recover?)
    || (at.Stopping? && ev.Stop? && !at.next.Vanish?)
    || (at.UploadCall? && ev.Submit? && (ev.outcome.Invalid? || ev.outcome.NotSent?))
  }

  ghost function QuietTarget(j: Job, at: At, ev: JobEvent): PC
    requires Quiet(at, ev)
  {
    match ev
    case GetStatus(Terminal(r)) => Working(j, ResultWrite(r))
    case GetStatus(Missing) => Working(j, ResultWrite(JOB_MISSING))
    case GetStatus(Running(text)) =>
      Working(j, if text != j.progressText then PollShow(text) else ScheduleWrite(POLL_INTERVAL, ""))
    case GetStatus(NoReply) => AfterError(j, at)
    case Recover(quit, hint) =>
      if quit then Leaving(None) else Working(j, ScheduleWrite(Backoff.RetryAfter(hint, j.attempts), "stage_failed"))
    case Stop => if at.next.Exit? then Leaving(None) else Working(j, Failing)
    case Submit(outcome) => if outcome.Invalid? then Working(j, ResultWrite(UPLOAD_INVALID)) else AfterError(j, at)
  }

  lemma QuietShape(s: State, a: nat, id: int, j: Job, at: At, ev: JobEvent, t: State)
    requires a in s.actors && s.actors[a].Holding? && CallStep(s, a, id, j, at, ev, t) && Quiet(at, ev)
    ensures t == Move(s, a, QuietTarget(j, at, ev))
    ensures ev.GetStatus? && ev.status.Terminal? ==>
              j.jobId in s.backend.jobs && s.backend.jobs[j.jobId].terminal == Some(ev.status.result)
    ensures ev.GetStatus? && ev.status.Missing? ==> Absent(s.backend, j.jobId)
  {
    hide AfterError;
  }

  lemma QuietIsOk(e: Env, s: State, id: int, j: Job, at: At, ev: JobEvent, live: bool)
    requires JobsOk(e, s) && BackendOk(s) && Lasting(s, id, j, at) && (live ==> Fenced(s, id, j, at)) && Quiet(at, ev)
    requires ev.GetStatus? && ev.status.Terminal? ==>
               j.jobId in s.backend.jobs && s.backend.jobs[j.jobId].terminal == Some(ev.status.result)
    requires ev.GetStatus? && ev.status.Missing? ==> Absent(s.backend, j.jobId)
    ensures PcOk(s, JobKey(id), QuietTarget(j, at, ev), live)
  {
    hide JobsOk, BackendOk, Lasting, Fenced, Absent;
    LastingStage(s, id, j, at);
    match ev
    case GetStatus(Terminal(r)) => TerminalIsOk(s, id, j, at, r, live);
    case GetStatus(Missing) => MissingIsOk(e, s, id, j, at, live);
    case GetStatus(Running(text)) =>
      PlainMove(s, id, j, at, if text != j.progressText then PollShow(text) else ScheduleWrite(POLL_INTERVAL, ""), live);
    case GetStatus(NoReply) => ErrorIsOk(s, id, j, at, live);
    case Recover(quit, hint) =>
      if !quit {
        PlainMove(s, id, j, at, ScheduleWrite(Backoff.RetryAfter(hint, j.attempts), "stage_failed"), live);
      }
    case Stop =>
      if at.next.Fail? {
        PlainMove(s, id, j, at, Failing, live);
      }
    case Submit(outcome) =>
      if outcome.Invalid? {
        InvalidIsOk(s, id, j, at, live);
      } else {
        ErrorIsOk(s, id, j, at, live);
      }
  }

  lemma InvalidIsOk(s: State, id: int, j: Job, at: At, live: bool)
    requires Lasting(s, id, j, at) && (live ==> Fenced(s, id, j, at)) && at.UploadCall?
    ensures PcOk(s, JobKey(id), Working(j, ResultWrite(UPLOAD_INVALID)), live)
  {
    LastingMoves(s, id, j, at, ResultWrite(UPLOAD_INVALID));
    hide Unblocked, LowerDelivered;
  }

  lemma TerminalIsOk(s: State, id: int, j: Job, at: At, r: JobResult, live: bool)
    requires Lasting(s, id, j, at) && (live ==> Fenced(s, id, j, at)) && at.PollGet?
    requires j.jobId in s.backend.jobs && s.backend.jobs[j.jobId].terminal == Some(r)
    ensures PcOk(s, JobKey(id), Working(j, ResultWrite(r)), live)
  {
    LastingMoves(s, id, j, at, ResultWrite(r));
    hide Lasting;
    LastingStage(s, id, j, at);
  }

  // A backend job can be absent only after the row has left poll, and then this snapshot is stale.
  lemma MissingIsForgotten(s: State, id: int, j: Job, at: At)
    requires id in s.db.jobs && OwnBackendJob(s.backend, id, j.jobId) && BackendJobOk(s, j.jobId)
    requires Absent(s.backend, j.jobId) && at.PollGet? && j.stage == Poll
    ensures !Fenced(s, id, j, at)
  {
    hide LowerDelivered;
  }

  /** A retained backend job cannot be missing while its poller's session lives. */
  lemma MissingIsOk(e: Env, s: State, id: int, j: Job, at: At, live: bool)
    requires JobsOk(e, s) && BackendOk(s) && Lasting(s, id, j, at) && (live ==> Fenced(s, id, j, at)) && at.PollGet?
    requires Absent(s.backend, j.jobId)
    ensures !live && PcOk(s, JobKey(id), Working(j, ResultWrite(JOB_MISSING)), live)
  {
    LastingStage(s, id, j, at);
    hide JobsOk, BackendOk, Unblocked, LowerDelivered, LedgerRowOk;
    PollTarget(e, s, id, j, at);
    MissingIsForgotten(s, id, j, at);
    LastingMoves(s, id, j, at, ResultWrite(JOB_MISSING));
    hide Lasting, Fenced, BackendJobOk, Absent;
  }

  // ----- backend calls -----

  lemma WorkFollowsBackend(s: State, k: Backend, id: int, j: Job, at: At, live: bool)
    requires Lasting(s, id, j, at) && (live ==> Fenced(s, id, j, at)) && BackendEvolves(s.backend, k)
    ensures Lasting(s.(backend := k), id, j, at) && (live ==> Fenced(s.(backend := k), id, j, at))
  {
    hide Unblocked, LowerDelivered, Agrees;
  }

  lemma SubmittedIsOk(s: State, id: int, j: Job, at: At, b: string, live: bool)
    requires Lasting(s, id, j, at) && (live ==> Fenced(s, id, j, at)) && at.UploadCall?
    requires b != "" && OwnBackendJob(s.backend, id, b)
    ensures PcOk(s, JobKey(id), Working(j, SubmittedWrite(b)), live)
  {
    hide Unblocked, LowerDelivered;
  }

  lemma AckedIsOk(s: State, id: int, j: Job, at: At, live: bool)
    requires Lasting(s, id, j, at) && (live ==> Fenced(s, id, j, at)) && at.AckCall?
    requires j.jobId in s.backend.jobs && s.backend.jobs[j.jobId].acked
    ensures PcOk(s, JobKey(id), Working(j, AckWrite), live)
  {
    hide Unblocked, LowerDelivered;
  }

  lemma ToldIsOk(s: State, id: int, j: Job, at: At, live: bool)
    requires Lasting(s, id, j, at) && (live ==> Fenced(s, id, j, at)) && at.PollCancel?
    requires j.jobId in s.backend.jobs && s.backend.jobs[j.jobId].cancelled
    ensures PcOk(s, JobKey(id), Working(j, PollGet), live)
  {
    hide Unblocked, LowerDelivered;
  }

  ghost predicate BackendMove(s: State, a: nat, id: int, k: Backend, pc: PC, t: State)
    requires a in s.actors && s.actors[a].Holding?
  {
    && t == Move(s.(backend := k), a, pc) && BackendEvolves(s.backend, k) && BackendOk(s.(backend := k))
    && PcOk(s.(backend := k), JobKey(id), pc, HasLive(s, a))
  }

  lemma SubmitShape(s: State, a: nat, id: int, j: Job, at: At, reply: SubmitReply, t: State)
    requires a in s.actors && s.actors[a].Holding? && CallStep(s, a, id, j, at, Submit(reply), t)
    requires reply.Accepted? || reply.AcceptedUnseen?
    ensures at.UploadCall? && CanSubmit(s.backend, j, reply.newId)
    ensures var pc := if reply.Accepted? then Working(j, SubmittedWrite(SubmittedId(s.backend, j, reply.newId))) else AfterError(j, at);
            t == Move(s.(backend := Submitted(s.backend, j, id, reply.newId)), a, pc)
  {
    hide Submitted, SubmittedId, CanSubmit, AfterError;
  }

  lemma SubmitCall(e: Env, s: State, a: nat, id: int, j: Job, at: At, reply: SubmitReply, t: State)
    returns (k: Backend, pc: PC)
    requires AtWork(e, s, a, id, j, at) && CallStep(s, a, id, j, at, Submit(reply), t)
    requires reply.Accepted? || reply.AcceptedUnseen?
    ensures BackendMove(s, a, id, k, pc, t)
  {
    hide JobsOk, BackendOk, LedgerOk, Lasting, Fenced, CallStep, Submitted, SubmittedId, CanSubmit, PcOk, BackendEvolves, OwnBackendJob;
    SubmitShape(s, a, id, j, at, reply, t);
    SubmitIsOk(e, s, id, j, at, reply.newId);
    k := Submitted(s.backend, j, id, reply.newId);
    var u, live := s.(backend := k), HasLive(s, a);
    WorkFollowsBackend(s, k, id, j, at, live);
    var b := SubmittedId(s.backend, j, reply.newId);
    if reply.Accepted? {
      pc := Working(j, SubmittedWrite(b));
      SubmittedIsOk(u, id, j, at, b, live);
    } else {
      pc := AfterError(j, at);
      ErrorIsOk(u, id, j, at, live);
    }
  }

  lemma CancelShape(s: State, a: nat, id: int, j: Job, at: At, reached: bool, ok: bool, t: State)
    requires a in s.actors && s.actors[a].Holding? && CallStep(s, a, id, j, at, Cancel(reached, ok), t)
    ensures at.PollCancel? && (ok ==> reached)
    ensures var k := if reached then WithCancel(s.backend, j.jobId) else s.backend;
            t == Move(s.(backend := k), a, if ok then Working(j, PollGet) else AfterError(j, at))
  {
    hide WithCancel, AfterError;
  }

  lemma SameBackend(k: Backend)
    ensures BackendEvolves(k, k)
  {
  }

  lemma CancelCall(e: Env, s: State, a: nat, id: int, j: Job, at: At, reached: bool, ok: bool, t: State)
    returns (k: Backend, pc: PC)
    requires AtWork(e, s, a, id, j, at) && CallStep(s, a, id, j, at, Cancel(reached, ok), t)
    ensures BackendMove(s, a, id, k, pc, t)
  {
    hide JobsOk, BackendOk, LedgerOk, Lasting, Fenced, CallStep, WithCancel, PcOk, BackendEvolves;
    CancelShape(s, a, id, j, at, reached, ok, t);
    k := if reached then WithCancel(s.backend, j.jobId) else s.backend;
    pc := if ok then Working(j, PollGet) else AfterError(j, at);
    if reached {
      CancelIsOk(e, s, id, j, at);
    } else {
      SameBackend(k);
      assert s.(backend := k) == s;
    }
    var u, live := s.(backend := k), HasLive(s, a);
    WorkFollowsBackend(s, k, id, j, at, live);
    if ok {
      ToldIsOk(u, id, j, at, live);
    } else {
      ErrorIsOk(u, id, j, at, live);
    }
  }

  lemma AckShape(s: State, a: nat, id: int, j: Job, at: At, reached: bool, ok: bool, t: State)
    requires a in s.actors && s.actors[a].Holding? && CallStep(s, a, id, j, at, Ack(reached, ok), t)
    ensures at.AckCall? && (ok ==> reached || Absent(s.backend, j.jobId))
    ensures var k := if reached then WithAck(s.backend, j.jobId) else s.backend;
            t == Move(s.(backend := k), a, Working(j, if ok then AckWrite else At.NextPart(true)))
  {
    hide WithAck, Absent;
  }

  lemma AckReply(e: Env, s: State, a: nat, id: int, j: Job, at: At, reached: bool, ok: bool, t: State)
    returns (k: Backend, pc: PC)
    requires AtWork(e, s, a, id, j, at) && CallStep(s, a, id, j, at, Ack(reached, ok), t)
    ensures BackendMove(s, a, id, k, pc, t)
  {
    hide JobsOk, BackendOk, LedgerOk, Lasting, Fenced, CallStep, WithAck, PcOk, BackendEvolves, Absent;
    AckShape(s, a, id, j, at, reached, ok, t);
    LastingStage(s, id, j, at);
    k := if reached then WithAck(s.backend, j.jobId) else s.backend;
    pc := Working(j, if ok then AckWrite else At.NextPart(true));
    AckIsOk(e, s, id, j, at);
    if !reached {
      SameBackend(k);
      assert s.(backend := k) == s;
    }
    var u, live := s.(backend := k), HasLive(s, a);
    WorkFollowsBackend(s, k, id, j, at, live);
    if ok {
      AckedIsOk(u, id, j, at, live);
    } else {
      PlainMove(u, id, j, at, At.NextPart(true), live);
    }
  }

  // ----- reading the next part -----

  lemma PartReadIsOk(s: State, id: int, j: Job, at: At, k: nat, live: bool)
    requires Lasting(s, id, j, at) && (live ==> Fenced(s, id, j, at)) && at.NextPart?
    requires IsNextPart(s.db.BoxOf(id), k)
    ensures PcOk(s, JobKey(id), Working(j, PartSend(k, s.db.BoxOf(id)[k].plan, at.ackFailed)), live)
  {
    hide Unblocked;
  }

  lemma PartRead(e: Env, s: State, a: nat, id: int, j: Job, at: At, part: Option<nat>, ok: bool, t: State)
    returns (pc: PC)
    requires AtWork(e, s, a, id, j, at) && ReadPartStep(s, a, id, j, at, part, ok, t)
    ensures t == Move(s, a, pc) && PcOk(s, JobKey(id), pc, HasLive(s, a))
  {
    hide JobsOk, BackendOk, LedgerOk, Lasting, Fenced;
    LastingStage(s, id, j, at);
    if !ok {
      pc := AfterError(j, at);
      ErrorIsOk(s, id, j, at, HasLive(s, a));
    } else if part.Some? {
      pc := Working(j, PartSend(part.value, s.db.BoxOf(id)[part.value].plan, at.ackFailed));
      PartReadIsOk(s, id, j, at, part.value, HasLive(s, a));
    } else {
      pc := Working(j, if at.ackFailed then Failing else CompleteWrite);
      PlainMove(s, id, j, at, if at.ackFailed then Failing else CompleteWrite, HasLive(s, a));
    }
  }
}
