/** A run in which a part that Telegram has confirmed, and whose receipt is stored, is sent again: the sender lost its
    session after it had read the part and before it called Telegram. */
module SentTwice {
  import opened Options
  import opened Updates
  import opened ResultPlan
  import opened Tables
  import opened Locks
  import opened Engine
  import Identity

  datatype Trace = Trace(states: seq<State>, actions: seq<Action>)

  predicate Ends(e: Env, tr: Trace, s: State) {
    IsRun(e, tr.states, tr.actions) && tr.states[|tr.actions|] == s
  }

  lemma Go(e: Env, tr: Trace, s: State, act: Action, t: State) returns (tr': Trace)
    requires Ends(e, tr, s) && Next(e, s, act, t)
    ensures Ends(e, tr', t) && tr'.actions == tr.actions + [act] && tr'.states == tr.states + [t]
  {
    tr' := Trace(tr.states + [t], tr.actions + [act]);
    hide Next;
    forall k | 0 <= k < |tr'.actions|
      ensures Next(e, tr'.states[k], tr'.actions[k], tr'.states[k + 1])
    {
      if k < |tr.actions| {
        assert Next(e, tr.states[k], tr.actions[k], tr.states[k + 1]);
      }
    }
  }

  lemma Work(e: Env, tr: Trace, s: State, a: nat, ev: JobEvent, t: State) returns (tr': Trace)
    requires Ends(e, tr, s) && WorkerStep(s, a, ev, t)
    ensures Ends(e, tr', t) && tr'.actions == tr.actions + [JobStep(a, ev)] && tr'.states == tr.states + [t]
  {
    hide WorkerStep, Ends;
    tr' := Go(e, tr, s, JobStep(a, ev), t);
  }

  // ----- one visit of a worker to job 1 -----

  predicate Free(e: Env, s: State, session: nat) {
    session in s.pool.idle && session in s.pool.live && e.hash(JobKey(1)) !in s.pool.locks
  }

  function Owned(e: Env, s: State, a: nat, session: nat, pc: PC): State {
    s.(actors := s.actors[a := Holding(session, JobKey(1), pc)],
       pool := Lock(Take(s.pool, session), session, e.hash(JobKey(1))))
  }

  lemma OnlyCandidate(db: Db, row: Job, now: int)
    requires db.jobs == map[1 := row] && row.nextAttempt <= now && row.stage != Stage.Done
    ensures IsCandidateList(db, row.stage, now, [1])
  {
    assert Candidate(db, 1, row.stage, now);
  }

  lemma Claim(e: Env, tr: Trace, s: State, a: nat, session: nat, row: Job) returns (tr': Trace)
    requires Ends(e, tr, s) && Free(e, s, session) && a !in s.actors
    requires s.db.jobs == map[1 := row] && row.nextAttempt <= s.now && row.stage != Stage.Done
    ensures Ends(e, tr', Owned(e, s, a, session, Working(row, FirstAt(row))))
  {
    OnlyCandidate(s.db, row, s.now);
    var s1 := SetActor(s, a, Scanning(row.stage, [1]));
    var s2 := Owned(e, s, a, session, Reading(row.stage, []));
    var s3 := Owned(e, s, a, session, Working(row, FirstAt(row)));
    hide Ends, IsCandidateList, Lock, Take;
    tr' := Go(e, tr, s, Scan(a, row.stage, [1]), s1);
    assert s1.actors[a].ids[1..] == [];
    assert s2 == SetActor(s1.(pool := s2.pool), a, Holding(session, JobKey(1), Reading(row.stage, []))) by {
      assert s2.actors == s1.actors[a := Holding(session, JobKey(1), Reading(row.stage, []))];
    }
    tr' := Go(e, tr', s1, TryLock(a, session, JobKey(1), Granted), s2);
    assert s3 == Move(s2, a, Working(row, FirstAt(row))) by {
      assert s3.actors == s2.actors[a := Holding(session, JobKey(1), Working(row, FirstAt(row)))];
    }
    OwnedIsLive(e, s, a, session, Reading(row.stage, []));
    tr' := Work(e, tr', s2, a, Read(true), s3);
  }

  lemma OwnedIsLive(e: Env, s: State, a: nat, session: nat, pc: PC)
    requires Free(e, s, session)
    ensures HasLive(Owned(e, s, a, session, pc), a)
  {
  }

  // A worker whose stage is over gives everything back.
  lemma Leave(e: Env, tr: Trace, s: State, a: nat, session: nat) returns (tr': Trace)
    requires Free(e, s, session) && a !in s.actors && Ends(e, tr, Owned(e, s, a, session, Leaving(None)))
    ensures Ends(e, tr', s)
  {
    var o := Owned(e, s, a, session, Leaving(None));
    var h := e.hash(JobKey(1));
    assert GiveBack(Unlock(o.pool, session, h), session) == s.pool by {
      assert Unlock(o.pool, session, h).locks == s.pool.locks;
      assert s.pool.idle - {session} + {session} == s.pool.idle;
    }
    assert o.actors - {a} == s.actors;
    hide Ends, Lock, Take, Unlock, GiveBack;
    assert LockStep(e, o, Release(a, Committed), s);
    tr' := Go(e, tr, o, Release(a, Committed), s);
  }

  // ----- intake and admission of one update -----

  predicate Distinct(e: Env) {
    && e.hash(PollerKey) != e.hash(InboxKey) && e.hash(PollerKey) != e.hash(JobKey(1))
    && e.hash(InboxKey) != e.hash(JobKey(1))
  }

  // The poller idles on session 0; session 1 is in the pool.
  function Pool1(e: Env): Pool {
    Pool(map[e.hash(PollerKey) := Hold(0, 1)], {0, 1}, {1}, {0}, 2)
  }

  function Polling(e: Env, u: Update, db: Db, pc: PC): State {
    INITIAL.(db := db, pool := Pool1(e), actors := map[0 := Actor.Holding(0, PollerKey, pc)], telegram := Telegram(map[1 := u], 0))
  }

  function Received(u: Update): Db {
    EMPTY.(cursor := 2, inbox := map[1 := InboxRow(Some(u), false)])
  }

  lemma Open(e: Env, u: Update) returns (tr: Trace)
    ensures Ends(e, tr, Polling(e, u, EMPTY, PollerIdle))
  {
    tr := Trace([INITIAL], []);
    var s1 := INITIAL.(telegram := Telegram(map[1 := u], 0));
    var s2 := s1.(pool := Locks.Connect(NEW_POOL));
    var s3 := s1.(pool := Locks.Connect(s2.pool));
    var held := Lock(Take(s3.pool, 0), 0, e.hash(PollerKey));
    var s4 := SetActor(s3.(pool := held), 0, Holding(0, PollerKey, PollerNew));
    assert Tune(held, 0) == Pool1(e);
    assert Ends(e, tr, INITIAL);
    hide Ends;
    tr := Go(e, tr, INITIAL, Produce(1, u), s1);
    tr := Go(e, tr, s1, Action.Connect, s2);
    tr := Go(e, tr, s2, Action.Connect, s3);
    tr := Go(e, tr, s3, TryLock(0, 0, PollerKey, Granted), s4);
    tr := Go(e, tr, s4, PollerStep(0, PollerEvent.Open(true)), Polling(e, u, EMPTY, PollerIdle));
  }

  lemma StoredBatch(u: Update)
    ensures PersistBatch(EMPTY, 0, [Record(1, u)]) == Received(u)
  {
    var batch := [Record(1, u)];
    assert batch[1..] == [] && batch[..0] == [];
    assert AtLeast(batch, 0) == batch;
    assert NextOffset(batch, 0) == 2;
    assert InsertAll(EMPTY, batch) == InsertAll(InboxInsert(EMPTY, 1, u), []);
  }

  lemma Fetch(e: Env, u: Update, tr: Trace) returns (tr': Trace)
    requires Ends(e, tr, Polling(e, u, EMPTY, PollerIdle))
    ensures Ends(e, tr', Polling(e, u, Received(u), PollerIdle))
  {
    var batch := [Record(1, u)];
    var s0, s1 := Polling(e, u, EMPTY, PollerIdle), Polling(e, u, EMPTY, PollerFetch(0));
    var s2, s3 := Polling(e, u, EMPTY, PollerAccept(0, batch)), Polling(e, u, Received(u), PollerIdle);
    StoredBatch(u);
    assert batch[0] == Record(1, u) && RecordIds(batch) == {1};
    assert IsPendingPrefix(s1, 0, batch);
    hide Ends, PersistBatch, IsPendingPrefix;
    tr' := Go(e, tr, s0, PollerStep(0, ReadCursor(true)), s1);
    tr' := Go(e, tr', s1, PollerStep(0, GetUpdates(true, Some(batch))), s2);
    tr' := Go(e, tr', s2, PollerStep(0, Accept(Committed)), s3);
  }

  function Row0(e: Env, media: Media): Job {
    FreshJob(media, Identity.RequestId(e.bot, 1), 0)
  }

  function AdmittedDb(e: Env, media: Media): Db {
    EMPTY.(cursor := 2, inbox := map[1 := InboxRow(None, true)], jobs := map[1 := Row0(e, media)])
  }

  lemma AdmitOnce(e: Env, u: Update, media: Media)
    ensures AdmitTx(e.bot, Received(u), 1, Some(media), 0) == AdmittedDb(e, media)
  {
    assert !InsertConflicts(Received(u), 1, media, Identity.RequestId(e.bot, 1));
  }

  // The inbox processor at work with session 1.
  function Admitting(e: Env, u: Update, db: Db, pc: PC): State {
    Polling(e, u, db, PollerIdle).(
      actors := map[0 := Actor.Holding(0, PollerKey, PollerIdle), 1 := Actor.Holding(1, InboxKey, pc)],
      pool := Lock(Take(Pool1(e), 1), 1, e.hash(InboxKey)))
  }

  lemma ProcessorTakes(e: Env, u: Update)
    requires Distinct(e)
    ensures Next(e, Polling(e, u, Received(u), PollerIdle), TryLock(1, 1, InboxKey, Granted), Admitting(e, u, Received(u), InboxIdle))
  {
    var s := Polling(e, u, Received(u), PollerIdle);
    assert s.actors[1 := Holding(1, InboxKey, InboxIdle)] == Admitting(e, u, Received(u), InboxIdle).actors;
    hide Lock, Take;
  }

  lemma ProcessorReads(e: Env, u: Update)
    ensures Next(e, Admitting(e, u, Received(u), InboxIdle), InboxStep(1, ReadNext(Some(1))), Admitting(e, u, Received(u), InboxHas(1, u)))
  {
    var s := Admitting(e, u, Received(u), InboxIdle);
    assert HasLive(s, 1) && IsInboxNext(s.db, 1);
    assert s.actors[1 := Holding(1, InboxKey, InboxHas(1, u))] == Admitting(e, u, Received(u), InboxHas(1, u)).actors;
    hide Lock, Take, IsInboxNext, HasLive;
  }

  lemma ProcessorAdmits(e: Env, u: Update, media: Media)
    ensures var s, t := Admitting(e, u, Received(u), InboxHas(1, u)), Admitting(e, u, Received(u), InboxCommit(1, Some(media)));
            && Next(e, s, InboxStep(1, Decide(Some(media))), t)
            && Next(e, t, InboxStep(1, Admit(Committed)), Admitting(e, u, AdmittedDb(e, media), Leaving(None)))
  {
    var s, t := Admitting(e, u, Received(u), InboxHas(1, u)), Admitting(e, u, Received(u), InboxCommit(1, Some(media)));
    AdmitOnce(e, u, media);
    assert HasLive(t, 1);
    assert s.actors[1 := Holding(1, InboxKey, InboxCommit(1, Some(media)))] == t.actors;
    assert t.actors[1 := Holding(1, InboxKey, Leaving(None))] == Admitting(e, u, AdmittedDb(e, media), Leaving(None)).actors;
    hide Lock, Take, AdmitTx, HasLive, AdmittedDb;
  }

  lemma ProcessorLeaves(e: Env, u: Update, db: Db)
    requires Distinct(e)
    ensures Next(e, Admitting(e, u, db, Leaving(None)), Release(1, Committed), Polling(e, u, db, PollerIdle))
  {
    var s, t := Admitting(e, u, db, Leaving(None)), Polling(e, u, db, PollerIdle);
    var h := e.hash(InboxKey);
    assert GiveBack(Unlock(s.pool, 1, h), 1) == Pool1(e) by {
      assert Unlock(s.pool, 1, h).locks == Pool1(e).locks;
    }
    assert 1 in s.pool.live;
    assert s.actors - {1} == t.actors;
    hide Lock, Take, Unlock, GiveBack, Pool1;
  }

  lemma Admission(e: Env, u: Update, media: Media, tr: Trace) returns (tr': Trace)
    requires Distinct(e) && Ends(e, tr, Polling(e, u, Received(u), PollerIdle))
    ensures Ends(e, tr', Polling(e, u, AdmittedDb(e, media), PollerIdle))
  {
    hide *;
    var done := AdmittedDb(e, media);
    ProcessorTakes(e, u);
    tr' := Go(e, tr, Polling(e, u, Received(u), PollerIdle), TryLock(1, 1, InboxKey, Granted), Admitting(e, u, Received(u), InboxIdle));
    ProcessorReads(e, u);
    tr' := Go(e, tr', Admitting(e, u, Received(u), InboxIdle), InboxStep(1, ReadNext(Some(1))), Admitting(e, u, Received(u), InboxHas(1, u)));
    ProcessorAdmits(e, u, media);
    var t := Admitting(e, u, Received(u), InboxCommit(1, Some(media)));
    tr' := Go(e, tr', Admitting(e, u, Received(u), InboxHas(1, u)), InboxStep(1, Decide(Some(media))), t);
    tr' := Go(e, tr', t, InboxStep(1, Admit(Committed)), Admitting(e, u, done, Leaving(None)));
    ProcessorLeaves(e, u, done);
    tr' := Go(e, tr', Admitting(e, u, done, Leaving(None)), Release(1, Committed), Polling(e, u, done, PollerIdle));
  }

  // ----- the first two stages -----

  // A worker's own step: it moves, and the tables and the history may change.
  lemma Stay(e: Env, tr: Trace, s: State, a: nat, session: nat, pc: PC, ev: JobEvent, s': State, pc': PC) returns (tr': Trace)
    requires Ends(e, tr, Owned(e, s, a, session, pc)) && WorkerStep(Owned(e, s, a, session, pc), a, ev, Owned(e, s', a, session, pc'))
    ensures Ends(e, tr', Owned(e, s', a, session, pc'))
  {
    hide *;
    tr' := Work(e, tr, Owned(e, s, a, session, pc), a, ev, Owned(e, s', a, session, pc'));
  }

  lemma OwnedMoves(e: Env, s: State, a: nat, session: nat, pc: PC, pc': PC)
    ensures Move(Owned(e, s, a, session, pc), a, pc') == Owned(e, s, a, session, pc')
  {
    assert s.actors[a := Holding(session, JobKey(1), pc)][a := Holding(session, JobKey(1), pc')]
        == s.actors[a := Holding(session, JobKey(1), pc')];
  }

  lemma Writes(e: Env, s: State, a: nat, session: nat, j: Job, at: At)
    requires Free(e, s, session) && IsWrite(at)
    ensures var s' := s.(db := Execute(s.db, 1, StatementOf(j, at), s.now), ledger := Receipted(s.ledger, 1, at));
            WorkerStep(Owned(e, s, a, session, Working(j, at)), a, Write(Committed), Owned(e, s', a, session, AfterWrite(j, at)))
  {
    OwnedIsLive(e, s, a, session, Working(j, at));
    OwnedMoves(e, s, a, session, Working(j, at), AfterWrite(j, at));
    hide Execute, StatementOf, AfterWrite, Receipted, Lock, Take, HasLive, Free, Move;
  }

  lemma SendsStatus(e: Env, s: State, a: nat, session: nat, j: Job, m: int)
    ensures var s' := s.(ledger := Attempted(s.ledger, StatusSlot(1), true));
            WorkerStep(Owned(e, s, a, session, Working(j, StatusSend)), a, SendStatus(true, Some(m)),
                       Owned(e, s', a, session, Working(j, StatusWrite(m))))
  {
    OwnedMoves(e, s, a, session, Working(j, StatusSend), Working(j, StatusWrite(m)));
    hide Attempted, Lock, Take, Move;
  }

  lemma IsRefused(e: Env, s: State, a: nat, session: nat, j: Job)
    ensures WorkerStep(Owned(e, s, a, session, Working(j, UploadCall)), a, Submit(Invalid),
                       Owned(e, s, a, session, Working(j, ResultWrite(UPLOAD_INVALID))))
    ensures WorkerStep(Owned(e, s, a, session, Working(j, Stopping(Exit))), a, Stop, Owned(e, s, a, session, Leaving(None)))
  {
    OwnedMoves(e, s, a, session, Working(j, UploadCall), Working(j, ResultWrite(UPLOAD_INVALID)));
    OwnedMoves(e, s, a, session, Working(j, Stopping(Exit)), Leaving(None));
    hide Lock, Take, Move;
  }

  lemma ReadsPart(e: Env, s: State, a: nat, session: nat, j: Job)
    requires Free(e, s, session) && IsNextPart(s.db.BoxOf(1), 0)
    ensures WorkerStep(Owned(e, s, a, session, Working(j, At.NextPart(false))), a, ReadPart(Some(0), true),
                       Owned(e, s, a, session, Working(j, PartSend(0, s.db.BoxOf(1)[0].plan, false))))
  {
    OwnedIsLive(e, s, a, session, Working(j, At.NextPart(false)));
    OwnedMoves(e, s, a, session, Working(j, At.NextPart(false)), Working(j, PartSend(0, s.db.BoxOf(1)[0].plan, false)));
    hide Lock, Take, HasLive, Free, Move;
  }

  function Sends(s: State, a: nat, at: At, m: int): State
    requires a in s.actors && s.actors[a].Holding? && s.actors[a].pc.Working? && at.PartSend?
  {
    Move(s, a, Working(s.actors[a].pc.job, PartWrite(at.part, m, at.ackFailed)))
    .(ledger := Attempted(Show(s, a, 1, Deliver), PartSlot(1, at.part), true))
  }

  lemma SendsPart(s: State, a: nat, j: Job, at: At, m: int)
    requires a in s.actors && s.actors[a].Holding? && s.actors[a].key == JobKey(1) && s.actors[a].pc == Working(j, at) && at.PartSend?
    ensures WorkerStep(s, a, SendPart(true, Some(m)), Sends(s, a, at, m))
  {
    hide Attempted, Show, Move;
  }

  // No part has been sent yet.
  predicate Unsent(l: Ledger) {
    Count(l.effects, PartSlot(1, 0)) == 0 && Count(l.receipts, PartSlot(1, 0)) == 0
  }

  lemma StatusStage(e: Env, tr: Trace, s: State, row: Job) returns (tr': Trace, t: State)
    requires Ends(e, tr, s) && Free(e, s, 1) && 2 !in s.actors && Unsent(s.ledger)
    requires s.db.jobs == map[1 := row] && s.db.outbox == map[] && row.stage == Status && row.nextAttempt <= s.now
    ensures Ends(e, tr', t) && t == s.(db := t.db, ledger := t.ledger) && Unsent(t.ledger)
    ensures t.db.jobs == map[1 := row.(statusMessage := 7, stage := Upload, attempts := 0, lastError := "", nextAttempt := s.now)]
    ensures t.db.outbox == map[]
  {
    tr' := Claim(e, tr, s, 2, 1, row);
    var s1 := s.(ledger := Attempted(s.ledger, StatusSlot(1), true));
    t := s1.(db := Execute(s1.db, 1, SetStatus(7), s1.now), ledger := Receipted(s1.ledger, 1, StatusWrite(7)));
    assert t.db.jobs == map[1 := row.(statusMessage := 7, stage := Upload, attempts := 0, lastError := "", nextAttempt := s.now)];
    SendsStatus(e, s, 2, 1, row, 7);
    Writes(e, s1, 2, 1, row, StatusWrite(7));
    hide Ends, WorkerStep, Owned, Attempted, Execute, Receipted;
    tr' := Stay(e, tr', s, 2, 1, Working(row, StatusSend), SendStatus(true, Some(7)), s1, Working(row, StatusWrite(7)));
    tr' := Stay(e, tr', s1, 2, 1, Working(row, StatusWrite(7)), Write(Committed), t, Leaving(None));
    tr' := Leave(e, tr', t, 2, 1);
  }

  function Refusal(): Delivery {
    Delivery(Edit, UPLOAD_FAILED, false)
  }

  lemma UploadStage(e: Env, tr: Trace, s: State, row: Job) returns (tr': Trace, t: State)
    requires Ends(e, tr, s) && Free(e, s, 1) && 2 !in s.actors && Unsent(s.ledger)
    requires s.db.jobs == map[1 := row] && s.db.outbox == map[] && row.stage == Upload && row.nextAttempt <= s.now && row.jobId == ""
    ensures Ends(e, tr', t) && t == s.(db := t.db)
    ensures 1 in t.db.jobs && t.db.jobs == map[1 := t.db.jobs[1]] && t.db.jobs[1].stage == Deliver && t.db.jobs[1].acknowledged
    ensures t.db.jobs[1].nextAttempt <= t.now && t.db.BoxOf(1) == map[0 := Part(Refusal(), false, 0)]
  {
    tr' := Claim(e, tr, s, 2, 1, row);
    var at := ResultWrite(UPLOAD_INVALID);
    t := s.(db := Execute(s.db, 1, StatementOf(row, at), s.now));
    assert StatementOf(row, at).parts == [Refusal()];
    assert t.db.BoxOf(1) == map[0 := Part(Refusal(), false, 0)];
    IsRefused(e, s, 2, 1, row);
    IsRefused(e, t, 2, 1, row);
    Writes(e, s, 2, 1, row, at);
    assert Receipted(s.ledger, 1, at) == s.ledger;
    hide Ends, WorkerStep, Owned, Execute, Receipted, StatementOf;
    tr' := Stay(e, tr', s, 2, 1, Working(row, UploadCall), Submit(Invalid), s, Working(row, at));
    tr' := Stay(e, tr', s, 2, 1, Working(row, at), Write(Committed), t, Working(row, Stopping(Exit)));
    tr' := Stay(e, tr', t, 2, 1, Working(row, Stopping(Exit)), Stop, t, Leaving(None));
    tr' := Leave(e, tr', t, 2, 1);
  }

  // ----- the delivery that is repeated -----

  // Ready to be delivered: one part, acknowledged, nothing sent.
  predicate Deliverable(s: State, row: Job) {
    && s.db.jobs == map[1 := row] && row.stage == Deliver && row.acknowledged && row.nextAttempt <= s.now
    && s.db.BoxOf(1) == map[0 := Part(Refusal(), false, 0)]
  }

  const AT_PART := PartSend(0, Refusal(), false)

  // A worker claims the job and reads the part it is about to send.
  lemma Prepare(e: Env, tr: Trace, s: State, a: nat, session: nat, row: Job) returns (tr': Trace)
    requires Ends(e, tr, s) && Free(e, s, session) && a !in s.actors && Deliverable(s, row)
    ensures Ends(e, tr', Owned(e, s, a, session, Working(row, AT_PART)))
  {
    tr' := Claim(e, tr, s, a, session, row);
    ReadsPart(e, s, a, session, row);
    assert FirstAt(row) == At.NextPart(false);
    hide Ends, WorkerStep, Owned;
    tr' := Stay(e, tr', s, a, session, Working(row, At.NextPart(false)), ReadPart(Some(0), true), s, Working(row, AT_PART));
  }

  // The state once worker a's session 1 is gone and session 2 is in the pool.
  function Orphaned(e: Env, s: State, row: Job): State {
    var o := Owned(e, s, 2, 1, Working(row, AT_PART));
    o.(pool := Locks.Connect(Kill(o.pool, 1)))
  }

  lemma Orphan(e: Env, tr: Trace, s: State, row: Job) returns (tr': Trace)
    requires Ends(e, tr, Owned(e, s, 2, 1, Working(row, AT_PART))) && Deliverable(s, row)
    requires Free(e, s, 1) && s.pool.next == 2 && 3 !in s.actors
    ensures Ends(e, tr', Orphaned(e, s, row)) && Free(e, Orphaned(e, s, row), 2) && Deliverable(Orphaned(e, s, row), row)
    ensures 1 !in Orphaned(e, s, row).pool.live
  {
    var o := Owned(e, s, 2, 1, Working(row, AT_PART));
    hide Ends;
    tr' := Go(e, tr, o, Die(1), o.(pool := Kill(o.pool, 1)));
    tr' := Go(e, tr', o.(pool := Kill(o.pool, 1)), Action.Connect, Orphaned(e, s, row));
  }

  lemma ConfirmedTables(s: State, o: State, a: nat)
    requires 1 in s.db.jobs && s.db.BoxOf(1) == map[0 := Part(Refusal(), false, 0)] && Unsent(s.ledger) && o.ledger == s.ledger
    ensures Execute(s.db, 1, SetDelivered(0, 7), s.now).BoxOf(1) == map[0 := Part(Refusal(), true, 7)]
    ensures var l := Receipted(Attempted(Show(o, a, 1, Deliver), PartSlot(1, 0), true), 1, PartWrite(0, 7, false));
            Count(l.effects, PartSlot(1, 0)) == 1 && Count(l.receipts, PartSlot(1, 0)) == 1
  {
  }

  // Another worker sends the part and stores its receipt.
  lemma Confirm(e: Env, tr: Trace, s: State, a: nat, session: nat, row: Job) returns (tr': Trace, t: State)
    requires Ends(e, tr, s) && Free(e, s, session) && a !in s.actors && Deliverable(s, row) && Unsent(s.ledger)
    ensures Ends(e, tr', Owned(e, t, a, session, Working(row, CompleteWrite))) && t == s.(db := t.db, ledger := t.ledger)
    ensures t.db.BoxOf(1) == map[0 := Part(Refusal(), true, 7)]
    ensures Count(t.ledger.effects, PartSlot(1, 0)) == 1 && Count(t.ledger.receipts, PartSlot(1, 0)) == 1
  {
    tr' := Prepare(e, tr, s, a, session, row);
    var o := Owned(e, s, a, session, Working(row, AT_PART));
    var s1 := s.(ledger := Attempted(Show(o, a, 1, Deliver), PartSlot(1, 0), true));
    var at := PartWrite(0, 7, false);
    t := s1.(db := Execute(s1.db, 1, SetDelivered(0, 7), s1.now), ledger := Receipted(s1.ledger, 1, at));
    ConfirmedTables(s, o, a);
    hide Ends, WorkerStep, Execute, Receipted, Attempted, Show, Move, Lock, Take;
    OwnedMoves(e, s, a, session, Working(row, AT_PART), Working(row, at));
    SendsPart(o, a, row, AT_PART, 7);
    assert Sends(o, a, AT_PART, 7) == Owned(e, s1, a, session, Working(row, at));
    Writes(e, s1, a, session, row, at);
    hide Owned, Sends;
    tr' := Stay(e, tr', s, a, session, Working(row, AT_PART), SendPart(true, Some(7)), s1, Working(row, at));
    tr' := Stay(e, tr', s1, a, session, Working(row, at), Write(Committed), t, Working(row, CompleteWrite));
  }

  lemma Prologue(e: Env, u: Update, media: Media) returns (tr: Trace, s: State, row: Job)
    requires Distinct(e)
    ensures Ends(e, tr, s) && Free(e, s, 1) && s.pool.next == 2 && 2 !in s.actors && 3 !in s.actors
    ensures Deliverable(s, row) && Unsent(s.ledger)
  {
    tr := Open(e, u);
    tr := Fetch(e, u, tr);
    tr := Admission(e, u, media, tr);
    var s0 := Polling(e, u, AdmittedDb(e, media), PollerIdle);
    var row0 := Row0(e, media);
    assert Free(e, s0, 1) && Unsent(s0.ledger) && 2 !in s0.actors && 3 !in s0.actors && s0.pool.next == 2;
    assert s0.db.jobs == map[1 := row0] && s0.db.outbox == map[] && s0.now == 0;
    hide Ends, Polling, AdmittedDb;
    var s1;
    tr, s1 := StatusStage(e, tr, s0, row0);
    tr, s := UploadStage(e, tr, s1, s1.db.jobs[1]);
    row := s.db.jobs[1];
  }

  /** A confirmed part can be sent again. Whatever the update and the admitted job, there is a run whose last action sends
      a part that is already marked delivered: the sender's session has died, so it passes no statement on the way. */
  lemma ConfirmedPartIsSentAgain(e: Env, u: Update, media: Media) returns (states: seq<State>, actions: seq<Action>, k: nat)
    requires Distinct(e)
    ensures IsRun(e, states, actions) && |actions| == k + 1 && actions[k] == JobStep(2, SendPart(true, Some(8)))
    ensures 2 in states[k].actors && states[k].actors[2].Holding? && states[k].actors[2].pc.Working? && states[k].actors[2].pc.at == AT_PART
    ensures states[k].db.BoxOf(1) == map[0 := Part(Refusal(), true, 7)] && !HasLive(states[k], 2)
    ensures Count(states[k + 1].ledger.effects, PartSlot(1, 0)) == 2 && Count(states[k + 1].ledger.receipts, PartSlot(1, 0)) == 1
  {
    var tr, s, row := Prologue(e, u, media);
    tr := Prepare(e, tr, s, 2, 1, row);
    tr := Orphan(e, tr, s, row);
    var o := Orphaned(e, s, row);
    assert 3 !in o.actors && o.actors[2] == Holding(1, JobKey(1), Working(row, AT_PART)) && Unsent(o.ledger);
    var t;
    tr, t := Confirm(e, tr, o, 3, 2, row);
    var before := Owned(e, t, 3, 2, Working(row, CompleteWrite));
    SendsPart(before, 2, row, AT_PART, 8);
    var last := Sends(before, 2, AT_PART, 8);
    hide WorkerStep, Orphaned;
    tr := Work(e, tr, before, 2, SendPart(true, Some(8)), last);
    states, actions, k := tr.states, tr.actions, |tr.actions| - 1;
  }
}
