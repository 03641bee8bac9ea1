/** The fenced poller and the serial inbox processor keep the invariant. */
module EngineIntake {
  import opened Options
  import opened Updates
  import opened Tables
  import opened Locks
  import opened Engine
  import opened EngineInvariant
  import opened EngineStability
  import opened EngineEnvironment
  import opened EngineClaims
  import opened EngineWrites
  import opened EngineCalls
  import Identity

  // ----- admission -----

  function Admitted(e: Env, s: State, id: int, media: Option<Media>): State {
    s.(db := AdmitTx(e.bot, s.db, id, media, s.now))
  }

  // Ids are admitted in increasing order.
  lemma AdmittedLast(db: Db, id: int)
    requires InboxOk(db) && IsInboxNext(db, id)
    ensures forall i | i in db.jobs :: i < id
    ensures id !in db.jobs
  {
  }

  lemma AdmitShape(e: Env, s: State, id: int, media: Option<Media>)
    requires InboxOk(s.db) && IsInboxNext(s.db, id)
    ensures var d := Admitted(e, s, id, media).db;
            && d == s.db.(jobs := d.jobs, inbox := s.db.inbox[id := InboxRow(None, true)])
            && (d.jobs == s.db.jobs
                || (media.Some? && d.jobs == s.db.jobs[id := FreshJob(media.value, Identity.RequestId(e.bot, id), s.now)]))
  {
    hide InsertConflicts;
  }

  // A database with at most one more job, the last one, and the same outbox.
  ghost predicate Appends(e: Env, s: State, id: int, u: State) {
    && (forall i | i in s.db.jobs :: i < id && i in u.db.jobs && u.db.jobs[i] == s.db.jobs[i])
    && (forall i | i in u.db.jobs && i !in s.db.jobs ::
          i == id && exists m, now :: u.db.jobs[i] == FreshJob(m, Identity.RequestId(e.bot, id), now))
    && u.db.outbox == s.db.outbox && u.backend == s.backend && u.ledger == s.ledger
  }

  lemma AdmitAppends(e: Env, s: State, id: int, media: Option<Media>)
    requires InboxOk(s.db) && IsInboxNext(s.db, id)
    ensures Appends(e, s, id, Admitted(e, s, id, media))
  {
    AdmittedLast(s.db, id);
    AdmitShape(e, s, id, media);
    hide InboxOk, IsInboxNext, AdmitTx;
  }

  lemma FreshRow(k: Backend, l: Ledger, id: int, row: Job, requestId: string)
    requires exists m, now :: row == FreshJob(m, requestId, now)
    requires Count(l.receipts, StatusSlot(id)) == 0 && id !in l.shown
    requires forall n: nat :: Count(l.receipts, PartSlot(id, n)) == 0
    ensures JobOk(k, id, row, map[]) && LedgerRowOk(l, id, row, map[]) && row.stage == Status && row.requestId == requestId
  {
  }

  lemma AppendedRow(e: Env, s: State, id: int, u: State, i: int)
    requires JobsOk(e, s) && LedgerOk(s) && Appends(e, s, id, u) && i in u.db.jobs
    ensures u.db.BoxOf(i) == s.db.BoxOf(i)
    ensures JobOk(u.backend, i, u.db.jobs[i], u.db.BoxOf(i)) && LedgerRowOk(u.ledger, i, u.db.jobs[i], u.db.BoxOf(i))
    ensures u.db.jobs[i].requestId == Identity.RequestId(e.bot, i)
    ensures i !in s.db.jobs ==> u.db.jobs[i].stage == Status
  {
    hide JobOk, LedgerRowOk;
    if i in s.db.jobs {
      assert JobOk(s.backend, i, s.db.jobs[i], s.db.BoxOf(i)) && LedgerRowOk(s.ledger, i, s.db.jobs[i], s.db.BoxOf(i));
    } else {
      assert u.db.BoxOf(i) == map[];
      FreshRow(u.backend, u.ledger, i, u.db.jobs[i], Identity.RequestId(e.bot, i));
    }
  }

  lemma AppendRows(e: Env, s: State, id: int, u: State)
    requires JobsOk(e, s) && LedgerOk(s) && Fifo(s.db) && Appends(e, s, id, u)
    ensures JobsOk(e, u) && LedgerOk(u) && JobsEvolve(s.db, u.db) && EdgesOnly(s, u) && Fifo(u.db)
  {
    hide JobOk, LedgerRowOk;
    forall i | i in u.db.jobs
      ensures JobOk(u.backend, i, u.db.jobs[i], u.db.BoxOf(i)) && LedgerRowOk(u.ledger, i, u.db.jobs[i], u.db.BoxOf(i))
      ensures u.db.jobs[i].requestId == Identity.RequestId(e.bot, i) && u.db.BoxOf(i) == s.db.BoxOf(i)
    {
      AppendedRow(e, s, id, u, i);
    }
    forall i | i in s.db.jobs.Keys
      ensures i in u.db.jobs.Keys
    {
      assert i in s.db.jobs;
    }
    forall i, k | i in u.db.jobs && k in u.db.jobs && i < k
      ensures FifoPair(u.db.jobs[i], u.db.jobs[k])
    {
      if k in s.db.jobs {
        assert i in s.db.jobs && FifoPair(s.db.jobs[i], s.db.jobs[k]);
      } else {
        AppendedRow(e, s, id, u, k);
      }
    }
  }

  lemma AdmitRows(e: Env, s: State, id: int, media: Option<Media>)
    requires JobsOk(e, s) && LedgerOk(s) && InboxOk(s.db) && Fifo(s.db) && IsInboxNext(s.db, id)
    ensures var u := Admitted(e, s, id, media);
            JobsOk(e, u) && LedgerOk(u) && JobsEvolve(s.db, u.db) && EdgesOnly(s, u) && Fifo(u.db)
  {
    hide *;
    AdmitAppends(e, s, id, media);
    AppendRows(e, s, id, Admitted(e, s, id, media));
  }

  lemma AdmitIntake(e: Env, s: State, id: int, media: Option<Media>)
    requires InboxOk(s.db) && TelegramOk(s) && IsInboxNext(s.db, id)
    ensures var u := Admitted(e, s, id, media);
            && InboxOk(u.db) && TelegramOk(u) && InboxEvolves(s.db, u.db)
            && u == s.(db := u.db)
            && forall key | key != InboxKey :: Untouched(s, u, key)
  {
    AdmittedLast(s.db, id);
    AdmitShape(e, s, id, media);
    hide AdmitTx;
  }

  lemma AdmitData(e: Env, s: State, id: int, media: Option<Media>)
    requires DataOk(e, s) && IsInboxNext(s.db, id)
    ensures var u := Admitted(e, s, id, media);
            && DataOk(e, u) && Evolves(s, u) && EdgesOnly(s, u) && u == s.(db := u.db)
            && forall key | key != InboxKey :: Untouched(s, u, key)
  {
    assert JobsOk(e, s) && LedgerOk(s) && BackendOk(s) && Fifo(s.db) && InboxOk(s.db) && TelegramOk(s);
    hide *;
    AdmitRows(e, s, id, media);
    AdmitIntake(e, s, id, media);
    var u := Admitted(e, s, id, media);
    BackendFollowsRows(s, u);
    DataParts(e, u);
    TablesEvolve(s, u);
  }

  lemma DataThenDrop(e: Env, s: State, a: nat, u: State)
    requires Inv(e, s) && DataOk(e, u) && Evolves(s, u) && EdgesOnly(s, u) && Disturbs(s, u, a)
    requires u.pool == s.pool && u.actors == s.actors
    ensures var t := DropActor(u, a); Inv(e, t) && Evolves(s, t) && EdgesOnly(s, t)
  {
    var t := DropActor(u, a);
    assert SameData(u, t) && TimeEvolves(u, t) && t.actors - {a} == s.actors - {a} && ActorOk(t, a);
    hide *;
    InvParts(e, s);
    PoolSame(e, s, u);
    DropPool(e, u, t, a);
    QuietData(e, u, t);
    SameDataLater(s, u, t);
    DisturbsSame(s, u, t, a);
    StepByOneActor(e, s, t, a);
  }

  lemma AdmitKeeps(e: Env, s: State, a: nat, commit: Commit, t: State)
    requires Inv(e, s) && ProcessorStep(e, s, a, Admit(commit), t)
    ensures Inv(e, t) && Evolves(s, t) && EdgesOnly(s, t)
  {
    var pc := s.actors[a].pc;
    if commit.Refused? {
      assert t == Move(s, a, Leaving(None)) && PcOk(s, InboxKey, Leaving(None), HasLive(s, a));
      hide Inv, ProcessorStep, PcOk, Evolves, EdgesOnly;
      MoveStep(e, s, a, Leaving(None));
    } else {
      assert ActorOk(s, a);
      var u := Admitted(e, s, pc.id, pc.media);
      assert IsInboxNext(s.db, pc.id) && HasLive(s, a) && s.actors[a].key == InboxKey;
      assert t == if commit.Committed? then Move(u, a, Leaving(None)) else DropActor(u, a);
      assert PcOk(u, InboxKey, Leaving(None), HasLive(s, a));
      InvParts(e, s);
      hide Inv, ProcessorStep, PcOk, Evolves, EdgesOnly, DataOk, PoolOk, JobsOk, LedgerOk, BackendOk, Fifo, InboxOk, TelegramOk, Admitted, Untouched, HasLive;
      AdmitData(e, s, pc.id, pc.media);
      assert Disturbs(s, u, a);
      if commit.Committed? {
        DataThenMove(e, s, a, u, Leaving(None));
      } else {
        DataThenDrop(e, s, a, u);
      }
    }
  }

  // The processor's steps that commit nothing.
  lemma ProcessorMoves(e: Env, s: State, a: nat, ev: InboxEvent, t: State) returns (pc: PC)
    requires a in s.actors ==> ActorOk(s, a)
    requires ProcessorStep(e, s, a, ev, t) && !ev.Admit?
    ensures a in s.actors && s.actors[a].Holding? && t == Move(s, a, pc) && PcOk(s, s.actors[a].key, pc, HasLive(s, a))
  {
    match ev {
      case ReadNext(next) =>
        pc := if next.Some? then InboxHas(next.value, s.db.inbox[next.value].payload.value) else Leaving(None);
      case Decide(media) => pc := InboxCommit(s.actors[a].pc.id, media);
      case GiveUp => pc := Leaving(None);
    }
  }

  /** The inbox processor's steps keep the invariant. */
  lemma ProcessorKeeps(e: Env, s: State, a: nat, ev: InboxEvent, t: State)
    requires Inv(e, s) && ProcessorStep(e, s, a, ev, t)
    ensures Inv(e, t) && Evolves(s, t) && EdgesOnly(s, t)
  {
    assert a in s.actors ==> ActorOk(s, a);
    hide Inv, ProcessorStep, PcOk, ActorOk, Evolves, EdgesOnly;
    match ev
    case Admit(commit) => AdmitKeeps(e, s, a, commit, t);
    case _ =>
      var pc := ProcessorMoves(e, s, a, ev, t);
      MoveStep(e, s, a, pc);
  }

  // ----- intake -----

  lemma {:induction false} AtLeastKeeps(records: seq<Record>, offset: int)
    ensures forall r :: r in AtLeast(records, offset) <==> r in records && r.id >= offset
  {
    if records != [] {
      AtLeastKeeps(records[1..], offset);
      assert records == [records[0]] + records[1..];
    }
  }

  lemma {:induction false} NextOffsetIsLast(records: seq<Record>, offset: int)
    ensures offset <= NextOffset(records, offset)
    ensures forall r | r in records :: r.id < NextOffset(records, offset)
    ensures NextOffset(records, offset) > offset ==> exists r :: r in records && NextOffset(records, offset) == r.id + 1
    decreases |records|
  {
    if records != [] {
      var init, last := records[..|records| - 1], records[|records| - 1];
      NextOffsetIsLast(init, offset);
      assert records == init + [last];
      if NextOffset(records, offset) > offset && NextOffset(records, offset) != last.id + 1 {
        var r :| r in init && NextOffset(init, offset) == r.id + 1;
        assert r in records;
      }
    }
  }

  ghost predicate FromTelegram(s: State, batch: seq<Record>) {
    forall r | r in batch :: r.id in s.telegram.updates && s.telegram.updates[r.id] == r.payload
  }

  /** What one accepted batch does: every update below the new cursor is in the inbox, and the new ones are above all
      earlier ones. */
  lemma PersistShape(s: State, batch: seq<Record>)
    requires InboxOk(s.db) && TelegramOk(s) && FromTelegram(s, batch) && NoGap(s, s.db.cursor, batch)
    ensures var d := PersistBatch(s.db, s.db.cursor, batch);
            && d == s.db.(inbox := d.inbox, cursor := d.cursor) && s.db.cursor <= d.cursor
            && (forall u | u in s.db.inbox :: u in d.inbox && d.inbox[u] == s.db.inbox[u])
            && (forall u | u in d.inbox && u !in s.db.inbox ::
                  && s.db.cursor <= u < d.cursor && !d.inbox[u].handled
                  && u in s.telegram.updates && d.inbox[u].payload == Some(s.telegram.updates[u]))
            && (forall u | u in s.telegram.updates && u < d.cursor :: u in d.inbox)
            && (d.cursor > 0 ==> d.cursor - 1 in s.telegram.updates)
  {
    var offset := s.db.cursor;
    var records := AtLeast(batch, offset);
    AtLeastKeeps(batch, offset);
    NextOffsetIsLast(records, offset);
    InsertAllEffect(s.db, records);
    var d := PersistBatch(s.db, offset, batch);
    hide AtLeast, NextOffset, InsertAll;
    assert d.inbox.Keys == s.db.inbox.Keys + RecordIds(records);
    forall u | u in s.telegram.updates && u < d.cursor
      ensures u in d.inbox
    {
      if u >= offset {
        var r :| r in records && NextOffset(records, offset) == r.id + 1;
        assert u == r.id || u in RecordIds(batch);
        var q :| q in batch && q.id == u;
        assert q in records && u in RecordIds(records);
      }
    }
  }

  function Persisted(s: State, offset: int, batch: seq<Record>): State {
    s.(db := PersistBatch(s.db, offset, batch))
  }

  lemma PersistIntake(s: State, batch: seq<Record>)
    requires InboxOk(s.db) && TelegramOk(s) && FromTelegram(s, batch) && NoGap(s, s.db.cursor, batch)
    ensures var u := Persisted(s, s.db.cursor, batch);
            && InboxOk(u.db) && TelegramOk(u) && InboxEvolves(s.db, u.db)
            && u == s.(db := s.db.(inbox := u.db.inbox, cursor := u.db.cursor))
            && forall key | key != PollerKey :: Untouched(s, u, key)
  {
    PersistShape(s, batch);
    var d := PersistBatch(s.db, s.db.cursor, batch);
    var u := Persisted(s, s.db.cursor, batch);
    assert u == s.(db := d);
    hide *;
    PersistedInbox(s, d);
    PersistedTelegram(s, u);
    OnlyIntakeTouched(s, u);
  }

  lemma PersistedTelegram(s: State, u: State)
    requires TelegramOk(s) && u == s.(db := u.db) && s.db.cursor <= u.db.cursor
    requires forall i | i in s.db.inbox :: i in u.db.inbox && u.db.inbox[i] == s.db.inbox[i]
    requires forall i | i in u.db.inbox && i !in s.db.inbox ::
               i in s.telegram.updates && u.db.inbox[i].payload == Some(s.telegram.updates[i])
    requires forall i | i in s.telegram.updates && i < u.db.cursor :: i in u.db.inbox
    requires u.db.cursor > 0 ==> u.db.cursor - 1 in s.telegram.updates
    ensures TelegramOk(u)
  {
  }

  lemma OnlyIntakeTouched(s: State, u: State)
    requires u == s.(db := s.db.(inbox := u.db.inbox, cursor := u.db.cursor))
    requires forall i | i in s.db.inbox :: i in u.db.inbox && u.db.inbox[i] == s.db.inbox[i]
    ensures forall key | key != PollerKey :: Untouched(s, u, key)
  {
  }

  lemma PersistedInbox(s: State, d: Db)
    requires InboxOk(s.db) && d == s.db.(inbox := d.inbox, cursor := d.cursor) && s.db.cursor <= d.cursor
    requires forall u | u in s.db.inbox :: u in d.inbox && d.inbox[u] == s.db.inbox[u]
    requires forall u | u in d.inbox && u !in s.db.inbox ::
               s.db.cursor <= u < d.cursor && !d.inbox[u].handled && d.inbox[u].payload.Some?
    ensures InboxOk(d) && InboxEvolves(s.db, d)
  {
  }

  lemma SameJobs(e: Env, s: State, u: State)
    requires u == s.(db := s.db.(inbox := u.db.inbox, cursor := u.db.cursor))
    requires JobsOk(e, s) && LedgerOk(s) && Fifo(s.db)
    ensures JobsOk(e, u) && LedgerOk(u) && Fifo(u.db) && JobsEvolve(s.db, u.db) && EdgesOnly(s, u)
  {
    hide JobOk, LedgerRowOk, IdentitiesMatch, FifoPair;
    assert forall i :: u.db.BoxOf(i) == s.db.BoxOf(i);
    assert IdentitiesMatch(u.db, e.bot) by {
      SameIdentities(s.db, u.db, e.bot);
    }
  }

  lemma SameIdentities(d: Db, d': Db, bot: int)
    requires IdentitiesMatch(d, bot) && d'.jobs == d.jobs
    ensures IdentitiesMatch(d', bot)
  {
  }

  lemma PersistData(e: Env, s: State, batch: seq<Record>)
    requires DataOk(e, s) && FromTelegram(s, batch) && NoGap(s, s.db.cursor, batch)
    ensures var u := Persisted(s, s.db.cursor, batch);
            && DataOk(e, u) && Evolves(s, u) && EdgesOnly(s, u) && u.pool == s.pool && u.actors == s.actors
            && forall key | key != PollerKey :: Untouched(s, u, key)
  {
    assert JobsOk(e, s) && LedgerOk(s) && BackendOk(s) && Fifo(s.db) && InboxOk(s.db) && TelegramOk(s);
    hide *;
    var u := Persisted(s, s.db.cursor, batch);
    PersistIntake(s, batch);
    SameJobs(e, s, u);
    BackendFollowsRows(s, u);
    DataParts(e, u);
    TablesEvolve(s, u);
  }

  lemma AcceptKeeps(e: Env, s: State, a: nat, commit: Commit, t: State)
    requires Inv(e, s) && IntakeStep(s, a, Accept(commit), t) && !commit.Refused?
    ensures Inv(e, t) && Evolves(s, t) && EdgesOnly(s, t)
  {
    var pc := s.actors[a].pc;
    assert ActorOk(s, a);
    assert pc.offset == s.db.cursor && FromTelegram(s, pc.batch) && NoGap(s, s.db.cursor, pc.batch) && HasLive(s, a);
    var u := Persisted(s, s.db.cursor, pc.batch);
    var next := if commit.Committed? then PollerIdle else PollerClosing;
    assert t == Move(u, a, next) && PcOk(u, PollerKey, next, true) && s.actors[a].key == PollerKey;
    InvParts(e, s);
    hide Inv, IntakeStep, PcOk, ActorOk, NoGap, Persisted, FromTelegram, HasLive, Untouched, Evolves, EdgesOnly;
    hide DataOk, PoolOk, JobsOk, LedgerOk, BackendOk, Fifo, InboxOk, TelegramOk;
    PersistData(e, s, pc.batch);
    assert Disturbs(s, u, a);
    DataThenMove(e, s, a, u, next);
  }

  // getUpdates with the committed offset discards only what the inbox already has.
  lemma FloorData(e: Env, s: State, offset: int)
    requires DataOk(e, s) && 0 <= offset <= s.db.cursor
    ensures var u := s.(telegram := s.telegram.(floor := Floor(s, offset)));
            && DataOk(e, u) && Evolves(s, u) && EdgesOnly(s, u) && forall key :: Untouched(s, u, key)
  {
    var u := s.(telegram := s.telegram.(floor := Floor(s, offset)));
    assert TelegramOk(u) && TelegramEvolves(s.telegram, u.telegram);
    ProduceGlue(e, s, u);
  }

  lemma FetchedIsOk(s: State, a: nat, offset: int, batch: seq<Record>, live: bool)
    requires TelegramOk(s) && (live ==> offset == s.db.cursor) && IsPendingPrefix(s, Floor(s, offset), batch)
    ensures PcOk(s.(telegram := s.telegram.(floor := Floor(s, offset))), PollerKey, PollerAccept(offset, batch), live)
  {
  }

  lemma FetchKeeps(e: Env, s: State, a: nat, reached: bool, reply: Option<seq<Record>>, t: State)
    requires Inv(e, s) && IntakeStep(s, a, GetUpdates(reached, reply), t)
    ensures Inv(e, t) && Evolves(s, t) && EdgesOnly(s, t)
  {
    var pc := s.actors[a].pc;
    assert ActorOk(s, a);
    InvParts(e, s);
    if reached {
      var u := s.(telegram := s.telegram.(floor := Floor(s, pc.offset)));
      var next := if reply.Some? then PollerAccept(pc.offset, reply.value) else PollerIdle;
      if reply.Some? {
        FetchedIsOk(s, a, pc.offset, reply.value, HasLive(s, a));
      }
      assert PcOk(u, PollerKey, next, HasLive(s, a)) && t == Move(u, a, next) && s.actors[a].key == PollerKey;
      hide Inv, IntakeStep, PcOk, ActorOk, HasLive, Untouched, Evolves, EdgesOnly, Floor, IsPendingPrefix;
      hide DataOk, PoolOk, JobsOk, LedgerOk, BackendOk, Fifo, InboxOk, TelegramOk;
      FloorData(e, s, pc.offset);
      assert Disturbs(s, u, a);
      DataThenMove(e, s, a, u, next);
    } else {
      assert PcOk(s, PollerKey, PollerIdle, HasLive(s, a)) && t == Move(s, a, PollerIdle);
      hide Inv, IntakeStep, PcOk, ActorOk, Evolves, EdgesOnly;
      MoveStep(e, s, a, PollerIdle);
    }
  }

  lemma OpenPool(e: Env, s: State, a: nat, pc: PC)
    requires PoolOk(e, s) && a in s.actors && s.actors[a].Holding? && s.actors[a].key == PollerKey
    ensures var t := Move(s, a, pc).(pool := Tune(s.pool, s.actors[a].session));
            PoolOk(e, t) && TimeEvolves(s, t)
  {
    var t := Move(s, a, pc).(pool := Tune(s.pool, s.actors[a].session));
    var claims := ClaimsOf(e, s);
    assert a in claims;
    TuneSound(s.pool, claims, a);
    assert ClaimsOf(e, t) == claims;
    forall b | b in t.actors && t.actors[b].Holding? && t.actors[b].session in t.pool.tuned
      ensures t.actors[b].key.PollerKey?
    {
      assert b in claims;
    }
  }

  lemma OpenKeeps(e: Env, s: State, a: nat, ok: bool, t: State)
    requires Inv(e, s) && IntakeStep(s, a, Open(ok), t)
    ensures Inv(e, t) && Evolves(s, t) && EdgesOnly(s, t)
  {
    var pc := if ok then PollerIdle else PollerClosing;
    assert t == Move(s, a, pc).(pool := Tune(s.pool, s.actors[a].session)) && s.actors[a].key == PollerKey;
    assert ActorOk(t, a) && SameData(s, t) && t.actors - {a} == s.actors - {a};
    hide *;
    InvParts(e, s);
    OpenPool(e, s, a, pc);
    SameDataEdges(s, t);
    QuietStep(e, s, t, a);
  }

  // The poller's steps that only move it.
  lemma PollerMoves(s: State, a: nat, ev: PollerEvent, t: State) returns (pc: PC)
    requires TelegramOk(s) && IntakeStep(s, a, ev, t) && (ev.ReadCursor? || (ev.Accept? && ev.commit.Refused?))
    ensures a in s.actors && s.actors[a].Holding? && t == Move(s, a, pc) && PcOk(s, s.actors[a].key, pc, HasLive(s, a))
  {
    pc := if ev.ReadCursor? && ev.ok then PollerFetch(s.db.cursor) else PollerClosing;
  }

  /** The poller's steps keep the invariant. */
  lemma PollerKeeps(e: Env, s: State, a: nat, ev: PollerEvent, t: State)
    requires Inv(e, s) && IntakeStep(s, a, ev, t)
    ensures Inv(e, t) && Evolves(s, t) && EdgesOnly(s, t)
  {
    InvParts(e, s);
    CloseShape(s, a, ev, t);
    hide Inv, IntakeStep, PcOk, Evolves, EdgesOnly, DataOk, PoolOk, JobsOk, LedgerOk, BackendOk, Fifo, InboxOk, TelegramOk;
    match ev
    case Open(ok) => OpenKeeps(e, s, a, ok, t);
    case GetUpdates(reached, reply) => FetchKeeps(e, s, a, reached, reply, t);
    case Close => VanishStep(e, s, a);
    case Accept(commit) =>
      if commit.Refused? {
        var pc := PollerMoves(s, a, ev, t);
        MoveStep(e, s, a, pc);
      } else {
        AcceptKeeps(e, s, a, commit, t);
      }
    case ReadCursor(_) =>
      var pc := PollerMoves(s, a, ev, t);
      MoveStep(e, s, a, pc);
  }

  lemma CloseShape(s: State, a: nat, ev: PollerEvent, t: State)
    requires IntakeStep(s, a, ev, t)
    ensures ev.Close? ==> t == DropActor(s, a)
  {
  }
}
