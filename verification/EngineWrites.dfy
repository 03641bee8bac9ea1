/** The statements a stage worker commits through the connection that owns the job lock. None of the UPDATEs tests the
    current state; the fence does. */
module EngineWrites {
  import opened Options
  import opened ResultPlan
  import opened Tables
  import opened Engine
  import opened EngineInvariant
  import opened EngineStability
  import opened EngineEnvironment
  import opened EngineClaims

  // What a committed write makes of its own row.
  ghost predicate GoodWrite(k: Backend, l: Ledger, id: int, row: Job, box: Box, row': Job, box': Box, l': Ledger) {
    && JobOk(k, id, row', box') && LedgerRowOk(l', id, row', box')
    && RowEvolves(row, row') && BoxEvolves(box, box') && Edge(row.stage, row'.stage)
  }

  ghost predicate Write(s: State, id: int, j: Job, at: At)
  {
    && id in s.db.jobs && IsWrite(at)
    && var row, box, st := s.db.jobs[id], s.db.BoxOf(id), StatementOf(j, at);
    GoodWrite(s.backend, s.ledger, id, row, box, RowAfter(row, box, st, s.now), BoxAfter(box, st), Receipted(s.ledger, id, at))
  }

  lemma WriteStatus(e: Env, s: State, id: int, j: Job, at: At)
    requires JobsOk(e, s) && LedgerOk(s) && Lasting(s, id, j, at) && Fenced(s, id, j, at) && at.StatusWrite?
    ensures Write(s, id, j, at)
  {
    hide BoxMatches, IdentitiesMatch;
    assert JobOk(s.backend, id, s.db.jobs[id], s.db.BoxOf(id)) && LedgerRowOk(s.ledger, id, s.db.jobs[id], s.db.BoxOf(id));
  }

  lemma WriteSubmitted(e: Env, s: State, id: int, j: Job, at: At)
    requires JobsOk(e, s) && LedgerOk(s) && Lasting(s, id, j, at) && Fenced(s, id, j, at) && at.SubmittedWrite?
    ensures Write(s, id, j, at)
  {
    hide BoxMatches, IdentitiesMatch;
    assert JobOk(s.backend, id, s.db.jobs[id], s.db.BoxOf(id)) && LedgerRowOk(s.ledger, id, s.db.jobs[id], s.db.BoxOf(id));
  }

  /** The insert that skips taken numbers skips none: before the result there is no part, after it the whole plan. */
  lemma InsertedPlan(parts: seq<Delivery>)
    ensures BoxMatches(InsertParts(map[], parts, |parts|), parts)
    ensures forall k | k in InsertParts(map[], parts, |parts|) :: !InsertParts(map[], parts, |parts|)[k].delivered
  {
  }

  lemma ResultRow(k: Backend, l: Ledger, id: int, row: Job, r: JobResult, parts: seq<Delivery>, now: int)
    requires JobOk(k, id, row, map[]) && LedgerRowOk(l, id, row, map[]) && parts == ResultParts(row.media.preset, r)
    requires row.stage == Poll ==> row.jobId in k.jobs && k.jobs[row.jobId].terminal == Some(r)
    requires row.stage != Poll ==> row.stage == Upload && r == UPLOAD_INVALID
    requires row.cancelRequested || row.nextAttempt <= now
    ensures var st := SaveResult(r, parts);
            GoodWrite(k, l, id, row, map[], RowAfter(row, map[], st, now), BoxAfter(map[], st), l)
  {
    InsertedPlan(parts);
    hide BoxMatches, InsertParts, ResultParts;
  }

  lemma WriteResult(e: Env, s: State, id: int, j: Job, at: At)
    requires JobsOk(e, s) && LedgerOk(s) && Lasting(s, id, j, at) && Fenced(s, id, j, at) && at.ResultWrite?
    ensures Write(s, id, j, at)
  {
    var row, box := s.db.jobs[id], s.db.BoxOf(id);
    assert JobOk(s.backend, id, row, box) && LedgerRowOk(s.ledger, id, row, box);
    assert row.stage == j.stage && row.media == j.media && box == map[];
    ResultRow(s.backend, s.ledger, id, row, at.result, ResultParts(j.media.preset, at.result), s.now);
    hide JobOk, LedgerRowOk, GoodWrite, ResultParts, InsertParts, JobsOk, LedgerOk;
  }

  lemma ColumnRow(k: Backend, l: Ledger, id: int, row: Job, box: Box, st: Statement, now: int)
    requires JobOk(k, id, row, box) && LedgerRowOk(l, id, row, box)
    requires st.SetProgress? || st.Schedule? || (st.SetAcknowledged? && row.stage.Rank() >= 3 && row.jobId in k.jobs && k.jobs[row.jobId].acked)
    ensures BoxAfter(box, st) == box && GoodWrite(k, l, id, row, box, RowAfter(row, box, st, now), box, l)
  {
    hide BoxMatches;
  }

  lemma AckingHolder(s: State, id: int, j: Job, at: At)
    requires Lasting(s, id, j, at) && Fenced(s, id, j, at)
    ensures id in s.db.jobs
    ensures at.AckWrite? ==>
              var row := s.db.jobs[id];
              row.stage.Rank() >= 3 && row.jobId in s.backend.jobs && s.backend.jobs[row.jobId].acked
  {
    hide Unblocked, LowerDelivered;
  }

  lemma WriteColumns(e: Env, s: State, id: int, j: Job, at: At)
    requires JobsOk(e, s) && LedgerOk(s) && Lasting(s, id, j, at) && Fenced(s, id, j, at)
    requires at.ProgressWrite? || at.ScheduleWrite? || at.AckWrite?
    ensures Write(s, id, j, at)
  {
    AckingHolder(s, id, j, at);
    hide BoxMatches, IdentitiesMatch, JobOk, LedgerRowOk, GoodWrite, RowAfter, BoxAfter, Lasting, Fenced;
    assert JobOk(s.backend, id, s.db.jobs[id], s.db.BoxOf(id)) && LedgerRowOk(s.ledger, id, s.db.jobs[id], s.db.BoxOf(id));
    ColumnRow(s.backend, s.ledger, id, s.db.jobs[id], s.db.BoxOf(id), StatementOf(j, at), s.now);
  }

  lemma DeliveredBox(box: Box, parts: seq<Delivery>, k: nat, m: int)
    requires BoxMatches(box, parts) && LowerDelivered(box, k)
    ensures var box' := box[k := box[k].(delivered := true, messageId := m)];
            BoxMatches(box', parts) && BoxEvolves(box, box')
  {
  }

  lemma DeliveredRow(k: Backend, l: Ledger, id: int, row: Job, box: Box, part: nat, m: int)
    requires JobOk(k, id, row, box) && LedgerRowOk(l, id, row, box) && row.stage == Deliver
    requires LowerDelivered(box, part) && !box[part].delivered
    ensures var box' := box[part := box[part].(delivered := true, messageId := m)];
            GoodWrite(k, l, id, row, box, row, box', l.(receipts := Bump(l.receipts, PartSlot(id, part))))
  {
    DeliveredBox(box, ResultParts(row.media.preset, row.result.value), part, m);
    hide BoxMatches, ResultParts;
  }

  lemma WritePart(e: Env, s: State, id: int, j: Job, at: At)
    requires JobsOk(e, s) && LedgerOk(s) && Lasting(s, id, j, at) && Fenced(s, id, j, at) && at.PartWrite?
    ensures Write(s, id, j, at)
  {
    var row, box := s.db.jobs[id], s.db.BoxOf(id);
    assert JobOk(s.backend, id, row, box) && LedgerRowOk(s.ledger, id, row, box);
    DeliveredRow(s.backend, s.ledger, id, row, box, at.part, at.message);
    hide JobOk, LedgerRowOk, GoodWrite, JobsOk, LedgerOk;
  }

  lemma WriteComplete(e: Env, s: State, id: int, j: Job, at: At)
    requires JobsOk(e, s) && LedgerOk(s) && Lasting(s, id, j, at) && Fenced(s, id, j, at) && at.CompleteWrite?
    ensures Write(s, id, j, at)
  {
    hide BoxMatches, IdentitiesMatch;
    assert JobOk(s.backend, id, s.db.jobs[id], s.db.BoxOf(id)) && LedgerRowOk(s.ledger, id, s.db.jobs[id], s.db.BoxOf(id));
  }

  /** Every statement a live lock holder commits takes its row along one of the five edges and keeps it sound. */
  lemma HolderWrites(e: Env, s: State, id: int, j: Job, at: At)
    requires JobsOk(e, s) && LedgerOk(s) && Lasting(s, id, j, at) && Fenced(s, id, j, at) && IsWrite(at)
    ensures Write(s, id, j, at)
  {
    hide JobsOk, LedgerOk, Lasting, Fenced, Write;
    match at
    case StatusWrite(_) => WriteStatus(e, s, id, j, at);
    case SubmittedWrite(_) => WriteSubmitted(e, s, id, j, at);
    case ResultWrite(_) => WriteResult(e, s, id, j, at);
    case PartWrite(_, _, _) => WritePart(e, s, id, j, at);
    case CompleteWrite => WriteComplete(e, s, id, j, at);
    case _ => WriteColumns(e, s, id, j, at);
  }

  // ----- lifting to the tables -----

  function Written(s: State, id: int, j: Job, at: At): State
    requires IsWrite(at)
  {
    s.(db := Execute(s.db, id, StatementOf(j, at), s.now), ledger := Receipted(s.ledger, id, at))
  }

  lemma WrittenRow(s: State, id: int, j: Job, at: At)
    requires Write(s, id, j, at)
    ensures var t := Written(s, id, j, at);
            var row, box, st := s.db.jobs[id], s.db.BoxOf(id), StatementOf(j, at);
            && t.db == s.db.(jobs := s.db.jobs[id := RowAfter(row, box, st, s.now)], outbox := t.db.outbox)
            && t.db.BoxOf(id) == BoxAfter(box, st)
            && (forall i | i != id :: t.db.BoxOf(i) == s.db.BoxOf(i))
            && t.db.outbox.Keys <= s.db.outbox.Keys + {id}
            && t.ledger.effects == s.ledger.effects && t.ledger.attempts == s.ledger.attempts && t.ledger.shown == s.ledger.shown
            && (forall slot: Slot | slot.id != id :: Count(t.ledger.receipts, slot) == Count(s.ledger.receipts, slot))
  {
  }

  lemma OwnRow(s: State, id: int, j: Job, at: At)
    requires Write(s, id, j, at)
    ensures var t := Written(s, id, j, at);
            GoodWrite(t.backend, s.ledger, id, s.db.jobs[id], s.db.BoxOf(id), t.db.jobs[id], t.db.BoxOf(id), t.ledger)
  {
    WrittenRow(s, id, j, at);
    hide GoodWrite, RowAfter, BoxAfter, Execute;
  }

  lemma SameRow(k: Backend, l: Ledger, i: int, row: Job, box: Box, l': Ledger)
    requires JobOk(k, i, row, box) && LedgerRowOk(l, i, row, box) && l'.shown == l.shown
    requires forall slot: Slot | slot.id == i :: Count(l'.receipts, slot) == Count(l.receipts, slot)
    ensures GoodWrite(k, l, i, row, box, row, box, l')
  {
    hide JobOk;
    assert Count(l'.receipts, StatusSlot(i)) == Count(l.receipts, StatusSlot(i));
    assert forall n: nat :: Count(l'.receipts, PartSlot(i, n)) == Count(l.receipts, PartSlot(i, n));
  }

  lemma OtherRow(s: State, id: int, j: Job, at: At, i: int)
    requires Write(s, id, j, at) && i in s.db.jobs && i != id
    requires JobOk(s.backend, i, s.db.jobs[i], s.db.BoxOf(i)) && LedgerRowOk(s.ledger, i, s.db.jobs[i], s.db.BoxOf(i))
    ensures var t := Written(s, id, j, at);
            GoodWrite(s.backend, s.ledger, i, s.db.jobs[i], s.db.BoxOf(i), t.db.jobs[i], t.db.BoxOf(i), t.ledger)
  {
    WrittenRow(s, id, j, at);
    hide Execute, RowAfter, BoxAfter, JobOk, LedgerRowOk, Write, GoodWrite;
    SameRow(s.backend, s.ledger, i, s.db.jobs[i], s.db.BoxOf(i), Written(s, id, j, at).ledger);
  }

  lemma WrittenRows(e: Env, s: State, id: int, j: Job, at: At)
    requires JobsOk(e, s) && LedgerOk(s) && Write(s, id, j, at)
    ensures var t := Written(s, id, j, at);
            JobsOk(e, t) && LedgerOk(t) && JobsEvolve(s.db, t.db) && EdgesOnly(s, t)
  {
    WrittenRow(s, id, j, at);
    var t := Written(s, id, j, at);
    assert id in s.db.jobs && t.db.jobs.Keys == s.db.jobs.Keys && t.backend == s.backend;
    forall i | i in s.db.jobs
      ensures GoodWrite(t.backend, s.ledger, i, s.db.jobs[i], s.db.BoxOf(i), t.db.jobs[i], t.db.BoxOf(i), t.ledger)
    {
      if i == id {
        OwnRow(s, id, j, at);
      } else {
        assert JobOk(s.backend, i, s.db.jobs[i], s.db.BoxOf(i)) && LedgerRowOk(s.ledger, i, s.db.jobs[i], s.db.BoxOf(i));
        OtherRow(s, id, j, at, i);
      }
    }
    hide Written, Execute, RowAfter, BoxAfter, JobOk, LedgerRowOk, RowEvolves, BoxEvolves, Edge, Write;
    GoodRows(e, s, t);
    assert forall i, k: nat | i !in s.db.jobs :: Count(t.ledger.receipts, PartSlot(i, k)) == Count(s.ledger.receipts, PartSlot(i, k));
    assert forall i | i !in s.db.jobs :: Count(t.ledger.receipts, StatusSlot(i)) == Count(s.ledger.receipts, StatusSlot(i));
  }

  lemma GoodRows(e: Env, s: State, t: State)
    requires JobsOk(e, s) && t.db.jobs.Keys == s.db.jobs.Keys && t.backend == s.backend && t.db.outbox.Keys <= t.db.jobs.Keys
    requires forall i | i in s.db.jobs ::
               GoodWrite(t.backend, s.ledger, i, s.db.jobs[i], s.db.BoxOf(i), t.db.jobs[i], t.db.BoxOf(i), t.ledger)
    ensures JobsOk(e, t) && JobsEvolve(s.db, t.db) && EdgesOnly(s, t)
    ensures forall i | i in t.db.jobs :: LedgerRowOk(t.ledger, i, t.db.jobs[i], t.db.BoxOf(i))
  {
    hide JobOk, LedgerRowOk, BoxEvolves, Edge;
    assert forall i | i in t.db.jobs ::
      GoodWrite(t.backend, s.ledger, i, s.db.jobs[i], s.db.BoxOf(i), t.db.jobs[i], t.db.BoxOf(i), t.ledger);
  }

  /** Leaving a queue needs every earlier job of the chat to have left it, which the unlocked check had established. */
  lemma WrittenFifo(e: Env, s: State, id: int, j: Job, at: At)
    requires JobsOk(e, s) && LedgerOk(s) && Fifo(s.db) && Lasting(s, id, j, at) && Fenced(s, id, j, at) && IsWrite(at)
    ensures Fifo(Written(s, id, j, at).db)
  {
    HolderWrites(e, s, id, j, at);
    WrittenRow(s, id, j, at);
    WriterMayLeave(s, id, j, at);
    var d := Written(s, id, j, at).db;
    hide *;
    FifoAfterOne(s.db, d, id);
  }

  // Whoever leaves a queue had found it open.
  lemma WriterMayLeave(s: State, id: int, j: Job, at: At)
    requires Write(s, id, j, at) && Lasting(s, id, j, at) && Fenced(s, id, j, at)
    ensures id in s.db.jobs
    ensures var row, row' := s.db.jobs[id], RowAfter(s.db.jobs[id], s.db.BoxOf(id), StatementOf(j, at), s.now);
            && row'.media == row.media && row.stage.Rank() <= row'.stage.Rank()
            && (row'.stage != row.stage && row.stage.Rank() <= 1 ==> Unblocked(s.db, id, row.stage))
            && Edge(row.stage, row'.stage)
  {
    WriterStage(s, id, j, at);
    hide JobOk, LedgerRowOk, BoxEvolves, RowAfter, BoxAfter, Unblocked, Lasting, Fenced;
  }

  lemma WriterStage(s: State, id: int, j: Job, at: At)
    requires Lasting(s, id, j, at) && Fenced(s, id, j, at) && IsWrite(at)
    ensures s.db.jobs[id].stage == j.stage && (j.stage.Rank() <= 1 ==> Unblocked(s.db, id, j.stage))
  {
    hide Unblocked, LowerDelivered, AtFits;
  }

  lemma FifoAfterOne(d: Db, d': Db, id: int)
    requires Fifo(d) && id in d.jobs && id in d'.jobs && d'.jobs == d.jobs[id := d'.jobs[id]]
    requires d'.jobs[id].media == d.jobs[id].media && d.jobs[id].stage.Rank() <= d'.jobs[id].stage.Rank()
    requires d'.jobs[id].stage != d.jobs[id].stage && d.jobs[id].stage.Rank() <= 1 ==> Unblocked(d, id, d.jobs[id].stage)
    requires Edge(d.jobs[id].stage, d'.jobs[id].stage)
    ensures Fifo(d')
  {
    forall i, k | i in d'.jobs && k in d'.jobs && i < k
      ensures FifoPair(d'.jobs[i], d'.jobs[k])
    {
      assert FifoPair(d.jobs[i], d.jobs[k]);
      if k == id {
        assert d'.jobs[id].stage == d.jobs[id].stage || d.jobs[id].stage.Rank() >= 2 || !Blocks(d, i, id, d.jobs[id].stage);
      }
    }
  }

  lemma WrittenIntake(s: State, id: int, j: Job, at: At)
    requires InboxOk(s.db) && TelegramOk(s) && Write(s, id, j, at)
    ensures var t := Written(s, id, j, at);
            && InboxOk(t.db) && TelegramOk(t) && InboxEvolves(s.db, t.db)
            && t.backend == s.backend && t.telegram == s.telegram && t.now == s.now && t.pool == s.pool && t.actors == s.actors
  {
    WrittenRow(s, id, j, at);
    var t := Written(s, id, j, at);
    assert t.db.inbox == s.db.inbox && t.db.cursor == s.db.cursor && t.db.jobs.Keys == s.db.jobs.Keys;
    assert t == s.(db := t.db, ledger := t.ledger);
    hide *;
    IntakeSame(s, t);
  }

  lemma IntakeSame(s: State, t: State)
    requires InboxOk(s.db) && TelegramOk(s) && t.telegram == s.telegram
    requires t.db.inbox == s.db.inbox && t.db.cursor == s.db.cursor && t.db.jobs.Keys == s.db.jobs.Keys
    ensures InboxOk(t.db) && TelegramOk(t) && InboxEvolves(s.db, t.db)
  {
    assert forall id | id in t.db.jobs :: id in s.db.jobs.Keys;
  }

  lemma WrittenData(e: Env, s: State, id: int, j: Job, at: At)
    requires DataOk(e, s) && Lasting(s, id, j, at) && Fenced(s, id, j, at) && IsWrite(at)
    ensures var t := Written(s, id, j, at);
            DataOk(e, t) && Evolves(s, t) && EdgesOnly(s, t)
  {
    var t := Written(s, id, j, at);
    assert JobsOk(e, s) && LedgerOk(s) && BackendOk(s) && Fifo(s.db) && InboxOk(s.db) && TelegramOk(s);
    hide *;
    HolderWrites(e, s, id, j, at);
    WrittenRows(e, s, id, j, at);
    WrittenIntake(s, id, j, at);
    BackendFollowsRows(s, t);
    WrittenFifo(e, s, id, j, at);
    DataParts(e, t);
    TablesEvolve(s, t);
  }

  lemma WrittenUntouched(s: State, id: int, j: Job, at: At, key: Key)
    requires Write(s, id, j, at) && key != JobKey(id)
    ensures Untouched(s, Written(s, id, j, at), key)
  {
    WrittenRow(s, id, j, at);
    hide Execute, RowAfter, BoxAfter, Write;
  }

  // ----- the writer's own position -----

  // Moving to a program point that asks nothing more of the data.
  lemma LastingMoves(s: State, id: int, j: Job, at: At, at': At)
    requires Lasting(s, id, j, at) && AtFits(j, at') && (PastCancel(j, at') ==> PastCancel(j, at))
    requires !at'.SubmittedWrite? && !at'.AckWrite? && !at'.PartSend? && !at'.PartWrite?
    ensures Lasting(s, id, j, at')
  {
    hide Unblocked, LowerDelivered;
  }

  lemma SettledIsOk(s: State, id: int, j: Job, at: At, next: AfterStop)
    requires Lasting(s, id, j, at) && Fenced(s, id, j, at) && Write(s, id, j, at) && Uploading(j, at) && !next.Fail?
    requires Evolves(s, Written(s, id, j, at))
    ensures var t := Written(s, id, j, at);
            Lasting(t, id, j, Stopping(next)) && Fenced(t, id, j, Stopping(next))
  {
    var t := Written(s, id, j, at);
    WrittenRow(s, id, j, at);
    hide Execute, RowAfter, BoxAfter, Write, Written, Evolves;
    LastingIsStable(s, t, id, j, at);
    LastingMoves(t, id, j, at, Stopping(next));
    hide Lasting;
  }

  lemma ColumnAgrees(row: Job, box: Box, j: Job, at: At, at': At, now: int)
    requires Agrees(row, j, at) && AtFits(j, at) && ColumnMove(j, at, at')
    ensures IsWrite(at) && Agrees(RowAfter(row, box, StatementOf(j, at), now), j, at') && AtFits(j, at')
  {
    hide ResultParts;
  }

  // Writes after which the snapshot still is the row, but for the columns they set.
  ghost predicate ColumnMove(j: Job, at: At, at': At) {
    || (at.ProgressWrite? && at' == ScheduleWrite(POLL_INTERVAL, ""))
    || (at.AckWrite? && at' == At.NextPart(false))
    || (at.PartWrite? && (at'.Failing? || at'.CompleteWrite?))
  }

  lemma ColumnIsOk(s: State, id: int, j: Job, at: At, at': At)
    requires Lasting(s, id, j, at) && Fenced(s, id, j, at) && Write(s, id, j, at) && Evolves(s, Written(s, id, j, at))
    requires ColumnMove(j, at, at')
    ensures var t := Written(s, id, j, at);
            Lasting(t, id, j, at') && Fenced(t, id, j, at')
  {
    var t := Written(s, id, j, at);
    WrittenRow(s, id, j, at);
    ColumnAgrees(s.db.jobs[id], s.db.BoxOf(id), j, at, at', s.now);
    assert t.db.BoxOf(id).Keys == s.db.BoxOf(id).Keys;
    hide Execute, BoxAfter, RowAfter, Write, Written, Evolves, Agrees;
    LastingIsStable(s, t, id, j, at);
    LastingMoves(t, id, j, at, at');
    hide Lasting;
  }

  lemma WorkingIsOk(s: State, id: int, j: Job, at: At)
    requires Lasting(s, id, j, at) && Fenced(s, id, j, at)
    ensures PcOk(s, JobKey(id), Working(j, at), true)
  {
  }

  lemma AfterWriteIsOk(s: State, id: int, j: Job, at: At)
    requires Lasting(s, id, j, at) && Fenced(s, id, j, at) && Write(s, id, j, at) && IsWrite(at) && AtFits(j, at)
    requires Evolves(s, Written(s, id, j, at))
    ensures PcOk(Written(s, id, j, at), JobKey(id), AfterWrite(j, at), true)
  {
    hide Write, Written, Evolves, Lasting, Fenced;
    var t := Written(s, id, j, at);
    var pc := AfterWrite(j, at);
    if pc.Working? {
      if pc.at.Stopping? {
        SettledIsOk(s, id, j, at, Exit);
      } else {
        ColumnIsOk(s, id, j, at, pc.at);
      }
      WorkingIsOk(t, id, j, pc.at);
    }
  }

  // ----- the step -----

  lemma SameDataLater(s: State, u: State, t: State)
    requires Evolves(s, u) && EdgesOnly(s, u) && SameData(u, t) && TimeEvolves(u, t) && u.pool == s.pool
    ensures Evolves(s, t) && EdgesOnly(s, t) && s.now <= t.now
  {
    hide JobsEvolve, BackendEvolves, InboxEvolves, TelegramEvolves;
  }

  /** A committed write by a live holder, seen or unseen, keeps the invariant. */
  lemma CommittedStep(e: Env, s: State, a: nat, id: int, j: Job, at: At, u: State, t: State)
    requires Inv(e, s) && HasLive(s, a) && s.actors[a].key == JobKey(id)
    requires Lasting(s, id, j, at) && Fenced(s, id, j, at) && IsWrite(at) && u == Written(s, id, j, at)
    requires SameData(u, t) && TimeEvolves(u, t) && PoolOk(e, t) && ActorOk(t, a)
    requires t.actors - {a} == s.actors - {a} && u.pool == s.pool && u.actors == s.actors
    ensures Inv(e, t) && Evolves(s, t) && EdgesOnly(s, t)
  {
    hide *;
    InvParts(e, s);
    WrittenData(e, s, id, j, at);
    QuietData(e, u, t);
    SameDataLater(s, u, t);
    WriteDisturbs(e, s, a, id, j, at, t);
    StepByOneActor(e, s, t, a);
  }

  lemma WriteDisturbs(e: Env, s: State, a: nat, id: int, j: Job, at: At, t: State)
    requires JobsOk(e, s) && LedgerOk(s) && HasLive(s, a) && s.actors[a].key == JobKey(id)
    requires Lasting(s, id, j, at) && Fenced(s, id, j, at) && IsWrite(at)
    requires SameData(Written(s, id, j, at), t) && s.now <= t.now
    ensures Disturbs(s, t, a)
  {
    HolderWrites(e, s, id, j, at);
    var u := Written(s, id, j, at);
    hide Written, Write, JobsOk, LedgerOk, Lasting, Fenced;
    forall key | key != JobKey(id)
      ensures Untouched(s, t, key)
    {
      WrittenUntouched(s, id, j, at, key);
      UntouchedSame(s, u, t, key);
    }
    hide Untouched;
  }

  lemma UntouchedSame(s: State, u: State, t: State, key: Key)
    requires Untouched(s, u, key) && SameData(u, t) && u.now <= t.now
    ensures Untouched(s, t, key)
  {
  }
}
