/** The invariant that makes the unguarded SQL safe, and the two-state relations its proof rests on. */
module EngineInvariant {
  import opened Options
  import opened ResultPlan
  import opened Tables
  import opened Locks
  import opened Engine
  import Backoff

  // ----- one job -----

  ghost predicate Prefix(box: Box) {
    forall i, k | i in box && k in box && i < k && box[k].delivered :: box[i].delivered
  }

  // The outbox is exactly the numbered plan, delivered from the front.
  ghost predicate BoxMatches(box: Box, parts: seq<Delivery>) {
    && (forall k: nat :: k in box <==> k < |parts|)
    && (forall k | k in box :: box[k].plan == parts[k])
    && Prefix(box)
  }

  ghost predicate OwnBackendJob(k: Backend, id: int, b: string) {
    b in k.jobs && k.jobs[b].origin == id
  }

  ghost predicate JobOk(k: Backend, id: int, row: Job, box: Box) {
    && (row.stage.Rank() <= 1 ==> row.jobId == "")
    && (row.stage.Rank() <= 2 ==> row.result == None && box == map[] && !row.acknowledged)
    && (row.cancelRequested ==> row.jobId != "") && row.attempts >= 0
    && (row.stage == Poll ==> row.jobId != "")
    && (row.jobId != "" ==> OwnBackendJob(k, id, row.jobId))
    && (row.stage.Rank() >= 3 ==>
          && row.result.Some? && BoxMatches(box, ResultParts(row.media.preset, row.result.value))
          && if row.jobId == "" then row.acknowledged && row.result.value == UPLOAD_INVALID
             else k.jobs[row.jobId].terminal == row.result && (row.acknowledged ==> k.jobs[row.jobId].acked))
    && (row.stage == Stage.Done ==> row.acknowledged && AllDelivered(box))
  }

  // Receipts are committed once; what is shown never runs ahead of the stage.
  ghost predicate LedgerRowOk(l: Ledger, id: int, row: Job, box: Box) {
    && Count(l.receipts, StatusSlot(id)) == (if row.stage == Status then 0 else 1)
    && (forall k: nat :: Count(l.receipts, PartSlot(id, k)) == if k in box && box[k].delivered then 1 else 0)
    && ShownStage(l, id).Rank() <= row.stage.Rank()
  }

  ghost predicate JobsOk(e: Env, s: State) {
    && IdentitiesMatch(s.db, e.bot)
    && s.db.outbox.Keys <= s.db.jobs.Keys
    && (forall id | id in s.db.jobs :: JobOk(s.backend, id, s.db.jobs[id], s.db.BoxOf(id)))
  }

  ghost predicate LedgerOk(s: State) {
    && (forall id | id in s.db.jobs :: LedgerRowOk(s.ledger, id, s.db.jobs[id], s.db.BoxOf(id)))
    && (forall id | id !in s.db.jobs ::
          && Count(s.ledger.receipts, StatusSlot(id)) == 0 && id !in s.ledger.shown
          && forall k: nat :: Count(s.ledger.receipts, PartSlot(id, k)) == 0)
    && (forall slot :: Count(s.ledger.effects, slot) <= Count(s.ledger.attempts, slot))
  }

  // ----- the backend's side -----

  ghost predicate BackendJobOk(s: State, b: string) {
    b in s.backend.jobs ==>
      var w := s.backend.jobs[b];
      && b != "" && w.requestId in s.backend.requests && s.backend.requests[w.requestId] == b
      && w.origin in s.db.jobs
      && var row := s.db.jobs[w.origin];
      && w.requestId == row.requestId
      && w.file == row.media.file && w.format == row.media.format && w.preset == row.media.preset
      && (w.purged ==> w.acked)
      && (w.acked ==> row.jobId == b && row.stage.Rank() >= 3)
  }

  ghost predicate BackendOk(s: State) {
    && (forall b | b in s.backend.jobs :: BackendJobOk(s, b))
    && (forall r | r in s.backend.requests ::
          s.backend.requests[r] in s.backend.jobs && s.backend.jobs[s.backend.requests[r]].requestId == r)
  }

  // ----- order -----

  ghost predicate FifoPair(earlier: Job, later: Job) {
    earlier.media.chat == later.media.chat ==>
      && (later.stage.Rank() >= 1 ==> earlier.stage.Rank() >= 1)
      && (later.stage.Rank() >= 2 ==> earlier.stage.Rank() >= 2)
  }

  /** Per-chat FIFO: a job leaves the status stage, and the upload stage, only after every earlier one of its chat. */
  ghost predicate Fifo(db: Db) {
    forall i, j | i in db.jobs && j in db.jobs && i < j :: FifoPair(db.jobs[i], db.jobs[j])
  }

  ghost predicate InboxOk(db: Db) {
    && (forall u, v | u in db.inbox && v in db.inbox && u < v && db.inbox[v].handled :: db.inbox[u].handled)
    && (forall u | u in db.inbox :: u < db.cursor && (db.inbox[u].handled <==> db.inbox[u].payload.None?))
    && (forall id | id in db.jobs :: id in db.inbox && db.inbox[id].handled)
  }

  ghost predicate TelegramOk(s: State) {
    && 0 <= s.telegram.floor <= s.db.cursor
    && (forall u | u in s.telegram.updates :: 0 <= u && (u < s.db.cursor ==> u in s.db.inbox))
    && (s.db.cursor > 0 ==> s.db.cursor - 1 in s.telegram.updates)
    && (forall u | u in s.db.inbox ::
          u in s.telegram.updates && (!s.db.inbox[u].handled ==> s.db.inbox[u].payload == Some(s.telegram.updates[u])))
  }

  // ----- actors -----

  ghost predicate CandidatesOk(db: Db, stage: Stage, ids: seq<int>) {
    forall id | id in ids :: CandidateOk(db, stage, id)
  }

  // An unlocked check that stays true: nothing that blocked or was blocked can come back.
  ghost predicate CandidateOk(db: Db, stage: Stage, id: int) {
    id in db.jobs && stage.Rank() <= db.jobs[id].stage.Rank() && Unblocked(db, id, stage)
  }

  ghost predicate AtFits(j: Job, at: At) {
    && j.stage != Stage.Done
    && (at.StatusSend? || at.StatusWrite? ==> j.stage == Status)
    && (at.UploadCall? || at.SubmittedWrite? || at.Stopping? ==> j.stage == Upload)
    && (at.PollCancel? || at.PollGet? || at.PollShow? || at.ProgressWrite? ==> j.stage == Poll)
    && (at.ResultWrite? ==> j.stage == Poll || (j.stage == Upload && at.result == UPLOAD_INVALID))
    && (at.AckCall? || at.AckWrite? || at.NextPart? || at.PartSend? || at.PartWrite? || at.CompleteWrite? ==> j.stage == Deliver)
    && (at.AckCall? || at.AckWrite? ==> !j.acknowledged)
    && (j.cancelRequested && j.stage == Poll ==> j.jobId != "")
    && (at.ScheduleWrite? && at.code == "" ==> j.stage == Poll && at.delay == 5)
    && (at.PollShow? ==> at.text != j.progressText)
    && (at.ScheduleWrite? && at.code != "" ==> at.code == "stage_failed" && at.delay >= Backoff.RetryDelay(j.attempts))
  }

  // After a requested cancellation was read, the poll stage goes on only once the backend was told.
  ghost predicate PastCancel(j: Job, at: At) {
    j.stage == Poll && j.cancelRequested && (at.PollGet? || at.PollShow? || at.ProgressWrite? || at.ResultWrite?)
  }

  ghost predicate LowerDelivered(box: Box, part: nat) {
    part in box && forall i | i in box && i < part :: box[i].delivered
  }

  /** What a snapshot guarantees for good, even after the actor's session has died. */
  ghost predicate Lasting(s: State, id: int, j: Job, at: At) {
    && id in s.db.jobs && AtFits(j, at)
    && var row, box := s.db.jobs[id], s.db.BoxOf(id);
    && row.media == j.media && row.requestId == j.requestId && j.stage.Rank() <= row.stage.Rank() && j.nextAttempt <= s.now
    && (j.cancelRequested ==> row.cancelRequested)
    && (j.stage.Rank() <= 1 ==> Unblocked(s.db, id, j.stage))
    && (j.stage.Rank() >= 2 ==> row.jobId == j.jobId)
    && (j.stage == Poll ==> j.jobId != "")
    && (j.stage == Deliver ==> row.result == j.result && (j.jobId == "" ==> j.acknowledged))
    && (at.SubmittedWrite? ==> at.jobId != "" && OwnBackendJob(s.backend, id, at.jobId))
    && (PastCancel(j, at) ==> j.jobId in s.backend.jobs && s.backend.jobs[j.jobId].cancelled)
    && (at.AckWrite? ==> j.jobId in s.backend.jobs && s.backend.jobs[j.jobId].acked)
    && (at.PartSend? ==> LowerDelivered(box, at.part) && box[at.part].plan == at.plan)
    && (at.PartWrite? ==> LowerDelivered(box, at.part))
  }

  // Stages whose snapshot its own committed write has overtaken; only the progress display is left to stop.
  ghost predicate Settled(at: At) {
    at.Stopping? && !at.next.Fail?
  }

  // Points where the actor's own acknowledgement may already be stored.
  ghost predicate OwnAckPossible(j: Job, at: At) {
    && j.stage == Deliver
    && (at.NextPart? || at.PartSend? || at.PartWrite? || at.CompleteWrite? || at.Failing? || at.ScheduleWrite?)
  }

  // Points where the actor's own progress text may already be stored.
  ghost predicate OwnTextPossible(j: Job, at: At) {
    j.stage == Poll && (at.ScheduleWrite? || at.Failing?)
  }

  /** The snapshot is the row, but for the actor's own writes, cancel_requested and next_attempt_at; and next_attempt_at
      has moved only if a cancellation was requested. */
  ghost predicate Agrees(row: Job, j: Job, at: At) {
    && (row.cancelRequested || row.nextAttempt == j.nextAttempt)
    && row == j.(cancelRequested := row.cancelRequested, nextAttempt := row.nextAttempt,
              acknowledged := if OwnAckPossible(j, at) then row.acknowledged else j.acknowledged,
              progressText := if OwnTextPossible(j, at) then row.progressText else j.progressText)
  }

  /** What holds only while the session lives, because the job lock then keeps other writers out. */
  ghost predicate Fenced(s: State, id: int, j: Job, at: At)
    requires id in s.db.jobs
  {
    var row, box := s.db.jobs[id], s.db.BoxOf(id);
    && (!Settled(at) ==> Agrees(row, j, at) && row.nextAttempt <= s.now)
    && (at.ResultWrite? && j.stage == Poll ==>
          j.jobId in s.backend.jobs && s.backend.jobs[j.jobId].terminal == Some(at.result))
    && (at.PartSend? || at.PartWrite? ==> at.part in box && !box[at.part].delivered)
    && (Uploading(j, at) ==> ShownStage(s.ledger, id).Rank() <= 1)
  }

  // The batch leaves out no update between the offset and its last one.
  ghost predicate NoGap(s: State, offset: int, batch: seq<Record>) {
    && Increasing(batch)
    && forall u, r | u in s.telegram.updates && offset <= u && r in batch && u < r.id :: u in RecordIds(batch)
  }

  ghost predicate PcOk(s: State, key: Key, pc: PC, live: bool) {
    match key
    case JobKey(id) =>
      (match pc
       case Reading(stage, rest) => CandidatesOk(s.db, stage, [id] + rest)
       case Working(j, at) => Lasting(s, id, j, at) && (live ==> Fenced(s, id, j, at))
       case Leaving(Some(r)) => CandidatesOk(s.db, r.0, r.1)
       case Leaving(None) => true
       case _ => false)
    case InboxKey =>
      (match pc
       case InboxIdle => true
       case InboxHas(id, u) => live ==> IsInboxNext(s.db, id) && s.db.inbox[id].payload == Some(u)
       case InboxCommit(id, _) => live ==> IsInboxNext(s.db, id)
       case Leaving(resume) => resume.None?
       case _ => false)
    case PollerKey =>
      (match pc
       case PollerNew => true
       case PollerIdle => true
       case PollerClosing => true
       case PollerFetch(offset) => 0 <= offset <= s.db.cursor && (live ==> offset == s.db.cursor)
       case PollerAccept(offset, batch) =>
         && (forall r | r in batch :: r.id in s.telegram.updates && s.telegram.updates[r.id] == r.payload)
         && (live ==> offset == s.db.cursor && NoGap(s, offset, batch))
       case _ => false)
  }

  ghost predicate ActorOk(s: State, a: nat) {
    a in s.actors ==>
      match s.actors[a]
      case Scanning(stage, ids) => CandidatesOk(s.db, stage, ids)
      case Holding(session, key, pc) => PcOk(s, key, pc, session in s.pool.live)
  }

  // ----- the whole -----

  function ClaimsOf(e: Env, s: State): Claims {
    map a | a in s.actors && s.actors[a].Holding? :: Claim(s.actors[a].session, e.hash(s.actors[a].key))
  }

  ghost predicate PoolOk(e: Env, s: State) {
    && Sound(s.pool, ClaimsOf(e, s))
    && (forall a | a in s.actors && s.actors[a].Holding? && s.actors[a].session in s.pool.tuned :: s.actors[a].key.PollerKey?)
  }

  ghost predicate DataOk(e: Env, s: State) {
    JobsOk(e, s) && LedgerOk(s) && BackendOk(s) && Fifo(s.db) && InboxOk(s.db) && TelegramOk(s)
  }

  ghost predicate Inv(e: Env, s: State) {
    && PoolOk(e, s)
    && DataOk(e, s)
    && forall a | a in s.actors :: ActorOk(s, a)
  }

  // ----- what every step does -----

  // The five transitions of a committed change, and no other.
  ghost predicate Edge(a: Stage, b: Stage) {
    || a == b
    || (a == Status && b == Upload)
    || (a == Upload && b == Poll)
    || (a == Upload && b == Deliver)
    || (a == Poll && b == Deliver)
    || (a == Deliver && b == Stage.Done)
  }

  ghost predicate BoxEvolves(box: Box, box': Box) {
    forall k | k in box :: k in box' && box'[k].plan == box[k].plan && (box[k].delivered ==> box'[k].delivered)
  }

  ghost predicate RowEvolves(row: Job, row': Job) {
    && row'.media == row.media && row'.requestId == row.requestId
    && row.stage.Rank() <= row'.stage.Rank()
    && (row.stage.Rank() >= 1 ==> row'.statusMessage == row.statusMessage)
    && (row.stage.Rank() >= 2 ==> row'.jobId == row.jobId)
    && (row.stage.Rank() >= 3 ==> row'.result == row.result)
    && (row.acknowledged ==> row'.acknowledged)
    && (row.cancelRequested ==> row'.cancelRequested)
  }

  ghost predicate JobsEvolve(db: Db, db': Db) {
    && (forall id | id in db.jobs :: id in db'.jobs && RowEvolves(db.jobs[id], db'.jobs[id]) && BoxEvolves(db.BoxOf(id), db'.BoxOf(id)))
    && (forall i, id | i in db.jobs && id in db'.jobs && id !in db.jobs :: i < id)
  }

  ghost predicate BackendJobEvolves(w: BackendJob, w': BackendJob) {
    && w'.requestId == w.requestId && w'.origin == w.origin
    && w'.file == w.file && w'.format == w.format && w'.preset == w.preset
    && (w.terminal.Some? ==> w'.terminal == w.terminal)
    && (w.cancelled ==> w'.cancelled) && (w.acked ==> w'.acked) && (w.purged ==> w'.purged)
  }

  ghost predicate BackendEvolves(k: Backend, k': Backend) {
    && (forall b | b in k.jobs :: b in k'.jobs && BackendJobEvolves(k.jobs[b], k'.jobs[b]))
    && (forall r | r in k.requests :: r in k'.requests && k'.requests[r] == k.requests[r])
  }

  ghost predicate InboxEvolves(db: Db, db': Db) {
    && db.cursor <= db'.cursor
    && (forall u | u in db.inbox :: u in db'.inbox && (db.inbox[u].handled ==> db'.inbox[u].handled))
    && (forall u, v | u in db.inbox && v in db'.inbox && v !in db.inbox :: u < v)
  }

  ghost predicate TelegramEvolves(g: Telegram, g': Telegram) {
    && g.floor <= g'.floor
    && (forall u | u in g.updates :: u in g'.updates && g'.updates[u] == g.updates[u])
    && (forall u, v | u in g.updates && v in g'.updates && v !in g.updates :: u < v)
  }

  /** Nothing durable is undone: states, ids, results, receipts, requests, cursor and inbox only move forward. */
  ghost predicate Evolves(s: State, t: State) {
    && JobsEvolve(s.db, t.db)
    && BackendEvolves(s.backend, t.backend)
    && InboxEvolves(s.db, t.db)
    && TelegramEvolves(s.telegram, t.telegram)
    && s.now <= t.now && s.pool.next <= t.pool.next
    && (forall x | x in t.pool.live :: x in s.pool.live || x >= s.pool.next)
  }

  /** A step that leaves alone what the holder of this key relies on. */
  ghost predicate Untouched(s: State, t: State, key: Key) {
    match key
    case JobKey(id) =>
      id in s.db.jobs ==>
        && id in t.db.jobs
        && t.db.jobs[id] == s.db.jobs[id].(cancelRequested := t.db.jobs[id].cancelRequested, nextAttempt := t.db.jobs[id].nextAttempt)
        && (t.db.jobs[id].nextAttempt == s.db.jobs[id].nextAttempt
            || (t.db.jobs[id].cancelRequested && t.db.jobs[id].nextAttempt <= t.now))
        && t.db.BoxOf(id) == s.db.BoxOf(id)
        && ShownStage(t.ledger, id) == ShownStage(s.ledger, id)
    case InboxKey => forall u | u in s.db.inbox :: u in t.db.inbox && t.db.inbox[u] == s.db.inbox[u]
    case PollerKey => t.db.cursor == s.db.cursor
  }
}
