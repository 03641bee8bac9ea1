/** The PostgreSQL tables of one bot and its SQL statements, each as a function from table contents to table contents. */
module Tables {
  import opened Options
  import opened ResultPlan
  import Identity
  import opened Updates

  datatype Stage = Status | Upload | Poll | Deliver | Done {
    function Rank(): nat {
      match this
      case Status => 0
      case Upload => 1
      case Poll => 2
      case Deliver => 3
      case Done => 4
    }
  }

  datatype Job = Job(
    media: Media,
    requestId: string,
    jobId: string,
    statusMessage: int,
    stage: Stage,
    result: Option<JobResult>,
    acknowledged: bool,
    cancelRequested: bool,
    progressText: string,
    attempts: int,
    nextAttempt: int,
    lastError: string)

  datatype Part = Part(plan: Delivery, delivered: bool, messageId: int)

  // The outbox rows of one job, by part number.
  type Box = map<nat, Part>

  // A handled row keeps its key; its payload is erased.
  datatype InboxRow = InboxRow(payload: Option<Update>, handled: bool)

  datatype Db = Db(
    cursor: int,
    inbox: map<int, InboxRow>,
    jobs: map<int, Job>,
    outbox: map<int, Box>,
    chats: set<int>,
    presets: map<int, string>)
  {
    function BoxOf(id: int): Box {
      if id in outbox then outbox[id] else map[]
    }
  }

  const EMPTY := Db(0, map[], map[], map[], {}, map[])

  // ----- intake: cursor_write.sql, inbox_insert.sql, inbox_next.sql, inbox_done.sql -----

  function CursorWrite(db: Db, next: int): Db {
    db.(cursor := if next > db.cursor then next else db.cursor)
  }

  function InboxInsert(db: Db, id: int, payload: Update): Db {
    if id in db.inbox then db else db.(inbox := db.inbox[id := InboxRow(Some(payload), false)])
  }

  // A getUpdates entry and its id.
  datatype Record = Record(id: int, payload: Update)

  function InsertAll(db: Db, records: seq<Record>): Db
    decreases |records|
  {
    if records == [] then db else InsertAll(InboxInsert(db, records[0].id, records[0].payload), records[1..])
  }

  // The transaction of Poller.Accept.
  function AcceptBatch(db: Db, records: seq<Record>, next: int): Db {
    CursorWrite(InsertAll(db, records), next)
  }

  function RecordIds(records: seq<Record>): set<int> {
    set r | r in records :: r.id
  }

  predicate Increasing(records: seq<Record>) {
    forall m, n | 0 <= m < n < |records| :: records[m].id < records[n].id
  }

  /** A batch adds its unseen ids, unhandled, and leaves every stored row and every other table alone. */
  lemma {:induction false} InsertAllEffect(db: Db, records: seq<Record>)
    ensures var d := InsertAll(db, records);
            && d == db.(inbox := d.inbox)
            && d.inbox.Keys == db.inbox.Keys + RecordIds(records)
            && (forall u | u in db.inbox :: d.inbox[u] == db.inbox[u])
            && (forall u | u in d.inbox && u !in db.inbox ::
                  !d.inbox[u].handled && d.inbox[u].payload.Some? && Record(u, d.inbox[u].payload.value) in records)
    decreases |records|
  {
    if records != [] {
      var first := InboxInsert(db, records[0].id, records[0].payload);
      InsertAllEffect(first, records[1..]);
      var d := InsertAll(db, records);
      assert RecordIds(records) == {records[0].id} + RecordIds(records[1..]) by {
        assert records == [records[0]] + records[1..];
      }
      forall u | u in d.inbox && u !in db.inbox
        ensures !d.inbox[u].handled && d.inbox[u].payload.Some? && Record(u, d.inbox[u].payload.value) in records
      {
        if u == records[0].id {
          assert first.inbox[u] == InboxRow(Some(records[0].payload), false);
          assert records[0] == Record(u, records[0].payload);
        } else {
          assert u !in first.inbox;
        }
      }
    }
  }

  /** The cursor takes the new offset only if it is ahead. */
  lemma CursorIsMonotone(db: Db, records: seq<Record>, next: int)
    ensures var c := AcceptBatch(db, records, next).cursor;
            db.cursor <= c && next <= c && c in {db.cursor, next}
  {
    InsertAllEffect(db, records);
  }

  predicate IsInboxNext(db: Db, id: int) {
    && id in db.inbox && !db.inbox[id].handled
    && forall u | u in db.inbox && u < id :: db.inbox[u].handled
  }

  predicate InboxDrained(db: Db) {
    forall u | u in db.inbox :: db.inbox[u].handled
  }

  function InboxDone(db: Db, id: int): Db {
    if id in db.inbox then db.(inbox := db.inbox[id := InboxRow(None, true)]) else db
  }

  // ----- admission: job_insert.sql with the keys of migration 0002 -----

  function FreshJob(media: Media, requestId: string, now: int): Job {
    Job(media, requestId, "", 0, Status, None, false, false, "", 0, now, "")
  }

  // Does (chat, message) already name an admitted job?
  predicate SameMessage(db: Db, media: Media) {
    exists i | i in db.jobs :: db.jobs[i].media.chat == media.chat && db.jobs[i].media.message == media.message
  }

  predicate InsertConflicts(db: Db, id: int, media: Media, requestId: string) {
    || id in db.jobs
    || SameMessage(db, media)
    || (exists i | i in db.jobs :: db.jobs[i].requestId == requestId)
  }

  function JobInsert(db: Db, id: int, media: Media, requestId: string, now: int): Db {
    if InsertConflicts(db, id, media, requestId) then db
    else db.(jobs := db.jobs[id := FreshJob(media, requestId, now)])
  }

  // Rows carry the identity of the update that made them.
  predicate IdentitiesMatch(db: Db, bot: int) {
    forall i | i in db.jobs :: db.jobs[i].requestId == Identity.RequestId(bot, i)
  }

  /** ON CONFLICT DO NOTHING drops an admitted job only for a repeated update id or a repeated chat/message pair. */
  lemma ConflictIsARepeat(db: Db, bot: int, id: int, media: Media)
    requires IdentitiesMatch(db, bot)
    ensures InsertConflicts(db, id, media, Identity.RequestId(bot, id)) <==> id in db.jobs || SameMessage(db, media)
  {
    if i :| i in db.jobs && db.jobs[i].requestId == Identity.RequestId(bot, id) {
      Identity.RequestIdIsInjective(bot, i, bot, id);
    }
  }

  // The transaction of ProcessInbox: the job insert and the inbox mark commit together.
  function AdmitTx(bot: int, db: Db, id: int, media: Option<Media>, now: int): Db {
    InboxDone(if media.Some? then JobInsert(db, id, media.value, Identity.RequestId(bot, id), now) else db, id)
  }

  // ----- the statements a job's lock holder runs -----

  datatype Statement =
    | SetStatus(message: int)            // job_status.sql
    | SetSubmitted(jobId: string)        // job_submitted.sql
    | Schedule(delay: nat, code: string) // job_schedule.sql
    | SetProgress(text: string)          // job_progress.sql
    | SetAcknowledged                    // job_ack.sql
    | SaveResult(result: JobResult, parts: seq<Delivery>) // job_result.sql and delivery_insert.sql, one transaction
    | SetDelivered(part: nat, message: int) // delivery_done.sql
    | Complete                           // job_done.sql

  predicate AllDelivered(box: Box) {
    forall k | k in box :: box[k].delivered
  }

  function RowAfter(row: Job, box: Box, s: Statement, now: int): Job {
    match s
    case SetStatus(m) => row.(statusMessage := m, stage := Upload, attempts := 0, lastError := "", nextAttempt := now)
    case SetSubmitted(b) => row.(jobId := b, stage := Poll, attempts := 0, lastError := "", nextAttempt := now)
    case Schedule(delay, code) =>
      row.(nextAttempt := now + delay, attempts := if code == "" then 0 else row.attempts + 1, lastError := code)
    case SetProgress(text) => row.(progressText := text)
    case SetAcknowledged => row.(acknowledged := true)
    case SaveResult(r, _) =>
      row.(result := Some(r), stage := Deliver, acknowledged := row.jobId == "", attempts := 0, lastError := "",
           nextAttempt := now)
    case SetDelivered(_, _) => row
    case Complete => if row.acknowledged && AllDelivered(box) then row.(stage := Stage.Done) else row
  }

  // The first n parts inserted, skipping numbers that are taken.
  function InsertParts(box: Box, parts: seq<Delivery>, n: nat): Box
    requires n <= |parts|
  {
    box + map k: nat | k < n && k !in box :: Part(parts[k], false, 0)
  }

  function BoxAfter(box: Box, s: Statement): Box {
    match s
    case SaveResult(_, parts) => InsertParts(box, parts, |parts|)
    case SetDelivered(k, m) => if k in box then box[k := box[k].(delivered := true, messageId := m)] else box
    case _ => box
  }

  function Execute(db: Db, id: int, s: Statement, now: int): Db {
    if id !in db.jobs then db
    else
      var row, box := db.jobs[id], db.BoxOf(id);
      db.(jobs := db.jobs[id := RowAfter(row, box, s, now)],
          outbox := if BoxAfter(box, s) == box then db.outbox else db.outbox[id := BoxAfter(box, s)])
  }

  // job_result.sql and delivery_insert.sql one by one, as the transaction of Work.Result runs them.
  function JobResultOnly(db: Db, id: int, r: JobResult, now: int): Db {
    if id !in db.jobs then db else db.(jobs := db.jobs[id := RowAfter(db.jobs[id], map[], SaveResult(r, []), now)])
  }

  function DeliveryInsert(db: Db, id: int, part: nat, d: Delivery): Db {
    if part in db.BoxOf(id) then db else db.(outbox := db.outbox[id := db.BoxOf(id)[part := Part(d, false, 0)]])
  }

  function DeliveryInserts(db: Db, id: int, parts: seq<Delivery>, n: nat): Db
    requires n <= |parts|
  {
    if n == 0 then db else DeliveryInsert(DeliveryInserts(db, id, parts, n - 1), id, n - 1, parts[n - 1])
  }

  lemma InsertStep(box: Box, parts: seq<Delivery>, n: nat)
    requires n < |parts|
    ensures var c := InsertParts(box, parts, n);
            && (n in c <==> n in box)
            && InsertParts(box, parts, n + 1) == if n in box then c else c[n := Part(parts[n], false, 0)]
  {
  }

  // The outbox with one job's box, where an unchanged box leaves the table alone.
  function WithBox(db: Db, id: int, box: Box): Db {
    db.(outbox := if box == db.BoxOf(id) then db.outbox else db.outbox[id := box])
  }

  lemma {:induction false} InsertsFill(db: Db, id: int, parts: seq<Delivery>, n: nat)
    requires n <= |parts|
    ensures DeliveryInserts(db, id, parts, n) == WithBox(db, id, InsertParts(db.BoxOf(id), parts, n))
  {
    if n == 0 {
      assert InsertParts(db.BoxOf(id), parts, 0) == db.BoxOf(id);
    } else {
      InsertsFill(db, id, parts, n - 1);
      InsertStep(db.BoxOf(id), parts, n - 1);
      var c := InsertParts(db.BoxOf(id), parts, n - 1);
      InsertInto(db, id, c, n - 1, parts[n - 1]);
    }
  }

  lemma InsertInto(db: Db, id: int, c: Box, k: nat, d: Delivery)
    requires k in c <==> k in db.BoxOf(id)
    ensures DeliveryInsert(WithBox(db, id, c), id, k, d) == WithBox(db, id, if k in c then c else c[k := Part(d, false, 0)])
  {
    var w := WithBox(db, id, c);
    assert w.BoxOf(id) == c;
    if k !in c {
      var c' := c[k := Part(d, false, 0)];
      assert k in c' && c' != db.BoxOf(id);
      assert w.outbox[id := c'] == db.outbox[id := c'];
    }
  }

  /** The transaction's inserts, one by one, are the whole-plan insert. */
  lemma ResultTransaction(db: Db, id: int, r: JobResult, parts: seq<Delivery>, now: int)
    requires id in db.jobs
    ensures DeliveryInserts(JobResultOnly(db, id, r, now), id, parts, |parts|) == Execute(db, id, SaveResult(r, parts), now)
  {
    InsertsFill(JobResultOnly(db, id, r, now), id, parts, |parts|);
    assert JobResultOnly(db, id, r, now).BoxOf(id) == db.BoxOf(id);
  }

  function ExecuteAll(db: Db, id: int, statements: seq<Statement>, now: int): Db {
    if statements == [] then db
    else Execute(ExecuteAll(db, id, statements[..|statements| - 1], now), id, statements[|statements| - 1], now)
  }

  // delivery_next.sql
  predicate IsNextPart(box: Box, k: nat) {
    k in box && !box[k].delivered && forall i | i in box && i < k :: box[i].delivered
  }

  // ----- job_cancel.sql: runs on a pooled connection, outside every job lock -----

  function Cancelled(row: Job, jobId: string, chat: int, now: int): Job {
    if row.jobId == jobId && row.media.chat == chat && row.stage == Poll
    then row.(cancelRequested := true, nextAttempt := now) else row
  }

  function JobCancel(db: Db, jobId: string, chat: int, now: int): Db {
    db.(jobs := map i | i in db.jobs :: Cancelled(db.jobs[i], jobId, chat, now))
  }

  // ----- job_candidates.sql -----

  // Is i an earlier job that must leave the queue before j may start this stage?
  predicate Blocks(db: Db, i: int, j: int, stage: Stage) {
    && i in db.jobs && j in db.jobs && i < j && db.jobs[i].media.chat == db.jobs[j].media.chat
    && (db.jobs[i].stage == stage || (stage == Upload && db.jobs[i].stage == Status))
  }

  predicate Unblocked(db: Db, id: int, stage: Stage) {
    stage in {Status, Upload} ==> forall i | i in db.jobs :: !Blocks(db, i, id, stage)
  }

  predicate Candidate(db: Db, id: int, stage: Stage, now: int) {
    && id in db.jobs && db.jobs[id].stage == stage && stage != Stage.Done && db.jobs[id].nextAttempt <= now
    && Unblocked(db, id, stage)
  }

  const CANDIDATE_LIMIT := 32

  // ORDER BY next_attempt_at, update_id.
  predicate Before(db: Db, i: int, j: int) {
    && i in db.jobs && j in db.jobs
    && (db.jobs[i].nextAttempt < db.jobs[j].nextAttempt || (db.jobs[i].nextAttempt == db.jobs[j].nextAttempt && i < j))
  }

  predicate IsCandidateList(db: Db, stage: Stage, now: int, ids: seq<int>) {
    && |ids| <= CANDIDATE_LIMIT
    && (forall id | id in ids :: Candidate(db, id, stage, now))
    && (forall m, n | 0 <= m < n < |ids| :: Before(db, ids[m], ids[n]))
    && (forall i | i in db.jobs && Candidate(db, i, stage, now) && i !in ids ::
          |ids| == CANDIDATE_LIMIT && Before(db, ids[|ids| - 1], i))
  }

  /** The answer of the candidate query: at most 32 jobs, each once, by due time and then by update id; a job that is left out
      though ready and unblocked comes after all of them, and only when there are 32. */
  lemma CandidatesAreTheEarliest(db: Db, stage: Stage, now: int, ids: seq<int>)
    requires IsCandidateList(db, stage, now, ids)
    ensures |ids| <= 32
    ensures forall m, n | 0 <= m < n < |ids| ::
              && ids[m] in db.jobs && ids[n] in db.jobs && ids[m] != ids[n]
              && db.jobs[ids[m]].nextAttempt <= db.jobs[ids[n]].nextAttempt
              && (db.jobs[ids[m]].nextAttempt == db.jobs[ids[n]].nextAttempt ==> ids[m] < ids[n])
    ensures forall i | i in db.jobs ::
              (i in ids ==> db.jobs[i].stage == stage && db.jobs[i].nextAttempt <= now)
    ensures forall i, earlier | i in ids && i in db.jobs && earlier in db.jobs && earlier < i
                                && db.jobs[earlier].media.chat == db.jobs[i].media.chat ::
              && (stage == Status ==> db.jobs[earlier].stage != Status)
              && (stage == Upload ==> db.jobs[earlier].stage !in {Status, Upload})
    ensures forall i | i in db.jobs && i !in ids && stage != Stage.Done && db.jobs[i].stage == stage && db.jobs[i].nextAttempt <= now
                      && Unblocked(db, i, stage) ::
              |ids| == 32 && forall m | 0 <= m < 32 :: ids[m] in db.jobs && db.jobs[ids[m]].nextAttempt <= db.jobs[i].nextAttempt
  {
    forall i | i in db.jobs && i !in ids && stage != Stage.Done && db.jobs[i].stage == stage && db.jobs[i].nextAttempt <= now
               && Unblocked(db, i, stage)
      ensures |ids| == 32 && forall m | 0 <= m < 32 :: ids[m] in db.jobs && db.jobs[ids[m]].nextAttempt <= db.jobs[i].nextAttempt
    {
      assert Candidate(db, i, stage, now);
      assert Before(db, ids[|ids| - 1], i);
      forall m | 0 <= m < 32
        ensures ids[m] in db.jobs && db.jobs[ids[m]].nextAttempt <= db.jobs[i].nextAttempt
      {
        assert m < 31 ==> Before(db, ids[m], ids[31]);
      }
    }
    forall m, n | 0 <= m < n < |ids|
      ensures ids[m] in db.jobs && ids[n] in db.jobs && ids[m] != ids[n]
      ensures db.jobs[ids[m]].nextAttempt <= db.jobs[ids[n]].nextAttempt
      ensures db.jobs[ids[m]].nextAttempt == db.jobs[ids[n]].nextAttempt ==> ids[m] < ids[n]
    {
      assert Before(db, ids[m], ids[n]);
    }
    forall i, earlier | i in ids && i in db.jobs && earlier in db.jobs && earlier < i
                        && db.jobs[earlier].media.chat == db.jobs[i].media.chat
      ensures stage == Status ==> db.jobs[earlier].stage != Status
      ensures stage == Upload ==> db.jobs[earlier].stage !in {Status, Upload}
    {
      assert Candidate(db, i, stage, now);
      assert stage in {Status, Upload} ==> !Blocks(db, earlier, i, stage);
    }
    hide Unblocked;
  }

  // ----- chats and presets -----

  function ChatAdd(db: Db, chat: int): Db {
    db.(chats := db.chats + {chat})
  }

  function ChatRemove(db: Db, chat: int): Db {
    db.(chats := db.chats - {chat})
  }

  function PresetSet(db: Db, user: int, preset: string): Db {
    db.(presets := db.presets[user := preset])
  }

  function PresetGet(presets: map<int, string>, user: int): string {
    if user in presets then presets[user] else "auto"
  }
}
