/** The durable job engine as a transition system: every committed statement or transaction, every external call and
    every fault is one atomic action, and any number of actors on any number of processes interleave. */
module Engine {
  import opened Options
  import opened Updates
  import opened ResultPlan
  import opened Tables
  import opened Locks
  import Backoff

  const POLL_INTERVAL := 5

  // The names hashed into advisory lock numbers.
  datatype Key = PollerKey | InboxKey | JobKey(id: int)

  // The bot's id and the lock hash, about which nothing is assumed.
  datatype Env = Env(bot: int, hash: Key -> int)

  // ----- external services -----

  // updates: everything ever produced; those below floor are discarded.
  datatype Telegram = Telegram(updates: map<int, Update>, floor: int)

  // A backend job, with the request that created it; origin is the update id of the job whose worker submitted it.
  datatype BackendJob = BackendJob(
    requestId: string, origin: int, file: string, format: string, preset: string,
    terminal: Option<JobResult>, cancelled: bool, acked: bool, purged: bool)

  // requests: the request ids seen, each with the backend job it made.
  datatype Backend = Backend(jobs: map<string, BackendJob>, requests: map<string, string>)

  // ----- history, read by no action -----

  datatype Slot = StatusSlot(id: int) | PartSlot(id: int, part: nat)

  // Per message: calls started, calls that took effect at Telegram, receipts committed. shown is the furthest
  // stage whose edit of the status message was made by an actor with a live session.
  datatype Ledger = Ledger(attempts: map<Slot, nat>, effects: map<Slot, nat>, receipts: map<Slot, nat>, shown: map<int, Stage>)

  function Count(m: map<Slot, nat>, s: Slot): nat {
    if s in m then m[s] else 0
  }

  function Bump(m: map<Slot, nat>, s: Slot): map<Slot, nat> {
    m[s := Count(m, s) + 1]
  }

  function Attempted(l: Ledger, s: Slot, effect: bool): Ledger {
    l.(attempts := Bump(l.attempts, s), effects := if effect then Bump(l.effects, s) else l.effects)
  }

  function ShownStage(l: Ledger, id: int): Stage {
    if id in l.shown then l.shown[id] else Status
  }

  // ----- actors -----

  // What an upload does after its progress display has been joined.
  datatype AfterStop = Exit | Fail | Vanish

  // Where a stage worker stands between its statements and calls.
  datatype At =
    | StatusSend | StatusWrite(message: int)
    | UploadCall | SubmittedWrite(jobId: string) | Stopping(next: AfterStop)
    | PollCancel | PollGet | PollShow(text: string) | ProgressWrite(text: string)
    | ResultWrite(result: JobResult)
    | AckCall | AckWrite | NextPart(ackFailed: bool)
    | PartSend(part: nat, plan: Delivery, ackFailed: bool) | PartWrite(part: nat, message: int, ackFailed: bool)
    | CompleteWrite
    | Failing | ScheduleWrite(delay: nat, code: string)

  datatype PC =
    | Reading(stage: Stage, rest: seq<int>)
    | Working(job: Job, at: At)
    | Leaving(resume: Option<(Stage, seq<int>)>)
    | InboxIdle | InboxHas(id: int, update: Update) | InboxCommit(id: int, media: Option<Media>)
    | PollerNew | PollerIdle | PollerFetch(offset: int) | PollerAccept(offset: int, batch: seq<Record>) | PollerClosing

  datatype Actor =
    | Scanning(stage: Stage, ids: seq<int>)
    | Holding(session: nat, key: Key, pc: PC)

  datatype State = State(
    db: Db, now: int, pool: Pool, actors: map<nat, Actor>, telegram: Telegram, backend: Backend, ledger: Ledger)

  const INITIAL := State(EMPTY, 0, NEW_POOL, map[], Telegram(map[], 0), Backend(map[], map[]), Ledger(map[], map[], map[], map[]))

  // ----- actions -----

  // A statement commits and returns, commits while the reply is lost with the connection, or does not commit.
  datatype Commit = Committed | CommittedUnseen | Refused

  datatype Attempt = Granted | Busy | Broken(taken: bool)

  datatype StatusReply = Terminal(result: JobResult) | Missing | Running(text: string) | NoReply

  // Accepted carries the id a first-time submission is given.
  datatype SubmitReply = Accepted(newId: string) | AcceptedUnseen(newId: string) | Invalid | NotSent

  datatype JobEvent =
    | Read(ok: bool)
    | SendStatus(effect: bool, reply: Option<int>)
    | Submit(outcome: SubmitReply)
    | ShowUpload
    | Stop
    | Cancel(reached: bool, ok: bool)
    | GetStatus(status: StatusReply)
    | ShowPoll(ok: bool)
    | Ack(reached: bool, ok: bool)
    | ReadPart(part: Option<nat>, ok: bool)
    | SendPart(effect: bool, reply: Option<int>)
    | Write(commit: Commit)
    | Recover(quit: bool, hint: Option<int>)

  datatype InboxEvent =
    | ReadNext(next: Option<int>)
    | Decide(media: Option<Media>)
    | GiveUp
    | Admit(commit: Commit)

  datatype PollerEvent =
    | Open(ok: bool)
    | ReadCursor(ok: bool)
    | GetUpdates(reached: bool, reply: Option<seq<Record>>)
    | Accept(commit: Commit)
    | Close

  datatype Action =
    // environment and faults
    | Tick(d: nat)
    | Connect
    | Die(session: nat)
    | Crash(actor: nat)
    | Produce(id: int, update: Update)
    | RequestCancel(jobId: string, chat: int)
    | Finish(jobId: string, result: JobResult)
    | Purge(jobId: string)
    // lock protocol
    | Scan(actor: nat, stage: Stage, ids: seq<int>)
    | TryLock(actor: nat, session: nat, key: Key, attempt: Attempt)
    | Release(actor: nat, commit: Commit)
    // the lock holder's work
    | JobStep(actor: nat, job: JobEvent)
    | InboxStep(actor: nat, inbox: InboxEvent)
    | PollerStep(actor: nat, poller: PollerEvent)

  function SetActor(s: State, a: nat, actor: Actor): State {
    s.(actors := s.actors[a := actor])
  }

  function DropActor(s: State, a: nat): State {
    s.(actors := s.actors - {a})
  }

  predicate HasLive(s: State, a: nat) {
    a in s.actors && s.actors[a].Holding? && s.actors[a].session in s.pool.live
  }

  function Move(s: State, a: nat, pc: PC): State
    requires a in s.actors && s.actors[a].Holding?
  {
    SetActor(s, a, s.actors[a].(pc := pc))
  }

  // ----- environment -----

  predicate EnvironmentStep(s: State, act: Action, t: State) {
    match act
    case Tick(d) => t == s.(now := s.now + d)
    case Connect => t == s.(pool := Locks.Connect(s.pool))
    case Die(session) => t == s.(pool := Kill(s.pool, session))
    case Crash(a) => t == DropActor(s, a)
    case Produce(id, u) =>
      && id >= 0 && (forall k | k in s.telegram.updates :: k < id)
      && t == s.(telegram := s.telegram.(updates := s.telegram.updates[id := u]))
    case RequestCancel(b, chat) => t == s.(db := JobCancel(s.db, b, chat, s.now))
    case Finish(b, r) =>
      && b in s.backend.jobs && s.backend.jobs[b].terminal.None?
      && t == s.(backend := s.backend.(jobs := s.backend.jobs[b := s.backend.jobs[b].(terminal := Some(r))]))
    case Purge(b) => // a retained result goes away only after its Ack
      && b in s.backend.jobs && s.backend.jobs[b].acked
      && t == s.(backend := s.backend.(jobs := s.backend.jobs[b := s.backend.jobs[b].(purged := true)]))
    case _ => false
  }

  // ----- claiming and releasing -----

  // Which actor may try which key, and what it does with the lock.
  predicate MayTry(s: State, a: nat, key: Key) {
    match key
    case JobKey(id) => a in s.actors && s.actors[a].Scanning? && s.actors[a].ids != [] && s.actors[a].ids[0] == id
    case _ => a !in s.actors
  }

  function Claimed(s: State, a: nat, key: Key): PC
    requires MayTry(s, a, key)
  {
    match key
    case PollerKey => PollerNew
    case InboxKey => InboxIdle
    case JobKey(_) => Reading(s.actors[a].stage, s.actors[a].ids[1..])
  }

  predicate LockStep(e: Env, s: State, act: Action, t: State) {
    match act
    case Scan(a, stage, ids) =>
      && a !in s.actors && IsCandidateList(s.db, stage, s.now, ids)
      && t == SetActor(s, a, Scanning(stage, ids))
    case TryLock(a, session, key, attempt) =>
      && MayTry(s, a, key) && session in s.pool.idle
      && var h := e.hash(key);
      (match attempt
       case Granted =>
         && Grants(s.pool, session, h)
         && t == SetActor(s.(pool := Lock(Take(s.pool, session), session, h)), a,
                          Holding(session, key, Claimed(s, a, key)))
       case Busy => // skip to the next candidate; a poller or inbox processor tries again later
         && !Grants(s.pool, session, h)
         && t == if key.JobKey? then SetActor(s, a, Scanning(s.actors[a].stage, s.actors[a].ids[1..])) else s
       case Broken(taken) =>
         && (taken ==> Grants(s.pool, session, h))
         && t == DropActor(s, a).(pool := if taken then Lock(Take(s.pool, session), session, h) else Take(s.pool, session)))
    case Release(a, commit) =>
      && a in s.actors && s.actors[a].Holding? && s.actors[a].pc.Leaving?
      && var c := s.actors[a];
      var h := e.hash(c.key);
      (match commit
       case Committed => // unlocked; the connection returns to the pool
         && c.session in s.pool.live
         && var p := GiveBack(Unlock(s.pool, c.session, h), c.session);
         t == (if c.pc.resume.None? then DropActor(s, a)
               else SetActor(s, a, Scanning(c.pc.resume.value.0, c.pc.resume.value.1))).(pool := p)
       case CommittedUnseen => // unlocked, but the reply is lost: the connection is closed
         && c.session in s.pool.live && t == DropActor(s, a).(pool := Unlock(s.pool, c.session, h))
       case Refused => // the connection is closed; the server frees the lock when the session dies
         t == DropActor(s, a))
    case _ => false
  }

  // ----- stage workers -----

  function FirstAt(j: Job): At
    requires j.stage != Stage.Done
  {
    match j.stage
    case Status => StatusSend
    case Upload => UploadCall
    case Poll => if j.cancelRequested then PollCancel else PollGet
    case Deliver => if j.acknowledged then NextPart(false) else AckCall
  }

  predicate IsWrite(at: At) {
    || at.StatusWrite? || at.SubmittedWrite? || at.ResultWrite? || at.ProgressWrite? || at.AckWrite? || at.PartWrite?
    || at.CompleteWrite? || at.ScheduleWrite?
  }

  function StatementOf(j: Job, at: At): Statement
    requires IsWrite(at)
  {
    match at
    case StatusWrite(m) => SetStatus(m)
    case SubmittedWrite(b) => SetSubmitted(b)
    case ResultWrite(r) => SaveResult(r, ResultParts(j.media.preset, r))
    case ProgressWrite(text) => SetProgress(text)
    case AckWrite => SetAcknowledged
    case PartWrite(k, m, _) => SetDelivered(k, m)
    case CompleteWrite => Complete
    case ScheduleWrite(delay, code) => Schedule(delay, code)
  }

  function AfterWrite(j: Job, at: At): PC
    requires IsWrite(at)
  {
    match at
    case SubmittedWrite(_) => Working(j, Stopping(Exit))
    case ResultWrite(_) => if j.stage == Upload then Working(j, Stopping(Exit)) else Leaving(None)
    case ProgressWrite(_) => Working(j, ScheduleWrite(POLL_INTERVAL, ""))
    case AckWrite => Working(j, NextPart(false))
    case PartWrite(_, _, ackFailed) => Working(j, if ackFailed then Failing else CompleteWrite)
    case _ => Leaving(None)
  }

  // A failed stage is scheduled again, poll's own schedule included; when that schedule fails too, the worker leaves.
  // An upload stops its progress display before the stage returns, on success and on failure alike.
  function AfterError(j: Job, at: At): PC {
    if at.ScheduleWrite? && at.code != "" then Leaving(None)
    else if j.stage == Upload then Working(j, Stopping(Fail))
    else Working(j, Failing)
  }

  predicate Uploading(j: Job, at: At) {
    j.stage == Upload && (at.UploadCall? || at.SubmittedWrite? || at.ResultWrite? || at.Stopping?)
  }

  function SlotOf(id: int, at: At): Slot
    requires at.StatusWrite? || at.PartWrite?
  {
    if at.StatusWrite? then StatusSlot(id) else PartSlot(id, at.part)
  }

  function Receipted(l: Ledger, id: int, at: At): Ledger {
    if at.StatusWrite? || at.PartWrite? then l.(receipts := Bump(l.receipts, SlotOf(id, at))) else l
  }

  function Show(s: State, a: nat, id: int, stage: Stage): Ledger {
    if HasLive(s, a) && ShownStage(s.ledger, id).Rank() < stage.Rank() then s.ledger.(shown := s.ledger.shown[id := stage])
    else s.ledger
  }

  // The backend keeps one job per request id, for good.
  function Submitted(k: Backend, j: Job, id: int, newId: string): Backend {
    if j.requestId in k.requests then k
    else Backend(
      k.jobs[newId := BackendJob(j.requestId, id, j.media.file, j.media.format, j.media.preset, None, false, false, false)],
      k.requests[j.requestId := newId])
  }

  predicate CanSubmit(k: Backend, j: Job, newId: string) {
    j.requestId in k.requests || (newId != "" && newId !in k.jobs)
  }

  function SubmittedId(k: Backend, j: Job, newId: string): string {
    if j.requestId in k.requests then k.requests[j.requestId] else newId
  }

  function WithCancel(k: Backend, b: string): Backend {
    if b in k.jobs then k.(jobs := k.jobs[b := k.jobs[b].(cancelled := true)]) else k
  }

  function WithAck(k: Backend, b: string): Backend {
    if b in k.jobs then k.(jobs := k.jobs[b := k.jobs[b].(acked := true)]) else k
  }

  predicate Absent(k: Backend, b: string) {
    b !in k.jobs || k.jobs[b].purged
  }

  predicate ReadStep(s: State, a: nat, id: int, stage: Stage, rest: seq<int>, ok: bool, t: State)
    requires a in s.actors && s.actors[a].Holding?
  {
    if !ok then t == Move(s, a, Leaving(None))
    else
      && HasLive(s, a) && id in s.db.jobs
      && var j := s.db.jobs[id];
      t == Move(s, a, if j.stage != stage || j.nextAttempt > s.now || stage == Stage.Done
                      then Leaving(Some((stage, rest))) else Working(j, FirstAt(j)))
  }

  // Calls to Telegram and the backend: no database statement.
  predicate CallStep(s: State, a: nat, id: int, j: Job, at: At, ev: JobEvent, t: State)
    requires a in s.actors && s.actors[a].Holding?
  {
    match ev
    case SendStatus(effect, reply) =>
      && at.StatusSend? && (reply.Some? ==> effect)
      && t == Move(s, a, if reply.Some? then Working(j, StatusWrite(reply.value)) else AfterError(j, at))
              .(ledger := Attempted(s.ledger, StatusSlot(id), effect))
    case Submit(reply) =>
      && at.UploadCall?
      && (match reply
          case Accepted(n) =>
            && CanSubmit(s.backend, j, n)
            && t == Move(s, a, Working(j, SubmittedWrite(SubmittedId(s.backend, j, n))))
                    .(backend := Submitted(s.backend, j, id, n))
          case AcceptedUnseen(n) =>
            && CanSubmit(s.backend, j, n)
            && t == Move(s, a, AfterError(j, at)).(backend := Submitted(s.backend, j, id, n))
          case Invalid => t == Move(s, a, Working(j, ResultWrite(UPLOAD_INVALID)))
          case NotSent => t == Move(s, a, AfterError(j, at)))
    case ShowUpload => Uploading(j, at) && t == s.(ledger := Show(s, a, id, Upload))
    case Stop =>
      && at.Stopping?
      && t == (match at.next
               case Exit => Move(s, a, Leaving(None))
               case Fail => Move(s, a, Working(j, Failing))
               case Vanish => DropActor(s, a))
    case Cancel(reached, ok) =>
      && at.PollCancel? && (ok ==> reached)
      && t == Move(s, a, if ok then Working(j, PollGet) else AfterError(j, at))
              .(backend := if reached then WithCancel(s.backend, j.jobId) else s.backend)
    case GetStatus(reply) =>
      && at.PollGet?
      && (match reply
          case Terminal(r) =>
            && !Absent(s.backend, j.jobId) && s.backend.jobs[j.jobId].terminal == Some(r)
            && t == Move(s, a, Working(j, ResultWrite(r)))
          case Missing => Absent(s.backend, j.jobId) && t == Move(s, a, Working(j, ResultWrite(JOB_MISSING)))
          case Running(text) =>
            && !Absent(s.backend, j.jobId) && s.backend.jobs[j.jobId].terminal.None?
            && t == Move(s, a, Working(j, if text != j.progressText then PollShow(text) else ScheduleWrite(POLL_INTERVAL, "")))
          case NoReply => t == Move(s, a, AfterError(j, at)))
    case ShowPoll(ok) =>
      && at.PollShow?
      && t == Move(s, a, Working(j, if ok then ProgressWrite(at.text) else ScheduleWrite(POLL_INTERVAL, "")))
              .(ledger := Show(s, a, id, Poll))
    case Ack(reached, ok) => // NOT_FOUND counts as success
      && at.AckCall? && (ok ==> reached || Absent(s.backend, j.jobId))
      && t == Move(s, a, Working(j, if ok then AckWrite else NextPart(true)))
              .(backend := if reached then WithAck(s.backend, j.jobId) else s.backend)
    case SendPart(effect, reply) =>
      && at.PartSend? && (reply.Some? ==> effect)
      && t == Move(s, a, if reply.Some? then Working(j, PartWrite(at.part, reply.value, at.ackFailed)) else AfterError(j, at))
              .(ledger := Attempted(Show(s, a, id, Deliver), PartSlot(id, at.part), effect))
    case Recover(quit, hint) => // Schedule with backoff, or give up because the process is shutting down
      && at.Failing?
      && t == Move(s, a, if quit then Leaving(None)
                         else Working(j, ScheduleWrite(Backoff.RetryAfter(hint, j.attempts), "stage_failed")))
    case _ => false
  }

  predicate ReadPartStep(s: State, a: nat, id: int, j: Job, at: At, part: Option<nat>, ok: bool, t: State)
    requires a in s.actors && s.actors[a].Holding?
  {
    && at.NextPart?
    && if !ok then t == Move(s, a, AfterError(j, at))
       else
         && HasLive(s, a)
         && match part
            case Some(k) =>
              && IsNextPart(s.db.BoxOf(id), k)
              && t == Move(s, a, Working(j, PartSend(k, s.db.BoxOf(id)[k].plan, at.ackFailed)))
            case None =>
              && AllDelivered(s.db.BoxOf(id))
              && t == Move(s, a, Working(j, if at.ackFailed then Failing else CompleteWrite))
  }

  predicate WriteStep(s: State, a: nat, id: int, j: Job, at: At, commit: Commit, t: State)
    requires a in s.actors && s.actors[a].Holding?
  {
    && IsWrite(at)
    && match commit
       case Refused => t == Move(s, a, AfterError(j, at))
       case _ =>
         && HasLive(s, a)
         && var done := if commit.Committed? then Move(s, a, AfterWrite(j, at))
                        else if Uploading(j, at) then Move(s, a, Working(j, Stopping(Vanish)))
                        else DropActor(s, a);
         t == done.(db := Execute(s.db, id, StatementOf(j, at), s.now), ledger := Receipted(s.ledger, id, at))
  }

  predicate WorkerStep(s: State, a: nat, ev: JobEvent, t: State) {
    && a in s.actors && s.actors[a].Holding? && s.actors[a].key.JobKey?
    && var id := s.actors[a].key.id;
    match s.actors[a].pc
    case Reading(stage, rest) => ev.Read? && ReadStep(s, a, id, stage, rest, ev.ok, t)
    case Working(j, at) =>
      (match ev
       case Write(commit) => WriteStep(s, a, id, j, at, commit, t)
       case ReadPart(part, ok) => ReadPartStep(s, a, id, j, at, part, ok, t)
       case _ => CallStep(s, a, id, j, at, ev, t))
    case _ => false
  }

  // ----- the inbox processor -----

  predicate ProcessorStep(e: Env, s: State, a: nat, ev: InboxEvent, t: State) {
    && a in s.actors && s.actors[a].Holding? && s.actors[a].key.InboxKey?
    && var pc := s.actors[a].pc;
    match ev
    case ReadNext(next) =>
      && pc.InboxIdle? && HasLive(s, a)
      && (match next
          case Some(id) =>
            && IsInboxNext(s.db, id) && s.db.inbox[id].payload.Some?
            && t == Move(s, a, InboxHas(id, s.db.inbox[id].payload.value))
          case None => InboxDrained(s.db) && t == Move(s, a, Leaving(None)))
    case Decide(media) => pc.InboxHas? && t == Move(s, a, InboxCommit(pc.id, media))
    case GiveUp => (pc.InboxIdle? || pc.InboxHas?) && t == Move(s, a, Leaving(None))
    case Admit(commit) =>
      && pc.InboxCommit?
      && (match commit
          case Refused => t == Move(s, a, Leaving(None))
          case _ =>
            && HasLive(s, a)
            && t == (if commit.Committed? then Move(s, a, Leaving(None)) else DropActor(s, a))
                    .(db := AdmitTx(e.bot, s.db, pc.id, pc.media, s.now)))
  }

  // ----- the poller -----

  function Floor(s: State, offset: int): int {
    if offset > s.telegram.floor then offset else s.telegram.floor
  }

  // Pending updates from the floor up, a prefix in id order.
  predicate IsPendingPrefix(s: State, floor: int, batch: seq<Record>) {
    && Increasing(batch)
    && (forall r | r in batch :: r.id in s.telegram.updates && s.telegram.updates[r.id] == r.payload && r.id >= floor)
    && (forall u, r | u in s.telegram.updates && floor <= u && r in batch && u < r.id :: u in RecordIds(batch))
  }

  function AtLeast(records: seq<Record>, offset: int): seq<Record> {
    if records == [] then []
    else (if records[0].id < offset then [] else [records[0]]) + AtLeast(records[1..], offset)
  }

  function NextOffset(records: seq<Record>, offset: int): int {
    if records == [] then offset
    else
      var last := NextOffset(records[..|records| - 1], offset);
      var n := records[|records| - 1].id + 1;
      if n > last then n else last
  }

  // persistBatch
  function PersistBatch(db: Db, offset: int, batch: seq<Record>): Db {
    var records := AtLeast(batch, offset);
    AcceptBatch(db, records, NextOffset(records, offset))
  }

  predicate IntakeStep(s: State, a: nat, ev: PollerEvent, t: State) {
    && a in s.actors && s.actors[a].Holding? && s.actors[a].key.PollerKey?
    && var pc := s.actors[a].pc;
    match ev
    case Open(ok) =>
      && pc.PollerNew? && (ok ==> HasLive(s, a))
      && t == Move(s, a, if ok then PollerIdle else PollerClosing).(pool := Tune(s.pool, s.actors[a].session))
    case ReadCursor(ok) =>
      && pc.PollerIdle? && (ok ==> HasLive(s, a))
      && t == Move(s, a, if ok then PollerFetch(s.db.cursor) else PollerClosing)
    case GetUpdates(reached, reply) =>
      && pc.PollerFetch? && (reply.Some? ==> reached && IsPendingPrefix(s, Floor(s, pc.offset), reply.value))
      && t == Move(s, a, if reply.Some? then PollerAccept(pc.offset, reply.value) else PollerIdle)
              .(telegram := if reached then s.telegram.(floor := Floor(s, pc.offset)) else s.telegram)
    case Accept(commit) =>
      && pc.PollerAccept?
      && (match commit
          case Refused => t == Move(s, a, PollerClosing)
          case _ =>
            && HasLive(s, a)
            && t == Move(s, a, if commit.Committed? then PollerIdle else PollerClosing)
                    .(db := PersistBatch(s.db, pc.offset, pc.batch)))
    case Close => // the connection is closed and never reaches the pool
      t == DropActor(s, a)
  }

  // ----- the system -----

  predicate Next(e: Env, s: State, act: Action, t: State) {
    match act
    case JobStep(a, ev) => WorkerStep(s, a, ev, t)
    case InboxStep(a, ev) => ProcessorStep(e, s, a, ev, t)
    case PollerStep(a, ev) => IntakeStep(s, a, ev, t)
    case Scan(_, _, _) => LockStep(e, s, act, t)
    case TryLock(_, _, _, _) => LockStep(e, s, act, t)
    case Release(_, _) => LockStep(e, s, act, t)
    case _ => EnvironmentStep(s, act, t)
  }

  // A run: states[0] is the initial state and each action leads from one state to the next.
  predicate IsRun(e: Env, states: seq<State>, actions: seq<Action>) {
    && |states| == |actions| + 1 && states[0] == INITIAL
    && forall k | 0 <= k < |actions| :: Next(e, states[k], actions[k], states[k + 1])
  }
}
