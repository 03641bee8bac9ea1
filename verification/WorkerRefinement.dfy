/** The worker's methods refine the engine's worker: whatever one stage run commits, the engine has a run from the same claim
    that commits exactly those statements, in that order. */
module WorkerRefinement {
  import opened Options
  import opened ResultPlan
  import opened Tables
  import opened Engine
  import opened History
  import opened StageRuns
  import opened StageWork
  import Backoff

  datatype Walk = Walk(states: seq<State>, actions: seq<Action>)

  // The statements that the walk commits on job id, in order.
  function Commits(w: Walk, id: int, n: nat): seq<Statement>
    requires n <= |w.actions| && n < |w.states|
  {
    if n == 0 then []
    else Commits(w, id, n - 1) + if CommitsOn(w.states[n - 1], w.actions[n - 1], id)
                                 then [CommittedOn(w.states[n - 1], w.actions[n - 1], id)] else []
  }

  // A run of the engine from s to t in which only actor a moves.
  predicate Walked(e: Env, s: State, w: Walk, t: State, a: nat, id: int, committed: seq<Statement>) {
    && |w.states| == |w.actions| + 1 && w.states[0] == s && w.states[|w.actions|] == t
    && (forall k | 0 <= k < |w.actions| :: w.actions[k].JobStep? && w.actions[k].actor == a)
    && (forall k | 0 <= k < |w.actions| :: Next(e, w.states[k], w.actions[k], w.states[k + 1]))
    && Commits(w, id, |w.actions|) == committed
  }

  // Actor a holds the job with a live session at pc, and the tables have taken exactly these statements.
  predicate Stands(s: State, t: State, a: nat, id: int, pc: PC, committed: seq<Statement>) {
    && HasLive(t, a) && t.actors[a].key == JobKey(id) && t.actors[a].pc == pc && t.now == s.now
    && t.db == ExecuteAll(s.db, id, committed, s.now)
  }

  lemma {:induction false} CommitsOfPrefix(w: Walk, act: Action, u: State, id: int, n: nat)
    requires n <= |w.actions| && |w.states| == |w.actions| + 1
    ensures Commits(Walk(w.states + [u], w.actions + [act]), id, n) == Commits(w, id, n)
  {
    if n > 0 {
      CommitsOfPrefix(w, act, u, id, n - 1);
    }
    hide CommitsOn;
  }

  lemma Extend(e: Env, s: State, w: Walk, t: State, a: nat, id: int, committed: seq<Statement>, ev: JobEvent, u: State)
    returns (w': Walk)
    requires Walked(e, s, w, t, a, id, committed) && WorkerStep(t, a, ev, u)
    ensures var act := JobStep(a, ev);
            Walked(e, s, w', u, a, id, committed + if CommitsOn(t, act, id) then [CommittedOn(t, act, id)] else [])
  {
    var act := JobStep(a, ev);
    w' := Walk(w.states + [u], w.actions + [act]);
    hide WorkerStep, CommitsOn, CommittedOn;
    assert Next(e, t, act, u);
    hide Next;
    CommitsOfPrefix(w, act, u, id, |w.actions|);
    LastCommits(w', id);
    forall k | 0 <= k < |w'.actions|
      ensures Next(e, w'.states[k], w'.actions[k], w'.states[k + 1]) && w'.actions[k].JobStep? && w'.actions[k].actor == a
    {
      if k < |w.actions| {
        assert Next(e, w.states[k], w.actions[k], w.states[k + 1]);
      }
    }
    hide Commits;
  }

  lemma LastCommits(w: Walk, id: int)
    requires w.actions != [] && |w.states| == |w.actions| + 1
    ensures var n := |w.actions|;
            Commits(w, id, n) == Commits(w, id, n - 1) + if CommitsOn(w.states[n - 1], w.actions[n - 1], id)
                                                         then [CommittedOn(w.states[n - 1], w.actions[n - 1], id)] else []
  {
    hide CommitsOn, CommittedOn;
  }

  // A call: no statement.
  lemma Call(e: Env, s: State, w: Walk, t: State, a: nat, id: int, committed: seq<Statement>, pc: PC, ev: JobEvent, u: State, pc': PC)
    returns (w': Walk)
    requires Walked(e, s, w, t, a, id, committed) && Stands(s, t, a, id, pc, committed)
    requires WorkerStep(t, a, ev, u) && !ev.Write? && u == Move(t, a, pc').(backend := u.backend, ledger := u.ledger)
    ensures Walked(e, s, w', u, a, id, committed) && Stands(s, u, a, id, pc', committed)
  {
    hide WorkerStep, Walked;
    w' := Extend(e, s, w, t, a, id, committed, ev, u);
    assert !CommitsOn(t, JobStep(a, ev), id);
    assert committed + [] == committed;
  }

  function AfterCommit(t: State, a: nat, id: int, j: Job, at: At): State
    requires a in t.actors && t.actors[a].Holding? && IsWrite(at)
  {
    Move(t, a, AfterWrite(j, at)).(db := Execute(t.db, id, StatementOf(j, at), t.now), ledger := Receipted(t.ledger, id, at))
  }

  lemma CommitSteps(t: State, a: nat, id: int, j: Job, at: At)
    requires HasLive(t, a) && t.actors[a].key == JobKey(id) && t.actors[a].pc == Working(j, at) && IsWrite(at)
    ensures WorkerStep(t, a, Write(Committed), AfterCommit(t, a, id, j, at))
    ensures CommitsOn(t, JobStep(a, Write(Committed)), id) && CommittedOn(t, JobStep(a, Write(Committed)), id) == StatementOf(j, at)
  {
    hide Execute, StatementOf, AfterWrite, Receipted, Move, IsWrite;
  }

  lemma CommitOne(e: Env, s: State, w: Walk, t: State, a: nat, id: int, committed: seq<Statement>, j: Job, at: At)
    returns (w': Walk, u: State)
    requires Walked(e, s, w, t, a, id, committed) && Stands(s, t, a, id, Working(j, at), committed) && IsWrite(at)
    ensures Walked(e, s, w', u, a, id, committed + [StatementOf(j, at)])
    ensures Stands(s, u, a, id, AfterWrite(j, at), committed + [StatementOf(j, at)])
    ensures u.backend == t.backend
  {
    u := AfterCommit(t, a, id, j, at);
    CommitSteps(t, a, id, j, at);
    assert (committed + [StatementOf(j, at)])[..|committed|] == committed;
    hide WorkerStep, Walked, CommitsOn, CommittedOn, IsWrite, StatementOf, AfterWrite, Execute, Receipted;
    w' := Extend(e, s, w, t, a, id, committed, Write(Committed), u);
  }

  // ----- failing and retrying -----

  lemma Refuse(e: Env, s: State, w: Walk, t: State, a: nat, id: int, committed: seq<Statement>, j: Job, at: At)
    returns (w': Walk, u: State)
    requires Walked(e, s, w, t, a, id, committed) && Stands(s, t, a, id, Working(j, at), committed) && IsWrite(at)
    ensures Walked(e, s, w', u, a, id, committed) && Stands(s, u, a, id, AfterError(j, at), committed)
  {
    u := Move(t, a, AfterError(j, at));
    assert WorkerStep(t, a, Write(Refused), u);
    assert !CommitsOn(t, JobStep(a, Write(Refused)), id);
    hide WorkerStep, Walked, CommitsOn, IsWrite, AfterError;
    w' := Extend(e, s, w, t, a, id, committed, Write(Refused), u);
    assert committed + [] == committed;
  }

  // An upload joins its display on the way out.
  lemma Joins(e: Env, s: State, w: Walk, t: State, a: nat, id: int, committed: seq<Statement>, j: Job, next: AfterStop)
    returns (w': Walk, u: State)
    requires Walked(e, s, w, t, a, id, committed) && Stands(s, t, a, id, Working(j, Stopping(next)), committed) && !next.Vanish?
    ensures Walked(e, s, w', u, a, id, committed)
    ensures Stands(s, u, a, id, if next.Fail? then Working(j, Failing) else Leaving(None), committed)
  {
    var pc := if next.Fail? then Working(j, Failing) else Leaving(None);
    u := Move(t, a, pc);
    assert WorkerStep(t, a, Stop, u);
    hide WorkerStep, Walked, Stands;
    w' := Call(e, s, w, t, a, id, committed, Working(j, Stopping(next)), Stop, u, pc);
  }

  lemma Reschedule(e: Env, s: State, w: Walk, t: State, a: nat, id: int, committed: seq<Statement>, j: Job, hint: Option<int>)
    returns (w': Walk, u: State)
    requires Walked(e, s, w, t, a, id, committed) && Stands(s, t, a, id, Working(j, Failing), committed)
    ensures Walked(e, s, w', u, a, id, committed + [Retry(j, hint)]) && Stands(s, u, a, id, Leaving(None), committed + [Retry(j, hint)])
  {
    var at := ScheduleWrite(Backoff.RetryAfter(hint, j.attempts), "stage_failed");
    var t' := Move(t, a, Working(j, at));
    assert WorkerStep(t, a, Recover(false, hint), t');
    assert StatementOf(j, at) == Retry(j, hint) && AfterWrite(j, at) == Leaving(None);
    hide WorkerStep, Walked, Stands, StatementOf, AfterWrite, Retry;
    var w1 := Call(e, s, w, t, a, id, committed, Working(j, Failing), Recover(false, hint), t', Working(j, at));
    w', u := CommitOne(e, s, w1, t', a, id, committed, j, at);
  }

  // ----- the points of a stage -----

  // The engine's write point for the n-th statement of the stage.
  function PointAt(row: Job, box: Box, r: Replies, n: nat): At
    requires n < |StageStatements(row, box, r)|
  {
    var st := StageStatements(row, box, r)[n];
    if st.SetDelivered? then PartWrite(st.part, st.message, !row.acknowledged && !r.acked) else WriteAt(st)
  }

  // Where the engine's worker is once n statements of the stage have committed.
  function PointAfter(row: Job, box: Box, r: Replies, n: nat): PC
    requires n <= |StageStatements(row, box, r)|
  {
    if n < |StageStatements(row, box, r)| then Working(row, PointAt(row, box, r, n))
    else if Succeeds(row, box, r) then Leaving(None) else Working(row, Failing)
  }

  // The replies that the backend in this state can give.
  predicate Possible(k: Backend, j: Job, r: Replies) {
    && (j.stage == Upload && r.upload.Uploaded? ==>
          CanSubmit(k, j, r.upload.jobId) && SubmittedId(k, j, r.upload.jobId) == r.upload.jobId)
    && (j.stage == Poll ==> Answers(k, j.jobId, r.status))
  }

  predicate Answers(k: Backend, b: string, status: StatusReply) {
    match status
    case Terminal(result) => !Absent(k, b) && k.jobs[b].terminal == Some(result)
    case Missing => Absent(k, b)
    case Running(_) => !Absent(k, b) && k.jobs[b].terminal.None?
    case NoReply => true
  }

  // A worker that has just read the job under its lock.
  predicate Begins(s: State, a: nat, id: int, r: Replies) {
    && HasLive(s, a) && s.actors[a].key == JobKey(id) && id in s.db.jobs && s.db.jobs[id].stage != Stage.Done
    && s.actors[a].pc == Working(s.db.jobs[id], FirstAt(s.db.jobs[id])) && Possible(s.backend, s.db.jobs[id], r)
  }

  lemma Start(e: Env, s: State, a: nat, id: int, r: Replies) returns (w: Walk)
    requires Begins(s, a, id, r)
    ensures Walked(e, s, w, s, a, id, []) && Stands(s, s, a, id, Working(s.db.jobs[id], FirstAt(s.db.jobs[id])), [])
  {
    w := Walk([s], []);
  }

  // ----- calls of each stage -----

  lemma Sends(e: Env, s: State, w: Walk, t: State, a: nat, id: int, committed: seq<Statement>, j: Job, m: Option<int>)
    returns (w': Walk, u: State)
    requires Walked(e, s, w, t, a, id, committed) && Stands(s, t, a, id, Working(j, StatusSend), committed) && j.stage == Status
    ensures Walked(e, s, w', u, a, id, committed)
    ensures Stands(s, u, a, id, Working(j, if m.Some? then StatusWrite(m.value) else Failing), committed)
  {
    var pc := Working(j, if m.Some? then StatusWrite(m.value) else Failing);
    u := Move(t, a, pc).(ledger := Attempted(t.ledger, StatusSlot(id), true));
    hide Attempted;
    assert WorkerStep(t, a, SendStatus(true, m), u);
    hide WorkerStep, Walked, Stands;
    w' := Call(e, s, w, t, a, id, committed, Working(j, StatusSend), SendStatus(true, m), u, pc);
  }

  lemma Uploads(e: Env, s: State, w: Walk, t: State, a: nat, id: int, committed: seq<Statement>, j: Job, upload: UploadReply)
    returns (w': Walk, u: State)
    requires Walked(e, s, w, t, a, id, committed) && Stands(s, t, a, id, Working(j, UploadCall), committed) && j.stage == Upload
    requires upload.Uploaded? ==> CanSubmit(t.backend, j, upload.jobId) && SubmittedId(t.backend, j, upload.jobId) == upload.jobId
    ensures Walked(e, s, w', u, a, id, committed)
    ensures Stands(s, u, a, id,
                   Working(j, match upload
                              case Uploaded(b) => SubmittedWrite(b)
                              case Rejected => ResultWrite(UPLOAD_INVALID)
                              case NotUploaded => Stopping(Fail)), committed)
  {
    var pc := Working(j, match upload case Uploaded(b) => SubmittedWrite(b) case Rejected => ResultWrite(UPLOAD_INVALID) case NotUploaded => Stopping(Fail));
    var ev := Submit(match upload case Uploaded(b) => Accepted(b) case Rejected => Invalid case NotUploaded => NotSent);
    u := Move(t, a, pc).(backend := if upload.Uploaded? then Submitted(t.backend, j, id, upload.jobId) else t.backend);
    hide Submitted, SubmittedId, CanSubmit;
    assert WorkerStep(t, a, ev, u);
    hide WorkerStep, Walked, Stands;
    w' := Call(e, s, w, t, a, id, committed, Working(j, UploadCall), ev, u, pc);
  }

  lemma Cancels(e: Env, s: State, w: Walk, t: State, a: nat, id: int, committed: seq<Statement>, j: Job, ok: bool)
    returns (w': Walk, u: State)
    requires Walked(e, s, w, t, a, id, committed) && Stands(s, t, a, id, Working(j, PollCancel), committed) && j.stage == Poll
    ensures Walked(e, s, w', u, a, id, committed)
    ensures Stands(s, u, a, id, Working(j, if ok then PollGet else Failing), committed)
    ensures forall status :: Answers(t.backend, j.jobId, status) ==> Answers(u.backend, j.jobId, status)
  {
    var pc := Working(j, if ok then PollGet else Failing);
    u := Move(t, a, pc).(backend := if ok then WithCancel(t.backend, j.jobId) else t.backend);
    assert WorkerStep(t, a, Cancel(ok, ok), u);
    hide WorkerStep, Walked, Stands;
    w' := Call(e, s, w, t, a, id, committed, Working(j, PollCancel), Cancel(ok, ok), u, pc);
  }

  function AfterGet(j: Job, status: StatusReply): At {
    match status
    case Terminal(result) => ResultWrite(result)
    case Missing => ResultWrite(JOB_MISSING)
    case Running(text) => if text != j.progressText then PollShow(text) else ScheduleWrite(POLL_INTERVAL, "")
    case NoReply => Failing
  }

  lemma Gets(e: Env, s: State, w: Walk, t: State, a: nat, id: int, committed: seq<Statement>, j: Job, status: StatusReply)
    returns (w': Walk, u: State)
    requires Walked(e, s, w, t, a, id, committed) && Stands(s, t, a, id, Working(j, PollGet), committed) && j.stage == Poll
    requires Answers(t.backend, j.jobId, status)
    ensures Walked(e, s, w', u, a, id, committed) && Stands(s, u, a, id, Working(j, AfterGet(j, status)), committed)
  {
    var pc := Working(j, AfterGet(j, status));
    u := Move(t, a, pc);
    assert WorkerStep(t, a, GetStatus(status), u);
    hide WorkerStep, Walked, Stands;
    w' := Call(e, s, w, t, a, id, committed, Working(j, PollGet), GetStatus(status), u, pc);
  }

  lemma Shows(e: Env, s: State, w: Walk, t: State, a: nat, id: int, committed: seq<Statement>, j: Job, text: string, ok: bool)
    returns (w': Walk, u: State)
    requires Walked(e, s, w, t, a, id, committed) && Stands(s, t, a, id, Working(j, PollShow(text)), committed)
    ensures Walked(e, s, w', u, a, id, committed)
    ensures Stands(s, u, a, id, Working(j, if ok then ProgressWrite(text) else ScheduleWrite(POLL_INTERVAL, "")), committed)
  {
    var pc := Working(j, if ok then ProgressWrite(text) else ScheduleWrite(POLL_INTERVAL, ""));
    u := Move(t, a, pc).(ledger := Show(t, a, id, Poll));
    hide Show;
    assert WorkerStep(t, a, ShowPoll(ok), u);
    hide WorkerStep, Walked, Stands;
    w' := Call(e, s, w, t, a, id, committed, Working(j, PollShow(text)), ShowPoll(ok), u, pc);
  }

  lemma Acks(e: Env, s: State, w: Walk, t: State, a: nat, id: int, committed: seq<Statement>, j: Job, ok: bool)
    returns (w': Walk, u: State)
    requires Walked(e, s, w, t, a, id, committed) && Stands(s, t, a, id, Working(j, AckCall), committed)
    ensures Walked(e, s, w', u, a, id, committed)
    ensures Stands(s, u, a, id, Working(j, if ok then AckWrite else At.NextPart(true)), committed)
  {
    var pc := Working(j, if ok then AckWrite else At.NextPart(true));
    u := Move(t, a, pc).(backend := if ok then WithAck(t.backend, j.jobId) else t.backend);
    assert WorkerStep(t, a, Ack(ok, ok), u);
    hide WorkerStep, Walked, Stands;
    w' := Call(e, s, w, t, a, id, committed, Working(j, AckCall), Ack(ok, ok), u, pc);
  }

  function AfterRead(box: Box, ackFailed: bool): At {
    match NextUndelivered(box)
    case Some(k) => PartSend(k, box[k].plan, ackFailed)
    case None => if ackFailed then Failing else CompleteWrite
  }

  lemma ReadsNext(e: Env, s: State, w: Walk, t: State, a: nat, id: int, committed: seq<Statement>, j: Job, ackFailed: bool)
    returns (w': Walk, u: State)
    requires Walked(e, s, w, t, a, id, committed) && Stands(s, t, a, id, Working(j, At.NextPart(ackFailed)), committed)
    ensures Walked(e, s, w', u, a, id, committed)
    ensures Stands(s, u, a, id, Working(j, AfterRead(t.db.BoxOf(id), ackFailed)), committed)
  {
    var box := t.db.BoxOf(id);
    var pc := Working(j, AfterRead(box, ackFailed));
    u := Move(t, a, pc);
    assert WorkerStep(t, a, ReadPart(NextUndelivered(box), true), u);
    hide WorkerStep, Walked, Stands;
    w' := Call(e, s, w, t, a, id, committed, Working(j, At.NextPart(ackFailed)), ReadPart(NextUndelivered(box), true), u, pc);
  }

  lemma SendsNext(e: Env, s: State, w: Walk, t: State, a: nat, id: int, committed: seq<Statement>, j: Job, at: At, m: Option<int>)
    returns (w': Walk, u: State)
    requires Walked(e, s, w, t, a, id, committed) && Stands(s, t, a, id, Working(j, at), committed) && at.PartSend? && j.stage == Deliver
    ensures Walked(e, s, w', u, a, id, committed)
    ensures Stands(s, u, a, id, Working(j, if m.Some? then PartWrite(at.part, m.value, at.ackFailed) else Failing), committed)
  {
    var pc := Working(j, if m.Some? then PartWrite(at.part, m.value, at.ackFailed) else Failing);
    u := Move(t, a, pc).(ledger := Attempted(Show(t, a, id, Deliver), PartSlot(id, at.part), true));
    hide Attempted, Show;
    assert WorkerStep(t, a, SendPart(true, m), u);
    hide WorkerStep, Walked, Stands;
    w' := Call(e, s, w, t, a, id, committed, Working(j, at), SendPart(true, m), u, pc);
  }

  // From reading the next part to the next write point or the failure.
  lemma Delivers(e: Env, s: State, w: Walk, t: State, a: nat, id: int, committed: seq<Statement>, j: Job, ackFailed: bool, m: Option<int>)
    returns (w': Walk, u: State)
    requires Walked(e, s, w, t, a, id, committed) && Stands(s, t, a, id, Working(j, At.NextPart(ackFailed)), committed)
    requires j.stage == Deliver
    ensures Walked(e, s, w', u, a, id, committed)
    ensures Stands(s, u, a, id,
                   Working(j, match NextUndelivered(t.db.BoxOf(id))
                              case Some(k) => if m.Some? then PartWrite(k, m.value, ackFailed) else Failing
                              case None => if ackFailed then Failing else CompleteWrite), committed)
  {
    hide Walked, Stands, NextUndelivered;
    var box := t.db.BoxOf(id);
    w', u := ReadsNext(e, s, w, t, a, id, committed, j, ackFailed);
    if NextUndelivered(box).Some? {
      w', u := SendsNext(e, s, w', u, a, id, committed, j, AfterRead(box, ackFailed), m);
    }
  }

  // ----- from point to point -----

  // The walk has committed the first n statements of the stage and stands where the next one, or the end, is due.
  ghost predicate Reached(e: Env, s: State, w: Walk, t: State, a: nat, id: int, r: Replies, n: nat)
    requires id in s.db.jobs
  {
    var row, box := s.db.jobs[id], s.db.BoxOf(id);
    var all := StageStatements(row, box, r);
    n <= |all| && Walked(e, s, w, t, a, id, all[..n]) && Stands(s, t, a, id, PointAfter(row, box, r, n), all[..n])
  }

  lemma FirstOfStatus(e: Env, s: State, a: nat, id: int, r: Replies) returns (w: Walk, t: State)
    requires Begins(s, a, id, r) && s.db.jobs[id].stage == Status
    ensures Reached(e, s, w, t, a, id, r, 0)
  {
    var row := s.db.jobs[id];
    w := Start(e, s, a, id, r);
    hide Walked, Stands;
    w, t := Sends(e, s, w, s, a, id, [], row, r.message);
    assert StageStatements(row, s.db.BoxOf(id), r)[..0] == [];
  }

  lemma FirstOfUpload(e: Env, s: State, a: nat, id: int, r: Replies) returns (w: Walk, t: State)
    requires Begins(s, a, id, r) && s.db.jobs[id].stage == Upload
    ensures Reached(e, s, w, t, a, id, r, 0)
  {
    var row := s.db.jobs[id];
    w := Start(e, s, a, id, r);
    hide Walked, Stands, CanSubmit, SubmittedId;
    w, t := Uploads(e, s, w, s, a, id, [], row, r.upload);
    if r.upload.NotUploaded? {
      w, t := Joins(e, s, w, t, a, id, [], row, Fail);
    }
    assert StageStatements(row, s.db.BoxOf(id), r)[..0] == [];
  }

  lemma FirstOfPoll(e: Env, s: State, a: nat, id: int, r: Replies) returns (w: Walk, t: State)
    requires Begins(s, a, id, r) && s.db.jobs[id].stage == Poll
    ensures Reached(e, s, w, t, a, id, r, 0)
  {
    var row := s.db.jobs[id];
    w := Start(e, s, a, id, r);
    t := s;
    hide Walked, Stands, Answers;
    if row.cancelRequested {
      w, t := Cancels(e, s, w, s, a, id, [], row, r.cancelled);
    }
    if !row.cancelRequested || r.cancelled {
      w, t := Gets(e, s, w, t, a, id, [], row, r.status);
      if r.status.Running? && r.status.text != row.progressText {
        w, t := Shows(e, s, w, t, a, id, [], row, r.status.text, r.shown);
      }
    }
    assert StageStatements(row, s.db.BoxOf(id), r)[..0] == [];
    PollPoint(row, s.db.BoxOf(id), r);
  }

  lemma PollPoint(row: Job, box: Box, r: Replies)
    requires row.stage == Poll
    ensures PointAfter(row, box, r, 0) ==
            Working(row, if row.cancelRequested && !r.cancelled then Failing
                         else if r.status.Running? && RunningText(r) != row.progressText && r.shown then ProgressWrite(RunningText(r))
                         else if r.status.Running? then ScheduleWrite(POLL_INTERVAL, "")
                         else AfterGet(row, r.status))
  {
    hide ResultParts;
  }

  function RunningText(r: Replies): string
    requires r.status.Running?
  {
    r.status.text
  }

  // The write point, or the failure, that follows a reading of the next part.
  function DeliverPoint(box: Box, ackFailed: bool, sent: Option<int>): At {
    match NextUndelivered(box)
    case Some(k) => if sent.Some? then PartWrite(k, sent.value, ackFailed) else Failing
    case None => if ackFailed then Failing else CompleteWrite
  }

  lemma DeliverPoints(row: Job, box: Box, r: Replies)
    requires row.stage == Deliver
    ensures var all, acks := StageStatements(row, box, r), !row.acknowledged && r.acked;
            && (acks ==> all != [] && all[0] == SetAcknowledged && PointAfter(row, box, r, 0) == Working(row, AckWrite)
                         && PointAfter(row, box, r, 1) == Working(row, DeliverPoint(box, false, r.sent)))
            && (!acks ==> PointAfter(row, box, r, 0) == Working(row, DeliverPoint(box, !row.acknowledged, r.sent)))
  {
    DeliverShape(row, box, r);
    hide NextUndelivered, StageStatements, Succeeds;
  }

  lemma FirstOfDeliver(e: Env, s: State, a: nat, id: int, r: Replies) returns (w: Walk, t: State)
    requires Begins(s, a, id, r) && s.db.jobs[id].stage == Deliver
    ensures Reached(e, s, w, t, a, id, r, 0)
  {
    var row := s.db.jobs[id];
    w := Start(e, s, a, id, r);
    t := s;
    DeliverPoints(row, s.db.BoxOf(id), r);
    assert FirstAt(row) == if row.acknowledged then At.NextPart(false) else AckCall;
    assert StageStatements(row, s.db.BoxOf(id), r)[..0] == [];
    assert SameTables(s, s, id);
    hide Walked, Stands, StageStatements, PointAfter, NextUndelivered, Begins;
    if !row.acknowledged {
      w, t := Acks(e, s, w, s, a, id, [], row, r.acked);
      NothingYet(s, t, a, id, Working(row, if r.acked then AckWrite else At.NextPart(true)));
    }
    if row.acknowledged || !r.acked {
      w, t := Delivers(e, s, w, t, a, id, [], row, !row.acknowledged, r.sent);
    }
  }

  predicate SameTables(s: State, t: State, id: int) {
    t.db.BoxOf(id) == s.db.BoxOf(id)
  }

  lemma NothingYet(s: State, t: State, a: nat, id: int, pc: PC)
    requires Stands(s, t, a, id, pc, [])
    ensures SameTables(s, t, id)
  {
  }

  lemma First(e: Env, s: State, a: nat, id: int, r: Replies) returns (w: Walk, t: State)
    requires Begins(s, a, id, r)
    ensures Reached(e, s, w, t, a, id, r, 0)
  {
    assert id in s.db.jobs && s.db.jobs[id].stage != Stage.Done;
    hide Begins, Reached;
    match s.db.jobs[id].stage
    case Status => w, t := FirstOfStatus(e, s, a, id, r);
    case Upload => w, t := FirstOfUpload(e, s, a, id, r);
    case Poll => w, t := FirstOfPoll(e, s, a, id, r);
    case Deliver => w, t := FirstOfDeliver(e, s, a, id, r);
  }

  // Where the worker is right after the n-th statement, before any further call.
  lemma PointsFollow(row: Job, box: Box, r: Replies, n: nat)
    requires n < |StageStatements(row, box, r)| && row.stage != Stage.Done
    ensures var at := PointAt(row, box, r, n);
            && IsWrite(at) && StatementOf(row, at) == StageStatements(row, box, r)[n]
            && (if row.stage == Upload then AfterWrite(row, at) == Working(row, Stopping(Exit)) && PointAfter(row, box, r, n + 1) == Leaving(None)
                else if at.AckWrite? then AfterWrite(row, at) == Working(row, At.NextPart(false)) && n == 0 && row.stage == Deliver
                else AfterWrite(row, at) == PointAfter(row, box, r, n + 1))
  {
    if row.stage == Deliver {
      DeliverShape(row, box, r);
      hide NextUndelivered, StageStatements, Succeeds, ResultParts;
    } else {
      hide ResultParts, NextUndelivered;
    }
  }

  lemma AckedTables(s: State, t: State, a: nat, id: int, pc: PC)
    requires Stands(s, t, a, id, pc, [SetAcknowledged])
    ensures SameTables(s, t, id)
  {
    AckKeepsParts(s.db, id, s.now);
    RunNone(s.db, id, [SetAcknowledged], s.now);
    RunNext(s.db, id, [SetAcknowledged], 0, s.now);
    assert [SetAcknowledged][..1] == [SetAcknowledged];
    hide Execute;
  }

  lemma Advance(e: Env, s: State, w: Walk, t: State, a: nat, id: int, r: Replies, n: nat) returns (w': Walk, u: State)
    requires id in s.db.jobs && s.db.jobs[id].stage != Stage.Done
    requires n < |StageStatements(s.db.jobs[id], s.db.BoxOf(id), r)| && Reached(e, s, w, t, a, id, r, n)
    ensures Reached(e, s, w', u, a, id, r, n + 1)
  {
    var row, box := s.db.jobs[id], s.db.BoxOf(id);
    var all, at := StageStatements(row, box, r), PointAt(row, box, r, n);
    PointsFollow(row, box, r, n);
    assert PointAfter(row, box, r, n) == Working(row, at);
    assert all[..n] + [all[n]] == all[..n + 1];
    if at.AckWrite? {
      DeliverPoints(row, box, r);
      AckIsAck(row, box, r, n);
    }
    hide Walked, Stands, StageStatements, PointAt, PointAfter, NextUndelivered, IsWrite, StatementOf, AfterWrite, SameTables, DeliverPoint;
    w', u := CommitOne(e, s, w, t, a, id, all[..n], row, at);
    if row.stage == Upload {
      w', u := Joins(e, s, w', u, a, id, all[..n + 1], row, Exit);
    } else if at.AckWrite? {
      assert all[..1] == [SetAcknowledged];
      AckedTables(s, u, a, id, Working(row, At.NextPart(false)));
      w', u := FromNextPart(e, s, w', u, a, id, all[..1], row, r.sent);
    }
  }

  lemma AckIsAck(row: Job, box: Box, r: Replies, n: nat)
    requires n < |StageStatements(row, box, r)| && PointAt(row, box, r, n).AckWrite? && row.stage == Deliver
    ensures !row.acknowledged && r.acked
  {
    hide NextUndelivered;
  }

  lemma FromNextPart(e: Env, s: State, w: Walk, t: State, a: nat, id: int, committed: seq<Statement>, j: Job, m: Option<int>)
    returns (w': Walk, u: State)
    requires Walked(e, s, w, t, a, id, committed) && Stands(s, t, a, id, Working(j, At.NextPart(false)), committed)
    requires j.stage == Deliver && SameTables(s, t, id)
    ensures Walked(e, s, w', u, a, id, committed)
    ensures Stands(s, u, a, id, Working(j, DeliverPoint(s.db.BoxOf(id), false, m)), committed)
  {
    hide Walked, Stands, NextUndelivered;
    w', u := Delivers(e, s, w, t, a, id, committed, j, false, m);
  }

  lemma {:induction false} Reach(e: Env, s: State, a: nat, id: int, r: Replies, n: nat) returns (w: Walk, t: State)
    requires Begins(s, a, id, r) && n <= |StageStatements(s.db.jobs[id], s.db.BoxOf(id), r)|
    ensures Reached(e, s, w, t, a, id, r, n)
  {
    hide Reached, StageStatements;
    if n == 0 {
      w, t := First(e, s, a, id, r);
    } else {
      w, t := Reach(e, s, a, id, r, n - 1);
      w, t := Advance(e, s, w, t, a, id, r, n - 1);
    }
  }

  // ----- the refinement -----

  lemma RetryAfterFailure(e: Env, s: State, w: Walk, t: State, a: nat, id: int, r: Replies, n: nat, hint: Option<int>)
    returns (w': Walk, u: State)
    requires id in s.db.jobs && s.db.jobs[id].stage != Stage.Done && Reached(e, s, w, t, a, id, r, n)
    requires var row, box := s.db.jobs[id], s.db.BoxOf(id);
             n < |StageStatements(row, box, r)| || !Succeeds(row, box, r)
    ensures var row, box := s.db.jobs[id], s.db.BoxOf(id);
            var committed := StageStatements(row, box, r)[..n] + [Retry(row, hint)];
            Walked(e, s, w', u, a, id, committed) && Stands(s, u, a, id, Leaving(None), committed)
  {
    var row, box := s.db.jobs[id], s.db.BoxOf(id);
    var all := StageStatements(row, box, r);
    w', u := w, t;
    if n < |all| {
      var at := PointAt(row, box, r, n);
      PointsFollow(row, box, r, n);
      NoRetryAmong(row, box, r, n);
      assert PointAfter(row, box, r, n) == Working(row, at);
      assert AfterError(row, at) == Working(row, if row.stage == Upload then Stopping(Fail) else Failing);
      hide Walked, Stands, StageStatements, PointAt, PointAfter, IsWrite, AfterError, Retry;
      w', u := Refuse(e, s, w, t, a, id, all[..n], row, at);
      if row.stage == Upload {
        w', u := Joins(e, s, w', u, a, id, all[..n], row, Fail);
      }
    }
    hide Walked, Stands, StageStatements, PointAt, Retry;
    w', u := Reschedule(e, s, w', u, a, id, all[..n], row, hint);
  }

  // No stage statement is itself a retry.
  lemma NoRetryAmong(row: Job, box: Box, r: Replies, n: nat)
    requires n < |StageStatements(row, box, r)|
    ensures var at := PointAt(row, box, r, n); at.ScheduleWrite? ==> at.code == ""
  {
    if row.stage == Deliver {
      DeliverShape(row, box, r);
      hide NextUndelivered, StageStatements;
    }
    hide ResultParts;
  }

  /** For any replies the backend can give, and however the run is cut short or retried, the engine has a run of this worker
      that commits exactly the statements of the worker's methods, in their order, and so leaves the same tables. */
  lemma EngineRunsTheStage(e: Env, s: State, a: nat, id: int, r: Replies, hint: Option<int>, statements: seq<Statement>)
    returns (w: Walk, t: State)
    requires Begins(s, a, id, r) && IsRunOf(s.db.jobs[id], s.db.BoxOf(id), r, hint, statements)
    ensures Walked(e, s, w, t, a, id, statements) && t.db == ExecuteAll(s.db, id, statements, s.now)
  {
    var row, box := s.db.jobs[id], s.db.BoxOf(id);
    var all := StageStatements(row, box, r);
    if statements <= all {
      w, t := Reach(e, s, a, id, r, |statements|);
      assert all[..|statements|] == statements;
    } else {
      var n :| 0 <= n <= |all| && (n < |all| || !Succeeds(row, box, r)) && statements == all[..n] + [Retry(row, hint)];
      w, t := Reach(e, s, a, id, r, n);
      w, t := RetryAfterFailure(e, s, w, t, a, id, r, n, hint);
    }
    hide Walked, StageStatements, Succeeds, Retry;
  }
}
