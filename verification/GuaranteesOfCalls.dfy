/** Runs of the engine seen from outside: intake, duplicate messages, backend jobs, cancellation and what is displayed. */
module GuaranteesOfCalls {
  import opened Options
  import opened Tables
  import opened Locks
  import opened Engine
  import opened EngineInvariant
  import opened EngineStability
  import opened EngineCalls
  import opened Guarantees
  import Identity

  // ----- intake -----

  /** No update is lost: each one ever produced is still pending at Telegram or is in the inbox, and an inbox row has its
      payload until it is handled, and not after. */
  lemma NoUpdateIsLost(e: Env, states: seq<State>, actions: seq<Action>, k: nat, u: int)
    requires IsRun(e, states, actions) && k < |states| && u in states[k].telegram.updates
    ensures u >= states[k].telegram.floor || u in states[k].db.inbox
    ensures u in states[k].db.inbox ==>
              states[k].db.inbox[u].payload == if states[k].db.inbox[u].handled then None else Some(states[k].telegram.updates[u])
  {
    RunKeeps(e, states, actions, k);
    InvParts(e, states[k]);
    hide IsRun, Inv, PoolOk, DataOk, JobsOk, LedgerOk, BackendOk, Fifo;
  }

  /** The cursor never goes back, inbox rows stay, and every id that enters the inbox later is above all those in it. */
  lemma IntakeIsOrdered(e: Env, states: seq<State>, actions: seq<Action>, i: nat, k: nat)
    requires IsRun(e, states, actions) && i <= k < |states|
    ensures states[i].db.cursor <= states[k].db.cursor
    ensures forall u | u in states[i].db.inbox :: u in states[k].db.inbox
    ensures forall u, v | u in states[i].db.inbox && v in states[k].db.inbox && v !in states[i].db.inbox :: u < v
  {
    RunEvolves(e, states, actions, i, k);
    hide IsRun;
  }

  // ----- duplicates -----

  // Calls for one message that no committed receipt answers.
  function Unconfirmed(l: Ledger, slot: Slot): int {
    Count(l.attempts, slot) - Count(l.receipts, slot)
  }

  // The bound on duplicates, in terms of the ledger.
  lemma LedgerIsBounded(e: Env, states: seq<State>, actions: seq<Action>, k: nat, slot: Slot)
    requires IsRun(e, states, actions) && k < |states|
    ensures Count(states[k].ledger.receipts, slot) <= 1
    ensures Count(states[k].ledger.effects, slot) <= 1 + Unconfirmed(states[k].ledger, slot)
    ensures slot.PartSlot? && slot.id in states[k].db.jobs && slot.part in states[k].db.BoxOf(slot.id) ==>
              (Count(states[k].ledger.receipts, slot) == 1 <==> states[k].db.BoxOf(slot.id)[slot.part].delivered)
  {
    var s := states[k];
    RunKeeps(e, states, actions, k);
    InvParts(e, s);
    hide IsRun, Inv, PoolOk, DataOk, JobsOk, BackendOk, Fifo, InboxOk, TelegramOk;
    assert Count(s.ledger.effects, slot) <= Count(s.ledger.attempts, slot);
    if slot.id in s.db.jobs {
      assert LedgerRowOk(s.ledger, slot.id, s.db.jobs[slot.id], s.db.BoxOf(slot.id));
      if slot.PartSlot? {
        assert Count(s.ledger.receipts, PartSlot(slot.id, slot.part)) <= 1;
      }
    } else if slot.PartSlot? {
      assert Count(s.ledger.receipts, PartSlot(slot.id, slot.part)) == 0;
    }
  }

  /** A part is sent only after the receipts of all lower parts are committed, whoever sends it. A worker whose session
      lives never sends a confirmed part again. */
  lemma PartsGoInOrder(e: Env, states: seq<State>, actions: seq<Action>, k: nat, a: nat, effect: bool, reply: Option<int>)
    requires IsRun(e, states, actions) && k < |actions| && actions[k] == JobStep(a, SendPart(effect, reply))
    ensures a in states[k].actors && states[k].actors[a].Holding? && states[k].actors[a].key.JobKey?
    ensures states[k].actors[a].pc.Working? && states[k].actors[a].pc.at.PartSend?
    ensures var box, at := states[k].db.BoxOf(states[k].actors[a].key.id), states[k].actors[a].pc.at;
            && at.part in box && box[at.part].plan == at.plan
            && (forall i | i in box && i < at.part :: box[i].delivered)
            && (HasLive(states[k], a) ==> !box[at.part].delivered)
  {
    var s, t := states[k], states[k + 1];
    RunKeeps(e, states, actions, k);
    assert WorkerStep(s, a, SendPart(effect, reply), t);
    hide IsRun;
    var id, pc := s.actors[a].key.id, s.actors[a].pc;
    PartShape(s, a, id, pc.job, pc.at, effect, reply, t);
    WorkerFacts(e, s, a, id, pc.job, pc.at);
    hide Inv, CallStep, JobsOk, LedgerOk, BackendOk, Unblocked;
  }

  // ----- backend jobs -----

  /** One backend job per durable job, and a stored job id is that job. */
  lemma OneBackendJobEach(e: Env, states: seq<State>, actions: seq<Action>, k: nat, b: string, c: string)
    requires IsRun(e, states, actions) && k < |states| && b in states[k].backend.jobs && c in states[k].backend.jobs
    requires states[k].backend.jobs[b].origin == states[k].backend.jobs[c].origin
    ensures b == c
    ensures var w := states[k].backend.jobs[b];
            && w.origin in states[k].db.jobs
            && var row := states[k].db.jobs[w.origin];
            && w.requestId == Identity.RequestId(e.bot, w.origin)
            && w.file == row.media.file && w.format == row.media.format && w.preset == row.media.preset
            && (row.jobId != "" ==> row.jobId == b)
  {
    var s := states[k];
    RunKeeps(e, states, actions, k);
    InvParts(e, s);
    assert BackendJobOk(s, b) && BackendJobOk(s, c);
    var id := s.backend.jobs[b].origin;
    StoredJob(e, states, actions, k, id);
    if s.db.jobs[id].jobId != "" {
      assert BackendJobOk(s, s.db.jobs[id].jobId);
    }
    hide IsRun, Inv, PoolOk, DataOk, LedgerOk, Fifo, InboxOk, TelegramOk, BoxMatches;
  }

  lemma SubmitterFacts(e: Env, states: seq<State>, actions: seq<Action>, k: nat, a: nat, reply: SubmitReply)
    requires IsRun(e, states, actions) && k < |actions| && actions[k] == JobStep(a, Submit(reply))
    ensures a in states[k].actors && states[k].actors[a].Holding? && states[k].actors[a].key.JobKey? && states[k].actors[a].pc.Working?
    ensures var id, j := states[k].actors[a].key.id, states[k].actors[a].pc.job;
            && id in states[k].db.jobs && states[k].db.jobs[id].media == j.media
            && j.requestId == Identity.RequestId(e.bot, id)
  {
    var s, t := states[k], states[k + 1];
    RunKeeps(e, states, actions, k);
    assert WorkerStep(s, a, Submit(reply), t);
    var id, pc := s.actors[a].key.id, s.actors[a].pc;
    hide IsRun, CallStep, Inv, JobOk;
    WorkerFacts(e, s, a, id, pc.job, pc.at);
    hide LedgerOk, BackendOk, Fenced, Unblocked;
  }

  /** All uploads of one request id, however often retried and by whom, carry the same file, format and preset. */
  lemma RetriesSubmitTheSame(e: Env, states: seq<State>, actions: seq<Action>, i: nat, k: nat, a: nat, b: nat, r: SubmitReply, q: SubmitReply)
    requires IsRun(e, states, actions) && i <= k < |actions|
    requires actions[i] == JobStep(a, Submit(r)) && actions[k] == JobStep(b, Submit(q))
    ensures a in states[i].actors && states[i].actors[a].Holding? && states[i].actors[a].pc.Working?
    ensures b in states[k].actors && states[k].actors[b].Holding? && states[k].actors[b].pc.Working?
    ensures var x, y := states[i].actors[a].pc.job, states[k].actors[b].pc.job;
            x.requestId == y.requestId ==> x.media == y.media
  {
    SubmitterFacts(e, states, actions, i, a, r);
    SubmitterFacts(e, states, actions, k, b, q);
    RunEvolves(e, states, actions, i, k);
    var x, y := states[i].actors[a].pc.job, states[k].actors[b].pc.job;
    var idx, idy := states[i].actors[a].key.id, states[k].actors[b].key.id;
    assert RowEvolves(states[i].db.jobs[idx], states[k].db.jobs[idx]);
    hide IsRun, Evolves;
    if x.requestId == y.requestId {
      Identity.RequestIdIsInjective(e.bot, idx, e.bot, idy);
    }
  }

  // ----- cancellation -----

  /** A cancel request flags exactly the polled jobs it names, and the flag is never lost. */
  lemma CancelIsKept(e: Env, states: seq<State>, actions: seq<Action>, i: nat, k: nat, id: int)
    requires IsRun(e, states, actions) && i <= k < |states| && id in states[i].db.jobs
    ensures id in states[k].db.jobs && (states[i].db.jobs[id].cancelRequested ==> states[k].db.jobs[id].cancelRequested)
    ensures states[i].db.jobs[id].cancelRequested ==> states[i].db.jobs[id].stage !in {Status, Upload} && states[i].db.jobs[id].jobId != ""
  {
    RunEvolves(e, states, actions, i, k);
    assert RowEvolves(states[i].db.jobs[id], states[k].db.jobs[id]);
    StoredJob(e, states, actions, i, id);
    hide IsRun, Evolves, BoxMatches;
  }

  // What a request sets: the one job that polls this backend job, if the chat is its own.
  lemma CancelTouchesItsJobOnly(e: Env, states: seq<State>, actions: seq<Action>, k: nat, b: string, chat: int, id: int)
    requires IsRun(e, states, actions) && k < |actions| && actions[k] == RequestCancel(b, chat) && id in states[k].db.jobs
    ensures id in states[k + 1].db.jobs
    ensures var row, row' := states[k].db.jobs[id], states[k + 1].db.jobs[id];
            && row' == row.(cancelRequested := row'.cancelRequested, nextAttempt := row'.nextAttempt)
            && (row'.cancelRequested <==> row.cancelRequested || (row.stage == Poll && row.jobId == b && row.media.chat == chat))
            && (row' != row ==> OwnBackendJob(states[k].backend, id, b))
  {
    StoredJob(e, states, actions, k, id);
    assert EnvironmentStep(states[k], RequestCancel(b, chat), states[k + 1]);
    hide IsRun, BoxMatches;
  }

  // The actor is in the part of a poll stage that a requested cancellation must precede.
  ghost predicate InPastCancel(s: State, a: nat, j: Job) {
    && a in s.actors && s.actors[a].Holding? && s.actors[a].pc.Working? && s.actors[a].pc.job == j
    && PastCancel(j, s.actors[a].pc.at)
  }

  // Only a successful Cancel call leads there.
  lemma OnlyCancelLeadsPast(e: Env, s: State, act: Action, t: State, a: nat, j: Job)
    requires Inv(e, s) && Next(e, s, act, t) && InPastCancel(t, a, j)
    ensures InPastCancel(s, a, j) || act == JobStep(a, Cancel(true, true))
  {
    hide IsCandidateList, IsPendingPrefix, Execute, PersistBatch, AdmitTx, Unlock, Lock, Kill, JobCancel, Attempted, Show,
      Submitted, SubmittedId, WithAck, WithCancel, Receipted, InboxDrained, IsInboxNext, AllDelivered, IsNextPart, StatementOf;
    if act.JobStep? && act.actor == a {
      if s.actors[a].pc.Working? {
        FitsItsStage(e, s, a);
      }
      hide Inv;
      OwnStepPast(s, act.job, t, a, j);
    } else {
      OtherStepPast(e, s, act, t, a);
    }
  }

  lemma FitsItsStage(e: Env, s: State, a: nat)
    requires Inv(e, s) && a in s.actors && s.actors[a].Holding? && s.actors[a].key.JobKey? && s.actors[a].pc.Working?
    ensures AtFits(s.actors[a].pc.job, s.actors[a].pc.at)
  {
    WorkerFacts(e, s, a, s.actors[a].key.id, s.actors[a].pc.job, s.actors[a].pc.at);
    hide Inv;
    LastingFits(s, s.actors[a].key.id, s.actors[a].pc.job, s.actors[a].pc.at);
  }

  lemma OtherStepPast(e: Env, s: State, act: Action, t: State, a: nat)
    requires Next(e, s, act, t) && !(act.JobStep? && act.actor == a)
    requires a in t.actors && t.actors[a].Holding? && t.actors[a].pc.Working?
    ensures a in s.actors && s.actors[a] == t.actors[a]
  {
    hide IsCandidateList, IsPendingPrefix, Execute, PersistBatch, AdmitTx, Unlock, Lock, Kill, JobCancel, Attempted, Show,
      Submitted, SubmittedId, WithAck, WithCancel, Receipted, InboxDrained, IsInboxNext, AllDelivered, IsNextPart, StatementOf;
  }

  lemma OwnStepPast(s: State, ev: JobEvent, t: State, a: nat, j: Job)
    requires WorkerStep(s, a, ev, t) && InPastCancel(t, a, j)
    requires s.actors[a].pc.Working? ==> AtFits(s.actors[a].pc.job, s.actors[a].pc.at)
    ensures InPastCancel(s, a, j) || ev == Cancel(true, true)
  {
    hide Execute, Attempted, Show, Submitted, SubmittedId, WithAck, WithCancel, Receipted, AllDelivered, IsNextPart, StatementOf;
  }

  /** Before a poll stage that read the flag saves its result, the same claim has told the backend to cancel. */
  lemma {:induction false} CancelPrecedesTheResult(e: Env, states: seq<State>, actions: seq<Action>, k: nat, a: nat, j: Job)
    returns (p: nat)
    requires IsRun(e, states, actions) && k < |states| && InPastCancel(states[k], a, j)
    ensures p < k && actions[p] == JobStep(a, Cancel(true, true))
    ensures forall q | p < q <= k :: InPastCancel(states[q], a, j)
  {
    hide Inv, Next, InPastCancel;
    if k == 0 {
      NobodyAtFirst(a, j);
    } else {
      RunKeeps(e, states, actions, k - 1);
      OnlyCancelLeadsPast(e, states[k - 1], actions[k - 1], states[k], a, j);
      if InPastCancel(states[k - 1], a, j) {
        p := CancelPrecedesTheResult(e, states, actions, k - 1, a, j);
      } else {
        p := k - 1;
      }
    }
  }

  lemma NobodyAtFirst(a: nat, j: Job)
    ensures !InPastCancel(INITIAL, a, j)
  {
  }

  /** A poll stage claimed after the request has read the flag. */
  lemma LaterClaimsSeeTheFlag(e: Env, states: seq<State>, actions: seq<Action>, i: nat, k: nat, a: nat)
    requires IsRun(e, states, actions) && i <= k < |actions| && actions[k] == JobStep(a, Read(true))
    requires a in states[k].actors && states[k].actors[a].Holding? && states[k].actors[a].key.JobKey?
    requires var id := states[k].actors[a].key.id;
             id in states[i].db.jobs && states[i].db.jobs[id].cancelRequested
    ensures a in states[k + 1].actors && states[k + 1].actors[a].Holding?
    ensures states[k + 1].actors[a].pc.Working? ==> states[k + 1].actors[a].pc.job.cancelRequested
  {
    var s, t := states[k], states[k + 1];
    var id := s.actors[a].key.id;
    CancelIsKept(e, states, actions, i, k, id);
    assert WorkerStep(s, a, Read(true), t);
    hide IsRun, CallStep, ReadPartStep, WriteStep;
  }

  // ----- the progress display -----

  lemma UploaderShows(e: Env, s: State, a: nat)
    requires Inv(e, s) && HasLive(s, a) && s.actors[a].key.JobKey? && s.actors[a].pc.Working?
    requires Uploading(s.actors[a].pc.job, s.actors[a].pc.at)
    ensures ShownStage(s.ledger, s.actors[a].key.id).Rank() <= 1
  {
    WorkerFacts(e, s, a, s.actors[a].key.id, s.actors[a].pc.job, s.actors[a].pc.at);
    hide Inv, JobsOk, LedgerOk, BackendOk, Agrees, Unblocked;
  }

  lemma ShowUploadShape(s: State, a: nat, t: State)
    requires WorkerStep(s, a, ShowUpload, t)
    ensures s.actors[a].pc.Working? && Uploading(s.actors[a].pc.job, s.actors[a].pc.at)
  {
  }

  lemma ShowGrows(s: State, a: nat, id: int, stage: Stage, i: int)
    ensures var l := Show(s, a, id, stage);
            && ShownStage(s.ledger, i).Rank() <= ShownStage(l, i).Rank()
            && (HasLive(s, a) && i == id ==> stage.Rank() <= ShownStage(l, i).Rank())
            && l.attempts == s.ledger.attempts && l.effects == s.ledger.effects && l.receipts == s.ledger.receipts
  {
    hide HasLive;
  }

  lemma CallShows(s: State, a: nat, key: int, j: Job, at: At, ev: JobEvent, t: State, i: int)
    requires a in s.actors && s.actors[a].Holding? && CallStep(s, a, key, j, at, ev, t)
    ensures ShownStage(s.ledger, i).Rank() <= ShownStage(t.ledger, i).Rank()
    ensures (ev.ShowPoll? || ev.SendPart?) && HasLive(s, a) && i == key ==> ShownStage(t.ledger, i).Rank() >= 2
  {
    ShowGrows(s, a, key, Upload, i);
    ShowGrows(s, a, key, Poll, i);
    ShowGrows(s, a, key, Deliver, i);
    hide Show, Submitted, SubmittedId, CanSubmit, WithAck, WithCancel, Absent, AfterError, HasLive;
  }

  lemma WorkerShows(s: State, a: nat, ev: JobEvent, t: State, i: int)
    requires WorkerStep(s, a, ev, t)
    ensures ShownStage(s.ledger, i).Rank() <= ShownStage(t.ledger, i).Rank()
    ensures (ev.ShowPoll? || ev.SendPart?) && HasLive(s, a) && i == s.actors[a].key.id ==> ShownStage(t.ledger, i).Rank() >= 2
  {
    hide CallStep, Execute, StatementOf, AfterWrite, AfterError, HasLive;
    if s.actors[a].pc.Working? && !ev.Write? && !ev.ReadPart? {
      CallShows(s, a, s.actors[a].key.id, s.actors[a].pc.job, s.actors[a].pc.at, ev, t, i);
    }
  }

  lemma StepShows(e: Env, s: State, act: Action, t: State, i: int)
    requires Next(e, s, act, t)
    ensures ShownStage(s.ledger, i).Rank() <= ShownStage(t.ledger, i).Rank()
  {
    hide WorkerStep, IsCandidateList, IsPendingPrefix, PersistBatch, AdmitTx, Unlock, Lock, Kill, JobCancel, InboxDrained, IsInboxNext;
    if act.JobStep? {
      WorkerShows(s, act.actor, act.job, t, i);
    }
  }

  lemma {:induction false} RunShows(e: Env, states: seq<State>, actions: seq<Action>, q: nat, k: nat, i: int)
    requires IsRun(e, states, actions) && q <= k < |states|
    ensures ShownStage(states[q].ledger, i).Rank() <= ShownStage(states[k].ledger, i).Rank()
    decreases k
  {
    hide Next;
    if q < k {
      RunShows(e, states, actions, q, k - 1, i);
      StepShows(e, states[k - 1], actions[k - 1], states[k], i);
    }
  }

  lemma StepOfWorker(e: Env, states: seq<State>, actions: seq<Action>, k: nat, a: nat, ev: JobEvent)
    requires IsRun(e, states, actions) && k < |actions| && actions[k] == JobStep(a, ev)
    ensures |states| == |actions| + 1 && a in states[k].actors && states[k].actors[a].Holding? && states[k].actors[a].key.JobKey?
    ensures WorkerStep(states[k], a, ev, states[k + 1])
  {
    assert Next(e, states[k], actions[k], states[k + 1]);
    hide IsRun, CallStep, ReadStep, ReadPartStep, WriteStep;
  }

  lemma UploadShowsFirst(e: Env, states: seq<State>, actions: seq<Action>, k: nat, a: nat)
    requires IsRun(e, states, actions) && k < |actions| && actions[k] == JobStep(a, ShowUpload) && HasLive(states[k], a)
    ensures states[k].actors[a].key.JobKey? && ShownStage(states[k].ledger, states[k].actors[a].key.id).Rank() <= 1
  {
    RunKeeps(e, states, actions, k);
    hide *;
    StepOfWorker(e, states, actions, k, a, ShowUpload);
    ShowUploadShape(states[k], a, states[k + 1]);
    UploaderShows(e, states[k], a);
  }

  lemma LaterStageShows(e: Env, states: seq<State>, actions: seq<Action>, q: nat, b: nat, ev: JobEvent)
    requires IsRun(e, states, actions) && q < |actions|
    requires actions[q] == JobStep(b, ev) && (ev.ShowPoll? || ev.SendPart?) && HasLive(states[q], b)
    ensures states[q].actors[b].key.JobKey? && ShownStage(states[q + 1].ledger, states[q].actors[b].key.id).Rank() >= 2
  {
    hide *;
    StepOfWorker(e, states, actions, q, b, ev);
    WorkerShows(states[q], b, ev, states[q + 1], states[q].actors[b].key.id);
  }

  /** Without session loss no upload-progress edit follows any poll or deliver edit of the job: an upload joins its display
      before it gives up the job lock. */
  lemma UploadEditsComeFirst(e: Env, states: seq<State>, actions: seq<Action>, q: nat, k: nat, a: nat, b: nat, ev: JobEvent)
    requires IsRun(e, states, actions) && q < k < |actions|
    requires actions[k] == JobStep(a, ShowUpload) && HasLive(states[k], a)
    requires actions[q] == JobStep(b, ev) && (ev.ShowPoll? || ev.SendPart?) && HasLive(states[q], b)
    ensures states[q].actors[b].key != states[k].actors[a].key
  {
    UploadShowsFirst(e, states, actions, k, a);
    LaterStageShows(e, states, actions, q, b, ev);
    hide *;
    RunShows(e, states, actions, q + 1, k, states[q].actors[b].key.id);
  }
}
