/** What holds in every run of the engine: any interleaving of actors, crashes, dead sessions and lost replies. */
module Guarantees {
  import opened ResultPlan
  import opened Tables
  import opened Locks
  import opened Engine
  import opened EngineInvariant
  import opened EngineStability
  import opened EngineEnvironment
  import opened EngineClaims
  import opened EngineCalls
  import opened EngineWorker
  import opened EngineIntake

  // ----- the invariant along a run -----

  lemma InitiallySound(e: Env)
    ensures Inv(e, INITIAL)
  {
    assert ClaimsOf(e, INITIAL) == map[];
  }

  /** The invariant is inductive, and every step moves durable state forward along the five edges. */
  lemma StepKeeps(e: Env, s: State, act: Action, t: State)
    requires Inv(e, s) && Next(e, s, act, t)
    ensures Inv(e, t) && Evolves(s, t) && EdgesOnly(s, t)
  {
    hide Inv, Evolves, EdgesOnly, WorkerStep, ProcessorStep, IntakeStep, LockStep, EnvironmentStep;
    match act
    case JobStep(a, ev) => WorkerKeeps(e, s, a, ev, t);
    case InboxStep(a, ev) => ProcessorKeeps(e, s, a, ev, t);
    case PollerStep(a, ev) => PollerKeeps(e, s, a, ev, t);
    case Scan(_, _, _) => LockingKeeps(e, s, act, t);
    case TryLock(_, _, _, _) => LockingKeeps(e, s, act, t);
    case Release(_, _) => LockingKeeps(e, s, act, t);
    case _ => EnvironmentKeeps(e, s, act, t);
  }

  lemma {:induction false} RunKeeps(e: Env, states: seq<State>, actions: seq<Action>, k: nat)
    requires IsRun(e, states, actions) && k < |states|
    ensures Inv(e, states[k])
  {
    hide Inv, Next;
    if k == 0 {
      InitiallySound(e);
    } else {
      RunKeeps(e, states, actions, k - 1);
      StepKeeps(e, states[k - 1], actions[k - 1], states[k]);
    }
  }

  lemma EvolvesReflexive(s: State)
    ensures Evolves(s, s)
  {
  }

  lemma RowsCompose(d: Db, d': Db, d'': Db)
    requires JobsEvolve(d, d') && JobsEvolve(d', d'')
    ensures JobsEvolve(d, d'')
  {
    forall id | id in d.jobs
      ensures id in d''.jobs && RowEvolves(d.jobs[id], d''.jobs[id]) && BoxEvolves(d.BoxOf(id), d''.BoxOf(id))
    {
      assert RowEvolves(d.jobs[id], d'.jobs[id]) && RowEvolves(d'.jobs[id], d''.jobs[id]);
      assert BoxEvolves(d.BoxOf(id), d'.BoxOf(id)) && BoxEvolves(d'.BoxOf(id), d''.BoxOf(id));
    }
  }

  lemma BackendsCompose(k: Backend, k': Backend, k'': Backend)
    requires BackendEvolves(k, k') && BackendEvolves(k', k'')
    ensures BackendEvolves(k, k'')
  {
    forall b | b in k.jobs
      ensures b in k''.jobs && BackendJobEvolves(k.jobs[b], k''.jobs[b])
    {
      assert BackendJobEvolves(k.jobs[b], k'.jobs[b]) && BackendJobEvolves(k'.jobs[b], k''.jobs[b]);
    }
  }

  lemma EvolvesCompose(s: State, t: State, u: State)
    requires Evolves(s, t) && Evolves(t, u)
    ensures Evolves(s, u)
  {
    RowsCompose(s.db, t.db, u.db);
    BackendsCompose(s.backend, t.backend, u.backend);
    hide JobsEvolve, BackendEvolves;
  }

  /** Forward only: from any earlier state of a run to any later one, nothing durable is undone. */
  lemma {:induction false} RunEvolves(e: Env, states: seq<State>, actions: seq<Action>, i: nat, k: nat)
    requires IsRun(e, states, actions) && i <= k < |states|
    ensures Evolves(states[i], states[k])
    decreases k
  {
    hide Inv, Next, Evolves;
    if i == k {
      EvolvesReflexive(states[i]);
    } else {
      RunEvolves(e, states, actions, i, k - 1);
      RunKeeps(e, states, actions, k - 1);
      StepKeeps(e, states[k - 1], actions[k - 1], states[k]);
      EvolvesCompose(states[i], states[k - 1], states[k]);
    }
  }

  /** Every committed change of state is one of status→upload, upload→poll, upload→deliver, poll→deliver, deliver→done,
      although the UPDATE statements test no state. */
  lemma StatesFollowTheEdges(e: Env, states: seq<State>, actions: seq<Action>, k: nat, id: int)
    requires IsRun(e, states, actions) && k < |actions| && id in states[k].db.jobs
    ensures id in states[k + 1].db.jobs && Edge(states[k].db.jobs[id].stage, states[k + 1].db.jobs[id].stage)
  {
    hide Inv, Next, Edge;
    RunKeeps(e, states, actions, k);
    StepKeeps(e, states[k], actions[k], states[k + 1]);
  }

  // ----- locks -----

  /** One live owner per key, whatever the hash; an idle connection carries neither a lock nor the poller's timeout. */
  lemma KeysHaveOneLiveOwner(e: Env, states: seq<State>, actions: seq<Action>, k: nat, a: nat, b: nat)
    requires IsRun(e, states, actions) && k < |states|
    ensures Clean(states[k].pool)
    ensures HasLive(states[k], a) && HasLive(states[k], b) && states[k].actors[a].key == states[k].actors[b].key ==> a == b
  {
    var s := states[k];
    RunKeeps(e, states, actions, k);
    InvParts(e, s);
    hide Inv, IsRun, DataOk;
    if HasLive(s, a) && HasLive(s, b) && s.actors[a].key == s.actors[b].key {
      var claims := ClaimsOf(e, s);
      assert a in claims && b in claims;
      hide Sound;
      Exclusive(s.pool, claims, a, b);
    }
  }

  /** Fencing: while the session that owns a job's lock lives, the worker's snapshot is the row, except for its own
      writes, cancel_requested and next_attempt_at. */
  lemma SnapshotIsCurrent(e: Env, states: seq<State>, actions: seq<Action>, k: nat, a: nat)
    requires IsRun(e, states, actions) && k < |states| && HasLive(states[k], a)
    requires states[k].actors[a].key.JobKey? && states[k].actors[a].pc.Working? && !Settled(states[k].actors[a].pc.at)
    ensures var c := states[k].actors[a];
            c.key.id in states[k].db.jobs && Agrees(states[k].db.jobs[c.key.id], c.pc.job, c.pc.at)
  {
    RunKeeps(e, states, actions, k);
    assert ActorOk(states[k], a);
    hide IsRun, Agrees, PoolOk, DataOk;
  }

  // ----- order -----

  /** Per-chat FIFO from an unlocked, never repeated check. */
  lemma FifoAlways(e: Env, states: seq<State>, actions: seq<Action>, k: nat, i: int, j: int)
    requires IsRun(e, states, actions) && k < |states|
    requires i in states[k].db.jobs && j in states[k].db.jobs && i < j
    requires states[k].db.jobs[i].media.chat == states[k].db.jobs[j].media.chat
    ensures states[k].db.jobs[j].stage != Status ==> states[k].db.jobs[i].stage != Status
    ensures states[k].db.jobs[j].stage !in {Status, Upload} ==> states[k].db.jobs[i].stage !in {Status, Upload}
  {
    RunKeeps(e, states, actions, k);
    InvParts(e, states[k]);
    hide Inv, IsRun, JobsOk, LedgerOk, BackendOk, InboxOk, TelegramOk, DataOk, PoolOk;
    assert FifoPair(states[k].db.jobs[i], states[k].db.jobs[j]);
  }

  // The blocker test without its clause about earlier jobs still in status.
  ghost predicate UnblockedInStage(db: Db, id: int, stage: Stage) {
    forall i | i in db.jobs && id in db.jobs && i < id && db.jobs[i].media.chat == db.jobs[id].media.chat :: db.jobs[i].stage != stage
  }

  /** For a job in upload, the clause about earlier jobs in status excludes nothing. */
  lemma StatusClauseIsRedundant(e: Env, states: seq<State>, actions: seq<Action>, k: nat, id: int)
    requires IsRun(e, states, actions) && k < |states| && id in states[k].db.jobs && states[k].db.jobs[id].stage == Upload
    ensures Unblocked(states[k].db, id, Upload) <==> UnblockedInStage(states[k].db, id, Upload)
  {
    var db := states[k].db;
    forall i | i in db.jobs && i < id && db.jobs[i].media.chat == db.jobs[id].media.chat
      ensures db.jobs[i].stage != Status
    {
      FifoAlways(e, states, actions, k, i, id);
    }
    hide IsRun;
    if UnblockedInStage(db, id, Upload) {
      assert forall i | i in db.jobs :: !Blocks(db, i, id, Upload);
    } else {
      var i :| i in db.jobs && i < id && db.jobs[i].media.chat == db.jobs[id].media.chat && db.jobs[i].stage == Upload;
      assert Blocks(db, i, id, Upload);
    }
  }

  lemma {:induction false} LeastOf(ids: set<int>, some: int) returns (least: int)
    requires some in ids
    ensures least in ids && forall i | i in ids :: least <= i
    decreases ids
  {
    least := some;
    if smaller: int :| smaller in ids && smaller < some {
      least := LeastOf(ids - {some}, smaller);
      assert smaller in ids - {some};
      assert forall i | i in ids && i != some :: i in ids - {some};
    }
  }

  // The least job of a chat in a stage.
  lemma LeastInStage(db: Db, chat: int, stage: Stage, some: int) returns (least: int)
    requires some in db.jobs && db.jobs[some].media.chat == chat && db.jobs[some].stage == stage
    ensures least in db.jobs && db.jobs[least].media.chat == chat && db.jobs[least].stage == stage
    ensures forall i | i in db.jobs && db.jobs[i].media.chat == chat && db.jobs[i].stage == stage :: least <= i
  {
    var ids := set i | i in db.jobs && db.jobs[i].media.chat == chat && db.jobs[i].stage == stage;
    least := LeastOf(ids, some);
    assert forall i | i in db.jobs && db.jobs[i].media.chat == chat && db.jobs[i].stage == stage :: i in ids;
  }

  /** Deadlock freedom: a chat with an unfinished job always has one that the FIFO test lets through. */
  lemma SomeJobIsUnblocked(e: Env, states: seq<State>, actions: seq<Action>, k: nat, id: int) returns (next: int)
    requires IsRun(e, states, actions) && k < |states| && id in states[k].db.jobs && states[k].db.jobs[id].stage != Stage.Done
    ensures next in states[k].db.jobs && states[k].db.jobs[next].media.chat == states[k].db.jobs[id].media.chat
    ensures states[k].db.jobs[next].stage != Stage.Done && Unblocked(states[k].db, next, states[k].db.jobs[next].stage)
    ensures Candidate(states[k].db, next, states[k].db.jobs[next].stage, states[k].db.jobs[next].nextAttempt)
  {
    var db := states[k].db;
    var chat := db.jobs[id].media.chat;
    if db.jobs[id].stage.Rank() >= 2 {
      next := id;
    } else if u :| u in db.jobs && db.jobs[u].media.chat == chat && db.jobs[u].stage == Upload {
      next := LeastInStage(db, chat, Upload, u);
      forall i | i in db.jobs
        ensures !Blocks(db, i, next, Upload)
      {
        if i < next && db.jobs[i].media.chat == chat {
          FifoAlways(e, states, actions, k, i, next);
        }
      }
    } else {
      next := LeastInStage(db, chat, Status, id);
    }
  }

  // ----- results and acknowledgements -----

  lemma AckedRow(s: State, b: string)
    requires b in s.backend.jobs && BackendJobOk(s, b) && (s.backend.jobs[b].acked || s.backend.jobs[b].purged)
    ensures var id := s.backend.jobs[b].origin;
            b != "" && id in s.db.jobs && s.db.jobs[id].jobId == b && s.db.jobs[id].stage.Rank() >= 3
  {
  }

  lemma ResultIsStored(k: Backend, id: int, row: Job, box: Box)
    requires JobOk(k, id, row, box) && row.jobId != "" && row.stage.Rank() >= 3
    ensures row.jobId in k.jobs && row.stage in {Deliver, Stage.Done} && row.result.Some? && row.result == k.jobs[row.jobId].terminal
    ensures BoxMatches(box, ResultParts(row.media.preset, row.result.value))
  {
    hide BoxMatches, ResultParts;
  }

  /** No result is lost: whatever the backend has been allowed to forget is stored here, with its whole outbox. */
  lemma AckedResultsAreStored(e: Env, states: seq<State>, actions: seq<Action>, k: nat, b: string)
    requires IsRun(e, states, actions) && k < |states| && b in states[k].backend.jobs
    requires states[k].backend.jobs[b].acked || states[k].backend.jobs[b].purged
    ensures var s, id := states[k], states[k].backend.jobs[b].origin;
            && id in s.db.jobs && s.db.jobs[id].jobId == b && s.db.jobs[id].stage in {Deliver, Stage.Done}
            && s.db.jobs[id].result.Some? && s.db.jobs[id].result == s.backend.jobs[b].terminal
            && BoxMatches(s.db.BoxOf(id), ResultParts(s.db.jobs[id].media.preset, s.db.jobs[id].result.value))
  {
    var s := states[k];
    RunKeeps(e, states, actions, k);
    InvParts(e, s);
    assert BackendJobOk(s, b);
    hide *;
    AckedRow(s, b);
    var id := s.backend.jobs[b].origin;
    StoredJob(e, states, actions, k, id);
    ResultIsStored(s.backend, id, s.db.jobs[id], s.db.BoxOf(id));
  }

  /** Ack is called, even by a worker whose session has died, only with a real id and after the result committed. */
  lemma AckComesAfterTheResult(e: Env, states: seq<State>, actions: seq<Action>, k: nat, a: nat, reached: bool, ok: bool)
    requires IsRun(e, states, actions) && k < |actions| && actions[k] == JobStep(a, Ack(reached, ok))
    ensures a in states[k].actors && states[k].actors[a].Holding? && states[k].actors[a].key.JobKey? && states[k].actors[a].pc.Working?
    ensures var s, id, j := states[k], states[k].actors[a].key.id, states[k].actors[a].pc.job;
            && j.jobId != "" && OwnBackendJob(s.backend, id, j.jobId)
            && id in s.db.jobs && s.db.jobs[id].jobId == j.jobId && s.db.jobs[id].stage in {Deliver, Stage.Done}
            && s.db.jobs[id].result.Some? && s.db.jobs[id].result == s.backend.jobs[j.jobId].terminal
            && BoxMatches(s.db.BoxOf(id), ResultParts(s.db.jobs[id].media.preset, s.db.jobs[id].result.value))
  {
    var s, t := states[k], states[k + 1];
    RunKeeps(e, states, actions, k);
    assert WorkerStep(s, a, Ack(reached, ok), t);
    hide IsRun;
    var id, pc := s.actors[a].key.id, s.actors[a].pc;
    AckShape(s, a, id, pc.job, pc.at, reached, ok, t);
    WorkerFacts(e, s, a, id, pc.job, pc.at);
    hide Inv, CallStep;
    AckTarget(e, s, id, pc.job, pc.at);
    LastingFits(s, id, pc.job, pc.at);
    hide LedgerOk, BackendOk, Lasting, Fenced, BoxMatches, IdentitiesMatch;
    assert JobOk(s.backend, id, s.db.jobs[id], s.db.BoxOf(id));
  }

  /** A stored result is the backend's own, or the local upload error: with retention honoured, a worker that hears of a
      missing job has already lost its session and cannot store it. */
  lemma StoredResultsAreGenuine(e: Env, states: seq<State>, actions: seq<Action>, k: nat, id: int)
    requires IsRun(e, states, actions) && k < |states| && id in states[k].db.jobs && states[k].db.jobs[id].result.Some?
    ensures var s, row := states[k], states[k].db.jobs[id];
            && (row.jobId == "" <==> row.jobId !in s.backend.jobs)
            && if row.jobId == "" then row.result.value == UPLOAD_INVALID else s.backend.jobs[row.jobId].terminal == row.result
  {
    var s := states[k];
    RunKeeps(e, states, actions, k);
    InvParts(e, s);
    hide Inv, IsRun, LedgerOk, Fifo, InboxOk, TelegramOk, DataOk, PoolOk, BoxMatches, IdentitiesMatch;
    assert JobOk(s.backend, id, s.db.jobs[id], s.db.BoxOf(id));
    assert BackendJobOk(s, "");
  }

  // ----- the outbox -----

  function BoxTexts(box: Box, n: nat): seq<string>
    requires forall k: nat | k < n :: k in box
  {
    seq(n, k requires 0 <= k < n => box[k].plan.text)
  }

  lemma BoxReads(box: Box, preset: string, r: JobResult)
    requires BoxMatches(box, ResultParts(preset, r)) && r.verdict == Transcribed && preset != "lecture"
    ensures Concat(BoxTexts(box, |ResultParts(preset, r)|)) == Spoken(r)
  {
    var parts := ResultParts(preset, r);
    PlanCarriesTheText(preset, r);
    hide ResultParts, Spoken, Prefix;
    assert BoxTexts(box, |parts|) == Texts(parts);
  }

  lemma StoredJob(e: Env, states: seq<State>, actions: seq<Action>, k: nat, id: int)
    requires IsRun(e, states, actions) && k < |states| && id in states[k].db.jobs
    ensures JobOk(states[k].backend, id, states[k].db.jobs[id], states[k].db.BoxOf(id))
  {
    RunKeeps(e, states, actions, k);
    InvParts(e, states[k]);
    hide Inv, IsRun, JobOk;
  }

  /** From deliver on, the stored parts are exactly the plan of the stored result, delivered from the front; a done job
      is acknowledged and the user has been given the whole text. */
  lemma OutboxIsThePlan(e: Env, states: seq<State>, actions: seq<Action>, k: nat, id: int)
    requires IsRun(e, states, actions) && k < |states| && id in states[k].db.jobs
    requires states[k].db.jobs[id].stage in {Deliver, Stage.Done}
    ensures states[k].db.jobs[id].result.Some?
    ensures var row, box := states[k].db.jobs[id], states[k].db.BoxOf(id);
            var r, preset := row.result.value, row.media.preset;
            var parts := ResultParts(preset, r);
            && BoxMatches(box, parts) && parts != []
            && (row.stage == Stage.Done ==> row.acknowledged && AllDelivered(box))
            && (r.verdict == Transcribed && preset != "lecture" ==> Concat(BoxTexts(box, |parts|)) == Spoken(r))
            && (r.verdict == Transcribed && preset == "lecture" ==>
                  |parts| == 2 && box[1].plan.kind == Document && IsLectureText(r, box[1].plan.text))
  {
    hide IsRun;
    StoredJob(e, states, actions, k, id);
    var row, box := states[k].db.jobs[id], states[k].db.BoxOf(id);
    var r, preset := row.result.value, row.media.preset;
    assert BoxMatches(box, ResultParts(preset, r));
    assert row.stage == Stage.Done ==> row.acknowledged && AllDelivered(box);
    PlanStartsWithTheOnlyEdit(preset, r);
    assert forall k: nat :: k in box <==> k < |ResultParts(preset, r)|;
    assert forall k | k in box :: box[k].plan == ResultParts(preset, r)[k];
    if r.verdict == Transcribed {
      PlanCarriesTheText(preset, r);
    }
    hide BoxMatches, ResultParts, Spoken, IsLectureText, JobOk, AllDelivered;
    if r.verdict == Transcribed && preset != "lecture" {
      BoxReads(box, preset, r);
    }
  }

  lemma SaverHasNoParts(s: State, id: int, j: Job, at: At)
    requires Lasting(s, id, j, at) && Fenced(s, id, j, at) && at.ResultWrite?
    requires JobOk(s.backend, id, s.db.jobs[id], s.db.BoxOf(id))
    ensures s.db.BoxOf(id) == map[]
  {
    hide BoxMatches, Unblocked, LowerDelivered;
  }

  /** The conflict clause of the outbox insert never fires: a live worker saving a result finds no part stored. */
  lemma ResultFindsNoParts(e: Env, states: seq<State>, actions: seq<Action>, k: nat, a: nat)
    requires IsRun(e, states, actions) && k < |states| && HasLive(states[k], a)
    requires states[k].actors[a].key.JobKey? && states[k].actors[a].pc.Working? && states[k].actors[a].pc.at.ResultWrite?
    ensures states[k].db.BoxOf(states[k].actors[a].key.id) == map[]
    ensures StatementOf(states[k].actors[a].pc.job, states[k].actors[a].pc.at).parts != []
  {
    var s, id := states[k], states[k].actors[a].key.id;
    RunKeeps(e, states, actions, k);
    var j, at := s.actors[a].pc.job, s.actors[a].pc.at;
    WorkerFacts(e, s, a, id, j, at);
    hide Inv, IsRun, LedgerOk, BackendOk, JobOk, Lasting, Fenced;
    SaverHasNoParts(s, id, j, at);
    PlanStartsWithTheOnlyEdit(j.media.preset, at.result);
    hide ResultParts;
  }
}
