/** Rely-guarantee plumbing: what an actor knows survives the steps of every other actor and of the environment. */
module EngineStability {
  import opened Tables
  import opened Engine
  import opened EngineInvariant

  /** The FIFO test needs no lock: once it has succeeded it can never fail again. */
  lemma UnblockedIsStable(db: Db, db': Db, id: int, stage: Stage)
    requires JobsEvolve(db, db') && id in db.jobs && Unblocked(db, id, stage)
    ensures Unblocked(db', id, stage)
  {
    if stage in {Status, Upload} {
      forall i | i in db'.jobs
        ensures !Blocks(db', i, id, stage)
      {
        if i in db.jobs {
          assert !Blocks(db, i, id, stage);
          assert RowEvolves(db.jobs[i], db'.jobs[i]) && RowEvolves(db.jobs[id], db'.jobs[id]);
        }
      }
    }
  }

  lemma CandidatesAreStable(db: Db, db': Db, stage: Stage, ids: seq<int>)
    requires JobsEvolve(db, db') && CandidatesOk(db, stage, ids)
    ensures CandidatesOk(db', stage, ids)
  {
    forall id | id in ids
      ensures CandidateOk(db', stage, id)
    {
      assert CandidateOk(db, stage, id);
      UnblockedIsStable(db, db', id, stage);
      assert RowEvolves(db.jobs[id], db'.jobs[id]);
    }
  }

  lemma LastingIsStable(s: State, t: State, id: int, j: Job, at: At)
    requires Evolves(s, t) && Lasting(s, id, j, at)
    requires at.PartSend? || at.PartWrite? ==> t.db.BoxOf(id).Keys == s.db.BoxOf(id).Keys
    ensures Lasting(t, id, j, at)
  {
    assert RowEvolves(s.db.jobs[id], t.db.jobs[id]);
    assert BoxEvolves(s.db.BoxOf(id), t.db.BoxOf(id));
    UnblockedIsStable(s.db, t.db, id, j.stage);
  }

  // From deliver onward the part numbers are those of the plan, which is fixed.
  lemma PartsAreFixed(e: Env, s: State, t: State, id: int)
    requires DataOk(e, s) && DataOk(e, t) && Evolves(s, t) && id in s.db.jobs && s.db.jobs[id].stage.Rank() >= 3
    ensures t.db.BoxOf(id).Keys == s.db.BoxOf(id).Keys
  {
    var row, row' := s.db.jobs[id], t.db.jobs[id];
    assert RowEvolves(row, row');
    assert JobOk(s.backend, id, row, s.db.BoxOf(id)) && JobOk(t.backend, id, row', t.db.BoxOf(id));
    assert row'.result == row.result && row'.media == row.media;
  }

  lemma FencedIsStable(s: State, t: State, id: int, j: Job, at: At)
    requires Evolves(s, t) && id in s.db.jobs && id in t.db.jobs && Untouched(s, t, JobKey(id)) && Fenced(s, id, j, at)
    ensures Fenced(t, id, j, at)
  {
    if at.ResultWrite? && j.stage == Poll {
      assert BackendJobEvolves(s.backend.jobs[j.jobId], t.backend.jobs[j.jobId]);
    }
  }

  lemma InboxNextIsStable(s: State, t: State, id: int)
    requires Evolves(s, t) && Untouched(s, t, InboxKey) && IsInboxNext(s.db, id)
    ensures IsInboxNext(t.db, id) && t.db.inbox[id] == s.db.inbox[id]
  {
  }

  lemma NoGapIsStable(s: State, t: State, offset: int, batch: seq<Record>)
    requires Evolves(s, t) && NoGap(s, offset, batch)
    requires forall r | r in batch :: r.id in s.telegram.updates
    ensures NoGap(t, offset, batch)
  {
  }

  lemma WorkIsStable(e: Env, s: State, t: State, id: int, j: Job, at: At, live: bool, live': bool)
    requires DataOk(e, s) && DataOk(e, t) && Evolves(s, t)
    requires Lasting(s, id, j, at) && (live ==> Fenced(s, id, j, at))
    requires live' ==> live && Untouched(s, t, JobKey(id))
    ensures Lasting(t, id, j, at) && (live' ==> Fenced(t, id, j, at))
  {
    if j.stage == Deliver {
      PartsAreFixed(e, s, t, id);
    }
    LastingIsStable(s, t, id, j, at);
    if live' {
      FencedIsStable(s, t, id, j, at);
    }
  }

  lemma JobPcIsStable(e: Env, s: State, t: State, id: int, pc: PC, live: bool, live': bool)
    requires DataOk(e, s) && DataOk(e, t) && Evolves(s, t) && PcOk(s, JobKey(id), pc, live)
    requires live' ==> live && Untouched(s, t, JobKey(id))
    ensures PcOk(t, JobKey(id), pc, live')
  {
    match pc {
      case Reading(stage, rest) => CandidatesAreStable(s.db, t.db, stage, [id] + rest);
      case Working(j, at) => WorkIsStable(e, s, t, id, j, at, live, live');
      case Leaving(Some(r)) => CandidatesAreStable(s.db, t.db, r.0, r.1);
      case _ =>
    }
  }

  lemma IntakePcIsStable(s: State, t: State, key: Key, pc: PC, live: bool, live': bool)
    requires Evolves(s, t) && !key.JobKey? && PcOk(s, key, pc, live)
    requires live' ==> live && Untouched(s, t, key)
    ensures PcOk(t, key, pc, live')
  {
    if live' {
      match pc
      case InboxHas(id, _) => InboxNextIsStable(s, t, id);
      case InboxCommit(id, _) => InboxNextIsStable(s, t, id);
      case PollerAccept(offset, batch) => NoGapIsStable(s, t, offset, batch);
      case _ =>
    }
  }

  lemma HeldSessionIsOld(e: Env, s: State, a: nat)
    requires PoolOk(e, s) && a in s.actors
    ensures s.actors[a].Holding? ==> s.actors[a].session < s.pool.next
  {
    assert s.actors[a].Holding? ==> a in ClaimsOf(e, s);
  }

  lemma ActorIsStable(e: Env, s: State, t: State, b: nat)
    requires DataOk(e, s) && DataOk(e, t) && Evolves(s, t)
    requires b in s.actors && b in t.actors && t.actors[b] == s.actors[b] && ActorOk(s, b)
    requires s.actors[b].Holding? ==> s.actors[b].session < s.pool.next
    requires HasLive(t, b) ==> Untouched(s, t, s.actors[b].key)
    ensures ActorOk(t, b)
  {
    match s.actors[b]
    case Scanning(stage, ids) => CandidatesAreStable(s.db, t.db, stage, ids);
    case Holding(session, key, pc) =>
      var live, live' := session in s.pool.live, session in t.pool.live;
      if key.JobKey? {
        JobPcIsStable(e, s, t, key.id, pc, live, live');
      } else {
        IntakePcIsStable(s, t, key, pc, live, live');
      }
  }

  /** What actor a may disturb: only the holder of its own key, and nobody unless a's session lives. */
  ghost predicate Disturbs(s: State, t: State, a: nat) {
    forall key :: Untouched(s, t, key) || (HasLive(s, a) && s.actors[a].key == key)
  }

  lemma OtherActor(e: Env, s: State, t: State, a: nat, b: nat)
    requires PoolOk(e, s) && DataOk(e, s) && DataOk(e, t) && Evolves(s, t) && Disturbs(s, t, a)
    requires b != a && b in s.actors && b in t.actors && t.actors[b] == s.actors[b] && ActorOk(s, b)
    ensures ActorOk(t, b)
  {
    if s.actors[b].Holding? {
      var claims, key := ClaimsOf(e, s), s.actors[b].key;
      assert b in claims;
      assert Untouched(s, t, key) || (HasLive(s, a) && s.actors[a].key == key);
      assert HasLive(t, b) ==> HasLive(s, b);
      assert HasLive(s, a) ==> a in claims;
    }
    ActorIsStable(e, s, t, b);
  }

  /** Actor a's step keeps the invariant once its own position and the data are known to be sound: exclusion by the
      lock and stability carry every other actor. */
  lemma StepByOneActor(e: Env, s: State, t: State, a: nat)
    requires Inv(e, s) && PoolOk(e, t) && DataOk(e, t) && Evolves(s, t) && Disturbs(s, t, a)
    requires t.actors - {a} == s.actors - {a} && ActorOk(t, a)
    ensures Inv(e, t)
  {
    hide DataOk, PoolOk, Evolves, Disturbs, ActorOk;
    forall b | b in t.actors
      ensures ActorOk(t, b)
    {
      if b != a {
        assert b in t.actors - {a} && b in s.actors - {a} && (t.actors - {a})[b] == (s.actors - {a})[b];
        OtherActor(e, s, t, a, b);
      }
    }
  }

  /** A step of the environment keeps the invariant if it touches nothing that any lock holder relies on. */
  lemma StepByNobody(e: Env, s: State, t: State)
    requires Inv(e, s) && PoolOk(e, t) && DataOk(e, t) && Evolves(s, t) && t.actors == s.actors
    requires forall key :: Untouched(s, t, key)
    ensures Inv(e, t)
  {
    hide DataOk, Evolves, PoolOk, ActorOk, Untouched;
    forall b | b in t.actors
      ensures ActorOk(t, b)
    {
      HeldSessionIsOld(e, s, b);
      ActorIsStable(e, s, t, b);
    }
  }

  lemma InvParts(e: Env, s: State)
    requires Inv(e, s)
    ensures PoolOk(e, s) && DataOk(e, s)
    ensures JobsOk(e, s) && LedgerOk(s) && BackendOk(s) && Fifo(s.db) && InboxOk(s.db) && TelegramOk(s)
  {
  }

  lemma DataParts(e: Env, s: State)
    requires JobsOk(e, s) && LedgerOk(s) && BackendOk(s) && Fifo(s.db) && InboxOk(s.db) && TelegramOk(s)
    ensures DataOk(e, s)
  {
  }

  // A step of the tables alone.
  lemma TablesEvolve(s: State, t: State)
    requires JobsEvolve(s.db, t.db) && InboxEvolves(s.db, t.db)
    requires t.backend == s.backend && t.telegram == s.telegram && t.now == s.now && t.pool == s.pool
    ensures Evolves(s, t)
  {
    hide JobsEvolve, InboxEvolves;
  }

  lemma JobFollowsBackend(k: Backend, k': Backend, id: int, row: Job, box: Box)
    requires JobOk(k, id, row, box) && BackendEvolves(k, k')
    ensures JobOk(k', id, row, box)
  {
    hide BoxMatches;
    if row.jobId != "" {
      assert BackendJobEvolves(k.jobs[row.jobId], k'.jobs[row.jobId]);
    }
  }

  /** Job rows stay in step with a backend that only moves forward. */
  lemma JobsFollowBackend(e: Env, s: State, t: State)
    requires JobsOk(e, s) && BackendEvolves(s.backend, t.backend) && t.db == s.db
    ensures JobsOk(e, t)
  {
    hide JobOk, BackendEvolves;
    forall id | id in t.db.jobs
      ensures JobOk(t.backend, id, t.db.jobs[id], t.db.BoxOf(id))
    {
      JobFollowsBackend(s.backend, t.backend, id, s.db.jobs[id], s.db.BoxOf(id));
    }
  }

  lemma SameRowsUntouched(s: State, t: State)
    requires t.db == s.db && t.ledger.shown == s.ledger.shown
    ensures JobsEvolve(s.db, t.db) && InboxEvolves(s.db, t.db) && forall key :: Untouched(s, t, key)
  {
  }

  /** The backend's records stay in step with jobs that only move forward. */
  lemma BackendFollowsRows(s: State, t: State)
    requires BackendOk(s) && JobsEvolve(s.db, t.db) && t.backend == s.backend
    ensures BackendOk(t)
  {
    forall b | b in s.backend.jobs
      ensures BackendJobOk(t, b)
    {
      assert BackendJobOk(s, b);
      assert RowEvolves(s.db.jobs[s.backend.jobs[b].origin], t.db.jobs[s.backend.jobs[b].origin]);
    }
  }

  // A step that reads and writes no data.
  ghost predicate SameData(s: State, t: State) {
    t.db == s.db && t.telegram == s.telegram && t.backend == s.backend && t.ledger == s.ledger
  }

  lemma QuietData(e: Env, s: State, t: State)
    requires DataOk(e, s) && SameData(s, t)
    ensures DataOk(e, t)
  {
    hide JobOk, LedgerRowOk, Fifo, InboxOk, IdentitiesMatch;
    forall b | b in s.backend.jobs
      ensures BackendJobOk(t, b)
    {
      assert BackendJobOk(s, b);
    }
  }

  // The clock and the live sessions move forward.
  ghost predicate TimeEvolves(s: State, t: State) {
    s.now <= t.now && s.pool.next <= t.pool.next && forall x | x in t.pool.live :: x in s.pool.live || x >= s.pool.next
  }

  lemma QuietEvolves(s: State, t: State)
    requires SameData(s, t) && TimeEvolves(s, t)
    ensures Evolves(s, t) && forall key :: Untouched(s, t, key)
  {
  }

  lemma QuietStep(e: Env, s: State, t: State, a: nat)
    requires Inv(e, s) && PoolOk(e, t) && SameData(s, t) && TimeEvolves(s, t)
    requires t.actors - {a} == s.actors - {a} && ActorOk(t, a)
    ensures Inv(e, t) && Evolves(s, t)
  {
    hide PoolOk, Untouched, ActorOk;
    QuietData(e, s, t);
    hide DataOk;
    QuietEvolves(s, t);
    StepByOneActor(e, s, t, a);
  }
}
