/** Scanning, locking and unlocking: an actor's steps that change no data. */
module EngineClaims {
  import opened Tables
  import opened Locks
  import opened Engine
  import opened EngineInvariant
  import opened EngineStability
  import opened EngineEnvironment

  lemma SameDataEdges(s: State, t: State)
    requires SameData(s, t)
    ensures EdgesOnly(s, t)
  {
  }

  lemma MovedIsOk(s: State, a: nat, pc: PC)
    requires a in s.actors && s.actors[a].Holding? && PcOk(s, s.actors[a].key, pc, HasLive(s, a))
    ensures var t := Move(s, a, pc);
            ActorOk(t, a) && SameData(s, t) && TimeEvolves(s, t) && EdgesOnly(s, t) && t.actors - {a} == s.actors - {a}
  {
    PcFollowsData(s, Move(s, a, pc), s.actors[a].key, pc, HasLive(s, a));
    hide PcOk;
  }

  lemma PcFollowsData(s: State, t: State, key: Key, pc: PC, live: bool)
    requires SameData(s, t) && s.now <= t.now && PcOk(s, key, pc, live)
    ensures PcOk(t, key, pc, live)
  {
  }

  /** An actor that only moves between program points, holding on to its connection. */
  lemma MoveStep(e: Env, s: State, a: nat, pc: PC)
    requires Inv(e, s) && a in s.actors && s.actors[a].Holding?
    requires PcOk(s, s.actors[a].key, pc, HasLive(s, a))
    ensures var t := Move(s, a, pc); Inv(e, t) && Evolves(s, t) && EdgesOnly(s, t)
  {
    hide *;
    InvParts(e, s);
    MovePool(e, s, a, pc, s.pool);
    MovedIsOk(s, a, pc);
    QuietStep(e, s, Move(s, a, pc), a);
  }

  // The pool's view of an actor is its session and key, not its program point.
  lemma MovePool(e: Env, s: State, a: nat, pc: PC, pool: Pool)
    requires PoolOk(e, s) && a in s.actors && s.actors[a].Holding? && pool == s.pool
    ensures ClaimsOf(e, Move(s, a, pc)) == ClaimsOf(e, s)
    ensures PoolOk(e, Move(s, a, pc))
  {
    hide Sound;
  }

  lemma VanishStep(e: Env, s: State, a: nat)
    requires Inv(e, s)
    ensures var t := DropActor(s, a); Inv(e, t) && Evolves(s, t) && EdgesOnly(s, t)
  {
    hide Inv, Evolves;
    CrashStep(e, s, a, DropActor(s, a));
  }

  // An actor that holds no connection before or after.
  lemma ScanPool(e: Env, s: State, a: nat, actor: Actor)
    requires PoolOk(e, s) && actor.Scanning? && (a in s.actors ==> s.actors[a].Scanning?)
    ensures PoolOk(e, SetActor(s, a, actor))
  {
    hide Sound;
    assert ClaimsOf(e, SetActor(s, a, actor)) == ClaimsOf(e, s);
  }

  lemma ScanStep(e: Env, s: State, a: nat, stage: Stage, ids: seq<int>, t: State)
    requires Inv(e, s) && t == SetActor(s, a, Scanning(stage, ids)) && (a in s.actors ==> s.actors[a].Scanning?)
    requires CandidatesOk(s.db, stage, ids)
    ensures Inv(e, t) && Evolves(s, t) && EdgesOnly(s, t)
  {
    ScanPool(e, s, a, Scanning(stage, ids));
    hide PoolOk, DataOk, Inv, Evolves, CandidatesOk;
    assert ActorOk(t, a);
    hide ActorOk;
    QuietStep(e, s, t, a);
  }

  lemma ListedIsOk(db: Db, stage: Stage, now: int, ids: seq<int>)
    requires IsCandidateList(db, stage, now, ids)
    ensures CandidatesOk(db, stage, ids)
  {
    forall id | id in ids
      ensures CandidateOk(db, stage, id)
    {
      assert Candidate(db, id, stage, now);
    }
  }

  lemma TailIsOk(db: Db, stage: Stage, ids: seq<int>)
    requires ids != [] && CandidatesOk(db, stage, ids)
    ensures CandidatesOk(db, stage, ids[1..]) && ids == [ids[0]] + ids[1..]
  {
    assert forall id | id in ids[1..] :: id in ids;
  }

  /** The lock is taken with a connection from the pool. */
  lemma GrantPool(e: Env, s: State, a: nat, session: nat, key: Key, pc: PC, t: State)
    requires PoolOk(e, s) && session in s.pool.idle && Grants(s.pool, session, e.hash(key))
    requires a in s.actors ==> s.actors[a].Scanning?
    requires t == SetActor(s.(pool := Lock(Take(s.pool, session), session, e.hash(key))), a, Holding(session, key, pc))
    ensures PoolOk(e, t) && TimeEvolves(s, t)
  {
    AcquireSound(s.pool, ClaimsOf(e, s), a, session, e.hash(key));
    assert ClaimsOf(e, t) == ClaimsOf(e, s)[a := Locks.Claim(session, e.hash(key))];
    assert session !in s.pool.tuned;
    hide Sound;
  }

  lemma LosePool(e: Env, s: State, a: nat, session: nat, hash: int, taken: bool, t: State)
    requires PoolOk(e, s) && session in s.pool.idle && (taken ==> Grants(s.pool, session, hash))
    requires a in s.actors ==> s.actors[a].Scanning?
    requires t == DropActor(s, a).(pool := if taken then Lock(Take(s.pool, session), session, hash) else Take(s.pool, session))
    ensures PoolOk(e, t) && TimeEvolves(s, t)
  {
    LoseSound(s.pool, ClaimsOf(e, s), session, hash, taken);
    assert ClaimsOf(e, t) == ClaimsOf(e, s);
    hide Sound;
  }

  lemma ClaimedIsOk(s: State, a: nat, key: Key)
    requires MayTry(s, a, key) && ActorOk(s, a)
    ensures PcOk(s, key, Claimed(s, a, key), true)
  {
    if key.JobKey? {
      TailIsOk(s.db, s.actors[a].stage, s.actors[a].ids);
    }
  }

  lemma TryLockStep(e: Env, s: State, a: nat, session: nat, key: Key, attempt: Attempt, t: State)
    requires Inv(e, s) && LockStep(e, s, TryLock(a, session, key, attempt), t)
    ensures Inv(e, t) && Evolves(s, t) && EdgesOnly(s, t)
  {
    SameDataEdges(s, s);
    assert a in s.actors ==> ActorOk(s, a);
    hide PoolOk, DataOk, PcOk, Evolves, EdgesOnly, CandidatesOk, Lock, Take;
    match attempt {
      case Granted =>
        ClaimedIsOk(s, a, key);
        GrantPool(e, s, a, session, key, Claimed(s, a, key), t);
        QuietGrant(e, s, a, t);
      case Busy =>
        if key.JobKey? {
          TailIsOk(s.db, s.actors[a].stage, s.actors[a].ids);
          ScanStep(e, s, a, s.actors[a].stage, s.actors[a].ids[1..], t);
        } else {
          SameRowsUntouched(s, t);
          QuietEvolves(s, t);
        }
      case Broken(taken) =>
        LosePool(e, s, a, session, e.hash(key), taken, t);
        QuietGrant(e, s, a, t);
    }
  }

  lemma QuietGrant(e: Env, s: State, a: nat, t: State)
    requires Inv(e, s) && PoolOk(e, t) && SameData(s, t) && TimeEvolves(s, t)
    requires t.actors - {a} == s.actors - {a}
    requires a in t.actors ==> t.actors[a].Holding? && PcOk(s, t.actors[a].key, t.actors[a].pc, true)
    ensures Inv(e, t) && Evolves(s, t) && EdgesOnly(s, t)
  {
    if a in t.actors {
      PcSameData(s, t, t.actors[a].key, t.actors[a].pc);
    }
    SameDataEdges(s, t);
    hide PcOk, PoolOk, DataOk, Inv, Evolves, EdgesOnly;
    QuietStep(e, s, t, a);
  }

  lemma PcSameData(s: State, t: State, key: Key, pc: PC)
    requires SameData(s, t) && s.now <= t.now && PcOk(s, key, pc, true)
    ensures PcOk(t, key, pc, true) && PcOk(t, key, pc, false)
  {
  }

  /** The lock is freed; a connection that goes back to the pool holds no other. */
  lemma ReleasePool(e: Env, s: State, a: nat, back: bool, t: State)
    requires PoolOk(e, s) && HasLive(s, a) && !s.actors[a].key.PollerKey?
    requires var c := s.actors[a];
             var p := Unlock(s.pool, c.session, e.hash(c.key));
             t.pool == if back then GiveBack(p, c.session) else p
    requires t.actors - {a} == s.actors - {a} && (a in t.actors ==> t.actors[a].Scanning?) && t.now == s.now
    ensures PoolOk(e, t) && TimeEvolves(s, t)
  {
    var c := s.actors[a];
    assert a in ClaimsOf(e, s);
    ReleaseSound(s.pool, ClaimsOf(e, s), a, back);
    forall b | b in t.actors && b != a
      ensures b in s.actors && t.actors[b] == s.actors[b]
    {
      assert b in t.actors - {a} && (t.actors - {a})[b] == (s.actors - {a})[b];
    }
    assert forall b | b in s.actors && b != a :: b in s.actors - {a};
    assert ClaimsOf(e, t) == ClaimsOf(e, s) - {a};
    hide Sound;
  }

  lemma ReleaseStep(e: Env, s: State, a: nat, commit: Commit, t: State)
    requires Inv(e, s) && LockStep(e, s, Release(a, commit), t)
    ensures Inv(e, t) && Evolves(s, t) && EdgesOnly(s, t)
  {
    assert ActorOk(s, a);
    var c := s.actors[a];
    match commit {
      case Committed =>
        ReleasePool(e, s, a, true, t);
        QuietRelease(e, s, a, t);
      case CommittedUnseen =>
        ReleasePool(e, s, a, false, t);
        QuietRelease(e, s, a, t);
      case Refused => VanishStep(e, s, a);
    }
  }

  lemma QuietRelease(e: Env, s: State, a: nat, t: State)
    requires Inv(e, s) && PoolOk(e, t) && SameData(s, t) && TimeEvolves(s, t)
    requires t.actors - {a} == s.actors - {a}
    requires a in t.actors ==> t.actors[a].Scanning? && CandidatesOk(s.db, t.actors[a].stage, t.actors[a].ids)
    ensures Inv(e, t) && Evolves(s, t) && EdgesOnly(s, t)
  {
    SameDataEdges(s, t);
    hide PoolOk, DataOk, Inv, Evolves, EdgesOnly, CandidatesOk;
    assert ActorOk(t, a);
    hide ActorOk;
    QuietStep(e, s, t, a);
  }

  /** Scanning, locking and unlocking keep the invariant and change no data. */
  lemma LockingKeeps(e: Env, s: State, act: Action, t: State)
    requires Inv(e, s) && LockStep(e, s, act, t)
    ensures Inv(e, t) && Evolves(s, t) && EdgesOnly(s, t)
  {
    hide Inv, Evolves, EdgesOnly;
    match act
    case Scan(a, stage, ids) =>
      ListedIsOk(s.db, stage, s.now, ids);
      ScanStep(e, s, a, stage, ids, t);
    case TryLock(a, session, key, attempt) => TryLockStep(e, s, a, session, key, attempt, t);
    case Release(a, commit) => ReleaseStep(e, s, a, commit, t);
    case _ =>
  }
}
