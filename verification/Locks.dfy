/** Sessions, session advisory locks and the connection pool. Locks are re-entrant within a session, so that two
    connections never own one key only because an idle connection never holds a lock. */
module Locks {
  // One advisory lock: its session and how many times that session has taken it.
  datatype Hold = Hold(session: nat, depth: nat)

  // live sessions exist on the server; idle ones sit in the pool; tuned ones carry the poller's idle timeout.
  datatype Pool = Pool(locks: map<int, Hold>, live: set<nat>, idle: set<nat>, tuned: set<nat>, next: nat)

  const NEW_POOL := Pool(map[], {}, {}, {}, 0)

  // An actor's claim: the connection it took out of the pool and the hash of the key it locked with it.
  datatype Claim = Claim(session: nat, hash: int)

  type Claims = map<nat, Claim>

  function Connect(p: Pool): Pool {
    p.(live := p.live + {p.next}, idle := p.idle + {p.next}, next := p.next + 1)
  }

  // The connection leaves the pool: to an actor, or for good when it is closed or abandoned.
  function Take(p: Pool, session: nat): Pool {
    p.(idle := p.idle - {session})
  }

  // lock_try.sql
  predicate Grants(p: Pool, session: nat, hash: int) {
    hash in p.locks ==> p.locks[hash].session == session
  }

  function Lock(p: Pool, session: nat, hash: int): Pool {
    p.(locks := p.locks[hash := Hold(session, if hash in p.locks then p.locks[hash].depth + 1 else 1)])
  }

  // lock_release.sql
  function Unlock(p: Pool, session: nat, hash: int): Pool {
    if hash !in p.locks || p.locks[hash].session != session then p
    else if p.locks[hash].depth > 1 then p.(locks := p.locks[hash := Hold(session, (p.locks[hash].depth - 1) as nat)])
    else p.(locks := p.locks - {hash})
  }

  function GiveBack(p: Pool, session: nat): Pool {
    p.(idle := p.idle + {session})
  }

  // poller_settings.sql
  function Tune(p: Pool, session: nat): Pool {
    p.(tuned := p.tuned + {session})
  }

  // The server drops a session and every lock it holds.
  function Kill(p: Pool, session: nat): Pool {
    p.(live := p.live - {session}, idle := p.idle - {session},
       locks := map h | h in p.locks && p.locks[h].session != session :: p.locks[h])
  }

  /** Locks count: what a session took twice it still holds after one unlock, and another session is refused until the
      second. */
  lemma LocksCount(p: Pool, session: nat, other: nat, hash: int)
    requires hash !in p.locks && other != session
    ensures var q := Lock(Lock(p, session, hash), session, hash);
            && Grants(Lock(p, session, hash), session, hash)
            && !Grants(q, other, hash)
            && !Grants(Unlock(q, session, hash), other, hash)
            && Grants(Unlock(Unlock(q, session, hash), session, hash), other, hash)
            && Unlock(q, other, hash) == q
  {
  }

  /** No connection in the pool holds a lock or the poller's timeout. */
  predicate Clean(p: Pool) {
    && (forall s | s in p.idle :: s in p.live && s !in p.tuned)
    && forall h | h in p.locks :: p.locks[h].session !in p.idle
  }

  /** What every step keeps between the pool and the connections that actors have taken from it. */
  predicate Sound(p: Pool, claims: Claims) {
    && Clean(p)
    && (forall s | s in p.live :: s < p.next)
    && (forall s | s in p.tuned :: s < p.next)
    && (forall h | h in p.locks :: p.locks[h].session in p.live && p.locks[h].depth == 1)
    && (forall a | a in claims :: claims[a].session < p.next && claims[a].session !in p.idle)
    && (forall a | a in claims && claims[a].session in p.live ::
          claims[a].hash in p.locks && p.locks[claims[a].hash].session == claims[a].session)
    && (forall a, h | a in claims && h in p.locks && p.locks[h].session == claims[a].session :: h == claims[a].hash)
    && (forall a, b | a in claims && b in claims && a != b :: claims[a].session != claims[b].session)
  }

  /** Mutual exclusion, whatever the hash: two actors whose sessions live never hold the same key. */
  lemma Exclusive(p: Pool, claims: Claims, a: nat, b: nat)
    requires Sound(p, claims) && a in claims && b in claims
    requires claims[a].session in p.live && claims[b].session in p.live && claims[a].hash == claims[b].hash
    ensures a == b
  {
  }

  lemma ConnectSound(p: Pool, claims: Claims)
    requires Sound(p, claims)
    ensures Sound(Connect(p), claims)
  {
  }

  lemma AcquireSound(p: Pool, claims: Claims, a: nat, session: nat, hash: int)
    requires Sound(p, claims) && a !in claims && session in p.idle && Grants(p, session, hash)
    ensures hash !in p.locks
    ensures Sound(Lock(Take(p, session), session, hash), claims[a := Claim(session, hash)])
  {
  }

  // A connection lost while trying the lock; the server may have granted it.
  lemma LoseSound(p: Pool, claims: Claims, session: nat, hash: int, taken: bool)
    requires Sound(p, claims) && session in p.idle && (taken ==> Grants(p, session, hash))
    ensures Sound(if taken then Lock(Take(p, session), session, hash) else Take(p, session), claims)
  {
  }

  /** Unlocking undoes exactly one lock, so the connection is clean when it returns to the pool. */
  lemma ReleaseSound(p: Pool, claims: Claims, a: nat, back: bool)
    requires Sound(p, claims) && a in claims && claims[a].session in p.live
    requires back ==> claims[a].session !in p.tuned
    ensures var c := claims[a];
            var q := Unlock(p, c.session, c.hash);
            && c.hash !in q.locks
            && Sound(if back then GiveBack(q, c.session) else q, claims - {a})
  {
  }

  lemma DropSound(p: Pool, claims: Claims, a: nat)
    requires Sound(p, claims)
    ensures Sound(p, claims - {a})
  {
  }

  lemma KillSound(p: Pool, claims: Claims, session: nat)
    requires Sound(p, claims)
    ensures Sound(Kill(p, session), claims)
  {
  }

  lemma TuneSound(p: Pool, claims: Claims, a: nat)
    requires Sound(p, claims) && a in claims
    ensures Sound(Tune(p, claims[a].session), claims)
  {
  }
}
