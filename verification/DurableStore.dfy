/** The store as the program runs it: one call at a time against the tables, through pooled sessions that may die before
    any statement. What other sessions do between statements is the engine's subject. */
module DurableStore {
  import opened Options
  import opened Updates
  import opened Tables
  import opened Locks
  import opened Admission
  import Engine
  import Identity

  ghost predicate HoldsNone(p: Pool, session: nat) {
    forall h | h in p.locks :: p.locks[h].session != session
  }

  ghost predicate HoldsOnly(p: Pool, session: nat, hash: int) {
    && hash in p.locks && p.locks[hash] == Hold(session, 1)
    && forall h | h in p.locks && p.locks[h].session == session :: h == hash
  }

  lemma KillFrees(p: Pool, session: nat)
    ensures HoldsNone(p, session) ==> Kill(p, session).locks == p.locks
    ensures forall h | HoldsOnly(p, session, h) :: Kill(p, session).locks == p.locks - {h}
  {
    var q := Kill(p, session).locks;
    if HoldsNone(p, session) {
      assert forall h | h in p.locks :: h in q;
      assert q == p.locks;
    }
    forall h | HoldsOnly(p, session, h)
      ensures q == p.locks - {h}
    {
      assert forall x | x in p.locks && x != h :: x in q;
    }
  }

  lemma {:induction false} SomeUpdateIsNext(db: Db, ids: set<int>, u: int)
    requires u in ids && ids == set i | i in db.inbox && !db.inbox[i].handled && i <= u
    ensures exists i | i in db.inbox :: IsInboxNext(db, i)
    decreases ids
  {
    if i: int :| i in ids && i < u {
      var below := set k | k in db.inbox && !db.inbox[k].handled && k <= i;
      assert u !in below && below <= ids;
      SomeUpdateIsNext(db, below, i);
    } else {
      assert forall i | i in db.inbox && i < u && !db.inbox[i].handled :: i in ids;
      assert IsInboxNext(db, u);
    }
  }

  // inbox_next.sql: ORDER BY update_id LIMIT 1.
  function InboxNext(db: Db): (next: Option<int>)
    ensures next.Some? ==> IsInboxNext(db, next.value)
    ensures next.None? ==> InboxDrained(db)
  {
    if InboxDrained(db) then None
    else
      assert exists i | i in db.inbox :: IsInboxNext(db, i) by {
        var u :| u in db.inbox && !db.inbox[u].handled;
        SomeUpdateIsNext(db, (set i | i in db.inbox && !db.inbox[i].handled && i <= u), u);
      }
      var i :| i in db.inbox && IsInboxNext(db, i);
      Some(i)
  }

  // How a statement ends for the one who sent it: an error leaves the connection usable.
  datatype Fate = Answers | Errors

  // The fates of each session's next statements; a session without a next one dies. failed counts the statements that
  // did not answer.
  datatype Net = Net(fates: map<nat, seq<Fate>>, failed: nat)

  class Store {
    const bot: int
    const hash: Engine.Key -> int
    var tables: Db
    var now: int
    var pool: Pool
    var net: Net

    constructor (bot: int, hash: Engine.Key -> int, tables: Db, now: int, net: Net)
      requires forall u | u in tables.inbox && !tables.inbox[u].handled :: tables.inbox[u].payload.Some?
      ensures Valid() && this.bot == bot && this.hash == hash && this.tables == tables && this.pool == NEW_POOL
    {
      this.bot, this.hash, this.tables, this.now, this.net, this.pool := bot, hash, tables, now, net, NEW_POOL;
    }

    ghost predicate Valid()
      reads this
    {
      && Clean(pool)
      && (forall s | s in pool.live :: s < pool.next)
      && (forall h | h in pool.locks :: pool.locks[h].session in pool.live)
      && (forall s | s in pool.tuned :: s < pool.next)
      && (forall u | u in tables.inbox && !tables.inbox[u].handled :: tables.inbox[u].payload.Some?)
    }

    // A connection out of the pool that, while it lives, holds exactly this lock.
    ghost predicate Owns(session: nat, lock: int)
      reads this
    {
      session < pool.next && session !in pool.idle && (session in pool.live ==> HoldsOnly(pool, session, lock))
    }

    // Sends one statement.
    method Answer(session: nat) returns (ok: bool)
      requires Valid()
      modifies this`pool, this`net
      ensures Valid()
      ensures ok ==> session in pool.live && net.failed == old(net.failed)
      ensures !ok ==> net.failed > old(net.failed)
      ensures pool == if session in pool.live then old(pool) else Kill(old(pool), session)
    {
      if session in pool.live && session in net.fates && net.fates[session] != [] {
        ok := net.fates[session][0].Answers?;
        net := Net(net.fates[session := net.fates[session][1..]], if ok then net.failed else net.failed + 1);
      } else {
        ok := false;
        net := net.(failed := net.failed + 1);
        pool := Kill(pool, session);
      }
    }

    // A statement on any connection of the pool, which gets it back unless it died.
    method PoolAnswer() returns (ok: bool)
      requires Valid()
      modifies this`pool, this`net
      ensures if ok then net.failed == old(net.failed) else net.failed > old(net.failed)
      ensures ok ==> old(pool.idle) <= pool.idle
      ensures Valid() && pool.locks == old(pool.locks) && pool.tuned == old(pool.tuned)
      ensures forall s | s < old(pool.next) && s !in old(pool.idle) :: (s in pool.live <==> s in old(pool.live)) && s !in pool.idle
      ensures old(pool.next) <= pool.next && old(net.failed) <= net.failed
    {
      if pool.idle == {} {
        pool := Connect(pool);
      }
      var session :| session in pool.idle;
      assert HoldsNone(pool, session);
      KillFrees(pool, session);
      pool := Take(pool, session);
      ok := Answer(session);
      if session in pool.live {
        pool := GiveBack(pool, session);
      }
    }

    // lock
    method Lock(key: Engine.Key) returns (conn: Option<nat>, err: bool)
      requires Valid()
      modifies this`pool, this`net
      ensures Valid() && old(pool.next) <= pool.next && pool.tuned == old(pool.tuned)
      ensures conn.Some? ==> !err && conn.value in pool.live && conn.value !in pool.tuned && Owns(conn.value, hash(key))
      ensures conn.Some? ==> hash(key) !in old(pool.locks) && pool.locks - {hash(key)} == old(pool.locks)
      ensures conn.None? ==> pool.locks == old(pool.locks)
      ensures conn.None? && !err ==> hash(key) in old(pool.locks)
      ensures if err then net.failed > old(net.failed) else net.failed == old(net.failed)
      ensures !err ==> old(pool.idle) - (if conn.Some? then {conn.value} else {}) <= pool.idle
    {
      if pool.idle == {} {
        pool := Connect(pool);
      }
      var session :| session in pool.idle;
      assert HoldsNone(pool, session);
      KillFrees(pool, session);
      pool := Take(pool, session);
      var ok := Answer(session);
      if !ok { // a connection that can still be used took no lock
        if session in pool.live {
          pool := GiveBack(pool, session);
        }
        return None, true;
      }
      if !Grants(pool, session, hash(key)) {
        pool := GiveBack(pool, session);
        return None, false;
      }
      assert hash(key) !in pool.locks;
      pool := Locks.Lock(pool, session, hash(key));
      return Some(session), false;
    }

    // unlock: the connection is returned clean, or closed.
    method Unlock(session: nat, key: Engine.Key)
      requires Valid() && Owns(session, hash(key)) && session !in pool.tuned
      modifies this`pool, this`net
      ensures Valid() && pool.next == old(pool.next) && HoldsNone(pool, session) && old(net.failed) <= net.failed
      ensures session in pool.live ==> session in pool.idle
      ensures net.failed == old(net.failed) ==> session in pool.idle
      ensures old(pool.idle) <= pool.idle
      ensures old(session in pool.live) ==> pool.locks == old(pool.locks) - {hash(key)}
      ensures old(session !in pool.live) ==> pool.locks == old(pool.locks)
    {
      KillFrees(pool, session);
      assert session !in pool.live ==> HoldsNone(pool, session);
      var ok := Answer(session);
      if ok {
        pool := GiveBack(Locks.Unlock(pool, session, hash(key)), session);
      } else {
        pool := Kill(pool, session);
      }
    }

    // ----- the poller -----

    /** The poller's session never enters the pool: on success it stays out, on failure it is closed. */
    method OpenPoller() returns (conn: Option<nat>, owned: bool)
      requires Valid()
      modifies this`pool, this`net
      ensures Valid()
      ensures conn.Some? ==> !owned && conn.value in pool.tuned && Owns(conn.value, hash(Engine.PollerKey))
      ensures conn.None? ==> pool.locks == old(pool.locks)
      ensures owned ==> conn.None? && hash(Engine.PollerKey) in old(pool.locks)
      ensures conn.None? && !owned <==> net.failed > old(net.failed)
      ensures net.failed >= old(net.failed)
    {
      var locked, err := Lock(Engine.PollerKey);
      if locked.None? {
        return None, !err;
      }
      var session := locked.value;
      KillFrees(pool, session);
      var ok := Answer(session); // poller_settings.sql
      if ok {
        pool := Tune(pool, session);
        ok := Answer(session); // cursor_init.sql
      }
      if !ok {
        pool := Kill(pool, session);
        return None, false;
      }
      return Some(session), false;
    }

    /** A getUpdates batch and its next offset commit together or not at all. */
    method Accept(session: nat, updates: seq<Record>, nextOffset: int) returns (ok: bool)
      requires Valid()
      modifies this`tables, this`pool, this`net
      ensures Valid()
      ensures tables == if ok then AcceptBatch(old(tables), updates, nextOffset) else old(tables)
      ensures if ok then net.failed == old(net.failed) else net.failed > old(net.failed)
    {
      ok := Answer(session);
      if !ok {
        return;
      }
      var tx := tables;
      for i := 0 to |updates|
        invariant Valid() && tables == old(tables) && net.failed == old(net.failed)
        invariant InsertAll(tx, updates[i..]) == InsertAll(old(tables), updates)
      {
        ok := Answer(session);
        if !ok {
          return;
        }
        assert updates[i..][1..] == updates[i + 1..];
        tx := InboxInsert(tx, updates[i].id, updates[i].payload);
      }
      ok := Answer(session);
      if !ok {
        return;
      }
      tx := CursorWrite(tx, nextOffset);
      InsertAllEffect(tables, updates);
      ok := Answer(session);
      if ok {
        tables := tx;
      }
    }

    /** persistBatch: drop what the cursor has passed, and move the cursor just past the last of the rest. */
    method PersistBatch(session: nat, offset: int, updates: seq<Record>) returns (ok: bool)
      requires Valid()
      modifies this`tables, this`pool, this`net
      ensures Valid()
      ensures tables == if ok then Engine.PersistBatch(old(tables), offset, updates) else old(tables)
      ensures if ok then net.failed == old(net.failed) else net.failed > old(net.failed)
    {
      var records := Fresh(offset, updates);
      var next := Past(offset, records);
      ok := Accept(session, records, next);
    }

    // Cursor
    method Cursor(session: nat) returns (offset: int, ok: bool)
      requires Valid()
      modifies this`pool, this`net
      ensures Valid() && (ok ==> offset == tables.cursor)
      ensures if ok then net.failed == old(net.failed) else net.failed > old(net.failed)
    {
      ok := Answer(session);
      offset := if ok then tables.cursor else 0;
    }

    /** One round of intake, where reply is what getUpdates answers for an offset, None when the call fails: what is stored is
        the reply from the committed cursor on, or nothing; intake stops only when a statement has failed. */
    method IntakeRound(session: nat, reply: int -> Option<seq<Record>>) returns (goOn: bool)
      requires Valid()
      modifies this`tables, this`pool, this`net
      ensures Valid()
      ensures if goOn then net.failed == old(net.failed) else net.failed > old(net.failed)
      ensures tables == if goOn && reply(old(tables).cursor).Some?
                        then Engine.PersistBatch(old(tables), old(tables).cursor, reply(old(tables).cursor).value) else old(tables)
    {
      var offset, ok := Cursor(session);
      if !ok {
        return false;
      }
      if reply(offset).None? {
        return true;
      }
      goOn := PersistBatch(session, offset, reply(offset).value);
    }

    // Close: the session ends with its lock and its timeout, and never reaches the pool.
    method ClosePoller(session: nat)
      requires Valid() && Owns(session, hash(Engine.PollerKey))
      modifies this`pool
      ensures Valid() && session !in pool.live && pool.idle == old(pool.idle)
      ensures old(session in pool.live) ==> pool.locks == old(pool.locks) - {hash(Engine.PollerKey)}
    {
      KillFrees(pool, session);
      pool := Kill(pool, session);
    }

    static method Fresh(offset: int, updates: seq<Record>) returns (records: seq<Record>)
      ensures records == Engine.AtLeast(updates, offset)
    {
      records := [];
      for i := 0 to |updates|
        invariant records + Engine.AtLeast(updates[i..], offset) == Engine.AtLeast(updates, offset)
      {
        assert updates[i..][1..] == updates[i + 1..];
        if updates[i].id >= offset {
          records := records + [updates[i]];
        }
      }
    }

    static method Past(offset: int, records: seq<Record>) returns (next: int)
      ensures next == Engine.NextOffset(records, offset)
    {
      next := offset;
      for i := 0 to |records|
        invariant next == Engine.NextOffset(records[..i], offset)
      {
        assert records[..i + 1][..i] == records[..i];
        next := if records[i].id + 1 > next then records[i].id + 1 else next;
      }
      assert records[..|records|] == records;
    }

    // ----- admission -----

    // acceptUpdate, with its queries and at most one write through the pool.
    method AcceptUpdate(root: int, u: Update) returns (media: Option<Media>, ok: bool)
      requires Valid()
      modifies this`tables, this`pool, this`net
      ensures Valid() && pool.locks == old(pool.locks) && pool.tuned == old(pool.tuned) && old(pool.next) <= pool.next
      ensures forall s | s < old(pool.next) && s !in old(pool.idle) :: (s in pool.live <==> s in old(pool.live)) && s !in pool.idle
      ensures var d := Decide(root, old(tables).chats, old(tables).presets, u);
              && (tables == old(tables) || tables == ApplyWrite(old(tables), d.write, now))
              && (ok ==> tables == ApplyWrite(old(tables), d.write, now) && media == d.media)
      ensures ok ==> old(pool.idle) <= pool.idle
      ensures if ok then net.failed == old(net.failed) else net.failed > old(net.failed)
    {
      media, ok := None, true;
      if u.callback.Some? {
        var cb := u.callback.value;
        if "cancel:" <= cb.data {
          if cb.from == root && cb.chat.Some? {
            ok := PoolAnswer();
            if ok {
              tables := JobCancel(tables, cb.data[|"cancel:"|..], cb.chat.value, now);
            }
          }
          return;
        }
        if "preset:" <= cb.data && cb.data[|"preset:"|..] in PRESETS {
          ok := PoolAnswer();
          if ok {
            tables := PresetSet(tables, cb.from, cb.data[|"preset:"|..]);
          }
        }
        return;
      }
      if u.member.Some? {
        var m := u.member.value;
        if m.chat.IsGroup() {
          ok := PoolAnswer();
          if ok {
            tables := if m.status in ["member", "administrator", "restricted"] then ChatAdd(tables, m.chat.id)
                      else ChatRemove(tables, m.chat.id);
          }
        }
        return;
      }
      if u.message.None? || u.message.value.from.None? {
        return;
      }
      var m := u.message.value;
      var user := m.from.value;
      if m.chat.IsGroup() {
        ok := PoolAnswer();
        if !ok {
          return;
        }
        if m.chat.id !in tables.chats {
          if user != root {
            return;
          }
          ok := PoolAnswer();
          if !ok {
            return;
          }
          tables := ChatAdd(tables, m.chat.id);
        }
      } else if user != root {
        return;
      }
      ok := PoolAnswer();
      if !ok {
        return;
      }
      media := MediaOf(tables.presets, user, m);
    }

    /** One inbox step: nothing happens, or the update's pool write happens, or the update is admitted as a whole. The
        lock is free again and no connection in the pool holds one, on every path. */
    method ProcessInbox(root: int) returns (worked: bool, ok: bool, ghost id: int)
      requires Valid()
      modifies this`tables, this`pool, this`net
      ensures Valid() && pool.locks == old(pool.locks)
      ensures net.failed == old(net.failed) ==> old(pool.idle) <= pool.idle
      ensures !worked && ok ==> InboxDrained(old(tables)) || hash(Engine.InboxKey) in old(pool.locks)
      ensures !ok ==> net.failed > old(net.failed)
      ensures net.failed == old(net.failed) && hash(Engine.InboxKey) !in old(pool.locks) && !InboxDrained(old(tables)) ==> worked
      ensures !worked ==> tables == old(tables)
      ensures worked ==> IsInboxNext(old(tables), id) && old(tables).inbox[id].payload.Some?
      ensures worked ==>
                var d := Decide(root, old(tables).chats, old(tables).presets, old(tables).inbox[id].payload.value);
                var written := ApplyWrite(old(tables), d.write, now);
                if ok then tables == AdmitTx(bot, written, id, d.media, now) else tables == old(tables) || tables == written
    {
      var conn, err := Lock(Engine.InboxKey);
      if conn.None? {
        return false, !err, 0;
      }
      var session := conn.value;
      worked, ok, id := Admit(session, root);
      assert old(pool.locks) == pool.locks - {hash(Engine.InboxKey)};
      Unlock(session, Engine.InboxKey);
    }

    // The transaction of ProcessInbox: the job and the inbox mark commit together or not at all.
    method CommitAdmission(session: nat, id: int, media: Option<Media>) returns (ok: bool)
      requires Valid() && Owns(session, hash(Engine.InboxKey)) && (session in pool.live || hash(Engine.InboxKey) !in pool.locks)
      modifies this`tables, this`pool, this`net
      ensures Valid() && Owns(session, hash(Engine.InboxKey)) && pool.tuned == old(pool.tuned)
      ensures session in pool.live || hash(Engine.InboxKey) !in pool.locks
      ensures pool.locks - {hash(Engine.InboxKey)} == old(pool.locks) - {hash(Engine.InboxKey)} && pool.idle == old(pool.idle)
      ensures tables == if ok then AdmitTx(bot, old(tables), id, media, now) else old(tables)
      ensures if ok then net.failed == old(net.failed) else net.failed > old(net.failed)
    {
      var tx := tables;
      ok := OwnAnswer(session, Engine.InboxKey); // begin
      if !ok {
        return;
      }
      if media.Some? {
        ok := OwnAnswer(session, Engine.InboxKey);
        if !ok {
          return;
        }
        tx := JobInsert(tx, id, media.value, Identity.RequestId(bot, id), now);
      }
      ok := OwnAnswer(session, Engine.InboxKey);
      if !ok {
        return;
      }
      tx := InboxDone(tx, id);
      ok := OwnAnswer(session, Engine.InboxKey); // commit
      if ok {
        tables := tx;
      }
    }

    // What ProcessInbox does while it holds the lock.
    method Admit(session: nat, root: int) returns (worked: bool, ok: bool, ghost id: int)
      requires Valid() && Owns(session, hash(Engine.InboxKey)) && session in pool.live && session !in pool.tuned
      modifies this`tables, this`pool, this`net
      ensures Valid() && Owns(session, hash(Engine.InboxKey)) && pool.tuned == old(pool.tuned)
      ensures pool.locks - {hash(Engine.InboxKey)} == old(pool.locks) - {hash(Engine.InboxKey)}
      ensures session !in pool.live ==> pool.locks == old(pool.locks) - {hash(Engine.InboxKey)}
      ensures !worked && ok ==> InboxDrained(old(tables))
      ensures ok ==> old(pool.idle) <= pool.idle
      ensures if ok then net.failed == old(net.failed) else net.failed > old(net.failed)
      ensures !worked ==> tables == old(tables)
      ensures worked ==> IsInboxNext(old(tables), id) && old(tables).inbox[id].payload.Some?
      ensures worked ==>
                var d := Decide(root, old(tables).chats, old(tables).presets, old(tables).inbox[id].payload.value);
                var written := ApplyWrite(old(tables), d.write, now);
                if ok then tables == AdmitTx(bot, written, id, d.media, now) else tables == old(tables) || tables == written
    {
      id := 0;
      ok := OwnAnswer(session, Engine.InboxKey);
      if !ok {
        return false, false, 0;
      }
      var next := InboxNext(tables);
      if next.None? {
        return false, true, 0;
      }
      id := next.value;
      var media;
      media, ok := AcceptUpdate(root, tables.inbox[next.value].payload.value);
      if !ok {
        return true, false, id;
      }
      ok := CommitAdmission(session, next.value, media);
      return true, ok, id;
    }

    // A statement on the connection that owns one lock: if the session dies, that lock is all that goes.
    method OwnAnswer(session: nat, key: Engine.Key) returns (ok: bool)
      requires Valid() && Owns(session, hash(key))
      modifies this`pool, this`net
      ensures Valid() && Owns(session, hash(key)) && pool.tuned == old(pool.tuned) && pool.next == old(pool.next)
      ensures ok ==> session in pool.live && net.failed == old(net.failed)
      ensures !ok ==> net.failed > old(net.failed)
      ensures session in pool.live ==> pool == old(pool)
      ensures pool.locks - {hash(key)} == old(pool.locks) - {hash(key)} && pool.idle == old(pool.idle)
      ensures session !in pool.live ==>
                pool.locks == if old(session in pool.live) then old(pool.locks) - {hash(key)} else old(pool.locks)
      ensures forall s | s != session :: s in pool.live <==> s in old(pool.live)
    {
      KillFrees(pool, session);
      assert session !in pool.live ==> HoldsNone(pool, session);
      ok := Answer(session);
    }

    // ----- claiming work -----

    // Would the claim loop take this row?
    ghost predicate Takes(id: int, stage: Stage)
      reads this
    {
      id in tables.jobs && tables.jobs[id].stage == stage && tables.jobs[id].nextAttempt <= now
    }

    /** Claims the first listed job that is free and still ready for the stage. ids is the answer of an earlier, unlocked
        query and may be stale. Whatever is skipped or fails leaves no lock behind. */
    method Claim(stage: Stage, ids: seq<int>) returns (work: Option<(nat, int, Job)>, err: bool)
      requires Valid()
      modifies this`pool, this`net
      ensures Valid()
      ensures work.Some? ==>
                var (session, id, job) := work.value;
                && !err && session in pool.live && session !in pool.tuned && Owns(session, hash(Engine.JobKey(id)))
                && pool.locks - {hash(Engine.JobKey(id))} == old(pool.locks)
                && Takes(id, stage) && job == tables.jobs[id] && id in ids
                && exists n :: 0 <= n < |ids| && ids[n] == id
                     && forall m | 0 <= m < n :: hash(Engine.JobKey(ids[m])) in old(pool.locks) || !Takes(ids[m], stage)
      ensures work.None? ==> pool.locks == old(pool.locks)
      ensures old(net.failed) <= net.failed
      ensures net.failed == old(net.failed) ==> old(pool.idle) - (if work.Some? then {work.value.0} else {}) <= pool.idle
      ensures err ==> net.failed > old(net.failed) || exists id :: id in ids && id !in tables.jobs
      ensures work.None? && !err ==>
                forall m | 0 <= m < |ids| :: hash(Engine.JobKey(ids[m])) in old(pool.locks) || !Takes(ids[m], stage)
    {
      for n := 0 to |ids|
        invariant Valid() && pool.locks == old(pool.locks) && old(net.failed) <= net.failed
        invariant net.failed == old(net.failed) ==> old(pool.idle) <= pool.idle
        invariant forall m | 0 <= m < n :: hash(Engine.JobKey(ids[m])) in old(pool.locks) || !Takes(ids[m], stage)
      {
        var key := Engine.JobKey(ids[n]);
        assert ids[n] in ids;
        var conn, failed := Lock(key);
        if failed {
          return None, true;
        }
        if conn.Some? {
          var ok := OwnAnswer(conn.value, key);
          if !ok || ids[n] !in tables.jobs {
            Unlock(conn.value, key);
            return None, true;
          }
          var j := tables.jobs[ids[n]];
          if j.stage == stage && j.nextAttempt <= now {
            return Some((conn.value, ids[n], j)), false;
          }
          Unlock(conn.value, key);
        }
      }
      return None, false;
    }
  }
}
