/** Every step of a stage worker keeps the invariant. */
module EngineWorker {
  import opened Tables
  import opened Engine
  import opened EngineInvariant
  import opened EngineStability
  import opened EngineEnvironment
  import opened EngineClaims
  import opened EngineWrites
  import opened EngineCalls

  // ----- committed writes -----

  // The connection is lost with the reply: an upload still joins its display, any other stage ends at once.
  lemma WriteShape(s: State, a: nat, id: int, j: Job, at: At, commit: Commit, t: State)
    requires a in s.actors && s.actors[a].Holding? && WriteStep(s, a, id, j, at, commit, t) && !commit.Refused?
    ensures IsWrite(at) && HasLive(s, a)
    ensures var u := Written(s, id, j, at);
            t == if commit.Committed? then Move(u, a, AfterWrite(j, at))
                 else if Uploading(j, at) then Move(u, a, Working(j, Stopping(Vanish)))
                 else DropActor(u, a)
  {
    hide Execute, StatementOf, AfterWrite, Receipted;
  }

  lemma WriterPosition(e: Env, s: State, a: nat, id: int, j: Job, at: At, commit: Commit, u: State)
    requires DataOk(e, s) && Lasting(s, id, j, at) && Fenced(s, id, j, at) && IsWrite(at)
    requires u == Written(s, id, j, at) && Evolves(s, u) && !commit.Refused?
    requires commit.CommittedUnseen? ==> Uploading(j, at)
    ensures PcOk(u, JobKey(id), if commit.Committed? then AfterWrite(j, at) else Working(j, Stopping(Vanish)), true)
  {
    assert JobsOk(e, s) && LedgerOk(s);
    hide DataOk, JobsOk, LedgerOk, Lasting, Fenced, Evolves, Written, AfterWrite, PcOk;
    LastingFits(s, id, j, at);
    HolderWrites(e, s, id, j, at);
    if commit.Committed? {
      AfterWriteIsOk(s, id, j, at);
    } else {
      SettledIsOk(s, id, j, at, Vanish);
      WorkingIsOk(u, id, j, Stopping(Vanish));
    }
  }

  lemma CommitMoves(e: Env, s: State, a: nat, id: int, u: State, pc: PC)
    requires PoolOk(e, s) && HasLive(s, a) && s.actors[a].key == JobKey(id) && u.pool == s.pool && u.actors == s.actors
    requires PcOk(u, JobKey(id), pc, true)
    ensures var t := Move(u, a, pc);
            PoolOk(e, t) && ActorOk(t, a) && SameData(u, t) && TimeEvolves(u, t) && t.actors - {a} == s.actors - {a}
  {
    hide PoolOk, PcOk;
    PoolSame(e, s, u);
    MovePool(e, u, a, pc, u.pool);
    MovedIsOk(u, a, pc);
  }

  lemma CommitDrops(e: Env, s: State, a: nat, u: State)
    requires PoolOk(e, s) && u.pool == s.pool && u.actors == s.actors
    ensures var t := DropActor(u, a);
            PoolOk(e, t) && ActorOk(t, a) && SameData(u, t) && TimeEvolves(u, t) && t.actors - {a} == s.actors - {a}
  {
    hide PoolOk;
    PoolSame(e, s, u);
    DropPool(e, u, DropActor(u, a), a);
  }

  lemma WrittenSame(s: State, id: int, j: Job, at: At)
    requires IsWrite(at)
    ensures var u := Written(s, id, j, at); u.pool == s.pool && u.actors == s.actors
  {
  }

  lemma WriteKeeps(e: Env, s: State, a: nat, id: int, j: Job, at: At, commit: Commit, t: State)
    requires Inv(e, s) && AtWork(e, s, a, id, j, at) && WriteStep(s, a, id, j, at, commit, t)
    ensures Inv(e, t) && Evolves(s, t) && EdgesOnly(s, t)
  {
    if commit.Refused? {
      hide Inv, JobsOk, LedgerOk, BackendOk, Lasting, Fenced, PcOk, Evolves, EdgesOnly, AfterError;
      LastingFits(s, id, j, at);
      WriteFits(at);
      ErrorIsOk(s, id, j, at, HasLive(s, a));
      MoveStep(e, s, a, AfterError(j, at));
    } else {
      hide Inv, JobsOk, LedgerOk, BackendOk, Lasting, Fenced, PcOk, WriteStep, Written, Evolves, EdgesOnly, DataOk, PoolOk, AfterWrite;
      InvParts(e, s);
      WriteShape(s, a, id, j, at, commit, t);
      var u := Written(s, id, j, at);
      WrittenSame(s, id, j, at);
      WrittenData(e, s, id, j, at);
      if commit.Committed? || Uploading(j, at) {
        WriterPosition(e, s, a, id, j, at, commit, u);
        CommitMoves(e, s, a, id, u, if commit.Committed? then AfterWrite(j, at) else Working(j, Stopping(Vanish)));
      } else {
        CommitDrops(e, s, a, u);
      }
      CommittedStep(e, s, a, id, j, at, u, t);
    }
  }

  lemma WriteFits(at: At)
    requires IsWrite(at)
    ensures !at.Failing? && !at.Stopping?
  {
  }

  // ----- the worker -----

  lemma CallKeeps(e: Env, s: State, a: nat, id: int, j: Job, at: At, ev: JobEvent, t: State)
    requires Inv(e, s) && AtWork(e, s, a, id, j, at) && CallStep(s, a, id, j, at, ev, t)
    ensures Inv(e, t) && Evolves(s, t) && EdgesOnly(s, t)
  {
    assert s.actors[a].key == JobKey(id) && a in s.actors && s.actors[a].Holding?;
    CallKinds(s, a, id, j, at, ev, t);
    hide Inv, AtWork, CallStep, Evolves, EdgesOnly, PcOk, LedgerMoves, BackendEvolves, BackendOk, Move, HasLive;
    if Quiet(at, ev) {
      QuietIsDone(e, s, a, id, j, at, ev, t);
    } else {
      match ev
      case SendStatus(effect, reply) =>
        var l, pc := StatusCall(e, s, a, id, j, at, effect, reply, t);
        LedgerStep(e, s, a, id, l, pc);
      case SendPart(effect, reply) =>
        var l, pc := PartCall(e, s, a, id, j, at, effect, reply, t);
        LedgerStep(e, s, a, id, l, pc);
      case ShowUpload =>
        var l, pc := ShowUploadCall(e, s, a, id, j, at, t);
        LedgerStep(e, s, a, id, l, pc);
      case ShowPoll(ok) =>
        var l, pc := ShowPollCall(e, s, a, id, j, at, ok, t);
        LedgerStep(e, s, a, id, l, pc);
      case Submit(outcome) =>
        var k, pc := SubmitCall(e, s, a, id, j, at, outcome, t);
        BackendStep(e, s, a, k, pc);
      case Cancel(reached, ok) =>
        var k, pc := CancelCall(e, s, a, id, j, at, reached, ok, t);
        BackendStep(e, s, a, k, pc);
      case Ack(reached, ok) =>
        var k, pc := AckReply(e, s, a, id, j, at, reached, ok, t);
        BackendStep(e, s, a, k, pc);
      case Stop => VanishStep(e, s, a);
      case _ =>
    }
  }

  lemma QuietIsDone(e: Env, s: State, a: nat, id: int, j: Job, at: At, ev: JobEvent, t: State)
    requires Inv(e, s) && AtWork(e, s, a, id, j, at) && CallStep(s, a, id, j, at, ev, t) && Quiet(at, ev)
    ensures Inv(e, t) && Evolves(s, t) && EdgesOnly(s, t)
  {
    hide Inv, JobsOk, LedgerOk, BackendOk, Lasting, Fenced, CallStep, Evolves, EdgesOnly, PcOk, QuietTarget;
    QuietShape(s, a, id, j, at, ev, t);
    QuietIsOk(e, s, id, j, at, ev, HasLive(s, a));
    MoveStep(e, s, a, QuietTarget(j, at, ev));
  }

  // Which calls are possible where.
  lemma CallKinds(s: State, a: nat, id: int, j: Job, at: At, ev: JobEvent, t: State)
    requires a in s.actors && s.actors[a].Holding? && CallStep(s, a, id, j, at, ev, t)
    ensures ev.GetStatus? || ev.Recover? ==> Quiet(at, ev)
    ensures ev.Submit? && !Quiet(at, ev) ==> ev.outcome.Accepted? || ev.outcome.AcceptedUnseen?
    ensures ev.Stop? && !Quiet(at, ev) ==> t == DropActor(s, a)
    ensures !ev.Read? && !ev.ReadPart? && !ev.Write?
  {
    hide Move, AfterError, Submitted, SubmittedId, CanSubmit, Attempted, Show, WithAck, WithCancel, Absent;
  }

  /** A stage worker's step, whatever its outcome, keeps the invariant. */
  lemma WorkerKeeps(e: Env, s: State, a: nat, ev: JobEvent, t: State)
    requires Inv(e, s) && WorkerStep(s, a, ev, t)
    ensures Inv(e, t) && Evolves(s, t) && EdgesOnly(s, t)
  {
    hide Inv, Evolves, EdgesOnly, AtWork, CallStep, ReadPartStep, WriteStep, ReadStep, PcOk;
    var id := s.actors[a].key.id;
    match s.actors[a].pc
    case Reading(stage, rest) => ReadingStep(e, s, a, id, stage, rest, ev.ok, t);
    case Working(j, at) =>
      WorkerFacts(e, s, a, id, j, at);
      match ev {
        case Write(commit) => WriteKeeps(e, s, a, id, j, at, commit, t);
        case ReadPart(part, ok) =>
          var pc := PartRead(e, s, a, id, j, at, part, ok, t);
          MoveStep(e, s, a, pc);
        case _ => CallKeeps(e, s, a, id, j, at, ev, t);
      }
    case _ =>
  }
}
