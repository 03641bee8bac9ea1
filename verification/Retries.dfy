/** How failures space the tries of a job along a run. */
module Retries {
  import opened Tables
  import opened Engine
  import opened EngineInvariant
  import opened EngineCalls
  import opened Guarantees
  import opened History
  import Backoff

  predicate RecordsFailure(s: State, act: Action, id: int) {
    CommitsOn(s, act, id) && s.actors[act.actor].pc.at.ScheduleWrite? && s.actors[act.actor].pc.at.code != ""
  }

  // The delay of the failure that the action records for the job, 0 when it records none.
  function FailureDelay(s: State, act: Action, id: int): nat {
    if RecordsFailure(s, act, id) then s.actors[act.actor].pc.at.delay else 0
  }

  // The delays of all failures recorded between two points of a run.
  function Owed(states: seq<State>, actions: seq<Action>, id: int, i: nat, k: nat): nat
    requires i <= k < |states| && k <= |actions|
  {
    if i == k then 0 else Owed(states, actions, id, i, k - 1) + FailureDelay(states[k - 1], actions[k - 1], id)
  }

  // No cancel request finds the job in poll between the two points.
  predicate NoHit(states: seq<State>, actions: seq<Action>, id: int, i: nat, k: nat)
    requires i <= k < |states| && k <= |actions|
  {
    forall m | i <= m < k :: !CancelHits(states[m], actions[m], id)
  }

  lemma HolderKnows(e: Env, s: State, a: nat, id: int, j: Job, at: At)
    requires Inv(e, s) && HasLive(s, a) && s.actors[a].key == JobKey(id) && s.actors[a].pc == Working(j, at)
    ensures id in s.db.jobs && Lasting(s, id, j, at) && Fenced(s, id, j, at) && s.db.jobs[id].attempts >= 0
  {
    WorkerFacts(e, s, a, id, j, at);
    hide Inv, LedgerOk, BackendOk, Lasting, Fenced, BoxMatches, IdentitiesMatch;
    assert JobOk(s.backend, id, s.db.jobs[id], s.db.BoxOf(id));
  }

  lemma HeldRow(s: State, id: int, j: Job, at: At)
    requires Lasting(s, id, j, at) && Fenced(s, id, j, at) && !Settled(at)
    ensures AtFits(j, at) && s.db.jobs[id].attempts == j.attempts && s.db.jobs[id].nextAttempt <= s.now
  {
    hide Unblocked, LowerDelivered, AtFits;
  }

  lemma WriteIsLater(row: Job, box: Box, j: Job, at: At, now: int)
    requires IsWrite(at) && AtFits(j, at) && row.attempts == j.attempts && row.attempts >= 0 && row.nextAttempt <= now
    ensures var row' := RowAfter(row, box, StatementOf(j, at), now);
            var delay := if at.ScheduleWrite? && at.code != "" then at.delay else 0;
            && row'.attempts >= 0 && row'.nextAttempt >= row.nextAttempt + delay
            && (at.ScheduleWrite? && at.code != "" ==>
                  row'.lastError == "stage_failed" && row'.attempts == row.attempts + 1 && row'.nextAttempt == now + delay && delay >= Backoff.RetryDelay(row.attempts))
            && Backoff.TotalDelay(row'.attempts) <= Backoff.TotalDelay(row.attempts) + delay
  {
    hide Backoff.RetryDelay, AllDelivered, ResultPlan.ResultParts;
    assert Backoff.TotalDelay(0) == 0;
    assert Backoff.TotalDelay(row.attempts + 1) == Backoff.TotalDelay(row.attempts) + Backoff.RetryDelay(row.attempts);
  }

  /** A step that is not a cancel request finding the job in poll never brings its next attempt forward, and a recorded
      failure puts it off by its whole delay, which is at least the backoff of the failures counted so far. */
  lemma StepSpaces(e: Env, s: State, act: Action, t: State, id: int)
    requires Inv(e, s) && Next(e, s, act, t) && id in s.db.jobs && s.db.jobs[id].attempts >= 0 && !CancelHits(s, act, id)
    ensures id in t.db.jobs && t.db.jobs[id].attempts >= 0
    ensures t.db.jobs[id].nextAttempt >= s.db.jobs[id].nextAttempt + FailureDelay(s, act, id)
    ensures RecordsFailure(s, act, id) ==>
              && FailureDelay(s, act, id) >= Backoff.RetryDelay(s.db.jobs[id].attempts)
              && t.db.jobs[id].attempts == s.db.jobs[id].attempts + 1
              && t.db.jobs[id].nextAttempt == s.now + FailureDelay(s, act, id) && t.db.jobs[id].lastError == "stage_failed"
    ensures Backoff.TotalDelay(t.db.jobs[id].attempts) <= Backoff.TotalDelay(s.db.jobs[id].attempts) + FailureDelay(s, act, id)
  {
    RowsChange(e, s, act, t, id);
    hide Next, Inv, CancelHits, RowAfter, BoxAfter, StatementOf, Lasting, Fenced, AtFits, Settled, IsWrite, HasLive,
      Backoff.TotalDelay, Backoff.RetryDelay;
    if CommitsOn(s, act, id) {
      var j, at := s.actors[act.actor].pc.job, s.actors[act.actor].pc.at;
      HolderKnows(e, s, act.actor, id, j, at);
      WritesAreUnsettled(at);
      HeldRow(s, id, j, at);
      WriteIsLater(s.db.jobs[id], s.db.BoxOf(id), j, at, s.now);
    }
  }

  lemma WritesAreUnsettled(at: At)
    requires IsWrite(at)
    ensures !Settled(at)
  {
  }

  /** However tries, failures and successes mix: unless a cancel request finds the job in poll meanwhile, its next attempt
      has moved out by the sum of the delays of all failures recorded in between; and that sum covers the backoff of the
      failures counted since the last success. */
  lemma {:induction false} FailuresAddUp(e: Env, states: seq<State>, actions: seq<Action>, i: nat, k: nat, id: int)
    requires IsRun(e, states, actions) && i <= k < |states| && id in states[i].db.jobs && NoHit(states, actions, id, i, k)
    ensures id in states[k].db.jobs && states[i].db.jobs[id].attempts >= 0 && states[k].db.jobs[id].attempts >= 0
    ensures states[k].db.jobs[id].nextAttempt >= states[i].db.jobs[id].nextAttempt + Owed(states, actions, id, i, k)
    ensures Backoff.TotalDelay(states[k].db.jobs[id].attempts)
         <= Backoff.TotalDelay(states[i].db.jobs[id].attempts) + Owed(states, actions, id, i, k)
    decreases k
  {
    hide Inv, Next, JobOk, Backoff.TotalDelay, FailureDelay, CancelHits;
    if i == k {
      StoredJob(e, states, actions, k, id);
      CountsUp(states[k].backend, id, states[k].db.jobs[id], states[k].db.BoxOf(id));
    } else {
      assert !CancelHits(states[k - 1], actions[k - 1], id);
      FailuresAddUp(e, states, actions, i, k - 1, id);
      RunKeeps(e, states, actions, k - 1);
      StepSpaces(e, states[k - 1], actions[k - 1], states[k], id);
    }
  }

  lemma CountsUp(k: Backend, id: int, row: Job, box: Box)
    requires JobOk(k, id, row, box)
    ensures row.attempts >= 0
  {
    hide BoxMatches;
  }

  // ----- failures in a row -----

  // A stage was left, or poll found the job running: the row of failures ends.
  predicate EndsStreak(s: State, act: Action, id: int) {
    && CommitsOn(s, act, id)
    && var at := s.actors[act.actor].pc.at;
    at.StatusWrite? || at.SubmittedWrite? || at.ResultWrite? || (at.ScheduleWrite? && at.code == "")
  }

  // The failures recorded for the job since its admission or the last success.
  function Streak(states: seq<State>, actions: seq<Action>, id: int, k: nat): nat
    requires k < |states| && k <= |actions|
  {
    if k == 0 || id !in states[k - 1].db.jobs || EndsStreak(states[k - 1], actions[k - 1], id) then 0
    else Streak(states, actions, id, k - 1) + if RecordsFailure(states[k - 1], actions[k - 1], id) then 1 else 0
  }

  lemma StatementCounts(row: Job, box: Box, j: Job, at: At, now: int)
    requires IsWrite(at)
    ensures var row' := RowAfter(row, box, StatementOf(j, at), now);
            row'.attempts ==
              if at.StatusWrite? || at.SubmittedWrite? || at.ResultWrite? || (at.ScheduleWrite? && at.code == "") then 0
              else if at.ScheduleWrite? then row.attempts + 1
              else row.attempts
  {
    hide AllDelivered, ResultPlan.ResultParts;
  }

  lemma StepCounts(e: Env, s: State, act: Action, t: State, id: int)
    requires Next(e, s, act, t) && id in s.db.jobs
    ensures id in t.db.jobs
    ensures t.db.jobs[id].attempts ==
            if EndsStreak(s, act, id) then 0 else s.db.jobs[id].attempts + if RecordsFailure(s, act, id) then 1 else 0
  {
    RowsChange(e, s, act, t, id);
    hide Next, RowAfter, BoxAfter, StatementOf, IsWrite, HasLive;
    if CommitsOn(s, act, id) {
      StatementCounts(s.db.jobs[id], s.db.BoxOf(id), s.actors[act.actor].pc.job, s.actors[act.actor].pc.at, s.now);
    }
  }

  /** The attempts column is, at every point of every run, the number of failures in a row. */
  lemma {:induction false} AttemptsCountFailures(e: Env, states: seq<State>, actions: seq<Action>, k: nat, id: int)
    requires IsRun(e, states, actions) && k < |states| && id in states[k].db.jobs
    ensures states[k].db.jobs[id].attempts == Streak(states, actions, id, k)
  {
    hide Next, EndsStreak, RecordsFailure;
    if k == 0 {
      NoJobAtFirst(id);
    } else {
      var s, act, t := states[k - 1], actions[k - 1], states[k];
      assert Next(e, s, act, t);
      if id in s.db.jobs {
        AttemptsCountFailures(e, states, actions, k - 1, id);
        StepCounts(e, s, act, t, id);
      } else {
        JobsAppear(e, s, act, t, id);
      }
    }
  }

  lemma NoJobAtFirst(id: int)
    ensures id !in INITIAL.db.jobs
  {
  }

  /** The wait is enforced on the tries themselves: whoever works on the job with a live session does so after the job's
      earlier due time and all delays recorded since; so after n failures in a row the next try runs at least TotalDelay(n)
      seconds after the job was first due. */
  lemma TriesAreSpaced(e: Env, states: seq<State>, actions: seq<Action>, i: nat, k: nat, a: nat, id: int)
    requires IsRun(e, states, actions) && i <= k < |states| && id in states[i].db.jobs && NoHit(states, actions, id, i, k)
    requires HasLive(states[k], a) && states[k].actors[a].key == JobKey(id) && states[k].actors[a].pc.Working?
    requires !Settled(states[k].actors[a].pc.at)
    ensures states[k].now >= states[i].db.jobs[id].nextAttempt + Owed(states, actions, id, i, k)
    ensures states[k].actors[a].pc.job.attempts == Streak(states, actions, id, k)
    ensures Streak(states, actions, id, i) == 0 ==>
              states[k].now >= states[i].db.jobs[id].nextAttempt + Backoff.TotalDelay(Streak(states, actions, id, k))
  {
    FailuresAddUp(e, states, actions, i, k, id);
    AttemptsCountFailures(e, states, actions, i, id);
    AttemptsCountFailures(e, states, actions, k, id);
    RunKeeps(e, states, actions, k);
    var j, at := states[k].actors[a].pc.job, states[k].actors[a].pc.at;
    hide Inv, IsRun, HasLive, Settled, Owed, NoHit, Lasting, Fenced, AtFits, Backoff.RetryDelay, Streak;
    HolderKnows(e, states[k], a, id, j, at);
    HeldRow(states[k], id, j, at);
    assert Backoff.TotalDelay(0) == 0;
  }

  /** A poll that finds the job running looks again in five seconds. */
  lemma PollsEveryFiveSeconds(e: Env, s: State, act: Action, t: State, id: int)
    requires Inv(e, s) && Next(e, s, act, t) && id in s.db.jobs && CommitsOn(s, act, id)
    requires s.actors[act.actor].pc.at.ScheduleWrite? && s.actors[act.actor].pc.at.code == ""
    ensures id in t.db.jobs && t.db.jobs[id] == s.db.jobs[id].(nextAttempt := s.now + 5, attempts := 0, lastError := "")
  {
    RowsChange(e, s, act, t, id);
    var j, at := s.actors[act.actor].pc.job, s.actors[act.actor].pc.at;
    hide Next, Inv, BoxAfter, RowAfter, StatementOf, IsWrite, Fenced, Lasting, AtFits, HasLive;
    HolderKnows(e, s, act.actor, id, j, at);
    LastingFits(s, id, j, at);
    FiveSeconds(j, at, s.db.jobs[id], s.db.BoxOf(id), s.now);
  }

  lemma FiveSeconds(j: Job, at: At, row: Job, box: Box, now: int)
    requires AtFits(j, at) && at.ScheduleWrite? && at.code == ""
    ensures RowAfter(row, box, StatementOf(j, at), now) == row.(nextAttempt := now + 5, attempts := 0, lastError := "")
  {
  }
}
