/** What the stored message ids and progress texts come from. */
module Receipts {
  import opened Options
  import opened Tables
  import opened Engine
  import opened EngineInvariant
  import opened EngineCalls
  import opened Guarantees
  import opened GuaranteesOfCalls
  import opened History
  import opened Retries

  // An actor of this job sends the status message and Telegram answers with its id.
  predicate StatusAnswered(s: State, act: Action, id: int, m: int) {
    && act.JobStep? && act.job.SendStatus? && act.job.reply == Some(m)
    && act.actor in s.actors && s.actors[act.actor].Holding? && s.actors[act.actor].key == JobKey(id)
  }

  // An actor of this job sends the part and Telegram answers with its message.
  predicate PartAnswered(s: State, act: Action, id: int, part: nat, m: int) {
    && act.JobStep? && act.job.SendPart? && act.job.reply == Some(m) && AboutToWrite(s, act.actor, id)
    && s.actors[act.actor].pc.at.PartSend? && s.actors[act.actor].pc.at.part == part
  }

  predicate AboutToWrite(s: State, a: nat, id: int) {
    a in s.actors && s.actors[a].Holding? && s.actors[a].key == JobKey(id) && s.actors[a].pc.Working?
  }

  predicate WritesStatus(s: State, a: nat, id: int, m: int) {
    AboutToWrite(s, a, id) && s.actors[a].pc.at == StatusWrite(m)
  }

  predicate WritesPart(s: State, a: nat, id: int, part: nat, m: int) {
    AboutToWrite(s, a, id) && s.actors[a].pc.at.PartWrite? && s.actors[a].pc.at.part == part && s.actors[a].pc.at.message == m
  }

  lemma OwnStepAnswers(s: State, a: nat, ev: JobEvent, t: State, id: int)
    requires WorkerStep(s, a, ev, t)
    ensures forall m | WritesStatus(t, a, id, m) :: WritesStatus(s, a, id, m) || StatusAnswered(s, JobStep(a, ev), id, m)
    ensures forall part, m | WritesPart(t, a, id, part, m) :: WritesPart(s, a, id, part, m) || PartAnswered(s, JobStep(a, ev), id, part, m)
  {
    hide Execute, Attempted, Show, Submitted, SubmittedId, WithAck, WithCancel, Receipted, AllDelivered, IsNextPart, StatementOf;
  }

  lemma WriterHeard(e: Env, s: State, act: Action, t: State, a: nat, id: int)
    requires Next(e, s, act, t)
    ensures forall m | WritesStatus(t, a, id, m) :: WritesStatus(s, a, id, m) || StatusAnswered(s, act, id, m)
    ensures forall part, m | WritesPart(t, a, id, part, m) :: WritesPart(s, a, id, part, m) || PartAnswered(s, act, id, part, m)
  {
    hide WorkerStep, StatusAnswered, PartAnswered;
    if act.JobStep? && act.actor == a {
      OwnStepAnswers(s, a, act.job, t, id);
    } else if AboutToWrite(t, a, id) {
      hide Next;
      OtherStepPast(e, s, act, t, a);
    }
  }

  lemma {:induction false} FindStatusAnswer(e: Env, states: seq<State>, actions: seq<Action>, k: nat, a: nat, id: int, m: int)
    returns (p: nat)
    requires IsRun(e, states, actions) && k < |states| && WritesStatus(states[k], a, id, m)
    ensures p < k && StatusAnswered(states[p], actions[p], id, m)
  {
    if k == 0 {
      NobodyWritesAtFirst(a, id);
    } else {
      hide WritesStatus, StatusAnswered, Next;
      assert Next(e, states[k - 1], actions[k - 1], states[k]);
      WriterHeard(e, states[k - 1], actions[k - 1], states[k], a, id);
      if WritesStatus(states[k - 1], a, id, m) {
        p := FindStatusAnswer(e, states, actions, k - 1, a, id, m);
      } else {
        p := k - 1;
      }
    }
  }

  lemma {:induction false} FindPartAnswer(e: Env, states: seq<State>, actions: seq<Action>, k: nat, a: nat, id: int, part: nat, m: int)
    returns (p: nat)
    requires IsRun(e, states, actions) && k < |states| && WritesPart(states[k], a, id, part, m)
    ensures p < k && PartAnswered(states[p], actions[p], id, part, m)
  {
    if k == 0 {
      NobodyWritesAtFirst(a, id);
    } else {
      hide WritesPart, PartAnswered, Next;
      assert Next(e, states[k - 1], actions[k - 1], states[k]);
      WriterHeard(e, states[k - 1], actions[k - 1], states[k], a, id);
      if WritesPart(states[k - 1], a, id, part, m) {
        p := FindPartAnswer(e, states, actions, k - 1, a, id, part, m);
      } else {
        p := k - 1;
      }
    }
  }

  lemma NobodyWritesAtFirst(a: nat, id: int)
    ensures !AboutToWrite(INITIAL, a, id)
  {
  }

  // ----- the status message -----

  lemma LeavesStatus(e: Env, s: State, act: Action, t: State, id: int)
    requires Inv(e, s) && Next(e, s, act, t) && id in s.db.jobs && s.db.jobs[id].stage == Status
    ensures id in t.db.jobs
    ensures t.db.jobs[id].stage != Status ==> act.JobStep? && CommitsOn(s, act, id) && WritesStatus(s, act.actor, id, t.db.jobs[id].statusMessage)
  {
    RowsChange(e, s, act, t, id);
    hide Next, Inv, BoxAfter, Lasting, Fenced, HasLive;
    if CommitsOn(s, act, id) {
      var j, at := s.actors[act.actor].pc.job, s.actors[act.actor].pc.at;
      HolderKnows(e, s, act.actor, id, j, at);
      HeldStage(s, id, j, at);
      StatusOnly(s.db.jobs[id], s.db.BoxOf(id), j, at, s.now);
    }
    hide CommitsOn;
  }

  lemma HeldStage(s: State, id: int, j: Job, at: At)
    requires Lasting(s, id, j, at) && Fenced(s, id, j, at) && IsWrite(at)
    ensures AtFits(j, at) && s.db.jobs[id].stage == j.stage
  {
    hide Unblocked, LowerDelivered, AtFits;
  }

  lemma StatusOnly(row: Job, box: Box, j: Job, at: At, now: int)
    requires IsWrite(at) && AtFits(j, at) && j.stage == Status && row.stage == Status
    ensures var row' := RowAfter(row, box, StatementOf(j, at), now);
            row'.stage != Status ==> at == StatusWrite(row'.statusMessage)
  {
    hide AllDelivered;
  }

  /** The status message stored for a job is one that Telegram returned for this job's own status call: progress and results
      edit that message and no other. */
  lemma {:induction false} StatusMessageIsAReply(e: Env, states: seq<State>, actions: seq<Action>, k: nat, id: int) returns (p: nat)
    requires IsRun(e, states, actions) && k < |states| && id in states[k].db.jobs && states[k].db.jobs[id].stage != Status
    ensures p < k && StatusAnswered(states[p], actions[p], id, states[k].db.jobs[id].statusMessage)
  {
    hide Next, Inv, StatusAnswered, WritesStatus, CommitsOn;
    if k == 0 {
      NoJobAtFirst(id);
    } else {
      var s, act, t := states[k - 1], actions[k - 1], states[k];
      assert Next(e, s, act, t);
      RunKeeps(e, states, actions, k - 1);
      if id !in s.db.jobs {
        JobsAppear(e, s, act, t, id);
      } else if s.db.jobs[id].stage == Status {
        LeavesStatus(e, s, act, t, id);
        p := FindStatusAnswer(e, states, actions, k - 1, act.actor, id, t.db.jobs[id].statusMessage);
      } else {
        hide Evolves, JobsEvolve;
        RunEvolves(e, states, actions, k - 1, k);
        LaterRow(s, t, id);
        p := StatusMessageIsAReply(e, states, actions, k - 1, id);
      }
    }
  }

  lemma LaterRow(s: State, t: State, id: int)
    requires Evolves(s, t) && id in s.db.jobs && s.db.jobs[id].stage != Status
    ensures id in t.db.jobs && t.db.jobs[id].statusMessage == s.db.jobs[id].statusMessage
  {
    assert RowEvolves(s.db.jobs[id], t.db.jobs[id]);
  }

  // ----- the messages of the parts -----

  lemma BoxAfterParts(box: Box, st: Statement, k: nat)
    ensures var box' := BoxAfter(box, st);
            && (|| (k in box && k in box' && box'[k] == box[k])
                || k !in box'
                || (k !in box && !box'[k].delivered)
                || (st.SetDelivered? && st.part == k && box'[k].messageId == st.message))
  {
  }

  lemma PartStatement(j: Job, at: At)
    requires IsWrite(at) && StatementOf(j, at).SetDelivered?
    ensures at.PartWrite? && StatementOf(j, at).part == at.part && StatementOf(j, at).message == at.message
  {
  }

  lemma PartChanges(e: Env, s: State, act: Action, t: State, id: int, k: nat)
    requires Next(e, s, act, t) && id in s.db.jobs && k in t.db.BoxOf(id) && t.db.BoxOf(id)[k].delivered
    ensures (k in s.db.BoxOf(id) && s.db.BoxOf(id)[k] == t.db.BoxOf(id)[k])
            || (act.JobStep? && CommitsOn(s, act, id) && WritesPart(s, act.actor, id, k, t.db.BoxOf(id)[k].messageId))
  {
    RowsChange(e, s, act, t, id);
    hide Next, RowAfter, BoxAfter, StatementOf, HasLive;
    if CommitsOn(s, act, id) {
      BoxAfterParts(s.db.BoxOf(id), CommittedOn(s, act, id), k);
      if CommittedOn(s, act, id).SetDelivered? {
        PartStatement(s.actors[act.actor].pc.job, s.actors[act.actor].pc.at);
      }
    }
  }

  /** The message stored with a delivered part is one that Telegram returned for a send of this part of this job. */
  lemma {:induction false} ReceiptIsAReply(e: Env, states: seq<State>, actions: seq<Action>, k: nat, id: int, part: nat) returns (p: nat)
    requires IsRun(e, states, actions) && k < |states|
    requires part in states[k].db.BoxOf(id) && states[k].db.BoxOf(id)[part].delivered
    ensures p < k && PartAnswered(states[p], actions[p], id, part, states[k].db.BoxOf(id)[part].messageId)
  {
    hide Next, Inv, PartAnswered, WritesPart, CommitsOn, JobOk;
    if k == 0 {
      NoPartAtFirst(id, part);
    } else {
      var s, act, t := states[k - 1], actions[k - 1], states[k];
      assert Next(e, s, act, t);
      RunKeeps(e, states, actions, k);
      PartHasJob(e, t, id, part);
      if id !in s.db.jobs {
        JobsAppear(e, s, act, t, id);
        StoredJob(e, states, actions, k, id);
        FreshHasNoParts(t.backend, id, t.db.jobs[id], t.db.BoxOf(id));
      } else {
        PartChanges(e, s, act, t, id, part);
        if part in s.db.BoxOf(id) && s.db.BoxOf(id)[part] == t.db.BoxOf(id)[part] {
          p := ReceiptIsAReply(e, states, actions, k - 1, id, part);
        } else {
          p := FindPartAnswer(e, states, actions, k - 1, act.actor, id, part, t.db.BoxOf(id)[part].messageId);
        }
      }
    }
  }

  lemma NoPartAtFirst(id: int, part: nat)
    ensures part !in INITIAL.db.BoxOf(id)
  {
  }

  lemma PartHasJob(e: Env, s: State, id: int, part: nat)
    requires Inv(e, s) && part in s.db.BoxOf(id)
    ensures id in s.db.jobs
  {
    assert JobsOk(e, s);
  }

  lemma FreshHasNoParts(k: Backend, id: int, row: Job, box: Box)
    requires JobOk(k, id, row, box) && row.stage == Status
    ensures box == map[]
  {
    hide BoxMatches;
  }

  // ----- the progress text -----

  /** A poll never shows the text that is already stored as shown; and the text it has shown is the one it stores. */
  lemma ProgressIsNews(e: Env, states: seq<State>, actions: seq<Action>, k: nat, a: nat, ok: bool)
    requires IsRun(e, states, actions) && k < |actions| && actions[k] == JobStep(a, ShowPoll(ok)) && HasLive(states[k], a)
    ensures states[k].actors[a].key.JobKey? && states[k].actors[a].pc.Working? && states[k].actors[a].pc.at.PollShow?
    ensures var id, text := states[k].actors[a].key.id, states[k].actors[a].pc.at.text;
            && id in states[k].db.jobs && text != states[k].db.jobs[id].progressText
            && (ok ==> states[k + 1].actors[a].pc.Working? && states[k + 1].actors[a].pc.at == ProgressWrite(text))
  {
    RunKeeps(e, states, actions, k);
    StepOfWorker(e, states, actions, k, a, ShowPoll(ok));
    var s, t := states[k], states[k + 1];
    hide *;
    PollShowAt(s, a, ok, t);
    var id, j, at := s.actors[a].key.id, s.actors[a].pc.job, s.actors[a].pc.at;
    assert s.actors[a].key == JobKey(id) && s.actors[a].pc == Working(j, at);
    HolderKnows(e, s, a, id, j, at);
    TextIsNews(s, id, j, at);
  }

  lemma PollShowAt(s: State, a: nat, ok: bool, t: State)
    requires WorkerStep(s, a, ShowPoll(ok), t)
    ensures a in s.actors && s.actors[a].Holding? && s.actors[a].key.JobKey? && s.actors[a].pc.Working? && s.actors[a].pc.at.PollShow?
    ensures a in t.actors && t.actors[a].Holding?
    ensures ok ==> t.actors[a].pc.Working? && t.actors[a].pc.at == ProgressWrite(s.actors[a].pc.at.text)
  {
    hide Show;
  }

  lemma TextIsNews(s: State, id: int, j: Job, at: At)
    requires Lasting(s, id, j, at) && Fenced(s, id, j, at) && at.PollShow?
    ensures id in s.db.jobs && at.text != s.db.jobs[id].progressText
  {
    hide Unblocked, LowerDelivered;
  }

  lemma ProgressIsStored(e: Env, s: State, act: Action, t: State, id: int)
    requires Next(e, s, act, t) && id in s.db.jobs && CommitsOn(s, act, id) && s.actors[act.actor].pc.at.ProgressWrite?
    ensures id in t.db.jobs && t.db.jobs[id] == s.db.jobs[id].(progressText := s.actors[act.actor].pc.at.text)
  {
    RowsChange(e, s, act, t, id);
    hide Next, BoxAfter;
  }
}
