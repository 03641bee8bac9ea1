/** When a worker about to send a part sends one whose receipt is already stored. */
module Resending {
  import opened Options
  import opened Tables
  import opened Engine
  import opened EngineInvariant
  import opened Guarantees
  import opened GuaranteesOfCalls
  import opened History

  // The actor has read this part of the job and has not called Telegram yet.
  predicate AboutToSend(s: State, a: nat, id: int, part: nat) {
    && a in s.actors && s.actors[a].Holding? && s.actors[a].key == JobKey(id)
    && s.actors[a].pc.Working? && s.actors[a].pc.at.PartSend? && s.actors[a].pc.at.part == part
  }

  predicate Delivered(s: State, id: int, part: nat) {
    part in s.db.BoxOf(id) && s.db.BoxOf(id)[part].delivered
  }

  // Somebody else stores the part's receipt while the session of actor a is dead.
  predicate Overtakes(s: State, act: Action, a: nat, id: int, part: nat) {
    && CommitsOn(s, act, id) && act.actor != a && !HasLive(s, a)
    && s.actors[act.actor].pc.at.PartWrite? && s.actors[act.actor].pc.at.part == part
  }

  lemma OwnStepSends(s: State, ev: JobEvent, t: State, a: nat, id: int, part: nat)
    requires WorkerStep(s, a, ev, t) && AboutToSend(t, a, id, part)
    ensures AboutToSend(s, a, id, part) || (ev == ReadPart(Some(part), true) && HasLive(s, a) && IsNextPart(s.db.BoxOf(id), part))
    ensures t.db == s.db
  {
    hide Execute, Attempted, Show, Submitted, SubmittedId, WithAck, WithCancel, Receipted, AllDelivered, IsNextPart, StatementOf;
  }

  /** Only reading the part, on a live session and while it is the least undelivered one, leads to sending it. */
  lemma OnlyReadLeadsToSend(e: Env, s: State, act: Action, t: State, a: nat, id: int, part: nat)
    requires Next(e, s, act, t) && AboutToSend(t, a, id, part)
    ensures AboutToSend(s, a, id, part)
            || (act == JobStep(a, ReadPart(Some(part), true)) && t.db == s.db && part in s.db.BoxOf(id) && !Delivered(s, id, part))
  {
    hide WorkerStep, IsNextPart;
    if act.JobStep? && act.actor == a {
      OwnStepSends(s, act.job, t, a, id, part);
      NextIsUndelivered(s.db.BoxOf(id), part);
    } else {
      hide Next;
      OtherStepPast(e, s, act, t, a);
    }
  }

  lemma NextIsUndelivered(box: Box, part: nat)
    ensures IsNextPart(box, part) ==> part in box && !box[part].delivered
  {
  }

  lemma {:induction false} FindRead(e: Env, states: seq<State>, actions: seq<Action>, k: nat, a: nat, id: int, part: nat)
    returns (p: nat)
    requires IsRun(e, states, actions) && k < |states| && AboutToSend(states[k], a, id, part)
    ensures p < k && actions[p] == JobStep(a, ReadPart(Some(part), true))
    ensures part in states[p + 1].db.BoxOf(id) && !Delivered(states[p + 1], id, part)
    ensures forall m | p < m <= k :: AboutToSend(states[m], a, id, part)
  {
    hide Next, AboutToSend, Delivered;
    if k == 0 {
      NobodySendsAtFirst(a, id, part);
    } else {
      assert Next(e, states[k - 1], actions[k - 1], states[k]);
      OnlyReadLeadsToSend(e, states[k - 1], actions[k - 1], states[k], a, id, part);
      if AboutToSend(states[k - 1], a, id, part) {
        p := FindRead(e, states, actions, k - 1, a, id, part);
      } else {
        p := k - 1;
        SameDbSameDelivered(states[k - 1], states[k], id, part);
      }
    }
  }

  lemma NobodySendsAtFirst(a: nat, id: int, part: nat)
    ensures !AboutToSend(INITIAL, a, id, part)
  {
  }

  lemma SameDbSameDelivered(s: State, t: State, id: int, part: nat)
    requires t.db == s.db
    ensures Delivered(t, id, part) == Delivered(s, id, part)
  {
  }

  // What marks a part delivered.
  lemma DeliveredBy(box: Box, st: Statement, part: nat)
    requires part in box && !box[part].delivered
    ensures var box' := BoxAfter(box, st);
            && part in box'
            && (box'[part].delivered <==> st.SetDelivered? && st.part == part)
  {
  }

  lemma StatementIsReceipt(j: Job, at: At, part: nat)
    requires IsWrite(at)
    ensures StatementOf(j, at).SetDelivered? && StatementOf(j, at).part == part <==> at.PartWrite? && at.part == part
  {
  }

  lemma StepDelivers(e: Env, s: State, act: Action, t: State, a: nat, id: int, part: nat)
    requires Next(e, s, act, t) && AboutToSend(s, a, id, part)
    requires forall b | HasLive(s, a) && HasLive(s, b) && s.actors[b].key == s.actors[a].key :: b == a
    requires id in s.db.jobs && part in s.db.BoxOf(id) && !Delivered(s, id, part)
    ensures id in t.db.jobs && part in t.db.BoxOf(id)
    ensures Delivered(t, id, part) <==> Overtakes(s, act, a, id, part)
  {
    RowsChange(e, s, act, t, id);
    hide Next, RowAfter, BoxAfter, StatementOf, CancelHits;
    if CommitsOn(s, act, id) {
      var c := s.actors[act.actor].pc;
      DeliveredBy(s.db.BoxOf(id), CommittedOn(s, act, id), part);
      StatementIsReceipt(c.job, c.at, part);
    }
  }

  lemma OneOwner(e: Env, states: seq<State>, actions: seq<Action>, m: nat, a: nat)
    requires IsRun(e, states, actions) && m < |states|
    ensures forall b | HasLive(states[m], a) && HasLive(states[m], b) && states[m].actors[b].key == states[m].actors[a].key :: b == a
  {
    hide IsRun;
    forall b | HasLive(states[m], a) && HasLive(states[m], b)
      ensures states[m].actors[b].key == states[m].actors[a].key ==> b == a
    {
      KeysHaveOneLiveOwner(e, states, actions, m, a, b);
    }
  }

  lemma StaysDelivered(e: Env, states: seq<State>, actions: seq<Action>, m: nat, k: nat, id: int, part: nat)
    requires IsRun(e, states, actions) && m <= k < |states| && id in states[m].db.jobs && Delivered(states[m], id, part)
    ensures Delivered(states[k], id, part)
  {
    RunEvolves(e, states, actions, m, k);
    assert BoxEvolves(states[m].db.BoxOf(id), states[k].db.BoxOf(id));
    hide IsRun, Evolves;
  }

  // While the actor waits to send, the part becomes delivered exactly when somebody overtakes it.
  lemma {:induction false} DeliveredMeanwhile(e: Env, states: seq<State>, actions: seq<Action>, p: nat, k: nat, a: nat, id: int, part: nat)
    requires IsRun(e, states, actions) && p <= k < |states|
    requires id in states[p].db.jobs && part in states[p].db.BoxOf(id) && !Delivered(states[p], id, part)
    requires forall m | p <= m <= k :: AboutToSend(states[m], a, id, part)
    ensures id in states[k].db.jobs && part in states[k].db.BoxOf(id)
    ensures Delivered(states[k], id, part) <==> exists q :: p <= q < k && Overtakes(states[q], actions[q], a, id, part)
    decreases k
  {
    hide Next, AboutToSend, Delivered, Overtakes, HasLive;
    if p < k {
      DeliveredMeanwhile(e, states, actions, p, k - 1, a, id, part);
      var s, t := states[k - 1], states[k];
      assert Next(e, s, actions[k - 1], t);
      if Delivered(s, id, part) {
        StaysDelivered(e, states, actions, k - 1, k, id, part);
        PartsStay(e, states, actions, k - 1, id, part);
      } else {
        OneOwner(e, states, actions, k - 1, a);
        StepDelivers(e, s, actions[k - 1], t, a, id, part);
      }
    }
  }

  lemma PartsStay(e: Env, states: seq<State>, actions: seq<Action>, k: nat, id: int, part: nat)
    requires IsRun(e, states, actions) && k < |actions| && id in states[k].db.jobs && part in states[k].db.BoxOf(id)
    ensures id in states[k + 1].db.jobs && part in states[k + 1].db.BoxOf(id)
  {
    RunEvolves(e, states, actions, k, k + 1);
    assert BoxEvolves(states[k].db.BoxOf(id), states[k + 1].db.BoxOf(id));
    hide IsRun, Evolves;
  }

  lemma SenderStands(e: Env, s: State, a: nat, effect: bool, reply: Option<int>, t: State)
    requires WorkerStep(s, a, SendPart(effect, reply), t)
    ensures AboutToSend(s, a, s.actors[a].key.id, s.actors[a].pc.at.part)
  {
    hide Attempted, Show, AfterError;
  }

  /** When a confirmed part is sent again. Every send goes back to a read that found the part undelivered; the part is
      delivered when it is sent if and only if, since that read, another worker has stored its receipt after the sender's
      session had died. */
  lemma SentAgainIffOvertaken(e: Env, states: seq<State>, actions: seq<Action>, k: nat, a: nat, effect: bool, reply: Option<int>)
    returns (p: nat, id: int, part: nat)
    requires IsRun(e, states, actions) && k < |actions| && actions[k] == JobStep(a, SendPart(effect, reply))
    ensures p < k && actions[p] == JobStep(a, ReadPart(Some(part), true))
    ensures forall m | p < m <= k :: AboutToSend(states[m], a, id, part)
    ensures !Delivered(states[p + 1], id, part)
    ensures Delivered(states[k], id, part) <==> exists q :: p < q < k && Overtakes(states[q], actions[q], a, id, part)
    ensures HasLive(states[k], a) ==> !Delivered(states[k], id, part)
  {
    var s := states[k];
    assert Next(e, s, actions[k], states[k + 1]);
    SenderStands(e, s, a, effect, reply, states[k + 1]);
    id, part := s.actors[a].key.id, s.actors[a].pc.at.part;
    PartsGoInOrder(e, states, actions, k, a, effect, reply);
    assert HasLive(states[k], a) ==> !Delivered(states[k], id, part);
    p := FindRead(e, states, actions, k, a, id, part);
    hide Next, AboutToSend, Delivered, Overtakes, HasLive;
    BoxHasJob(e, states, actions, p + 1, id, part);
    DeliveredMeanwhile(e, states, actions, p + 1, k, a, id, part);
  }

  lemma BoxHasJob(e: Env, states: seq<State>, actions: seq<Action>, m: nat, id: int, part: nat)
    requires IsRun(e, states, actions) && m < |states| && part in states[m].db.BoxOf(id)
    ensures id in states[m].db.jobs
  {
    RunKeeps(e, states, actions, m);
    assert JobsOk(e, states[m]);
    hide IsRun;
  }
}
