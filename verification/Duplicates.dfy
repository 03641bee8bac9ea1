/** Counting, along a run, the calls for one Telegram message, those that reached Telegram, and the receipts stored. */
module Duplicates {
  import opened Options
  import opened Tables
  import opened Engine
  import opened GuaranteesOfCalls
  import opened History

  // Somebody calls Telegram with this message, whether or not the session lives.
  predicate Calls(s: State, act: Action, slot: Slot) {
    && act.JobStep? && act.actor in s.actors && s.actors[act.actor].Holding? && s.actors[act.actor].key == JobKey(slot.id)
    && s.actors[act.actor].pc.Working?
    && match slot
       case StatusSlot(_) => act.job.SendStatus?
       case PartSlot(_, part) => act.job.SendPart? && s.actors[act.actor].pc.at.PartSend? && s.actors[act.actor].pc.at.part == part
  }

  // The call takes effect: a message appears or is changed.
  predicate Reaches(s: State, act: Action, slot: Slot) {
    Calls(s, act, slot) && act.job.effect
  }

  // The receipt of this message is stored.
  predicate Confirms(s: State, act: Action, slot: Slot) {
    && CommitsOn(s, act, slot.id)
    && match slot
       case StatusSlot(_) => s.actors[act.actor].pc.at.StatusWrite?
       case PartSlot(_, part) => s.actors[act.actor].pc.at.PartWrite? && s.actors[act.actor].pc.at.part == part
  }

  function One(b: bool): nat {
    if b then 1 else 0
  }

  function CallsMade(states: seq<State>, actions: seq<Action>, slot: Slot, k: nat): nat
    requires k < |states| && k <= |actions|
  {
    if k == 0 then 0 else CallsMade(states, actions, slot, k - 1) + One(Calls(states[k - 1], actions[k - 1], slot))
  }

  function CallsThatReached(states: seq<State>, actions: seq<Action>, slot: Slot, k: nat): nat
    requires k < |states| && k <= |actions|
  {
    if k == 0 then 0 else CallsThatReached(states, actions, slot, k - 1) + One(Reaches(states[k - 1], actions[k - 1], slot))
  }

  function ReceiptsStored(states: seq<State>, actions: seq<Action>, slot: Slot, k: nat): nat
    requires k < |states| && k <= |actions|
  {
    if k == 0 then 0 else ReceiptsStored(states, actions, slot, k - 1) + One(Confirms(states[k - 1], actions[k - 1], slot))
  }

  // What one step adds to the ledger.
  ghost predicate Books(s: State, act: Action, t: State, slot: Slot) {
    && Count(t.ledger.attempts, slot) == Count(s.ledger.attempts, slot) + One(Calls(s, act, slot))
    && Count(t.ledger.effects, slot) == Count(s.ledger.effects, slot) + One(Reaches(s, act, slot))
    && Count(t.ledger.receipts, slot) == Count(s.ledger.receipts, slot) + One(Confirms(s, act, slot))
  }

  lemma CallBooks(s: State, a: nat, id: int, j: Job, at: At, ev: JobEvent, t: State, slot: Slot)
    requires a in s.actors && s.actors[a].Holding? && s.actors[a].key == JobKey(id) && s.actors[a].pc == Working(j, at)
    requires !ev.Write? && CallStep(s, a, id, j, at, ev, t)
    ensures Books(s, JobStep(a, ev), t, slot)
  {
    ShowGrows(s, a, id, Upload, id);
    ShowGrows(s, a, id, Poll, id);
    ShowGrows(s, a, id, Deliver, id);
    hide Show, Submitted, SubmittedId, CanSubmit, WithAck, WithCancel, Absent, AfterError, HasLive, ShownStage;
  }

  lemma WriteBooks(s: State, a: nat, id: int, j: Job, at: At, commit: Commit, t: State, slot: Slot)
    requires a in s.actors && s.actors[a].Holding? && s.actors[a].key == JobKey(id) && s.actors[a].pc == Working(j, at)
    requires WriteStep(s, a, id, j, at, commit, t)
    ensures Books(s, JobStep(a, Write(commit)), t, slot)
  {
    hide Execute, StatementOf, AfterWrite, AfterError, HasLive;
  }

  lemma WorkerBooks(s: State, a: nat, ev: JobEvent, t: State, slot: Slot)
    requires WorkerStep(s, a, ev, t)
    ensures Books(s, JobStep(a, ev), t, slot)
  {
    hide CallStep, WriteStep;
    var pc := s.actors[a].pc;
    if pc.Working? && ev.Write? {
      hide Books;
      WriteBooks(s, a, s.actors[a].key.id, pc.job, pc.at, ev.commit, t, slot);
    } else if pc.Working? && !ev.ReadPart? {
      hide Books;
      CallBooks(s, a, s.actors[a].key.id, pc.job, pc.at, ev, t, slot);
    }
  }

  lemma StepBooks(e: Env, s: State, act: Action, t: State, slot: Slot)
    requires Next(e, s, act, t)
    ensures Books(s, act, t, slot)
  {
    hide WorkerStep, IsCandidateList, IsPendingPrefix, PersistBatch, AdmitTx, InboxDrained, IsInboxNext, JobCancel;
    if act.JobStep? {
      hide Books;
      WorkerBooks(s, act.actor, act.job, t, slot);
    } else {
      assert t.ledger == s.ledger;
    }
  }

  /** The ledger is the history of the run. */
  lemma {:induction false} LedgerIsHistory(e: Env, states: seq<State>, actions: seq<Action>, k: nat, slot: Slot)
    requires IsRun(e, states, actions) && k < |states|
    ensures Count(states[k].ledger.attempts, slot) == CallsMade(states, actions, slot, k)
    ensures Count(states[k].ledger.effects, slot) == CallsThatReached(states, actions, slot, k)
    ensures Count(states[k].ledger.receipts, slot) == ReceiptsStored(states, actions, slot, k)
  {
    hide Next, Calls, Reaches, Confirms, Count;
    if k == 0 {
      NothingBooked(slot);
    } else {
      LedgerIsHistory(e, states, actions, k - 1, slot);
      StepBooks(e, states[k - 1], actions[k - 1], states[k], slot);
    }
  }

  lemma NothingBooked(slot: Slot)
    ensures Count(INITIAL.ledger.attempts, slot) == Count(INITIAL.ledger.effects, slot) == Count(INITIAL.ledger.receipts, slot) == 0
  {
  }

  /** Bounded duplication: at most one receipt per message is ever stored, and the calls that reached Telegram are at most one
      more than the calls without a receipt, counting workers whose session has died. A part is marked delivered exactly when
      its receipt was stored. */
  lemma DuplicatesAreBounded(e: Env, states: seq<State>, actions: seq<Action>, k: nat, slot: Slot)
    requires IsRun(e, states, actions) && k < |states|
    ensures var calls, receipts := CallsMade(states, actions, slot, k), ReceiptsStored(states, actions, slot, k);
            receipts <= 1 && CallsThatReached(states, actions, slot, k) <= 1 + calls - receipts
    ensures slot.PartSlot? && slot.id in states[k].db.jobs && slot.part in states[k].db.BoxOf(slot.id) ==>
              (ReceiptsStored(states, actions, slot, k) == 1 <==> states[k].db.BoxOf(slot.id)[slot.part].delivered)
  {
    LedgerIsBounded(e, states, actions, k, slot);
    LedgerIsHistory(e, states, actions, k, slot);
    hide IsRun, CallsMade, CallsThatReached, ReceiptsStored;
  }
}
