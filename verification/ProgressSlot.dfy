/** The latest-wins progress slot between an upload and its display: a channel of one, a reporter that must not block, and
    a consumer that edits the status message on a ticker until it is joined. Every select is one step. */
module ProgressSlot {
  import opened Options

  // Where report stands with message k: its three selects in turn.
  datatype Reporter = Ready | Offering(k: nat) | Draining(k: nat) | Refilling(k: nat)

  datatype Consumer = Waiting | Editing | Ended

  // texts: all that was reported; taken: what the consumer received; edits: what it tried to show, by message number.
  datatype State = State(
    texts: seq<string>, reporter: Reporter, slot: Option<nat>,
    consumer: Consumer, latest: Option<nat>, last: string,
    cancelled: bool, joined: bool, taken: seq<nat>, edits: seq<nat>)

  const INITIAL := State([], Ready, None, Waiting, None, "", false, false, [], [])

  datatype Action = Report(text: string) | Offer | Drain | Refill | Take | Tick | Edited(ok: bool) | Cancel | End | Join

  predicate Next(s: State, a: Action, t: State) {
    match a
    case Report(text) => s.reporter.Ready? && t == s.(texts := s.texts + [text], reporter := Offering(|s.texts|))
    case Offer =>
      && s.reporter.Offering?
      && t == if s.slot.None? then s.(slot := Some(s.reporter.k), reporter := Ready) else s.(reporter := Draining(s.reporter.k))
    case Drain => s.reporter.Draining? && t == s.(slot := None, reporter := Refilling(s.reporter.k))
    case Refill =>
      && s.reporter.Refilling?
      && t == if s.slot.None? then s.(slot := Some(s.reporter.k), reporter := Ready) else s.(reporter := Ready)
    case Take =>
      && s.consumer.Waiting? && s.slot.Some?
      && t == s.(slot := None, latest := s.slot, taken := s.taken + [s.slot.value])
    case Tick =>
      && s.consumer.Waiting?
      && t == if s.latest.None? || s.latest.value >= |s.texts| || s.texts[s.latest.value] == "" || s.texts[s.latest.value] == s.last
              then s else s.(consumer := Editing, edits := s.edits + [s.latest.value])
    case Edited(ok) =>
      && s.consumer.Editing? && s.latest.Some? && s.latest.value < |s.texts|
      && t == s.(consumer := Waiting, last := if ok then s.texts[s.latest.value] else s.last)
    case Cancel => t == s.(cancelled := true)
    case End => s.consumer.Waiting? && s.cancelled && t == s.(consumer := Ended)
    case Join => s.consumer.Ended? && t == s.(joined := true)
  }

  predicate IsRun(states: seq<State>, actions: seq<Action>) {
    && |states| == |actions| + 1 && states[0] == INITIAL
    && forall k | 0 <= k < |actions| :: Next(states[k], actions[k], states[k + 1])
  }

  // The newest message that is in the slot or has reached the consumer.
  function Newest(s: State): int {
    if s.slot.Some? then s.slot.value else if s.taken != [] then s.taken[|s.taken| - 1] else -1
  }

  // The slot against the reporter and what was taken.
  ghost predicate SlotOk(s: State) {
    && (s.reporter.Ready? ==> Newest(s) == |s.texts| - 1)
    && (!s.reporter.Ready? ==> s.reporter.k == |s.texts| - 1)
    && (s.reporter.Refilling? ==> s.slot.None?)
    && (s.reporter.Offering? ==> Newest(s) == |s.texts| - 2)
    && (s.slot.Some? ==> s.slot.value < |s.texts| && forall x | x in s.taken :: x < s.slot.value)
    && (s.slot.Some? && !s.reporter.Ready? ==> s.slot.value < s.reporter.k)
    && (forall x | x in s.taken :: x < |s.texts| && (!s.reporter.Ready? ==> x < s.reporter.k))
  }

  // What the consumer has taken and shown.
  ghost predicate ShownOk(s: State) {
    && (forall i, k | 0 <= i < k < |s.taken| :: s.taken[i] < s.taken[k])
    && s.latest == (if s.taken == [] then None else Some(s.taken[|s.taken| - 1]))
    && (s.consumer.Editing? ==> s.latest.Some?)
    && (s.joined ==> s.consumer.Ended?)
    && (forall x | x in s.edits :: x in s.taken)
    && (forall i, k | 0 <= i < k < |s.edits| :: s.edits[i] <= s.edits[k])
  }

  ghost predicate Good(s: State) {
    SlotOk(s) && ShownOk(s)
  }

  lemma SlotKept(s: State, a: Action, t: State)
    requires SlotOk(s) && Next(s, a, t)
    ensures SlotOk(t)
  {
  }

  lemma ShownKept(s: State, a: Action, t: State)
    requires ShownOk(s) && Next(s, a, t)
    requires a.Take? && s.slot.Some? ==> forall x | x in s.taken :: x < s.slot.value
    ensures ShownOk(t)
  {
    if a.Take? {
      assert forall i | 0 <= i < |s.taken| :: s.taken[i] in s.taken;
    } else if a.Tick? && t != s {
      assert s.latest.value == s.taken[|s.taken| - 1];
      assert forall i | 0 <= i < |s.edits| :: s.edits[i] in s.taken;
      assert forall x | x in s.taken :: x <= s.latest.value;
    }
  }

  lemma StepKeeps(s: State, a: Action, t: State)
    requires Good(s) && Next(s, a, t)
    ensures Good(t)
  {
    hide Next;
    SlotKept(s, a, t);
    ShownKept(s, a, t);
  }

  lemma {:induction false} RunKeeps(states: seq<State>, actions: seq<Action>, k: nat)
    requires IsRun(states, actions) && k < |states|
    ensures Good(states[k])
  {
    hide Good;
    if k == 0 {
      StartsGood();
    } else {
      RunKeeps(states, actions, k - 1);
      StepKeeps(states[k - 1], actions[k - 1], states[k]);
    }
  }

  lemma StartsGood()
    ensures Good(INITIAL)
  {
  }

  /** When report has returned, the newest text is in the slot or with the consumer: it is never the one dropped. What the
      consumer receives, and what it shows, follows the order of the reports. */
  lemma NewestSurvives(states: seq<State>, actions: seq<Action>, k: nat)
    requires IsRun(states, actions) && k < |states|
    ensures states[k].reporter.Ready? && states[k].texts != [] ==>
              states[k].slot == Some(|states[k].texts| - 1) || |states[k].texts| - 1 in states[k].taken
    ensures forall i, m | 0 <= i < m < |states[k].taken| :: states[k].taken[i] < states[k].taken[m]
    ensures forall i, m | 0 <= i < m < |states[k].edits| :: states[k].edits[i] <= states[k].edits[m]
    ensures forall x | x in states[k].edits :: x in states[k].taken && x < |states[k].texts|
  {
    RunKeeps(states, actions, k);
    hide IsRun;
  }

  // The reporter's own next step, whatever the consumer does.
  function ReporterStep(s: State): Action
    requires !s.reporter.Ready?
  {
    if s.reporter.Offering? then Offer else if s.reporter.Draining? then Drain else Refill
  }

  function StepsLeft(r: Reporter): nat {
    match r
    case Ready => 0
    case Offering(_) => 3
    case Draining(_) => 2
    case Refilling(_) => 1
  }

  /** report never blocks: in any state its next select can go ahead, and at most three of them finish the call. */
  lemma ReportNeverBlocks(s: State) returns (t: State)
    requires !s.reporter.Ready?
    ensures Next(s, ReporterStep(s), t) && StepsLeft(t.reporter) < StepsLeft(s.reporter)
    ensures t.consumer == s.consumer && t.edits == s.edits
  {
    if s.reporter.Draining? {
      t := s.(slot := None, reporter := Refilling(s.reporter.k));
    } else if s.slot.None? {
      t := s.(slot := Some(s.reporter.k), reporter := Ready);
    } else {
      t := s.(reporter := if s.reporter.Offering? then Draining(s.reporter.k) else Ready);
    }
  }

  /** After stop has returned no edit is begun or finished, however long the run goes on. */
  lemma {:induction false} NoEditAfterJoin(states: seq<State>, actions: seq<Action>, i: nat, k: nat)
    requires IsRun(states, actions) && i <= k < |states| && states[i].joined
    ensures states[k].joined && states[k].consumer == Ended && states[k].edits == states[i].edits
    decreases k
  {
    RunKeeps(states, actions, k);
    if i < k {
      NoEditAfterJoin(states, actions, i, k - 1);
      assert Next(states[k - 1], actions[k - 1], states[k]);
    }
  }

  // ----- what is shown -----

  // last is the text of the last edit that went through; an edit under way is of the latest text.
  ghost predicate LastIsShown(s: State, shown: string) {
    && s.last == shown
    && (s.consumer.Editing? ==> s.edits != [] && s.latest == Some(s.edits[|s.edits| - 1]) && s.edits[|s.edits| - 1] < |s.texts|)
  }

  // The text of the last edit that went through, "" before any.
  function LastShown(states: seq<State>, actions: seq<Action>, k: nat): string
    requires IsRun(states, actions) && k < |states|
  {
    if k == 0 then ""
    else if actions[k - 1] == Edited(true) && states[k - 1].edits != [] && states[k - 1].edits[|states[k - 1].edits| - 1] < |states[k - 1].texts|
    then states[k - 1].texts[states[k - 1].edits[|states[k - 1].edits| - 1]]
    else LastShown(states, actions, k - 1)
  }

  lemma ShownStep(s: State, a: Action, t: State, shown: string)
    requires Next(s, a, t) && LastIsShown(s, shown)
    ensures LastIsShown(t, if a == Edited(true) then s.texts[s.edits[|s.edits| - 1]] else shown)
  {
  }

  lemma {:induction false} TracksShown(states: seq<State>, actions: seq<Action>, k: nat)
    requires IsRun(states, actions) && k < |states|
    ensures LastIsShown(states[k], LastShown(states, actions, k))
  {
    hide Next, LastIsShown;
    if k == 0 {
      NothingShown();
    } else {
      var s, a, t := states[k - 1], actions[k - 1], states[k];
      var shown := LastShown(states, actions, k - 1);
      TracksShown(states, actions, k - 1);
      assert Next(s, a, t);
      EditingBefore(s, a, t);
      ShownStep(s, a, t, shown);
      if s.consumer.Editing? {
        EditedText(s, shown);
      }
    }
  }

  lemma NothingShown()
    ensures LastIsShown(INITIAL, "")
  {
  }

  lemma EditedText(s: State, shown: string)
    requires LastIsShown(s, shown) && s.consumer.Editing?
    ensures s.edits != [] && s.edits[|s.edits| - 1] < |s.texts|
  {
  }

  lemma EditingBefore(s: State, a: Action, t: State)
    requires Next(s, a, t)
    ensures a.Edited? ==> s.consumer.Editing?
  {
  }

  /** A tick begins an edit exactly when there is a latest text that is not empty and not the one last shown, and it is an
      edit of that text. */
  lemma TicksShowNews(states: seq<State>, actions: seq<Action>, k: nat)
    requires IsRun(states, actions) && k < |actions| && actions[k] == Tick
    ensures var s, t := states[k], states[k + 1];
            var news := s.taken != [] && s.taken[|s.taken| - 1] < |s.texts| && s.texts[s.taken[|s.taken| - 1]] != ""
                        && s.texts[s.taken[|s.taken| - 1]] != LastShown(states, actions, k);
            && (t.consumer.Editing? <==> news)
            && t.edits == (if news then s.edits + [s.taken[|s.taken| - 1]] else s.edits)
  {
    RunKeeps(states, actions, k);
    TracksShown(states, actions, k);
    assert Next(states[k], actions[k], states[k + 1]);
    hide IsRun, LastShown, SlotOk;
  }

  /** The newest text is not only kept but shown: in any state between reports, with the consumer waiting, one receive at
      most, a tick and an edit that goes through show it, unless it is empty or already shown. */
  lemma NewestGetsShown(states: seq<State>, actions: seq<Action>, k: nat) returns (t: State, u: State, v: State)
    requires IsRun(states, actions) && k < |states|
    requires states[k].reporter.Ready? && states[k].texts != [] && states[k].consumer.Waiting?
    requires states[k].texts[|states[k].texts| - 1] != ""
    ensures (states[k].slot.Some? && Next(states[k], Take, t)) || t == states[k]
    ensures Next(t, Tick, u) && (u.consumer.Waiting? ==> v == u) && (u.consumer.Editing? ==> Next(u, Edited(true), v))
    ensures u.consumer.Waiting? || u.consumer.Editing?
    ensures v.last == states[k].texts[|states[k].texts| - 1]
  {
    var s := states[k];
    RunKeeps(states, actions, k);
    TracksShown(states, actions, k);
    hide IsRun, LastShown;
    t := if s.slot.Some? then s.(slot := None, latest := s.slot, taken := s.taken + [s.slot.value]) else s;
    assert t.latest == Some(|t.texts| - 1);
    u := if t.texts[t.latest.value] == t.last then t else t.(consumer := Editing, edits := t.edits + [t.latest.value]);
    v := if u.consumer.Editing? then u.(consumer := Waiting, last := u.texts[u.latest.value]) else u;
  }
}
