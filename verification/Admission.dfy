/** Admission: what one update does to the allowlist, the presets and the jobs, and why failed and crashed attempts leave
    no trace. The allowlist and preset writes go through the pool, outside the transaction that marks the update handled. */
module Admission {
  import opened Options
  import opened Updates
  import opened Tables

  const PRESETS := ["auto", "voice", "lecture", "meeting"]
  const LECTURE_SECONDS := 300

  // ----- one update -----

  function ResolvePreset(stored: string, m: Message): string {
    if stored != "" && stored != "auto" then stored
    else if m.voice.Some? || m.videoNote.Some? then "voice"
    else if m.video.Some? && m.video.value.duration > LECTURE_SECONDS then "lecture"
    else "voice"
  }

  // The text after the last dot, if there is one.
  function Extension(name: string): Option<string> {
    if name == "" then None
    else if name[|name| - 1] == '.' then Some("")
    else match Extension(name[..|name| - 1])
         case None => None
         case Some(x) => Some(x + [name[|name| - 1]])
  }

  function Lower(s: string): string {
    seq(|s|, i requires 0 <= i < |s| => if 'A' <= s[i] <= 'Z' then s[i] + ('a' - 'A') else s[i])
  }

  function ExtractFile(m: Message): (string, string) {
    if m.voice.Some? then (m.voice.value, "ogg")
    else if m.videoNote.Some? then (m.videoNote.value, "mp4")
    else if m.video.Some? then (m.video.value.file, "mp4")
    else if m.document.Some? then
      (m.document.value.file,
       match Extension(m.document.value.name) case None => "mp4" case Some(x) => Lower(x))
    else ("", "")
  }

  function MediaNoun(m: Message): string {
    if m.voice.Some? then "голосовое"
    else if m.videoNote.Some? then "кружочек"
    else if m.video.Some? then "видео"
    else if m.document.Some? then "документ"
    else "файл"
  }

  // The one statement an update may run through the pool.
  datatype PoolWrite = NoWrite | AddChat(chat: int) | RemoveChat(chat: int) | SetPreset(user: int, preset: string) | AskCancel(jobId: string, chat: int)

  datatype Decision = Decision(write: PoolWrite, media: Option<Media>)

  const IGNORE := Decision(NoWrite, None)

  function DecideCallback(root: int, cb: Callback): Decision {
    if "cancel:" <= cb.data then
      if cb.from == root && cb.chat.Some? then Decision(AskCancel(cb.data[|"cancel:"|..], cb.chat.value), None) else IGNORE
    else if "preset:" <= cb.data && cb.data[|"preset:"|..] in PRESETS then
      Decision(SetPreset(cb.from, cb.data[|"preset:"|..]), None)
    else IGNORE
  }

  function DecideMembership(m: Membership): Decision {
    if !m.chat.IsGroup() then IGNORE
    else if m.status in ["member", "administrator", "restricted"] then Decision(AddChat(m.chat.id), None)
    else Decision(RemoveChat(m.chat.id), None)
  }

  // The media of a message that has passed authorisation.
  function MediaOf(presets: map<int, string>, user: int, m: Message): Option<Media> {
    if m.command != "" || (m.chat.IsGroup() && m.voice.None? && m.videoNote.None?) || ExtractFile(m).0 == "" then None
    else Some(Media(m.chat.id, user, m.id, ExtractFile(m).0, ExtractFile(m).1,
                    ResolvePreset(PresetGet(presets, user), m), MediaNoun(m)))
  }

  function DecideMessage(root: int, chats: set<int>, presets: map<int, string>, m: Message): Decision {
    if m.from.None? then IGNORE
    else
      var user := m.from.value;
      if m.chat.IsGroup() then
        if m.chat.id in chats then Decision(NoWrite, MediaOf(presets, user, m))
        else if user != root then IGNORE
        else Decision(AddChat(m.chat.id), MediaOf(presets, user, m))
      else if user != root then IGNORE
      else Decision(NoWrite, MediaOf(presets, user, m))
  }

  // acceptUpdate
  function Decide(root: int, chats: set<int>, presets: map<int, string>, u: Update): Decision {
    if u.callback.Some? then DecideCallback(root, u.callback.value)
    else if u.member.Some? then DecideMembership(u.member.value)
    else if u.message.Some? then DecideMessage(root, chats, presets, u.message.value)
    else IGNORE
  }

  function ApplyWrite(db: Db, w: PoolWrite, now: int): Db {
    match w
    case NoWrite => db
    case AddChat(chat) => ChatAdd(db, chat)
    case RemoveChat(chat) => ChatRemove(db, chat)
    case SetPreset(user, preset) => PresetSet(db, user, preset)
    case AskCancel(jobId, chat) => JobCancel(db, jobId, chat, now)
  }

  /** Only the owner, or anybody in a chat that is on the allowlist, gets a job. */
  lemma JobsAreAuthorised(root: int, chats: set<int>, presets: map<int, string>, u: Update)
    requires Decide(root, chats, presets, u).media.Some?
    ensures var m := Decide(root, chats, presets, u).media.value;
            && u.message.Some? && u.message.value.from == Some(m.user) && u.message.value.chat.id == m.chat
            && (m.user == root || (u.message.value.chat.IsGroup() && m.chat in chats))
            && m.file != ""
  {
  }

  // ----- the state admission owns -----

  // Allowlist, presets, and the columns written at admission.
  datatype View = View(chats: set<int>, presets: map<int, string>, jobs: map<int, Media>)

  // Before the first update: the allowlist that an earlier version of the program left behind.
  function Adopted(chats: set<int>): View {
    View(chats, map[], map[])
  }

  function ViewOf(db: Db): View {
    View(db.chats, db.presets, map id | id in db.jobs :: db.jobs[id].media)
  }

  function WriteView(v: View, w: PoolWrite): View {
    match w
    case AddChat(chat) => v.(chats := v.chats + {chat})
    case RemoveChat(chat) => v.(chats := v.chats - {chat})
    case SetPreset(user, preset) => v.(presets := v.presets[user := preset])
    case _ => v
  }

  predicate SameSource(a: Media, b: Media) {
    a.chat == b.chat && a.message == b.message
  }

  // A repeated update id or chat/message pair adds nothing.
  function InsertView(v: View, id: int, media: Option<Media>): View {
    if media.None? || id in v.jobs
       || (exists i | i in v.jobs :: SameSource(v.jobs[i], media.value))
    then v
    else v.(jobs := v.jobs[id := media.value])
  }

  function Written(root: int, v: View, u: Update): View {
    WriteView(v, Decide(root, v.chats, v.presets, u).write)
  }

  function Wanted(root: int, v: View, u: Update): Option<Media> {
    Decide(root, v.chats, v.presets, u).media
  }

  /** The fault-free meaning of a history of updates: a left fold in id order. */
  function Fold(root: int, chats: set<int>, log: seq<Record>): View {
    if log == [] then Adopted(chats)
    else
      var v, last := Fold(root, chats, log[..|log| - 1]), log[|log| - 1];
      InsertView(Written(root, v, last.payload), last.id, Wanted(root, v, last.payload))
  }

  /** Deciding again after the write has been made changes nothing more and wants the same job. */
  lemma DecidingAgainIsHarmless(root: int, v: View, u: Update)
    ensures Written(root, Written(root, v, u), u) == Written(root, v, u)
    ensures Wanted(root, Written(root, v, u), u) == Wanted(root, v, u)
  {
    var w := Written(root, v, u);
    assert v.chats + {0} + {0} == v.chats + {0};
  }

  lemma WriteIsSeen(db: Db, w: PoolWrite, now: int)
    ensures ViewOf(ApplyWrite(db, w, now)) == WriteView(ViewOf(db), w)
    ensures ApplyWrite(db, w, now).inbox == db.inbox
    ensures forall id | id in db.jobs :: id in ApplyWrite(db, w, now).jobs && ApplyWrite(db, w, now).jobs[id].requestId == db.jobs[id].requestId
    ensures ApplyWrite(db, w, now).jobs.Keys == db.jobs.Keys
  {
    var db' := ApplyWrite(db, w, now);
    assert forall id | id in db.jobs :: id in db'.jobs && db'.jobs[id].media == db.jobs[id].media;
    assert ViewOf(db').jobs == ViewOf(db).jobs;
  }

  lemma InsertIsSeen(bot: int, db: Db, id: int, media: Option<Media>, now: int)
    requires IdentitiesMatch(db, bot)
    ensures ViewOf(AdmitTx(bot, db, id, media, now)) == InsertView(ViewOf(db), id, media)
    ensures IdentitiesMatch(AdmitTx(bot, db, id, media, now), bot)
  {
    if media.Some? {
      ConflictIsARepeat(db, bot, id, media.value);
      var v, m := ViewOf(db), media.value;
      if SameMessage(db, m) {
        var i :| i in db.jobs && db.jobs[i].media.chat == m.chat && db.jobs[i].media.message == m.message;
        assert i in v.jobs && SameSource(v.jobs[i], m);
      }
    }
  }

  /** No statement of a stage worker is visible to admission. */
  lemma WorkersAreInvisible(db: Db, id: int, s: Statement, now: int)
    ensures ViewOf(Execute(db, id, s, now)) == ViewOf(db)
    ensures Execute(db, id, s, now).inbox == db.inbox
    ensures Execute(db, id, s, now).jobs.Keys == db.jobs.Keys
    ensures forall i | i in db.jobs :: Execute(db, id, s, now).jobs[i].requestId == db.jobs[i].requestId
  {
  }

  // ----- runs of one processor at a time -----

  // log: every update taken in so far, in id order; the first handled of them are done. claimed: the processor has
  // decided about the next one, made its pool write, and holds the job it wants to insert.
  datatype Progress = Progress(db: Db, log: seq<Record>, handled: nat, claimed: Option<Option<Media>>)

  datatype Event =
    | Arrive(update: Record)
    | Begin(wrote: bool, now: int) // decide; false if the write, or anything before it, failed
    | Finish(now: int)             // the transaction commits
    | Abandon                      // it fails, or the process dies
    | Work(id: int, statement: Statement, now: int)
    | CancelButton(jobId: string, chat: int, now: int)

  predicate Step(root: int, bot: int, s: Progress, ev: Event, t: Progress) {
    match ev
    case Arrive(r) =>
      && (s.log != [] ==> s.log[|s.log| - 1].id < r.id)
      && t == s.(db := InboxInsert(s.db, r.id, r.payload), log := s.log + [r])
    case Begin(wrote, now) =>
      && s.claimed.None? && s.handled < |s.log|
      && var r := s.log[s.handled];
      && IsInboxNext(s.db, r.id) && s.db.inbox[r.id].payload.Some?
      && var d := Decide(root, s.db.chats, s.db.presets, s.db.inbox[r.id].payload.value);
      t == if wrote then s.(db := ApplyWrite(s.db, d.write, now), claimed := Some(d.media)) else s
    case Finish(now) =>
      && s.claimed.Some? && s.handled < |s.log|
      && t == s.(db := AdmitTx(bot, s.db, s.log[s.handled].id, s.claimed.value, now), handled := s.handled + 1, claimed := None)
    case Abandon => t == s.(claimed := None)
    case Work(id, st, now) => t == s.(db := Execute(s.db, id, st, now))
    case CancelButton(b, chat, now) => t == s.(db := JobCancel(s.db, b, chat, now))
  }

  function Start(chats: set<int>): Progress {
    Progress(EMPTY.(chats := chats), [], 0, None)
  }

  predicate IsRun(root: int, bot: int, chats: set<int>, states: seq<Progress>, events: seq<Event>) {
    && |states| == |events| + 1 && states[0] == Start(chats)
    && forall k | 0 <= k < |events| :: Step(root, bot, states[k], events[k], states[k + 1])
  }

  // The inbox holds the log: its first rows handled, the rest with their payload.
  ghost predicate InboxIsLog(s: Progress) {
    && Increasing(s.log) && s.handled <= |s.log|
    && (forall k | 0 <= k < |s.log| ::
          && s.log[k].id in s.db.inbox && (s.db.inbox[s.log[k].id].handled <==> k < s.handled)
          && (k >= s.handled ==> s.db.inbox[s.log[k].id].payload == Some(s.log[k].payload)))
    && (forall u | u in s.db.inbox :: exists k :: 0 <= k < |s.log| && s.log[k].id == u)
  }

  // Between updates the view is the fold; during one it may already hold that update's write.
  ghost predicate ViewIsFold(root: int, chats: set<int>, s: Progress)
    requires s.handled <= |s.log|
  {
    var v := Fold(root, chats, s.log[..s.handled]);
    && (ViewOf(s.db) == v || (s.handled < |s.log| && ViewOf(s.db) == Written(root, v, s.log[s.handled].payload)))
    && (s.claimed.Some? ==>
          && s.handled < |s.log| && ViewOf(s.db) == Written(root, v, s.log[s.handled].payload)
          && s.claimed.value == Wanted(root, v, s.log[s.handled].payload))
  }

  ghost predicate Good(root: int, bot: int, chats: set<int>, s: Progress) {
    InboxIsLog(s) && IdentitiesMatch(s.db, bot) && ViewIsFold(root, chats, s)
  }

  lemma ArriveKeeps(root: int, bot: int, chats: set<int>, s: Progress, r: Record, t: Progress)
    requires Good(root, bot, chats, s) && Step(root, bot, s, Arrive(r), t)
    ensures Good(root, bot, chats, t)
  {
    ArriveLogged(s, r, t);
    hide InboxIsLog;
    assert t.log[..t.handled] == s.log[..s.handled];
    assert s.handled < |s.log| ==> t.log[t.handled] == s.log[s.handled];
    assert ViewOf(t.db) == ViewOf(s.db) && t.db.jobs == s.db.jobs;
  }

  lemma ArriveLogged(s: Progress, r: Record, t: Progress)
    requires InboxIsLog(s) && (s.log != [] ==> s.log[|s.log| - 1].id < r.id)
    requires t == s.(db := InboxInsert(s.db, r.id, r.payload), log := s.log + [r])
    ensures InboxIsLog(t)
  {
    assert r.id !in s.db.inbox;
    assert t.log[|s.log|] == r;
    forall u | u in t.db.inbox
      ensures exists k :: 0 <= k < |t.log| && t.log[k].id == u
    {
      if u == r.id {
        assert t.log[|s.log|].id == u;
      } else {
        var k :| 0 <= k < |s.log| && s.log[k].id == u;
        assert t.log[k].id == u;
      }
    }
  }

  lemma BeginKeeps(root: int, bot: int, chats: set<int>, s: Progress, wrote: bool, now: int, t: Progress)
    requires Good(root, bot, chats, s) && Step(root, bot, s, Begin(wrote, now), t)
    ensures Good(root, bot, chats, t)
  {
    if wrote {
      var u := s.log[s.handled].payload;
      WriteIsSeen(s.db, Decide(root, s.db.chats, s.db.presets, u).write, now);
      DecidingAgainIsHarmless(root, Fold(root, chats, s.log[..s.handled]), u);
    }
  }

  lemma FinishLogged(s: Progress, db: Db)
    requires InboxIsLog(s) && s.handled < |s.log| && db.inbox == s.db.inbox[s.log[s.handled].id := InboxRow(None, true)]
    ensures InboxIsLog(s.(db := db, handled := s.handled + 1, claimed := None))
  {
  }

  lemma FinishKeeps(root: int, bot: int, chats: set<int>, s: Progress, now: int, t: Progress)
    requires Good(root, bot, chats, s) && Step(root, bot, s, Finish(now), t)
    ensures Good(root, bot, chats, t)
  {
    var r := s.log[s.handled];
    InsertIsSeen(bot, s.db, r.id, s.claimed.value, now);
    assert t.db.inbox == s.db.inbox[r.id := InboxRow(None, true)];
    FinishLogged(s, t.db);
    hide AdmitTx, IdentitiesMatch, InboxIsLog, InsertView, Decide;
    var done := t.log[..t.handled];
    assert done[..|done| - 1] == s.log[..s.handled] && done[|done| - 1] == r;
  }

  // Work that admission does not see.
  lemma UnseenKeeps(root: int, bot: int, chats: set<int>, s: Progress, db: Db)
    requires Good(root, bot, chats, s) && ViewOf(db) == ViewOf(s.db) && db.inbox == s.db.inbox && db.jobs.Keys == s.db.jobs.Keys
    requires forall i | i in s.db.jobs :: db.jobs[i].requestId == s.db.jobs[i].requestId
    ensures Good(root, bot, chats, s.(db := db))
  {
    hide Fold, Decide, Written, Wanted, ViewOf;
  }

  lemma StepKeeps(root: int, bot: int, chats: set<int>, s: Progress, ev: Event, t: Progress)
    requires Good(root, bot, chats, s) && Step(root, bot, s, ev, t)
    ensures Good(root, bot, chats, t)
  {
    match ev
    case Arrive(r) =>
      hide Good;
      ArriveKeeps(root, bot, chats, s, r, t);
    case Begin(wrote, now) =>
      hide Good;
      BeginKeeps(root, bot, chats, s, wrote, now, t);
    case Finish(now) =>
      hide Good;
      FinishKeeps(root, bot, chats, s, now, t);
    case Abandon => hide Fold, Decide, Written, Wanted, ViewOf, InboxIsLog;
    case Work(id, st, now) =>
      hide Good, Execute;
      WorkersAreInvisible(s.db, id, st, now);
      UnseenKeeps(root, bot, chats, s, t.db);
    case CancelButton(b, chat, now) =>
      hide Good, JobCancel;
      WriteIsSeen(s.db, AskCancel(b, chat), now);
      UnseenKeeps(root, bot, chats, s, t.db);
  }

  lemma {:induction false} RunKeeps(root: int, bot: int, chats: set<int>, states: seq<Progress>, events: seq<Event>, k: nat)
    requires IsRun(root, bot, chats, states, events) && k < |states|
    ensures Good(root, bot, chats, states[k])
  {
    hide Good, Step;
    if k == 0 {
      StartIsGood(root, bot, chats);
    } else {
      RunKeeps(root, bot, chats, states, events, k - 1);
      StepKeeps(root, bot, chats, states[k - 1], events[k - 1], states[k]);
    }
  }

  lemma StartIsGood(root: int, bot: int, chats: set<int>)
    ensures Good(root, bot, chats, Start(chats))
  {
    assert ViewOf(Start(chats).db) == Adopted(chats);
  }

  /** Crash-idempotent admission: with one processor at a time, any number of failed or crashed attempts, and any worker
      activity in between, leave allowlist, presets and jobs equal to the fault-free fold of the handled updates. While an
      update is in progress only its own pool write may be ahead. */
  lemma AdmissionIsTheFold(root: int, bot: int, chats: set<int>, states: seq<Progress>, events: seq<Event>, k: nat)
    requires IsRun(root, bot, chats, states, events) && k < |states|
    ensures states[k].handled <= |states[k].log|
    ensures var s, v := states[k], Fold(root, chats, states[k].log[..states[k].handled]);
            && ViewOf(s.db).jobs == v.jobs
            && (ViewOf(s.db) == v || (s.handled < |s.log| && ViewOf(s.db) == Written(root, v, s.log[s.handled].payload)))
            && (InboxDrained(s.db) ==> ViewOf(s.db) == Fold(root, chats, s.log))
  {
    RunKeeps(root, bot, chats, states, events, k);
    var s := states[k];
    assert s.handled < |s.log| ==> s.log[s.handled].id in s.db.inbox && !s.db.inbox[s.log[s.handled].id].handled;
    assert s.log[..|s.log|] == s.log;
    hide IsRun, Decide, Fold;
  }

  // ----- the preset in force -----

  // The press of a valid preset button by this user.
  predicate Chooses(u: Update, user: int) {
    && u.callback.Some? && u.callback.value.from == user && "preset:" <= u.callback.value.data
    && u.callback.value.data[|"preset:"|..] in ["auto", "voice", "lecture", "meeting"]
  }

  function Choice(u: Update): string
    requires u.callback.Some? && "preset:" <= u.callback.value.data
  {
    u.callback.value.data[|"preset:"|..]
  }

  // The last valid choice a user made with the preset buttons.
  function ChosenPreset(log: seq<Record>, user: int): string {
    if log == [] then "auto"
    else if Chooses(log[|log| - 1].payload, user) then Choice(log[|log| - 1].payload)
    else ChosenPreset(log[..|log| - 1], user)
  }

  lemma ButtonsAreDistinct(data: string)
    ensures !("cancel:" <= data && "preset:" <= data)
  {
    assert "cancel:" <= data ==> data[0] == 'c';
    assert "preset:" <= data ==> data[0] == 'p';
  }

  lemma UpdateSetsPreset(root: int, v: View, u: Update, user: int)
    ensures PresetGet(Written(root, v, u).presets, user) == if Chooses(u, user) then Choice(u) else PresetGet(v.presets, user)
  {
    if u.callback.Some? {
      ButtonsAreDistinct(u.callback.value.data);
    }
    hide MediaOf;
  }

  lemma InsertKeepsPresets(v: View, id: int, media: Option<Media>)
    ensures InsertView(v, id, media).presets == v.presets
  {
  }

  lemma {:induction false} PresetInForce(root: int, chats: set<int>, log: seq<Record>, user: int)
    ensures PresetGet(Fold(root, chats, log).presets, user) == ChosenPreset(log, user)
    decreases |log|
  {
    hide Written, Wanted, InsertView, Chooses, Choice, Decide;
    if log != [] {
      var v, last := Fold(root, chats, log[..|log| - 1]), log[|log| - 1];
      PresetInForce(root, chats, log[..|log| - 1], user);
      UpdateSetsPreset(root, v, last.payload, user);
      InsertKeepsPresets(Written(root, v, last.payload), last.id, Wanted(root, v, last.payload));
    }
  }

  // ----- the allowlist in force -----

  // Has the last word on this group been that the bot is in it, or that the owner speaks there? Read off the updates.
  predicate Admits(root: int, chats: set<int>, log: seq<Record>, group: int) {
    if log == [] then group in chats
    else
      var u := log[|log| - 1].payload;
      if u.callback.None? && u.member.Some? && u.member.value.chat.id == group && u.member.value.chat.kind in ["group", "supergroup"]
      then u.member.value.status in ["member", "administrator", "restricted"]
      else if u.callback.None? && u.member.None? && u.message.Some? && u.message.value.from == Some(root)
              && u.message.value.chat.id == group && u.message.value.chat.kind in ["group", "supergroup"]
      then true
      else Admits(root, chats, log[..|log| - 1], group)
  }

  lemma UpdateSetsChats(root: int, v: View, u: Update, group: int)
    ensures group in Written(root, v, u).chats <==>
            if u.callback.None? && u.member.Some? && u.member.value.chat.id == group && u.member.value.chat.kind in ["group", "supergroup"]
            then u.member.value.status in ["member", "administrator", "restricted"]
            else if u.callback.None? && u.member.None? && u.message.Some? && u.message.value.from == Some(root)
                    && u.message.value.chat.id == group && u.message.value.chat.kind in ["group", "supergroup"]
            then true
            else group in v.chats
  {
    hide MediaOf;
  }

  lemma InsertKeepsChats(v: View, id: int, media: Option<Media>)
    ensures InsertView(v, id, media).chats == v.chats
  {
  }

  /** A chat is on the allowlist exactly when the last update that concerns it put it there. */
  lemma {:induction false} AllowlistInForce(root: int, chats: set<int>, log: seq<Record>, group: int)
    ensures group in Fold(root, chats, log).chats <==> Admits(root, chats, log, group)
    decreases |log|
  {
    hide Written, Wanted, InsertView, Decide;
    if log != [] {
      var v, last := Fold(root, chats, log[..|log| - 1]), log[|log| - 1];
      AllowlistInForce(root, chats, log[..|log| - 1], group);
      UpdateSetsChats(root, v, last.payload, group);
      InsertKeepsChats(Written(root, v, last.payload), last.id, Wanted(root, v, last.payload));
    }
  }

  // ----- the cancel button -----

  // The owner's press of the cancel button of this backend job, under a message in this chat.
  predicate OwnerCancels(root: int, u: Update, jobId: string, chat: int) {
    u.callback.Some? && u.callback.value.from == root && u.callback.value.data == "cancel:" + jobId && u.callback.value.chat == Some(chat)
  }

  lemma CancelData(data: string, jobId: string)
    ensures "cancel:" <= data && data[|"cancel:"|..] == jobId <==> data == "cancel:" + jobId
  {
    if "cancel:" <= data {
      assert data == data[..|"cancel:"|] + data[|"cancel:"|..];
    }
    if data == "cancel:" + jobId {
      assert data[|"cancel:"|..] == jobId;
    }
  }

  /** An update flags a job if and only if it is the owner's cancel press for that job, in that job's chat, while the job is
      in poll. */
  lemma OnlyTheOwnerCancels(root: int, bot: int, db: Db, u: Update, now: int, id: int)
    requires id in db.jobs
    ensures var d := ApplyWrite(db, Decide(root, db.chats, db.presets, u).write, now);
            && id in d.jobs
            && (d.jobs[id].cancelRequested <==>
                  db.jobs[id].cancelRequested
                  || (db.jobs[id].stage == Poll && OwnerCancels(root, u, db.jobs[id].jobId, db.jobs[id].media.chat)))
  {
    if u.callback.Some? {
      CancelData(u.callback.value.data, db.jobs[id].jobId);
      ButtonsAreDistinct(u.callback.value.data);
    }
    hide MediaOf;
  }

  // ----- the job that a message asks for -----

  lemma {:induction false} ExtensionIsLast(name: string)
    ensures Extension(name).None? <==> '.' !in name
    ensures Extension(name).Some? ==>
              var x := Extension(name).value;
              '.' !in x && |x| < |name| && name[|name| - |x| - 1] == '.' && name[|name| - |x|..] == x
  {
    if name != "" && name[|name| - 1] != '.' {
      var init := name[..|name| - 1];
      ExtensionIsLast(init);
      assert name == init + [name[|name| - 1]];
      if Extension(name).Some? {
        var x := Extension(init).value;
        assert name[|name| - |x| - 1..] == init[|init| - |x|..] + [name[|name| - 1]];
      }
    }
  }

  // Letters A to Z move to their lower-case code, 32 above; every other character stays.
  lemma LowerIsByLetter(s: string, k: nat)
    requires k < |s|
    ensures |Lower(s)| == |s|
    ensures (Lower(s)[k] as int) == (s[k] as int) + if 65 <= (s[k] as int) <= 90 then 32 else 0
  {
  }

  // Voice, round video, video or document, the first that is there, with its file id.
  predicate Carries(m: Message, file: string) {
    || m.voice == Some(file)
    || (m.voice.None? && m.videoNote == Some(file))
    || (m.voice.None? && m.videoNote.None? && m.video.Some? && m.video.value.file == file)
    || (m.voice.None? && m.videoNote.None? && m.video.None? && m.document.Some? && m.document.value.file == file)
  }

  /** Which messages become jobs: media that is not under a command, from the owner, or voice and round video from anyone in
      a group on the allowlist. */
  lemma MessagesThatBecomeJobs(root: int, chats: set<int>, presets: map<int, string>, u: Update)
    ensures var wanted := Decide(root, chats, presets, u).media;
            wanted.Some? <==>
              && u.callback.None? && u.member.None? && u.message.Some?
              && var m := u.message.value;
              var group := m.chat.kind in ["group", "supergroup"];
              && m.from.Some? && (m.from.value == root || (group && m.chat.id in chats))
              && m.command == "" && (group ==> m.voice.Some? || m.videoNote.Some?)
              && (exists file :: file != "" && Carries(m, file))
  {
    if u.message.Some? {
      var m := u.message.value;
      assert ExtractFile(m).0 != "" ==> Carries(m, ExtractFile(m).0);
    }
    hide ResolvePreset, MediaNoun, Extension, Lower;
  }

  /** The columns of a wanted job are those of its message: whose it is, which file, in which format and under which preset. */
  lemma JobsNameTheirMedia(root: int, chats: set<int>, presets: map<int, string>, u: Update)
    requires Decide(root, chats, presets, u).media.Some?
    ensures u.message.Some?
    ensures var m, job := u.message.value, Decide(root, chats, presets, u).media.value;
            && m.from == Some(job.user) && m.chat.id == job.chat && m.id == job.message
            && job.file != "" && Carries(m, job.file)
            && job.format == (if m.voice.Some? then "ogg"
                              else if m.videoNote.Some? || m.video.Some? then "mp4"
                              else if Extension(m.document.value.name).None? then "mp4"
                              else Lower(Extension(m.document.value.name).value))
            && job.noun == (if m.voice.Some? then "голосовое" else if m.videoNote.Some? then "кружочек"
                            else if m.video.Some? then "видео" else "документ")
            && var chosen := if job.user in presets then presets[job.user] else "auto";
            job.preset == (if chosen !in ["", "auto"] then chosen
                           else if m.voice.None? && m.videoNote.None? && m.video.Some? && m.video.value.duration > 300 then "lecture"
                           else "voice")
  {
    hide Extension, Lower;
  }

  // What the last update of a history adds to the jobs.
  lemma LastUpdateAdds(root: int, chats: set<int>, log: seq<Record>, id: int)
    requires log != [] && id in Fold(root, chats, log).jobs
    ensures var v, last, jobs := Fold(root, chats, log[..|log| - 1]), log[|log| - 1], Fold(root, chats, log).jobs;
            if id in v.jobs then jobs[id] == v.jobs[id]
            else id == last.id && Wanted(root, v, last.payload) == Some(jobs[id])
  {
    hide Decide, Wanted, SameSource;
  }

  lemma {:induction false} JobComesFromItsUpdate(root: int, chats: set<int>, log: seq<Record>, id: int) returns (k: nat)
    requires id in Fold(root, chats, log).jobs
    ensures k < |log| && log[k].id == id && Wanted(root, Fold(root, chats, log[..k]), log[k].payload) == Some(Fold(root, chats, log).jobs[id])
    decreases |log|
  {
    NothingAtFirst(root, chats, log);
    LastUpdateAdds(root, chats, log, id);
    hide Fold, Wanted;
    var init := log[..|log| - 1];
    if id in Fold(root, chats, init).jobs {
      k := JobComesFromItsUpdate(root, chats, init, id);
      assert init[..k] == log[..k];
    } else {
      k := |log| - 1;
    }
  }

  lemma NothingAtFirst(root: int, chats: set<int>, log: seq<Record>)
    ensures log == [] ==> Fold(root, chats, log).jobs == map[]
  {
  }

  /** Each job carries the preset its user had last chosen before the job's own update, resolved for its media. */
  lemma JobsUseThePresetInForce(root: int, chats: set<int>, log: seq<Record>, id: int) returns (k: nat)
    requires id in Fold(root, chats, log).jobs
    ensures k < |log| && log[k].id == id && log[k].payload.message.Some?
    ensures var job := Fold(root, chats, log).jobs[id];
            job.preset == ResolvePreset(ChosenPreset(log[..k], job.user), log[k].payload.message.value)
  {
    k := JobComesFromItsUpdate(root, chats, log, id);
    PresetInForce(root, chats, log[..k], Fold(root, chats, log).jobs[id].user);
    JobsAreAuthorised(root, Fold(root, chats, log[..k]).chats, Fold(root, chats, log[..k]).presets, log[k].payload);
    hide Fold, ChosenPreset, ResolvePreset;
  }
}
