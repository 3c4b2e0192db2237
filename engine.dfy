/**
 * The per-channel conversation state machine of `Slack::handel`, as pure
 * functions: given the stored record of a channel (if any), the shared
 * script, the user directory and one inbound event, compute the new record
 * and the reply.
 */
module Engine {
  import opened Wrappers
  import opened Questions
  import opened Users
  import opened Transcripts

  /** A fresh copy of the script, as a pending-question list. */
  function Snapshot(script: seq<Question>): (r: seq<Pending>)
    ensures |r| == |script|
    ensures forall i :: 0 <= i < |script| ==> r[i] == Ask(script[i])
  {
    if script == [] then [] else [Ask(script[0])] + Snapshot(script[1..])
  }

  predicate HeadIsDone(ps: seq<Pending>)
  {
    ps != [] && ps[0] == Done
  }

  /**
   * The cases in which the event starts from a fresh copy of the script: the
   * channel has no record, the record has no question list, or a bot speaks
   * on a channel whose stored list starts with the "Done" marker.
   */
  predicate Restarts(stored: Option<Transcript>, e: Event)
    ensures e.sender.Human? ==> (Restarts(stored, e) <==> stored.None? || stored.value.pending.None?)
    ensures stored.Some? && stored.value.pending.Some? && !HeadIsDone(stored.value.pending.value) ==> !Restarts(stored, e)
  {
    || stored.None?
    || stored.value.pending.None?
    || (e.sender.Bot? && HeadIsDone(stored.value.pending.value))
  }

  /** The pending list the event starts from. */
  function StartPending(stored: Option<Transcript>, script: seq<Question>, e: Event): (r: seq<Pending>)
    ensures stored.None? ==> r == Snapshot(script)
    ensures stored.Some? && stored.value.pending.None? ==> r == Snapshot(script)
    ensures stored.Some? && stored.value.pending.Some? && e.sender.Bot? && HeadIsDone(stored.value.pending.value) ==>
      r == Snapshot(script)
    ensures stored.Some? && stored.value.pending.Some? && e.sender.Human? ==> r == stored.value.pending.value
    ensures stored.Some? && stored.value.pending.Some? && !HeadIsDone(stored.value.pending.value) ==>
      r == stored.value.pending.value
  {
    if Restarts(stored, e) then Snapshot(script) else stored.value.pending.value
  }

  /**
   * A bot event consumes the head of the list (nothing on an empty list);
   * an emptied list becomes the one-element list holding the "Done" marker.
   */
  function Advance(ps: seq<Pending>, bot: bool): (r: seq<Pending>)
    ensures r != []
    ensures bot && |ps| >= 2 ==> r == ps[1..]
    ensures !bot && ps != [] ==> r == ps
    ensures (if bot then |ps| <= 1 else ps == []) ==> r == [Done]
  {
    var dropped := if bot && ps != [] then ps[1..] else ps;
    if dropped == [] then [Done] else dropped
  }

  /** The profile built from a user id and two directory lookups. */
  function NewProfile(users: seq<UserRecord>, user: string): (p: Profile)
    ensures p.userId == user
    ensures (forall i :: 0 <= i < |users| ==> users[i].id != user) ==> p.name == "Undefined" && p.avatar == "Undefined"
    ensures forall i :: FirstWith(users, user, i) ==> p.name == users[i].name && p.avatar == users[i].image
  {
    Profile(user, UserData(users, Name, user), UserData(users, Image, user))
  }

  /** The profile is captured from a human event when the record has none. */
  function CaptureProfile(prior: Option<Profile>, users: seq<UserRecord>, e: Event): (r: Option<Profile>)
    ensures prior.Some? ==> r == prior
    ensures prior.None? ==> (r.Some? <==> e.sender.Human?)
    ensures prior.None? && r.Some? ==> r.value.userId == e.user
  {
    if prior.None? && e.sender.Human? then Some(NewProfile(users, e.user)) else prior
  }

  /** The transcript form of one attachment. */
  function FileEntry(u: Upload): FileRef
  {
    FileRef(u.name, u.mimetype, u.urlPrivate, u.urlPrivateDownload, u.permalink, u.thumb480)
  }

  /** The transcript form of an attachment list, in order. */
  function FileEntries(us: seq<Upload>): (r: seq<FileRef>)
    ensures |r| == |us|
    ensures forall i :: 0 <= i < |us| ==> r[i] == FileEntry(us[i])
  {
    if us == [] then [] else FileEntries(us[..|us| - 1]) + [FileEntry(us[|us| - 1])]
  }

  /** The log entry an event becomes. */
  function Classify(e: Event): (r: Entry)
    ensures e.sender.Bot? ==> r == BotMessage(e.sender.botName, e.sender.botAvatar, e.channel, e.text)
    ensures e.sender.Human? && e.files.Some? ==>
      && r.UserFiles?
      && r.userId == e.user && r.channel == e.channel && r.text == e.text
      && |r.files| == |e.files.value|
      && forall i :: 0 <= i < |r.files| ==>
           && r.files[i].name == e.files.value[i].name
           && r.files[i].mimetype == e.files.value[i].mimetype
           && r.files[i].urlPrivate == e.files.value[i].urlPrivate
           && r.files[i].urlPrivateDownload == e.files.value[i].urlPrivateDownload
           && r.files[i].permalink == e.files.value[i].permalink
           && (r.files[i].thumb.Some? <==> e.files.value[i].thumb480.Some?)
           && r.files[i].thumb == e.files.value[i].thumb480
    ensures e.sender.Human? && e.files.None? && e.hasBlocks ==> r == UserText(e.user, e.channel, e.text)
    ensures e.sender.Human? && e.files.None? && !e.hasBlocks ==> r == Blank
  {
    match e.sender
    case Bot(name, avatar) => BotMessage(name, avatar, e.channel, e.text)
    case Human =>
      if e.files.Some? then UserFiles(e.user, e.channel, e.text, FileEntries(e.files.value))
      else if e.hasBlocks then UserText(e.user, e.channel, e.text)
      else Blank
  }

  /** The stored log, empty for a channel without a record. */
  function LogOf(t: Option<Transcript>): seq<Entry>
  {
    if t.Some? then t.value.log else []
  }

  /** The stored profile, absent for a channel without a record. */
  function ProfileOf(t: Option<Transcript>): Option<Profile>
  {
    if t.Some? then t.value.profile else None
  }

  /** The pending list of a record, empty when there is none. */
  function PendingOf(t: Option<Transcript>): seq<Pending>
  {
    if t.Some? && t.value.pending.Some? then t.value.pending.value else []
  }

  /** What one event produces: the record to store and the reply to send, if any. */
  datatype Outcome = Outcome(transcript: Transcript, reply: Option<Pending>)

  /** One call of `handel` on one channel. */
  function Step(stored: Option<Transcript>, script: seq<Question>, users: seq<UserRecord>, e: Event): (r: Outcome)
    // the log grows by exactly the event's entry; on first contact it is that entry alone
    ensures |r.transcript.log| == |LogOf(stored)| + 1
    ensures r.transcript.log[..|LogOf(stored)|] == LogOf(stored)
    ensures r.transcript.log[|LogOf(stored)|] == Classify(e)
    ensures stored.None? ==> r.transcript.log == [Classify(e)]
    // where the pending list comes from, and how the event advances it
    ensures Restarts(stored, e) ==> r.transcript.pending == Some(Advance(Snapshot(script), e.sender.Bot?))
    ensures !Restarts(stored, e) ==> r.transcript.pending == Some(Advance(PendingOf(stored), e.sender.Bot?))
    ensures r.transcript.pending.Some? && r.transcript.pending.value != []
    // the profile is written once, from the first human event
    ensures ProfileOf(stored).Some? ==> r.transcript.profile == ProfileOf(stored)
    ensures ProfileOf(stored).None? ==> (r.transcript.profile.Some? <==> e.sender.Human?)
    ensures ProfileOf(stored).None? && e.sender.Human? ==> r.transcript.profile == Some(NewProfile(users, e.user))
    // only a human is answered, with the head of the updated list
    ensures r.reply.Some? <==> e.sender.Human?
    ensures r.reply.Some? ==> r.reply.value == r.transcript.pending.value[0]
  {
    var pending := Advance(StartPending(stored, script, e), e.sender.Bot?);
    var log := LogOf(stored) + [Classify(e)];
    var t := Transcript(CaptureProfile(ProfileOf(stored), users, e), Some(pending), log);
    Outcome(t, if e.sender.Human? then Some(pending[0]) else None)
  }

  /** A sequence of events on one channel, processed in order with a fixed script and directory. */
  function Run(stored: Option<Transcript>, script: seq<Question>, users: seq<UserRecord>, es: seq<Event>): Option<Transcript>
  {
    if es == [] then stored
    else Some(Step(Run(stored, script, users, es[..|es| - 1]), script, users, es[|es| - 1]).transcript)
  }

  /** The entries a sequence of events becomes, in order. */
  function Classified(es: seq<Event>): seq<Entry>
  {
    if es == [] then [] else Classified(es[..|es| - 1]) + [Classify(es[|es| - 1])]
  }

  predicate AllBot(es: seq<Event>)
  {
    forall i :: 0 <= i < |es| ==> es[i].sender.Bot?
  }

  predicate AllHuman(es: seq<Event>)
  {
    forall i :: 0 <= i < |es| ==> es[i].sender.Human?
  }

  /** The log only grows: a run appends exactly the entries of its events, in order. */
  lemma {:induction false} RunAppendsLog(stored: Option<Transcript>, script: seq<Question>, users: seq<UserRecord>, es: seq<Event>)
    ensures LogOf(Run(stored, script, users, es)) == LogOf(stored) + Classified(es)
  {
    if es != [] {
      RunAppendsLog(stored, script, users, es[..|es| - 1]);
    }
  }

  /** Once a channel has a profile, no later event changes it. */
  lemma {:induction false} RunKeepsProfile(stored: Option<Transcript>, script: seq<Question>, users: seq<UserRecord>, es: seq<Event>)
    requires ProfileOf(stored).Some?
    ensures ProfileOf(Run(stored, script, users, es)) == ProfileOf(stored)
  {
    if es != [] {
      RunKeepsProfile(stored, script, users, es[..|es| - 1]);
    }
  }

  /** Human events never advance a channel's pending list. */
  lemma {:induction false} HumanRunKeepsPending(stored: Option<Transcript>, script: seq<Question>, users: seq<UserRecord>, es: seq<Event>)
    requires AllHuman(es)
    requires stored.Some? && stored.value.pending.Some? && stored.value.pending.value != []
    ensures Run(stored, script, users, es).Some?
    ensures Run(stored, script, users, es).value.pending == stored.value.pending
  {
    if es != [] {
      var init := es[..|es| - 1];
      assert AllHuman(init) by {
        forall i | 0 <= i < |init| ensures init[i].sender.Human? {
          assert init[i] == es[i];
        }
      }
      HumanRunKeepsPending(stored, script, users, init);
    }
  }

  /**
   * On a fresh channel with a script of K questions, the j-th bot event
   * (1 <= j <= K) leaves the questions after the j-th pending, and the K-th
   * leaves the "Done" marker.
   */
  lemma {:induction false} BotRunExhausts(script: seq<Question>, users: seq<UserRecord>, es: seq<Event>)
    requires AllBot(es)
    requires 1 <= |es| <= |script|
    ensures Run(None, script, users, es).Some?
    ensures Run(None, script, users, es).value.pending ==
            Some(if |es| < |script| then Snapshot(script)[|es|..] else [Done])
  {
    var n := |es|;
    var init := es[..n - 1];
    assert es[n - 1].sender.Bot?;
    if n > 1 {
      assert AllBot(init) by {
        forall i | 0 <= i < |init| ensures init[i].sender.Bot? {
          assert init[i] == es[i];
        }
      }
      BotRunExhausts(script, users, init);
      var prev := Run(None, script, users, init);
      var ps := Snapshot(script)[n - 1..];
      assert prev.value.pending == Some(ps);
      assert ps[0] == Ask(script[n - 1]);
      assert !Restarts(prev, es[n - 1]);
      assert n < |script| ==> ps[1..] == Snapshot(script)[n..];
    }
  }

  /**
   * A bot event on an exhausted channel reloads the script and consumes its
   * head in the same call: after K + 1 bot events the channel is where the
   * first bot event left it.
   */
  lemma BotRunRestarts(script: seq<Question>, users: seq<UserRecord>, es: seq<Event>)
    requires AllBot(es)
    requires |script| >= 1 && |es| == |script| + 1
    ensures Run(None, script, users, es).Some?
    ensures Run(None, script, users, es).value.pending == Run(None, script, users, es[..1]).value.pending
  {
    var init := es[..|script|];
    assert AllBot(init) by {
      forall i | 0 <= i < |init| ensures init[i].sender.Bot? {
        assert init[i] == es[i];
      }
    }
    BotRunExhausts(script, users, init);
    assert es[..|es| - 1] == init;
    assert es[|es| - 1].sender.Bot?;
    assert es[..1][..0] == [];
  }

  /**
   * Script [Q1, Q2]: bot "Q1", human "ans1", bot "Q2", human "ans2". The
   * human is asked Q2 first and then gets the "Done" marker.
   */
  lemma TwoQuestionScenario(users: seq<UserRecord>)
    ensures
      var script := [Question(1, "Q1"), Question(2, "Q2")];
      var bot := Bot("survey", "icon");
      var o1 := Step(None, script, users, Event("C", bot, "", "Q1", None, true));
      var o2 := Step(Some(o1.transcript), script, users, Event("C", Human, "U", "ans1", None, true));
      var o3 := Step(Some(o2.transcript), script, users, Event("C", bot, "", "Q2", None, true));
      var o4 := Step(Some(o3.transcript), script, users, Event("C", Human, "U", "ans2", None, true));
      && o1.transcript.pending == Some([Ask(Question(2, "Q2"))]) && o1.reply == None
      && o1.transcript.log == [BotMessage("survey", "icon", "C", "Q1")]
      && |o2.transcript.log| == 2 && o2.reply == Some(Ask(Question(2, "Q2")))
      && o3.transcript.pending == Some([Done]) && o3.reply == None
      && |o4.transcript.log| == 4 && o4.reply == Some(Done)
  {
    var script := [Question(1, "Q1"), Question(2, "Q2")];
    assert Snapshot(script) == [Ask(Question(1, "Q1")), Ask(Question(2, "Q2"))];
  }

  /**
   * Empty script, first event a human "hi" with blocks: the record is created
   * with the profile and a text entry, and the reply is the "Done" marker.
   */
  lemma EmptyScriptFirstHuman(users: seq<UserRecord>)
    ensures
      var o := Step(None, [], users, Event("C", Human, "U", "hi", None, true));
      && o.transcript.profile == Some(NewProfile(users, "U"))
      && o.transcript.log == [UserText("U", "C", "hi")]
      && o.transcript.pending == Some([Done])
      && o.reply == Some(Done)
  {
  }

  /** The attachment loop of `handel`. */
  method CopyFiles(us: seq<Upload>) returns (files: seq<FileRef>)
    ensures files == FileEntries(us)
    ensures |files| == |us|
    ensures forall i :: 0 <= i < |us| ==>
      && files[i].name == us[i].name
      && (files[i].thumb.Some? <==> us[i].thumb480.Some?)
      && files[i].thumb == us[i].thumb480
  {
    files := [];
    for i := 0 to |us|
      invariant files == FileEntries(us[..i])
    {
      assert us[..i + 1][..i] == us[..i];
      var u := us[i];
      var content := FileRef(u.name, u.mimetype, u.urlPrivate, u.urlPrivateDownload, u.permalink, None);
      if u.thumb480.Some? {
        content := content.(thumb := u.thumb480);
      }
      files := files + [content];
    }
    assert us[..|us|] == us;
  }
}
