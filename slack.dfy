/**
 * The `Slack` class: the application's name and token, and the records of
 * its data folder (the question script, one transcript per channel, the
 * cached user directory) held as fields that its operations update.
 */
module App {
  import opened Wrappers
  import opened Questions
  import opened Users
  import opened Transcripts
  import opened Engine

  /** The stored record of a channel, if the channel has one. */
  function Stored(transcripts: map<string, Transcript>, channel: string): Option<Transcript>
  {
    if channel in transcripts then Some(transcripts[channel]) else None
  }

  /**
   * The class invariant is what makes human events inert on a stored
   * channel: every stored record has a non-empty pending list, so any run of
   * human events leaves it as it is.
   */
  lemma HumanEventsKeepStoredPending(s: Slack, channel: string, es: seq<Event>)
    requires s.Valid() && channel in s.transcripts && AllHuman(es)
    ensures Run(Stored(s.transcripts, channel), s.questions, s.users, es).Some?
    ensures Run(Stored(s.transcripts, channel), s.questions, s.users, es).value.pending == s.transcripts[channel].pending
  {
    HumanRunKeepsPending(Stored(s.transcripts, channel), s.questions, s.users, es);
  }

  class Slack {
    const app: string
    const token: string
    /** The `questions.json` record. */
    var questions: seq<Question>
    /** One `<channel>.json` record per channel seen so far. */
    var transcripts: map<string, Transcript>
    /** The `users.json` record. */
    var users: seq<UserRecord>

    /**
     * What the operations keep: script ids strictly increase, and every
     * stored record holds a non-empty pending list.
     */
    ghost predicate Valid()
      reads this
    {
      && StrictlyIncreasing(questions)
      && forall c :: c in transcripts ==> transcripts[c].pending.Some? && transcripts[c].pending.value != []
    }

    /** A fresh application over an empty data folder. */
    constructor(app: string, token: string)
      ensures this.app == app && this.token == token
      ensures questions == [] && transcripts == map[] && users == []
      ensures Valid()
    {
      this.app := app;
      this.token := token;
      questions := [];
      transcripts := map[];
      users := [];
    }

    /**
     * `handel`: process one event on its channel, store the channel's new
     * record, and return the question to send back (only to a human).
     */
    method Handle(e: Event) returns (reply: Option<Pending>)
      modifies this
      ensures questions == old(questions) && users == old(users)
      ensures transcripts == old(transcripts)[e.channel := Step(Stored(old(transcripts), e.channel), questions, users, e).transcript]
      ensures reply == Step(Stored(old(transcripts), e.channel), questions, users, e).reply
      ensures reply.Some? <==> e.sender.Human?
      ensures old(Valid()) ==> Valid()
    {
      ghost var stored := Stored(transcripts, e.channel);
      var pending, profile, log := Load(e);

      // the profile is captured once, from a human
      if profile.None? && e.sender.Human? {
        profile := Some(Profile(e.user, UserData(users, Name, e.user), UserData(users, Image, e.user)));
      }

      // a bot's message consumes the head question
      if e.sender.Bot? && |pending| > 0 {
        pending := pending[1..];
      }
      // an exhausted list becomes the "Done" marker
      if |pending| == 0 {
        pending := [Done];
      }

      var content := Record(e);
      log := log + [content];

      ghost var before := transcripts;
      transcripts := transcripts[e.channel := Transcript(profile, Some(pending), log)];
      forall c | c in transcripts && c != e.channel
        ensures transcripts[c] == before[c]
      {
      }

      if e.sender.Human? {
        reply := Some(pending[0]);
      } else {
        reply := None;
      }
    }

    /** The first part of `handel`: the pending list, profile and log the event starts from. */
    method Load(e: Event) returns (pending: seq<Pending>, profile: Option<Profile>, log: seq<Entry>)
      ensures pending == StartPending(Stored(transcripts, e.channel), questions, e)
      ensures profile == ProfileOf(Stored(transcripts, e.channel))
      ensures log == LogOf(Stored(transcripts, e.channel))
    {
      if e.channel !in transcripts {
        pending := Snapshot(questions);
        profile, log := None, [];
      } else {
        var previous := transcripts[e.channel];
        if previous.pending.Some? {
          pending := previous.pending.value;
        } else {
          pending := Snapshot(questions);
        }
        if e.sender.Bot? && previous.pending.Some? && |previous.pending.value| > 0 && previous.pending.value[0] == Done {
          pending := Snapshot(questions);
        }
        profile, log := previous.profile, previous.log;
      }
    }

    /** The entry-building part of `handel`. */
    static method Record(e: Event) returns (content: Entry)
      ensures content == Classify(e)
    {
      content := Blank;
      if e.sender.Bot? {
        content := BotMessage(e.sender.botName, e.sender.botAvatar, e.channel, e.text);
      } else if e.files.Some? {
        var files := CopyFiles(e.files.value);
        content := UserFiles(e.user, e.channel, e.text, files);
      } else if e.hasBlocks {
        content := UserText(e.user, e.channel, e.text);
      }
    }

    /** `add_question`: append a question with the next id. */
    method AddQuestion(text: string)
      modifies this
      ensures questions == Added(old(questions), text)
      ensures transcripts == old(transcripts) && users == old(users)
      ensures old(Valid()) ==> Valid()
    {
      ghost var was := questions;
      var id := if |questions| == 0 then 1 else questions[|questions| - 1].id + 1;
      questions := questions + [Question(id, text)];
      if StrictlyIncreasing(was) {
        AddedKeepsIncreasing(was, text);
      }
    }

    /** `delete_question`: drop every question with the given id. */
    method DeleteQuestion(id: int)
      modifies this
      ensures questions == Deleted(old(questions), id)
      ensures transcripts == old(transcripts) && users == old(users)
      ensures old(Valid()) ==> Valid()
    {
      if StrictlyIncreasing(questions) {
        DeletedKeepsIncreasing(questions, id);
      }
      questions := DeleteFrom(questions, id);
    }

    /** `refresh_users_list`: replace the cached directory with the filtered member list. */
    method RefreshUsers(members: seq<Member>)
      modifies this
      ensures users == Directory(members)
      ensures questions == old(questions) && transcripts == old(transcripts)
      ensures old(Valid()) ==> Valid()
    {
      users := SlackUsers(members);
    }
  }
}
