/**
 * The values the conversation engine reads and writes: an inbound chat
 * event, the per-channel transcript record and the entries of its
 * conversation log.
 */
module Transcripts {
  import opened Wrappers
  import opened Questions

  /**
   * One element of a channel's pending-question list: a question still to be
   * asked, or the "Done" marker that stands for an exhausted script.
   */
  datatype Pending = Ask(question: Question) | Done

  /** The profile captured from the first human event of a channel. */
  datatype Profile = Profile(userId: string, name: string, avatar: string)

  /** An attachment as the chat platform reports it; `thumb480` is present only for some files. */
  datatype Upload = Upload(
    name: string,
    mimetype: string,
    urlPrivate: string,
    urlPrivateDownload: string,
    permalink: string,
    thumb480: Option<string>)

  /** An attachment as the transcript records it. */
  datatype FileRef = FileRef(
    name: string,
    mimetype: string,
    urlPrivate: string,
    urlPrivateDownload: string,
    permalink: string,
    thumb: Option<string>)

  /** Who sent the event: the bot (with its profile name and 72px icon) or a human. */
  datatype Sender = Bot(botName: string, botAvatar: string) | Human

  /**
   * An inbound event: the channel, the sender, the sender's user id, the
   * text, the `files` attachment list when the key is present, and whether
   * a `blocks` key is present.
   */
  datatype Event = Event(
    channel: string,
    sender: Sender,
    user: string,
    text: string,
    files: Option<seq<Upload>>,
    hasBlocks: bool)

  /**
   * One entry of a conversation log. `Blank` is the empty entry recorded for
   * a human event that has neither files nor blocks.
   */
  datatype Entry =
    | BotMessage(bot: string, avatar: string, channel: string, text: string)
    | UserFiles(userId: string, channel: string, text: string, files: seq<FileRef>)
    | UserText(userId: string, channel: string, text: string)
    | Blank

  /**
   * The record stored per channel. `pending` is `None` when the record has no
   * `questions` key.
   */
  datatype Transcript = Transcript(profile: Option<Profile>, pending: Option<seq<Pending>>, log: seq<Entry>)
}
