# Slack survey bridge — a Dafny model

This project models the core of a small PHP application (one class, `Slack`
in `Slack.php`) that runs a survey over a chat platform. A bot posts the
questions of a shared script into a channel. Every inbound event of the
channel is appended to that channel's transcript. Each human message is
answered with the next question still pending for the channel.

The model has these parts:

- `Questions` (questions.dfy): the shared script as a sequence of
  `(id, text)` records, with `add_question` (id = last id + 1, or 1 on an
  empty script) and `delete_question` (keep, in order, every record with a
  different id).
- `Users` (users.dfy): the member filter of `slack_users` and the
  first-match lookup `get_user_data`, which falls back to `"Undefined"`.
- `Transcripts` (transcripts.dfy): the inbound event, the pending-question
  list, the log entries and the per-channel record. The `"Done"` string the
  code stores in place of a question is the explicit variant `Pending.Done`.
- `Engine` (engine.dfy): `handel` as pure functions. `Step` gives the new
  record and the reply for one event. `Run` folds `Step` over a sequence of
  events on one channel. The lemmas state what the state machine promises
  over many events.
- `Dashboard` (dashboard.dfy): the index built by `conversations` from a
  listing of the data folder.
- `App` (slack.dfy): the class `Slack`. Its fields hold the data folder's
  records: the script, a map from channel to transcript, and the cached
  user directory. `Handle`, `AddQuestion`, `DeleteQuestion` and
  `RefreshUsers` update those fields in place. Each is proved against the
  `Engine`, `Questions` or `Users` function that specifies it. Each also
  keeps `Valid()`: script ids strictly increase, and every stored record
  holds a non-empty pending list.

Behaviours of the code that are easy to misread, and what the model does:

- A human event with neither `files` nor `blocks` still appends an entry.
  `$content` starts as an empty array (Slack.php:158) and is appended
  unconditionally (Slack.php:211-218). The model appends `Entry.Blank`.
- `add_question` uses the id of the LAST record plus one (Slack.php:287),
  not the largest id plus one. `AddedKeepsIncreasing` proves the two agree
  on every script with strictly increasing ids. Add and delete preserve
  that shape (`AddedKeepsIncreasing`, `DeletedKeepsIncreasing`).
  `LastPlusOneOnUnsortedScript` shows that on an unsorted script the code's
  choice can reuse an existing id.
- With an empty script, the first human event gets a reply: the pending
  list becomes the `"Done"` marker (Slack.php:151-152), and the human is
  answered with it (`EmptyScriptFirstHuman`).
- A bot event on an exhausted channel reloads the script (Slack.php:129-130).
  In the same call it drops the reloaded head (Slack.php:147-148)
  (`BotRunRestarts`).

## Model

| member | source | states |
|---|---|---|
| Questions.Deleted | Slack.php:308-314 | the result holds exactly the records of the script whose id differs from the target, is no longer than the script, and equals the script when no record has the target id |
| Questions.DeletedSingle | Slack.php:310-313 | a one-record script keeps its record exactly when its id differs from the target |
| Questions.DeletedDistributes | Slack.php:309-314 | deleting from a concatenation is deleting from each part and concatenating, so the kept records keep their script order and number of copies |
| Questions.NextId | Slack.php:287 | on a script with strictly increasing ids, the new id is above every existing id and so is not in use |
| Questions.Added | Slack.php:287-288 | the script gains exactly one record at the end, the new question with `NextId`; earlier records are unchanged; strictly increasing ids stay strictly increasing and the new id is not in use |
| Questions.DeleteFrom | Slack.php:308-314 | the `delete_question` loop computes `Deleted` of the script |
| Questions.AddedKeepsIncreasing | Slack.php:287-288 | on a script with strictly increasing ids, adding keeps the ids strictly increasing; the new id is not in use, is 1 on an empty script, and is the largest id plus one otherwise |
| Questions.DeletedKeepsIncreasing | Slack.php:308-314 | deleting keeps strictly increasing ids strictly increasing |
| Questions.LastPlusOneOnUnsortedScript | Slack.php:287 | on the unsorted ids 1, 3, 2 the next id is 3, which is already in use, while the largest id plus one is 4 |
| Users.Directory | Slack.php:46-56 | the directory holds exactly the records of members that are not deleted, not bots and not app users; it is no longer than the member list |
| Users.DirectorySingle | Slack.php:47-55 | a one-member list gives that member's record exactly when it is not deleted, not a bot and not an app user |
| Users.DirectoryDistributes | Slack.php:46-56 | the directory of a concatenation is the concatenation of the directories, so records appear once per kept member, in member-list order |
| Users.SlackUsers | Slack.php:45-58 | the `slack_users` loop computes `Directory` of the member list |
| Users.UserData | Slack.php:367-376 | the result is the requested field of the first record with the given id, and `"Undefined"` when no record has that id |
| Engine.Snapshot | Slack.php:114 | a fresh copy of the script has the script's length and asks its questions in script order |
| Engine.Restarts | Slack.php:110-133 | a human event starts from a fresh copy only when the channel has no record or no question list; a stored list whose head is not `Done` is never replaced |
| Engine.StartPending | Slack.php:110-133 | the starting list is a fresh copy of the script when there is no record, when the record has no question list, or when a bot speaks on a list headed by `Done`; otherwise it is the stored list unchanged |
| Engine.NewProfile | Slack.php:137-141 | the profile carries the event's user id, and the name and image of the first directory record with that id, or `"Undefined"` for both when no record has it |
| Engine.CaptureProfile | Slack.php:136-142 | an existing profile is kept; an absent one is set exactly when the sender is human, with the sender's user id |
| Engine.Advance | Slack.php:147-154 | a bot event removes exactly the head; a human event leaves a non-empty list unchanged; a list that would be empty becomes the single `Done` marker, so the result is never empty |
| Engine.FileEntries | Slack.php:172-187 | the attachment list has one entry per upload, in upload order |
| Engine.Classify | Slack.php:158-209 | a bot event gives a bot message (name, avatar, channel, text); a human event with files gives a files entry whose files keep order and fields and have a thumb iff `thumb_480` was supplied; files take precedence over blocks; with blocks only, a text entry; with neither, the blank entry |
| Engine.Step | Slack.php:104-228 | the log grows by exactly the event's entry and is that entry alone on first contact; the pending list restarts from a fresh copy when there is no record, no question list, or a bot speaks after `Done`, and otherwise continues from the stored list, advanced by `Advance`; it is never empty; the profile is kept once set and is set, from the user id and the directory lookups, exactly when absent and the sender is human; a reply exists iff the sender is human and is the head of the updated list |
| Engine.RunAppendsLog | Slack.php:211-218 | over any sequence of events the log is the old log followed by the events' entries in order |
| Engine.RunKeepsProfile | Slack.php:136-142 | once a channel has a profile, no sequence of events changes it |
| Engine.HumanRunKeepsPending | Slack.php:147-148 | human events never advance a non-empty pending list |
| Engine.BotRunExhausts | Slack.php:147-152 | on a fresh channel with K questions, after j bot events (1 <= j < K) the pending list is the questions from position j onward, and after K it is `[Done]` |
| Engine.BotRunRestarts | Slack.php:129-152 | after K + 1 bot events on a fresh channel the pending list is the one the first bot event left |
| Engine.TwoQuestionScenario | Slack.php:104-228 | script Q1, Q2 with bot "Q1", human, bot "Q2", human: pending becomes [Q2], the human is asked Q2, pending becomes [Done], the second human reply is `Done`, and the log has four entries |
| Engine.EmptyScriptFirstHuman | Slack.php:110-152 | with an empty script a first human event creates the record with the profile and a text entry, sets the pending list to `[Done]` and replies `Done` |
| Engine.CopyFiles | Slack.php:172-187 | the attachment loop computes `FileEntries`: same length, names kept, thumb present iff `thumb_480` was |
| Dashboard.Index | Slack.php:327-340 | every line of the index comes from a non-reserved file, with the profile's name or `"undefined"` and the file name, and every non-reserved file has a line; it is no longer than the listing |
| Dashboard.IndexSingle | Slack.php:328-339 | a one-file listing gives one line exactly when the file is not `.`, `..`, `questions.json` or `users.json` |
| Dashboard.IndexDistributes | Slack.php:327-340 | the index of a concatenation is the concatenation of the indexes, so there is one line per non-reserved file, in listing order |
| Dashboard.Conversations | Slack.php:323-343 | the `conversations` loop computes `Index` of the listing |
| App.Slack.constructor | Slack.php:13-17 | keeps the application name and token; the data folder starts empty |
| App.HumanEventsKeepStoredPending | Slack.php:147-156 | on a valid data folder, any run of human events on a stored channel leaves its pending list as it is |
| App.Slack.Handle | Slack.php:104-228 | the channel's record becomes the record `Step` computes from the stored one; no other channel, the script or the directory changes; a reply exists iff the sender is human, and it is `Step`'s reply; `Valid()` is kept |
| App.Slack.Load | Slack.php:110-133 | the pending list, profile and log the event starts from, as `StartPending`, `ProfileOf` and `LogOf` give them |
| App.Slack.Record | Slack.php:158-209 | the entry built for the event is `Classify` of it |
| App.Slack.AddQuestion | Slack.php:278-292 | the script becomes `Added` of the old one; nothing else changes; strictly increasing ids are kept |
| App.Slack.DeleteQuestion | Slack.php:299-317 | the script becomes `Deleted` of the old one; nothing else changes; strictly increasing ids are kept |
| App.Slack.RefreshUsers | Slack.php:249-258 | the cached directory becomes `Directory` of the member list; nothing else changes |

## Left out

- HTTP transport (`send`, `post_curl`, `get_curl`, and the `users.list` request in `slack_users`): these are network calls. `Handle` returns the reply instead of sending it. `RefreshUsers` takes the member list as a parameter.
- File-system plumbing: path building, `file_exists`, `fopen`/`die`, `file_get_contents`, `file_put_contents`, `create_user_file`, `get_questions`, `users`, `conversation`, and `realpath` and `scandir` in `conversations`. Persistence is an in-memory update of the class's fields. `conversations` works on a listing given as a parameter: each file with the profile its record holds, in directory order. The lazy download of the user list when `users.json` is missing is not modelled.
- JSON encoding and decoding, `get_object_vars` and the `array_values` reindexing: the model works on sequences and records directly.
- PHP loose typing, made explicit in the datatypes instead. On an empty script, `count(null) - 1` makes the new id 1. The stored head is compared with `"Done"`, and a question object is never equal to it. A human answered after `Done` would be sent `"Done"->question_text`, which PHP evaluates to null. The model returns `Some(Done)` as the reply and leaves turning it into a message to the caller. Ids and user ids are compared with `==` on their Dafny types, without PHP's numeric-string rules.
- A stored record that is not valid JSON, and a missing `user`, `text` or `bot_profile` key in an event: the model's event and record types always carry these fields.
- App.Slack.constructor: the model starts from an empty data folder, while the PHP object is built per request over a `data/` folder that persists between requests. `Valid()` holds from an empty folder onward under the modelled operations; a hand-edited `questions.json` with unsorted ids lies outside it.
- Concurrency and per-channel locking: the code has none, and the model is single-threaded.
- No operation returns a storage error, because no I/O is modelled.
