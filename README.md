# Playback queue of a Discord music bot, in Dafny

`bot.py` is a Discord bot that plays local audio files into a voice channel.
Its slash commands `/play`, `/stop`, `/skip`, `/queue` and `/leave` share three
pieces of global state:
- `song_queue`, a FIFO of file paths.
- `bot_is_playing`, the "busy" flag.
- `current_vc`, the voice client.

A self-rescheduling `play_next` loop is driven by the player's `after`
callback. This project models that controller, together with the pure pieces it relies on:
- the `/play` autocomplete (case-insensitive substring match over the music folder, at most 25 choices)
- the `/queue` listing (numbered basenames under a title, truncated at 1900 characters)
- `os.path.join`
- `os.path.basename`

The event loop is cooperative, so each command handler and each `play_next`
pass is one atomic transition. The player's `after` callback is treated the
same way, as one event between handlers (see "## Left out").
The model is built in four layers:
- **`Playback`** holds the controller as pure functions on a `State` value. Besides the queue, the flag and the link, the state records three things:
  - whether the voice client is playing;
  - how many completion callbacks are still owed by players that were told to stop;
  - how many `play_next` tasks have been created but have not run yet.
- **`Playback.Step`** turns every command, callback, scheduled task and connection loss into one `Event`, and `Playback.Run` runs a sequence of them.
- **`Bot.Player`** is a class with one field per piece of state. Only `queue`, `busy` and `link` are the bot.py globals (`song_queue`, `bot_is_playing`, `current_vc`). The other three abstract what lies outside bot.py: `playing` stands for the voice client's player, `owed` for the callbacks that stopped players still owe, and `scheduled` for the `play_next` tasks waiting on the event loop. Each handler is a method that changes the fields in place. Each method is proved to reach exactly the state and reply of the matching `Playback` function, and to keep the busy invariant.
- **`Text`, `Files`, `QueueListing` and `Autocomplete`** model the string, path and listing code.

`/play` joins or moves to the requester's channel before it checks the song
file (bot.py:170-197). So a `NotFound` reply can follow a connect or a move,
and `Playback.Request` keeps this. A move keeps the voice client. A connect
replaces it by a new client that is not playing (bot.py:173), so a player left
on the old client counts as stopped and still owes its callback
(`Playback.Joined`).

The voice client refuses to start a second track while one is playing, and
`play_next` catches that refusal like any other setup error (bot.py:77-86).
So a `play_next` task that was scheduled earlier and runs during playback
takes the next song and drops it (`Playback.StaleAdvanceDropsSong`). Each
failed pass schedules another one, so the passes that follow keep dropping
queued songs, one after another, until the queue is empty or the track ends
(`Playback.StalePassesDrainQueue`). This is the behaviour of the code as
written, and the model keeps it.

## Model

| member | source | states |
|---|---|---|
| `Playback.Halt` | bot.py:214 | stopping the voice client ends playback and leaves one completion callback owed; nothing else changes |
| `Playback.Advance` | bot.py:37-108 | with an empty queue or no live connection only busy is cleared; otherwise exactly the head of the queue is taken (FIFO) and announced; it plays iff the file exists, setup does not fail and nothing is playing; a missing or failed file schedules exactly one more pass and leaves busy clear |
| `Playback.AfterPlaying` | bot.py:54-63 | the player callback clears busy and schedules exactly one `play_next`, whatever the error, touching nothing else |
| `Playback.Joined` | bot.py:170-187 | after a move the voice client and its player are kept; after a connect the new client plays nothing and a track left playing on the old client owes one more callback; queue, busy and pending tasks are untouched |
| `Playback.Request` | bot.py:155-205 | a requester outside voice gets `NotInVoice`, a failed connect `JoinFailed`, a failed move `MoveFailed`, each with nothing changed; otherwise the state is the joined one of `Playback.Joined` (connected, and on a fresh connect nothing playing), even when the file is not found; the reply is `NotFound` iff the joined request names no regular file, and `Added` iff it names one; then the path is appended to the end of the queue, the reported length is the new queue length, and `play_next` runs at once iff busy was clear |
| `Playback.Stop` | bot.py:213-227 | when connected: reports the number of queued songs, empties the queue, stops the player, clears busy; otherwise nothing changes |
| `Playback.Skip` | bot.py:235-246 | a playing track is stopped and busy is left for its callback; a busy controller with nothing playing clears busy and schedules one `play_next`; otherwise nothing changes; the queue is never touched |
| `Playback.Leave` | bot.py:286-304 | like `/stop`, then the voice client is dropped; without a connection nothing changes |
| `Playback.StepIsFifo` | bot.py:31 | for every event, old queue + what it adds == what it takes + new queue, and whatever is taken comes off the front |
| `Playback.RunIsFifo` | bot.py:31 | over any sequence of events, songs leave the queue in the order they were in it or were added: none lost, duplicated or reordered |
| `Playback.StepKeepsInv` | bot.py:33 | every event keeps the busy invariant: busy is set only while a track plays, a stopped player owes a callback, or a `play_next` is scheduled |
| `Playback.RunKeepsInv` | bot.py:33 | the busy invariant holds after any sequence of events from a state where it holds, so the loop cannot stall with busy set and nothing pending |
| `Playback.MissingFilesAreSkipped` | bot.py:87-97 | when the first k queued files are gone and the next exists, k+1 scheduled passes drop exactly those k in order and start the next one |
| `Playback.DropsHead` | bot.py:77-97 | a pass whose head file is missing, or that runs while a track plays, drops exactly that head song, reports it as missing or failed, and leaves the remaining passes to continue from the shortened queue |
| `Playback.StartsFound` | bot.py:46-66 | a pass that finds the head song on disk with nothing playing starts it, takes it off the queue and leaves busy set |
| `Playback.ReconnectPlays` | bot.py:170-205 | a `/play` that connects afresh while busy is clear and nothing is queued starts its song at once, whatever the old client was playing |
| `Playback.ReconnectForcesSkip` | bot.py:235-244 | after a `/play` that connects afresh (bot.py:173) while busy is set, `/skip` finds nothing playing and takes the forced path: busy cleared, one `play_next` scheduled |
| `Playback.OneStartFromIdle` | bot.py:203-205 | two `/play` requests while idle hand exactly one track to the player; the second only queues |
| `Playback.StopSettlesIdle` | bot.py:213-227 | `/stop` during playback, then the stopped player's callback and its `play_next`, clears the whole queue and ends idle with nothing playing |
| `Playback.SkipPlaysNext` | bot.py:235-238 | `/skip` during playback, then the callback and its `play_next`, plays the next queued song and leaves the rest of the queue |
| `Playback.LeaveTwice` | bot.py:286-304 | a second `/leave` finds no connection and changes nothing |
| `Playback.DisconnectedKeepsQueue` | bot.py:98-100 | a `play_next` without a live connection keeps the queue and clears busy |
| `Playback.StalePassesDrainQueue` | bot.py:77-86 | n passes in a row during playback drop the first n queued songs in order, each reported as missing or failed; busy ends clear and the track keeps playing |
| `Playback.StaleAdvanceDropsSong` | bot.py:41-86 | a stale `play_next` running during playback drops the next song and clears busy while the track still plays |
| `Bot.Player.constructor` | bot.py:31-33 | the bot starts with an empty queue, busy clear and no voice client |
| `Bot.Player.HaltPlayer` | bot.py:214 | the fields move as `Playback.Halt` says, and the busy invariant is kept |
| `Bot.Player.Drain` | bot.py:216-223 | the loop removes every queued song and counts exactly the old queue length, leaving the other fields alone, and the busy invariant is kept |
| `Bot.Player.PlayNext` | bot.py:37-108 | the fields and the notice are exactly those of `Playback.Advance`, and the busy invariant holds afterwards |
| `Bot.Player.AfterPlayingCallback` | bot.py:54-63 | the fields move as `Playback.AfterPlaying` says, and the busy invariant holds afterwards |
| `Bot.Player.TrackEnds` | bot.py:54-66 | a finished track's callback moves the fields as the `TrackEnded` event does and keeps the invariant |
| `Bot.Player.StoppedPlayerCallback` | bot.py:54-63 | a stopped player's callback moves the fields as the `StoppedPlayerDone` event does and keeps the invariant |
| `Bot.Player.RunScheduled` | bot.py:61 | a scheduled `play_next` running moves the fields as the `ScheduledAdvance` event does and keeps the invariant |
| `Bot.Player.Play` | bot.py:155-205 | fields and reply are exactly those of `Playback.Request`, including the stop of the old player on a fresh connect; the invariant is kept |
| `Bot.Player.StopAll` | bot.py:213-227 | fields and reply are exactly those of `Playback.Stop`; the invariant is kept |
| `Bot.Player.SkipCurrent` | bot.py:235-246 | fields and reply are exactly those of `Playback.Skip`; the invariant is kept |
| `Bot.Player.LeaveChannel` | bot.py:286-304 | fields and reply are exactly those of `Playback.Leave`; the invariant is kept |
| `Bot.Player.ShowQueue` | bot.py:254-277 | `/queue` sends the listing of the current queue without consuming it, and the empty-list text for an empty queue |
| `QueueListing.QueueText` | bot.py:254-277 | an empty queue gives the empty-list text; otherwise the message starts with the title line, is sent whole when at most 1900 characters, and is otherwise its first 1900 characters followed by the overflow note |
| `QueueListing.ListingLines` | bot.py:263-270 | read line by line, the listing is the title followed by one line per queued song, numbered from 1 in queue order, with its basename |
| `Autocomplete.Suggestions` | bot.py:115-130 | at most 25 choices; none when the folder cannot be listed |
| `Autocomplete.AllMatchesMembers` | bot.py:118-120 | a name is a match iff it is in the folder listing, is a regular file and contains the typed text ignoring case |
| `Autocomplete.TakeIsPrefix` | bot.py:123 | `matches[:25]` is a prefix of the matches of length at most 25, and all of them when it is shorter than 25 |
| `Autocomplete.TakeOfAppend` | bot.py:123 | `[:n]` of a list whose first part already has n elements depends only on that part |
| `Autocomplete.SuggestionsArePrefix` | bot.py:123 | the choices are the leading matches in directory order, all of them when fewer than 25 |
| `Autocomplete.SuggestionsSound` | bot.py:118-125 | every choice is a regular file of the folder whose name contains the typed text ignoring case |
| `Autocomplete.SuggestionsComplete` | bot.py:118-125 | when fewer than 25 choices are offered, every matching regular file is among them |
| `Autocomplete.SuggestionsPreferEarlier` | bot.py:123 | once the start of the listing holds 25 matches, later entries never change the choices |
| `Autocomplete.FilterMembers` | bot.py:118-120 | a list comprehension with a condition keeps exactly the elements satisfying it |
| `Autocomplete.FilterAppend` | bot.py:118-120 | a list comprehension with a condition keeps the order of its input |
| `Autocomplete.MatchingIgnoresCase` | bot.py:120 | matching gives the same answer on lower-cased text and name |
| `Text.LowerStringIdempotent` | bot.py:120 | lower-casing twice is lower-casing once |
| `Text.ContainsAt` | bot.py:120 | the needle occurring at some position makes `in` true |
| `Text.ContainsWitness` | bot.py:120 | `in` being true yields a position where the needle occurs |
| `Text.BasenameIsLastComponent` | bot.py:44 | the basename holds no '/', is a suffix of the path, and is preceded by a '/' when shorter than the path |
| `Text.BasenameAfterSlash` | bot.py:264 | the basename of a folder ending in '/' joined with a plain file name is that name |
| `Text.NatToString` | bot.py:265 | the decimal text of a number is non-empty and all digits |
| `Text.ParseNatToString` | bot.py:265 | reading the decimal text of a number back gives the number |
| `Text.SplitJoinLines` | bot.py:270 | splitting at newlines undoes `"\n".join` of lines without newlines |
| `Files.PathJoin` | bot.py:193 | an absolute name replaces the folder; otherwise the result starts with the folder and ends with the name |

## Left out

- Discord itself is not modelled: slash-command registration, `defer`, the followup messages and their delivery failures, `on_ready` and the command sync. Replies are datatypes; their texts are not modelled, except the `/queue` listing.
- FFmpeg and the audio player internals are not modelled. The player is reduced to "is playing", and a failed setup is the parameter `setupFails`.
- Connecting, moving and disconnecting are reduced to whether they succeed (the parameter `linkOk`). The two ways a connect can fail (`ClientException` or any other error) are one reply, `JoinFailed`. The requester's voice state is the parameters `inVoice` and `sameChannel`. A connection lost from the outside is the event `ConnectionLost`.
- The filesystem is a `Disk` value that answers `os.path.exists` and `os.path.isfile`. Directory listing is an `Option` parameter, and `None` stands for a listing that raised.
- Reading the token from the environment, creating the music folder at start-up, and `bot.run` are out of scope, because they are process bootstrap.
- `song_queue.task_done()` is not modelled. Nothing ever calls `join()` on the queue, so its counter has no observable effect.
- The `await`s inside `play_next` and the handlers are treated as not suspending. So the events of another handler cannot interleave inside a handler. The real event loop could run another task while a followup message is being sent.
- The idle auto-disconnect in `play_next` (bot.py:102-108) is commented out in the source, so it is not modelled.
- `str.lower()` is modelled for ASCII letters only. Full Unicode case mapping is out of scope.
- `after_playing` runs on the audio player's own thread, not on the event loop. From there it calls `bot_is_playing.clear()` and `bot.loop.create_task` (bot.py:54-63, 58, 61). The model treats the whole callback as one atomic event between two handlers. So it does not capture a handler that reads `bot_is_playing` while the callback is half done, nor the thread-safety of calling `create_task` from another thread.
- `Playback.Step` treats a callback or task that is not pending (a `TrackEnded` with nothing playing, say) as a no-op. In the real system such an event simply does not happen.

