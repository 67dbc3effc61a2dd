# Pause/rejoin controller of a Discord voice selfbot

The selfbot keeps a user account connected to one target voice channel,
identified by `GUILD_ID` and `CHANNEL_ID`. A single module-level flag,
`isPaused`, records that the owner wants the account left alone. Three
pieces of logic read and write that flag:

- the `voiceStateUpdate` handler decides whether to pause, rejoin or do
  nothing when the account's own voice state changes;
- the `messageCreate` handler runs three self-authored commands: `&povv`
  (resume and join), `!vc pause` (pause and leave) and `!vc status`;
- `joinVC` and `leaveVC` guard the calls into the voice library.

This project models that controller and proves what it guarantees.

- `normalize.dfy` (module `Normalize`) models `toLowerCase()` and `trim()`,
  which are applied to a message before it is compared with a command word.
- `commands.dfy` (module `Commands`) models how a message is recognised as
  a command.
- `controller.dfy` (module `Controller`) holds the handlers as pure step
  functions over the state (`VoiceStep`, `MessageStep` with `CommandStep`, `JoinStep`,
  `LeaveStep`). It also holds the class `PauseController`, whose field
  `isPaused` is updated in place by methods proved equal to those
  functions. The methods append every voice-library call to `log`: `Join`
  for `joinVoiceChannel`, `Leave` for `connection.destroy()`.
- `traces.dfy` (module `Traces`) runs the handlers over a sequence of
  events and proves properties of whole sessions. Examples: while paused,
  no join is issued until `&povv`; only `&povv` clears the flag; after
  `!vc pause`, nothing more happens until `&povv`.

The state the model tracks is the flag plus one more bit, `connected`.
That bit says whether the voice library holds a connection for the target
guild, which is what `getVoiceConnection` looks up. Reaching
`joinVoiceChannel` sets it, and `leaveVC`'s `destroy` clears it. Each
handler also receives the Discord client's caches as an input value: the
guild map, each guild's channel map, and each channel's member ids.

Points about the code that a reader might expect to be otherwise, each kept
by the model:

- A voice update that leaves voice never clears the flag. It sets the flag
  when the account is cached as a member of the target channel. Otherwise
  it rejoins, and only when not paused.
- A move to another channel rejoins, when not paused; it never pauses.
- The pause at index.js:42 does not destroy the connection, so the flag can
  be set while a connection is held. `Controller.PauseKeepsConnection`
  exhibits this.
- There is no retry timer, join mutex, disconnect grace window or webhook
  notification: a failed join is not retried.
- The voice handler does not check which guild the event came from. The
  model keeps that: the event carries no guild.

## Model

| member | source | states |
|---|---|---|
| `Normalize.LowerChar` | index.js:61 | ASCII capitals become their small letter (code point + 32); every other character is unchanged |
| `Normalize.LowerCharKeepsWhitespace` | index.js:61 | lower-casing neither creates nor removes whitespace, and leaves no capital |
| `Normalize.ToLower` | index.js:61 | `toLowerCase()` keeps the length and lower-cases every character in place |
| `Normalize.TrimStart` | index.js:61 | the result is a suffix of the input, everything removed is whitespace, and it does not start with whitespace |
| `Normalize.TrimEnd` | index.js:61 | the result is a prefix of the input, everything removed is whitespace, and it does not end with whitespace |
| `Normalize.Trim` | index.js:61 | `trim()` gives text that neither starts nor ends with whitespace and is no longer than the input |
| `Normalize.TrimSplit` | index.js:61 | the input is whitespace + trimmed text + whitespace, so trimming removes only whitespace |
| `Normalize.TrimUnique` | index.js:61 | any text with no whitespace at its ends, padded by whitespace on both sides, trims to itself, so trimming is fully determined |
| `Normalize.TrimUnpadded` | index.js:61 | text with no whitespace at either end is unchanged by trimming |
| `Normalize.TrimIgnoresPadding` | index.js:61 | adding whitespace on either side never changes the trimmed text |
| `Normalize.TrimIdempotent` | index.js:61 | trimming twice equals trimming once |
| `Normalize.TrimToLowerCommute` | index.js:61 | lower-casing then trimming equals trimming then lower-casing |
| `Normalize.NormaliseIgnoresPadding` | index.js:61 | the normalised text (`toLowerCase().trim()`) ignores surrounding whitespace |
| `Normalize.NormaliseSplit` | index.js:61 | the normalised text is the lower-case form of a piece of the input with only whitespace around it |
| `Normalize.ToLowerIdentity` | index.js:61 | text with no capitals is its own lower-case form |
| `Commands.Parse` | index.js:60-76 | the message text is lower-cased and trimmed, then compared with `&povv`, `!vc pause` and `!vc status` in that order; anything else is ignored (`ParseMatchesWord` states this as an equivalence with the word table) |
| `Commands.Word` | index.js:63-73 | the three command words are free of capitals and of surrounding whitespace |
| `Commands.ParseMatchesWord` | index.js:61-73 | a message is a given command exactly when its normalised text equals that command's word |
| `Commands.ParseRecognises` | index.js:61-73 | a command word in any mix of capitals, padded with any whitespace, is recognised as that command |
| `Commands.ParseOnlyRecognises` | index.js:61-73 | conversely, a recognised message is its command's word in some mix of capitals between whitespace |
| `Commands.ParseWord` | index.js:63-73 | each command word is recognised as its own command |
| `Controller.TargetResolves` | index.js:89-99 | both of `joinVC`'s cache lookups succeed: the guild is cached, and the channel is cached in it |
| `Controller.SelfInTarget` | index.js:36-38 | the optional chain `guild?.channels.cache.get(channel)?.members?.has(self)`: the target resolves and the account's id is among its cached members |
| `Controller.Falsy` | index.js:34 | `!newVoice` for a channel id: null or the empty string |
| `Controller.PausesOn` | index.js:26-43 | the voice handler's pause branch: an update for the account itself, changing the channel, to no channel, while cached in the target |
| `Controller.RejoinsOn` | index.js:26-53 | the voice handler's two rejoin branches: not paused, and either a disconnect while not cached in the target or a move to a channel other than the target |
| `Controller.TryJoin` | index.js:82-99 | `joinVC` reaches the join exactly when not paused and both cache lookups succeed; it skips first for the pause, then reports a missing guild, then a missing channel |
| `Controller.JoinStep` | index.js:82-113 | `joinVC` never writes the flag; it issues a join only when not paused and the target resolves; afterwards a connection exists exactly when one existed before or a join was issued |
| `Controller.LeaveStep` | index.js:115-125 | `leaveVC` leaves no connection and keeps the flag; it calls `destroy` exactly when a connection existed |
| `Controller.LeaveIdempotent` | index.js:117-121 | a second `leaveVC` makes no call and changes nothing |
| `Controller.VoiceStep` | index.js:24-54 | events about others, or that keep the channel, change nothing; the flag is set exactly when self left voice while cached in the target; a join happens exactly on a disconnect with self not in the target, or a move elsewhere, while not paused and with the target resolving; never a join while paused; moving into the target is a no-op; nothing is left or destroyed |
| `Controller.PauseKeepsConnection` | index.js:40-43 | the pause on leaving voice while cached in the target keeps the existing connection |
| `Controller.StatusReport` | index.js:73-75 | the status line reads PAUSED exactly when paused, else RUNNING |
| `Controller.CommandStep` | index.js:62-76 | `!vc status` and other text change nothing; `&povv` clears the flag, keeps the connection, and joins (opening one) exactly when the target resolves, calling nothing otherwise; `!vc pause` sets the flag and leaves no connection, calling `destroy` only if one existed; only `&povv` clears the flag |
| `Controller.MessageStep` | index.js:57-78 | messages by anyone else change nothing; the account's own message runs the command its normalised text names; the flag is cleared only by a self-authored message recognised as `&povv` |
| `Controller.PauseController.constructor` | index.js:14 | the controller starts not paused, with no connection and no calls made |
| `Controller.PauseController.JoinVC` | index.js:82-113 | the method returns `TryJoin`'s outcome and moves the flag, the connection and the call log exactly as `JoinStep` says |
| `Controller.PauseController.LeaveVC` | index.js:115-125 | the method moves the state and the call log exactly as `LeaveStep` says |
| `Controller.PauseController.OnVoiceStateUpdate` | index.js:24-54 | the handler updates the flag in place and appends exactly the calls `VoiceStep` gives |
| `Controller.PauseController.RunCommand` | index.js:62-76 | the command branches update the flag in place and append exactly the calls `CommandStep` gives; only `!vc status` reports, with the line PAUSED or RUNNING |
| `Controller.PauseController.OnMessageCreate` | index.js:57-78 | the handler updates the flag in place and appends exactly the calls `MessageStep` gives; it reports status only for a self-authored `!vc status` |
| `Traces.Handle` | index.js:24-78 | each event goes to its handler: a voice update to `VoiceStep`, a message to `MessageStep` |
| `Traces.Run` | index.js:24-78 | a session of n events makes at most n voice-library calls |
| `Traces.RunAppend` | index.js:24-78 | handling two event sequences one after the other equals handling their concatenation |
| `Traces.HandlePaused` | index.js:24-86 | one event other than `&povv`, handled while paused, keeps the flag set, issues no join and opens no connection |
| `Traces.PausedUntilResume` | index.js:24-86 | from a paused state, over any events without a self-authored `&povv`, the flag stays set, no join is issued and no connection is opened |
| `Traces.OnlyResumeUnpauses` | index.js:63-69 | if a session starts paused and ends unpaused, one of its events is a self-authored `&povv` |
| `Traces.QuietWhilePaused` | index.js:24-86 | paused with no connection, every event sequence without `&povv` changes nothing and makes no call |
| `Traces.PauseCommandHolds` | index.js:68-72 | after `!vc pause`, the state is paused with no connection, and it and the call log stay fixed until the next `&povv` |
| `Traces.PauseTwiceIsPauseOnce` | index.js:115-121 | sending `!vc pause` twice has the same effect as sending it once |
| `Traces.ResumeCommandRejoins` | index.js:62-67 | a self-authored `&povv` clears the flag from any state, keeps any connection, and issues exactly one join when the target resolves and no call otherwise |
| `Traces.RejoinsWhileRunning` | index.js:44-53 | when not paused, leaving voice without being cached in the target, or moving to another channel, issues exactly one join if the target resolves |

## Left out

- Normalize.ToLower: lower-cases ASCII capitals only. `toLowerCase()` also maps other scripts. This cannot change which command a message is. Of the non-ASCII characters, only U+0130 (to `i` plus a combining dot) and U+212A (to `k`) lower-case to ASCII letters. Neither `i` nor `k` occurs in the three command words.
- Login, the `ready` handler's first join, and `client.login` (index.js:5-22, index.js:80) are session plumbing and are not modelled. The controller starts not paused with no connection.
- `joinVoiceChannel` and `getVoiceConnection`/`destroy` are foreign library calls. They appear only as the `Join` and `Leave` actions and the `connected` bit. The `catch` around them (index.js:110-112, index.js:122-124) is not modelled: a reached join always registers a connection.
- The voice library may drop or destroy a connection on its own. The model changes `connected` only through `joinVC` and `leaveVC`.
- `message.delete()` and its ignored failure are not modelled. All console output is left out except the status line.
- Handlers run atomically, one event at a time. In the source, `&povv` awaits `message.delete()` between clearing the flag and calling `joinVC` (index.js:64-67), and another event could run in that gap. The model does not capture that interleaving.
- `GUILD_ID`/`CHANNEL_ID` missing from the environment (undefined ids) is not modelled. The configured ids are plain strings.
- A voice update whose old state has no member (`oldState.member` null) throws in the source. The model always has a member id.
