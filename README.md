# Per-guild music queue of a Discord bot, modelled in Dafny

The bot keeps one `MusicPlayer` per guild (server) in a module-level `players`
dictionary. A player holds a FIFO queue of audio sources, the source being
played (`current`), two loop flags (loop one song, loop the whole queue) and a
volume. Chat commands (`play`, `skip`, `stop`, `remove`, `clear`, `volume`,
`loop`, `loopqueue`, `now`, `queue`, `pause`, `resume`) change that state and
drive the guild's voice connection. When a source finishes, or is stopped, the
voice connection fires a callback which schedules `play_next` on the bot's
event loop. `play_next` asks the player's `next` for the following source:
loop-song first, then loop-queue (re-append `current`), else the head of the
queue. A separate helper, `is_url`, decides whether a request is a URL or a
search text.

The model:

- `url.dfy`, module `Url`: `is_url` as a pure predicate, proved equal to "starts
  with one of the 24 prefixes the pattern allows".
- `model.dfy`, module `Model`: a player's state as a value (`PlayerState`) and
  the rules of `add`, `next`, `remove`, `clear`, `volume`, `loop`, `loopqueue`
  and `now` on it. A source is a `Track`: its title and its volume
  transformer's volume. Volumes are integer percentages (0.5 is 50).
- `voice.dfy`, module `Voice`: the voice connection reduced to an
  `Idle`/`Playing`/`Paused` status, a count of completion callbacks fired but
  not yet run, and the list of sources it was told to play, with a
  `VoiceClient` class over those fields.
- `player.dfy`, module `Player`: the `MusicPlayer` class. Its fields are updated
  in place; `Add` and `Next` are proved against `Model.Add` and `Model.Next`.
- `session.dfy`, module `Session`: one guild (player and connection) as a value,
  and what each command handler and each playback event does to it.
- `bot.dfy`, module `Bot`: the `MusicBot` class with the `players` map,
  create-on-demand `GetPlayer`, and one method per command handler. Each
  handler is proved against the matching `Session` or `Model` function on the
  guild it serves, and touches no other guild's player (`Confined`). The
  invariant `Valid` says every player is coherent (loop flags exclusive, volume
  at most 100) and no two guilds share a player object.
- `properties.dfy`, module `Properties`: runs of commands and playback events on
  one guild, and what they guarantee.

A completion is two events in the model: the device side (`TrackEnds`, or the
`stop()` inside `skip` and `stop`), which makes the device idle and adds one
pending callback, and the bot side (`Deliver`), on which the event loop runs
one pending `play_next`. Between the two, any command may run. This is how the
model shows the interaction between `stop` and a callback that is still
pending.

Behaviour of the code worth knowing:

- `stop` does not bypass the advance path. It calls the device's `stop()`, whose
  completion callback still runs `play_next`. So with a non-empty queue the
  next source starts (`Properties.StopThenCallbackStartsHead`). A request made
  between the stop and the callback can be left playing with nothing current
  (`Properties.StaleCallbackClearsCurrent`).
- `stop` and `skip` act only on a playing device. A paused source is neither
  stopped nor skipped, and `stop` keeps the queue.
- `pause`, `resume` and `skip` do nothing, and send no reply, when the device
  is in the wrong state. `remove` with a bad index replies with an error and
  leaves the queue unchanged, but it looks the player up first, so it may
  create the guild's player.
- `volume` changes the player's volume and the current source's volume. Sources
  already queued keep the volume they were given when they were requested.
- Nothing in app.py disposes sources or downloaded files, loads playlists or
  classifies resolution errors.

## Model

| member | source | states |
|---|---|---|
| `Url.IsUrlIffPrefix` | app.py:51-56 | `Url.IsUrl` models `is_url`: an optional scheme, then an optional `www.`, then a domain. The lemma proves that it accepts a string exactly when it starts with one of the 24 prefixes: optional `http://`/`https://`, optional `www.`, then one of the four domains. The match is anchored at the start only. |
| `Model.Add` | app.py:128-129 | The queue grows by one, with the source at the tail and the old queue before it. `current`, the flags and the volume are unchanged. |
| `Model.Next` | app.py:131-138 | Loop-song with a current source returns it and keeps the queue. Loop-queue with a current source returns the old head, or the current source if the queue was empty; the queue keeps its length and becomes `(queue + [current])[1..]`. Otherwise it returns and removes the head, or returns None and leaves everything unchanged when the queue is empty. It returns None exactly when the queue is empty and no loop applies. `current`, flags and volume are never touched. |
| `Model.Remove` | app.py:254-263 | For 1 <= index <= length, returns the source at 0-based position index-1. That one element is deleted and the others keep their relative order (index by index). Any other index changes nothing. |
| `Model.Clear` | app.py:266-269 | The queue becomes empty; `current`, flags and volume are kept. |
| `Model.SetVolume` | app.py:272-283 | A percentage outside 0..100 changes nothing. Otherwise the player's volume becomes it, the current source (if any) takes it, and the queue and flags are unchanged. Coherence is preserved. |
| `Model.ToggleLoop` | app.py:286-291 | Loop-song flips and loop-queue is switched off; nothing else changes. With a valid volume, the result is coherent. |
| `Model.ToggleLoopQueue` | app.py:294-299 | Loop-queue flips and loop-song is switched off; nothing else changes. With a valid volume, the result is coherent. |
| `Model.NowPlaying` | app.py:302-308 | Returns a title exactly when there is a current source, and that title is the current source's. |
| `Bot.MusicBot.constructor` | app.py:140 | The registry starts empty (`players = {}`) and satisfies the bot's invariant. |
| `Player.MusicPlayer.constructor` | app.py:121-126 | A new player has an empty queue, no current source, both loops off and volume 50 (0.5). |
| `Player.MusicPlayer.Add` | app.py:128-129 | Updates the fields in place as `Model.Add` says, and keeps the player coherent. |
| `Player.MusicPlayer.Next` | app.py:131-138 | Returns the source and leaves the fields updated in place as `Model.Next` says, and keeps the player coherent. |
| `Session.Play` | app.py:196-209 | The request takes the player's volume. If the device is neither playing nor paused and nothing is current, it becomes current, the queue is unchanged and the device starts it. Otherwise it joins the tail of the queue, and `current` and the device are unchanged. Either way the player holds the request exactly once more (multiset of queue plus current). |
| `Session.PlayNext` | app.py:165-176 | `current` becomes what `next` returned (None when nothing is left), with the queue as `next` leaves it. An idle device starts that source; a busy device, or no source, leaves the device unchanged. |
| `Session.Skip` | app.py:226-230 | A skip is the same transition as the current source running out on its own. |
| `Session.Stop` | app.py:233-239 | `current` becomes None and the queue is kept. A playing device goes idle and fires its completion callback; a paused or idle device is unchanged. |
| `Bot.MusicBot.GetPlayer` | app.py:140-147 | Returns the guild's registered player, and repeated calls return the same object with the map unchanged. A guild without a player gets a fresh one inserted; every other entry is untouched. |
| `Bot.MusicBot.Play` | app.py:196-209 | The guild's player and connection change as `Session.Play` says; other guilds' players are unchanged. |
| `Bot.MusicBot.PlayNext` | app.py:165-176 | The guild changes as `Session.PlayNext` says; other guilds are unchanged. |
| `Bot.MusicBot.Deliver` | app.py:175 | The guild changes as `Session.Deliver` says. Running one pending completion callback consumes it and runs `PlayNext`; with none pending, nothing changes. |
| `Bot.MusicBot.Pause` | app.py:212-216 | A playing device is paused; otherwise nothing changes. |
| `Bot.MusicBot.Resume` | app.py:219-223 | A paused device resumes; otherwise nothing changes. |
| `Bot.MusicBot.Skip` | app.py:226-230 | Only stops a playing device; no player is looked up or changed. |
| `Bot.MusicBot.Stop` | app.py:233-239 | The guild changes as `Session.Stop` says. |
| `Bot.MusicBot.Remove` | app.py:254-263 | Returns the removed source (None for an invalid index) and updates the queue as `Model.Remove` says. |
| `Bot.MusicBot.Clear` | app.py:266-269 | The guild's player changes as `Model.Clear` says. |
| `Bot.MusicBot.Volume` | app.py:272-283 | An out-of-range percentage leaves even the player map unchanged, because the check comes before `get_player`. Otherwise the player changes as `Model.SetVolume` says. |
| `Bot.MusicBot.Loop` | app.py:286-291 | The guild's player changes as `Model.ToggleLoop` says. |
| `Bot.MusicBot.LoopQueue` | app.py:294-299 | The guild's player changes as `Model.ToggleLoopQueue` says. |
| `Bot.MusicBot.ListQueue` | app.py:242-246 | Returns the queued titles, head first, one per queued source; the player is unchanged. |
| `Bot.MusicBot.Now` | app.py:302-308 | Returns the current title as `Model.NowPlaying` says; the player is unchanged. |
| `Properties.ApplyKeepsCoherent` | app.py:286-299 | Every command and playback event keeps the loop flags exclusive and the volume at most 100. |
| `Properties.RunKeepsCoherent` | app.py:286-299 | So does every sequence of them. |
| `Properties.LoopFlagsExclusive` | app.py:121-126 | Starting from a player created on demand, no sequence of commands and events leaves both loop flags on. |
| `Properties.LoopTwiceRestores` | app.py:287-290 | With loop-queue off, `loop` twice restores the player. |
| `Properties.VolumeIdempotent` | app.py:274-281 | Setting the same volume twice equals setting it once. |
| `Properties.RemoveUndoesAdd` | app.py:254-260 | Removing the last position right after `add` returns the added source and restores the player. |
| `Properties.RemoveTakesOne` | app.py:257-260 | A valid `remove` changes the queue's multiset by exactly the removed source. |
| `Properties.BusyPlaysQueue` | app.py:203-209 | While the guild is busy, every request joins the queue in request order, each at the player's volume. |
| `Properties.FirstPlayActivates` | app.py:203-209 | On an idle guild, the first of several requests starts at once and all later ones are queued behind it, in request order. |
| `Properties.CompletionsPlayQueueInOrder` | app.py:165-176 | With no loop on, completions start the queued sources in FIFO order. After one completion per queued source plus one for the source playing now, the device has been told to play exactly the queue, in order, and is idle; the queue is empty and nothing is current. |
| `Properties.LoopSongRepeats` | app.py:132-133 | With loop-song on, a completion starts the current source again and changes nothing else. |
| `Properties.LoopQueueRotates` | app.py:134-137 | With loop-queue on, current source plus queue form a ring. Each completion turns the ring by one place, and the device starts the sources in ring order. |
| `Properties.LoopQueueFullTurn` | app.py:134-137 | One full turn of the ring restores the player. The device has then started the whole queue and finally the source that was current. |
| `Properties.SkipsAdvanceLikeCompletions` | app.py:226-230 | Any number of skips, each followed by its callback, leaves the guild in the same state as the same number of natural completions. |
| `Properties.StopThenCallbackStartsHead` | app.py:233-239 | A stop does not halt the queue: the callback it fires starts the head of the queue. This holds whatever the loop flags are, because `current` is emptied first; even under loop-song the stopped source is not replayed. The flags are kept. |
| `Properties.StaleCallbackClearsCurrent` | app.py:169-172 | With no loop on: stop, then a request that starts at once, then the stale callback on an empty queue: `current` becomes None while the device keeps playing the new source. |

## Left out

- Discord I/O: `join`, `leave`, every `ctx.send` reply, `ctx.typing`, `bot.run` and token loading (app.py:17-30, 150-163, 312). They are network and UI.
- Source resolution through yt-dlp and FFmpeg (`YTDLSource.from_url`, `search_and_play`, app.py:59-117): foreign library calls. A request enters the model already resolved to a `Track`. A failed resolution (app.py:197-199) only sends a reply and changes no state. `is_url` is modelled, but the choice of resolver it drives is not.
- Bot.MusicBot.Play: starts after the join-on-demand at app.py:181-184 and takes a connected voice client. The case where joining fails and `vc` stays `None` is not modelled.
- The handlers take a connected voice client. The `AttributeError` that `pause`, `resume`, `skip`, `stop` and `play_next` raise when `ctx.voice_client` is `None` is not modelled.
- The cross-thread bridge `asyncio.run_coroutine_threadsafe` (app.py:175, 205) is replaced by a pending-callback count and the explicit `Deliver` event. The order in which pending callbacks and commands interleave is left to the caller of the model.
- The voice client is an abstraction of discord's, which this repository does not contain. Its `play()` refuses a source unless the device is idle, and then changes nothing; this matches the exception `play_next` would swallow while a source plays. On a paused device the model also refuses. Discord's client would instead start the new source and leave the paused one suspended, so that its callback never fires; the model does not capture that outcome.
- Float volume (`vol / 100`, app.py:278-281) is an integer percentage. Audio scaling by the transformer is not modelled.
- Formatting of the queue listing (app.py:248-251) is presentation only. `ListQueue` returns the titles.
- Sources are values (title and volume), not objects, so object identity is not modelled. No reachable state puts the current source in the queue too, so no aliasing is lost.
- Replaying an already consumed FFmpeg source, under loop-song (app.py:133) or after loop-queue re-appends the same `current` object (app.py:135): the model's device simply starts it again. `LoopSongRepeats`, `LoopQueueRotates` and `LoopQueueFullTurn` rely on that.
