# Rezz music bot: a Dafny model of its command logic

Rezz is a chat bot that plays audio in a guild's voice channel. Each slash
command resolves the guild's audio-node player and voice client, checks its
guards, calls into the player library, and replies. This project models the
decision logic of those commands and proves what they promise:

- `Duration` (rezz/utils.py): `get_duration` renders milliseconds as `M:SS`.
  Minutes wrap at 60 and are not padded. Seconds are always two digits.
- `Session`: the per-guild state the handlers see. The `Player` class holds the
  queue, `is_playing`, `paused`, `loop`, `channel_id` and `is_connected`. The
  `VoiceClient` class is the bot's voice client in the guild; its `Disconnect`
  models `LavalinkVoiceClient.disconnect`. The player library itself is not
  modelled. Every call the bot makes into it goes into `Player.calls`, in order.
  `add` appends to the queue, `set_pause` sets `paused`, and `set_loop` sets
  `loop`. `play`, `stop` and `skip` are only recorded.
- `Pagination`: the `queue` command, with ten tracks per page.
- `Search`: the URL test and `ytsearch:` prefixing of `play`, plus the
  classification of the node's load result.
- `Voice`: `_join` and `leave`.
- `Playback`: `play` and its search-button callback, `stop`, `pause`, `resume`,
  `skip`, `loop`, `loopoff`, `looptrack`, `loopqueue` and `shuffle`.
- `Watchdog`: `Bot.track_hook`, the idle disconnect after the queue ends.

Inputs from outside become parameters:

- the user's voice channel (the command decorator guarantees there is one);
- the bot's connect permission;
- the node's answer to a search, as a function from query to load result;
- the draws of `random.shuffle`;
- the values of `player.is_playing` seen after each one-second sleep.

Replies are message datatypes, not embeds.

Behaviour the code fixes that a reader might expect otherwise:

- The page count of an empty queue is 0. An empty queue is refused before the
  page is checked, so no page count is ever shown for it.
- `leave` disconnects without `force`, so it releases nothing while the player
  reports it is not connected.
- The idle watchdog calls `disconnect()` without `force` as well.
- `skip` only calls the player's `skip` `amount` times. What a skip does to the
  queue, the current track and loop modes happens in the player library.

## Model

| member | source | states |
|---|---|---|
| Duration.Decimal | rezz/utils.py:35 | `str(n)` is a non-empty string of digits with no leading zero, one digit exactly when `n < 10` |
| Duration.DecimalRoundTrip | rezz/utils.py:35-38 | reading a rendered number back as decimal gives the number |
| Duration.GetDuration | rezz/utils.py:21-38 | the result is `M:SS` with exactly one `:` three places from the end and digits elsewhere; `M` reads back as `(ms div 60000) mod 60` without padding; `SS` is two digits reading back as `(ms div 1000) mod 60`, starting with `0` exactly when seconds < 10 |
| Duration.MinutesFromSeconds | rezz/utils.py:34-37 | whole minutes are whole seconds divided by 60 |
| Duration.SecondsWithinHour | rezz/utils.py:34-38 | minutes mod 60 times 60 plus seconds mod 60 is seconds mod 3600 |
| Duration.DurationRoundTrip | rezz/utils.py:34-38 | parsing the display as `M*60+SS` gives `(ms div 1000) mod 3600` |
| Duration.SubSecondIgnored | rezz/utils.py:34-36 | dropping the sub-second milliseconds does not change the display |
| Duration.DurationZero | rezz/utils.py:34-38 | `get_duration(0) == "0:00"` |
| Duration.DurationOneMinuteFive | rezz/utils.py:34-38 | `get_duration(65000) == "1:05"` |
| Duration.DurationLastSecondOfHour | rezz/utils.py:34-38 | `get_duration(3599000) == "59:59"` |
| Duration.DurationWrapsAtHour | rezz/utils.py:34-38 | `get_duration(3600000) == "0:00"`: minutes wrap at one hour |
| Session.Player.Add | rezz/bot.py:308 | `player.add` appends the track, attributed to the requester, and records the call; nothing else changes |
| Session.Player.Play | rezz/bot.py:314 | `player.play()` is recorded; nothing else changes |
| Session.Player.Stop | rezz/bot.py:250 | `player.stop()` is recorded; nothing else changes |
| Session.Player.Skip | rezz/bot.py:447 | `player.skip()` is recorded; nothing else changes |
| Session.Player.SetPause | rezz/bot.py:406 | `player.set_pause(b)` sets `paused` to `b` and is recorded |
| Session.Player.SetLoop | rezz/bot.py:498 | `player.set_loop(m)` sets `loop` to `m` and is recorded |
| Session.VoiceClient.Disconnect | rezz/bot.py:75-84 | unforced with the player not connected: nothing changes; otherwise the gateway is told to leave voice, `channel_id` becomes None and the voice client is gone |
| Pagination.PageCount | rezz/bot.py:573-577 | `ceil(n/10)`: zero only for zero tracks, and the pages hold `n` with less than one spare page |
| Pagination.FirstIndex | rezz/bot.py:596 | `queue.index(x)` is the first position holding `x` |
| Pagination.Numbered | rezz/bot.py:592-604 | the entries for `queue[lo..hi]` keep queue order, and each number is one more than the first position of its track |
| Pagination.QueuePage | rezz/bot.py:561-608 | empty queue is reported first; a page is accepted iff `1 <= page <= pages`; an accepted page shows `queue[(page-1)*10 .. min(page*10, len)]` in order, numbered by first occurrence |
| Pagination.ShortQueueShownWhole | rezz/bot.py:598-604 | a queue of at most ten tracks has only page 1, which shows the whole queue |
| Pagination.EveryTrackOnOnePage | rezz/bot.py:587-590 | every queued track appears on page `i/10+1` at place `i mod 10`, and on no other accepted page |
| Pagination.DistinctQueueNumbering | rezz/bot.py:596 | with no repeated track, the number shown is the track's position counted from 1 |
| Pagination.DuplicateNumberedByFirst | rezz/bot.py:596 | a repeated track is numbered no later than its first copy |
| Pagination.TwentyThreeTracks | rezz/bot.py:577-582 | 23 tracks make 3 pages; pages 0 and 4 are out of bounds; page 3 shows 3 tracks |
| Search.WwwOptional | rezz/bot.py:20 | the optional `(?:www\.)?` group never changes whether `.+` matches the rest |
| Search.IsUrl | rezz/bot.py:20 | `url_rx.match(q)`: `http://` or `https://` followed by at least one character that is not a newline |
| Search.UrlStartsWithScheme | rezz/bot.py:20 | anything `url_rx` matches starts with `http` and has more than seven characters |
| Search.UrlIsNotSearch | rezz/bot.py:20 | no string both matches `url_rx` and starts with `ytsearch:` |
| Search.NormaliseQuery | rezz/bot.py:285-286 | the sent query is a link iff the typed one is, starts with `ytsearch:` iff the typed one is not a link, and ends with the typed query |
| Search.NormaliseRoundTrip | rezz/bot.py:285-286 | the typed query is recovered from the sent one |
| Search.NormaliseInjective | rezz/bot.py:285-286 | different typed queries are sent as different queries |
| Search.Select | rezz/bot.py:291-361 | a missing result or no tracks gives "no tracks" before the load type is read; a playlist keeps all its tracks in order; a search offers the first `min(5, n)` tracks in order; a single track is `tracks[0]`; `NO_MATCHES` and `LOAD_FAILED` are recognised; every other type is unknown |
| Search.SevenResultsOfferFive | rezz/bot.py:316-317 | seven search results are offered as their first five |
| Voice.Join | rezz/bot.py:160-186 | a missing connect permission fails before any change; otherwise an existing voice client is asked to move to the user's channel and keeps its recorded channel, and a new one is created in the user's channel and connects there |
| Voice.Leave | rezz/bot.py:224-251 | refused with nothing changed unless the bot's voice client is in the user's channel; otherwise the player is stopped and the client disconnects without force |
| Playback.Reply | rezz/bot.py:292-361 | the reply of `play` for each selection reports exactly what is enqueued: a playlist's track count, the single track, and nothing enqueued for every other reply |
| Playback.EnqueueAndStart | rezz/bot.py:304-314 | all tracks are added in order, then playback is started only if nothing was playing |
| Playback.Play | rezz/bot.py:269-361 | joins first and stops on a missing permission; a voice client that was in another channel makes the command fail with the same-channel error and nothing enqueued; otherwise the reply and queue follow `Select` on the node's answer for the normalised query; only a playlist or a single track is enqueued; auto-start only when nothing was playing |
| Playback.Dispatch | rezz/bot.py:291-361 | the reply follows the selection; a playlist's tracks or the single track are appended in order for the requester, then `play()` only if nothing was playing; every other selection leaves the player unchanged |
| Playback.ChooseResult | rezz/bot.py:320-324 | a chosen search result is appended, and playback starts only if nothing was playing |
| Playback.StopCommand | rezz/bot.py:380-392 | `stop` only tells the player to stop |
| Playback.Pause | rezz/bot.py:394-408 | pauses only a playing player; otherwise replies "not playing" and changes nothing |
| Playback.Resume | rezz/bot.py:410-424 | resumes only a paused player; otherwise replies "not paused" and changes nothing |
| Playback.Skip | rezz/bot.py:426-449 | an empty queue is reported before the amount; an amount below 1 is refused; otherwise exactly `amount` skip calls are made and nothing else changes |
| Playback.LoopLabel | rezz/bot.py:481-484 | a label is shown exactly for modes 0, 1 and 2 |
| Playback.LoopLabelsDistinct | rezz/bot.py:481-484 | the three modes have different labels |
| Playback.ShowLoop | rezz/bot.py:470-486 | `loop` reports the label of the current mode, one of off/track/queue for a valid mode |
| Playback.LoopOff | rezz/bot.py:488-500 | sets mode 0, a valid mode, which `loop` then reports as "off" |
| Playback.LoopTrack | rezz/bot.py:502-515 | sets mode 1, a valid mode, which `loop` then reports as "track" |
| Playback.LoopQueue | rezz/bot.py:517-530 | sets mode 2, a valid mode, which `loop` then reports as "queue" |
| Playback.SwapPermutes | rezz/bot.py:621 | one exchange of two positions keeps the queue's contents |
| Playback.ShuffleFrom | rezz/bot.py:621 | the exchanges of `random.shuffle` from position `i` down keep the length and never touch positions above `i` |
| Playback.Shuffled | rezz/bot.py:621 | `random.shuffle` for the draws keeps the length, and the last position ends with the item the first draw picked |
| Playback.ShuffleFromPermutes | rezz/bot.py:621 | any run of Fisher–Yates exchanges keeps the length and the contents |
| Playback.ShuffledPermutes | rezz/bot.py:621 | the shuffled queue is a permutation of the queue, whatever the draws |
| Playback.Shuffle | rezz/bot.py:610-623 | `random.shuffle` in place leaves the queue equal to the Fisher–Yates result for the draws, a permutation of the old queue; nothing else changes |
| Watchdog.PollUntilPlaying | rezz/bot.py:114-119 | at most `timeout` polls; stops at the first poll that sees playback; runs all `timeout` polls exactly when none sees it |
| Watchdog.TrackHook | rezz/bot.py:99-122 | ignores other events; on queue end it stops the player and polls up to 60 times; all 60 polls run when none sees playback; `disconnect()` is called once iff no poll saw playback and a voice client exists, with `disconnect`'s effect |

## Left out

- The player library (lavalink): what `play`, `stop` and `skip` do to the queue, the current track, `is_playing` and loop modes. These calls are only recorded. The track-boundary and loop-requeue behaviour therefore are not modelled.
- `is_connected` is a field of its own. The library derives it from `channel_id`, but that code is not part of this model. So after `disconnect` the model leaves `is_connected` as it was while `channel_id` becomes None.
- Track equality: tracks are values here. The source compares the library's track objects, so `queue.index` finds duplicates by the library's own equality.
- The chat gateway and UI: command registration, decorators, embeds, buttons, views and sending replies. Replies are message datatypes.
- `VoiceClient.move_to` belongs to discord.py and is not part of this model. The model assumes it leaves the client's `channel` attribute as it was: that attribute is assigned only in the constructor (rezz/bot.py:42), and the voice-state handler that would refresh it is replaced by a relay (rezz/bot.py:64-69). Under this assumption `play` after a move fails its same-channel check, and `leave` from the new channel is refused.
- Playback.Play: `player.store("channel", ...)` is not modelled.
- Voice update relays (rezz/bot.py:57-69), `LavalinkVoiceClient.connect`'s player creation, node configuration, `on_ready`, `setup_hook`, `.env` loading and `run`: configuration and library glue.
- `get_player`: a lookup in the library's player manager. Handlers take the player as a parameter. The case where the guild has no player (rezz/utils.py:19) is not modelled. In that case every handler that reads the player before its first guard fails with an `AttributeError` and sends no reply (for example rezz/bot.py:405, 440, 575, 621). `join` never reads the player. `leave` checks the channel (rezz/bot.py:245-246) before it uses the player (rezz/bot.py:250), so a user in another channel is still refused by that check.
- Pagination.QueuePage: a requester who has left the guild is not modelled. `guild.get_member` then returns None, and reading `.display_name` fails (rezz/bot.py:594-597, 601-604). Entries carry the track with its requester's id, not a display name.
- Playback.Play: an exception raised by `node.get_tracks` (rezz/bot.py:289) is not modelled. In the source `play_error_handler` replies with the error (rezz/bot.py:377-378). The node's answer is a total function here.
- Default arguments: `skip`'s `amount=1` (rezz/bot.py:428) and `queue`'s `page=1` (rezz/bot.py:561) are filled in by the command layer. `Playback.Skip` and `Pagination.QueuePage` take the value explicitly.
- `nowplaying`: it shows `get_duration(duration - position)` and a thumbnail fetched over the network. Only `get_duration` is modelled.
- Thumbnail lookups through `youtube_dl` (rezz/bot.py:329, rezz/bot.py:465): network calls.
- `lowpass` (rezz/bot.py:532-557): a floating-point clamp and a filter inside the library.
- `asyncio.sleep`: each sleep is one step through the sequence of `is_playing` observations.
- Watchdog.TrackHook: the polls are a parameter and are not tied to `Player.isPlaying`. After the watchdog sees playback resume, the model's player still has the `isPlaying` value it had before.
- Concurrency: two queue-end events can start two watchdogs that run at once. The model handles one event at a time.
- Duration.GetDuration: models exact integer arithmetic. The source divides in floating point, which agrees for every duration below 2^53 milliseconds.
- Search result button numbering (`tracks.index(track) + 1`, rezz/bot.py:337) is display only.
