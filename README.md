# Melodix playback core in Dafny

A verified model of the core of Melodix, a Discord music bot, in three parts:

- **The per-guild player** (`music/player/player.go`, module `Playback` in `player.dfy`). It has a FIFO song queue, the current song, a playback status (Resting, Playing, Paused, Error), optional voice, streaming and encoding session handles, and the single-slot skip channel. The `Player` class has the same fields and its methods change them as the Go methods do.
  - The voice transport, the dca encoder and streamer, and the history recorder are not modelled. The player reads five things from them: whether encoding and speaking succeeded, the encoder's elapsed duration, the stream's playback position, the song duration parsed from the download URL, and the error of the history call. These arrive as parameters.
  - Each call the player makes on its history recorder (the `music/history` package, which is not part of this model) is appended to a `stats` trace.
  - A recursive `Play` call is not made. The operation returns it as a `Followup` value for the caller to carry out.
  - `Play` is split at its `select`. `Play` covers the start: dequeue, encode, wait for voice, speak, attach the stream, become Playing, record the track. `OnStreamEnd` covers the end: resume, restart a live stream, record the play, go Resting, stop or play the next song.
  - The pure function `Decide` states the end-of-play decision. `OnStreamEnd` is proved to take that decision and to make the history call exactly when `RecordsCount` holds.
- **Command handling** (`internal/melodix/discord.go`, module `Melodix` in `discord.dfy`):
  - routing a canonical command and its parameter to a handler, including the pause → resume → play `fallthrough` chain;
  - building a playlist from resolved parameters;
  - enqueueing a playlist and deciding whether to start playback;
  - the queue shown to the user;
  - the history sort key;
  - the avatar rate limit.

  Parsing, alias resolution and the song resolvers are inputs. `strconv.Atoi` is modelled, because it decides which "id" entries are dropped.
- **Play history** (`internal/melodix/history.go`, module `History` in `history.dfy`). The `db` package is not part of this model. An in-memory `Store` stands in for it: a track table whose ids are 1, 2, 3, … in insertion order, and a history table with at most one row per (track, guild). The history operations are methods over that store. They are proved to:
  - keep the store invariant;
  - touch only the row they look up;
  - return the lookup error and change nothing when a lookup fails.

Where the code differs from its documentation or from its evident intent:

- **Skip on an idle player.** Skip on a Resting player with no current song and an empty queue is not a no-op. It fills the skip slot, `Play(0, nil)` finds nothing, and the status is then set to Playing with no song. `Playback.SkipWhileIdle` exhibits this.
- **Resting and the current song.** "Resting exactly when there is no current song" is not kept. Skip leaves the song in place while Resting, and `Play` with an explicit song keeps `CurrentSong`.
- **The single-slot skip guard.** Skip sends on a channel with room for one signal and does nothing when that slot is full. A Play waiting in its `select` takes the signal at once, so the slot stays empty and every skip during playback advances the queue. The guard stops a second advance only when no Play is waiting, for example when an idle skip has left a signal in the slot. `Playback.RapidSkipsEachAdvance` exhibits the first case.
- **Stop and the encoding session.** Stop cleans up the encoding session but does not clear the field.
- **Resume decides on a wrong duration.** The song duration computed by `metrics` is the parsed duration times 10^9, wrapped to int64 (see Findings). Whether a song is resumed then depends on where that product wraps. A 180 s song wraps negative and is never resumed, even when it stopped early. A 185 s song wraps to a large positive value and is resumed even after it streamed to its real end. The model keeps the duration as written (`Playback.SongDurationAsWritten`) beside the intended one, and its decisions use the intended one.

## Model

| member | source | states |
|---|---|---|
| Playback.StatusName | music/player/player.go:64-73 | String renders each status as a non-empty word of ASCII letters |
| Playback.StatusEmoji | music/player/player.go:75-84 | StringEmoji renders each status as one symbol, followed at most by the emoji variation selector U+FE0F |
| Playback.StatusNamesDistinct | music/player/player.go:64-84 | String and StringEmoji render the four statuses pairwise differently |
| Playback.Int64 | music/player/player.go:485 | Go's int64 wrap-around: the result lies in [-2^63, 2^63) and is congruent to the argument modulo 2^64 |
| Playback.SongPosition | music/player/player.go:468-486 | the position is the encoder's start offset plus its elapsed duration; the streamed position cancels out |
| Playback.Metrics | music/player/player.go:467-492 | the intended metrics: duration is the parsed duration, position is start offset plus encoded duration |
| Playback.ResumeOffset | music/player/player.go:398 | the resume offset is the position in whole seconds rounded down: offset·10^9 ≤ position < (offset+1)·10^9 |
| Playback.Decide | music/player/player.go:382-463 | a skip signal interrupts exactly when received; an on-demand song resumes iff voice, stream and song are present, status is Playing, the encoder produced output and 0 < position < duration, at the floored offset; a live stream restarts iff attached and Playing; otherwise a non-EOF history error goes Resting, else an empty queue stops and a non-empty one plays next |
| Playback.Player.constructor | music/player/player.go:118-128 | a new player is Resting with an empty queue, no song, no sessions and an empty skip slot |
| Playback.Player.Enqueue | music/player/player.go:171-178 | the song is appended at the tail and nothing else changes |
| Playback.Player.Dequeue | music/player/player.go:181-195 | an empty queue yields nil and stays empty; otherwise the head is returned and the tail remains |
| Playback.Player.ClearQueue | music/player/player.go:198-209 | the queue is empty afterwards (so a second call changes nothing) and no other field is touched |
| Playback.Player.SetCurrentStatus | music/player/player.go:500-504 | only the status changes, to the given one |
| Playback.Player.SetVoiceConnection | music/player/player.go:517-521 | only the voice connection changes, to the given one |
| Playback.Player.Stop | music/player/player.go:212-246 | from any state: empty queue, no voice, no stream, no song, Resting; the encoding session is released but kept |
| Playback.Player.Pause | music/player/player.go:249-264 | Playing becomes Paused (and the stream paused) iff voice and stream exist; otherwise nothing changes |
| Playback.Player.Unpause | music/player/player.go:267-287 | nothing without voice; with a stream Paused becomes Playing; Play(0, nil) then Playing is asked for iff the queue is non-empty and the player is Resting |
| Playback.Player.Skip | music/player/player.go:131-168 | per status: Error and Playing/Paused without voice or song change nothing; otherwise Resting, and only with an empty slot the play is counted, the slot filled and Play(0, nil) asked for (then Playing in the Resting branches); a Resting song without voice dereferences nil |
| Playback.Player.Play | music/player/player.go:290-357 | without a song the head is dequeued (an empty queue ends Resting); with one CurrentSong is kept; encoding failure, waiting for voice and speak failure stop early with the stated state; otherwise the stream is attached, the player is Playing and the track is recorded |
| Playback.Player.OnStreamEnd | music/player/player.go:382-463 | the decision taken is Decide of the old state; the play count is recorded exactly when RecordsCount holds; the skip slot is emptied only by an interruption; the follow-up and new state of each decision |
| Playback.QueueIsFifo | music/player/player.go:171-195 | enqueue a, b, c then dequeue four times gives a, b, c, nil |
| Playback.RapidSkipsEachAdvance | music/player/player.go:131-148 | two quick skips while a song plays and another waits: the waiting Play takes the first signal, the next song starts, and the second skip counts that song and advances again, its signal waiting in the slot for the Play of that song |
| Playback.SkipWhileIdle | music/player/player.go:159-164 | a skip on an idle empty player leaves it Playing with no song and a pending skip |
| Playback.ResumeAtRealEndAsWritten | music/player/player.go:480-486 | a 185 s song that streamed all 185 s: the duration as written is 532559262904483840 and the song is resumed; with the intended duration the next song is played |
| Playback.ResumeExample | music/player/player.go:480-486 | start 10 s, streamed 30 s, encoded 41 s, 180 s song: the intended duration resumes at 51 s; the duration as written is -4467440737095516160 and no resume happens |
| Playback.LiveStreamRestarts | music/player/player.go:404-416 | an attached live stream that ends while Playing is always restarted from 0 |
| Melodix.Route | internal/melodix/discord.go:60-124 | no handler for another guild, an inactive instance, an unparsed command or one outside the ten known commands; pause handler iff "pause", no parameter, Playing; resume handler iff "pause"/"resume", no parameter, not Playing; play handler iff "play", or "pause"/"resume" with a parameter, or "resume" without one while Playing; enqueue-only iff "add"; skip, queue, stop, help, history (with the parameter) and about handlers each iff "skip", "list", "exit", "help", "history", "about" |
| Melodix.HistorySortKey | internal/melodix/discord.go:429-436 | play_count iff count/times/time, duration iff duration/dur, last_played for everything else |
| Melodix.Atoi | internal/melodix/discord.go:154 | a value iff the string is an optional sign plus at least one digit whose signed value lies in int64, and the value is then that signed value (any number of leading zeros) |
| Melodix.AccumulateDigitsValue | internal/melodix/discord.go:154 | the left-to-right digit loop with its 2^63 cutoff yields the positional value of the digits exactly when all are digits and the value is within the cutoff |
| Melodix.ShortDecimalsParse | internal/melodix/discord.go:154 | every decimal of at most 18 digits parses |
| Melodix.CreatePlaylist | internal/melodix/discord.go:146-181 | the result is the specification Playlist: resolved songs in entry order, unresolved entries dropped |
| Melodix.PlaylistAppend | internal/melodix/discord.go:149-178 | the playlist of concatenated entries is the concatenation of the playlists (order is kept) |
| Melodix.PlaylistAllResolved | internal/melodix/discord.go:149-178 | when every entry resolves, entry i gives playlist song i |
| Melodix.PlaylistFromEntries | internal/melodix/discord.go:149-178 | every playlist song comes from some entry, and the playlist is no longer than the entries |
| Melodix.PlaylistDropsNonIntegerIds | internal/melodix/discord.go:153-158 | "id" entries that are not integers contribute nothing, whatever the resolver |
| Melodix.NonNilOfSongs | internal/melodix/discord.go:361-365 | a queue without nils is shown as exactly its songs |
| Melodix.ShowQueue | internal/melodix/discord.go:342-380 | the empty notice iff no song and an empty queue; otherwise the current song then the non-nil queued songs in order, with the "Next in queue" header iff more than one entry |
| Melodix.Discord.constructor | internal/melodix/discord.go:36-49 | a fresh player, an active instance, no guild yet, never changed avatar, a ten-minute limit |
| Melodix.Discord.Start | internal/melodix/discord.go:52-57 | the instance answers to the given guild |
| Melodix.Discord.EnqueuePlaylist | internal/melodix/discord.go:184-262 | nothing unless the author is in voice and a connection exists or is joined; then the playlist is appended in order, and Play(0, nil) is asked for iff the playlist is non-empty, announced, not enqueue-only and the player is not Playing |
| Melodix.Discord.ChangeAvatar | internal/melodix/discord.go:479-510 | the avatar changes iff the limit has passed since the last change and reading and updating succeed; the time is recorded only then |
| Melodix.AvatarChangesAreSpaced | internal/melodix/discord.go:479-510 | of two successful-looking attempts the second changes the avatar iff it is at least ten minutes after the first |
| History.GuildRowsSelect | internal/melodix/history.go:139-149 | an empty guild id selects all rows; another selects exactly that guild's rows |
| History.JoinedPairs | internal/melodix/history.go:151-168 | the join succeeds iff every row's track exists, and then pairs row i with its own track, same length and order |
| History.JoinedPrefixFails | internal/melodix/history.go:153-158 | a failed track lookup for any row fails the whole listing |
| History.CountThenDurationIsAll | internal/melodix/history.go:78-132 | a count update followed by a duration update equals one all-stats update |
| History.AppendTrack | internal/melodix/history.go:37-47 | creating a track for an unknown YouTube id keeps ids and YouTube ids valid and the lookup then finds the new track |
| History.AppendRow | internal/melodix/history.go:66-71 | creating a history row for a new (track, guild) keeps keys unique and the lookup then finds it |
| History.AddTrackToHistory | internal/melodix/history.go:32-75 | a track is created only when none has the song's id; a history row with zero count and duration only when none exists for (track, guild); the store invariant holds |
| History.AddTrackTwice | internal/melodix/history.go:32-75 | a second AddTrackToHistory with the same song and guild changes nothing |
| History.UpdateStats | internal/melodix/history.go:78-94 | the lookup error iff the track or its row is missing; the rows become ApplyStats of the old rows |
| History.AddPlaybackAllStats | internal/melodix/history.go:78-94 | on success only the (track, guild) row changes, count + 1 and duration + d; on a lookup error nothing changes |
| History.AddPlaybackCountStats | internal/melodix/history.go:97-113 | on success only the row's count grows by one, its duration is unchanged; on a lookup error nothing changes |
| History.AddPlaybackDurationStats | internal/melodix/history.go:116-132 | on success only the row's duration grows by d, its count is unchanged; on a lookup error nothing changes |
| History.GetHistory | internal/melodix/history.go:135-169 | the list is the guild's rows (all for an empty id), each paired with its track in order; an error and no list iff some track is missing |
| History.GetTrackFromHistory | internal/melodix/history.go:172-189 | the empty Track when the guild has no row for the id; otherwise the track with that id, or an error when it is missing |

## Left out

- Encoding and streaming are not modelled: dca, ffmpeg options and configuration loading (music/player/player.go:304-335). Their observable results are parameters.
- Playback.Player.Play: the wait for a ready voice connection (music/player/player.go:337-339) polls without a timeout. The model stops there with the outcome AwaitingVoice.
- Timing and concurrency are not modelled. This covers the two-second duration-stats ticker goroutine (music/player/player.go:359-380), the `time.Sleep` calls, the player's mutex and the status-polling goroutine of enqueuePlaylist (internal/melodix/discord.go:224-254). Operations are sequential.
- Playback.Metrics: the duration is an input. URL query parsing and `time.ParseDuration` (music/player/player.go:474-483) are not modelled.
- Playback.Metrics: the position is an unbounded integer. Its int64 overflow is not modelled; it needs a stream of about 292 years.
- Playback.ResumeOffset: `Seconds()` converts to float64 and truncates. The model floors exactly, so float rounding on huge positions is not modelled.
- Playback.Player.Stop: a failed voice disconnect is fatal in the source. The model treats disconnecting as always succeeding.
- Playback.Player.Play and Playback.Player.OnStreamEnd: their calls on the `music/history` recorder (AddTrackToHistory at music/player/player.go:357, AddPlaybackCountStats at music/player/player.go:419) are recorded as trace entries only. That package is not part of this model; `History` models the separate internal/melodix/history.go over its own store.
- Parsing is not modelled: `parseCommand`, `getCanonicalCommand` (including the ambiguous `">"` alias) and `parseSongsAndTypeInParameter`. Their results are parameters of Melodix.Route and Melodix.CreatePlaylist.
- The song resolvers `FetchSongByID`, `FetchSongByTitle` and `FetchSongByURL` are functions passed in. Their error values are not modelled, only whether they return a song.
- No message text, embed or Discord API call is modelled. The stop, skip, pause, resume, help and about handlers are not modelled beyond their routing in Melodix.Route. This leaves out the resume handler joining the author's voice channel when the player has none (internal/melodix/discord.go:284-300), the pause handler's check of the current song's ID, which dereferences a nil song (internal/melodix/discord.go:268), and the changeAvatar call at the start of every handler except stop (internal/melodix/discord.go:266, 282, 323, 388, 461).
- Melodix.Atoi: Go's `int` is taken to be 64 bits, so the range cutoff is 2^63. On a 32-bit platform the range would be ±2^31.
- Melodix.Discord.ChangeAvatar: avatar file selection, reading, base64 and content-type detection are reduced to whether reading succeeded. The clock is a parameter.
- The db package is not part of this model. The in-memory `History.Store` replaces it, and its writes cannot fail. The `existingTrack == nil` fallback of AddTrackToHistory (internal/melodix/history.go:50-56) therefore cannot be reached, and the write errors it would return are not modelled.
- History.GetHistory: the rows are returned in table order. The `sortBy` ordering is done by the db package, so it is not modelled.
- History.Row: durations are reals. Floating-point rounding of float64 is not modelled.
- music/discord/cmd_about.go is not part of this model: it picks random phrases and builds an embed.
- cmd/main.go is not part of this model: it is process start-up.

## Findings

| source | as written | input that shows it | evidently intended | confidence | as-written member | corrected member |
|---|---|---|---|---|---|---|
| music/player/player.go:480-485 | `time.ParseDuration` already yields nanoseconds, and the result is multiplied by `time.Second` again, wrapping in int64 | a 180 s song stopped after 41 s of encoding from a 10 s start: the duration becomes -4467440737095516160 ns, so `songPosition < songDuration` fails and the song is not resumed; a 185 s song that streamed all 185 s gets a duration of 532559262904483840 ns and is resumed | the song duration is the parsed duration itself, so the 180 s song resumes at 51 s and the finished 185 s song is not resumed | medium, not executed (the exact format of the URL's duration parameter is not visible) | Playback.SongDurationAsWritten | Playback.SongDuration |
