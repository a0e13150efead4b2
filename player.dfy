/**
 * The playback player of music/player/player.go: a FIFO song queue, the
 * current song, the playback status, the voice/streaming/encoding session
 * handles and the single-slot skip channel.
 *
 * The encoder, the streamer, the voice transport and the history recorder are
 * not modelled; what the player reads from them (whether encoding or speaking
 * succeeded, the encoder's elapsed duration, the stream's playback position,
 * the duration parsed from the download URL, the error of the history call)
 * is passed in as parameters.  A recursive call of Play is not made; the
 * operation returns it as a Followup for the caller to carry out.
 */
module Playback {
  import opened Wrappers

  /** time.Second, in time.Duration units (nanoseconds). */
  const NanosPerSecond: int := 1_000_000_000
  const TwoTo63: int := 0x8000_0000_0000_0000
  const TwoTo64: int := 0x1_0000_0000_0000_0000

  /** SongSource. */
  datatype Source = YouTube | Stream

  /** Song; Duration is a time.Duration in nanoseconds. */
  datatype Song = Song(
    title: string,
    userUrl: string,
    downloadUrl: string,
    thumbnailUrl: string,
    durationNs: int,
    id: string,
    source: Source)

  /** PlaybackStatus. */
  datatype Status = Resting | Playing | Paused | Error

  /** PlaybackStatus.String: a word of ASCII letters. */
  function StatusName(s: Status): (name: string)
    ensures |name| > 0
    ensures forall i :: 0 <= i < |name| ==> 'A' <= name[i] <= 'Z' || 'a' <= name[i] <= 'z'
  {
    match s
    case Resting => "Resting"
    case Playing => "Playing"
    case Paused => "Paused"
    case Error => "Error"
  }

  /** PlaybackStatus.StringEmoji: one symbol, followed at most by the emoji variation selector U+FE0F. */
  function StatusEmoji(s: Status): (emoji: string)
    ensures 1 <= |emoji| <= 2
    ensures emoji[0] != '\U{FE0F}'
    ensures |emoji| == 2 ==> emoji[1] == '\U{FE0F}'
  {
    match s
    case Resting => "\U{23F9}\U{FE0F}"
    case Playing => "\U{25B6}\U{FE0F}"
    case Paused => "\U{23F8}"
    case Error => "\U{26A0}\U{FE0F}"
  }

  /** Both renderings tell every status apart. */
  lemma StatusNamesDistinct(s: Status, t: Status)
    ensures StatusName(s) == StatusName(t) ==> s == t
    ensures StatusEmoji(s) == StatusEmoji(t) ==> s == t
  {
  }

  /** A voice connection: its guild, whether it is Ready, whether we are speaking. */
  datatype Voice = Voice(guildId: string, ready: bool, speaking: bool)

  /** A streaming session; only its paused flag is observable here. */
  datatype StreamSession = StreamSession(paused: bool)

  /** An encoding session started at a whole-second offset; released after Cleanup (or Stop). */
  datatype EncodeSession = EncodeSession(startAt: int, released: bool)

  /** Calls the player makes on the history recorder. */
  datatype StatEvent =
    | TrackStarted(guildId: string, song: Song)
    | PlayCounted(guildId: string, songId: string)

  /** The error returned by the history recorder's play-count call. */
  datatype ErrKind = NoErr | EndOfFile | OtherErr

  /**
   * What the player reads from its collaborators when the stream ends: the
   * encoder's elapsed duration, the stream's playback position and the
   * duration parsed from the download URL, all time.Duration values.
   */
  datatype Measure = Measure(encodedNs: int, streamNs: int, parsedDurationNs: int)

  /**
   * What the caller of an operation does next: nothing, a nil dereference, or
   * Play(startAt, song).  `thenStatus` is set only once that Play has
   * returned, and Play returns only after its song and every Play it leads
   * to have ended, so the status can be set to Playing after the queue has
   * run out and no song is left.
   */
  datatype Followup =
    | Done
    | Panics
    | CallPlay(startAt: int, song: Option<Song>, thenStatus: Option<Status>)

  /** Where Play stops before waiting on the stream. */
  datatype StartOutcome =
    | QueueEmpty       // nothing to dequeue: Resting
    | NilSong          // an explicit song was given but CurrentSong is nil: the source dereferences nil
    | EncodeFailed     // the encoder could not be opened
    | AwaitingVoice    // no ready voice connection: the source polls without a timeout
    | SpeakFailed      // Speaking(true) failed
    | Streaming        // the stream is attached and the player waits for its end

  /** How a Play invocation ends once its stream stops or a skip arrives. */
  datatype Decision =
    | Interrupted               // the skip slot was received
    | ResumeFrom(offset: int)   // Play(offset, CurrentSong)
    | RestartStream             // Play(0, CurrentSong) for a live stream
    | GoResting                 // the history call failed: Resting, no advance
    | StopAll                   // queue exhausted: Stop()
    | PlayNext                  // Play(0, nil)

  /** int64 wrap-around of Go's integer arithmetic. */
  function Int64(x: int): (r: int)
    ensures -TwoTo63 <= r < TwoTo63
    ensures (x - r) % TwoTo64 == 0
  {
    var m := x % TwoTo64;
    if m >= TwoTo63 then m - TwoTo64 else m
  }

  /**
   * songPosition of metrics: the encoder's start offset plus the streamed
   * position plus the encoder's lead over the stream.  The lead cancels the
   * streamed position.
   */
  function SongPosition(startAtSec: int, encodedNs: int, streamNs: int): (pos: int)
    ensures pos == startAtSec * NanosPerSecond + encodedNs
  {
    var encodingStart := startAtSec * NanosPerSecond;
    var delay := encodedNs - streamNs;
    encodingStart + streamNs + delay
  }

  /** songDuration of metrics as written: the parsed time.Duration multiplied by time.Second once more, in int64. */
  function SongDurationAsWritten(parsedNs: int): int
  {
    Int64(parsedNs * NanosPerSecond)
  }

  /** songDuration of metrics as intended: the parsed time.Duration itself. */
  function SongDuration(parsedNs: int): int
  {
    parsedNs
  }

  /** metrics: (songDuration, songPosition). */
  function Metrics(startAtSec: int, m: Measure): (r: (int, int))
    ensures r.0 == m.parsedDurationNs
    ensures r.1 == startAtSec * NanosPerSecond + m.encodedNs
  {
    (SongDuration(m.parsedDurationNs), SongPosition(startAtSec, m.encodedNs, m.streamNs))
  }

  /** int(songPosition.Seconds()) for a positive position: whole seconds, rounded down. */
  function ResumeOffset(posNs: int): (sec: int)
    requires posNs > 0
    ensures sec >= 0
    ensures sec * NanosPerSecond <= posNs < (sec + 1) * NanosPerSecond
  {
    posNs / NanosPerSecond
  }

  /** The condition under which an on-demand song that ended is resumed, against a given song duration. */
  predicate PrematureStop(status: Status, startAtSec: int, m: Measure, songDurationNs: int)
  {
    var pos := SongPosition(startAtSec, m.encodedNs, m.streamNs);
    status == Playing && m.encodedNs > 0 && pos > 0 && pos < songDurationNs
  }

  /** A history call is made when the stream ends and the player keeps voice, stream and song. */
  predicate RecordsCount(d: Decision, attached: bool)
  {
    attached && (d == GoResting || d == StopAll || d == PlayNext)
  }

  /**
   * The decision taken at the end of Play.  `interrupted` says that the skip
   * slot was received; `queueEmpty` is read after the history call.
   */
  function Decide(interrupted: bool, voicePresent: bool, streamPresent: bool, current: Option<Song>,
                  status: Status, startAtSec: int, m: Measure, countErr: ErrKind, queueEmpty: bool): (d: Decision)
    ensures d == Interrupted <==> interrupted
    ensures d.ResumeFrom? <==>
      !interrupted && voicePresent && streamPresent && current.Some? && current.value.source == YouTube &&
      status == Playing && m.encodedNs > 0 &&
      0 < startAtSec * NanosPerSecond + m.encodedNs < m.parsedDurationNs
    ensures d.ResumeFrom? ==>
      d.offset >= 0 &&
      d.offset * NanosPerSecond <= startAtSec * NanosPerSecond + m.encodedNs < (d.offset + 1) * NanosPerSecond
    ensures d == RestartStream <==>
      !interrupted && voicePresent && streamPresent && current.Some? && current.value.source == Stream &&
      status == Playing
    ensures d == GoResting ==> voicePresent && streamPresent && current.Some? && countErr == OtherErr
    ensures (d == StopAll || d == PlayNext) ==>
      !(voicePresent && streamPresent && current.Some? && countErr == OtherErr)
    ensures d == StopAll ==> queueEmpty
    ensures d == PlayNext ==> !queueEmpty
  {
    if interrupted then Interrupted
    else
      var attached := voicePresent && streamPresent && current.Some?;
      var pos := SongPosition(startAtSec, m.encodedNs, m.streamNs);
      if attached && current.value.source != Stream && PrematureStop(status, startAtSec, m, SongDuration(m.parsedDurationNs)) then
        assert current.value.source == YouTube && pos == startAtSec * NanosPerSecond + m.encodedNs;
        ResumeFrom(ResumeOffset(pos))
      else if attached && current.value.source == Stream && status == Playing then
        RestartStream
      else
        var err := if attached then countErr else NoErr;
        if err.OtherErr? then GoResting
        else if queueEmpty then StopAll
        else PlayNext
  }

  /** The voice connection after Speaking(false). */
  function Silenced(v: Option<Voice>): (r: Option<Voice>)
    ensures r.Some? <==> v.Some?
    ensures r.Some? ==> r.value == v.value.(speaking := false)
  {
    match v
    case None => None
    case Some(c) => Some(c.(speaking := false))
  }

  /** The encoding session after Cleanup. */
  function Released(e: Option<EncodeSession>): (r: Option<EncodeSession>)
    ensures r.Some? <==> e.Some?
    ensures r.Some? ==> r.value == e.value.(released := true)
  {
    match e
    case None => None
    case Some(s) => Some(s.(released := true))
  }

  class Player {
    var voice: Option<Voice>
    var streaming: Option<StreamSession>
    var encoding: Option<EncodeSession>
    var queue: seq<Song>
    var current: Option<Song>
    var status: Status
    /** SkipInterrupt, a channel of capacity one: true when it holds a value. */
    var skipPending: bool
    /** The calls made so far on the history recorder. */
    var stats: seq<StatEvent>

    /** NewPlayer */
    constructor (guildId: string)
      ensures voice.None? && streaming.None? && encoding.None?
      ensures queue == [] && current.None? && status == Resting
      ensures !skipPending && stats == []
    {
      voice := None;
      skipPending := false;
      streaming := None;
      encoding := None;
      queue := [];
      current := None;
      status := Resting;
      stats := [];
    }

    /** Enqueue: append at the tail. */
    method Enqueue(song: Song)
      modifies this`queue
      ensures queue == old(queue) + [song]
    {
      queue := queue + [song];
    }

    /** Dequeue: remove and return the head, or nil on an empty queue. */
    method Dequeue() returns (song: Option<Song>)
      modifies this`queue
      ensures old(queue) == [] ==> song.None? && queue == []
      ensures old(queue) != [] ==> song == Some(old(queue)[0]) && queue == old(queue)[1..]
    {
      if |queue| == 0 {
        return None;
      }
      song := Some(queue[0]);
      queue := queue[1..];
    }

    /** ClearQueue: the queue is empty afterwards; an empty queue is left as it is. */
    method ClearQueue()
      modifies this`queue
      ensures queue == []
    {
      if |queue| == 0 {
        return;
      }
      queue := [];
    }

    /** SetCurrentStatus */
    method SetCurrentStatus(s: Status)
      modifies this`status
      ensures status == s
    {
      status := s;
    }

    /** SetVoiceConnection */
    method SetVoiceConnection(v: Option<Voice>)
      modifies this`voice
      ensures voice == v
    {
      voice := v;
    }

    /**
     * Stop: whatever the state, the queue is empty, voice and stream are
     * dropped, the song is cleared and the player is Resting.  The encoding
     * session is stopped and cleaned up but the field keeps it.
     */
    method Stop()
      modifies this`queue, this`voice, this`streaming, this`encoding, this`current, this`status
      ensures queue == [] && voice.None? && streaming.None? && current.None? && status == Resting
      ensures encoding == Released(old(encoding))
    {
      ClearQueue();
      if voice.Some? {
        voice := Silenced(voice);
        SetVoiceConnection(None);
      }
      if streaming.Some? {
        streaming := None;
      }
      if encoding.Some? {
        encoding := Released(encoding);
      }
      if current.Some? {
        current := None;
      }
      status := Resting;
    }

    /** Pause: Playing becomes Paused only with both a voice connection and a stream; otherwise nothing changes. */
    method Pause()
      modifies this`streaming, this`status
      ensures if old(voice).Some? && old(streaming).Some? && old(status) == Playing
              then streaming == Some(old(streaming).value.(paused := true)) && status == Paused
              else streaming == old(streaming) && status == old(status)
    {
      if voice.None? {
        return;
      }
      if streaming.None? {
        return;
      }
      if status == Playing {
        streaming := Some(streaming.value.(paused := true));
        status := Paused;
      }
    }

    /**
     * Unpause: nothing without a voice connection.  With a stream, Paused
     * becomes Playing.  Then, when the queue is not empty and the player is
     * Resting, Play(0, nil) is called and Playing set after it.
     */
    method Unpause() returns (next: Followup)
      modifies this`streaming, this`status
      ensures old(voice).None? ==> next == Done && streaming == old(streaming) && status == old(status)
      ensures old(voice).Some? ==>
        (if old(streaming).Some? && old(status) == Paused
         then streaming == Some(old(streaming).value.(paused := false)) && status == Playing
         else streaming == old(streaming) && status == old(status))
      ensures old(voice).Some? ==>
        next == (if queue != [] && status == Resting then CallPlay(0, None, Some(Playing)) else Done)
    {
      if voice.None? {
        return Done;
      }
      if streaming.Some? {
        if status == Paused {
          streaming := Some(streaming.value.(paused := false));
          status := Playing;
        }
      }
      next := Done;
      if |queue| > 0 {
        if status == Resting {
          next := CallPlay(0, None, Some(Playing));
        }
      }
    }

    /**
     * Skip.  Playing/Paused without voice or song: nothing.  Otherwise the
     * status becomes Resting and, only when the skip slot is empty, the play
     * is counted, the slot is filled and Play(0, nil) is called (the Resting
     * branches set Playing after it).  With the slot full a skip does not
     * advance again.
     */
    method Skip() returns (next: Followup)
      modifies this`status, this`skipPending, this`stats
      ensures old(status) == Error ==>
        next == Done && status == Error && skipPending == old(skipPending) && stats == old(stats)
      ensures (old(status) == Playing || old(status) == Paused) && (voice.None? || current.None?) ==>
        next == Done && status == old(status) && skipPending == old(skipPending) && stats == old(stats)
      ensures (old(status) == Playing || old(status) == Paused) && voice.Some? && current.Some? ==>
        status == Resting && skipPending &&
        if old(skipPending) then next == Done && stats == old(stats)
        else next == CallPlay(0, None, None) &&
             stats == old(stats) + [PlayCounted(voice.value.guildId, current.value.id)]
      ensures old(status) == Resting && current.Some? ==>
        status == Resting &&
        if old(skipPending) then next == Done && skipPending && stats == old(stats)
        else if voice.None? then next == Panics && !skipPending && stats == old(stats)
        else next == CallPlay(0, None, Some(Playing)) && skipPending &&
             stats == old(stats) + [PlayCounted(voice.value.guildId, current.value.id)]
      ensures old(status) == Resting && current.None? ==>
        status == Resting && skipPending && stats == old(stats) &&
        next == (if old(skipPending) then Done else CallPlay(0, None, Some(Playing)))
    {
      next := Done;
      match status
      case Playing | Paused =>
        if voice.None? || current.None? {
          return;
        }
        status := Resting;
        if !skipPending {
          stats := stats + [PlayCounted(voice.value.guildId, current.value.id)];
          skipPending := true;
          next := CallPlay(0, None, None);
        }
      case Resting =>
        if current.Some? {
          if !skipPending {
            if voice.None? {
              return Panics;
            }
            stats := stats + [PlayCounted(voice.value.guildId, current.value.id)];
            skipPending := true;
            next := CallPlay(0, None, Some(Playing));
          }
        } else {
          if !skipPending {
            skipPending := true;
            next := CallPlay(0, None, Some(Playing));
          }
        }
      case Error =>
    }

    /**
     * Play(startAt, song) up to the wait on the stream.  Without an explicit
     * song the next one is dequeued (an empty queue means Resting); with one,
     * CurrentSong is kept as it is.  The encoder is opened at startAt, the
     * player speaks on a ready voice connection, attaches the stream, becomes
     * Playing and records the track.
     */
    method Play(startAt: int, song: Option<Song>, encodeOk: bool, speakOk: bool) returns (outcome: StartOutcome)
      modifies this`queue, this`current, this`status, this`encoding, this`voice, this`streaming, this`stats
      ensures song.Some? ==> current == old(current) && queue == old(queue)
      ensures song.None? && old(queue) != [] ==> current == Some(old(queue)[0]) && queue == old(queue)[1..]
      ensures outcome == QueueEmpty <==> song.None? && old(queue) == []
      ensures outcome == QueueEmpty ==>
        current.None? && queue == [] && status == Resting &&
        encoding == old(encoding) && voice == old(voice) && streaming == old(streaming) && stats == old(stats)
      ensures outcome == NilSong <==> song.Some? && old(current).None?
      ensures outcome == NilSong ==>
        status == old(status) && encoding == old(encoding) && voice == old(voice) &&
        streaming == old(streaming) && stats == old(stats)
      ensures outcome != QueueEmpty && outcome != NilSong ==> current.Some?
      ensures outcome == EncodeFailed <==> outcome != QueueEmpty && outcome != NilSong && !encodeOk
      ensures outcome == EncodeFailed ==>
        encoding.None? && status == old(status) && voice == old(voice) && streaming == old(streaming) && stats == old(stats)
      ensures outcome == AwaitingVoice <==>
        outcome != QueueEmpty && outcome != NilSong && encodeOk && !(old(voice).Some? && old(voice).value.ready)
      ensures outcome == AwaitingVoice ==>
        encoding == Some(EncodeSession(startAt, false)) &&
        status == old(status) && voice == old(voice) && streaming == old(streaming) && stats == old(stats)
      ensures outcome == SpeakFailed <==>
        outcome != QueueEmpty && outcome != NilSong && encodeOk && old(voice).Some? && old(voice).value.ready && !speakOk
      ensures outcome == SpeakFailed ==>
        encoding == Some(EncodeSession(startAt, true)) && voice == Silenced(old(voice)) &&
        status == old(status) && streaming == old(streaming) && stats == old(stats)
      ensures outcome == Streaming ==>
        encoding == Some(EncodeSession(startAt, false)) &&
        old(voice).Some? && voice == Some(old(voice).value.(speaking := true)) &&
        streaming == Some(StreamSession(false)) && status == Playing &&
        stats == old(stats) + [TrackStarted(voice.value.guildId, current.value)]
    {
      if song.None? {
        current := Dequeue();
        if current.None? {
          status := Resting;
          return QueueEmpty;
        }
      }
      if current.None? {
        return NilSong;
      }
      if !encodeOk {
        encoding := None;
        return EncodeFailed;
      }
      encoding := Some(EncodeSession(startAt, false));
      if voice.None? || !voice.value.ready {
        return AwaitingVoice;
      }
      if !speakOk {
        voice := Silenced(voice);
        encoding := Released(encoding);
        return SpeakFailed;
      }
      voice := Some(voice.value.(speaking := true));
      streaming := Some(StreamSession(false));
      status := Playing;
      stats := stats + [TrackStarted(voice.value.guildId, current.value)];
      outcome := Streaming;
    }

    /**
     * The end of Play: the stream's done signal or, when the slot holds one,
     * the skip signal (`interrupted` chooses between two ready cases).  The
     * ghost result `d` is the decision taken; the history call is made once,
     * exactly when RecordsCount holds, and never on a resume.
     */
    method OnStreamEnd(interrupted: bool, m: Measure, countErr: ErrKind) returns (next: Followup, ghost d: Decision)
      requires encoding.Some?
      modifies this
      ensures d == Decide(interrupted && old(skipPending), old(voice).Some?, old(streaming).Some?, old(current),
                          old(status), old(encoding).value.startAt, m, countErr, old(queue) == [])
      ensures stats == old(stats) +
        (if RecordsCount(d, old(voice).Some? && old(streaming).Some? && old(current).Some?)
         then [PlayCounted(old(voice).value.guildId, old(current).value.id)] else [])
      ensures skipPending == (d != Interrupted && old(skipPending))
      ensures d != StopAll ==> encoding == Released(old(encoding)) && queue == old(queue) && current == old(current) &&
                               streaming == old(streaming)
      ensures d == Interrupted ==> next == Done && voice == Silenced(old(voice)) && status == old(status)
      ensures d.ResumeFrom? ==>
        next == CallPlay(d.offset, old(current), None) && voice == Silenced(old(voice)) && status == old(status)
      ensures d == RestartStream ==>
        next == CallPlay(0, old(current), None) && voice == Silenced(old(voice)) && status == old(status)
      ensures d == GoResting ==> next == Done && voice == Silenced(old(voice)) && status == Resting
      ensures d == StopAll ==>
        next == Done && queue == [] && voice.None? && streaming.None? && current.None? && status == Resting &&
        encoding == Released(old(encoding))
      ensures d == PlayNext ==> next == CallPlay(0, None, None) && voice == old(voice) && status == old(status)
    {
      d := Decide(interrupted && skipPending, voice.Some?, streaming.Some?, current, status,
                  encoding.value.startAt, m, countErr, queue == []);
      if interrupted && skipPending {
        skipPending := false;
        voice := Silenced(voice);
        encoding := Released(encoding);
        return Done, d;
      }
      var err := NoErr;
      if voice.Some? && streaming.Some? && current.Some? {
        if current.value.source != Stream {
          var metrics := Metrics(encoding.value.startAt, m);
          var songDuration, songPosition := metrics.0, metrics.1;
          if status == Playing {
            if m.encodedNs > 0 && songPosition > 0 {
              if songPosition < songDuration {
                encoding := Released(encoding);
                voice := Silenced(voice);
                return CallPlay(ResumeOffset(songPosition), current, None), d;
              }
            }
          }
        } else {
          if status == Playing {
            encoding := Released(encoding);
            voice := Silenced(voice);
            return CallPlay(0, current, None), d;
          }
        }
        stats := stats + [PlayCounted(voice.value.guildId, current.value.id)];
        err := countErr;
      }
      if err != NoErr && err != EndOfFile {
        if voice.Some? {
          voice := Silenced(voice);
        }
        status := Resting;
        encoding := Released(encoding);
        return Done, d;
      }
      if |queue| == 0 {
        Stop();
        encoding := Released(encoding);
        return Done, d;
      }
      encoding := Released(encoding);
      next := CallPlay(0, None, None);
    }
  }

  /** Enqueue a, b, c and dequeue four times: a, b, c, then nil. */
  method QueueIsFifo(a: Song, b: Song, c: Song) returns (r: seq<Option<Song>>)
    ensures r == [Some(a), Some(b), Some(c), None]
  {
    var p := new Player("guild");
    p.Enqueue(a);
    p.Enqueue(b);
    p.Enqueue(c);
    var x1 := p.Dequeue();
    var x2 := p.Dequeue();
    var x3 := p.Dequeue();
    var x4 := p.Dequeue();
    r := [x1, x2, x3, x4];
  }

  /**
   * Two quick skips while a song plays and another waits.  The first skip's
   * signal is taken at once by the Play waiting on the stream, which ends
   * interrupted and empties the slot; the next song then starts, so the
   * second skip finds the slot empty, counts that song and advances again.
   */
  method RapidSkipsEachAdvance(s: Song, t: Song, guildId: string, m: Measure)
    returns (first: Followup, second: Followup, calls: seq<StatEvent>, pending: bool)
    ensures first == CallPlay(0, None, None)
    ensures second == CallPlay(0, None, None)
    ensures calls == [TrackStarted(guildId, s), PlayCounted(guildId, s.id),
                      TrackStarted(guildId, t), PlayCounted(guildId, t.id)]
    ensures pending
  {
    var p := new Player(guildId);
    p.SetVoiceConnection(Some(Voice(guildId, true, false)));
    p.Enqueue(s);
    p.Enqueue(t);
    var started := p.Play(0, None, true, true);
    assert started == Streaming;
    first := p.Skip();
    var ended, d := p.OnStreamEnd(true, m, NoErr);
    assert d == Interrupted && !p.skipPending;
    var next := p.Play(first.startAt, first.song, true, true);
    assert next == Streaming && p.current == Some(t);
    second := p.Skip();
    calls, pending := p.stats, p.skipPending;
  }

  /**
   * Skip on an idle player with an empty queue: Play(0, nil) finds nothing,
   * yet the player ends Playing with no song and a skip left in the slot.
   */
  method SkipWhileIdle() returns (status: Status, current: Option<Song>, pending: bool)
    ensures status == Playing && current.None? && pending
  {
    var p := new Player("guild");
    var next := p.Skip();
    assert next == CallPlay(0, None, Some(Playing));
    var started := p.Play(0, None, true, true);
    assert started == QueueEmpty;
    p.SetCurrentStatus(Playing);
    status, current, pending := p.status, p.current, p.skipPending;
  }

  /**
   * The premature stop of the resume arithmetic example: started at 10 s,
   * streamed 30 s, encoded 41 s, on a 180 s song.  The intended duration
   * resumes at 51 s; the duration as written wraps to a negative int64 and
   * the song is not resumed.
   */
  lemma ResumeExample(s: Song)
    requires s.source == YouTube
    ensures var m := Measure(41 * NanosPerSecond, 30 * NanosPerSecond, 180 * NanosPerSecond);
      Decide(false, true, true, Some(s), Playing, 10, m, NoErr, false) == ResumeFrom(51) &&
      SongDurationAsWritten(m.parsedDurationNs) == -4_467_440_737_095_516_160 &&
      !PrematureStop(Playing, 10, m, SongDurationAsWritten(m.parsedDurationNs))
  {
  }

  /**
   * As written, a 185 s song that streamed to its real end is resumed: its
   * duration wraps to a positive int64 far above the position.  With the
   * intended duration it is not, and the next song is played.
   */
  lemma ResumeAtRealEndAsWritten(s: Song)
    requires s.source == YouTube
    ensures var m := Measure(185 * NanosPerSecond, 185 * NanosPerSecond, 185 * NanosPerSecond);
      SongDurationAsWritten(m.parsedDurationNs) == 532_559_262_904_483_840 &&
      PrematureStop(Playing, 0, m, SongDurationAsWritten(m.parsedDurationNs)) &&
      Decide(false, true, true, Some(s), Playing, 0, m, NoErr, false) == PlayNext
  {
  }

  /** A live stream that ends while Playing is restarted from 0, never advanced or stopped. */
  lemma LiveStreamRestarts(s: Song, startAtSec: int, m: Measure, countErr: ErrKind, queueEmpty: bool)
    requires s.source == Stream
    ensures Decide(false, true, true, Some(s), Playing, startAtSec, m, countErr, queueEmpty) == RestartStream
  {
  }
}
