/**
 * The command side of internal/melodix/discord.go: routing a canonical
 * command to its handler, building a playlist, enqueueing it, the displayed
 * queue, the history sort key and the avatar rate limit.
 *
 * Command parsing and alias resolution, the song resolvers, message and
 * embed rendering and the Discord API are not modelled; their results are
 * parameters.
 */
module Melodix {
  import opened Wrappers
  import opened Playback

  /** rateLimitDuration: ten minutes, in nanoseconds. */
  const AvatarRateLimitNs: int := 10 * 60 * NanosPerSecond

  /** What parseCommand and getCanonicalCommand made of a message. */
  datatype Parsed = Parsed(canonical: string, parameter: string)

  /** The handler a message reaches. */
  datatype Handler =
    | NoHandler
    | PauseHandler
    | ResumeHandler
    | PlayHandler(enqueueOnly: bool)
    | SkipHandler
    | ShowQueueHandler
    | StopHandler
    | HelpHandler
    | HistoryHandler(parameter: string)
    | AboutHandler

  /** The canonical commands the routing switch has a case for. */
  const KnownCommands: set<string> := {"pause", "resume", "play", "skip", "list", "add", "exit", "help", "history", "about"}

  /**
   * Commands: messages from another guild, messages while the instance is
   * inactive, unparsable messages and unknown commands reach no handler.
   * "pause" falls through to "resume" and "resume" to "play".
   */
  function Route(messageGuild: string, botGuild: string, active: bool, parsed: Option<Parsed>, status: Status): (h: Handler)
    ensures h != NoHandler ==> messageGuild == botGuild && active && parsed.Some? && parsed.value.canonical != ""
    ensures h == PauseHandler <==>
      messageGuild == botGuild && active && parsed.Some? &&
      parsed.value.canonical == "pause" && parsed.value.parameter == "" && status == Playing
    ensures h == ResumeHandler <==>
      messageGuild == botGuild && active && parsed.Some? &&
      (parsed.value.canonical == "pause" || parsed.value.canonical == "resume") &&
      parsed.value.parameter == "" && status != Playing
    ensures h == PlayHandler(false) <==>
      messageGuild == botGuild && active && parsed.Some? &&
      (parsed.value.canonical == "play" ||
       ((parsed.value.canonical == "pause" || parsed.value.canonical == "resume") && parsed.value.parameter != "") ||
       (parsed.value.canonical == "resume" && parsed.value.parameter == "" && status == Playing))
    ensures h == PlayHandler(true) <==>
      messageGuild == botGuild && active && parsed.Some? && parsed.value.canonical == "add"
    ensures h == SkipHandler <==>
      messageGuild == botGuild && active && parsed.Some? && parsed.value.canonical == "skip"
    ensures h == ShowQueueHandler <==>
      messageGuild == botGuild && active && parsed.Some? && parsed.value.canonical == "list"
    ensures h == StopHandler <==>
      messageGuild == botGuild && active && parsed.Some? && parsed.value.canonical == "exit"
    ensures h == HelpHandler <==>
      messageGuild == botGuild && active && parsed.Some? && parsed.value.canonical == "help"
    ensures h.HistoryHandler? <==>
      messageGuild == botGuild && active && parsed.Some? && parsed.value.canonical == "history"
    ensures h.HistoryHandler? ==> h.parameter == parsed.value.parameter
    ensures h == AboutHandler <==>
      messageGuild == botGuild && active && parsed.Some? && parsed.value.canonical == "about"
    ensures parsed.Some? && !(parsed.value.canonical in KnownCommands) ==> h == NoHandler
  {
    if messageGuild != botGuild then NoHandler
    else if !active then NoHandler
    else if parsed.None? then NoHandler
    else
      var command, parameter := parsed.value.canonical, parsed.value.parameter;
      if command == "" then NoHandler
      else if command == "pause" && parameter == "" && status == Playing then PauseHandler
      else if (command == "pause" || command == "resume") && parameter == "" && status != Playing then ResumeHandler
      else if command == "pause" || command == "resume" || command == "play" then PlayHandler(false)
      else if command == "skip" then SkipHandler
      else if command == "list" then ShowQueueHandler
      else if command == "add" then PlayHandler(true)
      else if command == "exit" then StopHandler
      else if command == "help" then HelpHandler
      else if command == "history" then HistoryHandler(parameter)
      else if command == "about" then AboutHandler
      else NoHandler
  }

  /** handleHistoryCommand: the column the history is sorted by, and the title shown with it. */
  function HistorySortKey(parameter: string): (r: (string, string))
    ensures r.0 == "play_count" <==> parameter == "count" || parameter == "times" || parameter == "time"
    ensures r.0 == "duration" <==> parameter == "duration" || parameter == "dur"
    ensures r.0 == "last_played" <==>
      !(parameter in {"count", "times", "time", "duration", "dur"})
  {
    match parameter
    case "count" | "times" | "time" => ("play_count", " — by play count")
    case "duration" | "dur" => ("duration", " — by total duration")
    case _ => ("last_played", " — most recent")
  }

  predicate IsDigit(c: char)
  {
    '0' <= c <= '9'
  }

  /** The value of a string of decimal digits. */
  function DigitsValue(s: string): (v: nat)
    requires AllDigits(s)
    decreases |s|
  {
    if s == [] then 0
    else
      assert IsDigit(s[|s| - 1]);
      DigitsValue(s[..|s| - 1]) * 10 + (s[|s| - 1] as int - '0' as int)
  }

  function Pow10(n: nat): (p: nat)
    ensures p >= 1
  {
    if n == 0 then 1 else 10 * Pow10(n - 1)
  }

  /** n digits never exceed 10^n - 1. */
  lemma {:induction false} DigitsValueBound(s: string)
    requires AllDigits(s)
    ensures DigitsValue(s) < Pow10(|s|)
    decreases |s|
  {
    if s != [] {
      DigitsValueBound(s[..|s| - 1]);
    }
  }

  /** The length of an optional leading sign. */
  function SignLength(s: string): (k: nat)
    ensures k <= 1
  {
    if |s| > 0 && (s[0] == '+' || s[0] == '-') then 1 else 0
  }

  /** An optional sign followed by at least one decimal digit. */
  predicate DecimalSyntax(s: string)
  {
    SignLength(s) < |s| && AllDigits(s[SignLength(s)..])
  }

  predicate AllDigits(s: string)
  {
    forall i :: 0 <= i < |s| ==> IsDigit(s[i])
  }

  /** The value a decimal string denotes: its digits' value, negated after a '-'. */
  function DecimalValue(s: string): int
    requires DecimalSyntax(s)
  {
    var v := DigitsValue(s[SignLength(s)..]);
    if s[0] == '-' then 0 - v else v
  }

  /** The magnitude cutoff of a 64-bit parse: 2^63, the magnitude of the smallest int64. */
  const MagnitudeCutoff: nat := 0x8000_0000_0000_0000

  /**
   * The digit loop of strconv's unsigned parse: digits are consumed from the
   * left into the accumulator, and the parse fails at the first non-digit or
   * as soon as the accumulator passes the cutoff.
   */
  function AccumulateDigits(s: string, acc: nat): Option<nat>
    decreases |s|
  {
    if s == [] then Some(acc)
    else if !IsDigit(s[0]) then None
    else
      var next := acc * 10 + (s[0] as int - '0' as int);
      if next > MagnitudeCutoff then None
      else AccumulateDigits(s[1..], next)
  }

  /** Appending digits never lowers the value. */
  lemma {:induction false} DigitsValueGrows(p: string, s: string)
    requires AllDigits(p) && AllDigits(s)
    ensures AllDigits(p + s)
    ensures DigitsValue(p) <= DigitsValue(p + s)
    decreases |s|
  {
    assert AllDigits(p + s) by {
      forall i | 0 <= i < |p + s| ensures IsDigit((p + s)[i]) {
        if i >= |p| { assert (p + s)[i] == s[i - |p|]; }
      }
    }
    if s == [] {
      assert p + s == p;
    } else {
      var init := s[..|s| - 1];
      DigitsValueGrows(p, init);
      assert (p + s)[..|p + s| - 1] == p + init;
    }
  }

  /**
   * Having consumed the digits p, the loop over s yields the value of p + s
   * exactly when s is all digits and that value is within the cutoff.
   */
  lemma {:induction false} AccumulateDigitsValue(p: string, s: string)
    requires AllDigits(p) && DigitsValue(p) <= MagnitudeCutoff
    ensures !AllDigits(s) ==> AccumulateDigits(s, DigitsValue(p)).None?
    ensures AllDigits(s) ==>
      AllDigits(p + s) &&
      (AccumulateDigits(s, DigitsValue(p)).Some? <==> DigitsValue(p + s) <= MagnitudeCutoff) &&
      (AccumulateDigits(s, DigitsValue(p)).Some? ==> AccumulateDigits(s, DigitsValue(p)).value == DigitsValue(p + s))
    decreases |s|
  {
    if s == [] {
      assert p + s == p;
    } else if IsDigit(s[0]) {
      var q := p + [s[0]];
      assert AllDigits(q) by {
        forall i | 0 <= i < |q| ensures IsDigit(q[i]) { if i < |p| { assert q[i] == p[i]; } }
      }
      assert q[..|q| - 1] == p;
      assert DigitsValue(q) == DigitsValue(p) * 10 + (s[0] as int - '0' as int);
      assert q + s[1..] == p + s;
      var rest := s[1..];
      if !AllDigits(s) {
        var i :| 0 <= i < |s| && !IsDigit(s[i]);
        assert !IsDigit(rest[i - 1]);
        if DigitsValue(q) <= MagnitudeCutoff {
          AccumulateDigitsValue(q, rest);
        }
      } else {
        assert AllDigits(rest) by {
          forall i | 0 <= i < |rest| ensures IsDigit(rest[i]) { assert rest[i] == s[i + 1]; }
        }
        if DigitsValue(q) > MagnitudeCutoff {
          DigitsValueGrows(q, rest);
        } else {
          AccumulateDigitsValue(q, rest);
        }
      }
    }
  }

  /**
   * strconv.Atoi on a 64-bit platform: an optional sign, then the digit
   * loop; a '-' admits magnitudes up to 2^63, otherwise below 2^63.
   */
  function Atoi(s: string): (r: Option<int>)
    ensures r.Some? <==> DecimalSyntax(s) && -0x8000_0000_0000_0000 <= DecimalValue(s) < 0x8000_0000_0000_0000
    ensures r.Some? ==> DecimalSyntax(s) && r.value == DecimalValue(s)
  {
    if |s| == 0 then None
    else
      var digits := s[SignLength(s)..];
      if |digits| == 0 then None
      else
        assert DigitsValue([]) == 0 && AllDigits([]) && [] + digits == digits;
        AccumulateDigitsValue([], digits);
        match AccumulateDigits(digits, 0)
        case None => None
        case Some(u) =>
          if s[0] == '-' then Some(0 - u as int)
          else if u < MagnitudeCutoff then Some(u as int)
          else None
  }

  /** Go's fast path: a decimal of at most 18 digits always fits in an int64. */
  lemma ShortDecimalsParse(s: string)
    requires DecimalSyntax(s) && |s| - SignLength(s) <= 18
    ensures Atoi(s).Some?
  {
    var digits := s[SignLength(s)..];
    DigitsValueBound(digits);
    Pow10Monotonic(|digits|, 18);
    Pow10Eighteen();
  }

  lemma Pow10Eighteen()
    ensures Pow10(18) == 1_000_000_000_000_000_000
  {
    assert Pow10(6) == 1_000_000;
    assert Pow10(12) == 1_000_000_000_000;
  }

  lemma {:induction false} Pow10Monotonic(m: nat, n: nat)
    requires m <= n
    ensures Pow10(m) <= Pow10(n)
    decreases n
  {
    if m < n {
      Pow10Monotonic(m, n - 1);
    }
  }

  /** The song resolvers FetchSongByID, FetchSongByTitle and FetchSongByURL; None stands for nil. */
  datatype Fetchers = Fetchers(byId: int -> Option<Song>, byTitle: string -> Option<Song>, byUrl: string -> Option<Song>)

  /** The song one entry of the parameter resolves to, by the parameter type. */
  function Resolve(kind: string, param: string, f: Fetchers): Option<Song>
  {
    if kind == "id" then
      match Atoi(param)
      case None => None
      case Some(n) => f.byId(n)
    else if kind == "title" then f.byTitle(param)
    else if kind == "url" then f.byUrl(param)
    else None
  }

  function OptionToSeq(o: Option<Song>): seq<Song>
  {
    match o
    case None => []
    case Some(s) => [s]
  }

  /** The playlist of createPlaylist: resolved songs in parameter order, unresolved entries dropped. */
  function Playlist(kind: string, params: seq<string>, f: Fetchers): seq<Song>
    decreases |params|
  {
    if params == [] then []
    else Playlist(kind, params[..|params| - 1], f) + OptionToSeq(Resolve(kind, params[|params| - 1], f))
  }

  /** Playlist keeps order: the playlist of a concatenation is the concatenation of the playlists. */
  lemma {:induction false} PlaylistAppend(kind: string, p1: seq<string>, p2: seq<string>, f: Fetchers)
    ensures Playlist(kind, p1 + p2, f) == Playlist(kind, p1, f) + Playlist(kind, p2, f)
    decreases |p2|
  {
    if p2 == [] {
      assert p1 + p2 == p1;
    } else {
      var last := p2[|p2| - 1];
      assert (p1 + p2)[..|p1 + p2| - 1] == p1 + p2[..|p2| - 1];
      PlaylistAppend(kind, p1, p2[..|p2| - 1], f);
    }
  }

  /** When every entry resolves, the playlist is exactly the resolved songs, one per entry, in order. */
  lemma {:induction false} PlaylistAllResolved(kind: string, params: seq<string>, f: Fetchers)
    requires forall i :: 0 <= i < |params| ==> Resolve(kind, params[i], f).Some?
    ensures |Playlist(kind, params, f)| == |params|
    ensures forall i :: 0 <= i < |params| ==> Playlist(kind, params, f)[i] == Resolve(kind, params[i], f).value
    decreases |params|
  {
    if params != [] {
      PlaylistAllResolved(kind, params[..|params| - 1], f);
    }
  }

  /** Every song in the playlist is what some entry resolved to, and the playlist is never longer than the entries. */
  lemma {:induction false} PlaylistFromEntries(kind: string, params: seq<string>, f: Fetchers)
    ensures |Playlist(kind, params, f)| <= |params|
    ensures forall s :: s in Playlist(kind, params, f) ==>
      exists i :: 0 <= i < |params| && Resolve(kind, params[i], f) == Some(s)
    decreases |params|
  {
    if params != [] {
      var init := params[..|params| - 1];
      PlaylistFromEntries(kind, init, f);
      forall s | s in Playlist(kind, params, f)
        ensures exists i :: 0 <= i < |params| && Resolve(kind, params[i], f) == Some(s)
      {
        if s in Playlist(kind, init, f) {
          var i :| 0 <= i < |init| && Resolve(kind, init[i], f) == Some(s);
          assert params[i] == init[i];
        } else {
          assert Resolve(kind, params[|params| - 1], f) == Some(s);
        }
      }
    }
  }

  /** Entries of type "id" that are not integers resolve to nothing, whatever the resolver. */
  lemma {:induction false} PlaylistDropsNonIntegerIds(params: seq<string>, f: Fetchers)
    requires forall i :: 0 <= i < |params| ==> Atoi(params[i]).None?
    ensures Playlist("id", params, f) == []
    decreases |params|
  {
    if params != [] {
      PlaylistDropsNonIntegerIds(params[..|params| - 1], f);
    }
  }

  /** createPlaylist */
  method CreatePlaylist(kind: string, params: seq<string>, f: Fetchers) returns (playlist: seq<Song>)
    ensures playlist == Playlist(kind, params, f)
  {
    playlist := [];
    var i := 0;
    while i < |params|
      invariant 0 <= i <= |params|
      invariant playlist == Playlist(kind, params[..i], f)
    {
      var param := params[i];
      var song: Option<Song> := None;
      if kind == "id" {
        var id := Atoi(param);
        if id.None? {
          assert params[..i + 1][..i] == params[..i];
          i := i + 1;
          continue;
        }
        song := f.byId(id.value);
      } else if kind == "title" {
        song := f.byTitle(param);
      } else if kind == "url" {
        song := f.byUrl(param);
      }
      if song.Some? {
        playlist := playlist + [song.value];
      }
      assert params[..i + 1][..i] == params[..i];
      i := i + 1;
    }
    assert params[..i] == params;
  }

  /** The songs of a queue that are not nil, in queue order. */
  function NonNil(q: seq<Option<Song>>): seq<Song>
    decreases |q|
  {
    if q == [] then [] else NonNil(q[..|q| - 1]) + OptionToSeq(q[|q| - 1])
  }

  /** A queue of songs shows exactly its songs. */
  lemma {:induction false} NonNilOfSongs(q: seq<Song>)
    ensures NonNil(seq(|q|, i requires 0 <= i < |q| => Some(q[i]))) == q
    decreases |q|
  {
    if q != [] {
      var init := q[..|q| - 1];
      var wrapped := seq(|q|, i requires 0 <= i < |q| => Some(q[i]));
      assert wrapped[..|wrapped| - 1] == seq(|init|, i requires 0 <= i < |init| => Some(init[i]));
      NonNilOfSongs(init);
      assert init + [q[|q| - 1]] == q;
    }
  }

  /** What handleShowQueueCommand shows. */
  datatype QueueView =
    | EmptyNotice                                  // "The queue is empty or no current song is playing."
    | Listing(entries: seq<Song>, nextHeader: bool) // numbered entries, "Next in queue" after the first

  /**
   * handleShowQueueCommand: the current song, if any, then the non-nil
   * queued songs in order; only the notice when there is neither; the
   * "Next in queue" header only when more than one entry is listed.
   */
  method ShowQueue(current: Option<Song>, queue: seq<Option<Song>>) returns (view: QueueView)
    ensures view == EmptyNotice <==> current.None? && queue == []
    ensures view.Listing? ==> view.entries == OptionToSeq(current) + NonNil(queue)
    ensures view.Listing? ==> (view.nextHeader <==> |view.entries| > 1)
  {
    if current.None? && |queue| == 0 {
      return EmptyNotice;
    }
    var entries: seq<Song> := [];
    if current.Some? {
      entries := entries + [current.value];
    }
    var i := 0;
    while i < |queue|
      invariant 0 <= i <= |queue|
      invariant entries == OptionToSeq(current) + NonNil(queue[..i])
    {
      if queue[i].Some? {
        entries := entries + [queue[i].value];
      }
      assert queue[..i + 1][..i] == queue[..i];
      i := i + 1;
    }
    assert queue[..i] == queue;
    view := Listing(entries, |entries| > 1);
  }

  /** time.Since(last) >= rateLimitDuration; the zero time (never changed) is always long enough ago. */
  predicate AvatarDue(last: Option<int>, now: int, limit: int)
  {
    last.None? || now - last.value >= limit
  }

  class Discord {
    const player: Player
    var guildId: string
    var active: bool
    /** lastChangeAvatarTime in nanoseconds; None for the zero time. */
    var lastAvatarChange: Option<int>
    const rateLimitNs: int

    /** NewDiscord: a fresh player, active, GuildID not yet set, a ten-minute avatar limit. */
    constructor (guild: string)
      ensures fresh(player)
      ensures player.queue == [] && player.current.None? && player.status == Resting && player.voice.None?
      ensures guildId == "" && active && lastAvatarChange.None? && rateLimitNs == AvatarRateLimitNs
    {
      player := new Player(guild);
      guildId := "";
      active := true;
      lastAvatarChange := None;
      rateLimitNs := AvatarRateLimitNs;
    }

    /** Start: the guild the instance answers to. */
    method Start(guild: string)
      modifies this`guildId
      ensures guildId == guild
    {
      guildId := guild;
    }

    /**
     * enqueuePlaylist, for an author who is (or is not) in a voice channel.
     * A missing voice connection is joined first (None: joining failed).
     * The playlist is enqueued in order; Play(0, nil) follows only when the
     * announcement was sent, enqueueOnly is false and the player is not Playing.
     */
    method EnqueuePlaylist(playlist: seq<Song>, enqueueOnly: bool, authorInVoice: bool,
                           joined: Option<Voice>, announced: bool) returns (next: Followup)
      modifies player`queue, player`voice
      ensures !authorInVoice || (old(player.voice).None? && joined.None?) ==>
        next == Done && player.queue == old(player.queue) && player.voice == old(player.voice)
      ensures authorInVoice && (old(player.voice).Some? || joined.Some?) ==>
        player.voice == (if old(player.voice).Some? then old(player.voice) else joined) &&
        player.queue == old(player.queue) + playlist &&
        next == (if playlist != [] && announced && !enqueueOnly && player.status != Playing
                 then CallPlay(0, None, None) else Done)
    {
      next := Done;
      if !authorInVoice {
        return;
      }
      if player.voice.None? {
        if joined.None? {
          return;
        }
        player.SetVoiceConnection(joined);
      }
      if |playlist| > 0 {
        var i := 0;
        while i < |playlist|
          invariant 0 <= i <= |playlist|
          invariant player.queue == old(player.queue) + playlist[..i]
          invariant player.voice == (if old(player.voice).Some? then old(player.voice) else joined)
        {
          player.Enqueue(playlist[i]);
          assert playlist[..i + 1] == playlist[..i] + [playlist[i]];
          i := i + 1;
        }
        assert playlist[..i] == playlist;
        if !announced {
          return;
        }
        if !enqueueOnly && player.status != Playing {
          next := CallPlay(0, None, None);
        }
      }
    }

    /**
     * changeAvatar at time `now`: nothing within the rate limit of the last
     * change; otherwise the avatar is read and sent, and the time of the
     * change is kept only when both succeed.
     */
    method ChangeAvatar(now: int, avatarRead: bool, updated: bool) returns (changed: bool)
      modifies this`lastAvatarChange
      ensures changed <==> AvatarDue(old(lastAvatarChange), now, rateLimitNs) && avatarRead && updated
      ensures lastAvatarChange == if changed then Some(now) else old(lastAvatarChange)
    {
      if !AvatarDue(lastAvatarChange, now, rateLimitNs) {
        return false;
      }
      if !avatarRead {
        return false;
      }
      if !updated {
        return false;
      }
      lastAvatarChange := Some(now);
      changed := true;
    }
  }

  /** Two avatar changes of one instance are at least the rate limit apart. */
  method AvatarChangesAreSpaced(t1: int, t2: int) returns (first: bool, second: bool)
    ensures first
    ensures second <==> t2 - t1 >= AvatarRateLimitNs
  {
    var d := new Discord("guild");
    first := d.ChangeAvatar(t1, true, true);
    second := d.ChangeAvatar(t2, true, true);
  }
}
