/**
 * The play history of internal/melodix/history.go over an in-memory store
 * that stands for the db package: a table of tracks whose ids are
 * 1, 2, 3, ... in insertion order, and a table of history rows, at most one
 * per (track, guild), each with a play count and a total duration.
 */
module History {
  import opened Wrappers
  import opened Playback

  datatype Track = Track(id: int, ytid: string, name: string, url: string)

  /** db.History; Duration (float64 seconds) is a real. */
  datatype Row = Row(trackId: int, guildId: string, playCount: int, duration: real)

  /** HistoryTrackInfo */
  datatype Info = Info(history: Row, track: Track)

  /** The lookup error of the store (gorm's record-not-found). */
  datatype DbError = RecordNotFound

  /** db.Track{} */
  const EmptyTrack: Track := Track(0, "", "", "")

  /** The position of the first track with the given YouTube id. */
  function TrackIndex(tracks: seq<Track>, ytid: string): (r: Option<nat>)
    ensures r.Some? ==> r.value < |tracks| && tracks[r.value].ytid == ytid
    ensures r.Some? ==> forall j :: 0 <= j < r.value ==> tracks[j].ytid != ytid
    ensures r.None? ==> forall j :: 0 <= j < |tracks| ==> tracks[j].ytid != ytid
    decreases |tracks|
  {
    if tracks == [] then None
    else if tracks[0].ytid == ytid then Some(0)
    else
      match TrackIndex(tracks[1..], ytid)
      case None => None
      case Some(i) => Some(i + 1)
  }

  /** db.GetTrackByYTID */
  function TrackByYtid(tracks: seq<Track>, ytid: string): Option<Track>
  {
    match TrackIndex(tracks, ytid)
    case None => None
    case Some(i) => Some(tracks[i])
  }

  /** db.GetTrackByID: ids are positions counted from one. */
  function TrackById(tracks: seq<Track>, id: int): Option<Track>
  {
    if 1 <= id <= |tracks| then Some(tracks[id - 1]) else None
  }

  predicate SameKey(a: Row, b: Row)
  {
    a.trackId == b.trackId && a.guildId == b.guildId
  }

  /** The position of the history row of (trackId, guildId). */
  function RowIndex(rows: seq<Row>, trackId: int, guildId: string): (r: Option<nat>)
    ensures r.Some? ==> r.value < |rows| && rows[r.value].trackId == trackId && rows[r.value].guildId == guildId
    ensures r.Some? ==> forall j :: 0 <= j < r.value ==> !(rows[j].trackId == trackId && rows[j].guildId == guildId)
    ensures r.None? ==> forall j :: 0 <= j < |rows| ==> !(rows[j].trackId == trackId && rows[j].guildId == guildId)
    decreases |rows|
  {
    if rows == [] then None
    else if rows[0].trackId == trackId && rows[0].guildId == guildId then Some(0)
    else
      match RowIndex(rows[1..], trackId, guildId)
      case None => None
      case Some(i) => Some(i + 1)
  }

  /** Only the keys of the rows decide where a row is found. */
  lemma {:induction false} RowIndexSameKeys(rows: seq<Row>, other: seq<Row>, trackId: int, guildId: string)
    requires |rows| == |other|
    requires forall j :: 0 <= j < |rows| ==> SameKey(rows[j], other[j])
    ensures RowIndex(rows, trackId, guildId) == RowIndex(other, trackId, guildId)
    decreases |rows|
  {
    if rows != [] {
      assert SameKey(rows[0], other[0]);
      RowIndexSameKeys(rows[1..], other[1..], trackId, guildId);
    }
  }

  /** The rows GetAllHistorySortedBy (empty guild) or GetGuildHistorySortedBy returns, in table order. */
  function GuildRows(rows: seq<Row>, guildId: string): seq<Row>
    decreases |rows|
  {
    if rows == [] then []
    else
      var init := GuildRows(rows[..|rows| - 1], guildId);
      var last := rows[|rows| - 1];
      if guildId == "" || last.guildId == guildId then init + [last] else init
  }

  /** An empty guild id selects every row; another selects exactly the rows of that guild, in order. */
  lemma {:induction false} GuildRowsSelect(rows: seq<Row>, guildId: string)
    ensures guildId == "" ==> GuildRows(rows, guildId) == rows
    ensures forall r :: r in GuildRows(rows, guildId) ==> r in rows && (guildId == "" || r.guildId == guildId)
    ensures forall i :: 0 <= i < |rows| && (guildId == "" || rows[i].guildId == guildId) ==> rows[i] in GuildRows(rows, guildId)
    decreases |rows|
  {
    if rows != [] {
      var init := rows[..|rows| - 1];
      GuildRowsSelect(init, guildId);
      assert init + [rows[|rows| - 1]] == rows;
      forall i | 0 <= i < |rows| - 1 ensures rows[i] == init[i] { }
    }
  }

  /** Each history row paired with its track, in order; None when some track is missing. */
  function Joined(rows: seq<Row>, tracks: seq<Track>): Option<seq<Info>>
    decreases |rows|
  {
    if rows == [] then Some([])
    else
      match Joined(rows[..|rows| - 1], tracks)
      case None => None
      case Some(infos) =>
        match TrackById(tracks, rows[|rows| - 1].trackId)
        case None => None
        case Some(t) => Some(infos + [Info(rows[|rows| - 1], t)])
  }

  /** Joined pairs row i with the track of row i's track id, and fails exactly when a track is missing. */
  lemma {:induction false} JoinedPairs(rows: seq<Row>, tracks: seq<Track>)
    ensures Joined(rows, tracks).Some? <==>
      forall i :: 0 <= i < |rows| ==> TrackById(tracks, rows[i].trackId).Some?
    ensures Joined(rows, tracks).Some? ==>
      var infos := Joined(rows, tracks).value;
      |infos| == |rows| &&
      forall i :: 0 <= i < |rows| ==>
        infos[i].history == rows[i] && Some(infos[i].track) == TrackById(tracks, rows[i].trackId)
    decreases |rows|
  {
    if rows != [] {
      var init := rows[..|rows| - 1];
      JoinedPairs(init, tracks);
      forall i | 0 <= i < |init| ensures rows[i] == init[i] { }
    }
  }

  /** The row after a stats update. */
  function Bumped(r: Row, countDelta: int, durationDelta: real): Row
  {
    r.(playCount := r.playCount + countDelta, duration := r.duration + durationDelta)
  }

  /** The history row a stats update for (ytid, guild) reads and writes. */
  function StatsTarget(tracks: seq<Track>, rows: seq<Row>, ytid: string, guildId: string): (r: Option<nat>)
    ensures r.Some? ==> r.value < |rows|
  {
    match TrackByYtid(tracks, ytid)
    case None => None
    case Some(t) => RowIndex(rows, t.id, guildId)
  }

  /** The history rows after a stats update; unchanged when a lookup fails. */
  function ApplyStats(tracks: seq<Track>, rows: seq<Row>, ytid: string, guildId: string,
                      countDelta: int, durationDelta: real): seq<Row>
  {
    match StatsTarget(tracks, rows, ytid, guildId)
    case None => rows
    case Some(i) => rows[i := Bumped(rows[i], countDelta, durationDelta)]
  }

  /** Recording the count and then the duration is recording both at once. */
  lemma CountThenDurationIsAll(tracks: seq<Track>, rows: seq<Row>, ytid: string, guildId: string, duration: real)
    ensures ApplyStats(tracks, ApplyStats(tracks, rows, ytid, guildId, 1, 0.0), ytid, guildId, 0, duration)
         == ApplyStats(tracks, rows, ytid, guildId, 1, duration)
  {
    var once := ApplyStats(tracks, rows, ytid, guildId, 1, 0.0);
    var t := TrackByYtid(tracks, ytid);
    if t.Some? {
      RowIndexSameKeys(rows, once, t.value.id, guildId);
    }
  }

  ghost predicate TracksValid(tracks: seq<Track>)
  {
    (forall i :: 0 <= i < |tracks| ==> tracks[i].id == i + 1) &&
    (forall i, j :: 0 <= i < j < |tracks| ==> tracks[i].ytid != tracks[j].ytid)
  }

  ghost predicate RowsValid(rows: seq<Row>)
  {
    forall i, j :: 0 <= i < j < |rows| ==> !SameKey(rows[i], rows[j])
  }

  /** Creating a track for an unknown YouTube id keeps the track table valid and finds the new track. */
  lemma AppendTrack(tracks: seq<Track>, ytid: string, name: string, url: string)
    requires TracksValid(tracks) && TrackIndex(tracks, ytid).None?
    ensures TracksValid(tracks + [Track(|tracks| + 1, ytid, name, url)])
    ensures TrackByYtid(tracks + [Track(|tracks| + 1, ytid, name, url)], ytid) == Some(Track(|tracks| + 1, ytid, name, url))
  {
    var t := Track(|tracks| + 1, ytid, name, url);
    TrackIndexIsFirst(tracks + [t], ytid, |tracks|);
  }

  /** Creating a row for a new (track, guild) keeps the row table valid and finds the new row. */
  lemma AppendRow(rows: seq<Row>, row: Row)
    requires RowsValid(rows) && RowIndex(rows, row.trackId, row.guildId).None?
    ensures RowsValid(rows + [row])
    ensures RowIndex(rows + [row], row.trackId, row.guildId) == Some(|rows|)
  {
    RowIndexIsFirst(rows + [row], row.trackId, row.guildId, |rows|);
  }

  /** The stand-in for the db package. */
  class Store {
    var tracks: seq<Track>
    var rows: seq<Row>

    /** Track ids are positions from one, YouTube ids are unique, and so is the (track, guild) of a row. */
    ghost predicate Valid()
      reads this
    {
      TracksValid(tracks) && RowsValid(rows)
    }

    constructor ()
      ensures Valid() && tracks == [] && rows == []
    {
      tracks := [];
      rows := [];
    }

    /** db.GetTrackByYTID */
    method GetTrackByYtid(ytid: string) returns (r: Option<Track>)
      ensures r == TrackByYtid(tracks, ytid)
    {
      var i := 0;
      while i < |tracks|
        invariant 0 <= i <= |tracks|
        invariant forall j :: 0 <= j < i ==> tracks[j].ytid != ytid
      {
        if tracks[i].ytid == ytid {
          TrackIndexIsFirst(tracks, ytid, i);
          return Some(tracks[i]);
        }
        i := i + 1;
      }
      r := None;
    }

    /** The position of the row of (trackId, guildId), as the store's lookups find it. */
    method FindRow(trackId: int, guildId: string) returns (r: Option<nat>)
      ensures r == RowIndex(rows, trackId, guildId)
    {
      var i := 0;
      while i < |rows|
        invariant 0 <= i <= |rows|
        invariant forall j :: 0 <= j < i ==> !(rows[j].trackId == trackId && rows[j].guildId == guildId)
      {
        if rows[i].trackId == trackId && rows[i].guildId == guildId {
          RowIndexIsFirst(rows, trackId, guildId, i);
          return Some(i);
        }
        i := i + 1;
      }
      r := None;
    }

    /** db.DoesHistoryExistForGuild */
    method DoesHistoryExistForGuild(trackId: int, guildId: string) returns (exists_: bool)
      ensures exists_ <==> exists j :: 0 <= j < |rows| && rows[j].trackId == trackId && rows[j].guildId == guildId
    {
      var i := FindRow(trackId, guildId);
      exists_ := i.Some?;
    }

    /** db.GetHistoryByTrackIDAndGuildID */
    method GetHistoryByTrackAndGuild(trackId: int, guildId: string) returns (r: Option<Row>)
      ensures r.Some? <==> RowIndex(rows, trackId, guildId).Some?
      ensures r.Some? ==> r.value == rows[RowIndex(rows, trackId, guildId).value]
    {
      var i := FindRow(trackId, guildId);
      r := if i.Some? then Some(rows[i.value]) else None;
    }

    /** db.CreateTrack: the next id is one past the number of tracks. */
    method CreateTrack(ytid: string, name: string, url: string) returns (t: Track)
      modifies this`tracks
      ensures t == Track(|old(tracks)| + 1, ytid, name, url)
      ensures tracks == old(tracks) + [t]
    {
      t := Track(|tracks| + 1, ytid, name, url);
      tracks := tracks + [t];
    }

    /** db.CreateHistory */
    method CreateHistory(row: Row)
      modifies this`rows
      ensures rows == old(rows) + [row]
    {
      rows := rows + [row];
    }

    /** db.UpdateTrackStatsForGuild: the row of (trackId, guildId) gets the new count and duration. */
    method UpdateTrackStatsForGuild(trackId: int, guildId: string, playCount: int, duration: real)
      modifies this`rows
      ensures rows == match RowIndex(old(rows), trackId, guildId)
                      case None => old(rows)
                      case Some(i) => old(rows)[i := old(rows)[i].(playCount := playCount, duration := duration)]
    {
      var i := FindRow(trackId, guildId);
      if i.Some? {
        rows := rows[i.value := rows[i.value].(playCount := playCount, duration := duration)];
      }
    }
  }

  lemma TrackIndexIsFirst(tracks: seq<Track>, ytid: string, i: nat)
    requires i < |tracks| && tracks[i].ytid == ytid
    requires forall j :: 0 <= j < i ==> tracks[j].ytid != ytid
    ensures TrackIndex(tracks, ytid) == Some(i)
  {
  }

  lemma RowIndexIsFirst(rows: seq<Row>, trackId: int, guildId: string, i: nat)
    requires i < |rows| && rows[i].trackId == trackId && rows[i].guildId == guildId
    requires forall j :: 0 <= j < i ==> !(rows[j].trackId == trackId && rows[j].guildId == guildId)
    ensures RowIndex(rows, trackId, guildId) == Some(i)
  {
  }

  /**
   * AddTrackToHistory: the track is created only when no track has the
   * song's id, and the history row of (track, guild) only when there is
   * none, with a zero count and duration; a second call changes nothing.
   */
  method AddTrackToHistory(db: Store, guildId: string, song: Song) returns (err: Option<DbError>)
    requires db.Valid()
    modifies db
    ensures db.Valid()
    ensures err.None?
    ensures TrackIndex(old(db.tracks), song.id).Some? ==> db.tracks == old(db.tracks)
    ensures TrackIndex(old(db.tracks), song.id).None? ==>
      db.tracks == old(db.tracks) + [Track(|old(db.tracks)| + 1, song.id, song.title, song.userUrl)]
    ensures TrackByYtid(db.tracks, song.id).Some?
    ensures var t := TrackByYtid(db.tracks, song.id).value;
      RowIndex(db.rows, t.id, guildId).Some? &&
      db.rows == if RowIndex(old(db.rows), t.id, guildId).Some? then old(db.rows)
                 else old(db.rows) + [Row(t.id, guildId, 0, 0.0)]
  {
    var existing := db.GetTrackByYtid(song.id);
    if existing.None? {
      AppendTrack(db.tracks, song.id, song.title, song.userUrl);
      var created := db.CreateTrack(song.id, song.title, song.userUrl);
      existing := db.GetTrackByYtid(song.id);
    }
    assert existing == TrackByYtid(db.tracks, song.id) && existing.Some?;
    var track := existing.value;
    var exists_ := db.DoesHistoryExistForGuild(track.id, guildId);
    if !exists_ {
      AppendRow(db.rows, Row(track.id, guildId, 0, 0.0));
      db.CreateHistory(Row(track.id, guildId, 0, 0.0));
    }
    err := None;
  }

  /**
   * The read-modify-write shared by the three stats updates: the lookup
   * error and no change when the track or its row is missing; otherwise
   * the row gets count + countDelta and duration + durationDelta.
   */
  method UpdateStats(db: Store, guildId: string, ytid: string, countDelta: int, durationDelta: real)
    returns (err: Option<DbError>)
    requires db.Valid()
    modifies db`rows
    ensures db.Valid()
    ensures err.Some? <==> StatsTarget(db.tracks, old(db.rows), ytid, guildId).None?
    ensures db.rows == ApplyStats(db.tracks, old(db.rows), ytid, guildId, countDelta, durationDelta)
  {
    var track := db.GetTrackByYtid(ytid);
    if track.None? {
      return Some(RecordNotFound);
    }
    var history := db.GetHistoryByTrackAndGuild(track.value.id, guildId);
    if history.None? {
      return Some(RecordNotFound);
    }
    var newPlayCount := history.value.playCount + countDelta;
    var newDuration := history.value.duration + durationDelta;
    db.UpdateTrackStatsForGuild(track.value.id, guildId, newPlayCount, newDuration);
    err := None;
  }

  /** AddPlaybackAllStats: count + 1 and duration + duration on the row of (track, guild). */
  method AddPlaybackAllStats(db: Store, guildId: string, ytid: string, duration: real) returns (err: Option<DbError>)
    requires db.Valid()
    modifies db`rows
    ensures db.Valid()
    ensures err.Some? <==> StatsTarget(db.tracks, old(db.rows), ytid, guildId).None?
    ensures err.Some? ==> db.rows == old(db.rows)
    ensures err.None? ==>
      var i := StatsTarget(db.tracks, old(db.rows), ytid, guildId).value;
      db.rows == old(db.rows)[i := old(db.rows)[i].(playCount := old(db.rows)[i].playCount + 1,
                                                    duration := old(db.rows)[i].duration + duration)]
  {
    err := UpdateStats(db, guildId, ytid, 1, duration);
  }

  /** AddPlaybackCountStats: count + 1, duration unchanged. */
  method AddPlaybackCountStats(db: Store, guildId: string, ytid: string) returns (err: Option<DbError>)
    requires db.Valid()
    modifies db`rows
    ensures db.Valid()
    ensures err.Some? <==> StatsTarget(db.tracks, old(db.rows), ytid, guildId).None?
    ensures err.Some? ==> db.rows == old(db.rows)
    ensures err.None? ==>
      var i := StatsTarget(db.tracks, old(db.rows), ytid, guildId).value;
      db.rows == old(db.rows)[i := old(db.rows)[i].(playCount := old(db.rows)[i].playCount + 1)]
  {
    err := UpdateStats(db, guildId, ytid, 1, 0.0);
  }

  /** AddPlaybackDurationStats: duration + duration, count unchanged. */
  method AddPlaybackDurationStats(db: Store, guildId: string, ytid: string, duration: real) returns (err: Option<DbError>)
    requires db.Valid()
    modifies db`rows
    ensures db.Valid()
    ensures err.Some? <==> StatsTarget(db.tracks, old(db.rows), ytid, guildId).None?
    ensures err.Some? ==> db.rows == old(db.rows)
    ensures err.None? ==>
      var i := StatsTarget(db.tracks, old(db.rows), ytid, guildId).value;
      db.rows == old(db.rows)[i := old(db.rows)[i].(duration := old(db.rows)[i].duration + duration)]
  {
    err := UpdateStats(db, guildId, ytid, 0, duration);
  }

  /**
   * GetHistory: the rows of the guild (all rows for an empty guild id),
   * each paired with its track in the same order; a missing track is an
   * error and no list.
   */
  method GetHistory(db: Store, guildId: string, sortBy: string) returns (r: Result<seq<Info>, DbError>)
    ensures r.Ok? <==> Joined(GuildRows(db.rows, guildId), db.tracks).Some?
    ensures r.Ok? ==> r.value == Joined(GuildRows(db.rows, guildId), db.tracks).value
  {
    var entries := GuildRows(db.rows, guildId);
    var withTracks: seq<Info> := [];
    var i := 0;
    while i < |entries|
      invariant 0 <= i <= |entries|
      invariant Joined(entries[..i], db.tracks) == Some(withTracks)
    {
      assert entries[..i + 1][..i] == entries[..i];
      var track := TrackById(db.tracks, entries[i].trackId);
      if track.None? {
        JoinedPrefixFails(entries, db.tracks, i + 1);
        return Err(RecordNotFound);
      }
      withTracks := withTracks + [Info(entries[i], track.value)];
      i := i + 1;
    }
    assert entries[..i] == entries;
    r := Ok(withTracks);
  }

  /** Once a prefix cannot be joined, neither can the whole. */
  lemma {:induction false} JoinedPrefixFails(rows: seq<Row>, tracks: seq<Track>, k: nat)
    requires k <= |rows|
    requires Joined(rows[..k], tracks).None?
    ensures Joined(rows, tracks).None?
    decreases |rows| - k
  {
    if k < |rows| {
      assert rows[..k + 1][..k] == rows[..k];
      JoinedPrefixFails(rows, tracks, k + 1);
    } else {
      assert rows[..k] == rows;
    }
  }

  /**
   * GetTrackFromHistory: the track when the guild has a history row for
   * it (an error if the track itself is missing), the empty Track otherwise.
   */
  method GetTrackFromHistory(db: Store, guildId: string, trackId: int) returns (r: Result<Track, DbError>)
    requires db.Valid()
    ensures RowIndex(db.rows, trackId, guildId).None? ==> r == Ok(EmptyTrack)
    ensures RowIndex(db.rows, trackId, guildId).Some? ==>
      (r.Ok? <==> 1 <= trackId <= |db.tracks|) &&
      (r.Ok? ==> r.value == db.tracks[trackId - 1] && r.value.id == trackId)
  {
    var exists_ := db.DoesHistoryExistForGuild(trackId, guildId);
    if exists_ {
      var track := TrackById(db.tracks, trackId);
      if track.None? {
        return Err(RecordNotFound);
      }
      return Ok(track.value);
    }
    r := Ok(EmptyTrack);
  }

  /** Adding the same song for the same guild twice: the second call leaves the store as the first left it. */
  method AddTrackTwice(db: Store, guildId: string, song: Song) returns (tracksAfterFirst: seq<Track>, rowsAfterFirst: seq<Row>)
    requires db.Valid()
    modifies db
    ensures db.Valid()
    ensures db.tracks == tracksAfterFirst && db.rows == rowsAfterFirst
  {
    var e1 := AddTrackToHistory(db, guildId, song);
    tracksAfterFirst, rowsAfterFirst := db.tracks, db.rows;
    var e2 := AddTrackToHistory(db, guildId, song);
  }
}
