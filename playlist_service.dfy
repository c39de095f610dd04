// services/playlist_service.py: turning parsed playlist records into
// `Playlist` values, with interned tracks, a filter and a size cap.

module PlaylistServices {
  import opened Common
  import opened Tracks
  import opened Playlists
  import opened TrackServices

  /** One entry of a playlist's `tracks` list, already parsed from JSON. */
  datatype TrackRecord = TrackRecord(trackUri: string, artistUri: string, albumUri: string, durationMs: int)

  /** One entry of a file's `playlists` list, already parsed from JSON. */
  datatype PlaylistRecord = PlaylistRecord(
    pid: int,
    name: string,
    numFollowers: int,
    numTracks: int,
    collaborative: string,
    modifiedAt: int,
    tracks: seq<TrackRecord>)

  /** The number of playlists loading stops at. */
  const Size: nat := 1_000_000

  /** `uri.split(':')[2]`: the third `:`-separated part, `IndexError` when
      there are fewer than three. */
  function UriId(uri: string): (r: Result<string>)
    ensures r.Failure? <==> |Split(uri, ':')| < 3
    ensures r.Failure? ==> r.error == IndexError
    ensures r.Success? ==> ':' !in r.value
  {
    var parts := Split(uri, ':');
    if |parts| < 3 then Failure(IndexError) else Success(parts[2])
  }

  /** A URI `scheme:kind:id` yields its id. */
  lemma UriIdOfParts(scheme: string, kind: string, id: string)
    requires ':' !in scheme && ':' !in kind && ':' !in id
    ensures UriId(scheme + [':'] + kind + [':'] + id) == Success(id)
  {
    assert scheme + [':'] + kind + [':'] + id == scheme + [':'] + (kind + [':'] + id);
    SplitJoin(scheme, ':', kind + [':'] + id);
    SplitJoin(kind, ':', id);
    SplitNoSeparator(id, ':');
  }

  /** A URI with fewer than two separators raises `IndexError`. */
  lemma UriIdTooShort(scheme: string, kind: string)
    requires ':' !in scheme && ':' !in kind
    ensures UriId(scheme) == Failure(IndexError)
    ensures UriId(scheme + [':'] + kind) == Failure(IndexError)
  {
    SplitNoSeparator(scheme, ':');
    SplitJoin(scheme, ':', kind);
    SplitNoSeparator(kind, ':');
  }

  /** `duration_ms // 1000`: whole seconds, rounded towards minus infinity. */
  function Seconds(durationMs: int): (r: int)
    ensures 1000 * r <= durationMs < 1000 * r + 1000
  {
    durationMs / 1000
  }

  predicate IsUpper(c: char) {
    'A' <= c <= 'Z'
  }

  function LowerChar(c: char): (r: char)
    ensures !IsUpper(r)
    ensures IsUpper(c) ==> r as int == c as int + 32
    ensures !IsUpper(c) ==> r == c
  {
    if IsUpper(c) then (c as int + 32) as char else c
  }

  /** `str.lower()` on ASCII letters: every upper-case letter becomes its
      lower-case letter and nothing else changes. */
  function Lower(s: string): (r: string)
    ensures |r| == |s|
    ensures forall i :: 0 <= i < |r| ==> !IsUpper(r[i])
    ensures forall i :: 0 <= i < |s| && !IsUpper(s[i]) ==> r[i] == s[i]
    ensures forall i :: 0 <= i < |s| && IsUpper(s[i]) ==> r[i] as int == s[i] as int + 32
  {
    seq(|s|, i requires 0 <= i < |s| => LowerChar(s[i]))
  }

  /** The `Track` built from a track record, before interning. */
  function ParseTrack(tr: TrackRecord): (r: Result<Track>)
    ensures r.Success? <==> UriId(tr.trackUri).Success? && UriId(tr.artistUri).Success? && UriId(tr.albumUri).Success?
    ensures r.Failure? ==> r.error == IndexError
    ensures r.Success? ==> Success(r.value.trackId) == UriId(tr.trackUri) &&
                           Success(r.value.artistId) == UriId(tr.artistUri) &&
                           Success(r.value.albumId) == UriId(tr.albumUri)
    ensures r.Success? ==> 1000 * r.value.duration <= tr.durationMs < 1000 * r.value.duration + 1000
  {
    var trackId :- UriId(tr.trackUri);
    var artistId :- UriId(tr.artistUri);
    var albumId :- UriId(tr.albumUri);
    Success(Track(trackId, artistId, albumId, Seconds(tr.durationMs)))
  }

  /** The tracks parsed from the first `k` records, stopping at the first
      record that fails, and how parsing ended. */
  function ParseTracks(recs: seq<TrackRecord>, k: nat): (r: (seq<Track>, Outcome))
    requires k <= |recs|
    ensures |r.0| <= k
    ensures r.1.Pass? <==> |r.0| == k
    ensures forall i :: 0 <= i < |r.0| ==> ParseTrack(recs[i]) == Success(r.0[i])
    ensures r.1.Fail? ==> ParseTrack(recs[|r.0|]).Failure? && r.1 == Fail(IndexError)
  {
    if k == 0 then ([], Pass)
    else
      var prev := ParseTracks(recs, k - 1);
      if prev.1.Fail? then prev
      else match ParseTrack(recs[k - 1])
        case Failure(e) => (prev.0, Fail(e))
        case Success(t) => (prev.0 + [t], Pass)
  }

  /** Once parsing failed, later records are not looked at. */
  lemma {:induction false} ParseTracksStopped(recs: seq<TrackRecord>, j: nat, k: nat)
    requires j <= k <= |recs| && ParseTracks(recs, j).1.Fail?
    ensures ParseTracks(recs, k) == ParseTracks(recs, j)
  {
    if j < k {
      ParseTracksStopped(recs, j, k - 1);
    }
  }

  /** The tracks `add_track` hands back for `ts` once `calls` were added. */
  function InternAll(calls: seq<Track>, ts: seq<Track>): (r: seq<Track>)
    ensures |r| == |ts|
    ensures forall i :: 0 <= i < |ts| ==> r[i].trackId == ts[i].trackId
  {
    seq(|ts|, i requires 0 <= i < |ts| => Interned(calls, ts[i]))
  }

  /** Adding one more parsed track keeps the tracks handed back before and
      hands back the first one added with the new track's id. */
  lemma InternAllSnoc(base: seq<Track>, parsed: seq<Track>, t: Track)
    ensures InternAll(base + parsed + [t], parsed + [t]) ==
              InternAll(base + parsed, parsed) + [Interned(base + parsed + [t], t)]
  {
    var calls := base + parsed;
    forall i | 0 <= i < |parsed|
      ensures Interned(calls + [t], parsed[i]) == Interned(calls, parsed[i])
    {
      assert calls[|base| + i] == parsed[i];
      FirstOfPresent(calls, |calls|, |base| + i);
      InternedAppend(calls, [t], parsed[i]);
    }
  }

  /** The track loop after `j` records: `parsed` were parsed and given to
      the track service after `base`, and `tracks` is what it handed back. */
  ghost predicate Interning(base: seq<Track>, recs: seq<TrackRecord>, j: nat, parsed: seq<Track>,
                            tracks: seq<Track>, calls: seq<Track>)
  {
    j <= |recs| && ParseTracks(recs, j) == (parsed, Pass) && calls == base + parsed &&
    tracks == InternAll(calls, parsed)
  }

  lemma InterningStep(base: seq<Track>, recs: seq<TrackRecord>, j: nat, parsed: seq<Track>,
                      tracks: seq<Track>, t: Track)
    requires Interning(base, recs, j, parsed, tracks, base + parsed) && j < |recs|
    requires ParseTrack(recs[j]) == Success(t)
    ensures Interning(base, recs, j + 1, parsed + [t], tracks + [Interned(base + parsed + [t], t)],
                      base + parsed + [t])
  {
    InternAllSnoc(base, parsed, t);
    assert base + (parsed + [t]) == base + parsed + [t];
  }

  /** No track id occurs twice. */
  predicate DistinctIds(ts: seq<Track>) {
    forall i, j :: 0 <= i < j < |ts| ==> ts[i].trackId != ts[j].trackId
  }

  /** The ids of a list with one more track. */
  lemma TrackIdsSnoc(front: seq<Track>, last: Track)
    ensures TrackIds(front + [last]) == TrackIds(front) + {last.trackId}
  {
    var ts := front + [last];
    forall id ensures id in TrackIds(ts) <==> id in TrackIds(front) + {last.trackId} {
      if id in TrackIds(ts) {
        var k :| 0 <= k < |ts| && ts[k].trackId == id;
        if k < |front| {
          assert front[k].trackId == id;
        }
      }
      if id in TrackIds(front) {
        var k :| 0 <= k < |front| && front[k].trackId == id;
        assert ts[k].trackId == id;
      }
    }
  }

  /** One more track whose id is new keeps the ids distinct. */
  lemma DistinctIdsSnoc(front: seq<Track>, last: Track)
    ensures DistinctIds(front + [last]) <==> DistinctIds(front) && last.trackId !in TrackIds(front)
  {
    var ts := front + [last];
    if DistinctIds(front) && last.trackId !in TrackIds(front) {
      forall i, j | 0 <= i < j < |ts| ensures ts[i].trackId != ts[j].trackId {
        assert ts[i] == front[i];
        if j < |front| {
          assert ts[j] == front[j];
        }
      }
    }
    if DistinctIds(ts) {
      forall i, j | 0 <= i < j < |front| ensures front[i].trackId != front[j].trackId {
        assert ts[i] == front[i] && ts[j] == front[j];
      }
      forall k | 0 <= k < |front| ensures front[k].trackId != last.trackId {
        assert ts[k] == front[k] && ts[|front|] == last;
      }
    }
  }

  /** A list of tracks has at most as many ids as tracks, and exactly as many
      when no id repeats. */
  lemma {:induction false} TrackIdsCount(ts: seq<Track>)
    ensures |TrackIds(ts)| <= |ts|
    ensures |TrackIds(ts)| == |ts| <==> DistinctIds(ts)
  {
    if ts == [] {
      assert TrackIds(ts) == {};
    } else {
      var front, last := ts[..|ts| - 1], ts[|ts| - 1];
      assert ts == front + [last];
      TrackIdsCount(front);
      TrackIdsSnoc(front, last);
      DistinctIdsSnoc(front, last);
    }
  }

  /** The filter: in filtered mode a playlist is kept when its track list and
      its track set have the same size and that size is at most 250. */
  predicate Kept(filtered: bool, p: Playlist) {
    !filtered || (|p.tracks| == |p.trackSet| && |p.trackSet| <= 250)
  }

  /** In filtered mode a playlist is kept exactly when no track repeats and
      it has at most 250 tracks. */
  lemma KeptNoRepeats(filtered: bool, p: Playlist)
    requires p.trackSet == TrackIds(p.tracks)
    ensures Kept(filtered, p) <==> !filtered || (DistinctIds(p.tracks) && |p.tracks| <= 250)
  {
    TrackIdsCount(p.tracks);
  }

  /** Where loading stands: the stored playlists, the tracks given to the
      track service so far, and why loading stopped, once it has. */
  datatype Load = Load(stored: map<int, Playlist>, calls: seq<Track>, stop: Option<Outcome>)

  /** The `Playlist` built from a record and its interned tracks. */
  function Built(rec: PlaylistRecord, collaborative: bool, tracks: seq<Track>): (p: Playlist)
    ensures p.playlistId == rec.pid && p.tracks == tracks && p.nbTracks == rec.numTracks
    ensures p.trackSet == TrackIds(tracks) && p.title == Lower(rec.name)
    ensures p.nbFavorites == rec.numFollowers && p.isCollaborative == collaborative && p.modifiedAt == rec.modifiedAt
  {
    NewPlaylist(rec.pid, Lower(rec.name), rec.numTracks, rec.numFollowers, collaborative, rec.modifiedAt, tracks)
  }

  /** What `load_from_data` does with one record: stop at the cap, parse and
      intern the tracks, build the playlist (whose type check refuses a
      collaborative flag that is not a `bool`), check its length, filter,
      store. */
  function Step(filtered: bool, size: nat, strToBool: string -> Option<bool>, s: Load, rec: PlaylistRecord): Load {
    if s.stop.Some? then s
    else if |s.stored| >= size then s.(stop := Some(Pass))
    else
      var parsed := ParseTracks(rec.tracks, |rec.tracks|);
      var calls := s.calls + parsed.0;
      if parsed.1.Fail? then Load(s.stored, calls, Some(parsed.1))
      else if strToBool(rec.collaborative).None? then Load(s.stored, calls, Some(Fail(TypeError)))
      else
        var p := Built(rec, strToBool(rec.collaborative).value, InternAll(calls, parsed.0));
        if |p.tracks| != rec.numTracks then Load(s.stored, calls, Some(Fail(AssertionError)))
        else if Kept(filtered, p) then Load(s.stored[rec.pid := p], calls, None)
        else Load(s.stored, calls, None)
  }

  /** The first `k` records of one file, in order. */
  function Records(filtered: bool, size: nat, strToBool: string -> Option<bool>, s: Load,
                   recs: seq<PlaylistRecord>, k: nat): Load
    requires k <= |recs|
  {
    if k == 0 then s else Step(filtered, size, strToBool, Records(filtered, size, strToBool, s, recs, k - 1), recs[k - 1])
  }

  /** The first `n` files, in order. */
  function Files(filtered: bool, size: nat, strToBool: string -> Option<bool>, s: Load,
                 files: seq<seq<PlaylistRecord>>, n: nat): Load
    requires n <= |files|
  {
    if n == 0 then s
    else
      var before := Files(filtered, size, strToBool, s, files, n - 1);
      Records(filtered, size, strToBool, before, files[n - 1], |files[n - 1]|)
  }

  /** The file loop after `i` files, without having stopped. */
  ghost predicate LoadedFiles(filtered: bool, size: nat, strToBool: string -> Option<bool>, start: Load,
                              files: seq<seq<PlaylistRecord>>, i: nat, stored: map<int, Playlist>, calls: seq<Track>)
  {
    i <= |files| && Files(filtered, size, strToBool, start, files, i) == Load(stored, calls, None)
  }

  /** What `load_from_data` ends with: the error it raised, or none. */
  function OutcomeOf(s: Load): Outcome {
    if s.stop.Some? then s.stop.value else Pass
  }

  /** A stopped load ignores further records. */
  lemma {:induction false} RecordsStuck(filtered: bool, size: nat, strToBool: string -> Option<bool>, s: Load,
                                        recs: seq<PlaylistRecord>, k: nat)
    requires k <= |recs| && s.stop.Some?
    ensures Records(filtered, size, strToBool, s, recs, k) == s
  {
    if k > 0 {
      RecordsStuck(filtered, size, strToBool, s, recs, k - 1);
    }
  }

  lemma {:induction false} RecordsStopped(filtered: bool, size: nat, strToBool: string -> Option<bool>, s: Load,
                                          recs: seq<PlaylistRecord>, j: nat, k: nat)
    requires j <= k <= |recs| && Records(filtered, size, strToBool, s, recs, j).stop.Some?
    ensures Records(filtered, size, strToBool, s, recs, k) == Records(filtered, size, strToBool, s, recs, j)
  {
    if j < k {
      RecordsStopped(filtered, size, strToBool, s, recs, j, k - 1);
    }
  }

  /** A stopped load ignores further files. */
  lemma {:induction false} FilesStopped(filtered: bool, size: nat, strToBool: string -> Option<bool>, s: Load,
                                        files: seq<seq<PlaylistRecord>>, i: nat, n: nat)
    requires i <= n <= |files| && Files(filtered, size, strToBool, s, files, i).stop.Some?
    ensures Files(filtered, size, strToBool, s, files, n) == Files(filtered, size, strToBool, s, files, i)
  {
    if i < n {
      FilesStopped(filtered, size, strToBool, s, files, i, n - 1);
      RecordsStuck(filtered, size, strToBool, Files(filtered, size, strToBool, s, files, n - 1),
                   files[n - 1], |files[n - 1]|);
    }
  }

  /** Storing stops at `size`: a load that starts at or below `size`
      playlists never holds more. */
  lemma StepCapped(filtered: bool, size: nat, strToBool: string -> Option<bool>, s: Load, rec: PlaylistRecord)
    requires |s.stored| <= size
    ensures |Step(filtered, size, strToBool, s, rec).stored| <= size
  {
  }

  lemma {:induction false} RecordsCapped(filtered: bool, size: nat, strToBool: string -> Option<bool>, s: Load,
                                         recs: seq<PlaylistRecord>, k: nat)
    requires k <= |recs| && |s.stored| <= size
    ensures |Records(filtered, size, strToBool, s, recs, k).stored| <= size
  {
    if k > 0 {
      RecordsCapped(filtered, size, strToBool, s, recs, k - 1);
      StepCapped(filtered, size, strToBool, Records(filtered, size, strToBool, s, recs, k - 1), recs[k - 1]);
    }
  }

  lemma {:induction false} FilesCapped(filtered: bool, size: nat, strToBool: string -> Option<bool>, s: Load,
                                       files: seq<seq<PlaylistRecord>>, n: nat)
    requires n <= |files| && |s.stored| <= size
    ensures |Files(filtered, size, strToBool, s, files, n).stored| <= size
  {
    if n > 0 {
      FilesCapped(filtered, size, strToBool, s, files, n - 1);
      RecordsCapped(filtered, size, strToBool, Files(filtered, size, strToBool, s, files, n - 1),
                    files[n - 1], |files[n - 1]|);
    }
  }

  /** `t` is the first track added with its id: the one the track service
      holds for it. */
  predicate Handed(calls: seq<Track>, t: Track) {
    FirstOf(calls, |calls|, t.trackId) == Some(t)
  }

  /** A stored playlist: under its own id, as long as its record says, kept
      by the filter, with a lower-case title and interned tracks. */
  predicate WellStored(filtered: bool, pid: int, p: Playlist, calls: seq<Track>) {
    p.playlistId == pid && |p.tracks| == p.nbTracks && p.trackSet == TrackIds(p.tracks) &&
    Kept(filtered, p) && (forall i :: 0 <= i < |p.title| ==> !IsUpper(p.title[i])) &&
    (forall i :: 0 <= i < |p.tracks| ==> Handed(calls, p.tracks[i]))
  }

  predicate AllWellStored(filtered: bool, stored: map<int, Playlist>, calls: seq<Track>) {
    forall pid :: pid in stored ==> WellStored(filtered, pid, stored[pid], calls)
  }

  /** More calls keep a stored playlist well stored. */
  lemma WellStoredAppend(filtered: bool, pid: int, p: Playlist, calls: seq<Track>, more: seq<Track>)
    requires WellStored(filtered, pid, p, calls)
    ensures WellStored(filtered, pid, p, calls + more)
  {
    forall i | 0 <= i < |p.tracks| ensures Handed(calls + more, p.tracks[i]) {
      FirstOfAppend(calls, more, p.tracks[i].trackId);
    }
  }

  /** The tracks handed back for tracks that were just added are the first
      ones added with their ids. */
  lemma InternAllHanded(base: seq<Track>, parsed: seq<Track>)
    ensures forall i :: 0 <= i < |parsed| ==> Handed(base + parsed, InternAll(base + parsed, parsed)[i])
  {
    var calls := base + parsed;
    forall i | 0 <= i < |parsed| ensures Handed(calls, InternAll(calls, parsed)[i]) {
      assert calls[|base| + i] == parsed[i];
      FirstOfPresent(calls, |calls|, |base| + i);
      FirstOfCounted(calls, |calls|, parsed[i].trackId);
    }
  }

  /** More calls keep every stored playlist well stored. */
  lemma AllWellStoredAppend(filtered: bool, stored: map<int, Playlist>, calls: seq<Track>, more: seq<Track>)
    requires AllWellStored(filtered, stored, calls)
    ensures AllWellStored(filtered, stored, calls + more)
  {
    forall pid | pid in stored ensures WellStored(filtered, pid, stored[pid], calls + more) {
      WellStoredAppend(filtered, pid, stored[pid], calls, more);
    }
  }

  /** A playlist built from a record, passing the length check and the
      filter, is well stored under the record's id. */
  lemma BuiltWellStored(filtered: bool, rec: PlaylistRecord, collaborative: bool, base: seq<Track>, parsed: seq<Track>)
    requires |InternAll(base + parsed, parsed)| == rec.numTracks
    requires Kept(filtered, Built(rec, collaborative, InternAll(base + parsed, parsed)))
    ensures WellStored(filtered, rec.pid, Built(rec, collaborative, InternAll(base + parsed, parsed)), base + parsed)
  {
    InternAllHanded(base, parsed);
  }

  lemma StepWellStored(filtered: bool, size: nat, strToBool: string -> Option<bool>, s: Load, rec: PlaylistRecord)
    requires AllWellStored(filtered, s.stored, s.calls)
    ensures var r := Step(filtered, size, strToBool, s, rec); AllWellStored(filtered, r.stored, r.calls)
  {
    var r := Step(filtered, size, strToBool, s, rec);
    if s.stop.None? && |s.stored| < size {
      var parsed := ParseTracks(rec.tracks, |rec.tracks|);
      var calls := s.calls + parsed.0;
      AllWellStoredAppend(filtered, s.stored, s.calls, parsed.0);
      if parsed.1.Fail? || strToBool(rec.collaborative).None? {
        assert r.stored == s.stored && r.calls == calls;
      } else {
        var collaborative := strToBool(rec.collaborative).value;
        var p := Built(rec, collaborative, InternAll(calls, parsed.0));
        if |p.tracks| == rec.numTracks && Kept(filtered, p) {
          assert r.stored == s.stored[rec.pid := p] && r.calls == calls;
          BuiltWellStored(filtered, rec, collaborative, s.calls, parsed.0);
        } else {
          assert r.stored == s.stored && r.calls == calls;
        }
      }
    }
  }

  lemma {:induction false} RecordsWellStored(filtered: bool, size: nat, strToBool: string -> Option<bool>, s: Load,
                                             recs: seq<PlaylistRecord>, k: nat)
    requires k <= |recs| && AllWellStored(filtered, s.stored, s.calls)
    ensures var r := Records(filtered, size, strToBool, s, recs, k); AllWellStored(filtered, r.stored, r.calls)
  {
    if k > 0 {
      RecordsWellStored(filtered, size, strToBool, s, recs, k - 1);
      StepWellStored(filtered, size, strToBool, Records(filtered, size, strToBool, s, recs, k - 1), recs[k - 1]);
    }
  }

  lemma {:induction false} FilesWellStored(filtered: bool, size: nat, strToBool: string -> Option<bool>, s: Load,
                                           files: seq<seq<PlaylistRecord>>, n: nat)
    requires n <= |files| && AllWellStored(filtered, s.stored, s.calls)
    ensures var r := Files(filtered, size, strToBool, s, files, n); AllWellStored(filtered, r.stored, r.calls)
  {
    if n > 0 {
      FilesWellStored(filtered, size, strToBool, s, files, n - 1);
      RecordsWellStored(filtered, size, strToBool, Files(filtered, size, strToBool, s, files, n - 1),
                        files[n - 1], |files[n - 1]|);
    }
  }

  /** Loading into an empty service stores at most `size` playlists, each
      under its own id, as long as its record says, kept by the filter, with
      a lower-case title and with the tracks the track service holds. */
  lemma LoadedPlaylists(filtered: bool, size: nat, strToBool: string -> Option<bool>, files: seq<seq<PlaylistRecord>>)
    ensures var s := Files(filtered, size, strToBool, Load(map[], [], None), files, |files|);
            |s.stored| <= size && AllWellStored(filtered, s.stored, s.calls)
  {
    FilesCapped(filtered, size, strToBool, Load(map[], [], None), files, |files|);
    FilesWellStored(filtered, size, strToBool, Load(map[], [], None), files, |files|);
  }

  /** `os.path.join(cached_path, ...)` for the two modes. */
  function CacheFile(filtered: bool, cachedPath: string): (path: string)
    ensures filtered ==> EndsWith(path, "playlist_service_filtered.pk")
    ensures !filtered ==> EndsWith(path, "playlist_service_all.pk")
  {
    PathJoin(cachedPath, if filtered then "playlist_service_filtered.pk" else "playlist_service_all.pk")
  }

  /** What `__contains__` and `__getitem__` are given: a `Playlist`, a
      `PlaylistTest` (found through its hash and `__eq__` against the int
      keys), an int id, or anything else. */
  datatype Item = PlaylistItem(p: Playlist) | TestItem(t: PlaylistTest) | IdItem(id: int) | OtherItem

  /** The id an item is looked up by. */
  function Key(item: Item): (r: Option<int>)
    ensures r.None? <==> item.OtherItem?
  {
    match item
    case PlaylistItem(p) => Some(p.playlistId)
    case TestItem(t) => Some(Playlists.Hash(t.playlist))
    case IdItem(id) => Some(id)
    case OtherItem => None
  }

  class PlaylistService {
    const filepath: string
    const size: nat
    const filtered: bool
    /** Playlist id to playlist. */
    var playlists: map<int, Playlist>
    /** The service interning the tracks; none before loading. */
    var trackService: TrackService?

    constructor (filtered: bool, cachedPath: string)
      ensures this.filtered == filtered && filepath == CacheFile(filtered, cachedPath) && size == Size
      ensures playlists == map[] && trackService == null
    {
      this.filtered := filtered;
      filepath := CacheFile(filtered, cachedPath);
      size := Size;
      playlists := map[];
      trackService := null;
    }

    /** The loop over one record's tracks: parse each, give it to
        `add_track` and keep what that hands back. */
    static method InternTracks(service: TrackService, recs: seq<TrackRecord>)
      returns (tracks: seq<Track>, parsed: seq<Track>, o: Outcome)
      requires service.Valid()
      modifies service
      ensures service.Valid()
      ensures (parsed, o) == ParseTracks(recs, |recs|)
      ensures service.calls == old(service.calls) + parsed
      ensures o.Pass? ==> tracks == InternAll(service.calls, parsed)
    {
      tracks, parsed, o := [], [], Pass;
      ghost var base := service.calls;
      var j := 0;
      while j < |recs|
        invariant service.Valid() && Interning(base, recs, j, parsed, tracks, service.calls)
      {
        var track := ParseTrack(recs[j]);
        if track.Failure? {
          o := Fail(track.error);
          ParseTracksStopped(recs, j + 1, |recs|);
          return;
        }
        InterningStep(base, recs, j, parsed, tracks, track.value);
        var handed := service.AddTrack(track.value);
        tracks, parsed := tracks + [handed], parsed + [track.value];
        j := j + 1;
      }
    }

    /** One pass of the record loop; `stop` says why loading stops here. */
    method LoadRecord(service: TrackService, rec: PlaylistRecord, strToBool: string -> Option<bool>)
      returns (stop: Option<Outcome>)
      requires service.Valid()
      modifies this`playlists, service
      ensures service.Valid()
      ensures var s := Step(filtered, size, strToBool, Load(old(playlists), old(service.calls), None), rec);
              playlists == s.stored && service.calls == s.calls && stop == s.stop
    {
      if |playlists| >= size {
        return Some(Pass);
      }
      var tracks, parsed, o := InternTracks(service, rec.tracks);
      if o.Fail? {
        return Some(o);
      }
      var collaborative := strToBool(rec.collaborative);
      if collaborative.None? {
        return Some(Fail(TypeError));
      }
      var p := Built(rec, collaborative.value, tracks);
      if |p.tracks| != rec.numTracks {
        return Some(Fail(AssertionError));
      }
      if Kept(filtered, p) {
        playlists := playlists[rec.pid := p];
      }
      return None;
    }

    /** The loop over one file's records; `stop` says why loading stops
        there. */
    method LoadFile(service: TrackService, recs: seq<PlaylistRecord>, strToBool: string -> Option<bool>)
      returns (stop: Option<Outcome>)
      requires service.Valid()
      modifies this`playlists, service
      ensures service.Valid()
      ensures var s := Records(filtered, size, strToBool, Load(old(playlists), old(service.calls), None), recs, |recs|);
              playlists == s.stored && service.calls == s.calls && stop == s.stop
    {
      ghost var start := Load(playlists, service.calls, None);
      var j := 0;
      while j < |recs|
        invariant 0 <= j <= |recs|
        invariant service.Valid()
        invariant Records(filtered, size, strToBool, start, recs, j) == Load(playlists, service.calls, None)
      {
        stop := LoadRecord(service, recs[j], strToBool);
        if stop.Some? {
          RecordsStopped(filtered, size, strToBool, start, recs, j + 1, |recs|);
          return;
        }
        j := j + 1;
      }
      stop := None;
    }

    /** `load_from_data` over the records of each file, already parsed;
        `str_to_bool` is a parameter, `None` standing for a result that is
        not a `bool`. */
    method LoadFromData(files: seq<seq<PlaylistRecord>>, strToBool: string -> Option<bool>) returns (r: Outcome)
      modifies this
      ensures trackService != null && fresh(trackService) && trackService.Valid()
      ensures var s := Files(filtered, size, strToBool, Load(old(playlists), [], None), files, |files|);
              playlists == s.stored && trackService.calls == s.calls && r == OutcomeOf(s)
    {
      var service := new TrackService();
      trackService := service;
      ghost var start := Load(playlists, [], None);
      var i := 0;
      while i < |files|
        invariant trackService == service && fresh(service) && service.Valid()
        invariant LoadedFiles(filtered, size, strToBool, start, files, i, playlists, service.calls)
      {
        var stop := LoadFile(service, files[i], strToBool);
        if stop.Some? {
          FilesStopped(filtered, size, strToBool, start, files, i + 1, |files|);
          return stop.value;
        }
        i := i + 1;
      }
      r := Pass;
    }

    /** `item in service`: whether the item's id is stored. */
    function Contains(item: Item): (r: bool)
      reads this
      ensures r <==> Key(item).Some? && Key(item).value in playlists
      ensures r <==> GetItem(item).Success?
    {
      match Key(item)
      case Some(id) => id in playlists
      case None => false
    }

    /** `service[item]`: the playlist stored under the item's id, or
        `KeyError`. */
    function GetItem(item: Item): (r: Result<Playlist>)
      reads this
      ensures r.Success? <==> Key(item).Some? && Key(item).value in playlists
      ensures r.Success? ==> r.value == playlists[Key(item).value]
      ensures r.Failure? ==> r.error == KeyError
    {
      match Key(item)
      case Some(id) => if id in playlists then Success(playlists[id]) else Failure(KeyError)
      case None => Failure(KeyError)
    }

    /** A playlist, a playlist test built from it and its id find the same
        entry. */
    lemma LookupByPlaylistOrId(p: Playlist, tracks: seq<Track>, hidden: seq<Track>)
      ensures GetItem(PlaylistItem(p)) == GetItem(IdItem(p.playlistId))
      ensures GetItem(TestItem(NewPlaylistTest(p, tracks, hidden))) == GetItem(IdItem(p.playlistId))
    {
    }
  }
}
