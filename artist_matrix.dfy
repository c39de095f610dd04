// The artist matrix service: dense artist ids, per-playlist artist counts,
// document frequencies, a random relabelling of the ids, the tf-idf rewrite
// and the playlist-by-artist matrix.

module ArtistMatrix {
  import opened Common
  import opened Tracks
  import opened TrackInfos
  import opened Playlists
  import opened VarianceUtil

  // ---------------------------------------------------------------------
  // Artist ids

  /** No two artists share an id. */
  predicate Injective(m: map<string, nat>) {
    forall a, b :: a in m && b in m && a != b ==> m[a] != m[b]
  }

  /** `artist_to_id` with its inverse: `inverse[i]` is the artist with id
      `i`, so the ids are exactly `0 .. len-1`. */
  predicate Bijective(m: map<string, nat>, inverse: seq<string>) {
    |inverse| == |m| &&
    (forall i :: 0 <= i < |inverse| ==> inverse[i] in m && m[inverse[i]] == i) &&
    (forall a :: a in m ==> m[a] < |inverse| && inverse[m[a]] == a)
  }

  /** The bijection is injective, its ids are below its length and every id
      below its length is taken. */
  lemma BijectiveIsDense(m: map<string, nat>, inverse: seq<string>)
    requires Bijective(m, inverse)
    ensures Injective(m)
    ensures forall a :: a in m ==> m[a] < |m|
    ensures forall i: nat :: i < |m| ==> i in m.Values
  {
    forall i: nat | i < |m| ensures i in m.Values {
      assert m[inverse[i]] == i;
    }
  }

  /** A new artist gets the next id, `len(artist_to_id)`, which no artist
      holds yet, and the map stays a bijection. */
  lemma AddArtist(m: map<string, nat>, inverse: seq<string>, a: string)
    requires Bijective(m, inverse) && a !in m
    ensures forall b :: b in m ==> m[b] != |m|
    ensures |m[a := |m|]| == |m| + 1
    ensures Bijective(m[a := |m|], inverse + [a])
  {
    assert m[a := |m|].Keys == m.Keys + {a};
  }

  /** The artists of a track: its own artist and, when the track-info table
      knows the track, the artist ids listed there. */
  function ArtistsOf(track: Track, infos: map<string, TrackInfo>): (r: set<string>)
    ensures track.artistId in r
  {
    {track.artistId} + (if track.trackId in infos then infos[track.trackId].artistIds else {})
  }

  /** A track's id list: one id per artist, no id twice, each the id of
      one of the artists. */
  predicate IdsOfArtists(m: map<string, nat>, inverse: seq<string>, artists: set<string>, ids: seq<nat>) {
    Distinct(ids) && |ids| == |artists| &&
    (forall a :: a in artists ==> a in m && m[a] in ids) &&
    (forall j :: 0 <= j < |ids| ==> ids[j] < |inverse| && inverse[ids[j]] in artists)
  }

  // ---------------------------------------------------------------------
  // Per-playlist counts

  /** A table of counts keyed by artist id. */
  type Counts = map<nat, nat>

  /** `counts[a] = counts.get(a, 0) + 1` for each id of `ids[..k]`. */
  function AddAll(counts: Counts, ids: seq<nat>, k: nat): Counts
    requires k <= |ids|
  {
    if k == 0 then counts
    else
      var c := AddAll(counts, ids, k - 1);
      c[ids[k - 1] := GetOr(c, ids[k - 1], 0) + 1]
  }

  /** Adding a list without repeats adds one to each of its ids and to
      nothing else. */
  lemma {:induction false} AddAllCounts(counts: Counts, ids: seq<nat>, k: nat, a: nat)
    requires k <= |ids| && Distinct(ids)
    ensures a in AddAll(counts, ids, k) <==> a in counts || a in ids[..k]
    ensures GetOr(AddAll(counts, ids, k), a, 0) == GetOr(counts, a, 0) + (if a in ids[..k] then 1 else 0)
  {
    if k > 0 {
      AddAllCounts(counts, ids, k - 1, a);
      assert ids[..k] == ids[..k - 1] + [ids[k - 1]];
      if ids[k - 1] == a {
        assert a !in ids[..k - 1];
      }
    }
  }

  /** The counts over the first `k` tracks, each adding its artist-id list. */
  function TrackCounts(tracks: seq<Track>, k: nat, trackToIds: map<string, seq<nat>>): Counts
    requires k <= |tracks|
    requires forall j :: 0 <= j < k ==> tracks[j].trackId in trackToIds
  {
    if k == 0 then map[]
    else
      var ids := trackToIds[tracks[k - 1].trackId];
      AddAll(TrackCounts(tracks, k - 1, trackToIds), ids, |ids|)
  }

  /** The number of the first `k` tracks whose artist-id list holds `a`. */
  function Containing(tracks: seq<Track>, k: nat, trackToIds: map<string, seq<nat>>, a: nat): nat
    requires k <= |tracks|
    requires forall j :: 0 <= j < k ==> tracks[j].trackId in trackToIds
  {
    if k == 0 then 0
    else Containing(tracks, k - 1, trackToIds, a) + (if a in trackToIds[tracks[k - 1].trackId] then 1 else 0)
  }

  /** Every list of `track_to_ids` is without repeats. */
  predicate ListsDistinct(trackToIds: map<string, seq<nat>>) {
    forall t :: t in trackToIds ==> Distinct(trackToIds[t])
  }

  /** Every list of `track_to_ids` names at least the track's own artist. */
  predicate ListsNonEmpty(trackToIds: map<string, seq<nat>>) {
    forall t :: t in trackToIds ==> trackToIds[t] != []
  }

  /** Every id of `track_to_ids` is below `n`. */
  predicate ListsBelow(trackToIds: map<string, seq<nat>>, n: nat) {
    forall t, j :: t in trackToIds && 0 <= j < |trackToIds[t]| ==> trackToIds[t][j] < n
  }

  /** A playlist's table is empty exactly when it has no tracks. */
  lemma TrackCountsEmpty(tracks: seq<Track>, k: nat, trackToIds: map<string, seq<nat>>)
    requires k <= |tracks| && ListsDistinct(trackToIds) && ListsNonEmpty(trackToIds)
    requires forall j :: 0 <= j < k ==> tracks[j].trackId in trackToIds
    ensures TrackCounts(tracks, k, trackToIds) == map[] <==> k == 0
  {
    if k > 0 {
      var ids := trackToIds[tracks[k - 1].trackId];
      AddAllCounts(TrackCounts(tracks, k - 1, trackToIds), ids, |ids|, ids[0]);
      assert ids[..|ids|] == ids;
    }
  }

  /** `data[pid][a]` is the number of the playlist's tracks whose artist
      list holds `a`; the keys are exactly the ids some track lists. */
  lemma {:induction false} TrackCountsCount(tracks: seq<Track>, k: nat, trackToIds: map<string, seq<nat>>, a: nat)
    requires k <= |tracks| && ListsDistinct(trackToIds)
    requires forall j :: 0 <= j < k ==> tracks[j].trackId in trackToIds
    ensures GetOr(TrackCounts(tracks, k, trackToIds), a, 0) == Containing(tracks, k, trackToIds, a)
    ensures a in TrackCounts(tracks, k, trackToIds) <==> Containing(tracks, k, trackToIds, a) > 0
  {
    if k > 0 {
      TrackCountsCount(tracks, k - 1, trackToIds, a);
      var ids := trackToIds[tracks[k - 1].trackId];
      AddAllCounts(TrackCounts(tracks, k - 1, trackToIds), ids, |ids|, a);
      assert ids[..|ids|] == ids;
    }
  }

  /** Every count is positive. */
  lemma {:induction false} TrackCountsPositive(tracks: seq<Track>, k: nat, trackToIds: map<string, seq<nat>>, a: nat)
    requires k <= |tracks| && ListsDistinct(trackToIds)
    requires forall j :: 0 <= j < k ==> tracks[j].trackId in trackToIds
    requires a in TrackCounts(tracks, k, trackToIds)
    ensures TrackCounts(tracks, k, trackToIds)[a] >= 1
  {
    TrackCountsCount(tracks, k, trackToIds, a);
  }

  /** The counts only look at the lists of the tracks counted. */
  lemma {:induction false} TrackCountsFrame(tracks: seq<Track>, k: nat, m: map<string, seq<nat>>, m': map<string, seq<nat>>)
    requires k <= |tracks|
    requires forall j :: 0 <= j < k ==>
               tracks[j].trackId in m && tracks[j].trackId in m' && m'[tracks[j].trackId] == m[tracks[j].trackId]
    ensures TrackCounts(tracks, k, m') == TrackCounts(tracks, k, m)
  {
    if k > 0 {
      TrackCountsFrame(tracks, k - 1, m, m');
    }
  }

  // ---------------------------------------------------------------------
  // Document frequencies

  /** An entry of `data`: a playlist id and its table keyed by artist id. */
  datatype Row<V> = Row(pid: int, cells: map<nat, V>)

  /** `count[a] = count.get(a, 0) + 1` for each `a` of `keys`. */
  function Bump(count: Counts, keys: set<nat>): (r: Counts)
    ensures r.Keys == count.Keys + keys
  {
    map a | a in count.Keys + keys :: GetOr(count, a, 0) + (if a in keys then 1 else 0)
  }

  /** The document counts after the first `k` rows of `data`. */
  function DocCounts(count: Counts, data: seq<Row<nat>>, k: nat): Counts
    requires k <= |data|
  {
    if k == 0 then count else Bump(DocCounts(count, data, k - 1), data[k - 1].cells.Keys)
  }

  /** The number of the first `k` rows whose table has key `a`. */
  function Frequency(data: seq<Row<nat>>, k: nat, a: nat): (r: nat)
    requires k <= |data|
    ensures r <= k
  {
    if k == 0 then 0 else Frequency(data, k - 1, a) + (if a in data[k - 1].cells then 1 else 0)
  }

  /** `artist_in_playlist_count[a]` grows by the number of playlists whose
      table holds `a`. */
  lemma {:induction false} DocCountsCount(count: Counts, data: seq<Row<nat>>, k: nat, a: nat)
    requires k <= |data|
    ensures a in DocCounts(count, data, k) <==> a in count || Frequency(data, k, a) > 0
    ensures GetOr(DocCounts(count, data, k), a, 0) == GetOr(count, a, 0) + Frequency(data, k, a)
  {
    if k > 0 {
      DocCountsCount(count, data, k - 1, a);
    }
  }

  /** Counted from nothing, every artist with a count is in between one and
      all of the playlists. */
  lemma DocCountsBounds(data: seq<Row<nat>>, a: nat)
    requires a in DocCounts(map[], data, |data|)
    ensures DocCounts(map[], data, |data|)[a] == Frequency(data, |data|, a)
    ensures 1 <= DocCounts(map[], data, |data|)[a] <= |data|
  {
    DocCountsCount(map[], data, |data|, a);
  }

  /** The ids of an enumeration of the artists, in its order, are an id
      list of the artists. */
  lemma IdsFromOrder(m: map<string, nat>, inverse: seq<string>, artists: set<string>, order: seq<string>, ids: seq<nat>)
    requires Bijective(m, inverse) && Distinct(order) && |order| == |artists| && |ids| == |order|
    requires forall x :: x in artists <==> x in order
    requires forall j :: 0 <= j < |order| ==> order[j] in m && m[order[j]] == ids[j]
    ensures IdsOfArtists(m, inverse, artists, ids)
  {
    forall i, j | 0 <= i < j < |ids| ensures ids[i] != ids[j] {
      assert inverse[ids[i]] == order[i] && inverse[ids[j]] == order[j];
    }
    forall a | a in artists ensures m[a] in ids {
      var j :| 0 <= j < |order| && order[j] == a;
      assert ids[j] == m[a];
    }
  }

  /** An id created while building a track's list belongs to one of its
      new artists, so it is in the list. */
  lemma NewIdsListed(m0: map<string, nat>, inv0: seq<string>, m: map<string, nat>, inv: seq<string>,
                     artists: set<string>, ids: seq<nat>)
    requires Bijective(m0, inv0) && Bijective(m, inv) && Extends(m0, m)
    requires forall a :: a in m ==> a in m0 || a in artists
    requires IdsOfArtists(m, inv, artists, ids)
    ensures forall i :: |m0| <= i < |m| ==> i in ids
  {
    assert forall c :: c in m0 ==> m[c] < |m0|;
    forall i | |m0| <= i < |m| ensures i in ids {
      assert m[inv[i]] == i;
    }
  }

  /** Storing a list without repeats, holding an id and only ids below
      `n`, keeps every list so. */
  lemma ListStored(t: map<string, seq<nat>>, key: string, ids: seq<nat>, n0: nat, n: nat)
    requires ListsDistinct(t) && ListsNonEmpty(t) && n0 <= n
    requires ListsBelow(t, n0)
    requires Distinct(ids) && ids != [] && forall j :: 0 <= j < |ids| ==> ids[j] < n
    ensures ListsDistinct(t[key := ids]) && ListsNonEmpty(t[key := ids])
    ensures ListsBelow(t[key := ids], n)
  {
  }

  /** After adding a list without repeats, the keys are the old ones and
      the list's ids. */
  lemma AddAllKeys(counts: Counts, ids: seq<nat>)
    requires Distinct(ids)
    ensures forall a :: a in AddAll(counts, ids, |ids|) <==> a in counts || a in ids
  {
    assert ids[..|ids|] == ids;
    forall a ensures a in AddAll(counts, ids, |ids|) <==> a in counts || a in ids {
      AddAllCounts(counts, ids, |ids|, a);
    }
  }

  /** Document counts and frequencies look only at the rows counted. */
  lemma {:induction false} DocCountsAgree(count: Counts, d: seq<Row<nat>>, d': seq<Row<nat>>, k: nat)
    requires k <= |d| && k <= |d'| && d[..k] == d'[..k]
    ensures DocCounts(count, d', k) == DocCounts(count, d, k)
    ensures forall a :: Frequency(d', k, a) == Frequency(d, k, a)
  {
    if k > 0 {
      assert d[..k - 1] == d'[..k - 1] by {
        assert d[..k - 1] == d[..k][..k - 1] && d'[..k - 1] == d'[..k][..k - 1];
      }
      DocCountsAgree(count, d, d', k - 1);
      assert d[k - 1] == d[..k][k - 1] == d'[..k][k - 1] == d'[k - 1];
    }
  }

  /** Appending a row: the earlier rows keep their counting. */
  lemma RowsAgree(before: seq<Row<nat>>, row: Row<nat>, count: Counts)
    ensures DocCounts(count, before + [row], |before|) == DocCounts(count, before, |before|)
    ensures forall a :: Frequency(before + [row], |before|, a) == Frequency(before, |before|, a)
  {
    assert (before + [row])[..|before|] == before == before[..|before|];
    DocCountsAgree(count, before, before + [row], |before|);
  }

  /** Adding each id of a list without repeats once is bumping the set of
      its ids. */
  lemma AddAllIsBump(count: Counts, order: seq<nat>, keys: set<nat>)
    requires Distinct(order) && forall a :: a in keys <==> a in order
    ensures AddAll(count, order, |order|) == Bump(count, keys)
  {
    assert order[..|order|] == order;
    var r := AddAll(count, order, |order|);
    forall a ensures (a in r <==> a in Bump(count, keys)) && (a in r ==> r[a] == Bump(count, keys)[a]) {
      AddAllCounts(count, order, |order|, a);
    }
  }

  // ---------------------------------------------------------------------
  // The service

  /** `m'` keeps every entry of `m`. */
  predicate Extends<K, V(==)>(m: map<K, V>, m': map<K, V>) {
    forall k :: k in m ==> k in m' && m'[k] == m[k]
  }

  lemma ExtendsTrans<K, V>(m: map<K, V>, m': map<K, V>, m'': map<K, V>)
    requires Extends(m, m') && Extends(m', m'')
    ensures Extends(m, m'')
  {
  }

  /** The first `k` tracks have lists and `counts` counts them. */
  predicate TracksCounted(tracks: seq<Track>, k: nat, trackToIds: map<string, seq<nat>>, counts: Counts) {
    k <= |tracks| &&
    (forall j :: 0 <= j < k ==> tracks[j].trackId in trackToIds) &&
    counts == TrackCounts(tracks, k, trackToIds)
  }

  lemma TracksCountedFrame(tracks: seq<Track>, k: nat, m: map<string, seq<nat>>, m': map<string, seq<nat>>, counts: Counts)
    requires TracksCounted(tracks, k, m, counts) && Extends(m, m')
    ensures TracksCounted(tracks, k, m', counts)
  {
    TrackCountsFrame(tracks, k, m, m');
  }

  /** Every id from `lo` up to `hi` is a key of `counts`. */
  predicate Covers(lo: nat, hi: nat, counts: Counts) {
    forall i :: lo <= i < hi ==> i in counts
  }

  /** Row `i` of `data` belongs to playlist `i` and counts its tracks'
      artist lists, for the first `k` playlists. */
  predicate RowsCount(playlists: seq<Playlist>, data: seq<Row<nat>>, k: nat, trackToIds: map<string, seq<nat>>)
    requires k <= |playlists| && k <= |data|
  {
    forall i :: 0 <= i < k ==>
      data[i].pid == playlists[i].playlistId &&
      (forall j :: 0 <= j < |playlists[i].tracks| ==> playlists[i].tracks[j].trackId in trackToIds) &&
      data[i].cells == TrackCounts(playlists[i].tracks, |playlists[i].tracks|, trackToIds)
  }

  lemma RowsCountFrame(playlists: seq<Playlist>, data: seq<Row<nat>>, k: nat, m: map<string, seq<nat>>, m': map<string, seq<nat>>)
    requires k <= |playlists| && k <= |data| && Extends(m, m')
    requires RowsCount(playlists, data, k, m)
    ensures RowsCount(playlists, data, k, m')
  {
    forall i | 0 <= i < k
      ensures data[i].cells == TrackCounts(playlists[i].tracks, |playlists[i].tracks|, m')
    {
      TrackCountsFrame(playlists[i].tracks, |playlists[i].tracks|, m, m');
    }
  }

  /** Appending the row of the next playlist. */
  lemma RowsSnoc(playlists: seq<Playlist>, data: seq<Row<nat>>, row: Row<nat>, trackToIds: map<string, seq<nat>>)
    requires |data| < |playlists| && RowsCount(playlists, data, |data|, trackToIds)
    requires row.pid == playlists[|data|].playlistId
    requires TracksCounted(playlists[|data|].tracks, |playlists[|data|].tracks|, trackToIds, row.cells)
    ensures RowsCount(playlists, data + [row], |data| + 1, trackToIds)
  {
  }

  /** Every id from `lo` up to `hi` occurs in one of the first `k` rows. */
  predicate Frequent(lo: nat, hi: nat, data: seq<Row<nat>>, k: nat)
    requires k <= |data|
  {
    forall i :: lo <= i < hi ==> Frequency(data, k, i) > 0
  }

  /** The ids of the old rows stay frequent, and the keys of the new row
      become so. */
  lemma FrequentSnoc(lo: nat, mid: nat, hi: nat, data: seq<Row<nat>>, row: Row<nat>)
    requires Frequent(lo, mid, data, |data|) && Covers(mid, hi, row.cells)
    requires forall a :: Frequency(data + [row], |data|, a) == Frequency(data, |data|, a)
    ensures Frequent(lo, hi, data + [row], |data| + 1)
  {
    var d, n := data + [row], |data| + 1;
    forall i | lo <= i < hi ensures Frequency(d, n, i) > 0 {
      if i >= mid {
        assert i in d[n - 1].cells;
      }
    }
  }

  /** An id list stays the list of the same artists when the bijection
      only gains artists: the old artists keep their ids, so the inverse
      keeps its old places. */
  lemma IdsOfArtistsKept(m: map<string, nat>, inverse: seq<string>, m': map<string, nat>, inverse': seq<string>,
                         artists: set<string>, ids: seq<nat>)
    requires Bijective(m, inverse) && Bijective(m', inverse') && Extends(m, m')
    requires IdsOfArtists(m, inverse, artists, ids)
    ensures IdsOfArtists(m', inverse', artists, ids)
  {
    forall j | 0 <= j < |ids| ensures ids[j] < |inverse'| && inverse'[ids[j]] == inverse[ids[j]] {
      var a := inverse[ids[j]];
      assert a in m && m[a] == ids[j];
      assert m'[a] == ids[j];
    }
  }

  /** When `t0` lacks the list of `id` and `t` holds one, it is the id
      list, under `m` and `inverse`, of the artists of one of the first
      `k` tracks with that id. */
  ghost predicate TrackListed(t0: map<string, seq<nat>>, t: map<string, seq<nat>>, m: map<string, nat>,
                              inverse: seq<string>, tracks: seq<Track>, k: nat, infos: map<string, TrackInfo>, id: string)
    requires k <= |tracks|
  {
    id in t && id !in t0 ==>
      exists j :: 0 <= j < k && tracks[j].trackId == id && IdsOfArtists(m, inverse, ArtistsOf(tracks[j], infos), t[id])
  }

  /** Every list `t` adds to `t0` was made from one of the first `k` tracks. */
  ghost predicate ListedFrom(t0: map<string, seq<nat>>, t: map<string, seq<nat>>, m: map<string, nat>,
                             inverse: seq<string>, tracks: seq<Track>, k: nat, infos: map<string, TrackInfo>)
    requires k <= |tracks|
  {
    forall id :: TrackListed(t0, t, m, inverse, tracks, k, infos, id)
  }

  /** One more track: the lists made before keep their meaning under the
      grown bijection, and the one list this track may add is its own. */
  lemma ListedFromSnoc(t0: map<string, seq<nat>>, t1: map<string, seq<nat>>, t: map<string, seq<nat>>,
                       m1: map<string, nat>, inverse1: seq<string>, m: map<string, nat>, inverse: seq<string>,
                       tracks: seq<Track>, k: nat, infos: map<string, TrackInfo>)
    requires k < |tracks| && ListedFrom(t0, t1, m1, inverse1, tracks, k, infos)
    requires Bijective(m1, inverse1) && Bijective(m, inverse) && Extends(m1, m) && Extends(t1, t)
    requires forall id :: id in t <==> id in t1 || id == tracks[k].trackId
    requires tracks[k].trackId !in t1 ==>
               IdsOfArtists(m, inverse, ArtistsOf(tracks[k], infos), t[tracks[k].trackId])
    ensures ListedFrom(t0, t, m, inverse, tracks, k + 1, infos)
  {
    var n := k + 1;
    forall id ensures TrackListed(t0, t, m, inverse, tracks, n, infos, id) {
      if id in t && id !in t0 {
        if id in t1 {
          assert TrackListed(t0, t1, m1, inverse1, tracks, k, infos, id);
          var j :| 0 <= j < k && tracks[j].trackId == id && IdsOfArtists(m1, inverse1, ArtistsOf(tracks[j], infos), t1[id]);
          IdsOfArtistsKept(m1, inverse1, m, inverse, ArtistsOf(tracks[j], infos), t1[id]);
        } else {
          assert tracks[k].trackId == id;
        }
      }
    }
  }

  /** When `t0` lacks the list of `id` and `t` holds one, it is the id
      list, under `m` and `inverse`, of the artists of a track with that
      id in one of the first `k` playlists. */
  ghost predicate PlaylistListed(t0: map<string, seq<nat>>, t: map<string, seq<nat>>, m: map<string, nat>,
                                 inverse: seq<string>, playlists: seq<Playlist>, k: nat, infos: map<string, TrackInfo>,
                                 id: string)
    requires k <= |playlists|
  {
    id in t && id !in t0 ==>
      exists i, j :: 0 <= i < k && 0 <= j < |playlists[i].tracks| && playlists[i].tracks[j].trackId == id &&
                     IdsOfArtists(m, inverse, ArtistsOf(playlists[i].tracks[j], infos), t[id])
  }

  /** Every list `t` adds to `t0` was made from a track of one of the first
      `k` playlists. */
  ghost predicate PlaylistsListed(t0: map<string, seq<nat>>, t: map<string, seq<nat>>, m: map<string, nat>,
                                  inverse: seq<string>, playlists: seq<Playlist>, k: nat, infos: map<string, TrackInfo>)
    requires k <= |playlists|
  {
    forall id :: PlaylistListed(t0, t, m, inverse, playlists, k, infos, id)
  }

  /** One more playlist, whose tracks made the lists `t` adds to `t1`. */
  lemma PlaylistsListedSnoc(t0: map<string, seq<nat>>, t1: map<string, seq<nat>>, t: map<string, seq<nat>>,
                            m1: map<string, nat>, inverse1: seq<string>, m: map<string, nat>, inverse: seq<string>,
                            playlists: seq<Playlist>, k: nat, infos: map<string, TrackInfo>)
    requires k < |playlists| && PlaylistsListed(t0, t1, m1, inverse1, playlists, k, infos)
    requires Bijective(m1, inverse1) && Bijective(m, inverse) && Extends(m1, m) && Extends(t1, t)
    requires ListedFrom(t1, t, m, inverse, playlists[k].tracks, |playlists[k].tracks|, infos)
    ensures PlaylistsListed(t0, t, m, inverse, playlists, k + 1, infos)
  {
    var n := k + 1;
    forall id ensures PlaylistListed(t0, t, m, inverse, playlists, n, infos, id) {
      if id in t && id !in t0 {
        if id in t1 {
          assert PlaylistListed(t0, t1, m1, inverse1, playlists, k, infos, id);
          var i, j :| 0 <= i < k && 0 <= j < |playlists[i].tracks| && playlists[i].tracks[j].trackId == id &&
                      IdsOfArtists(m1, inverse1, ArtistsOf(playlists[i].tracks[j], infos), t1[id]);
          IdsOfArtistsKept(m1, inverse1, m, inverse, ArtistsOf(playlists[i].tracks[j], infos), t1[id]);
        } else {
          var tracks := playlists[k].tracks;
          assert TrackListed(t1, t, m, inverse, tracks, |tracks|, infos, id);
          var j :| 0 <= j < |tracks| && tracks[j].trackId == id && IdsOfArtists(m, inverse, ArtistsOf(tracks[j], infos), t[id]);
          assert playlists[k].tracks[j].trackId == id;
        }
      }
    }
  }

  // ---------------------------------------------------------------------
  // Permutation

  /** `np.random.permutation(n)`: each of `0 .. n-1` exactly once. */
  predicate IsPermutation(perm: seq<nat>) {
    (forall i :: 0 <= i < |perm| ==> perm[i] < |perm|) &&
    (forall i, j :: 0 <= i < j < |perm| ==> perm[i] != perm[j]) &&
    (forall k :: 0 <= k < |perm| ==> k in perm)
  }

  /** `[permutation[artist_id] for artist_id in artist_ids]` */
  function Relabel(perm: seq<nat>, ids: seq<nat>): seq<nat>
    requires forall j :: 0 <= j < |ids| ==> ids[j] < |perm|
  {
    seq(|ids|, j requires 0 <= j < |ids| => perm[ids[j]])
  }

  /** A relabelled list is again without repeats and holds ids below `n`. */
  lemma RelabelDistinct(perm: seq<nat>, ids: seq<nat>)
    requires IsPermutation(perm) && Distinct(ids)
    requires forall j :: 0 <= j < |ids| ==> ids[j] < |perm|
    ensures Distinct(Relabel(perm, ids))
    ensures forall j :: 0 <= j < |ids| ==> Relabel(perm, ids)[j] < |perm|
  {
  }

  /** The artist ids of every table are below `n`. */
  predicate KeysBelow<V>(data: seq<Row<V>>, n: nat) {
    forall i, a :: 0 <= i < |data| && a in data[i].cells ==> a < n
  }

  /** The permutation's inverse: `InversePermutation(perm)[b]` is the
      place of `b` in `perm`. */
  ghost function InversePermutation(perm: seq<nat>): (inv: seq<nat>)
    requires IsPermutation(perm)
    ensures |inv| == |perm|
    ensures forall b :: 0 <= b < |perm| ==> inv[b] < |perm| && perm[inv[b]] == b
    ensures forall i :: 0 <= i < |perm| ==> inv[perm[i]] == i
  {
    seq(|perm|, b requires 0 <= b < |perm| && b in perm => var j :| 0 <= j < |perm| && perm[j] == b; j)
  }

  /** One table with its keys sent through the permutation: the count of
      `a` moves to `perm[a]`. */
  ghost function PermuteCells(cells: map<nat, nat>, perm: seq<nat>): map<nat, nat>
    requires IsPermutation(perm)
  {
    var inv := InversePermutation(perm);
    map b | 0 <= b < |perm| && inv[b] in cells :: cells[inv[b]]
  }

  /** One row of `perm_data`. */
  ghost function PermuteRow(row: Row<nat>, perm: seq<nat>): Row<nat>
    requires IsPermutation(perm) && forall a :: a in row.cells ==> a < |perm|
  {
    Row(row.pid, PermuteCells(row.cells, perm))
  }

  /** `perm_data`: every table relabelled, in the same order. */
  ghost function PermutedData(data: seq<Row<nat>>, perm: seq<nat>): (r: seq<Row<nat>>)
    requires IsPermutation(perm) && KeysBelow(data, |perm|)
    ensures |r| == |data| && forall i :: 0 <= i < |data| ==> r[i] == PermuteRow(data[i], perm)
  {
    if data == [] then []
    else [PermuteRow(data[0], perm)] + PermutedData(data[1..], perm)
  }

  /** A relabelled table holds the count of `a` under `perm[a]`, and only
      those keys. */
  lemma PermuteCellsCounts(cells: map<nat, nat>, perm: seq<nat>)
    requires IsPermutation(perm) && forall a :: a in cells ==> a < |perm|
    ensures forall a :: a in cells ==> perm[a] in PermuteCells(cells, perm) && PermuteCells(cells, perm)[perm[a]] == cells[a]
    ensures forall b :: b in PermuteCells(cells, perm) ==> b < |perm| && exists a :: a in cells && perm[a] == b
    ensures forall a :: 0 <= a < |perm| ==> (perm[a] in PermuteCells(cells, perm) <==> a in cells)
  {
    var q := PermuteCells(cells, perm);
    forall a | 0 <= a < |perm| && perm[a] in q ensures a in cells {
      var a' :| a' in cells && perm[a'] == perm[a];
      assert a' == a;
    }
  }

  lemma PermuteCellsHas(cells: map<nat, nat>, perm: seq<nat>, a: nat)
    requires IsPermutation(perm) && (forall a :: a in cells ==> a < |perm|) && a < |perm|
    ensures perm[a] in PermuteCells(cells, perm) <==> a in cells
  {
    PermuteCellsCounts(cells, perm);
  }

  lemma PermuteCellsAt(cells: map<nat, nat>, perm: seq<nat>, a: nat)
    requires IsPermutation(perm) && a in cells && a < |perm|
    ensures perm[a] in PermuteCells(cells, perm) && PermuteCells(cells, perm)[perm[a]] == cells[a]
  {
    assert InversePermutation(perm)[perm[a]] == a;
  }

  /** A map built pair by pair, with a witness for each key, is the
      relabelled table. */
  lemma PermuteCellsBuilt(cells: map<nat, nat>, perm: seq<nat>, p: map<nat, nat>, source: map<nat, nat>)
    requires IsPermutation(perm)
    requires forall a :: a in cells ==> a < |perm| && perm[a] in p && p[perm[a]] == cells[a]
    requires forall b :: b in p ==> b in source && source[b] in cells && perm[source[b]] == b
    ensures p == PermuteCells(cells, perm)
  {
    var q := PermuteCells(cells, perm);
    forall b ensures (b in p <==> b in q) && (b in p ==> p[b] == q[b]) {
      if b in p {
        assert perm[source[b]] == b;
      }
      if b in q {
        assert InversePermutation(perm)[b] in cells;
      }
    }
  }

  /** In the permuted tables, the artist numbered `a` before is counted
      under `perm[a]`: its document frequency moves with it. */
  lemma {:induction false} FrequencyPermuted(data: seq<Row<nat>>, perm: seq<nat>, k: nat, a: nat)
    requires IsPermutation(perm) && KeysBelow(data, |perm|) && k <= |data| && a < |perm|
    ensures Frequency(PermutedData(data, perm), k, perm[a]) == Frequency(data, k, a)
  {
    if k > 0 {
      FrequencyPermuted(data, perm, k - 1, a);
      PermuteCellsHas(data[k - 1].cells, perm, a);
      assert PermutedData(data, perm)[k - 1].cells == PermuteCells(data[k - 1].cells, perm);
    }
  }

  /** `t'` holds the lists of `t`, each relabelled. */
  ghost predicate RelabelledLists(t: map<string, seq<nat>>, t': map<string, seq<nat>>, perm: seq<nat>) {
    (forall x :: x in t' <==> x in t) &&
    ListsBelow(t, |perm|) &&
    (forall x :: x in t ==> t'[x] == Relabel(perm, t[x]))
  }

  /** The tracks listing artist `a` before are those listing `perm[a]`
      after. */
  lemma {:induction false} ContainingRelabelled(tracks: seq<Track>, k: nat, t: map<string, seq<nat>>,
                                                t': map<string, seq<nat>>, perm: seq<nat>, a: nat)
    requires IsPermutation(perm) && RelabelledLists(t, t', perm) && a < |perm| && k <= |tracks|
    requires forall j :: 0 <= j < k ==> tracks[j].trackId in t
    ensures Containing(tracks, k, t', perm[a]) == Containing(tracks, k, t, a)
  {
    if k > 0 {
      ContainingRelabelled(tracks, k - 1, t, t', perm, a);
      var ids := t[tracks[k - 1].trackId];
      assert perm[a] in Relabel(perm, ids) <==> a in ids by {
        if perm[a] in Relabel(perm, ids) {
          var j :| 0 <= j < |ids| && Relabel(perm, ids)[j] == perm[a];
          assert perm[ids[j]] == perm[a];
        }
        if a in ids {
          var j :| 0 <= j < |ids| && ids[j] == a;
          assert Relabel(perm, ids)[j] == perm[a];
        }
      }
    }
  }

  /** No list holds an id at or above `n`, so no track counts it. */
  lemma {:induction false} ContainingAbove(tracks: seq<Track>, k: nat, t: map<string, seq<nat>>, n: nat, b: nat)
    requires k <= |tracks| && n <= b
    requires forall j :: 0 <= j < k ==> tracks[j].trackId in t
    requires ListsBelow(t, n)
    ensures Containing(tracks, k, t, b) == 0
  {
    if k > 0 {
      ContainingAbove(tracks, k - 1, t, n, b);
    }
  }

  /** One key of a relabelled table of counts. */
  lemma PermutedCountKey(tracks: seq<Track>, t: map<string, seq<nat>>, t': map<string, seq<nat>>,
                         perm: seq<nat>, b: nat)
    requires IsPermutation(perm) && RelabelledLists(t, t', perm) && ListsDistinct(t) && ListsDistinct(t')
    requires forall j :: 0 <= j < |tracks| ==> tracks[j].trackId in t
    ensures var p, c' := PermuteCells(TrackCounts(tracks, |tracks|, t), perm), TrackCounts(tracks, |tracks|, t');
      (b in p <==> b in c') && (b in c' ==> c'[b] == p[b])
  {
    TrackCountsCount(tracks, |tracks|, t', b);
    if b < |perm| {
      var a := InversePermutation(perm)[b];
      ContainingRelabelled(tracks, |tracks|, t, t', perm, a);
      TrackCountsCount(tracks, |tracks|, t, a);
    } else {
      ContainingAbove(tracks, |tracks|, t', |perm|, b);
    }
  }

  /** A relabelled table of counts is the table of the relabelled lists. */
  lemma PermutedCounts(tracks: seq<Track>, t: map<string, seq<nat>>, t': map<string, seq<nat>>, perm: seq<nat>)
    requires IsPermutation(perm) && RelabelledLists(t, t', perm) && ListsDistinct(t) && ListsDistinct(t')
    requires forall j :: 0 <= j < |tracks| ==> tracks[j].trackId in t
    ensures PermuteCells(TrackCounts(tracks, |tracks|, t), perm) == TrackCounts(tracks, |tracks|, t')
  {
    forall b {
      PermutedCountKey(tracks, t, t', perm, b);
    }
  }

  /** After `permutate_data`, each relabelled table still counts its
      playlist's tracks, now through the relabelled lists: the three
      tables agree. */
  lemma PermutedRowsCount(playlists: seq<Playlist>, data: seq<Row<nat>>, t: map<string, seq<nat>>,
                          t': map<string, seq<nat>>, perm: seq<nat>)
    requires IsPermutation(perm) && RelabelledLists(t, t', perm) && ListsDistinct(t) && ListsDistinct(t')
    requires |data| == |playlists| && RowsCount(playlists, data, |data|, t) && KeysBelow(data, |perm|)
    ensures RowsCount(playlists, PermutedData(data, perm), |data|, t')
  {
    forall i | 0 <= i < |data|
      ensures PermutedData(data, perm)[i].cells == TrackCounts(playlists[i].tracks, |playlists[i].tracks|, t')
    {
      PermutedCounts(playlists[i].tracks, t, t', perm);
    }
  }

  /** A relabelled id list is the list of the same artists under the
      relabelled bijection. */
  lemma IdsOfArtistsRelabelled(m: map<string, nat>, inverse: seq<string>, m': map<string, nat>, inverse': seq<string>,
                               perm: seq<nat>, artists: set<string>, ids: seq<nat>)
    requires Bijective(m, inverse) && Bijective(m', inverse') && IsPermutation(perm) && |perm| == |m|
    requires forall a :: a in m' <==> a in m
    requires forall a :: a in m ==> m'[a] == perm[m[a]]
    requires IdsOfArtists(m, inverse, artists, ids)
    ensures forall j :: 0 <= j < |ids| ==> ids[j] < |perm|
    ensures IdsOfArtists(m', inverse', artists, Relabel(perm, ids))
  {
    var r := Relabel(perm, ids);
    RelabelDistinct(perm, ids);
    forall a | a in artists ensures a in m' && m'[a] in r {
      var j :| 0 <= j < |ids| && ids[j] == m[a];
      assert r[j] == m'[a];
    }
    forall j | 0 <= j < |r| ensures r[j] < |inverse'| && inverse'[r[j]] in artists {
      var a := inverse[ids[j]];
      assert m'[a] == r[j];
    }
  }

  /** After `permutate_data` the new lists still name their tracks'
      artists, through the relabelled bijection. */
  lemma PlaylistsListedRelabelled(t0: map<string, seq<nat>>, t: map<string, seq<nat>>, t': map<string, seq<nat>>,
                                  m: map<string, nat>, inverse: seq<string>, m': map<string, nat>, inverse': seq<string>,
                                  perm: seq<nat>, playlists: seq<Playlist>, infos: map<string, TrackInfo>)
    requires Bijective(m, inverse) && Bijective(m', inverse') && IsPermutation(perm) && |perm| == |m|
    requires forall a :: a in m' <==> a in m
    requires forall a :: a in m ==> m'[a] == perm[m[a]]
    requires RelabelledLists(t, t', perm)
    requires PlaylistsListed(t0, t, m, inverse, playlists, |playlists|, infos)
    ensures PlaylistsListed(t0, t', m', inverse', playlists, |playlists|, infos)
  {
    forall id | id in t' && id !in t0
      ensures PlaylistListed(t0, t', m', inverse', playlists, |playlists|, infos, id)
    {
      assert PlaylistListed(t0, t, m, inverse, playlists, |playlists|, infos, id);
      var i, j :| 0 <= i < |playlists| && 0 <= j < |playlists[i].tracks| && playlists[i].tracks[j].trackId == id &&
                  IdsOfArtists(m, inverse, ArtistsOf(playlists[i].tracks[j], infos), t[id]);
      IdsOfArtistsRelabelled(m, inverse, m', inverse', perm, ArtistsOf(playlists[i].tracks[j], infos), t[id]);
    }
  }

  /** The loop rebuilding the bijection after `i` ids: the artists with
      ids below `i` hold their relabelled ids, and the rebuilt inverse
      names them at their new ids. */
  predicate Relabelling(m: map<string, nat>, inverse: seq<string>, perm: seq<nat>, i: nat,
                        m': map<string, nat>, inverse': seq<string>)
    requires IsPermutation(perm) && |perm| == |inverse|
  {
    i <= |inverse| && |inverse'| == |inverse| &&
    (forall j :: 0 <= j < i ==> inverse[j] in m') &&
    (forall a :: a in m' ==> a in m && m[a] < i && m'[a] == perm[m[a]]) &&
    (forall j :: 0 <= j < i ==> inverse'[perm[j]] == inverse[j])
  }

  /** One more id: no artist holds its new id yet, and the loop state
      extends by it. */
  lemma RelabellingStep(m: map<string, nat>, inverse: seq<string>, perm: seq<nat>, i: nat,
                        m': map<string, nat>, inverse': seq<string>)
    requires Bijective(m, inverse) && IsPermutation(perm) && |perm| == |inverse|
    requires i < |inverse| && Relabelling(m, inverse, perm, i, m', inverse')
    ensures forall b :: b in m' ==> m'[b] != perm[i]
    ensures Relabelling(m, inverse, perm, i + 1, m'[inverse[i] := perm[i]], inverse'[perm[i] := inverse[i]])
  {
    var m'', inverse'' := m'[inverse[i] := perm[i]], inverse'[perm[i] := inverse[i]];
    forall j | 0 <= j < i + 1 ensures inverse''[perm[j]] == inverse[j] {
      if j < i {
        assert perm[j] != perm[i];
      }
    }
  }

  /** The bijection rebuilt with every id sent through the permutation is
      again a bijection with the rebuilt inverse. */
  lemma PermutedBijective(m: map<string, nat>, inverse: seq<string>, perm: seq<nat>,
                          m': map<string, nat>, inverse': seq<string>)
    requires Bijective(m, inverse) && IsPermutation(perm) && |perm| == |m| && |inverse'| == |m|
    requires forall a :: a in m' <==> a in m
    requires forall a :: a in m ==> m'[a] == perm[m[a]]
    requires forall j :: 0 <= j < |m| ==> inverse'[perm[j]] == inverse[j]
    ensures Bijective(m', inverse')
  {
    assert m'.Keys == m.Keys;
    forall i | 0 <= i < |inverse'| ensures inverse'[i] in m' && m'[inverse'[i]] == i {
      assert i in perm;
      var j :| 0 <= j < |perm| && perm[j] == i;
      assert m[inverse[j]] == j;
    }
  }

  // ---------------------------------------------------------------------
  // tf-idf weights and the matrix

  /** A key holding the largest count of a non-empty table. */
  ghost function MaxKey(cells: map<nat, nat>): (w: nat)
    requires cells != map[]
    ensures w in cells && forall a :: a in cells ==> cells[a] <= cells[w]
    decreases |cells|
  {
    var a :| a in cells;
    var rest := cells - {a};
    assert forall b :: b in cells ==> b == a || b in rest;
    if rest == map[] then a
    else
      assert rest.Keys == cells.Keys - {a};
      var w := MaxKey(rest);
      if cells[a] < cells[w] then w else a
  }

  /** `max(playlist_artist_ids.values())` of a non-empty table. */
  ghost function MaxCount(cells: map<nat, nat>): nat
    requires cells != map[]
  {
    cells[MaxKey(cells)]
  }

  /** A value of the table that bounds all the others is its maximum. */
  lemma MaxCountIs(cells: map<nat, nat>, m: nat, w: nat)
    requires w in cells && cells[w] == m && forall a :: a in cells ==> cells[a] <= m
    ensures MaxCount(cells) == m
  {
    assert cells[MaxKey(cells)] <= m && m <= cells[MaxKey(cells)];
  }

  /** `tf = count / max_term` */
  function Tf(count: nat, maxTerm: nat): (r: real)
    requires maxTerm > 0
    ensures 0.0 <= r
    ensures r <= 1.0 <==> count <= maxTerm
    ensures r == 1.0 <==> count == maxTerm
  {
    count as real / maxTerm as real
  }

  /** The largest count of a table has term frequency one. */
  lemma TfOfMax(m: nat)
    requires m > 0
    ensures Tf(m, m) == 1.0
  {
  }

  /** `idf = np.log(len(data) / self.artist_in_playlist_count[artist_id])` */
  function Idf(rows: nat, doc: nat, log: real -> real): real
    requires doc > 0
  {
    log(rows as real / doc as real)
  }

  /** `tf * idf` */
  function Weight(count: nat, maxTerm: nat, rows: nat, doc: nat, log: real -> real): (r: real)
    requires maxTerm > 0 && doc > 0
    ensures count == maxTerm ==> r == Idf(rows, doc, log)
    ensures count == 0 ==> r == 0.0
  {
    Tf(count, maxTerm) * Idf(rows, doc, log)
  }

  /** A table `normalize_data` rewrites without raising: it is not empty,
      its largest count is positive and every key has a positive document
      count. */
  ghost predicate Normalizable(cells: map<nat, nat>, docCounts: Counts) {
    cells != map[] && MaxCount(cells) > 0 &&
    forall a :: a in cells ==> a in docCounts && docCounts[a] > 0
  }

  /** The rewritten table: the same keys, each count replaced by its weight. */
  ghost function Normalized(cells: map<nat, nat>, rows: nat, docCounts: Counts, log: real -> real): map<nat, real>
    requires Normalizable(cells, docCounts)
  {
    map a | a in cells :: Weight(cells[a], MaxCount(cells), rows, docCounts[a], log)
  }

  /** The exceptions rewriting `cells` can raise: `ValueError` from `max`
      of an empty table, `ZeroDivisionError` from a zero maximum or a zero
      document count, `KeyError` from an id without a document count. Which
      one a table with several bad keys raises depends on its key order. */
  ghost predicate RowError(cells: map<nat, nat>, docCounts: Counts, e: Error) {
    if cells == map[] then e == ValueError
    else if MaxCount(cells) == 0 then e == ZeroDivisionError
    else
      (e == KeyError && exists a :: a in cells && a !in docCounts) ||
      (e == ZeroDivisionError && exists a :: a in cells && a in docCounts && docCounts[a] == 0)
  }

  /** `normalize_data` on every table, in order. */
  ghost function NormalizedData(data: seq<Row<nat>>, rows: nat, docCounts: Counts, log: real -> real): (r: seq<Row<real>>)
    requires forall i :: 0 <= i < |data| ==> Normalizable(data[i].cells, docCounts)
    ensures |r| == |data|
    ensures forall i :: 0 <= i < |data| ==> r[i] == Row(data[i].pid, Normalized(data[i].cells, rows, docCounts, log))
  {
    if data == [] then []
    else [Row(data[0].pid, Normalized(data[0].cells, rows, docCounts, log))] + NormalizedData(data[1..], rows, docCounts, log)
  }

  /** A rewritten table keeps its keys, and an artist with the largest
      count of its table gets the whole idf factor. */
  lemma NormalizedKeys(cells: map<nat, nat>, rows: nat, docCounts: Counts, log: real -> real)
    requires Normalizable(cells, docCounts)
    ensures Normalized(cells, rows, docCounts, log).Keys == cells.Keys
    ensures forall a :: a in cells && cells[a] == MaxCount(cells) ==>
              Normalized(cells, rows, docCounts, log)[a] == Idf(rows, docCounts[a], log)
  {
    TfOfMax(MaxCount(cells));
  }

  /** Relabelling a table keeps its values, so its maximum. */
  lemma MaxCountPermuted(cells: map<nat, nat>, perm: seq<nat>, a: nat)
    requires IsPermutation(perm) && a in cells && forall a :: a in cells ==> a < |perm|
    ensures PermuteCells(cells, perm) != map[] && MaxCount(PermuteCells(cells, perm)) == MaxCount(cells)
  {
    PermuteCellsCounts(cells, perm);
    var p := PermuteCells(cells, perm);
    var w := MaxKey(cells);
    assert perm[w] in p;
    forall b | b in p ensures p[b] <= MaxCount(cells) {
      var inv := InversePermutation(perm);
      assert p[b] == cells[inv[b]];
    }
    MaxCountIs(p, MaxCount(cells), perm[w]);
  }

  /** The weight `normalize_data` gives the relabelled key `perm[a]` uses
      the document count stored under `perm[a]`, which `permutate_data` left
      keyed by the original ids: it is the document frequency of the artist
      numbered `perm[a]` before, while the artist now numbered `perm[a]` had
      the frequency of `a`. */
  lemma IdfUsesUnpermutedCount(data: seq<Row<nat>>, perm: seq<nat>, docCounts: Counts, log: real -> real, i: nat, a: nat)
    requires IsPermutation(perm) && KeysBelow(data, |perm|) && i < |data| && a in data[i].cells
    requires docCounts == DocCounts(map[], data, |data|)
    requires forall k :: 0 <= k < |data| ==> Normalizable(PermutedData(data, perm)[k].cells, docCounts)
    ensures var d' := PermutedData(data, perm);
      perm[a] in d'[i].cells && perm[a] in docCounts && MaxCount(d'[i].cells) == MaxCount(data[i].cells) &&
      NormalizedData(d', |data|, docCounts, log)[i].cells[perm[a]] ==
        Weight(data[i].cells[a], MaxCount(d'[i].cells), |data|, docCounts[perm[a]], log)
    ensures docCounts[perm[a]] == Frequency(data, |data|, perm[a])
    ensures Frequency(PermutedData(data, perm), |data|, perm[a]) == Frequency(data, |data|, a)
  {
    var d' := PermutedData(data, perm);
    var c, c' := data[i].cells, d'[i].cells;
    assert forall b :: b in c ==> b < |perm|;
    assert c' == PermuteCells(c, perm);
    PermuteCellsAt(c, perm, a);
    MaxCountPermuted(c, perm, a);
    assert Normalizable(c', docCounts);
    assert NormalizedData(d', |data|, docCounts, log)[i].cells == Normalized(c', |data|, docCounts, log);
    DocCountsBounds(data, perm[a]);
    FrequencyPermuted(data, perm, |data|, a);
  }

  /** Every key of `out` is a key of `cells` holding its weight. */
  ghost predicate Weighted(cells: map<nat, nat>, out: map<nat, real>, maxTerm: nat, rows: nat, docCounts: Counts, log: real -> real) {
    forall b :: b in out ==>
      b in cells && b in docCounts && docCounts[b] > 0 && maxTerm > 0 &&
      out[b] == Weight(cells[b], maxTerm, rows, docCounts[b], log)
  }

  /** A table weighted key by key, every key done, is the rewritten table. */
  lemma NormalizedBuilt(cells: map<nat, nat>, out: map<nat, real>, maxTerm: nat, rows: nat, docCounts: Counts, log: real -> real)
    requires cells != map[] && maxTerm == MaxCount(cells)
    requires Weighted(cells, out, maxTerm, rows, docCounts, log)
    requires forall a :: a in cells ==> a in out && a in docCounts && docCounts[a] > 0
    ensures Normalizable(cells, docCounts) && out == Normalized(cells, rows, docCounts, log)
  {
    var w := MaxKey(cells);
    assert w in out;
  }

  /** A sparse `m x n` matrix; absent entries are zero. */
  datatype Matrix = Matrix(height: nat, width: nat, entries: map<(nat, nat), real>)

  /** `matrix[i, j]` */
  function Cell(m: Matrix, i: nat, j: nat): real {
    GetOr(m.entries, (i, j), 0.0)
  }

  /** `m` is the `len(rows) x n` matrix holding `rows[i][a]` at `(i, a)`
      and zero elsewhere. */
  predicate Holds(m: Matrix, rows: seq<Row<real>>, n: nat) {
    m.height == |rows| && m.width == n &&
    forall i, j :: 0 <= i < |rows| && 0 <= j < n ==> Cell(m, i, j) == GetOr(rows[i].cells, j, 0.0)
  }

  /** The keys of every table are ids some list holds, so below `n`. */
  lemma RowsBelow(playlists: seq<Playlist>, data: seq<Row<nat>>, t: map<string, seq<nat>>, n: nat)
    requires |data| <= |playlists| && RowsCount(playlists, data, |data|, t) && ListsDistinct(t)
    requires ListsBelow(t, n)
    ensures KeysBelow(data, n)
  {
    forall i, b | 0 <= i < |data| && b in data[i].cells ensures b < n {
      var tracks := playlists[i].tracks;
      TrackCountsCount(tracks, |tracks|, t, b);
      if b >= n {
        ContainingAbove(tracks, |tracks|, t, n, b);
      }
    }
  }

  /** Relabelled tables hold ids below the permutation's length. */
  lemma PermutedKeysBelow(data: seq<Row<nat>>, perm: seq<nat>)
    requires IsPermutation(perm) && KeysBelow(data, |perm|)
    ensures KeysBelow(PermutedData(data, perm), |perm|)
  {
    var d' := PermutedData(data, perm);
    forall i, b | 0 <= i < |d'| && b in d'[i].cells ensures b < |perm| {
      PermuteCellsCounts(data[i].cells, perm);
    }
  }

  /** Rewritten tables keep their keys, so their bound. */
  lemma NormalizedKeysBelow(data: seq<Row<nat>>, rows: nat, docCounts: Counts, log: real -> real, n: nat)
    requires forall i :: 0 <= i < |data| ==> Normalizable(data[i].cells, docCounts)
    requires KeysBelow(data, n)
    ensures KeysBelow(NormalizedData(data, rows, docCounts, log), n)
  {
    var d' := NormalizedData(data, rows, docCounts, log);
    forall i, b | 0 <= i < |d'| && b in d'[i].cells ensures b < n {
      NormalizedKeys(data[i].cells, rows, docCounts, log);
    }
  }

  /** A relabelled table is empty exactly when the table is. */
  lemma PermuteCellsEmpty(cells: map<nat, nat>, perm: seq<nat>)
    requires IsPermutation(perm) && forall a :: a in cells ==> a < |perm|
    ensures PermuteCells(cells, perm) == map[] <==> cells == map[]
  {
    if cells != map[] {
      var a :| a in cells;
      PermuteCellsAt(cells, perm, a);
    } else {
      var inv := InversePermutation(perm);
      assert forall b :: b !in PermuteCells(cells, perm);
    }
  }

  /** Loaded into empty tables, a relabelled table with a positive count
      can be rewritten: every id is counted by some playlist. */
  lemma FreshRowWeighable(data: seq<Row<nat>>, perm: seq<nat>, i: nat)
    requires IsPermutation(perm) && KeysBelow(data, |perm|) && Frequent(0, |perm|, data, |data|)
    requires i < |data| && data[i].cells != map[] && MaxCount(data[i].cells) > 0
    ensures Normalizable(PermutedData(data, perm)[i].cells, DocCounts(map[], data, |data|))
  {
    var c := data[i].cells;
    var c' := PermutedData(data, perm)[i].cells;
    assert c' == PermuteCells(c, perm);
    var a :| a in c;
    MaxCountPermuted(c, perm, a);
    PermutedKeysBelow(data, perm);
    forall b | b in c'
      ensures b in DocCounts(map[], data, |data|) && DocCounts(map[], data, |data|)[b] > 0
    {
      DocCountsCount(map[], data, |data|, b);
    }
  }

  /** Loaded into empty tables, the relabelled table of playlist `i` can be
      rewritten exactly when the playlist has a track. */
  lemma FreshRowNormalizable(playlists: seq<Playlist>, data: seq<Row<nat>>, t: map<string, seq<nat>>,
                             perm: seq<nat>, i: nat)
    requires |data| == |playlists| && RowsCount(playlists, data, |data|, t)
    requires ListsDistinct(t) && ListsNonEmpty(t)
    requires IsPermutation(perm) && KeysBelow(data, |perm|) && Frequent(0, |perm|, data, |data|)
    requires i < |data|
    ensures Normalizable(PermutedData(data, perm)[i].cells, DocCounts(map[], data, |data|)) <==> playlists[i].tracks != []
  {
    var tracks := playlists[i].tracks;
    var c := data[i].cells;
    assert PermutedData(data, perm)[i].cells == PermuteCells(c, perm);
    TrackCountsEmpty(tracks, |tracks|, t);
    PermuteCellsEmpty(c, perm);
    if tracks != [] {
      TrackCountsPositive(tracks, |tracks|, t, MaxKey(c));
      FreshRowWeighable(data, perm, i);
    }
  }

  /** Loaded into empty tables, `normalize_data` raises nothing exactly
      when every playlist has a track. */
  lemma FreshNormalizable(playlists: seq<Playlist>, data: seq<Row<nat>>, t: map<string, seq<nat>>, perm: seq<nat>)
    requires |data| == |playlists| && RowsCount(playlists, data, |data|, t)
    requires ListsDistinct(t) && ListsNonEmpty(t)
    requires IsPermutation(perm) && KeysBelow(data, |perm|) && Frequent(0, |perm|, data, |data|)
    ensures (forall i :: 0 <= i < |data| ==> Normalizable(PermutedData(data, perm)[i].cells, DocCounts(map[], data, |data|))) <==>
            (forall i :: 0 <= i < |playlists| ==> playlists[i].tracks != [])
  {
    var d', docs := PermutedData(data, perm), DocCounts(map[], data, |data|);
    if forall i :: 0 <= i < |data| ==> Normalizable(d'[i].cells, docs) {
      forall i | 0 <= i < |playlists| ensures playlists[i].tracks != [] {
        FreshRowNormalizable(playlists, data, t, perm, i);
      }
    } else {
      var i :| 0 <= i < |data| && !Normalizable(d'[i].cells, docs);
      FreshRowNormalizable(playlists, data, t, perm, i);
    }
  }

  /** The cache file `artist_matrix_service.pk` under the cache directory. */
  function CacheFile(cachedPath: string): (path: string)
    ensures EndsWith(path, "artist_matrix_service.pk")
  {
    PathJoin(cachedPath, "artist_matrix_service.pk")
  }

  class ArtistMatrixService {
    const filepath: string
    /** `artist_to_id`: artist uri to artist id. */
    var artistToId: map<string, nat>
    /** The bidirectional map's inverse, `artist_to_id.inverse`, as a list:
        `idToArtist[i]` is the artist with id `i`. */
    var idToArtist: seq<string>
    /** `track_to_ids`: track id to the ids of its artists. */
    var trackToIds: map<string, seq<nat>>
    /** `artist_in_playlist_count`: artist id to the number of playlists
        holding one of its tracks. */
    var artistInPlaylistCount: Counts
    /** `matrix`: the playlist-artist matrix of tf-idf weights. */
    var matrix: Matrix

    /** The ids are a bijection onto `0 .. len-1`, and every artist list is
        non-empty, without repeats and holds known ids. */
    predicate Valid()
      reads this`artistToId, this`idToArtist, this`trackToIds
    {
      Bijective(artistToId, idToArtist) && ListsDistinct(trackToIds) && ListsNonEmpty(trackToIds) &&
      ListsBelow(trackToIds, |artistToId|)
    }

    constructor (cachedPath: string)
      ensures filepath == CacheFile(cachedPath)
      ensures artistToId == map[] && idToArtist == [] && trackToIds == map[]
      ensures artistInPlaylistCount == map[]
      ensures matrix.height == 0 && matrix.width == 0 && matrix.entries == map[]
      ensures Valid()
    {
      filepath := CacheFile(cachedPath);
      artistToId := map[];
      idToArtist := [];
      trackToIds := map[];
      artistInPlaylistCount := map[];
      matrix := Matrix(0, 0, map[]);
    }

    /** The loop over a track's artist set: a known artist keeps its id, a
        new one gets `len(artist_to_id)`. The set's iteration order is
        left open. */
    method AssignIds(artists: set<string>) returns (ids: seq<nat>)
      requires Bijective(artistToId, idToArtist)
      modifies this`artistToId, this`idToArtist
      ensures Bijective(artistToId, idToArtist) && Extends(old(artistToId), artistToId)
      ensures forall a :: a in artistToId <==> a in old(artistToId) || a in artists
      ensures |old(artistToId)| <= |artistToId|
      ensures IdsOfArtists(artistToId, idToArtist, artists, ids)
    {
      var order := Enumerate(artists);
      ids := [];
      var k := 0;
      while k < |order|
        invariant Assigning(artists, order, k, ids, old(artistToId))
      {
        ids := AssignStep(artists, order, k, ids, old(artistToId));
        k := k + 1;
      }
      IdsFromOrder(artistToId, idToArtist, artists, order, ids);
    }

    /** The state of that loop after the first `k` artists of `order`,
        started from the ids `m0`. */
    ghost predicate Assigning(artists: set<string>, order: seq<string>, k: nat, ids: seq<nat>, m0: map<string, nat>)
      reads this`artistToId, this`idToArtist
    {
      k <= |order| && |ids| == k &&
      Bijective(artistToId, idToArtist) && Extends(m0, artistToId) && |m0| <= |artistToId| &&
      (forall a :: a in artistToId ==> a in m0 || a in artists) &&
      forall j :: 0 <= j < k ==> order[j] in artistToId && artistToId[order[j]] == ids[j]
    }

    /** One turn of that loop. */
    method AssignStep(artists: set<string>, order: seq<string>, k: nat, ids: seq<nat>, ghost m0: map<string, nat>)
      returns (ids': seq<nat>)
      requires k < |order| && order[k] in artists && Assigning(artists, order, k, ids, m0)
      modifies this`artistToId, this`idToArtist
      ensures Assigning(artists, order, k + 1, ids', m0)
    {
      ghost var m1 := artistToId;
      var id := AssignOne(order[k]);
      ExtendsTrans(m0, m1, artistToId);
      ids' := ids + [id];
    }

    /** One artist of that loop. */
    method AssignOne(a: string) returns (id: nat)
      requires Bijective(artistToId, idToArtist)
      modifies this`artistToId, this`idToArtist
      ensures Bijective(artistToId, idToArtist) && Extends(old(artistToId), artistToId)
      ensures forall b :: b in artistToId <==> b in old(artistToId) || b == a
      ensures a in artistToId && artistToId[a] == id
      ensures id == if a in old(artistToId) then old(artistToId)[a] else |old(artistToId)|
      ensures |old(artistToId)| <= |artistToId|
    {
      if a in artistToId {
        id := artistToId[a];
      } else {
        AddArtist(artistToId, idToArtist, a);
        id := |artistToId|;
        artistToId := artistToId[a := id];
        idToArtist := idToArtist + [a];
      }
    }

    /** The artist-id list of one track: reused from `track_to_ids` when
        the track was seen before, otherwise built from its artist set and
        stored. Every id this creates is in the list. */
    method TrackArtistIds(track: Track, infos: map<string, TrackInfo>) returns (ids: seq<nat>)
      requires Valid()
      modifies this`artistToId, this`idToArtist, this`trackToIds
      ensures Valid() && Extends(old(artistToId), artistToId) && Extends(old(trackToIds), trackToIds)
      ensures |old(artistToId)| <= |artistToId|
      ensures track.trackId in trackToIds && ids == trackToIds[track.trackId]
      ensures forall t :: t in trackToIds <==> t in old(trackToIds) || t == track.trackId
      ensures track.trackId in old(trackToIds) ==> artistToId == old(artistToId) && trackToIds == old(trackToIds)
      ensures track.trackId !in old(trackToIds) ==> IdsOfArtists(artistToId, idToArtist, ArtistsOf(track, infos), ids)
      ensures forall i :: |old(artistToId)| <= i < |artistToId| ==> i in ids
    {
      if track.trackId in trackToIds {
        ids := trackToIds[track.trackId];
      } else {
        ghost var m0, inv0 := artistToId, idToArtist;
        ids := AssignIds(ArtistsOf(track, infos));
        NewIdsListed(m0, inv0, artistToId, idToArtist, ArtistsOf(track, infos), ids);
        assert |ids| > 0 by {
          assert track.artistId in ArtistsOf(track, infos);
        }
        ListStored(trackToIds, track.trackId, ids, |m0|, |artistToId|);
        trackToIds := trackToIds[track.trackId := ids];
      }
    }

    /** `for artist_id in track_artist_ids`: one more for each id. */
    static method AddCounts(counts: Counts, ids: seq<nat>) returns (c: Counts)
      ensures c == AddAll(counts, ids, |ids|)
    {
      c := counts;
      var k := 0;
      while k < |ids|
        invariant k <= |ids| && c == AddAll(counts, ids, k)
      {
        c := c[ids[k] := GetOr(c, ids[k], 0) + 1];
        k := k + 1;
      }
    }

    /** The track loop of one playlist: every track's list is known
        afterwards, the counts are those of the lists, and every id this
        creates is counted. */
    method PlaylistArtistIds(p: Playlist, infos: map<string, TrackInfo>) returns (counts: Counts)
      requires Valid()
      modifies this`artistToId, this`idToArtist, this`trackToIds
      ensures Valid() && Extends(old(artistToId), artistToId) && Extends(old(trackToIds), trackToIds)
      ensures |old(artistToId)| <= |artistToId|
      ensures TracksCounted(p.tracks, |p.tracks|, trackToIds, counts)
      ensures Covers(|old(artistToId)|, |artistToId|, counts)
      ensures ListedFrom(old(trackToIds), trackToIds, artistToId, idToArtist, p.tracks, |p.tracks|, infos)
    {
      counts := map[];
      var k := 0;
      while k < |p.tracks|
        invariant k <= |p.tracks|
        invariant Valid() && Extends(old(artistToId), artistToId) && Extends(old(trackToIds), trackToIds)
        invariant |old(artistToId)| <= |artistToId|
        invariant TracksCounted(p.tracks, k, trackToIds, counts)
        invariant Covers(|old(artistToId)|, |artistToId|, counts)
        invariant ListedFrom(old(trackToIds), trackToIds, artistToId, idToArtist, p.tracks, k, infos)
      {
        counts := TrackStep(p.tracks, k, infos, counts, old(artistToId), old(trackToIds));
        k := k + 1;
      }
    }

    /** One track of the loop above. */
    method TrackStep(tracks: seq<Track>, k: nat, infos: map<string, TrackInfo>, counts: Counts,
                     ghost m0: map<string, nat>, ghost t0: map<string, seq<nat>>) returns (counts': Counts)
      requires k < |tracks| && Valid()
      requires Extends(m0, artistToId) && Extends(t0, trackToIds) && |m0| <= |artistToId|
      requires TracksCounted(tracks, k, trackToIds, counts) && Covers(|m0|, |artistToId|, counts)
      requires ListedFrom(t0, trackToIds, artistToId, idToArtist, tracks, k, infos)
      modifies this`artistToId, this`idToArtist, this`trackToIds
      ensures Valid() && Extends(m0, artistToId) && Extends(t0, trackToIds) && |m0| <= |artistToId|
      ensures TracksCounted(tracks, k + 1, trackToIds, counts') && Covers(|m0|, |artistToId|, counts')
      ensures ListedFrom(t0, trackToIds, artistToId, idToArtist, tracks, k + 1, infos)
    {
      ghost var m1, inv1, t1 := artistToId, idToArtist, trackToIds;
      var ids := TrackArtistIds(tracks[k], infos);
      ListedFromSnoc(t0, t1, trackToIds, m1, inv1, artistToId, idToArtist, tracks, k, infos);
      ExtendsTrans(m0, m1, artistToId);
      ExtendsTrans(t0, t1, trackToIds);
      TracksCountedFrame(tracks, k, t1, trackToIds, counts);
      AddAllKeys(counts, ids);
      counts' := AddCounts(counts, ids);
    }

    /** `for artist_id in playlist_artist_ids`: one more playlist for each
        artist id of the table. */
    method CountPlaylist(keys: set<nat>)
      modifies this`artistInPlaylistCount
      ensures artistInPlaylistCount == Bump(old(artistInPlaylistCount), keys)
    {
      var order := Enumerate(keys);
      AddAllIsBump(artistInPlaylistCount, order, keys);
      artistInPlaylistCount := AddCounts(artistInPlaylistCount, order);
    }

    /** `init_mapping`: the artist tables of every playlist, in order. */
    method InitMapping(playlists: seq<Playlist>, infos: map<string, TrackInfo>) returns (data: seq<Row<nat>>)
      requires Valid()
      modifies this`artistToId, this`idToArtist, this`trackToIds, this`artistInPlaylistCount
      ensures Valid() && Extends(old(artistToId), artistToId) && Extends(old(trackToIds), trackToIds)
      ensures |data| == |playlists| && RowsCount(playlists, data, |playlists|, trackToIds)
      ensures artistInPlaylistCount == DocCounts(old(artistInPlaylistCount), data, |data|)
      ensures Frequent(|old(artistToId)|, |artistToId|, data, |data|)
      ensures KeysBelow(data, |artistToId|)
      ensures PlaylistsListed(old(trackToIds), trackToIds, artistToId, idToArtist, playlists, |playlists|, infos)
    {
      data := [];
      var k := 0;
      while k < |playlists|
        invariant Mapped(playlists, k, data, old(artistToId), old(trackToIds), old(artistInPlaylistCount))
        invariant PlaylistsListed(old(trackToIds), trackToIds, artistToId, idToArtist, playlists, k, infos)
      {
        data := PlaylistStep(playlists, k, infos, data, old(artistToId), old(trackToIds), old(artistInPlaylistCount));
        k := k + 1;
      }
      RowsBelow(playlists, data, trackToIds, |artistToId|);
    }

    /** The state of the loop above after `k` playlists, started from the
        tables `m0`, `t0` and `c0`. */
    ghost predicate Mapped(playlists: seq<Playlist>, k: nat, data: seq<Row<nat>>,
                           m0: map<string, nat>, t0: map<string, seq<nat>>, c0: Counts)
      reads this`artistToId, this`idToArtist, this`trackToIds, this`artistInPlaylistCount
    {
      k <= |playlists| && |data| == k && Valid() &&
      Extends(m0, artistToId) && Extends(t0, trackToIds) && |m0| <= |artistToId| &&
      RowsCount(playlists, data, k, trackToIds) &&
      artistInPlaylistCount == DocCounts(c0, data, k) &&
      Frequent(|m0|, |artistToId|, data, k)
    }

    /** One playlist of the loop above. */
    method PlaylistStep(playlists: seq<Playlist>, k: nat, infos: map<string, TrackInfo>, data: seq<Row<nat>>,
                        ghost m0: map<string, nat>, ghost t0: map<string, seq<nat>>, ghost c0: Counts)
      returns (data': seq<Row<nat>>)
      requires k < |playlists| && Mapped(playlists, k, data, m0, t0, c0)
      requires PlaylistsListed(t0, trackToIds, artistToId, idToArtist, playlists, k, infos)
      modifies this`artistToId, this`idToArtist, this`trackToIds, this`artistInPlaylistCount
      ensures Mapped(playlists, k + 1, data', m0, t0, c0)
      ensures PlaylistsListed(t0, trackToIds, artistToId, idToArtist, playlists, k + 1, infos)
    {
      ghost var m1, inv1, t1 := artistToId, idToArtist, trackToIds;
      var counts := PlaylistArtistIds(playlists[k], infos);
      PlaylistsListedSnoc(t0, t1, trackToIds, m1, inv1, artistToId, idToArtist, playlists, k, infos);
      CountPlaylist(counts.Keys);
      ExtendsTrans(m0, m1, artistToId);
      ExtendsTrans(t0, t1, trackToIds);
      RowsCountFrame(playlists, data, k, t1, trackToIds);
      var row := Row(playlists[k].playlistId, counts);
      RowsAgree(data, row, c0);
      data' := data + [row];
      RowsSnoc(playlists, data, row, trackToIds);
      FrequentSnoc(|m0|, |m1|, |artistToId|, data, row);
    }

    /** The first loop of `permutate_data`: every artist-id list relabelled. */
    method PermutateTracks(perm: seq<nat>)
      requires Valid() && IsPermutation(perm) && |perm| == |artistToId|
      modifies this`trackToIds
      ensures Valid()
      ensures forall t :: t in trackToIds <==> t in old(trackToIds)
      ensures forall t :: t in old(trackToIds) ==> trackToIds[t] == Relabel(perm, old(trackToIds)[t])
    {
      var order := Enumerate(trackToIds.Keys);
      var permuted: map<string, seq<nat>> := map[];
      var i := 0;
      while i < |order|
        invariant i <= |order|
        invariant forall j :: 0 <= j < i ==> order[j] in permuted
        invariant forall t :: t in permuted ==> t in trackToIds && permuted[t] == Relabel(perm, trackToIds[t])
      {
        var t := order[i];
        permuted := permuted[t := Relabel(perm, trackToIds[t])];
        i := i + 1;
      }
      forall t | t in permuted
        ensures Distinct(permuted[t]) && forall j :: 0 <= j < |permuted[t]| ==> permuted[t][j] < |perm|
      {
        RelabelDistinct(perm, trackToIds[t]);
      }
      trackToIds := permuted;
    }

    /** The second loop of `permutate_data`: the bijection rebuilt with the
        relabelled ids; the bidirectional map never meets an id twice. */
    method PermutateArtists(perm: seq<nat>)
      requires Bijective(artistToId, idToArtist) && IsPermutation(perm) && |perm| == |artistToId|
      modifies this`artistToId, this`idToArtist
      ensures Bijective(artistToId, idToArtist) && |artistToId| == |old(artistToId)|
      ensures forall a :: a in artistToId <==> a in old(artistToId)
      ensures forall a :: a in old(artistToId) ==> artistToId[a] == perm[old(artistToId)[a]]
    {
      var m, inv := artistToId, idToArtist;
      var n := |inv|;
      var permuted: map<string, nat> := map[];
      var inverse: seq<string> := seq(n, _ => "");
      var i := 0;
      while i < n
        invariant Relabelling(m, inv, perm, i, permuted, inverse)
      {
        var artist := inv[i];
        RelabellingStep(m, inv, perm, i, permuted, inverse);
        // a `bidict` refuses a value it already holds
        assert forall b :: b in permuted ==> permuted[b] != perm[i];
        permuted := permuted[artist := perm[i]];
        inverse := inverse[perm[i] := artist];
        i := i + 1;
      }
      assert forall a :: a in m ==> a == inv[m[a]];
      PermutedBijective(m, inv, perm, permuted, inverse);
      artistToId, idToArtist := permuted, inverse;
    }

    /** `permutate_data`: the artist-id lists, the bijection and the table
        keys go through one permutation; `artist_in_playlist_count` keeps
        the ids as they were. */
    method PermutateData(data: seq<Row<nat>>, perm: seq<nat>) returns (r: Result<seq<Row<nat>>>)
      requires Valid() && IsPermutation(perm) && |perm| == |artistToId|
      modifies this`artistToId, this`idToArtist, this`trackToIds
      ensures Valid() && |artistToId| == |old(artistToId)|
      ensures forall t :: t in trackToIds <==> t in old(trackToIds)
      ensures forall t :: t in old(trackToIds) ==> trackToIds[t] == Relabel(perm, old(trackToIds)[t])
      ensures forall a :: a in artistToId <==> a in old(artistToId)
      ensures forall a :: a in old(artistToId) ==> artistToId[a] == perm[old(artistToId)[a]]
      ensures r.Success? <==> KeysBelow(data, |perm|)
      ensures r.Success? ==> KeysBelow(data, |perm|) && r.value == PermutedData(data, perm)
    {
      PermutateTracks(perm);
      PermutateArtists(perm);
      r := PermutateRows(data, perm);
    }

    /** The third loop of `permutate_data`; a key without a place in the
        permutation raises `IndexError`. */
    static method PermutateRows(data: seq<Row<nat>>, perm: seq<nat>) returns (r: Result<seq<Row<nat>>>)
      requires IsPermutation(perm)
      ensures r.Success? <==> KeysBelow(data, |perm|)
      ensures r.Success? ==> KeysBelow(data, |perm|) && r.value == PermutedData(data, perm)
    {
      var rows: seq<Row<nat>> := [];
      var i := 0;
      while i < |data|
        invariant i <= |data| && |rows| == i
        invariant forall k, a :: 0 <= k < i && a in data[k].cells ==> a < |perm|
        invariant forall k :: 0 <= k < i ==> rows[k] == PermuteRow(data[k], perm)
      {
        var cells :- PermutateRow(data[i].cells, perm);
        rows := rows + [Row(data[i].pid, cells)];
        i := i + 1;
      }
      return Success(rows);
    }

    /** One table of `permutate_data`, key by key. */
    static method PermutateRow(cells: map<nat, nat>, perm: seq<nat>) returns (r: Result<map<nat, nat>>)
      requires IsPermutation(perm)
      ensures r.Success? <==> forall a :: a in cells ==> a < |perm|
      ensures r.Success? ==> (forall a :: a in cells ==> a < |perm|) && r.value == PermuteCells(cells, perm)
      ensures r.Failure? ==> r.error == IndexError
    {
      var order: seq<nat> := Enumerate(cells.Keys);
      var permuted: map<nat, nat> := map[];
      ghost var source: map<nat, nat> := map[];
      var i := 0;
      while i < |order|
        invariant i <= |order|
        invariant forall j :: 0 <= j < i ==> order[j] < |perm| && perm[order[j]] in permuted && permuted[perm[order[j]]] == cells[order[j]]
        invariant forall b :: b in permuted ==> b in source && source[b] in cells && source[b] < |perm| && perm[source[b]] == b
      {
        var a := order[i];
        assert a in order;
        if a >= |perm| {
          return Failure(IndexError);
        }
        permuted := permuted[perm[a] := cells[a]];
        source := source[perm[a] := a];
        i := i + 1;
      }
      PermuteCellsBuilt(cells, perm, permuted, source);
      return Success(permuted);
    }

    /** `max(playlist_artist_ids.values())`; `ValueError` on an empty table. */
    static method MaxTerm(cells: map<nat, nat>) returns (r: Result<nat>)
      ensures r.Success? <==> cells != map[]
      ensures r.Success? ==> cells != map[] && r.value == MaxCount(cells)
      ensures r.Failure? ==> r.error == ValueError
    {
      if cells == map[] {
        return Failure(ValueError);
      }
      var order: seq<nat> := Enumerate(cells.Keys);
      assert order != [] by {
        var a :| a in cells;
        assert a in order;
      }
      assert order[0] in cells;
      var m := cells[order[0]];
      ghost var w := order[0];
      var i := 1;
      while i < |order|
        invariant 1 <= i <= |order|
        invariant w in cells && cells[w] == m
        invariant forall j :: 0 <= j < i ==> order[j] in cells && cells[order[j]] <= m
      {
        assert order[i] in order;
        if cells[order[i]] > m {
          m, w := cells[order[i]], order[i];
        }
        i := i + 1;
      }
      forall a | a in cells ensures cells[a] <= m {
        var j :| 0 <= j < |order| && order[j] == a;
      }
      MaxCountIs(cells, m, w);
      return Success(m);
    }

    /** The inner loop of `normalize_data`: every count of one table
        replaced by its weight. */
    static method NormalizeRow(cells: map<nat, nat>, rows: nat, docCounts: Counts, log: real -> real)
      returns (r: Result<map<nat, real>>)
      ensures r.Success? <==> Normalizable(cells, docCounts)
      ensures r.Success? ==> Normalizable(cells, docCounts) && r.value == Normalized(cells, rows, docCounts, log)
      ensures r.Failure? ==> RowError(cells, docCounts, r.error)
    {
      var maxTerm :- MaxTerm(cells);
      var order: seq<nat> := Enumerate(cells.Keys);
      var out: map<nat, real> := map[];
      var i := 0;
      while i < |order|
        invariant i <= |order|
        invariant i > 0 ==> maxTerm > 0
        invariant forall j :: 0 <= j < i ==> order[j] in docCounts && docCounts[order[j]] > 0 && order[j] in out
        invariant Weighted(cells, out, maxTerm, rows, docCounts, log)
      {
        var a := order[i];
        assert a in order;
        if maxTerm == 0 {
          // `tf = count / max_term`
          return Failure(ZeroDivisionError);
        }
        if a !in docCounts {
          return Failure(KeyError);
        }
        if docCounts[a] == 0 {
          // `len(data) / self.artist_in_playlist_count[artist_id]`
          return Failure(ZeroDivisionError);
        }
        out := out[a := Weight(cells[a], maxTerm, rows, docCounts[a], log)];
        i := i + 1;
      }
      forall a | a in cells ensures a in out && a in docCounts && docCounts[a] > 0 {
        var j :| 0 <= j < |order| && order[j] == a;
      }
      NormalizedBuilt(cells, out, maxTerm, rows, docCounts, log);
      return Success(out);
    }

    /** `normalize_data` against the counts the service holds. */
    method NormalizeData(data: seq<Row<nat>>, log: real -> real) returns (r: Result<seq<Row<real>>>)
      ensures r.Success? <==> forall i :: 0 <= i < |data| ==> Normalizable(data[i].cells, artistInPlaylistCount)
      ensures r.Success? ==>
                (forall i :: 0 <= i < |data| ==> Normalizable(data[i].cells, artistInPlaylistCount)) &&
                r.value == NormalizedData(data, |data|, artistInPlaylistCount, log)
      ensures r.Failure? ==>
                exists i :: 0 <= i < |data| && RowError(data[i].cells, artistInPlaylistCount, r.error) &&
                  (forall j :: 0 <= j < i ==> Normalizable(data[j].cells, artistInPlaylistCount))
    {
      var rows: seq<Row<real>> := [];
      var i := 0;
      while i < |data|
        invariant i <= |data| && |rows| == i
        invariant forall k :: 0 <= k < i ==> Normalizable(data[k].cells, artistInPlaylistCount)
        invariant forall k :: 0 <= k < i ==> rows[k] == Row(data[k].pid, Normalized(data[k].cells, |data|, artistInPlaylistCount, log))
      {
        var cells := NormalizeRow(data[i].cells, |data|, artistInPlaylistCount, log);
        if cells.Failure? {
          return Failure(cells.error);
        }
        rows := rows + [Row(data[i].pid, cells.value)];
        i := i + 1;
      }
      return Success(rows);
    }

    /** `init_matrix`: an `m x n` matrix, `m` rows and `n` artists, holding
        the weight of artist `a` in table `i` at `(i, a)`; a key at or above
        `n` raises `IndexError`. */
    method InitMatrix(data: seq<Row<real>>) returns (r: Result<Matrix>)
      ensures r.Success? <==> KeysBelow(data, |artistToId|)
      ensures r.Success? ==> Holds(r.value, data, |artistToId|)
      ensures r.Failure? ==> r.error == IndexError
    {
      var n := |artistToId|;
      var entries: map<(nat, nat), real> := map[];
      var i := 0;
      while i < |data|
        invariant i <= |data|
        invariant forall k, a :: 0 <= k < i && a in data[k].cells ==> a < n
        invariant forall p :: p in entries ==> p.0 < i && p.1 in data[p.0].cells && entries[p] == data[p.0].cells[p.1]
        invariant forall k, a :: 0 <= k < i && a in data[k].cells ==> (k, a) in entries
      {
        entries :- FillRow(entries, i, data[i].cells, n);
        i := i + 1;
      }
      r := Success(Matrix(|data|, n, entries));
    }

    /** The assignments of one table into the matrix. */
    static method FillRow(entries: map<(nat, nat), real>, i: nat, cells: map<nat, real>, n: nat)
      returns (r: Result<map<(nat, nat), real>>)
      requires forall p :: p in entries ==> p.0 < i
      ensures r.Success? <==> forall a :: a in cells ==> a < n
      ensures r.Failure? ==> r.error == IndexError
      ensures r.Success? ==> forall p :: p in r.value <==> p in entries || (p.0 == i && p.1 in cells)
      ensures r.Success? ==> forall p :: p in r.value ==>
                if p.0 == i then p.1 in cells && r.value[p] == cells[p.1] else p in entries && r.value[p] == entries[p]
    {
      var order: seq<nat> := Enumerate(cells.Keys);
      var e: map<(nat, nat), real> := entries;
      var k := 0;
      while k < |order|
        invariant k <= |order|
        invariant forall j :: 0 <= j < k ==> order[j] < n
        invariant forall p :: p in e <==> p in entries || (p.0 == i && p.1 in order[..k])
        invariant forall p :: p in e ==>
                    if p.0 == i then p.1 in cells && e[p] == cells[p.1] else p in entries && e[p] == entries[p]
      {
        var a := order[k];
        assert a in order;
        if a >= n {
          return Failure(IndexError);
        }
        e := e[(i, a) := cells[a]];
        assert order[..k + 1] == order[..k] + [a];
        k := k + 1;
      }
      assert order[..k] == order;
      return Success(e);
    }

    /** The first two steps of `load_from_data`: the tables built, then
        relabelled through the permutation drawn for `len(artist_to_id)`
        ids. Loaded into empty tables, every relabelled table can be
        rewritten exactly when every playlist has a track. */
    method MapAndPermutate(playlists: seq<Playlist>, infos: map<string, TrackInfo>, permutation: nat -> seq<nat>)
      returns (data: seq<Row<nat>>, perm: seq<nat>, permuted: seq<Row<nat>>)
      requires Valid()
      requires forall n: nat :: |permutation(n)| == n && IsPermutation(permutation(n))
      modifies this`artistToId, this`idToArtist, this`trackToIds, this`artistInPlaylistCount
      ensures Valid() && perm == permutation(|artistToId|) && |data| == |playlists|
      ensures artistInPlaylistCount == DocCounts(old(artistInPlaylistCount), data, |data|)
      ensures Frequent(|old(artistToId)|, |artistToId|, data, |data|)
      ensures KeysBelow(data, |perm|) && permuted == PermutedData(data, perm)
      ensures KeysBelow(permuted, |perm|) && RowsCount(playlists, permuted, |data|, trackToIds)
      ensures PlaylistsListed(old(trackToIds), trackToIds, artistToId, idToArtist, playlists, |playlists|, infos)
      ensures old(artistToId) == map[] && old(artistInPlaylistCount) == map[] ==>
                ((forall i :: 0 <= i < |data| ==> Normalizable(permuted[i].cells, artistInPlaylistCount)) <==>
                 (forall i :: 0 <= i < |playlists| ==> playlists[i].tracks != []))
    {
      ghost var t0 := trackToIds;
      data := InitMapping(playlists, infos);
      perm := permutation(|artistToId|);
      ghost var t1 := trackToIds;
      permuted := PermutateLoaded(playlists, data, perm, t0, infos);
      if old(artistToId) == map[] && old(artistInPlaylistCount) == map[] {
        FreshNormalizable(playlists, data, t1, perm);
      }
    }

    /** `permutate_data` on the tables just built: the relabelled tables
        count the relabelled artist lists. */
    method PermutateLoaded(playlists: seq<Playlist>, data: seq<Row<nat>>, perm: seq<nat>,
                           ghost t0: map<string, seq<nat>>, ghost infos: map<string, TrackInfo>)
      returns (permuted: seq<Row<nat>>)
      requires Valid() && IsPermutation(perm) && |perm| == |artistToId|
      requires |data| == |playlists| && RowsCount(playlists, data, |data|, trackToIds) && KeysBelow(data, |perm|)
      requires PlaylistsListed(t0, trackToIds, artistToId, idToArtist, playlists, |playlists|, infos)
      modifies this`artistToId, this`idToArtist, this`trackToIds
      ensures Valid() && |artistToId| == |old(artistToId)|
      ensures permuted == PermutedData(data, perm)
      ensures KeysBelow(permuted, |perm|) && RowsCount(playlists, permuted, |data|, trackToIds)
      ensures PlaylistsListed(t0, trackToIds, artistToId, idToArtist, playlists, |playlists|, infos)
    {
      ghost var m1, inv1, t1 := artistToId, idToArtist, trackToIds;
      var r := PermutateData(data, perm);
      assert r.Success?;
      permuted := r.value;
      assert RelabelledLists(t1, trackToIds, perm);
      PermutedRowsCount(playlists, data, t1, trackToIds, perm);
      PlaylistsListedRelabelled(t0, t1, trackToIds, m1, inv1, artistToId, idToArtist, perm, playlists, infos);
      PermutedKeysBelow(data, perm);
    }

    /** `load_from_data`: the relabelled tables rewritten against the
        document counts, which stay keyed by the ids before relabelling, and
        stored as the matrix; a failed rewrite leaves the matrix as it was.
        On a new service the load raises nothing exactly when every
        playlist has a track. */
    method LoadFromData(playlists: seq<Playlist>, infos: map<string, TrackInfo>,
                        permutation: nat -> seq<nat>, log: real -> real)
      returns (r: Outcome, ghost data: seq<Row<nat>>, ghost perm: seq<nat>)
      requires Valid()
      requires forall n: nat :: |permutation(n)| == n && IsPermutation(permutation(n))
      modifies this`artistToId, this`idToArtist, this`trackToIds, this`artistInPlaylistCount, this`matrix
      ensures Valid() && perm == permutation(|artistToId|) && |data| == |playlists|
      ensures artistInPlaylistCount == DocCounts(old(artistInPlaylistCount), data, |data|)
      ensures Frequent(|old(artistToId)|, |artistToId|, data, |data|)
      ensures KeysBelow(data, |perm|) && RowsCount(playlists, PermutedData(data, perm), |data|, trackToIds)
      ensures PlaylistsListed(old(trackToIds), trackToIds, artistToId, idToArtist, playlists, |playlists|, infos)
      ensures r.Pass? <==>
                forall i :: 0 <= i < |data| ==> Normalizable(PermutedData(data, perm)[i].cells, artistInPlaylistCount)
      ensures r.Pass? ==>
                (forall i :: 0 <= i < |data| ==> Normalizable(PermutedData(data, perm)[i].cells, artistInPlaylistCount)) &&
                Holds(matrix, NormalizedData(PermutedData(data, perm), |data|, artistInPlaylistCount, log), |artistToId|)
      ensures r.Fail? ==> matrix == old(matrix)
      ensures old(artistToId) == map[] && old(artistInPlaylistCount) == map[] ==>
                (r.Pass? <==> forall i :: 0 <= i < |playlists| ==> playlists[i].tracks != [])
    {
      var rows, p, permuted := MapAndPermutate(playlists, infos, permutation);
      data, perm := rows, p;
      r := StoreMatrix(permuted, log);
    }

    /** The last two steps of `load_from_data`: the tables rewritten into
        weights, then stored as the matrix; a failed rewrite leaves the
        matrix as it was. */
    method StoreMatrix(rows: seq<Row<nat>>, log: real -> real) returns (r: Outcome)
      requires KeysBelow(rows, |artistToId|)
      modifies this`matrix
      ensures r.Pass? <==> forall i :: 0 <= i < |rows| ==> Normalizable(rows[i].cells, artistInPlaylistCount)
      ensures r.Pass? ==>
                (forall i :: 0 <= i < |rows| ==> Normalizable(rows[i].cells, artistInPlaylistCount)) &&
                Holds(matrix, NormalizedData(rows, |rows|, artistInPlaylistCount, log), |artistToId|)
      ensures r.Fail? ==> matrix == old(matrix)
    {
      var normalized := NormalizeData(rows, log);
      if normalized.Failure? {
        return Fail(normalized.error);
      }
      NormalizedKeysBelow(rows, |rows|, artistInPlaylistCount, log, |artistToId|);
      var m := InitMatrix(normalized.value);
      assert m.Success?;
      matrix := m.value;
      r := Pass;
    }
  }
}
