/** The per-playlist driver for audio features: one column per label, the
    engine run once per label, and the batch loop that fills the variance
    table. The worker pool is a sequential loop here. */
module FeatureVariance {
  import opened Common
  import opened Tracks
  import opened TrackInfos
  import opened Playlists
  import opened AudioFeatures
  import opened VarianceUtil
  import opened PyRandom

  /** One label's values along a playlist; None where a track has no features. */
  type Column = seq<Option<FeatureValue>>

  /** `tonality_distance` over feature values; the columns `_transform`
      builds hold tonality pairs only, so the other case never arises. */
  function ToneDistance(table: (int, int) -> real): (FeatureValue, FeatureValue) -> real {
    (a: FeatureValue, b: FeatureValue) => if a.Tone? && b.Tone? then TonalityDistance(table, a.t, b.t) else 0.0
  }

  /** `pair_distance` over feature values; numeric columns hold numbers only. */
  function ScalarDistance(a: FeatureValue, b: FeatureValue): real {
    if a.Scalar? && b.Scalar? then PairDistance(a.x, b.x) else 0.0
  }

  /** Tonality is compared through the table, every other label by `|b - a|`. */
  function LabelDistance(table: (int, int) -> real, i: nat): (FeatureValue, FeatureValue) -> real {
    if i == TonalityIndex then ToneDistance(table) else ScalarDistance
  }

  /** `list(zip(feature, artists))`: pairs up to the shorter length. */
  function Zip(col: Column, artists: seq<set<string>>): (r: seq<Slot<FeatureValue>>)
    ensures |r| == if |col| < |artists| then |col| else |artists|
    decreases |col|
  {
    if |col| == 0 || |artists| == 0 then [] else [Slot(col[0], artists[0])] + Zip(col[1..], artists[1..])
  }

  lemma {:induction false} ZipAt(col: Column, artists: seq<set<string>>, k: nat)
    requires k < |Zip(col, artists)|
    ensures Zip(col, artists)[k] == Slot(col[k], artists[k])
    decreases |col|
  {
    if k > 0 {
      ZipAt(col[1..], artists[1..], k - 1);
    }
  }

  /** The `(sq_var, pl_var)` one label's column yields under distance `f`. */
  function LabelPair(col: Column, artists: seq<set<string>>, distance: nat, threshold: real,
                     f: (FeatureValue, FeatureValue) -> real): (Float, Float)
  {
    var p := Zip(col, artists);
    (VarianceOf(SeqSum(p, distance, threshold, f), SeqCount(p, distance, threshold)),
     VarianceOf(PairSum(p, threshold, f), PairCount(p, threshold)))
  }

  /** The label's counts and length equal those of tonality, as asserted. */
  predicate Agrees(features: seq<Column>, artists: seq<set<string>>, distance: nat, threshold: real, i: nat)
    requires |features| == 10 && i < 10
  {
    var a := Zip(features[i], artists);
    var t := Zip(features[TonalityIndex], artists);
    SeqCount(a, distance, threshold) == SeqCount(t, distance, threshold) &&
    PairCount(a, threshold) == PairCount(t, threshold) && |a| == |t|
  }

  /** Every column has tonality's length and tonality's missing positions. */
  predicate Aligned(features: seq<Column>)
    requires |features| == 10
  {
    forall i :: 0 <= i < 10 ==>
      |features[i]| == |features[TonalityIndex]| &&
      forall k :: 0 <= k < |features[i]| ==> features[i][k].Some? == features[TonalityIndex][k].Some?
  }

  /** What `features_to_variance` returns: `(pid, variances, s_c, p_c, track_len)`. */
  datatype Summary = Summary(pid: int, variances: map<string, (Float, Float)>,
                             seqCount: nat, pairCount: nat, length: nat)

  /** The `(sq_var, pl_var)` entries of the first `i` labels. */
  function PartialTable(features: seq<Column>, artists: seq<set<string>>, distance: nat, threshold: real,
                        table: (int, int) -> real, i: nat): map<string, (Float, Float)>
    requires |features| == 10 && i <= 10
  {
    if i == 0 then map[]
    else PartialTable(features, artists, distance, threshold, table, i - 1)
           [FeatureLabels[i - 1] := LabelPair(features[i - 1], artists, distance, threshold, LabelDistance(table, i - 1))]
  }

  lemma PartialTableSnoc(features: seq<Column>, artists: seq<set<string>>, distance: nat, threshold: real,
                         table: (int, int) -> real, i: nat)
    requires |features| == 10 && i < 10
    ensures PartialTable(features, artists, distance, threshold, table, i + 1) ==
            PartialTable(features, artists, distance, threshold, table, i)
              [FeatureLabels[i] := LabelPair(features[i], artists, distance, threshold, LabelDistance(table, i))]
  {
  }

  lemma {:induction false} PartialTableKeys(features: seq<Column>, artists: seq<set<string>>, distance: nat, threshold: real,
                                            table: (int, int) -> real, i: nat)
    requires |features| == 10 && i <= 10
    ensures forall l :: l in PartialTable(features, artists, distance, threshold, table, i) <==> l in FeatureLabels[..i]
  {
    if i > 0 {
      PartialTableKeys(features, artists, distance, threshold, table, i - 1);
      assert FeatureLabels[..i] == FeatureLabels[..i - 1] + [FeatureLabels[i - 1]];
    }
  }

  /** A label's entry is the pair computed from its own column with its own distance. */
  lemma {:induction false} PartialTableAt(features: seq<Column>, artists: seq<set<string>>, distance: nat, threshold: real,
                                          table: (int, int) -> real, i: nat, j: nat)
    requires |features| == 10 && j < i <= 10
    ensures FeatureLabels[j] in PartialTable(features, artists, distance, threshold, table, i)
    ensures PartialTable(features, artists, distance, threshold, table, i)[FeatureLabels[j]] ==
            LabelPair(features[j], artists, distance, threshold, LabelDistance(table, j))
  {
    LabelsDistinct();
    if j < i - 1 {
      PartialTableAt(features, artists, distance, threshold, table, i - 1, j);
    }
  }

  /** The label-keyed variance table of a playlist. */
  function VarianceTable(features: seq<Column>, artists: seq<set<string>>, distance: nat, threshold: real,
                         table: (int, int) -> real): map<string, (Float, Float)>
    requires |features| == 10
  {
    PartialTable(features, artists, distance, threshold, table, 10)
  }

  /** The table has exactly the ten labels, each with its own column's pair. */
  lemma VarianceTableShape(features: seq<Column>, artists: seq<set<string>>, distance: nat, threshold: real,
                           table: (int, int) -> real, i: nat)
    requires |features| == 10 && i < 10
    ensures forall l :: l in VarianceTable(features, artists, distance, threshold, table) <==> l in FeatureLabels
    ensures VarianceTable(features, artists, distance, threshold, table)[FeatureLabels[i]] ==
            LabelPair(features[i], artists, distance, threshold, LabelDistance(table, i))
    ensures VarianceTable(features, artists, distance, threshold, table)["tonality"] ==
            LabelPair(features[TonalityIndex], artists, distance, threshold, ToneDistance(table))
  {
    PartialTableKeys(features, artists, distance, threshold, table, 10);
    assert FeatureLabels[..10] == FeatureLabels;
    PartialTableAt(features, artists, distance, threshold, table, 10, i);
    PartialTableAt(features, artists, distance, threshold, table, 10, TonalityIndex);
  }

  function SummaryOf(pid: int, features: seq<Column>, artists: seq<set<string>>, distance: nat, threshold: real,
                     table: (int, int) -> real): Summary
    requires |features| == 10
  {
    var t := Zip(features[TonalityIndex], artists);
    Summary(pid, VarianceTable(features, artists, distance, threshold, table),
            SeqCount(t, distance, threshold), PairCount(t, threshold), |t|)
  }

  /** Aligned columns pass every assertion. */
  lemma AlignedAgrees(features: seq<Column>, artists: seq<set<string>>, distance: nat, threshold: real, i: nat)
    requires |features| == 10 && i < 10 && Aligned(features)
    ensures Agrees(features, artists, distance, threshold, i)
  {
    var p := Zip(features[i], artists);
    var q := Zip(features[TonalityIndex], artists);
    forall k | 0 <= k < |p| ensures p[k].feature.Some? == q[k].feature.Some? && p[k].artists == q[k].artists {
      ZipAt(features[i], artists, k);
      ZipAt(features[TonalityIndex], artists, k);
    }
    assert SamePattern(p, q);
    CountsFollowPattern(p, q, distance, threshold);
  }

  /** `features_to_variance`: tonality first through the table, then every
      other label through `pair_distance`, asserting that each label
      counts the same pairs and tracks as tonality. */
  method FeaturesToVariance(pid: int, features: seq<Column>, artists: seq<set<string>>, distance: nat,
                            threshold: real, table: (int, int) -> real)
    returns (r: Result<Summary>)
    requires |features| == 10
    ensures r.Failure? <==> exists i :: 0 <= i < TonalityIndex && !Agrees(features, artists, distance, threshold, i)
    ensures r.Failure? ==> r.error == AssertionError
    ensures r.Success? ==> r.value == SummaryOf(pid, features, artists, distance, threshold, table)
    ensures Aligned(features) ==> r.Success?
  {
    var tonality := Zip(features[TonalityIndex], artists);
    var t := CalcVariances(pid, tonality, distance, threshold, ToneDistance(table));
    var others := OtherLabels(pid, features, artists, distance, threshold, table, t);
    if others.Failure? {
      if Aligned(features) {
        var i :| 0 <= i < TonalityIndex && !Agrees(features, artists, distance, threshold, i);
        AlignedAgrees(features, artists, distance, threshold, i);
      }
      return Failure(AssertionError);
    }
    var variances := others.value["tonality" := (t.sequential, t.pairwise)];
    r := Success(Summary(pid, variances, t.seqCount, t.pairCount, t.length));
  }

  /** The loop of `features_to_variance` over the labels before tonality;
      `t` is what tonality yielded. */
  method OtherLabels(pid: int, features: seq<Column>, artists: seq<set<string>>, distance: nat,
                     threshold: real, table: (int, int) -> real, t: Variances)
    returns (r: Result<map<string, (Float, Float)>>)
    requires |features| == 10
    requires t.seqCount == SeqCount(Zip(features[TonalityIndex], artists), distance, threshold)
    requires t.pairCount == PairCount(Zip(features[TonalityIndex], artists), threshold)
    requires t.length == |Zip(features[TonalityIndex], artists)|
    ensures r.Failure? <==> exists i :: 0 <= i < TonalityIndex && !Agrees(features, artists, distance, threshold, i)
    ensures r.Failure? ==> r.error == AssertionError
    ensures r.Success? ==> r.value == PartialTable(features, artists, distance, threshold, table, TonalityIndex)
  {
    var variances: map<string, (Float, Float)> := map[];
    var i := 0;
    while i < TonalityIndex
      invariant i <= TonalityIndex
      invariant variances == PartialTable(features, artists, distance, threshold, table, i)
      invariant forall k :: 0 <= k < i ==> Agrees(features, artists, distance, threshold, k)
    {
      var agrees, pair := OtherLabel(pid, features, artists, distance, threshold, t, i);
      if !agrees {
        return Failure(AssertionError);
      }
      PartialTableSnoc(features, artists, distance, threshold, table, i);
      variances := variances[FeatureLabels[i] := pair];
      i := i + 1;
    }
    r := Success(variances);
  }

  /** One label of that loop: its variances, and whether its counts and
      length pass the assertions against tonality's. */
  method OtherLabel(pid: int, features: seq<Column>, artists: seq<set<string>>, distance: nat,
                    threshold: real, t: Variances, i: nat)
    returns (agrees: bool, pair: (Float, Float))
    requires |features| == 10 && i < TonalityIndex
    requires t.seqCount == SeqCount(Zip(features[TonalityIndex], artists), distance, threshold)
    requires t.pairCount == PairCount(Zip(features[TonalityIndex], artists), threshold)
    requires t.length == |Zip(features[TonalityIndex], artists)|
    ensures agrees <==> Agrees(features, artists, distance, threshold, i)
    ensures pair == LabelPair(features[i], artists, distance, threshold, ScalarDistance)
  {
    var column := Zip(features[i], artists);
    var v := CalcVariances(pid, column, distance, threshold, ScalarDistance);
    agrees := v.seqCount == t.seqCount && v.pairCount == t.pairCount && v.length == t.length;
    pair := (v.sequential, v.pairwise);
  }

  /** All ten values of each known feature, by track id. */
  function Snapshot(features: map<string, AudioFeature>): (snap: map<string, seq<FeatureValue>>)
    reads features.Values
    ensures snap.Keys == features.Keys
    ensures forall id :: id in snap ==> |snap[id]| == 10
  {
    map id | id in features :: features[id].Values()
  }

  /** What a track puts in label `i`'s column: `feature[label]`, or None
      when the track has no features. */
  function Cell(t: Track, snap: map<string, seq<FeatureValue>>, i: nat): Option<FeatureValue> {
    if t.trackId in snap && |snap[t.trackId]| == 10 && i < 10 then Some(snap[t.trackId][i]) else None
  }

  /** The artists a track contributes: none when the gate is off, otherwise
      its own artist and the artists its track info lists. */
  function ArtistSet(t: Track, threshold: real, info: map<string, TrackInfo>): set<string> {
    if threshold > 0.0 then {t.artistId} + (if t.trackId in info then info[t.trackId].artistIds else {})
    else {}
  }

  /** Label `i`'s column for a track order. */
  function ColumnOf(tracks: seq<Track>, snap: map<string, seq<FeatureValue>>, i: nat): (col: Column)
    ensures |col| == |tracks|
  {
    if tracks == [] then []
    else ColumnOf(tracks[..|tracks| - 1], snap, i) + [Cell(tracks[|tracks| - 1], snap, i)]
  }

  /** The ten label columns `_transform` builds for a track order. */
  function Columns(tracks: seq<Track>, snap: map<string, seq<FeatureValue>>): (cols: seq<Column>)
    ensures |cols| == 10
  {
    seq(10, i requires 0 <= i < 10 => ColumnOf(tracks, snap, i))
  }

  lemma ColumnsSnoc(tracks: seq<Track>, k: nat, snap: map<string, seq<FeatureValue>>)
    requires k < |tracks|
    ensures forall i :: 0 <= i < 10 ==>
              ColumnOf(tracks[..k + 1], snap, i) == ColumnOf(tracks[..k], snap, i) + [Cell(tracks[k], snap, i)]
  {
    assert tracks[..k + 1][..k] == tracks[..k];
  }

  /** The artist entries `_transform` builds for a track order. */
  function ArtistColumn(tracks: seq<Track>, threshold: real, info: map<string, TrackInfo>): (a: seq<set<string>>)
    ensures |a| == |tracks|
  {
    if tracks == [] then []
    else ArtistColumn(tracks[..|tracks| - 1], threshold, info) + [ArtistSet(tracks[|tracks| - 1], threshold, info)]
  }

  lemma {:induction false} ColumnOfAt(tracks: seq<Track>, snap: map<string, seq<FeatureValue>>, i: nat, k: nat)
    requires k < |tracks|
    ensures ColumnOf(tracks, snap, i)[k] == Cell(tracks[k], snap, i)
    decreases |tracks|
  {
    if k < |tracks| - 1 {
      ColumnOfAt(tracks[..|tracks| - 1], snap, i, k);
    }
  }

  lemma {:induction false} ArtistColumnAt(tracks: seq<Track>, threshold: real, info: map<string, TrackInfo>, k: nat)
    requires k < |tracks|
    ensures ArtistColumn(tracks, threshold, info)[k] == ArtistSet(tracks[k], threshold, info)
    decreases |tracks|
  {
    if k < |tracks| - 1 {
      ArtistColumnAt(tracks[..|tracks| - 1], threshold, info, k);
    }
  }

  /** Every column and the artist list follow the track order, and a track
      without features is None in every column, so the columns are aligned
      and the per-label assertions always hold. */
  lemma ColumnsAligned(tracks: seq<Track>, snap: map<string, seq<FeatureValue>>, threshold: real,
                       info: map<string, TrackInfo>, i: nat, k: nat)
    requires i < 10 && k < |tracks|
    requires forall id :: id in snap ==> |snap[id]| == 10
    ensures Aligned(Columns(tracks, snap))
    ensures Columns(tracks, snap)[i][k].None? <==> tracks[k].trackId !in snap
    ensures Columns(tracks, snap)[i][k].Some? ==> Columns(tracks, snap)[i][k].value == snap[tracks[k].trackId][i]
    ensures ArtistColumn(tracks, threshold, info)[k] == ArtistSet(tracks[k], threshold, info)
  {
    var cols: seq<Column> := Columns(tracks, snap);
    forall j: nat, m: nat | j < 10 && m < |cols[j]| ensures cols[j][m].Some? == cols[TonalityIndex][m].Some? {
      ColumnOfAt(tracks, snap, j, m);
      ColumnOfAt(tracks, snap, TonalityIndex, m);
    }
    ColumnOfAt(tracks, snap, i, k);
    ArtistColumnAt(tracks, threshold, info, k);
  }

  /** Only the alignment, for every track order (including the empty one). */
  lemma ColumnsAlwaysAligned(tracks: seq<Track>, snap: map<string, seq<FeatureValue>>)
    ensures Aligned(Columns(tracks, snap))
  {
    var cols: seq<Column> := Columns(tracks, snap);
    forall j: nat, m: nat | j < 10 && m < |cols[j]| ensures cols[j][m].Some? == cols[TonalityIndex][m].Some? {
      ColumnOfAt(tracks, snap, j, m);
      ColumnOfAt(tracks, snap, TonalityIndex, m);
    }
  }

  /** The tracks a playlist is processed in: shuffled when asked. */
  function Order(tracks: seq<Track>, shuffled: bool, stream: nat -> nat, pos: nat): seq<Track> {
    if shuffled then Shuffled(tracks, stream, pos) else tracks
  }

  /** The draws consumed before playlist `k`. */
  function DrawsBefore(playlists: seq<Playlist>, k: nat, shuffled: bool): nat
    requires k <= |playlists|
  {
    if k == 0 || !shuffled then 0 else DrawsBefore(playlists, k - 1, shuffled) + Draws(|playlists[k - 1].tracks|)
  }

  /** The cache file name; the shuffled variant carries `_shuffled`. `thresholdText` is `f'{threshold:3.1f}'`. */
  function CacheFile(cachedPath: string, distance: nat, thresholdText: string, shuffled: bool): (path: string)
    ensures EndsWith(path, if shuffled then "_shuffled.pk" else ".pk")
  {
    PathJoin(cachedPath, "feature_variances_" + ZeroPad2(distance) + "_" + thresholdText +
                         (if shuffled then "_shuffled.pk" else ".pk"))
  }

  lemma CacheFilesDiffer(cachedPath: string, distance: nat, thresholdText: string)
    ensures CacheFile(cachedPath, distance, thresholdText, true) != CacheFile(cachedPath, distance, thresholdText, false)
  {
    var name := "feature_variances_" + ZeroPad2(distance) + "_" + thresholdText;
    assert |CacheFile(cachedPath, distance, thresholdText, true)| == |CacheFile(cachedPath, distance, thresholdText, false)| + 9;
  }

  /** The entry `load_from_data` stores for a playlist: `(variances, s_c, p_c, track_len)`. */
  datatype Entry = Entry(variances: map<string, (Float, Float)>, seqCount: nat, pairCount: nat, length: nat)

  function EntryOf(tracks: seq<Track>, snap: map<string, seq<FeatureValue>>, distance: nat, table: (int, int) -> real): Entry
  {
    var s := SummaryOf(0, Columns(tracks, snap), ArtistColumn(tracks, 0.0, map[]), distance, 0.0, table);
    Entry(s.variances, s.seqCount, s.pairCount, s.length)
  }

  /** `entryOf` computes what `EntryOf` computes on these feature values. */
  ghost predicate EntryOracle(entryOf: seq<Track> -> Entry, snap: map<string, seq<FeatureValue>>, distance: nat,
                              table: (int, int) -> real)
  {
    forall t: seq<Track> {:trigger EntryOf(t, snap, distance, table)} :: entryOf(t) == EntryOf(t, snap, distance, table)
  }

  /** `EntryOf` with the feature values and the tonality table fixed. */
  function EntryFunction(snap: map<string, seq<FeatureValue>>, distance: nat, table: (int, int) -> real): seq<Track> -> Entry {
    (t: seq<Track>) => EntryOf(t, snap, distance, table)
  }

  /** Each playlist's id with the entry of its track order, in input order. */
  function Keyed(playlists: seq<Playlist>, orders: seq<seq<Track>>, entry: seq<Track> -> Entry): (items: seq<(int, Entry)>)
    requires |orders| == |playlists|
    ensures |items| == |playlists|
  {
    if playlists == [] then []
    else
      var n := |playlists| - 1;
      Keyed(playlists[..n], orders[..n], entry) + [(playlists[n].playlistId, entry(orders[n]))]
  }

  /** The table after the first `k` playlists have been stored, in order. */
  function StoredUpTo(start: map<int, Entry>, playlists: seq<Playlist>, k: nat, orders: seq<seq<Track>>,
                      entry: seq<Track> -> Entry): map<int, Entry>
    requires k <= |playlists| && |orders| == k
  {
    Store(start, Keyed(playlists[..k], orders, entry))
  }

  lemma StoredWhole(start: map<int, Entry>, playlists: seq<Playlist>, orders: seq<seq<Track>>, entry: seq<Track> -> Entry)
    requires |orders| == |playlists|
    ensures StoredUpTo(start, playlists, |playlists|, orders, entry) == Store(start, Keyed(playlists, orders, entry))
  {
    assert playlists[..|playlists|] == playlists;
  }

  /** Playlist `j`'s item is its id and the entry of its track order. */
  lemma {:induction false} KeyedAt(playlists: seq<Playlist>, orders: seq<seq<Track>>, entry: seq<Track> -> Entry, j: nat)
    requires |orders| == |playlists| && j < |playlists|
    ensures Keyed(playlists, orders, entry)[j] == (playlists[j].playlistId, entry(orders[j]))
    decreases |playlists|
  {
    var n := |playlists| - 1;
    if j < n {
      KeyedAt(playlists[..n], orders[..n], entry, j);
    }
  }

  /** The track orders of the first `k` playlists after `load_from_data`
      has shuffled them in place. */
  function Orders(playlists: seq<Playlist>, k: nat, shuffled: bool, stream: nat -> nat): (r: seq<seq<Track>>)
    requires k <= |playlists|
    ensures |r| == k
  {
    if k == 0 then []
    else Orders(playlists, k - 1, shuffled, stream) +
         [Order(playlists[k - 1].tracks, shuffled, stream, DrawsBefore(playlists, k - 1, shuffled))]
  }

  /** Playlist `j`'s tracks are shuffled from where the previous playlists'
      shuffles left the stream. */
  lemma {:induction false} OrdersAt(playlists: seq<Playlist>, k: nat, shuffled: bool, stream: nat -> nat, j: nat)
    requires j < k <= |playlists|
    ensures Orders(playlists, k, shuffled, stream)[j] ==
            Order(playlists[j].tracks, shuffled, stream, DrawsBefore(playlists, j, shuffled))
  {
    if j < k - 1 {
      OrdersAt(playlists, k - 1, shuffled, stream, j);
    }
  }

  /** Each playlist's tracks are a permutation of what it held, and are
      left as they were when no shuffle is asked for. */
  lemma OrdersPermute(playlists: seq<Playlist>, k: nat, shuffled: bool, stream: nat -> nat, j: nat)
    requires j < k <= |playlists|
    ensures multiset(Orders(playlists, k, shuffled, stream)[j]) == multiset(playlists[j].tracks)
    ensures !shuffled ==> Orders(playlists, k, shuffled, stream)[j] == playlists[j].tracks
  {
    OrdersAt(playlists, k, shuffled, stream, j);
    ShuffledIsPermutation(playlists[j].tracks, stream, DrawsBefore(playlists, j, shuffled));
  }

  /** `m[pid] = entry` for each item in order. */
  function Store(m: map<int, Entry>, items: seq<(int, Entry)>): map<int, Entry> {
    if items == [] then m else Store(m, items[..|items| - 1])[items[|items| - 1].0 := items[|items| - 1].1]
  }

  lemma StoreSnoc(m: map<int, Entry>, items: seq<(int, Entry)>, item: (int, Entry))
    ensures Store(m, items + [item]) == Store(m, items)[item.0 := item.1]
  {
    assert (items + [item])[..|items|] == items;
  }

  /** Some item carries the id. */
  predicate HasId(items: seq<(int, Entry)>, pid: int) {
    exists j :: 0 <= j < |items| && items[j].0 == pid
  }

  lemma HasIdSnoc(items: seq<(int, Entry)>, pid: int)
    requires items != []
    ensures HasId(items, pid) <==> HasId(items[..|items| - 1], pid) || items[|items| - 1].0 == pid
  {
    var init := items[..|items| - 1];
    if HasId(init, pid) {
      var j :| 0 <= j < |init| && init[j].0 == pid;
      assert items[j].0 == pid;
    }
    if HasId(items, pid) {
      var j :| 0 <= j < |items| && items[j].0 == pid;
      if j < |init| { assert init[j].0 == pid; }
    }
  }

  /** Every stored id is a key afterwards, and no old key is lost. */
  lemma {:induction false} StoreKeys(m: map<int, Entry>, items: seq<(int, Entry)>, pid: int)
    ensures pid in Store(m, items) <==> pid in m || HasId(items, pid)
  {
    if items != [] {
      StoreKeys(m, items[..|items| - 1], pid);
      HasIdSnoc(items, pid);
    }
  }

  /** The last item with an id decides its entry: earlier ones are overwritten. */
  lemma {:induction false} StoreLastWins(m: map<int, Entry>, items: seq<(int, Entry)>, j: nat)
    requires j < |items|
    requires forall i :: j < i < |items| ==> items[i].0 != items[j].0
    ensures items[j].0 in Store(m, items) && Store(m, items)[items[j].0] == items[j].1
  {
    var init := items[..|items| - 1];
    if j < |init| {
      StoreLastWins(m, init, j);
    }
  }

  /** Ids no item carries keep their old entries. */
  lemma {:induction false} StoreKeepsOthers(m: map<int, Entry>, items: seq<(int, Entry)>, pid: int)
    requires pid in m
    requires forall i :: 0 <= i < |items| ==> items[i].0 != pid
    ensures pid in Store(m, items) && Store(m, items)[pid] == m[pid]
  {
    if items != [] {
      StoreKeepsOthers(m, items[..|items| - 1], pid);
    }
  }

  class FeatureVarianceService {
    const distance: nat
    const threshold: real
    const shuffled: bool
    const seed: int
    const filepath: string
    /** `variances[pid] = (variances, s_c, p_c, track_len)` */
    var variances: map<int, Entry>

    /** `thresholdText` is the threshold as `f'{threshold:3.1f}'` writes it. */
    constructor (distance: nat, threshold: real, shuffled: bool, seed: int, cachedPath: string, thresholdText: string)
      ensures this.distance == distance && this.threshold == threshold
      ensures this.shuffled == shuffled && this.seed == seed
      ensures filepath == CacheFile(cachedPath, distance, thresholdText, shuffled)
      ensures variances == map[]
    {
      this.distance := distance;
      this.threshold := threshold;
      this.shuffled := shuffled;
      this.seed := seed;
      filepath := CacheFile(cachedPath, distance, thresholdText, shuffled);
      variances := map[];
    }

    /** `_transform`: the tracks (shuffled in place when asked), then one
        None or value per label and one artist entry per track, in track
        order. Looking up track info that was not given raises. */
    method Transform(playlist: Playlist, features: map<string, seq<FeatureValue>>, trackInfo: Option<map<string, TrackInfo>>,
                     random: Random)
      returns (r: Result<(seq<Column>, seq<set<string>>)>, tracks: seq<Track>)
      modifies random
      ensures tracks == Order(playlist.tracks, shuffled, random.stream, old(random.used))
      ensures multiset(tracks) == multiset(playlist.tracks)
      ensures random.used == old(random.used) + (if shuffled then Draws(|playlist.tracks|) else 0)
      ensures r.Failure? <==> threshold > 0.0 && trackInfo.None? && |tracks| > 0
      ensures r.Failure? ==> r.error == TypeError
      ensures r.Success? ==> r.value.0 == Columns(tracks, features)
      ensures r.Success? ==> r.value.1 == ArtistColumn(tracks, threshold, GetOrEmpty(trackInfo))
    {
      tracks := playlist.tracks;
      if shuffled {
        tracks := ShuffleTracks(tracks, random);
      }
      ShuffledIsPermutation(playlist.tracks, random.stream, old(random.used));
      r := BuildColumns(tracks, features, trackInfo);
    }

    /** `random.shuffle(tracks)` on the list itself. */
    static method ShuffleTracks(tracks: seq<Track>, random: Random) returns (shuffled: seq<Track>)
      modifies random
      ensures shuffled == Shuffled(tracks, random.stream, old(random.used))
      ensures random.used == old(random.used) + Draws(|tracks|)
    {
      var a := new Track[|tracks|](k requires 0 <= k < |tracks| => tracks[k]);
      assert a[..] == tracks;
      random.Shuffle(a);
      shuffled := a[..];
    }

    /** The loop of `_transform` over the (possibly shuffled) tracks. */
    method BuildColumns(tracks: seq<Track>, features: map<string, seq<FeatureValue>>, trackInfo: Option<map<string, TrackInfo>>)
      returns (r: Result<(seq<Column>, seq<set<string>>)>)
      ensures r.Failure? <==> threshold > 0.0 && trackInfo.None? && |tracks| > 0
      ensures r.Failure? ==> r.error == TypeError
      ensures r.Success? ==> r.value.0 == Columns(tracks, features)
      ensures r.Success? ==> r.value.1 == ArtistColumn(tracks, threshold, GetOrEmpty(trackInfo))
    {
      ghost var snap := features;
      var columns: seq<Column> := [[], [], [], [], [], [], [], [], [], []];
      var artists: seq<set<string>> := [];
      var k := 0;
      while k < |tracks|
        invariant k <= |tracks| && |columns| == 10
        invariant forall i :: 0 <= i < 10 ==> columns[i] == ColumnOf(tracks[..k], snap, i)
        invariant artists == ArtistColumn(tracks[..k], threshold, GetOrEmpty(trackInfo))
        invariant threshold > 0.0 && trackInfo.None? ==> k == 0
      {
        var track := tracks[k];
        assert ArtistColumn(tracks[..k + 1], threshold, GetOrEmpty(trackInfo)) ==
               ArtistColumn(tracks[..k], threshold, GetOrEmpty(trackInfo)) + [ArtistSet(track, threshold, GetOrEmpty(trackInfo))] by {
          assert tracks[..k + 1][..k] == tracks[..k];
        }
        var row: seq<Option<FeatureValue>>;
        if track.trackId !in features || |features[track.trackId]| != 10 {
          row := [None, None, None, None, None, None, None, None, None, None];
        } else {
          var values := features[track.trackId];
          row := seq(10, i requires 0 <= i < 10 => Some(values[i]));
        }
        assert forall i :: 0 <= i < 10 ==> row[i] == Cell(track, snap, i);
        ColumnsSnoc(tracks, k, snap);
        columns := seq(10, i requires 0 <= i < 10 => columns[i] + [row[i]]);
        if threshold > 0.0 {
          if trackInfo.None? {
            return Failure(TypeError);
          }
          var trackArtists := {track.artistId};
          if track.trackId in trackInfo.value {
            trackArtists := trackArtists + trackInfo.value[track.trackId].artistIds;
          }
          assert trackArtists == ArtistSet(track, threshold, GetOrEmpty(trackInfo));
          artists := artists + [trackArtists];
        } else {
          artists := artists + [{}];
        }
        k := k + 1;
      }
      assert tracks[..k] == tracks;
      assert columns == Columns(tracks, snap);
      r := Success((columns, artists));
    }

    /** One playlist of `load_from_data`: `_transform`, then
        `features_to_variance`, which cannot fail on its columns, and the
        entry stored under the playlist's id. `entryOf` stands for
        `EntryOf` on these feature values. */
    method Process(playlist: Playlist, features: map<string, seq<FeatureValue>>, random: Random, table: (int, int) -> real,
                   ghost entryOf: seq<Track> -> Entry)
      returns (tracks: seq<Track>)
      requires threshold == 0.0
      requires EntryOracle(entryOf, features, distance, table)
      modifies this, random
      ensures tracks == Order(playlist.tracks, shuffled, random.stream, old(random.used))
      ensures random.used == old(random.used) + (if shuffled then Draws(|playlist.tracks|) else 0)
      ensures variances == old(variances)[playlist.playlistId := entryOf(tracks)]
    {
      var transformed;
      transformed, tracks := Transform(playlist, features, None, random);
      var columns := transformed.value.0;
      var artists := transformed.value.1;
      ColumnsAlwaysAligned(tracks, features);
      var summary := FeaturesToVariance(playlist.playlistId, columns, artists, distance, threshold, table);
      var entry := Entry(summary.value.variances, summary.value.seqCount, summary.value.pairCount, summary.value.length);
      assert entry == EntryOf(tracks, features, distance, table);
      variances := variances[playlist.playlistId := entry];
    }

    /** `load_from_data`: rejects any threshold but 0.0 and any track info;
        then every playlist's entry is stored, in order, a later playlist
        with the same id overwriting an earlier one. `stream` is the output
        of `Random(self.seed)`. */
    method LoadFromData(playlists: seq<Playlist>, features: map<string, AudioFeature>,
                        trackInfo: Option<map<string, TrackInfo>>, stream: nat -> nat, table: (int, int) -> real)
      returns (r: Outcome, orders: seq<seq<Track>>)
      modifies this
      ensures r.Fail? <==> !(threshold == 0.0 && trackInfo.None?)
      ensures r.Fail? ==> r.error == AssertionError && variances == old(variances)
      ensures r.Pass? ==> orders == Orders(playlists, |playlists|, shuffled, stream)
      ensures r.Pass? ==> variances == Store(old(variances), Keyed(playlists, orders, EntryFunction(old(Snapshot(features)), distance, table)))
    {
      if !(threshold == 0.0 && trackInfo.None?) {
        return Fail(AssertionError), [];
      }
      var snap := Snapshot(features);
      var random := new Random(stream);
      orders := StoreAll(playlists, snap, random, stream, table, EntryFunction(snap, distance, table));
      r := Pass;
    }

    /** The loop of `load_from_data` over the playlists, all drawing from
        one generator that starts unused. */
    method StoreAll(playlists: seq<Playlist>, snap: map<string, seq<FeatureValue>>, random: Random, stream: nat -> nat,
                    table: (int, int) -> real, ghost entryOf: seq<Track> -> Entry)
      returns (orders: seq<seq<Track>>)
      requires threshold == 0.0 && random.stream == stream && random.used == 0
      requires EntryOracle(entryOf, snap, distance, table)
      modifies this, random
      ensures orders == Orders(playlists, |playlists|, shuffled, stream)
      ensures variances == Store(old(variances), Keyed(playlists, orders, entryOf))
    {
      orders := [];
      var k := 0;
      while k < |playlists|
        invariant k <= |playlists| && |orders| == k && random.stream == stream
        invariant random.used == DrawsBefore(playlists, k, shuffled)
        invariant orders == Orders(playlists, k, shuffled, stream)
        invariant variances == StoredUpTo(old(variances), playlists, k, orders, entryOf)
      {
        orders := Step(playlists, k, orders, old(variances), snap, random, stream, table, entryOf);
        k := k + 1;
      }
      StoredWhole(old(variances), playlists, orders, entryOf);
    }

    /** One iteration of that loop: playlist `k` is processed and stored. */
    method Step(playlists: seq<Playlist>, k: nat, orders: seq<seq<Track>>, ghost start: map<int, Entry>,
                snap: map<string, seq<FeatureValue>>, random: Random, stream: nat -> nat,
                table: (int, int) -> real, ghost entryOf: seq<Track> -> Entry)
      returns (orders': seq<seq<Track>>)
      requires k < |playlists| && |orders| == k && threshold == 0.0 && random.stream == stream
      requires random.used == DrawsBefore(playlists, k, shuffled)
      requires orders == Orders(playlists, k, shuffled, stream)
      requires variances == StoredUpTo(start, playlists, k, orders, entryOf)
      requires EntryOracle(entryOf, snap, distance, table)
      modifies this, random
      ensures |orders'| == k + 1 && random.stream == stream
      ensures random.used == DrawsBefore(playlists, k + 1, shuffled)
      ensures orders' == Orders(playlists, k + 1, shuffled, stream)
      ensures variances == StoredUpTo(start, playlists, k + 1, orders', entryOf)
    {
      var playlist := playlists[k];
      ghost var items := Keyed(playlists[..k], orders, entryOf);
      var tracks := Process(playlist, snap, random, table, entryOf);
      StoreSnoc(start, items, (playlist.playlistId, entryOf(tracks)));
      assert playlists[..k + 1][..k] == playlists[..k];
      assert (orders + [tracks])[..k] == orders;
      orders' := orders + [tracks];
    }
  }

  function GetOrEmpty(info: Option<map<string, TrackInfo>>): map<string, TrackInfo> {
    if info.Some? then info.value else map[]
  }
}
