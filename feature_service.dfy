// services/feature_service.py: the table holding one `AudioFeature` object
// per track uri.

module FeatureServices {
  import opened Common
  import opened Tracks
  import opened AudioFeatures
  import opened FeatureRows

  /** `os.path.join(cached_path, 'feature_service.pk')` */
  function CacheFile(cachedPath: string): (path: string)
    ensures EndsWith(path, "feature_service.pk")
  {
    PathJoin(cachedPath, "feature_service.pk")
  }

  /** What an `AudioFeature` has stored, as a value. */
  datatype State = State(numbers: FeatureRow, extra: map<string, FeatureValue>)

  ghost function StateOf(f: AudioFeature): State
    reads f
  {
    State(FeatureRow(f.danceability, f.energy, f.loudness, f.speechiness, f.acousticness, f.instrumentalness,
                     f.liveness, f.valence, f.tempo, f.tonality.mode, f.tonality.key), f.extra)
  }

  /** `f` holds the numbers of `row`, with the tonality pair `(mode, key)`. */
  ghost predicate Holds(f: AudioFeature, row: FeatureRow)
    reads f
  {
    StateOf(f) == State(row, map[])
  }

  /** The `AudioFeature` that `line_to_feature` returns for an accepted row. */
  method NewFeature(row: FeatureRow) returns (f: AudioFeature)
    ensures fresh(f) && Holds(f, row)
  {
    f := new AudioFeature(row.danceability, row.energy, row.loudness, row.speechiness, row.acousticness,
                          row.instrumentalness, row.liveness, row.valence, row.tempo, row.mode, row.key);
  }

  /** The table after loading rows under the keys of `written` on top of
      `before`: the keys of both, and the entries of `before` that were not
      overwritten. */
  ghost predicate Overlays<R>(before: map<string, AudioFeature>, written: map<string, R>,
                             cur: map<string, AudioFeature>) {
    (forall u :: u in cur <==> u in before || u in written) &&
    forall u :: u in before && u !in written ==> cur[u] == before[u]
  }

  /** What `__contains__` and `__getitem__` are given: a uri, or a `Track`,
      which hashes and compares like its track id. */
  datatype Item = StrItem(s: string) | TrackItem(t: Track)

  function UriOf(item: Item): string {
    match item
    case StrItem(s) => s
    case TrackItem(t) => t.trackId
  }

  class FeatureService {
    const filepath: string
    /** Track uri to its features. */
    var features: map<string, AudioFeature>
    /** The uri each object was stored under. */
    ghost var owner: map<AudioFeature, string>

    /** Every object is owned by the uri it is stored under, so no two uris
        share an object. */
    ghost predicate Valid()
      reads this
    {
      forall u :: u in features ==> features[u] in owner && owner[features[u]] == u
    }

    /** The table is valid and overlays `rows` on `before`; the objects under
        the keys of `rows` hold those rows and are among `made`. */
    ghost predicate Stores(before: map<string, AudioFeature>, rows: map<string, FeatureRow>, made: set<AudioFeature>)
      reads this, features.Values
    {
      Valid() && Overlays(before, rows, features) &&
      forall u :: u in rows ==> u in features && Holds(features[u], rows[u]) && features[u] in made
    }

    /** Updating one object in place changes one entry. */
    lemma Unshared(u: string, v: string)
      requires Valid() && u in features && v in features && u != v
      ensures features[u] != features[v]
    {
      assert owner[features[u]] == u && owner[features[v]] == v;
    }

    constructor (cachedPath: string)
      ensures Valid() && filepath == CacheFile(cachedPath) && features == map[]
    {
      filepath := CacheFile(cachedPath);
      features := map[];
      owner := map[];
    }

    /** `self.features[uri] = feature` for a new object holding `row`. */
    method Put(uri: string, row: FeatureRow, ghost before: map<string, AudioFeature>,
               ghost written: map<string, FeatureRow>)
      returns (f: AudioFeature)
      requires Valid() && Overlays(before, written, features) && (forall u :: u in written ==> u in features && Holds(features[u], written[u]))
      modifies this
      ensures Valid() && Overlays(before, written[uri := row], features) && (forall u :: u in written[uri := row] ==> u in features && Holds(features[u], written[uri := row][u]))
      ensures fresh(f) && features == old(features)[uri := f]
    {
      f := NewFeature(row);
      features := features[uri := f];
      owner := owner[f := uri];
      forall u | u in written[uri := row]
        ensures u in features && Holds(features[u], written[uri := row][u])
      {
        if u != uri {
          assert features[u] == old(features)[u];
        }
      }
    }

    /** One line: an accepted row is stored in a new object under its uri.
        `s` is where loading stands, its rows held by objects in `made`,
        the objects made since loading began. */
    method LoadLine(line: seq<string>, parsers: Parsers, ghost read: LineReader, ghost before: map<string, AudioFeature>,
                    ghost s: Loaded, ghost made: set<AudioFeature>)
      returns (stop: Option<Error>, ghost s': Loaded, ghost made': set<AudioFeature>)
      requires ReadsBy(read, parsers) && s.stop.None? && Stores(before, s.rows, made)
      modifies this
      ensures s' == Store(s, line, read) && stop == s'.stop
      ensures Stores(before, s'.rows, made')
      ensures made <= made' && fresh(made' - made)
    {
      var parsed := LineToFeature(line, parsers);
      s', made' := Store(s, line, read), made;
      if parsed.Failure? {
        return Some(parsed.error), s', made';
      }
      var (uri, row) := parsed.value;
      if row.Some? {
        var f := Put(uri, row.value, before, s.rows);
        made' := made + {f};
      }
      stop := None;
    }

    /** The line loop over one file. */
    method LoadLines(lines: seq<seq<string>>, parsers: Parsers, ghost read: LineReader,
                     ghost before: map<string, AudioFeature>, ghost s: Loaded, ghost made: set<AudioFeature>)
      returns (stop: Option<Error>, ghost s': Loaded, ghost made': set<AudioFeature>)
      requires ReadsBy(read, parsers) && s.stop.None? && Stores(before, s.rows, made)
      modifies this
      ensures s' == StoreLines(s, lines, |lines|, read) && stop == s'.stop
      ensures Stores(before, s'.rows, made')
      ensures made <= made' && fresh(made' - made)
    {
      s', made' := s, made;
      var k := 0;
      while k < |lines|
        invariant 0 <= k <= |lines|
        invariant s' == StoreLines(s, lines, k, read) && s'.stop.None?
        invariant Stores(before, s'.rows, made')
        invariant made <= made' && fresh(made' - made)
      {
        stop, s', made' := LoadLine(lines[k], parsers, read, before, s', made');
        if stop.Some? {
          LinesStopped(s, lines, k + 1, |lines|, read);
          return;
        }
        k := k + 1;
      }
      stop := None;
    }

    /** `load_from_data` over the directory's files as (name, lines) pairs;
        `read` is `line_to_feature` (`Reader(parsers)` is one). */
    method LoadFromData(files: seq<(string, seq<seq<string>>)>, parsers: Parsers, ghost read: LineReader) returns (r: Outcome)
      requires Valid() && ReadsBy(read, parsers)
      modifies this
      ensures Valid()
      ensures var s := StoreFiles(Loaded(map[], None), files, |files|, read);
              r == OutcomeOf(s) && Overlays(old(features), s.rows, features) &&
              (forall u :: u in s.rows ==> u in features && Holds(features[u], s.rows[u]) && fresh(features[u]))
    {
      ghost var before := features;
      ghost var s := Loaded(map[], None);
      ghost var made: set<AudioFeature> := {};
      var i := 0;
      while i < |files|
        invariant 0 <= i <= |files|
        invariant s == StoreFiles(Loaded(map[], None), files, i, read) && s.stop.None?
        invariant Stores(before, s.rows, made)
        invariant fresh(made)
      {
        if IsFeaturesFile(files[i].0) {
          var stop;
          stop, s, made := LoadLines(files[i].1, parsers, read, before, s, made);
          if stop.Some? {
            FilesStopped(Loaded(map[], None), files, i + 1, |files|, read);
            return Fail(stop.value);
          }
        }
        i := i + 1;
      }
      r := Pass;
    }

    /** `item in service` */
    function Contains(item: Item): (r: bool)
      reads this
      ensures r <==> UriOf(item) in features
      ensures r <==> GetItem(item).Success?
    {
      UriOf(item) in features
    }

    /** `service[item]`: the object stored under the item's uri, or
        `KeyError`. */
    function GetItem(item: Item): (r: Result<AudioFeature>)
      reads this
      ensures r.Success? <==> UriOf(item) in features
      ensures r.Success? ==> r.value == features[UriOf(item)]
      ensures r.Failure? ==> r.error == KeyError
    {
      if UriOf(item) in features then Success(features[UriOf(item)]) else Failure(KeyError)
    }
  }
}
