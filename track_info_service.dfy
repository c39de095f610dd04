// services/track_info_service.py: reading the track dump's tab-separated
// rows into `TrackInfo` values keyed by track id.

module TrackInfoServices {
  import opened Common
  import opened Tracks
  import opened TrackInfos

  /** The string conversions a row goes through: `int(...)`, `None` for a
      string it refuses (`ValueError`), and `str_to_bool`. */
  datatype Parsers = Parsers(toInt: string -> Option<int>, strToBool: string -> Option<bool>)

  /** Column 6: `None` for the literal `'None'`, otherwise `int(line[6])`. */
  function ParsePopularity(cell: string, parsers: Parsers): (r: Result<Option<int>>)
    ensures r == Success(None) <==> cell == "None"
    ensures cell != "None" ==> (r.Success? <==> parsers.toInt(cell).Some?)
    ensures r.Success? && r.value.Some? ==> parsers.toInt(cell) == r.value
    ensures r.Failure? ==> r.error == ValueError
  {
    if cell == "None" then Success(None)
    else match parsers.toInt(cell)
      case Some(p) => Success(Some(p))
      case None => Failure(ValueError)
  }

  /** The row loop's body: columns 0 to 2 are id, name and album, column 3
      the integer duration, 4 and 5 the flags, 6 the popularity and every
      further column an artist id. Columns are read in order, so a short
      row raises `IndexError` unless converting column 3 failed first. */
  function ParseRow(line: seq<string>, parsers: Parsers): (r: Result<TrackInfo>)
    ensures |line| < 4 ==> r == Failure(IndexError)
    ensures |line| >= 4 && parsers.toInt(line[3]).None? ==> r == Failure(ValueError)
    ensures |line| >= 4 && parsers.toInt(line[3]).Some? && |line| < 7 ==> r == Failure(IndexError)
    ensures r.Success? <==> |line| >= 7 && parsers.toInt(line[3]).Some? && ParsePopularity(line[6], parsers).Success?
    ensures r.Success? ==>
              r.value.trackId == line[0] && r.value.name == line[1] && r.value.album == line[2] &&
              Some(r.value.duration) == parsers.toInt(line[3]) &&
              r.value.explicit == parsers.strToBool(line[4]) && r.value.isLocal == parsers.strToBool(line[5]) &&
              Success(r.value.popularity) == ParsePopularity(line[6], parsers)
    ensures r.Success? ==> forall a :: a in r.value.artistIds <==> a in line[7..]
  {
    if |line| < 4 then Failure(IndexError)
    else match parsers.toInt(line[3])
      case None => Failure(ValueError)
      case Some(duration) =>
        if |line| < 7 then Failure(IndexError)
        else
          var popularity :- ParsePopularity(line[6], parsers);
          var artistIds := set k | 7 <= k < |line| :: line[k];
          assert forall a :: a in artistIds <==> a in line[7..] by {
            forall a ensures a in artistIds <==> a in line[7..] {
              if a in line[7..] {
                var k :| 0 <= k < |line[7..]| && line[7..][k] == a;
                assert line[7 + k] == a;
              }
            }
          }
          Success(TrackInfo(line[0], line[1], line[2], duration, parsers.strToBool(line[4]),
                            parsers.strToBool(line[5]), popularity, artistIds))
  }

  /** The file filter: `tracks_` and three digits, then any character and
      `csv`, at the start of the name. */
  predicate IsTracksFile(name: string) {
    MatchesNumberedCsv("tracks_", name)
  }

  lemma TracksFileNames()
    ensures IsTracksFile("tracks_000.csv") && IsTracksFile("tracks_123.csv.bak") && IsTracksFile("tracks_007_csv")
    ensures !IsTracksFile("tracks_12.csv") && !IsTracksFile("features_001.csv") && !IsTracksFile("my_tracks_001.csv")
  {
    assert !IsDigit("tracks_12.csv"[9]);
    assert "features_001.csv"[..7][0] != "tracks_"[0];
    assert "my_tracks_001.csv"[..7][0] != "tracks_"[0];
  }

  /** Where loading stands: the table, and the error that stopped it. */
  datatype Loaded = Loaded(info: map<string, TrackInfo>, stop: Option<Error>)

  /** The first `k` rows of one file, each stored under its id. */
  function StoreRows(s: Loaded, rows: seq<seq<string>>, k: nat, parsers: Parsers): Loaded
    requires k <= |rows|
  {
    if k == 0 then s
    else
      var before := StoreRows(s, rows, k - 1, parsers);
      if before.stop.Some? then before
      else match ParseRow(rows[k - 1], parsers)
        case Failure(e) => before.(stop := Some(e))
        case Success(t) => before.(info := before.info[t.trackId := t])
  }

  /** The first `n` files, skipping those the filter refuses. */
  function StoreFiles(s: Loaded, files: seq<(string, seq<seq<string>>)>, n: nat, parsers: Parsers): Loaded
    requires n <= |files|
  {
    if n == 0 then s
    else
      var before := StoreFiles(s, files, n - 1, parsers);
      if IsTracksFile(files[n - 1].0) then StoreRows(before, files[n - 1].1, |files[n - 1].1|, parsers)
      else before
  }

  function OutcomeOf(s: Loaded): (r: Outcome)
    ensures r.Fail? <==> s.stop.Some?
  {
    if s.stop.Some? then Fail(s.stop.value) else Pass
  }

  lemma {:induction false} RowsStuck(s: Loaded, rows: seq<seq<string>>, k: nat, parsers: Parsers)
    requires k <= |rows| && s.stop.Some?
    ensures StoreRows(s, rows, k, parsers) == s
  {
    if k > 0 {
      RowsStuck(s, rows, k - 1, parsers);
    }
  }

  lemma {:induction false} RowsStopped(s: Loaded, rows: seq<seq<string>>, j: nat, k: nat, parsers: Parsers)
    requires j <= k <= |rows| && StoreRows(s, rows, j, parsers).stop.Some?
    ensures StoreRows(s, rows, k, parsers) == StoreRows(s, rows, j, parsers)
  {
    if j < k {
      RowsStopped(s, rows, j, k - 1, parsers);
    }
  }

  lemma {:induction false} FilesStopped(s: Loaded, files: seq<(string, seq<seq<string>>)>, i: nat, n: nat,
                                        parsers: Parsers)
    requires i <= n <= |files| && StoreFiles(s, files, i, parsers).stop.Some?
    ensures StoreFiles(s, files, n, parsers) == StoreFiles(s, files, i, parsers)
  {
    if i < n {
      FilesStopped(s, files, i, n - 1, parsers);
      RowsStuck(StoreFiles(s, files, n - 1, parsers), files[n - 1].1, |files[n - 1].1|, parsers);
    }
  }

  /** Every entry is stored under its own track id. */
  predicate KeyedById(info: map<string, TrackInfo>) {
    forall id :: id in info ==> info[id].trackId == id
  }

  lemma {:induction false} RowsKeyedById(s: Loaded, rows: seq<seq<string>>, k: nat, parsers: Parsers)
    requires k <= |rows| && KeyedById(s.info)
    ensures KeyedById(StoreRows(s, rows, k, parsers).info)
  {
    if k > 0 {
      RowsKeyedById(s, rows, k - 1, parsers);
    }
  }

  /** When no row failed, the table holds exactly the ids it held before and
      those of the rows read. */
  lemma {:induction false} RowsStored(s: Loaded, rows: seq<seq<string>>, k: nat, parsers: Parsers)
    requires k <= |rows| && s.stop.None?
    ensures var r := StoreRows(s, rows, k, parsers);
            r.stop.None? <==> forall j :: 0 <= j < k ==> ParseRow(rows[j], parsers).Success?
    ensures var r := StoreRows(s, rows, k, parsers);
            r.stop.None? ==>
              forall id :: id in r.info <==>
                id in s.info ||
                exists j :: 0 <= j < k && ParseRow(rows[j], parsers).Success? && ParseRow(rows[j], parsers).value.trackId == id
  {
    if k > 0 {
      RowsStored(s, rows, k - 1, parsers);
      if StoreRows(s, rows, k - 1, parsers).stop.Some? {
        var j :| 0 <= j < k - 1 && ParseRow(rows[j], parsers).Failure?;
      }
    }
  }

  /** A later row with the same id overwrites an earlier one: the entry for
      an id is the last row read with that id. */
  lemma {:induction false} LastRowWins(s: Loaded, rows: seq<seq<string>>, k: nat, j: nat, parsers: Parsers)
    requires j < k <= |rows|
    requires StoreRows(s, rows, k, parsers).stop.None? && ParseRow(rows[j], parsers).Success?
    requires forall l :: j < l < k && ParseRow(rows[l], parsers).Success? ==>
               ParseRow(rows[l], parsers).value.trackId != ParseRow(rows[j], parsers).value.trackId
    ensures var t := ParseRow(rows[j], parsers).value;
            t.trackId in StoreRows(s, rows, k, parsers).info && StoreRows(s, rows, k, parsers).info[t.trackId] == t
  {
    if j < k - 1 {
      LastRowWins(s, rows, k - 1, j, parsers);
    }
  }

  /** `os.path.join(cached_path, 'track_info_service.pk')` */
  function CacheFile(cachedPath: string): (path: string)
    ensures EndsWith(path, "track_info_service.pk")
  {
    PathJoin(cachedPath, "track_info_service.pk")
  }

  /** What `__contains__` and `__getitem__` are given: a string, or a
      `Track` or `TrackInfo`, which hash and compare like their track id. */
  datatype Item = StrItem(s: string) | TrackItem(t: Track) | InfoItem(i: TrackInfo) | OtherItem

  function Key(item: Item): (r: Option<string>)
    ensures r.None? <==> item.OtherItem?
  {
    match item
    case StrItem(s) => Some(s)
    case TrackItem(t) => Some(t.trackId)
    case InfoItem(i) => Some(i.trackId)
    case OtherItem => None
  }

  class TrackInfoService {
    const filepath: string
    /** Track id to its metadata. */
    var trackInfo: map<string, TrackInfo>

    constructor (cachedPath: string)
      ensures filepath == CacheFile(cachedPath) && trackInfo == map[]
    {
      filepath := CacheFile(cachedPath);
      trackInfo := map[];
    }

    /** The row loop over one file. */
    method LoadRows(rows: seq<seq<string>>, parsers: Parsers) returns (r: Outcome)
      modifies this
      ensures var s := StoreRows(Loaded(old(trackInfo), None), rows, |rows|, parsers);
              trackInfo == s.info && r == OutcomeOf(s)
    {
      ghost var start := Loaded(trackInfo, None);
      var k := 0;
      while k < |rows|
        invariant 0 <= k <= |rows|
        invariant StoreRows(start, rows, k, parsers) == Loaded(trackInfo, None)
      {
        var row := ParseRow(rows[k], parsers);
        if row.Failure? {
          RowsStopped(start, rows, k + 1, |rows|, parsers);
          return Fail(row.error);
        }
        trackInfo := trackInfo[row.value.trackId := row.value];
        k := k + 1;
      }
      r := Pass;
    }

    /** `load_from_data` over the directory's files as (name, rows) pairs;
        a file the name filter refuses is skipped. */
    method LoadFromData(files: seq<(string, seq<seq<string>>)>, parsers: Parsers) returns (r: Outcome)
      modifies this
      ensures var s := StoreFiles(Loaded(old(trackInfo), None), files, |files|, parsers);
              trackInfo == s.info && r == OutcomeOf(s)
    {
      ghost var start := Loaded(trackInfo, None);
      var i := 0;
      while i < |files|
        invariant 0 <= i <= |files|
        invariant StoreFiles(start, files, i, parsers) == Loaded(trackInfo, None)
      {
        if IsTracksFile(files[i].0) {
          var o := LoadRows(files[i].1, parsers);
          if o.Fail? {
            FilesStopped(start, files, i + 1, |files|, parsers);
            return o;
          }
        }
        i := i + 1;
      }
      r := Pass;
    }

    /** `item in service` */
    function Contains(item: Item): (r: bool)
      reads this
      ensures r <==> Key(item).Some? && Key(item).value in trackInfo
      ensures r <==> GetItem(item).Success?
    {
      match Key(item)
      case Some(id) => id in trackInfo
      case None => false
    }

    /** `service[item]`: the entry for the item's id, or `KeyError`. */
    function GetItem(item: Item): (r: Result<TrackInfo>)
      reads this
      ensures r.Success? <==> Key(item).Some? && Key(item).value in trackInfo
      ensures r.Success? ==> r.value == trackInfo[Key(item).value]
      ensures r.Failure? ==> r.error == KeyError
    {
      match Key(item)
      case Some(id) => if id in trackInfo then Success(trackInfo[id]) else Failure(KeyError)
      case None => Failure(KeyError)
    }
  }
}
