// services/feature_service.py, the pure part: converting and validating the
// rows of the audio-feature dump, and which rows loading keeps.

module FeatureRows {
  import opened Common

  /** What `float(...)` and `int(...)` make of the strings in the dump: a
      string missing from a table is one they refuse with `ValueError`. */
  datatype Parsers = Parsers(floats: map<string, real>, ints: map<string, int>) {
    function toFloat(x: string): Option<real> {
      if x in floats then Some(floats[x]) else None
    }

    function toInt(x: string): Option<int> {
      if x in ints then Some(ints[x]) else None
    }
  }

  /** The eleven numbers of a row, in column order 1 to 11. */
  datatype FeatureRow = FeatureRow(
    danceability: real,
    energy: real,
    loudness: real,
    speechiness: real,
    acousticness: real,
    instrumentalness: real,
    liveness: real,
    valence: real,
    tempo: real,
    mode: int,
    key: int)

  /** `float(line[k])` */
  function FloatAt(line: seq<string>, k: nat, parsers: Parsers): (r: Result<real>)
    ensures r.Success? <==> k < |line| && parsers.toFloat(line[k]).Some?
    ensures r.Success? ==> parsers.toFloat(line[k]) == Some(r.value)
    ensures r.Failure? ==> r.error == (if k < |line| then ValueError else IndexError)
  {
    if k >= |line| then Failure(IndexError)
    else match parsers.toFloat(line[k])
      case Some(x) => Success(x)
      case None => Failure(ValueError)
  }

  /** `int(line[k])` */
  function IntAt(line: seq<string>, k: nat, parsers: Parsers): (r: Result<int>)
    ensures r.Success? <==> k < |line| && parsers.toInt(line[k]).Some?
    ensures r.Success? ==> parsers.toInt(line[k]) == Some(r.value)
    ensures r.Failure? ==> r.error == (if k < |line| then ValueError else IndexError)
  {
    if k >= |line| then Failure(IndexError)
    else match parsers.toInt(line[k])
      case Some(x) => Success(x)
      case None => Failure(ValueError)
  }

  /** `float(line[k]), …, float(line[k + n - 1])`, converted in order. */
  function FloatsFrom(line: seq<string>, k: nat, n: nat, parsers: Parsers): (r: Result<seq<real>>)
    ensures r.Success? ==> |r.value| == n
    decreases n
  {
    if n == 0 then Success([])
    else
      var x :- FloatAt(line, k, parsers);
      var rest :- FloatsFrom(line, k + 1, n - 1, parsers);
      Success([x] + rest)
  }

  /** Column `k` exists but does not convert: a float in columns 1 to 9, an
      int in columns 10 and 11. */
  predicate BadColumn(line: seq<string>, k: nat, parsers: Parsers) {
    k < |line| && if k <= 9 then parsers.toFloat(line[k]).None? else parsers.toInt(line[k]).None?
  }

  /** Column `i` exists and converts to a float. */
  predicate FloatColumn(line: seq<string>, i: nat, parsers: Parsers) {
    i < |line| && parsers.toFloat(line[i]).Some?
  }

  /** The floats convert exactly when all their columns exist and convert;
      otherwise the error is `ValueError` exactly when one of the columns
      that exist does not convert, since those come first. */
  lemma {:induction false} FloatsFromMeaning(line: seq<string>, k: nat, n: nat, parsers: Parsers)
    ensures var r := FloatsFrom(line, k, n, parsers);
            r.Success? <==> forall i :: k <= i < k + n ==> FloatColumn(line, i, parsers)
    ensures var r := FloatsFrom(line, k, n, parsers);
            r.Failure? ==>
              (r.error == IndexError || r.error == ValueError) &&
              (r.error == ValueError <==> exists i :: k <= i < k + n && i < |line| && !FloatColumn(line, i, parsers))
    decreases n
  {
    if n > 0 {
      FloatsFromMeaning(line, k + 1, n - 1, parsers);
      var r := FloatsFrom(line, k, n, parsers);
      if forall i :: k <= i < k + n ==> FloatColumn(line, i, parsers) {
        assert FloatColumn(line, k, parsers);
      }
      if r.Success? {
        forall i | k <= i < k + n ensures FloatColumn(line, i, parsers) {
          if i == k {
            assert FloatAt(line, k, parsers).Success?;
          }
        }
      }
      if r.Failure? && FloatAt(line, k, parsers).Failure? && r.error == ValueError {
        assert !FloatColumn(line, k, parsers);
      }
    }
  }

  /** Converted floats hold the values of their columns, in order. */
  /** The float in column `k + i`, if that column exists and converts. */
  function FloatAfter(line: seq<string>, k: nat, i: nat, parsers: Parsers): Option<real> {
    if k + i < |line| then parsers.toFloat(line[k + i]) else None
  }

  /** The `i`-th float read is the conversion of column `k + i`. */
  lemma {:induction false} FloatsFromValues(line: seq<string>, k: nat, n: nat, parsers: Parsers)
    requires FloatsFrom(line, k, n, parsers).Success?
    ensures forall i :: 0 <= i < n ==> FloatAfter(line, k, i, parsers) == Some(FloatsFrom(line, k, n, parsers).value[i])
    decreases n
  {
    if n > 0 {
      FloatsFromValues(line, k + 1, n - 1, parsers);
      var xs, rest := FloatsFrom(line, k, n, parsers).value, FloatsFrom(line, k + 1, n - 1, parsers).value;
      assert xs == [FloatAt(line, k, parsers).value] + rest;
      forall i | 0 <= i < n ensures FloatAfter(line, k, i, parsers) == Some(xs[i]) {
        if i > 0 {
          assert xs[i] == rest[i - 1];
          assert FloatAfter(line, k, i, parsers) == FloatAfter(line, k + 1, i - 1, parsers);
        }
      }
    }
  }

  /** Every column converts: nine floats, then two ints. */
  predicate Converts(line: seq<string>, parsers: Parsers) {
    |line| >= 12 && (forall k :: 1 <= k <= 9 ==> parsers.toFloat(line[k]).Some?) &&
    parsers.toInt(line[10]).Some? && parsers.toInt(line[11]).Some?
  }

  /** The uri and the eleven numbers, converted in column order. */
  function Columns(line: seq<string>, parsers: Parsers): Result<(string, FeatureRow)> {
    if |line| == 0 then Failure(IndexError)
    else
      var xs :- FloatsFrom(line, 1, 9, parsers);
      var mode :- IntAt(line, 10, parsers);
      var key :- IntAt(line, 11, parsers);
      Success((line[0], FeatureRow(xs[0], xs[1], xs[2], xs[3], xs[4], xs[5], xs[6], xs[7], xs[8], mode, key)))
  }

  /** The columns convert exactly when all twelve exist and convert, and
      then hold the converted numbers in order. Otherwise the first column
      that fails decides: `ValueError` when some existing column does not
      convert, `IndexError` when the row is just too short. */
  lemma ColumnsMeaning(line: seq<string>, parsers: Parsers)
    ensures var r := Columns(line, parsers);
            r.Success? <==> Converts(line, parsers)
    ensures var r := Columns(line, parsers);
            r.Success? ==>
              var row := r.value.1;
              r.value.0 == line[0] &&
              parsers.toFloat(line[1]) == Some(row.danceability) && parsers.toFloat(line[2]) == Some(row.energy) &&
              parsers.toFloat(line[3]) == Some(row.loudness) && parsers.toFloat(line[4]) == Some(row.speechiness) &&
              parsers.toFloat(line[5]) == Some(row.acousticness) &&
              parsers.toFloat(line[6]) == Some(row.instrumentalness) &&
              parsers.toFloat(line[7]) == Some(row.liveness) && parsers.toFloat(line[8]) == Some(row.valence) &&
              parsers.toFloat(line[9]) == Some(row.tempo) &&
              parsers.toInt(line[10]) == Some(row.mode) && parsers.toInt(line[11]) == Some(row.key)
    ensures var r := Columns(line, parsers);
            r.Failure? ==>
              (r.error == IndexError || r.error == ValueError) &&
              (r.error == ValueError <==> exists k :: 1 <= k <= 11 && BadColumn(line, k, parsers))
  {
    FloatsFromMeaning(line, 1, 9, parsers);
    var floats := FloatsFrom(line, 1, 9, parsers);
    if floats.Success? {
      FloatsFromValues(line, 1, 9, parsers);
      var xs := floats.value;
      assert FloatAfter(line, 1, 0, parsers) == Some(xs[0]) && FloatAfter(line, 1, 1, parsers) == Some(xs[1]) &&
             FloatAfter(line, 1, 2, parsers) == Some(xs[2]) && FloatAfter(line, 1, 3, parsers) == Some(xs[3]) &&
             FloatAfter(line, 1, 4, parsers) == Some(xs[4]) && FloatAfter(line, 1, 5, parsers) == Some(xs[5]) &&
             FloatAfter(line, 1, 6, parsers) == Some(xs[6]) && FloatAfter(line, 1, 7, parsers) == Some(xs[7]) &&
             FloatAfter(line, 1, 8, parsers) == Some(xs[8]);
    }
    if |line| > 0 && floats.Failure? && floats.error == ValueError {
      var i :| 1 <= i < 10 && i < |line| && parsers.toFloat(line[i]).None?;
      assert BadColumn(line, i, parsers);
    }
    if |line| > 0 && floats.Failure? && floats.error == IndexError {
      assert forall k :: 1 <= k <= 9 ==> !BadColumn(line, k, parsers);
    }
    if |line| > 0 && floats.Success? {
      assert |line| >= 10;
      if IntAt(line, 10, parsers).Success? && IntAt(line, 11, parsers).Failure? {
        assert !BadColumn(line, 11, parsers) ==> |line| <= 11;
      }
      if IntAt(line, 10, parsers).Failure? {
        assert !BadColumn(line, 10, parsers) ==> |line| <= 10;
      }
    }
  }

  /** The seven features that must lie in [0, 1]: all but loudness, tempo
      and the tonality pair. */
  function Bounded(row: FeatureRow): (r: seq<real>)
    ensures |r| == 7
  {
    [row.danceability, row.energy, row.speechiness, row.acousticness, row.instrumentalness,
     row.liveness, row.valence]
  }

  predicate AllUnit(xs: seq<real>) {
    forall i :: 0 <= i < |xs| ==> 0.0 <= xs[i] <= 1.0
  }

  function Sum(xs: seq<real>): real {
    if xs == [] then 0.0 else xs[0] + Sum(xs[1..])
  }

  /** Numbers in [0, 1] sum to at most zero exactly when they are all zero. */
  lemma {:induction false} SumOfUnits(xs: seq<real>)
    requires AllUnit(xs)
    ensures Sum(xs) >= 0.0
    ensures Sum(xs) <= 0.0 <==> forall i :: 0 <= i < |xs| ==> xs[i] == 0.0
  {
    if xs != [] {
      assert AllUnit(xs[1..]) by {
        forall i | 0 <= i < |xs[1..]| ensures 0.0 <= xs[1..][i] <= 1.0 {
          assert xs[1..][i] == xs[i + 1];
        }
      }
      SumOfUnits(xs[1..]);
      if forall i :: 0 <= i < |xs[1..]| ==> xs[1..][i] == 0.0 {
        if xs[0] == 0.0 {
          forall i | 0 <= i < |xs| ensures xs[i] == 0.0 {
            if i > 0 {
              assert xs[i] == xs[1..][i - 1];
            }
          }
        }
      } else {
        var i :| 0 <= i < |xs[1..]| && xs[1..][i] != 0.0;
        assert xs[i + 1] != 0.0;
      }
    }
  }

  /** The checks after the early return: tempo in [30, 250] or exactly
      zero, mode 0 or 1, key between 0 and 12 inclusive. */
  predicate Plausible(row: FeatureRow) {
    (30.0 <= row.tempo <= 250.0 || row.tempo == 0.0) && (row.mode == 0 || row.mode == 1) && 0 <= row.key <= 12
  }

  /** `line_to_feature` with the object left out: the uri with the row, or
      with `None` for a row whose seven bounded features are all zero. A
      bounded feature outside [0, 1], or an implausible tempo, mode or key
      in a row that is not all zero, fails its assertion. */
  function LineToFeature(line: seq<string>, parsers: Parsers): (r: Result<(string, Option<FeatureRow>)>)
    ensures r.Success? ==> |line| > 0 && r.value.0 == line[0]
    ensures r.Success? && r.value.1.Some? ==> AllUnit(Bounded(r.value.1.value)) && Plausible(r.value.1.value)
  {
    var columns :- Columns(line, parsers);
    var row := columns.1;
    if !AllUnit(Bounded(row)) then Failure(AssertionError)
    else if Sum(Bounded(row)) <= 0.0 then Success((columns.0, None))
    else if !Plausible(row) then Failure(AssertionError)
    else Success((columns.0, Some(row)))
  }

  /** A conversion error is passed on; a row that converts either yields
      its uri or fails an assertion. */
  lemma LineToFeatureErrors(line: seq<string>, parsers: Parsers)
    ensures var r := LineToFeature(line, parsers);
            r.Success? ==> Columns(line, parsers).Success? && r.value.0 == line[0]
    ensures var r := LineToFeature(line, parsers);
            Columns(line, parsers).Failure? ==> r == Failure(Columns(line, parsers).error)
    ensures var r := LineToFeature(line, parsers);
            Columns(line, parsers).Success? && r.Failure? ==> r.error == AssertionError
  {
  }

  /** Of the rows whose columns convert, those with all seven bounded
      features zero are dropped, and those that pass every check and are
      not all zero are kept as they are. */
  lemma LineToFeatureCases(line: seq<string>, parsers: Parsers)
    ensures var r := LineToFeature(line, parsers);
            r.Success? && r.value.1.None? <==>
              Columns(line, parsers).Success? &&
              (var row := Columns(line, parsers).value.1;
               forall i :: 0 <= i < 7 ==> Bounded(row)[i] == 0.0)
    ensures var r := LineToFeature(line, parsers);
            r.Success? && r.value.1.Some? <==>
              Columns(line, parsers).Success? &&
              (var row := Columns(line, parsers).value.1;
               AllUnit(Bounded(row)) && (exists i :: 0 <= i < 7 && Bounded(row)[i] != 0.0) && Plausible(row))
    ensures var r := LineToFeature(line, parsers);
            r.Success? && r.value.1.Some? ==> r.value.1.value == Columns(line, parsers).value.1
  {
    var columns := Columns(line, parsers);
    if columns.Success? {
      var row := columns.value.1;
      if AllUnit(Bounded(row)) {
        SumOfUnits(Bounded(row));
      } else {
        var i :| 0 <= i < 7 && !(0.0 <= Bounded(row)[i] <= 1.0);
        assert Bounded(row)[i] != 0.0;
      }
    }
  }

  /** A row passing the first checks with all seven bounded features zero is
      dropped whatever its tempo, mode and key. */
  lemma ZeroRowDropped(line: seq<string>, parsers: Parsers)
    requires Columns(line, parsers).Success?
    requires forall i :: 0 <= i < 7 ==> Bounded(Columns(line, parsers).value.1)[i] == 0.0
    ensures LineToFeature(line, parsers) == Success((line[0], None))
  {
    LineToFeatureCases(line, parsers);
    LineToFeatureErrors(line, parsers);
  }

  /** The file filter: `features_` and three digits, then any character and
      `csv`, at the start of the name. */
  predicate IsFeaturesFile(name: string) {
    MatchesNumberedCsv("features_", name)
  }

  lemma FeaturesFileNames()
    ensures IsFeaturesFile("features_000.csv") && IsFeaturesFile("features_999.csv.gz")
    ensures !IsFeaturesFile("features_1.csv") && !IsFeaturesFile("tracks_001.csv")
  {
    assert !IsDigit("features_1.csv"[10]);
    assert "tracks_001.csv"[..9][0] != "features_"[0];
  }

  /** Where loading stands: the rows stored by uri, and the error that
      stopped it. */
  datatype Loaded = Loaded(rows: map<string, FeatureRow>, stop: Option<Error>)

  /** How loading reads one line: `line_to_feature` as a function value. */
  type LineReader = seq<string> -> Result<(string, Option<FeatureRow>)>

  function Reader(parsers: Parsers): LineReader {
    line => LineToFeature(line, parsers)
  }

  /** `read` is `line_to_feature` with the conversions of `parsers`. */
  ghost predicate ReadsBy(read: LineReader, parsers: Parsers) {
    forall line {:trigger LineToFeature(line, parsers)} :: read(line) == LineToFeature(line, parsers)
  }

  lemma ReaderReads(parsers: Parsers)
    ensures ReadsBy(Reader(parsers), parsers)
  {
  }

  /** The first `k` lines of one file: dropped rows are skipped, the others
      stored under their uri. */
  function StoreLines(s: Loaded, lines: seq<seq<string>>, k: nat, read: LineReader): Loaded
    requires k <= |lines|
  {
    if k == 0 then s else Store(StoreLines(s, lines, k - 1, read), lines[k - 1], read)
  }

  /** One line: a failure stops loading, a dropped row changes nothing, an
      accepted row is stored under its uri. */
  function Store(s: Loaded, line: seq<string>, read: LineReader): Loaded {
    if s.stop.Some? then s
    else match read(line)
      case Failure(e) => s.(stop := Some(e))
      case Success(pair) => if pair.1.None? then s else s.(rows := s.rows[pair.0 := pair.1.value])
  }

  /** The first `n` files, skipping those the filter refuses. */
  function StoreFiles(s: Loaded, files: seq<(string, seq<seq<string>>)>, n: nat, read: LineReader): Loaded
    requires n <= |files|
  {
    if n == 0 then s
    else
      var before := StoreFiles(s, files, n - 1, read);
      if IsFeaturesFile(files[n - 1].0) then StoreLines(before, files[n - 1].1, |files[n - 1].1|, read)
      else before
  }

  function OutcomeOf(s: Loaded): (r: Outcome)
    ensures r.Fail? <==> s.stop.Some?
  {
    if s.stop.Some? then Fail(s.stop.value) else Pass
  }

  lemma {:induction false} LinesStuck(s: Loaded, lines: seq<seq<string>>, k: nat, read: LineReader)
    requires k <= |lines| && s.stop.Some?
    ensures StoreLines(s, lines, k, read) == s
  {
    if k > 0 {
      LinesStuck(s, lines, k - 1, read);
    }
  }

  lemma {:induction false} LinesStopped(s: Loaded, lines: seq<seq<string>>, j: nat, k: nat, read: LineReader)
    requires j <= k <= |lines| && StoreLines(s, lines, j, read).stop.Some?
    ensures StoreLines(s, lines, k, read) == StoreLines(s, lines, j, read)
  {
    if j < k {
      LinesStopped(s, lines, j, k - 1, read);
    }
  }

  lemma {:induction false} FilesStopped(s: Loaded, files: seq<(string, seq<seq<string>>)>, i: nat, n: nat,
                                        read: LineReader)
    requires i <= n <= |files| && StoreFiles(s, files, i, read).stop.Some?
    ensures StoreFiles(s, files, n, read) == StoreFiles(s, files, i, read)
  {
    if i < n {
      FilesStopped(s, files, i, n - 1, read);
      LinesStuck(StoreFiles(s, files, n - 1, read), files[n - 1].1, |files[n - 1].1|, read);
    }
  }

  /** Every stored row passed all checks and is not all zero. */
  predicate AllAccepted(rows: map<string, FeatureRow>) {
    forall u :: u in rows ==>
      AllUnit(Bounded(rows[u])) && (exists i :: 0 <= i < 7 && Bounded(rows[u])[i] != 0.0) && Plausible(rows[u])
  }

  lemma {:induction false} LinesAccepted(s: Loaded, lines: seq<seq<string>>, k: nat, parsers: Parsers)
    requires k <= |lines| && AllAccepted(s.rows)
    ensures AllAccepted(StoreLines(s, lines, k, Reader(parsers)).rows)
  {
    if k > 0 {
      LinesAccepted(s, lines, k - 1, parsers);
      LineToFeatureCases(lines[k - 1], parsers);
    }
  }

  lemma {:induction false} FilesAccepted(s: Loaded, files: seq<(string, seq<seq<string>>)>, n: nat, parsers: Parsers)
    requires n <= |files| && AllAccepted(s.rows)
    ensures AllAccepted(StoreFiles(s, files, n, Reader(parsers)).rows)
  {
    if n > 0 {
      FilesAccepted(s, files, n - 1, parsers);
      LinesAccepted(StoreFiles(s, files, n - 1, Reader(parsers)), files[n - 1].1, |files[n - 1].1|, parsers);
    }
  }

  /** The line is accepted and stores a row under `uri`. */
  predicate Writes(line: seq<string>, read: LineReader, uri: string) {
    var r := read(line);
    r.Success? && r.value.1.Some? && r.value.0 == uri
  }

  /** A line that does not store under `uri` and does not stop loading
      leaves the row under `uri` alone. */
  lemma StoreKeeps(s: Loaded, line: seq<string>, read: LineReader, uri: string)
    requires Store(s, line, read).stop.None? && !Writes(line, read, uri)
    ensures s.stop.None?
    ensures uri in s.rows ==> uri in Store(s, line, read).rows && Store(s, line, read).rows[uri] == s.rows[uri]
  {
  }

  /** An accepted line stores its row under its uri. */
  lemma StoreAccepted(s: Loaded, line: seq<string>, read: LineReader, uri: string, row: FeatureRow)
    requires Store(s, line, read).stop.None? && read(line) == Success((uri, Some(row)))
    ensures Store(s, line, read) == s.(rows := s.rows[uri := row])
  {
  }

  /** A later accepted row with the same uri overwrites an earlier one, and
      a dropped row leaves the earlier one in place, whatever reads the
      lines (loading reads them with `Reader(parsers)`). */
  lemma {:induction false} LastAcceptedWins(s: Loaded, lines: seq<seq<string>>, k: nat, j: nat, read: LineReader,
                                            uri: string, row: FeatureRow)
    requires j < k <= |lines|
    requires StoreLines(s, lines, k, read).stop.None?
    requires read(lines[j]) == Success((uri, Some(row)))
    requires forall l :: j < l < k ==> !Writes(lines[l], read, uri)
    ensures uri in StoreLines(s, lines, k, read).rows && StoreLines(s, lines, k, read).rows[uri] == row
  {
    var before := StoreLines(s, lines, k - 1, read);
    assert StoreLines(s, lines, k, read) == Store(before, lines[k - 1], read);
    if j < k - 1 {
      StoreKeeps(before, lines[k - 1], read, uri);
      LastAcceptedWins(s, lines, k - 1, j, read, uri, row);
    } else {
      StoreAccepted(before, lines[j], read, uri, row);
    }
  }

  /** Loading keeps only rows that passed every check. */
  lemma LoadedAccepted(files: seq<(string, seq<seq<string>>)>, parsers: Parsers)
    ensures AllAccepted(StoreFiles(Loaded(map[], None), files, |files|, Reader(parsers)).rows)
  {
    FilesAccepted(Loaded(map[], None), files, |files|, parsers);
  }
}
