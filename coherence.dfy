// services/coherence_service.py: one row of twenty cells per eligible
// playlist, then the three bucket columns written in place.

module Coherence {
  import opened Common
  import opened Playlists
  import opened AudioFeatures
  import opened VarianceUtil
  import FeatureVariance
  import ArtistVariance

  /** A cell of a row: `None`, or a number (ints are stored as their value). */
  datatype Cell = Empty | Value(v: Float)

  /** Python's `==` on floats: NaN equals nothing, not even NaN. */
  predicate FloatEq(a: Float, b: Float) {
    a.Num? && b.Num? && a.val == b.val
  }

  lemma NaNEqualsNothing(x: Float)
    ensures !FloatEq(x, NaN) && !FloatEq(NaN, x)
  {
  }

  /** What `categorizes` writes for a value and the cutpoints
      `percentile`: NaN when the value `== np.nan`, else 0 up to the first
      cutpoint, 1 up to the second, 2 above. */
  function BucketCell(v: Float, cuts: (real, real)): (r: Cell)
    ensures r.Value? && r.v.Num?
    ensures r.v.val == 0.0 <==> v.Num? && v.val <= cuts.0
    ensures v.NaN? ==> r.v.val == 2.0
  {
    if FloatEq(v, NaN) then Value(NaN)
    else if FloatLe(v, Num(cuts.0)) then Value(Num(0.0))
    else if FloatLe(v, Num(cuts.1)) then Value(Num(1.0))
    else Value(Num(2.0))
  }

  /** The NaN guard never fires, so every value gets a bucket in {0, 1, 2}:
      0 exactly up to the first cutpoint, 1 exactly between the two, and 2
      above them and for NaN. Buckets never decrease as the value grows. */
  lemma BucketCellCases(v: Float, w: Float, cuts: (real, real))
    ensures BucketCell(v, cuts) in {Value(Num(0.0)), Value(Num(1.0)), Value(Num(2.0))}
    ensures BucketCell(v, cuts) == Value(Num(0.0)) <==> v.Num? && v.val <= cuts.0
    ensures BucketCell(v, cuts) == Value(Num(1.0)) <==> v.Num? && cuts.0 < v.val <= cuts.1
    ensures v.NaN? ==> BucketCell(v, cuts) == Value(Num(2.0))
    ensures v.Num? && w.Num? && v.val <= w.val ==> BucketCell(v, cuts).v.val <= BucketCell(w, cuts).v.val
  {
    NaNEqualsNothing(v);
    NaNEqualsNothing(w);
  }

  const LengthCuts: (real, real) := (40.0, 100.0)
  const EditCuts: (real, real) := (4.0, 40.0)

  /** The fixed cutpoints: lengths 40 → 0, 41 → 1, 100 → 1, 101 → 2; edit
      counts 4 → 0, 5 → 1, 40 → 1, 41 → 2. */
  lemma FixedCutpoints()
    ensures BucketCell(Num(40.0), LengthCuts) == Value(Num(0.0))
    ensures BucketCell(Num(41.0), LengthCuts) == Value(Num(1.0))
    ensures BucketCell(Num(100.0), LengthCuts) == Value(Num(1.0))
    ensures BucketCell(Num(101.0), LengthCuts) == Value(Num(2.0))
    ensures BucketCell(Num(4.0), EditCuts) == Value(Num(0.0))
    ensures BucketCell(Num(5.0), EditCuts) == Value(Num(1.0))
    ensures BucketCell(Num(40.0), EditCuts) == Value(Num(1.0))
    ensures BucketCell(Num(41.0), EditCuts) == Value(Num(2.0))
  {
  }

  /** `categorizes` on one row: `row[get_idx]` must exist (else
      `IndexError`) and be a number (`None <= x` raises `TypeError`); its
      bucket goes to `row[set_idx]`, which must exist. */
  function CategorizeRow(row: seq<Cell>, getIdx: nat, setIdx: nat, cuts: (real, real)): (r: Result<seq<Cell>>)
    ensures r.Success? <==> getIdx < |row| && setIdx < |row| && row[getIdx].Value?
    ensures r.Success? ==> |r.value| == |row| && forall j :: 0 <= j < |row| && j != setIdx ==> r.value[j] == row[j]
  {
    if getIdx >= |row| then Failure(IndexError)
    else if row[getIdx].Empty? then Failure(TypeError)
    else if setIdx >= |row| then Failure(IndexError)
    else Success(row[setIdx := BucketCell(row[getIdx].v, cuts)])
  }

  /** Categorising changes only cell `set_idx`, and fails exactly when one
      of the two cells is missing or the value is `None`. */
  lemma CategorizeRowCells(row: seq<Cell>, getIdx: nat, setIdx: nat, cuts: (real, real))
    ensures CategorizeRow(row, getIdx, setIdx, cuts).Success? <==>
              getIdx < |row| && setIdx < |row| && row[getIdx].Value?
    ensures var r := CategorizeRow(row, getIdx, setIdx, cuts);
            r.Success? ==>
              |r.value| == |row| && r.value[setIdx] == BucketCell(row[getIdx].v, cuts) &&
              forall j :: 0 <= j < |row| && j != setIdx ==> r.value[j] == row[j]
    ensures var r := CategorizeRow(row, getIdx, setIdx, cuts);
            r.Failure? ==> (r.error == TypeError <==> getIdx < |row| && row[getIdx].Empty?)
  {
  }

  /** `categorizes(data, get_idx, set_idx, percentile)` with the cutpoints
      given: the rows are visited in order and rewritten in place; the first
      row that raises stops the loop with the rows before it already
      written. `set_idx` defaults to `get_idx + 1`. `stopped` is the index
      of the row that raised, or the number of rows. */
  method Categorizes(data: array<seq<Cell>>, getIdx: nat, setIdx: Option<nat>, cuts: (real, real))
    returns (r: Outcome, ghost stopped: nat)
    modifies data
    ensures var s := if setIdx.Some? then setIdx.value else getIdx + 1;
            stopped <= data.Length &&
            (forall i :: 0 <= i < stopped ==> CategorizeRow(old(data[i]), getIdx, s, cuts) == Success(data[i])) &&
            (forall i :: stopped <= i < data.Length ==> data[i] == old(data[i])) &&
            (r.Pass? <==> stopped == data.Length) &&
            (r.Fail? ==> CategorizeRow(old(data[stopped]), getIdx, s, cuts) == Failure(r.error))
  {
    var s := if setIdx.Some? then setIdx.value else getIdx + 1;
    var i := 0;
    while i < data.Length
      invariant 0 <= i <= data.Length
      invariant forall j :: 0 <= j < i ==> CategorizeRow(old(data[j]), getIdx, s, cuts) == Success(data[j])
      invariant forall j :: i <= j < data.Length ==> data[j] == old(data[j])
    {
      var row := data[i];
      if getIdx >= |row| {
        return Fail(IndexError), i;
      }
      var value := row[getIdx];
      if value.Empty? {
        return Fail(TypeError), i;
      }
      var cell;
      if FloatEq(value.v, NaN) {
        cell := Value(NaN);
      } else if FloatLe(value.v, Num(cuts.0)) {
        cell := Value(Num(0.0));
      } else if FloatLe(value.v, Num(cuts.1)) {
        cell := Value(Num(1.0));
      } else {
        cell := Value(Num(2.0));
      }
      if s >= |row| {
        return Fail(IndexError), i;
      }
      data[i] := row[s := cell];
      i := i + 1;
    }
    return Pass, data.Length;
  }

  // The column layout

  const IndependentVariables: seq<string> := ["c_length", "c_num_edits", "c_popularity", "c_collaborative"]
  const DependentVariables: seq<string> :=
    ["artists", "loudness", "energy", "danceability", "acousticness", "valence",
     "speechiness", "instrumentalness", "liveness", "tempo", "tonality"]
  /** `self.features`: the ten feature labels and the artist column. */
  const Features: seq<string> := FeatureLabels + ["artists"]

  /** The twenty columns of the frame, in order. */
  const ColumnLayout: seq<string> :=
    ["length", "log_length", "c_length", "num_edits", "log_num_edits", "c_num_edits",
     "popularity", "c_popularity", "c_collaborative",
     "danceability", "energy", "loudness", "speechiness", "acousticness",
     "instrumentalness", "liveness", "valence", "tempo", "tonality", "artists"]

  /** The columns one independent variable contributes: its bare name, its
      log (except for popularity) and its bucket column. */
  function Group(varName: string): seq<string>
    requires |varName| >= 2
  {
    [varName[2..]] + (if varName != "c_popularity" then ["log_" + varName[2..]] else []) + [varName]
  }

  /** The columns of the first `i` independent variables. */
  function Leading(i: nat): seq<string>
    requires i <= 3
  {
    if i == 0 then [] else Leading(i - 1) + Group(IndependentVariables[i - 1])
  }

  /** The column loop of `load_from_data`. */
  method ColumnNames() returns (columns: seq<string>)
    ensures columns == ColumnLayout
  {
    columns := [];
    var i := 0;
    while i < |IndependentVariables| - 1
      invariant 0 <= i <= 3 && columns == Leading(i)
    {
      var varName := IndependentVariables[i];
      columns := columns + [varName[2..]];
      if varName != "c_popularity" {
        columns := columns + ["log_" + varName[2..]];
      }
      columns := columns + [varName];
      i := i + 1;
    }
    columns := columns + ["c_collaborative"];
    columns := columns + Features;
    LeadingColumns();
  }

  lemma Groups()
    ensures Group(IndependentVariables[0]) == ["length", "log_length", "c_length"]
    ensures Group(IndependentVariables[1]) == ["num_edits", "log_num_edits", "c_num_edits"]
    ensures Group(IndependentVariables[2]) == ["popularity", "c_popularity"]
  {
    assert "c_length"[2..] == "length";
    assert "c_num_edits"[2..] == "num_edits";
    assert "c_popularity"[2..] == "popularity";
    assert "log_" + "length" == "log_length" && "log_" + "num_edits" == "log_num_edits";
    assert |"c_length"| != |"c_popularity"| && |"c_num_edits"| != |"c_popularity"|;
  }

  lemma LeadingNames()
    ensures Leading(3) == ["length", "log_length", "c_length", "num_edits", "log_num_edits", "c_num_edits",
                           "popularity", "c_popularity"]
  {
    Groups();
    assert Leading(3) == Group(IndependentVariables[0]) + Group(IndependentVariables[1]) + Group(IndependentVariables[2]);
  }

  lemma LeadingColumns()
    ensures Leading(3) + ["c_collaborative"] + Features == ColumnLayout
  {
    LeadingNames();
    assert ColumnLayout[..9] == Leading(3) + ["c_collaborative"];
    assert ColumnLayout[9..] == Features;
    assert ColumnLayout == ColumnLayout[..9] + ColumnLayout[9..];
  }

  /** The layout has twenty columns; column `9 + i` is feature label `i`
      and the last is the artist column. */
  lemma LayoutShape(i: nat)
    requires i < 10
    ensures |ColumnLayout| == 20
    ensures ColumnLayout[9 + i] == FeatureLabels[i] && ColumnLayout[19] == "artists"
    ensures ColumnLayout[2] == IndependentVariables[0] && ColumnLayout[5] == IndependentVariables[1]
    ensures ColumnLayout[7] == IndependentVariables[2] && ColumnLayout[8] == IndependentVariables[3]
  {
  }

  // Building one row

  /** The tables `load_from_data` reads: the feature variances, the edit
      counts, the popularities and the artist variances, by playlist id. */
  datatype Sources = Sources(variances: map<int, FeatureVariance.Entry>, numEdits: map<int, int>,
                             popularity: map<int, real>, artists: map<int, ArtistVariance.Entry>)

  /** A feature-variance entry holds one pair per feature label, in label
      order, as `features_to_variance` builds it. */
  ghost predicate LabelKeyed(vd: map<string, (Float, Float)>) {
    forall l :: l in vd <==> l in FeatureLabels
  }

  ghost predicate AllLabelKeyed(variances: map<int, FeatureVariance.Entry>) {
    forall pid :: pid in variances ==> LabelKeyed(variances[pid].variances)
  }

  /** The coherence of label `i`. */
  function LabelCoherence(vd: map<string, (Float, Float)>, minThreshold: real, i: nat): Result<Float>
    requires LabelKeyed(vd) && i < 10
  {
    GetCoherence(vd[FeatureLabels[i]].0, vd[FeatureLabels[i]].1, minThreshold)
  }

  /** The coherence cells of the first `n` labels; the first label whose
      coherence raises stops the row. */
  function LabelCells(vd: map<string, (Float, Float)>, minThreshold: real, n: nat): Result<seq<Cell>>
    requires LabelKeyed(vd) && n <= 10
  {
    if n == 0 then Success([])
    else
      var cells :- LabelCells(vd, minThreshold, n - 1);
      var c :- LabelCoherence(vd, minThreshold, n - 1);
      Success(cells + [Value(c)])
  }

  lemma {:induction false} LabelCellsMeaning(vd: map<string, (Float, Float)>, minThreshold: real, n: nat)
    requires LabelKeyed(vd) && n <= 10
    ensures var r := LabelCells(vd, minThreshold, n);
            (r.Success? <==> forall i :: 0 <= i < n ==> LabelCoherence(vd, minThreshold, i).Success?) &&
            (r.Success? ==> |r.value| == n &&
                            forall i :: 0 <= i < n ==> r.value[i] == Value(LabelCoherence(vd, minThreshold, i).value)) &&
            (r.Failure? ==> r.error == ZeroDivisionError)
  {
    if n > 0 {
      LabelCellsMeaning(vd, minThreshold, n - 1);
    }
  }

  /** The artist cell: the artist coherence when the playlist has an
      artist entry with enough sequential pairs (too few drop the row),
      NaN when it has none. */
  function ArtistCell(pid: int, artists: map<int, ArtistVariance.Entry>, minSamples: int, minThreshold: real)
    : Result<Option<Cell>>
  {
    if pid in artists then
      var a := artists[pid];
      if a.seqCount < minSamples then Success(None)
      else
        var c :- GetCoherence(Num(a.sequential), Num(a.pairwise), minThreshold);
        Success(Some(Value(c)))
    else Success(Some(Value(NaN)))
  }

  /** The length, edit and popularity cells and the collaboration flag;
      the bucket cells are `None` until `categorizes` fills them. */
  function Leaders(length: nat, edits: int, popularity: real, collaborative: bool, log: real -> real): seq<Cell> {
    [Value(Num(length as real)), Value(Num(log(length as real))), Empty,
     Value(Num(edits as real)), Value(Num(log(edits as real))), Empty,
     Value(Num(popularity)), Empty,
     Value(Num(if collaborative then 1.0 else 0.0))]
  }

  /** The body of the playlist loop: `None` for a playlist the filters
      skip (`continue`), a row for a kept one, or the exception raised. */
  function RowOf(pid: int, p: Playlist, src: Sources, minSamples: int, minThreshold: real, log: real -> real)
    : Result<Option<seq<Cell>>>
    requires AllLabelKeyed(src.variances)
  {
    if pid !in src.variances then Failure(KeyError)
    else
      var e := src.variances[pid];
      if e.seqCount != e.length - 1 || e.length < minSamples then Success(None)
      else if pid !in src.numEdits then Failure(KeyError)
      else if src.numEdits[pid] < 1 then Success(None)
      else if pid !in src.popularity then Failure(KeyError)
      else
        var cells :- LabelCells(e.variances, minThreshold, 10);
        var artist :- ArtistCell(pid, src.artists, minSamples, minThreshold);
        if artist.None? then Success(None)
        else
          Success(Some(Leaders(e.length, src.numEdits[pid], src.popularity[pid], p.isCollaborative, log)
                       + cells + [artist.value]))
  }

  /** Which playlists are kept: the sequential count must be the length
      minus one, the length at least `min_samples`, at least one edit, and
      an artist entry, when there is one, at least `min_samples` sequential
      pairs; the coherences must not raise. */
  predicate Eligible(pid: int, src: Sources, minSamples: int)
    requires pid in src.variances && pid in src.numEdits
  {
    var e := src.variances[pid];
    e.seqCount == e.length - 1 && e.length >= minSamples && src.numEdits[pid] >= 1 &&
    (pid in src.artists ==> src.artists[pid].seqCount >= minSamples)
  }

  /** A missing variance, edit count or popularity raises `KeyError`, in the
      order the loop reads them; a missing artist entry does not. A row is
      kept exactly when the playlist is eligible and no coherence raises. */
  lemma RowOfCases(pid: int, p: Playlist, src: Sources, minSamples: int, minThreshold: real, log: real -> real)
    requires AllLabelKeyed(src.variances)
    ensures var r := RowOf(pid, p, src, minSamples, minThreshold, log);
            (r == Failure(KeyError) <==>
               pid !in src.variances ||
               (src.variances[pid].seqCount == src.variances[pid].length - 1 &&
                src.variances[pid].length >= minSamples &&
                (pid !in src.numEdits || (src.numEdits[pid] >= 1 && pid !in src.popularity)))) &&
            (r.Failure? ==> r.error in {KeyError, ZeroDivisionError})
    ensures var r := RowOf(pid, p, src, minSamples, minThreshold, log);
            r.Success? && r.value.Some? <==>
              pid in src.variances && pid in src.numEdits && pid in src.popularity &&
              Eligible(pid, src, minSamples) &&
              (forall i :: 0 <= i < 10 ==> LabelCoherence(src.variances[pid].variances, minThreshold, i).Success?) &&
              (pid in src.artists ==>
                 GetCoherence(Num(src.artists[pid].sequential), Num(src.artists[pid].pairwise), minThreshold).Success?)
  {
    if pid in src.variances {
      LabelCellsMeaning(src.variances[pid].variances, minThreshold, 10);
    }
  }

  /** A kept row has twenty cells in the order of the columns: the length,
      its log and an empty bucket; the edit count, its log and an empty
      bucket; the popularity and an empty bucket; the collaboration flag as
      0 or 1; the coherence of every feature label; and the artist
      coherence, NaN when there is no artist entry. */
  lemma RowOfLayout(pid: int, p: Playlist, src: Sources, minSamples: int, minThreshold: real, log: real -> real)
    requires AllLabelKeyed(src.variances)
    requires RowOf(pid, p, src, minSamples, minThreshold, log).Success?
    requires RowOf(pid, p, src, minSamples, minThreshold, log).value.Some?
    ensures var row := RowOf(pid, p, src, minSamples, minThreshold, log).value.value;
            var e := src.variances[pid];
            |row| == 20 &&
            row[0] == Value(Num(e.length as real)) && row[1] == Value(Num(log(e.length as real))) && row[2] == Empty &&
            row[3] == Value(Num(src.numEdits[pid] as real)) && row[4] == Value(Num(log(src.numEdits[pid] as real))) &&
            row[5] == Empty && row[6] == Value(Num(src.popularity[pid])) && row[7] == Empty &&
            row[8] == Value(Num(if p.isCollaborative then 1.0 else 0.0)) &&
            (forall j :: 9 <= j < 19 ==> row[j].Value? && LabelCoherence(e.variances, minThreshold, j - 9) == Success(row[j].v)) &&
            (pid in src.artists ==>
               row[19].Value? &&
               GetCoherence(Num(src.artists[pid].sequential), Num(src.artists[pid].pairwise), minThreshold) == Success(row[19].v)) &&
            (pid !in src.artists ==> row[19] == Value(NaN))
  {
    var e := src.variances[pid];
    LabelCellsMeaning(e.variances, minThreshold, 10);
    var cells := LabelCells(e.variances, minThreshold, 10).value;
    var row := RowOf(pid, p, src, minSamples, minThreshold, log).value.value;
    forall j | 9 <= j < 19
      ensures row[j].Value? && LabelCoherence(e.variances, minThreshold, j - 9) == Success(row[j].v)
    {
      assert row[j] == cells[j - 9];
    }
  }

  /** The playlist loop body. The label loop appends one coherence per
      label. */
  method BuildRow(pid: int, p: Playlist, src: Sources, minSamples: int, minThreshold: real, log: real -> real)
    returns (r: Result<Option<seq<Cell>>>)
    requires AllLabelKeyed(src.variances)
    ensures r == RowOf(pid, p, src, minSamples, minThreshold, log)
  {
    if pid !in src.variances {
      return Failure(KeyError);
    }
    var e := src.variances[pid];
    if e.seqCount != e.length - 1 || e.length < minSamples {
      return Success(None);
    }
    if pid !in src.numEdits {
      return Failure(KeyError);
    }
    var numEdits := src.numEdits[pid];
    if numEdits < 1 {
      return Success(None);
    }
    if pid !in src.popularity {
      return Failure(KeyError);
    }
    var row := Leaders(e.length, numEdits, src.popularity[pid], p.isCollaborative, log);
    ghost var leaders, cells := row, [];
    var i := 0;
    while i < |FeatureLabels|
      invariant 0 <= i <= 10
      invariant LabelCells(e.variances, minThreshold, i) == Success(cells) && row == leaders + cells
    {
      var pair := e.variances[FeatureLabels[i]];
      var c := GetCoherence(pair.0, pair.1, minThreshold);
      if c.Failure? {
        LabelCellsStopped(e.variances, minThreshold, i + 1, 10);
        return Failure(c.error);
      }
      row, cells := row + [Value(c.value)], cells + [Value(c.value)];
      i := i + 1;
    }
    if pid in src.artists {
      var a := src.artists[pid];
      if a.seqCount < minSamples {
        return Success(None);
      }
      var c := GetCoherence(Num(a.sequential), Num(a.pairwise), minThreshold);
      if c.Failure? {
        return Failure(c.error);
      }
      row := row + [Value(c.value)];
    } else {
      row := row + [Value(NaN)];
    }
    r := Success(Some(row));
  }

  /** Once a label raises, the row is lost whatever the later labels hold. */
  lemma {:induction false} LabelCellsStopped(vd: map<string, (Float, Float)>, minThreshold: real, i: nat, n: nat)
    requires LabelKeyed(vd) && i <= n <= 10
    requires LabelCells(vd, minThreshold, i).Failure?
    ensures LabelCells(vd, minThreshold, n) == LabelCells(vd, minThreshold, i)
    decreases n - i
  {
    if i < n {
      LabelCellsStopped(vd, minThreshold, i, n - 1);
    }
  }

  // The playlist loop

  /** The index and the rows after the first `k` playlists, or the
      exception that ended the loop. */
  function Collect(items: seq<(int, Playlist)>, k: nat, src: Sources, minSamples: int, minThreshold: real,
                   log: real -> real): Result<(seq<int>, seq<seq<Cell>>)>
    requires k <= |items| && AllLabelKeyed(src.variances)
  {
    if k == 0 then Success(([], []))
    else
      var acc :- Collect(items, k - 1, src, minSamples, minThreshold, log);
      var row :- RowOf(items[k - 1].0, items[k - 1].1, src, minSamples, minThreshold, log);
      if row.None? then Success(acc) else Success((acc.0 + [items[k - 1].0], acc.1 + [row.value]))
  }

  lemma {:induction false} CollectStopped(items: seq<(int, Playlist)>, k: nat, n: nat, src: Sources, minSamples: int,
                                          minThreshold: real, log: real -> real)
    requires k <= n <= |items| && AllLabelKeyed(src.variances)
    requires Collect(items, k, src, minSamples, minThreshold, log).Failure?
    ensures Collect(items, n, src, minSamples, minThreshold, log) == Collect(items, k, src, minSamples, minThreshold, log)
    decreases n - k
  {
    if k < n {
      CollectStopped(items, k, n - 1, src, minSamples, minThreshold, log);
    }
  }

  /** A row of twenty cells with numbers where `categorizes` reads. */
  predicate Kept(row: seq<Cell>) {
    |row| == 20 && row[0].Value? && row[3].Value? && row[6].Value?
  }

  /** The loop succeeds exactly when no playlist raises; then there is one
      index entry per row, every row has the kept layout, and each row is
      the row of a playlist with that id. */
  lemma {:induction false} CollectRows(items: seq<(int, Playlist)>, k: nat, src: Sources, minSamples: int,
                                       minThreshold: real, log: real -> real)
    requires k <= |items| && AllLabelKeyed(src.variances)
    ensures var c := Collect(items, k, src, minSamples, minThreshold, log);
            (c.Success? <==> forall i :: 0 <= i < k ==> RowOf(items[i].0, items[i].1, src, minSamples, minThreshold, log).Success?) &&
            (c.Success? ==>
               |c.value.0| == |c.value.1| &&
               (forall j :: 0 <= j < |c.value.1| ==> Kept(c.value.1[j])) &&
               forall j :: 0 <= j < |c.value.1| ==>
                 exists i :: 0 <= i < k && items[i].0 == c.value.0[j] &&
                   RowOf(items[i].0, items[i].1, src, minSamples, minThreshold, log) == Success(Some(c.value.1[j])))
  {
    if k > 0 {
      CollectRows(items, k - 1, src, minSamples, minThreshold, log);
      var prev := Collect(items, k - 1, src, minSamples, minThreshold, log);
      var (pid, p) := items[k - 1];
      var row := RowOf(pid, p, src, minSamples, minThreshold, log);
      if prev.Success? && row.Success? && row.value.Some? {
        RowOfLayout(pid, p, src, minSamples, minThreshold, log);
        var c := Collect(items, k, src, minSamples, minThreshold, log).value;
        forall j | 0 <= j < |c.1|
          ensures exists i :: 0 <= i < k && items[i].0 == c.0[j] &&
                    RowOf(items[i].0, items[i].1, src, minSamples, minThreshold, log) == Success(Some(c.1[j]))
        {
          if j == |c.1| - 1 {
            assert items[k - 1].0 == c.0[j];
          } else {
            assert c.1[j] == prev.value.1[j] && c.0[j] == prev.value.0[j];
          }
        }
      }
    }
  }

  /** The playlist loop of `load_from_data` over `playlist_service.playlists.items()`. */
  method BuildRows(items: seq<(int, Playlist)>, src: Sources, minSamples: int, minThreshold: real, log: real -> real)
    returns (r: Result<(seq<int>, seq<seq<Cell>>)>)
    requires AllLabelKeyed(src.variances)
    ensures r == Collect(items, |items|, src, minSamples, minThreshold, log)
  {
    var index: seq<int>, values: seq<seq<Cell>> := [], [];
    var k := 0;
    while k < |items|
      invariant 0 <= k <= |items|
      invariant Collect(items, k, src, minSamples, minThreshold, log) == Success((index, values))
    {
      var (pid, playlist) := items[k];
      var row := BuildRow(pid, playlist, src, minSamples, minThreshold, log);
      if row.Failure? {
        CollectStopped(items, k + 1, |items|, src, minSamples, minThreshold, log);
        return Failure(row.error);
      }
      if row.value.Some? {
        index, values := index + [pid], values + [row.value.value];
      }
      k := k + 1;
    }
    r := Success((index, values));
  }

  /** A kept row after the three `categorizes` calls: the length bucket in
      cell 2, the edit bucket in cell 5, the popularity bucket in cell 7. */
  function Bucketed(row: seq<Cell>, popularityCuts: (real, real)): (r: seq<Cell>)
    requires Kept(row)
  {
    row[2 := BucketCell(row[0].v, LengthCuts)][5 := BucketCell(row[3].v, EditCuts)][7 := BucketCell(row[6].v, popularityCuts)]
  }

  /** Bucketing fills the three empty bucket cells with 0, 1 or 2 and
      leaves every other cell as it was. */
  lemma BucketedCells(row: seq<Cell>, popularityCuts: (real, real))
    requires Kept(row)
    ensures var b := Bucketed(row, popularityCuts);
            |b| == 20 &&
            b[2] in {Value(Num(0.0)), Value(Num(1.0)), Value(Num(2.0))} &&
            b[5] in {Value(Num(0.0)), Value(Num(1.0)), Value(Num(2.0))} &&
            b[7] in {Value(Num(0.0)), Value(Num(1.0)), Value(Num(2.0))} &&
            forall j :: 0 <= j < 20 && j != 2 && j != 5 && j != 7 ==> b[j] == row[j]
  {
    BucketCellCases(row[0].v, row[0].v, LengthCuts);
    BucketCellCases(row[3].v, row[3].v, EditCuts);
    BucketCellCases(row[6].v, row[6].v, popularityCuts);
  }

  /** The three calls, one row at a time, give the bucketed row. */
  lemma CategorizedThrice(row: seq<Cell>, popularityCuts: (real, real))
    requires Kept(row)
    ensures var one := CategorizeRow(row, 0, 2, LengthCuts);
            one.Success? && Kept(one.value) &&
            var two := CategorizeRow(one.value, 3, 5, EditCuts);
            two.Success? && Kept(two.value) &&
            var three := CategorizeRow(two.value, 6, 7, popularityCuts);
            three == Success(Bucketed(row, popularityCuts))
  {
  }

  /** The three `categorizes` calls of `load_from_data` on the kept rows,
      none of which fails. */
  method BucketAll(values: array<seq<Cell>>, popularityCuts: (real, real))
    requires forall j :: 0 <= j < values.Length ==> Kept(values[j])
    modifies values
    ensures forall j :: 0 <= j < values.Length ==> values[j] == Bucketed(old(values[j]), popularityCuts)
  {
    ghost var rows := values[..];
    forall j | 0 <= j < values.Length
      ensures CategorizeRow(rows[j], 0, 2, LengthCuts).Success?
    {
      CategorizedThrice(rows[j], popularityCuts);
    }
    var r1, _ := Categorizes(values, 0, Some(2), LengthCuts);
    ghost var one := values[..];
    forall j | 0 <= j < values.Length
      ensures CategorizeRow(one[j], 3, 5, EditCuts).Success?
    {
      CategorizedThrice(rows[j], popularityCuts);
    }
    var r2, _ := Categorizes(values, 3, Some(5), EditCuts);
    ghost var two := values[..];
    forall j | 0 <= j < values.Length
      ensures CategorizeRow(two[j], 6, 7, popularityCuts) == Success(Bucketed(rows[j], popularityCuts))
    {
      CategorizedThrice(rows[j], popularityCuts);
    }
    var r3, _ := Categorizes(values, 6, Some(7), popularityCuts);
  }

  /** `os.path.join(cached_path, 'coherence_service[_shuffled].pk')` */
  function CacheFile(cachedPath: string, shuffled: bool): (path: string)
    ensures EndsWith(path, if shuffled then "coherence_service_shuffled.pk" else "coherence_service.pk")
  {
    PathJoin(cachedPath, if shuffled then "coherence_service_shuffled.pk" else "coherence_service.pk")
  }

  /** `get_export_path`: `coherence.json` for a shuffled service and
      `coherence_shuffled.json` for an unshuffled one. */
  function ExportPath(filepath: string, shuffled: bool): (path: string)
    ensures EndsWith(path, if shuffled then "coherence.json" else "coherence_shuffled.json")
  {
    if shuffled then PathJoin(filepath, "coherence.json") else PathJoin(filepath, "coherence_shuffled.json")
  }

  /** What a path ending in `p` ends in: the endings of `p`, and no other
      ending of the same length. */
  lemma EndingOfEnding(s: string, p: string, q: string)
    requires EndsWith(s, p) && |q| <= |p|
    ensures EndsWith(s, q) <==> p[|p| - |q|..] == q
  {
    assert s[|s| - |q|..] == p[|p| - |q|..];
  }

  /** The export names are the other way round from the cache names: the
      shuffled service exports to the name without `_shuffled`... */
  lemma ShuffledExportUnmarked(dir: string)
    ensures !EndsWith(ExportPath(dir, true), "_shuffled.json")
  {
    var suffix, name := "_shuffled.json", "coherence.json";
    EndingOfEnding(ExportPath(dir, true), name, suffix);
    assert name[0] != suffix[0];
  }

  /** A path ending in the unshuffled export name ends in `_shuffled.json`. */
  lemma MarkedName(s: string)
    requires EndsWith(s, "coherence_shuffled.json")
    ensures EndsWith(s, "_shuffled.json")
  {
    var suffix, name := "_shuffled.json", "coherence_shuffled.json";
    EndingOfEnding(s, name, suffix);
    assert name[9..] == suffix;
  }

  /** ... and the unshuffled one to the name with it. */
  lemma UnshuffledExportMarked(dir: string)
    ensures EndsWith(ExportPath(dir, false), "_shuffled.json")
  {
    MarkedName(ExportPath(dir, false));
  }

  /** The frame `load_from_data` builds: an index of playlist ids and one
      row per id under the twenty columns. */
  datatype Frame = Frame(index: seq<int>, columns: seq<string>, rows: seq<seq<Cell>>)

  class CoherenceService {
    const minSamples: int
    const minThreshold: real
    const shuffled: bool
    const filepath: string
    /** The dependent variables: the feature labels and `artists`. */
    const features: seq<string>
    /** `self.data`: `None` until loaded. */
    var data: Option<Frame>

    constructor (minSamples: int, minThreshold: real, shuffled: bool, cachedPath: string)
      ensures this.minSamples == minSamples && this.minThreshold == minThreshold && this.shuffled == shuffled
      ensures filepath == CacheFile(cachedPath, shuffled) && features == Features && data == None
    {
      features := Features;
      this.minSamples := minSamples;
      this.minThreshold := minThreshold;
      this.shuffled := shuffled;
      filepath := CacheFile(cachedPath, shuffled);
      data := None;
    }

    /** `load_from_data`: both variance services must match this service's
        shuffling; the rows of the kept playlists are bucketed and become
        the frame. An exception leaves the old frame in place.
        `popularityCuts` are the 33rd and 66th percentiles of the
        popularity column, `log` is `math.log`. */
    method LoadFromData(playlists: seq<(int, Playlist)>, numEdits: map<int, int>, popularity: map<int, real>,
                        variances: FeatureVariance.FeatureVarianceService,
                        artistVariances: ArtistVariance.ArtistVarianceService,
                        popularityCuts: (real, real), log: real -> real)
      returns (r: Outcome)
      requires AllLabelKeyed(variances.variances)
      modifies this
      ensures variances.shuffled != shuffled || artistVariances.shuffled != shuffled ==>
                r == Fail(AssertionError) && data == old(data)
      ensures variances.shuffled == shuffled && artistVariances.shuffled == shuffled ==>
                var src := Sources(variances.variances, numEdits, popularity, artistVariances.variances);
                var c := Collect(playlists, |playlists|, src, minSamples, minThreshold, log);
                (r.Pass? <==> c.Success?) &&
                (r.Fail? ==> r == Fail(c.error) && data == old(data)) &&
                (r.Pass? ==>
                   data.Some? && data.value.index == c.value.0 && data.value.columns == ColumnLayout &&
                   |data.value.rows| == |c.value.1| &&
                   forall j :: 0 <= j < |c.value.1| ==>
                     Kept(c.value.1[j]) && data.value.rows[j] == Bucketed(c.value.1[j], popularityCuts))
    {
      if variances.shuffled != shuffled || artistVariances.shuffled != shuffled {
        return Fail(AssertionError);
      }
      var columns := ColumnNames();
      var src := Sources(variances.variances, numEdits, popularity, artistVariances.variances);
      var built := BuildRows(playlists, src, minSamples, minThreshold, log);
      if built.Failure? {
        return Fail(built.error);
      }
      var (index, rows) := built.value;
      CollectRows(playlists, |playlists|, src, minSamples, minThreshold, log);
      var values := new seq<Cell>[|rows|](j requires 0 <= j < |rows| => rows[j]);
      BucketAll(values, popularityCuts);
      data := Some(Frame(index, columns, values[..]));
      r := Pass;
    }
  }
}
