/** The artist-embedding variances: the service's own all-pairs and
    adjacent estimators over the artist embeddings of a playlist's tracks,
    and the resumable batch loop that fills the variance table. The
    similarity of two embeddings (the mean cosine distance between the
    artist columns of the playlist-artist matrix) is a parameter `sim`;
    the worker pool is a sequential loop here. */
module ArtistVariance {
  import opened Common
  import opened Tracks
  import opened Playlists
  import opened PyRandom
  import opened VarianceUtil

  /** `embedding_similarity(a, b) ** 2` */
  function Sq<E>(sim: (E, E) -> real, a: E, b: E): real {
    var d := sim(a, b); d * d
  }

  // ---------------------------------------------------------------------
  // The sums the two estimators accumulate

  /** Squared similarities of `e[i]` with `e[i+1..j]`. */
  function RowTotal<E>(e: seq<E>, i: nat, j: nat, sim: (E, E) -> real): real
    requires i < |e| && j <= |e|
    decreases j
  {
    if j <= i + 1 then 0.0 else RowTotal(e, i, j - 1, sim) + Sq(sim, e[i], e[j - 1])
  }

  /** Squared similarities of the pairs (k, j), k < i, k < j. */
  function PairTotalUpTo<E>(e: seq<E>, i: nat, sim: (E, E) -> real): real
    requires i <= |e|
  {
    if i == 0 then 0.0 else PairTotalUpTo(e, i - 1, sim) + RowTotal(e, i - 1, |e|, sim)
  }

  /** The sum over all pairs i < j. */
  function PairTotal<E>(e: seq<E>, sim: (E, E) -> real): real {
    PairTotalUpTo(e, |e|, sim)
  }

  /** Squared similarities of the adjacent pairs (k, k + 1), k < i. */
  function AdjacentTotalUpTo<E>(e: seq<E>, i: nat, sim: (E, E) -> real): real
    requires i == 0 || i < |e|
  {
    if i == 0 then 0.0 else AdjacentTotalUpTo(e, i - 1, sim) + Sq(sim, e[i - 1], e[i])
  }

  /** The sum over all adjacent pairs. */
  function AdjacentTotal<E>(e: seq<E>, sim: (E, E) -> real): real {
    if |e| == 0 then 0.0 else AdjacentTotalUpTo(e, |e| - 1, sim)
  }

  // ---------------------------------------------------------------------
  // The two estimators

  /** `playlist_variance`: the all-pairs sum over `n(n-1)` and the count
      `n(n-1) // 2`; fewer than two embeddings divide zero by zero. */
  method PlaylistVariance<E>(embeddings: seq<E>, sim: (E, E) -> real) returns (r: Result<(real, int)>)
    ensures r.Failure? <==> |embeddings| < 2
    ensures r.Failure? ==> r.error == ZeroDivisionError
    ensures r.Success? ==>
              var n := |embeddings|;
              r.value == (PairTotal(embeddings, sim) / (n * (n - 1)) as real, n * (n - 1) / 2)
  {
    var sum := 0.0;
    var n := |embeddings|;
    var i := 0;
    while i + 1 < n
      invariant i <= n && (n > 0 ==> i <= n - 1)
      invariant sum == PairTotalUpTo(embeddings, i, sim)
    {
      var j := i + 1;
      while j < n
        invariant i + 1 <= j <= n
        invariant sum == PairTotalUpTo(embeddings, i, sim) + RowTotal(embeddings, i, j, sim)
      {
        var d := sim(embeddings[i], embeddings[j]);
        sum := sum + d * d;
        j := j + 1;
      }
      i := i + 1;
    }
    var div := n * (n - 1);
    if div == 0 {
      return Failure(ZeroDivisionError);
    }
    assert PairTotalUpTo(embeddings, n, sim) == PairTotalUpTo(embeddings, n - 1, sim);
    r := Success((sum / div as real, div / 2));
  }

  /** `sequential_variance`: the adjacent sum over `n - 1`, halved, with
      count `n - 1`. One embedding divides zero by zero; none divides zero
      by -1 and yields `(0.0, -1)`. */
  method SequentialVariance<E>(embeddings: seq<E>, sim: (E, E) -> real) returns (r: Result<(real, int)>)
    ensures r.Failure? <==> |embeddings| == 1
    ensures r.Failure? ==> r.error == ZeroDivisionError
    ensures |embeddings| == 0 ==> r == Success((0.0, -1))
    ensures |embeddings| >= 2 ==>
              var n := |embeddings|;
              r == Success((AdjacentTotal(embeddings, sim) / (n - 1) as real / 2.0, n - 1))
  {
    var sum := 0.0;
    var n := |embeddings|;
    var i := 0;
    while i + 1 < n
      invariant i <= n && (n > 0 ==> i <= n - 1)
      invariant sum == AdjacentTotalUpTo(embeddings, i, sim)
    {
      var d := sim(embeddings[i], embeddings[i + 1]);
      sum := sum + d * d;
      i := i + 1;
    }
    if n - 1 == 0 {
      return Failure(ZeroDivisionError);
    }
    r := Success((sum / (n - 1) as real / 2.0, n - 1));
  }

  /** What `embedding_to_variance` returns: `(pid, sq_var, pl_var, s_c, p_c, len)`. */
  datatype Variance = Variance(pid: int, sequential: real, pairwise: real, seqCount: int, pairCount: int, length: nat)

  /** `embedding_to_variance` as a value: both estimators and the length. */
  function VarianceOfEmbeddings<E>(pid: int, e: seq<E>, sim: (E, E) -> real): (r: Result<Variance>)
    ensures r.Failure? <==> |e| < 2
    ensures r.Failure? ==> r.error == ZeroDivisionError
    ensures r.Success? ==> r.value.pid == pid && r.value.length == |e|
    ensures r.Success? ==> r.value.seqCount == |e| - 1 && r.value.pairCount * 2 == |e| * (|e| - 1)
    ensures r.Success? ==> r.value.sequential >= 0.0 && r.value.pairwise >= 0.0
  {
    var n := |e|;
    if n < 2 then Failure(ZeroDivisionError)
    else
      ProductEven(n);
      PairTotalNonNegative(e, n, sim);
      AdjacentTotalNonNegative(e, n - 1, sim);
      Success(Variance(pid, AdjacentTotal(e, sim) / (n - 1) as real / 2.0,
                       PairTotal(e, sim) / (n * (n - 1)) as real, n - 1, n * (n - 1) / 2, n))
  }

  /** `embedding_to_variance`: the all-pairs estimator first, so fewer than
      two embeddings raise there. */
  method EmbeddingToVariance<E>(pid: int, embeddings: seq<E>, sim: (E, E) -> real) returns (r: Result<Variance>)
    ensures r == VarianceOfEmbeddings(pid, embeddings, sim)
  {
    var pl :- PlaylistVariance(embeddings, sim);
    var sq := SequentialVariance(embeddings, sim);
    r := Success(Variance(pid, sq.value.0, pl.0, sq.value.1, pl.1, |embeddings|));
  }

  // ---------------------------------------------------------------------
  // Properties of the estimators

  /** `n(n-1)` is even, so `n(n-1) // 2` loses nothing. */
  lemma ProductEven(n: nat)
    ensures (n * (n - 1)) % 2 == 0
    ensures n * (n - 1) / 2 * 2 == n * (n - 1)
  {
    PairsBelowClosed(n, n);
    assert n * (2 * n - n - 1) == n * (n - 1);
  }

  lemma {:induction false} RowTotalNonNegative<E>(e: seq<E>, i: nat, j: nat, sim: (E, E) -> real)
    requires i < |e| && j <= |e|
    ensures RowTotal(e, i, j, sim) >= 0.0
    decreases j
  {
    if j > i + 1 { RowTotalNonNegative(e, i, j - 1, sim); }
  }

  lemma {:induction false} PairTotalNonNegative<E>(e: seq<E>, i: nat, sim: (E, E) -> real)
    requires i <= |e|
    ensures PairTotalUpTo(e, i, sim) >= 0.0
  {
    if i > 0 {
      PairTotalNonNegative(e, i - 1, sim);
      RowTotalNonNegative(e, i - 1, |e|, sim);
    }
  }

  lemma {:induction false} AdjacentTotalNonNegative<E>(e: seq<E>, i: nat, sim: (E, E) -> real)
    requires i == 0 || i < |e|
    ensures AdjacentTotalUpTo(e, i, sim) >= 0.0
  {
    if i > 0 { AdjacentTotalNonNegative(e, i - 1, sim); }
  }

  /** The embeddings as engine positions: every feature present, no artists. */
  function AsSlots<E>(e: seq<E>): (p: seq<Slot<E>>)
    ensures |p| == |e|
    ensures Complete(p, 0.0)
  {
    seq(|e|, k requires 0 <= k < |e| => Slot(Some(e[k]), {}))
  }

  lemma {:induction false} RowTotalIsEngineRow<E>(e: seq<E>, i: nat, j: nat, sim: (E, E) -> real)
    requires i < |e| && j <= |e|
    ensures RowTotal(e, i, j, sim) == RowSum(AsSlots(e), i, j, 0.0, sim)
    decreases j
  {
    if j > i + 1 {
      RowTotalIsEngineRow(e, i, j - 1, sim);
      var p := AsSlots(e);
      assert Counted(p[i], p[j - 1], 0.0);
    }
  }

  lemma {:induction false} PairTotalIsEngineSum<E>(e: seq<E>, i: nat, sim: (E, E) -> real)
    requires i <= |e|
    ensures PairTotalUpTo(e, i, sim) == PairSumUpTo(AsSlots(e), i, 0.0, sim)
  {
    if i > 0 {
      PairTotalIsEngineSum(e, i - 1, sim);
      RowTotalIsEngineRow(e, i - 1, |e|, sim);
    }
  }

  lemma {:induction false} AdjacentTotalIsEngineSum<E>(e: seq<E>, i: nat, sim: (E, E) -> real)
    requires i <= SeqBound(|e|, 1)
    ensures AdjacentTotalUpTo(e, i, sim) == SeqSumUpTo(AsSlots(e), 1, i, 0.0, sim)
  {
    if i > 0 {
      AdjacentTotalIsEngineSum(e, i - 1, sim);
      var p := AsSlots(e);
      assert Counted(p[i - 1], p[i], 0.0);
    }
  }

  /** The service's all-pairs estimator is the engine's pairwise variance
      on a playlist with nothing missing and the gate off: the same count,
      and `sum / (n(n-1))` is the engine's `sum / count / 2`. */
  lemma PlaylistVarianceIsEngine<E>(e: seq<E>, sim: (E, E) -> real)
    requires |e| >= 2
    ensures VarianceOfEmbeddings(0, e, sim).value.pairCount == PairCount(AsSlots(e), 0.0)
    ensures Num(VarianceOfEmbeddings(0, e, sim).value.pairwise) ==
            VarianceOf(PairSum(AsSlots(e), 0.0, sim), PairCount(AsSlots(e), 0.0))
  {
    var n := |e|;
    PairCountComplete(AsSlots(e), 0.0);
    PairTotalIsEngineSum(e, n, sim);
    ProductEven(n);
    var c := n * (n - 1) / 2;
    assert c * 2 == n * (n - 1);
    assert (n * (n - 1)) as real == 2.0 * c as real;
    DivideTwice(PairTotal(e, sim), c as real);
  }

  lemma DivideTwice(s: real, c: real)
    requires c > 0.0
    ensures s / (2.0 * c) == s / c / 2.0
  {
    var q := s / c;
    assert q * c == s;
    assert (q / 2.0) * (2.0 * c) == s;
  }

  /** The service's adjacent estimator is the engine's sequential variance
      at step 1 on a playlist with nothing missing and the gate off. */
  lemma SequentialVarianceIsEngine<E>(e: seq<E>, sim: (E, E) -> real)
    requires |e| >= 2
    ensures VarianceOfEmbeddings(0, e, sim).value.seqCount == SeqCount(AsSlots(e), 1, 0.0)
    ensures Num(VarianceOfEmbeddings(0, e, sim).value.sequential) ==
            VarianceOf(SeqSum(AsSlots(e), 1, 0.0, sim), SeqCount(AsSlots(e), 1, 0.0))
  {
    SeqCountComplete(AsSlots(e), 1, 0.0);
    AdjacentTotalIsEngineSum(e, |e| - 1, sim);
  }

  // ---------------------------------------------------------------------
  // The batch loop of `load_from_data`

  /** The five values `load_from_data` stores per playlist:
      `(sq_var, pl_var, s_c, p_c, track_len)`. */
  datatype Entry = Entry(sequential: real, pairwise: real, seqCount: int, pairCount: int, length: nat)

  function EntryOf(v: Variance): Entry {
    Entry(v.sequential, v.pairwise, v.seqCount, v.pairCount, v.length)
  }

  /** A track's embedding is the matrix columns of its artists, so it is
      given by its artist-id list `track_to_ids[track_id]`. */
  type Embedding = seq<nat>

  /** What the loop works with: the shuffle flag, the generator's output for
      the seed, `track_to_ids`, and the similarity of two embeddings. */
  datatype Context = Context(shuffled: bool, stream: nat -> nat, trackToIds: map<string, Embedding>,
                             sim: (Embedding, Embedding) -> real)

  /** A submitted job: `embedding_to_variance(pid, embeddings)`. */
  datatype Job = Job(pid: int, embeddings: seq<Embedding>)

  /** `batched(playlists, 2350)` */
  const BatchSize: nat := 2350

  /** The chunks `batched` yields: consecutive, non-empty, at most 2350 long. */
  function Batches(playlists: seq<Playlist>): (r: seq<seq<Playlist>>)
    ensures forall b :: 0 <= b < |r| ==> 0 < |r[b]| <= BatchSize
    decreases |playlists|
  {
    if playlists == [] then []
    else if |playlists| <= BatchSize then [playlists]
    else [playlists[..BatchSize]] + Batches(playlists[BatchSize..])
  }

  function Flatten<T>(s: seq<seq<T>>): seq<T> {
    if s == [] then [] else s[0] + Flatten(s[1..])
  }

  /** The chunks, put back together, are the playlists in their order. */
  lemma {:induction false} BatchesFlatten(playlists: seq<Playlist>)
    ensures Flatten(Batches(playlists)) == playlists
    decreases |playlists|
  {
    if |playlists| > BatchSize {
      var r := Batches(playlists);
      assert r[1..] == Batches(playlists[BatchSize..]);
      BatchesFlatten(playlists[BatchSize..]);
    } else if playlists != [] {
      assert Batches(playlists)[1..] == [];
    }
  }

  /** Every element of a flattened sequence comes from one of its parts. */
  lemma {:induction false} FlattenMember<T>(s: seq<seq<T>>, x: T)
    requires x in Flatten(s)
    ensures exists b, i :: 0 <= b < |s| && 0 <= i < |s[b]| && s[b][i] == x
  {
    if x in s[0] {
      var i :| 0 <= i < |s[0]| && s[0][i] == x;
      assert s[0][i] == x;
    } else {
      FlattenMember(s[1..], x);
      var b, i :| 0 <= b < |s[1..]| && 0 <= i < |s[1..][b]| && s[1..][b][i] == x;
      assert s[b + 1][i] == x;
    }
  }

  /** `[t.track_id for t in playlist.tracks]` */
  function IdsOf(tracks: seq<Track>): (ids: seq<string>)
    ensures |ids| == |tracks| && forall k :: 0 <= k < |tracks| ==> ids[k] == tracks[k].trackId
  {
    seq(|tracks|, k requires 0 <= k < |tracks| => tracks[k].trackId)
  }

  /** The id order after the optional shuffle, from draw `pos` on. */
  function IdOrder(ids: seq<string>, shuffled: bool, stream: nat -> nat, pos: nat): seq<string> {
    if shuffled then Shuffled(ids, stream, pos) else ids
  }

  /** The draws the optional shuffle of `n` ids consumes. */
  function ShuffleDraws(n: nat, shuffled: bool): nat {
    if shuffled then Draws(n) else 0
  }

  /** `[matrix[:, track_to_ids[tid]] for tid in track_ids]`: a track
      missing from `track_to_ids` raises. */
  function Embeddings(ids: seq<string>, trackToIds: map<string, Embedding>): (r: Result<seq<Embedding>>)
    ensures r.Failure? <==> exists k :: 0 <= k < |ids| && ids[k] !in trackToIds
    ensures r.Failure? ==> r.error == KeyError
    ensures r.Success? ==> |r.value| == |ids| && forall k :: 0 <= k < |ids| ==> r.value[k] == trackToIds[ids[k]]
  {
    if ids == [] then Success([])
    else if ids[0] !in trackToIds then Failure(KeyError)
    else
      match Embeddings(ids[1..], trackToIds)
      case Failure(e) =>
        assert exists k :: 0 <= k < |ids| && ids[k] !in trackToIds by {
          var k :| 0 <= k < |ids[1..]| && ids[1..][k] !in trackToIds;
          assert ids[k + 1] !in trackToIds;
        }
        Failure(e)
      case Success(rest) => Success([trackToIds[ids[0]]] + rest)
  }

  /** The jobs submitted so far and the draws consumed; a raise ends the batch. */
  datatype Submitted = Submitted(jobs: Result<seq<Job>>, used: nat)

  /** One step of the submission loop: a playlist already in `m` is
      skipped without a draw; any other one is shuffled when asked and
      submitted with its embeddings. */
  function SubmitOne(p: Playlist, m: map<int, Entry>, prev: Submitted, ctx: Context): (r: Submitted)
    ensures prev.used <= r.used
    ensures prev.jobs.Failure? || p.playlistId in m ==> r == prev
    ensures r.jobs.Success? ==>
              prev.jobs.Success? && |prev.jobs.value| <= |r.jobs.value| && r.jobs.value[..|prev.jobs.value|] == prev.jobs.value
  {
    if prev.jobs.Failure? || p.playlistId in m then prev
    else
      var ids := IdOrder(IdsOf(p.tracks), ctx.shuffled, ctx.stream, prev.used);
      var used := prev.used + ShuffleDraws(|p.tracks|, ctx.shuffled);
      match Embeddings(ids, ctx.trackToIds)
      case Failure(e) => Submitted(Failure(e), used)
      case Success(emb) => Submitted(Success(prev.jobs.value + [Job(p.playlistId, emb)]), used)
  }

  /** The submission loop over `batch[..k]`, from draw `pos`. */
  function Submissions(batch: seq<Playlist>, k: nat, m: map<int, Entry>, pos: nat, ctx: Context): (r: Submitted)
    requires k <= |batch|
    ensures pos <= r.used
  {
    if k == 0 then Submitted(Success([]), pos)
    else SubmitOne(batch[k - 1], m, Submissions(batch, k - 1, m, pos, ctx), ctx)
  }

  /** The table after the result loop over `jobs[..k]`, and the exception
      that ended it, if any. */
  datatype Collected = Collected(variances: map<int, Entry>, error: Option<Error>)

  function Collect(m: map<int, Entry>, jobs: seq<Job>, k: nat, sim: (Embedding, Embedding) -> real): (r: Collected)
    requires k <= |jobs|
    ensures m.Keys <= r.variances.Keys
  {
    if k == 0 then Collected(m, None)
    else
      var prev := Collect(m, jobs, k - 1, sim);
      if prev.error.Some? then prev
      else
        match VarianceOfEmbeddings(jobs[k - 1].pid, jobs[k - 1].embeddings, sim)
        case Failure(e) => Collected(prev.variances, Some(e))
        case Success(v) => Collected(prev.variances[v.pid := EntryOf(v)], None)
  }

  /** The state of a run: the table, the tables saved so far, the draws
      consumed, and the exception that ended the run, if any. */
  datatype Run = Run(variances: map<int, Entry>, saves: seq<map<int, Entry>>, used: nat, error: Option<Error>)

  /** One batch: submission, the result loop, then a save when the table grew. */
  function BatchRun(run: Run, batch: seq<Playlist>, ctx: Context): (r: Run)
    ensures run.used <= r.used && run.variances.Keys <= r.variances.Keys
    ensures r.saves == run.saves || r.saves == run.saves + [r.variances]
  {
    var s := Submissions(batch, |batch|, run.variances, run.used, ctx);
    if s.jobs.Failure? then Run(run.variances, run.saves, s.used, Some(s.jobs.error))
    else
      var c := Collect(run.variances, s.jobs.value, |s.jobs.value|, ctx.sim);
      var save := c.error.None? && |run.variances| < |c.variances|;
      Run(c.variances, if save then run.saves + [c.variances] else run.saves, s.used, c.error)
  }

  /** The first `k` batches in order, stopping at the first exception. */
  function RunBatches(run: Run, batches: seq<seq<Playlist>>, k: nat, ctx: Context): (r: Run)
    requires k <= |batches|
    ensures run.used <= r.used && run.variances.Keys <= r.variances.Keys
    ensures run.error.Some? ==> r == run
  {
    if k == 0 then run
    else
      NextRun(RunBatches(run, batches, k - 1, ctx), batches[k - 1], ctx)
  }

  /** One more batch, unless an earlier one raised. */
  function NextRun(prev: Run, batch: seq<Playlist>, ctx: Context): Run {
    if prev.error.Some? then prev else BatchRun(prev, batch, ctx)
  }

  /** `load_from_data` from the table `start` (the cached one when the cache
      file exists) with a fresh generator. */
  function LoadRun(start: map<int, Entry>, saves: seq<map<int, Entry>>, playlists: seq<Playlist>, ctx: Context): Run {
    var batches := Batches(playlists);
    RunBatches(Run(start, saves, 0, None), batches, |batches|, ctx)
  }

  function OutcomeOf(error: Option<Error>): Outcome {
    if error.Some? then Fail(error.value) else Pass
  }

  /** The cache file name; the shuffled variant carries `_shuffled`. */
  function CacheFile(cachedPath: string, shuffled: bool): (path: string)
    ensures EndsWith(path, if shuffled then "artist_variance_service_shuffled.pk" else "artist_variance_service.pk")
  {
    PathJoin(cachedPath, if shuffled then "artist_variance_service_shuffled.pk" else "artist_variance_service.pk")
  }

  class ArtistVarianceService {
    const shuffled: bool
    const seed: int
    const cachedPath: string
    const filepath: string
    /** `variances[pid] = (sq_var, pl_var, s_c, p_c, track_len)` */
    var variances: map<int, Entry>
    /** The tables `save` has written to `filepath`, oldest first. */
    var saves: seq<map<int, Entry>>

    constructor (shuffled: bool, seed: int, cachedPath: string)
      ensures this.shuffled == shuffled && this.seed == seed && this.cachedPath == cachedPath
      ensures filepath == CacheFile(cachedPath, shuffled)
      ensures variances == map[] && saves == []
    {
      this.shuffled := shuffled;
      this.seed := seed;
      this.cachedPath := cachedPath;
      filepath := CacheFile(cachedPath, shuffled);
      variances := map[];
      saves := [];
    }

    /** `load_from_data`. `cache` is the table `load_from_cache` reads when
        the cache file exists (None when it does not), `stream` the output
        of `Random(self.seed)`, `trackToIds` the matrix service's
        `track_to_ids` and `sim` the embedding similarity. */
    method LoadFromData(playlists: seq<Playlist>, trackToIds: map<string, Embedding>, cache: Option<map<int, Entry>>,
                        stream: nat -> nat, sim: (Embedding, Embedding) -> real)
      returns (r: Outcome)
      modifies this
      ensures var run := LoadRun(if cache.Some? then cache.value else old(variances), old(saves), playlists,
                                 Context(shuffled, stream, trackToIds, sim));
              variances == run.variances && saves == run.saves && r == OutcomeOf(run.error)
    {
      var ctx := Context(shuffled, stream, trackToIds, sim);
      var random := new Random(stream);
      if cache.Some? {
        variances := cache.value;
      }
      ghost var start := Run(variances, saves, 0, None);
      var batches := Batches(playlists);
      var b := 0;
      var err: Option<Error> := None;
      while b < |batches| && err.None?
        invariant b <= |batches| && random.stream == stream
        invariant Run(variances, saves, random.used, err) == RunBatches(start, batches, b, ctx)
      {
        err := RunBatch(batches, b, random, ctx, start);
        b := b + 1;
      }
      RunErrorSticks(start, batches, b, |batches|, ctx);
      r := OutcomeOf(err);
    }

    /** One iteration of the batch loop. */
    method RunBatch(batches: seq<seq<Playlist>>, b: nat, random: Random, ctx: Context, ghost start: Run)
      returns (err: Option<Error>)
      requires b < |batches| && random.stream == ctx.stream && ctx.shuffled == shuffled
      requires Run(variances, saves, random.used, None) == RunBatches(start, batches, b, ctx)
      modifies this, random
      ensures random.stream == ctx.stream
      ensures Run(variances, saves, random.used, err) == RunBatches(start, batches, b + 1, ctx)
    {
      var batch := batches[b];
      var currentSize := |variances|;
      var s := SubmitAll(batch, random, ctx);
      if s.Failure? {
        return Some(s.error);
      }
      err := CollectAll(s.value, ctx.sim);
      if err.None? && currentSize < |variances| {
        saves := saves + [variances];
      }
    }

    /** The submission loop of one batch. */
    method SubmitAll(batch: seq<Playlist>, random: Random, ctx: Context) returns (s: Result<seq<Job>>)
      requires random.stream == ctx.stream && ctx.shuffled == shuffled
      modifies random
      ensures random.stream == ctx.stream
      ensures Submitted(s, random.used) == Submissions(batch, |batch|, variances, old(random.used), ctx)
    {
      var jobs: seq<Job> := [];
      var k := 0;
      while k < |batch|
        invariant k <= |batch| && random.stream == ctx.stream
        invariant Submissions(batch, k, variances, old(random.used), ctx) == Submitted(Success(jobs), random.used)
      {
        var playlist := batch[k];
        if playlist.playlistId !in variances {
          var ids := IdsOf(playlist.tracks);
          if shuffled {
            ids := ShuffleIds(ids, random);
          }
          var embeddings := Embeddings(ids, ctx.trackToIds);
          if embeddings.Failure? {
            SubmissionErrorSticks(batch, k + 1, |batch|, variances, old(random.used), ctx);
            return Failure(embeddings.error);
          }
          jobs := jobs + [Job(playlist.playlistId, embeddings.value)];
        }
        k := k + 1;
      }
      s := Success(jobs);
    }

    /** `random.shuffle(track_ids)` on the list itself. */
    static method ShuffleIds(ids: seq<string>, random: Random) returns (shuffled: seq<string>)
      modifies random
      ensures shuffled == Shuffled(ids, random.stream, old(random.used))
      ensures random.used == old(random.used) + Draws(|ids|)
    {
      var a := new string[|ids|](k requires 0 <= k < |ids| => ids[k]);
      assert a[..] == ids;
      random.Shuffle(a);
      shuffled := a[..];
    }

    /** The result loop of one batch: each job's variances stored under its id. */
    method CollectAll(jobs: seq<Job>, sim: (Embedding, Embedding) -> real) returns (err: Option<Error>)
      modifies this`variances
      ensures Collected(variances, err) == Collect(old(variances), jobs, |jobs|, sim)
    {
      var k := 0;
      while k < |jobs|
        invariant k <= |jobs|
        invariant Collect(old(variances), jobs, k, sim) == Collected(variances, None)
      {
        var v := EmbeddingToVariance(jobs[k].pid, jobs[k].embeddings, sim);
        if v.Failure? {
          CollectErrorSticks(old(variances), jobs, k + 1, |jobs|, sim);
          return Some(v.error);
        }
        variances := variances[v.value.pid := EntryOf(v.value)];
        k := k + 1;
      }
      err := None;
    }
  }

  // ---------------------------------------------------------------------
  // An exception ends the loop it is raised in

  lemma {:induction false} SubmissionErrorSticks(batch: seq<Playlist>, k: nat, k': nat, m: map<int, Entry>, pos: nat, ctx: Context)
    requires k <= k' <= |batch|
    requires Submissions(batch, k, m, pos, ctx).jobs.Failure?
    ensures Submissions(batch, k', m, pos, ctx) == Submissions(batch, k, m, pos, ctx)
    decreases k' - k
  {
    if k' > k {
      SubmissionErrorSticks(batch, k, k' - 1, m, pos, ctx);
    }
  }

  lemma {:induction false} CollectErrorSticks(m: map<int, Entry>, jobs: seq<Job>, k: nat, k': nat, sim: (Embedding, Embedding) -> real)
    requires k <= k' <= |jobs|
    requires Collect(m, jobs, k, sim).error.Some?
    ensures Collect(m, jobs, k', sim) == Collect(m, jobs, k, sim)
    decreases k' - k
  {
    if k' > k {
      CollectErrorSticks(m, jobs, k, k' - 1, sim);
    }
  }

  lemma {:induction false} RunErrorSticks(run: Run, batches: seq<seq<Playlist>>, k: nat, k': nat, ctx: Context)
    requires k <= k' <= |batches|
    requires k < k' ==> RunBatches(run, batches, k, ctx).error.Some?
    ensures RunBatches(run, batches, k', ctx) == RunBatches(run, batches, k, ctx)
    decreases k' - k
  {
    if k' == k {
    } else {
      RunErrorSticks(run, batches, k, k' - 1, ctx);
    }
  }

  // ---------------------------------------------------------------------
  // What one batch does

  /** The playlists of `batch` whose id is not yet stored, in order. */
  function Pending(batch: seq<Playlist>, k: nat, m: map<int, Entry>): (r: seq<Playlist>)
    requires k <= |batch|
    ensures forall j :: 0 <= j < |r| ==> r[j].playlistId !in m
  {
    if k == 0 then []
    else Pending(batch, k - 1, m) + (if batch[k - 1].playlistId in m then [] else [batch[k - 1]])
  }

  /** Some playlist of `ps` has id `pid`. */
  predicate HasPid(ps: seq<Playlist>, pid: int) {
    exists j :: 0 <= j < |ps| && ps[j].playlistId == pid
  }

  /** Every playlist whose id is not stored yet is pending. */
  lemma {:induction false} PendingCovers(batch: seq<Playlist>, k: nat, m: map<int, Entry>, i: nat)
    requires i < k <= |batch| && batch[i].playlistId !in m
    ensures HasPid(Pending(batch, k, m), batch[i].playlistId)
  {
    var before := Pending(batch, k - 1, m);
    if i < k - 1 {
      PendingCovers(batch, k - 1, m, i);
      var j :| 0 <= j < |before| && before[j].playlistId == batch[i].playlistId;
      assert Pending(batch, k, m)[j] == before[j];
    } else {
      assert Pending(batch, k, m)[|before|] == batch[i];
    }
  }

  /** Nothing is pending when every id is stored. */
  lemma {:induction false} PendingEmpty(batch: seq<Playlist>, k: nat, m: map<int, Entry>)
    requires k <= |batch|
    requires forall i :: 0 <= i < k ==> batch[i].playlistId in m
    ensures Pending(batch, k, m) == []
  {
    if k > 0 {
      PendingEmpty(batch, k - 1, m);
    }
  }

  /** The draws the shuffles of `ps` consume, one shuffle per playlist. */
  function DrawsFor(ps: seq<Playlist>, shuffled: bool): nat {
    if ps == [] then 0 else DrawsFor(ps[..|ps| - 1], shuffled) + ShuffleDraws(|ps[|ps| - 1].tracks|, shuffled)
  }

  lemma DrawsForSnoc(ps: seq<Playlist>, p: Playlist, shuffled: bool)
    ensures DrawsFor(ps + [p], shuffled) == DrawsFor(ps, shuffled) + ShuffleDraws(|p.tracks|, shuffled)
  {
    assert (ps + [p])[..|ps|] == ps;
  }

  /** Some track of `p` is not in `track_to_ids`. */
  predicate MissingTrack(p: Playlist, trackToIds: map<string, Embedding>) {
    exists k :: 0 <= k < |p.tracks| && p.tracks[k].trackId !in trackToIds
  }

  /** Shuffling the ids changes neither their number nor which are unknown. */
  lemma IdOrderKeepsIds(p: Playlist, ctx: Context, pos: nat)
    ensures |IdOrder(IdsOf(p.tracks), ctx.shuffled, ctx.stream, pos)| == |p.tracks|
    ensures Embeddings(IdOrder(IdsOf(p.tracks), ctx.shuffled, ctx.stream, pos), ctx.trackToIds).Failure? <==>
            MissingTrack(p, ctx.trackToIds)
  {
    var ids := IdsOf(p.tracks);
    var order := IdOrder(ids, ctx.shuffled, ctx.stream, pos);
    ShuffledIsPermutation(ids, ctx.stream, pos);
    assert multiset(order) == multiset(ids);
    if MissingTrack(p, ctx.trackToIds) {
      var k :| 0 <= k < |p.tracks| && p.tracks[k].trackId !in ctx.trackToIds;
      assert ids[k] in multiset(order);
      var k' :| 0 <= k' < |order| && order[k'] == ids[k];
    }
    if Embeddings(order, ctx.trackToIds).Failure? {
      var k :| 0 <= k < |order| && order[k] !in ctx.trackToIds;
      assert order[k] in multiset(ids);
      var k' :| 0 <= k' < |ids| && ids[k'] == order[k];
      assert p.tracks[k'].trackId !in ctx.trackToIds;
    }
  }

  /** The jobs are those of the playlists, in order: the same ids and one
      embedding per track. */
  predicate Follows(jobs: seq<Job>, pending: seq<Playlist>) {
    |jobs| == |pending| &&
    forall j :: 0 <= j < |jobs| ==> jobs[j].pid == pending[j].playlistId && |jobs[j].embeddings| == |pending[j].tracks|
  }

  lemma FollowsSnoc(jobs: seq<Job>, pending: seq<Playlist>, job: Job, p: Playlist)
    requires Follows(jobs, pending) && job.pid == p.playlistId && |job.embeddings| == |p.tracks|
    ensures Follows(jobs + [job], pending + [p])
  {
  }

  /** Submitting a pending playlist raises exactly when one of its tracks
      is unknown; otherwise it appends one job with one embedding per
      track, and the shuffle's draws. */
  lemma SubmitPending(p: Playlist, m: map<int, Entry>, prev: Submitted, ctx: Context)
    requires prev.jobs.Success? && p.playlistId !in m
    ensures var s := SubmitOne(p, m, prev, ctx);
            (s.jobs.Failure? <==> MissingTrack(p, ctx.trackToIds)) &&
            (s.jobs.Failure? ==> s.jobs.error == KeyError) &&
            (s.jobs.Success? ==>
               s.used == prev.used + ShuffleDraws(|p.tracks|, ctx.shuffled) &&
               |s.jobs.value| == |prev.jobs.value| + 1 &&
               s.jobs.value == prev.jobs.value + [s.jobs.value[|prev.jobs.value|]] &&
               s.jobs.value[|prev.jobs.value|].pid == p.playlistId &&
               |s.jobs.value[|prev.jobs.value|].embeddings| == |p.tracks|)
  {
    IdOrderKeepsIds(p, ctx, prev.used);
  }

  /** Submission draws only for the shuffles of the pending playlists. */
  lemma {:induction false} SubmissionsDraw(batch: seq<Playlist>, k: nat, m: map<int, Entry>, pos: nat, ctx: Context)
    requires k <= |batch|
    ensures var s := Submissions(batch, k, m, pos, ctx);
            s.jobs.Success? ==> s.used == pos + DrawsFor(Pending(batch, k, m), ctx.shuffled)
  {
    if k > 0 {
      SubmissionsDraw(batch, k - 1, m, pos, ctx);
      var prev := Submissions(batch, k - 1, m, pos, ctx);
      var p := batch[k - 1];
      var before := Pending(batch, k - 1, m);
      if p.playlistId in m {
        assert Pending(batch, k, m) == before;
      } else if prev.jobs.Success? {
        SubmitPending(p, m, prev, ctx);
        DrawsForSnoc(before, p, ctx.shuffled);
      }
    }
  }

  /** Submission makes one job per pending playlist, in order, with one
      embedding per track. */
  lemma {:induction false} SubmissionsFollow(batch: seq<Playlist>, k: nat, m: map<int, Entry>, pos: nat, ctx: Context)
    requires k <= |batch|
    ensures var s := Submissions(batch, k, m, pos, ctx);
            s.jobs.Success? ==> Follows(s.jobs.value, Pending(batch, k, m))
  {
    if k > 0 {
      SubmissionsFollow(batch, k - 1, m, pos, ctx);
      var prev := Submissions(batch, k - 1, m, pos, ctx);
      var p := batch[k - 1];
      var before := Pending(batch, k - 1, m);
      if p.playlistId in m {
        assert Pending(batch, k, m) == before;
      } else if prev.jobs.Success? {
        SubmitPending(p, m, prev, ctx);
        var cur := Submissions(batch, k, m, pos, ctx);
        if cur.jobs.Success? {
          FollowsSnoc(prev.jobs.value, before, cur.jobs.value[|prev.jobs.value|], p);
        }
      }
    }
  }

  /** Submission follows the pending playlists: one job each, in order, with
      one embedding per track, and draws only for their shuffles. */
  lemma SubmissionsFollowPending(batch: seq<Playlist>, k: nat, m: map<int, Entry>, pos: nat, ctx: Context)
    requires k <= |batch|
    ensures var s := Submissions(batch, k, m, pos, ctx);
            var pending := Pending(batch, k, m);
            s.jobs.Success? ==> s.used == pos + DrawsFor(pending, ctx.shuffled) && Follows(s.jobs.value, pending)
  {
    SubmissionsDraw(batch, k, m, pos, ctx);
    SubmissionsFollow(batch, k, m, pos, ctx);
  }

  /** Some playlist of `ps` has a track `track_to_ids` does not know. */
  predicate AnyMissing(ps: seq<Playlist>, trackToIds: map<string, Embedding>) {
    exists j :: 0 <= j < |ps| && MissingTrack(ps[j], trackToIds)
  }

  lemma AnyMissingSnoc(ps: seq<Playlist>, p: Playlist, trackToIds: map<string, Embedding>)
    ensures AnyMissing(ps + [p], trackToIds) <==> AnyMissing(ps, trackToIds) || MissingTrack(p, trackToIds)
  {
    var qs := ps + [p];
    if AnyMissing(ps, trackToIds) {
      var j :| 0 <= j < |ps| && MissingTrack(ps[j], trackToIds);
      assert qs[j] == ps[j];
    }
    if AnyMissing(qs, trackToIds) {
      var j :| 0 <= j < |qs| && MissingTrack(qs[j], trackToIds);
      if j < |ps| { assert qs[j] == ps[j]; }
    }
    assert qs[|ps|] == p;
  }

  /** Submission raises exactly when a pending playlist has a track
      `track_to_ids` does not know, and then with KeyError. */
  lemma {:induction false} SubmissionsRaise(batch: seq<Playlist>, k: nat, m: map<int, Entry>, pos: nat, ctx: Context)
    requires k <= |batch|
    ensures var s := Submissions(batch, k, m, pos, ctx);
            (s.jobs.Failure? <==> AnyMissing(Pending(batch, k, m), ctx.trackToIds)) &&
            (s.jobs.Failure? ==> s.jobs.error == KeyError)
  {
    if k > 0 {
      SubmissionsRaise(batch, k - 1, m, pos, ctx);
      var prev := Submissions(batch, k - 1, m, pos, ctx);
      var p := batch[k - 1];
      var before := Pending(batch, k - 1, m);
      if p.playlistId in m {
        assert Pending(batch, k, m) == before;
      } else {
        assert Pending(batch, k, m) == before + [p];
        AnyMissingSnoc(before, p, ctx.trackToIds);
        if prev.jobs.Success? {
          SubmitPending(p, m, prev, ctx);
        }
      }
    }
  }

  /** Some job has id `pid`. */
  predicate HasJob(jobs: seq<Job>, pid: int) {
    exists j :: 0 <= j < |jobs| && jobs[j].pid == pid
  }

  /** The result loop raises exactly when a job has fewer than two
      embeddings, and then with ZeroDivisionError. */
  lemma {:induction false} CollectFails(m: map<int, Entry>, jobs: seq<Job>, k: nat, sim: (Embedding, Embedding) -> real)
    requires k <= |jobs|
    ensures Collect(m, jobs, k, sim).error.Some? <==> exists j :: 0 <= j < k && |jobs[j].embeddings| < 2
    ensures Collect(m, jobs, k, sim).error.Some? ==> Collect(m, jobs, k, sim).error.value == ZeroDivisionError
  {
    if k > 0 {
      CollectFails(m, jobs, k - 1, sim);
    }
  }

  /** The result loop only adds keys, each the id of a job; without a
      raise every job's id is stored. */
  lemma {:induction false} CollectKeys(m: map<int, Entry>, jobs: seq<Job>, k: nat, sim: (Embedding, Embedding) -> real)
    requires k <= |jobs|
    ensures m.Keys <= Collect(m, jobs, k, sim).variances.Keys
    ensures forall pid :: pid in Collect(m, jobs, k, sim).variances ==> pid in m || HasJob(jobs[..k], pid)
    ensures Collect(m, jobs, k, sim).error.None? ==> forall j :: 0 <= j < k ==> jobs[j].pid in Collect(m, jobs, k, sim).variances
  {
    if k > 0 {
      CollectKeys(m, jobs, k - 1, sim);
      forall pid | HasJob(jobs[..k - 1], pid) ensures HasJob(jobs[..k], pid) {
        var j :| 0 <= j < k - 1 && jobs[..k - 1][j].pid == pid;
        assert jobs[..k][j].pid == pid;
      }
      assert jobs[..k][k - 1] == jobs[k - 1];
    }
  }

  /** An id no job carries keeps its entry. */
  lemma {:induction false} CollectKeepsOthers(m: map<int, Entry>, jobs: seq<Job>, k: nat, sim: (Embedding, Embedding) -> real, pid: int)
    requires k <= |jobs| && pid in m
    requires forall j :: 0 <= j < k ==> jobs[j].pid != pid
    ensures pid in Collect(m, jobs, k, sim).variances && Collect(m, jobs, k, sim).variances[pid] == m[pid]
  {
    if k > 0 {
      CollectKeepsOthers(m, jobs, k - 1, sim, pid);
    }
  }

  /** A set missing an element of a superset is smaller than it. */
  lemma SubsetSmaller(a: set<int>, b: set<int>, x: int)
    requires a <= b && x in b && x !in a
    ensures |a| < |b|
  {
    SubsetCardinality(a, b - {x});
    assert |b - {x}| == |b| - 1;
  }

  /** A batch never overwrites an entry that was there before it. */
  lemma BatchKeeps(run: Run, batch: seq<Playlist>, ctx: Context, pid: int)
    requires pid in run.variances
    ensures pid in BatchRun(run, batch, ctx).variances
    ensures BatchRun(run, batch, ctx).variances[pid] == run.variances[pid]
  {
    var s := Submissions(batch, |batch|, run.variances, run.used, ctx);
    SubmissionsFollowPending(batch, |batch|, run.variances, run.used, ctx);
    if s.jobs.Success? {
      CollectKeepsOthers(run.variances, s.jobs.value, |s.jobs.value|, ctx.sim, pid);
    }
  }

  /** A batch that raises nothing leaves every one of its ids stored. */
  lemma BatchCovers(run: Run, batch: seq<Playlist>, ctx: Context, i: nat)
    requires i < |batch| && BatchRun(run, batch, ctx).error.None?
    ensures batch[i].playlistId in BatchRun(run, batch, ctx).variances
  {
    var pid := batch[i].playlistId;
    if pid in run.variances {
      BatchKeeps(run, batch, ctx, pid);
    } else {
      var s := Submissions(batch, |batch|, run.variances, run.used, ctx);
      SubmissionsFollowPending(batch, |batch|, run.variances, run.used, ctx);
        PendingCovers(batch, |batch|, run.variances, i);
      var pending := Pending(batch, |batch|, run.variances);
      var j :| 0 <= j < |pending| && pending[j].playlistId == pid;
      CollectKeys(run.variances, s.jobs.value, |s.jobs.value|, ctx.sim);
    }
  }

  /** A batch raises exactly when one of its pending playlists has a track
      `track_to_ids` does not know (KeyError, at submission) or has fewer
      than two tracks (ZeroDivisionError, in the result loop); without a
      raise its draws are those of the pending playlists' shuffles. */
  lemma BatchOutcome(run: Run, batch: seq<Playlist>, ctx: Context)
    ensures var r := BatchRun(run, batch, ctx);
            var pending := Pending(batch, |batch|, run.variances);
            (r.error.Some? <==> exists j :: 0 <= j < |pending| &&
                                  (MissingTrack(pending[j], ctx.trackToIds) || |pending[j].tracks| < 2)) &&
            (AnyMissing(pending, ctx.trackToIds) ==> r.error == Some(KeyError)) &&
            (r.error.Some? ==> r.error == Some(KeyError) || r.error == Some(ZeroDivisionError)) &&
            (r.error.None? ==> r.used == run.used + DrawsFor(pending, ctx.shuffled))
  {
    var s := Submissions(batch, |batch|, run.variances, run.used, ctx);
    SubmissionsFollowPending(batch, |batch|, run.variances, run.used, ctx);
    SubmissionsRaise(batch, |batch|, run.variances, run.used, ctx);
    if s.jobs.Success? {
      CollectFails(run.variances, s.jobs.value, |s.jobs.value|, ctx.sim);
    }
  }

  /** The table is saved after a batch exactly when the batch raised
      nothing and had a pending playlist, that is, when it added entries. */
  lemma BatchSaves(run: Run, batch: seq<Playlist>, ctx: Context)
    ensures var r := BatchRun(run, batch, ctx);
            r.saves == run.saves + (if r.error.None? && Pending(batch, |batch|, run.variances) != [] then [r.variances] else [])
  {
    var m := run.variances;
    var s := Submissions(batch, |batch|, m, run.used, ctx);
    SubmissionsFollowPending(batch, |batch|, m, run.used, ctx);
    if s.jobs.Success? {
      var pending := Pending(batch, |batch|, m);
      assert forall j :: 0 <= j < |s.jobs.value| ==> s.jobs.value[j].pid == pending[j].playlistId;
      CollectGrows(m, s.jobs.value, ctx.sim);
    }
  }

  /** Without a raise, the result loop over jobs for unstored ids grows the
      table exactly when there is a job. */
  lemma CollectGrows(m: map<int, Entry>, jobs: seq<Job>, sim: (Embedding, Embedding) -> real)
    requires forall j :: 0 <= j < |jobs| ==> jobs[j].pid !in m
    ensures var c := Collect(m, jobs, |jobs|, sim);
            c.error.None? ==> (|m| < |c.variances| <==> jobs != [])
  {
    var c := Collect(m, jobs, |jobs|, sim);
    CollectKeys(m, jobs, |jobs|, sim);
    if c.error.None? && jobs != [] {
      SubsetSmaller(m.Keys, c.variances.Keys, jobs[0].pid);
    }
    if jobs == [] {
      assert c.variances == m;
    }
  }

  /** A batch whose ids are all stored draws nothing and changes nothing. */
  lemma BatchFullyCachedIsNoOp(run: Run, batch: seq<Playlist>, ctx: Context)
    requires run.error.None?
    requires forall i :: 0 <= i < |batch| ==> batch[i].playlistId in run.variances
    ensures BatchRun(run, batch, ctx) == run
  {
    PendingEmpty(batch, |batch|, run.variances);
    SubmissionsFollowPending(batch, |batch|, run.variances, run.used, ctx);
    SubmissionsRaise(batch, |batch|, run.variances, run.used, ctx);
  }

  // ---------------------------------------------------------------------
  // What the whole run does

  lemma {:induction false} RunKeeps(run: Run, batches: seq<seq<Playlist>>, k: nat, ctx: Context, pid: int)
    requires k <= |batches| && pid in run.variances
    ensures pid in RunBatches(run, batches, k, ctx).variances
    ensures RunBatches(run, batches, k, ctx).variances[pid] == run.variances[pid]
  {
    if k > 0 {
      var prev := RunBatches(run, batches, k - 1, ctx);
      RunKeeps(run, batches, k - 1, ctx, pid);
      if prev.error.None? {
        BatchKeeps(prev, batches[k - 1], ctx, pid);
      }
    }
  }

  lemma {:induction false} RunCovers(run: Run, batches: seq<seq<Playlist>>, k: nat, ctx: Context, b: nat, i: nat)
    requires b < k <= |batches| && i < |batches[b]|
    requires RunBatches(run, batches, k, ctx).error.None?
    ensures batches[b][i].playlistId in RunBatches(run, batches, k, ctx).variances
  {
    var prev := RunBatches(run, batches, k - 1, ctx);
    if b < k - 1 {
      RunCovers(run, batches, k - 1, ctx, b, i);
      BatchKeeps(prev, batches[k - 1], ctx, batches[b][i].playlistId);
    } else {
      BatchCovers(prev, batches[k - 1], ctx, i);
    }
  }

  lemma {:induction false} RunFullyCachedIsNoOp(run: Run, batches: seq<seq<Playlist>>, k: nat, ctx: Context)
    requires k <= |batches| && run.error.None?
    requires forall b, i :: 0 <= b < k && 0 <= i < |batches[b]| ==> batches[b][i].playlistId in run.variances
    ensures RunBatches(run, batches, k, ctx) == run
  {
    if k > 0 {
      RunFullyCachedIsNoOp(run, batches, k - 1, ctx);
      BatchFullyCachedIsNoOp(run, batches[k - 1], ctx);
    }
  }

  /** An id already in the starting table (from the cache or an earlier
      call) is never recomputed or overwritten, whatever happens. */
  lemma LoadNeverOverwrites(start: map<int, Entry>, saves: seq<map<int, Entry>>, playlists: seq<Playlist>,
                            ctx: Context, pid: int)
    requires pid in start
    ensures pid in LoadRun(start, saves, playlists, ctx).variances
    ensures LoadRun(start, saves, playlists, ctx).variances[pid] == start[pid]
  {
    var batches := Batches(playlists);
    RunKeeps(Run(start, saves, 0, None), batches, |batches|, ctx, pid);
  }

  /** A run that raises nothing leaves every input playlist's id stored. */
  lemma LoadCoversAll(start: map<int, Entry>, saves: seq<map<int, Entry>>, playlists: seq<Playlist>,
                      ctx: Context, j: nat)
    requires j < |playlists| && LoadRun(start, saves, playlists, ctx).error.None?
    ensures playlists[j].playlistId in LoadRun(start, saves, playlists, ctx).variances
  {
    var batches := Batches(playlists);
    BatchesFlatten(playlists);
    FlattenMember(batches, playlists[j]);
    var b, i :| 0 <= b < |batches| && 0 <= i < |batches[b]| && batches[b][i] == playlists[j];
    RunCovers(Run(start, saves, 0, None), batches, |batches|, ctx, b, i);
  }

  /** Resuming with every id cached computes nothing, draws nothing and
      saves nothing. */
  lemma LoadFullyCachedIsNoOp(start: map<int, Entry>, saves: seq<map<int, Entry>>, playlists: seq<Playlist>, ctx: Context)
    requires forall j :: 0 <= j < |playlists| ==> playlists[j].playlistId in start
    ensures LoadRun(start, saves, playlists, ctx) == Run(start, saves, 0, None)
  {
    var batches: seq<seq<Playlist>> := Batches(playlists);
    BatchesFlatten(playlists);
    forall b: nat, i: nat | b < |batches| && i < |batches[b]|
      ensures batches[b][i].playlistId in start
    {
      FlattenPart(batches, b, i);
    }
    RunFullyCachedIsNoOp(Run(start, saves, 0, None), batches, |batches|, ctx);
  }

  /** Every element of a part is an element of the flattened sequence. */
  lemma {:induction false} FlattenPart<T>(s: seq<seq<T>>, b: nat, i: nat)
    requires b < |s| && i < |s[b]|
    ensures s[b][i] in Flatten(s)
  {
    if b > 0 {
      FlattenPart(s[1..], b - 1, i);
    }
  }

  /** Running again on the table a successful run left changes nothing. */
  lemma LoadTwiceIsNoOp(start: map<int, Entry>, saves: seq<map<int, Entry>>, playlists: seq<Playlist>, ctx: Context)
    requires LoadRun(start, saves, playlists, ctx).error.None?
    ensures var first := LoadRun(start, saves, playlists, ctx);
            LoadRun(first.variances, first.saves, playlists, ctx) == Run(first.variances, first.saves, 0, None)
  {
    var first := LoadRun(start, saves, playlists, ctx);
    forall j | 0 <= j < |playlists| ensures playlists[j].playlistId in first.variances {
      LoadCoversAll(start, saves, playlists, ctx, j);
    }
    LoadFullyCachedIsNoOp(first.variances, first.saves, playlists, ctx);
  }
}
