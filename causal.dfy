/** services/causal_inference_service.py: for each independent variable and
    each coherence feature, the contrasts between bucket 0 and the higher
    buckets, each estimated from two seeded samples of the coherence frame.
    Sampling (`DataFrame.sample`), the fit (`CausalModel`) and the normal
    distribution function are parameters; the walk over the cells, the
    seeds it consumes and the checks it makes are modelled as written. */
module CausalInference {
  import opened Common
  import Coherence

  // ---------------------------------------------------------------------
  // Significance

  /** One entry of `cm.estimates`: the average treatment effect and its
      standard error. */
  datatype Estimate = Estimate(ate: real, ateSe: real)

  /** `0.05 / (11 * 2 * 3 + 11)` */
  const DefaultPValue: real := 0.05 / 77.0

  /** `is_significant`: the two-sided p-value `2 (1 - cdf(|ate / ate_se|))`
      lies below `pValue`. A zero standard error makes numpy's z infinite
      (p-value 0) or, for a zero effect too, NaN, which lies below nothing. */
  function IsSignificant(e: Estimate, pValue: real, cdf: real -> real): (r: bool)
    ensures e.ateSe != 0.0 ==> (r <==> cdf(Abs(e.ate / e.ateSe)) > 1.0 - pValue / 2.0)
    ensures e.ateSe == 0.0 ==> (r <==> e.ate != 0.0 && pValue > 0.0)
  {
    if e.ateSe == 0.0 then e.ate != 0.0 && pValue > 0.0
    else pValue > 2.0 * (1.0 - cdf(Abs(e.ate / e.ateSe)))
  }

  ghost predicate Monotone(cdf: real -> real) {
    forall x, y :: x <= y ==> cdf(x) <= cdf(y)
  }

  /** Under a non-decreasing distribution function, a larger |z| and a
      larger threshold keep an estimate significant. */
  lemma SignificanceMonotone(e: Estimate, f: Estimate, p: real, q: real, cdf: real -> real)
    requires Monotone(cdf) && e.ateSe != 0.0 && f.ateSe != 0.0
    requires Abs(e.ate / e.ateSe) <= Abs(f.ate / f.ateSe) && p <= q
    ensures IsSignificant(e, p, cdf) ==> IsSignificant(f, q, cdf)
  {
    assert cdf(Abs(e.ate / e.ateSe)) <= cdf(Abs(f.ate / f.ateSe));
  }

  // ---------------------------------------------------------------------
  // The variables

  const IndependentVariables: seq<string> := ["c_length", "c_popularity", "c_num_edits", "c_collaborative"]
  const ProsperityFeatures: seq<string> := ["log_length", "log_num_edits", "popularity", "c_collaborative"]
  const Collaborative: string := "c_collaborative"

  /** `(r0, r1, r2, r3)`: group a is the rows whose categorical value is
      `r0`, marked `r1`; group b the rows with `r2`, marked `r3`. */
  datatype Replacement = Replacement(r0: int, r1: bool, r2: int, r3: bool)

  /** Bucket 0 against bucket 1, and bucket 0 against bucket 2. */
  const Contrasts: seq<Replacement> := [Replacement(0, false, 1, true), Replacement(0, false, 2, true)]

  /** `s[2:]` */
  function Drop2(s: string): string {
    if |s| >= 2 then s[2..] else []
  }

  /** The features of `fs` that do not contain `key`, in order. */
  function Without(fs: seq<string>, key: string): (r: seq<string>)
    ensures |r| <= |fs|
  {
    if fs == [] then [] else (if Contains(fs[0], key) then [] else [fs[0]]) + Without(fs[1..], key)
  }

  /** A string containing `p` contains each of its characters. */
  lemma CharsOfContained(s: string, p: string, j: nat)
    requires j < |p|
    ensures Contains(s, p) ==> p[j] in s
  {
    if Contains(s, p) {
      var i :| 0 <= i <= |s| - |p| && OccursAt(s, p, i);
      assert s[i..i + |p|] == p;
      assert s[i..i + |p|][j] == s[i + j];
    }
  }

  lemma {:induction false} WithoutNone(fs: seq<string>, key: string)
    requires forall k :: 0 <= k < |fs| ==> !Contains(fs[k], key)
    ensures Without(fs, key) == fs
  {
    if fs != [] {
      WithoutNone(fs[1..], key);
    }
  }

  /** Only the feature at `d` contains the key: `Without` removes just it. */
  lemma {:induction false} WithoutOne(fs: seq<string>, key: string, d: nat)
    requires d < |fs| && Contains(fs[d], key)
    requires forall k :: 0 <= k < |fs| && k != d ==> !Contains(fs[k], key)
    ensures Without(fs, key) == fs[..d] + fs[d + 1..]
  {
    if d == 0 {
      WithoutNone(fs[1..], key);
    } else {
      WithoutOne(fs[1..], key, d - 1);
      assert fs[..d] == [fs[0]] + fs[1..][..d - 1];
      assert fs[d + 1..] == fs[1..][d..];
    }
  }

  /** The key occurs in the prosperity feature at `d`, and its character
      at `j` occurs in no other: `Without` removes just that feature. */
  lemma DropsOnly(key: string, d: nat, j: nat)
    requires d < |ProsperityFeatures| && j < |key| && Contains(ProsperityFeatures[d], key)
    requires forall k :: 0 <= k < |ProsperityFeatures| && k != d ==> key[j] !in ProsperityFeatures[k]
    ensures Without(ProsperityFeatures, key) == ProsperityFeatures[..d] + ProsperityFeatures[d + 1..]
  {
    forall k | 0 <= k < |ProsperityFeatures| && k != d
      ensures !Contains(ProsperityFeatures[k], key)
    {
      CharsOfContained(ProsperityFeatures[k], key, j);
    }
    WithoutOne(ProsperityFeatures, key, d);
  }

  lemma LengthDropsOne()
    ensures Without(ProsperityFeatures, "length") == ProsperityFeatures[1..]
  {
    assert OccursAt(ProsperityFeatures[0], "length", 4);
    DropsOnly("length", 0, 5);
  }

  lemma NumEditsDropsOne()
    ensures Without(ProsperityFeatures, "num_edits") == ProsperityFeatures[..1] + ProsperityFeatures[2..]
  {
    assert ProsperityFeatures[1][4..] == "num_edits";
    assert OccursAt(ProsperityFeatures[1], "num_edits", 4);
    DropsOnly("num_edits", 1, 5);
  }

  lemma PopularityDropsOne()
    ensures Without(ProsperityFeatures, "popularity") == ProsperityFeatures[..2] + ProsperityFeatures[3..]
  {
    assert OccursAt(ProsperityFeatures[2], "popularity", 0);
    DropsOnly("popularity", 2, 0);
  }

  lemma CollaborativeDropsOne()
    ensures Without(ProsperityFeatures, "collaborative") == ProsperityFeatures[..3]
  {
    assert OccursAt(ProsperityFeatures[3], "collaborative", 2);
    DropsOnly("collaborative", 3, 0);
  }

  /** Each independent variable names exactly one prosperity feature, which
      is left out of its covariates: the check that one was removed never
      fails for them. */
  lemma CovariatesDropOne(categorical: string)
    requires categorical in IndependentVariables
    ensures var d := if categorical == "c_length" then 0 else if categorical == "c_num_edits" then 1
                     else if categorical == "c_popularity" then 2 else 3;
            Without(ProsperityFeatures, Drop2(categorical)) == ProsperityFeatures[..d] + ProsperityFeatures[d + 1..]
  {
    if categorical == "c_length" {
      assert Drop2(categorical) == "length";
      LengthDropsOne();
    } else if categorical == "c_num_edits" {
      assert Drop2(categorical) == "num_edits";
      NumEditsDropsOne();
    } else if categorical == "c_popularity" {
      assert Drop2(categorical) == "popularity";
      PopularityDropsOne();
    } else {
      assert Drop2(categorical) == "collaborative";
      CollaborativeDropsOne();
      assert ProsperityFeatures[4..] == [];
    }
  }

  // ---------------------------------------------------------------------
  // The frame and its two groups

  /** `data[columns]`: the position of each named column, or `KeyError`. */
  function ColumnsOf(columns: seq<string>, names: seq<string>): (r: Result<seq<nat>>)
    ensures r.Success? <==> forall k :: 0 <= k < |names| ==> names[k] in columns
    ensures r.Success? ==> |r.value| == |names| &&
                           forall k :: 0 <= k < |names| ==> r.value[k] < |columns| && columns[r.value[k]] == names[k]
  {
    if names == [] then Success([])
    else
      match IndexOf(columns, names[0])
      case None => Failure(KeyError)
      case Some(i) =>
        var rest :- ColumnsOf(columns, names[1..]);
        assert forall k :: 1 <= k < |names| ==> names[k] == names[1..][k - 1];
        Success([i] + rest)
  }

  /** The row keeps a number in each column at `idxs` (`dropna`) and its
      categorical cell, the first of them, equals `value`. */
  predicate InGroup(row: seq<Coherence.Cell>, idxs: seq<nat>, value: int) {
    |idxs| > 0 &&
    (forall k :: 0 <= k < |idxs| ==> idxs[k] < |row| && row[idxs[k]].Value? && row[idxs[k]].v.Num?) &&
    Coherence.FloatEq(row[idxs[0]].v, Num(value as real))
  }

  /** The positions, among the first `n` rows, of the rows in the group. */
  function Group(rows: seq<seq<Coherence.Cell>>, idxs: seq<nat>, value: int, n: nat): (g: seq<nat>)
    requires n <= |rows|
    ensures forall k :: 0 <= k < |g| ==> g[k] < n && InGroup(rows[g[k]], idxs, value)
    ensures forall j :: 0 <= j < n && InGroup(rows[j], idxs, value) ==> j in g
  {
    if n == 0 then []
    else Group(rows, idxs, value, n - 1) + (if InGroup(rows[n - 1], idxs, value) then [n - 1] else [])
  }

  // ---------------------------------------------------------------------
  // One contrast

  /** What the fit is given: the variables, and the rows sampled from each
      group with the mark each group's treatment column gets. */
  datatype Draw = Draw(categorical: string, dependent: string, covariates: seq<string>,
                       groupA: seq<nat>, markA: bool, groupB: seq<nat>, markB: bool)

  /** `results`: the two sample sizes, the estimates keyed by estimator, and
      the summary statistics. */
  datatype Results = Results(size: (int, int), estimates: map<string, Estimate>, summaryStats: seq<real>)

  /** What a contrast reads besides its own arguments: the coherence frame,
      the seed words, the service's settings and the foreign calls (`sample`
      picks `n` of the given rows for a seed; `fit` is the `CausalModel`
      estimate with the service's estimator). */
  datatype Env = Env(frame: Option<Coherence.Frame>, seeds: seq<int>, size: int, estimator: string,
                     independentVariables: seq<string>, prosperityFeatures: seq<string>,
                     sample: (seq<nat>, int, int) -> seq<nat>, fit: Draw -> (Estimate, seq<real>))

  /** The covariates of a contrast: the prosperity features not naming the
      categorical variable. */
  function CovariatesIn(env: Env, categorical: string): seq<string> {
    Without(env.prosperityFeatures, Drop2(categorical))
  }

  /** The checks of `causal_inference` and its two groups: the covariates,
      then the rows of group a and of group b among the complete rows. */
  function Candidates(env: Env, repl: Replacement, categorical: string, dependent: string)
    : (r: Result<(seq<string>, seq<nat>, seq<nat>)>)
    ensures categorical !in env.independentVariables || repl.r1 == repl.r3 || repl.r0 == repl.r2 ==>
              r == Failure(AssertionError)
    ensures r.Success? ==>
              env.frame.Some? && r.value.0 == CovariatesIn(env, categorical) &&
              |r.value.0| == |env.prosperityFeatures| - 1 &&
              env.size <= |r.value.1| && env.size <= |r.value.2| &&
              var idxs := ColumnsOf(env.frame.value.columns, [categorical, dependent] + r.value.0);
              idxs.Success? &&
              r.value.1 == Group(env.frame.value.rows, idxs.value, repl.r0, |env.frame.value.rows|) &&
              r.value.2 == Group(env.frame.value.rows, idxs.value, repl.r2, |env.frame.value.rows|)
  {
    if categorical !in env.independentVariables then Failure(AssertionError)
    else
      var covariates := CovariatesIn(env, categorical);
      if |covariates| != |env.prosperityFeatures| - 1 then Failure(AssertionError)
      else if repl.r1 == repl.r3 || repl.r0 == repl.r2 then Failure(AssertionError)
      else if env.frame.None? then Failure(TypeError)
      else
        var idxs := ColumnsOf(env.frame.value.columns, [categorical, dependent] + covariates);
        if idxs.Failure? then Failure(KeyError)
        else
          var rows := env.frame.value.rows;
          var a := Group(rows, idxs.value, repl.r0, |rows|);
          if |a| < env.size then Failure(AssertionError)
          else
            var b := Group(rows, idxs.value, repl.r2, |rows|);
            if |b| < env.size then Failure(AssertionError)
            else Success((covariates, a, b))
  }

  /** The sample sizes: `size` for the group whose mark `r1` is set, 90,000
      for the other. */
  function SampleSizes(r1: bool, size: int): (int, int) {
    if r1 then (size, 90000) else (90000, size)
  }

  /** `causal_inference` with the seed iterator at `pos`: the results, or
      the exception, and where the iterator stands afterwards. */
  function Infer(env: Env, pos: nat, repl: Replacement, categorical: string, dependent: string): (r: (Result<Results>, nat))
    ensures pos <= r.1 <= pos + 2
    ensures r.0.Success? ==> r.1 == pos + 2
  {
    var candidates := Candidates(env, repl, categorical, dependent);
    if candidates.Failure? then (Failure(candidates.error), pos)
    else
      var (covariates, a, b) := candidates.value;
      var (nA, nB) := SampleSizes(repl.r1, env.size);
      if pos >= |env.seeds| then (Failure(StopIteration), pos)
      else if nA < 0 || nA > |a| then (Failure(ValueError), pos + 1)
      else if pos + 1 >= |env.seeds| then (Failure(StopIteration), pos + 1)
      else if nB < 0 || nB > |b| then (Failure(ValueError), pos + 2)
      else
        var draw := Draw(categorical, dependent, covariates, env.sample(a, nA, env.seeds[pos]), repl.r1,
                         env.sample(b, nB, env.seeds[pos + 1]), repl.r3);
        var (estimate, stats) := env.fit(draw);
        (Success(Results((nA, nB), map[env.estimator := estimate], stats)), pos + 2)
  }

  /** A contrast that passes its checks succeeds exactly when both groups
      are large enough for their samples and two seeds are left; it then
      takes exactly those two seeds, the first for group a and the second
      for group b, and records the two sample sizes and the one estimate
      under the service's estimator. A failing contrast takes at most two. */
  lemma InferCases(env: Env, pos: nat, repl: Replacement, categorical: string, dependent: string)
    ensures var (res, pos') := Infer(env, pos, repl, categorical, dependent);
            var c := Candidates(env, repl, categorical, dependent);
            var (nA, nB) := SampleSizes(repl.r1, env.size);
            (res.Success? <==> c.Success? && 0 <= env.size && pos + 2 <= |env.seeds| && nA <= |c.value.1| && nB <= |c.value.2|) &&
            (res.Success? ==>
               pos' == pos + 2 && res.value.size == (nA, nB) &&
               res.value.estimates == map[env.estimator := env.fit(Draw(categorical, dependent, c.value.0,
                   env.sample(c.value.1, nA, env.seeds[pos]), repl.r1, env.sample(c.value.2, nB, env.seeds[pos + 1]), repl.r3)).0]) &&
            (res.Failure? ==> pos' <= pos + 2 && (c.Failure? ==> res.error == c.error))
  {
  }

  lemma InferTakesTwo(env: Env)
    ensures TakesTwo((pos, repl, c, d) => Infer(env, pos, repl, c, d))
  {
  }

  /** `iter(self.seed_sequence)`: the seed words and how many `next` has
      taken. */
  class SeedIterator {
    const seeds: seq<int>
    var pos: nat

    constructor (seeds: seq<int>)
      ensures this.seeds == seeds && pos == 0
    {
      this.seeds := seeds;
      pos := 0;
    }

    /** `next(it)`: the following seed, or `StopIteration` once all are taken. */
    method Next() returns (r: Result<int>)
      modifies this
      ensures old(pos) < |seeds| ==> r == Success(seeds[old(pos)]) && pos == old(pos) + 1
      ensures old(pos) >= |seeds| ==> r == Failure(StopIteration) && pos == old(pos)
    {
      if pos < |seeds| {
        r := Success(seeds[pos]);
        pos := pos + 1;
      } else {
        r := Failure(StopIteration);
      }
    }
  }

  // ---------------------------------------------------------------------
  // The walk over the cells

  /** `self.data`: categorical variable, then dependent variable, then
      contrast number, to the contrast's results. */
  type Data = map<string, map<string, map<nat, Results>>>

  /** The contrasts recorded for one pair of variables. */
  function Dict(d: Data, categorical: string, dependent: string): map<nat, Results> {
    GetOr(GetOr(d, categorical, map[]), dependent, map[])
  }

  /** `self.data.setdefault(categorical, {}).setdefault(dependent, {})` */
  function SetDefault(d: Data, categorical: string, dependent: string): (r: Data)
    ensures categorical in r && dependent in r[categorical]
  {
    d[categorical := GetOr(d, categorical, map[])[dependent := Dict(d, categorical, dependent)]]
  }

  /** `dict_[i] = results` */
  function Put(d: Data, categorical: string, dependent: string, i: nat, results: Results): Data {
    d[categorical := GetOr(d, categorical, map[])[dependent := Dict(d, categorical, dependent)[i := results]]]
  }

  /** `causal_inference` as the walk sees it: for the iterator at `pos`,
      the results or the exception, and where the iterator stands after. */
  type Inference = (nat, Replacement, string, string) -> (Result<Results>, nat)

  /** An estimate that returns has taken two seeds. */
  ghost predicate TakesTwo(infer: Inference) {
    forall pos: nat, repl: Replacement, c: string, d: string :: infer(pos, repl, c, d).0.Success? ==> infer(pos, repl, c, d).1 == pos + 2
  }

  /** Where the walk stands: the table, the iterator, the tables written to
      the cache file, and the exception that ended it, if any. */
  datatype Walk = Walk(data: Data, pos: nat, saves: seq<Data>, stop: Option<Error>)

  /** What one contrast reads: the seed words, the shuffling, the
      significance test and the estimate. */
  datatype Contraster = Contraster(seeds: seq<int>, shuffled: bool, significant: Estimate -> bool, infer: Inference)

  /** One contrast `i` of a pair, with replacement `repl`: a recorded one is
      skipped but still takes two seeds; a new one is estimated and
      recorded, and in shuffled mode, except for `c_collaborative`, its
      weighting estimate must not be significant. */
  function ContrastStep(w: Walk, ct: Contraster, categorical: string, dependent: string, i: nat, repl: Replacement): (r: Walk)
    ensures w.stop.Some? ==> r == w
    ensures r.saves == w.saves
  {
    if w.stop.Some? then w
    else if i in Dict(w.data, categorical, dependent) then
      if w.pos + 2 <= |ct.seeds| then w.(pos := w.pos + 2)
      else w.(pos := if w.pos < |ct.seeds| then |ct.seeds| else w.pos, stop := Some(StopIteration))
    else
      var (res, pos) := ct.infer(w.pos, repl, categorical, dependent);
      if res.Failure? then w.(pos := pos, stop := Some(res.error))
      else
        var d := Put(w.data, categorical, dependent, i, res.value);
        var check := ct.shuffled && categorical != Collaborative;
        if check && "weighting" !in res.value.estimates then w.(data := d, pos := pos, stop := Some(KeyError))
        else if check && ct.significant(res.value.estimates["weighting"]) then
          w.(data := d, pos := pos, stop := Some(AssertionError))
        else w.(data := d, pos := pos)
  }

  /** A contrast step as the pairs see it. */
  type Step = (Walk, string, string, nat, Replacement) -> Walk

  ghost function StepOf(ct: Contraster): Step {
    (w: Walk, c: string, d: string, i: nat, repl: Replacement) => ContrastStep(w, ct, c, d, i, repl)
  }

  /** `step` is the contrast step of `ct`. */
  ghost predicate StepsBy(step: Step, ct: Contraster) {
    forall w: Walk, c: string, d: string, i: nat, repl: Replacement {:trigger ContrastStep(w, ct, c, d, i, repl)} ::
      step(w, c, d, i, repl) == ContrastStep(w, ct, c, d, i, repl)
  }

  lemma StepOfSteps(ct: Contraster)
    ensures StepsBy(StepOf(ct), ct)
  {
  }

  /** What the pairs walk over: the categorical and dependent variables and
      the contrast step. */
  datatype Walker = Walker(variables: seq<string>, features: seq<string>, step: Step)

  /** How many contrasts a categorical variable has per dependent variable. */
  function ContrastCount(categorical: string): (n: nat)
    ensures 1 <= n <= |Contrasts|
  {
    if categorical == Collaborative then 1 else |Contrasts|
  }

  /** The first `n` contrasts of a pair. */
  function ContrastsUpTo(w: Walk, wk: Walker, categorical: string, dependent: string, n: nat): Walk
    requires n <= |Contrasts|
  {
    if n == 0 then w
    else wk.step(ContrastsUpTo(w, wk, categorical, dependent, n - 1), categorical, dependent, n - 1, Contrasts[n - 1])
  }

  /** One pair of variables: `setdefault`, its contrasts, then
      `self.save()`; a recorded `c_collaborative` contrast skips its two
      seeds and the save (its `continue` leaves the pair). */
  function PairStep(w: Walk, wk: Walker, categorical: string, dependent: string): Walk {
    if w.stop.Some? then w
    else
      var w1 := w.(data := SetDefault(w.data, categorical, dependent));
      if categorical == Collaborative && 0 in Dict(w1.data, categorical, dependent) then
        wk.step(w1, categorical, dependent, 0, Contrasts[0])
      else
        var w2 := ContrastsUpTo(w1, wk, categorical, dependent, ContrastCount(categorical));
        if w2.stop.Some? then w2 else w2.(saves := w2.saves + [w2.data])
  }

  /** The first `n` dependent variables of one categorical variable. */
  function PairsUpTo(w: Walk, wk: Walker, categorical: string, n: nat): Walk
    requires n <= |wk.features|
  {
    if n == 0 then w else PairStep(PairsUpTo(w, wk, categorical, n - 1), wk, categorical, wk.features[n - 1])
  }

  /** The first `m` categorical variables. */
  function VariablesUpTo(w: Walk, wk: Walker, m: nat): Walk
    requires m <= |wk.variables|
  {
    if m == 0 then w else PairsUpTo(VariablesUpTo(w, wk, m - 1), wk, wk.variables[m - 1], |wk.features|)
  }

  // ---------------------------------------------------------------------
  // What a contrast step guarantees

  /** `e` holds every contrast of `d`, unchanged. */
  ghost predicate Extends(d: Data, e: Data) {
    forall c, dep, i :: i in Dict(d, c, dep) ==> i in Dict(e, c, dep) && Dict(e, c, dep)[i] == Dict(d, c, dep)[i]
  }

  lemma ExtendsTransitive(d: Data, e: Data, f: Data)
    requires Extends(d, e) && Extends(e, f)
    ensures Extends(d, f)
  {
  }

  /** A step changes nothing once an exception has ended the walk. */
  ghost predicate Halts(step: Step) {
    forall w: Walk, c, d, i, repl :: w.stop.Some? ==> step(w, c, d, i, repl) == w
  }

  /** A step never overwrites a recorded contrast, and one that goes on has
      recorded its own. */
  ghost predicate Records(step: Step) {
    forall w: Walk, c, d, i, repl :: Extends(w.data, step(w, c, d, i, repl).data) &&
      (w.stop.None? && step(w, c, d, i, repl).stop.None? ==> i in Dict(step(w, c, d, i, repl).data, c, d))
  }

  /** A step that goes on has taken two seeds. */
  ghost predicate StepsTwo(step: Step) {
    forall w: Walk, c, d, i, repl :: w.stop.None? && step(w, c, d, i, repl).stop.None? ==> step(w, c, d, i, repl).pos == w.pos + 2
  }

  lemma ContrastHalts(step: Step, ct: Contraster)
    requires StepsBy(step, ct)
    ensures Halts(step)
  {
    forall w: Walk, c, d, i, repl | w.stop.Some?
      ensures step(w, c, d, i, repl) == w
    {
      assert step(w, c, d, i, repl) == ContrastStep(w, ct, c, d, i, repl);
    }
  }

  /** A contrast step never overwrites a recorded contrast, and a step that
      goes on has recorded its own. */
  lemma ContrastKeeps(w: Walk, ct: Contraster, categorical: string, dependent: string, i: nat, repl: Replacement)
    ensures var s := ContrastStep(w, ct, categorical, dependent, i, repl);
            Extends(w.data, s.data) && (w.stop.None? && s.stop.None? ==> i in Dict(s.data, categorical, dependent))
  {
    var d := ContrastStep(w, ct, categorical, dependent, i, repl).data;
    forall c, dep, j | j in Dict(w.data, c, dep)
      ensures j in Dict(d, c, dep) && Dict(d, c, dep)[j] == Dict(w.data, c, dep)[j]
    {
      if c == categorical && dep == dependent {
        assert j != i || i in Dict(w.data, categorical, dependent);
      }
    }
  }

  lemma ContrastRecords(step: Step, ct: Contraster)
    requires StepsBy(step, ct)
    ensures Records(step)
  {
    forall w: Walk, c, d, i, repl
      ensures Extends(w.data, step(w, c, d, i, repl).data) &&
              (w.stop.None? && step(w, c, d, i, repl).stop.None? ==> i in Dict(step(w, c, d, i, repl).data, c, d))
    {
      assert step(w, c, d, i, repl) == ContrastStep(w, ct, c, d, i, repl);
      ContrastKeeps(w, ct, c, d, i, repl);
    }
  }

  /** Every contrast, recorded or new, takes exactly two seeds. */
  lemma ContrastTakesTwo(w: Walk, ct: Contraster, categorical: string, dependent: string, i: nat, repl: Replacement)
    requires TakesTwo(ct.infer) && w.stop.None? && ContrastStep(w, ct, categorical, dependent, i, repl).stop.None?
    ensures ContrastStep(w, ct, categorical, dependent, i, repl).pos == w.pos + 2
  {
  }

  lemma ContrastStepsTwo(step: Step, ct: Contraster)
    requires StepsBy(step, ct) && TakesTwo(ct.infer)
    ensures StepsTwo(step)
  {
    forall w: Walk, c, d, i, repl | w.stop.None? && step(w, c, d, i, repl).stop.None?
      ensures step(w, c, d, i, repl).pos == w.pos + 2
    {
      assert step(w, c, d, i, repl) == ContrastStep(w, ct, c, d, i, repl);
      ContrastTakesTwo(w, ct, c, d, i, repl);
    }
  }

  /** In shuffled mode a new contrast that the walk gets past, except for
      `c_collaborative`, has a weighting estimate, and it is not
      significant. */
  lemma ShuffledNotSignificant(w: Walk, ct: Contraster, categorical: string, dependent: string, i: nat, repl: Replacement)
    requires ct.shuffled && categorical != Collaborative
    requires w.stop.None? && i !in Dict(w.data, categorical, dependent)
    requires ContrastStep(w, ct, categorical, dependent, i, repl).stop.None?
    ensures var d := Dict(ContrastStep(w, ct, categorical, dependent, i, repl).data, categorical, dependent);
            i in d && "weighting" in d[i].estimates && !ct.significant(d[i].estimates["weighting"])
  {
  }

  // ---------------------------------------------------------------------
  // What the walk guarantees

  /** Once an exception has ended the walk, the later steps change nothing. */
  lemma {:induction false} ContrastsStuck(w: Walk, wk: Walker, categorical: string, dependent: string, k: nat, n: nat)
    requires Halts(wk.step) && k <= n <= |Contrasts| && ContrastsUpTo(w, wk, categorical, dependent, k).stop.Some?
    ensures ContrastsUpTo(w, wk, categorical, dependent, n) == ContrastsUpTo(w, wk, categorical, dependent, k)
    decreases n
  {
    if n > k {
      ContrastsStuck(w, wk, categorical, dependent, k, n - 1);
    }
  }

  lemma {:induction false} PairsStuck(w: Walk, wk: Walker, categorical: string, k: nat, n: nat)
    requires k <= n <= |wk.features| && PairsUpTo(w, wk, categorical, k).stop.Some?
    ensures PairsUpTo(w, wk, categorical, n) == PairsUpTo(w, wk, categorical, k)
    decreases n
  {
    if n > k {
      PairsStuck(w, wk, categorical, k, n - 1);
    }
  }

  lemma {:induction false} VariablesStuck(w: Walk, wk: Walker, k: nat, m: nat)
    requires k <= m <= |wk.variables| && VariablesUpTo(w, wk, k).stop.Some?
    ensures VariablesUpTo(w, wk, m) == VariablesUpTo(w, wk, k)
    decreases m
  {
    if m > k {
      VariablesStuck(w, wk, k, m - 1);
      PairsStuck(VariablesUpTo(w, wk, m - 1), wk, wk.variables[m - 1], 0, |wk.features|);
    }
  }

  lemma {:induction false} ContrastsTakeTwo(w: Walk, wk: Walker, categorical: string, dependent: string, n: nat)
    requires Halts(wk.step) && StepsTwo(wk.step)
    requires n <= |Contrasts| && w.stop.None? && ContrastsUpTo(w, wk, categorical, dependent, n).stop.None?
    ensures ContrastsUpTo(w, wk, categorical, dependent, n).pos == w.pos + 2 * n
  {
    if n > 0 {
      ContrastsTakeTwo(w, wk, categorical, dependent, n - 1);
    }
  }

  /** Contrasts in the first `m` categorical variables. */
  function CellsUpTo(variables: seq<string>, features: seq<string>, m: nat): nat
    requires m <= |variables|
  {
    if m == 0 then 0 else CellsUpTo(variables, features, m - 1) + |features| * ContrastCount(variables[m - 1])
  }

  /** There are 77 contrasts, and the default threshold shares 0.05 among
      them. */
  lemma SeventySevenCells()
    ensures CellsUpTo(IndependentVariables, Coherence.Features, |IndependentVariables|) == 77
    ensures DefaultPValue * (CellsUpTo(IndependentVariables, Coherence.Features, |IndependentVariables|) as real) == 0.05
  {
    var iv := IndependentVariables;
    assert |Coherence.Features| == 11;
    assert ContrastCount(iv[0]) == 2 && ContrastCount(iv[1]) == 2 && ContrastCount(iv[2]) == 2;
    assert ContrastCount(iv[3]) == 1;
    var f := Coherence.Features;
    assert CellsUpTo(iv, f, 1) == CellsUpTo(iv, f, 0) + 11 * 2 == 22;
    assert CellsUpTo(iv, f, 2) == 22 + 11 * 2;
    assert CellsUpTo(iv, f, 3) == 44 + 11 * 2;
    assert CellsUpTo(iv, f, 4) == 66 + 11 * 1;
  }

  lemma PairTakesItsCells(w: Walk, wk: Walker, categorical: string, dependent: string)
    requires Halts(wk.step) && StepsTwo(wk.step)
    requires w.stop.None? && PairStep(w, wk, categorical, dependent).stop.None?
    ensures PairStep(w, wk, categorical, dependent).pos == w.pos + 2 * ContrastCount(categorical)
  {
    var w1 := w.(data := SetDefault(w.data, categorical, dependent));
    if !(categorical == Collaborative && 0 in Dict(w1.data, categorical, dependent)) {
      ContrastsTakeTwo(w1, wk, categorical, dependent, ContrastCount(categorical));
    }
  }

  lemma StepProduct(a: nat, n: nat, k: nat)
    requires n > 0
    ensures a + 2 * ((n - 1) * k) + 2 * k == a + 2 * (n * k)
  {
  }

  lemma {:induction false} PairsTakeTheirCells(w: Walk, wk: Walker, categorical: string, n: nat)
    requires Halts(wk.step) && StepsTwo(wk.step)
    requires n <= |wk.features| && w.stop.None? && PairsUpTo(w, wk, categorical, n).stop.None?
    ensures PairsUpTo(w, wk, categorical, n).pos == w.pos + 2 * (n * ContrastCount(categorical))
  {
    if n > 0 {
      var p := PairsUpTo(w, wk, categorical, n - 1);
      PairsTakeTheirCells(w, wk, categorical, n - 1);
      PairTakesItsCells(p, wk, categorical, wk.features[n - 1]);
      StepProduct(w.pos, n, ContrastCount(categorical));
    }
  }

  /** The seeds a cell is given do not depend on what the cache held: while
      the walk goes on, it has taken exactly two seeds per contrast so far,
      recorded or not. */
  lemma {:induction false} WalkTakesTwoPerCell(w: Walk, wk: Walker, m: nat)
    requires Halts(wk.step) && StepsTwo(wk.step)
    requires m <= |wk.variables| && w.stop.None? && VariablesUpTo(w, wk, m).stop.None?
    ensures VariablesUpTo(w, wk, m).pos == w.pos + 2 * CellsUpTo(wk.variables, wk.features, m)
  {
    if m > 0 {
      var v := VariablesUpTo(w, wk, m - 1);
      if v.stop.Some? {
        PairsStuck(v, wk, wk.variables[m - 1], 0, |wk.features|);
      }
      WalkTakesTwoPerCell(w, wk, m - 1);
      PairsTakeTheirCells(v, wk, wk.variables[m - 1], |wk.features|);
    }
  }

  lemma {:induction false} ContrastsKeep(w: Walk, wk: Walker, categorical: string, dependent: string, n: nat)
    requires Records(wk.step) && n <= |Contrasts|
    ensures Extends(w.data, ContrastsUpTo(w, wk, categorical, dependent, n).data)
  {
    if n > 0 {
      var p := ContrastsUpTo(w, wk, categorical, dependent, n - 1);
      ContrastsKeep(w, wk, categorical, dependent, n - 1);
      ExtendsTransitive(w.data, p.data, ContrastsUpTo(w, wk, categorical, dependent, n).data);
    }
  }

  lemma {:induction false} ContrastsFill(w: Walk, wk: Walker, categorical: string, dependent: string, n: nat)
    requires Halts(wk.step) && Records(wk.step)
    requires n <= |Contrasts| && w.stop.None? && ContrastsUpTo(w, wk, categorical, dependent, n).stop.None?
    ensures forall i :: 0 <= i < n ==> i in Dict(ContrastsUpTo(w, wk, categorical, dependent, n).data, categorical, dependent)
  {
    if n > 0 {
      ContrastsFill(w, wk, categorical, dependent, n - 1);
    }
  }

  lemma SetDefaultKeeps(d: Data, categorical: string, dependent: string)
    ensures Extends(d, SetDefault(d, categorical, dependent))
  {
  }

  /** The contrasts a finished pair has recorded. */
  ghost predicate Filled(d: Data, categorical: string, dependent: string) {
    forall i :: 0 <= i < ContrastCount(categorical) ==> i in Dict(d, categorical, dependent)
  }

  lemma FilledKept(d: Data, e: Data, categorical: string, dependent: string)
    requires Extends(d, e) && Filled(d, categorical, dependent)
    ensures Filled(e, categorical, dependent)
  {
  }

  /** A pair never overwrites a recorded contrast. */
  lemma PairKeeps(w: Walk, wk: Walker, categorical: string, dependent: string)
    requires Records(wk.step)
    ensures Extends(w.data, PairStep(w, wk, categorical, dependent).data)
  {
    if w.stop.None? {
      var w1 := w.(data := SetDefault(w.data, categorical, dependent));
      SetDefaultKeeps(w.data, categorical, dependent);
      if categorical == Collaborative && 0 in Dict(w1.data, categorical, dependent) {
        ExtendsTransitive(w.data, w1.data, wk.step(w1, categorical, dependent, 0, Contrasts[0]).data);
      } else {
        ContrastsKeep(w1, wk, categorical, dependent, ContrastCount(categorical));
        ExtendsTransitive(w.data, w1.data, ContrastsUpTo(w1, wk, categorical, dependent, ContrastCount(categorical)).data);
      }
    }
  }

  lemma PairKeepsFilled(w: Walk, wk: Walker, categorical: string, dependent: string, other: string)
    requires Records(wk.step) && Filled(w.data, categorical, other)
    ensures Filled(PairStep(w, wk, categorical, dependent).data, categorical, other)
  {
    PairKeeps(w, wk, categorical, dependent);
    FilledKept(w.data, PairStep(w, wk, categorical, dependent).data, categorical, other);
  }

  lemma PairKeepsFrom(base: Data, w: Walk, wk: Walker, categorical: string, dependent: string)
    requires Records(wk.step) && Extends(base, w.data)
    ensures Extends(base, PairStep(w, wk, categorical, dependent).data)
  {
    PairKeeps(w, wk, categorical, dependent);
    ExtendsTransitive(base, w.data, PairStep(w, wk, categorical, dependent).data);
  }

  /** A pair that goes on has recorded all its contrasts. */
  lemma PairFills(w: Walk, wk: Walker, categorical: string, dependent: string)
    requires Halts(wk.step) && Records(wk.step)
    requires w.stop.None? && PairStep(w, wk, categorical, dependent).stop.None?
    ensures Filled(PairStep(w, wk, categorical, dependent).data, categorical, dependent)
  {
    var w1 := w.(data := SetDefault(w.data, categorical, dependent));
    if !(categorical == Collaborative && 0 in Dict(w1.data, categorical, dependent)) {
      ContrastsFill(w1, wk, categorical, dependent, ContrastCount(categorical));
    }
  }

  /** The first `n` pairs never overwrite a recorded contrast. */
  lemma {:induction false} PairsKeep(w: Walk, wk: Walker, categorical: string, n: nat)
    requires Records(wk.step) && n <= |wk.features|
    ensures Extends(w.data, PairsUpTo(w, wk, categorical, n).data)
  {
    if n > 0 {
      var p := PairsUpTo(w, wk, categorical, n - 1);
      PairsKeep(w, wk, categorical, n - 1);
      PairKeepsFrom(w.data, p, wk, categorical, wk.features[n - 1]);
    }
  }

  /** The first `n` pairs, when they go on, have recorded every contrast of
      each. */
  lemma {:induction false} PairsFill(w: Walk, wk: Walker, categorical: string, n: nat, k: nat)
    requires Halts(wk.step) && Records(wk.step)
    requires k < n <= |wk.features| && w.stop.None? && PairsUpTo(w, wk, categorical, n).stop.None?
    ensures Filled(PairsUpTo(w, wk, categorical, n).data, categorical, wk.features[k])
  {
    var p := PairsUpTo(w, wk, categorical, n - 1);
    if k == n - 1 {
      PairFills(p, wk, categorical, wk.features[n - 1]);
    } else {
      PairsFill(w, wk, categorical, n - 1, k);
      PairKeepsFilled(p, wk, categorical, wk.features[n - 1], wk.features[k]);
    }
  }

  lemma PairsKeepFilled(w: Walk, wk: Walker, categorical: string, n: nat, other: string, dependent: string)
    requires Records(wk.step) && n <= |wk.features| && Filled(w.data, other, dependent)
    ensures Filled(PairsUpTo(w, wk, categorical, n).data, other, dependent)
  {
    PairsKeep(w, wk, categorical, n);
    FilledKept(w.data, PairsUpTo(w, wk, categorical, n).data, other, dependent);
  }

  /** The whole walk, finished or not, never overwrites a recorded
      contrast, so a resumed run keeps what the cache held. */
  lemma {:induction false} WalkKeeps(w: Walk, wk: Walker, m: nat)
    requires Records(wk.step) && m <= |wk.variables|
    ensures Extends(w.data, VariablesUpTo(w, wk, m).data)
  {
    if m > 0 {
      var v := VariablesUpTo(w, wk, m - 1);
      WalkKeeps(w, wk, m - 1);
      PairsKeep(v, wk, wk.variables[m - 1], |wk.features|);
      ExtendsTransitive(w.data, v.data, VariablesUpTo(w, wk, m).data);
    }
  }

  lemma {:induction false} WalkFillsOne(w: Walk, wk: Walker, m: nat, c: nat, k: nat)
    requires Halts(wk.step) && Records(wk.step)
    requires c < m <= |wk.variables| && k < |wk.features| && w.stop.None? && VariablesUpTo(w, wk, m).stop.None?
    ensures Filled(VariablesUpTo(w, wk, m).data, wk.variables[c], wk.features[k])
  {
    var v := VariablesUpTo(w, wk, m - 1);
    if v.stop.Some? {
      PairsStuck(v, wk, wk.variables[m - 1], 0, |wk.features|);
    }
    if c == m - 1 {
      PairsFill(v, wk, wk.variables[c], |wk.features|, k);
    } else {
      WalkFillsOne(w, wk, m - 1, c, k);
      PairsKeepFilled(v, wk, wk.variables[m - 1], |wk.features|, wk.variables[c], wk.features[k]);
    }
  }

  /** A walk that ends without an exception has recorded every contrast of
      every pair. */
  lemma WalkFills(w: Walk, wk: Walker)
    requires Halts(wk.step) && Records(wk.step)
    requires w.stop.None? && VariablesUpTo(w, wk, |wk.variables|).stop.None?
    ensures forall c, k :: 0 <= c < |wk.variables| && 0 <= k < |wk.features| ==>
              Filled(VariablesUpTo(w, wk, |wk.variables|).data, wk.variables[c], wk.features[k])
  {
    forall c, k | 0 <= c < |wk.variables| && 0 <= k < |wk.features|
      ensures Filled(VariablesUpTo(w, wk, |wk.variables|).data, wk.variables[c], wk.features[k])
    {
      WalkFillsOne(w, wk, |wk.variables|, c, k);
    }
  }

  // ---------------------------------------------------------------------
  // The service

  /** `f'matching_service_{size}'` or `f'weighting_service_{size}'` */
  function ServiceName(estimator: string, size: int): (r: string)
    ensures StartsWith(r, if estimator == "matching" then "matching_service_" else "weighting_service_")
  {
    (if estimator == "matching" then "matching_service_" else "weighting_service_") + IntToString(size)
  }

  /** `os.path.join(cached_path, ...)` followed by `_shuffled.pk` or `.pk`. */
  function FilePath(cachedPath: string, estimator: string, size: int, shuffled: bool): (path: string)
    ensures EndsWith(path, if shuffled then "_shuffled.pk" else ".pk")
  {
    PathJoin(cachedPath, ServiceName(estimator, size)) + (if shuffled then "_shuffled.pk" else ".pk")
  }

  /** A service name is relative and ends in the last digit of the size. */
  lemma ServiceNameEnds(estimator: string, size: int)
    ensures var n := ServiceName(estimator, size);
            |n| > 0 && !StartsWith(n, "/") && '0' <= n[|n| - 1] <= '9'
  {
    var n := ServiceName(estimator, size);
    var prefix := if estimator == "matching" then "matching_service_" else "weighting_service_";
    var digits := IntToString(size);
    assert n == prefix + digits;
    assert n[0] == prefix[0] != '/';
    assert n[|n| - 1] == digits[|digits| - 1];
  }

  /** A name that ends in a digit, followed by `.pk`, does not end in
      `_shuffled.pk`. */
  lemma DigitNotShuffled(s: string)
    requires |s| > 0 && '0' <= s[|s| - 1] <= '9'
    ensures !EndsWith(s + ".pk", "_shuffled.pk")
  {
    var p := s + ".pk";
    assert p[|p| - 4] == s[|s| - 1];
  }

  /** The shuffled and the unshuffled service never share a cache file:
      in the unshuffled name a digit of the size stands where the other
      has the `d` of `_shuffled`. */
  lemma FilePathsDiffer(cachedPath: string, estimator: string, size: int)
    ensures !EndsWith(FilePath(cachedPath, estimator, size, false), "_shuffled.pk")
    ensures FilePath(cachedPath, estimator, size, false) != FilePath(cachedPath, estimator, size, true)
  {
    var name := ServiceName(estimator, size);
    ServiceNameEnds(estimator, size);
    var joined := PathJoin(cachedPath, name);
    assert EndsWith(joined, name);
    assert joined[|joined| - 1] == joined[|joined| - |name|..][|name| - 1];
    DigitNotShuffled(joined);
  }

  class CausalInferenceService {
    const estimator: string
    const size: int
    const filepath: string
    /** `SeedSequence(seed).generate_state(256)` */
    const seedSequence: seq<int>
    const usedCached: bool
    const shuffled: bool
    const independentVariables: seq<string>
    const prosperityFeatures: seq<string>
    var data: Data
    /** The tables written to `filepath` by `save`, oldest first. */
    var saved: seq<Data>

    /** The attributes `__init__` sets, with the cache file path it hands to
        `Service.__init__`; `New` computes that path. */
    constructor (size: int, seedSequence: seq<int>, useCache: bool, shuffled: bool, estimator: string, filepath: string)
      requires estimator in ["matching", "weighting"]
      ensures this.size == size && this.seedSequence == seedSequence && usedCached == useCache
      ensures this.shuffled == shuffled && this.estimator == estimator
      ensures this.filepath == filepath && data == map[] && saved == []
      ensures independentVariables == IndependentVariables && prosperityFeatures == ProsperityFeatures
    {
      this.estimator := estimator;
      this.size := size;
      this.filepath := filepath;
      this.seedSequence := seedSequence;
      usedCached := useCache;
      this.shuffled := shuffled;
      independentVariables := IndependentVariables;
      prosperityFeatures := ProsperityFeatures;
      data := map[];
      saved := [];
    }

    /** `CausalInferenceService(...)`: any estimator other than `matching`
        and `weighting` fails the constructor's assertion. */
    static method New(size: int, seedSequence: seq<int>, useCache: bool, shuffled: bool, estimator: string,
                      cachedPath: string)
      returns (r: Result<CausalInferenceService>)
      ensures r.Failure? <==> estimator !in ["matching", "weighting"]
      ensures r.Failure? ==> r.error == AssertionError
      ensures r.Success? ==> fresh(r.value) && r.value.size == size && r.value.seedSequence == seedSequence &&
                             r.value.usedCached == useCache && r.value.shuffled == shuffled &&
                             r.value.estimator == estimator && r.value.data == map[] && r.value.saved == [] &&
                             r.value.independentVariables == IndependentVariables &&
                             r.value.prosperityFeatures == ProsperityFeatures &&
                             r.value.filepath == FilePath(cachedPath, estimator, size, shuffled)
    {
      if estimator !in ["matching", "weighting"] {
        return Failure(AssertionError);
      }
      var s := new CausalInferenceService(size, seedSequence, useCache, shuffled, estimator, FilePath(cachedPath, estimator, size, shuffled));
      r := Success(s);
    }

    ghost function EnvOf(frame: Option<Coherence.Frame>, sample: (seq<nat>, int, int) -> seq<nat>,
                         fit: Draw -> (Estimate, seq<real>)): Env
    {
      Env(frame, seedSequence, size, estimator, independentVariables, prosperityFeatures, sample, fit)
    }

    /** `infer` is the service's `causal_inference` on the context `frame`,
        `sample` and `fit`. */
    ghost predicate Estimates(infer: Inference, frame: Option<Coherence.Frame>, sample: (seq<nat>, int, int) -> seq<nat>,
                              fit: Draw -> (Estimate, seq<real>))
    {
      forall pos: nat, repl: Replacement, c: string, d: string {:trigger Infer(EnvOf(frame, sample, fit), pos, repl, c, d)} ::
        infer(pos, repl, c, d) == Infer(EnvOf(frame, sample, fit), pos, repl, c, d)
    }

    ghost function ContrasterOf(infer: Inference, cdf: real -> real): Contraster
    {
      Contraster(seedSequence, shuffled, e => IsSignificant(e, DefaultPValue, cdf), infer)
    }

    ghost function WalkerOf(features: seq<string>, infer: Inference, cdf: real -> real): Walker
    {
      Walker(independentVariables, features, StepOf(ContrasterOf(infer, cdf)))
    }

    /** `wk` walks the service's variables over `features` with the
        contrast step that estimates by `infer`. */
    ghost predicate Walks(wk: Walker, features: seq<string>, infer: Inference, cdf: real -> real) {
      wk.variables == independentVariables && wk.features == features && StepsBy(wk.step, ContrasterOf(infer, cdf))
    }

    lemma WalkerOfWalks(features: seq<string>, infer: Inference, cdf: real -> real)
      ensures Walks(WalkerOf(features, infer, cdf), features, infer, cdf)
    {
      StepOfSteps(ContrasterOf(infer, cdf));
    }

    /** The service's contrast step has what the walk lemmas need. */
    lemma WalkerSound(wk: Walker, frame: Option<Coherence.Frame>, features: seq<string>, infer: Inference,
                      sample: (seq<nat>, int, int) -> seq<nat>, fit: Draw -> (Estimate, seq<real>), cdf: real -> real)
      requires Walks(wk, features, infer, cdf) && Estimates(infer, frame, sample, fit)
      ensures Halts(wk.step) && Records(wk.step) && StepsTwo(wk.step)
    {
      var ct := ContrasterOf(infer, cdf);
      ContrastHalts(wk.step, ct);
      ContrastRecords(wk.step, ct);
      InferTakesTwo(EnvOf(frame, sample, fit));
      forall pos: nat, repl: Replacement, c: string, d: string
        ensures infer(pos, repl, c, d).0.Success? ==> infer(pos, repl, c, d).1 == pos + 2
      {
        assert infer(pos, repl, c, d) == Infer(EnvOf(frame, sample, fit), pos, repl, c, d);
      }
      ContrastStepsTwo(wk.step, ct);
    }

    ghost function WalkOf(rand: SeedIterator): Walk
      reads this, rand
    {
      Walk(data, rand.pos, saved, None)
    }

    /** The checks at the start of `causal_inference` and the two groups
        of complete rows it samples from. */
    method SelectGroups(frame: Option<Coherence.Frame>, repl: Replacement, categorical: string, dependent: string,
                        ghost sample: (seq<nat>, int, int) -> seq<nat>, ghost fit: Draw -> (Estimate, seq<real>))
      returns (r: Result<(seq<string>, seq<nat>, seq<nat>)>)
      ensures r == Candidates(EnvOf(frame, sample, fit), repl, categorical, dependent)
    {
      if categorical !in independentVariables {
        return Failure(AssertionError);
      }
      var covariates := Without(prosperityFeatures, Drop2(categorical));
      if |covariates| != |prosperityFeatures| - 1 {
        return Failure(AssertionError);
      }
      if repl.r1 == repl.r3 || repl.r0 == repl.r2 {
        return Failure(AssertionError);
      }
      if frame.None? {
        return Failure(TypeError);
      }
      var idxs := ColumnsOf(frame.value.columns, [categorical, dependent] + covariates);
      if idxs.Failure? {
        return Failure(KeyError);
      }
      var rows := frame.value.rows;
      var groupA := Group(rows, idxs.value, repl.r0, |rows|);
      if |groupA| < size {
        return Failure(AssertionError);
      }
      var groupB := Group(rows, idxs.value, repl.r2, |rows|);
      if |groupB| < size {
        return Failure(AssertionError);
      }
      r := Success((covariates, groupA, groupB));
    }

    /** `causal_inference` */
    method CausalInference(frame: Option<Coherence.Frame>, rand: SeedIterator, repl: Replacement,
                           categorical: string, dependent: string,
                           sample: (seq<nat>, int, int) -> seq<nat>, fit: Draw -> (Estimate, seq<real>))
      returns (r: Result<Results>)
      requires rand.seeds == seedSequence
      modifies rand
      ensures (r, rand.pos) == Infer(EnvOf(frame, sample, fit), old(rand.pos), repl, categorical, dependent)
    {
      var candidates := SelectGroups(frame, repl, categorical, dependent, sample, fit);
      if candidates.Failure? {
        return Failure(candidates.error);
      }
      var (covariates, groupA, groupB) := candidates.value;
      var (nA, nB) := SampleSizes(repl.r1, size);
      var seedA :- rand.Next();
      if nA < 0 || nA > |groupA| {
        return Failure(ValueError);
      }
      var sampleA := sample(groupA, nA, seedA);
      var seedB :- rand.Next();
      if nB < 0 || nB > |groupB| {
        return Failure(ValueError);
      }
      var sampleB := sample(groupB, nB, seedB);
      var (estimate, stats) := fit(Draw(categorical, dependent, covariates, sampleA, repl.r1, sampleB, repl.r3));
      r := Success(Results((nA, nB), map[estimator := estimate], stats));
    }

    /** One contrast of a pair (the body of the `for i in range(2)` loop,
        or the `c_collaborative` branch). */
    method Contrast(frame: Option<Coherence.Frame>, rand: SeedIterator, categorical: string, dependent: string,
                    i: nat, repl: Replacement, sample: (seq<nat>, int, int) -> seq<nat>,
                    fit: Draw -> (Estimate, seq<real>), cdf: real -> real, ghost infer: Inference)
      returns (stop: Option<Error>)
      requires rand.seeds == seedSequence && Estimates(infer, frame, sample, fit)
      modifies this, rand
      ensures Walk(data, rand.pos, saved, stop) == ContrastStep(old(WalkOf(rand)), ContrasterOf(infer, cdf), categorical, dependent, i, repl)
    {
      if i in Dict(data, categorical, dependent) {
        var s1 := rand.Next();
        if s1.Failure? {
          return Some(s1.error);
        }
        var s2 := rand.Next();
        if s2.Failure? {
          return Some(s2.error);
        }
        return None;
      }
      var res := CausalInference(frame, rand, repl, categorical, dependent, sample, fit);
      if res.Failure? {
        return Some(res.error);
      }
      data := Put(data, categorical, dependent, i, res.value);
      if shuffled && categorical != Collaborative {
        if "weighting" !in res.value.estimates {
          return Some(KeyError);
        }
        if IsSignificant(res.value.estimates["weighting"], DefaultPValue, cdf) {
          return Some(AssertionError);
        }
      }
      stop := None;
    }

    /** One pair of variables: the body of the loop over dependent
        variables. */
    method Pair(frame: Option<Coherence.Frame>, rand: SeedIterator, categorical: string, dependent: string,
                sample: (seq<nat>, int, int) -> seq<nat>, fit: Draw -> (Estimate, seq<real>), cdf: real -> real,
                ghost infer: Inference, ghost wk: Walker)
      returns (stop: Option<Error>)
      requires rand.seeds == seedSequence && Estimates(infer, frame, sample, fit) && Walks(wk, wk.features, infer, cdf)
      modifies this, rand
      ensures Walk(data, rand.pos, saved, stop) == PairStep(old(WalkOf(rand)), wk, categorical, dependent)
    {
      ContrastHalts(wk.step, ContrasterOf(infer, cdf));
      data := SetDefault(data, categorical, dependent);
      ghost var w1 := WalkOf(rand);
      if categorical == Collaborative && 0 in Dict(data, categorical, dependent) {
        stop := Contrast(frame, rand, categorical, dependent, 0, Contrasts[0], sample, fit, cdf, infer);
        return;
      }
      var i := 0;
      while i < ContrastCount(categorical)
        invariant 0 <= i <= ContrastCount(categorical)
        invariant WalkOf(rand) == ContrastsUpTo(w1, wk, categorical, dependent, i)
      {
        stop := Contrast(frame, rand, categorical, dependent, i, Contrasts[i], sample, fit, cdf, infer);
        if stop.Some? {
          ContrastsStuck(w1, wk, categorical, dependent, i + 1, ContrastCount(categorical));
          return;
        }
        i := i + 1;
      }
      saved := saved + [data];
      stop := None;
    }

    /** The loop over the dependent variables for one categorical
        variable. */
    method Pairs(frame: Option<Coherence.Frame>, rand: SeedIterator, features: seq<string>, categorical: string,
                 sample: (seq<nat>, int, int) -> seq<nat>, fit: Draw -> (Estimate, seq<real>), cdf: real -> real,
                 ghost infer: Inference, ghost wk: Walker)
      returns (stop: Option<Error>)
      requires rand.seeds == seedSequence && Estimates(infer, frame, sample, fit) && Walks(wk, features, infer, cdf)
      modifies this, rand
      ensures Walk(data, rand.pos, saved, stop) == PairsUpTo(old(WalkOf(rand)), wk, categorical, |features|)
    {
      ghost var before := WalkOf(rand);
      stop := None;
      var d := 0;
      while d < |features| && stop.None?
        invariant 0 <= d <= |features|
        invariant Walk(data, rand.pos, saved, stop) == PairsUpTo(before, wk, categorical, d)
      {
        stop := Pair(frame, rand, categorical, features[d], sample, fit, cdf, infer, wk);
        d := d + 1;
      }
      if stop.Some? {
        PairsStuck(before, wk, categorical, d, |features|);
      }
    }

    /** `load_from_data`: the shuffling must match the coherence service's;
        the table starts from the cache file when it is used and exists
        (`cache` is what it holds), and the walk runs over every pair. An
        exception leaves the table and the saves as far as it got. `infer`
        is `causal_inference` and `wk` the walk over the service's pairs
        with it, such as `WalkerOf(significance.features, infer, cdf)`. */
    method LoadFromData(significance: Coherence.CoherenceService, cache: Option<Data>,
                        sample: (seq<nat>, int, int) -> seq<nat>, fit: Draw -> (Estimate, seq<real>), cdf: real -> real,
                        ghost infer: Inference, ghost wk: Walker)
      returns (r: Outcome)
      requires Estimates(infer, significance.data, sample, fit) && Walks(wk, significance.features, infer, cdf)
      modifies this
      ensures shuffled != significance.shuffled ==> r == Fail(AssertionError) && data == old(data) && saved == old(saved)
      ensures shuffled == significance.shuffled ==>
                var start := if usedCached && cache.Some? then cache.value else old(data);
                var w := VariablesUpTo(Walk(start, 0, old(saved), None), wk, |independentVariables|);
                data == w.data && saved == w.saves && r == (if w.stop.Some? then Fail(w.stop.value) else Pass)
    {
      if shuffled != significance.shuffled {
        return Fail(AssertionError);
      }
      var frame := significance.data;
      var rand := new SeedIterator(seedSequence);
      if usedCached && cache.Some? {
        data := cache.value;
      }
      var stop := Variables(frame, rand, significance.features, sample, fit, cdf, infer, wk);
      r := if stop.Some? then Fail(stop.value) else Pass;
    }

    /** The loop over the categorical variables, each with its loop over
        the dependent variables. */
    method Variables(frame: Option<Coherence.Frame>, rand: SeedIterator, features: seq<string>,
                     sample: (seq<nat>, int, int) -> seq<nat>, fit: Draw -> (Estimate, seq<real>), cdf: real -> real,
                     ghost infer: Inference, ghost wk: Walker)
      returns (stop: Option<Error>)
      requires rand.seeds == seedSequence && Estimates(infer, frame, sample, fit) && Walks(wk, features, infer, cdf)
      modifies this, rand
      ensures Walk(data, rand.pos, saved, stop) == VariablesUpTo(old(WalkOf(rand)), wk, |independentVariables|)
    {
      ghost var start := WalkOf(rand);
      stop := None;
      var c := 0;
      while c < |independentVariables| && stop.None?
        invariant 0 <= c <= |independentVariables|
        invariant Walk(data, rand.pos, saved, stop) == VariablesUpTo(start, wk, c)
      {
        stop := Pairs(frame, rand, features, independentVariables[c], sample, fit, cdf, infer, wk);
        c := c + 1;
      }
      if stop.Some? {
        VariablesStuck(start, wk, c, |independentVariables|);
      }
    }
  }
}
