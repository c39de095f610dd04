// services/normalized_feature_service.py: rescales the loudness and tempo
// of every `AudioFeature` held by a `FeatureService`, in place.

module NormalizedFeatures {
  import opened Common
  import opened AudioFeatures
  import opened FeatureRows
  import FeatureServices

  /** `os.path.join(cached_path, 'normalized_feature_service.pk')` */
  function CacheFile(cachedPath: string): (path: string)
    ensures EndsWith(path, "normalized_feature_service.pk")
  {
    PathJoin(cachedPath, "normalized_feature_service.pk")
  }

  const MinLoudness: real := -60.0
  const DiffLoudness: real := 60.0

  /** `max(min(l, 0), -60)` */
  function Clamp(l: real): (r: real)
    ensures -60.0 <= r <= 0.0
    ensures -60.0 <= l <= 0.0 ==> r == l
  {
    if l > 0.0 then 0.0 else if l < -60.0 then -60.0 else l
  }

  /** The new loudness: the clamped value mapped onto [0, 1], cubed. */
  function Loudness(l: real): (r: real)
    ensures 0.0 <= r <= 1.0
  {
    var x := (Clamp(l) - MinLoudness) / DiffLoudness;
    CubeMonotone(0.0, x);
    CubeMonotone(x, 1.0);
    x * x * x
  }

  /** The new tempo: the offset from the slowest tempo over the spread. */
  function Tempo(t: real, minTempo: real, diffTempo: real): (r: real)
    requires diffTempo != 0.0
    ensures diffTempo > 0.0 && minTempo <= t <= minTempo + diffTempo ==> 0.0 <= r <= 1.0
  {
    (t - minTempo) / diffTempo
  }

  lemma CubeMonotone(x: real, y: real)
    requires 0.0 <= x <= y
    ensures x * x * x <= y * y * y
  {
    assert x * x <= y * y;
    assert x * x * x <= y * y * x <= y * y * y;
  }

  /** The new loudness lies in [0, 1] and grows with the old one; every
      value at or above 0 dB becomes 1, every value at or below -60 dB
      becomes 0. */
  lemma LoudnessScale(l: real, m: real)
    ensures 0.0 <= Loudness(l) <= 1.0
    ensures l <= m ==> Loudness(l) <= Loudness(m)
    ensures l >= 0.0 ==> Loudness(l) == 1.0
    ensures l <= -60.0 ==> Loudness(l) == 0.0
    ensures -60.0 <= l <= 0.0 ==> Loudness(l) == ((l + 60.0) / 60.0) * ((l + 60.0) / 60.0) * ((l + 60.0) / 60.0)
  {
    var x := (Clamp(l) - MinLoudness) / DiffLoudness;
    var y := (Clamp(m) - MinLoudness) / DiffLoudness;
    assert 0.0 <= x <= 1.0;
    CubeMonotone(0.0, x);
    CubeMonotone(x, 1.0);
    if l <= m {
      CubeMonotone(x, y);
    }
  }

  /** Over a range from `lo` to `hi > lo`, the slowest tempo becomes 0, the
      fastest 1, and every tempo in between lands in [0, 1], in order. */
  lemma TempoScale(t: real, u: real, lo: real, hi: real)
    requires lo < hi
    ensures Tempo(lo, lo, hi - lo) == 0.0 && Tempo(hi, lo, hi - lo) == 1.0
    ensures lo <= t <= hi ==> 0.0 <= Tempo(t, lo, hi - lo) <= 1.0
    ensures t <= u ==> Tempo(t, lo, hi - lo) <= Tempo(u, lo, hi - lo)
  {
    var d := hi - lo;
    if lo <= t <= hi {
      assert (t - lo) / d <= d / d;
    }
    if t <= u {
      assert (t - lo) / d <= (u - lo) / d;
    }
  }

  /** The position of a smallest element, as `tempo.min()` finds its value. */
  function MinIndex(s: seq<real>): (i: nat)
    requires |s| > 0
    ensures i < |s| && forall j :: 0 <= j < |s| ==> s[i] <= s[j]
  {
    if |s| == 1 then 0
    else
      var i := MinIndex(s[..|s| - 1]);
      assert forall j :: 0 <= j < |s| - 1 ==> s[..|s| - 1][j] == s[j];
      if s[|s| - 1] < s[i] then |s| - 1 else i
  }

  /** The position of a largest element, as `tempo.max()` finds its value. */
  function MaxIndex(s: seq<real>): (i: nat)
    requires |s| > 0
    ensures i < |s| && forall j :: 0 <= j < |s| ==> s[j] <= s[i]
  {
    if |s| == 1 then 0
    else
      var i := MaxIndex(s[..|s| - 1]);
      assert forall j :: 0 <= j < |s| - 1 ==> s[..|s| - 1][j] == s[j];
      if s[|s| - 1] > s[i] then |s| - 1 else i
  }

  /** An object after normalisation: loudness and tempo rescaled, every
      other attribute as it was. */
  function Normalized(st: FeatureServices.State, minTempo: real, diffTempo: real): FeatureServices.State
    requires diffTempo != 0.0
  {
    st.(numbers := st.numbers.(loudness := Loudness(st.numbers.loudness),
                               tempo := Tempo(st.numbers.tempo, minTempo, diffTempo)))
  }

  /** Over a range `lo < hi` holding the old tempo, a normalised object's
      loudness and tempo both lie in [0, 1]. */
  lemma NormalizedInUnit(st: FeatureServices.State, lo: real, hi: real)
    requires lo < hi && lo <= st.numbers.tempo <= hi
    ensures var n := Normalized(st, lo, hi - lo).numbers;
            0.0 <= n.loudness <= 1.0 && 0.0 <= n.tempo <= 1.0
    ensures st.numbers.tempo == lo ==> Normalized(st, lo, hi - lo).numbers.tempo == 0.0
    ensures st.numbers.tempo == hi ==> Normalized(st, lo, hi - lo).numbers.tempo == 1.0
  {
    LoudnessScale(st.numbers.loudness, st.numbers.loudness);
    TempoScale(st.numbers.tempo, st.numbers.tempo, lo, hi);
  }

  lemma LabelPositions()
    ensures LabelIndex("loudness") == Some(2) && LabelIndex("tempo") == Some(8)
  {
    assert FeatureLabels[0] != "loudness" && FeatureLabels[1] != "loudness" && FeatureLabels[2] == "loudness";
    assert forall i :: 0 <= i < 8 ==> FeatureLabels[i] != "tempo";
    assert FeatureLabels[8] == "tempo";
  }

  /** `[f['tempo'] for f in data.values()]`, in the order `order` lists the keys. */
  function Tempos(features: map<string, AudioFeature>, order: seq<string>): (r: seq<real>)
    reads features.Values
    requires forall i :: 0 <= i < |order| ==> order[i] in features
    ensures |r| == |order| && forall i :: 0 <= i < |order| ==> r[i] == features[order[i]].tempo
  {
    if order == [] then []
    else Tempos(features, order[..|order| - 1]) + [features[order[|order| - 1]].tempo]
  }

  /** `f['loudness'] = x`: only the loudness changes. */
  method SetLoudness(f: AudioFeature, x: real)
    modifies f
    ensures FeatureServices.StateOf(f) == old(FeatureServices.StateOf(f)).(numbers := old(FeatureServices.StateOf(f)).numbers.(loudness := x))
  {
    LabelPositions();
    ghost var v0 := f.Values();
    var r := f.SetItem(StrKey("loudness"), Scalar(x));
    ghost var v1 := f.Values();
    assert v1 == v0[2 := Scalar(x)];
    assert v1[0] == v0[0] && v1[1] == v0[1] && v1[3] == v0[3] && v1[4] == v0[4] && v1[5] == v0[5];
    assert v1[6] == v0[6] && v1[7] == v0[7] && v1[8] == v0[8] && v1[9] == v0[9] && v1[2] == Scalar(x);
    assert f.extra == old(f.extra);
  }

  /** `f['tempo'] = x`: only the tempo changes. */
  method SetTempo(f: AudioFeature, x: real)
    modifies f
    ensures FeatureServices.StateOf(f) == old(FeatureServices.StateOf(f)).(numbers := old(FeatureServices.StateOf(f)).numbers.(tempo := x))
  {
    LabelPositions();
    ghost var v0 := f.Values();
    var r := f.SetItem(StrKey("tempo"), Scalar(x));
    ghost var v1 := f.Values();
    assert v1 == v0[8 := Scalar(x)];
    assert v1[0] == v0[0] && v1[1] == v0[1] && v1[2] == v0[2] && v1[3] == v0[3] && v1[4] == v0[4];
    assert v1[5] == v0[5] && v1[6] == v0[6] && v1[7] == v0[7] && v1[9] == v0[9] && v1[8] == Scalar(x);
    assert f.extra == old(f.extra);
  }

  /** The loop body: `f['loudness'] = …` and `f['tempo'] = …`, each read
      and written through the label-keyed item access. */
  method NormalizeOne(f: AudioFeature, minTempo: real, diffTempo: real)
    requires diffTempo != 0.0
    modifies f
    ensures FeatureServices.StateOf(f) == Normalized(old(FeatureServices.StateOf(f)), minTempo, diffTempo)
  {
    LabelPositions();
    var loudness := f.GetItem(StrKey("loudness"));
    SetLoudness(f, Loudness(loudness.value.x));
    var tempo := f.GetItem(StrKey("tempo"));
    SetTempo(f, Tempo(tempo.value.x, minTempo, diffTempo));
  }

  /** The loop over `data.values()`: every object is normalised once. The
      uris of `order` are distinct and own distinct objects, so each step
      leaves the objects already visited alone. */
  method NormalizeAll(fs: FeatureServices.FeatureService, order: seq<string>, minTempo: real, diffTempo: real)
    requires fs.Valid() && diffTempo != 0.0
    requires Distinct(order) && forall u :: u in fs.features <==> u in order
    modifies fs.features.Values
    ensures fs.features == old(fs.features)
    ensures forall u :: u in fs.features ==>
              FeatureServices.StateOf(fs.features[u]) == Normalized(old(FeatureServices.StateOf(fs.features[u])), minTempo, diffTempo)
  {
    var k := 0;
    while k < |order|
      invariant 0 <= k <= |order|
      invariant forall i :: 0 <= i < |order| ==>
                  FeatureServices.StateOf(fs.features[order[i]]) ==
                  if i < k then Normalized(old(FeatureServices.StateOf(fs.features[order[i]])), minTempo, diffTempo)
                  else old(FeatureServices.StateOf(fs.features[order[i]]))
    {
      var f := fs.features[order[k]];
      NormalizeOne(f, minTempo, diffTempo);
      forall i | 0 <= i < |order| && i != k
        ensures fs.features[order[i]] != f
      {
        fs.Unshared(order[i], order[k]);
      }
      k := k + 1;
    }
    forall u | u in fs.features
      ensures FeatureServices.StateOf(fs.features[u]) == Normalized(old(FeatureServices.StateOf(fs.features[u])), minTempo, diffTempo)
    {
      var i :| 0 <= i < |order| && order[i] == u;
    }
  }

  /** `tempo = [f['tempo'] for f in data.values()]` with its `min()` and
      `max()`: `order` lists every uri once, and over a non-empty table
      `slowest` and `fastest` name uris holding the smallest and the largest
      tempo. */
  method TempoRange(fs: FeatureServices.FeatureService)
    returns (order: seq<string>, minTempo: real, maxTempo: real, ghost slowest: string, ghost fastest: string)
    ensures Distinct(order) && (forall u :: u in fs.features <==> u in order)
    ensures order == [] <==> fs.features == map[]
    ensures order != [] ==>
              slowest in fs.features && fastest in fs.features &&
              minTempo == fs.features[slowest].tempo && maxTempo == fs.features[fastest].tempo &&
              forall u :: u in fs.features ==> minTempo <= fs.features[u].tempo <= maxTempo
  {
    order := Enumerate(fs.features.Keys);
    var tempo := Tempos(fs.features, order);
    if |tempo| == 0 {
      assert fs.features.Keys == {};
      return [], 0.0, 0.0, "", "";
    }
    var lo, hi := MinIndex(tempo), MaxIndex(tempo);
    slowest, fastest := order[lo], order[hi];
    minTempo, maxTempo := tempo[lo], tempo[hi];
    forall u | u in fs.features
      ensures minTempo <= fs.features[u].tempo <= maxTempo
    {
      var i :| 0 <= i < |order| && order[i] == u;
      assert tempo[i] == fs.features[u].tempo;
    }
  }

  class NormalizedFeatureService {
    const filepath: string
    /** After loading, the very dictionary of the feature service. */
    var features: map<string, AudioFeature>

    constructor (cachedPath: string)
      ensures filepath == CacheFile(cachedPath) && features == map[]
    {
      filepath := CacheFile(cachedPath);
      features := map[];
    }

    /** `load_from_data`: the tempos are collected (an empty table makes
        `min` raise `ValueError`), then every object's loudness and tempo
        are rescaled in place and `features` becomes the service's own
        dictionary. `slowest` and `fastest` name uris holding the smallest
        and the largest tempo. */
    method LoadFromData(fs: FeatureServices.FeatureService) returns (r: Outcome, ghost slowest: string, ghost fastest: string)
      requires fs.Valid()
      modifies this, fs.features.Values
      ensures fs.features == old(fs.features)
      ensures fs.features != map[] ==>
                slowest in fs.features && fastest in fs.features &&
                forall u :: u in fs.features ==>
                  old(fs.features[slowest].tempo) <= old(fs.features[u].tempo) <= old(fs.features[fastest].tempo)
      ensures r == Fail(ValueError) <==> fs.features == map[]
      ensures r == Fail(ZeroDivisionError) <==>
                fs.features != map[] && old(fs.features[slowest].tempo) == old(fs.features[fastest].tempo)
      ensures r.Fail? ==> r.error in {ValueError, ZeroDivisionError} && features == old(features)
      ensures r.Fail? ==> forall u :: u in fs.features ==> FeatureServices.StateOf(fs.features[u]) == old(FeatureServices.StateOf(fs.features[u]))
      ensures r.Pass? ==> features == fs.features
      ensures r.Pass? ==>
                var lo, hi := old(fs.features[slowest].tempo), old(fs.features[fastest].tempo);
                lo < hi &&
                forall u :: u in fs.features ==> FeatureServices.StateOf(fs.features[u]) == Normalized(old(FeatureServices.StateOf(fs.features[u])), lo, hi - lo)
    {
      var order, minTempo, maxTempo;
      order, minTempo, maxTempo, slowest, fastest := TempoRange(fs);
      if order == [] {
        return Fail(ValueError), slowest, fastest;
      }
      var diffTempo := maxTempo - minTempo;
      if diffTempo == 0.0 {
        return Fail(ZeroDivisionError), slowest, fastest;
      }
      NormalizeAll(fs, order, minTempo, diffTempo);
      features := fs.features;
      r := Pass;
    }

    /** `item in service` */
    function Contains(item: FeatureServices.Item): (r: bool)
      reads this
      ensures r <==> FeatureServices.UriOf(item) in features
      ensures r <==> GetItem(item).Success?
    {
      FeatureServices.UriOf(item) in features
    }

    /** `service[item]`: the object stored under the item's uri, or `KeyError`. */
    function GetItem(item: FeatureServices.Item): (r: Result<AudioFeature>)
      reads this
      ensures r.Success? <==> FeatureServices.UriOf(item) in features
      ensures r.Success? ==> r.value == features[FeatureServices.UriOf(item)]
      ensures r.Failure? ==> r.error == KeyError
    {
      if FeatureServices.UriOf(item) in features then Success(features[FeatureServices.UriOf(item)]) else Failure(KeyError)
    }
  }

  /** After a successful load every object's loudness and tempo lie in
      [0, 1], the slowest track's tempo is 0 and the fastest one's 1. */
  lemma LoadedInUnit(before: map<string, FeatureServices.State>, after: map<string, FeatureServices.State>, slowest: string, fastest: string)
    requires slowest in before && fastest in before
    requires forall u :: u in before ==> before[slowest].numbers.tempo <= before[u].numbers.tempo <= before[fastest].numbers.tempo
    requires before[slowest].numbers.tempo < before[fastest].numbers.tempo
    requires forall u :: u in after <==> u in before
    requires forall u :: u in before ==>
               after[u] == Normalized(before[u], before[slowest].numbers.tempo,
                                      before[fastest].numbers.tempo - before[slowest].numbers.tempo)
    ensures forall u :: u in after ==>
              0.0 <= after[u].numbers.loudness <= 1.0 && 0.0 <= after[u].numbers.tempo <= 1.0
    ensures after[slowest].numbers.tempo == 0.0 && after[fastest].numbers.tempo == 1.0
  {
    var lo, hi := before[slowest].numbers.tempo, before[fastest].numbers.tempo;
    forall u | u in after
      ensures 0.0 <= after[u].numbers.loudness <= 1.0 && 0.0 <= after[u].numbers.tempo <= 1.0
    {
      NormalizedInUnit(before[u], lo, hi);
    }
    NormalizedInUnit(before[slowest], lo, hi);
    NormalizedInUnit(before[fastest], lo, hi);
  }
}
