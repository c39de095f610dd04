// services/track_service.py: the table interning one `Track` per track id.

module TrackServices {
  import opened Common
  import opened Tracks

  /** The number of the first `k` added tracks with id `id`. */
  function CountOf(calls: seq<Track>, k: nat, id: string): nat
    requires k <= |calls|
  {
    if k == 0 then 0 else CountOf(calls, k - 1, id) + (if calls[k - 1].trackId == id then 1 else 0)
  }

  /** The first of the first `k` added tracks with id `id`. */
  function FirstOf(calls: seq<Track>, k: nat, id: string): Option<Track>
    requires k <= |calls|
  {
    if k == 0 then None
    else
      var first := FirstOf(calls, k - 1, id);
      if first.Some? then first
      else if calls[k - 1].trackId == id then Some(calls[k - 1])
      else None
  }

  /** An id has a first track exactly when it was added, and that track
      has the id. */
  lemma {:induction false} FirstOfCounted(calls: seq<Track>, k: nat, id: string)
    requires k <= |calls|
    ensures FirstOf(calls, k, id).Some? <==> CountOf(calls, k, id) > 0
    ensures FirstOf(calls, k, id).Some? ==> FirstOf(calls, k, id).value.trackId == id
  {
    if k > 0 {
      FirstOfCounted(calls, k - 1, id);
    }
  }

  /** The first track of an id is the earliest one added with that id. */
  lemma FirstOfIsEarliest(calls: seq<Track>, k: nat, id: string)
    requires k <= |calls| && FirstOf(calls, k, id).Some?
    ensures exists j :: 0 <= j < k && calls[j] == FirstOf(calls, k, id).value &&
              (forall i :: 0 <= i < j ==> calls[i].trackId != id)
  {
    var j := EarliestIndex(calls, k, id);
  }

  /** The position of the first track of an id. */
  lemma {:induction false} EarliestIndex(calls: seq<Track>, k: nat, id: string) returns (j: nat)
    requires k <= |calls| && FirstOf(calls, k, id).Some?
    ensures j < k && calls[j] == FirstOf(calls, k, id).value
    ensures forall i :: 0 <= i < j ==> calls[i].trackId != id
  {
    if FirstOf(calls, k - 1, id).Some? {
      j := EarliestIndex(calls, k - 1, id);
    } else {
      j := k - 1;
      forall i | 0 <= i < j ensures calls[i].trackId != id {
        NoneBefore(calls, k - 1, id, i);
      }
    }
  }

  /** No track before position `k` has an id without a first track. */
  lemma {:induction false} NoneBefore(calls: seq<Track>, k: nat, id: string, i: nat)
    requires k <= |calls| && i < k && FirstOf(calls, k, id).None?
    ensures calls[i].trackId != id
  {
    if i < k - 1 {
      NoneBefore(calls, k - 1, id, i);
    }
  }

  /** Adding a track leaves the first track of every id that was added
      before. */
  lemma FirstOfSnoc(calls: seq<Track>, t: Track, id: string)
    ensures FirstOf(calls + [t], |calls| + 1, id) ==
              if FirstOf(calls, |calls|, id).Some? then FirstOf(calls, |calls|, id)
              else if t.trackId == id then Some(t) else None
    ensures CountOf(calls + [t], |calls| + 1, id) == CountOf(calls, |calls|, id) + (if t.trackId == id then 1 else 0)
  {
    PrefixAgrees(calls, t, |calls|, id);
  }

  /** The counts and first tracks of a prefix do not see what follows. */
  lemma {:induction false} PrefixAgrees(calls: seq<Track>, t: Track, k: nat, id: string)
    requires k <= |calls|
    ensures FirstOf(calls + [t], k, id) == FirstOf(calls, k, id)
    ensures CountOf(calls + [t], k, id) == CountOf(calls, k, id)
  {
    if k > 0 {
      PrefixAgrees(calls, t, k - 1, id);
    }
  }

  /** The track `add_track` hands back for `t` once `calls` were added: the
      first one added with its id, or `t` itself when none was. */
  function Interned(calls: seq<Track>, t: Track): (r: Track)
    ensures r.trackId == t.trackId
  {
    FirstOfCounted(calls, |calls|, t.trackId);
    match FirstOf(calls, |calls|, t.trackId)
    case Some(first) => first
    case None => t
  }

  /** An id that was added has a first track. */
  lemma {:induction false} FirstOfPresent(calls: seq<Track>, k: nat, j: nat)
    requires j < k <= |calls|
    ensures FirstOf(calls, k, calls[j].trackId).Some?
  {
    if j < k - 1 {
      FirstOfPresent(calls, k - 1, j);
    }
  }

  /** Later calls do not change the first track of an id already added. */
  lemma {:induction false} FirstOfAppend(calls: seq<Track>, more: seq<Track>, id: string)
    requires FirstOf(calls, |calls|, id).Some?
    ensures FirstOf(calls + more, |calls + more|, id) == FirstOf(calls, |calls|, id)
    decreases |more|
  {
    if more == [] {
      assert calls + more == calls;
    } else {
      var front, last := more[..|more| - 1], more[|more| - 1];
      assert calls + more == (calls + front) + [last];
      FirstOfAppend(calls, front, id);
      FirstOfSnoc(calls + front, last, id);
    }
  }

  /** Once a track was handed back it stays the one handed back for its id. */
  lemma InternedAppend(calls: seq<Track>, more: seq<Track>, t: Track)
    requires FirstOf(calls, |calls|, t.trackId).Some?
    ensures Interned(calls + more, t) == Interned(calls, t)
  {
    FirstOfAppend(calls, more, t.trackId);
  }

  /** Both tables have the ids added so far as keys; `count` counts the calls
      with an id and `tracks` holds the first call's track. */
  ghost predicate Interns(tracks: map<string, Track>, count: map<string, nat>, calls: seq<Track>)
  {
    tracks.Keys == count.Keys && forall id :: InternsAt(tracks, count, calls, id)
  }

  /** What the tables say about one id. */
  ghost predicate InternsAt(tracks: map<string, Track>, count: map<string, nat>, calls: seq<Track>, id: string)
  {
    (id in tracks <==> id in count) &&
    (id in count <==> CountOf(calls, |calls|, id) > 0) &&
    (id in count ==> count[id] == CountOf(calls, |calls|, id)) &&
    (id in tracks ==> FirstOf(calls, |calls|, id) == Some(tracks[id]))
  }

  /** Adding a known track bumps its count and keeps the tables
      describing the calls. */
  lemma InternsKnown(tracks: map<string, Track>, count: map<string, nat>, calls: seq<Track>, t: Track)
    requires Interns(tracks, count, calls) && t.trackId in tracks
    ensures Interns(tracks, count[t.trackId := count[t.trackId] + 1], calls + [t])
    ensures FirstOf(calls + [t], |calls| + 1, t.trackId) == Some(tracks[t.trackId])
    ensures tracks[t.trackId].trackId == t.trackId
  {
    var id, calls', count' := t.trackId, calls + [t], count[t.trackId := count[t.trackId] + 1];
    forall x ensures InternsAt(tracks, count', calls', x) {
      assert InternsAt(tracks, count, calls, x);
      FirstOfSnoc(calls, t, x);
    }
    assert InternsAt(tracks, count, calls, id);
    FirstOfSnoc(calls, t, id);
    FirstOfCounted(calls, |calls|, id);
  }

  /** Adding a new track stores it with count one and keeps the tables
      describing the calls. */
  lemma InternsNew(tracks: map<string, Track>, count: map<string, nat>, calls: seq<Track>, t: Track)
    requires Interns(tracks, count, calls) && t.trackId !in tracks
    ensures Interns(tracks[t.trackId := t], count[t.trackId := 1], calls + [t])
    ensures FirstOf(calls + [t], |calls| + 1, t.trackId) == Some(t)
  {
    var id, calls', tracks', count' := t.trackId, calls + [t], tracks[t.trackId := t], count[t.trackId := 1];
    forall x ensures InternsAt(tracks', count', calls', x) {
      assert InternsAt(tracks, count, calls, x);
      FirstOfSnoc(calls, t, x);
      if x == id {
        FirstOfCounted(calls, |calls|, id);
      }
    }
    assert InternsAt(tracks, count, calls, id);
    FirstOfSnoc(calls, t, id);
    FirstOfCounted(calls, |calls|, id);
  }

  class TrackService {
    /** `tracks`: track id to the first track added with it. */
    var tracks: map<string, Track>
    /** `count`: track id to the number of times it was added. */
    var count: map<string, nat>
    /** The tracks `add_track` received, in order. */
    ghost var calls: seq<Track>

    /** Both tables describe the tracks added so far. */
    ghost predicate Valid()
      reads this
    {
      Interns(tracks, count, calls)
    }

    constructor ()
      ensures Valid() && tracks == map[] && count == map[] && calls == []
    {
      tracks := map[];
      count := map[];
      calls := [];
    }

    /** `add_track`: a known id bumps its count and returns the stored
        track; a new id stores the track with count one. */
    method AddTrack(track: Track) returns (r: Track)
      requires Valid()
      modifies this
      ensures Valid() && calls == old(calls) + [track]
      ensures FirstOf(calls, |calls|, track.trackId) == Some(r) && r.trackId == track.trackId
      ensures track.trackId in old(tracks) ==>
                r == old(tracks)[track.trackId] && tracks == old(tracks) &&
                count == old(count)[track.trackId := old(count)[track.trackId] + 1]
      ensures track.trackId !in old(tracks) ==>
                r == track && tracks == old(tracks)[track.trackId := track] &&
                count == old(count)[track.trackId := 1]
    {
      var id := track.trackId;
      if id in tracks {
        InternsKnown(tracks, count, calls, track);
        count := count[id := count[id] + 1];
        r := tracks[id];
      } else {
        InternsNew(tracks, count, calls, track);
        tracks := tracks[id := track];
        count := count[id := 1];
        r := track;
      }
      calls := calls + [track];
    }

    /** `get_popularity`: the number of times the track's id was added; an
        id never added raises `KeyError`. */
    function GetPopularity(track: Track): (r: Result<nat>)
      reads this
      ensures Valid() ==> (r.Success? <==> CountOf(calls, |calls|, track.trackId) > 0)
      ensures Valid() && r.Success? ==> r.value == CountOf(calls, |calls|, track.trackId)
      ensures r.Failure? ==> r.error == KeyError
    {
      assert Valid() ==> InternsAt(tracks, count, calls, track.trackId);
      if track.trackId in count then Success(count[track.trackId]) else Failure(KeyError)
    }
  }
}
