/** The plain records of the pipeline: tracks, track metadata, playlists and
    the audio features of one track. Track and TrackInfo compare by id, a
    Playlist by playlist id; an AudioFeature is a mutable object indexed by
    label name or by label position. */

module Tracks {
  import opened Common

  /** One track as a playlist lists it. */
  datatype Track = Track(trackId: string, artistId: string, albumId: string, duration: int)

  /** The right-hand side of `track == other`: an object that has a
      `track_id` attribute, a `str`, or anything else. */
  datatype Operand = WithTrackId(trackId: string) | Str(s: string) | Other

  function AsOperand(t: Track): Operand {
    WithTrackId(t.trackId)
  }

  /** `Track.__eq__`: equal ids against an object with a `track_id`, the
      id itself against a `str`, and `ValueError` for anything else. */
  function Equals(t: Track, other: Operand): (r: Result<bool>)
    ensures r.Failure? <==> other.Other?
    ensures r.Failure? ==> r.error == ValueError
    ensures other.WithTrackId? ==> (r == Success(true) <==> t.trackId == other.trackId)
    ensures other.Str? ==> (r == Success(true) <==> t.trackId == other.s)
  {
    match other
    case WithTrackId(id) => Success(t.trackId == id)
    case Str(s) => Success(t.trackId == s)
    case Other => Failure(ValueError)
  }

  /** `Track.__hash__`: the hash of the id string, for a given string hash. */
  function Hash(t: Track, strHash: string -> int): int {
    strHash(t.trackId)
  }

  /** Equal tracks hash equal, and a track hashes like the id string it
      equals, so a track can look up a dict keyed by id strings. */
  lemma HashAgreesWithEquals(t: Track, other: Operand, strHash: string -> int)
    requires Equals(t, other) == Success(true)
    ensures other.WithTrackId? ==> Hash(t, strHash) == strHash(other.trackId)
    ensures other.Str? ==> Hash(t, strHash) == strHash(other.s)
  {
  }

  /** Equality between tracks is an equivalence relation that ignores every
      field except the id. */
  lemma EqualsIsIdEquivalence(a: Track, b: Track, c: Track)
    ensures Equals(a, AsOperand(a)) == Success(true)
    ensures Equals(a, AsOperand(b)) == Equals(b, AsOperand(a))
    ensures Equals(a, AsOperand(b)) == Success(true) && Equals(b, AsOperand(c)) == Success(true)
            ==> Equals(a, AsOperand(c)) == Success(true)
  {
  }
}

module TrackInfos {
  import opened Common

  /** Metadata of one track from the track dump. */
  datatype TrackInfo = TrackInfo(
    trackId: string,
    name: string,
    album: string,
    duration: int,
    explicit: Option<bool>,
    isLocal: Option<bool>,
    popularity: Option<int>,
    artistIds: set<string>)

  /** The right-hand side of `info == other`. */
  datatype Operand = WithTrackId(trackId: string) | Str(s: string) | Other

  /** `TrackInfo.__eq__`: compares ids like `Track.__eq__`. */
  function Equals(t: TrackInfo, other: Operand): (r: Result<bool>)
    ensures r.Failure? <==> other.Other?
    ensures r.Failure? ==> r.error == ValueError
    ensures other.WithTrackId? ==> (r == Success(true) <==> t.trackId == other.trackId)
    ensures other.Str? ==> (r == Success(true) <==> t.trackId == other.s)
  {
    match other
    case WithTrackId(id) => Success(t.trackId == id)
    case Str(s) => Success(t.trackId == s)
    case Other => Failure(ValueError)
  }

  /** `TrackInfo.__hash__` */
  function Hash(t: TrackInfo, strHash: string -> int): int {
    strHash(t.trackId)
  }

  lemma HashAgreesWithEquals(t: TrackInfo, other: Operand, strHash: string -> int)
    requires Equals(t, other) == Success(true)
    ensures other.WithTrackId? ==> Hash(t, strHash) == strHash(other.trackId)
    ensures other.Str? ==> Hash(t, strHash) == strHash(other.s)
  {
  }
}

module Playlists {
  import opened Common
  import opened Tracks

  /** A playlist: its fields, its tracks in order, and `_tracks`, the set
      of its tracks; tracks compare by id, so that set is a set of ids. */
  datatype Playlist = Playlist(
    playlistId: int,
    title: string,
    nbTracks: int,
    nbFavorites: int,
    isCollaborative: bool,
    modifiedAt: int,
    tracks: seq<Track>,
    trackSet: set<string>)

  function TrackIds(tracks: seq<Track>): (r: set<string>)
    ensures forall k :: 0 <= k < |tracks| ==> tracks[k].trackId in r
    ensures forall id :: id in r ==> exists k :: 0 <= k < |tracks| && tracks[k].trackId == id
  {
    set k | 0 <= k < |tracks| :: tracks[k].trackId
  }

  /** `Playlist.__init__`: stores the fields and builds the track set. */
  function NewPlaylist(playlistId: int, title: string, nbTracks: int, nbFavorites: int,
                       isCollaborative: bool, modifiedAt: int, tracks: seq<Track>): (p: Playlist)
    ensures p.playlistId == playlistId && p.title == title && p.nbTracks == nbTracks
    ensures p.nbFavorites == nbFavorites && p.isCollaborative == isCollaborative
    ensures p.modifiedAt == modifiedAt && p.tracks == tracks
    ensures forall t: Track :: Contains(p, t) <==> exists k :: 0 <= k < |tracks| && tracks[k].trackId == t.trackId
  {
    Playlist(playlistId, title, nbTracks, nbFavorites, isCollaborative, modifiedAt, tracks, TrackIds(tracks))
  }

  /** `t in p`: membership in the track set, which compares by id. */
  predicate Contains(p: Playlist, t: Track) {
    t.trackId in p.trackSet
  }

  /** The right-hand side of `playlist == other`: an object with a
      `playlist_id`, an `int`, or anything else. */
  datatype Operand = WithPlaylistId(playlistId: int) | IntValue(i: int) | Other

  /** `Playlist.__eq__` */
  function Equals(p: Playlist, other: Operand): (r: Result<bool>)
    ensures r.Failure? <==> other.Other?
    ensures r.Failure? ==> r.error == ValueError
    ensures other.WithPlaylistId? ==> (r == Success(true) <==> p.playlistId == other.playlistId)
    ensures other.IntValue? ==> (r == Success(true) <==> p.playlistId == other.i)
  {
    match other
    case WithPlaylistId(id) => Success(p.playlistId == id)
    case IntValue(i) => Success(p.playlistId == i)
    case Other => Failure(ValueError)
  }

  /** `Playlist.__hash__`: the playlist id itself. */
  function Hash(p: Playlist): int {
    p.playlistId
  }

  /** Equal playlists hash equal, and a playlist hashes like the int it equals. */
  lemma HashAgreesWithEquals(p: Playlist, other: Operand)
    requires Equals(p, other) == Success(true)
    ensures other.WithPlaylistId? ==> Hash(p) == other.playlistId
    ensures other.IntValue? ==> Hash(p) == other.i
  {
  }

  /** A playlist split for evaluation: the shown tracks and the hidden ones. */
  datatype PlaylistTest = PlaylistTest(playlist: Playlist, hidden: seq<Track>)

  /** `PlaylistTest.__init__`: copies the source playlist's fields, takes
      the given tracks as its own and stores the hidden ones. */
  function NewPlaylistTest(source: Playlist, tracks: seq<Track>, hidden: seq<Track>): (r: PlaylistTest)
    ensures r.playlist.playlistId == source.playlistId && r.playlist.title == source.title
    ensures r.playlist.nbTracks == source.nbTracks && r.playlist.nbFavorites == source.nbFavorites
    ensures r.playlist.isCollaborative == source.isCollaborative
    ensures r.playlist.modifiedAt == source.modifiedAt
    ensures r.playlist.tracks == tracks && r.hidden == hidden
    ensures forall t: Track :: Contains(r.playlist, t) <==> exists k :: 0 <= k < |tracks| && tracks[k].trackId == t.trackId
  {
    PlaylistTest(NewPlaylist(source.playlistId, source.title, source.nbTracks, source.nbFavorites,
                             source.isCollaborative, source.modifiedAt, tracks), hidden)
  }
}

module AudioFeatures {
  import opened Common

  /** The ten feature labels, in the order that fixes their indices. */
  const FeatureLabels: seq<string> :=
    ["danceability", "energy", "loudness", "speechiness", "acousticness",
     "instrumentalness", "liveness", "valence", "tempo", "tonality"]

  const TonalityIndex: nat := 9

  /** `feature_labels[name]`: the index of a label. */
  function LabelIndex(name: string): Option<nat> {
    IndexOf(FeatureLabels, name)
  }

  /** `feature_labels.inv[i]`: the label at an index. */
  function LabelAt(i: int): Option<string> {
    if 0 <= i < |FeatureLabels| then Some(FeatureLabels[i]) else None
  }

  lemma LabelsDistinct()
    ensures |FeatureLabels| == 10
    ensures Distinct(FeatureLabels)
  {
  }

  /** The label map is a bijection between the ten labels and 0..9, and its
      two directions are inverse to each other. */
  lemma LabelMapIsBijective(name: string, i: int)
    ensures LabelAt(i).Some? <==> 0 <= i < 10
    ensures LabelIndex(name).Some? <==> name in FeatureLabels
    ensures LabelAt(i) == Some(name) <==> LabelIndex(name) == Some(i)
    ensures LabelIndex("tonality") == Some(TonalityIndex)
  {
    LabelsDistinct();
    if LabelIndex(name) == Some(i) {
      assert LabelAt(i) == Some(name);
    }
    if LabelAt(i) == Some(name) {
      var j :| LabelIndex(name) == Some(j);
      assert FeatureLabels[j] == name == FeatureLabels[i];
    }
    assert FeatureLabels[9] == "tonality";
    assert "tonality" !in FeatureLabels[..9];
  }

  /** A key's musical mode and pitch class, stored as the pair `(mode, key)`. */
  datatype Tonality = Tonality(mode: int, key: int)

  /** What one label holds: a number, or the tonality pair. */
  datatype FeatureValue = Scalar(x: real) | Tone(t: Tonality)

  /** The index of `feature[item]`: an `int`, a `str`, or another type. */
  datatype Key = IntKey(i: int) | StrKey(s: string) | OtherKey

  /** The audio features of one track. */
  class AudioFeature {
    var danceability: real
    var energy: real
    var loudness: real
    var speechiness: real
    var acousticness: real
    var instrumentalness: real
    var liveness: real
    var valence: real
    var tempo: real
    var tonality: Tonality
    /** Attributes that `setattr` added under names that are not labels. */
    var extra: map<string, FeatureValue>

    constructor (danceability: real, energy: real, loudness: real, speechiness: real,
                 acousticness: real, instrumentalness: real, liveness: real, valence: real,
                 tempo: real, mode: int, key: int)
      ensures this.danceability == danceability && this.energy == energy
      ensures this.loudness == loudness && this.speechiness == speechiness
      ensures this.acousticness == acousticness && this.instrumentalness == instrumentalness
      ensures this.liveness == liveness && this.valence == valence && this.tempo == tempo
      ensures this.tonality == Tonality(mode, key) && extra == map[]
    {
      this.danceability := danceability;
      this.energy := energy;
      this.loudness := loudness;
      this.speechiness := speechiness;
      this.acousticness := acousticness;
      this.instrumentalness := instrumentalness;
      this.liveness := liveness;
      this.valence := valence;
      this.tempo := tempo;
      this.tonality := Tonality(mode, key);
      this.extra := map[];
    }

    /** `getattr(self, feature_labels.inv[i])`: the attribute of label `i`. */
    function FieldAt(i: nat): FeatureValue
      reads this`danceability, this`energy, this`loudness, this`speechiness, this`acousticness,
            this`instrumentalness, this`liveness, this`valence, this`tempo, this`tonality
      requires i < 10
    {
      match i
      case 0 => Scalar(danceability)
      case 1 => Scalar(energy)
      case 2 => Scalar(loudness)
      case 3 => Scalar(speechiness)
      case 4 => Scalar(acousticness)
      case 5 => Scalar(instrumentalness)
      case 6 => Scalar(liveness)
      case 7 => Scalar(valence)
      case 8 => Scalar(tempo)
      case _ => Tone(tonality)
    }

    /** The label index an item resolves to, when it names one of the ten labels. */
    static function IndexFor(item: Key): Option<nat> {
      match item
      case IntKey(i) => if 0 <= i < 10 then Some(i) else None
      case StrKey(s) => LabelIndex(s)
      case OtherKey => None
    }

    /** `__getitem__`: an int goes through the inverse label map (an
        unknown index is a `KeyError`), a str names the attribute directly
        (an unknown name is an `AttributeError`), any other key type is a
        `KeyError`. */
    function GetItem(item: Key): (r: Result<FeatureValue>)
      reads this
      ensures IndexFor(item).Some? ==> r == Success(FieldAt(IndexFor(item).value))
      ensures IndexFor(item).None? ==>
                r == (if item.StrKey? && item.s in extra then Success(extra[item.s])
                      else Failure(if item.StrKey? then AttributeError else KeyError))
    {
      match item
      case IntKey(i) =>
        (match LabelAt(i)
         case Some(_) => Success(FieldAt(i))
         case None => Failure(KeyError))
      case StrKey(s) =>
        (match LabelIndex(s)
         case Some(i) => Success(FieldAt(i))
         case None => if s in extra then Success(extra[s]) else Failure(AttributeError))
      case OtherKey => Failure(KeyError)
    }

    /** `__iter__`: the ten values in label order; the i-th is `self[i]`. */
    function Values(): (r: seq<FeatureValue>)
      reads this
      ensures |r| == 10
      ensures forall i :: 0 <= i < 10 ==> GetItem(IntKey(i)) == Success(r[i])
      ensures r[TonalityIndex] == Tone(tonality)
      ensures forall i :: 0 <= i < 9 ==> r[i].Scalar?
    {
      [Scalar(danceability), Scalar(energy), Scalar(loudness), Scalar(speechiness),
       Scalar(acousticness), Scalar(instrumentalness), Scalar(liveness), Scalar(valence),
       Scalar(tempo), Tone(tonality)]
    }

    /** True when `v` has the kind label `i` holds: the pair for tonality,
        a number for every other label. */
    static predicate Fits(i: nat, v: FeatureValue) {
      if i == TonalityIndex then v.Tone? else v.Scalar?
    }

    /** Stores `v` as the attribute of label `i`; the other labels are untouched. */
    method SetField(i: nat, v: FeatureValue)
      requires i < 10 && Fits(i, v)
      modifies this
      ensures FieldAt(i) == v
      ensures forall j :: 0 <= j < 10 && j != i ==> FieldAt(j) == old(FieldAt(j))
      ensures extra == old(extra)
      ensures Values() == old(Values())[i := v]
    {
      match i {
        case 0 => danceability := v.x;
        case 1 => energy := v.x;
        case 2 => loudness := v.x;
        case 3 => speechiness := v.x;
        case 4 => acousticness := v.x;
        case 5 => instrumentalness := v.x;
        case 6 => liveness := v.x;
        case 7 => valence := v.x;
        case 8 => tempo := v.x;
        case _ => tonality := v.t;
      }
    }

    /** `setattr` under a name that is not a label. */
    method SetExtra(name: string, v: FeatureValue)
      modifies this
      ensures extra == old(extra)[name := v]
      ensures forall j :: 0 <= j < 10 ==> FieldAt(j) == old(FieldAt(j))
    {
      extra := extra[name := v];
    }

    /** `__setitem__`: resolves the key as `__getitem__` does and stores
        the value; afterwards `self[item]` is the value and every other
        attribute is unchanged. A name that is not a label adds an
        attribute, as `setattr` does. */
    method SetItem(item: Key, value: FeatureValue) returns (r: Outcome)
      modifies this
      ensures item.OtherKey? ==> r == Fail(KeyError)
      ensures item.IntKey? && !(0 <= item.i < 10) ==> r == Fail(KeyError)
      ensures r.Pass? <==> (IndexFor(item).Some? && Fits(IndexFor(item).value, value)) ||
                           (item.StrKey? && IndexFor(item).None?)
      ensures r.Pass? ==> GetItem(item) == Success(value)
      ensures r.Pass? ==> forall j :: 0 <= j < 10 && Some(j) != IndexFor(item) ==> FieldAt(j) == old(FieldAt(j))
      ensures r.Pass? ==> extra == if IndexFor(item).Some? then old(extra) else old(extra)[item.s := value]
      ensures r.Pass? && IndexFor(item).Some? ==> Values() == old(Values())[IndexFor(item).value := value]
      ensures r.Fail? ==> unchanged(this)
    {
      match IndexFor(item) {
        case Some(i) =>
          if !Fits(i, value) { return Fail(TypeError); }
          SetField(i, value);
          assert GetItem(item) == Success(FieldAt(i));
          r := Pass;
        case None =>
          if item.StrKey? {
            SetExtra(item.s, value);
            r := Pass;
          } else {
            r := Fail(KeyError);
          }
      }
    }
  }
}
