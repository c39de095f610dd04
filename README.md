# plcoh in Dafny

plcoh measures the *coherence* of music playlists: how much more alike
adjacent tracks are than arbitrary pairs of tracks of the same playlist.
For every audio feature it compares a sequential variance (pairs `d`
apart) with an all-pairs variance. It combines the two as
`1 - sequential / pairwise` and puts the coherences, with the playlist's
length, edit count, popularity and collaboration flag, into one table,
on which causal effects are estimated.

This project models the deterministic core of that pipeline and proves
properties of it. One module per source file:

- `Common` (common.dfy): results and error kinds, a float with a NaN
  marker, `os.path.join`, `str.split`, integer formatting, set iteration.
- `Tracks`, `TrackInfos`, `Playlists`, `AudioFeatures` (ppo.dfy): the
  records in `ppo/`, with id-based equality and hashing and the
  label-to-index map of `AudioFeature`. `AudioFeature` is a class, because
  `__setitem__` updates it in place.
- `TrackServices` (track_service.dfy): the interning table of `add_track`.
- `TrackInfoServices` (track_info_service.dfy): the track-info row parser
  and the table that loading fills.
- `PlaylistServices` (playlist_service.dfy): one JSON record to a
  `Playlist`, the length filter and the size cap of `load_from_data`.
- `FeatureRows`, `FeatureServices` (feature_rows.dfy, feature_service.dfy):
  the row validator `line_to_feature`, the file-name filter and the feature
  table.
- `NormalizedFeatures` (normalized_feature_service.dfy): the loudness clamp
  and cube and the tempo min-max rescaling, done in place.
- `VarianceUtil` (variance_util.dfy): the variance engine. The two
  accumulation loops are methods proved against recursive specification
  functions. Also the Jaccard distance, the pair and tonality distances
  and `get_coherence`.
- `PyRandom` (random.dfy): `random.shuffle` as the Fisher-Yates loop on an
  array, drawing from an abstract stream.
- `FeatureVariance` (feature_variance.dfy): per-label sequences, one engine
  call per label, and the table `load_from_data` fills.
- `ArtistVariance` (artist_variance.dfy): the artist-embedding variances and
  the resumable batch loop.
- `ArtistMatrix` (artist_matrix.dfy): dense artist ids, per-playlist
  artist counts, document frequencies, the id permutation and the tf-idf
  rewrite.
- `Coherence` (coherence.dfy): the eligibility filters, the twenty-column
  row, in-place bucketing and the cache and export names.
- `CausalInference` (causal.dfy): the checks and seed use of
  `causal_inference`, and the resumable walk over the 77 contrasts in
  `load_from_data`.

Methods that change state are proved against specification functions of
their inputs and old state. The properties the pipeline relies on are
lemmas about those functions. Foreign code the core only calls is a
parameter of the operation that calls it:

- the distance, similarity and estimator functions;
- `math.log` and `np.log`;
- the tonality table;
- number parsing and `str_to_bool`;
- `norm.cdf`;
- the random streams and `np.random.permutation`.

An abstract ghost parameter stands for the service's own specification
(`infer`, `wk`, `read`, `entryOf`). A predicate ties it to the specification
(`Estimates`, `Walks`, `ReadsBy`, `EntryOracle`), and the service's
specification function (`WalkerOf`, `Reader(parsers)`, ...) satisfies that
predicate.

Behaviours of the code a reader may not expect, all modelled as written:

- **Missing inputs raise.** A playlist with no variance entry, edit count
  or popularity raises `KeyError` in
  `services/coherence_service.py:81,89,97`.
- **The NaN guards are dead.** The NaN tests of `categorizes` never fire,
  so NaN lands in bucket 2.
- **Export names are swapped.** The unshuffled coherence service exports
  to `coherence_shuffled.json` and the shuffled one to `coherence.json`.
- **The document counts are not relabelled.** `permutate_data` relabels
  the artist-id lists, the artist map and the playlist tables, but not
  `artist_in_playlist_count`, which `normalize_data` then indexes with the
  new ids.
- **The key-based accessor stays.** Feature access by name or index keeps
  the single duck-typed `__getitem__`/`__setitem__` of the code.

## Model

| member | source | states |
|---|---|---|
| Common.IndexOf | ppo/audio_feature.py:5-7 | the position of an element, as the label map and a column lookup find it: `None` exactly when the element is absent; otherwise a position holding it with no earlier occurrence |
| Common.PathJoin | services/feature_service.py:13 | `os.path.join`: an absolute second part replaces the first; otherwise the result starts with the first part and ends with the second |
| Common.Enumerate | services/artist_matrix_service.py:37 | iterating a set visits every element exactly once (in an order left open) |
| Common.Split | services/playlist_service.py:44-46 | `str.split` on one character gives at least one part and no part contains the separator |
| Common.SplitJoin | services/playlist_service.py:44-46 | splitting `a + sep + b` with `sep` absent from `a` gives `a` followed by the parts of `b` |
| Tracks.Equals | ppo/track.py:12-17 | comparing with an object that has a track id, or with a string, is equality of ids; comparing with anything else raises `ValueError` |
| Tracks.HashAgreesWithEquals | ppo/track.py:19-20 | a track hashes like its id string, so tracks (and strings) it equals hash alike |
| Tracks.EqualsIsIdEquivalence | ppo/track.py:12-14 | track equality is reflexive, symmetric and transitive, and holds exactly when the ids agree |
| TrackInfos.Equals | ppo/track_info.py:16-21 | the same three cases as `Track.__eq__`: equal ids, id equals the string, `ValueError` |
| TrackInfos.HashAgreesWithEquals | ppo/track_info.py:23-24 | the hash is the id string's hash, consistent with equality |
| Playlists.TrackIds | ppo/playlist.py:22 | `_tracks` holds the id of every listed track and nothing else |
| Playlists.NewPlaylist | ppo/playlist.py:6-26 | the fields are stored as given, and `t in playlist` holds exactly when some listed track has `t`'s id |
| Playlists.Equals | ppo/playlist.py:28-33 | playlists compare by id, with an `int` by value, and raise `ValueError` against anything else |
| Playlists.HashAgreesWithEquals | ppo/playlist.py:35-36 | the hash is the playlist id, consistent with equality against playlists and ints |
| Playlists.NewPlaylistTest | ppo/playlist.py:42-54 | the test playlist copies the source's id, title, counts, flag and timestamp, takes the shown tracks as its tracks (and track set) and keeps the hidden ones |
| AudioFeatures.LabelsDistinct | ppo/audio_feature.py:5-7 | there are ten feature labels, all distinct |
| AudioFeatures.LabelMapIsBijective | ppo/audio_feature.py:5-7 | the label map and its inverse are mutually inverse between the ten labels and 0..9, with `tonality` at index 9 |
| AudioFeatures.AudioFeature.constructor | ppo/audio_feature.py:9-21 | every number stored as given, the tonality as the pair `(mode, key)`, no extra attribute |
| AudioFeatures.AudioFeature.GetItem | ppo/audio_feature.py:35-42 | an int goes through the inverse label map and a label string names its attribute; an int out of range or a key of another type raises `KeyError`; an unknown name raises `AttributeError` unless an earlier `setattr` added that attribute, whose value it then gives |
| AudioFeatures.AudioFeature.Values | ppo/audio_feature.py:23-33 | iteration yields ten values, the i-th equal to `feature[i]`, nine numbers and then the tonality pair |
| AudioFeatures.AudioFeature.SetField | ppo/audio_feature.py:51 | `setattr` on a label changes that attribute only: the iterated values are the old ones with position `i` replaced |
| AudioFeatures.AudioFeature.SetExtra | ppo/audio_feature.py:51 | `setattr` on a name that is not a label adds that attribute and leaves the ten labelled ones alone |
| AudioFeatures.AudioFeature.SetItem | ppo/audio_feature.py:44-51 | keys resolve as in `__getitem__`; afterwards `feature[item]` is the value and no other attribute changed; a bad int or key type raises `KeyError` and changes nothing |
| TrackServices.TrackService.constructor | services/track_service.py:10-12 | both tables start empty |
| TrackServices.TrackService.AddTrack | services/track_service.py:14-23 | a known id bumps its count and returns the stored track, tables otherwise unchanged; a new id stores the track with count one and returns it; either way the result is the first track added with that id |
| TrackServices.TrackService.GetPopularity | services/track_service.py:25-26 | the number of `add_track` calls with the track's id, or `KeyError` for an id never added |
| TrackServices.Interned | services/track_service.py:17-23 | the track handed back has the id of the track passed in |
| TrackServices.FirstOfCounted | services/track_service.py:17-22 | an id has a stored track exactly when its count is positive, and the stored track carries that id |
| TrackServices.FirstOfIsEarliest | services/track_service.py:17-22 | the stored track of an id is the earliest one added with it |
| TrackServices.InternedAppend | services/track_service.py:19 | once a track is stored for an id, every later call with that id hands back the same track |
| TrackServices.InternsKnown | services/track_service.py:17-19 | adding a known track keeps both tables describing the calls, with the count bumped |
| TrackServices.InternsNew | services/track_service.py:20-22 | adding a new track keeps both tables describing the calls, with the track stored under count one |
| TrackInfoServices.CacheFile | services/track_info_service.py:13 | the cache file path ends in `track_info_service.pk` |
| TrackInfoServices.ParsePopularity | services/track_info_service.py:30 | `'None'` gives no popularity; anything else is `int(cell)`, or `ValueError` when that fails |
| TrackInfoServices.ParseRow | services/track_info_service.py:23-32 | columns are read in order: a row shorter than four raises `IndexError`, a bad duration `ValueError`, a row shorter than seven `IndexError`; an accepted row holds the id, name, album, duration, both flags, popularity and the set of columns from 7 on |
| TrackInfoServices.TracksFileNames | services/track_info_service.py:19 | the name filter is an unanchored-at-the-end match in which `.` is any character: `tracks_007_csv` passes, `tracks_12.csv` and `my_tracks_001.csv` do not |
| TrackInfoServices.RowsStored | services/track_info_service.py:22-32 | when no row fails, the table holds the ids it held plus those of the rows read, and nothing else |
| TrackInfoServices.LastRowWins | services/track_info_service.py:31 | a later row with the same id overwrites an earlier one: an id's entry is the last row read with it |
| TrackInfoServices.RowsKeyedById | services/track_info_service.py:31 | every entry is stored under its own track id |
| TrackInfoServices.TrackInfoService.constructor | services/track_info_service.py:12-15 | the table starts empty and the cache path is `track_info_service.pk` under the cache directory |
| TrackInfoServices.TrackInfoService.LoadRows | services/track_info_service.py:22-32 | the table after one file is the row fold over it, stopping at the first row that raises |
| TrackInfoServices.TrackInfoService.LoadFromData | services/track_info_service.py:17-32 | the table is the fold over the files whose names pass the filter, rows in order, and the outcome is the first error raised, if any |
| TrackInfoServices.TrackInfoService.Contains | services/track_info_service.py:40-41 | `item in service` holds exactly when the item's id is a key, which is exactly when `service[item]` succeeds |
| TrackInfoServices.TrackInfoService.GetItem | services/track_info_service.py:43-44 | the entry stored under the item's id, or `KeyError` |
| Common.Abs | utils/variance_util.py:19 | `abs`: non-negative, and the value or its negation |
| Common.NatToString | services/causal_inference_service.py:28-30 | `str(n)` of a natural number: one or more decimal digits, exactly one below ten |
| Common.IntToString | services/causal_inference_service.py:28-30 | `str(i)`: ends in a digit and starts with `-` exactly for a negative number |
| Common.ZeroPad2 | services/feature_variance_service.py:45 | `f'{n:02d}'` has at least two characters |
| PlaylistServices.UriId | services/playlist_service.py:44-46 | `uri.split(':')[2]`: `IndexError` exactly when there are fewer than three parts; the id holds no `:` |
| PlaylistServices.UriIdOfParts | services/playlist_service.py:44 | a URI `scheme:kind:id` yields `id` |
| PlaylistServices.UriIdTooShort | services/playlist_service.py:44 | a URI with fewer than two separators raises `IndexError` |
| PlaylistServices.Seconds | services/playlist_service.py:47 | `duration_ms // 1000` is the whole seconds, rounded towards minus infinity |
| PlaylistServices.Lower | services/playlist_service.py:36 | `lower()` restricted to ASCII: each letter `A`-`Z` becomes its lower-case letter, every other character is kept, so the length is kept; Python's Unicode lowering is not modelled (see Left out) |
| PlaylistServices.ParseTrack | services/playlist_service.py:43-47 | a track record gives a `Track` exactly when all three URIs have an id, holding those ids and the duration in seconds; otherwise `IndexError` |
| PlaylistServices.ParseTracks | services/playlist_service.py:43-49 | the parsed prefix is the records parsed in order up to the first one that fails, and parsing passes exactly when every record parsed |
| PlaylistServices.ParseTracksStopped | services/playlist_service.py:43-49 | once a record fails, later records are not looked at |
| PlaylistServices.InternAll | services/playlist_service.py:48-49 | the tracks handed back by `add_track` keep the order and ids of the parsed tracks |
| PlaylistServices.InternAllSnoc | services/playlist_service.py:48-49 | one more track keeps the tracks handed back so far and appends the first track added with its id |
| PlaylistServices.TrackIdsCount | services/playlist_service.py:53 | a playlist has at most as many distinct track ids as tracks, and exactly as many when none repeats |
| PlaylistServices.KeptNoRepeats | services/playlist_service.py:53 | in filtered mode a playlist is kept exactly when no track repeats and it has at most 250 tracks; unfiltered, always |
| PlaylistServices.Built | services/playlist_service.py:35-41 | the `Playlist` holds the record's id, lower-cased title, followers, track count, the converted flag, the timestamp and the interned tracks |
| PlaylistServices.RecordsStopped | services/playlist_service.py:32-34 | a load that stopped (size reached or an error) ignores every later record |
| PlaylistServices.FilesStopped | services/playlist_service.py:27-34 | a load that stopped ignores every later file |
| PlaylistServices.StepCapped | services/playlist_service.py:33-34 | a load that holds at most `size` playlists still does after one more record |
| PlaylistServices.FilesCapped | services/playlist_service.py:27-34 | the whole load never holds more than `size` playlists |
| PlaylistServices.BuiltWellStored | services/playlist_service.py:51-54 | a playlist that passes the length check and the filter is stored under its record's id, its tracks being those the track service holds |
| PlaylistServices.StepWellStored | services/playlist_service.py:32-54 | one record keeps every stored playlist well stored (own id, length as recorded, kept by the filter, lower-case title, interned tracks) |
| PlaylistServices.FilesWellStored | services/playlist_service.py:27-54 | the file loop keeps every stored playlist well stored |
| PlaylistServices.LoadedPlaylists | services/playlist_service.py:25-54 | loading into an empty service stores at most `size` playlists, each well stored |
| PlaylistServices.WellStoredAppend | services/playlist_service.py:48 | tracks added later do not change which track the service hands back for an id already seen |
| PlaylistServices.CacheFile | services/playlist_service.py:15-18 | the cache file is `playlist_service_filtered.pk` in filtered mode and `playlist_service_all.pk` otherwise |
| PlaylistServices.PlaylistService.constructor | services/playlist_service.py:14-23 | the mode and cache path as given, a size of 1 000 000, no playlists and no track service yet |
| PlaylistServices.PlaylistService.LoadRecord | services/playlist_service.py:33-54 | one record as the specification's step: playlists and track-service calls after it, and whether loading stops there |
| PlaylistServices.PlaylistService.LoadFile | services/playlist_service.py:32-54 | one file's records as the record fold |
| PlaylistServices.PlaylistService.LoadFromData | services/playlist_service.py:25-54 | a fresh track service, then the playlists and the tracks added are the fold over all files; the outcome records the first error, if any |
| PlaylistServices.PlaylistService.Contains | services/playlist_service.py:62-67 | `item in service` holds exactly when the item's id (a playlist's own id, or the item itself) is stored, which is exactly when `service[item]` succeeds |
| PlaylistServices.PlaylistService.GetItem | services/playlist_service.py:69-74 | the playlist stored under the item's id, or `KeyError` |
| PlaylistServices.PlaylistService.LookupByPlaylistOrId | services/playlist_service.py:62-74 | a playlist, a test playlist built from it and its id all find the same entry |
| PlaylistServices.PlaylistService.InternTracks | services/playlist_service.py:42-49 | every track record is parsed in order and handed to `add_track`; when none fails, the list holds what `add_track` returned for each |
| PlaylistServices.RecordsCapped | services/playlist_service.py:33-34 | loading never stores more than `size` playlists |
| PlaylistServices.RecordsWellStored | services/playlist_service.py:32-54 | every stored playlist sits under its own id, has as many tracks as it announces, a lower-case title and only tracks `add_track` handed back, and passes the length filter when filtering |
| FeatureRows.FloatAt | services/feature_service.py:20 | `float(line[k])`: the converted number, `IndexError` for a missing column, `ValueError` for one that does not convert |
| FeatureRows.IntAt | services/feature_service.py:29 | `int(line[k])` with the same two errors |
| FeatureRows.FloatsFromMeaning | services/feature_service.py:20-28 | the nine floats convert exactly when all their columns exist and convert; on failure the error is `ValueError` exactly when an existing column does not convert, since columns are read in order |
| FeatureRows.FloatsFromValues | services/feature_service.py:20-28 | the i-th float read is the conversion of column `k + i` |
| FeatureRows.ColumnsMeaning | services/feature_service.py:18-30 | the twelve columns convert exactly when all exist and convert, and then hold the uri and the converted numbers in order; otherwise the first failing column decides between `ValueError` and `IndexError` |
| FeatureRows.Bounded | services/feature_service.py:32 | the seven features checked against [0, 1]: all but loudness, tempo, mode and key |
| FeatureRows.SumOfUnits | services/feature_service.py:33-36 | numbers in [0, 1] sum to at most zero exactly when they are all zero, so the `sum <= 0` test drops exactly the all-zero rows |
| FeatureRows.LineToFeature | services/feature_service.py:17-43 | `line_to_feature`: an accepted row starts with the uri of its first column, and a row it builds has its seven bounded features in [0, 1], a tempo in [30, 250] or zero, a mode of 0 or 1 and a key in 0..12; LineToFeatureCases and LineToFeatureErrors below give when a row is dropped, built or refused |
| FeatureRows.LineToFeatureErrors | services/feature_service.py:17-43 | a conversion error is passed on unchanged; a row that converts either yields its uri or fails an assertion |
| FeatureRows.LineToFeatureCases | services/feature_service.py:32-43 | a converted row is dropped exactly when its seven bounded features are all zero, and kept as converted exactly when they lie in [0, 1], are not all zero and tempo, mode and key are plausible |
| FeatureRows.ZeroRowDropped | services/feature_service.py:35-36 | an all-zero row is dropped whatever its tempo, mode and key, before those are checked |
| FeatureRows.FeaturesFileNames | services/feature_service.py:47 | the name filter matches `features_` and three digits and any character at the start of the name only |
| FeatureRows.ReaderReads | services/feature_service.py:51 | the line reader used to load is `line_to_feature` |
| FeatureRows.LinesStopped | services/feature_service.py:50-53 | once a line raises, later lines are not read |
| FeatureRows.FilesStopped | services/feature_service.py:46-53 | once a line raises, later files are not read |
| FeatureRows.StoreKeeps | services/feature_service.py:51-53 | a line that stores nothing under `uri` leaves the row under `uri` alone |
| FeatureRows.StoreAccepted | services/feature_service.py:52-53 | an accepted line stores its row under its uri |
| FeatureRows.LastAcceptedWins | services/feature_service.py:50-53 | a later accepted row with the same uri overwrites an earlier one, and a dropped row leaves the earlier one in place |
| FeatureRows.LoadedAccepted | services/feature_service.py:45-53 | every row loaded passed every check of `line_to_feature` |
| FeatureServices.CacheFile | services/feature_service.py:12 | the cache file path ends in `feature_service.pk` |
| FeatureServices.NewFeature | services/feature_service.py:42-43 | a new `AudioFeature` holding the accepted row's numbers and the pair `(mode, key)` |
| FeatureServices.FeatureService.constructor | services/feature_service.py:11-14 | the table starts empty under the cache path |
| FeatureServices.FeatureService.Unshared | services/feature_service.py:53 | no two uris share an object, so changing one object in place changes one entry |
| FeatureServices.FeatureService.Put | services/feature_service.py:53 | the table gains the new object under `uri` and nothing else changes |
| FeatureServices.FeatureService.LoadLine | services/feature_service.py:51-53 | one line as the row fold's step: an accepted row is stored in a new object, a dropped row changes nothing, an error stops loading |
| FeatureServices.FeatureService.LoadLines | services/feature_service.py:50-53 | one file's lines as the row fold |
| FeatureServices.FeatureService.LoadFromData | services/feature_service.py:45-53 | the table overlays the rows of the fold over the files passing the name filter on the old table, each loaded uri holding a new object with its row; the outcome is the first error raised, if any |
| FeatureServices.FeatureService.Contains | services/feature_service.py:61-62 | `item in service` holds exactly when the item's uri is a key, which is exactly when `service[item]` succeeds |
| FeatureServices.FeatureService.GetItem | services/feature_service.py:64-65 | the object stored under the item's uri, or `KeyError` |
| FeatureRows.FilesAccepted | services/feature_service.py:35-52 | every row loaded from the files passes the positive-sum filter |
| NormalizedFeatures.CacheFile | services/normalized_feature_service.py:12 | the cache file path ends in `normalized_feature_service.pk` |
| NormalizedFeatures.Clamp | services/normalized_feature_service.py:27-28 | `max(min(l, 0), -60)` lies in [-60, 0] and leaves a loudness inside that range unchanged |
| NormalizedFeatures.Loudness | services/normalized_feature_service.py:20-28 | the new loudness, the cube of the clamped loudness rescaled from [-60, 0], lies in [0, 1]; LoudnessScale below adds its end points and its monotonicity |
| NormalizedFeatures.Tempo | services/normalized_feature_service.py:29 | for a positive range, a tempo between the minimum and the maximum is rescaled into [0, 1]; a zero range is outside its requires (see Left out); TempoScale below gives the end points and the order |
| NormalizedFeatures.LoudnessScale | services/normalized_feature_service.py:20-28 | the new loudness is the cube of the clamped loudness rescaled from [-60, 0]: it lies in [0, 1], grows with the old loudness, is 1 at or above 0 dB and 0 at or below -60 dB |
| NormalizedFeatures.TempoScale | services/normalized_feature_service.py:29 | over a range `lo < hi`, the slowest tempo becomes 0, the fastest 1, and the tempos between keep their order inside [0, 1] |
| NormalizedFeatures.MinIndex | services/normalized_feature_service.py:23 | `tempo.min()`: the position of an element no larger than any other |
| NormalizedFeatures.MaxIndex | services/normalized_feature_service.py:24 | `tempo.max()`: the position of an element no smaller than any other |
| NormalizedFeatures.NormalizedInUnit | services/normalized_feature_service.py:26-29 | with the old tempo inside the range, the rescaled loudness and tempo both lie in [0, 1], the range ends going to 0 and 1 |
| NormalizedFeatures.LabelPositions | services/normalized_feature_service.py:27-29 | the items `'loudness'` and `'tempo'` name labels 2 and 8 |
| NormalizedFeatures.Tempos | services/normalized_feature_service.py:18 | the list of tempos has one entry per uri, in the order the dictionary is walked |
| NormalizedFeatures.SetLoudness | services/normalized_feature_service.py:27-28 | `f['loudness'] = x` changes the loudness and nothing else of the object |
| NormalizedFeatures.SetTempo | services/normalized_feature_service.py:29 | `f['tempo'] = x` changes the tempo and nothing else of the object |
| NormalizedFeatures.NormalizeOne | services/normalized_feature_service.py:27-29 | the loop body leaves the object holding the normalised values of its old state |
| NormalizedFeatures.NormalizeAll | services/normalized_feature_service.py:26-29 | every object of the table is normalised exactly once, in place, and the table's keys and objects stay the same |
| NormalizedFeatures.TempoRange | services/normalized_feature_service.py:17-24 | the walk visits every uri once; over a non-empty table, the minimum and maximum are tempos of stored objects bounding every other tempo |
| NormalizedFeatures.NormalizedFeatureService.constructor | services/normalized_feature_service.py:11-14 | the table starts empty under the cache path |
| NormalizedFeatures.NormalizedFeatureService.LoadFromData | services/normalized_feature_service.py:16-31 | an empty table raises `ValueError`; a zero tempo range is refused; otherwise every object's loudness and tempo are rescaled in place from the old minimum and maximum tempo and the service shares the feature service's dictionary |
| NormalizedFeatures.NormalizedFeatureService.Contains | services/normalized_feature_service.py:39-40 | `item in service` holds exactly when the uri is a key, which is exactly when `service[item]` succeeds |
| NormalizedFeatures.NormalizedFeatureService.GetItem | services/normalized_feature_service.py:42-43 | the object stored under the uri, or `KeyError` |
| NormalizedFeatures.LoadedInUnit | services/normalized_feature_service.py:16-31 | after a successful load every loudness and tempo lies in [0, 1], the slowest track's tempo is 0 and the fastest one's 1 |
| VarianceUtil.GetCoherence | utils/variance_util.py:4-7 | NaN when the all-pairs variance is below the threshold; otherwise one minus the ratio, at most 1 for non-negative variances; NaN passes through since comparing it is false; a zero all-pairs variance passing the threshold raises `ZeroDivisionError`, as a Python float does (see Left out for numpy values) |
| VarianceUtil.JaccardSimilarity | utils/variance_util.py:14-15 | shared over all artists: in [0, 1], 1 exactly when the sets are equal, 0 exactly when they are disjoint; two empty sets raise `ZeroDivisionError` |
| VarianceUtil.IntersectionWithinUnion | utils/variance_util.py:15 | the intersection is no larger than the union, and as large exactly when the sets are equal |
| VarianceUtil.JaccardDistance | utils/variance_util.py:10-11 | one minus the similarity: in [0, 1], 0 exactly when the sets are equal, the same error for two empty sets |
| VarianceUtil.JaccardDistanceSymmetric | utils/variance_util.py:10-15 | the distance is symmetric |
| VarianceUtil.PairDistance | utils/variance_util.py:18-19 | `abs(b - a)`: non-negative, zero exactly when equal, one of the two differences |
| VarianceUtil.PairDistanceSymmetric | utils/variance_util.py:18-19 | the distance is symmetric |
| VarianceUtil.TonalityDistance | utils/variance_util.py:22-25 | `tonality_distance`: the cell of the (abstract) tonality table at the indices `12*mode + key` of the two pairs; it has no contract of its own, and TonalityIndexRange below states the range those indices take |
| VarianceUtil.TonalityIndexRange | utils/variance_util.py:22-25 | with mode in {0, 1} and key in 0..12, `12*mode + key` lies in 0..24; only `(1, 12)` reaches 24, and `(0, 12)` shares its index with `(1, 0)` |
| VarianceUtil.VarianceOf | utils/variance_util.py:40-43 | the estimate is NaN exactly when no pair was counted |
| VarianceUtil.SeqBound | utils/variance_util.py:49 | `playlist[:-d]` is empty for `d == 0` and for `d >= n`, and otherwise has `n - d` elements |
| VarianceUtil.PlaylistVariance | utils/variance_util.py:28-43 | the loop returns the number of counted unordered pairs and `sum / counter / 2` of their squared distances (NaN when none), as the all-pairs specification defines them |
| VarianceUtil.RowPairs | utils/variance_util.py:34-39 | the inner loop counts and sums the pairs `(i, j)` for `j > i`, as the specification's row does |
| VarianceUtil.RowOfUnusableIsEmpty | utils/variance_util.py:32-33 | a position without a feature, or without artists while the gate is on, starts no counted pair |
| VarianceUtil.SequentialVariance | utils/variance_util.py:46-61 | the loop returns the number of counted pairs `(i, i + d)` over `playlist[:-d]` and their variance (NaN when none) |
| VarianceUtil.CalcVariances | utils/variance_util.py:64-68 | both estimators over one playlist and its length; the counts are bounded by `n - d` and `n(n-1)/2` and both variances are non-negative when not NaN |
| VarianceUtil.PairCountBounded | utils/variance_util.py:28-39 | the all-pairs count never exceeds `n(n-1)/2` |
| VarianceUtil.PairCountComplete | utils/variance_util.py:28-39 | with every feature present and the gate off, all `n(n-1)/2` pairs count |
| VarianceUtil.SeqCountComplete | utils/variance_util.py:46-57 | with every feature present and the gate off, the sequential estimator counts `n - d` pairs for `0 < d < n` and none otherwise |
| VarianceUtil.SeqShortIsNaN | utils/variance_util.py:49-61 | a step of zero or a playlist of at most `d` tracks counts no pair and gives NaN |
| VarianceUtil.PairShortIsNaN | utils/variance_util.py:31-43 | a playlist of fewer than two tracks counts no pair and gives NaN |
| VarianceUtil.CountsFollowPattern | utils/variance_util.py:31-39 | the counts depend only on which positions hold a feature and on the artist sets, not on the feature values |
| VarianceUtil.SequentialExample | utils/variance_util.py:46-61 | on the alternating playlist 0, 1, 0, 1 with step 1 and the gate off: three pairs, variance 0.5 |
| VarianceUtil.PairwiseExample | utils/variance_util.py:28-43 | on the same playlist: six pairs, variance 1/3 |
| VarianceUtil.Ratio | utils/variance_util.py:15 | a count over a larger positive count lies in [0, 1], is 1 exactly when they are equal and 0 exactly when the first is 0 |
| VarianceUtil.SeqCountBounded | utils/variance_util.py:49-57 | the sequential loop counts at most one pair per position visited |
| VarianceUtil.SeqSumNonNegative | utils/variance_util.py:49-57 | the sequential sum of squares is never negative |
| VarianceUtil.RowBounds | utils/variance_util.py:34-39 | one row of the all-pairs loop counts at most the positions after `i`, and its sum is never negative |
| VarianceUtil.PairSumNonNegative | utils/variance_util.py:31-39 | the all-pairs sum of squares is never negative |
| VarianceUtil.PairCountUpToBounded | utils/variance_util.py:31-39 | the all-pairs loop counts at most the pairs of positions it has visited |
| FeatureVariance.Zip | services/feature_variance_service.py:18 | `zip` pairs the column with the artist list up to the shorter length |
| FeatureVariance.ZipAt | services/feature_variance_service.py:18 | the k-th zipped slot holds the k-th value and the k-th artist entry |
| FeatureVariance.PartialTableKeys | services/feature_variance_service.py:22-31 | after the first `i` labels the table holds exactly those labels |
| FeatureVariance.PartialTableAt | services/feature_variance_service.py:25-31 | each label's entry is the pair of variances of its own column under its own distance |
| FeatureVariance.VarianceTableShape | services/feature_variance_service.py:16-33 | the final table has exactly the ten labels, tonality's entry computed with the tonality distance and every other with `pair_distance` |
| FeatureVariance.AlignedAgrees | services/feature_variance_service.py:28-30 | columns with the same missing positions pass all three assertions |
| FeatureVariance.FeaturesToVariance | services/feature_variance_service.py:16-33 | `AssertionError` exactly when some label counts different pairs or tracks than tonality; otherwise the id, the ten-label table and tonality's counts and length; aligned columns never fail |
| FeatureVariance.OtherLabels | services/feature_variance_service.py:22-31 | the label loop stops with `AssertionError` exactly when some label disagrees with tonality, and otherwise builds the table of those labels |
| FeatureVariance.OtherLabel | services/feature_variance_service.py:25-31 | one label: its variance pair, and whether its counts and length equal tonality's |
| FeatureVariance.Snapshot | services/feature_variance_service.py:62-64 | one row of ten values per known track, under the same ids |
| FeatureVariance.ColumnsAligned | services/feature_variance_service.py:57-72 | every column and the artist list follow the track order; a track without features is None in every column and a known one holds its value, so the columns are aligned |
| FeatureVariance.ColumnsAlwaysAligned | services/feature_variance_service.py:57-64 | the ten columns are aligned for every track order |
| FeatureVariance.CacheFile | services/feature_variance_service.py:44-47 | the shuffled variant's name ends in `_shuffled.pk`, the other in `.pk` |
| FeatureVariance.CacheFilesDiffer | services/feature_variance_service.py:44-47 | the shuffled and unshuffled services never share a cache file |
| FeatureVariance.KeyedAt | services/feature_variance_service.py:82-91 | playlist `j`'s result is its id with the entry of its own track order |
| FeatureVariance.OrdersAt | services/feature_variance_service.py:76-83 | playlist `j` is shuffled from where the previous playlists' shuffles left the one generator |
| FeatureVariance.OrdersPermute | services/feature_variance_service.py:53-55 | each playlist's track order is a permutation of its tracks, unchanged when no shuffle is asked for |
| FeatureVariance.StoreKeys | services/feature_variance_service.py:89-91 | every stored id is a key afterwards, and no old key is lost |
| FeatureVariance.StoreLastWins | services/feature_variance_service.py:91 | the last result with an id decides its entry |
| FeatureVariance.StoreKeepsOthers | services/feature_variance_service.py:91 | ids no playlist carries keep their old entries |
| FeatureVariance.FeatureVarianceService.constructor | services/feature_variance_service.py:38-48 | the parameters as given, the cache path of the mode, and no variances |
| FeatureVariance.FeatureVarianceService.Transform | services/feature_variance_service.py:50-73 | the tracks are the specification's order (a shuffle drawing from the generator when asked, a permutation either way); the columns and artist entries follow that order; `TypeError` exactly when the artist gate is on, no track info was given and there is a track |
| FeatureVariance.FeatureVarianceService.BuildColumns | services/feature_variance_service.py:57-73 | the track loop builds exactly the specification's columns and artist entries, or raises `TypeError` as above |
| FeatureVariance.FeatureVarianceService.Process | services/feature_variance_service.py:82-91 | one playlist: its tracks are ordered, its entry is computed from that order and stored under its id, and nothing else changes |
| FeatureVariance.FeatureVarianceService.LoadFromData | services/feature_variance_service.py:75-91 | `AssertionError` (nothing stored) unless the threshold is 0.0 and no track info is given; otherwise every playlist's entry is stored in input order over the old table, with the orders the one generator produces |
| FeatureVariance.FeatureVarianceService.StoreAll | services/feature_variance_service.py:78-91 | the playlist loop stores the entries of all playlists in order, drawing from one generator |
| FeatureVariance.FeatureVarianceService.Step | services/feature_variance_service.py:82-91 | one iteration extends the orders and the stored entries by playlist `k` |
| FeatureVariance.FeatureVarianceService.ShuffleTracks | services/feature_variance_service.py:54-55 | the tracks come back as the stream's shuffle of them, and the stream has advanced by the draws of one shuffle |
| PyRandom.Swap | services/feature_variance_service.py:55 | exchanging two positions keeps the length and the multiset and moves only those two elements |
| PyRandom.ShuffleDownPermutes | services/artist_variance_service.py:82 | each stage of the shuffle is a permutation that leaves the positions above it alone |
| PyRandom.ShuffledIsPermutation | services/feature_variance_service.py:55 | a shuffle is a permutation of its input, whatever the random stream |
| PyRandom.Random.constructor | services/feature_variance_service.py:76 | `Random(seed)` starts its stream unused |
| PyRandom.Random.RandBelow | services/artist_variance_service.py:82 | one draw of the stream, reduced below `k`, and the stream advances by one |
| PyRandom.Random.Shuffle | services/feature_variance_service.py:55 | shuffling in place leaves the array as the specification's shuffle of its old contents (a permutation) and consumes one draw per position above 0 |
| ArtistVariance.PlaylistVariance | services/artist_variance_service.py:20-27 | the all-pairs sum of squared similarities over `n(n-1)`, with count `n(n-1) // 2`; fewer than two embeddings raise `ZeroDivisionError` |
| ArtistVariance.SequentialVariance | services/artist_variance_service.py:30-37 | the adjacent sum over `n - 1`, halved, with count `n - 1`; one embedding raises `ZeroDivisionError`; none gives `(0.0, -1)` |
| ArtistVariance.VarianceOfEmbeddings | services/artist_variance_service.py:40-43 | both estimates and the length; `ZeroDivisionError` exactly when there are fewer than two embeddings; otherwise counts `n - 1` and `n(n-1)/2` and non-negative estimates |
| ArtistVariance.EmbeddingToVariance | services/artist_variance_service.py:40-43 | the method computes the value the specification function describes, the all-pairs estimator raising first |
| ArtistVariance.ProductEven | services/artist_variance_service.py:26-27 | `n(n-1)` is even, so the count `div // 2` is exact |
| ArtistVariance.PlaylistVarianceIsEngine | services/artist_variance_service.py:20-27 | the artist all-pairs estimate equals the engine's all-pairs variance of `utils/variance_util.py` on a playlist with nothing missing and the gate off, with the same count |
| ArtistVariance.SequentialVarianceIsEngine | services/artist_variance_service.py:30-37 | the artist adjacent estimate equals the engine's sequential variance at step 1 under the same conditions |
| ArtistVariance.Batches | services/artist_variance_service.py:69 | `batched` yields non-empty chunks of at most 2350 playlists |
| ArtistVariance.BatchesFlatten | services/artist_variance_service.py:69 | the chunks put back together are the playlists, in their order |
| ArtistVariance.IdsOf | services/artist_variance_service.py:80 | the track ids of the playlist, in order |
| ArtistVariance.Embeddings | services/artist_variance_service.py:83 | one embedding per track id, in order; an id missing from `track_to_ids` raises `KeyError` |
| ArtistVariance.CacheFile | services/artist_variance_service.py:52-55 | the shuffled variant's file is `artist_variance_service_shuffled.pk`, the other `artist_variance_service.pk` |
| ArtistVariance.ArtistVarianceService.constructor | services/artist_variance_service.py:47-58 | the parameters as given, the cache path of the mode, no variances and nothing saved |
| ArtistVariance.ArtistVarianceService.LoadFromData | services/artist_variance_service.py:60-94 | the table starts from the cache when one exists; the variances, the saved snapshots and the outcome are those of the specification's run over the batches |
| ArtistVariance.ArtistVarianceService.RunBatch | services/artist_variance_service.py:69-94 | one batch advances the run as the specification's batch step |
| ArtistVariance.ArtistVarianceService.SubmitAll | services/artist_variance_service.py:77-86 | the submission loop yields the specification's jobs and draws |
| ArtistVariance.ArtistVarianceService.CollectAll | services/artist_variance_service.py:88-90 | the result loop stores each job's variances under its id, stopping at the first job that raises |
| ArtistVariance.SubmitOne | services/artist_variance_service.py:77-86 | one turn of the submission loop never undoes a draw; a stored id, or an earlier `KeyError`, leaves the jobs and draws unchanged; otherwise the job list only grows at its end; SubmitPending below gives the new job and the `KeyError` case |
| ArtistVariance.Pending | services/artist_variance_service.py:78-79 | the playlists submitted are those whose id was not yet stored |
| ArtistVariance.PendingCovers | services/artist_variance_service.py:78-79 | every playlist whose id is not stored yet is submitted |
| ArtistVariance.IdOrderKeepsIds | services/artist_variance_service.py:80-83 | shuffling the ids keeps their number and which of them are unknown |
| ArtistVariance.SubmitPending | services/artist_variance_service.py:80-86 | a pending playlist raises `KeyError` exactly when one of its tracks is unknown; otherwise it adds one job with one embedding per track, after its shuffle's draws |
| ArtistVariance.SubmissionsFollowPending | services/artist_variance_service.py:77-86 | submission makes one job per pending playlist, in order, and draws only for their shuffles |
| ArtistVariance.SubmissionsRaise | services/artist_variance_service.py:83 | submission raises `KeyError` exactly when a pending playlist has a track `track_to_ids` does not know |
| ArtistVariance.Collect | services/artist_variance_service.py:88-90 | the result loop over the first `k` jobs keeps every id the table held; CollectKeys, CollectFails and CollectKeepsOthers below state which ids it adds and when it raises |
| ArtistVariance.CollectFails | services/artist_variance_service.py:88-90 | the result loop raises `ZeroDivisionError` exactly when a job has fewer than two embeddings |
| ArtistVariance.CollectKeys | services/artist_variance_service.py:88-90 | the result loop only adds keys, each a job's id; without a raise every job's id is stored |
| ArtistVariance.CollectKeepsOthers | services/artist_variance_service.py:90 | an id no job carries keeps its entry |
| ArtistVariance.BatchRun | services/artist_variance_service.py:72-94 | one batch only adds draws and ids, and the saved snapshots either stay as they were or gain exactly one, the table after the batch; BatchKeeps, BatchCovers, BatchOutcome and BatchSaves below give the rest |
| ArtistVariance.BatchKeeps | services/artist_variance_service.py:78-79 | a batch never overwrites an entry that was there before it |
| ArtistVariance.BatchCovers | services/artist_variance_service.py:77-90 | a batch that raises nothing leaves every one of its ids stored |
| ArtistVariance.BatchOutcome | services/artist_variance_service.py:77-90 | a batch raises exactly when a pending playlist has an unknown track (`KeyError`) or fewer than two tracks (`ZeroDivisionError`) |
| ArtistVariance.BatchSaves | services/artist_variance_service.py:72-94 | the table is saved after a batch exactly when the batch raised nothing and had a pending playlist, that is, when the table grew |
| ArtistVariance.CollectGrows | services/artist_variance_service.py:91 | the result loop over jobs for unstored ids grows the table exactly when there is a job |
| ArtistVariance.BatchFullyCachedIsNoOp | services/artist_variance_service.py:78-79 | a batch whose ids are all stored draws nothing and changes nothing |
| ArtistVariance.LoadNeverOverwrites | services/artist_variance_service.py:66-90 | an id in the starting table (from the cache or an earlier call) is never recomputed or overwritten |
| ArtistVariance.LoadCoversAll | services/artist_variance_service.py:69-90 | a run that raises nothing stores every input playlist's id |
| ArtistVariance.LoadFullyCachedIsNoOp | services/artist_variance_service.py:66-94 | resuming with every id cached computes nothing, draws nothing and saves nothing |
| ArtistVariance.LoadTwiceIsNoOp | services/artist_variance_service.py:60-94 | running again on the table a successful run left changes nothing |
| PyRandom.Random.SwapElements | services/feature_variance_service.py:55 | the array afterwards is its old contents with the two positions exchanged |
| ArtistVariance.ArtistVarianceService.ShuffleIds | services/artist_variance_service.py:81-82 | the ids come back as the stream's shuffle of them, and the stream has advanced by the draws of one shuffle |
| ArtistVariance.RunBatches | services/artist_variance_service.py:69-94 | the first `k` batches only add draws and ids, and once an exception has ended the run the later batches change nothing; RunKeeps and RunCovers below state what the batches keep and store |
| ArtistVariance.RunKeeps | services/artist_variance_service.py:77-90 | a playlist already in the table keeps its entry through the batches |
| ArtistVariance.RunCovers | services/artist_variance_service.py:69-90 | after the batches, with no exception, every playlist of them is in the table |
| ArtistVariance.RunFullyCachedIsNoOp | services/artist_variance_service.py:66-79 | when the cache holds every playlist, the batches change nothing: no draws, no saves |
| ArtistMatrix.BijectiveIsDense | services/artist_matrix_service.py:17 | the artist map is injective, its ids are below its size and every id below its size is taken |
| ArtistMatrix.AddArtist | services/artist_matrix_service.py:40-42 | a new artist gets `len(artist_to_id)`, an id no artist holds yet, and the map stays a bijection |
| ArtistMatrix.ArtistsOf | services/artist_matrix_service.py:32-34 | a track's artists are its own artist plus the ids the track-info table lists for it |
| ArtistMatrix.AddAllCounts | services/artist_matrix_service.py:45-46 | adding a list without repeats adds one to each of its ids and to nothing else |
| ArtistMatrix.TrackCounts | services/artist_matrix_service.py:26-46 | the table `playlist_artist_ids` after the first `k` tracks, each adding one to every id of its artist list; it has no contract of its own, and TrackCountsCount, TrackCountsEmpty and TrackCountsPositive below state what it counts |
| ArtistMatrix.TrackCountsEmpty | services/artist_matrix_service.py:26-46 | a playlist's table is empty exactly when it has no tracks |
| ArtistMatrix.TrackCountsCount | services/artist_matrix_service.py:26-46 | `data[pid][a]` is the number of the playlist's tracks whose artist list holds `a`, and the keys are exactly the ids some track lists |
| ArtistMatrix.TrackCountsPositive | services/artist_matrix_service.py:46 | every count in a playlist table is at least one |
| ArtistMatrix.Bump | services/artist_matrix_service.py:48-49 | counting one more playlist adds exactly the table's keys to the document counts |
| ArtistMatrix.Frequency | services/artist_matrix_service.py:48-49 | the number of playlists whose table holds `a` is at most the number of playlists |
| ArtistMatrix.DocCounts | services/artist_matrix_service.py:48-49 | `artist_in_playlist_count` after the first `k` playlist tables, each adding one to every id it holds; it has no contract of its own, and DocCountsCount and DocCountsBounds below state what it counts |
| ArtistMatrix.DocCountsCount | services/artist_matrix_service.py:48-49 | `artist_in_playlist_count[a]` grows by the number of playlists whose table holds `a` |
| ArtistMatrix.DocCountsBounds | services/artist_matrix_service.py:48-49 | counted from nothing, every counted artist is in at least one and at most all of the playlists |
| ArtistMatrix.AddAllIsBump | services/artist_matrix_service.py:48-49 | the loop over a table's ids bumps exactly its key set |
| ArtistMatrix.IdsOfArtistsKept | services/artist_matrix_service.py:37-43 | a track's id list keeps naming the same artists when later tracks only add artists, since old artists keep their ids |
| ArtistMatrix.ListedFromSnoc | services/artist_matrix_service.py:27-44 | one more track: the lists made before keep their meaning and the one list it may add names its own artists |
| ArtistMatrix.PlaylistsListedSnoc | services/artist_matrix_service.py:25-50 | one more playlist: every list added so far names the artists of a track of the playlists seen |
| ArtistMatrix.InversePermutation | services/artist_matrix_service.py:55 | the inverse of the drawn permutation, in both directions |
| ArtistMatrix.RelabelDistinct | services/artist_matrix_service.py:59 | a relabelled artist-id list is again without repeats and below `n` |
| ArtistMatrix.PermutedData | services/artist_matrix_service.py:67-74 | `perm_data` relabels every table, keeping the playlist order |
| ArtistMatrix.PermuteCellsCounts | services/artist_matrix_service.py:69-72 | a relabelled table holds the count of `a` under `permutation[a]`, and only those keys |
| ArtistMatrix.FrequencyPermuted | services/artist_matrix_service.py:67-74 | in the relabelled tables the artist numbered `a` before is counted under `permutation[a]` |
| ArtistMatrix.ContainingRelabelled | services/artist_matrix_service.py:57-60 | the tracks listing `a` before are exactly those listing `permutation[a]` after |
| ArtistMatrix.PermutedCounts | services/artist_matrix_service.py:57-74 | a relabelled table of counts is the table of the relabelled artist lists |
| ArtistMatrix.IdsOfArtistsRelabelled | services/artist_matrix_service.py:57-65 | a list relabelled through the permutation names the same artists under the relabelled artist map |
| ArtistMatrix.PlaylistsListedRelabelled | services/artist_matrix_service.py:57-65 | after `permutate_data` every list the load added still names its track's artists, through the relabelled map |
| ArtistMatrix.PermutedRowsCount | services/artist_matrix_service.py:57-74 | after `permutate_data` each table still counts its playlist's tracks, through the relabelled lists |
| ArtistMatrix.PermutedBijective | services/artist_matrix_service.py:62-65 | the artist map rebuilt through the permutation is again a bijection |
| ArtistMatrix.MaxKey | services/artist_matrix_service.py:78 | `max(values)` of a non-empty table is the count of some key, bounding all others |
| ArtistMatrix.Tf | services/artist_matrix_service.py:78-80 | `count / max_term` is non-negative, at most one exactly when the count is at most the maximum, and one exactly at the maximum |
| ArtistMatrix.Idf | services/artist_matrix_service.py:81 | `np.log(len(data) / artist_in_playlist_count[a])` with the logarithm abstract; it has no contract of its own, and IdfUsesUnpermutedCount below shows which artist's count it is given after `permutate_data` |
| ArtistMatrix.Weight | services/artist_matrix_service.py:80-82 | the new value `tf * idf`: a key with the largest count gets the whole idf factor and a zero count gets zero; NormalizedKeys below states it for a whole table |
| ArtistMatrix.TfOfMax | services/artist_matrix_service.py:80 | the largest count of a table has term frequency one |
| ArtistMatrix.NormalizedData | services/artist_matrix_service.py:76-82 | every table rewritten to `tf * idf`, in the same order |
| ArtistMatrix.NormalizedKeys | services/artist_matrix_service.py:79-82 | a rewritten table keeps its keys, and a key with the largest count gets the whole idf factor |
| ArtistMatrix.MaxCountPermuted | services/artist_matrix_service.py:71-78 | relabelling keeps a table's values, so its maximum |
| ArtistMatrix.IdfUsesUnpermutedCount | services/artist_matrix_service.py:49-81 | `permutate_data` leaves the document counts keyed by the old ids, so the relabelled key `permutation[a]` is weighted with the frequency of the artist that held id `permutation[a]` before, not with `a`'s own |
| ArtistMatrix.FreshRowWeighable | services/artist_matrix_service.py:76-82 | loaded from empty counts, a relabelled table with a positive count can be rewritten, because every id is counted by some playlist |
| ArtistMatrix.NormalizedKeysBelow | services/artist_matrix_service.py:79-82 | rewritten tables keep their keys, so the bound `init_matrix` needs |
| ArtistMatrix.FreshRowNormalizable | services/artist_matrix_service.py:76-82 | loaded into a new service, playlist `i`'s table can be rewritten exactly when the playlist has a track |
| ArtistMatrix.FreshNormalizable | services/artist_matrix_service.py:76-82 | loaded into a new service, `normalize_data` raises nothing exactly when every playlist has a track |
| ArtistMatrix.CacheFile | services/artist_matrix_service.py:16 | the cache file path ends in `artist_matrix_service.pk` |
| ArtistMatrix.ArtistMatrixService.constructor | services/artist_matrix_service.py:15-21 | empty maps, no counts and an empty 0 x 0 matrix |
| ArtistMatrix.ArtistMatrixService.AssignIds | services/artist_matrix_service.py:36-43 | a known artist keeps its id and a new one gets `len(artist_to_id)`; the map stays a bijection, only grows, and the list holds the ids of the track's artists |
| ArtistMatrix.ArtistMatrixService.AssignOne | services/artist_matrix_service.py:38-43 | one artist: its existing id, or the next id, stored |
| ArtistMatrix.ArtistMatrixService.TrackArtistIds | services/artist_matrix_service.py:28-44 | a seen track reuses its stored list and changes nothing; a new track gets the ids of its artists, stored under its id; every id created is in the list |
| ArtistMatrix.ArtistMatrixService.PlaylistArtistIds | services/artist_matrix_service.py:26-46 | after a playlist's track loop every track's list is stored, the table counts those lists and every id created is counted; every list the loop adds holds exactly the ids, under the final artist map, of the artists of a track of the playlist with that id |
| ArtistMatrix.ArtistMatrixService.CountPlaylist | services/artist_matrix_service.py:48-49 | one more playlist for each artist id of the table, and nothing else |
| ArtistMatrix.ArtistMatrixService.AddCounts | services/artist_matrix_service.py:45-46 | each id of the list counted once more, from the given counts |
| ArtistMatrix.ArtistMatrixService.PermutateRow | services/artist_matrix_service.py:69-72 | one table relabelled through the permutation; a key without a place in it raises `IndexError` |
| ArtistMatrix.ArtistMatrixService.PermutateRows | services/artist_matrix_service.py:67-74 | every table relabelled, in order, exactly when all their keys are below the permutation length |
| ArtistMatrix.ArtistMatrixService.MaxTerm | services/artist_matrix_service.py:78 | the largest count of the table, or `ValueError` for an empty one |
| ArtistMatrix.ArtistMatrixService.NormalizeRow | services/artist_matrix_service.py:77-82 | one table rewritten to `tf * idf` exactly when it is non-empty and every key has a positive document count, otherwise the error the first bad key raises |
| ArtistMatrix.ArtistMatrixService.FillRow | services/artist_matrix_service.py:88-90 | row `i` of the matrix gets the table's values and the earlier rows are kept; a key at or above `n` raises `IndexError` |
| ArtistMatrix.ArtistMatrixService.InitMapping | services/artist_matrix_service.py:23-51 | one table per playlist, in order, each counting its tracks' artist lists; the document counts grow by those tables; every new id is counted somewhere; every list added to `track_to_ids` holds exactly the ids, under the final artist map, of the artists (own artist plus track-info artists) of a track with that id in one of the playlists |
| ArtistMatrix.ArtistMatrixService.PermutateTracks | services/artist_matrix_service.py:57-60 | every stored artist-id list is relabelled through the permutation, under the same track ids |
| ArtistMatrix.ArtistMatrixService.PermutateArtists | services/artist_matrix_service.py:62-65 | every artist's id becomes `permutation[id]` and the map stays a bijection |
| ArtistMatrix.ArtistMatrixService.PermutateData | services/artist_matrix_service.py:53-74 | lists, artist map and table keys all go through one permutation; the document counts are not relabelled; a table key outside the permutation raises |
| ArtistMatrix.ArtistMatrixService.NormalizeData | services/artist_matrix_service.py:76-82 | every table rewritten to `tf * idf` against the service's counts, or the first table that cannot be (empty table, missing count, zero count) raises |
| ArtistMatrix.ArtistMatrixService.InitMatrix | services/artist_matrix_service.py:84-91 | an `m x n` matrix holding table `i`'s value for artist `a` at `(i, a)`; a key at or above `n` raises `IndexError` |
| ArtistMatrix.ArtistMatrixService.MapAndPermutate | services/artist_matrix_service.py:93-95 | the tables are built and relabelled through the permutation drawn for `len(artist_to_id)` ids; every relabelled list the load added is still the id list of its track's artists under the relabelled artist map; on a new service every table can be rewritten exactly when every playlist has a track |
| ArtistMatrix.ArtistMatrixService.PermutateLoaded | services/artist_matrix_service.py:95 | relabelling the tables just built keeps them counting the relabelled lists, and keeps every new list naming its track's artists under the relabelled map |
| ArtistMatrix.ArtistMatrixService.StoreMatrix | services/artist_matrix_service.py:96-97 | the rewritten tables become the matrix; a failed rewrite leaves the matrix as it was |
| ArtistMatrix.ArtistMatrixService.LoadFromData | services/artist_matrix_service.py:93-97 | the matrix holds the tf-idf weights of the relabelled tables against counts keyed by the old ids; every list the load added to `track_to_ids` is the id list, under the final artist map, of the artists of a track with that id; on a new service the load raises nothing exactly when every playlist has a track |
| Coherence.NaNEqualsNothing | services/coherence_service.py:25-29 | an equality test against NaN is false whatever the other value, so the NaN tests in `categorizes` never fire |
| Coherence.BucketCell | services/coherence_service.py:28-36 | the bucket of one value is always a number: 0 exactly when the value is a number no larger than the first cutpoint, and 2 for NaN, because the NaN test never fires; BucketCellCases below gives the other buckets |
| Coherence.BucketCellCases | services/coherence_service.py:28-36 | every value gets a bucket in {0, 1, 2}: 0 exactly up to the first cutpoint, 1 exactly between the two, 2 above them and for NaN; buckets never decrease as the value grows |
| Coherence.FixedCutpoints | services/coherence_service.py:117-118 | lengths 40, 41, 100, 101 go to buckets 0, 1, 1, 2 and edit counts 4, 5, 40, 41 to 0, 1, 1, 2 |
| Coherence.CategorizeRow | services/coherence_service.py:27-36 | one row of `categorizes` succeeds exactly when both indices lie inside the row and the read cell is not `None`; then the row keeps its length and every cell but `set_idx`; CategorizeRowCells below gives the new cell and the errors |
| Coherence.CategorizeRowCells | services/coherence_service.py:27-36 | one row: only cell `set_idx` changes, to the value's bucket; a missing cell raises `IndexError` and a `None` value `TypeError` |
| Coherence.Categorizes | services/coherence_service.py:21-36 | the rows are rewritten in place, in order, `set_idx` defaulting to `get_idx + 1`; the first row that raises stops the loop with the earlier rows written and the later ones untouched |
| Coherence.ColumnNames | services/coherence_service.py:68-75 | the column loop yields the twenty-name column layout |
| Coherence.Groups | services/coherence_service.py:69-73 | `c_length` and `c_num_edits` give a value, its log and the bucket column; `c_popularity` gives no log column |
| Coherence.LeadingNames | services/coherence_service.py:69-73 | the three groups together are the eight leading column names |
| Coherence.LeadingColumns | services/coherence_service.py:68-75 | the layout is the groups, then `c_collaborative`, then the feature labels and `artists` |
| Coherence.LayoutShape | services/coherence_service.py:52-75 | twenty columns; column `9 + i` is feature label `i`, the last is `artists`, and the bucket columns sit at 2, 5, 7 and 8 |
| Coherence.LabelCellsMeaning | services/coherence_service.py:103-104 | the label loop succeeds exactly when every label's coherence does, and then cell `i` is label `i`'s coherence; otherwise it raises `ZeroDivisionError` |
| Coherence.RowOf | services/coherence_service.py:79-115 | the loop body for one playlist: `KeyError` for a missing variance, edit count or popularity entry, no row for a playlist the filters drop, otherwise the row; it has no contract of its own, and RowOfCases and RowOfLayout below state its cases and its twenty cells |
| Coherence.RowOfCases | services/coherence_service.py:79-115 | a missing variance, edit count or popularity entry raises `KeyError`, in the order the loop reads them, while a missing artist entry does not; a playlist gives a row exactly when it passes the filters and no coherence raises |
| Coherence.RowOfLayout | services/coherence_service.py:85-112 | a kept row has twenty cells in column order: length, log and empty bucket; edits, log and empty bucket; popularity and empty bucket; the 0/1 collaboration flag; the ten label coherences; the artist coherence, or NaN with no artist entry |
| Coherence.BuildRow | services/coherence_service.py:80-115 | the loop body, with its inner label loop, computes that playlist's row, skip or exception |
| Coherence.LabelCellsStopped | services/coherence_service.py:103-104 | once a label raises, the later labels do not matter |
| Coherence.CollectStopped | services/coherence_service.py:79-115 | once a playlist raises, the later playlists do not matter |
| Coherence.CollectRows | services/coherence_service.py:77-115 | the loop succeeds exactly when no playlist raises; then index and rows have one entry each per kept playlist, in order, and each row is the kept row of its playlist |
| Coherence.BuildRows | services/coherence_service.py:77-115 | the playlist loop computes the collected index and rows, or the first exception |
| Coherence.BucketedCells | services/coherence_service.py:117-119 | bucketing fills the three empty bucket cells with 0, 1 or 2 and leaves every other cell as it was |
| Coherence.CategorizedThrice | services/coherence_service.py:117-119 | the three `categorizes` calls succeed on a kept row and give its bucketed row |
| Coherence.BucketAll | services/coherence_service.py:117-119 | every kept row is rewritten in place to its bucketed row |
| Coherence.CacheFile | services/coherence_service.py:42-45 | the cache file ends in `coherence_service_shuffled.pk` for a shuffled service and `coherence_service.pk` otherwise |
| Coherence.ExportPath | services/coherence_service.py:207-211 | the export file ends in `coherence.json` for a shuffled service and `coherence_shuffled.json` otherwise |
| Coherence.EndingOfEnding | services/coherence_service.py:207-211 | a path ending in `p` ends in a name no longer than `p` exactly when `p` ends in it |
| Coherence.ShuffledExportUnmarked | services/coherence_service.py:208-209 | the shuffled service's export name does not end in `_shuffled.json` |
| Coherence.MarkedName | services/coherence_service.py:211 | a path ending in `coherence_shuffled.json` ends in `_shuffled.json` |
| Coherence.UnshuffledExportMarked | services/coherence_service.py:210-211 | the unshuffled service's export name ends in `_shuffled.json`: the export names are the other way round from the cache names |
| Coherence.CoherenceService.constructor | services/coherence_service.py:41-57 | the settings are stored, the cache file follows `shuffled`, the features are the labels and `artists`, and there is no frame |
| Coherence.CoherenceService.LoadFromData | services/coherence_service.py:59-121 | a variance service of the other shuffling fails the assertion; otherwise the frame holds the collected index, the column layout and the bucketed kept rows, and an exception leaves the old frame |
| CausalInference.IsSignificant | services/causal_inference_service.py:13-16 | significant exactly when the two-sided p-value `2 (1 - cdf(abs(ate / ate_se)))` lies below the threshold; with a zero standard error the z-score is infinite (significant for a positive threshold) unless the effect is zero too (NaN, never significant) |
| CausalInference.SignificanceMonotone | services/causal_inference_service.py:13-16 | under a non-decreasing distribution function a larger z-score or a larger threshold keeps an estimate significant |
| CausalInference.Without | services/causal_inference_service.py:48 | the kept covariates are a sublist of the prosperity features |
| CausalInference.CharsOfContained | services/causal_inference_service.py:48 | a string containing `p` contains each of its characters |
| CausalInference.WithoutNone | services/causal_inference_service.py:48 | no feature contains the key: nothing is removed |
| CausalInference.WithoutOne | services/causal_inference_service.py:48 | exactly one feature contains the key: just it is removed |
| CausalInference.DropsOnly | services/causal_inference_service.py:48 | a feature containing the key, one of whose characters no other feature holds, is the only one removed |
| CausalInference.LengthDropsOne | services/causal_inference_service.py:37-48 | `c_length` removes `log_length` and nothing else |
| CausalInference.NumEditsDropsOne | services/causal_inference_service.py:37-48 | `c_num_edits` removes `log_num_edits` and nothing else |
| CausalInference.PopularityDropsOne | services/causal_inference_service.py:37-48 | `c_popularity` removes `popularity` and nothing else |
| CausalInference.CollaborativeDropsOne | services/causal_inference_service.py:37-48 | `c_collaborative` removes `c_collaborative` and nothing else |
| CausalInference.CovariatesDropOne | services/causal_inference_service.py:47-49 | each independent variable removes exactly its own prosperity feature, so the length assertion never fails for them |
| CausalInference.ColumnsOf | services/causal_inference_service.py:57 | selecting columns by name succeeds exactly when every name is a column, and then gives each name's position |
| CausalInference.Group | services/causal_inference_service.py:59-62 | the group holds exactly the positions of the rows whose categorical value matches |
| CausalInference.Candidates | services/causal_inference_service.py:47-63 | the assertions on the variable and the replacements, a missing frame or column, and a group smaller than `size` all raise; otherwise the covariates lack one feature and both groups are the complete rows with the right value, each of at least `size` rows |
| CausalInference.SampleSizes | services/causal_inference_service.py:65-70 | the sample sizes `(size, 90000)` when `r1` is truthy and `(90000, size)` otherwise; it has no contract of its own, and InferCases below shows these are the sizes drawn and recorded |
| CausalInference.Infer | services/causal_inference_service.py:46-97 | `causal_inference` with the seed iterator at `pos`: it takes at most two seeds, and exactly two when it succeeds; InferCases below states when it succeeds and what it records |
| CausalInference.InferCases | services/causal_inference_service.py:46-97 | a contrast that passes its checks succeeds exactly when both groups can give their samples and two seeds are left; it takes exactly two seeds, the first for group a, and records `(len a, len b)` and one estimate under the estimator's name |
| CausalInference.InferTakesTwo | services/causal_inference_service.py:65-70 | every successful contrast takes exactly two seeds |
| CausalInference.SeedIterator.constructor | services/causal_inference_service.py:102 | `iter(seed_sequence)` starts at the first seed |
| CausalInference.SeedIterator.Next | services/causal_inference_service.py:66-70 | the next seed, or `StopIteration` once all are taken, without moving |
| CausalInference.SetDefault | services/causal_inference_service.py:109 | after `setdefault` both levels of the table exist |
| CausalInference.SetDefaultKeeps | services/causal_inference_service.py:109 | `setdefault` never overwrites a recorded contrast |
| CausalInference.StepOfSteps | services/causal_inference_service.py:110-131 | the contrast step of a service is a step of that service |
| CausalInference.ContrastCount | services/causal_inference_service.py:110-121 | one contrast for `c_collaborative`, two for the other variables |
| CausalInference.ContrastStep | services/causal_inference_service.py:110-131 | one contrast of the walk: once an exception has ended the walk it changes nothing, and it never saves; ContrastKeeps and ContrastTakesTwo below state that it keeps what is recorded and takes two seeds, cached or not |
| CausalInference.ContrastHalts | services/causal_inference_service.py:110-131 | once an exception has ended the walk, a contrast step changes nothing |
| CausalInference.ContrastKeeps | services/causal_inference_service.py:111-129 | a contrast never overwrites a recorded contrast, and one that goes on has recorded its own |
| CausalInference.ContrastRecords | services/causal_inference_service.py:111-129 | every contrast step of the service keeps what is recorded |
| CausalInference.ContrastTakesTwo | services/causal_inference_service.py:111-129 | every contrast, cached or new, takes exactly two seeds |
| CausalInference.ContrastStepsTwo | services/causal_inference_service.py:111-129 | every contrast step of the service takes two seeds |
| CausalInference.ShuffledNotSignificant | services/causal_inference_service.py:130-131 | in shuffled mode a new contrast for a variable other than `c_collaborative` that the walk gets past has a weighting estimate, and it is not significant |
| CausalInference.ContrastsStuck | services/causal_inference_service.py:121-129 | once an exception has ended the contrast loop, the later contrasts change nothing |
| CausalInference.PairsStuck | services/causal_inference_service.py:108-132 | once an exception has ended the dependent loop, the later pairs change nothing |
| CausalInference.VariablesStuck | services/causal_inference_service.py:107-132 | once an exception has ended the walk, the later variables change nothing |
| CausalInference.ContrastsTakeTwo | services/causal_inference_service.py:121-129 | `n` contrasts that go on take `2 n` seeds |
| CausalInference.SeventySevenCells | services/causal_inference_service.py:13 | the walk has 77 contrasts, and the default threshold shares 0.05 among them |
| CausalInference.PairStep | services/causal_inference_service.py:109-132 | one `(variable, dependent)` pair: `setdefault`, then its contrasts and one save, except that a cached `c_collaborative` contrast takes its two seeds and skips the save; it has no contract of its own, and PairTakesItsCells, PairKeeps and PairFills below state its seeds, what it keeps and what it records |
| CausalInference.PairTakesItsCells | services/causal_inference_service.py:109-132 | a pair that goes on takes two seeds per contrast |
| CausalInference.PairsTakeTheirCells | services/causal_inference_service.py:108-132 | `n` pairs that go on take two seeds per contrast of each |
| CausalInference.WalkTakesTwoPerCell | services/causal_inference_service.py:107-132 | the seeds a contrast gets do not depend on the cache: while the walk goes on it has taken exactly two seeds per contrast so far, recorded or not |
| CausalInference.ContrastsKeep | services/causal_inference_service.py:121-129 | the contrast loop never overwrites a recorded contrast |
| CausalInference.ContrastsFill | services/causal_inference_service.py:121-129 | a contrast loop that goes on has recorded each of its contrasts |
| CausalInference.FilledKept | services/causal_inference_service.py:109-129 | a pair with all contrasts recorded stays so as the table grows |
| CausalInference.PairKeeps | services/causal_inference_service.py:109-132 | a pair never overwrites a recorded contrast |
| CausalInference.PairKeepsFilled | services/causal_inference_service.py:109-132 | a pair leaves every other finished pair of the variable finished |
| CausalInference.PairKeepsFrom | services/causal_inference_service.py:109-132 | a pair keeps everything an earlier table held |
| CausalInference.PairFills | services/causal_inference_service.py:109-132 | a pair that goes on has recorded all its contrasts |
| CausalInference.PairsKeep | services/causal_inference_service.py:108-132 | the dependent loop never overwrites a recorded contrast |
| CausalInference.PairsFill | services/causal_inference_service.py:108-132 | a dependent loop that goes on has recorded every contrast of each pair it visited |
| CausalInference.PairsKeepFilled | services/causal_inference_service.py:108-132 | the dependent loop leaves finished pairs of other variables finished |
| CausalInference.WalkKeeps | services/causal_inference_service.py:104-132 | the walk, finished or not, never overwrites a recorded contrast, so a resumed run keeps what the cache held |
| CausalInference.WalkFillsOne | services/causal_inference_service.py:107-132 | a walk that goes on past variable `c` has recorded every contrast of its pairs |
| CausalInference.WalkFills | services/causal_inference_service.py:107-132 | a walk that ends without an exception has recorded every contrast of every pair |
| CausalInference.FilePath | services/causal_inference_service.py:27-34 | the cache file ends in `_shuffled.pk` for a shuffled service and in `.pk` otherwise |
| CausalInference.ServiceName | services/causal_inference_service.py:27-30 | the file name starts `matching_service_` for the matching estimator and `weighting_service_` otherwise; ServiceNameEnds below gives its end |
| CausalInference.ServiceNameEnds | services/causal_inference_service.py:27-30 | the service name is relative and ends in the last digit of the size |
| CausalInference.DigitNotShuffled | services/causal_inference_service.py:31-34 | a name ending in a digit, followed by `.pk`, does not end in `_shuffled.pk` |
| CausalInference.FilePathsDiffer | services/causal_inference_service.py:27-34 | the shuffled and the unshuffled service never share a cache file |
| CausalInference.CausalInferenceService.constructor | services/causal_inference_service.py:21-44 | the attributes as `__init__` sets them, for an estimator that passes its assertion, with an empty table |
| CausalInference.CausalInferenceService.New | services/causal_inference_service.py:21-44 | an estimator other than `matching` and `weighting` fails the assertion; otherwise a new service with the cache path of its estimator, size and shuffling |
| CausalInference.CausalInferenceService.WalkerOfWalks | services/causal_inference_service.py:107-132 | the service's own walker walks its variables with its contrast step |
| CausalInference.CausalInferenceService.WalkerSound | services/causal_inference_service.py:107-132 | the service's contrast step halts on an exception, keeps what is recorded and takes two seeds |
| CausalInference.CausalInferenceService.SelectGroups | services/causal_inference_service.py:47-63 | the checks at the head of `causal_inference` and the two groups they give, as the candidates |
| CausalInference.CausalInferenceService.CausalInference | services/causal_inference_service.py:46-97 | the result and the seeds taken are those of the contrast specification |
| CausalInference.CausalInferenceService.Contrast | services/causal_inference_service.py:110-131 | one contrast moves table, seeds, saves and exception as the contrast step does |
| CausalInference.CausalInferenceService.Pair | services/causal_inference_service.py:109-132 | one pair, as the pair step: saved once after its contrasts, except a cached `c_collaborative` pair, whose `continue` takes its two seeds and also skips the save |
| CausalInference.CausalInferenceService.Pairs | services/causal_inference_service.py:108-132 | the dependent loop of one variable, as the walk over its pairs |
| CausalInference.CausalInferenceService.Variables | services/causal_inference_service.py:107-132 | the loop over the variables, as the whole walk |
| CausalInference.CausalInferenceService.LoadFromData | services/causal_inference_service.py:99-132 | a coherence service of the other shuffling fails the assertion with nothing changed; otherwise the table starts from the cache when it is used and exists, and ends, with the saves and the outcome, as the walk leaves them |

## Left out

- File and process I/O are outside the model; each loader takes the file's contents already read, as sequences of lines, rows or records. This covers `os.walk`, `open`, CSV and JSON reading, pickling in `services/service.py`, `save`/`load_from_cache` and the `save`/`load`/`__main__` drivers.
- `ProcessPoolExecutor` fan-out in the variance services is a sequential map over the batch, in submission order; no concurrency is modelled.
- Printing, timing and progress messages are left out: they have no effect on the results.
- The statistics of `services/coherence_service.py` (`check_normality`, `check_homogeneity`, `check_size`, `correlation_analysis`, `get_stats`) are scipy/pandas calls and are left out. So is `np.percentile` for the popularity cutpoints, which are a parameter.
- `CausalModel` estimation, pandas `sample`, `np.random.permutation` and `norm.cdf` are foreign. They are the parameters `sample`, `fit` and `cdf` of `causal_inference` and `is_significant`.
- `services/latex_table.py`, `scripts/statistics.py`, `services/num_edits_service.py` and `services/popularity_service.py` are not part of this model. Edit counts and popularities arrive as maps.
- `SeedSequence(seed).generate_state(256)` is given as the sequence of seeds, and `Random(seed)` as an abstract stream of draws.
- Cosine similarity of embeddings, the `utils.tonality_distances` table, `math.log`/`np.log` and `str_to_bool` are function parameters. Number parsing is a table from strings to numbers.
- The `{threshold:3.1f}` float formatting of cache names is a parameter, and `scipy.sparse` matrices are a map from (row, column) to value.
- IEEE float rounding, float32 storage and numpy dtypes are left out: values are `real` with an explicit NaN marker. Python's `float()` also accepts `'nan'`, `'inf'` and `'-inf'`, and loudness is never range-checked, so `line_to_feature` accepts a row whose loudness is `'nan'`; the real-valued parse table cannot express such a value and either refuses the cell with `ValueError` or reads it as some real.
- Python's set and dict iteration order is left open: every iteration order over a set is allowed, and dicts are maps read through their keys.
- VarianceUtil.TonalityDistance: an index outside the table (the key 12 with mode 1 gives 24) is not an `IndexError`; the table is total. The lemma TonalityIndexRange shows that 24 is reachable.
- VarianceUtil.SequentialVariance: the step `d` is a natural number; Python's negative slicing for a negative step is left out.
- ArtistVariance.SequentialVariance: for an empty embedding list Python returns `-0.0`; the model returns `0.0`.
- NormalizedFeatures.NormalizedFeatureService.LoadFromData: a zero tempo range is refused with `ZeroDivisionError` and nothing changes, where numpy would store NaN or infinity after a warning.
- NormalizedFeatures.Tempo: it requires a non-zero range, the case `LoadFromData` refuses; numpy's NaN or infinity for a zero range is not modelled.
- AudioFeatures.AudioFeature.SetItem: a value of the wrong kind for a label (a number for tonality, a pair elsewhere) is refused with `TypeError`, because the fields are typed; Python would store it.
- FeatureVariance.FeatureVarianceService.Transform: the shuffled order is returned as the playlist's track order. The source shuffles `playlist.tracks` in place, and that list is shared with the playlist service; the aliasing is not modelled.
- CausalInference.CausalInferenceService.constructor: it requires the estimator to be `matching` or `weighting`. The assertion's failure is modelled by `New`.
- PlaylistServices.Lower: only `A`-`Z` are lowered. Python's `str.lower()` also lowers every other cased Unicode letter and can change the length (`'İ'` becomes two characters); the model lowers titles holding such letters differently from the code.
- TrackInfoServices.TracksFileNames: the three digits are ASCII `0`-`9` (`Common.IsDigit`). The pattern's `\d` also matches any other Unicode decimal digit, so such file names pass the code's filter but not the model's.
- FeatureRows.FeaturesFileNames: the same ASCII-only reading of `\d` as `TrackInfoServices.TracksFileNames`.
- VarianceUtil.GetCoherence: a zero all-pairs variance that passes the threshold raises `ZeroDivisionError`. That is what a Python float does. When the variances are numpy values (tonality-table lookups, cosine similarities), numpy returns infinity or NaN with a warning instead; that case is not modelled.
- FeatureServices.FeatureService.LoadFromData: the objects stored are tied to the rows read through the ghost `read` parameter. `Reader(parsers)` is the parser of `line_to_feature`.
- Coherence.CoherenceService.LoadFromData: it requires every feature-variance entry to hold exactly the ten feature labels, as `features_to_variance` builds it. The label loop then reads them in label order, which is the dict's insertion order; an entry built any other way is not covered.
