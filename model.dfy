/**
 * The result shapers: typed entities built from raw engine hits and aggregation buckets,
 * and their dictionary renderings.
 */
module Model {
  import opened Wrappers
  import opened Engine
  import opened Seqs
  import Json

  // ===== Track =====

  /** A track as the service returns it; `None` wherever Python would hold `None`. */
  datatype Track = Track(
    trackId: Option<string>,
    trackName: Option<string>,
    albumName: Option<string>,
    popularity: Option<int>,
    trackGenre: Option<string>,
    artists: Option<string>,
    similarity: Option<real>)

  /** `Track.from_elasticsearch_hit`: absent text fields default to "", absent popularity to 0, absent track id to the hit's `_id`. */
  function TrackFromHit(hit: Hit, similarity: Option<real>): (t: Track)
    ensures hit.source.trackId.Absent? ==> t.trackId == Some(hit.id)
    ensures hit.source.trackName.Absent? ==> t.trackName == Some("")
    ensures hit.source.albumName.Absent? ==> t.albumName == Some("")
    ensures hit.source.popularity.Absent? ==> t.popularity == Some(0)
    ensures hit.source.trackGenre.Absent? ==> t.trackGenre == Some("")
    ensures hit.source.artists.Absent? ==> t.artists == Some("")
    ensures t.similarity == similarity
  {
    var s := hit.source;
    Track(Get(s.trackId, hit.id), Get(s.trackName, ""), Get(s.albumName, ""), Get(s.popularity, 0),
          Get(s.trackGenre, ""), Get(s.artists, ""), similarity)
  }

  function Stored<T>(o: Option<T>): Field<T> {
    match o
    case Some(v) => Present(v)
    case None => Null
  }

  /** The `_source` under which the indexer stores a track (a `None` field is stored as null). */
  function StoredSource(t: Track): Source {
    Source(Stored(t.trackId), Stored(t.trackName), Stored(t.albumName), Stored(t.popularity),
           Stored(t.trackGenre), Stored(t.artists), Absent)
  }

  /** Reading back a stored track, whatever its `_id` and score, gives the same track. */
  lemma TrackFromStoredHit(t: Track, id: string, score: real)
    ensures TrackFromHit(Hit(id, score, StoredSource(t)), t.similarity) == t
  {
  }

  function StrValue(o: Option<string>): Json.Value {
    match o
    case Some(s) => Json.Str(s)
    case None => Json.Null
  }

  /** `dataclasses.asdict` of a track: every field, `None` as null. */
  function TrackAsDict(t: Track): map<string, Json.Value> {
    map[
      "track_id" := StrValue(t.trackId),
      "track_name" := StrValue(t.trackName),
      "album_name" := StrValue(t.albumName),
      "popularity" := (match t.popularity case Some(p) => Json.Int(p) case None => Json.Null),
      "track_genre" := StrValue(t.trackGenre),
      "artists" := StrValue(t.artists),
      "similarity" := (match t.similarity case Some(x) => Json.Real(x) case None => Json.Null)
    ]
  }

  /** `Track.to_dict`: a key appears exactly for the fields that are not `None`. */
  function TrackToDict(t: Track): (d: map<string, Json.Value>)
    ensures "track_id" in d <==> t.trackId.Some?
    ensures "track_name" in d <==> t.trackName.Some?
    ensures "album_name" in d <==> t.albumName.Some?
    ensures "popularity" in d <==> t.popularity.Some?
    ensures "track_genre" in d <==> t.trackGenre.Some?
    ensures "artists" in d <==> t.artists.Some?
    ensures "similarity" in d <==> t.similarity.Some?
    ensures forall k :: k in d ==> k in TrackAsDict(t) && d[k] == TrackAsDict(t)[k] != Json.Null
  {
    Json.DropNone(TrackAsDict(t))
  }

  function StrAt(d: map<string, Json.Value>, k: string): Option<string> {
    if k in d && d[k].Str? then Some(d[k].s) else None
  }

  /** Reads a track back from its dictionary; a missing key reads as `None`. */
  function TrackFromDict(d: map<string, Json.Value>): Track {
    Track(StrAt(d, "track_id"), StrAt(d, "track_name"), StrAt(d, "album_name"),
          if "popularity" in d && d["popularity"].Int? then Some(d["popularity"].i) else None,
          StrAt(d, "track_genre"), StrAt(d, "artists"),
          if "similarity" in d && d["similarity"].Real? then Some(d["similarity"].r) else None)
  }

  /** Dropping the `None` fields loses nothing: the dictionary determines the track. */
  lemma TrackDictRoundTrip(t: Track)
    ensures TrackFromDict(TrackToDict(t)) == t
  {
    TrackDictIds(t);
    TrackDictText(t);
    TrackDictNumbers(t);
  }

  lemma TrackDictIds(t: Track)
    ensures var d := TrackToDict(t);
      StrAt(d, "track_id") == t.trackId && StrAt(d, "track_genre") == t.trackGenre
  {
    var d := TrackToDict(t);
    assert t.trackId.Some? ==> d["track_id"] == Json.Str(t.trackId.value);
    assert t.trackGenre.Some? ==> d["track_genre"] == Json.Str(t.trackGenre.value);
  }

  lemma TrackDictText(t: Track)
    ensures var d := TrackToDict(t);
      StrAt(d, "track_name") == t.trackName && StrAt(d, "album_name") == t.albumName && StrAt(d, "artists") == t.artists
  {
    var d := TrackToDict(t);
    assert t.trackName.Some? ==> d["track_name"] == Json.Str(t.trackName.value);
    assert t.albumName.Some? ==> d["album_name"] == Json.Str(t.albumName.value);
    assert t.artists.Some? ==> d["artists"] == Json.Str(t.artists.value);
  }

  lemma TrackDictNumbers(t: Track)
    ensures var d := TrackToDict(t);
      && (if "popularity" in d && d["popularity"].Int? then Some(d["popularity"].i) else None) == t.popularity
      && (if "similarity" in d && d["similarity"].Real? then Some(d["similarity"].r) else None) == t.similarity
  {
    var d := TrackToDict(t);
    assert t.popularity.Some? ==> d["popularity"] == Json.Int(t.popularity.value);
    assert t.similarity.Some? ==> d["similarity"] == Json.Real(t.similarity.value);
  }

  // ===== Album / ArtistAlbums =====

  datatype Album = Album(artist: string, name: string, nbTracks: int)

  datatype ArtistAlbums = ArtistAlbums(artist: string, totalAlbums: int, albums: seq<Album>)

  /** `result.get('aggregations', {}).get('albums', {}).get('buckets', [])`. */
  function AlbumBuckets(resp: Response): seq<Bucket> {
    match resp.aggregations
    case None => []
    case Some(aggs) =>
      if "albums" in aggs && aggs["albums"].Buckets? then aggs["albums"].buckets else []
  }

  /**
   * `ArtistAlbums.from_elasticsearch_result`: one album per bucket, in bucket order, each
   * attributed to the queried artist; a missing key names it "Unknown", a missing count is 0.
   */
  function ArtistAlbumsFromResult(artistName: string, resp: Response): (r: ArtistAlbums)
    ensures r.artist == artistName
    ensures r.totalAlbums == |r.albums| == |AlbumBuckets(resp)|
    ensures forall i :: 0 <= i < |r.albums| ==> r.albums[i].artist == artistName
    ensures forall i :: 0 <= i < |r.albums| ==>
      var b := AlbumBuckets(resp)[i];
      && (b.key.None? ==> r.albums[i].name == "Unknown")
      && (b.key.Some? ==> r.albums[i].name == b.key.value)
      && (b.docCount.None? ==> r.albums[i].nbTracks == 0)
      && (b.docCount.Some? ==> r.albums[i].nbTracks == b.docCount.value)
  {
    var buckets := AlbumBuckets(resp);
    var albums := seq(|buckets|, i requires 0 <= i < |buckets| =>
      Album(artistName,
            match buckets[i].key case Some(k) => k case None => "Unknown",
            match buckets[i].docCount case Some(n) => n case None => 0));
    ArtistAlbums(artistName, |albums|, albums)
  }

  // ===== SearchResult =====

  datatype SearchResult = SearchResult(
    totalTracks: int,
    results: seq<Track>,
    filters: Option<map<string, Json.Value>>,
    artist: Option<string>)

  function TracksOf(hits: seq<Hit>): seq<Track> {
    seq(|hits|, i requires 0 <= i < |hits| => TrackFromHit(hits[i], None))
  }

  /** The result `SearchResult.from_search_hits` builds. */
  function SearchResultOf(hits: seq<Hit>, total: int, filters: Option<map<string, Json.Value>>, artist: Option<string>): SearchResult {
    SearchResult(total, TracksOf(hits), filters, artist)
  }

  /**
   * `SearchResult.from_search_hits`: one track per hit in hit order, the engine total as
   * `total_tracks` (not the number of tracks), filters and artist passed through.
   */
  method FromSearchHits(hits: seq<Hit>, total: int, filters: Option<map<string, Json.Value>>, artist: Option<string>)
    returns (sr: SearchResult)
    ensures sr.totalTracks == total && sr.filters == filters && sr.artist == artist
    ensures |sr.results| == |hits|
    ensures forall i :: 0 <= i < |hits| ==> sr.results[i] == TrackFromHit(hits[i], None)
    ensures sr == SearchResultOf(hits, total, filters, artist)
  {
    var tracks: seq<Track> := [];
    for i := 0 to |hits|
      invariant |tracks| == i
      invariant forall k :: 0 <= k < i ==> tracks[k] == TrackFromHit(hits[k], None)
    {
      tracks := tracks + [TrackFromHit(hits[i], None)];
    }
    sr := SearchResult(total, tracks, filters, artist);
  }

  /** The hits the similarity shaper may use: those that are not the source track itself. */
  function IsOther(sourceId: string): Hit -> bool {
    (h: Hit) => h.id != sourceId
  }

  /** The hits the similarity shaper turns into tracks: the first `size` hits other than the source. */
  function SimilarHits(hits: seq<Hit>, sourceId: string, size: int): seq<Hit> {
    Prefix(Filter(hits, IsOther(sourceId)), size)
  }

  /** Each hit as a track whose similarity is its score minus one. */
  function Scored(hits: seq<Hit>): seq<Track> {
    seq(|hits|, i requires 0 <= i < |hits| => TrackFromHit(hits[i], Some(hits[i].score - 1.0)))
  }

  const SimilarityFilters: map<string, Json.Value> := map["similarity_search" := Json.Bool(true)]

  /** The result `SearchResult.from_similarity_search` builds. */
  function SimilarityResult(hits: seq<Hit>, sourceId: string, size: int): (r: SearchResult)
    ensures r.totalTracks == |r.results| <= |hits|
    ensures size <= 0 ==> r.results == []
    ensures r.filters == Some(map["similarity_search" := Json.Bool(true)]) && r.artist.None?
  {
    var tracks := Scored(SimilarHits(hits, sourceId, size));
    SearchResult(|tracks|, tracks, Some(SimilarityFilters), None)
  }

  /** `SearchResult.from_similarity_search`: skip the source hit, stop after `size` tracks. */
  method FromSimilaritySearch(hits: seq<Hit>, sourceId: string, size: int) returns (sr: SearchResult)
    ensures sr == SimilarityResult(hits, sourceId, size)
  {
    var tracks: seq<Track> := [];
    var count := 0;
    var i := 0;
    while i < |hits|
      invariant 0 <= i <= |hits|
      invariant tracks == Scored(Filter(hits[..i], IsOther(sourceId)))
      invariant count == |tracks| <= (if size < 0 then 0 else size)
    {
      SimilarStep(hits, i, sourceId);
      if hits[i].id == sourceId {
        i := i + 1;
        continue;
      }
      if count >= size {
        SimilarStop(hits, i, sourceId, size);
        break;
      }
      var track := TrackFromHit(hits[i], Some(hits[i].score - 1.0));
      ScoredSnoc(Filter(hits[..i], IsOther(sourceId)), hits[i]);
      tracks := tracks + [track];
      count := count + 1;
      i := i + 1;
    }
    if i == |hits| {
      SimilarStop(hits, i, sourceId, size);
    }
    sr := SearchResult(count, tracks, Some(SimilarityFilters), None);
  }

  /** One more hit extends the hits other than the source by that hit, unless it is the source. */
  lemma SimilarStep(hits: seq<Hit>, i: int, sourceId: string)
    requires 0 <= i < |hits|
    ensures Filter(hits[..i + 1], IsOther(sourceId)) ==
      Filter(hits[..i], IsOther(sourceId)) + (if hits[i].id != sourceId then [hits[i]] else [])
  {
    FilterSnoc(hits[..i], hits[i], IsOther(sourceId));
    assert hits[..i + 1] == hits[..i] + [hits[i]];
  }

  lemma ScoredSnoc(hs: seq<Hit>, h: Hit)
    ensures Scored(hs + [h]) == Scored(hs) + [TrackFromHit(h, Some(h.score - 1.0))]
  {
  }

  /**
   * The loop may stop once `size` tracks are collected, or at the end of the hits with at
   * most `size`: either way the hits it kept are the selected ones.
   */
  lemma SimilarStop(hits: seq<Hit>, i: int, sourceId: string, size: int)
    requires 0 <= i <= |hits|
    requires i == |hits| || |Filter(hits[..i], IsOther(sourceId))| == (if size < 0 then 0 else size)
    requires |Filter(hits[..i], IsOther(sourceId))| <= (if size < 0 then 0 else size)
    ensures SimilarHits(hits, sourceId, size) == Filter(hits[..i], IsOther(sourceId))
  {
    var kept := Filter(hits[..i], IsOther(sourceId));
    FilterPrefix(hits, i, IsOther(sourceId));
    if i == |hits| {
      assert hits[..i] == hits;
    }
  }

  /** The source track never comes back: every hit behind a similarity track is another hit. */
  lemma SimilarExcludesSource(hits: seq<Hit>, sourceId: string, size: int)
    ensures forall h :: h in SimilarHits(hits, sourceId, size) ==> h in hits && h.id != sourceId
    ensures (forall h :: h in hits ==> h.source.trackId == Present(h.id)) ==>
      forall t :: t in SimilarityResult(hits, sourceId, size).results ==> t.trackId != Some(sourceId)
  {
    var kept := Filter(hits, IsOther(sourceId));
    var sel := SimilarHits(hits, sourceId, size);
    forall h | h in sel
      ensures h in hits && h.id != sourceId
    {
      FilterMembership(hits, IsOther(sourceId), h);
    }
    if forall h :: h in hits ==> h.source.trackId == Present(h.id) {
      forall t | t in SimilarityResult(hits, sourceId, size).results
        ensures t.trackId != Some(sourceId)
      {
        var k :| 0 <= k < |sel| && t == Scored(sel)[k];
        assert sel[k] in sel;
      }
    }
  }

  /**
   * At most `size` tracks, `total_tracks` counts the tracks returned, and with `size + 1`
   * hits among which the source occurs at most once, exactly `size` tracks come back.
   */
  lemma SimilarCount(hits: seq<Hit>, sourceId: string, size: int)
    ensures var r := SimilarityResult(hits, sourceId, size);
      && r.totalTracks == |r.results|
      && (size >= 0 ==> |r.results| <= size)
    ensures size >= 0 && |hits| >= size + 1
      && (forall i, j :: 0 <= i < j < |hits| && hits[i].id == sourceId ==> hits[j].id != sourceId)
      ==> |SimilarityResult(hits, sourceId, size).results| == size
  {
    if size >= 0 && |hits| >= size + 1
      && (forall i, j :: 0 <= i < j < |hits| && hits[i].id == sourceId ==> hits[j].id != sourceId)
    {
      FilterLosesAtMostOne(hits, IsOther(sourceId));
    }
  }

  /**
   * Similarity tracks keep the relative order of their hits, and each similarity is the
   * hit's score minus one, so a score in [1, 2] gives a similarity in [0, 1].
   */
  lemma SimilarOrderAndScore(hits: seq<Hit>, sourceId: string, size: int)
    ensures var ts := SimilarityResult(hits, sourceId, size).results;
      var idx := KeptIndices(hits, IsOther(sourceId));
      && |ts| <= |idx|
      && (forall k :: 0 <= k < |ts| ==>
            0 <= idx[k] < |hits| && ts[k] == TrackFromHit(hits[idx[k]], Some(hits[idx[k]].score - 1.0)))
      && (forall k, l :: 0 <= k < l < |ts| ==> idx[k] < idx[l])
    ensures forall k :: 0 <= k < |SimilarHits(hits, sourceId, size)| ==>
      var h := SimilarHits(hits, sourceId, size)[k];
      1.0 <= h.score <= 2.0 ==>
        var s := SimilarityResult(hits, sourceId, size).results[k].similarity;
        s.Some? && 0.0 <= s.value <= 1.0
  {
    var kept := Filter(hits, IsOther(sourceId));
    var sel := SimilarHits(hits, sourceId, size);
    var ts := Scored(sel);
    FilterIsSubsequence(hits, IsOther(sourceId));
    assert |ts| == |sel| <= |kept|;
    forall k | 0 <= k < |sel|
      ensures sel[k] == kept[k]
      ensures ts[k] == TrackFromHit(sel[k], Some(sel[k].score - 1.0))
    {
    }
  }

  /** `SearchResult.to_dict`, the dictionary a caller receives. */
  function SearchResultDict(sr: SearchResult): (d: map<string, Json.Value>)
    ensures "total_tracks" in d && d["total_tracks"] == Json.Int(sr.totalTracks)
    ensures "filters" in d <==> sr.filters.Some? && |sr.filters.value| > 0
    ensures "filters" in d ==> d["filters"] == Json.Obj(sr.filters.value)
    ensures Truthy(sr.artist) ==>
      && "tracks" in d && "results" !in d && "artist" in d && d["artist"] == Json.Str(sr.artist.value)
      && d["tracks"] == RenderedTracks(sr.results)
    ensures !Truthy(sr.artist) ==>
      "results" in d && "tracks" !in d && "artist" !in d && d["results"] == RenderedTracks(sr.results)
    ensures forall k :: k in d ==> k in {"total_tracks", "filters", "results", "tracks", "artist"}
  {
    var base := map["total_tracks" := Json.Int(sr.totalTracks)];
    var withFilters :=
      if sr.filters.Some? && |sr.filters.value| > 0 then base["filters" := Json.Obj(sr.filters.value)] else base;
    if Truthy(sr.artist) then withFilters["artist" := Json.Str(sr.artist.value)]["tracks" := RenderedTracks(sr.results)]
    else withFilters["results" := RenderedTracks(sr.results)]
  }

  /** Python truthiness of an optional string: present and non-empty. */
  predicate Truthy(o: Option<string>) {
    o.Some? && o.value != ""
  }

  function RenderedTracks(ts: seq<Track>): Json.Value {
    Json.Arr(seq(|ts|, i requires 0 <= i < |ts| => Json.Obj(TrackToDict(ts[i]))))
  }

  /** `SearchResult.to_dict` step by step: the result list is moved under "tracks" for an artist search. */
  method ToDict(sr: SearchResult) returns (d: map<string, Json.Value>)
    ensures d == SearchResultDict(sr)
  {
    d := map["total_tracks" := Json.Int(sr.totalTracks), "results" := RenderedTracks(sr.results)];
    if sr.filters.Some? && |sr.filters.value| > 0 {
      d := d["filters" := Json.Obj(sr.filters.value)];
    }
    if Truthy(sr.artist) {
      d := d["artist" := Json.Str(sr.artist.value)];
      var moved := d["results"];
      d := (d - {"results"})["tracks" := moved];
    }
  }

  // ===== GenreStats / GenreComparison =====

  datatype GenreStats = GenreStats(
    genre: string,
    trackCount: int,
    avgDanceability: real,
    avgEnergy: real,
    avgValence: real,
    avgPopularity: real,
    avgTempo: real)

  datatype GenreComparison = GenreComparison(genres: seq<GenreStats>)

  /** The metric names the parser reads from a genre aggregation, `track_count` first. */
  const GenreMetricNames: seq<string> :=
    ["track_count", "avg_danceability", "avg_energy", "avg_valence", "avg_popularity", "avg_tempo"]

  /** `value or 0`. */
  function OrZero(v: Option<real>): real {
    match v
    case Some(x) => x
    case None => 0.0
  }

  /** Python's `int()` of a float: truncation toward zero. */
  function Truncate(x: real): (n: int)
    ensures x >= 0.0 ==> 0 <= n && n as real <= x < n as real + 1.0
    ensures x < 0.0 ==> n <= 0 && n as real - 1.0 < x <= n as real
  {
    if x >= 0.0 then x.Floor else -((-x).Floor)
  }

  /**
   * `GenreStats.from_aggregation`: fails when a metric is missing or the track count is
   * null; otherwise the track count truncated to an integer and each null average read as 0.
   */
  function GenreStatsFromAggregation(genre: string, agg: AggResult): (r: Result<GenreStats, Error>)
    ensures r.Ok? <==> CompleteMetrics(agg)
    ensures r.Ok? ==>
      var v := agg.values;
      && r.value.genre == genre
      && r.value.trackCount == Truncate(v["track_count"].value)
      && r.value.avgDanceability == OrZero(v["avg_danceability"])
      && r.value.avgEnergy == OrZero(v["avg_energy"])
      && r.value.avgValence == OrZero(v["avg_valence"])
      && r.value.avgPopularity == OrZero(v["avg_popularity"])
      && r.value.avgTempo == OrZero(v["avg_tempo"])
  {
    if !agg.Metrics? || "track_count" !in agg.values then Err(KeyError("track_count"))
    else
      var v := agg.values;
      if v["track_count"].None? then Err(TypeError("int() of None"))
      else if "avg_danceability" !in v then Err(KeyError("avg_danceability"))
      else if "avg_energy" !in v then Err(KeyError("avg_energy"))
      else if "avg_valence" !in v then Err(KeyError("avg_valence"))
      else if "avg_popularity" !in v then Err(KeyError("avg_popularity"))
      else if "avg_tempo" !in v then Err(KeyError("avg_tempo"))
      else Ok(GenreStats(genre, Truncate(v["track_count"].value),
                         OrZero(v["avg_danceability"]), OrZero(v["avg_energy"]), OrZero(v["avg_valence"]),
                         OrZero(v["avg_popularity"]), OrZero(v["avg_tempo"])))
  }

  /** `genre.replace('-', '_')`. */
  function ReplaceDashes(s: string): (r: string)
    ensures |r| == |s|
  {
    seq(|s|, i requires 0 <= i < |s| => if s[i] == '-' then '_' else s[i])
  }

  /** The aggregation key both the query builder and the parser derive from a genre name. */
  function AggKey(genre: string): (k: string)
    ensures |k| == 6 + |genre| && k[..6] == "genre_"
    ensures forall i :: 0 <= i < |genre| ==> k[6 + i] == (if genre[i] == '-' then '_' else genre[i])
    ensures '-' !in k[6..]
  {
    "genre_" + ReplaceDashes(genre)
  }

  /** Two genre names without underscores never share an aggregation key. */
  lemma AggKeyInjective(a: string, b: string)
    requires '_' !in a && '_' !in b
    requires AggKey(a) == AggKey(b)
    ensures a == b
  {
    var ka, kb := ReplaceDashes(a), ReplaceDashes(b);
    assert ka == AggKey(a)[6..] == AggKey(b)[6..] == kb;
    forall i | 0 <= i < |a|
      ensures a[i] == b[i]
    {
      assert ka[i] == kb[i];
      assert a[i] in a && b[i] in b;
    }
  }

  /** Names that differ only in '-' versus '_' share one key (the statistics cannot tell them apart). */
  lemma AggKeyCollision()
    ensures AggKey("hip-hop") == AggKey("hip_hop") == "genre_hip_hop"
  {
    assert ReplaceDashes("hip-hop") == "hip_hop";
    assert ReplaceDashes("hip_hop") == "hip_hop";
  }

  /** The parse of `GenreComparison.from_elasticsearch_result`, genre by genre in request order. */
  function GenreStatsOf(genreList: seq<string>, aggregations: Option<map<string, AggResult>>): Result<seq<GenreStats>, Error>
    decreases |genreList|
  {
    if genreList == [] then Ok([])
    else
      match GenreStatsOf(genreList[..|genreList| - 1], aggregations)
      case Err(e) => Err(e)
      case Ok(prev) =>
        var genre := genreList[|genreList| - 1];
        if aggregations.None? then Err(KeyError("aggregations"))
        else if AggKey(genre) !in aggregations.value then Ok(prev)
        else
          match GenreStatsFromAggregation(genre, aggregations.value[AggKey(genre)])
          case Err(e) => Err(e)
          case Ok(stats) => Ok(prev + [stats])
  }

  /** The result `GenreComparison.from_elasticsearch_result` builds. */
  function ComparisonOf(genreList: seq<string>, resp: Response): Result<GenreComparison, Error> {
    match GenreStatsOf(genreList, resp.aggregations)
    case Err(e) => Err(e)
    case Ok(stats) => Ok(GenreComparison(stats))
  }

  /** A failure while parsing the first genres is the failure of the whole parse. */
  lemma {:induction false} GenreStatsErrorPersists(genreList: seq<string>, j: int, aggregations: Option<map<string, AggResult>>)
    requires 0 <= j <= |genreList|
    requires GenreStatsOf(genreList[..j], aggregations).Err?
    ensures GenreStatsOf(genreList, aggregations) == GenreStatsOf(genreList[..j], aggregations)
    decreases |genreList| - j
  {
    if j < |genreList| {
      assert genreList[..j + 1][..j] == genreList[..j];
      GenreStatsErrorPersists(genreList, j + 1, aggregations);
    } else {
      assert genreList[..j] == genreList;
    }
  }

  /** `GenreComparison.from_elasticsearch_result`: append the stats of each requested genre whose key was answered. */
  method GenreComparisonFromResult(genreList: seq<string>, resp: Response) returns (r: Result<GenreComparison, Error>)
    ensures r == ComparisonOf(genreList, resp)
  {
    var stats: seq<GenreStats> := [];
    var i := 0;
    while i < |genreList|
      invariant 0 <= i <= |genreList|
      invariant GenreStatsOf(genreList[..i], resp.aggregations) == Ok(stats)
    {
      assert genreList[..i + 1][..i] == genreList[..i];
      var genre := genreList[i];
      var key := AggKey(genre);
      if resp.aggregations.None? {
        GenreStatsErrorPersists(genreList, i + 1, resp.aggregations);
        return Err(KeyError("aggregations"));
      }
      if key in resp.aggregations.value {
        var parsed := GenreStatsFromAggregation(genre, resp.aggregations.value[key]);
        if parsed.Err? {
          GenreStatsErrorPersists(genreList, i + 1, resp.aggregations);
          return Err(parsed.error);
        }
        stats := stats + [parsed.value];
      }
      i := i + 1;
    }
    assert genreList[..i] == genreList;
    r := Ok(GenreComparison(stats));
  }

  /** The requested genres whose aggregation key the response answers. */
  function IsAnswered(aggs: map<string, AggResult>): string -> bool {
    (g: string) => AggKey(g) in aggs
  }

  /** A metrics aggregation carrying every metric the parser reads, with a non-null count. */
  predicate CompleteMetrics(agg: AggResult) {
    agg.Metrics? && (forall m :: m in GenreMetricNames ==> m in agg.values) && agg.values["track_count"].Some?
  }

  /**
   * A successful parse lists exactly the answered genres, in request order, each under its
   * original requested name and with the statistics of the aggregation under its key.
   */
  lemma {:induction false} GenreStatsFollowRequest(genreList: seq<string>, aggs: map<string, AggResult>)
    requires GenreStatsOf(genreList, Some(aggs)).Ok?
    ensures var s := GenreStatsOf(genreList, Some(aggs)).value;
      var answered := Filter(genreList, IsAnswered(aggs));
      && |s| == |answered|
      && forall i :: 0 <= i < |s| ==>
           s[i].genre == answered[i] && AggKey(answered[i]) in aggs
           && Ok(s[i]) == GenreStatsFromAggregation(answered[i], aggs[AggKey(answered[i])])
    decreases |genreList|
  {
    if genreList != [] {
      GenreStatsFollowRequest(genreList[..|genreList| - 1], aggs);
    }
  }

  /** When every answered genre's aggregation is complete, the parse succeeds. */
  lemma {:induction false} GenreStatsSucceed(genreList: seq<string>, aggs: map<string, AggResult>)
    requires forall g :: g in genreList && AggKey(g) in aggs ==> CompleteMetrics(aggs[AggKey(g)])
    ensures GenreStatsOf(genreList, Some(aggs)).Ok?
    decreases |genreList|
  {
    if genreList != [] {
      var init := genreList[..|genreList| - 1];
      assert forall g :: g in init ==> g in genreList;
      GenreStatsSucceed(init, aggs);
      assert genreList[|genreList| - 1] in genreList;
    }
  }

  // ===== Artist / TopArtists =====

  datatype Artist = Artist(rank: int, artist: string, trackCount: int, avgPopularity: real, weightedScore: Option<real>)

  datatype TopArtists = TopArtists(genre: string, topArtists: seq<Artist>)

  /** The integer nearest to `x`, ties to the even one. */
  function RoundHalfEven(x: real): (n: int)
    ensures x - 0.5 <= n as real <= x + 0.5
  {
    var f := x.Floor;
    var frac := x - f as real;
    if frac < 0.5 then f
    else if frac > 0.5 then f + 1
    else if f % 2 == 0 then f else f + 1
  }

  /** `round(x, 1)` taken over the reals: the nearest tenth, ties to even. */
  function RoundTenth(x: real): (r: real)
    ensures x - 0.05 <= r <= x + 0.05
  {
    RoundHalfEven(x * 10.0) as real / 10.0
  }

  /** Rounding to tenths never reverses an order. */
  lemma RoundTenthMonotone(x: real, y: real)
    requires x <= y
    ensures RoundTenth(x) <= RoundTenth(y)
  {
    if x < y {
      var n, m := RoundHalfEven(x * 10.0), RoundHalfEven(y * 10.0);
      assert n as real <= x * 10.0 + 0.5 < y * 10.0 + 0.5 <= m as real + 1.0;
      assert n <= m;
    }
  }

  /**
   * `Artist.from_aggregation_bucket`: fails when the bucket lacks its key, its count or its
   * average (or a requested weighted score is null); the average is rounded to a tenth with
   * null read as 0, and a weighted score is set only when requested and present.
   */
  function ArtistFromBucket(rank: int, b: Bucket, includeWeighted: bool): (r: Result<Artist, Error>)
    ensures r.Ok? <==>
      && b.key.Some? && b.docCount.Some? && "avg_popularity" in b.metrics
      && (includeWeighted && "weighted_score" in b.metrics ==> b.metrics["weighted_score"].Some?)
    ensures r.Ok? ==>
      && r.value.rank == rank
      && r.value.artist == b.key.value
      && r.value.trackCount == b.docCount.value
      && r.value.avgPopularity == RoundTenth(OrZero(b.metrics["avg_popularity"]))
      && (r.value.weightedScore.Some? <==> includeWeighted && "weighted_score" in b.metrics)
  {
    if b.key.None? then Err(KeyError("key"))
    else if b.docCount.None? then Err(KeyError("doc_count"))
    else if "avg_popularity" !in b.metrics then Err(KeyError("avg_popularity"))
    else
      var artist := Artist(rank, b.key.value, b.docCount.value, RoundTenth(OrZero(b.metrics["avg_popularity"])), None);
      if includeWeighted && "weighted_score" in b.metrics then
        match b.metrics["weighted_score"]
        case None => Err(TypeError("round() of None"))
        case Some(w) => Ok(artist.(weightedScore := Some(RoundTenth(w))))
      else Ok(artist)
  }

  /** `Artist.to_dict`: every field but a missing weighted score. */
  function ArtistToDict(a: Artist): (d: map<string, Json.Value>)
    ensures "weighted_score" in d <==> a.weightedScore.Some?
    ensures d.Keys == {"rank", "artist", "track_count", "avg_popularity"} + (if a.weightedScore.Some? then {"weighted_score"} else {})
    ensures d["rank"] == Json.Int(a.rank) && d["artist"] == Json.Str(a.artist) && d["track_count"] == Json.Int(a.trackCount)
    ensures d["avg_popularity"] == Json.Real(a.avgPopularity)
    ensures a.weightedScore.Some? ==> d["weighted_score"] == Json.Real(a.weightedScore.value)
  {
    Json.DropNone(map[
      "rank" := Json.Int(a.rank),
      "artist" := Json.Str(a.artist),
      "track_count" := Json.Int(a.trackCount),
      "avg_popularity" := Json.Real(a.avgPopularity),
      "weighted_score" := match a.weightedScore case Some(w) => Json.Real(w) case None => Json.Null
    ])
  }

  /** `result["aggregations"]["all_artists"]["buckets"]`. */
  function ArtistBuckets(resp: Response): Result<seq<Bucket>, Error> {
    match resp.aggregations
    case None => Err(KeyError("aggregations"))
    case Some(aggs) =>
      if "all_artists" !in aggs then Err(KeyError("all_artists"))
      else if !aggs["all_artists"].Buckets? then Err(KeyError("buckets"))
      else Ok(aggs["all_artists"].buckets)
  }

  /** Artists for the buckets in order, ranked from 1. */
  function RankedArtists(buckets: seq<Bucket>, includeWeighted: bool): Result<seq<Artist>, Error>
    decreases |buckets|
  {
    if buckets == [] then Ok([])
    else
      match RankedArtists(buckets[..|buckets| - 1], includeWeighted)
      case Err(e) => Err(e)
      case Ok(prev) =>
        match ArtistFromBucket(|buckets|, buckets[|buckets| - 1], includeWeighted)
        case Err(e) => Err(e)
        case Ok(a) => Ok(prev + [a])
  }

  /** The result `TopArtists.from_elasticsearch_result` builds. */
  function TopArtistsOf(genre: string, resp: Response, size: int, includeWeighted: bool): Result<TopArtists, Error> {
    match ArtistBuckets(resp)
    case Err(e) => Err(e)
    case Ok(buckets) =>
      match RankedArtists(PySliceTo(buckets, size), includeWeighted)
      case Err(e) => Err(e)
      case Ok(artists) => Ok(TopArtists(genre, artists))
  }

  lemma {:induction false} RankedArtistsErrorPersists(buckets: seq<Bucket>, j: int, includeWeighted: bool)
    requires 0 <= j <= |buckets|
    requires RankedArtists(buckets[..j], includeWeighted).Err?
    ensures RankedArtists(buckets, includeWeighted) == RankedArtists(buckets[..j], includeWeighted)
    decreases |buckets| - j
  {
    if j < |buckets| {
      assert buckets[..j + 1][..j] == buckets[..j];
      RankedArtistsErrorPersists(buckets, j + 1, includeWeighted);
    } else {
      assert buckets[..j] == buckets;
    }
  }

  /** `TopArtists.from_elasticsearch_result`: enumerate the first `size` buckets from rank 1. */
  method TopArtistsFromResult(genre: string, resp: Response, size: int, includeWeighted: bool)
    returns (r: Result<TopArtists, Error>)
    ensures r == TopArtistsOf(genre, resp, size, includeWeighted)
  {
    var all := ArtistBuckets(resp);
    if all.Err? {
      return Err(all.error);
    }
    var buckets := PySliceTo(all.value, size);
    var artists: seq<Artist> := [];
    for i := 0 to |buckets|
      invariant RankedArtists(buckets[..i], includeWeighted) == Ok(artists)
    {
      assert buckets[..i + 1][..i] == buckets[..i];
      var a := ArtistFromBucket(i + 1, buckets[i], includeWeighted);
      if a.Err? {
        RankedArtistsErrorPersists(buckets, i + 1, includeWeighted);
        return Err(a.error);
      }
      artists := artists + [a.value];
    }
    assert buckets[..|buckets|] == buckets;
    r := Ok(TopArtists(genre, artists));
  }

  /** Ranks run 1..n in bucket order; each artist is its bucket's key with its bucket's count. */
  lemma {:induction false} RankedArtistsInOrder(buckets: seq<Bucket>, includeWeighted: bool)
    requires RankedArtists(buckets, includeWeighted).Ok?
    ensures var arts := RankedArtists(buckets, includeWeighted).value;
      && |arts| == |buckets|
      && forall i :: 0 <= i < |arts| ==>
           && arts[i].rank == i + 1
           && buckets[i].key == Some(arts[i].artist)
           && buckets[i].docCount == Some(arts[i].trackCount)
           && "avg_popularity" in buckets[i].metrics
           && arts[i].avgPopularity == RoundTenth(OrZero(buckets[i].metrics["avg_popularity"]))
    decreases |buckets|
  {
    if buckets != [] {
      RankedArtistsInOrder(buckets[..|buckets| - 1], includeWeighted);
    }
  }

  /**
   * At most `size` artists (for a non-negative size), ranked 1..n; when the engine returns
   * buckets ordered by non-increasing average popularity the artists are too, and when it
   * kept only buckets with at least `minCount` tracks so are the artists.
   */
  lemma TopArtistsShape(genre: string, resp: Response, size: int, includeWeighted: bool, minCount: int)
    requires TopArtistsOf(genre, resp, size, includeWeighted).Ok?
    ensures var arts := TopArtistsOf(genre, resp, size, includeWeighted).value.topArtists;
      && (size >= 0 ==> |arts| <= size)
      && (forall i :: 0 <= i < |arts| ==> arts[i].rank == i + 1)
    ensures var bs := ArtistBuckets(resp).value;
      var arts := TopArtistsOf(genre, resp, size, includeWeighted).value.topArtists;
      (forall i :: 0 <= i < |bs| && bs[i].docCount.Some? ==> bs[i].docCount.value >= minCount)
        ==> forall i :: 0 <= i < |arts| ==> arts[i].trackCount >= minCount
    ensures var bs := ArtistBuckets(resp).value;
      var arts := TopArtistsOf(genre, resp, size, includeWeighted).value.topArtists;
      (forall i, j :: 0 <= i < j < |bs| && "avg_popularity" in bs[i].metrics && "avg_popularity" in bs[j].metrics
         ==> OrZero(bs[i].metrics["avg_popularity"]) >= OrZero(bs[j].metrics["avg_popularity"]))
        ==> forall i, j :: 0 <= i < j < |arts| ==> arts[i].avgPopularity >= arts[j].avgPopularity
  {
    var bs := ArtistBuckets(resp).value;
    var sliced := PySliceTo(bs, size);
    RankedArtistsInOrder(sliced, includeWeighted);
    var arts := TopArtistsOf(genre, resp, size, includeWeighted).value.topArtists;
    assert forall i :: 0 <= i < |sliced| ==> sliced[i] == bs[i];
    forall i, j | 0 <= i < j < |arts|
      && (forall i, j :: 0 <= i < j < |bs| && "avg_popularity" in bs[i].metrics && "avg_popularity" in bs[j].metrics
           ==> OrZero(bs[i].metrics["avg_popularity"]) >= OrZero(bs[j].metrics["avg_popularity"]))
      ensures arts[i].avgPopularity >= arts[j].avgPopularity
    {
      RankedArtistsOk(sliced, includeWeighted, i);
      RankedArtistsOk(sliced, includeWeighted, j);
      RoundTenthMonotone(OrZero(bs[j].metrics["avg_popularity"]), OrZero(bs[i].metrics["avg_popularity"]));
    }
  }

  /** Every bucket behind a successful ranking carried its average. */
  lemma {:induction false} RankedArtistsOk(buckets: seq<Bucket>, includeWeighted: bool, i: int)
    requires RankedArtists(buckets, includeWeighted).Ok?
    requires 0 <= i < |buckets|
    ensures ArtistFromBucket(i + 1, buckets[i], includeWeighted).Ok?
    ensures "avg_popularity" in buckets[i].metrics
    decreases |buckets|
  {
    if i < |buckets| - 1 {
      RankedArtistsOk(buckets[..|buckets| - 1], includeWeighted, i);
    }
  }
}
