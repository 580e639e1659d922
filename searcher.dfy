/**
 * The searcher: query builders for every request the service sends to the engine, the
 * smart song resolver's fallback chain, the genre/album filter with its fuzzy fallback,
 * the similarity lookup and the two analytics queries.
 */
module Searcher {
  import opened Wrappers
  import opened Engine
  import opened Model
  import Seqs
  import Text
  import Json

  // ===== Constants =====

  /** Hits a filter, a partial search or a fuzzy album search shows at most (`[:10]`). */
  const ShownHits := 10
  /** The default page sizes of the searcher's methods. */
  const PhraseSize := 10
  const PartialSize := 20
  const FuzzySize := 10
  const AutoFuzziness := "AUTO"
  const AlbumsSize := 50
  const ArtistTracksSize := 100
  const FilterSize := 20
  const SimilarSize := 10
  const TopArtistsSize := 10
  /** The candidate pool of every nearest-neighbour request. */
  const KnnCandidates := 1000
  /** How many artist buckets the ranking aggregation asks for before truncation. */
  const ArtistBucketsSize := 500
  /** The bucket selector's hard-coded minimum number of tracks per artist. */
  const MinArtistTracks := 2

  const StopWords: seq<string> :=
    ["the", "a", "an", "and", "or", "but", "in", "on", "at", "is", "are", "was", "were", "this", "that"]

  // ===== Query builders =====

  /** A request for one page of `size` hits of a query, with no aggregation and no kNN clause. */
  predicate HitsRequest(b: SearchBody, size: int) {
    b.size == Some(size) && b.query.Some? && b.aggs == map[] && b.knn.None?
  }

  /** A request for aggregations only: no hits and no kNN clause. */
  predicate AggregationRequest(b: SearchBody) {
    b.size == Some(0) && b.knn.None?
  }

  /** The album buckets of the artist's tracks, at most `size` of them, and no hits. */
  function ArtistAlbumsBody(artistName: string, size: int): (b: SearchBody)
    ensures AggregationRequest(b) && b.query == Some(Match("artists", artistName))
    ensures b.aggs.Keys == {"albums"} && b.aggs["albums"].Terms?
    ensures b.aggs["albums"].field == "album_name.keyword" && b.aggs["albums"].size == size
    ensures b.aggs["albums"].order.None? && b.aggs["albums"].subs == map[]
  {
    SearchBody(Some(0), Some(Match("artists", artistName)),
               map["albums" := Terms("album_name.keyword", size, None, map[])], None)
  }

  /** `size` hits of a match on the artists field. */
  function TracksByArtistBody(artistName: string, size: int): (b: SearchBody)
    ensures HitsRequest(b, size) && b.query.value.Match?
    ensures b.query.value.field == "artists" && b.query.value.text == artistName
  {
    SearchBody(Some(size), Some(Match("artists", artistName)), map[], None)
  }

  /** `size` hits of a fuzzy term query on the title field with the given fuzziness. */
  function FuzzyBody(songName: string, fuzziness: string, size: int): (b: SearchBody)
    ensures HitsRequest(b, size) && b.query.value.Fuzzy?
    ensures b.query.value.field == "track_name" && b.query.value.value == songName && b.query.value.fuzziness == fuzziness
  {
    SearchBody(Some(size), Some(Fuzzy("track_name", songName, fuzziness)), map[], None)
  }

  /** `size` hits of a phrase match of the whole title on the title field. */
  function PhraseBody(songName: string, size: int): (b: SearchBody)
    ensures HitsRequest(b, size) && b.query.value.MatchPhrase?
    ensures b.query.value.field == "track_name" && b.query.value.text == songName
  {
    SearchBody(Some(size), Some(MatchPhrase("track_name", songName)), map[], None)
  }

  /** `size` hits of a multi-match on the title field alone where any one word suffices. */
  function PartialBody(partialTitle: string, size: int): (b: SearchBody)
    ensures HitsRequest(b, size) && b.query.value.MultiMatch?
    ensures b.query.value.text == partialTitle && b.query.value.fields == ["track_name"] && b.query.value.operator == Or
  {
    SearchBody(Some(size), Some(MultiMatch(partialTitle, ["track_name"], Or)), map[], None)
  }

  /** The term clauses of the exact filter: genre first, then album, each only when given. */
  function ExactFilterClauses(genre: Option<string>, album: Option<string>): seq<Clause> {
    (if Truthy(genre) then [Term("track_genre", genre.value)] else [])
    + (if Truthy(album) then [Term("album_name.keyword", album.value)] else [])
  }

  /** `size` hits of a bool query that only filters: one term clause per given value. */
  function FilterBody(genre: Option<string>, album: Option<string>, size: int): (b: SearchBody)
    ensures HitsRequest(b, size) && b.query.value.Bool? && b.query.value.must == []
    ensures |b.query.value.filter| == (if Truthy(genre) then 1 else 0) + (if Truthy(album) then 1 else 0)
    ensures Truthy(genre) ==> b.query.value.filter[0] == Term("track_genre", genre.value)
    ensures Truthy(album) ==> b.query.value.filter[|b.query.value.filter| - 1] == Term("album_name.keyword", album.value)
  {
    SearchBody(Some(size), Some(Bool(ExactFilterClauses(genre, album), [])), map[], None)
  }

  /** The filters echoed by `filter`: each given value, `None` for the other. */
  function AppliedFilters(genre: Option<string>, album: Option<string>): map<string, Json.Value> {
    map[
      "track_genre" := if Truthy(genre) then Json.Str(genre.value) else Json.Null,
      "album" := if Truthy(album) then Json.Str(album.value) else Json.Null
    ]
  }

  /**
   * `size` hits of a bool query that keeps the genre term when a genre is given and requires
   * an and-operator fuzzy match of the album name.
   */
  function FuzzyAlbumBody(genre: Option<string>, album: string, size: int): (b: SearchBody)
    ensures HitsRequest(b, size) && b.query.value.Bool?
    ensures b.query.value.filter == if Truthy(genre) then [Term("track_genre", genre.value)] else []
    ensures b.query.value.must == [FuzzyMatch("album_name", album, AutoFuzziness, And)]
  {
    SearchBody(Some(size),
               Some(Bool(if Truthy(genre) then [Term("track_genre", genre.value)] else [],
                         [FuzzyMatch("album_name", album, AutoFuzziness, And)])),
               map[], None)
  }

  /**
   * A kNN request alone: `size + 1` neighbours of `vector` on `audio_vector` among
   * `KnnCandidates` candidates, with no query, no aggregation and no page size.
   */
  function KnnBody(vector: Option<seq<real>>, size: int): (b: SearchBody)
    ensures b.size.None? && b.query.None? && b.aggs == map[] && b.knn.Some?
    ensures b.knn.value.field == "audio_vector" && b.knn.value.queryVector == vector
    ensures b.knn.value.k == size + 1 && b.knn.value.numCandidates == KnnCandidates
  {
    SearchBody(None, None, map[], Some(Knn("audio_vector", vector, size + 1, KnnCandidates)))
  }

  /** The six metric sub-aggregations of one genre. */
  function GenreMetricAggs(): map<string, Agg> {
    map[
      "avg_danceability" := Avg("danceability"),
      "avg_energy" := Avg("energy"),
      "avg_valence" := Avg("valence"),
      "avg_popularity" := Avg("popularity"),
      "avg_tempo" := Avg("tempo"),
      "track_count" := ValueCount("track_id")
    ]
  }

  function GenreAgg(genre: string): Agg {
    Scoped(Term("track_genre", genre), GenreMetricAggs())
  }

  /** `query["aggs"]` after the loop of `compare_genres`: a later genre overwrites an equal key. */
  function GenreAggs(genreList: seq<string>): (aggs: map<string, Agg>)
    ensures forall g :: g in genreList ==> AggKey(g) in aggs
    ensures forall k :: k in aggs ==> aggs[k].Scoped? && aggs[k].subs == GenreMetricAggs()
    decreases |genreList|
  {
    if genreList == [] then map[]
    else
      var genre := genreList[|genreList| - 1];
      GenreAggs(genreList[..|genreList| - 1])[AggKey(genre) := GenreAgg(genre)]
  }

  function CompareGenresBody(genreList: seq<string>): SearchBody {
    SearchBody(Some(0), None, GenreAggs(genreList), None)
  }

  /**
   * No hits; a query scoped to the genre and one terms aggregation of artists ranked by
   * average popularity, whose bucket selector keeps artists with `MinArtistTracks` tracks.
   */
  function TopArtistsBody(genre: string): (b: SearchBody)
    ensures AggregationRequest(b) && b.query == Some(TermQuery(Term("track_genre", genre)))
    ensures b.aggs.Keys == {"all_artists"} && b.aggs["all_artists"].Terms?
    ensures b.aggs["all_artists"].order == Some(Descending("avg_popularity"))
    ensures "popularity_filter" in b.aggs["all_artists"].subs
    ensures b.aggs["all_artists"].subs["popularity_filter"] == BucketSelector(map["avg_pop" := "avg_popularity", "track_count" := "_count"], MinArtistTracks)
  {
    SearchBody(Some(0), Some(TermQuery(Term("track_genre", genre))),
               map["all_artists" := Terms("artists.keyword", ArtistBucketsSize, Some(Descending("avg_popularity")),
                     map["avg_popularity" := Avg("popularity"),
                         "popularity_filter" := BucketSelector(map["avg_pop" := "avg_popularity", "track_count" := "_count"],
                                                               MinArtistTracks)])],
               None)
  }

  // ===== Specifications of the searches =====

  type Oracle = SearchBody -> Result<Response, Error>

  /** One hits search: run `body` and shape its hits (the first ten when `capped`). */
  function HitsSearch(search: Oracle, body: SearchBody, capped: bool, filters: map<string, Json.Value>, artist: Option<string>)
    : Result<SearchResult, Error>
  {
    match search(body)
    case Err(e) => Err(e)
    case Ok(resp) =>
      Ok(SearchResultOf(if capped then Seqs.PySliceTo(resp.hits, ShownHits) else resp.hits, resp.total, Some(filters), artist))
  }

  function SearchTypeFilters(searchType: string, query: string): map<string, Json.Value> {
    map["search_type" := Json.Str(searchType), "query" := Json.Str(query)]
  }

  function PhraseSearch(search: Oracle, songName: string, size: int): Result<SearchResult, Error> {
    HitsSearch(search, PhraseBody(songName, size), false, SearchTypeFilters("phrase", songName), None)
  }

  function PartialSearch(search: Oracle, partialTitle: string, size: int): Result<SearchResult, Error> {
    HitsSearch(search, PartialBody(partialTitle, size), true, SearchTypeFilters("partial", partialTitle), None)
  }

  function FuzzySearch(search: Oracle, songName: string, fuzziness: string, size: int): Result<SearchResult, Error> {
    HitsSearch(search, FuzzyBody(songName, fuzziness, size), false, SearchTypeFilters("fuzzy", songName), None)
  }

  /** A stage ends the resolver: it raised, or it reports matches. */
  predicate Stops(r: Result<SearchResult, Error>) {
    r.Err? || r.value.totalTracks > 0
  }

  function IsKeyword(): string -> bool {
    (w: string) => w !in StopWords
  }

  /** The lower-cased whitespace tokens of the title that are not stop words, in order. */
  function Keywords(songTitle: string): (kws: seq<string>)
    ensures |kws| <= |Text.Split(Text.Lower(songTitle))|
    ensures forall k :: 0 <= k < |kws| ==> Text.IsWord(kws[k]) && kws[k] !in StopWords
  {
    Seqs.FilterElements(Text.Split(Text.Lower(songTitle)), IsKeyword());
    Seqs.Filter(Text.Split(Text.Lower(songTitle)), IsKeyword())
  }

  function FuzzyWordSearch(search: Oracle, word: string): Result<SearchResult, Error> {
    FuzzySearch(search, word, AutoFuzziness, FuzzySize)
  }

  function FuzzyBodies(words: seq<string>): seq<SearchBody> {
    seq(|words|, i requires 0 <= i < |words| => FuzzyBody(words[i], AutoFuzziness, FuzzySize))
  }

  /** The fuzzy stage: the outcome of the first keyword that stops the chain, if any, and the requests issued. */
  datatype Chain = Chain(found: Option<Result<SearchResult, Error>>, issued: seq<SearchBody>)

  function FuzzyChain(search: Oracle, words: seq<string>): Chain
    decreases |words|
  {
    if words == [] then Chain(None, [])
    else
      var body := FuzzyBody(words[0], AutoFuzziness, FuzzySize);
      var r := FuzzyWordSearch(search, words[0]);
      if Stops(r) then Chain(Some(r), [body])
      else
        var rest := FuzzyChain(search, words[1..]);
        Chain(rest.found, [body] + rest.issued)
  }

  const NoMatchesFilters: string -> map<string, Json.Value> :=
    t => map["search_type" := Json.Str("smart"), "query" := Json.Str(t), "status" := Json.Str("no_matches")]

  /** The explicit empty result of an exhausted resolver. */
  function NoMatches(songTitle: string): SearchResult {
    SearchResult(0, [], Some(NoMatchesFilters(songTitle)), None)
  }

  /** The outcome of a chain of requests and the requests it issued, in order. */
  datatype Resolution = Resolution(result: Result<SearchResult, Error>, issued: seq<SearchBody>)

  /** What `song_searcher` returns and which searches it issues. */
  function SmartSearch(search: Oracle, songTitle: string): Resolution {
    var phrase := PhraseSearch(search, songTitle, PhraseSize);
    if Stops(phrase) then Resolution(phrase, [PhraseBody(songTitle, PhraseSize)])
    else
      var rest := KeywordSearch(search, songTitle);
      Resolution(rest.result, [PhraseBody(songTitle, PhraseSize)] + rest.issued)
  }

  /** The stages of `song_searcher` after an empty phrase search: partial, then fuzzy per keyword, then no matches. */
  function KeywordSearch(search: Oracle, songTitle: string): Resolution {
    var keyWords := Keywords(songTitle);
    if keyWords == [] then Resolution(Ok(NoMatches(songTitle)), [])
    else
      var keyPhrase := Text.Join(keyWords);
      var partial := PartialSearch(search, keyPhrase, PartialSize);
      if Stops(partial) then Resolution(partial, [PartialBody(keyPhrase, PartialSize)])
      else
        var fuzzy := FuzzyChain(search, keyWords);
        Resolution(if fuzzy.found.Some? then fuzzy.found.value else Ok(NoMatches(songTitle)),
                   [PartialBody(keyPhrase, PartialSize)] + fuzzy.issued)
  }

  /** What `filter` returns and which searches it issues. */
  function FilterSearch(search: Oracle, genre: Option<string>, album: Option<string>, size: int): Resolution {
    var exact := FilterBody(genre, album, size);
    match search(exact)
    case Err(e) => Resolution(Err(e), [exact])
    case Ok(resp) =>
      if resp.total == 0 && Truthy(album) then
        var fallback := FuzzyAlbumBody(genre, album.value, size);
        Resolution(HitsSearch(search, fallback, true, AppliedFilters(genre, album)["search_type" := Json.Str("fuzzy_fallback")], None),
                   [exact, fallback])
      else
        Resolution(Ok(SearchResultOf(Seqs.PySliceTo(resp.hits, ShownHits), resp.total, Some(AppliedFilters(genre, album)), None)),
                   [exact])
  }

  /** `find_similar_by_vector` reads these fields of the source document; a missing one raises. */
  predicate HasLookedUpFields(src: Source) {
    !src.audioVector.Absent? && !src.trackName.Absent? && !src.artists.Absent?
    && !src.trackGenre.Absent? && !src.popularity.Absent?
  }

  function VectorOf(src: Source): Option<seq<real>> {
    match src.audioVector
    case Present(v) => Some(v)
    case _ => None
  }

  // ===== The searcher =====

  class SpotifySearcher {
    const client: Client

    constructor (client: Client)
      ensures this.client == client
    {
      this.client := client;
    }

    /** `search_artist_albums`: one terms aggregation over album names for the artist's tracks. */
    method SearchArtistAlbums(artistName: string, size: int := AlbumsSize) returns (r: Result<ArtistAlbums, Error>)
      modifies client
      ensures client.searches == old(client.searches) + [ArtistAlbumsBody(artistName, size)]
      ensures client.gets == old(client.gets)
      ensures var resp := client.search(ArtistAlbumsBody(artistName, size));
        r == if resp.Err? then Err(resp.error) else Ok(ArtistAlbumsFromResult(artistName, resp.value))
    {
      var resp := client.Search(ArtistAlbumsBody(artistName, size));
      if resp.Err? {
        return Err(resp.error);
      }
      r := Ok(ArtistAlbumsFromResult(artistName, resp.value));
    }

    /** `search_tracks_by_artist`: every hit, the engine total, rendered under "tracks". */
    method SearchTracksByArtist(artistName: string, size: int := ArtistTracksSize) returns (r: Result<SearchResult, Error>)
      modifies client
      ensures client.searches == old(client.searches) + [TracksByArtistBody(artistName, size)]
      ensures client.gets == old(client.gets)
      ensures r == HitsSearch(client.search, TracksByArtistBody(artistName, size), false,
                              map["artist" := Json.Str(artistName)], Some(artistName))
    {
      var resp := client.Search(TracksByArtistBody(artistName, size));
      if resp.Err? {
        return Err(resp.error);
      }
      var sr := FromSearchHits(resp.value.hits, resp.value.total, Some(map["artist" := Json.Str(artistName)]), Some(artistName));
      r := Ok(sr);
    }

    method SearchSongFuzzy(songName: string, fuzziness: string := AutoFuzziness, size: int := FuzzySize) returns (r: Result<SearchResult, Error>)
      modifies client
      ensures client.searches == old(client.searches) + [FuzzyBody(songName, fuzziness, size)]
      ensures client.gets == old(client.gets)
      ensures r == FuzzySearch(client.search, songName, fuzziness, size)
    {
      var resp := client.Search(FuzzyBody(songName, fuzziness, size));
      if resp.Err? {
        return Err(resp.error);
      }
      var sr := FromSearchHits(resp.value.hits, resp.value.total, Some(SearchTypeFilters("fuzzy", songName)), None);
      r := Ok(sr);
    }

    method SearchSongPhrase(songName: string, size: int := PhraseSize) returns (r: Result<SearchResult, Error>)
      modifies client
      ensures client.searches == old(client.searches) + [PhraseBody(songName, size)]
      ensures client.gets == old(client.gets)
      ensures r == PhraseSearch(client.search, songName, size)
    {
      var resp := client.Search(PhraseBody(songName, size));
      if resp.Err? {
        return Err(resp.error);
      }
      var sr := FromSearchHits(resp.value.hits, resp.value.total, Some(SearchTypeFilters("phrase", songName)), None);
      r := Ok(sr);
    }

    method SearchSongPartial(partialTitle: string, size: int := PartialSize) returns (r: Result<SearchResult, Error>)
      modifies client
      ensures client.searches == old(client.searches) + [PartialBody(partialTitle, size)]
      ensures client.gets == old(client.gets)
      ensures r == PartialSearch(client.search, partialTitle, size)
    {
      var resp := client.Search(PartialBody(partialTitle, size));
      if resp.Err? {
        return Err(resp.error);
      }
      var sr := FromSearchHits(Seqs.PySliceTo(resp.value.hits, ShownHits), resp.value.total,
                               Some(SearchTypeFilters("partial", partialTitle)), None);
      r := Ok(sr);
    }

    /** `song_searcher`: phrase, then stop-word-stripped partial, then fuzzy per keyword, then no matches. */
    method SongSearcher(songTitle: string) returns (r: Result<SearchResult, Error>)
      modifies client
      ensures r == SmartSearch(client.search, songTitle).result
      ensures client.searches == old(client.searches) + SmartSearch(client.search, songTitle).issued
      ensures client.gets == old(client.gets)
    {
      r := SearchSongPhrase(songTitle);
      if Stops(r) {
        return;
      }
      ghost var afterPhrase := client.searches;
      r := KeywordStages(songTitle);
      ghost var rest := KeywordSearch(client.search, songTitle);
      assert client.searches == old(client.searches) + ([PhraseBody(songTitle, PhraseSize)] + rest.issued) by {
        assert afterPhrase == old(client.searches) + [PhraseBody(songTitle, PhraseSize)];
        assert client.searches == afterPhrase + rest.issued;
      }
    }

    /** The stages of `song_searcher` that run on the keywords of the title. */
    method KeywordStages(songTitle: string) returns (r: Result<SearchResult, Error>)
      modifies client
      ensures r == KeywordSearch(client.search, songTitle).result
      ensures client.searches == old(client.searches) + KeywordSearch(client.search, songTitle).issued
      ensures client.gets == old(client.gets)
    {
      var words := Text.Split(Text.Lower(songTitle));
      var keyWords := Seqs.Filter(words, IsKeyword());
      if keyWords != [] {
        var keyPhrase := Text.Join(keyWords);
        r := SearchSongPartial(keyPhrase);
        if Stops(r) {
          return;
        }
        var found := TryFuzzy(keyWords);
        if found.Some? {
          return found.value;
        }
      }
      r := Ok(NoMatches(songTitle));
    }

    /** The fuzzy stage of `song_searcher`: one fuzzy query per keyword, in order, until one matches or raises. */
    method TryFuzzy(keyWords: seq<string>) returns (found: Option<Result<SearchResult, Error>>)
      modifies client
      ensures found == FuzzyChain(client.search, keyWords).found
      ensures client.searches == old(client.searches) + FuzzyChain(client.search, keyWords).issued
      ensures client.gets == old(client.gets)
    {
      var i := 0;
      while i < |keyWords|
        invariant 0 <= i <= |keyWords|
        invariant client.searches == old(client.searches) + FuzzyBodies(keyWords[..i])
        invariant client.gets == old(client.gets)
        invariant forall j :: 0 <= j < i ==> !Stops(FuzzyWordSearch(client.search, keyWords[j]))
      {
        var r := SearchSongFuzzy(keyWords[i]);
        assert FuzzyBodies(keyWords[..i + 1]) == FuzzyBodies(keyWords[..i]) + [FuzzyBody(keyWords[i], AutoFuzziness, FuzzySize)];
        if Stops(r) {
          FuzzyChainSkips(client.search, keyWords, i);
          return Some(r);
        }
        i := i + 1;
      }
      FuzzyChainSkips(client.search, keyWords, i);
      assert keyWords[..i] == keyWords;
      found := None;
    }

    /** `filter`: an exact term filter per given value, with the fuzzy album fallback on zero hits. */
    method Filter(genre: Option<string> := None, album: Option<string> := None, size: int := FilterSize) returns (r: Result<SearchResult, Error>)
      modifies client
      ensures r == FilterSearch(client.search, genre, album, size).result
      ensures client.searches == old(client.searches) + FilterSearch(client.search, genre, album, size).issued
      ensures client.gets == old(client.gets)
    {
      var clauses: seq<Clause> := [];
      var applied: map<string, Json.Value> := map["track_genre" := Json.Null, "album" := Json.Null];
      if Truthy(genre) {
        clauses := clauses + [Term("track_genre", genre.value)];
        applied := applied["track_genre" := Json.Str(genre.value)];
      }
      if Truthy(album) {
        clauses := clauses + [Term("album_name.keyword", album.value)];
        applied := applied["album" := Json.Str(album.value)];
      }
      assert applied == AppliedFilters(genre, album);
      assert clauses == ExactFilterClauses(genre, album);
      var resp := client.Search(SearchBody(Some(size), Some(Bool(clauses, [])), map[], None));
      if resp.Err? {
        return Err(resp.error);
      }
      if resp.value.total == 0 && Truthy(album) {
        r := FuzzyAlbumSearch(genre, album.value, size, applied);
        return;
      }
      var sr := FromSearchHits(Seqs.PySliceTo(resp.value.hits, ShownHits), resp.value.total, Some(applied), None);
      r := Ok(sr);
    }

    /** `fuzzy_album_search`: keep the genre filter, match the album fuzzily, tag the filters. */
    method FuzzyAlbumSearch(genre: Option<string>, album: string, size: int, appliedFilters: map<string, Json.Value>)
      returns (r: Result<SearchResult, Error>)
      modifies client
      ensures client.searches == old(client.searches) + [FuzzyAlbumBody(genre, album, size)]
      ensures client.gets == old(client.gets)
      ensures r == HitsSearch(client.search, FuzzyAlbumBody(genre, album, size), true,
                              appliedFilters["search_type" := Json.Str("fuzzy_fallback")], None)
    {
      var clauses: seq<Clause> := [];
      if Truthy(genre) {
        clauses := clauses + [Term("track_genre", genre.value)];
      }
      var body := SearchBody(Some(size), Some(Bool(clauses, [FuzzyMatch("album_name", album, AutoFuzziness, And)])), map[], None);
      assert clauses == if Truthy(genre) then [Term("track_genre", genre.value)] else [];
      var resp := client.Search(body);
      if resp.Err? {
        return Err(resp.error);
      }
      var filters := appliedFilters["search_type" := Json.Str("fuzzy_fallback")];
      var sr := FromSearchHits(Seqs.PySliceTo(resp.value.hits, ShownHits), resp.value.total, Some(filters), None);
      r := Ok(sr);
    }

    /**
     * `find_similar_by_vector`: fetch the source track, search its own vector's `size + 1`
     * nearest neighbours among 1000 candidates, and drop the source; any failure gives `None`.
     */
    method FindSimilarByVector(trackId: string, size: int := SimilarSize) returns (r: Option<SearchResult>)
      modifies client
      ensures client.gets == old(client.gets) + [trackId]
      ensures client.fetch(trackId).Err? || !HasLookedUpFields(client.fetch(trackId).value) ==>
        r.None? && client.searches == old(client.searches)
      ensures client.fetch(trackId).Ok? && HasLookedUpFields(client.fetch(trackId).value) ==>
        var body := KnnBody(VectorOf(client.fetch(trackId).value), size);
        && client.searches == old(client.searches) + [body]
        && (client.search(body).Err? ==> r.None?)
        && (client.search(body).Ok? ==> r == Some(SimilarityResult(client.search(body).value.hits, trackId, size)))
    {
      var doc := client.Get(trackId);
      if doc.Err? || !HasLookedUpFields(doc.value) {
        return None;
      }
      var resp := client.Search(KnnBody(VectorOf(doc.value), size));
      if resp.Err? {
        return None;
      }
      var sr := FromSimilaritySearch(resp.value.hits, trackId, size);
      r := Some(sr);
    }

    /** `compare_genres`: one filter-scoped aggregation per requested genre, parsed back by key. */
    method CompareGenres(genreList: seq<string>) returns (r: Result<GenreComparison, Error>)
      modifies client
      ensures client.searches == old(client.searches) + [CompareGenresBody(genreList)]
      ensures client.gets == old(client.gets)
      ensures var resp := client.search(CompareGenresBody(genreList));
        r == if resp.Err? then Err(resp.error) else ComparisonOf(genreList, resp.value)
    {
      var aggs: map<string, Agg> := map[];
      for i := 0 to |genreList|
        invariant aggs == GenreAggs(genreList[..i])
      {
        assert genreList[..i + 1][..i] == genreList[..i];
        aggs := aggs[AggKey(genreList[i]) := GenreAgg(genreList[i])];
      }
      assert genreList[..|genreList|] == genreList;
      var resp := client.Search(SearchBody(Some(0), None, aggs, None));
      if resp.Err? {
        return Err(resp.error);
      }
      r := GenreComparisonFromResult(genreList, resp.value);
    }

    /** `top_artists_per_genre`: the ranking aggregation, shaped to at most `size` artists. */
    method TopArtistsPerGenre(genre: string, size: int := TopArtistsSize) returns (r: Result<TopArtists, Error>)
      modifies client
      ensures client.searches == old(client.searches) + [TopArtistsBody(genre)]
      ensures client.gets == old(client.gets)
      ensures var resp := client.search(TopArtistsBody(genre));
        r == if resp.Err? then Err(resp.error) else TopArtistsOf(genre, resp.value, size, false)
    {
      var resp := client.Search(TopArtistsBody(genre));
      if resp.Err? {
        return Err(resp.error);
      }
      r := TopArtistsFromResult(genre, resp.value, size, false);
    }
  }

  // ===== Properties of the resolver =====

  /** Keywords that all came back empty are skipped: the chain continues with the remaining ones. */
  lemma {:induction false} FuzzyChainSkips(search: Oracle, words: seq<string>, i: int)
    requires 0 <= i <= |words|
    requires forall j :: 0 <= j < i ==> !Stops(FuzzyWordSearch(search, words[j]))
    ensures FuzzyChain(search, words) ==
      Chain(FuzzyChain(search, words[i..]).found, FuzzyBodies(words[..i]) + FuzzyChain(search, words[i..]).issued)
    decreases i
  {
    if i == 0 {
      assert words[0..] == words;
      assert FuzzyBodies(words[..0]) == [];
    } else {
      FuzzyChainSkips(search, words[1..], i - 1);
      assert words[1..][i - 1..] == words[i..];
      assert FuzzyBodies(words[..i]) == [FuzzyBody(words[0], AutoFuzziness, FuzzySize)] + FuzzyBodies(words[1..][..i - 1]);
    }
  }

  /**
   * The fuzzy stage tries the keywords one at a time in order: for the first keyword `n`
   * that stops the chain it returns that keyword's outcome having issued exactly the fuzzy
   * queries of keywords 0..n; when none stops it issued one query per keyword and found nothing.
   */
  lemma {:induction false} FuzzyChainFirstStop(search: Oracle, words: seq<string>) returns (n: int)
    ensures 0 <= n <= |words|
    ensures forall j :: 0 <= j < n ==> !Stops(FuzzyWordSearch(search, words[j]))
    ensures n < |words| ==>
      && Stops(FuzzyWordSearch(search, words[n]))
      && FuzzyChain(search, words) == Chain(Some(FuzzyWordSearch(search, words[n])), FuzzyBodies(words[..n + 1]))
    ensures n == |words| ==> FuzzyChain(search, words) == Chain(None, FuzzyBodies(words))
    decreases |words|
  {
    if words == [] {
      n := 0;
    } else if Stops(FuzzyWordSearch(search, words[0])) {
      n := 0;
      assert FuzzyBodies(words[..1]) == [FuzzyBody(words[0], AutoFuzziness, FuzzySize)];
    } else {
      var m := FuzzyChainFirstStop(search, words[1..]);
      n := m + 1;
      assert forall j :: 1 <= j < n ==> words[j] == words[1..][j - 1];
      if n < |words| {
        assert FuzzyBodies(words[..n + 1]) == [FuzzyBody(words[0], AutoFuzziness, FuzzySize)] + FuzzyBodies(words[1..][..m + 1]);
      } else {
        assert FuzzyBodies(words) == [FuzzyBody(words[0], AutoFuzziness, FuzzySize)] + FuzzyBodies(words[1..]);
      }
    }
  }

  /** A phrase stage that reports matches (or raises) is the answer, and it is the only query issued. */
  lemma SmartPhraseFirst(search: Oracle, songTitle: string)
    requires Stops(PhraseSearch(search, songTitle, PhraseSize))
    ensures SmartSearch(search, songTitle) ==
      Resolution(PhraseSearch(search, songTitle, PhraseSize), [PhraseBody(songTitle, PhraseSize)])
  {
  }

  /**
   * With no phrase match, the partial query runs on the space-joined keywords exactly when
   * there are keywords; a partial stage that stops is the answer and no fuzzy query is issued.
   */
  lemma SmartPartialSecond(search: Oracle, songTitle: string)
    requires !Stops(PhraseSearch(search, songTitle, PhraseSize))
    ensures Keywords(songTitle) == [] ==>
      SmartSearch(search, songTitle) == Resolution(Ok(NoMatches(songTitle)), [PhraseBody(songTitle, PhraseSize)])
    ensures Keywords(songTitle) != [] ==>
      && |SmartSearch(search, songTitle).issued| >= 2
      && SmartSearch(search, songTitle).issued[1] == PartialBody(Text.Join(Keywords(songTitle)), PartialSize)
    ensures Keywords(songTitle) != [] && Stops(PartialSearch(search, Text.Join(Keywords(songTitle)), PartialSize)) ==>
      SmartSearch(search, songTitle) ==
        Resolution(PartialSearch(search, Text.Join(Keywords(songTitle)), PartialSize),
                   [PhraseBody(songTitle, PhraseSize), PartialBody(Text.Join(Keywords(songTitle)), PartialSize)])
  {
  }

  /**
   * When neither the phrase nor the partial stage stops, the resolver issues fuzzy queries one
   * keyword at a time in order and returns the first that stops; if none does, it returns the
   * explicit no-matches result after trying every keyword.
   */
  lemma SmartFuzzyThird(search: Oracle, songTitle: string) returns (n: int)
    requires !Stops(PhraseSearch(search, songTitle, PhraseSize))
    requires Keywords(songTitle) != []
    requires !Stops(PartialSearch(search, Text.Join(Keywords(songTitle)), PartialSize))
    ensures var kws := Keywords(songTitle);
      var stages := [PhraseBody(songTitle, PhraseSize), PartialBody(Text.Join(kws), PartialSize)];
      && 0 <= n <= |kws|
      && (forall j :: 0 <= j < n ==> !Stops(FuzzyWordSearch(search, kws[j])))
      && (n < |kws| ==>
            SmartSearch(search, songTitle) == Resolution(FuzzyWordSearch(search, kws[n]), stages + FuzzyBodies(kws[..n + 1])))
      && (n == |kws| ==>
            SmartSearch(search, songTitle) == Resolution(Ok(NoMatches(songTitle)), stages + FuzzyBodies(kws)))
  {
    var kws := Keywords(songTitle);
    n := FuzzyChainFirstStop(search, kws);
    var fuzzy := FuzzyChain(search, kws);
    var phraseBody, partialBody := PhraseBody(songTitle, PhraseSize), PartialBody(Text.Join(kws), PartialSize);
    assert KeywordSearch(search, songTitle).issued == [partialBody] + fuzzy.issued;
    assert SmartSearch(search, songTitle).issued == [phraseBody] + ([partialBody] + fuzzy.issued);
    assert [phraseBody] + ([partialBody] + fuzzy.issued) == [phraseBody, partialBody] + fuzzy.issued;
  }

  /**
   * Exhaustion: when every stage comes back empty the result is zero tracks, no results and
   * the filters {search_type: "smart", query: title, status: "no_matches"}.
   */
  lemma SmartExhausted(search: Oracle, songTitle: string)
    requires !Stops(PhraseSearch(search, songTitle, PhraseSize))
    requires Keywords(songTitle) != [] ==>
      && !Stops(PartialSearch(search, Text.Join(Keywords(songTitle)), PartialSize))
      && forall w :: w in Keywords(songTitle) ==> !Stops(FuzzyWordSearch(search, w))
    ensures var r := SmartSearch(search, songTitle).result;
      && r.Ok? && r.value.totalTracks == 0 && r.value.results == []
      && r.value.filters == Some(map["search_type" := Json.Str("smart"), "query" := Json.Str(songTitle),
                                     "status" := Json.Str("no_matches")])
  {
    var kws := Keywords(songTitle);
    if kws != [] {
      FuzzyChainSkips(search, kws, |kws|);
      assert kws[|kws|..] == [];
    }
  }

  /**
   * The keywords are exactly the lower-cased tokens that are not stop words, in their
   * original order; and the partial query's text splits back into exactly those keywords.
   */
  lemma KeywordsOfTitle(songTitle: string)
    ensures var words := Text.Split(Text.Lower(songTitle));
      var kws := Keywords(songTitle);
      && (forall w :: w in kws <==> w in words && w !in StopWords)
      && Text.Split(Text.Join(kws)) == kws
    ensures var words := Text.Split(Text.Lower(songTitle));
      var kws := Keywords(songTitle);
      var idx := Seqs.KeptIndices(words, IsKeyword());
      && |idx| == |kws|
      && (forall k :: 0 <= k < |kws| ==> 0 <= idx[k] < |words| && kws[k] == words[idx[k]])
      && (forall k, l :: 0 <= k < l < |kws| ==> idx[k] < idx[l])
  {
    var words := Text.Split(Text.Lower(songTitle));
    var kws := Keywords(songTitle);
    forall w
      ensures w in kws <==> w in words && w !in StopWords
    {
      Seqs.FilterMembership(words, IsKeyword(), w);
    }
    Seqs.FilterIsSubsequence(words, IsKeyword());
    forall k | 0 <= k < |kws|
      ensures Text.IsWord(kws[k])
    {
      assert kws[k] in kws;
    }
    Text.SplitJoin(kws);
  }

  // ===== Properties of the filter =====

  /**
   * The exact filter holds a genre term exactly when a genre is given and an album term
   * exactly when an album is given; with neither it is an unrestricted bool query. The echoed
   * filters carry each given value and `None` for the other.
   */
  lemma FilterClauses(genre: Option<string>, album: Option<string>)
    ensures var cs := ExactFilterClauses(genre, album);
      && (forall c :: c in cs ==>
            (Truthy(genre) && c == Term("track_genre", genre.value)) || (Truthy(album) && c == Term("album_name.keyword", album.value)))
      && (Truthy(genre) ==> Term("track_genre", genre.value) in cs)
      && (Truthy(album) ==> Term("album_name.keyword", album.value) in cs)
      && (cs == [] <==> !Truthy(genre) && !Truthy(album))
    ensures var f := AppliedFilters(genre, album);
      && f.Keys == {"track_genre", "album"}
      && f["track_genre"] == (if Truthy(genre) then Json.Str(genre.value) else Json.Null)
      && f["album"] == (if Truthy(album) then Json.Str(album.value) else Json.Null)
  {
  }

  /**
   * The filter shows at most ten tracks while reporting the engine's total; a zero-hit exact
   * filter with an album falls back once to the fuzzy album query, which keeps the genre
   * term and is tagged "fuzzy_fallback"; a zero-hit filter without an album returns the empty
   * exact result.
   */
  lemma FilterOutcome(search: Oracle, genre: Option<string>, album: Option<string>, size: int)
    ensures var res := FilterSearch(search, genre, album, size);
      res.result.Ok? ==>
        && |res.result.value.results| <= ShownHits
        && search(res.issued[|res.issued| - 1]).Ok?
        && res.result.value.totalTracks == search(res.issued[|res.issued| - 1]).value.total
    ensures var exact := search(FilterBody(genre, album, size));
      var res := FilterSearch(search, genre, album, size);
      exact.Ok? && exact.value.total == 0 && Truthy(album) ==>
        && res.issued == [FilterBody(genre, album, size), FuzzyAlbumBody(genre, album.value, size)]
        && (res.result.Ok? ==> res.result.value.filters.value["search_type"] == Json.Str("fuzzy_fallback"))
        && (Truthy(genre) ==> FuzzyAlbumBody(genre, album.value, size).query.value.filter == [Term("track_genre", genre.value)])
    ensures var exact := search(FilterBody(genre, album, size));
      var res := FilterSearch(search, genre, album, size);
      exact.Ok? && exact.value.total == 0 && !Truthy(album) ==>
        res == Resolution(Ok(SearchResult(0, TracksOf(Seqs.PySliceTo(exact.value.hits, ShownHits)),
                                          Some(AppliedFilters(genre, album)), None)),
                          [FilterBody(genre, album, size)])
  {
  }

  // ===== Properties of the genre comparison =====

  /**
   * The comparison query holds one aggregation per distinct key of the requested genres;
   * each is scoped by a genre term on a requested genre with that key and carries the six
   * metrics the parser reads; a genre whose key no other requested genre shares is scoped
   * to itself.
   */
  lemma {:induction false} GenreAggsShape(genreList: seq<string>)
    ensures GenreAggs(genreList).Keys == set g | g in genreList :: AggKey(g)
    ensures forall k :: k in GenreAggs(genreList) ==>
      exists g :: g in genreList && AggKey(g) == k && GenreAggs(genreList)[k] == GenreAgg(g)
    ensures forall g :: g in genreList && (forall h :: h in genreList && AggKey(h) == AggKey(g) ==> h == g) ==>
      GenreAggs(genreList)[AggKey(g)] == GenreAgg(g)
    decreases |genreList|
  {
    if genreList != [] {
      var init := genreList[..|genreList| - 1];
      var last := genreList[|genreList| - 1];
      GenreAggsShape(init);
      assert genreList == init + [last];
      assert forall g :: g in genreList <==> g in init || g == last;
    }
  }

  /** Builder and parser agree on the metric names: the six sub-aggregations are what the parser reads. */
  lemma GenreMetricsAgree(genre: string)
    ensures GenreAgg(genre).subs.Keys == set m | m in GenreMetricNames
    ensures GenreAgg(genre).clause == Term("track_genre", genre)
  {
  }

  /**
   * Build/parse round trip: when the engine answers every aggregation the comparison query
   * asked for with all its metrics, the comparison lists every requested genre, in request
   * order, under its original name (dashes included).
   */
  lemma CompareGenresRoundTrip(genreList: seq<string>, total: int, hits: seq<Hit>, aggs: map<string, AggResult>)
    requires aggs.Keys == GenreAggs(genreList).Keys
    requires forall k :: k in aggs ==> CompleteMetrics(aggs[k])
    ensures var r := ComparisonOf(genreList, Response(total, hits, Some(aggs)));
      && r.Ok?
      && |r.value.genres| == |genreList|
      && forall i :: 0 <= i < |genreList| ==> r.value.genres[i].genre == genreList[i]
  {
    GenreAggsShape(genreList);
    GenreStatsSucceed(genreList, aggs);
    GenreStatsFollowRequest(genreList, aggs);
    Seqs.FilterKeepsAll(genreList, IsAnswered(aggs));
  }

  /** Genres differing only in '-' versus '_' share one aggregation, scoped to the later one. */
  lemma CompareGenresCollision()
    ensures var aggs := GenreAggs(["hip-hop", "hip_hop"]);
      aggs.Keys == {"genre_hip_hop"} && aggs["genre_hip_hop"] == GenreAgg("hip_hop")
  {
    AggKeyCollision();
    var one := GenreAggs(["hip-hop"]);
    assert ["hip-hop", "hip_hop"][..1] == ["hip-hop"];
    assert ["hip-hop"][..0] == [];
    assert one == map["genre_hip_hop" := GenreAgg("hip-hop")];
  }

  // ===== Properties of the similarity and ranking queries =====

  /** The nearest-neighbour request asks for one more neighbour than wanted, from 1000 candidates, on the given vector. */
  lemma KnnRequest(vector: Option<seq<real>>, size: int)
    ensures var knn := KnnBody(vector, size).knn;
      knn.Some? && knn.value.k == size + 1 && knn.value.numCandidates == 1000
      && knn.value.queryVector == vector && knn.value.field == "audio_vector"
  {
  }

  /**
   * The ranking query is scoped to the genre, buckets up to 500 artists by `artists.keyword`
   * ordered by descending average popularity, and selects buckets with at least 2 tracks;
   * when the engine honours that selector, every returned artist has at least 2 tracks.
   */
  lemma TopArtistsRequest(genre: string, resp: Response, size: int)
    requires TopArtistsOf(genre, resp, size, false).Ok?
    requires forall b :: b in ArtistBuckets(resp).value && b.docCount.Some? ==> b.docCount.value >= MinArtistTracks
    ensures var body := TopArtistsBody(genre);
      && body.query == Some(TermQuery(Term("track_genre", genre)))
      && "all_artists" in body.aggs
      && body.aggs["all_artists"].Terms?
      && body.aggs["all_artists"].field == "artists.keyword"
      && body.aggs["all_artists"].size == 500
      && body.aggs["all_artists"].order == Some(Descending("avg_popularity"))
      && body.aggs["all_artists"].subs["popularity_filter"].minCount == 2
    ensures forall a :: a in TopArtistsOf(genre, resp, size, false).value.topArtists ==> a.trackCount >= 2
  {
    var bs := ArtistBuckets(resp).value;
    assert forall i :: 0 <= i < |bs| ==> bs[i] in bs;
    TopArtistsShape(genre, resp, size, false, MinArtistTracks);
  }
}
