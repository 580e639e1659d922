# Spotify track explorer: a verified model of the search core

This project models the core of a music search service. The service indexes Spotify track
data in Elasticsearch and serves searches and analytics over it. The model covers three parts:

- **The result shapers** (`backend/service/model.py`). They turn raw hits and aggregation
  buckets into tracks, album lists, search results, genre statistics and artist rankings,
  and render them as dictionaries.
- **The searcher** (`backend/service/searcher.py`):
  - the request bodies it sends to the engine;
  - the smart song resolver, which falls back from phrase to partial to per-keyword fuzzy
    search and then to an explicit "no matches" result;
  - the genre/album filter with its fuzzy album fallback;
  - the vector similarity lookup;
  - the genre comparison and the top-artists ranking.
- **The indexer's feature normaliser** (`backend/service/indexer.py`). It scales ten audio
  features into a clamped `audio_vector`. The model also covers the `dense_vector`
  declaration in the mapping and the rule that bulk indexing skips a row whose vector fails.

Modules:

- `Wrappers`: `Option` and `Result`.
- `Json`: dictionary values and dropping `None` entries.
- `Seqs`: list comprehension, slices, and the lemmas about them.
- `Text`: Python's `lower`, `split()` and `' '.join`.
- `Engine`: documents, buckets, responses, query descriptors, and a `Client` class. The
  client answers searches and gets through fixed oracle functions. Its ghost logs record
  every request in order.
- `Model`, `Searcher`, `Indexer`: the three source files.

Each searcher method is a method of `Searcher.SpotifySearcher`. Its contract does three
things:

- it names the request bodies appended to the client's log;
- it states that no document fetch happened unless the source performs one;
- it ties the result to a specification function (`SmartSearch`, `FilterSearch`,
  `ComparisonOf`, …).

Lemmas then state the fallback order, the round trips and the bounds on those functions.

Python semantics that the model keeps:

- A stored field can be *absent* or *null*. `dict.get(k, default)` returns the default
  only for an absent key.
- `int()` of a float truncates toward zero.
- `[:n]` slices follow Python, including a negative `n`.
- A Python exception is an `Err` value that propagates. The one exception is
  `find_similar_by_vector`, which turns any failure into `None`.

## Model

| member | source | states |
|---|---|---|
| Model.TrackFromHit | backend/service/model.py:14-26 | an absent text field reads as "", an absent popularity as 0, an absent track id as the hit's `_id`; the similarity is the one given |
| Model.TrackFromStoredHit | backend/service/model.py:14-26 | a track stored as a document (None fields as null) reads back as the same track, whatever the hit's id and score |
| Model.TrackToDict | backend/service/model.py:28-31 | each of the seven keys is present exactly when its field is not None, and every present value is the field's `asdict` value and is not null |
| Model.TrackDictRoundTrip | backend/service/model.py:28-31 | dropping None fields loses no information: the track is recovered from its dictionary |
| Json.DropNone | backend/service/model.py:31 | a key survives exactly when its value is not null, with its value unchanged |
| Model.ArtistAlbumsFromResult | backend/service/model.py:49-64 | one album per bucket in bucket order, all attributed to the queried artist; total_albums is the number of albums; a missing key gives "Unknown" and a missing count gives 0 |
| Model.FromSearchHits | backend/service/model.py:89-102 | one track per hit in hit order; total_tracks is the engine total (not the track count); filters and artist are passed through |
| Model.FromSimilaritySearch | backend/service/model.py:104-127 | the loop that skips the source hit and stops after `size` tracks gives the first `size` hits other than the source, scored, with total_tracks equal to the number returned |
| Model.SimilarityResult | backend/service/model.py:104-127 | total_tracks is the number of tracks returned, never more than the hits; a size of 0 or less returns none; the filters are exactly {similarity_search: true} and no artist is set |
| Model.SimilarExcludesSource | backend/service/model.py:111-113 | every hit behind a similarity track is a hit of the response other than the source; when stored ids match `_id`, no returned track is the source track |
| Model.SimilarCount | backend/service/model.py:108-127 | at most `size` tracks and total_tracks counts them; with at least `size + 1` hits in which the source occurs at most once, exactly `size` tracks come back |
| Model.SimilarOrderAndScore | backend/service/model.py:111-121 | tracks keep the relative order of their hits; each similarity is the score minus one, so a score in [1, 2] gives a similarity in [0, 1] |
| Model.SearchResultDict | backend/service/model.py:129-143 | total_tracks is always present; "filters" is present exactly when filters are non-empty; with a non-empty artist the tracks sit under "tracks" next to "artist" and "results" is absent, otherwise under "results" with no "tracks" or "artist" |
| Model.ToDict | backend/service/model.py:129-143 | the step-by-step construction, which moves "results" to "tracks", yields the dictionary described by SearchResultDict |
| Model.Truncate | backend/service/model.py:160 | `int()` of a float rounds toward zero: the result is within one of the input on the side of zero |
| Model.GenreStatsFromAggregation | backend/service/model.py:155-166 | succeeds exactly when every metric is present and the track count is not null; the count is truncated to an integer and each null average reads as 0 |
| Model.AggKey | backend/service/model.py:182 | the key is "genre_" followed by the genre with every '-' replaced by '_', one character for one, so no dash remains; the query builder uses the same key (searcher.py:268) |
| Model.AggKeyInjective | backend/service/model.py:182 | two genre names without underscores never share an aggregation key |
| Model.AggKeyCollision | backend/service/model.py:182 | "hip-hop" and "hip_hop" share the key "genre_hip_hop" |
| Model.GenreComparisonFromResult | backend/service/model.py:175-188 | the loop that appends the stats of each answered genre yields the comparison described by ComparisonOf, including the first error met |
| Model.GenreStatsFollowRequest | backend/service/model.py:179-188 | a successful parse lists exactly the answered genres, in request order, under their requested names, each with the stats of the aggregation under its key |
| Model.GenreStatsSucceed | backend/service/model.py:181-186 | when every answered aggregation is complete, the parse succeeds |
| Model.RoundHalfEven | backend/service/model.py:211 | the result is an integer within one half of the input |
| Model.RoundTenth | backend/service/model.py:211 | `round(x, 1)` is within 0.05 of x |
| Model.RoundTenthMonotone | backend/service/model.py:211 | rounding to tenths never reverses an order |
| Model.ArtistFromBucket | backend/service/model.py:203-217 | succeeds exactly when the bucket has its key, its count and its average (and a requested weighted score is not null); the average is rounded to a tenth with null read as 0; a weighted score is set exactly when requested and present |
| Model.ArtistToDict | backend/service/model.py:219-221 | the key set is rank, artist, track_count and avg_popularity, plus weighted_score exactly when it is set; each present key holds its field's value |
| Model.TopArtistsFromResult | backend/service/model.py:228-238 | the enumeration of the first `size` buckets from rank 1 yields the ranking described by TopArtistsOf, including the first error met |
| Model.RankedArtistsInOrder | backend/service/model.py:232-236 | ranks run 1..n in bucket order; each artist carries its bucket's key, count and rounded average |
| Model.TopArtistsShape | backend/service/model.py:228-238 | at most `size` artists ranked 1..n; buckets ordered by non-increasing average give artists in non-increasing popularity; buckets with at least `minCount` tracks give artists with at least `minCount` tracks |
| Seqs.FilterMembership | backend/service/searcher.py:125 | an element survives the list comprehension exactly when it occurs in the list and passes the test |
| Seqs.FilterIsSubsequence | backend/service/searcher.py:125 | the comprehension's result is the order-preserving subsequence of exactly the accepted positions |
| Seqs.PySliceTo | backend/service/searcher.py:106 | `[:n]` is a prefix of length min(n, len) for non-negative n, and drops the last -n elements for negative n |
| Text.Lower | backend/service/searcher.py:124 | the lower-cased title has the title's length; each character is lower-cased on its own, ASCII capitals become lower-case letters and whitespace stays whitespace |
| Text.Split | backend/service/searcher.py:124 | every token of `split()` is non-empty and free of whitespace |
| Text.SplitSpaceFirst | backend/service/searcher.py:124 | a whitespace character in front of a string does not change its tokens, so leading, repeated and tab whitespace produce no empty token |
| Text.SplitWordThenRest | backend/service/searcher.py:124 | a word followed by whitespace or the end of the string is the first token, and the tokens after it are those of the rest; with SplitSpaceFirst this fixes `split()` on every string |
| Text.Join | backend/service/searcher.py:128 | joining no words gives ""; the result starts with the first word, followed by a single space when more words follow |
| Text.SplitJoin | backend/service/searcher.py:124-128 | splitting the space-joined keywords gives back exactly those keywords |
| Searcher.ArtistAlbumsBody | backend/service/searcher.py:10-20 | no hits; a match on artists for the name; one terms aggregation "albums" on album_name.keyword of `size` buckets, unordered and with no sub-aggregation |
| Searcher.TracksByArtistBody | backend/service/searcher.py:30-31 | a page of `size` hits of a match on artists for the name, with no aggregation and no kNN clause |
| Searcher.FuzzyBody | backend/service/searcher.py:49-58 | a page of `size` hits of a fuzzy query on track_name for the song name with the given fuzziness |
| Searcher.PhraseBody | backend/service/searcher.py:75-76 | a page of `size` hits of a match_phrase on track_name for the whole song name |
| Searcher.PartialBody | backend/service/searcher.py:93-101 | a page of `size` hits of a multi_match of the title on the fields ["track_name"] with operator or |
| Searcher.FilterBody | backend/service/searcher.py:150-164 | a page of `size` hits of a bool query with no must clause; one filter clause per given value, the genre term first and the album term last |
| Searcher.FuzzyAlbumBody | backend/service/searcher.py:187-206 | a page of `size` hits of a bool query that filters on the genre term exactly when a genre is given and must match album_name with fuzziness AUTO and operator and |
| Searcher.KnnBody | backend/service/searcher.py:233-240 | only a kNN clause, with no query, no aggregation and no page size: size + 1 neighbours of the given vector on audio_vector among 1000 candidates |
| Searcher.GenreAggs | backend/service/searcher.py:267-278 | every requested genre has an aggregation under its key, and every aggregation is a filter aggregation with the six metrics |
| Searcher.TopArtistsBody | backend/service/searcher.py:287-311 | no hits; a term query on the genre; one terms aggregation "all_artists" ordered by descending avg_popularity, whose bucket selector keeps artists with at least 2 tracks |
| Searcher.Keywords | backend/service/searcher.py:122-125 | there are no more keywords than tokens of the lower-cased title, and every keyword is a whitespace-free word that is not a stop word |
| Searcher.SpotifySearcher.SearchArtistAlbums | backend/service/searcher.py:9-26 | sends one album-terms aggregation for the artist and no fetch; the result is that response's album list, or the engine's error |
| Searcher.SpotifySearcher.SearchTracksByArtist | backend/service/searcher.py:29-45 | sends one match query on artists with the given size; the result holds every hit and the engine total, filtered by and rendered for the artist |
| Searcher.SpotifySearcher.SearchSongFuzzy | backend/service/searcher.py:47-71 | sends one fuzzy query on track_name with the given fuzziness and size; the result is its hits tagged search_type "fuzzy" |
| Searcher.SpotifySearcher.SearchSongPhrase | backend/service/searcher.py:73-89 | sends one phrase query on track_name; the result is its hits tagged search_type "phrase" |
| Searcher.SpotifySearcher.SearchSongPartial | backend/service/searcher.py:91-114 | sends one or-operator multi-match on track_name; the result shows the first ten hits with the engine total, tagged "partial" |
| Searcher.SpotifySearcher.SongSearcher | backend/service/searcher.py:116-146 | the result and the exact sequence of searches issued are those of the phrase, partial, fuzzy and no-matches chain SmartSearch |
| Searcher.SpotifySearcher.KeywordStages | backend/service/searcher.py:122-146 | after an empty phrase search, the result and the searches issued are those of KeywordSearch: partial query on the joined keywords, then fuzzy per keyword, then no matches |
| Searcher.SpotifySearcher.TryFuzzy | backend/service/searcher.py:133-137 | the fuzzy loop finds what FuzzyChain finds and issues exactly its queries, in keyword order |
| Searcher.SmartPhraseFirst | backend/service/searcher.py:118-120 | a phrase search with matches (or an error) is the answer and the only search issued |
| Searcher.SmartPartialSecond | backend/service/searcher.py:122-131 | with no phrase match: no keywords gives no matches after one search; otherwise the second search is the partial query on the joined keywords, and a partial hit is the answer with no fuzzy search |
| Searcher.SmartFuzzyThird | backend/service/searcher.py:133-137 | fuzzy searches go one keyword at a time in order; the first with matches is the answer after exactly the searches up to it; if none matches, every keyword was tried and the result is no matches |
| Searcher.FuzzyChainFirstStop | backend/service/searcher.py:133-137 | the fuzzy loop returns at the first keyword that matches or raises, having issued exactly the queries up to it, or issues one query per keyword and finds nothing |
| Searcher.FuzzyChainSkips | backend/service/searcher.py:133-137 | keywords that came back empty are skipped: the chain continues with the remaining keywords after their queries |
| Searcher.SmartExhausted | backend/service/searcher.py:139-146 | when every stage is empty the result is 0 tracks, no results and filters {search_type: smart, query: title, status: no_matches} |
| Searcher.KeywordsOfTitle | backend/service/searcher.py:122-128 | the keywords are exactly the lower-cased tokens that are not stop words, in their original order, and the partial query splits back into them |
| Searcher.SpotifySearcher.Filter | backend/service/searcher.py:148-182 | the result and the searches issued are those of FilterSearch: exact term filters, then the fuzzy album fallback on zero hits with an album |
| Searcher.FilterClauses | backend/service/searcher.py:155-164 | a genre term exactly when a genre is given, an album term exactly when an album is given, nothing else; the echoed filters hold each given value and None for the other |
| Searcher.FilterOutcome | backend/service/searcher.py:166-182 | at most ten tracks with the engine's total; zero hits with an album issue exactly one fuzzy fallback that keeps the genre term and is tagged fuzzy_fallback; zero hits without an album return the empty exact result |
| Searcher.SpotifySearcher.FuzzyAlbumSearch | backend/service/searcher.py:184-221 | sends one query with the genre filter and an and-operator fuzzy match on album_name; the result shows ten hits with the engine total and the filters tagged fuzzy_fallback |
| Searcher.SpotifySearcher.FindSimilarByVector | backend/service/searcher.py:223-258 | fetches the track once; a failed fetch or a missing looked-up field gives None with no search; otherwise one kNN search on the track's own vector, giving None on error and the similarity result otherwise |
| Searcher.KnnRequest | backend/service/searcher.py:233-240 | the kNN request asks audio_vector for size + 1 neighbours among 1000 candidates, using the given vector |
| Searcher.SpotifySearcher.CompareGenres | backend/service/searcher.py:260-283 | sends one size-0 query whose aggregations are GenreAggs of the list; the result is the parse ComparisonOf, or the engine's error |
| Searcher.GenreAggsShape | backend/service/searcher.py:267-278 | one aggregation per distinct key of the requested genres, each scoped to a requested genre with that key; a genre whose key no other shares is scoped to itself |
| Searcher.GenreMetricsAgree | backend/service/searcher.py:268-277 | each genre aggregation is scoped to its genre and its sub-aggregations are exactly the six metrics the parser reads |
| Searcher.CompareGenresRoundTrip | backend/service/searcher.py:267-282 | when the engine answers every requested key with complete metrics, the comparison lists every requested genre in request order under its original name |
| Searcher.CompareGenresCollision | backend/service/searcher.py:268 | "hip-hop" followed by "hip_hop" produce a single aggregation, scoped to "hip_hop" |
| Searcher.SpotifySearcher.TopArtistsPerGenre | backend/service/searcher.py:285-316 | sends the ranking query once; the result is the ranking TopArtistsOf with `size` and no weighted score, or the engine's error |
| Searcher.TopArtistsRequest | backend/service/searcher.py:287-311 | the query is scoped to the genre, buckets up to 500 artists.keyword values by descending average popularity, and selects buckets with at least 2 tracks; when the engine honours the selector, every returned artist has at least 2 tracks |
| Indexer.Normalize | backend/service/indexer.py:115-119 | every component lies in [0, 1] |
| Indexer.Component | backend/service/indexer.py:112-119 | a missing column raises KeyError naming it; a None value raises TypeError when the range is proper; otherwise the component is the normalised value, in [0, 1] |
| Indexer.CreateAudioVector | backend/service/indexer.py:93-121 | the loop yields the vector Vectorize of all ten features, or the error of the first feature that fails |
| Indexer.TableWellFormed | backend/service/indexer.py:94-110 | the table covers exactly the ten distinct feature names, and every range has min < max |
| Indexer.NormalizeEndpoints | backend/service/indexer.py:115-117 | the table's min maps to 0 and its max to 1; values below min give 0, values above max give 1; order is preserved |
| Indexer.NormalizeInverse | backend/service/indexer.py:116 | inside the range, scaling a component back by (max − min) and adding min recovers the raw value |
| Indexer.NormalizeDegenerate | backend/service/indexer.py:115-119 | a range with max equal to min gives 0.0 for any value |
| Indexer.VectorizeShape | backend/service/indexer.py:111-121 | a vector of the first n features has n components, in feature order, each the normalised value of its feature and in [0, 1] |
| Indexer.VectorizeSucceeds | backend/service/indexer.py:112-116 | vectorising succeeds exactly when each feature is present with a value |
| Indexer.VectorizeFirstError | backend/service/indexer.py:112-116 | a failing vector reports the first failing feature: KeyError naming a missing column, TypeError for None |
| Indexer.AudioVector | backend/service/indexer.py:63-68 | a vector exists exactly for a complete row; it has 10 components, the dims declared for audio_vector, each in [0, 1] |
| Indexer.PrepareDocuments | backend/service/indexer.py:129-137 | the loop that vectorises each row and skips the rows that raise yields Prepared of the rows |
| Indexer.PreparedDocuments | backend/service/indexer.py:129-143 | rows are skipped, not defaulted: every prepared document is a complete row with its own 10-component vector in [0, 1], and every complete row is prepared |
| Indexer.PreparedInOrder | backend/service/indexer.py:129-143 | the k-th prepared document carries the k-th complete row: the documents follow row order and there are as many as complete rows |

## Left out

- Printing: all `print` output is omitted.
- Index name: the index name and the host configuration are not modelled.
- Engine internals: relevance scoring, phrase, fuzzy and multi-match matching, aggregation evaluation, bucket-selector scripting and approximate kNN scoring are not modelled. The engine is an oracle that maps a request body to a response or an error; the index does not change between requests.
- Default page size: the kNN request has no `size`, so the engine's default page size can cap the hits below `size + 1`. That default belongs to the engine and is not modelled, so `SimilarCount`'s exact count assumes the engine returned at least `size + 1` hits.
- Response shape: hits always carry `_id`, `_score` and `_source`, and a response always carries `hits.total.value`. The KeyError a malformed response would raise is not modelled.
- Searcher return values: the searcher methods return the typed result (`SearchResult`, `ArtistAlbums`, …) that the source renders with `to_dict` just before returning. The rendering is modelled separately, by `SearchResultDict`, `TrackToDict` and `ArtistToDict`.
- Plain `asdict` renderings: the `to_dict` of `Album`, `ArtistAlbums`, `GenreStats`, `GenreComparison` and `TopArtists` is left out, as is the `ArtistAlbums.to_dict` error branch that can only fire for a malformed object.
- `Model.RoundTenth`: Python's `round` works on binary floats. The model rounds the exact real value to the nearest tenth, ties to even, so it can differ from CPython on values whose decimal form is not exact.
- `Text.Lower`: lower-cases ASCII letters only. Python's full Unicode case mapping is not modelled.
- `Indexer.CreateAudioVector`: raw feature values are reals. A non-numeric CSV value, and the NaN-to-None conversion done with pandas, are not modelled; the row already carries `None` for a missing value.
- Indexer I/O: `check_index`, `delete_index`, `create_index_with_mapping`, `load_data`, the bulk upload and its batching in `index_data`, `verify_indexing` and `analyze_feature_ranges` are I/O and are not modelled.
- Mapping: of `create_mapping`, only the `audio_vector` declaration is modelled. The other field types only configure the engine.
- API layer: the HTTP layer (`backend/main.py`), the dashboard (`app.py`) and the download scripts are not part of this model.
- `Searcher.SpotifySearcher.FuzzyAlbumSearch`: the source adds `search_type` to the caller's `applied_filters` dictionary in place. The model returns the updated map instead; no caller reads the dictionary afterwards, so the aliasing is not observable.
