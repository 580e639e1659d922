/**
 * The document/search engine as the service sees it: the documents and aggregation buckets
 * it returns, the query descriptors it accepts, and a client whose answers are an oracle.
 * Relevance, fuzzy and phrase matching, aggregation and nearest-neighbour scoring all happen
 * behind the oracle and are not modelled.
 */
module Engine {
  import opened Wrappers

  /** A field of a stored document as handed back: absent, stored as JSON null, or present. */
  datatype Field<+T> = Absent | Null | Present(value: T)

  /** Python's `source.get(key, default)`: the default only for an absent key; a stored null stays `None`. */
  function Get<T>(f: Field<T>, default: T): Option<T> {
    match f
    case Absent => Some(default)
    case Null => None
    case Present(v) => Some(v)
  }

  /** The `_source` of a track document. */
  datatype Source = Source(
    trackId: Field<string>,
    trackName: Field<string>,
    albumName: Field<string>,
    popularity: Field<int>,
    trackGenre: Field<string>,
    artists: Field<string>,
    audioVector: Field<seq<real>>)

  /** One search hit: its document identity `_id`, its `_score` and its `_source`. */
  datatype Hit = Hit(id: string, score: real, source: Source)

  /**
   * One bucket of a terms aggregation: its `key`, its `doc_count` (either may be missing)
   * and each metric sub-aggregation by name with its `value` (`None` for JSON null).
   */
  datatype Bucket = Bucket(key: Option<string>, docCount: Option<int>, metrics: map<string, Option<real>>)

  /** The result of one named aggregation. */
  datatype AggResult =
    | Metrics(values: map<string, Option<real>>)  // a filter aggregation holding metric sub-aggregations
    | Buckets(buckets: seq<Bucket>)              // a terms aggregation

  /** A search response: `hits.total.value`, `hits.hits` and, when present, `aggregations`. */
  datatype Response = Response(total: int, hits: seq<Hit>, aggregations: Option<map<string, AggResult>>)

  /** What a call can raise instead of returning. */
  datatype Error =
    | TransportError(reason: string)  // the engine is unreachable or rejects the request
    | NotFound(id: string)            // `client.get` of an id that is not indexed
    | KeyError(key: string)           // a dictionary lookup of a missing key
    | TypeError(what: string)         // arithmetic or conversion applied to `None`

  // ----- Query descriptors -----

  datatype Operator = Or | And

  /** `{"term": {field: value}}`: an exact, unanalysed match. */
  datatype Clause = Term(field: string, value: string)

  datatype Query =
    | Match(field: string, text: string)                                         // {"match": {field: text}}
    | MatchPhrase(field: string, text: string)                                   // {"match_phrase": {field: text}}
    | MultiMatch(text: string, fields: seq<string>, operator: Operator)          // {"multi_match": ...}
    | Fuzzy(field: string, value: string, fuzziness: string)                     // {"fuzzy": {field: {...}}}
    | FuzzyMatch(field: string, text: string, fuzziness: string, operator: Operator)  // match with fuzziness
    | TermQuery(clause: Clause)                                                  // a bare term query
    | Bool(filter: seq<Clause>, must: seq<Query>)                                // {"bool": {"filter": ..., "must": ...}}

  /** `"order": {metric: "desc"}` of a terms aggregation. */
  datatype Order = Descending(metric: string)

  datatype Agg =
    | Terms(field: string, size: int, order: Option<Order>, subs: map<string, Agg>)
    | Scoped(clause: Clause, subs: map<string, Agg>)  // {"filter": clause, "aggs": subs}
    | Avg(field: string)
    | ValueCount(field: string)
      /** A bucket selector whose script keeps buckets with `params.track_count >= minCount`. */
    | BucketSelector(paths: map<string, string>, minCount: int)

  /** `{"knn": {...}}`; the query vector is whatever the source document stores (possibly null). */
  datatype Knn = Knn(field: string, queryVector: Option<seq<real>>, k: int, numCandidates: int)

  /** The body of one search request; `None` where the Python dict omits the key. */
  datatype SearchBody = SearchBody(size: Option<int>, query: Option<Query>, aggs: map<string, Agg>, knn: Option<Knn>)

  /**
   * The Elasticsearch client. Its answers are fixed functions of the request (the index does
   * not change while a request is served); the ghost logs record every request in order.
   */
  class Client {
    const search: SearchBody -> Result<Response, Error>
    const fetch: string -> Result<Source, Error>
    ghost var searches: seq<SearchBody>
    ghost var gets: seq<string>

    constructor (search: SearchBody -> Result<Response, Error>, fetch: string -> Result<Source, Error>)
      ensures this.search == search && this.fetch == fetch
      ensures searches == [] && gets == []
    {
      this.search := search;
      this.fetch := fetch;
      searches := [];
      gets := [];
    }

    /** `client.search(index=..., body=...)`. */
    method Search(body: SearchBody) returns (r: Result<Response, Error>)
      modifies this
      ensures r == search(body)
      ensures searches == old(searches) + [body] && gets == old(gets)
    {
      r := search(body);
      searches := searches + [body];
    }

    /** `client.get(index=..., id=...)`, returning the document's `_source`. */
    method Get(id: string) returns (r: Result<Source, Error>)
      modifies this
      ensures r == fetch(id)
      ensures gets == old(gets) + [id] && searches == old(searches)
    {
      r := fetch(id);
      gets := gets + [id];
    }
  }
}
