/**
 * `queryCountAndSamples` of internal/alert/engine.go: the search request a rule
 * turns into, and how the hits of the answer become sample documents. The
 * request is kept as a value (its JSON encoding is left out); the search
 * backend is a function handed in by the caller.
 */
module Query {
  import opened Wrappers
  import opened Bytes
  import opened Rules

  /** One entry of the `bool.filter` list. */
  datatype Filter =
    | Range(field: Bytes, gte: Bytes, lt: Bytes)
    | QueryStringFilter(query: Bytes, defaultOperator: Bytes)
    | RawDsl(dsl: DslValue)

  datatype SortKey = SortKey(field: Bytes, order: Bytes)

  datatype SearchRequest = SearchRequest(size: int, sort: seq<SortKey>, trackTotalHits: bool, filters: seq<Filter>)

  /** A decoded JSON value of a document field; only strings are ever looked at. */
  datatype Value = Str(s: Bytes) | NonString

  type Doc = map<Bytes, Value>

  /** One element of `hits.hits` in the answer; `source` is absent when `_source` was null. */
  datatype Hit = Hit(index: Bytes, id: Bytes, source: Option<Doc>)

  datatype SearchResponse = SearchResponse(total: int, hits: seq<Hit>)

  /** Transport failure, an error status from the server, or an answer that does not decode. */
  datatype QueryError = TransportError(detail: Bytes) | ServerError(detail: Bytes) | DecodeError

  /** `es.Search(index, body)` followed by decoding the answer. */
  type Backend = (Bytes, SearchRequest) -> Result<SearchResponse, QueryError>

  const TimestampField: Bytes := [64, 116, 105, 109, 101, 115, 116, 97, 109, 112]  // "@timestamp"
  const IndexKey: Bytes := [95, 105, 110, 100, 101, 120]  // "_index"
  const IdKey: Bytes := [95, 105, 100]  // "_id"
  const DefaultWindow: Bytes := [53, 109]  // "5m"
  const Descending: Bytes := [100, 101, 115, 99]  // "desc"
  const NowMinus: Bytes := [110, 111, 119, 45]  // "now-"
  const Now: Bytes := [110, 111, 119]  // "now"
  const AndOperator: Bytes := [65, 78, 68]  // "AND"

  /** The look-back window: the rule's, or 5m when it is empty. */
  function Window(r: Rule): (w: Bytes)
    ensures w != []
    ensures r.timeWindow != [] ==> w == r.timeWindow
    ensures r.timeWindow == [] ==> w == DefaultWindow
  {
    if r.timeWindow == [] then DefaultWindow else r.timeWindow
  }

  /**
   * The request body: newest `sampleSize` documents by `@timestamp`, an exact
   * total, and the filters. The first filter is the range
   * `[now-<window>, now)` in the backend's date math; a second follows only when
   * the rule has a query string (AND-combined) or, failing that, a DSL filter.
   */
  function BuildQuery(r: Rule, sampleSize: int): (q: SearchRequest)
    ensures q.size == sampleSize && q.trackTotalHits
    ensures q.sort == [SortKey(TimestampField, Descending)]
    ensures |q.filters| == if r.queryString != [] || r.dsl.Some? then 2 else 1
    ensures q.filters[0] == Range(TimestampField, NowMinus + Window(r), Now)
    ensures r.queryString != [] ==> q.filters[1] == QueryStringFilter(r.queryString, AndOperator)
    ensures r.queryString == [] && r.dsl.Some? ==> q.filters[1] == RawDsl(r.dsl.value)
  {
    var base := [Range(TimestampField, NowMinus + Window(r), Now)];
    var filters :=
      if r.queryString != [] then base + [QueryStringFilter(r.queryString, AndOperator)]
      else if r.dsl.Some? then base + [RawDsl(r.dsl.value)]
      else base;
    SearchRequest(sampleSize, [SortKey(TimestampField, Descending)], true, filters)
  }

  /** The query string wins: a rule with both a query string and a DSL filter never sends the DSL. */
  lemma QueryStringTakesPrecedence(r: Rule, sampleSize: int)
    requires r.queryString != []
    ensures forall f :: f in BuildQuery(r, sampleSize).filters ==> !f.RawDsl?
  {
  }

  /** The time range depends on the window only: the same window gives the same range whatever else differs. */
  lemma RangeDependsOnlyOnWindow(r1: Rule, r2: Rule, n1: int, n2: int)
    requires Window(r1) == Window(r2)
    ensures BuildQuery(r1, n1).filters[0] == BuildQuery(r2, n2).filters[0]
  {
  }

  /**
   * A hit as a sample document: its `_source` (empty when null) with `_index`
   * and `_id` written over it.
   */
  function Inject(h: Hit): (d: Doc)
    ensures IndexKey in d && d[IndexKey] == Str(h.index)
    ensures IdKey in d && d[IdKey] == Str(h.id)
    ensures forall k :: k != IndexKey && k != IdKey ==>
      (k in d <==> h.source.Some? && k in h.source.value)
    ensures forall k :: k != IndexKey && k != IdKey && k in d ==> d[k] == h.source.value[k]
  {
    var doc := if h.source.Some? then h.source.value else map[];
    doc[IndexKey := Str(h.index)][IdKey := Str(h.id)]
  }

  /** The samples loop: one document per hit, in the order of the hits. */
  method CollectSamples(hits: seq<Hit>) returns (samples: seq<Doc>)
    ensures |samples| == |hits|
    ensures forall i :: 0 <= i < |hits| ==> samples[i] == Inject(hits[i])
  {
    samples := [];
    for i := 0 to |hits|
      invariant |samples| == i
      invariant forall j :: 0 <= j < i ==> samples[j] == Inject(hits[j])
    {
      var doc: Doc := if hits[i].source.Some? then hits[i].source.value else map[];
      doc := doc[IndexKey := Str(hits[i].index)];
      doc := doc[IdKey := Str(hits[i].id)];
      samples := samples + [doc];
    }
  }

  /** The sample documents, as a value. */
  function Samples(hits: seq<Hit>): (samples: seq<Doc>)
    ensures |samples| == |hits|
    ensures forall i :: 0 <= i < |hits| ==> samples[i] == Inject(hits[i])
  {
    seq(|hits|, i requires 0 <= i < |hits| => Inject(hits[i]))
  }

  /** What `queryCountAndSamples` returns for a rule: the backend's error, or the total and the samples. */
  function QueryOutcome(r: Rule, sampleSize: int, search: Backend): Result<(int, seq<Doc>), QueryError>
  {
    match search(r.index, BuildQuery(r, sampleSize))
    case Failure(err) => Failure(err)
    case Success(resp) => Success((resp.total, Samples(resp.hits)))
  }

  /** `queryCountAndSamples`: build the request, ask the backend about the rule's index, collect the samples. */
  method QueryCountAndSamples(r: Rule, sampleSize: int, search: Backend) returns (res: Result<(int, seq<Doc>), QueryError>)
    ensures res.Failure? <==> search(r.index, BuildQuery(r, sampleSize)).Failure?
    ensures res.Failure? ==> res.error == search(r.index, BuildQuery(r, sampleSize)).error
    ensures res.Success? ==>
      var resp := search(r.index, BuildQuery(r, sampleSize)).value;
      && res.value.0 == resp.total
      && |res.value.1| == |resp.hits|
      && forall i :: 0 <= i < |resp.hits| ==> res.value.1[i] == Inject(resp.hits[i])
    ensures res == QueryOutcome(r, sampleSize, search)
  {
    var query := BuildQuery(r, sampleSize);
    var answer := search(r.index, query);
    if answer.Failure? {
      return Failure(answer.error);
    }
    var samples := CollectSamples(answer.value.hits);
    assert samples == Samples(answer.value.hits);
    return Success((answer.value.total, samples));
  }
}
