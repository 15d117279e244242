/** The query record of src/query.rs and its builders, each a record update. */
module Query {
  import opened Wrappers
  import opened Text
  import opened Parameters

  datatype QueryMode = And | Or

  /** `QueryMode::default()` */
  const DefaultMode: QueryMode := And

  datatype DistributionQuery = DistributionQuery(id: String, version: Option<String>)

  /** A compiled pattern, standing for `regex::Regex`; it keeps the text it was compiled from. */
  datatype Regex = Regex(pattern: String)

  /** `regex::Error`: the message of a pattern that does not compile. */
  datatype RegexError = RegexError(message: String)

  datatype QueryParameters = QueryParameters(
    queryMode: QueryMode,
    name: Option<Regex>,
    processor: Option<ParameterProcessor>,
    pciIds: seq<(U16, U16)>,
    usbIds: seq<(U16, U16)>,
    arch: Option<String>,
    applicable: Option<bool>,
    distribution: Option<DistributionQuery>,
    deprecated: Option<bool>,
    flags: seq<String>)

  /** `QueryParameters::default()`: the default mode, every option unset, every list empty. */
  const DefaultQuery: QueryParameters :=
    QueryParameters(DefaultMode, None, None, [], [], None, None, None, None, [])

  /** Nothing is asked for: And mode, no option set, no list filled. */
  predicate IsEmptyQuery(q: QueryParameters)
  {
    q.queryMode == And && q.name.None? && q.processor.None? && q.pciIds == [] && q.usbIds == []
    && q.arch.None? && q.applicable.None? && q.distribution.None? && q.deprecated.None? && q.flags == []
  }

  /** `new`, which is `default()`. */
  function New(): (q: QueryParameters)
    ensures IsEmptyQuery(q)
    ensures q == DefaultQuery
  {
    QueryParameters(And, None, None, [], [], None, None, None, None, [])
  }

  /** The empty query is the only one that asks for nothing. */
  lemma EmptyQueryIsDefault(q: QueryParameters)
    ensures IsEmptyQuery(q) <==> q == DefaultQuery
  {
  }

  /**
   * `with_name_pattern`: the pattern is compiled (`syntaxError` gives the message of
   * a pattern that does not compile) and only `name` changes.
   */
  function WithNamePattern(q: QueryParameters, pattern: String, syntaxError: String -> Option<String>)
    : (r: Result<QueryParameters, RegexError>)
    ensures r.Err? <==> syntaxError(pattern).Some?
    ensures r.Err? ==> r.error == RegexError(syntaxError(pattern).value)
    ensures r.Ok? ==> r.value.name == Some(Regex(pattern)) && r.value.(name := q.name) == q
  {
    match syntaxError(pattern)
    case Some(message) => Err(RegexError(message))
    case None => Ok(q.(name := Some(Regex(pattern))))
  }

  /** `with_processor`: only `processor` changes. */
  function WithProcessor(q: QueryParameters, processor: ParameterProcessor): (r: QueryParameters)
    ensures r.processor == Some(processor) && r.(processor := q.processor) == q
  {
    q.(processor := Some(processor))
  }

  /** `applicable_only`: only `applicable` changes, to `Some(true)`. */
  function ApplicableOnly(q: QueryParameters): (r: QueryParameters)
    ensures r.applicable == Some(true) && r.(applicable := q.applicable) == q
  {
    q.(applicable := Some(true))
  }

  /** The builders touch different fields, so their order does not matter, and a repeated one keeps the last value. */
  lemma BuildersCommute(q: QueryParameters, p: ParameterProcessor, p2: ParameterProcessor, pattern: String,
                        syntaxError: String -> Option<String>)
    ensures WithProcessor(ApplicableOnly(q), p) == ApplicableOnly(WithProcessor(q, p))
    ensures WithProcessor(WithProcessor(q, p), p2) == WithProcessor(q, p2)
    ensures ApplicableOnly(ApplicableOnly(q)) == ApplicableOnly(q)
    ensures WithNamePattern(q, pattern, syntaxError).Ok? ==>
              WithNamePattern(WithProcessor(q, p), pattern, syntaxError)
              == Ok(WithProcessor(WithNamePattern(q, pattern, syntaxError).value, p))
  {
  }
}
