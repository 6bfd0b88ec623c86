/** The witness statement produced by the generator and the request form's
    validation schema (`generationSchema`). */
module Request {
  import opened Wrappers

  /** One witness statement: the claim shown and its provider-asserted label. */
  datatype Statement = Statement(text: string, isTrue: bool)

  /** The generator's output shape `{ statements: [{text, isTrue}] }`. */
  datatype GenerationOutput = GenerationOutput(statements: seq<Statement>)

  /** The submitted form values. `numStatements` is any number, not only an integer. */
  datatype GenerationRequest = GenerationRequest(topic: string, numStatements: real)

  /** One failed check of the schema, in the order the schema runs them. */
  datatype Issue = TopicTooShort | TopicTooLong | TooFewStatements | TooManyStatements

  const MinTopicLength: nat := 10
  const MaxTopicLength: nat := 150
  const MinStatements: real := 4.0
  const MaxStatements: real := 12.0
  const DefaultStatements: real := 6.0

  /** The requests the schema lets through. */
  predicate ValidRequest(req: GenerationRequest) {
    && MinTopicLength <= |req.topic| <= MaxTopicLength
    && MinStatements <= req.numStatements <= MaxStatements
  }

  /** Every check the schema runs on the two fields, each reported when it fails. */
  function Issues(topic: string, numStatements: real): seq<Issue> {
    (if |topic| < MinTopicLength then [TopicTooShort] else [])
    + (if |topic| > MaxTopicLength then [TopicTooLong] else [])
    + (if numStatements < MinStatements then [TooFewStatements] else [])
    + (if numStatements > MaxStatements then [TooManyStatements] else [])
  }

  /** Parses the form values: a missing count defaults to 6, and the request
      is accepted exactly when it has no issue. */
  function ParseRequest(topic: string, numStatements: Option<real>): (r: Result<GenerationRequest, seq<Issue>>)
    ensures r.Success? <==> 10 <= |topic| <= 150 && 4.0 <= numStatements.GetOr(6.0) <= 12.0
    ensures r.Success? ==> r.value == GenerationRequest(topic, numStatements.GetOr(6.0)) && ValidRequest(r.value)
    ensures r.Failure? ==> |r.error| > 0
    ensures r.Failure? ==> (TopicTooShort in r.error <==> |topic| < 10)
    ensures r.Failure? ==> (TopicTooLong in r.error <==> |topic| > 150)
    ensures r.Failure? ==> (TooFewStatements in r.error <==> numStatements.GetOr(6.0) < 4.0)
    ensures r.Failure? ==> (TooManyStatements in r.error <==> numStatements.GetOr(6.0) > 12.0)
  {
    var n := numStatements.GetOr(DefaultStatements);
    var issues := Issues(topic, n);
    if issues == [] then Success(GenerationRequest(topic, n)) else Failure(issues)
  }
}
