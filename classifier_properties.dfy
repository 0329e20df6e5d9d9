/**
 * What the two classifiers of index.ts promise, stated over every envelope:
 * when each holds, that they exclude each other without being complements,
 * and that nothing but `data`, `error`, `data.fields` and `data.items` is read.
 */
module ClassifierProperties {

  import opened Wrappers
  import opened JsRuntime
  import opened ResponseType

  /** Without a `data` block there is no success, whatever `error` holds. */
  lemma NoDataNoSuccess<T>(response: Response<T>)
    requires response.data.None?
    ensures !IsSuccess(response)
    ensures forall err: Option<ResponseError> :: !IsSuccess(response.(error := err))
  {
  }

  /** A non-empty `fields` string makes any `data` block a success, whatever `items` and `error` hold. */
  lemma FieldsSuffice<T>(response: Response<T>, data: ResponseData<T>, fields: string,
                         items: Option<JsValue<T>>, err: Option<ResponseError>)
    requires |fields| > 0
    ensures IsSuccess(response.(data := Some(data.(fields := Some(fields), items := items)), error := err))
    ensures !IsFailure(response.(data := Some(data.(fields := Some(fields), items := items)), error := err))
  {
  }

  /** A genuine array in `items`, the empty one included, makes any `data` block a success. */
  lemma ArrayItemsSuffice<T>(response: Response<T>, data: ResponseData<T>, xs: seq<T>,
                             err: Option<ResponseError>)
    ensures IsSuccess(response.(data := Some(data.(items := Some(Array(xs)))), error := err))
    ensures IsSuccess(response.(data := Some(data.(items := Some(Array([])))), error := err))
  {
  }

  /**
   * A `data` block whose `fields` is missing or empty and whose `items` is
   * missing, null, or anything but a genuine array (a string, a plain object,
   * an array-like `arguments` object) is not a success.
   */
  lemma NoMarkerNoSuccess<T>(response: Response<T>)
    requires response.data.Some?
    requires response.data.value.fields.None? || response.data.value.fields == Some("")
    requires response.data.value.items.None? || !response.data.value.items.value.Array?
    ensures !IsSuccess(response)
  {
  }

  /**
   * Success stated structurally, without truthiness or tags: a `data` block
   * holding a non-empty `fields` string or an `items` array.
   */
  lemma SuccessExactly<T>(response: Response<T>)
    ensures IsSuccess(response) <==>
              response.data.Some? &&
              ((response.data.value.fields.Some? && response.data.value.fields.value != "") ||
               (response.data.value.items.Some? && response.data.value.items.value.Array?))
  {
  }

  /** The truthiness guard in front of `isArray` never changes the outcome: arrays are truthy. */
  lemma ItemsGuardRedundant<T>(items: Option<JsValue<T>>)
    ensures ItemsIsTrueArray(items) <==> items.Some? && IsArray(items.value)
  {
  }

  /** Failure holds exactly when `error` is present and `data` is not; the empty envelope is no failure. */
  lemma FailureExactly<T>(response: Response<T>)
    ensures IsFailure(response) <==> response.data.None? && response.error.Some?
    ensures !IsFailure(EmptyResponse<T>())
  {
  }

  /** An `error` next to a `data` block is a warning: it never makes the envelope a failure, nor changes its success. */
  lemma ErrorWithDataIsWarning<T>(response: Response<T>, err: ResponseError)
    requires response.data.Some?
    ensures !IsFailure(response.(error := Some(err)))
    ensures IsSuccess(response.(error := Some(err))) == IsSuccess(response)
  {
  }

  /**
   * A `data` block alone does not make an envelope a success: one without
   * `fields` or `items` is neither a success nor a failure. What holds for
   * every envelope with `data` is that it is not a failure.
   */
  lemma DataAloneNotSuccess<T>()
    ensures exists r: Response<T> :: r.data.Some? && !IsSuccess(r) && !IsFailure(r)
    ensures forall r: Response<T> :: r.data.Some? ==> !IsFailure(r)
  {
    var bare: Response<T> := EmptyResponse().(data := Some(EmptyData()));
    assert bare.data.Some? && !IsSuccess(bare) && !IsFailure(bare);
  }

  /** No envelope is both a success and a failure. */
  lemma MutuallyExclusive<T>(response: Response<T>)
    ensures !(IsSuccess(response) && IsFailure(response))
  {
  }

  /**
   * The two classifiers are not negations of each other: a successful
   * envelope can carry an `error` block without failing, and the empty
   * envelope is neither. So `!IsSuccess` cannot stand in for `IsFailure`.
   */
  lemma NotComplementary<T>()
    ensures exists r: Response<T> :: r.error.Some? && IsSuccess(r) && !IsFailure(r)
    ensures exists r: Response<T> :: !IsSuccess(r) && !IsFailure(r)
    ensures !(forall r: Response<T> :: IsFailure(r) == !IsSuccess(r))
  {
    var warned: Response<T> := EmptyResponse().(
      data := Some(EmptyData().(fields := Some("name,id"))),
      error := Some(ResponseError(None, "deprecated field used", None)));
    assert warned.error.Some? && IsSuccess(warned) && !IsFailure(warned);
    var empty: Response<T> := EmptyResponse();
    assert !IsSuccess(empty) && !IsFailure(empty);
  }

  /**
   * The part of an envelope the classifiers read: whether `data` and `error`
   * are present, and the `fields` and `items` of `data`. Everything else is
   * reset and the error block replaced by a fixed one.
   */
  function Markers<T>(response: Response<T>): Response<T>
  {
    EmptyResponse().(
      data := if response.data.Some? then
                Some(EmptyData().(fields := response.data.value.fields, items := response.data.value.items))
              else None,
      error := if response.error.Some? then Some(ResponseError(None, "", None)) else None)
  }

  /**
   * Metadata (`apiVersion`, `context`, `id`, `params`), the other `data`
   * members (pagination counters, `kind`, `etag`, extra keys) and the content
   * of `error` never change either result.
   */
  lemma OnlyMarkersMatter<T>(response: Response<T>)
    ensures IsSuccess(Markers(response)) == IsSuccess(response)
    ensures IsFailure(Markers(response)) == IsFailure(response)
  {
  }

  /** Two envelopes that agree on what the classifiers read are classified alike. */
  lemma SameMarkersSameClass<T>(r1: Response<T>, r2: Response<T>)
    requires Markers(r1) == Markers(r2)
    ensures IsSuccess(r1) == IsSuccess(r2) && IsFailure(r1) == IsFailure(r2)
  {
  }

  /**
   * Five cases, by the presence of `data` and `error` and by whether `data`
   * holds a non-empty `fields` string or an `items` array.
   */
  datatype Outcome =
    | Succeeded               // data with fields or items, no error
    | SucceededWithWarnings   // data with fields or items, error read as warnings
    | Incomplete              // data without fields or items
    | Failed                  // error and no data
    | Unclassified            // neither data nor error

  /** A reference reading of an envelope, written by cases on its structure. */
  function Classify<T>(response: Response<T>): Outcome
  {
    match response.data
    case None => if response.error.Some? then Failed else Unclassified
    case Some(data) =>
      if (data.fields.Some? && data.fields.value != "") || (data.items.Some? && data.items.value.Array?) then
        (if response.error.Some? then SucceededWithWarnings else Succeeded)
      else Incomplete
  }

  /** The classifiers agree with the reference reading. */
  lemma ClassifyAgrees<T>(response: Response<T>)
    ensures IsSuccess(response) <==> Classify(response) in {Succeeded, SucceededWithWarnings}
    ensures IsFailure(response) <==> Classify(response) == Failed
  {
  }

  /** Six sample envelopes and their classification. */
  lemma SampleEnvelopes()
    ensures var r := EmptyResponse<int>().(data := Some(EmptyData().(items := Some(Array([1, 2, 3])))));
            IsSuccess(r) && !IsFailure(r)
    ensures var r := EmptyResponse<int>().(error := Some(ResponseError(None, "not found", None)));
            !IsSuccess(r) && IsFailure(r)
    ensures !IsSuccess(EmptyResponse<int>()) && !IsFailure(EmptyResponse<int>())
    ensures var r := EmptyResponse<int>().(data := Some(EmptyData().(fields := Some("name,id"))),
                                           error := Some(ResponseError(None, "deprecated field used", None)));
            IsSuccess(r) && !IsFailure(r)
    ensures var r := EmptyResponse<int>().(data := Some(EmptyData()));
            !IsSuccess(r) && !IsFailure(r)
    ensures var r := EmptyResponse<int>().(data := Some(EmptyData().(items := Some(Str("not-an-array")))));
            !IsSuccess(r)
  {
  }
}
