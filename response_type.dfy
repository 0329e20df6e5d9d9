/**
 * The Google-style JSON API response envelope and the two predicates that
 * classify it (index.ts). Every optional member is an `Option`, so a missing
 * key is explicit.
 */
module ResponseType {

  import opened Wrappers
  import opened JsRuntime

  /** One granular error or warning detail; no member is required. */
  datatype ResponseErrorItem = ResponseErrorItem(
    domain: Option<string>,
    reason: Option<string>,
    message: Option<string>,
    location: Option<string>,
    locationType: Option<string>,
    extendedHelp: Option<string>,
    sendReport: Option<string>)

  /** The top-level error (or warning) block; only `message` is required. */
  datatype ResponseError = ResponseError(
    code: Option<int>,
    message: string,
    errors: Option<seq<ResponseErrorItem>>)

  /**
   * The `data` block. `items` is typed `Array<T>` but holds whatever value the
   * producer put there; `extra` is the open `[key: string]: any` bag.
   */
  datatype ResponseData<T> = ResponseData(
    kind: Option<string>,
    fields: Option<string>,
    etag: Option<string>,
    id: Option<string>,
    lang: Option<string>,
    updated: Option<string>,
    deleted: Option<bool>,
    currentItemCount: Option<int>,
    itemsPerPage: Option<int>,
    startIndex: Option<int>,
    totalItems: Option<int>,
    pageIndex: Option<int>,
    totalPages: Option<int>,
    items: Option<JsValue<T>>,
    extra: map<string, JsValue<T>>)

  datatype Params = Params(id: Option<string>)

  /** The envelope. `data` and `error` may both be present: the error then carries warnings. */
  datatype Response<T> = Response(
    apiVersion: Option<string>,
    context: Option<string>,
    id: Option<string>,
    params: Option<Params>,
    data: Option<ResponseData<T>>,
    error: Option<ResponseError>)

  /** `{}` as a data block: every member missing. */
  function EmptyData<T>(): ResponseData<T>
  {
    ResponseData(None, None, None, None, None, None, None,
                 None, None, None, None, None, None, None, map[])
  }

  /** `{}` as an envelope: neither `data` nor `error`. */
  function EmptyResponse<T>(): Response<T>
  {
    Response(None, None, None, None, None, None)
  }

  /**
   * `items && isArray(items)`: the truthiness guard short-circuits, so the tag
   * is only consulted for a truthy value.
   */
  function ItemsIsTrueArray<T>(items: Option<JsValue<T>>): (r: bool)
    ensures r <==> items.Some? && items.value.Array?
  {
    match items
    case None => false
    case Some(v) => Truthy(v) && IsArray(v)
  }

  /**
   * An envelope is successful, whatever warnings it carries, when it has a
   * `data` block whose `fields` is truthy or whose `items` is a genuine array.
   * Without `data` it is never successful, whatever `error` holds.
   */
  function IsSuccess<T>(response: Response<T>): (r: bool)
    ensures r ==> response.data.Some?
    ensures r ==> response.data.value.fields.Some? || response.data.value.items.Some?
  {
    if response.data.None? then
      false
    else
      var data := response.data.value;
      StringTruthy(data.fields) || ItemsIsTrueArray(data.items)
  }

  /**
   * An envelope is a failure when it has an `error` block and no `data` block.
   * A failure is never a success: the two demand opposite states of `data`.
   */
  function IsFailure<T>(response: Response<T>): (r: bool)
    ensures r ==> response.data.None? && response.error.Some?
    ensures r ==> !IsSuccess(response)
  {
    response.data.None? && response.error.Some?
  }
}
