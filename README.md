# response-type: the response classifier, modelled in Dafny

The repository declares the shape of a Google-style JSON API response envelope
(`IResponse<T>` with an optional `data` block and an optional `error` block) and
two predicates that classify an envelope:

- `IsSuccess` holds when the envelope has a `data` block whose `fields` is truthy
  or whose `items` is a genuine array (checked through the tag that
  `Object.prototype.toString` reports), whatever warnings `error` carries;
- `IsFailure` holds when the envelope has an `error` block and no `data` block.

The two are deliberately not negations of each other: an `error` next to `data`
is a warning, and an envelope with neither block is neither a success nor a
failure.

The comment on `IsFailure` (index.ts:66-67) says that "if data is present then
the API is successful". The code is narrower: a `data` block without a non-empty
`fields` string or an `items` array, such as `{data: {}}`, is not a success
(index.ts:57-61). The model follows the code: `NoMarkerNoSuccess`,
`DataAloneNotSuccess` and `SampleEnvelopes` show such envelopes are not
successes. What the comment needs, that an envelope with `data` is never a failure,
is proved by `ErrorWithDataIsWarning` and `DataAloneNotSuccess`.

Files:

- `wrappers.dfy` — `Option`, for optional members. A missing key is `None`; so is JSON `null` for `data`, `error` and `fields`. For `items`, `None` means a missing key only, and a JSON `null` there is `Some(Null)`.
- `js_runtime.dfy` — the JavaScript semantics the classifier relies on: a runtime
  value type (`JsValue`), `Truthy` (ToBoolean), the built-in tag of
  `Object.prototype.toString` (`TypeTag`) and the private `isArray` helper.
- `response_type.dfy` — the envelope datatypes (`ResponseErrorItem`, `ResponseError`,
  `ResponseData<T>`, `Response<T>`) and the two predicates.
- `classifier_properties.dfy` — the properties of the two predicates, and a reference
  classification (`Classify`) written by cases on the envelope's structure that they are proved to agree with.

The source is pure (early-return boolean expressions, no state, no loops), so the
model is datatypes, functions and lemmas only.

## Model

| member | source | states |
|---|---|---|
| `ResponseType.ResponseErrorItem` | index.ts:1-9 | no contract; one field per interface member, `?` as `Option` |
| `ResponseType.ResponseError` | index.ts:11-15 | no contract; `message` required, `code` and `errors` as `Option` |
| `ResponseType.ResponseData` | index.ts:17-33 | no contract; one field per named member, `?` as `Option`, `items` as a runtime value, the index signature as the `extra` map |
| `ResponseType.Params` | index.ts:39-41 | no contract; the nested `params` object |
| `ResponseType.Response` | index.ts:35-44 | no contract; the envelope, with `data` and `error` both optional and independent |
| `JsRuntime.Truthy` | index.ts:51-71 | the ToBoolean test behind `!response.data`, `fields \|\| ...`, `items && ...` and `response.error`: `null` is falsy, every object (array, `arguments`, plain object) is truthy, and a string is truthy exactly when it is not empty |
| `JsRuntime.StringTruthy` | index.ts:57 | a string-typed optional member is truthy exactly when it is present and not empty |
| `JsRuntime.TypeTag` | index.ts:79 | the tag `Object.prototype.toString` reports is the Array tag exactly for arrays and the Object tag exactly for plain objects |
| `ResponseType.ItemsIsTrueArray` | index.ts:57 | `items && isArray(items)` holds exactly when `items` is present and is an array |
| `JsRuntime.IsArray` | index.ts:78-80 | a value that passes the tag test is truthy, so it is never rejected by the truthiness guard in front of the call |
| `JsRuntime.ArrayTagExact` | index.ts:78-80 | the tag test accepts exactly the genuine arrays, of any length, including the empty one |
| `JsRuntime.TagStricterThanLength` | index.ts:78-80 | every array has a length, but some truthy values with a length (an `arguments` object, a plain object with a `length` key) are not arrays: the tag test is strictly stronger than a duck-typed length test |
| `ResponseType.IsSuccess` | index.ts:46-62 | a success always has a `data` block, and that block has `fields` or `items` present |
| `ResponseType.IsFailure` | index.ts:64-76 | a failure has an `error` block and no `data` block, and is never a success |
| `ClassifierProperties.NoDataNoSuccess` | index.ts:50-53 | without `data` the envelope is not a success, whatever `error` holds |
| `ClassifierProperties.FieldsSuffice` | index.ts:55-58 | a `data` block with a non-empty `fields` string is a success and not a failure, whatever `items` and `error` hold |
| `ClassifierProperties.ArrayItemsSuffice` | index.ts:55-58 | a `data` block whose `items` is a genuine array, the empty array included, is a success whatever `error` holds |
| `ClassifierProperties.NoMarkerNoSuccess` | index.ts:55-61 | a `data` block whose `fields` is missing or empty and whose `items` is missing, null, a string, a plain object or an array-like object is not a success |
| `ClassifierProperties.SuccessExactly` | index.ts:49-62 | success holds if and only if `data` is present and holds a non-empty `fields` string or an `items` array, stated without truthiness or tags |
| `ClassifierProperties.ItemsGuardRedundant` | index.ts:57 | the truthiness test on `items` before the tag test never changes the result |
| `ClassifierProperties.FailureExactly` | index.ts:69-76 | failure holds if and only if `data` is absent and `error` is present; the empty envelope is not a failure |
| `ClassifierProperties.ErrorWithDataIsWarning` | index.ts:64-75 | adding an `error` block next to `data` never makes the envelope a failure and does not change whether it is a success |
| `ClassifierProperties.DataAloneNotSuccess` | index.ts:57-71 | some envelope with a `data` block is neither a success nor a failure, and no envelope with a `data` block is a failure |
| `ClassifierProperties.MutuallyExclusive` | index.ts:49-76 | no envelope is both a success and a failure |
| `ClassifierProperties.NotComplementary` | index.ts:64-68 | some successful envelope carries an `error` block and is not a failure, some envelope is neither, so `IsFailure` is not the negation of `IsSuccess` |
| `ClassifierProperties.OnlyMarkersMatter` | index.ts:49-76 | resetting `apiVersion`, `context`, `id`, `params`, every other member of `data` (pagination counters, extra keys, ...) and the content of `error` leaves both results unchanged |
| `ClassifierProperties.SameMarkersSameClass` | index.ts:49-76 | two envelopes that agree on the presence of `data` and `error` and on `data.fields` and `data.items` are classified alike |
| `ClassifierProperties.ClassifyAgrees` | index.ts:46-76 | success is the reference outcome "succeeded" or "succeeded with warnings", and failure is exactly the outcome "failed" |
| `ClassifierProperties.SampleEnvelopes` | index.ts:49-76 | six sample envelopes (an items array; an error alone; `{}`; fields plus a warning; an empty data block; a string in `items`) get their intended classification |

## Left out

- `index.d.ts` is a copy of the type declarations of `index.ts` without behaviour; the datatypes cover it.
- JavaScript numbers are doubles; `code`, the pagination counters and `Number` runtime values are modelled as `int`. The predicates never read them.
- `Object.prototype.toString` is modelled by its tag (`TypeTag`), not by comparing the "[object Array]" string. Exotic objects are not modelled: typed arrays, objects that override `Symbol.toStringTag`, and proxies (a proxy of an array reports the Array tag).
- `fields` is modelled as typed, an optional string. A non-string value stored there at run time is not modelled.
- `data` and `error` are modelled as objects whenever present, so presence is truthiness. A non-object value in either slot is not modelled, and neither is an envelope that is not an object. The types rule these out, and the code does not define the behaviour.
- The values in the open `[key: string]: any` bag are `JsValue`s. No predicate reads them. The `extra` map is meant to hold only keys other than the named members; the model does not enforce this. A `fields` or `items` key placed in `extra` is not read as the named member.
