/**
 * The small piece of JavaScript runtime semantics that the response classifier
 * relies on: which values are truthy, and the built-in tag that
 * `Object.prototype.toString` reports for a value.
 */
module JsRuntime {

  import opened Wrappers

  /**
   * A runtime value that may sit in a slot typed `Array<T>` once a response has
   * been deserialised: nothing at run time stops it from being a string, a
   * plain object or an array-like `arguments` object instead of an array.
   * Numbers are kept as integers; JavaScript doubles are not modelled.
   */
  datatype JsValue<+T> =
    | Null
    | Bool(b: bool)
    | Number(n: int)
    | Str(s: string)
    | Array(elems: seq<T>)
    | Arguments(args: seq<T>)
    | PlainObject(keys: set<string>)

  /** The built-in tag inside the "[object Tag]" string of `Object.prototype.toString`. */
  datatype Tag = NullTag | BooleanTag | NumberTag | StringTag | ArrayTag | ArgumentsTag | ObjectTag

  function TypeTag<T>(v: JsValue<T>): (t: Tag)
    ensures t == ArrayTag <==> v.Array?
    ensures t == ObjectTag <==> v.PlainObject?
  {
    match v
    case Null => NullTag
    case Bool(_) => BooleanTag
    case Number(_) => NumberTag
    case Str(_) => StringTag
    case Array(_) => ArrayTag
    case Arguments(_) => ArgumentsTag
    case PlainObject(_) => ObjectTag
  }

  /** JavaScript's ToBoolean: null, false, 0 and "" are falsy; every object is truthy. */
  function Truthy<T>(v: JsValue<T>): (r: bool)
    ensures v.Null? ==> !r
    ensures v.Array? || v.Arguments? || v.PlainObject? ==> r
    ensures v.Str? ==> (r <==> v.s != "")
  {
    match v
    case Null => false
    case Bool(b) => b
    case Number(n) => n != 0
    case Str(s) => |s| > 0
    case Array(_) => true
    case Arguments(_) => true
    case PlainObject(_) => true
  }

  /** Truthiness of a string-typed optional member: a missing key is `undefined`, which is falsy. */
  function StringTruthy(o: Option<string>): (r: bool)
    ensures r <==> o.Some? && o.value != ""
  {
    o.Some? && Truthy<int>(Str(o.value))
  }

  /**
   * The private `isArray` helper: the value's toString tag is exactly the
   * Array tag. An array is an object, so it is always truthy.
   */
  function IsArray<T>(v: JsValue<T>): (r: bool)
    ensures r ==> Truthy(v)
  {
    TypeTag(v) == ArrayTag
  }

  /**
   * The duck-typed test the helper deliberately avoids: "has a length
   * property". Strings, arrays, `arguments` objects and plain objects with a
   * `length` key all pass it.
   */
  predicate HasLength<T>(v: JsValue<T>)
  {
    v.Str? || v.Array? || v.Arguments? || (v.PlainObject? && "length" in v.keys)
  }

  /**
   * The tag test accepts every genuine array, of any length, and accepts
   * nothing that is not one.
   */
  lemma ArrayTagExact<T>(v: JsValue<T>)
    ensures IsArray(v) <==> v.Array?
    ensures v.Array? ==> IsArray(v) && HasLength(v)
  {
  }

  /**
   * The tag test is strictly stronger than a length test: some values with a
   * length (an `arguments` object, a string, `{length: 0}`) are not arrays.
   */
  lemma TagStricterThanLength<T>()
    ensures forall v: JsValue<T> :: IsArray(v) ==> HasLength(v)
    ensures exists v: JsValue<T> :: HasLength(v) && !IsArray(v)
    ensures exists v: JsValue<T> :: HasLength(v) && Truthy(v) && !IsArray(v)
    ensures exists v: JsValue<T> :: v.PlainObject? && HasLength(v) && !IsArray(v)
  {
    var args: JsValue<T> := Arguments([]);
    assert HasLength(args) && Truthy(args) && !IsArray(args);
    var arrayLike: JsValue<T> := PlainObject({"length"});
    assert HasLength(arrayLike) && Truthy(arrayLike) && !IsArray(arrayLike);
  }
}
