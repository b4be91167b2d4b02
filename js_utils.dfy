/** `isObject` of the goja client's helper library
    (javascript/goja-client/internal/js/lib/utils.js). */
module JsUtils {
  import opened Dynamic

  /** `value !== null && typeof value === 'object' && !Array.isArray(value)`:
      true exactly for plain objects, so false for null, arrays, numbers,
      strings, booleans, undefined and functions. */
  function IsObject(value: Value): (r: bool)
    ensures r <==> value.Obj?
  {
    value != Null && TypeOf(value) == "object" && !value.Arr?
  }
}
