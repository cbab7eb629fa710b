/** The few PHP value semantics the manager relies on. */
module Php {
  import opened Wrappers

  /** A configuration value as PHP sees it; `Null` also stands for a key that is not set. */
  datatype PhpValue = Null | Bool(b: bool) | Int(i: int) | Str(s: string)

  /** PHP's `empty()` on a string: true for "" and for "0". */
  predicate EmptyString(s: string)
  {
    s == "" || s == "0"
  }

  /** PHP truthiness of a nullable string: null, "" and "0" are falsy. */
  predicate Truthy(v: Option<string>)
  {
    v.Some? && !EmptyString(v.value)
  }

  /** `$value === true`: strict identity with the boolean `true`. */
  predicate IsTrue(v: PhpValue)
  {
    v == Bool(true)
  }
}
