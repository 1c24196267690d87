/** The few PHP value semantics the m5Photo class depends on: which values
    `empty()` treats as empty, how `== true` converts a value to a boolean,
    and `isset` on a settings array. Floats, arrays and objects are not
    modelled; a setting or argument is one of the scalar kinds below. */
module PhpValues {

  datatype Option<+T> = None | Some(value: T)

  /** A PHP scalar as it reaches the class: a setting, an argument or a field. */
  datatype Value = Null | Bool(b: bool) | Int(i: int) | Str(s: string)

  /** PHP's `empty()`: null, false, 0, "" and "0" are empty. */
  predicate IsEmpty(v: Value)
  {
    match v
    case Null => true
    case Bool(b) => !b
    case Int(i) => i == 0
    case Str(s) => IsEmptyString(s)
  }

  /** The strings `empty()` treats as empty: "" and "0". */
  predicate IsEmptyString(s: string)
  {
    |s| == 0 || (|s| == 1 && s[0] == '0')
  }

  /** PHP's loose comparison `v == true`, i.e. the boolean conversion of `v`. */
  predicate Truthy(v: Value)
  {
    match v
    case Null => false
    case Bool(b) => b
    case Int(i) => i != 0
    case Str(s) => !IsEmptyString(s)
  }

  /** A value is converted to `true` exactly when `empty()` calls it non-empty. */
  lemma TruthyIsNotEmpty(v: Value)
    ensures Truthy(v) <==> !IsEmpty(v)
  {
  }

  /** PHP's `isset($a[key])`: the key is present and its value is not null. */
  predicate IsSet(a: map<string, Value>, key: string)
  {
    key in a && a[key] != Null
  }

  /** `isset($a[key]) ? $a[key] : default`. */
  function ValueOr(a: map<string, Value>, key: string, default: Value): Value
  {
    if IsSet(a, key) then a[key] else default
  }
}
