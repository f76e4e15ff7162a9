/**
 * The dynamically typed dictionaries the system passes around: profile keyword
 * arguments and generated readings (`Dict[str, Any]`).
 */
module Values {

  /** A dictionary value: a string or a number (Python int and float are both `Num`). */
  datatype Value = Str(s: string) | Num(x: real)

  /** Keyword arguments given to a profile constructor (`**kwargs`). */
  type Params = map<string, Value>

  /** One generated reading: field name to value. */
  type Reading = map<string, Value>

  /** `kwargs.get(key, default)` for a string-valued key. */
  function StrParam(p: Params, key: string, default: string): (s: string)
    ensures key in p && p[key].Str? ==> s == p[key].s
    ensures key !in p ==> s == default
  {
    if key in p && p[key].Str? then p[key].s else default
  }

  /** `kwargs.get(key, default)` for a number-valued key. */
  function NumParam(p: Params, key: string, default: real): (x: real)
    ensures key in p && p[key].Num? ==> x == p[key].x
    ensures key !in p ==> x == default
  {
    if key in p && p[key].Num? then p[key].x else default
  }
}
