/** The dictionaries the benchmark scripts pass around as reports and CSV
    rows: string keys, values that are numbers, strings or booleans. Python's
    ints and floats are both numbers here (a `real`). */
module Records {
  import opened Wrappers

  datatype Value = VNum(x: real) | VStr(s: string) | VBool(b: bool)

  type Record = map<string, Value>

  /** `r.get(key, default)` for a number: the records compared in the
      scripts hold numbers under these keys, or nothing. */
  predicate NumericAt(r: Record, key: string) {
    key in r ==> r[key].VNum?
  }

  function GetNum(r: Record, key: string, default: real): (x: real)
    requires NumericAt(r, key)
    ensures key in r ==> VNum(x) == r[key]
    ensures key !in r ==> x == default
  {
    if key in r then r[key].x else default
  }
}
