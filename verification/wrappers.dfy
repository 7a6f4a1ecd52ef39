/** The optional value used wherever app.py may hold Python's `None`. */
module Wrappers {

  datatype Option<+T> = None | Some(value: T)

  /** `d.get(key, default)` on a Python dict of strings. */
  function GetOr(d: map<string, string>, key: string, default: string): (r: string)
    ensures key in d ==> r == d[key]
    ensures key !in d ==> r == default
  {
    if key in d then d[key] else default
  }
}
