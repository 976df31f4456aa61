/** Python values as the web-search pipeline sees them: optional results, and the
    `str`-or-`None` values held in the dicts it builds and reads. */
module PyValues {

  /** A value that may be missing: an LLM reply that failed, a provider call that raised. */
  datatype Option<+T> = None | Some(value: T)

  /** A value stored under a key of one of the pipeline's dicts: a `str` or `None`. */
  datatype PyVal = PyNone | PyStr(s: string)

  /** A Python dict from `str` keys to such values; a key that is not in the map is absent
      from the dict, which is not the same as a key that holds `None`. */
  type Dict = map<string, PyVal>

  /** What an f-string writes for the value: `None` prints as the four letters "None". */
  function Format(v: PyVal): string {
    match v
    case PyNone => "None"
    case PyStr(s) => s
  }

  /** `d.get(key, default)`. */
  function GetOr(d: Dict, key: string, default: PyVal): PyVal {
    if key in d then d[key] else default
  }

  /** `d.get(key)`: `None` when the key is absent. */
  function Get(d: Dict, key: string): PyVal {
    GetOr(d, key, PyNone)
  }
}
