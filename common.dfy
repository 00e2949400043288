/** Shared vocabulary: the dictionaries the program passes around and its
    error outcomes. */
module Common {

  datatype Option<T> = None | Some(value: T)

  /** The two exceptions the core can raise: a `KeyError` on a dictionary or
      a data-frame column (one key, or the set a single check reports), and
      the `ValueError` of Python's `range` when its step is zero. */
  datatype Error =
    | MissingKey(key: string)
    | MissingKeys(keys: set<string>)
    | ZeroStep

  datatype Result<T> = Success(value: T) | Failure(error: Error)

  /** A record or data-frame row: column name to numeric value. */
  type Row = map<string, real>

  /** The value of `d.get(key, 0)`. */
  function GetOrZero(row: Row, key: string): (v: real)
    ensures key in row ==> v == row[key]
    ensures key !in row ==> v == 0.0
  {
    if key in row then row[key] else 0.0
  }
}
