/**
 The Python values the program moves around: what a parsed YAML document or the
 argument parser can put into the configuration dict, Python's notion of
 truthiness, Python list indexing (negative indices count from the end), and the
 exceptions that the program does not catch.
 */
module PyValues {

  datatype Option<+T> = None | Some(value: T)

  datatype Result<+T, +E> = Ok(value: T) | Err(error: E)

  /** A value held in the configuration dict. */
  datatype Value =
    | Null                      // Python None
    | Bool(b: bool)
    | Int(i: int)
    | Str(s: string)
    | List(items: seq<Value>)   // a YAML sequence

  /** Python's truth test: None, False, 0, "" and [] are false, everything else true. */
  predicate Truthy(v: Value) {
    match v
    case Null => false
    case Bool(b) => b
    case Int(i) => i != 0
    case Str(s) => s != ""
    case List(items) => items != []
  }

  /** Exceptions that propagate out of the program and end it with a traceback. */
  datatype Uncaught =
    | KeyError(key: string)     // a dict lookup of a key that is not there
    | NotAMapping               // TypeError: the YAML document is not a mapping
    | InvalidBucketName         // the storage library rejects a bucket name that is not a string
    | NotAnInteger              // ValueError from int() on the download prompt
    | EndOfInput                // EOFError from input() once standard input is exhausted
    | NotSubscriptable          // TypeError: indexing None (no listing was returned)

  /**
   Python's `s[i]`: an index in [0, |s|) counts from the front, one in [-|s|, 0)
   counts from the end, and any other index raises IndexError (None here).
   */
  function PyIndex<T>(s: seq<T>, i: int): (r: Option<T>)
    ensures r.Some? <==> -|s| <= i < |s|
    ensures r.Some? ==> r.value == s[i % |s|]
  {
    if 0 <= i < |s| then Some(s[i])
    else if -|s| <= i < 0 then Some(s[|s| + i])
    else None
  }
}
