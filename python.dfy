/** The small slice of Python's runtime that helpers/__init__.py relies on:
    the values stored in the connection-details dict, the exceptions the
    code can raise or let through, and the two ways of reading a mapping
    (`m[key]`, which raises KeyError, and `m.get(key, default)`, which does
    not). */
module Python {

  datatype Option<+T> = None | Some(value: T)

  /** A value held in a Python dict or passed as a keyword argument. */
  datatype PyValue = PyNone | PyInt(i: int) | PyStr(s: string)

  /** The exceptions that can leave the modelled code. */
  datatype Exception =
    | KeyError(key: string)      // a mapping subscripted with a missing key
    | NotSubscriptable           // TypeError: `None[...]`
    | OperationalError           // the database client could not establish a connection
    | AppError(name: string)     // anything the caller's unit of work raises

  /** The result of evaluating Python code: a value, or a raised exception
      that propagates to the caller. */
  datatype Outcome<+T> = Returned(value: T) | Raised(exc: Exception) {
    predicate IsFailure() {
      Raised?
    }

    function PropagateFailure<U>(): Outcome<U>
      requires Raised?
    {
      Raised(exc)
    }

    function Extract(): T
      requires Returned?
    {
      value
    }
  }

  /** The process environment, `os.environ`. */
  type Env = map<string, string>

  /** A dict with string keys, as returned by the resolver. */
  type Dict = map<string, PyValue>

  /** `os.environ[key]` */
  function EnvItem(env: Env, key: string): Outcome<string> {
    if key in env then Returned(env[key]) else Raised(KeyError(key))
  }

  /** `os.environ.get(key, default)`: the stored string, never converted. */
  function EnvGet(env: Env, key: string, default: PyValue): PyValue {
    if key in env then PyStr(env[key]) else default
  }

  /** `d[key]` */
  function DictItem(d: Dict, key: string): Outcome<PyValue> {
    if key in d then Returned(d[key]) else Raised(KeyError(key))
  }

  /** `d.get(key, default)` */
  function DictGet(d: Dict, key: string, default: PyValue): PyValue {
    if key in d then d[key] else default
  }
}
