# Database connection helpers of a cloud-function template, in Dafny

This project models `helpers/__init__.py` of a serverless HTTP function template.
The helpers connect the function to a PostgreSQL database in two steps.

- **Connection-detail resolution** (`get_conn_details`, `__get_from_env`).
  `SECRET_METHOD` selects the secret backend and defaults to `ENV`.
  Only `ENV` is implemented. It reads `DBNAME`, `USER`, `PASSWORD` and `HOST` with `os.environ[...]`, which raises `KeyError` when a variable is missing.
  It reads `PORT` with the default `5432` and the four TLS variables with the default `None`.
  The result is a dict with nine keys.
  Any other selector value makes resolution return `None`.
- **The `connect` decorator** (`connect`, `decorator_connection`, `wrapper`, `__connect`).
  `__connect` resolves the details and passes them, with `application_name`, to the database client.
  `wrapper` opens one connection and calls the decorated function with it as `conn`.
  It then closes the connection and returns the function's result.

Files:

- `python.dfy` (module `Python`) defines the Python runtime pieces the code relies on.
  These are dict values (`PyValue`: `None`, an int or a string) and the exceptions that can escape.
  It also defines `Outcome`, a returned value or a raised exception, and the two ways of reading a mapping: `m[k]` and `m.get(k, default)`.
- `resolver.dfy` (module `Resolver`) models resolution.
  It is a pair of total functions from the environment, a `map<string, string>`, to an `Outcome`.
  `__get_from_env` returns `Outcome<Dict>`.
  `get_conn_details` returns `Outcome<Option<Dict>>`, where `None` is Python's `None`.
- `lifecycle.dfy` (module `Lifecycle`) models the lifecycle.
  `Driver` is the abstract database client.
  Its `Connect` hands out a fresh open `Connection` or raises `OperationalError`, as its `accepts` predicate decides.
  `accepts` stands for the server.
  `Connection.Close` counts `close()` calls.
  A ghost event log on the driver records, in order, each connection attempt, each hand-over of a connection to the unit of work, and each close.
  The unit of work is a function `(Connection, A) -> Outcome<R>`. `A` stands for the decorated function's other arguments.
- `scenarios.dfy` (module `Scenarios`) holds four client methods.
  Each one derives a concrete outcome from the contracts alone: the normal path, a failing unit of work, a missing `HOST`, and `SECRET_METHOD=KMS`.

Four behaviours of the code a reader may not expect:

- `PORT` is passed on as the raw string and is never converted to an integer. Only the unset default is the integer `5432`.
- Empty strings are accepted for the four required variables.
- A `SECRET_METHOD` other than exactly `ENV` yields `None`, not an error. `__connect` then fails with a `TypeError` when it subscripts `None`. This happens before the client is called. The docstring of `get_conn_details` (helpers/__init__.py:19-21, 27-28) lists KMS and GCS as supported types and promises a dict. The model follows the code, which implements neither.
- `close()` is called only when the unit of work returns normally. There is no `try`/`finally`, so when the unit of work raises, `close()` is never called.

## Model

| member | source | states |
|---|---|---|
| `Resolver.GetFromEnv` | helpers/__init__.py:37-50 | Returns a dict iff all four required variables are set; otherwise raises `KeyError` naming a required variable that is missing. Every returned dict has exactly the nine keys. `dbname`/`user`/`password`/`host` are the environment strings verbatim. `port` is the raw `PORT` string when set and the integer 5432 when not. Each TLS key holds its variable's string or `None`. |
| `Resolver.GetConnDetails` | helpers/__init__.py:30-34 | Yields `None` iff `SECRET_METHOD` is set to something other than exactly `ENV`, so it never raises for an unknown backend. When `SECRET_METHOD` is unset or `ENV`, it returns the ENV backend's dict or propagates its `KeyError` unchanged. |
| `Resolver.FirstMissingSome` | helpers/__init__.py:41-44 | `FirstMissing` is the reference definition of the first key of a sequence that the environment lacks. It returns `k` iff some position holds `k`, `k` is unset, and every earlier key is set. |
| `Resolver.GetFromEnvRaisesFirstMissing` | helpers/__init__.py:40-44 | The ENV backend raises iff some required variable is missing. The `KeyError` names the first missing one in reading order: DBNAME, USER, PASSWORD, HOST. |
| `Resolver.ResolutionReadsOnlyConfigKeys` | helpers/__init__.py:30-50 | Two environments that agree on the ten configuration variables resolve to the same outcome. Resolution reads nothing else. |
| `Lifecycle.ConnectRequest` | helpers/__init__.py:79-91 | The arguments `__connect` builds for the client: `GetConnDetails` followed by `ConnectKwargs`, which models the subscripts and `.get` calls of lines 82-91. A resolution error propagates unchanged. A non-ENV selector fails with the not-subscriptable `TypeError`. It fails iff the backend is not ENV or a required variable is missing. |
| `Lifecycle.RequestCarriesEnvVerbatim` | helpers/__init__.py:81-91 | With ENV and all required variables set, the client receives the environment values verbatim. `port` is the raw string or 5432. The TLS values are the strings or `None`. `application_name` is passed through. The `.get` defaults in `__connect` are never used. |
| `Lifecycle.Driver.Connect` | helpers/__init__.py:81 | The abstract `psycopg2.connect`. An accepted request yields a fresh open connection that carries exactly those arguments and is logged as opened. A refused one raises `OperationalError` and is logged as refused. |
| `Lifecycle.Connection.Close` | helpers/__init__.py:61 | `conn.close()` increments the connection's close count and logs the close. |
| `Lifecycle.OpenConnection` | helpers/__init__.py:70-95 | `__connect`. A resolution `KeyError` propagates, and `None` details raise the not-subscriptable `TypeError`; in both cases the client is untouched (the log does not change). Otherwise, exactly one attempt is made with the built arguments, yielding either a fresh open connection or `OperationalError`. |
| `Lifecycle.Wrapper` | helpers/__init__.py:57-62 | If no connection could be opened, the error propagates and nothing else happens. Otherwise exactly one fresh connection is opened and handed to `func`, and `func`'s outcome is returned unchanged. On a normal return, the log gains open, hand-over, close and the close count is 1. When `func` raises, the log gains only open and hand-over, and `close()` is never called on the connection (its close count stays 0). |

## Left out

- The database client's own behaviour (`psycopg2.connect` establishing a network session, helpers/__init__.py:81-91) is abstract. `Driver.accepts` decides the outcome of each attempt, and one `accepts` decides every attempt with the same arguments on a given `Driver`, so a transient refusal is not modelled. `Wrapper` makes a single attempt, so no contract depends on this.
- The connection socket itself is not modelled: `IsOpen()` means only that `close()` has not been called. psycopg2 may still release a connection when the object is garbage-collected.
- The unit of work is a pure function of the connection and its other arguments. Its own effects on the connection are not modelled: queries, or closing the connection itself.
- Logging setup and debug messages (helpers/__init__.py:9-12, 60, 93) are not modelled. The debug messages have no effect on results. `LOG_LEVEL` is read once, when the module is imported, and passed unchanged to `logging.basicConfig(level=...)`. An unrecognised value (anything but an exact level name such as `DEBUG`, `INFO` or `WARN`, so lowercase `debug` too) makes the import fail with `ValueError`, and then neither `connect` nor `get_conn_details` runs. The model does not capture that import-time failure.
- The two call forms of the decorator (`@connect` and `@connect(application_name=...)`, helpers/__init__.py:65-67) are Python higher-order plumbing. Both produce the same `wrapper`, which is modelled by `Wrapper` with `application_name` as an optional parameter.
- The KMS and GCS backends are named in a docstring but not implemented. The model gives them, like every other non-`ENV` value, the `None` result the code produces.
- The HTTP handler in `main.py` (a `SELECT now()` query whose result is turned into a string) has no logic of its own and is not part of this model.
