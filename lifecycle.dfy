/** The connection lifecycle of helpers/__init__.py: `__connect` (resolve the
    details, then call the database client) and the `wrapper` that the
    `connect` decorator puts around a unit of work (open, call, close). The
    database client is abstract: a `Driver` whose `Connect` either hands out a
    fresh open `Connection` or raises OperationalError, as decided by the
    server it stands for. */
module Lifecycle {
  import opened Python
  import opened Resolver

  /** The keyword arguments `__connect` passes to the database client. */
  datatype ConnectArgs = ConnectArgs(
    dbname: PyValue, user: PyValue, password: PyValue, host: PyValue, port: PyValue,
    sslmode: PyValue, sslrootcert: PyValue, sslkey: PyValue, sslcert: PyValue,
    applicationName: PyValue)

  /** What happened to the client and its connections, in order. */
  datatype Event =
    | Refused(args: ConnectArgs)     // a connection attempt the server rejected
    | Opened(conn: Connection)       // a connection attempt that succeeded
    | Handed(conn: Connection)       // the connection was passed to the unit of work
    | Closed(conn: Connection)       // `conn.close()`

  /** The `application_name` keyword: `None` unless the decorator was given one. */
  function AppNameValue(applicationName: Option<string>): PyValue {
    match applicationName
    case None => PyNone
    case Some(name) => PyStr(name)
  }

  /** The keyword arguments `__connect` builds from `c_props`: four
      subscripts, which raise on `None` or on a missing key, and five `get`
      calls with defaults. */
  function ConnectKwargs(cProps: Option<Dict>, applicationName: PyValue): Outcome<ConnectArgs> {
    match cProps
    case None => Raised(NotSubscriptable)
    case Some(d) =>
      var dbname :- DictItem(d, "dbname");
      var user :- DictItem(d, "user");
      var password :- DictItem(d, "password");
      var host :- DictItem(d, "host");
      Returned(ConnectArgs(
        dbname, user, password, host,
        DictGet(d, "port", PyInt(DefaultPort)),
        DictGet(d, "sslmode", PyNone),
        DictGet(d, "sslrootcert", PyNone),
        DictGet(d, "sslkey", PyNone),
        DictGet(d, "sslcert", PyNone),
        applicationName))
  }

  /** Everything `__connect` does before the client is called: resolution
      errors propagate, and a `None` result fails on the first subscript. */
  function ConnectRequest(env: Env, applicationName: PyValue): (r: Outcome<ConnectArgs>)
    ensures GetConnDetails(env).Raised? ==> r == Raised(GetConnDetails(env).exc)
    ensures !SelectsEnvBackend(env) ==> r == Raised(NotSubscriptable)
    ensures r.Raised? <==> !SelectsEnvBackend(env) || exists k :: k in RequiredKeys && k !in env
  {
    var cProps :- GetConnDetails(env);
    ConnectKwargs(cProps, applicationName)
  }

  /** With the ENV backend and all required variables set, the client receives
      the environment's values verbatim: the defaults written in `__connect`
      are never used, since every dict from the ENV backend has all nine keys,
      and PORT stays the raw string when it is set. */
  lemma RequestCarriesEnvVerbatim(env: Env, applicationName: PyValue)
    requires SelectsEnvBackend(env)
    requires forall k :: k in RequiredKeys ==> k in env
    ensures "DBNAME" in env && "USER" in env && "PASSWORD" in env && "HOST" in env
    ensures ConnectRequest(env, applicationName) == Returned(ConnectArgs(
      PyStr(env["DBNAME"]), PyStr(env["USER"]), PyStr(env["PASSWORD"]), PyStr(env["HOST"]),
      if PortKey in env then PyStr(env[PortKey]) else PyInt(DefaultPort),
      if "SSLMODE" in env then PyStr(env["SSLMODE"]) else PyNone,
      if "SSLROOTCERT" in env then PyStr(env["SSLROOTCERT"]) else PyNone,
      if "SSLKEY" in env then PyStr(env["SSLKEY"]) else PyNone,
      if "SSLCERT" in env then PyStr(env["SSLCERT"]) else PyNone,
      applicationName))
  {
  }

  /** The abstract database client (`psycopg2`). `accepts` stands for the
      server: whether it lets a connection with these arguments be made. It is
      fixed per driver, so equal arguments always get the same answer. */
  class Driver {
    const accepts: ConnectArgs -> bool
    ghost var log: seq<Event>

    constructor (accepts: ConnectArgs -> bool)
      ensures this.accepts == accepts && log == []
    {
      this.accepts := accepts;
      log := [];
    }

    /** `psycopg2.connect(**kwargs)` */
    method Connect(kwargs: ConnectArgs) returns (r: Outcome<Connection>)
      modifies this`log
      ensures accepts(kwargs) ==>
                r.Returned? && fresh(r.value) && r.value.IsOpen()
                && r.value.owner == this && r.value.kwargs == kwargs
                && log == old(log) + [Opened(r.value)]
      ensures !accepts(kwargs) ==> r == Raised(OperationalError) && log == old(log) + [Refused(kwargs)]
    {
      if accepts(kwargs) {
        var conn := new Connection(this, kwargs);
        log := log + [Opened(conn)];
        r := Returned(conn);
      } else {
        log := log + [Refused(kwargs)];
        r := Raised(OperationalError);
      }
    }
  }

  /** A connection handed out by the client; `closeCount` counts `close()`
      calls, and `IsOpen()` means only that `close()` has not been called. */
  class Connection {
    const owner: Driver
    const kwargs: ConnectArgs
    var closeCount: nat

    predicate IsOpen()
      reads this
    {
      closeCount == 0
    }

    constructor (owner: Driver, kwargs: ConnectArgs)
      ensures this.owner == owner && this.kwargs == kwargs && closeCount == 0
    {
      this.owner := owner;
      this.kwargs := kwargs;
      closeCount := 0;
    }

    /** `conn.close()` */
    method Close()
      modifies this, owner`log
      ensures closeCount == old(closeCount) + 1
      ensures owner.log == old(owner.log) + [Closed(this)]
    {
      closeCount := closeCount + 1;
      owner.log := owner.log + [Closed(this)];
    }
  }

  /** `__connect(application_name)`: resolve, build the keyword arguments,
      call the client. Nothing reaches the client when resolution raises or
      yields `None`. */
  method OpenConnection(env: Env, driver: Driver, applicationName: Option<string>)
    returns (r: Outcome<Connection>)
    modifies driver`log
    ensures var request := ConnectRequest(env, AppNameValue(applicationName));
      request.Raised? ==> r == Raised(request.exc) && driver.log == old(driver.log)
    ensures var request := ConnectRequest(env, AppNameValue(applicationName));
      request.Returned? && !driver.accepts(request.value) ==>
        r == Raised(OperationalError) && driver.log == old(driver.log) + [Refused(request.value)]
    ensures var request := ConnectRequest(env, AppNameValue(applicationName));
      request.Returned? && driver.accepts(request.value) ==>
        r.Returned? && fresh(r.value) && r.value.IsOpen()
        && r.value.owner == driver && r.value.kwargs == request.value
        && driver.log == old(driver.log) + [Opened(r.value)]
  {
    var request := ConnectRequest(env, AppNameValue(applicationName));
    if request.Raised? {
      return Raised(request.exc);
    }
    r := driver.Connect(request.value);
  }

  /** The `wrapper` installed by the `connect` decorator: open a connection,
      call `func(conn=conn, *args)`, close the connection, return `func`'s
      result. There is no try/finally: when `func` raises, the exception
      propagates and `close()` is never called. `conn` names, for the
      contract, the connection that was opened (null when none was). */
  method Wrapper<A, R>(env: Env, driver: Driver, applicationName: Option<string>,
                       func: (Connection, A) -> Outcome<R>, args: A)
    returns (res: Outcome<R>, ghost conn: Connection?)
    modifies driver`log
    ensures var request := ConnectRequest(env, AppNameValue(applicationName));
      request.Raised? ==> res == Raised(request.exc) && conn == null && driver.log == old(driver.log)
    ensures var request := ConnectRequest(env, AppNameValue(applicationName));
      request.Returned? && !driver.accepts(request.value) ==>
        res == Raised(OperationalError) && conn == null
        && driver.log == old(driver.log) + [Refused(request.value)]
    ensures var request := ConnectRequest(env, AppNameValue(applicationName));
      request.Returned? && driver.accepts(request.value) ==>
        conn != null && fresh(conn) && conn.owner == driver && conn.kwargs == request.value
        && res == func(conn, args)
    ensures conn != null && res.Returned? ==>
      conn.closeCount == 1 && driver.log == old(driver.log) + [Opened(conn), Handed(conn), Closed(conn)]
    ensures conn != null && res.Raised? ==>
      conn.IsOpen() && driver.log == old(driver.log) + [Opened(conn), Handed(conn)]
  {
    var attempt := OpenConnection(env, driver, applicationName);
    if attempt.Raised? {
      return Raised(attempt.exc), null;
    }
    var c := attempt.value;
    conn := c;
    driver.log := driver.log + [Handed(c)];
    res := func(c, args);
    if res.Raised? {
      return;
    }
    c.Close();
  }
}
