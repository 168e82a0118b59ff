/** Clients of the lifecycle contracts: what a caller of the decorated
    function can conclude from the specifications alone. */
module Scenarios {
  import opened Python
  import opened Resolver
  import opened Lifecycle

  /** The four required variables, with SECRET_METHOD and everything optional unset. */
  function MinimalEnv(): Env {
    map["DBNAME" := "test", "USER" := "u", "PASSWORD" := "p", "HOST" := "localhost"]
  }

  /** A unit of work that returns normally gets its result passed through,
      and the one connection it was given is closed exactly once. */
  method NormalPathClosesOnce() {
    var driver := new Driver(_ => true);
    var env := MinimalEnv();
    assert forall k :: k in RequiredKeys ==> k in env;
    RequestCarriesEnvVerbatim(env, PyStr("handler"));
    var res, conn := Wrapper(env, driver, Some("handler"), (c: Connection, n: int) => Returned(n + 1), 41);
    assert res == Returned(42);
    assert conn != null && conn.closeCount == 1;
    assert conn.kwargs.port == PyInt(DefaultPort) && conn.kwargs.sslmode == PyNone;
    assert |driver.log| == 3;
  }

  /** A unit of work that raises: the exception propagates and `close()` is
      never called on the connection. */
  method FailingWorkSkipsClose() {
    var driver := new Driver(_ => true);
    var env := MinimalEnv()[PortKey := "5433"];
    assert forall k :: k in RequiredKeys ==> k in env;
    RequestCarriesEnvVerbatim(env, PyNone);
    var res, conn := Wrapper<int, string>(env, driver, None, (c: Connection, n: int) => Raised(AppError("query failed")), 0);
    assert res == Raised(AppError("query failed"));
    assert conn != null && conn.IsOpen();
    assert conn.kwargs.port == PyStr("5433");
  }

  /** HOST unset: KeyError before the client is called; nothing is opened. */
  method MissingHostOpensNothing() {
    var driver := new Driver(_ => true);
    var env := MinimalEnv() - {"HOST"};
    GetFromEnvRaisesFirstMissing(env);
    var res, conn := Wrapper(env, driver, None, (c: Connection, n: int) => Returned(n), 0);
    assert res == Raised(KeyError("HOST"));
    assert conn == null && driver.log == [];
  }

  /** An unimplemented backend: `None` from resolution, TypeError in
      `__connect`, nothing opened. */
  method KmsBackendOpensNothing() {
    var driver := new Driver(_ => true);
    var env := MinimalEnv()[SecretMethodKey := "KMS"];
    var res, conn := Wrapper(env, driver, None, (c: Connection, n: int) => Returned(n), 0);
    assert res == Raised(NotSubscriptable);
    assert conn == null && driver.log == [];
  }
}
