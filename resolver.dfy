/** Connection-detail resolution: `get_conn_details` and `__get_from_env`
    (helpers/__init__.py), as total functions of the process environment. */
module Resolver {
  import opened Python

  /** The variable that selects the secret backend, and the only value of it
      that has an implementation. */
  const SecretMethodKey := "SECRET_METHOD"
  const EnvMethod := "ENV"

  /** The variables the ENV backend must find, in the order it reads them,
      and the dict keys their values are stored under. */
  const RequiredKeys: seq<string> := ["DBNAME", "USER", "PASSWORD", "HOST"]
  const RequiredFields: seq<string> := ["dbname", "user", "password", "host"]

  /** The TLS variables the ENV backend reads with a `None` default, and
      their dict keys. */
  const SslKeys: seq<string> := ["SSLMODE", "SSLROOTCERT", "SSLKEY", "SSLCERT"]
  const SslFields: seq<string> := ["sslmode", "sslrootcert", "sslkey", "sslcert"]

  const PortKey := "PORT"
  const DefaultPort := 5432

  /** The nine keys of every dict the ENV backend returns. */
  const DetailKeys: set<string> :=
    {"dbname", "user", "password", "host", "port", "sslmode", "sslrootcert", "sslkey", "sslcert"}

  /** Every environment variable resolution may read. */
  const ConfigKeys: set<string> :=
    {"SECRET_METHOD", "DBNAME", "USER", "PASSWORD", "HOST", "PORT", "SSLMODE", "SSLROOTCERT", "SSLKEY", "SSLCERT"}

  /** True when the environment selects the ENV backend: explicitly, or by
      leaving SECRET_METHOD unset. */
  predicate SelectsEnvBackend(env: Env) {
    SecretMethodKey !in env || env[SecretMethodKey] == EnvMethod
  }

  /** `__get_from_env`: the dict literal is evaluated left to right, so the
      first required variable that is missing raises KeyError; the optional
      variables are read with `get` and never raise. */
  function GetFromEnv(env: Env): (r: Outcome<Dict>)
    ensures r.Returned? <==> forall k :: k in RequiredKeys ==> k in env
    ensures r.Raised? ==> r.exc.KeyError? && r.exc.key in RequiredKeys && r.exc.key !in env
    ensures r.Returned? ==> r.value.Keys == DetailKeys
    ensures r.Returned? ==> forall i :: 0 <= i < |RequiredKeys| ==>
      RequiredKeys[i] in env && r.value[RequiredFields[i]] == PyStr(env[RequiredKeys[i]])
    ensures r.Returned? && PortKey in env ==> r.value["port"] == PyStr(env[PortKey])
    ensures r.Returned? && PortKey !in env ==> r.value["port"] == PyInt(DefaultPort)
    ensures r.Returned? ==> forall i :: 0 <= i < |SslKeys| ==>
      r.value[SslFields[i]] == if SslKeys[i] in env then PyStr(env[SslKeys[i]]) else PyNone
  {
    var dbname :- EnvItem(env, "DBNAME");
    var user :- EnvItem(env, "USER");
    var password :- EnvItem(env, "PASSWORD");
    var host :- EnvItem(env, "HOST");
    Returned(map[
      "dbname" := PyStr(dbname),
      "user" := PyStr(user),
      "password" := PyStr(password),
      "host" := PyStr(host),
      "port" := EnvGet(env, PortKey, PyInt(DefaultPort)),
      "sslmode" := EnvGet(env, "SSLMODE", PyNone),
      "sslrootcert" := EnvGet(env, "SSLROOTCERT", PyNone),
      "sslkey" := EnvGet(env, "SSLKEY", PyNone),
      "sslcert" := EnvGet(env, "SSLCERT", PyNone)
    ])
  }

  /** `get_conn_details`: dispatch on SECRET_METHOD (default "ENV"). Only the
      exact string "ENV" reaches a backend; every other value yields `None`
      without raising. */
  function GetConnDetails(env: Env): (r: Outcome<Option<Dict>>)
    ensures r == Returned(None) <==> !SelectsEnvBackend(env)
    ensures SelectsEnvBackend(env) && GetFromEnv(env).Returned? ==> r == Returned(Some(GetFromEnv(env).value))
    ensures SelectsEnvBackend(env) && GetFromEnv(env).Raised? ==> r == Raised(GetFromEnv(env).exc)
  {
    var secretType := EnvGet(env, SecretMethodKey, PyStr(EnvMethod));
    if secretType == PyStr(EnvMethod) then
      var details :- GetFromEnv(env);
      Returned(Some(details))
    else
      Returned(None)
  }

  /** Reference definition: the first key of `keys` that `env` lacks. */
  function FirstMissing(keys: seq<string>, env: Env): Option<string> {
    if keys == [] then None
    else if keys[0] !in env then Some(keys[0])
    else FirstMissing(keys[1..], env)
  }

  /** `k` is missing from `env` and every key before it is present. */
  predicate MissingFirstAt(keys: seq<string>, env: Env, k: string, i: int) {
    0 <= i < |keys| && keys[i] == k && k !in env && forall j :: 0 <= j < i ==> keys[j] in env
  }

  lemma {:induction false} FirstMissingSome(keys: seq<string>, env: Env, k: string)
    ensures FirstMissing(keys, env) == Some(k) <==> exists i :: MissingFirstAt(keys, env, k, i)
  {
    if keys == [] {
    } else if keys[0] !in env {
      if exists i :: MissingFirstAt(keys, env, k, i) {
        var i :| MissingFirstAt(keys, env, k, i);
        assert i == 0;
      }
      if FirstMissing(keys, env) == Some(k) {
        assert MissingFirstAt(keys, env, k, 0);
      }
    } else {
      FirstMissingSome(keys[1..], env, k);
      if exists i :: MissingFirstAt(keys, env, k, i) {
        var i :| MissingFirstAt(keys, env, k, i);
        assert i > 0;
        assert MissingFirstAt(keys[1..], env, k, i - 1);
      }
      if exists i :: MissingFirstAt(keys[1..], env, k, i) {
        var i :| MissingFirstAt(keys[1..], env, k, i);
        assert MissingFirstAt(keys, env, k, i + 1);
      }
    }
  }

  /** The KeyError raised by the ENV backend names the first required variable
      missing from the environment, in the order DBNAME, USER, PASSWORD, HOST. */
  lemma GetFromEnvRaisesFirstMissing(env: Env)
    ensures GetFromEnv(env).Raised? <==> FirstMissing(RequiredKeys, env).Some?
    ensures GetFromEnv(env).Raised? ==>
      exists i :: MissingFirstAt(RequiredKeys, env, GetFromEnv(env).exc.key, i)
  {
    var keys := RequiredKeys;
    var rest1, rest2, rest3 := keys[1..], keys[1..][1..], keys[1..][1..][1..];
    assert rest1 == ["USER", "PASSWORD", "HOST"] && rest2 == ["PASSWORD", "HOST"] && rest3 == ["HOST"];
    assert rest3[1..] == [];
    assert FirstMissing(keys, env) == if "DBNAME" !in env then Some("DBNAME") else FirstMissing(rest1, env);
    assert FirstMissing(rest1, env) == if "USER" !in env then Some("USER") else FirstMissing(rest2, env);
    assert FirstMissing(rest2, env) == if "PASSWORD" !in env then Some("PASSWORD") else FirstMissing(rest3, env);
    assert FirstMissing(rest3, env) == if "HOST" !in env then Some("HOST") else None;
    var r := GetFromEnv(env);
    if r.Raised? {
      assert FirstMissing(keys, env) == Some(r.exc.key);
      FirstMissingSome(keys, env, r.exc.key);
    }
  }

  /** `e1` and `e2` both lack `k`, or both map it to the same value. */
  predicate AgreeOn(e1: Env, e2: Env, k: string) {
    (k in e1 <==> k in e2) && (k in e1 ==> e1[k] == e2[k])
  }

  /** Resolution reads nothing but the ten configuration variables. */
  lemma ResolutionReadsOnlyConfigKeys(e1: Env, e2: Env)
    requires forall k :: k in ConfigKeys ==> AgreeOn(e1, e2, k)
    ensures GetConnDetails(e1) == GetConnDetails(e2)
  {
  }
}
