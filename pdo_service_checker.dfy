/**
 * `PDOServiceChecker`: its constructor defaults and the `fromParams`
 * factory that validates the connection parameters and formats the DSN.
 * The check itself (opening a PDO connection) is not part of this model.
 */
module PdoServiceCheckers {
  import opened Php

  datatype PDOServiceChecker = PDOServiceChecker(
    dsn: string,
    user: Option<string>,
    password: Option<string>,
    options: seq<(string, Value)>,
    serviceName: string)
  {
    function GetName(): string {
      serviceName
    }
  }

  const DefaultServiceName := "database"

  /** `new PDOServiceChecker($dsn)`: no user, no password, no options, named "database". */
  function NewPdoServiceChecker(dsn: string): (c: PDOServiceChecker)
    ensures c.dsn == dsn && c.user.None? && c.password.None? && c.options == []
    ensures c.GetName() == "database"
  {
    PDOServiceChecker(dsn, None, None, [], DefaultServiceName)
  }

  /** A connection parameter the DSN is made of: `string` or `int`. */
  datatype Scalar = Text(text: string) | Number(number: int)

  /** `%s` of a parameter. */
  function Format(s: Scalar): string {
    match s
    case Text(t) => t
    case Number(n) => IntToString(n)
  }

  /**
   * The `$params` array. `None` stands for a key that is absent or null:
   * `isset` and `??` treat the two alike.
   */
  datatype PdoParams = PdoParams(
    driver: Option<Scalar>,
    host: Option<Scalar>,
    port: Option<Scalar>,
    dbname: Option<Scalar>,
    user: Option<string>,
    password: Option<string>,
    options: Option<seq<(string, Value)>>)

  /** The keys `fromParams` requires, in the order it checks them. */
  const RequiredKeys := ["driver", "host", "port", "dbname"]

  /** `isset($params[$key])` for a required key. */
  predicate IsSet(p: PdoParams, key: string) {
    match key
    case "driver" => p.driver.Some?
    case "host" => p.host.Some?
    case "port" => p.port.Some?
    case "dbname" => p.dbname.Some?
    case _ => false
  }

  /** The position of the first key in `keys` that is not set, if any. */
  function FirstUnset(p: PdoParams, keys: seq<string>): (r: Option<nat>)
    ensures r.Some? ==> r.value < |keys| && !IsSet(p, keys[r.value])
    ensures r.Some? ==> forall j | 0 <= j < r.value :: IsSet(p, keys[j])
    ensures r.None? <==> forall j | 0 <= j < |keys| :: IsSet(p, keys[j])
  {
    if keys == [] then None
    else if !IsSet(p, keys[0]) then Some(0)
    else match FirstUnset(p, keys[1..])
      case None => None
      case Some(k) => Some(k + 1)
  }

  function MissingParameter(key: string): Throwable {
    InvalidArgumentException("Missing required parameter \"" + key + "\".")
  }

  /** `sprintf('%s:host=%s;port=%s;dbname=%s;', ...)`. */
  function Dsn(driver: Scalar, host: Scalar, port: Scalar, dbname: Scalar): string {
    Format(driver) + ":host=" + Format(host) + ";port=" + Format(port) + ";dbname=" + Format(dbname) + ";"
  }

  /**
   * `PDOServiceChecker::fromParams($params)`: throws for the first required
   * key that is missing; otherwise builds the DSN, takes user and password
   * (null when missing) and options (`[]` when missing), and keeps the
   * default name.
   */
  function FromParams(p: PdoParams): (r: Outcome<PDOServiceChecker>)
    ensures r.Throw? <==> exists k | k in RequiredKeys :: !IsSet(p, k)
    ensures !IsSet(p, "driver") ==> r == Throw(MissingParameter("driver"))
    ensures IsSet(p, "driver") && !IsSet(p, "host") ==> r == Throw(MissingParameter("host"))
    ensures IsSet(p, "driver") && IsSet(p, "host") && !IsSet(p, "port") ==> r == Throw(MissingParameter("port"))
    ensures IsSet(p, "driver") && IsSet(p, "host") && IsSet(p, "port") && !IsSet(p, "dbname") ==>
      r == Throw(MissingParameter("dbname"))
    ensures r.Return? ==>
      && r.value.dsn == Dsn(p.driver.value, p.host.value, p.port.value, p.dbname.value)
      && r.value.user == p.user && r.value.password == p.password
      && r.value.options == (if p.options.Some? then p.options.value else [])
      && r.value.GetName() == "database"
  {
    match FirstUnset(p, RequiredKeys)
    case Some(k) =>
      assert k == 0 || IsSet(p, "driver") by { if k > 0 { assert IsSet(p, RequiredKeys[0]); } }
      assert k <= 1 || IsSet(p, "host") by { if k > 1 { assert IsSet(p, RequiredKeys[1]); } }
      assert k <= 2 || IsSet(p, "port") by { if k > 2 { assert IsSet(p, RequiredKeys[2]); } }
      Throw(MissingParameter(RequiredKeys[k]))
    case None =>
      assert IsSet(p, RequiredKeys[0]) && IsSet(p, RequiredKeys[1]) && IsSet(p, RequiredKeys[2]) && IsSet(p, RequiredKeys[3]);
      Return(PDOServiceChecker(
        Dsn(p.driver.value, p.host.value, p.port.value, p.dbname.value),
        p.user, p.password,
        match p.options case Some(o) => o case None => [],
        DefaultServiceName))
  }

  /** With every required key set, the factory succeeds whatever the optional keys hold. */
  lemma AllRequiredSetSucceeds(p: PdoParams)
    requires p.driver.Some? && p.host.Some? && p.port.Some? && p.dbname.Some?
    ensures FromParams(p).Return?
  {
    assert forall k | k in RequiredKeys :: IsSet(p, k);
  }
}
