/** The database bootstrap of the back end: resolving connection credentials from a
    secret-store reply, and the process-wide connection pool that is created once and then
    handed out. The secret store, JSON parsing and the PostgreSQL driver are inputs. */
module Database {
  import opened Results
  import opened JsStrings

  /** The environment variables read while resolving credentials. */
  datatype Env = Env(awsRegion: Option<string>, dbSecretName: Option<string>)

  const DefaultSecretName: string := "rds-db-credentials"
  const DefaultRegion: string := "us-east-1"
  const DefaultPort: int := 5432

  /** `process.env.DB_SECRET_NAME || 'rds-db-credentials'` */
  function SecretName(env: Env): string {
    Or(env.dbSecretName, DefaultSecretName)
  }

  /** `process.env.AWS_REGION || 'us-east-1'`, the region of the secret-store client. */
  function Region(env: Env): string {
    Or(env.awsRegion, DefaultRegion)
  }

  /** Unset (or empty) variables fall back to the built-in secret name and region. */
  lemma DefaultsWhenUnset(env: Env)
    requires !Truthy(env.dbSecretName) && !Truthy(env.awsRegion)
    ensures SecretName(env) == "rds-db-credentials" && Region(env) == "us-east-1"
  {
  }

  /** The parsed secret: each property may be absent. */
  datatype Secret = Secret(
    host: Option<string>,
    port: Option<int>,
    dbname: Option<string>,
    database: Option<string>,
    username: Option<string>,
    password: Option<string>)

  /** What the secret store answered: an error carrying an optional AWS error code, or the
      secret value whose `SecretString` may be absent. */
  datatype StoreReply =
    | StoreFailed(code: Option<string>, message: string)
    | SecretValue(secretString: Option<string>)

  /** `JSON.parse`, as an input: a parse error carries its message. */
  type SecretParser = string -> Result<Secret, string>

  datatype Credentials = Credentials(host: string, port: int, database: string, user: string, password: string)

  datatype DbError =
    | SecretNotFound(secretName: string)
    | AccessDenied(secretName: string)
    | StoreError(code: Option<string>, message: string)
    | EmptySecretString
    | MalformedSecret(message: string)
    | MissingRequiredFields
    | MissingDatabaseName
    | ConnectionFailed(message: string)
    | NotInitialized

  /** The message each error carries. The two mapped secret-store errors name the secret. */
  function Message(e: DbError): (m: string)
    ensures e.SecretNotFound? ==> Includes(m, "\"" + e.secretName + "\"")
    ensures e.AccessDenied? ==> Includes(m, "\"" + e.secretName + "\"")
  {
    match e
    case SecretNotFound(name) =>
      var quoted := "\"" + name + "\"";
      var m := "Secret " + quoted + " not found in Secrets Manager. Check the secret name and AWS region.";
      assert m[7..7 + |quoted|] == quoted;
      assert OccursAt(m, quoted, 7);
      m
    case AccessDenied(name) =>
      var quoted := "\"" + name + "\"";
      var m := "Access denied to secret " + quoted + ". Check IAM permissions for Secrets Manager.";
      assert m[24..24 + |quoted|] == quoted;
      assert OccursAt(m, quoted, 24);
      m
    case StoreError(_, message) => message
    case EmptySecretString => "Secret string is empty or undefined"
    case MalformedSecret(message) => message
    case MissingRequiredFields => "Missing required credential fields: host, username, or password"
    case MissingDatabaseName => "Missing database name (expected \"dbname\" or \"database\" key in secret)"
    case ConnectionFailed(message) => message
    case NotInitialized => "Database pool not initialized. Call initializeDatabase() first."
  }

  /** Validation and normalisation of a parsed secret. */
  function CredentialsFrom(s: Secret): (r: Result<Credentials, DbError>)
    ensures r.Success? <==>
      Truthy(s.host) && Truthy(s.username) && Truthy(s.password) && (Truthy(s.dbname) || Truthy(s.database))
    ensures r.Failure? ==>
      r.error == if Truthy(s.host) && Truthy(s.username) && Truthy(s.password) then MissingDatabaseName
                 else MissingRequiredFields
    ensures r.Success? ==>
      r.value.host == s.host.value && r.value.user == s.username.value && r.value.password == s.password.value
    ensures r.Success? ==> r.value.port == if s.port.Some? && s.port.value != 0 then s.port.value else 5432
    ensures r.Success? ==> r.value.database == if Truthy(s.dbname) then s.dbname.value else s.database.value
    ensures r.Success? ==>
      r.value.host != "" && r.value.user != "" && r.value.password != "" && r.value.database != ""
  {
    if !Truthy(s.host) || !Truthy(s.username) || !Truthy(s.password) then
      Failure(MissingRequiredFields)
    else
      var port := if s.port.Some? && s.port.value != 0 then s.port.value else DefaultPort;
      var database := if Truthy(s.dbname) then s.dbname else s.database;
      if !Truthy(database) then Failure(MissingDatabaseName)
      else Success(Credentials(s.host.value, port, database.value, s.username.value, s.password.value))
  }

  /** `getDatabaseCredentials`: the secret-store reply for `SecretName(env)`, checked and parsed.
      Only secret-store errors carry a code, so only they are mapped; every other error
      propagates as it was raised. */
  function GetDatabaseCredentials(env: Env, reply: StoreReply, parse: SecretParser): (r: Result<Credentials, DbError>)
    ensures reply.StoreFailed? && reply.code == Some("ResourceNotFoundException") ==>
      r == Failure(SecretNotFound(SecretName(env)))
    ensures reply.StoreFailed? && reply.code == Some("AccessDeniedException") ==>
      r == Failure(AccessDenied(SecretName(env)))
    ensures reply.StoreFailed? && reply.code != Some("ResourceNotFoundException") &&
            reply.code != Some("AccessDeniedException") ==>
              r == Failure(StoreError(reply.code, reply.message))
    ensures reply.SecretValue? && !Truthy(reply.secretString) ==> r == Failure(EmptySecretString)
    ensures reply.SecretValue? && Truthy(reply.secretString) ==>
      r == match parse(reply.secretString.value)
           case Failure(m) => Failure(MalformedSecret(m))
           case Success(s) => CredentialsFrom(s)
    ensures r.Success? ==> reply.SecretValue? && Truthy(reply.secretString)
  {
    match reply
    case StoreFailed(code, message) =>
      if code == Some("ResourceNotFoundException") then Failure(SecretNotFound(SecretName(env)))
      else if code == Some("AccessDeniedException") then Failure(AccessDenied(SecretName(env)))
      else Failure(StoreError(code, message))
    case SecretValue(secretString) =>
      if !Truthy(secretString) then Failure(EmptySecretString)
      else
        match parse(secretString.value)
        case Failure(m) => Failure(MalformedSecret(m))
        case Success(s) => CredentialsFrom(s)
  }

  /** An empty or missing secret string is rejected before the parser is consulted: the
      outcome is the same whatever the parser would have done. */
  lemma EmptySecretNeverParsed(env: Env, reply: StoreReply, p: SecretParser, q: SecretParser)
    requires reply.SecretValue? && !Truthy(reply.secretString)
    ensures GetDatabaseCredentials(env, reply, p) == GetDatabaseCredentials(env, reply, q) == Failure(EmptySecretString)
  {
  }

  /** A secret that is missing its password is refused. */
  lemma MissingPasswordRefused(env: Env, reply: StoreReply, parse: SecretParser)
    requires reply.SecretValue? && Truthy(reply.secretString)
    requires parse(reply.secretString.value).Success? && !Truthy(parse(reply.secretString.value).value.password)
    ensures GetDatabaseCredentials(env, reply, parse) == Failure(MissingRequiredFields)
  {
  }

  /** The SQL engine behind a pool, as an oracle: the answer to a statement may depend on every
      statement this pool ran before it. */
  datatype QueryResult = QueryOk | QueryError(message: string)
  type Engine = (seq<string>, string) -> QueryResult

  /** A `pg` Pool as far as this application observes it: the statements it was asked to run,
      whether and how often `end()` was called, and whether a statement was issued after `end()`. */
  class Pool {
    const credentials: Credentials
    var executed: seq<string>
    var ended: bool
    var endCalls: nat
    var queriedAfterEnd: bool

    constructor (credentials: Credentials)
      ensures this.credentials == credentials
      ensures executed == [] && !ended && endCalls == 0 && !queriedAfterEnd
    {
      this.credentials := credentials;
      executed, ended, endCalls, queriedAfterEnd := [], false, 0, false;
    }

    /** `pool.query(sql)` */
    method Query(sql: string, engine: Engine) returns (r: QueryResult)
      modifies this
      ensures r == engine(old(executed), sql)
      ensures executed == old(executed) + [sql]
      ensures ended == old(ended) && endCalls == old(endCalls)
      ensures queriedAfterEnd == (old(queriedAfterEnd) || ended)
    {
      r := engine(executed, sql);
      executed := executed + [sql];
      queriedAfterEnd := queriedAfterEnd || ended;
    }

    /** `pool.end()` */
    method End()
      modifies this
      ensures ended && endCalls == old(endCalls) + 1
      ensures executed == old(executed) && queriedAfterEnd == old(queriedAfterEnd)
    {
      ended := true;
      endCalls := endCalls + 1;
    }
  }

  /** What one call of `initializeDatabase` meets in the outside world: the environment, the
      secret store's reply, the JSON parser, and the outcome of the liveness probe (an error
      message if connecting or `SELECT NOW()` failed). */
  datatype Boot = Boot(env: Env, reply: StoreReply, parse: SecretParser, probe: Option<string>)

  /** Whether `initializeDatabase` resolves, given whether a pool is already cached. */
  predicate InitSucceeds(cached: bool, boot: Boot) {
    cached || (GetDatabaseCredentials(boot.env, boot.reply, boot.parse).Success? && boot.probe.None?)
  }

  /** Why `initializeDatabase` fails when no pool is cached: the credentials error, or else
      the failed probe. */
  function InitError(boot: Boot): (e: DbError)
    requires !InitSucceeds(false, boot)
    ensures GetDatabaseCredentials(boot.env, boot.reply, boot.parse).Failure? ==>
      e == GetDatabaseCredentials(boot.env, boot.reply, boot.parse).error
    ensures GetDatabaseCredentials(boot.env, boot.reply, boot.parse).Success? ==> e == ConnectionFailed(boot.probe.value)
  {
    var credentials := GetDatabaseCredentials(boot.env, boot.reply, boot.parse);
    if credentials.Failure? then credentials.error else ConnectionFailed(boot.probe.value)
  }

  /** The module-level `pool` variable of the back end and the two functions that use it. */
  class ConnectionManager {
    var pool: Pool?

    constructor ()
      ensures pool == null
    {
      pool := null;
    }

    /** How often the cached pool has been ended (0 without a pool). */
    function EndCount(): nat
      reads this, pool
    {
      if pool == null then 0 else pool.endCalls
    }

    /** The statements the cached pool has run ([] without a pool). */
    function Log(): seq<string>
      reads this, pool
    {
      if pool == null then [] else pool.executed
    }

    /** `initializeDatabase`. A cached pool is returned as it is, without fetching credentials
        and even if it was ended. Otherwise the pool is created and cached as soon as the
        credentials resolve, before the liveness probe, so a failed probe leaves it cached. */
    method InitializeDatabase(boot: Boot) returns (r: Result<Pool, DbError>)
      modifies this
      ensures old(pool) != null ==> pool == old(pool) && r == Success(pool)
      ensures old(pool) == null ==>
        match GetDatabaseCredentials(boot.env, boot.reply, boot.parse)
        case Failure(e) => pool == null && r == Failure(e)
        case Success(c) =>
          pool != null && fresh(pool) && pool.credentials == c &&
          pool.executed == [] && !pool.ended && pool.endCalls == 0 && !pool.queriedAfterEnd &&
          r == if boot.probe.None? then Success(pool) else Failure(ConnectionFailed(boot.probe.value))
      ensures r.Success? <==> InitSucceeds(old(pool) != null, boot)
      ensures r.Failure? ==> old(pool) == null && r.error == InitError(boot)
      ensures r.Success? ==> pool != null && r.value == pool
    {
      if pool != null {
        return Success(pool);
      }
      var credentials := GetDatabaseCredentials(boot.env, boot.reply, boot.parse);
      if credentials.Failure? {
        return Failure(credentials.error);
      }
      pool := new Pool(credentials.value);
      if boot.probe.Some? {
        return Failure(ConnectionFailed(boot.probe.value));
      }
      r := Success(pool);
    }

    /** `getPool`: fails exactly when no pool is cached, and otherwise hands out the cached one. */
    method GetPool() returns (r: Result<Pool, DbError>)
      ensures r.Failure? <==> pool == null
      ensures r.Failure? ==> r.error == NotInitialized
      ensures r.Success? ==> r.value == pool
    {
      if pool == null {
        return Failure(NotInitialized);
      }
      r := Success(pool);
    }
  }
}
