/** `Config::from_env`: which environments are accepted, and what they configure. */
module Config {
  import opened Prelude
  import opened Text

  /** The library parsers the configuration calls: URLs, socket addresses and port numbers. */
  datatype Parsers = Parsers(url: string -> bool, socket: string -> bool, port: string -> Option<nat>)

  datatype SharedAuth = SharedAuth(baseUrl: string, credential: string, audience: string)

  datatype Database = Database(url: string, role: string)

  datatype Mtls = Mtls(address: string, serverName: string, certificate: string, privateKey: string, ca: string)

  datatype Config = Config(
    port: nat, serviceName: string, sharedAuth: Option<SharedAuth>, database: Option<Database>,
    apiUrl: Option<string>, mtls: Option<Mtls>, natsUrl: Option<string>, attestationKey: Option<string>)

  datatype ConfigError =
    | BadPort | BadCredential | AuthIncomplete | BadRole | DatabaseIncomplete | BadApiUrl | MtlsIncomplete
    | BadAddress | BadServerName | BadNatsUrl | NatsWithoutApi | NatsWithoutKey | KeyWithoutNats | WeakKey
    | TransportWithoutAuth

  type Environment = map<string, string>

  /** `env_non_empty`: the trimmed value, if anything is left of it. */
  function NonEmpty(env: Environment, name: string): Option<string> {
    if name in env && Trim(env[name]) != "" then Some(Trim(env[name])) else None
  }

  function ParsePort(env: Environment, lib: Parsers): Result<nat, ConfigError> {
    match NonEmpty(env, "PORT")
    case None => Ok(8080)
    case Some(value) => if lib.port(value).Some? then Ok(lib.port(value).value) else Err(BadPort)
  }

  predicate StrongCredential(value: string) {
    ByteLength(value) >= 16 && NoControl(value)
  }

  function ParseAuth(env: Environment): Result<Option<SharedAuth>, ConfigError> {
    match (NonEmpty(env, "SHARED_AUTH_URL"), NonEmpty(env, "SHARED_AUTH_SERVICE_CREDENTIAL"))
    case (None, None) => Ok(None)
    case (Some(url), Some(credential)) =>
      if !StrongCredential(credential) then Err(BadCredential)
      else Ok(Some(SharedAuth(url, credential, "act-api")))
    case _ => Err(AuthIncomplete)
  }

  function DatabaseUrl(env: Environment): Option<string> {
    var preferred := NonEmpty(env, "ACT_READONLY_DATABASE_URL");
    if preferred.Some? then preferred else NonEmpty(env, "DATABASE_URL")
  }

  function ParseDatabase(env: Environment): Result<Option<Database>, ConfigError> {
    match (DatabaseUrl(env), NonEmpty(env, "ACT_READONLY_DATABASE_ROLE"))
    case (None, None) => Ok(None)
    case (Some(url), Some(role)) => if EndsWith(role, "_web_ro") then Ok(Some(Database(url, role))) else Err(BadRole)
    case _ => Err(DatabaseIncomplete)
  }

  function ParseApiUrl(env: Environment, lib: Parsers): Result<Option<string>, ConfigError> {
    match NonEmpty(env, "ACT_API_URL")
    case None => Ok(None)
    case Some(value) => if lib.url(value) then Ok(Some(value)) else Err(BadApiUrl)
  }

  /** `parse_mtls_config`: five variables, all or none. */
  function ParseMtls(env: Environment, lib: Parsers): Result<Option<Mtls>, ConfigError> {
    match (NonEmpty(env, "ACT_API_MTLS_ADDR"), NonEmpty(env, "ACT_API_TLS_SERVER_NAME"),
           NonEmpty(env, "ACT_WEB_CLIENT_CERT_FILE"), NonEmpty(env, "ACT_WEB_CLIENT_KEY_FILE"),
           NonEmpty(env, "ACT_API_CA_FILE"))
    case (None, None, None, None, None) => Ok(None)
    case (Some(address), Some(name), Some(certificate), Some(key), Some(ca)) =>
      if !lib.socket(address) then Err(BadAddress)
      else if name == "" || !NoWhitespace(name) then Err(BadServerName)
      else Ok(Some(Mtls(address, name, certificate, key, ca)))
    case _ => Err(MtlsIncomplete)
  }

  /** `validate_nats_url`. */
  predicate NatsUrlAllowed(value: string) {
    || StartsWith(value, "tls://") || StartsWith(value, "nats://127.0.0.1")
    || StartsWith(value, "nats://localhost") || StartsWith(value, "nats://[::1]")
  }

  predicate StrongKey(key: string) {
    ByteLength(key) >= 32 && NoControl(key)
  }

  /** `validate_async_configuration`. */
  function CheckAsync(nats: bool, key: Option<string>, api: bool): Option<ConfigError> {
    if nats && !api then Some(NatsWithoutApi)
    else
      match (nats, key)
      case (false, None) => None
      case (true, None) => Some(NatsWithoutKey)
      case (false, Some(_)) => Some(KeyWithoutNats)
      case (true, Some(k)) => if StrongKey(k) then None else Some(WeakKey)
  }

  /** `Config::from_env`: the first check that fails decides the error. */
  function FromEnv(env: Environment, lib: Parsers): Result<Config, ConfigError> {
    var service := NonEmpty(env, "OTEL_SERVICE_NAME");
    match (ParsePort(env, lib), ParseAuth(env), ParseDatabase(env))
    case (Err(e), _, _) => Err(e)
    case (_, Err(e), _) => Err(e)
    case (_, _, Err(e)) => Err(e)
    case (Ok(port), Ok(auth), Ok(database)) =>
      match (ParseApiUrl(env, lib), ParseMtls(env, lib))
      case (Err(e), _) => Err(e)
      case (_, Err(e)) => Err(e)
      case (Ok(api), Ok(mtls)) =>
        var nats, key := NonEmpty(env, "ACT_NATS_URL"), NonEmpty(env, "ACT_NATS_OPERATION_HMAC_KEY");
        if nats.Some? && !NatsUrlAllowed(nats.value) then Err(BadNatsUrl)
        else
          var asynchronous := CheckAsync(nats.Some?, key, api.Some?);
          if asynchronous.Some? then Err(asynchronous.value)
          else if (api.Some? || mtls.Some? || nats.Some?) && auth.None? then Err(TransportWithoutAuth)
          else Ok(Config(port, if service.Some? then service.value else "act-web-server",
                         auth, database, api, mtls, nats, key))
  }

  predicate Has(env: Environment, name: string) {
    NonEmpty(env, name).Some?
  }

  // The rules, variable by variable and across variables.

  predicate PortRule(env: Environment, lib: Parsers) {
    Has(env, "PORT") ==> lib.port(NonEmpty(env, "PORT").value).Some?
  }

  predicate AuthRule(env: Environment) {
    && (Has(env, "SHARED_AUTH_URL") <==> Has(env, "SHARED_AUTH_SERVICE_CREDENTIAL"))
    && (Has(env, "SHARED_AUTH_SERVICE_CREDENTIAL") ==>
          var credential := NonEmpty(env, "SHARED_AUTH_SERVICE_CREDENTIAL").value;
          16 <= ByteLength(credential) && NoControl(credential))
  }

  predicate DatabaseRule(env: Environment) {
    && (Has(env, "ACT_READONLY_DATABASE_URL") || Has(env, "DATABASE_URL") <==> Has(env, "ACT_READONLY_DATABASE_ROLE"))
    && (Has(env, "ACT_READONLY_DATABASE_ROLE") ==>
          EndsWith(NonEmpty(env, "ACT_READONLY_DATABASE_ROLE").value, "_web_ro"))
  }

  predicate ApiRule(env: Environment, lib: Parsers) {
    Has(env, "ACT_API_URL") ==> lib.url(NonEmpty(env, "ACT_API_URL").value)
  }

  const MTLS_VARIABLES: seq<string> :=
    ["ACT_API_MTLS_ADDR", "ACT_API_TLS_SERVER_NAME",
     "ACT_WEB_CLIENT_CERT_FILE", "ACT_WEB_CLIENT_KEY_FILE", "ACT_API_CA_FILE"]

  /** The five variables come together or not at all. */
  ghost predicate MtlsRule(env: Environment, lib: Parsers) {
    && (forall i, j :: 0 <= i < 5 && 0 <= j < 5 ==> Has(env, MTLS_VARIABLES[i]) == Has(env, MTLS_VARIABLES[j]))
    && (Has(env, "ACT_API_MTLS_ADDR") && Has(env, "ACT_API_TLS_SERVER_NAME") ==>
          && lib.socket(NonEmpty(env, "ACT_API_MTLS_ADDR").value)
          && NoWhitespace(NonEmpty(env, "ACT_API_TLS_SERVER_NAME").value))
  }

  predicate AsyncRule(env: Environment) {
    && (Has(env, "ACT_NATS_URL") <==> Has(env, "ACT_NATS_OPERATION_HMAC_KEY"))
    && (Has(env, "ACT_NATS_URL") ==>
          && Has(env, "ACT_API_URL")
          && var url := NonEmpty(env, "ACT_NATS_URL").value;
             || "tls://" <= url || "nats://127.0.0.1" <= url || "nats://localhost" <= url || "nats://[::1]" <= url)
    && (Has(env, "ACT_NATS_OPERATION_HMAC_KEY") ==>
          var key := NonEmpty(env, "ACT_NATS_OPERATION_HMAC_KEY").value; 32 <= ByteLength(key) && NoControl(key))
  }

  predicate GateRule(env: Environment) {
    Has(env, "ACT_API_URL") || Has(env, "ACT_API_MTLS_ADDR") || Has(env, "ACT_NATS_URL") ==> Has(env, "SHARED_AUTH_URL")
  }

  ghost predicate Acceptable(env: Environment, lib: Parsers) {
    && PortRule(env, lib) && AuthRule(env) && DatabaseRule(env) && ApiRule(env, lib) && MtlsRule(env, lib)
    && AsyncRule(env) && GateRule(env)
  }

  lemma MtlsExactly(env: Environment, lib: Parsers)
    ensures ParseMtls(env, lib).Ok? <==> MtlsRule(env, lib)
    ensures ParseMtls(env, lib).Ok? ==> ParseMtls(env, lib).value.Some? == Has(env, "ACT_API_MTLS_ADDR")
  {
    assert MTLS_VARIABLES[0] == "ACT_API_MTLS_ADDR" && MTLS_VARIABLES[1] == "ACT_API_TLS_SERVER_NAME"
        && MTLS_VARIABLES[2] == "ACT_WEB_CLIENT_CERT_FILE" && MTLS_VARIABLES[3] == "ACT_WEB_CLIENT_KEY_FILE"
        && MTLS_VARIABLES[4] == "ACT_API_CA_FILE";
  }

  lemma AsyncExactly(env: Environment)
    ensures AsyncRule(env)
       <==> && (Has(env, "ACT_NATS_URL") ==> NatsUrlAllowed(NonEmpty(env, "ACT_NATS_URL").value))
            && CheckAsync(Has(env, "ACT_NATS_URL"), NonEmpty(env, "ACT_NATS_OPERATION_HMAC_KEY"),
                          Has(env, "ACT_API_URL")).None?
  {
  }

  lemma PartsExactly(env: Environment, lib: Parsers)
    ensures ParsePort(env, lib).Ok? <==> PortRule(env, lib)
    ensures ParseAuth(env).Ok? <==> AuthRule(env)
    ensures ParseAuth(env).Ok? ==> ParseAuth(env).value.Some? == Has(env, "SHARED_AUTH_URL")
    ensures ParseDatabase(env).Ok? <==> DatabaseRule(env)
    ensures ParseApiUrl(env, lib).Ok? <==> ApiRule(env, lib)
    ensures ParseApiUrl(env, lib).Ok? ==> ParseApiUrl(env, lib).value.Some? == Has(env, "ACT_API_URL")
  {
  }

  /** An environment is accepted exactly when it meets every rule, whatever order the checks run in. */
  lemma AcceptedExactly(env: Environment, lib: Parsers)
    ensures FromEnv(env, lib).Ok? <==> Acceptable(env, lib)
  {
    PartsExactly(env, lib);
    MtlsExactly(env, lib);
    AsyncExactly(env);
  }

  /** Each part is configured exactly when its variables are set. */
  lemma Presence(env: Environment, lib: Parsers)
    requires FromEnv(env, lib).Ok?
    ensures var c := FromEnv(env, lib).value;
            && (c.sharedAuth.Some? <==> Has(env, "SHARED_AUTH_URL"))
            && (c.database.Some? <==> Has(env, "ACT_READONLY_DATABASE_ROLE"))
            && (c.apiUrl.Some? <==> Has(env, "ACT_API_URL"))
            && (c.mtls.Some? <==> Has(env, "ACT_API_MTLS_ADDR"))
            && (c.natsUrl.Some? <==> Has(env, "ACT_NATS_URL"))
            && (c.sharedAuth.Some? ==> c.sharedAuth.value.audience == "act-api")
  {
    PartsExactly(env, lib);
    MtlsExactly(env, lib);
  }

  /** The variable is set to something besides white space, and this is what. */
  ghost predicate Says(env: Environment, name: string, value: string) {
    name in env && value == Trim(env[name]) && value != ""
  }

  ghost predicate Silent(env: Environment, name: string) {
    name in env ==> Trim(env[name]) == ""
  }

  /** The field holds what its variable says, or nothing. */
  ghost predicate Holds(field: Option<string>, env: Environment, name: string) {
    if field.Some? then Says(env, name, field.value) else Silent(env, name)
  }

  lemma HoldsVariable(env: Environment, name: string)
    ensures Holds(NonEmpty(env, name), env, name)
  {
  }

  /** What an accepted environment configures, field by field: each holds the trimmed value of its own variable.
      The database is the read-only one wherever that is given, and the general one only failing that. */
  lemma ConfiguredValues(env: Environment, lib: Parsers)
    requires FromEnv(env, lib).Ok?
    ensures var c := FromEnv(env, lib).value;
            && (if Silent(env, "PORT") then c.port == 8080 else lib.port(Trim(env["PORT"])) == Some(c.port))
            && (if Silent(env, "OTEL_SERVICE_NAME") then c.serviceName == "act-web-server"
                else Says(env, "OTEL_SERVICE_NAME", c.serviceName))
            && (c.sharedAuth.Some? ==>
                  && Says(env, "SHARED_AUTH_URL", c.sharedAuth.value.baseUrl)
                  && Says(env, "SHARED_AUTH_SERVICE_CREDENTIAL", c.sharedAuth.value.credential))
            && (c.sharedAuth.None? ==> Silent(env, "SHARED_AUTH_URL"))
    ensures var c := FromEnv(env, lib).value;
            && (c.database.Some? ==>
                  && Says(env, "ACT_READONLY_DATABASE_ROLE", c.database.value.role)
                  && (if Silent(env, "ACT_READONLY_DATABASE_URL") then Says(env, "DATABASE_URL", c.database.value.url)
                      else Says(env, "ACT_READONLY_DATABASE_URL", c.database.value.url)))
            && (c.database.None? ==> Silent(env, "ACT_READONLY_DATABASE_URL") && Silent(env, "DATABASE_URL"))
            && Holds(c.apiUrl, env, "ACT_API_URL")
            && Holds(c.natsUrl, env, "ACT_NATS_URL")
            && Holds(c.attestationKey, env, "ACT_NATS_OPERATION_HMAC_KEY")
    ensures var c := FromEnv(env, lib).value;
            && (c.mtls.Some? ==>
                  && Says(env, "ACT_API_MTLS_ADDR", c.mtls.value.address)
                  && Says(env, "ACT_API_TLS_SERVER_NAME", c.mtls.value.serverName)
                  && Says(env, "ACT_WEB_CLIENT_CERT_FILE", c.mtls.value.certificate)
                  && Says(env, "ACT_WEB_CLIENT_KEY_FILE", c.mtls.value.privateKey)
                  && Says(env, "ACT_API_CA_FILE", c.mtls.value.ca))
            && (c.mtls.None? ==> Silent(env, "ACT_API_MTLS_ADDR"))
  {
    PartsHold(env, lib);
    HoldsVariable(env, "ACT_NATS_URL");
    HoldsVariable(env, "ACT_NATS_OPERATION_HMAC_KEY");
    HoldsVariable(env, "OTEL_SERVICE_NAME");
  }

  lemma PartsHold(env: Environment, lib: Parsers)
    requires ParsePort(env, lib).Ok? && ParseAuth(env).Ok? && ParseDatabase(env).Ok?
    requires ParseApiUrl(env, lib).Ok? && ParseMtls(env, lib).Ok?
    ensures if Silent(env, "PORT") then ParsePort(env, lib).value == 8080
            else lib.port(Trim(env["PORT"])) == Some(ParsePort(env, lib).value)
    ensures match ParseAuth(env).value
            case None => Silent(env, "SHARED_AUTH_URL")
            case Some(auth) =>
              Says(env, "SHARED_AUTH_URL", auth.baseUrl) && Says(env, "SHARED_AUTH_SERVICE_CREDENTIAL", auth.credential)
    ensures match ParseDatabase(env).value
            case None => Silent(env, "ACT_READONLY_DATABASE_URL") && Silent(env, "DATABASE_URL")
            case Some(database) =>
              && Says(env, "ACT_READONLY_DATABASE_ROLE", database.role)
              && if Silent(env, "ACT_READONLY_DATABASE_URL") then Says(env, "DATABASE_URL", database.url)
                 else Says(env, "ACT_READONLY_DATABASE_URL", database.url)
    ensures Holds(ParseApiUrl(env, lib).value, env, "ACT_API_URL")
    ensures match ParseMtls(env, lib).value
            case None => Silent(env, "ACT_API_MTLS_ADDR")
            case Some(mtls) =>
              && Says(env, "ACT_API_MTLS_ADDR", mtls.address) && Says(env, "ACT_API_TLS_SERVER_NAME", mtls.serverName)
              && Says(env, "ACT_WEB_CLIENT_CERT_FILE", mtls.certificate)
              && Says(env, "ACT_WEB_CLIENT_KEY_FILE", mtls.privateKey) && Says(env, "ACT_API_CA_FILE", mtls.ca)
  {
  }

  function MtlsFault(env: Environment, lib: Parsers): ConfigError {
    if !Has(env, MTLS_VARIABLES[0]) || exists i :: 1 <= i < 5 && !Has(env, MTLS_VARIABLES[i]) then MtlsIncomplete
    else if !lib.socket(NonEmpty(env, MTLS_VARIABLES[0]).value) then BadAddress else BadServerName
  }

  function AsyncFault(env: Environment): ConfigError {
    if !Has(env, "ACT_NATS_URL") then KeyWithoutNats
    else if !NatsUrlAllowed(NonEmpty(env, "ACT_NATS_URL").value) then BadNatsUrl
    else if !Has(env, "ACT_API_URL") then NatsWithoutApi
    else if !Has(env, "ACT_NATS_OPERATION_HMAC_KEY") then NatsWithoutKey else WeakKey
  }

  lemma MtlsFaultExact(env: Environment, lib: Parsers)
    ensures ParseMtls(env, lib).Err? ==> ParseMtls(env, lib).error == MtlsFault(env, lib)
  {
    assert MTLS_VARIABLES[0] == "ACT_API_MTLS_ADDR" && MTLS_VARIABLES[1] == "ACT_API_TLS_SERVER_NAME"
        && MTLS_VARIABLES[2] == "ACT_WEB_CLIENT_CERT_FILE" && MTLS_VARIABLES[3] == "ACT_WEB_CLIENT_KEY_FILE"
        && MTLS_VARIABLES[4] == "ACT_API_CA_FILE";
  }

  lemma PartsFault(env: Environment, lib: Parsers)
    ensures ParsePort(env, lib).Err? ==> ParsePort(env, lib).error == BadPort
    ensures ParseAuth(env).Err? ==>
              ParseAuth(env).error == if Has(env, "SHARED_AUTH_URL") && Has(env, "SHARED_AUTH_SERVICE_CREDENTIAL")
                                      then BadCredential else AuthIncomplete
    ensures ParseDatabase(env).Err? ==>
              ParseDatabase(env).error == if Has(env, "ACT_READONLY_DATABASE_ROLE")
                                             && (Has(env, "ACT_READONLY_DATABASE_URL") || Has(env, "DATABASE_URL"))
                                          then BadRole else DatabaseIncomplete
    ensures ParseApiUrl(env, lib).Err? ==> ParseApiUrl(env, lib).error == BadApiUrl
  {
  }

  /** The error of a rejected environment is that of the first rule it breaks, in the source's order. */
  lemma FirstFault(env: Environment, lib: Parsers)
    requires FromEnv(env, lib).Err?
    ensures var e := FromEnv(env, lib).error;
            if !PortRule(env, lib) then e == BadPort
            else if !AuthRule(env) then
              e == if Has(env, "SHARED_AUTH_URL") && Has(env, "SHARED_AUTH_SERVICE_CREDENTIAL") then BadCredential
                   else AuthIncomplete
            else if !DatabaseRule(env) then
              e == if && Has(env, "ACT_READONLY_DATABASE_ROLE")
                      && (Has(env, "ACT_READONLY_DATABASE_URL") || Has(env, "DATABASE_URL"))
                   then BadRole else DatabaseIncomplete
            else if !ApiRule(env, lib) then e == BadApiUrl
            else if !MtlsRule(env, lib) then e == MtlsFault(env, lib)
            else if !AsyncRule(env) then e == AsyncFault(env)
            else e == TransportWithoutAuth
  {
    PartsExactly(env, lib);
    PartsFault(env, lib);
    MtlsExactly(env, lib);
    MtlsFaultExact(env, lib);
    AsyncExactly(env);
  }

  /** What every accepted configuration satisfies: asynchronous mode comes with its key and with the API URL its
      status route needs, and no transport is open without Shared Auth. */
  lemma AcceptedShape(env: Environment, lib: Parsers)
    requires FromEnv(env, lib).Ok?
    ensures var c := FromEnv(env, lib).value;
            && (c.natsUrl.Some? <==> c.attestationKey.Some?)
            && (c.natsUrl.Some? ==> c.apiUrl.Some? && 32 <= ByteLength(c.attestationKey.value))
            && (c.apiUrl.Some? || c.mtls.Some? || c.natsUrl.Some? ==>
                  c.sharedAuth.Some? && c.sharedAuth.value.audience == "act-api")
            && (c.database.Some? ==> EndsWith(c.database.value.role, "_web_ro"))
  {
  }
}
