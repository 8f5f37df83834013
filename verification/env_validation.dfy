/** The Joi schema the configuration module checks the process environment
    against at start-up. Every variable arrives as text; unknown variables are
    allowed and every failing rule is reported. How Joi turns text into a
    number is a parameter of the model. */
module EnvValidation {
  import opened Exceptions

  type Env = map<string, string>

  /** Joi's text-to-number conversion: `None` when the text is not a number. */
  type NumberText = string -> Option<real>

  datatype NodeEnv = Development | Production | Test | Provision

  datatype Config = Config(
    nodeEnv: NodeEnv, port: real,
    dbHost: string, dbPort: real, dbUsername: string, dbPassword: string, dbDatabase: string)

  datatype EnvOutcome = Valid(config: Config) | Invalid(messages: seq<string>)

  const DefaultPort: real := 3000.0

  function NodeEnvOf(text: string): (r: Option<NodeEnv>)
    ensures r.Some? <==> text in {"development", "production", "test", "provision"}
  {
    match text
    case "development" => Some(Development)
    case "production" => Some(Production)
    case "test" => Some(Test)
    case "provision" => Some(Provision)
    case _ => None
  }

  const NodeEnvNotListed := "\"NODE_ENV\" must be one of [development, production, test, provision]"
  const NodeEnvEmpty := "\"NODE_ENV\" is not allowed to be empty"

  /** Messages of one variable's failed rules (none when it is valid). An
      unlisted NODE_ENV fails the allowed-values rule; an empty one fails the
      string type's own non-empty check as well, which Joi still runs because
      it does not stop at the first error. */
  function NodeEnvErrors(env: Env): seq<string> {
    if "NODE_ENV" in env && NodeEnvOf(env["NODE_ENV"]).None? then
      [NodeEnvNotListed] + (if env["NODE_ENV"] == "" then [NodeEnvEmpty] else [])
    else []
  }

  function PortErrors(env: Env, number: NumberText): seq<string> {
    if "PORT" in env && number(env["PORT"]).None? then ["\"PORT\" must be a number"] else []
  }

  /** A required string, with its messages for a missing and an empty value. */
  function RequiredTextErrors(env: Env, key: string, missing: string, empty: string): seq<string> {
    if key !in env then [missing]
    else if env[key] == "" then [empty]
    else []
  }

  function DbPortErrors(env: Env, number: NumberText): seq<string> {
    if "DB_PORT" !in env then ["env variable DB_PORT is required."]
    else if number(env["DB_PORT"]).None? then ["env variable DB_PORT must be a number."]
    else []
  }

  function EnvErrors(env: Env, number: NumberText): seq<string> {
    NodeEnvErrors(env)
    + PortErrors(env, number)
    + RequiredTextErrors(env, "DB_HOST",
        "env variable DB_HOST is required.", "env variable DB_HOST cannot be empty.")
    + DbPortErrors(env, number)
    + RequiredTextErrors(env, "DB_USERNAME",
        "env variable DB_USERNAME is required.", "\"DB_USERNAME\" is not allowed to be empty")
    + RequiredTextErrors(env, "DB_PASSWORD",
        "env variable DB_PASSWORD is required.", "\"DB_PASSWORD\" is not allowed to be empty")
    + RequiredTextErrors(env, "DB_DATABASE",
        "env variable DB_DATABASE is required.", "\"DB_DATABASE\" is not allowed to be empty")
  }

  /** Present and not empty. */
  predicate Filled(env: Env, key: string) {
    key in env && env[key] != ""
  }

  /** Present and a number. */
  predicate Numeric(env: Env, key: string, number: NumberText) {
    key in env && number(env[key]).Some?
  }

  /** The schema accepts the environment, with defaults for NODE_ENV and PORT. */
  function Validate(env: Env, number: NumberText): (r: EnvOutcome)
    ensures r.Valid? <==>
      && ("NODE_ENV" in env ==> env["NODE_ENV"] in {"development", "production", "test", "provision"})
      && ("PORT" in env ==> number(env["PORT"]).Some?)
      && Filled(env, "DB_HOST") && Numeric(env, "DB_PORT", number)
      && Filled(env, "DB_USERNAME") && Filled(env, "DB_PASSWORD") && Filled(env, "DB_DATABASE")
    ensures r.Valid? ==>
      && r.config.nodeEnv == (if "NODE_ENV" in env then NodeEnvOf(env["NODE_ENV"]).value else Development)
      && r.config.port == (if "PORT" in env then number(env["PORT"]).value else DefaultPort)
      && r.config.dbHost == env["DB_HOST"] && r.config.dbPort == number(env["DB_PORT"]).value
      && r.config.dbUsername == env["DB_USERNAME"] && r.config.dbPassword == env["DB_PASSWORD"]
      && r.config.dbDatabase == env["DB_DATABASE"]
    ensures r.Invalid? ==> r.messages != []
  {
    var errs := EnvErrors(env, number);
    if errs != [] then Invalid(errs)
    else
      Valid(Config(
        if "NODE_ENV" in env then NodeEnvOf(env["NODE_ENV"]).value else Development,
        if "PORT" in env then number(env["PORT"]).value else DefaultPort,
        env["DB_HOST"], number(env["DB_PORT"]).value,
        env["DB_USERNAME"], env["DB_PASSWORD"], env["DB_DATABASE"]))
  }

  /** An empty NODE_ENV is reported twice, first as not one of the allowed
      names and then as empty. */
  lemma EmptyNodeEnvReportedTwice(env: Env, number: NumberText)
    requires "NODE_ENV" in env && env["NODE_ENV"] == ""
    ensures Validate(env, number).Invalid?
    ensures Validate(env, number).messages[..2] == [NodeEnvNotListed, NodeEnvEmpty]
  {
    assert NodeEnvErrors(env) == [NodeEnvNotListed, NodeEnvEmpty];
  }

  /** A missing database host and a non-numeric database port are both reported. */
  lemma MissingHostAndBadPortBothReported(env: Env, number: NumberText)
    requires "DB_HOST" !in env && "DB_PORT" in env && number(env["DB_PORT"]).None?
    ensures Validate(env, number).Invalid?
    ensures "env variable DB_HOST is required." in Validate(env, number).messages
    ensures "env variable DB_PORT must be a number." in Validate(env, number).messages
  {
    var e := EnvErrors(env, number);
    var prefix := NodeEnvErrors(env) + PortErrors(env, number);
    assert e[|prefix|] == "env variable DB_HOST is required.";
    assert e[|prefix| + 1] == "env variable DB_PORT must be a number.";
  }

  /** The schema names no payment-gateway variable: an environment holding
      only the database settings is accepted although the gateway adapter
      cannot sign or send a payment without its keys. */
  lemma GatewayKeysNotRequired(number: NumberText)
    requires number("5432").Some?
    ensures var env := map["DB_HOST" := "db", "DB_PORT" := "5432", "DB_USERNAME" := "u",
                           "DB_PASSWORD" := "p", "DB_DATABASE" := "shop"];
      && "WOMPI_API_BASE_URL" !in env && "WOMPI_PRIVATE_KEY" !in env && "WOMPI_INTEGRITY_KEY" !in env
      && Validate(env, number) == Valid(Config(Development, DefaultPort, "db", number("5432").value, "u", "p", "shop"))
  {
    var env := map["DB_HOST" := "db", "DB_PORT" := "5432", "DB_USERNAME" := "u",
                    "DB_PASSWORD" := "p", "DB_DATABASE" := "shop"];
    assert env.Keys == {"DB_HOST", "DB_PORT", "DB_USERNAME", "DB_PASSWORD", "DB_DATABASE"};
    assert "NODE_ENV" !in env && "PORT" !in env;
    assert EnvErrors(env, number) == [];
  }
}
