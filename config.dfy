/** Connection and exposition settings, and the rule by which the process
    environment overrides what the command line gave (app.py:111-122 for the
    ServerQuery connection, app.py:245-248 for the metrics port). */
module Config {

  /** The process environment: a variable is set exactly when it is a key. */
  type Environment = map<string, string>

  /** argparse hands the ports over as integers; a value taken from the
      environment is kept as the text it was. */
  datatype Port = Number(n: int) | Text(s: string)

  /** The four connection fields of the metric service. */
  datatype Settings = Settings(host: string, port: Port, username: string, password: string)

  const TEAMSPEAK_HOST: string := "TEAMSPEAK_HOST"
  const TEAMSPEAK_PORT: string := "TEAMSPEAK_PORT"
  const TEAMSPEAK_USERNAME: string := "TEAMSPEAK_USERNAME"
  const TEAMSPEAK_PASSWORD: string := "TEAMSPEAK_PASSWORD"
  const METRICS_PORT: string := "METRICS_PORT"

  /** A setting after the environment has had its say: the variable's text
      when the variable is set, the given value otherwise. */
  function Override(given: string, env: Environment, variable: string): string
  {
    if variable in env then env[variable] else given
  }

  /** The connection settings once `configure_via_environment_variables` has
      run: each field is replaced exactly when its variable is set. */
  function ApplyEnvironment(s: Settings, env: Environment): (r: Settings)
    ensures TEAMSPEAK_HOST in env ==> r.host == env[TEAMSPEAK_HOST]
    ensures TEAMSPEAK_HOST !in env ==> r.host == s.host
    ensures TEAMSPEAK_PORT in env ==> r.port == Text(env[TEAMSPEAK_PORT])
    ensures TEAMSPEAK_PORT !in env ==> r.port == s.port
    ensures TEAMSPEAK_USERNAME in env ==> r.username == env[TEAMSPEAK_USERNAME]
    ensures TEAMSPEAK_USERNAME !in env ==> r.username == s.username
    ensures TEAMSPEAK_PASSWORD in env ==> r.password == env[TEAMSPEAK_PASSWORD]
    ensures TEAMSPEAK_PASSWORD !in env ==> r.password == s.password
  {
    Settings(
      Override(s.host, env, TEAMSPEAK_HOST),
      if TEAMSPEAK_PORT in env then Text(env[TEAMSPEAK_PORT]) else s.port,
      Override(s.username, env, TEAMSPEAK_USERNAME),
      Override(s.password, env, TEAMSPEAK_PASSWORD))
  }

  /** The port of the metrics endpoint: `METRICS_PORT` when set, else the
      command-line value. */
  function MetricsPort(commandLine: int, env: Environment): (r: Port)
    ensures METRICS_PORT in env ==> r == Text(env[METRICS_PORT])
    ensures METRICS_PORT !in env ==> r == Number(commandLine)
  {
    if METRICS_PORT !in env then Number(commandLine) else Text(env[METRICS_PORT])
  }

  /** Running the override a second time changes nothing, so the second call
      at app.py:252 (after the one inside the constructor) is harmless. */
  lemma ApplyEnvironmentIdempotent(s: Settings, env: Environment)
    ensures ApplyEnvironment(ApplyEnvironment(s, env), env) == ApplyEnvironment(s, env)
  {
  }

  /** Once all four variables are set, the command line no longer matters. */
  lemma EnvironmentTakesPrecedence(s: Settings, t: Settings, env: Environment)
    requires TEAMSPEAK_HOST in env && TEAMSPEAK_PORT in env
    requires TEAMSPEAK_USERNAME in env && TEAMSPEAK_PASSWORD in env
    ensures ApplyEnvironment(s, env) == ApplyEnvironment(t, env)
  {
  }

  /** With none of the four variables set, the command line is kept as is. */
  lemma EmptyEnvironmentKeepsSettings(s: Settings, env: Environment)
    requires TEAMSPEAK_HOST !in env && TEAMSPEAK_PORT !in env
    requires TEAMSPEAK_USERNAME !in env && TEAMSPEAK_PASSWORD !in env
    ensures ApplyEnvironment(s, env) == s
  {
  }
}
