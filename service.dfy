/** `Teamspeak3MetricService` (app.py:57-234) and the start-up code around it
    (app.py:245-252), with the ServerQuery session replaced by the answers it
    gives and the prometheus gauges by the exported state they hold. */
module Service {
  import opened Responses
  import opened Config
  import opened Ingest
  import opened IngestLemmas

  /** Parsed command-line arguments (app.py:237-243). */
  datatype Arguments = Arguments(ts3host: string, ts3port: int, ts3username: string, ts3password: string, metricsport: int)

  class MetricService {
    var host: string
    var port: Port
    var username: string
    var password: string

    /** The scalar gauges of PROMETHEUS_METRICS, by (name, virtualserver_name). */
    var scalars: map<ScalarKey, string>
    /** The label tuples of the `teamspeak_player_online` gauge. */
    var playerOnline: set<LabelValues>

    function CurrentSettings(): Settings
      reads this
    {
      Settings(host, port, username, password)
    }

    function CurrentExport(): Exported
      reads this
    {
      Exported(scalars, playerOnline)
    }

    /** `__init__` (app.py:58-109): store the settings, let the environment
        override them, and create the gauges, none of which has a series yet. */
    constructor (host: string, port: int, username: string, password: string, env: Environment)
      ensures CurrentSettings() == ApplyEnvironment(Settings(host, Number(port), username, password), env)
      ensures scalars == map[] && playerOnline == {}
    {
      this.host := host;
      this.port := Number(port);
      this.username := username;
      this.password := password;
      scalars := map[];
      playerOnline := {};
      new;
      ConfigureViaEnvironmentVariables(env);
    }

    /** app.py:111-122. */
    method ConfigureViaEnvironmentVariables(env: Environment)
      modifies this`host, this`port, this`username, this`password
      ensures CurrentSettings() == ApplyEnvironment(old(CurrentSettings()), env)
    {
      if TEAMSPEAK_HOST in env {
        host := env[TEAMSPEAK_HOST];
      }
      if TEAMSPEAK_PORT in env {
        port := Text(env[TEAMSPEAK_PORT]);
      }
      if TEAMSPEAK_USERNAME in env {
        username := env[TEAMSPEAK_USERNAME];
      }
      if TEAMSPEAK_PASSWORD in env {
        password := env[TEAMSPEAK_PASSWORD];
      }
    }

    /** One polling cycle (app.py:133-231). */
    method Read(resp: ServerList)
      requires WellFormed(resp)
      modifies this`scalars, this`playerOnline
      ensures CurrentExport() == Cycle(old(CurrentExport()), resp)
    {
      if resp.msg != OK {
        return;
      }
      var servers := resp.servers;
      var i := 0;
      while i < |servers|
        invariant 0 <= i <= |servers|
        invariant CurrentExport() == Fold(old(CurrentExport()), servers[..i])
      {
        var server := servers[i];
        assert servers[..i + 1][..i] == servers[..i];
        assert Fold(old(CurrentExport()), servers[..i + 1]) == ServerStep(CurrentExport(), server);
        if server.serverinfo.msg != OK {
          i := i + 1;
          continue;
        }
        var serverinfo := server.serverinfo.data[0];
        var virtualserverName := serverinfo[VIRTUALSERVER_NAME];
        SetServerScalars(virtualserverName, serverinfo);
        if server.clientlist.msg == OK {
          MarkPlayersOnline(virtualserverName, server.clientlist.data);
        }
        i := i + 1;
      }
      assert servers[..i] == servers;
    }

    /** app.py:152-155: copy each catalogue name the `serverinfo` row has. */
    method SetServerScalars(virtualserverName: string, serverinfo: Record)
      modifies this`scalars
      ensures scalars == old(scalars) + ServerScalars(virtualserverName, serverinfo)
    {
      var names := METRICS_NAMES;
      var i := 0;
      while i < |names|
        invariant 0 <= i <= |names|
        invariant scalars == old(scalars) + ScalarsFrom(names[..i], virtualserverName, serverinfo)
      {
        var name := names[i];
        ScalarsFromSnoc(names[..i], name, virtualserverName, serverinfo);
        if name in serverinfo {
          UpdateAfterUnion(old(scalars), ScalarsFrom(names[..i], virtualserverName, serverinfo),
                           (name, virtualserverName), serverinfo[name]);
          scalars := scalars[(name, virtualserverName) := serverinfo[name]];
        }
        assert names[..i + 1] == names[..i] + [name];
        i := i + 1;
      }
      assert names[..i] == names;
    }

    /** app.py:161-231: mark every admitted client row present. */
    method MarkPlayersOnline(virtualserverName: string, players: seq<Record>)
      modifies this`playerOnline
      ensures playerOnline == old(playerOnline) + PlayersOnline(virtualserverName, players)
    {
      var i := 0;
      while i < |players|
        invariant 0 <= i <= |players|
        invariant playerOnline == old(playerOnline) + PlayersOnline(virtualserverName, players[..i])
      {
        var player := players[i];
        assert players[..i + 1] == players[..i] + [player];
        if Get(player, CLIENT_NICKNAME) == Some(SERVER_ADMIN) {
          i := i + 1;
          continue;
        }
        if Truthy(Get(player, CLID)) && Truthy(Get(player, CLIENT_NICKNAME)) {
          playerOnline := playerOnline + {PlayerLabels(virtualserverName, player)};
        }
        i := i + 1;
      }
      assert players[..i] == players;
    }
  }

  /** Module-level start-up (app.py:245-252): resolve the metrics port and
      build the service, which is then configured a second time. */
  method Start(args: Arguments, env: Environment) returns (service: MetricService, metricsPort: Port)
    ensures fresh(service)
    ensures metricsPort == MetricsPort(args.metricsport, env)
    ensures service.CurrentSettings()
      == ApplyEnvironment(Settings(args.ts3host, Number(args.ts3port), args.ts3username, args.ts3password), env)
    ensures service.scalars == map[] && service.playerOnline == {}
  {
    if METRICS_PORT !in env {
      metricsPort := Number(args.metricsport);
    } else {
      metricsPort := Text(env[METRICS_PORT]);
    }
    service := new MetricService(args.ts3host, args.ts3port, args.ts3username, args.ts3password, env);
    service.ConfigureViaEnvironmentVariables(env);
    ApplyEnvironmentIdempotent(Settings(args.ts3host, Number(args.ts3port), args.ts3username, args.ts3password), env);
  }
}
