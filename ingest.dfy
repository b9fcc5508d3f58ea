/** What one call of `Teamspeak3MetricService.read` (app.py:133-231) does to
    the exported metrics, as functions of the answers it receives.

    The exported state has two parts: the scalar gauges, one series per
    (catalogue name, `virtualserver_name`), and the `teamspeak_player_online`
    gauge, whose series all hold 1, so that the set of its label tuples is all
    there is to it. */
module Ingest {
  import opened Responses

  /** The scalar catalogue, app.py:10-52: the `serverinfo` keys that become
      gauges. */
  const METRICS_NAMES: seq<string> := [
    "connection_bandwidth_received_last_minute_total",
    "connection_bandwidth_received_last_second_total",
    "connection_bandwidth_sent_last_minute_total",
    "connection_bandwidth_sent_last_second_total",
    "connection_bytes_received_control",
    "connection_bytes_received_keepalive",
    "connection_bytes_received_speech",
    "connection_bytes_received_total",
    "connection_bytes_sent_control",
    "connection_bytes_sent_keepalive",
    "connection_bytes_sent_speech",
    "connection_bytes_sent_total",
    "connection_filetransfer_bandwidth_received",
    "connection_filetransfer_bandwidth_sent",
    "connection_filetransfer_bytes_received_total",
    "connection_filetransfer_bytes_sent_total",
    "connection_packets_received_control",
    "connection_packets_received_keepalive",
    "connection_packets_received_speech",
    "connection_packets_received_total",
    "connection_packets_sent_control",
    "connection_packets_sent_keepalive",
    "connection_packets_sent_speech",
    "connection_packets_sent_total",
    "virtualserver_channelsonline",
    "virtualserver_client_connections",
    "virtualserver_clientsonline",
    "virtualserver_maxclients",
    "virtualserver_month_bytes_downloaded",
    "virtualserver_month_bytes_uploaded",
    "virtualserver_query_client_connections",
    "virtualserver_queryclientsonline",
    "virtualserver_reserved_slots",
    "virtualserver_total_bytes_downloaded",
    "virtualserver_total_bytes_uploaded",
    "virtualserver_total_packetloss_control",
    "virtualserver_total_packetloss_keepalive",
    "virtualserver_total_packetloss_speech",
    "virtualserver_total_packetloss_total",
    "virtualserver_total_ping",
    "virtualserver_uptime"
  ]

  /** The client attributes that label a `teamspeak_player_online` series,
      in the order of app.py:78-108 (the first label, `virtualserver_name`,
      is the server's). */
  const PLAYER_ATTRIBUTES: seq<string> := [
    "player_id",
    "nickname",
    "clid",
    "cid",
    "client_database_id",
    "client_nickname",
    "client_type",
    "client_away",
    "client_away_message",
    "client_flag_talking",
    "client_input_muted",
    "client_output_muted",
    "client_input_hardware",
    "client_output_hardware",
    "client_talk_power",
    "client_is_talker",
    "client_is_priority_speaker",
    "client_is_recording",
    "client_is_channel_commander",
    "client_unique_identifier",
    "client_servergroups",
    "client_channel_group_id",
    "client_channel_group_inherited_channel_id",
    "client_version",
    "client_platform",
    "client_idle_time",
    "client_created",
    "client_lastconnected",
    "client_country",
    "connection_client_ip",
    "client_badges"
  ]

  const CLID: string := "clid"
  const CLIENT_NICKNAME: string := "client_nickname"
  const SERVER_ADMIN: string := "serveradmin"

  /** Positions of `clid` and `client_nickname` in a label tuple. */
  const CLID_LABEL: nat := 3
  const NICKNAME_LABEL: nat := 6

  /** A scalar series: (catalogue name, `virtualserver_name`). */
  type ScalarKey = (string, string)

  /** The label values of one `teamspeak_player_online` series:
      `virtualserver_name` followed by the PLAYER_ATTRIBUTES. */
  type LabelValues = seq<string>

  /** The exported metric state that `read` updates in place. */
  datatype Exported = Exported(scalars: map<ScalarKey, string>, playerOnline: set<LabelValues>)

  /** The text a label value becomes: prometheus applies `str`, which turns
      an absent attribute (`None`) into "None". */
  function LabelText(o: Option<string>): (r: string)
    ensures o.Some? ==> r == o.value
    ensures r == "None" <==> o == None || o == Some("None")
  {
    match o
    case None => "None"
    case Some(s) => s
  }

  /** Python truthiness of an attribute fetched with `get`: absent and empty
      are false. */
  predicate Truthy(o: Option<string>)
  {
    o.Some? && o.value != ""
  }

  /** A client row that gets a presence series (app.py:195-198): not the
      `serveradmin` query account, and with a truthy `clid` and
      `client_nickname`. */
  predicate Admitted(player: Record): (r: bool)
    ensures r <==> CLID in player && player[CLID] != ""
                   && CLIENT_NICKNAME in player && player[CLIENT_NICKNAME] !in {"", SERVER_ADMIN}
  {
    Get(player, CLIENT_NICKNAME) != Some(SERVER_ADMIN)
    && Truthy(Get(player, CLID)) && Truthy(Get(player, CLIENT_NICKNAME))
  }

  /** The label tuple of one client row of the named server (app.py:199-230). */
  function PlayerLabels(serverName: string, player: Record): (t: LabelValues)
    ensures |t| == 1 + |PLAYER_ATTRIBUTES| && t[0] == serverName
    ensures forall i :: 0 <= i < |PLAYER_ATTRIBUTES| ==> t[i + 1] == LabelText(Get(player, PLAYER_ATTRIBUTES[i]))
  {
    [serverName] + seq(|PLAYER_ATTRIBUTES|, i requires 0 <= i < |PLAYER_ATTRIBUTES| => LabelText(Get(player, PLAYER_ATTRIBUTES[i])))
  }

  /** The scalar series that one `serverinfo` row sets, taking the catalogue
      names in `names` (app.py:152-155 with `names` the whole catalogue). */
  function ScalarsFrom(names: seq<string>, serverName: string, info: Record): map<ScalarKey, string>
  {
    map n | n in names && n in info :: (n, serverName) := info[n]
  }

  /** The series set for the named server from its `serverinfo` row. */
  function ServerScalars(serverName: string, info: Record): (r: map<ScalarKey, string>)
    ensures forall k :: k in r <==> k.1 == serverName && k.0 in METRICS_NAMES && k.0 in info
    ensures forall k :: k in r ==> r[k] == info[k.0]
  {
    ScalarsFrom(METRICS_NAMES, serverName, info)
  }

  /** The presence series marked for the named server, taking its client
      rows in `players`. */
  function PlayersOnline(serverName: string, players: seq<Record>): set<LabelValues>
  {
    set p | p in players && Admitted(p) :: PlayerLabels(serverName, p)
  }

  /** What processing one server does to the exported state (one iteration
      of the loop at app.py:141-231): nothing when `serverinfo` failed; the
      scalars, and the presence rows when `clientlist` succeeded too. */
  function ServerStep(e: Exported, srv: VirtualServer): Exported
    requires InfoUsable(srv)
  {
    if srv.serverinfo.msg != OK then e
    else
      var name := ServerName(srv);
      var scalars := e.scalars + ServerScalars(name, Info(srv));
      if srv.clientlist.msg == OK then
        Exported(scalars, e.playerOnline + PlayersOnline(name, srv.clientlist.data))
      else
        Exported(scalars, e.playerOnline)
  }

  /** The state after processing the servers in order. */
  function Fold(e: Exported, servers: seq<VirtualServer>): Exported
    requires AllUsable(servers)
    decreases |servers|
  {
    if servers == [] then e
    else ServerStep(Fold(e, servers[..|servers| - 1]), servers[|servers| - 1])
  }

  /** The state after one call of `read`: unchanged when the server list
      could not be fetched (app.py:134-137). */
  function Cycle(e: Exported, resp: ServerList): (r: Exported)
    requires WellFormed(resp)
    ensures resp.msg != OK ==> r == e
    ensures resp.msg == OK && resp.servers == [] ==> r == e
  {
    if resp.msg != OK then e else Fold(e, resp.servers)
  }

  /** Server `srv` sets scalar series `k`. */
  predicate Writes(srv: VirtualServer, k: ScalarKey)
    requires InfoUsable(srv)
  {
    srv.serverinfo.msg == OK && k.1 == ServerName(srv) && k.0 in METRICS_NAMES && k.0 in Info(srv)
  }

  /** Server `srv` marks presence series `t`. */
  predicate Marks(srv: VirtualServer, t: LabelValues)
    requires InfoUsable(srv)
  {
    t in ServerMarks(srv)
  }

  /** Everything the servers write into the scalar table, later servers
      winning over earlier ones. */
  function Written(servers: seq<VirtualServer>): map<ScalarKey, string>
    requires AllUsable(servers)
    decreases |servers|
  {
    if servers == [] then map[]
    else Written(servers[..|servers| - 1]) + ServerWrites(servers[|servers| - 1])
  }

  /** The scalar series one server writes. */
  function ServerWrites(srv: VirtualServer): map<ScalarKey, string>
    requires InfoUsable(srv)
  {
    if srv.serverinfo.msg == OK then ServerScalars(ServerName(srv), Info(srv)) else map[]
  }

  /** The presence series one server marks: its admitted client rows, when
      both its `serverinfo` and its `clientlist` succeeded. */
  function ServerMarks(srv: VirtualServer): set<LabelValues>
    requires InfoUsable(srv)
  {
    if srv.serverinfo.msg == OK && srv.clientlist.msg == OK
    then PlayersOnline(ServerName(srv), srv.clientlist.data) else {}
  }

  /** Every presence series the servers mark. */
  function Marked(servers: seq<VirtualServer>): set<LabelValues>
    requires AllUsable(servers)
    decreases |servers|
  {
    if servers == [] then {}
    else Marked(servers[..|servers| - 1]) + ServerMarks(servers[|servers| - 1])
  }
}
