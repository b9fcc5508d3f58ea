/** The answers of the ServerQuery session, as data.

    Every ServerQuery command answers with a status message (`msg`, "ok" on
    success) and a sequence of records, each a mapping from attribute name to
    text. The session itself (connect, login, `use`, `send_command`) is not
    modelled: one polling cycle is described by the answers it receives. */
module Responses {

  datatype Option<T> = None | Some(value: T)

  /** One row of a ServerQuery answer: attribute name to attribute text. */
  type Record = map<string, string>

  /** The status message of a successful command. */
  const OK: string := "ok"

  /** The key of the server's display name in a `serverinfo` row. */
  const VIRTUALSERVER_NAME: string := "virtualserver_name"

  /** Python's `dict.get`: the value when the key is present, `None` otherwise. */
  function Get(r: Record, key: string): (o: Option<string>)
    ensures o.Some? <==> key in r
    ensures o.Some? ==> o.value == r[key]
  {
    if key in r then Some(r[key]) else None
  }

  /** The status and rows of one command. */
  datatype QueryResponse = QueryResponse(msg: string, data: seq<Record>)

  /** One entry of the server list, together with the answers the cycle gets
      after selecting that server with `use`: first to `serverinfo`, then to
      `clientlist -uid -away -voice -times -groups -info -country -ip -badges`.
      The `clientlist` answer is only looked at when `serverinfo` succeeded. */
  datatype VirtualServer = VirtualServer(entry: Record, serverinfo: QueryResponse, clientlist: QueryResponse)

  /** The answer to `serverlist`, with the per-server answers that follow it. */
  datatype ServerList = ServerList(msg: string, servers: seq<VirtualServer>)

  /** A successful `serverinfo` answer has a first row that names the server;
      app.py:149-150 index `data[0]` and `['virtualserver_name']` without a
      guard, so anything else would raise there. */
  predicate InfoUsable(srv: VirtualServer)
  {
    srv.serverinfo.msg == OK ==>
      |srv.serverinfo.data| > 0 && VIRTUALSERVER_NAME in srv.serverinfo.data[0]
  }

  predicate AllUsable(servers: seq<VirtualServer>)
  {
    forall i :: 0 <= i < |servers| ==> InfoUsable(servers[i])
  }

  /** The answers of one cycle, as far as the cycle will look at them. */
  predicate WellFormed(resp: ServerList)
  {
    resp.msg == OK ==> AllUsable(resp.servers)
  }

  /** The first `serverinfo` row of a server whose `serverinfo` succeeded. */
  function Info(srv: VirtualServer): (info: Record)
    requires InfoUsable(srv) && srv.serverinfo.msg == OK
    ensures VIRTUALSERVER_NAME in info
  {
    srv.serverinfo.data[0]
  }

  /** The server's display name, the label of all its series. */
  function ServerName(srv: VirtualServer): string
    requires InfoUsable(srv) && srv.serverinfo.msg == OK
  {
    Info(srv)[VIRTUALSERVER_NAME]
  }
}
