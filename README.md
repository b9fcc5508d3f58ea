# teamspeak-prometheus, modelled in Dafny

The exporter polls a TeamSpeak 3 server over ServerQuery once a minute and
republishes what it reads as prometheus gauges. This project models its core
(`app.py`):

- the scalar catalogue `METRICS_NAMES` and one polling cycle,
  `Teamspeak3MetricService.read`. The cycle fetches the virtual server list.
  For each server it fetches `serverinfo` and copies every catalogue name the
  answer has into the gauge series labelled with the server's
  `virtualserver_name`. It then fetches `clientlist`. When `clientlist`
  succeeds, it sets a `teamspeak_player_online` series for every client row
  that is not the `serveradmin` account and has a non-empty `clid` and
  `client_nickname`. That series is labelled with the server name and 31
  client attributes;
- the configuration rule: `TEAMSPEAK_HOST`, `TEAMSPEAK_PORT`,
  `TEAMSPEAK_USERNAME` and `TEAMSPEAK_PASSWORD` override the command line, and
  `METRICS_PORT` overrides `--metricsport`.

Files and modules:

- `responses.dfy` (`Responses`): the ServerQuery answers as data.
- `config.dfy` (`Config`): the settings and the environment override, as
  functions.
- `ingest.dfy` (`Ingest`): the catalogue and the exported state, and what one
  cycle does to that state. `ServerStep` covers one server, `Fold` a run of
  servers, `Cycle` a whole `read`. `ServerWrites` and `ServerMarks` say what
  one server contributes, `Written` and `Marked` what a run of servers does.
- `properties.dfy` (`IngestLemmas`): the properties of a cycle.
- `service.dfy` (`Service`): the class `MetricService`. Its fields are the
  four settings, the scalar table and the presence set. `Read` and its two
  inner loops change that state in place and are proved against
  `Ingest.Cycle`. `Start` is the module-level start-up. In `app.py` the
  scalar gauges live in the module-level dictionary `PROMETHEUS_METRICS`
  (app.py:54, 68-71), not in the service object. `app.py` builds a single
  service (app.py:250), so keeping the table as a field of that service
  behaves the same.

The ServerQuery session is replaced by its answers. `Read` receives the
server list, and each entry is paired with the `serverinfo` and `clientlist`
answers the session gives once that server is selected. The prometheus gauges
are replaced by what they hold: a map from (metric name, `virtualserver_name`)
to value, and the set of presence label tuples (each such series always
holds 1). The process environment is a map; a variable is set exactly when
it is a key.

`app.py` never removes a `teamspeak_player_online` series, so a client that
has left stays exported, and an empty server list leaves every series in
place. The model adds no retraction step: a cycle only adds presence series
(`PresenceNeverShrinks`, `EmptyServerListKeepsState`).

## Model

| member | source | states |
|---|---|---|
| `Config.ApplyEnvironment` | app.py:111-122 | each of host, port, username and password takes its environment variable's text exactly when that variable is set, and keeps its value otherwise |
| `Config.MetricsPort` | app.py:245-248 | the metrics port is `METRICS_PORT`'s text when that variable is set, else the `--metricsport` value |
| `Config.ApplyEnvironmentIdempotent` | app.py:250-252 | applying the environment a second time changes nothing |
| `Config.EnvironmentTakesPrecedence` | app.py:111-122 | with all four variables set, the command-line settings make no difference |
| `Config.EmptyEnvironmentKeepsSettings` | app.py:111-122 | with none of the four variables set, the settings stay as given |
| `Service.MetricService.constructor` | app.py:58-109 | the settings are the command-line values with the environment applied; no scalar or presence series exists yet |
| `Service.MetricService.ConfigureViaEnvironmentVariables` | app.py:111-122 | the new settings are `ApplyEnvironment` of the old settings |
| `Service.MetricService.Read` | app.py:133-231 | the new exported state is `Cycle` of the old state and the answers, so every lemma about `Cycle` holds of `Read` |
| `Service.MetricService.SetServerScalars` | app.py:152-155 | the loop over the catalogue overwrites exactly the series (name, server) for catalogue names in the `serverinfo` row, with that row's values |
| `Service.MetricService.MarkPlayersOnline` | app.py:161-231 | the loop over client rows adds to the presence set exactly the label tuples of the admitted rows and keeps every earlier tuple |
| `Service.Start` | app.py:245-252 | the metrics port follows `MetricsPort`; configuring twice leaves the service with the settings of a single override; the new service has no series |
| `Responses.Get` | app.py:163-193 | an attribute read with `get` is present exactly when the row has the key, and then it is the row's value |
| `Ingest.PlayerLabels` | app.py:199-230 | a presence tuple is the server name followed by the 31 client attributes in gauge order, an absent attribute becoming the text "None" |
| `Ingest.LabelText` | app.py:199-231 | the text prometheus makes of a label value: a present attribute is its own text, and the text is "None" exactly when the attribute is absent or is literally "None" |
| `Ingest.Admitted` | app.py:195-198 | a row is admitted exactly when its `client_nickname` is present, non-empty and not `serveradmin`, and its `clid` is present and non-empty |
| `Ingest.ServerScalars` | app.py:152-155 | one `serverinfo` row sets exactly the series (name, server) whose name is in the catalogue and in the row, each with the row's value for that name |
| `Ingest.PlayersOnline` | app.py:161-231 | (definition, no contract) the presence tuples of one server are the `PlayerLabels` of its admitted client rows; `PlayersOnlineMeaning` states their properties |
| `IngestLemmas.PlayersOnlineMeaning` | app.py:161-231 | every admitted row of a server is marked, and every tuple marked for it has the full label tuple, the server's name, a non-empty `clid` and a non-empty `client_nickname` other than `serveradmin` |
| `Ingest.ServerStep` | app.py:142-231 | (definition, no contract) one iteration of the server loop: nothing on a failed `serverinfo`; otherwise the row's catalogue values under the server's name, then the admitted client rows when `clientlist` succeeded; `ServerStepMeaning` states its properties |
| `IngestLemmas.ServerStepMeaning` | app.py:142-160 | a failed `serverinfo` changes nothing; otherwise the row's catalogue values are set under the server's name, series of other server names keep their values, no series is removed, and a failed `clientlist` adds no presence series |
| `Ingest.Cycle` | app.py:133-231 | a non-`ok` server list, or an empty one, leaves the state unchanged; otherwise the servers are processed in list order, one `ServerStep` each |
| `IngestLemmas.ServerListErrorKeepsState` | app.py:134-137 | a non-`ok` server list leaves the scalar table and the presence set unchanged |
| `IngestLemmas.EmptyServerListKeepsState` | app.py:139-141 | an empty server list changes nothing; no presence series is retracted |
| `IngestLemmas.FoldAppend` | app.py:141-231 | servers are processed one after another: processing a + b is processing a, then b |
| `IngestLemmas.ServerInfoErrorSkipsOnlyThatServer` | app.py:144-147 | a server whose `serverinfo` is not `ok` contributes nothing, and the remaining servers are processed exactly as if it were absent from the list |
| `IngestLemmas.ClientListErrorKeepsScalars` | app.py:152-160 | when `clientlist` is not `ok`, no presence series is added for that server, and the scalars just copied from its `serverinfo` stay set |
| `IngestLemmas.FoldClosedForm` | app.py:141-231 | after a run of servers, the scalars are the old table overwritten by what the servers write, and the presence set is the old set together with every tuple they mark |
| `IngestLemmas.CycleIdempotent` | app.py:133-231 | two cycles on identical answers export the same state as one cycle |
| `IngestLemmas.ServerWritesMeaning` | app.py:152-155 | one server writes a series exactly when its `serverinfo` is `ok`, the series is labelled with its name, and the catalogue name is in its row; the value is the row's |
| `IngestLemmas.WrittenKeys` | app.py:150-155 | across a run of servers, a scalar series is written exactly when some server writes it |
| `IngestLemmas.WrittenProvenance` | app.py:150-155 | the value of every written series is the value some server writing it reported in its `serverinfo` row |
| `IngestLemmas.LastWriterWins` | app.py:150-155 | the last server that writes a series decides its value, so servers sharing a display name overwrite each other's series |
| `IngestLemmas.NoFabricatedScalars` | app.py:152-155 | a series that no server of the cycle writes (not in the catalogue, missing from the row, or the cycle aborted) keeps its presence or absence and its value: no zeros are fabricated |
| `IngestLemmas.ScalarFromLastWriter` | app.py:150-155 | after a cycle, a series some server writes holds the value from the last such server's `serverinfo` row |
| `IngestLemmas.MarkedProvenance` | app.py:158-231 | a presence tuple is marked exactly when some server with `ok` `serverinfo` and `clientlist` answers has an admitted row with that tuple |
| `IngestLemmas.PresenceAfterCycle` | app.py:158-231 | after a cycle a presence tuple exists exactly when it existed before, or the cycle succeeded and some server marked it |
| `IngestLemmas.PresenceNeverShrinks` | app.py:199-231 | a cycle never removes a presence series: the new set contains the old one |
| `IngestLemmas.NoServerAdminRows` | app.py:195-198 | every tuple a cycle adds has a non-empty `clid` and a non-empty `client_nickname` that is not `serveradmin` |
| `IngestLemmas.AdmittedLabels` | app.py:195-230 | an admitted row's tuple carries its `clid` and `client_nickname` unchanged, neither empty and the nickname not `serveradmin` |
| `IngestLemmas.DroppedRowAddsNothing` | app.py:195-198 | a `serveradmin` row, or a row with a missing or empty `clid` or `client_nickname`, changes nothing wherever it stands among the rows |
| `IngestLemmas.RepeatedRowAddsNothing` | app.py:199-231 | marking the same client row again has the effect of marking it once |

## Left out

- The ServerQuery session (`connect`, `login`, `use`, `send_command`, `disconnect`, app.py:124-131 and 233-234) is network I/O. Its answers are inputs. `connect`'s failure branch raises a `TypeError` (`raise ()`) and is not modelled.
- Entries of the server list are not looked at beyond pairing each with the answers the session gives after `use` of its `virtualserver_id`. Whether `use` actually selects that server is the session's business.
- `read` raises on a `serverinfo` answer that is `ok` but has no rows, or whose first row lacks `virtualserver_name` (app.py:149-150). The model takes both as a precondition (`Responses.WellFormed`) instead of modelling the exception.
- Scalar values are kept as the text the server sent. The conversion to a float inside `Gauge.set`, and the exception it would raise on non-numeric text part-way through a cycle, belong to prometheus_client and are not modelled.
- Label values are modelled as prometheus renders them from the attribute texts (`None` becomes "None"). Other prometheus_client internals are not modelled: gauge registration, `start_http_server` and the exposition format.
- Command-line parsing (argparse and its defaults), `print` logging, and the endless `while True` loop with `time.sleep(60)` (app.py:237-260) are process plumbing. `Service.Start` takes the parsed arguments. One polling cycle is `Read`.
- Transient I/O errors raised by the session part-way through a cycle are not modelled. The model's cycle always runs to its end.
- Retraction of presence series for clients who have left does not exist in app.py, and the model does not invent it.
