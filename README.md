# Nokia NSP device and service engine, in Dafny

This project models the configuration and state-synchronisation core of
the Nokia NSP management portal. The portal is a Django application that
manages SR OS routers over NETCONF. The model covers six parts:

- **Sessions.** `netconf_connect` opens an ncclient session with the
  device's address, port, user and decrypted password. It closes the
  session exactly once when the work inside it ends.
- **State queries.** `get_fdb_table` and `get_interfaces` fetch a state
  subtree. `_parse_fdb` and `_parse_interfaces` turn the matching `mac` and
  `port` elements into flat records. Children are matched by local name,
  and the last one with a given name wins.
- **Transactional pushes.** `create_vpls`, `delete_vpls` and `add_sap` render
  a template, then send `edit-config` on the candidate datastore and
  `commit`. On an `rpc-error` they send `discard-changes` and report
  `failed`.
- **Orchestration.**
  - `service_deploy` and `service_delete_deploy` push to every device of a
    service, log one audit row per device, and set the service status.
  - `service_create` stores a service and one SAP row per (SAP form,
    selected device) pair.
  - `deployment_logs` lists the newest rows.
- **Monitoring and device pages.**
  - The FDB table, JSON refresh and CSV export label each FDB entry with the
    description of the port its SAP sits on.
  - The dashboard counts devices and services.
  - The device pages add, edit, delete and connectivity-test routers.
- **Access control.** `role_required` ranks roles viewer < operator < admin
  and sends users to the login page or the dashboard.

Modules follow the source files:

- `Xml`, `Text` and `Wrappers` hold the ElementTree, string and
  Option/Outcome groundwork.
- `Netconf` models `netconf_lib/connection.py`.
- `NokiaFdb`, `NokiaInterfaces` and `NokiaVpls` model the other three
  `netconf_lib` files.
- `DeviceModels`, `ServiceModels` and `AccountModels` model the three
  `models.py` files.
- `Database` holds the Django tables as one object, `Db`. Its `Valid`
  predicate states the schema's uniqueness and foreign-key constraints.
- `ServiceViews`, `MonitoringViews`, `DeviceViews` and `AccountDecorators`
  model the views and the role decorator.

The outside world enters as values and function parameters:

- A `Peer` says how a device answers during one session: it may refuse the
  connection, and it gives one reply to each RPC.
- A `Decrypt` function stands for Fernet decryption with the site key.
- A `Renderer` function stands for Jinja2 template rendering.
- `Option<Element>` stands for what `ElementTree.fromstring` returns, with
  `None` for `ParseError`.

A session object (`Netconf.Manager`) records every RPC it is sent. The
query and push functions, the loop bodies of the deploy and delete runs,
`FetchBoth` and `DeviceTest` hand that record back. Their contracts state
which RPCs were sent, in what order, and that the session was closed
exactly once. The view methods that call them (`ServiceDeploy`,
`ServiceDeleteDeploy`, `FdbTable`, `FdbTableAjax`, `FdbExportCsv`) state
their replies and table changes only.

Three consequences of the code are worth stating, because a reader might
expect otherwise:

- `create_vpls`, `delete_vpls` and `add_sap` catch only `RPCError`
  (netconf_lib/nokia_vpls.py:27, :41 and :55). A connection failure, a
  transport failure or a failing `discard-changes` propagates to the
  caller.
- `service_deploy` and `service_delete_deploy` turn such an exception into
  a `failed` log with an empty `config_sent`
  (apps/services/views.py:83-84 and :123-124), even though the document
  was already rendered.
- A deploy run never changes a device's `status`. Only the connectivity
  test does (apps/devices/views.py:74 and :78).

## Model

| member | source | states |
|---|---|---|
| Xml.Iter | netconf_lib/nokia_fdb.py:32 | `iter()` yields the element itself first, then its descendants in pre-order |
| Xml.Select | netconf_lib/nokia_fdb.py:32 | the selected elements are exactly those with the full tag, and there are no more of them than inputs |
| Xml.IterTag | netconf_lib/nokia_fdb.py:32 | `iter(tag)` yields exactly the subtree elements whose full namespaced tag is `tag`, so a `mac` in another namespace or in none is never yielded |
| Xml.SelectHead | netconf_lib/nokia_fdb.py:32 | an element that matches and comes first in the sequence is the first one selected |
| Xml.IterTagRoot | netconf_lib/nokia_interfaces.py:26 | the root itself is yielded first when its tag matches |
| Xml.LocalName | netconf_lib/nokia_fdb.py:40 | a local name holds no `}`, and a tag without `}` is its own local name |
| Xml.LocalNameSplit | netconf_lib/nokia_interfaces.py:35 | a tag with a `}` splits into the text before its last `}`, the `}`, and the local name |
| Xml.LocalNameOfQualified | netconf_lib/nokia_interfaces.py:46 | `{ns}local` has local name `local` whatever `ns` holds, including `}` |
| Xml.LastIndex | netconf_lib/nokia_fdb.py:39-48 | the index found is in range and names a child with the local name, or is -1 |
| Xml.LastIndexIsLast | netconf_lib/nokia_fdb.py:39-48 | no later child has the local name, so the last matching child wins |
| Xml.LastIndexAfter | netconf_lib/nokia_fdb.py:39-48 | the child at any position after the one `LastIndex` finds does not have the local name |
| Xml.FieldTextSnoc | netconf_lib/nokia_fdb.py:41-48 | one more child overwrites the field with its text (or `""`) exactly when its local name matches, and otherwise leaves the field as it was |
| Text.NatStr | apps/services/models.py:30 | `str` of a natural number is a non-empty string of digits with no leading zero |
| Text.IntStr | apps/services/models.py:30 | `str` of an integer is digits, preceded by `-` exactly for negatives |
| Text.ParseNatStr | apps/services/models.py:43 | reading the digits back gives the number |
| Text.ParseIntStr | apps/services/models.py:43 | reading `str(n)` back gives `n` |
| Text.IntStrInjective | netconf_lib/nokia_fdb.py:49 | `str(a) == str(b)` exactly when `a == b`, so the service-id filter compares ids |
| Text.Before | apps/monitoring/views.py:48 | `split(c)[0]` is a prefix with no `c`; it stops at the first `c`, and is the whole text when there is none |
| Text.AfterLast | netconf_lib/nokia_fdb.py:40 | `split(c)[-1]` is a suffix with no `c`; it follows the last `c`, and is the whole text when there is none |
| Text.BeforeConcat | apps/monitoring/views.py:79 | `(a + c + b).split(c)[0] == a` when `a` holds no `c` |
| Text.AfterLastConcat | apps/services/models.py:64-65 | `(a + c + b).split(c)[-1] == b` when `b` holds no `c` |
| Text.IntStrChars | apps/services/models.py:30 | `str(n)` holds only digits and a leading `-` |
| Text.DigitChar | apps/services/models.py:30 | a digit below ten prints as the matching decimal character |
| Netconf.ConnectError | netconf_lib/connection.py:9-17 | there is no session exactly when the password cannot be decrypted (message `""`, as `InvalidToken` has none) or `manager.connect` raises |
| Netconf.Manager.constructor | netconf_lib/connection.py:9-17 | a new session is open and has sent nothing |
| Netconf.Manager.Get | netconf_lib/nokia_fdb.py:21 | `get` is recorded after earlier calls and answered as the device answers |
| Netconf.Manager.EditConfig | netconf_lib/nokia_vpls.py:24 | `edit-config` on the target is recorded and answered as the device answers |
| Netconf.Manager.Commit | netconf_lib/nokia_vpls.py:25 | `commit` is recorded and answered as the device answers |
| Netconf.Manager.DiscardChanges | netconf_lib/nokia_vpls.py:28 | `discard-changes` is recorded and answered as the device answers |
| Netconf.Manager.CloseSession | netconf_lib/connection.py:18-21 | `close-session` is recorded last and the session is no longer open |
| Netconf.Connect | netconf_lib/connection.py:6-17 | a connection fails exactly as `ConnectError` says, with its message. A success is a fresh open session with nothing sent. It uses the device's hostname, port, username and decrypted password, no host-key check, the `alu` handler and a 30 s timeout |
| NokiaFdb.EntrySnoc | netconf_lib/nokia_fdb.py:39-48 | reading the children one at a time, each overwriting its own field, gives the same entry as taking each field from the last child with its local name |
| NokiaFdb.EntryStep | netconf_lib/nokia_fdb.py:39-48 | one pass of the child loop takes the entry of the first `j` children to that of the first `j + 1` |
| NokiaFdb.EntryEmpty | netconf_lib/nokia_fdb.py:33-38 | before any child is read, every field is `""` |
| NokiaFdb.EntriesStep | netconf_lib/nokia_fdb.py:49-51 | one pass of the outer loop appends the element's entry exactly when the filter keeps it |
| NokiaFdb.UnfilteredEntries | netconf_lib/nokia_fdb.py:32-51 | without a filter there is one entry per matching element, in order, the k-th from the k-th element |
| NokiaFdb.FilterAfterParse | netconf_lib/nokia_fdb.py:49-51 | the filtered list is the unfiltered list with the rejected entries dropped, order kept |
| NokiaFdb.FilteredById | netconf_lib/nokia_fdb.py:49-50 | with a non-zero id, an entry is kept exactly when its `service_id` text equals `str(id)` |
| NokiaFdb.FalsyFilterKeepsAll | netconf_lib/nokia_fdb.py:49 | a `0` filter keeps every entry, as `None` does |
| NokiaFdb.ParseFdb | netconf_lib/nokia_fdb.py:27-54 | `_parse_fdb` gives the filtered entries of the matching elements, and an empty list for malformed XML |
| NokiaFdb.ParseMacs | netconf_lib/nokia_fdb.py:32-51 | the outer loop's list is the filtered entries in element order |
| NokiaFdb.ParseMac | netconf_lib/nokia_fdb.py:33-48 | the loop over one element's children gives its four fields, each the text of the last child with that local name, or `""` |
| NokiaFdb.ReadChild | netconf_lib/nokia_fdb.py:40-48 | one child overwrites the field its local name selects; an unknown name changes nothing |
| NokiaFdb.GetFdbTable | netconf_lib/nokia_fdb.py:8-24 | a connect failure gives `error` with no entries and no RPC. Otherwise one `get` with the FDB filter is sent and the session is closed once; a raising `get` gives `error` and no entries, and a reply gives the parsed entries with no `error` |
| NokiaInterfaces.RecordSnoc | netconf_lib/nokia_interfaces.py:34-48 | reading the port's children one at a time gives the same record as taking each field from its last matching child, and `speed` from the last `speed` inside an `ethernet` child |
| NokiaInterfaces.SpeedAfterSnoc | netconf_lib/nokia_interfaces.py:45-48 | one more element inside `ethernet` sets the speed exactly when its local name is `speed` |
| NokiaInterfaces.SpeedAppend | netconf_lib/nokia_interfaces.py:44-48 | the speed after several `ethernet` children is read on from the speed before them |
| NokiaInterfaces.InterfacesInOrder | netconf_lib/nokia_interfaces.py:26-49 | there is one record per `port` element, in order; a port with no recognised child still gives a record |
| NokiaInterfaces.UnrecognisedChildIgnored | netconf_lib/nokia_interfaces.py:36-48 | a child with any other local name, such as `speed` directly under the port, leaves the record unchanged |
| NokiaInterfaces.ParseInterfaces | netconf_lib/nokia_interfaces.py:21-52 | `_parse_interfaces` gives one record per matching port, and an empty list for malformed XML |
| NokiaInterfaces.ParsePorts | netconf_lib/nokia_interfaces.py:26-49 | the outer loop appends one record per port element, in order |
| NokiaInterfaces.ParsePort | netconf_lib/nokia_interfaces.py:27-48 | the loop over one port's children gives its five-field record, each field `""` unless a child sets it |
| NokiaInterfaces.RecordEmpty | netconf_lib/nokia_interfaces.py:27-33 | before any child is read, every field is `""` |
| NokiaInterfaces.RecordStep | netconf_lib/nokia_interfaces.py:34-48 | one pass of the child loop takes the record of the first `j` children to that of the first `j + 1` |
| NokiaInterfaces.ReadChild | netconf_lib/nokia_interfaces.py:35-48 | one child overwrites the field its local name selects; an `ethernet` child runs the inner loop; any other name changes nothing |
| NokiaInterfaces.EthernetSpeed | netconf_lib/nokia_interfaces.py:45-48 | the inner loop leaves the speed of the last `speed` element directly inside `ethernet`, or the earlier speed when there is none |
| NokiaInterfaces.SpeedStep | netconf_lib/nokia_interfaces.py:45-48 | one pass of the inner loop sets the speed exactly for a `speed` element |
| NokiaInterfaces.GetInterfaces | netconf_lib/nokia_interfaces.py:6-18 | a connect failure gives `error` with no records and no RPC. Otherwise one `get` with the port filter is sent and the session is closed once; a raising `get` gives `error`, and a reply gives the parsed records with no `error` |
| NokiaVpls.ApplyOutcome | netconf_lib/nokia_vpls.py:22-29 | a push returns `success`/`Committed` exactly when the session opened and both edit and commit were accepted. It returns `failed` with the `rpc-error` text exactly when one was rejected and the discard went through. Every returned dict carries the rendered document; a connect failure raises |
| NokiaVpls.ApplyTrace | netconf_lib/nokia_vpls.py:22-29 | no RPC without a session. Otherwise `edit-config` on `candidate` comes first, `commit` is sent only after an accepted edit, `discard-changes` only after a rejection and just before the close, and `close-session` exactly once at the end |
| NokiaVpls.Apply | netconf_lib/nokia_vpls.py:22-29 | the edit/commit/discard body inside a session ends as `ApplyOutcome` says and sends the RPCs `ApplyTrace` lists |
| NokiaVpls.CreateCall | netconf_lib/nokia_vpls.py:15-21 | `vpls_create.xml` gets the service's fields, and `saps=None` becomes an empty list |
| NokiaVpls.CreateVpls | netconf_lib/nokia_vpls.py:12-29 | `create_vpls` renders its template from its arguments, then pushes as `Apply` does |
| NokiaVpls.DeleteVpls | netconf_lib/nokia_vpls.py:32-43 | `delete_vpls` renders from the service id alone, then pushes as `Apply` does |
| NokiaVpls.AddSap | netconf_lib/nokia_vpls.py:46-57 | `add_sap` renders from service id, port and VLAN, then pushes as `Apply` does |
| DeviceModels.NewDevice | apps/devices/models.py:6-37 | a new device has status `unknown` and the given columns and password token |
| ServiceModels.LogStatusWord | apps/services/models.py:47-50 | the log status words hold no brackets |
| ServiceModels.ServiceStr | apps/services/models.py:29-30 | the display text starts with `VPLS ` and ends with the name |
| ServiceModels.UniqueConcat | apps/services/models.py:39-40 | two SAP row lists joined repeat no row exactly when neither repeats a row and they share none |
| ServiceModels.ServiceStrKeepsId | apps/services/models.py:29-30 | the id is recoverable from `VPLS <id> - <name>` whatever the name holds |
| ServiceModels.SapStr | apps/services/models.py:42-43 | the display text starts with `<port>:` and ends with ` on <device>` |
| ServiceModels.SapStrSeparatesVlans | apps/services/models.py:42-43 | two SAPs of one port and device print alike exactly when their VLANs are equal |
| ServiceModels.LogStr | apps/services/models.py:64-65 | the display text ends with `]` |
| ServiceModels.BracketedWordOf | apps/services/models.py:64-65 | a text ending in `[w]`, with no bracket in `w`, has bracketed word `w` whatever precedes it |
| ServiceModels.LogStrEndsWithStatus | apps/services/models.py:64-65 | a log line's last bracketed word is its status, even when the device name holds `[` |
| ServiceModels.NewestFirst | apps/services/models.py:62 | logs ordered newest first are the rows in reverse insertion order |
| ServiceModels.Latest | apps/services/models.py:62 | a newest-first slice `[:n]` holds `min(n, rows)` rows, the i-th being the i-th most recent |
| Database.Db.constructor | apps/services/models.py:5-65 | the empty tables meet every constraint |
| Database.SetStatusKeepsValid | apps/services/views.py:97-105 | setting one service's status keeps every table constraint |
| Database.AppendLogsRefer | apps/services/views.py:86-94 | appending log rows that name existing services and devices keeps the log foreign keys |
| Database.NewServiceKeepsValid | apps/services/views.py:29-32 | storing a service with a fresh `service_id` and existing devices under the next key keeps every constraint, and no SAP row refers to it yet |
| ServiceViews.Roster | apps/services/views.py:71 | the service's devices are the rows of its device keys, in order |
| ServiceViews.SapsFor | apps/services/views.py:72 | a device is sent exactly the port/VLAN pairs of the service's SAP rows on that device |
| ServiceViews.CreateLogs | apps/services/views.py:71-95 | a deploy run writes one log per device |
| ServiceViews.DeleteLogs | apps/services/views.py:119-134 | a delete run writes one log per device |
| ServiceViews.CreateLogsPerDevice | apps/services/views.py:71-95 | the k-th log of a deploy run is a `create` row for the k-th device, carrying that device's result; an exception counts as `failed` with empty `config_sent` |
| ServiceViews.DeleteLogsPerDevice | apps/services/views.py:119-134 | the k-th log of a delete run is a `delete` row for the k-th device, carrying that device's result |
| ServiceViews.CreateTraces | apps/services/views.py:71-84 | a deploy run opens one session per device |
| ServiceViews.DeleteTraces | apps/services/views.py:119-124 | a delete run opens one session per device |
| ServiceViews.CreateTracesPerDevice | apps/services/views.py:71-84 | the k-th session of a deploy run is the k-th device's, and sends the RPCs `create_vpls` sends for that device |
| ServiceViews.DeleteTracesPerDevice | apps/services/views.py:119-124 | the k-th session of a delete run is the k-th device's, and sends the RPCs `delete_vpls` sends for that device |
| ServiceViews.RosterKeys | apps/services/views.py:71 | every device in the loop is a row of the table |
| ServiceViews.CreateLogsRefer | apps/services/views.py:86-94 | a deploy run's logs name the service and existing devices |
| ServiceViews.DeleteLogsRefer | apps/services/views.py:126-134 | a delete run's logs name the service and existing devices |
| ServiceViews.StatusesOf | apps/services/views.py:95 | the `results` list holds each log's status, in order |
| ServiceViews.CountSuccess | apps/services/views.py:97 | the success count is at most the total; it equals the total exactly when all succeeded, and is 0 exactly when all failed |
| ServiceViews.Aggregate | apps/services/views.py:97-104 | the status is `deployed` exactly when there was a device and every one succeeded, otherwise `failed` (zero devices and partial success included) |
| ServiceViews.AggregateOrderFree | apps/services/views.py:97-104 | the aggregate depends on the multiset of outcomes only |
| ServiceViews.AllSuccessIff | apps/services/views.py:99 | all outcomes are `success` exactly when no `failed` is among them |
| ServiceViews.CreateSucceedsIff | apps/services/views.py:73-84 | a device's log says `success` exactly when its session opened and it accepted both edit and commit |
| ServiceViews.DeployedIffAllCommitted | apps/services/views.py:64-105 | a deploy run ends `deployed` exactly when it had a device and every device committed |
| ServiceViews.ServiceDeploy | apps/services/views.py:62-108 | an unknown key gives 404, and a non-POST only redirects, changing nothing. A POST appends one `create` log per device, sets the aggregate status and changes nothing else. It redirects with the `n/total` note, and the tables stay valid |
| ServiceViews.PushToDevices | apps/services/views.py:71-95 | the device loop collects exactly the deploy run's logs, in device order, and one session trace per device |
| ServiceViews.PushOne | apps/services/views.py:72-84 | one iteration pushes the device's SAPs and turns an escaping exception into `failed`. The session sends exactly what `NokiaVpls.ApplyTrace` lists for that device |
| ServiceViews.PushStep | apps/services/views.py:71-95 | one pass of the deploy loop appends the device's log and its session's trace |
| ServiceViews.ServiceDeleteDeploy | apps/services/views.py:111-139 | an unknown key gives 404, and a non-POST only redirects. A POST appends one `delete` log per device and sets `deleted` whatever the devices answered; nothing else changes |
| ServiceViews.WithdrawFromDevices | apps/services/views.py:119-134 | the delete loop collects exactly the delete run's logs, in device order, and one session trace per device |
| ServiceViews.WithdrawOne | apps/services/views.py:120-124 | one iteration pushes the delete document and turns an escaping exception into `failed`. The session sends exactly what `NokiaVpls.ApplyTrace` lists |
| ServiceViews.WithdrawStep | apps/services/views.py:119-134 | one pass of the delete loop appends the device's log and its session's trace |
| ServiceViews.Selected | apps/services/views.py:32 | the saved device set holds each selected key once and nothing else |
| ServiceViews.SapParams | apps/services/views.py:39-40 | the i-th cleaned pair is the i-th SAP form's port and VLAN |
| ServiceViews.RowsFor | apps/services/views.py:35-41 | the inner loop creates one row per device, and the rows are exactly this form's pair on the service's devices |
| ServiceViews.FanOutSize | apps/services/views.py:34-41 | the fan-out creates one row per (SAP form, device) pair |
| ServiceViews.FanOutRows | apps/services/views.py:34-41 | a fan-out row is exactly a (SAP form, selected device) pair of the new service |
| ServiceViews.RowsForUnique | apps/services/views.py:35-41 | distinct devices give distinct rows |
| ServiceViews.RowsForIndexed | apps/services/views.py:35-41 | the k-th row of the inner loop is for the k-th device |
| ServiceViews.FanOutUnique | apps/services/views.py:34-41 | with distinct devices, at least one, the rows repeat nothing exactly when no two SAP forms give the same pair |
| ServiceViews.InsertRows | apps/services/views.py:34-41 | the inserts go through up to the first row already in the table, which is where the unique constraint raises |
| ServiceViews.InsertedUnique | apps/services/models.py:39-40 | the rows that went in keep the table free of repeats |
| ServiceViews.InsertedAll | apps/services/models.py:39-40 | every row goes in exactly when the table plus the rows repeats nothing |
| ServiceViews.FreshServiceRows | apps/services/views.py:34-41 | the new service's rows refer to it and its devices, and clash with the table only among themselves |
| ServiceViews.NewService | apps/services/views.py:29-32 | the stored service is `planned`, has the form's id and name, the creator as `created_by`, and the selected devices |
| ServiceViews.ServiceCreate | apps/services/views.py:16-53 | an invalid service form or SAP form stores nothing. Otherwise the service goes in under the next key, then its fan-out rows up to the first repeat. When no two forms repeat a pair, that is every row and the view redirects with the note; otherwise `IntegrityError` escapes |
| ServiceViews.CreateValid | apps/services/views.py:29-44 | the service is stored under the next key. Its fan-out rows then go in up to, and not including, the first row that repeats a stored one. `IntegrityError` comes exactly when two SAP forms give the same pair; otherwise all rows go in and the view redirects with the note |
| ServiceViews.SaveSaps | apps/services/views.py:34-44 | the fan-out rows go in up to the first repeat. Every row goes in, and the view redirects, exactly when no two SAP forms repeat a pair |
| ServiceViews.SaveService | apps/services/views.py:29-32 | the service goes in under the next key, and the tables stay valid |
| ServiceViews.StoreRows | apps/services/views.py:34-41 | the table grows by `rows[..n]`. Each of those rows is new to the table and to the rows before it, and row `n`, when there is one, repeats one of them: the insert stops at the first repeat. All rows go in exactly when none repeats |
| ServiceViews.RecentLogs | apps/services/views.py:142-145 | the log page shows at most 100 rows, newest first |
| MonitoringViews.DescMap | apps/monitoring/views.py:46 | the description map has exactly the interface names as keys |
| MonitoringViews.LastNamed | apps/monitoring/views.py:46 | finds the last interface with the name, or -1 |
| MonitoringViews.DescLookup | apps/monitoring/views.py:46-49 | the looked-up description is that of the last interface with the name (a repeated name's last description wins), or `""` when none has it |
| MonitoringViews.SapPort | apps/monitoring/views.py:48 | the lookup key is the SAP's text before its first `:`, the whole SAP without one, and `""` for an empty SAP |
| MonitoringViews.SapPortExamples | apps/monitoring/views.py:79 | `"1/1/1:100"` gives `"1/1/1"` and `"lag-1"` gives `"lag-1"` |
| MonitoringViews.Labelled | apps/monitoring/views.py:47-49 | labelling only adds `interface_desc`; every other field is unchanged |
| MonitoringViews.LabelledAll | apps/monitoring/views.py:78-80 | labelling keeps the list's length and order, entry by entry |
| MonitoringViews.Enrich | apps/monitoring/views.py:47-49 | the in-place loop leaves each entry labelled, in place |
| MonitoringViews.EnrichList | apps/monitoring/views.py:78-80 | the enriched list is the labelled list |
| MonitoringViews.ReportedError | apps/monitoring/views.py:43 | the FDB error is shown when it is a non-empty text, otherwise the port error |
| MonitoringViews.FdbFetched | netconf_lib/nokia_fdb.py:19-24 | an FDB result with an error has no entries |
| MonitoringViews.PortsFetched | netconf_lib/nokia_interfaces.py:13-18 | a port result with an error has no records |
| MonitoringViews.QueryTrace | netconf_lib/nokia_fdb.py:19-24 | a query session sends nothing exactly when it cannot open; otherwise it sends its `get` first and closes once |
| MonitoringViews.FetchBoth | apps/monitoring/views.py:38-39 | the page gets the results of `get_fdb_table` and `get_interfaces`. The RPCs sent are the FDB session's (`get` with the FDB filter, then one close, or nothing when it cannot open), followed by the port session's |
| MonitoringViews.FdbTable | apps/monitoring/views.py:24-60 | no selection gives an empty page, and an unknown key gives 404. Otherwise the page shows the labelled entries, the port list and the reported error |
| MonitoringViews.FdbErrorShown | apps/monitoring/views.py:41-43 | a failed FDB query shows its message and no entries, whatever the port query did |
| MonitoringViews.FdbTableAjax | apps/monitoring/views.py:63-84 | an unknown key gives 404; otherwise the reply holds the labelled entries and the ports, with no error key |
| MonitoringViews.AjaxHidesFdbError | apps/monitoring/views.py:71-82 | a failed FDB query gives the refresh an empty entry list |
| MonitoringViews.CsvBody | apps/monitoring/views.py:109-117 | the body has one row per entry |
| MonitoringViews.CsvBodyRows | apps/monitoring/views.py:109-117 | row i is entry i's SAP, its port description, MAC, service id and type |
| MonitoringViews.CsvBodyStep | apps/monitoring/views.py:109-117 | one pass of the loop appends the entry's row |
| MonitoringViews.WriteRows | apps/monitoring/views.py:107-117 | the writer gets the header, then the body |
| MonitoringViews.WriteBody | apps/monitoring/views.py:109-117 | the loop writes the rows of the entries, in order |
| MonitoringViews.FdbExportCsv | apps/monitoring/views.py:87-118 | an unknown key gives 404; otherwise the file `fdb_<name>.csv` holds the header and one row per FDB entry |
| MonitoringViews.CsvHeaderOnlyOnError | apps/monitoring/views.py:95-108 | a failed FDB query exports the header only |
| MonitoringViews.DashboardOf | apps/monitoring/views.py:11-21 | the counters are the number of devices, of online devices, of services not `deleted` and of `deployed` services. Hence online ≤ devices and deployed ≤ counted services ≤ services. The logs are the ten newest |
| MonitoringViews.DeletedLeavesCount | apps/monitoring/views.py:16-17 | deleting a live service lowers `service_count` by one and never raises `deployed_count` |
| DeviceViews.DeviceCreate | apps/devices/views.py:19-32 | an invalid form stores nothing. A valid one, whose password is required, stores the device under the next key with status `unknown` and the new password token, then redirects with the note |
| DeviceViews.Edited | apps/devices/views.py:42-46 | a blank password keeps the stored token, and a non-blank one replaces it; key and status are kept |
| DeviceViews.DeviceEdit | apps/devices/views.py:35-51 | an unknown key gives 404, and a GET or invalid form changes nothing. A valid POST stores the edited record only |
| DeviceViews.SapsWithout | apps/services/models.py:35 | the SAP rows left are exactly those not on the device |
| DeviceViews.SapsWithoutUnique | apps/services/models.py:40 | dropping SAP rows keeps them free of repeats |
| DeviceViews.LogsWithout | apps/services/models.py:53 | the log rows left are exactly those not naming the device |
| DeviceViews.Unlinked | apps/services/models.py:17 | a service's device list loses exactly that device |
| DeviceViews.ServicesUnlinked | apps/services/models.py:17 | every service stays and loses only its link to the device |
| DeviceViews.DeviceDelete | apps/devices/views.py:54-63 | an unknown key gives 404, and a GET only asks for confirmation. A POST removes the device, its SAP and log rows and its service links, then redirects with the note |
| DeviceViews.DeviceTest | apps/devices/views.py:66-80 | an unknown key gives 404 and opens nothing; otherwise only the device's status changes. An opened session sets `online`, replies `success`/`Connected to <host>`, and sends only its one `close-session`. A failed connect sets `offline`, replies `error` with the message, and sends nothing |
| DeviceViews.TestedStatus | apps/devices/views.py:74-79 | the status is `online` exactly when the session opened, and is never `unknown` afterwards |
| AccountModels.IsAdmin | apps/accounts/models.py:16-17 | `is_admin` holds for the `admin` role and no other |
| AccountModels.IsOperator | apps/accounts/models.py:19-20 | `is_operator` holds for administrators and operators, never for viewers |
| AccountModels.IsViewer | apps/accounts/models.py:22-23 | `is_viewer` holds for every user, whatever the role |
| AccountModels.AdminIsOperator | apps/accounts/models.py:16-20 | `is_admin` implies `is_operator` |
| AccountDecorators.Level | apps/accounts/decorators.py:8-16 | admin ranks 2, operator 1, and any other name (viewer or unknown) 0 |
| AccountDecorators.RoleRequired | apps/accounts/decorators.py:6-22 | an anonymous user goes to login. The view runs exactly when the user's level reaches the required one, and its response is returned unchanged. Otherwise the user goes to the dashboard with the denial message |
| AccountDecorators.AdmitsMonotone | apps/accounts/decorators.py:15-17 | a signed-in user ranked at least as high as an admitted one is admitted |
| AccountDecorators.UnlistedRoleAdmitsAll | apps/accounts/decorators.py:16 | an unknown required role admits every signed-in user |
| AccountDecorators.AdminPassesAll | apps/accounts/decorators.py:8-17 | a signed-in admin passes every check |
| AccountDecorators.OperatorGate | apps/accounts/models.py:19-20 | `role_required("operator")` admits exactly the signed-in users for whom `is_operator` holds |
| AccountDecorators.ViewerGate | apps/accounts/models.py:22-23 | `role_required("viewer")` admits every signed-in user, as `is_viewer` always holds |
| AccountDecorators.AdminGate | apps/accounts/models.py:16-17 | `role_required("admin")` admits exactly the signed-in users for whom `is_admin` holds |

## Left out

- The ncclient transport is not modelled: SSH, capability exchange, the
  30 s timeout. A session is a `Peer` script, and each RPC has a single
  possible reply per session.
- `get_vpls_status` (netconf_lib/nokia_vpls.py:60-71) is left out. It only
  returns the device's raw XML.
- Template texts are left out. Jinja2 rendering is a deterministic function
  parameter, and the `netconf_templates` files are not part of this model.
- Byte-level XML parsing is left out: `ElementTree.fromstring` is
  represented by its result.
- The CSV module's quoting is left out. The export is a list of rows.
- Fernet is left out. Decryption is a function parameter. Encryption is
  randomised, so the views take the new token as an input.
- Django plumbing is left out: `save()`, `messages`, `render`, the
  `created_at`/`updated_at`/`timestamp` columns and login sessions.
  - Insertion order stands for timestamp order.
  - `redirect` and `JsonResponse` become reply datatypes.
- The forms are not modelled, only their outcomes:
  - a service form is modelled as its validity flag and cleaned fields, and
    `FormValid` gives the model-level checks;
  - the `sap_count` field's `int()` parse (a non-number raises) is not
    modelled; the SAP forms are given as a list;
  - the create form's unique-name check is `CreateFormValid`.
- `service_list`, `service_detail`, `device_list`, `device_detail` and
  `interface_list` are not modelled: they are plain renders of queries, as
  are the `devices[:10]` list on the dashboard and the newest-first ordering
  of services.
- `Netconf.Manager.CloseSession` never fails. A raising `close-session` is
  not modelled. That includes `device_test` saving `online` and then, from
  its `except`, `offline`.
- The outer `except Exception` clauses of `fdb_table`, `fdb_table_ajax` and
  `fdb_export_csv` (apps/monitoring/views.py:51, :83 and :101) are not
  modelled. The two query functions turn every exception of a session into
  a result. The `from netconf_lib... import` lines sit inside the same
  `try` blocks, though, so a failing import would reach those clauses.
  Module loading is outside the model.
- The device form's defaults (port 830, platform `SR-7750`) are not
  modelled. The views take the cleaned columns as a `Profile`.
- `ServiceViews.ServiceDeploy` appends the run's logs to the table after
  the loop, not one row per iteration. Nothing reads the table during the
  loop, so the final table is the same.
- `ServiceViews.ServiceCreate`: the two nested fan-out loops are one
  sequence of rows inserted in loop order, not two loop statements.
- `MonitoringViews.WriteRows` builds the body in a separate list and
  appends it after the header, not by writing each row into the response.
- `AccountDecorators.RoleRequired` is a decision taken in front of a view,
  not a wrapper around the view methods. The views are modelled without
  their decorators.
- Integers are unbounded. Django's integer columns (`service_id`, `vlan`,
  `port`) have no width limit in the model.
- The devices of a service are taken in the order stored. Django's default
  `ordering = ["name"]` on the device table is not modelled.
