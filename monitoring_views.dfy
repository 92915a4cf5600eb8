/**
 * The monitoring pages (apps/monitoring/views.py): the dashboard counters,
 * and the FDB table in its three forms (page, JSON refresh, CSV export).
 * Each FDB form fetches the FDB and the port list of one device in two
 * separate sessions, then labels every FDB entry with the description of
 * the port its SAP sits on.
 */
module MonitoringViews {
  import opened Wrappers
  import Text
  import opened DeviceModels
  import opened Netconf
  import opened NokiaFdb
  import opened NokiaInterfaces
  import opened ServiceModels
  import opened Database

  /**
   * The device sessions: the password decryption and how each device (by
   * primary key) answers the FDB query and the port query.
   */
  datatype MonEnv = MonEnv(decrypt: Decrypt, fdbPeerOf: nat -> Peer, portPeerOf: nat -> Peer)

  // ---------------------------------------------------------------------
  // The description lookup

  /** `{i["name"]: i["description"] for i in interfaces}`: later names overwrite earlier ones. */
  function DescMap(ifaces: seq<Interface>): (m: map<string, string>)
    ensures forall name :: name in m <==> exists i :: 0 <= i < |ifaces| && ifaces[i].name == name
  {
    if ifaces == [] then map[]
    else
      var init, last := ifaces[..|ifaces| - 1], ifaces[|ifaces| - 1];
      var m := DescMap(init)[last.name := last.description];
      assert forall i :: 0 <= i < |init| ==> init[i] == ifaces[i];
      m
  }

  /** `desc_map.get(key, "")`. */
  function Lookup(m: map<string, string>, key: string): string {
    if key in m then m[key] else ""
  }

  /** The index of the last interface with the given name, or -1. */
  function LastNamed(ifaces: seq<Interface>, name: string): (r: int)
    ensures -1 <= r < |ifaces|
    ensures r >= 0 ==> ifaces[r].name == name
    ensures forall j :: r < j < |ifaces| ==> ifaces[j].name != name
  {
    if ifaces == [] then -1
    else if ifaces[|ifaces| - 1].name == name then |ifaces| - 1
    else LastNamed(ifaces[..|ifaces| - 1], name)
  }

  /**
   * An entry's description is that of the last interface carrying the
   * looked-up name, and `""` when no interface carries it.
   */
  lemma {:induction false} DescLookup(ifaces: seq<Interface>, name: string)
    ensures Lookup(DescMap(ifaces), name)
      == if LastNamed(ifaces, name) >= 0 then ifaces[LastNamed(ifaces, name)].description else ""
  {
    if ifaces != [] {
      var init := ifaces[..|ifaces| - 1];
      DescLookup(init, name);
      if ifaces[|ifaces| - 1].name != name {
        assert LastNamed(ifaces, name) == LastNamed(init, name);
      }
    }
  }

  /**
   * The port an entry's SAP sits on: the text before the first `:` of a
   * non-empty SAP, and `""` for an empty one.
   */
  function SapPort(sap: string): (k: string)
    ensures ':' !in k && k <= sap
    ensures ':' !in sap ==> k == sap
    ensures ':' in sap ==> sap[|k|] == ':'
  {
    if sap != [] then Text.Before(sap, ':') else ""
  }

  /** `"1/1/1:100"` is looked up as `"1/1/1"`, and `"lag-1"` as itself. */
  lemma SapPortExamples()
    ensures SapPort("1/1/1:100") == "1/1/1"
    ensures SapPort("lag-1") == "lag-1"
  {
    Text.BeforeConcat("1/1/1", ':', "100");
    assert "1/1/1:100" == "1/1/1" + [':'] + "100";
  }

  /** An entry with its `interface_desc` added. */
  function Labelled(e: FdbEntry, m: map<string, string>): (r: FdbEntry)
    ensures r.macAddress == e.macAddress && r.sap == e.sap && r.serviceId == e.serviceId
    ensures r.entryType == e.entryType
    ensures r.interfaceDesc == Some(Lookup(m, SapPort(e.sap)))
  {
    e.(interfaceDesc := Some(Lookup(m, SapPort(e.sap))))
  }

  /** The enrichment loop over a whole list. */
  function LabelledAll(es: seq<FdbEntry>, m: map<string, string>): (r: seq<FdbEntry>)
    ensures |r| == |es| && forall i :: 0 <= i < |es| ==> r[i] == Labelled(es[i], m)
  {
    if es == [] then [] else LabelledAll(es[..|es| - 1], m) + [Labelled(es[|es| - 1], m)]
  }

  /**
   * `for entry in entries: entry["interface_desc"] = ...`: each dict of the
   * list is updated in place; nothing else about the list changes.
   */
  method Enrich(entries: array<FdbEntry>, m: map<string, string>)
    modifies entries
    ensures entries[..] == LabelledAll(old(entries[..]), m)
  {
    for i := 0 to entries.Length
      invariant forall j :: 0 <= j < i ==> entries[j] == Labelled(old(entries[j]), m)
      invariant forall j :: i <= j < entries.Length ==> entries[j] == old(entries[j])
    {
      entries[i] := Labelled(entries[i], m);
    }
  }

  /** Enrichment as the views run it: copy the list into the mutable list, label, read back. */
  method EnrichList(es: seq<FdbEntry>, m: map<string, string>) returns (r: seq<FdbEntry>)
    ensures r == LabelledAll(es, m)
  {
    var a := new FdbEntry[|es|](i requires 0 <= i < |es| => es[i]);
    assert a[..] == es;
    Enrich(a, m);
    r := a[..];
  }

  /**
   * `fdb_result.get("error") or iface_result.get("error")`: the FDB error
   * when it is a non-empty text, otherwise whatever the port query reported.
   */
  function ReportedError(fdbError: Option<string>, portError: Option<string>): (r: Option<string>)
    ensures fdbError.Some? && fdbError.value != "" ==> r == fdbError
    ensures (fdbError.None? || fdbError.value == "") ==> r == portError
    ensures r.None? <==> (fdbError.None? || fdbError.value == "") && portError.None?
  {
    if fdbError.Some? && fdbError.value != "" then fdbError else portError
  }

  // ---------------------------------------------------------------------
  // The two fetches

  /** What `get_fdb_table(device)` returns, by the cases `NokiaFdb.GetFdbTable` states. */
  function FdbFetched(d: Device, env: MonEnv): (r: FdbResult)
    ensures r.error.Some? ==> r.entries == []
  {
    var peer := env.fdbPeerOf(d.pk);
    var err := ConnectError(env.decrypt(d.encryptedPassword), peer);
    if err.Some? then FdbResult(err, [])
    else match peer.get
      case GetRaised(msg) => FdbResult(Some(msg), [])
      case Data(doc) => FdbResult(None, ParsedEntries(doc, None))
  }

  /** What `get_interfaces(device)` returns, by the cases `NokiaInterfaces.GetInterfaces` states. */
  function PortsFetched(d: Device, env: MonEnv): (r: InterfacesResult)
    ensures r.error.Some? ==> r.interfaces == []
  {
    var peer := env.portPeerOf(d.pk);
    var err := ConnectError(env.decrypt(d.encryptedPassword), peer);
    if err.Some? then InterfacesResult(err, [])
    else match peer.get
      case GetRaised(msg) => InterfacesResult(Some(msg), [])
      case Data(doc) => InterfacesResult(None, ParsedInterfaces(doc))
  }

  /**
   * The RPCs one query session sends: nothing when it cannot be opened,
   * otherwise the `get` and the one `close-session`.
   */
  function QueryTrace(err: Option<string>, filter: string): (calls: seq<Rpc>)
    ensures err.Some? <==> calls == []
    ensures err.None? ==> ClosedOnce(calls) && calls[0] == RpcGet(filter)
  {
    if err.Some? then [] else [RpcGet(filter), RpcCloseSession]
  }

  /**
   * Both queries, one session each, FDB first: `calls` holds the RPCs of
   * the FDB session followed by those of the port session.
   */
  method FetchBoth(d: Device, env: MonEnv) returns (fdb: FdbResult, ports: InterfacesResult, calls: seq<Rpc>)
    ensures fdb == FdbFetched(d, env) && ports == PortsFetched(d, env)
    ensures calls == QueryTrace(ConnectError(env.decrypt(d.encryptedPassword), env.fdbPeerOf(d.pk)), FDB_FILTER)
                   + QueryTrace(ConnectError(env.decrypt(d.encryptedPassword), env.portPeerOf(d.pk)), PORT_FILTER)
  {
    var fdbCalls, portCalls;
    fdb, fdbCalls := GetFdbTable(d, env.decrypt, env.fdbPeerOf(d.pk), None);
    ports, portCalls := GetInterfaces(d, env.decrypt, env.portPeerOf(d.pk));
    calls := fdbCalls + portCalls;
  }

  // ---------------------------------------------------------------------
  // fdb_table

  datatype FdbPage =
    | PageNotFound
    | Page(entries: seq<FdbEntry>, interfaces: seq<Interface>, error: Option<string>)

  /**
   * `fdb_table`: with no device selected, an empty page; with an unknown
   * key, 404; otherwise the labelled entries, the port list, and the
   * reported error.
   */
  method FdbTable(db: Db, selected: Option<nat>, env: MonEnv) returns (page: FdbPage)
    ensures selected.None? ==> page == Page([], [], None)
    ensures selected.Some? && selected.value !in db.devices ==> page == PageNotFound
    ensures selected.Some? && selected.value in db.devices ==>
      var d := db.devices[selected.value];
      var fdb, ports := FdbFetched(d, env), PortsFetched(d, env);
      page == Page(LabelledAll(fdb.entries, DescMap(ports.interfaces)), ports.interfaces,
                   ReportedError(fdb.error, ports.error))
  {
    if selected.None? {
      return Page([], [], None);
    }
    if selected.value !in db.devices {
      return PageNotFound;
    }
    var d := db.devices[selected.value];
    var fdb, ports, _ := FetchBoth(d, env);
    var descMap := DescMap(ports.interfaces);
    var entries := EnrichList(fdb.entries, descMap);
    page := Page(entries, ports.interfaces, ReportedError(fdb.error, ports.error));
  }

  /**
   * A page whose FDB query failed with a message shows that message and no
   * entry, whatever the port query did.
   */
  lemma FdbErrorShown(d: Device, env: MonEnv)
    requires FdbFetched(d, env).error.Some? && FdbFetched(d, env).error.value != ""
    ensures ReportedError(FdbFetched(d, env).error, PortsFetched(d, env).error) == FdbFetched(d, env).error
    ensures LabelledAll(FdbFetched(d, env).entries, DescMap(PortsFetched(d, env).interfaces)) == []
  {
  }

  // ---------------------------------------------------------------------
  // fdb_table_ajax

  datatype AjaxReply = AjaxNotFound | Json(entries: seq<FdbEntry>, interfaces: seq<Interface>)

  /**
   * `fdb_table_ajax`: the labelled entries and the port list. The errors
   * the two queries report are not part of the reply.
   */
  method FdbTableAjax(db: Db, pk: nat, env: MonEnv) returns (reply: AjaxReply)
    ensures pk !in db.devices ==> reply == AjaxNotFound
    ensures pk in db.devices ==>
      var d := db.devices[pk];
      var fdb, ports := FdbFetched(d, env), PortsFetched(d, env);
      reply == Json(LabelledAll(fdb.entries, DescMap(ports.interfaces)), ports.interfaces)
  {
    if pk !in db.devices {
      return AjaxNotFound;
    }
    var d := db.devices[pk];
    var fdb, ports, _ := FetchBoth(d, env);
    var entries := EnrichList(fdb.entries, DescMap(ports.interfaces));
    reply := Json(entries, ports.interfaces);
  }

  /** A failed FDB query answers the refresh with an empty entry list and no error. */
  lemma AjaxHidesFdbError(d: Device, env: MonEnv)
    requires FdbFetched(d, env).error.Some?
    ensures LabelledAll(FdbFetched(d, env).entries, DescMap(PortsFetched(d, env).interfaces)) == []
  {
  }

  // ---------------------------------------------------------------------
  // fdb_export_csv

  const CSV_HEADER := ["Interface (SAP)", "Description", "MAC Address", "Service ID", "Type"]

  /** The file name offered for download. */
  function CsvFilename(name: string): string {
    "fdb_" + name + ".csv"
  }

  /** One CSV row: SAP, its port's description, MAC, service id, type. */
  function CsvRow(e: FdbEntry, m: map<string, string>): seq<string> {
    [e.sap, Lookup(m, SapPort(e.sap)), e.macAddress, e.serviceId, e.entryType]
  }

  datatype CsvReply = CsvNotFound | Csv(filename: string, rows: seq<seq<string>>)

  /** The rows after the header, one per entry. */
  function CsvBody(entries: seq<FdbEntry>, m: map<string, string>): (rows: seq<seq<string>>)
    ensures |rows| == |entries|
  {
    if entries == [] then [] else CsvBody(entries[..|entries| - 1], m) + [CsvRow(entries[|entries| - 1], m)]
  }

  /** Row `i` of the body is entry `i`'s row. */
  lemma {:induction false} CsvBodyRows(entries: seq<FdbEntry>, m: map<string, string>)
    ensures forall i :: 0 <= i < |entries| ==> CsvBody(entries, m)[i] == CsvRow(entries[i], m)
  {
    if entries != [] {
      CsvBodyRows(entries[..|entries| - 1], m);
    }
  }

  /** The `writer.writerow` calls: the header, then one row per entry. */
  method WriteRows(entries: seq<FdbEntry>, m: map<string, string>) returns (rows: seq<seq<string>>)
    ensures rows == [CSV_HEADER] + CsvBody(entries, m)
  {
    rows := [CSV_HEADER];
    var body := WriteBody(entries, m);
    rows := rows + body;
  }

  /** The loop over the entries: row after row, in entry order. */
  method WriteBody(entries: seq<FdbEntry>, m: map<string, string>) returns (written: seq<seq<string>>)
    ensures written == CsvBody(entries, m)
  {
    written := [];
    for i := 0 to |entries|
      invariant written == CsvBody(entries[..i], m)
    {
      CsvBodyStep(entries, i, m);
      written := written + [CsvRow(entries[i], m)];
    }
    assert entries[..|entries|] == entries;
  }

  /** Writing entry `i` extends the body of the first `i` entries by its row. */
  lemma CsvBodyStep(entries: seq<FdbEntry>, i: nat, m: map<string, string>)
    requires i < |entries|
    ensures CsvBody(entries[..i + 1], m) == CsvBody(entries[..i], m) + [CsvRow(entries[i], m)]
  {
    var next := entries[..i + 1];
    assert next[..i] == entries[..i] && next[i] == entries[i];
  }

  /**
   * `fdb_export_csv`: `fdb_<device name>.csv` holding the header and one
   * five-column row per FDB entry, in entry order.
   */
  method FdbExportCsv(db: Db, pk: nat, env: MonEnv) returns (reply: CsvReply)
    ensures pk !in db.devices ==> reply == CsvNotFound
    ensures pk in db.devices ==>
      var d := db.devices[pk];
      var fdb, ports := FdbFetched(d, env), PortsFetched(d, env);
      && reply.Csv? && reply.filename == CsvFilename(d.profile.name)
      && reply.rows == [CSV_HEADER] + CsvBody(fdb.entries, DescMap(ports.interfaces))
  {
    if pk !in db.devices {
      return CsvNotFound;
    }
    var d := db.devices[pk];
    var fdb, ports, _ := FetchBoth(d, env);
    var rows := WriteRows(fdb.entries, DescMap(ports.interfaces));
    reply := Csv(CsvFilename(d.profile.name), rows);
  }

  /** When the FDB query fails the export holds the header only. */
  lemma CsvHeaderOnlyOnError(d: Device, env: MonEnv, m: map<string, string>)
    requires FdbFetched(d, env).error.Some?
    ensures [CSV_HEADER] + CsvBody(FdbFetched(d, env).entries, m) == [CSV_HEADER]
  {
  }

  // ---------------------------------------------------------------------
  // dashboard

  datatype Dashboard = Dashboard(
    deviceCount: nat, onlineCount: nat, serviceCount: nat, deployedCount: nat, recentLogs: seq<DeploymentLog>)

  const DASHBOARD_LOGS := 10

  /** The keys `Device.objects.filter(status="online")` selects. */
  function OnlineKeys(devices: map<nat, Device>): set<nat> {
    set k | k in devices && devices[k].status == Online
  }

  /** The keys `VPLSService.objects.exclude(status="deleted")` selects. */
  function LiveKeys(services: map<nat, VplsService>): set<nat> {
    set k | k in services && services[k].status != Deleted
  }

  /** The keys `VPLSService.objects.filter(status="deployed")` selects. */
  function DeployedKeys(services: map<nat, VplsService>): set<nat> {
    set k | k in services && services[k].status == Deployed
  }

  /**
   * The dashboard's counters: all devices, online ones, services not
   * deleted, deployed ones, and the newest logs. A deployed service is
   * never deleted, so it is always among the counted services.
   */
  function DashboardOf(devices: map<nat, Device>, services: map<nat, VplsService>,
                       logs: seq<DeploymentLog>): (r: Dashboard)
    ensures r.deviceCount == |devices| && r.onlineCount == |OnlineKeys(devices)|
    ensures r.serviceCount == |LiveKeys(services)| && r.deployedCount == |DeployedKeys(services)|
    ensures r.onlineCount <= r.deviceCount
    ensures r.deployedCount <= r.serviceCount <= |services|
    ensures r.recentLogs == Latest(logs, DASHBOARD_LOGS)
  {
    var online, live, deployed := OnlineKeys(devices), LiveKeys(services), DeployedKeys(services);
    assert deployed <= live <= services.Keys;
    SubsetCard(online, devices.Keys);
    SubsetCard(deployed, live);
    SubsetCard(live, services.Keys);
    Dashboard(|devices|, |online|, |live|, |deployed|, Latest(logs, DASHBOARD_LOGS))
  }

  lemma SubsetCard(a: set<nat>, b: set<nat>)
    requires a <= b
    ensures |a| <= |b|
  {
    assert b == a + (b - a);
  }

  /** Deleting a service lowers `service_count` by one and never raises `deployed_count`. */
  lemma DeletedLeavesCount(services: map<nat, VplsService>, k: nat)
    requires k in services && services[k].status != Deleted
    ensures var after := services[k := services[k].(status := Deleted)];
      && |LiveKeys(after)| == |LiveKeys(services)| - 1
      && |DeployedKeys(after)| <= |DeployedKeys(services)|
  {
    var after := services[k := services[k].(status := Deleted)];
    assert LiveKeys(after) == LiveKeys(services) - {k};
    assert DeployedKeys(after) == DeployedKeys(services) - {k};
  }
}
