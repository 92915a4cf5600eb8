/**
 * The deployment orchestrator (apps/services/views.py): pushing a service to
 * every device it is bound to, withdrawing it again, creating a service with
 * its SAP rows, and listing the newest deployment logs.
 *
 * The device sessions are given by an `Env`: the password decryption, the
 * behaviour of each device (by primary key) during its session, and the
 * template renderer.
 */
module ServiceViews {
  import opened Wrappers
  import Text
  import opened DeviceModels
  import opened Netconf
  import NokiaVpls
  import opened ServiceModels
  import opened Database

  datatype Env = Env(decrypt: Decrypt, peerOf: nat -> Peer, render: NokiaVpls.Renderer)

  /** Where a view sends the browser, with the flash message it queues. */
  datatype Target = ServiceDetail(pk: nat) | ServiceList
  datatype Reply =
    | NotFound                              // get_object_or_404
    | Redirect(to: Target, note: string)
    | FormPage                              // the form is rendered again
    | IntegrityError                        // a duplicate SAP row escapes the view

  /** The rows of the devices with the given keys, in key order. */
  function Roster(devices: map<nat, Device>, pks: seq<nat>): (r: seq<Device>)
    requires forall k :: k in pks ==> k in devices
    ensures |r| == |pks| && forall i :: 0 <= i < |pks| ==> r[i] == devices[pks[i]]
  {
    if pks == [] then [] else Roster(devices, pks[..|pks| - 1]) + [devices[pks[|pks| - 1]]]
  }

  /** `[{"port": s.port, "vlan": s.vlan} for s in service.saps.filter(device=device)]`. */
  function SapsFor(saps: seq<ServiceSap>, service: nat, device: nat): (r: seq<NokiaVpls.SapParam>)
    ensures |r| <= |saps|
    ensures forall s :: s in saps && s.service == service && s.device == device ==>
      NokiaVpls.SapParam(s.port, s.vlan) in r
    ensures forall p :: p in r ==>
      exists s :: s in saps && s.service == service && s.device == device && p == NokiaVpls.SapParam(s.port, s.vlan)
  {
    if saps == [] then []
    else
      var s := saps[|saps| - 1];
      SapsFor(saps[..|saps| - 1], service, device)
        + (if s.service == service && s.device == device then [NokiaVpls.SapParam(s.port, s.vlan)] else [])
  }

  /** The view's `except Exception`: whatever escaped the push is a failed result. */
  function Settle(out: Outcome<NokiaVpls.ApplyResult>): NokiaVpls.ApplyResult {
    match out
    case Returned(r) => r
    case Raised(m) => NokiaVpls.ApplyResult(NokiaVpls.Failed, "", m)
  }

  /** The document `create_vpls` renders for one device of the service. */
  function CreateConfig(pk: nat, svc: VplsService, saps: seq<ServiceSap>, d: Device, env: Env): string {
    env.render(NokiaVpls.CreateCall(svc.serviceId, svc.name, svc.customerId,
                                    Some(SapsFor(saps, pk, d.pk)), svc.description))
  }

  /** The document `delete_vpls` renders: it depends on the service id only. */
  function DeleteConfig(svc: VplsService, env: Env): string {
    env.render(NokiaVpls.VplsDelete(svc.serviceId))
  }

  /** Why the device's session cannot be opened, if it cannot. */
  function SessionError(d: Device, env: Env): Option<string> {
    ConnectError(env.decrypt(d.encryptedPassword), env.peerOf(d.pk))
  }

  /** What the deploy loop records for one device. */
  function CreateResult(pk: nat, svc: VplsService, saps: seq<ServiceSap>, d: Device, env: Env): NokiaVpls.ApplyResult {
    Settle(NokiaVpls.ApplyOutcome(SessionError(d, env), env.peerOf(d.pk), CreateConfig(pk, svc, saps, d, env)))
  }

  /** What the delete loop records for one device. */
  function DeleteResult(svc: VplsService, d: Device, env: Env): NokiaVpls.ApplyResult {
    Settle(NokiaVpls.ApplyOutcome(SessionError(d, env), env.peerOf(d.pk), DeleteConfig(svc, env)))
  }

  /** The RPCs one device's session sends during a deploy run. */
  function CreateTrace(pk: nat, svc: VplsService, saps: seq<ServiceSap>, d: Device, env: Env): seq<Rpc> {
    NokiaVpls.ApplyTrace(SessionError(d, env), env.peerOf(d.pk), CreateConfig(pk, svc, saps, d, env))
  }

  /** The RPCs one device's session sends during a delete run. */
  function DeleteTrace(svc: VplsService, d: Device, env: Env): seq<Rpc> {
    NokiaVpls.ApplyTrace(SessionError(d, env), env.peerOf(d.pk), DeleteConfig(svc, env))
  }

  function LogOf(pk: nat, device: nat, action: Action, res: NokiaVpls.ApplyResult, actor: Option<nat>): DeploymentLog {
    DeploymentLog(pk, device, action, res.configSent, res.response, res.status, actor)
  }

  /** The logs a deploy run writes. */
  function CreateLogs(pk: nat, svc: VplsService, saps: seq<ServiceSap>, ds: seq<Device>, env: Env,
                      actor: Option<nat>): (r: seq<DeploymentLog>)
    ensures |r| == |ds|
  {
    if ds == [] then []
    else
      var d := ds[|ds| - 1];
      CreateLogs(pk, svc, saps, ds[..|ds| - 1], env, actor)
        + [LogOf(pk, d.pk, Create, CreateResult(pk, svc, saps, d, env), actor)]
  }

  /** The logs a delete run writes. */
  function DeleteLogs(pk: nat, svc: VplsService, ds: seq<Device>, env: Env, actor: Option<nat>): (r: seq<DeploymentLog>)
    ensures |r| == |ds|
  {
    if ds == [] then []
    else
      var d := ds[|ds| - 1];
      DeleteLogs(pk, svc, ds[..|ds| - 1], env, actor) + [LogOf(pk, d.pk, Delete, DeleteResult(svc, d, env), actor)]
  }

  /** A deploy run writes one `create` log per device, in device order, each with that device's outcome. */
  lemma {:induction false} CreateLogsPerDevice(pk: nat, svc: VplsService, saps: seq<ServiceSap>, ds: seq<Device>,
                                               env: Env, actor: Option<nat>)
    ensures forall k :: 0 <= k < |ds| ==>
      CreateLogs(pk, svc, saps, ds, env, actor)[k]
        == LogOf(pk, ds[k].pk, Create, CreateResult(pk, svc, saps, ds[k], env), actor)
  {
    if ds != [] {
      CreateLogsPerDevice(pk, svc, saps, ds[..|ds| - 1], env, actor);
    }
  }

  /** A delete run writes one `delete` log per device, in device order, each with that device's outcome. */
  lemma {:induction false} DeleteLogsPerDevice(pk: nat, svc: VplsService, ds: seq<Device>, env: Env, actor: Option<nat>)
    ensures forall k :: 0 <= k < |ds| ==>
      DeleteLogs(pk, svc, ds, env, actor)[k] == LogOf(pk, ds[k].pk, Delete, DeleteResult(svc, ds[k], env), actor)
  {
    if ds != [] {
      DeleteLogsPerDevice(pk, svc, ds[..|ds| - 1], env, actor);
    }
  }

  /** The RPC traces of a deploy run, one session per device. */
  function CreateTraces(pk: nat, svc: VplsService, saps: seq<ServiceSap>, ds: seq<Device>, env: Env)
    : (r: seq<seq<Rpc>>)
    ensures |r| == |ds|
  {
    if ds == [] then []
    else CreateTraces(pk, svc, saps, ds[..|ds| - 1], env) + [CreateTrace(pk, svc, saps, ds[|ds| - 1], env)]
  }

  /** The RPC traces of a delete run, one session per device. */
  function DeleteTraces(svc: VplsService, ds: seq<Device>, env: Env): (r: seq<seq<Rpc>>)
    ensures |r| == |ds|
  {
    if ds == [] then [] else DeleteTraces(svc, ds[..|ds| - 1], env) + [DeleteTrace(svc, ds[|ds| - 1], env)]
  }

  /** The k-th session of a deploy run is the k-th device's, sending what `NokiaVpls.ApplyTrace` lists. */
  lemma {:induction false} CreateTracesPerDevice(pk: nat, svc: VplsService, saps: seq<ServiceSap>, ds: seq<Device>,
                                                 env: Env)
    ensures forall k :: 0 <= k < |ds| ==>
      CreateTraces(pk, svc, saps, ds, env)[k] == CreateTrace(pk, svc, saps, ds[k], env)
  {
    if ds != [] {
      CreateTracesPerDevice(pk, svc, saps, ds[..|ds| - 1], env);
    }
  }

  /** The k-th session of a delete run is the k-th device's. */
  lemma {:induction false} DeleteTracesPerDevice(svc: VplsService, ds: seq<Device>, env: Env)
    ensures forall k :: 0 <= k < |ds| ==> DeleteTraces(svc, ds, env)[k] == DeleteTrace(svc, ds[k], env)
  {
    if ds != [] {
      DeleteTracesPerDevice(svc, ds[..|ds| - 1], env);
    }
  }

  /** The service's devices, read from a table whose keys match its rows. */
  lemma RosterKeys(devices: map<nat, Device>, next: nat, pks: seq<nat>)
    requires DevicesValid(devices, next) && forall k :: k in pks ==> k in devices
    ensures forall d :: d in Roster(devices, pks) ==> d.pk in devices
  {
  }

  /** A deploy run's logs name the service and devices of the table. */
  lemma CreateLogsRefer(pk: nat, svc: VplsService, saps: seq<ServiceSap>, ds: seq<Device>, env: Env,
                        actor: Option<nat>, services: map<nat, VplsService>, devices: map<nat, Device>)
    requires pk in services && forall d :: d in ds ==> d.pk in devices
    ensures LogsRefer(CreateLogs(pk, svc, saps, ds, env, actor), services, devices)
  {
    CreateLogsPerDevice(pk, svc, saps, ds, env, actor);
    var logs := CreateLogs(pk, svc, saps, ds, env, actor);
    forall l | l in logs
      ensures l.service in services && l.device in devices
    {
      var k :| 0 <= k < |logs| && logs[k] == l;
      assert ds[k] in ds;
    }
  }

  /** A delete run's logs name the service and devices of the table. */
  lemma DeleteLogsRefer(pk: nat, svc: VplsService, ds: seq<Device>, env: Env, actor: Option<nat>,
                        services: map<nat, VplsService>, devices: map<nat, Device>)
    requires pk in services && forall d :: d in ds ==> d.pk in devices
    ensures LogsRefer(DeleteLogs(pk, svc, ds, env, actor), services, devices)
  {
    DeleteLogsPerDevice(pk, svc, ds, env, actor);
    var logs := DeleteLogs(pk, svc, ds, env, actor);
    forall l | l in logs
      ensures l.service in services && l.device in devices
    {
      var k :| 0 <= k < |logs| && logs[k] == l;
      assert ds[k] in ds;
    }
  }

  function StatusesOf(logs: seq<DeploymentLog>): (r: seq<LogStatus>)
    ensures |r| == |logs| && forall k :: 0 <= k < |logs| ==> r[k] == logs[k].status
  {
    if logs == [] then [] else StatusesOf(logs[..|logs| - 1]) + [logs[|logs| - 1].status]
  }

  /** `sum(1 for _, s in results if s == "success")`. */
  function CountSuccess(s: seq<LogStatus>): (n: nat)
    ensures n <= |s|
    ensures n == |s| <==> forall i :: 0 <= i < |s| ==> s[i] == NokiaVpls.Success
    ensures n == 0 <==> forall i :: 0 <= i < |s| ==> s[i] == NokiaVpls.Failed
  {
    if s == [] then 0
    else CountSuccess(s[..|s| - 1]) + (if s[|s| - 1] == NokiaVpls.Success then 1 else 0)
  }

  /**
   * The service status after a deploy run: `deployed` when at least one
   * device was pushed and every push succeeded, `failed` otherwise (the
   * separate all-failed branch also yields `failed`).
   */
  function Aggregate(s: seq<LogStatus>): (r: ServiceStatus)
    ensures r == Deployed <==> |s| > 0 && forall i :: 0 <= i < |s| ==> s[i] == NokiaVpls.Success
    ensures r == Deployed || r == Failed
  {
    var successCount := CountSuccess(s);
    var total := |s|;
    if successCount == total && total > 0 then Deployed
    else if successCount == 0 then Failed
    else Failed
  }

  /** The aggregate depends on the outcomes only, not on the order of the devices. */
  lemma AggregateOrderFree(s: seq<LogStatus>, t: seq<LogStatus>)
    requires multiset(s) == multiset(t)
    ensures Aggregate(s) == Aggregate(t)
  {
    assert |s| == |multiset(s)| == |multiset(t)| == |t|;
    AllSuccessIff(s);
    AllSuccessIff(t);
  }

  /** Every outcome is `success` exactly when no `failed` is among them. */
  lemma AllSuccessIff(s: seq<LogStatus>)
    ensures (forall i :: 0 <= i < |s| ==> s[i] == NokiaVpls.Success) <==> NokiaVpls.Failed !in multiset(s)
  {
    if NokiaVpls.Failed in multiset(s) {
      var i :| 0 <= i < |s| && s[i] == NokiaVpls.Failed;
    }
  }

  /** The device's session opened and it accepted both the edit and the commit. */
  predicate Committed(d: Device, env: Env) {
    var peer := env.peerOf(d.pk);
    SessionError(d, env).None? && peer.edit.Ok? && peer.commit.Ok?
  }

  /** One device's log says `success` exactly when its push was committed. */
  lemma CreateSucceedsIff(pk: nat, svc: VplsService, saps: seq<ServiceSap>, d: Device, env: Env)
    ensures CreateResult(pk, svc, saps, d, env).status == NokiaVpls.Success <==> Committed(d, env)
  {
    var out := NokiaVpls.ApplyOutcome(SessionError(d, env), env.peerOf(d.pk), CreateConfig(pk, svc, saps, d, env));
    assert out.Raised? ==> Settle(out).status == NokiaVpls.Failed;
  }

  /** A deploy run ends `deployed` exactly when it had a device and committed on every one. */
  lemma DeployedIffAllCommitted(pk: nat, svc: VplsService, saps: seq<ServiceSap>, ds: seq<Device>,
                                env: Env, actor: Option<nat>)
    ensures Aggregate(StatusesOf(CreateLogs(pk, svc, saps, ds, env, actor))) == Deployed
      <==> |ds| > 0 && forall k :: 0 <= k < |ds| ==> Committed(ds[k], env)
  {
    var logs := CreateLogs(pk, svc, saps, ds, env, actor);
    CreateLogsPerDevice(pk, svc, saps, ds, env, actor);
    forall k | 0 <= k < |ds|
      ensures StatusesOf(logs)[k] == NokiaVpls.Success <==> Committed(ds[k], env)
    {
      CreateSucceedsIff(pk, svc, saps, ds[k], env);
    }
  }

  function DeployNote(successCount: nat, total: nat): string {
    "Deployment complete: " + Text.IntStr(successCount) + "/" + Text.IntStr(total) + " devices succeeded."
  }

  /**
   * `service_deploy`: for a POST, push the service to each of its devices in
   * turn, log one `create` row per device whatever the outcome, then set the
   * aggregate status. Anything else only redirects.
   */
  method ServiceDeploy(db: Db, pk: nat, isPost: bool, actor: Option<nat>, env: Env) returns (reply: Reply)
    requires db.Valid()
    modifies db
    ensures db.Valid()
    ensures pk !in old(db.services) ==> reply == NotFound && unchanged(db)
    ensures pk in old(db.services) && !isPost ==> reply == Redirect(ServiceDetail(pk), "") && unchanged(db)
    ensures pk in old(db.services) && isPost ==>
      var svc := old(db.services[pk]);
      var added := CreateLogs(pk, svc, old(db.saps), Roster(old(db.devices), svc.devices), env, actor);
      && db.logs == old(db.logs) + added
      && db.services == old(db.services)[pk := svc.(status := Aggregate(StatusesOf(added)))]
      && db.devices == old(db.devices) && db.saps == old(db.saps)
      && db.nextDevicePk == old(db.nextDevicePk) && db.nextServicePk == old(db.nextServicePk)
      && reply == Redirect(ServiceDetail(pk), DeployNote(CountSuccess(StatusesOf(added)), |svc.devices|))
  {
    if pk !in db.services {
      return NotFound;
    }
    var svc := db.services[pk];
    if !isPost {
      return Redirect(ServiceDetail(pk), "");
    }
    var ds := Roster(db.devices, svc.devices);
    RosterKeys(db.devices, db.nextDevicePk, svc.devices);
    var added, _ := PushToDevices(pk, svc, db.saps, ds, actor, env);
    var results := StatusesOf(added);
    CreateLogsRefer(pk, svc, db.saps, ds, env, actor, db.services, db.devices);
    AppendLogsRefer(db.logs, added, db.services, db.devices);
    db.logs := db.logs + added;
    var status := Aggregate(results);
    SetStatusKeepsValid(db, pk, status);
    db.services := db.services[pk := svc.(status := status)];
    reply := Redirect(ServiceDetail(pk), DeployNote(CountSuccess(results), |results|));
  }

  /**
   * The device loop of `service_deploy`: one push and one `create` log per
   * device, in order; the logs are handed back for the view to store.
   */
  method PushToDevices(pk: nat, svc: VplsService, saps: seq<ServiceSap>, ds: seq<Device>,
                       actor: Option<nat>, env: Env)
    returns (added: seq<DeploymentLog>, traces: seq<seq<Rpc>>)
    ensures added == CreateLogs(pk, svc, saps, ds, env, actor)
    ensures traces == CreateTraces(pk, svc, saps, ds, env)
  {
    added, traces := [], [];
    for i := 0 to |ds|
      invariant added == CreateLogs(pk, svc, saps, ds[..i], env, actor)
      invariant traces == CreateTraces(pk, svc, saps, ds[..i], env)
    {
      var result, calls := PushOne(pk, svc, saps, ds[i], env);
      PushStep(pk, svc, saps, ds, i, env, actor);
      added := added + [LogOf(pk, ds[i].pk, Create, result, actor)];
      traces := traces + [calls];
    }
    assert ds[..|ds|] == ds;
  }

  /** One pass of the deploy loop appends the device's log and its session's trace. */
  lemma PushStep(pk: nat, svc: VplsService, saps: seq<ServiceSap>, ds: seq<Device>, i: nat, env: Env,
                 actor: Option<nat>)
    requires i < |ds|
    ensures CreateLogs(pk, svc, saps, ds[..i + 1], env, actor)
      == CreateLogs(pk, svc, saps, ds[..i], env, actor) + [LogOf(pk, ds[i].pk, Create, CreateResult(pk, svc, saps, ds[i], env), actor)]
    ensures CreateTraces(pk, svc, saps, ds[..i + 1], env)
      == CreateTraces(pk, svc, saps, ds[..i], env) + [CreateTrace(pk, svc, saps, ds[i], env)]
  {
    assert ds[..i + 1][..i] == ds[..i];
  }

  /**
   * One iteration of the deploy loop: the device's SAPs, the push, and the
   * `except`, with the RPCs the device's session sent.
   */
  method PushOne(pk: nat, svc: VplsService, saps: seq<ServiceSap>, d: Device, env: Env)
    returns (result: NokiaVpls.ApplyResult, calls: seq<Rpc>)
    ensures result == CreateResult(pk, svc, saps, d, env)
    ensures calls == CreateTrace(pk, svc, saps, d, env)
  {
    var params := SapsFor(saps, pk, d.pk);
    var out;
    out, calls := NokiaVpls.CreateVpls(d, env.decrypt, env.peerOf(d.pk), env.render,
                                           svc.serviceId, svc.name, svc.customerId, Some(params), svc.description);
    result := Settle(out);
  }

  /**
   * `service_delete_deploy`: for a POST, send the delete document to each
   * device, log one `delete` row per device, and mark the service `deleted`
   * whatever the devices answered.
   */
  method ServiceDeleteDeploy(db: Db, pk: nat, isPost: bool, actor: Option<nat>, env: Env) returns (reply: Reply)
    requires db.Valid()
    modifies db
    ensures db.Valid()
    ensures pk !in old(db.services) ==> reply == NotFound && unchanged(db)
    ensures pk in old(db.services) && !isPost ==> reply == Redirect(ServiceDetail(pk), "") && unchanged(db)
    ensures pk in old(db.services) && isPost ==>
      var svc := old(db.services[pk]);
      && db.logs == old(db.logs) + DeleteLogs(pk, svc, Roster(old(db.devices), svc.devices), env, actor)
      && db.services == old(db.services)[pk := svc.(status := Deleted)]
      && db.devices == old(db.devices) && db.saps == old(db.saps)
      && db.nextDevicePk == old(db.nextDevicePk) && db.nextServicePk == old(db.nextServicePk)
      && reply == Redirect(ServiceList, "Delete config sent for VPLS '" + svc.name + "'.")
  {
    if pk !in db.services {
      return NotFound;
    }
    var svc := db.services[pk];
    if !isPost {
      return Redirect(ServiceDetail(pk), "");
    }
    var ds := Roster(db.devices, svc.devices);
    RosterKeys(db.devices, db.nextDevicePk, svc.devices);
    var added, _ := WithdrawFromDevices(pk, svc, ds, actor, env);
    DeleteLogsRefer(pk, svc, ds, env, actor, db.services, db.devices);
    AppendLogsRefer(db.logs, added, db.services, db.devices);
    db.logs := db.logs + added;
    SetStatusKeepsValid(db, pk, Deleted);
    db.services := db.services[pk := svc.(status := Deleted)];
    reply := Redirect(ServiceList, "Delete config sent for VPLS '" + svc.name + "'.");
  }

  /** The device loop of `service_delete_deploy`: one push and one `delete` log per device. */
  method WithdrawFromDevices(pk: nat, svc: VplsService, ds: seq<Device>, actor: Option<nat>, env: Env)
    returns (added: seq<DeploymentLog>, traces: seq<seq<Rpc>>)
    ensures added == DeleteLogs(pk, svc, ds, env, actor)
    ensures traces == DeleteTraces(svc, ds, env)
  {
    added, traces := [], [];
    for i := 0 to |ds|
      invariant added == DeleteLogs(pk, svc, ds[..i], env, actor)
      invariant traces == DeleteTraces(svc, ds[..i], env)
    {
      var result, calls := WithdrawOne(svc, ds[i], env);
      WithdrawStep(pk, svc, ds, i, env, actor);
      added := added + [LogOf(pk, ds[i].pk, Delete, result, actor)];
      traces := traces + [calls];
    }
    assert ds[..|ds|] == ds;
  }

  /** One pass of the delete loop appends the device's log and its session's trace. */
  lemma WithdrawStep(pk: nat, svc: VplsService, ds: seq<Device>, i: nat, env: Env, actor: Option<nat>)
    requires i < |ds|
    ensures DeleteLogs(pk, svc, ds[..i + 1], env, actor)
      == DeleteLogs(pk, svc, ds[..i], env, actor) + [LogOf(pk, ds[i].pk, Delete, DeleteResult(svc, ds[i], env), actor)]
    ensures DeleteTraces(svc, ds[..i + 1], env) == DeleteTraces(svc, ds[..i], env) + [DeleteTrace(svc, ds[i], env)]
  {
    assert ds[..i + 1][..i] == ds[..i];
  }

  /** One iteration of the delete loop: the push and the `except`, with the session's RPCs. */
  method WithdrawOne(svc: VplsService, d: Device, env: Env)
    returns (result: NokiaVpls.ApplyResult, calls: seq<Rpc>)
    ensures result == DeleteResult(svc, d, env)
    ensures calls == DeleteTrace(svc, d, env)
  {
    var out;
    out, calls := NokiaVpls.DeleteVpls(d, env.decrypt, env.peerOf(d.pk), env.render, svc.serviceId);
    result := Settle(out);
  }

  // ---------------------------------------------------------------------
  // service_create

  /**
   * The submitted service form: `fieldsValid` stands for the per-field
   * cleaning (integers, lengths); `devices` are the selected primary keys.
   */
  datatype ServiceForm = ServiceForm(
    fieldsValid: bool, serviceId: int, name: string, customerId: int, description: string, devices: seq<nat>)

  /** One `SAPForm`: whether it cleans, and its port and VLAN. */
  datatype SapForm = SapForm(valid: bool, port: string, vlan: int)

  predicate NoDuplicates<T(==)>(s: seq<T>) {
    forall i, j :: 0 <= i < j < |s| ==> s[i] != s[j]
  }

  /**
   * The cleaned device selection: a queryset filtered by the submitted keys,
   * so each device once, first mention first.
   */
  function Selected(pks: seq<nat>): (r: seq<nat>)
    ensures NoDuplicates(r)
    ensures forall k :: k in r <==> k in pks
    ensures |r| <= |pks|
  {
    if pks == [] then []
    else
      var rest := Selected(pks[..|pks| - 1]);
      var k := pks[|pks| - 1];
      assert forall x :: x in pks <==> x in pks[..|pks| - 1] || x == k;
      if k in rest then rest else rest + [k]
  }

  /**
   * `form.is_valid()`: the fields clean, at least one device is selected
   * (`required=True`), every selected key names a device, and no service has
   * the same `service_id` (the model's `unique=True`).
   */
  predicate FormValid(form: ServiceForm, services: map<nat, VplsService>, devices: map<nat, Device>) {
    && form.fieldsValid
    && |form.devices| > 0
    && (forall k :: k in form.devices ==> k in devices)
    && (forall k :: k in services ==> services[k].serviceId != form.serviceId)
  }

  /** `all(sf.is_valid() for sf in sap_forms)`. */
  predicate SapFormsValid(forms: seq<SapForm>) {
    forall i :: 0 <= i < |forms| ==> forms[i].valid
  }

  /** The cleaned (port, vlan) of each SAP form. */
  function SapParams(forms: seq<SapForm>): (r: seq<NokiaVpls.SapParam>)
    ensures |r| == |forms| && forall i :: 0 <= i < |forms| ==> r[i] == NokiaVpls.SapParam(forms[i].port, forms[i].vlan)
  {
    if forms == [] then []
    else SapParams(forms[..|forms| - 1]) + [NokiaVpls.SapParam(forms[|forms| - 1].port, forms[|forms| - 1].vlan)]
  }

  /** The row `ServiceSAP.objects.create` inserts for one SAP form and one device. */
  function Row(pk: nat, p: NokiaVpls.SapParam, device: nat): ServiceSap {
    ServiceSap(pk, device, p.port, p.vlan)
  }

  /** The inner loop: one row per device, for one SAP form. */
  function RowsFor(pk: nat, p: NokiaVpls.SapParam, ds: seq<nat>): (r: seq<ServiceSap>)
    ensures |r| == |ds|
    ensures forall s :: s in r <==> s.service == pk && s.device in ds && s.port == p.port && s.vlan == p.vlan
  {
    if ds == [] then []
    else
      var rest := RowsFor(pk, p, ds[..|ds| - 1]);
      assert forall x :: x in ds <==> x in ds[..|ds| - 1] || x == ds[|ds| - 1];
      rest + [Row(pk, p, ds[|ds| - 1])]
  }

  /** Both loops of the fan-out: for each SAP form, for each device, one row. */
  function FanOut(pk: nat, ps: seq<NokiaVpls.SapParam>, ds: seq<nat>): (r: seq<ServiceSap>)
  {
    if ps == [] then []
    else FanOut(pk, ps[..|ps| - 1], ds) + RowsFor(pk, ps[|ps| - 1], ds)
  }

  /** One row per (SAP form, selected device) pair. */
  lemma {:induction false} FanOutSize(pk: nat, ps: seq<NokiaVpls.SapParam>, ds: seq<nat>)
    ensures |FanOut(pk, ps, ds)| == |ps| * |ds|
  {
    if ps != [] {
      FanOutSize(pk, ps[..|ps| - 1], ds);
      assert (|ps| - 1) * |ds| + |ds| == |ps| * |ds|;
    }
  }

  /**
   * A fan-out row is exactly a (SAP form, selected device) pair of the new
   * service.
   */
  lemma {:induction false} FanOutRows(pk: nat, ps: seq<NokiaVpls.SapParam>, ds: seq<nat>)
    ensures forall s :: s in FanOut(pk, ps, ds) <==>
      s.service == pk && s.device in ds && NokiaVpls.SapParam(s.port, s.vlan) in ps
  {
    if ps != [] {
      var init, p := ps[..|ps| - 1], ps[|ps| - 1];
      FanOutRows(pk, init, ds);
      assert ps == init + [p];
      assert forall q :: q in ps <==> q in init || q == p;
    }
  }

  /** One SAP form's rows repeat nothing when the devices repeat nothing. */
  lemma RowsForUnique(pk: nat, p: NokiaVpls.SapParam, ds: seq<nat>)
    requires NoDuplicates(ds)
    ensures SapsUnique(RowsFor(pk, p, ds))
  {
    var r := RowsFor(pk, p, ds);
    RowsForIndexed(pk, p, ds);
    forall i, j | 0 <= i < j < |r|
      ensures r[i] != r[j]
    {
      assert r[i].device == ds[i] && r[j].device == ds[j];
    }
  }

  lemma {:induction false} RowsForIndexed(pk: nat, p: NokiaVpls.SapParam, ds: seq<nat>)
    ensures forall k :: 0 <= k < |ds| ==> RowsFor(pk, p, ds)[k] == Row(pk, p, ds[k])
  {
    if ds != [] {
      RowsForIndexed(pk, p, ds[..|ds| - 1]);
    }
  }

  /**
   * With distinct selected devices, at least one of them, the fan-out has no
   * duplicate row exactly when no two SAP forms give the same (port, vlan).
   */
  lemma {:induction false} FanOutUnique(pk: nat, ps: seq<NokiaVpls.SapParam>, ds: seq<nat>)
    requires NoDuplicates(ds) && |ds| > 0
    ensures SapsUnique(FanOut(pk, ps, ds)) <==> NoDuplicates(ps)
  {
    if ps != [] {
      var init, p := ps[..|ps| - 1], ps[|ps| - 1];
      var a, b := FanOut(pk, init, ds), RowsFor(pk, p, ds);
      FanOutUnique(pk, init, ds);
      FanOutRows(pk, init, ds);
      RowsForUnique(pk, p, ds);
      UniqueConcat(a, b);
      assert NoDuplicates(ps) <==> NoDuplicates(init) && p !in init by {
        if NoDuplicates(init) && p !in init {
          forall i, j | 0 <= i < j < |ps|
            ensures ps[i] != ps[j]
          {
            if j < |ps| - 1 {
              assert ps[i] == init[i] && ps[j] == init[j];
            } else {
              assert ps[i] == init[i];
            }
          }
        }
      }
      assert (forall s :: s in a ==> s !in b) <==> p !in init by {
        if p in init {
          var s := Row(pk, p, ds[0]);
          assert s in a && s in b;
        }
      }
    }
  }

  /**
   * `rows[..n]` are the rows that went in before the first one already in
   * `saps` or earlier in `rows`, and row `n` (if any) is that repeat.
   */
  predicate StopsAtFirstRepeat(saps: seq<ServiceSap>, rows: seq<ServiceSap>, n: nat) {
    && n <= |rows|
    && (forall j :: 0 <= j < n ==> rows[j] !in saps + rows[..j])
    && (n < |rows| ==> rows[n] in saps + rows[..n])
  }

  /**
   * The `ServiceSAP.objects.create` calls over the fan-out rows, in order:
   * `n` rows go in, and when `n` falls short, row `n` repeats a row already
   * stored, so the unique constraint raises `IntegrityError` there.
   */
  method InsertRows(saps: seq<ServiceSap>, rows: seq<ServiceSap>) returns (n: nat)
    ensures n <= |rows|
    ensures forall j :: 0 <= j < n ==> rows[j] !in saps + rows[..j]
    ensures n < |rows| ==> rows[n] in saps + rows[..n]
  {
    n := 0;
    var stored := saps;
    while n < |rows| && rows[n] !in stored
      invariant n <= |rows| && stored == saps + rows[..n]
      invariant forall j :: 0 <= j < n ==> rows[j] !in saps + rows[..j]
    {
      assert rows[..n + 1] == rows[..n] + [rows[n]];
      stored := stored + [rows[n]];
      n := n + 1;
    }
  }

  /** The rows accepted one by one keep the table free of repeats. */
  lemma InsertedUnique(saps: seq<ServiceSap>, rows: seq<ServiceSap>, n: nat)
    requires SapsUnique(saps) && n <= |rows|
    requires forall j :: 0 <= j < n ==> rows[j] !in saps + rows[..j]
    ensures SapsUnique(saps + rows[..n])
  {
    var t := saps + rows[..n];
    forall i, j | 0 <= i < j < |t|
      ensures t[i] != t[j]
    {
      if j >= |saps| {
        var k := j - |saps|;
        assert t[j] == rows[k];
        assert t[..j] == saps + rows[..k];
        assert t[i] in t[..j];
      }
    }
  }

  /** All rows go in exactly when the table plus the rows has no repeat. */
  lemma InsertedAll(saps: seq<ServiceSap>, rows: seq<ServiceSap>, n: nat)
    requires n <= |rows|
    requires forall j :: 0 <= j < n ==> rows[j] !in saps + rows[..j]
    requires n < |rows| ==> rows[n] in saps + rows[..n]
    requires SapsUnique(saps)
    ensures n == |rows| <==> SapsUnique(saps + rows)
  {
    assert rows[..|rows|] == rows;
    if n == |rows| {
      InsertedUnique(saps, rows, n);
    } else {
      var t := saps + rows;
      var x := rows[n];
      assert t[|saps| + n] == x;
      var i :| 0 <= i < |saps + rows[..n]| && (saps + rows[..n])[i] == x;
      assert t[i] == x;
    }
  }

  /**
   * The rows of a service that has no rows yet: they refer to it and to its
   * devices, and repeat something exactly when they repeat among themselves.
   */
  lemma FreshServiceRows(saps: seq<ServiceSap>, rows: seq<ServiceSap>, pk: nat, ds: seq<nat>,
                         ps: seq<NokiaVpls.SapParam>, services: map<nat, VplsService>, devices: map<nat, Device>)
    requires rows == FanOut(pk, ps, ds)
    requires SapsUnique(saps) && forall s :: s in saps ==> s.service != pk
    requires pk in services && forall d :: d in ds ==> d in devices
    ensures SapsUnique(saps + rows) <==> SapsUnique(rows)
    ensures forall s :: s in rows ==> s.service in services && s.device in devices
  {
    FanOutRows(pk, ps, ds);
    UniqueConcat(saps, rows);
  }

  /** The success note of `service_create`. */
  function CreatedNote(name: string): string {
    "VPLS service '" + name + "' created."
  }

  /** The service `service_create` stores for a valid form. */
  function NewService(form: ServiceForm, actor: Option<nat>): (svc: VplsService)
    ensures svc.status == DEFAULT_SERVICE_STATUS && svc.createdBy == actor
    ensures svc.serviceId == form.serviceId && svc.name == form.name
    ensures svc.devices == Selected(form.devices)
  {
    VplsService(form.serviceId, form.name, form.customerId, form.description, Selected(form.devices),
                DEFAULT_SERVICE_STATUS, actor)
  }

  /**
   * `service_create` on a POST. With a valid service form and valid SAP
   * forms, the service is stored `planned` with its creator and devices,
   * then one SAP row per (SAP form, device) pair is created in loop order.
   * Anything invalid re-renders the form and stores nothing.
   */
  method ServiceCreate(db: Db, form: ServiceForm, sapForms: seq<SapForm>, actor: Option<nat>) returns (reply: Reply)
    requires db.Valid()
    modifies db
    ensures db.Valid()
    ensures !(FormValid(form, old(db.services), old(db.devices)) && SapFormsValid(sapForms)) ==>
      reply == FormPage && unchanged(db)
    ensures FormValid(form, old(db.services), old(db.devices)) && SapFormsValid(sapForms) ==>
      var pk := old(db.nextServicePk);
      var rows := FanOut(pk, SapParams(sapForms), NewService(form, actor).devices);
      && db.services == old(db.services)[pk := NewService(form, actor)]
      && db.nextServicePk == pk + 1
      && db.devices == old(db.devices) && db.logs == old(db.logs) && db.nextDevicePk == old(db.nextDevicePk)
      && old(db.saps) <= db.saps && db.saps[|old(db.saps)|..] <= rows
      && StopsAtFirstRepeat(old(db.saps), rows, |db.saps| - |old(db.saps)|)
      && (reply == IntegrityError <==> !NoDuplicates(SapParams(sapForms)))
      && (reply != IntegrityError ==> db.saps == old(db.saps) + rows && reply == Redirect(ServiceDetail(pk), CreatedNote(form.name)))
  {
    if FormValid(form, db.services, db.devices) && SapFormsValid(sapForms) {
      reply := CreateValid(db, form, sapForms, actor);
    } else {
      reply := FormPage;
    }
  }

  /**
   * The valid branch of `service_create`. Two SAP forms with the same
   * (port, vlan) make a row repeat: the unique constraint raises at the
   * repeat, and the service and the rows before it stay stored.
   */
  method CreateValid(db: Db, form: ServiceForm, sapForms: seq<SapForm>, actor: Option<nat>) returns (reply: Reply)
    requires db.Valid() && FormValid(form, db.services, db.devices) && SapFormsValid(sapForms)
    modifies db
    ensures db.Valid()
    ensures
      var pk := old(db.nextServicePk);
      var rows := FanOut(pk, SapParams(sapForms), NewService(form, actor).devices);
      && db.services == old(db.services)[pk := NewService(form, actor)]
      && db.nextServicePk == pk + 1
      && db.devices == old(db.devices) && db.logs == old(db.logs) && db.nextDevicePk == old(db.nextDevicePk)
      && old(db.saps) <= db.saps && db.saps[|old(db.saps)|..] <= rows
      && StopsAtFirstRepeat(old(db.saps), rows, |db.saps| - |old(db.saps)|)
      && (reply == IntegrityError <==> !NoDuplicates(SapParams(sapForms)))
      && (reply != IntegrityError ==> db.saps == old(db.saps) + rows && reply == Redirect(ServiceDetail(pk), CreatedNote(form.name)))
  {
    var pk := db.nextServicePk;
    var svc := NewService(form, actor);
    assert form.devices[0] in svc.devices;
    SaveService(db, svc);
    assert db.saps == old(db.saps);
    reply := SaveSaps(db, pk, svc, SapParams(sapForms));
  }

  /**
   * The fan-out loops of `service_create` for the service just stored
   * under `pk`: all rows go in unless two SAP forms repeat a (port, vlan).
   */
  method SaveSaps(db: Db, pk: nat, svc: VplsService, ps: seq<NokiaVpls.SapParam>) returns (reply: Reply)
    requires db.Valid() && pk in db.services && db.services[pk] == svc
    requires NoDuplicates(svc.devices) && |svc.devices| > 0
    requires forall s :: s in db.saps ==> s.service != pk
    modifies db`saps
    ensures db.Valid()
    ensures var rows := FanOut(pk, ps, svc.devices);
      && old(db.saps) <= db.saps && db.saps[|old(db.saps)|..] <= rows
      && StopsAtFirstRepeat(old(db.saps), rows, |db.saps| - |old(db.saps)|)
      && (reply == IntegrityError <==> !NoDuplicates(ps))
      && (reply != IntegrityError ==> db.saps == old(db.saps) + rows && reply == Redirect(ServiceDetail(pk), CreatedNote(svc.name)))
  {
    var rows := FanOut(pk, ps, svc.devices);
    FreshServiceRows(db.saps, rows, pk, svc.devices, ps, db.services, db.devices);
    FanOutUnique(pk, ps, svc.devices);
    var n := StoreRows(db, rows);
    assert db.saps[|old(db.saps)|..] == rows[..n];
    if n < |rows| {
      reply := IntegrityError;
    } else {
      assert rows[..n] == rows;
      reply := Redirect(ServiceDetail(pk), CreatedNote(svc.name));
    }
  }

  /**
   * `service.save()` and `form.save_m2m()`: the service goes in under the
   * next key, which no SAP row refers to yet.
   */
  method SaveService(db: Db, svc: VplsService)
    requires db.Valid()
    requires forall k :: k in db.services ==> db.services[k].serviceId != svc.serviceId
    requires forall d :: d in svc.devices ==> d in db.devices
    modifies db`services, db`nextServicePk
    ensures db.Valid()
    ensures db.services == old(db.services)[old(db.nextServicePk) := svc]
    ensures db.nextServicePk == old(db.nextServicePk) + 1
    ensures forall s :: s in db.saps ==> s.service != old(db.nextServicePk)
  {
    NewServiceKeepsValid(db, svc);
    db.services := db.services[db.nextServicePk := svc];
    db.nextServicePk := db.nextServicePk + 1;
  }

  /**
   * The fan-out's `ServiceSAP.objects.create` calls against the table: the
   * rows go in up to the first repeat, which raises.
   */
  method StoreRows(db: Db, rows: seq<ServiceSap>) returns (n: nat)
    requires db.Valid()
    requires forall s :: s in rows ==> s.service in db.services && s.device in db.devices
    modifies db`saps
    ensures db.Valid()
    ensures n <= |rows| && db.saps == old(db.saps) + rows[..n]
    ensures StopsAtFirstRepeat(old(db.saps), rows, n)
    ensures n == |rows| <==> SapsUnique(old(db.saps) + rows)
  {
    n := InsertRows(db.saps, rows);
    InsertedUnique(db.saps, rows, n);
    InsertedAll(db.saps, rows, n);
    db.saps := db.saps + rows[..n];
  }

  // ---------------------------------------------------------------------
  // deployment_logs

  /** How many rows the log page shows. */
  const LOG_PAGE := 100

  /**
   * `deployment_logs`: the newest rows first, at most `LOG_PAGE` of them;
   * the i-th row shown is the i-th most recent one.
   */
  function RecentLogs(logs: seq<DeploymentLog>): (r: seq<DeploymentLog>)
    ensures |r| <= LOG_PAGE
    ensures |r| == if |logs| < LOG_PAGE then |logs| else LOG_PAGE
    ensures forall i :: 0 <= i < |r| ==> r[i] == logs[|logs| - 1 - i]
  {
    Latest(logs, LOG_PAGE)
  }
}
