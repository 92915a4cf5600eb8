/**
 * The tables the views read and write, as one object: devices and services
 * by primary key, and the SAP and deployment-log rows in insertion order.
 * `Valid` holds the constraints the schema enforces (apps/services/models.py,
 * apps/devices/models.py): unique device names, unique service ids, unique
 * SAP rows, and foreign keys that point at existing rows.
 */
module Database {
  import opened DeviceModels
  import opened ServiceModels

  class Db {
    var devices: map<nat, Device>
    var services: map<nat, VplsService>
    /** `ServiceSAP` rows, oldest first. */
    var saps: seq<ServiceSap>
    /** `DeploymentLog` rows, oldest first (insertion order stands for timestamp order). */
    var logs: seq<DeploymentLog>
    /** The next primary keys the device and service tables hand out. */
    var nextDevicePk: nat
    var nextServicePk: nat

    constructor ()
      ensures devices == map[] && services == map[] && saps == [] && logs == []
      ensures nextDevicePk == 0 && nextServicePk == 0
      ensures Valid()
    {
      devices := map[];
      services := map[];
      saps := [];
      logs := [];
      nextDevicePk := 0;
      nextServicePk := 0;
    }

    ghost predicate Valid()
      reads this
    {
      && DevicesValid(devices, nextDevicePk)
      && ServicesValid(services, nextServicePk, devices)
      && SapsValid(saps, services, devices)
      && LogsRefer(logs, services, devices)
    }
  }

  /** Keys match the rows, stay below the next key, and names are unique (`unique=True`). */
  ghost predicate DevicesValid(devices: map<nat, Device>, next: nat) {
    && (forall k :: k in devices ==> devices[k].pk == k && k < next)
    && (forall a, b :: a in devices && b in devices && devices[a].profile.name == devices[b].profile.name ==> a == b)
  }

  /** Service ids are unique and every service's devices exist. */
  ghost predicate ServicesValid(services: map<nat, VplsService>, next: nat, devices: map<nat, Device>) {
    && ServiceIdsUnique(services)
    && (forall k :: k in services ==> k < next)
    && (forall k, d :: k in services && d in services[k].devices ==> d in devices)
  }

  /** SAP rows are unique and point at an existing service and device. */
  ghost predicate SapsValid(saps: seq<ServiceSap>, services: map<nat, VplsService>, devices: map<nat, Device>) {
    && SapsUnique(saps)
    && (forall s :: s in saps ==> s.service in services && s.device in devices)
  }

  /** Every log row names an existing service and an existing device. */
  ghost predicate LogsRefer(logs: seq<DeploymentLog>, services: map<nat, VplsService>, devices: map<nat, Device>) {
    forall l :: l in logs ==> l.service in services && l.device in devices
  }

  /** Changing one service's status keeps every constraint. */
  lemma SetStatusKeepsValid(db: Db, k: nat, status: ServiceStatus)
    requires db.Valid() && k in db.services
    ensures var services := db.services[k := db.services[k].(status := status)];
      && ServicesValid(services, db.nextServicePk, db.devices)
      && SapsValid(db.saps, services, db.devices)
      && LogsRefer(db.logs, services, db.devices)
  {
  }

  /** Appending rows that refer to existing records keeps the log table's foreign keys. */
  lemma AppendLogsRefer(logs: seq<DeploymentLog>, added: seq<DeploymentLog>,
                        services: map<nat, VplsService>, devices: map<nat, Device>)
    requires LogsRefer(logs, services, devices) && LogsRefer(added, services, devices)
    ensures LogsRefer(logs + added, services, devices)
  {
  }

  /** Storing a new service under the next key keeps every constraint. */
  lemma NewServiceKeepsValid(db: Db, svc: VplsService)
    requires db.Valid()
    requires forall k :: k in db.services ==> db.services[k].serviceId != svc.serviceId
    requires forall d :: d in svc.devices ==> d in db.devices
    ensures var services := db.services[db.nextServicePk := svc];
      && ServicesValid(services, db.nextServicePk + 1, db.devices)
      && SapsValid(db.saps, services, db.devices)
      && LogsRefer(db.logs, services, db.devices)
      && forall s :: s in db.saps ==> s.service != db.nextServicePk
  {
  }
}
