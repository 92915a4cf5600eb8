/**
 * The managed router record (apps/devices/models.py). A record is a value;
 * the device table that the views update in place is a map in
 * `Database.Db`.
 */
module DeviceModels {

  /** Last known reachability; a new device starts `Unknown`. */
  datatype DeviceStatus = Online | Offline | Unknown

  /** The columns `DeviceForm` edits (everything but the password). */
  datatype Profile = Profile(
    name: string, hostname: string, port: int, username: string,
    platform: string, swVersion: string, notes: string)

  /** One row of the device table; `encryptedPassword` is the Fernet token. */
  datatype Device = Device(
    pk: nat, profile: Profile, encryptedPassword: seq<bv8>, status: DeviceStatus)

  /** A new record: status `Unknown`, password given as its token. */
  function NewDevice(pk: nat, profile: Profile, token: seq<bv8>): (d: Device)
    ensures d.pk == pk && d.profile == profile && d.encryptedPassword == token
    ensures d.status == Unknown
  {
    Device(pk, profile, token, Unknown)
  }
}
