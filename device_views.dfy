/**
 * The device pages that change the device table (apps/devices/views.py):
 * adding and editing a router, deleting it with everything that refers to
 * it, and the connectivity test that records whether it answered.
 *
 * Fernet encryption is randomised, so the token `set_password` produces
 * for a request is given to the view as `token`.
 */
module DeviceViews {
  import opened Wrappers
  import opened DeviceModels
  import opened Netconf
  import opened ServiceModels
  import opened Database

  /** The submitted `DeviceForm`: whether the fields clean, the columns, and the password field. */
  datatype DeviceForm = DeviceForm(fieldsValid: bool, profile: Profile, password: string)

  datatype Reply =
    | NotFound                  // get_object_or_404
    | FormPage                  // the form is rendered (again)
    | ConfirmPage               // the delete confirmation
    | ToDeviceList(note: string)

  /** No device other than `except` has this name (the model's `unique=True`). */
  predicate NameFree(devices: map<nat, Device>, name: string, except: Option<nat>) {
    forall k :: k in devices && Some(k) != except ==> devices[k].profile.name != name
  }

  // ---------------------------------------------------------------------
  // device_create

  /**
   * A create form is valid when the fields clean, the password is given
   * (it is required when the form has no instance) and the name is free.
   */
  predicate CreateFormValid(devices: map<nat, Device>, form: DeviceForm) {
    form.fieldsValid && form.password != "" && NameFree(devices, form.profile.name, None)
  }

  /**
   * `device_create` on a POST: a valid form adds a device under the next
   * key, with the encrypted password and status `unknown`.
   */
  method DeviceCreate(db: Db, form: DeviceForm, token: seq<bv8>) returns (reply: Reply)
    requires db.Valid()
    modifies db`devices, db`nextDevicePk
    ensures db.Valid()
    ensures !CreateFormValid(old(db.devices), form) ==> reply == FormPage && unchanged(db)
    ensures CreateFormValid(old(db.devices), form) ==>
      var pk := old(db.nextDevicePk);
      && db.devices == old(db.devices)[pk := NewDevice(pk, form.profile, token)]
      && db.nextDevicePk == pk + 1
      && reply == ToDeviceList("Device '" + form.profile.name + "' added successfully.")
  {
    if !CreateFormValid(db.devices, form) {
      return FormPage;
    }
    var pk := db.nextDevicePk;
    var d := NewDevice(pk, form.profile, token);
    db.devices := db.devices[pk := d];
    db.nextDevicePk := pk + 1;
    reply := ToDeviceList("Device '" + form.profile.name + "' added successfully.");
  }

  // ---------------------------------------------------------------------
  // device_edit

  /**
   * The record after a valid edit: the form's columns, and the password
   * replaced only when the form carries a non-empty one; the key and the
   * status are kept.
   */
  function Edited(d: Device, form: DeviceForm, token: seq<bv8>): (r: Device)
    ensures r.pk == d.pk && r.status == d.status && r.profile == form.profile
    ensures form.password == "" ==> r.encryptedPassword == d.encryptedPassword
    ensures form.password != "" ==> r.encryptedPassword == token
  {
    d.(profile := form.profile, encryptedPassword := if form.password != "" then token else d.encryptedPassword)
  }

  /**
   * `device_edit`: an unknown key is 404; a GET or an invalid form renders
   * the form; a valid POST stores `Edited`.
   */
  method DeviceEdit(db: Db, pk: nat, isPost: bool, form: DeviceForm, token: seq<bv8>) returns (reply: Reply)
    requires db.Valid()
    modifies db`devices
    ensures db.Valid()
    ensures pk !in old(db.devices) ==> reply == NotFound && unchanged(db)
    ensures pk in old(db.devices) && !(isPost && form.fieldsValid && NameFree(old(db.devices), form.profile.name, Some(pk))) ==>
      reply == FormPage && unchanged(db)
    ensures pk in old(db.devices) && isPost && form.fieldsValid && NameFree(old(db.devices), form.profile.name, Some(pk)) ==>
      && db.devices == old(db.devices)[pk := Edited(old(db.devices[pk]), form, token)]
      && reply == ToDeviceList("Device '" + form.profile.name + "' updated successfully.")
  {
    if pk !in db.devices {
      return NotFound;
    }
    if !(isPost && form.fieldsValid && NameFree(db.devices, form.profile.name, Some(pk))) {
      return FormPage;
    }
    var d := db.devices[pk];
    db.devices := db.devices[pk := Edited(d, form, token)];
    reply := ToDeviceList("Device '" + form.profile.name + "' updated successfully.");
  }

  // ---------------------------------------------------------------------
  // device_delete

  /** The SAP rows that do not sit on the device (`on_delete=CASCADE`). */
  function SapsWithout(saps: seq<ServiceSap>, pk: nat): (r: seq<ServiceSap>)
    ensures |r| <= |saps|
    ensures forall s :: s in r <==> s in saps && s.device != pk
  {
    if saps == [] then []
    else
      var rest := SapsWithout(saps[..|saps| - 1], pk);
      var last := saps[|saps| - 1];
      assert forall s :: s in saps <==> s in saps[..|saps| - 1] || s == last;
      if last.device == pk then rest else rest + [last]
  }

  /** Dropping rows keeps the table free of repeats. */
  lemma {:induction false} SapsWithoutUnique(saps: seq<ServiceSap>, pk: nat)
    requires SapsUnique(saps)
    ensures SapsUnique(SapsWithout(saps, pk))
  {
    if saps != [] {
      var init, last := saps[..|saps| - 1], saps[|saps| - 1];
      assert SapsUnique(init) by {
        forall i, j | 0 <= i < j < |init|
          ensures init[i] != init[j]
        {
          assert init[i] == saps[i] && init[j] == saps[j];
        }
      }
      SapsWithoutUnique(init, pk);
      if last.device != pk {
        assert last !in init by {
          forall i | 0 <= i < |init|
            ensures init[i] != last
          {
            assert init[i] == saps[i];
          }
        }
        UniqueConcat(SapsWithout(init, pk), [last]);
      }
    }
  }

  /** The log rows that do not name the device (`on_delete=CASCADE`). */
  function LogsWithout(logs: seq<DeploymentLog>, pk: nat): (r: seq<DeploymentLog>)
    ensures |r| <= |logs|
    ensures forall l :: l in r <==> l in logs && l.device != pk
  {
    if logs == [] then []
    else
      var rest := LogsWithout(logs[..|logs| - 1], pk);
      var last := logs[|logs| - 1];
      assert forall l :: l in logs <==> l in logs[..|logs| - 1] || l == last;
      if last.device == pk then rest else rest + [last]
  }

  /** A service's device list without the deleted device (the M2M rows go too). */
  function Unlinked(ds: seq<nat>, pk: nat): (r: seq<nat>)
    ensures |r| <= |ds|
    ensures forall k :: k in r <==> k in ds && k != pk
  {
    if ds == [] then []
    else
      var rest := Unlinked(ds[..|ds| - 1], pk);
      var last := ds[|ds| - 1];
      assert forall k :: k in ds <==> k in ds[..|ds| - 1] || k == last;
      if last == pk then rest else rest + [last]
  }

  /** Every service loses its link to the device and keeps everything else. */
  function ServicesUnlinked(services: map<nat, VplsService>, pk: nat): (r: map<nat, VplsService>)
    ensures r.Keys == services.Keys
    ensures forall k :: k in r ==> r[k] == services[k].(devices := Unlinked(services[k].devices, pk))
  {
    map k | k in services :: services[k].(devices := Unlinked(services[k].devices, pk))
  }

  /**
   * `device_delete`: a POST removes the device, its SAP rows, its log rows
   * and its links to services; the services stay. A GET only asks for
   * confirmation.
   */
  method DeviceDelete(db: Db, pk: nat, isPost: bool) returns (reply: Reply)
    requires db.Valid()
    modifies db`devices, db`services, db`saps, db`logs
    ensures db.Valid()
    ensures pk !in old(db.devices) ==> reply == NotFound && unchanged(db)
    ensures pk in old(db.devices) && !isPost ==> reply == ConfirmPage && unchanged(db)
    ensures pk in old(db.devices) && isPost ==>
      && db.devices == old(db.devices) - {pk}
      && db.services == ServicesUnlinked(old(db.services), pk)
      && db.saps == SapsWithout(old(db.saps), pk)
      && db.logs == LogsWithout(old(db.logs), pk)
      && reply == ToDeviceList("Device '" + old(db.devices[pk]).profile.name + "' deleted.")
  {
    if pk !in db.devices {
      return NotFound;
    }
    if !isPost {
      return ConfirmPage;
    }
    var name := db.devices[pk].profile.name;
    SapsWithoutUnique(db.saps, pk);
    db.saps := SapsWithout(db.saps, pk);
    db.logs := LogsWithout(db.logs, pk);
    db.services := ServicesUnlinked(db.services, pk);
    db.devices := db.devices - {pk};
    reply := ToDeviceList("Device '" + name + "' deleted.");
  }

  // ---------------------------------------------------------------------
  // device_test

  datatype TestReply = TestNotFound | TestJson(status: string, message: string)

  /**
   * `device_test`: open a session to the device. When it opens, the device
   * becomes `online` and the reply names its host; when connecting raises,
   * it becomes `offline` and the reply carries the exception text. Only the
   * status column is written. `calls` are the RPCs the test's session sent:
   * none but the one `close-session` as the `with` block ends.
   */
  method DeviceTest(db: Db, pk: nat, decrypt: Decrypt, peer: Peer) returns (reply: TestReply, calls: seq<Rpc>)
    requires db.Valid()
    modifies db`devices
    ensures db.Valid()
    ensures pk !in old(db.devices) ==> reply == TestNotFound && calls == [] && unchanged(db)
    ensures pk in old(db.devices) ==>
      var d := old(db.devices[pk]);
      var err := ConnectError(decrypt(d.encryptedPassword), peer);
      && db.devices == old(db.devices)[pk := d.(status := TestedStatus(err))]
      && (err.None? ==> reply == TestJson("success", "Connected to " + d.profile.hostname))
      && (err.None? ==> calls == [RpcCloseSession] && ClosedOnce(calls))
      && (err.Some? ==> reply == TestJson("error", err.value) && calls == [])
  {
    if pk !in db.devices {
      return TestNotFound, [];
    }
    var d := db.devices[pk];
    var c := Connect(d, decrypt, peer);
    if c.Refused? {
      db.devices := db.devices[pk := d.(status := Offline)];
      return TestJson("error", c.msg), [];
    }
    db.devices := db.devices[pk := d.(status := Online)];
    reply := TestJson("success", "Connected to " + d.profile.hostname);
    c.mgr.CloseSession();
    calls := c.mgr.calls;
  }

  /** The status a test leaves: `online` exactly when the session opened, `offline` otherwise. */
  function TestedStatus(err: Option<string>): (s: DeviceStatus)
    ensures s == Online <==> err.None?
    ensures s != Unknown
  {
    if err.None? then Online else Offline
  }
}
