/**
 * The service catalogue records (apps/services/models.py): a VPLS service,
 * its service access points (SAPs) and the deployment audit log, with their
 * status vocabularies, uniqueness constraints and display strings.
 */
module ServiceModels {
  import opened Wrappers
  import Text
  import NokiaVpls

  datatype ServiceStatus = Planned | Deployed | Failed | Deleted

  const DEFAULT_SERVICE_STATUS := Planned

  /** The `action` column: one of the three words the code writes. */
  datatype Action = Create | Delete | Modify

  /** A log's `status` is the `status` of the push result it records. */
  type LogStatus = NokiaVpls.ApplyStatus

  /**
   * A VPLS service. `devices` holds the primary keys of its many-to-many
   * device set, in the order `service.devices.all()` yields them;
   * `createdBy` is the creating user's id.
   */
  datatype VplsService = VplsService(
    serviceId: int, name: string, customerId: int, description: string,
    devices: seq<nat>, status: ServiceStatus, createdBy: Option<nat>)

  /** A SAP row: service and device ids, port and VLAN. */
  datatype ServiceSap = ServiceSap(service: nat, device: nat, port: string, vlan: int)

  /** One audit row per push attempt (its timestamp is not modelled). */
  datatype DeploymentLog = DeploymentLog(
    service: nat, device: nat, action: Action, configSent: string, response: string,
    status: LogStatus, deployedBy: Option<nat>)

  function ActionWord(a: Action): string {
    match a
    case Create => "create"
    case Delete => "delete"
    case Modify => "modify"
  }

  function LogStatusWord(s: LogStatus): (w: string)
    ensures '[' !in w && ']' !in w
  {
    match s
    case Success => "success"
    case Failed => "failed"
  }

  /** `service_id` is unique across services (`unique=True`). */
  ghost predicate ServiceIdsUnique(services: map<nat, VplsService>) {
    forall a, b :: a in services && b in services && services[a].serviceId == services[b].serviceId ==> a == b
  }

  /** `unique_together = (service, device, port, vlan)`: no row twice. */
  ghost predicate SapsUnique(saps: seq<ServiceSap>) {
    forall i, j :: 0 <= i < j < |saps| ==> saps[i] != saps[j]
  }

  /** Rows without repeats on both sides, and none shared, make rows without repeats. */
  lemma UniqueConcat(a: seq<ServiceSap>, b: seq<ServiceSap>)
    ensures SapsUnique(a + b) <==> SapsUnique(a) && SapsUnique(b) && forall s :: s in a ==> s !in b
  {
    var ab := a + b;
    if SapsUnique(a) && SapsUnique(b) && forall s :: s in a ==> s !in b {
      forall i, j | 0 <= i < j < |ab|
        ensures ab[i] != ab[j]
      {
        if j < |a| {
          assert ab[i] == a[i] && ab[j] == a[j];
        } else if i >= |a| {
          assert ab[i] == b[i - |a|] && ab[j] == b[j - |a|];
        } else {
          assert ab[i] == a[i] && ab[j] == b[j - |a|];
          assert a[i] in a;
        }
      }
    }
    if SapsUnique(ab) {
      forall i, j | 0 <= i < j < |a|
        ensures a[i] != a[j]
      {
        assert a[i] == ab[i] && a[j] == ab[j];
      }
      forall i, j | 0 <= i < j < |b|
        ensures b[i] != b[j]
      {
        assert b[i] == ab[|a| + i] && b[j] == ab[|a| + j];
      }
      forall i, j | 0 <= i < |a| && 0 <= j < |b|
        ensures a[i] != b[j]
      {
        assert a[i] == ab[i] && b[j] == ab[|a| + j];
      }
    }
  }

  /** `VPLSService.__str__`: `VPLS <id> - <name>`. */
  function ServiceStr(serviceId: int, name: string): (r: string)
    ensures |r| >= 5 + |name| && r[..5] == "VPLS " && r[|r| - |name|..] == name
  {
    "VPLS " + Text.IntStr(serviceId) + " - " + name
  }

  /** Reads the service id back out of a `ServiceStr` text. */
  function ServiceIdOf(text: string): Option<int> {
    if |text| >= 5 && text[..5] == "VPLS " then
      var token := Text.Before(text[5..], ' ');
      if Text.IntSyntax(token) then Some(Text.ParseInt(token)) else None
    else None
  }

  /** The display string keeps the service id recoverable, whatever the name. */
  lemma ServiceStrKeepsId(serviceId: int, name: string)
    ensures ServiceIdOf(ServiceStr(serviceId, name)) == Some(serviceId)
  {
    var id := Text.IntStr(serviceId);
    var rest := "- " + name;
    var text := ServiceStr(serviceId, name);
    assert text == "VPLS " + (id + [' '] + rest);
    Text.PrefixSplit("VPLS ", id + [' '] + rest);
    assert text[..5] == "VPLS " && text[5..] == id + [' '] + rest;
    Text.IntStrChars(serviceId, ' ');
    Text.BeforeConcat(id, ' ', rest);
    assert Text.Before(text[5..], ' ') == id;
    assert Text.IntSyntax(id);
    Text.ParseIntStr(serviceId);
  }

  /** `ServiceSAP.__str__`: `port:vlan on device`. */
  function SapStr(port: string, vlan: int, deviceName: string): (r: string)
    ensures |r| > |port| && r[..|port| + 1] == port + ":"
    ensures |r| >= 4 + |deviceName| && r[|r| - |deviceName| - 4..] == " on " + deviceName
  {
    port + ":" + Text.IntStr(vlan) + " on " + deviceName
  }

  /** Two SAPs of one device on one port print alike only with the same VLAN. */
  lemma SapStrSeparatesVlans(port: string, v1: int, v2: int, deviceName: string)
    ensures SapStr(port, v1, deviceName) == SapStr(port, v2, deviceName) <==> v1 == v2
  {
    var s1, s2 := SapStr(port, v1, deviceName), SapStr(port, v2, deviceName);
    if s1 == s2 {
      var a1, a2 := Text.IntStr(v1), Text.IntStr(v2);
      var tail := " on " + deviceName;
      assert |a1| == |a2|;
      assert a1 == s1[|port| + 1..|port| + 1 + |a1|];
      assert a2 == s2[|port| + 1..|port| + 1 + |a2|];
      Text.IntStrInjective(v1, v2);
    }
  }

  /** `DeploymentLog.__str__`: `action VPLS id on device [status]`. */
  function LogStr(action: Action, serviceId: int, deviceName: string, status: LogStatus): (r: string)
    ensures |r| >= 1 && r[|r| - 1] == ']'
  {
    ActionWord(action) + " VPLS " + Text.IntStr(serviceId) + " on " + deviceName
      + " [" + LogStatusWord(status) + "]"
  }

  /** The bracketed word at the end of a `LogStr` text. */
  function BracketedWord(text: string): string {
    var last := Text.AfterLast(text, '[');
    if |last| >= 1 && last[|last| - 1] == ']' then last[..|last| - 1] else last
  }

  /** A text ending in `[w]` has `w` as its bracketed word, whatever comes before. */
  lemma BracketedWordOf(head: string, w: string)
    requires '[' !in w && ']' !in w
    ensures BracketedWord(head + "[" + w + "]") == w
  {
    var tail := w + "]";
    assert head + "[" + w + "]" == head + ['['] + tail;
    assert '[' !in tail;
    Text.AfterLastConcat(head, '[', tail);
    assert tail[..|tail| - 1] == w;
  }

  /** The log line ends with its status, even when the device name holds brackets. */
  lemma LogStrEndsWithStatus(action: Action, serviceId: int, deviceName: string, status: LogStatus)
    ensures BracketedWord(LogStr(action, serviceId, deviceName, status)) == LogStatusWord(status)
  {
    var head := ActionWord(action) + " VPLS " + Text.IntStr(serviceId) + " on " + deviceName + " ";
    assert LogStr(action, serviceId, deviceName, status) == head + "[" + LogStatusWord(status) + "]";
    BracketedWordOf(head, LogStatusWord(status));
  }

  /** The log table newest first (`ordering = ["-timestamp"]`, timestamps in insertion order). */
  function NewestFirst(logs: seq<DeploymentLog>): (r: seq<DeploymentLog>)
    ensures |r| == |logs| && forall i :: 0 <= i < |logs| ==> r[i] == logs[|logs| - 1 - i]
  {
    if logs == [] then [] else [logs[|logs| - 1]] + NewestFirst(logs[..|logs| - 1])
  }

  /** The first `n` rows of the newest-first log table (a queryset slice `[:n]`). */
  function Latest(logs: seq<DeploymentLog>, n: nat): (r: seq<DeploymentLog>)
    ensures |r| == if |logs| < n then |logs| else n
    ensures forall i :: 0 <= i < |r| ==> r[i] == logs[|logs| - 1 - i]
  {
    var all := NewestFirst(logs);
    if |all| <= n then all else all[..n]
  }
}
