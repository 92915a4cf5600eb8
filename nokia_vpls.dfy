/**
 * VPLS configuration pushes (netconf_lib/nokia_vpls.py): render a document
 * from a template, send it as an `edit-config` on the candidate datastore,
 * commit, and discard the candidate when the device rejects either step.
 *
 * Template rendering is a parameter: a pure function from the template and
 * its arguments to the document text, so identical arguments always give the
 * identical document. The template texts themselves are not part of this
 * model.
 */
module NokiaVpls {
  import opened Wrappers
  import opened Netconf
  import opened DeviceModels

  /** One `{"port": ..., "vlan": ...}` item of the `saps` template argument. */
  datatype SapParam = SapParam(port: string, vlan: int)

  /** A template and the arguments it is rendered with. */
  datatype TemplateCall =
    | VplsCreate(serviceId: int, serviceName: string, customerId: int, description: string,
                 saps: seq<SapParam>)                          // vpls_create.xml
    | VplsDelete(serviceId: int)                               // vpls_delete.xml
    | VplsSap(serviceId: int, port: string, vlan: int)         // vpls_sap.xml

  /** Jinja2's `template.render(...)` for the three templates. */
  type Renderer = TemplateCall -> string

  datatype ApplyStatus = Success | Failed

  /** The dict every push returns: `status`, `config_sent`, `response`. */
  datatype ApplyResult = ApplyResult(status: ApplyStatus, configSent: string, response: string)

  const COMMITTED := "Committed"

  /** The device answers the edit, or the commit after an accepted edit, with an `rpc-error`. */
  predicate Rejected(peer: Peer) {
    peer.edit.RpcRejected? || (peer.edit.Ok? && peer.commit.RpcRejected?)
  }

  /** The `rpc-error` text of that rejection. */
  function RejectionText(peer: Peer): string
    requires Rejected(peer)
  {
    if peer.edit.RpcRejected? then peer.edit.msg else peer.commit.msg
  }

  /** The `except RPCError` branch: discard, then report the rejection. */
  function AfterRejection(peer: Peer, config: string): Outcome<ApplyResult>
    requires Rejected(peer)
  {
    match peer.discard
    case Ok => Returned(ApplyResult(Failed, config, RejectionText(peer)))
    case RpcRejected(m) => Raised(m)
    case Failure(m) => Raised(m)
  }

  /**
   * How one push ends, given why no session could be opened (if so) and how
   * the device answers. Only `RPCError` is caught; every other exception
   * (connect failure, transport failure, a failing discard) reaches the
   * caller.
   */
  function ApplyOutcome(connErr: Option<string>, peer: Peer, config: string): (r: Outcome<ApplyResult>)
    ensures r.Returned? ==> r.value.configSent == config
    ensures r.Returned? && r.value.status == Success <==>
      connErr.None? && peer.edit.Ok? && peer.commit.Ok?
    ensures r.Returned? && r.value.status == Success ==> r.value.response == COMMITTED
    ensures r.Returned? && r.value.status == Failed <==>
      connErr.None? && Rejected(peer) && peer.discard.Ok?
    ensures r.Returned? && r.value.status == Failed ==> r.value.response == RejectionText(peer)
    ensures connErr.Some? ==> r == Raised(connErr.value)
  {
    if connErr.Some? then Raised(connErr.value)
    else
      match peer.edit
      case Failure(m) => Raised(m)
      case RpcRejected(_) => AfterRejection(peer, config)
      case Ok =>
        match peer.commit
        case Failure(m) => Raised(m)
        case RpcRejected(_) => AfterRejection(peer, config)
        case Ok => Returned(ApplyResult(Success, config, COMMITTED))
  }

  /**
   * The RPCs one push sends: nothing without a session; otherwise the edit
   * on the candidate datastore, the commit only after an accepted edit, the
   * discard only after a rejection, and the one close at the end.
   */
  function ApplyTrace(connErr: Option<string>, peer: Peer, config: string): (r: seq<Rpc>)
    ensures r == [] <==> connErr.Some?
    ensures r != [] ==> ClosedOnce(r) && r[0] == RpcEditConfig(CANDIDATE, config)
    ensures RpcCommit in r <==> connErr.None? && peer.edit.Ok?
    ensures RpcDiscardChanges in r <==> connErr.None? && Rejected(peer)
    ensures RpcDiscardChanges in r ==> |r| >= 3 && r[|r| - 2] == RpcDiscardChanges
    ensures connErr.None? && peer.edit.Ok? && peer.commit.Ok? ==>
      r == [RpcEditConfig(CANDIDATE, config), RpcCommit, RpcCloseSession]
  {
    if connErr.Some? then []
    else
      [RpcEditConfig(CANDIDATE, config)]
        + (if peer.edit.Ok? then [RpcCommit] else [])
        + (if Rejected(peer) then [RpcDiscardChanges] else [])
        + [RpcCloseSession]
  }

  /**
   * The shared body of `create_vpls`, `delete_vpls` and `add_sap` once the
   * document is rendered: inside `netconf_connect`, edit, commit, and on
   * `RPCError` discard; the session is closed on every path.
   */
  method Apply(device: Device, decrypt: Decrypt, peer: Peer, config: string)
    returns (out: Outcome<ApplyResult>, calls: seq<Rpc>)
    ensures var err := ConnectError(decrypt(device.encryptedPassword), peer);
      out == ApplyOutcome(err, peer, config) && calls == ApplyTrace(err, peer, config)
  {
    var c := Connect(device, decrypt, peer);
    if c.Refused? {
      return Raised(c.msg), [];
    }
    var mgr := c.mgr;
    var rpcError := false;
    var edit := mgr.EditConfig(CANDIDATE, config);
    if edit.Failure? {
      out := Raised(edit.msg);
    } else if edit.RpcRejected? {
      rpcError := true;
    } else {
      var commit := mgr.Commit();
      if commit.Failure? {
        out := Raised(commit.msg);
      } else if commit.RpcRejected? {
        rpcError := true;
      } else {
        out := Returned(ApplyResult(Success, config, COMMITTED));
      }
    }
    if rpcError {
      var discard := mgr.DiscardChanges();
      out := if discard.Ok? then Returned(ApplyResult(Failed, config, RejectionText(peer)))
             else Raised(discard.msg);
    }
    mgr.CloseSession();
    calls := mgr.calls;
  }

  /** The `vpls_create.xml` arguments; `saps=None` renders as an empty list. */
  function CreateCall(serviceId: int, serviceName: string, customerId: int,
                      saps: Option<seq<SapParam>>, description: string): (t: TemplateCall)
    ensures t.VplsCreate? && t.serviceId == serviceId && t.serviceName == serviceName
    ensures t.customerId == customerId && t.description == description
    ensures saps.None? ==> t.saps == []
    ensures saps.Some? ==> t.saps == saps.value
  {
    VplsCreate(serviceId, serviceName, customerId, description, saps.GetOr([]))
  }

  /** `create_vpls`: render, then push. */
  method CreateVpls(device: Device, decrypt: Decrypt, peer: Peer, render: Renderer,
                    serviceId: int, serviceName: string, customerId: int,
                    saps: Option<seq<SapParam>>, description: string)
    returns (out: Outcome<ApplyResult>, calls: seq<Rpc>)
    ensures var err := ConnectError(decrypt(device.encryptedPassword), peer);
      var config := render(CreateCall(serviceId, serviceName, customerId, saps, description));
      out == ApplyOutcome(err, peer, config) && calls == ApplyTrace(err, peer, config)
  {
    var config := render(CreateCall(serviceId, serviceName, customerId, saps, description));
    out, calls := Apply(device, decrypt, peer, config);
  }

  /** `delete_vpls`: render with the service id only, then push. */
  method DeleteVpls(device: Device, decrypt: Decrypt, peer: Peer, render: Renderer, serviceId: int)
    returns (out: Outcome<ApplyResult>, calls: seq<Rpc>)
    ensures var err := ConnectError(decrypt(device.encryptedPassword), peer);
      var config := render(VplsDelete(serviceId));
      out == ApplyOutcome(err, peer, config) && calls == ApplyTrace(err, peer, config)
  {
    var config := render(VplsDelete(serviceId));
    out, calls := Apply(device, decrypt, peer, config);
  }

  /** `add_sap`: render with service id, port and VLAN, then push. */
  method AddSap(device: Device, decrypt: Decrypt, peer: Peer, render: Renderer,
                serviceId: int, port: string, vlan: int)
    returns (out: Outcome<ApplyResult>, calls: seq<Rpc>)
    ensures var err := ConnectError(decrypt(device.encryptedPassword), peer);
      var config := render(VplsSap(serviceId, port, vlan));
      out == ApplyOutcome(err, peer, config) && calls == ApplyTrace(err, peer, config)
  {
    var config := render(VplsSap(serviceId, port, vlan));
    out, calls := Apply(device, decrypt, peer, config);
  }
}
