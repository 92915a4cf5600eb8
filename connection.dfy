/**
 * NETCONF session handling (netconf_lib/connection.py): opening a session to
 * a device with its address, port, user and decrypted password, and closing
 * it exactly once when the work done inside it ends.
 *
 * The transport itself is not modelled. A `Peer` says how the device will
 * answer during one session (or that connecting fails), and a `Manager`
 * records every RPC it is asked to send, so that callers can state the order
 * and number of calls.
 */
module Netconf {
  import opened Wrappers
  import Xml
  import opened DeviceModels

  /** Fernet decryption with the process-wide key; `None` is `InvalidToken`. */
  type Decrypt = seq<bv8> -> Option<string>

  /** `str()` of Fernet's `InvalidToken`, which carries no message. */
  const INVALID_TOKEN_MSG := ""
  const CONNECT_TIMEOUT := 30
  /** ncclient's device handler for Nokia SR OS. */
  const DEVICE_HANDLER := "alu"
  const CANDIDATE := "candidate"

  datatype ConnectParams = ConnectParams(
    host: string, port: int, username: string, password: string,
    hostkeyVerify: bool, deviceHandler: string, timeout: int)

  /** How the device answers one edit, commit or discard RPC. */
  datatype Reply =
    | Ok
    | RpcRejected(msg: string)  // an `rpc-error` reply: ncclient's RPCError
    | Failure(msg: string)      // any other exception: transport drop, timeout

  /** How the device answers one `get`: the parsed payload, or an exception. */
  datatype GetReply = Data(doc: Option<Xml.Element>) | GetRaised(msg: string)

  /**
   * The device's behaviour during one session: whether `manager.connect`
   * raises, and how each RPC is answered.
   */
  datatype Peer = Peer(refuse: Option<string>, get: GetReply, edit: Reply, commit: Reply, discard: Reply)

  /** The RPCs a session sends, in the order sent. */
  datatype Rpc =
    | RpcGet(filter: string)
    | RpcEditConfig(target: string, config: string)
    | RpcCommit
    | RpcDiscardChanges
    | RpcCloseSession

  /**
   * Why no session comes into existence, if none does: the password cannot be
   * decrypted, or `manager.connect` raises.
   */
  function ConnectError(secret: Option<string>, peer: Peer): (r: Option<string>)
    ensures r.None? <==> secret.Some? && peer.refuse.None?
    ensures secret.None? ==> r == Some(INVALID_TOKEN_MSG)
  {
    if secret.None? then Some(INVALID_TOKEN_MSG) else peer.refuse
  }

  /** A session trace that ends with the one and only `close-session`. */
  predicate ClosedOnce(calls: seq<Rpc>) {
    1 <= |calls| && calls[|calls| - 1] == RpcCloseSession && RpcCloseSession !in calls[..|calls| - 1]
  }

  /** An open ncclient manager: the session object handed to the `with` body. */
  class Manager {
    const params: ConnectParams
    const peer: Peer
    /** Every RPC sent so far, oldest first. */
    var calls: seq<Rpc>
    var open: bool

    constructor (params: ConnectParams, peer: Peer)
      ensures this.params == params && this.peer == peer
      ensures calls == [] && open
    {
      this.params := params;
      this.peer := peer;
      calls := [];
      open := true;
    }

    method Get(filter: string) returns (r: GetReply)
      requires open
      modifies this`calls
      ensures calls == old(calls) + [RpcGet(filter)]
      ensures r == peer.get
    {
      calls := calls + [RpcGet(filter)];
      r := peer.get;
    }

    method EditConfig(target: string, config: string) returns (r: Reply)
      requires open
      modifies this`calls
      ensures calls == old(calls) + [RpcEditConfig(target, config)]
      ensures r == peer.edit
    {
      calls := calls + [RpcEditConfig(target, config)];
      r := peer.edit;
    }

    method Commit() returns (r: Reply)
      requires open
      modifies this`calls
      ensures calls == old(calls) + [RpcCommit]
      ensures r == peer.commit
    {
      calls := calls + [RpcCommit];
      r := peer.commit;
    }

    method DiscardChanges() returns (r: Reply)
      requires open
      modifies this`calls
      ensures calls == old(calls) + [RpcDiscardChanges]
      ensures r == peer.discard
    {
      calls := calls + [RpcDiscardChanges];
      r := peer.discard;
    }

    /** The `finally` of the context manager. */
    method CloseSession()
      requires open
      modifies this
      ensures !open && calls == old(calls) + [RpcCloseSession]
    {
      calls := calls + [RpcCloseSession];
      open := false;
    }
  }

  /** The result of entering `netconf_connect(device)`. */
  datatype Connection = Connected(mgr: Manager) | Refused(msg: string)

  /**
   * `netconf_connect(device)` up to its `yield`: decrypt the password, then
   * open a fresh session with fixed timeout and no host-key check. When
   * either step raises there is no session and nothing to close.
   */
  method Connect(device: Device, decrypt: Decrypt, peer: Peer) returns (c: Connection)
    ensures c.Refused? <==> ConnectError(decrypt(device.encryptedPassword), peer).Some?
    ensures c.Refused? ==> ConnectError(decrypt(device.encryptedPassword), peer) == Some(c.msg)
    ensures c.Connected? ==>
      && fresh(c.mgr) && c.mgr.open && c.mgr.calls == [] && c.mgr.peer == peer
      && c.mgr.params == ConnectParams(device.profile.hostname, device.profile.port, device.profile.username,
                                       decrypt(device.encryptedPassword).value,
                                       false, DEVICE_HANDLER, CONNECT_TIMEOUT)
  {
    var secret := decrypt(device.encryptedPassword);
    if secret.None? {
      return Refused(INVALID_TOKEN_MSG);
    }
    if peer.refuse.Some? {
      return Refused(peer.refuse.value);
    }
    var params := ConnectParams(device.profile.hostname, device.profile.port, device.profile.username, secret.value,
                                false, DEVICE_HANDLER, CONNECT_TIMEOUT);
    var mgr := new Manager(params, peer);
    c := Connected(mgr);
  }
}
