/**
 * The port state query (netconf_lib/nokia_interfaces.py): fetch the state
 * subtree `state/port` and turn every `port` element of the SR OS state
 * namespace into a five-field record.
 */
module NokiaInterfaces {
  import opened Wrappers
  import opened Xml
  import opened Netconf
  import opened DeviceModels
  import NokiaFdb

  const PORT_TAG := "{" + NokiaFdb.STATE_NS + "}port"
  /** The subtree filter sent with `get`, layout included. */
  const PORT_FILTER := "\n    <state xmlns=\"urn:nokia.com:sros:ns:yang:sr:state\">\n      <port/>\n    </state>\n    "

  datatype Interface = Interface(
    name: string, description: string, adminStatus: string, operStatus: string, speed: string)

  /** What `get_interfaces` returns: an `error` key only on failure. */
  datatype InterfacesResult = InterfacesResult(error: Option<string>, interfaces: seq<Interface>)

  /** The children of the port's `ethernet` children, in document order. */
  function EthernetChildren(cs: seq<Element>): seq<Element> {
    if cs == [] then []
    else
      EthernetChildren(cs[..|cs| - 1])
        + (if LocalName(cs[|cs| - 1].tag) == "ethernet" then cs[|cs| - 1].children else [])
  }

  /**
   * The record a `port` element yields: each field is the text of the last
   * child with the matching local name (`port-id`, `description`,
   * `admin-state`, `oper-state`), and `speed` that of the last `speed` found
   * directly inside an `ethernet` child; `""` when there is none.
   */
  function InterfaceOf(port: Element): Interface {
    RecordOf(port.children)
  }

  function RecordOf(cs: seq<Element>): Interface {
    Interface(FieldText(cs, "port-id"), FieldText(cs, "description"), FieldText(cs, "admin-state"),
              FieldText(cs, "oper-state"), FieldText(EthernetChildren(cs), "speed"))
  }

  /** The speed after an `ethernet` child: its last `speed` child's, or unchanged. */
  function SpeedAfter(speed: string, ecs: seq<Element>): string {
    if LastIndex(ecs, "speed") < 0 then speed else FieldText(ecs, "speed")
  }

  /** What one child of the port does to the record built so far. */
  function Step(iface: Interface, child: Element): Interface {
    var tag := LocalName(child.tag);
    if tag == "port-id" then iface.(name := TextOrEmpty(child))
    else if tag == "description" then iface.(description := TextOrEmpty(child))
    else if tag == "admin-state" then iface.(adminStatus := TextOrEmpty(child))
    else if tag == "oper-state" then iface.(operStatus := TextOrEmpty(child))
    else if tag == "ethernet" then iface.(speed := SpeedAfter(iface.speed, child.children))
    else iface
  }

  /** The field-by-field description agrees with overwriting child by child. */
  lemma RecordSnoc(cs: seq<Element>, c: Element)
    ensures RecordOf(cs + [c]) == Step(RecordOf(cs), c)
  {
    assert (cs + [c])[..|cs|] == cs;
    FieldTextSnoc(cs, c, "port-id");
    FieldTextSnoc(cs, c, "description");
    FieldTextSnoc(cs, c, "admin-state");
    FieldTextSnoc(cs, c, "oper-state");
    var before := EthernetChildren(cs);
    if LocalName(c.tag) == "ethernet" {
      assert EthernetChildren(cs + [c]) == before + c.children;
      SpeedAppend(before, c.children);
    } else {
      assert EthernetChildren(cs + [c]) == before;
    }
  }

  /** One more element inside `ethernet` either sets the speed or leaves it. */
  lemma SpeedAfterSnoc(speed: string, ecs: seq<Element>, c: Element)
    ensures SpeedAfter(speed, ecs + [c])
      == if LocalName(c.tag) == "speed" then TextOrEmpty(c) else SpeedAfter(speed, ecs)
  {
    assert (ecs + [c])[..|ecs|] == ecs;
    FieldTextSnoc(ecs, c, "speed");
  }

  /** Reading on past an `ethernet` child's elements is `SpeedAfter`. */
  lemma {:induction false} SpeedAppend(a: seq<Element>, b: seq<Element>)
    ensures FieldText(a + b, "speed") == SpeedAfter(FieldText(a, "speed"), b)
    decreases |b|
  {
    if b == [] {
      assert a + b == a;
    } else {
      var b', last := b[..|b| - 1], b[|b| - 1];
      assert a + b == (a + b') + [last];
      assert b == b' + [last];
      SpeedAppend(a, b');
      FieldTextSnoc(a + b', last, "speed");
      SpeedAfterSnoc(FieldText(a, "speed"), b', last);
    }
  }

  /** One record per `port` element, in order. */
  function InterfacesOf(ports: seq<Element>): seq<Interface> {
    if ports == [] then []
    else InterfacesOf(ports[..|ports| - 1]) + [InterfaceOf(ports[|ports| - 1])]
  }

  /** `_parse_interfaces`'s list: empty when the payload is not well-formed XML. */
  function ParsedInterfaces(doc: Option<Element>): seq<Interface> {
    match doc
    case None => []
    case Some(root) => InterfacesOf(IterTag(root, PORT_TAG))
  }

  /** The k-th record is that of the k-th `port` element; none is dropped. */
  lemma {:induction false} InterfacesInOrder(ports: seq<Element>)
    ensures |InterfacesOf(ports)| == |ports|
    ensures forall k :: 0 <= k < |ports| ==> InterfacesOf(ports)[k] == InterfaceOf(ports[k])
  {
    if ports != [] {
      InterfacesInOrder(ports[..|ports| - 1]);
    }
  }

  /**
   * A child whose local name is none of the five the parser knows, such as a
   * `speed` directly under the port, changes nothing.
   */
  lemma UnrecognisedChildIgnored(tag: string, text: Option<string>, cs: seq<Element>, c: Element)
    requires LocalName(c.tag) !in ["port-id", "description", "admin-state", "oper-state", "ethernet"]
    ensures InterfaceOf(Element(tag, text, cs + [c])) == InterfaceOf(Element(tag, text, cs))
  {
    FieldTextSnoc(cs, c, "port-id");
    FieldTextSnoc(cs, c, "description");
    FieldTextSnoc(cs, c, "admin-state");
    FieldTextSnoc(cs, c, "oper-state");
    assert LocalName(c.tag) != "ethernet";
    assert (cs + [c])[..|cs|] == cs;
    assert EthernetChildren(cs + [c]) == EthernetChildren(cs);
  }

  /** `_parse_interfaces`, given the result of `ElementTree.fromstring`. */
  method ParseInterfaces(doc: Option<Element>) returns (interfaces: seq<Interface>)
    ensures interfaces == ParsedInterfaces(doc)
  {
    interfaces := [];
    if doc.None? {
      return;
    }
    var ports := IterTag(doc.value, PORT_TAG);
    interfaces := ParsePorts(ports);
  }

  /** The outer loop of `_parse_interfaces`: one record per element, appended in order. */
  method ParsePorts(ports: seq<Element>) returns (interfaces: seq<Interface>)
    ensures interfaces == InterfacesOf(ports)
  {
    interfaces := [];
    for i := 0 to |ports|
      invariant interfaces == InterfacesOf(ports[..i])
    {
      var iface := ParsePort(ports[i]);
      assert ports[..i + 1][..i] == ports[..i];
      interfaces := interfaces + [iface];
    }
    assert ports[..|ports|] == ports;
  }

  /** The body of `_parse_interfaces`'s loop: one `port` element's record. */
  method ParsePort(port: Element) returns (iface: Interface)
    ensures iface == InterfaceOf(port)
  {
    var cs := port.children;
    iface := Interface("", "", "", "", "");
    RecordEmpty(cs);
    for j := 0 to |cs|
      invariant iface == RecordOf(cs[..j])
    {
      RecordStep(cs, j);
      iface := ReadChild(iface, cs[j]);
    }
    assert cs[..|cs|] == cs;
  }

  /** Before any child is read every field is `""`. */
  lemma RecordEmpty(cs: seq<Element>)
    ensures RecordOf(cs[..0]) == Interface("", "", "", "", "")
  {
    assert cs[..0] == [];
  }

  /** Reading child `j` takes the record of the first `j` children to that of the first `j + 1`. */
  lemma RecordStep(cs: seq<Element>, j: nat)
    requires j < |cs|
    ensures RecordOf(cs[..j + 1]) == Step(RecordOf(cs[..j]), cs[j])
  {
    assert cs[..j + 1] == cs[..j] + [cs[j]];
    RecordSnoc(cs[..j], cs[j]);
  }

  /** One pass of the loop over the port's children, by the child's local name. */
  method ReadChild(iface: Interface, child: Element) returns (r: Interface)
    ensures r == Step(iface, child)
  {
    r := iface;
    var tag := LocalName(child.tag);
    if tag == "port-id" {
      r := r.(name := TextOrEmpty(child));
    } else if tag == "description" {
      r := r.(description := TextOrEmpty(child));
    } else if tag == "admin-state" {
      r := r.(adminStatus := TextOrEmpty(child));
    } else if tag == "oper-state" {
      r := r.(operStatus := TextOrEmpty(child));
    } else if tag == "ethernet" {
      var speed := EthernetSpeed(r.speed, child.children);
      r := r.(speed := speed);
    }
  }

  /**
   * The inner loop over an `ethernet` child: each `speed` element directly
   * inside it overwrites the speed read so far.
   */
  method EthernetSpeed(speed: string, ecs: seq<Element>) returns (r: string)
    ensures r == SpeedAfter(speed, ecs)
  {
    r := speed;
    assert ecs[..0] == [];
    for k := 0 to |ecs|
      invariant r == SpeedAfter(speed, ecs[..k])
    {
      SpeedStep(speed, ecs, k);
      var ethTag := LocalName(ecs[k].tag);
      if ethTag == "speed" {
        r := TextOrEmpty(ecs[k]);
      }
    }
    assert ecs[..|ecs|] == ecs;
  }

  /** Reading element `k` inside `ethernet` either sets the speed or leaves it. */
  lemma SpeedStep(speed: string, ecs: seq<Element>, k: nat)
    requires k < |ecs|
    ensures SpeedAfter(speed, ecs[..k + 1])
      == if LocalName(ecs[k].tag) == "speed" then TextOrEmpty(ecs[k]) else SpeedAfter(speed, ecs[..k])
  {
    assert ecs[..k + 1] == ecs[..k] + [ecs[k]];
    SpeedAfterSnoc(speed, ecs[..k], ecs[k]);
  }

  /**
   * `get_interfaces`: query inside a session and parse. Every exception from
   * connecting or from `get` becomes an `error` with an empty list; a
   * malformed payload is an empty list without error.
   */
  method GetInterfaces(device: Device, decrypt: Decrypt, peer: Peer)
    returns (r: InterfacesResult, calls: seq<Rpc>)
    ensures var err := ConnectError(decrypt(device.encryptedPassword), peer);
      && (err.Some? ==> r == InterfacesResult(err, []) && calls == [])
      && (err.None? ==> calls == [RpcGet(PORT_FILTER), RpcCloseSession] && ClosedOnce(calls))
      && (err.None? && peer.get.GetRaised? ==> r == InterfacesResult(Some(peer.get.msg), []))
      && (err.None? && peer.get.Data? ==> r == InterfacesResult(None, ParsedInterfaces(peer.get.doc)))
  {
    var c := Connect(device, decrypt, peer);
    if c.Refused? {
      return InterfacesResult(Some(c.msg), []), [];
    }
    var mgr := c.mgr;
    var reply := mgr.Get(PORT_FILTER);
    if reply.GetRaised? {
      r := InterfacesResult(Some(reply.msg), []);
    } else {
      var interfaces := ParseInterfaces(reply.doc);
      r := InterfacesResult(None, interfaces);
    }
    mgr.CloseSession();
    calls := mgr.calls;
  }
}
