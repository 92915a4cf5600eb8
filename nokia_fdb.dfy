/**
 * The MAC forwarding table query (netconf_lib/nokia_fdb.py): fetch the
 * state subtree `state/service/vpls/fdb` and turn every `mac` element of the
 * SR OS state namespace into a four-field record.
 */
module NokiaFdb {
  import opened Wrappers
  import opened Xml
  import Text
  import opened Netconf
  import opened DeviceModels

  const STATE_NS := "urn:nokia.com:sros:ns:yang:sr:state"
  const MAC_TAG := "{" + STATE_NS + "}mac"
  /** The subtree filter sent with `get`, layout included. */
  const FDB_FILTER :=
    "\n    <state xmlns=\"urn:nokia.com:sros:ns:yang:sr:state\">\n      <service>\n        <vpls>\n"
    + "          <fdb/>\n        </vpls>\n      </service>\n    </state>\n    "

  /**
   * One FDB row. The parser fills the four text fields; `interfaceDesc` is
   * the key the monitoring views add later, absent (`None`) until then.
   */
  datatype FdbEntry = FdbEntry(
    macAddress: string, sap: string, serviceId: string, entryType: string,
    interfaceDesc: Option<string>)

  /** What `get_fdb_table` returns: an `error` key only on failure. */
  datatype FdbResult = FdbResult(error: Option<string>, entries: seq<FdbEntry>)

  /**
   * The record a `mac` element yields: each field is the text of the last
   * child with that local name, `""` when there is none or it has no text.
   */
  function EntryOf(mac: Element): FdbEntry {
    EntryFrom(mac.children)
  }

  function EntryFrom(cs: seq<Element>): FdbEntry {
    FdbEntry(FieldText(cs, "address"), FieldText(cs, "sap"), FieldText(cs, "service-id"), FieldText(cs, "type"), None)
  }

  /** What one child of the `mac` element does to the entry built so far. */
  function Step(entry: FdbEntry, child: Element): FdbEntry {
    var tag := LocalName(child.tag);
    if tag == "address" then entry.(macAddress := TextOrEmpty(child))
    else if tag == "sap" then entry.(sap := TextOrEmpty(child))
    else if tag == "service-id" then entry.(serviceId := TextOrEmpty(child))
    else if tag == "type" then entry.(entryType := TextOrEmpty(child))
    else entry
  }

  /** The field-by-field description agrees with overwriting child by child. */
  lemma EntrySnoc(cs: seq<Element>, c: Element)
    ensures EntryFrom(cs + [c]) == Step(EntryFrom(cs), c)
  {
    FieldTextSnoc(cs, c, "address");
    FieldTextSnoc(cs, c, "sap");
    FieldTextSnoc(cs, c, "service-id");
    FieldTextSnoc(cs, c, "type");
  }

  /** Reading child `j` takes the entry of the first `j` children to that of the first `j + 1`. */
  lemma EntryStep(cs: seq<Element>, j: nat)
    requires j < |cs|
    ensures EntryFrom(cs[..j + 1]) == Step(EntryFrom(cs[..j]), cs[j])
  {
    assert cs[..j + 1] == cs[..j] + [cs[j]];
    EntrySnoc(cs[..j], cs[j]);
  }

  /** Before any child is read every field is `""`. */
  lemma EntryEmpty(cs: seq<Element>)
    ensures EntryFrom(cs[..0]) == FdbEntry("", "", "", "", None)
  {
    assert cs[..0] == [];
  }

  /** Taking element `i` into account appends its entry when the filter keeps it. */
  lemma EntriesStep(macs: seq<Element>, i: nat, serviceId: Option<int>)
    requires i < |macs|
    ensures Entries(macs[..i + 1], serviceId)
      == Entries(macs[..i], serviceId) + (if Keeps(serviceId, EntryOf(macs[i])) then [EntryOf(macs[i])] else [])
  {
    assert macs[..i + 1][..i] == macs[..i];
  }

  /**
   * The `service_id` filter: a falsy argument (`None`, `0`) keeps everything;
   * otherwise the entry's text must equal `str(service_id)`.
   */
  predicate Keeps(serviceId: Option<int>, e: FdbEntry) {
    serviceId.None? || serviceId.value == 0 || e.serviceId == Text.IntStr(serviceId.value)
  }

  /** The entries the `mac` elements `macs` yield, filtered, in order. */
  function Entries(macs: seq<Element>, serviceId: Option<int>): seq<FdbEntry> {
    if macs == [] then []
    else
      var e := EntryOf(macs[|macs| - 1]);
      Entries(macs[..|macs| - 1], serviceId) + (if Keeps(serviceId, e) then [e] else [])
  }

  /** `_parse_fdb`'s list: empty when the payload is not well-formed XML. */
  function ParsedEntries(doc: Option<Element>, serviceId: Option<int>): seq<FdbEntry> {
    match doc
    case None => []
    case Some(root) => Entries(IterTag(root, MAC_TAG), serviceId)
  }

  /** Keeps only the entries the filter accepts. */
  function FilterEntries(es: seq<FdbEntry>, serviceId: Option<int>): seq<FdbEntry> {
    if es == [] then []
    else
      FilterEntries(es[..|es| - 1], serviceId)
        + (if Keeps(serviceId, es[|es| - 1]) then [es[|es| - 1]] else [])
  }

  /** Unfiltered, the k-th entry is the record of the k-th `mac` element. */
  lemma {:induction false} UnfilteredEntries(macs: seq<Element>)
    ensures |Entries(macs, None)| == |macs|
    ensures forall k :: 0 <= k < |macs| ==> Entries(macs, None)[k] == EntryOf(macs[k])
  {
    if macs != [] {
      UnfilteredEntries(macs[..|macs| - 1]);
    }
  }

  /** Filtering happens after parsing: it only drops records. */
  lemma {:induction false} FilterAfterParse(macs: seq<Element>, serviceId: Option<int>)
    ensures Entries(macs, serviceId) == FilterEntries(Entries(macs, None), serviceId)
  {
    if macs != [] {
      var init := macs[..|macs| - 1];
      FilterAfterParse(init, serviceId);
      var all := Entries(macs, None);
      assert all[..|all| - 1] == Entries(init, None);
    }
  }

  /** With a truthy id, every kept entry carries exactly `str(service_id)`. */
  lemma {:induction false} FilteredById(macs: seq<Element>, id: int)
    requires id != 0
    ensures forall e :: e in Entries(macs, Some(id)) <==>
      e in Entries(macs, None) && e.serviceId == Text.IntStr(id)
  {
    if macs != [] {
      FilteredById(macs[..|macs| - 1], id);
    }
  }

  /** `None` and `0` are equally falsy: neither filters anything. */
  lemma {:induction false} FalsyFilterKeepsAll(macs: seq<Element>)
    ensures Entries(macs, Some(0)) == Entries(macs, None)
  {
    if macs != [] {
      FalsyFilterKeepsAll(macs[..|macs| - 1]);
    }
  }

  /** `_parse_fdb`, given the result of `ElementTree.fromstring`. */
  method ParseFdb(doc: Option<Element>, serviceId: Option<int>) returns (entries: seq<FdbEntry>)
    ensures entries == ParsedEntries(doc, serviceId)
  {
    entries := [];
    if doc.None? {
      return;
    }
    var macs := IterTag(doc.value, MAC_TAG);
    entries := ParseMacs(macs, serviceId);
  }

  /** The outer loop of `_parse_fdb`: one entry per element, kept or skipped by the filter. */
  method ParseMacs(macs: seq<Element>, serviceId: Option<int>) returns (entries: seq<FdbEntry>)
    ensures entries == Entries(macs, serviceId)
  {
    entries := [];
    for i := 0 to |macs|
      invariant entries == Entries(macs[..i], serviceId)
    {
      var entry := ParseMac(macs[i]);
      EntriesStep(macs, i, serviceId);
      if Keeps(serviceId, entry) {
        entries := entries + [entry];
      }
    }
    assert macs[..|macs|] == macs;
  }

  /** The body of the outer loop: one `mac` element's record. */
  method ParseMac(mac: Element) returns (entry: FdbEntry)
    ensures entry == EntryOf(mac)
  {
    var cs := mac.children;
    entry := FdbEntry("", "", "", "", None);
    EntryEmpty(cs);
    for j := 0 to |cs|
      invariant entry == EntryFrom(cs[..j])
    {
      EntryStep(cs, j);
      entry := ReadChild(entry, cs[j]);
    }
    assert cs[..|cs|] == cs;
  }

  /** One pass of the loop over the element's children, by the child's local name. */
  method ReadChild(entry: FdbEntry, child: Element) returns (r: FdbEntry)
    ensures r == Step(entry, child)
  {
    r := entry;
    var tag := LocalName(child.tag);
    if tag == "address" {
      r := r.(macAddress := TextOrEmpty(child));
    } else if tag == "sap" {
      r := r.(sap := TextOrEmpty(child));
    } else if tag == "service-id" {
      r := r.(serviceId := TextOrEmpty(child));
    } else if tag == "type" {
      r := r.(entryType := TextOrEmpty(child));
    }
  }

  /**
   * `get_fdb_table`: query inside a session and parse. Every exception from
   * connecting or from `get` becomes an `error` with an empty list; a
   * malformed payload is an empty list without error.
   */
  method GetFdbTable(device: Device, decrypt: Decrypt, peer: Peer, serviceId: Option<int>)
    returns (r: FdbResult, calls: seq<Rpc>)
    ensures var err := ConnectError(decrypt(device.encryptedPassword), peer);
      && (err.Some? ==> r == FdbResult(err, []) && calls == [])
      && (err.None? ==> calls == [RpcGet(FDB_FILTER), RpcCloseSession] && ClosedOnce(calls))
      && (err.None? && peer.get.GetRaised? ==> r == FdbResult(Some(peer.get.msg), []))
      && (err.None? && peer.get.Data? ==> r == FdbResult(None, ParsedEntries(peer.get.doc, serviceId)))
  {
    var c := Connect(device, decrypt, peer);
    if c.Refused? {
      return FdbResult(Some(c.msg), []), [];
    }
    var mgr := c.mgr;
    var reply := mgr.Get(FDB_FILTER);
    if reply.GetRaised? {
      r := FdbResult(Some(reply.msg), []);
    } else {
      var entries := ParseFdb(reply.doc, serviceId);
      r := FdbResult(None, entries);
    }
    mgr.CloseSession();
    calls := mgr.calls;
  }
}
