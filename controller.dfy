/**
 * The <controller> element (domain.go:1284-1437): the hand-written codec of
 * the PCI controller's <target> child, and the controller's own dispatch on
 * its `type` string, which picks the payload struct the generic engine
 * encodes or decodes alongside the common controller fields.
 */
module Controller {
  import opened Results
  import opened Xml
  import opened Numbers

  // ------------------------------------------------------ PCI target

  /** DomainControllerPCITarget. */
  datatype PCITarget = PCITarget(
    chassisNr: Option<uint64>, chassis: Option<uint64>, port: Option<uint64>,
    busNr: Option<uint64>, index: Option<uint64>, numaNode: Option<uint64>)

  const EmptyTarget := PCITarget(None, None, None, None, None, None)

  /** The attributes the target's encoder appends, all in decimal. */
  function TargetAttrs(t: PCITarget): seq<Attr> {
    UintAttr("chassisNr", t.chassisNr, Dec) + UintAttr("chassis", t.chassis, Dec) + UintAttr("port", t.port, Dec)
      + UintAttr("busNr", t.busNr, Dec) + UintAttr("index", t.index, Dec)
  }

  /** The <node> child the encoder writes when a NUMA node is set: start, decimal text, end. */
  function NodeTokens(numaNode: Option<uint64>): (r: seq<Token>)
    ensures numaNode.None? <==> r == []
    ensures numaNode.Some? ==>
      && |r| == 3 && r[0] == StartElement("node", []) && r[2] == EndElement("node")
      && r[1].CharData? && ParseUint(r[1].text, Base10) == Ok(numaNode.value)
  {
    match numaNode
    case None => []
    case Some(n) =>
      UnmarshalSprintf(n, Dec, Base10);
      [StartElement("node", []), CharData(Sprintf(Dec, n)), EndElement("node")]
  }

  /** DomainControllerPCITarget.MarshalXML: the start element with the attributes, the optional <node>, the end. */
  function MarshalTarget(t: PCITarget, name: string, start: seq<Attr>): (r: seq<Token>)
    ensures |r| >= 2 && r[0] == StartElement(name, start + TargetAttrs(t)) && r[|r| - 1] == EndElement(name)
    ensures r[1..|r| - 1] == NodeTokens(t.numaNode)
  {
    [StartElement(name, start + TargetAttrs(t))] + NodeTokens(t.numaNode) + [EndElement(name)]
  }

  /** One iteration of the target decoder's attribute loop; `port` is read with base 0, the rest in decimal. */
  function StepTarget(t: PCITarget, attr: Attr): Result<PCITarget> {
    if attr.name == "chassisNr" then
      var v :- UnmarshalUint(attr.value, Base10);
      Ok(t.(chassisNr := Some(v)))
    else if attr.name == "chassis" then
      var v :- UnmarshalUint(attr.value, Base10);
      Ok(t.(chassis := Some(v)))
    else if attr.name == "port" then
      var v :- UnmarshalUint(attr.value, Base0);
      Ok(t.(port := Some(v)))
    else if attr.name == "busNr" then
      var v :- UnmarshalUint(attr.value, Base10);
      Ok(t.(busNr := Some(v)))
    else if attr.name == "index" then
      var v :- UnmarshalUint(attr.value, Base10);
      Ok(t.(index := Some(v)))
    else Ok(t)
  }

  /**
   * The target decoder's token loop over the element's content: a <node>
   * start takes the token after it, and character data there is parsed in
   * decimal into the NUMA node; any other token after it is dropped. Every
   * other token is skipped. A <node> start with nothing after it is the
   * stream ending early.
   */
  function ScanNode(t: PCITarget, toks: seq<Token>): Result<PCITarget>
    decreases |toks|
  {
    if toks == [] then Ok(t)
    else if toks[0].StartElement? && toks[0].name == "node" then
      if |toks| == 1 then Err(UnexpectedEnd)
      else if toks[1].CharData? then
        var v :- ParseUint(toks[1].text, Base10);
        ScanNode(t.(numaNode := Some(v)), toks[2..])
      else ScanNode(t, toks[2..])
    else ScanNode(t, toks[1..])
  }

  /** DomainControllerPCITarget.UnmarshalXML into `from`: the attribute loop, then the token loop. */
  function DecodeTarget(from: PCITarget, attrs: seq<Attr>, content: seq<Token>): Result<PCITarget> {
    var t :- FoldAttrs(from, attrs, StepTarget);
    ScanNode(t, content)
  }

  /** DomainControllerPCITarget.UnmarshalXML, with both of its loops. */
  method UnmarshalTarget(from: PCITarget, attrs: seq<Attr>, content: seq<Token>) returns (r: Result<PCITarget>)
    ensures r == DecodeTarget(from, attrs, content)
  {
    var a := UnmarshalAttrs(from, attrs, StepTarget);
    if a.Err? {
      return Err(a.error);
    }
    var t := a.value;
    var i := 0;
    while i < |content|
      invariant 0 <= i <= |content|
      invariant ScanNode(t, content[i..]) == DecodeTarget(from, attrs, content)
      decreases |content| - i
    {
      var tok := content[i];
      i := i + 1;
      if tok.StartElement? && tok.name == "node" {
        if i == |content| {
          return Err(UnexpectedEnd);
        }
        var data := content[i];
        i := i + 1;
        if data.CharData? {
          var v := ParseUint(data.text, Base10);
          if v.Err? {
            return Err(v.error);
          }
          t := t.(numaNode := Some(v.value));
        }
      }
    }
    return Ok(t);
  }

  /** The token loop over what the encoder wrote for the NUMA node sets exactly that node. */
  lemma ScanNodeTokens(t: PCITarget, numaNode: Option<uint64>)
    requires t.numaNode.None?
    ensures ScanNode(t, NodeTokens(numaNode)) == Ok(t.(numaNode := numaNode))
  {
    if numaNode.Some? {
      var toks := NodeTokens(numaNode);
      assert toks[2..] == [EndElement("node")];
      assert ScanNode(t.(numaNode := numaNode), toks[2..]) == ScanNode(t.(numaNode := numaNode), []);
    }
  }

  /** The target's attribute loop reads back what its encoder wrote. */
  lemma TargetAttrsRoundTrip(t: PCITarget)
    ensures FoldAttrs(EmptyTarget, TargetAttrs(t), StepTarget) == Ok(t.(numaNode := None))
  {
    var a1, a2, a3 := UintAttr("chassisNr", t.chassisNr, Dec), UintAttr("chassis", t.chassis, Dec), UintAttr("port", t.port, Dec);
    var a4, a5 := UintAttr("busNr", t.busNr, Dec), UintAttr("index", t.index, Dec);
    var s1 := EmptyTarget.(chassisNr := t.chassisNr);
    var s2 := s1.(chassis := t.chassis);
    var s3 := s2.(port := t.port);
    var s4 := s3.(busNr := t.busNr);
    var s5 := s4.(index := t.index);
    assert FoldAttrs(EmptyTarget, a1, StepTarget) == Ok(s1) by {
      if t.chassisNr.Some? { UnmarshalSprintf(t.chassisNr.value, Dec, Base10); }
      FoldPiece(EmptyTarget, s1, a1, StepTarget);
    }
    assert FoldAttrs(s1, a2, StepTarget) == Ok(s2) by {
      if t.chassis.Some? { UnmarshalSprintf(t.chassis.value, Dec, Base10); }
      FoldPiece(s1, s2, a2, StepTarget);
    }
    assert FoldAttrs(s2, a3, StepTarget) == Ok(s3) by {
      if t.port.Some? { UnmarshalSprintf(t.port.value, Dec, Base0); }
      FoldPiece(s2, s3, a3, StepTarget);
    }
    assert FoldAttrs(s3, a4, StepTarget) == Ok(s4) by {
      if t.busNr.Some? { UnmarshalSprintf(t.busNr.value, Dec, Base10); }
      FoldPiece(s3, s4, a4, StepTarget);
    }
    assert FoldAttrs(s4, a5, StepTarget) == Ok(s5) by {
      if t.index.Some? { UnmarshalSprintf(t.index.value, Dec, Base10); }
      FoldPiece(s4, s5, a5, StepTarget);
    }
    FoldChain(EmptyTarget, a1, s1, a2, s2, StepTarget);
    FoldChain(EmptyTarget, a1 + a2, s2, a3, s3, StepTarget);
    FoldChain(EmptyTarget, a1 + a2 + a3, s3, a4, s4, StepTarget);
    FoldChain(EmptyTarget, a1 + a2 + a3 + a4, s4, a5, s5, StepTarget);
  }

  /**
   * Decoding the element the encoder wrote (on a start element with no
   * attributes of its own) into a fresh target gives back the same target.
   */
  lemma TargetRoundTrip(t: PCITarget, name: string)
    ensures var toks := MarshalTarget(t, name, []);
      DecodeTarget(EmptyTarget, toks[0].attrs, toks[1..|toks| - 1]) == Ok(t)
  {
    var toks := MarshalTarget(t, name, []);
    assert toks[0].attrs == TargetAttrs(t);
    TargetAttrsRoundTrip(t);
    ScanNodeTokens(t.(numaNode := None), t.numaNode);
  }

  // ------------------------------------------------------ controller

  /**
   * DomainController: `typ` is the Type field, `common` the fields the
   * engine encodes for every controller (index, model, driver, address),
   * and the three payloads are the pointers the engine does not see.
   */
  datatype DomainController = DomainController(
    typ: string, common: Body, pci: Option<Body>, usb: Option<Body>, virtioSerial: Option<Body>)

  /** The struct handed to the engine: the controller fields plus one of three payload types, or none. */
  datatype WireKind = PciWire | UsbWire | VirtioSerialWire | PlainWire

  /** What the engine encodes or decodes for a controller: the Type field, the common fields, the payload. */
  datatype Wire = Wire(typ: string, common: Body, payload: Body)

  /** The payload struct a controller type is paired with, by both hook directions. */
  function WireKindOf(typ: string): WireKind {
    if typ == "pci" then PciWire
    else if typ == "usb" then UsbWire
    else if typ == "virtio-serial" then VirtioSerialWire
    else PlainWire
  }

  /**
   * DomainController.MarshalXML: the payload matching Type goes to the
   * engine (a zero payload if its pointer is nil); payloads of other types
   * are not written at all. The element is always called "controller".
   */
  function MarshalController(c: DomainController): (r: (WireKind, Wire))
    ensures r.0 == WireKindOf(c.typ)
    ensures r.1.typ == c.typ && r.1.common == c.common
    ensures r.0 == PciWire ==> r.1.payload == c.pci.GetOr(EmptyBody)
    ensures r.0 == UsbWire ==> r.1.payload == c.usb.GetOr(EmptyBody)
    ensures r.0 == VirtioSerialWire ==> r.1.payload == c.virtioSerial.GetOr(EmptyBody)
    ensures r.0 == PlainWire ==> r.1.payload == EmptyBody
  {
    var payload := match WireKindOf(c.typ)
      case PciWire => c.pci.GetOr(EmptyBody)
      case UsbWire => c.usb.GetOr(EmptyBody)
      case VirtioSerialWire => c.virtioSerial.GetOr(EmptyBody)
      case PlainWire => EmptyBody;
    (WireKindOf(c.typ), Wire(c.typ, c.common, payload))
  }

  const MissingControllerType := "Missing 'type' attribute on domain controller"

  /**
   * DomainController.UnmarshalXML. `attrs` are the start element's
   * attributes, and `decodeElement(k)` is what the engine's DecodeElement
   * returns when asked to fill the struct of kind `k` from this element.
   * Without a `type` attribute this is an error; otherwise the whole
   * receiver is replaced by what the engine decoded, with exactly the
   * payload matching the type set.
   */
  function DecodeController(attrs: seq<Attr>, decodeElement: WireKind -> Result<Wire>): (r: Result<DomainController>)
    ensures Lookup(attrs, "type").None? ==> r == Err(Missing(MissingControllerType))
    ensures r.Ok? ==> var typ := Lookup(attrs, "type").value;
      && (r.value.pci.Some? <==> typ == "pci")
      && (r.value.usb.Some? <==> typ == "usb")
      && (r.value.virtioSerial.Some? <==> typ == "virtio-serial")
    ensures Lookup(attrs, "type").Some? ==> var w := decodeElement(WireKindOf(Lookup(attrs, "type").value));
      && (w.Err? ==> r == Err(w.error))
      && (w.Ok? ==> r.Ok? && r.value.typ == w.value.typ && r.value.common == w.value.common)
    ensures r.Ok? ==> var typ := Lookup(attrs, "type").value;
      var payload := decodeElement(WireKindOf(typ)).value.payload;
      && (typ == "pci" ==> r.value.pci == Some(payload))
      && (typ == "usb" ==> r.value.usb == Some(payload))
      && (typ == "virtio-serial" ==> r.value.virtioSerial == Some(payload))
  {
    match Lookup(attrs, "type")
    case None => Err(Missing(MissingControllerType))
    case Some(typ) =>
      var kind := WireKindOf(typ);
      var w :- decodeElement(kind);
      Ok(match kind
        case PciWire => DomainController(w.typ, w.common, Some(w.payload), None, None)
        case UsbWire => DomainController(w.typ, w.common, None, Some(w.payload), None)
        case VirtioSerialWire => DomainController(w.typ, w.common, None, None, Some(w.payload))
        case PlainWire => DomainController(w.typ, w.common, None, None, None))
  }

  /**
   * The controller the round trip yields: the payload matching the type,
   * zero if it was nil, and no other payload.
   */
  function Normalize(c: DomainController): (r: DomainController)
    ensures r.typ == c.typ && r.common == c.common
    ensures r.pci.Some? <==> c.typ == "pci"
    ensures r.usb.Some? <==> c.typ == "usb"
    ensures r.virtioSerial.Some? <==> c.typ == "virtio-serial"
    ensures c.typ == "pci" ==> r.pci == Some(c.pci.GetOr(EmptyBody))
    ensures c.typ == "usb" ==> r.usb == Some(c.usb.GetOr(EmptyBody))
    ensures c.typ == "virtio-serial" ==> r.virtioSerial == Some(c.virtioSerial.GetOr(EmptyBody))
  {
    var none := DomainController(c.typ, c.common, None, None, None);
    match WireKindOf(c.typ)
    case PciWire => none.(pci := Some(c.pci.GetOr(EmptyBody)))
    case UsbWire => none.(usb := Some(c.usb.GetOr(EmptyBody)))
    case VirtioSerialWire => none.(virtioSerial := Some(c.virtioSerial.GetOr(EmptyBody)))
    case PlainWire => none
  }

  /** Encoding looks only at the payload matching Type: controllers equal up to normalisation encode alike. */
  lemma EncodeIgnoresOtherPayloads(c: DomainController)
    ensures MarshalController(Normalize(c)) == MarshalController(c)
  {
  }

  /** Normalising twice is normalising once. */
  lemma NormalizeIdempotent(c: DomainController)
    ensures Normalize(Normalize(c)) == Normalize(c)
  {
  }

  /**
   * If the start element carries the Type as its first `type` attribute
   * and the engine decodes back the struct it was given, decoding what the
   * encoder wrote gives the normalised controller.
   */
  lemma ControllerRoundTrip(c: DomainController, attrs: seq<Attr>, decodeElement: WireKind -> Result<Wire>)
    requires Lookup(attrs, "type") == Some(c.typ)
    requires decodeElement(MarshalController(c).0) == Ok(MarshalController(c).1)
    ensures DecodeController(attrs, decodeElement) == Ok(Normalize(c))
  {
  }

  /** Decoding gives a controller that normalisation leaves alone, whatever the engine returns. */
  lemma DecodeIsNormal(attrs: seq<Attr>, decodeElement: WireKind -> Result<Wire>)
    requires DecodeController(attrs, decodeElement).Ok?
    requires DecodeController(attrs, decodeElement).value.typ == Lookup(attrs, "type").value
    ensures Normalize(DecodeController(attrs, decodeElement).value) == DecodeController(attrs, decodeElement).value
  {
  }
}
