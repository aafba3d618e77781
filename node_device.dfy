/**
 * The CCW capability of a node device (node_device.go:266-341): its three
 * numbers are child elements whose text is hexadecimal, written and read
 * by hand, token by token.
 */
module CcwCapability {
  import opened Results
  import opened Xml
  import opened Numbers

  /** NodeDeviceCCWCapability. */
  datatype CCWCapability = CCWCapability(cssid: Option<uint64>, ssid: Option<uint64>, devNo: Option<uint64>)

  const EmptyCCW := CCWCapability(None, None, None)

  /** The three child names the decoder knows. */
  predicate KnownChild(name: string) {
    name == "cssid" || name == "ssid" || name == "devno"
  }

  /** The field a known child sets; the decoder's if/else chain on the child's name. */
  function SetChild(c: CCWCapability, name: string, v: uint64): (r: CCWCapability)
    requires KnownChild(name)
    ensures name == "cssid" ==> r == c.(cssid := Some(v))
    ensures name == "ssid" ==> r == c.(ssid := Some(v))
    ensures name == "devno" ==> r == c.(devNo := Some(v))
  {
    if name == "cssid" then c.(cssid := Some(v))
    else if name == "ssid" then c.(ssid := Some(v))
    else c.(devNo := Some(v))
  }

  /**
   * One child as the encoder writes it: nothing for an absent value, else a
   * start tag without attributes, the value as hexadecimal text, and the
   * end tag. The text reads back as the value.
   */
  function ChildTokens(name: string, val: Option<uint64>, width: nat): (r: seq<Token>)
    ensures val.None? <==> r == []
    ensures val.Some? ==>
      && |r| == 3
      && r[0] == StartElement(name, [])
      && r[1].CharData? && UnmarshalUint(r[1].text, Base16) == Ok(val.value)
      && r[2] == EndElement(name)
  {
    match val
    case None => []
    case Some(n) =>
      UnmarshalSprintf(n, Hex(width), Base16);
      [StartElement(name, []), CharData(Sprintf(Hex(width), n)), EndElement(name)]
  }

  /** The children in the encoder's order: cssid and ssid as "0x%x", devno as "0x%04x". */
  function CCWContent(c: CCWCapability): seq<Token> {
    ChildTokens("cssid", c.cssid, 0) + ChildTokens("ssid", c.ssid, 0) + ChildTokens("devno", c.devNo, 4)
  }

  /** NodeDeviceCCWCapability.MarshalXML: the start element it is given, the children, the end. */
  function MarshalCCW(c: CCWCapability, name: string, start: seq<Attr>): (r: seq<Token>)
    ensures |r| >= 2 && r[0] == StartElement(name, start) && r[|r| - 1] == EndElement(name)
    ensures r[1..|r| - 1] == CCWContent(c)
    ensures |r| == 2 + 3 * ((if c.cssid.Some? then 1 else 0) + (if c.ssid.Some? then 1 else 0) + (if c.devNo.Some? then 1 else 0))
  {
    [StartElement(name, start)] + CCWContent(c) + [EndElement(name)]
  }

  /**
   * The decoder's token loop over the element's content. A start tag takes
   * the token after it (the stream ending there is an error); for an
   * unknown child both are dropped; for a known child the token after it
   * must be text, which loses a leading "0x" and is parsed as hexadecimal
   * into that field. Every other token is skipped.
   */
  function ScanCCW(c: CCWCapability, toks: seq<Token>): Result<CCWCapability>
    decreases |toks|
  {
    if toks == [] then Ok(c)
    else if toks[0].StartElement? then
      if |toks| == 1 then Err(UnexpectedEnd)
      else if !KnownChild(toks[0].name) then ScanCCW(c, toks[2..])
      else if !toks[1].CharData? then Err(ExpectedText(toks[0].name))
      else
        var v :- UnmarshalUint(toks[1].text, Base16);
        ScanCCW(SetChild(c, toks[0].name, v), toks[2..])
    else ScanCCW(c, toks[1..])
  }

  /** NodeDeviceCCWCapability.UnmarshalXML into `from`, as the loop it is. */
  method UnmarshalCCW(from: CCWCapability, content: seq<Token>) returns (r: Result<CCWCapability>)
    ensures r == ScanCCW(from, content)
  {
    var c := from;
    var i := 0;
    while i < |content|
      invariant 0 <= i <= |content|
      invariant ScanCCW(c, content[i..]) == ScanCCW(from, content)
      decreases |content| - i
    {
      var tok := content[i];
      if tok.StartElement? {
        if i + 1 == |content| {
          return Err(UnexpectedEnd);
        }
        var cdata := content[i + 1];
        assert content[i..][2..] == content[i + 2..];
        i := i + 2;
        if KnownChild(tok.name) {
          if !cdata.CharData? {
            return Err(ExpectedText(tok.name));
          }
          var v := UnmarshalUint(cdata.text, Base16);
          if v.Err? {
            return Err(v.error);
          }
          c := SetChild(c, tok.name, v.value);
        }
      } else {
        assert content[i..][1..] == content[i + 1..];
        i := i + 1;
      }
    }
    return Ok(c);
  }

  /** A child written by the encoder sets its field and nothing else, and the loop goes on after it. */
  lemma ScanChild(c: CCWCapability, name: string, val: Option<uint64>, width: nat, rest: seq<Token>)
    requires KnownChild(name)
    ensures ScanCCW(c, ChildTokens(name, val, width) + rest) ==
      ScanCCW(if val.Some? then SetChild(c, name, val.value) else c, rest)
  {
    if val.Some? {
      var toks := ChildTokens(name, val, width) + rest;
      assert toks[0] == StartElement(name, []) && toks[1] == ChildTokens(name, val, width)[1];
      assert toks[2..] == [EndElement(name)] + rest;
      assert ([EndElement(name)] + rest)[1..] == rest;
    } else {
      assert ChildTokens(name, val, width) + rest == rest;
    }
  }

  /** Round trip: the loop reads back from the encoder's children exactly the capability written. */
  lemma CCWRoundTrip(c: CCWCapability, name: string, start: seq<Attr>)
    ensures var toks := MarshalCCW(c, name, start);
      ScanCCW(EmptyCCW, toks[1..|toks| - 1]) == Ok(c)
  {
    var a := ChildTokens("cssid", c.cssid, 0);
    var b := ChildTokens("ssid", c.ssid, 0);
    var d := ChildTokens("devno", c.devNo, 4);
    var c1 := EmptyCCW.(cssid := c.cssid);
    var c2 := c1.(ssid := c.ssid);
    assert a + b + d == a + (b + d);
    ScanChild(EmptyCCW, "cssid", c.cssid, 0, b + d);
    ScanChild(c1, "ssid", c.ssid, 0, d);
    assert d == d + [];
    ScanChild(c2, "devno", c.devNo, 4, []);
  }

  /** A known child whose start tag is not followed by text is refused, naming the child. */
  lemma EmptyChildRejected(c: CCWCapability, rest: seq<Token>)
    ensures ScanCCW(c, [StartElement("devno", []), EndElement("devno")] + rest) == Err(ExpectedText("devno"))
  {
  }

  /** An unknown child and the token after it are dropped, so a known child nested one level down is not seen. */
  lemma UnknownChildSkipsNext(c: CCWCapability, rest: seq<Token>)
    ensures ScanCCW(c, [StartElement("extra", []), StartElement("cssid", []), CharData("0x1")] + rest) ==
      ScanCCW(c, [CharData("0x1")] + rest)
  {
    var toks := [StartElement("extra", []), StartElement("cssid", []), CharData("0x1")] + rest;
    assert toks[2..] == [CharData("0x1")] + rest;
  }
}

/**
 * The two capability unions of a node device (node_device.go:343-540): a
 * <capability> element whose `type` attribute selects one member. Both
 * decoders refuse an element without `type`, ignore an unknown one, and
 * keep the receiver's other members.
 */
module NodeDevice {
  import opened Results
  import opened Xml

  const MissingCapabilityType := "Missing node device capability type"

  /** The members of NodeDevicePCISubCapability, in the encoder's priority order (also the struct's). */
  datatype SubKind = VirtFunctions | PhysFunction | MDevTypes | Bridge

  function SubRank(k: SubKind): nat {
    match k
    case VirtFunctions => 0
    case PhysFunction => 1
    case MDevTypes => 2
    case Bridge => 3
  }

  function SubTypeName(k: SubKind): string {
    match k
    case VirtFunctions => "virt_functions"
    case PhysFunction => "phys_function"
    case MDevTypes => "mdev_types"
    case Bridge => "pci-bridge"
  }

  /** The sub-capability decoder's switch on `type`; other strings select nothing. */
  function SubKindOf(typ: string): (r: Option<SubKind>)
    ensures forall k :: r == Some(k) <==> SubTypeName(k) == typ
  {
    if typ == "virt_functions" then Some(VirtFunctions)
    else if typ == "phys_function" then Some(PhysFunction)
    else if typ == "mdev_types" then Some(MDevTypes)
    else if typ == "pci-bridge" then Some(Bridge)
    else None
  }

  /** NodeDevicePCISubCapability; each member's fields are left to the engine. */
  datatype PCISubCapability = PCISubCapability(
    virtFunctions: Option<Body>, physFunction: Option<Body>, mdevTypes: Option<Body>, bridge: Option<Body>)

  const EmptySub := PCISubCapability(None, None, None, None)

  function SubMember(c: PCISubCapability, k: SubKind): Option<Body> {
    match k
    case VirtFunctions => c.virtFunctions
    case PhysFunction => c.physFunction
    case MDevTypes => c.mdevTypes
    case Bridge => c.bridge
  }

  function SetSubMember(c: PCISubCapability, k: SubKind, v: Option<Body>): (r: PCISubCapability)
    ensures SubMember(r, k) == v && forall j :: j != k ==> SubMember(r, j) == SubMember(c, j)
  {
    match k
    case VirtFunctions => c.(virtFunctions := v)
    case PhysFunction => c.(physFunction := v)
    case MDevTypes => c.(mdevTypes := v)
    case Bridge => c.(bridge := v)
  }

  /** The sub-capability encoder's if/else chain: the first member present. */
  function FirstSubKind(c: PCISubCapability): (r: Option<SubKind>)
    ensures r.None? ==> forall k :: SubMember(c, k).None?
    ensures r.Some? ==> SubMember(c, r.value).Some? && forall k :: SubRank(k) < SubRank(r.value) ==> SubMember(c, k).None?
  {
    if c.virtFunctions.Some? then Some(VirtFunctions)
    else if c.physFunction.Some? then Some(PhysFunction)
    else if c.mdevTypes.Some? then Some(MDevTypes)
    else if c.bridge.Some? then Some(Bridge)
    else None
  }

  /**
   * NodeDevicePCISubCapability.MarshalXML: the start element's attributes
   * with the chosen member's `type` appended, and that member's payload;
   * nothing is written when no member is set.
   */
  function MarshalSub(c: PCISubCapability, start: seq<Attr>): (r: Option<(seq<Attr>, SubKind, Body)>)
    ensures r.None? <==> FirstSubKind(c).None?
    ensures r.Some? ==>
      && r.value.1 == FirstSubKind(c).value
      && r.value.0 == start + [Attr("type", SubTypeName(r.value.1))]
      && SubMember(c, r.value.1) == Some(r.value.2)
  {
    match FirstSubKind(c)
    case None => None
    case Some(k) => Some((start + [Attr("type", SubTypeName(k))], k, SubMember(c, k).value))
  }

  /**
   * NodeDevicePCISubCapability.UnmarshalXML into the receiver `from`: a
   * missing `type` is an error; a known one has the engine decode the
   * element into a fresh member, which replaces that member of the
   * receiver; an unknown one leaves the receiver as it was.
   * `decodeElement(k)` is the engine's DecodeElement into a member of kind `k`.
   */
  function DecodeSub(from: PCISubCapability, attrs: seq<Attr>, decodeElement: SubKind -> Result<Body>): (r: Result<PCISubCapability>)
    ensures Lookup(attrs, "type").None? ==> r == Err(Missing(MissingCapabilityType))
    ensures Lookup(attrs, "type").Some? && SubKindOf(Lookup(attrs, "type").value).None? ==> r == Ok(from)
    ensures Lookup(attrs, "type").Some? && SubKindOf(Lookup(attrs, "type").value).Some? ==>
      var k := SubKindOf(Lookup(attrs, "type").value).value;
      && (decodeElement(k).Err? ==> r == Err(decodeElement(k).error))
      && (decodeElement(k).Ok? ==>
            && r.Ok?
            && SubMember(r.value, k) == Some(decodeElement(k).value)
            && forall j :: j != k ==> SubMember(r.value, j) == SubMember(from, j))
  {
    match Lookup(attrs, "type")
    case None => Err(Missing(MissingCapabilityType))
    case Some(typ) =>
      match SubKindOf(typ)
      case None => Ok(from)
      case Some(k) =>
        var body :- decodeElement(k);
        Ok(SetSubMember(from, k, Some(body)))
  }

  /**
   * Round trip: decoding what the encoder wrote into an empty receiver
   * gives back the member the encoder chose, and only it, provided the
   * engine reads back the payload it wrote. `extra` stands for the
   * attributes the engine appends for the member's own fields.
   */
  lemma SubRoundTrip(c: PCISubCapability, start: seq<Attr>, extra: seq<Attr>, decodeElement: SubKind -> Result<Body>)
    requires FirstSubKind(c).Some?
    requires Lookup(start, "type").None?
    requires decodeElement(FirstSubKind(c).value) == Ok(SubMember(c, FirstSubKind(c).value).value)
    ensures MarshalSub(c, start).Some?
    ensures var k := FirstSubKind(c).value;
      DecodeSub(EmptySub, MarshalSub(c, start).value.0 + extra, decodeElement) == Ok(SetSubMember(EmptySub, k, SubMember(c, k)))
  {
    var k := FirstSubKind(c).value;
    LookupAppend(start, [Attr("type", SubTypeName(k))], "type");
    LookupAppend(start + [Attr("type", SubTypeName(k))], extra, "type");
  }

  /** A sub-capability with exactly one member survives the round trip whole. */
  lemma SubRoundTripOnly(c: PCISubCapability, k: SubKind, start: seq<Attr>, extra: seq<Attr>, decodeElement: SubKind -> Result<Body>)
    requires SubMember(c, k).Some? && forall j :: j != k ==> SubMember(c, j).None?
    requires Lookup(start, "type").None?
    requires decodeElement(k) == Ok(SubMember(c, k).value)
    ensures MarshalSub(c, start).Some?
    ensures DecodeSub(EmptySub, MarshalSub(c, start).value.0 + extra, decodeElement) == Ok(c)
  {
    assert FirstSubKind(c) == Some(k);
    SubRoundTrip(c, start, extra, decodeElement);
    var r := SetSubMember(EmptySub, k, SubMember(c, k));
    assert SubMember(r, VirtFunctions) == SubMember(c, VirtFunctions);
    assert SubMember(r, PhysFunction) == SubMember(c, PhysFunction);
    assert SubMember(r, MDevTypes) == SubMember(c, MDevTypes);
    assert SubMember(r, Bridge) == SubMember(c, Bridge);
  }

  /** Decoding into an empty receiver yields at most one member. */
  lemma SubAtMostOne(attrs: seq<Attr>, decodeElement: SubKind -> Result<Body>, j: SubKind, k: SubKind)
    requires DecodeSub(EmptySub, attrs, decodeElement).Ok?
    requires SubMember(DecodeSub(EmptySub, attrs, decodeElement).value, j).Some?
    requires SubMember(DecodeSub(EmptySub, attrs, decodeElement).value, k).Some?
    ensures j == k
  {
  }

  /** The members of NodeDeviceCapability, in the encoder's priority order. */
  datatype CapKind = PCI | System | USB | USBDevice | Net | SCSI | SCSIHost | Storage | DRM | CCW | MDev

  function CapRank(k: CapKind): nat {
    match k
    case PCI => 0
    case System => 1
    case USB => 2
    case USBDevice => 3
    case Net => 4
    case SCSI => 5
    case SCSIHost => 6
    case Storage => 7
    case DRM => 8
    case CCW => 9
    case MDev => 10
  }

  function CapTypeName(k: CapKind): string {
    match k
    case PCI => "pci"
    case System => "system"
    case USB => "usb"
    case USBDevice => "usb_device"
    case Net => "net"
    case SCSI => "scsi"
    case SCSIHost => "scsi_host"
    case Storage => "storage"
    case DRM => "drm"
    case CCW => "ccw"
    case MDev => "mdev"
  }

  /** The capability decoder's switch on `type` (in the source's case order); other strings select nothing. */
  function CapKindOf(typ: string): (r: Option<CapKind>)
    ensures forall k :: r == Some(k) <==> CapTypeName(k) == typ
  {
    if typ == "pci" then Some(PCI)
    else if typ == "system" then Some(System)
    else if typ == "usb_device" then Some(USBDevice)
    else if typ == "usb" then Some(USB)
    else if typ == "net" then Some(Net)
    else if typ == "scsi_host" then Some(SCSIHost)
    else if typ == "scsi" then Some(SCSI)
    else if typ == "storage" then Some(Storage)
    else if typ == "drm" then Some(DRM)
    else if typ == "ccw" then Some(CCW)
    else if typ == "mdev" then Some(MDev)
    else None
  }

  /** NodeDeviceCapability, fields in the struct's order; each member's fields are left to the engine. */
  datatype Capability = Capability(
    system: Option<Body>, pci: Option<Body>, usb: Option<Body>, usbDevice: Option<Body>,
    net: Option<Body>, scsiHost: Option<Body>, scsi: Option<Body>, storage: Option<Body>,
    drm: Option<Body>, ccw: Option<Body>, mdev: Option<Body>)

  const EmptyCap := Capability(None, None, None, None, None, None, None, None, None, None, None)

  function CapMember(c: Capability, k: CapKind): Option<Body> {
    match k
    case PCI => c.pci
    case System => c.system
    case USB => c.usb
    case USBDevice => c.usbDevice
    case Net => c.net
    case SCSI => c.scsi
    case SCSIHost => c.scsiHost
    case Storage => c.storage
    case DRM => c.drm
    case CCW => c.ccw
    case MDev => c.mdev
  }

  function SetCapMember(c: Capability, k: CapKind, v: Option<Body>): (r: Capability)
    ensures CapMember(r, k) == v && forall j :: j != k ==> CapMember(r, j) == CapMember(c, j)
  {
    match k
    case PCI => c.(pci := v)
    case System => c.(system := v)
    case USB => c.(usb := v)
    case USBDevice => c.(usbDevice := v)
    case Net => c.(net := v)
    case SCSI => c.(scsi := v)
    case SCSIHost => c.(scsiHost := v)
    case Storage => c.(storage := v)
    case DRM => c.(drm := v)
    case CCW => c.(ccw := v)
    case MDev => c.(mdev := v)
  }

  /** The capability encoder's if/else chain: the first member present in priority order. */
  function FirstCapKind(c: Capability): (r: Option<CapKind>)
    ensures r.None? ==> forall k :: CapMember(c, k).None?
    ensures r.Some? ==> CapMember(c, r.value).Some? && forall k :: CapRank(k) < CapRank(r.value) ==> CapMember(c, k).None?
  {
    if c.pci.Some? then Some(PCI)
    else if c.system.Some? then Some(System)
    else if c.usb.Some? then Some(USB)
    else if c.usbDevice.Some? then Some(USBDevice)
    else if c.net.Some? then Some(Net)
    else if c.scsi.Some? then Some(SCSI)
    else if c.scsiHost.Some? then Some(SCSIHost)
    else if c.storage.Some? then Some(Storage)
    else if c.drm.Some? then Some(DRM)
    else if c.ccw.Some? then Some(CCW)
    else if c.mdev.Some? then Some(MDev)
    else None
  }

  /**
   * NodeDeviceCapability.MarshalXML: the start element's attributes with
   * the chosen member's `type` appended, and that member's payload; nothing
   * is written when no member is set.
   */
  function MarshalCap(c: Capability, start: seq<Attr>): (r: Option<(seq<Attr>, CapKind, Body)>)
    ensures r.None? <==> FirstCapKind(c).None?
    ensures r.Some? ==>
      && r.value.1 == FirstCapKind(c).value
      && r.value.0 == start + [Attr("type", CapTypeName(r.value.1))]
      && CapMember(c, r.value.1) == Some(r.value.2)
  {
    match FirstCapKind(c)
    case None => None
    case Some(k) => Some((start + [Attr("type", CapTypeName(k))], k, CapMember(c, k).value))
  }

  /**
   * NodeDeviceCapability.UnmarshalXML into the receiver `from`: a missing
   * `type` is an error; a known one has the engine decode the element into
   * a fresh member, which replaces that member of the receiver; an unknown
   * one leaves the receiver as it was. `decodeElement(k)` is the engine's
   * DecodeElement into a member of kind `k` (for CCW, that runs the CCW
   * decoder above).
   */
  function DecodeCap(from: Capability, attrs: seq<Attr>, decodeElement: CapKind -> Result<Body>): (r: Result<Capability>)
    ensures Lookup(attrs, "type").None? ==> r == Err(Missing(MissingCapabilityType))
    ensures Lookup(attrs, "type").Some? && CapKindOf(Lookup(attrs, "type").value).None? ==> r == Ok(from)
    ensures Lookup(attrs, "type").Some? && CapKindOf(Lookup(attrs, "type").value).Some? ==>
      var k := CapKindOf(Lookup(attrs, "type").value).value;
      && (decodeElement(k).Err? ==> r == Err(decodeElement(k).error))
      && (decodeElement(k).Ok? ==>
            && r.Ok?
            && CapMember(r.value, k) == Some(decodeElement(k).value)
            && forall j :: j != k ==> CapMember(r.value, j) == CapMember(from, j))
  {
    match Lookup(attrs, "type")
    case None => Err(Missing(MissingCapabilityType))
    case Some(typ) =>
      match CapKindOf(typ)
      case None => Ok(from)
      case Some(k) =>
        var body :- decodeElement(k);
        Ok(SetCapMember(from, k, Some(body)))
  }

  /**
   * Round trip: decoding what the encoder wrote into an empty receiver
   * gives back the member the encoder chose, and only it, provided the
   * engine reads back the payload it wrote. `extra` stands for the
   * attributes the engine appends for the member's own fields.
   */
  lemma CapRoundTrip(c: Capability, start: seq<Attr>, extra: seq<Attr>, decodeElement: CapKind -> Result<Body>)
    requires FirstCapKind(c).Some?
    requires Lookup(start, "type").None?
    requires decodeElement(FirstCapKind(c).value) == Ok(CapMember(c, FirstCapKind(c).value).value)
    ensures MarshalCap(c, start).Some?
    ensures var k := FirstCapKind(c).value;
      DecodeCap(EmptyCap, MarshalCap(c, start).value.0 + extra, decodeElement) == Ok(SetCapMember(EmptyCap, k, CapMember(c, k)))
  {
    var k := FirstCapKind(c).value;
    LookupAppend(start, [Attr("type", CapTypeName(k))], "type");
    LookupAppend(start + [Attr("type", CapTypeName(k))], extra, "type");
  }

  /** Two capabilities with the same members are the same capability. */
  lemma CapMemberExt(c: Capability, d: Capability)
    requires forall k :: CapMember(c, k) == CapMember(d, k)
    ensures c == d
  {
    assert CapMember(c, PCI) == CapMember(d, PCI);
    assert CapMember(c, System) == CapMember(d, System);
    assert CapMember(c, USB) == CapMember(d, USB);
    assert CapMember(c, USBDevice) == CapMember(d, USBDevice);
    assert CapMember(c, Net) == CapMember(d, Net);
    assert CapMember(c, SCSI) == CapMember(d, SCSI);
    assert CapMember(c, SCSIHost) == CapMember(d, SCSIHost);
    assert CapMember(c, Storage) == CapMember(d, Storage);
    assert CapMember(c, DRM) == CapMember(d, DRM);
    assert CapMember(c, CCW) == CapMember(d, CCW);
    assert CapMember(c, MDev) == CapMember(d, MDev);
  }

  /** A capability with exactly one member survives the round trip whole. */
  lemma CapRoundTripOnly(c: Capability, k: CapKind, start: seq<Attr>, extra: seq<Attr>, decodeElement: CapKind -> Result<Body>)
    requires CapMember(c, k).Some? && forall j :: j != k ==> CapMember(c, j).None?
    requires Lookup(start, "type").None?
    requires decodeElement(k) == Ok(CapMember(c, k).value)
    ensures MarshalCap(c, start).Some?
    ensures DecodeCap(EmptyCap, MarshalCap(c, start).value.0 + extra, decodeElement) == Ok(c)
  {
    assert FirstCapKind(c) == Some(k);
    CapRoundTrip(c, start, extra, decodeElement);
    CapMemberExt(SetCapMember(EmptyCap, k, CapMember(c, k)), c);
  }

  /** Decoding into an empty receiver yields at most one member. */
  lemma CapAtMostOne(attrs: seq<Attr>, decodeElement: CapKind -> Result<Body>, j: CapKind, k: CapKind)
    requires DecodeCap(EmptyCap, attrs, decodeElement).Ok?
    requires CapMember(DecodeCap(EmptyCap, attrs, decodeElement).value, j).Some?
    requires CapMember(DecodeCap(EmptyCap, attrs, decodeElement).value, k).Some?
    ensures j == k
  {
  }
}
