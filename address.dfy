/**
 * The <address> element of a domain device (domain.go:2044-2405): a union
 * of nine member records, each with its own attributes, numeric formats and
 * parsing bases. The union is a record of optional members, as in Go; the
 * encoder writes the first member present, the decoder dispatches on the
 * first `type` attribute and fills a fresh member of the receiver.
 */
module Address {
  import opened Results
  import opened Xml
  import opened Numbers

  // ------------------------------------------------------------ members

  datatype AddressUSB = AddressUSB(bus: Option<uint64>, port: string, device: Option<uint64>)

  datatype AddressPCI = AddressPCI(
    domain: Option<uint64>, bus: Option<uint64>, slot: Option<uint64>,
    func: Option<uint64>, multiFunction: string)

  datatype AddressDrive = AddressDrive(
    controller: Option<uint64>, bus: Option<uint64>, target: Option<uint64>, unit: Option<uint64>)

  datatype AddressDIMM = AddressDIMM(slot: Option<uint64>, base: Option<uint64>)

  datatype AddressISA = AddressISA(ioBase: Option<uint64>, irq: Option<uint64>)

  datatype AddressVirtioMMIO = AddressVirtioMMIO

  datatype AddressCCW = AddressCCW(cssid: Option<uint64>, ssid: Option<uint64>, devNo: Option<uint64>)

  datatype AddressVirtioSerial = AddressVirtioSerial(
    controller: Option<uint64>, bus: Option<uint64>, port: Option<uint64>)

  datatype AddressSpaprVIO = AddressSpaprVIO(reg: Option<uint64>)

  /** DomainAddress: at most one member is meant to be set, but nothing enforces it. */
  datatype DomainAddress = DomainAddress(
    usb: Option<AddressUSB>,
    pci: Option<AddressPCI>,
    drive: Option<AddressDrive>,
    dimm: Option<AddressDIMM>,
    isa: Option<AddressISA>,
    virtioMMIO: Option<AddressVirtioMMIO>,
    ccw: Option<AddressCCW>,
    virtioSerial: Option<AddressVirtioSerial>,
    spaprVIO: Option<AddressSpaprVIO>)

  const EmptyUSB := AddressUSB(None, "", None)
  const EmptyPCI := AddressPCI(None, None, None, None, "")
  const EmptyDrive := AddressDrive(None, None, None, None)
  const EmptyDIMM := AddressDIMM(None, None)
  const EmptyISA := AddressISA(None, None)
  const EmptyCCW := AddressCCW(None, None, None)
  const EmptyVirtioSerial := AddressVirtioSerial(None, None, None)
  const EmptySpaprVIO := AddressSpaprVIO(None)
  const EmptyAddress := DomainAddress(None, None, None, None, None, None, None, None, None)

  // ---------------------------------------------- the kinds of member

  /** The nine members, in the encoder's priority order. */
  datatype Kind = USB | PCI | Drive | DIMM | ISA | VirtioMMIO | CCW | VirtioSerial | SpaprVIO

  /** The position of a kind in the encoder's if/else chain. */
  function Rank(k: Kind): nat {
    match k
    case USB => 0
    case PCI => 1
    case Drive => 2
    case DIMM => 3
    case ISA => 4
    case VirtioMMIO => 5
    case CCW => 6
    case VirtioSerial => 7
    case SpaprVIO => 8
  }

  /** The `type` string a member is written under. */
  function TypeName(k: Kind): string {
    match k
    case USB => "usb"
    case PCI => "pci"
    case Drive => "drive"
    case DIMM => "dimm"
    case ISA => "isa"
    case VirtioMMIO => "virtio-mmio"
    case CCW => "ccw"
    case VirtioSerial => "virtio-serial"
    case SpaprVIO => "spapr-vio"
  }

  /** The decoder's if/else chain on the `type` string; other strings select nothing. */
  function KindOf(typ: string): (r: Option<Kind>)
    ensures forall k :: r == Some(k) <==> TypeName(k) == typ
  {
    if typ == "usb" then Some(USB)
    else if typ == "pci" then Some(PCI)
    else if typ == "drive" then Some(Drive)
    else if typ == "dimm" then Some(DIMM)
    else if typ == "isa" then Some(ISA)
    else if typ == "virtio-mmio" then Some(VirtioMMIO)
    else if typ == "ccw" then Some(CCW)
    else if typ == "virtio-serial" then Some(VirtioSerial)
    else if typ == "spapr-vio" then Some(SpaprVIO)
    else None
  }

  /** Member `k` is set. */
  predicate Has(a: DomainAddress, k: Kind) {
    match k
    case USB => a.usb.Some?
    case PCI => a.pci.Some?
    case Drive => a.drive.Some?
    case DIMM => a.dimm.Some?
    case ISA => a.isa.Some?
    case VirtioMMIO => a.virtioMMIO.Some?
    case CCW => a.ccw.Some?
    case VirtioSerial => a.virtioSerial.Some?
    case SpaprVIO => a.spaprVIO.Some?
  }

  /** Member `k` is set and no other is. */
  predicate OnlyMember(a: DomainAddress, k: Kind) {
    Has(a, k) && forall j :: j != k ==> !Has(a, j)
  }

  /** `a` with member `k` reset to nil. */
  function Clear(a: DomainAddress, k: Kind): (r: DomainAddress)
    ensures !Has(r, k) && forall j :: j != k ==> Has(r, j) == Has(a, j)
  {
    match k
    case USB => a.(usb := None)
    case PCI => a.(pci := None)
    case Drive => a.(drive := None)
    case DIMM => a.(dimm := None)
    case ISA => a.(isa := None)
    case VirtioMMIO => a.(virtioMMIO := None)
    case CCW => a.(ccw := None)
    case VirtioSerial => a.(virtioSerial := None)
    case SpaprVIO => a.(spaprVIO := None)
  }

  /** `into` with member `k` taken from `a`. */
  function Assign(into: DomainAddress, k: Kind, a: DomainAddress): (r: DomainAddress)
    ensures Has(r, k) == Has(a, k) && Clear(r, k) == Clear(into, k)
  {
    match k
    case USB => into.(usb := a.usb)
    case PCI => into.(pci := a.pci)
    case Drive => into.(drive := a.drive)
    case DIMM => into.(dimm := a.dimm)
    case ISA => into.(isa := a.isa)
    case VirtioMMIO => into.(virtioMMIO := a.virtioMMIO)
    case CCW => into.(ccw := a.ccw)
    case VirtioSerial => into.(virtioSerial := a.virtioSerial)
    case SpaprVIO => into.(spaprVIO := a.spaprVIO)
  }

  /** The attribute names a member's decoder acts on; it ignores all others. */
  function FieldNames(k: Kind): set<string> {
    match k
    case USB => {"bus", "port", "device"}
    case PCI => {"domain", "bus", "slot", "function", "multifunction"}
    case Drive => {"controller", "bus", "target", "unit"}
    case DIMM => {"slot", "base"}
    case ISA => {"iobase", "irq"}
    case VirtioMMIO => {}
    case CCW => {"cssid", "ssid", "devno"}
    case VirtioSerial => {"controller", "bus", "port"}
    case SpaprVIO => {"reg"}
  }

  /** The base a member's decoder parses a numeric attribute with; None for text and foreign attributes. */
  function NumericBase(k: Kind, name: string): Option<Base> {
    match k
    case USB => if name == "bus" || name == "device" then Some(Base10) else None
    case PCI => if name == "domain" || name == "bus" || name == "slot" || name == "function" then Some(Base0) else None
    case Drive => if name == "controller" || name == "bus" || name == "target" || name == "unit" then Some(Base10) else None
    case DIMM => if name == "slot" then Some(Base10) else if name == "base" then Some(Base16) else None
    case ISA => if name == "iobase" || name == "irq" then Some(Base16) else None
    case VirtioMMIO => None
    case CCW => if name == "cssid" || name == "ssid" || name == "devno" then Some(Base0) else None
    case VirtioSerial => if name == "controller" || name == "bus" || name == "port" then Some(Base10) else None
    case SpaprVIO => if name == "reg" then Some(Base16) else None
  }

  /** A member's decoder accepts the attribute: it is not numeric for `k`, or its text parses. */
  predicate Accepts(k: Kind, attr: Attr) {
    match NumericBase(k, attr.name)
    case None => true
    case Some(b) => UnmarshalUint(attr.value, b).Ok?
  }

  // ------------------------------------------------ member encoders

  function AttrsUSB(u: AddressUSB): seq<Attr> {
    UintAttr("bus", u.bus, Dec) + StrAttr("port", u.port) + UintAttr("device", u.device, Dec)
  }

  function AttrsPCI(p: AddressPCI): seq<Attr> {
    UintAttr("domain", p.domain, Hex(4)) + UintAttr("bus", p.bus, Hex(2)) + UintAttr("slot", p.slot, Hex(2))
      + UintAttr("function", p.func, Hex(0)) + StrAttr("multifunction", p.multiFunction)
  }

  function AttrsDrive(d: AddressDrive): seq<Attr> {
    UintAttr("controller", d.controller, Dec) + UintAttr("bus", d.bus, Dec)
      + UintAttr("target", d.target, Dec) + UintAttr("unit", d.unit, Dec)
  }

  function AttrsDIMM(d: AddressDIMM): seq<Attr> {
    UintAttr("slot", d.slot, Dec) + UintAttr("base", d.base, Hex(0))
  }

  function AttrsISA(i: AddressISA): seq<Attr> {
    UintAttr("iobase", i.ioBase, Hex(0)) + UintAttr("irq", i.irq, Hex(0))
  }

  function AttrsCCW(c: AddressCCW): seq<Attr> {
    UintAttr("cssid", c.cssid, Hex(0)) + UintAttr("ssid", c.ssid, Hex(0)) + UintAttr("devno", c.devNo, Hex(4))
  }

  function AttrsVirtioSerial(v: AddressVirtioSerial): seq<Attr> {
    UintAttr("controller", v.controller, Dec) + UintAttr("bus", v.bus, Dec) + UintAttr("port", v.port, Dec)
  }

  function AttrsSpaprVIO(s: AddressSpaprVIO): seq<Attr> {
    UintAttr("reg", s.reg, Hex(0))
  }

  /** The attributes member `k` of `a` writes after `type`. */
  function MemberAttrs(a: DomainAddress, k: Kind): seq<Attr>
    requires Has(a, k)
  {
    match k
    case USB => AttrsUSB(a.usb.value)
    case PCI => AttrsPCI(a.pci.value)
    case Drive => AttrsDrive(a.drive.value)
    case DIMM => AttrsDIMM(a.dimm.value)
    case ISA => AttrsISA(a.isa.value)
    case VirtioMMIO => []
    case CCW => AttrsCCW(a.ccw.value)
    case VirtioSerial => AttrsVirtioSerial(a.virtioSerial.value)
    case SpaprVIO => AttrsSpaprVIO(a.spaprVIO.value)
  }

  // ----------------------------------------------------- the encoder

  /** The encoder's if/else chain: the first member present, in priority order. */
  function FirstKind(a: DomainAddress): (r: Option<Kind>)
    ensures r.None? ==> forall k :: !Has(a, k)
    ensures r.Some? ==> Has(a, r.value) && forall k :: Rank(k) < Rank(r.value) ==> !Has(a, k)
  {
    if a.usb.Some? then Some(USB)
    else if a.pci.Some? then Some(PCI)
    else if a.drive.Some? then Some(Drive)
    else if a.dimm.Some? then Some(DIMM)
    else if a.isa.Some? then Some(ISA)
    else if a.virtioMMIO.Some? then Some(VirtioMMIO)
    else if a.ccw.Some? then Some(CCW)
    else if a.virtioSerial.Some? then Some(VirtioSerial)
    else if a.spaprVIO.Some? then Some(SpaprVIO)
    else None
  }

  /**
   * DomainAddress.MarshalXML on the start element `name` with attributes
   * `start`: nothing at all when no member is set, otherwise the start
   * element with `type` and the first member's attributes appended, then
   * its end.
   */
  function MarshalAddress(a: DomainAddress, name: string, start: seq<Attr>): (r: seq<Token>)
    ensures (forall k :: !Has(a, k)) ==> r == []
    ensures forall k :: Has(a, k) ==> r != []
    ensures r != [] ==> |r| == 2 && r[0].StartElement? && r[0].name == name && r[1] == EndElement(name)
    ensures r != [] ==> var k := FirstKind(a).value;
      r[0].attrs == start + [Attr("type", TypeName(k))] + MemberAttrs(a, k)
  {
    match FirstKind(a)
    case None => []
    case Some(k) => [StartElement(name, start + [Attr("type", TypeName(k))] + MemberAttrs(a, k)), EndElement(name)]
  }

  // ------------------------------------------------ member decoders

  /** One iteration of DomainAddressUSB.UnmarshalXML's attribute loop. */
  function StepUSB(u: AddressUSB, attr: Attr): Result<AddressUSB> {
    if attr.name == "bus" then
      var v :- UnmarshalUint(attr.value, Base10);
      Ok(u.(bus := Some(v)))
    else if attr.name == "port" then Ok(u.(port := attr.value))
    else if attr.name == "device" then
      var v :- UnmarshalUint(attr.value, Base10);
      Ok(u.(device := Some(v)))
    else Ok(u)
  }

  /** One iteration of DomainAddressPCI.UnmarshalXML's attribute loop. */
  function StepPCI(p: AddressPCI, attr: Attr): Result<AddressPCI> {
    if attr.name == "domain" then
      var v :- UnmarshalUint(attr.value, Base0);
      Ok(p.(domain := Some(v)))
    else if attr.name == "bus" then
      var v :- UnmarshalUint(attr.value, Base0);
      Ok(p.(bus := Some(v)))
    else if attr.name == "slot" then
      var v :- UnmarshalUint(attr.value, Base0);
      Ok(p.(slot := Some(v)))
    else if attr.name == "function" then
      var v :- UnmarshalUint(attr.value, Base0);
      Ok(p.(func := Some(v)))
    else if attr.name == "multifunction" then Ok(p.(multiFunction := attr.value))
    else Ok(p)
  }

  /** One iteration of DomainAddressDrive.UnmarshalXML's attribute loop. */
  function StepDrive(d: AddressDrive, attr: Attr): Result<AddressDrive> {
    if attr.name == "controller" then
      var v :- UnmarshalUint(attr.value, Base10);
      Ok(d.(controller := Some(v)))
    else if attr.name == "bus" then
      var v :- UnmarshalUint(attr.value, Base10);
      Ok(d.(bus := Some(v)))
    else if attr.name == "target" then
      var v :- UnmarshalUint(attr.value, Base10);
      Ok(d.(target := Some(v)))
    else if attr.name == "unit" then
      var v :- UnmarshalUint(attr.value, Base10);
      Ok(d.(unit := Some(v)))
    else Ok(d)
  }

  /** One iteration of DomainAddressDIMM.UnmarshalXML's attribute loop. */
  function StepDIMM(d: AddressDIMM, attr: Attr): Result<AddressDIMM> {
    if attr.name == "slot" then
      var v :- UnmarshalUint(attr.value, Base10);
      Ok(d.(slot := Some(v)))
    else if attr.name == "base" then
      var v :- UnmarshalUint(attr.value, Base16);
      Ok(d.(base := Some(v)))
    else Ok(d)
  }

  /** One iteration of DomainAddressISA.UnmarshalXML's attribute loop. */
  function StepISA(i: AddressISA, attr: Attr): Result<AddressISA> {
    if attr.name == "iobase" then
      var v :- UnmarshalUint(attr.value, Base16);
      Ok(i.(ioBase := Some(v)))
    else if attr.name == "irq" then
      var v :- UnmarshalUint(attr.value, Base16);
      Ok(i.(irq := Some(v)))
    else Ok(i)
  }

  /** One iteration of DomainAddressCCW.UnmarshalXML's attribute loop. */
  function StepCCW(c: AddressCCW, attr: Attr): Result<AddressCCW> {
    if attr.name == "cssid" then
      var v :- UnmarshalUint(attr.value, Base0);
      Ok(c.(cssid := Some(v)))
    else if attr.name == "ssid" then
      var v :- UnmarshalUint(attr.value, Base0);
      Ok(c.(ssid := Some(v)))
    else if attr.name == "devno" then
      var v :- UnmarshalUint(attr.value, Base0);
      Ok(c.(devNo := Some(v)))
    else Ok(c)
  }

  /** One iteration of DomainAddressVirtioSerial.UnmarshalXML's attribute loop. */
  function StepVirtioSerial(v: AddressVirtioSerial, attr: Attr): Result<AddressVirtioSerial> {
    if attr.name == "controller" then
      var n :- UnmarshalUint(attr.value, Base10);
      Ok(v.(controller := Some(n)))
    else if attr.name == "bus" then
      var n :- UnmarshalUint(attr.value, Base10);
      Ok(v.(bus := Some(n)))
    else if attr.name == "port" then
      var n :- UnmarshalUint(attr.value, Base10);
      Ok(v.(port := Some(n)))
    else Ok(v)
  }

  /** One iteration of DomainAddressSpaprVIO.UnmarshalXML's attribute loop. */
  function StepSpaprVIO(s: AddressSpaprVIO, attr: Attr): Result<AddressSpaprVIO> {
    if attr.name == "reg" then
      var v :- UnmarshalUint(attr.value, Base16);
      Ok(s.(reg := Some(v)))
    else Ok(s)
  }

  // ---------------------------------------------------- the decoder

  /**
   * One branch of the dispatcher: a fresh member `k` is allocated, its
   * attribute loop runs over all the start element's attributes, and the
   * member is stored in the receiver, whose other members are left as they were.
   */
  function DecodeMember(k: Kind, from: DomainAddress, attrs: seq<Attr>): Result<DomainAddress> {
    match k
    case USB =>
      var m :- FoldAttrs(EmptyUSB, attrs, StepUSB);
      Ok(from.(usb := Some(m)))
    case PCI =>
      var m :- FoldAttrs(EmptyPCI, attrs, StepPCI);
      Ok(from.(pci := Some(m)))
    case Drive =>
      var m :- FoldAttrs(EmptyDrive, attrs, StepDrive);
      Ok(from.(drive := Some(m)))
    case DIMM =>
      var m :- FoldAttrs(EmptyDIMM, attrs, StepDIMM);
      Ok(from.(dimm := Some(m)))
    case ISA =>
      var m :- FoldAttrs(EmptyISA, attrs, StepISA);
      Ok(from.(isa := Some(m)))
    case VirtioMMIO =>
      Ok(from.(virtioMMIO := Some(AddressVirtioMMIO)))
    case CCW =>
      var m :- FoldAttrs(EmptyCCW, attrs, StepCCW);
      Ok(from.(ccw := Some(m)))
    case VirtioSerial =>
      var m :- FoldAttrs(EmptyVirtioSerial, attrs, StepVirtioSerial);
      Ok(from.(virtioSerial := Some(m)))
    case SpaprVIO =>
      var m :- FoldAttrs(EmptySpaprVIO, attrs, StepSpaprVIO);
      Ok(from.(spaprVIO := Some(m)))
  }

  /**
   * DomainAddress.UnmarshalXML into the receiver `from`: the first `type`
   * attribute picks the member; a missing or empty `type`, or one no member
   * is called, leaves the receiver as it was and is not an error.
   */
  function DecodeAddress(from: DomainAddress, attrs: seq<Attr>): Result<DomainAddress> {
    var typ := Lookup(attrs, "type").GetOr("");
    if typ == "" then Ok(from)
    else
      match KindOf(typ)
      case None => Ok(from)
      case Some(k) => DecodeMember(k, from, attrs)
  }

  /** DomainAddress.UnmarshalXML, with each member's attribute loop run as a loop. */
  method UnmarshalAddress(from: DomainAddress, attrs: seq<Attr>) returns (r: Result<DomainAddress>)
    ensures r == DecodeAddress(from, attrs)
  {
    var typ, _ := GetAttr(attrs, "type");
    if typ == "" {
      return Ok(from);
    }
    var kind := KindOf(typ);
    if kind.None? {
      return Ok(from);
    }
    match kind.value
    case USB =>
      var m := UnmarshalAttrs(EmptyUSB, attrs, StepUSB);
      if m.Err? { return Err(m.error); }
      r := Ok(from.(usb := Some(m.value)));
    case PCI =>
      var m := UnmarshalAttrs(EmptyPCI, attrs, StepPCI);
      if m.Err? { return Err(m.error); }
      r := Ok(from.(pci := Some(m.value)));
    case Drive =>
      var m := UnmarshalAttrs(EmptyDrive, attrs, StepDrive);
      if m.Err? { return Err(m.error); }
      r := Ok(from.(drive := Some(m.value)));
    case DIMM =>
      var m := UnmarshalAttrs(EmptyDIMM, attrs, StepDIMM);
      if m.Err? { return Err(m.error); }
      r := Ok(from.(dimm := Some(m.value)));
    case ISA =>
      var m := UnmarshalAttrs(EmptyISA, attrs, StepISA);
      if m.Err? { return Err(m.error); }
      r := Ok(from.(isa := Some(m.value)));
    case VirtioMMIO =>
      r := Ok(from.(virtioMMIO := Some(AddressVirtioMMIO)));
    case CCW =>
      var m := UnmarshalAttrs(EmptyCCW, attrs, StepCCW);
      if m.Err? { return Err(m.error); }
      r := Ok(from.(ccw := Some(m.value)));
    case VirtioSerial =>
      var m := UnmarshalAttrs(EmptyVirtioSerial, attrs, StepVirtioSerial);
      if m.Err? { return Err(m.error); }
      r := Ok(from.(virtioSerial := Some(m.value)));
    case SpaprVIO =>
      var m := UnmarshalAttrs(EmptySpaprVIO, attrs, StepSpaprVIO);
      if m.Err? { return Err(m.error); }
      r := Ok(from.(spaprVIO := Some(m.value)));
  }

  // ---------------------------------------------------------- lemmas

  /** Member round trips: each member's attribute loop reads back exactly what its encoder wrote. */
  lemma RoundTripUSB(u: AddressUSB)
    ensures FoldAttrs(EmptyUSB, AttrsUSB(u), StepUSB) == Ok(u)
  {
    var a1, a2, a3 := UintAttr("bus", u.bus, Dec), StrAttr("port", u.port), UintAttr("device", u.device, Dec);
    var s1 := EmptyUSB.(bus := u.bus);
    var s2 := s1.(port := u.port);
    assert FoldAttrs(EmptyUSB, a1, StepUSB) == Ok(s1) by {
      if u.bus.Some? { UnmarshalSprintf(u.bus.value, Dec, Base10); }
      FoldPiece(EmptyUSB, s1, a1, StepUSB);
    }
    FoldPiece(s1, s2, a2, StepUSB);
    assert FoldAttrs(s2, a3, StepUSB) == Ok(u) by {
      if u.device.Some? { UnmarshalSprintf(u.device.value, Dec, Base10); }
      FoldPiece(s2, u, a3, StepUSB);
    }
    FoldChain(EmptyUSB, a1, s1, a2, s2, StepUSB);
    FoldChain(EmptyUSB, a1 + a2, s2, a3, u, StepUSB);
  }

  lemma RoundTripPCI(p: AddressPCI)
    ensures FoldAttrs(EmptyPCI, AttrsPCI(p), StepPCI) == Ok(p)
  {
    var a1, a2, a3 := UintAttr("domain", p.domain, Hex(4)), UintAttr("bus", p.bus, Hex(2)), UintAttr("slot", p.slot, Hex(2));
    var a4, a5 := UintAttr("function", p.func, Hex(0)), StrAttr("multifunction", p.multiFunction);
    var s1 := EmptyPCI.(domain := p.domain);
    var s2 := s1.(bus := p.bus);
    var s3 := s2.(slot := p.slot);
    var s4 := s3.(func := p.func);
    assert FoldAttrs(EmptyPCI, a1, StepPCI) == Ok(s1) by {
      if p.domain.Some? { UnmarshalSprintf(p.domain.value, Hex(4), Base0); }
      FoldPiece(EmptyPCI, s1, a1, StepPCI);
    }
    assert FoldAttrs(s1, a2, StepPCI) == Ok(s2) by {
      if p.bus.Some? { UnmarshalSprintf(p.bus.value, Hex(2), Base0); }
      FoldPiece(s1, s2, a2, StepPCI);
    }
    assert FoldAttrs(s2, a3, StepPCI) == Ok(s3) by {
      if p.slot.Some? { UnmarshalSprintf(p.slot.value, Hex(2), Base0); }
      FoldPiece(s2, s3, a3, StepPCI);
    }
    assert FoldAttrs(s3, a4, StepPCI) == Ok(s4) by {
      if p.func.Some? { UnmarshalSprintf(p.func.value, Hex(0), Base0); }
      FoldPiece(s3, s4, a4, StepPCI);
    }
    FoldPiece(s4, p, a5, StepPCI);
    FoldChain(EmptyPCI, a1, s1, a2, s2, StepPCI);
    FoldChain(EmptyPCI, a1 + a2, s2, a3, s3, StepPCI);
    FoldChain(EmptyPCI, a1 + a2 + a3, s3, a4, s4, StepPCI);
    FoldChain(EmptyPCI, a1 + a2 + a3 + a4, s4, a5, p, StepPCI);
  }

  lemma RoundTripDrive(d: AddressDrive)
    ensures FoldAttrs(EmptyDrive, AttrsDrive(d), StepDrive) == Ok(d)
  {
    var a1, a2 := UintAttr("controller", d.controller, Dec), UintAttr("bus", d.bus, Dec);
    var a3, a4 := UintAttr("target", d.target, Dec), UintAttr("unit", d.unit, Dec);
    var s1 := EmptyDrive.(controller := d.controller);
    var s2 := s1.(bus := d.bus);
    var s3 := s2.(target := d.target);
    assert FoldAttrs(EmptyDrive, a1, StepDrive) == Ok(s1) by {
      if d.controller.Some? { UnmarshalSprintf(d.controller.value, Dec, Base10); }
      FoldPiece(EmptyDrive, s1, a1, StepDrive);
    }
    assert FoldAttrs(s1, a2, StepDrive) == Ok(s2) by {
      if d.bus.Some? { UnmarshalSprintf(d.bus.value, Dec, Base10); }
      FoldPiece(s1, s2, a2, StepDrive);
    }
    assert FoldAttrs(s2, a3, StepDrive) == Ok(s3) by {
      if d.target.Some? { UnmarshalSprintf(d.target.value, Dec, Base10); }
      FoldPiece(s2, s3, a3, StepDrive);
    }
    assert FoldAttrs(s3, a4, StepDrive) == Ok(d) by {
      if d.unit.Some? { UnmarshalSprintf(d.unit.value, Dec, Base10); }
      FoldPiece(s3, d, a4, StepDrive);
    }
    FoldChain(EmptyDrive, a1, s1, a2, s2, StepDrive);
    FoldChain(EmptyDrive, a1 + a2, s2, a3, s3, StepDrive);
    FoldChain(EmptyDrive, a1 + a2 + a3, s3, a4, d, StepDrive);
  }

  lemma RoundTripDIMM(d: AddressDIMM)
    ensures FoldAttrs(EmptyDIMM, AttrsDIMM(d), StepDIMM) == Ok(d)
  {
    var a1, a2 := UintAttr("slot", d.slot, Dec), UintAttr("base", d.base, Hex(0));
    var s1 := EmptyDIMM.(slot := d.slot);
    assert FoldAttrs(EmptyDIMM, a1, StepDIMM) == Ok(s1) by {
      if d.slot.Some? { UnmarshalSprintf(d.slot.value, Dec, Base10); }
      FoldPiece(EmptyDIMM, s1, a1, StepDIMM);
    }
    assert FoldAttrs(s1, a2, StepDIMM) == Ok(d) by {
      if d.base.Some? { UnmarshalSprintf(d.base.value, Hex(0), Base16); }
      FoldPiece(s1, d, a2, StepDIMM);
    }
    FoldChain(EmptyDIMM, a1, s1, a2, d, StepDIMM);
  }

  lemma RoundTripISA(i: AddressISA)
    ensures FoldAttrs(EmptyISA, AttrsISA(i), StepISA) == Ok(i)
  {
    var a1, a2 := UintAttr("iobase", i.ioBase, Hex(0)), UintAttr("irq", i.irq, Hex(0));
    var s1 := EmptyISA.(ioBase := i.ioBase);
    assert FoldAttrs(EmptyISA, a1, StepISA) == Ok(s1) by {
      if i.ioBase.Some? { UnmarshalSprintf(i.ioBase.value, Hex(0), Base16); }
      FoldPiece(EmptyISA, s1, a1, StepISA);
    }
    assert FoldAttrs(s1, a2, StepISA) == Ok(i) by {
      if i.irq.Some? { UnmarshalSprintf(i.irq.value, Hex(0), Base16); }
      FoldPiece(s1, i, a2, StepISA);
    }
    FoldChain(EmptyISA, a1, s1, a2, i, StepISA);
  }

  lemma RoundTripCCW(c: AddressCCW)
    ensures FoldAttrs(EmptyCCW, AttrsCCW(c), StepCCW) == Ok(c)
  {
    var a1, a2, a3 := UintAttr("cssid", c.cssid, Hex(0)), UintAttr("ssid", c.ssid, Hex(0)), UintAttr("devno", c.devNo, Hex(4));
    var s1 := EmptyCCW.(cssid := c.cssid);
    var s2 := s1.(ssid := c.ssid);
    assert FoldAttrs(EmptyCCW, a1, StepCCW) == Ok(s1) by {
      if c.cssid.Some? { UnmarshalSprintf(c.cssid.value, Hex(0), Base0); }
      FoldPiece(EmptyCCW, s1, a1, StepCCW);
    }
    assert FoldAttrs(s1, a2, StepCCW) == Ok(s2) by {
      if c.ssid.Some? { UnmarshalSprintf(c.ssid.value, Hex(0), Base0); }
      FoldPiece(s1, s2, a2, StepCCW);
    }
    assert FoldAttrs(s2, a3, StepCCW) == Ok(c) by {
      if c.devNo.Some? { UnmarshalSprintf(c.devNo.value, Hex(4), Base0); }
      FoldPiece(s2, c, a3, StepCCW);
    }
    FoldChain(EmptyCCW, a1, s1, a2, s2, StepCCW);
    FoldChain(EmptyCCW, a1 + a2, s2, a3, c, StepCCW);
  }

  lemma RoundTripVirtioSerial(v: AddressVirtioSerial)
    ensures FoldAttrs(EmptyVirtioSerial, AttrsVirtioSerial(v), StepVirtioSerial) == Ok(v)
  {
    var a1, a2, a3 := UintAttr("controller", v.controller, Dec), UintAttr("bus", v.bus, Dec), UintAttr("port", v.port, Dec);
    var s1 := EmptyVirtioSerial.(controller := v.controller);
    var s2 := s1.(bus := v.bus);
    assert FoldAttrs(EmptyVirtioSerial, a1, StepVirtioSerial) == Ok(s1) by {
      if v.controller.Some? { UnmarshalSprintf(v.controller.value, Dec, Base10); }
      FoldPiece(EmptyVirtioSerial, s1, a1, StepVirtioSerial);
    }
    assert FoldAttrs(s1, a2, StepVirtioSerial) == Ok(s2) by {
      if v.bus.Some? { UnmarshalSprintf(v.bus.value, Dec, Base10); }
      FoldPiece(s1, s2, a2, StepVirtioSerial);
    }
    assert FoldAttrs(s2, a3, StepVirtioSerial) == Ok(v) by {
      if v.port.Some? { UnmarshalSprintf(v.port.value, Dec, Base10); }
      FoldPiece(s2, v, a3, StepVirtioSerial);
    }
    FoldChain(EmptyVirtioSerial, a1, s1, a2, s2, StepVirtioSerial);
    FoldChain(EmptyVirtioSerial, a1 + a2, s2, a3, v, StepVirtioSerial);
  }

  lemma RoundTripSpaprVIO(s: AddressSpaprVIO)
    ensures FoldAttrs(EmptySpaprVIO, AttrsSpaprVIO(s), StepSpaprVIO) == Ok(s)
  {
    if s.reg.Some? { UnmarshalSprintf(s.reg.value, Hex(0), Base16); }
    FoldPiece(EmptySpaprVIO, s, AttrsSpaprVIO(s), StepSpaprVIO);
  }

  /**
   * The `type` attribute does not disturb a member's loop: every member
   * ignores it, so the loop over [type] + attributes is the loop over the
   * attributes.
   */
  lemma MemberSkipsType(k: Kind, from: DomainAddress, typ: string, attrs: seq<Attr>)
    ensures DecodeMember(k, from, [Attr("type", typ)] + attrs) == DecodeMember(k, from, attrs)
  {
    var t := [Attr("type", typ)] + attrs;
    assert t[0] == Attr("type", typ) && t[1..] == attrs;
  }

  /** A member decoded from what its encoder wrote is the member itself, stored into the receiver. */
  lemma MemberRoundTrip(a: DomainAddress, k: Kind, from: DomainAddress)
    requires Has(a, k)
    ensures DecodeMember(k, from, MemberAttrs(a, k)) == Ok(Assign(from, k, a))
  {
    match k
    case USB => RoundTripUSB(a.usb.value);
    case PCI => RoundTripPCI(a.pci.value);
    case Drive => RoundTripDrive(a.drive.value);
    case DIMM => RoundTripDIMM(a.dimm.value);
    case ISA => RoundTripISA(a.isa.value);
    case VirtioMMIO =>
      match a.virtioMMIO.value {
        case AddressVirtioMMIO =>
      }
    case CCW => RoundTripCCW(a.ccw.value);
    case VirtioSerial => RoundTripVirtioSerial(a.virtioSerial.value);
    case SpaprVIO => RoundTripSpaprVIO(a.spaprVIO.value);
  }

  /**
   * Decoding what the encoder wrote (on a start element with no attributes
   * of its own) into an empty receiver gives back the first member present,
   * with equal fields, and no other member.
   */
  lemma RoundTrip(a: DomainAddress, k: Kind, name: string)
    requires FirstKind(a) == Some(k)
    ensures var toks := MarshalAddress(a, name, []);
      && toks != []
      && DecodeAddress(EmptyAddress, toks[0].attrs) == Ok(Assign(EmptyAddress, k, a))
      && OnlyMember(Assign(EmptyAddress, k, a), k)
  {
    var attrs := [Attr("type", TypeName(k))] + MemberAttrs(a, k);
    assert MarshalAddress(a, name, [])[0].attrs == attrs;
    assert attrs[0] == Attr("type", TypeName(k));
    assert Lookup(attrs, "type") == Some(TypeName(k));
    MemberSkipsType(k, EmptyAddress, TypeName(k), MemberAttrs(a, k));
    MemberRoundTrip(a, k, EmptyAddress);
    var r := Assign(EmptyAddress, k, a);
    forall j | j != k
      ensures !Has(r, j)
    {
      assert Has(Clear(r, k), j) == Has(Clear(EmptyAddress, k), j);
    }
  }

  /** An address whose only member is `k` is the empty address with member `k` assigned. */
  lemma AssignOnly(a: DomainAddress, k: Kind)
    requires OnlyMember(a, k)
    ensures Assign(EmptyAddress, k, a) == a
  {
    assert k != USB ==> !Has(a, USB);
    assert k != PCI ==> !Has(a, PCI);
    assert k != Drive ==> !Has(a, Drive);
    assert k != DIMM ==> !Has(a, DIMM);
    assert k != ISA ==> !Has(a, ISA);
    assert k != VirtioMMIO ==> !Has(a, VirtioMMIO);
    assert k != CCW ==> !Has(a, CCW);
    assert k != VirtioSerial ==> !Has(a, VirtioSerial);
    assert k != SpaprVIO ==> !Has(a, SpaprVIO);
  }

  /** For an address with exactly one member, the round trip is the identity. */
  lemma RoundTripOnly(a: DomainAddress, k: Kind, name: string)
    requires OnlyMember(a, k)
    ensures var toks := MarshalAddress(a, name, []);
      toks != [] && DecodeAddress(EmptyAddress, toks[0].attrs) == Ok(a)
  {
    assert FirstKind(a) == Some(k);
    RoundTrip(a, k, name);
    AssignOnly(a, k);
  }

  /**
   * A decode that picks member `k` sets it and leaves every other member of
   * the receiver as it was; a missing, empty or unknown `type` changes
   * nothing.
   */
  lemma DecodeSetsOne(from: DomainAddress, attrs: seq<Attr>)
    ensures var typ := Lookup(attrs, "type").GetOr("");
      match KindOf(typ)
      case None => DecodeAddress(from, attrs) == Ok(from)
      case Some(k) => DecodeAddress(from, attrs).Ok? ==>
        Has(DecodeAddress(from, attrs).value, k) && Clear(DecodeAddress(from, attrs).value, k) == Clear(from, k)
  {
  }

  /** Into an empty receiver, a decode sets at most one member: exactly the one `type` names. */
  lemma DecodeAtMostOne(attrs: seq<Attr>)
    requires DecodeAddress(EmptyAddress, attrs).Ok?
    ensures var r := DecodeAddress(EmptyAddress, attrs).value;
      match KindOf(Lookup(attrs, "type").GetOr(""))
      case None => r == EmptyAddress
      case Some(k) => OnlyMember(r, k)
  {
  }

  /** Member `k`'s loop fails exactly when one of the attributes it parses as a number does not parse. */
  lemma MemberOkIff(k: Kind, from: DomainAddress, attrs: seq<Attr>)
    ensures DecodeMember(k, from, attrs).Ok? <==> forall i | 0 <= i < |attrs| :: Accepts(k, attrs[i])
  {
    match k
    case USB => FoldOkIff(EmptyUSB, attrs, StepUSB, a => Accepts(USB, a));
    case PCI => FoldOkIff(EmptyPCI, attrs, StepPCI, a => Accepts(PCI, a));
    case Drive => FoldOkIff(EmptyDrive, attrs, StepDrive, a => Accepts(Drive, a));
    case DIMM => FoldOkIff(EmptyDIMM, attrs, StepDIMM, a => Accepts(DIMM, a));
    case ISA => FoldOkIff(EmptyISA, attrs, StepISA, a => Accepts(ISA, a));
    case VirtioMMIO =>
    case CCW => FoldOkIff(EmptyCCW, attrs, StepCCW, a => Accepts(CCW, a));
    case VirtioSerial => FoldOkIff(EmptyVirtioSerial, attrs, StepVirtioSerial, a => Accepts(VirtioSerial, a));
    case SpaprVIO => FoldOkIff(EmptySpaprVIO, attrs, StepSpaprVIO, a => Accepts(SpaprVIO, a));
  }

  /**
   * A decode fails exactly when `type` picks a member and some attribute
   * that member parses as a number does not parse in that member's base.
   */
  lemma DecodeOkIff(from: DomainAddress, attrs: seq<Attr>)
    ensures match KindOf(Lookup(attrs, "type").GetOr(""))
      case None => DecodeAddress(from, attrs).Ok?
      case Some(k) => DecodeAddress(from, attrs).Ok? <==> forall i | 0 <= i < |attrs| :: Accepts(k, attrs[i])
  {
    match KindOf(Lookup(attrs, "type").GetOr(""))
    case None =>
    case Some(k) => MemberOkIff(k, from, attrs);
  }

  /** The chosen member reads only its own attributes: dropping every other one changes nothing. */
  lemma DecodeIgnoresForeign(from: DomainAddress, attrs: seq<Attr>, k: Kind)
    ensures DecodeMember(k, from, attrs) == DecodeMember(k, from, Keep(attrs, FieldNames(k)))
  {
    var names := FieldNames(k);
    match k
    case USB => FoldIgnoresForeign(EmptyUSB, attrs, names, StepUSB);
    case PCI => FoldIgnoresForeign(EmptyPCI, attrs, names, StepPCI);
    case Drive => FoldIgnoresForeign(EmptyDrive, attrs, names, StepDrive);
    case DIMM => FoldIgnoresForeign(EmptyDIMM, attrs, names, StepDIMM);
    case ISA => FoldIgnoresForeign(EmptyISA, attrs, names, StepISA);
    case VirtioMMIO =>
    case CCW => FoldIgnoresForeign(EmptyCCW, attrs, names, StepCCW);
    case VirtioSerial => FoldIgnoresForeign(EmptyVirtioSerial, attrs, names, StepVirtioSerial);
    case SpaprVIO => FoldIgnoresForeign(EmptySpaprVIO, attrs, names, StepSpaprVIO);
  }

  /** A PCI address with every field zero except slot 3 is written with the PCI field widths. */
  lemma PciExample()
    ensures var a := EmptyAddress.(pci := Some(AddressPCI(Some(0), Some(0), Some(3), Some(0), "")));
      MarshalAddress(a, "address", []) == [
        StartElement("address", [Attr("type", "pci"), Attr("domain", "0x0000"), Attr("bus", "0x00"),
          Attr("slot", "0x03"), Attr("function", "0x0")]),
        EndElement("address")]
  {
    PciWidthExamples();
    var p := AddressPCI(Some(0), Some(0), Some(3), Some(0), "");
    var a := EmptyAddress.(pci := Some(p));
    assert FirstKind(a) == Some(PCI);
    assert AttrsPCI(p) == [Attr("domain", "0x0000"), Attr("bus", "0x00"), Attr("slot", "0x03"), Attr("function", "0x0")];
    assert MemberAttrs(a, PCI) == AttrsPCI(p);
    assert [] + [Attr("type", "pci")] + AttrsPCI(p) == [Attr("type", "pci"), Attr("domain", "0x0000"), Attr("bus", "0x00"),
      Attr("slot", "0x03"), Attr("function", "0x0")];
  }

  /**
   * DomainAddress.UnmarshalXML as written: an empty type is skipped and a
   * known type's member decoder skips the rest of the element, but an
   * unknown type returns without reading the element.
   */
  function AddressOutcomeAsWritten(from: DomainAddress, attrs: seq<Attr>): (o: Outcome<DomainAddress>)
    ensures o.result == DecodeAddress(from, attrs)
    ensures var typ := Lookup(attrs, "type").GetOr("");
      o.consumed <==> typ == "" || exists k :: TypeName(k) == typ
  {
    var typ := Lookup(attrs, "type").GetOr("");
    assert KindOf(typ).Some? ==> TypeName(KindOf(typ).value) == typ;
    Outcome(DecodeAddress(from, attrs), typ == "" || KindOf(typ).Some?)
  }

  /** DomainAddress.UnmarshalXML with d.Skip() before the final return too: every branch consumes the element. */
  function AddressOutcome(from: DomainAddress, attrs: seq<Attr>): (o: Outcome<DomainAddress>)
    ensures o.result == DecodeAddress(from, attrs) && o.consumed
  {
    Outcome(DecodeAddress(from, attrs), true)
  }

  /** As written, an address of a type the library does not know makes the engine fail. */
  lemma UnknownTypeRejected(from: DomainAddress)
    ensures AfterHook("address", AddressOutcomeAsWritten(from, [Attr("type", "unassigned")]))
      == Err(NotConsumed("address"))
  {
    assert Lookup([Attr("type", "unassigned")], "type") == Some("unassigned");
  }

  /** With the element skipped, an address of unknown type leaves the receiver as it was, as an empty type does. */
  lemma UnknownTypeIgnored(from: DomainAddress, attrs: seq<Attr>)
    requires KindOf(Lookup(attrs, "type").GetOr("")).None?
    ensures AfterHook("address", AddressOutcome(from, attrs)) == Ok(from)
  {
  }
}
